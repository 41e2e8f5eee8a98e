/**
 The verdict of `check_pnpm_audit_exceptions.py`: the index of exceptions, the de-duplicating check of the findings,
 and the policy that the exit code 0 stands for.
 */
module AuditGate {
  import opened Prelude
  import opened AuditReport
  import ExceptionFile

  type Record = ExceptionFile.Record
  type Key = (string, string)

  const REQUIRED_FIELDS := {"package", "advisory", "severity", "mitigation", "expires_on"}
  const HIGH_SEVERITIES := {"high", "critical"}

  /** The required fields, and so every complete record, can be written in the format of the exception file. */
  lemma {:induction false} RequiredFieldsArePlain(f: string)
    requires f in REQUIRED_FIELDS
    ensures ExceptionFile.PlainKey(f)
  {
    assert f[0] == 'p' || f[0] == 'a' || f[0] == 's' || f[0] == 'm' || f[0] == 'e';
    assert f == "package" || f == "advisory" || f == "severity" || f == "mitigation" || f == "expires_on";
    if f == "expires_on" {
      assert f[2] == 'p' && "exceptions"[2] == 'c';
    }
  }

  // ---------------------------------------------------------------- normalization

  function Lowered(rt: Runtime, s: string): string {
    rt.lower(ExceptionFile.Strip(s))
  }

  /** `(severity or "").strip().lower()`: a truthy value that is not a string raises. */
  function NormalizeSeverity(rt: Runtime, severity: Json): Py<string> {
    if !Truthy(severity) then Value(rt.lower(""))
    else if severity.Str? then Value(Lowered(rt, severity.s))
    else Raised
  }

  function NormalizePackage(rt: Runtime, name: Json): string {
    if name.Null? then "" else ExceptionFile.Strip(ToStr(rt, name))
  }

  function NormalizeAdvisory(rt: Runtime, advisory: Json): string {
    if advisory.Null? then "" else Lowered(rt, ToStr(rt, advisory))
  }

  // ---------------------------------------------------------------- what one record, one finding stands for

  datatype Problem =
    | MissingFields(fields: set<string>)
    | InvalidDate
    | BlankKey
    | DuplicateException(key: Key)
    | NoAdvisoryId
    | SeverityMismatch(at: Key, expected: string, got: string)

  /** A usable record permits findings of its severity (any, when blank) up to and including its day. */
  datatype Exemption =
    | Rejected(why: Problem)
    | Exemption(key: Key, severity: string, expiresOn: int)

  function Field(e: Record, f: string): string {
    if f in e then e[f] else ""
  }

  function LackedFields(e: Record): set<string> {
    set f | f in REQUIRED_FIELDS && Field(e, f) == ""
  }

  function ReadException(rt: Runtime, e: Record): Exemption {
    var missing := LackedFields(e);
    if missing != {} then Rejected(MissingFields(missing))
    else
      var date := rt.parseDate(Field(e, "expires_on"));
      var key := (ExceptionFile.Strip(Field(e, "package")), Lowered(rt, Field(e, "advisory")));
      if date.None? then Rejected(InvalidDate)
      else if key.0 == "" || key.1 == "" then Rejected(BlankKey)
      else Exemption(key, Lowered(rt, Field(e, "severity")), date.value)
  }

  function ReadExceptions(rt: Runtime, es: seq<Record>): (r: seq<Exemption>)
    ensures |r| == |es|
    decreases |es|
  {
    if es == [] then [] else ReadExceptions(rt, es[..|es| - 1]) + [ReadException(rt, es[|es| - 1])]
  }

  /** The gate looks only at named findings of high or critical severity; those need an advisory id. */
  datatype Seen = Skipped | Unidentified | Keyed(key: Key, severity: string)

  function LookAt(rt: Runtime, f: Finding): Py<Seen> {
    var sev :- NormalizeSeverity(rt, f.severity);
    Value(Sorted(sev, Truthy(f.name), (NormalizePackage(rt, f.name), NormalizeAdvisory(rt, f.advisory))))
  }

  function Sorted(severity: string, named: bool, key: Key): Seen {
    if severity !in HIGH_SEVERITIES || !named then Skipped
    else if key.1 == "" then Unidentified
    else Keyed(key, severity)
  }

  function LookAtAll(rt: Runtime, fs: seq<Finding>): (r: Py<seq<Seen>>)
    ensures r.Value? ==> |r.value| == |fs|
    decreases |fs|
  {
    if fs == [] then Value([])
    else
      var before :- LookAtAll(rt, fs[..|fs| - 1]);
      var last :- LookAt(rt, fs[|fs| - 1]);
      Value(before + [last])
  }

  // ---------------------------------------------------------------- the policy

  /** Every exception is usable and no two share a key. */
  ghost predicate ExceptionsValid(es: seq<Exemption>) {
    && (forall i :: 0 <= i < |es| ==> es[i].Exemption?)
    && forall i, j :: 0 <= i < j < |es| && es[i].Exemption? && es[j].Exemption? ==> es[i].key != es[j].key
  }

  predicate Covers(today: int, e: Exemption, v: Seen) {
    && e.Exemption? && v.Keyed?
    && e.key == v.key
    && (e.severity == "" || e.severity == v.severity)
    && today <= e.expiresOn
  }

  ghost predicate Covered(today: int, es: seq<Exemption>, v: Seen) {
    exists e :: e in es && Covers(today, e, v)
  }

  /** The `i`-th finding is the first one with its key; later ones are duplicates. */
  ghost predicate IsFirst(vs: seq<Seen>, i: nat) {
    && i < |vs| && vs[i].Keyed?
    && forall j :: 0 <= j < i && vs[j].Keyed? ==> vs[j].key != vs[i].key
  }

  /** What the gate is for: the exceptions are in order, and every distinct serious finding is covered by one. */
  ghost predicate Allowed(today: int, es: seq<Exemption>, vs: seq<Seen>) {
    && ExceptionsValid(es)
    && Unidentified !in vs
    && forall i: nat :: IsFirst(vs, i) ==> Covered(today, es, vs[i])
  }

  // ---------------------------------------------------------------- the exception index

  type Index = map<Key, Exemption>

  ghost predicate FirstWithKey(es: seq<Exemption>, i: nat, k: Key) {
    && i < |es| && es[i].Exemption? && es[i].key == k
    && forall j :: 0 <= j < i && es[j].Exemption? ==> es[j].key != k
  }

  /** The index holds, under each key of a usable record, the first such record. */
  ghost predicate IsIndexOf(es: seq<Exemption>, index: Index) {
    && (forall i :: 0 <= i < |es| && es[i].Exemption? ==> es[i].key in index)
    && forall k :: k in index ==> exists i: nat :: FirstWithKey(es, i, k) && index[k] == es[i]
  }

  function ExemptionKeys(es: seq<Exemption>): set<Key> {
    set e | e in es && e.Exemption? :: e.key
  }

  /** What is wrong with the records, in their order: those not usable, and those whose key an earlier one has. */
  function RecordErrors(es: seq<Exemption>): seq<Problem>
    decreases |es|
  {
    if es == [] then []
    else
      var before, last := es[..|es| - 1], es[|es| - 1];
      RecordErrors(before) +
      match last
      case Rejected(why) => [why]
      case Exemption(key, _, _) => if key in ExemptionKeys(before) then [DuplicateException(key)] else []
  }

  lemma {:induction false} RecordErrorsGrow(es: seq<Exemption>, e: Exemption)
    ensures e.Rejected? ==> RecordErrors(es + [e]) == RecordErrors(es) + [e.why]
    ensures e.Exemption? && e.key in ExemptionKeys(es) ==>
              RecordErrors(es + [e]) == RecordErrors(es) + [DuplicateException(e.key)]
    ensures e.Exemption? && e.key !in ExemptionKeys(es) ==> RecordErrors(es + [e]) == RecordErrors(es)
  {
    assert (es + [e])[..|es|] == es;
  }

  lemma {:induction false} ValidGrows(es: seq<Exemption>, e: Exemption)
    ensures ExceptionsValid(es + [e]) <==> ExceptionsValid(es) && e.Exemption? && e.key !in ExemptionKeys(es)
  {
    var all := es + [e];
    assert all[|es|] == e;
    assert forall i :: 0 <= i < |es| ==> all[i] == es[i] && es[i] in es;
    if e.Exemption? && e.key in ExemptionKeys(es) {
      var d :| d in es && d.Exemption? && d.key == e.key;
      var j :| 0 <= j < |es| && es[j] == d;
      assert all[j].key == all[|es|].key;
    }
  }

  lemma {:induction false} ErrorsIffInvalid(es: seq<Exemption>)
    ensures RecordErrors(es) == [] <==> ExceptionsValid(es)
    decreases |es|
  {
    if es != [] {
      var before, last := es[..|es| - 1], es[|es| - 1];
      assert es == before + [last];
      ErrorsIffInvalid(before);
      ValidGrows(before, last);
      RecordErrorsGrow(before, last);
    }
  }

  lemma {:induction false} IndexedKeys(es: seq<Exemption>, index: Index)
    requires IsIndexOf(es, index)
    ensures forall k :: k in index <==> k in ExemptionKeys(es)
  {
    forall k | k in index
      ensures k in ExemptionKeys(es)
    {
      var i: nat :| FirstWithKey(es, i, k) && index[k] == es[i];
      assert es[i] in es;
    }
  }

  /** What the loop has built after the records read as `es`. */
  ghost predicate Indexed(es: seq<Exemption>, index: Index, errors: seq<Problem>) {
    IsIndexOf(es, index) && errors == RecordErrors(es) && |index| + |errors| == |es|
  }

  lemma {:induction false} IndexedRejected(es: seq<Exemption>, e: Exemption, index: Index, errors: seq<Problem>)
    requires Indexed(es, index, errors) && e.Rejected?
    ensures Indexed(es + [e], index, errors + [e.why])
  {
    IndexUnchanged(es, e, index);
    RecordErrorsGrow(es, e);
  }

  lemma {:induction false} IndexedDuplicate(es: seq<Exemption>, e: Exemption, index: Index, errors: seq<Problem>)
    requires Indexed(es, index, errors) && e.Exemption? && e.key in index
    ensures Indexed(es + [e], index, errors + [DuplicateException(e.key)])
  {
    IndexUnchanged(es, e, index);
    IndexedKeys(es, index);
    RecordErrorsGrow(es, e);
  }

  lemma {:induction false} IndexedNew(es: seq<Exemption>, e: Exemption, index: Index, errors: seq<Problem>)
    requires Indexed(es, index, errors) && e.Exemption? && e.key !in index
    ensures Indexed(es + [e], index[e.key := e], errors)
  {
    IndexGrown(es, e, index);
    IndexedKeys(es, index);
    RecordErrorsGrow(es, e);
  }

  lemma {:induction false} ReadsOneMore(rt: Runtime, records: seq<Record>, n: nat)
    requires n < |records|
    ensures ReadExceptions(rt, records[..n + 1]) == ReadExceptions(rt, records[..n]) + [ReadException(rt, records[n])]
  {
    assert records[..n + 1][..n] == records[..n];
  }

  /** Every record either opens an index entry or yields exactly one problem. */
  method BuildIndex(rt: Runtime, records: seq<Record>) returns (index: Index, errors: seq<Problem>)
    ensures IsIndexOf(ReadExceptions(rt, records), index)
    ensures |index| + |errors| == |records|
    ensures errors == RecordErrors(ReadExceptions(rt, records))
    ensures errors == [] <==> ExceptionsValid(ReadExceptions(rt, records))
  {
    index, errors := map[], [];
    ghost var es: seq<Exemption> := [];
    for n := 0 to |records|
      invariant es == ReadExceptions(rt, records[..n])
      invariant Indexed(es, index, errors)
    {
      var e := ReadException(rt, records[n]);
      ReadsOneMore(rt, records, n);
      if e.Rejected? {
        IndexedRejected(es, e, index, errors);
        errors := errors + [e.why];
      } else if e.key in index {
        IndexedDuplicate(es, e, index, errors);
        errors := errors + [DuplicateException(e.key)];
      } else {
        IndexedNew(es, e, index, errors);
        index := index[e.key := e];
      }
      es := es + [e];
    }
    assert records[..|records|] == records;
    ErrorsIffInvalid(es);
  }

  /** A rejected record leaves the index as it was. */
  lemma {:induction false} IndexUnchanged(es: seq<Exemption>, e: Exemption, index: Index)
    requires IsIndexOf(es, index)
    requires e.Rejected? || e.key in index
    ensures IsIndexOf(es + [e], index)
  {
    var all := es + [e];
    forall k | k in index
      ensures exists i: nat :: FirstWithKey(all, i, k) && index[k] == all[i]
    {
      var i: nat :| FirstWithKey(es, i, k) && index[k] == es[i];
      assert FirstWithKey(all, i, k) && all[i] == es[i];
    }
    assert all[|es|] == e;
  }

  lemma {:induction false} IndexGrown(es: seq<Exemption>, e: Exemption, index: Index)
    requires IsIndexOf(es, index)
    requires e.Exemption? && e.key !in index
    ensures IsIndexOf(es + [e], index[e.key := e])
  {
    var all, grown := es + [e], index[e.key := e];
    forall k | k in grown
      ensures exists i: nat :: FirstWithKey(all, i, k) && grown[k] == all[i]
    {
      if k == e.key {
        assert FirstWithKey(all, |es|, k) && grown[k] == all[|es|];
      } else {
        var i: nat :| FirstWithKey(es, i, k) && index[k] == es[i];
        assert FirstWithKey(all, i, k) && all[i] == es[i];
      }
    }
    assert forall i :: 0 <= i < |es| ==> all[i] == es[i];
  }

  // ---------------------------------------------------------------- the check

  /** The first finding of each key, in order: what remains after de-duplication. */
  function Firsts(vs: seq<Seen>): (r: seq<Seen>)
    ensures forall v :: v in r ==> v.Keyed? && v in vs
  {
    if vs == [] then []
    else
      var before, v := Firsts(vs[..|vs| - 1]), vs[|vs| - 1];
      assert vs == vs[..|vs| - 1] + [v];
      if v.Keyed? && v.key !in Keys(before) then before + [v] else before
  }

  function Keys(vs: seq<Seen>): set<Key> {
    set v | v in vs && v.Keyed? :: v.key
  }

  predicate Missing(index: Index, v: Seen) {
    v.Keyed? && v.key !in index
  }

  predicate Mismatched(index: Index, v: Seen) {
    && v.Keyed? && v.key in index && index[v.key].Exemption?
    && index[v.key].severity != "" && index[v.key].severity != v.severity
  }

  predicate Expired(today: int, index: Index, v: Seen) {
    v.Keyed? && v.key in index && index[v.key].Exemption? && index[v.key].expiresOn < today
  }

  function IsMissing(index: Index): Seen -> bool { (v: Seen) => Missing(index, v) }
  function IsExpired(today: int, index: Index): Seen -> bool { (v: Seen) => Expired(today, index, v) }

  predicate ValidIndex(index: Index) {
    forall k :: k in index ==> index[k].Exemption?
  }

  /** What is wrong with the findings themselves, in their order; duplicates are not looked at again. */
  function FindingErrors(index: Index, vs: seq<Seen>): seq<Problem>
    decreases |vs|
  {
    if vs == [] then []
    else
      var before, v := vs[..|vs| - 1], vs[|vs| - 1];
      FindingErrors(index, before) +
      if v.Unidentified? then [NoAdvisoryId]
      else if v.Keyed? && v.key !in Keys(Firsts(before)) && Mismatched(index, v) then
        [SeverityMismatch(v.key, v.severity, index[v.key].severity)]
      else []
  }

  datatype Report = Report(errors: seq<Problem>, missing: seq<Seen>, expired: seq<Seen>) {
    predicate Clean() {
      errors == [] && missing == [] && expired == []
    }
  }

  /** What the report must say about the findings looked at so far. */
  ghost predicate Reports(today: int, index: Index, vs: seq<Seen>, report: Report) {
    && report.missing == Filter(Firsts(vs), IsMissing(index))
    && report.expired == Filter(Firsts(vs), IsExpired(today, index))
    && report.errors == FindingErrors(index, vs)
    && (report.errors == [] <==> Unidentified !in vs && forall v :: v in Firsts(vs) ==> !Mismatched(index, v))
  }

  lemma {:induction false} IndexIsValid(es: seq<Exemption>, index: Index)
    requires IsIndexOf(es, index)
    ensures ValidIndex(index)
  {
    forall k | k in index
      ensures index[k].Exemption?
    {
      var i: nat :| FirstWithKey(es, i, k) && index[k] == es[i];
    }
  }

  /** What one more finding adds to the report, when it is the first of its key. */
  function Judge(today: int, index: Index, v: Seen, r: Report): Report
    requires v.Keyed? && ValidIndex(index)
  {
    if v.key !in index then r.(missing := r.missing + [v])
    else
      var exc := index[v.key];
      var errors := if exc.severity != "" && exc.severity != v.severity
                    then r.errors + [SeverityMismatch(v.key, v.severity, exc.severity)] else r.errors;
      var expired := if exc.expiresOn < today then r.expired + [v] else r.expired;
      Report(errors, r.missing, expired)
  }

  lemma {:induction false} FirstsGrow(vs: seq<Seen>, v: Seen)
    requires v.Keyed? && v.key !in Keys(Firsts(vs))
    ensures Firsts(vs + [v]) == Firsts(vs) + [v]
    ensures Keys(Firsts(vs + [v])) == Keys(Firsts(vs)) + {v.key}
  {
    assert (vs + [v])[..|vs|] == vs;
  }

  lemma {:induction false} FilterOne(s: seq<Seen>, v: Seen, p: Seen -> bool)
    ensures Filter(s + [v], p) == if p(v) then Filter(s, p) + [v] else Filter(s, p)
  {
    FilterAppend(s, [v], p);
    assert [v][1..] == [];
  }

  lemma {:induction false} ReportsFirst(today: int, index: Index, vs: seq<Seen>, v: Seen, r: Report)
    requires ValidIndex(index) && Reports(today, index, vs, r)
    requires v.Keyed? && v.key !in Keys(Firsts(vs))
    ensures Reports(today, index, vs + [v], Judge(today, index, v, r))
  {
    FirstsGrow(vs, v);
    assert (vs + [v])[..|vs|] == vs;
    FilterOne(Firsts(vs), v, IsMissing(index));
    FilterOne(Firsts(vs), v, IsExpired(today, index));
    assert Unidentified in vs + [v] <==> Unidentified in vs;
    assert forall w :: w in Firsts(vs + [v]) <==> w in Firsts(vs) || w == v;
  }

  lemma {:induction false} ReportsOther(today: int, index: Index, vs: seq<Seen>, v: Seen, r: Report)
    requires Reports(today, index, vs, r)
    requires v.Keyed? ==> v.key in Keys(Firsts(vs))
    ensures v.Unidentified? ==> Reports(today, index, vs + [v], r.(errors := r.errors + [NoAdvisoryId]))
    ensures !v.Unidentified? ==> Reports(today, index, vs + [v], r)
    ensures Firsts(vs + [v]) == Firsts(vs)
  {
    var all := vs + [v];
    assert all[..|vs|] == vs && all[|vs|] == v;
  }

  lemma {:induction false} LookRaises(rt: Runtime, fs: seq<Finding>, n: nat)
    requires n <= |fs| && LookAtAll(rt, fs[..n]).Raised?
    ensures LookAtAll(rt, fs).Raised?
    decreases |fs|
  {
    if n < |fs| {
      assert fs[..|fs| - 1][..n] == fs[..n];
      LookRaises(rt, fs[..|fs| - 1], n);
    } else {
      assert fs[..n] == fs;
    }
  }

  /** The part of the loop that a finding reaches when it is the first of its key. */
  method CheckFirst(today: int, index: Index, v: Seen, r: Report) returns (report: Report)
    requires v.Keyed? && ValidIndex(index)
    ensures report == Judge(today, index, v, r)
  {
    report := r;
    if v.key !in index {
      report := report.(missing := report.missing + [v]);
      return;
    }
    var exc := index[v.key];
    if exc.severity != "" && exc.severity != v.severity {
      report := report.(errors := report.errors + [SeverityMismatch(v.key, v.severity, exc.severity)]);
    }
    if exc.expiresOn < today {
      report := report.(expired := report.expired + [v]);
    }
  }

  method CheckFindings(rt: Runtime, today: int, fs: seq<Finding>, index: Index) returns (report: Py<Report>)
    requires ValidIndex(index)
    ensures LookAtAll(rt, fs).Raised? ==> report.Raised?
    ensures LookAtAll(rt, fs).Value? ==> report.Value? && Reports(today, index, LookAtAll(rt, fs).value, report.value)
  {
    var r := Report([], [], []);
    var seen: set<Key> := {};
    ghost var vs: seq<Seen> := [];
    for n := 0 to |fs|
      invariant LookAtAll(rt, fs[..n]) == Value(vs)
      invariant seen == Keys(Firsts(vs))
      invariant Reports(today, index, vs, r)
    {
      assert fs[..n + 1][..n] == fs[..n];
      var look := LookAt(rt, fs[n]);
      if look.Raised? {
        LookRaises(rt, fs, n + 1);
        return Raised;
      }
      var v := look.value;
      ghost var before := vs;
      vs := vs + [v];
      if v.Skipped? {
        ReportsOther(today, index, before, v, r);
        continue;
      }
      if v.Unidentified? {
        ReportsOther(today, index, before, v, r);
        r := r.(errors := r.errors + [NoAdvisoryId]);
        continue;
      }
      if v.key in seen {
        ReportsOther(today, index, before, v, r);
        continue;
      }
      FirstsGrow(before, v);
      ReportsFirst(today, index, before, v, r);
      seen := seen + {v.key};
      r := CheckFirst(today, index, v, r);
    }
    assert fs[..|fs|] == fs;
    return Value(r);
  }

  // ---------------------------------------------------------------- the verdict

  /** Every key that occurs is kept. */
  lemma {:induction false} FirstsHaveKeys(vs: seq<Seen>)
    ensures forall j :: 0 <= j < |vs| && vs[j].Keyed? ==> vs[j].key in Keys(Firsts(vs))
    decreases |vs|
  {
    if vs != [] {
      FirstsHaveKeys(vs[..|vs| - 1]);
    }
  }

  lemma {:induction false} LastIsFirst(vs: seq<Seen>)
    requires vs != []
    ensures var before, n := vs[..|vs| - 1], |vs| - 1;
            IsFirst(vs, n) <==> vs[n].Keyed? && vs[n].key !in Keys(Firsts(before))
  {
    var before, n := vs[..|vs| - 1], |vs| - 1;
    FirstsHaveKeys(before);
    assert forall j :: 0 <= j < n ==> before[j] == vs[j];
    if vs[n].Keyed? && vs[n].key in Keys(Firsts(before)) {
      var w :| w in Firsts(before) && w.Keyed? && w.key == vs[n].key;
      var j :| 0 <= j < n && before[j] == w;
      assert vs[j].key == vs[n].key;
    }
  }

  /** One of the first `n` findings is the first of its key, and is `v`. */
  ghost predicate FirstAmong(vs: seq<Seen>, v: Seen, n: nat) {
    exists i: nat :: i < n && IsFirst(vs, i) && vs[i] == v
  }

  lemma {:induction false} FirstEarlier(vs: seq<Seen>, n: nat, i: nat)
    requires i < n <= |vs|
    ensures IsFirst(vs, i) <==> IsFirst(vs[..n], i)
  {
    assert forall j :: 0 <= j <= i ==> vs[..n][j] == vs[j];
  }

  lemma {:induction false} EarlierFirsts(vs: seq<Seen>, v: Seen, n: nat)
    requires n <= |vs|
    ensures FirstAmong(vs, v, n) <==> FirstAmong(vs[..n], v, n)
  {
    forall i: nat | i < n
      ensures IsFirst(vs, i) && vs[i] == v <==> IsFirst(vs[..n], i) && vs[..n][i] == v
    {
      FirstEarlier(vs, n, i);
    }
  }

  /** De-duplication keeps exactly the first finding of every key. */
  lemma {:induction false} FirstsAreFirst(vs: seq<Seen>, v: Seen)
    ensures v in Firsts(vs) <==> FirstAmong(vs, v, |vs|)
    decreases |vs|
  {
    if vs != [] {
      var n := |vs| - 1;
      FirstsAreFirst(vs[..n], v);
      EarlierFirsts(vs, v, n);
      LastIsFirst(vs);
      assert FirstAmong(vs, v, n + 1) <==> FirstAmong(vs, v, n) || (IsFirst(vs, n) && vs[n] == v);
    }
  }

  /** With a valid exception list, a finding passes the three tests against the index exactly when it is covered. */
  lemma {:induction false} IndexDecides(today: int, es: seq<Exemption>, index: Index, v: Seen)
    requires ExceptionsValid(es) && IsIndexOf(es, index) && v.Keyed?
    ensures Covered(today, es, v) <==> !Missing(index, v) && !Mismatched(index, v) && !Expired(today, index, v)
  {
    if v.key in index {
      var i: nat :| FirstWithKey(es, i, v.key) && index[v.key] == es[i];
      forall e | e in es && Covers(today, e, v)
        ensures e == es[i]
      {
        var j :| 0 <= j < |es| && es[j] == e;
        assert i < j || j < i || i == j;
      }
      assert es[i] in es;
    }
  }

  lemma {:induction false} CleanIffAllowed(today: int, es: seq<Exemption>, index: Index, vs: seq<Seen>, report: Report)
    requires ExceptionsValid(es) && IsIndexOf(es, index) && Reports(today, index, vs, report)
    ensures report.Clean() <==> Allowed(today, es, vs)
  {
    var firsts := Firsts(vs);
    forall v | v in firsts
      ensures Covered(today, es, v) <==> !Missing(index, v) && !Mismatched(index, v) && !Expired(today, index, v)
      ensures FirstAmong(vs, v, |vs|)
    {
      IndexDecides(today, es, index, v);
      FirstsAreFirst(vs, v);
    }
    forall i: nat | IsFirst(vs, i)
      ensures vs[i] in firsts
    {
      FirstsAreFirst(vs, vs[i]);
      assert FirstAmong(vs, vs[i], |vs|);
    }
    FilterEmptyIff(firsts, IsMissing(index));
    FilterEmptyIff(firsts, IsExpired(today, index));
  }

  /** Whether some input makes the script end with a traceback instead of a verdict. */
  predicate Raises(rt: Runtime, lines: seq<string>, audit: Json) {
    || ExceptionFile.Parse(lines).None?
    || Findings(rt, audit).Raised?
    || LookAtAll(rt, Findings(rt, audit).value).Raised?
  }

  /** Severity is compared as text; anything else that is truthy cannot be normalized. */
  predicate SeverityUnreadable(entry: Json) {
    entry.Obj? && NotAText(Get(entry.entries, "severity"))
  }

  /** Some `via` entry names an advisory, so the vulnerability yields a finding. */
  ghost predicate NamesAdvisory(vulnerability: Json) {
    && vulnerability.Obj?
    && match Get(vulnerability.entries, "via")
       case Str(s) => s != ""
       case Arr(items) =>
         exists item :: item in items && ((item.Obj? && Truthy(IdOf(item.entries))) || (item.Str? && item.s != ""))
       case _ => false
  }

  ghost predicate SeverityRaises(vulnerability: Json) {
    SeverityUnreadable(vulnerability) && NamesAdvisory(vulnerability)
  }

  /**
   The inputs the script cannot read, in terms of the file and the report alone: a record line without a colon, an
   entry of the wrong shape, or a finding whose severity is not a text.
   */
  ghost predicate Unreadable(lines: seq<string>, audit: Json) {
    || (exists raw :: raw in lines && ExceptionFile.Malformed(raw))
    || ReportUnreadable(audit)
    || (exists a :: a in Section(Get(Section(audit), "advisories")) && SeverityUnreadable(a.1))
    || (exists v :: v in Section(Get(Section(audit), "vulnerabilities")) && SeverityRaises(v.1))
  }

  lemma {:induction false} LooksRaiseIff(rt: Runtime, fs: seq<Finding>)
    ensures LookAtAll(rt, fs).Raised? <==> exists f :: f in fs && NotAText(f.severity)
    decreases |fs|
  {
    if fs != [] {
      LooksRaiseIff(rt, fs[..|fs| - 1]);
      assert fs == fs[..|fs| - 1] + [fs[|fs| - 1]];
    }
  }

  /**
   The findings of a readable vulnerability carry its severity, and there are some iff its `via` names an advisory.
   */
  lemma {:induction false} VulnerabilitySeverities(v: (string, Json))
    requires !VulnerabilityUnreadable(v.1)
    ensures FromVulnerability(v.0, v.1).Value?
    ensures (exists f :: f in FromVulnerability(v.0, v.1).value && NotAText(f.severity)) <==>
            SeverityRaises(v.1)
  {
    VulnerabilityRaisesIff(v.0, v.1);
    var severity, via := Get(v.1.entries, "severity"), Get(v.1.entries, "via");
    var pairs := Via(via);
    var found := FromVulnerability(v.0, v.1).value;
    ViaFindings(v.0, severity, pairs, JoinTitles(pairs).value);
    assert forall f :: f in found ==> f.severity == severity;
    NamedIff(v.1);
    if NamesAdvisory(v.1) {
      assert found[0] in found;
    }
  }

  lemma {:induction false} NamedIff(vulnerability: Json)
    requires vulnerability.Obj?
    ensures NamesAdvisory(vulnerability) <==> Filter(Via(Get(vulnerability.entries, "via")), IsNamed()) != []
  {
    var via := Get(vulnerability.entries, "via");
    var pairs := Via(via);
    FilterEmptyIff(pairs, IsNamed());
    if via.Arr? {
      forall pair: (Json, Json)
        ensures pair in pairs <==> exists item :: item in via.items && ViaItem(item) == Some(pair)
      {
        ViaMembers(via.items, pair);
      }
      forall item | item in via.items && ViaItem(item).Some?
        ensures ViaItem(item).value in pairs
      {
        assert ViaItem(item) == Some(ViaItem(item).value);
      }
    }
  }

  /** Exactly these inputs make the script end with a traceback. */
  lemma {:induction false} RaisesIff(rt: Runtime, lines: seq<string>, audit: Json)
    ensures Raises(rt, lines, audit) <==> Unreadable(lines, audit)
  {
    ExceptionFile.ParseOutcome(lines);
    ReportRaisesIff(rt, audit);
    if !ReportUnreadable(audit) {
      SeveritiesRaiseIff(rt, audit);
    }
  }

  lemma {:induction false} SeveritiesRaiseIff(rt: Runtime, audit: Json)
    requires !ReportUnreadable(audit)
    ensures Findings(rt, audit).Value?
    ensures LookAtAll(rt, Findings(rt, audit).value).Raised? <==>
            || (exists a :: a in Section(Get(Section(audit), "advisories")) && SeverityUnreadable(a.1))
            || (exists v :: v in Section(Get(Section(audit), "vulnerabilities")) && SeverityRaises(v.1))
  {
    ReportRaisesIff(rt, audit);
    var advisories := Section(Get(Section(audit), "advisories"));
    var vulnerabilities := Section(Get(Section(audit), "vulnerabilities"));
    var first, second := FromAdvisories(rt, advisories).value, FromVulnerabilities(vulnerabilities).value;
    LooksRaiseIff(rt, first + second);
    AdvisorySeverities(rt, advisories);
    EntrySeverities(vulnerabilities);
  }

  lemma {:induction false} AdvisorySeverities(rt: Runtime, advisories: seq<(string, Json)>)
    requires FromAdvisories(rt, advisories).Value?
    ensures (exists f :: f in FromAdvisories(rt, advisories).value && NotAText(f.severity)) <==>
            exists a :: a in advisories && SeverityUnreadable(a.1)
  {
    AdvisoryFindings(rt, advisories);
    var found := FromAdvisories(rt, advisories).value;
    assert forall i :: 0 <= i < |found| ==> found[i].severity == Get(advisories[i].1.entries, "severity");
    if exists f :: f in found && NotAText(f.severity) {
      var i :| 0 <= i < |found| && NotAText(found[i].severity);
      assert advisories[i] in advisories && SeverityUnreadable(advisories[i].1);
    }
    if exists a :: a in advisories && SeverityUnreadable(a.1) {
      var i :| 0 <= i < |advisories| && SeverityUnreadable(advisories[i].1);
      assert found[i] in found && NotAText(found[i].severity);
    }
  }

  lemma {:induction false} EntrySeverities(vulnerabilities: seq<(string, Json)>)
    requires forall v :: v in vulnerabilities ==> !VulnerabilityUnreadable(v.1)
    ensures FromVulnerabilities(vulnerabilities).Value?
    ensures (exists f :: f in FromVulnerabilities(vulnerabilities).value && NotAText(f.severity)) <==>
            exists v :: v in vulnerabilities && SeverityRaises(v.1)
  {
    if vulnerabilities != [] {
      VulnerabilitySeverities(vulnerabilities[0]);
      EntrySeverities(vulnerabilities[1..]);
      assert vulnerabilities == [vulnerabilities[0]] + vulnerabilities[1..];
    }
  }

  /** A report with one advisory of severity high that has a number for its only name. */
  function NumericSource(number: string): Json {
    Obj([("vulnerabilities",
          Obj([("p", Obj([("severity", Str("high")), ("via", Arr([Obj([("source", Num(number, false))])]))]))]))])
  }

  /** A `via` entry with nothing but a numeric source is unreadable: its number is joined as a title. */
  lemma {:induction false} NumericSourceRaises(rt: Runtime, lines: seq<string>, number: string)
    ensures Raises(rt, lines, NumericSource(number))
  {
    var entry := [("source", Num(number, false))];
    var item := Obj(entry);
    var vulnerability := Obj([("severity", Str("high")), ("via", Arr([item]))]);
    var audit := NumericSource(number);
    assert StopsAt(entry, ["title", URL, "advisory", "source"], 3);
    FirstTruthyStops(entry, ["title", URL, "advisory", "source"], 3);
    assert TitleOf(entry) == Num(number, false);
    assert Get(vulnerability.entries[1..], "via") == Arr([item]);
    assert item in [item];
    assert VulnerabilityUnreadable(vulnerability);
    assert Get(audit.entries, "vulnerabilities") == Obj([("p", vulnerability)]);
    assert ("p", vulnerability) in Section(Get(audit.entries, "vulnerabilities"));
    ReportRaisesIff(rt, audit);
  }

  /** The policy over the raw inputs. */
  ghost predicate Policy(rt: Runtime, today: int, lines: seq<string>, audit: Json)
    requires !Raises(rt, lines, audit)
  {
    Allowed(today, ReadExceptions(rt, ExceptionFile.Parse(lines).value), LookAtAll(rt, Findings(rt, audit).value).value)
  }

  // ---------------------------------------------------------------- what a pass means in the file and the report

  predicate Complete(e: Record) {
    forall f :: f in REQUIRED_FIELDS ==> f in e && e[f] != ""
  }

  /** The five fields of a complete record. */
  lemma {:induction false} CompleteMeans(e: Record)
    ensures Complete(e) <==>
            && ("package" in e && e["package"] != "") && ("advisory" in e && e["advisory"] != "")
            && ("severity" in e && e["severity"] != "") && ("mitigation" in e && e["mitigation"] != "")
            && ("expires_on" in e && e["expires_on"] != "")
  {
    assert "package" in REQUIRED_FIELDS && "advisory" in REQUIRED_FIELDS && "severity" in REQUIRED_FIELDS;
    assert "mitigation" in REQUIRED_FIELDS && "expires_on" in REQUIRED_FIELDS;
    assert forall f :: f in REQUIRED_FIELDS ==>
        f == "package" || f == "advisory" || f == "severity" || f == "mitigation" || f == "expires_on";
  }

  lemma {:induction false} FieldsOfComplete(e: Record)
    ensures Complete(e) <==> LackedFields(e) == {}
  {
    if Complete(e) {
      assert forall f :: f in REQUIRED_FIELDS ==> Field(e, f) != "";
    } else {
      var f :| f in REQUIRED_FIELDS && !(f in e && e[f] != "");
      assert f in LackedFields(e);
    }
  }

  /** Which records are usable, and what a usable one stands for. */
  lemma {:induction false} UsableIff(rt: Runtime, e: Record)
    ensures ReadException(rt, e).Exemption? <==>
            && Complete(e) && rt.parseDate(e["expires_on"]).Some?
            && ExceptionFile.Strip(e["package"]) != "" && Lowered(rt, e["advisory"]) != ""
    ensures ReadException(rt, e).Exemption? ==>
              ReadException(rt, e) == Exemption((ExceptionFile.Strip(e["package"]), Lowered(rt, e["advisory"])),
                                                Lowered(rt, e["severity"]), rt.parseDate(e["expires_on"]).value)
  {
    FieldsOfComplete(e);
    assert "package" in REQUIRED_FIELDS && "advisory" in REQUIRED_FIELDS;
    assert "severity" in REQUIRED_FIELDS && "expires_on" in REQUIRED_FIELDS;
  }

  lemma {:induction false} ReadMembers(rt: Runtime, rs: seq<Record>, e: Exemption)
    ensures e in ReadExceptions(rt, rs) <==> exists r :: r in rs && ReadException(rt, r) == e
    decreases |rs|
  {
    if rs != [] {
      ReadMembers(rt, rs[..|rs| - 1], e);
      assert rs == rs[..|rs| - 1] + [rs[|rs| - 1]];
    }
  }

  predicate SameKey(v: Seen, w: Seen) {
    v.Keyed? && w.Keyed? && v.key == w.key
  }

  lemma {:induction false} FirstExists(vs: seq<Seen>, j: nat) returns (i: nat)
    requires j < |vs| && vs[j].Keyed?
    ensures i <= j && IsFirst(vs, i) && vs[i].key == vs[j].key
  {
    if k: nat :| k < j && SameKey(vs[k], vs[j]) {
      i := FirstExists(vs, k);
    } else {
      i := j;
    }
  }

  lemma {:induction false} LooksAt(rt: Runtime, fs: seq<Finding>, j: nat)
    requires LookAtAll(rt, fs).Value? && j < |fs|
    ensures LookAt(rt, fs[j]) == Value(LookAtAll(rt, fs).value[j])
    decreases |fs|
  {
    if j < |fs| - 1 {
      LooksAt(rt, fs[..|fs| - 1], j);
    }
  }

  /** Why a record is not usable: a field is missing or empty, or else there is no such day, or else a key is blank. */
  lemma {:induction false} WhyRejected(rt: Runtime, e: Record)
    ensures !Complete(e) ==>
              && ReadException(rt, e) == Rejected(MissingFields(LackedFields(e)))
              && forall f :: f in LackedFields(e) <==> f in REQUIRED_FIELDS && !(f in e && e[f] != "")
    ensures Complete(e) && rt.parseDate(e["expires_on"]).None? ==> ReadException(rt, e) == Rejected(InvalidDate)
    ensures Complete(e) && rt.parseDate(e["expires_on"]).Some?
            && (ExceptionFile.Strip(e["package"]) == "" || Lowered(rt, e["advisory"]) == "") ==>
              ReadException(rt, e) == Rejected(BlankKey)
  {
    FieldsOfComplete(e);
    CompleteMeans(e);
  }

  /** What the three normalizations make of a text, and of the number that a source may be. */
  lemma {:induction false} NormalizationMeans(rt: Runtime, s: string, zero: bool)
    ensures NormalizePackage(rt, Str(s)) == NormalizePackage(rt, Num(s, zero)) == ExceptionFile.Strip(s)
    ensures NormalizeAdvisory(rt, Str(s)) == NormalizeAdvisory(rt, Num(s, zero)) == rt.lower(ExceptionFile.Strip(s))
    ensures NormalizeSeverity(rt, Str(s)) == Value(rt.lower(ExceptionFile.Strip(s)))
    ensures NormalizePackage(rt, Null) == NormalizeAdvisory(rt, Null) == ""
    ensures NormalizeSeverity(rt, Null) == Value(rt.lower(""))
  {
    assert ExceptionFile.Strip("") == "";
  }

  /** A named finding that is high or critical, up to blanks and letter case. */
  predicate NeedsException(rt: Runtime, f: Finding) {
    && f.severity.Str? && rt.lower(ExceptionFile.Strip(f.severity.s)) in ["high", "critical"]
    && Truthy(f.name)
  }

  /** The record's package and advisory are those of the finding, up to blanks, and letter case in the advisory. */
  predicate RecordNames(rt: Runtime, e: Record, f: Finding) {
    && "package" in e && "advisory" in e && f.advisory != Null
    && ExceptionFile.Strip(e["package"]) == ExceptionFile.Strip(ToStr(rt, f.name))
    && rt.lower(ExceptionFile.Strip(e["advisory"])) == rt.lower(ExceptionFile.Strip(ToStr(rt, f.advisory)))
  }

  /** The report contains this finding, in either layout. */
  ghost predicate Reported(rt: Runtime, audit: Json, f: Finding) {
    || (exists a :: a in Section(Get(Section(audit), "advisories")) && AdvisoryYields(rt, a.1, f))
    || (exists v :: v in Section(Get(Section(audit), "vulnerabilities")) && EntryNames(v, f))
  }

  /** Every finding of the report that needs an exception has a record that names it. */
  ghost predicate NothingUnnamed(rt: Runtime, records: seq<Record>, audit: Json) {
    forall f :: Reported(rt, audit, f) && NeedsException(rt, f) ==> exists e :: e in records && RecordNames(rt, e, f)
  }

  lemma {:induction false} ReportedIsFound(rt: Runtime, audit: Json, f: Finding) returns (j: nat)
    requires Findings(rt, audit).Value? && Reported(rt, audit, f)
    ensures j < |Findings(rt, audit).value|
    ensures var g := Findings(rt, audit).value[j];
            g.name == f.name && g.severity == f.severity && g.advisory == f.advisory
  {
    var fs := Findings(rt, audit).value;
    ReportFindings(rt, audit);
    var advisories := Section(Get(Section(audit), "advisories"));
    if a :| a in advisories && AdvisoryYields(rt, a.1, f) {
      j :| 0 <= j < |advisories| && advisories[j] == a;
      YieldsOneWay(rt, a.1, f, fs[j]);
    } else {
      var v :| v in Section(Get(Section(audit), "vulnerabilities")) && EntryNames(v, f);
      var g :| g in fs && EntryNames(v, g) && g.advisory == f.advisory;
      j :| 0 <= j < |fs| && fs[j] == g;
    }
  }

  lemma {:induction false} CoveredIsNamed(rt: Runtime, today: int, records: seq<Record>, f: Finding, v: Seen)
    requires LookAt(rt, f) == Value(v) && v.Keyed?
    requires exists e :: e in ReadExceptions(rt, records) && e.Exemption? && e.key == v.key
    ensures exists e :: e in records && RecordNames(rt, e, f)
  {
    var x :| x in ReadExceptions(rt, records) && x.Exemption? && x.key == v.key;
    ReadMembers(rt, records, x);
    var e :| e in records && ReadException(rt, e) == x;
    UsableIff(rt, e);
    CompleteMeans(e);
    assert RecordNames(rt, e, f);
  }

  /** Behind a pass there is a record for every serious finding of the report. */
  lemma {:induction false} PassNamesAll(rt: Runtime, today: int, lines: seq<string>, audit: Json)
    requires !Raises(rt, lines, audit) && Policy(rt, today, lines, audit)
    ensures NothingUnnamed(rt, ExceptionFile.Parse(lines).value, audit)
  {
    var records, fs := ExceptionFile.Parse(lines).value, Findings(rt, audit).value;
    var es, vs := ReadExceptions(rt, records), LookAtAll(rt, fs).value;
    forall f | Reported(rt, audit, f) && NeedsException(rt, f)
      ensures exists e :: e in records && RecordNames(rt, e, f)
    {
      var j := ReportedIsFound(rt, audit, f);
      LooksAt(rt, fs, j);
      NormalizationMeans(rt, f.severity.s, false);
      assert vs[j] in vs && vs[j].Keyed?;
      var i := FirstExists(vs, j);
      var x :| x in es && Covers(today, x, vs[i]);
      CoveredIsNamed(rt, today, records, fs[j], vs[j]);
    }
  }

  /** `main`: the exit code is 0 exactly when the policy holds, and 1 otherwise. */
  method RunGate(rt: Runtime, today: int, lines: seq<string>, audit: Json) returns (exit: Py<int>)
    ensures exit.Raised? <==> Raises(rt, lines, audit)
    ensures exit.Raised? <==> Unreadable(lines, audit)
    ensures !Raises(rt, lines, audit) ==> exit == Value(if Policy(rt, today, lines, audit) then 0 else 1)
    ensures exit == Value(0) ==> NothingUnnamed(rt, ExceptionFile.Parse(lines).value, audit)
  {
    RaisesIff(rt, lines, audit);
    if !Raises(rt, lines, audit) && Policy(rt, today, lines, audit) {
      PassNamesAll(rt, today, lines, audit);
    }
    var records := ExceptionFile.ParseExceptions(lines);
    if records.None? {
      return Raised;
    }
    var index, errors := BuildIndex(rt, records.value);
    var found := IterVulns(rt, audit);
    if found.Raised? {
      return Raised;
    }
    ghost var es := ReadExceptions(rt, records.value);
    IndexIsValid(es, index);
    var report := CheckFindings(rt, today, found.value, index);
    if report.Raised? {
      return Raised;
    }
    if ExceptionsValid(es) {
      CleanIffAllowed(today, es, index, LookAtAll(rt, found.value).value, report.value);
    }
    return Value(if errors == [] && report.value.Clean() then 0 else 1);
  }
}
