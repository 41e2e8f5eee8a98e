/** What the policy of the audit gate promises across inputs: days, the order of exceptions, the order of findings. */
module AuditPolicy {
  import opened Prelude
  import opened AuditReport
  import opened AuditGate
  import ExceptionFile

  // ---------------------------------------------------------------- the policy on the raw record and finding

  /** The record names the finding's package and advisory, neither blank, and does not contradict its severity. */
  predicate Names(rt: Runtime, e: Record, f: Finding)
    requires Complete(e) && f.severity.Str?
  {
    && ExceptionFile.Strip(e["package"]) == NormalizePackage(rt, f.name) != ""
    && Lowered(rt, e["advisory"]) == NormalizeAdvisory(rt, f.advisory) != ""
    && Lowered(rt, e["severity"]) in {"", Lowered(rt, f.severity.s)}
  }

  /** The gate looks past a finding exactly when it is not serious; a serious one without an advisory id is an error. */
  lemma {:induction false} SeriousIffLookedAt(rt: Runtime, f: Finding)
    requires rt.lower("") == ""
    ensures LookAt(rt, f).Raised? <==> Truthy(f.severity) && !f.severity.Str?
    ensures LookAt(rt, f) == Value(Skipped) <==> !LookAt(rt, f).Raised? && !NeedsException(rt, f)
    ensures LookAt(rt, f) == Value(Unidentified) <==> NeedsException(rt, f) && NormalizeAdvisory(rt, f.advisory) == ""
  {
    assert "" !in HIGH_SEVERITIES;
    if f.severity == Str("") {
      assert ExceptionFile.Strip("") == "";
    }
  }

  /** In terms of the file and the report: when a record lets a finding pass. */
  lemma {:induction false} CoversRaw(rt: Runtime, today: int, e: Record, f: Finding)
    requires rt.lower("") == "" && LookAt(rt, f).Value?
    ensures Covers(today, ReadException(rt, e), LookAt(rt, f).value) <==>
            && Complete(e) && NeedsException(rt, f) && Names(rt, e, f)
            && rt.parseDate(e["expires_on"]).Some? && today <= rt.parseDate(e["expires_on"]).value
  {
    SeriousIffLookedAt(rt, f);
    UsableIff(rt, e);
    if NeedsException(rt, f) {
      LooksSerious(rt, f);
    }
  }

  /** A serious finding is looked at under its normalized key and severity. */
  lemma {:induction false} LooksSerious(rt: Runtime, f: Finding)
    requires rt.lower("") == "" && NeedsException(rt, f)
    ensures LookAt(rt, f) == Value(Sorted(Lowered(rt, f.severity.s), true,
                                          (NormalizePackage(rt, f.name), NormalizeAdvisory(rt, f.advisory))))
  {
    NormalizationMeans(rt, f.severity.s, false);
  }

  /** `other` is the text `s` in other letter cases, with blanks around it. */
  ghost predicate Respelled(rt: Runtime, s: string, other: string) {
    exists left, text, right :: RespelledAs(rt, s, left, text, right) && other == left + text + right
  }

  predicate RespelledAs(rt: Runtime, s: string, left: string, text: string, right: string) {
    && ExceptionFile.AllSpace(left) && ExceptionFile.AllSpace(right)
    && s != "" && ExceptionFile.Trimmed(s) && text != "" && ExceptionFile.Trimmed(text) && rt.lower(text) == rt.lower(s)
  }

  lemma {:induction false} RespelledLowers(rt: Runtime, s: string, other: string)
    requires Respelled(rt, s, other)
    ensures Lowered(rt, other) == Lowered(rt, s) && other != ""
  {
    var left, text, right :| RespelledAs(rt, s, left, text, right) && other == left + text + right;
    ExceptionFile.StripPadding(left, text, right);
    ExceptionFile.StripTrimmed(s);
    assert |other| >= |text|;
  }

  /** Blanks around a package name, and blanks or letter case in an advisory id or a severity, change nothing. */
  lemma {:induction false} SpellingIrrelevant(rt: Runtime, f: Finding, left: string, right: string, severity: string,
                                              advisory: string)
    requires f.name.Str? && f.name.s != "" && ExceptionFile.Trimmed(f.name.s)
    requires ExceptionFile.AllSpace(left) && ExceptionFile.AllSpace(right)
    requires f.severity.Str? && Respelled(rt, f.severity.s, severity)
    requires f.advisory.Str? && Respelled(rt, f.advisory.s, advisory)
    ensures LookAt(rt, f) == LookAt(rt, Finding(Str(left + f.name.s + right), Str(severity), Str(advisory), f.title))
  {
    var g := Finding(Str(left + f.name.s + right), Str(severity), Str(advisory), f.title);
    RespelledLowers(rt, f.severity.s, severity);
    RespelledLowers(rt, f.advisory.s, advisory);
    NormalizationMeans(rt, f.severity.s, false);
    NormalizationMeans(rt, severity, false);
    NormalizationMeans(rt, f.advisory.s, false);
    NormalizationMeans(rt, advisory, false);
    PaddedPackage(rt, left, f.name.s, right);
    LooksAlike(rt, f, g);
  }

  lemma {:induction false} PaddedPackage(rt: Runtime, left: string, name: string, right: string)
    requires name != "" && ExceptionFile.Trimmed(name)
    requires ExceptionFile.AllSpace(left) && ExceptionFile.AllSpace(right)
    ensures NormalizePackage(rt, Str(left + name + right)) == NormalizePackage(rt, Str(name))
    ensures Truthy(Str(left + name + right)) && Truthy(Str(name))
  {
    ExceptionFile.StripPadding(left, name, right);
    ExceptionFile.StripTrimmed(name);
    assert |left + name + right| >= |name|;
  }

  /** Only these four things about a finding matter. */
  lemma {:induction false} LooksAlike(rt: Runtime, f: Finding, g: Finding)
    requires NormalizeSeverity(rt, f.severity) == NormalizeSeverity(rt, g.severity)
    requires Truthy(f.name) == Truthy(g.name) && NormalizePackage(rt, f.name) == NormalizePackage(rt, g.name)
    requires NormalizeAdvisory(rt, f.advisory) == NormalizeAdvisory(rt, g.advisory)
    ensures LookAt(rt, f) == LookAt(rt, g)
  {
  }

  // ---------------------------------------------------------------- time

  /** A pass on one day is a pass on every earlier day. */
  lemma {:induction false} PassesEarlier(today: int, day: int, es: seq<Exemption>, vs: seq<Seen>)
    requires day <= today && Allowed(today, es, vs)
    ensures Allowed(day, es, vs)
  {
    forall i: nat | IsFirst(vs, i)
      ensures Covered(day, es, vs[i])
    {
      var e :| e in es && Covers(today, e, vs[i]);
      assert Covers(day, e, vs[i]);
    }
  }

  // ---------------------------------------------------------------- order of the exceptions

  /** Keys are pairwise distinct exactly when there are as many keys as records. */
  lemma {:induction false} ValidByCounting(es: seq<Exemption>)
    ensures |ExemptionKeys(es)| <= |es|
    ensures ExceptionsValid(es) <==> |ExemptionKeys(es)| == |es|
    decreases |es|
  {
    if es != [] {
      var before, e := es[..|es| - 1], es[|es| - 1];
      assert es == before + [e];
      ValidByCounting(before);
      ValidGrows(before, e);
      assert ExemptionKeys(es) == ExemptionKeys(before) + (if e.Exemption? then {e.key} else {});
    }
  }

  /** The order of the exception records never changes the verdict. */
  lemma {:induction false} ExceptionOrderIrrelevant(rt: Runtime, today: int, rs: seq<Record>, rs': seq<Record>,
                                                    vs: seq<Seen>)
    requires multiset(rs) == multiset(rs')
    ensures Allowed(today, ReadExceptions(rt, rs), vs) <==> Allowed(today, ReadExceptions(rt, rs'), vs)
  {
    var es, es' := ReadExceptions(rt, rs), ReadExceptions(rt, rs');
    SameMembers(rs, rs');
    forall e
      ensures e in es <==> e in es'
    {
      ReadMembers(rt, rs, e);
      ReadMembers(rt, rs', e);
    }
    assert ExemptionKeys(es) == ExemptionKeys(es');
    ValidByCounting(es);
    ValidByCounting(es');
    assert forall v :: Covered(today, es, v) <==> Covered(today, es', v);
  }

  // ---------------------------------------------------------------- order of the findings

  /** Every serious finding is covered, duplicates included. */
  ghost predicate AllCovered(today: int, es: seq<Exemption>, vs: seq<Seen>) {
    ExceptionsValid(es) && Unidentified !in vs && forall v :: v in vs && v.Keyed? ==> Covered(today, es, v)
  }

  ghost function CoveredKeys(today: int, es: seq<Exemption>, vs: seq<Seen>): set<Key> {
    set v | v in vs && v.Keyed? && Covered(today, es, v) :: v.key
  }

  /** Every key has at least one covered finding. */
  ghost predicate SomeCovered(today: int, es: seq<Exemption>, vs: seq<Seen>) {
    && ExceptionsValid(es) && Unidentified !in vs
    && forall v :: v in vs && v.Keyed? ==> v.key in CoveredKeys(today, es, vs)
  }

  /** The verdict lies between the two order-free policies. */
  lemma {:induction false} VerdictBounds(today: int, es: seq<Exemption>, vs: seq<Seen>)
    ensures AllCovered(today, es, vs) ==> Allowed(today, es, vs)
    ensures Allowed(today, es, vs) ==> SomeCovered(today, es, vs)
  {
    if Allowed(today, es, vs) {
      forall v | v in vs && v.Keyed?
        ensures v.key in CoveredKeys(today, es, vs)
      {
        var j: nat :| j < |vs| && vs[j] == v;
        var i := FirstExists(vs, j);
        assert vs[i] in vs;
      }
    }
  }

  ghost function IsCovered(today: int, es: seq<Exemption>): Seen -> bool {
    v => Covered(today, es, v)
  }

  ghost function CoveredFirst(today: int, es: seq<Exemption>, vs: seq<Seen>): seq<Seen> {
    Filter(vs, IsCovered(today, es)) + Filter(vs, Negated(IsCovered(today, es)))
  }

  ghost function CoveredLast(today: int, es: seq<Exemption>, vs: seq<Seen>): seq<Seen> {
    Filter(vs, Negated(IsCovered(today, es))) + Filter(vs, IsCovered(today, es))
  }

  ghost predicate SameVerdictInEveryOrder(today: int, es: seq<Exemption>, vs: seq<Seen>) {
    forall ws :: multiset(ws) == multiset(vs) ==> (Allowed(today, es, ws) <==> Allowed(today, es, vs))
  }

  lemma {:induction false} PermutationsOf(today: int, es: seq<Exemption>, vs: seq<Seen>)
    ensures multiset(CoveredFirst(today, es, vs)) == multiset(vs) == multiset(CoveredLast(today, es, vs))
  {
    FilterPartition(vs, IsCovered(today, es));
  }

  lemma {:induction false} FirstComesEarly(front: seq<Seen>, back: seq<Seen>, i: nat, w: Seen)
    requires IsFirst(front + back, i) && w in front && SameKey((front + back)[i], w)
    ensures (front + back)[i] in front
  {
    var j :| 0 <= j < |front| && front[j] == w;
    assert (front + back)[j] == w;
    assert i <= j;
    assert (front + back)[i] == front[i];
  }

  /** Moving covered findings to the front passes whenever every key has one. */
  lemma {:induction false} CoveredFirstPasses(today: int, es: seq<Exemption>, vs: seq<Seen>)
    requires SomeCovered(today, es, vs)
    ensures Allowed(today, es, CoveredFirst(today, es, vs))
  {
    var p := IsCovered(today, es);
    var ws := CoveredFirst(today, es, vs);
    PermutationsOf(today, es, vs);
    SameMembers(ws, vs);
    FilterMembers(vs, p);
    forall i: nat | IsFirst(ws, i)
      ensures p(ws[i])
    {
      assert ws[i] in vs;
      var w :| w in vs && w.Keyed? && Covered(today, es, w) && w.key == ws[i].key;
      FirstComesEarly(Filter(vs, p), Filter(vs, Negated(p)), i, w);
    }
  }

  /** Moving uncovered findings to the front fails as soon as there is one. */
  lemma {:induction false} CoveredLastFails(today: int, es: seq<Exemption>, vs: seq<Seen>, v: Seen)
    requires v in vs && v.Keyed? && !Covered(today, es, v)
    ensures !Allowed(today, es, CoveredLast(today, es, vs))
  {
    var ws, bad := CoveredLast(today, es, vs), Filter(vs, Negated(IsCovered(today, es)));
    FilterMembers(vs, Negated(IsCovered(today, es)));
    assert v in bad;
    var j: nat :| j < |bad| && bad[j] == v;
    assert ws[j] == v;
    var i := FirstExists(ws, j);
    assert ws[i] == bad[i] && bad[i] in bad;
    assert !Covered(today, es, ws[i]);
  }

  lemma {:induction false} NoOrderMatters(today: int, es: seq<Exemption>, vs: seq<Seen>, ws: seq<Seen>)
    requires SomeCovered(today, es, vs) ==> AllCovered(today, es, vs)
    requires multiset(ws) == multiset(vs)
    ensures Allowed(today, es, ws) <==> Allowed(today, es, vs)
  {
    SameMembers(ws, vs);
    VerdictBounds(today, es, ws);
    VerdictBounds(today, es, vs);
    assert AllCovered(today, es, ws) <==> AllCovered(today, es, vs);
    assert CoveredKeys(today, es, ws) == CoveredKeys(today, es, vs);
  }

  lemma {:induction false} SomeOrderMatters(today: int, es: seq<Exemption>, vs: seq<Seen>)
    requires SomeCovered(today, es, vs) && !AllCovered(today, es, vs)
    ensures !SameVerdictInEveryOrder(today, es, vs)
  {
    var v :| v in vs && v.Keyed? && !Covered(today, es, v);
    PermutationsOf(today, es, vs);
    CoveredFirstPasses(today, es, vs);
    CoveredLastFails(today, es, vs, v);
  }

  /**
   The order of the findings is irrelevant exactly when a report that has a covered finding for every key has no
   uncovered one: the de-duplication keeps one finding per key, and only then is every choice as good as any other.
   */
  lemma {:induction false} OrderIrrelevantIff(today: int, es: seq<Exemption>, vs: seq<Seen>)
    ensures SameVerdictInEveryOrder(today, es, vs) <==> (SomeCovered(today, es, vs) ==> AllCovered(today, es, vs))
  {
    if SomeCovered(today, es, vs) ==> AllCovered(today, es, vs) {
      forall ws | multiset(ws) == multiset(vs)
        ensures Allowed(today, es, ws) <==> Allowed(today, es, vs)
      {
        NoOrderMatters(today, es, vs, ws);
      }
    } else {
      SomeOrderMatters(today, es, vs);
    }
  }

  /** Findings that agree on their severity whenever they agree on their key can come in any order. */
  lemma {:induction false} OrderIrrelevantWhenSeveritiesAgree(today: int, es: seq<Exemption>, vs: seq<Seen>)
    requires forall v, w :: v in vs && w in vs && SameKey(v, w) ==> v.severity == w.severity
    ensures SameVerdictInEveryOrder(today, es, vs)
  {
    if SomeCovered(today, es, vs) {
      forall v | v in vs && v.Keyed?
        ensures Covered(today, es, v)
      {
        assert v.key in CoveredKeys(today, es, vs);
        var w :| w in vs && w.Keyed? && Covered(today, es, w) && w.key == v.key;
        assert SameKey(v, w);
        var e :| e in es && Covers(today, e, w);
        assert Covers(today, e, v);
      }
    }
    OrderIrrelevantIff(today, es, vs);
  }

  // ---------------------------------------------------------------- order of the findings of a report

  lemma {:induction false} LooksAppend(rt: Runtime, a: seq<Finding>, b: seq<Finding>)
    ensures LookAtAll(rt, a + b) ==
            if LookAtAll(rt, a).Raised? || LookAtAll(rt, b).Raised? then Raised
            else Value(LookAtAll(rt, a).value + LookAtAll(rt, b).value)
    decreases |b|
  {
    if b == [] {
      assert a + b == a;
      assert LookAtAll(rt, a).Value? ==> LookAtAll(rt, a).value + [] == LookAtAll(rt, a).value;
    } else {
      var n := |b| - 1;
      assert (a + b)[..|a + b| - 1] == a + b[..n] && (a + b)[|a + b| - 1] == b[n];
      LooksAppend(rt, a, b[..n]);
      if LookAtAll(rt, a).Value? && LookAtAll(rt, b).Value? {
        var v := LookAt(rt, b[n]).value;
        assert LookAtAll(rt, a).value + (LookAtAll(rt, b[..n]).value + [v]) ==
               LookAtAll(rt, a).value + LookAtAll(rt, b[..n]).value + [v];
      }
    }
  }

  lemma {:induction false} LookOne(rt: Runtime, f: Finding)
    ensures LookAt(rt, f).Raised? <==> LookAtAll(rt, [f]).Raised?
    ensures LookAt(rt, f).Value? ==> LookAtAll(rt, [f]) == Value([LookAt(rt, f).value])
  {
    assert LookAtAll(rt, [f][..|[f]| - 1]) == Value([]);
    assert LookAt(rt, f).Value? ==> [] + [LookAt(rt, f).value] == [LookAt(rt, f).value];
  }

  /** Where a finding stands makes no difference to what is looked at, counted. */
  lemma {:induction false} LooksMove(rt: Runtime, before: seq<Finding>, f: Finding, after: seq<Finding>)
    requires LookAtAll(rt, [f]).Value? && LookAtAll(rt, before + after).Value?
    ensures LookAtAll(rt, before + [f] + after).Value?
    ensures multiset(LookAtAll(rt, before + [f] + after).value) ==
            multiset(LookAtAll(rt, [f]).value) + multiset(LookAtAll(rt, before + after).value)
  {
    LooksAppend(rt, before, after);
    LooksAppend(rt, before, [f]);
    LooksAppend(rt, before + [f], after);
  }

  /** A permuted report is looked at as a permutation. */
  lemma {:induction false} LooksPermute(rt: Runtime, fs: seq<Finding>, gs: seq<Finding>)
    requires multiset(fs) == multiset(gs) && LookAtAll(rt, fs).Value?
    ensures LookAtAll(rt, gs).Value? && multiset(LookAtAll(rt, gs).value) == multiset(LookAtAll(rt, fs).value)
    decreases |fs|
  {
    if fs == [] {
      assert |multiset(fs)| == |multiset(gs)| == |gs|;
    } else {
      var before, after := Removed(fs, gs);
      assert fs == [fs[0]] + fs[1..];
      LooksAppend(rt, [fs[0]], fs[1..]);
      LooksPermute(rt, fs[1..], before + after);
      LooksMove(rt, before, fs[0], after);
    }
  }

  /** The verdict on these findings, in this order. */
  ghost predicate Passes(rt: Runtime, today: int, es: seq<Exemption>, fs: seq<Finding>) {
    LookAtAll(rt, fs).Value? && Allowed(today, es, LookAtAll(rt, fs).value)
  }

  ghost predicate SameVerdictInEveryReport(rt: Runtime, today: int, es: seq<Exemption>, fs: seq<Finding>) {
    forall gs :: multiset(gs) == multiset(fs) ==> (Passes(rt, today, es, gs) <==> Passes(rt, today, es, fs))
  }

  ghost function IsCoveredFinding(rt: Runtime, today: int, es: seq<Exemption>): Finding -> bool {
    f => LookAt(rt, f).Value? && Covered(today, es, LookAt(rt, f).value)
  }

  lemma {:induction false} LooksFilter(rt: Runtime, fs: seq<Finding>, p: Finding -> bool, q: Seen -> bool)
    requires LookAtAll(rt, fs).Value?
    requires forall f :: f in fs && LookAt(rt, f).Value? ==> p(f) == q(LookAt(rt, f).value)
    ensures LookAtAll(rt, Filter(fs, p)) == Value(Filter(LookAtAll(rt, fs).value, q))
    decreases |fs|
  {
    if fs == [] {
    } else {
      var f, rest := fs[0], fs[1..];
      assert fs == [f] + rest;
      LooksAppend(rt, [f], rest);
      LookOne(rt, f);
      LooksFilter(rt, rest, p, q);
      LooksAppend(rt, [f], Filter(rest, p));
      var looked := LookAtAll(rt, fs).value;
      assert looked == [LookAt(rt, f).value] + LookAtAll(rt, rest).value;
      assert looked[1..] == LookAtAll(rt, rest).value;
    }
  }

  /** Every order of the looked-at findings that the last proof uses comes from an order of the report. */
  lemma {:induction false} ReportInOrder(rt: Runtime, today: int, es: seq<Exemption>, fs: seq<Finding>)
    returns (first: seq<Finding>, last: seq<Finding>)
    requires LookAtAll(rt, fs).Value?
    ensures multiset(first) == multiset(fs) == multiset(last)
    ensures LookAtAll(rt, first) == Value(CoveredFirst(today, es, LookAtAll(rt, fs).value))
    ensures LookAtAll(rt, last) == Value(CoveredLast(today, es, LookAtAll(rt, fs).value))
  {
    var p, q := IsCoveredFinding(rt, today, es), IsCovered(today, es);
    var covered, uncovered := Filter(fs, p), Filter(fs, Negated(p));
    first, last := covered + uncovered, uncovered + covered;
    FilterPartition(fs, p);
    LooksFilter(rt, fs, p, q);
    LooksFilter(rt, fs, Negated(p), Negated(q));
    LooksAppend(rt, covered, uncovered);
    LooksAppend(rt, uncovered, covered);
  }

  /** The exact condition, for the findings of a report as the script reads them. */
  lemma {:induction false} ReportOrderIrrelevantIff(rt: Runtime, today: int, es: seq<Exemption>, fs: seq<Finding>)
    requires LookAtAll(rt, fs).Value?
    ensures SameVerdictInEveryReport(rt, today, es, fs) <==>
            (SomeCovered(today, es, LookAtAll(rt, fs).value) ==> AllCovered(today, es, LookAtAll(rt, fs).value))
  {
    var vs := LookAtAll(rt, fs).value;
    if SomeCovered(today, es, vs) ==> AllCovered(today, es, vs) {
      forall gs | multiset(gs) == multiset(fs)
        ensures Passes(rt, today, es, gs) <==> Passes(rt, today, es, fs)
      {
        LooksPermute(rt, fs, gs);
        NoOrderMatters(today, es, vs, LookAtAll(rt, gs).value);
      }
    } else {
      var first, last := ReportInOrder(rt, today, es, fs);
      var v :| v in vs && v.Keyed? && !Covered(today, es, v);
      CoveredFirstPasses(today, es, vs);
      CoveredLastFails(today, es, vs, v);
      assert Passes(rt, today, es, first) && !Passes(rt, today, es, last);
    }
  }

  /** Findings whose severities agree whenever their normalized package and advisory do can be reported in any order. */
  lemma {:induction false} ReportOrderIrrelevantWhenSeveritiesAgree(rt: Runtime, today: int, es: seq<Exemption>,
                                                                    fs: seq<Finding>)
    requires LookAtAll(rt, fs).Value?
    requires forall f, g :: f in fs && g in fs && NormalizePackage(rt, f.name) == NormalizePackage(rt, g.name)
                            && NormalizeAdvisory(rt, f.advisory) == NormalizeAdvisory(rt, g.advisory) ==>
                              NormalizeSeverity(rt, f.severity) == NormalizeSeverity(rt, g.severity)
    ensures SameVerdictInEveryReport(rt, today, es, fs)
  {
    var vs := LookAtAll(rt, fs).value;
    forall v, w | v in vs && w in vs && SameKey(v, w)
      ensures v.severity == w.severity
    {
      var f := LookedFrom(rt, fs, v);
      var g := LookedFrom(rt, fs, w);
      assert NormalizeSeverity(rt, f.severity) == NormalizeSeverity(rt, g.severity);
    }
    OrderIrrelevantWhenSeveritiesAgree(today, es, vs);
    OrderIrrelevantIff(today, es, vs);
    ReportOrderIrrelevantIff(rt, today, es, fs);
  }

  lemma {:induction false} LookedFrom(rt: Runtime, fs: seq<Finding>, v: Seen) returns (f: Finding)
    requires LookAtAll(rt, fs).Value? && v in LookAtAll(rt, fs).value
    ensures f in fs && LookAt(rt, f) == Value(v)
    decreases |fs|
  {
    var n := |fs| - 1;
    assert fs == fs[..n] + [fs[n]];
    if LookAt(rt, fs[n]) == Value(v) {
      f := fs[n];
    } else {
      f := LookedFrom(rt, fs[..n], v);
    }
  }

  // ---------------------------------------------------------------- an exception file and a report where order matters

  /** An exception for severity high, as a file. */
  const HIGH_ONLY := [
    Line("package", "p", ExceptionFile.Bare), Line("advisory", "a", ExceptionFile.Double),
    Line("severity", "high", ExceptionFile.Bare), Line("mitigation", "m", ExceptionFile.Double),
    Line("expires_on", "2099-12-31", ExceptionFile.Double)]

  function Line(key: string, value: string, style: ExceptionFile.Style): ExceptionFile.Field {
    ExceptionFile.Field(key, value, style, "", "", [])
  }

  function HighOnlyLines(): seq<string> {
    ExceptionFile.PrintRecords([HIGH_ONLY])
  }

  function Advisory(severity: string): Json {
    Obj([("name", Str("p")), ("severity", Str(severity)), ("url", Str("a"))])
  }

  function Report(first: string, second: string): Json {
    Obj([("advisories", Obj([("1", Advisory(first)), ("2", Advisory(second))]))])
  }

  /** What the library functions make of these texts; `lastDay` is the last of 2099. */
  predicate Plain(rt: Runtime, lastDay: int) {
    && rt.lower("a") == "a" && rt.lower("high") == "high" && rt.lower("critical") == "critical"
    && rt.parseDate("2099-12-31") == Some(lastDay)
  }

  lemma {:induction false} HighOnlyIsWritable(f: ExceptionFile.Field)
    requires f in HIGH_ONLY
    ensures f.key in REQUIRED_FIELDS && ExceptionFile.Writable(f.value, f.style)
    ensures f == Line(f.key, f.value, f.style)
  {
  }

  lemma {:induction false} HighOnlyIsRead()
    ensures ExceptionFile.Parse(HighOnlyLines()) == Some([ExceptionFile.Denotes(HIGH_ONLY)])
  {
    forall f | f in HIGH_ONLY
      ensures ExceptionFile.WellFormed(f)
    {
      HighOnlyIsWritable(f);
      RequiredFieldsArePlain(f.key);
    }
    ExceptionFile.ParseInvertsPrint([], [HIGH_ONLY]);
    assert [] + HighOnlyLines() == HighOnlyLines();
    assert ExceptionFile.DenoteAll([HIGH_ONLY]) == [ExceptionFile.Denotes(HIGH_ONLY)];
  }

  lemma {:induction false} DenotesHighOnly()
    ensures ExceptionFile.Denotes(HIGH_ONLY) ==
            map["package" := "p", "advisory" := "a", "severity" := "high", "mitigation" := "m",
                "expires_on" := "2099-12-31"]
  {
    var one := [HIGH_ONLY[0]];
    var two := one + [HIGH_ONLY[1]];
    var three := two + [HIGH_ONLY[2]];
    var four := three + [HIGH_ONLY[3]];
    ExceptionFile.DenotesSnoc([], HIGH_ONLY[0]);
    assert [] + [HIGH_ONLY[0]] == one;
    ExceptionFile.DenotesSnoc(one, HIGH_ONLY[1]);
    ExceptionFile.DenotesSnoc(two, HIGH_ONLY[2]);
    ExceptionFile.DenotesSnoc(three, HIGH_ONLY[3]);
    ExceptionFile.DenotesSnoc(four, HIGH_ONLY[4]);
    assert four + [HIGH_ONLY[4]] == HIGH_ONLY;
  }

  lemma {:induction false} TextsAreTrimmed()
    ensures ExceptionFile.Strip("p") == "p" && ExceptionFile.Strip("a") == "a"
    ensures ExceptionFile.Strip("high") == "high" && ExceptionFile.Strip("critical") == "critical"
  {
    ExceptionFile.StripTrimmed("p");
    ExceptionFile.StripTrimmed("a");
    ExceptionFile.StripTrimmed("high");
    ExceptionFile.StripTrimmed("critical");
  }

  lemma {:induction false} HighOnlyIsComplete()
    ensures Complete(ExceptionFile.Denotes(HIGH_ONLY))
  {
    DenotesHighOnly();
    forall f | f in REQUIRED_FIELDS
      ensures f in ExceptionFile.Denotes(HIGH_ONLY) && ExceptionFile.Denotes(HIGH_ONLY)[f] != ""
    {
      assert f == "package" || f == "advisory" || f == "severity" || f == "mitigation" || f == "expires_on";
    }
  }

  lemma {:induction false} HighOnlyFields()
    ensures var e := ExceptionFile.Denotes(HIGH_ONLY);
            && Complete(e)
            && e["package"] == "p" && e["advisory"] == "a" && e["severity"] == "high" && e["expires_on"] == "2099-12-31"
  {
    HighOnlyIsComplete();
    DenotesHighOnly();
    assert |"package"| == 7 && |"advisory"| == |"severity"| == 8 && |"mitigation"| == |"expires_on"| == 10;
    assert "advisory"[0] == 'a' && "severity"[0] == 's' && "mitigation"[0] == 'm' && "expires_on"[0] == 'e';
  }

  lemma {:induction false} HighOnlyStandsFor(rt: Runtime, lastDay: int)
    requires Plain(rt, lastDay)
    ensures ReadException(rt, ExceptionFile.Denotes(HIGH_ONLY)) == Exemption(("p", "a"), "high", lastDay)
  {
    HighOnlyFields();
    TextsAreTrimmed();
    UsableIff(rt, ExceptionFile.Denotes(HIGH_ONLY));
  }

  lemma {:induction false} ReadOne(rt: Runtime, e: Record)
    ensures ReadExceptions(rt, [e]) == [ReadException(rt, e)]
  {
    assert [e][..|[e]| - 1] == [];
    assert ReadExceptions(rt, []) == [];
  }

  lemma {:induction false} GetOfThree(e: seq<(string, Json)>, key: string)
    requires |e| == 3
    ensures Get(e, key) == if e[0].0 == key then e[0].1 else if e[1].0 == key then e[1].1
                           else if e[2].0 == key then e[2].1 else Null
  {
    assert e[1..][0] == e[1] && e[1..][1..][0] == e[2] && e[1..][1..][1..] == [];
    assert Get(e[1..][1..], key) == if e[2].0 == key then e[2].1 else Null;
  }

  lemma {:induction false} AdvisoryEntries(severity: string)
    ensures var e := Advisory(severity).entries;
            && Get(e, "name") == Str("p") && Get(e, "severity") == Str(severity) && Get(e, URL) == Str("a")
            && Get(e, "module_name") == Null && Get(e, GHSA) == Null
  {
    var e := Advisory(severity).entries;
    assert |"name"| == 4 && |"severity"| == 8 && |URL| == 3 && |"module_name"| == 11 && |GHSA| == 18;
    GetOfThree(e, "name");
    GetOfThree(e, "severity");
    GetOfThree(e, URL);
    GetOfThree(e, "module_name");
    GetOfThree(e, GHSA);
  }

  lemma {:induction false} AdvisoryReads(rt: Runtime, severity: string) returns (f: Finding)
    ensures FromAdvisory(rt, Advisory(severity)) == Value(f)
    ensures f.name == Str("p") && f.severity == Str(severity) && f.advisory == Str("a")
  {
    var e := Advisory(severity).entries;
    AdvisoryEntries(severity);
    FirstTruthyOfTwo(e, "module_name", "name");
    StableIdWins(rt, e, e);
    f := FromAdvisory(rt, Advisory(severity)).value;
  }

  lemma {:induction false} AdvisoryLooks(rt: Runtime, lastDay: int, f: Finding, severity: string)
    requires Plain(rt, lastDay) && severity in {"high", "critical"}
    requires f.name == Str("p") && f.severity == Str(severity) && f.advisory == Str("a")
    ensures LookAt(rt, f) == Value(Keyed(("p", "a"), severity))
  {
    TextsAreTrimmed();
  }

  lemma {:induction false} TwoLooks(rt: Runtime, f: Finding, g: Finding, v: Seen, w: Seen)
    requires LookAt(rt, f) == Value(v) && LookAt(rt, g) == Value(w)
    ensures LookAtAll(rt, [f, g]) == Value([v, w])
  {
    assert [f, g] == [f] + [g] && [v, w] == [v] + [w];
    LooksAppend(rt, [f], [g]);
    LookOne(rt, f);
    LookOne(rt, g);
  }

  lemma {:induction false} TwoAdvisories(rt: Runtime, a: (string, Json), b: (string, Json), f: Finding, g: Finding)
    requires FromAdvisory(rt, a.1) == Value(f) && FromAdvisory(rt, b.1) == Value(g)
    ensures FromAdvisories(rt, [a, b]) == Value([f, g])
  {
    assert [a, b][1..] == [b] && [b][1..] == [];
    assert FromAdvisories(rt, [b]) == Value([g] + []);
    assert [f] + ([g] + []) == [f, g];
  }

  lemma {:induction false} ReportReads(rt: Runtime, first: string, second: string) returns (f: Finding, g: Finding)
    ensures Findings(rt, Report(first, second)) == Value([f, g])
    ensures FromAdvisory(rt, Advisory(first)) == Value(f) && f.severity == Str(first)
    ensures FromAdvisory(rt, Advisory(second)) == Value(g) && g.severity == Str(second)
    ensures f.name == g.name == Str("p") && f.advisory == g.advisory == Str("a")
  {
    f := AdvisoryReads(rt, first);
    g := AdvisoryReads(rt, second);
    TwoAdvisories(rt, ("1", Advisory(first)), ("2", Advisory(second)), f, g);
    var entries := Report(first, second).entries;
    assert entries[1..] == [];
    assert |"advisories"| == 10 && |"vulnerabilities"| == 15;
    assert Get(entries, "vulnerabilities") == Null;
    assert [f, g] + [] == [f, g];
  }

  lemma {:induction false} ReportLooks(rt: Runtime, lastDay: int, first: string, second: string)
    requires Plain(rt, lastDay) && first in {"high", "critical"} && second in {"high", "critical"}
    ensures Findings(rt, Report(first, second)).Value?
    ensures LookAtAll(rt, Findings(rt, Report(first, second)).value) ==
            Value([Keyed(("p", "a"), first), Keyed(("p", "a"), second)])
  {
    var f, g := ReportReads(rt, first, second);
    AdvisoryLooks(rt, lastDay, f, first);
    AdvisoryLooks(rt, lastDay, g, second);
    TwoLooks(rt, f, g, Keyed(("p", "a"), first), Keyed(("p", "a"), second));
  }

  lemma {:induction false} VerdictOn(rt: Runtime, today: int, lines: seq<string>, audit: Json, es: seq<Exemption>,
                                     vs: seq<Seen>)
    requires ExceptionFile.Parse(lines).Some? && ReadExceptions(rt, ExceptionFile.Parse(lines).value) == es
    requires Findings(rt, audit).Value? && LookAtAll(rt, Findings(rt, audit).value) == Value(vs)
    ensures !Raises(rt, lines, audit) && (Policy(rt, today, lines, audit) <==> Allowed(today, es, vs))
  {
  }

  /**
   One advisory reported as high and as critical, with an exception file that covers high until the end of 2099: up to
   that day, the same file passes the report or fails it, depending on which of the two comes first.
   */
  lemma {:induction false} OrderMattersHere(rt: Runtime, today: int, lastDay: int)
    requires Plain(rt, lastDay) && today <= lastDay
    ensures !Raises(rt, HighOnlyLines(), Report("high", "critical"))
    ensures !Raises(rt, HighOnlyLines(), Report("critical", "high"))
    ensures Policy(rt, today, HighOnlyLines(), Report("high", "critical"))
    ensures !Policy(rt, today, HighOnlyLines(), Report("critical", "high"))
  {
    var k, es := ("p", "a"), [Exemption(("p", "a"), "high", lastDay)];
    HighOnlyIsRead();
    HighOnlyStandsFor(rt, lastDay);
    ReadOne(rt, ExceptionFile.Denotes(HIGH_ONLY));
    ReportLooks(rt, lastDay, "high", "critical");
    ReportLooks(rt, lastDay, "critical", "high");
    VerdictOn(rt, today, HighOnlyLines(), Report("high", "critical"), es, [Keyed(k, "high"), Keyed(k, "critical")]);
    VerdictOn(rt, today, HighOnlyLines(), Report("critical", "high"), es, [Keyed(k, "critical"), Keyed(k, "high")]);
    OrderMatters(k, today, lastDay);
  }

  lemma {:induction false} OrderMatters(k: Key, today: int, lastDay: int)
    requires today <= lastDay
    ensures var es, high, critical := [Exemption(k, "high", lastDay)], Keyed(k, "high"), Keyed(k, "critical");
            Allowed(today, es, [high, critical]) && !Allowed(today, es, [critical, high])
  {
    var e, high, critical := Exemption(k, "high", lastDay), Keyed(k, "high"), Keyed(k, "critical");
    assert e in [e] && Covers(today, e, high);
    var ok, bad := [high, critical], [critical, high];
    assert ok[0] == high && bad[0] == critical;
    assert forall i: nat :: IsFirst(ok, i) ==> i == 0;
    assert "critical"[0] != "high"[0];
    assert IsFirst(bad, 0) && !Covered(today, [e], bad[0]);
  }

  // ---------------------------------------------------------------- a report that must not pass

  /** The report of an ordinary audit: one critical advisory, named by its module. */
  function CriticalAdvisory(): Json {
    Obj([("module_name", Str("p")), ("severity", Str("critical")), ("url", Str("a"))])
  }

  function OneCritical(): Json {
    Obj([("advisories", Obj([("1", CriticalAdvisory())]))])
  }

  lemma {:induction false} CriticalEntries()
    ensures var e := CriticalAdvisory().entries;
            && Get(e, "module_name") == Str("p") && Get(e, "severity") == Str("critical") && Get(e, "url") == Str("a")
            && Get(e, "github_advisory_id") == Null
  {
    var e := CriticalAdvisory().entries;
    assert |"severity"| == 8 && |"url"| == 3 && |"module_name"| == 11 && |"github_advisory_id"| == 18;
    GetOfThree(e, "module_name");
    GetOfThree(e, "severity");
    GetOfThree(e, "url");
    GetOfThree(e, "github_advisory_id");
  }

  lemma {:induction false} CriticalSections()
    ensures Section(Get(Section(OneCritical()), "advisories")) == [("1", CriticalAdvisory())]
    ensures Section(Get(Section(OneCritical()), "vulnerabilities")) == []
  {
    assert |"advisories"| == 10 && |"vulnerabilities"| == 15;
    assert OneCritical().entries[1..] == [];
  }

  lemma {:induction false} CriticalIsReadable(rt: Runtime)
    ensures !Raises(rt, [], OneCritical())
  {
    CriticalEntries();
    CriticalSections();
    RaisesIff(rt, [], OneCritical());
  }

  lemma {:induction false} CriticalIsReported(rt: Runtime) returns (f: Finding)
    requires rt.lower("critical") == "critical"
    ensures Reported(rt, OneCritical(), f) && NeedsException(rt, f)
  {
    var a := ("1", CriticalAdvisory());
    CriticalEntries();
    CriticalSections();
    OneAdvisory(rt, a.1);
    f := FromAdvisory(rt, a.1).value;
    assert f.name == Str("p") && f.severity == Str("critical");
    TextsAreTrimmed();
    assert a in [a];
  }

  /** Without any exception, the script can read this report and does not let it pass. */
  lemma {:induction false} CriticalFails(rt: Runtime, today: int)
    requires rt.lower("critical") == "critical"
    ensures !Raises(rt, [], OneCritical()) && !Policy(rt, today, [], OneCritical())
  {
    CriticalIsReadable(rt);
    var f := CriticalIsReported(rt);
    if Policy(rt, today, [], OneCritical()) {
      PassNamesAll(rt, today, [], OneCritical());
    }
  }
}
