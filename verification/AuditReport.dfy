/**
 What the gate reads out of a `pnpm audit` report: a JSON tree, Python's truthiness and `or` chains over it, and the
 findings listed by its two possible layouts. A value of an unexpected shape raises in the source; that is `Raised`.
 */
module AuditReport {
  import opened Prelude

  /** Number texts are what Python's `str` prints; `zero` is the one number that is falsy. */
  datatype Json =
    | Null
    | Bool(b: bool)
    | Num(text: string, zero: bool)
    | Str(s: string)
    | Arr(items: seq<Json>)
    | Obj(entries: seq<(string, Json)>)

  datatype Py<+T> = Value(value: T) | Raised {
    predicate IsFailure() { Raised? }
    function PropagateFailure<U>(): Py<U>
      requires Raised?
    {
      Raised
    }
    function Extract(): T
      requires Value?
    {
      value
    }
  }

  /**
   The Python library calls the gate makes, as functions: `str.lower`, `str` of a non-string value,
   and `date.fromisoformat` as days (`None` for ValueError).
   */
  datatype Runtime = Runtime(lower: string -> string, repr: Json -> string, parseDate: string -> Option<int>)

  predicate Truthy(j: Json) {
    match j
    case Null => false
    case Bool(b) => b
    case Num(_, zero) => !zero
    case Str(s) => s != ""
    case Arr(items) => items != []
    case Obj(entries) => entries != []
  }

  function ToStr(rt: Runtime, j: Json): string {
    match j
    case Str(s) => s
    case Num(text, _) => text
    case _ => rt.repr(j)
  }

  /** `d.get(key)` on the entries of an object; JSON objects have unique keys. */
  function Get(entries: seq<(string, Json)>, key: string): Json {
    if entries == [] then Null else if entries[0].0 == key then entries[0].1 else Get(entries[1..], key)
  }

  /** `d.get(k1) or d.get(k2) or ...`: the first truthy value, or else the last one. */
  function FirstTruthy(entries: seq<(string, Json)>, keys: seq<string>): Json
    requires keys != []
  {
    var v := Get(entries, keys[0]);
    if Truthy(v) || |keys| == 1 then v else FirstTruthy(entries, keys[1..])
  }

  /** `(advisory.get("cves") or [None])[0]`: indexing an object or a scalar raises. */
  function FirstCve(cves: Json): Py<Json> {
    if !Truthy(cves) then Value(Null)
    else match cves
      case Arr(items) => Value(items[0])
      case Str(s) => Value(Str([s[0]]))
      case _ => Raised
  }

  const GHSA := "github_advisory_id"
  const URL := "url"
  const CVES := "cves"

  function PickAdvisoryId(rt: Runtime, advisory: seq<(string, Json)>): Py<Json> {
    var stable := FirstTruthy(advisory, [GHSA, URL]);
    if Truthy(stable) then Value(stable)
    else
      var cve :- FirstCve(Get(advisory, CVES));
      var id := Get(advisory, "id");
      if Truthy(cve) then Value(cve)
      else if id != Null && ToStr(rt, id) != "" then Value(Str(ToStr(rt, id)))
      else Value(FirstTruthy(advisory, ["title", "advisory", "overview"]))
  }

  datatype Finding = Finding(name: Json, severity: Json, advisory: Json, title: Json)

  function FromAdvisory(rt: Runtime, advisory: Json): Py<Finding> {
    if !advisory.Obj? then Raised
    else
      var a := advisory.entries;
      var id :- PickAdvisoryId(rt, a);
      Value(Finding(FirstTruthy(a, ["module_name", "name"]), Get(a, "severity"), id,
                    FirstTruthy(a, ["title", "advisory", "overview", URL])))
  }

  function FromAdvisories(rt: Runtime, advisories: seq<(string, Json)>): Py<seq<Finding>> {
    if advisories == [] then Value([])
    else
      var first :- FromAdvisory(rt, advisories[0].1);
      var rest :- FromAdvisories(rt, advisories[1..]);
      Value([first] + rest)
  }

  function TitleOf(entries: seq<(string, Json)>): Json {
    FirstTruthy(entries, ["title", URL, "advisory", "source"])
  }

  function IdOf(entries: seq<(string, Json)>): Json {
    FirstTruthy(entries, [GHSA, URL, "source", "title", "name"])
  }

  /** One entry of `via`: its advisory id and its title; anything but an object or a string is skipped. */
  function ViaItem(item: Json): Option<(Json, Json)> {
    match item
    case Obj(e) => Some((IdOf(e), TitleOf(e)))
    case Str(s) => Some((item, item))
    case _ => None
  }

  function ViaItems(items: seq<Json>): seq<(Json, Json)> {
    if items == [] then []
    else (match ViaItem(items[0]) { case Some(pair) => [pair] case None => [] }) + ViaItems(items[1..])
  }

  function Via(via: Json): seq<(Json, Json)> {
    match via
    case Arr(items) => ViaItems(items)
    case Str(s) => [(via, via)]
    case _ => []
  }

  /** `"; ".join(...)` of the truthy titles: a truthy title that is not a string raises. */
  function JoinTitles(pairs: seq<(Json, Json)>): Py<string> {
    if pairs == [] then Value("")
    else
      var t := pairs[0].1;
      if !Truthy(t) then JoinTitles(pairs[1..])
      else if !t.Str? then Raised
      else
        var rest :- JoinTitles(pairs[1..]);
        Value(if rest == "" then t.s else t.s + "; " + rest)
  }

  function VulnerabilityFindings(name: string, severity: Json, pairs: seq<(Json, Json)>, title: string): seq<Finding> {
    if pairs == [] then []
    else (if Truthy(pairs[0].0) then [Finding(Str(name), severity, pairs[0].0, Str(title))] else [])
         + VulnerabilityFindings(name, severity, pairs[1..], title)
  }

  function FromVulnerability(name: string, vulnerability: Json): Py<seq<Finding>> {
    if !vulnerability.Obj? then Raised
    else
      var pairs := Via(Get(vulnerability.entries, "via"));
      var title :- JoinTitles(pairs);
      Value(VulnerabilityFindings(name, Get(vulnerability.entries, "severity"), pairs, title))
  }

  function FromVulnerabilities(vulnerabilities: seq<(string, Json)>): Py<seq<Finding>> {
    if vulnerabilities == [] then Value([])
    else
      var first :- FromVulnerability(vulnerabilities[0].0, vulnerabilities[0].1);
      var rest :- FromVulnerabilities(vulnerabilities[1..]);
      Value(first + rest)
  }

  function Section(j: Json): seq<(string, Json)> {
    if j.Obj? then j.entries else []
  }

  /** All findings of a report, in the order the generator yields them. */
  function Findings(rt: Runtime, data: Json): Py<seq<Finding>> {
    if !data.Obj? then Raised
    else
      var a :- FromAdvisories(rt, Section(Get(data.entries, "advisories")));
      var v :- FromVulnerabilities(Section(Get(data.entries, "vulnerabilities")));
      Value(a + v)
  }

  /** The generator `iter_vulns`, collecting what it yields; a raise ends it. */
  method IterVulns(rt: Runtime, data: Json) returns (found: Py<seq<Finding>>)
    ensures found == Findings(rt, data)
    ensures found.Raised? <==> ReportUnreadable(data)
    ensures found.Value? ==> ReportYields(rt, data, found.value)
  {
    ReportRaisesIff(rt, data);
    ReportFindings(rt, data);
    if !data.Obj? {
      return Raised;
    }
    var advisories := ScanAdvisories(rt, Section(Get(data.entries, "advisories")));
    if advisories.Raised? {
      return Raised;
    }
    var vulnerabilities := ScanVulnerabilities(Section(Get(data.entries, "vulnerabilities")));
    if vulnerabilities.Raised? {
      return Raised;
    }
    return Value(advisories.value + vulnerabilities.value);
  }

  method ScanAdvisories(rt: Runtime, advisories: seq<(string, Json)>) returns (found: Py<seq<Finding>>)
    ensures found == FromAdvisories(rt, advisories)
  {
    var yielded: seq<Finding> := [];
    var n := 0;
    assert advisories[0..] == advisories;
    PrependUnit(FromAdvisories(rt, advisories), []);
    while n < |advisories|
      invariant n <= |advisories|
      invariant FromAdvisories(rt, advisories) == Prepend(yielded, FromAdvisories(rt, advisories[n..]))
    {
      var finding := FromAdvisory(rt, advisories[n].1);
      assert advisories[n..][1..] == advisories[n + 1..];
      if finding.Raised? {
        return Raised;
      }
      PrependTwice(yielded, [finding.value], FromAdvisories(rt, advisories[n + 1..]));
      yielded := yielded + [finding.value];
      n := n + 1;
    }
    PrependUnit(FromAdvisories(rt, advisories), yielded);
    return Value(yielded);
  }

  method ScanVulnerabilities(vulnerabilities: seq<(string, Json)>) returns (found: Py<seq<Finding>>)
    ensures found == FromVulnerabilities(vulnerabilities)
  {
    var yielded: seq<Finding> := [];
    var n := 0;
    assert vulnerabilities[0..] == vulnerabilities;
    PrependUnit(FromVulnerabilities(vulnerabilities), []);
    while n < |vulnerabilities|
      invariant n <= |vulnerabilities|
      invariant FromVulnerabilities(vulnerabilities) == Prepend(yielded, FromVulnerabilities(vulnerabilities[n..]))
    {
      var findings := ScanVulnerability(vulnerabilities[n].0, vulnerabilities[n].1);
      assert vulnerabilities[n..][1..] == vulnerabilities[n + 1..];
      if findings.Raised? {
        return Raised;
      }
      PrependTwice(yielded, findings.value, FromVulnerabilities(vulnerabilities[n + 1..]));
      yielded := yielded + findings.value;
      n := n + 1;
    }
    PrependUnit(FromVulnerabilities(vulnerabilities), yielded);
    return Value(yielded);
  }

  method ScanVulnerability(name: string, vulnerability: Json) returns (found: Py<seq<Finding>>)
    ensures found == FromVulnerability(name, vulnerability)
  {
    if !vulnerability.Obj? {
      return Raised;
    }
    var severity := Get(vulnerability.entries, "severity");
    var pairs := CollectVia(Get(vulnerability.entries, "via"));
    var title := JoinTitles(pairs);
    if title.Raised? {
      return Raised;
    }
    var findings := YieldFindings(name, severity, pairs, title.value);
    return Value(findings);
  }

  method YieldFindings(name: string, severity: Json, pairs: seq<(Json, Json)>, title: string)
    returns (yielded: seq<Finding>)
    ensures yielded == VulnerabilityFindings(name, severity, pairs, title)
  {
    yielded := [];
    for k := 0 to |pairs|
      invariant VulnerabilityFindings(name, severity, pairs, title) ==
                yielded + VulnerabilityFindings(name, severity, pairs[k..], title)
    {
      assert pairs[k..][1..] == pairs[k + 1..];
      if Truthy(pairs[k].0) {
        yielded := yielded + [Finding(Str(name), severity, pairs[k].0, Str(title))];
      }
    }
  }

  function Prepend(yielded: seq<Finding>, rest: Py<seq<Finding>>): Py<seq<Finding>> {
    match rest
    case Raised => Raised
    case Value(more) => Value(yielded + more)
  }

  lemma {:induction false} PrependUnit(all: Py<seq<Finding>>, yielded: seq<Finding>)
    ensures Prepend([], all) == all
    ensures Prepend(yielded, Value([])) == Value(yielded)
  {
    assert all.Value? ==> [] + all.value == all.value;
    assert yielded + [] == yielded;
  }

  lemma {:induction false} PrependTwice(a: seq<Finding>, b: seq<Finding>, rest: Py<seq<Finding>>)
    ensures Prepend(a, Prepend(b, rest)) == Prepend(a + b, rest)
  {
    assert rest.Value? ==> a + (b + rest.value) == a + b + rest.value;
  }

  /** The loop over `via` that fills the two parallel lists of ids and titles. */
  method CollectItems(items: seq<Json>) returns (pairs: seq<(Json, Json)>)
    ensures pairs == ViaItems(items)
  {
    pairs := [];
    for n := 0 to |items|
      invariant ViaItems(items) == pairs + ViaItems(items[n..])
    {
      assert items[n..][1..] == items[n + 1..];
      var item := ViaItem(items[n]);
      if item.Some? {
        pairs := pairs + [item.value];
      }
    }
  }

  method CollectVia(via: Json) returns (pairs: seq<(Json, Json)>)
    ensures pairs == Via(via)
  {
    match via {
      case Arr(items) => pairs := CollectItems(items);
      case Str(_) => pairs := [(via, via)];
      case _ => pairs := [];
    }
  }

  // ---------------------------------------------------------------- what the extraction promises

  function IsNamed(): ((Json, Json)) -> bool {
    (pair: (Json, Json)) => Truthy(pair.0)
  }

  /** The findings of a vulnerability are its truthy `via` ids, each once and in order, under its name and severity. */
  lemma {:induction false} ViaFindings(name: string, severity: Json, pairs: seq<(Json, Json)>, title: string)
    ensures var found, kept := VulnerabilityFindings(name, severity, pairs, title), Filter(pairs, IsNamed());
            && |found| == |kept|
            && forall i :: 0 <= i < |kept| ==> found[i] == Finding(Str(name), severity, kept[i].0, Str(title))
  {
    if pairs != [] {
      var rest, more := VulnerabilityFindings(name, severity, pairs[1..], title), Filter(pairs[1..], IsNamed());
      ViaFindings(name, severity, pairs[1..], title);
      if Truthy(pairs[0].0) {
        assert VulnerabilityFindings(name, severity, pairs, title) ==
          [Finding(Str(name), severity, pairs[0].0, Str(title))] + rest;
        assert Filter(pairs, IsNamed()) == [pairs[0]] + more;
      } else {
        assert VulnerabilityFindings(name, severity, pairs, title) == rest && Filter(pairs, IsNamed()) == more;
      }
    }
  }

  /** `index` is where an `or` chain over `keys` stops: at the first truthy value, or at the end. */
  predicate StopsAt(entries: seq<(string, Json)>, keys: seq<string>, index: nat)
    requires index < |keys|
  {
    && (forall j :: 0 <= j < index ==> !Truthy(Get(entries, keys[j])))
    && (Truthy(Get(entries, keys[index])) || index == |keys| - 1)
  }

  lemma {:induction false} FirstTruthyStops(entries: seq<(string, Json)>, keys: seq<string>, index: nat)
    requires index < |keys| && StopsAt(entries, keys, index)
    ensures FirstTruthy(entries, keys) == Get(entries, keys[index])
  {
    if index > 0 {
      assert !Truthy(Get(entries, keys[0]));
      assert StopsAt(entries, keys[1..], index - 1);
      FirstTruthyStops(entries, keys[1..], index - 1);
    }
  }

  // The accessors of the library, on which the extraction rests.

  /** An object's entry, or `None`. */
  lemma {:induction false} GetFinds(entries: seq<(string, Json)>, key: string)
    ensures (forall e :: e in entries ==> e.0 != key) ==> Get(entries, key) == Null
    ensures forall i: nat :: i < |entries| && entries[i].0 == key
                             && (forall j :: 0 <= j < i ==> entries[j].0 != key) ==>
              Get(entries, key) == entries[i].1
  {
    if entries != [] && entries[0].0 != key {
      GetFinds(entries[1..], key);
      forall i: nat | i < |entries| && entries[i].0 == key && forall j :: 0 <= j < i ==> entries[j].0 != key
        ensures Get(entries, key) == entries[i].1
      {
        assert entries[1..][i - 1] == entries[i];
        assert forall j :: 0 <= j < i - 1 ==> entries[1..][j] == entries[j + 1];
      }
    }
  }

  /** Exactly these values are falsy. */
  lemma {:induction false} FalsyAre(j: Json)
    ensures !Truthy(j) <==> j in {Null, Bool(false), Str(""), Arr([]), Obj([])} || (j.Num? && j.zero)
  {
  }

  // What one advisory yields, key by key.

  predicate NameOfAdvisory(a: seq<(string, Json)>, name: Json) {
    if Truthy(Get(a, "module_name")) then name == Get(a, "module_name") else name == Get(a, "name")
  }

  /** A title, or what stands in for it. */
  predicate TitleOrElse(a: seq<(string, Json)>, j: Json, last: string) {
    if Truthy(Get(a, "title")) then j == Get(a, "title")
    else if Truthy(Get(a, "advisory")) then j == Get(a, "advisory")
    else if Truthy(Get(a, "overview")) then j == Get(a, "overview")
    else j == Get(a, last)
  }

  /** `str` of the numeric id; anything that is neither a text nor a number is up to the library. */
  predicate IdText(rt: Runtime, id: Json, text: string) {
    match id
    case Str(s) => text == s
    case Num(n, _) => text == n
    case _ => text == rt.repr(id)
  }

  /** From the most stable source to the least: GHSA id, URL, first CVE, numeric id, title. */
  ghost predicate IdOfAdvisory(rt: Runtime, a: seq<(string, Json)>, j: Json) {
    var ghsa, url, cves, id := Get(a, "github_advisory_id"), Get(a, "url"), Get(a, "cves"), Get(a, "id");
    if Truthy(ghsa) then j == ghsa
    else if Truthy(url) then j == url
    else if cves.Arr? && cves.items != [] && Truthy(cves.items[0]) then j == cves.items[0]
    else if cves.Str? && cves.s != "" then j == Str(cves.s[..1])
    else if id != Null && !IdText(rt, id, "") then j.Str? && IdText(rt, id, j.s)
    else TitleOrElse(a, j, "overview")
  }

  /** The finding of one advisory, read off its entries. */
  ghost predicate AdvisoryYields(rt: Runtime, advisory: Json, f: Finding) {
    && advisory.Obj?
    && NameOfAdvisory(advisory.entries, f.name)
    && f.severity == Get(advisory.entries, "severity")
    && IdOfAdvisory(rt, advisory.entries, f.advisory)
    && TitleOrElse(advisory.entries, f.title, "url")
  }

  lemma {:induction false} ChainOfThree(entries: seq<(string, Json)>, first: string, second: string, third: string)
    ensures FirstTruthy(entries, [first, second, third]) ==
            if Truthy(Get(entries, first)) then Get(entries, first)
            else if Truthy(Get(entries, second)) then Get(entries, second) else Get(entries, third)
  {
    assert [first, second, third][1..] == [second, third];
    FirstTruthyOfTwo(entries, second, third);
  }

  lemma {:induction false} ChainOfFour(entries: seq<(string, Json)>, first: string, second: string, third: string,
                                       fourth: string)
    ensures FirstTruthy(entries, [first, second, third, fourth]) ==
            if Truthy(Get(entries, first)) then Get(entries, first)
            else if Truthy(Get(entries, second)) then Get(entries, second)
            else if Truthy(Get(entries, third)) then Get(entries, third) else Get(entries, fourth)
  {
    assert [first, second, third, fourth][1..] == [second, third, fourth];
    ChainOfThree(entries, second, third, fourth);
  }

  lemma {:induction false} PickedId(rt: Runtime, a: seq<(string, Json)>)
    ensures PickAdvisoryId(rt, a).Value? ==> IdOfAdvisory(rt, a, PickAdvisoryId(rt, a).value)
  {
    FirstTruthyOfTwo(a, GHSA, URL);
    ChainOfThree(a, "title", "advisory", "overview");
    var cves := Get(a, "cves");
    if cves.Str? && cves.s != "" {
      assert cves.s[..1] == [cves.s[0]];
    }
  }

  /** One advisory: it raises exactly when it is unreadable, and otherwise yields its own finding. */
  lemma {:induction false} OneAdvisory(rt: Runtime, advisory: Json)
    ensures FromAdvisory(rt, advisory).Raised? <==> AdvisoryUnreadable(advisory)
    ensures FromAdvisory(rt, advisory).Value? ==> AdvisoryYields(rt, advisory, FromAdvisory(rt, advisory).value)
  {
    AdvisoryRaisesIff(rt, advisory);
    if FromAdvisory(rt, advisory).Value? {
      PickedId(rt, advisory.entries);
      FirstTruthyOfTwo(advisory.entries, "module_name", "name");
      ChainOfFour(advisory.entries, "title", "advisory", "overview", URL);
    }
  }

  /** The entries leave no choice of the finding. */
  lemma {:induction false} YieldsOneWay(rt: Runtime, advisory: Json, f: Finding, g: Finding)
    requires AdvisoryYields(rt, advisory, f) && AdvisoryYields(rt, advisory, g)
    ensures f == g
  {
    var id := Get(advisory.entries, "id");
    assert forall s, t :: IdText(rt, id, s) && IdText(rt, id, t) ==> s == t;
  }

  /**
   The advisory layout yields one finding an advisory, in order, each read off its own entries, and raises as soon as
   one advisory is unreadable.
   */
  lemma {:induction false} AdvisoryFindings(rt: Runtime, advisories: seq<(string, Json)>)
    ensures FromAdvisories(rt, advisories).Raised? <==> exists a :: a in advisories && AdvisoryUnreadable(a.1)
    ensures var r := FromAdvisories(rt, advisories);
            r.Value? ==>
              && |r.value| == |advisories|
              && forall i :: 0 <= i < |advisories| ==> AdvisoryYields(rt, advisories[i].1, r.value[i])
  {
    if advisories != [] {
      OneAdvisory(rt, advisories[0].1);
      AdvisoryFindings(rt, advisories[1..]);
      assert advisories == [advisories[0]] + advisories[1..];
    }
  }

  /** The vulnerability layout yields exactly what its entries yield, and raises as soon as one entry does. */
  lemma {:induction false} EntryFindings(vulnerabilities: seq<(string, Json)>, f: Finding)
    ensures FromVulnerabilities(vulnerabilities).Raised? <==>
              exists v :: v in vulnerabilities && FromVulnerability(v.0, v.1).Raised?
    ensures FromVulnerabilities(vulnerabilities).Value? ==>
              (f in FromVulnerabilities(vulnerabilities).value <==>
               exists v :: v in vulnerabilities && FromVulnerability(v.0, v.1).Value?
                 && f in FromVulnerability(v.0, v.1).value)
  {
    if vulnerabilities != [] {
      EntryFindings(vulnerabilities[1..], f);
      assert vulnerabilities == [vulnerabilities[0]] + vulnerabilities[1..];
    }
  }

  /** The findings of the second layout come entry by entry, in order. */
  lemma {:induction false} EntriesInOrder(a: seq<(string, Json)>, b: seq<(string, Json)>, v: (string, Json))
    ensures FromVulnerabilities([v]) == FromVulnerability(v.0, v.1)
    ensures FromVulnerabilities(a + b) ==
            if FromVulnerabilities(a).Raised? || FromVulnerabilities(b).Raised? then Raised
            else Value(FromVulnerabilities(a).value + FromVulnerabilities(b).value)
  {
    var single := FromVulnerability(v.0, v.1);
    assert single.Value? ==> single.value + [] == single.value;
    if a == [] {
      assert a + b == b;
      PrependUnit(FromVulnerabilities(b), []);
    } else {
      EntriesInOrder(a[1..], b, v);
      assert (a + b)[1..] == a[1..] + b;
      var first := FromVulnerability(a[0].0, a[0].1);
      if first.Value? && FromVulnerabilities(a[1..]).Value? && FromVulnerabilities(b).Value? {
        assert first.value + (FromVulnerabilities(a[1..]).value + FromVulnerabilities(b).value) ==
               first.value + FromVulnerabilities(a[1..]).value + FromVulnerabilities(b).value;
      }
    }
  }

  lemma {:induction false} FirstTruthyOfTwo(entries: seq<(string, Json)>, first: string, second: string)
    ensures FirstTruthy(entries, [first, second]) ==
            if Truthy(Get(entries, first)) then Get(entries, first) else Get(entries, second)
  {
    assert [first, second][1..] == [second];
  }

  /**
   The matching id of an advisory comes from the most stable source it has: a GHSA id hides everything else, then
   the URL, then the first CVE, then the numeric id; a title is used only when all of these are missing.
   */
  lemma {:induction false} StableIdWins(rt: Runtime, a: seq<(string, Json)>, b: seq<(string, Json)>)
    ensures Truthy(Get(a, GHSA)) && Get(a, GHSA) == Get(b, GHSA) ==>
              PickAdvisoryId(rt, a) == PickAdvisoryId(rt, b) == Value(Get(a, GHSA))
    ensures !Truthy(Get(a, GHSA)) && Truthy(Get(a, URL))
            && Get(a, GHSA) == Get(b, GHSA) && Get(a, URL) == Get(b, URL) ==>
              PickAdvisoryId(rt, a) == PickAdvisoryId(rt, b) == Value(Get(a, URL))
    ensures !Truthy(Get(a, GHSA)) && !Truthy(Get(a, URL)) && Get(a, CVES).Arr? && Truthy(Get(a, CVES))
            && Truthy(Get(a, CVES).items[0])
            && Get(a, GHSA) == Get(b, GHSA) && Get(a, URL) == Get(b, URL) && Get(a, CVES) == Get(b, CVES) ==>
              PickAdvisoryId(rt, a) == PickAdvisoryId(rt, b) == Value(Get(a, CVES).items[0])
    ensures !Truthy(Get(a, GHSA)) && !Truthy(Get(a, URL)) && !Truthy(Get(a, CVES)) && Get(a, "id") != Null
            && ToStr(rt, Get(a, "id")) != "" ==>
              PickAdvisoryId(rt, a) == Value(Str(ToStr(rt, Get(a, "id"))))
    ensures !Truthy(Get(a, GHSA)) && !Truthy(Get(a, URL)) && !Truthy(Get(a, CVES)) && Get(a, "id") == Null ==>
              PickAdvisoryId(rt, a) == Value(if Truthy(Get(a, "title")) then Get(a, "title")
                                             else if Truthy(Get(a, "advisory")) then Get(a, "advisory")
                                             else Get(a, "overview"))
  {
    FirstTruthyOfTwo(a, "advisory", "overview");
    assert ["title", "advisory", "overview"][1..] == ["advisory", "overview"];
    FirstTruthyOfTwo(a, GHSA, URL);
    FirstTruthyOfTwo(b, GHSA, URL);
  }

  // ---------------------------------------------------------------- which reports cannot be read

  /** `cves` is something that cannot be indexed by zero. */
  predicate CvesUnreadable(cves: Json) {
    Truthy(cves) && !cves.Arr? && !cves.Str?
  }

  /** Not an object, or without a GHSA id and a URL and with unusable `cves`. */
  predicate AdvisoryUnreadable(advisory: Json) {
    || !advisory.Obj?
    || (!Truthy(Get(advisory.entries, GHSA)) && !Truthy(Get(advisory.entries, URL))
        && CvesUnreadable(Get(advisory.entries, CVES)))
  }

  lemma {:induction false} AdvisoryRaisesIff(rt: Runtime, advisory: Json)
    ensures FromAdvisory(rt, advisory).Raised? <==> AdvisoryUnreadable(advisory)
  {
    if advisory.Obj? {
      FirstTruthyOfTwo(advisory.entries, GHSA, URL);
    }
  }

  /** A title that `"; ".join` rejects: truthy, but not a string. */
  predicate NotAText(title: Json) {
    Truthy(title) && !title.Str?
  }

  /** Not an object, or with an object in its `via` list whose title is not a text. */
  ghost predicate VulnerabilityUnreadable(vulnerability: Json) {
    || !vulnerability.Obj?
    || var via := Get(vulnerability.entries, "via");
       via.Arr? && exists item :: item in via.items && item.Obj? && NotAText(TitleOf(item.entries))
  }

  lemma {:induction false} JoinRaisesIff(pairs: seq<(Json, Json)>)
    ensures JoinTitles(pairs).Raised? <==> exists pair :: pair in pairs && NotAText(pair.1)
  {
    if pairs != [] {
      JoinRaisesIff(pairs[1..]);
      assert pairs == [pairs[0]] + pairs[1..];
    }
  }

  lemma {:induction false} ViaMembers(items: seq<Json>, pair: (Json, Json))
    ensures pair in ViaItems(items) <==> exists item :: item in items && ViaItem(item) == Some(pair)
  {
    if items != [] {
      ViaMembers(items[1..], pair);
      assert items == [items[0]] + items[1..];
    }
  }

  lemma {:induction false} ItemsRaiseIff(items: seq<Json>)
    ensures JoinTitles(ViaItems(items)).Raised? <==>
            exists item :: item in items && item.Obj? && NotAText(TitleOf(item.entries))
  {
    JoinRaisesIff(ViaItems(items));
    if exists pair :: pair in ViaItems(items) && NotAText(pair.1) {
      var pair :| pair in ViaItems(items) && NotAText(pair.1);
      ViaMembers(items, pair);
      var item :| item in items && ViaItem(item) == Some(pair);
      assert item.Obj?;
    }
    forall item | item in items && item.Obj? && NotAText(TitleOf(item.entries))
      ensures exists pair :: pair in ViaItems(items) && NotAText(pair.1)
    {
      var pair := ViaItem(item).value;
      ViaMembers(items, pair);
      assert pair in ViaItems(items) && NotAText(pair.1);
    }
  }

  // What one entry of the other layout yields, item by item.

  predicate IdOfVia(e: seq<(string, Json)>, j: Json) {
    if Truthy(Get(e, "github_advisory_id")) then j == Get(e, "github_advisory_id")
    else if Truthy(Get(e, "url")) then j == Get(e, "url")
    else if Truthy(Get(e, "source")) then j == Get(e, "source")
    else if Truthy(Get(e, "title")) then j == Get(e, "title")
    else j == Get(e, "name")
  }

  predicate TitleOfVia(e: seq<(string, Json)>, j: Json) {
    if Truthy(Get(e, "title")) then j == Get(e, "title")
    else if Truthy(Get(e, "url")) then j == Get(e, "url")
    else if Truthy(Get(e, "advisory")) then j == Get(e, "advisory")
    else j == Get(e, "source")
  }

  lemma {:induction false} ViaChains(e: seq<(string, Json)>)
    ensures IdOfVia(e, IdOf(e)) && TitleOfVia(e, TitleOf(e))
  {
    assert [GHSA, URL, "source", "title", "name"][1..] == [URL, "source", "title", "name"];
    ChainOfFour(e, URL, "source", "title", "name");
    ChainOfFour(e, "title", URL, "advisory", "source");
  }

  /** The items of `via` one by one: an object by its own keys, a text as id and title, anything else not at all. */
  lemma {:induction false} ViaInOrder(a: seq<Json>, b: seq<Json>, item: Json)
    ensures ViaItems(a + b) == ViaItems(a) + ViaItems(b)
    ensures item.Obj? ==> |ViaItems([item])| == 1 && IdOfVia(item.entries, ViaItems([item])[0].0)
                          && TitleOfVia(item.entries, ViaItems([item])[0].1)
    ensures item.Str? ==> ViaItems([item]) == [(item, item)]
    ensures !item.Obj? && !item.Str? ==> ViaItems([item]) == []
  {
    assert [item][1..] == [];
    if item.Obj? {
      ViaChains(item.entries);
    }
    if a == [] {
      assert a + b == b;
    } else {
      ViaInOrder(a[1..], b, item);
      assert (a + b)[1..] == a[1..] + b;
    }
  }

  /** Texts that are not empty, joined in order. */
  function Spaced(a: string, b: string): string {
    if a == "" then b else if b == "" then a else a + "; " + b
  }

  lemma {:induction false} SpacedAssociates(a: string, b: string, c: string)
    ensures Spaced(a, Spaced(b, c)) == Spaced(Spaced(a, b), c)
  {
    assert a + "; " + (b + "; " + c) == (a + "; " + b) + "; " + c;
  }

  /** The joined titles: one is itself, and those of two lists stand one after the other. */
  lemma {:induction false} TitlesInOrder(a: seq<(Json, Json)>, b: seq<(Json, Json)>, id: Json, title: string)
    ensures JoinTitles([(id, Str(title))]) == Value(title)
    ensures JoinTitles(a).Value? && JoinTitles(b).Value? ==>
              JoinTitles(a + b) == Value(Spaced(JoinTitles(a).value, JoinTitles(b).value))
  {
    assert [(id, Str(title))][1..] == [];
    if a == [] {
      assert a + b == b;
    } else {
      TitlesInOrder(a[1..], b, id, title);
      assert (a + b)[1..] == a[1..] + b;
      if JoinTitles(a).Value? && JoinTitles(b).Value? && Truthy(a[0].1) {
        SpacedAssociates(a[0].1.s, JoinTitles(a[1..]).value, JoinTitles(b).value);
      }
    }
  }

  /** `x` is the advisory id of some item of `via`. */
  ghost predicate ViaNames(via: Json, x: Json) {
    Truthy(x) &&
    match via
    case Str(_) => x == via
    case Arr(items) =>
      exists item :: item in items && ((item.Str? && x == item) || (item.Obj? && IdOfVia(item.entries, x)))
    case _ => false
  }

  lemma {:induction false} ViaNamesIff(via: Json, x: Json)
    ensures ViaNames(via, x) <==> Truthy(x) && exists pair :: pair in Via(via) && pair.0 == x
  {
    if via.Str? {
      assert (via, via) in Via(via);
    } else if via.Arr? {
      if pair :| pair in Via(via) && pair.0 == x {
        ViaMembers(via.items, pair);
        var item :| item in via.items && ViaItem(item) == Some(pair);
        if item.Obj? {
          ViaChains(item.entries);
        }
      }
      if item :| item in via.items && ((item.Str? && x == item) || (item.Obj? && IdOfVia(item.entries, x))) {
        if item.Obj? {
          ViaChains(item.entries);
        }
        ViaMembers(via.items, ViaItem(item).value);
        assert ViaItem(item).value in Via(via);
      }
    }
  }

  /** The finding is one of this entry: under its name and severity, for an advisory its `via` names. */
  ghost predicate EntryNames(v: (string, Json), f: Finding) {
    && v.1.Obj? && f.name == Str(v.0) && f.severity == Get(v.1.entries, "severity")
    && ViaNames(Get(v.1.entries, "via"), f.advisory)
  }

  ghost predicate NamedByOne(entries: seq<(string, Json)>, f: Finding) {
    exists v :: v in entries && EntryNames(v, f)
  }

  /** A readable entry yields a finding for every advisory that its `via` names, and no other. */
  lemma {:induction false} EntryYields(v: (string, Json))
    requires FromVulnerability(v.0, v.1).Value?
    ensures forall f :: f in FromVulnerability(v.0, v.1).value ==> EntryNames(v, f)
    ensures forall x :: ViaNames(Get(v.1.entries, "via"), x) ==>
              exists f :: f in FromVulnerability(v.0, v.1).value && f.advisory == x
  {
    var severity, via := Get(v.1.entries, "severity"), Get(v.1.entries, "via");
    var pairs := Via(via);
    var found, kept := FromVulnerability(v.0, v.1).value, Filter(pairs, IsNamed());
    ViaFindings(v.0, severity, pairs, JoinTitles(pairs).value);
    FilterMembers(pairs, IsNamed());
    forall f | f in found
      ensures EntryNames(v, f)
    {
      var i :| 0 <= i < |found| && found[i] == f;
      assert kept[i] in kept;
      ViaNamesIff(via, f.advisory);
    }
    forall x | ViaNames(via, x)
      ensures exists f :: f in found && f.advisory == x
    {
      ViaNamesIff(via, x);
      var pair :| pair in pairs && pair.0 == x;
      assert IsNamed()(pair) && pair in kept;
      var i :| 0 <= i < |kept| && kept[i] == pair;
      assert found[i] in found;
    }
  }

  lemma {:induction false} VulnerabilityRaisesIff(name: string, vulnerability: Json)
    ensures FromVulnerability(name, vulnerability).Raised? <==> VulnerabilityUnreadable(vulnerability)
  {
    if vulnerability.Obj? {
      var via := Get(vulnerability.entries, "via");
      if via.Arr? {
        ItemsRaiseIff(via.items);
      } else {
        JoinRaisesIff(Via(via));
      }
    }
  }

  /** Not an object, or with an entry in either layout that cannot be read. */
  ghost predicate ReportUnreadable(data: Json) {
    || !data.Obj?
    || (exists a :: a in Section(Get(data.entries, "advisories")) && AdvisoryUnreadable(a.1))
    || (exists v :: v in Section(Get(data.entries, "vulnerabilities")) && VulnerabilityUnreadable(v.1))
  }

  /** The extraction raises exactly on these reports. */
  lemma {:induction false} ReportRaisesIff(rt: Runtime, data: Json)
    ensures Findings(rt, data).Raised? <==> ReportUnreadable(data)
  {
    if data.Obj? {
      var advisories := Section(Get(data.entries, "advisories"));
      var vulnerabilities := Section(Get(data.entries, "vulnerabilities"));
      AdvisoryFindings(rt, advisories);
      EntryFindings(vulnerabilities, Finding(Null, Null, Null, Null));
      forall v | v in vulnerabilities
        ensures FromVulnerability(v.0, v.1).Raised? <==> VulnerabilityUnreadable(v.1)
      {
        VulnerabilityRaisesIff(v.0, v.1);
      }
    }
  }

  /**
   What a readable report yields: for each advisory its finding, in order, and then findings for exactly the advisories
   that the entries of the other layout name.
   */
  ghost predicate ReportYields(rt: Runtime, data: Json, fs: seq<Finding>) {
    var advisories := Section(Get(Section(data), "advisories"));
    var entries := Section(Get(Section(data), "vulnerabilities"));
    var n := |advisories|;
    && n <= |fs|
    && (forall i :: 0 <= i < n ==> AdvisoryYields(rt, advisories[i].1, fs[i]))
    && (forall i :: n <= i < |fs| ==> NamedByOne(entries, fs[i]))
    && forall v, x :: v in entries && v.1.Obj? && ViaNames(Get(v.1.entries, "via"), x) ==>
         exists f :: f in fs && EntryNames(v, f) && f.advisory == x
  }

  lemma {:induction false} ReportFindings(rt: Runtime, data: Json)
    ensures Findings(rt, data).Value? ==> ReportYields(rt, data, Findings(rt, data).value)
  {
    if Findings(rt, data).Value? {
      var advisories := Section(Get(Section(data), "advisories"));
      var entries := Section(Get(Section(data), "vulnerabilities"));
      var first, rest := FromAdvisories(rt, advisories).value, FromVulnerabilities(entries).value;
      var fs := first + rest;
      assert fs == Findings(rt, data).value;
      AdvisoryFindings(rt, advisories);
      forall i | |advisories| <= i < |fs|
        ensures NamedByOne(entries, fs[i])
      {
        EntryFindings(entries, fs[i]);
        assert fs[i] == rest[i - |first|];
        var v :| v in entries && FromVulnerability(v.0, v.1).Value? && fs[i] in FromVulnerability(v.0, v.1).value;
        EntryYields(v);
        assert EntryNames(v, fs[i]);
      }
      forall v, x | v in entries && v.1.Obj? && ViaNames(Get(v.1.entries, "via"), x)
        ensures exists f :: f in fs && EntryNames(v, f) && f.advisory == x
      {
        EntryIsYielded(entries, v, x);
        var f :| f in rest && EntryNames(v, f) && f.advisory == x;
        assert f in fs;
      }
    }
  }

  lemma {:induction false} EntryIsYielded(entries: seq<(string, Json)>, v: (string, Json), x: Json)
    requires FromVulnerabilities(entries).Value? && v in entries
    requires v.1.Obj? && ViaNames(Get(v.1.entries, "via"), x)
    ensures exists f :: f in FromVulnerabilities(entries).value && EntryNames(v, f) && f.advisory == x
  {
    EntryFindings(entries, Finding(Null, Null, Null, Null));
    EntryYields(v);
    var f :| f in FromVulnerability(v.0, v.1).value && f.advisory == x;
    EntryFindings(entries, f);
  }
}
