/**
 The hand-written reader of the exception list: trimming, `key: value` splitting with quote removal, and the
 line-by-line record builder. A line without a colon after `- ` raises ValueError in the source; that outcome is
 `None` here.
 */
module ExceptionFile {
  import opened Prelude

  type Record = map<string, string>

  // ---------------------------------------------------------------- trimming

  /** The characters removed by Python's `str.strip()`. */
  predicate IsSpace(c: char) {
    var u := c as int;
    9 <= u <= 13 || 28 <= u <= 32 || u == 0x85 || u == 0xA0 || u == 0x1680 || 0x2000 <= u <= 0x200A
    || u == 0x2028 || u == 0x2029 || u == 0x202F || u == 0x205F || u == 0x3000
  }

  /** The same characters, one by one. */
  const SPACES: set<char> := {
    '\t', '\n', '\U{00000B}', '\U{00000C}', '\r', '\U{00001C}', '\U{00001D}', '\U{00001E}', '\U{00001F}', ' ',
    '\U{000085}', '\U{0000A0}', '\U{001680}', '\U{002000}', '\U{002001}', '\U{002002}', '\U{002003}',
    '\U{002004}', '\U{002005}', '\U{002006}', '\U{002007}', '\U{002008}', '\U{002009}', '\U{00200A}',
    '\U{002028}', '\U{002029}', '\U{00202F}', '\U{00205F}', '\U{003000}'}

  lemma {:induction false} SpacesAre(c: char)
    ensures IsSpace(c) <==> c in SPACES
  {
  }

  predicate AllSpace(s: string) {
    forall i :: 0 <= i < |s| ==> IsSpace(s[i])
  }

  /** Starts and ends with a character that trimming keeps, or is empty. */
  predicate Trimmed(s: string) {
    s == "" || (!IsSpace(s[0]) && !IsSpace(s[|s| - 1]))
  }

  function StripLeft(s: string): (r: string)
    ensures r == "" || !IsSpace(r[0])
    ensures r != "" ==> s != "" && r[|r| - 1] == s[|s| - 1]
    ensures AllSpace(s) ==> r == ""
  {
    if s != "" && IsSpace(s[0]) then StripLeft(s[1..]) else s
  }

  function StripRight(s: string): (r: string)
    ensures r <= s
    ensures r == "" || !IsSpace(r[|r| - 1])
    ensures AllSpace(s) ==> r == ""
  {
    if s != "" && IsSpace(s[|s| - 1]) then StripRight(s[..|s| - 1]) else s
  }

  function Strip(s: string): (r: string)
    ensures Trimmed(r)
    ensures AllSpace(s) ==> r == ""
  {
    StripRight(StripLeft(s))
  }

  /** Trimming cuts blanks off both ends and nothing else. */
  lemma {:induction false} StripCuts(s: string) returns (left: string, right: string)
    ensures AllSpace(left) && AllSpace(right) && s == left + Strip(s) + right
  {
    var middle := StripLeft(s);
    left := StripLeftCuts(s);
    right := StripRightCuts(middle);
    Reassociate(left, StripRight(middle), right);
  }

  lemma {:induction false} Reassociate(a: string, b: string, c: string)
    ensures a + (b + c) == a + b + c
  {
  }

  lemma {:induction false} StripLeftCuts(s: string) returns (left: string)
    ensures AllSpace(left) && s == left + StripLeft(s)
  {
    left := "";
    if s != "" && IsSpace(s[0]) {
      var rest := StripLeftCuts(s[1..]);
      left := [s[0]] + rest;
      assert s == [s[0]] + s[1..];
    }
  }

  lemma {:induction false} StripRightCuts(s: string) returns (right: string)
    ensures AllSpace(right) && s == StripRight(s) + right
  {
    right := "";
    if s != "" && IsSpace(s[|s| - 1]) {
      var rest := StripRightCuts(s[..|s| - 1]);
      right := rest + [s[|s| - 1]];
      assert s == s[..|s| - 1] + [s[|s| - 1]];
    }
  }

  lemma {:induction false} StripLeftPadding(pad: string, s: string)
    requires AllSpace(pad)
    ensures StripLeft(pad + s) == StripLeft(s)
  {
    if pad == "" {
      assert pad + s == s;
    } else {
      StripLeftPadding(pad[1..], s);
      assert (pad + s)[1..] == pad[1..] + s;
    }
  }

  lemma {:induction false} StripRightPadding(s: string, pad: string)
    requires AllSpace(pad)
    ensures StripRight(s + pad) == StripRight(s)
  {
    if pad == "" {
      assert s + pad == s;
    } else {
      StripRightPadding(s, pad[..|pad| - 1]);
      assert (s + pad)[..|s + pad| - 1] == s + pad[..|pad| - 1];
    }
  }

  /** Trimming recovers a non-empty text from any padding around it. */
  lemma {:induction false} StripPadding(left: string, s: string, right: string)
    requires AllSpace(left) && AllSpace(right) && Trimmed(s) && s != ""
    ensures Strip(left + s + right) == s
  {
    var t := s + right;
    assert left + s + right == left + t;
    StripLeftPadding(left, t);
    assert t[0] == s[0];
    assert StripLeft(t) == t;
    StripRightPadding(s, right);
    assert StripRight(s) == s;
  }

  /** Python's `line.startswith(word)`. */
  predicate StartsWith(line: string, word: string)
    ensures StartsWith(line, word) <==> word <= line
  {
    if word == "" then true
    else if line == "" || line[0] != word[0] then false
    else
      assert word <= line <==> word[1..] <= line[1..];
      StartsWith(line[1..], word[1..])
  }

  // ---------------------------------------------------------------- key: value

  function IndexOf(s: string, c: char): (i: nat)
    requires c in s
    ensures i < |s| && s[i] == c && c !in s[..i]
  {
    if s[0] == c then 0 else 1 + IndexOf(s[1..], c)
  }

  lemma {:induction false} IndexOfFirst(a: string, c: char, b: string)
    requires c !in a
    ensures IndexOf(a + [c] + b, c) == |a|
  {
    var s := a + [c] + b;
    assert s[|a|] == c;
    if a != "" {
      assert s[0] == a[0];
      assert s[1..] == a[1..] + [c] + b;
      IndexOfFirst(a[1..], c, b);
    }
  }

  /** `value[1:-1]` when both ends carry the same kind of quote. A lone quote is both ends at once. */
  function Unquote(v: string): string {
    if v != "" && v[0] == v[|v| - 1] && (v[0] == '"' || v[0] == '\'') then
      if |v| == 1 then "" else v[1..|v| - 1]
    else v
  }

  function SplitKeyValue(line: string): Option<(string, string)> {
    if ':' in line then
      var i := IndexOf(line, ':');
      Some((Strip(line[..i]), Unquote(Strip(line[i + 1..]))))
    else None
  }

  // ---------------------------------------------------------------- records

  datatype State = State(finished: seq<Record>, current: Option<Record>)

  const START := State([], None)

  /**
   How one line reads. `Broken` is a record line without a colon, on which the source raises ValueError;
   `Opener` is a record line without any text.
   */
  datatype Line = Ignored | Opener | Item(key: string, value: string) | Pair(key: string, value: string) | Broken

  function Classify(line: string): Line {
    if line == "" || StartsWith(line, "#") || StartsWith(line, "version:") || StartsWith(line, "exceptions:") then
      Ignored
    else if StartsWith(line, "- ") then
      var item := Strip(line[2..]);
      if item == "" then Opener
      else match SplitKeyValue(item)
        case None => Broken
        case Some((key, value)) => Item(key, value)
    else match SplitKeyValue(line)
      case None => Ignored
      case Some((key, value)) => Pair(key, value)
  }

  function ClassifyAll(lines: seq<string>): (r: seq<Line>)
    ensures |r| == |lines|
    decreases |lines|
  {
    if lines == [] then [] else [Classify(Strip(lines[0]))] + ClassifyAll(lines[1..])
  }

  lemma {:induction false} ClassifyAllAt(lines: seq<string>, i: nat)
    requires i < |lines|
    ensures ClassifyAll(lines)[i] == Classify(Strip(lines[i]))
    decreases i
  {
    if i > 0 { ClassifyAllAt(lines[1..], i - 1); }
  }

  lemma {:induction false} ClassifyAllAppend(a: seq<string>, b: seq<string>)
    ensures ClassifyAll(a + b) == ClassifyAll(a) + ClassifyAll(b)
    decreases |a|
  {
    if a == [] {
      assert a + b == b;
    } else {
      assert (a + b)[1..] == a[1..] + b;
      ClassifyAllAppend(a[1..], b);
    }
  }

  function Flush(st: State): seq<Record> {
    if st.current.Some? && st.current.value != map[] then st.finished + [st.current.value] else st.finished
  }

  function ReadLine(st: State, line: Line): Option<State> {
    match line
    case Ignored => Some(st)
    case Opener => Some(State(Flush(st), Some(map[])))
    case Item(key, value) => Some(State(Flush(st), Some(map[key := value])))
    case Pair(key, value) =>
      if st.current.None? then Some(st) else Some(st.(current := Some(st.current.value[key := value])))
    case Broken => None
  }

  function ReadFrom(st: State, lines: seq<Line>): Option<State>
    decreases |lines|
  {
    if lines == [] then Some(st)
    else match ReadLine(st, lines[0])
      case None => None
      case Some(next) => ReadFrom(next, lines[1..])
  }

  function Parse(lines: seq<string>): Option<seq<Record>> {
    match ReadFrom(START, ClassifyAll(lines))
    case None => None
    case Some(st) => Some(Flush(st))
  }

  method ParseExceptions(lines: seq<string>) returns (exceptions: Option<seq<Record>>)
    ensures exceptions == Parse(lines)
  {
    var finished: seq<Record> := [];
    var current: Option<Record> := None;
    var n := 0;
    ghost var all := ClassifyAll(lines);
    while n < |lines|
      invariant n <= |lines|
      invariant ReadFrom(START, all) == ReadFrom(State(finished, current), all[n..])
    {
      ClassifyAllAt(lines, n);
      assert all[n..][1..] == all[n + 1..];
      var line := Strip(lines[n]);
      n := n + 1;
      if line == "" || StartsWith(line, "#") || StartsWith(line, "version:") || StartsWith(line, "exceptions:") {
        continue;
      }
      if StartsWith(line, "- ") {
        if current.Some? && current.value != map[] {
          finished := finished + [current.value];
        }
        current := Some(map[]);
        line := Strip(line[2..]);
        if line != "" {
          var pair := SplitKeyValue(line);
          if pair.None? {
            return None;
          }
          current := Some(current.value[pair.value.0 := pair.value.1]);
        }
        continue;
      }
      if current.Some? && ':' in line {
        var pair := SplitKeyValue(line);
        current := Some(current.value[pair.value.0 := pair.value.1]);
      }
    }
    if current.Some? && current.value != map[] {
      finished := finished + [current.value];
    }
    return Some(finished);
  }

  lemma {:induction false} ReadFromAppend(st: State, a: seq<Line>, b: seq<Line>)
    ensures ReadFrom(st, a + b) ==
            match ReadFrom(st, a) { case None => None case Some(mid) => ReadFrom(mid, b) }
    decreases |a|
  {
    if a == [] {
      assert a + b == b;
    } else {
      assert (a + b)[1..] == a[1..] + b;
      match ReadLine(st, a[0]) {
        case None =>
        case Some(next) => ReadFromAppend(next, a[1..], b);
      }
    }
  }

  // ---------------------------------------------------------------- outcome on arbitrary input

  /** A record line whose text after the dash has no colon. */
  predicate Malformed(raw: string) {
    StartsWith(Strip(raw), "- ") && ':' !in Strip(raw)[2..]
  }

  /** Trimming keeps every character that is not a blank. */
  lemma {:induction false} StripKeeps(s: string, c: char)
    requires !IsSpace(c)
    ensures c in Strip(s) <==> c in s
  {
    StripLeftKeeps(s, c);
    StripRightKeeps(StripLeft(s), c);
  }

  lemma {:induction false} StripLeftKeeps(s: string, c: char)
    requires !IsSpace(c)
    ensures c in StripLeft(s) <==> c in s
  {
    if s != "" && IsSpace(s[0]) {
      StripLeftKeeps(s[1..], c);
      assert s == [s[0]] + s[1..];
    }
  }

  lemma {:induction false} StripRightKeeps(s: string, c: char)
    requires !IsSpace(c)
    ensures c in StripRight(s) <==> c in s
  {
    if s != "" && IsSpace(s[|s| - 1]) {
      StripRightKeeps(s[..|s| - 1], c);
      assert s == s[..|s| - 1] + [s[|s| - 1]];
    }
  }

  /** Once trimmed, a line that starts with a dash and a blank always has text after them. */
  lemma {:induction false} ItemHasText(line: string)
    requires Trimmed(line) && StartsWith(line, "- ")
    ensures Strip(line[2..]) != ""
  {
    var last := line[|line| - 1];
    assert line[1] == ' ';
    assert |line| > 2;
    assert last == line[2..][|line| - 3];
    StripKeeps(line[2..], last);
  }

  lemma {:induction false} ClassifyOutcome(raw: string)
    ensures Classify(Strip(raw)).Broken? <==> Malformed(raw)
    ensures !Classify(Strip(raw)).Opener?
  {
    var line := Strip(raw);
    if StartsWith(line, "- ") {
      assert line[0] == '-';
      ItemHasText(line);
      StripKeeps(line[2..], ':');
    }
  }

  predicate NoEmptyRecord(st: State) {
    map[] !in st.finished && st.current != Some(map[])
  }

  lemma {:induction false} ReadFromOutcome(st: State, lines: seq<Line>)
    requires NoEmptyRecord(st) && Opener !in lines
    ensures ReadFrom(st, lines).None? <==> Broken in lines
    ensures ReadFrom(st, lines).Some? ==> NoEmptyRecord(ReadFrom(st, lines).value)
    decreases |lines|
  {
    if lines != [] {
      assert lines == [lines[0]] + lines[1..];
      match ReadLine(st, lines[0]) {
        case None =>
        case Some(next) =>
          if lines[0].Item? || (lines[0].Pair? && st.current.Some?) {
            assert lines[0].key in next.current.value;
          }
          ReadFromOutcome(next, lines[1..]);
      }
    }
  }

  /** The reader fails exactly when some record line has no colon, and it never returns an empty record. */
  lemma {:induction false} ParseOutcome(lines: seq<string>)
    ensures Parse(lines).None? <==> exists raw :: raw in lines && Malformed(raw)
    ensures Parse(lines).Some? ==> map[] !in Parse(lines).value
  {
    var all := ClassifyAll(lines);
    forall i | 0 <= i < |lines|
      ensures all[i].Broken? <==> Malformed(lines[i])
      ensures !all[i].Opener?
    {
      ClassifyAllAt(lines, i);
      ClassifyOutcome(lines[i]);
    }
    ReadFromOutcome(START, all);
    if exists raw :: raw in lines && Malformed(raw) {
      var raw :| raw in lines && Malformed(raw);
      var i :| 0 <= i < |lines| && lines[i] == raw;
      assert all[i] == Broken;
    }
    if Broken in all {
      var i :| 0 <= i < |all| && all[i] == Broken;
      assert lines[i] in lines;
    }
  }

  // ---------------------------------------------------------------- printing

  /** A line the reader skips anywhere: blank, a comment behind any indentation, a header, or text without a colon. */
  predicate Noise(raw: string) {
    || AllSpace(raw) || (exists k :: 0 <= k < |raw| && raw[k] == '#' && AllSpace(raw[..k]))
    || StartsWith(Strip(raw), "version:") || StartsWith(Strip(raw), "exceptions:")
    || (':' !in raw && !StartsWith(Strip(raw), "- "))
  }

  /** How a value is written: as it is, or between one kind of quote. */
  datatype Style = Bare | Single | Double

  /** One printed field: its key and value, the indentation before it, the blanks after it, the noise below it. */
  datatype Field = Field(key: string, value: string, style: Style, indent: string, trail: string, below: seq<string>)

  /** A text that starts and ends with the same kind of quote; a lone quote does. */
  predicate Quoted(v: string) {
    v != "" && v[0] == v[|v| - 1] && (v[0] == '"' || v[0] == '\'')
  }

  /** Any value can be quoted; what is written as it is must not have outer blanks or look quoted. */
  predicate Writable(value: string, style: Style) {
    style == Bare ==> Trimmed(value) && !Quoted(value)
  }

  /** A key the format can carry: no colon, no outer blanks, and nothing that reads as another kind of line. */
  predicate PlainKey(key: string) {
    key != "" && Trimmed(key) && ':' !in key && key[0] != '#' && key != "version" && key != "exceptions"
    && !(StartsWith(key, "- "))
  }

  predicate WellFormed(f: Field) {
    && PlainKey(f.key) && Writable(f.value, f.style) && AllSpace(f.indent) && AllSpace(f.trail)
    && forall raw :: raw in f.below ==> Noise(raw)
  }

  function ValueText(value: string, style: Style): string {
    match style
    case Bare => value
    case Single => "'" + value + "'"
    case Double => "\"" + value + "\""
  }

  /** The key, a colon, and the value after a blank; an empty value written as it is leaves nothing after the colon. */
  function PairText(f: Field): string {
    f.key + ":" + (if ValueText(f.value, f.style) == "" then "" else " " + ValueText(f.value, f.style))
  }

  function PrintField(f: Field, first: bool): seq<string> {
    [f.indent + ((if first then "- " else "") + PairText(f)) + f.trail] + f.below
  }

  function PrintFields(fields: seq<Field>, first: bool): seq<string>
    decreases |fields|
  {
    if fields == [] then [] else PrintField(fields[0], first) + PrintFields(fields[1..], false)
  }

  function PrintRecords(records: seq<seq<Field>>): seq<string>
    decreases |records|
  {
    if records == [] then [] else PrintFields(records[0], true) + PrintRecords(records[1..])
  }

  /** The dictionary a list of fields denotes: a later field overrides an earlier one with the same key. */
  function Denotes(fields: seq<Field>): (r: Record)
    ensures forall k :: k in r <==> exists f :: f in fields && f.key == k
  {
    if fields == [] then map[]
    else
      var last := fields[|fields| - 1];
      assert fields == fields[..|fields| - 1] + [last];
      Denotes(fields[..|fields| - 1])[last.key := last.value]
  }

  lemma {:induction false} DenotesSnoc(fields: seq<Field>, f: Field)
    ensures Denotes(fields + [f]) == Denotes(fields)[f.key := f.value]
  {
    assert (fields + [f])[..|fields|] == fields;
  }

  predicate Printable(record: seq<Field>) {
    record != [] && forall f :: f in record ==> WellFormed(f)
  }

  lemma {:induction false} CommentIsIgnored(line: string)
    requires line == "" || line[0] == '#'
    ensures Classify(line) == Ignored
  {
    assert line != "" ==> "#" <= line;
  }

  lemma {:induction false} NoiseStrips(raw: string)
    requires Noise(raw)
    ensures Classify(Strip(raw)) == Ignored
  {
    if ':' !in raw && !StartsWith(Strip(raw), "- ") {
      StripKeeps(raw, ':');
    } else if k :| 0 <= k < |raw| && raw[k] == '#' && AllSpace(raw[..k]) {
      CommentStrips(raw, k);
    }
  }

  lemma {:induction false} CommentStrips(raw: string, k: nat)
    requires k < |raw| && raw[k] == '#' && AllSpace(raw[..k])
    ensures Classify(Strip(raw)) == Ignored
  {
    var s := raw[k..];
    assert raw == raw[..k] + s;
    StripLeftPadding(raw[..k], s);
    assert StripLeft(s) == s;
    CommentIsIgnored(StripRight(s));
  }

  lemma {:induction false} StripTrimmed(s: string)
    requires Trimmed(s)
    ensures Strip(s) == s
  {
  }

  /** Unquoting leaves a text alone exactly when it is not quoted. */
  lemma {:induction false} UnquoteKeepsIff(v: string)
    ensures Unquote(v) == v <==> !Quoted(v)
    ensures Quoted(v) && |v| > 1 ==> v == [v[0]] + Unquote(v) + [v[0]]
    ensures Quoted(v) && |v| == 1 ==> Unquote(v) == ""
  {
    if Quoted(v) && |v| > 1 {
      assert |v[1..|v| - 1]| == |v| - 2;
    }
  }

  /** Between quotes of either kind every value survives, quotes and outer blanks included. */
  lemma {:induction false} QuotedRoundTrip(value: string, quote: char)
    requires quote == '"' || quote == '\''
    ensures var quoted := [quote] + value + [quote]; Trimmed(quoted) && Unquote(quoted) == value
  {
    var quoted := [quote] + value + [quote];
    assert quoted[1..|quoted| - 1] == value;
  }

  /** Written as it is, a value reads back unchanged exactly when it has no outer blanks and does not look quoted. */
  lemma {:induction false} BareReadsBackIff(value: string)
    ensures Unquote(Strip(value)) == value <==> Writable(value, Bare)
  {
    if Trimmed(value) {
      StripTrimmed(value);
      UnquoteKeepsIff(value);
    } else {
      StripShortens(value);
      assert |Unquote(Strip(value))| <= |Strip(value)|;
    }
  }

  lemma {:induction false} StripShortens(s: string)
    requires !Trimmed(s)
    ensures |Strip(s)| < |s|
  {
    var left, right := StripCuts(s);
    assert "" + Strip(s) + "" == Strip(s);
  }

  lemma {:induction false} ValueRoundTrip(value: string, style: Style, after: string)
    requires Writable(value, style) && AllSpace(after)
    ensures Unquote(Strip(after + ValueText(value, style))) == value
  {
    StripLeftPadding(after, ValueText(value, style));
    match style {
      case Bare => BareReadsBackIff(value);
      case Single => QuotedRoundTrip(value, '\'');
      case Double => QuotedRoundTrip(value, '"');
    }
    StripTrimmed(ValueText(value, style));
  }

  lemma {:induction false} SplitsAtColon(key: string, rest: string)
    requires ':' !in key
    ensures SplitKeyValue(key + [':'] + rest) == Some((Strip(key), Unquote(Strip(rest))))
  {
    var line := key + [':'] + rest;
    IndexOfFirst(key, ':', rest);
    assert line[|key|] == ':';
    assert line[..|key|] == key && line[|key| + 1..] == rest;
  }

  /** Blanks around the colon do not matter. */
  lemma {:induction false} PaddedRoundTrip(key: string, value: string, style: Style, before: string, after: string)
    requires PlainKey(key) && Writable(value, style) && AllSpace(before) && AllSpace(after)
    ensures SplitKeyValue(key + before + ":" + after + ValueText(value, style)) == Some((key, value))
  {
    var rest := after + ValueText(value, style);
    assert key + before + ":" + after + ValueText(value, style) == (key + before) + [':'] + rest;
    StripPadding("", key, before);
    assert "" + key + before == key + before;
    assert !IsSpace(':');
    SplitsAtColon(key + before, rest);
    ValueRoundTrip(value, style, after);
  }

  lemma {:induction false} PairIsTrimmed(f: Field)
    requires PlainKey(f.key) && Writable(f.value, f.style)
    ensures Trimmed(PairText(f)) && PairText(f)[0] == f.key[0]
  {
    var t, v := PairText(f), ValueText(f.value, f.style);
    assert t[0] == f.key[0];
    assert t[|t| - 1] == if v == "" then ':' else v[|v| - 1];
  }

  lemma {:induction false} PairTextIs(f: Field, after: string)
    requires after == if ValueText(f.value, f.style) == "" then "" else " "
    ensures f.key + "" + ":" + after + ValueText(f.value, f.style) == PairText(f)
  {
    assert f.key + "" == f.key;
    Reassociate(f.key + ":", after, ValueText(f.value, f.style));
  }

  /** Splitting the printed pair gives back key and value, in each of the three styles. */
  lemma {:induction false} PairRoundTrip(f: Field)
    requires PlainKey(f.key) && Writable(f.value, f.style)
    ensures SplitKeyValue(PairText(f)) == Some((f.key, f.value))
    ensures Trimmed(PairText(f)) && PairText(f)[0] == f.key[0]
  {
    var after := if ValueText(f.value, f.style) == "" then "" else " ";
    PairTextIs(f, after);
    PaddedRoundTrip(f.key, f.value, f.style, "", after);
    PairIsTrimmed(f);
  }

  lemma {:induction false} PairLine(line: string, key: string, value: string)
    requires line != "" && !StartsWith(line, "#") && !StartsWith(line, "version:") && !StartsWith(line, "exceptions:")
    requires !StartsWith(line, "- ") && SplitKeyValue(line) == Some((key, value))
    ensures Classify(line) == Pair(key, value)
  {
  }

  lemma {:induction false} ItemLine(line: string, key: string, value: string)
    requires StartsWith(line, "- ") && line[0] == '-'
    requires Strip(line[2..]) != "" && SplitKeyValue(Strip(line[2..])) == Some((key, value))
    ensures Classify(line) == Item(key, value)
  {
  }

  lemma {:induction false} NotAnItem(f: Field)
    requires PlainKey(f.key)
    ensures !StartsWith(PairText(f), "- ")
  {
    var t := PairText(f);
    assert t[|f.key|] == ':';
    if |f.key| == 1 {
      assert t[1] == ':' && "- "[1] == ' ';
    } else {
      assert t[..2] == f.key[..2];
    }
  }

  /** A printed pair is never mistaken for a comment, a header or a new record. */
  lemma {:induction false} PairReadsAsPair(f: Field)
    requires PlainKey(f.key) && Writable(f.value, f.style)
    ensures Classify(PairText(f)) == Pair(f.key, f.value)
  {
    var t := PairText(f);
    PairRoundTrip(f);
    NotAnItem(f);
    assert "version" + ":" == "version:" && "exceptions" + ":" == "exceptions:";
    KeyBeforeColon(f, "version");
    KeyBeforeColon(f, "exceptions");
    assert !StartsWith(t, "#") by { assert t[0] == f.key[0]; }
    PairLine(t, f.key, f.value);
  }

  lemma {:induction false} KeyBeforeColon(f: Field, word: string)
    requires ':' !in f.key && ':' !in word
    ensures word + ":" <= PairText(f) ==> f.key == word
  {
    var t := PairText(f);
    IndexOfFirst(f.key, ':', t[|f.key| + 1..]);
    assert t == f.key + [':'] + t[|f.key| + 1..];
    if word + ":" <= t {
      IndexOfFirst(word, ':', t[|word| + 1..]);
      assert t == word + [':'] + t[|word| + 1..];
      assert t[..|word|] == word && t[..|f.key|] == f.key;
    }
  }

  lemma {:induction false} ItemReadsAsItem(f: Field)
    requires PlainKey(f.key) && Writable(f.value, f.style)
    ensures Classify("- " + PairText(f)) == Item(f.key, f.value)
  {
    var t := "- " + PairText(f);
    assert t[2..] == PairText(f);
    PairRoundTrip(f);
    StripTrimmed(PairText(f));
    ItemLine(t, f.key, f.value);
  }

  /** What printed fields read as: each an item or a pair, followed by ignored lines. */
  function FieldLines(fields: seq<Field>, first: bool): seq<Line> {
    if fields == [] then []
    else
      var f := fields[0];
      [if first then Item(f.key, f.value) else Pair(f.key, f.value)] + seq(|f.below|, _ => Ignored)
      + FieldLines(fields[1..], false)
  }

  lemma {:induction false} NoiseIsIgnored(lines: seq<string>)
    requires forall raw :: raw in lines ==> Noise(raw)
    ensures ClassifyAll(lines) == seq(|lines|, _ => Ignored)
    decreases |lines|
  {
    if lines != [] {
      NoiseStrips(lines[0]);
      NoiseIsIgnored(lines[1..]);
    }
  }

  lemma {:induction false} FieldIsClassified(f: Field, first: bool)
    requires WellFormed(f)
    ensures Classify(Strip(PrintField(f, first)[0])) == if first then Item(f.key, f.value) else Pair(f.key, f.value)
  {
    var text := (if first then "- " else "") + PairText(f);
    PairRoundTrip(f);
    StripPadding(f.indent, text, f.trail);
    if first {
      ItemReadsAsItem(f);
    } else {
      assert text == PairText(f);
      PairReadsAsPair(f);
    }
  }

  lemma {:induction false} FieldsAreClassified(fields: seq<Field>, first: bool)
    requires forall f :: f in fields ==> WellFormed(f)
    ensures ClassifyAll(PrintFields(fields, first)) == FieldLines(fields, first)
    decreases |fields|
  {
    if fields != [] {
      var f, printed, more := fields[0], PrintField(fields[0], first), PrintFields(fields[1..], false);
      FieldIsClassified(f, first);
      NoiseIsIgnored(f.below);
      ClassifyAllAppend(printed, more);
      assert printed[1..] == f.below;
      FieldsAreClassified(fields[1..], false);
    }
  }

  lemma {:induction false} IgnoredIsSkipped(st: State, n: nat, rest: seq<Line>)
    ensures ReadFrom(st, seq(n, _ => Ignored) + rest) == ReadFrom(st, rest)
  {
    var all := seq(n, _ => Ignored) + rest;
    if n == 0 {
      assert all == rest;
    } else {
      assert all[1..] == seq(n - 1, _ => Ignored) + rest;
      IgnoredIsSkipped(st, n - 1, rest);
    }
  }

  /** Later fields extend the open record in order. */
  lemma {:induction false} LaterFieldsAreRead(st: State, done: seq<Field>, fields: seq<Field>)
    requires st.current == Some(Denotes(done))
    ensures ReadFrom(st, FieldLines(fields, false)) == Some(st.(current := Some(Denotes(done + fields))))
    decreases |fields|
  {
    if fields == [] {
      assert done + fields == done;
    } else {
      var f, more := fields[0], done + [fields[0]];
      assert more[..|more| - 1] == done;
      var next := st.(current := Some(Denotes(more)));
      var all, tail := FieldLines(fields, false), FieldLines(fields[1..], false);
      assert all[1..] == seq(|f.below|, _ => Ignored) + tail;
      IgnoredIsSkipped(next, |f.below|, tail);
      LaterFieldsAreRead(next, more, fields[1..]);
      assert done + fields == more + fields[1..];
    }
  }

  /** A record's first field closes the record before it. */
  lemma {:induction false} RecordIsRead(st: State, record: seq<Field>)
    requires record != []
    ensures ReadFrom(st, FieldLines(record, true)) == Some(State(Flush(st), Some(Denotes(record))))
  {
    var f, first, rest := record[0], record[..1], record[1..];
    assert first + rest == record && first[..0] == [];
    var begun := State(Flush(st), Some(Denotes(first)));
    var all, tail := FieldLines(record, true), FieldLines(rest, false);
    assert all[1..] == seq(|f.below|, _ => Ignored) + tail;
    IgnoredIsSkipped(begun, |f.below|, tail);
    LaterFieldsAreRead(begun, first, rest);
  }

  function DenoteAll(records: seq<seq<Field>>): seq<Record> {
    seq(|records|, i requires 0 <= i < |records| => Denotes(records[i]))
  }

  function RecordLines(records: seq<seq<Field>>): seq<Line>
    decreases |records|
  {
    if records == [] then [] else FieldLines(records[0], true) + RecordLines(records[1..])
  }

  lemma {:induction false} RecordsAreClassified(records: seq<seq<Field>>)
    requires forall i :: 0 <= i < |records| ==> Printable(records[i])
    ensures ClassifyAll(PrintRecords(records)) == RecordLines(records)
    decreases |records|
  {
    if records != [] {
      FieldsAreClassified(records[0], true);
      ClassifyAllAppend(PrintFields(records[0], true), PrintRecords(records[1..]));
      RecordsAreClassified(records[1..]);
    }
  }

  /** Reading one whole record leaves it open; the record before it is finished. */
  lemma {:induction false} RecordStep(st: State, records: seq<seq<Field>>) returns (next: State)
    requires records != [] && records[0] != []
    ensures ReadFrom(st, RecordLines(records)) == ReadFrom(next, RecordLines(records[1..]))
    ensures Flush(next) == Flush(st) + [Denotes(records[0])]
  {
    var r := records[0];
    next := State(Flush(st), Some(Denotes(r)));
    RecordIsRead(st, r);
    ReadFromAppend(st, FieldLines(r, true), RecordLines(records[1..]));
    assert r[0] in r && r[0].key in Denotes(r);
  }

  lemma {:induction false} DenoteAllHead(finished: seq<Record>, records: seq<seq<Field>>)
    requires records != []
    ensures finished + [Denotes(records[0])] + DenoteAll(records[1..]) == finished + DenoteAll(records)
  {
    assert DenoteAll(records) == [Denotes(records[0])] + DenoteAll(records[1..]);
  }

  lemma {:induction false} RecordsAreRead(st: State, records: seq<seq<Field>>) returns (end: State)
    requires [] !in records
    ensures ReadFrom(st, RecordLines(records)) == Some(end)
    ensures Flush(end) == Flush(st) + DenoteAll(records)
    decreases |records|
  {
    if records == [] {
      end := st;
    } else {
      var next := RecordStep(st, records);
      end := RecordsAreRead(next, records[1..]);
      DenoteAllHead(Flush(st), records);
    }
  }

  /** Before the first record nothing is kept, whatever it says. */
  lemma {:induction false} HeadIsSkipped(head: seq<string>, rest: seq<Line>)
    requires forall raw :: raw in head ==> !StartsWith(Strip(raw), "- ")
    ensures ReadFrom(START, ClassifyAll(head) + rest) == ReadFrom(START, rest)
  {
    var all := ClassifyAll(head) + rest;
    if head == [] {
      assert all == rest;
    } else {
      assert all[1..] == ClassifyAll(head[1..]) + rest;
      HeadIsSkipped(head[1..], rest);
    }
  }

  /**
   Round trip: any printed list of records, with any noise in between and anything but a record in front, is read back
   as those records in order.
   */
  lemma {:induction false} ParseInvertsPrint(head: seq<string>, records: seq<seq<Field>>)
    requires forall raw :: raw in head ==> !StartsWith(Strip(raw), "- ")
    requires forall i :: 0 <= i < |records| ==> Printable(records[i])
    ensures Parse(head + PrintRecords(records)) == Some(DenoteAll(records))
  {
    var lines := head + PrintRecords(records);
    assert ClassifyAll(lines) == ClassifyAll(head) + RecordLines(records) by {
      ClassifyAllAppend(head, PrintRecords(records));
      RecordsAreClassified(records);
    }
    HeadIsSkipped(head, RecordLines(records));
    var end := RecordsAreRead(START, records);
    assert Flush(end) == DenoteAll(records);
  }
}
