/**
 The two escapings of `vite.config.ts`: HTML text for the branding, and `<` in the JSON that is embedded in a script
 element. Text is a sequence of UTF-16 code units, as in JavaScript.
 */
module Escaping {
  import opened Prelude

  type Unit = u: int | 0 <= u < 0x10000
  type Text = seq<Unit>

  const AMP: Unit := 0x26
  const LT: Unit := 0x3C
  const GT: Unit := 0x3E
  const QUOT: Unit := 0x22
  const APOS: Unit := 0x27
  const BACKSLASH: Unit := 0x5C

  /** The units of a text of the basic plane. */
  function Units(s: string): Text {
    seq(|s|, i requires 0 <= i < |s| => (s[i] as int % 0x10000) as Unit)
  }

  // ---------------------------------------------------------------- HTML

  /** The character reference of a reserved character: `&amp;`, `&lt;`, `&gt;`, `&quot;`, `&#39;`. */
  function Reference(c: Unit): Text {
    if c == AMP then [0x26, 0x61, 0x6D, 0x70, 0x3B]
    else if c == LT then [0x26, 0x6C, 0x74, 0x3B]
    else if c == GT then [0x26, 0x67, 0x74, 0x3B]
    else if c == QUOT then [0x26, 0x71, 0x75, 0x6F, 0x74, 0x3B]
    else if c == APOS then [0x26, 0x23, 0x33, 0x39, 0x3B]
    else [c]
  }

  predicate Reserved(c: Unit) {
    c == AMP || c == LT || c == GT || c == QUOT || c == APOS
  }

  /** The reserved character whose reference `s` starts with. */
  function ReferredTo(s: Text): Option<Unit> {
    if Reference(AMP) <= s then Some(AMP)
    else if Reference(LT) <= s then Some(LT)
    else if Reference(GT) <= s then Some(GT)
    else if Reference(QUOT) <= s then Some(QUOT)
    else if Reference(APOS) <= s then Some(APOS)
    else None
  }

  function EscapeHtml(s: Text): Text {
    if s == [] then [] else Reference(s[0]) + EscapeHtml(s[1..])
  }

  /** What an HTML parser makes of the text, as far as these five references go. */
  function Unescape(s: Text): Text
    decreases |s|
  {
    if s == [] then []
    else
      var c := ReferredTo(s);
      if c.Some? then [c.value] + Unescape(s[|Reference(c.value)|..]) else [s[0]] + Unescape(s[1..])
  }

  lemma {:induction false} EscapeAppend(a: Text, b: Text)
    ensures EscapeHtml(a + b) == EscapeHtml(a) + EscapeHtml(b)
  {
    if a == [] {
      assert a + b == b;
    } else {
      assert (a + b)[1..] == a[1..] + b;
      EscapeAppend(a[1..], b);
    }
  }

  lemma {:induction false} EscapeOne(c: Unit)
    ensures EscapeHtml([c]) == Reference(c)
  {
    assert [c][1..] == [];
  }

  /** The five replacements as the source spells them, each character on its own; anything else stays. */
  lemma {:induction false} EscapeSpells(a: Text, b: Text, c: Unit)
    ensures EscapeHtml(a + b) == EscapeHtml(a) + EscapeHtml(b)
    ensures EscapeHtml(Units("&")) == Units("&amp;") && EscapeHtml(Units("<")) == Units("&lt;")
    ensures EscapeHtml(Units(">")) == Units("&gt;") && EscapeHtml(Units("\"")) == Units("&quot;")
    ensures EscapeHtml(Units("'")) == Units("&#39;")
    ensures c !in Units("&<>\"'") ==> EscapeHtml([c]) == [c]
  {
    EscapeAppend(a, b);
    EscapeOne(AMP);
    EscapeOne(LT);
    EscapeOne(GT);
    EscapeOne(QUOT);
    EscapeOne(APOS);
    EscapeOne(c);
    assert Units("&") == [AMP] && Units("<") == [LT] && Units(">") == [GT] && Units("\"") == [QUOT];
    assert Units("'") == [APOS];
    var five := Units("&<>\"'");
    assert five == [AMP, LT, GT, QUOT, APOS];
  }

  lemma {:induction false} ReferenceIsRead(c: Unit, rest: Text)
    ensures Reserved(c) ==> ReferredTo(Reference(c) + rest) == Some(c)
    ensures !Reserved(c) ==> ReferredTo(Reference(c) + rest) == None
  {
    var s := Reference(c) + rest;
    assert s[0] == Reference(c)[0];
    if Reserved(c) {
      assert Reference(c) <= s;
      assert s[1] == Reference(c)[1];
      assert c == LT || c == GT || c == QUOT ==> s[2] == Reference(c)[2];
    }
  }

  /** Escaped text reads back as the original. */
  lemma {:induction false} UnescapeInvertsEscape(s: Text)
    ensures Unescape(EscapeHtml(s)) == s
  {
    if s != [] {
      var c, rest := s[0], EscapeHtml(s[1..]);
      ReferenceIsRead(c, rest);
      UnescapeInvertsEscape(s[1..]);
      assert (Reference(c) + rest)[|Reference(c)|..] == rest;
    }
  }

  lemma {:induction false} EscapeIsInjective(s: Text, t: Text)
    requires EscapeHtml(s) == EscapeHtml(t)
    ensures s == t
  {
    UnescapeInvertsEscape(s);
    UnescapeInvertsEscape(t);
  }

  /** No markup survives: none of `<`, `>`, `"`, `'` occurs, and every `&` starts one of the five references. */
  lemma {:induction false} EscapedIsInert(s: Text, i: nat)
    requires i < |EscapeHtml(s)|
    ensures var e := EscapeHtml(s);
            && e[i] != LT && e[i] != GT && e[i] != QUOT && e[i] != APOS
            && (e[i] == AMP ==> ReferredTo(e[i..]).Some?)
  {
    var c, rest := s[0], EscapeHtml(s[1..]);
    var r := Reference(c);
    if i < |r| {
      assert (r + rest)[i] == r[i];
      if i == 0 {
        assert (r + rest)[0..] == r + rest;
        ReferenceIsRead(c, rest);
      }
    } else {
      assert (r + rest)[i] == rest[i - |r|] && (r + rest)[i..] == rest[i - |r|..];
      EscapedIsInert(s[1..], i - |r|);
    }
  }

  // ---------------------------------------------------------------- JSON in a script element

  /** Backslash, `u`, `003c`. */
  const LT_ESCAPE: Text := [0x5C, 0x75, 0x30, 0x30, 0x33, 0x63]

  /** `.replace` of every `<` by its unicode escape. */
  function RewriteLt(s: Text): Text {
    if s == [] then [] else (if s[0] == LT then LT_ESCAPE else [s[0]]) + RewriteLt(s[1..])
  }

  /** The token level of JSON (section 2 of RFC 8259): decoded strings, and single characters outside strings. */
  datatype Token = Str(value: Text) | Plain(c: Unit)

  /** Characters that occur outside strings: structure, whitespace, numbers, and the letters of the three literals. */
  predicate PlainUnit(c: Unit) {
    || c == 0x5B || c == 0x5D || c == 0x7B || c == 0x7D || c == 0x3A || c == 0x2C
    || c == 0x20 || c == 0x09 || c == 0x0A || c == 0x0D
    || 0x30 <= c <= 0x39 || c == 0x2B || c == 0x2D || c == 0x2E || c == 0x45
    || 0x61 <= c <= 0x7A
  }

  function HexDigit(c: Unit): (r: Option<int>)
    ensures r.Some? ==> 0 <= r.value < 16
  {
    if 0x30 <= c <= 0x39 then Some(c - 0x30)
    else if 0x41 <= c <= 0x46 then Some(c - 0x41 + 10)
    else if 0x61 <= c <= 0x66 then Some(c - 0x61 + 10)
    else None
  }

  function Hex4(s: Text): (r: Option<Unit>)
    requires |s| >= 4
  {
    var a, b, c, d := HexDigit(s[0]), HexDigit(s[1]), HexDigit(s[2]), HexDigit(s[3]);
    if a.None? || b.None? || c.None? || d.None? then None
    else Some(((a.value * 16 + b.value) * 16 + c.value) * 16 + d.value)
  }

  /** The one-character escapes of section 7 of RFC 8259. */
  function ShortEscape(c: Unit): Option<Unit> {
    if c == 0x22 || c == 0x5C || c == 0x2F then Some(c)
    else if c == 0x62 then Some(0x08)
    else if c == 0x66 then Some(0x0C)
    else if c == 0x6E then Some(0x0A)
    else if c == 0x72 then Some(0x0D)
    else if c == 0x74 then Some(0x09)
    else None
  }

  /** One character of a string body: the unit it denotes and how much text it takes. */
  function ReadChar(s: Text): (r: Option<(Unit, nat)>)
    requires s != []
    ensures r.Some? ==> 1 <= r.value.1 <= |s|
  {
    if s[0] == BACKSLASH then
      if |s| < 2 then None
      else if s[1] == 0x75 then
        if |s| < 6 then None
        else var u := Hex4(s[2..]); if u.Some? then Some((u.value, 6)) else None
      else
        var e := ShortEscape(s[1]); if e.Some? then Some((e.value, 2)) else None
    else if s[0] < 0x20 then None
    else Some((s[0], 1))
  }

  /** A string body up to its closing quote, decoded, and the text after it. */
  function ReadString(s: Text): (r: Option<(Text, Text)>)
    ensures r.Some? ==> |r.value.1| < |s|
    decreases |s|
  {
    if s == [] then None
    else if s[0] == QUOT then Some(([], s[1..]))
    else
      var c := ReadChar(s);
      if c.None? then None
      else
        var rest := ReadString(s[c.value.1..]);
        if rest.None? then None else Some(([c.value.0] + rest.value.0, rest.value.1))
  }

  function Lex(s: Text): Option<seq<Token>>
    decreases |s|
  {
    if s == [] then Some([])
    else if s[0] == QUOT then
      var str := ReadString(s[1..]);
      if str.None? then None
      else
        var rest := Lex(str.value.1);
        if rest.None? then None else Some([Str(str.value.0)] + rest.value)
    else if PlainUnit(s[0]) then
      var rest := Lex(s[1..]);
      if rest.None? then None else Some([Plain(s[0])] + rest.value)
    else None
  }

  lemma {:induction false} RewriteAppend(a: Text, b: Text)
    ensures RewriteLt(a + b) == RewriteLt(a) + RewriteLt(b)
  {
    if a == [] {
      assert a + b == b;
    } else {
      assert (a + b)[1..] == a[1..] + b;
      RewriteAppend(a[1..], b);
    }
  }

  /** Each `<` becomes the six characters of its escape, and nothing else changes. */
  lemma {:induction false} RewriteSpells(a: Text, b: Text, c: Unit)
    ensures RewriteLt(a + b) == RewriteLt(a) + RewriteLt(b)
    ensures RewriteLt(Units("<")) == Units("\\u003c")
    ensures c !in Units("<") ==> RewriteLt([c]) == [c]
  {
    RewriteAppend(a, b);
    assert Units("<") == [LT] && [LT][1..] == [] && [c][1..] == [];
    assert Units("\\u003c") == LT_ESCAPE;
  }

  const STRUCTURE := "[]{}:, \t\n\r"
  const DIGITS := "0123456789"
  const LETTERS := "abcdefghijklmnopqrstuvwxyz"

  /** What may stand outside strings: structure and blanks, numbers, and the letters of the three literals. */
  lemma {:induction false} PlainUnitsAre(c: Unit)
    ensures PlainUnit(c) <==> c < 0x80 && c as char in STRUCTURE + DIGITS + "+-.E" + LETTERS
  {
    if PlainUnit(c) {
      PlainIsListed(c);
    }
  }

  lemma {:induction false} PlainIsListed(c: Unit)
    requires PlainUnit(c)
    ensures c as char in STRUCTURE || c as char in DIGITS || c as char in "+-.E" || c as char in LETTERS
  {
    if 0x30 <= c <= 0x39 {
      assert DIGITS[c - 0x30] == c as char;
    } else if 0x61 <= c <= 0x7A {
      assert LETTERS[c - 0x61] == c as char;
    } else {
      assert STRUCTURE[0] == '[' && STRUCTURE[1] == ']' && STRUCTURE[2] == '{' && STRUCTURE[3] == '}';
      assert STRUCTURE[4] == ':' && STRUCTURE[5] == ',' && STRUCTURE[6] == ' ' && STRUCTURE[7] == '\t';
      assert STRUCTURE[8] == '\n' && STRUCTURE[9] == '\r';
      assert "+-.E"[0] == '+' && "+-.E"[1] == '-' && "+-.E"[2] == '.' && "+-.E"[3] == 'E';
    }
  }

  /** The digits of either case, and the short escapes. */
  lemma {:induction false} EscapeTables(d: nat)
    ensures d < 16 ==> HexDigit(Units("0123456789abcdef")[d]) == HexDigit(Units("0123456789ABCDEF")[d]) == Some(d)
    ensures d < 8 ==> ShortEscape(Units("\"\\/bfnrt")[d]) == Some(Units("\"\\/\U{000008}\U{00000C}\n\r\t")[d])
  {
  }

  lemma {:induction false} RewriteWithout(a: Text)
    requires LT !in a
    ensures RewriteLt(a) == a
  {
    if a != [] {
      RewriteWithout(a[1..]);
    }
  }

  lemma {:induction false} LtEscapeReads(rest: Text)
    ensures ReadChar(LT_ESCAPE + rest) == Some((LT, 6))
  {
    var s := LT_ESCAPE + rest;
    assert s[0] == 0x5C && s[1] == 0x75 && s[2..][0] == 0x30 && s[2..][1] == 0x30 && s[2..][2] == 0x33
      && s[2..][3] == 0x63;
  }

  /** A character reads the same when what follows it changes. */
  lemma {:induction false} ReadCharLocal(s: Text, rest: Text)
    requires s != [] && ReadChar(s).Some?
    ensures var n := ReadChar(s).value.1; ReadChar(s[..n] + rest) == ReadChar(s)
  {
    var n := ReadChar(s).value.1;
    var t := s[..n] + rest;
    assert forall k :: 0 <= k < n ==> t[k] == s[k];
    if n == 6 {
      assert forall k :: 0 <= k < 4 ==> t[2..][k] == s[2..][k];
    }
  }

  /** An escape never contains `<`; a character that is `<` stands for itself. */
  lemma {:induction false} CharWithoutLt(s: Text)
    requires s != [] && ReadChar(s).Some?
    ensures s[0] == LT ==> ReadChar(s) == Some((LT, 1))
    ensures s[0] != LT ==> LT !in s[..ReadChar(s).value.1]
  {
    var n := ReadChar(s).value.1;
    if n == 6 {
      assert forall k :: 0 <= k < 4 ==> s[2..][k] == s[k + 2] && HexDigit(s[k + 2]).Some?;
    }
  }

  /** Rewriting leaves every string body with the same value. */
  lemma {:induction false} StringKept(s: Text)
    requires ReadString(s).Some?
    ensures ReadString(RewriteLt(s)) == Some((ReadString(s).value.0, RewriteLt(ReadString(s).value.1)))
    decreases |s|
  {
    if s[0] != QUOT {
      var n := ReadChar(s).value.1;
      var tail := RewriteLt(s[n..]);
      CharWithoutLt(s);
      StringKept(s[n..]);
      assert s == s[..n] + s[n..];
      RewriteAppend(s[..n], s[n..]);
      if s[0] == LT {
        LtEscapeReads(tail);
        assert RewriteLt(s) == LT_ESCAPE + tail;
        assert (LT_ESCAPE + tail)[6..] == tail;
      } else {
        RewriteWithout(s[..n]);
        ReadCharLocal(s, tail);
        assert (s[..n] + tail)[n..] == tail;
      }
    }
  }

  /**
   Every valid JSON text has the same tokens after the rewrite, so it decodes to the same value: outside strings `<`
   cannot occur, inside them it only stands for itself.
   */
  lemma {:induction false} TokensKept(s: Text)
    requires Lex(s).Some?
    ensures Lex(RewriteLt(s)) == Lex(s)
    decreases |s|
  {
    if s != [] {
      assert [s[0]] + RewriteLt(s[1..]) == RewriteLt(s);
      assert ([s[0]] + RewriteLt(s[1..]))[1..] == RewriteLt(s[1..]);
      if s[0] == QUOT {
        StringKept(s[1..]);
        TokensKept(ReadString(s[1..]).value.1);
      } else {
        TokensKept(s[1..]);
      }
    }
  }

  /** No `<` is left, so the embedded text can close no element. */
  lemma {:induction false} NoLtLeft(s: Text)
    ensures LT !in RewriteLt(s)
  {
    if s != [] {
      NoLtLeft(s[1..]);
    }
  }

  // ---------------------------------------------------------------- strings as JSON.stringify writes them

  function HexUnit(d: int): Unit
    requires 0 <= d < 16
  {
    if d < 10 then 0x30 + d else 0x61 + (d - 10)
  }

  /** `QuoteJSONString` of ECMA-262: short escapes where they exist, `\u00XX` for other controls, all else as it is. */
  function QuoteUnit(c: Unit): Text {
    if c == QUOT || c == BACKSLASH then [BACKSLASH, c]
    else if c == 0x08 then [BACKSLASH, 0x62]
    else if c == 0x09 then [BACKSLASH, 0x74]
    else if c == 0x0A then [BACKSLASH, 0x6E]
    else if c == 0x0C then [BACKSLASH, 0x66]
    else if c == 0x0D then [BACKSLASH, 0x72]
    else if c < 0x20 then [BACKSLASH, 0x75, 0x30, 0x30, HexUnit(c / 16), HexUnit(c % 16)]
    else [c]
  }

  function QuoteBody(s: Text): Text {
    if s == [] then [] else QuoteUnit(s[0]) + QuoteBody(s[1..])
  }

  lemma {:induction false} QuoteUnitReads(c: Unit, rest: Text)
    ensures var t := QuoteUnit(c) + rest; t[0] != QUOT && ReadChar(t) == Some((c, |QuoteUnit(c)|))
  {
    var q := QuoteUnit(c);
    var t := q + rest;
    assert forall k :: 0 <= k < |q| ==> t[k] == q[k];
    if |q| == 6 {
      assert t[2..][0] == 0x30 && t[2..][1] == 0x30 && t[2..][2] == HexUnit(c / 16) && t[2..][3] == HexUnit(c % 16);
    }
  }

  lemma {:induction false} StringGrows(q: Text, tail: Text, c: Unit)
    requires |q| >= 1 && q[0] != QUOT && ReadChar(q + tail) == Some((c, |q|)) && ReadString(tail).Some?
    ensures ReadString(q + tail) == Some(([c] + ReadString(tail).value.0, ReadString(tail).value.1))
  {
    assert (q + tail)[0] == q[0] && (q + tail)[|q|..] == tail;
  }

  lemma {:induction false} QuotedReads(s: Text, rest: Text)
    ensures ReadString(QuoteBody(s) + [QUOT] + rest) == Some((s, rest))
  {
    if s == [] {
      assert ([QUOT] + rest)[1..] == rest;
      assert QuoteBody(s) + [QUOT] + rest == [QUOT] + rest;
    } else {
      var q, tail := QuoteUnit(s[0]), QuoteBody(s[1..]) + [QUOT] + rest;
      QuoteUnitReads(s[0], tail);
      QuotedReads(s[1..], rest);
      assert QuoteBody(s) + [QUOT] + rest == q + tail;
      assert (q + tail)[0] == q[0];
      StringGrows(q, tail, s[0]);
      assert [s[0]] + s[1..] == s;
    }
  }

  /** A string quoted by `JSON.stringify` and then rewritten still lexes to that string, whatever it contains. */
  lemma {:induction false} QuotedSurvivesRewrite(s: Text)
    ensures Lex(RewriteLt([QUOT] + QuoteBody(s) + [QUOT])) == Some([Str(s)])
  {
    var t := [QUOT] + QuoteBody(s) + [QUOT];
    assert Lex(t) == Some([Str(s)]) by {
      QuotedReads(s, []);
      assert t[1..] == QuoteBody(s) + [QUOT] + [];
      assert Lex([]) == Some([]);
      assert [Str(s)] + [] == [Str(s)];
    }
    TokensKept(t);
  }
}
