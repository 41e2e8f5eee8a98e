/** Shared vocabulary: optional values, and the order-preserving filter every loader is specified with. */
module Prelude {

  datatype Option<+T> = None | Some(value: T)

  /** The elements of `s` that satisfy `p`, in their order in `s`. */
  function Filter<T>(s: seq<T>, p: T -> bool): seq<T>
  {
    if s == [] then []
    else if p(s[0]) then [s[0]] + Filter(s[1..], p)
    else Filter(s[1..], p)
  }

  lemma {:induction false} FilterMembers<T>(s: seq<T>, p: T -> bool)
    ensures forall x :: x in Filter(s, p) ==> x in s && p(x)
    ensures forall x :: x in s && p(x) ==> x in Filter(s, p)
  {
    if s != [] {
      FilterMembers(s[1..], p);
      assert s == [s[0]] + s[1..];
    }
  }

  lemma {:induction false} FilterAppend<T>(a: seq<T>, b: seq<T>, p: T -> bool)
    ensures Filter(a + b, p) == Filter(a, p) + Filter(b, p)
  {
    if a == [] {
      assert a + b == b;
    } else {
      FilterAppend(a[1..], b, p);
      assert (a + b)[1..] == a[1..] + b;
    }
  }

  /** Filtering one element more appends it when it qualifies: the loop step of every loader. */
  lemma {:induction false} FilterSnoc<T>(s: seq<T>, i: nat, p: T -> bool)
    requires i < |s|
    ensures Filter(s[..i + 1], p) == Filter(s[..i], p) + (if p(s[i]) then [s[i]] else [])
  {
    assert s[..i + 1] == s[..i] + [s[i]];
    FilterAppend(s[..i], [s[i]], p);
    assert Filter([s[i]][1..], p) == [];
  }

  lemma {:induction false} FilterSame<T>(s: seq<T>, p: T -> bool, q: T -> bool)
    requires forall x :: x in s ==> p(x) == q(x)
    ensures Filter(s, p) == Filter(s, q)
  {
    if s != [] {
      FilterSame(s[1..], p, q);
    }
  }

  lemma {:induction false} FilterNone<T>(s: seq<T>, p: T -> bool)
    requires forall x :: x in s ==> !p(x)
    ensures Filter(s, p) == []
  {
    if s != [] {
      FilterNone(s[1..], p);
    }
  }

  lemma {:induction false} FilterEmptyIff<T>(s: seq<T>, p: T -> bool)
    ensures Filter(s, p) == [] <==> forall x :: x in s ==> !p(x)
  {
    FilterMembers(s, p);
    if Filter(s, p) != [] {
      assert Filter(s, p)[0] in Filter(s, p);
    }
  }

  function Negated<T>(p: T -> bool): T -> bool {
    x => !p(x)
  }

  /** Splitting a sequence by a predicate loses and invents nothing. */
  lemma {:induction false} FilterPartition<T>(s: seq<T>, p: T -> bool)
    ensures multiset(Filter(s, p)) + multiset(Filter(s, Negated(p))) == multiset(s)
  {
    if s == [] {
    } else {
      FilterPartition(s[1..], p);
      assert s == [s[0]] + s[1..];
    }
  }

  lemma {:induction false} PositionOf<T>(s: seq<T>, x: T) returns (k: nat)
    requires x in multiset(s)
    ensures k < |s| && s[k] == x
  {
    k :| k < |s| && s[k] == x;
  }

  lemma {:induction false} WithoutOne<T>(before: seq<T>, x: T, after: seq<T>)
    ensures multiset(before + [x] + after) == multiset{x} + multiset(before + after)
  {
  }

  lemma {:induction false} Cancel<T>(x: T, m: multiset<T>, n: multiset<T>)
    requires multiset{x} + m == multiset{x} + n
    ensures m == n
  {
    forall y
      ensures m[y] == n[y]
    {
      assert (multiset{x} + m)[y] == (multiset{x} + n)[y];
    }
  }

  /** The first element of a sequence stands somewhere in every permutation of it; what is left is a permutation too. */
  lemma {:induction false} Removed<T>(a: seq<T>, b: seq<T>) returns (before: seq<T>, after: seq<T>)
    requires a != [] && multiset(a) == multiset(b)
    ensures b == before + [a[0]] + after
    ensures multiset(a[1..]) == multiset(before + after)
  {
    assert a[0] in multiset(a);
    var k := PositionOf(b, a[0]);
    before, after := b[..k], b[k + 1..];
    assert b == before + [a[0]] + after;
    WithoutOne(before, a[0], after);
    assert multiset(a) == multiset{a[0]} + multiset(a[1..]) by {
      assert a == [a[0]] + a[1..];
    }
    Cancel(a[0], multiset(a[1..]), multiset(before + after));
  }

  lemma {:induction false} FilterMultiset<T>(a: seq<T>, b: seq<T>, p: T -> bool)
    requires multiset(a) == multiset(b)
    ensures multiset(Filter(a, p)) == multiset(Filter(b, p))
  {
    if a == [] {
      assert |multiset(a)| == |multiset(b)| == |b|;
    } else {
      var before, after := Removed(a, b);
      FilterMultiset(a[1..], before + after, p);
      FilterAppend(before, after, p);
      FilterAppend(before + [a[0]], after, p);
      FilterAppend(before, [a[0]], p);
      assert Filter([a[0]][1..], p) == [];
    }
  }

  /** Two sequences with the same elements, counted, have the same members. */
  lemma {:induction false} SameMembers<T>(a: seq<T>, b: seq<T>)
    requires multiset(a) == multiset(b)
    ensures forall x :: x in a <==> x in b
    ensures |a| == |b|
  {
    forall x
      ensures x in a <==> x in b
    {
      assert x in a <==> x in multiset(a);
      assert x in b <==> x in multiset(b);
    }
    assert |multiset(a)| == |a| && |multiset(b)| == |b|;
  }

  // ---------------------------------------------------------------- sequences without repetition

  ghost predicate NoRepeats<T>(s: seq<T>) {
    forall i, j :: 0 <= i < j < |s| ==> s[i] != s[j]
  }

  lemma {:induction false} CountAtMostOne<T>(s: seq<T>, x: T)
    requires NoRepeats(s)
    ensures multiset(s)[x] <= 1
  {
    if s != [] {
      CountAtMostOne(s[1..], x);
      assert s == [s[0]] + s[1..];
      if s[0] == x {
        assert x !in s[1..];
      }
    }
  }

  lemma {:induction false} CountTwice<T>(s: seq<T>, i: nat, j: nat)
    requires i < j < |s| && s[i] == s[j]
    ensures multiset(s)[s[i]] >= 2
  {
    assert s == s[..j] + s[j..];
    assert s[..j][i] in s[..j] && s[j..][0] in s[j..];
  }

  /** The rows that a query selects from a table without repetition do not repeat either. */
  lemma {:induction false} SelectionNeverRepeats<T>(table: seq<T>, p: T -> bool, rows: seq<T>)
    requires NoRepeats(table) && multiset(rows) == multiset(Filter(table, p))
    ensures NoRepeats(rows)
  {
    FilterPartition(table, p);
    forall i, j | 0 <= i < j < |rows|
      ensures rows[i] != rows[j]
    {
      CountAtMostOne(table, rows[i]);
      if rows[i] == rows[j] {
        CountTwice(rows, i, j);
      }
    }
  }

  /** Without repetitions, the same members mean the same elements, counted. */
  lemma {:induction false} SameMembersSameCount<T>(a: seq<T>, b: seq<T>)
    requires NoRepeats(a) && NoRepeats(b)
    requires forall x :: x in a <==> x in b
    ensures multiset(a) == multiset(b)
  {
    forall x
      ensures multiset(a)[x] == multiset(b)[x]
    {
      CountAtMostOne(a, x);
      CountAtMostOne(b, x);
      assert x in a <==> x in multiset(a);
      assert x in b <==> x in multiset(b);
    }
  }
}
