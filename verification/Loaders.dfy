/**
 The parts the edge loaders share: grouping nodes by foreign key for the unique edges, indexing them by id for the
 list edges, and what either says about the rows of the batched query.
 */
module Loaders {
  import opened Prelude
  import opened Store

  ghost function NodeSet<N>(nodes: seq<N>): set<N> {
    set x | x in nodes
  }

  lemma {:induction false} InNodeSet<N>(nodes: seq<N>, x: N)
    requires x in nodes
    ensures x in NodeSet(nodes)
  {
  }

  // ---------------------------------------------------------------- unique edges: nodes grouped by foreign key

  /** The non-null keys of the nodes, in order. */
  function KeysOf<N>(nodes: seq<N>, key: N -> Option<Id>): seq<Id> {
    if nodes == [] then []
    else
      var k := key(nodes[|nodes| - 1]);
      KeysOf(nodes[..|nodes| - 1], key) + (if k.Some? then [k.value] else [])
  }

  /** `nodeids`: each key of a node maps to exactly the nodes that have it. */
  ghost predicate GroupedByKey<N>(nodes: seq<N>, key: N -> Option<Id>, nodeids: map<Id, seq<N>>) {
    && (forall k, x :: k in nodeids && x in nodeids[k] ==> x in nodes && key(x) == Some(k))
    && (forall x :: x in nodes && key(x).Some? ==> key(x).value in nodeids && x in nodeids[key(x).value])
    && (forall k :: k in nodeids ==> nodeids[k] != [])
  }

  /** One round of the grouping loop. */
  function Grouped<N>(nodeids: map<Id, seq<N>>, k: Id, x: N): map<Id, seq<N>> {
    nodeids[k := (if k in nodeids then nodeids[k] else []) + [x]]
  }

  lemma {:induction false} GroupedGrows<N>(nodes: seq<N>, key: N -> Option<Id>, nodeids: map<Id, seq<N>>, x: N)
    requires GroupedByKey(nodes, key, nodeids)
    ensures key(x).None? ==> GroupedByKey(nodes + [x], key, nodeids)
    ensures key(x).Some? ==> GroupedByKey(nodes + [x], key, Grouped(nodeids, key(x).value, x))
  {
  }

  lemma {:induction false} KeysSnoc<N>(nodes: seq<N>, i: nat, key: N -> Option<Id>)
    requires i < |nodes|
    ensures key(nodes[i]).None? ==> KeysOf(nodes[..i + 1], key) == KeysOf(nodes[..i], key)
    ensures key(nodes[i]).Some? ==>
              Distinct(KeysOf(nodes[..i + 1], key)) ==
              var before, k := Distinct(KeysOf(nodes[..i], key)), key(nodes[i]).value;
              if k in before then before else before + [k]
  {
    assert nodes[..i + 1][..i] == nodes[..i];
    if key(nodes[i]).Some? {
      var before := KeysOf(nodes[..i], key);
      assert (before + [key(nodes[i]).value])[..|before|] == before;
    }
  }

  /** The first loop of `loadProxy` and its siblings. The `IN` list has every key once, at its first occurrence. */
  method GroupByKey<N(==)>(nodes: seq<N>, key: N -> Option<Id>) returns (ids: seq<Id>, nodeids: map<Id, seq<N>>)
    ensures ids == Distinct(KeysOf(nodes, key))
    ensures GroupedByKey(nodes, key, nodeids)
    ensures forall k :: k in nodeids <==> k in ids
  {
    ids, nodeids := [], map[];
    for i := 0 to |nodes|
      invariant ids == Distinct(KeysOf(nodes[..i], key))
      invariant GroupedByKey(nodes[..i], key, nodeids)
      invariant forall k :: k in nodeids <==> k in ids
    {
      var x := nodes[i];
      assert nodes[..i + 1] == nodes[..i] + [x];
      GroupedGrows(nodes[..i], key, nodeids, x);
      KeysSnoc(nodes, i, key);
      if key(x).None? {
        continue;
      }
      var fk := key(x).value;
      if fk !in nodeids {
        ids := ids + [fk];
      }
      nodeids := Grouped(nodeids, fk, x);
    }
    assert nodes[..|nodes|] == nodes;
  }

  /** The last element of `s` with id `k`: what a loop that assigns by id leaves behind. */
  function LastWith<N>(s: seq<N>, id: N -> Id, k: Option<Id>): (r: Option<N>)
    ensures r.Some? ==> r.value in s && k == Some(id(r.value))
    ensures r.None? ==> forall x :: x in s ==> k != Some(id(x))
  {
    if s == [] then None
    else if k == Some(id(s[|s| - 1])) then Some(s[|s| - 1])
    else
      assert s == s[..|s| - 1] + [s[|s| - 1]];
      LastWith(s[..|s| - 1], id, k)
  }

  // ---------------------------------------------------------------- list edges: nodes indexed by id

  /** `nodeids` of the list edges: the last node with each id. */
  function ById<N>(nodes: seq<N>, id: N -> Id): (m: map<Id, N>)
    ensures forall k :: k in m ==> m[k] in nodes && id(m[k]) == k
    ensures forall x :: x in nodes ==> id(x) in m
  {
    if nodes == [] then map[]
    else
      var last := nodes[|nodes| - 1];
      assert nodes == nodes[..|nodes| - 1] + [last];
      ById(nodes[..|nodes| - 1], id)[id(last) := last]
  }

  lemma {:induction false} ByIdSnoc<N>(nodes: seq<N>, i: nat, id: N -> Id)
    requires i < |nodes|
    ensures ById(nodes[..i + 1], id) == ById(nodes[..i], id)[id(nodes[i]) := nodes[i]]
    ensures Map(nodes[..i + 1], id) == Map(nodes[..i], id) + [id(nodes[i])]
  {
    assert nodes[..i + 1][..i] == nodes[..i];
    assert nodes[..i + 1] == nodes[..i] + [nodes[i]];
    MapSnoc(nodes[..i], nodes[i], id);
  }

  /** The first loop of the list-edge loaders: the `IN` list and the index. */
  method IndexById<N>(nodes: seq<N>, id: N -> Id) returns (fks: seq<Id>, nodeids: map<Id, N>)
    ensures fks == Map(nodes, id) && nodeids == ById(nodes, id)
  {
    fks, nodeids := [], map[];
    for i := 0 to |nodes|
      invariant fks == Map(nodes[..i], id)
      invariant nodeids == ById(nodes[..i], id)
    {
      var k := id(nodes[i]);
      fks := fks + [k];
      nodeids := nodeids[k := nodes[i]];
      ByIdSnoc(nodes, i, id);
    }
    assert nodes[..|nodes|] == nodes;
  }

  /** With distinct ids, every node is its own entry. */
  lemma {:induction false} ByIdOfDistinct<N>(nodes: seq<N>, id: N -> Id, x: N)
    requires forall i, j :: 0 <= i < j < |nodes| ==> id(nodes[i]) != id(nodes[j])
    requires x in nodes
    ensures ById(nodes, id)[id(x)] == x
  {
    var m := ById(nodes, id)[id(x)];
    var i :| 0 <= i < |nodes| && nodes[i] == m;
    var j :| 0 <= j < |nodes| && nodes[j] == x;
    assert i < j || j < i || i == j;
  }

  /** The elements whose foreign key is `id`, in the order of the answer. */
  function Owned<E>(answer: seq<E>, fk: E -> Option<Id>, id: Id): seq<E> {
    Filter(answer, HasKey(fk, id))
  }

  function HasKey<E>(fk: E -> Option<Id>, id: Id): E -> bool {
    (e: E) => fk(e) == Some(id)
  }

  /** What a list-edge loader appends to node `x` from the first `n` rows: those whose key leads to `x` in the index. */
  function OwnedBy<N(==), E>(nodeids: map<Id, N>, x: N, rows: seq<E>, fk: E -> Option<Id>, n: nat): seq<E>
    requires n <= |rows|
  {
    if n == 0 then []
    else
      var before := OwnedBy(nodeids, x, rows, fk, n - 1);
      if LeadsTo(nodeids, x, fk(rows[n - 1])) then before + [rows[n - 1]] else before
  }

  predicate LeadsTo<N(==)>(nodeids: map<Id, N>, x: N, key: Option<Id>) {
    key.Some? && key.value in nodeids && nodeids[key.value] == x
  }

  /** The last node with an id owns all rows with that key; the nodes it hides own none. */
  lemma {:induction false} OwnedByIsOwned<N, E>(nodes: seq<N>, id: N -> Id, x: N, rows: seq<E>, fk: E -> Option<Id>)
    requires x in nodes
    ensures var nodeids := ById(nodes, id);
            OwnedBy(nodeids, x, rows, fk, |rows|) == if nodeids[id(x)] == x then Owned(rows, fk, id(x)) else []
  {
    OwnedByFirst(nodes, id, x, rows, fk, |rows|);
    assert rows[..|rows|] == rows;
  }

  lemma {:induction false} OwnedByFirst<N, E>(nodes: seq<N>, id: N -> Id, x: N, rows: seq<E>, fk: E -> Option<Id>,
                                              n: nat)
    requires x in nodes && n <= |rows|
    ensures var nodeids := ById(nodes, id);
            OwnedBy(nodeids, x, rows, fk, n) == if nodeids[id(x)] == x then Owned(rows[..n], fk, id(x)) else []
  {
    if n > 0 {
      OwnedByFirst(nodes, id, x, rows, fk, n - 1);
      FilterSnoc(rows, n - 1, HasKey(fk, id(x)));
    }
  }

  lemma {:induction false} IdsAreIndexed<N>(nodes: seq<N>, id: N -> Id)
    ensures forall k :: k in Map(nodes, id) <==> k in ById(nodes, id)
  {
    forall k | k in ById(nodes, id)
      ensures k in Map(nodes, id)
    {
      var i :| 0 <= i < |nodes| && nodes[i] == ById(nodes, id)[k];
      assert Map(nodes, id)[i] == k;
    }
    forall k | k in Map(nodes, id)
      ensures k in ById(nodes, id)
    {
      var i :| 0 <= i < |nodes| && Map(nodes, id)[i] == k;
      assert nodes[i] in nodes;
    }
  }

  // ---------------------------------------------------------------- rows that lead nowhere

  /** `err` is about the first of these ids that nobody asked for. */
  ghost predicate FirstUnasked<N>(nodeids: map<Id, N>, ids: seq<Id>, j: int, err: Option<Error>) {
    && 0 <= j < |ids| && ids[j] !in nodeids && (forall k :: 0 <= k < j ==> ids[k] in nodeids)
    && err == Some(UnexpectedNode(ids[j]))
  }

  /** `err` is about the first row whose foreign key leads to no node; a missing key is told apart. */
  ghost predicate FirstAstray<N>(nodeids: map<Id, N>, ids: seq<Id>, fks: seq<Option<Id>>, j: int, err: Option<Error>) {
    && 0 <= j < |fks| == |ids| && !(fks[j].Some? && fks[j].value in nodeids)
    && (forall k :: 0 <= k < j ==> fks[k].Some? && fks[k].value in nodeids)
    && err == Some(if fks[j].None? then NilForeignKey(ids[j]) else UnexpectedReference(fks[j].value))
  }

  /** Likewise where the foreign key cannot be missing. */
  ghost predicate FirstUnowned<N>(nodeids: map<Id, N>, fks: seq<Option<Id>>, j: int, err: Option<Error>) {
    && 0 <= j < |fks| && fks[j].Some? && fks[j].value !in nodeids
    && (forall k :: 0 <= k < j ==> fks[k].Some? && fks[k].value in nodeids)
    && err == Some(UnexpectedReference(fks[j].value))
  }

  // ---------------------------------------------------------------- rows of a query

  /** What a lookup in a table finds: a matching row, or nothing when there is none. */
  ghost predicate Resolves<Row(!new)>(table: seq<Row>, matches: Row -> bool, found: Option<Row>) {
    match found
    case Some(r) => r in table && matches(r)
    case None => forall r :: r in table ==> !matches(r)
  }

  function Map<A, B>(s: seq<A>, f: A -> B): (r: seq<B>)
    ensures |r| == |s|
    ensures forall i :: 0 <= i < |s| ==> r[i] == f(s[i])
  {
    seq(|s|, i requires 0 <= i < |s| => f(s[i]))
  }

  lemma {:induction false} MapSnoc<A, B>(s: seq<A>, x: A, f: A -> B)
    ensures Map(s + [x], f) == Map(s, f) + [f(x)]
  {
  }
}
