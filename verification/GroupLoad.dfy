/**
 `loadGroups`: the many-to-many edge. The joined rows stream through a scan hook that keeps one struct per group and
 notes, per group, which accounts asked for it; a loop over those unordered sets then fills the accounts.
 */
module GroupLoad {
  import opened Prelude
  import opened Store
  import opened Entities
  import opened Loaders
  import opened EagerSpec
  import opened Outcomes
  import RowScan

  type JoinRow = (Id, GroupRow)

  function JoinedGroup(): JoinRow -> Id { (r: JoinRow) => r.1.id }

  /** `byID[id]`, which is nil for an unknown id. */
  function Lookup(byID: map<Id, Account>, id: Id): Account? {
    if id in byID then byID[id] else null
  }

  /** The accounts that the first `n` rows join to group `g`. */
  ghost function Joined(byID: map<Id, Account>, rows: seq<JoinRow>, g: Id, n: nat): set<Account?>
    requires n <= |rows|
  {
    if n == 0 then {}
    else
      var before := Joined(byID, rows, g, n - 1);
      if rows[n - 1].1.id == g then before + {Lookup(byID, rows[n - 1].0)} else before
  }

  lemma {:induction false} JoinedNone(byID: map<Id, Account>, rows: seq<JoinRow>, g: Id, n: nat)
    requires n <= |rows| && g !in Map(rows, JoinedGroup())[..n]
    ensures Joined(byID, rows, g, n) == {}
  {
    if n > 0 {
      var keys := Map(rows, JoinedGroup());
      assert keys[..n] == keys[..n - 1] + [keys[n - 1]];
      JoinedNone(byID, rows, g, n - 1);
    }
  }

  lemma {:induction false} JoinedMembers(byID: map<Id, Account>, rows: seq<JoinRow>, g: Id, n: nat, x: Account?)
    requires n <= |rows|
    ensures x in Joined(byID, rows, g, n) <==>
              exists i :: 0 <= i < n && rows[i].1.id == g && Lookup(byID, rows[i].0) == x
  {
    if n > 0 {
      JoinedMembers(byID, rows, g, n - 1, x);
    }
  }

  /** What the hooks have recorded after `n` rows. */
  ghost predicate Scanned(byID: map<Id, Account>, rows: seq<JoinRow>, n: nat, ids: seq<Id>,
                          nids: map<Id, set<Account?>>)
    requires n <= |rows|
  {
    && ids == Distinct(Map(rows, JoinedGroup())[..n])
    && forall g :: (g in nids <==> g in ids) && (g in nids ==> nids[g] == Joined(byID, rows, g, n))
  }

  /** `nids` after one more row. */
  function Noted(nids: map<Id, set<Account?>>, g: Id, x: Account?): map<Id, set<Account?>> {
    nids[g := (if g in nids then nids[g] else {}) + {x}]
  }

  lemma {:induction false} ScannedStep(byID: map<Id, Account>, rows: seq<JoinRow>, n: nat, ids: seq<Id>,
                                       nids: map<Id, set<Account?>>)
    requires n < |rows| && Scanned(byID, rows, n, ids, nids)
    ensures var g := rows[n].1.id;
            Scanned(byID, rows, n + 1, if g in nids then ids else ids + [g], Noted(nids, g, Lookup(byID, rows[n].0)))
  {
    var keys := Map(rows, JoinedGroup());
    assert keys[..n + 1][..n] == keys[..n];
    if rows[n].1.id !in nids {
      JoinedNone(byID, rows, rows[n].1.id, n);
    }
  }

  predicate TwoIds(holders: seq<RowScan.Kind>)
    requires |holders| >= 2
  {
    holders[0] == RowScan.IntKind && holders[1] == RowScan.IntKind
  }

  /**
   The scan hooks: a group is kept at its first row, later rows only add the account. The two ids are read from the
   first two holders by unchecked type assertions.
   */
  method ScanJoin(byID: map<Id, Account>, columns: seq<GroupColumn>, rows: seq<JoinRow>)
    returns (panicked: bool, neighbors: seq<Group>, nids: map<Id, set<Account?>>)
    requires |columns| >= 2
    ensures panicked <==> rows != [] && !TwoIds(HookedKinds(columns))
    ensures !panicked ==> forall g :: g in neighbors ==> fresh(g)
    ensures !panicked ==> Scanned(byID, rows, |rows|, Map(neighbors, GroupId()), nids)
  {
    neighbors, nids := [], map[];
    var holders := HookedKinds(columns);
    ghost var ids: seq<Id> := [];
    for i := 0 to |rows|
      invariant i > 0 ==> TwoIds(holders)
      invariant forall g :: g in neighbors ==> fresh(g)
      invariant ids == Map(neighbors, GroupId())
      invariant Scanned(byID, rows, i, ids, nids)
    {
      if !TwoIds(holders) {
        return true, [], map[];
      }
      var outValue, inValue := rows[i].0, rows[i].1.id;
      ScannedStep(byID, rows, i, ids, nids);
      if inValue !in nids {
        var g := new Group(rows[i].1);
        MapSnoc(neighbors, g, GroupId());
        neighbors, ids := neighbors + [g], ids + [inValue];
      }
      nids := Noted(nids, inValue, Lookup(byID, outValue));
    }
    panicked := false;
  }

  // ---------------------------------------------------------------- filling the accounts

  method InitGroups(nodes: seq<Account>)
    modifies NodeSet(nodes)`groups
    ensures forall x :: x in nodes ==> x.groups == Some([])
  {
    for i := 0 to |nodes|
      invariant forall k :: 0 <= k < i ==> nodes[k].groups == Some([])
    {
      nodes[i].groups := Some([]);
    }
  }

  ghost predicate AreNodes(owners: set<Account?>, nodes: seq<Account>) {
    forall x: Account? :: x in owners ==> x != null && x in nodes
  }

  /** The inner loop over an unordered set of accounts: every order appends `g` once to each of them. */
  method AppendToEach(owners: set<Account?>, g: Group, nodes: seq<Account>)
    requires AreNodes(owners, nodes)
    requires forall x :: x in nodes ==> x.groups.Some?
    modifies NodeSet(nodes)`groups
    ensures forall x :: x in nodes ==>
              x.groups == Some(if x in owners then old(x.groups).value + [g] else old(x.groups).value)
  {
    var left := owners;
    while left != {}
      invariant left <= owners
      invariant forall x :: x in nodes ==>
                  x.groups == Some(if x in owners - left then old(x.groups).value + [g] else old(x.groups).value)
      decreases left
    {
      var kn :| kn in left;
      InNodeSet(nodes, kn);
      kn.groups := Some(kn.groups.value + [g]);
      left := left - {kn};
    }
  }

  predicate Recorded(nids: map<Id, set<Account?>>, x: Account, g: Group) {
    g.row.id in nids && x in nids[g.row.id]
  }

  /** What the outer loop appends to account `x` from the first `n` groups. */
  ghost function Given(nids: map<Id, set<Account?>>, x: Account, neighbors: seq<Group>, n: nat): seq<Group>
    requires n <= |neighbors|
  {
    if n == 0 then []
    else
      var g, before := neighbors[n - 1], Given(nids, x, neighbors, n - 1);
      if Recorded(nids, x, g) then before + [g] else before
  }

  method HandOutGroups(nodes: seq<Account>, nids: map<Id, set<Account?>>, neighbors: seq<Group>)
    returns (err: Option<Error>)
    requires forall g :: g in nids ==> AreNodes(nids[g], nodes)
    requires forall x :: x in nodes ==> x.groups == Some([])
    modifies NodeSet(nodes)`groups
    ensures err.None? <==> forall g :: g in neighbors ==> g.row.id in nids
    ensures err.Some? ==> exists j :: FirstUnasked(nids, Map(neighbors, GroupId()), j, err)
    ensures err.None? ==> forall x :: x in nodes ==> x.groups == Some(Given(nids, x, neighbors, |neighbors|))
  {
    for j := 0 to |neighbors|
      invariant forall k :: 0 <= k < j ==> neighbors[k].row.id in nids
      invariant forall x :: x in nodes ==> x.groups == Some(Given(nids, x, neighbors, j))
    {
      var n := neighbors[j];
      var id: Id := n.row.id;
      if id !in nids {
        assert FirstUnasked(nids, Map(neighbors, GroupId()), j, Some(UnexpectedNode(id)));
        return Some(UnexpectedNode(id));
      }
      AppendToEach(nids[id], n, nodes);
    }
    return None;
  }

  // ---------------------------------------------------------------- the loader

  function Never(): Group -> bool { (g: Group) => false }
  function JoinedTo(rows: seq<JoinRow>, id: Id): Group -> bool { (g: Group) => (id, g.row) in rows }

  /**
   For every sequence of joined rows, whatever repetitions it has: the groups are one struct each, in the order of
   their first row; an account gets exactly the groups that some row joins it to, in that order; accounts of the same
   group share its struct. Of several nodes with one id only the last is filled.
   */
  method LoadGroups(db: Database, query: GroupsQuery, nodes: seq<Account>)
    returns (err: Option<Error>, ghost rows: seq<JoinRow>, ghost answer: seq<Group>)
    requires forall x :: x in nodes ==> x.scanned.id == x.origin.id
    modifies NodeSet(nodes)`groups
    ensures Outcome(db, GroupsFail(db, Some(query), Map(nodes, AccountId())), err)
    ensures err.None? ==>
              multiset(rows) == multiset(Filter(JoinAll(db.links, db.groups, query.joins),
                                                JoinIn(Map(nodes, AccountId()), query.groups)))
    ensures forall g :: g in answer ==> fresh(g)
    ensures err.None? ==> Map(answer, GroupId()) == Distinct(Map(rows, JoinedGroup()))
    ensures err.None? ==> forall x :: x in nodes ==>
              if ById(nodes, AccountId())[x.scanned.id] == x
              then x.groups == Some(Filter(answer, JoinedTo(rows, x.scanned.id))) && GroupsEdge(db, Some(query), x)
              else x.groups == Some([])
  {
    rows, answer := [], [];
    var edgeIDs, byID := IndexById(nodes, AccountId());
    InitGroups(nodes);
    var joined := Execute(db.reliable, JoinAll(db.links, db.groups, query.joins), JoinIn(edgeIDs, query.groups));
    if joined.Err? {
      return Some(joined.error), [], [];
    }
    rows := joined.value;
    var columns := JoinedColumns([], |query.joins| + 1);
    SecondHolder([], |query.joins| + 1);
    RowsReturned(db, query, edgeIDs, rows);
    var panicked, neighbors, nids := ScanJoin(byID, columns, joined.value);
    if panicked {
      return Some(Panic), [], [];
    }
    answer := neighbors;
    assert Map(rows, JoinedGroup())[..|rows|] == Map(rows, JoinedGroup());
    RowsWereJoined(db, query, nodes, rows);
    JoinedAreNodes(nodes, rows, nids, Map(answer, GroupId()));
    err := HandOutGroups(nodes, nids, neighbors);
    forall x | x in nodes
      ensures if byID[x.scanned.id] == x
              then x.groups == Some(Filter(answer, JoinedTo(rows, x.scanned.id))) && GroupsEdge(db, Some(query), x)
              else x.groups == Some([])
    {
      GroupsLoaded(db, query, nodes, x, rows, nids, answer);
    }
  }

  lemma {:induction false} RowsReturned(db: Database, query: GroupsQuery, ids: seq<Id>, rows: seq<JoinRow>)
    requires multiset(rows) ==
             multiset(Filter(JoinAll(db.links, db.groups, query.joins), JoinIn(ids, query.groups)))
    ensures rows != [] <==> JoinReturns(db, query, ids)
  {
    var all := JoinAll(db.links, db.groups, query.joins);
    SameMembers(rows, Filter(all, JoinIn(ids, query.groups)));
    FilterEmptyIff(all, JoinIn(ids, query.groups));
  }

  /** The rows are exactly the joined ones, whatever their number and order. */
  ghost predicate AreJoined(db: Database, query: GroupsQuery, nodes: seq<Account>, rows: seq<JoinRow>) {
    && (forall r :: r in rows ==> r.0 in ById(nodes, AccountId()))
    && forall x, g :: x in nodes ==> ((x.scanned.id, g) in rows <==> IsJoined(db, query, x.scanned.id, g))
  }

  ghost predicate IsJoined(db: Database, query: GroupsQuery, id: Id, g: GroupRow) {
    && g in db.groups && query.groups.where(g) && LinkRow(id, g.id) in db.links
    && InJoins(db.links, query.joins, g.id)
  }

  lemma {:induction false} RowsWereJoined(db: Database, query: GroupsQuery, nodes: seq<Account>, rows: seq<JoinRow>)
    requires multiset(rows) == multiset(Filter(JoinAll(db.links, db.groups, query.joins),
                                               JoinIn(Map(nodes, AccountId()), query.groups)))
    ensures AreJoined(db, query, nodes, rows)
  {
    var ids, all := Map(nodes, AccountId()), JoinAll(db.links, db.groups, query.joins);
    IdsAreIndexed(nodes, AccountId());
    SameMembers(rows, Filter(all, JoinIn(ids, query.groups)));
    FilterMembers(all, JoinIn(ids, query.groups));
    forall r | r in rows
      ensures r.0 in ById(nodes, AccountId())
    {
      assert JoinIn(ids, query.groups)(r);
    }
    forall x, g | x in nodes
      ensures (x.scanned.id, g) in rows <==> IsJoined(db, query, x.scanned.id, g)
    {
      JoinAllMembers(db.links, db.groups, query.joins, x.scanned.id, g);
      assert x.scanned.id in ids;
    }
  }

  /** Under the `IN` predicate every row leads to a node: nothing nil is ever recorded. */
  lemma {:induction false} JoinedAreNodes(nodes: seq<Account>, rows: seq<JoinRow>, nids: map<Id, set<Account?>>,
                                          ids: seq<Id>)
    requires forall r :: r in rows ==> r.0 in ById(nodes, AccountId())
    requires Scanned(ById(nodes, AccountId()), rows, |rows|, ids, nids)
    ensures forall g :: g in nids ==> AreNodes(nids[g], nodes)
  {
    var byID := ById(nodes, AccountId());
    forall g | g in nids
      ensures AreNodes(nids[g], nodes)
    {
      forall x: Account? | x in nids[g]
        ensures x != null && x in nodes
      {
        JoinedMembers(byID, rows, g, |rows|, x);
        var i :| 0 <= i < |rows| && rows[i].1.id == g && Lookup(byID, rows[i].0) == x;
        var a: Id := rows[i].0;
        assert rows[i] in rows;
        assert a in byID;
      }
    }
  }

  lemma {:induction false} GivenIsFiltered(nids: map<Id, set<Account?>>, x: Account, answer: seq<Group>, n: nat,
                                           p: Group -> bool)
    requires n <= |answer|
    requires forall k :: 0 <= k < n ==> (Recorded(nids, x, answer[k]) <==> p(answer[k]))
    ensures Given(nids, x, answer, n) == Filter(answer[..n], p)
  {
    if n > 0 {
      GivenIsFiltered(nids, x, answer, n - 1, p);
      FilterSnoc(answer, n - 1, p);
    }
  }

  /** An account is recorded for a group exactly when it is the last node of an id that some row joins to the group. */
  lemma {:induction false} RecordedIffJoined(nodes: seq<Account>, x: Account, rows: seq<JoinRow>, g: GroupRow)
    requires x in nodes
    ensures x in Joined(ById(nodes, AccountId()), rows, g.id, |rows|) <==>
            ById(nodes, AccountId())[x.scanned.id] == x && (x.scanned.id, g) in rows
  {
    var byID := ById(nodes, AccountId());
    JoinedMembers(byID, rows, g.id, |rows|, x);
    if i :| 0 <= i < |rows| && rows[i].1.id == g.id && Lookup(byID, rows[i].0) == x {
      var a: Id := rows[i].0;
      assert a in byID && byID[a] == x;
      assert rows[i] == (x.scanned.id, g);
    }
    if (x.scanned.id, g) in rows && byID[x.scanned.id] == x {
      var i :| 0 <= i < |rows| && rows[i] == (x.scanned.id, g);
      assert Lookup(byID, rows[i].0) == x;
    }
  }

  lemma {:induction false} GroupsLoaded(db: Database, query: GroupsQuery, nodes: seq<Account>, x: Account,
                                        rows: seq<JoinRow>,
                     nids: map<Id, set<Account?>>, answer: seq<Group>)
    requires AreJoined(db, query, nodes, rows)
    requires Scanned(ById(nodes, AccountId()), rows, |rows|, Map(answer, GroupId()), nids)
    requires x in nodes && x.scanned.id == x.origin.id
    requires x.groups == Some(Given(nids, x, answer, |answer|))
    ensures if ById(nodes, AccountId())[x.scanned.id] == x
            then x.groups == Some(Filter(answer, JoinedTo(rows, x.scanned.id))) && GroupsEdge(db, Some(query), x)
            else x.groups == Some([])
  {
    var last := ById(nodes, AccountId())[x.scanned.id] == x;
    forall k | 0 <= k < |answer|
      ensures Recorded(nids, x, answer[k]) <==> last && JoinedTo(rows, x.scanned.id)(answer[k])
    {
      assert Map(answer, GroupId())[k] == answer[k].row.id;
      RecordedIffJoined(nodes, x, rows, answer[k].row);
    }
    assert answer[..|answer|] == answer;
    if !last {
      GivenIsFiltered(nids, x, answer, |answer|, Never());
      FilterNone(answer, Never());
    } else {
      GivenIsFiltered(nids, x, answer, |answer|, JoinedTo(rows, x.scanned.id));
      assert Map(rows, JoinedGroup())[..|rows|] == Map(rows, JoinedGroup());
      JoinedGroupsAreTheEdge(db, query, nodes, x, rows, answer);
    }
  }

  lemma {:induction false} FilterKeepsDistinct(s: seq<Group>, p: Group -> bool)
    requires DistinctGroups(s)
    ensures DistinctGroups(Filter(s, p))
  {
    if s != [] {
      var rest := Filter(s[1..], p);
      FilterKeepsDistinct(s[1..], p);
      FilterMembers(s[1..], p);
      forall g | g in rest
        ensures g.row.id != s[0].row.id
      {
        var i :| 0 <= i < |s[1..]| && s[1..][i] == g;
        assert s[i + 1] == g;
      }
      assert forall j :: 0 <= j < |rest| ==> rest[j] in rest;
      assert DistinctGroups([s[0]] + rest);
    }
  }

  lemma {:induction false} JoinedGroupsAreTheEdge(db: Database, query: GroupsQuery, nodes: seq<Account>, x: Account,
                                                  rows: seq<JoinRow>, answer: seq<Group>)
    requires AreJoined(db, query, nodes, rows)
    requires Map(answer, GroupId()) == Distinct(Map(rows, JoinedGroup()))
    requires x in nodes && x.scanned.id == x.origin.id
    requires x.groups == Some(Filter(answer, JoinedTo(rows, x.scanned.id)))
    ensures GroupsEdge(db, Some(query), x)
  {
    var ids := Map(answer, GroupId());
    assert DistinctGroups(answer) by {
      assert forall i :: 0 <= i < |answer| ==> answer[i].row.id == ids[i];
    }
    FilterKeepsDistinct(answer, JoinedTo(rows, x.scanned.id));
    forall r
      ensures r in Map(x.groups.value, GroupRowOf()) <==> (x.scanned.id, r) in rows
    {
      JoinedGroupIsKept(rows, x.scanned.id, answer, r);
    }
  }

  lemma {:induction false} JoinedGroupIsKept(rows: seq<JoinRow>, id: Id, answer: seq<Group>, r: GroupRow)
    requires Map(answer, GroupId()) == Distinct(Map(rows, JoinedGroup()))
    ensures r in Map(Filter(answer, JoinedTo(rows, id)), GroupRowOf()) <==> (id, r) in rows
  {
    var ids, gs := Map(answer, GroupId()), Filter(answer, JoinedTo(rows, id));
    FilterMembers(answer, JoinedTo(rows, id));
    if r in Map(gs, GroupRowOf()) {
      var i :| 0 <= i < |gs| && Map(gs, GroupRowOf())[i] == r;
      assert gs[i] in gs;
    }
    if (id, r) in rows {
      var k :| 0 <= k < |rows| && rows[k] == (id, r);
      assert Map(rows, JoinedGroup())[k] == r.id;
      assert r.id in ids;
      var i :| 0 <= i < |ids| && ids[i] == r.id;
      assert answer[i].row == r && answer[i] in gs;
      var m :| 0 <= m < |gs| && gs[m] == answer[i];
      assert Map(gs, GroupRowOf())[m] == r;
    }
  }
}
