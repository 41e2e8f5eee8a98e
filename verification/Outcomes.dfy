/**
 How a query ends: with an answer, with an error of the driver or of a field name, or in a panic. `loadGroups` prepends
 the account column of its join to the selected columns, and its scan hook takes off one such column. A join that an
 earlier run left on the query has prepended another one: then the hook takes that column for the group's id, and the
 unchecked type assertion on its holder panics at the first row.
 */
module Outcomes {
  import opened Prelude
  import opened Store
  import opened Entities
  import opened Loaders
  import opened EagerSpec
  import RowScan

  // ---------------------------------------------------------------- the columns of the joined query

  /** A column of the joined query, as far as `Group.scanValues` tells them apart; it does not know `JoinAccountID`. */
  datatype GroupColumn = JoinAccountID | GroupID | GroupData(kind: RowScan.Kind)

  function GroupKind(c: GroupColumn): RowScan.Kind {
    match c
    case JoinAccountID => RowScan.UnknownKind
    case GroupID => RowScan.IntKind
    case GroupData(kind) => kind
  }

  /** The group's own columns start with its id under every projection; each join puts its account column in front. */
  function JoinedColumns(own: seq<GroupColumn>, joins: nat): seq<GroupColumn> {
    if joins == 0 then [GroupID] + own else [JoinAccountID] + JoinedColumns(own, joins - 1)
  }

  /** The hooked `ScanValues`: an integer holder for the first column, and the group's holders for the others. */
  function HookedKinds(columns: seq<GroupColumn>): (kinds: seq<RowScan.Kind>)
    requires columns != []
    ensures |kinds| == |columns|
  {
    [RowScan.IntKind] + Map(columns[1..], c => GroupKind(c))
  }

  /** With one join the second holder is that of the group's id; with more it is that of an unknown column. */
  lemma {:induction false} SecondHolder(own: seq<GroupColumn>, joins: nat)
    requires joins >= 1
    ensures |JoinedColumns(own, joins)| >= 2
    ensures HookedKinds(JoinedColumns(own, joins))[0] == RowScan.IntKind
    ensures HookedKinds(JoinedColumns(own, joins))[1] == RowScan.IntKind <==> joins == 1
  {
    var columns := JoinedColumns(own, joins);
    var below := JoinedColumns(own, joins - 1);
    assert columns[1..] == below;
    assert below[0] == if joins == 1 then GroupID else JoinAccountID;
    assert HookedKinds(columns)[1] == GroupKind(below[0]);
  }

  // ---------------------------------------------------------------- how a run fails

  function RowId(): AccountRow -> Id { (r: AccountRow) => r.id }
  function RowProxy(): AccountRow -> Option<Id> { (r: AccountRow) => r.proxyId }
  function RowParent(): AccountRow -> Option<Id> { (r: AccountRow) => r.parentId }
  function LinkAccountOf(): LinkRow -> Id { (r: LinkRow) => r.accountId }
  function LinkGroupOf(): LinkRow -> Id { (r: LinkRow) => r.groupId }

  /** The joined query of these accounts returns a row. */
  ghost predicate JoinReturns(db: Database, q: GroupsQuery, ids: seq<Id>) {
    exists r :: r in JoinAll(db.links, db.groups, q.joins) && JoinIn(ids, q.groups)(r)
  }

  function First(a: Option<Error>, b: Option<Error>): Option<Error> {
    if a.Some? then a else b
  }

  // How the queries of one level end when the driver never fails: the first loader that fails decides.

  ghost function GroupsFail(db: Database, q: Option<GroupsQuery>, ids: seq<Id>): Option<Error> {
    if q.Some? && q.value.joins != [] && JoinReturns(db, q.value, ids) then Some(Panic) else None
  }

  /** Without keys no query is made, and so its field names are not looked at. */
  ghost function ParentFails(db: Database, q: Option<AccountQuery>, keys: seq<Id>): Option<Error>
    decreases q
  {
    if q.None? || keys == [] then None else QueryFails(db, q.value, q.value.fields, AccountIn(keys))
  }

  ghost function ChildrenFail(db: Database, q: Option<AccountQuery>, ids: seq<Id>): Option<Error>
    decreases q
  {
    if q.None? then None else QueryFails(db, q.value, q.value.fields, ChildIn(ids))
  }

  ghost function UsageFails(q: Option<UsageQuery>): Option<Error> {
    if q.None? || ValidUsageFields(q.value.fields) then None else Some(InvalidField)
  }

  ghost function LinksFail(db: Database, q: Option<LinkQuery>, ids: seq<Id>): Option<Error>
    decreases q
  {
    if q.None? then None
    else if !ValidLinkFields(q.value.fields) then Some(InvalidField)
    else AccountFails(db, q.value.withAccount, Filter(db.links, LinkIn(ids, q.value)))
  }

  ghost function AccountFails(db: Database, q: Option<AccountQuery>, links: seq<LinkRow>): Option<Error>
    decreases q
  {
    if q.None? || links == [] then None
    else QueryFails(db, q.value, q.value.fields, AccountIn(Map(links, LinkAccountOf())))
  }

  /** The edges of the accounts with these ids and these parents, in the order of the loaders. */
  ghost function LevelFails(db: Database, q: AccountQuery, ids: seq<Id>, keys: seq<Id>): Option<Error>
    decreases q, 1
  {
    First(UniquesFail(db, q, ids, keys), ListsFail(db, q, ids))
  }

  ghost function UniquesFail(db: Database, q: AccountQuery, ids: seq<Id>, keys: seq<Id>): Option<Error>
    decreases q, 0
  {
    First(GroupsFail(db, q.withGroups, ids), ParentFails(db, q.withParent, keys))
  }

  ghost function ListsFail(db: Database, q: AccountQuery, ids: seq<Id>): Option<Error>
    decreases q, 0
  {
    First(First(ChildrenFail(db, q.withChildren, ids), UsageFails(q.withUsageLogs)), LinksFail(db, q.withLinks, ids))
  }

  ghost function RowsFail(db: Database, q: AccountQuery, rows: seq<AccountRow>): Option<Error>
    decreases q, 2
  {
    if rows == [] then None else LevelFails(db, q, Map(rows, RowId()), KeysOf(rows, RowParent()))
  }

  /** A query with these fields under one more predicate. */
  ghost function QueryFails(db: Database, q: AccountQuery, fields: seq<RowScan.Column>,
                            narrow: AccountRow -> bool): Option<Error>
    decreases q, 3
  {
    if ValidFields(fields) then RowsFail(db, q, Filter(db.accounts, Both(q.where, narrow))) else Some(InvalidField)
  }

  /** A run ends as expected, or the driver failed first. */
  predicate Outcome(db: Database, expected: Option<Error>, err: Option<Error>) {
    err == expected || (err == Some(DriverError) && !db.reliable)
  }

  function Failure<T>(r: Result<T>): Option<Error> {
    if r.Ok? then None else Some(r.error)
  }

  // ---------------------------------------------------------------- what has to be wrong for a query to fail

  /** No earlier run left a join anywhere in the tree. */
  ghost predicate FreshQuery(q: AccountQuery)
    decreases q
  {
    && (q.withGroups.Some? ==> q.withGroups.value.joins == [])
    && (q.withParent.Some? ==> FreshQuery(q.withParent.value))
    && (q.withChildren.Some? ==> FreshQuery(q.withChildren.value))
    && (q.withLinks.Some? && q.withLinks.value.withAccount.Some? ==> FreshQuery(q.withLinks.value.withAccount.value))
  }

  /** An invalid field name somewhere in the tree, or a join left by an earlier run. */
  ghost predicate HasCause(valid: bool, joinless: bool, err: Option<Error>) {
    err == None || (err == Some(InvalidField) && !valid) || (err == Some(Panic) && !joinless)
  }

  lemma {:induction false} FailsForACause(db: Database, q: AccountQuery, fields: seq<RowScan.Column>,
                                          narrow: AccountRow -> bool)
    ensures HasCause(ValidFields(fields) && ValidEdges(q), FreshQuery(q), QueryFails(db, q, fields, narrow))
    decreases q
  {
    var rows := Filter(db.accounts, Both(q.where, narrow));
    var ids, keys := Map(rows, RowId()), KeysOf(rows, RowParent());
    if q.withParent.Some? {
      var pq := q.withParent.value;
      FailsForACause(db, pq, pq.fields, AccountIn(keys));
      assert (ValidEdges(q) ==> ValidQuery(pq)) && (FreshQuery(q) ==> FreshQuery(pq));
      assert ValidQuery(pq) == (ValidFields(pq.fields) && ValidEdges(pq));
    }
    if q.withChildren.Some? {
      var cq := q.withChildren.value;
      FailsForACause(db, cq, cq.fields, ChildIn(ids));
      assert (ValidEdges(q) ==> ValidQuery(cq)) && (FreshQuery(q) ==> FreshQuery(cq));
      assert ValidQuery(cq) == (ValidFields(cq.fields) && ValidEdges(cq));
    }
    if q.withLinks.Some? && q.withLinks.value.withAccount.Some? {
      var aq := q.withLinks.value.withAccount.value;
      var links := Filter(db.links, LinkIn(ids, q.withLinks.value));
      FailsForACause(db, aq, aq.fields, AccountIn(Map(links, LinkAccountOf())));
      assert ValidEdges(q) ==> ValidLinkQuery(q.withLinks.value);
      assert ValidLinkQuery(q.withLinks.value) ==> ValidLinkEdges(q.withLinks.value);
      assert ValidLinkEdges(q.withLinks.value) ==> ValidQuery(aq);
      assert ValidQuery(aq) == (ValidFields(aq.fields) && ValidEdges(aq));
      assert FreshQuery(q) ==> FreshQuery(aq);
    }
    var valid, joinless := ValidEdges(q), FreshQuery(q);
    assert HasCause(valid, joinless, ParentFails(db, q.withParent, keys));
    assert HasCause(valid, joinless, ChildrenFail(db, q.withChildren, ids));
    assert HasCause(valid, joinless, LinksFail(db, q.withLinks, ids)) by {
      assert q.withLinks.Some? ==> ValidEdges(q) ==> ValidLinkQuery(q.withLinks.value);
    }
    assert HasCause(valid, joinless, UniquesFail(db, q, ids, keys));
    assert HasCause(valid, joinless, ListsFail(db, q, ids));
    assert HasCause(valid, joinless, RowsFail(db, q, rows));
  }

  // ---------------------------------------------------------------- it depends on the keys only as sets

  lemma {:induction false} KeysMembers<N>(nodes: seq<N>, key: N -> Option<Id>, k: Id)
    ensures k in KeysOf(nodes, key) <==> exists x :: x in nodes && key(x) == Some(k)
  {
    if nodes != [] {
      var n := |nodes| - 1;
      assert nodes == nodes[..n] + [nodes[n]];
      KeysMembers(nodes[..n], key, k);
    }
  }

  lemma {:induction false} MapMembers<A, B>(s: seq<A>, f: A -> B, y: B)
    ensures y in Map(s, f) <==> exists x :: x in s && f(x) == y
  {
    if y in Map(s, f) {
      var i :| 0 <= i < |s| && Map(s, f)[i] == y;
      assert s[i] in s && f(s[i]) == y;
    }
    if x :| x in s && f(x) == y {
      var i :| 0 <= i < |s| && s[i] == x;
      assert Map(s, f)[i] == y;
    }
  }

  ghost predicate SameIds(a: seq<Id>, b: seq<Id>) {
    forall k :: k in a <==> k in b
  }

  lemma {:induction false} FailsSame(db: Database, q: AccountQuery, fields: seq<RowScan.Column>,
                                     a: AccountRow -> bool, b: AccountRow -> bool)
    requires forall r :: r in db.accounts ==> a(r) == b(r)
    ensures QueryFails(db, q, fields, a) == QueryFails(db, q, fields, b)
  {
    FilterSame(db.accounts, Both(q.where, a), Both(q.where, b));
  }

  lemma {:induction false} SameKeys(a: seq<Id>, b: seq<Id>)
    requires SameIds(a, b)
    ensures a == [] <==> b == []
  {
    if a != [] {
      var k: Id := a[0];
      assert k in a;
    }
    if b != [] {
      var k: Id := b[0];
      assert k in b;
    }
  }

  lemma {:induction false} SameGroupsFail(db: Database, q: Option<GroupsQuery>, ids: seq<Id>, ids': seq<Id>)
    requires SameIds(ids, ids')
    ensures GroupsFail(db, q, ids) == GroupsFail(db, q, ids')
  {
    if q.Some? {
      var gq := q.value.groups;
      forall r: (Id, GroupRow)
        ensures JoinIn(ids, gq)(r) == JoinIn(ids', gq)(r)
      {
        var k: Id := r.0;
        assert k in ids <==> k in ids';
      }
    }
  }

  lemma {:induction false} SameParentFails(db: Database, q: Option<AccountQuery>, keys: seq<Id>, keys': seq<Id>)
    requires q.Some? ==> SameIds(keys, keys')
    ensures ParentFails(db, q, keys) == ParentFails(db, q, keys')
  {
    if q.Some? {
      SameKeys(keys, keys');
      FailsSame(db, q.value, q.value.fields, AccountIn(keys), AccountIn(keys'));
    }
  }

  lemma {:induction false} SameListsFail(db: Database, q: AccountQuery, ids: seq<Id>, ids': seq<Id>)
    requires SameIds(ids, ids')
    ensures ListsFail(db, q, ids) == ListsFail(db, q, ids')
  {
    if q.withChildren.Some? {
      forall r: AccountRow
        ensures ChildIn(ids)(r) == ChildIn(ids')(r)
      {
        if r.parentId.Some? {
          var k: Id := r.parentId.value;
          assert k in ids <==> k in ids';
        }
      }
      FailsSame(db, q.withChildren.value, q.withChildren.value.fields, ChildIn(ids), ChildIn(ids'));
    }
    if q.withLinks.Some? {
      FilterSame(db.links, LinkIn(ids, q.withLinks.value), LinkIn(ids', q.withLinks.value));
    }
  }

  /** The nodes that the driver returned for a level fail as the level does. */
  lemma {:induction false} NodesFail(db: Database, q: AccountQuery, narrow: AccountRow -> bool, nodes: seq<Account>)
    requires multiset(Map(nodes, AccountOrigin())) == multiset(Filter(db.accounts, Both(q.where, narrow)))
    requires forall n :: n in nodes ==>
               n.scanned.id == n.origin.id && (q.withParent.Some? ==> n.scanned.parentId == n.origin.parentId)
    ensures RowsFail(db, q, Filter(db.accounts, Both(q.where, narrow))) ==
            if nodes == [] then None else LevelFails(db, q, Map(nodes, AccountId()), KeysOf(nodes, ParentKey()))
  {
    var rows := Filter(db.accounts, Both(q.where, narrow));
    SameMembers(Map(nodes, AccountOrigin()), rows);
    assert |nodes| == |rows|;
    forall r: AccountRow
      ensures r in rows <==> exists n :: n in nodes && n.origin == r
    {
      MapMembers(nodes, AccountOrigin(), r);
    }
    forall k: Id
      ensures k in Map(nodes, AccountId()) <==> k in Map(rows, RowId())
    {
      MapMembers(nodes, AccountId(), k);
      MapMembers(rows, RowId(), k);
      assert forall n :: n in nodes ==> n.origin in rows && RowId()(n.origin) == AccountId()(n);
    }
    if q.withParent.Some? {
      forall k: Id
        ensures k in KeysOf(nodes, ParentKey()) <==> k in KeysOf(rows, RowParent())
      {
        KeysMembers(nodes, ParentKey(), k);
        KeysMembers(rows, RowParent(), k);
        assert forall n :: n in nodes ==> n.origin in rows && RowParent()(n.origin) == ParentKey()(n);
      }
    }
    SameGroupsFail(db, q.withGroups, Map(nodes, AccountId()), Map(rows, RowId()));
    SameParentFails(db, q.withParent, KeysOf(nodes, ParentKey()), KeysOf(rows, RowParent()));
    SameListsFail(db, q, Map(nodes, AccountId()), Map(rows, RowId()));
    var ids, keys := Map(nodes, AccountId()), KeysOf(nodes, ParentKey());
    assert UniquesFail(db, q, ids, keys) == UniquesFail(db, q, Map(rows, RowId()), KeysOf(rows, RowParent()));
  }

  /** Likewise for the join entities that the driver returned. */
  lemma {:induction false} LinkNodesFail(db: Database, q: Option<AccountQuery>, joined: LinkRow -> bool,
                                         nodes: seq<AccountGroup>)
    requires multiset(Map(nodes, LinkOrigin())) == multiset(Filter(db.links, joined))
    requires q.Some? ==> forall l :: l in nodes ==> l.scanned.accountId == l.origin.accountId
    ensures ParentFails(db, q, KeysOf(nodes, LinkAccountKey())) == AccountFails(db, q, Filter(db.links, joined))
  {
    var links := Filter(db.links, joined);
    SameMembers(Map(nodes, LinkOrigin()), links);
    if q.Some? {
      forall r: LinkRow
        ensures r in links <==> exists l :: l in nodes && l.origin == r
      {
        MapMembers(nodes, LinkOrigin(), r);
      }
      var keys, accounts := KeysOf(nodes, LinkAccountKey()), Map(links, LinkAccountOf());
      forall k: Id
        ensures k in keys <==> k in accounts
      {
        KeysMembers(nodes, LinkAccountKey(), k);
        MapMembers(links, LinkAccountOf(), k);
        assert forall l :: l in nodes ==> l.origin in links && Some(LinkAccountOf()(l.origin)) == LinkAccountKey()(l);
      }
      SameParentFails(db, q, keys, accounts);
    }
  }
}
