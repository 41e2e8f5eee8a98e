/**
 What eager loading must produce, as the naive lookup would: for each node, each requested edge holds exactly the
 related rows, and the nodes behind the nested edges satisfy their own query in turn.
 */
module EagerSpec {
  import opened Prelude
  import opened Store
  import opened Entities
  import opened Loaders
  import opened Projection
  import RowScan

  // ---------------------------------------------------------------- keys and predicates of the edge queries

  function ProxyKey(): Account -> Option<Id> { (n: Account) => n.scanned.proxyId }
  function ParentKey(): Account -> Option<Id> { (n: Account) => n.scanned.parentId }
  function LinkAccountKey(): AccountGroup -> Option<Id> { (l: AccountGroup) => Some(l.scanned.accountId) }
  function LinkGroupKey(): AccountGroup -> Option<Id> { (l: AccountGroup) => Some(l.scanned.groupId) }

  function ChildParent(): Account -> Option<Id> { (n: Account) => n.scanned.parentId }
  function UsageAccount(): UsageLog -> Option<Id> { (u: UsageLog) => Some(u.scanned.accountId) }
  function LinkAccount(): AccountGroup -> Option<Id> { (l: AccountGroup) => Some(l.scanned.accountId) }

  function AccountId(): Account -> Id { (n: Account) => n.scanned.id }
  function ProxyId(): Proxy -> Id { (p: Proxy) => p.row.id }
  function GroupId(): Group -> Id { (g: Group) => g.row.id }

  function ProxyWith(fk: Option<Id>, q: ProxyQuery): ProxyRow -> bool {
    (r: ProxyRow) => fk == Some(r.id) && q.where(r)
  }
  function ProxyIn(ids: seq<Id>, q: ProxyQuery): ProxyRow -> bool { (r: ProxyRow) => r.id in ids && q.where(r) }
  function GroupWith(fk: Option<Id>, q: GroupQuery): GroupRow -> bool {
    (r: GroupRow) => fk == Some(r.id) && q.where(r)
  }
  function GroupIn(ids: seq<Id>, q: GroupQuery): GroupRow -> bool { (r: GroupRow) => r.id in ids && q.where(r) }
  function AccountWith(fk: Option<Id>, q: AccountQuery): AccountRow -> bool {
    (r: AccountRow) => fk == Some(r.id) && q.where(r)
  }

  function Both(p: AccountRow -> bool, q: AccountRow -> bool): AccountRow -> bool { (r: AccountRow) => p(r) && q(r) }
  function AccountIn(ids: seq<Id>): AccountRow -> bool { (r: AccountRow) => r.id in ids }
  function ChildIn(ids: seq<Id>): AccountRow -> bool { (r: AccountRow) => r.parentId.Some? && r.parentId.value in ids }
  function ChildOf(id: Id, q: AccountQuery): AccountRow -> bool {
    (r: AccountRow) => r.parentId == Some(id) && q.where(r)
  }
  function UsageIn(ids: seq<Id>, q: UsageQuery): UsageRow -> bool { (r: UsageRow) => r.accountId in ids && q.where(r) }
  function UsageOf(id: Id, q: UsageQuery): UsageRow -> bool { (r: UsageRow) => r.accountId == id && q.where(r) }
  function LinkIn(ids: seq<Id>, q: LinkQuery): LinkRow -> bool { (r: LinkRow) => r.accountId in ids && q.where(r) }
  function LinkOf(id: Id, q: LinkQuery): LinkRow -> bool { (r: LinkRow) => r.accountId == id && q.where(r) }
  function JoinIn(ids: seq<Id>, q: GroupQuery): ((Id, GroupRow)) -> bool {
    (r: (Id, GroupRow)) => r.0 in ids && q.where(r.1)
  }

  ghost function AccountOrigin(): Account -> AccountRow { (n: Account) => n.origin }
  ghost function UsageOrigin(): UsageLog -> UsageRow { (u: UsageLog) => u.origin }
  ghost function LinkOrigin(): AccountGroup -> LinkRow { (l: AccountGroup) => l.origin }
  function ProxyRowOf(): Proxy -> ProxyRow { (p: Proxy) => p.row }
  function GroupRowOf(): Group -> GroupRow { (g: Group) => g.row }

  /** The rows an `IN` query returned decide the lookup of every key in the list. */
  lemma {:induction false} AnswerResolves<Row(!new)>(table: seq<Row>, queried: Row -> bool, matches: Row -> bool,
                                                     rows: seq<Row>, found: Option<Row>)
    requires multiset(rows) == multiset(Filter(table, queried))
    requires forall r :: matches(r) ==> queried(r)
    requires found.Some? ==> found.value in table && matches(found.value)
    requires found.None? ==> forall r :: r in rows ==> !matches(r)
    ensures Resolves(table, matches, found)
  {
    SameMembers(rows, Filter(table, queried));
    FilterMembers(table, queried);
  }

  // What a unique-edge loader leaves in a node: the last answer with its key, or the value it had.

  ghost predicate ProxyTaken(answer: seq<Proxy>, fk: Option<Id>, before: Proxy?, after: Proxy?) {
    match LastWith(answer, ProxyId(), fk) case Some(p) => after == p case None => after == before
  }

  ghost predicate AccountTaken(answer: seq<Account>, fk: Option<Id>, before: Account?, after: Account?) {
    match LastWith(answer, AccountId(), fk) case Some(n) => after == n case None => after == before
  }

  ghost predicate GroupTaken(answer: seq<Group>, fk: Option<Id>, before: Group?, after: Group?) {
    match LastWith(answer, GroupId(), fk) case Some(g) => after == g case None => after == before
  }

  ghost function RowTaken<N, Row>(answer: seq<N>, id: N -> Id, rowOf: N -> Row, fk: Option<Id>): Option<Row> {
    var hit := LastWith(answer, id, fk); if hit.Some? then Some(rowOf(hit.value)) else None
  }

  /** Every returned node carries a row of the table that was asked for. */
  lemma {:induction false} AnswerWasAsked<N, Row(!new)>(answer: seq<N>, rowOf: N -> Row, table: seq<Row>,
                                                        queried: Row -> bool)
    requires multiset(Map(answer, rowOf)) == multiset(Filter(table, queried))
    ensures forall n :: n in answer ==> rowOf(n) in table && queried(rowOf(n))
  {
    var rows := Map(answer, rowOf);
    SameMembers(rows, Filter(table, queried));
    FilterMembers(table, queried);
    forall n | n in answer
      ensures rowOf(n) in rows
    {
      var i :| 0 <= i < |answer| && answer[i] == n;
      assert rows[i] == rowOf(n);
    }
  }

  /** The last answer with a key is what a lookup of that key finds, when the key was in the `IN` list. */
  lemma {:induction false} LastResolves<N, Row(!new)>(answer: seq<N>, rowOf: N -> Row, id: N -> Id, table: seq<Row>,
                                                      queried: Row -> bool,
                                   matches: Row -> bool, fk: Option<Id>)
    requires multiset(Map(answer, rowOf)) == multiset(Filter(table, queried))
    requires forall r :: matches(r) ==> queried(r)
    requires forall n :: n in answer ==> (matches(rowOf(n)) <==> fk == Some(id(n)))
    ensures Resolves(table, matches, RowTaken(answer, id, rowOf, fk))
  {
    var rows, hit := Map(answer, rowOf), LastWith(answer, id, fk);
    if hit.Some? {
      AnswerWasAsked(answer, rowOf, table, queried);
    } else {
      assert forall i :: 0 <= i < |rows| ==> answer[i] in answer && !matches(rows[i]);
    }
    AnswerResolves(table, queried, matches, rows, if hit.Some? then Some(rowOf(hit.value)) else None);
  }

  // ---------------------------------------------------------------- list edges

  lemma {:induction false} MapFilter<N, Row>(s: seq<N>, f: N -> Row, p: N -> bool, q: Row -> bool)
    requires forall x :: x in s ==> (p(x) <==> q(f(x)))
    ensures Map(Filter(s, p), f) == Filter(Map(s, f), q)
    decreases |s|
  {
    if s != [] {
      MapFilter(s[1..], f, p, q);
      assert Map(s, f)[1..] == Map(s[1..], f);
      assert Map([s[0]] + Filter(s[1..], p), f) == [f(s[0])] + Map(Filter(s[1..], p), f);
    }
  }

  lemma {:induction false} FilterFilter<T>(s: seq<T>, p: T -> bool, q: T -> bool)
    requires forall x :: x in s && q(x) ==> p(x)
    ensures Filter(Filter(s, p), q) == Filter(s, q)
    decreases |s|
  {
    if s != [] {
      FilterFilter(s[1..], p, q);
      if p(s[0]) {
        assert ([s[0]] + Filter(s[1..], p))[1..] == Filter(s[1..], p);
      }
    }
  }

  /** Splitting one batched answer by owner gives each owner the rows its own query would return. */
  lemma {:induction false} OwnedRows<E, Row(!new)>(answer: seq<E>, rowOf: E -> Row, fk: E -> Option<Id>, id: Id,
                                table: seq<Row>, queried: Row -> bool, wanted: Row -> bool)
    requires multiset(Map(answer, rowOf)) == multiset(Filter(table, queried))
    requires forall r :: wanted(r) ==> queried(r)
    requires forall e :: e in answer ==> (fk(e) == Some(id) <==> wanted(rowOf(e)))
    ensures multiset(Map(Owned(answer, fk, id), rowOf)) == multiset(Filter(table, wanted))
  {
    MapFilter(answer, rowOf, HasKey(fk, id), wanted);
    FilterMultiset(Map(answer, rowOf), Filter(table, queried), wanted);
    FilterFilter(table, queried, wanted);
  }

  // ---------------------------------------------------------------- handing out loses nothing

  function Concat<E>(lists: seq<seq<E>>): seq<E> {
    if lists == [] then [] else lists[0] + Concat(lists[1..])
  }

  function TotalLength<E>(lists: seq<seq<E>>): nat {
    if lists == [] then 0 else |lists[0]| + TotalLength(lists[1..])
  }

  /** The lists share no element, and together they are `all`, counted. */
  ghost predicate IsPartition<E>(lists: seq<seq<E>>, all: seq<E>) {
    && multiset(Concat(lists)) == multiset(all) && TotalLength(lists) == |all|
    && forall i, j :: 0 <= i < j < |lists| ==> Disjoint(lists[i], lists[j])
  }

  ghost predicate Disjoint<E>(a: seq<E>, b: seq<E>) {
    forall e :: e in a ==> e !in b
  }

  lemma {:induction false} ConcatLength<E>(lists: seq<seq<E>>)
    ensures |Concat(lists)| == TotalLength(lists)
  {
    if lists != [] {
      ConcatLength(lists[1..]);
    }
  }

  lemma {:induction false} HasMember<E>(s: seq<E>)
    requires s != []
    ensures exists e :: e in s
  {
    assert s[0] in s;
  }

  /**
   Owner by owner, nothing is lost: with distinct owners and no foreign key outside them, the lists are the answer.
   */
  lemma {:induction false} ConcatIsAll<E>(answer: seq<E>, fk: E -> Option<Id>, ids: seq<Id>, lists: seq<seq<E>>)
    requires forall i, j :: 0 <= i < j < |ids| ==> ids[i] != ids[j]
    requires forall e :: e in answer ==> fk(e).Some? && fk(e).value in ids
    requires |lists| == |ids| && forall i :: 0 <= i < |ids| ==> lists[i] == Owned(answer, fk, ids[i])
    ensures multiset(Concat(lists)) == multiset(answer)
    decreases |ids|
  {
    if ids == [] {
      if answer != [] {
        HasMember(answer);
        assert false;
      }
    } else {
      var id, rest := ids[0], ids[1..];
      var others := Filter(answer, Negated(HasKey(fk, id)));
      FilterPartition(answer, HasKey(fk, id));
      FilterMembers(answer, Negated(HasKey(fk, id)));
      forall e | e in others
        ensures fk(e).value in rest
      {
        assert ids == [id] + rest;
      }
      forall i | 0 <= i < |rest|
        ensures lists[1..][i] == Owned(others, fk, rest[i])
      {
        FilterFilter(answer, Negated(HasKey(fk, id)), HasKey(fk, rest[i]));
      }
      ConcatIsAll(others, fk, rest, lists[1..]);
    }
  }

  lemma {:induction false} HandedOutIsAll<E>(answer: seq<E>, fk: E -> Option<Id>, ids: seq<Id>, lists: seq<seq<E>>)
    requires forall i, j :: 0 <= i < j < |ids| ==> ids[i] != ids[j]
    requires forall e :: e in answer ==> fk(e).Some? && fk(e).value in ids
    requires |lists| == |ids| && forall i :: 0 <= i < |ids| ==> lists[i] == Owned(answer, fk, ids[i])
    ensures IsPartition(lists, answer)
  {
    ConcatIsAll(answer, fk, ids, lists);
    ConcatLength(lists);
    assert |multiset(Concat(lists))| == |Concat(lists)| && |multiset(answer)| == |answer|;
    forall i, j | 0 <= i < j < |lists|
      ensures Disjoint(lists[i], lists[j])
    {
      FilterMembers(answer, HasKey(fk, ids[i]));
      FilterMembers(answer, HasKey(fk, ids[j]));
    }
  }

  /** What the list-edge loaders append, owner by owner, is a partition of the answer when no two nodes share an id. */
  lemma {:induction false} AppendedIsPartition<E>(nodes: seq<Account>, answer: seq<E>, fk: E -> Option<Id>,
                                                  lists: seq<seq<E>>)
    requires DistinctNodes(nodes)
    requires forall e :: e in answer ==> fk(e).Some? && fk(e).value in Map(nodes, AccountId())
    requires |lists| == |nodes|
    requires forall i :: 0 <= i < |nodes| ==>
              lists[i] == OwnedBy(ById(nodes, AccountId()), nodes[i], answer, fk, |answer|)
    ensures IsPartition(lists, answer)
  {
    var ids := Map(nodes, AccountId());
    forall i | 0 <= i < |nodes|
      ensures lists[i] == Owned(answer, fk, ids[i])
    {
      OwnedByIsOwned(nodes, AccountId(), nodes[i], answer, fk);
      ByIdOfDistinct(nodes, AccountId(), nodes[i]);
    }
    HandedOutIsAll(answer, fk, ids, lists);
  }

  // What the list edges of some nodes hold, node by node.

  ghost function ChildLists(nodes: seq<Account>): seq<seq<Account>>
    reads nodes
  {
    seq(|nodes|, i requires 0 <= i < |nodes| reads nodes =>
        if nodes[i].children.Some? then nodes[i].children.value else [])
  }

  ghost function UsageLists(nodes: seq<Account>): seq<seq<UsageLog>>
    reads nodes
  {
    seq(|nodes|, i requires 0 <= i < |nodes| reads nodes =>
        if nodes[i].usageLogs.Some? then nodes[i].usageLogs.value else [])
  }

  ghost function LinkLists(nodes: seq<Account>): seq<seq<AccountGroup>>
    reads nodes
  {
    seq(|nodes|, i requires 0 <= i < |nodes| reads nodes => if nodes[i].links.Some? then nodes[i].links.value else [])
  }

  ghost predicate DistinctNodes(nodes: seq<Account>) {
    forall i, j :: 0 <= i < j < |nodes| ==> nodes[i].scanned.id != nodes[j].scanned.id
  }

  // ---------------------------------------------------------------- errors and their causes

  predicate ValidFields(fields: seq<RowScan.Column>) {
    forall c :: c in fields ==> !c.Other?
  }

  predicate ValidUsageFields(fields: seq<UsageColumn>) {
    forall c :: c in fields ==> !c.UsageOther?
  }

  predicate ValidLinkFields(fields: seq<LinkColumn>) {
    forall c :: c in fields ==> !c.LinkOther?
  }

  /** No field name anywhere below the root of a query tree is invalid. */
  predicate ValidEdges(q: AccountQuery)
    decreases q, 0
  {
    && (q.withParent.Some? ==> ValidQuery(q.withParent.value))
    && (q.withChildren.Some? ==> ValidQuery(q.withChildren.value))
    && (q.withUsageLogs.Some? ==> ValidUsageFields(q.withUsageLogs.value.fields))
    && (q.withLinks.Some? ==> ValidLinkQuery(q.withLinks.value))
  }

  predicate ValidQuery(q: AccountQuery)
    decreases q, 1
  {
    ValidFields(q.fields) && ValidEdges(q)
  }

  predicate ValidLinkEdges(q: LinkQuery)
    decreases q, 0
  {
    q.withAccount.Some? ==> ValidQuery(q.withAccount.value)
  }

  predicate ValidLinkQuery(q: LinkQuery)
    decreases q, 1
  {
    ValidLinkFields(q.fields) && ValidLinkEdges(q)
  }

  // ---------------------------------------------------------------- the result of a query, edge by edge

  function FlagsOf(q: AccountQuery): Loaded {
    Loaded(q.withGroups.Some?, q.withProxy.Some?, q.withParent.Some?,
           q.withChildren.Some?, q.withUsageLogs.Some?, q.withLinks.Some?)
  }

  ghost predicate DistinctGroups(gs: seq<Group>) {
    forall i, j :: 0 <= i < j < |gs| ==> gs[i].row.id != gs[j].row.id
  }

  ghost predicate GroupsEdge(db: Database, q: Option<GroupsQuery>, n: Account)
    reads n`groups
  {
    match q
    case None => n.groups == None
    case Some(gq) =>
      && n.groups.Some?
      && DistinctGroups(n.groups.value)
      && forall r :: r in Map(n.groups.value, GroupRowOf()) <==>
                     && r in db.groups && gq.groups.where(r) && LinkRow(n.origin.id, r.id) in db.links
                     && InJoins(db.links, gq.joins, r.id)
  }

  ghost predicate ProxyEdge(db: Database, q: Option<ProxyQuery>, n: Account)
    reads n`proxy
  {
    match q
    case None => n.proxy == null
    case Some(pq) => Resolves(db.proxies, ProxyWith(n.origin.proxyId, pq),
                              if n.proxy == null then None else Some(n.proxy.row))
  }

  ghost predicate ParentEdge(db: Database, q: Option<AccountQuery>, n: Account, repr: set<object>)
    reads n`parent, repr
    decreases q
  {
    match q
    case None => n.parent == null
    case Some(pq) =>
      && Resolves(db.accounts, AccountWith(n.origin.parentId, pq),
                  if n.parent == null then None else Some(n.parent.origin))
      && (n.parent != null ==> n.parent in repr && Faithful(db, pq, n.parent, repr))
  }

  ghost predicate ChildrenEdge(db: Database, q: Option<AccountQuery>, n: Account, repr: set<object>)
    reads n`children, repr
    decreases q
  {
    match q
    case None => n.children == None
    case Some(cq) =>
      && n.children.Some?
      && multiset(Map(n.children.value, AccountOrigin())) == multiset(Filter(db.accounts, ChildOf(n.origin.id, cq)))
      && forall c :: c in n.children.value ==> c in repr && Faithful(db, cq, c, repr)
  }

  // A struct holds the columns it was fetched with, and every column asked for is one of them.

  ghost predicate AccountScanned(fields: seq<RowScan.Column>, n: Account) {
    n.scanned == Project(n.columns, n.origin) && Fetched(fields, n.columns, RowScan.ALL_COLUMNS)
  }

  ghost predicate UsageScanned(fields: seq<UsageColumn>, u: UsageLog) {
    u.scanned == ProjectUsage(u.columns, u.origin) && UsageID in u.columns && Fetched(fields, u.columns, USAGE_COLUMNS)
  }

  ghost predicate LinkScanned(fields: seq<LinkColumn>, l: AccountGroup) {
    l.scanned == ProjectLink(l.columns, l.origin) && Fetched(fields, l.columns, LINK_COLUMNS)
  }

  ghost predicate UsageEdge(db: Database, q: Option<UsageQuery>, n: Account)
    reads n`usageLogs
  {
    match q
    case None => n.usageLogs == None
    case Some(uq) =>
      && n.usageLogs.Some?
      && multiset(Map(n.usageLogs.value, UsageOrigin())) == multiset(Filter(db.usageLogs, UsageOf(n.origin.id, uq)))
      && forall u :: u in n.usageLogs.value ==> UsageScanned(uq.fields, u)
  }

  ghost predicate LinksEdge(db: Database, q: Option<LinkQuery>, n: Account, repr: set<object>)
    reads n`links, repr
    decreases q
  {
    match q
    case None => n.links == None
    case Some(lq) =>
      && n.links.Some?
      && multiset(Map(n.links.value, LinkOrigin())) == multiset(Filter(db.links, LinkOf(n.origin.id, lq)))
      && forall l :: l in n.links.value ==> l in repr && LinkFaithful(db, lq, l, repr)
  }

  ghost predicate LinkAccountEdge(db: Database, q: Option<AccountQuery>, l: AccountGroup, repr: set<object>)
    reads l`account, repr
    decreases q
  {
    match q
    case None => l.account == null
    case Some(aq) =>
      && Resolves(db.accounts, AccountWith(Some(l.origin.accountId), aq),
                  if l.account == null then None else Some(l.account.origin))
      && (l.account != null ==> l.account in repr && Faithful(db, aq, l.account, repr))
  }

  ghost predicate LinkGroupEdge(db: Database, q: Option<GroupQuery>, l: AccountGroup)
    reads l`group
  {
    match q
    case None => l.group == null
    case Some(gq) => Resolves(db.groups, GroupWith(Some(l.origin.groupId), gq),
                              if l.group == null then None else Some(l.group.row))
  }

  /** A node carries the result of the query tree `q`, to its full depth, inside the objects `repr`. */
  ghost predicate Faithful(db: Database, q: AccountQuery, n: Account, repr: set<object>)
    reads n, repr
    decreases q
  {
    && n.scanned.id == n.origin.id && AccountScanned(q.fields, n)
    && n.origin in db.accounts
    && n.loaded == FlagsOf(q)
    && GroupsEdge(db, q.withGroups, n)
    && ProxyEdge(db, q.withProxy, n)
    && ParentEdge(db, q.withParent, n, repr)
    && ChildrenEdge(db, q.withChildren, n, repr)
    && UsageEdge(db, q.withUsageLogs, n)
    && LinksEdge(db, q.withLinks, n, repr)
  }

  ghost predicate LinkFaithful(db: Database, q: LinkQuery, l: AccountGroup, repr: set<object>)
    reads l, repr
    decreases q
  {
    && l.accountRequested == q.withAccount.Some? && l.groupRequested == q.withGroup.Some?
    && l.origin in db.links && LinkScanned(q.fields, l)
    && LinkAccountEdge(db, q.withAccount, l, repr)
    && LinkGroupEdge(db, q.withGroup, l)
  }

  /** The nodes of one query: the matching rows, each once, as distinct structs faithful to the query tree. */
  ghost predicate Answers(db: Database, q: AccountQuery, narrow: AccountRow -> bool, nodes: seq<Account>,
                          repr: set<object>)
    reads nodes, repr
  {
    && multiset(Map(nodes, AccountOrigin())) == multiset(Filter(db.accounts, Both(q.where, narrow)))
    && (forall i, j :: 0 <= i < j < |nodes| ==> nodes[i] != nodes[j])
    && AllFaithful(db, q, nodes, repr)
  }

  ghost predicate AllFaithful(db: Database, q: AccountQuery, nodes: seq<Account>, repr: set<object>)
    reads nodes, repr
  {
    forall n :: n in nodes ==> n in repr && Faithful(db, q, n, repr)
  }

  // ---------------------------------------------------------------- growing the footprint

  lemma {:induction false} FaithfulGrows(db: Database, q: AccountQuery, n: Account, small: set<object>,
                                         large: set<object>)
    requires Faithful(db, q, n, small) && small <= large
    ensures Faithful(db, q, n, large)
    decreases q
  {
    ParentGrows(db, q.withParent, n, small, large);
    ChildrenGrow(db, q.withChildren, n, small, large);
    LinksGrow(db, q.withLinks, n, small, large);
  }

  lemma {:induction false} ParentGrows(db: Database, q: Option<AccountQuery>, n: Account, small: set<object>,
                                       large: set<object>)
    requires ParentEdge(db, q, n, small) && small <= large
    ensures ParentEdge(db, q, n, large)
    decreases q
  {
    if q.Some? && n.parent != null {
      FaithfulGrows(db, q.value, n.parent, small, large);
    }
  }

  lemma {:induction false} ChildrenGrow(db: Database, q: Option<AccountQuery>, n: Account, small: set<object>,
                                        large: set<object>)
    requires ChildrenEdge(db, q, n, small) && small <= large
    ensures ChildrenEdge(db, q, n, large)
    decreases q
  {
    if q.Some? {
      forall c | c in n.children.value
        ensures c in large && Faithful(db, q.value, c, large)
      {
        FaithfulGrows(db, q.value, c, small, large);
      }
    }
  }

  lemma {:induction false} LinksGrow(db: Database, q: Option<LinkQuery>, n: Account, small: set<object>,
                                     large: set<object>)
    requires LinksEdge(db, q, n, small) && small <= large
    ensures LinksEdge(db, q, n, large)
    decreases q
  {
    if q.Some? {
      forall l | l in n.links.value
        ensures l in large && LinkFaithful(db, q.value, l, large)
      {
        LinkAccountGrows(db, q.value.withAccount, l, small, large);
      }
    }
  }

  lemma {:induction false} LinkAccountGrows(db: Database, q: Option<AccountQuery>, l: AccountGroup,
                                            small: set<object>, large: set<object>)
    requires LinkAccountEdge(db, q, l, small) && small <= large
    ensures LinkAccountEdge(db, q, l, large)
    decreases q
  {
    if q.Some? && l.account != null {
      FaithfulGrows(db, q.value, l.account, small, large);
    }
  }
}
