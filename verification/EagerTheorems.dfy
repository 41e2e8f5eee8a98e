/** What follows for callers from a faithful load: the edge accessors, and the relations between different edges. */
module EagerTheorems {
  import opened Prelude
  import opened Store
  import opened Entities
  import opened Loaders
  import opened EagerSpec
  import opened Outcomes
  import opened EagerLoad
  import opened Projection
  import RowScan

  // ---------------------------------------------------------------- accessors

  ghost predicate Exists<Row(!new)>(table: seq<Row>, matches: Row -> bool) {
    exists r :: r in table && matches(r)
  }

  /**
   The unique-edge accessors tell three cases apart: not requested, requested but without a row, and found, in which
   case they return the row the key names.
   */
  lemma {:induction false} UniqueAccessors(db: Database, q: AccountQuery, n: Account, repr: set<object>)
    requires Faithful(db, q, n, repr)
    ensures n.ProxyOrErr() == Err(NotLoaded("proxy")) <==> q.withProxy.None?
    ensures q.withProxy.Some? ==> var matches := ProxyWith(n.origin.proxyId, q.withProxy.value);
              if Exists(db.proxies, matches)
              then n.ProxyOrErr().Ok? && n.ProxyOrErr().value.row in db.proxies && matches(n.ProxyOrErr().value.row)
              else n.ProxyOrErr() == Err(NotFound("proxy"))
    ensures n.ParentOrErr() == Err(NotLoaded("parent")) <==> q.withParent.None?
    ensures q.withParent.Some? ==> var matches := AccountWith(n.origin.parentId, q.withParent.value);
              if Exists(db.accounts, matches)
              then n.ParentOrErr().Ok? && n.ParentOrErr().value.origin in db.accounts
                && matches(n.ParentOrErr().value.origin)
              else n.ParentOrErr() == Err(NotFound("account"))
  {
  }

  /** The list-edge accessors fail exactly when the edge was not requested, and otherwise return its rows, never nil. */
  lemma {:induction false} ListAccessors(db: Database, q: AccountQuery, n: Account, repr: set<object>)
    requires Faithful(db, q, n, repr)
    ensures n.GroupsOrErr() == Err(NotLoaded("groups")) <==> q.withGroups.None?
    ensures q.withGroups.Some? ==>
              && n.GroupsOrErr().Ok? && n.GroupsOrErr().value.Some?
              && forall r :: r in Map(n.GroupsOrErr().value.value, GroupRowOf()) <==>
                             && r in db.groups && q.withGroups.value.groups.where(r)
                             && LinkRow(n.origin.id, r.id) in db.links
                             && InJoins(db.links, q.withGroups.value.joins, r.id)
    ensures n.ChildrenOrErr() == Err(NotLoaded("children")) <==> q.withChildren.None?
    ensures q.withChildren.Some? ==>
              && n.ChildrenOrErr().Ok? && n.ChildrenOrErr().value.Some?
              && multiset(Map(n.ChildrenOrErr().value.value, AccountOrigin())) ==
                 multiset(Filter(db.accounts, ChildOf(n.origin.id, q.withChildren.value)))
    ensures n.UsageLogsOrErr() == Err(NotLoaded("usage_logs")) <==> q.withUsageLogs.None?
    ensures q.withUsageLogs.Some? ==>
              && n.UsageLogsOrErr().Ok? && n.UsageLogsOrErr().value.Some?
              && multiset(Map(n.UsageLogsOrErr().value.value, UsageOrigin())) ==
                 multiset(Filter(db.usageLogs, UsageOf(n.origin.id, q.withUsageLogs.value)))
    ensures n.AccountGroupsOrErr() == Err(NotLoaded("account_groups")) <==> q.withLinks.None?
    ensures q.withLinks.Some? ==>
              && n.AccountGroupsOrErr().Ok? && n.AccountGroupsOrErr().value.Some?
              && multiset(Map(n.AccountGroupsOrErr().value.value, LinkOrigin())) ==
                 multiset(Filter(db.links, LinkOf(n.origin.id, q.withLinks.value)))
  {
    assert GroupsEdge(db, q.withGroups, n) && ChildrenEdge(db, q.withChildren, n, repr);
    assert UsageEdge(db, q.withUsageLogs, n) && LinksEdge(db, q.withLinks, n, repr);
  }

  // ---------------------------------------------------------------- what was asked for survives

  /** Every column asked for was fetched, all of them without a selection, and the keys among them are the row's. */
  ghost predicate Keeps(fields: seq<RowScan.Column>, n: Account) {
    && (forall c: RowScan.Column :: c in fields ==> c in n.columns)
    && (fields == [] ==> n.columns == RowScan.ALL_COLUMNS && n.scanned == n.origin)
    && (forall c: RowScan.Column :: c in fields && IsKey(c) ==> KeyOf(n.scanned, c) == KeyOf(n.origin, c))
  }

  ghost predicate UsageKeeps(fields: seq<UsageColumn>, u: UsageLog) {
    && (forall c: UsageColumn :: c in fields ==> c in u.columns)
    && (fields == [] ==> u.columns == USAGE_COLUMNS && u.scanned == u.origin)
    && u.scanned.id == u.origin.id
    && (UsageAccountID in fields ==> u.scanned.accountId == u.origin.accountId)
  }

  ghost predicate LinkKeeps(fields: seq<LinkColumn>, l: AccountGroup) {
    && (forall c: LinkColumn :: c in fields ==> c in l.columns)
    && (fields == [] ==> l.columns == LINK_COLUMNS && l.scanned == l.origin)
    && (LinkAccountID in fields ==> l.scanned.accountId == l.origin.accountId)
    && (LinkGroupID in fields ==> l.scanned.groupId == l.origin.groupId)
  }

  lemma {:induction false} NodeKeeps(db: Database, q: AccountQuery, n: Account, repr: set<object>)
    requires Faithful(db, q, n, repr)
    ensures Keeps(q.fields, n)
  {
    AllColumnsShape();
    assert RowScan.ALL_COLUMNS[0] in RowScan.ALL_COLUMNS;
  }

  lemma {:induction false} LinkColumnsSurvive(db: Database, q: LinkQuery, l: AccountGroup, repr: set<object>)
    requires LinkFaithful(db, q, l, repr)
    ensures LinkKeeps(q.fields, l)
    ensures q.withAccount.Some? && l.account != null ==> Keeps(q.withAccount.value.fields, l.account)
  {
    assert LINK_COLUMNS[0] == LinkAccountID && LINK_COLUMNS[1] == LinkGroupID;
    if q.withAccount.Some? && l.account != null {
      assert LinkAccountEdge(db, q.withAccount, l, repr);
      NodeKeeps(db, q.withAccount.value, l.account, repr);
    }
  }

  /** Whatever each level selects, a faithful node and the nodes behind its edges hold every column asked for there. */
  lemma {:induction false} ColumnsSurvive(db: Database, q: AccountQuery, n: Account, repr: set<object>)
    requires Faithful(db, q, n, repr)
    ensures Keeps(q.fields, n)
    ensures q.withParent.Some? && n.parent != null ==> Keeps(q.withParent.value.fields, n.parent)
    ensures q.withChildren.Some? ==>
              n.children.Some? && forall c :: c in n.children.value ==> Keeps(q.withChildren.value.fields, c)
    ensures q.withUsageLogs.Some? ==>
              n.usageLogs.Some? && forall u :: u in n.usageLogs.value ==> UsageKeeps(q.withUsageLogs.value.fields, u)
    ensures q.withLinks.Some? ==>
              n.links.Some? && forall l :: l in n.links.value ==> LinkKeeps(q.withLinks.value.fields, l)
  {
    NodeKeeps(db, q, n, repr);
    if q.withParent.Some? && n.parent != null {
      assert ParentEdge(db, q.withParent, n, repr);
      NodeKeeps(db, q.withParent.value, n.parent, repr);
    }
    if q.withChildren.Some? {
      assert ChildrenEdge(db, q.withChildren, n, repr);
      forall c | c in n.children.value
        ensures Keeps(q.withChildren.value.fields, c)
      {
        NodeKeeps(db, q.withChildren.value, c, repr);
      }
    }
    assert UsageEdge(db, q.withUsageLogs, n) && LinksEdge(db, q.withLinks, n, repr);
    assert USAGE_COLUMNS[0] == UsageID && USAGE_COLUMNS[1] == UsageAccountID;
    if q.withLinks.Some? {
      forall l | l in n.links.value
        ensures LinkKeeps(q.withLinks.value.fields, l)
      {
        LinkColumnsSurvive(db, q.withLinks.value, l, repr);
      }
    }
  }

  // ---------------------------------------------------------------- two loads of the same edges

  ghost predicate SameGroups(n: Account, m: Account)
    reads n`groups, m`groups
  {
    && (n.groups.Some? <==> m.groups.Some?)
    && (n.groups.Some? ==>
          forall r :: r in Map(n.groups.value, GroupRowOf()) <==> r in Map(m.groups.value, GroupRowOf()))
  }

  ghost predicate SameUniques(n: Account, m: Account)
    reads n`proxy, n`parent, m`proxy, m`parent
  {
    && (n.proxy == null <==> m.proxy == null) && (n.proxy != null ==> n.proxy.row == m.proxy.row)
    && (n.parent == null <==> m.parent == null) && (n.parent != null ==> n.parent.origin == m.parent.origin)
  }

  ghost predicate SameLists(n: Account, m: Account)
    reads n`children, n`usageLogs, n`links, m`children, m`usageLogs, m`links
  {
    && (n.children.Some? <==> m.children.Some?) && (n.usageLogs.Some? <==> m.usageLogs.Some?)
    && (n.links.Some? <==> m.links.Some?)
    && (n.children.Some? ==>
          multiset(Map(n.children.value, AccountOrigin())) == multiset(Map(m.children.value, AccountOrigin())))
    && (n.usageLogs.Some? ==>
          multiset(Map(n.usageLogs.value, UsageOrigin())) == multiset(Map(m.usageLogs.value, UsageOrigin())))
    && (n.links.Some? ==> multiset(Map(n.links.value, LinkOrigin())) == multiset(Map(m.links.value, LinkOrigin())))
  }

  /** The same edges requested with the same predicates, at every level, under any projections. */
  ghost predicate Reprojected(q: AccountQuery, p: AccountQuery)
    decreases q
  {
    && (forall r :: q.where(r) == p.where(r))
    && q.withGroups == p.withGroups && q.withProxy == p.withProxy
    && (q.withParent.Some? <==> p.withParent.Some?)
    && (q.withParent.Some? ==> Reprojected(q.withParent.value, p.withParent.value))
    && (q.withChildren.Some? <==> p.withChildren.Some?)
    && (q.withChildren.Some? ==> Reprojected(q.withChildren.value, p.withChildren.value))
    && (q.withUsageLogs.Some? <==> p.withUsageLogs.Some?)
    && (q.withUsageLogs.Some? ==> forall r :: q.withUsageLogs.value.where(r) == p.withUsageLogs.value.where(r))
    && (q.withLinks.Some? <==> p.withLinks.Some?)
    && (q.withLinks.Some? ==> LinksReprojected(q.withLinks.value, p.withLinks.value))
  }

  ghost predicate LinksReprojected(q: LinkQuery, p: LinkQuery)
    decreases q
  {
    && (forall r :: q.where(r) == p.where(r))
    && q.withGroup == p.withGroup
    && (q.withAccount.Some? <==> p.withAccount.Some?)
    && (q.withAccount.Some? ==> Reprojected(q.withAccount.value, p.withAccount.value))
  }

  /** Two nodes carry the same tree of rows: the same edges, and the same trees behind them. */
  ghost predicate SameTree(q: AccountQuery, n: Account, m: Account, repr: set<object>, other: set<object>)
    reads n, m, repr, other
    decreases q
  {
    && n.origin == m.origin && SameUniques(n, m) && SameGroups(n, m) && SameLists(n, m)
    && (q.withParent.Some? && n.parent != null && m.parent != null ==>
          && n.parent in repr && m.parent in other
          && SameTree(q.withParent.value, n.parent, m.parent, repr, other))
    && (q.withChildren.Some? && n.children.Some? && m.children.Some? ==>
          forall c, d :: c in n.children.value && d in m.children.value && c.origin == d.origin ==>
            c in repr && d in other && SameTree(q.withChildren.value, c, d, repr, other))
    && (q.withLinks.Some? && n.links.Some? && m.links.Some? ==>
          forall l, k :: l in n.links.value && k in m.links.value && l.origin == k.origin ==>
            l in repr && k in other && SameLink(q.withLinks.value, l, k, repr, other))
  }

  ghost predicate SameLink(q: LinkQuery, l: AccountGroup, k: AccountGroup, repr: set<object>, other: set<object>)
    reads l, k, repr, other
    decreases q
  {
    && l.origin == k.origin
    && (l.group == null <==> k.group == null) && (l.group != null ==> l.group.row == k.group.row)
    && (l.account == null <==> k.account == null)
    && (q.withAccount.Some? && l.account != null && k.account != null ==>
          && l.account in repr && k.account in other
          && SameTree(q.withAccount.value, l.account, k.account, repr, other))
  }

  lemma {:induction false} SameIdSameRow(db: Database, a: AccountRow, b: AccountRow)
    requires db.Valid() && a in db.accounts && b in db.accounts && a.id == b.id
    ensures a == b
  {
    var i :| 0 <= i < |db.accounts| && db.accounts[i] == a;
    var j :| 0 <= j < |db.accounts| && db.accounts[j] == b;
    assert i < j || j < i || i == j;
  }

  /** A lookup by id has one answer. */
  lemma {:induction false} SameLookup(db: Database, key: Option<Id>, q: AccountQuery, p: AccountQuery,
                                      a: Option<AccountRow>, b: Option<AccountRow>)
    requires db.Valid() && forall r :: q.where(r) == p.where(r)
    requires Resolves(db.accounts, AccountWith(key, q), a) && Resolves(db.accounts, AccountWith(key, p), b)
    ensures a == b
  {
    assert forall r: AccountRow :: AccountWith(key, q)(r) == AccountWith(key, p)(r);
    if a.Some? && b.Some? {
      SameIdSameRow(db, a.value, b.value);
    }
  }

  lemma {:induction false} SameEdges(db: Database, q: AccountQuery, p: AccountQuery,
                                     n: Account, m: Account, repr: set<object>, other: set<object>)
    requires db.Valid() && n.origin == m.origin && Reprojected(q, p)
    requires Faithful(db, q, n, repr) && Faithful(db, p, m, other)
    ensures SameUniques(n, m) && SameGroups(n, m)
  {
    if q.withProxy.Some? {
      var matches := ProxyWith(n.origin.proxyId, q.withProxy.value);
      assert n.proxy != null ==> matches(n.proxy.row);
      assert m.proxy != null ==> matches(m.proxy.row);
    }
    if q.withParent.Some? {
      assert ParentEdge(db, q.withParent, n, repr) && ParentEdge(db, p.withParent, m, other);
      SameLookup(db, n.origin.parentId, q.withParent.value, p.withParent.value,
                 if n.parent == null then None else Some(n.parent.origin),
                 if m.parent == null then None else Some(m.parent.origin));
    }
    assert GroupsEdge(db, q.withGroups, n) && GroupsEdge(db, q.withGroups, m);
  }

  lemma {:induction false} SameListEdges(db: Database, q: AccountQuery, p: AccountQuery,
                                         n: Account, m: Account, repr: set<object>, other: set<object>)
    requires n.origin == m.origin && Reprojected(q, p)
    requires Faithful(db, q, n, repr) && Faithful(db, p, m, other)
    ensures SameLists(n, m)
  {
    assert ChildrenEdge(db, q.withChildren, n, repr) && ChildrenEdge(db, p.withChildren, m, other);
    assert UsageEdge(db, q.withUsageLogs, n) && UsageEdge(db, p.withUsageLogs, m);
    assert LinksEdge(db, q.withLinks, n, repr) && LinksEdge(db, p.withLinks, m, other);
    var id := n.origin.id;
    if q.withChildren.Some? {
      FilterSame(db.accounts, ChildOf(id, q.withChildren.value), ChildOf(id, p.withChildren.value));
    }
    if q.withUsageLogs.Some? {
      FilterSame(db.usageLogs, UsageOf(id, q.withUsageLogs.value), UsageOf(id, p.withUsageLogs.value));
    }
    if q.withLinks.Some? {
      FilterSame(db.links, LinkOf(id, q.withLinks.value), LinkOf(id, p.withLinks.value));
    }
  }

  /**
   Two loads of one account with the same edges requested, under any projections at any level and whatever the driver's
   order, give it the same tree of rows: nothing that is loaded depends on what is selected.
   */
  lemma {:induction false} ProjectionIrrelevant(db: Database, q: AccountQuery, p: AccountQuery,
                                                n: Account, m: Account, repr: set<object>, other: set<object>)
    requires db.Valid() && n.origin == m.origin && Reprojected(q, p)
    requires Faithful(db, q, n, repr) && Faithful(db, p, m, other)
    ensures SameTree(q, n, m, repr, other)
    decreases q
  {
    SameEdges(db, q, p, n, m, repr, other);
    SameListEdges(db, q, p, n, m, repr, other);
    if q.withParent.Some? && n.parent != null && m.parent != null {
      ProjectionIrrelevant(db, q.withParent.value, p.withParent.value, n.parent, m.parent, repr, other);
    }
    if q.withChildren.Some? {
      forall c, d | c in n.children.value && d in m.children.value && c.origin == d.origin
        ensures c in repr && d in other && SameTree(q.withChildren.value, c, d, repr, other)
      {
        ProjectionIrrelevant(db, q.withChildren.value, p.withChildren.value, c, d, repr, other);
      }
    }
    if q.withLinks.Some? {
      forall l, k | l in n.links.value && k in m.links.value && l.origin == k.origin
        ensures l in repr && k in other && SameLink(q.withLinks.value, l, k, repr, other)
      {
        LinksAreSame(db, q.withLinks.value, p.withLinks.value, l, k, repr, other);
      }
    }
  }

  lemma {:induction false} LinksAreSame(db: Database, q: LinkQuery, p: LinkQuery,
                                        l: AccountGroup, k: AccountGroup, repr: set<object>, other: set<object>)
    requires db.Valid() && l.origin == k.origin && LinksReprojected(q, p)
    requires LinkFaithful(db, q, l, repr) && LinkFaithful(db, p, k, other)
    ensures SameLink(q, l, k, repr, other)
    decreases q
  {
    assert LinkGroupEdge(db, q.withGroup, l) && LinkGroupEdge(db, q.withGroup, k);
    if q.withGroup.Some? {
      var matches := GroupWith(Some(l.origin.groupId), q.withGroup.value);
      assert l.group != null ==> matches(l.group.row);
      assert k.group != null ==> matches(k.group.row);
    }
    if q.withAccount.Some? {
      assert LinkAccountEdge(db, q.withAccount, l, repr) && LinkAccountEdge(db, p.withAccount, k, other);
      SameLookup(db, Some(l.origin.accountId), q.withAccount.value, p.withAccount.value,
                 if l.account == null then None else Some(l.account.origin),
                 if k.account == null then None else Some(k.account.origin));
      if l.account != null {
        ProjectionIrrelevant(db, q.withAccount.value, p.withAccount.value, l.account, k.account, repr, other);
      }
    }
  }

  /** The same accounts, each with the same tree. */
  ghost predicate SameAnswers(q: AccountQuery, first: seq<Account>, second: seq<Account>, repr: set<object>,
                              other: set<object>)
    reads first, second, repr, other
  {
    && multiset(Map(first, AccountOrigin())) == multiset(Map(second, AccountOrigin()))
    && forall n, m :: n in first && m in second && n.origin == m.origin ==> SameTree(q, n, m, repr, other)
  }

  lemma {:induction false} AnswersAreSame(db: Database, q: AccountQuery, p: AccountQuery, narrow: AccountRow -> bool,
                                          first: seq<Account>, second: seq<Account>, repr: set<object>,
                                          other: set<object>)
    requires db.Valid() && Reprojected(q, p)
    requires Answers(db, q, narrow, first, repr) && Answers(db, p, narrow, second, other)
    ensures SameAnswers(q, first, second, repr, other)
  {
    FilterSame(db.accounts, Both(q.where, narrow), Both(p.where, narrow));
    forall n, m | n in first && m in second && n.origin == m.origin
      ensures SameTree(q, n, m, repr, other)
    {
      ProjectionIrrelevant(db, q, p, n, m, repr, other);
    }
  }

  /**
   `AccountQuery.All` as callers use it. With a reliable driver and valid field names there is always an answer, unless
   the run reaches a group query that an earlier run has joined already; a fresh query has no such group query.
   */
  method Load(db: Database, q: AccountQuery) returns (r: Result<seq<Account>>, ghost repr: set<object>)
    requires db.Valid()
    ensures r.Ok? ==> Answers(db, q, Anything(), r.value, repr)
    ensures Outcome(db, QueryFails(db, q, q.fields, Anything()), Failure(r))
    ensures db.reliable && ValidQuery(q) ==> r == Err(Panic) || r.Ok?
    ensures FreshQuery(q) ==> r != Err(Panic)
    ensures !ValidFields(q.fields) ==> r == Err(InvalidField)
  {
    FailsForACause(db, q, q.fields, Anything());
    r, repr := All(db, q, q.fields, Anything());
  }

  /** Two calls of `All` that differ in their projections only have the same answer. */
  method LoadTwice(db: Database, q: AccountQuery, p: AccountQuery)
    returns (first: Result<seq<Account>>, second: Result<seq<Account>>, ghost repr: set<object>,
             ghost other: set<object>)
    requires db.Valid() && Reprojected(q, p)
    ensures first.Ok? ==> Answers(db, q, Anything(), first.value, repr)
    ensures second.Ok? ==> Answers(db, p, Anything(), second.value, other)
    ensures first.Ok? && second.Ok? ==> SameAnswers(q, first.value, second.value, repr, other)
    ensures db.reliable && ValidQuery(q) && ValidQuery(p) && FreshQuery(q) && FreshQuery(p) ==> first.Ok? && second.Ok?
  {
    first, repr := Load(db, q);
    second, other := Load(db, p);
    if first.Ok? && second.Ok? {
      AnswersAreSame(db, q, p, Anything(), first.value, second.value, repr, other);
    }
  }

  // ---------------------------------------------------------------- two routes to the same groups

  /** The groups reached through the join entities; a link whose group is missing or filtered out contributes none. */
  ghost predicate ReachedByLinks(n: Account, r: GroupRow)
    reads n, if n.links.Some? then n.links.value else []
  {
    n.links.Some? && exists l :: l in n.links.value && l.group != null && l.group.row == r
  }

  /**
   The many-to-many edge and the route over the join entity meet the same groups, provided both filter groups alike;
   a filter on the join entity narrows the second route to the links that pass it, joins that earlier runs left on the
   group query narrow the first, and nothing else does.
   */
  lemma {:induction false} TwoRoutesAgree(db: Database, q: AccountQuery, n: Account, repr: set<object>, r: GroupRow)
    requires Faithful(db, q, n, repr)
    requires q.withGroups.Some? && q.withLinks.Some? && q.withLinks.value.withGroup.Some?
    requires forall g :: q.withGroups.value.groups.where(g) == q.withLinks.value.withGroup.value.where(g)
    ensures ReachedByLinks(n, r) && InJoins(db.links, q.withGroups.value.joins, r.id) <==>
            n.groups.Some? && r in Map(n.groups.value, GroupRowOf())
              && q.withLinks.value.where(LinkRow(n.origin.id, r.id))
  {
    var lq := q.withLinks.value;
    var gq := lq.withGroup.value;
    assert LinksEdge(db, q.withLinks, n, repr) && GroupsEdge(db, q.withGroups, n);
    var links: seq<AccountGroup> := n.links.value;
    AnswerWasAsked(links, LinkOrigin(), db.links, LinkOf(n.origin.id, lq));
    if ReachedByLinks(n, r) {
      var l :| l in links && l.group != null && l.group.row == r;
      assert LinkFaithful(db, lq, l, repr);
    }
    if r in Map(n.groups.value, GroupRowOf()) && lq.where(LinkRow(n.origin.id, r.id)) {
      var link := LinkRow(n.origin.id, r.id);
      FilterMembers(db.links, LinkOf(n.origin.id, lq));
      assert link in Filter(db.links, LinkOf(n.origin.id, lq));
      SameMembers(Map(links, LinkOrigin()), Filter(db.links, LinkOf(n.origin.id, lq)));
      var i :| 0 <= i < |links| && Map(links, LinkOrigin())[i] == link;
      var l := links[i];
      assert l in links && LinkFaithful(db, lq, l, repr);
      assert GroupWith(Some(l.origin.groupId), gq)(r);
      assert l.group != null && l.group.row == r;
    }
  }

  /** The groups behind some join entities, one for each entity that has one. */
  ghost function LinkedGroups(links: seq<AccountGroup>): seq<GroupRow>
    reads links
  {
    if links == [] then []
    else (if links[0].group != null then [links[0].group.row] else []) + LinkedGroups(links[1..])
  }

  lemma {:induction false} LinkedMembers(links: seq<AccountGroup>, r: GroupRow)
    ensures r in LinkedGroups(links) <==> exists l :: l in links && l.group != null && l.group.row == r
  {
    if links != [] {
      LinkedMembers(links[1..], r);
      assert links == [links[0]] + links[1..];
    }
  }

  lemma {:induction false} LinkedNeverRepeat(links: seq<AccountGroup>, id: Id)
    requires forall l :: l in links ==>
              l.origin.accountId == id && (l.group != null ==> l.group.row.id == l.origin.groupId)
    requires NoRepeats(Map(links, LinkOrigin()))
    ensures NoRepeats(LinkedGroups(links))
  {
    if links != [] {
      var l, rest := links[0], links[1..];
      assert Map(links, LinkOrigin())[1..] == Map(rest, LinkOrigin());
      LinkedNeverRepeat(rest, id);
      if l.group != null {
        LinkedMembers(rest, l.group.row);
        forall k | k in rest && k.group != null
          ensures k.group.row != l.group.row
        {
          var i :| 0 <= i < |rest| && rest[i] == k;
          assert links[i + 1] == k && k in links;
          assert Map(links, LinkOrigin())[0] != Map(links, LinkOrigin())[i + 1];
        }
      }
    }
  }

  function Passes(q: LinkQuery, id: Id): GroupRow -> bool {
    (r: GroupRow) => q.where(LinkRow(id, r.id))
  }

  ghost function PassesJoins(db: Database, q: GroupsQuery): GroupRow -> bool {
    (r: GroupRow) => InJoins(db.links, q.joins, r.id)
  }

  /** With the primary key of the join table, both routes meet every group equally often: once. */
  lemma {:induction false} TwoRoutesCountAlike(db: Database, q: AccountQuery, n: Account, repr: set<object>)
    requires db.LinksAreKeyed() && Faithful(db, q, n, repr)
    requires q.withGroups.Some? && q.withLinks.Some? && q.withLinks.value.withGroup.Some?
    requires forall g :: q.withGroups.value.groups.where(g) == q.withLinks.value.withGroup.value.where(g)
    ensures n.groups.Some? && n.links.Some?
    ensures multiset(Filter(LinkedGroups(n.links.value), PassesJoins(db, q.withGroups.value))) ==
            multiset(Filter(Map(n.groups.value, GroupRowOf()), Passes(q.withLinks.value, n.origin.id)))
  {
    var lq, id := q.withLinks.value, n.origin.id;
    assert LinksEdge(db, q.withLinks, n, repr) && GroupsEdge(db, q.withGroups, n);
    var links: seq<AccountGroup>, rows := n.links.value, Map(n.groups.value, GroupRowOf());
    var direct := Filter(rows, Passes(lq, id));
    var linked := Filter(LinkedGroups(links), PassesJoins(db, q.withGroups.value));
    AnswerWasAsked(links, LinkOrigin(), db.links, LinkOf(id, lq));
    SelectionNeverRepeats(db.links, LinkOf(id, lq), Map(links, LinkOrigin()));
    forall l | l in links
      ensures l.group != null ==> l.group.row.id == l.origin.groupId
    {
      assert LinkFaithful(db, lq, l, repr);
    }
    LinkedNeverRepeat(links, id);
    SelectionNeverRepeats(LinkedGroups(links), PassesJoins(db, q.withGroups.value), linked);
    FilterMembers(LinkedGroups(links), PassesJoins(db, q.withGroups.value));
    assert NoRepeats(rows) by {
      assert forall i :: 0 <= i < |rows| ==> rows[i].id == n.groups.value[i].row.id;
    }
    SelectionNeverRepeats(rows, Passes(lq, id), direct);
    FilterMembers(rows, Passes(lq, id));
    forall r
      ensures r in linked <==> r in direct
    {
      LinkedMembers(links, r);
      TwoRoutesAgree(db, q, n, repr, r);
    }
    SameMembersSameCount(linked, direct);
  }

  // ---------------------------------------------------------------- parent and children are converse

  /**
   For two loaded accounts that pass each other's edge filter: `p` is the parent of `c` iff `c` is among its children.
   */
  lemma {:induction false} ParentChildDuality(db: Database, q: AccountQuery, p: Account, c: Account, repr: set<object>)
    requires db.Valid() && Faithful(db, q, p, repr) && Faithful(db, q, c, repr)
    requires q.withParent.Some? && q.withChildren.Some?
    requires q.withParent.value.where(p.origin) && q.withChildren.value.where(c.origin)
    ensures (c.parent != null && c.parent.origin.id == p.origin.id) <==>
            p.children.Some? && exists k :: k in p.children.value && k.origin.id == c.origin.id
  {
    var pq, cq := q.withParent.value, q.withChildren.value;
    assert ChildrenEdge(db, q.withChildren, p, repr) && ParentEdge(db, q.withParent, c, repr);
    var kids: seq<Account> := p.children.value;
    AnswerWasAsked(kids, AccountOrigin(), db.accounts, ChildOf(p.origin.id, cq));
    if c.parent != null && c.parent.origin.id == p.origin.id {
      assert AccountWith(c.origin.parentId, pq)(c.parent.origin);
      FilterMembers(db.accounts, ChildOf(p.origin.id, cq));
      assert c.origin in Filter(db.accounts, ChildOf(p.origin.id, cq));
      SameMembers(Map(kids, AccountOrigin()), Filter(db.accounts, ChildOf(p.origin.id, cq)));
      var i :| 0 <= i < |kids| && Map(kids, AccountOrigin())[i] == c.origin;
      assert kids[i] in kids && kids[i].origin.id == c.origin.id;
    }
    if k :| k in kids && k.origin.id == c.origin.id {
      SameIdSameRow(db, k.origin, c.origin);
      assert AccountWith(c.origin.parentId, pq)(p.origin);
      assert c.parent != null && AccountWith(c.origin.parentId, pq)(c.parent.origin);
    }
  }
}
