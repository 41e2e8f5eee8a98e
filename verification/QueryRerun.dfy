/**
 A whole query tree used again. Every loader of a run leaves its `IN` predicate on the nested query object it was given,
 the list-edge loaders their foreign key among its fields, and `loadGroups` its join. The root itself is not narrowed,
 so over unchanged tables a second run asks for the same keys at every level, and the predicates left behind exclude
 nothing that it needs; but a level whose groups were joined once is joined twice, and panics if it returns a row.
 */
module QueryRerun {
  import opened Prelude
  import opened Store
  import opened Entities
  import opened Loaders
  import opened EagerSpec
  import opened Outcomes
  import opened EagerTheorems
  import opened Projection
  import RowScan

  // ---------------------------------------------------------------- what a run leaves behind

  function WithField<T(==)>(fields: seq<T>, f: T): seq<T> {
    if fields == [] then [] else AddOnce(fields, f)
  }

  /** The query tree after a run whose nodes were the accounts `rows`; without nodes no loader runs. */
  function After(db: Database, q: AccountQuery, rows: seq<AccountRow>): (after: AccountQuery)
    ensures after.fields == q.fields && after.where == q.where && FlagsOf(after) == FlagsOf(q)
    decreases q, 0
  {
    if rows == [] then q
    else
      AccountQuery(q.fields, q.where, AfterGroups(q.withGroups, rows), AfterProxy(q.withProxy, rows),
                   AfterParent(db, q.withParent, rows), AfterChildren(db, q.withChildren, rows),
                   AfterUsage(q.withUsageLogs, rows), AfterLinks(db, q.withLinks, rows))
  }

  function AfterGroups(q: Option<GroupsQuery>, rows: seq<AccountRow>): Option<GroupsQuery> {
    if q.None? then q else Some(q.value.(joins := q.value.joins + [Map(rows, RowId())]))
  }

  function AfterProxy(q: Option<ProxyQuery>, rows: seq<AccountRow>): Option<ProxyQuery> {
    var keys := KeysOf(rows, RowProxy());
    if q.None? || keys == [] then q else Some(ProxyQuery(ProxyIn(keys, q.value)))
  }

  /** A nested account query after a run under one more predicate. */
  function Narrowed(db: Database, q: AccountQuery, narrow: AccountRow -> bool,
                    fields: seq<RowScan.Column>): (after: AccountQuery)
    ensures after.where == Both(q.where, narrow) && after.fields == fields
    decreases q, 1
  {
    After(db, q, Filter(db.accounts, Both(q.where, narrow))).(where := Both(q.where, narrow), fields := fields)
  }

  function AfterParent(db: Database, q: Option<AccountQuery>, rows: seq<AccountRow>): (after: Option<AccountQuery>)
    ensures after.Some? <==> q.Some?
    decreases q
  {
    var keys := KeysOf(rows, RowParent());
    if q.None? || keys == [] then q else Some(Narrowed(db, q.value, AccountIn(keys), q.value.fields))
  }

  function AfterChildren(db: Database, q: Option<AccountQuery>, rows: seq<AccountRow>): (after: Option<AccountQuery>)
    ensures after.Some? <==> q.Some?
    decreases q
  {
    if q.None? then q
    else Some(Narrowed(db, q.value, ChildIn(Map(rows, RowId())), WithField(q.value.fields, RowScan.ParentAccountID)))
  }

  function AfterUsage(q: Option<UsageQuery>, rows: seq<AccountRow>): Option<UsageQuery> {
    if q.None? then q
    else Some(UsageQuery(WithField(q.value.fields, UsageAccountID), UsageIn(Map(rows, RowId()), q.value)))
  }

  function AfterLinks(db: Database, q: Option<LinkQuery>, rows: seq<AccountRow>): (after: Option<LinkQuery>)
    ensures after.Some? <==> q.Some?
    decreases q
  {
    if q.None? then q
    else
      var lq := q.value;
      var joined := LinkIn(Map(rows, RowId()), lq);
      var links := Filter(db.links, joined);
      Some(LinkQuery(WithField(lq.fields, LinkAccountID), joined, AfterAccount(db, lq.withAccount, links),
                     AfterGroup(lq.withGroup, links)))
  }

  function AfterAccount(db: Database, q: Option<AccountQuery>, links: seq<LinkRow>): (after: Option<AccountQuery>)
    ensures after.Some? <==> q.Some?
    decreases q
  {
    if q.None? || links == [] then q
      else Some(Narrowed(db, q.value, AccountIn(Map(links, LinkAccountOf())), q.value.fields))
  }

  function AfterGroup(q: Option<GroupQuery>, links: seq<LinkRow>): Option<GroupQuery> {
    if q.None? || links == [] then q else Some(GroupQuery(GroupIn(Map(links, LinkGroupOf()), q.value)))
  }

  /** The list-edge loaders leave their foreign key in a selection, and no selection where there was none. */
  lemma {:induction false} LeavesForeignKeys(db: Database, c: AccountQuery, u: UsageQuery, l: LinkQuery,
                                             rows: seq<AccountRow>)
    ensures var after := AfterChildren(db, Some(c), rows).value.fields;
            && (c.fields == [] ==> after == [])
            && (c.fields != [] ==> c.fields <= after && RowScan.ParentAccountID in after)
    ensures var after := AfterUsage(Some(u), rows).value.fields;
            && (u.fields == [] ==> after == []) && (u.fields != [] ==> u.fields <= after && UsageAccountID in after)
    ensures var after := AfterLinks(db, Some(l), rows).value.fields;
            && (l.fields == [] ==> after == []) && (l.fields != [] ==> l.fields <= after && LinkAccountID in after)
  {
  }

  // ---------------------------------------------------------------- it asks for everything that is needed again

  lemma {:induction false} KeyIsAsked(rows: seq<AccountRow>, key: AccountRow -> Option<Id>, r: AccountRow)
    requires r in rows && key(r).Some?
    ensures key(r).value in KeysOf(rows, key)
  {
    var n := |rows| - 1;
    assert rows == rows[..n] + [rows[n]];
    if r != rows[n] {
      KeyIsAsked(rows[..n], key, r);
    }
  }

  lemma {:induction false} IsMapped<A, B>(s: seq<A>, f: A -> B, x: A)
    requires x in s
    ensures f(x) in Map(s, f)
  {
    var i :| 0 <= i < |s| && s[i] == x;
    assert Map(s, f)[i] == f(x);
  }

  /** The account's own link satisfies the join that was left for it. */
  lemma {:induction false} GroupsStay(db: Database, q: Option<GroupsQuery>, rows: seq<AccountRow>, n: Account)
    requires n.origin in rows && GroupsEdge(db, AfterGroups(q, rows), n)
    ensures GroupsEdge(db, q, n)
  {
    if q.Some? {
      var ids := Map(rows, RowId());
      IsMapped(rows, RowId(), n.origin);
      forall r: GroupRow | LinkRow(n.origin.id, r.id) in db.links
        ensures InJoins(db.links, q.value.joins + [ids], r.id) <==> InJoins(db.links, q.value.joins, r.id)
      {
        OneMoreJoin(db, q.value.joins, ids, n.origin.id, r.id);
      }
    }
  }

  lemma {:induction false} OneMoreJoin(db: Database, joins: seq<seq<Id>>, ids: seq<Id>, a: Id, g: Id)
    requires LinkRow(a, g) in db.links && a in ids
    ensures InJoins(db.links, joins + [ids], g) <==> InJoins(db.links, joins, g)
  {
    var l := LinkRow(a, g);
    assert l in db.links && l.groupId == g && l.accountId in ids;
    assert Linked(db.links, ids, g);
    assert forall accounts :: accounts in joins + [ids] <==> accounts in joins || accounts == ids;
  }

  lemma {:induction false} ProxyStays(db: Database, q: Option<ProxyQuery>, rows: seq<AccountRow>, n: Account)
    requires n.origin in rows && ProxyEdge(db, AfterProxy(q, rows), n)
    ensures ProxyEdge(db, q, n)
  {
    if q.Some? && n.origin.proxyId.Some? {
      KeyIsAsked(rows, RowProxy(), n.origin);
    }
  }

  lemma {:induction false} WithFieldMembers<T>(fields: seq<T>, f: T)
    ensures Extends(WithField(fields, f), fields)
    ensures forall c :: c in WithField(fields, f) ==> c in fields || c == f
  {
  }

  /** What a node must satisfy does not depend on the root's own predicate, and a longer selection only adds to it. */
  lemma {:induction false} RootIsFree(db: Database, q: AccountQuery, where: AccountRow -> bool,
                                      fields: seq<RowScan.Column>,
                                      n: Account, repr: set<object>)
    requires Extends(fields, q.fields) && Faithful(db, q.(where := where, fields := fields), n, repr)
    ensures Faithful(db, q, n, repr)
  {
    FetchedLess(fields, q.fields, n.columns, RowScan.ALL_COLUMNS);
  }

  /** The step from a nested query as a run left it to the one the caller wrote. */
  lemma {:induction false} NestedStays(db: Database, q: AccountQuery, narrow: AccountRow -> bool,
                                       fields: seq<RowScan.Column>,
                                       n: Account, repr: set<object>)
    requires n.origin in db.accounts && q.where(n.origin) && narrow(n.origin)
    requires Extends(fields, q.fields) && Faithful(db, Narrowed(db, q, narrow, fields), n, repr)
    ensures Faithful(db, q, n, repr)
    decreases q, 1
  {
    var rows := Filter(db.accounts, Both(q.where, narrow));
    FilterMembers(db.accounts, Both(q.where, narrow));
    assert Both(q.where, narrow)(n.origin);
    RootIsFree(db, After(db, q, rows), Both(q.where, narrow), fields, n, repr);
    FaithfulAgain(db, q, rows, n, repr);
  }

  lemma {:induction false} ParentStays(db: Database, q: Option<AccountQuery>, rows: seq<AccountRow>, n: Account,
                                       repr: set<object>)
    requires n.origin in rows && ParentEdge(db, AfterParent(db, q, rows), n, repr)
    ensures ParentEdge(db, q, n, repr)
    decreases q
  {
    var keys := KeysOf(rows, RowParent());
    if q.Some? && keys != [] {
      if n.origin.parentId.Some? {
        KeyIsAsked(rows, RowParent(), n.origin);
      }
      if n.parent != null {
        NestedStays(db, q.value, AccountIn(keys), q.value.fields, n.parent, repr);
      }
    }
  }

  lemma {:induction false} ChildrenStay(db: Database, q: Option<AccountQuery>, rows: seq<AccountRow>, n: Account,
                                        repr: set<object>)
    requires n.origin in rows && ChildrenEdge(db, AfterChildren(db, q, rows), n, repr)
    ensures ChildrenEdge(db, q, n, repr)
    decreases q
  {
    if q.Some? {
      var ids, cq := Map(rows, RowId()), q.value;
      var after := AfterChildren(db, q, rows).value;
      IsMapped(rows, RowId(), n.origin);
      WithFieldMembers(cq.fields, RowScan.ParentAccountID);
      FilterSame(db.accounts, ChildOf(n.origin.id, after), ChildOf(n.origin.id, cq));
      AnswerWasAsked(n.children.value, AccountOrigin(), db.accounts, ChildOf(n.origin.id, cq));
      forall c | c in n.children.value
        ensures Faithful(db, cq, c, repr)
      {
        NestedStays(db, cq, ChildIn(ids), WithField(cq.fields, RowScan.ParentAccountID), c, repr);
      }
    }
  }

  lemma {:induction false} UsageStays(db: Database, q: Option<UsageQuery>, rows: seq<AccountRow>, n: Account)
    requires n.origin in rows && UsageEdge(db, AfterUsage(q, rows), n)
    ensures UsageEdge(db, q, n)
  {
    if q.Some? {
      var fields := q.value.fields;
      WithFieldMembers(fields, UsageAccountID);
      forall u | u in n.usageLogs.value
        ensures UsageScanned(fields, u)
      {
        FetchedLess(WithField(fields, UsageAccountID), fields, u.columns, USAGE_COLUMNS);
      }
      IsMapped(rows, RowId(), n.origin);
      FilterSame(db.usageLogs, UsageOf(n.origin.id, AfterUsage(q, rows).value), UsageOf(n.origin.id, q.value));
    }
  }

  lemma {:induction false} LinksStay(db: Database, q: Option<LinkQuery>, rows: seq<AccountRow>, n: Account,
                                     repr: set<object>)
    requires n.origin in rows && LinksEdge(db, AfterLinks(db, q, rows), n, repr)
    ensures LinksEdge(db, q, n, repr)
    decreases q
  {
    if q.Some? {
      var lq, after := q.value, AfterLinks(db, q, rows).value;
      var joined := LinkIn(Map(rows, RowId()), lq);
      IsMapped(rows, RowId(), n.origin);
      FilterSame(db.links, LinkOf(n.origin.id, after), LinkOf(n.origin.id, lq));
      AnswerWasAsked(n.links.value, LinkOrigin(), db.links, LinkOf(n.origin.id, lq));
      FilterMembers(db.links, joined);
      WithFieldMembers(lq.fields, LinkAccountID);
      forall l | l in n.links.value
        ensures LinkFaithful(db, lq, l, repr)
      {
        FetchedLess(after.fields, lq.fields, l.columns, LINK_COLUMNS);
        assert joined(l.origin);
        LinkStays(db, lq, Filter(db.links, joined), l, repr);
      }
    }
  }

  lemma {:induction false} LinkStays(db: Database, lq: LinkQuery, links: seq<LinkRow>, l: AccountGroup,
                                     repr: set<object>)
    requires l.origin in links && l.origin in db.links && LinkScanned(lq.fields, l)
    requires l.accountRequested == lq.withAccount.Some? && l.groupRequested == lq.withGroup.Some?
    requires LinkAccountEdge(db, AfterAccount(db, lq.withAccount, links), l, repr)
    requires LinkGroupEdge(db, AfterGroup(lq.withGroup, links), l)
    ensures LinkFaithful(db, lq, l, repr)
    decreases lq
  {
    IsMapped(links, LinkAccountOf(), l.origin);
    IsMapped(links, LinkGroupOf(), l.origin);
    if lq.withAccount.Some? && l.account != null {
      var aq := lq.withAccount.value;
      NestedStays(db, aq, AccountIn(Map(links, LinkAccountOf())), aq.fields, l.account, repr);
    }
  }

  /** A node loaded by the tree that a run left behind is as the tree the caller wrote would have loaded it. */
  lemma {:induction false} FaithfulAgain(db: Database, q: AccountQuery, rows: seq<AccountRow>, n: Account,
                                         repr: set<object>)
    requires n.origin in rows && Faithful(db, After(db, q, rows), n, repr)
    ensures Faithful(db, q, n, repr)
    decreases q, 0
  {
    var after := After(db, q, rows);
    GroupsStay(db, q.withGroups, rows, n);
    ProxyStays(db, q.withProxy, rows, n);
    ParentStays(db, q.withParent, rows, n, repr);
    ChildrenStay(db, q.withChildren, rows, n, repr);
    UsageStays(db, q.withUsageLogs, rows, n);
    LinksStay(db, q.withLinks, rows, n, repr);
    assert FlagsOf(after) == FlagsOf(q);
  }

  // ---------------------------------------------------------------- a run adds no invalid field name

  lemma {:induction false} NarrowedStaysValid(db: Database, q: AccountQuery, narrow: AccountRow -> bool,
                                              fields: seq<RowScan.Column>)
    requires ValidFields(fields) <==> ValidFields(q.fields)
    ensures ValidQuery(Narrowed(db, q, narrow, fields)) <==> ValidQuery(q)
    decreases q, 1
  {
    var after := After(db, q, Filter(db.accounts, Both(q.where, narrow)));
    StaysValid(db, q, Filter(db.accounts, Both(q.where, narrow)));
    assert ValidEdges(after.(where := Both(q.where, narrow), fields := fields)) <==> ValidEdges(after);
  }

  lemma {:induction false} LinksStayValid(db: Database, lq: LinkQuery, rows: seq<AccountRow>)
    ensures ValidLinkQuery(AfterLinks(db, Some(lq), rows).value) <==> ValidLinkQuery(lq)
    decreases lq, 1
  {
    var links := Filter(db.links, LinkIn(Map(rows, RowId()), lq));
    WithFieldMembers(lq.fields, LinkAccountID);
    if lq.withAccount.Some? && links != [] {
      var aq := lq.withAccount.value;
      NarrowedStaysValid(db, aq, AccountIn(Map(links, LinkAccountOf())), aq.fields);
    }
  }

  lemma {:induction false} StaysValid(db: Database, q: AccountQuery, rows: seq<AccountRow>)
    ensures ValidEdges(After(db, q, rows)) <==> ValidEdges(q)
    decreases q, 0
  {
    if rows != [] {
      if q.withParent.Some? && KeysOf(rows, RowParent()) != [] {
        NarrowedStaysValid(db, q.withParent.value, AccountIn(KeysOf(rows, RowParent())), q.withParent.value.fields);
      }
      if q.withChildren.Some? {
        var cq := q.withChildren.value;
        WithFieldMembers(cq.fields, RowScan.ParentAccountID);
        NarrowedStaysValid(db, cq, ChildIn(Map(rows, RowId())), WithField(cq.fields, RowScan.ParentAccountID));
      }
      if q.withUsageLogs.Some? {
        WithFieldMembers(q.withUsageLogs.value.fields, UsageAccountID);
      }
      if q.withLinks.Some? {
        LinksStayValid(db, q.withLinks.value, rows);
      }
    }
  }

  // ---------------------------------------------------------------- where the second run panics

  // Some level that has accounts requests groups and its join returns a row, level by level.

  ghost predicate ReturnsGroups(db: Database, q: AccountQuery, narrow: AccountRow -> bool)
    decreases q, 1
  {
    RowsReturnGroups(db, q, Filter(db.accounts, Both(q.where, narrow)))
  }

  ghost predicate RowsReturnGroups(db: Database, q: AccountQuery, rows: seq<AccountRow>)
    decreases q, 0
  {
    var ids, keys := Map(rows, RowId()), KeysOf(rows, RowParent());
    rows != [] &&
    (|| (q.withGroups.Some? && JoinReturns(db, q.withGroups.value, ids))
     || ParentReturnsGroups(db, q.withParent, keys)
     || ChildrenReturnGroups(db, q.withChildren, ids)
     || LinksReturnGroups(db, q.withLinks, ids))
  }

  ghost predicate ParentReturnsGroups(db: Database, q: Option<AccountQuery>, keys: seq<Id>)
    decreases q
  {
    q.Some? && ReturnsGroups(db, q.value, AccountIn(keys))
  }

  ghost predicate ChildrenReturnGroups(db: Database, q: Option<AccountQuery>, ids: seq<Id>)
    decreases q
  {
    q.Some? && ReturnsGroups(db, q.value, ChildIn(ids))
  }

  ghost predicate LinksReturnGroups(db: Database, q: Option<LinkQuery>, ids: seq<Id>)
    decreases q
  {
    q.Some? && AccountReturnsGroups(db, q.value.withAccount, Filter(db.links, LinkIn(ids, q.value)))
  }

  ghost predicate AccountReturnsGroups(db: Database, q: Option<AccountQuery>, links: seq<LinkRow>)
    decreases q
  {
    q.Some? && ReturnsGroups(db, q.value, AccountIn(Map(links, LinkAccountOf())))
  }

  /** The join that a run left returns a row exactly when the join of that run did. */
  lemma {:induction false} JoinReturnsAgain(db: Database, q: GroupsQuery, ids: seq<Id>)
    ensures JoinReturns(db, q.(joins := q.joins + [ids]), ids) <==> JoinReturns(db, q, ids)
  {
    var once := JoinAll(db.links, db.groups, q.joins);
    var more := q.joins + [ids];
    var twice := JoinAll(db.links, db.groups, more);
    assert more[..|more| - 1] == q.joins && more[|more| - 1] == ids;
    forall r: (Id, GroupRow) | JoinIn(ids, q.groups)(r)
      ensures r in twice <==> r in once
    {
      JoinAgainMembers(once, db.links, ids, r);
      JoinAllMembers(db.links, db.groups, q.joins, r.0, r.1);
      assert r == (r.0, r.1);
      if r in once {
        var l := LinkRow(r.0, r.1.id);
        assert l in db.links && l.groupId == r.1.id && l.accountId in ids;
      }
    }
  }

  /** Where a run met no failure, a second one can only panic. */
  ghost function PanicIf(panics: bool): Option<Error> {
    if panics then Some(Panic) else None
  }

  /** A level of the second run has the accounts that it had in the first. */
  lemma {:induction false} NestedFailsAgain(db: Database, q: AccountQuery, narrow: AccountRow -> bool,
                                            fields: seq<RowScan.Column>)
    requires QueryFails(db, q, q.fields, narrow) == None && ValidFields(fields)
    ensures QueryFails(db, Narrowed(db, q, narrow, fields), fields, narrow) == PanicIf(ReturnsGroups(db, q, narrow))
    decreases q, 1
  {
    var again := Narrowed(db, q, narrow, fields);
    var rows := Filter(db.accounts, Both(q.where, narrow));
    FilterSame(db.accounts, Both(again.where, narrow), Both(q.where, narrow));
    RootFailsAlike(db, After(db, q, rows), again.where, fields, rows);
    RowsFailAgain(db, q, rows);
  }

  lemma {:induction false} RootFailsAlike(db: Database, q: AccountQuery, where: AccountRow -> bool,
                                          fields: seq<RowScan.Column>, rows: seq<AccountRow>)
    ensures RowsFail(db, q.(where := where, fields := fields), rows) == RowsFail(db, q, rows)
  {
    var other, ids, keys := q.(where := where, fields := fields), Map(rows, RowId()), KeysOf(rows, RowParent());
    assert UniquesFail(db, other, ids, keys) == UniquesFail(db, q, ids, keys);
    assert ListsFail(db, other, ids) == ListsFail(db, q, ids);
  }

  /** Without keys the level is empty. */
  lemma {:induction false} NobodyAsked(db: Database, q: AccountQuery, keys: seq<Id>)
    requires keys == []
    ensures !ReturnsGroups(db, q, AccountIn(keys))
  {
    FilterNone(db.accounts, Both(q.where, AccountIn(keys)));
  }

  lemma {:induction false} ParentFailsAgain(db: Database, q: Option<AccountQuery>, rows: seq<AccountRow>)
    requires ParentFails(db, q, KeysOf(rows, RowParent())) == None
    ensures var keys := KeysOf(rows, RowParent());
            ParentFails(db, AfterParent(db, q, rows), keys) == PanicIf(ParentReturnsGroups(db, q, keys))
    decreases q
  {
    var keys := KeysOf(rows, RowParent());
    if q.Some? {
      if keys == [] {
        NobodyAsked(db, q.value, keys);
      } else {
        NestedFailsAgain(db, q.value, AccountIn(keys), q.value.fields);
      }
    }
  }

  lemma {:induction false} ChildrenFailAgain(db: Database, q: Option<AccountQuery>, rows: seq<AccountRow>)
    requires ChildrenFail(db, q, Map(rows, RowId())) == None
    ensures var ids := Map(rows, RowId());
            ChildrenFail(db, AfterChildren(db, q, rows), ids) == PanicIf(ChildrenReturnGroups(db, q, ids))
    decreases q
  {
    if q.Some? {
      var fields := WithField(q.value.fields, RowScan.ParentAccountID);
      WithFieldMembers(q.value.fields, RowScan.ParentAccountID);
      NestedFailsAgain(db, q.value, ChildIn(Map(rows, RowId())), fields);
    }
  }

  lemma {:induction false} LinksFailAgain(db: Database, q: Option<LinkQuery>, rows: seq<AccountRow>)
    requires LinksFail(db, q, Map(rows, RowId())) == None
    ensures var ids := Map(rows, RowId());
            LinksFail(db, AfterLinks(db, q, rows), ids) == PanicIf(LinksReturnGroups(db, q, ids))
    decreases q
  {
    if q.Some? {
      var ids, lq := Map(rows, RowId()), q.value;
      var links := Filter(db.links, LinkIn(ids, lq));
      var after := AfterLinks(db, q, rows).value;
      FilterSame(db.links, LinkIn(ids, after), LinkIn(ids, lq));
      WithFieldMembers(lq.fields, LinkAccountID);
      if lq.withAccount.Some? {
        var aq := lq.withAccount.value;
        if links == [] {
          NobodyAsked(db, aq, Map(links, LinkAccountOf()));
        } else {
          NestedFailsAgain(db, aq, AccountIn(Map(links, LinkAccountOf())), aq.fields);
        }
      }
    }
  }

  /** After a run without failure, the tree it left panics exactly where the run's own joins returned a row. */
  lemma {:induction false} RowsFailAgain(db: Database, q: AccountQuery, rows: seq<AccountRow>)
    requires RowsFail(db, q, rows) == None
    ensures RowsFail(db, After(db, q, rows), rows) == PanicIf(RowsReturnGroups(db, q, rows))
    decreases q, 0
  {
    if rows != [] {
      var ids, keys := Map(rows, RowId()), KeysOf(rows, RowParent());
      assert UniquesFail(db, q, ids, keys) == None && ListsFail(db, q, ids) == None;
      if q.withGroups.Some? {
        JoinReturnsAgain(db, q.withGroups.value, ids);
      }
      ParentFailsAgain(db, q.withParent, rows);
      ChildrenFailAgain(db, q.withChildren, rows);
      if q.withUsageLogs.Some? {
        WithFieldMembers(q.withUsageLogs.value.fields, UsageAccountID);
      }
      LinksFailAgain(db, q.withLinks, rows);
      var after := After(db, q, rows);
      var nested := ChildrenReturnGroups(db, q.withChildren, ids) || LinksReturnGroups(db, q.withLinks, ids);
      assert ListsFail(db, after, ids) == PanicIf(nested);
      assert RowsFail(db, after, rows) == First(UniquesFail(db, after, ids, keys), ListsFail(db, after, ids));
    }
  }

  // ---------------------------------------------------------------- two runs of one tree

  lemma {:induction false} AnswersAgain(db: Database, q: AccountQuery, rows: seq<AccountRow>, nodes: seq<Account>,
                                        repr: set<object>)
    requires rows == Filter(db.accounts, Both(q.where, Anything()))
    requires Answers(db, After(db, q, rows), Anything(), nodes, repr)
    ensures Answers(db, q, Anything(), nodes, repr)
  {
    FilterMembers(db.accounts, Both(q.where, Anything()));
    AnswerWasAsked(nodes, AccountOrigin(), db.accounts, Both(q.where, Anything()));
    forall n | n in nodes
      ensures Faithful(db, q, n, repr)
    {
      FaithfulAgain(db, q, rows, n, repr);
    }
  }

  lemma {:induction false} SameQuery(q: AccountQuery)
    ensures Reprojected(q, q)
    decreases q
  {
    if q.withParent.Some? {
      SameQuery(q.withParent.value);
    }
    if q.withChildren.Some? {
      SameQuery(q.withChildren.value);
    }
    if q.withLinks.Some? && q.withLinks.value.withAccount.Some? {
      SameQuery(q.withLinks.value.withAccount.value);
    }
  }

  /**
   Two runs of one query tree over unchanged tables. Where the second, on the tree that the first has narrowed and
   joined at every level, has an answer, it is that of the query as the caller wrote it, with the same accounts and the
   same trees behind them. With a reliable driver and valid names it has one unless some level that had accounts
   requested groups and its join returned a row; then it panics.
   */
  method LoadAgain(db: Database, q: AccountQuery)
    returns (first: Result<seq<Account>>, second: Result<seq<Account>>, ghost repr: set<object>,
             ghost other: set<object>)
    requires db.Valid()
    ensures Outcome(db, QueryFails(db, q, q.fields, Anything()), Failure(first))
    ensures first.Err? ==> second == first
    ensures first.Ok? ==> Answers(db, q, Anything(), first.value, repr)
    ensures second.Ok? ==> Answers(db, q, Anything(), second.value, other)
    ensures first.Ok? && second.Ok? ==> SameAnswers(q, first.value, second.value, repr, other)
    ensures first.Ok? ==> Outcome(db, PanicIf(ReturnsGroups(db, q, Anything())), Failure(second))
    ensures db.reliable && ValidQuery(q) && FreshQuery(q) ==>
              first.Ok? && if ReturnsGroups(db, q, Anything()) then second == Err(Panic) else second.Ok?
  {
    first, repr := Load(db, q);
    second, other := first, {};
    if first.Err? {
      return;
    }
    var rows := Filter(db.accounts, Both(q.where, Anything()));
    var after := After(db, q, rows);
    RowsFailAgain(db, q, rows);
    second, other := Load(db, after);
    if second.Ok? {
      AnswersAgain(db, q, rows, second.value, other);
      SameQuery(q);
      AnswersAreSame(db, q, q, Anything(), first.value, second.value, repr, other);
    }
  }

  /** One account in one group. */
  const ONE_GROUP := Database(true, [AccountRow(1, None, None)], [], [GroupRow(7)], [], [LinkRow(1, 7)])

  function AnyGroup(): GroupRow -> bool { (r: GroupRow) => true }

  const WITH_GROUPS := AccountQuery([], Anything(), Some(GroupsQuery(GroupQuery(AnyGroup()), [])),
                                    None, None, None, None, None)

  /** The smallest case: a fresh query with groups answers once, and panics when it is run again. */
  lemma {:induction false} SecondRunPanicsHere()
    ensures ONE_GROUP.Valid() && FreshQuery(WITH_GROUPS) && ValidQuery(WITH_GROUPS)
    ensures QueryFails(ONE_GROUP, WITH_GROUPS, [], Anything()) == None
    ensures QueryFails(ONE_GROUP, After(ONE_GROUP, WITH_GROUPS, ONE_GROUP.accounts), [], Anything()) == Some(Panic)
  {
    var db, q := ONE_GROUP, WITH_GROUPS;
    var rows := Filter(db.accounts, Both(q.where, Anything()));
    assert db.accounts[1..] == [];
    assert rows == db.accounts == [AccountRow(1, None, None)];
    FailsForACause(db, q, [], Anything());
    var row := (1, GroupRow(7));
    JoinAllMembers(db.links, db.groups, [], 1, GroupRow(7));
    assert GroupRow(7) in db.groups && LinkRow(1, 7) in db.links;
    assert Map(rows, RowId())[0] == 1;
    assert JoinIn(Map(rows, RowId()), q.withGroups.value.groups)(row);
    assert JoinReturns(db, q.withGroups.value, Map(rows, RowId()));
    RowsFailAgain(db, q, rows);
    FilterSame(db.accounts, Both(After(db, q, rows).where, Anything()), Both(q.where, Anything()));
  }

  // ---------------------------------------------------------------- tables that changed in between

  /**
   Over tables that have changed in between, the parent lookup of a second run finds what the caller asked for exactly
   when there is no such parent, or the first run had already asked for it.
   */
  lemma {:induction false} ChangedTablesIff(db: Database, later: Database, q: AccountQuery, rows: seq<AccountRow>,
                                            fk: Option<Id>, found: Option<AccountRow>)
    requires Resolves(later.accounts, AccountWith(fk, AfterParent(db, Some(q), rows).value), found)
    ensures Resolves(later.accounts, AccountWith(fk, q), found) <==>
            var keys := KeysOf(rows, RowParent());
            keys == [] || ((exists r :: r in later.accounts && AccountWith(fk, q)(r)) ==> fk.value in keys)
  {
    var keys := KeysOf(rows, RowParent());
    if keys != [] {
      var after := AfterParent(db, Some(q), rows).value;
      assert forall r: AccountRow :: after.where(r) <==> q.where(r) && r.id in keys;
    }
  }

  lemma {:induction false} ChangedProxyIff(later: Database, q: ProxyQuery, rows: seq<AccountRow>, fk: Option<Id>,
                                           found: Option<ProxyRow>)
    requires Resolves(later.proxies, ProxyWith(fk, AfterProxy(Some(q), rows).value), found)
    ensures Resolves(later.proxies, ProxyWith(fk, q), found) <==>
            var keys := KeysOf(rows, RowProxy());
            keys == [] || ((exists r :: r in later.proxies && ProxyWith(fk, q)(r)) ==> fk.value in keys)
  {
    var keys := KeysOf(rows, RowProxy());
    if keys != [] {
      var after := AfterProxy(Some(q), rows).value;
      assert forall r: ProxyRow :: after.where(r) <==> q.where(r) && r.id in keys;
    }
  }

  /** The two edges of the join entity: the keys of the links that the first run met. */
  lemma {:induction false} ChangedLinkAccountIff(db: Database, later: Database, q: AccountQuery, links: seq<LinkRow>,
                                                 key: Id, found: Option<AccountRow>)
    requires Resolves(later.accounts, AccountWith(Some(key), AfterAccount(db, Some(q), links).value), found)
    ensures Resolves(later.accounts, AccountWith(Some(key), q), found) <==>
            || links == []
            || ((exists r :: r in later.accounts && AccountWith(Some(key), q)(r)) ==>
                  exists l :: l in links && l.accountId == key)
  {
    if links != [] {
      var after := AfterAccount(db, Some(q), links).value;
      MapMembers(links, LinkAccountOf(), key);
      assert forall r: AccountRow :: after.where(r) <==> q.where(r) && r.id in Map(links, LinkAccountOf());
    }
  }

  lemma {:induction false} ChangedLinkGroupIff(later: Database, q: GroupQuery, links: seq<LinkRow>, key: Id,
                                               found: Option<GroupRow>)
    requires Resolves(later.groups, GroupWith(Some(key), AfterGroup(Some(q), links).value), found)
    ensures Resolves(later.groups, GroupWith(Some(key), q), found) <==>
            || links == []
            || ((exists r :: r in later.groups && GroupWith(Some(key), q)(r)) ==>
                  exists l :: l in links && l.groupId == key)
  {
    if links != [] {
      var after := AfterGroup(Some(q), links).value;
      MapMembers(links, LinkGroupOf(), key);
      assert forall r: GroupRow :: after.where(r) <==> q.where(r) && r.id in Map(links, LinkGroupOf());
    }
  }

  /** One node's list under a narrowed query: all of it when its id was asked for, and nothing otherwise. */
  lemma {:induction false} OwnListIff<Row(!new)>(table: seq<Row>, own: Row -> bool, narrowed: Row -> bool, asked: bool,
                                                 found: seq<Row>)
    requires forall r :: narrowed(r) <==> own(r) && asked
    requires multiset(found) == multiset(Filter(table, narrowed))
    ensures multiset(found) == multiset(Filter(table, own)) <==> ((exists r :: r in table && own(r)) ==> asked)
  {
    if asked {
      FilterSame(table, narrowed, own);
    } else {
      FilterNone(table, narrowed);
      FilterEmptyIff(table, own);
      assert |multiset(Filter(table, own))| == |Filter(table, own)|;
    }
  }

  /** Likewise for the three list edges: a node's list is right iff it owns no row or the first run had the node too. */
  lemma {:induction false} ChangedChildrenIff(db: Database, later: Database, q: AccountQuery, rows: seq<AccountRow>,
                                              id: Id, found: seq<AccountRow>)
    requires multiset(found) ==
             multiset(Filter(later.accounts, ChildOf(id, AfterChildren(db, Some(q), rows).value)))
    ensures multiset(found) == multiset(Filter(later.accounts, ChildOf(id, q))) <==>
            ((exists r :: r in later.accounts && ChildOf(id, q)(r)) ==> id in Map(rows, RowId()))
  {
    var after := AfterChildren(db, Some(q), rows).value;
    OwnListIff(later.accounts, ChildOf(id, q), ChildOf(id, after), id in Map(rows, RowId()), found);
  }

  lemma {:induction false} ChangedUsageIff(later: Database, q: UsageQuery, rows: seq<AccountRow>, id: Id,
                                           found: seq<UsageRow>)
    requires multiset(found) == multiset(Filter(later.usageLogs, UsageOf(id, AfterUsage(Some(q), rows).value)))
    ensures multiset(found) == multiset(Filter(later.usageLogs, UsageOf(id, q))) <==>
            ((exists r :: r in later.usageLogs && UsageOf(id, q)(r)) ==> id in Map(rows, RowId()))
  {
    var after := AfterUsage(Some(q), rows).value;
    OwnListIff(later.usageLogs, UsageOf(id, q), UsageOf(id, after), id in Map(rows, RowId()), found);
  }

  lemma {:induction false} ChangedLinksIff(db: Database, later: Database, q: LinkQuery, rows: seq<AccountRow>, id: Id,
                                           found: seq<LinkRow>)
    requires multiset(found) == multiset(Filter(later.links, LinkOf(id, AfterLinks(db, Some(q), rows).value)))
    ensures multiset(found) == multiset(Filter(later.links, LinkOf(id, q))) <==>
            ((exists r :: r in later.links && LinkOf(id, q)(r)) ==> id in Map(rows, RowId()))
  {
    var after := AfterLinks(db, Some(q), rows).value;
    OwnListIff(later.links, LinkOf(id, q), LinkOf(id, after), id in Map(rows, RowId()), found);
  }

  function Accounts(parent: Id): seq<AccountRow> {
    [AccountRow(1, None, Some(parent)), AccountRow(2, None, None), AccountRow(3, None, None)]
  }

  /** Account 1 moves from parent 2 to parent 3 between two runs: the second run finds it without a parent. */
  lemma {:induction false} MovedParentIsLost(db: Database, q: AccountQuery)
    requires forall r :: q.where(r)
    ensures Resolves(Accounts(3), AccountWith(Some(3), AfterParent(db, Some(q), Accounts(2)).value), None)
    ensures !Resolves(Accounts(3), AccountWith(Some(3), q), None)
  {
    var rows := Accounts(2);
    assert rows[..2][..1][..0] == [];
    assert KeysOf(rows[..2][..1], RowParent()) == [2];
    assert KeysOf(rows[..2], RowParent()) == [2];
    assert KeysOf(rows, RowParent()) == [2];
    var r := AccountRow(3, None, None);
    assert q.where(r) && AccountWith(Some(3), q)(r);
    assert Accounts(3)[2] == r;
  }
}
