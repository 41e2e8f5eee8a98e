/** `AccountQuery.sqlAll` and its loaders, over heap nodes. */
module EagerLoad {
  import opened Prelude
  import opened Store
  import opened Entities
  import opened Loaders
  import opened EagerSpec
  import opened Outcomes
  import opened GroupLoad
  import opened Projection
  import RowScan

  /** `ProxyQuery.All`: the rows the driver returned, each as a new struct. */
  method AllProxies(db: Database, query: ProxyQuery, ids: seq<Id>) returns (r: Result<seq<Proxy>>)
    ensures Outcome(db, None, Failure(r))
    ensures r.Ok? ==> multiset(Map(r.value, ProxyRowOf())) == multiset(Filter(db.proxies, ProxyIn(ids, query)))
    ensures r.Ok? ==> forall p :: p in r.value ==> fresh(p)
  {
    var rows := Execute(db.reliable, db.proxies, ProxyIn(ids, query));
    if rows.Err? {
      return Err(rows.error);
    }
    var nodes: seq<Proxy> := [];
    for j := 0 to |rows.value|
      invariant |nodes| == j && forall i :: 0 <= i < j ==> nodes[i].row == rows.value[i] && fresh(nodes[i])
    {
      var p := new Proxy(rows.value[j]);
      nodes := nodes + [p];
    }
    assert Map(nodes, ProxyRowOf()) == rows.value;
    return Ok(nodes);
  }

  method AssignProxy(owners: seq<Account>, n: Proxy)
    modifies NodeSet(owners)`proxy
    ensures forall x :: x in owners ==> x.proxy == n
  {
    for i := 0 to |owners|
      invariant forall k :: 0 <= k < i ==> owners[k].proxy == n
    {
      owners[i].proxy := n;
    }
  }

  /** The second loop of `loadProxy`: it fails on the first row that nobody asked for. */
  method HandOutProxies(nodes: seq<Account>, nodeids: map<Id, seq<Account>>, neighbors: seq<Proxy>)
    returns (err: Option<Error>)
    requires GroupedByKey(nodes, ProxyKey(), nodeids)
    modifies NodeSet(nodes)`proxy
    ensures err.Some? <==> exists n :: n in neighbors && n.row.id !in nodeids
    ensures err.Some? ==> exists j :: FirstUnasked(nodeids, Map(neighbors, ProxyId()), j, err)
    ensures err.None? ==> forall x :: x in nodes ==>
              ProxyTaken(neighbors, x.scanned.proxyId, old(x.proxy), x.proxy)
  {
    for j := 0 to |neighbors|
      invariant forall k :: 0 <= k < j ==> neighbors[k].row.id in nodeids
      invariant forall x :: x in nodes ==> ProxyTaken(neighbors[..j], x.scanned.proxyId, old(x.proxy), x.proxy)
    {
      var n := neighbors[j];
      if n.row.id !in nodeids {
        assert FirstUnasked(nodeids, Map(neighbors, ProxyId()), j, Some(UnexpectedNode(n.row.id)));
        return Some(UnexpectedNode(n.row.id));
      }
      assert NodeSet(nodeids[n.row.id]) <= NodeSet(nodes);
      AssignProxy(nodeids[n.row.id], n);
      assert neighbors[..j + 1][..j] == neighbors[..j];
    }
    assert neighbors[..|neighbors|] == neighbors;
    return None;
  }

  method LoadProxy(db: Database, query: ProxyQuery, nodes: seq<Account>)
    returns (err: Option<Error>, ghost issued: Option<seq<Id>>, ghost answer: seq<Proxy>)
    modifies NodeSet(nodes)`proxy
    ensures issued == var keys := KeysOf(nodes, ProxyKey()); if keys == [] then None else Some(Distinct(keys))
    ensures Outcome(db, None, err)
    ensures forall p :: p in answer ==> fresh(p)
    ensures err.None? && issued.Some? ==>
              multiset(Map(answer, ProxyRowOf())) == multiset(Filter(db.proxies, ProxyIn(issued.value, query)))
    ensures err.None? ==> forall x :: x in nodes ==>
              && ProxyTaken(answer, x.scanned.proxyId, old(x.proxy), x.proxy)
              && Resolves(db.proxies, ProxyWith(x.scanned.proxyId, query),
                          RowTaken(answer, ProxyId(), ProxyRowOf(), x.scanned.proxyId))
  {
    answer := [];
    var ids, nodeids := GroupByKey(nodes, ProxyKey());
    if |ids| == 0 {
      return None, None, [];
    }
    issued := Some(ids);
    var neighbors := AllProxies(db, query, ids);
    if neighbors.Err? {
      return Some(neighbors.error), issued, [];
    }
    answer := neighbors.value;
    err := HandOutProxies(nodes, nodeids, neighbors.value);
    AnswerWasAsked(answer, ProxyRowOf(), db.proxies, ProxyIn(ids, query));
    forall x | x in nodes
      ensures Resolves(db.proxies, ProxyWith(x.scanned.proxyId, query),
                       RowTaken(answer, ProxyId(), ProxyRowOf(), x.scanned.proxyId))
    {
      LastResolves(answer, ProxyRowOf(), ProxyId(), db.proxies, ProxyIn(ids, query),
                   ProxyWith(x.scanned.proxyId, query),
                   x.scanned.proxyId);
    }
  }

  method AssignParent(owners: seq<Account>, e: Account)
    modifies NodeSet(owners)`parent
    ensures forall x :: x in owners ==> x.parent == e
  {
    for i := 0 to |owners|
      invariant forall k :: 0 <= k < i ==> owners[k].parent == e
    {
      owners[i].parent := e;
    }
  }

  method HandOutParents(nodes: seq<Account>, nodeids: map<Id, seq<Account>>, neighbors: seq<Account>)
    returns (err: Option<Error>)
    requires GroupedByKey(nodes, ParentKey(), nodeids)
    modifies NodeSet(nodes)`parent
    ensures err.Some? <==> exists e :: e in neighbors && e.scanned.id !in nodeids
    ensures err.Some? ==> exists j :: FirstUnasked(nodeids, Map(neighbors, AccountId()), j, err)
    ensures err.None? ==> forall x :: x in nodes ==>
              AccountTaken(neighbors, x.scanned.parentId, old(x.parent), x.parent)
  {
    for j := 0 to |neighbors|
      invariant forall k :: 0 <= k < j ==> neighbors[k].scanned.id in nodeids
      invariant forall x :: x in nodes ==> AccountTaken(neighbors[..j], x.scanned.parentId, old(x.parent), x.parent)
    {
      var e := neighbors[j];
      if e.scanned.id !in nodeids {
        assert FirstUnasked(nodeids, Map(neighbors, AccountId()), j, Some(UnexpectedNode(e.scanned.id)));
        return Some(UnexpectedNode(e.scanned.id));
      }
      assert NodeSet(nodeids[e.scanned.id]) <= NodeSet(nodes);
      AssignParent(nodeids[e.scanned.id], e);
      assert neighbors[..j + 1][..j] == neighbors[..j];
    }
    assert neighbors[..|neighbors|] == neighbors;
    return None;
  }

  /** Among the accounts that an `IN` query returned, the last one with a key is what a lookup of that key finds. */
  lemma {:induction false} KeyResolves(db: Database, query: AccountQuery, ids: seq<Id>, key: Option<Id>,
                                       answer: seq<Account>)
    requires multiset(Map(answer, AccountOrigin())) == multiset(Filter(db.accounts, Both(query.where, AccountIn(ids))))
    requires forall n :: n in answer ==> n.scanned.id == n.origin.id
    requires key.Some? ==> key.value in ids
    ensures Resolves(db.accounts, AccountWith(key, query), RowTaken(answer, AccountId(), AccountOrigin(), key))
  {
    AnswerWasAsked(answer, AccountOrigin(), db.accounts, Both(query.where, AccountIn(ids)));
    LastResolves(answer, AccountOrigin(), AccountId(), db.accounts, Both(query.where, AccountIn(ids)),
                 AccountWith(key, query), key);
  }

  /** The batched query of the unique edges that lead to accounts. */
  method FetchByIds(db: Database, query: AccountQuery, ids: seq<Id>, ghost keys: seq<Id>)
    returns (r: Result<seq<Account>>, ghost repr: set<object>)
    requires db.Valid() && SameIds(ids, keys)
    ensures fresh(repr)
    ensures Outcome(db, QueryFails(db, query, query.fields, AccountIn(keys)), Failure(r))
    ensures r.Ok? ==> Answers(db, query, AccountIn(ids), r.value, repr)
    decreases query, 6
  {
    r, repr := All(db, query, query.fields, AccountIn(ids));
    FailsSame(db, query, query.fields, AccountIn(ids), AccountIn(keys));
  }

  /** `loadParent`: the batched query is a query on accounts, with its own eager edges. */
  method LoadParent(db: Database, query: AccountQuery, nodes: seq<Account>)
    returns (err: Option<Error>, ghost issued: Option<seq<Id>>, ghost answer: seq<Account>, ghost repr: set<object>)
    requires db.Valid()
    modifies NodeSet(nodes)`parent
    ensures issued == var keys := KeysOf(nodes, ParentKey()); if keys == [] then None else Some(Distinct(keys))
    ensures Outcome(db, ParentFails(db, Some(query), KeysOf(nodes, ParentKey())), err)
    ensures fresh(repr)
    ensures err.None? ==> AllFaithful(db, query, answer, repr)
    ensures err.None? && issued.Some? ==> Answers(db, query, AccountIn(issued.value), answer, repr)
    ensures err.None? ==> forall x :: x in nodes ==>
              && AccountTaken(answer, x.scanned.parentId, old(x.parent), x.parent)
              && Resolves(db.accounts, AccountWith(x.scanned.parentId, query),
                          RowTaken(answer, AccountId(), AccountOrigin(), x.scanned.parentId))
    decreases query, 7
  {
    answer, repr := [], {};
    var ids, nodeids := GroupByKey(nodes, ParentKey());
    if |ids| == 0 {
      return None, None, [], {};
    }
    issued := Some(ids);
    var neighbors;
    neighbors, repr := FetchByIds(db, query, ids, KeysOf(nodes, ParentKey()));
    if neighbors.Err? {
      return Some(neighbors.error), issued, [], repr;
    }
    answer := neighbors.value;
    AnswerWasAsked(answer, AccountOrigin(), db.accounts, Both(query.where, AccountIn(ids)));
    err := HandOutParents(nodes, nodeids, neighbors.value);
    forall x | x in nodes
      ensures Resolves(db.accounts, AccountWith(x.scanned.parentId, query),
                       RowTaken(answer, AccountId(), AccountOrigin(), x.scanned.parentId))
    {
      if x.scanned.parentId.Some? {
        var k: Id := ParentKey()(x).value;
        assert k in nodeids;
      }
      KeyResolves(db, query, ids, x.scanned.parentId, answer);
    }
  }

  // ---------------------------------------------------------------- children

  method InitChildren(nodes: seq<Account>)
    modifies NodeSet(nodes)`children
    ensures forall x :: x in nodes ==> x.children == Some([])
  {
    for i := 0 to |nodes|
      invariant forall k :: 0 <= k < i ==> nodes[k].children == Some([])
    {
      nodes[i].children := Some([]);
    }
  }

  /** The second loop of `loadChildren`: each row is appended to the node its foreign key names. */
  method HandOutChildren(nodes: seq<Account>, nodeids: map<Id, Account>, neighbors: seq<Account>)
    returns (err: Option<Error>)
    requires forall k :: k in nodeids ==> nodeids[k] in nodes
    requires forall x :: x in nodes ==> x.children == Some([])
    modifies NodeSet(nodes)`children
    ensures err.None? <==> forall c :: c in neighbors ==>
              c.scanned.parentId.Some? && c.scanned.parentId.value in nodeids
    ensures err.Some? ==> exists j ::
              FirstAstray(nodeids, Map(neighbors, AccountId()), Map(neighbors, ChildParent()), j, err)
    ensures err.None? ==> forall x :: x in nodes ==>
              x.children == Some(OwnedBy(nodeids, x, neighbors, ChildParent(), |neighbors|))
  {
    for j := 0 to |neighbors|
      invariant forall k :: 0 <= k < j ==>
                neighbors[k].scanned.parentId.Some? && neighbors[k].scanned.parentId.value in nodeids
      invariant forall x :: x in nodes ==> x.children == Some(OwnedBy(nodeids, x, neighbors, ChildParent(), j))
    {
      var n := neighbors[j];
      var fk := n.scanned.parentId;
      if fk.None? {
        err := Some(NilForeignKey(n.scanned.id));
        assert FirstAstray(nodeids, Map(neighbors, AccountId()), Map(neighbors, ChildParent()), j, err);
        return;
      }
      if fk.value !in nodeids {
        err := Some(UnexpectedReference(fk.value));
        assert FirstAstray(nodeids, Map(neighbors, AccountId()), Map(neighbors, ChildParent()), j, err);
        return;
      }
      var k: Id := fk.value;
      assert k in nodeids;
      assert nodeids[k] in nodes;
      var node := nodeids[k];
      InNodeSet(nodes, node);
      node.children := Some(node.children.value + [n]);
      assert forall x :: x in nodes ==> (LeadsTo(nodeids, x, fk) <==> x == node);
    }
    return None;
  }

  /** The query of `loadChildren`: a projection of it is completed with the foreign key. */
  method FetchChildren(db: Database, query: AccountQuery, fks: seq<Id>)
    returns (r: Result<seq<Account>>, ghost repr: set<object>)
    requires db.Valid()
    ensures fresh(repr)
    ensures Outcome(db, QueryFails(db, query, query.fields, ChildIn(fks)), Failure(r))
    ensures r.Ok? ==> Answers(db, query, ChildIn(fks), r.value, repr)
    ensures r.Ok? ==> forall c :: c in r.value ==> KnownChild(query, fks, c)
    decreases query, 6
  {
    var fields := query.fields;
    if |fields| > 0 {
      fields := AddOnce(fields, RowScan.ParentAccountID);
    }
    r, repr := All(db, query, fields, ChildIn(fks));
    if r.Ok? {
      ChildrenAnswered(db, query, fields, fks, r.value, repr);
    }
  }

  method LoadChildren(db: Database, query: AccountQuery, nodes: seq<Account>)
    returns (err: Option<Error>, ghost answer: seq<Account>, ghost repr: set<object>)
    requires db.Valid()
    requires forall x :: x in nodes ==> x.scanned.id == x.origin.id
    modifies NodeSet(nodes)`children
    ensures Outcome(db, ChildrenFail(db, Some(query), Map(nodes, AccountId())), err)
    ensures fresh(repr)
    ensures err.None? ==> Answers(db, query, ChildIn(Map(nodes, AccountId())), answer, repr)
    ensures err.None? ==> forall c :: c in answer ==> KnownChild(query, Map(nodes, AccountId()), c)
    ensures err.None? && DistinctNodes(nodes) ==> IsPartition(ChildLists(nodes), answer)
    ensures err.None? ==> forall x :: x in nodes ==>
              && x.children == Some(OwnedBy(ById(nodes, AccountId()), x, answer, ChildParent(), |answer|))
              && (ById(nodes, AccountId())[x.scanned.id] == x ==> ChildrenEdge(db, Some(query), x, repr))
    decreases query, 7
  {
    var fks, nodeids := IndexById(nodes, AccountId());
    InitChildren(nodes);
    var neighbors;
    neighbors, repr := FetchChildren(db, query, fks);
    if neighbors.Err? {
      return Some(neighbors.error), [], repr;
    }
    answer := neighbors.value;
    IdsAreIndexed(nodes, AccountId());
    err := HandOutChildren(nodes, nodeids, neighbors.value);
    assert Answers(db, query, ChildIn(fks), answer, repr);
    if DistinctNodes(nodes) {
      AppendedIsPartition(nodes, answer, ChildParent(), ChildLists(nodes));
    }
    forall x | x in nodes && nodeids[x.scanned.id] == x
      ensures ChildrenEdge(db, Some(query), x, repr)
    {
      ChildrenLoaded(db, query, nodes, x, answer, repr);
    }
  }

  /** A child that came back with its foreign key, which is one of those asked for. */
  ghost predicate KnownChild(query: AccountQuery, fks: seq<Id>, c: Account) {
    && c.scanned.parentId == c.origin.parentId && query.where(c.origin)
    && c.scanned.parentId.Some? && c.scanned.parentId.value in fks
  }

  lemma {:induction false} ChildrenLoaded(db: Database, query: AccountQuery, nodes: seq<Account>, x: Account,
                                          answer: seq<Account>, repr: set<object>)
    requires x in nodes && x.scanned.id == x.origin.id && ById(nodes, AccountId())[x.scanned.id] == x
    requires x.children == Some(OwnedBy(ById(nodes, AccountId()), x, answer, ChildParent(), |answer|))
    requires Answers(db, query, ChildIn(Map(nodes, AccountId())), answer, repr)
    requires forall c :: c in answer ==> KnownChild(query, Map(nodes, AccountId()), c)
    ensures ChildrenEdge(db, Some(query), x, repr)
  {
    OwnedByIsOwned(nodes, AccountId(), x, answer, ChildParent());
    IdsAreIndexed(nodes, AccountId());
    OwnedChildren(db, query, x.scanned.id, Map(nodes, AccountId()), answer, repr);
    FilterMembers(answer, HasKey(ChildParent(), x.scanned.id));
  }

  lemma {:induction false} ChildrenAnswered(db: Database, query: AccountQuery, fields: seq<RowScan.Column>,
                                            fks: seq<Id>, answer: seq<Account>,
                         repr: set<object>)
    requires Answers(db, query, ChildIn(fks), answer, repr)
    requires Projected(query, fields, answer)
    requires RowScan.ParentAccountID in fields || fields == []
    ensures forall c :: c in answer ==> KnownChild(query, fks, c)
  {
    AnswerWasAsked(answer, AccountOrigin(), db.accounts, Both(query.where, ChildIn(fks)));
    forall c | c in answer
      ensures KnownChild(query, fks, c)
    {
      ProjectionKeepsKeys(query, fields, c.origin);
    }
  }

  lemma {:induction false} OwnedChildren(db: Database, query: AccountQuery, id: Id, fks: seq<Id>,
                                         answer: seq<Account>, repr: set<object>)
    requires Answers(db, query, ChildIn(fks), answer, repr) && id in fks
    requires forall c :: c in answer ==> c.scanned.parentId == c.origin.parentId && query.where(c.origin)
    ensures multiset(Map(Owned(answer, ChildParent(), id), AccountOrigin())) ==
              multiset(Filter(db.accounts, ChildOf(id, query)))
  {
    OwnedRows(answer, AccountOrigin(), ChildParent(), id, db.accounts, Both(query.where, ChildIn(fks)),
              ChildOf(id, query));
  }

  // ---------------------------------------------------------------- usage logs

  method InitUsageLogs(nodes: seq<Account>)
    modifies NodeSet(nodes)`usageLogs
    ensures forall x :: x in nodes ==> x.usageLogs == Some([])
  {
    for i := 0 to |nodes|
      invariant forall k :: 0 <= k < i ==> nodes[k].usageLogs == Some([])
    {
      nodes[i].usageLogs := Some([]);
    }
  }

  method HandOutUsageLogs(nodes: seq<Account>, nodeids: map<Id, Account>, neighbors: seq<UsageLog>)
    returns (err: Option<Error>)
    requires forall k :: k in nodeids ==> nodeids[k] in nodes
    requires forall x :: x in nodes ==> x.usageLogs == Some([])
    modifies NodeSet(nodes)`usageLogs
    ensures err.None? <==> forall c :: c in neighbors ==> c.scanned.accountId in nodeids
    ensures err.Some? ==> exists j :: FirstUnowned(nodeids, Map(neighbors, UsageAccount()), j, err)
    ensures err.None? ==> forall x :: x in nodes ==>
              x.usageLogs == Some(OwnedBy(nodeids, x, neighbors, UsageAccount(), |neighbors|))
  {
    for j := 0 to |neighbors|
      invariant forall k :: 0 <= k < j ==> neighbors[k].scanned.accountId in nodeids
      invariant forall x :: x in nodes ==> x.usageLogs == Some(OwnedBy(nodeids, x, neighbors, UsageAccount(), j))
    {
      var n := neighbors[j];
      var fk := n.scanned.accountId;
      if fk !in nodeids {
        err := Some(UnexpectedReference(fk));
        assert FirstUnowned(nodeids, Map(neighbors, UsageAccount()), j, err);
        return;
      }
      var node := nodeids[fk];
      InNodeSet(nodes, node);
      node.usageLogs := Some(node.usageLogs.value + [n]);
      assert forall x :: x in nodes ==> (LeadsTo(nodeids, x, Some(fk)) <==> x == node);
    }
    return None;
  }

  /** `UsageLogQuery.All` under the `IN` predicate, with the foreign key added to a projection. */
  method FetchUsageLogs(db: Database, query: UsageQuery, fks: seq<Id>) returns (r: Result<seq<UsageLog>>)
    ensures Outcome(db, UsageFails(Some(query)), Failure(r))
    ensures !ValidUsageFields(query.fields) ==> r == Err(InvalidField)
    ensures r.Ok? ==> multiset(Map(r.value, UsageOrigin())) == multiset(Filter(db.usageLogs, UsageIn(fks, query)))
    ensures r.Ok? ==> forall u :: u in r.value ==>
              fresh(u) && u.scanned.accountId == u.origin.accountId && UsageScanned(query.fields, u)
  {
    var fields := query.fields;
    if |fields| > 0 {
      fields := AddOnce(fields, UsageAccountID);
    }
    if exists c :: c in fields && c.UsageOther? {
      return Err(InvalidField);
    }
    var rows := Execute(db.reliable, db.usageLogs, UsageIn(fks, query));
    if rows.Err? {
      return Err(rows.error);
    }
    var columns := UsageSpec(fields);
    UsageSpecComplete(fields);
    UsageSpecFetches(fields, query.fields);
    var nodes: seq<UsageLog> := [];
    for j := 0 to |rows.value|
      invariant |nodes| == j
      invariant forall i :: 0 <= i < j ==> nodes[i].origin == rows.value[i]
      invariant forall u :: u in nodes ==>
              fresh(u) && u.scanned.accountId == u.origin.accountId && UsageScanned(query.fields, u)
    {
      var u := new UsageLog(columns, ProjectUsage(columns, rows.value[j]), rows.value[j]);
      nodes := nodes + [u];
    }
    assert Map(nodes, UsageOrigin()) == rows.value;
    return Ok(nodes);
  }

  method LoadUsageLogs(db: Database, query: UsageQuery, nodes: seq<Account>)
    returns (err: Option<Error>, ghost answer: seq<UsageLog>)
    requires forall x :: x in nodes ==> x.scanned.id == x.origin.id
    modifies NodeSet(nodes)`usageLogs
    ensures Outcome(db, UsageFails(Some(query)), err)
    ensures err.None? ==>
              multiset(Map(answer, UsageOrigin())) ==
                multiset(Filter(db.usageLogs, UsageIn(Map(nodes, AccountId()), query)))
    ensures err.None? ==> forall u :: u in answer ==>
              u.scanned.accountId == u.origin.accountId && UsageScanned(query.fields, u)
    ensures err.None? && DistinctNodes(nodes) ==> IsPartition(UsageLists(nodes), answer)
    ensures err.None? ==> forall x :: x in nodes ==>
              && x.usageLogs == Some(OwnedBy(ById(nodes, AccountId()), x, answer, UsageAccount(), |answer|))
              && (ById(nodes, AccountId())[x.scanned.id] == x ==> UsageEdge(db, Some(query), x))
  {
    var fks, nodeids := IndexById(nodes, AccountId());
    InitUsageLogs(nodes);
    var neighbors := FetchUsageLogs(db, query, fks);
    if neighbors.Err? {
      return Some(neighbors.error), [];
    }
    answer := neighbors.value;
    AnswerWasAsked(answer, UsageOrigin(), db.usageLogs, UsageIn(fks, query));
    IdsAreIndexed(nodes, AccountId());
    err := HandOutUsageLogs(nodes, nodeids, neighbors.value);
    if DistinctNodes(nodes) {
      AppendedIsPartition(nodes, answer, UsageAccount(), UsageLists(nodes));
    }
    forall x | x in nodes && nodeids[x.scanned.id] == x
      ensures UsageEdge(db, Some(query), x)
    {
      UsageLogsLoaded(db, query, nodes, x, answer);
    }
  }

  lemma {:induction false} UsageLogsLoaded(db: Database, query: UsageQuery, nodes: seq<Account>, x: Account,
                                           answer: seq<UsageLog>)
    requires x in nodes && x.scanned.id == x.origin.id && ById(nodes, AccountId())[x.scanned.id] == x
    requires x.usageLogs == Some(OwnedBy(ById(nodes, AccountId()), x, answer, UsageAccount(), |answer|))
    requires multiset(Map(answer, UsageOrigin())) ==
              multiset(Filter(db.usageLogs, UsageIn(Map(nodes, AccountId()), query)))
    requires forall u :: u in answer ==>
               u.scanned.accountId == u.origin.accountId && UsageScanned(query.fields, u)
    ensures UsageEdge(db, Some(query), x)
  {
    var fks := Map(nodes, AccountId());
    OwnedByIsOwned(nodes, AccountId(), x, answer, UsageAccount());
    IdsAreIndexed(nodes, AccountId());
    AnswerWasAsked(answer, UsageOrigin(), db.usageLogs, UsageIn(fks, query));
    FilterMembers(answer, HasKey(UsageAccount(), x.scanned.id));
    OwnedRows(answer, UsageOrigin(), UsageAccount(), x.scanned.id, db.usageLogs, UsageIn(fks, query),
              UsageOf(x.scanned.id, query));
  }

  // ---------------------------------------------------------------- the join entity and its own edges

  method AssignLinkAccount(owners: seq<AccountGroup>, e: Account)
    modifies NodeSet(owners)`account
    ensures forall x :: x in owners ==> x.account == e
  {
    for i := 0 to |owners|
      invariant forall k :: 0 <= k < i ==> owners[k].account == e
    {
      owners[i].account := e;
    }
  }

  /** The second loop of `AccountGroupQuery.loadAccount`. */
  method HandOutLinkAccounts(nodes: seq<AccountGroup>, nodeids: map<Id, seq<AccountGroup>>, neighbors: seq<Account>)
    returns (err: Option<Error>)
    requires GroupedByKey(nodes, LinkAccountKey(), nodeids)
    modifies NodeSet(nodes)`account
    ensures err.Some? <==> exists e :: e in neighbors && e.scanned.id !in nodeids
    ensures err.Some? ==> exists j :: FirstUnasked(nodeids, Map(neighbors, AccountId()), j, err)
    ensures err.None? ==> forall x :: x in nodes ==>
              AccountTaken(neighbors, Some(x.scanned.accountId), old(x.account), x.account)
  {
    for j := 0 to |neighbors|
      invariant forall k :: 0 <= k < j ==> neighbors[k].scanned.id in nodeids
      invariant forall x :: x in nodes ==>
                AccountTaken(neighbors[..j], Some(x.scanned.accountId), old(x.account), x.account)
    {
      var e := neighbors[j];
      if e.scanned.id !in nodeids {
        assert FirstUnasked(nodeids, Map(neighbors, AccountId()), j, Some(UnexpectedNode(e.scanned.id)));
        return Some(UnexpectedNode(e.scanned.id));
      }
      assert NodeSet(nodeids[e.scanned.id]) <= NodeSet(nodes);
      AssignLinkAccount(nodeids[e.scanned.id], e);
      assert neighbors[..j + 1][..j] == neighbors[..j];
    }
    assert neighbors[..|neighbors|] == neighbors;
    return None;
  }

  method LoadLinkAccount(db: Database, query: AccountQuery, nodes: seq<AccountGroup>)
    returns (err: Option<Error>, ghost answer: seq<Account>, ghost repr: set<object>)
    requires db.Valid()
    modifies NodeSet(nodes)`account
    ensures Outcome(db, ParentFails(db, Some(query), KeysOf(nodes, LinkAccountKey())), err)
    ensures fresh(repr)
    ensures err.None? ==> AllFaithful(db, query, answer, repr)
    ensures err.None? ==> forall x :: x in nodes ==>
              && AccountTaken(answer, Some(x.scanned.accountId), old(x.account), x.account)
              && Resolves(db.accounts, AccountWith(Some(x.scanned.accountId), query),
                          RowTaken(answer, AccountId(), AccountOrigin(), Some(x.scanned.accountId)))
    decreases query, 7
  {
    answer, repr := [], {};
    var ids, nodeids := GroupByKey(nodes, LinkAccountKey());
    if |ids| == 0 {
      return None, [], {};
    }
    var neighbors;
    neighbors, repr := FetchByIds(db, query, ids, KeysOf(nodes, LinkAccountKey()));
    if neighbors.Err? {
      return Some(neighbors.error), [], repr;
    }
    answer := neighbors.value;
    AnswerWasAsked(answer, AccountOrigin(), db.accounts, Both(query.where, AccountIn(ids)));
    err := HandOutLinkAccounts(nodes, nodeids, neighbors.value);
    forall x | x in nodes
      ensures Resolves(db.accounts, AccountWith(Some(x.scanned.accountId), query),
                       RowTaken(answer, AccountId(), AccountOrigin(), Some(x.scanned.accountId)))
    {
      KeyResolves(db, query, ids, Some(x.scanned.accountId), answer);
    }
  }

  /** `GroupQuery.All` under the `IN` predicate. */
  method AllGroups(db: Database, query: GroupQuery, ids: seq<Id>) returns (r: Result<seq<Group>>)
    ensures Outcome(db, None, Failure(r))
    ensures r.Ok? ==> multiset(Map(r.value, GroupRowOf())) == multiset(Filter(db.groups, GroupIn(ids, query)))
    ensures r.Ok? ==> forall g :: g in r.value ==> fresh(g)
  {
    var rows := Execute(db.reliable, db.groups, GroupIn(ids, query));
    if rows.Err? {
      return Err(rows.error);
    }
    var nodes: seq<Group> := [];
    for j := 0 to |rows.value|
      invariant |nodes| == j && forall i :: 0 <= i < j ==> nodes[i].row == rows.value[i] && fresh(nodes[i])
    {
      var g := new Group(rows.value[j]);
      nodes := nodes + [g];
    }
    assert Map(nodes, GroupRowOf()) == rows.value;
    return Ok(nodes);
  }

  method AssignLinkGroup(owners: seq<AccountGroup>, e: Group)
    modifies NodeSet(owners)`group
    ensures forall x :: x in owners ==> x.group == e
  {
    for i := 0 to |owners|
      invariant forall k :: 0 <= k < i ==> owners[k].group == e
    {
      owners[i].group := e;
    }
  }

  /** The second loop of `AccountGroupQuery.loadGroup`. */
  method HandOutLinkGroups(nodes: seq<AccountGroup>, nodeids: map<Id, seq<AccountGroup>>, neighbors: seq<Group>)
    returns (err: Option<Error>)
    requires GroupedByKey(nodes, LinkGroupKey(), nodeids)
    modifies NodeSet(nodes)`group
    ensures err.Some? <==> exists e :: e in neighbors && e.row.id !in nodeids
    ensures err.Some? ==> exists j :: FirstUnasked(nodeids, Map(neighbors, GroupId()), j, err)
    ensures err.None? ==> forall x :: x in nodes ==>
              GroupTaken(neighbors, Some(x.scanned.groupId), old(x.group), x.group)
  {
    for j := 0 to |neighbors|
      invariant forall k :: 0 <= k < j ==> neighbors[k].row.id in nodeids
      invariant forall x :: x in nodes ==> GroupTaken(neighbors[..j], Some(x.scanned.groupId), old(x.group), x.group)
    {
      var e := neighbors[j];
      if e.row.id !in nodeids {
        assert FirstUnasked(nodeids, Map(neighbors, GroupId()), j, Some(UnexpectedNode(e.row.id)));
        return Some(UnexpectedNode(e.row.id));
      }
      assert NodeSet(nodeids[e.row.id]) <= NodeSet(nodes);
      AssignLinkGroup(nodeids[e.row.id], e);
      assert neighbors[..j + 1][..j] == neighbors[..j];
    }
    assert neighbors[..|neighbors|] == neighbors;
    return None;
  }

  method LoadLinkGroup(db: Database, query: GroupQuery, nodes: seq<AccountGroup>)
    returns (err: Option<Error>, ghost answer: seq<Group>)
    modifies NodeSet(nodes)`group
    ensures Outcome(db, None, err)
    ensures forall g :: g in answer ==> fresh(g)
    ensures err.None? ==> forall x :: x in nodes ==>
              && GroupTaken(answer, Some(x.scanned.groupId), old(x.group), x.group)
              && Resolves(db.groups, GroupWith(Some(x.scanned.groupId), query),
                          RowTaken(answer, GroupId(), GroupRowOf(), Some(x.scanned.groupId)))
  {
    answer := [];
    var ids, nodeids := GroupByKey(nodes, LinkGroupKey());
    if |ids| == 0 {
      return None, [];
    }
    var neighbors := AllGroups(db, query, ids);
    if neighbors.Err? {
      return Some(neighbors.error), [];
    }
    answer := neighbors.value;
    AnswerWasAsked(answer, GroupRowOf(), db.groups, GroupIn(ids, query));
    err := HandOutLinkGroups(nodes, nodeids, neighbors.value);
    forall x | x in nodes
      ensures Resolves(db.groups, GroupWith(Some(x.scanned.groupId), query),
                       RowTaken(answer, GroupId(), GroupRowOf(), Some(x.scanned.groupId)))
    {
      LastResolves(answer, GroupRowOf(), GroupId(), db.groups, GroupIn(ids, query),
                   GroupWith(Some(x.scanned.groupId), query), Some(x.scanned.groupId));
    }
  }

  method NewLinks(q: LinkQuery, columns: seq<LinkColumn>, rows: seq<LinkRow>) returns (nodes: seq<AccountGroup>)
    ensures forall l :: l in nodes ==> fresh(l)
    ensures Map(nodes, LinkOrigin()) == rows
    ensures forall l :: l in nodes ==>
              && l.columns == columns && l.scanned == ProjectLink(columns, l.origin)
              && l.account == null && l.group == null
              && l.accountRequested == q.withAccount.Some? && l.groupRequested == q.withGroup.Some?
  {
    nodes := [];
    for j := 0 to |rows|
      invariant |nodes| == j && forall l :: l in nodes ==> fresh(l)
      invariant forall i :: 0 <= i < j ==> nodes[i].origin == rows[i]
      invariant forall l :: l in nodes ==>
                  && l.columns == columns && l.scanned == ProjectLink(columns, l.origin)
                  && l.account == null && l.group == null
                  && l.accountRequested == q.withAccount.Some? && l.groupRequested == q.withGroup.Some?
    {
      var l := new AccountGroup(columns, ProjectLink(columns, rows[j]), rows[j],
                                q.withAccount.Some?, q.withGroup.Some?);
      nodes := nodes + [l];
    }
    assert Map(nodes, LinkOrigin()) == rows;
  }

  ghost predicate LinkAnswers(db: Database, q: LinkQuery, fks: seq<Id>, nodes: seq<AccountGroup>, repr: set<object>)
    reads nodes, repr
  {
    && multiset(Map(nodes, LinkOrigin())) == multiset(Filter(db.links, LinkIn(fks, q)))
    && forall l :: l in nodes ==> l in repr && LinkFaithful(db, q, l, repr)
  }

  /** The two edges of the join entities, in the order of `AccountGroupQuery.sqlAll`. */
  method LoadLinkEdges(db: Database, q: LinkQuery, joined: LinkRow -> bool, nodes: seq<AccountGroup>)
    returns (err: Option<Error>, ghost accounts: set<object>)
    requires db.Valid()
    requires multiset(Map(nodes, LinkOrigin())) == multiset(Filter(db.links, joined))
    requires forall l :: l in nodes ==>
               && l.account == null && l.group == null
               && (q.withAccount.Some? ==> l.scanned.accountId == l.origin.accountId)
               && (q.withGroup.Some? ==> l.scanned.groupId == l.origin.groupId)
    modifies NodeSet(nodes)
    ensures fresh(accounts)
    ensures Outcome(db, AccountFails(db, q.withAccount, Filter(db.links, joined)), err)
    ensures err.None? ==> forall l :: l in nodes ==>
              LinkAccountEdge(db, q.withAccount, l, accounts) && LinkGroupEdge(db, q.withGroup, l)
    decreases q, 0
  {
    accounts := {};
    LinkNodesFail(db, q.withAccount, joined, nodes);
    if q.withAccount.Some? {
      ghost var answer;
      err, answer, accounts := LoadLinkAccount(db, q.withAccount.value, nodes);
      if err.Some? { return; }
      LinkAccountsLoaded(db, q.withAccount.value, nodes, answer, accounts);
    }
    if q.withGroup.Some? {
      ghost var answer;
      err, answer := LoadLinkGroup(db, q.withGroup.value, nodes);
      if err.Some? { return; }
    }
    err := None;
  }

  /** `AccountGroupQuery.sqlAll`: the join rows, and their own two edges. */
  method AllLinks(db: Database, q: LinkQuery, fields: seq<LinkColumn>, fks: seq<Id>)
    returns (r: Result<seq<AccountGroup>>, ghost repr: set<object>)
    requires db.Valid() && Extends(fields, q.fields)
    ensures fresh(repr)
    ensures Outcome(db, if ValidLinkFields(fields)
                        then AccountFails(db, q.withAccount, Filter(db.links, LinkIn(fks, q)))
                        else Some(InvalidField), Failure(r))
    ensures !ValidLinkFields(fields) ==> r == Err(InvalidField)
    ensures r.Ok? ==> LinkAnswers(db, q, fks, r.value, repr)
    ensures r.Ok? ==> forall l :: l in r.value ==> l.scanned == ProjectLink(LinkSpec(q, fields), l.origin)
    decreases q, 1
  {
    if exists c :: c in fields && c.LinkOther? {
      return Err(InvalidField), {};
    }
    var rows := Execute(db.reliable, db.links, LinkIn(fks, q));
    if rows.Err? {
      return Err(rows.error), {};
    }
    var columns := QueryLinkColumns(q, fields);
    LinkSpecComplete(q, fields);
    LinkSpecFetches(q, fields, q.fields);
    var nodes := NewLinks(q, columns, rows.value);
    var err;
    ghost var accounts: set<object>;
    err, accounts := LoadLinkEdges(db, q, LinkIn(fks, q), nodes);
    repr := NodeSet(nodes) + accounts;
    if err.Some? {
      return Err(err.value), repr;
    }
    LinksAnswered(db, q, fks, nodes, accounts, repr);
    return Ok(nodes), repr;
  }

  lemma {:induction false} LinksAnswered(db: Database, q: LinkQuery, fks: seq<Id>, nodes: seq<AccountGroup>,
                                         accounts: set<object>, repr: set<object>)
    requires multiset(Map(nodes, LinkOrigin())) == multiset(Filter(db.links, LinkIn(fks, q)))
    requires accounts <= repr && NodeSet(nodes) <= repr
    requires forall l :: l in nodes ==>
               && LinkScanned(q.fields, l)
               && l.accountRequested == q.withAccount.Some? && l.groupRequested == q.withGroup.Some?
               && LinkAccountEdge(db, q.withAccount, l, accounts) && LinkGroupEdge(db, q.withGroup, l)
    ensures LinkAnswers(db, q, fks, nodes, repr)
  {
    AnswerWasAsked(nodes, LinkOrigin(), db.links, LinkIn(fks, q));
    forall l | l in nodes
      ensures l in repr && LinkFaithful(db, q, l, repr)
    {
      InNodeSet(nodes, l);
      LinkAccountGrows(db, q.withAccount, l, accounts, repr);
    }
  }

  lemma {:induction false} LinkAccountsLoaded(db: Database, q: AccountQuery, nodes: seq<AccountGroup>,
                                              answer: seq<Account>, repr: set<object>)
    requires AllFaithful(db, q, answer, repr)
    requires forall l :: l in nodes ==>
               && l.scanned.accountId == l.origin.accountId
               && AccountTaken(answer, Some(l.scanned.accountId), null, l.account)
               && Resolves(db.accounts, AccountWith(Some(l.scanned.accountId), q),
                           RowTaken(answer, AccountId(), AccountOrigin(), Some(l.scanned.accountId)))
    ensures forall l :: l in nodes ==> LinkAccountEdge(db, Some(q), l, repr)
  {
  }

  // ---------------------------------------------------------------- account groups

  method InitLinks(nodes: seq<Account>)
    modifies NodeSet(nodes)`links
    ensures forall x :: x in nodes ==> x.links == Some([])
  {
    for i := 0 to |nodes|
      invariant forall k :: 0 <= k < i ==> nodes[k].links == Some([])
    {
      nodes[i].links := Some([]);
    }
  }

  method HandOutLinks(nodes: seq<Account>, nodeids: map<Id, Account>, neighbors: seq<AccountGroup>)
    returns (err: Option<Error>)
    requires forall k :: k in nodeids ==> nodeids[k] in nodes
    requires forall x :: x in nodes ==> x.links == Some([])
    modifies NodeSet(nodes)`links
    ensures err.None? <==> forall c :: c in neighbors ==> c.scanned.accountId in nodeids
    ensures err.Some? ==> exists j :: FirstUnowned(nodeids, Map(neighbors, LinkAccount()), j, err)
    ensures err.None? ==> forall x :: x in nodes ==>
              x.links == Some(OwnedBy(nodeids, x, neighbors, LinkAccount(), |neighbors|))
  {
    for j := 0 to |neighbors|
      invariant forall k :: 0 <= k < j ==> neighbors[k].scanned.accountId in nodeids
      invariant forall x :: x in nodes ==> x.links == Some(OwnedBy(nodeids, x, neighbors, LinkAccount(), j))
    {
      var n := neighbors[j];
      var fk := n.scanned.accountId;
      if fk !in nodeids {
        err := Some(UnexpectedReference(fk));
        assert FirstUnowned(nodeids, Map(neighbors, LinkAccount()), j, err);
        return;
      }
      var node := nodeids[fk];
      InNodeSet(nodes, node);
      node.links := Some(node.links.value + [n]);
      assert forall x :: x in nodes ==> (LeadsTo(nodeids, x, Some(fk)) <==> x == node);
    }
    return None;
  }

  /** The query of `loadAccountGroups`: a projection of it is completed with the foreign key. */
  method FetchLinks(db: Database, query: LinkQuery, fks: seq<Id>)
    returns (r: Result<seq<AccountGroup>>, ghost repr: set<object>)
    requires db.Valid()
    ensures fresh(repr)
    ensures Outcome(db, LinksFail(db, Some(query), fks), Failure(r))
    ensures r.Ok? ==> LinkAnswers(db, query, fks, r.value, repr)
    ensures r.Ok? ==> forall l :: l in r.value ==> l.scanned.accountId == l.origin.accountId
    decreases query, 6
  {
    var fields := query.fields;
    if |fields| > 0 {
      fields := AddOnce(fields, LinkAccountID);
    }
    LinkSpecComplete(query, fields);
    r, repr := AllLinks(db, query, fields, fks);
  }

  method LoadLinks(db: Database, query: LinkQuery, nodes: seq<Account>)
    returns (err: Option<Error>, ghost answer: seq<AccountGroup>, ghost repr: set<object>)
    requires db.Valid()
    requires forall x :: x in nodes ==> x.scanned.id == x.origin.id
    modifies NodeSet(nodes)`links
    ensures Outcome(db, LinksFail(db, Some(query), Map(nodes, AccountId())), err)
    ensures fresh(repr)
    ensures err.None? ==> LinkAnswers(db, query, Map(nodes, AccountId()), answer, repr)
    ensures err.None? ==> forall l :: l in answer ==> l.scanned.accountId == l.origin.accountId
    ensures err.None? && DistinctNodes(nodes) ==> IsPartition(LinkLists(nodes), answer)
    ensures err.None? ==> forall x :: x in nodes ==>
              && x.links == Some(OwnedBy(ById(nodes, AccountId()), x, answer, LinkAccount(), |answer|))
              && (ById(nodes, AccountId())[x.scanned.id] == x ==> LinksEdge(db, Some(query), x, repr))
    decreases query, 7
  {
    var fks, nodeids := IndexById(nodes, AccountId());
    InitLinks(nodes);
    var neighbors;
    neighbors, repr := FetchLinks(db, query, fks);
    if neighbors.Err? {
      return Some(neighbors.error), [], repr;
    }
    answer := neighbors.value;
    AnswerWasAsked(answer, LinkOrigin(), db.links, LinkIn(fks, query));
    IdsAreIndexed(nodes, AccountId());
    err := HandOutLinks(nodes, nodeids, neighbors.value);
    assert LinkAnswers(db, query, fks, answer, repr);
    if DistinctNodes(nodes) {
      AppendedIsPartition(nodes, answer, LinkAccount(), LinkLists(nodes));
    }
    forall x | x in nodes && nodeids[x.scanned.id] == x
      ensures LinksEdge(db, Some(query), x, repr)
    {
      LinksLoaded(db, query, nodes, x, answer, repr);
    }
  }

  lemma {:induction false} LinksLoaded(db: Database, query: LinkQuery, nodes: seq<Account>, x: Account,
                                       answer: seq<AccountGroup>, repr: set<object>)
    requires x in nodes && x.scanned.id == x.origin.id && ById(nodes, AccountId())[x.scanned.id] == x
    requires x.links == Some(OwnedBy(ById(nodes, AccountId()), x, answer, LinkAccount(), |answer|))
    requires LinkAnswers(db, query, Map(nodes, AccountId()), answer, repr)
    requires forall l :: l in answer ==> l.scanned.accountId == l.origin.accountId
    ensures LinksEdge(db, Some(query), x, repr)
  {
    var fks := Map(nodes, AccountId());
    OwnedByIsOwned(nodes, AccountId(), x, answer, LinkAccount());
    IdsAreIndexed(nodes, AccountId());
    AnswerWasAsked(answer, LinkOrigin(), db.links, LinkIn(fks, query));
    OwnedRows(answer, LinkOrigin(), LinkAccount(), x.scanned.id, db.links, LinkIn(fks, query),
              LinkOf(x.scanned.id, query));
    FilterMembers(answer, HasKey(LinkAccount(), x.scanned.id));
  }

  // ---------------------------------------------------------------- the query

  method NewAccounts(q: AccountQuery, columns: seq<RowScan.Column>, rows: seq<AccountRow>) returns (nodes: seq<Account>)
    ensures forall n :: n in nodes ==> fresh(n)
    ensures Map(nodes, AccountOrigin()) == rows
    ensures forall i, j :: 0 <= i < j < |nodes| ==> nodes[i] != nodes[j]
    ensures forall n :: n in nodes ==>
              && n.columns == columns && n.scanned == Project(columns, n.origin) && n.loaded == FlagsOf(q)
              && n.groups == None && n.proxy == null && n.parent == null
              && n.children == None && n.usageLogs == None && n.links == None
  {
    nodes := [];
    for j := 0 to |rows|
      invariant |nodes| == j && forall n :: n in nodes ==> fresh(n)
      invariant forall i :: 0 <= i < j ==> nodes[i].origin == rows[i]
      invariant forall i, k :: 0 <= i < k < |nodes| ==> nodes[i] != nodes[k]
      invariant forall n :: n in nodes ==>
                  && n.columns == columns && n.scanned == Project(columns, n.origin) && n.loaded == FlagsOf(q)
                  && n.groups == None && n.proxy == null && n.parent == null
                  && n.children == None && n.usageLogs == None && n.links == None
    {
      var n := new Account(columns, Project(columns, rows[j]), rows[j], FlagsOf(q));
      nodes := nodes + [n];
    }
  }

  /** A node as `sqlAll` creates it: columns scanned, flags set, no edge assigned. */
  ghost predicate Bare(q: AccountQuery, n: Account)
    reads n
  {
    && n.scanned.id == n.origin.id && n.loaded == FlagsOf(q)
    && (q.withProxy.Some? ==> n.scanned.proxyId == n.origin.proxyId)
    && (q.withParent.Some? ==> n.scanned.parentId == n.origin.parentId)
    && n.groups == None && n.proxy == null && n.parent == null
    && n.children == None && n.usageLogs == None && n.links == None
  }

  /** The six edges of every node, whatever was requested. */
  ghost predicate EdgesLoaded(db: Database, q: AccountQuery, nodes: seq<Account>, repr: set<object>)
    reads nodes, repr
  {
    forall n :: n in nodes ==>
      && GroupsEdge(db, q.withGroups, n) && ProxyEdge(db, q.withProxy, n) && ParentEdge(db, q.withParent, n, repr)
      && ChildrenEdge(db, q.withChildren, n, repr) && UsageEdge(db, q.withUsageLogs, n)
      && LinksEdge(db, q.withLinks, n, repr)
  }

  /** The first two loaders of `sqlAll`, in its order; an error abandons the rest. */
  method LoadFirstEdges(db: Database, q: AccountQuery, nodes: seq<Account>) returns (err: Option<Error>)
    requires forall n :: n in nodes ==> Bare(q, n) && ById(nodes, AccountId())[n.scanned.id] == n
    modifies NodeSet(nodes)`groups, NodeSet(nodes)`proxy
    ensures Outcome(db, GroupsFail(db, q.withGroups, Map(nodes, AccountId())), err)
    ensures err.None? ==> forall n :: n in nodes ==> GroupsEdge(db, q.withGroups, n) && ProxyEdge(db, q.withProxy, n)
  {
    if q.withGroups.Some? {
      ghost var rows, answer;
      err, rows, answer := LoadGroups(db, q.withGroups.value, nodes);
      if err.Some? { return; }
    }
    if q.withProxy.Some? {
      ghost var issued, answer;
      err, issued, answer := LoadProxy(db, q.withProxy.value, nodes);
      if err.Some? { return; }
    }
    err := None;
  }

  method LoadParentEdge(db: Database, q: AccountQuery, nodes: seq<Account>)
    returns (err: Option<Error>, ghost repr: set<object>)
    requires db.Valid()
    requires forall n :: n in nodes ==>
              n.parent == null && (q.withParent.Some? ==> n.scanned.parentId == n.origin.parentId)
    modifies NodeSet(nodes)`parent
    ensures fresh(repr)
    ensures Outcome(db, ParentFails(db, q.withParent, KeysOf(nodes, ParentKey())), err)
    ensures err.None? ==> forall n :: n in nodes ==> ParentEdge(db, q.withParent, n, repr)
    decreases q, 0
  {
    repr := {};
    if q.withParent.Some? {
      ghost var issued, answer;
      err, issued, answer, repr := LoadParent(db, q.withParent.value, nodes);
      if err.Some? { return; }
      ParentsLoaded(db, q.withParent.value, nodes, answer, repr);
    }
    err := None;
  }

  method LoadChildrenEdge(db: Database, q: AccountQuery, nodes: seq<Account>)
    returns (err: Option<Error>, ghost repr: set<object>)
    requires db.Valid()
    requires forall n :: n in nodes ==> n.scanned.id == n.origin.id && ById(nodes, AccountId())[n.scanned.id] == n
    requires forall n :: n in nodes ==> n.children == None
    modifies NodeSet(nodes)`children
    ensures fresh(repr)
    ensures Outcome(db, ChildrenFail(db, q.withChildren, Map(nodes, AccountId())), err)
    ensures err.None? ==> forall n :: n in nodes ==> ChildrenEdge(db, q.withChildren, n, repr)
    decreases q, 0
  {
    repr := {};
    if q.withChildren.Some? {
      ghost var answer;
      err, answer, repr := LoadChildren(db, q.withChildren.value, nodes);
      if err.Some? { return; }
    }
    err := None;
  }

  method LoadUsageEdge(db: Database, q: AccountQuery, nodes: seq<Account>) returns (err: Option<Error>)
    requires forall n :: n in nodes ==> n.scanned.id == n.origin.id && ById(nodes, AccountId())[n.scanned.id] == n
    requires forall n :: n in nodes ==> n.usageLogs == None
    modifies NodeSet(nodes)`usageLogs
    ensures Outcome(db, UsageFails(q.withUsageLogs), err)
    ensures err.None? ==> forall n :: n in nodes ==> UsageEdge(db, q.withUsageLogs, n)
  {
    if q.withUsageLogs.Some? {
      ghost var answer;
      err, answer := LoadUsageLogs(db, q.withUsageLogs.value, nodes);
      if err.Some? { return; }
    }
    err := None;
  }

  /** The next two loaders, for the lists of children and usage logs. */
  method LoadNextEdges(db: Database, q: AccountQuery, nodes: seq<Account>)
    returns (err: Option<Error>, ghost repr: set<object>)
    requires db.Valid()
    requires forall n :: n in nodes ==> n.scanned.id == n.origin.id && ById(nodes, AccountId())[n.scanned.id] == n
    requires forall n :: n in nodes ==> n.children == None && n.usageLogs == None
    modifies NodeSet(nodes)`children, NodeSet(nodes)`usageLogs
    ensures fresh(repr)
    ensures Outcome(db, First(ChildrenFail(db, q.withChildren, Map(nodes, AccountId())),
                              UsageFails(q.withUsageLogs)), err)
    ensures err.None? ==> forall n :: n in nodes ==>
              ChildrenEdge(db, q.withChildren, n, repr) && UsageEdge(db, q.withUsageLogs, n)
    decreases q, 1
  {
    err, repr := LoadChildrenEdge(db, q, nodes);
    if err.Some? { return; }
    err := LoadUsageEdge(db, q, nodes);
  }

  /** The last loader, for the join entities. */
  method LoadLastEdge(db: Database, q: AccountQuery, nodes: seq<Account>)
    returns (err: Option<Error>, ghost repr: set<object>)
    requires db.Valid()
    requires forall n :: n in nodes ==> n.scanned.id == n.origin.id && ById(nodes, AccountId())[n.scanned.id] == n
    requires forall n :: n in nodes ==> n.links == None
    modifies NodeSet(nodes)`links
    ensures fresh(repr)
    ensures Outcome(db, LinksFail(db, q.withLinks, Map(nodes, AccountId())), err)
    ensures err.None? ==> forall n :: n in nodes ==> LinksEdge(db, q.withLinks, n, repr)
    decreases q, 0
  {
    repr := {};
    if q.withLinks.Some? {
      ghost var answer;
      err, answer, repr := LoadLinks(db, q.withLinks.value, nodes);
      if err.Some? { return; }
    }
    err := None;
  }

  /** The children, usage logs and join entities, in the order of `sqlAll`. */
  method LoadLists(db: Database, q: AccountQuery, nodes: seq<Account>)
    returns (err: Option<Error>, ghost repr: set<object>)
    requires db.Valid()
    requires forall n :: n in nodes ==> n.scanned.id == n.origin.id && ById(nodes, AccountId())[n.scanned.id] == n
    requires forall n :: n in nodes ==> n.children == None && n.usageLogs == None && n.links == None
    modifies NodeSet(nodes)`children, NodeSet(nodes)`usageLogs, NodeSet(nodes)`links
    ensures fresh(repr)
    ensures Outcome(db, ListsFail(db, q, Map(nodes, AccountId())), err)
    ensures err.None? ==> forall n :: n in nodes ==>
              ChildrenEdge(db, q.withChildren, n, repr) && UsageEdge(db, q.withUsageLogs, n)
                && LinksEdge(db, q.withLinks, n, repr)
    decreases q, 2
  {
    ghost var next: set<object>, last: set<object>;
    err, next := LoadNextEdges(db, q, nodes);
    repr := next;
    if err.Some? { return; }
    err, last := LoadLastEdge(db, q, nodes);
    repr := next + last;
    if err.Some? { return; }
    forall n | n in nodes
      ensures ChildrenEdge(db, q.withChildren, n, repr) && LinksEdge(db, q.withLinks, n, repr)
    {
      ChildrenGrow(db, q.withChildren, n, next, repr);
      LinksGrow(db, q.withLinks, n, last, repr);
    }
  }

  /** The groups, proxy and parent, in the order of `sqlAll`. */
  method LoadUniques(db: Database, q: AccountQuery, nodes: seq<Account>)
    returns (err: Option<Error>, ghost repr: set<object>)
    requires db.Valid()
    requires forall n :: n in nodes ==> Bare(q, n) && ById(nodes, AccountId())[n.scanned.id] == n
    modifies NodeSet(nodes)`groups, NodeSet(nodes)`proxy, NodeSet(nodes)`parent
    ensures fresh(repr)
    ensures Outcome(db, UniquesFail(db, q, Map(nodes, AccountId()), KeysOf(nodes, ParentKey())), err)
    ensures err.None? ==> forall n :: n in nodes ==>
              GroupsEdge(db, q.withGroups, n) && ProxyEdge(db, q.withProxy, n) && ParentEdge(db, q.withParent, n, repr)
    decreases q, 1
  {
    repr := {};
    err := LoadFirstEdges(db, q, nodes);
    if err.Some? { return; }
    err, repr := LoadParentEdge(db, q, nodes);
  }

  /** All six loaders: each leaves the edges of the others alone. */
  method LoadEdges(db: Database, q: AccountQuery, nodes: seq<Account>)
    returns (err: Option<Error>, ghost repr: set<object>)
    requires db.Valid()
    requires forall n :: n in nodes ==> Bare(q, n) && ById(nodes, AccountId())[n.scanned.id] == n
    modifies NodeSet(nodes)
    ensures fresh(repr)
    ensures Outcome(db, LevelFails(db, q, Map(nodes, AccountId()), KeysOf(nodes, ParentKey())), err)
    ensures err.None? ==> EdgesLoaded(db, q, nodes, repr)
    decreases q, 3
  {
    ghost var first: set<object>, last: set<object>;
    err, first := LoadUniques(db, q, nodes);
    repr := first;
    if err.Some? { return; }
    err, last := LoadLists(db, q, nodes);
    repr := first + last;
    if err.Some? { return; }
    EdgesGrow(db, q, nodes, first, last, repr);
  }

  lemma {:induction false} EdgesGrow(db: Database, q: AccountQuery, nodes: seq<Account>,
                                     first: set<object>, last: set<object>, repr: set<object>)
    requires first <= repr && last <= repr
    requires forall n :: n in nodes ==>
               GroupsEdge(db, q.withGroups, n) && ProxyEdge(db, q.withProxy, n)
                 && ParentEdge(db, q.withParent, n, first)
    requires forall n :: n in nodes ==>
               ChildrenEdge(db, q.withChildren, n, last) && UsageEdge(db, q.withUsageLogs, n)
                 && LinksEdge(db, q.withLinks, n, last)
    ensures EdgesLoaded(db, q, nodes, repr)
  {
    forall n | n in nodes
      ensures ParentEdge(db, q.withParent, n, repr) && ChildrenEdge(db, q.withChildren, n, repr)
                && LinksEdge(db, q.withLinks, n, repr)
    {
      ParentGrows(db, q.withParent, n, first, repr);
      ChildrenGrow(db, q.withChildren, n, last, repr);
      LinksGrow(db, q.withLinks, n, last, repr);
    }
  }

  lemma {:induction false} ParentsLoaded(db: Database, q: AccountQuery, nodes: seq<Account>, answer: seq<Account>,
                                         repr: set<object>)
    requires AllFaithful(db, q, answer, repr)
    requires forall x :: x in nodes ==>
               && x.scanned.parentId == x.origin.parentId
               && AccountTaken(answer, x.scanned.parentId, null, x.parent)
               && Resolves(db.accounts, AccountWith(x.scanned.parentId, q),
                           RowTaken(answer, AccountId(), AccountOrigin(), x.scanned.parentId))
    ensures forall x :: x in nodes ==> ParentEdge(db, Some(q), x, repr)
  {
  }

  /** Rows of a table with a primary key come back with distinct ids. */
  lemma {:induction false} DistinctIds(db: Database, p: AccountRow -> bool, nodes: seq<Account>)
    requires db.Valid()
    requires multiset(Map(nodes, AccountOrigin())) == multiset(Filter(db.accounts, p))
    requires forall n :: n in nodes ==> n.scanned.id == n.origin.id
    ensures DistinctNodes(nodes)
  {
    var rows := Map(nodes, AccountOrigin());
    AnswerWasAsked(nodes, AccountOrigin(), db.accounts, p);
    SelectionNeverRepeats(db.accounts, p, rows);
    forall i, j | 0 <= i < j < |nodes|
      ensures nodes[i].scanned.id != nodes[j].scanned.id
    {
      assert nodes[i] in nodes && nodes[j] in nodes;
      assert rows[i] in db.accounts && rows[j] in db.accounts;
    }
  }

  /** The nodes hold what the projection leaves of their rows. */
  ghost predicate Projected(q: AccountQuery, fields: seq<RowScan.Column>, nodes: seq<Account>) {
    forall n :: n in nodes ==> n.scanned == Project(SpecColumns(q, fields), n.origin)
  }

  /** What the scan leaves: one node per row with its columns and no edge yet, found under its own id. */
  ghost predicate JustScanned(db: Database, q: AccountQuery, fields: seq<RowScan.Column>, nodes: seq<Account>)
    reads nodes
  {
    forall n :: n in nodes ==>
      && Bare(q, n) && n.origin in db.accounts && n.scanned.id == n.origin.id && n.loaded == FlagsOf(q)
      && n.scanned == Project(SpecColumns(q, fields), n.origin) && AccountScanned(q.fields, n)
      && ById(nodes, AccountId())[n.scanned.id] == n
  }

  /** The first half of `sqlAll`: validate the fields, run the query, create one struct per row. */
  method FetchAccounts(db: Database, q: AccountQuery, fields: seq<RowScan.Column>, narrow: AccountRow -> bool)
    returns (r: Result<seq<Account>>)
    requires db.Valid() && Extends(fields, q.fields)
    ensures r.Err? || r.value == [] ==>
              Outcome(db, QueryFails(db, q, fields, narrow), Failure(r))
    ensures r.Ok? && r.value == [] ==> Answers(db, q, narrow, r.value, {})
    ensures !ValidFields(fields) ==> r == Err(InvalidField)
    ensures r.Ok? ==> multiset(Map(r.value, AccountOrigin())) == multiset(Filter(db.accounts, Both(q.where, narrow)))
    ensures r.Ok? ==> forall i, j :: 0 <= i < j < |r.value| ==> r.value[i] != r.value[j]
    ensures r.Ok? ==> fresh(NodeSet(r.value)) && JustScanned(db, q, fields, r.value) && Projected(q, fields, r.value)
  {
    if exists c :: c in fields && c.Other? {
      return Err(InvalidField);
    }
    var columns := QuerySpecColumns(q, fields);
    var rows := Execute(db.reliable, db.accounts, Both(q.where, narrow));
    if rows.Err? {
      return Err(rows.error);
    }
    var nodes := NewAccounts(q, columns, rows.value);
    SpecFetches(q, fields, q.fields);
    NodesAreBare(db, q, fields, Both(q.where, narrow), nodes);
    NodesFail(db, q, narrow, nodes);
    return Ok(nodes);
  }

  /** The second half of `sqlAll`: the requested edges of the nodes just created. */
  method CompleteNodes(db: Database, q: AccountQuery, fields: seq<RowScan.Column>, narrow: AccountRow -> bool,
                       nodes: seq<Account>)
    returns (r: Result<seq<Account>>, ghost repr: set<object>)
    requires db.Valid() && Extends(fields, q.fields)
    requires multiset(Map(nodes, AccountOrigin())) == multiset(Filter(db.accounts, Both(q.where, narrow)))
    requires forall i, j :: 0 <= i < j < |nodes| ==> nodes[i] != nodes[j]
    requires nodes != [] && ValidFields(fields) && JustScanned(db, q, fields, nodes)
    modifies NodeSet(nodes)
    ensures fresh(repr - NodeSet(nodes))
    ensures Outcome(db, QueryFails(db, q, fields, narrow), Failure(r))
    ensures r.Ok? ==> r.value == nodes && Answers(db, q, narrow, nodes, repr)
    decreases q, 4
  {
    NodesFail(db, q, narrow, nodes);
    var err;
    ghost var nested: set<object>;
    err, nested := LoadEdges(db, q, nodes);
    repr := nested + NodeSet(nodes);
    if err.Some? {
      return Err(err.value), repr;
    }
    NodesAnswer(db, q, narrow, nodes, nested, repr);
    return Ok(nodes), repr;
  }

  /**
   `AccountQuery.All`: under every driver, the nodes are the matching rows, each once, and every node carries the
   whole query tree below it as the naive lookups would find it, whatever is projected. The only errors are those of
   the driver and of the field names: the "unexpected" errors of the loaders never occur.
   */
  method All(db: Database, q: AccountQuery, fields: seq<RowScan.Column>, narrow: AccountRow -> bool)
    returns (r: Result<seq<Account>>, ghost repr: set<object>)
    requires db.Valid() && Extends(fields, q.fields)
    ensures fresh(repr)
    ensures Outcome(db, QueryFails(db, q, fields, narrow), Failure(r))
    ensures !ValidFields(fields) ==> r == Err(InvalidField)
    ensures r.Ok? ==> Answers(db, q, narrow, r.value, repr)
    ensures r.Ok? ==> Projected(q, fields, r.value)
    decreases q, 5
  {
    r := FetchAccounts(db, q, fields, narrow);
    repr := {};
    if r.Err? || |r.value| == 0 {
      return;
    }
    r, repr := CompleteNodes(db, q, fields, narrow, r.value);
  }

  lemma {:induction false} NodesAreBare(db: Database, q: AccountQuery, fields: seq<RowScan.Column>,
                                        p: AccountRow -> bool, nodes: seq<Account>)
    requires db.Valid()
    requires multiset(Map(nodes, AccountOrigin())) == multiset(Filter(db.accounts, p))
    requires forall n :: n in nodes ==>
               && n.scanned == Project(SpecColumns(q, fields), n.origin) && n.loaded == FlagsOf(q)
               && n.groups == None && n.proxy == null && n.parent == null
               && n.children == None && n.usageLogs == None && n.links == None
    ensures forall n :: n in nodes ==>
              Bare(q, n) && ById(nodes, AccountId())[n.scanned.id] == n && n.origin in db.accounts
  {
    AnswerWasAsked(nodes, AccountOrigin(), db.accounts, p);
    forall n | n in nodes
      ensures Bare(q, n)
    {
      ProjectionKeepsKeys(q, fields, n.origin);
    }
    DistinctIds(db, p, nodes);
    forall n | n in nodes
      ensures ById(nodes, AccountId())[n.scanned.id] == n
    {
      ByIdOfDistinct(nodes, AccountId(), n);
    }
  }

  /** Nodes whose edges are loaded answer their query. */
  lemma {:induction false} NodesAnswer(db: Database, q: AccountQuery, narrow: AccountRow -> bool, nodes: seq<Account>,
                                       nested: set<object>, repr: set<object>)
    requires EdgesLoaded(db, q, nodes, nested) && nested <= repr && NodeSet(nodes) <= repr
    requires multiset(Map(nodes, AccountOrigin())) == multiset(Filter(db.accounts, Both(q.where, narrow)))
    requires forall i, j :: 0 <= i < j < |nodes| ==> nodes[i] != nodes[j]
    requires forall n :: n in nodes ==>
               && n.scanned.id == n.origin.id && n.origin in db.accounts && n.loaded == FlagsOf(q)
               && AccountScanned(q.fields, n)
    ensures Answers(db, q, narrow, nodes, repr)
  {
    forall n | n in nodes
      ensures n in repr && Faithful(db, q, n, repr)
    {
      InNodeSet(nodes, n);
      ParentGrows(db, q.withParent, n, nested, repr);
      ChildrenGrow(db, q.withChildren, n, nested, repr);
      LinksGrow(db, q.withLinks, n, nested, repr);
    }
  }
}
