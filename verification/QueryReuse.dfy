/**
 Edge queries are builders that the loaders modify: `loadProxy` adds its `IN` predicate to the query object that the
 caller configured. Running the same query object again therefore looks up the new keys among the old ones only.
 */
module QueryReuse {
  import opened Prelude
  import opened Store
  import opened Entities
  import opened Loaders
  import opened EagerSpec
  import opened Outcomes
  import opened EagerLoad
  import RowScan

  /** All predicates of a builder hold. */
  function Conjunction(ps: seq<ProxyRow -> bool>): ProxyRow -> bool {
    (r: ProxyRow) => forall i :: 0 <= i < |ps| ==> ps[i](r)
  }

  function IdIn(ids: seq<Id>): ProxyRow -> bool {
    (r: ProxyRow) => r.id in ids
  }

  class ProxyBuilder {
    var predicates: seq<ProxyRow -> bool>

    constructor ()
      ensures predicates == []
    {
      predicates := [];
    }

    method Where(p: ProxyRow -> bool)
      modifies this
      ensures predicates == old(predicates) + [p]
    {
      predicates := predicates + [p];
    }
  }

  /** What the loader left in a node, as a row. */
  ghost function Found(x: Account): Option<ProxyRow>
    reads x`proxy
  {
    if x.proxy == null then None else Some(x.proxy.row)
  }

  ghost predicate Finds(db: Database, ps: seq<ProxyRow -> bool>, fk: Option<Id>, found: Option<ProxyRow>) {
    Resolves(db.proxies, ProxyWith(fk, ProxyQuery(Conjunction(ps))), found)
  }

  /** What a run on some nodes leaves on the builder. */
  function LeftBehind(nodes: seq<Account>): seq<ProxyRow -> bool> {
    var keys := KeysOf(nodes, ProxyKey());
    if keys == [] then [] else [IdIn(Distinct(keys))]
  }

  /** `loadProxy` on a builder: correct for the predicates it finds, and it leaves its own behind. */
  method LoadProxyWith(db: Database, builder: ProxyBuilder, nodes: seq<Account>) returns (err: Option<Error>)
    requires forall x :: x in nodes ==> x.proxy == null
    modifies builder, NodeSet(nodes)`proxy
    ensures builder.predicates == old(builder.predicates) + LeftBehind(nodes)
    ensures Outcome(db, None, err)
    ensures err.None? ==> forall x :: x in nodes ==> Finds(db, old(builder.predicates), x.scanned.proxyId, Found(x))
  {
    ghost var issued, answer;
    err, issued, answer := LoadProxy(db, ProxyQuery(Conjunction(builder.predicates)), nodes);
    var ids, nodeids := GroupByKey(nodes, ProxyKey());
    if |ids| > 0 {
      builder.Where(IdIn(ids));
    }
  }

  // ---------------------------------------------------------------- using a builder again

  /** There is a row to be found: the key names one, and it passes the caller's predicates. */
  ghost predicate HasRow(db: Database, ps: seq<ProxyRow -> bool>, fk: Option<Id>) {
    exists r :: r in db.proxies && ProxyWith(fk, ProxyQuery(Conjunction(ps)))(r)
  }

  lemma {:induction false} NarrowedMeans(ps: seq<ProxyRow -> bool>, ids: seq<Id>, r: ProxyRow)
    ensures Conjunction(ps + [IdIn(ids)])(r) <==> Conjunction(ps)(r) && r.id in ids
  {
    var more := ps + [IdIn(ids)];
    assert more[|ps|](r) == (r.id in ids);
    assert forall i :: 0 <= i < |ps| ==> more[i] == ps[i];
  }

  /**
   A lookup by a builder that an earlier run narrowed to `ids` still finds what the caller asked for exactly when there
   is nothing to find, or the key was already asked for in the earlier run.
   */
  lemma {:induction false} ReuseAgreesIff(db: Database, ps: seq<ProxyRow -> bool>, ids: seq<Id>, fk: Option<Id>,
                                          found: Option<ProxyRow>)
    requires Finds(db, ps + [IdIn(ids)], fk, found)
    ensures Finds(db, ps, fk, found) <==> (HasRow(db, ps, fk) ==> fk.value in ids)
    ensures found.Some? ==> Finds(db, ps, fk, found)
  {
    forall r: ProxyRow
      ensures Conjunction(ps + [IdIn(ids)])(r) <==> Conjunction(ps)(r) && r.id in ids
    {
      NarrowedMeans(ps, ids, r);
    }
  }

  /** Two runs on one builder: the second finds what the caller asked for under exactly that condition, node by node. */
  method LoadTwiceWith(db: Database, builder: ProxyBuilder, first: seq<Account>, second: seq<Account>)
    returns (err: Option<Error>)
    requires forall x :: x in first || x in second ==> x.proxy == null
    requires forall x :: x in second ==> x !in first
    modifies builder, NodeSet(first)`proxy, NodeSet(second)`proxy
    ensures Outcome(db, None, err)
    ensures err.None? ==> forall x :: x in first ==> Finds(db, old(builder.predicates), x.scanned.proxyId, Found(x))
    ensures err.None? ==> forall x :: x in second ==>
              var keys := KeysOf(first, ProxyKey());
              (Finds(db, old(builder.predicates), x.scanned.proxyId, Found(x)) <==>
               keys == [] || (HasRow(db, old(builder.predicates), x.scanned.proxyId) ==>
                 x.scanned.proxyId.value in keys))
    ensures err.None? ==> forall x :: x in second && x.proxy != null ==>
              Finds(db, old(builder.predicates), x.scanned.proxyId, Found(x))
    ensures err.None? ==> builder.predicates == old(builder.predicates) + LeftBehind(first) + LeftBehind(second)
  {
    ghost var ps, keys := builder.predicates, KeysOf(first, ProxyKey());
    err := LoadProxyWith(db, builder, first);
    if err.Some? {
      return;
    }
    err := LoadProxyWith(db, builder, second);
    if err.Some? {
      return;
    }
    assert ps + [] == ps;
    forall x | x in second
      ensures Finds(db, ps, x.scanned.proxyId, Found(x)) <==>
              keys == [] || (HasRow(db, ps, x.scanned.proxyId) ==> x.scanned.proxyId.value in keys)
      ensures x.proxy != null ==> Finds(db, ps, x.scanned.proxyId, Found(x))
    {
      if keys != [] {
        ReuseAgreesIff(db, ps, Distinct(keys), x.scanned.proxyId, Found(x));
      }
    }
  }

  /**
   An unused builder without predicates, two accounts with a proxy each, two runs: the first account has its proxy, the
   builder asks for that one only, and the second account is left without the proxy that its key names.
   */
  method SecondRunLosesARow()
    returns (db: Database, builder: ProxyBuilder, kept: Account, lost: Account)
    ensures db.Valid() && db.reliable && db.proxies == [ProxyRow(1), ProxyRow(2)]
    ensures kept.scanned.proxyId == Some(1) && Found(kept) == Some(ProxyRow(1))
    ensures |builder.predicates| == 2 && builder.predicates[0] == IdIn([1])
    ensures lost.scanned.proxyId == Some(2) && HasRow(db, [], lost.scanned.proxyId)
    ensures lost.proxy == null && !Finds(db, [], lost.scanned.proxyId, Found(lost))
  {
    db := Database(true, [], [ProxyRow(1), ProxyRow(2)], [], [], []);
    builder := new ProxyBuilder();
    var loaded := Loaded(false, true, false, false, false, false);
    var columns := [RowScan.ID, RowScan.ProxyID];
    kept := new Account(columns, AccountRow(1, Some(1), None), AccountRow(1, Some(1), None), loaded);
    lost := new Account(columns, AccountRow(2, Some(2), None), AccountRow(2, Some(2), None), loaded);
    KeysOfOne(kept, 1);
    KeysOfOne(lost, 2);
    var err := LoadTwiceWith(db, builder, [kept], [lost]);
    assert err.None?;
    assert kept in [kept] && lost in [lost];
    assert ProxyRow(1) == db.proxies[0] && ProxyRow(2) == db.proxies[1];
    assert ProxyWith(Some(1), ProxyQuery(Conjunction([])))(ProxyRow(1));
    assert ProxyWith(Some(2), ProxyQuery(Conjunction([])))(ProxyRow(2));
    assert HasRow(db, [], Some(2));
  }

  lemma {:induction false} KeysOfOne(x: Account, key: Id)
    requires x.scanned.proxyId == Some(key)
    ensures KeysOf([x], ProxyKey()) == [key]
  {
    assert [x][..|[x]| - 1] == [];
    assert KeysOf([x][..|[x]| - 1], ProxyKey()) == [];
  }
}
