/**
 `First` and `Only`: a single row out of a query, by way of a limit. Both set the limit on the query object itself and
 leave it there, so what they promise about their own answer costs a later use of the same object its completeness.
 */
module Singular {
  import opened Prelude
  import opened Store

  /** A limit of zero is no limit: `querySpec` leaves it at zero when none was set. */
  function LimitedTo(limit: nat, n: nat): nat {
    if 0 < limit < n then limit else n
  }

  /** Some of the matching rows, up to the limit; which ones is the driver's choice. */
  ghost predicate Limited<Row>(answer: seq<Row>, matching: seq<Row>, limit: nat) {
    multiset(answer) <= multiset(matching) && |answer| == LimitedTo(limit, |matching|)
  }

  class AccountFinder {
    const where: AccountRow -> bool
    var limit: nat

    constructor (where: AccountRow -> bool)
      ensures this.where == where && limit == 0
    {
      this.where, limit := where, 0;
    }

    ghost function Matching(db: Database): seq<AccountRow> {
      Filter(db.accounts, where)
    }

    method All(db: Database) returns (r: Result<seq<AccountRow>>)
      ensures r.Err? ==> r.error == DriverError && !db.reliable
      ensures r.Ok? ==> Limited(r.value, Matching(db), limit)
    {
      r := Execute(db.reliable, db.accounts, where);
      if r.Ok? {
        ghost var full := r.value;
        var n := LimitedTo(limit, |r.value|);
        SameMembers(full, Matching(db));
        assert full == full[..n] + full[n..];
        r := Ok(r.value[..n]);
      }
    }

    /** Any one matching row; `NotFound` only when there is none. */
    method First(db: Database) returns (r: Result<AccountRow>)
      modifies this
      ensures limit == 1
      ensures r.Ok? ==> r.value in Matching(db)
      ensures r.Err? ==>
                (r.error == DriverError && !db.reliable) || (r.error == NotFound("account") && Matching(db) == [])
    {
      limit := 1;
      var nodes := All(db);
      if nodes.Err? {
        return Err(nodes.error);
      }
      if |nodes.value| == 0 {
        return Err(NotFound("account"));
      }
      assert nodes.value[0] in multiset(nodes.value);
      return Ok(nodes.value[0]);
    }

    /** The one matching row, although at most two are fetched. */
    method Only(db: Database) returns (r: Result<AccountRow>)
      modifies this
      ensures limit == 2
      ensures r.Ok? ==> Matching(db) == [r.value]
      ensures r.Err? ==>
                || (r.error == DriverError && !db.reliable)
                || (r.error == NotFound("account") && Matching(db) == [])
                || (r.error == NotSingular("account") && |Matching(db)| >= 2)
    {
      limit := 2;
      var nodes := All(db);
      if nodes.Err? {
        return Err(nodes.error);
      }
      if |nodes.value| == 0 {
        return Err(NotFound("account"));
      }
      if |nodes.value| > 1 {
        return Err(NotSingular("account"));
      }
      assert nodes.value[0] in multiset(nodes.value);
      assert nodes.value[0] in Matching(db);
      return Ok(nodes.value[0]);
    }
  }

  /** The answer under a limit is the whole answer exactly when the limit does not bite. */
  lemma {:induction false} CompleteIff<Row>(answer: seq<Row>, matching: seq<Row>, limit: nat)
    requires Limited(answer, matching, limit)
    ensures multiset(answer) == multiset(matching) <==> limit == 0 || |matching| <= limit
  {
    var missing := multiset(matching) - multiset(answer);
    assert |multiset(answer)| == |answer| && |multiset(matching)| == |matching|;
    assert multiset(matching) == multiset(answer) + missing;
    assert |multiset(matching)| == |multiset(answer)| + |missing|;
  }

  /** `First`, then `All` on the same query object: everything is returned only if there was one row at most. */
  method FirstThenAll(finder: AccountFinder, db: Database)
    returns (one: Result<AccountRow>, all: Result<seq<AccountRow>>)
    modifies finder
    ensures one.Ok? ==> one.value in finder.Matching(db)
    ensures one.Err? ==> (one.error == DriverError && !db.reliable)
                         || (one.error == NotFound("account") && finder.Matching(db) == [])
    ensures all.Err? ==> all.error == DriverError && !db.reliable
    ensures all.Ok? ==> Limited(all.value, finder.Matching(db), 1)
    ensures all.Ok? ==> (multiset(all.value) == multiset(finder.Matching(db)) <==> |finder.Matching(db)| <= 1)
  {
    one := finder.First(db);
    all := finder.All(db);
    if all.Ok? {
      CompleteIff(all.value, finder.Matching(db), 1);
    }
  }

  /** Two rows match; `First` finds one of them, and the `All` after it on the same object returns only one. */
  method SecondRowIsLost()
    returns (db: Database, finder: AccountFinder, one: Result<AccountRow>, all: Result<seq<AccountRow>>)
    ensures db.reliable && |finder.Matching(db)| == 2 && finder.limit == 1
    ensures one.Ok? && one.value in finder.Matching(db)
    ensures all.Ok? && Limited(all.value, finder.Matching(db), 1) && |all.value| == 1
  {
    var a, b := AccountRow(1, None, None), AccountRow(2, None, None);
    db := Database(true, [a, b], [], [], [], []);
    finder := new AccountFinder(Anything());
    assert finder.Matching(db) == [a, b] by {
      assert db.accounts[1..] == [b] && [b][1..] == [];
      assert Anything()(a) && Anything()(b);
      assert Filter([b][1..], Anything()) == [];
      assert Filter([b], Anything()) == [b];
    }
    one := finder.First(db);
    all := finder.All(db);
  }

  /** A limited answer of one row means one matching row. */
  ghost predicate DecidesUniqueness(limit: nat) {
    forall answer: seq<AccountRow>, matching: seq<AccountRow> ::
      Limited(answer, matching, limit) ==> (|answer| == 1 <==> |matching| == 1)
  }

  /** Two is the smallest limit `Only` can do with; the limit that `First` leaves behind would not be enough. */
  lemma {:induction false} OnlyNeedsTwo(limit: nat)
    ensures DecidesUniqueness(limit) <==> limit != 1
  {
    var r := AccountRow(0, None, None);
    if limit == 1 {
      assert multiset([r]) <= multiset([r, r]);
      assert Limited([r], [r, r], limit);
    }
  }
}
