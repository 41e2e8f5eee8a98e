/**
 `AccountCreateBulk.Save` over the heap: the closures share the arrays `specs` and `nodes`, the mutations of the
 builders, and the driver. The trace is the ghost record that `BulkChain` reasons about.
 */
module BulkCreate {
  import opened Prelude
  import opened BulkChain

  /** The columns of a new row. */
  type Data = int

  class Node {
    const data: Data
    var id: int

    constructor (data: Data)
      ensures this.data == data && id == 0
    {
      this.data, id := data, 0;
    }
  }

  class CreateSpec {
    const data: Data
    var idValue: Option<int>

    constructor (data: Data)
      ensures this.data == data && idValue == None
    {
      this.data, idValue := data, None;
    }
  }

  /** `id` is a pointer to the id field of a node, so the node stands for it. */
  class Mutation {
    const data: Data
    var idOf: Node?
    var done: bool

    constructor (data: Data)
      ensures this.data == data && idOf == null && !done
    {
      this.data, idOf, done := data, null, false;
    }
  }

  /** `AccountCreate`: its mutation, the result of its `check`, and its hooks. */
  class Builder {
    const mutation: Mutation
    const plan: Plan

    constructor (mutation: Mutation, plan: Plan)
      ensures this.mutation == mutation && this.plan == plan
    {
      this.mutation, this.plan := mutation, plan;
    }
  }

  /** The database: whether it accepts the batch, and whether it returns generated ids, is its own affair. */
  class Driver {
    const verdict: Option<Error>
    const returnsIds: bool
    const firstId: int
    var rows: seq<Data>

    constructor (verdict: Option<Error>, returnsIds: bool, firstId: int)
      ensures this.verdict == verdict && this.returnsIds == returnsIds && this.firstId == firstId && rows == []
    {
      this.verdict, this.returnsIds, this.firstId := verdict, returnsIds, firstId;
      rows := [];
    }
  }

  ghost function Objects(specs: seq<CreateSpec?>): set<CreateSpec> {
    set s: CreateSpec | s in specs
  }

  function DataOf(builders: seq<Builder>): seq<Data> {
    seq(|builders|, k requires 0 <= k < |builders| => builders[k].mutation.data)
  }

  /** `sqlgraph.BatchCreate`: all rows or none, and an id for each spec when the database returns ids. */
  method BatchCreate(db: Driver, builders: seq<Builder>, specs: array<CreateSpec?>) returns (err: Option<Error>)
    requires specs.Length == |builders|
    requires forall k :: 0 <= k < |builders| ==> specs[k] != null && specs[k].data == builders[k].mutation.data
    modifies db`rows, Objects(specs[..])`idValue
    ensures err == db.verdict
    ensures err.Some? ==> db.rows == old(db.rows)
    ensures err.None? ==> db.rows == old(db.rows) + DataOf(builders)
    ensures err.None? ==> forall k :: 0 <= k < |builders| ==> (specs[k].idValue.Some? <==> db.returnsIds)
    ensures err.None? && NoRepeats(specs[..]) ==>
              forall k :: 0 <= k < |builders| ==> db.returnsIds ==> specs[k].idValue == Some(db.firstId + k)
  {
    if db.verdict.Some? {
      return db.verdict;
    }
    var rows := [];
    for k := 0 to specs.Length
      invariant rows == DataOf(builders)[..k] && db.rows == old(db.rows)
      invariant forall j :: 0 <= j < k ==> (specs[j].idValue.Some? <==> db.returnsIds)
      invariant NoRepeats(specs[..]) ==>
                  forall j :: 0 <= j < k ==> db.returnsIds ==> specs[j].idValue == Some(db.firstId + j)
    {
      assert specs[k] in specs[..];
      rows := rows + [specs[k].data];
      specs[k].idValue := if db.returnsIds then Some(db.firstId + k) else None;
    }
    assert DataOf(builders)[..|builders|] == DataOf(builders);
    db.rows := db.rows + rows;
    return None;
  }

  /** The environment that the closures of one `Save` share. */
  class BulkSave {
    const builders: seq<Builder>
    const db: Driver
    const specs: array<CreateSpec?>
    const nodes: array<Node?>
    ghost var trace: Trace

    constructor (builders: seq<Builder>, db: Driver)
      ensures this.builders == builders && this.db == db && Shape() && trace == []
      ensures fresh(specs) && fresh(nodes)
      ensures forall k :: 0 <= k < |builders| ==> specs[k] == null && nodes[k] == null
    {
      this.builders, this.db := builders, db;
      specs := new CreateSpec?[|builders|](_ => null);
      nodes := new Node?[|builders|](_ => null);
      trace := [];
    }

    ghost predicate Shape() {
      specs.Length == nodes.Length == |builders| && specs as object != nodes as object
    }

    ghost function Plans(): (ps: seq<Plan>)
      ensures |ps| == |builders| && forall k :: 0 <= k < |ps| ==> ps[k] == builders[k].plan
    {
      seq(|builders|, k requires 0 <= k < |builders| => builders[k].plan)
    }

    ghost function Mutations(): set<Mutation> {
      set k | 0 <= k < |builders| :: builders[k].mutation
    }

    /** Slot `k` holds a spec and a node built from builder `k`. */
    ghost predicate Slot(k: nat)
      requires Shape() && k < |builders|
      reads specs, nodes
    {
      && specs[k] != null && specs[k].data == builders[k].mutation.data
      && nodes[k] != null && nodes[k].data == builders[k].mutation.data
    }

    /** No builder from `i` up to `k` shares its mutation with builder `k`. */
    ghost predicate OwnMutation(i: nat, k: nat)
      requires k < |builders|
    {
      forall j :: i <= j < k ==> builders[j].mutation != builders[k].mutation
    }

    /** Builder `k` is done: its node carries the returned id, and its mutation points to that very id. */
    ghost predicate Completed(i: nat, k: nat)
      requires Shape() && k < |builders|
      reads this, specs, nodes, specs[k], nodes[k], builders[k].mutation
    {
      && Slot(k)
      && nodes[k].id == (if specs[k].idValue.Some? then specs[k].idValue.value else 0)
      && builders[k].mutation.done
      && (OwnMutation(i, k) ==> builders[k].mutation.idOf == nodes[k])
    }

    /** Some builder with the mutation of builder `k` was completed. */
    ghost predicate CompletedIn(t: Trace, k: nat)
      requires k < |builders|
    {
      exists j :: 0 <= j < |builders| && builders[j].mutation == builders[k].mutation && Done(j) in t
    }

    /** Every flag that went up is that of a builder completed in the trace. */
    ghost predicate FlagsExplained(before: set<nat>, t: Trace)
      reads MutationsOf(builders)
    {
      forall k :: 0 <= k < |builders| && builders[k].mutation.done && k !in before ==> CompletedIn(t, k)
    }

    ghost predicate FollowsTrace()
      requires Shape()
      reads this, specs, nodes, specs[..], nodes[..], Mutations()
    {
      forall k :: 0 <= k < |builders| && Done(k) in trace ==> Completed(0, k)
    }

    ghost predicate AllCompleted()
      requires Shape()
      reads this, specs, nodes, specs[..], nodes[..], Mutations()
    {
      forall k :: 0 <= k < |builders| ==> Completed(0, k)
    }

    /** The first slots hold different specs. */
    ghost predicate Apart(n: nat)
      requires Shape() && n <= |builders|
      reads specs
    {
      forall j, k :: 0 <= j < k < n ==> specs[j] != specs[k]
    }

    /** Every spec has the id of its own row, if the insert was accepted and the database returns ids. */
    ghost predicate IdsInPlace()
      requires Shape()
      reads specs, specs[..]
    {
      db.verdict.None? ==>
        forall k :: 0 <= k < |builders| ==>
          specs[k] != null && specs[k].idValue == if db.returnsIds then Some(db.firstId + k) else None
    }

    /** No node is missing, and each carries the id of its own row. */
    ghost predicate NodesInPlace()
      requires Shape()
      reads nodes, nodes[..]
    {
      forall k :: 0 <= k < |builders| ==>
        nodes[k] != null && nodes[k].id == if db.returnsIds then db.firstId + k else 0
    }

    /** The rows a run adds: those of every builder, once the insert ran and was accepted. */
    ghost function Inserted(t: Trace): seq<Data> {
      if Insert in t && db.verdict.None? then DataOf(builders) else []
    }

    /** Closure `i` from its hook `h` on. */
    method Mutate(i: nat, h: nat) returns (reply: Reply)
      requires Shape() && i < |builders| && h <= |builders[i].plan.hooks|
      requires Apart(i) && forall k :: 0 <= k < i ==> Slot(k)
      modifies `trace, specs, nodes, db`rows, Objects(specs[..])`idValue, Mutations()
      ensures trace == old(trace) + Run(Plans(), i, h, db.verdict).0
      ensures reply == Run(Plans(), i, h, db.verdict).1
      ensures db.rows == old(db.rows) + Inserted(Run(Plans(), i, h, db.verdict).0)
      ensures Insert in Run(Plans(), i, h, db.verdict).0 ==> IdsInPlace()
      ensures forall k :: 0 <= k < i ==> specs[k] == old(specs[k]) && nodes[k] == old(nodes[k])
      ensures forall k :: 0 <= k < i ==> Slot(k)
      ensures forall k :: i <= k < |builders| && Fill(k) in Run(Plans(), i, h, db.verdict).0 ==>
                Slot(k) && fresh(specs[k]) && fresh(nodes[k])
      ensures forall k :: i <= k < |builders| && Done(k) in Run(Plans(), i, h, db.verdict).0 ==>
                Fill(k) in Run(Plans(), i, h, db.verdict).0 && Completed(i, k)
      ensures forall k :: 0 <= k < |builders| && builders[k].mutation.done && !old(builders[k].mutation.done) ==>
                CompletedIn(Run(Plans(), i, h, db.verdict).0, k)
      ensures AllHonest(Plans()) && DistinctMutations(builders) && old(Marked(builders)) == {} ==>
                exists cut: nat :: i <= cut <= |builders| && DoneFrom(builders, cut)
      decreases |builders| - i, |builders[i].plan.hooks| - h, 4
    {
      var hooks := builders[i].plan.hooks;
      if h == |hooks| {
        reply := Core(i);
      } else if hooks[h].Stop? {
        trace := trace + [Enter(i, h)];
        reply := hooks[h].reply;
        trace := trace + [Exit(i, h)];
      } else {
        reply := Forwarded(i, h);
      }
      if AllHonest(Plans()) && DistinctMutations(builders) && old(Marked(builders)) == {} {
        assert forall k :: 0 <= k < |builders| ==> (old(builders[k].mutation.done) <==> k in old(Marked(builders)));
        FlagsAreASuffix(i, h);
      }
    }

    /** With hooks that hide no failure the flags follow the completions, which run down from the last builder. */
    lemma {:induction false} FlagsAreASuffix(i: nat, h: nat)
      requires Shape() && i < |builders| && h <= |builders[i].plan.hooks|
      requires AllHonest(Plans()) && DistinctMutations(builders)
      requires forall k :: 0 <= k < |builders| && builders[k].mutation.done ==>
                 CompletedIn(Run(Plans(), i, h, db.verdict).0, k)
      requires forall k :: i <= k < |builders| && Done(k) in Run(Plans(), i, h, db.verdict).0 ==>
                builders[k].mutation.done
      ensures exists cut: nat :: i <= cut <= |builders| && DoneFrom(builders, cut)
    {
      var t := Run(Plans(), i, h, db.verdict).0;
      DoneFromTheEnd(Plans(), i, h, db.verdict);
      var cut := CompletedFrom(t, |builders|, i);
      forall k | 0 <= k < |builders|
        ensures builders[k].mutation.done <==> cut <= k
      {
        if builders[k].mutation.done {
          var j :| 0 <= j < |builders| && builders[j].mutation == builders[k].mutation && Done(j) in t;
          assert j == k;
        }
        if cut <= k {
          assert Done(k) in t;
        }
      }
      assert DoneFrom(builders, cut);
    }

    /** A hook that forwards: its events around those of the rest of the chain. */
    method Forwarded(i: nat, h: nat) returns (reply: Reply)
      requires Shape() && i < |builders| && h < |builders[i].plan.hooks| && builders[i].plan.hooks[h].Forward?
      requires Apart(i) && forall k :: 0 <= k < i ==> Slot(k)
      modifies `trace, specs, nodes, db`rows, Objects(specs[..])`idValue, Mutations()
      ensures trace == old(trace) + Run(Plans(), i, h, db.verdict).0
      ensures reply == Run(Plans(), i, h, db.verdict).1
      ensures db.rows == old(db.rows) + Inserted(Run(Plans(), i, h, db.verdict).0)
      ensures Insert in Run(Plans(), i, h, db.verdict).0 ==> IdsInPlace()
      ensures forall k :: 0 <= k < i ==> specs[k] == old(specs[k]) && nodes[k] == old(nodes[k])
      ensures forall k :: 0 <= k < i ==> Slot(k)
      ensures forall k :: i <= k < |builders| && Fill(k) in Run(Plans(), i, h, db.verdict).0 ==>
                Slot(k) && fresh(specs[k]) && fresh(nodes[k])
      ensures forall k :: i <= k < |builders| && Done(k) in Run(Plans(), i, h, db.verdict).0 ==>
                Fill(k) in Run(Plans(), i, h, db.verdict).0 && Completed(i, k)
      ensures forall k :: 0 <= k < |builders| && builders[k].mutation.done && !old(builders[k].mutation.done) ==>
                CompletedIn(Run(Plans(), i, h, db.verdict).0, k)
      decreases |builders| - i, |builders[i].plan.hooks| - h, 3
    {
      trace := trace + [Enter(i, h)];
      assert forall k :: 0 <= k < i ==> old(Slot(k)) ==> Slot(k);
      var inner := Mutate(i, h + 1);
      reply := Answer(builders[i].plan.hooks[h], inner);
      trace := trace + [Exit(i, h)];
      HookMembers(i, h);
    }

    /** What the trace of a forwarding hook holds, besides its own events. */
    lemma {:induction false} HookMembers(i: nat, h: nat)
      requires i < |builders| && h < |builders[i].plan.hooks| && builders[i].plan.hooks[h].Forward?
      ensures var t, below := Run(Plans(), i, h, db.verdict), Run(Plans(), i, h + 1, db.verdict);
              && t == (Bracketed(i, h, below.0), Answer(builders[i].plan.hooks[h], below.1))
              && (Insert in t.0 <==> Insert in below.0)
              && (forall k: nat :: Fill(k) in t.0 <==> Fill(k) in below.0)
              && (forall k: nat :: Done(k) in t.0 <==> Done(k) in below.0)
    {
      var below := Run(Plans(), i, h + 1, db.verdict).0;
      BracketedMembers(i, h, below, Insert);
      forall k: nat
        ensures Fill(k) in Bracketed(i, h, below) <==> Fill(k) in below
        ensures Done(k) in Bracketed(i, h, below) <==> Done(k) in below
      {
        BracketedMembers(i, h, below, Fill(k));
        BracketedMembers(i, h, below, Done(k));
      }
    }

    /** The function that the hooks of builder `i` wrap. */
    method Core(i: nat) returns (reply: Reply)
      requires Shape() && i < |builders|
      requires Apart(i) && forall k :: 0 <= k < i ==> Slot(k)
      modifies `trace, specs, nodes, db`rows, Objects(specs[..])`idValue, Mutations()
      ensures trace == old(trace) + Run(Plans(), i, |builders[i].plan.hooks|, db.verdict).0
      ensures reply == Run(Plans(), i, |builders[i].plan.hooks|, db.verdict).1
      ensures db.rows == old(db.rows) + Inserted(Run(Plans(), i, |builders[i].plan.hooks|, db.verdict).0)
      ensures Insert in Run(Plans(), i, |builders[i].plan.hooks|, db.verdict).0 ==> IdsInPlace()
      ensures forall k :: 0 <= k < i ==> specs[k] == old(specs[k]) && nodes[k] == old(nodes[k])
      ensures forall k :: 0 <= k < i ==> Slot(k)
      ensures forall k :: i <= k < |builders| && Fill(k) in Run(Plans(), i, |builders[i].plan.hooks|, db.verdict).0 ==>
                Slot(k) && fresh(specs[k]) && fresh(nodes[k])
      ensures forall k :: i <= k < |builders| && Done(k) in Run(Plans(), i, |builders[i].plan.hooks|, db.verdict).0 ==>
                Fill(k) in Run(Plans(), i, |builders[i].plan.hooks|, db.verdict).0 && Completed(i, k)
      ensures builders[i].plan.check.Some? ==>
                && unchanged(specs) && unchanged(nodes) && unchanged(db)
                && (forall s :: s in old(Objects(specs[..])) ==> unchanged(s))
                && forall m :: m in Mutations() ==> unchanged(m)
      ensures forall k :: 0 <= k < |builders| && builders[k].mutation.done && !old(builders[k].mutation.done) ==>
                CompletedIn(Run(Plans(), i, |builders[i].plan.hooks|, db.verdict).0, k)
      decreases |builders| - i, 0, 3
    {
      trace := trace + [Check(i)];
      if builders[i].plan.check.Some? {
        return Err(builders[i].plan.check.value);
      }
      reply := FillAndProceed(i);
      CoreMembers(i);
      Assembled(old(trace), i, Rest(Plans(), i, db.verdict).0, reply);
    }

    /** Fill the slot and call on: what the slots, nodes and flags are before builder `i` itself is completed. */
    method FillAndCall(i: nat) returns (reply: Reply)
      requires Shape() && i < |builders|
      requires Apart(i) && forall k :: 0 <= k < i ==> Slot(k)
      modifies `trace, specs, nodes, db`rows, Objects(specs[..])`idValue, Mutations()
      ensures trace == old(trace) + [Fill(i)] + Rest(Plans(), i, db.verdict).0
      ensures reply == Rest(Plans(), i, db.verdict).1
      ensures db.rows == old(db.rows) + Inserted(Rest(Plans(), i, db.verdict).0)
      ensures Insert in Rest(Plans(), i, db.verdict).0 ==> IdsInPlace()
      ensures forall k :: 0 <= k < i ==> specs[k] == old(specs[k]) && nodes[k] == old(nodes[k])
      ensures forall k :: 0 <= k <= i ==> Slot(k)
      ensures fresh(specs[i]) && fresh(nodes[i]) && nodes[i].id == 0
      ensures forall k :: i < k < |builders| && Fill(k) in Rest(Plans(), i, db.verdict).0 ==>
                Slot(k) && fresh(specs[k]) && fresh(nodes[k])
      ensures forall k :: i < k < |builders| && Done(k) in Rest(Plans(), i, db.verdict).0 ==>
                Fill(k) in Rest(Plans(), i, db.verdict).0 && Completed(i + 1, k) && nodes[k] != nodes[i]
      ensures forall k :: 0 <= k < |builders| && builders[k].mutation.done && !old(builders[k].mutation.done) ==>
                CompletedIn(Rest(Plans(), i, db.verdict).0, k)
      decreases |builders| - i, 0, 1
    {
      CreateSlot(i);
      reply := Proceed(i);
    }

    /** A core whose builder is valid: fill the slot, call on, and complete when that succeeds. */
    method FillAndProceed(i: nat) returns (reply: Reply)
      requires Shape() && i < |builders|
      requires Apart(i) && forall k :: 0 <= k < i ==> Slot(k)
      modifies `trace, specs, nodes, db`rows, Objects(specs[..])`idValue, Mutations()
      ensures trace == old(trace) + [Fill(i)] + Rest(Plans(), i, db.verdict).0 + (if reply.Ok? then [Done(i)] else [])
      ensures reply == Rest(Plans(), i, db.verdict).1
      ensures db.rows == old(db.rows) + Inserted(Rest(Plans(), i, db.verdict).0)
      ensures Insert in Rest(Plans(), i, db.verdict).0 ==> IdsInPlace()
      ensures forall k :: 0 <= k < i ==> specs[k] == old(specs[k]) && nodes[k] == old(nodes[k])
      ensures forall k :: 0 <= k < i ==> Slot(k)
      ensures forall k :: i <= k < |builders| && (k == i || Fill(k) in Rest(Plans(), i, db.verdict).0) ==>
                Slot(k) && fresh(specs[k]) && fresh(nodes[k])
      ensures forall k :: i < k < |builders| && Done(k) in Rest(Plans(), i, db.verdict).0 ==>
                Fill(k) in Rest(Plans(), i, db.verdict).0 && Completed(i, k)
      ensures reply.Ok? ==> Completed(i, i)
      ensures forall k :: 0 <= k < |builders| && builders[k].mutation.done && !old(builders[k].mutation.done) ==>
                (reply.Ok? && builders[k].mutation == builders[i].mutation)
                || CompletedIn(Rest(Plans(), i, db.verdict).0, k)
      decreases |builders| - i, 0, 2
    {
      reply := FillAndCall(i);
      ghost var below := Rest(Plans(), i, db.verdict).0;
      ghost var filled := set k: nat | k < |builders| && (k <= i || Fill(k) in below);
      ghost var completed := set k: nat | i < k < |builders| && Done(k) in below;
      Finish(i, reply, filled, completed);
    }

    /** The end of a core: nothing on an error, otherwise the builder is completed. */
    method Finish(i: nat, reply: Reply, ghost filled: set<nat>, ghost completed: set<nat>)
      requires Shape() && i < |builders| && Slot(i) && nodes[i].id == 0
      requires forall k :: k in filled ==> k < |builders| && Slot(k)
      requires forall k :: k in completed ==> i < k < |builders| && Completed(i + 1, k) && nodes[k] != nodes[i]
      modifies `trace, builders[i].mutation, nodes[i]
      ensures trace == old(trace) + (if reply.Ok? then [Done(i)] else [])
      ensures forall k :: 0 <= k < |builders| ==> specs[k] == old(specs[k]) && nodes[k] == old(nodes[k])
      ensures old(IdsInPlace()) ==> IdsInPlace()
      ensures reply.Ok? ==> Completed(i, i)
      ensures forall k :: k in filled ==> Slot(k)
      ensures forall k :: k in completed ==> Completed(i, k)
      ensures forall k :: 0 <= k < |builders| && builders[k].mutation.done && !old(builders[k].mutation.done) ==>
                reply.Ok? && builders[k].mutation == builders[i].mutation
    {
      if reply.Ok? {
        Complete(i, filled, completed);
      } else {
        forall k | k in completed
          ensures Completed(i, k)
        {
          assert Completed(i + 1, k);
        }
      }
    }

    /** `createSpec` fills slot `i`. */
    method CreateSlot(i: nat)
      requires Shape() && i < |builders|
      requires forall k :: 0 <= k < i ==> Slot(k)
      modifies `trace, specs, nodes
      ensures trace == old(trace) + [Fill(i)]
      ensures forall k :: 0 <= k <= i ==> Slot(k)
      ensures fresh(specs[i]) && fresh(nodes[i]) && nodes[i].id == 0
      ensures forall k :: 0 <= k < |builders| && k != i ==> specs[k] == old(specs[k]) && nodes[k] == old(nodes[k])
      ensures Objects(specs[..]) <= old(Objects(specs[..])) + {specs[i]}
    {
      var mutation := builders[i].mutation;
      nodes[i] := new Node(mutation.data);
      specs[i] := new CreateSpec(mutation.data);
      trace := trace + [Fill(i)];
      forall k | 0 <= k <= i
        ensures Slot(k)
      {
        assert k < i ==> old(Slot(k));
      }
    }

    lemma {:induction false} Assembled(t: Trace, i: nat, inner: Trace, reply: Reply)
      ensures t + Filled(i, inner, reply) == t + [Check(i)] + [Fill(i)] + inner + (if reply.Ok? then [Done(i)] else [])
    {
    }

    /** What the trace of a core holds, in terms of the call it makes. */
    lemma {:induction false} CoreMembers(i: nat)
      requires i < |builders| && builders[i].plan.check.None?
      ensures var t, below := Run(Plans(), i, |builders[i].plan.hooks|, db.verdict).0, Rest(Plans(), i, db.verdict);
              && t == Filled(i, below.0, below.1)
              && (Insert in t <==> Insert in below.0)
              && (forall k: nat :: Fill(k) in t <==> k == i || Fill(k) in below.0)
              && (forall k: nat :: Done(k) in t <==> (k > i && Done(k) in below.0) || (k == i && below.1.Ok?))
    {
      var below := Rest(Plans(), i, db.verdict);
      FilledMembers(i, below.0, below.1, Insert);
      forall k: nat
        ensures Fill(k) in Filled(i, below.0, below.1) <==> k == i || Fill(k) in below.0
        ensures Done(k) in Filled(i, below.0, below.1) <==> (k > i && Done(k) in below.0) || (k == i && below.1.Ok?)
      {
        FilledMembers(i, below.0, below.1, Fill(k));
        FilledMembers(i, below.0, below.1, Done(k));
        if i + 1 < |builders| {
          OnlyFrom(Plans(), i + 1, 0, db.verdict, k);
        }
      }
    }

    /** After a successful call: the id pointer is taken, the id written behind it, the mutation marked done. */
    method Complete(i: nat, ghost filled: set<nat>, ghost completed: set<nat>)
      requires Shape() && i < |builders| && Slot(i) && nodes[i].id == 0
      requires forall k :: k in filled ==> k < |builders| && Slot(k)
      requires forall k :: k in completed ==> i < k < |builders| && Completed(i + 1, k) && nodes[k] != nodes[i]
      modifies `trace, builders[i].mutation, nodes[i]
      ensures trace == old(trace) + [Done(i)]
      ensures forall k :: 0 <= k < |builders| ==> specs[k] == old(specs[k]) && nodes[k] == old(nodes[k])
      ensures Completed(i, i)
      ensures forall k :: k in filled ==> Slot(k)
      ensures forall k :: k in completed ==> Completed(i, k)
      ensures forall k :: 0 <= k < |builders| && builders[k].mutation.done && !old(builders[k].mutation.done) ==>
                builders[k].mutation == builders[i].mutation
    {
      var mutation := builders[i].mutation;
      mutation.idOf := nodes[i];
      if specs[i].idValue.Some? {
        nodes[i].id := specs[i].idValue.value;
      }
      mutation.done := true;
      trace := trace + [Done(i)];
      forall k | k in completed
        ensures Completed(i, k)
      {
        assert old(Completed(i + 1, k));
      }
      forall k | k in filled
        ensures Slot(k)
      {
        assert old(Slot(k));
      }
    }

    /** The next closure, or for the last one the batch insert. */
    method Proceed(i: nat) returns (reply: Reply)
      requires Shape() && i < |builders|
      requires Apart(i + 1) && forall k :: 0 <= k <= i ==> Slot(k)
      modifies `trace, specs, nodes, db`rows, Objects(specs[..])`idValue, Mutations()
      ensures trace == old(trace) + Rest(Plans(), i, db.verdict).0
      ensures reply == Rest(Plans(), i, db.verdict).1
      ensures db.rows == old(db.rows) + Inserted(Rest(Plans(), i, db.verdict).0)
      ensures Insert in Rest(Plans(), i, db.verdict).0 ==> IdsInPlace()
      ensures forall k :: 0 <= k < i + 1 ==> specs[k] == old(specs[k]) && nodes[k] == old(nodes[k])
      ensures forall k :: 0 <= k < i + 1 ==> Slot(k)
      ensures forall k :: i + 1 <= k < |builders| && Fill(k) in Rest(Plans(), i, db.verdict).0 ==>
                Slot(k) && fresh(specs[k]) && fresh(nodes[k])
      ensures forall k :: i + 1 <= k < |builders| && Done(k) in Rest(Plans(), i, db.verdict).0 ==>
                Fill(k) in Rest(Plans(), i, db.verdict).0 && Completed(i + 1, k)
      ensures forall k :: 0 <= k < |builders| && builders[k].mutation.done && !old(builders[k].mutation.done) ==>
                CompletedIn(Rest(Plans(), i, db.verdict).0, k)
      decreases |builders| - i, 0, 0
    {
      if i + 1 < |builders| {
        reply := Mutate(i + 1, 0);
      } else {
        reply := RunInsert();
      }
    }

    /** The innermost step: all slots are filled, and the batch goes to the driver. */
    method RunInsert() returns (reply: Reply)
      requires Shape() && Apart(|builders|) && forall k :: 0 <= k < |builders| ==> Slot(k)
      modifies `trace, db`rows, Objects(specs[..])`idValue
      ensures trace == old(trace) + [Insert]
      ensures reply == InsertReply(db.verdict)
      ensures db.rows == old(db.rows) + Inserted([Insert])
      ensures IdsInPlace() && forall k :: 0 <= k < |builders| ==> Slot(k)
    {
      trace := trace + [Insert];
      forall k | 0 <= k < |builders|
        ensures specs[k] != null && specs[k].data == builders[k].mutation.data
      {
        assert Slot(k);
      }
      var err := BatchCreate(db, builders, specs);
      reply := InsertReply(err);
      forall k | 0 <= k < |builders|
        ensures Slot(k)
      {
        assert old(Slot(k));
      }
    }

    /** The whole chain, from the first hook of the first builder. */
    method RunAll() returns (reply: Reply)
      requires Shape() && builders != [] && trace == []
      modifies `trace, specs, nodes, db`rows, Objects(specs[..])`idValue, Mutations()
      ensures (trace, reply) == Run(Plans(), 0, 0, db.verdict)
      ensures db.rows == old(db.rows) + Inserted(trace) && (Insert in trace ==> IdsInPlace())
      ensures FollowsTrace() && FlagsExplained(old(Marked(builders)), trace)
      ensures AllHonest(Plans()) && DistinctMutations(builders) && old(Marked(builders)) == {} ==>
                exists cut: nat :: cut <= |builders| && DoneFrom(builders, cut)
      ensures AllHonest(Plans()) && reply.Ok? ==>
                AllCompleted() && NodesInPlace() && Insert in trace && db.verdict.None?
    {
      reply := Mutate(0, 0);
      assert [] + Run(Plans(), 0, 0, db.verdict).0 == Run(Plans(), 0, 0, db.verdict).0;
      if AllHonest(Plans()) {
        HonestOutcome(Plans(), db.verdict);
        if reply.Ok? {
          CompletedInPlace();
        }
      }
    }

    lemma {:induction false} CompletedInPlace()
      requires Shape() && AllCompleted() && IdsInPlace() && db.verdict.None?
      ensures NodesInPlace()
    {
      forall k | 0 <= k < |builders|
        ensures nodes[k] != null && nodes[k].id == if db.returnsIds then db.firstId + k else 0
      {
        assert Completed(0, k);
      }
    }
  }

  ghost function PlansOf(builders: seq<Builder>): seq<Plan> {
    seq(|builders|, k requires 0 <= k < |builders| => builders[k].plan)
  }

  ghost function MutationsOf(builders: seq<Builder>): set<Mutation> {
    set k | 0 <= k < |builders| :: builders[k].mutation
  }

  ghost predicate DistinctMutations(builders: seq<Builder>) {
    forall j, k :: 0 <= j < k < |builders| ==> builders[j].mutation != builders[k].mutation
  }

  /** The builders that are marked done. */
  ghost function Marked(builders: seq<Builder>): set<nat>
    reads MutationsOf(builders)
  {
    set k: nat | k < |builders| && builders[k].mutation.done
  }

  /** Exactly the builders from `cut` on are marked done. */
  ghost predicate DoneFrom(builders: seq<Builder>, cut: nat)
    reads MutationsOf(builders)
  {
    forall k :: 0 <= k < |builders| ==> (builders[k].mutation.done <==> cut <= k)
  }

  lemma {:induction false} DownwardHas(n: nat, i: nat, k: nat)
    requires i <= k < n
    ensures Done(k) in Downward(n, i)
    decreases n - i
  {
    if i < k {
      DownwardHas(n, i + 1, k);
    }
  }

  /** Under honest hooks a successful run has inserted, and has completed every builder. */
  lemma {:induction false} SuccessIsComplete(ps: seq<Plan>, insert: Option<Error>)
    requires |ps| > 0 && AllHonest(ps) && Run(ps, 0, 0, insert).1.Ok?
    ensures Insert in Run(ps, 0, 0, insert).0 && insert.None?
    ensures forall k :: 0 <= k < |ps| ==> Done(k) in Run(ps, 0, 0, insert).0
  {
    HonestNeverHides(ps, insert);
    DoneFromTheEnd(ps, 0, 0, insert);
    FilterMembers(Run(ps, 0, 0, insert).0, IsDone());
    forall k | 0 <= k < |ps|
      ensures Done(k) in Run(ps, 0, 0, insert).0
    {
      DownwardHas(|ps|, 0, k);
      assert Done(k) in Filter(Run(ps, 0, 0, insert).0, IsDone());
    }
  }

  lemma {:induction false} HonestOutcome(ps: seq<Plan>, insert: Option<Error>)
    requires |ps| > 0 && AllHonest(ps)
    ensures var r := Run(ps, 0, 0, insert);
            && (r.1.Ok? ==> Insert in r.0 && insert.None? && forall k :: 0 <= k < |ps| ==> Done(k) in r.0)
            && (!Clear(ps, 0, 0) ==> r.1.Err? && Insert !in r.0)
  {
    NoInsertUnlessClear(ps, 0, 0, insert);
    SuccessIff(ps, 0, 0, insert);
    if Run(ps, 0, 0, insert).1.Ok? {
      SuccessIsComplete(ps, insert);
    }
  }

  /**
   Where a reply comes from, for any hooks: the driver's verdict turned by one layer after the other. An error is some
   hook's own, that of the first check to fail, or the driver's as it is; behind hooks that pass everything on it is the
   first failing check's, or else the driver's.
   */
  ghost predicate Explained(builders: seq<Builder>, verdict: Option<Error>, reply: Reply)
    requires builders != []
  {
    var ps := PlansOf(builders);
    && (exists replies :: Unwinds(Layers(ps, 0, 0), verdict, replies) && replies[0] == reply)
    && (reply.Err? ==> HasSource(ps, verdict, reply.error))
    && (Transparent(ps) ==> forall k: nat :: FirstToFail(ps, k) ==> reply == Err(builders[k].plan.check.value))
    && (Transparent(ps) && (forall b :: b in builders ==> b.plan.check == None) ==>
          reply == if verdict == None then Ok else Err(verdict.value))
  }

  lemma {:induction false} RepliesExplained(builders: seq<Builder>, verdict: Option<Error>)
    requires builders != []
    ensures Explained(builders, verdict, Run(PlansOf(builders), 0, 0, verdict).1)
  {
    var ps := PlansOf(builders);
    ReplyIsUnwound(ps, verdict);
    ErrorHasSource(ps, 0, 0, verdict);
    if Transparent(ps) {
      TransparentReply(ps, verdict);
    }
  }

  /** `Save` of at least one builder: the chain, and the nodes when it succeeds. */
  method SaveSome(builders: seq<Builder>, db: Driver)
    returns (reply: Reply, nodes: seq<Node?>, ghost env: BulkSave)
    requires builders != []
    modifies db`rows, MutationsOf(builders)
    ensures fresh(env) && env.builders == builders && env.db == db && env.Shape()
    ensures (env.trace, reply) == Run(PlansOf(builders), 0, 0, db.verdict)
    ensures db.rows == old(db.rows) + env.Inserted(env.trace)
    ensures env.FollowsTrace() && env.FlagsExplained(old(Marked(builders)), env.trace)
    ensures nodes == if reply.Ok? then env.nodes[..] else []
    ensures AllHonest(PlansOf(builders)) && reply.Ok? ==>
              env.AllCompleted() && env.NodesInPlace() && Insert in env.trace && db.verdict.None?
    ensures AllHonest(PlansOf(builders)) && DistinctMutations(builders) && old(Marked(builders)) == {} ==>
              exists cut: nat :: cut <= |builders| && DoneFrom(builders, cut)
  {
    var shared := new BulkSave(builders, db);
    assert shared.Plans() == PlansOf(builders);
    env, nodes := shared, [];
    reply := shared.RunAll();
    if reply.Ok? {
      nodes := shared.nodes[..];
    }
  }

  /**
   `Save`. Whatever the hooks do, the rows added are those of all builders or none, and a builder that is done has a
   node whose id its mutation points to. With hooks that hide no failure, success means all of it: every row inserted,
   every builder done, no node nil, every id in place; and an unreachable insert means an error and no rows.
   */
  method Save(bulkError: Option<Error>, builders: seq<Builder>, db: Driver)
    returns (reply: Reply, nodes: seq<Node?>, ghost env: BulkSave?)
    modifies db`rows, MutationsOf(builders)
    ensures bulkError.None? ==> env != null && fresh(env) && env.builders == builders && env.db == db && env.Shape()
    ensures bulkError.Some? ==> reply == Err(bulkError.value) && nodes == [] && db.rows == old(db.rows)
    ensures bulkError.None? && builders == [] ==> reply == Ok && nodes == [] && db.rows == old(db.rows)
    ensures bulkError.None? && builders != [] ==>
              && (env.trace, reply) == Run(PlansOf(builders), 0, 0, db.verdict)
              && Explained(builders, db.verdict, reply)
              && db.rows == old(db.rows) + env.Inserted(env.trace)
              && env.FollowsTrace() && env.FlagsExplained(old(Marked(builders)), env.trace)
              && nodes == if reply.Ok? then env.nodes[..] else []
    ensures bulkError.None? && builders != [] && AllHonest(PlansOf(builders)) && reply.Ok? ==>
              && db.rows == old(db.rows) + DataOf(builders)
              && (forall k :: 0 <= k < |builders| ==> nodes[k] != null) && env.AllCompleted()
              && forall k :: 0 <= k < |builders| ==> nodes[k].id == if db.returnsIds then db.firstId + k else 0
    ensures bulkError.None? && builders != [] && AllHonest(PlansOf(builders)) && !Clear(PlansOf(builders), 0, 0) ==>
              reply.Err? && db.rows == old(db.rows)
    ensures AllHonest(PlansOf(builders)) && DistinctMutations(builders) && old(Marked(builders)) == {} ==>
              exists cut: nat :: cut <= |builders| && DoneFrom(builders, cut)
  {
    nodes, env := [], null;
    if bulkError.Some? {
      assert Marked(builders) == {} ==> DoneFrom(builders, |builders|) by {
        assert forall k :: 0 <= k < |builders| && builders[k].mutation.done ==> k in Marked(builders);
      }
      return Err(bulkError.value), [], null;
    }
    if |builders| == 0 {
      var shared := new BulkSave(builders, db);
      assert DoneFrom(builders, 0);
      return Ok, [], shared;
    }
    reply, nodes, env := SaveSome(builders, db);
    RepliesExplained(builders, db.verdict);
    if AllHonest(PlansOf(builders)) {
      HonestOutcome(PlansOf(builders), db.verdict);
    }
  }
}
