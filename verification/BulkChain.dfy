/**
 The order of events in `AccountCreateBulk.Save`. Closure `i` is wrapped by the hooks of builder `i`; its core validates
 the builder, fills slot `i`, and calls closure `i + 1`, the last one running the batch insert; success unwinds through
 the cores and hooks in reverse. A hook is arbitrary code that forwards at most once, so what it does in one run is
 either to stop with a reply, or to forward and answer for each outcome of the call.
 */
module BulkChain {
  import opened Prelude

  datatype Error =
    | ValidationError(builder: nat)
    | HookError(code: int)
    | InsertError(isConstraint: bool)

  datatype Reply = Ok | Err(error: Error)

  /** `onErr == None` propagates the error of the call. */
  datatype Hook =
    | Stop(reply: Reply)
    | Forward(onOk: Reply, onErr: Option<Reply>)

  /** What one builder brings: the result of its `check`, and its hooks, outermost first. */
  datatype Plan = Plan(check: Option<Error>, hooks: seq<Hook>)

  datatype Event =
    | Enter(builder: nat, hook: nat)
    | Exit(builder: nat, hook: nat)
    | Check(builder: nat)
    | Fill(builder: nat)
    | Insert
    | Done(builder: nat)

  type Trace = seq<Event>

  function Answer(h: Hook, inner: Reply): Reply
    requires h.Forward?
  {
    match inner
    case Ok => h.onOk
    case Err(_) => if h.onErr.Some? then h.onErr.value else inner
  }

  function InsertReply(insert: Option<Error>): Reply {
    match insert case None => Ok case Some(e) => Err(e)
  }

  /** A hook's events around those of the call it forwards to. */
  function Bracketed(i: nat, h: nat, inner: Trace): Trace {
    [Enter(i, h)] + inner + [Exit(i, h)]
  }

  /** A core's events around those of the call it makes; it is done only when that call succeeds. */
  function Filled(i: nat, inner: Trace, reply: Reply): Trace {
    [Check(i)] + ([Fill(i)] + inner) + (if reply.Ok? then [Done(i)] else [])
  }

  /** The run of closure `i` from its hook `h` on: its events and its reply. */
  function Run(ps: seq<Plan>, i: nat, h: nat, insert: Option<Error>): (Trace, Reply)
    requires i < |ps| && h <= |ps[i].hooks|
    decreases |ps| - i, |ps[i].hooks| - h, 1
  {
    if h < |ps[i].hooks| then
      var hook := ps[i].hooks[h];
      if hook.Stop? then (Bracketed(i, h, []), hook.reply)
      else
        var inner := Run(ps, i, h + 1, insert);
        (Bracketed(i, h, inner.0), Answer(hook, inner.1))
    else if ps[i].check.Some? then ([Check(i)], Err(ps[i].check.value))
    else
      var inner := Rest(ps, i, insert);
      (Filled(i, inner.0, inner.1), inner.1)
  }

  /** What the core of closure `i` calls: the next closure, or the batch insert. */
  function Rest(ps: seq<Plan>, i: nat, insert: Option<Error>): (Trace, Reply)
    requires i < |ps|
    decreases |ps| - i, 0, 0
  {
    if i + 1 < |ps| then Run(ps, i + 1, 0, insert) else ([Insert], InsertReply(insert))
  }

  // ---------------------------------------------------------------- hooks are well bracketed

  function IsEnter(): Event -> bool { (e: Event) => e.Enter? }
  function IsHook(): Event -> bool { (e: Event) => e.Enter? || e.Exit? }
  function IsStep(): Event -> bool { (e: Event) => e.Check? || e.Fill? }
  function IsDone(): Event -> bool { (e: Event) => e.Done? }

  function Leaving(e: Event): Event {
    match e case Enter(i, h) => Exit(i, h) case _ => e
  }

  /** The exits that match some entries: the same hooks, last one first. */
  function Unwound(enters: Trace): Trace {
    if enters == [] then [] else Unwound(enters[1..]) + [Leaving(enters[0])]
  }

  /** All hooks from hook `h` of builder `i` on, builder by builder. */
  function AllHooks(ps: seq<Plan>, i: nat, h: nat): Trace
    requires i < |ps| && h <= |ps[i].hooks|
    decreases |ps| - i, |ps[i].hooks| - h
  {
    if h < |ps[i].hooks| then [Enter(i, h)] + AllHooks(ps, i, h + 1)
    else if i + 1 < |ps| then AllHooks(ps, i + 1, 0)
    else []
  }

  function Kept(e: Event, p: Event -> bool): Trace {
    if p(e) then [e] else []
  }

  lemma {:induction false} FilterSingle(e: Event, p: Event -> bool)
    ensures Filter([e], p) == Kept(e, p)
  {
    assert [e][1..] == [];
  }

  lemma {:induction false} FilterBracketed(i: nat, h: nat, inner: Trace, p: Event -> bool)
    ensures Filter(Bracketed(i, h, inner), p) == Kept(Enter(i, h), p) + Filter(inner, p) + Kept(Exit(i, h), p)
  {
    FilterAppend([Enter(i, h)] + inner, [Exit(i, h)], p);
    FilterAppend([Enter(i, h)], inner, p);
    FilterSingle(Enter(i, h), p);
    FilterSingle(Exit(i, h), p);
  }

  lemma {:induction false} FilterFilled(i: nat, inner: Trace, reply: Reply, p: Event -> bool)
    ensures Filter(Filled(i, inner, reply), p) ==
            Kept(Check(i), p) + (Kept(Fill(i), p) + Filter(inner, p)) + (if reply.Ok? then Kept(Done(i), p) else [])
  {
    var tail := if reply.Ok? then [Done(i)] else [];
    FilterAppend([Check(i)] + ([Fill(i)] + inner), tail, p);
    FilterAppend([Check(i)], [Fill(i)] + inner, p);
    FilterAppend([Fill(i)], inner, p);
    FilterSingle(Check(i), p);
    FilterSingle(Fill(i), p);
    FilterSingle(Done(i), p);
  }

  /**
   The hook events of a trace are entries along `hooks`, skipping none, and after all of them the exits of the same
   hooks, last one first.
   */
  ghost predicate Nested(t: Trace, hooks: Trace) {
    var enters := Filter(t, IsEnter());
    enters <= hooks && Filter(t, IsHook()) == enters + Unwound(enters)
  }

  lemma {:induction false} BracketedNests(i: nat, h: nat, inner: Trace, hooks: Trace)
    requires Nested(inner, hooks)
    ensures Nested(Bracketed(i, h, inner), [Enter(i, h)] + hooks)
    ensures Filter(Bracketed(i, h, inner), IsEnter()) == [Enter(i, h)] + Filter(inner, IsEnter())
  {
    var enters := Filter(inner, IsEnter());
    FilterBracketed(i, h, inner, IsEnter());
    FilterBracketed(i, h, inner, IsHook());
    assert Filter(Bracketed(i, h, inner), IsEnter()) == [Enter(i, h)] + enters;
    assert ([Enter(i, h)] + enters)[1..] == enters;
  }

  lemma {:induction false} FilledNests(i: nat, inner: Trace, reply: Reply, hooks: Trace)
    requires Nested(inner, hooks)
    ensures Nested(Filled(i, inner, reply), hooks)
    ensures Filter(Filled(i, inner, reply), IsEnter()) == Filter(inner, IsEnter())
  {
    FilterFilled(i, inner, reply, IsEnter());
    FilterFilled(i, inner, reply, IsHook());
    assert Filter(Filled(i, inner, reply), IsEnter()) == Filter(inner, IsEnter());
    assert Filter(Filled(i, inner, reply), IsHook()) == Filter(inner, IsHook());
  }

  /**
   In every run the hooks are entered in order, builder by builder, without skipping any, and only then left, in exactly
   the reverse order, each one that was entered.
   */
  lemma {:induction false} WellBracketed(ps: seq<Plan>, i: nat, h: nat, insert: Option<Error>)
    requires i < |ps| && h <= |ps[i].hooks|
    ensures Nested(Run(ps, i, h, insert).0, AllHooks(ps, i, h))
    decreases |ps| - i, |ps[i].hooks| - h
  {
    FilterSingle(Check(i), IsEnter());
    FilterSingle(Check(i), IsHook());
    FilterSingle(Insert, IsEnter());
    FilterSingle(Insert, IsHook());
    if h < |ps[i].hooks| {
      var hook := ps[i].hooks[h];
      if hook.Forward? {
        WellBracketed(ps, i, h + 1, insert);
        BracketedNests(i, h, Run(ps, i, h + 1, insert).0, AllHooks(ps, i, h + 1));
      } else {
        BracketedNests(i, h, [], AllHooks(ps, i, h + 1));
      }
    } else if ps[i].check.None? {
      var inner := Rest(ps, i, insert);
      if i + 1 < |ps| {
        WellBracketed(ps, i + 1, 0, insert);
      }
      FilledNests(i, inner.0, inner.1, AllHooks(ps, i, h));
    }
  }

  // ---------------------------------------------------------------- one insert, after every slot is filled

  /** Nothing before the insert gets in the way: every hook from here on forwards, and every check passes. */
  ghost predicate Clear(ps: seq<Plan>, i: nat, h: nat)
    requires i < |ps| && h <= |ps[i].hooks|
    decreases |ps| - i, |ps[i].hooks| - h
  {
    if h < |ps[i].hooks| then ps[i].hooks[h].Forward? && Clear(ps, i, h + 1)
    else ps[i].check.None? && (i + 1 < |ps| ==> Clear(ps, i + 1, 0))
  }

  lemma {:induction false} ClearMeans(ps: seq<Plan>, i: nat, h: nat)
    requires i < |ps| && h <= |ps[i].hooks|
    ensures Clear(ps, i, h) <==>
              && (forall j :: h <= j < |ps[i].hooks| ==> ps[i].hooks[j].Forward?)
              && (forall k :: i <= k < |ps| ==> ps[k].check.None?)
              && forall k, j :: i < k < |ps| && 0 <= j < |ps[k].hooks| ==> ps[k].hooks[j].Forward?
    decreases |ps| - i, |ps[i].hooks| - h
  {
    if h < |ps[i].hooks| {
      ClearMeans(ps, i, h + 1);
    } else if i + 1 < |ps| {
      ClearMeans(ps, i + 1, 0);
    }
  }

  /** The steps that builders `i` to `n - 1` take before the insert: each is checked, and then fills its slot. */
  function Steps(i: nat, n: nat): Trace
    requires i <= n
    decreases n - i
  {
    if i == n then [] else [Check(i), Fill(i)] + Steps(i + 1, n)
  }

  lemma {:induction false} NoInsertUnlessClear(ps: seq<Plan>, i: nat, h: nat, insert: Option<Error>)
    requires i < |ps| && h <= |ps[i].hooks|
    ensures !Clear(ps, i, h) ==> Insert !in Run(ps, i, h, insert).0
    decreases |ps| - i, |ps[i].hooks| - h
  {
    if h < |ps[i].hooks| {
      if ps[i].hooks[h].Forward? {
        NoInsertUnlessClear(ps, i, h + 1, insert);
      }
    } else if ps[i].check.None? && i + 1 < |ps| {
      NoInsertUnlessClear(ps, i + 1, 0, insert);
    }
  }

  /** The one insert of a trace: after these steps, before any other and before any completion. */
  ghost predicate SplitsAt(t: Trace, before: Trace, after: Trace, steps: Trace) {
    && t == before + [Insert] + after
    && Insert !in before && Insert !in after
    && Filter(before, IsStep()) == steps && Filter(after, IsStep()) == []
    && Filter(before, IsDone()) == []
  }

  lemma {:induction false} FilterCons(e: Event, t: Trace, p: Event -> bool)
    ensures Filter([e] + t, p) == Kept(e, p) + Filter(t, p)
  {
    FilterAppend([e], t, p);
    FilterSingle(e, p);
  }

  lemma {:induction false} FilterEnd(t: Trace, e: Event, p: Event -> bool)
    ensures Filter(t + [e], p) == Filter(t, p) + Kept(e, p)
  {
    FilterAppend(t, [e], p);
    FilterSingle(e, p);
  }

  lemma {:induction false} BracketedSplits(i: nat, h: nat, t: Trace, before: Trace, after: Trace, steps: Trace)
    requires SplitsAt(t, before, after, steps)
    ensures SplitsAt(Bracketed(i, h, t), [Enter(i, h)] + before, after + [Exit(i, h)], steps)
  {
    FilterCons(Enter(i, h), before, IsStep());
    FilterCons(Enter(i, h), before, IsDone());
    FilterEnd(after, Exit(i, h), IsStep());
  }

  lemma {:induction false} FilledText(i: nat, before: Trace, after: Trace, reply: Reply)
    ensures Filled(i, before + [Insert] + after, reply) ==
            ([Check(i)] + ([Fill(i)] + before)) + [Insert] + (after + (if reply.Ok? then [Done(i)] else []))
  {
    assert [Fill(i)] + (before + [Insert] + after) == ([Fill(i)] + before) + [Insert] + after;
  }

  lemma {:induction false} FilledSplits(i: nat, t: Trace, reply: Reply, before: Trace, after: Trace, steps: Trace)
    requires SplitsAt(t, before, after, steps)
    ensures SplitsAt(Filled(i, t, reply), [Check(i)] + ([Fill(i)] + before),
                     after + (if reply.Ok? then [Done(i)] else []),
                     [Check(i), Fill(i)] + steps)
  {
    FilterCons(Check(i), [Fill(i)] + before, IsStep());
    FilterCons(Fill(i), before, IsStep());
    FilterCons(Check(i), [Fill(i)] + before, IsDone());
    FilterCons(Fill(i), before, IsDone());
    FilterEnd(after, Done(i), IsStep());
    assert after + [] == after;
    FilledText(i, before, after, reply);
  }

  /**
   A clear run inserts once: by then every builder has passed its check and filled its slot, in order; none is done.
   */
  lemma {:induction false} InsertsOnce(ps: seq<Plan>, i: nat, h: nat, insert: Option<Error>)
    returns (before: Trace, after: Trace)
    requires i < |ps| && h <= |ps[i].hooks| && Clear(ps, i, h)
    ensures SplitsAt(Run(ps, i, h, insert).0, before, after, Steps(i, |ps|))
    decreases |ps| - i, |ps[i].hooks| - h
  {
    if h < |ps[i].hooks| {
      var b, a := InsertsOnce(ps, i, h + 1, insert);
      BracketedSplits(i, h, Run(ps, i, h + 1, insert).0, b, a, Steps(i, |ps|));
      before, after := [Enter(i, h)] + b, a + [Exit(i, h)];
    } else {
      var b, a := [], [];
      if i + 1 < |ps| {
        b, a := InsertsOnce(ps, i + 1, 0, insert);
      } else {
        assert [Insert] == [] + [Insert] + [];
      }
      var inner := Rest(ps, i, insert);
      FilledSplits(i, inner.0, inner.1, b, a, Steps(i + 1, |ps|));
      before, after := [Check(i)] + ([Fill(i)] + b), a + (if inner.1.Ok? then [Done(i)] else []);
    }
  }

  lemma {:induction false} BracketedSteps(i: nat, h: nat, inner: Trace)
    ensures Filter(Bracketed(i, h, inner), IsStep()) == Filter(inner, IsStep())
  {
    FilterBracketed(i, h, inner, IsStep());
  }

  lemma {:induction false} FilledSteps(i: nat, inner: Trace, reply: Reply)
    ensures Filter(Filled(i, inner, reply), IsStep()) == [Check(i), Fill(i)] + Filter(inner, IsStep())
  {
    FilterFilled(i, inner, reply, IsStep());
  }

  /** A clear run enters every hook there is. */
  lemma {:induction false} ClearEntersAll(ps: seq<Plan>, i: nat, h: nat, insert: Option<Error>)
    requires i < |ps| && h <= |ps[i].hooks| && Clear(ps, i, h)
    ensures Filter(Run(ps, i, h, insert).0, IsEnter()) == AllHooks(ps, i, h)
    decreases |ps| - i, |ps[i].hooks| - h
  {
    FilterSingle(Insert, IsEnter());
    if h < |ps[i].hooks| {
      ClearEntersAll(ps, i, h + 1, insert);
      FilterBracketed(i, h, Run(ps, i, h + 1, insert).0, IsEnter());
      assert AllHooks(ps, i, h + 1) + [] == AllHooks(ps, i, h + 1);
    } else {
      var inner := Rest(ps, i, insert);
      if i + 1 < |ps| {
        ClearEntersAll(ps, i + 1, 0, insert);
      }
      FilterFilled(i, inner.0, inner.1, IsEnter());
    }
  }

  /** In every run, failing ones included, no builder is checked early, skipped, or filled before its check. */
  lemma {:induction false} StepsInOrder(ps: seq<Plan>, i: nat, h: nat, insert: Option<Error>)
    requires i < |ps| && h <= |ps[i].hooks|
    ensures Filter(Run(ps, i, h, insert).0, IsStep()) <= Steps(i, |ps|)
    decreases |ps| - i, |ps[i].hooks| - h
  {
    FilterSingle(Check(i), IsStep());
    FilterSingle(Insert, IsStep());
    if h < |ps[i].hooks| {
      if ps[i].hooks[h].Forward? {
        StepsInOrder(ps, i, h + 1, insert);
        BracketedSteps(i, h, Run(ps, i, h + 1, insert).0);
      } else {
        BracketedSteps(i, h, []);
      }
    } else if ps[i].check.None? {
      var inner := Rest(ps, i, insert);
      if i + 1 < |ps| {
        StepsInOrder(ps, i + 1, 0, insert);
      }
      FilledSteps(i, inner.0, inner.1);
    }
  }

  // ---------------------------------------------------------------- hooks that do not hide errors

  /** A hook that never turns a failure, its own or the call's, into success. */
  predicate Honest(h: Hook) {
    match h
    case Stop(reply) => reply.Err?
    case Forward(_, onErr) => onErr.Some? ==> onErr.value.Err?
  }

  ghost predicate AllHonest(ps: seq<Plan>) {
    forall k, j :: 0 <= k < |ps| && 0 <= j < |ps[k].hooks| ==> Honest(ps[k].hooks[j])
  }

  /** No hook answers a successful call with an error. */
  ghost predicate Content(ps: seq<Plan>, i: nat, h: nat)
    requires i < |ps| && h <= |ps[i].hooks|
    decreases |ps| - i, |ps[i].hooks| - h
  {
    if h < |ps[i].hooks| then (ps[i].hooks[h].Forward? ==> ps[i].hooks[h].onOk.Ok?) && Content(ps, i, h + 1)
    else i + 1 < |ps| ==> Content(ps, i + 1, 0)
  }

  /** With honest hooks, success means that everything was checked and inserted, and every failure is reported. */
  lemma {:induction false} SuccessIff(ps: seq<Plan>, i: nat, h: nat, insert: Option<Error>)
    requires i < |ps| && h <= |ps[i].hooks| && AllHonest(ps)
    ensures Run(ps, i, h, insert).1.Ok? <==> Clear(ps, i, h) && insert.None? && Content(ps, i, h)
    decreases |ps| - i, |ps[i].hooks| - h
  {
    if h < |ps[i].hooks| {
      assert Honest(ps[i].hooks[h]);
      SuccessIff(ps, i, h + 1, insert);
    } else if i + 1 < |ps| {
      SuccessIff(ps, i + 1, 0, insert);
    }
  }

  /** The completions of builders `n - 1` down to `i`. */
  function Downward(n: nat, i: nat): Trace
    requires i <= n
    decreases n - i
  {
    if i == n then [] else Downward(n, i + 1) + [Done(i)]
  }

  /** The completions so far run down from the last builder, and reach builder `i` when the reply is a success. */
  ghost predicate Completes(t: Trace, reply: Reply, n: nat, i: nat)
    requires i <= n
  {
    Filter(t, IsDone()) <= Downward(n, i) && (reply.Ok? ==> Filter(t, IsDone()) == Downward(n, i))
  }

  lemma {:induction false} BracketedCompletes(i: nat, h: nat, t: Trace, inner: Reply, reply: Reply, n: nat)
    requires i <= n && Completes(t, inner, n, i) && (reply.Ok? ==> inner.Ok?)
    ensures Completes(Bracketed(i, h, t), reply, n, i)
  {
    FilterBracketed(i, h, t, IsDone());
    assert Filter(Bracketed(i, h, t), IsDone()) == Filter(t, IsDone());
  }

  lemma {:induction false} FilledCompletes(i: nat, t: Trace, reply: Reply, n: nat)
    requires i < n && Completes(t, reply, n, i + 1)
    ensures Completes(Filled(i, t, reply), reply, n, i)
  {
    FilterFilled(i, t, reply, IsDone());
    assert Filter(Filled(i, t, reply), IsDone()) == Filter(t, IsDone()) + (if reply.Ok? then [Done(i)] else []);
  }

  /** With honest hooks the builders complete from the last one down, without gaps; on success all of them have. */
  lemma {:induction false} DoneFromTheEnd(ps: seq<Plan>, i: nat, h: nat, insert: Option<Error>)
    requires i < |ps| && h <= |ps[i].hooks| && AllHonest(ps)
    ensures Completes(Run(ps, i, h, insert).0, Run(ps, i, h, insert).1, |ps|, i)
    decreases |ps| - i, |ps[i].hooks| - h
  {
    FilterSingle(Check(i), IsDone());
    FilterSingle(Insert, IsDone());
    if h < |ps[i].hooks| {
      var hook := ps[i].hooks[h];
      assert Honest(hook);
      if hook.Forward? {
        var inner := Run(ps, i, h + 1, insert);
        DoneFromTheEnd(ps, i, h + 1, insert);
        BracketedCompletes(i, h, inner.0, inner.1, Answer(hook, inner.1), |ps|);
      } else {
        BracketedCompletes(i, h, [], hook.reply, hook.reply, |ps|);
      }
    } else if ps[i].check.None? {
      var inner := Rest(ps, i, insert);
      if i + 1 < |ps| {
        DoneFromTheEnd(ps, i + 1, 0, insert);
      }
      FilledCompletes(i, inner.0, inner.1, |ps|);
    }
  }

  lemma {:induction false} DownwardAt(n: nat, i: nat, m: nat)
    requires i <= n && m < n - i
    ensures |Downward(n, i)| == n - i && Downward(n, i)[m] == Done(n - 1 - m)
    decreases n - i
  {
    if i + 1 < n {
      DownwardAt(n, i + 1, if m < n - i - 1 then m else 0);
    }
  }

  /** A trace whose completions run down from the last builder has completed exactly the builders from some one on. */
  lemma {:induction false} CompletedFrom(t: Trace, n: nat, i: nat) returns (cut: nat)
    requires i <= n && Filter(t, IsDone()) <= Downward(n, i)
    ensures i <= cut <= n
    ensures forall k: nat :: Done(k) in t <==> cut <= k < n
  {
    var dones := Filter(t, IsDone());
    FilterMembers(t, IsDone());
    if i < n {
      DownwardAt(n, i, 0);
    }
    cut := n - |dones|;
    forall m | 0 <= m < |dones|
      ensures dones[m] == Done(n - 1 - m)
    {
      DownwardAt(n, i, m);
    }
    forall k: nat
      ensures Done(k) in t <==> cut <= k < n
    {
      if Done(k) in t {
        assert Done(k) in dones;
        var m :| 0 <= m < |dones| && dones[m] == Done(k);
      }
      if cut <= k < n {
        assert dones[n - 1 - k] == Done(k);
        assert Done(k) in dones;
      }
    }
  }

  lemma {:induction false} FilterPrefix(t: Trace, m: nat, p: Event -> bool)
    requires m <= |t|
    ensures Filter(t[..m], p) <= Filter(t, p)
  {
    assert t == t[..m] + t[m..];
    FilterAppend(t[..m], t[m..], p);
  }

  /** At every moment of a run, the builders that are done form a suffix of the list. */
  lemma {:induction false} DoneIsASuffix(ps: seq<Plan>, insert: Option<Error>, m: nat)
    requires |ps| > 0 && AllHonest(ps) && m <= |Run(ps, 0, 0, insert).0|
    ensures Filter(Run(ps, 0, 0, insert).0[..m], IsDone()) <= Downward(|ps|, 0)
  {
    DoneFromTheEnd(ps, 0, 0, insert);
    FilterPrefix(Run(ps, 0, 0, insert).0, m, IsDone());
  }

  /** Success without an insert. */
  ghost predicate HidesFailure(ps: seq<Plan>, insert: Option<Error>)
    requires |ps| > 0
  {
    var r := Run(ps, 0, 0, insert);
    r.1.Ok? && (Insert !in r.0 || insert.Some?)
  }

  /**
   A bulk save can report success although nothing was inserted. For a single hook this is ruled out exactly by the
   hook being honest: a hook that swallows errors, or stops with success, makes it happen.
   */
  lemma {:induction false} HonestIff(hook: Hook)
    ensures Honest(hook) <==>
            forall check: Option<Error>, insert: Option<Error> :: !HidesFailure([Plan(check, [hook])], insert)
  {
    forall check: Option<Error>, insert: Option<Error> | Honest(hook)
      ensures !HidesFailure([Plan(check, [hook])], insert)
    {
      var ps := [Plan(check, [hook])];
      SuccessIff(ps, 0, 0, insert);
      if Clear(ps, 0, 0) {
        var before, after := InsertsOnce(ps, 0, 0, insert);
        assert Insert in before + [Insert] + after;
      }
    }
    if !Honest(hook) {
      var ps := [Plan(Some(ValidationError(0)), [hook])];
      assert Run(ps, 0, 1, None) == ([Check(0)], Err(ValidationError(0)));
      assert HidesFailure(ps, None);
    }
  }

  /** An honest list as a whole: success is never reported without the insert having succeeded. */
  lemma {:induction false} HonestNeverHides(ps: seq<Plan>, insert: Option<Error>)
    requires |ps| > 0 && AllHonest(ps)
    ensures !HidesFailure(ps, insert)
  {
    SuccessIff(ps, 0, 0, insert);
    if Clear(ps, 0, 0) {
      var before, after := InsertsOnce(ps, 0, 0, insert);
      assert Insert in before + [Insert] + after;
    }
  }

  ghost predicate BuiltFrom(ps: seq<Plan>, hooks: iset<Hook>) {
    |ps| > 0 && forall k, j :: 0 <= k < |ps| && 0 <= j < |ps[k].hooks| ==> ps[k].hooks[j] in hooks
  }

  /** For any collection of hooks: no bulk save that uses only these can hide a failure, exactly when all are honest. */
  lemma {:induction false} HonestListsIff(hooks: iset<Hook>)
    ensures (forall hook :: hook in hooks ==> Honest(hook)) <==>
            forall ps: seq<Plan>, insert: Option<Error> :: BuiltFrom(ps, hooks) ==> !HidesFailure(ps, insert)
  {
    forall ps: seq<Plan>, insert: Option<Error> | BuiltFrom(ps, hooks) && forall hook :: hook in hooks ==> Honest(hook)
      ensures !HidesFailure(ps, insert)
    {
      HonestNeverHides(ps, insert);
    }
    forall hook | hook in hooks && !Honest(hook)
      ensures exists ps: seq<Plan>, insert: Option<Error> :: BuiltFrom(ps, hooks) && HidesFailure(ps, insert)
    {
      HonestIff(hook);
      var check: Option<Error>, insert: Option<Error> :| HidesFailure([Plan(check, [hook])], insert);
      assert BuiltFrom([Plan(check, [hook])], hooks);
    }
  }

  // ---------------------------------------------------------------- which events a trace can hold

  predicate HookEvent(e: Event) {
    e.Enter? || e.Exit?
  }

  lemma {:induction false} BracketedMembers(i: nat, h: nat, inner: Trace, e: Event)
    requires !HookEvent(e)
    ensures e in Bracketed(i, h, inner) <==> e in inner
  {
  }

  lemma {:induction false} FilledMembers(i: nat, inner: Trace, reply: Reply, e: Event)
    ensures e in Filled(i, inner, reply) <==> e in inner || e == Check(i) || e == Fill(i) || (e == Done(i) && reply.Ok?)
  {
  }

  /** Closure `i` fills and completes only builders from `i` on. */
  lemma {:induction false} OnlyFrom(ps: seq<Plan>, i: nat, h: nat, insert: Option<Error>, k: nat)
    requires i < |ps| && h <= |ps[i].hooks|
    ensures var t := Run(ps, i, h, insert).0; (Fill(k) in t || Done(k) in t) ==> k >= i
    decreases |ps| - i, |ps[i].hooks| - h
  {
    if h < |ps[i].hooks| {
      if ps[i].hooks[h].Forward? {
        OnlyFrom(ps, i, h + 1, insert, k);
      }
    } else if ps[i].check.None? {
      var inner := Rest(ps, i, insert);
      FilledMembers(i, inner.0, inner.1, Fill(k));
      FilledMembers(i, inner.0, inner.1, Done(k));
      if i + 1 < |ps| {
        OnlyFrom(ps, i + 1, 0, insert, k);
      }
    }
  }

  // ---------------------------------------------------------------- the chain as layers

  /** What a run passes on its way to the insert, outermost first: the hooks of a builder, and then its check. */
  datatype Layer =
    | HookLayer(builder: nat, place: nat, hook: Hook)
    | CheckLayer(builder: nat, check: Option<Error>)

  function Layers(ps: seq<Plan>, i: nat, h: nat): seq<Layer>
    requires i < |ps| && h <= |ps[i].hooks|
    decreases |ps| - i, |ps[i].hooks| - h
  {
    if h < |ps[i].hooks| then [HookLayer(i, h, ps[i].hooks[h])] + Layers(ps, i, h + 1)
    else [CheckLayer(i, ps[i].check)] + (if i + 1 < |ps| then Layers(ps, i + 1, 0) else [])
  }

  lemma {:induction false} LayersAre(ps: seq<Plan>, i: nat, h: nat, l: Layer)
    requires i < |ps| && h <= |ps[i].hooks|
    ensures l in Layers(ps, i, h) <==>
            match l
            case HookLayer(k, j, hook) =>
              && (if k == i then h <= j else i < k)
              && k < |ps| && j < |ps[k].hooks| && hook == ps[k].hooks[j]
            case CheckLayer(k, check) => i <= k < |ps| && check == ps[k].check
    decreases |ps| - i, |ps[i].hooks| - h
  {
    if h < |ps[i].hooks| {
      LayersAre(ps, i, h + 1, l);
    } else if i + 1 < |ps| {
      LayersAre(ps, i + 1, 0, l);
    }
  }

  /** What a layer makes of the reply from further in. */
  ghost predicate Turned(l: Layer, inner: Reply, outer: Reply) {
    match l
    case HookLayer(_, _, Stop(reply)) => outer == reply
    case HookLayer(_, _, Forward(onOk, onErr)) =>
      && (inner == Ok ==> outer == onOk)
      && (inner != Ok && onErr == None ==> outer == inner)
      && (inner != Ok && onErr != None ==> Some(outer) == onErr)
    case CheckLayer(_, None) => outer == inner
    case CheckLayer(_, Some(e)) => outer == Err(e)
  }

  /** The replies between the layers, from the driver's own verdict outwards. */
  ghost predicate Unwinds(layers: seq<Layer>, insert: Option<Error>, replies: seq<Reply>) {
    && |replies| == |layers| + 1
    && (insert == None ==> replies[|layers|] == Ok)
    && (insert != None ==> replies[|layers|] == Err(insert.value))
    && forall j :: 0 <= j < |layers| ==> Turned(layers[j], replies[j + 1], replies[j])
  }

  /** The reply of every run is the driver's verdict turned by one layer after the other. */
  lemma {:induction false} ReplyUnwinds(ps: seq<Plan>, i: nat, h: nat, insert: Option<Error>)
    returns (replies: seq<Reply>)
    requires i < |ps| && h <= |ps[i].hooks|
    ensures Unwinds(Layers(ps, i, h), insert, replies) && replies[0] == Run(ps, i, h, insert).1
    decreases |ps| - i, |ps[i].hooks| - h
  {
    var layers, below := Layers(ps, i, h), [];
    if h < |ps[i].hooks| {
      below := ReplyUnwinds(ps, i, h + 1, insert);
    } else if i + 1 < |ps| {
      below := ReplyUnwinds(ps, i + 1, 0, insert);
    } else {
      below := [if insert == None then Ok else Err(insert.value)];
    }
    replies := [Run(ps, i, h, insert).1] + below;
    assert Unwinds(layers[1..], insert, below);
    assert below[0] == if h < |ps[i].hooks| then Run(ps, i, h + 1, insert).1 else Rest(ps, i, insert).1;
    forall j | 0 <= j < |layers|
      ensures Turned(layers[j], replies[j + 1], replies[j])
    {
      if j > 0 {
        assert Turned(layers[1..][j - 1], below[j], below[j - 1]);
      }
    }
  }

  lemma {:induction false} ReplyIsUnwound(ps: seq<Plan>, insert: Option<Error>)
    requires |ps| > 0
    ensures exists replies ::
              Unwinds(Layers(ps, 0, 0), insert, replies) && replies[0] == Run(ps, 0, 0, insert).1
  {
    var replies := ReplyUnwinds(ps, 0, 0, insert);
  }

  /** Layers and a verdict leave no choice of the replies. */
  lemma {:induction false} UnwindsOneWay(layers: seq<Layer>, insert: Option<Error>, a: seq<Reply>, b: seq<Reply>,
                                         j: nat)
    requires Unwinds(layers, insert, a) && Unwinds(layers, insert, b) && j <= |layers|
    ensures a[j] == b[j]
    decreases |layers| - j
  {
    if j < |layers| {
      UnwindsOneWay(layers, insert, a, b, j + 1);
      assert Turned(layers[j], a[j + 1], a[j]) && Turned(layers[j], b[j + 1], b[j]);
    }
  }

  // ---------------------------------------------------------------- which error a caller sees

  ghost predicate FirstToFail(ps: seq<Plan>, k: nat) {
    k < |ps| && ps[k].check.Some? && forall j :: 0 <= j < k ==> ps[j].check.None?
  }

  /** Every hook forwards and passes both outcomes on. */
  ghost predicate Transparent(ps: seq<Plan>) {
    forall k, j :: 0 <= k < |ps| && 0 <= j < |ps[k].hooks| ==> ps[k].hooks[j] == Forward(Ok, None)
  }

  lemma {:induction false} TransparentFrom(ps: seq<Plan>, i: nat, h: nat, insert: Option<Error>)
    requires i < |ps| && h <= |ps[i].hooks| && Transparent(ps) && forall j :: 0 <= j < i ==> ps[j].check.None?
    ensures forall k: nat :: FirstToFail(ps, k) ==> Run(ps, i, h, insert).1 == Err(ps[k].check.value)
    ensures (forall k :: 0 <= k < |ps| ==> ps[k].check.None?) ==>
              Run(ps, i, h, insert).1 == if insert == None then Ok else Err(insert.value)
    decreases |ps| - i, |ps[i].hooks| - h
  {
    if h < |ps[i].hooks| {
      assert ps[i].hooks[h] == Forward(Ok, None);
      TransparentFrom(ps, i, h + 1, insert);
    } else if ps[i].check.None? && i + 1 < |ps| {
      TransparentFrom(ps, i + 1, 0, insert);
    } else if ps[i].check.Some? {
      assert forall k: nat :: FirstToFail(ps, k) ==> k == i;
    }
  }

  /** Behind hooks that pass everything on, the caller sees the first failing check, or else the driver's verdict. */
  lemma {:induction false} TransparentReply(ps: seq<Plan>, insert: Option<Error>)
    requires |ps| > 0 && Transparent(ps)
    ensures forall k: nat :: FirstToFail(ps, k) ==> Run(ps, 0, 0, insert).1 == Err(ps[k].check.value)
    ensures (forall k :: 0 <= k < |ps| ==> ps[k].check.None?) ==>
              Run(ps, 0, 0, insert).1 == if insert == None then Ok else Err(insert.value)
  {
    TransparentFrom(ps, 0, 0, insert);
  }

  /** Some hook answers with this reply. */
  ghost predicate HookAnswers(ps: seq<Plan>, reply: Reply) {
    exists k, j :: 0 <= k < |ps| && 0 <= j < |ps[k].hooks| && CanAnswer(ps[k].hooks[j], reply)
  }

  predicate CanAnswer(h: Hook, reply: Reply) {
    match h
    case Stop(r) => r == reply
    case Forward(onOk, onErr) => onOk == reply || onErr == Some(reply)
  }

  /** No error is made up: it is a hook's own, that of the first check to fail, or the driver's verdict as it is. */
  ghost predicate HasSource(ps: seq<Plan>, insert: Option<Error>, error: Error) {
    || HookAnswers(ps, Err(error))
    || (exists k: nat :: FirstToFail(ps, k) && ps[k].check == Some(error))
    || insert == Some(error)
  }

  lemma {:induction false} ErrorHasSource(ps: seq<Plan>, i: nat, h: nat, insert: Option<Error>)
    requires i < |ps| && h <= |ps[i].hooks| && forall j :: 0 <= j < i ==> ps[j].check.None?
    ensures Run(ps, i, h, insert).1.Err? ==> HasSource(ps, insert, Run(ps, i, h, insert).1.error)
    decreases |ps| - i, |ps[i].hooks| - h
  {
    var reply := Run(ps, i, h, insert).1;
    if h < |ps[i].hooks| {
      var hook := ps[i].hooks[h];
      if CanAnswer(hook, reply) {
        assert HookAnswers(ps, reply);
      } else {
        ErrorHasSource(ps, i, h + 1, insert);
      }
    } else if ps[i].check.Some? {
      assert FirstToFail(ps, i);
    } else if i + 1 < |ps| {
      ErrorHasSource(ps, i + 1, 0, insert);
    }
  }

  // ---------------------------------------------------------------- how far a run gets

  function IsReach(): Event -> bool { (e: Event) => e.Enter? || e.Check? }

  predicate Blocks(l: Layer) {
    match l
    case HookLayer(_, _, hook) => hook.Stop?
    case CheckLayer(_, check) => check.Some?
  }

  function Arrival(l: Layer): Event {
    match l
    case HookLayer(i, h, _) => Enter(i, h)
    case CheckLayer(i, _) => Check(i)
  }

  /** The layers one after the other, down to the first that blocks. */
  function Arrivals(layers: seq<Layer>): Trace {
    if layers == [] then []
    else [Arrival(layers[0])] + (if Blocks(layers[0]) then [] else Arrivals(layers[1..]))
  }

  lemma {:induction false} BracketedReaches(i: nat, h: nat, inner: Trace)
    ensures Filter(Bracketed(i, h, inner), IsReach()) == [Enter(i, h)] + Filter(inner, IsReach())
  {
    FilterBracketed(i, h, inner, IsReach());
  }

  lemma {:induction false} FilledReaches(i: nat, inner: Trace, reply: Reply)
    ensures Filter(Filled(i, inner, reply), IsReach()) == [Check(i)] + Filter(inner, IsReach())
  {
    FilterFilled(i, inner, reply, IsReach());
  }

  lemma {:induction false} ArrivalsFrom(l: Layer, rest: seq<Layer>)
    ensures Arrivals([l] + rest) == [Arrival(l)] + (if Blocks(l) then [] else Arrivals(rest))
  {
    assert ([l] + rest)[1..] == rest;
  }

  /** Every run reaches the layers in order down to the first that blocks, and no further. */
  lemma {:induction false} ReachesBlocker(ps: seq<Plan>, i: nat, h: nat, insert: Option<Error>)
    requires i < |ps| && h <= |ps[i].hooks|
    ensures Filter(Run(ps, i, h, insert).0, IsReach()) == Arrivals(Layers(ps, i, h))
    decreases |ps| - i, |ps[i].hooks| - h
  {
    if h < |ps[i].hooks| {
      var hook := ps[i].hooks[h];
      ArrivalsFrom(HookLayer(i, h, hook), Layers(ps, i, h + 1));
      if hook.Forward? {
        ReachesBlocker(ps, i, h + 1, insert);
        BracketedReaches(i, h, Run(ps, i, h + 1, insert).0);
      } else {
        BracketedReaches(i, h, []);
      }
    } else {
      ArrivalsFrom(CheckLayer(i, ps[i].check), if i + 1 < |ps| then Layers(ps, i + 1, 0) else []);
      if ps[i].check.Some? {
        FilterSingle(Check(i), IsReach());
      } else {
        RestReaches(ps, i, insert);
        FilledReaches(i, Rest(ps, i, insert).0, Rest(ps, i, insert).1);
      }
    }
  }

  lemma {:induction false} RestReaches(ps: seq<Plan>, i: nat, insert: Option<Error>)
    requires i < |ps|
    ensures Filter(Rest(ps, i, insert).0, IsReach()) ==
            Arrivals(if i + 1 < |ps| then Layers(ps, i + 1, 0) else [])
    decreases |ps| - i, 0, 0
  {
    if i + 1 < |ps| {
      ReachesBlocker(ps, i + 1, 0, insert);
    } else {
      FilterSingle(Insert, IsReach());
    }
  }

  /** A builder fills its slot exactly when its check was reached and passed. */
  lemma {:induction false} FillsIffChecked(ps: seq<Plan>, i: nat, h: nat, insert: Option<Error>, k: nat)
    requires i < |ps| && h <= |ps[i].hooks| && i <= k < |ps|
    ensures var t := Run(ps, i, h, insert).0; Fill(k) in t <==> Check(k) in t && ps[k].check.None?
    decreases |ps| - i, |ps[i].hooks| - h
  {
    if h < |ps[i].hooks| {
      if ps[i].hooks[h].Forward? {
        FillsIffChecked(ps, i, h + 1, insert, k);
      }
    } else if ps[i].check.None? {
      var inner := Rest(ps, i, insert);
      FilledMembers(i, inner.0, inner.1, Fill(k));
      FilledMembers(i, inner.0, inner.1, Check(k));
      if i + 1 < |ps| && k > i {
        FillsIffChecked(ps, i + 1, 0, insert, k);
      }
    }
  }

  lemma {:induction false} UnwindsBelow(layers: seq<Layer>, insert: Option<Error>, replies: seq<Reply>)
    requires layers != [] && Unwinds(layers, insert, replies)
    ensures Unwinds(layers[1..], insert, replies[1..])
  {
    forall j | 0 <= j < |layers[1..]|
      ensures Turned(layers[1..][j], replies[1..][j + 1], replies[1..][j])
    {
      assert Turned(layers[j + 1], replies[j + 2], replies[j + 1]);
    }
  }

  /** The reply from further in, as a core sees it. */
  lemma {:induction false} CoreSees(ps: seq<Plan>, i: nat, insert: Option<Error>, replies: seq<Reply>)
    requires i < |ps| && Unwinds(Layers(ps, i, |ps[i].hooks|), insert, replies)
    ensures replies[1] == Rest(ps, i, insert).1
  {
    var layers := Layers(ps, i, |ps[i].hooks|);
    UnwindsBelow(layers, insert, replies);
    if i + 1 < |ps| {
      assert layers[1..] == Layers(ps, i + 1, 0);
      var own := ReplyUnwinds(ps, i + 1, 0, insert);
      UnwindsOneWay(layers[1..], insert, replies[1..], own, 0);
    }
  }

  lemma {:induction false} CoreMembers(ps: seq<Plan>, i: nat, insert: Option<Error>, k: nat)
    requires i < |ps| && ps[i].check.None?
    ensures var t, inner := Run(ps, i, |ps[i].hooks|, insert).0, Rest(ps, i, insert);
            && (Fill(k) in t <==> k == i || Fill(k) in inner.0)
            && (Done(k) in t <==> (k > i && Done(k) in inner.0) || (k == i && inner.1.Ok?))
  {
    var inner := Rest(ps, i, insert);
    FilledMembers(i, inner.0, inner.1, Fill(k));
    FilledMembers(i, inner.0, inner.1, Done(k));
    if i + 1 < |ps| {
      OnlyFrom(ps, i + 1, 0, insert, k);
    }
  }

  /** A builder is completed when its slot is filled and the reply from further in is a success. */
  ghost predicate DoneIff(t: Trace, k: nat, inner: Reply) {
    Done(k) in t <==> Fill(k) in t && inner.Ok?
  }

  lemma {:induction false} LayerBelow(ps: seq<Plan>, i: nat, m: nat)
    requires i + 1 < |ps| && 0 < m < |Layers(ps, i, |ps[i].hooks|)|
    ensures Layers(ps, i, |ps[i].hooks|)[1..] == Layers(ps, i + 1, 0)
    ensures Layers(ps, i, |ps[i].hooks|)[m].builder > i
  {
    LayersAre(ps, i + 1, 0, Layers(ps, i, |ps[i].hooks|)[m]);
  }

  /** Every run completes exactly the builders whose core saw a success. */
  lemma {:induction false} DoneIffAccepted(ps: seq<Plan>, i: nat, h: nat, insert: Option<Error>, replies: seq<Reply>,
                                           m: nat)
    requires i < |ps| && h <= |ps[i].hooks| && Unwinds(Layers(ps, i, h), insert, replies)
    requires m < |Layers(ps, i, h)| && Layers(ps, i, h)[m].CheckLayer?
    ensures DoneIff(Run(ps, i, h, insert).0, Layers(ps, i, h)[m].builder, replies[m + 1])
    decreases |ps| - i, |ps[i].hooks| - h
  {
    UnwindsBelow(Layers(ps, i, h), insert, replies);
    if h < |ps[i].hooks| {
      var inner, k := if ps[i].hooks[h].Forward? then Run(ps, i, h + 1, insert).0 else [], Layers(ps, i, h)[m].builder;
      assert Layers(ps, i, h)[1..] == Layers(ps, i, h + 1);
      DoneIffAccepted(ps, i, h + 1, insert, replies[1..], m - 1);
      BracketedMembers(i, h, inner, Done(k));
      BracketedMembers(i, h, inner, Fill(k));
    } else if ps[i].check.None? {
      CoreMembers(ps, i, insert, Layers(ps, i, h)[m].builder);
      CoreSees(ps, i, insert, replies);
      if m > 0 {
        LayerBelow(ps, i, m);
        DoneIffAccepted(ps, i + 1, 0, insert, replies[1..], m - 1);
      }
    }
  }
}
