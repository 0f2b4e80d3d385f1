/**
 A dispatch depends on the world's answers at the ticks it spends and on no others, so worlds can be cut at a tick and
 put together: what one does before and another after happens in a single one.
 */
module ExecutorLocality {
  import opened Options
  import opened RunStatus
  import opened Failure
  import opened Recovery
  import opened Executor

  ghost predicate SameAt(w: World, v: World, t: nat) {
    && w.cancelled(t) == v.cancelled(t) && w.cut(t) == v.cut(t) && w.command(t) == v.command(t)
    && w.claims(t) == v.claims(t) && w.undo(t) == v.undo(t)
    && forall x: nat :: w.act(x, t) == v.act(x, t) && w.bound(x, t) == v.bound(x, t)
  }

  predicate SameRules(w: World, v: World) {
    w.root == v.root && w.policies == v.policies
  }

  /** The worlds answer alike from tick `lo` up to, but not including, `hi`. */
  ghost predicate Agree(w: World, v: World, lo: nat, hi: nat) {
    SameRules(w, v) && forall t :: lo <= t < hi ==> SameAt(w, v, t)
  }

  lemma AgreeWithin(w: World, v: World, lo: nat, hi: nat, lo': nat, hi': nat)
    requires Agree(w, v, lo, hi) && lo <= lo' && hi' <= hi
    ensures Agree(w, v, lo', hi')
  {
  }

  lemma AgreeAt(w: World, v: World, lo: nat, hi: nat, t: nat)
    requires Agree(w, v, lo, hi) && lo <= t < hi
    ensures SameRules(w, v) && SameAt(w, v, t)
  {
  }

  // ----- Unwinding -----

  lemma {:induction false} UnwindLocal(f: nat -> bool, g: nat -> bool, tick: nat, entries: seq<Entry>)
    requires forall t :: tick <= t < Unwind(f, tick, entries).tick ==> f(t) == g(t)
    ensures Unwind(g, tick, entries) == Unwind(f, tick, entries)
    decreases entries, 1
  {
    SweepLocal(f, g, tick, entries);
  }

  lemma {:induction false} SweepLocal(f: nat -> bool, g: nat -> bool, tick: nat, entries: seq<Entry>)
    requires forall t :: tick <= t < Sweep(f, tick, entries).tick ==> f(t) == g(t)
    ensures Sweep(g, tick, entries) == Sweep(f, tick, entries)
    decreases entries, 0
  {
    if entries != [] {
      var n := |entries| - 1;
      var last := Compensate(f, tick, entries[n]);
      CompensateCalls(f, tick, entries[n]);
      SweepCallsEverything(f, last.tick, entries[..n]);
      CompensateLocal(f, g, tick, entries[n]);
      SweepLocal(f, g, last.tick, entries[..n]);
    }
  }

  lemma {:induction false} CompensateLocal(f: nat -> bool, g: nat -> bool, tick: nat, e: Entry)
    requires forall t :: tick <= t < Compensate(f, tick, e).tick ==> f(t) == g(t)
    ensures Compensate(g, tick, e) == Compensate(f, tick, e)
    decreases e, 0
  {
    match e
    case Nested(stack) => UnwindLocal(f, g, tick, stack.entries);
    case Receipt(unit, _, _, true) => assert f(tick) == g(tick);
    case _ =>
  }

  // ----- Dispatch -----

  lemma {:induction false} DispatchedLocal(w: World, v: World, d: nat, u: Unit, st: State)
    requires Agree(w, v, st.tick, Dispatched(w, d, u, st).st.tick)
    ensures Dispatched(v, d, u, st) == Dispatched(w, d, u, st)
    decreases u, 2 + Left(w, u, 0), 0
  {
    AttemptsLocal(w, v, d, u, st, 0, Nothing);
  }

  lemma {:induction false} AttemptsLocal(w: World, v: World, d: nat, u: Unit, st: State, attempt: nat, last: Err)
    requires Agree(w, v, st.tick, Attempts(w, d, u, st, attempt, last).st.tick)
    ensures Attempts(v, d, u, st, attempt, last) == Attempts(w, d, u, st, attempt, last)
    decreases u, 1 + Left(w, u, attempt), 1
  {
    hide Agree, Execute, Retry, Resolve, ApplyPending, IsPaused, IsHard;
    var t := Attempts(w, d, u, st, attempt, last);
    var hi := t.st.tick;
    SameTries(w, v, st.tick, hi, u);
    if attempt >= Tries(w, u) {
      ResolveLocal(w, v, d, u, st, ActionFailed, last);
    } else if attempt > 0 && w.cut(st.tick) {
      AgreeAt(w, v, st.tick, hi, st.tick);
    } else {
      var began := Log(st.(tick := st.tick + 1), [Began(d, u.id)]);
      var r := Execute(w, d, u, began);
      EndsLater(w, d, u, st, attempt, last);
      AgreeAt(w, v, st.tick, hi, st.tick);
      AgreeWithin(w, v, st.tick, hi, began.tick, r.st.tick);
      ExecuteLocal(w, v, d, u, began);
      if r.out.Fail? {
        var asked := r.st.(tick := r.st.tick + 1);
        AgreeAt(w, v, st.tick, hi, r.st.tick);
        if !IsPaused(r.out.err) && !w.cancelled(r.st.tick) && !IsHard(r.out.err) {
          AgreeWithin(w, v, st.tick, hi, asked.tick, hi);
          RetryLocal(w, v, d, u, asked, attempt, r.out.err);
        }
      }
    }
  }

  lemma SameTries(w: World, v: World, lo: nat, hi: nat, u: Unit)
    requires Agree(w, v, lo, hi)
    ensures SameRules(w, v) && Tries(w, u) == Tries(v, u)
  {
  }

  /** The loop ends no earlier than its attempt, and, when that failed, than the question after it. */
  lemma EndsLater(w: World, d: nat, u: Unit, st: State, attempt: nat, last: Err)
    requires attempt < Tries(w, u) && !(attempt > 0 && w.cut(st.tick))
    ensures var r := Execute(w, d, u, Log(st.(tick := st.tick + 1), [Began(d, u.id)]));
            var t := Attempts(w, d, u, st, attempt, last);
            st.tick < r.st.tick <= t.st.tick && (r.out.Fail? ==> r.st.tick < t.st.tick)
  {
    hide Execute, Retry, IsPaused, IsHard;
    var began := Log(st.(tick := st.tick + 1), [Began(d, u.id)]);
    var r := Execute(w, d, u, began);
    assert Grew(began, r.st);
    if r.out.Fail? && !IsPaused(r.out.err) && !w.cancelled(r.st.tick) && !IsHard(r.out.err) {
      assert Grew(r.st.(tick := r.st.tick + 1), Retry(w, d, u, r.st.(tick := r.st.tick + 1), attempt, r.out.err).st);
    }
  }

  lemma {:induction false} RetryLocal(w: World, v: World, d: nat, u: Unit, st: State, attempt: nat, err: Err)
    requires attempt < Tries(w, u) && Agree(w, v, st.tick, Retry(w, d, u, st, attempt, err).st.tick)
    ensures attempt < Tries(v, u) && Retry(v, d, u, st, attempt, err) == Retry(w, d, u, st, attempt, err)
    decreases u, 1 + Left(w, u, attempt), 0
  {
    hide Agree, Handle, Attempts, Resolve;
    var hi := Retry(w, d, u, st, attempt, err).st.tick;
    SameTries(w, v, st.tick, hi, u);
    if attempt + 1 < Tries(w, u) && u.onRetry.Some? {
      var g := Handle(w, d, u.id, false, u.onRetry.value, st);
      AgreeWithin(w, v, st.tick, hi, st.tick, g.st.tick);
      HandleLocal(w, v, d, u.id, false, u.onRetry.value, st);
      if g.out.Ok? {
        AgreeWithin(w, v, st.tick, hi, g.st.tick, hi);
        if IsTruthy(g.out.value) {
          AttemptsLocal(w, v, d, u, g.st, attempt + 1, err);
        } else {
          ResolveLocal(w, v, d, u, g.st, RetryVetoed, err);
        }
      }
    } else {
      AttemptsLocal(w, v, d, u, st, attempt + 1, err);
    }
  }

  lemma {:induction false} ResolveLocal(w: World, v: World, d: nat, u: Unit, st: State, base: Reason, cause: Err)
    requires Agree(w, v, st.tick, Resolve(w, d, u, st, base, cause).st.tick)
    ensures Resolve(v, d, u, st, base, cause) == Resolve(w, d, u, st, base, cause)
    decreases u, 0, 2
  {
    hide Handle, As, StandingFailure, HandlerError, IsTruthy;
    if u.onError.Some? {
      HandleLocal(w, v, d, u.id, true, u.onError.value, st);
    }
  }

  lemma {:induction false} HandleLocal(w: World, v: World, d: nat, unit: nat, rescue: bool, handler: Unit, st: State)
    requires Agree(w, v, st.tick, Handle(w, d, unit, rescue, handler, st).st.tick)
    ensures Handle(v, d, unit, rescue, handler, st) == Handle(w, d, unit, rescue, handler, st)
    decreases handler, 1, 0
  {
    hide Execute, Unwind;
    var asked := Log(st.(entries := []), [Asked(d, unit, rescue)]);
    var r := Execute(w, d + 1, handler, asked);
    UnwindCallsEverything(w.undo, r.st.tick, r.st.entries);
    AgreeWithin(w, v, st.tick, Handle(w, d, unit, rescue, handler, st).st.tick, asked.tick, r.st.tick);
    ExecuteLocal(w, v, d + 1, handler, asked);
    if !r.out.Ok? {
      var hi := Unwind(w.undo, r.st.tick, r.st.entries).tick;
      forall t | r.st.tick <= t < hi ensures w.undo(t) == v.undo(t) {
        AgreeAt(w, v, st.tick, hi, t);
      }
      UnwindLocal(w.undo, v.undo, r.st.tick, r.st.entries);
    }
  }

  lemma {:induction false} ExecuteLocal(w: World, v: World, d: nat, u: Unit, st: State)
    requires Agree(w, v, st.tick, Execute(w, d, u, st).st.tick)
    ensures Execute(v, d, u, st) == Execute(w, d, u, st)
    decreases u, 0, 1
  {
    hide Node, Subgraph;
    var t, s, hi := st.tick, st.(tick := st.tick + 1), Execute(w, d, u, st).st.tick;
    ExecuteTicks(w, d, u, st);
    AgreeAt(w, v, t, hi, t);
    if !w.cancelled(t) && ControlPoint(w, d, t, s).out.Ok? {
      if u.body.Leaf? {
        NodeLocal(w, v, d, t, u, s);
      } else {
        SubgraphLocal(w, v, d, t, u, s);
      }
    }
  }

  lemma ExecuteTicks(w: World, d: nat, u: Unit, st: State)
    ensures Execute(w, d, u, st).st.tick > st.tick
  {
    hide Node, Subgraph;
    var t, s := st.tick, st.(tick := st.tick + 1);
    if u.body.Leaf? {
      assert Grew(s, Node(w, d, t, u, s).st);
    } else {
      assert Grew(s, Subgraph(w, d, t, u, s).st);
    }
  }

  lemma {:induction false} SubmitLocal(w: World, v: World, st: State, unit: nat, flips: seq<Submission>)
    requires SameRules(w, v)
    ensures Submit(v, st, unit, flips) == Submit(w, st, unit, flips)
    decreases |flips|
  {
    if flips != [] {
      match Transition(w, st, unit, flips[0].condition, flips[0].reason)
      case None =>
      case Some(next) => SubmitLocal(w, v, next, unit, flips[1..]);
    }
  }

  lemma NodeLocal(w: World, v: World, d: nat, t: nat, u: Unit, s: State)
    requires SameRules(w, v) && SameAt(w, v, t)
    ensures Node(v, d, t, u, s) == Node(w, d, t, u, s)
  {
    hide Submit, Raised, FindReceipt;
    SubmitLocal(w, v, s, u.id, w.act(u.id, t).flips);
  }

  lemma {:induction false} SubgraphLocal(w: World, v: World, d: nat, t: nat, u: Unit, s: State)
    requires u.body.Scope? && SameAt(w, v, t) && Agree(w, v, s.tick, Subgraph(w, d, t, u, s).st.tick)
    ensures Subgraph(v, d, t, u, s) == Subgraph(w, d, t, u, s)
    decreases u, 0, 0
  {
    hide Walk, Leave, FindNested, Supersede;
    var prior := FindNested(s.entries, u.id);
    if prior.None? || prior.value.failed {
      var adopted := if prior.Some? then prior.value.entries else [];
      var s1 := if prior.Some? then s.(entries := Supersede(s.entries, u.id)) else s;
      if w.bound(u.id, t) && w.claims(t) {
        WalkLocal(w, v, d, u.body.children, Nil, Child(s1, adopted));
        LeaveLocal(w, v, d, u.id, s1, Walk(w, d, u.body.children, Nil, Child(s1, adopted)));
      }
    }
  }

  lemma LeaveLocal(w: World, v: World, d: nat, unit: nat, s1: State, walked: Result)
    requires SameRules(w, v)
    ensures Leave(v, d, unit, s1, walked) == Leave(w, d, unit, s1, walked)
  {
    hide IsPaused, Undos;
  }

  lemma {:induction false} WalkLocal(w: World, v: World, d: nat, units: seq<Unit>, last: Value, st: State)
    requires Agree(w, v, st.tick, Walk(w, d, units, last, st).st.tick)
    ensures Walk(v, d, units, last, st) == Walk(w, d, units, last, st)
    decreases units, 0, 0
  {
    hide Dispatched, Agree;
    if units != [] {
      var hi := Walk(w, d, units, last, st).st.tick;
      var r := Dispatched(w, d, units[0], st);
      AgreeWithin(w, v, st.tick, hi, st.tick, r.st.tick);
      DispatchedLocal(w, v, d, units[0], st);
      if r.out.Ok? && !(units[0].body.Leaf? && units[0].body.completes) {
        AgreeWithin(w, v, st.tick, hi, r.st.tick, hi);
        WalkLocal(w, v, d, units[1..], r.out.value, r.st);
      }
    }
  }

  // ----- Cutting worlds -----

  /** One world before the tick, another from it on. */
  function Splice(w: World, at: nat, v: World): World {
    World(w.root, w.policies,
          (t: nat) => if t < at then w.cancelled(t) else v.cancelled(t),
          (t: nat) => if t < at then w.cut(t) else v.cut(t),
          (t: nat) => if t < at then w.command(t) else v.command(t),
          (x: nat, t: nat) => if t < at then w.bound(x, t) else v.bound(x, t),
          (x: nat, t: nat) => if t < at then w.act(x, t) else v.act(x, t),
          (t: nat) => if t < at then w.claims(t) else v.claims(t),
          (t: nat) => if t < at then w.undo(t) else v.undo(t))
  }

  lemma SpliceAgrees(w: World, at: nat, v: World, lo: nat, hi: nat)
    requires SameRules(w, v)
    ensures hi <= at ==> Agree(w, Splice(w, at, v), lo, hi)
    ensures at <= lo ==> Agree(v, Splice(w, at, v), lo, hi)
  {
  }
}
