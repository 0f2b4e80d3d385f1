/**
 With what a dispatch can succeed, over all worlds: read off the tree alone, proved to cover every run, and found in the
 analysis of a plan whose drivers do nothing, so that there is a run for it.
 */
module ExecutorSuccess {
  import opened Options
  import opened RunStatus
  import opened Failure
  import opened Recovery
  import opened Executor
  import opened ExecutorStack
  import opened ExecutorPlans
  import opened ExecutorCrash

  /** One execution can succeed with a value of this truthiness. */
  predicate CanExec(root: nat, u: Unit, t: bool)
    decreases u, 0
  {
    u.body.Scope? ==> CanWalk(root, u.body.children, false, t)
  }

  /** The retry loop can: an attempt does, or OnError absorbs. */
  predicate CanLoop(root: nat, u: Unit, t: bool)
    decreases u, 2
  {
    (TriesIn(root, u) >= 1 && CanExec(root, u, t)) || (t && CanRescue(root, u))
  }

  /** OnError can be asked, and say yes: with more than one attempt, OnRetry must have let the loop get there. */
  predicate CanRescue(root: nat, u: Unit)
    decreases u, 1
  {
    u.onError.Some? && CanExec(root, u.onError.value, true) && CanGate(root, u)
  }

  predicate CanGate(root: nat, u: Unit)
    decreases u, 0
  {
    TriesIn(root, u) <= 1 || u.onRetry.None?
    || CanExec(root, u.onRetry.value, true) || CanExec(root, u.onRetry.value, false)
  }

  predicate CanWalk(root: nat, units: seq<Unit>, truthy: bool, t: bool)
    decreases units, 0
  {
    if units == [] then t == truthy
    else if Completes(units[0]) then CanLoop(root, units[0], t)
    else
      || (CanLoop(root, units[0], true) && CanWalk(root, units[1..], true, t))
      || (CanLoop(root, units[0], false) && CanWalk(root, units[1..], false, t))
  }

  // ----- Every success is covered -----

  /** A scope's result on the stack is one the scope can have. */
  predicate Good(root: nat, entries: seq<Entry>, u: Unit)
    decreases u
  {
    u.body.Scope? ==>
      match FindNested(About(entries, u.id), u.id)
      case None => true
      case Some(stack) =>
        if stack.failed then AllGood(root, stack.entries, u.body.children)
        else CanExec(root, u, IsTruthy(stack.result))
  }

  predicate AllGood(root: nat, entries: seq<Entry>, units: seq<Unit>)
    decreases units
  {
    units != [] ==> Good(root, entries, units[0]) && AllGood(root, entries, units[1..])
  }

  lemma {:induction false} EmptyGood(root: nat, units: seq<Unit>)
    ensures AllGood(root, [], units)
    decreases units
  {
    if units != [] {
      EmptyGood(root, units[1..]);
    }
  }

  lemma FreshGood(root: nat, u: Unit)
    ensures Good(root, [], u)
  {
  }

  lemma SameGood(root: nat, a: seq<Entry>, b: seq<Entry>, u: Unit)
    requires About(a, u.id) == About(b, u.id)
    ensures Good(root, a, u) == Good(root, b, u)
  {
    hide CanExec, AllGood;
  }

  lemma {:induction false} UntouchedGood(root: nat, units: seq<Unit>, touched: set<nat>, before: seq<Entry>,
                                         after: seq<Entry>)
    requires FrameAll(touched, before, after) && touched !! AllIds(units) && AllGood(root, before, units)
    ensures AllGood(root, after, units)
    decreases units
  {
    if units != [] {
      assert units[0].id in AllIds(units);
      SameGood(root, before, after, units[0]);
      UntouchedGood(root, units[1..], touched, before, after);
    }
  }

  /** What the run so far says of the stack it dispatches onto. */
  ghost predicate Known(w: World, u: Unit, entries: seq<Entry>) {
    Proper(u) && Tidy(entries, u) && Good(w.root, entries, u)
  }

  lemma {:induction false} DispatchedSucceeds(w: World, d: nat, u: Unit, st: State)
    requires Known(w, u, st.entries)
    ensures var r := Dispatched(w, d, u, st);
            Good(w.root, r.st.entries, u) && (r.out.Ok? ==> CanLoop(w.root, u, IsTruthy(r.out.value)))
    decreases u, 2 + Left(w, u, 0), 0
  {
    AttemptsSucceed(w, d, u, st, 0, Nothing);
  }

  lemma {:induction false} AttemptsSucceed(w: World, d: nat, u: Unit, st: State, attempt: nat, last: Err)
    requires Known(w, u, st.entries) && (attempt > 0 ==> CanGate(w.root, u))
    ensures var r := Attempts(w, d, u, st, attempt, last);
            Good(w.root, r.st.entries, u) && (r.out.Ok? ==> CanLoop(w.root, u, IsTruthy(r.out.value)))
    decreases u, 1 + Left(w, u, attempt), 1
  {
    hide Proper, Tidy, Good, CanExec, CanGate, Execute, Retry, Resolve, IsPaused, IsHard, Ledger;
    if attempt >= Tries(w, u) {
      if attempt == 0 {
        NoAttemptGates(w, u);
      }
      ResolveSucceeds(w, d, u, st, ActionFailed, last);
    } else if !(attempt > 0 && w.cut(st.tick)) {
      var began := Log(st.(tick := st.tick + 1), [Began(d, u.id)]);
      ExecuteSucceeds(w, d, u, began);
      var r := Execute(w, d, u, began);
      ProperParts(u);
      ExecuteLedger(w, d, u, began);
      LedgerTidy(d, u, began, r);
      if r.out.Fail? {
        var asked := r.st.(tick := r.st.tick + 1);
        if !IsPaused(r.out.err) && !w.cancelled(r.st.tick) && !IsHard(r.out.err) {
          RetrySucceeds(w, d, u, asked, attempt, r.out.err);
        }
      }
    }
  }

  lemma NoAttemptGates(w: World, u: Unit)
    requires Tries(w, u) <= 1
    ensures CanGate(w.root, u)
  {
  }

  lemma UngatedGates(w: World, u: Unit)
    requires u.onRetry.None?
    ensures CanGate(w.root, u)
  {
  }

  lemma VerdictGates(root: nat, u: Unit, t: bool)
    requires u.onRetry.Some? && CanExec(root, u.onRetry.value, t)
    ensures CanGate(root, u)
  {
  }

  lemma {:induction false} RetrySucceeds(w: World, d: nat, u: Unit, st: State, attempt: nat, err: Err)
    requires attempt < Tries(w, u) && Known(w, u, st.entries) && (attempt > 0 ==> CanGate(w.root, u))
    ensures var r := Retry(w, d, u, st, attempt, err);
            Good(w.root, r.st.entries, u) && (r.out.Ok? ==> CanLoop(w.root, u, IsTruthy(r.out.value)))
    decreases u, 1 + Left(w, u, attempt), 0
  {
    hide Proper, Tidy, Good, CanExec, CanLoop, CanGate, Handle, Attempts, Resolve;
    ProperParts(u);
    if attempt + 1 < Tries(w, u) && u.onRetry.Some? {
      HandleSucceeds(w, d, u.id, false, u.onRetry.value, st);
      var g := Handle(w, d, u.id, false, u.onRetry.value, st);
      if g.out.Ok? {
        VerdictGates(w.root, u, IsTruthy(g.out.value));
        if IsTruthy(g.out.value) {
          AttemptsSucceed(w, d, u, g.st, attempt + 1, err);
        } else {
          ResolveSucceeds(w, d, u, g.st, RetryVetoed, err);
        }
      }
    } else {
      if u.onRetry.None? {
        UngatedGates(w, u);
      } else if attempt == 0 {
        NoAttemptGates(w, u);
      }
      AttemptsSucceed(w, d, u, st, attempt + 1, err);
    }
  }

  lemma {:induction false} ResolveSucceeds(w: World, d: nat, u: Unit, st: State, base: Reason, cause: Err)
    requires Proper(u) && Good(w.root, st.entries, u) && CanGate(w.root, u)
    ensures var r := Resolve(w, d, u, st, base, cause);
            Good(w.root, r.st.entries, u) && (r.out.Ok? ==> CanLoop(w.root, u, IsTruthy(r.out.value)))
    decreases u, 0, 2
  {
    hide Proper, Good, CanExec, CanGate, Handle, Stands, IsTruthy, HandlerError;
    StandsQuietly(d, st, base, cause);
    ProperParts(u);
    if u.onError.Some? {
      HandleSucceeds(w, d, u.id, true, u.onError.value, st);
      StandsQuietly(d, Handle(w, d, u.id, true, u.onError.value, st).st, base, cause);
    }
  }

  lemma StandsQuietly(d: nat, st: State, base: Reason, cause: Err)
    ensures var r := Stands(d, st, base, cause); r.st.entries == st.entries && r.out.Fail?
  {
  }

  lemma {:induction false} HandleSucceeds(w: World, d: nat, unit: nat, rescue: bool, handler: Unit, st: State)
    requires Proper(handler)
    ensures var r := Handle(w, d, unit, rescue, handler, st);
            r.out.Ok? ==> CanExec(w.root, handler, IsTruthy(r.out.value))
    decreases handler, 1, 0
  {
    hide Proper, Tidy, Good, CanExec, Execute, Unwind;
    FreshStack(handler);
    FreshGood(w.root, handler);
    ExecuteSucceeds(w, d + 1, handler, Log(st.(entries := []), [Asked(d, unit, rescue)]));
  }

  lemma {:induction false} ExecuteSucceeds(w: World, d: nat, u: Unit, st: State)
    requires Known(w, u, st.entries)
    ensures var r := Execute(w, d, u, st);
            Good(w.root, r.st.entries, u) && (r.out.Ok? ==> CanExec(w.root, u, IsTruthy(r.out.value)))
    decreases u, 0, 1
  {
    hide Proper, Tidy, Good, Node, Subgraph, CanWalk;
    var t, s := st.tick, st.(tick := st.tick + 1);
    if w.cancelled(t) {
      AboutPush(s.entries, Bare, u.id);
      assert About(s.entries, u.id) + [] == About(s.entries, u.id);
      SameGood(w.root, s.entries, s.entries + [Bare], u);
    } else if ControlPoint(w, d, t, s).out.Ok? {
      if u.body.Leaf? {
        LeafGood(w.root, Node(w, d, t, u, s).st.entries, u);
      } else {
        SubgraphSucceeds(w, d, t, u, s);
      }
    }
  }

  lemma LeafGood(root: nat, entries: seq<Entry>, u: Unit)
    requires u.body.Leaf?
    ensures Good(root, entries, u)
  {
  }

  lemma GoodScope(root: nat, entries: seq<Entry>, u: Unit)
    requires u.body.Scope?
    ensures var prior := FindNested(entries, u.id);
            Good(root, entries, u) <==>
              (prior.None? || if prior.value.failed then AllGood(root, prior.value.entries, u.body.children)
                              else CanExec(root, u, IsTruthy(prior.value.result)))
  {
    hide CanExec, AllGood;
    FindsAbout(entries, u.id);
  }

  lemma {:induction false} SubgraphSucceeds(w: World, d: nat, t: nat, u: Unit, s: State)
    requires u.body.Scope? && Known(w, u, s.entries)
    ensures var r := Subgraph(w, d, t, u, s);
            Good(w.root, r.st.entries, u) && (r.out.Ok? ==> CanExec(w.root, u, IsTruthy(r.out.value)))
    decreases u, 0, 0
  {
    hide Proper, Tidy, AllTidy, Good, AllGood, FrameworkFailure, Walk, Leave, CanExec, Undos, ExecutorStack.Settled,
         AllSettled, AllProper, AllDistinct;
    var prior := FindNested(s.entries, u.id);
    ProperParts(u);
    GoodScope(w.root, s.entries, u);
    if prior.None? || prior.value.failed {
      var adopted := if prior.Some? then prior.value.entries else [];
      var s1 := if prior.Some? then s.(entries := Supersede(s.entries, u.id)) else s;
      Entering(u, s.entries, prior, adopted, s1.entries);
      EmptyGood(w.root, u.body.children);
      GoneGood(w.root, u, s1.entries, Bare);
      GoneGood(w.root, u, s1.entries, Receipt(u.id, false, Nil, false));
      if !w.bound(u.id, t) {
        FrameworkPushes(w, d, Log(s1, Dropped(d, prior)), u.id);
      } else if w.claims(t) {
        var child := Child(s1, adopted);
        WalkSucceeds(w, d, u.body.children, Nil, child);
        LeaveGood(w, d, u, s1, Walk(w, d, u.body.children, Nil, child));
      }
    }
  }

  lemma GoneGood(root: nat, u: Unit, s1: seq<Entry>, e: Entry)
    requires u.body.Scope? && NoScope(s1, u.id) && !e.Nested? && (e.Receipt? ==> !e.undo)
    ensures Good(root, s1 + [e], u) && Good(root, s1, u)
  {
    hide CanExec, AllGood, Undos;
    Gone(u, s1, e);
    GoodScope(root, s1, u);
    GoodScope(root, s1 + [e], u);
  }

  lemma FrameworkPushes(w: World, d: nat, s: State, unit: nat)
    ensures FrameworkFailure(w, d, s, unit).st.entries == s.entries + [Bare]
    ensures !FrameworkFailure(w, d, s, unit).out.Ok?
  {
  }

  lemma LeaveGood(w: World, d: nat, u: Unit, s1: State, walked: Result)
    requires u.body.Scope? && Good(w.root, s1.entries, u) && AllGood(w.root, walked.st.entries, u.body.children)
    requires walked.out.Ok? ==> CanWalk(w.root, u.body.children, false, IsTruthy(walked.out.value))
    ensures var r := Leave(w, d, u.id, s1, walked);
            Good(w.root, r.st.entries, u) && (r.out.Ok? ==> CanExec(w.root, u, IsTruthy(r.out.value)))
  {
    hide Good, AllGood, CanWalk, Undos, IsPaused;
    var r := Leave(w, d, u.id, s1, walked);
    if !r.out.Panic? {
      var e := r.st.entries[|s1.entries|];
      assert r.st.entries == s1.entries + [e] && r.st.entries[..|s1.entries|] == s1.entries;
      GoodScope(w.root, r.st.entries, u);
    }
  }

  lemma {:induction false} WalkSucceeds(w: World, d: nat, units: seq<Unit>, last: Value, st: State)
    requires AllProper(units) && AllDistinct(units) && AllTidy(st.entries, units) && AllGood(w.root, st.entries, units)
    ensures var r := Walk(w, d, units, last, st);
            && AllGood(w.root, r.st.entries, units)
            && (r.out.Ok? ==> CanWalk(w.root, units, IsTruthy(last), IsTruthy(r.out.value)))
    decreases units, 0, 0
  {
    hide Dispatched, Proper, Tidy, AllTidy, Good, CanLoop, Ledger, LedgerAll, AllSettled, Distinct;
    if units != [] {
      var u, rest := units[0], units[1..];
      FirstTidy(units, st.entries);
      DispatchedSucceeds(w, d, u, st);
      DispatchedLedger(w, d, u, st);
      var r, t := Dispatched(w, d, u, st), Walk(w, d, units, last, st);
      AfterFirst(d, units, st, r);
      LedgerParts(d, u, st, r);
      UntouchedGood(w.root, rest, {u.id}, st.entries, r.st.entries);
      if r.out.Ok? && !Completes(u) {
        WalkSucceeds(w, d, rest, r.out.value, r.st);
        WalkLedger(w, d, rest, r.out.value, r.st);
        GoodFrame(w.root, d, units, r, t);
      }
    }
  }

  lemma GoodFrame(root: nat, d: nat, units: seq<Unit>, r: Result, t: Result)
    requires units != [] && AllDistinct(units) && LedgerAll(d, units[1..], r.st, t)
    requires Good(root, r.st.entries, units[0])
    ensures Good(root, t.st.entries, units[0])
  {
    hide AllTidy, Accounts, Good;
    assert units[0].id in Ids(units[0]);
    SameGood(root, r.st.entries, t.st.entries, units[0]);
  }

  // ----- Every success is possible -----

  /** A plan whose drivers submit nothing, and whose actions all resolve. */
  function Silent(root: nat): Plan {
    Plan(root, map[], (x: nat) => {Conduct([], false), Conduct([], true)}, (x: nat) => false)
  }

  lemma SilentActs(root: nat, unit: nat, m: Mark, fails: bool)
    ensures Acts(Silent(root), unit, m, fails, m)
  {
    var q := Conduct([], fails);
    assert q in Silent(root).may(unit) && Flipped(Silent(root), unit, m, q.flips) == Some(m);
  }

  lemma {:induction false} ExecFound(root: nat, u: Unit, t: bool)
    requires CanExec(root, u, t)
    ensures ExecTo(Silent(root), u, Fresh, START, Done(t), Settled(t), START)
    decreases u, 0
  {
    hide WalkTo;
    var a := Silent(root);
    if u.body.Leaf? {
      SilentActs(root, u.id, START, false);
    } else {
      var ms := WalkFound(root, u.body.children, false, t);
      assert Inner(Fresh, u.body.children) == AllFresh(|u.body.children|);
      WalkEnded(a, u.id, u.body.children, AllFresh(|u.body.children|), START, Done(t), ms, START);
    }
  }

  lemma {:induction false} WalkFound(root: nat, units: seq<Unit>, truthy: bool, t: bool) returns (q: Memo)
    requires CanWalk(root, units, truthy, t)
    ensures WalkTo(Silent(root), units, AllFresh(|units|), START, truthy, Done(t), q, START)
    decreases units, 0
  {
    hide LoopTo, CanLoop;
    var a, ms := Silent(root), AllFresh(|units|);
    if units == [] {
      q := Partial([]);
    } else if Completes(units[0]) {
      var r := LoopFound(root, units[0], t);
      q := Partial([r] + ms[1..]);
      assert ms[0] == Fresh;
      WalkEndsAt(a, units, ms, START, truthy);
      assert WalkTo(a, units, ms, START, truthy, Done(t), q, START);
    } else {
      var b := CanLoop(root, units[0], true) && CanWalk(root, units[1..], true, t);
      var r := LoopFound(root, units[0], b);
      var rest := WalkFound(root, units[1..], b, t);
      assert ms[1..] == AllFresh(|units[1..]|);
      q := Prepend(r, rest);
      WalkPrepends(a, units, ms, START, truthy, b, r, START);
      assert WalkTo(a, units, ms, START, truthy, Done(t), q, START);
    }
  }

  lemma {:induction false} LoopFound(root: nat, u: Unit, t: bool) returns (q: Memo)
    requires CanLoop(root, u, t)
    ensures LoopTo(Silent(root), u, Fresh, START, 0, Done(t), q, START)
    decreases u, 1
  {
    hide ExecTo, NextTo, RescueTo, CanExec;
    var a := Silent(root);
    if TriesIn(root, u) >= 1 && CanExec(root, u, t) {
      q := Settled(t);
      ExecFound(root, u, t);
      assert EndsLoop(Done(t), Done(t), q, q, START);
    } else {
      q := Fresh;
      RescueFound(root, u);
      RescueReached(root, u, 0);
    }
  }

  lemma {:induction false} HandledFound(root: nat, h: Unit, t: bool)
    requires CanExec(root, h, t)
    ensures Handled(Silent(root), h, START, Done(t), START)
    decreases h, 1
  {
    hide ExecTo, CanExec;
    ExecFound(root, h, t);
  }

  lemma {:induction false} RescueFound(root: nat, u: Unit)
    requires CanRescue(root, u)
    ensures RescueTo(Silent(root), u, Fresh, START, Done(true), Fresh, START)
    decreases u, 0
  {
    hide Handled, CanExec;
    HandledFound(root, u.onError.value, true);
  }

  /** Every attempt is stopped at its control point; OnRetry says yes each time, or no once. */
  lemma {:induction false} RescueReached(root: nat, u: Unit, attempt: nat)
    requires CanRescue(root, u) && RescueTo(Silent(root), u, Fresh, START, Done(true), Fresh, START)
    requires attempt == 0 || CanGate(root, u)
    ensures LoopTo(Silent(root), u, Fresh, START, attempt, Done(true), Fresh, START)
    decreases u, 0, Spare(Silent(root), u, attempt)
  {
    hide ExecTo, RescueTo, Handled, CanExec;
    var a := Silent(root);
    if attempt < Budget(a, u) {
      CanIdle(a, u, Fresh, START);
      RescueReached(root, u, attempt + 1);
      if attempt + 1 < Budget(a, u) && u.onRetry.Some? {
        var h := u.onRetry.value;
        var b := CanExec(root, h, true);
        HandledFound(root, h, b);
      }
      assert NextTo(a, u, Fresh, START, attempt, Done(true), Fresh, START);
      assert ExecTo(a, u, Fresh, START, Soft, Fresh, START);
    }
  }
}
