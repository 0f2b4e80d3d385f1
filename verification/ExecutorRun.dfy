/**
 Whole runs (pkg/op/graph_executor.go:299-356, 543-684, 847-868): the preflight, the dispatch of the root, the unwind
 and the terminal status.
 */
module ExecutorRun {
  import opened Options
  import opened RunStatus
  import opened Failure
  import opened Recovery
  import opened Executor
  import ExecutorHalts
  import opened ExecutorStatus
  import ExecutorStack
  import ExecutorRetry
  import ExecutorStops
  import ExecutorReactions
  import ExecutorHandlers
  import ExecutorCrash

  /** What the preflight meets. */
  datatype Preflight = Preflight(
    catalog: bool,      // the graph carries a resource catalog
    builds: bool,       // the runtime environment builds
    binds: bool,        // the variables bind (a fresh run)
    rehydrates: bool,   // the saved ledger rehydrates (a resumed run)
    rearms: bool)       // the saved stack re-arms (a resumed run)

  predicate Passes(p: Preflight, resuming: bool) {
    p.catalog && p.builds && if resuming then p.rehydrates && p.rearms else p.binds
  }

  /** The direct assignment of a failed preflight. */
  function PreflightFails(st: State): Result {
    Result(Fail(Plain), st.(phase := StoppedPhase, condition := ExecutionFailed, reason := PreflightFailed))
  }

  /** GraphExecutor.Run. */
  function Run(w: World, p: Preflight, root: Unit, st: State): Result {
    if st.phase != Preparing && st.phase != PausedPhase then Result(Fail(Plain), st)
    else if !Passes(p, st.phase == PausedPhase) then PreflightFails(st)
    else Finish(w, Dispatched(w, 0, root, Entered(st)))
  }

  /** A run past its preflight: a fresh one starts on an empty stack. */
  function Entered(st: State): State {
    st.(phase := Running, entries := if st.phase == PausedPhase then st.entries else [])
  }

  /** What Run makes of the root's dispatch. */
  function Finish(w: World, r: Result): Result {
    match r.out
    case Panic => r
    case Ok(_) => r.(st := r.st.(phase := Completed))
    case Fail(err) =>
      if IsPaused(err) then r.(st := r.st.(phase := PausedPhase, reason := PausedReason))
      else if IsStopped(err) then StopAndUnwind(w, err, r.st)
      else FailAndUnwind(w, err, r.st)
  }

  function Unwinding(w: World, st: State): Unwound {
    Unwind(w.undo, st.tick, st.entries)
  }

  /** The stack after an unwind; a failed compensation lands stopped with compensation_failed. */
  function AfterUnwind(u: Unwound, st: State): State {
    var s := Log(st.(phase := StoppedPhase, entries := u.entries, tick := u.tick), Compensations(0, u.calls));
    if u.ok then s else s.(condition := CompensationFailed, reason := CompensationReason)
  }

  function StopAndUnwind(w: World, err: Err, st: State): Result {
    var u := Unwinding(w, st);
    var s := AfterUnwind(u, st);
    if u.ok then Result(Fail(err), s.(reason := StoppedReason)) else Result(Fail(Join(err, Plain)), s)
  }

  function FailAndUnwind(w: World, err: Err, st: State): Result {
    var u := Unwinding(w, st);
    var s := AfterUnwind(u, st);
    var reason := FailureReason(err);
    if !u.ok then Result(Fail(Join(err, Plain)), s)
    else if st.condition.Rank() > ConditionForReason(reason).Rank() then Result(Fail(err), s)
    else Result(Fail(err), s.(condition := ConditionForReason(reason), reason := reason))
  }

  /** GraphExecutor.ResumeUnwind: the one sanctioned improvement, and it is journaled. */
  function ResumeUnwind(w: World, p: Preflight, st: State): Result {
    if st.phase != StoppedPhase || st.condition != CompensationFailed
       || !(p.catalog && p.builds && p.rehydrates && p.rearms)
    then Result(Fail(Plain), st)
    else
      var u := Unwinding(w, st);
      var s := AfterUnwind(u, st);
      if !u.ok then Result(Fail(Plain), s)
      else Result(Ok(Nil), s.(condition := ExecutionFailed, reason := UnwoundReason,
                              journal := st.journal + [Flip(StoppedPhase, w.root, ExecutionFailed, UnwoundReason)]))
  }

  /** ResumeExecutor: a new executor restored from a trace; the pending reaction is not part of a trace. */
  function Restored(trace: State): State {
    State(trace.phase, trace.condition, trace.reason, trace.journal, Continue, trace.entries, trace.tick, trace.log)
  }

  // ----- Conditions over a whole run -----

  /** Where a run's condition comes from once the preflight passed. */
  lemma FinishWorsens(w: World, r: Result)
    ensures Finish(w, r).st.condition.Rank() >= r.st.condition.Rank()
  {
    hide Unwind;
  }

  /**
   Run only ever worsens the condition, with one exception: a preflight that fails assigns execution_failed directly,
   which improves exactly a run that was already at compensation_failed.
   */
  lemma RunOnlyWorsens(w: World, p: Preflight, root: Unit, st: State)
    ensures Run(w, p, root, st).st.condition.Rank() < st.condition.Rank() <==>
              && (st.phase == Preparing || st.phase == PausedPhase)
              && !Passes(p, st.phase == PausedPhase)
              && st.condition == CompensationFailed
  {
    hide Dispatched, Finish, Climbs, WorstOf;
    if (st.phase == Preparing || st.phase == PausedPhase) && Passes(p, st.phase == PausedPhase) {
      DispatchOnlyWorsens(w, 0, root, Entered(st));
      FinishWorsens(w, Dispatched(w, 0, root, Entered(st)));
    }
  }

  /**
   ResumeUnwind improves the condition exactly when every compensation left on the stack works, by one journaled step.
   */
  lemma ResumeUnwindExactly(w: World, p: Preflight, st: State)
    ensures var r := ResumeUnwind(w, p, st);
            && (r.st.condition.Rank() < st.condition.Rank() <==> r.out.Ok?)
            && (r.out.Ok? <==> st.phase == StoppedPhase && st.condition == CompensationFailed && p.catalog && p.builds
                               && p.rehydrates && p.rearms && AllOk(Unwinding(w, st).calls))
            && (r.out.Ok? ==>
                  && r.st.entries == [] && r.st.condition == ExecutionFailed
                  && r.st.journal == st.journal + [Flip(StoppedPhase, w.root, ExecutionFailed, UnwoundReason)])
            && (!r.out.Ok? ==> r.st.journal == st.journal && r.st.condition == st.condition)
            && Undos(r.st.entries) <= Undos(st.entries)
  {
    hide Unwind, Undos, AllOk;
    UnwindCallsEverything(w.undo, st.tick, st.entries);
    FailuresAreRetained(w.undo, st.tick, st.entries);
  }

  // ----- The journal and the status -----

  /** The journal tells the condition: its last flip, or healthy. */
  predicate Journaled(st: State) {
    st.condition == if st.journal == [] then Healthy else st.journal[|st.journal|-1].condition
  }

  /** The condition a run's end assigns without a flip, given the dispatch's error and state. */
  function Assigned(w: World, r: Result): Condition {
    if !r.out.Fail? || IsPaused(r.out.err) then r.st.condition
    else if !Unwinding(w, r.st).ok then CompensationFailed
    else if !IsStopped(r.out.err) && ConditionForReason(FailureReason(r.out.err)).Rank() > r.st.condition.Rank()
    then ConditionForReason(FailureReason(r.out.err))
    else r.st.condition
  }

  lemma JournalStays(low: State, high: State)
    requires Journaled(low) && low.journal <= high.journal
    requires Climbs(low.condition, high.journal[|low.journal|..], high.condition)
    ensures Journaled(high)
  {
    var added := high.journal[|low.journal|..];
    if added != [] {
      assert high.journal[|high.journal|-1] == added[|added|-1];
    } else {
      assert high.journal == low.journal;
    }
  }

  /**
   The run's end worsens the condition: a compensation failed that had not before, or everything was compensated and a
   failure that is not a stop implies worse than was recorded.
   */
  predicate EndWorsens(w: World, r: Result) {
    && r.out.Fail? && !IsPaused(r.out.err)
    && if AllOk(Unwinding(w, r.st).calls)
       then !IsStopped(r.out.err) && ConditionForReason(FailureReason(r.out.err)).Rank() > r.st.condition.Rank()
       else r.st.condition != CompensationFailed
  }

  /**
   A run past its preflight ends with its condition in the journal if and only if its end did not worsen it: the flips
   an unwind or an unhandled failure makes are not journaled.
   */
  lemma JournalTellsExactly(w: World, p: Preflight, root: Unit, st: State)
    requires Journaled(st) && (st.phase == Preparing || st.phase == PausedPhase) && Passes(p, st.phase == PausedPhase)
    ensures var x := Dispatched(w, 0, root, Entered(st));
            var t := Run(w, p, root, st).st;
            && t.journal == x.st.journal && t.condition == Assigned(w, x)
            && Journaled(x.st)
            && (Journaled(t) <==> !EndWorsens(w, x))
  {
    hide Dispatched, Climbs, WorstOf, Unwind, AllOk, IsPaused, IsStopped, Finish, Assigned, EndWorsens;
    DispatchOnlyWorsens(w, 0, root, Entered(st));
    var x := Dispatched(w, 0, root, Entered(st));
    JournalStays(Entered(st), x.st);
    FinishAssigns(w, x);
  }

  lemma FinishAssigns(w: World, x: Result)
    requires Journaled(x.st)
    ensures var t := Finish(w, x).st;
            && t.journal == x.st.journal && t.condition == Assigned(w, x)
            && (Journaled(t) <==> !EndWorsens(w, x))
  {
    hide Unwind, AllOk, IsPaused, IsStopped;
    UnwindCallsEverything(w.undo, x.st.tick, x.st.entries);
  }

  /** So an ordinary failure of a healthy run never reaches the journal: it is empty, and the run has failed. */
  lemma OrdinaryFailureIsNotJournaled(w: World, p: Preflight, root: Unit, st: State)
    requires st.phase == Preparing && Passes(p, false) && st.journal == [] && st.condition == Healthy
    requires var x := Dispatched(w, 0, root, Entered(st));
             x.out.Fail? && !IsPaused(x.out.err) && !IsStopped(x.out.err) && x.st.condition == Healthy
    ensures var t := Run(w, p, root, st).st;
            t.journal == [] && t.condition != Healthy && t.phase == StoppedPhase
  {
    hide Dispatched, Climbs, WorstOf, Unwind;
    JournalTellsExactly(w, p, root, st);
    var x := Dispatched(w, 0, root, Entered(st));
    if x.st.journal != [] {
      DispatchOnlyWorsens(w, 0, root, Entered(st));
      assert x.st.journal[0..] == x.st.journal;
      ClimbIsShort(Healthy, x.st.journal, Healthy);
    }
  }

  /** A graph of one node whose action fails. */
  function FailingRoot(): Unit {
    Unit(0, None, None, None, Scope([ExecutorStops.PlainNode(1)]))
  }

  function FailingWorld(): World {
    CalmWorld(0, map[]).(act := (x: nat, t: nat) => Act([], false, Refused(Plain)))
  }

  /** Such a run: it meets what `OrdinaryFailureIsNotJournaled` asks, and ends at `execution_failed` with no flip. */
  lemma FailedRunTellsNothing(p: Preflight)
    requires Passes(p, false)
    ensures var st := State(Preparing, Healthy, NoReason, [], Continue, [], 0, []);
            var x := Dispatched(FailingWorld(), 0, FailingRoot(), Entered(st));
            var t := Run(FailingWorld(), p, FailingRoot(), st).st;
            && x.out.Fail? && !IsPaused(x.out.err) && !IsStopped(x.out.err) && x.st.condition == Healthy
            && t.phase == StoppedPhase && t.condition == ExecutionFailed && t.journal == []
  {
    hide Dispatched, IsPaused, IsStopped, EndWorsens, FailingRoot, FailingWorld, Entered, Unwinding, As, Run;
    var st := State(Preparing, Healthy, NoReason, [], Continue, [], 0, []);
    assert Entered(st) == State(Running, Healthy, NoReason, [], Continue, [], 0, []) by {
      EnteredFresh(st);
    }
    FailingDispatch(Entered(st));
    NothingToUndo(FailingWorld(), Dispatched(FailingWorld(), 0, FailingRoot(), Entered(st)).st);
    OrdinaryFailureIsNotJournaled(FailingWorld(), p, FailingRoot(), st);
    JournalTellsExactly(FailingWorld(), p, FailingRoot(), st);
  }

  function FailedStack(): seq<Entry> {
    [Nested(Stack(0, Nil, true, [Receipt(1, false, Nil, false)]))]
  }

  lemma NothingToUndo(w: World, st: State)
    requires st.entries == FailedStack()
    ensures Unwinding(w, st).ok
  {
    var inner := [Receipt(1, false, Nil, false)];
    assert inner[..0] == [] && FailedStack()[..0] == [];
  }

  lemma EnteredFresh(st: State)
    requires st.phase == Preparing
    ensures Entered(st) == st.(phase := Running, entries := [])
  {
  }

  /** The dispatch of its root. */
  lemma FailingDispatch(st: State)
    requires st == State(Running, Healthy, NoReason, [], Continue, [], 0, [])
    ensures var x := Dispatched(FailingWorld(), 0, FailingRoot(), st);
            && x.out.Fail? && !IsPaused(x.out.err) && !IsStopped(x.out.err) && x.st.condition == Healthy
            && As(x.out.err) == Some(Carried(ActionFailed, false)) && x.st.entries == FailedStack()
  {
    hide Dispatched, FindNested, FindReceipt, Transition, Execute, Subgraph, Stands, IsPaused, IsStopped, IsHard, As;
    var w, u := FailingWorld(), FailingRoot();
    var began := Log(st.(tick := 1), [Began(0, 0)]);
    var s := began.(tick := 2);
    var child := Child(s, []);
    ExecutorStops.NothingNested(0);
    ExecutorStops.NothingNested(1);
    ExecutorStops.NodeFailsOnce(w, 0, 1, child);
    var node := Dispatched(w, 0, ExecutorStops.PlainNode(1), child).st;
    var walked := Walk(w, 0, u.body.children, Nil, child);
    assert walked == Result(Fail(Wrap(Dispatch(ActionFailed, Wrap(Plain), false))), node);
    var left := Leave(w, 0, 0, s, walked);
    assert node.entries == [Receipt(1, false, Nil, false)];
    assert left.st.entries == FailedStack();
    assert Execute(w, 0, u, began) == left by {
      FailingScope(w, u, began, left);
    }
    Ordinary();
    ExecutorStops.FailsOnce(w, 0, u, st);
    ExecutorStops.StandsBare(0, left.st.(tick := left.st.tick + 1), ActionFailed, left.out.err);
  }

  lemma FailingScope(w: World, u: Unit, began: State, left: Result)
    requires w == FailingWorld() && u == FailingRoot() && began.tick == 1 && began.entries == []
    requires var s := began.(tick := 2); left == Leave(w, 0, 0, s, Walk(w, 0, u.body.children, Nil, Child(s, [])))
    ensures Execute(w, 0, u, began) == left
  {
    hide Walk, Leave, FindNested;
    ExecutorStops.NothingNested(0);
    assert Execute(w, 0, u, began) == Subgraph(w, 0, 1, u, began.(tick := 2));
  }

  lemma Ordinary()
    ensures var e := Wrap(Wrap(Dispatch(ActionFailed, Wrap(Plain), false)));
            !IsPaused(e) && !IsStopped(e) && As(e) == Some(Carried(ActionFailed, false)) && !IsHard(e)
  {
    assert !Is(Plain, ErrPaused) && !Is(Plain, ErrStopped);
  }

  // ----- Where a run lands -----

  /** The condition that a failure with this reason stands for. */
  predicate Implies(reason: Reason, c: Condition) {
    if reason == DegradedReason then c == Degraded
    else if reason == CompensationReason then c == CompensationFailed
    else c == ExecutionFailed
  }

  /** The status of a run after its dispatch, by how the dispatch ended and whether its unwind was clean. */
  predicate Lands(x: Result, clean: bool, t: State) {
    match x.out
    case Panic => t.phase == x.st.phase && t.condition == x.st.condition && t.reason == x.st.reason
    case Ok(_) => t.phase == Completed && t.condition == x.st.condition && t.reason == x.st.reason
    case Fail(err) =>
      if IsPaused(err) then t.phase == PausedPhase && t.condition == x.st.condition && t.reason == PausedReason
      else
        && t.phase == StoppedPhase
        && if !clean then t.condition == CompensationFailed && t.reason == CompensationReason
           else if IsStopped(err) then t.condition == x.st.condition && t.reason == StoppedReason
           else if As(err).Some? then LandsFailed(As(err).value.reason, x.st, t)
           else LandsFailed(ActionFailed, x.st, t)
  }

  /** A failure lands at what its reason stands for, or at what was recorded when that is worse. */
  predicate LandsFailed(reason: Reason, st: State, t: State) {
    if (exists c :: Implies(reason, c) && ExecutorReactions.Worsens(c, st.condition))
    then t.condition == st.condition && t.reason == st.reason
    else Implies(reason, t.condition) && t.reason == reason
  }

  lemma ImpliesIs(reason: Reason, c: Condition)
    ensures Implies(reason, c) <==> c == ConditionForReason(reason)
  {
  }

  lemma WorsensIs(from: Condition, to: Condition)
    ensures ExecutorReactions.Worsens(from, to) <==> from.Rank() < to.Rank()
  {
  }

  /**
   Where every run lands: phase, condition and reason.  Only a prepared or a paused executor runs.  A fresh run needs
   the catalog, the environment and the variables, a resumed one the saved ledger and stack instead of the variables; a
   failed preflight is a failed execution that dispatches nothing.
   */
  lemma RunLands(w: World, p: Preflight, root: Unit, st: State)
    ensures var r, t, paused := Run(w, p, root, st), Run(w, p, root, st).st, st.phase == PausedPhase;
            if st.phase != Preparing && !paused then r == Result(Fail(Plain), st)
            else if p.catalog && p.builds && (if paused then p.rehydrates && p.rearms else p.binds) then
              var x := Dispatched(w, 0, root, st.(phase := Running, entries := if paused then st.entries else []));
              var clean := AllOk(Unwinding(w, x.st).calls);
              && Lands(x, clean, t)
              && r.out == if x.out.Fail? && !IsPaused(x.out.err) && !clean then Fail(Join(x.out.err, Plain)) else x.out
            else
              r == Result(Fail(Plain), st.(phase := StoppedPhase, condition := ExecutionFailed,
                                           reason := PreflightFailed))
  {
    hide Dispatched, Unwind, AllOk, IsPaused, IsStopped, As;
    if (st.phase == Preparing || st.phase == PausedPhase) && Passes(p, st.phase == PausedPhase) {
      var x := Dispatched(w, 0, root, Entered(st));
      UnwindCallsEverything(w.undo, x.st.tick, x.st.entries);
      if x.out.Fail? && !IsPaused(x.out.err) && !IsStopped(x.out.err) {
        FailureLands(w, x.out.err, x.st);
      }
    }
  }

  lemma FailureLands(w: World, err: Err, st: State)
    ensures var t := FailAndUnwind(w, err, st).st;
            && t.phase == StoppedPhase
            && if !Unwinding(w, st).ok then t.condition == CompensationFailed && t.reason == CompensationReason
               else LandsFailed(if As(err).Some? then As(err).value.reason else ActionFailed, st, t)
  {
    hide Unwind, As;
    var reason := FailureReason(err);
    ImpliesIs(reason, ConditionForReason(reason));
    WorsensIs(ConditionForReason(reason), st.condition);
    forall c | Implies(reason, c) ensures c == ConditionForReason(reason) {
      ImpliesIs(reason, c);
    }
  }

  /**
   A run that its own policy stopped, with a clean unwind, ends stopped with the reason of the journal's last flip, and
   at that flip's condition unless the reason stands for a worse one; as long as the executor drained no command.
   */
  lemma PolicyStopLands(w: World, p: Preflight, root: Unit, st: State)
    requires (st.phase == Preparing || st.phase == PausedPhase) && Passes(p, st.phase == PausedPhase)
    requires st.pending != Stop
    requires var x := Dispatched(w, 0, root, Entered(st));
             && ExecutorReactions.OwnHard(x.out) && x.st.phase == Running && AllOk(Unwinding(w, x.st).calls)
             && (x.out.err.reason == FrameworkFailed ==> forall t :: w.bound(root.id, t))
    ensures var x := Dispatched(w, 0, root, Entered(st));
            var t := Run(w, p, root, st).st;
            && t.journal == x.st.journal && st.journal < t.journal
            && var last := t.journal[|t.journal|-1];
            && t.phase == StoppedPhase && t.reason == last.reason
            && (t.condition == last.condition <==>
                 forall c :: Implies(last.reason, c) ==> !ExecutorReactions.Worsens(last.condition, c))
  {
    hide Dispatched, Unwind, AllOk, Run, Climbs, WorstOf, ExecutorReactions.DemandedBy, ExecutorReactions.Worsens,
         LandsFailed, Implies, IsPaused, IsStopped, As;
    var x := Dispatched(w, 0, root, Entered(st));
    ExecutorReactions.PolicyStopCarries(w, 0, root, Entered(st));
    RunLands(w, p, root, st);
    RunIs(w, p, root, st);
    PlainIsNeither(x.out.err);
    DispatchOnlyWorsens(w, 0, root, Entered(st));
    StoryOf(w, root, Entered(st));
    var last := x.st.journal[|x.st.journal|-1];
    LastDecides(Entered(st), x.st);
    LandsAtFlip(last, x.st, Run(w, p, root, st).st);
  }

  /** A failure that carries the reason of the last flip. */
  lemma LandsAtFlip(last: Flip, st: State, t: State)
    requires LandsFailed(last.reason, st, t) && st.condition == last.condition && st.reason == last.reason
    ensures t.reason == last.reason
    ensures t.condition == last.condition <==>
              forall c :: Implies(last.reason, c) ==> !ExecutorReactions.Worsens(last.condition, c)
  {
    hide ConditionForReason;
    ImpliesIs(last.reason, ConditionForReason(last.reason));
    forall c | Implies(last.reason, c) ensures c == ConditionForReason(last.reason) {
      ImpliesIs(last.reason, c);
    }
    WorsensIs(last.condition, ConditionForReason(last.reason));
    WorsensIs(ConditionForReason(last.reason), last.condition);
    SameRank(last.condition, ConditionForReason(last.reason));
  }

  lemma SameRank(a: Condition, b: Condition)
    ensures a.Rank() == b.Rank() <==> a == b
  {
  }

  lemma RunIs(w: World, p: Preflight, root: Unit, st: State)
    requires (st.phase == Preparing || st.phase == PausedPhase) && Passes(p, st.phase == PausedPhase)
    ensures var x := Dispatched(w, 0, root, Entered(st));
            Run(w, p, root, st) == Finish(w, x) && Run(w, p, root, st).st.journal == x.st.journal
  {
    hide Dispatched, Unwind, IsPaused, IsStopped, FailureReason;
  }

  lemma PlainIsNeither(e: Err)
    requires e.Dispatch? && e.cause == Plain
    ensures !IsPaused(e) && !IsStopped(e) && As(e) == Some(Carried(e.reason, e.bypass))
  {
    assert !Is(Plain, ErrPaused) && !Is(Plain, ErrStopped);
  }

  lemma StoryOf(w: World, root: Unit, st: State)
    requires st.phase == Running
    ensures Reasoned(st, Dispatched(w, 0, root, st).st)
  {
    hide Dispatched, Since;
    StorySelf(w, st);
    DispatchedKeeps(w, 0, root, st, st);
  }

  lemma LastDecides(low: State, high: State)
    requires low.journal < high.journal
    requires Climbs(low.condition, high.journal[|low.journal|..], high.condition)
    ensures high.condition == high.journal[|high.journal|-1].condition
  {
    var added := high.journal[|low.journal|..];
    assert added[|added|-1] == high.journal[|high.journal|-1];
  }

  /** A graph of one node that flips to `degraded` and succeeds, under a policy that stops on that. */
  function DegradingRoot(): Unit {
    Unit(0, None, None, None, Scope([ExecutorStops.PlainNode(1)]))
  }

  function DegradingWorld(): World {
    CalmWorld(0, map[0 := TransitionPolicy(Stop, Stop, Stop)]).(
      act := (x: nat, t: nat) => Act([Submission(Degraded, DegradedReason)], false, Returned(Val(0, true))))
  }

  /** The run ends stopped at `degraded`, not at `execution_failed`. */
  lemma DegradedStopLands(p: Preflight)
    requires Passes(p, false)
    ensures var st := State(Preparing, Healthy, NoReason, [], Continue, [], 0, []);
            var r := Run(DegradingWorld(), p, DegradingRoot(), st);
            r.out.Fail? && r.st.phase == StoppedPhase && r.st.condition == Degraded && r.st.reason == DegradedReason
  {
    hide Dispatched, IsPaused, IsStopped, DegradingRoot, DegradingWorld, Entered, Unwinding, As, Run;
    var w, u := DegradingWorld(), DegradingRoot();
    var st := State(Preparing, Healthy, NoReason, [], Continue, [], 0, []);
    EnteredFresh(st);
    DegradingDispatch(Entered(st));
    RunLands(w, p, u, st);
    var x := Dispatched(w, 0, u, Entered(st));
    NothingLeft(w, x.st);
    assert Implies(DegradedReason, Degraded);
  }

  function DegradedStack(): seq<Entry> {
    [Nested(Stack(0, Nil, true, [Receipt(1, true, Val(0, true), false)]))]
  }

  lemma NothingLeft(w: World, st: State)
    requires st.entries == DegradedStack()
    ensures AllOk(Unwinding(w, st).calls)
  {
    var inner := [Receipt(1, true, Val(0, true), false)];
    assert inner[..0] == [] && DegradedStack()[..0] == [];
  }

  lemma DegradingDispatch(st: State)
    requires st == State(Running, Healthy, NoReason, [], Continue, [], 0, [])
    ensures var x := Dispatched(DegradingWorld(), 0, DegradingRoot(), st);
            && x.out.Fail? && !IsPaused(x.out.err) && !IsStopped(x.out.err) && x.st.condition == Healthy
            && As(x.out.err) == Some(Carried(DegradedReason, true)) && x.st.entries == DegradedStack()
  {
    hide Dispatched, FindNested, FindReceipt, Transition, Execute, Subgraph, IsPaused, IsStopped, IsHard, As;
    var w, u := DegradingWorld(), DegradingRoot();
    var began := Log(st.(tick := 1), [Began(0, 0)]);
    var s := began.(tick := 2);
    var child := Child(s, []);
    ExecutorStops.NothingNested(0);
    var node := DegradingNode(w, child);
    var walked := Walk(w, 0, u.body.children, Nil, child);
    assert walked == Result(Fail(Wrap(Dispatch(DegradedReason, Plain, true))), node);
    HardWrapped();
    var left := Leave(w, 0, 0, s, walked);
    assert left.st.entries == DegradedStack();
    assert Execute(w, 0, u, began) == left by {
      DegradingScope(w, u, began, left);
    }
    assert Dispatched(w, 0, u, st) == Result(left.out, left.st.(tick := left.st.tick + 1)) by {
      HardEnds(w, u, st);
    }
  }

  lemma DegradingScope(w: World, u: Unit, began: State, left: Result)
    requires w == DegradingWorld() && u == DegradingRoot() && began.tick == 1 && began.entries == []
    requires var s := began.(tick := 2); left == Leave(w, 0, 0, s, Walk(w, 0, u.body.children, Nil, Child(s, [])))
    ensures Execute(w, 0, u, began) == left
  {
    hide Walk, Leave, FindNested;
    ExecutorStops.NothingNested(0);
    assert Execute(w, 0, u, began) == Subgraph(w, 0, 1, u, began.(tick := 2));
  }

  /** The first attempt ends the dispatch. */
  lemma HardEnds(w: World, u: Unit, st: State)
    requires Tries(w, u) >= 1
    requires var r := Execute(w, 0, u, Log(st.(tick := st.tick + 1), [Began(0, u.id)]));
             r.out.Fail? && IsHard(r.out.err)
    ensures var r := Execute(w, 0, u, Log(st.(tick := st.tick + 1), [Began(0, u.id)]));
            Dispatched(w, 0, u, st) == Result(r.out, r.st.(tick := r.st.tick + 1))
  {
    hide Execute, Retry, Resolve, IsPaused, IsHard;
    assert Dispatched(w, 0, u, st) == Attempts(w, 0, u, st, 0, Nothing);
  }

  lemma HardWrapped()
    ensures var e := Wrap(Wrap(Dispatch(DegradedReason, Plain, true)));
            && !IsPaused(e) && !IsStopped(e) && IsHard(e) && As(e) == Some(Carried(DegradedReason, true))
            && !IsPaused(Wrap(Dispatch(DegradedReason, Plain, true)))
  {
    assert !Is(Plain, ErrPaused) && !Is(Plain, ErrStopped);
  }

  lemma DegradingNode(w: World, st: State) returns (after: State)
    requires w == DegradingWorld() && st.entries == [] && st.condition == Healthy && st.pending == Continue
    ensures Dispatched(w, 0, ExecutorStops.PlainNode(1), st)
            == Result(Fail(Dispatch(DegradedReason, Plain, true)), after)
    ensures after.condition == Degraded && after.entries == [Receipt(1, true, Val(0, true), false)]
  {
    hide FindReceipt, Dispatched, Transition;
    var u := ExecutorStops.PlainNode(1);
    var began := Log(st.(tick := st.tick + 1), [Began(0, 1)]);
    var s := began.(tick := st.tick + 2);
    var flips := [Submission(Degraded, DegradedReason)];
    ExecutorReactions.FlipReacts(w, s, 1, Degraded, DegradedReason, Stop);
    var next := Transition(w, s, 1, Degraded, DegradedReason).value;
    assert flips[1..] == [];
    assert Submit(w, s, 1, flips) == Submitted(true, next);
    ExecutorStops.NothingNested(1);
    var r := Execute(w, 0, u, began);
    assert r == Node(w, 0, began.tick, u, s);
    ExecutorStops.SucceedsOnce(w, 0, u, st);
    after := Dispatched(w, 0, u, st).st;
  }

  // ----- Phases -----

  predicate Terminal(phase: Phase) { phase == StoppedPhase || phase == Completed }

  /**
   A run past its preflight that did not crash ends completed if and only if it succeeded, paused if and only if its
   error is a pause, and stopped otherwise; one that was refused fails, and a terminal executor is never run again.
   */
  lemma RunEnds(w: World, p: Preflight, root: Unit, st: State)
    ensures var r := Run(w, p, root, st);
            && (st.phase == Preparing || st.phase == PausedPhase ==>
                 || r.out.Panic? || Terminal(r.st.phase)
                 || (r.st.phase == PausedPhase && r.out.Fail? && IsPaused(r.out.err)))
            && ((st.phase == Preparing || st.phase == PausedPhase) && !r.out.Panic? ==>
                 && (r.st.phase == Completed <==> r.out.Ok?)
                 && (r.st.phase == PausedPhase <==> r.out.Fail? && IsPaused(r.out.err))
                 && (r.st.phase == StoppedPhase <==> r.out.Fail? && !IsPaused(r.out.err)))
            && (r.out.Ok? ==> r.st.phase == Completed)
            && (Terminal(st.phase) ==> r.st == st && r.out.Fail?)
  {
    hide Dispatched, Unwind, IsStopped, IsPaused;
    NotPaused();
    var x := Dispatched(w, 0, root, Entered(st));
    if x.out.Fail? && !IsPaused(x.out.err) {
      JoinNotPaused(x.out.err);
    }
  }

  lemma NotPaused()
    ensures !IsPaused(Plain)
  {
  }

  lemma JoinNotPaused(e: Err)
    requires !IsPaused(e)
    ensures !IsPaused(Join(e, Plain))
  {
    assert !Is(Plain, ErrPaused);
  }

  /**
   A completed run succeeded under reaction Continue, or its root's OnError absorbed a failure.  So an executor that
   its own policy paused can be run again but never completes; `Restored` starts from Continue instead.
   */
  lemma PendingBlocksRun(w: World, p: Preflight, root: Unit, st: State)
    requires root.id !in ExecutorRetry.Below(root) && st.pending != Continue && root.onError.None?
    ensures !Run(w, p, root, st).out.Ok?
  {
    hide Dispatched, Climbs, Unwind, ExecutorRetry.Spent, WorstOf, ExecutorRetry.Below;
    ExecutorRetry.BudgetIsKept(w, 0, root, Entered(st));
    DispatchOnlyWorsens(w, 0, root, Entered(st));
    var x := Dispatched(w, 0, root, Entered(st));
    PendingStays(w, st.pending, x.st.journal[|st.journal|..]);
  }

  lemma {:induction false} PendingStays(w: World, start: Reaction, flips: seq<Flip>)
    ensures WorstOf(w, start, flips).Rank() >= start.Rank()
    decreases |flips|
  {
    if flips != [] {
      PendingStays(w, start, flips[..|flips|-1]);
    }
  }

  // ----- Compensation over a whole run -----

  /**
   A fresh run that fails without pausing calls each compensator its actions left exactly once, last first, except
   those dropped with a scope's stack; it ends clean, with nothing left on the stack, exactly when every call worked,
   and otherwise at compensation_failed with everything that failed still on the stack.
   */
  lemma FailedRunCompensates(w: World, p: Preflight, root: Unit, st: State)
    requires ExecutorStack.Distinct(root) && st.phase == Preparing && Passes(p, false)
    requires var x := Dispatched(w, 0, root, Entered(st)); x.out.Fail? && !IsPaused(x.out.err)
    ensures var x := Dispatched(w, 0, root, Entered(st));
            var calls := Unwinding(w, x.st).calls;
            var t := ExecutorStack.Count(x.st.log[|st.log|..], 0);
            var r := Run(w, p, root, st);
            && Units(calls) == UndoOrder(x.st.entries)
            && multiset(Units(calls)) + t.forgotten == t.undoable
            && (AllOk(calls) ==> r.st.entries == [])
            && (!AllOk(calls) ==> r.st.condition == CompensationFailed)
            && Failures(calls) <= Undos(r.st.entries)
  {
    hide Dispatched, Unwind, Undos, AllOk, ExecutorStack.Count, ExecutorStack.Distinct, Finish, Failures, Units,
         UndoOrder;
    var x := Dispatched(w, 0, root, Entered(st));
    FinishCompensates(w, x);
    ExecutorStack.UnwindCompensatesEverything(w, root, Entered(st));
  }

  lemma FinishCompensates(w: World, x: Result)
    requires x.out.Fail? && !IsPaused(x.out.err)
    ensures var calls, t := Unwinding(w, x.st).calls, Finish(w, x).st;
            && Units(calls) == UndoOrder(x.st.entries)
            && (AllOk(calls) ==> t.entries == [])
            && (!AllOk(calls) ==> t.condition == CompensationFailed)
            && Failures(calls) <= Undos(t.entries)
  {
    hide Unwind, Undos, AllOk, Failures, IsPaused, IsStopped, FailureReason;
    UnwindCallsEverything(w.undo, x.st.tick, x.st.entries);
    FailuresAreRetained(w.undo, x.st.tick, x.st.entries);
  }

  /**
   The whole history of a run: outside handlers a compensator is called only when the run fails or is stopped, and then
   each one left by an action of the graph, and not dropped with a scope's stack, is called exactly once.  Every handler
   settled its own (`ExecutorHandlers.Cared`).
   */
  lemma RunCompensates(w: World, p: Preflight, root: Unit, st: State)
    requires ExecutorCrash.Proper(root) && st.phase == Preparing && Passes(p, false)
    ensures var r := Run(w, p, root, st);
            && st.log <= r.st.log
            && var es := r.st.log[|st.log|..];
            && ExecutorHandlers.Cared(es)
            && if Dispatched(w, 0, root, Entered(st)).out.Fail? && r.st.phase != PausedPhase then
                 ExecutorHandlers.Undone(es, 0) + ExecutorStack.Count(es, 0).forgotten
                   == ExecutorStack.Count(es, 0).undoable
               else ExecutorHandlers.Undone(es, 0) == multiset{}
  {
    hide Dispatched, Unwind, Compensations, ExecutorStack.Count, ExecutorHandlers.Cared, ExecutorHandlers.Undone,
         ExecutorCrash.Proper, Run, Units, ExecutorHandlers.NoUnwind, Compensates;
    var x := Dispatched(w, 0, root, Entered(st));
    var did := x.st.log[|st.log|..];
    ExecutorHandlers.HandlersSettle(w, 0, root, Entered(st));
    ExecutorHandlers.NothingUndone(did, 0);
    ExecutorCrash.ProperParts(root);
    ExecutorStack.UnwindCompensatesEverything(w, root, Entered(st));
    RunEndsSo(w, p, root, st);
    var calls := if Compensates(x.out) then Unwinding(w, x.st).calls else [];
    UnwindUndoes(did, calls);
    NoCalls();
    assert Run(w, p, root, st).st.log[|st.log|..] == did + Compensations(0, calls);
    assert Compensates(x.out) <==> x.out.Fail? && Run(w, p, root, st).st.phase != PausedPhase by {
      CompensatesIs(x.out);
    }
  }

  /** The final unwind adds its calls to the history, and nothing else. */
  lemma UnwindUndoes(did: seq<Event>, calls: seq<Call>)
    requires ExecutorHandlers.Cared(did) && ExecutorHandlers.Undone(did, 0) == multiset{}
    ensures var es := did + Compensations(0, calls);
            && ExecutorHandlers.Cared(es)
            && ExecutorHandlers.Undone(es, 0) == multiset(Units(calls))
            && ExecutorStack.Count(es, 0) == ExecutorStack.Count(did, 0)
  {
    hide ExecutorStack.Count, ExecutorHandlers.Cared, ExecutorHandlers.Undone, Units;
    var after := Compensations(0, calls);
    ExecutorHandlers.CaredIdle(after);
    ExecutorHandlers.CaredConcat(did, after);
    ExecutorHandlers.CallsUndone(0, calls);
    ExecutorHandlers.UndoneConcat(did, after, 0);
    ExecutorHandlers.CountAfter(did, after, 0);
  }

  lemma NoCalls()
    ensures Units([]) == []
  {
  }

  lemma CompensatesIs(out: Outcome)
    ensures Compensates(out) <==> out.Fail? && !IsPaused(out.err)
  {
  }

  predicate Compensates(out: Outcome) {
    out.Fail? && !IsPaused(out.err)
  }

  /** What a run's end adds to the history, and whether it parks. */
  lemma RunEndsSo(w: World, p: Preflight, root: Unit, st: State)
    requires st.phase == Preparing && Passes(p, false)
    ensures var x := Dispatched(w, 0, root, Entered(st));
            var t := Run(w, p, root, st).st;
            && t.log == x.st.log + Compensations(0, if Compensates(x.out) then Unwinding(w, x.st).calls else [])
            && (x.out.Fail? ==> (t.phase == PausedPhase <==> IsPaused(x.out.err)))
  {
    hide Dispatched, Unwind, IsPaused, IsStopped, FailureReason, AllOk;
    var x := Dispatched(w, 0, root, Entered(st));
    assert x.st.log + [] == x.st.log;
  }

  // ----- A stop that does not stop the run -----

  /** A root with one retry and nothing in it. */
  function EmptyRoot(): Unit {
    Unit(0, Some(1), None, None, Scope([]))
  }

  /** An operator stop is drained in phase running, and the run completes. */
  lemma StoppedRunCompletes(p: Preflight)
    requires Passes(p, false)
    ensures var st := State(Preparing, Healthy, NoReason, [], Continue, [], 0, []);
            var r := Run(ExecutorStops.StopWorld(0, 1), p, EmptyRoot(), st);
            r.out.Ok? && r.st.phase == Completed && Halted(0, StopHalt) in r.st.log
  {
    var w, u := ExecutorStops.StopWorld(0, 1), EmptyRoot();
    var st := State(Preparing, Healthy, NoReason, [], Continue, [], 0, []);
    var s := ExecutorStops.Drained(0, u, Entered(st));
    ExecutorStops.DoorDrains(w, 0, u, Entered(st));
    assert Retry(w, 0, u, s, 0, ErrStopped) == Attempts(w, 0, u, s, 1, ErrStopped);
    var began := Log(s.(tick := 4), [Began(0, 0)]);
    var scope := began.(tick := 5);
    assert Walk(w, 0, [], Nil, Child(scope, [])) == Result(Ok(Nil), Child(scope, []));
    assert Execute(w, 0, u, began) == Subgraph(w, 0, 4, u, scope);
    assert Subgraph(w, 0, 4, u, scope).out == Ok(Nil);
    var x := Dispatched(w, 0, u, Entered(st));
    assert x.out == Ok(Nil) && s.log <= x.st.log;
    assert s.log[1] == Halted(0, StopHalt) && x.st.log[1] == s.log[1];
  }
}
