/**
 Where the dispatch machinery does not keep what it is for: an operator stop is not exempt from retry and OnError, a
 re-entered scope can lose its compensators, a child scope in less trouble than its parent brings the run down, and so
 a pause behind it is lost.  For stops and re-entries the exact condition is here; for failed assertions and lost
 pauses it is in `ExecutorWitness`.
 */
module ExecutorStops {
  import opened Options
  import opened RunStatus
  import opened Failure
  import opened Recovery
  import opened Executor
  import opened ExecutorHalts
  import opened ExecutorStack

  /** No attempt, action or handler follows an operator stop, and the dispatch ends with it. */
  ghost predicate StopHonoured(w: World, d: nat, u: Unit, st: State) {
    var es := Events(w, d, u, st);
    forall i :: 0 <= i < |es| && es[i] == Halted(d, StopHalt) ==>
      && (forall j :: i < j < |es| ==> !IsWork(es[j]))
      && Dispatched(w, d, u, st).out.Fail? && StopsRun(Dispatched(w, d, u, st).out.err)
  }

  /** A stop is waiting when the unit is first executed, and the context is not cancelled around it. */
  predicate StopAtTheDoor(w: World, st: State) {
    w.command(st.tick + 1) == Some(StopCommand)
    && !w.cancelled(st.tick + 1) && !w.cancelled(st.tick + 2) && !w.cut(st.tick + 3)
  }

  /** The state right after the stop was drained. */
  function Drained(d: nat, u: Unit, st: State): State {
    st.(tick := st.tick + 3, phase := Stopping, reason := StoppedReason,
        log := st.log + [Began(d, u.id)] + [Halted(d, StopHalt)])
  }

  lemma DoorDrains(w: World, d: nat, u: Unit, st: State)
    requires Tries(w, u) >= 1 && StopAtTheDoor(w, st)
    ensures Dispatched(w, d, u, st) == Retry(w, d, u, Drained(d, u, st), 0, ErrStopped)
  {
    hide Retry;
    var began := Log(st.(tick := st.tick + 1), [Began(d, u.id)]);
    assert Execute(w, d, u, began) == Result(Fail(ErrStopped), Drained(d, u, st).(tick := st.tick + 2));
    assert !IsPaused(ErrStopped) && !IsHard(ErrStopped);
    assert Dispatched(w, d, u, st) == Attempts(w, d, u, st, 0, Nothing);
  }

  /** A stop is drained first, and if the unit can answer it, the very next event is work. */
  lemma DoorGoesOn(w: World, d: nat, u: Unit, st: State)
    requires Tries(w, u) >= 1 && StopAtTheDoor(w, st)
    ensures var es := Events(w, d, u, st);
            && |es| > 2 && es[1] == Halted(d, StopHalt)
            && if Tries(w, u) == 1 && u.onError.None?
               then es == [Began(d, u.id), Halted(d, StopHalt), Stamped(d, ActionFailed)]
                    && Dispatched(w, d, u, st).out == Fail(Dispatch(ActionFailed, ErrStopped, false))
               else IsWork(es[2])
  {
    hide Retry, Execute, Attempts, Resolve;
    DoorDrains(w, d, u, st);
    var s := Drained(d, u, st);
    var es := Events(w, d, u, st);
    RetryGoesOn(w, d, u, s);
    var r := Retry(w, d, u, s, 0, ErrStopped);
    assert s.log <= r.st.log;
    assert s.log[|st.log|..] == [Began(d, u.id), Halted(d, StopHalt)];
    assert forall i :: 0 <= i < |s.log| - |st.log| ==> es[i] == s.log[|st.log| + i];
    if Tries(w, u) == 1 && u.onError.None? {
      assert r.st.log == s.log + [Stamped(d, ActionFailed)];
      assert es == [Began(d, u.id), Halted(d, StopHalt), Stamped(d, ActionFailed)];
    } else {
      assert es[2] == r.st.log[|s.log|];
    }
  }

  /**
   The stop that waits for a unit is honoured if and only if the unit has a single attempt and no OnError: otherwise
   the very next event is another attempt, an OnRetry or an OnError.
   */
  lemma DoorStopHonouredExactly(w: World, d: nat, u: Unit, st: State)
    requires Tries(w, u) >= 1 && StopAtTheDoor(w, st)
    ensures StopHonoured(w, d, u, st) <==> Tries(w, u) == 1 && u.onError.None?
  {
    hide Dispatched;
    DoorGoesOn(w, d, u, st);
    assert IsStopped(ErrStopped) && !IsPaused(ErrStopped);
    assert StopsRun(Dispatch(ActionFailed, ErrStopped, false));
  }

  /** What follows an ordinary failure that cancellation does not cut short. */
  lemma RetryGoesOn(w: World, d: nat, u: Unit, s: State)
    requires Tries(w, u) >= 1 && !w.cut(s.tick)
    ensures var r := Retry(w, d, u, s, 0, ErrStopped);
            && s.log <= r.st.log
            && if Tries(w, u) == 1 && u.onError.None?
               then r == Result(Fail(Dispatch(ActionFailed, ErrStopped, false)), Log(s, [Stamped(d, ActionFailed)]))
               else |r.st.log| > |s.log| && IsWork(r.st.log[|s.log|])
  {
    hide Execute;
    if Tries(w, u) == 1 {
      assert Retry(w, d, u, s, 0, ErrStopped) == Attempts(w, d, u, s, 1, ErrStopped);
      assert Attempts(w, d, u, s, 1, ErrStopped) == Resolve(w, d, u, s, ActionFailed, ErrStopped);
      if u.onError.Some? {
        AskedFirst(w, d, u.id, true, u.onError.value, s);
        var h := Handle(w, d, u.id, true, u.onError.value, s);
        assert h.st.log <= Resolve(w, d, u, s, ActionFailed, ErrStopped).st.log;
      }
    } else if u.onRetry.Some? {
      AskedFirst(w, d, u.id, false, u.onRetry.value, s);
      var g := Handle(w, d, u.id, false, u.onRetry.value, s);
      assert g.st.log <= Retry(w, d, u, s, 0, ErrStopped).st.log;
    } else {
      assert Retry(w, d, u, s, 0, ErrStopped) == Attempts(w, d, u, s, 1, ErrStopped);
      BeginsFirst(w, d, u, s, 1, ErrStopped);
    }
  }

  lemma AskedFirst(w: World, d: nat, unit: nat, rescue: bool, handler: Unit, s: State)
    ensures var log := Handle(w, d, unit, rescue, handler, s).st.log;
            s.log <= log && |log| > |s.log| && log[|s.log|] == Asked(d, unit, rescue)
  {
    hide Execute;
    var asked := Log(s.(entries := []), [Asked(d, unit, rescue)]);
    assert asked.log <= Execute(w, d + 1, handler, asked).st.log;
  }

  lemma BeginsFirst(w: World, d: nat, u: Unit, s: State, attempt: nat, last: Err)
    requires attempt < Tries(w, u) && !w.cut(s.tick)
    ensures var log := Attempts(w, d, u, s, attempt, last).st.log;
            s.log <= log && |log| > |s.log| && log[|s.log|] == Began(d, u.id)
  {
    hide Execute, Retry;
    var began := Log(s.(tick := s.tick + 1), [Began(d, u.id)]);
    var r := Execute(w, d, u, began);
    assert began.log <= r.st.log <= Attempts(w, d, u, s, attempt, last).st.log;
  }

  /** A world that drains a stop at one tick and is otherwise untroubled. */
  function StopWorld(root: nat, tick: nat): World {
    CalmWorld(root, map[]).(command := (t: nat) => if t == tick then Some(StopCommand) else None)
  }

  lemma NoAttemptNoStop(w: World, d: nat, u: Unit, st: State, i: nat)
    requires Tries(w, u) < 1 && i < |Events(w, d, u, st)|
    ensures Events(w, d, u, st)[i] != Halted(d, StopHalt)
  {
    hide Handle, IsTruthy, HandlerError, As;
    var r := Resolve(w, d, u, st, ActionFailed, Nothing);
    assert Dispatched(w, d, u, st) == Attempts(w, d, u, st, 0, Nothing) == r;
    if u.onError.Some? {
      HandleTells(w, d, u.id, true, u.onError.value, st);
      var h := Handle(w, d, u.id, true, u.onError.value, st);
      var es := h.st.log[|st.log|..];
      HaltMeans(es, d);
      assert i < |es| ==> Events(w, d, u, st)[i] == es[i];
    }
  }

  lemma OnceHonours(w: World, d: nat, u: Unit, st: State)
    requires u.body.Leaf? && Tries(w, u) == 1 && u.onError.None?
    ensures StopHonoured(w, d, u, st)
  {
    StopReachesTheRoot(w, d, u, st);
  }

  /**
   Over all worlds: a node's dispatch honours every stop drained at its own depth if and only if it has at most one
   attempt and, when it has one, no OnError.
   */
  lemma NodeStopsExactly(d: nat, u: Unit, root: nat)
    requires u.body.Leaf?
    ensures var tries := if u.retry.Some? then u.retry.value + 1 else 1;
            (forall w: World, st: State :: w.root == root ==> StopHonoured(w, d, u, st))
            <==> tries <= 0 || (tries == 1 && u.onError.None?)
  {
    hide Dispatched;
    var tries := if u.retry.Some? then u.retry.value + 1 else 1;
    if tries >= 1 && !(tries == 1 && u.onError.None?) {
      var w := StopWorld(root, 1);
      var st := State(Running, Healthy, NoReason, [], Continue, [], 0, []);
      DoorStopHonouredExactly(w, d, u, st);
      assert w.root == root && !StopHonoured(w, d, u, st);
    } else {
      forall w: World, st: State | w.root == root ensures StopHonoured(w, d, u, st) {
        if tries == 1 {
          OnceHonours(w, d, u, st);
        } else {
          forall i | 0 <= i < |Events(w, d, u, st)| ensures Events(w, d, u, st)[i] != Halted(d, StopHalt) {
            NoAttemptNoStop(w, d, u, st, i);
          }
        }
      }
    }
  }

  /** A retry can swallow a stop altogether: it was drained, and the dispatch succeeds. */
  lemma StopSwallowed(d: nat, u: Unit, root: nat, st: State) returns (w: World)
    requires u.body.Leaf? && u.retry.Some? && u.retry.value >= 1 && u.onRetry.None?
    requires FindReceipt(st.entries, u.id).None? && st.pending == Continue
    ensures w.root == root
    ensures Halted(d, StopHalt) in Events(w, d, u, st)
    ensures Dispatched(w, d, u, st).out == Ok(Val(0, true))
  {
    hide Execute;
    w := StopWorld(root, st.tick + 1);
    DoorDrains(w, d, u, st);
    var s := Drained(d, u, st);
    assert Retry(w, d, u, s, 0, ErrStopped) == Attempts(w, d, u, s, 1, ErrStopped);
    SecondAttempt(w, d, u, s);
    assert s.log[|st.log| + 1] == Halted(d, StopHalt);
    assert Events(w, d, u, st)[1] == Dispatched(w, d, u, st).st.log[|st.log| + 1];
  }

  lemma SecondAttempt(w: World, d: nat, u: Unit, s: State)
    requires u.body.Leaf? && 1 < Tries(w, u) && 2 <= s.tick && w == StopWorld(w.root, s.tick - 2)
    requires FindReceipt(s.entries, u.id).None? && s.pending == Continue
    ensures Attempts(w, d, u, s, 1, ErrStopped).out == Ok(Val(0, true))
  {
    var began := Log(s.(tick := s.tick + 1), [Began(d, u.id)]);
    assert w.act(u.id, began.tick) == Act([], false, Returned(Val(0, true)));
    assert Submit(w, began, u.id, []) == Submitted(true, began);
    assert Execute(w, d, u, began).out == Ok(Val(0, true));
  }

  // ----- A scope entered again -----

  /** The re-entered scope's walk, on a child executor that adopted the earlier attempt's stack. */
  function Rewalked(w: World, d: nat, u: Unit, s: State, prior: Stack): Result
    requires u.body.Scope?
  {
    Walk(w, d, u.body.children, Nil, Child(s.(entries := Supersede(s.entries, u.id)), prior.entries))
  }

  /**
   A scope is entered again after a failed attempt.  The compensators of that attempt stay on the caller's stack, nested
   under the scope, if and only if its action resolves, its claims hold, and neither the walk nor the scope's boundary
   crashes; then the nested stack holds them and what the walk left, less what the walk itself dropped.  Otherwise
   exactly they are gone from the caller's stack, and no unwind calls them any more.
   */
  lemma ReentryExactly(w: World, d: nat, t: nat, u: Unit, s: State)
    requires u.body.Scope? && Distinct(u) && Tidy(s.entries, u)
    requires FindNested(s.entries, u.id).Some? && FindNested(s.entries, u.id).value.failed
    ensures var prior := FindNested(s.entries, u.id).value;
            var r := Subgraph(w, d, t, u, s);
            var walked := Rewalked(w, d, u, s, prior);
            var now := FindNested(r.st.entries, u.id);
            && (now.Some? <==> w.bound(u.id, t) && w.claims(t) && !r.out.Panic?)
            && (now.None? ==> Undos(s.entries) == Undos(r.st.entries) + Undos(prior.entries))
            && (now.Some? ==>
                 var tally := ExecutorStack.Since(Child(s, []), walked.st, d);
                 && now.value.entries == walked.st.entries
                 && Undos(now.value.entries) + tally.forgotten == Undos(prior.entries) + tally.undoable
                 && Undos(r.st.entries) + Undos(prior.entries) == Undos(s.entries) + Undos(now.value.entries))
  {
    hide Undos, Walk, Leave, Tidy, AllTidy, Distinct, AllDistinct, Accounts, FrameworkFailure, Settled, AllSettled;
    var prior := FindNested(s.entries, u.id);
    var s1 := s.(entries := Supersede(s.entries, u.id));
    Entering(u, s.entries, prior, prior.value.entries, s1.entries);
    Gone(u, s1.entries, Bare);
    Gone(u, s1.entries, Receipt(u.id, false, Nil, false));
    if !w.bound(u.id, t) {
      FrameworkPushes(w, d, Log(s1, Dropped(d, prior)), u.id);
    } else if w.claims(t) {
      var child := Child(s1, prior.value.entries);
      var walked := Rewalked(w, d, u, s, prior.value);
      ScopeParts(u, prior.value.entries);
      WalkLedger(w, d, u.body.children, Nil, child);
      assert Undos(walked.st.entries) + ExecutorStack.Since(child, walked.st, d).forgotten
          == Undos(prior.value.entries) + ExecutorStack.Since(child, walked.st, d).undoable by {
        AccountsBalance(ExecutorStack.Since(child, walked.st, d), child.entries,
                        AllSettled(child.entries, u.body.children),
                        walked.st.entries, AllSettled(walked.st.entries, u.body.children));
      }
      LeaveNestsOrDrops(w, d, u, s1, walked);
    }
  }

  lemma ScopeParts(u: Unit, adopted: seq<Entry>)
    requires u.body.Scope? && Distinct(u)
    ensures AllDistinct(u.body.children)
  {
  }

  lemma FrameworkPushes(w: World, d: nat, s: State, unit: nat)
    ensures FrameworkFailure(w, d, s, unit).st.entries == s.entries + [Bare]
  {
  }

  lemma LeaveNestsOrDrops(w: World, d: nat, u: Unit, s1: State, walked: Result)
    requires NoScope(s1.entries, u.id)
    ensures var r := Leave(w, d, u.id, s1, walked);
            if r.out.Panic? then r.st.entries == s1.entries
            else
              && FindNested(r.st.entries, u.id).Some?
              && FindNested(r.st.entries, u.id).value.entries == walked.st.entries
              && Undos(r.st.entries) == Undos(s1.entries) + Undos(walked.st.entries)
  {
    hide Undos;
    var r := Leave(w, d, u.id, s1, walked);
    if !r.out.Panic? {
      var e := r.st.entries[|s1.entries|];
      assert r.st.entries == s1.entries + [e];
      UndosPush(s1.entries, e);
      NestedUndos(e.stack);
    }
  }

  // ----- Bubbling up -----

  /** A node with one attempt and no handlers. */
  function PlainNode(id: nat): Unit {
    Unit(id, Some(0), None, None, Leaf(false))
  }

  /** A policy that continues past a failed execution, and is valid. */
  const LENIENT := TransitionPolicy(Continue, Continue, Stop)

  /** In turn: a node that flips to `execution_failed`, and a scope whose node flips to `degraded`. */
  function LenientPlan(): Unit {
    Unit(0, None, None, None, Scope([PlainNode(1), Unit(2, Some(0), None, None, Scope([PlainNode(3)]))]))
  }

  function LenientWorld(): World {
    CalmWorld(0, map[0 := LENIENT]).(
      act := (x: nat, t: nat) => Act([if x == 1 then Submission(ExecutionFailed, FailedReason)
                                      else Submission(Degraded, DegradedReason)], false, Returned(Val(0, true))))
  }

  /** Every unit of the plan succeeds and every policy is valid and says continue; the run still crashes. */
  lemma ContinuedRunCrashes()
    ensures LENIENT.Validate()
    ensures Dispatched(LenientWorld(), 0, LenientPlan(),
                       State(Running, Healthy, NoReason, [], Continue, [], 0, [])).out.Panic?
  {
    hide Transition, FindReceipt, FindNested, Resolve, Retry;
    var w, root := LenientWorld(), LenientPlan();
    var units := root.body.children;
    var st0 := State(Running, Healthy, NoReason, [], Continue, [], 0, []);
    var began := Log(st0.(tick := 1), [Began(0, 0)]);
    var s1 := began.(tick := 2);
    var first := NodeFlips(w, 0, 1, Child(s1, []), ExecutionFailed, FailedReason);
    assert units[1..] == [units[1]];
    DegradedScopeCrashes(w, units[1], first);
    assert Walk(w, 0, units[1..], Val(0, true), first).out.Panic?;
    assert Walk(w, 0, units, Nil, Child(s1, [])).out.Panic?;
    NothingNested(0);
    assert Execute(w, 0, root, began) == Subgraph(w, 0, 1, root, s1);
    assert Dispatched(w, 0, root, st0) == Attempts(w, 0, root, st0, 0, Nothing);
  }

  /** The second unit of the plan, dispatched where a failure was continued past. */
  lemma DegradedScopeCrashes(w: World, u: Unit, st: State)
    requires w == LenientWorld() && u == LenientPlan().body.children[1]
    requires st.tick == 4 && st.condition == ExecutionFailed && st.entries == [Receipt(1, true, Val(0, true), false)]
    ensures Dispatched(w, 0, u, st).out.Panic?
  {
    hide FindReceipt;
    var began := Log(st.(tick := 5), [Began(0, 2)]);
    var units := u.body.children;
    var s := began.(tick := 6);
    var last := NodeFlips(w, 0, 3, Child(s, []), Degraded, DegradedReason);
    var walked := Walk(w, 0, units, Nil, Child(s, []));
    assert units[1..] == [];
    assert walked == Result(Ok(Val(0, true)), last);
    assert s.entries[..0] == [];
    assert FindNested(s.entries, 2).None?;
    assert Subgraph(w, 0, 5, u, s).out.Panic?;
    assert Execute(w, 0, u, began) == Subgraph(w, 0, 5, u, s);
    assert Dispatched(w, 0, u, st) == Attempts(w, 0, u, st, 0, Nothing);
  }

  /** A plain node whose driver submits one flip, under reaction Continue, from an empty stack. */
  lemma NodeFlips(w: World, d: nat, id: nat, st: State, condition: Condition, reason: Reason) returns (after: State)
    requires st.condition == Healthy && st.pending == Continue && st.entries == [] && condition.Rank() > 0
    requires Untroubled(w, id, st.tick + 1) && PolicyFor(w, id).ReactionFor(condition) == Continue
    requires w.act(id, st.tick + 1) == Act([Submission(condition, reason)], false, Returned(Val(0, true)))
    ensures Dispatched(w, d, PlainNode(id), st) == Result(Ok(Val(0, true)), after)
    ensures after.condition == condition && after.tick == st.tick + 2 && after.pending == Continue
    ensures st.log <= after.log && after.reason == reason && after.phase == st.phase
    ensures after.entries == [Receipt(id, true, Val(0, true), false)]
  {
    hide PolicyFor, FindReceipt, Submit, Transition, Dispatched;
    assert FindReceipt(st.entries, id).None? by {
      NoReceipt(id);
    }
    var u := PlainNode(id);
    var began := Log(st.(tick := st.tick + 1), [Began(d, id)]);
    var s := began.(tick := st.tick + 2);
    var flips := w.act(id, st.tick + 1).flips;
    var flipped := OneFlip(w, s, id, condition, reason);
    assert Submit(w, s, id, flips) == Submitted(true, flipped);
    var r := Execute(w, d, u, began);
    assert r == Node(w, d, began.tick, u, s);
    after := r.st;
    SucceedsOnce(w, d, u, st);
  }

  lemma OneFlip(w: World, s: State, id: nat, condition: Condition, reason: Reason) returns (after: State)
    requires s.condition == Healthy && s.pending == Continue && condition.Rank() > 0
    requires PolicyFor(w, id).ReactionFor(condition) == Continue
    ensures Submit(w, s, id, [Submission(condition, reason)]) == Submitted(true, after)
    ensures after == s.(condition := condition, reason := reason,
                        journal := s.journal + [Flip(s.phase, id, condition, reason)])
  {
    hide PolicyFor;
    var flips := [Submission(condition, reason)];
    after := Transition(w, s, id, condition, reason).value;
    assert flips[1..] == [];
  }

  const REFUSAL := Wrap(Plain)

  lemma Refusal()
    ensures !IsPaused(REFUSAL) && !IsHard(REFUSAL) && As(REFUSAL).None?
  {
    assert !Is(Plain, ErrPaused);
  }

  /** A plain node whose action fails and flips nothing. */
  lemma NodeFailsOnce(w: World, d: nat, id: nat, st: State)
    requires Untroubled(w, id, st.tick + 1) && !w.cancelled(st.tick + 2) && FindReceipt(st.entries, id).None?
    requires w.act(id, st.tick + 1) == Act([], false, Refused(Plain))
    ensures Dispatched(w, d, PlainNode(id), st) ==
              Result(Fail(Dispatch(ActionFailed, REFUSAL, false)),
                     Log(st.(tick := st.tick + 3, entries := st.entries + [Receipt(id, false, Nil, false)]),
                         [Began(d, id), Acted(d, id, false, false), Stamped(d, ActionFailed)]))
  {
    hide Dispatched, Execute, IsPaused, IsHard, As, FindReceipt, Stands;
    var began := Log(st.(tick := st.tick + 1), [Began(d, id)]);
    var r := ActionFails(w, d, id, began);
    Refusal();
    FailsOnce(w, d, PlainNode(id), st);
    StandsBare(d, r.(tick := r.tick + 1), ActionFailed, REFUSAL);
    LogsThree(st.log, Began(d, id), Acted(d, id, false, false), Stamped(d, ActionFailed));
  }

  lemma LogsThree(log: seq<Event>, e: Event, f: Event, g: Event)
    ensures ((log + [e]) + [f]) + [g] == log + [e, f, g]
  {
  }

  lemma StandsBare(d: nat, st: State, base: Reason, cause: Err)
    ensures As(cause).None? ==>
              Stands(d, st, base, cause) == Result(Fail(Dispatch(base, cause, false)), Log(st, [Stamped(d, base)]))
    ensures As(cause).Some? ==> Stands(d, st, base, cause) == Result(Fail(cause), st)
  {
  }

  /** The only attempt succeeds. */
  lemma SucceedsOnce(w: World, d: nat, u: Unit, st: State)
    requires Tries(w, u) == 1
    requires Execute(w, d, u, Log(st.(tick := st.tick + 1), [Began(d, u.id)])).out.Ok?
    ensures var r := Execute(w, d, u, Log(st.(tick := st.tick + 1), [Began(d, u.id)]));
            Dispatched(w, d, u, st) == ApplyPending(d, r.st, r.out.value)
  {
    hide Execute, ApplyPending, Retry, Resolve;
    assert Dispatched(w, d, u, st) == Attempts(w, d, u, st, 0, Nothing);
  }

  /** The only attempt fails, and nothing answers it. */
  lemma FailsOnce(w: World, d: nat, u: Unit, st: State)
    requires Tries(w, u) == 1 && u.onError.None?
    requires var r := Execute(w, d, u, Log(st.(tick := st.tick + 1), [Began(d, u.id)]));
             r.out.Fail? && !IsPaused(r.out.err) && !IsHard(r.out.err) && !w.cancelled(r.st.tick)
    ensures var r := Execute(w, d, u, Log(st.(tick := st.tick + 1), [Began(d, u.id)]));
            Dispatched(w, d, u, st) == Stands(d, r.st.(tick := r.st.tick + 1), ActionFailed, r.out.err)
  {
    hide Execute, IsPaused, IsHard, As, Stands, ApplyPending, Handle;
    var r := Execute(w, d, u, Log(st.(tick := st.tick + 1), [Began(d, u.id)]));
    var asked := r.st.(tick := r.st.tick + 1);
    assert Retry(w, d, u, asked, 0, r.out.err) == Attempts(w, d, u, asked, 1, r.out.err);
    assert Attempts(w, d, u, asked, 1, r.out.err) == Resolve(w, d, u, asked, ActionFailed, r.out.err);
    assert Dispatched(w, d, u, st) == Attempts(w, d, u, st, 0, Nothing);
  }

  lemma ActionFails(w: World, d: nat, id: nat, st: State) returns (after: State)
    requires Untroubled(w, id, st.tick) && FindReceipt(st.entries, id).None?
    requires w.act(id, st.tick) == Act([], false, Refused(Plain))
    ensures Execute(w, d, PlainNode(id), st) == Result(Fail(REFUSAL), after)
    ensures after == Log(st.(tick := st.tick + 1, entries := st.entries + [Receipt(id, false, Nil, false)]),
                         [Acted(d, id, false, false)])
  {
    hide FindReceipt, Transition;
    var u, s := PlainNode(id), st.(tick := st.tick + 1);
    assert Submit(w, s, id, []) == Submitted(true, s);
    assert Raised(d, Plain) == [];
    var r := Execute(w, d, u, st);
    assert r == Node(w, d, st.tick, u, s);
    after := r.st;
  }

  lemma NoReceipt(id: nat)
    ensures FindReceipt([], id).None?
  {
  }

  predicate Untroubled(w: World, unit: nat, t: nat) {
    !w.cancelled(t) && w.command(t).None? && w.bound(unit, t)
  }

  // ----- A pause behind a failed assertion -----

  /** In turn: a node, and one whose OnError is a scope of two nodes. */
  function RescuedPlan(): Unit {
    Unit(0, None, None, None, Scope([PlainNode(1), RescuedNode()]))
  }

  function RescuedNode(): Unit {
    Unit(2, Some(0), None, Some(RescueScope()), Leaf(false))
  }

  function RescueScope(): Unit {
    Unit(3, None, None, None, Scope([PlainNode(4), PlainNode(5)]))
  }

  /**
   Node 1 flips to `execution_failed`, as flow.failed does, node 2 fails, node 4 flips to `degraded`, as flow.degraded
   does, and node 5 finds a pause waiting.
   */
  function SwallowingWorld(): World {
    CalmWorld(0, map[0 := LENIENT]).(
      command := (t: nat) => if t == 11 then Some(PauseCommand) else None,
      act := (x: nat, t: nat) => if x == 2 then Act([], false, Refused(Plain))
                                 else Act([if x == 1 then Submission(ExecutionFailed, FailedReason)
                                           else Submission(Degraded, DegradedReason)], false, Returned(Val(0, true))))
  }

  /**
   A pause is drained inside the handler, the handler's scope tells its parent less than the parent's condition, and the
   failed assertion turns the pause into an ordinary failure of the handler.  The policies are valid, every unit that
   flips succeeds, and each flips once.
   */
  lemma PauseSwallowed()
    ensures LENIENT.Validate()
    ensures var st := State(Running, Healthy, NoReason, [], Continue, [], 0, []);
            var r := Dispatched(SwallowingWorld(), 0, RescuedPlan(), st);
            && r.out.Fail? && !IsPaused(r.out.err) && As(r.out.err) == Some(Carried(HandlerFailed, false))
            && Halted(1, PauseHalt) in r.st.log
  {
    hide Transition, FindReceipt, FindNested, Walk, Leave;
    var w, root := SwallowingWorld(), RescuedPlan();
    var st := State(Running, Healthy, NoReason, [], Continue, [], 0, []);
    var began := Log(st.(tick := 1), [Began(0, 0)]);
    var s := began.(tick := 2);
    var walked := RescuedWalk(w, Child(s, []));
    NothingNested(0);
    assert Execute(w, 0, root, began) == Subgraph(w, 0, 1, root, s) == Leave(w, 0, 0, s, walked);
    var r := Execute(w, 0, root, began);
    LeftFailed(w, s, walked);
    OneAttempt(w, 0, root, st);
    assert Dispatched(w, 0, root, st).st.log == r.st.log;
  }

  lemma NothingNested(id: nat)
    ensures FindNested([], id).None? && FindReceipt([], id).None?
  {
  }

  /** The scope that a failed handler ends. */
  lemma LeftFailed(w: World, s: State, walked: Result)
    requires walked.out == Fail(Wrap(Dispatch(HandlerFailed, Plain, false)))
    ensures var r := Leave(w, 0, 0, s, walked);
            && r.out.Fail? && !IsPaused(r.out.err) && !IsHard(r.out.err) && r.st.log == walked.st.log
            && As(r.out.err) == Some(Carried(HandlerFailed, false))
            && StandingFailure(ActionFailed, r.out.err) == r.out.err
  {
    assert !Is(Plain, ErrPaused);
  }

  lemma RescuedWalk(w: World, child: State) returns (walked: Result)
    requires w == SwallowingWorld() && child.tick == 2 && child.condition == Healthy
    requires child.pending == Continue && child.entries == []
    ensures walked == Walk(w, 0, RescuedPlan().body.children, Nil, child)
    ensures walked.out == Fail(Wrap(Dispatch(HandlerFailed, Plain, false))) && Halted(1, PauseHalt) in walked.st.log
  {
    hide Transition, FindReceipt, Dispatched;
    var units := RescuedPlan().body.children;
    var first := NodeFlips(w, 0, 1, child, ExecutionFailed, FailedReason);
    var second := RescueFails(w, first);
    assert units[1..] == [RescuedNode()];
    walked := Walk(w, 0, units, Nil, child);
    assert walked == Walk(w, 0, units[1..], Val(0, true), first);
  }

  /** The second node, dispatched where a failure was continued past. */
  lemma RescueFails(w: World, st: State) returns (r: Result)
    requires w == SwallowingWorld() && st.tick == 4 && st.condition == ExecutionFailed
    requires st.entries == [Receipt(1, true, Val(0, true), false)]
    ensures r == Dispatched(w, 0, RescuedNode(), st)
    ensures r.out == Fail(Dispatch(HandlerFailed, Plain, false)) && Halted(1, PauseHalt) in r.st.log
  {
    hide Transition, Handle, Submit, Execute;
    var u := RescuedNode();
    var began := Log(st.(tick := 5), [Began(0, 2)]);
    var failed := NodeFails(w, u, began);
    var asked := failed.(tick := 7);
    var h := RescueIsLost(w, asked);
    assert !IsPaused(Wrap(Plain)) && !IsHard(Wrap(Plain));
    assert Retry(w, 0, u, asked, 0, Wrap(Plain)) == Attempts(w, 0, u, asked, 1, Wrap(Plain));
    assert Attempts(w, 0, u, asked, 1, Wrap(Plain)) == Resolve(w, 0, u, asked, ActionFailed, Wrap(Plain));
    assert Dispatched(w, 0, u, st) == Attempts(w, 0, u, st, 0, Nothing) == Retry(w, 0, u, asked, 0, Wrap(Plain));
    r := Dispatched(w, 0, u, st);
  }

  lemma NodeFails(w: World, u: Unit, st: State) returns (after: State)
    requires w == SwallowingWorld() && u == RescuedNode() && st.tick == 5 && st.condition == ExecutionFailed
    requires st.entries == [Receipt(1, true, Val(0, true), false)]
    ensures Execute(w, 0, u, st) == Result(Fail(Wrap(Plain)), after)
    ensures after.tick == 6 && after.condition == ExecutionFailed
  {
    var s := st.(tick := 6);
    assert s.entries[..0] == [];
    assert FindReceipt(s.entries, 2).None?;
    assert w.act(2, 5).flips == [] && Submit(w, s, 2, []) == Submitted(true, s);
    after := Execute(w, 0, u, st).st;
    assert Execute(w, 0, u, st) == Node(w, 0, 5, u, s);
  }

  lemma NodeParks(w: World, first: State, began: State, parked: State)
    requires w == SwallowingWorld() && first.tick == 10 && began == Log(first.(tick := 11), [Began(1, 5)])
    requires parked == began.(tick := 12, phase := PausedPhase, reason := PausedReason,
                              log := began.log + [Halted(1, PauseHalt)])
    ensures Dispatched(w, 1, PlainNode(5), first) == Result(Fail(ErrPaused), parked.(tick := 13))
  {
    assert Execute(w, 1, PlainNode(5), began) == Result(Fail(ErrPaused), parked);
    assert Dispatched(w, 1, PlainNode(5), first) == Attempts(w, 1, PlainNode(5), first, 0, Nothing);
    assert IsPaused(ErrPaused);
  }

  /** The boundary at which the pause is lost. */
  lemma TellsLess(w: World, s: State, done: State)
    requires s.condition == ExecutionFailed && done.condition == Degraded
    ensures var left := Leave(w, 1, 3, s, Result(Fail(Wrap(ErrPaused)), done));
            left.out.Panic? && done.log <= left.st.log
  {
    assert IsPaused(Wrap(ErrPaused));
  }

  /** The OnError scope, asked at condition `execution_failed`. */
  lemma RescueIsLost(w: World, st: State) returns (h: Result)
    requires w == SwallowingWorld() && st.tick == 7 && st.condition == ExecutionFailed
    ensures h == Handle(w, 0, 2, true, RescueScope(), st)
    ensures h.out == Fail(Plain) && Halted(1, PauseHalt) in h.st.log
  {
    hide FindReceipt, FindNested, Submit, Unwind, Dispatched, Leave;
    var scope, units := RescueScope(), RescueScope().body.children;
    var asked := Log(st.(entries := []), [Asked(0, 2, true)]);
    var s := asked.(tick := 8);
    var child := Child(s, []);
    var first := NodeFlips(w, 1, 4, child, Degraded, DegradedReason);
    var began := Log(first.(tick := 11), [Began(1, 5)]);
    var parked := began.(tick := 12, phase := PausedPhase, reason := PausedReason,
                         log := began.log + [Halted(1, PauseHalt)]);
    var done := parked.(tick := 13);
    NodeParks(w, first, began, parked);
    assert units[1..] == [PlainNode(5)];
    assert Walk(w, 1, units[1..], Val(0, true), first) == Result(Fail(Wrap(ErrPaused)), done);
    assert Walk(w, 1, units, Nil, child) == Result(Fail(Wrap(ErrPaused)), done);
    assert IsPaused(Wrap(ErrPaused));
    var left := Leave(w, 1, 3, s, Result(Fail(Wrap(ErrPaused)), done));
    TellsLess(w, s, done);
    NothingNested(3);
    assert Execute(w, 1, scope, asked) == Subgraph(w, 1, 7, scope, s) == left;
    h := Handle(w, 0, 2, true, scope, st);
    assert done.log[|began.log|] == Halted(1, PauseHalt) && left.st.log[|began.log|] == Halted(1, PauseHalt);
  }
}
