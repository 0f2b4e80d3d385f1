/**
 How an executor reacts to trouble, told from the journal and the policies themselves: which policy decides, what the
 pending reaction is, and which reason a policy stop carries.
 */
module ExecutorReactions {
  import opened Options
  import opened RunStatus
  import opened Failure
  import opened Recovery
  import opened Executor
  import opened ExecutorStatus
  import ExecutorHalts
  import ExecutorStops

  // ----- Which policy decides -----

  /** Entering the second condition from the first is a worsening. */
  predicate Worsens(from: Condition, to: Condition) {
    match from
    case Healthy => to != Healthy
    case Degraded => to == ExecutionFailed || to == CompensationFailed
    case ExecutionFailed => to == CompensationFailed
    case CompensationFailed => false
  }

  /**
   The effective policy asks for this reaction: the unit's own, else the root's, else the builtin floor, which continues
   when degraded and stops otherwise.
   */
  predicate Demands(w: World, unit: nat, c: Condition, r: Reaction) {
    if unit in w.policies then
      match c
      case Healthy => r == Continue
      case Degraded => r == w.policies[unit].degraded
      case ExecutionFailed => r == w.policies[unit].executionFailed
      case CompensationFailed => r == w.policies[unit].compensationFailed
    else if w.root in w.policies then
      match c
      case Healthy => r == Continue
      case Degraded => r == w.policies[w.root].degraded
      case ExecutionFailed => r == w.policies[w.root].executionFailed
      case CompensationFailed => r == w.policies[w.root].compensationFailed
    else
      r == if c == Healthy || c == Degraded then Continue else Stop
  }

  /** Stop beats pause, and pause beats continue. */
  predicate Harsher(a: Reaction, b: Reaction, r: Reaction) {
    && (r == Stop <==> a == Stop || b == Stop)
    && (r == Continue <==> a == Continue && b == Continue)
  }

  lemma DemandIs(w: World, unit: nat, c: Condition, r: Reaction)
    ensures Demands(w, unit, c, r) <==> r == PolicyFor(w, unit).ReactionFor(c)
  {
  }

  lemma WorseIs(a: Reaction, b: Reaction)
    ensures Harsher(a, b, Worse(a, b))
  {
  }

  /**
   A flip is rejected exactly when it would improve the condition, changes nothing when it repeats it, and otherwise is
   entered with its reason, journaled with the phase and the unit, and answered by the policy in force.
   */
  lemma FlipReacts(w: World, st: State, unit: nat, c: Condition, reason: Reason, demanded: Reaction)
    requires Demands(w, unit, c, demanded)
    ensures var r := Transition(w, st, unit, c, reason);
            && (r.None? <==> Worsens(c, st.condition))
            && (c == st.condition ==> r == Some(st))
            && (Worsens(st.condition, c) ==>
                 && r.Some? && Harsher(st.pending, demanded, r.value.pending)
                 && r.value == st.(condition := c, reason := reason, pending := r.value.pending,
                                   journal := st.journal + [Flip(st.phase, unit, c, reason)]))
  {
    DemandIs(w, unit, c, demanded);
    WorseIs(st.pending, demanded);
  }

  /** Some of the flips was answered so. */
  ghost predicate DemandedBy(w: World, flips: seq<Flip>, r: Reaction) {
    exists i :: 0 <= i < |flips| && Demands(w, flips[i].unit, flips[i].condition, r)
  }

  lemma {:induction false} WorstIs(w: World, start: Reaction, flips: seq<Flip>)
    ensures WorstOf(w, start, flips) == Stop <==> start == Stop || DemandedBy(w, flips, Stop)
    ensures WorstOf(w, start, flips) == Continue <==>
              start == Continue && !DemandedBy(w, flips, Stop) && !DemandedBy(w, flips, Pause)
    decreases |flips|
  {
    hide Demands, PolicyFor;
    if flips != [] {
      var n := |flips| - 1;
      var f := flips[n];
      WorstIs(w, start, flips[..n]);
      SomeMore(w, flips, Stop);
      SomeMore(w, flips, Pause);
      DemandIs(w, f.unit, f.condition, Stop);
      DemandIs(w, f.unit, f.condition, Pause);
      WorseIs(WorstOf(w, start, flips[..n]), PolicyFor(w, f.unit).ReactionFor(f.condition));
    }
  }

  lemma SomeMore(w: World, flips: seq<Flip>, r: Reaction)
    requires flips != []
    ensures var n := |flips| - 1;
            DemandedBy(w, flips, r) <==>
              DemandedBy(w, flips[..n], r) || Demands(w, flips[n].unit, flips[n].condition, r)
  {
    hide Demands;
    var n := |flips| - 1;
    assert forall i :: 0 <= i < n ==> flips[..n][i] == flips[i];
    if DemandedBy(w, flips[..n], r) {
      var i :| 0 <= i < n && Demands(w, flips[..n][i].unit, flips[..n][i].condition, r);
      assert flips[i] == flips[..n][i];
    }
  }

  /**
   Over any dispatch: the executor is to stop exactly when it already was or some flip it journaled was answered so, and
   is to pause exactly when none was and one was answered by a pause.
   */
  lemma DispatchReacts(w: World, d: nat, u: Unit, st: State)
    ensures var t := Dispatched(w, d, u, st).st;
            && st.journal <= t.journal
            && var flips := t.journal[|st.journal|..];
            && (t.pending == Stop <==> st.pending == Stop || DemandedBy(w, flips, Stop))
            && (t.pending == Pause <==> t.pending != Stop && (st.pending == Pause || DemandedBy(w, flips, Pause)))
  {
    hide Dispatched, WorstOf, Climbs, DemandedBy;
    DispatchOnlyWorsens(w, d, u, st);
    WorstIs(w, st.pending, Dispatched(w, d, u, st).st.journal[|st.journal|..]);
  }

  // ----- What a policy stop carries -----

  /** A hard failure made by this executor itself, not handed up by a unit it dispatched. */
  predicate OwnHard(out: Outcome) {
    out.Fail? && out.err.Dispatch? && out.err.bypass
  }

  /** It is a framework failure's, or a pending stop's, which carries the reason of the status. */
  ghost predicate Explained(w: World, unit: nat, r: Result) {
    OwnHard(r.out) ==>
      && r.out.err.cause == Plain
      && ((r.out.err.reason == FrameworkFailed && exists t :: !w.bound(unit, t))
          || (r.st.pending == Stop && r.out.err.reason == r.st.reason))
  }

  lemma {:induction false} AttemptsExplained(w: World, d: nat, u: Unit, st: State, attempt: nat, last: Err)
    requires !IsHard(last)
    ensures Explained(w, u.id, Attempts(w, d, u, st, attempt, last))
    decreases Left(w, u, attempt), 1
  {
    hide Execute, Retry, IsPaused;
    if attempt >= Tries(w, u) {
      ResolveExplained(w, d, u, st, ActionFailed, last);
    } else if !(attempt > 0 && w.cut(st.tick)) {
      var began := Log(st.(tick := st.tick + 1), [Began(d, u.id)]);
      ExecuteExplained(w, d, u, began);
      var r := Execute(w, d, u, began);
      if r.out.Fail? && !IsPaused(r.out.err) && !w.cancelled(r.st.tick) && !IsHard(r.out.err) {
        RetryExplained(w, d, u, r.st.(tick := r.st.tick + 1), attempt, r.out.err);
      }
    }
  }

  lemma {:induction false} RetryExplained(w: World, d: nat, u: Unit, st: State, attempt: nat, err: Err)
    requires attempt < Tries(w, u) && !IsHard(err)
    ensures Explained(w, u.id, Retry(w, d, u, st, attempt, err))
    decreases Left(w, u, attempt), 0
  {
    hide Handle, Attempts, Resolve, IsHard;
    if attempt + 1 < Tries(w, u) && u.onRetry.Some? {
      var g := Handle(w, d, u.id, false, u.onRetry.value, st);
      if g.out.Ok? {
        if IsTruthy(g.out.value) {
          AttemptsExplained(w, d, u, g.st, attempt + 1, err);
        } else {
          ResolveExplained(w, d, u, g.st, RetryVetoed, err);
        }
      }
    } else {
      AttemptsExplained(w, d, u, st, attempt + 1, err);
    }
  }

  lemma ResolveExplained(w: World, d: nat, u: Unit, st: State, base: Reason, cause: Err)
    requires !IsHard(cause)
    ensures !OwnHard(Resolve(w, d, u, st, base, cause).out)
  {
    hide Handle;
  }

  lemma ExecuteExplained(w: World, d: nat, u: Unit, st: State)
    ensures var r := Execute(w, d, u, st);
            OwnHard(r.out) ==>
              r.out.err == Dispatch(FrameworkFailed, Plain, true) && exists t :: !w.bound(u.id, t)
  {
    hide Walk, Submit, FindReceipt, FindNested, Transition, Undos, Supersede;
  }

  /**
   A policy stop carries the reason of the executor's last accepted flip, as long as the executor drained no command
   itself.  A drained command moves the phase and the reason of the status: if the last flip was made before it, the
   stop carries the command's reason instead.
   */
  lemma PolicyStopCarries(w: World, d: nat, u: Unit, st: State)
    requires st.phase == Running && st.pending != Stop && OwnHard(Dispatched(w, d, u, st).out)
    requires Dispatched(w, d, u, st).out.err.reason == FrameworkFailed ==> forall t :: w.bound(u.id, t)
    ensures var r := Dispatched(w, d, u, st);
            && st.journal < r.st.journal && r.out.err.cause == Plain
            && DemandedBy(w, r.st.journal[|st.journal|..], Stop)
            && var last := r.st.journal[|r.st.journal|-1];
            && (r.st.phase == Running ==> r.out.err.reason == last.reason)
            && (r.st.phase != Running && last.phase == Running ==>
                 r.out.err.reason == StoppedReason || r.out.err.reason == PausedReason)
  {
    hide Dispatched, WorstOf, Climbs, DemandedBy, Since;
    var r := Dispatched(w, d, u, st);
    assert r == Attempts(w, d, u, st, 0, Nothing) by {
      DispatchedIs(w, d, u, st);
    }
    AttemptsExplained(w, d, u, st, 0, Nothing);
    StorySelf(w, st);
    DispatchedKeeps(w, d, u, st, st);
    DispatchReacts(w, d, u, st);
    if r.st.journal == st.journal {
      assert r.st.journal[|st.journal|..] == [];
      NoneOfNone(w);
    }
  }

  lemma DispatchedIs(w: World, d: nat, u: Unit, st: State)
    ensures Dispatched(w, d, u, st) == Attempts(w, d, u, st, 0, Nothing)
  {
    hide Attempts;
  }

  lemma NoneOfNone(w: World)
    ensures !DemandedBy(w, [], Stop)
  {
  }

  // ----- What a scope tells its parent -----

  /** The stack a scope is walked on, and what is left of its parent's. */
  function Adopted(s: State, unit: nat): seq<Entry> {
    match FindNested(s.entries, unit)
    case None => []
    case Some(prior) => prior.entries
  }

  function Remaining(s: State, unit: nat): seq<Entry> {
    if FindNested(s.entries, unit).Some? then Supersede(s.entries, unit) else s.entries
  }

  /** A walked scope succeeds with its walk's value, or wraps its failure, and nests its stack either way. */
  predicate Nests(u: Unit, s: State, walked: Result, r: Result) {
    if walked.out.Ok? then
      && r.out == walked.out
      && r.st.entries == Remaining(s, u.id) + [Nested(Stack(u.id, walked.out.value, false, walked.st.entries))]
    else
      && walked.out.Fail? && r.out == Fail(Wrap(walked.out.err))
      && r.st.entries == Remaining(s, u.id) + [Nested(Stack(u.id, Nil, true, walked.st.entries))]
  }

  /**
   A scope that is walked tells its parent the last flip its child executor journaled, as one flip of the scope's own;
   only when the walk succeeded or was parked, and only if it worsens the parent's condition.
   */
  lemma ScopeTells(w: World, d: nat, t: nat, u: Unit, s: State)
    requires u.body.Scope? && w.bound(u.id, t) && w.claims(t)
    requires var prior := FindNested(s.entries, u.id); prior.None? || prior.value.failed
    ensures var walked := Walk(w, d, u.body.children, Nil, Child(s.(entries := Remaining(s, u.id)), Adopted(s, u.id)));
            var r := Subgraph(w, d, t, u, s);
            var flips := walked.st.journal;
            var told := flips != [] && (walked.out.Ok? || (walked.out.Fail? && IsPaused(walked.out.err)));
            && (r.out.Panic? <==> walked.out.Panic? || (told && Worsens(flips[|flips|-1].condition, s.condition)))
            && (!r.out.Panic? ==> Nests(u, s, walked, r))
            && (!r.out.Panic? ==>
                 if told && Worsens(s.condition, flips[|flips|-1].condition) then
                   && r.st.condition == flips[|flips|-1].condition && r.st.reason == walked.st.reason
                   && r.st.journal == s.journal + [Flip(s.phase, u.id, r.st.condition, r.st.reason)]
                   && (walked.st.phase == Running ==> r.st.reason == flips[|flips|-1].reason)
                 else
                   && r.st.condition == s.condition && r.st.reason == s.reason && r.st.journal == s.journal
                   && r.st.pending == s.pending)
  {
    hide Walk, FindNested, Supersede, Undos, IsPaused, PolicyFor, Climbs, WorstOf;
    var parent := s.(entries := Remaining(s, u.id));
    var child := Child(parent, Adopted(s, u.id));
    var walked := Walk(w, d, u.body.children, Nil, child);
    StorySelf(w, child);
    WalkKeeps(w, d, u.body.children, child, Nil, child);
    assert walked.st.journal[0..] == walked.st.journal;
    ChildCondition(walked.st.journal, walked.st.condition);
    assert Subgraph(w, d, t, u, s) == Leave(w, d, u.id, parent, walked);
  }

  /** A child executor's condition is that of its last flip. */
  lemma ChildCondition(flips: seq<Flip>, high: Condition)
    requires Climbs(Healthy, flips, high)
    ensures if flips == [] then high == Healthy else high == flips[|flips|-1].condition && high != Healthy
  {
  }

  // ----- An action that does not resolve -----

  /**
   An action that does not resolve fails its unit at once: one attempt, no OnRetry and no OnError, a hard failure, an
   audit entry, and a flip to `execution_failed` unless the executor is there already.
   */
  lemma UnresolvedBypasses(w: World, d: nat, u: Unit, st: State)
    requires Tries(w, u) >= 1 && st.condition != CompensationFailed
    requires !w.cancelled(st.tick + 1) && w.command(st.tick + 1).None? && !w.bound(u.id, st.tick + 1)
    requires if u.body.Leaf? then FindReceipt(st.entries, u.id).None? else FindNested(st.entries, u.id).None?
    ensures var r := Dispatched(w, d, u, st);
            && r.out == Fail(Dispatch(FrameworkFailed, Plain, true))
            && r.st.log == st.log + [Began(d, u.id)] + [Stamped(d, FrameworkFailed), Halted(d, HardHalt)]
            && r.st.entries == st.entries + [Bare] && r.st.condition == ExecutionFailed
            && (Worsens(st.condition, ExecutionFailed) ==>
                 && r.st.reason == FrameworkFailed
                 && r.st.journal == st.journal + [Flip(st.phase, u.id, ExecutionFailed, FrameworkFailed)])
            && (st.condition == ExecutionFailed ==> r.st.reason == st.reason && r.st.journal == st.journal)
  {
    hide FindReceipt, FindNested, PolicyFor, Handle, Resolve;
    var began := Log(st.(tick := st.tick + 1), [Began(d, u.id)]);
    var s := began.(tick := st.tick + 2);
    var r := Execute(w, d, u, began);
    assert r == FrameworkFailure(w, d, s, u.id) by {
      Unresolved(w, d, u, began);
    }
    assert IsHard(r.out.err);
    assert Dispatched(w, d, u, st) == Attempts(w, d, u, st, 0, Nothing);
  }

  lemma Unresolved(w: World, d: nat, u: Unit, st: State)
    requires !w.cancelled(st.tick) && w.command(st.tick).None? && !w.bound(u.id, st.tick)
    requires if u.body.Leaf? then FindReceipt(st.entries, u.id).None? else FindNested(st.entries, u.id).None?
    ensures Execute(w, d, u, st) == FrameworkFailure(w, d, st.(tick := st.tick + 1), u.id)
  {
    hide FindReceipt, FindNested, PolicyFor, FrameworkFailure;
    var s := st.(tick := st.tick + 1);
    assert Log(s, []) == s by {
      assert s.log + [] == s.log;
    }
  }

  // ----- What a valid policy is for -----

  /** Every action flips to compensation_failed, as a driver that could not undo its work does, and succeeds. */
  function DirtyWorld(root: nat, policies: map<nat, TransitionPolicy>): World {
    CalmWorld(root, policies).(
      act := (x: nat, t: nat) =>
        Act([Submission(CompensationFailed, CompensationReason)], false, Returned(Val(0, true))))
  }

  /** A policy is valid if and only if no node under it can walk past a failed compensation. */
  lemma ValidExactly(root: nat, policies: map<nat, TransitionPolicy>, x: nat)
    requires x in policies
    ensures var st := State(Running, Healthy, NoReason, [], Continue, [], 0, []);
            policies[x].Validate() <==>
              !Dispatched(DirtyWorld(root, policies), 0, ExecutorStops.PlainNode(x), st).out.Ok?
  {
    hide Transition, ApplyPending;
    var w, u := DirtyWorld(root, policies), ExecutorStops.PlainNode(x);
    var st := State(Running, Healthy, NoReason, [], Continue, [], 0, []);
    var began := Log(st.(tick := 1), [Began(0, x)]);
    var s := began.(tick := 2);
    var flips := [Submission(CompensationFailed, CompensationReason)];
    var demanded := policies[x].compensationFailed;
    FlipReacts(w, s, x, CompensationFailed, CompensationReason, demanded);
    var next := Transition(w, s, x, CompensationFailed, CompensationReason).value;
    assert flips[1..] == [];
    assert Submit(w, s, x, flips) == Submitted(true, next);
    assert Execute(w, 0, u, began) == Node(w, 0, 1, u, s);
    var r := Execute(w, 0, u, began);
    assert r.out == Ok(Val(0, true)) && r.st.pending == next.pending;
    assert Dispatched(w, 0, u, st) == Attempts(w, 0, u, st, 0, Nothing);
    assert Dispatched(w, 0, u, st) == ApplyPending(0, r.st, r.out.value);
    PendingEnds(0, r.st, r.out.value);
  }

  lemma PendingEnds(d: nat, st: State, value: Value)
    ensures ApplyPending(d, st, value).out.Ok? <==> st.pending == Continue
  {
  }

  // ----- A stop that carries the operator's reason -----

  /** A node with two retries, whose OnRetry is a scope of one node. */
  function GatedNode(): Unit {
    Unit(1, Some(2), Some(GateScope()), None, Leaf(false))
  }

  function GateScope(): Unit {
    Unit(2, None, None, None, Scope([ExecutorStops.PlainNode(3)]))
  }

  /**
   The node fails once, the gate's node flips to `degraded` as flow.degraded does, the gate's policy stops on that, and
   an operator stop waits for the second attempt.
   */
  function AnsweredWorld(): World {
    CalmWorld(0, map[2 := TransitionPolicy(Stop, Stop, Stop)]).(
      command := (t: nat) => if t == 7 then Some(StopCommand) else None,
      act := (x: nat, t: nat) =>
        if x == 3 then Act([Submission(Degraded, DegradedReason)], false, Returned(Val(0, true)))
        else if t == 1 then Act([], false, Refused(Plain))
        else Act([], false, Returned(Val(0, true))))
  }

  /**
   The policy stop carries the reason of the operator stop that was answered by another attempt, although the only flip
   was to `degraded`; a boundary that lands it takes it for a failed execution.
   */
  lemma AnsweredStopMisleads()
    ensures var st := State(Running, Healthy, NoReason, [], Continue, [], 0, []);
            var r := Dispatched(AnsweredWorld(), 0, GatedNode(), st);
            && r.out == Fail(Dispatch(StoppedReason, Plain, true))
            && r.st.journal == [Flip(Running, 2, Degraded, DegradedReason)] && r.st.phase == Stopping
            && ConditionForReason(StoppedReason) == ExecutionFailed
  {
    hide Execute, Handle, AnsweredWorld, GatedNode, Transition;
    var w, u := AnsweredWorld(), GatedNode();
    var st := State(Running, Healthy, NoReason, [], Continue, [], 0, []);
    var s1 := FirstAttempt(st);
    var g1 := GateFlips(s1);
    var s2 := SecondAttempt(g1);
    var g2 := GateRepeats(s2);
    LastAttempt(g2);
    AnsweredLoop(st, s1, g1, s2, g2);
  }

  lemma FirstAttempt(st: State) returns (after: State)
    requires st == State(Running, Healthy, NoReason, [], Continue, [], 0, [])
    ensures Execute(AnsweredWorld(), 0, GatedNode(), Log(st.(tick := 1), [Began(0, 1)])) ==
              Result(Fail(ExecutorStops.REFUSAL), after.(tick := 2))
    ensures after.tick == 3 && after.condition == Healthy && after.pending == Continue && after.phase == Running
    ensures after.journal == [] && after.entries == [Receipt(1, false, Nil, false)]
  {
    hide FindReceipt, Transition;
    var w, u, began := AnsweredWorld(), GatedNode(), Log(st.(tick := 1), [Began(0, 1)]);
    var s := began.(tick := 2);
    ExecutorStops.NothingNested(1);
    assert Submit(w, s, 1, []) == Submitted(true, s);
    var r := Execute(w, 0, u, began);
    assert r == Node(w, 0, 1, u, s);
    assert Raised(0, Plain) == [];
    after := r.st.(tick := 3);
  }

  /** The gate, asked for the first time: its scope's flip reaches the executor. */
  lemma GateFlips(st: State) returns (after: State)
    requires st.tick == 3 && st.condition == Healthy && st.pending == Continue && st.phase == Running
    requires st.journal == []
    ensures Handle(AnsweredWorld(), 0, 1, false, GateScope(), st) == Result(Ok(Val(0, true)), after)
    ensures after.tick == 6 && after.condition == Degraded && after.pending == Stop && after.phase == Running
    ensures after.journal == [Flip(Running, 2, Degraded, DegradedReason)] && after.entries == st.entries
  {
    hide Execute, Unwind;
    var w := AnsweredWorld();
    var asked := Log(st.(entries := []), [Asked(0, 1, false)]);
    var walked := GateWalks(asked.(tick := 4));
    GateLeaves(w, asked, walked);
    after := Handle(w, 0, 1, false, GateScope(), st).st;
  }

  lemma GateWalks(s: State) returns (walked: State)
    requires s.tick == 4 || s.tick == 10
    ensures Walk(AnsweredWorld(), 1, GateScope().body.children, Nil, Child(s, [])) == Result(Ok(Val(0, true)), walked)
    ensures walked.condition == Degraded && walked.reason == DegradedReason && walked.tick == s.tick + 2
  {
    hide Dispatched;
    var w, units := AnsweredWorld(), GateScope().body.children;
    walked := ExecutorStops.NodeFlips(w, 1, 3, Child(s, []), Degraded, DegradedReason);
    assert units[1..] == [];
  }

  lemma GateLeaves(w: World, asked: State, walked: State)
    requires w == AnsweredWorld() && asked.entries == [] && (asked.tick == 3 || asked.tick == 9)
    requires Walk(w, 1, GateScope().body.children, Nil, Child(asked.(tick := asked.tick + 1), [])) ==
               Result(Ok(Val(0, true)), walked)
    ensures Execute(w, 1, GateScope(), asked) ==
              Leave(w, 1, 2, asked.(tick := asked.tick + 1), Result(Ok(Val(0, true)), walked))
  {
    hide FindNested, Walk, Leave;
    ExecutorStops.NothingNested(2);
    assert Execute(w, 1, GateScope(), asked) == Subgraph(w, 1, asked.tick, GateScope(), asked.(tick := asked.tick + 1));
  }

  lemma SecondAttempt(st: State) returns (after: State)
    requires st.tick == 6 && st.condition == Degraded && st.pending == Stop && st.phase == Running
    ensures Execute(AnsweredWorld(), 0, GatedNode(), Log(st.(tick := 7), [Began(0, 1)])) ==
              Result(Fail(ErrStopped), after.(tick := 8))
    ensures after.tick == 9 && after.condition == Degraded && after.pending == Stop && after.phase == Stopping
    ensures after.reason == StoppedReason && after.journal == st.journal && after.entries == st.entries
  {
    after := Execute(AnsweredWorld(), 0, GatedNode(), Log(st.(tick := 7), [Began(0, 1)])).st.(tick := 9);
  }

  /** The gate again: the flip repeats the condition, and changes nothing. */
  lemma GateRepeats(st: State) returns (after: State)
    requires st.tick == 9 && st.condition == Degraded && st.pending == Stop && st.phase == Stopping
    requires st.reason == StoppedReason
    ensures Handle(AnsweredWorld(), 0, 1, false, GateScope(), st) == Result(Ok(Val(0, true)), after)
    ensures after.tick == 12 && after.condition == Degraded && after.pending == Stop && after.phase == Stopping
    ensures after.reason == StoppedReason && after.journal == st.journal && after.entries == st.entries
  {
    hide Execute, Unwind;
    var w := AnsweredWorld();
    var asked := Log(st.(entries := []), [Asked(0, 1, false)]);
    var walked := GateWalks(asked.(tick := 10));
    GateLeaves(w, asked, walked);
    after := Handle(w, 0, 1, false, GateScope(), st).st;
  }

  lemma LastAttempt(st: State)
    requires st.tick == 12 && st.pending == Stop && st.reason == StoppedReason && st.phase == Stopping
    requires st.entries == [Receipt(1, false, Nil, false)]
    ensures var r := Execute(AnsweredWorld(), 0, GatedNode(), Log(st.(tick := 13), [Began(0, 1)]));
            && r.out == Ok(Val(0, true)) && r.st.pending == Stop && r.st.reason == StoppedReason
            && r.st.journal == st.journal && r.st.phase == Stopping
  {
    hide Transition;
    var w, u, began := AnsweredWorld(), GatedNode(), Log(st.(tick := 13), [Began(0, 1)]);
    var s := began.(tick := 14);
    assert Submit(w, s, 1, []) == Submitted(true, s);
    assert Execute(w, 0, u, began) == Node(w, 0, 13, u, s);
  }

  lemma AnsweredLoop(st: State, s1: State, g1: State, s2: State, g2: State)
    requires st == State(Running, Healthy, NoReason, [], Continue, [], 0, [])
    requires Execute(AnsweredWorld(), 0, GatedNode(), Log(st.(tick := 1), [Began(0, 1)])) ==
               Result(Fail(ExecutorStops.REFUSAL), s1.(tick := 2)) && s1.tick == 3
    requires Handle(AnsweredWorld(), 0, 1, false, GateScope(), s1) == Result(Ok(Val(0, true)), g1) && g1.tick == 6
    requires Execute(AnsweredWorld(), 0, GatedNode(), Log(g1.(tick := 7), [Began(0, 1)])) ==
               Result(Fail(ErrStopped), s2.(tick := 8)) && s2.tick == 9
    requires Handle(AnsweredWorld(), 0, 1, false, GateScope(), s2) == Result(Ok(Val(0, true)), g2) && g2.tick == 12
    requires Execute(AnsweredWorld(), 0, GatedNode(), Log(g2.(tick := 13), [Began(0, 1)])).out.Ok?
    ensures var r := Execute(AnsweredWorld(), 0, GatedNode(), Log(g2.(tick := 13), [Began(0, 1)]));
            Dispatched(AnsweredWorld(), 0, GatedNode(), st) == ApplyPending(0, r.st, r.out.value)
  {
    hide Execute, Handle, ApplyPending, Resolve, IsPaused, IsHard;
    var w, u := AnsweredWorld(), GatedNode();
    ExecutorStops.Refusal();
    assert !IsPaused(ErrStopped) && !IsHard(ErrStopped) by {
      StopIsOrdinary();
    }
    assert Attempts(w, 0, u, st, 0, Nothing) == Retry(w, 0, u, s1, 0, ExecutorStops.REFUSAL);
    assert Retry(w, 0, u, s1, 0, ExecutorStops.REFUSAL) == Attempts(w, 0, u, g1, 1, ExecutorStops.REFUSAL);
    assert Attempts(w, 0, u, g1, 1, ExecutorStops.REFUSAL) == Retry(w, 0, u, s2, 1, ErrStopped);
    assert Retry(w, 0, u, s2, 1, ErrStopped) == Attempts(w, 0, u, g2, 2, ErrStopped);
  }

  lemma StopIsOrdinary()
    ensures !IsPaused(ErrStopped) && !IsHard(ErrStopped)
  {
  }
}
