/**
 The executor as the source writes it (pkg/op/graph_executor.go, node.go, subgraph.go): an object whose methods update
 its status, journal and pending reaction, dispatching onto recovery-stack objects.  Every method is proved equal to
 its function in `Executor` or `ExecutorRun`, where the properties are.
 */
module GraphExecutors {
  import opened Options
  import opened RunStatus
  import opened Failure
  import opened Recovery
  import opened Executor
  import opened ExecutorRun

  /** A recovery stack: pushed in place by every dispatch onto it. */
  class RecoveryStack {
    var entries: seq<Entry>

    constructor (initial: seq<Entry>)
      ensures entries == initial
    {
      entries := initial;
    }

    method Push(e: Entry)
      modifies this
      ensures entries == old(entries) + [e]
    {
      entries := entries + [e];
    }

    /** receiptByUnitID: scanned from the top. */
    method ReceiptByUnitID(unit: nat) returns (r: Option<Entry>)
      ensures r == FindReceipt(entries, unit)
    {
      var i := |entries|;
      assert entries[..i] == entries;
      while i > 0
        invariant 0 <= i <= |entries|
        invariant FindReceipt(entries, unit) == FindReceipt(entries[..i], unit)
      {
        i := i - 1;
        assert entries[..i + 1][..i] == entries[..i];
        if entries[i].Receipt? && entries[i].unit == unit {
          return Some(entries[i]);
        }
      }
      return None;
    }

    /** NestedStackByUnitID: scanned from the top. */
    method NestedStackByUnitID(unit: nat) returns (r: Option<Stack>)
      ensures r == FindNested(entries, unit)
    {
      var i := |entries|;
      assert entries[..i] == entries;
      while i > 0
        invariant 0 <= i <= |entries|
        invariant FindNested(entries, unit) == FindNested(entries[..i], unit)
      {
        i := i - 1;
        assert entries[..i + 1][..i] == entries[..i];
        if entries[i].Nested? && entries[i].stack.unit == unit {
          return Some(entries[i].stack);
        }
      }
      return None;
    }

    /** supersede: the top-most entry of the unit is spliced out. */
    method SupersedeUnit(unit: nat)
      modifies this
      ensures entries == Supersede(old(entries), unit)
    {
      var i := |entries|;
      assert entries[..i] == entries;
      while i > 0
        invariant 0 <= i <= |entries|
        invariant entries == old(entries)
        invariant Supersede(entries, unit) == Supersede(entries[..i], unit) + entries[i..]
      {
        i := i - 1;
        assert entries[..i + 1][..i] == entries[..i];
        if Names(entries[i], unit) {
          entries := entries[..i] + entries[i + 1..];
          return;
        }
        assert entries[i..] == [entries[i]] + entries[i + 1..];
      }
    }
  }

  /** What all executors of a run share: the clock of the outside world and the history. */
  class Tape {
    var tick: nat
    var log: seq<Event>

    constructor (start: nat, history: seq<Event>)
      ensures tick == start && log == history
    {
      tick := start;
      log := history;
    }

    method Tell(events: seq<Event>)
      modifies this
      ensures tick == old(tick) && log == old(log) + events
    {
      log := log + events;
    }
  }

  /** An unwind that has come as far as `rest`. */
  function Swept(rest: Unwound, clean: bool, kept: seq<Entry>, calls: seq<Call>): Unwound {
    Unwound(clean && rest.ok, rest.entries + kept, rest.tick, calls + rest.calls)
  }

  lemma SweepNothing(undo: nat -> bool, tick: nat, entries: seq<Entry>)
    ensures Swept(Sweep(undo, tick, entries), true, [], []) == Sweep(undo, tick, entries)
    ensures Compensations(0, []) == []
  {
  }

  lemma SweepTurn(undo: nat -> bool, tick: nat, entries: seq<Entry>, clean: bool, kept: seq<Entry>, calls: seq<Call>)
    requires entries != []
    ensures var n := |entries| - 1;
            var one := Compensate(undo, tick, entries[n]);
            Swept(Sweep(undo, tick, entries), clean, kept, calls) ==
              Swept(Sweep(undo, one.tick, entries[..n]), clean && one.ok, one.entries + kept, calls + one.calls)
  {
    var n := |entries| - 1;
    var one := Compensate(undo, tick, entries[n]);
    var rest := Sweep(undo, one.tick, entries[..n]);
    assert rest.entries + (one.entries + kept) == (rest.entries + one.entries) + kept;
    assert calls + (one.calls + rest.calls) == (calls + one.calls) + rest.calls;
  }

  lemma SweepEnd(undo: nat -> bool, tick: nat, clean: bool, kept: seq<Entry>, calls: seq<Call>)
    ensures Swept(Sweep(undo, tick, []), clean, kept, calls) == Unwound(clean, kept, tick, calls)
  {
    assert [] + kept == kept && calls + [] == calls;
  }

  lemma CompensationsConcat(d: nat, a: seq<Call>, b: seq<Call>)
    ensures Compensations(d, a + b) == Compensations(d, a) + Compensations(d, b)
  {
    hide Compensations;
  }

  /** One turn of the retry loop. */
  lemma AttemptsStep(w: World, d: nat, u: Unit, st: State, attempt: nat, last: Err)
    ensures var began := Log(st.(tick := st.tick + 1), [Began(d, u.id)]);
            var r := Executor.Execute(w, d, u, began);
            Attempts(w, d, u, st, attempt, last) ==
              if attempt >= Tries(w, u) then Resolve(w, d, u, st, ActionFailed, last)
              else if attempt > 0 && w.cut(st.tick) then
                Result(Fail(Cancelled), Log(st.(tick := st.tick + 1), [Cleared(d, u.id)]))
              else if r.out.Ok? then ApplyPending(d, r.st, r.out.value)
              else if r.out.Panic? then r
              else if IsPaused(r.out.err) || w.cancelled(r.st.tick) || IsHard(r.out.err) then
                Result(r.out, r.st.(tick := r.st.tick + 1))
              else Executor.Retry(w, d, u, r.st.(tick := r.st.tick + 1), attempt, r.out.err)
  {
    hide Executor.Execute, Executor.Retry, Resolve, ApplyPending, IsPaused, IsHard;
  }

  /** Without another attempt, or without OnRetry, nothing gates. */
  lemma RetryStep(w: World, d: nat, u: Unit, st: State, attempt: nat, err: Err)
    requires attempt < Tries(w, u)
    ensures attempt + 1 >= Tries(w, u) || u.onRetry.None? ==>
              Executor.Retry(w, d, u, st, attempt, err) == Attempts(w, d, u, st, attempt + 1, err)
  {
    hide Attempts;
  }

  class GraphExecutor {
    const world: World
    const tape: Tape
    var phase: Phase
    var condition: Condition
    var reason: Reason
    var transitions: seq<Flip>
    var pendingReaction: Reaction

    constructor (w: World, t: Tape, initial: Phase)
      ensures world == w && tape == t && phase == initial && condition == Healthy && reason == NoReason
      ensures transitions == [] && pendingReaction == Continue
    {
      world, tape, phase, condition, reason := w, t, initial, Healthy, NoReason;
      transitions, pendingReaction := [], Continue;
    }

    /** The executor, a stack it dispatches onto and the shared tape, as a value. */
    ghost function St(stack: RecoveryStack): State
      reads this, tape, stack
    {
      State(phase, condition, reason, transitions, pendingReaction, stack.entries, tape.tick, tape.log)
    }

    method Tick() returns (t: nat)
      modifies tape
      ensures t == old(tape.tick) && tape.tick == t + 1 && tape.log == old(tape.log)
    {
      t := tape.tick;
      tape.tick := t + 1;
    }

    /** Transition: false is the rejection. */
    method Transition(unit: nat, c: Condition, r: Reason, ghost stack: RecoveryStack) returns (accepted: bool)
      modifies this
      ensures var t := Executor.Transition(world, old(St(stack)), unit, c, r);
              accepted == t.Some? && St(stack) == if accepted then t.value else old(St(stack))
    {
      if c.Rank() < condition.Rank() {
        return false;
      }
      if c == condition {
        return true;
      }
      condition, reason := c, r;
      transitions := transitions + [Flip(phase, unit, c, r)];
      var reaction := PolicyFor(world, unit).ReactionFor(c);
      if reaction.Rank() > pendingReaction.Rank() {
        pendingReaction := reaction;
      }
      return true;
    }

    method ControlPoint(d: nat, t: nat, ghost stack: RecoveryStack) returns (out: Outcome)
      modifies this, tape
      ensures Result(out, St(stack)) == Executor.ControlPoint(world, d, t, old(St(stack)))
      ensures stack.entries == old(stack.entries)
    {
      match world.command(t) {
        case Some(PauseCommand) =>
          phase, reason := PausedPhase, PausedReason;
          tape.Tell([Halted(d, PauseHalt)]);
          return Fail(ErrPaused);
        case Some(StopCommand) =>
          phase, reason := Stopping, StoppedReason;
          tape.Tell([Halted(d, StopHalt)]);
          return Fail(ErrStopped);
        case _ =>
          return Ok(Nil);
      }
    }

    method ApplyPendingReaction(d: nat, value: Value, ghost stack: RecoveryStack) returns (out: Outcome)
      modifies tape
      ensures Result(out, St(stack)) == ApplyPending(d, old(St(stack)), value)
      ensures stack.entries == old(stack.entries)
    {
      match pendingReaction {
        case Stop =>
          tape.Tell([Stamped(d, reason), Halted(d, HardHalt)]);
          return Fail(Dispatch(reason, Plain, true));
        case Pause =>
          tape.Tell([Halted(d, PauseHalt)]);
          return Fail(Join(ErrPaused, Plain));
        case Continue =>
          return Ok(value);
      }
    }

    method FrameworkFailure(d: nat, unit: nat, stack: RecoveryStack) returns (out: Outcome)
      modifies this, tape, stack
      ensures Result(out, St(stack)) == Executor.FrameworkFailure(world, d, old(St(stack)), unit)
    {
      stack.Push(Bare);
      var accepted := Transition(unit, ExecutionFailed, FrameworkFailed, stack);
      if !accepted {
        tape.Tell([Crashed(d)]);
        return Panic;
      }
      tape.Tell([Stamped(d, FrameworkFailed), Halted(d, HardHalt)]);
      return Fail(Dispatch(FrameworkFailed, Plain, true));
    }

    // ----- Dispatch -----

    method DispatchWithPolicy(d: nat, u: Unit, stack: RecoveryStack) returns (out: Outcome)
      modifies this, tape, stack
      ensures Result(out, St(stack)) == Dispatched(world, d, u, old(St(stack)))
      decreases u, 4
    {
      hide Attempts, Executor.Execute, Executor.Retry, Resolve, ApplyPending;
      var maxAttempts := Tries(world, u);
      var lastErr := Nothing;
      var attempt := 0;
      while attempt < maxAttempts
        invariant 0 <= attempt && (attempt <= maxAttempts || attempt == 0)
        invariant Dispatched(world, d, u, old(St(stack))) == Attempts(world, d, u, St(stack), attempt, lastErr)
      {
        AttemptsStep(world, d, u, St(stack), attempt, lastErr);
        if attempt > 0 && world.cut(tape.tick) {
          var _ := Tick();
          tape.Tell([Cleared(d, u.id)]);
          return Fail(Cancelled);
        }
        var _ := Tick();
        tape.Tell([Began(d, u.id)]);
        var result := Execute(d, u, stack);
        match result {
          case Ok(value) =>
            out := ApplyPendingReaction(d, value, stack);
            return;
          case Panic =>
            return Panic;
          case Fail(err) =>
            var now := Tick();
            if IsPaused(err) || world.cancelled(now) {
              return result;
            }
            if IsHard(err) {
              return result;
            }
            lastErr := err;
            RetryStep(world, d, u, St(stack), attempt, err);
            if attempt + 1 < maxAttempts {
              var retry, ended := GateRetry(d, u, stack, attempt, lastErr);
              if !retry {
                return ended;
              }
            }
        }
        attempt := attempt + 1;
      }
      AttemptsStep(world, d, u, St(stack), attempt, lastErr);
      out := ResolveFailure(d, u, stack, ActionFailed, lastErr);
    }

    method GateRetry(d: nat, u: Unit, stack: RecoveryStack, ghost attempt: nat, lastErr: Err)
      returns (retry: bool, out: Outcome)
      requires attempt + 1 < Tries(world, u)
      modifies this, tape, stack
      ensures var r := Executor.Retry(world, d, u, old(St(stack)), attempt, lastErr);
              if retry then r == Attempts(world, d, u, St(stack), attempt + 1, lastErr) else r == Result(out, St(stack))
      decreases u, 3
    {
      if u.onRetry.None? {
        return true, Panic;
      }
      var verdict := DispatchHandler(d, u.id, false, u.onRetry.value, stack);
      match verdict {
        case Ok(value) =>
          if !IsTruthy(value) {
            out := ResolveFailure(d, u, stack, RetryVetoed, lastErr);
            return false, out;
          }
          return true, Panic;
        case Fail(err) =>
          tape.Tell([Stamped(d, HandlerFailed)]);
          return false, Fail(HandlerError(err));
        case Panic =>
          return false, Panic;
      }
    }

    /** What resolveFailure makes of the handler's result. */
    static ghost function Resolved(d: nat, unit: nat, base: Reason, cause: Err, h: Result): Result {
      match h.out
      case Panic => h
      case Fail(e) => Result(Fail(HandlerError(e)), Log(h.st, [Stamped(d, HandlerFailed)]))
      case Ok(verdict) =>
        if IsTruthy(verdict) then Result(h.out, Log(h.st, [Cleared(d, unit)])) else Stands(d, h.st, base, cause)
    }

    method ResolveFailure(d: nat, u: Unit, stack: RecoveryStack, base: Reason, cause: Err) returns (out: Outcome)
      modifies this, tape, stack
      ensures Result(out, St(stack)) == Resolve(world, d, u, old(St(stack)), base, cause)
      decreases u, 2
    {
      hide Handle, Stands, IsTruthy;
      if u.onError.None? {
        out := Standing(d, base, cause, stack);
        return;
      }
      out := DispatchHandler(d, u.id, true, u.onError.value, stack);
      ghost var h := Result(out, St(stack));
      assert Resolve(world, d, u, old(St(stack)), base, cause) == Resolved(d, u.id, base, cause, h);
      match out {
        case Ok(value) =>
          if !IsTruthy(value) {
            out := Standing(d, base, cause, stack);
          } else {
            tape.Tell([Cleared(d, u.id)]);
          }
        case Fail(err) =>
          tape.Tell([Stamped(d, HandlerFailed)]);
          return Fail(HandlerError(err));
        case Panic =>
      }
    }

    method Standing(d: nat, base: Reason, cause: Err, ghost stack: RecoveryStack) returns (out: Outcome)
      modifies tape
      ensures Result(out, St(stack)) == Stands(d, old(St(stack)), base, cause)
      ensures stack.entries == old(stack.entries)
    {
      if As(cause).None? {
        tape.Tell([Stamped(d, base)]);
      }
      return Fail(StandingFailure(base, cause));
    }

    /** dispatchHandler: the handler pushes onto a stack of its own; the caller's stack is not in the frame. */
    method DispatchHandler(d: nat, unit: nat, rescue: bool, handler: Unit, ghost stack: RecoveryStack)
      returns (out: Outcome)
      modifies this, tape
      ensures Result(out, St(stack)) == Handle(world, d, unit, rescue, handler, old(St(stack)))
      ensures stack.entries == old(stack.entries)
      decreases handler, 5
    {
      hide Executor.Execute, Unwind, Handle, Compensations;
      Executor.HandleEnds(world, d, unit, rescue, handler, St(stack));
      var handlerStack := new RecoveryStack([]);
      tape.Tell([Asked(d, unit, rescue)]);
      out := Execute(d + 1, handler, handlerStack);
      if out.Panic? {
        out := Fail(Plain);
      }
      if out.Fail? {
        var _ := UnwindStack(d + 1, handlerStack);
      }
      tape.Tell([Answered(d, unit, rescue, out)]);
    }

    /** Unwind: true when every compensation worked. */
    method UnwindStack(d: nat, stack: RecoveryStack) returns (clean: bool)
      modifies tape, stack
      ensures var u := Unwind(world.undo, old(tape.tick), old(stack.entries));
              && clean == u.ok && stack.entries == u.entries && tape.tick == u.tick
              && tape.log == old(tape.log) + Compensations(d, u.calls)
    {
      hide Sweep, Compensate, Compensations;
      clean := true;
      var kept := [];
      ghost var calls := [];
      var i := |stack.entries|;
      assert stack.entries[..i] == stack.entries;
      SweepNothing(world.undo, tape.tick, stack.entries[..i]);
      while i > 0
        invariant 0 <= i <= |stack.entries| && stack.entries == old(stack.entries)
        invariant tape.log == old(tape.log) + Compensations(d, calls)
        invariant Sweep(world.undo, old(tape.tick), old(stack.entries)) ==
                    Swept(Sweep(world.undo, tape.tick, stack.entries[..i]), clean, kept, calls)
      {
        i := i - 1;
        SweepTurn(world.undo, tape.tick, stack.entries[..i + 1], clean, kept, calls);
        assert stack.entries[..i + 1][..i] == stack.entries[..i];
        var one := Compensate(world.undo, tape.tick, stack.entries[i]);
        tape.tick := one.tick;
        tape.Tell(Compensations(d, one.calls));
        CompensationsConcat(d, calls, one.calls);
        clean := clean && one.ok;
        kept := one.entries + kept;
        calls := calls + one.calls;
      }
      SweepEnd(world.undo, tape.tick, clean, kept, calls);
      stack.entries := if clean then [] else kept;
    }

    method Execute(d: nat, u: Unit, stack: RecoveryStack) returns (out: Outcome)
      modifies this, tape, stack
      ensures Result(out, St(stack)) == Executor.Execute(world, d, u, old(St(stack)))
      decreases u, 1
    {
      var t := Tick();
      if world.cancelled(t) {
        stack.Push(Bare);
        return Fail(Wrap(Cancelled));
      }
      out := ControlPoint(d, t, stack);
      if out.Fail? {
        return;
      }
      if u.body.Leaf? {
        out := ExecuteNode(d, t, u, stack);
      } else {
        out := ExecuteSubgraph(d, t, u, stack);
      }
    }

    method ExecuteNode(d: nat, t: nat, u: Unit, stack: RecoveryStack) returns (out: Outcome)
      modifies this, tape, stack
      ensures Result(out, St(stack)) == Node(world, d, t, u, old(St(stack)))
    {
      var found := stack.ReceiptByUnitID(u.id);
      if found.Some? && found.value.Receipt? && found.value.ok {
        return Ok(found.value.result);
      }
      if !world.bound(u.id, t) {
        out := FrameworkFailure(d, u.id, stack);
        return;
      }
      var act := world.act(u.id, t);
      var accepted := SubmitFlips(u.id, act.flips, stack);
      if !accepted {
        tape.Tell([Crashed(d)]);
        return Panic;
      }
      match act.verdict {
        case Returned(value) =>
          stack.Push(Receipt(u.id, true, value, act.undo));
          tape.Tell([Acted(d, u.id, true, act.undo)]);
          return Ok(value);
        case Refused(err) =>
          stack.Push(Receipt(u.id, false, Nil, act.undo));
          tape.Tell([Acted(d, u.id, false, act.undo)] + Raised(d, err));
          return Fail(Wrap(err));
      }
    }

    /** The flips of a driver, one Transition each. */
    method SubmitFlips(unit: nat, flips: seq<Submission>, ghost stack: RecoveryStack) returns (accepted: bool)
      modifies this
      ensures var r := Submit(world, old(St(stack)), unit, flips);
              accepted == r.ok && St(stack) == r.st
    {
      var i := 0;
      while i < |flips|
        invariant 0 <= i <= |flips|
        invariant Submit(world, old(St(stack)), unit, flips) == Submit(world, St(stack), unit, flips[i..])
      {
        accepted := Transition(unit, flips[i].condition, flips[i].reason, stack);
        if !accepted {
          return;
        }
        assert flips[i..][1..] == flips[i + 1..];
        i := i + 1;
      }
      return true;
    }

    method ExecuteSubgraph(d: nat, t: nat, u: Unit, stack: RecoveryStack) returns (out: Outcome)
      requires u.body.Scope?
      modifies this, tape, stack
      ensures Result(out, St(stack)) == Subgraph(world, d, t, u, old(St(stack)))
      decreases u, 0
    {
      var prior := stack.NestedStackByUnitID(u.id);
      if prior.Some? && !prior.value.failed {
        return Ok(prior.value.result);
      }
      var adopted := [];
      if prior.Some? {
        adopted := prior.value.entries;
        stack.SupersedeUnit(u.id);
      }
      ghost var s1 := St(stack);
      if !world.bound(u.id, t) {
        tape.Tell(Dropped(d, prior));
        out := FrameworkFailure(d, u.id, stack);
        return;
      }
      var childStack := new RecoveryStack(adopted);
      var child := new GraphExecutor(world, tape, Running);
      if !world.claims(t) {
        stack.Push(Receipt(u.id, false, Nil, false));
        tape.Tell(Dropped(d, prior) + [Stamped(d, PreflightFailed)]);
        return Fail(Wrap(Dispatch(PreflightFailed, Plain, false)));
      }
      assert child.St(childStack) == Child(s1, adopted);
      out := child.WalkChildren(d, u.body.children, childStack);
      out := LeaveScope(d, u.id, out, child, childStack, stack, s1);
    }

    /** The exit of a scope: bubble up, stamp the child's stack and nest it. */
    method LeaveScope(d: nat, unit: nat, walked: Outcome, child: GraphExecutor, childStack: RecoveryStack,
                      stack: RecoveryStack, ghost s1: State) returns (out: Outcome)
      requires child != this && childStack != stack && child.tape == tape
      requires St(stack) == s1.(tick := tape.tick, log := tape.log)
      modifies this, tape, stack
      ensures Result(out, St(stack)) == Leave(world, d, unit, s1, Result(walked, old(child.St(childStack))))
    {
      if walked.Panic? {
        tape.Tell([Lost(d, Undos(childStack.entries))]);
        return Panic;
      }
      if child.condition != Healthy && (walked.Ok? || IsPaused(walked.err)) {
        var accepted := Transition(unit, child.condition, child.reason, stack);
        if !accepted {
          tape.Tell([Lost(d, Undos(childStack.entries)), Crashed(d)]);
          return Panic;
        }
      }
      if walked.Ok? {
        stack.Push(Nested(Stack(unit, walked.value, false, childStack.entries)));
        return walked;
      }
      stack.Push(Nested(Stack(unit, Nil, true, childStack.entries)));
      return Fail(Wrap(walked.err));
    }

    method WalkChildren(d: nat, units: seq<Unit>, stack: RecoveryStack) returns (out: Outcome)
      modifies this, tape, stack
      ensures Result(out, St(stack)) == Walk(world, d, units, Nil, old(St(stack)))
      decreases units, 0
    {
      var last := Nil;
      var i := 0;
      while i < |units|
        invariant 0 <= i <= |units|
        invariant Walk(world, d, units, Nil, old(St(stack))) == Walk(world, d, units[i..], last, St(stack))
      {
        var u := units[i];
        out := DispatchWithPolicy(d, u, stack);
        match out {
          case Panic =>
            return;
          case Fail(err) =>
            return Fail(Wrap(err));
          case Ok(value) =>
            if u.body.Leaf? && u.body.completes {
              return;
            }
            last := value;
        }
        assert units[i..][1..] == units[i + 1..];
        i := i + 1;
      }
      return Ok(last);
    }

    // ----- Runs -----

    method Run(p: Preflight, root: Unit, stack: RecoveryStack) returns (out: Outcome)
      modifies this, tape, stack
      ensures Result(out, St(stack)) == ExecutorRun.Run(world, p, root, old(St(stack)))
    {
      var resuming := phase == PausedPhase;
      if phase != Preparing && !resuming {
        return Fail(Plain);
      }
      if !p.catalog || !p.builds || (resuming && (!p.rehydrates || !p.rearms)) || (!resuming && !p.binds) {
        phase, condition, reason := StoppedPhase, ExecutionFailed, PreflightFailed;
        return Fail(Plain);
      }
      if !resuming {
        stack.entries := [];
      }
      phase := Running;
      out := DispatchWithPolicy(0, root, stack);
      match out {
        case Panic =>
        case Ok(_) =>
          phase := Completed;
        case Fail(err) =>
          if IsPaused(err) {
            phase, reason := PausedPhase, PausedReason;
          } else if IsStopped(err) {
            var clean := UnwindStack(0, stack);
            phase := StoppedPhase;
            if !clean {
              condition, reason := CompensationFailed, CompensationReason;
              return Fail(Join(err, Plain));
            }
            reason := StoppedReason;
          } else {
            out := FailAndUnwind(err, stack);
          }
      }
    }

    method FailAndUnwind(err: Err, stack: RecoveryStack) returns (out: Outcome)
      modifies this, tape, stack
      ensures Result(out, St(stack)) == ExecutorRun.FailAndUnwind(world, err, old(St(stack)))
    {
      var clean := UnwindStack(0, stack);
      phase := StoppedPhase;
      if !clean {
        condition, reason := CompensationFailed, CompensationReason;
        return Fail(Join(err, Plain));
      }
      var why := FailureReason(err);
      if condition.Rank() <= ConditionForReason(why).Rank() {
        condition, reason := ConditionForReason(why), why;
      }
      return Fail(err);
    }

    method ResumeUnwind(p: Preflight, stack: RecoveryStack) returns (out: Outcome)
      modifies this, tape, stack
      ensures Result(out, St(stack)) == ExecutorRun.ResumeUnwind(world, p, old(St(stack)))
    {
      if phase != StoppedPhase || condition != CompensationFailed {
        return Fail(Plain);
      }
      if !p.catalog || !p.builds || !p.rehydrates || !p.rearms {
        return Fail(Plain);
      }
      var clean := UnwindStack(0, stack);
      if !clean {
        reason := CompensationReason;
        return Fail(Plain);
      }
      condition, reason := ExecutionFailed, UnwoundReason;
      transitions := transitions + [Flip(StoppedPhase, world.root, ExecutionFailed, UnwoundReason)];
      return Ok(Nil);
    }
  }
}
