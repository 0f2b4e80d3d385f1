/**
 The graph executor's dispatch (pkg/op/graph_executor.go, node.go, subgraph.go) as a big-step semantics.

 Everything outside the executor (what an action does, a drained command, a cancelled context, whether a compensation
 works) is answered by a `World`, indexed by a tick that every question advances; a statement about every world is a
 statement about every run.  `State` is one executor's fields together with the tick and the history `log` that all
 executors of a run share.  `d` is the handler depth: 0 for the graph itself, one more inside each OnRetry or OnError.
 */
module Executor {
  import opened Options
  import opened RunStatus
  import opened Failure
  import opened Recovery

  /** An executable unit: a node, or a subgraph bound to flow.subgraph whose children are walked in order. */
  datatype Unit = Unit(
    id: nat,
    retry: Option<int>,         // RetryPolicy.MaxAttempts, when the unit carries a policy
    onRetry: Option<Unit>,
    onError: Option<Unit>,
    body: Body)

  datatype Body =
    | Leaf(completes: bool)     // a node; `completes`: its action is flow.complete
    | Scope(children: seq<Unit>)

  datatype Command = PauseCommand | StopCommand | StepCommand

  /** A condition flip an action submits while it runs. */
  datatype Submission = Submission(condition: Condition, reason: Reason)

  datatype Verdict = Returned(value: Value) | Refused(err: Err)

  /** One call of an action: the flips it submits, whether it left a compensator, and what it returned. */
  datatype Act = Act(flips: seq<Submission>, undo: bool, verdict: Verdict)

  datatype World = World(
    root: nat,                                // the graph root's id
    policies: map<nat, TransitionPolicy>,     // units that carry a TransitionPolicy
    cancelled: nat -> bool,                   // the context is cancelled
    cut: nat -> bool,                         // a wait before another attempt is cut short by the context
    command: nat -> Option<Command>,
    bound: (nat, nat) -> bool,                // the unit's action resolves, by unit and tick
    act: (nat, nat) -> Act,                   // by unit and tick
    claims: nat -> bool,                      // the scope's claims hold
    undo: nat -> bool)                        // a compensation works

  /** A world in which nothing goes wrong: every action succeeds without a flip. */
  function CalmWorld(root: nat, policies: map<nat, TransitionPolicy>): World {
    World(root, policies, (t: nat) => false, (t: nat) => false, (t: nat) => None, (x: nat, t: nat) => true,
          (x: nat, t: nat) => Act([], false, Returned(Val(0, true))), (t: nat) => true, (t: nat) => true)
  }

  /** transitionPolicyFor: the unit's policy, the root's, the floor. */
  function PolicyIn(root: nat, policies: map<nat, TransitionPolicy>, unit: nat): TransitionPolicy {
    if unit in policies then policies[unit]
    else if root in policies then policies[root]
    else FLOOR
  }

  function PolicyFor(w: World, unit: nat): TransitionPolicy {
    PolicyIn(w.root, w.policies, unit)
  }

  /** A journal entry: the phase it was made in, the unit that drove it, and what was entered. */
  datatype Flip = Flip(phase: Phase, unit: nat, condition: Condition, reason: Reason)

  datatype Halt = PauseHalt | HardHalt | StopHalt

  /** What happened, in order. */
  datatype Event =
    | Began(depth: nat, unit: nat)               // an attempt of a dispatch: unit.Execute is called
    | Asked(depth: nat, unit: nat, rescue: bool) // a handler is dispatched: OnError when `rescue`, else OnRetry
    | Answered(depth: nat, unit: nat, rescue: bool, out: Outcome)    // and this is what came of it
    | Compensated(depth: nat, unit: nat, ok: bool)                   // an unwind calls a compensator
    | Acted(depth: nat, unit: nat, ok: bool, undo: bool)
    | Halted(depth: nat, kind: Halt)             // a pause, a hard failure or an operator stop is raised
    | Stamped(depth: nat, reason: Reason)        // a dispatchFailure is created
    | Lost(depth: nat, undos: multiset<nat>)     // a scope stack is dropped together with these receipts
    | Cleared(depth: nat, unit: nat)             // a failure counts no more: absorbed, or the context's takes over
    | Crashed(depth: nat)                        // an assertion fails: a rejected flip

  datatype State = State(
    phase: Phase,
    condition: Condition,
    reason: Reason,
    journal: seq<Flip>,
    pending: Reaction,
    entries: seq<Entry>,
    tick: nat,
    log: seq<Event>)

  /** The run-wide history and tick only go forward. */
  predicate Grew(a: State, b: State) {
    a.log <= b.log && a.tick <= b.tick
  }

  datatype Outcome = Ok(value: Value) | Fail(err: Err) | Panic

  datatype Result = Result(out: Outcome, st: State)

  function Log(st: State, events: seq<Event>): State {
    st.(log := st.log + events)
  }

  function Push(st: State, e: Entry): State {
    st.(entries := st.entries + [e])
  }

  // ----- The choke point -----

  /** Transition: None is the rejection of a request below the current condition. */
  function Transition(w: World, st: State, unit: nat, condition: Condition, reason: Reason): Option<State> {
    if condition.Rank() < st.condition.Rank() then None
    else if condition == st.condition then Some(st)
    else
      Some(st.(condition := condition, reason := reason,
               journal := st.journal + [Flip(st.phase, unit, condition, reason)],
               pending := Worse(st.pending, PolicyFor(w, unit).ReactionFor(condition))))
  }

  /** How far a driver's flips got: `ok` when none was rejected. */
  datatype Submitted = Submitted(ok: bool, st: State)

  /** The flips an action submits, one after another; the drivers assert that none is rejected. */
  function Submit(w: World, st: State, unit: nat, flips: seq<Submission>): Submitted
    decreases |flips|
  {
    if flips == [] then Submitted(true, st)
    else
      match Transition(w, st, unit, flips[0].condition, flips[0].reason)
      case None => Submitted(false, st)
      case Some(next) => Submit(w, next, unit, flips[1..])
  }

  lemma {:induction false} SubmitGrew(w: World, st: State, unit: nat, flips: seq<Submission>)
    ensures var r := Submit(w, st, unit, flips).st;
            r.log == st.log && r.tick == st.tick && r.entries == st.entries && r.phase == st.phase
    decreases |flips|
  {
    if flips != [] {
      match Transition(w, st, unit, flips[0].condition, flips[0].reason)
      case None =>
      case Some(next) => SubmitGrew(w, next, unit, flips[1..]);
    }
  }

  /** applyPendingReaction. */
  function ApplyPending(d: nat, st: State, value: Value): Result {
    match st.pending
    case Stop =>
      Result(Fail(Dispatch(st.reason, Plain, true)), Log(st, [Stamped(d, st.reason), Halted(d, HardHalt)]))
    case Pause => Result(Fail(Join(ErrPaused, Plain)), Log(st, [Halted(d, PauseHalt)]))
    case Continue => Result(Ok(value), st)
  }

  /** frameworkFailure, after the audit receipt. */
  function FrameworkFailure(w: World, d: nat, st: State, unit: nat): Result {
    var pushed := Push(st, Bare);
    match Transition(w, pushed, unit, ExecutionFailed, FrameworkFailed)
    case None => Result(Panic, Log(pushed, [Crashed(d)]))
    case Some(next) =>
      Result(Fail(Dispatch(FrameworkFailed, Plain, true)),
             Log(next, [Stamped(d, FrameworkFailed), Halted(d, HardHalt)]))
  }

  /** controlPoint: a pause or a stop moves the phase and is returned as an error. */
  function ControlPoint(w: World, d: nat, tick: nat, st: State): Result {
    match w.command(tick)
    case Some(PauseCommand) =>
      Result(Fail(ErrPaused), Log(st.(phase := PausedPhase, reason := PausedReason), [Halted(d, PauseHalt)]))
    case Some(StopCommand) =>
      Result(Fail(ErrStopped), Log(st.(phase := Stopping, reason := StoppedReason), [Halted(d, StopHalt)]))
    case _ => Result(Ok(Nil), st)
  }

  /** What an action's own error brings with it; an error that is both a pause and a stop is treated as a pause. */
  function Raised(d: nat, e: Err): seq<Event> {
    (if As(e).Some? then [Stamped(d, As(e).value.reason)] else [])
    + (if IsPaused(e) then [Halted(d, PauseHalt)] else [])
    + (if IsHard(e) then [Halted(d, HardHalt)] else [])
    + (if IsStopped(e) && !IsPaused(e) then [Halted(d, StopHalt)] else [])
  }

  // ----- Dispatch -----

  /** retryPolicyFor: explicit wins; a structural subgraph other than the root inherits the floor; else one attempt. */
  function TriesIn(root: nat, u: Unit): int {
    match u.retry
    case Some(n) => n + 1
    case None => if u.body.Scope? && u.id != root then FLOOR_RETRIES + 1 else 1
  }

  function Tries(w: World, u: Unit): int {
    TriesIn(w.root, u)
  }

  /** Attempts left in the retry loop. */
  function Left(w: World, u: Unit, attempt: nat): nat {
    if attempt < Tries(w, u) then Tries(w, u) - attempt else 0
  }

  /** dispatchWithPolicy. */
  function Dispatched(w: World, d: nat, u: Unit, st: State): (r: Result)
    ensures Grew(st, r.st)
    decreases u, 2 + Left(w, u, 0), 0
  {
    Attempts(w, d, u, st, 0, Nothing)
  }

  /** The retry loop from the given attempt on. */
  function Attempts(w: World, d: nat, u: Unit, st: State, attempt: nat, last: Err): (r: Result)
    ensures Grew(st, r.st)
    decreases u, 1 + Left(w, u, attempt), 1
  {
    if attempt >= Tries(w, u) then Resolve(w, d, u, st, ActionFailed, last)
    else if attempt > 0 && w.cut(st.tick) then
      Result(Fail(Cancelled), Log(st.(tick := st.tick + 1), [Cleared(d, u.id)]))
    else
      var began := Log(st.(tick := st.tick + 1), [Began(d, u.id)]);
      var r := Execute(w, d, u, began);
      match r.out
      case Ok(value) => ApplyPending(d, r.st, value)
      case Panic => r
      case Fail(err) =>
        var asked := r.st.(tick := r.st.tick + 1);
        if IsPaused(err) || w.cancelled(r.st.tick) || IsHard(err) then Result(r.out, asked)
        else Retry(w, d, u, asked, attempt, err)
  }

  /** An ordinary failure: gateRetry when another attempt remains. */
  function Retry(w: World, d: nat, u: Unit, st: State, attempt: nat, err: Err): (r: Result)
    requires attempt < Tries(w, u)
    ensures Grew(st, r.st)
    decreases u, 1 + Left(w, u, attempt), 0
  {
    if attempt + 1 < Tries(w, u) && u.onRetry.Some? then
      var g := Handle(w, d, u.id, false, u.onRetry.value, st);
      match g.out
      case Panic => g
      case Fail(e) => Result(Fail(HandlerError(e)), Log(g.st, [Stamped(d, HandlerFailed)]))
      case Ok(verdict) =>
        if IsTruthy(verdict) then Attempts(w, d, u, g.st, attempt + 1, err)
        else Resolve(w, d, u, g.st, RetryVetoed, err)
    else Attempts(w, d, u, st, attempt + 1, err)
  }

  /** resolveFailure. */
  function Resolve(w: World, d: nat, u: Unit, st: State, base: Reason, cause: Err): (r: Result)
    ensures Grew(st, r.st)
    decreases u, 0, 2
  {
    if u.onError.None? then Stands(d, st, base, cause)
    else
      var h := Handle(w, d, u.id, true, u.onError.value, st);
      match h.out
      case Panic => h
      case Fail(e) => Result(Fail(HandlerError(e)), Log(h.st, [Stamped(d, HandlerFailed)]))
      case Ok(verdict) =>
        if IsTruthy(verdict) then Result(h.out, Log(h.st, [Cleared(d, u.id)])) else Stands(d, h.st, base, cause)
  }

  function Stands(d: nat, st: State, base: Reason, cause: Err): Result {
    Result(Fail(StandingFailure(base, cause)),
           if As(cause).Some? then st else Log(st, [Stamped(d, base)]))
  }

  function Compensations(d: nat, calls: seq<Call>): (es: seq<Event>)
    ensures |es| == |calls| && forall i :: 0 <= i < |es| ==> es[i] == Compensated(d, calls[i].unit, calls[i].ok)
  {
    if calls == [] then [] else [Compensated(d, calls[0].unit, calls[0].ok)] + Compensations(d, calls[1..])
  }

  /** dispatchHandler: on a fresh stack, with a panic turned into an error; on failure that stack is unwound. */
  function Handle(w: World, d: nat, unit: nat, rescue: bool, handler: Unit, st: State): (r: Result)
    ensures Grew(st, r.st)
    ensures r.st.entries == st.entries
    ensures !r.out.Panic?
    decreases handler, 1, 0
  {
    var r := Execute(w, d + 1, handler, Log(st.(entries := []), [Asked(d, unit, rescue)]));
    var out := if r.out.Panic? then Fail(Plain) else r.out;
    var undone := if out.Ok? then Unwound(true, [], r.st.tick, []) else Unwind(w.undo, r.st.tick, r.st.entries);
    UnwindCallsEverything(w.undo, r.st.tick, r.st.entries);
    Result(out, Log(r.st.(entries := st.entries, tick := undone.tick),
                    Aftermath(d, unit, rescue, undone.calls, out)))
  }

  /** What a handler's end adds to the history. */
  function Aftermath(d: nat, unit: nat, rescue: bool, calls: seq<Call>, out: Outcome): (es: seq<Event>)
    ensures forall i :: 0 <= i < |es| ==> Afterwards(es[i], d)
  {
    Compensations(d + 1, calls) + [Answered(d, unit, rescue, out)]
  }

  predicate Afterwards(e: Event, d: nat) {
    (e.Compensated? && e.depth == d + 1) || (e.Answered? && e.depth == d)
  }

  /** The two ends of a handler. */
  lemma HandleEnds(w: World, d: nat, unit: nat, rescue: bool, handler: Unit, st: State)
    ensures var r := Execute(w, d + 1, handler, Log(st.(entries := []), [Asked(d, unit, rescue)]));
            var out := if r.out.Panic? then Fail(Plain) else r.out;
            var u := Unwind(w.undo, r.st.tick, r.st.entries);
            Handle(w, d, unit, rescue, handler, st) == Result(out,
              if out.Ok? then Log(r.st.(entries := st.entries), [Answered(d, unit, rescue, out)])
              else Log(Log(r.st.(entries := st.entries, tick := u.tick), Compensations(d + 1, u.calls)),
                       [Answered(d, unit, rescue, out)]))
  {
    hide Execute, Unwind, Compensations;
    assert Compensations(d + 1, []) == [];
    var r := Execute(w, d + 1, handler, Log(st.(entries := []), [Asked(d, unit, rescue)]));
    var u := Unwind(w.undo, r.st.tick, r.st.entries);
    var e := [Answered(d, unit, rescue, if r.out.Panic? then Fail(Plain) else r.out)];
    assert [] + e == e;
    assert r.st.log + (Compensations(d + 1, u.calls) + e) == (r.st.log + Compensations(d + 1, u.calls)) + e;
  }

  /** A handler's history: the question, its execution, and its end. */
  lemma HandleIs(w: World, d: nat, unit: nat, rescue: bool, handler: Unit, st: State)
    returns (r: Result, es: seq<Event>)
    ensures var asked := Log(st.(entries := []), [Asked(d, unit, rescue)]);
            r == Execute(w, d + 1, handler, asked) && asked.log <= r.st.log
    ensures Handle(w, d, unit, rescue, handler, st).st.log == r.st.log + es
    ensures forall i :: 0 <= i < |es| ==> Afterwards(es[i], d)
  {
    hide Execute, Unwind;
    r := Execute(w, d + 1, handler, Log(st.(entries := []), [Asked(d, unit, rescue)]));
    es := Handle(w, d, unit, rescue, handler, st).st.log[|r.st.log|..];
  }

  /** Node.Execute and Subgraph.Execute. */
  function Execute(w: World, d: nat, u: Unit, st: State): (r: Result)
    ensures Grew(st, r.st)
    decreases u, 0, 1
  {
    var t, s := st.tick, st.(tick := st.tick + 1);
    if w.cancelled(t) then Result(Fail(Wrap(Cancelled)), Push(s, Bare))
    else
      var c := ControlPoint(w, d, t, s);
      if c.out.Fail? then c
      else if u.body.Leaf? then Node(w, d, t, u, s)
      else Subgraph(w, d, t, u, s)
  }

  /** A node past its control point: replay a successful receipt, or run the action and push one. */
  function Node(w: World, d: nat, t: nat, u: Unit, s: State): (r: Result)
    ensures Grew(s, r.st)
  {
    SubmitGrew(w, s, u.id, w.act(u.id, t).flips);
    var found := FindReceipt(s.entries, u.id);
    if found.Some? && found.value.Receipt? && found.value.ok then Result(Ok(found.value.result), s)
    else if !w.bound(u.id, t) then FrameworkFailure(w, d, s, u.id)
    else
      var act := w.act(u.id, t);
      var submitted := Submit(w, s, u.id, act.flips);
      var s1 := submitted.st;
      if !submitted.ok then Result(Panic, Log(s1, [Crashed(d)]))
      else
        match act.verdict
        case Returned(value) =>
          Result(Ok(value), Log(Push(s1, Receipt(u.id, true, value, act.undo)), [Acted(d, u.id, true, act.undo)]))
        case Refused(err) =>
          Result(Fail(Wrap(err)),
                 Log(Push(s1, Receipt(u.id, false, Nil, act.undo)),
                     [Acted(d, u.id, false, act.undo)] + Raised(d, err)))
  }

  /** The state of the child executor a scope is walked with. */
  function Child(parent: State, adopted: seq<Entry>): State {
    State(Running, Healthy, NoReason, [], Continue, adopted, parent.tick, parent.log)
  }

  /** A subgraph past its control point: replay, adopt or start its scope stack, walk the children, bubble up. */
  function Subgraph(w: World, d: nat, t: nat, u: Unit, s: State): (r: Result)
    requires u.body.Scope?
    ensures Grew(s, r.st)
    decreases u, 0, 0
  {
    var prior := FindNested(s.entries, u.id);
    if prior.Some? && !prior.value.failed then Result(Ok(prior.value.result), s)
    else
      var adopted := if prior.Some? then prior.value.entries else [];
      var s1 := if prior.Some? then s.(entries := Supersede(s.entries, u.id)) else s;
      if !w.bound(u.id, t) then FrameworkFailure(w, d, Log(s1, Dropped(d, prior)), u.id)
      else if !w.claims(t) then
        Result(Fail(Wrap(Dispatch(PreflightFailed, Plain, false))),
               Log(Push(s1, Receipt(u.id, false, Nil, false)), Dropped(d, prior) + [Stamped(d, PreflightFailed)]))
      else
        var walked := Walk(w, d, u.body.children, Nil, Child(s1, adopted));
        Leave(w, d, u.id, s1, walked)
  }

  /** A scope stack that was superseded and is then not nested again. */
  function Dropped(d: nat, prior: Option<Stack>): seq<Event> {
    if prior.Some? then [Lost(d, Undos(prior.value.entries))] else []
  }

  /** What the walk told: bubble the condition up, stamp the scope's stack and nest it. */
  function Leave(w: World, d: nat, unit: nat, s1: State, walked: Result): (r: Result)
    ensures walked.st.log <= r.st.log && r.st.tick == walked.st.tick
  {
    var c := walked.st;
    var s2 := s1.(tick := c.tick, log := c.log);
    if walked.out.Panic? then Result(Panic, Log(s2, [Lost(d, Undos(c.entries))]))
    else
      var told := c.condition != Healthy && (walked.out.Ok? || IsPaused(walked.out.err));
      match (if told then Transition(w, s2, unit, c.condition, c.reason) else Some(s2))
      case None => Result(Panic, Log(s2, [Lost(d, Undos(c.entries)), Crashed(d)]))
      case Some(s3) =>
        if walked.out.Ok? then
          Result(walked.out, Push(s3, Nested(Stack(unit, walked.out.value, false, c.entries))))
        else
          Result(Fail(Wrap(walked.out.err)), Push(s3, Nested(Stack(unit, Nil, true, c.entries))))
  }

  /** walkSubgraphChildren: in order; flow.complete returns early; the first standing failure ends the walk. */
  function Walk(w: World, d: nat, units: seq<Unit>, last: Value, st: State): (r: Result)
    ensures Grew(st, r.st)
    decreases units, 0, 0
  {
    if units == [] then Result(Ok(last), st)
    else
      var r := Dispatched(w, d, units[0], st);
      match r.out
      case Panic => r
      case Fail(err) => Result(Fail(Wrap(err)), r.st)
      case Ok(value) =>
        if units[0].body.Leaf? && units[0].body.completes then r
        else Walk(w, d, units[1..], value, r.st)
  }
}
