/**
 One attempt at a unit, told from the stack, the world and the history: what stops it at its door, when it replays what
 is on the stack, when a node's action runs and what then comes out, and which children of a scope are dispatched.
 */
module ExecutorAttempts {
  import opened Options
  import opened RunStatus
  import opened Failure
  import opened Recovery
  import opened Executor

  // ----- The door -----

  predicate Barred(w: World, t: nat) {
    w.cancelled(t) || w.command(t) == Some(PauseCommand) || w.command(t) == Some(StopCommand)
  }

  /**
   A cancelled context or a drained pause or stop ends an attempt at its door, whatever the unit: nothing runs.  A
   cancellation comes first, and leaves any command where it was.  A step never stops anything.
   */
  lemma DoorExactly(w: World, d: nat, u: Unit, st: State)
    requires Barred(w, st.tick)
    ensures var r := Execute(w, d, u, st);
            if w.cancelled(st.tick) then
              r == Result(Fail(Wrap(Cancelled)), st.(tick := st.tick + 1, entries := st.entries + [Bare]))
            else if w.command(st.tick) == Some(PauseCommand) then
              r == Result(Fail(ErrPaused), st.(tick := st.tick + 1, phase := PausedPhase, reason := PausedReason,
                                               log := st.log + [Halted(d, PauseHalt)]))
            else
              r == Result(Fail(ErrStopped), st.(tick := st.tick + 1, phase := Stopping, reason := StoppedReason,
                                                log := st.log + [Halted(d, StopHalt)]))
  {
    hide Node, Subgraph;
  }

  lemma DoorOpens(w: World, d: nat, u: Unit, st: State)
    requires !Barred(w, st.tick)
    ensures var s := st.(tick := st.tick + 1);
            Execute(w, d, u, st) == if u.body.Leaf? then Node(w, d, st.tick, u, s) else Subgraph(w, d, st.tick, u, s)
  {
    hide Node, Subgraph;
  }

  // ----- A node -----

  /** The unit's latest receipt on the stack is the one of a success with this value. */
  ghost predicate Succeeded(entries: seq<Entry>, x: nat, value: Value) {
    exists k: nat :: k < |entries| && Earned(entries[k], x, value) &&
      forall i :: k < i < |entries| ==> !(entries[i].Receipt? && entries[i].unit == x)
  }

  predicate Earned(e: Entry, x: nat, value: Value) {
    e.Receipt? && e.unit == x && e.ok && e.result == value
  }

  lemma SucceededIs(entries: seq<Entry>, x: nat, value: Value)
    ensures var found := FindReceipt(entries, x);
            Succeeded(entries, x, value) <==> found.Some? && Earned(found.value, x, value)
  {
    hide FindReceipt;
    FindsLatest(entries, x);
    var found := FindReceipt(entries, x);
    if found.Some? {
      var k: nat :| k < |entries| && entries[k] == found.value && found.value.Receipt? && found.value.unit == x
                    && forall i :: k < i < |entries| ==> !(entries[i].Receipt? && entries[i].unit == x);
      if Succeeded(entries, x, value) {
        var j: nat :| j < |entries| && Earned(entries[j], x, value) &&
                      forall i :: j < i < |entries| ==> !(entries[i].Receipt? && entries[i].unit == x);
        assert j == k;
      }
    }
  }

  ghost predicate Replayable(entries: seq<Entry>, x: nat) {
    exists v :: Succeeded(entries, x, v)
  }

  lemma ReplayableIs(entries: seq<Entry>, x: nat)
    ensures var found := FindReceipt(entries, x);
            Replayable(entries, x) <==> found.Some? && found.value.Receipt? && found.value.ok
  {
    hide FindReceipt, Succeeded;
    var found := FindReceipt(entries, x);
    FindsLatest(entries, x);
    if found.Some? && found.value.Receipt? {
      SucceededIs(entries, x, found.value.result);
    }
    forall v | Succeeded(entries, x, v) ensures found.Some? && found.value.Receipt? && found.value.ok {
      SucceededIs(entries, x, v);
    }
  }

  /** The node's action runs in this attempt. */
  ghost predicate RunsNow(w: World, u: Unit, st: State) {
    !Barred(w, st.tick) && !Replayable(st.entries, u.id) && w.bound(u.id, st.tick)
  }

  /**
   A node's action runs if and only if nothing stops the attempt at its door, the node's latest receipt is not that of a
   success, and the action resolves: then it runs once, and what it returned is what comes out, with a receipt that says
   so.  Without a run the only success is that of the latest receipt, and it changes nothing.
   */
  lemma NodeRunsExactly(w: World, d: nat, u: Unit, st: State)
    requires u.body.Leaf?
    ensures var r, act := Execute(w, d, u, st), w.act(u.id, st.tick);
            var es := r.st.log[|st.log|..];
            && ((exists i :: 0 <= i < |es| && es[i].Acted?) <==> RunsNow(w, u, st) && !r.out.Panic?)
            && (RunsNow(w, u, st) && !r.out.Panic? ==>
                  && es[0] == Acted(d, u.id, act.verdict.Returned?, act.undo)
                  && (forall i :: 1 <= i < |es| ==> !es[i].Acted?)
                  && r.out == (if act.verdict.Returned? then Ok(act.verdict.value) else Fail(Wrap(act.verdict.err)))
                  && r.st.entries == st.entries + [Receipt(u.id, act.verdict.Returned?,
                                                           if r.out.Ok? then r.out.value else Nil, act.undo)])
            && (!RunsNow(w, u, st) && r.out.Ok? ==>
                  Succeeded(st.entries, u.id, r.out.value) && r.st == st.(tick := st.tick + 1))
            && (!Barred(w, st.tick) && Replayable(st.entries, u.id) ==> r.out.Ok?)
  {
    hide Node, Submit, FindReceipt, Succeeded, Raised, Replayable, FrameworkFailure;
    ReplayableIs(st.entries, u.id);
    var r := Execute(w, d, u, st);
    if Barred(w, st.tick) {
      DoorExactly(w, d, u, st);
    } else {
      DoorOpens(w, d, u, st);
      NodePasses(w, d, u, st);
    }
  }

  lemma NodePasses(w: World, d: nat, u: Unit, st: State)
    ensures var r, act, found := Node(w, d, st.tick, u, st.(tick := st.tick + 1)), w.act(u.id, st.tick),
                                 FindReceipt(st.entries, u.id);
            var es := r.st.log[|st.log|..];
            if found.Some? && found.value.Receipt? && found.value.ok then
              && r == Result(Ok(found.value.result), st.(tick := st.tick + 1)) && es == []
              && Succeeded(st.entries, u.id, found.value.result)
            else if !w.bound(u.id, st.tick) then
              !r.out.Ok? && forall i :: 0 <= i < |es| ==> !es[i].Acted?
            else if r.out.Panic? then forall i :: 0 <= i < |es| ==> !es[i].Acted?
            else
              && |es| > 0 && es[0] == Acted(d, u.id, act.verdict.Returned?, act.undo)
              && (forall i :: 1 <= i < |es| ==> !es[i].Acted?)
              && r.out == (if act.verdict.Returned? then Ok(act.verdict.value) else Fail(Wrap(act.verdict.err)))
              && r.st.entries == st.entries + [Receipt(u.id, act.verdict.Returned?,
                                                       if r.out.Ok? then r.out.value else Nil, act.undo)]
  {
    hide Submit, FindReceipt, Succeeded, PolicyFor;
    var found := FindReceipt(st.entries, u.id);
    var act := w.act(u.id, st.tick);
    SubmitGrew(w, st.(tick := st.tick + 1), u.id, act.flips);
    if found.Some? && found.value.Receipt? {
      FindsLatest(st.entries, u.id);
      SucceededIs(st.entries, u.id, found.value.result);
    }
    if act.verdict.Refused? {
      RaisedNoAct(d, act.verdict.err);
    }
  }

  lemma RaisedNoAct(d: nat, e: Err)
    ensures forall i :: 0 <= i < |Raised(d, e)| ==> !Raised(d, e)[i].Acted?
  {
    hide As, IsPaused, IsHard, IsStopped;
  }

  // ----- A scope -----

  /** The children are dispatched up to the first that fails or completes the scope, each where the one before ended. */
  ghost predicate Steps(w: World, d: nat, units: seq<Unit>, st: State, rs: seq<Result>) {
    && |rs| <= |units|
    && (forall i :: 0 <= i < |rs| ==> rs[i] == Dispatched(w, d, units[i], Before(st, rs, i)))
    && (forall i :: 0 <= i < |rs| - 1 ==> GoesOn(units[i], rs[i].out))
    && (|rs| < |units| ==> rs != [] && !GoesOn(units[|rs| - 1], rs[|rs| - 1].out))
  }

  function Before(st: State, rs: seq<Result>, i: nat): State
    requires i <= |rs|
  {
    if i == 0 then st else rs[i - 1].st
  }

  predicate GoesOn(u: Unit, out: Outcome) {
    out.Ok? && !(u.body.Leaf? && u.body.completes)
  }

  lemma StepsFirst(w: World, d: nat, units: seq<Unit>, st: State, first: Result, rest: seq<Result>)
    requires units != [] && first == Dispatched(w, d, units[0], st) && GoesOn(units[0], first.out)
    requires Steps(w, d, units[1..], first.st, rest)
    ensures Steps(w, d, units, st, [first] + rest)
  {
    hide Dispatched;
    var rs := [first] + rest;
    forall i: nat | i < |rs|
      ensures rs[i] == Dispatched(w, d, units[i], Before(st, rs, i))
      ensures i < |rs| - 1 ==> GoesOn(units[i], rs[i].out)
    {
      if i > 0 {
        assert Before(st, rs, i) == Before(first.st, rest, i - 1);
        assert rest[i - 1] == Dispatched(w, d, units[1..][i - 1], Before(first.st, rest, i - 1));
        assert units[1..][i - 1] == units[i];
      }
    }
    if |rs| < |units| {
      assert rest != [] && units[1..][|rest|-1] == units[|rs|-1];
    }
  }

  /** The walk of a scope ends as the last child that it dispatched. */
  lemma {:induction false} WalkSteps(w: World, d: nat, units: seq<Unit>, last: Value, st: State)
    returns (rs: seq<Result>)
    ensures Steps(w, d, units, st, rs)
    ensures Walk(w, d, units, last, st) ==
              if rs == [] then Result(Ok(last), st)
              else
                var r := rs[|rs|-1];
                if r.out.Fail? then Result(Fail(Wrap(r.out.err)), r.st) else r
    decreases |units|
  {
    hide Dispatched;
    if units == [] {
      rs := [];
    } else {
      var first := Dispatched(w, d, units[0], st);
      if GoesOn(units[0], first.out) {
        var rest := WalkSteps(w, d, units[1..], first.out.value, first.st);
        rs := [first] + rest;
        StepsFirst(w, d, units, st, first, rest);
      } else {
        rs := [first];
      }
    }
  }

  /** The unit's latest scope stack on the stack is this one. */
  ghost predicate LastNested(entries: seq<Entry>, x: nat, stack: Stack) {
    exists k: nat :: k < |entries| && entries[k] == Nested(stack) && stack.unit == x &&
      forall i :: k < i < |entries| ==> !(entries[i].Nested? && entries[i].stack.unit == x)
  }

  lemma LastNestedIs(entries: seq<Entry>, x: nat, stack: Stack)
    ensures LastNested(entries, x, stack) <==> FindNested(entries, x) == Some(stack)
  {
    hide FindNested;
    NestsLatest(entries, x);
    var found := FindNested(entries, x);
    if found.Some? {
      var k: nat :| k < |entries| && entries[k] == Nested(found.value) && found.value.unit == x
                    && forall i :: k < i < |entries| ==> !(entries[i].Nested? && entries[i].stack.unit == x);
      if LastNested(entries, x, stack) {
        var j: nat :| j < |entries| && entries[j] == Nested(stack) && stack.unit == x &&
                      forall i :: j < i < |entries| ==> !(entries[i].Nested? && entries[i].stack.unit == x);
        assert j == k;
      }
    }
  }

  /** Where the children start: a healthy executor of their own, on the stack of the failed walk before, if any. */
  ghost predicate Starts(st: State, x: nat, child: State) {
    && child.phase == Running && child.condition == Healthy && child.journal == [] && child.pending == Continue
    && child.tick == st.tick + 1 && child.log == st.log
    && ((child.entries == [] && forall stack :: !LastNested(st.entries, x, stack))
        || exists stack :: LastNested(st.entries, x, stack) && stack.failed && child.entries == stack.entries)
  }

  ghost predicate Finished(entries: seq<Entry>, x: nat, value: Value) {
    exists stack :: LastNested(entries, x, stack) && !stack.failed && stack.result == value
  }

  /** The children are walked in this attempt. */
  ghost predicate WalksNow(w: World, u: Unit, st: State) {
    && !Barred(w, st.tick) && (forall v :: !Finished(st.entries, u.id, v))
    && w.bound(u.id, st.tick) && w.claims(st.tick)
  }

  /**
   A scope's children are dispatched if and only if nothing stops the attempt at its door, the scope has not finished on
   this stack, its action resolves and its claims hold.  Then they are dispatched in order, up to the first that fails
   or completes the scope, on an executor of their own; unless an assertion fails, the scope ends as the last of them.
   Without that the only success is the one on the stack, and it changes nothing.
   */
  lemma ScopeRunsExactly(w: World, d: nat, u: Unit, st: State) returns (child: State, rs: seq<Result>)
    requires u.body.Scope?
    ensures var r := Execute(w, d, u, st);
            if WalksNow(w, u, st) then
              && Starts(st, u.id, child) && Steps(w, d, u.body.children, child, rs)
              && var end := if rs == [] then Result(Ok(Nil), child) else rs[|rs|-1];
              && end.st.log <= r.st.log && r.st.tick == end.st.tick
              && (r.out.Ok? ==> r.out == end.out)
              && (r.out.Fail? ==> end.out.Fail? && r.out.err == Wrap(Wrap(end.out.err)))
            else
              && r.st.tick == st.tick + 1
              && (forall i :: |st.log| <= i < |r.st.log| ==> !r.st.log[i].Began?)
              && (r.out.Ok? ==> Finished(st.entries, u.id, r.out.value) && r.st == st.(tick := st.tick + 1))
              && (!Barred(w, st.tick) && (forall v :: !Finished(st.entries, u.id, v)) && w.bound(u.id, st.tick) ==>
                    && r.out == Fail(Wrap(Dispatch(PreflightFailed, Plain, false)))
                    && r.st.log != [] && r.st.log[|r.st.log|-1] == Stamped(d, PreflightFailed)
                    && r.st.condition == st.condition && r.st.journal == st.journal)
  {
    hide Subgraph, FindNested, LastNested, Dispatched, Walk, FrameworkFailure, Leave, Steps, Starts, Finished;
    var prior := FindNested(st.entries, u.id);
    FinishedIs(st.entries, u.id);
    child, rs := st, [];
    if Barred(w, st.tick) {
      DoorExactly(w, d, u, st);
    } else {
      DoorOpens(w, d, u, st);
      child, rs := ScopePasses(w, d, u, st);
    }
  }

  lemma FinishedIs(entries: seq<Entry>, x: nat)
    ensures var prior := FindNested(entries, x);
            && (forall v :: Finished(entries, x, v) <==>
                  prior.Some? && !prior.value.failed && prior.value.result == v)
            && ((exists v :: Finished(entries, x, v)) <==> prior.Some? && !prior.value.failed)
            && (prior.None? <==> forall stack :: !LastNested(entries, x, stack))
  {
    hide FindNested, LastNested;
    forall stack ensures LastNested(entries, x, stack) <==> FindNested(entries, x) == Some(stack) {
      LastNestedIs(entries, x, stack);
    }
    var prior := FindNested(entries, x);
    if prior.Some? && !prior.value.failed {
      assert Finished(entries, x, prior.value.result);
    }
  }

  lemma ScopePasses(w: World, d: nat, u: Unit, st: State) returns (child: State, rs: seq<Result>)
    requires u.body.Scope?
    ensures var r := Subgraph(w, d, st.tick, u, st.(tick := st.tick + 1));
            var prior := FindNested(st.entries, u.id);
            if prior.Some? && !prior.value.failed then
              r == Result(Ok(prior.value.result), st.(tick := st.tick + 1))
            else if w.bound(u.id, st.tick) && w.claims(st.tick) then
              && Starts(st, u.id, child) && Steps(w, d, u.body.children, child, rs)
              && var end := if rs == [] then Result(Ok(Nil), child) else rs[|rs|-1];
              && end.st.log <= r.st.log && r.st.tick == end.st.tick
              && (r.out.Ok? ==> r.out == end.out)
              && (r.out.Fail? ==> end.out.Fail? && r.out.err == Wrap(Wrap(end.out.err)))
            else
              && !r.out.Ok? && r.st.tick == st.tick + 1
              && (forall i :: |st.log| <= i < |r.st.log| ==> !r.st.log[i].Began?)
              && (w.bound(u.id, st.tick) ==>
                    && r.out == Fail(Wrap(Dispatch(PreflightFailed, Plain, false)))
                    && r.st.log != [] && r.st.log[|r.st.log|-1] == Stamped(d, PreflightFailed)
                    && r.st.condition == st.condition && r.st.journal == st.journal)
  {
    hide FindNested, LastNested, Dispatched, Walk, Supersede, PolicyFor, Undos, Starts, Steps, Leave;
    var s := st.(tick := st.tick + 1);
    var prior := FindNested(st.entries, u.id);
    var s1 := if prior.Some? then s.(entries := Supersede(s.entries, u.id)) else s;
    child := Child(s1, if prior.Some? then prior.value.entries else []);
    rs := WalkSteps(w, d, u.body.children, Nil, child);
    if prior.None? || prior.value.failed {
      ChildStarts(st, u.id, s1);
      if w.bound(u.id, st.tick) && w.claims(st.tick) {
        LeaveEnds(w, d, u.id, s1, Walk(w, d, u.body.children, Nil, child));
      }
    }
  }

  lemma ChildStarts(st: State, x: nat, s1: State)
    requires s1.tick == st.tick + 1 && s1.log == st.log
    requires var prior := FindNested(st.entries, x); prior.None? || prior.value.failed
    ensures var prior := FindNested(st.entries, x);
            Starts(st, x, Child(s1, if prior.Some? then prior.value.entries else []))
  {
    hide FindNested, LastNested;
    FinishedIs(st.entries, x);
    var prior := FindNested(st.entries, x);
    if prior.Some? {
      LastNestedIs(st.entries, x, prior.value);
    }
  }

  lemma LeaveEnds(w: World, d: nat, x: nat, s1: State, walked: Result)
    ensures var r := Leave(w, d, x, s1, walked);
            && walked.st.log <= r.st.log && r.st.tick == walked.st.tick
            && (r.out.Ok? ==> r.out == walked.out)
            && (r.out.Fail? ==> walked.out.Fail? && r.out.err == Wrap(walked.out.err))
  {
    hide Undos, PolicyFor;
  }
}
