/**
 A failure's reason is stamped once, and no enclosing dispatch stamps it again: what every dispatch's history says of
 the reason its error carries, and which failures carry none.
 */
module ExecutorReasons {
  import opened Options
  import opened RunStatus
  import opened Failure
  import opened Recovery
  import opened Executor
  import opened ExecutorDepth
  import ExecutorHalts

  /** After it no earlier failure of this depth counts: a new attempt, or a failure that was absorbed or replaced. */
  predicate Resets(e: Event, d: nat) {
    (e.Began? || e.Cleared?) && e.depth == d
  }

  predicate Stamps(e: Event, d: nat) {
    e.Stamped? && e.depth == d
  }

  /** The reasons stamped at depth `d` since the last reset, `open` being those stamped before. */
  function Open(open: seq<Reason>, es: seq<Event>, d: nat): seq<Reason> {
    if es == [] then open
    else
      var e := es[|es|-1];
      if Resets(e, d) then []
      else Open(open, es[..|es|-1], d) + (if Stamps(e, d) then [e.reason] else [])
  }

  lemma {:induction false} OpenConcat(open: seq<Reason>, a: seq<Event>, b: seq<Event>, d: nat)
    ensures Open(open, a + b, d) == Open(Open(open, a, d), b, d)
    decreases |b|
  {
    if b == [] {
      assert a + b == a;
    } else {
      var n := |b| - 1;
      assert (a + b)[..|a + b| - 1] == a + b[..n] && (a + b)[|a + b| - 1] == b[n];
      OpenConcat(open, a, b[..n], d);
    }
  }

  lemma OpenOne(open: seq<Reason>, e: Event, d: nat)
    ensures Open(open, [e], d) == if Resets(e, d) then [] else if Stamps(e, d) then open + [e.reason] else open
  {
    assert [e][..0] == [] && Open(open, [], d) == open;
  }

  lemma {:induction false} OpenIdle(open: seq<Reason>, es: seq<Event>, d: nat)
    requires forall i :: 0 <= i < |es| ==> !Resets(es[i], d) && !Stamps(es[i], d)
    ensures Open(open, es, d) == open
    decreases |es|
  {
    if es != [] {
      OpenIdle(open, es[..|es|-1], d);
    }
  }

  /** What is open after the events from `a` to `b`. */
  function Since(open: seq<Reason>, a: State, b: State, d: nat): seq<Reason>
    requires a.log <= b.log
  {
    Open(open, b.log[|a.log|..], d)
  }

  lemma SinceChain(open: seq<Reason>, a: State, b: State, c: State, d: nat)
    requires a.log <= b.log <= c.log
    ensures Since(open, a, c, d) == Since(Since(open, a, b, d), b, c, d)
  {
    assert c.log[|a.log|..] == b.log[|a.log|..] + c.log[|b.log|..];
    OpenConcat(open, b.log[|a.log|..], c.log[|b.log|..], d);
  }

  lemma SinceOne(open: seq<Reason>, a: State, b: State, e: Event, d: nat)
    requires b.log == a.log + [e]
    ensures Since(open, a, b, d) == if Resets(e, d) then [] else if Stamps(e, d) then open + [e.reason] else open
  {
    assert b.log[|a.log|..] == [e];
    OpenOne(open, e, d);
  }

  lemma SinceIdle(open: seq<Reason>, a: State, b: State, events: seq<Event>, d: nat)
    requires b.log == a.log + events
    requires forall i :: 0 <= i < |events| ==> !Resets(events[i], d) && !Stamps(events[i], d)
    ensures Since(open, a, b, d) == open
  {
    assert b.log[|a.log|..] == events;
    OpenIdle(open, events, d);
  }

  lemma SameLogs(open: seq<Reason>, a: State, a': State, b: State, b': State, d: nat)
    requires a.log == a'.log && b.log == b'.log && a.log <= b.log
    ensures Since(open, a, b, d) == Since(open, a', b', d)
  {
  }

  // ----- One stamp, and the handlers that failed on the way -----

  /**
   An error that carries a reason was stamped once; after that only failed handlers stamped, and the last stamp is the
   reason it carries.  An error that carries none was not stamped.
   */
  predicate Fits(open: seq<Reason>, e: Err) {
    if As(e).None? then open == []
    else
      && open != [] && open[|open|-1] == FailureReason(e)
      && forall i :: 1 <= i < |open| ==> open[i] == HandlerFailed
  }

  predicate Settles(open: seq<Reason>, out: Outcome) {
    match out
    case Ok(_) => open == []
    case Fail(e) => Fits(open, e)
    case Panic => true
  }

  lemma {:induction false} DispatchedStamps(w: World, d: nat, u: Unit, st: State)
    ensures var r := Dispatched(w, d, u, st); Settles(Since([], st, r.st, d), r.out)
    decreases u, 2 + Left(w, u, 0), 0
  {
    AttemptsStamp(w, d, u, [], st, 0, Nothing);
  }

  lemma {:induction false} AttemptsStamp(w: World, d: nat, u: Unit, open: seq<Reason>, st: State, attempt: nat,
                                         last: Err)
    requires Fits(open, last)
    ensures var r := Attempts(w, d, u, st, attempt, last); Settles(Since(open, st, r.st, d), r.out)
    decreases u, 1 + Left(w, u, attempt), 1
  {
    hide Open, Fits, Execute, Retry, Resolve, ApplyPending, IsPaused, IsHard;
    if attempt >= Tries(w, u) {
      ResolveStamps(w, d, u, open, st, ActionFailed, last);
    } else if attempt > 0 && w.cut(st.tick) {
      SinceOne(open, st, Log(st.(tick := st.tick + 1), [Cleared(d, u.id)]), Cleared(d, u.id), d);
      BareFits(Cancelled);
    } else {
      var began := Log(st.(tick := st.tick + 1), [Began(d, u.id)]);
      SinceOne(open, st, began, Began(d, u.id), d);
      ExecuteStamps(w, d, u, began);
      var r := Execute(w, d, u, began);
      SinceChain(open, st, began, r.st, d);
      match r.out
      case Ok(value) =>
        PendingStamps(d, r.st, value);
        SinceChain(open, st, r.st, ApplyPending(d, r.st, value).st, d);
      case Panic =>
      case Fail(err) =>
        var asked := r.st.(tick := r.st.tick + 1);
        SameLogs(open, st, st, r.st, asked, d);
        if !IsPaused(err) && !w.cancelled(r.st.tick) && !IsHard(err) {
          var stamped := Since(open, st, asked, d);
          RetryStamps(w, d, u, stamped, asked, attempt, err);
          SinceChain(open, st, asked, Retry(w, d, u, asked, attempt, err).st, d);
        }
    }
  }

  lemma BareFits(e: Err)
    requires As(e).None?
    ensures Fits([], e)
  {
  }

  /** A hard failure is stamped as it is raised. */
  lemma HardStamps(a: State, b: State, d: nat, reason: Reason, e: Err)
    requires b.log == a.log + [Stamped(d, reason), Halted(d, HardHalt)]
    requires As(e).Some? && As(e).value.reason == reason
    ensures a.log <= b.log && Fits(Since([], a, b, d), e)
  {
    hide Open, Fits;
    var one := Log(a, [Stamped(d, reason)]);
    SinceOne([], a, one, Stamped(d, reason), d);
    assert b.log == one.log + [Halted(d, HardHalt)];
    assert [] + [reason] == [reason];
    SinceOne([reason], one, b, Halted(d, HardHalt), d);
    SinceChain([], a, one, b, d);
    StampedOnce(e);
  }

  lemma PendingStamps(d: nat, st: State, value: Value)
    ensures var r := ApplyPending(d, st, value); st.log <= r.st.log && Settles(Since([], st, r.st, d), r.out)
  {
    hide Open, Fits;
    var r := ApplyPending(d, st, value);
    match st.pending
    case Stop => HardStamps(st, r.st, d, st.reason, r.out.err);
    case Pause =>
      SinceOne([], st, r.st, Halted(d, PauseHalt), d);
      BareFits(r.out.err);
    case Continue => SinceIdle([], st, st, [], d);
  }

  lemma {:induction false} RetryStamps(w: World, d: nat, u: Unit, open: seq<Reason>, st: State, attempt: nat, err: Err)
    requires attempt < Tries(w, u) && Fits(open, err)
    ensures var r := Retry(w, d, u, st, attempt, err); Settles(Since(open, st, r.st, d), r.out)
    decreases u, 1 + Left(w, u, attempt), 0
  {
    hide Open, Fits, Handle, Attempts, Resolve;
    if attempt + 1 < Tries(w, u) && u.onRetry.Some? {
      HandleStampsNothing(w, d, u.id, false, u.onRetry.value, open, st);
      var g := Handle(w, d, u.id, false, u.onRetry.value, st);
      match g.out
      case Fail(e) => HandlerFails(open, st, g.st, d, err, e);
      case Ok(verdict) =>
        if IsTruthy(verdict) {
          AttemptsStamp(w, d, u, open, g.st, attempt + 1, err);
        } else {
          ResolveStamps(w, d, u, open, g.st, RetryVetoed, err);
        }
        SinceChain(open, st, g.st, Retry(w, d, u, st, attempt, err).st, d);
    } else {
      AttemptsStamp(w, d, u, open, st, attempt + 1, err);
    }
  }

  /** A failed handler adds its own stamp to the failure it was asked about. */
  lemma HandlerFails(open: seq<Reason>, st: State, g: State, d: nat, cause: Err, e: Err)
    requires Fits(open, cause) && st.log <= g.log && Since(open, st, g, d) == open
    ensures var t := Log(g, [Stamped(d, HandlerFailed)]);
            st.log <= t.log && Fits(Since(open, st, t, d), HandlerError(e))
  {
    var t := Log(g, [Stamped(d, HandlerFailed)]);
    SinceOne(open, g, t, Stamped(d, HandlerFailed), d);
    SinceChain(open, st, g, t, d);
  }

  /** A veto or an exhaustion stamps a cause that carries no reason, and no other. */
  lemma StandsStamps(d: nat, open: seq<Reason>, st: State, base: Reason, cause: Err)
    requires Fits(open, cause)
    ensures var r := Stands(d, st, base, cause);
            st.log <= r.st.log && Settles(Since(open, st, r.st, d), r.out)
            && (As(cause).Some? ==> Since(open, st, r.st, d) == open)
  {
    SinceIdle(open, st, st, [], d);
    SinceOne(open, st, Log(st, [Stamped(d, base)]), Stamped(d, base), d);
  }

  lemma {:induction false} ResolveStamps(w: World, d: nat, u: Unit, open: seq<Reason>, st: State, base: Reason,
                                         cause: Err)
    requires Fits(open, cause)
    ensures var r := Resolve(w, d, u, st, base, cause); Settles(Since(open, st, r.st, d), r.out)
    decreases u, 0, 2
  {
    hide Open, Fits, Handle, Stands;
    StandsStamps(d, open, st, base, cause);
    if u.onError.Some? {
      HandleStampsNothing(w, d, u.id, true, u.onError.value, open, st);
      var h := Handle(w, d, u.id, true, u.onError.value, st);
      match h.out
      case Fail(e) => HandlerFails(open, st, h.st, d, cause, e);
      case Ok(verdict) =>
        var cleared := Log(h.st, [Cleared(d, u.id)]);
        SinceOne(open, h.st, cleared, Cleared(d, u.id), d);
        SinceChain(open, st, h.st, cleared, d);
        StandsStamps(d, open, h.st, base, cause);
        SinceChain(open, st, h.st, Stands(d, h.st, base, cause).st, d);
    }
  }

  /** What happens inside a handler is deeper. */
  lemma HandleStampsNothing(w: World, d: nat, unit: nat, rescue: bool, handler: Unit, open: seq<Reason>, st: State)
    ensures Since(open, st, Handle(w, d, unit, rescue, handler, st).st, d) == open
  {
    hide Open, Execute;
    var asked := Log(st.(entries := []), [Asked(d, unit, rescue)]);
    var r, after := HandleIs(w, d, unit, rescue, handler, st);
    var es := r.st.log[|asked.log|..];
    ExecutorHalts.ExecuteTells(w, d + 1, handler, asked);
    WithinMeans(es, d + 1);
    SinceOne(open, st, asked, Asked(d, unit, rescue), d);
    var h := Handle(w, d, unit, rescue, handler, st).st;
    assert h.log == asked.log + (es + after);
    SinceIdle(open, asked, h, es + after, d);
    SinceChain(open, st, asked, h, d);
  }

  lemma {:induction false} ExecuteStamps(w: World, d: nat, u: Unit, st: State)
    ensures var r := Execute(w, d, u, st); Settles(Since([], st, r.st, d), r.out)
    decreases u, 0, 1
  {
    hide Open, Node, Subgraph;
    var t, s := st.tick, st.(tick := st.tick + 1);
    if w.cancelled(t) {
      SinceIdle([], st, Push(s, Bare), [], d);
    } else {
      var c := ControlPoint(w, d, t, s);
      if c.out.Fail? {
        SinceIdle([], st, c.st, c.st.log[|st.log|..], d);
      } else if u.body.Leaf? {
        NodeStamps(w, d, t, u, s);
        SameLogs([], s, st, Node(w, d, t, u, s).st, Execute(w, d, u, st).st, d);
      } else {
        SubgraphStamps(w, d, t, u, s);
        SameLogs([], s, st, Subgraph(w, d, t, u, s).st, Execute(w, d, u, st).st, d);
      }
    }
  }

  lemma FrameworkStamps(w: World, d: nat, st: State, unit: nat)
    ensures var r := FrameworkFailure(w, d, st, unit); st.log <= r.st.log && Settles(Since([], st, r.st, d), r.out)
  {
    hide Open, Fits;
    var r := FrameworkFailure(w, d, st, unit);
    if r.out.Fail? {
      HardStamps(st, r.st, d, FrameworkFailed, r.out.err);
    }
  }

  lemma StampedOnce(e: Err)
    requires As(e).Some?
    ensures Fits([] + [As(e).value.reason], e) && Fits([As(e).value.reason], e)
  {
    assert [] + [As(e).value.reason] == [As(e).value.reason];
  }

  lemma RaisedStamps(d: nat, e: Err)
    ensures Fits(Open([], Raised(d, e), d), Wrap(e))
  {
    hide IsPaused, IsHard, IsStopped, As, Open, Fits;
    if As(e).Some? {
      StampedOnce(e);
      OpenOne([], Stamped(d, As(e).value.reason), d);
    } else {
      OpenIdle([], [], d);
      BareFits(e);
    }
    var a := if As(e).Some? then [Stamped(d, As(e).value.reason)] else [];
    var b := if IsPaused(e) then [Halted(d, PauseHalt)] else [];
    var c := if IsHard(e) then [Halted(d, HardHalt)] else [];
    var f := if IsStopped(e) && !IsPaused(e) then [Halted(d, StopHalt)] else [];
    HaltsIdle([], a, IsPaused(e), Halted(d, PauseHalt), d);
    HaltsIdle([], a + b, IsHard(e), Halted(d, HardHalt), d);
    HaltsIdle([], a + b + c, IsStopped(e) && !IsPaused(e), Halted(d, StopHalt), d);
    assert Raised(d, e) == a + b + c + f;
    WrapFits(Open([], a, d), e);
  }

  lemma HaltsIdle(open: seq<Reason>, es: seq<Event>, b: bool, e: Event, d: nat)
    requires e.Halted?
    ensures Open(open, es + (if b then [e] else []), d) == Open(open, es, d)
  {
    hide Open;
    if b {
      OpenConcat(open, es, [e], d);
      OpenOne(Open(open, es, d), e, d);
    } else {
      assert es + [] == es;
    }
  }

  lemma NodeStamps(w: World, d: nat, t: nat, u: Unit, s: State)
    ensures var r := Node(w, d, t, u, s); Settles(Since([], s, r.st, d), r.out)
  {
    hide Open, Raised, FrameworkFailure, FindReceipt, Fits;
    SinceIdle([], s, s, [], d);
    FrameworkStamps(w, d, s, u.id);
    var act := w.act(u.id, t);
    SubmitGrew(w, s, u.id, act.flips);
    match act.verdict
    case Returned(_) => SinceOne([], s, Log(s, [Acted(d, u.id, true, act.undo)]), Acted(d, u.id, true, act.undo), d);
    case Refused(err) =>
      var events := [Acted(d, u.id, false, act.undo)] + Raised(d, err);
      OpenConcat([], [Acted(d, u.id, false, act.undo)], Raised(d, err), d);
      OpenOne([], Acted(d, u.id, false, act.undo), d);
      RaisedStamps(d, err);
      assert (s.log + events)[|s.log|..] == events;
  }

  lemma {:induction false} SubgraphStamps(w: World, d: nat, t: nat, u: Unit, s: State)
    requires u.body.Scope?
    ensures var r := Subgraph(w, d, t, u, s); Settles(Since([], s, r.st, d), r.out)
    decreases u, 0, 0
  {
    hide Open, FrameworkFailure, Walk, Leave, FindNested, Supersede, Undos, Fits;
    SinceIdle([], s, s, [], d);
    var prior := FindNested(s.entries, u.id);
    if prior.None? || prior.value.failed {
      var adopted := if prior.Some? then prior.value.entries else [];
      var s1 := if prior.Some? then s.(entries := Supersede(s.entries, u.id)) else s;
      var lost := Log(s1, Dropped(d, prior));
      SinceIdle([], s, lost, Dropped(d, prior), d);
      if !w.bound(u.id, t) {
        FrameworkStamps(w, d, lost, u.id);
        SinceChain([], s, lost, FrameworkFailure(w, d, lost, u.id).st, d);
      } else if !w.claims(t) {
        var r := Subgraph(w, d, t, u, s);
        assert r.st.log == lost.log + [Stamped(d, PreflightFailed)];
        assert As(r.out.err) == Some(Carried(PreflightFailed, false));
        SinceOne([], lost, r.st, Stamped(d, PreflightFailed), d);
        SinceChain([], s, lost, r.st, d);
        StampedOnce(r.out.err);
      } else {
        var child := Child(s1, adopted);
        WalkStamps(w, d, u.body.children, Nil, child);
        var walked := Walk(w, d, u.body.children, Nil, child);
        LeaveStamps(w, d, u.id, s1, child, walked);
        SameLogs([], s1, s, Leave(w, d, u.id, s1, walked).st, Subgraph(w, d, t, u, s).st, d);
      }
    }
  }

  lemma WrapFits(open: seq<Reason>, e: Err)
    ensures Fits(open, Wrap(e)) == Fits(open, e)
  {
  }

  lemma LeaveStamps(w: World, d: nat, unit: nat, s1: State, child: State, walked: Result)
    requires child.log == s1.log && child.log <= walked.st.log
    requires Settles(Since([], child, walked.st, d), walked.out)
    ensures var r := Leave(w, d, unit, s1, walked); s1.log <= r.st.log && Settles(Since([], s1, r.st, d), r.out)
  {
    hide Open, Undos, Fits;
    var r := Leave(w, d, unit, s1, walked);
    if !r.out.Panic? {
      SameLogs([], child, s1, walked.st, r.st, d);
      if walked.out.Fail? {
        WrapFits(Since([], s1, r.st, d), walked.out.err);
      }
    }
  }

  lemma {:induction false} WalkStamps(w: World, d: nat, units: seq<Unit>, last: Value, st: State)
    ensures var r := Walk(w, d, units, last, st); Settles(Since([], st, r.st, d), r.out)
    decreases units, 0, 0
  {
    hide Open, Dispatched, Fits;
    SinceIdle([], st, st, [], d);
    if units != [] {
      DispatchedStamps(w, d, units[0], st);
      var r := Dispatched(w, d, units[0], st);
      match r.out
      case Panic =>
      case Fail(err) => WrapFits(Since([], st, r.st, d), err);
      case Ok(value) =>
        if !(units[0].body.Leaf? && units[0].body.completes) {
          WalkStamps(w, d, units[1..], value, r.st);
          SinceChain([], st, r.st, Walk(w, d, units[1..], value, r.st).st, d);
        }
    }
  }

  // ----- At least once -----

  /** Between these ticks the context was cancelled, or it cut a wait short. */
  ghost predicate CutOff(w: World, from: nat, until: nat) {
    exists t :: from <= t < until && (w.cancelled(t) || w.cut(t))
  }

  /** A failure without a reason is a pause or the context's. */
  ghost predicate Excused(w: World, from: nat, r: Result) {
    r.out.Fail? && As(r.out.err).None? ==> IsPaused(r.out.err) || CutOff(w, from, r.st.tick)
  }

  lemma {:induction false} AttemptsExcused(w: World, d: nat, u: Unit, st: State, attempt: nat, last: Err)
    ensures Excused(w, st.tick, Attempts(w, d, u, st, attempt, last))
    decreases Left(w, u, attempt), 1
  {
    hide Execute, Retry, IsPaused, IsHard, As;
    if attempt >= Tries(w, u) {
      ResolveStates(w, d, u, st, ActionFailed, last);
    } else if attempt > 0 && w.cut(st.tick) {
      assert CutOff(w, st.tick, st.tick + 1);
    } else {
      var began := Log(st.(tick := st.tick + 1), [Began(d, u.id)]);
      var r := Execute(w, d, u, began);
      match r.out
      case Ok(value) => PendingExcused(w, d, st.tick, r.st, value);
      case Panic =>
      case Fail(err) =>
        var asked := r.st.(tick := r.st.tick + 1);
        if w.cancelled(r.st.tick) {
          assert CutOff(w, st.tick, asked.tick);
        } else if !IsPaused(err) && !IsHard(err) {
          RetryExcused(w, d, u, asked, attempt, err);
          Later(w, st.tick, asked.tick, Retry(w, d, u, asked, attempt, err));
        } else {
          HardStates(err);
        }
    }
  }

  lemma DispatchedExcused(w: World, d: nat, u: Unit, st: State)
    ensures Excused(w, st.tick, Dispatched(w, d, u, st))
  {
    hide Attempts, Excused;
    AttemptsExcused(w, d, u, st, 0, Nothing);
  }

  lemma HardStates(e: Err)
    ensures IsHard(e) ==> As(e).Some?
  {
  }

  lemma PendingExcused(w: World, d: nat, from: nat, st: State, value: Value)
    ensures Excused(w, from, ApplyPending(d, st, value))
  {
    assert Is(Join(ErrPaused, Plain), ErrPaused);
  }

  lemma Later(w: World, from: nat, after: nat, r: Result)
    requires from <= after && Excused(w, after, r)
    ensures Excused(w, from, r)
  {
  }

  lemma {:induction false} RetryExcused(w: World, d: nat, u: Unit, st: State, attempt: nat, err: Err)
    requires attempt < Tries(w, u)
    ensures Excused(w, st.tick, Retry(w, d, u, st, attempt, err))
    decreases Left(w, u, attempt), 0
  {
    hide Handle, Attempts, Resolve, Excused, HandlerError;
    if attempt + 1 < Tries(w, u) && u.onRetry.Some? {
      var g := Handle(w, d, u.id, false, u.onRetry.value, st);
      match g.out
      case Fail(e) => StatesReason(w, st.tick, Retry(w, d, u, st, attempt, err));
      case Ok(verdict) =>
        if IsTruthy(verdict) {
          AttemptsExcused(w, d, u, g.st, attempt + 1, err);
          Later(w, st.tick, g.st.tick, Attempts(w, d, u, g.st, attempt + 1, err));
        } else {
          ResolveStates(w, d, u, g.st, RetryVetoed, err);
          StatesReason(w, st.tick, Resolve(w, d, u, g.st, RetryVetoed, err));
        }
    } else {
      AttemptsExcused(w, d, u, st, attempt + 1, err);
    }
  }

  lemma StatesReason(w: World, from: nat, r: Result)
    requires r.out.Fail? ==> As(r.out.err).Some?
    ensures Excused(w, from, r)
  {
  }

  /** A veto, an exhaustion and a failed handler always carry a reason. */
  lemma ResolveStates(w: World, d: nat, u: Unit, st: State, base: Reason, cause: Err)
    ensures var r := Resolve(w, d, u, st, base, cause); r.out.Fail? ==> As(r.out.err).Some?
  {
  }

  // ----- Read off the history -----

  /** From `k` on: no reset; before it one, unless it is the beginning. */
  ghost predicate LastReset(es: seq<Event>, d: nat, k: nat) {
    && k <= |es| && (k == 0 || Resets(es[k - 1], d))
    && forall j :: k <= j < |es| ==> !Resets(es[j], d)
  }

  /** The open stamps stand at these places, in order, and no other stamp does. */
  ghost predicate StandAt(es: seq<Event>, d: nat, open: seq<Reason>, k: nat, at: seq<nat>) {
    && LastReset(es, d, k) && |at| == |open|
    && (forall i :: 0 <= i < |at| ==> k <= at[i] < |es| && es[at[i]] == Stamped(d, open[i]))
    && (forall i, j :: 0 <= i < j < |at| ==> at[i] < at[j])
    && (forall j :: k <= j < |es| && Stamps(es[j], d) ==> j in at)
  }

  lemma {:induction false} OpenStands(es: seq<Event>, d: nat) returns (k: nat, at: seq<nat>)
    ensures StandAt(es, d, Open([], es, d), k, at)
    decreases |es|
  {
    hide StandAt, LastReset;
    if es == [] {
      k, at := 0, [];
      NothingStands(d);
    } else {
      var n := |es| - 1;
      if Resets(es[n], d) {
        k, at := |es|, [];
        NoneAfterReset(es, d);
      } else {
        k, at := OpenStands(es[..n], d);
        OneMoreStands(es, d, Open([], es[..n], d), k, at);
        if Stamps(es[n], d) {
          at := at + [n];
        } else {
          assert Open([], es[..n], d) + [] == Open([], es[..n], d);
        }
      }
    }
  }

  lemma NothingStands(d: nat)
    ensures StandAt([], d, [], 0, [])
  {
  }

  lemma NoneAfterReset(es: seq<Event>, d: nat)
    requires es != [] && Resets(es[|es|-1], d)
    ensures StandAt(es, d, [], |es|, [])
  {
  }

  lemma OneMoreStands(es: seq<Event>, d: nat, open: seq<Reason>, k: nat, at: seq<nat>)
    requires es != [] && !Resets(es[|es|-1], d) && StandAt(es[..|es|-1], d, open, k, at)
    ensures var e := es[|es|-1];
            if Stamps(e, d) then StandAt(es, d, open + [e.reason], k, at + [|es|-1]) else StandAt(es, d, open, k, at)
  {
    var n := |es| - 1;
    var before := es[..n];
    assert forall j :: 0 <= j < n ==> before[j] == es[j];
    assert forall i :: 0 <= i < |at| ==> es[at[i]] == before[at[i]];
    assert LastReset(es, d, k);
    if Stamps(es[n], d) {
      var more := at + [n];
      assert forall j :: j in at ==> j in more;
      assert more[|at|] == n;
    }
  }

  /**
   The reason of every failure.  Let `k` follow the last attempt that began, or failure that was absorbed or replaced,
   at the dispatch's depth.  An error that carries no reason has no stamp from `k` on, and is a pause or came while the
   context was cancelled or cut a wait.  Any other has: the first one is the failure's own, each further one is a failed
   handler's, and the last one is the reason the error carries.  So where no handler failed there is exactly one: no
   veto and no exhaustion, of this unit or of any it is nested in, stamps a failure again.
   */
  lemma ReasonIsStampedOnce(w: World, d: nat, u: Unit, st: State) returns (k: nat, first: nat, last: nat)
    requires Dispatched(w, d, u, st).out.Fail?
    ensures var es, err := ExecutorHalts.Events(w, d, u, st), Dispatched(w, d, u, st).out.err;
            && LastReset(es, d, k)
            && (As(err).None? ==>
                 && (forall j :: k <= j < |es| ==> !Stamps(es[j], d))
                 && (IsPaused(err) || CutOff(w, st.tick, Dispatched(w, d, u, st).st.tick)))
            && (As(err).Some? ==>
                 && k <= first <= last < |es| && Stamps(es[first], d) && es[last] == Stamped(d, FailureReason(err))
                 && (forall j :: k <= j < |es| && Stamps(es[j], d) ==> first <= j <= last)
                 && (forall j :: first < j < |es| && Stamps(es[j], d) ==> es[j] == Stamped(d, HandlerFailed))
                 && (first == last || FailureReason(err) == HandlerFailed))
  {
    hide Dispatched, StandAt, LastReset, IsPaused, CutOff;
    DispatchedStamps(w, d, u, st);
    DispatchedExcused(w, d, u, st);
    var es, err := ExecutorHalts.Events(w, d, u, st), Dispatched(w, d, u, st).out.err;
    var at;
    k, at := OpenStands(es, d);
    first, last := 0, 0;
    Placed(es, d, Open([], es, d), k, at);
    if As(err).None? {
      NoStamp(es, d, k);
    } else {
      first, last := at[0], at[|at|-1];
      FirstAndLast(es, d, Open([], es, d), k, at);
    }
  }

  lemma Placed(es: seq<Event>, d: nat, open: seq<Reason>, k: nat, at: seq<nat>)
    requires StandAt(es, d, open, k, at)
    ensures LastReset(es, d, k) && |at| == |open|
  {
  }

  lemma NoStamp(es: seq<Event>, d: nat, k: nat)
    requires StandAt(es, d, [], k, [])
    ensures forall j :: k <= j < |es| ==> !Stamps(es[j], d)
  {
  }

  lemma FirstAndLast(es: seq<Event>, d: nat, open: seq<Reason>, k: nat, at: seq<nat>)
    requires StandAt(es, d, open, k, at) && open != []
    requires forall i :: 1 <= i < |open| ==> open[i] == HandlerFailed
    ensures |at| == |open| && k <= at[0] <= at[|at|-1] < |es|
    ensures Stamps(es[at[0]], d) && es[at[|at|-1]] == Stamped(d, open[|open|-1])
    ensures forall j :: k <= j < |es| && Stamps(es[j], d) ==> at[0] <= j <= at[|at|-1]
    ensures forall j :: at[0] < j < |es| && Stamps(es[j], d) ==> es[j] == Stamped(d, HandlerFailed)
    ensures at[0] == at[|at|-1] || open[|open|-1] == HandlerFailed
  {
    var n := |at|;
    forall j | k <= j < |es| && Stamps(es[j], d)
      ensures at[0] <= j <= at[n-1] && (j > at[0] ==> es[j] == Stamped(d, HandlerFailed))
    {
      var i :| 0 <= i < n && at[i] == j;
    }
  }
}
