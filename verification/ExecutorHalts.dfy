/**
 How pauses, hard failures, operator stops and failure reasons travel through nested dispatches, read off the history.
 A stretch of history is summed up by `Sum`; sums of consecutive stretches combine.
 */
module ExecutorHalts {
  import opened Options
  import opened RunStatus
  import opened Failure
  import opened Recovery
  import opened Executor

  /** What matters of a stretch of history, seen from handler depth `d`. */
  datatype Summary = Summary(
    crash: bool,              // an assertion failed
    pause: bool,              // a pause was raised, at any depth
    lost: bool,               // an assertion failed after a pause
    hard: bool,               // a hard failure was raised at depth d itself
    stop: bool,               // an operator stop was raised at depth d itself
    work: bool,               // an attempt, an action or a handler ran
    clean: bool,              // no work followed a pause, or a hard failure at depth d
    stopClean: bool,          // no work followed an operator stop raised at depth d
    within: bool)             // every event is at depth d or deeper

  const NOTHING := Summary(false, false, false, false, false, false, true, true, true)

  function Combine(a: Summary, b: Summary): Summary {
    Summary(a.crash || b.crash, a.pause || b.pause, a.lost || b.lost || (a.pause && b.crash),
            a.hard || b.hard, a.stop || b.stop, a.work || b.work,
            a.clean && b.clean && !((a.pause || a.hard) && b.work),
            a.stopClean && b.stopClean && !(a.stop && b.work),
            a.within && b.within)
  }

  function One(e: Event, d: nat): Summary {
    Summary(e.Crashed?, e.Halted? && e.kind.PauseHalt?, false, e.Halted? && e.kind.HardHalt? && e.depth == d,
            e.Halted? && e.kind.StopHalt? && e.depth == d, e.Began? || e.Asked? || e.Acted?, true, true,
            e.depth >= d)
  }

  function Sum(es: seq<Event>, d: nat): Summary {
    if es == [] then NOTHING else Combine(Sum(es[..|es|-1], d), One(es[|es|-1], d))
  }

  lemma {:induction false} SumConcat(a: seq<Event>, b: seq<Event>, d: nat)
    ensures Sum(a + b, d) == Combine(Sum(a, d), Sum(b, d))
    decreases |b|
  {
    if b == [] {
      assert a + b == a;
    } else {
      var n := |b| - 1;
      assert (a + b)[..|a + b| - 1] == a + b[..n];
      SumConcat(a, b[..n], d);
    }
  }

  /** Seen from the caller's depth, a stretch that happened inside a handler has no hard failure. */
  lemma {:induction false} Deeper(es: seq<Event>, d: nat)
    requires Sum(es, d + 1).within
    ensures var s, s' := Sum(es, d), Sum(es, d + 1);
            s.crash == s'.crash && s.pause == s'.pause && s.lost == s'.lost && s.work == s'.work
            && (s'.clean ==> s.clean) && !s.hard && !s.stop && s.within
    decreases |es|
  {
    if es != [] {
      Deeper(es[..|es|-1], d);
    }
  }

  /** What happened from `a` to `b`. */
  function Since(a: State, b: State, d: nat): Summary
    requires a.log <= b.log
  {
    Sum(b.log[|a.log|..], d)
  }

  lemma SinceSame(a: State, b: State, d: nat)
    requires a.log == b.log
    ensures Since(a, b, d) == NOTHING
  {
  }

  lemma SinceLogged(a: State, b: State, events: seq<Event>, d: nat)
    requires a.log <= b.log
    ensures Since(a, Log(b, events), d) == Combine(Since(a, b, d), Sum(events, d))
  {
    assert (b.log + events)[|a.log|..] == b.log[|a.log|..] + events;
    SumConcat(b.log[|a.log|..], events, d);
  }

  lemma SinceChain(a: State, b: State, c: State, d: nat)
    requires a.log <= b.log <= c.log
    ensures Since(a, c, d) == Combine(Since(a, b, d), Since(b, c, d))
  {
    assert c.log[|a.log|..] == b.log[|a.log|..] + c.log[|b.log|..];
    SumConcat(b.log[|a.log|..], c.log[|b.log|..], d);
  }

  lemma SumOne(e: Event, d: nat)
    ensures Sum([e], d) == One(e, d)
  {
    assert [e][..0] == [];
  }

  lemma SumTwo(e: Event, f: Event, d: nat)
    ensures Sum([e, f], d) == Combine(One(e, d), One(f, d))
  {
    SumOne(e, d);
    assert [e, f][..1] == [e];
  }

  lemma SumDropped(d: nat, prior: Option<Stack>)
    ensures Sum(Dropped(d, prior), d) == NOTHING
    ensures Sum(Dropped(d, prior) + [Stamped(d, PreflightFailed)], d) == One(Stamped(d, PreflightFailed), d)
  {
    SumConcat(Dropped(d, prior), [Stamped(d, PreflightFailed)], d);
    SumOne(Stamped(d, PreflightFailed), d);
    if prior.Some? {
      SumOne(Lost(d, Undos(prior.value.entries)), d);
    }
  }

  /** The error matches the history: it is a pause iff one was raised, hard iff a hard failure was raised here. */
  ghost predicate Matches(s: Summary, out: Outcome) {
    && s.clean
    && s.pause == (out.Fail? && IsPaused(out.err))
    && s.hard == (out.Fail? && IsHard(out.err))
  }

  ghost predicate Told(s: Summary, out: Outcome) {
    s.within && (!s.lost ==> Matches(s, out)) && (out.Panic? ==> s.crash)
  }

  // ----- Every dispatch -----

  lemma {:induction false} DispatchedTells(w: World, d: nat, u: Unit, st: State)
    ensures var r := Dispatched(w, d, u, st); Told(Since(st, r.st, d), r.out)
    decreases u, 2 + Left(w, u, 0), 0
  {
    AttemptsTell(w, d, u, st, 0, Nothing);
  }

  lemma PendingTells(d: nat, st: State, value: Value)
    ensures var r := ApplyPending(d, st, value); st.log <= r.st.log && Told(Since(st, r.st, d), r.out)
  {
    SinceSame(st, st, d);
    match st.pending
    case Stop =>
      SinceLogged(st, st, [Stamped(d, st.reason), Halted(d, HardHalt)], d);
      SumTwo(Stamped(d, st.reason), Halted(d, HardHalt), d);
      assert !Is(Plain, ErrPaused);
    case Pause =>
      SinceLogged(st, st, [Halted(d, PauseHalt)], d);
      SumOne(Halted(d, PauseHalt), d);
    case Continue =>
  }

  /** The error is one that another attempt or a handler may answer. */
  predicate Ordinary(e: Err) {
    !IsPaused(e) && !IsHard(e)
  }

  lemma {:induction false} AttemptsTell(w: World, d: nat, u: Unit, st: State, attempt: nat, last: Err)
    requires Ordinary(last)
    ensures var r := Attempts(w, d, u, st, attempt, last); Told(Since(st, r.st, d), r.out)
    decreases u, 1 + Left(w, u, attempt), 1
  {
    hide Sum, Combine, Matches, IsPaused, IsHard, Execute, Retry, Resolve, ApplyPending;
    if attempt >= Tries(w, u) {
      ResolveTells(w, d, u, st, ActionFailed, last);
    } else if attempt > 0 && w.cut(st.tick) {
      CancelTells(d, u.id, st, st.(tick := st.tick + 1));
    } else {
      var began := Log(st.(tick := st.tick + 1), [Began(d, u.id)]);
      ExecuteTells(w, d, u, began);
      var r := Execute(w, d, u, began);
      match r.out
      case Ok(value) =>
        PendingTells(d, r.st, value);
        var p := ApplyPending(d, r.st, value);
        BeginThen(st, began, r.st, p.st, d, u.id, r.out, p.out);
      case Panic => BeginEnd(st, began, r.st, d, u.id, r.out);
      case Fail(err) =>
        var asked := r.st.(tick := r.st.tick + 1);
        if IsPaused(err) || w.cancelled(r.st.tick) || IsHard(err) {
          BeginEnd(st, began, asked, d, u.id, r.out);
        } else {
          RetryTells(w, d, u, asked, attempt, err);
          var p := Retry(w, d, u, asked, attempt, err);
          BeginThen(st, began, asked, p.st, d, u.id, r.out, p.out);
        }
    }
  }

  lemma CancelTells(d: nat, unit: nat, st: State, t: State)
    requires t.log == st.log
    ensures Told(Since(st, Log(t, [Cleared(d, unit)]), d), Fail(Cancelled))
  {
    SinceSame(st, t, d);
    SinceLogged(st, t, [Cleared(d, unit)], d);
    SumOne(Cleared(d, unit), d);
  }

  /** An attempt whose result is the loop's result. */
  lemma BeginEnd(st: State, began: State, t: State, d: nat, unit: nat, out: Outcome)
    requires began.log == st.log + [Began(d, unit)] && began.log <= t.log
    requires Told(Since(began, t, d), out)
    ensures st.log <= t.log && Told(Since(st, t, d), out)
  {
    SinceChain(st, began, t, d);
    SinceSame(st, st, d);
    SinceLogged(st, st, [Began(d, unit)], d);
    SumOne(Began(d, unit), d);
    assert Since(st, began, d) == One(Began(d, unit), d);
  }

  /** An attempt that did not end the loop, then the rest of it. */
  lemma BeginThen(st: State, began: State, mid: State, t: State, d: nat, unit: nat, out: Outcome, fin: Outcome)
    requires began.log == st.log + [Began(d, unit)] && began.log <= mid.log <= t.log
    requires Told(Since(began, mid, d), out) && Told(Since(mid, t, d), fin)
    requires out.Ok? || (out.Fail? && Ordinary(out.err))
    ensures st.log <= t.log && Told(Since(st, t, d), fin)
  {
    SinceChain(began, mid, t, d);
    ThenTells(Since(began, mid, d), out, Since(mid, t, d), fin);
    BeginEnd(st, began, t, d, unit, fin);
  }

  lemma ThenTells(a: Summary, out: Outcome, b: Summary, fin: Outcome)
    requires Told(a, out) && Told(b, fin)
    requires out.Ok? || (out.Fail? && Ordinary(out.err))
    ensures Told(Combine(a, b), fin)
  {
  }

  lemma {:induction false} RetryTells(w: World, d: nat, u: Unit, st: State, attempt: nat, err: Err)
    requires attempt < Tries(w, u) && Ordinary(err)
    ensures var r := Retry(w, d, u, st, attempt, err); Told(Since(st, r.st, d), r.out)
    decreases u, 1 + Left(w, u, attempt), 0
  {
    hide Sum, Combine, Matches, IsPaused, IsHard, Handle, Attempts, Resolve;
    if attempt + 1 < Tries(w, u) && u.onRetry.Some? {
      HandleTells(w, d, u.id, false, u.onRetry.value, st);
      var g := Handle(w, d, u.id, false, u.onRetry.value, st);
      match g.out
      case Fail(e) => HandlerFailedTells(st, g.st, d, e);
      case Ok(verdict) =>
        if IsTruthy(verdict) {
          AttemptsTell(w, d, u, g.st, attempt + 1, err);
        } else {
          ResolveTells(w, d, u, g.st, RetryVetoed, err);
        }
        var r := Retry(w, d, u, st, attempt, err);
        AfterHandler(st, g.st, r.st, d, g.out, r.out);
    } else {
      AttemptsTell(w, d, u, st, attempt + 1, err);
    }
  }

  /** What a handler leaves in the caller's view. */
  ghost predicate HandlerTold(s: Summary, out: Outcome) {
    && s.within && !s.hard && !s.stop
    && (!s.lost ==> s.clean && s.pause == (out.Fail? && IsPaused(out.err)))
  }

  lemma HandlerFailedTells(st: State, g: State, d: nat, e: Err)
    requires st.log <= g.log && HandlerTold(Since(st, g, d), Fail(e))
    ensures var t := Log(g, [Stamped(d, HandlerFailed)]);
            st.log <= t.log && Told(Since(st, t, d), Fail(HandlerError(e)))
  {
    SinceLogged(st, g, [Stamped(d, HandlerFailed)], d);
    SumOne(Stamped(d, HandlerFailed), d);
  }

  lemma AfterHandler(st: State, g: State, t: State, d: nat, out: Outcome, fin: Outcome)
    requires st.log <= g.log <= t.log && HandlerTold(Since(st, g, d), out) && out.Ok?
    requires Told(Since(g, t, d), fin)
    ensures Told(Since(st, t, d), fin)
  {
    SinceChain(st, g, t, d);
  }

  lemma {:induction false} ResolveTells(w: World, d: nat, u: Unit, st: State, base: Reason, cause: Err)
    requires Ordinary(cause)
    ensures var r := Resolve(w, d, u, st, base, cause); Told(Since(st, r.st, d), r.out)
    decreases u, 0, 2
  {
    hide Sum, Combine, Matches, IsPaused, IsHard, Handle, Stands;
    StandsTells(d, st, base, cause);
    if u.onError.Some? {
      HandleTells(w, d, u.id, true, u.onError.value, st);
      var h := Handle(w, d, u.id, true, u.onError.value, st);
      match h.out
      case Fail(e) => HandlerFailedTells(st, h.st, d, e);
      case Ok(verdict) =>
        if IsTruthy(verdict) {
          AbsorbedTells(d, u.id, st, h.st, h.out);
        } else {
          StandsTells(d, h.st, base, cause);
          AfterHandler(st, h.st, Stands(d, h.st, base, cause).st, d, h.out, Stands(d, h.st, base, cause).out);
        }
    }
  }

  lemma AbsorbedTells(d: nat, unit: nat, st: State, h: State, out: Outcome)
    requires st.log <= h.log && HandlerTold(Since(st, h, d), out) && out.Ok?
    ensures Told(Since(st, Log(h, [Cleared(d, unit)]), d), out)
  {
    SinceLogged(st, h, [Cleared(d, unit)], d);
    SumOne(Cleared(d, unit), d);
  }

  lemma StandsTells(d: nat, st: State, base: Reason, cause: Err)
    requires Ordinary(cause)
    ensures var r := Stands(d, st, base, cause); st.log <= r.st.log && Told(Since(st, r.st, d), r.out)
  {
    SinceSame(st, st, d);
    SinceLogged(st, st, [Stamped(d, base)], d);
    SumOne(Stamped(d, base), d);
  }

  lemma {:induction false} HandleTells(w: World, d: nat, unit: nat, rescue: bool, handler: Unit, st: State)
    ensures var r := Handle(w, d, unit, rescue, handler, st); HandlerTold(Since(st, r.st, d), r.out)
    decreases handler, 1, 0
  {
    hide Sum, Execute, Matches, IsPaused, IsHard;
    var asked := Log(st.(entries := []), [Asked(d, unit, rescue)]);
    ExecuteTells(w, d + 1, handler, asked);
    var r, es := HandleIs(w, d, unit, rescue, handler, st);
    AskedTells(st, asked, r.st, d, unit, rescue, r.out);
    AfterSame(st, r.st, Handle(w, d, unit, rescue, handler, st).st, es, d);
  }

  /** Compensations and answers sum up to nothing. */
  lemma {:induction false} SumAfterwards(es: seq<Event>, d: nat)
    requires forall i :: 0 <= i < |es| ==> Afterwards(es[i], d)
    ensures Sum(es, d) == NOTHING
    decreases |es|
  {
    if es != [] {
      SumAfterwards(es[..|es|-1], d);
    }
  }

  lemma AfterSame(st: State, r: State, h: State, es: seq<Event>, d: nat)
    requires st.log <= r.log && h.log == r.log + es && forall i :: 0 <= i < |es| ==> Afterwards(es[i], d)
    ensures st.log <= h.log && Since(st, h, d) == Since(st, r, d)
  {
    SumAfterwards(es, d);
    SinceLogged(st, r, es, d);
    assert Since(st, h, d) == Since(st, Log(r, es), d);
  }

  lemma AskedTells(st: State, asked: State, t: State, d: nat, unit: nat, rescue: bool, out: Outcome)
    requires asked.log == st.log + [Asked(d, unit, rescue)] && asked.log <= t.log
    requires Told(Since(asked, t, d + 1), out)
    ensures st.log <= t.log
    ensures HandlerTold(Since(st, t, d), if out.Panic? then Fail(Plain) else out)
  {
    Deeper(t.log[|asked.log|..], d);
    SinceChain(st, asked, t, d);
    SinceSame(st, st, d);
    SinceLogged(st, st, [Asked(d, unit, rescue)], d);
    SumOne(Asked(d, unit, rescue), d);
    assert Since(st, asked, d) == One(Asked(d, unit, rescue), d);
  }

  lemma {:induction false} ExecuteTells(w: World, d: nat, u: Unit, st: State)
    ensures var r := Execute(w, d, u, st); Told(Since(st, r.st, d), r.out)
    decreases u, 0, 1
  {
    hide Sum, Node, Subgraph;
    var t, s := st.tick, st.(tick := st.tick + 1);
    if w.cancelled(t) {
      SinceSame(st, Push(s, Bare), d);
    } else if ControlPoint(w, d, t, s).out.Fail? {
      SinceSame(st, s, d);
      SinceLogged(st, s, [Halted(d, PauseHalt)], d);
      SinceLogged(st, s, [Halted(d, StopHalt)], d);
      SumOne(Halted(d, PauseHalt), d);
      SumOne(Halted(d, StopHalt), d);
    } else if u.body.Leaf? {
      NodeTells(w, d, t, u, s);
    } else {
      SubgraphTells(w, d, t, u, s);
    }
  }

  lemma FrameworkTells(w: World, d: nat, st: State, unit: nat)
    ensures var r := FrameworkFailure(w, d, st, unit); st.log <= r.st.log && Told(Since(st, r.st, d), r.out)
  {
    hide Sum;
    SinceSame(st, st, d);
    SinceLogged(st, st, [Crashed(d)], d);
    SinceLogged(st, st, [Stamped(d, FrameworkFailed), Halted(d, HardHalt)], d);
    SumOne(Crashed(d), d);
    SumTwo(Stamped(d, FrameworkFailed), Halted(d, HardHalt), d);
  }

  lemma RaisedSums(d: nat, e: Err)
    ensures var s := Sum(Raised(d, e), d);
            && !s.crash && !s.work && s.clean && s.stopClean && s.within
            && s.pause == IsPaused(e) && s.hard == IsHard(e) && s.stop == (IsStopped(e) && !IsPaused(e)) && !s.lost
  {
    hide Sum, IsPaused, IsHard, IsStopped, As;
    var a := if As(e).Some? then [Stamped(d, As(e).value.reason)] else [];
    var b := if IsPaused(e) then [Halted(d, PauseHalt)] else [];
    var c := if IsHard(e) then [Halted(d, HardHalt)] else [];
    var f := if IsStopped(e) && !IsPaused(e) then [Halted(d, StopHalt)] else [];
    if As(e).Some? { SumOne(Stamped(d, As(e).value.reason), d); } else { SumNone(d); }
    assert Sum(a, d) == NOTHING;
    SumMaybe(a, IsPaused(e), Halted(d, PauseHalt), d);
    SumMaybe(a + b, IsHard(e), Halted(d, HardHalt), d);
    SumMaybe(a + b + c, IsStopped(e) && !IsPaused(e), Halted(d, StopHalt), d);
    assert Raised(d, e) == a + b + c + f;
  }

  lemma SumNone(d: nat)
    ensures Sum([], d) == NOTHING
  {
  }

  lemma SumMaybe(es: seq<Event>, b: bool, e: Event, d: nat)
    ensures Sum(es + (if b then [e] else []), d) == if b then Combine(Sum(es, d), One(e, d)) else Sum(es, d)
  {
    if b {
      SumConcat(es, [e], d);
      SumOne(e, d);
    } else {
      assert es + [] == es;
    }
  }

  lemma ActedTells(d: nat, unit: nat, undo: bool, e: Err)
    ensures Told(Sum([Acted(d, unit, false, undo)] + Raised(d, e), d), Fail(Wrap(e)))
  {
    RaisedSums(d, e);
    SumConcat([Acted(d, unit, false, undo)], Raised(d, e), d);
    SumOne(Acted(d, unit, false, undo), d);
  }

  lemma NodeTells(w: World, d: nat, t: nat, u: Unit, s: State)
    ensures var r := Node(w, d, t, u, s); Told(Since(s, r.st, d), r.out)
  {
    hide Sum, Raised, FrameworkFailure;
    SinceSame(s, s, d);
    FrameworkTells(w, d, s, u.id);
    var act := w.act(u.id, t);
    SubmitGrew(w, s, u.id, act.flips);
    SinceLogged(s, Submit(w, s, u.id, act.flips).st, [Crashed(d)], d);
    SumOne(Crashed(d), d);
    SinceLogged(s, s, [Acted(d, u.id, true, act.undo)], d);
    SumOne(Acted(d, u.id, true, act.undo), d);
    if act.verdict.Refused? {
      ActedTells(d, u.id, act.undo, act.verdict.err);
      SinceLogged(s, s, [Acted(d, u.id, false, act.undo)] + Raised(d, act.verdict.err), d);
    }
  }

  lemma {:induction false} SubgraphTells(w: World, d: nat, t: nat, u: Unit, s: State)
    requires u.body.Scope?
    ensures var r := Subgraph(w, d, t, u, s); Told(Since(s, r.st, d), r.out)
    decreases u, 0, 0
  {
    hide Sum, FrameworkFailure, Walk, Leave;
    SinceSame(s, s, d);
    var prior := FindNested(s.entries, u.id);
    if prior.None? || prior.value.failed {
      var adopted := if prior.Some? then prior.value.entries else [];
      var s1 := if prior.Some? then s.(entries := Supersede(s.entries, u.id)) else s;
      if !w.bound(u.id, t) {
        var lost := Log(s1, Dropped(d, prior));
        FrameworkTells(w, d, lost, u.id);
        SinceLogged(s, s1, Dropped(d, prior), d);
        SumDropped(d, prior);
        SinceChain(s, lost, Subgraph(w, d, t, u, s).st, d);
      } else if !w.claims(t) {
        SinceLogged(s, Push(s1, Receipt(u.id, false, Nil, false)),
                    Dropped(d, prior) + [Stamped(d, PreflightFailed)], d);
        SumDropped(d, prior);
      } else {
        var child := Child(s1, adopted);
        WalkTells(w, d, u.body.children, Nil, child);
        var walked := Walk(w, d, u.body.children, Nil, child);
        LeaveTells(w, d, u.id, s1, child, walked);
      }
    }
  }

  lemma LeaveTells(w: World, d: nat, unit: nat, s1: State, child: State, walked: Result)
    requires child.log == s1.log && child.log <= walked.st.log
    requires Told(Since(child, walked.st, d), walked.out)
    ensures var r := Leave(w, d, unit, s1, walked); s1.log <= r.st.log && Told(Since(s1, r.st, d), r.out)
  {
    hide Sum;
    var c := walked.st;
    var s2 := s1.(tick := c.tick, log := c.log);
    assert Since(s1, s2, d) == Since(child, c, d);
    SinceLogged(s1, s2, [Lost(d, Undos(c.entries))], d);
    SumOne(Lost(d, Undos(c.entries)), d);
    SinceLogged(s1, s2, [Lost(d, Undos(c.entries)), Crashed(d)], d);
    SumTwo(Lost(d, Undos(c.entries)), Crashed(d), d);
    var r := Leave(w, d, unit, s1, walked);
    assert r.out.Panic? || r.st.log == s2.log;
  }

  lemma {:induction false} WalkTells(w: World, d: nat, units: seq<Unit>, last: Value, st: State)
    ensures var r := Walk(w, d, units, last, st); Told(Since(st, r.st, d), r.out)
    decreases units, 0, 0
  {
    hide Sum, Combine, Dispatched;
    SinceSame(st, st, d);
    if units != [] {
      DispatchedTells(w, d, units[0], st);
      var r := Dispatched(w, d, units[0], st);
      if r.out.Ok? && !(units[0].body.Leaf? && units[0].body.completes) {
        WalkTells(w, d, units[1..], r.out.value, r.st);
        var rest := Walk(w, d, units[1..], r.out.value, r.st);
        SinceChain(st, r.st, rest.st, d);
        ThenTells(Since(st, r.st, d), r.out, Since(r.st, rest.st, d), rest.out);
      }
    }
  }

  // ----- What the sums mean -----

  predicate IsWork(e: Event) {
    e.Began? || e.Asked? || e.Acted?
  }

  /** Raised here in a way that must reach the root untouched: a pause at any depth, a hard failure at depth d. */
  predicate Ends(e: Event, d: nat) {
    e.Halted? && (e.kind.PauseHalt? || (e.kind.HardHalt? && e.depth == d))
  }

  predicate NoCrash(es: seq<Event>) {
    forall i :: 0 <= i < |es| ==> !es[i].Crashed?
  }

  predicate IsPause(e: Event) {
    e.Halted? && e.kind.PauseHalt?
  }

  ghost predicate Has(es: seq<Event>, e: Event) {
    exists i :: 0 <= i < |es| && es[i] == e
  }

  ghost predicate HasPause(es: seq<Event>) {
    exists i :: 0 <= i < |es| && IsPause(es[i])
  }

  /** An assertion failed behind a pause. */
  ghost predicate PauseLost(es: seq<Event>) {
    exists i, j :: 0 <= i < j < |es| && IsPause(es[i]) && es[j].Crashed?
  }

  lemma {:induction false} CrashMeans(es: seq<Event>, d: nat)
    ensures Sum(es, d).crash == !NoCrash(es)
    decreases |es|
  {
    if es != [] {
      var n := |es| - 1;
      CrashMeans(es[..n], d);
      assert NoCrash(es) == (NoCrash(es[..n]) && !es[n].Crashed?);
    }
  }

  lemma {:induction false} HaltMeans(es: seq<Event>, d: nat)
    ensures Sum(es, d).hard == Has(es, Halted(d, HardHalt)) && Sum(es, d).stop == Has(es, Halted(d, StopHalt))
    decreases |es|
  {
    if es != [] {
      var n := |es| - 1;
      HaltMeans(es[..n], d);
      assert forall i :: 0 <= i < n ==> es[..n][i] == es[i];
    }
  }

  lemma {:induction false} PauseMeans(es: seq<Event>, d: nat)
    ensures Sum(es, d).pause == HasPause(es)
    decreases |es|
  {
    if es != [] {
      var n := |es| - 1;
      PauseMeans(es[..n], d);
      assert forall i :: 0 <= i < n ==> es[..n][i] == es[i];
    }
  }

  lemma {:induction false} LostMeans(es: seq<Event>, d: nat)
    ensures Sum(es, d).lost == PauseLost(es)
    decreases |es|
  {
    if es != [] {
      var n := |es| - 1;
      LostMeans(es[..n], d);
      PauseMeans(es[..n], d);
      assert forall i :: 0 <= i < n ==> es[..n][i] == es[i];
      if PauseLost(es) {
        var i, j :| 0 <= i < j < |es| && IsPause(es[i]) && es[j].Crashed?;
        assert IsPause(es[..n][i]);
        assert j < n ==> es[..n][j].Crashed?;
      }
    }
  }

  lemma {:induction false} CleanMeans(es: seq<Event>, d: nat, i: nat, j: nat)
    requires i < j < |es|
    ensures Sum(es, d).clean && Ends(es[i], d) ==> !IsWork(es[j])
    ensures Sum(es, d).stopClean && es[i] == Halted(d, StopHalt) ==> !IsWork(es[j])
    decreases |es|
  {
    var n := |es| - 1;
    if j < n {
      CleanMeans(es[..n], d, i, j);
    } else {
      PauseMeans(es[..n], d);
      HaltMeans(es[..n], d);
      assert es[..n][i] == es[i];
    }
  }

  // ----- Halts -----

  /** The events of a dispatch. */
  function Events(w: World, d: nat, u: Unit, st: State): seq<Event> {
    Dispatched(w, d, u, st).st.log[|st.log|..]
  }

  /**
   A pause raised anywhere in the dispatch, even inside a handler, and a hard failure raised outside its handlers come
   out of it as such, with no work after them, and only such an event makes the result a pause or a hard failure.
   */
  ghost predicate HaltsComeOut(w: World, d: nat, u: Unit, st: State) {
    var out, es := Dispatched(w, d, u, st).out, Events(w, d, u, st);
    && ((out.Fail? && IsPaused(out.err)) <==> HasPause(es))
    && ((out.Fail? && IsHard(out.err)) <==> Has(es, Halted(d, HardHalt)))
    && (forall i, j :: 0 <= i < j < |es| && Ends(es[i], d) ==> !IsWork(es[j]))
  }

  /** Only an assertion that fails behind a pause can prevent it; what can make one fail there is in `ExecutorPlans`. */
  lemma UnlostHaltsComeOut(w: World, d: nat, u: Unit, st: State)
    requires !PauseLost(Events(w, d, u, st))
    ensures HaltsComeOut(w, d, u, st)
  {
    hide Dispatched;
    DispatchedTells(w, d, u, st);
    var es := Events(w, d, u, st);
    LostMeans(es, d);
    PauseMeans(es, d);
    HaltMeans(es, d);
    forall i, j | 0 <= i < j < |es| && Ends(es[i], d) ensures !IsWork(es[j]) {
      CleanMeans(es, d, i, j);
    }
  }

  // ----- Operator stops -----

  /** No unit of the tree can answer a failure: one attempt each and no OnError. */
  predicate StopSafe(w: World, u: Unit) {
    Tries(w, u) <= 1 && u.onError.None? &&
    (u.body.Scope? ==> forall c :: c in u.body.children ==> StopSafe(w, c))
  }

  /** An error that ends the run as an operator stop. */
  predicate StopsRun(e: Err) {
    IsStopped(e) && !IsPaused(e)
  }

  ghost predicate StopTold(s: Summary, out: Outcome) {
    s.stop == (out.Fail? && StopsRun(out.err)) && s.stopClean
  }

  lemma {:induction false} DispatchedStops(w: World, d: nat, u: Unit, st: State)
    requires StopSafe(w, u)
    ensures var r := Dispatched(w, d, u, st); StopTold(Since(st, r.st, d), r.out)
    decreases u, 2
  {
    hide Sum, Execute;
    SinceSame(st, st, d);
    if Tries(w, u) <= 0 {
      SinceLogged(st, st, [Stamped(d, ActionFailed)], d);
      SumOne(Stamped(d, ActionFailed), d);
      assert !IsStopped(Nothing) && As(Nothing).None? && !IsPaused(Nothing);
      assert Attempts(w, d, u, st, 0, Nothing) == Resolve(w, d, u, st, ActionFailed, Nothing);
      assert Resolve(w, d, u, st, ActionFailed, Nothing) == Stands(d, st, ActionFailed, Nothing);
    } else {
      var began := Log(st.(tick := st.tick + 1), [Began(d, u.id)]);
      SinceLogged(st, st, [Began(d, u.id)], d);
      SumOne(Began(d, u.id), d);
      assert Since(st, began, d) == One(Began(d, u.id), d);
      ExecuteStops(w, d, u, began);
      var r := Execute(w, d, u, began);
      SinceChain(st, began, r.st, d);
      match r.out
      case Ok(value) => PendingStops(d, st, r.st, value);
      case Panic =>
      case Fail(err) =>
        var asked := r.st.(tick := r.st.tick + 1);
        OneAttempt(w, d, u, st);
        StandsStop(d, st, asked, err);
    }
  }

  /** A single failed attempt: the result is the attempt's error, possibly stamped. */
  lemma OneAttempt(w: World, d: nat, u: Unit, st: State)
    requires Tries(w, u) == 1 && u.onError.None?
    requires Execute(w, d, u, Log(st.(tick := st.tick + 1), [Began(d, u.id)])).out.Fail?
    ensures var r := Execute(w, d, u, Log(st.(tick := st.tick + 1), [Began(d, u.id)]));
            var t, asked := Dispatched(w, d, u, st), r.st.(tick := r.st.tick + 1);
            t == Result(r.out, asked) || t == Stands(d, asked, ActionFailed, r.out.err)
  {
    hide Execute, IsPaused, IsHard, Stands;
    var r := Execute(w, d, u, Log(st.(tick := st.tick + 1), [Began(d, u.id)]));
    var err, asked := r.out.err, r.st.(tick := r.st.tick + 1);
    if !IsPaused(err) && !w.cancelled(r.st.tick) && !IsHard(err) {
      assert Attempts(w, d, u, st, 0, Nothing) == Retry(w, d, u, asked, 0, err);
      assert Retry(w, d, u, asked, 0, err) == Attempts(w, d, u, asked, 1, err);
      assert Attempts(w, d, u, asked, 1, err) == Resolve(w, d, u, asked, ActionFailed, err);
      assert Resolve(w, d, u, asked, ActionFailed, err) == Stands(d, asked, ActionFailed, err);
    }
  }

  lemma StandsStop(d: nat, st: State, t: State, err: Err)
    requires st.log <= t.log && StopTold(Since(st, t, d), Fail(err))
    ensures var r := Stands(d, t, ActionFailed, err); st.log <= r.st.log && StopTold(Since(st, r.st, d), r.out)
    ensures forall v: State :: v.log == t.log ==> Since(st, v, d) == Since(st, t, d)
  {
    SinceLogged(st, t, [Stamped(d, ActionFailed)], d);
    SumOne(Stamped(d, ActionFailed), d);
  }

  lemma PendingStops(d: nat, st: State, t: State, value: Value)
    requires st.log <= t.log && StopTold(Since(st, t, d), Ok(value))
    ensures var r := ApplyPending(d, t, value); st.log <= r.st.log && StopTold(Since(st, r.st, d), r.out)
  {
    hide Sum, Since, As;
    SinceLogged(st, t, [Stamped(d, t.reason), Halted(d, HardHalt)], d);
    SumTwo(Stamped(d, t.reason), Halted(d, HardHalt), d);
    SinceLogged(st, t, [Halted(d, PauseHalt)], d);
    SumOne(Halted(d, PauseHalt), d);
    assert !Is(Plain, ErrStopped) && !Is(ErrPaused, ErrStopped);
  }

  lemma {:induction false} ExecuteStops(w: World, d: nat, u: Unit, st: State)
    requires StopSafe(w, u)
    ensures var r := Execute(w, d, u, st); StopTold(Since(st, r.st, d), r.out)
    decreases u, 1
  {
    hide Sum, Walk, Raised, Undos, FindReceipt, FindNested, Supersede;
    var t, s := st.tick, st.(tick := st.tick + 1);
    SinceSame(st, s, d);
    if w.cancelled(t) {
      assert !Is(Cancelled, ErrStopped);
    } else if ControlPoint(w, d, t, s).out.Fail? {
      SinceLogged(st, s, [Halted(d, PauseHalt)], d);
      SinceLogged(st, s, [Halted(d, StopHalt)], d);
      SumOne(Halted(d, PauseHalt), d);
      SumOne(Halted(d, StopHalt), d);
      assert !Is(ErrPaused, ErrStopped);
    } else if u.body.Leaf? {
      NodeStops(w, d, t, u, s);
    } else {
      SubgraphStops(w, d, t, u, s);
    }
  }

  lemma FrameworkStops(w: World, d: nat, st: State, unit: nat)
    ensures var r := FrameworkFailure(w, d, st, unit); st.log <= r.st.log && StopTold(Since(st, r.st, d), r.out)
  {
    hide Sum;
    SinceSame(st, st, d);
    SinceLogged(st, st, [Crashed(d)], d);
    SinceLogged(st, st, [Stamped(d, FrameworkFailed), Halted(d, HardHalt)], d);
    SumOne(Crashed(d), d);
    SumTwo(Stamped(d, FrameworkFailed), Halted(d, HardHalt), d);
    assert !Is(Plain, ErrStopped);
  }

  lemma NodeStops(w: World, d: nat, t: nat, u: Unit, s: State)
    ensures var r := Node(w, d, t, u, s); StopTold(Since(s, r.st, d), r.out)
  {
    hide Sum, Raised, FrameworkFailure, FindReceipt, Transition, Submit;
    SinceSame(s, s, d);
    FrameworkStops(w, d, s, u.id);
    var act := w.act(u.id, t);
    SubmitGrew(w, s, u.id, act.flips);
    SinceLogged(s, Submit(w, s, u.id, act.flips).st, [Crashed(d)], d);
    SumOne(Crashed(d), d);
    SinceLogged(s, s, [Acted(d, u.id, true, act.undo)], d);
    SumOne(Acted(d, u.id, true, act.undo), d);
    if act.verdict.Refused? {
      RaisedSums(d, act.verdict.err);
      SumConcat([Acted(d, u.id, false, act.undo)], Raised(d, act.verdict.err), d);
      SumOne(Acted(d, u.id, false, act.undo), d);
      SinceLogged(s, s, [Acted(d, u.id, false, act.undo)] + Raised(d, act.verdict.err), d);
    }
  }

  lemma {:induction false} SubgraphStops(w: World, d: nat, t: nat, u: Unit, s: State)
    requires u.body.Scope? && StopSafe(w, u)
    ensures var r := Subgraph(w, d, t, u, s); StopTold(Since(s, r.st, d), r.out)
    decreases u, 0
  {
    hide Sum, FrameworkFailure, Walk, Leave;
    SinceSame(s, s, d);
    var prior := FindNested(s.entries, u.id);
    if prior.None? || prior.value.failed {
      var adopted := if prior.Some? then prior.value.entries else [];
      var s1 := if prior.Some? then s.(entries := Supersede(s.entries, u.id)) else s;
      if !w.bound(u.id, t) {
        var lost := Log(s1, Dropped(d, prior));
        FrameworkStops(w, d, lost, u.id);
        SinceLogged(s, s1, Dropped(d, prior), d);
        SumDropped(d, prior);
        SinceChain(s, lost, Subgraph(w, d, t, u, s).st, d);
      } else if !w.claims(t) {
        SinceLogged(s, Push(s1, Receipt(u.id, false, Nil, false)),
                    Dropped(d, prior) + [Stamped(d, PreflightFailed)], d);
        SumDropped(d, prior);
        assert !Is(Plain, ErrStopped);
      } else {
        var child := Child(s1, adopted);
        WalkStops(w, d, u.body.children, Nil, child);
        LeaveStops(w, d, u.id, s1, child, Walk(w, d, u.body.children, Nil, child));
      }
    }
  }

  lemma LeaveStops(w: World, d: nat, unit: nat, s1: State, child: State, walked: Result)
    requires child.log == s1.log && child.log <= walked.st.log
    requires StopTold(Since(child, walked.st, d), walked.out)
    ensures var r := Leave(w, d, unit, s1, walked); s1.log <= r.st.log && StopTold(Since(s1, r.st, d), r.out)
  {
    hide Sum;
    var c := walked.st;
    var s2 := s1.(tick := c.tick, log := c.log);
    assert Since(s1, s2, d) == Since(child, c, d);
    SinceLogged(s1, s2, [Lost(d, Undos(c.entries)), Crashed(d)], d);
    SumTwo(Lost(d, Undos(c.entries)), Crashed(d), d);
    SinceLogged(s1, s2, [Lost(d, Undos(c.entries))], d);
    SumOne(Lost(d, Undos(c.entries)), d);
    var r := Leave(w, d, unit, s1, walked);
    assert r.out.Panic? || r.st.log == s2.log;
  }

  lemma {:induction false} WalkStops(w: World, d: nat, units: seq<Unit>, last: Value, st: State)
    requires forall c :: c in units ==> StopSafe(w, c)
    ensures var r := Walk(w, d, units, last, st); StopTold(Since(st, r.st, d), r.out)
    decreases units, 0
  {
    hide Sum, Combine, Dispatched;
    SinceSame(st, st, d);
    if units != [] {
      DispatchedStops(w, d, units[0], st);
      var r := Dispatched(w, d, units[0], st);
      if r.out.Ok? && !(units[0].body.Leaf? && units[0].body.completes) {
        WalkStops(w, d, units[1..], r.out.value, r.st);
        var rest := Walk(w, d, units[1..], r.out.value, r.st);
        SinceChain(st, r.st, rest.st, d);
        StopThen(Since(st, r.st, d), r.out, Since(r.st, rest.st, d), rest.out);
      }
    }
  }

  lemma StopThen(a: Summary, out: Outcome, b: Summary, fin: Outcome)
    requires StopTold(a, out) && StopTold(b, fin) && out.Ok?
    ensures StopTold(Combine(a, b), fin)
  {
  }

  /** In a tree where nothing can answer a failure, every drained stop comes out as ErrStopped and ends the work. */
  lemma StopReachesTheRoot(w: World, d: nat, u: Unit, st: State)
    requires StopSafe(w, u)
    ensures var out, es := Dispatched(w, d, u, st).out, Events(w, d, u, st);
            && ((out.Fail? && StopsRun(out.err)) <==> Has(es, Halted(d, StopHalt)))
            && (forall i, j :: 0 <= i < j < |es| && es[i] == Halted(d, StopHalt) ==> !IsWork(es[j]))
  {
    hide Dispatched;
    DispatchedStops(w, d, u, st);
    var es := Events(w, d, u, st);
    HaltMeans(es, d);
    forall i, j | 0 <= i < j < |es| && es[i] == Halted(d, StopHalt) ensures !IsWork(es[j]) {
      CleanMeans(es, d, i, j);
    }
  }
}
