/** Which trees honour every operator stop: the exact condition, over all worlds. */
module ExecutorTreeStops {
  import opened Options
  import opened RunStatus
  import opened Failure
  import opened Recovery
  import opened Executor
  import opened ExecutorHalts
  import opened ExecutorPlans
  import opened ExecutorCrash
  import opened ExecutorLocality
  import opened ExecutorWitness
  import opened ExecutorSuccess
  import opened ExecutorStops
  import Stacks = ExecutorStack

  /** Some dispatch of the unit succeeds, so that the next one of a walk is reached. */
  predicate CanFollow(root: nat, u: Unit) {
    !Completes(u) && (CanLoop(root, u, true) || CanLoop(root, u, false))
  }

  /**
   No unit of the tree that can be reached can answer a failure: it has no attempt at all, or one and no OnError.  What
   handlers do is not the tree's: a stop drained in one is the handler's failure.
   */
  predicate StopProof(root: nat, u: Unit)
    decreases u, 0
  {
    TriesIn(root, u) <= 0 ||
    (TriesIn(root, u) == 1 && u.onError.None? && (u.body.Scope? ==> AllStopProof(root, u.body.children)))
  }

  predicate AllStopProof(root: nat, units: seq<Unit>)
    decreases units, 0
  {
    units != [] ==>
      StopProof(root, units[0]) && (CanFollow(root, units[0]) ==> AllStopProof(root, units[1..]))
  }

  // ----- A stop-proof tree honours every stop -----

  /** A stop drained here ends the dispatch as one, and no work follows it. */
  ghost predicate StopKept(s: Summary, out: Outcome) {
    (s.stop ==> out.Fail? && StopsRun(out.err)) && s.stopClean
  }

  lemma {:induction false} DispatchedKeepsStop(w: World, d: nat, u: Unit, st: State)
    requires StopProof(w.root, u) && Known(w, u, st.entries)
    ensures var r := Dispatched(w, d, u, st); StopKept(Since(st, r.st, d), r.out)
    decreases u, 2
  {
    hide Sum, Execute, Known, Dispatched;
    if Tries(w, u) <= 0 {
      NoAttemptKeepsStop(w, d, u, st);
    } else {
      var began := Log(st.(tick := st.tick + 1), [Began(d, u.id)]);
      ExecuteKeepsStop(w, d, u, began);
      OnceKeepsStop(w, d, u, st, began);
    }
  }

  lemma NoAttemptKeepsStop(w: World, d: nat, u: Unit, st: State)
    requires Tries(w, u) <= 0
    ensures var r := Dispatched(w, d, u, st); StopKept(Since(st, r.st, d), r.out)
  {
    hide Sum, Handle, Dispatched;
    var r := Dispatched(w, d, u, st);
    if Since(st, r.st, d).stop || !Since(st, r.st, d).stopClean {
      HaltMeans(Events(w, d, u, st), d);
      NeverStopped(w, d, u, st);
    }
  }

  /** Nothing at this depth is drained. */
  lemma NeverStopped(w: World, d: nat, u: Unit, st: State)
    requires Tries(w, u) <= 0
    ensures !Has(Events(w, d, u, st), Halted(d, StopHalt)) && Sum(Events(w, d, u, st), d).stopClean
  {
    var es := Events(w, d, u, st);
    forall i | 0 <= i < |es| ensures es[i] != Halted(d, StopHalt) {
      NoAttemptNoStop(w, d, u, st, i);
    }
    StopFreeIsClean(es, d);
  }

  lemma {:induction false} StopFreeIsClean(es: seq<Event>, d: nat)
    requires forall i :: 0 <= i < |es| ==> es[i] != Halted(d, StopHalt)
    ensures !Sum(es, d).stop && Sum(es, d).stopClean
    decreases |es|
  {
    if es != [] {
      StopFreeIsClean(es[..|es|-1], d);
    }
  }

  /** The one attempt, and what it ended as. */
  lemma OnceKeepsStop(w: World, d: nat, u: Unit, st: State, began: State)
    requires Tries(w, u) == 1 && u.onError.None? && began == Log(st.(tick := st.tick + 1), [Began(d, u.id)])
    requires var r := Execute(w, d, u, began); StopKept(Since(began, r.st, d), r.out)
    ensures var r := Dispatched(w, d, u, st); StopKept(Since(st, r.st, d), r.out)
  {
    hide Sum, Execute, StopsRun, IsPaused, IsHard, Resolve, ApplyPending;
    var r, t := Execute(w, d, u, began), Dispatched(w, d, u, st);
    SinceSame(st, st, d);
    SinceLogged(st, st, [Began(d, u.id)], d);
    SumOne(Began(d, u.id), d);
    SinceChain(st, began, r.st, d);
    assert t == Attempts(w, d, u, st, 0, Nothing);
    match r.out
    case Ok(value) => PendingStops(d, st, r.st, value);
    case Panic =>
    case Fail(err) =>
      var asked := r.st.(tick := r.st.tick + 1);
      OneAttempt(w, d, u, st);
      assert Since(st, asked, d) == Since(st, r.st, d);
      SinceLogged(st, asked, [Stamped(d, ActionFailed)], d);
      SumOne(Stamped(d, ActionFailed), d);
      StandsRunsOn(ActionFailed, err);
  }

  lemma StandsRunsOn(base: Reason, err: Err)
    ensures StopsRun(StandingFailure(base, err)) == StopsRun(err)
  {
  }

  lemma {:induction false} ExecuteKeepsStop(w: World, d: nat, u: Unit, st: State)
    requires u.body.Scope? ==> AllStopProof(w.root, u.body.children)
    requires Known(w, u, st.entries)
    ensures var r := Execute(w, d, u, st); StopKept(Since(st, r.st, d), r.out)
    decreases u, 1
  {
    hide Sum, Walk, Node, Subgraph, Known;
    var t, s := st.tick, st.(tick := st.tick + 1);
    SinceSame(st, s, d);
    SinceLogged(st, s, [Halted(d, PauseHalt)], d);
    SinceLogged(st, s, [Halted(d, StopHalt)], d);
    SumOne(Halted(d, PauseHalt), d);
    SumOne(Halted(d, StopHalt), d);
    assert StopsRun(ErrStopped);
    if !w.cancelled(t) && ControlPoint(w, d, t, s).out.Ok? {
      if u.body.Leaf? {
        NodeStops(w, d, t, u, s);
      } else {
        SubgraphKeepsStop(w, d, t, u, s);
      }
      assert Since(st, Execute(w, d, u, st).st, d) == Since(s, Execute(w, d, u, st).st, d);
    }
  }

  lemma {:induction false} SubgraphKeepsStop(w: World, d: nat, t: nat, u: Unit, s: State)
    requires u.body.Scope? && AllStopProof(w.root, u.body.children) && Known(w, u, s.entries)
    ensures var r := Subgraph(w, d, t, u, s); StopKept(Since(s, r.st, d), r.out)
    decreases u, 0
  {
    hide Sum, FrameworkFailure, Walk, Leave, Proper, Good, AllGood, AllProper, Stacks.Tidy, Stacks.AllTidy,
         Stacks.Settled, Stacks.AllSettled, Undos, AllStopProof, Stacks.AllDistinct, CanExec;
    SinceSame(s, s, d);
    var prior := FindNested(s.entries, u.id);
    if prior.None? || prior.value.failed {
      var adopted := if prior.Some? then prior.value.entries else [];
      var s1 := if prior.Some? then s.(entries := Supersede(s.entries, u.id)) else s;
      ProperParts(u);
      Stacks.Entering(u, s.entries, prior, adopted, s1.entries);
      GoodScope(w.root, s.entries, u);
      EmptyGood(w.root, u.body.children);
      if !w.bound(u.id, t) {
        var lost := Log(s1, Dropped(d, prior));
        FrameworkStops(w, d, lost, u.id);
        SinceLogged(s, s1, Dropped(d, prior), d);
        SumDropped(d, prior);
        SinceChain(s, lost, Subgraph(w, d, t, u, s).st, d);
      } else if !w.claims(t) {
        SinceLogged(s, Push(s1, Receipt(u.id, false, Nil, false)),
                    Dropped(d, prior) + [Stamped(d, PreflightFailed)], d);
        SumDropped(d, prior);
      } else {
        var child := Child(s1, adopted);
        WalkKeepsStop(w, d, u.body.children, Nil, child);
        LeaveKeepsStop(w, d, u.id, s1, child, Walk(w, d, u.body.children, Nil, child));
      }
    }
  }

  lemma LeaveKeepsStop(w: World, d: nat, unit: nat, s1: State, child: State, walked: Result)
    requires child.log == s1.log && child.log <= walked.st.log
    requires StopKept(Since(child, walked.st, d), walked.out)
    ensures var r := Leave(w, d, unit, s1, walked); s1.log <= r.st.log && StopKept(Since(s1, r.st, d), r.out)
  {
    hide Sum, Undos, IsPaused, StopsRun;
    var c := walked.st;
    var s2 := s1.(tick := c.tick, log := c.log);
    assert Since(s1, s2, d) == Since(child, c, d);
    SinceLogged(s1, s2, [Lost(d, Undos(c.entries)), Crashed(d)], d);
    SumTwo(Lost(d, Undos(c.entries)), Crashed(d), d);
    SinceLogged(s1, s2, [Lost(d, Undos(c.entries))], d);
    SumOne(Lost(d, Undos(c.entries)), d);
    var r := Leave(w, d, unit, s1, walked);
    assert r.out.Panic? || r.st.log == s2.log;
    if walked.out.Fail? {
      WrapRunsOn(walked.out.err);
    }
  }

  lemma WrapRunsOn(err: Err)
    ensures StopsRun(Wrap(err)) == StopsRun(err) && (StopsRun(err) ==> !IsPaused(err))
  {
  }

  lemma {:induction false} WalkKeepsStop(w: World, d: nat, units: seq<Unit>, last: Value, st: State)
    requires AllStopProof(w.root, units) && AllProper(units) && Stacks.AllDistinct(units)
    requires Stacks.AllTidy(st.entries, units) && AllGood(w.root, st.entries, units)
    ensures var r := Walk(w, d, units, last, st); StopKept(Since(st, r.st, d), r.out)
    decreases units, 0
  {
    hide Sum, Combine, Dispatched, Proper, Stacks.Tidy, Good, StopProof, CanLoop, Stacks.Ledger, Stacks.LedgerAll,
         StopsRun, Stacks.AllTidy, Stacks.AllSettled;
    SinceSame(st, st, d);
    if units != [] {
      var u, rest := units[0], units[1..];
      FirstTidy(units, st.entries);
      DispatchedKeepsStop(w, d, u, st);
      var r := Dispatched(w, d, u, st);
      if r.out.Fail? {
        WrapRunsOn(r.out.err);
      }
      if r.out.Ok? && !Completes(u) {
        DispatchedSucceeds(w, d, u, st);
        assert CanFollow(w.root, u);
        Stacks.DispatchedLedger(w, d, u, st);
        Stacks.AfterFirst(d, units, st, r);
        LedgerParts(d, u, st, r);
        UntouchedGood(w.root, rest, {u.id}, st.entries, r.st.entries);
        WalkKeepsStop(w, d, rest, r.out.value, r.st);
        SinceChain(st, r.st, Walk(w, d, rest, r.out.value, r.st).st, d);
        KeptThen(Since(st, r.st, d), r.out, Since(r.st, Walk(w, d, rest, r.out.value, r.st).st, d),
                 Walk(w, d, rest, r.out.value, r.st).out);
      }
    }
  }

  lemma KeptThen(a: Summary, out: Outcome, b: Summary, fin: Outcome)
    requires StopKept(a, out) && StopKept(b, fin) && out.Ok?
    ensures StopKept(Combine(a, b), fin)
  {
    hide StopsRun;
  }

  // ----- Any other tree does not -----

  /** A stop was drained here, and work went on. */
  ghost predicate Ignored(d: nat, st: State, t: State)
    requires st.log <= t.log
  {
    exists i, j :: |st.log| <= i < j < |t.log| && t.log[i] == Halted(d, StopHalt) && IsWork(t.log[j])
  }

  lemma IgnoredLonger(d: nat, st: State, mid: State, t: State, end: State)
    requires st.log <= mid.log <= t.log <= end.log && Ignored(d, mid, t)
    ensures Ignored(d, st, end)
  {
    var i, j :| |mid.log| <= i < j < |t.log| && t.log[i] == Halted(d, StopHalt) && IsWork(t.log[j]);
    assert end.log[i] == Halted(d, StopHalt) && IsWork(end.log[j]);
  }

  /** A world of a plan whose drivers do nothing. */
  ghost predicate Bare(root: nat, w: World) {
    Real(Silent(root), w)
  }

  lemma SilentPossible(root: nat)
    ensures Possible(Silent(root))
  {
    forall x: nat ensures Silent(root).may(x) != {} {
      assert Conduct([], false) in Silent(root).may(x);
    }
  }

  lemma StopWorldBare(root: nat, tick: nat)
    ensures Bare(root, StopWorld(root, tick))
  {
    assert forall x: nat, t: nat :: ConductOf(StopWorld(root, tick).act(x, t)) == Conduct([], false);
  }

  lemma {:induction false} IgnoreDispatched(root: nat, d: nat, u: Unit, st: State) returns (w: World)
    requires !StopProof(root, u) && Proper(u) && MemoOf(st.entries, u) == Fresh && Stacks.Tidy(st.entries, u)
    ensures Bare(root, w) && Ignored(d, st, Dispatched(w, d, u, st).st)
    decreases u, 1
  {
    hide Bare, Proper, MemoOf, Stacks.Tidy, Dispatched, AllStopProof;
    if TriesIn(root, u) == 1 && u.onError.None? {
      w := IgnoreScope(root, d, u, st);
    } else {
      w := StopWorld(root, st.tick + 1);
      StopWorldBare(root, st.tick + 1);
      DoorGoesOn(w, d, u, st);
      var log := Dispatched(w, d, u, st).st.log;
      var es := Events(w, d, u, st);
      assert log[|st.log| + 1] == es[1] && log[|st.log| + 2] == es[2];
    }
  }

  lemma {:induction false} IgnoreScope(root: nat, d: nat, u: Unit, st: State) returns (w: World)
    requires TriesIn(root, u) == 1 && u.body.Scope? && !AllStopProof(root, u.body.children)
    requires Proper(u) && MemoOf(st.entries, u) == Fresh && Stacks.Tidy(st.entries, u)
    ensures Bare(root, w) && Ignored(d, st, Dispatched(w, d, u, st).st)
    decreases u, 0
  {
    hide Proper, Dispatched, AllStopProof, Walk, Leave, Execute, Real, Live, AllProper, Stacks.AllDistinct,
         Stacks.AllTidy, Stacks.Tidy, MemoOf, MemosOf, Ignored, Agree, Walker, Entered, Calm, Silent;
    var a, began := Silent(root), Log(st.(tick := st.tick + 1), [Began(d, u.id)]);
    ProperParts(u);
    WalkerKnows(u, Fresh, began);
    var child := Walker(u, began);
    var inner := IgnoreWalk(root, d, u.body.children, Nil, child);
    w := Splice(Calm(a), began.tick + 1, inner);
    SilentPossible(root);
    CalmReal(a);
    CalmLives(a, began.tick);
    SilentRoot(root);
    assert Live(Calm(a), began.tick + 1);
    SpliceReal(a, Calm(a), began.tick + 1, inner);
    var walked := Walk(inner, d, u.body.children, Nil, child);
    SpliceAgrees(Calm(a), began.tick + 1, inner, began.tick + 1, walked.st.tick);
    WalkLocal(inner, w, d, u.body.children, Nil, child);
    EntersScope(w, d, u, began);
    assert Execute(w, d, u, began) == Leave(w, d, u.id, Entered(u, began), walked);
    Prolongs(w, d, u, st, began);
    IgnoredLonger(d, st, child, walked.st, Dispatched(w, d, u, st).st);
  }

  lemma SilentRoot(root: nat)
    ensures Silent(root).root == root
  {
  }

  /** What an attempt logs stays logged. */
  lemma Prolongs(w: World, d: nat, u: Unit, st: State, began: State)
    requires Tries(w, u) >= 1 && began == Log(st.(tick := st.tick + 1), [Began(d, u.id)])
    ensures st.log <= began.log <= Execute(w, d, u, began).st.log <= Dispatched(w, d, u, st).st.log
  {
    hide Execute, Retry, IsPaused, IsHard;
    var r := Execute(w, d, u, began);
    assert Dispatched(w, d, u, st) == Attempts(w, d, u, st, 0, Nothing);
    if r.out.Fail? && !IsPaused(r.out.err) && !w.cancelled(r.st.tick) && !IsHard(r.out.err) {
      assert r.st.log <= Retry(w, d, u, r.st.(tick := r.st.tick + 1), 0, r.out.err).st.log;
    }
  }

  lemma {:induction false} IgnoreWalk(root: nat, d: nat, units: seq<Unit>, last: Value, st: State) returns (w: World)
    requires !AllStopProof(root, units) && AllProper(units) && Stacks.AllDistinct(units)
    requires Stacks.AllTidy(st.entries, units) && MarkOf(st) == START
    requires MemosOf(st.entries, units) == AllFresh(|units|)
    ensures Bare(root, w) && Ignored(d, st, Walk(w, d, units, last, st).st)
    decreases units, 0
  {
    hide Proper, Dispatched, StopProof, LoopTo, CanLoop, Real, Live, MemoOf, Stacks.Tidy, Stacks.AllTidy, Agree,
         Stacks.Distinct, Stacks.Ledger, Stacks.LedgerAll, Stacks.AllSettled, Ignored, Shows, Attempts, Silent;
    var u, rest, a := units[0], units[1..], Silent(root);
    FirstTidy(units, st.entries);
    assert MemoOf(st.entries, u) == MemosOf(st.entries, units)[0] == AllFresh(|units|)[0] == Fresh;
    if !StopProof(root, u) {
      w := IgnoreDispatched(root, d, u, st);
      IgnoredLonger(d, st, st, Dispatched(w, d, u, st).st, Walk(w, d, units, last, st).st);
    } else {
      var t := CanLoop(root, u, true);
      var q := LoopFound(root, u, t);
      SilentPossible(root);
      assert !IsPaused(Nothing) && !IsHard(Nothing);
      var first := RealizeLoop(a, d, u, Fresh, START, 0, Done(t), q, START, st, Nothing);
      var r := Dispatched(first, d, u, st);
      DispatchIs(first, d, u, st);
      ShowsWhat(d, Done(t), START, st, r);
      Stacks.DispatchedLedger(first, d, u, st);
      Stacks.AfterFirst(d, units, st, r);
      LedgerParts(d, u, st, r);
      UntouchedMemos(rest, {u.id}, st.entries, r.st.entries);
      assert MemosOf(st.entries, rest) == MemosOf(st.entries, units)[1..] == AllFresh(|units|)[1..];
      var next := IgnoreWalk(root, d, rest, r.out.value, r.st);
      w := Splice(first, r.st.tick, next);
      SpliceReal(a, first, r.st.tick, next);
      SpliceAgrees(first, r.st.tick, next, st.tick, r.st.tick);
      SpliceAgrees(first, r.st.tick, next, r.st.tick, Walk(next, d, rest, r.out.value, r.st).st.tick);
      DispatchedLocal(first, w, d, u, st);
      WalkLocal(next, w, d, rest, r.out.value, r.st);
      IgnoredLonger(d, st, r.st, Walk(w, d, rest, r.out.value, r.st).st, Walk(w, d, units, last, st).st);
    }
  }

  // ----- Main result -----

  /**
   Over all worlds in which a cancelled context stays so, and all executors with an empty stack: every stop drained
   outside the handlers ends the dispatch as a stop, with no work after it, if and only if no unit that can be reached
   can answer a failure.
   */
  lemma TreeStopsExactly(root: nat, d: nat, u: Unit)
    requires Proper(u)
    ensures (forall w: World, st: State :: w.root == root && Steady(w) && st.entries == [] ==>
               StopHonoured(w, d, u, st))
            <==> StopProof(root, u)
  {
    hide StopProof, Proper, Dispatched, StopHonoured, Stacks.Tidy, Good, MemoOf;
    if StopProof(root, u) {
      Stacks.FreshStack(u);
      forall w: World, st: State | w.root == root && Steady(w) && st.entries == [] ensures StopHonoured(w, d, u, st) {
        FreshGood(root, u);
        DispatchedKeepsStop(w, d, u, st);
        KeptIsHonoured(w, d, u, st);
      }
    } else {
      Stacks.FreshStack(u);
      EmptyMemo(u);
      var st := Ready(START, []);
      var w := IgnoreDispatched(root, d, u, st);
      IgnoredIsNot(w, d, u, st);
      assert w.root == root && Steady(w) && !StopHonoured(w, d, u, st);
    }
  }

  lemma KeptIsHonoured(w: World, d: nat, u: Unit, st: State)
    requires var r := Dispatched(w, d, u, st); StopKept(Since(st, r.st, d), r.out)
    ensures StopHonoured(w, d, u, st)
  {
    hide Dispatched, Sum;
    var es := Events(w, d, u, st);
    HaltMeans(es, d);
    forall i, j | 0 <= i < j < |es| && es[i] == Halted(d, StopHalt) ensures !IsWork(es[j]) {
      CleanMeans(es, d, i, j);
    }
  }

  lemma IgnoredIsNot(w: World, d: nat, u: Unit, st: State)
    requires Ignored(d, st, Dispatched(w, d, u, st).st)
    ensures !StopHonoured(w, d, u, st)
  {
    hide Dispatched;
    var log, es := Dispatched(w, d, u, st).st.log, Events(w, d, u, st);
    var i, j :| |st.log| <= i < j < |log| && log[i] == Halted(d, StopHalt) && IsWork(log[j]);
    assert es[i - |st.log|] == log[i] && es[j - |st.log|] == log[j];
  }
}
