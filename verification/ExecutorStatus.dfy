/**
 The run-status machine over whole dispatches: conditions only worsen, the journal is exactly the worsenings, and the
 pending reaction is exactly the worst reaction the effective policies gave to them.
 */
module ExecutorStatus {
  import opened Options
  import opened RunStatus
  import opened Failure
  import opened Recovery
  import opened Executor

  /** The worst reaction to a list of flips. */
  function WorstOf(w: World, start: Reaction, flips: seq<Flip>): Reaction {
    if flips == [] then start
    else
      var f := flips[|flips|-1];
      Worse(WorstOf(w, start, flips[..|flips|-1]), PolicyFor(w, f.unit).ReactionFor(f.condition))
  }

  /** The flips start above `low`, climb strictly, and end at `high`. */
  ghost predicate Climbs(low: Condition, flips: seq<Flip>, high: Condition) {
    && (forall i :: 0 <= i < |flips| ==> flips[i].condition.Rank() > low.Rank())
    && (forall i, j :: 0 <= i < j < |flips| ==> flips[i].condition.Rank() < flips[j].condition.Rank())
    && high == (if flips == [] then low else flips[|flips|-1].condition)
  }

  /** What an executor's status fields say about its past: `st` was reached from `base` by accepted flips only. */
  ghost predicate Since(w: World, base: State, st: State) {
    && base.journal <= st.journal
    && Climbs(base.condition, st.journal[|base.journal|..], st.condition)
    && st.pending == WorstOf(w, base.pending, st.journal[|base.journal|..])
  }

  lemma SinceSelf(w: World, st: State)
    ensures Since(w, st, st)
  {
  }

  lemma SinceSameStatus(w: World, base: State, st: State, t: State)
    requires Since(w, base, st)
    requires t.journal == st.journal && t.condition == st.condition && t.pending == st.pending
    ensures Since(w, base, t)
  {
  }

  lemma TransitionKeeps(w: World, base: State, st: State, unit: nat, condition: Condition, reason: Reason)
    requires Since(w, base, st)
    ensures var r := Transition(w, st, unit, condition, reason);
            && (r.None? <==> condition.Rank() < st.condition.Rank())
            && (r.Some? ==> Since(w, base, r.value) && r.value.condition == condition)
  {
    hide Climbs, WorstOf;
    if condition.Rank() > st.condition.Rank() {
      var n, f := |base.journal|, Flip(st.phase, unit, condition, reason);
      assert (st.journal + [f])[n..] == st.journal[n..] + [f];
      ClimbsHigher(base.condition, st.journal[n..], st.condition, f);
      WorstOfMore(w, base.pending, st.journal[n..], f);
    }
  }

  lemma ClimbsHigher(low: Condition, flips: seq<Flip>, high: Condition, f: Flip)
    requires Climbs(low, flips, high) && f.condition.Rank() > high.Rank()
    ensures Climbs(low, flips + [f], f.condition)
  {
    LastIsHighest(low, flips, high);
  }

  lemma WorstOfMore(w: World, start: Reaction, flips: seq<Flip>, f: Flip)
    ensures WorstOf(w, start, flips + [f]) ==
            Worse(WorstOf(w, start, flips), PolicyFor(w, f.unit).ReactionFor(f.condition))
  {
    assert (flips + [f])[..|flips|] == flips;
  }

  lemma LastIsHighest(low: Condition, flips: seq<Flip>, high: Condition)
    requires Climbs(low, flips, high)
    ensures low.Rank() <= high.Rank()
    ensures forall i :: 0 <= i < |flips| ==> flips[i].condition.Rank() <= high.Rank()
  {
  }

  /** The reason in the status, for an executor that was running at `base`: the last flip's, or a drained command's. */
  ghost predicate Reasoned(base: State, st: State) {
    && base.journal <= st.journal
    && (st.phase == Running || st.phase == Stopping || st.phase == PausedPhase)
    && (st.phase == Running ==> st.reason == LastReason(base, st.journal))
    && (st.phase != Running ==>
         || st.reason == StoppedReason || st.reason == PausedReason
         || (Flipped(base, st.journal) && LastFlip(base, st.journal).phase != Running
             && st.reason == LastReason(base, st.journal)))
  }

  predicate Flipped(base: State, journal: seq<Flip>) {
    |journal| > |base.journal|
  }

  function LastFlip(base: State, journal: seq<Flip>): Flip
    requires Flipped(base, journal)
  {
    journal[|journal|-1]
  }

  function LastReason(base: State, journal: seq<Flip>): Reason {
    if Flipped(base, journal) then LastFlip(base, journal).reason else base.reason
  }

  /** All that the status fields say. */
  ghost predicate Story(w: World, base: State, st: State) {
    Since(w, base, st) && (base.phase == Running ==> Reasoned(base, st))
  }

  lemma StorySelf(w: World, st: State)
    ensures Story(w, st, st)
  {
    SinceSelf(w, st);
  }

  lemma StorySame(w: World, base: State, st: State, t: State)
    requires Story(w, base, st)
    requires t.journal == st.journal && t.condition == st.condition && t.pending == st.pending
    requires t.phase == st.phase && t.reason == st.reason
    ensures Story(w, base, t)
  {
    hide Since;
    SinceSameStatus(w, base, st, t);
  }

  lemma StoryFlips(w: World, base: State, st: State, unit: nat, condition: Condition, reason: Reason)
    requires Story(w, base, st)
    ensures var r := Transition(w, st, unit, condition, reason); r.Some? ==> Story(w, base, r.value)
  {
    hide Since;
    TransitionKeeps(w, base, st, unit, condition, reason);
  }

  /** A drained command moves the phase, and the reason with it. */
  lemma StoryControlled(w: World, d: nat, t: nat, base: State, s: State)
    requires Story(w, base, s)
    ensures Story(w, base, ControlPoint(w, d, t, s).st)
  {
    hide Since;
    SinceSameStatus(w, base, s, ControlPoint(w, d, t, s).st);
  }

  lemma {:induction false} SubmitKeeps(w: World, base: State, st: State, unit: nat, flips: seq<Submission>)
    requires Story(w, base, st)
    ensures Story(w, base, Submit(w, st, unit, flips).st)
    decreases |flips|
  {
    hide Story;
    if flips != [] {
      StoryFlips(w, base, st, unit, flips[0].condition, flips[0].reason);
      match Transition(w, st, unit, flips[0].condition, flips[0].reason)
      case None =>
      case Some(next) => SubmitKeeps(w, base, next, unit, flips[1..]);
    }
  }

  // ----- Every dispatch, at any depth of nesting -----

  lemma {:induction false} DispatchedKeeps(w: World, d: nat, u: Unit, base: State, st: State)
    requires Story(w, base, st)
    ensures Story(w, base, Dispatched(w, d, u, st).st)
    decreases u, 2 + Left(w, u, 0), 0
  {
    AttemptsKeep(w, d, u, base, st, 0, Nothing);
  }

  lemma {:induction false} AttemptsKeep(w: World, d: nat, u: Unit, base: State, st: State, attempt: nat, last: Err)
    requires Story(w, base, st)
    ensures Story(w, base, Attempts(w, d, u, st, attempt, last).st)
    decreases u, 1 + Left(w, u, attempt), 1
  {
    hide Since, Execute, Retry, Resolve, IsPaused, IsHard;
    if attempt >= Tries(w, u) {
      ResolveKeeps(w, d, u, base, st, ActionFailed, last);
    } else if attempt > 0 && w.cut(st.tick) {
      StorySame(w, base, st, Log(st.(tick := st.tick + 1), [Cleared(d, u.id)]));
    } else {
      var began := Log(st.(tick := st.tick + 1), [Began(d, u.id)]);
      StorySame(w, base, st, began);
      ExecuteKeeps(w, d, u, base, began);
      var r := Execute(w, d, u, began);
      match r.out
      case Ok(value) => StorySame(w, base, r.st, ApplyPending(d, r.st, value).st);
      case Panic =>
      case Fail(err) =>
        var asked := r.st.(tick := r.st.tick + 1);
        StorySame(w, base, r.st, asked);
        if !IsPaused(err) && !w.cancelled(r.st.tick) && !IsHard(err) {
          RetryKeeps(w, d, u, base, asked, attempt, err);
        }
    }
  }

  lemma {:induction false} RetryKeeps(w: World, d: nat, u: Unit, base: State, st: State, attempt: nat, err: Err)
    requires attempt < Tries(w, u) && Story(w, base, st)
    ensures Story(w, base, Retry(w, d, u, st, attempt, err).st)
    decreases u, 1 + Left(w, u, attempt), 0
  {
    hide Story;
    if attempt + 1 < Tries(w, u) && u.onRetry.Some? {
      HandleKeeps(w, d, u.id, false, u.onRetry.value, base, st);
      var g := Handle(w, d, u.id, false, u.onRetry.value, st);
      StorySame(w, base, g.st, Log(g.st, [Stamped(d, HandlerFailed)]));
      if g.out.Ok? {
        if IsTruthy(g.out.value) {
          AttemptsKeep(w, d, u, base, g.st, attempt + 1, err);
        } else {
          ResolveKeeps(w, d, u, base, g.st, RetryVetoed, err);
        }
      }
    } else {
      AttemptsKeep(w, d, u, base, st, attempt + 1, err);
    }
  }

  lemma {:induction false} ResolveKeeps(w: World, d: nat, u: Unit, base: State, st: State, reason: Reason, cause: Err)
    requires Story(w, base, st)
    ensures Story(w, base, Resolve(w, d, u, st, reason, cause).st)
    decreases u, 0, 2
  {
    hide Story;
    StorySame(w, base, st, Stands(d, st, reason, cause).st);
    if u.onError.Some? {
      HandleKeeps(w, d, u.id, true, u.onError.value, base, st);
      var h := Handle(w, d, u.id, true, u.onError.value, st);
      StorySame(w, base, h.st, Log(h.st, [Stamped(d, HandlerFailed)]));
      StorySame(w, base, h.st, Stands(d, h.st, reason, cause).st);
      StorySame(w, base, h.st, Log(h.st, [Cleared(d, u.id)]));
    }
  }

  lemma {:induction false} HandleKeeps(w: World, d: nat, unit: nat, rescue: bool, handler: Unit, base: State, st: State)
    requires Story(w, base, st)
    ensures Story(w, base, Handle(w, d, unit, rescue, handler, st).st)
    decreases handler, 1, 0
  {
    hide Story;
    var asked := Log(st.(entries := []), [Asked(d, unit, rescue)]);
    StorySame(w, base, st, asked);
    ExecuteKeeps(w, d + 1, handler, base, asked);
    var r := Execute(w, d + 1, handler, asked);
    StorySame(w, base, r.st, Handle(w, d, unit, rescue, handler, st).st);
  }

  lemma {:induction false} ExecuteKeeps(w: World, d: nat, u: Unit, base: State, st: State)
    requires Story(w, base, st)
    ensures Story(w, base, Execute(w, d, u, st).st)
    decreases u, 0, 1
  {
    hide Story;
    var t, s := st.tick, st.(tick := st.tick + 1);
    StorySame(w, base, st, s);
    StorySame(w, base, s, Push(s, Bare));
    StoryControlled(w, d, t, base, s);
    if u.body.Leaf? {
      NodeKeeps(w, d, t, u, base, s);
    } else {
      SubgraphKeeps(w, d, t, u, base, s);
    }
  }

  lemma FrameworkKeeps(w: World, d: nat, base: State, st: State, unit: nat)
    requires Story(w, base, st)
    ensures Story(w, base, FrameworkFailure(w, d, st, unit).st)
  {
    hide Story;
    var pushed := Push(st, Bare);
    StorySame(w, base, st, pushed);
    StoryFlips(w, base, pushed, unit, ExecutionFailed, FrameworkFailed);
    match Transition(w, pushed, unit, ExecutionFailed, FrameworkFailed)
    case None => StorySame(w, base, pushed, Log(pushed, [Crashed(d)]));
    case Some(next) =>
      StorySame(w, base, next, Log(next, [Stamped(d, FrameworkFailed), Halted(d, HardHalt)]));
  }

  lemma {:induction false} NodeKeeps(w: World, d: nat, t: nat, u: Unit, base: State, s: State)
    requires Story(w, base, s)
    ensures Story(w, base, Node(w, d, t, u, s).st)
  {
    hide Story;
    FrameworkKeeps(w, d, base, s, u.id);
    SubmitKeeps(w, base, s, u.id, w.act(u.id, t).flips);
    var found, next, r := FindReceipt(s.entries, u.id), Submit(w, s, u.id, w.act(u.id, t).flips),
                          Node(w, d, t, u, s).st;
    var replayed := found.Some? && found.value.Receipt? && found.value.ok;
    if replayed || w.bound(u.id, t) {
      StorySame(w, base, if replayed then s else next.st, r);
    }
  }

  lemma {:induction false} SubgraphKeeps(w: World, d: nat, t: nat, u: Unit, base: State, s: State)
    requires u.body.Scope? && Story(w, base, s)
    ensures Story(w, base, Subgraph(w, d, t, u, s).st)
    decreases u, 0, 0
  {
    hide Story;
    var prior := FindNested(s.entries, u.id);
    if prior.None? || prior.value.failed {
      var adopted := if prior.Some? then prior.value.entries else [];
      var s1 := if prior.Some? then s.(entries := Supersede(s.entries, u.id)) else s;
      StorySame(w, base, s, s1);
      var lost := Log(s1, Dropped(d, prior));
      StorySame(w, base, s1, lost);
      FrameworkKeeps(w, d, base, lost, u.id);
      if w.bound(u.id, t) && !w.claims(t) {
        StorySame(w, base, s1, Subgraph(w, d, t, u, s).st);
      }
      if w.bound(u.id, t) && w.claims(t) {
        var c := Walk(w, d, u.body.children, Nil, Child(s1, adopted));
        LeaveKeeps(w, d, u.id, base, s1, c);
      }
    }
  }

  lemma LeaveKeeps(w: World, d: nat, unit: nat, base: State, s1: State, walked: Result)
    requires Story(w, base, s1)
    ensures Story(w, base, Leave(w, d, unit, s1, walked).st)
  {
    hide Story;
    var c, r := walked.st, Leave(w, d, unit, s1, walked).st;
    var s2 := s1.(tick := c.tick, log := c.log);
    StorySame(w, base, s1, s2);
    StoryFlips(w, base, s2, unit, c.condition, c.reason);
    var told := !walked.out.Panic? && c.condition != Healthy && (walked.out.Ok? || IsPaused(walked.out.err));
    var next := Transition(w, s2, unit, c.condition, c.reason);
    StorySame(w, base, if told && next.Some? then next.value else s2, r);
  }

  lemma {:induction false} WalkKeeps(w: World, d: nat, units: seq<Unit>, base: State, last: Value, st: State)
    requires Story(w, base, st)
    ensures Story(w, base, Walk(w, d, units, last, st).st)
    decreases units, 0, 0
  {
    hide Story;
    if units != [] {
      DispatchedKeeps(w, d, units[0], base, st);
      var r := Dispatched(w, d, units[0], st);
      if r.out.Ok? {
        WalkKeeps(w, d, units[1..], base, r.out.value, r.st);
      }
    }
  }

  // ----- Main results -----

  /**
   Over any dispatch, nested however deep: the condition never improves, the journal gains one entry per worsening and
   nothing else, hence at most three, and the pending reaction is the worst the policies gave to what was gained.
   */
  lemma DispatchOnlyWorsens(w: World, d: nat, u: Unit, st: State)
    ensures var t := Dispatched(w, d, u, st).st;
            && t.condition.Rank() >= st.condition.Rank()
            && st.journal <= t.journal && |t.journal| <= |st.journal| + 3 - st.condition.Rank()
            && Climbs(st.condition, t.journal[|st.journal|..], t.condition)
            && t.pending == WorstOf(w, st.pending, t.journal[|st.journal|..])
  {
    StorySelf(w, st);
    DispatchedKeeps(w, d, u, st, st);
    ClimbIsShort(st.condition, Dispatched(w, d, u, st).st.journal[|st.journal|..],
                 Dispatched(w, d, u, st).st.condition);
  }

  lemma ClimbIsShort(low: Condition, flips: seq<Flip>, high: Condition)
    requires Climbs(low, flips, high)
    ensures |flips| + low.Rank() <= high.Rank() <= 3
  {
    RankAtLeast(low, flips, |flips|);
  }

  lemma {:induction false} RankAtLeast(low: Condition, flips: seq<Flip>, n: nat)
    requires n <= |flips|
    requires forall i :: 0 <= i < |flips| ==> flips[i].condition.Rank() > low.Rank()
    requires forall i, j :: 0 <= i < j < |flips| ==> flips[i].condition.Rank() < flips[j].condition.Rank()
    ensures n > 0 ==> flips[n - 1].condition.Rank() >= low.Rank() + n
    decreases n
  {
    if n > 1 {
      RankAtLeast(low, flips, n - 1);
    }
  }

  /** The same for the child executor a scope is walked with, which starts healthy with an empty journal. */
  lemma ScopeOnlyWorsens(w: World, d: nat, units: seq<Unit>, parent: State, adopted: seq<Entry>)
    ensures var c := Walk(w, d, units, Nil, Child(parent, adopted)).st;
            Climbs(Healthy, c.journal, c.condition) && c.pending == WorstOf(w, Continue, c.journal)
  {
    var child := Child(parent, adopted);
    StorySelf(w, child);
    WalkKeeps(w, d, units, child, Nil, child);
    var c := Walk(w, d, units, Nil, child).st;
    assert c.journal[0..] == c.journal;
  }

  /** Once the pending reaction is Stop it stays, and a unit that then executes successfully is a hard failure. */
  lemma StopIsSticky(w: World, d: nat, u: Unit, st: State)
    requires st.pending == Stop
    ensures Dispatched(w, d, u, st).st.pending == Stop
    ensures var r := Execute(w, d, u, Log(st.(tick := st.tick + 1), [Began(d, u.id)]));
            Tries(w, u) > 0 && r.out.Ok? ==>
              Dispatched(w, d, u, st).out.Fail? && IsHard(Dispatched(w, d, u, st).out.err)
  {
    StorySelf(w, st);
    DispatchedKeeps(w, d, u, st, st);
    WorstStaysStop(w, Dispatched(w, d, u, st).st.journal[|st.journal|..]);
    var began := Log(st.(tick := st.tick + 1), [Began(d, u.id)]);
    StorySelf(w, began);
    ExecuteKeeps(w, d, u, began, began);
    WorstStaysStop(w, Execute(w, d, u, began).st.journal[|st.journal|..]);
  }

  lemma {:induction false} WorstStaysStop(w: World, flips: seq<Flip>)
    ensures WorstOf(w, Stop, flips) == Stop
    decreases |flips|
  {
    if flips != [] {
      WorstStaysStop(w, flips[..|flips|-1]);
    }
  }

  lemma {:induction false} WorstCovers(w: World, start: Reaction, flips: seq<Flip>, k: nat)
    requires k < |flips|
    ensures WorstOf(w, start, flips).Rank() >= PolicyFor(w, flips[k].unit).ReactionFor(flips[k].condition).Rank()
    decreases |flips|
  {
    if k < |flips| - 1 {
      WorstCovers(w, start, flips[..|flips|-1], k);
    }
  }

  ghost predicate AllValid(w: World) {
    forall u :: u in w.policies ==> w.policies[u].Validate()
  }

  /** A flip to compensation_failed never leaves the executor at Continue when every policy in force validates. */
  lemma DirtyUnwindNeverContinues(w: World, base: State, st: State, k: nat)
    requires AllValid(w) && Since(w, base, st)
    requires |base.journal| <= k < |st.journal| && st.journal[k].condition == CompensationFailed
    ensures st.pending != Continue
  {
    WorstCovers(w, base.pending, st.journal[|base.journal|..], k - |base.journal|);
  }

  /** An assertion fails exactly when a flip below the current condition is submitted. */
  lemma {:induction false} CrashExactly(w: World, st: State, unit: nat, flips: seq<Submission>)
    ensures !Submit(w, st, unit, flips).ok <==>
      exists k :: 0 <= k < |flips| && BelowEarlier(st.condition, flips, k)
    decreases |flips|
  {
    if flips != [] {
      var f := flips[0];
      if f.condition.Rank() < st.condition.Rank() {
        assert BelowEarlier(st.condition, flips, 0);
      } else {
        var next := Transition(w, st, unit, f.condition, f.reason).value;
        CrashExactly(w, next, unit, flips[1..]);
        if exists k :: 0 <= k < |flips| && BelowEarlier(st.condition, flips, k) {
          var k :| 0 <= k < |flips| && BelowEarlier(st.condition, flips, k);
          HighestTail(st.condition, flips, k);
          assert k > 0;
          assert BelowEarlier(next.condition, flips[1..], k - 1);
        }
        if exists k :: 0 <= k < |flips[1..]| && BelowEarlier(next.condition, flips[1..], k) {
          var k :| 0 <= k < |flips[1..]| && BelowEarlier(next.condition, flips[1..], k);
          HighestTail(st.condition, flips, k + 1);
          assert BelowEarlier(st.condition, flips, k + 1);
        }
      }
    }
  }

  /** The highest rank among the starting condition and the first `k` submissions. */
  function Highest(start: Condition, flips: seq<Submission>, k: nat): nat
    requires k <= |flips|
  {
    if k == 0 then start.Rank()
    else
      var h := Highest(start, flips, k - 1);
      if flips[k - 1].condition.Rank() > h then flips[k - 1].condition.Rank() else h
  }

  predicate BelowEarlier(start: Condition, flips: seq<Submission>, k: nat)
    requires k < |flips|
  {
    flips[k].condition.Rank() < Highest(start, flips, k)
  }

  lemma {:induction false} HighestTail(start: Condition, flips: seq<Submission>, k: nat)
    requires k <= |flips| && flips != [] && flips[0].condition.Rank() >= start.Rank()
    ensures k > 0 ==> Highest(start, flips, k) == Highest(flips[0].condition, flips[1..], k - 1)
    decreases k
  {
    if k > 1 {
      HighestTail(start, flips, k - 1);
    }
  }
}
