/**
 Nothing the analysis of `ExecutorPlans` foresees is impossible: for every way a dispatch is said to go there is a world
 in which it goes so.  With the soundness of `ExecutorCrash` this gives the exact conditions under which a run meets no
 failed assertion and under which no pause is lost.
 */
module ExecutorWitness {
  import opened Options
  import opened RunStatus
  import opened Failure
  import opened Recovery
  import opened Executor
  import opened ExecutorStack
  import opened ExecutorPlans
  import opened ExecutorCrash
  import opened ExecutorLocality
  import ExecutorHalts

  // ----- Worlds to build from -----

  function Submissions(flips: seq<Condition>): seq<Submission> {
    if flips == [] then [] else [Submission(flips[0], NoReason)] + Submissions(flips[1..])
  }

  lemma {:induction false} SubmissionsSay(flips: seq<Condition>)
    ensures Conditions(Submissions(flips)) == flips
    decreases |flips|
  {
    if flips != [] {
      SubmissionsSay(flips[1..]);
      assert Submissions(flips)[1..] == Submissions(flips[1..]);
    }
  }

  /** An action that goes as the conduct says. */
  function Enact(q: Conduct, value: Value, err: Err): Act {
    Act(Submissions(q.flips), false, if q.fails then Refused(err) else Returned(value))
  }

  lemma EnactGoes(q: Conduct, value: Value, err: Err)
    ensures ConductOf(Enact(q, value, err)) == q
  {
    SubmissionsSay(q.flips);
  }

  /** Something the driver can do. */
  ghost function Usual(qs: set<Conduct>): Act {
    if qs == {} then Act([], false, Returned(Nil))
    else
      var q :| q in qs;
      Enact(q, Nil, Plain)
  }

  lemma UsualGoes(qs: set<Conduct>)
    requires qs != {}
    ensures ConductOf(Usual(qs)) in qs
  {
    var q :| q in qs && Usual(qs) == Enact(q, Nil, Plain);
    EnactGoes(q, Nil, Plain);
  }

  /** Nothing happens but what the drivers do. */
  ghost function Calm(a: Plan): World {
    CalmWorld(a.root, a.policies).(act := (x: nat, t: nat) => Usual(a.may(x)))
  }

  /** One unit's action is given. */
  ghost function Acting(a: Plan, unit: nat, act: Act): World {
    Calm(a).(act := (x: nat, t: nat) => if x == unit then act else Usual(a.may(x)))
  }

  ghost function Cancelling(a: Plan): World {
    Calm(a).(cancelled := (t: nat) => true)
  }

  ghost function Pausing(a: Plan): World {
    Calm(a).(command := (t: nat) => Some(PauseCommand))
  }

  ghost function Stopping(a: Plan): World {
    Calm(a).(command := (t: nat) => Some(StopCommand))
  }

  ghost function Unbound(a: Plan, unit: nat): World {
    Calm(a).(bound := (x: nat, t: nat) => x != unit)
  }

  ghost function Unclaimed(a: Plan): World {
    Calm(a).(claims := (t: nat) => false)
  }

  /** A world of the plan in which a context that is cancelled stays so. */
  ghost predicate Real(a: Plan, w: World) {
    Allowed(a, w) && Steady(w)
  }

  /** The context is not cancelled before the tick. */
  ghost predicate Live(w: World, end: nat) {
    forall t: nat :: t < end ==> !w.cancelled(t) && !w.cut(t)
  }

  lemma RealBudget(a: Plan, w: World, u: Unit)
    requires Real(a, w)
    ensures Tries(w, u) == Budget(a, u) && forall unit :: PolicyFor(w, unit) == PolicyIn(a.root, a.policies, unit)
  {
    SameBudget(a, w, u);
  }

  lemma CalmReal(a: Plan)
    requires Possible(a)
    ensures Real(a, Calm(a)) && forall end: nat :: Live(Calm(a), end)
  {
    hide Usual;
    forall x: nat ensures ConductOf(Usual(a.may(x))) in a.may(x) {
      UsualGoes(a.may(x));
    }
  }

  lemma BuiltReal(a: Plan)
    requires Possible(a)
    ensures Real(a, Cancelling(a)) && Real(a, Pausing(a)) && Real(a, Stopping(a)) && Real(a, Unclaimed(a))
    ensures forall end: nat :: Live(Stopping(a), end) && Live(Unclaimed(a), end)
  {
    hide Usual;
    CalmReal(a);
    assert forall x: nat, t: nat :: Calm(a).act(x, t) == Usual(a.may(x));
  }

  lemma ActingReal(a: Plan, unit: nat, act: Act)
    requires Possible(a) && ConductOf(act) in a.may(unit)
    ensures Real(a, Acting(a, unit, act)) && forall end: nat :: Live(Acting(a, unit, act), end)
  {
    hide Usual;
    forall x: nat ensures ConductOf(Usual(a.may(x))) in a.may(x) {
      UsualGoes(a.may(x));
    }
  }

  lemma UnboundReal(a: Plan, unit: nat)
    requires Possible(a) && a.loose(unit)
    ensures Real(a, Unbound(a, unit))
  {
    hide Usual;
    forall x: nat ensures ConductOf(Usual(a.may(x))) in a.may(x) {
      UsualGoes(a.may(x));
    }
  }

  /** The second world takes over while the first one's context is alive, or with its own cancelled. */
  lemma SpliceReal(a: Plan, w: World, at: nat, v: World)
    requires Real(a, w) && Real(a, v) && (Live(w, at) || v == Cancelling(a))
    ensures Real(a, Splice(w, at, v)) && SameRules(w, v)
    ensures forall end: nat :: Live(w, at) && Live(v, end) ==> Live(Splice(w, at, v), end)
    ensures Live(w, at) ==> Live(Splice(w, at, v), at)
  {
    hide ConductOf;
    var s := Splice(w, at, v);
    forall x: nat, t: nat ensures ConductOf(s.act(x, t)) in a.may(x) && (s.bound(x, t) || a.loose(x)) {
      if t < at {
        assert s.act(x, t) == w.act(x, t) && s.bound(x, t) == w.bound(x, t);
      } else {
        assert s.act(x, t) == v.act(x, t) && s.bound(x, t) == v.bound(x, t);
      }
    }
    forall i: nat, j: nat | i <= j && (s.cancelled(i) || s.cut(i)) ensures s.cancelled(j) {
      if j < at {
        assert w.cancelled(i) || w.cut(i);
      } else if i >= at {
        assert v.cancelled(i) || v.cut(i);
      }
    }
  }

  /** Calm before tick `lo`, then `w`, then `v` from tick `hi` on. */
  ghost function Between(a: Plan, lo: nat, w: World, hi: nat, v: World): World {
    Splice(Splice(Calm(a), lo, w), hi, v)
  }

  lemma BetweenAgrees(a: Plan, lo: nat, w: World, hi: nat, v: World, end: nat)
    requires Possible(a) && Real(a, w) && Real(a, v) && lo <= hi && (Live(w, hi) || v == Cancelling(a))
    ensures var s := Between(a, lo, w, hi, v);
            && Real(a, s) && Agree(w, s, lo, hi) && Agree(v, s, hi, end)
            && (lo > 0 ==> !s.cut(lo - 1)) && s.cancelled(hi) == v.cancelled(hi)
            && (Live(w, hi) && Live(v, end) ==> Live(s, end)) && (Live(w, hi) ==> Live(s, hi))
  {
    hide Calm, Real, Allowed, Steady;
    CalmReal(a);
    assert Live(Calm(a), lo);
    assert lo > 0 ==> !Calm(a).cut(lo - 1);
    SpliceReal(a, Calm(a), lo, w);
    SpliceReal(a, Splice(Calm(a), lo, w), hi, v);
    var s := Between(a, lo, w, hi, v);
    forall t | lo <= t < hi ensures SameAt(w, s, t) {
      assert SameAt(w, Splice(Calm(a), lo, w), t);
    }
    SpliceAgrees(Splice(Calm(a), lo, w), hi, v, hi, end);
  }

  // ----- What is to be shown -----

  /** The dispatch went as foreseen. */
  ghost predicate Shows(d: nat, x: Exit, n: Mark, st: State, r: Result)
    requires st.log <= r.st.log
  {
    var s := ExecutorHalts.Since(st, r.st, d);
    match x
    case Done(t) => r.out.Ok? && IsTruthy(r.out.value) == t && MarkOf(r.st) == n
    case Soft => r.out.Fail? && ExecutorHalts.Ordinary(r.out.err)
    case Parked => r.out.Fail? && IsPaused(r.out.err) && MarkOf(r.st) == n
    case Fell(behind) => !r.out.Ok? && !(r.out.Fail? && IsPaused(r.out.err)) && (if behind then s.lost else s.crash)
  }

  /** Another attempt, or another unit, may follow. */
  predicate GoesOn(x: Exit) {
    x.Done? || x.Soft?
  }

  lemma ShowsAfter(d: nat, x: Exit, n: Mark, st: State, mid: State, r: Result)
    requires st.log <= mid.log <= r.st.log && Shows(d, x, n, mid, r)
    ensures Shows(d, x, n, st, r)
  {
    ExecutorHalts.SinceChain(st, mid, r.st, d);
  }

  /** The same, ended by a few more events, or with the error dressed. */
  lemma ShowsDressed(d: nat, x: Exit, n: Mark, st: State, r: Result, t: Result, events: seq<Event>)
    requires st.log <= r.st.log && t.st.log == r.st.log + events && MarkOf(t.st) == MarkOf(r.st)
    requires Shows(d, x, n, st, r)
    requires t.out == r.out
             || (!r.out.Ok? && t.out.Fail? && IsPaused(t.out.err) == (r.out.Fail? && IsPaused(r.out.err))
                 && (x.Soft? ==> !IsHard(t.out.err)))
    ensures st.log <= t.st.log && Shows(d, x, n, st, t)
  {
    hide IsPaused, IsHard;
    ExecutorHalts.SinceLogged(st, r.st, events, d);
    assert ExecutorHalts.Since(st, t.st, d) == ExecutorHalts.Since(st, Log(r.st, events), d);
  }

  lemma ShowsWhat(d: nat, x: Exit, n: Mark, st: State, r: Result)
    requires st.log <= r.st.log && Shows(d, x, n, st, r)
    ensures x.Done? <==> r.out.Ok?
    ensures x.Done? ==> IsTruthy(r.out.value) == x.truthy && MarkOf(r.st) == n
    ensures x.Soft? ==> r.out.Fail? && ExecutorHalts.Ordinary(r.out.err)
    ensures x.Parked? ==> r.out.Fail? && IsPaused(r.out.err) && MarkOf(r.st) == n
    ensures x.Fell? && r.out.Fail? ==> !IsPaused(r.out.err)
  {
  }

  // ----- At the door -----

  lemma Parks(a: Plan, d: nat, u: Unit, st: State)
    requires Possible(a)
    ensures Real(a, Pausing(a)) && Shows(d, Parked, MarkOf(st), st, Execute(Pausing(a), d, u, st))
  {
    hide Real, Calm;
    BuiltReal(a);
    assert IsPaused(ErrPaused);
    assert !Calm(a).cancelled(st.tick) by {
      CalmLives(a, st.tick);
    }
  }

  lemma CalmLives(a: Plan, t: nat)
    ensures var w := Calm(a); !w.cancelled(t) && !w.cut(t) && w.command(t).None? && w.claims(t)
    ensures (forall x: nat :: Calm(a).bound(x, t)) && Calm(a).root == a.root && Calm(a).policies == a.policies
  {
  }

  lemma Stops(a: Plan, d: nat, u: Unit, st: State)
    requires Possible(a)
    ensures var r := Execute(Stopping(a), d, u, st);
            && Real(a, Stopping(a)) && Live(Stopping(a), r.st.tick) && Shows(d, Soft, MarkOf(st), st, r)
            && r.out == Fail(ErrStopped) && r.st.entries == st.entries && MarkOf(r.st) == MarkOf(st)
  {
    hide Real, Calm, Live;
    BuiltReal(a);
    assert !IsPaused(ErrStopped) && !IsHard(ErrStopped);
    assert !Calm(a).cancelled(st.tick) by {
      CalmLives(a, st.tick);
    }
  }

  // ----- Nodes -----

  lemma NodeDoes(w: World, d: nat, t: nat, u: Unit, s: State)
    requires u.body.Leaf? && MemoOf(s.entries, u) == Fresh && w.bound(u.id, t)
    ensures var act := w.act(u.id, t);
            var submitted := Submit(w, s, u.id, act.flips);
            Node(w, d, t, u, s) ==
              if !submitted.ok then Result(Panic, Log(submitted.st, [Crashed(d)]))
              else if act.verdict.Returned? then
                Result(Ok(act.verdict.value), Log(Push(submitted.st, Receipt(u.id, true, act.verdict.value, act.undo)),
                                                  [Acted(d, u.id, true, act.undo)]))
              else
                Result(Fail(Wrap(act.verdict.err)), Log(Push(submitted.st, Receipt(u.id, false, Nil, act.undo)),
                                                        [Acted(d, u.id, false, act.undo)] + Raised(d, act.verdict.err)))
  {
    hide FindReceipt, Raised, Submit, FrameworkFailure, MemoOf;
    LeafMemo(s.entries, u);
  }

  /** A node that goes as its conduct says. */
  lemma NodeEnacts(a: Plan, d: nat, u: Unit, m: Mark, q: Conduct, value: Value, err: Err, st: State) returns (w: World)
    requires Possible(a) && u.body.Leaf? && MemoOf(st.entries, u) == Fresh && MarkOf(st) == m && q in a.may(u.id)
    ensures Real(a, w)
    ensures var r, f := Execute(w, d, u, st), Flipped(a, u.id, m, q.flips);
            && Live(w, r.st.tick)
            && if f.None? then r.out.Panic? && r.st.log == st.log + [Crashed(d)]
               else
                 && MarkOf(r.st) == f.value && r.out == (if q.fails then Fail(Wrap(err)) else Ok(value))
                 && MemoOf(r.st.entries, u) == (if q.fails then Fresh else Settled(IsTruthy(value)))
  {
    hide Real, Live, Calm, MemoOf, Raised, Submit, Flipped, Node;
    var act := Enact(q, value, err);
    EnactGoes(q, value, err);
    w := Acting(a, u.id, act);
    ActingReal(a, u.id, act);
    CalmLives(a, st.tick);
    var s := st.(tick := st.tick + 1);
    SubmitGrew(w, s, u.id, act.flips);
    SubmitFlips(a, w, s, u.id, act.flips);
    NodeDoes(w, d, st.tick, u, s);
    ReceiptMemo(st.entries, u, !q.fails, if q.fails then Nil else value, false);
    assert Execute(w, d, u, st) == Node(w, d, st.tick, u, s);
  }

  lemma Crashes(d: nat, st: State, r: Result)
    requires r.out.Panic? && r.st.log == st.log + [Crashed(d)]
    ensures Shows(d, Fell(false), START, st, r)
  {
    assert r.st.log[|st.log|..] == [Crashed(d)];
    ExecutorHalts.SumOne(Crashed(d), d);
  }

  /** At `compensation_failed`, an action that does not resolve is a rejected flip. */
  lemma Collapses(a: Plan, d: nat, u: Unit, st: State)
    requires Possible(a) && a.loose(u.id) && st.condition == CompensationFailed && !MemoOf(st.entries, u).Settled?
    ensures Real(a, Unbound(a, u.id)) && Shows(d, Fell(false), START, st, Execute(Unbound(a, u.id), d, u, st))
  {
    hide Real, Calm, FindReceipt, FindNested, Supersede, MemoOf, MemosOf, Undos;
    var w, s := Unbound(a, u.id), st.(tick := st.tick + 1);
    UnboundReal(a, u.id);
    CalmLives(a, st.tick);
    if u.body.Leaf? {
      LeafMemo(s.entries, u);
      assert Execute(w, d, u, st) == Node(w, d, st.tick, u, s) == FrameworkFailure(w, d, s, u.id);
      Crashes(d, st, Execute(w, d, u, st));
    } else {
      ScopeMemo(s.entries, u);
      var prior := FindNested(s.entries, u.id);
      var s1 := if prior.Some? then s.(entries := Supersede(s.entries, u.id)) else s;
      var lost := Log(s1, Dropped(d, prior));
      assert Execute(w, d, u, st) == Subgraph(w, d, st.tick, u, s) == FrameworkFailure(w, d, lost, u.id);
      Crashes(d, lost, Execute(w, d, u, st));
      ShowsAfter(d, Fell(false), START, st, lost, Execute(w, d, u, st));
    }
  }

  lemma Replayed(a: Plan, d: nat, u: Unit, t: bool, st: State)
    requires Possible(a) && MemoOf(st.entries, u) == Settled(t)
    ensures var r := Execute(Calm(a), d, u, st);
            && Real(a, Calm(a)) && Live(Calm(a), r.st.tick) && Shows(d, Done(t), MarkOf(st), st, r)
            && r.st.entries == st.entries
  {
    hide Real, Live, Calm, FindReceipt, FindNested, MemoOf, MemosOf;
    var w, s := Calm(a), st.(tick := st.tick + 1);
    CalmReal(a);
    CalmLives(a, st.tick);
    if u.body.Leaf? {
      LeafMemo(s.entries, u);
      assert Execute(w, d, u, st) == Node(w, d, st.tick, u, s);
    } else {
      ScopeMemo(s.entries, u);
      assert Execute(w, d, u, st) == Subgraph(w, d, st.tick, u, s);
    }
  }

  lemma RealizeLeaf(a: Plan, d: nat, u: Unit, m: Mark, x: Exit, q: Memo, n: Mark, st: State) returns (w: World)
    requires Possible(a) && u.body.Leaf? && LeafTo(a, u.id, Fresh, m, x, q, n)
    requires MarkOf(st) == m && MemoOf(st.entries, u) == Fresh
    ensures Real(a, w)
    ensures Executed(a, w, d, u, x, q, n, st)
  {
    hide Real, Live, Calm, MemoOf, Execute, Flipped, ExecutorHalts.Sum;
    match x
    case Done(t) =>
      var c :| c in a.may(u.id) && !c.fails && Flipped(a, u.id, m, c.flips) == Some(n);
      w := NodeEnacts(a, d, u, m, c, Val(0, t), Plain, st);
    case Soft =>
      if q == Fresh && n == m {
        w := Stopping(a);
        Stops(a, d, u, st);
      } else {
        var c :| c in a.may(u.id) && c.fails && Flipped(a, u.id, m, c.flips) == Some(n);
        w := NodeEnacts(a, d, u, m, c, Nil, Plain, st);
        assert !IsPaused(Wrap(Plain)) && !IsHard(Wrap(Plain));
      }
    case Parked =>
      if n == m {
        w := Pausing(a);
        Parks(a, d, u, st);
      } else {
        var c :| c in a.may(u.id) && c.fails && Flipped(a, u.id, m, c.flips) == Some(n);
        w := NodeEnacts(a, d, u, m, c, Nil, ErrPaused, st);
        assert IsPaused(Wrap(ErrPaused));
      }
    case Fell(_) =>
      if CanReject(a, u.id, m) {
        var c :| c in a.may(u.id) && Flipped(a, u.id, m, c.flips).None?;
        w := NodeEnacts(a, d, u, m, c, Nil, Plain, st);
        Crashes(d, st, Execute(w, d, u, st));
      } else {
        w := Unbound(a, u.id);
        Collapses(a, d, u, st);
      }
  }

  /** One execution went as foreseen; what follows finds the context alive. */
  ghost predicate Executed(a: Plan, w: World, d: nat, u: Unit, x: Exit, q: Memo, n: Mark, st: State) {
    var r := Execute(w, d, u, st);
    && Shows(d, x, n, st, r)
    && (GoesOn(x) ==> Live(w, r.st.tick) && MemoOf(r.st.entries, u) == q)
    && (x.Soft? ==> MarkOf(r.st) == n)
  }

  // ----- Scopes -----

  lemma {:induction false} RealizeExec(a: Plan, d: nat, u: Unit, p: Memo, m: Mark, x: Exit, q: Memo, n: Mark, st: State)
    returns (w: World)
    requires Possible(a) && Proper(u) && ExecTo(a, u, p, m, x, q, n)
    requires MarkOf(st) == m && MemoOf(st.entries, u) == p && Tidy(st.entries, u)
    ensures Real(a, w) && Executed(a, w, d, u, x, q, n, st)
    decreases u, 0, 1
  {
    hide Proper, Tidy, Execute, WalkTo, Real, Live, Calm, MemoOf, MemosOf, ExecutorHalts.Sum, WalkEnds, WalkUndercuts,
         CanReject, Acts;
    if x.Soft? && q == p && n == m {
      w := Stopping(a);
      Stops(a, d, u, st);
    } else if x.Parked? && n == m {
      w := Pausing(a);
      Parks(a, d, u, st);
    } else if p.Settled? {
      w := Calm(a);
      Replayed(a, d, u, p.truthy, st);
    } else if u.body.Leaf? {
      LeafMemo(st.entries, u);
      w := RealizeLeaf(a, d, u, m, x, q, n, st);
    } else if x.Soft? && q == Fresh {
      w := Unclaimed(a);
      Refuses(a, d, u, st);
    } else if x == Fell(false) && m.condition == CompensationFailed && a.loose(u.id) {
      w := Unbound(a, u.id);
      Collapses(a, d, u, st);
    } else {
      var y, ms, k := Told(a, u, p, m, x, q, n);
      w := RealizeScope(a, d, u, p, y, ms, k, st);
      ScopeShows(a, w, d, u, p, m, x, q, n, y, ms, k, st);
    }
  }

  /** How a scope's exit follows from its walk's. */
  predicate Follows(a: Plan, unit: nat, m: Mark, x: Exit, q: Memo, n: Mark, y: Exit, ms: Memo, k: Mark) {
    if y.Fell? then x == y && n == START
    else if y.Soft? then x.Soft? && q == ms && n == m && ms.Partial?
    else if Undercuts(k.condition, m.condition) then (x == Fell(false) || (y.Parked? && x == Fell(true))) && n == START
    else x == y && n == Bubbled(a, unit, m, k.condition) && (x.Done? ==> q == Settled(x.truthy))
  }

  /** The walk that a scope's exit rests on. */
  lemma Told(a: Plan, u: Unit, p: Memo, m: Mark, x: Exit, q: Memo, n: Mark) returns (y: Exit, ms: Memo, k: Mark)
    requires u.body.Scope? && !p.Settled? && ExecTo(a, u, p, m, x, q, n)
    requires !(x.Soft? && (q == p || q == Fresh)) && !(x.Parked? && n == m)
    requires !(x == Fell(false) && m.condition == CompensationFailed && a.loose(u.id))
    ensures WalkTo(a, u.body.children, Inner(p, u.body.children), START, false, y, ms, k)
    ensures Follows(a, u.id, m, x, q, n, y, ms, k)
  {
    hide WalkTo, Inner;
    var children := u.body.children;
    var inner := Inner(p, children);
    assert ScopeTo(a, u.id, children, p, m, x, q, n);
    if x.Soft? {
      y, ms, k := Soft, q, START;
    } else if x.Fell? {
      if WalkTo(a, children, inner, START, false, x, Fresh, START) {
        y, ms, k := x, Fresh, START;
      } else {
        assert WalkUndercuts(a, children, inner, m, x.behind);
        y, k, ms :| (y.Parked? || (y.Done? && !x.behind)) && WalkTo(a, children, inner, START, false, y, ms, k)
                    && Undercuts(k.condition, m.condition);
      }
    } else {
      assert WalkEnds(a, u.id, children, inner, m, x, n);
      k, ms :| WalkTo(a, children, inner, START, false, x, ms, k) && !Undercuts(k.condition, m.condition)
               && n == Bubbled(a, u.id, m, k.condition);
      y := x;
    }
  }

  lemma Refuses(a: Plan, d: nat, u: Unit, st: State)
    requires Possible(a) && u.body.Scope? && !MemoOf(st.entries, u).Settled? && Tidy(st.entries, u)
    ensures Real(a, Unclaimed(a)) && Executed(a, Unclaimed(a), d, u, Soft, Fresh, MarkOf(st), st)
  {
    hide Real, Live, Calm, FindNested, Supersede, MemoOf, MemosOf, Undos, Tidy, AllTidy, ExecutorStack.Settled,
         AllSettled;
    var w, s := Unclaimed(a), st.(tick := st.tick + 1);
    BuiltReal(a);
    CalmLives(a, st.tick);
    ScopeMemo(s.entries, u);
    var prior := FindNested(s.entries, u.id);
    var adopted := if prior.Some? then prior.value.entries else [];
    var s1 := if prior.Some? then s.(entries := Supersede(s.entries, u.id)) else s;
    Entering(u, s.entries, prior, adopted, s1.entries);
    GoneMemo(u, s1.entries, Receipt(u.id, false, Nil, false));
    assert Execute(w, d, u, st) == Subgraph(w, d, st.tick, u, s);
    assert !Is(Plain, ErrPaused);
  }

  /** The caller's state once the scope was entered, and the child executor it is walked on. */
  function Entered(u: Unit, st: State): State {
    var s := st.(tick := st.tick + 1);
    if FindNested(s.entries, u.id).Some? then s.(entries := Supersede(s.entries, u.id)) else s
  }

  function Walker(u: Unit, st: State): State {
    var prior := FindNested(st.entries, u.id);
    Child(Entered(u, st), if prior.Some? then prior.value.entries else [])
  }

  lemma EntersScope(w: World, d: nat, u: Unit, st: State)
    requires u.body.Scope? && !MemoOf(st.entries, u).Settled?
    requires !w.cancelled(st.tick) && w.command(st.tick).None? && w.bound(u.id, st.tick) && w.claims(st.tick)
    ensures Execute(w, d, u, st) ==
            Leave(w, d, u.id, Entered(u, st), Walk(w, d, u.body.children, Nil, Walker(u, st)))
  {
    hide Walk, Leave, FindNested, Supersede, MemoOf, MemosOf;
    ScopeMemo(st.entries, u);
  }

  lemma WalkerKnows(u: Unit, p: Memo, st: State)
    requires u.body.Scope? && !p.Settled? && MemoOf(st.entries, u) == p && Tidy(st.entries, u)
    ensures var c := Walker(u, st);
            && MemosOf(c.entries, u.body.children) == Inner(p, u.body.children)
            && AllTidy(c.entries, u.body.children) && MarkOf(c) == START && c.log == st.log && c.tick == st.tick + 1
            && NoScope(Entered(u, st).entries, u.id)
  {
    hide FindNested, Supersede, MemoOf, MemosOf, Undos, Tidy, AllTidy, ExecutorStack.Settled, AllSettled;
    ScopeMemo(st.entries, u);
    EmptyMemos(u.body.children);
    var prior := FindNested(st.entries, u.id);
    Entering(u, st.entries, prior, if prior.Some? then prior.value.entries else [], Entered(u, st).entries);
  }

  lemma {:induction false} RealizeScope(a: Plan, d: nat, u: Unit, p: Memo, y: Exit, ms: Memo, k: Mark, st: State)
    returns (w: World)
    requires Possible(a) && u.body.Scope? && Proper(u) && !p.Settled?
    requires MemoOf(st.entries, u) == p && Tidy(st.entries, u)
    requires WalkTo(a, u.body.children, Inner(p, u.body.children), START, false, y, ms, k)
    ensures Real(a, w)
    ensures var walked := Walk(w, d, u.body.children, Nil, Walker(u, st));
            && Shows(d, y, k, Walker(u, st), walked)
            && (GoesOn(y) ==> Live(w, walked.st.tick) && ms == Partial(MemosOf(walked.st.entries, u.body.children)))
            && Execute(w, d, u, st) == Leave(w, d, u.id, Entered(u, st), walked)
    decreases u, 0, 0
  {
    hide Proper, Shows, WalkTo, Real, Live, Calm, Walk, Leave, AllProper, AllDistinct, AllTidy, Tidy, MemoOf, MemosOf,
         Inner, Agree, Walker, Entered, Execute;
    ProperParts(u);
    WalkerKnows(u, p, st);
    var child := Walker(u, st);
    var inner := RealizeWalk(a, d, u.body.children, Inner(p, u.body.children), START, false, y, ms, k, Nil, child);
    w := Splice(Calm(a), st.tick + 1, inner);
    CalmReal(a);
    CalmLives(a, st.tick);
    assert Live(Calm(a), st.tick + 1);
    SpliceReal(a, Calm(a), st.tick + 1, inner);
    SpliceAgrees(Calm(a), st.tick + 1, inner, st.tick + 1, Walk(inner, d, u.body.children, Nil, child).st.tick);
    WalkLocal(inner, w, d, u.body.children, Nil, child);
    EntersScope(w, d, u, st);
  }

  /** Leaving the scope after such a walk. */
  lemma ScopeShows(a: Plan, w: World, d: nat, u: Unit, p: Memo, m: Mark, x: Exit, q: Memo, n: Mark, y: Exit, ms: Memo,
                   k: Mark, st: State)
    requires u.body.Scope? && Real(a, w) && MarkOf(st) == m && Follows(a, u.id, m, x, q, n, y, ms, k)
    requires MemoOf(st.entries, u) == p && Tidy(st.entries, u) && !p.Settled?
    requires var walked := Walk(w, d, u.body.children, Nil, Walker(u, st));
             && Shows(d, y, k, Walker(u, st), walked)
             && (GoesOn(y) ==> Live(w, walked.st.tick) && ms == Partial(MemosOf(walked.st.entries, u.body.children)))
             && Execute(w, d, u, st) == Leave(w, d, u.id, Entered(u, st), walked)
    ensures Executed(a, w, d, u, x, q, n, st)
  {
    hide Execute, Walk, Real, Live, MemoOf, MemosOf, Tidy, AllTidy, Inner, Walker;
    RealBudget(a, w, u);
    WalkerKnows(u, p, st);
    ExecutorHalts.WalkTells(w, d, u.body.children, Nil, Walker(u, st));
    var walked := Walk(w, d, u.body.children, Nil, Walker(u, st));
    LeaveShows(a, w, d, u, m, x, q, n, y, ms, k, st, Walker(u, st), Entered(u, st), walked);
  }

  lemma LeaveShows(a: Plan, w: World, d: nat, u: Unit, m: Mark, x: Exit, q: Memo, n: Mark, y: Exit, ms: Memo, k: Mark,
                   st: State, child: State, s1: State, walked: Result)
    requires forall unit :: PolicyFor(w, unit) == PolicyIn(a.root, a.policies, unit)
    requires MarkOf(s1) == MarkOf(st) == m && Follows(a, u.id, m, x, q, n, y, ms, k) && u.body.Scope?
    requires child.log == st.log == s1.log && child.log <= walked.st.log && Shows(d, y, k, child, walked)
    requires GoesOn(y) ==> ms == Partial(MemosOf(walked.st.entries, u.body.children))
    requires ExecutorHalts.Told(ExecutorHalts.Since(child, walked.st, d), walked.out)
    ensures var r := Leave(w, d, u.id, s1, walked);
            && st.log <= r.st.log && Shows(d, x, n, st, r) && r.st.tick == walked.st.tick
            && (GoesOn(x) ==> GoesOn(y) && MemoOf(r.st.entries, u) == q)
            && (x.Soft? ==> MarkOf(r.st) == n)
  {
    hide IsPaused, IsHard, Undos, ExecutorHalts.Sum, MemoOf, MemosOf, Undercuts, Bubbled, Leave;
    LeaveSplits(a, w, d, u, s1, child, walked);
    var r := Leave(w, d, u.id, s1, walked);
    assert ExecutorHalts.Since(st, r.st, d) == ExecutorHalts.Since(s1, r.st, d);
    if !r.out.Panic? {
      NestedMemo(u, s1.entries, r.st.entries[|s1.entries|].stack);
    }
    if walked.out.Fail? {
      WrapKeeps(walked.out.err);
    }
  }

  // ----- Handlers -----

  lemma {:induction false} RealizeHandle(a: Plan, d: nat, unit: nat, rescue: bool, handler: Unit, m: Mark, x: Exit,
                                         n: Mark, st: State) returns (w: World)
    requires Possible(a) && Proper(handler) && Handled(a, handler, m, x, n) && MarkOf(st) == m && !x.Soft?
    ensures Real(a, w) && Shows(d, x, n, st, Handle(w, d, unit, rescue, handler, st))
    ensures x.Done? ==> Live(w, Handle(w, d, unit, rescue, handler, st).st.tick)
    decreases handler, 0, 3
  {
    hide Proper, Shows, Execute, ExecTo, Real, Live, MemoOf, ExecutorHalts.Told, Unwind, Tidy;
    var q :| ExecTo(a, handler, Fresh, m, x, q, n);
    var asked := Log(st.(entries := []), [Asked(d, unit, rescue)]);
    FreshStack(handler);
    EmptyMemo(handler);
    w := RealizeExec(a, d + 1, handler, Fresh, m, x, q, n, asked);
    ExecutorHalts.ExecuteTells(w, d + 1, handler, asked);
    var r, es := HandleIs(w, d, unit, rescue, handler, st);
    var h := Handle(w, d, unit, rescue, handler, st);
    ExecutorHalts.AfterSame(st, r.st, h.st, es, d);
    ShowsWhat(d + 1, x, n, asked, r);
    HandleShows(d, x, n, st, asked, unit, rescue, r, h);
  }

  lemma HandleShows(d: nat, x: Exit, n: Mark, st: State, asked: State, unit: nat, rescue: bool, r: Result, h: Result)
    requires asked.log == st.log + [Asked(d, unit, rescue)] && asked.log <= r.st.log <= h.st.log
    requires ExecutorHalts.Since(st, h.st, d) == ExecutorHalts.Since(st, r.st, d)
    requires Shows(d + 1, x, n, asked, r) && ExecutorHalts.Told(ExecutorHalts.Since(asked, r.st, d + 1), r.out)
    requires h.out == (if r.out.Panic? then Fail(Plain) else r.out) && MarkOf(h.st) == MarkOf(r.st)
    ensures st.log <= h.st.log && Shows(d, x, n, st, h)
  {
    ExecutorHalts.Deeper(r.st.log[|asked.log|..], d);
    ExecutorHalts.SinceChain(st, asked, r.st, d);
    assert !Is(Plain, ErrPaused);
  }

  /** A handler stopped at its control point fails. */
  lemma HandlerStops(a: Plan, d: nat, unit: nat, rescue: bool, handler: Unit, st: State)
    requires Possible(a)
    ensures var g := Handle(Stopping(a), d, unit, rescue, handler, st);
            && Real(a, Stopping(a)) && Live(Stopping(a), g.st.tick)
            && g.out == Fail(ErrStopped) && MarkOf(g.st) == MarkOf(st) && g.st.entries == st.entries
  {
    hide Real, Live, Stopping, Execute;
    var asked := Log(st.(entries := []), [Asked(d, unit, rescue)]);
    Stops(a, d + 1, handler, asked);
    BuiltReal(a);
    assert Unwind(Stopping(a).undo, Execute(Stopping(a), d + 1, handler, asked).st.tick, []).tick
        == Execute(Stopping(a), d + 1, handler, asked).st.tick;
  }

  lemma DressedKeeps(e: Err)
    ensures IsPaused(HandlerError(e)) == IsPaused(e) && !IsHard(HandlerError(e))
    ensures !IsPaused(HandlerError(ErrStopped))
  {
    assert !Is(ErrStopped, ErrPaused);
  }

  // ----- The loop -----

  lemma {:induction false} RealizeRescue(a: Plan, d: nat, u: Unit, p: Memo, m: Mark, x: Exit, q: Memo, n: Mark,
                                         st: State, base: Reason, cause: Err) returns (w: World)
    requires Possible(a) && Proper(u) && RescueTo(a, u, p, m, x, q, n)
    requires MarkOf(st) == m && MemoOf(st.entries, u) == p && ExecutorHalts.Ordinary(cause)
    ensures Real(a, w) && Shows(d, x, n, st, Resolve(w, d, u, st, base, cause))
    ensures var r := Resolve(w, d, u, st, base, cause);
            GoesOn(x) ==> Live(w, r.st.tick) && MemoOf(r.st.entries, u) == q
    decreases u, 0, 2
  {
    hide Proper, Handled, Real, Live, MemoOf, Resolve, Shows;
    if x.Soft? {
      w := RealizeStanding(a, d, u, st, base, cause);
    } else {
      w := RealizeAnswer(a, d, u, p, m, x, q, n, st, base, cause);
    }
  }

  /** The failure stands, or the handler is stopped at its control point. */
  lemma RealizeStanding(a: Plan, d: nat, u: Unit, st: State, base: Reason, cause: Err) returns (w: World)
    requires Possible(a) && ExecutorHalts.Ordinary(cause)
    ensures Real(a, w) && Shows(d, Soft, START, st, Resolve(w, d, u, st, base, cause))
    ensures var r := Resolve(w, d, u, st, base, cause); Live(w, r.st.tick) && r.st.entries == st.entries
  {
    hide Real, Live, Calm, Stopping, Handle, ExecutorHalts.Sum, IsPaused, IsHard, Stands;
    if u.onError.None? {
      w := Calm(a);
      CalmReal(a);
      StandsSoftly(d, st, base, cause);
    } else {
      w := Stopping(a);
      HandlerStops(a, d, u.id, true, u.onError.value, st);
      DressedKeeps(ErrStopped);
    }
  }

  /** OnError answers as foreseen. */
  lemma {:induction false} RealizeAnswer(a: Plan, d: nat, u: Unit, p: Memo, m: Mark, x: Exit, q: Memo, n: Mark,
                                         st: State, base: Reason, cause: Err) returns (w: World)
    requires Possible(a) && Proper(u) && RescueTo(a, u, p, m, x, q, n) && !x.Soft?
    requires MarkOf(st) == m && MemoOf(st.entries, u) == p
    ensures Real(a, w) && Shows(d, x, n, st, Resolve(w, d, u, st, base, cause))
    ensures var r := Resolve(w, d, u, st, base, cause);
            GoesOn(x) ==> Live(w, r.st.tick) && MemoOf(r.st.entries, u) == q
    decreases u, 0, 1
  {
    hide Proper, Handled, Real, Live, MemoOf, Handle, Shows, IsPaused, IsHard, Stands;
    ProperParts(u);
    w := RealizeHandle(a, d, u.id, true, u.onError.value, m, x, n, st);
    var h, r := Handle(w, d, u.id, true, u.onError.value, st), Resolve(w, d, u, st, base, cause);
    ShowsWhat(d, x, n, st, h);
    if h.out.Fail? {
      DressedKeeps(h.out.err);
      ShowsDressed(d, x, n, st, h, r, [Stamped(d, HandlerFailed)]);
    } else {
      ShowsDressed(d, x, n, st, h, r, [Cleared(d, u.id)]);
    }
  }

  lemma StandsSoftly(d: nat, st: State, base: Reason, cause: Err)
    requires ExecutorHalts.Ordinary(cause)
    ensures var r := Stands(d, st, base, cause);
            && st.log <= r.st.log && r.out.Fail? && ExecutorHalts.Ordinary(r.out.err)
            && r.st.entries == st.entries && r.st.tick == st.tick
  {
  }

  lemma {:induction false} RealizeLoop(a: Plan, d: nat, u: Unit, p: Memo, m: Mark, attempt: nat, x: Exit, q: Memo,
                                       n: Mark, st: State, last: Err) returns (w: World)
    requires Possible(a) && Proper(u) && LoopTo(a, u, p, m, attempt, x, q, n) && ExecutorHalts.Ordinary(last)
    requires MarkOf(st) == m && MemoOf(st.entries, u) == p && Tidy(st.entries, u)
    ensures Real(a, w) && Shows(d, x, n, st, Attempts(w, d, u, st, attempt, last))
    ensures var r := Attempts(w, d, u, st, attempt, last);
            GoesOn(x) ==> Live(w, r.st.tick) && MemoOf(r.st.entries, u) == q
    decreases u, 1 + Spare(a, u, attempt), 1
  {
    hide Proper, Shows, Attempts, ExecTo, NextTo, RescueTo, Real, Live, MemoOf, Tidy, ExecutorHalts.Ordinary;
    if attempt >= Budget(a, u) {
      w := RealizeRescue(a, d, u, p, m, x, q, n, st, ActionFailed, last);
      LoopStops(a, w, d, u, st, attempt, last);
    } else if exists y, r :: EndsLoop(x, y, q, r, n) && ExecTo(a, u, p, m, y, r, n) {
      var y, r :| EndsLoop(x, y, q, r, n) && ExecTo(a, u, p, m, y, r, n);
      w := RealizeOnce(a, d, u, p, m, attempt, x, y, q, r, n, st, last);
    } else {
      var r, k :| ExecTo(a, u, p, m, Soft, r, k) && NextTo(a, u, r, k, attempt, x, q, n);
      w := RealizeAgain(a, d, u, p, m, r, k, attempt, x, q, n, st, last);
    }
  }

  lemma LoopStops(a: Plan, w: World, d: nat, u: Unit, st: State, attempt: nat, last: Err)
    requires Real(a, w) && attempt >= Budget(a, u)
    ensures Attempts(w, d, u, st, attempt, last) == Resolve(w, d, u, st, ActionFailed, last)
  {
    hide Resolve;
  }

  /** The loop ends with this attempt: from then on the world is cancelled. */
  lemma {:induction false} RealizeOnce(a: Plan, d: nat, u: Unit, p: Memo, m: Mark, attempt: nat, x: Exit, y: Exit,
                                       q: Memo, r: Memo, n: Mark, st: State, last: Err) returns (w: World)
    requires Possible(a) && attempt < Budget(a, u) && EndsLoop(x, y, q, r, n) && ExecTo(a, u, p, m, y, r, n)
    requires Proper(u) && MarkOf(st) == m && MemoOf(st.entries, u) == p && Tidy(st.entries, u)
    ensures Real(a, w) && Shows(d, x, n, st, Attempts(w, d, u, st, attempt, last))
    ensures var t := Attempts(w, d, u, st, attempt, last);
            GoesOn(x) ==> Live(w, t.st.tick) && MemoOf(t.st.entries, u) == q
    decreases u, 0, 3
  {
    hide Proper, ExecTo, Real, Live, MemoOf, Execute, Agree, Attempts, Tidy, ExecutorHalts.Sum, Calm, Cancelling,
         Between;
    var began := Log(st.(tick := st.tick + 1), [Began(d, u.id)]);
    var inner := RealizeExec(a, d, u, p, m, y, r, n, began);
    var t := Execute(inner, d, u, began);
    BuiltReal(a);
    w := Between(a, began.tick, inner, t.st.tick, Cancelling(a));
    BetweenAgrees(a, began.tick, inner, t.st.tick, Cancelling(a), 0);
    ExecuteLocal(inner, w, d, u, began);
    CancellingCancels(a, t.st.tick);
    OnceShows(a, w, d, u, attempt, x, y, q, r, n, st, began, last);
  }

  lemma CancellingCancels(a: Plan, t: nat)
    ensures Cancelling(a).cancelled(t)
  {
  }

  lemma OnceShows(a: Plan, w: World, d: nat, u: Unit, attempt: nat, x: Exit, y: Exit, q: Memo, r: Memo, n: Mark,
                  st: State, began: State, last: Err)
    requires Real(a, w) && attempt < Budget(a, u) && EndsLoop(x, y, q, r, n) && !w.cut(st.tick)
    requires began == Log(st.(tick := st.tick + 1), [Began(d, u.id)])
    requires Shows(d, y, n, began, Execute(w, d, u, began)) && w.cancelled(Execute(w, d, u, began).st.tick)
    ensures var e, t := Execute(w, d, u, began), Attempts(w, d, u, st, attempt, last);
            && Shows(d, x, n, st, t)
            && (y.Done? ==> t.st.tick == e.st.tick && t.st.entries == e.st.entries)
  {
    hide Shows, Execute, Real, IsPaused, IsHard;
    RealBudget(a, w, u);
    var e, t := Execute(w, d, u, began), Attempts(w, d, u, st, attempt, last);
    ShowsWhat(d, y, n, began, e);
    assert began.log <= e.st.log;
    if y.Done? {
      assert t == ApplyPending(d, e.st, e.out.value);
      DoneShows(d, x, y, q, r, n, st, e, t);
    } else {
      assert t.out == e.out && t.st.log == e.st.log + [];
      ShowsDressed(d, x, n, began, e, t, []);
      ShowsAfter(d, x, n, st, began, t);
    }
  }

  lemma DoneShows(d: nat, x: Exit, y: Exit, q: Memo, r: Memo, n: Mark, st: State, e: Result, t: Result)
    requires y.Done? && EndsLoop(x, y, q, r, n) && e.out.Ok? && IsTruthy(e.out.value) == y.truthy && MarkOf(e.st) == n
    requires t == ApplyPending(d, e.st, e.out.value) && st.log <= e.st.log
    ensures st.log <= t.st.log && Shows(d, x, n, st, t) && t.st.tick == e.st.tick && t.st.entries == e.st.entries
  {
  }

  /** The attempt fails, and the loop goes on. */
  lemma {:induction false} RealizeAgain(a: Plan, d: nat, u: Unit, p: Memo, m: Mark, r: Memo, k: Mark, attempt: nat,
                                        x: Exit, q: Memo, n: Mark, st: State, last: Err) returns (w: World)
    requires Possible(a) && attempt < Budget(a, u)
    requires ExecTo(a, u, p, m, Soft, r, k) && NextTo(a, u, r, k, attempt, x, q, n)
    requires Proper(u) && MarkOf(st) == m && MemoOf(st.entries, u) == p && Tidy(st.entries, u)
    ensures Real(a, w) && Shows(d, x, n, st, Attempts(w, d, u, st, attempt, last))
    ensures var t := Attempts(w, d, u, st, attempt, last);
            GoesOn(x) ==> Live(w, t.st.tick) && MemoOf(t.st.entries, u) == q
    decreases u, 1 + Spare(a, u, attempt), 0, 1
  {
    hide Proper, ExecTo, NextTo, Real, Live, MemoOf, Execute, Agree, Attempts, Tidy, ExecutorHalts.Ordinary, Retry,
         Ledger, Calm, Between, ExecutorHalts.Sum;
    var began := Log(st.(tick := st.tick + 1), [Began(d, u.id)]);
    var first := RealizeExec(a, d, u, p, m, Soft, r, k, began);
    var e := Execute(first, d, u, began);
    ProperParts(u);
    ExecuteLedger(first, d, u, began);
    LedgerTidy(d, u, began, e);
    var asked := e.st.(tick := e.st.tick + 1);
    var next := RealizeNext(a, d, u, r, k, attempt, x, q, n, asked, e.out.err);
    var t := Retry(next, d, u, asked, attempt, e.out.err);
    w := Threaded(a, began.tick, first, e.st.tick, next, t.st.tick);
    ExecuteLocal(first, w, d, u, began);
    RetryLocal(next, w, d, u, asked, attempt, e.out.err);
    LoopGoes(a, w, d, u, attempt, st, began, asked, last);
    ShowsAfter(d, x, n, st, asked, t);
  }

  /** Calm up to an attempt, one world for it, a calm question after it, and another world for what follows. */
  lemma Threaded(a: Plan, lo: nat, first: World, mid: nat, next: World, end: nat) returns (w: World)
    requires Possible(a) && Real(a, first) && Real(a, next) && 0 < lo <= mid && Live(first, mid)
    ensures Real(a, w) && Agree(first, w, lo, mid) && Agree(next, w, mid + 1, end)
    ensures !w.cut(lo - 1) && !w.cancelled(mid) && (Live(next, end) ==> Live(w, end))
  {
    hide Real, Live, Calm, Agree, Between;
    CalmReal(a);
    CalmLives(a, mid);
    assert Live(Calm(a), mid + 1);
    var tail := Splice(Calm(a), mid + 1, next);
    SpliceReal(a, Calm(a), mid + 1, next);
    w := Between(a, lo, first, mid, tail);
    BetweenAgrees(a, lo, first, mid, tail, end);
    SpliceAgrees(Calm(a), mid + 1, next, mid + 1, end);
    TailAgrees(next, tail, w, mid, end);
  }

  lemma TailAgrees(next: World, tail: World, w: World, at: nat, end: nat)
    requires Agree(next, tail, at + 1, end) && Agree(tail, w, at, end)
    ensures Agree(next, w, at + 1, end)
  {
    forall t | at + 1 <= t < end ensures SameAt(next, w, t) {
      AgreeAt(next, tail, at + 1, end, t);
      AgreeAt(tail, w, at, end, t);
    }
  }

  lemma LoopGoes(a: Plan, w: World, d: nat, u: Unit, attempt: nat, st: State, began: State, asked: State, last: Err)
    requires Real(a, w) && attempt < Budget(a, u) && attempt < Tries(w, u) && !w.cut(st.tick)
    requires began == Log(st.(tick := st.tick + 1), [Began(d, u.id)])
    requires var r := Execute(w, d, u, began);
             && r.out.Fail? && ExecutorHalts.Ordinary(r.out.err) && !w.cancelled(r.st.tick)
             && asked == r.st.(tick := r.st.tick + 1)
    ensures Attempts(w, d, u, st, attempt, last) == Retry(w, d, u, asked, attempt, Execute(w, d, u, began).out.err)
    ensures st.log <= asked.log
  {
    hide Execute, Retry, IsPaused, IsHard;
    assert began.log <= Execute(w, d, u, began).st.log;
  }

  lemma {:induction false} RealizeNext(a: Plan, d: nat, u: Unit, p: Memo, m: Mark, attempt: nat, x: Exit, q: Memo,
                                       n: Mark, st: State, err: Err) returns (w: World)
    requires Possible(a) && attempt < Budget(a, u) && NextTo(a, u, p, m, attempt, x, q, n)
    requires ExecutorHalts.Ordinary(err)
    requires Proper(u) && MarkOf(st) == m && MemoOf(st.entries, u) == p && Tidy(st.entries, u)
    ensures Real(a, w) && attempt < Tries(w, u) && Shows(d, x, n, st, Retry(w, d, u, st, attempt, err))
    ensures var t := Retry(w, d, u, st, attempt, err);
            GoesOn(x) ==> Live(w, t.st.tick) && MemoOf(t.st.entries, u) == q
    decreases u, 1 + Spare(a, u, attempt), 0, 0
  {
    hide Proper, Shows, Attempts, Handled, LoopTo, RescueTo, Real, Live, MemoOf, Tidy, Handle, ExecutorHalts.Ordinary;
    ProperParts(u);
    if x.Soft? && q == p && n == START {
      w := RealizeGiveUp(a, d, u, p, m, attempt, st, err);
    } else if !(attempt + 1 < Budget(a, u) && u.onRetry.Some?) {
      w := RealizeLoop(a, d, u, p, m, attempt + 1, x, q, n, st, err);
      RealBudget(a, w, u);
    } else {
      var h := u.onRetry.value;
      if HaltsSo(x) && Handled(a, h, m, x, n) {
        w := RealizeHandle(a, d, u.id, false, h, m, x, n, st);
        RealBudget(a, w, u);
        var g := Handle(w, d, u.id, false, h, st);
        ShowsWhat(d, x, n, st, g);
        DressedKeeps(g.out.err);
        ShowsDressed(d, x, n, st, g, Retry(w, d, u, st, attempt, err), [Stamped(d, HandlerFailed)]);
      } else if exists k :: Handled(a, h, m, Done(true), k) && LoopTo(a, u, p, k, attempt + 1, x, q, n) {
        var k :| Handled(a, h, m, Done(true), k) && LoopTo(a, u, p, k, attempt + 1, x, q, n);
        w := RealizeGo(a, d, u, p, m, k, attempt, x, q, n, st, err);
      } else {
        var k :| Handled(a, h, m, Done(false), k) && RescueTo(a, u, p, k, x, q, n);
        w := RealizeVeto(a, d, u, p, m, k, attempt, x, q, n, st, err);
      }
    }
  }

  /** Every further attempt, or the handler, is stopped at its control point. */
  lemma {:induction false} RealizeGiveUp(a: Plan, d: nat, u: Unit, p: Memo, m: Mark, attempt: nat, st: State, err: Err)
    returns (w: World)
    requires Possible(a) && attempt < Budget(a, u) && ExecutorHalts.Ordinary(err)
    requires Proper(u) && MarkOf(st) == m && MemoOf(st.entries, u) == p && Tidy(st.entries, u)
    ensures Real(a, w) && attempt < Tries(w, u) && Shows(d, Soft, START, st, Retry(w, d, u, st, attempt, err))
    ensures var t := Retry(w, d, u, st, attempt, err); Live(w, t.st.tick) && MemoOf(t.st.entries, u) == p
    decreases u, 1 + Spare(a, u, attempt + 1), 2, 0
  {
    hide Proper, Attempts, LoopTo, RescueTo, Real, Live, MemoOf, Tidy, Handle, Stopping, ExecutorHalts.Sum, IsPaused,
         IsHard;
    if attempt + 1 < Budget(a, u) && u.onRetry.Some? {
      w := Stopping(a);
      HandlerStops(a, d, u.id, false, u.onRetry.value, st);
      RealBudget(a, w, u);
      DressedKeeps(ErrStopped);
    } else {
      LoopGivesUp(a, u, p, m, attempt + 1);
      w := RealizeLoop(a, d, u, p, m, attempt + 1, Soft, p, START, st, err);
      RealBudget(a, w, u);
    }
  }

  lemma LoopGivesUp(a: Plan, u: Unit, p: Memo, m: Mark, attempt: nat)
    ensures LoopTo(a, u, p, m, attempt, Soft, p, START)
  {
    hide ExecTo, NextTo;
    if attempt < Budget(a, u) {
      CanIdle(a, u, p, m);
      LoopSoft(a, u, p, m, p, m, attempt);
    }
  }

  lemma {:induction false} RealizeGo(a: Plan, d: nat, u: Unit, p: Memo, m: Mark, k: Mark, attempt: nat, x: Exit,
                                     q: Memo, n: Mark, st: State, err: Err) returns (w: World)
    requires Possible(a) && attempt + 1 < Budget(a, u) && u.onRetry.Some? && ExecutorHalts.Ordinary(err)
    requires Handled(a, u.onRetry.value, m, Done(true), k) && LoopTo(a, u, p, k, attempt + 1, x, q, n)
    requires Proper(u) && MarkOf(st) == m && MemoOf(st.entries, u) == p && Tidy(st.entries, u)
    ensures Real(a, w) && attempt < Tries(w, u) && Shows(d, x, n, st, Retry(w, d, u, st, attempt, err))
    ensures var t := Retry(w, d, u, st, attempt, err);
            GoesOn(x) ==> Live(w, t.st.tick) && MemoOf(t.st.entries, u) == q
    decreases u, 1 + Spare(a, u, attempt + 1), 2, 0
  {
    hide Proper, Shows, Attempts, Handled, LoopTo, RescueTo, Real, Live, MemoOf, Tidy, Handle, Agree, Resolve;
    ProperParts(u);
    var h := u.onRetry.value;
    var first := RealizeHandle(a, d, u.id, false, h, m, Done(true), k, st);
    var g := Handle(first, d, u.id, false, h, st);
    ShowsWhat(d, Done(true), k, st, g);
    var next := RealizeLoop(a, d, u, p, k, attempt + 1, x, q, n, g.st, err);
    w := Joined(a, d, u.id, h, st, first, next, Attempts(next, d, u, g.st, attempt + 1, err).st.tick);
    AttemptsLocal(next, w, d, u, g.st, attempt + 1, err);
    RealBudget(a, w, u);
    ShowsAfter(d, x, n, st, g.st, Attempts(w, d, u, g.st, attempt + 1, err));
  }

  lemma {:induction false} RealizeVeto(a: Plan, d: nat, u: Unit, p: Memo, m: Mark, k: Mark, attempt: nat, x: Exit,
                                       q: Memo, n: Mark, st: State, err: Err) returns (w: World)
    requires Possible(a) && attempt + 1 < Budget(a, u) && u.onRetry.Some? && ExecutorHalts.Ordinary(err)
    requires Handled(a, u.onRetry.value, m, Done(false), k) && RescueTo(a, u, p, k, x, q, n)
    requires Proper(u) && MarkOf(st) == m && MemoOf(st.entries, u) == p
    ensures Real(a, w) && attempt < Tries(w, u) && Shows(d, x, n, st, Retry(w, d, u, st, attempt, err))
    ensures var t := Retry(w, d, u, st, attempt, err);
            GoesOn(x) ==> Live(w, t.st.tick) && MemoOf(t.st.entries, u) == q
    decreases u, 0, 3
  {
    hide Proper, Shows, Attempts, Handled, RescueTo, Real, Live, MemoOf, Handle, Agree, Resolve;
    ProperParts(u);
    var h := u.onRetry.value;
    var first := RealizeHandle(a, d, u.id, false, h, m, Done(false), k, st);
    var g := Handle(first, d, u.id, false, h, st);
    ShowsWhat(d, Done(false), k, st, g);
    var next := RealizeRescue(a, d, u, p, k, x, q, n, g.st, RetryVetoed, err);
    w := Joined(a, d, u.id, h, st, first, next, Resolve(next, d, u, g.st, RetryVetoed, err).st.tick);
    ResolveLocal(next, w, d, u, g.st, RetryVetoed, err);
    RealBudget(a, w, u);
    ShowsAfter(d, x, n, st, g.st, Resolve(w, d, u, g.st, RetryVetoed, err));
  }

  /** One world for an OnRetry, and another for what follows it. */
  lemma Joined(a: Plan, d: nat, unit: nat, h: Unit, st: State, first: World, next: World, end: nat) returns (w: World)
    requires Real(a, first) && Real(a, next) && Live(first, Handle(first, d, unit, false, h, st).st.tick)
    ensures Real(a, w) && (Live(next, end) ==> Live(w, end))
    ensures var g := Handle(first, d, unit, false, h, st);
            Handle(w, d, unit, false, h, st) == g && Agree(next, w, g.st.tick, end)
  {
    hide Handle, Real, Live, Agree;
    var at := Handle(first, d, unit, false, h, st).st.tick;
    w := Splice(first, at, next);
    SpliceReal(a, first, at, next);
    SpliceAgrees(first, at, next, st.tick, at);
    SpliceAgrees(first, at, next, at, end);
    HandleLocal(first, w, d, unit, false, h, st);
  }

  // ----- Walks -----

  lemma DispatchIs(w: World, d: nat, u: Unit, st: State)
    ensures Dispatched(w, d, u, st) == Attempts(w, d, u, st, 0, Nothing)
  {
    hide Attempts;
  }

  lemma {:induction false} RealizeWalk(a: Plan, d: nat, units: seq<Unit>, ms: seq<Memo>, m: Mark, truthy: bool, x: Exit,
                                       q: Memo, n: Mark, last: Value, st: State) returns (w: World)
    requires Possible(a) && AllProper(units) && AllDistinct(units) && AllTidy(st.entries, units)
    requires WalkTo(a, units, ms, m, truthy, x, q, n)
    requires MarkOf(st) == m && IsTruthy(last) == truthy && MemosOf(st.entries, units) == ms
    ensures Real(a, w) && Shows(d, x, n, st, Walk(w, d, units, last, st))
    ensures var r := Walk(w, d, units, last, st);
            GoesOn(x) ==> Live(w, r.st.tick) && q == Partial(MemosOf(r.st.entries, units))
    decreases units, 0, 0
  {
    hide Proper, Shows, Dispatched, LoopTo, Real, Live, MemoOf, Tidy, AllTidy, Distinct, Attempts, Calm, AllSettled;
    if units == [] {
      w := Calm(a);
      CalmReal(a);
      NothingShows(d, x, n, st, last);
    } else {
      FirstTidy(units, st.entries);
      if exists r :: EndsWalk(units[0], ms, x, q, r) && LoopTo(a, units[0], ms[0], m, 0, x, r, n) {
        var r :| EndsWalk(units[0], ms, x, q, r) && LoopTo(a, units[0], ms[0], m, 0, x, r, n);
        w := RealizeEnd(a, d, units, ms, m, x, q, r, n, last, st);
      } else {
        var k, t, r, rest :| LoopTo(a, units[0], ms[0], m, 0, Done(t), r, k) && q == Prepend(r, rest)
                             && WalkTo(a, units[1..], ms[1..], k, t, x, rest, n);
        w := RealizeRest(a, d, units, ms, m, x, q, n, k, t, r, rest, last, st);
      }
    }
  }

  lemma NothingShows(d: nat, x: Exit, n: Mark, st: State, last: Value)
    requires x == Done(IsTruthy(last)) && MarkOf(st) == n
    ensures Shows(d, x, n, st, Result(Ok(last), st))
  {
  }

  /** The walk ends with its first unit. */
  lemma {:induction false} RealizeEnd(a: Plan, d: nat, units: seq<Unit>, ms: seq<Memo>, m: Mark, x: Exit, q: Memo,
                                      r: Memo, n: Mark, last: Value, st: State) returns (w: World)
    requires Possible(a) && units != [] && |ms| == |units| && AllProper(units) && AllDistinct(units)
    requires AllTidy(st.entries, units) && EndsWalk(units[0], ms, x, q, r) && LoopTo(a, units[0], ms[0], m, 0, x, r, n)
    requires MarkOf(st) == m && MemosOf(st.entries, units) == ms
    ensures Real(a, w) && Shows(d, x, n, st, Walk(w, d, units, last, st))
    ensures var t := Walk(w, d, units, last, st);
            GoesOn(x) ==> Live(w, t.st.tick) && q == Partial(MemosOf(t.st.entries, units))
    decreases units, 0, 0, 0
  {
    hide Proper, Shows, Dispatched, LoopTo, Real, Live, MemoOf, Tidy, AllTidy, Distinct, Attempts, AllSettled, Ledger,
         LedgerAll;
    var u, rest := units[0], units[1..];
    FirstTidy(units, st.entries);
    assert !IsPaused(Nothing) && !IsHard(Nothing);
    w := RealizeLoop(a, d, u, ms[0], m, 0, x, r, n, st, Nothing);
    DispatchIs(w, d, u, st);
    var e := Dispatched(w, d, u, st);
    ShowsWhat(d, x, n, st, e);
    WalkEndsSo(d, x, n, st, w, units, last);
    DispatchedLedger(w, d, u, st);
    LedgerParts(d, u, st, e);
    UntouchedMemos(rest, {u.id}, st.entries, e.st.entries);
    assert ms[1..] == MemosOf(st.entries, rest);
  }

  /** The walk goes on after its first unit. */
  lemma {:induction false} RealizeRest(a: Plan, d: nat, units: seq<Unit>, ms: seq<Memo>, m: Mark, x: Exit, q: Memo,
                                       n: Mark, k: Mark, t: bool, r: Memo, after: Memo, last: Value,
                                       st: State) returns (w: World)
    requires Possible(a) && units != [] && |ms| == |units| && AllProper(units) && AllDistinct(units)
    requires AllTidy(st.entries, units) && !Completes(units[0]) && LoopTo(a, units[0], ms[0], m, 0, Done(t), r, k)
    requires q == Prepend(r, after) && WalkTo(a, units[1..], ms[1..], k, t, x, after, n)
    requires MarkOf(st) == m && MemosOf(st.entries, units) == ms
    ensures Real(a, w) && Shows(d, x, n, st, Walk(w, d, units, last, st))
    ensures var v := Walk(w, d, units, last, st);
            GoesOn(x) ==> Live(w, v.st.tick) && q == Partial(MemosOf(v.st.entries, units))
    decreases units, 0, 0, 0
  {
    hide Proper, Shows, Dispatched, LoopTo, WalkTo, Real, Live, MemoOf, Tidy, AllTidy, Distinct, Attempts, AllSettled,
         Ledger, LedgerAll, Agree;
    var u, rest := units[0], units[1..];
    FirstTidy(units, st.entries);
    assert !IsPaused(Nothing) && !IsHard(Nothing);
    var first := RealizeLoop(a, d, u, ms[0], m, 0, Done(t), r, k, st, Nothing);
    DispatchIs(first, d, u, st);
    var e := Dispatched(first, d, u, st);
    ShowsWhat(d, Done(t), k, st, e);
    DispatchedLedger(first, d, u, st);
    AfterFirst(d, units, st, e);
    LedgerParts(d, u, st, e);
    UntouchedMemos(rest, {u.id}, st.entries, e.st.entries);
    assert ms[1..] == MemosOf(st.entries, rest);
    var next := RealizeWalk(a, d, rest, ms[1..], k, t, x, after, n, e.out.value, e.st);
    var v := Walk(next, d, rest, e.out.value, e.st);
    w := Splice(first, e.st.tick, next);
    SpliceReal(a, first, e.st.tick, next);
    SpliceAgrees(first, e.st.tick, next, st.tick, e.st.tick);
    SpliceAgrees(first, e.st.tick, next, e.st.tick, v.st.tick);
    DispatchedLocal(first, w, d, u, st);
    WalkLocal(next, w, d, rest, e.out.value, e.st);
    WalkLedger(w, d, rest, e.out.value, e.st);
    FrameOfRest(d, units, e, v);
    ShowsAfter(d, x, n, st, e.st, v);
  }

  /** The first unit's dispatch ends the walk. */
  lemma WalkEndsSo(d: nat, x: Exit, n: Mark, st: State, w: World, units: seq<Unit>, last: Value)
    requires units != [] && Shows(d, x, n, st, Dispatched(w, d, units[0], st))
    requires x.Done? ==> Completes(units[0])
    ensures Shows(d, x, n, st, Walk(w, d, units, last, st))
    ensures Walk(w, d, units, last, st).st == Dispatched(w, d, units[0], st).st
  {
    hide Shows, Dispatched;
    var r, t := Dispatched(w, d, units[0], st), Walk(w, d, units, last, st);
    ShowsWhat(d, x, n, st, r);
    if r.out.Fail? {
      WrapKeeps(r.out.err);
    }
    assert r.st.log + [] == r.st.log;
    ShowsDressed(d, x, n, st, r, t, []);
  }

  // ----- Main results -----

  /** An executor about to dispatch onto the stack. */
  function Ready(m: Mark, entries: seq<Entry>): State {
    State(Running, m.condition, NoReason, [], m.pending, entries, 0, [])
  }

  lemma RealizeDispatch(a: Plan, d: nat, u: Unit, m: Mark, entries: seq<Entry>, behind: bool) returns (w: World)
    requires Possible(a) && Proper(u) && Tidy(entries, u)
    requires LoopTo(a, u, MemoOf(entries, u), m, 0, Fell(behind), Fresh, START)
    ensures Real(a, w) && Shows(d, Fell(behind), START, Ready(m, entries), Dispatched(w, d, u, Ready(m, entries)))
  {
    hide Proper, LoopTo, Shows, Real, Attempts, Tidy, MemoOf;
    assert !IsPaused(Nothing) && !IsHard(Nothing);
    w := RealizeLoop(a, d, u, MemoOf(entries, u), m, 0, Fell(behind), Fresh, START, Ready(m, entries), Nothing);
    DispatchIs(w, d, u, Ready(m, entries));
  }

  /** A dispatch that the analysis clears meets no failed assertion, in any world of the plan. */
  lemma ClearedNeverCrashes(a: Plan, w: World, d: nat, u: Unit, st: State)
    requires Allowed(a, w) && Proper(u) && Tidy(st.entries, u)
    requires !CanCrash(a, u, MemoOf(st.entries, u), MarkOf(st))
    ensures ExecutorHalts.NoCrash(ExecutorHalts.Events(w, d, u, st)) && !Dispatched(w, d, u, st).out.Panic?
  {
    hide Allowed, Proper, Tidy, LoopTo, Dispatched, ExecutorHalts.NoCrash, MemoOf;
    DispatchedForeseen(a, w, d, u, st);
    ExecutorHalts.DispatchedTells(w, d, u, st);
    ExecutorHalts.CrashMeans(ExecutorHalts.Events(w, d, u, st), d);
  }

  /**
   No run of the plan meets a failed assertion if and only if the analysis finds none: over all worlds of the plan, and
   all executors at the mark with the stack.
   */
  lemma CrashFreeExactly(a: Plan, d: nat, u: Unit, m: Mark, entries: seq<Entry>)
    requires Possible(a) && Proper(u) && Tidy(entries, u)
    ensures (forall w: World, st: State :: Allowed(a, w) && Steady(w) && MarkOf(st) == m && st.entries == entries ==>
               ExecutorHalts.NoCrash(ExecutorHalts.Events(w, d, u, st)))
            <==> !CanCrash(a, u, MemoOf(entries, u), m)
  {
    hide Allowed, Steady, Proper, Tidy, LoopTo, Dispatched, ExecutorHalts.NoCrash, ExecutorHalts.Sum, MemoOf;
    if CanCrash(a, u, MemoOf(entries, u), m) {
      var w := RealizeDispatch(a, d, u, m, entries, false);
      var st := Ready(m, entries);
      ExecutorHalts.CrashMeans(ExecutorHalts.Events(w, d, u, st), d);
      assert !ExecutorHalts.NoCrash(ExecutorHalts.Events(w, d, u, st)) && MarkOf(st) == m;
    } else {
      forall w: World, st: State | Allowed(a, w) && Steady(w) && MarkOf(st) == m && st.entries == entries
        ensures ExecutorHalts.NoCrash(ExecutorHalts.Events(w, d, u, st))
      {
        ClearedNeverCrashes(a, w, d, u, st);
      }
    }
  }

  /** A dispatch that the analysis clears lets no pause be lost, in any world of the plan. */
  lemma HaltsSurvive(a: Plan, w: World, d: nat, u: Unit, st: State)
    requires Allowed(a, w) && Proper(u) && Tidy(st.entries, u)
    requires !CanLosePause(a, u, MemoOf(st.entries, u), MarkOf(st))
    ensures ExecutorHalts.HaltsComeOut(w, d, u, st)
  {
    hide Allowed, Proper, Tidy, LoopTo, Dispatched, ExecutorHalts.Sum, ExecutorHalts.PauseLost,
         ExecutorHalts.HaltsComeOut, MemoOf;
    DispatchedForeseen(a, w, d, u, st);
    ExecutorHalts.LostMeans(ExecutorHalts.Events(w, d, u, st), d);
    ExecutorHalts.UnlostHaltsComeOut(w, d, u, st);
  }

  /**
   Pauses and hard failures always come out of a dispatch as such, with no work after them, if and only if the analysis
   finds no assertion that can fail behind a pause.
   */
  lemma HaltReachesTheRoot(a: Plan, d: nat, u: Unit, m: Mark, entries: seq<Entry>)
    requires Possible(a) && Proper(u) && Tidy(entries, u)
    ensures (forall w: World, st: State :: Allowed(a, w) && Steady(w) && MarkOf(st) == m && st.entries == entries ==>
               ExecutorHalts.HaltsComeOut(w, d, u, st))
            <==> !CanLosePause(a, u, MemoOf(entries, u), m)
  {
    hide Allowed, Steady, Proper, Tidy, LoopTo, Dispatched, ExecutorHalts.HaltsComeOut, MemoOf;
    if CanLosePause(a, u, MemoOf(entries, u), m) {
      var w := RealizeDispatch(a, d, u, m, entries, true);
      var st := Ready(m, entries);
      LostStaysIn(d, w, u, st);
      assert !ExecutorHalts.HaltsComeOut(w, d, u, st) && MarkOf(st) == m;
    } else {
      forall w: World, st: State | Allowed(a, w) && Steady(w) && MarkOf(st) == m && st.entries == entries
        ensures ExecutorHalts.HaltsComeOut(w, d, u, st)
      {
        HaltsSurvive(a, w, d, u, st);
      }
    }
  }

  /** A pause was raised, and the dispatch does not end paused. */
  lemma LostStaysIn(d: nat, w: World, u: Unit, st: State)
    requires Shows(d, Fell(true), START, st, Dispatched(w, d, u, st))
    ensures !ExecutorHalts.HaltsComeOut(w, d, u, st)
  {
    hide Dispatched, ExecutorHalts.Sum;
    var es := ExecutorHalts.Events(w, d, u, st);
    ExecutorHalts.LostMeans(es, d);
    var i, j :| 0 <= i < j < |es| && ExecutorHalts.IsPause(es[i]) && es[j].Crashed?;
    assert ExecutorHalts.HasPause(es);
  }
}
