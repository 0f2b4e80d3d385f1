/**
 At most once, from what is known before a run: where every action resolves, every claim holds and no assertion can
 fail, no scope's stack is dropped, so nothing that succeeded is done again.
 */
module ExecutorOnce {
  import opened Options
  import opened RunStatus
  import opened Failure
  import opened Recovery
  import opened Executor
  import opened ExecutorDepth
  import opened ExecutorStack
  import opened ExecutorPlans
  import ExecutorCrash
  import ExecutorHalts
  import ExecutorStops
  import ExecutorWitness

  /** Every scope can be entered again: its action resolves and its claims hold whenever they are asked for. */
  ghost predicate Reenters(w: World) {
    (forall x: nat, t: nat :: w.bound(x, t)) && (forall t: nat :: w.claims(t))
  }

  /** From `a` to `b` no scope's stack was dropped at this depth. */
  ghost predicate Keeps(a: State, b: State, d: nat) {
    a.log <= b.log && forall i :: |a.log| <= i < |b.log| && b.log[i].Lost? ==> b.log[i].depth != d
  }

  lemma KeepsChain(a: State, b: State, c: State, d: nat)
    requires Keeps(a, b, d) && Keeps(b, c, d)
    ensures Keeps(a, c, d)
  {
    assert forall i :: |a.log| <= i < |b.log| ==> c.log[i] == b.log[i];
  }

  lemma KeepsLogged(a: State, b: State, events: seq<Event>, d: nat)
    requires b.log == a.log + events && forall i :: 0 <= i < |events| ==> !events[i].Lost?
    ensures Keeps(a, b, d)
  {
  }

  lemma {:induction false} NothingLost(es: seq<Event>, d: nat)
    requires forall i :: 0 <= i < |es| && es[i].Lost? ==> es[i].depth != d
    ensures Count(es, d).kept
    decreases |es|
  {
    if es != [] {
      NothingLost(es[..|es|-1], d);
    }
  }

  // ----- No dispatch drops a stack, short of a failed assertion -----

  lemma {:induction false} DispatchedKeeps(w: World, d: nat, u: Unit, st: State)
    requires Reenters(w) && !Dispatched(w, d, u, st).out.Panic?
    ensures Keeps(st, Dispatched(w, d, u, st).st, d)
    decreases u, 2 + Left(w, u, 0), 0
  {
    AttemptsKeeps(w, d, u, st, 0, Nothing);
  }

  lemma {:induction false} AttemptsKeeps(w: World, d: nat, u: Unit, st: State, attempt: nat, last: Err)
    requires Reenters(w) && !Attempts(w, d, u, st, attempt, last).out.Panic?
    ensures Keeps(st, Attempts(w, d, u, st, attempt, last).st, d)
    decreases u, 1 + Left(w, u, attempt), 1
  {
    hide Reenters, Keeps, Execute, Retry, Resolve, ApplyPending, IsPaused, IsHard;
    var t := Attempts(w, d, u, st, attempt, last);
    if attempt >= Tries(w, u) {
      ResolveKeeps(w, d, u, st, ActionFailed, last);
    } else if attempt > 0 && w.cut(st.tick) {
      KeepsLogged(st, t.st, [Cleared(d, u.id)], d);
    } else {
      var began := Log(st.(tick := st.tick + 1), [Began(d, u.id)]);
      KeepsLogged(st, began, [Began(d, u.id)], d);
      ExecuteKeeps(w, d, u, began);
      var r := Execute(w, d, u, began);
      KeepsChain(st, began, r.st, d);
      match r.out
      case Ok(value) =>
        PendingKeeps(d, r.st, value);
        KeepsChain(st, r.st, t.st, d);
      case Fail(err) =>
        var asked := r.st.(tick := r.st.tick + 1);
        KeepsLogged(r.st, asked, [], d);
        KeepsChain(st, r.st, asked, d);
        if !IsPaused(err) && !w.cancelled(r.st.tick) && !IsHard(err) {
          RetryKeeps(w, d, u, asked, attempt, err);
          KeepsChain(st, asked, t.st, d);
        }
    }
  }

  lemma PendingKeeps(d: nat, st: State, value: Value)
    ensures Keeps(st, ApplyPending(d, st, value).st, d)
  {
  }

  lemma {:induction false} RetryKeeps(w: World, d: nat, u: Unit, st: State, attempt: nat, err: Err)
    requires attempt < Tries(w, u) && Reenters(w) && !Retry(w, d, u, st, attempt, err).out.Panic?
    ensures Keeps(st, Retry(w, d, u, st, attempt, err).st, d)
    decreases u, 1 + Left(w, u, attempt), 0
  {
    hide Reenters, Keeps, Handle, Attempts, Resolve;
    var t := Retry(w, d, u, st, attempt, err);
    if attempt + 1 < Tries(w, u) && u.onRetry.Some? {
      HandleKeeps(w, d, u.id, false, u.onRetry.value, st);
      var g := Handle(w, d, u.id, false, u.onRetry.value, st);
      match g.out
      case Fail(e) => KeepsLogged(g.st, t.st, [Stamped(d, HandlerFailed)], d);
                      KeepsChain(st, g.st, t.st, d);
      case Ok(verdict) =>
        if IsTruthy(verdict) {
          AttemptsKeeps(w, d, u, g.st, attempt + 1, err);
        } else {
          ResolveKeeps(w, d, u, g.st, RetryVetoed, err);
        }
        KeepsChain(st, g.st, t.st, d);
    } else {
      AttemptsKeeps(w, d, u, st, attempt + 1, err);
    }
  }

  lemma {:induction false} ResolveKeeps(w: World, d: nat, u: Unit, st: State, base: Reason, cause: Err)
    requires Reenters(w) && !Resolve(w, d, u, st, base, cause).out.Panic?
    ensures Keeps(st, Resolve(w, d, u, st, base, cause).st, d)
    decreases u, 0, 2
  {
    hide Reenters, Keeps, Handle;
    var t := Resolve(w, d, u, st, base, cause);
    if u.onError.None? {
      StandsKeeps(d, st, base, cause);
    } else {
      HandleKeeps(w, d, u.id, true, u.onError.value, st);
      var h := Handle(w, d, u.id, true, u.onError.value, st);
      StandsKeeps(d, h.st, base, cause);
      var e := if h.out.Fail? then Stamped(d, HandlerFailed) else Cleared(d, u.id);
      KeepsLogged(h.st, Log(h.st, [e]), [e], d);
      KeepsChain(st, h.st, t.st, d);
    }
  }

  lemma StandsKeeps(d: nat, st: State, base: Reason, cause: Err)
    ensures Keeps(st, Stands(d, st, base, cause).st, d)
  {
  }

  /** What happens inside a handler is deeper. */
  lemma HandleKeeps(w: World, d: nat, unit: nat, rescue: bool, handler: Unit, st: State)
    ensures Keeps(st, Handle(w, d, unit, rescue, handler, st).st, d)
  {
    hide Execute;
    var asked := Log(st.(entries := []), [Asked(d, unit, rescue)]);
    var r, after := HandleIs(w, d, unit, rescue, handler, st);
    forall i | |asked.log| <= i < |r.st.log| ensures r.st.log[i].depth >= d + 1 {
      ExecuteDeep(w, d + 1, handler, asked, i);
    }
    var h := Handle(w, d, unit, rescue, handler, st).st;
    assert r.st.log[|st.log|] == asked.log[|st.log|];
    forall i | |r.st.log| <= i < |h.log| ensures !h.log[i].Lost? {
      assert h.log[i] == after[i - |r.st.log|];
    }
    assert forall i :: 0 <= i < |r.st.log| ==> h.log[i] == r.st.log[i];
  }

  lemma {:induction false} ExecuteKeeps(w: World, d: nat, u: Unit, st: State)
    requires Reenters(w) && !Execute(w, d, u, st).out.Panic?
    ensures Keeps(st, Execute(w, d, u, st).st, d)
    decreases u, 0, 1
  {
    hide Reenters, Node, Subgraph;
    var t, s := st.tick, st.(tick := st.tick + 1);
    if !w.cancelled(t) && !ControlPoint(w, d, t, s).out.Fail? {
      if u.body.Leaf? {
        NodeKeeps(w, d, t, u, s);
      } else {
        SubgraphKeeps(w, d, t, u, s);
      }
    }
  }

  lemma NodeKeeps(w: World, d: nat, t: nat, u: Unit, s: State)
    ensures Keeps(s, Node(w, d, t, u, s).st, d)
  {
    hide FindReceipt;
    SubmitGrew(w, s, u.id, w.act(u.id, t).flips);
  }

  lemma {:induction false} SubgraphKeeps(w: World, d: nat, t: nat, u: Unit, s: State)
    requires u.body.Scope? && Reenters(w) && !Subgraph(w, d, t, u, s).out.Panic?
    ensures Keeps(s, Subgraph(w, d, t, u, s).st, d)
    decreases u, 0, 0
  {
    hide Walk, Leave, FindNested, Supersede, Undos;
    var prior := FindNested(s.entries, u.id);
    if prior.None? || prior.value.failed {
      var s1 := if prior.Some? then s.(entries := Supersede(s.entries, u.id)) else s;
      var child := Child(s1, if prior.Some? then prior.value.entries else []);
      var walked := Walk(w, d, u.body.children, Nil, child);
      assert w.bound(u.id, t) && w.claims(t);
      LeaveKeeps(w, d, u.id, s1, walked);
      WalkKeeps(w, d, u.body.children, Nil, child);
    }
  }

  lemma LeaveKeeps(w: World, d: nat, unit: nat, s1: State, walked: Result)
    requires !Leave(w, d, unit, s1, walked).out.Panic?
    ensures !walked.out.Panic? && Leave(w, d, unit, s1, walked).st.log == walked.st.log
  {
    hide Undos, IsPaused;
  }

  lemma {:induction false} WalkKeeps(w: World, d: nat, units: seq<Unit>, last: Value, st: State)
    requires Reenters(w) && !Walk(w, d, units, last, st).out.Panic?
    ensures Keeps(st, Walk(w, d, units, last, st).st, d)
    decreases units, 0, 0
  {
    hide Reenters, Dispatched;
    if units != [] {
      DispatchedKeeps(w, d, units[0], st);
      var r := Dispatched(w, d, units[0], st);
      if r.out.Ok? && !(units[0].body.Leaf? && units[0].body.completes) {
        WalkKeeps(w, d, units[1..], r.out.value, r.st);
        KeepsChain(st, r.st, Walk(w, d, units, last, st).st, d);
      }
    }
  }

  // ----- At most once -----

  /** What is asked of a dispatch before it starts. */
  ghost predicate Vetted(a: Plan, w: World, u: Unit, entries: seq<Entry>, m: Mark) {
    && Allowed(a, w) && Reenters(w) && ExecutorCrash.Proper(u) && Tidy(entries, u)
    && !CanCrash(a, u, MemoOf(entries, u), m)
  }

  lemma VettedKeeps(a: Plan, w: World, d: nat, u: Unit, st: State)
    requires Vetted(a, w, u, st.entries, MarkOf(st))
    ensures Count(Dispatched(w, d, u, st).st.log[|st.log|..], d).kept
  {
    hide Allowed, Reenters, ExecutorCrash.Proper, Tidy, CanCrash, MemoOf, Dispatched;
    ExecutorWitness.ClearedNeverCrashes(a, w, d, u, st);
    DispatchedKeeps(w, d, u, st);
    NothingLost(Dispatched(w, d, u, st).st.log[|st.log|..], d);
  }

  /**
   At most once: no node succeeds twice, whatever is retried, and a node settled on the stack the dispatch starts from
   does not succeed again; what succeeded is settled afterwards.
   */
  lemma NothingSucceedsTwice(a: Plan, w: World, d: nat, u: Unit, st: State, x: nat)
    requires Vetted(a, w, u, st.entries, MarkOf(st))
    ensures var r := Dispatched(w, d, u, st);
            var n := Count(r.st.log[|st.log|..], d).succeeded[x];
            && n <= 1 && (x in ExecutorStack.Settled(st.entries, u) ==> n == 0)
            && (n == 1 || x in ExecutorStack.Settled(st.entries, u) ==> x in ExecutorStack.Settled(r.st.entries, u))
  {
    hide Dispatched, ExecutorStack.Settled;
    VettedKeeps(a, w, d, u, st);
    ExecutorCrash.ProperParts(u);
    OnceWhileKept(w, d, u, st, x);
  }

  /**
   A paused run and its resumption: `resumed` is any executor restored with the paused run's stack, in any other world.
   Together the two runs let each node succeed at most once, and leave on the stack what both left.
   */
  lemma ResumeRepeatsNothing(a: Plan, w: World, a': Plan, w': World, u: Unit, st: State, resumed: State, x: nat)
    requires st.entries == [] && Vetted(a, w, u, st.entries, MarkOf(st))
    requires resumed.entries == Dispatched(w, 0, u, st).st.entries
    requires Vetted(a', w', u, resumed.entries, MarkOf(resumed))
    ensures var first := Count(Dispatched(w, 0, u, st).st.log[|st.log|..], 0);
            var second := Count(Dispatched(w', 0, u, resumed).st.log[|resumed.log|..], 0);
            && first.succeeded[x] + second.succeeded[x] <= 1
            && Undos(Dispatched(w', 0, u, resumed).st.entries) == first.undoable + second.undoable
  {
    hide Dispatched, Undos;
    VettedKeeps(a, w, 0, u, st);
    VettedKeeps(a', w', 0, u, resumed);
    KeptForgetsNothing(Dispatched(w, 0, u, st).st.log[|st.log|..], 0);
    KeptForgetsNothing(Dispatched(w', 0, u, resumed).st.log[|resumed.log|..], 0);
    ExecutorCrash.ProperParts(u);
    ResumeWhileKept(w, w', u, st, resumed, x);
  }

  lemma {:induction false} KeptForgetsNothing(es: seq<Event>, d: nat)
    requires Count(es, d).kept
    ensures Count(es, d).forgotten == multiset{}
    decreases |es|
  {
    if es != [] {
      KeptForgetsNothing(es[..|es|-1], d);
    }
  }

  // ----- Claims that come and go -----

  /** A scope of two nodes with two retries. */
  function RetriedScope(): Unit {
    Unit(1, Some(2), None, None, Scope([ExecutorStops.PlainNode(2), ExecutorStops.PlainNode(3)]))
  }

  /** Node 3 always fails, and the scope's claims do not hold when it is entered for the second time. */
  function FickleWorld(): World {
    CalmWorld(0, map[]).(
      claims := (t: nat) => t != 9,
      act := (x: nat, t: nat) => Act([], false, if x == 3 then Refused(Plain) else Returned(Val(0, true))))
  }

  /** What an attempt that walks the scope logs. */
  function Tried(): seq<Event> {
    [Began(0, 2), Acted(0, 2, true, false)] + [Began(0, 3), Acted(0, 3, false, false), Stamped(0, ActionFailed)]
  }

  const SCOPE_FAILED := Wrap(Wrap(Dispatch(ActionFailed, Wrap(Plain), false)))
  const REFUSED := Wrap(Dispatch(PreflightFailed, Plain, false))

  /**
   Node 2 succeeds in the first attempt, is dropped with the scope's stack in the second, and succeeds in the third.
   */
  lemma FickleClaimsRepeat()
    ensures var st := State(Running, Healthy, NoReason, [], Continue, [], 0, []);
            Count(Dispatched(FickleWorld(), 0, RetriedScope(), st).st.log, 0).succeeded[2] == 2
  {
    hide Dispatched, Attempts, FickleWorld, RetriedScope, Count, Tried, FindNested;
    var st := State(Running, Healthy, NoReason, [], Continue, [], 0, []);
    var enter := [Began(0, 1)];
    var refused := enter + [Lost(0, multiset{}), Stamped(0, PreflightFailed)];
    ExecutorStops.NothingNested(1);
    var a1 := TriesOnce(st, 0, Nothing);
    var a2 := RefusesOnce(a1);
    var a3 := TriesOnce(a2, 2, REFUSED);
    GivesUp(a3);
    assert a1.log == enter + Tried();
    assert a3.log == ((enter + Tried()) + refused) + (enter + Tried());
    CountTried();
    CountRefused();
    CountConcat((enter + Tried()) + refused, enter + Tried(), 0);
    CountConcat(enter + Tried(), refused, 0);
    assert Dispatched(FickleWorld(), 0, RetriedScope(), st).st.log == a3.log by {
      DispatchIs(st);
    }
  }

  lemma DispatchIs(st: State)
    ensures Dispatched(FickleWorld(), 0, RetriedScope(), st) ==
              Attempts(FickleWorld(), 0, RetriedScope(), st, 0, Nothing)
  {
    hide Attempts;
  }

  lemma SucceededConcat(a: seq<Event>, b: seq<Event>, d: nat)
    ensures Count(a + b, d).succeeded == Count(a, d).succeeded + Count(b, d).succeeded
  {
    hide Count;
    CountConcat(a, b, d);
  }

  lemma SucceededNone(es: seq<Event>, d: nat)
    requires forall i :: 0 <= i < |es| ==> !es[i].Acted? && !es[i].Lost?
    ensures Count(es, d).succeeded == multiset{}
  {
    hide Count;
    CountIdle(es, d);
  }

  lemma CountTried()
    ensures Count([Began(0, 1)] + Tried(), 0).succeeded == multiset{2}
  {
    hide Count;
    var a, b, c, e := [Began(0, 1), Began(0, 2)], [Acted(0, 2, true, false)],
                      [Began(0, 3)], [Acted(0, 3, false, false)];
    var f := [Stamped(0, ActionFailed)];
    assert [Began(0, 1)] + Tried() == (((a + b) + c) + e) + f;
    SucceededConcat(((a + b) + c) + e, f, 0);
    SucceededConcat((a + b) + c, e, 0);
    SucceededConcat(a + b, c, 0);
    SucceededConcat(a, b, 0);
    SucceededNone(a, 0);
    SucceededNone(c, 0);
    SucceededNone(f, 0);
    CountSingle(b[0], 0);
    CountSingle(e[0], 0);
  }

  lemma CountRefused()
    ensures Count([Began(0, 1)] + [Lost(0, multiset{}), Stamped(0, PreflightFailed)], 0).succeeded == multiset{}
  {
    hide Count;
    var a, b, c := [Began(0, 1)], [Lost(0, multiset{})], [Stamped(0, PreflightFailed)];
    assert [Began(0, 1)] + [Lost(0, multiset{}), Stamped(0, PreflightFailed)] == (a + b) + c;
    SucceededConcat(a + b, c, 0);
    SucceededConcat(a, b, 0);
    SucceededNone(a, 0);
    SucceededNone(c, 0);
    CountSingle(b[0], 0);
  }

  /** One turn of the scope's retry loop. */
  lemma Turns(st: State, attempt: nat, last: Err, r: Result)
    requires attempt < 3 && r == Execute(FickleWorld(), 0, RetriedScope(), Log(st.(tick := st.tick + 1), [Began(0, 1)]))
    requires r.out.Fail? && !IsPaused(r.out.err) && !IsHard(r.out.err)
    ensures Attempts(FickleWorld(), 0, RetriedScope(), st, attempt, last) ==
              Attempts(FickleWorld(), 0, RetriedScope(), r.st.(tick := r.st.tick + 1), attempt + 1, r.out.err)
  {
    assert Tries(FickleWorld(), RetriedScope()) == 3;
    TurnOn(FickleWorld(), 0, RetriedScope(), st, attempt, last, r);
  }

  /** A failed attempt of a unit without OnRetry, when another is left and the context does not end the wait. */
  lemma TurnOn(w: World, d: nat, u: Unit, st: State, attempt: nat, last: Err, r: Result)
    requires attempt < Tries(w, u) && u.onRetry.None? && !w.cut(st.tick) && !w.cancelled(r.st.tick)
    requires r == Execute(w, d, u, Log(st.(tick := st.tick + 1), [Began(d, u.id)]))
    requires r.out.Fail? && !IsPaused(r.out.err) && !IsHard(r.out.err)
    ensures Attempts(w, d, u, st, attempt, last) ==
              Attempts(w, d, u, r.st.(tick := r.st.tick + 1), attempt + 1, r.out.err)
  {
    hide Execute, Resolve, IsPaused, IsHard, Handle, ApplyPending;
    var asked := r.st.(tick := r.st.tick + 1);
    assert Retry(w, d, u, asked, attempt, r.out.err) == Attempts(w, d, u, asked, attempt + 1, r.out.err);
    assert Attempts(w, d, u, st, attempt, last) == Retry(w, d, u, asked, attempt, r.out.err);
  }

  /** The last failure stands: it carries its reason. */
  lemma GivesUp(st: State)
    ensures Attempts(FickleWorld(), 0, RetriedScope(), st, 3, SCOPE_FAILED).st == st
  {
    hide Execute, Retry;
    assert As(SCOPE_FAILED).Some?;
  }

  /** The claims hold: the scope is walked. */
  lemma TriesOnce(st: State, attempt: nat, last: Err) returns (after: State)
    requires attempt < 3 && st.tick != 8 && FindNested(st.entries, 1).None?
    ensures Attempts(FickleWorld(), 0, RetriedScope(), st, attempt, last) ==
              Attempts(FickleWorld(), 0, RetriedScope(), after, attempt + 1, SCOPE_FAILED)
    ensures after.log == st.log + ([Began(0, 1)] + Tried()) && after.tick == st.tick + 8
    ensures exists inner ::
              after.entries == st.entries + [Nested(Stack(1, Nil, true, inner))] && Undos(inner) == multiset{}
  {
    hide FindNested, Walk, Tried, Attempts, Undos, FindReceipt, Transition, IsPaused, IsHard, As, Supersede;
    var w, u := FickleWorld(), RetriedScope();
    var began := Log(st.(tick := st.tick + 1), [Began(0, 1)]);
    var s := began.(tick := st.tick + 2);
    var walked := Walks(Child(s, []));
    var r := Execute(w, 0, u, began);
    var failed := Result(Fail(Wrap(Dispatch(ActionFailed, Wrap(Plain), false))), walked);
    assert r == Subgraph(w, 0, st.tick + 1, u, s) == Leave(w, 0, 1, s, failed);
    OrdinaryOnes();
    Turns(st, attempt, last, r);
    after := r.st.(tick := r.st.tick + 1);
    assert after.entries == st.entries + [Nested(Stack(1, Nil, true, walked.entries))];
  }

  lemma OrdinaryOnes()
    ensures !IsPaused(SCOPE_FAILED) && !IsHard(SCOPE_FAILED) && !IsPaused(REFUSED) && !IsHard(REFUSED)
    ensures !IsPaused(Wrap(Dispatch(ActionFailed, Wrap(Plain), false))) && !IsPaused(Wrap(Plain))
    ensures !IsHard(Wrap(Plain))
  {
    assert !Is(Plain, ErrPaused);
  }

  /** The claims do not hold: what was adopted is dropped. */
  lemma RefusesOnce(st: State) returns (after: State)
    requires st.tick == 8
    requires exists inner :: st.entries == [Nested(Stack(1, Nil, true, inner))] && Undos(inner) == multiset{}
    ensures Attempts(FickleWorld(), 0, RetriedScope(), st, 1, SCOPE_FAILED) ==
              Attempts(FickleWorld(), 0, RetriedScope(), after, 2, REFUSED)
    ensures after.log == st.log + ([Began(0, 1)] + [Lost(0, multiset{}), Stamped(0, PreflightFailed)])
    ensures after.tick != 8 && FindNested(after.entries, 1).None?
  {
    hide Walk, Attempts, Undos, FindReceipt, Transition, IsPaused, IsHard, As, Leave;
    var inner :| st.entries == [Nested(Stack(1, Nil, true, inner))] && Undos(inner) == multiset{};
    var w, u := FickleWorld(), RetriedScope();
    var began := Log(st.(tick := 9), [Began(0, 1)]);
    var r := Execute(w, 0, u, began);
    assert st.entries[..0] == [];
    assert FindNested(st.entries, 1) == Some(Stack(1, Nil, true, inner));
    assert Supersede(st.entries, 1) == [];
    assert r == Subgraph(w, 0, 9, u, began.(tick := 10));
    OrdinaryOnes();
    Turns(st, 1, SCOPE_FAILED, r);
    after := r.st.(tick := r.st.tick + 1);
    assert after.entries == [Receipt(1, false, Nil, false)];
    assert after.entries[..0] == [];
  }

  lemma Walks(st: State) returns (after: State)
    requires st.entries == [] && st.condition == Healthy && st.pending == Continue
    ensures Walk(FickleWorld(), 0, RetriedScope().body.children, Nil, st) ==
              Result(Fail(Wrap(Dispatch(ActionFailed, Wrap(Plain), false))), after)
    ensures after.log == st.log + Tried() && after.tick == st.tick + 5 && Undos(after.entries) == multiset{}
    ensures after.condition == Healthy
  {
    hide Dispatched, Undos;
    var units := RetriedScope().body.children;
    var first := NodeSucceeds(st);
    assert first.entries[..0] == [];
    assert FindReceipt(first.entries, 3).None?;
    ExecutorStops.NodeFailsOnce(FickleWorld(), 0, 3, first);
    after := Dispatched(FickleWorld(), 0, units[1], first).st;
    assert units[1..] == [units[1]];
    EmptyUndos();
    UndosPush([], Receipt(2, true, Val(0, true), false));
    UndosPush(first.entries, Receipt(3, false, Nil, false));
    assert [] + [Receipt(2, true, Val(0, true), false)] == first.entries;
  }

  lemma NodeSucceeds(st: State) returns (after: State)
    requires st.entries == [] && st.condition == Healthy && st.pending == Continue
    ensures Dispatched(FickleWorld(), 0, ExecutorStops.PlainNode(2), st) == Result(Ok(Val(0, true)), after)
    ensures after == Log(st.(tick := st.tick + 2, entries := [Receipt(2, true, Val(0, true), false)]),
                         [Began(0, 2), Acted(0, 2, true, false)])
  {
    hide Dispatched, FindReceipt, Transition;
    var w, u := FickleWorld(), ExecutorStops.PlainNode(2);
    var began := Log(st.(tick := st.tick + 1), [Began(0, 2)]);
    var s := began.(tick := st.tick + 2);
    ExecutorStops.NothingNested(2);
    assert Submit(w, s, 2, []) == Submitted(true, s);
    var r := Execute(w, 0, u, began);
    assert r == Node(w, 0, began.tick, u, s);
    ExecutorStops.SucceedsOnce(w, 0, u, st);
    after := r.st;
  }
}
