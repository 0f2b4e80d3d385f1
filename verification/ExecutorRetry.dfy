/** What one dispatch spends: attempts, OnRetry gates and OnError rescues, counted in the history it leaves. */
module ExecutorRetry {
  import opened Options
  import opened RunStatus
  import opened Failure
  import opened Recovery
  import opened Executor
  import opened ExecutorDepth
  import ExecutorHalts
  import opened ExecutorStack

  // ----- Counting one unit's events at one handler depth -----

  datatype Spending = Spending(attempts: nat, gates: nat, rescues: nat)

  function Free(): Spending { Spending(0, 0, 0) }

  function Add(a: Spending, b: Spending): Spending {
    Spending(a.attempts + b.attempts, a.gates + b.gates, a.rescues + b.rescues)
  }

  lemma AddIs(a: Spending, b: Spending)
    ensures Add(a, b).attempts == a.attempts + b.attempts
    ensures Add(a, b).gates == a.gates + b.gates && Add(a, b).rescues == a.rescues + b.rescues
  {
  }

  function Cost(es: multiset<Event>, d: nat, unit: nat): Spending {
    Spending(es[Began(d, unit)], es[Asked(d, unit, false)], es[Asked(d, unit, true)])
  }

  /** What was spent from `a` to `b`. */
  function Spent(a: State, b: State, d: nat, unit: nat): Spending
    requires a.log <= b.log
  {
    Cost(multiset(b.log[|a.log|..]), d, unit)
  }

  lemma SpentChain(a: State, b: State, c: State, d: nat, unit: nat)
    requires a.log <= b.log <= c.log
    ensures Spent(a, c, d, unit) == Add(Spent(a, b, d, unit), Spent(b, c, d, unit))
  {
    assert c.log[|a.log|..] == b.log[|a.log|..] + c.log[|b.log|..];
  }

  lemma FreeChain(a: State, b: State, c: State, d: nat, unit: nat)
    requires a.log <= b.log <= c.log
    requires Spent(a, b, d, unit) == Free() && Spent(b, c, d, unit) == Free()
    ensures Spent(a, c, d, unit) == Free()
  {
    hide Spent, Add;
    SpentChain(a, b, c, d, unit);
    FreeTwice();
  }

  lemma FreeTwice()
    ensures Add(Free(), Free()) == Free()
  {
    hide Add;
    AddIs(Free(), Free());
  }

  /** The history alone tells what was spent. */
  lemma SameLogs(a: State, a': State, b: State, b': State, d: nat, unit: nat)
    requires a.log == a'.log && b.log == b'.log && a.log <= b.log
    ensures Spent(a, b, d, unit) == Spent(a', b', d, unit)
  {
  }

  lemma SpentSame(a: State, b: State, c: State, d: nat, unit: nat)
    requires a.log <= b.log && b.log == c.log
    ensures Spent(a, b, d, unit) == Spent(a, c, d, unit)
  {
  }

  lemma SpentOne(a: State, b: State, e: Event, d: nat, unit: nat)
    requires b.log == a.log + [e]
    ensures Spent(a, b, d, unit) == Cost(multiset{e}, d, unit)
  {
    assert b.log[|a.log|..] == [e];
  }

  /** The event spends nothing of the unit's. */
  predicate Idle(e: Event, d: nat, unit: nat) {
    e.Began? || e.Asked? ==> e.depth != d || e.unit != unit
  }

  lemma CostsNothing(e: Event, d: nat, unit: nat)
    requires Idle(e, d, unit)
    ensures Cost(multiset{e}, d, unit) == Free()
  {
  }

  lemma AllFree(es: seq<Event>, d: nat, unit: nat)
    requires forall i :: 0 <= i < |es| ==> Idle(es[i], d, unit)
    ensures Cost(multiset(es), d, unit) == Free()
  {
    assert forall e :: e in es ==> Idle(e, d, unit);
    assert !Idle(Began(d, unit), d, unit) && !Idle(Asked(d, unit, false), d, unit) &&
           !Idle(Asked(d, unit, true), d, unit);
  }

  lemma FreeLogged(a: State, b: State, events: seq<Event>, d: nat, unit: nat)
    requires b.log == a.log + events
    requires forall i :: 0 <= i < |events| ==> Idle(events[i], d, unit)
    ensures Spent(a, b, d, unit) == Free()
  {
    assert b.log[|a.log|..] == events;
    AllFree(events, d, unit);
  }

  lemma CostOf(d: nat, unit: nat, x: nat, rescue: bool)
    ensures Cost(multiset{Began(d, unit)}, d, x) == if x == unit then Spending(1, 0, 0) else Free()
    ensures Cost(multiset{Asked(d, unit, rescue)}, d, x) ==
            if x != unit then Free() else if rescue then Spending(0, 0, 1) else Spending(0, 1, 0)
  {
  }

  // ----- Other units spend nothing of this one's -----

  /** The ids below a unit, outside its handlers. */
  function Below(u: Unit): set<nat> {
    if u.body.Scope? then AllIds(u.body.children) else {}
  }

  lemma HandleSpends(w: World, d: nat, unit: nat, rescue: bool, handler: Unit, st: State, x: nat)
    ensures Spent(st, Handle(w, d, unit, rescue, handler, st).st, d, x) == Cost(multiset{Asked(d, unit, rescue)}, d, x)
  {
    hide Execute, Cost;
    var asked := Log(st.(entries := []), [Asked(d, unit, rescue)]);
    var r, after := HandleIs(w, d, unit, rescue, handler, st);
    var es := r.st.log[|asked.log|..];
    ExecutorHalts.ExecuteTells(w, d + 1, handler, asked);
    WithinMeans(es, d + 1);
    AllFree(es + after, d, x);
    SpentOne(st, asked, Asked(d, unit, rescue), d, x);
    var h := Handle(w, d, unit, rescue, handler, st).st;
    assert h.log[|asked.log|..] == es + after;
    SpentChain(st, asked, h, d, x);
  }

  lemma {:induction false} DispatchedFree(w: World, d: nat, u: Unit, st: State, x: nat)
    requires x !in Ids(u)
    ensures Spent(st, Dispatched(w, d, u, st).st, d, x) == Free()
    decreases u, 2 + Left(w, u, 0), 0
  {
    AttemptsFree(w, d, u, st, 0, Nothing, x);
  }

  lemma {:induction false} AttemptsFree(w: World, d: nat, u: Unit, st: State, attempt: nat, last: Err, x: nat)
    requires x !in Ids(u)
    ensures Spent(st, Attempts(w, d, u, st, attempt, last).st, d, x) == Free()
    decreases u, 1 + Left(w, u, attempt), 1
  {
    hide Cost, Spent, Add, Execute, Retry, Resolve, ApplyPending;
    if attempt >= Tries(w, u) {
      CostOf(d, u.id, x, true);
      ResolveFree(w, d, u, st, ActionFailed, last, x);
    } else if attempt > 0 && w.cut(st.tick) {
      FreeLogged(st, Log(st.(tick := st.tick + 1), [Cleared(d, u.id)]), [Cleared(d, u.id)], d, x);
    } else {
      var began := Log(st.(tick := st.tick + 1), [Began(d, u.id)]);
      CostOf(d, u.id, x, false);
      SpentOne(st, began, Began(d, u.id), d, x);
      ExecuteFree(w, d, u, began, x);
      var r := Execute(w, d, u, began);
      FreeChain(st, began, r.st, d, x);
      match r.out
      case Ok(value) =>
        PendingFree(d, r.st, value, x);
        FreeChain(st, r.st, ApplyPending(d, r.st, value).st, d, x);
      case Panic =>
      case Fail(err) =>
        var asked := r.st.(tick := r.st.tick + 1);
        SpentSame(st, r.st, asked, d, x);
        if !IsPaused(err) && !w.cancelled(r.st.tick) && !IsHard(err) {
          RetryFree(w, d, u, asked, attempt, err, x);
          FreeChain(st, asked, Retry(w, d, u, asked, attempt, err).st, d, x);
        }
    }
  }

  lemma PendingFree(d: nat, st: State, value: Value, x: nat)
    ensures st.log <= ApplyPending(d, st, value).st.log
    ensures Spent(st, ApplyPending(d, st, value).st, d, x) == Free()
  {
    hide Cost, Spent, Add;
    FreeLogged(st, Log(st, [Stamped(d, st.reason), Halted(d, HardHalt)]),
               [Stamped(d, st.reason), Halted(d, HardHalt)], d, x);
    FreeLogged(st, Log(st, [Halted(d, PauseHalt)]), [Halted(d, PauseHalt)], d, x);
    FreeLogged(st, st, [], d, x);
  }

  lemma {:induction false} RetryFree(w: World, d: nat, u: Unit, st: State, attempt: nat, err: Err, x: nat)
    requires attempt < Tries(w, u) && x !in Ids(u)
    ensures Spent(st, Retry(w, d, u, st, attempt, err).st, d, x) == Free()
    decreases u, 1 + Left(w, u, attempt), 0
  {
    hide Cost, Spent, Add, Handle, Attempts, Resolve;
    if attempt + 1 < Tries(w, u) && u.onRetry.Some? {
      HandleSpends(w, d, u.id, false, u.onRetry.value, st, x);
      CostOf(d, u.id, x, false);
      var g := Handle(w, d, u.id, false, u.onRetry.value, st);
      match g.out
      case Fail(e) => MoreFree(st, g.st, Stamped(d, HandlerFailed), d, x);
      case Ok(verdict) =>
        if IsTruthy(verdict) {
          AttemptsFree(w, d, u, g.st, attempt + 1, err, x);
          FreeChain(st, g.st, Attempts(w, d, u, g.st, attempt + 1, err).st, d, x);
        } else {
          CostOf(d, u.id, x, true);
          ResolveFree(w, d, u, g.st, RetryVetoed, err, x);
          FreeChain(st, g.st, Resolve(w, d, u, g.st, RetryVetoed, err).st, d, x);
        }
    } else {
      AttemptsFree(w, d, u, st, attempt + 1, err, x);
    }
  }

  lemma MoreFree(st: State, g: State, e: Event, d: nat, x: nat)
    requires st.log <= g.log && Idle(e, d, x)
    ensures var t := Log(g, [e]); st.log <= t.log && Spent(st, t, d, x) == Spent(st, g, d, x)
  {
    var t := Log(g, [e]);
    CostsNothing(e, d, x);
    SpentOne(g, t, e, d, x);
    SpentChain(st, g, t, d, x);
  }

  lemma StandsFree(d: nat, st: State, t: State, base: Reason, cause: Err, x: nat)
    requires st.log <= t.log
    ensures var r := Stands(d, t, base, cause);
            st.log <= r.st.log && Spent(st, r.st, d, x) == Spent(st, t, d, x)
  {
    MoreFree(st, t, Stamped(d, base), d, x);
  }

  lemma {:induction false} ResolveFree(w: World, d: nat, u: Unit, st: State, base: Reason, cause: Err, x: nat)
    ensures Spent(st, Resolve(w, d, u, st, base, cause).st, d, x) ==
            if u.onError.Some? then Cost(multiset{Asked(d, u.id, true)}, d, x) else Free()
    decreases u, 0, 2
  {
    hide Cost, Spent, Add, Handle, Stands, HandlerError, IsTruthy;
    FreeLogged(st, st, [], d, x);
    StandsFree(d, st, st, base, cause, x);
    if u.onError.Some? {
      HandleSpends(w, d, u.id, true, u.onError.value, st, x);
      var h := Handle(w, d, u.id, true, u.onError.value, st);
      match h.out {
        case Fail(_) => MoreFree(st, h.st, Stamped(d, HandlerFailed), d, x);
        case Ok(_) =>
          MoreFree(st, h.st, Cleared(d, u.id), d, x);
          StandsFree(d, st, h.st, base, cause, x);
        case Panic =>
      }
    }
  }

  lemma {:induction false} ExecuteFree(w: World, d: nat, u: Unit, st: State, x: nat)
    requires x !in Below(u)
    ensures Spent(st, Execute(w, d, u, st).st, d, x) == Free()
    decreases u, 0, 1
  {
    hide Cost, Spent, Add, Node, Subgraph, AllIds;
    var t, s := st.tick, st.(tick := st.tick + 1);
    FreeLogged(st, s, [], d, x);
    if !w.cancelled(t) {
      var c := ControlPoint(w, d, t, s);
      if c.out.Fail? {
        FreeLogged(st, c.st, c.st.log[|st.log|..], d, x);
      } else if u.body.Leaf? {
        NodeFree(w, d, t, u, s, x);
        SameLogs(s, st, Node(w, d, t, u, s).st, Execute(w, d, u, st).st, d, x);
      } else {
        SubgraphFree(w, d, t, u, s, x);
        SameLogs(s, st, Subgraph(w, d, t, u, s).st, Execute(w, d, u, st).st, d, x);
      }
    } else {
      FreeLogged(st, Push(s, Bare), [], d, x);
    }
  }

  lemma FrameworkFree(w: World, d: nat, st: State, unit: nat, x: nat)
    ensures st.log <= FrameworkFailure(w, d, st, unit).st.log
    ensures Spent(st, FrameworkFailure(w, d, st, unit).st, d, x) == Free()
  {
    var r := FrameworkFailure(w, d, st, unit).st;
    FreeLogged(st, r, r.log[|st.log|..], d, x);
  }

  lemma NodeFree(w: World, d: nat, t: nat, u: Unit, s: State, x: nat)
    ensures Spent(s, Node(w, d, t, u, s).st, d, x) == Free()
  {
    hide Cost, Spent, Add, FrameworkFailure, FindReceipt;
    FrameworkFree(w, d, s, u.id, x);
    SubmitGrew(w, s, u.id, w.act(u.id, t).flips);
    var r := Node(w, d, t, u, s).st;
    var es := r.log[|s.log|..];
    if r != FrameworkFailure(w, d, s, u.id).st {
      assert forall i :: 0 <= i < |es| ==> !es[i].Began? && !es[i].Asked?;
      FreeLogged(s, r, es, d, x);
    }
  }

  lemma {:induction false} SubgraphFree(w: World, d: nat, t: nat, u: Unit, s: State, x: nat)
    requires u.body.Scope? && x !in Below(u)
    ensures Spent(s, Subgraph(w, d, t, u, s).st, d, x) == Free()
    decreases u, 0, 0
  {
    hide Cost, Spent, Add, FrameworkFailure, Walk, Leave, FindNested, Supersede, AllIds, Undos;
    FreeLogged(s, s, [], d, x);
    var prior := FindNested(s.entries, u.id);
    if prior.None? || prior.value.failed {
      var adopted := if prior.Some? then prior.value.entries else [];
      var s1 := if prior.Some? then s.(entries := Supersede(s.entries, u.id)) else s;
      if !w.bound(u.id, t) {
        var lost := Log(s1, Dropped(d, prior));
        FreeLogged(s, lost, Dropped(d, prior), d, x);
        FrameworkFree(w, d, lost, u.id, x);
        FreeChain(s, lost, FrameworkFailure(w, d, lost, u.id).st, d, x);
      } else if !w.claims(t) {
        FreeLogged(s, Subgraph(w, d, t, u, s).st, Dropped(d, prior) + [Stamped(d, PreflightFailed)], d, x);
      } else {
        var child := Child(s1, adopted);
        WalkFree(w, d, u.body.children, Nil, child, x);
        var walked := Walk(w, d, u.body.children, Nil, child);
        LeaveFree(w, d, u.id, s1, child, walked, x);
        SameLogs(s1, s, Leave(w, d, u.id, s1, walked).st, Subgraph(w, d, t, u, s).st, d, x);
      }
    }
  }

  lemma LeaveFree(w: World, d: nat, unit: nat, s1: State, child: State, walked: Result, x: nat)
    requires child.log == s1.log && child.log <= walked.st.log
    requires Spent(child, walked.st, d, x) == Free()
    ensures var r := Leave(w, d, unit, s1, walked); s1.log <= r.st.log && Spent(s1, r.st, d, x) == Free()
  {
    hide Cost, Spent, Add, Undos;
    var r := Leave(w, d, unit, s1, walked).st;
    FreeLogged(walked.st, r, r.log[|walked.st.log|..], d, x);
    FreeChain(child, walked.st, r, d, x);
    SameLogs(child, s1, r, r, d, x);
  }

  lemma {:induction false} WalkFree(w: World, d: nat, units: seq<Unit>, last: Value, st: State, x: nat)
    requires x !in AllIds(units)
    ensures Spent(st, Walk(w, d, units, last, st).st, d, x) == Free()
    decreases units, 0, 0
  {
    hide Cost, Spent, Add, Dispatched;
    FreeLogged(st, st, [], d, x);
    if units != [] {
      DispatchedFree(w, d, units[0], st, x);
      var r := Dispatched(w, d, units[0], st);
      if r.out.Ok? && !(units[0].body.Leaf? && units[0].body.completes) {
        WalkFree(w, d, units[1..], r.out.value, r.st, x);
        FreeChain(st, r.st, Walk(w, d, units[1..], r.out.value, r.st).st, d, x);
      }
    }
  }

  // ----- The loop -----

  /**
   What the retry loop promises from attempt `attempt` on, in terms of what it spent (`c`) and how it ended: the budget
   is never exceeded; OnRetry is asked after every failure that leaves an attempt and never otherwise; OnError is
   asked at most once, and only when the budget is spent or OnRetry was asked last; and success is either a success
   under reaction Continue or a truthy OnError.
   */
  ghost predicate Budgeted(w: World, u: Unit, attempt: nat, c: Spending, r: Result) {
    && c.attempts <= Left(w, u, attempt)
    && (u.onRetry.None? ==> c.gates == 0)
    && (u.onRetry.Some? ==> c.gates <= c.attempts <= c.gates + 1)
    && (c.attempts > 0 && c.gates == c.attempts ==> attempt + c.attempts < Tries(w, u))
    && c.rescues <= (if u.onError.Some? then 1 else 0)
    && (c.rescues == 1 ==> c.attempts == Left(w, u, attempt) || (u.onRetry.Some? && 0 < c.gates == c.attempts))
    && (r.out.Ok? ==> if c.rescues == 1 then IsTruthy(r.out.value) else c.attempts > 0 && r.st.pending == Continue)
  }

  lemma {:induction false} AttemptsBudget(w: World, d: nat, u: Unit, st: State, attempt: nat, last: Err)
    requires u.id !in Below(u)
    ensures var r := Attempts(w, d, u, st, attempt, last);
            var c := Spent(st, r.st, d, u.id);
            && Budgeted(w, u, attempt, c, r)
            && (attempt < Tries(w, u) && (attempt == 0 || !w.cut(st.tick)) ==> c.attempts >= 1)
    decreases Left(w, u, attempt), 1
  {
    hide Cost, Spent, Execute, Retry, Resolve, ApplyPending, IsPaused, IsHard;
    if attempt >= Tries(w, u) {
      ResolveBudget(w, d, u, st, ActionFailed, last);
    } else if attempt > 0 && w.cut(st.tick) {
      FreeLogged(st, Log(st.(tick := st.tick + 1), [Cleared(d, u.id)]), [Cleared(d, u.id)], d, u.id);
    } else {
      var began := Log(st.(tick := st.tick + 1), [Began(d, u.id)]);
      CostOf(d, u.id, u.id, false);
      SpentOne(st, began, Began(d, u.id), d, u.id);
      ExecuteFree(w, d, u, began, u.id);
      var r := Execute(w, d, u, began);
      SpentChain(st, began, r.st, d, u.id);
      match r.out
      case Ok(value) =>
        PendingFree(d, r.st, value, u.id);
        SpentChain(st, r.st, ApplyPending(d, r.st, value).st, d, u.id);
        PendingOk(d, r.st, value);
      case Panic =>
      case Fail(err) =>
        var asked := r.st.(tick := r.st.tick + 1);
        SpentSame(st, r.st, asked, d, u.id);
        if !IsPaused(err) && !w.cancelled(r.st.tick) && !IsHard(err) {
          RetryBudget(w, d, u, asked, attempt, err);
          SpentChain(st, asked, Retry(w, d, u, asked, attempt, err).st, d, u.id);
        }
    }
  }

  lemma PendingOk(d: nat, st: State, value: Value)
    ensures ApplyPending(d, st, value).out.Ok? <==> st.pending == Continue
    ensures ApplyPending(d, st, value).st.pending == st.pending
  {
  }

  lemma ResolveBudget(w: World, d: nat, u: Unit, st: State, base: Reason, cause: Err)
    ensures var r := Resolve(w, d, u, st, base, cause);
            && Spent(st, r.st, d, u.id) == Spending(0, 0, if u.onError.Some? then 1 else 0)
            && (r.out.Ok? ==> u.onError.Some? && IsTruthy(r.out.value))
  {
    hide Cost;
    CostOf(d, u.id, u.id, true);
    ResolveFree(w, d, u, st, base, cause, u.id);
  }

  /** The loop after an attempt failed: one gate more, when one is asked. */
  lemma {:induction false} RetryBudget(w: World, d: nat, u: Unit, st: State, attempt: nat, err: Err)
    requires u.id !in Below(u) && attempt < Tries(w, u)
    ensures var r := Retry(w, d, u, st, attempt, err);
            Budgeted(w, u, attempt, Add(Spending(1, 0, 0), Spent(st, r.st, d, u.id)), r)
    decreases Left(w, u, attempt), 0
  {
    hide Cost, Spent, Add, Budgeted, Handle, Attempts, Resolve;
    if attempt + 1 < Tries(w, u) && u.onRetry.Some? {
      HandleSpends(w, d, u.id, false, u.onRetry.value, st, u.id);
      CostOf(d, u.id, u.id, false);
      var g := Handle(w, d, u.id, false, u.onRetry.value, st);
      match g.out
      case Fail(e) =>
        MoreFree(st, g.st, Stamped(d, HandlerFailed), d, u.id);
        GateFailed(w, u, attempt, Retry(w, d, u, st, attempt, err));
      case Ok(verdict) =>
        if IsTruthy(verdict) {
          AttemptsBudget(w, d, u, g.st, attempt + 1, err);
          var rest := Attempts(w, d, u, g.st, attempt + 1, err);
          SpentChain(st, g.st, rest.st, d, u.id);
          Gated(w, u, attempt, Spent(g.st, rest.st, d, u.id), rest);
        } else {
          ResolveBudget(w, d, u, g.st, RetryVetoed, err);
          var rest := Resolve(w, d, u, g.st, RetryVetoed, err);
          SpentChain(st, g.st, rest.st, d, u.id);
          Vetoed(w, u, attempt, rest);
        }
    } else {
      AttemptsBudget(w, d, u, st, attempt + 1, err);
      var rest := Attempts(w, d, u, st, attempt + 1, err);
      Ungated(w, u, attempt, Spent(st, rest.st, d, u.id), rest);
    }
  }

  lemma Gated(w: World, u: Unit, attempt: nat, rest: Spending, r: Result)
    requires u.onRetry.Some? && attempt + 1 < Tries(w, u) && Budgeted(w, u, attempt + 1, rest, r)
    ensures Budgeted(w, u, attempt, Add(Spending(1, 0, 0), Add(Spending(0, 1, 0), rest)), r)
  {
    hide Add;
    AddIs(Spending(0, 1, 0), rest);
    AddIs(Spending(1, 0, 0), Add(Spending(0, 1, 0), rest));
  }

  lemma GateFailed(w: World, u: Unit, attempt: nat, r: Result)
    requires u.onRetry.Some? && attempt + 1 < Tries(w, u) && r.out.Fail?
    ensures Budgeted(w, u, attempt, Add(Spending(1, 0, 0), Spending(0, 1, 0)), r)
  {
    hide Add;
    AddIs(Spending(1, 0, 0), Spending(0, 1, 0));
  }

  lemma Vetoed(w: World, u: Unit, attempt: nat, r: Result)
    requires u.onRetry.Some? && attempt + 1 < Tries(w, u)
    requires r.out.Ok? ==> u.onError.Some? && IsTruthy(r.out.value)
    ensures var rescue := Spending(0, 0, if u.onError.Some? then 1 else 0);
            Budgeted(w, u, attempt, Add(Spending(1, 0, 0), Add(Spending(0, 1, 0), rescue)), r)
  {
    hide Add;
    var rescue := Spending(0, 0, if u.onError.Some? then 1 else 0);
    AddIs(Spending(0, 1, 0), rescue);
    AddIs(Spending(1, 0, 0), Add(Spending(0, 1, 0), rescue));
  }

  lemma Ungated(w: World, u: Unit, attempt: nat, rest: Spending, r: Result)
    requires u.onRetry.None? || attempt + 1 >= Tries(w, u)
    requires attempt < Tries(w, u) && Budgeted(w, u, attempt + 1, rest, r)
    ensures Budgeted(w, u, attempt, Add(Spending(1, 0, 0), rest), r)
  {
    hide Add;
    AddIs(Spending(1, 0, 0), rest);
  }

  // ----- Main result -----

  /**
   The retry budget of a whole dispatch, for every unit, world and handler.  With a negative MaxAttempts the loop runs
   no attempt at all, and the nil failure falls to OnError.
   */
  lemma BudgetIsKept(w: World, d: nat, u: Unit, st: State)
    requires u.id !in Below(u)
    ensures var r := Dispatched(w, d, u, st);
            var c := Spent(st, r.st, d, u.id);
            && Budgeted(w, u, 0, c, r)
            && (c.attempts >= 1 <==> Tries(w, u) >= 1)
            && (c.attempts == 0 ==> c == Spending(0, 0, if u.onError.Some? then 1 else 0))
  {
    hide Cost, Attempts;
    AttemptsBudget(w, d, u, st, 0, Nothing);
    if Tries(w, u) < 1 {
      NoAttempt(w, d, u, st);
    }
  }

  lemma NoAttempt(w: World, d: nat, u: Unit, st: State)
    requires Tries(w, u) < 1
    ensures Spent(st, Dispatched(w, d, u, st).st, d, u.id) == Spending(0, 0, if u.onError.Some? then 1 else 0)
  {
    hide Cost;
    ResolveBudget(w, d, u, st, ActionFailed, Nothing);
    assert Attempts(w, d, u, st, 0, Nothing) == Resolve(w, d, u, st, ActionFailed, Nothing);
  }

  // ----- The wait between two attempts -----

  /** Every action fails, and the context is cancelled during a wait. */
  function CuttingWorld(root: nat, tick: nat): World {
    CalmWorld(root, map[]).(cancelled := (t: nat) => t >= tick, cut := (t: nat) => t == tick,
                            act := (x: nat, t: nat) => Act([], false, Refused(Plain)))
  }

  lemma FailsOnce(w: World, d: nat, u: Unit, st: State)
    requires u.body.Leaf? && FindReceipt(st.entries, u.id).None?
    requires w == CuttingWorld(w.root, st.tick + 2)
    ensures var r := Execute(w, d, u, st);
            && r.out == Fail(Wrap(Plain)) && !IsPaused(Wrap(Plain)) && !IsHard(Wrap(Plain))
            && r.st.log == st.log + [Acted(d, u.id, false, false)] && r.st.tick == st.tick + 1
  {
    hide FindReceipt;
    var s := st.(tick := st.tick + 1);
    assert w.act(u.id, st.tick) == Act([], false, Refused(Plain));
    assert Submit(w, s, u.id, []) == Submitted(true, s);
    assert !IsPaused(Plain) && !IsHard(Plain) && !IsStopped(Plain) && Raised(d, Plain) == [];
    assert Execute(w, d, u, st) == Node(w, d, st.tick, u, s);
  }

  /**
   A context cancelled during the wait ends the dispatch with the context's error: a node with attempts left and no
   OnRetry makes one attempt, asks no handler, and its OnError is not reached.
   */
  lemma WaitIsCut(root: nat, d: nat, u: Unit, st: State)
    requires u.body.Leaf? && u.retry.Some? && u.retry.value >= 1 && u.onRetry.None?
    requires FindReceipt(st.entries, u.id).None?
    ensures var r := Dispatched(CuttingWorld(root, st.tick + 3), d, u, st);
            && r.out == Fail(Cancelled)
            && r.st.log == st.log + [Began(d, u.id), Acted(d, u.id, false, false), Cleared(d, u.id)]
            && Spent(st, r.st, d, u.id) == Spending(1, 0, 0)
  {
    hide Execute, Cost, Spent, Resolve, Handle, ApplyPending, IsPaused, IsHard;
    var w := CuttingWorld(root, st.tick + 3);
    var began := Log(st.(tick := st.tick + 1), [Began(d, u.id)]);
    var r := Execute(w, d, u, began);
    FailsOnce(w, d, u, began);
    var asked := r.st.(tick := st.tick + 3);
    assert Dispatched(w, d, u, st) == Attempts(w, d, u, st, 0, Nothing) == Retry(w, d, u, asked, 0, Wrap(Plain));
    assert Retry(w, d, u, asked, 0, Wrap(Plain)) == Attempts(w, d, u, asked, 1, Wrap(Plain));
    var t := Dispatched(w, d, u, st).st;
    CostOf(d, u.id, u.id, false);
    SpentOne(st, began, Began(d, u.id), d, u.id);
    var rest := [Acted(d, u.id, false, false), Cleared(d, u.id)];
    assert t.log == began.log + rest;
    FreeLogged(began, t, rest, d, u.id);
    SpentChain(st, began, t, d, u.id);
  }
}
