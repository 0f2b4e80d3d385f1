/**
 What a unit's handlers decided, and what the dispatch made of it: the reason of a failure that the dispatch stamps
 itself, the value it succeeds with, and how many attempts its policy allows.
 */
module ExecutorVerdicts {
  import opened Options
  import opened RunStatus
  import opened Failure
  import opened Recovery
  import opened Executor
  import opened ExecutorDepth
  import opened ExecutorStack
  import ExecutorHalts
  import ExecutorRetry

  // ----- Nothing but the unit's own loop answers for it -----

  /** No attempt, question or answer of the unit at this depth. */
  predicate Silent(e: Event, d: nat, x: nat) {
    e.Began? || e.Asked? || e.Answered? ==> e.depth != d || e.unit != x
  }

  ghost predicate Quiet(a: State, b: State, d: nat, x: nat) {
    a.log <= b.log && forall i :: |a.log| <= i < |b.log| ==> Silent(b.log[i], d, x)
  }

  lemma QuietChain(a: State, b: State, c: State, d: nat, x: nat)
    requires Quiet(a, b, d, x) && Quiet(b, c, d, x)
    ensures Quiet(a, c, d, x)
  {
    hide Silent;
    assert forall i :: |a.log| <= i < |b.log| ==> c.log[i] == b.log[i];
  }

  lemma QuietLogged(a: State, b: State, events: seq<Event>, d: nat, x: nat)
    requires b.log == a.log + events && forall i :: 0 <= i < |events| ==> Silent(events[i], d, x)
    ensures Quiet(a, b, d, x)
  {
  }

  lemma {:induction false} DispatchedQuiet(w: World, d: nat, u: Unit, st: State, x: nat)
    requires x !in Ids(u)
    ensures Quiet(st, Dispatched(w, d, u, st).st, d, x)
    decreases u, 2 + Left(w, u, 0), 0
  {
    AttemptsQuiet(w, d, u, st, 0, Nothing, x);
  }

  lemma {:induction false} AttemptsQuiet(w: World, d: nat, u: Unit, st: State, attempt: nat, last: Err, x: nat)
    requires x !in Ids(u)
    ensures Quiet(st, Attempts(w, d, u, st, attempt, last).st, d, x)
    decreases u, 1 + Left(w, u, attempt), 1
  {
    hide Quiet, Execute, Retry, Resolve, ApplyPending, IsPaused, IsHard;
    var t := Attempts(w, d, u, st, attempt, last);
    if attempt >= Tries(w, u) {
      ResolveQuiet(w, d, u, st, ActionFailed, last, x);
    } else if attempt > 0 && w.cut(st.tick) {
      QuietLogged(st, t.st, [Cleared(d, u.id)], d, x);
    } else {
      var began := Log(st.(tick := st.tick + 1), [Began(d, u.id)]);
      QuietLogged(st, began, [Began(d, u.id)], d, x);
      ExecuteQuiet(w, d, u, began, x);
      var r := Execute(w, d, u, began);
      QuietChain(st, began, r.st, d, x);
      match r.out
      case Ok(value) =>
        PendingQuiet(d, r.st, value, x);
        QuietChain(st, r.st, t.st, d, x);
      case Panic =>
      case Fail(err) =>
        var asked := r.st.(tick := r.st.tick + 1);
        QuietLogged(r.st, asked, [], d, x);
        QuietChain(st, r.st, asked, d, x);
        if !IsPaused(err) && !w.cancelled(r.st.tick) && !IsHard(err) {
          RetryQuiet(w, d, u, asked, attempt, err, x);
          QuietChain(st, asked, t.st, d, x);
        }
    }
  }

  lemma PendingQuiet(d: nat, st: State, value: Value, x: nat)
    ensures Quiet(st, ApplyPending(d, st, value).st, d, x)
  {
  }

  lemma {:induction false} RetryQuiet(w: World, d: nat, u: Unit, st: State, attempt: nat, err: Err, x: nat)
    requires attempt < Tries(w, u) && x !in Ids(u)
    ensures Quiet(st, Retry(w, d, u, st, attempt, err).st, d, x)
    decreases u, 1 + Left(w, u, attempt), 0
  {
    hide Quiet, Handle, Attempts, Resolve;
    var t := Retry(w, d, u, st, attempt, err);
    if attempt + 1 < Tries(w, u) && u.onRetry.Some? {
      HandleQuiet(w, d, u.id, false, u.onRetry.value, st, x);
      var g := Handle(w, d, u.id, false, u.onRetry.value, st);
      match g.out {
        case Fail(e) => QuietLogged(g.st, t.st, [Stamped(d, HandlerFailed)], d, x);
        case Ok(verdict) =>
          if IsTruthy(verdict) {
            AttemptsQuiet(w, d, u, g.st, attempt + 1, err, x);
          } else {
            ResolveQuiet(w, d, u, g.st, RetryVetoed, err, x);
          }
      }
      QuietChain(st, g.st, t.st, d, x);
    } else {
      AttemptsQuiet(w, d, u, st, attempt + 1, err, x);
    }
  }

  lemma ResolveQuiet(w: World, d: nat, u: Unit, st: State, base: Reason, cause: Err, x: nat)
    requires x != u.id
    ensures Quiet(st, Resolve(w, d, u, st, base, cause).st, d, x)
  {
    hide Quiet, Handle, Stands;
    StandsQuiet(d, st, base, cause, x);
    if u.onError.Some? {
      HandleQuiet(w, d, u.id, true, u.onError.value, st, x);
      var h := Handle(w, d, u.id, true, u.onError.value, st);
      StandsQuiet(d, h.st, base, cause, x);
      var e := if h.out.Fail? then Stamped(d, HandlerFailed) else Cleared(d, u.id);
      QuietLogged(h.st, Log(h.st, [e]), [e], d, x);
      QuietChain(st, h.st, Resolve(w, d, u, st, base, cause).st, d, x);
    }
  }

  lemma StandsQuiet(d: nat, st: State, base: Reason, cause: Err, x: nat)
    ensures Quiet(st, Stands(d, st, base, cause).st, d, x)
  {
  }

  /** A handler of another unit. */
  lemma HandleQuiet(w: World, d: nat, unit: nat, rescue: bool, handler: Unit, st: State, x: nat)
    requires x != unit
    ensures Quiet(st, Handle(w, d, unit, rescue, handler, st).st, d, x)
  {
    hide Execute, Unwind, Handle, Compensations;
    var did, calls, out := HandlerDid(w, d, unit, rescue, handler, st);
    var z := [Answered(d, unit, rescue, out)];
    QuietLogged(st, Handle(w, d, unit, rescue, handler, st).st,
                [Asked(d, unit, rescue)] + did + Compensations(d + 1, calls) + z, d, x);
  }

  /** A handler between its question and its answer. */
  lemma HandlerDid(w: World, d: nat, unit: nat, rescue: bool, handler: Unit, st: State)
    returns (did: seq<Event>, calls: seq<Call>, out: Outcome)
    ensures var h := Handle(w, d, unit, rescue, handler, st);
            && h.out == out && !out.Panic?
            && h.st.log == st.log + ([Asked(d, unit, rescue)] + did + Compensations(d + 1, calls)
                                     + [Answered(d, unit, rescue, out)])
    ensures forall i :: 0 <= i < |did| ==> did[i].depth > d
  {
    hide Execute, Unwind, Handle, Compensations;
    var asked := Log(st.(entries := []), [Asked(d, unit, rescue)]);
    var r := Execute(w, d + 1, handler, asked);
    HandleEnds(w, d, unit, rescue, handler, st);
    out := Handle(w, d, unit, rescue, handler, st).out;
    calls := if out.Ok? then [] else Unwind(w.undo, r.st.tick, r.st.entries).calls;
    did := r.st.log[|asked.log|..];
    forall i | 0 <= i < |did| ensures did[i].depth > d {
      ExecuteDeep(w, d + 1, handler, asked, |asked.log| + i);
    }
    assert Compensations(d + 1, []) == [];
    Regroup(st.log, asked.log, r.st.log, Compensations(d + 1, calls), [Answered(d, unit, rescue, out)]);
  }

  lemma Regroup(log: seq<Event>, asked: seq<Event>, ran: seq<Event>, after: seq<Event>, z: seq<Event>)
    requires log <= asked <= ran
    ensures (ran + after) + z == log + (asked[|log|..] + ran[|asked|..] + after + z)
    ensures after == [] ==> ran + z == (ran + after) + z
  {
  }

  lemma {:induction false} ExecuteQuiet(w: World, d: nat, u: Unit, st: State, x: nat)
    requires x !in ExecutorRetry.Below(u)
    ensures Quiet(st, Execute(w, d, u, st).st, d, x)
    decreases u, 0, 1
  {
    hide Node, Subgraph;
    var t, s := st.tick, st.(tick := st.tick + 1);
    if !w.cancelled(t) && !ControlPoint(w, d, t, s).out.Fail? {
      if u.body.Leaf? {
        NodeQuiet(w, d, t, u, s, x);
      } else {
        SubgraphQuiet(w, d, t, u, s, x);
      }
    }
  }

  lemma NodeQuiet(w: World, d: nat, t: nat, u: Unit, s: State, x: nat)
    ensures Quiet(s, Node(w, d, t, u, s).st, d, x)
  {
    hide FindReceipt;
    SubmitGrew(w, s, u.id, w.act(u.id, t).flips);
  }

  lemma {:induction false} SubgraphQuiet(w: World, d: nat, t: nat, u: Unit, s: State, x: nat)
    requires u.body.Scope? && x !in ExecutorRetry.Below(u)
    ensures Quiet(s, Subgraph(w, d, t, u, s).st, d, x)
    decreases u, 0, 0
  {
    hide Walk, Leave, FindNested, Supersede, Undos;
    var prior := FindNested(s.entries, u.id);
    if (prior.None? || prior.value.failed) && w.bound(u.id, t) && w.claims(t) {
      var s1 := if prior.Some? then s.(entries := Supersede(s.entries, u.id)) else s;
      var child := Child(s1, if prior.Some? then prior.value.entries else []);
      var walked := Walk(w, d, u.body.children, Nil, child);
      WalkQuiet(w, d, u.body.children, Nil, child, x);
      LeaveQuiet(w, d, u.id, s1, walked, x);
      QuietChain(s, walked.st, Subgraph(w, d, t, u, s).st, d, x);
    }
  }

  lemma LeaveQuiet(w: World, d: nat, unit: nat, s1: State, walked: Result, x: nat)
    ensures Quiet(walked.st, Leave(w, d, unit, s1, walked).st, d, x)
  {
    hide Undos, IsPaused;
  }

  lemma {:induction false} WalkQuiet(w: World, d: nat, units: seq<Unit>, last: Value, st: State, x: nat)
    requires x !in AllIds(units)
    ensures Quiet(st, Walk(w, d, units, last, st).st, d, x)
    decreases units, 0, 0
  {
    hide Quiet, Dispatched;
    QuietLogged(st, st, [], d, x);
    if units != [] {
      DispatchedQuiet(w, d, units[0], st, x);
      var r := Dispatched(w, d, units[0], st);
      if r.out.Ok? && !(units[0].body.Leaf? && units[0].body.completes) {
        WalkQuiet(w, d, units[1..], r.out.value, r.st, x);
        QuietChain(st, r.st, Walk(w, d, units, last, st).st, d, x);
      }
    }
  }

  // ----- What was decided -----

  /** The handler answered with a falsy value. */
  predicate SaidNo(out: Outcome) {
    out.Ok? && (out.value == Nil || !out.value.truthy)
  }

  /** OnRetry vetoed another attempt. */
  ghost predicate Vetoed(a: State, b: State, d: nat, x: nat) {
    exists i :: |a.log| <= i < |b.log| && Veto(b.log[i], d, x)
  }

  predicate Veto(e: Event, d: nat, x: nat) {
    e.Answered? && e.depth == d && e.unit == x && !e.rescue && SaidNo(e.out)
  }

  /** One of the unit's handlers failed. */
  ghost predicate Broke(a: State, b: State, d: nat, x: nat) {
    exists i :: |a.log| <= i < |b.log| && Break(b.log[i], d, x)
  }

  predicate Break(e: Event, d: nat, x: nat) {
    e.Answered? && e.depth == d && e.unit == x && e.out.Fail?
  }

  /** OnError absorbed the failure with this value. */
  ghost predicate Absorbed(a: State, b: State, d: nat, x: nat, value: Value) {
    a.log <= b.log && Answered(d, x, true, Ok(value)) in b.log[|a.log|..] && value.Val? && value.truthy
  }

  lemma DecidedLater(a: State, b: State, c: State, d: nat, x: nat)
    requires a.log <= b.log <= c.log
    ensures Vetoed(a, c, d, x) <==> Vetoed(a, b, d, x) || Vetoed(b, c, d, x)
    ensures Broke(a, c, d, x) <==> Broke(a, b, d, x) || Broke(b, c, d, x)
    ensures forall v :: Absorbed(b, c, d, x, v) ==> Absorbed(a, c, d, x, v)
  {
    hide Veto, Break;
    assert forall i :: |a.log| <= i < |b.log| ==> c.log[i] == b.log[i];
    assert c.log[|a.log|..] == b.log[|a.log|..] + c.log[|b.log|..];
  }

  lemma QuietDecides(a: State, b: State, d: nat, x: nat)
    requires Quiet(a, b, d, x)
    ensures a.log <= b.log && !Vetoed(a, b, d, x) && !Broke(a, b, d, x)
  {
  }

  lemma BeganDecides(a: State, b: State, d: nat, x: nat)
    requires b.log == a.log + [Began(d, x)]
    ensures a.log <= b.log && !Vetoed(a, b, d, x) && !Broke(a, b, d, x)
  {
  }

  lemma HandleDecides(w: World, d: nat, unit: nat, rescue: bool, handler: Unit, st: State)
    ensures var h := Handle(w, d, unit, rescue, handler, st);
            && st.log <= h.st.log
            && (Vetoed(st, h.st, d, unit) <==> !rescue && h.out.Ok? && !IsTruthy(h.out.value))
            && (Broke(st, h.st, d, unit) <==> h.out.Fail?)
            && (rescue && h.out.Ok? && IsTruthy(h.out.value) ==> Absorbed(st, h.st, d, unit, h.out.value))
  {
    hide Handle, Compensations;
    var did, calls, out := HandlerDid(w, d, unit, rescue, handler, st);
    var h := Handle(w, d, unit, rescue, handler, st);
    var n, z := |h.st.log| - 1, Answered(d, unit, rescue, out);
    assert h.st.log[n] == z;
    assert Veto(z, d, unit) <==> !rescue && out.Ok? && !IsTruthy(out.value);
    assert Break(z, d, unit) <==> out.Fail?;
    forall i | |st.log| <= i < n ensures !Veto(h.st.log[i], d, unit) && !Break(h.st.log[i], d, unit) {
      var es := [Asked(d, unit, rescue)] + did + Compensations(d + 1, calls);
      assert h.st.log[i] == es[i - |st.log|];
    }
    assert z in h.st.log[|st.log|..] by {
      assert h.st.log[|st.log|..][n - |st.log|] == z;
    }
  }

  // ----- The reason of a failure of the dispatch's own -----

  /** A failure that the dispatch stamped itself: a standing one without an earlier reason, or a failed handler's. */
  predicate OwnFailure(out: Outcome) {
    out.Fail? && out.err.Dispatch? && !out.err.bypass
  }

  /** Its reason is decided by the handlers; and a success that was not an attempt's is what OnError answered. */
  ghost predicate Decided(a: State, r: Result, d: nat, x: nat, ended: Reason) {
    && a.log <= r.st.log
    && (OwnFailure(r.out) ==>
         r.out.err.reason == if Broke(a, r.st, d, x) then HandlerFailed
                             else if Vetoed(a, r.st, d, x) then RetryVetoed else ended)
  }

  lemma DecidedThen(a: State, b: State, r: Result, d: nat, x: nat, ended: Reason)
    requires a.log <= b.log && !Vetoed(a, b, d, x) && !Broke(a, b, d, x) && Decided(b, r, d, x, ended)
    ensures Decided(a, r, d, x, ended)
  {
    hide Vetoed, Broke;
    DecidedLater(a, b, r.st, d, x);
  }

  lemma {:induction false} AttemptsDecided(w: World, d: nat, u: Unit, st: State, attempt: nat, last: Err)
    requires u.id !in ExecutorRetry.Below(u) && !OwnFailure(Fail(last))
    ensures Decided(st, Attempts(w, d, u, st, attempt, last), d, u.id, ActionFailed)
    decreases Left(w, u, attempt), 1
  {
    hide Decided, Vetoed, Broke, Quiet, Execute, Retry, Resolve, IsPaused, IsHard;
    var t := Attempts(w, d, u, st, attempt, last);
    if attempt >= Tries(w, u) {
      ResolveDecided(w, d, u, st, ActionFailed, last);
    } else if attempt > 0 && w.cut(st.tick) {
      CutDecided(d, u.id, st);
    } else {
      var began := Log(st.(tick := st.tick + 1), [Began(d, u.id)]);
      BeganDecides(st, began, d, u.id);
      ExecuteQuiet(w, d, u, began, u.id);
      var r := Execute(w, d, u, began);
      QuietDecides(began, r.st, d, u.id);
      DecidedLater(st, began, r.st, d, u.id);
      ExecuteIsNotOwn(w, d, u, began);
      if r.out.Fail? && !IsPaused(r.out.err) && !w.cancelled(r.st.tick) && !IsHard(r.out.err) {
        var asked := r.st.(tick := r.st.tick + 1);
        RetryDecided(w, d, u, asked, attempt, r.out.err);
        SameLog(st, r.st, asked, d, u.id);
        DecidedThen(st, asked, t, d, u.id, ActionFailed);
      } else {
        NotOwn(w, d, u, st, r, t);
      }
    }
  }

  lemma SameLog(a: State, b: State, c: State, d: nat, x: nat)
    requires b.log == c.log && a.log <= b.log
    ensures Vetoed(a, b, d, x) == Vetoed(a, c, d, x) && Broke(a, b, d, x) == Broke(a, c, d, x)
  {
  }

  lemma CutDecided(d: nat, unit: nat, st: State)
    ensures var cut := Result(Fail(Cancelled), Log(st.(tick := st.tick + 1), [Cleared(d, unit)]));
            Decided(st, cut, d, unit, ActionFailed)
  {
  }

  lemma NotOwn(w: World, d: nat, u: Unit, st: State, r: Result, t: Result)
    requires st.log <= r.st.log && !OwnFailure(r.out)
    requires t == (if r.out.Ok? then ApplyPending(d, r.st, r.out.value) else if r.out.Panic? then r
                   else Result(r.out, r.st.(tick := r.st.tick + 1)))
    ensures Decided(st, t, d, u.id, ActionFailed)
  {
    hide Vetoed, Broke;
  }

  /** An execution never fails with a failure the dispatch would have stamped. */
  lemma ExecuteIsNotOwn(w: World, d: nat, u: Unit, st: State)
    ensures !OwnFailure(Execute(w, d, u, st).out)
  {
    hide Walk, Submit, FindReceipt, FindNested, Transition, Undos, Supersede, IsPaused;
  }

  lemma {:induction false} RetryDecided(w: World, d: nat, u: Unit, st: State, attempt: nat, err: Err)
    requires attempt < Tries(w, u) && u.id !in ExecutorRetry.Below(u) && !OwnFailure(Fail(err))
    ensures Decided(st, Retry(w, d, u, st, attempt, err), d, u.id, ActionFailed)
    decreases Left(w, u, attempt), 0
  {
    hide Vetoed, Broke, Handle, Attempts, Resolve, IsTruthy;
    var t := Retry(w, d, u, st, attempt, err);
    if attempt + 1 < Tries(w, u) && u.onRetry.Some? {
      HandleDecides(w, d, u.id, false, u.onRetry.value, st);
      var g := Handle(w, d, u.id, false, u.onRetry.value, st);
      match g.out {
        case Fail(e) => DecidedStamp(st, g.st, d, u.id);
        case Ok(verdict) =>
          if IsTruthy(verdict) {
            AttemptsDecided(w, d, u, g.st, attempt + 1, err);
            DecidedThen(st, g.st, t, d, u.id, ActionFailed);
          } else {
            ResolveDecided(w, d, u, g.st, RetryVetoed, err);
            DecidedLater(st, g.st, t.st, d, u.id);
          }
      }
    } else {
      AttemptsDecided(w, d, u, st, attempt + 1, err);
    }
  }

  /** A stamp decides nothing more. */
  lemma DecidedStamp(a: State, g: State, d: nat, x: nat)
    requires a.log <= g.log
    ensures var t := Log(g, [Stamped(d, HandlerFailed)]);
            Vetoed(a, t, d, x) == Vetoed(a, g, d, x) && Broke(a, t, d, x) == Broke(a, g, d, x)
  {
    var t := Log(g, [Stamped(d, HandlerFailed)]);
    QuietLogged(g, t, [Stamped(d, HandlerFailed)], d, x);
    QuietDecides(g, t, d, x);
    DecidedLater(a, g, t, d, x);
  }

  lemma ResolveDecided(w: World, d: nat, u: Unit, st: State, base: Reason, cause: Err)
    requires !OwnFailure(Fail(cause))
    ensures var r := Resolve(w, d, u, st, base, cause);
            && Decided(st, r, d, u.id, base) && !Vetoed(st, r.st, d, u.id)
            && (OwnFailure(r.out) ==> (r.out.err.reason == HandlerFailed && Broke(st, r.st, d, u.id))
                                      || (r.out.err.reason == base && !Broke(st, r.st, d, u.id)))
            && (r.out.Ok? ==> u.onError.Some? && Absorbed(st, r.st, d, u.id, r.out.value))
  {
    hide Handle, Quiet, Vetoed, Broke, IsTruthy, Absorbed;
    var r := Resolve(w, d, u, st, base, cause);
    StandsDecides(d, u.id, st, base, cause);
    if u.onError.Some? {
      HandleDecides(w, d, u.id, true, u.onError.value, st);
      var h := Handle(w, d, u.id, true, u.onError.value, st);
      StandsDecides(d, u.id, h.st, base, cause);
      var e := if h.out.Fail? then Stamped(d, HandlerFailed) else Cleared(d, u.id);
      QuietLogged(h.st, Log(h.st, [e]), [e], d, u.id);
      QuietDecides(h.st, Log(h.st, [e]), d, u.id);
      DecidedLater(st, h.st, r.st, d, u.id);
      if r.out.Ok? {
        AbsorbedStays(st, h.st, r.st, d, u.id, r.out.value);
      }
    }
  }

  lemma AbsorbedStays(a: State, b: State, c: State, d: nat, x: nat, value: Value)
    requires a.log <= b.log <= c.log && Absorbed(a, b, d, x, value)
    ensures Absorbed(a, c, d, x, value)
  {
    assert c.log[|a.log|..] == b.log[|a.log|..] + c.log[|b.log|..];
  }

  lemma StandsDecides(d: nat, unit: nat, st: State, base: Reason, cause: Err)
    requires !OwnFailure(Fail(cause))
    ensures var r := Stands(d, st, base, cause);
            && st.log <= r.st.log && !Vetoed(st, r.st, d, unit) && !Broke(st, r.st, d, unit)
            && r.out.Fail? && (OwnFailure(r.out) ==> r.out.err.reason == base)
  {
    StandsQuiet(d, st, base, cause, unit);
    QuietDecides(st, Stands(d, st, base, cause).st, d, unit);
  }

  // ----- The budget -----

  /** The attempts a unit is allowed: its own policy's, four for a scope below the root, else one. */
  function Allowance(w: World, u: Unit): nat {
    match u.retry
    case Some(n) => if n < 0 then 0 else n + 1
    case None => if u.body.Scope? && u.id != w.root then 4 else 1
  }

  lemma AllowanceIs(w: World, u: Unit)
    ensures Left(w, u, 0) == Allowance(w, u)
  {
  }

  /** A dispatch that stamped its own failure spent its budget unless it was vetoed or a handler broke. */
  ghost predicate Exhausts(w: World, d: nat, u: Unit, a: State, attempt: nat, spent: nat, r: Result) {
    && (OwnFailure(r.out) && !Vetoed(a, r.st, d, u.id) && !Broke(a, r.st, d, u.id) ==> spent == Left(w, u, attempt))
    && (Vetoed(a, r.st, d, u.id) ==> spent < Left(w, u, attempt))
  }

  lemma {:induction false} AttemptsExhaust(w: World, d: nat, u: Unit, st: State, attempt: nat, last: Err)
    requires u.id !in ExecutorRetry.Below(u) && !OwnFailure(Fail(last))
    ensures var r := Attempts(w, d, u, st, attempt, last);
            Exhausts(w, d, u, st, attempt, ExecutorRetry.Spent(st, r.st, d, u.id).attempts, r)
    decreases Left(w, u, attempt), 1
  {
    hide Vetoed, Broke, Quiet, Execute, Retry, Resolve, IsPaused, IsHard, ExecutorRetry.Spent, ExecutorRetry.Cost,
         ApplyPending;
    var t := Attempts(w, d, u, st, attempt, last);
    if attempt >= Tries(w, u) {
      ResolveDecided(w, d, u, st, ActionFailed, last);
      ExecutorRetry.ResolveBudget(w, d, u, st, ActionFailed, last);
    } else if attempt > 0 && w.cut(st.tick) {
      QuietLogged(st, t.st, [Cleared(d, u.id)], d, u.id);
      QuietDecides(st, t.st, d, u.id);
    } else {
      var began := Log(st.(tick := st.tick + 1), [Began(d, u.id)]);
      BeganDecides(st, began, d, u.id);
      ExecuteQuiet(w, d, u, began, u.id);
      var r := Execute(w, d, u, began);
      QuietDecides(began, r.st, d, u.id);
      DecidedLater(st, began, r.st, d, u.id);
      ExecuteIsNotOwn(w, d, u, began);
      OneAttemptSpent(w, d, u, st, began, r);
      if r.out.Fail? && !IsPaused(r.out.err) && !w.cancelled(r.st.tick) && !IsHard(r.out.err) {
        var asked := r.st.(tick := r.st.tick + 1);
        RetryExhausts(w, d, u, asked, attempt, r.out.err);
        SameLog(st, r.st, asked, d, u.id);
        DecidedLater(st, asked, t.st, d, u.id);
        ExecutorRetry.SpentSame(st, r.st, asked, d, u.id);
        ExecutorRetry.SpentChain(st, asked, t.st, d, u.id);
      } else {
        EndsUndecided(d, u, st, r, t);
      }
    }
  }

  lemma OneAttemptSpent(w: World, d: nat, u: Unit, st: State, began: State, r: Result)
    requires u.id !in ExecutorRetry.Below(u) && began.log == st.log + [Began(d, u.id)]
    requires r == Execute(w, d, u, began)
    ensures st.log <= r.st.log && ExecutorRetry.Spent(st, r.st, d, u.id).attempts == 1
  {
    hide Execute, ExecutorRetry.Spent, ExecutorRetry.Cost, ExecutorRetry.Add;
    ExecutorRetry.CostOf(d, u.id, u.id, false);
    ExecutorRetry.SpentOne(st, began, Began(d, u.id), d, u.id);
    ExecutorRetry.ExecuteFree(w, d, u, began, u.id);
    ExecutorRetry.SpentChain(st, began, r.st, d, u.id);
    ExecutorRetry.AddIs(ExecutorRetry.Spent(st, began, d, u.id), ExecutorRetry.Spent(began, r.st, d, u.id));
  }

  lemma EndsUndecided(d: nat, u: Unit, st: State, r: Result, t: Result)
    requires st.log <= r.st.log && !OwnFailure(r.out) && !Vetoed(st, r.st, d, u.id)
    requires t == (if r.out.Ok? then ApplyPending(d, r.st, r.out.value) else if r.out.Panic? then r
                   else Result(r.out, r.st.(tick := r.st.tick + 1)))
    ensures !OwnFailure(t.out) && !Vetoed(st, t.st, d, u.id)
  {
    hide Vetoed;
    if r.out.Ok? {
      PendingQuiet(d, r.st, r.out.value, u.id);
      QuietDecides(r.st, t.st, d, u.id);
      DecidedLater(st, r.st, t.st, d, u.id);
    } else {
      SameLog(st, r.st, t.st, d, u.id);
    }
  }

  lemma {:induction false} RetryExhausts(w: World, d: nat, u: Unit, st: State, attempt: nat, err: Err)
    requires attempt < Tries(w, u) && u.id !in ExecutorRetry.Below(u) && !OwnFailure(Fail(err))
    ensures var r := Retry(w, d, u, st, attempt, err);
            Exhausts(w, d, u, st, attempt, 1 + ExecutorRetry.Spent(st, r.st, d, u.id).attempts, r)
    decreases Left(w, u, attempt), 0
  {
    hide Vetoed, Broke, Handle, Attempts, Resolve, IsTruthy, ExecutorRetry.Spent, ExecutorRetry.Cost;
    var t := Retry(w, d, u, st, attempt, err);
    if attempt + 1 < Tries(w, u) && u.onRetry.Some? {
      HandleDecides(w, d, u.id, false, u.onRetry.value, st);
      ExecutorRetry.HandleSpends(w, d, u.id, false, u.onRetry.value, st, u.id);
      ExecutorRetry.CostOf(d, u.id, u.id, false);
      var g := Handle(w, d, u.id, false, u.onRetry.value, st);
      match g.out {
        case Fail(e) => DecidedStamp(st, g.st, d, u.id);
        case Ok(verdict) =>
          if IsTruthy(verdict) {
            AttemptsExhaust(w, d, u, g.st, attempt + 1, err);
          } else {
            ResolveDecided(w, d, u, g.st, RetryVetoed, err);
            ExecutorRetry.ResolveBudget(w, d, u, g.st, RetryVetoed, err);
          }
          DecidedLater(st, g.st, t.st, d, u.id);
          ExecutorRetry.SpentChain(st, g.st, t.st, d, u.id);
      }
    } else {
      AttemptsExhaust(w, d, u, st, attempt + 1, err);
    }
  }

  // ----- What a dispatch succeeds with -----

  /** It succeeds with the value of its last attempt, or with the truthy value OnError answered. */
  ghost predicate SucceedsWith(w: World, d: nat, u: Unit, a: State, r: Result) {
    r.out.Ok? ==> || Absorbed(a, r.st, d, u.id, r.out.value)
                  || (r.st.pending == Continue && exists s :: Execute(w, d, u, s) == r)
  }

  lemma {:induction false} AttemptsSucceed(w: World, d: nat, u: Unit, st: State, attempt: nat, last: Err)
    requires !OwnFailure(Fail(last))
    ensures SucceedsWith(w, d, u, st, Attempts(w, d, u, st, attempt, last))
    decreases Left(w, u, attempt), 1
  {
    hide Execute, Retry, Resolve, IsPaused, IsHard, Absorbed, Decided;
    var t := Attempts(w, d, u, st, attempt, last);
    if attempt >= Tries(w, u) {
      ResolveDecided(w, d, u, st, ActionFailed, last);
    } else if !(attempt > 0 && w.cut(st.tick)) {
      var began := Log(st.(tick := st.tick + 1), [Began(d, u.id)]);
      var r := Execute(w, d, u, began);
      ExecuteIsNotOwn(w, d, u, began);
      if r.out.Fail? && !IsPaused(r.out.err) && !w.cancelled(r.st.tick) && !IsHard(r.out.err) {
        var asked := r.st.(tick := r.st.tick + 1);
        RetrySucceeds(w, d, u, asked, attempt, r.out.err);
        SucceedsLater(w, d, u, st, asked, t);
      }
    }
  }

  lemma SucceedsLater(w: World, d: nat, u: Unit, a: State, b: State, r: Result)
    requires a.log <= b.log <= r.st.log && SucceedsWith(w, d, u, b, r)
    ensures SucceedsWith(w, d, u, a, r)
  {
    hide Execute, Absorbed;
    if r.out.Ok? && Absorbed(b, r.st, d, u.id, r.out.value) {
      AbsorbedEarlier(a, b, r.st, d, u.id, r.out.value);
    }
  }

  lemma AbsorbedEarlier(a: State, b: State, c: State, d: nat, x: nat, value: Value)
    requires a.log <= b.log <= c.log && Absorbed(b, c, d, x, value)
    ensures Absorbed(a, c, d, x, value)
  {
    assert c.log[|a.log|..] == b.log[|a.log|..] + c.log[|b.log|..];
  }

  lemma {:induction false} RetrySucceeds(w: World, d: nat, u: Unit, st: State, attempt: nat, err: Err)
    requires attempt < Tries(w, u) && !OwnFailure(Fail(err))
    ensures SucceedsWith(w, d, u, st, Retry(w, d, u, st, attempt, err))
    decreases Left(w, u, attempt), 0
  {
    hide Handle, Attempts, Resolve, Absorbed, SucceedsWith, Decided;
    var t := Retry(w, d, u, st, attempt, err);
    if attempt + 1 < Tries(w, u) && u.onRetry.Some? {
      var g := Handle(w, d, u.id, false, u.onRetry.value, st);
      if g.out.Ok? {
        if IsTruthy(g.out.value) {
          AttemptsSucceed(w, d, u, g.st, attempt + 1, err);
        } else {
          ResolveDecided(w, d, u, g.st, RetryVetoed, err);
          AbsorbedSucceeds(w, d, u, g.st, t);
        }
        SucceedsLater(w, d, u, st, g.st, t);
      } else {
        FailureSucceedsNot(w, d, u, st, t);
      }
    } else {
      AttemptsSucceed(w, d, u, st, attempt + 1, err);
    }
  }

  lemma AbsorbedSucceeds(w: World, d: nat, u: Unit, a: State, r: Result)
    requires r.out.Ok? ==> Absorbed(a, r.st, d, u.id, r.out.value)
    ensures SucceedsWith(w, d, u, a, r)
  {
    hide Execute, Absorbed;
  }

  lemma FailureSucceedsNot(w: World, d: nat, u: Unit, a: State, r: Result)
    requires !r.out.Ok?
    ensures SucceedsWith(w, d, u, a, r)
  {
    hide Execute, Absorbed;
  }

  /**
   A dispatch that stamps its own failure stamps handler_failed exactly when a handler of the unit failed, retry_vetoed
   exactly when OnRetry answered falsy and no handler failed, and action_failed exactly when its allowance was spent and
   no handler failed.  A veto always leaves an attempt unspent.
   */
  lemma VerdictsDecide(w: World, d: nat, u: Unit, st: State)
    requires u.id !in ExecutorRetry.Below(u)
    ensures var r := Dispatched(w, d, u, st);
            var spent := ExecutorRetry.Spent(st, r.st, d, u.id).attempts;
            && spent <= Allowance(w, u)
            && (Vetoed(st, r.st, d, u.id) ==> spent < Allowance(w, u))
            && (OwnFailure(r.out) ==>
                 && (r.out.err.reason == HandlerFailed <==> Broke(st, r.st, d, u.id))
                 && (r.out.err.reason == RetryVetoed <==> Vetoed(st, r.st, d, u.id) && !Broke(st, r.st, d, u.id))
                 && (r.out.err.reason == ActionFailed <==> spent == Allowance(w, u) && !Broke(st, r.st, d, u.id)))
            && SucceedsWith(w, d, u, st, r)
  {
    hide Vetoed, Broke, SucceedsWith, Attempts, ExecutorRetry.Spent, ExecutorRetry.Cost;
    AttemptsDecided(w, d, u, st, 0, Nothing);
    AttemptsExhaust(w, d, u, st, 0, Nothing);
    AttemptsSucceed(w, d, u, st, 0, Nothing);
    AllowanceIs(w, u);
    ExecutorRetry.BudgetIsKept(w, d, u, st);
  }

  /** An attempt that fails paused, hard, or under a cancelled context ends its dispatch, and nothing is asked. */
  lemma NothingAnswersIt(w: World, d: nat, u: Unit, st: State, attempt: nat, last: Err)
    requires attempt < Allowance(w, u) && (attempt == 0 || !w.cut(st.tick))
    requires var r := Execute(w, d, u, Log(st.(tick := st.tick + 1), [Began(d, u.id)]));
             r.out.Fail? && (IsPaused(r.out.err) || IsHard(r.out.err) || w.cancelled(r.st.tick))
    ensures var r := Execute(w, d, u, Log(st.(tick := st.tick + 1), [Began(d, u.id)]));
            var t := Attempts(w, d, u, st, attempt, last);
            t.out == r.out && t.st == r.st.(tick := r.st.tick + 1)
  {
    hide Execute, Retry, Resolve, IsPaused, IsHard;
    AllowanceIs(w, u);
  }
}
