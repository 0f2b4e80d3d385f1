/**
 Handlers settle their own compensation: what every dispatch's history says of the handlers it asked, at any depth.  A
 handler that fails has each compensator its actions left called exactly once, after everything it did; one that
 succeeds has none called.
 */
module ExecutorHandlers {
  import opened Options
  import opened RunStatus
  import opened Failure
  import opened Recovery
  import opened Executor
  import opened ExecutorDepth
  import opened ExecutorStack
  import opened ExecutorCrash
  import ExecutorHalts

  /** A handler was asked at `i` and answered at `j`; everything in between is deeper. */
  ghost predicate Bracket(es: seq<Event>, i: nat, j: nat) {
    && i < j < |es| && es[i].Asked? && es[j].Answered?
    && es[j].depth == es[i].depth && es[j].unit == es[i].unit && es[j].rescue == es[i].rescue
    && forall m :: i < m < j ==> es[m].depth > es[i].depth
  }

  /** The units whose compensators were called at this depth. */
  function Undone(es: seq<Event>, d: nat): multiset<nat> {
    if es == [] then multiset{}
    else
      var e := es[|es|-1];
      Undone(es[..|es|-1], d) + if e.Compensated? && e.depth == d then multiset{e.unit} else multiset{}
  }

  /** Compensators are called last. */
  ghost predicate Lastly(es: seq<Event>, d: nat) {
    forall i, j :: 0 <= i < j < |es| && es[i].Compensated? && es[i].depth == d ==>
                     es[j].Compensated? && es[j].depth == d
  }

  /** What a handler that ran at depth `d` did, and how it ended. */
  ghost predicate Settles(es: seq<Event>, d: nat, out: Outcome) {
    && !out.Panic?
    && (out.Ok? ==> Undone(es, d) == multiset{})
    && (out.Fail? ==> Undone(es, d) + Count(es, d).forgotten == Count(es, d).undoable && Lastly(es, d))
  }

  /** Every handler that was asked answered, and settled. */
  ghost predicate Cared(es: seq<Event>) {
    && (forall i :: 0 <= i < |es| && es[i].Asked? ==> exists j: nat :: Bracket(es, i, j))
    && (forall i: nat, j: nat :: i < j < |es| && es[j].Answered? && Bracket(es, i, j) ==>
          Settles(es[i + 1..j], es[i].depth + 1, es[j].out))
  }

  /** No compensator is called at this depth or above. */
  ghost predicate NoUnwind(es: seq<Event>, d: nat) {
    forall i :: 0 <= i < |es| && es[i].Compensated? ==> es[i].depth > d
  }

  lemma CaredIdle(es: seq<Event>)
    requires forall i :: 0 <= i < |es| ==> !es[i].Asked?
    ensures Cared(es)
  {
  }

  /** A question has one answer. */
  lemma OneAnswer(es: seq<Event>, i: nat, j: nat, k: nat)
    requires Bracket(es, i, j) && Bracket(es, i, k)
    ensures j == k
  {
  }

  lemma BracketPrefix(a: seq<Event>, b: seq<Event>, i: nat, j: nat)
    requires Bracket(a, i, j)
    ensures Bracket(a + b, i, j)
  {
    assert forall m :: 0 <= m < |a| ==> (a + b)[m] == a[m];
  }

  lemma BracketSuffix(a: seq<Event>, b: seq<Event>, i: nat, j: nat)
    requires |a| <= i < j
    ensures Bracket(a + b, i, j) <==> Bracket(b, i - |a|, j - |a|)
  {
    var es, i', j' := a + b, i - |a|, j - |a|;
    if j < |es| {
      assert es[i] == b[i'] && es[j] == b[j'];
      if Bracket(es, i, j) {
        forall m | i' < m < j' ensures b[m].depth > b[i'].depth {
          assert es[m + |a|] == b[m];
        }
      }
      if Bracket(b, i', j') {
        forall m | i < m < j ensures es[m].depth > es[i].depth {
          assert es[m] == b[m - |a|];
        }
      }
    }
  }

  lemma CaredConcat(a: seq<Event>, b: seq<Event>)
    requires Cared(a) && Cared(b)
    ensures Cared(a + b)
  {
    hide Bracket, Settles;
    var es := a + b;
    forall i: nat | i < |es| && es[i].Asked? ensures exists j: nat :: Bracket(es, i, j) {
      Answers(a, b, i);
    }
    forall i: nat, j: nat | i < j < |es| && es[j].Answered? && Bracket(es, i, j)
      ensures Settles(es[i + 1..j], es[i].depth + 1, es[j].out)
    {
      InOrder(es, i, j);
      if i < |a| {
        assert a[i].Asked?;
        var k: nat :| Bracket(a, i, k);
        InOrder(a, i, k);
        BracketPrefix(a, b, i, k);
        OneAnswer(es, i, j, k);
        assert es[i + 1..j] == a[i + 1..j];
      } else {
        BracketSuffix(a, b, i, j);
        assert es[i + 1..j] == b[i - |a| + 1..j - |a|];
      }
    }
  }

  lemma InOrder(es: seq<Event>, i: nat, j: nat)
    requires Bracket(es, i, j)
    ensures i < j < |es| && es[i].Asked? && es[j].Answered?
  {
  }

  lemma Answers(a: seq<Event>, b: seq<Event>, i: nat)
    requires Cared(a) && Cared(b) && i < |a| + |b| && (a + b)[i].Asked?
    ensures exists j: nat :: Bracket(a + b, i, j)
  {
    hide Bracket, Settles;
    if i < |a| {
      var k: nat :| Bracket(a, i, k);
      BracketPrefix(a, b, i, k);
    } else {
      var k: nat :| Bracket(b, i - |a|, k);
      InOrder(b, i - |a|, k);
      BracketSuffix(a, b, i, k + |a|);
      assert Bracket(a + b, i, k + |a|);
    }
  }

  // ----- One handler -----

  lemma {:induction false} UndoneConcat(a: seq<Event>, b: seq<Event>, d: nat)
    ensures Undone(a + b, d) == Undone(a, d) + Undone(b, d)
    decreases |b|
  {
    if b == [] {
      assert a + b == a;
    } else {
      assert (a + b)[..|a + b| - 1] == a + b[..|b|-1];
      UndoneConcat(a, b[..|b|-1], d);
    }
  }

  lemma {:induction false} NothingUndone(es: seq<Event>, d: nat)
    requires NoUnwind(es, d)
    ensures Undone(es, d) == multiset{}
    decreases |es|
  {
    if es != [] {
      NothingUndone(es[..|es|-1], d);
    }
  }

  /** An unwind's events are its calls. */
  lemma {:induction false} CallsUndone(d: nat, calls: seq<Call>)
    ensures Undone(Compensations(d, calls), d) == multiset(Units(calls))
    decreases |calls|
  {
    if calls != [] {
      var e := Compensated(d, calls[0].unit, calls[0].ok);
      CallsUndone(d, calls[1..]);
      UndoneConcat([e], Compensations(d, calls[1..]), d);
      assert [e][..0] == [];
      assert Undone([e], d) == multiset{calls[0].unit};
    }
  }

  lemma LastlyAfter(did: seq<Event>, after: seq<Event>, d: nat)
    requires NoUnwind(did, d) && forall i :: 0 <= i < |after| ==> after[i].Compensated? && after[i].depth == d
    ensures Lastly(did + after, d)
  {
  }

  lemma CountAfter(did: seq<Event>, after: seq<Event>, d: nat)
    requires forall i :: 0 <= i < |after| ==> after[i].Compensated?
    ensures Count(did + after, d) == Count(did, d)
  {
    hide Count, Plus;
    CountIdle(after, d);
    CountConcat(did, after, d);
    PlusLaws(Count(did, d), NONE, NONE);
  }

  /** A handler: what it did, then its unwind. */
  lemma HandlerSettles(did: seq<Event>, d: nat, calls: seq<Call>, out: Outcome, left: multiset<nat>)
    requires NoUnwind(did, d) && !out.Panic?
    requires out.Ok? ==> calls == []
    requires out.Fail? ==> multiset(Units(calls)) == left && left + Count(did, d).forgotten == Count(did, d).undoable
    ensures Settles(did + Compensations(d, calls), d, out)
  {
    hide Count, Undone, NoUnwind, Lastly;
    var after := Compensations(d, calls);
    NothingUndone(did, d);
    CallsUndone(d, calls);
    UndoneConcat(did, after, d);
    CountAfter(did, after, d);
    LastlyAfter(did, after, d);
    assert multiset{} + multiset(Units(calls)) == multiset(Units(calls));
  }

  /** A whole handler between its question and its answer. */
  lemma CaredHandler(d: nat, unit: nat, rescue: bool, did: seq<Event>, out: Outcome)
    requires Cared(did) && (forall i :: 0 <= i < |did| ==> did[i].depth > d) && Settles(did, d + 1, out)
    ensures Cared([Asked(d, unit, rescue)] + did + [Answered(d, unit, rescue, out)])
  {
    hide Settles, Bracket;
    var q, z := Asked(d, unit, rescue), Answered(d, unit, rescue, out);
    CaredIdle([z]);
    CaredConcat(did, [z]);
    OwnBracket(q, did, z);
    CaredAfter(q, did + [z], |did| + 1, d, out);
    assert [q] + did + [z] == [q] + (did + [z]);
    assert (did + [z])[..|did|] == did;
  }

  lemma OwnBracket(q: Event, did: seq<Event>, z: Event)
    requires q.Asked? && z.Answered? && q.depth == z.depth && q.unit == z.unit && q.rescue == z.rescue
    requires forall i :: 0 <= i < |did| ==> did[i].depth > q.depth
    ensures Bracket([q] + (did + [z]), 0, |did| + 1)
  {
    var es := [q] + (did + [z]);
    assert forall m :: 1 <= m < |did| + 1 ==> es[m] == did[m - 1];
  }

  /** A question before a stretch that answers it at `n`. */
  lemma CaredAfter(q: Event, rest: seq<Event>, n: nat, d: nat, out: Outcome)
    requires Cared(rest) && 1 <= n <= |rest| && q.Asked? && q.depth == d && Bracket([q] + rest, 0, n)
    requires rest[n - 1].Answered? && rest[n - 1].out == out && Settles(rest[..n - 1], d + 1, out)
    ensures Cared([q] + rest)
  {
    hide Settles, Bracket;
    var es := [q] + rest;
    forall i: nat | i < |es| && es[i].Asked? ensures exists j: nat :: Bracket(es, i, j) {
      if i > 0 {
        assert rest[i - 1].Asked?;
        var k: nat :| Bracket(rest, i - 1, k);
        InOrder(rest, i - 1, k);
        BracketSuffix([q], rest, i, k + 1);
        assert Bracket(es, i, k + 1);
      }
    }
    forall i: nat, j: nat | i < j < |es| && es[j].Answered? && Bracket(es, i, j)
      ensures Settles(es[i + 1..j], es[i].depth + 1, es[j].out)
    {
      if i == 0 {
        OneAnswer(es, 0, j, n);
        assert es[1..n] == rest[..n - 1];
      } else {
        BracketSuffix([q], rest, i, j);
        assert es[i + 1..j] == rest[i..j - 1];
      }
    }
  }

  // ----- Every dispatch -----

  /** What happened from `a` to `b`, seen from a dispatch at depth `d`. */
  ghost predicate Tidies(a: State, b: State, d: nat) {
    a.log <= b.log && Cared(b.log[|a.log|..]) && NoUnwind(b.log[|a.log|..], d)
  }

  lemma TidiesChain(a: State, b: State, c: State, d: nat)
    requires Tidies(a, b, d) && Tidies(b, c, d)
    ensures Tidies(a, c, d)
  {
    hide Cared;
    var x, y := b.log[|a.log|..], c.log[|b.log|..];
    assert c.log[|a.log|..] == x + y;
    CaredConcat(x, y);
  }

  lemma TidiesLogged(a: State, b: State, events: seq<Event>, d: nat)
    requires b.log == a.log + events
    requires forall i :: 0 <= i < |events| ==> !events[i].Asked? && !events[i].Compensated?
    ensures Tidies(a, b, d)
  {
    hide Cared;
    assert b.log[|a.log|..] == events;
    CaredIdle(events);
  }

  lemma {:induction false} DispatchedTidies(w: World, d: nat, u: Unit, st: State)
    requires Proper(u)
    ensures Tidies(st, Dispatched(w, d, u, st).st, d)
    decreases u, 2 + Left(w, u, 0), 0
  {
    AttemptsTidy(w, d, u, st, 0, Nothing);
  }

  lemma {:induction false} AttemptsTidy(w: World, d: nat, u: Unit, st: State, attempt: nat, last: Err)
    requires Proper(u)
    ensures Tidies(st, Attempts(w, d, u, st, attempt, last).st, d)
    decreases u, 1 + Left(w, u, attempt), 1
  {
    hide Proper, Tidies, Execute, Retry, Resolve, ApplyPending, IsPaused, IsHard;
    var t := Attempts(w, d, u, st, attempt, last);
    if attempt >= Tries(w, u) {
      ResolveTidies(w, d, u, st, ActionFailed, last);
    } else if attempt > 0 && w.cut(st.tick) {
      TidiesLogged(st, t.st, [Cleared(d, u.id)], d);
    } else {
      var began := Log(st.(tick := st.tick + 1), [Began(d, u.id)]);
      TidiesLogged(st, began, [Began(d, u.id)], d);
      ExecuteTidies(w, d, u, began);
      var r := Execute(w, d, u, began);
      TidiesChain(st, began, r.st, d);
      match r.out
      case Ok(value) =>
        PendingTidies(d, r.st, value);
        TidiesChain(st, r.st, t.st, d);
      case Panic =>
      case Fail(err) =>
        var asked := r.st.(tick := r.st.tick + 1);
        TidiesLogged(r.st, asked, [], d);
        TidiesChain(st, r.st, asked, d);
        if !IsPaused(err) && !w.cancelled(r.st.tick) && !IsHard(err) {
          RetryTidies(w, d, u, asked, attempt, err);
          TidiesChain(st, asked, t.st, d);
        }
    }
  }

  lemma PendingTidies(d: nat, st: State, value: Value)
    ensures Tidies(st, ApplyPending(d, st, value).st, d)
  {
    hide Tidies;
    var events := match st.pending
      case Stop => [Stamped(d, st.reason), Halted(d, HardHalt)]
      case Pause => [Halted(d, PauseHalt)]
      case Continue => [];
    TidiesLogged(st, ApplyPending(d, st, value).st, events, d);
  }

  lemma {:induction false} RetryTidies(w: World, d: nat, u: Unit, st: State, attempt: nat, err: Err)
    requires attempt < Tries(w, u) && Proper(u)
    ensures Tidies(st, Retry(w, d, u, st, attempt, err).st, d)
    decreases u, 1 + Left(w, u, attempt), 0
  {
    hide Tidies, Proper, Handle, Attempts, Resolve;
    ProperParts(u);
    var t := Retry(w, d, u, st, attempt, err);
    if attempt + 1 < Tries(w, u) && u.onRetry.Some? {
      HandleTidies(w, d, u.id, false, u.onRetry.value, st);
      var g := Handle(w, d, u.id, false, u.onRetry.value, st);
      match g.out {
        case Fail(e) => TidiesLogged(g.st, t.st, [Stamped(d, HandlerFailed)], d);
        case Ok(verdict) =>
          if IsTruthy(verdict) {
            AttemptsTidy(w, d, u, g.st, attempt + 1, err);
          } else {
            ResolveTidies(w, d, u, g.st, RetryVetoed, err);
          }
      }
      TidiesChain(st, g.st, t.st, d);
    } else {
      AttemptsTidy(w, d, u, st, attempt + 1, err);
    }
  }

  lemma {:induction false} ResolveTidies(w: World, d: nat, u: Unit, st: State, base: Reason, cause: Err)
    requires Proper(u)
    ensures Tidies(st, Resolve(w, d, u, st, base, cause).st, d)
    decreases u, 0, 2
  {
    hide Tidies, Proper, Handle, Stands;
    ProperParts(u);
    var t := Resolve(w, d, u, st, base, cause);
    StandsTidies(d, st, base, cause);
    if u.onError.Some? {
      HandleTidies(w, d, u.id, true, u.onError.value, st);
      var h := Handle(w, d, u.id, true, u.onError.value, st);
      StandsTidies(d, h.st, base, cause);
      var e := if h.out.Fail? then Stamped(d, HandlerFailed) else Cleared(d, u.id);
      TidiesLogged(h.st, Log(h.st, [e]), [e], d);
      TidiesChain(st, h.st, t.st, d);
    }
  }

  lemma StandsTidies(d: nat, st: State, base: Reason, cause: Err)
    ensures Tidies(st, Stands(d, st, base, cause).st, d)
  {
    hide Tidies;
    TidiesLogged(st, Stands(d, st, base, cause).st, if As(cause).Some? then [] else [Stamped(d, base)], d);
  }

  lemma {:induction false} HandleTidies(w: World, d: nat, unit: nat, rescue: bool, handler: Unit, st: State)
    requires Proper(handler)
    ensures Tidies(st, Handle(w, d, unit, rescue, handler, st).st, d)
    decreases handler, 1, 0
  {
    hide Proper, Execute, Tidies, Handle;
    var asked := Log(st.(entries := []), [Asked(d, unit, rescue)]);
    ExecuteTidies(w, d + 1, handler, asked);
    HandlerRan(w, d, unit, rescue, handler, st);
  }

  lemma HandlerRan(w: World, d: nat, unit: nat, rescue: bool, handler: Unit, st: State)
    requires Proper(handler)
    requires var asked := Log(st.(entries := []), [Asked(d, unit, rescue)]);
             Tidies(asked, Execute(w, d + 1, handler, asked).st, d + 1)
    ensures Tidies(st, Handle(w, d, unit, rescue, handler, st).st, d)
  {
    hide Proper, Execute, Unwind, Cared, Settles, Count, Undos, Ledger, NoUnwind, Compensations, Handle, Tidies;
    var asked := Log(st.(entries := []), [Asked(d, unit, rescue)]);
    var r := Execute(w, d + 1, handler, asked);
    var did := r.st.log[|asked.log|..];
    var out := if r.out.Panic? then Fail(Plain) else r.out;
    var calls := if out.Ok? then [] else Unwind(w.undo, r.st.tick, r.st.entries).calls;
    TidiesMeans(asked, r.st, d + 1);
    HandlerBalances(w, d, handler, asked);
    HandlerSettles(did, d + 1, calls, out, Undos(r.st.entries));
    HandlerLogs(d, unit, rescue, did, calls, out);
    var es := [Asked(d, unit, rescue)] + (did + Compensations(d + 1, calls)) + [Answered(d, unit, rescue, out)];
    EndLogged(w, d, unit, rescue, handler, st, calls, out);
    Assembled(st.log, Asked(d, unit, rescue), r.st.log, Compensations(d + 1, calls), Answered(d, unit, rescue, out));
    TidiesBy(st, Handle(w, d, unit, rescue, handler, st).st, es, d);
  }

  lemma Assembled(log: seq<Event>, q: Event, ran: seq<Event>, after: seq<Event>, z: Event)
    requires log + [q] <= ran
    ensures (ran + after) + [z] == log + ([q] + (ran[|log + [q]|..] + after) + [z])
  {
  }

  lemma TidiesMeans(a: State, b: State, d: nat)
    requires Tidies(a, b, d)
    ensures a.log <= b.log && Cared(b.log[|a.log|..]) && NoUnwind(b.log[|a.log|..], d)
  {
  }

  lemma TidiesBy(a: State, b: State, es: seq<Event>, d: nat)
    requires b.log == a.log + es && Cared(es) && NoUnwind(es, d)
    ensures Tidies(a, b, d)
  {
    hide Cared, NoUnwind;
    assert b.log[|a.log|..] == es;
  }

  lemma EndLogged(w: World, d: nat, unit: nat, rescue: bool, handler: Unit, st: State, calls: seq<Call>, out: Outcome)
    requires var r := Execute(w, d + 1, handler, Log(st.(entries := []), [Asked(d, unit, rescue)]));
             && out == (if r.out.Panic? then Fail(Plain) else r.out)
             && calls == if out.Ok? then [] else Unwind(w.undo, r.st.tick, r.st.entries).calls
    ensures var r := Execute(w, d + 1, handler, Log(st.(entries := []), [Asked(d, unit, rescue)]));
            Handle(w, d, unit, rescue, handler, st).st.log ==
              (r.st.log + Compensations(d + 1, calls)) + [Answered(d, unit, rescue, out)]
  {
    hide Handle, Execute, Unwind;
    HandleEnds(w, d, unit, rescue, handler, st);
    var r := Execute(w, d + 1, handler, Log(st.(entries := []), [Asked(d, unit, rescue)]));
    assert r.st.log + [] == r.st.log;
  }

  lemma HandlerBalances(w: World, d: nat, handler: Unit, asked: State)
    requires Proper(handler) && asked.entries == []
    ensures var r := Execute(w, d + 1, handler, asked);
            var did := r.st.log[|asked.log|..];
            && (forall i :: 0 <= i < |did| ==> did[i].depth > d)
            && multiset(Units(Unwind(w.undo, r.st.tick, r.st.entries).calls)) == Undos(r.st.entries)
            && Undos(r.st.entries) + Count(did, d + 1).forgotten == Count(did, d + 1).undoable
  {
    hide Proper, Execute, Unwind, Count, Undos, Ledger;
    var r := Execute(w, d + 1, handler, asked);
    var did := r.st.log[|asked.log|..];
    forall i | 0 <= i < |did| ensures did[i].depth > d {
      ExecuteDeep(w, d + 1, handler, asked, |asked.log| + i);
    }
    ProperParts(handler);
    FreshStack(handler);
    ExecuteLedger(w, d + 1, handler, asked);
    Ledgers(d + 1, handler, asked, r);
    UnwindCounted(w, r.st);
  }

  lemma UnwindCounted(w: World, st: State)
    ensures multiset(Units(Unwind(w.undo, st.tick, st.entries).calls)) == Undos(st.entries)
  {
    hide Unwind;
    UnwindCallsEverything(w.undo, st.tick, st.entries);
  }

  lemma HandlerLogs(d: nat, unit: nat, rescue: bool, did: seq<Event>, calls: seq<Call>, out: Outcome)
    requires Cared(did) && NoUnwind(did, d + 1) && (forall i :: 0 <= i < |did| ==> did[i].depth > d)
    requires Settles(did + Compensations(d + 1, calls), d + 1, out)
    ensures var es := [Asked(d, unit, rescue)] + (did + Compensations(d + 1, calls)) + [Answered(d, unit, rescue, out)];
            Cared(es) && NoUnwind(es, d)
  {
    hide Cared, Settles;
    var after := Compensations(d + 1, calls);
    CaredIdle(after);
    CaredConcat(did, after);
    CaredHandler(d, unit, rescue, did + after, out);
  }

  lemma Ledgers(d: nat, u: Unit, st: State, r: Result)
    requires Ledger(d, u, st, r) && st.entries == []
    ensures var t := Count(r.st.log[|st.log|..], d); Undos(r.st.entries) + t.forgotten == t.undoable
  {
    hide Count, Tidy, Settled, Frame;
    var t := Count(r.st.log[|st.log|..], d);
    EmptyUndos();
    assert multiset{} + t.undoable == t.undoable;
  }

  lemma {:induction false} ExecuteTidies(w: World, d: nat, u: Unit, st: State)
    requires Proper(u)
    ensures Tidies(st, Execute(w, d, u, st).st, d)
    decreases u, 0, 1
  {
    hide Proper, Tidies, Node, Subgraph;
    var t, s := st.tick, st.(tick := st.tick + 1);
    TidiesLogged(st, s, [], d);
    if w.cancelled(t) {
      TidiesLogged(st, Push(s, Bare), [], d);
    } else {
      var c := ControlPoint(w, d, t, s);
      if c.out.Fail? {
        var kind := if w.command(t) == Some(PauseCommand) then PauseHalt else StopHalt;
        TidiesLogged(st, c.st, [Halted(d, kind)], d);
      } else {
        if u.body.Leaf? {
          NodeTidies(w, d, t, u, s);
        } else {
          SubgraphTidies(w, d, t, u, s);
        }
        TidiesChain(st, s, Execute(w, d, u, st).st, d);
      }
    }
  }

  lemma FrameworkTidies(w: World, d: nat, st: State, unit: nat)
    ensures Tidies(st, FrameworkFailure(w, d, st, unit).st, d)
  {
    hide Tidies;
    var r := FrameworkFailure(w, d, st, unit);
    var logged := if r.out.Panic? then [Crashed(d)] else [Stamped(d, FrameworkFailed), Halted(d, HardHalt)];
    TidiesLogged(st, r.st, logged, d);
  }

  lemma NodeTidies(w: World, d: nat, t: nat, u: Unit, s: State)
    ensures Tidies(s, Node(w, d, t, u, s).st, d)
  {
    hide Tidies, FindReceipt, FrameworkFailure;
    var act, r := w.act(u.id, t), Node(w, d, t, u, s).st;
    SubmitGrew(w, s, u.id, act.flips);
    TidiesLogged(s, s, [], d);
    FrameworkTidies(w, d, s, u.id);
    var found := FindReceipt(s.entries, u.id);
    if !(found.Some? && found.value.Receipt? && found.value.ok) && w.bound(u.id, t) {
      if !Submit(w, s, u.id, act.flips).ok {
        TidiesLogged(s, r, [Crashed(d)], d);
      } else {
        match act.verdict
        case Returned(_) => TidiesLogged(s, r, [Acted(d, u.id, true, act.undo)], d);
        case Refused(err) => TidiesLogged(s, r, [Acted(d, u.id, false, act.undo)] + Raised(d, err), d);
      }
    }
  }

  lemma {:induction false} SubgraphTidies(w: World, d: nat, t: nat, u: Unit, s: State)
    requires u.body.Scope? && Proper(u)
    ensures Tidies(s, Subgraph(w, d, t, u, s).st, d)
    decreases u, 0, 0
  {
    hide Tidies, Proper, FrameworkFailure, Walk, Leave, FindNested, Supersede, Undos;
    ProperParts(u);
    TidiesLogged(s, s, [], d);
    var prior := FindNested(s.entries, u.id);
    if prior.None? || prior.value.failed {
      var adopted := if prior.Some? then prior.value.entries else [];
      var s1 := if prior.Some? then s.(entries := Supersede(s.entries, u.id)) else s;
      var lost := Log(s1, Dropped(d, prior));
      var r := Subgraph(w, d, t, u, s);
      TidiesLogged(s, lost, Dropped(d, prior), d);
      if !w.bound(u.id, t) {
        FrameworkTidies(w, d, lost, u.id);
        TidiesChain(s, lost, r.st, d);
      } else if !w.claims(t) {
        TidiesLogged(s, r.st, Dropped(d, prior) + [Stamped(d, PreflightFailed)], d);
      } else {
        var child := Child(s1, adopted);
        var walked := Walk(w, d, u.body.children, Nil, child);
        WalkTidies(w, d, u.body.children, Nil, child);
        LeaveTidies(w, d, u.id, s1, walked);
        TidiesLogged(s, child, [], d);
        TidiesChain(s, child, walked.st, d);
        TidiesChain(s, walked.st, r.st, d);
      }
    }
  }

  lemma LeaveTidies(w: World, d: nat, unit: nat, s1: State, walked: Result)
    ensures Tidies(walked.st, Leave(w, d, unit, s1, walked).st, d)
  {
    hide Tidies, Undos, IsPaused;
    var r := Leave(w, d, unit, s1, walked);
    var lost := Lost(d, Undos(walked.st.entries));
    var logged := if walked.out.Panic? then [lost] else if r.out.Panic? then [lost, Crashed(d)] else [];
    TidiesLogged(walked.st, r.st, logged, d);
  }

  lemma {:induction false} WalkTidies(w: World, d: nat, units: seq<Unit>, last: Value, st: State)
    requires AllProper(units)
    ensures Tidies(st, Walk(w, d, units, last, st).st, d)
    decreases units, 0, 0
  {
    hide Tidies, Proper, Dispatched;
    TidiesLogged(st, st, [], d);
    if units != [] {
      DispatchedTidies(w, d, units[0], st);
      var r := Dispatched(w, d, units[0], st);
      if r.out.Ok? && !(units[0].body.Leaf? && units[0].body.completes) {
        WalkTidies(w, d, units[1..], r.out.value, r.st);
        TidiesChain(st, r.st, Walk(w, d, units, last, st).st, d);
      }
    }
  }

  /**
   Of every dispatch, at every depth: a handler that was asked answers; between the two, a handler that failed has each
   compensator its actions left, and that was not dropped with a scope's stack, called exactly once and last of all, and
   one that succeeded has none called.  Outside handlers a dispatch calls no compensator.
   */
  lemma HandlersSettle(w: World, d: nat, u: Unit, st: State)
    requires Proper(u)
    ensures Cared(ExecutorHalts.Events(w, d, u, st)) && NoUnwind(ExecutorHalts.Events(w, d, u, st), d)
  {
    hide Cared, Proper, Dispatched;
    DispatchedTidies(w, d, u, st);
  }

  /** The end of a handler: it fails unless its execution succeeded, its caller's stack is back, and no status moved. */
  lemma HandlerEnds(w: World, d: nat, unit: nat, rescue: bool, handler: Unit, st: State)
    ensures var r := Execute(w, d + 1, handler, Log(st.(entries := []), [Asked(d, unit, rescue)]));
            var h := Handle(w, d, unit, rescue, handler, st);
            && h.out == (if r.out.Panic? then Fail(Plain) else r.out) && h.st.entries == st.entries
            && h.st.(tick := r.st.tick, log := r.st.log, entries := r.st.entries) == r.st
  {
    hide Execute, Unwind, Handle, Compensations;
    HandleEnds(w, d, unit, rescue, handler, st);
  }

  /** The events after a handler's execution, `order` being what its stack has to undo. */
  ghost predicate Unwinds(es: seq<Event>, d: nat, order: seq<nat>, undo: nat -> bool, tick: nat, z: Event) {
    && |es| == |order| + 1 && es[|order|] == z
    && forall i :: 0 <= i < |order| ==> es[i] == Compensated(d, order[i], undo(tick + i))
  }

  /**
   A success calls nothing; after any other end the handler's stack is unwound, last entry first, each call recorded as
   it went and taking a tick of its own.
   */
  lemma HandlerUnwinds(w: World, d: nat, unit: nat, rescue: bool, handler: Unit, st: State)
    ensures var r := Execute(w, d + 1, handler, Log(st.(entries := []), [Asked(d, unit, rescue)]));
            var h := Handle(w, d, unit, rescue, handler, st);
            var order := if r.out.Ok? then [] else UndoOrder(r.st.entries);
            && r.st.log <= h.st.log && h.st.tick == r.st.tick + |order|
            && Unwinds(h.st.log[|r.st.log|..], d + 1, order, w.undo, r.st.tick, Answered(d, unit, rescue, h.out))
  {
    hide Execute, Unwind, Handle, UndoOrder, Unwinds, Compensations;
    HandleEnds(w, d, unit, rescue, handler, st);
    var r := Execute(w, d + 1, handler, Log(st.(entries := []), [Asked(d, unit, rescue)]));
    var u := Unwind(w.undo, r.st.tick, r.st.entries);
    var z := Answered(d, unit, rescue, if r.out.Panic? then Fail(Plain) else r.out);
    if r.out.Ok? {
      NothingUnwinds(d + 1, w.undo, r.st.tick, z);
      assert (r.st.log + [z])[|r.st.log|..] == [z];
    } else {
      UnwindsInOrder(w.undo, d + 1, r.st.tick, r.st.entries, z);
      Tail(r.st.log, Compensations(d + 1, u.calls), z);
    }
  }

  lemma NothingUnwinds(d: nat, undo: nat -> bool, tick: nat, z: Event)
    ensures Unwinds([z], d, [], undo, tick, z)
  {
  }

  lemma Tail(log: seq<Event>, after: seq<Event>, z: Event)
    ensures ((log + after) + [z])[|log|..] == after + [z]
  {
  }

  lemma UnwindsInOrder(undo: nat -> bool, d: nat, tick: nat, entries: seq<Entry>, z: Event)
    ensures var u := Unwind(undo, tick, entries);
            && u.tick == tick + |UndoOrder(entries)|
            && Unwinds(Compensations(d, u.calls) + [z], d, UndoOrder(entries), undo, tick, z)
  {
    hide Unwind, UndoOrder, AllOk;
    UnwindCallsEverything(undo, tick, entries);
    UnitsAt(Unwind(undo, tick, entries).calls);
  }

  lemma {:induction false} UnitsAt(calls: seq<Call>)
    ensures |Units(calls)| == |calls| && forall i :: 0 <= i < |calls| ==> Units(calls)[i] == calls[i].unit
    decreases |calls|
  {
    if calls != [] {
      UnitsAt(calls[1..]);
    }
  }
}
