/**
 What dispatches leave on the recovery stack, across retries and across a pause and its resumption: nothing an action
 can undo is forgotten, and nothing that succeeded is done again.
 */
module ExecutorStack {
  import opened Options
  import opened RunStatus
  import opened Failure
  import opened Recovery
  import opened Executor

  // ----- Units and what a stack knows of them -----

  /** The ids of a tree outside its handlers; handlers run on stacks of their own. */
  function Ids(u: Unit): set<nat> {
    {u.id} + (if u.body.Scope? then AllIds(u.body.children) else {})
  }

  function AllIds(units: seq<Unit>): set<nat> {
    if units == [] then {} else Ids(units[0]) + AllIds(units[1..])
  }

  predicate Distinct(u: Unit) {
    u.body.Scope? ==> u.id !in AllIds(u.body.children) && AllDistinct(u.body.children)
  }

  predicate AllDistinct(units: seq<Unit>) {
    units != [] ==> Distinct(units[0]) && Ids(units[0]) !! AllIds(units[1..]) && AllDistinct(units[1..])
  }

  /** A scope is on the stack at most once, on top of its unit's receipts, and its own stack is tidy too. */
  predicate Tidy(entries: seq<Entry>, u: Unit)
    decreases u
  {
    u.body.Scope? ==>
      var about := About(entries, u.id);
      && (forall i :: 0 <= i < |about| - 1 ==> !about[i].Nested?)
      && (FindNested(about, u.id).Some? && FindNested(about, u.id).value.failed ==>
            AllTidy(FindNested(about, u.id).value.entries, u.body.children))
  }

  predicate AllTidy(entries: seq<Entry>, units: seq<Unit>)
    decreases units
  {
    units != [] ==> Tidy(entries, units[0]) && AllTidy(entries, units[1..])
  }

  /** The nodes of the tree that a dispatch from this stack replays instead of running. */
  function Settled(entries: seq<Entry>, u: Unit): set<nat>
    decreases u
  {
    if u.body.Leaf? then
      var found := FindReceipt(About(entries, u.id), u.id);
      if found.Some? && found.value.Receipt? && found.value.ok then {u.id} else {}
    else
      match FindNested(About(entries, u.id), u.id)
      case None => {}
      case Some(stack) => if stack.failed then AllSettled(stack.entries, u.body.children) else AllIds(u.body.children)
  }

  function AllSettled(entries: seq<Entry>, units: seq<Unit>): set<nat>
    decreases units
  {
    if units == [] then {} else Settled(entries, units[0]) + AllSettled(entries, units[1..])
  }

  lemma {:induction false} SettledWithin(entries: seq<Entry>, u: Unit)
    ensures Settled(entries, u) <= Ids(u)
    decreases u
  {
    if u.body.Scope? {
      match FindNested(About(entries, u.id), u.id)
      case None =>
      case Some(stack) => AllSettledWithin(stack.entries, u.body.children);
    }
  }

  lemma {:induction false} AllSettledWithin(entries: seq<Entry>, units: seq<Unit>)
    ensures AllSettled(entries, units) <= AllIds(units)
    decreases units
  {
    if units != [] {
      SettledWithin(entries, units[0]);
      AllSettledWithin(entries, units[1..]);
    }
  }

  /** The stacks agree on every unit but one. */
  ghost predicate Frame(unit: nat, a: seq<Entry>, b: seq<Entry>) {
    forall x :: x != unit ==> About(a, x) == About(b, x)
  }

  ghost predicate FrameAll(units: set<nat>, a: seq<Entry>, b: seq<Entry>) {
    forall x :: x !in units ==> About(a, x) == About(b, x)
  }

  lemma {:induction false} UntouchedUnits(units: seq<Unit>, touched: set<nat>, a: seq<Entry>, b: seq<Entry>)
    requires FrameAll(touched, a, b) && touched !! AllIds(units)
    ensures AllSettled(a, units) == AllSettled(b, units) && AllTidy(a, units) == AllTidy(b, units)
    decreases units
  {
    if units != [] {
      assert About(a, units[0].id) == About(b, units[0].id);
      UntouchedUnits(units[1..], touched, a, b);
    }
  }

  // ----- What a stretch of history did -----

  /**
   Seen from handler depth `d`: the compensators left, the receipts dropped with a scope stack, the nodes that
   succeeded, and whether no scope stack was dropped.
   */
  datatype Tally = Tally(undoable: multiset<nat>, forgotten: multiset<nat>, succeeded: multiset<nat>, kept: bool)

  const NONE := Tally(multiset{}, multiset{}, multiset{}, true)

  function Plus(a: Tally, b: Tally): Tally {
    Tally(a.undoable + b.undoable, a.forgotten + b.forgotten, a.succeeded + b.succeeded, a.kept && b.kept)
  }

  function CountOne(e: Event, d: nat): Tally {
    if e.Acted? && e.depth == d then
      Tally(if e.undo then multiset{e.unit} else multiset{}, multiset{},
            if e.ok then multiset{e.unit} else multiset{}, true)
    else if e.Lost? && e.depth == d then Tally(multiset{}, e.undos, multiset{}, false)
    else NONE
  }

  function Count(es: seq<Event>, d: nat): Tally {
    if es == [] then NONE else Plus(Count(es[..|es|-1], d), CountOne(es[|es|-1], d))
  }

  lemma PlusLaws(a: Tally, b: Tally, c: Tally)
    ensures Plus(Plus(a, b), c) == Plus(a, Plus(b, c))
    ensures Plus(a, NONE) == a && Plus(NONE, a) == a
  {
  }

  lemma {:induction false} CountConcat(a: seq<Event>, b: seq<Event>, d: nat)
    ensures Count(a + b, d) == Plus(Count(a, d), Count(b, d))
    decreases |b|
  {
    PlusLaws(Count(a, d), NONE, NONE);
    if b == [] {
      assert a + b == a;
    } else {
      var n := |b| - 1;
      assert (a + b)[..|a + b| - 1] == a + b[..n] && (a + b)[|a + b| - 1] == b[n];
      CountConcat(a, b[..n], d);
      PlusLaws(Count(a, d), Count(b[..n], d), CountOne(b[n], d));
    }
  }

  lemma CountSingle(e: Event, d: nat)
    ensures Count([e], d) == CountOne(e, d)
  {
    assert [e][..0] == [];
    PlusLaws(CountOne(e, d), NONE, NONE);
  }

  /** Events of other kinds, or at other depths, count for nothing. */
  predicate Idle(e: Event, d: nat) {
    CountOne(e, d) == NONE
  }

  lemma {:induction false} CountIdle(es: seq<Event>, d: nat)
    requires forall i :: 0 <= i < |es| ==> Idle(es[i], d)
    ensures Count(es, d) == NONE
    decreases |es|
  {
    PlusLaws(NONE, NONE, NONE);
    if es != [] {
      CountIdle(es[..|es|-1], d);
    }
  }

  function Since(a: State, b: State, d: nat): Tally
    requires a.log <= b.log
  {
    Count(b.log[|a.log|..], d)
  }

  lemma SinceSame(a: State, b: State, d: nat)
    requires a.log == b.log
    ensures Since(a, b, d) == NONE
  {
  }

  lemma SinceLogged(a: State, b: State, events: seq<Event>, d: nat)
    requires a.log <= b.log
    ensures Since(a, Log(b, events), d) == Plus(Since(a, b, d), Count(events, d))
  {
    assert (b.log + events)[|a.log|..] == b.log[|a.log|..] + events;
    CountConcat(b.log[|a.log|..], events, d);
  }

  lemma SinceChain(a: State, b: State, c: State, d: nat)
    requires a.log <= b.log <= c.log
    ensures Since(a, c, d) == Plus(Since(a, b, d), Since(b, c, d))
  {
    assert c.log[|a.log|..] == b.log[|a.log|..] + c.log[|b.log|..];
    CountConcat(b.log[|a.log|..], c.log[|b.log|..], d);
  }

  function In(x: nat, s: set<nat>): nat { if x in s then 1 else 0 }

  /**
   The two accounts.  Every receipt with a compensator that was there or was added is still there or was dropped with
   a scope stack.  When no scope stack was dropped, a node that succeeded was not settled before and is settled after.
   */
  ghost predicate Accounts(t: Tally, a: seq<Entry>, before: set<nat>, b: seq<Entry>, after: set<nat>) {
    && Undos(b) + t.forgotten == Undos(a) + t.undoable
    && (t.kept ==> forall x :: t.succeeded[x] + In(x, before) <= In(x, after))
  }

  lemma AccountsChain(t: Tally, a: seq<Entry>, sa: set<nat>, b: seq<Entry>, sb: set<nat>,
                      t': Tally, c: seq<Entry>, sc: set<nat>)
    requires Accounts(t, a, sa, b, sb) && Accounts(t', b, sb, c, sc)
    ensures Accounts(Plus(t, t'), a, sa, c, sc)
  {
    hide Undos;
    if t.kept && t'.kept {
      forall x ensures (t.succeeded + t'.succeeded)[x] + In(x, sa) <= In(x, sc) {
        assert t.succeeded[x] + In(x, sa) <= In(x, sb);
        assert t'.succeeded[x] + In(x, sb) <= In(x, sc);
      }
    }
    Telescopes(Undos(a), Undos(b), Undos(c), t.forgotten, t.undoable, t'.forgotten, t'.undoable);
  }

  lemma Telescopes(a: multiset<nat>, b: multiset<nat>, c: multiset<nat>,
                   f: multiset<nat>, u: multiset<nat>, f': multiset<nat>, u': multiset<nat>)
    requires b + f == a + u && c + f' == b + u'
    ensures c + (f + f') == a + (u + u')
  {
    assert c + (f + f') == (c + f') + f;
    assert (b + u') + f == (b + f) + u';
    assert (a + u) + u' == a + (u + u');
  }

  /** What one dispatch of a unit does to the stack it runs on. */
  ghost predicate Ledger(d: nat, u: Unit, st: State, r: Result) {
    && st.log <= r.st.log
    && Frame(u.id, st.entries, r.st.entries)
    && Tidy(r.st.entries, u)
    && Accounts(Since(st, r.st, d), st.entries, Settled(st.entries, u), r.st.entries, Settled(r.st.entries, u))
  }

  lemma LedgerChain(d: nat, u: Unit, a: State, b: Result, c: Result)
    requires Ledger(d, u, a, b) && Ledger(d, u, b.st, c)
    ensures Ledger(d, u, a, c)
  {
    hide Accounts, Tidy, Settled;
    SinceChain(a, b.st, c.st, d);
    AccountsChain(Since(a, b.st, d), a.entries, Settled(a.entries, u), b.st.entries, Settled(b.st.entries, u),
                  Since(b.st, c.st, d), c.st.entries, Settled(c.st.entries, u));
  }

  /** Steps that leave the stack alone and log nothing that counts. */
  lemma LedgerIdle(d: nat, u: Unit, st: State, t: State, out: Outcome)
    requires st.log <= t.log && t.entries == st.entries && Tidy(st.entries, u)
    requires Since(st, t, d) == NONE
    ensures Ledger(d, u, st, Result(out, t))
  {
    hide Undos, Settled, Tidy;
  }

  lemma LedgerStamped(d: nat, u: Unit, st: State, t: State, events: seq<Event>, out: Outcome)
    requires t.log == st.log + events && t.entries == st.entries && Tidy(st.entries, u)
    requires forall i :: 0 <= i < |events| ==> Idle(events[i], d)
    ensures Ledger(d, u, st, Result(out, t))
  {
    hide Ledger, Tidy;
    CountIdle(events, d);
    assert t.log[|st.log|..] == events;
    LedgerIdle(d, u, st, t, out);
  }

  // ----- Every dispatch -----

  lemma {:induction false} DispatchedLedger(w: World, d: nat, u: Unit, st: State)
    requires Distinct(u) && Tidy(st.entries, u)
    ensures Ledger(d, u, st, Dispatched(w, d, u, st))
    decreases u, 2 + Left(w, u, 0), 0
  {
    AttemptsLedger(w, d, u, st, 0, Nothing);
  }

  lemma {:induction false} AttemptsLedger(w: World, d: nat, u: Unit, st: State, attempt: nat, last: Err)
    requires Distinct(u) && Tidy(st.entries, u)
    ensures Ledger(d, u, st, Attempts(w, d, u, st, attempt, last))
    decreases u, 1 + Left(w, u, attempt), 1
  {
    hide Ledger, Tidy, Distinct, Execute, Retry, Resolve, ApplyPending, IsPaused, IsHard;
    if attempt >= Tries(w, u) {
      ResolveLedger(w, d, u, st, ActionFailed, last);
    } else if attempt > 0 && w.cut(st.tick) {
      LedgerStamped(d, u, st, Log(st.(tick := st.tick + 1), [Cleared(d, u.id)]), [Cleared(d, u.id)], Fail(Cancelled));
    } else {
      var began := Log(st.(tick := st.tick + 1), [Began(d, u.id)]);
      LedgerStamped(d, u, st, began, [Began(d, u.id)], Ok(Nil));
      ExecuteLedger(w, d, u, began);
      var r := Execute(w, d, u, began);
      LedgerChain(d, u, st, Result(Ok(Nil), began), r);
      LedgerTidy(d, u, st, r);
      match r.out
      case Ok(value) =>
        PendingLedger(d, u, r.st, value);
        LedgerChain(d, u, st, r, ApplyPending(d, r.st, value));
      case Panic =>
      case Fail(err) =>
        var asked := Result(r.out, r.st.(tick := r.st.tick + 1));
        LedgerStamped(d, u, r.st, asked.st, [], r.out);
        LedgerChain(d, u, st, r, asked);
        if !IsPaused(err) && !w.cancelled(r.st.tick) && !IsHard(err) {
          RetryLedger(w, d, u, asked.st, attempt, err);
          LedgerChain(d, u, st, asked, Retry(w, d, u, asked.st, attempt, err));
        }
    }
  }

  lemma LedgerTidy(d: nat, u: Unit, st: State, r: Result)
    requires Ledger(d, u, st, r)
    ensures Tidy(r.st.entries, u) && st.log <= r.st.log
  {
    hide Tidy, Accounts;
  }

  lemma PendingLedger(d: nat, u: Unit, st: State, value: Value)
    requires Tidy(st.entries, u)
    ensures Ledger(d, u, st, ApplyPending(d, st, value))
  {
    hide Ledger, Tidy;
    var r := ApplyPending(d, st, value);
    match st.pending
    case Stop => LedgerStamped(d, u, st, r.st, [Stamped(d, st.reason), Halted(d, HardHalt)], r.out);
    case Pause => LedgerStamped(d, u, st, r.st, [Halted(d, PauseHalt)], r.out);
    case Continue => LedgerStamped(d, u, st, r.st, [], r.out);
  }

  lemma {:induction false} RetryLedger(w: World, d: nat, u: Unit, st: State, attempt: nat, err: Err)
    requires attempt < Tries(w, u) && Distinct(u) && Tidy(st.entries, u)
    ensures Ledger(d, u, st, Retry(w, d, u, st, attempt, err))
    decreases u, 1 + Left(w, u, attempt), 0
  {
    hide Ledger, Tidy, Distinct, Handle, Attempts, Resolve;
    if attempt + 1 < Tries(w, u) && u.onRetry.Some? {
      HandleLedger(w, d, u, false, u.onRetry.value, st);
      var g := Handle(w, d, u.id, false, u.onRetry.value, st);
      match g.out
      case Fail(e) =>
        var t := Log(g.st, [Stamped(d, HandlerFailed)]);
        LedgerStamped(d, u, g.st, t, [Stamped(d, HandlerFailed)], Fail(HandlerError(e)));
        LedgerChain(d, u, st, g, Result(Fail(HandlerError(e)), t));
      case Ok(verdict) =>
        if IsTruthy(verdict) {
          AttemptsLedger(w, d, u, g.st, attempt + 1, err);
        } else {
          ResolveLedger(w, d, u, g.st, RetryVetoed, err);
        }
        LedgerChain(d, u, st, g, Retry(w, d, u, st, attempt, err));
    } else {
      AttemptsLedger(w, d, u, st, attempt + 1, err);
    }
  }

  lemma StandsLedger(d: nat, u: Unit, st: State, base: Reason, cause: Err)
    requires Tidy(st.entries, u)
    ensures Ledger(d, u, st, Stands(d, st, base, cause))
  {
    hide Ledger, Tidy;
    var r := Stands(d, st, base, cause);
    LedgerStamped(d, u, st, r.st, if As(cause).Some? then [] else [Stamped(d, base)], r.out);
  }

  lemma {:induction false} ResolveLedger(w: World, d: nat, u: Unit, st: State, base: Reason, cause: Err)
    requires Distinct(u) && Tidy(st.entries, u)
    ensures Ledger(d, u, st, Resolve(w, d, u, st, base, cause))
    decreases u, 0, 2
  {
    hide Ledger, Tidy, Distinct, Handle, Stands;
    StandsLedger(d, u, st, base, cause);
    if u.onError.Some? {
      HandleLedger(w, d, u, true, u.onError.value, st);
      var h := Handle(w, d, u.id, true, u.onError.value, st);
      match h.out
      case Fail(e) =>
        var t := Log(h.st, [Stamped(d, HandlerFailed)]);
        LedgerStamped(d, u, h.st, t, [Stamped(d, HandlerFailed)], Fail(HandlerError(e)));
        LedgerChain(d, u, st, h, Result(Fail(HandlerError(e)), t));
      case Ok(verdict) =>
        var absorbed := Result(h.out, Log(h.st, [Cleared(d, u.id)]));
        LedgerTidy(d, u, st, h);
        LedgerStamped(d, u, h.st, absorbed.st, [Cleared(d, u.id)], h.out);
        LedgerChain(d, u, st, h, absorbed);
        StandsLedger(d, u, h.st, base, cause);
        LedgerChain(d, u, st, h, Stands(d, h.st, base, cause));
    }
  }

  /** A handler runs on a stack of its own: in its caller's accounts it does not appear. */
  lemma HandleLedger(w: World, d: nat, u: Unit, rescue: bool, handler: Unit, st: State)
    requires Tidy(st.entries, u)
    ensures Ledger(d, u, st, Handle(w, d, u.id, rescue, handler, st))
  {
    hide Ledger, Tidy, Execute;
    var asked := Log(st.(entries := []), [Asked(d, u.id, rescue)]);
    var h := Handle(w, d, u.id, rescue, handler, st);
    var r, after := HandleIs(w, d, u.id, rescue, handler, st);
    var es := h.st.log[|st.log|..];
    assert es == [Asked(d, u.id, rescue)] + r.st.log[|asked.log|..] + after;
    assert h.st.log == st.log + es;
    forall i | 0 <= i < |es| ensures Idle(es[i], d) {
      if i == 0 {
        assert es[0] == Asked(d, u.id, rescue);
      } else if |st.log| + i < |r.st.log| {
        assert |asked.log| <= |st.log| + i < |r.st.log|;
        assert es[i] == r.st.log[|st.log| + i];
        ExecutorDepth.ExecuteDeep(w, d + 1, handler, asked, |st.log| + i);
      }
    }
    LedgerStamped(d, u, st, h.st, es, h.out);
  }

  import ExecutorDepth

  lemma {:induction false} ExecuteLedger(w: World, d: nat, u: Unit, st: State)
    requires Distinct(u) && Tidy(st.entries, u)
    ensures Ledger(d, u, st, Execute(w, d, u, st))
    decreases u, 0, 1
  {
    hide Ledger, Tidy, Distinct, Node, Subgraph;
    var t, s := st.tick, st.(tick := st.tick + 1);
    LedgerStamped(d, u, st, s, [], Ok(Nil));
    if w.cancelled(t) {
      PushBareLedger(d, u, s, [], Fail(Wrap(Cancelled)));
      assert s.log + [] == s.log;
      LedgerChain(d, u, st, Result(Ok(Nil), s), Result(Fail(Wrap(Cancelled)), Push(s, Bare)));
    } else {
      var c := ControlPoint(w, d, t, s);
      if c.out.Fail? {
        LedgerStamped(d, u, st, c.st, c.st.log[|st.log|..], c.out);
      } else {
        if u.body.Leaf? {
          NodeLedger(w, d, t, u, s);
        } else {
          SubgraphLedger(w, d, t, u, s);
        }
        LedgerChain(d, u, st, Result(Ok(Nil), s), Execute(w, d, u, st));
      }
    }
  }

  /** A bare audit receipt concerns no unit. */
  lemma PushBareLedger(d: nat, u: Unit, s: State, events: seq<Event>, out: Outcome)
    requires Tidy(s.entries, u) && forall i :: 0 <= i < |events| ==> Idle(events[i], d)
    ensures Ledger(d, u, s, Result(out, Log(Push(s, Bare), events)))
  {
    var t := Log(Push(s, Bare), events);
    CountIdle(events, d);
    assert t.log[|s.log|..] == events;
    forall x ensures About(s.entries, x) == About(t.entries, x) {
      AboutPush(s.entries, Bare, x);
      assert About(s.entries, x) + [] == About(s.entries, x);
    }
    SameAbout(s.entries, t.entries, u);
    UndosPush(s.entries, Bare);
    hide Undos, Tidy, Settled, Count;
  }

  lemma SameAbout(a: seq<Entry>, b: seq<Entry>, u: Unit)
    requires About(a, u.id) == About(b, u.id)
    ensures Tidy(a, u) == Tidy(b, u) && Settled(a, u) == Settled(b, u)
  {
  }

  lemma FrameworkLedger(w: World, d: nat, u: Unit, s: State)
    requires Tidy(s.entries, u)
    ensures Ledger(d, u, s, FrameworkFailure(w, d, s, u.id))
  {
    hide Ledger, Tidy;
    var r := FrameworkFailure(w, d, s, u.id);
    PushBareLedger(d, u, s, [Crashed(d)], Panic);
    PushBareLedger(d, u, s, [Stamped(d, FrameworkFailed), Halted(d, HardHalt)], r.out);
    LedgerSameStack(d, u, s, Result(r.out, Log(Push(s, Bare), [Stamped(d, FrameworkFailed), Halted(d, HardHalt)])),
                    r.st);
  }

  /** Only the stack and the history matter. */
  lemma LedgerSameStack(d: nat, u: Unit, s: State, r: Result, t: State)
    requires Ledger(d, u, s, r)
    ensures t.entries == r.st.entries && t.log == r.st.log ==> Ledger(d, u, s, Result(r.out, t))
  {
    hide Accounts, Tidy;
  }

  lemma PushReceiptAbout(s: seq<Entry>, u: Unit, ok: bool, value: Value, undo: bool)
    requires u.body.Leaf?
    ensures var t := s + [Receipt(u.id, ok, value, undo)];
            Frame(u.id, s, t) && Settled(t, u) == (if ok then {u.id} else {})
  {
    var e := Receipt(u.id, ok, value, undo);
    forall x ensures About(s + [e], x) == About(s, x) + (if x == u.id then [e] else []) {
      AboutPush(s, e, x);
    }
    assert (About(s, u.id) + [e])[|About(s, u.id)|] == e;
  }

  lemma PushReceiptLedger(d: nat, u: Unit, s: State, ok: bool, value: Value, undo: bool, events: seq<Event>,
                          out: Outcome)
    requires u.body.Leaf? && Settled(s.entries, u) == {}
    requires Count(events, d) == CountOne(Acted(d, u.id, ok, undo), d)
    ensures Ledger(d, u, s, Result(out, Log(Push(s, Receipt(u.id, ok, value, undo)), events)))
  {
    hide Undos, Count, Settled, Frame;
    var e := Receipt(u.id, ok, value, undo);
    var t := Log(Push(s, e), events);
    assert t.log[|s.log|..] == events;
    PushReceiptAbout(s.entries, u, ok, value, undo);
    UndosPush(s.entries, e);
    assert Undos(t.entries) == Undos(s.entries) + (if undo then multiset{u.id} else multiset{});
    assert Since(s, t, d) == CountOne(Acted(d, u.id, ok, undo), d);
  }

  lemma RaisedIdle(d: nat, e: Err)
    ensures Count(Raised(d, e), d) == NONE
  {
    hide As, IsPaused, IsHard, IsStopped, Count;
    CountIdle(Raised(d, e), d);
  }

  lemma {:induction false} NodeLedger(w: World, d: nat, t: nat, u: Unit, s: State)
    requires u.body.Leaf? && Tidy(s.entries, u)
    ensures Ledger(d, u, s, Node(w, d, t, u, s))
  {
    hide Ledger, Raised, FrameworkFailure, Count, Tidy;
    FindsAbout(s.entries, u.id);
    FrameworkLedger(w, d, u, s);
    LedgerStamped(d, u, s, s, [], Node(w, d, t, u, s).out);
    LedgerStamped(d, u, s, Log(s, [Crashed(d)]), [Crashed(d)], Panic);
    var act := w.act(u.id, t);
    SubmitGrew(w, s, u.id, act.flips);
    var partial := Submit(w, s, u.id, act.flips).st;
    LedgerSameStack(d, u, s, Result(Panic, Log(s, [Crashed(d)])), Log(partial, [Crashed(d)]));
    if Settled(s.entries, u) == {} {
      match act.verdict
      case Returned(value) =>
        CountSingle(Acted(d, u.id, true, act.undo), d);
        PushReceiptLedger(d, u, s, true, value, act.undo, [Acted(d, u.id, true, act.undo)], Ok(value));
        LedgerSameStack(d, u, s,
          Result(Ok(value), Log(Push(s, Receipt(u.id, true, value, act.undo)), [Acted(d, u.id, true, act.undo)])),
          Node(w, d, t, u, s).st);
      case Refused(err) =>
        var events := [Acted(d, u.id, false, act.undo)] + Raised(d, err);
        CountSingle(Acted(d, u.id, false, act.undo), d);
        RaisedIdle(d, err);
        CountConcat([Acted(d, u.id, false, act.undo)], Raised(d, err), d);
        PushReceiptLedger(d, u, s, false, Nil, act.undo, events, Fail(Wrap(err)));
        LedgerSameStack(d, u, s,
          Result(Fail(Wrap(err)), Log(Push(s, Receipt(u.id, false, Nil, act.undo)), events)),
          Node(w, d, t, u, s).st);
    }
  }

  // ----- Scopes -----

  /** A superseded scope: its receipts leave the stack, and it was the only scope entry of its unit. */
  lemma Superseded(entries: seq<Entry>, u: Unit, stack: Stack)
    requires u.body.Scope? && Tidy(entries, u) && FindNested(entries, u.id) == Some(stack)
    ensures Undos(entries) == Undos(Supersede(entries, u.id)) + Undos(stack.entries)
    ensures Frame(u.id, entries, Supersede(entries, u.id))
    ensures FindNested(About(Supersede(entries, u.id), u.id), u.id).None?
    ensures stack.failed ==> AllTidy(stack.entries, u.body.children)
    ensures Settled(entries, u) == if stack.failed then AllSettled(stack.entries, u.body.children)
                                   else AllIds(u.body.children)
  {
    var about := About(entries, u.id);
    FindsAbout(entries, u.id);
    NestedOnTop(about, u.id);
    SupersedeRemoves(entries, u.id);
    forall x ensures x != u.id ==> About(entries, x) == About(Supersede(entries, u.id), x) {
      AboutSupersede(entries, u.id, x);
    }
    AboutSupersede(entries, u.id, u.id);
    NoNestedBelow(about[..|about|-1], u.id);
  }

  lemma {:induction false} NestedOnTop(about: seq<Entry>, unit: nat)
    requires forall i :: 0 <= i < |about| - 1 ==> !about[i].Nested?
    requires FindNested(about, unit).Some?
    ensures about != [] && about[|about|-1] == Nested(FindNested(about, unit).value)
  {
    if !(about[|about|-1].Nested? && about[|about|-1].stack.unit == unit) {
      NoNestedBelow(about[..|about|-1], unit);
    }
  }

  lemma {:induction false} NoNestedBelow(about: seq<Entry>, unit: nat)
    requires forall i :: 0 <= i < |about| ==> !about[i].Nested?
    ensures FindNested(about, unit).None?
    decreases |about|
  {
    if about != [] {
      NoNestedBelow(about[..|about|-1], unit);
    }
  }

  /** What walking a list of units does to the scope stack they share. */
  ghost predicate LedgerAll(d: nat, units: seq<Unit>, st: State, r: Result) {
    && st.log <= r.st.log
    && FrameAll(AllIds(units), st.entries, r.st.entries)
    && AllTidy(r.st.entries, units)
    && Accounts(Since(st, r.st, d), st.entries, AllSettled(st.entries, units), r.st.entries,
                AllSettled(r.st.entries, units))
  }

  lemma {:induction false} WalkLedger(w: World, d: nat, units: seq<Unit>, last: Value, st: State)
    requires AllDistinct(units) && AllTidy(st.entries, units)
    ensures LedgerAll(d, units, st, Walk(w, d, units, last, st))
    decreases units, 0, 0
  {
    hide Ledger, LedgerAll, Dispatched, Tidy, Distinct, Accounts;
    if units == [] {
      WalkNothing(d, st, last);
    } else {
      var u, rest := units[0], units[1..];
      DispatchedLedger(w, d, u, st);
      var r := Dispatched(w, d, u, st);
      AfterFirst(d, units, st, r);
      if r.out.Ok? && !(u.body.Leaf? && u.body.completes) {
        WalkLedger(w, d, rest, r.out.value, r.st);
        AfterRest(d, units, st, r, Walk(w, d, rest, r.out.value, r.st));
      } else {
        var t := Walk(w, d, units, last, st);
        LedgerAllSame(d, units, st, r, t);
      }
    }
  }

  lemma WalkNothing(d: nat, st: State, last: Value)
    ensures LedgerAll(d, [], st, Result(Ok(last), st))
  {
    hide Undos;
    SinceSame(st, st, d);
  }

  lemma LedgerAllSame(d: nat, units: seq<Unit>, st: State, r: Result, t: Result)
    requires LedgerAll(d, units, st, r) && t.st == r.st
    ensures LedgerAll(d, units, st, t)
  {
    hide Accounts;
  }

  /** The first unit's dispatch leaves the others' entries alone. */
  lemma AfterFirst(d: nat, units: seq<Unit>, st: State, r: Result)
    requires units != [] && AllDistinct(units) && AllTidy(st.entries, units) && Ledger(d, units[0], st, r)
    ensures LedgerAll(d, units, st, r) && AllTidy(r.st.entries, units[1..])
    ensures AllSettled(r.st.entries, units[1..]) == AllSettled(st.entries, units[1..])
  {
    hide Undos;
    var u, rest := units[0], units[1..];
    UntouchedUnits(rest, {u.id}, st.entries, r.st.entries);
    SettledWithin(st.entries, u);
    SettledWithin(r.st.entries, u);
    AllSettledWithin(st.entries, rest);
    var t := Since(st, r.st, d);
    Disjoint(t, st.entries, Settled(st.entries, u), r.st.entries, Settled(r.st.entries, u),
             AllSettled(st.entries, rest));
  }

  /** Adding nodes that are settled before and after, and apart from the rest. */
  lemma Disjoint(t: Tally, a: seq<Entry>, sa: set<nat>, b: seq<Entry>, sb: set<nat>, more: set<nat>)
    requires Accounts(t, a, sa, b, sb) && more !! sa && more !! sb
    ensures Accounts(t, a, sa + more, b, sb + more)
    ensures Accounts(t, a, more + sa, b, more + sb)
  {
    hide Undos;
    if t.kept {
      forall x ensures t.succeeded[x] + In(x, sa + more) <= In(x, sb + more) {
        assert t.succeeded[x] + In(x, sa) <= In(x, sb);
      }
    }
    assert more + sa == sa + more && more + sb == sb + more;
  }

  lemma AfterRest(d: nat, units: seq<Unit>, st: State, r: Result, t: Result)
    requires units != [] && AllDistinct(units)
    requires LedgerAll(d, units, st, r) && LedgerAll(d, units[1..], r.st, t)
    ensures LedgerAll(d, units, st, t)
  {
    hide Undos;
    var u, rest := units[0], units[1..];
    var a, b := r.st.entries, t.st.entries;
    assert About(a, u.id) == About(b, u.id);
    SameAbout(a, b, u);
    SettledWithin(a, u);
    AllSettledWithin(a, rest);
    AllSettledWithin(b, rest);
    Disjoint(Since(r.st, t.st, d), a, AllSettled(a, rest), b, AllSettled(b, rest), Settled(a, u));
    SinceChain(st, r.st, t.st, d);
    AccountsChain(Since(st, r.st, d), st.entries, AllSettled(st.entries, units), a, AllSettled(a, units),
                  Since(r.st, t.st, d), b, AllSettled(b, units));
    assert forall x :: x !in AllIds(units) ==> x !in AllIds(rest);
  }

  lemma {:induction false} SubgraphLedger(w: World, d: nat, t: nat, u: Unit, s: State)
    requires u.body.Scope? && Distinct(u) && Tidy(s.entries, u)
    ensures Ledger(d, u, s, Subgraph(w, d, t, u, s))
    decreases u, 0, 0
  {
    hide Ledger, LedgerAll, Tidy, AllTidy, FrameworkFailure, Walk, Leave, Settled, Undos, Accounts;
    var prior := FindNested(s.entries, u.id);
    if prior.Some? && !prior.value.failed {
      LedgerStamped(d, u, s, s, [], Subgraph(w, d, t, u, s).out);
    } else {
      var adopted := if prior.Some? then prior.value.entries else [];
      var s1 := if prior.Some? then s.(entries := Supersede(s.entries, u.id)) else s;
      Entering(u, s.entries, prior, adopted, s1.entries);
      if !w.bound(u.id, t) {
        FrameworkDrops(w, d, u, s, s1, prior);
      } else if !w.claims(t) {
        ClaimsDrop(d, u, s, s1, prior);
      } else {
        var child := Child(s1, adopted);
        WalkLedger(w, d, u.body.children, Nil, child);
        var walked := Walk(w, d, u.body.children, Nil, child);
        LeaveLedger(w, d, u, s, s1, adopted, child, walked);
      }
    }
  }

  /** How a scope is entered: `adopted` is taken off the stack, and the unit has no scope entry left on it. */
  ghost predicate Entered(u: Unit, s: seq<Entry>, adopted: seq<Entry>, s1: seq<Entry>)
    requires u.body.Scope?
  {
    && Undos(s) == Undos(s1) + Undos(adopted)
    && Frame(u.id, s, s1)
    && NoScope(s1, u.id)
    && AllTidy(adopted, u.body.children)
    && Settled(s, u) == AllSettled(adopted, u.body.children)
  }

  lemma {:induction false} EmptyScope(units: seq<Unit>)
    ensures AllTidy([], units) && AllSettled([], units) == {}
    decreases units
  {
    if units != [] {
      EmptyScope(units[1..]);
    }
  }

  lemma Entering(u: Unit, s: seq<Entry>, prior: Option<Stack>, adopted: seq<Entry>, s1: seq<Entry>)
    requires u.body.Scope? && Tidy(s, u) && prior == FindNested(s, u.id) && (prior.Some? ==> prior.value.failed)
    requires adopted == if prior.Some? then prior.value.entries else []
    requires s1 == if prior.Some? then Supersede(s, u.id) else s
    ensures Entered(u, s, adopted, s1)
  {
    FindsAbout(s, u.id);
    EmptyScope(u.body.children);
    AboutNames(s, u.id);
    AboutNames(s1, u.id);
    if prior.Some? {
      Superseded(s, u, prior.value);
    }
    OnlyReceipts(About(s1, u.id), u.id);
  }

  lemma {:induction false} OnlyReceipts(about: seq<Entry>, unit: nat)
    requires FindNested(about, unit).None? && forall i :: 0 <= i < |about| ==> Names(about[i], unit)
    ensures forall i :: 0 <= i < |about| ==> !about[i].Nested?
    decreases |about|
  {
    if about != [] {
      OnlyReceipts(about[..|about|-1], unit);
    }
  }

  predicate NoScope(entries: seq<Entry>, unit: nat) {
    forall i :: 0 <= i < |About(entries, unit)| ==> !About(entries, unit)[i].Nested?
  }

  lemma NoScopeSettles(entries: seq<Entry>, u: Unit)
    requires u.body.Scope? && NoScope(entries, u.id)
    ensures Tidy(entries, u) && Settled(entries, u) == {}
  {
    NoNestedBelow(About(entries, u.id), u.id);
  }

  /** After a scope entry was taken off, nothing but a receipt is put back. */
  lemma Gone(u: Unit, s1: seq<Entry>, e: Entry)
    requires NoScope(s1, u.id) && !e.Nested? && (e.Receipt? ==> !e.undo)
    ensures FindNested(s1 + [e], u.id).None? && FindNested(s1, u.id).None?
    ensures Undos(s1 + [e]) == Undos(s1)
  {
    FindsAbout(s1, u.id);
    NoNestedBelow(About(s1, u.id), u.id);
    assert (s1 + [e])[..|s1|] == s1;
    UndosPush(s1, e);
    assert Undos(s1) + multiset{} == Undos(s1);
  }

  lemma PushFrames(unit: nat, s: seq<Entry>, s1: seq<Entry>, e: Entry)
    requires Frame(unit, s, s1) && (e == Bare || Names(e, unit))
    ensures Frame(unit, s, s1 + [e])
    ensures About(s1 + [e], unit) == About(s1, unit) + (if Names(e, unit) then [e] else [])
  {
    hide About;
    forall x ensures About(s1 + [e], x) == About(s1, x) + (if Names(e, x) then [e] else []) {
      AboutPush(s1, e, x);
    }
    assert forall x :: About(s1, x) + [] == About(s1, x);
  }

  /** Entering a scope and then not nesting its stack: what was adopted is dropped, and logged as dropped. */
  lemma DropLedger(d: nat, u: Unit, s: State, s1: State, prior: Option<Stack>, e: Entry, events: seq<Event>,
                   out: Outcome)
    requires u.body.Scope? && s1.log == s.log
    requires Entered(u, s.entries, if prior.Some? then prior.value.entries else [], s1.entries)
    requires e == Bare || e == Receipt(u.id, false, Nil, false)
    requires forall i :: 0 <= i < |events| ==> Idle(events[i], d)
    ensures Ledger(d, u, s, Result(out, Log(Push(s1, e), Dropped(d, prior) + events)))
  {
    hide Undos, Count, AllTidy, AllSettled, Settled, Tidy, Frame;
    var t := Log(Push(s1, e), Dropped(d, prior) + events);
    assert t.log[|s.log|..] == Dropped(d, prior) + events;
    CountDropped(d, prior, events);
    UndosPush(s1.entries, e);
    PushFrames(u.id, s.entries, s1.entries, e);
    assert NoScope(t.entries, u.id);
    NoScopeSettles(t.entries, u);
    EmptyScope(u.body.children);
    EmptyUndos();
    assert Undos(t.entries) == Undos(s1.entries) + multiset{};
  }

  lemma EmptyUndos()
    ensures Undos([]) == multiset{}
  {
  }

  lemma CountDropped(d: nat, prior: Option<Stack>, events: seq<Event>)
    requires forall i :: 0 <= i < |events| ==> Idle(events[i], d)
    ensures Count(Dropped(d, prior) + events, d) ==
      if prior.Some? then Tally(multiset{}, Undos(prior.value.entries), multiset{}, false) else NONE
  {
    CountConcat(Dropped(d, prior), events, d);
    CountIdle(events, d);
    if prior.Some? {
      CountSingle(Lost(d, Undos(prior.value.entries)), d);
      PlusLaws(Count(Dropped(d, prior), d), NONE, NONE);
    } else {
      PlusLaws(NONE, NONE, NONE);
    }
  }

  lemma FrameworkDrops(w: World, d: nat, u: Unit, s: State, s1: State, prior: Option<Stack>)
    requires u.body.Scope? && s1.log == s.log
    requires Entered(u, s.entries, if prior.Some? then prior.value.entries else [], s1.entries)
    ensures Ledger(d, u, s, FrameworkFailure(w, d, Log(s1, Dropped(d, prior)), u.id))
  {
    hide Ledger, Entered;
    var r := FrameworkFailure(w, d, Log(s1, Dropped(d, prior)), u.id);
    var crash, fail := [Crashed(d)], [Stamped(d, FrameworkFailed), Halted(d, HardHalt)];
    DropLedger(d, u, s, s1, prior, Bare, crash, r.out);
    DropLedger(d, u, s, s1, prior, Bare, fail, r.out);
    assert s1.log + Dropped(d, prior) + crash == s1.log + (Dropped(d, prior) + crash);
    assert s1.log + Dropped(d, prior) + fail == s1.log + (Dropped(d, prior) + fail);
    LedgerSameStack(d, u, s, Result(r.out, Log(Push(s1, Bare), Dropped(d, prior) + crash)), r.st);
    LedgerSameStack(d, u, s, Result(r.out, Log(Push(s1, Bare), Dropped(d, prior) + fail)), r.st);
  }

  lemma ClaimsDrop(d: nat, u: Unit, s: State, s1: State, prior: Option<Stack>)
    requires u.body.Scope? && s1.log == s.log
    requires Entered(u, s.entries, if prior.Some? then prior.value.entries else [], s1.entries)
    ensures Ledger(d, u, s, Result(Fail(Wrap(Dispatch(PreflightFailed, Plain, false))),
              Log(Push(s1, Receipt(u.id, false, Nil, false)), Dropped(d, prior) + [Stamped(d, PreflightFailed)])))
  {
    hide Ledger, Entered;
    DropLedger(d, u, s, s1, prior, Receipt(u.id, false, Nil, false), [Stamped(d, PreflightFailed)],
               Fail(Wrap(Dispatch(PreflightFailed, Plain, false))));
  }

  lemma LeaveLedger(w: World, d: nat, u: Unit, s: State, s1: State, adopted: seq<Entry>, child: State, walked: Result)
    requires u.body.Scope? && Distinct(u) && s1.log == s.log && Entered(u, s.entries, adopted, s1.entries)
    requires child.entries == adopted && child.log == s.log && LedgerAll(d, u.body.children, child, walked)
    ensures Ledger(d, u, s, Leave(w, d, u.id, s1, walked))
  {
    hide Entered, LedgerAll, Ledger, Undos, Distinct;
    var c, r := walked.st, Leave(w, d, u.id, s1, walked);
    LedgerAllSame(d, u.body.children, child, walked, Result(r.out, c));
    if r.out.Panic? {
      CountLost(d, Undos(c.entries));
      LeavePanics(d, u, s, s1, adopted, child, c,
        if walked.out.Panic? then [Lost(d, Undos(c.entries))] else [Lost(d, Undos(c.entries)), Crashed(d)], r);
    } else {
      var stack := Stack(u.id, if r.out.Ok? then r.out.value else Nil, r.out.Fail?, c.entries);
      LeaveNests(d, u, s, s1, adopted, child, c, stack, r);
    }
  }

  lemma CountLost(d: nat, m: multiset<nat>)
    ensures Count([Lost(d, m)], d) == Tally(multiset{}, m, multiset{}, false)
    ensures Count([Lost(d, m), Crashed(d)], d) == Tally(multiset{}, m, multiset{}, false)
  {
    CountSingle(Lost(d, m), d);
    CountSingle(Crashed(d), d);
    CountConcat([Lost(d, m)], [Crashed(d)], d);
    assert [Lost(d, m)] + [Crashed(d)] == [Lost(d, m), Crashed(d)];
  }

  lemma LeavePanics(d: nat, u: Unit, s: State, s1: State, adopted: seq<Entry>, child: State, c: State,
                    events: seq<Event>, r: Result)
    requires u.body.Scope? && s1.log == s.log && Entered(u, s.entries, adopted, s1.entries)
    requires child.entries == adopted && child.log == s.log
    requires LedgerAll(d, u.body.children, child, Result(r.out, c))
    requires r.st.entries == s1.entries && r.st.log == c.log + events
    requires Count(events, d) == Tally(multiset{}, Undos(c.entries), multiset{}, false)
    ensures Ledger(d, u, s, r)
  {
    hide Count, Undos, AllSettled, AllTidy, Settled, Tidy, Frame, FrameAll;
    var t := Since(child, c, d);
    SinceLogged(s, c, events, d);
    assert Since(s, r.st, d) == Plus(t, Count(events, d));
    NoScopeSettles(s1.entries, u);
    Telescopes2(Undos(s.entries), Undos(s1.entries), Undos(adopted), Undos(c.entries), t.forgotten, t.undoable);
    assert t.undoable + multiset{} == t.undoable;
  }

  lemma Telescopes2(a: multiset<nat>, rest: multiset<nat>, adopted: multiset<nat>, c: multiset<nat>,
                    f: multiset<nat>, u: multiset<nat>)
    requires a == rest + adopted && c + f == adopted + u
    ensures (rest + c) + f == a + u && rest + (f + c) == a + u
  {
    assert (rest + c) + f == rest + (c + f);
    assert rest + (adopted + u) == (rest + adopted) + u;
    assert f + c == c + f;
  }

  lemma LeaveNests(d: nat, u: Unit, s: State, s1: State, adopted: seq<Entry>, child: State, c: State,
                   stack: Stack, r: Result)
    requires u.body.Scope? && s1.log == s.log && Entered(u, s.entries, adopted, s1.entries)
    requires child.entries == adopted && child.log == s.log
    requires LedgerAll(d, u.body.children, child, Result(r.out, c))
    requires stack.unit == u.id && stack.entries == c.entries
    requires r.st.entries == s1.entries + [Nested(stack)] && r.st.log == c.log
    ensures Ledger(d, u, s, r)
  {
    hide Count, Undos, AllSettled, AllTidy, Settled, Tidy, Frame, FrameAll, Accounts;
    var t, e := Since(child, c, d), Nested(stack);
    assert Since(s, r.st, d) == t;
    PushFrames(u.id, s.entries, s1.entries, e);
    NestedOnTopOnly(u, s1.entries, stack);
    UndosPush(s1.entries, e);
    NestedUndos(stack);
    AccountsBalance(t, adopted, AllSettled(adopted, u.body.children), c.entries,
                    AllSettled(c.entries, u.body.children));
    Telescopes2(Undos(s.entries), Undos(s1.entries), Undos(adopted), Undos(c.entries), t.forgotten, t.undoable);
    NestedAccounts(t, s.entries, Settled(s.entries, u), adopted, c.entries, AllSettled(c.entries, u.body.children),
                   r.st.entries, Settled(r.st.entries, u));
  }

  lemma NestedUndos(stack: Stack)
    ensures multiset(UndoOf(Nested(stack))) == Undos(stack.entries)
  {
  }

  lemma AccountsBalance(t: Tally, a: seq<Entry>, before: set<nat>, b: seq<Entry>, after: set<nat>)
    requires Accounts(t, a, before, b, after)
    ensures Undos(b) + t.forgotten == Undos(a) + t.undoable
  {
    hide Undos;
  }

  lemma NestedOnTopOnly(u: Unit, s1: seq<Entry>, stack: Stack)
    requires u.body.Scope? && NoScope(s1, u.id) && stack.unit == u.id
    requires About(s1 + [Nested(stack)], u.id) == About(s1, u.id) + [Nested(stack)]
    requires AllTidy(stack.entries, u.body.children)
    ensures Tidy(s1 + [Nested(stack)], u)
    ensures AllSettled(stack.entries, u.body.children) <= Settled(s1 + [Nested(stack)], u)
  {
    var about := About(s1, u.id) + [Nested(stack)];
    assert about[|about|-1] == Nested(stack);
    AllSettledWithin(stack.entries, u.body.children);
  }

  lemma NestedAccounts(t: Tally, s: seq<Entry>, before: set<nat>, adopted: seq<Entry>, c: seq<Entry>, inner: set<nat>,
                       r: seq<Entry>, after: set<nat>)
    requires Accounts(t, adopted, before, c, inner) && inner <= after
    requires Undos(r) + t.forgotten == Undos(s) + t.undoable
    ensures Accounts(t, s, before, r, after)
  {
    hide Undos;
    if t.kept {
      forall x ensures t.succeeded[x] + In(x, before) <= In(x, after) {
        assert t.succeeded[x] + In(x, before) <= In(x, inner);
      }
    }
  }

  // ----- Main results -----

  /** The stack of a fresh run. */
  lemma FreshStack(u: Unit)
    ensures Tidy([], u) && Settled([], u) == {} && Undos([]) == multiset{}
  {
    if u.body.Scope? {
      EmptyScope(u.body.children);
    }
  }

  /**
   Conservation: every compensator an action of the tree left is still on the stack, unless it was dropped together
   with a scope's stack; with nothing dropped the stack holds exactly what was left.
   */
  lemma NothingIsForgotten(w: World, d: nat, u: Unit, st: State)
    requires Distinct(u) && Tidy(st.entries, u)
    ensures var r := Dispatched(w, d, u, st);
            var t := Count(r.st.log[|st.log|..], d);
            && Undos(r.st.entries) + t.forgotten == Undos(st.entries) + t.undoable
            && (Undos(r.st.entries) == Undos(st.entries) + t.undoable <==> t.forgotten == multiset{})
            && Tidy(r.st.entries, u)
  {
    hide Undos, Tidy;
    DispatchedLedger(w, d, u, st);
    var r := Dispatched(w, d, u, st);
    var t := Count(r.st.log[|st.log|..], d);
    if Undos(r.st.entries) == Undos(st.entries) + t.undoable {
      forall x ensures t.forgotten[x] == 0 {
        assert (Undos(r.st.entries) + t.forgotten)[x] == (Undos(st.entries) + t.undoable)[x];
      }
      assert t.forgotten == multiset{};
    }
  }

  /**
   Saga completeness: unwinding the stack of a fresh run calls each compensator that an action left exactly once,
   except those dropped with a scope's stack.
   */
  lemma UnwindCompensatesEverything(w: World, u: Unit, st: State)
    requires Distinct(u) && st.entries == []
    ensures var r := Dispatched(w, 0, u, st);
            var t := Count(r.st.log[|st.log|..], 0);
            multiset(Units(Unwind(w.undo, r.st.tick, r.st.entries).calls)) + t.forgotten == t.undoable
  {
    hide Undos, Tidy;
    FreshStack(u);
    NothingIsForgotten(w, 0, u, st);
    var r := Dispatched(w, 0, u, st);
    UnwindCallsEverything(w.undo, r.st.tick, r.st.entries);
    var t := Count(r.st.log[|st.log|..], 0);
    assert multiset{} + t.undoable == t.undoable;
    UndosIsOrder(r.st.entries);
  }

  lemma UndosIsOrder(entries: seq<Entry>)
    ensures Undos(entries) == multiset(UndoOrder(entries))
  {
  }

  /**
   As long as no scope's stack is dropped, no node succeeds twice, whatever is retried; a node settled on the stack the
   dispatch starts from does not succeed again.  `ExecutorOnce` tells when none is dropped.
   */
  lemma OnceWhileKept(w: World, d: nat, u: Unit, st: State, x: nat)
    requires Distinct(u) && Tidy(st.entries, u)
    requires Count(Dispatched(w, d, u, st).st.log[|st.log|..], d).kept
    ensures var r := Dispatched(w, d, u, st);
            var n := Count(r.st.log[|st.log|..], d).succeeded[x];
            && n <= 1 && (x in Settled(st.entries, u) ==> n == 0) && (n == 1 ==> x in Settled(r.st.entries, u))
            && (x in Settled(st.entries, u) ==> x in Settled(r.st.entries, u))
  {
    hide Undos, Tidy, Settled;
    DispatchedLedger(w, d, u, st);
    var r := Dispatched(w, d, u, st);
    assert Count(r.st.log[|st.log|..], d).succeeded[x] + In(x, Settled(st.entries, u))
        <= In(x, Settled(r.st.entries, u));
  }

  /** The same of a paused run and its resumption. */
  lemma ResumeWhileKept(w: World, w': World, u: Unit, st: State, resumed: State, x: nat)
    requires Distinct(u) && st.entries == [] && resumed.entries == Dispatched(w, 0, u, st).st.entries
    requires Count(Dispatched(w, 0, u, st).st.log[|st.log|..], 0).kept
    requires Count(Dispatched(w', 0, u, resumed).st.log[|resumed.log|..], 0).kept
    ensures var first := Count(Dispatched(w, 0, u, st).st.log[|st.log|..], 0);
            var second := Count(Dispatched(w', 0, u, resumed).st.log[|resumed.log|..], 0);
            && first.succeeded[x] + second.succeeded[x] <= 1
            && (first.forgotten == multiset{} && second.forgotten == multiset{} ==>
                  Undos(Dispatched(w', 0, u, resumed).st.entries) == first.undoable + second.undoable)
  {
    hide Undos, Tidy, Settled;
    FreshStack(u);
    NothingIsForgotten(w, 0, u, st);
    OnceWhileKept(w, 0, u, st, x);
    NothingIsForgotten(w', 0, u, resumed);
    OnceWhileKept(w', 0, u, resumed, x);
    var first := Count(Dispatched(w, 0, u, st).st.log[|st.log|..], 0);
    assert multiset{} + first.undoable == first.undoable;
  }
}
