/** The analysis of `ExecutorPlans` covers every run: how a dispatch ends, and where an assertion fails on the way. */
module ExecutorCrash {
  import opened Options
  import opened RunStatus
  import opened Failure
  import opened Recovery
  import opened Executor
  import opened ExecutorStack
  import opened ExecutorPlans
  import ExecutorHalts

  // ----- The boundary of a scope -----

  /** The walk's outcome is one after which the parent is told the child's condition. */
  predicate Tells(out: Outcome) {
    out.Ok? || (out.Fail? && IsPaused(out.err))
  }

  /**
   A scope's own execution crashes if and only if it is not replayed and its walk crashes, or its parent is told of
   trouble that is less than the parent's own, or, where its action does not resolve, the parent is past
   `execution_failed` already.
   */
  lemma ScopeCrashesExactly(w: World, d: nat, t: nat, u: Unit, s: State)
    requires u.body.Scope?
    ensures var prior := FindNested(s.entries, u.id);
            var s1 := if prior.Some? then s.(entries := Supersede(s.entries, u.id)) else s;
            var walked := Walk(w, d, u.body.children, Nil, Child(s1, if prior.Some? then prior.value.entries else []));
            Subgraph(w, d, t, u, s).out.Panic? <==>
              && (prior.None? || prior.value.failed)
              && if !w.bound(u.id, t) then s.condition == CompensationFailed
                 else w.claims(t) && (walked.out.Panic?
                        || (Tells(walked.out) && Undercuts(walked.st.condition, s.condition)))
  {
    hide Walk, FindNested, Supersede, Undos, IsPaused;
  }

  // ----- Trees -----

  /** Ids are distinct, in the tree and in the trees of its handlers. */
  predicate Proper(u: Unit)
    decreases u
  {
    && Distinct(u)
    && (u.onRetry.Some? ==> Proper(u.onRetry.value))
    && (u.onError.Some? ==> Proper(u.onError.value))
    && (u.body.Scope? ==> AllProper(u.body.children))
  }

  predicate AllProper(units: seq<Unit>)
    decreases units
  {
    units != [] ==> Proper(units[0]) && AllProper(units[1..])
  }

  lemma ProperParts(u: Unit)
    requires Proper(u)
    ensures Distinct(u)
    ensures u.onRetry.Some? ==> Proper(u.onRetry.value)
    ensures u.onError.Some? ==> Proper(u.onError.value)
    ensures u.body.Scope? ==> AllProper(u.body.children) && AllDistinct(u.body.children)
  {
  }

  // ----- Memos of a stack -----

  lemma {:induction false} EmptyMemos(units: seq<Unit>)
    ensures MemosOf([], units) == AllFresh(|units|)
    decreases units
  {
    if units != [] {
      EmptyMemos(units[1..]);
    }
  }

  lemma EmptyMemo(u: Unit)
    ensures MemoOf([], u) == Fresh
  {
  }

  lemma SameMemo(a: seq<Entry>, b: seq<Entry>, u: Unit)
    requires About(a, u.id) == About(b, u.id)
    ensures MemoOf(a, u) == MemoOf(b, u)
  {
  }

  lemma {:induction false} UntouchedMemos(units: seq<Unit>, touched: set<nat>, before: seq<Entry>, after: seq<Entry>)
    requires FrameAll(touched, before, after) && touched !! AllIds(units)
    ensures MemosOf(after, units) == MemosOf(before, units)
    decreases units
  {
    if units != [] {
      assert units[0].id in AllIds(units);
      SameMemo(before, after, units[0]);
      UntouchedMemos(units[1..], touched, before, after);
    }
  }

  lemma BareMemo(entries: seq<Entry>, u: Unit)
    ensures MemoOf(entries + [Bare], u) == MemoOf(entries, u)
  {
    AboutPush(entries, Bare, u.id);
    assert About(entries, u.id) + [] == About(entries, u.id);
    SameMemo(entries, entries + [Bare], u);
  }

  lemma ReceiptMemo(entries: seq<Entry>, u: Unit, ok: bool, value: Value, undo: bool)
    requires u.body.Leaf?
    ensures MemoOf(entries + [Receipt(u.id, ok, value, undo)], u) == if ok then Settled(IsTruthy(value)) else Fresh
  {
    AboutPush(entries, Receipt(u.id, ok, value, undo), u.id);
    var about := About(entries + [Receipt(u.id, ok, value, undo)], u.id);
    assert about[|about|-1] == Receipt(u.id, ok, value, undo);
  }

  /** A unit's memo is what the look-ups say. */
  lemma LeafMemo(entries: seq<Entry>, u: Unit)
    requires u.body.Leaf?
    ensures var found := FindReceipt(entries, u.id);
            if found.Some? && found.value.Receipt? && found.value.ok
            then MemoOf(entries, u) == Settled(IsTruthy(found.value.result)) else MemoOf(entries, u) == Fresh
  {
    FindsAbout(entries, u.id);
  }

  lemma ScopeMemo(entries: seq<Entry>, u: Unit)
    requires u.body.Scope?
    ensures var prior := FindNested(entries, u.id);
            if prior.None? then MemoOf(entries, u) == Fresh
            else if prior.value.failed then MemoOf(entries, u) == Partial(MemosOf(prior.value.entries, u.body.children))
            else MemoOf(entries, u) == Settled(IsTruthy(prior.value.result))
  {
    hide MemosOf;
    FindsAbout(entries, u.id);
  }

  lemma GoneMemo(u: Unit, s1: seq<Entry>, e: Entry)
    requires u.body.Scope? && NoScope(s1, u.id) && !e.Nested? && (e.Receipt? ==> !e.undo)
    ensures MemoOf(s1 + [e], u) == Fresh && MemoOf(s1, u) == Fresh
  {
    hide Undos, MemosOf;
    Gone(u, s1, e);
    ScopeMemo(s1, u);
    ScopeMemo(s1 + [e], u);
  }

  /** A scope's stack, nested on top. */
  lemma NestedMemo(u: Unit, s1: seq<Entry>, stack: Stack)
    requires u.body.Scope? && stack.unit == u.id
    ensures MemoOf(s1 + [Nested(stack)], u) ==
      if stack.failed then Partial(MemosOf(stack.entries, u.body.children)) else Settled(IsTruthy(stack.result))
  {
    hide MemosOf;
    assert (s1 + [Nested(stack)])[..|s1|] == s1;
    ScopeMemo(s1 + [Nested(stack)], u);
  }

  // ----- Points of the analysis -----

  datatype Point =
    | Exec(u: Unit, p: Memo)
    | Loop(u: Unit, p: Memo, attempt: nat)
    | Next(u: Unit, p: Memo, attempt: nat)
    | Rescue(u: Unit, p: Memo)
    | Walking(units: seq<Unit>, ms: seq<Memo>, truthy: bool)

  ghost predicate To(a: Plan, at: Point, m: Mark, x: Exit, q: Memo, n: Mark) {
    match at
    case Exec(u, p) => ExecTo(a, u, p, m, x, q, n)
    case Loop(u, p, attempt) => LoopTo(a, u, p, m, attempt, x, q, n)
    case Next(u, p, attempt) => NextTo(a, u, p, m, attempt, x, q, n)
    case Rescue(u, p) => RescueTo(a, u, p, m, x, q, n)
    case Walking(units, ms, truthy) => WalkTo(a, units, ms, m, truthy, x, q, n)
  }

  /** What the result leaves, and the assertions that failed on the way, are foreseen; `after`: the memo it leaves. */
  ghost predicate Foreseen(a: Plan, at: Point, m: Mark, s: ExecutorHalts.Summary, r: Result, after: Memo) {
    && (r.out.Ok? ==> To(a, at, m, Done(IsTruthy(r.out.value)), after, MarkOf(r.st)))
    && (r.out.Fail? && IsPaused(r.out.err) ==> To(a, at, m, Parked, Fresh, MarkOf(r.st)))
    && (s.crash ==> To(a, at, m, Fell(false), Fresh, START))
    && (s.lost ==> To(a, at, m, Fell(true), Fresh, START))
  }

  /** A failure that may be answered is foreseen; of one execution its mark too. */
  ghost predicate Softly(a: Plan, at: Point, m: Mark, r: Result, after: Memo) {
    r.out.Fail? && ExecutorHalts.Ordinary(r.out.err) ==>
      To(a, at, m, Soft, after, if at.Exec? then MarkOf(r.st) else START)
  }

  ghost predicate Covers(a: Plan, at: Point, m: Mark, s: ExecutorHalts.Summary, r: Result, after: Memo) {
    Foreseen(a, at, m, s, r, after) && Softly(a, at, m, r, after)
  }

  /** Everything seen from here is also seen from there. */
  ghost predicate Leads(a: Plan, from: Point, k: Mark, at: Point, m: Mark) {
    forall x, q, n :: To(a, from, k, x, q, n) ==> To(a, at, m, x, q, n)
  }

  lemma Forward(a: Plan, from: Point, k: Mark, at: Point, m: Mark, s: ExecutorHalts.Summary, r: Result, after: Memo)
    requires Covers(a, from, k, s, r, after) && Leads(a, from, k, at, m) && !at.Exec? && !from.Exec?
    ensures Covers(a, at, m, s, r, after)
  {
    hide To, IsPaused, ExecutorHalts.Ordinary;
  }

  /** Two stretches, the first of which ended neither in a pause nor in a hard failure. */
  lemma Then(a: Plan, at: Point, m: Mark, s1: ExecutorHalts.Summary, s2: ExecutorHalts.Summary, out: Outcome, r: Result,
             after: Memo)
    requires ExecutorHalts.Told(s1, out) && (out.Ok? || (out.Fail? && ExecutorHalts.Ordinary(out.err)))
    requires s1.crash ==> To(a, at, m, Fell(false), Fresh, START)
    requires s1.lost ==> To(a, at, m, Fell(true), Fresh, START)
    requires Covers(a, at, m, s2, r, after)
    ensures Covers(a, at, m, ExecutorHalts.Combine(s1, s2), r, after)
  {
    hide To, IsPaused, IsHard;
  }

  lemma SameBudget(a: Plan, w: World, u: Unit)
    requires Allowed(a, w)
    ensures Tries(w, u) == Budget(a, u) && forall unit :: PolicyFor(w, unit) == PolicyIn(a.root, a.policies, unit)
  {
  }

  // ----- The loop -----

  lemma {:induction false} AttemptsForeseen(a: Plan, w: World, d: nat, u: Unit, st: State, attempt: nat, last: Err)
    requires Allowed(a, w) && Proper(u) && Tidy(st.entries, u) && ExecutorHalts.Ordinary(last)
    ensures var r := Attempts(w, d, u, st, attempt, last);
            Covers(a, Loop(u, MemoOf(st.entries, u), attempt), MarkOf(st), ExecutorHalts.Since(st, r.st, d), r,
                   MemoOf(r.st.entries, u))
    decreases u, 1 + Left(w, u, attempt), 1
  {
    hide Allowed, Proper, Tidy, Covers, Foreseen, Softly, To, LoopTo, ExecutorHalts.Sum, ExecutorHalts.Combine,
         ExecutorHalts.Told, Execute, Retry, Resolve, ApplyPending, IsPaused, IsHard, Ledger, MemoOf;
    var m, p := MarkOf(st), MemoOf(st.entries, u);
    var at := Loop(u, p, attempt);
    SameBudget(a, w, u);
    var t := Attempts(w, d, u, st, attempt, last);
    if attempt >= Tries(w, u) {
      ResolveForeseen(a, w, d, u, st, ActionFailed, last);
      LoopRescues(a, u, p, m, attempt);
      Forward(a, Rescue(u, p), m, at, m, ExecutorHalts.Since(st, t.st, d), t, MemoOf(t.st.entries, u));
    } else if attempt > 0 && w.cut(st.tick) {
      CutForeseen(a, u, p, m, attempt, d, st);
    } else {
      var began := Log(st.(tick := st.tick + 1), [Began(d, u.id)]);
      OnceForeseen(a, w, d, u, st, began, attempt, last);
      BeganForeseen(a, at, m, d, st, began, u.id, t, MemoOf(t.st.entries, u));
    }
  }

  /** One attempt and what follows it. */
  lemma {:induction false} OnceForeseen(a: Plan, w: World, d: nat, u: Unit, st: State, began: State, attempt: nat,
                                        last: Err)
    requires Allowed(a, w) && Proper(u) && Tidy(st.entries, u) && ExecutorHalts.Ordinary(last)
    requires attempt < Tries(w, u) && !(attempt > 0 && w.cut(st.tick))
    requires began == Log(st.(tick := st.tick + 1), [Began(d, u.id)])
    ensures var t := Attempts(w, d, u, st, attempt, last);
            && began.log <= t.st.log
            && Covers(a, Loop(u, MemoOf(st.entries, u), attempt), MarkOf(st), ExecutorHalts.Since(began, t.st, d), t,
                      MemoOf(t.st.entries, u))
    decreases u, 1 + Left(w, u, attempt), 0, 1
  {
    hide Allowed, Proper, Tidy, Covers, Foreseen, Softly, To, LoopTo, ExecutorHalts.Sum, ExecutorHalts.Combine,
         ExecutorHalts.Told, Execute, Retry, ApplyPending, IsPaused, IsHard, Ledger, MemoOf;
    var m, p := MarkOf(st), MemoOf(st.entries, u);
    var at := Loop(u, p, attempt);
    SameBudget(a, w, u);
    ExecuteForeseen(a, w, d, u, began);
    ExecutorHalts.ExecuteTells(w, d, u, began);
    var r, t := Execute(w, d, u, began), Attempts(w, d, u, st, attempt, last);
    var q, s1 := MemoOf(r.st.entries, u), ExecutorHalts.Since(began, r.st, d);
    ProperParts(u);
    ExecuteLedger(w, d, u, began);
    LedgerTidy(d, u, began, r);
    LoopExecutes(a, u, p, m, attempt, s1, r, q);
    match r.out {
      case Ok(value) =>
        PendingForeseen(a, d, u, p, m, attempt, r.st, value, q);
        ExecutorHalts.SinceChain(began, r.st, t.st, d);
        Then(a, at, m, s1, ExecutorHalts.Since(r.st, t.st, d), r.out, t, q);
      case Panic =>
      case Fail(err) =>
        var asked := r.st.(tick := r.st.tick + 1);
        assert ExecutorHalts.Since(began, asked, d) == s1;
        if IsPaused(err) || w.cancelled(r.st.tick) || IsHard(err) {
          SameMark(a, at, m, s1, r, t, q);
        } else {
          RetryForeseen(a, w, d, u, asked, attempt, err);
          LoopGoesOn(a, u, p, m, q, MarkOf(asked), attempt);
          Forward(a, Next(u, q, attempt), MarkOf(asked), at, m, ExecutorHalts.Since(asked, t.st, d), t,
                  MemoOf(t.st.entries, u));
          ExecutorHalts.SinceChain(began, asked, t.st, d);
          Then(a, at, m, s1, ExecutorHalts.Since(asked, t.st, d), r.out, t, MemoOf(t.st.entries, u));
        }
    }
  }

  lemma LoopRescues(a: Plan, u: Unit, p: Memo, m: Mark, attempt: nat)
    requires attempt >= Budget(a, u)
    ensures Leads(a, Rescue(u, p), m, Loop(u, p, attempt), m)
  {
    hide RescueTo;
  }

  lemma LoopGoesOn(a: Plan, u: Unit, p: Memo, m: Mark, q: Memo, k: Mark, attempt: nat)
    requires attempt < Budget(a, u) && ExecTo(a, u, p, m, Soft, q, k)
    ensures Leads(a, Next(u, q, attempt), k, Loop(u, p, attempt), m)
  {
    hide ExecTo, NextTo, RescueTo;
  }

  /** A unit can always be stopped at its control point. */
  lemma CanIdle(a: Plan, u: Unit, p: Memo, m: Mark)
    ensures ExecTo(a, u, p, m, Soft, p, m)
  {
    hide WalkTo;
  }

  lemma LoopSoft(a: Plan, u: Unit, p: Memo, m: Mark, q: Memo, k: Mark, attempt: nat)
    requires attempt < Budget(a, u) && ExecTo(a, u, p, m, Soft, q, k)
    ensures LoopTo(a, u, p, m, attempt, Soft, q, START)
  {
    hide ExecTo, RescueTo;
    assert NextTo(a, u, q, k, attempt, Soft, q, START);
  }

  /** What an attempt that did not succeed makes of the loop. */
  lemma LoopExecutes(a: Plan, u: Unit, p: Memo, m: Mark, attempt: nat, s: ExecutorHalts.Summary, r: Result, q: Memo)
    requires attempt < Budget(a, u) && Covers(a, Exec(u, p), m, s, r, q)
    ensures !r.out.Ok? ==> Covers(a, Loop(u, p, attempt), m, s, r, q)
    ensures s.crash ==> To(a, Loop(u, p, attempt), m, Fell(false), Fresh, START)
    ensures s.lost ==> To(a, Loop(u, p, attempt), m, Fell(true), Fresh, START)
    ensures r.out.Ok? ==> ExecTo(a, u, p, m, Done(IsTruthy(r.out.value)), q, MarkOf(r.st))
    ensures r.out.Fail? && ExecutorHalts.Ordinary(r.out.err) ==> ExecTo(a, u, p, m, Soft, q, MarkOf(r.st))
  {
    hide ExecTo, LoopTo, IsPaused, ExecutorHalts.Ordinary;
    if r.out.Fail? && ExecutorHalts.Ordinary(r.out.err) {
      LoopSoft(a, u, p, m, q, MarkOf(r.st), attempt);
    }
    LoopHalts(a, u, p, m, attempt);
  }

  lemma LoopHalts(a: Plan, u: Unit, p: Memo, m: Mark, attempt: nat)
    requires attempt < Budget(a, u)
    ensures forall x, q, n :: HaltsSo(x) && ExecTo(a, u, p, m, x, q, n) ==> LoopTo(a, u, p, m, attempt, x, q, n)
  {
    hide ExecTo, NextTo, RescueTo;
    forall x, q, n | HaltsSo(x) && ExecTo(a, u, p, m, x, q, n) ensures LoopTo(a, u, p, m, attempt, x, q, n) {
      assert EndsLoop(x, x, q, q, n);
    }
  }

  lemma SameMark(a: Plan, at: Point, m: Mark, s: ExecutorHalts.Summary, r: Result, t: Result, after: Memo)
    requires Covers(a, at, m, s, r, after) && t.out == r.out && MarkOf(t.st) == MarkOf(r.st)
    ensures Covers(a, at, m, s, t, after)
  {
    hide To, IsPaused, ExecutorHalts.Ordinary;
  }

  lemma CutForeseen(a: Plan, u: Unit, p: Memo, m: Mark, attempt: nat, d: nat, st: State)
    requires attempt < Budget(a, u)
    ensures var t := Log(st.(tick := st.tick + 1), [Cleared(d, u.id)]);
            Covers(a, Loop(u, p, attempt), m, ExecutorHalts.Since(st, t, d), Result(Fail(Cancelled), t), p)
  {
    hide LoopTo, ExecTo;
    CanIdle(a, u, p, m);
    LoopSoft(a, u, p, m, p, m, attempt);
    ExecutorHalts.SinceLogged(st, st.(tick := st.tick + 1), [Cleared(d, u.id)], d);
    ExecutorHalts.SumOne(Cleared(d, u.id), d);
  }

  lemma BeganForeseen(a: Plan, at: Point, m: Mark, d: nat, st: State, began: State, unit: nat, r: Result, after: Memo)
    requires began.log == st.log + [Began(d, unit)] && began.log <= r.st.log
    requires Covers(a, at, m, ExecutorHalts.Since(began, r.st, d), r, after)
    ensures st.log <= r.st.log && Covers(a, at, m, ExecutorHalts.Since(st, r.st, d), r, after)
  {
    hide To, IsPaused, ExecutorHalts.Ordinary;
    ExecutorHalts.SinceChain(st, began, r.st, d);
    ExecutorHalts.SinceSame(st, st, d);
    ExecutorHalts.SinceLogged(st, st, [Began(d, unit)], d);
    ExecutorHalts.SumOne(Began(d, unit), d);
    assert ExecutorHalts.Since(st, began, d) == ExecutorHalts.One(Began(d, unit), d);
  }

  lemma PendingForeseen(a: Plan, d: nat, u: Unit, p: Memo, m: Mark, attempt: nat, st: State, value: Value, q: Memo)
    requires attempt < Budget(a, u) && ExecTo(a, u, p, m, Done(IsTruthy(value)), q, MarkOf(st))
    ensures var r := ApplyPending(d, st, value);
            && st.log <= r.st.log && r.st.entries == st.entries
            && Covers(a, Loop(u, p, attempt), m, ExecutorHalts.Since(st, r.st, d), r, q)
  {
    hide ExecTo, NextTo, RescueTo, ExecutorHalts.Sum, IsTruthy;
    var y := Done(IsTruthy(value));
    ExecutorHalts.SinceSame(st, st, d);
    match st.pending
    case Stop =>
      ExecutorHalts.SinceLogged(st, st, [Stamped(d, st.reason), Halted(d, HardHalt)], d);
      ExecutorHalts.SumTwo(Stamped(d, st.reason), Halted(d, HardHalt), d);
      assert !Is(Plain, ErrPaused);
    case Pause =>
      ExecutorHalts.SinceLogged(st, st, [Halted(d, PauseHalt)], d);
      ExecutorHalts.SumOne(Halted(d, PauseHalt), d);
      assert EndsLoop(Parked, y, Fresh, q, MarkOf(st));
    case Continue => assert EndsLoop(y, y, q, q, MarkOf(st));
  }

  lemma {:induction false} RetryForeseen(a: Plan, w: World, d: nat, u: Unit, st: State, attempt: nat, err: Err)
    requires attempt < Tries(w, u)
    requires Allowed(a, w) && Proper(u) && Tidy(st.entries, u) && ExecutorHalts.Ordinary(err)
    ensures var r := Retry(w, d, u, st, attempt, err);
            Covers(a, Next(u, MemoOf(st.entries, u), attempt), MarkOf(st), ExecutorHalts.Since(st, r.st, d), r,
                   MemoOf(r.st.entries, u))
    decreases u, 1 + Left(w, u, attempt), 0, 0
  {
    hide Allowed, Proper, Tidy, Covers, Foreseen, To, NextTo, ExecutorHalts.Sum, ExecutorHalts.Combine,
         ExecutorHalts.HandlerTold, Handle, Attempts, Resolve, IsPaused, IsHard, MemoOf;
    var m, p := MarkOf(st), MemoOf(st.entries, u);
    var at := Next(u, p, attempt);
    SameBudget(a, w, u);
    ProperParts(u);
    var t := Retry(w, d, u, st, attempt, err);
    if attempt + 1 < Tries(w, u) && u.onRetry.Some? {
      var h := u.onRetry.value;
      HandleForeseen(a, w, d, u.id, false, h, st);
      ExecutorHalts.HandleTells(w, d, u.id, false, h, st);
      var g := Handle(w, d, u.id, false, h, st);
      var s1 := ExecutorHalts.Since(st, g.st, d);
      NextAsks(a, u, p, m, attempt, s1, g);
      match g.out
      case Fail(e) => HandlerFailed(a, at, m, d, st, g, e, p);
      case Ok(verdict) =>
        if IsTruthy(verdict) {
          AttemptsForeseen(a, w, d, u, g.st, attempt + 1, err);
          Forward(a, Loop(u, p, attempt + 1), MarkOf(g.st), at, m, ExecutorHalts.Since(g.st, t.st, d), t,
                  MemoOf(t.st.entries, u));
        } else {
          ResolveForeseen(a, w, d, u, g.st, RetryVetoed, err);
          Forward(a, Rescue(u, p), MarkOf(g.st), at, m, ExecutorHalts.Since(g.st, t.st, d), t, MemoOf(t.st.entries, u));
        }
        AfterVerdict(a, at, m, d, st, g, t, MemoOf(t.st.entries, u));
    } else {
      AttemptsForeseen(a, w, d, u, st, attempt + 1, err);
      NextIsLoop(a, u, p, m, attempt);
      Forward(a, Loop(u, p, attempt + 1), m, at, m, ExecutorHalts.Since(st, t.st, d), t, MemoOf(t.st.entries, u));
    }
  }

  lemma NextIsLoop(a: Plan, u: Unit, p: Memo, m: Mark, attempt: nat)
    requires attempt < Budget(a, u) && !(attempt + 1 < Budget(a, u) && u.onRetry.Some?)
    ensures Leads(a, Loop(u, p, attempt + 1), m, Next(u, p, attempt), m)
  {
    hide LoopTo;
  }

  /** A handler's result, as far as its caller sees it. */
  ghost predicate Answered(a: Plan, handler: Unit, m: Mark, s: ExecutorHalts.Summary, g: Result) {
    && (g.out.Ok? ==> Handled(a, handler, m, Done(IsTruthy(g.out.value)), MarkOf(g.st)))
    && (g.out.Fail? && IsPaused(g.out.err) ==> Handled(a, handler, m, Parked, MarkOf(g.st)))
    && (s.crash ==> Handled(a, handler, m, Fell(false), START))
    && (s.lost ==> Handled(a, handler, m, Fell(true), START))
  }

  /** What an OnRetry leads to. */
  lemma NextAsks(a: Plan, u: Unit, p: Memo, m: Mark, attempt: nat, s: ExecutorHalts.Summary, g: Result)
    requires attempt + 1 < Budget(a, u) && u.onRetry.Some? && Answered(a, u.onRetry.value, m, s, g)
    ensures var at := Next(u, p, attempt);
            && (g.out.Fail? ==> Foreseen(a, at, m, s, g, p) && To(a, at, m, Soft, p, START))
            && (s.crash ==> To(a, at, m, Fell(false), Fresh, START))
            && (s.lost ==> To(a, at, m, Fell(true), Fresh, START))
            && (g.out.Ok? && IsTruthy(g.out.value) ==> Leads(a, Loop(u, p, attempt + 1), MarkOf(g.st), at, m))
            && (g.out.Ok? && !IsTruthy(g.out.value) ==> Leads(a, Rescue(u, p), MarkOf(g.st), at, m))
  {
    hide Handled, LoopTo, RescueTo, IsPaused;
  }

  /** A handler that failed ends the dispatch with its error. */
  lemma HandlerFailed(a: Plan, at: Point, m: Mark, d: nat, st: State, g: Result, e: Err, after: Memo)
    requires st.log <= g.st.log && g.out == Fail(e) && !at.Exec?
    requires Foreseen(a, at, m, ExecutorHalts.Since(st, g.st, d), g, after) && To(a, at, m, Soft, after, START)
    ensures var t := Log(g.st, [Stamped(d, RunStatus.HandlerFailed)]);
            st.log <= t.log && Covers(a, at, m, ExecutorHalts.Since(st, t, d), Result(Fail(HandlerError(e)), t), after)
  {
    hide To;
    ExecutorHalts.SinceLogged(st, g.st, [Stamped(d, RunStatus.HandlerFailed)], d);
    ExecutorHalts.SumOne(Stamped(d, RunStatus.HandlerFailed), d);
  }

  /** A handler that gave a verdict, then what the verdict led to. */
  lemma AfterVerdict(a: Plan, at: Point, m: Mark, d: nat, st: State, g: Result, t: Result, after: Memo)
    requires st.log <= g.st.log <= t.st.log && g.out.Ok?
    requires var s := ExecutorHalts.Since(st, g.st, d);
             && ExecutorHalts.HandlerTold(s, g.out)
             && (s.crash ==> To(a, at, m, Fell(false), Fresh, START))
             && (s.lost ==> To(a, at, m, Fell(true), Fresh, START))
    requires Covers(a, at, m, ExecutorHalts.Since(g.st, t.st, d), t, after)
    ensures Covers(a, at, m, ExecutorHalts.Since(st, t.st, d), t, after)
  {
    hide To, IsPaused, ExecutorHalts.Ordinary;
    ExecutorHalts.SinceChain(st, g.st, t.st, d);
  }

  lemma {:induction false} ResolveForeseen(a: Plan, w: World, d: nat, u: Unit, st: State, base: Reason, cause: Err)
    requires Allowed(a, w) && Proper(u) && ExecutorHalts.Ordinary(cause)
    ensures var r := Resolve(w, d, u, st, base, cause);
            Covers(a, Rescue(u, MemoOf(st.entries, u)), MarkOf(st), ExecutorHalts.Since(st, r.st, d), r,
                   MemoOf(r.st.entries, u))
    decreases u, 0, 2
  {
    hide Allowed, Proper, Covers, Foreseen, To, ExecutorHalts.Sum, ExecutorHalts.Combine,
         ExecutorHalts.HandlerTold, Handle, Stands, MemoOf;
    var m, p := MarkOf(st), MemoOf(st.entries, u);
    var at := Rescue(u, p);
    ProperParts(u);
    RescueSoft(a, u, p, m);
    StandsForeseen(a, at, m, d, st, base, cause, p);
    if u.onError.Some? {
      var h := u.onError.value;
      HandleForeseen(a, w, d, u.id, true, h, st);
      ExecutorHalts.HandleTells(w, d, u.id, true, h, st);
      var g := Handle(w, d, u.id, true, h, st);
      var s1 := ExecutorHalts.Since(st, g.st, d);
      RescueAsks(a, u, p, m, s1, g);
      match g.out
      case Fail(e) => HandlerFailed(a, at, m, d, st, g, e, p);
      case Ok(verdict) =>
        if IsTruthy(verdict) {
          ClearedForeseen(a, at, m, d, st, g, u.id, p);
        } else {
          StandsForeseen(a, at, m, d, g.st, base, cause, p);
          AfterVerdict(a, at, m, d, st, g, Stands(d, g.st, base, cause), p);
        }
    }
  }

  lemma RescueSoft(a: Plan, u: Unit, p: Memo, m: Mark)
    ensures To(a, Rescue(u, p), m, Soft, p, START)
  {
  }

  lemma RescueAsks(a: Plan, u: Unit, p: Memo, m: Mark, s: ExecutorHalts.Summary, g: Result)
    requires u.onError.Some? && Answered(a, u.onError.value, m, s, g)
    ensures g.out.Fail? || (g.out.Ok? && IsTruthy(g.out.value)) ==> Foreseen(a, Rescue(u, p), m, s, g, p)
    ensures s.crash ==> To(a, Rescue(u, p), m, Fell(false), Fresh, START)
    ensures s.lost ==> To(a, Rescue(u, p), m, Fell(true), Fresh, START)
  {
    hide Handled, IsPaused;
  }

  lemma ClearedForeseen(a: Plan, at: Point, m: Mark, d: nat, st: State, g: Result, unit: nat, after: Memo)
    requires st.log <= g.st.log && g.out.Ok? && Foreseen(a, at, m, ExecutorHalts.Since(st, g.st, d), g, after)
    ensures var t := Log(g.st, [Cleared(d, unit)]);
            st.log <= t.log && Covers(a, at, m, ExecutorHalts.Since(st, t, d), Result(g.out, t), after)
  {
    hide To;
    ExecutorHalts.SinceLogged(st, g.st, [Cleared(d, unit)], d);
    ExecutorHalts.SumOne(Cleared(d, unit), d);
  }

  lemma StandsForeseen(a: Plan, at: Point, m: Mark, d: nat, st: State, base: Reason, cause: Err, after: Memo)
    requires ExecutorHalts.Ordinary(cause) && !at.Exec? && To(a, at, m, Soft, after, START)
    ensures var r := Stands(d, st, base, cause);
            && st.log <= r.st.log && r.st.entries == st.entries
            && Covers(a, at, m, ExecutorHalts.Since(st, r.st, d), r, after)
  {
    hide To;
    ExecutorHalts.SinceSame(st, st, d);
    ExecutorHalts.SinceLogged(st, st, [Stamped(d, base)], d);
    ExecutorHalts.SumOne(Stamped(d, base), d);
  }

  lemma {:induction false} HandleForeseen(a: Plan, w: World, d: nat, unit: nat, rescue: bool, handler: Unit, st: State)
    requires Allowed(a, w) && Proper(handler)
    ensures var r := Handle(w, d, unit, rescue, handler, st);
            Answered(a, handler, MarkOf(st), ExecutorHalts.Since(st, r.st, d), r)
    decreases handler, 1, 0
  {
    hide Allowed, Proper, Tidy, Covers, ExecutorHalts.Sum, Execute, IsPaused, ExecutorHalts.Told, ExecutorHalts.Combine,
         MemoOf;
    var asked := Log(st.(entries := []), [Asked(d, unit, rescue)]);
    FreshStack(handler);
    EmptyMemo(handler);
    ExecuteForeseen(a, w, d + 1, handler, asked);
    ExecutorHalts.ExecuteTells(w, d + 1, handler, asked);
    var r, es := HandleIs(w, d, unit, rescue, handler, st);
    var h := Handle(w, d, unit, rescue, handler, st);
    ExecutorHalts.AfterSame(st, r.st, h.st, es, d);
    DeeperForeseen(a, handler, MarkOf(st), d, st, asked, unit, rescue, r, MemoOf(r.st.entries, handler), h);
  }

  lemma DeeperForeseen(a: Plan, handler: Unit, m: Mark, d: nat, st: State, asked: State, unit: nat, rescue: bool,
                       r: Result, q: Memo, h: Result)
    requires asked.log == st.log + [Asked(d, unit, rescue)] && asked.log <= r.st.log <= h.st.log
    requires ExecutorHalts.Since(st, h.st, d) == ExecutorHalts.Since(st, r.st, d)
    requires Covers(a, Exec(handler, Fresh), m, ExecutorHalts.Since(asked, r.st, d + 1), r, q)
    requires ExecutorHalts.Told(ExecutorHalts.Since(asked, r.st, d + 1), r.out)
    requires h.out == if r.out.Panic? then Fail(Plain) else r.out
    requires MarkOf(h.st) == MarkOf(r.st)
    ensures st.log <= h.st.log && Answered(a, handler, m, ExecutorHalts.Since(st, h.st, d), h)
  {
    hide ExecTo;
    ExecutorHalts.Deeper(r.st.log[|asked.log|..], d);
    ExecutorHalts.SinceChain(st, asked, r.st, d);
    ExecutorHalts.SinceSame(st, st, d);
    ExecutorHalts.SinceLogged(st, st, [Asked(d, unit, rescue)], d);
    ExecutorHalts.SumOne(Asked(d, unit, rescue), d);
    assert ExecutorHalts.Since(st, asked, d) == ExecutorHalts.One(Asked(d, unit, rescue), d);
  }

  // ----- One execution -----

  lemma {:induction false} ExecuteForeseen(a: Plan, w: World, d: nat, u: Unit, st: State)
    requires Allowed(a, w) && Proper(u) && Tidy(st.entries, u)
    ensures var r := Execute(w, d, u, st);
            Covers(a, Exec(u, MemoOf(st.entries, u)), MarkOf(st), ExecutorHalts.Since(st, r.st, d), r,
                   MemoOf(r.st.entries, u))
    decreases u, 0, 1
  {
    hide Allowed, Proper, Tidy, Covers, ExecutorHalts.Sum, Node, Subgraph, MemoOf;
    var t, s := st.tick, st.(tick := st.tick + 1);
    var r := Execute(w, d, u, st);
    if w.cancelled(t) {
      BareMemo(s.entries, u);
      IdleExec(a, u, MemoOf(st.entries, u), d, st, r);
    } else {
      var c := ControlPoint(w, d, t, s);
      if c.out.Fail? {
        ControlForeseen(a, w, d, t, u, MemoOf(st.entries, u), st, s);
      } else if u.body.Leaf? {
        NodeForeseen(a, w, d, t, u, s);
        assert ExecutorHalts.Since(st, r.st, d) == ExecutorHalts.Since(s, r.st, d);
      } else {
        SubgraphForeseen(a, w, d, t, u, s);
        assert ExecutorHalts.Since(st, r.st, d) == ExecutorHalts.Since(s, r.st, d);
      }
    }
  }

  /** An ordinary failure that changed nothing. */
  lemma IdleExec(a: Plan, u: Unit, p: Memo, d: nat, st: State, r: Result)
    requires r.st.log == st.log && r.out.Fail? && ExecutorHalts.Ordinary(r.out.err) && MarkOf(r.st) == MarkOf(st)
    ensures Covers(a, Exec(u, p), MarkOf(st), ExecutorHalts.Since(st, r.st, d), r, p)
  {
    hide ExecTo;
    CanIdle(a, u, p, MarkOf(st));
    ExecutorHalts.SinceSame(st, r.st, d);
  }

  lemma CanPark(a: Plan, u: Unit, p: Memo, m: Mark)
    ensures ExecTo(a, u, p, m, Parked, Fresh, m)
  {
    hide WalkTo;
  }

  lemma ControlForeseen(a: Plan, w: World, d: nat, t: nat, u: Unit, p: Memo, st: State, s: State)
    requires s.log == st.log && s.entries == st.entries && MarkOf(s) == MarkOf(st)
    requires ControlPoint(w, d, t, s).out.Fail?
    ensures var r := ControlPoint(w, d, t, s);
            && st.log <= r.st.log && r.st.entries == st.entries
            && Covers(a, Exec(u, p), MarkOf(st), ExecutorHalts.Since(st, r.st, d), r, p)
  {
    hide ExecTo, ExecutorHalts.Sum;
    CanIdle(a, u, p, MarkOf(st));
    CanPark(a, u, p, MarkOf(st));
    ExecutorHalts.SinceSame(st, s, d);
    ExecutorHalts.SinceLogged(st, s, [Halted(d, PauseHalt)], d);
    ExecutorHalts.SinceLogged(st, s, [Halted(d, StopHalt)], d);
    ExecutorHalts.SumOne(Halted(d, PauseHalt), d);
    ExecutorHalts.SumOne(Halted(d, StopHalt), d);
  }

  /** A driver's flips go as the conduct says. */
  lemma {:induction false} SubmitFlips(a: Plan, w: World, st: State, unit: nat, flips: seq<Submission>)
    requires w.root == a.root && w.policies == a.policies
    ensures var r, f := Submit(w, st, unit, flips), Flipped(a, unit, MarkOf(st), Conditions(flips));
            (r.ok <==> f.Some?) && (r.ok ==> MarkOf(r.st) == f.value)
    decreases |flips|
  {
    if flips != [] {
      var f := flips[0];
      assert Conditions(flips)[0] == f.condition && Conditions(flips)[1..] == Conditions(flips[1..]);
      match Transition(w, st, unit, f.condition, f.reason)
      case None =>
      case Some(next) =>
        SubmitFlips(a, w, next, unit, flips[1..]);
        assert MarkOf(next) == Hit(a, unit, MarkOf(st), f.condition);
    }
  }

  lemma LooseCrashes(a: Plan, u: Unit, p: Memo, m: Mark)
    requires !p.Settled? && m.condition == CompensationFailed && a.loose(u.id)
    ensures ExecTo(a, u, p, m, Fell(false), Fresh, START)
  {
    hide WalkTo, CanReject;
  }

  lemma FrameworkForeseen(a: Plan, w: World, d: nat, s0: State, s: State, u: Unit, p: Memo, q: Memo)
    requires s0.log <= s.log && MarkOf(s) == MarkOf(s0) && a.loose(u.id) && !p.Settled?
    requires ExecutorHalts.Since(s0, s, d) == ExecutorHalts.NOTHING
    ensures var r := FrameworkFailure(w, d, s, u.id);
            && s0.log <= r.st.log
            && Covers(a, Exec(u, p), MarkOf(s0), ExecutorHalts.Since(s0, r.st, d), r, q)
  {
    hide ExecTo, ExecutorHalts.Sum, PolicyFor;
    if s0.condition == CompensationFailed {
      LooseCrashes(a, u, p, MarkOf(s0));
    }
    ExecutorHalts.SinceLogged(s0, s, [Crashed(d)], d);
    ExecutorHalts.SinceLogged(s0, s, [Stamped(d, FrameworkFailed), Halted(d, HardHalt)], d);
    ExecutorHalts.SumOne(Crashed(d), d);
    ExecutorHalts.SumTwo(Stamped(d, FrameworkFailed), Halted(d, HardHalt), d);
    assert !Is(Plain, ErrPaused);
  }

  lemma {:induction false} NodeForeseen(a: Plan, w: World, d: nat, t: nat, u: Unit, s: State)
    requires Allowed(a, w) && u.body.Leaf?
    ensures var r := Node(w, d, t, u, s);
            Covers(a, Exec(u, MemoOf(s.entries, u)), MarkOf(s), ExecutorHalts.Since(s, r.st, d), r,
                   MemoOf(r.st.entries, u))
  {
    hide FrameworkFailure, FindReceipt, MemoOf, Covers, Raised, Submit;
    LeafMemo(s.entries, u);
    ExecutorHalts.SinceSame(s, s, d);
    var found := FindReceipt(s.entries, u.id);
    if found.Some? && found.value.Receipt? && found.value.ok {
      ReplayForeseen(a, d, u, s, found.value.result);
    } else if !w.bound(u.id, t) {
      FrameworkForeseen(a, w, d, s, s, u, Fresh, MemoOf(FrameworkFailure(w, d, s, u.id).st.entries, u));
    } else {
      ActForeseen(a, w, d, t, u, s);
    }
  }

  /** A replayed unit. */
  lemma ReplayForeseen(a: Plan, d: nat, u: Unit, s: State, value: Value)
    ensures Covers(a, Exec(u, Settled(IsTruthy(value))), MarkOf(s), ExecutorHalts.Since(s, s, d), Result(Ok(value), s),
                   Settled(IsTruthy(value)))
  {
    ExecutorHalts.SinceSame(s, s, d);
  }

  /** A node's action. */
  lemma ActForeseen(a: Plan, w: World, d: nat, t: nat, u: Unit, s: State)
    requires Allowed(a, w) && u.body.Leaf? && w.bound(u.id, t)
    requires !(FindReceipt(s.entries, u.id).Some? && FindReceipt(s.entries, u.id).value.Receipt?
               && FindReceipt(s.entries, u.id).value.ok)
    ensures var r := Node(w, d, t, u, s);
            Covers(a, Exec(u, Fresh), MarkOf(s), ExecutorHalts.Since(s, r.st, d), r, MemoOf(r.st.entries, u))
  {
    hide FindReceipt, MemoOf, Raised, Submit, Flipped, ExecutorHalts.Sum, Allowed;
    var act, r, m := w.act(u.id, t), Node(w, d, t, u, s), MarkOf(s);
    var sub := Submit(w, s, u.id, act.flips);
    assert ConductOf(act) in a.may(u.id) && w.root == a.root && w.policies == a.policies by {
      ActAllowed(a, w, u.id, t);
    }
    SubmitGrew(w, s, u.id, act.flips);
    SubmitFlips(a, w, s, u.id, act.flips);
    ExecutorHalts.SinceSame(s, s, d);
    if !sub.ok {
      ExecutorHalts.SinceLogged(s, sub.st, [Crashed(d)], d);
      ExecutorHalts.SumOne(Crashed(d), d);
      assert CanReject(a, u.id, m);
    } else {
      assert Acts(a, u.id, m, act.verdict.Refused?, MarkOf(r.st));
      match act.verdict
      case Returned(value) =>
        ReceiptMemo(s.entries, u, true, value, act.undo);
        ExecutorHalts.SinceLogged(s, s, [Acted(d, u.id, true, act.undo)], d);
        ExecutorHalts.SumOne(Acted(d, u.id, true, act.undo), d);
      case Refused(err) =>
        ReceiptMemo(s.entries, u, false, Nil, act.undo);
        RefusedForeseen(a, d, u, s, r, err, act.undo);
    }
  }

  lemma ActAllowed(a: Plan, w: World, x: nat, t: nat)
    requires Allowed(a, w)
    ensures ConductOf(w.act(x, t)) in a.may(x) && w.root == a.root && w.policies == a.policies
    ensures w.bound(x, t) || a.loose(x)
  {
  }

  lemma RefusedForeseen(a: Plan, d: nat, u: Unit, s: State, r: Result, err: Err, undo: bool)
    requires u.body.Leaf? && Acts(a, u.id, MarkOf(s), true, MarkOf(r.st)) && r.out == Fail(Wrap(err))
    requires r.st.log == s.log + ([Acted(d, u.id, false, undo)] + Raised(d, err))
    ensures s.log <= r.st.log && Covers(a, Exec(u, Fresh), MarkOf(s), ExecutorHalts.Since(s, r.st, d), r, Fresh)
  {
    hide Raised, ExecutorHalts.Sum, Acts;
    var events := [Acted(d, u.id, false, undo)] + Raised(d, err);
    ExecutorHalts.RaisedSums(d, err);
    ExecutorHalts.SumConcat([Acted(d, u.id, false, undo)], Raised(d, err), d);
    ExecutorHalts.SumOne(Acted(d, u.id, false, undo), d);
    assert r.st.log[|s.log|..] == events;
  }

  lemma {:induction false} SubgraphForeseen(a: Plan, w: World, d: nat, t: nat, u: Unit, s: State)
    requires u.body.Scope? && Allowed(a, w) && Proper(u) && Tidy(s.entries, u)
    ensures var r := Subgraph(w, d, t, u, s);
            Covers(a, Exec(u, MemoOf(s.entries, u)), MarkOf(s), ExecutorHalts.Since(s, r.st, d), r,
                   MemoOf(r.st.entries, u))
    decreases u, 0, 0
  {
    hide Covers, Allowed, Proper, Tidy, AllTidy, MemoOf, MemosOf, FrameworkFailure, Walk, Leave, ExecTo,
         ExecutorHalts.Sum, ExecutorHalts.Told, Undos, ExecutorStack.Settled, AllSettled;
    var prior, p := FindNested(s.entries, u.id), MemoOf(s.entries, u);
    ProperParts(u);
    ScopeMemo(s.entries, u);
    ActAllowed(a, w, u.id, t);
    if prior.Some? && !prior.value.failed {
      ReplayForeseen(a, d, u, s, prior.value.result);
    } else {
      var adopted := if prior.Some? then prior.value.entries else [];
      var s1 := if prior.Some? then s.(entries := Supersede(s.entries, u.id)) else s;
      Entering(u, s.entries, prior, adopted, s1.entries);
      EmptyMemos(u.body.children);
      GoneMemo(u, s1.entries, Receipt(u.id, false, Nil, false));
      DroppedSum(d, s, s1, prior);
      if !w.bound(u.id, t) {
        var lost := Log(s1, Dropped(d, prior));
        FrameworkForeseen(a, w, d, s, lost, u, p, MemoOf(FrameworkFailure(w, d, lost, u.id).st.entries, u));
      } else if !w.claims(t) {
        ClaimsForeseen(a, d, u, p, s, s1, prior);
      } else {
        var child := Child(s1, adopted);
        assert MemosOf(adopted, u.body.children) == Inner(p, u.body.children);
        WalkForeseen(a, w, d, u.body.children, Nil, child);
        ExecutorHalts.WalkTells(w, d, u.body.children, Nil, child);
        var walked := Walk(w, d, u.body.children, Nil, child);
        LeaveForeseen(a, w, d, u, p, s1, child, walked);
        var left := Leave(w, d, u.id, s1, walked).st;
        assert ExecutorHalts.Since(s, left, d) == ExecutorHalts.Since(s1, left, d);
      }
    }
  }

  lemma DroppedSum(d: nat, s: State, s1: State, prior: Option<Stack>)
    requires s1.log == s.log
    ensures ExecutorHalts.Since(s, Log(s1, Dropped(d, prior)), d) == ExecutorHalts.NOTHING
  {
    ExecutorHalts.SinceLogged(s, s1, Dropped(d, prior), d);
    ExecutorHalts.SumDropped(d, prior);
  }

  lemma CanRefuse(a: Plan, u: Unit, p: Memo, m: Mark)
    requires u.body.Scope? && !p.Settled?
    ensures ExecTo(a, u, p, m, Soft, Fresh, m)
  {
    hide WalkTo;
  }

  lemma ClaimsForeseen(a: Plan, d: nat, u: Unit, p: Memo, s: State, s1: State, prior: Option<Stack>)
    requires u.body.Scope? && s1.log == s.log && MarkOf(s1) == MarkOf(s) && !p.Settled?
    ensures var r := Result(Fail(Wrap(Dispatch(PreflightFailed, Plain, false))),
                            Log(Push(s1, Receipt(u.id, false, Nil, false)),
                                Dropped(d, prior) + [Stamped(d, PreflightFailed)]));
            Covers(a, Exec(u, p), MarkOf(s), ExecutorHalts.Since(s, r.st, d), r, Fresh)
  {
    hide ExecTo, ExecutorHalts.Sum, Undos;
    CanRefuse(a, u, p, MarkOf(s));
    ExecutorHalts.SinceSame(s, s1, d);
    ExecutorHalts.SinceLogged(s, s1, Dropped(d, prior) + [Stamped(d, PreflightFailed)], d);
    ExecutorHalts.SumDropped(d, prior);
    assert !Is(Plain, ErrPaused);
  }

  lemma WrapKeeps(e: Err)
    ensures IsPaused(Wrap(e)) == IsPaused(e) && IsHard(Wrap(e)) == IsHard(e)
  {
  }

  lemma WalkEnded(a: Plan, unit: nat, children: seq<Unit>, inner: seq<Memo>, m: Mark, x: Exit, ms: Memo, k: Mark)
    requires WalkTo(a, children, inner, START, false, x, ms, k)
    ensures !Undercuts(k.condition, m.condition) ==>
              WalkEnds(a, unit, children, inner, m, x, Bubbled(a, unit, m, k.condition))
    ensures Undercuts(k.condition, m.condition) ==>
              (x.Parked? ==> WalkUndercuts(a, children, inner, m, true))
              && (x.Parked? || x.Done? ==> WalkUndercuts(a, children, inner, m, false))
  {
    hide WalkTo, Undercuts, Bubbled;
  }

  /** What a scope's walk makes of the scope. */
  lemma WalkMakes(a: Plan, u: Unit, p: Memo, m: Mark, x: Exit, ms: Memo, k: Mark)
    requires u.body.Scope? && !p.Settled?
    requires WalkTo(a, u.body.children, Inner(p, u.body.children), START, false, x, ms, k)
    ensures x.Soft? && ms.Partial? && k == START ==> ExecTo(a, u, p, m, Soft, ms, m)
    ensures x.Fell? && ms == Fresh && k == START ==> ExecTo(a, u, p, m, x, Fresh, START)
    ensures x.Done? && !Undercuts(k.condition, m.condition) ==>
              ExecTo(a, u, p, m, x, Settled(x.truthy), Bubbled(a, u.id, m, k.condition))
    ensures x.Parked? && !Undercuts(k.condition, m.condition) ==>
              ExecTo(a, u, p, m, x, Fresh, Bubbled(a, u.id, m, k.condition))
    ensures (x.Done? || x.Parked?) && Undercuts(k.condition, m.condition) ==>
              ExecTo(a, u, p, m, Fell(false), Fresh, START)
    ensures x.Parked? && Undercuts(k.condition, m.condition) ==> ExecTo(a, u, p, m, Fell(true), Fresh, START)
  {
    hide WalkTo, WalkEnds, WalkUndercuts, Undercuts, Bubbled;
    WalkEnded(a, u.id, u.body.children, Inner(p, u.body.children), m, x, ms, k);
  }

  /** Telling the parent goes as the analysis says. */
  lemma Telling(a: Plan, w: World, s2: State, unit: nat, c: State)
    requires forall x :: PolicyFor(w, x) == PolicyIn(a.root, a.policies, x)
    ensures var told := Transition(w, s2, unit, c.condition, c.reason);
            && (c.condition != Healthy ==> (told.None? <==> Undercuts(c.condition, s2.condition)))
            && (c.condition == Healthy ==> !Undercuts(c.condition, s2.condition)
                                           && Bubbled(a, unit, MarkOf(s2), c.condition) == MarkOf(s2))
            && (c.condition != Healthy && told.Some? ==>
                  && MarkOf(told.value) == Bubbled(a, unit, MarkOf(s2), c.condition)
                  && told.value.log == s2.log && told.value.entries == s2.entries)
  {
    hide PolicyFor, PolicyIn;
  }

  /** The child's told condition is refused by its parent. */
  predicate Rejected(own: State, walked: Result) {
    Tells(walked.out) && Undercuts(walked.st.condition, own.condition)
  }

  /** What leaving a scope adds to the history, and what it returns. */
  lemma LeaveSplits(a: Plan, w: World, d: nat, u: Unit, s1: State, child: State, walked: Result)
    requires u.body.Scope? && forall x :: PolicyFor(w, x) == PolicyIn(a.root, a.policies, x)
    requires child.log == s1.log && child.log <= walked.st.log
    ensures var r, s := Leave(w, d, u.id, s1, walked), ExecutorHalts.Since(child, walked.st, d);
            && s1.log <= r.st.log && r.st.tick == walked.st.tick
            && var v := ExecutorHalts.Since(s1, r.st, d);
            && (walked.out.Panic? ==> r.out.Panic? && v.crash == s.crash && v.lost == s.lost)
            && (Rejected(s1, walked) ==> r.out.Panic? && v.crash && v.lost == (s.lost || s.pause))
            && (!walked.out.Panic? && !Rejected(s1, walked) ==>
                 && v == s && !r.out.Panic? && (r.out.Ok? <==> walked.out.Ok?)
                 && (r.out.Ok? ==> r.out == walked.out)
                 && (r.out.Fail? ==> r.out.err == Wrap(walked.out.err))
                 && MarkOf(r.st) == (if Tells(walked.out) then Bubbled(a, u.id, MarkOf(s1), walked.st.condition)
                                     else MarkOf(s1))
                 && r.st.entries == s1.entries + [Nested(Stack(u.id, if r.out.Ok? then r.out.value else Nil,
                                                               r.out.Fail?, walked.st.entries))])
  {
    hide ExecutorHalts.Sum, Undos, IsPaused, Transition, Undercuts, Bubbled;
    var c := walked.st;
    var s2 := s1.(tick := c.tick, log := c.log);
    Telling(a, w, s2, u.id, c);
    LeaveSums(d, s1, s2, child, c);
    var r := Leave(w, d, u.id, s1, walked);
    if !walked.out.Panic? && !Rejected(s1, walked) {
      assert r.st.log == s2.log;
    }
  }

  lemma LeaveSums(d: nat, s1: State, s2: State, child: State, c: State)
    requires child.log == s1.log && child.log <= c.log == s2.log
    ensures var s, lost := ExecutorHalts.Since(child, c, d), Lost(d, Undos(c.entries));
            && ExecutorHalts.Since(s1, s2, d) == s
            && (forall t: State :: t.log == s2.log + [lost] ==>
                 ExecutorHalts.Since(s1, t, d).crash == s.crash && ExecutorHalts.Since(s1, t, d).lost == s.lost)
            && (forall t: State :: t.log == s2.log + [lost, Crashed(d)] ==>
                 ExecutorHalts.Since(s1, t, d).crash && ExecutorHalts.Since(s1, t, d).lost == (s.lost || s.pause))
  {
    hide Undos, ExecutorHalts.Sum;
    var lost := Lost(d, Undos(c.entries));
    ExecutorHalts.SinceLogged(s1, s2, [lost], d);
    ExecutorHalts.SumOne(lost, d);
    ExecutorHalts.SinceLogged(s1, s2, [lost, Crashed(d)], d);
    ExecutorHalts.SumTwo(lost, Crashed(d), d);
    forall t: State | t.log == s2.log + [lost]
      ensures ExecutorHalts.Since(s1, t, d) == ExecutorHalts.Since(s1, Log(s2, [lost]), d)
    {
    }
    forall t: State | t.log == s2.log + [lost, Crashed(d)]
      ensures ExecutorHalts.Since(s1, t, d) == ExecutorHalts.Since(s1, Log(s2, [lost, Crashed(d)]), d)
    {
    }
  }

  lemma {:induction false} LeaveForeseen(a: Plan, w: World, d: nat, u: Unit, p: Memo, s1: State, child: State,
                                         walked: Result)
    requires u.body.Scope? && Allowed(a, w) && !p.Settled?
    requires child.log == s1.log && child.log <= walked.st.log && MarkOf(child) == START
    requires var s := ExecutorHalts.Since(child, walked.st, d);
             && Covers(a, Walking(u.body.children, Inner(p, u.body.children), false), START, s, walked,
                       Partial(MemosOf(walked.st.entries, u.body.children)))
             && ExecutorHalts.Told(s, walked.out)
    ensures var r := Leave(w, d, u.id, s1, walked);
            && s1.log <= r.st.log
            && Covers(a, Exec(u, p), MarkOf(s1), ExecutorHalts.Since(s1, r.st, d), r, MemoOf(r.st.entries, u))
  {
    hide WalkTo, ExecTo, MemoOf, MemosOf, ExecutorHalts.Sum, Undos, IsPaused, IsHard, Allowed, Inner, Transition,
         Undercuts, Bubbled, Leave, ExecutorHalts.Combine;
    SameBudget(a, w, u);
    var c, k, m := walked.st, MarkOf(walked.st), MarkOf(s1);
    var ms, s := Partial(MemosOf(c.entries, u.body.children)), ExecutorHalts.Since(child, c, d);
    LeaveSplits(a, w, d, u, s1, child, walked);
    if s.crash {
      WalkMakes(a, u, p, m, Fell(false), Fresh, START);
    }
    if s.lost {
      WalkMakes(a, u, p, m, Fell(true), Fresh, START);
    }
    if walked.out.Ok? {
      WalkMakes(a, u, p, m, Done(IsTruthy(walked.out.value)), ms, k);
      NestedMemo(u, s1.entries, Stack(u.id, walked.out.value, false, c.entries));
    } else if walked.out.Fail? {
      WrapKeeps(walked.out.err);
      NestedMemo(u, s1.entries, Stack(u.id, Nil, true, c.entries));
      if IsPaused(walked.out.err) {
        WalkMakes(a, u, p, m, Parked, Fresh, k);
      } else if ExecutorHalts.Ordinary(walked.out.err) {
        WalkMakes(a, u, p, m, Soft, ms, START);
      }
    }
  }

  // ----- Walks -----

  lemma {:induction false} DispatchedForeseen(a: Plan, w: World, d: nat, u: Unit, st: State)
    requires Allowed(a, w) && Proper(u) && Tidy(st.entries, u)
    ensures var r := Dispatched(w, d, u, st);
            Covers(a, Loop(u, MemoOf(st.entries, u), 0), MarkOf(st), ExecutorHalts.Since(st, r.st, d), r,
                   MemoOf(r.st.entries, u))
    decreases u, 2 + Left(w, u, 0), 0
  {
    AttemptsForeseen(a, w, d, u, st, 0, Nothing);
  }

  lemma {:induction false} WalkForeseen(a: Plan, w: World, d: nat, units: seq<Unit>, last: Value, st: State)
    requires Allowed(a, w) && AllProper(units) && AllDistinct(units) && AllTidy(st.entries, units)
    ensures var r := Walk(w, d, units, last, st);
            Covers(a, Walking(units, MemosOf(st.entries, units), IsTruthy(last)), MarkOf(st),
                   ExecutorHalts.Since(st, r.st, d), r, Partial(MemosOf(r.st.entries, units)))
    decreases units, 0, 0
  {
    hide Allowed, Proper, Tidy, AllTidy, Covers, To, WalkTo, LoopTo, ExecutorHalts.Sum, ExecutorHalts.Combine,
         ExecutorHalts.Told, Dispatched, IsPaused, Ledger, LedgerAll, MemoOf;
    var m, ms := MarkOf(st), MemosOf(st.entries, units);
    var at := Walking(units, ms, IsTruthy(last));
    if units == [] {
      WalkedNothing(a, d, last, st);
    } else {
      var u, rest := units[0], units[1..];
      FirstTidy(units, st.entries);
      DispatchedForeseen(a, w, d, u, st);
      ExecutorHalts.DispatchedTells(w, d, u, st);
      DispatchedLedger(w, d, u, st);
      var r, t := Dispatched(w, d, u, st), Walk(w, d, units, last, st);
      var q, s1 := MemoOf(r.st.entries, u), ExecutorHalts.Since(st, r.st, d);
      AfterFirst(d, units, st, r);
      LedgerParts(d, u, st, r);
      UntouchedMemos(rest, {u.id}, st.entries, r.st.entries);
      assert ms[1..] == MemosOf(r.st.entries, rest) && ms[0] == MemoOf(st.entries, u);
      WalkFirst(a, units, ms, m, IsTruthy(last), s1, r, q);
      if r.out.Ok? && !Completes(u) {
        WalkForeseen(a, w, d, rest, r.out.value, r.st);
        WalkLedger(w, d, rest, r.out.value, r.st);
        FrameOfRest(d, units, r, t);
        WalkGoesOn(a, units, ms, m, IsTruthy(last), IsTruthy(r.out.value), q, MarkOf(r.st),
                   ExecutorHalts.Since(r.st, t.st, d), t, Partial(MemosOf(t.st.entries, rest)));
        ExecutorHalts.SinceChain(st, r.st, t.st, d);
        Then(a, at, m, s1, ExecutorHalts.Since(r.st, t.st, d), r.out, t, Partial(MemosOf(t.st.entries, units)));
      } else {
        WalkStopped(a, at, m, s1, r, t, Partial(MemosOf(r.st.entries, units)));
      }
    }
  }

  lemma WalkedNothing(a: Plan, d: nat, last: Value, st: State)
    ensures Covers(a, Walking([], [], IsTruthy(last)), MarkOf(st), ExecutorHalts.Since(st, st, d), Result(Ok(last), st),
                   Partial([]))
  {
    ExecutorHalts.SinceSame(st, st, d);
  }

  lemma FirstTidy(units: seq<Unit>, entries: seq<Entry>)
    requires units != [] && AllDistinct(units) && AllTidy(entries, units)
    ensures Distinct(units[0]) && Tidy(entries, units[0]) && AllDistinct(units[1..])
    ensures units[0].id in Ids(units[0]) && Ids(units[0]) !! AllIds(units[1..])
  {
    hide Tidy;
  }

  lemma LedgerParts(d: nat, u: Unit, st: State, r: Result)
    requires Ledger(d, u, st, r)
    ensures FrameAll({u.id}, st.entries, r.st.entries)
  {
    hide Tidy, Accounts;
  }

  /** The rest of a walk leaves the first unit's entries alone. */
  lemma FrameOfRest(d: nat, units: seq<Unit>, r: Result, t: Result)
    requires units != [] && AllDistinct(units) && LedgerAll(d, units[1..], r.st, t)
    ensures MemoOf(t.st.entries, units[0]) == MemoOf(r.st.entries, units[0])
  {
    hide AllTidy, Accounts;
    assert units[0].id in Ids(units[0]);
    SameMemo(r.st.entries, t.st.entries, units[0]);
  }

  /** What the first unit of a walk leads to. */
  lemma WalkFirst(a: Plan, units: seq<Unit>, ms: seq<Memo>, m: Mark, truthy: bool, s: ExecutorHalts.Summary, r: Result,
                  q: Memo)
    requires units != [] && |ms| == |units| && Covers(a, Loop(units[0], ms[0], 0), m, s, r, q)
    ensures var at := Walking(units, ms, truthy);
            && (!r.out.Ok? || Completes(units[0]) ==> Covers(a, at, m, s, r, Partial([q] + ms[1..])))
            && (s.crash ==> To(a, at, m, Fell(false), Fresh, START))
            && (s.lost ==> To(a, at, m, Fell(true), Fresh, START))
            && (r.out.Ok? ==> LoopTo(a, units[0], ms[0], m, 0, Done(IsTruthy(r.out.value)), q, MarkOf(r.st)))
  {
    hide LoopTo, WalkTo, IsPaused, ExecutorHalts.Ordinary;
    WalkEndsAt(a, units, ms, m, truthy);
  }

  lemma WalkEndsAt(a: Plan, units: seq<Unit>, ms: seq<Memo>, m: Mark, truthy: bool)
    requires units != [] && |ms| == |units|
    ensures forall x, r, n :: LoopTo(a, units[0], ms[0], m, 0, x, r, n) && (x.Done? ==> Completes(units[0])) ==>
              WalkTo(a, units, ms, m, truthy, x, if HaltsSo(x) then r else Partial([r] + ms[1..]), n)
  {
    hide LoopTo;
    forall x, r, n | LoopTo(a, units[0], ms[0], m, 0, x, r, n) && (x.Done? ==> Completes(units[0]))
      ensures WalkTo(a, units, ms, m, truthy, x, if HaltsSo(x) then r else Partial([r] + ms[1..]), n)
    {
      assert EndsWalk(units[0], ms, x, if HaltsSo(x) then r else Partial([r] + ms[1..]), r);
    }
  }

  /** The rest of a walk behind its first unit. */
  lemma WalkGoesOn(a: Plan, units: seq<Unit>, ms: seq<Memo>, m: Mark, truthy: bool, t: bool, q: Memo, k: Mark,
                   s: ExecutorHalts.Summary, r: Result, rest: Memo)
    requires units != [] && |ms| == |units| && !Completes(units[0]) && rest.Partial?
    requires LoopTo(a, units[0], ms[0], m, 0, Done(t), q, k)
    requires Covers(a, Walking(units[1..], ms[1..], t), k, s, r, rest)
    ensures Covers(a, Walking(units, ms, truthy), m, s, r, Partial([q] + rest.inner))
  {
    hide LoopTo, WalkTo, IsPaused, ExecutorHalts.Ordinary;
    WalkPrepends(a, units, ms, m, truthy, t, q, k);
  }

  lemma WalkPrepends(a: Plan, units: seq<Unit>, ms: seq<Memo>, m: Mark, truthy: bool, t: bool, q: Memo, k: Mark)
    requires units != [] && |ms| == |units| && !Completes(units[0])
    requires LoopTo(a, units[0], ms[0], m, 0, Done(t), q, k)
    ensures forall x, rest, n :: WalkTo(a, units[1..], ms[1..], k, t, x, rest, n) ==>
              WalkTo(a, units, ms, m, truthy, x, Prepend(q, rest), n)
  {
    hide LoopTo;
    forall x, rest, n | WalkTo(a, units[1..], ms[1..], k, t, x, rest, n)
      ensures WalkTo(a, units, ms, m, truthy, x, Prepend(q, rest), n)
    {
      assert LoopTo(a, units[0], ms[0], m, 0, Done(t), q, k) && Prepend(q, rest) == Prepend(q, rest)
          && WalkTo(a, units[1..], ms[1..], k, t, x, rest, n);
    }
  }

  lemma WalkStopped(a: Plan, at: Point, m: Mark, s: ExecutorHalts.Summary, r: Result, t: Result, after: Memo)
    requires Covers(a, at, m, s, r, after) && t.st == r.st && !at.Exec?
    requires if r.out.Fail? then t.out == Fail(Wrap(r.out.err)) else t.out == r.out
    ensures Covers(a, at, m, s, t, after)
  {
    hide To, IsPaused, IsHard;
    if r.out.Fail? {
      WrapKeeps(r.out.err);
    }
  }
}
