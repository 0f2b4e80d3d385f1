/**
 Where a run can meet a failed assertion, told from the tree, the policies, what each driver does, and what is on the
 stack.

 A mark is an executor's condition and pending reaction; a memo is what a stack knows of a unit.  Mutually recursive
 predicates say which marks and memos a dispatch can lead to, and how it can end.  Every existential in them ranges over
 the twelve marks, the memos that fit the tree and the conducts of one driver, so they can be computed before a run.
 That they cover every run is proved in `ExecutorCrash`, and that nothing they say is impossible in `ExecutorWitness`.
 */
module ExecutorPlans {
  import opened Options
  import opened RunStatus
  import opened Recovery
  import opened Executor

  /** One way a driver's call can go: the conditions it submits, in order, and whether it then returns an error. */
  datatype Conduct = Conduct(flips: seq<Condition>, fails: bool)

  function Conditions(flips: seq<Submission>): seq<Condition> {
    if flips == [] then [] else [flips[0].condition] + Conditions(flips[1..])
  }

  function ConductOf(act: Act): Conduct {
    Conduct(Conditions(act.flips), act.verdict.Refused?)
  }

  /**
   What is known before a run: the policies, how each unit's driver can conduct itself, and whose action may not
   resolve.
   */
  datatype Plan = Plan(
    root: nat,
    policies: map<nat, TransitionPolicy>,
    may: nat -> set<Conduct>,
    loose: nat -> bool)

  /** The worlds of a plan: nothing else about them is restricted. */
  ghost predicate Allowed(a: Plan, w: World) {
    && w.root == a.root && w.policies == a.policies
    && (forall x: nat, t: nat :: ConductOf(w.act(x, t)) in a.may(x))
    && (forall x: nat, t: nat :: w.bound(x, t) || a.loose(x))
  }

  /** Every driver does something. */
  ghost predicate Possible(a: Plan) {
    forall x: nat :: a.may(x) != {}
  }

  /** A context that is cancelled stays so. */
  ghost predicate Steady(w: World) {
    forall s: nat, t: nat :: s <= t && (w.cancelled(s) || w.cut(s)) ==> w.cancelled(t)
  }

  // ----- Marks -----

  datatype Mark = Mark(condition: Condition, pending: Reaction)

  const START := Mark(Healthy, Continue)

  function MarkOf(st: State): Mark {
    Mark(st.condition, st.pending)
  }

  /** The mark after an accepted flip. */
  function Hit(a: Plan, unit: nat, m: Mark, c: Condition): Mark {
    if c == m.condition then m
    else Mark(c, Worse(m.pending, PolicyIn(a.root, a.policies, unit).ReactionFor(c)))
  }

  /** The mark after the flips, None when one is rejected. */
  function Flipped(a: Plan, unit: nat, m: Mark, flips: seq<Condition>): Option<Mark>
    decreases |flips|
  {
    if flips == [] then Some(m)
    else if flips[0].Rank() < m.condition.Rank() then None
    else Flipped(a, unit, Hit(a, unit, m, flips[0]), flips[1..])
  }

  /** A call of the unit's driver can lead from one mark to the other. */
  ghost predicate Acts(a: Plan, unit: nat, m: Mark, fails: bool, n: Mark) {
    exists q :: q in a.may(unit) && q.fails == fails && Flipped(a, unit, m, q.flips) == Some(n)
  }

  /** A call of the unit's driver can submit a flip below the condition. */
  ghost predicate CanReject(a: Plan, unit: nat, m: Mark) {
    exists q :: q in a.may(unit) && Flipped(a, unit, m, q.flips).None?
  }

  /** The condition a scope tells its parent is worse than nothing and below the parent's own. */
  predicate Undercuts(told: Condition, own: Condition) {
    told != Healthy && told.Rank() < own.Rank()
  }

  /** The parent's mark after it was told. */
  function Bubbled(a: Plan, unit: nat, m: Mark, told: Condition): Mark {
    if told == Healthy then m else Hit(a, unit, m, told)
  }

  // ----- Memos -----

  /** What a stack knows of a unit: nothing, a result to replay, or a failed scope to adopt. */
  datatype Memo = Fresh | Settled(truthy: bool) | Partial(inner: seq<Memo>)

  function MemoOf(entries: seq<Entry>, u: Unit): Memo
    decreases u
  {
    match u.body
    case Leaf(_) =>
      var found := FindReceipt(About(entries, u.id), u.id);
      if found.Some? && found.value.Receipt? && found.value.ok then Settled(IsTruthy(found.value.result)) else Fresh
    case Scope(children) =>
      match FindNested(About(entries, u.id), u.id)
      case None => Fresh
      case Some(stack) =>
        if stack.failed then Partial(MemosOf(stack.entries, children)) else Settled(IsTruthy(stack.result))
  }

  function MemosOf(entries: seq<Entry>, units: seq<Unit>): (ms: seq<Memo>)
    ensures |ms| == |units|
    decreases units
  {
    if units == [] then [] else [MemoOf(entries, units[0])] + MemosOf(entries, units[1..])
  }

  function AllFresh(n: nat): (ms: seq<Memo>)
    ensures |ms| == n
  {
    if n == 0 then [] else [Fresh] + AllFresh(n - 1)
  }

  /** What a scope's walk starts from. */
  function Inner(p: Memo, children: seq<Unit>): (ms: seq<Memo>)
    ensures |ms| == |children|
  {
    if p.Partial? && |p.inner| == |children| then p.inner else AllFresh(|children|)
  }

  /** The memo of the first unit before those of the rest. */
  function Prepend(p: Memo, rest: Memo): Memo {
    if rest.Partial? then Partial([p] + rest.inner) else Fresh
  }

  // ----- The analysis -----

  /**
   How a dispatch can end: with a value, with a failure that another attempt may answer, parked by a pause, or over a
   failed assertion, `behind` a pause or not.  A hard failure ends the run or the handler around it and leads nowhere.
   Memos matter after the first two only, and are `Fresh` otherwise; where the mark does not matter it is `START`.
   */
  datatype Exit = Done(truthy: bool) | Soft | Parked | Fell(behind: bool)

  /** One execution of a unit. */
  ghost predicate ExecTo(a: Plan, u: Unit, p: Memo, m: Mark, x: Exit, q: Memo, n: Mark)
    decreases u, 0, 1
  {
    if p.Settled? then Replays(p, m, x, q, n)
    else
      match u.body
      case Leaf(_) => LeafTo(a, u.id, p, m, x, q, n)
      case Scope(children) => ScopeTo(a, u.id, children, p, m, x, q, n)
  }

  /** A settled unit meets its control point, and is not executed again. */
  predicate Replays(p: Memo, m: Mark, x: Exit, q: Memo, n: Mark)
    requires p.Settled?
  {
    n == m && match x
      case Done(t) => t == p.truthy && q == p
      case Soft => q == p
      case Parked => q == Fresh
      case Fell(_) => false
  }

  /** A node; at `compensation_failed` even the framework's own flip is rejected. */
  ghost predicate LeafTo(a: Plan, unit: nat, p: Memo, m: Mark, x: Exit, q: Memo, n: Mark) {
    match x
    case Done(t) => q == Settled(t) && Acts(a, unit, m, false, n)
    case Soft => (q == p && n == m) || (q == Fresh && Acts(a, unit, m, true, n))
    case Parked => q == Fresh && (n == m || Acts(a, unit, m, true, n))
    case Fell(behind) =>
      && !behind && q == Fresh && n == START
      && (CanReject(a, unit, m) || (m.condition == CompensationFailed && a.loose(unit)))
  }

  /** A scope: stopped or refused at its door, or walked. */
  ghost predicate ScopeTo(a: Plan, unit: nat, children: seq<Unit>, p: Memo, m: Mark, x: Exit, q: Memo, n: Mark)
    decreases children, 0, 2
  {
    var inner := Inner(p, children);
    match x
    case Done(t) => q == Settled(t) && WalkEnds(a, unit, children, inner, m, x, n)
    case Soft =>
      n == m && (q == p || q == Fresh || (q.Partial? && WalkTo(a, children, inner, START, false, Soft, q, START)))
    case Parked => q == Fresh && (n == m || WalkEnds(a, unit, children, inner, m, x, n))
    case Fell(behind) =>
      && q == Fresh && n == START
      && (|| WalkTo(a, children, inner, START, false, x, Fresh, START)
          || (!behind && m.condition == CompensationFailed && a.loose(unit))
          || WalkUndercuts(a, children, inner, m, behind))
  }

  /** A walk that told its parent, and was not rejected. */
  ghost predicate WalkEnds(a: Plan, unit: nat, children: seq<Unit>, inner: seq<Memo>, m: Mark, x: Exit, n: Mark)
    decreases children, 0, 1
  {
    exists k, ms :: WalkTo(a, children, inner, START, false, x, ms, k) && !Undercuts(k.condition, m.condition)
                    && n == Bubbled(a, unit, m, k.condition)
  }

  /** A walk that told its parent, and was rejected. */
  ghost predicate WalkUndercuts(a: Plan, children: seq<Unit>, inner: seq<Memo>, m: Mark, behind: bool)
    decreases children, 0, 1
  {
    exists y: Exit, k, ms :: (y.Parked? || (y.Done? && !behind)) && WalkTo(a, children, inner, START, false, y, ms, k)
                             && Undercuts(k.condition, m.condition)
  }

  function Budget(a: Plan, u: Unit): int {
    TriesIn(a.root, u)
  }

  function Spare(a: Plan, u: Unit, attempt: nat): nat {
    if attempt < Budget(a, u) then Budget(a, u) - attempt else 0
  }

  /** The retry loop from the given attempt on. */
  ghost predicate LoopTo(a: Plan, u: Unit, p: Memo, m: Mark, attempt: nat, x: Exit, q: Memo, n: Mark)
    decreases u, 1 + Spare(a, u, attempt), 1
  {
    if attempt >= Budget(a, u) then RescueTo(a, u, p, m, x, q, n)
    else
      || (exists y, r :: EndsLoop(x, y, q, r, n) && ExecTo(a, u, p, m, y, r, n))
      || (exists r, k :: ExecTo(a, u, p, m, Soft, r, k) && NextTo(a, u, r, k, attempt, x, q, n))
  }

  /** An execution that ends as `y` ends the loop as `x`. */
  predicate EndsLoop(x: Exit, y: Exit, q: Memo, r: Memo, n: Mark) {
    match y
    case Done(_) => (x == y && q == r && n.pending == Continue) || (x.Parked? && q == Fresh && n.pending == Pause)
    case Soft => false
    case _ => x == y && q == r
  }

  /** After a failure that may be answered: OnRetry, on a stack of its own, when another attempt is left. */
  ghost predicate NextTo(a: Plan, u: Unit, p: Memo, m: Mark, attempt: nat, x: Exit, q: Memo, n: Mark)
    decreases u, 1 + Spare(a, u, attempt), 0
  {
    || (x.Soft? && q == p && n == START)
    || (attempt < Budget(a, u) &&
        if attempt + 1 < Budget(a, u) && u.onRetry.Some? then
          || (HaltsSo(x) && q == Fresh && Handled(a, u.onRetry.value, m, x, n))
          || (exists k :: Handled(a, u.onRetry.value, m, Done(true), k) && LoopTo(a, u, p, k, attempt + 1, x, q, n))
          || (exists k :: Handled(a, u.onRetry.value, m, Done(false), k) && RescueTo(a, u, p, k, x, q, n))
        else LoopTo(a, u, p, m, attempt + 1, x, q, n))
  }

  predicate HaltsSo(x: Exit) {
    x.Parked? || x.Fell?
  }

  /** A handler's execution; what it leaves on its own stack is dropped. */
  ghost predicate Handled(a: Plan, handler: Unit, m: Mark, x: Exit, n: Mark)
    decreases handler, 0, 2
  {
    exists q :: ExecTo(a, handler, Fresh, m, x, q, n)
  }

  /** A spent budget, or a veto: OnError, whose truthy value ends the dispatch whatever reaction is pending. */
  ghost predicate RescueTo(a: Plan, u: Unit, p: Memo, m: Mark, x: Exit, q: Memo, n: Mark)
    decreases u, 0, 2
  {
    || (x.Soft? && q == p && n == START)
    || (u.onError.Some? && (x == Done(true) || HaltsSo(x)) && q == (if x.Done? then p else Fresh)
        && Handled(a, u.onError.value, m, x, n))
  }

  /** The units in turn, `ms` their memos; `truthy`: the last value. */
  ghost predicate WalkTo(a: Plan, units: seq<Unit>, ms: seq<Memo>, m: Mark, truthy: bool, x: Exit, q: Memo, n: Mark)
    decreases units, 0, 0
  {
    if units == [] then x == Done(truthy) && q == Partial([]) && n == m
    else if |ms| != |units| then false
    else
      || (exists r :: EndsWalk(units[0], ms, x, q, r) && LoopTo(a, units[0], ms[0], m, 0, x, r, n))
      || (!Completes(units[0]) && exists k, t, r, rest ::
            LoopTo(a, units[0], ms[0], m, 0, Done(t), r, k) && q == Prepend(r, rest)
            && WalkTo(a, units[1..], ms[1..], k, t, x, rest, n))
  }

  predicate Completes(u: Unit) {
    u.body.Leaf? && u.body.completes
  }

  /** The first unit's end is the walk's. */
  predicate EndsWalk(u: Unit, ms: seq<Memo>, x: Exit, q: Memo, r: Memo)
    requires ms != []
  {
    (x.Done? ==> Completes(u)) && q == if HaltsSo(x) then r else Partial([r] + ms[1..])
  }

  /** A dispatch of the unit from the mark can meet a failed assertion. */
  ghost predicate CanCrash(a: Plan, u: Unit, p: Memo, m: Mark) {
    LoopTo(a, u, p, m, 0, Fell(false), Fresh, START)
  }

  /** It can meet one behind a pause, which is then lost. */
  ghost predicate CanLosePause(a: Plan, u: Unit, p: Memo, m: Mark) {
    LoopTo(a, u, p, m, 0, Fell(true), Fresh, START)
  }
}
