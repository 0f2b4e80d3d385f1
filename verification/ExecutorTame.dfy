/**
 Plans that need no analysis: conditions one can see at a glance under which no assertion fails and no pause is lost.
 */
module ExecutorTame {
  import opened Options
  import opened RunStatus
  import opened Executor
  import opened ExecutorPlans

  /**
   Dispatches that start at a condition in `safe` go on at one, and are parked at one in `told`; telling it never
   undercuts.  When `strict`, a node may leave `safe` if the reaction then ends the walk, so no node may be a handler.
   */
  ghost predicate Tame(a: Plan, safe: set<Condition>, told: set<Condition>, strict: bool) {
    && Healthy in safe && safe <= told && CompensationFailed !in safe
    && (forall c, k :: c in safe && k in told ==> !Undercuts(k, c))
    && (forall unit: nat, m: Mark, fails, n :: m.condition in safe && Acts(a, unit, m, fails, n) ==>
          Kept(safe, told, strict, fails, n))
    && (forall unit: nat, m: Mark :: m.condition in safe ==> !CanReject(a, unit, m))
  }

  predicate Kept(safe: set<Condition>, told: set<Condition>, strict: bool, fails: bool, n: Mark) {
    n.condition in told && (n.condition in safe || (strict && !fails && n.pending != Continue))
  }

  /** When `strict`, every handler of the tree is a scope, as all of the source's are. */
  predicate HandlersFit(u: Unit, strict: bool)
    decreases u
  {
    && (u.onRetry.Some? ==> HandlersFit(u.onRetry.value, strict) && (strict ==> u.onRetry.value.body.Scope?))
    && (u.onError.Some? ==> HandlersFit(u.onError.value, strict) && (strict ==> u.onError.value.body.Scope?))
    && (u.body.Scope? ==> AllFit(u.body.children, strict))
  }

  predicate AllFit(units: seq<Unit>, strict: bool)
    decreases units
  {
    units != [] ==> HandlersFit(units[0], strict) && AllFit(units[1..], strict)
  }

  /** Where a tame plan can be after each exit. */
  predicate Stays(safe: set<Condition>, told: set<Condition>, x: Exit, n: Mark) {
    match x
    case Done(_) => n.condition in safe
    case Soft => n.condition in safe
    case Parked => n.condition in told
    case Fell(_) => false
  }

  lemma TameParts(a: Plan, safe: set<Condition>, told: set<Condition>, strict: bool, unit: nat, m: Mark)
    requires Tame(a, safe, told, strict) && m.condition in safe
    ensures m.condition != CompensationFailed && !CanReject(a, unit, m) && Healthy in safe && safe <= told
    ensures forall k :: k in told ==> !Undercuts(k, m.condition)
    ensures forall fails, n :: Acts(a, unit, m, fails, n) ==> Kept(safe, told, strict, fails, n)
  {
  }

  lemma {:induction false} ExecStays(a: Plan, safe: set<Condition>, told: set<Condition>, strict: bool, u: Unit,
                                     p: Memo, m: Mark, x: Exit, q: Memo, n: Mark)
    requires Tame(a, safe, told, strict) && HandlersFit(u, strict) && m.condition in safe && ExecTo(a, u, p, m, x, q, n)
    ensures || Stays(safe, told, x, n)
            || (u.body.Leaf? && x.Done? && strict && n.condition in told && n.pending != Continue)
    decreases u, 0, 1
  {
    hide WalkTo, Tame, Acts, CanReject, Undercuts, WalkEnds, WalkUndercuts, Inner;
    TameParts(a, safe, told, strict, u.id, m);
    if !p.Settled? && u.body.Scope? {
      var children := u.body.children;
      var inner := Inner(p, children);
      assert ScopeTo(a, u.id, children, p, m, x, q, n);
      if (x.Done? || x.Parked?) && WalkEnds(a, u.id, children, inner, m, x, n) {
        EndsStay(a, safe, told, strict, u.id, children, inner, m, x, n);
      }
      if x.Fell? {
        if WalkTo(a, children, inner, START, false, x, Fresh, START) {
          WalkStays(a, safe, told, strict, children, inner, START, false, x, Fresh, START);
        } else {
          UndercutsNever(a, safe, told, strict, children, inner, m, x.behind);
        }
      }
    }
  }

  lemma {:induction false} EndsStay(a: Plan, safe: set<Condition>, told: set<Condition>, strict: bool, unit: nat,
                                    children: seq<Unit>, inner: seq<Memo>, m: Mark, x: Exit, n: Mark)
    requires Tame(a, safe, told, strict) && AllFit(children, strict) && m.condition in safe
    requires WalkEnds(a, unit, children, inner, m, x, n) && (x.Done? || x.Parked?)
    ensures Stays(safe, told, x, n)
    decreases children, 0, 1
  {
    hide WalkTo, Tame, Undercuts;
    TameParts(a, safe, told, strict, unit, m);
    var k, ms :| WalkTo(a, children, inner, START, false, x, ms, k) && !Undercuts(k.condition, m.condition)
                 && n == Bubbled(a, unit, m, k.condition);
    WalkStays(a, safe, told, strict, children, inner, START, false, x, ms, k);
  }

  lemma {:induction false} UndercutsNever(a: Plan, safe: set<Condition>, told: set<Condition>, strict: bool,
                                          children: seq<Unit>, inner: seq<Memo>, m: Mark, behind: bool)
    requires Tame(a, safe, told, strict) && AllFit(children, strict) && m.condition in safe
    ensures !WalkUndercuts(a, children, inner, m, behind)
    decreases children, 0, 1
  {
    hide WalkTo, Tame, Undercuts;
    TameParts(a, safe, told, strict, 0, m);
    forall y: Exit, k, ms | (y.Parked? || (y.Done? && !behind)) && WalkTo(a, children, inner, START, false, y, ms, k)
      ensures !Undercuts(k.condition, m.condition)
    {
      WalkStays(a, safe, told, strict, children, inner, START, false, y, ms, k);
    }
  }

  lemma {:induction false} LoopStays(a: Plan, safe: set<Condition>, told: set<Condition>, strict: bool, u: Unit,
                                     p: Memo, m: Mark, attempt: nat, x: Exit, q: Memo, n: Mark)
    requires Tame(a, safe, told, strict) && HandlersFit(u, strict) && m.condition in safe
    requires LoopTo(a, u, p, m, attempt, x, q, n)
    ensures Stays(safe, told, x, n)
    decreases u, 1 + Spare(a, u, attempt), 1
  {
    hide ExecTo, NextTo, RescueTo, Tame;
    TameParts(a, safe, told, strict, u.id, m);
    if attempt >= Budget(a, u) {
      RescueStays(a, safe, told, strict, u, p, m, x, q, n);
    } else if exists y, r :: EndsLoop(x, y, q, r, n) && ExecTo(a, u, p, m, y, r, n) {
      var y, r :| EndsLoop(x, y, q, r, n) && ExecTo(a, u, p, m, y, r, n);
      ExecStays(a, safe, told, strict, u, p, m, y, r, n);
    } else {
      var r, k :| ExecTo(a, u, p, m, Soft, r, k) && NextTo(a, u, r, k, attempt, x, q, n);
      ExecStays(a, safe, told, strict, u, p, m, Soft, r, k);
      NextStays(a, safe, told, strict, u, r, k, attempt, x, q, n);
    }
  }

  lemma {:induction false} NextStays(a: Plan, safe: set<Condition>, told: set<Condition>, strict: bool, u: Unit,
                                     p: Memo, m: Mark, attempt: nat, x: Exit, q: Memo, n: Mark)
    requires Tame(a, safe, told, strict) && HandlersFit(u, strict) && m.condition in safe
    requires NextTo(a, u, p, m, attempt, x, q, n)
    ensures Stays(safe, told, x, n)
    decreases u, 1 + Spare(a, u, attempt), 0
  {
    hide Handled, LoopTo, RescueTo, Tame;
    TameParts(a, safe, told, strict, u.id, m);
    if !(x.Soft? && q == p && n == START) {
      if attempt + 1 < Budget(a, u) && u.onRetry.Some? {
        var h := u.onRetry.value;
        if HaltsSo(x) && Handled(a, h, m, x, n) {
          HandledStays(a, safe, told, strict, h, m, x, n);
        } else if exists k :: Handled(a, h, m, Done(true), k) && LoopTo(a, u, p, k, attempt + 1, x, q, n) {
          var k :| Handled(a, h, m, Done(true), k) && LoopTo(a, u, p, k, attempt + 1, x, q, n);
          HandledStays(a, safe, told, strict, h, m, Done(true), k);
          LoopStays(a, safe, told, strict, u, p, k, attempt + 1, x, q, n);
        } else {
          var k :| Handled(a, h, m, Done(false), k) && RescueTo(a, u, p, k, x, q, n);
          HandledStays(a, safe, told, strict, h, m, Done(false), k);
          RescueStays(a, safe, told, strict, u, p, k, x, q, n);
        }
      } else {
        LoopStays(a, safe, told, strict, u, p, m, attempt + 1, x, q, n);
      }
    }
  }

  lemma {:induction false} HandledStays(a: Plan, safe: set<Condition>, told: set<Condition>, strict: bool, h: Unit,
                                        m: Mark, x: Exit, n: Mark)
    requires Tame(a, safe, told, strict) && HandlersFit(h, strict) && (strict ==> h.body.Scope?)
    requires m.condition in safe && Handled(a, h, m, x, n)
    ensures Stays(safe, told, x, n)
    decreases h, 0, 2
  {
    hide ExecTo, Tame;
    var q :| ExecTo(a, h, Fresh, m, x, q, n);
    ExecStays(a, safe, told, strict, h, Fresh, m, x, q, n);
  }

  lemma {:induction false} RescueStays(a: Plan, safe: set<Condition>, told: set<Condition>, strict: bool, u: Unit,
                                       p: Memo, m: Mark, x: Exit, q: Memo, n: Mark)
    requires Tame(a, safe, told, strict) && HandlersFit(u, strict) && m.condition in safe
    requires RescueTo(a, u, p, m, x, q, n)
    ensures Stays(safe, told, x, n)
    decreases u, 0, 2
  {
    hide Handled, Tame;
    TameParts(a, safe, told, strict, u.id, m);
    if !x.Soft? {
      HandledStays(a, safe, told, strict, u.onError.value, m, x, n);
    }
  }

  lemma {:induction false} WalkStays(a: Plan, safe: set<Condition>, told: set<Condition>, strict: bool,
                                     units: seq<Unit>, ms: seq<Memo>, m: Mark, truthy: bool, x: Exit, q: Memo, n: Mark)
    requires Tame(a, safe, told, strict) && AllFit(units, strict) && m.condition in safe
    requires WalkTo(a, units, ms, m, truthy, x, q, n)
    ensures Stays(safe, told, x, n)
    decreases units, 0, 0
  {
    hide LoopTo, Tame;
    if units != [] {
      if exists r :: EndsWalk(units[0], ms, x, q, r) && LoopTo(a, units[0], ms[0], m, 0, x, r, n) {
        var r :| EndsWalk(units[0], ms, x, q, r) && LoopTo(a, units[0], ms[0], m, 0, x, r, n);
        LoopStays(a, safe, told, strict, units[0], ms[0], m, 0, x, r, n);
      } else {
        var k, t, r, rest :| LoopTo(a, units[0], ms[0], m, 0, Done(t), r, k) && q == Prepend(r, rest)
                             && WalkTo(a, units[1..], ms[1..], k, t, x, rest, n);
        LoopStays(a, safe, told, strict, units[0], ms[0], m, 0, Done(t), r, k);
        WalkStays(a, safe, told, strict, units[1..], ms[1..], k, t, x, rest, n);
      }
    }
  }

  lemma TameNeverFalls(a: Plan, safe: set<Condition>, told: set<Condition>, strict: bool, u: Unit, p: Memo, m: Mark)
    requires Tame(a, safe, told, strict) && HandlersFit(u, strict) && m.condition in safe
    ensures !CanCrash(a, u, p, m) && !CanLosePause(a, u, p, m)
  {
    hide Tame, LoopTo;
    forall behind | LoopTo(a, u, p, m, 0, Fell(behind), Fresh, START) ensures false {
      LoopStays(a, safe, told, strict, u, p, m, 0, Fell(behind), Fresh, START);
    }
  }

  // ----- One condition -----

  /** Every driver of the plan submits one and the same condition, and not the last one. */
  ghost predicate OneCondition(a: Plan, c: Condition) {
    c != CompensationFailed
    && forall unit: nat, q :: q in a.may(unit) ==> forall i :: 0 <= i < |q.flips| ==> q.flips[i] == c
  }

  lemma {:induction false} FlipsOne(a: Plan, unit: nat, c: Condition, m: Mark, flips: seq<Condition>)
    requires (forall i :: 0 <= i < |flips| ==> flips[i] == c) && m.condition in {Healthy, c}
    ensures var f := Flipped(a, unit, m, flips); f.Some? && f.value.condition in {Healthy, c}
    decreases |flips|
  {
    if flips != [] {
      FlipsOne(a, unit, c, Hit(a, unit, m, flips[0]), flips[1..]);
    }
  }

  /** Where all drivers submit one condition and no other, no policy, retry or handler can make an assertion fail. */
  lemma OneConditionNeverFalls(a: Plan, c: Condition, u: Unit, p: Memo, m: Mark)
    requires OneCondition(a, c) && m.condition in {Healthy, c}
    ensures !CanCrash(a, u, p, m) && !CanLosePause(a, u, p, m)
  {
    hide LoopTo, Flipped;
    forall unit: nat, m: Mark, q | m.condition in {Healthy, c} && q in a.may(unit)
      ensures var f := Flipped(a, unit, m, q.flips); f.Some? && f.value.condition in {Healthy, c}
    {
      FlipsOne(a, unit, c, m, q.flips);
    }
    assert Tame(a, {Healthy, c}, {Healthy, c}, false);
    AnythingFits(u);
    TameNeverFalls(a, {Healthy, c}, {Healthy, c}, false, u, p, m);
  }

  lemma {:induction false} AnythingFits(u: Unit)
    ensures HandlersFit(u, false)
    decreases u, 0
  {
    if u.onRetry.Some? {
      AnythingFits(u.onRetry.value);
    }
    if u.onError.Some? {
      AnythingFits(u.onError.value);
    }
    if u.body.Scope? {
      AllFitAnyhow(u.body.children);
    }
  }

  lemma {:induction false} AllFitAnyhow(units: seq<Unit>)
    ensures AllFit(units, false)
    decreases units, 0
  {
    if units != [] {
      AnythingFits(units[0]);
      AllFitAnyhow(units[1..]);
    }
  }

  // ----- The drivers of the repository -----

  /**
   What flow.degraded, flow.failed and the actions that submit nothing do (pkg/op/provider/flow/provider.go:589-628): a
   driver that flips does so once, and then succeeds.
   */
  predicate Shipped(q: Conduct) {
    q.flips == [] || (q.flips in [[Degraded], [ExecutionFailed]] && !q.fails)
  }

  /** No policy in force continues past a failed execution: the builtin floor does not. */
  ghost predicate HaltsAtFailure(a: Plan) {
    forall unit: nat :: PolicyIn(a.root, a.policies, unit).executionFailed != Continue
  }

  lemma ShippedFlips(a: Plan, unit: nat, m: Mark, q: Conduct)
    requires HaltsAtFailure(a) && Shipped(q) && m.condition in {Healthy, Degraded}
    ensures var f := Flipped(a, unit, m, q.flips);
            f.Some? && Kept({Healthy, Degraded}, {Healthy, Degraded, ExecutionFailed}, true, q.fails, f.value)
  {
    assert PolicyIn(a.root, a.policies, unit).executionFailed != Continue;
    if q.flips != [] {
      assert q.flips[1..] == [];
      var n := Hit(a, unit, m, q.flips[0]);
      assert Flipped(a, unit, n, []) == Some(n);
    }
  }

  /**
   With the repository's own drivers, and handlers that are scopes as its handlers are, no assertion fails and no pause
   is lost as long as no policy continues past a failed execution.
   */
  lemma ShippedPlansNeverFall(a: Plan, u: Unit, p: Memo, m: Mark)
    requires HaltsAtFailure(a) && HandlersFit(u, true) && m.condition in {Healthy, Degraded}
    requires forall unit: nat, q :: q in a.may(unit) ==> Shipped(q)
    ensures !CanCrash(a, u, p, m) && !CanLosePause(a, u, p, m)
  {
    hide LoopTo, Flipped, HaltsAtFailure, Shipped, Kept;
    var safe, told := {Healthy, Degraded}, {Healthy, Degraded, ExecutionFailed};
    forall unit: nat, k: Mark, q | k.condition in safe && q in a.may(unit)
      ensures var f := Flipped(a, unit, k, q.flips); f.Some? && Kept(safe, told, true, q.fails, f.value)
    {
      ShippedFlips(a, unit, k, q);
    }
    assert Tame(a, safe, told, true);
    TameNeverFalls(a, safe, told, true, u, p, m);
  }
}
