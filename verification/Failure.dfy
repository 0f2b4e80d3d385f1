/**
 Go error chains as the executor sees them (pkg/op/graph_executor.go:1444-1554): sentinels, wrapping with %w, joining,
 and `dispatchFailure`, which carries the reason a failure stamps on the run.
 */
module Failure {
  import opened Options
  import opened RunStatus

  datatype Err =
    | Nothing                       // the nil cause of a loop that never ran
    | Plain                         // an error with no sentinel and no dispatchFailure inside
    | ErrPaused
    | ErrStopped
    | Cancelled                     // the context's error
    | Wrap(inner: Err)              // fmt.Errorf("...: %w", inner)
    | Join(first: Err, second: Err) // errors.Join, or two %w verbs
    | Dispatch(reason: Reason, cause: Err, bypass: bool)

  /** errors.Is, for a sentinel. */
  predicate Is(e: Err, sentinel: Err) {
    e == sentinel ||
    match e
    case Wrap(inner) => Is(inner, sentinel)
    case Join(first, second) => Is(first, sentinel) || Is(second, sentinel)
    case Dispatch(_, cause, _) => Is(cause, sentinel)
    case _ => false
  }

  /** What a *dispatchFailure says besides its cause. */
  datatype Carried = Carried(reason: Reason, bypass: bool)

  /** errors.As for *dispatchFailure: the first one in depth-first order. */
  function As(e: Err): Option<Carried> {
    match e
    case Wrap(inner) => As(inner)
    case Join(first, second) => if As(first).Some? then As(first) else As(second)
    case Dispatch(reason, _, bypass) => Some(Carried(reason, bypass))
    case _ => None
  }

  function FailureReason(e: Err): Reason {
    if As(e).Some? then As(e).value.reason else ActionFailed
  }

  predicate IsHard(e: Err) {
    As(e).Some? && As(e).value.bypass
  }

  predicate IsPaused(e: Err) { Is(e, ErrPaused) }

  predicate IsStopped(e: Err) { Is(e, ErrStopped) }

  function StandingFailure(base: Reason, cause: Err): (e: Err)
    ensures As(e).Some?
    ensures As(cause).Some? ==> FailureReason(e) == FailureReason(cause)
    ensures As(cause).None? ==> FailureReason(e) == base && !IsHard(e)
    ensures IsPaused(e) == IsPaused(cause) && IsStopped(e) == IsStopped(cause)
  {
    if As(cause).Some? then cause else Dispatch(base, cause, false)
  }

  /** A failed handler's error: its reason is handler_failed and it is never hard, whatever it wraps. */
  function HandlerError(cause: Err): (e: Err)
    ensures FailureReason(e) == HandlerFailed && !IsHard(e) && As(e).Some?
    ensures IsPaused(e) == IsPaused(cause) && IsStopped(e) == IsStopped(cause)
  {
    Dispatch(HandlerFailed, cause, false)
  }

  // ----- What the two look-ups see -----

  /** The errors of a chain, outermost first, depth first. */
  function Chain(e: Err): seq<Err> {
    [e] + match e
          case Wrap(inner) => Chain(inner)
          case Join(first, second) => Chain(first) + Chain(second)
          case Dispatch(_, cause, _) => Chain(cause)
          case _ => []
  }

  /** errors.Is sees exactly what is in the chain. */
  lemma {:induction false} IsExactly(e: Err, sentinel: Err)
    ensures Is(e, sentinel) <==> sentinel in Chain(e)
  {
    match e
    case Wrap(inner) => IsExactly(inner, sentinel);
    case Join(first, second) =>
      IsExactly(first, sentinel);
      IsExactly(second, sentinel);
    case Dispatch(_, cause, _) => IsExactly(cause, sentinel);
    case _ =>
  }

  /** The first dispatchFailure of the errors is at `k`. */
  ghost predicate First(es: seq<Err>, k: nat) {
    k < |es| && es[k].Dispatch? && forall i :: 0 <= i < k ==> !es[i].Dispatch?
  }

  /** What the first dispatchFailure of the errors says, if there is one. */
  ghost predicate FirstSays(es: seq<Err>, c: Option<Carried>) {
    match c
    case None => forall i :: 0 <= i < |es| ==> !es[i].Dispatch?
    case Some(says) => exists k: nat :: First(es, k) && says == Carried(es[k].reason, es[k].bypass)
  }

  lemma FirstOfBoth(a: seq<Err>, ca: Option<Carried>, b: seq<Err>, cb: Option<Carried>)
    requires FirstSays(a, ca) && FirstSays(b, cb)
    ensures FirstSays(a + b, if ca.Some? then ca else cb)
  {
    if ca.Some? {
      var k: nat :| First(a, k) && ca.value == Carried(a[k].reason, a[k].bypass);
      assert First(a + b, k);
    } else if cb.Some? {
      var k: nat :| First(b, k) && cb.value == Carried(b[k].reason, b[k].bypass);
      assert First(a + b, |a| + k);
    }
  }

  /** errors.As finds the first dispatchFailure of the chain. */
  lemma {:induction false} AsExactly(e: Err)
    ensures FirstSays(Chain(e), As(e))
  {
    hide First;
    match e
    case Wrap(inner) =>
      AsExactly(inner);
      assert FirstSays([e], None);
      FirstOfBoth([e], None, Chain(inner), As(inner));
    case Join(first, second) =>
      AsExactly(first);
      AsExactly(second);
      FirstOfBoth(Chain(first), As(first), Chain(second), As(second));
      assert FirstSays([e], None);
      FirstOfBoth([e], None, Chain(first) + Chain(second), As(e));
    case Dispatch(_, _, _) => FirstIsIt(e);
    case _ => assert Chain(e) == [e];
  }

  lemma FirstIsIt(e: Err)
    requires e.Dispatch?
    ensures FirstSays(Chain(e), As(e))
  {
    assert Chain(e)[0] == e;
    assert First(Chain(e), 0);
  }

  // ----- Any depth of nesting -----

  /** One enclosing dispatch whose own failure stands: the child's error is wrapped on the way, then stands. */
  datatype Level = Level(wraps: nat, base: Reason)

  function Wrapped(e: Err, n: nat): (r: Err)
    ensures As(r) == As(e) && IsPaused(r) == IsPaused(e) && IsStopped(r) == IsStopped(e)
  {
    if n == 0 then e else Wrap(Wrapped(e, n - 1))
  }

  function Bubble(e: Err, levels: seq<Level>): Err
    decreases |levels|
  {
    if levels == [] then e
    else Bubble(StandingFailure(levels[0].base, Wrapped(e, levels[0].wraps)), levels[1..])
  }

  /** The reason is stamped once, where the failure originated; no number of enclosing exhaustions changes it. */
  lemma {:induction false} BubbleKeepsReason(e: Err, levels: seq<Level>)
    ensures FailureReason(Bubble(e, levels)) ==
      if As(e).Some? then FailureReason(e) else if levels == [] then ActionFailed else levels[0].base
    ensures IsHard(Bubble(e, levels)) == IsHard(e)
    ensures IsPaused(Bubble(e, levels)) == IsPaused(e) && IsStopped(Bubble(e, levels)) == IsStopped(e)
    decreases |levels|
  {
    if levels != [] {
      BubbleKeepsReason(StandingFailure(levels[0].base, Wrapped(e, levels[0].wraps)), levels[1..]);
    }
  }
}
