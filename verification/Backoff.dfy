/**
 The wait before a retry (pkg/op/retry_policy.go:50-88, pkg/op/graph_executor.go:781-798), in Go's int64 durations.
 */
module Backoff {
  import opened Modular

  datatype Strategy = NoBackoff | Linear | Exponential

  /** A policy with its delays parsed; an unparseable delay is 0. */
  datatype RetryPolicy = RetryPolicy(initial: int, maxDelay: int, strategy: Strategy, jitter: bool) {
    predicate Valid() { IsInt64(initial) && IsInt64(maxDelay) }
  }

  /** The delay; `Panics` when the random draw is asked for an empty range. */
  datatype Delay = Wait(d: int) | Panics

  /** rand.Int64N, as an arbitrary draw from [0, n). */
  ghost predicate Draws(draw: int -> int) {
    forall n :: n > 0 ==> 0 <= draw(n) < n
  }

  function Pow2(n: nat): (r: nat)
    ensures r > 0
  {
    if n == 0 then 1 else 2 * Pow2(n - 1)
  }

  /** The delay the strategy describes, without any bound. */
  function Ideal(p: RetryPolicy, attempt: nat): int {
    match p.strategy
    case NoBackoff => p.initial
    case Linear => p.initial * (attempt + 1)
    case Exponential => p.initial * Pow2(attempt)
  }

  /** The delay before the cap, in 64 bits. */
  function Curve(p: RetryPolicy, attempt: nat): int {
    Wrap64(Ideal(p, attempt))
  }

  /** The delay after the cap. */
  function Capped(p: RetryPolicy, attempt: nat): int {
    if p.initial == 0 then 0
    else if p.maxDelay > 0 && Curve(p, attempt) > p.maxDelay then p.maxDelay
    else Curve(p, attempt)
  }

  /** Doubling in 64 bits loses nothing more than wrapping once at the end. */
  lemma DoubleWrapped(v: int)
    ensures Wrap64(2 * Wrap64(v)) == Wrap64(2 * v)
  {
    var q := WrapTakes(v);
    var r := WrapTakes(2 * v);
    assert 2 * Wrap64(v) - (r - 2 * q) * SPAN == 2 * v - r * SPAN;
    WrapIs(2 * Wrap64(v), r - 2 * q);
  }

  lemma DoublesOnce(v: int, i: nat)
    ensures Wrap64(2 * Wrap64(v * Pow2(i))) == Wrap64(v * Pow2(i + 1))
  {
    hide Wrap64;
    DoubleWrapped(v * Pow2(i));
    assert 2 * (v * Pow2(i)) == v * Pow2(i + 1);
  }

  /** What ComputeDelay returns, given the draw. */
  function Drawn(p: RetryPolicy, attempt: nat, draw: int -> int): Delay {
    var capped := Capped(p, attempt);
    if !p.jitter || capped <= 0 then Wait(capped) else if capped == MAX_INT64 then Panics else Wait(draw(capped + 1))
  }

  /** ComputeDelay: the doubling loop, the cap, the jitter. */
  method ComputeDelay(p: RetryPolicy, attempt: nat, draw: int -> int) returns (r: Delay)
    requires p.Valid()
    ensures r == Drawn(p, attempt, draw)
  {
    hide Wrap64, IsInt64;
    if p.initial == 0 {
      return Wait(0);
    }
    WrapFits(p.initial);
    var delay: int;
    match p.strategy {
      case NoBackoff =>
        delay := p.initial;
      case Linear =>
        delay := Wrap64(p.initial * (attempt + 1));
      case Exponential =>
        delay := p.initial;
        var i := 0;
        assert p.initial * Pow2(0) == p.initial;
        while i < attempt
          invariant 0 <= i <= attempt && delay == Wrap64(p.initial * Pow2(i))
        {
          DoublesOnce(p.initial, i);
          delay := Wrap64(delay * 2);
          i := i + 1;
        }
    }
    assert delay == Curve(p, attempt);
    if p.maxDelay > 0 && delay > p.maxDelay {
      delay := p.maxDelay;
    }
    if p.jitter && delay > 0 {
      if delay == MAX_INT64 {
        return Panics;
      }
      delay := draw(delay + 1);
    }
    return Wait(delay);
  }

  // ----- Exactly when the wait is the documented one -----

  /**
   The documented curves: a constant, one that grows by the delay with every attempt, and one that doubles; all begin at
   the delay.
   */
  lemma CurvesAre(p: RetryPolicy, attempt: nat)
    ensures Ideal(p, 0) == p.initial
    ensures p.strategy == NoBackoff ==> Ideal(p, attempt + 1) == Ideal(p, attempt)
    ensures p.strategy == Linear ==> Ideal(p, attempt + 1) == Ideal(p, attempt) + p.initial
    ensures p.strategy == Exponential ==> Ideal(p, attempt + 1) == 2 * Ideal(p, attempt)
  {
    match p.strategy
    case NoBackoff =>
    case Linear => assert p.initial * (attempt + 1 + 1) == p.initial * (attempt + 1) + p.initial;
    case Exponential => assert p.initial * (2 * Pow2(attempt)) == 2 * (p.initial * Pow2(attempt));
  }

  /** Jitter draws every wait up to the capped delay, and no other. */
  lemma JitterDraws(p: RetryPolicy, attempt: nat, d: int)
    requires p.Valid() && p.jitter && 0 < Capped(p, attempt) < 0x7FFF_FFFF_FFFF_FFFF
    ensures 0 <= d <= Capped(p, attempt) <==> exists draw :: Draws(draw) && Drawn(p, attempt, draw) == Wait(d)
  {
    hide Capped;
    var capped := Capped(p, attempt);
    if 0 <= d <= capped {
      var draw := (n: int) => if n == capped + 1 then d else 0;
      assert Draws(draw) && Drawn(p, attempt, draw) == Wait(d);
    }
    if draw :| Draws(draw) && Drawn(p, attempt, draw) == Wait(d) {
      assert d == draw(capped + 1);
    }
  }

  function Least(a: int, b: int): int {
    if a < b then a else b
  }

  /** Wrapping changes exactly what does not fit. */
  lemma WrapFits(v: int)
    ensures Wrap64(v) == v <==> IsInt64(v)
  {
    if IsInt64(v) {
      WrapIs(v, 0);
    }
  }

  /**
   Under a cap, the wait is the capped ideal if and only if the ideal fits in 64 bits or what wrapping leaves of a
   larger one still reaches the cap; without a cap, it is the ideal if and only if the ideal fits.
   */
  lemma CapExactly(p: RetryPolicy, attempt: nat)
    requires p.Valid()
    ensures var ideal := Ideal(p, attempt);
            if p.maxDelay > 0 then
              Capped(p, attempt) == Least(p.maxDelay, ideal) <==>
              IsInt64(ideal) || (ideal > MAX_INT64 && Wrap64(ideal) >= p.maxDelay)
            else
              Capped(p, attempt) == ideal <==> IsInt64(ideal)
  {
    hide Ideal, Wrap64;
    WrapFits(Ideal(p, attempt));
    if p.initial == 0 {
      IdealOfNothing(p, attempt);
    }
  }

  lemma IdealOfNothing(p: RetryPolicy, attempt: nat)
    requires p.initial == 0
    ensures Ideal(p, attempt) == 0
  {
  }

  lemma IdealPositive(p: RetryPolicy, attempt: nat)
    requires p.initial > 0
    ensures Ideal(p, attempt) >= p.initial
  {
    match p.strategy
    case NoBackoff =>
    case Linear => assert p.initial * (attempt + 1) == p.initial * attempt + p.initial;
    case Exponential => assert p.initial * Pow2(attempt) == p.initial + p.initial * (Pow2(attempt) - 1);
  }

  /** The cap holds for every attempt, wrapped or not. */
  lemma CapHolds(p: RetryPolicy, attempt: nat)
    requires p.maxDelay > 0
    ensures Capped(p, attempt) <= p.maxDelay
  {
    if p.initial == 0 {
      assert Capped(p, attempt) == 0;
    }
  }

  /** As long as the ideal fits, later attempts never wait less. */
  lemma {:induction false} WaitsGrow(p: RetryPolicy, a: nat, b: nat)
    requires p.Valid() && p.initial >= 0 && a <= b && Ideal(p, b) <= MAX_INT64
    ensures 0 <= Capped(p, a) <= Capped(p, b)
    decreases b - a
  {
    if p.initial > 0 {
      IdealGrows(p, a, b);
      IdealPositive(p, a);
      WrapFits(Ideal(p, a));
      WrapFits(Ideal(p, b));
    }
  }

  lemma {:induction false} IdealGrows(p: RetryPolicy, a: nat, b: nat)
    requires p.initial >= 0 && a <= b
    ensures Ideal(p, a) <= Ideal(p, b)
    decreases b - a
  {
    if a < b {
      IdealGrows(p, a, b - 1);
      match p.strategy
      case NoBackoff =>
      case Linear => assert p.initial * (b + 1) == p.initial * b + p.initial;
      case Exponential => assert p.initial * Pow2(b) == p.initial * Pow2(b - 1) + p.initial * Pow2(b - 1);
    }
  }

  /** From attempt 63 on an exponential policy never waits, whatever its delays: every bit has been shifted out. */
  lemma LateAttemptsNeverWait(p: RetryPolicy, attempt: nat)
    requires p.Valid() && p.strategy == Exponential && attempt >= 63
    ensures Capped(p, attempt) <= 0
  {
    ShiftedOut(p.initial, attempt);
  }

  lemma {:induction false} PowSum(a: nat, b: nat)
    ensures Pow2(a + b) == Pow2(a) * Pow2(b)
    decreases a
  {
    if a > 0 {
      PowSum(a - 1, b);
      assert 2 * (Pow2(a - 1) * Pow2(b)) == Pow2(a) * Pow2(b);
    }
  }

  lemma Pow7()
    ensures Pow2(7) == 0x80
  {
  }

  lemma Pow63()
    ensures Pow2(63) == MAX_INT64 + 1
  {
    hide Pow2;
    Pow7();
    PowSum(7, 7);
    PowSum(7, 14);
    PowSum(21, 21);
    PowSum(21, 42);
  }

  /** A multiple of half the span wraps to nothing or to the smallest number. */
  lemma HalfSpans(k: int)
    ensures Wrap64(k * (MAX_INT64 + 1)) == 0 || Wrap64(k * (MAX_INT64 + 1)) == -MAX_INT64 - 1
  {
    hide Wrap64;
    var q, odd := (k + 1) / 2, (k + 1) % 2;
    assert k == 2 * q + odd - 1;
    assert k * (MAX_INT64 + 1) == q * SPAN + (odd - 1) * (MAX_INT64 + 1);
    WrapIs(k * (MAX_INT64 + 1), q);
  }

  lemma ShiftedOut(v: int, n: nat)
    requires n >= 63
    ensures Wrap64(v * Pow2(n)) == 0 || Wrap64(v * Pow2(n)) == -MAX_INT64 - 1
  {
    hide Wrap64, Pow2;
    Pow63();
    PowSum(n - 63, 63);
    var k := v * Pow2(n - 63);
    Regroup(v, Pow2(n - 63), Pow2(63));
    HalfSpans(k);
  }

  lemma Regroup(a: int, b: int, c: int)
    ensures a * (b * c) == (a * b) * c
  {
  }

  // ----- A whole dispatch -----

  /** The wait of a delay: none when it is not positive. */
  function Waited(d: Delay): nat {
    match d
    case Wait(d) => if d > 0 then d else 0
    case Panics => 0
  }

  /** Jitter only shortens a wait, and panics exactly for the longest representable one. */
  lemma JitterExactly(p: RetryPolicy, attempt: nat, draw: int -> int)
    requires p.Valid() && Draws(draw)
    ensures Drawn(p, attempt, draw).Panics? <==> p.jitter && Capped(p, attempt) == MAX_INT64
    ensures Drawn(p, attempt, draw).Wait? ==> Waited(Drawn(p, attempt, draw)) <= Waited(Wait(Capped(p, attempt)))
  {
    if p.jitter && 0 < Capped(p, attempt) < MAX_INT64 {
      assert 0 <= draw(Capped(p, attempt) + 1) < Capped(p, attempt) + 1;
    }
  }

  /** The waits before retries 1 to `retries`, each drawn on its own. */
  function TotalWait(p: RetryPolicy, retries: nat, draws: nat -> int -> int): nat {
    if retries == 0 then 0
    else TotalWait(p, retries - 1, draws) + Waited(Drawn(p, retries - 1, draws(retries)))
  }

  /** One dispatch waits at most MaxAttempts times MaxDelay, whatever wraps and whatever is drawn. */
  lemma {:induction false} TotalIsBounded(p: RetryPolicy, retries: nat, draws: nat -> int -> int)
    requires p.Valid() && p.maxDelay > 0 && forall k :: Draws(draws(k))
    ensures TotalWait(p, retries, draws) <= retries * p.maxDelay
    decreases retries
  {
    hide Drawn, Capped, Draws, Waited;
    if retries > 0 {
      TotalIsBounded(p, retries - 1, draws);
      OneWait(p, retries - 1, draws(retries));
      assert retries * p.maxDelay == (retries - 1) * p.maxDelay + p.maxDelay;
    }
  }

  lemma OneWait(p: RetryPolicy, attempt: nat, draw: int -> int)
    requires p.Valid() && p.maxDelay > 0 && Draws(draw)
    ensures Waited(Drawn(p, attempt, draw)) <= p.maxDelay
  {
    hide Capped;
    JitterExactly(p, attempt, draw);
    CapHolds(p, attempt);
  }

  /** One second, doubled, capped at thirty: the 35th wait wraps to a negative and is skipped. */
  lemma ThirtySecondsWraps()
    ensures var p := RetryPolicy(1_000_000_000, 30_000_000_000, Exponential, false);
            Capped(p, 33) == 30_000_000_000 && Capped(p, 34) < 0
  {
    var p := RetryPolicy(1_000_000_000, 30_000_000_000, Exponential, false);
    assert Pow2(11) == 0x800;
    PowSum(11, 11);
    PowSum(11, 22);
    assert Pow2(33) == 0x2_0000_0000 && Pow2(34) == 0x4_0000_0000;
    WrapIs(1_000_000_000 * 0x2_0000_0000, 0);
    WrapIs(1_000_000_000 * 0x4_0000_0000, 1);
  }
}
