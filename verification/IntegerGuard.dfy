/** Which integer conversions are refused, and what the accepted ones do (pkg/op/convert.go:258-350). */
module IntegerGuard {

  import opened Modular
  import opened Options

  datatype Width = W8 | W16 | W32 | W64

  /** An integer kind: int8 to int64, uint8 to uint64; int and uint are 64 bits wide. */
  datatype Kind = Kind(signed: bool, width: Width) {
    function Min(): int {
      if signed then -Half(width) else 0
    }

    function Max(): int {
      if signed then Half(width) - 1 else 2 * Half(width) - 1
    }

    predicate Holds(v: int) {
      Min() <= v <= Max()
    }
  }

  /** Half the number of values of the width. */
  function Half(w: Width): (h: int)
    ensures h > 0
  {
    match w
    case W8 => 0x80
    case W16 => 0x8000
    case W32 => 0x8000_0000
    case W64 => 0x8000_0000_0000_0000
  }

  /** Go's conversion: the low bits, read with the target's sign. */
  function Wrapped(v: int, k: Kind): (r: int)
    ensures k.Holds(r)
  {
    var low := v % (2 * Half(k.width));
    if k.signed && low >= Half(k.width) then low - 2 * Half(k.width) else low
  }

  /** integerLosesValue, branch by branch. */
  predicate IntegerLosesValue(v: int, source: Kind, target: Kind)
    requires source.Holds(v)
  {
    if source.signed && !target.signed && v < 0 then true
    else if !source.signed && target.signed && v > MAX_INT64 then true
    else Wrapped(Wrapped(v, target), source) != v
  }

  /** convertDirect between integer kinds. */
  function ConvertDirect(v: int, source: Kind, target: Kind): Option<int>
    requires source.Holds(v)
  {
    if IntegerLosesValue(v, source, target) then None else Some(Wrapped(v, target))
  }

  // ----- What wrapping does -----

  /** Wrapping is the identity on what the kind holds. */
  lemma WrapsHeld(v: int, k: Kind)
    requires k.Holds(v)
    ensures Wrapped(v, k) == v
  {
    ModShift(v, 2 * Half(k.width), if v < 0 then -1 else 0);
  }

  /** Wrapping again to at least the same width, or through it, depends on the low bits only. */
  lemma WrapsCongruent(v: int, k: Kind)
    ensures (Wrapped(v, k) - v) % (2 * Half(k.width)) == 0
  {
    var m := 2 * Half(k.width);
    var q := v / m;
    assert v == q * m + v % m;
    var c := Wrapped(v, k) - v;
    var n := if k.signed && v % m >= Half(k.width) then -q - 1 else -q;
    assert c == n * m by {
      assert (-q - 1) * m == -(q * m) - m;
      assert (-q) * m == -(q * m);
    }
    assert n * m <= c < (n + 1) * m by {
      assert (n + 1) * m == n * m + m;
    }
    ModShift(c, m, n);
  }

  // ----- Exactly what is accepted -----

  /**
   The hole: an unsigned value of up to 32 bits, sent to a signed kind no wider than its own, within the top half-width
   of the target.  The sign check compares with the largest 64-bit integer, whatever the target's width.
   */
  predicate SlipsThrough(v: int, source: Kind, target: Kind) {
    && !source.signed && target.signed
    && source.width != W64 && Half(target.width) <= Half(source.width)
    && v >= 2 * Half(source.width) - Half(target.width)
  }

  /** A value its target holds is accepted unchanged. */
  lemma HeldIsAccepted(v: int, source: Kind, target: Kind)
    requires source.Holds(v) && target.Holds(v)
    ensures !IntegerLosesValue(v, source, target) && Wrapped(v, target) == v
  {
    WrapsHeld(v, target);
    WrapsHeld(v, source);
  }

  /** A value in the hole is accepted, and comes out short by the source's whole span. */
  lemma SlippedIsAccepted(v: int, source: Kind, target: Kind)
    requires source.Holds(v) && SlipsThrough(v, source, target)
    ensures !IntegerLosesValue(v, source, target) && !target.Holds(v)
    ensures Wrapped(v, target) == v - 2 * Half(source.width) < 0
  {
    var m, t := 2 * Half(source.width), 2 * Half(target.width);
    var w := v - m;
    Divides(source.width, target.width);
    var n := m / t;
    assert v == w + n * t;
    SameWrap(w, n, target);
    WrapsHeld(w, target);
    ModShift(w, m, -1);
  }

  /** A narrower span divides a wider one. */
  lemma Divides(wide: Width, narrow: Width)
    requires Half(narrow) <= Half(wide)
    ensures var n := (2 * Half(wide)) / (2 * Half(narrow)); n * (2 * Half(narrow)) == 2 * Half(wide) && n >= 1
  {
  }

  lemma SameWrap(v: int, n: int, k: Kind)
    ensures Wrapped(v + n * (2 * Half(k.width)), k) == Wrapped(v, k)
  {
    var m := 2 * Half(k.width);
    var q := v / m;
    assert v == q * m + v % m;
    assert (q + n) * m == q * m + n * m;
    assert (q + n + 1) * m == (q + n) * m + m;
    ModShift(v + n * m, m, q + n);
  }

  /** Nothing else is accepted. */
  lemma AcceptedIsHeldOrSlipped(v: int, source: Kind, target: Kind)
    requires source.Holds(v) && !IntegerLosesValue(v, source, target)
    ensures target.Holds(v) || SlipsThrough(v, source, target)
  {
    if !target.Holds(v) {
      var w := Wrapped(v, target);
      assert Wrapped(w, source) == v;
      if source.Holds(w) {
        WrapsHeld(w, source);
      } else {
        var m := 2 * Half(source.width);
        if !source.signed {
          assert -m <= w < 0;
          ModShift(w, m, -1);
        }
      }
    }
  }

  /**
   The guard exactly: a conversion is accepted if and only if the target holds the value or the value slips through
   the hole, and then what comes out is the number itself, or the number less the source's span.
   */
  lemma GuardExactly(v: int, source: Kind, target: Kind)
    requires source.Holds(v)
    ensures ConvertDirect(v, source, target) ==
      if target.Holds(v) then Some(v)
      else if SlipsThrough(v, source, target) then Some(v - 2 * Half(source.width))
      else None
  {
    if target.Holds(v) {
      HeldIsAccepted(v, source, target);
    } else if SlipsThrough(v, source, target) {
      SlippedIsAccepted(v, source, target);
    } else if !IntegerLosesValue(v, source, target) {
      AcceptedIsHeldOrSlipped(v, source, target);
    }
  }

  /** For which pairs of kinds an accepted conversion always preserves the number. */
  lemma FaithfulPairs(source: Kind, target: Kind)
    ensures (forall v :: source.Holds(v) && !IntegerLosesValue(v, source, target) ==> Wrapped(v, target) == v) <==>
            (source.signed || source.width == W64 || !target.signed || Half(target.width) > Half(source.width))
  {
    if !source.signed && source.width != W64 && target.signed && Half(target.width) <= Half(source.width) {
      var v := source.Max();
      assert source.Holds(v);
      SlippedIsAccepted(v, source, target);
    } else {
      forall v | source.Holds(v) && !IntegerLosesValue(v, source, target) ensures Wrapped(v, target) == v {
        AcceptedIsHeldOrSlipped(v, source, target);
        HeldIsAccepted(v, source, target);
      }
    }
  }

  /** Accepted conversions from one kind never merge two numbers, not even in the hole. */
  lemma NeverMerges(a: int, b: int, source: Kind, target: Kind)
    requires source.Holds(a) && source.Holds(b)
    requires ConvertDirect(a, source, target).Some?
    requires ConvertDirect(a, source, target) == ConvertDirect(b, source, target)
    ensures a == b
  {
    GuardExactly(a, source, target);
    GuardExactly(b, source, target);
  }

  /** Converting an accepted value back: accepted and equal unless it had slipped through, then always refused. */
  lemma BackAgain(v: int, source: Kind, target: Kind)
    requires source.Holds(v) && ConvertDirect(v, source, target).Some?
    ensures var w := ConvertDirect(v, source, target).value;
            && target.Holds(w)
            && ConvertDirect(w, target, source) == if target.Holds(v) then Some(v) else None
  {
    GuardExactly(v, source, target);
    GuardExactly(ConvertDirect(v, source, target).value, target, source);
  }

  // ----- In numbers -----

  /** What each of Go's kinds holds. */
  lemma KindsHold(v: int)
    ensures Kind(true, W8).Holds(v) <==> -128 <= v <= 127
    ensures Kind(true, W16).Holds(v) <==> -32_768 <= v <= 32_767
    ensures Kind(true, W32).Holds(v) <==> -2_147_483_648 <= v <= 2_147_483_647
    ensures Kind(true, W64).Holds(v) <==> -9_223_372_036_854_775_808 <= v <= 9_223_372_036_854_775_807
    ensures Kind(false, W8).Holds(v) <==> 0 <= v <= 255
    ensures Kind(false, W16).Holds(v) <==> 0 <= v <= 65_535
    ensures Kind(false, W32).Holds(v) <==> 0 <= v <= 4_294_967_295
    ensures Kind(false, W64).Holds(v) <==> 0 <= v <= 18_446_744_073_709_551_615
  {
  }

  /** An int64 is accepted by each kind exactly within its range, and then unchanged. */
  lemma FromInt64(v: int)
    requires -9_223_372_036_854_775_808 <= v <= 9_223_372_036_854_775_807
    ensures ConvertDirect(v, Kind(true, W64), Kind(true, W8)) == if -128 <= v <= 127 then Some(v) else None
    ensures ConvertDirect(v, Kind(true, W64), Kind(true, W16)) == if -32_768 <= v <= 32_767 then Some(v) else None
    ensures ConvertDirect(v, Kind(true, W64), Kind(true, W32)) ==
              if -2_147_483_648 <= v <= 2_147_483_647 then Some(v) else None
    ensures ConvertDirect(v, Kind(true, W64), Kind(true, W64)) == Some(v)
    ensures ConvertDirect(v, Kind(true, W64), Kind(false, W8)) == if 0 <= v <= 255 then Some(v) else None
    ensures ConvertDirect(v, Kind(true, W64), Kind(false, W16)) == if 0 <= v <= 65_535 then Some(v) else None
    ensures ConvertDirect(v, Kind(true, W64), Kind(false, W32)) == if 0 <= v <= 4_294_967_295 then Some(v) else None
    ensures ConvertDirect(v, Kind(true, W64), Kind(false, W64)) == if 0 <= v then Some(v) else None
  {
    hide ConvertDirect;
    FromSigned(v, Kind(true, W8));
    FromSigned(v, Kind(true, W16));
    FromSigned(v, Kind(true, W32));
    FromSigned(v, Kind(true, W64));
    FromSigned(v, Kind(false, W8));
    FromSigned(v, Kind(false, W16));
    FromSigned(v, Kind(false, W32));
    FromSigned(v, Kind(false, W64));
    KindsHold(v);
  }

  lemma FromSigned(v: int, target: Kind)
    requires Kind(true, W64).Holds(v)
    ensures ConvertDirect(v, Kind(true, W64), target) == if target.Holds(v) then Some(v) else None
  {
    GuardExactly(v, Kind(true, W64), target);
  }

  /** The hole in numbers: what each unsigned kind sends into a signed one as a negative. */
  lemma HolesExactly(v: int)
    ensures SlipsThrough(v, Kind(false, W8), Kind(true, W8)) <==> v >= 128
    ensures SlipsThrough(v, Kind(false, W16), Kind(true, W8)) <==> v >= 65_408
    ensures SlipsThrough(v, Kind(false, W16), Kind(true, W16)) <==> v >= 32_768
    ensures SlipsThrough(v, Kind(false, W32), Kind(true, W8)) <==> v >= 4_294_967_168
    ensures SlipsThrough(v, Kind(false, W32), Kind(true, W16)) <==> v >= 4_294_934_528
    ensures SlipsThrough(v, Kind(false, W32), Kind(true, W32)) <==> v >= 2_147_483_648
    ensures forall s, t :: SlipsThrough(v, s, t) ==>
              (s, t) in {(Kind(false, W8), Kind(true, W8)), (Kind(false, W16), Kind(true, W8)),
                         (Kind(false, W16), Kind(true, W16)), (Kind(false, W32), Kind(true, W8)),
                         (Kind(false, W32), Kind(true, W16)), (Kind(false, W32), Kind(true, W32))}
  {
    forall s, t | SlipsThrough(v, s, t)
      ensures (s, t) in {(Kind(false, W8), Kind(true, W8)), (Kind(false, W16), Kind(true, W8)),
                         (Kind(false, W16), Kind(true, W16)), (Kind(false, W32), Kind(true, W8)),
                         (Kind(false, W32), Kind(true, W16)), (Kind(false, W32), Kind(true, W32))}
    {
      NarrowerOrSame(s.width, t.width);
      assert s == Kind(false, s.width) && t == Kind(true, t.width);
    }
  }

  lemma NarrowerOrSame(wide: Width, narrow: Width)
    requires wide != W64 && Half(narrow) <= Half(wide)
    ensures wide == W8 ==> narrow == W8
    ensures wide == W16 ==> narrow == W8 || narrow == W16
    ensures wide == W32 ==> narrow != W64
  {
  }

  /** A uint8 of 200 becomes an int8 of -56. */
  lemma TwoHundredSlips()
    ensures ConvertDirect(200, Kind(false, W8), Kind(true, W8)) == Some(-56)
  {
    GuardExactly(200, Kind(false, W8), Kind(true, W8));
  }
}
