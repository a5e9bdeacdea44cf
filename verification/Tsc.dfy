/**
 * Converting processor ticks to perf-clock nanoseconds and back, in wrapping
 * 64-bit arithmetic, against the exact rational conversion.
 */
module Tsc {
  import opened Bytes

  const LIMIT: nat := 0x1_0000_0000_0000_0000

  function Wrap(x: int): (r: nat)
    ensures r < LIMIT
  {
    x % LIMIT
  }

  /** The conversion parameters; a shift of 64 or more is not a shift of a 64-bit word. */
  datatype Clock = Clock(shift: nat, mult: nat, zero: nat)
  {
    predicate Valid() { shift < 64 && mult < LIMIT && zero < LIMIT }

    function Unit(): (p: nat)
      ensures p >= 1
    {
      Power(shift)
    }
  }

  /** A right shift by the unit's exponent, and the bits it drops. */
  function Quot(x: nat, p: nat): (q: nat)
    requires p >= 1
    ensures q * p <= x < q * p + p
  {
    x / p
  }

  function Rest(x: nat, p: nat): (r: nat)
    requires p >= 1
    ensures r < p && Quot(x, p) * p + r == x
  {
    x % p
  }

  /** The quotient and remainder are converted apart, so that the products stay small. */
  function TscToNs(c: Clock, tsc: nat): nat {
    var quot := Quot(tsc, c.Unit());
    var rem := Rest(tsc, c.Unit());
    Wrap(Wrap(c.zero + Wrap(quot * c.mult)) + Quot(Wrap(rem * c.mult), c.Unit()))
  }

  function NsToTsc(c: Clock, ns: nat): nat {
    var delta := Wrap(ns - c.zero);
    if c.mult == 0 then 0 else Wrap(Quot(delta * c.Unit(), c.mult))
  }

  /** The time of a tick, rounded down once, without any bound on the numbers. */
  function Exact(c: Clock, tsc: nat): nat {
    c.zero + Quot(tsc * c.mult, c.Unit())
  }

  // ----- arithmetic -----

  lemma Scale(a: nat, b: nat, p: nat)
    requires a <= b
    ensures a * p <= b * p
  {}

  lemma Above(a: nat, b: nat, p: nat)
    requires a < b
    ensures a * p + p <= b * p
  {
    assert (a + 1) * p <= b * p;
  }

  /** The quotient is the one number whose multiple comes just below. */
  lemma QuotientIs(x: nat, p: nat, q: nat)
    requires p >= 1 && q * p <= x < q * p + p
    ensures Quot(x, p) == q
  {
    hide Quot;
    var d := Quot(x, p);
    if d < q { Above(d, q, p); }
    if q < d { Above(q, d, p); }
  }

  lemma DivShift(a: nat, b: nat, p: nat)
    requires p >= 1
    ensures Quot(a * p + b, p) == a + Quot(b, p)
  {
    hide Quot;
    assert (a + Quot(b, p)) * p == a * p + Quot(b, p) * p;
    QuotientIs(a * p + b, p, a + Quot(b, p));
  }

  lemma QuotientMonotone(x: nat, y: nat, p: nat)
    requires p >= 1 && x <= y
    ensures Quot(x, p) <= Quot(y, p)
  {
    hide Quot;
    if Quot(y, p) < Quot(x, p) { Above(Quot(y, p), Quot(x, p), p); }
  }

  lemma {:induction false} PowerSplits(a: nat, b: nat)
    ensures Power(a + b) == Power(a) * Power(b)
  {
    if a > 0 {
      PowerSplits(a - 1, b);
      assert 2 * (Power(a - 1) * Power(b)) == 2 * Power(a - 1) * Power(b);
    }
  }

  lemma PowerOf8()
    ensures Power(1) == 2 && Power(8) == 0x100
  {
    assert Power(4) == 16;
  }

  lemma PowerFacts()
    ensures Power(32) == 0x1_0000_0000 && Power(33) == 0x2_0000_0000 && Power(64) == LIMIT
  {
    hide Power;
    PowerOf8();
    PowerSplits(8, 8);
    PowerSplits(16, 16);
    PowerSplits(32, 32);
    PowerSplits(1, 32);
  }

  lemma WrapAdds(a: nat, b: nat, c: nat)
    ensures Wrap(Wrap(a + Wrap(b)) + c) == Wrap(a + b + c)
  {}

  lemma WrapIsRest(x: nat)
    ensures Wrap(x) == Rest(x, LIMIT)
  {}

  // ----- ticks to time -----

  /** Splitting the tick count first rounds like the exact conversion. */
  lemma SplitIsExact(c: Clock, tsc: nat)
    ensures Exact(c, tsc) == c.zero + Quot(tsc, c.Unit()) * c.mult + Quot(Rest(tsc, c.Unit()) * c.mult, c.Unit())
  {
    hide Power, Quot, Rest;
    var p, quot, rem := c.Unit(), Quot(tsc, c.Unit()), Rest(tsc, c.Unit());
    Distribute(quot, rem, p, c.mult);
    DivShift(quot * c.mult, rem * c.mult, p);
  }

  lemma Distribute(quot: nat, rem: nat, p: nat, m: nat)
    ensures (quot * p + rem) * m == quot * m * p + rem * m
  {}

  /** What wrapping a product takes away from its quotient. */
  function High(x: nat, c: Clock): nat
    requires c.Valid()
  {
    Quot(x, LIMIT) * Power(64 - c.shift)
  }

  lemma UnitSplits(c: Clock)
    requires c.Valid()
    ensures Power(64 - c.shift) * c.Unit() == LIMIT
  {
    hide Power;
    PowerSplits(64 - c.shift, c.shift);
    PowerFacts();
  }

  lemma Assoc(a: nat, b: nat, c: nat)
    ensures a * (b * c) == a * b * c
  {}

  lemma WrappedQuotient(x: nat, c: Clock)
    requires c.Valid()
    ensures Quot(x, c.Unit()) == Quot(Wrap(x), c.Unit()) + High(x, c)
    ensures High(x, c) == 0 <==> x < LIMIT
  {
    hide Power, Quot, Rest, Wrap;
    var p, k, h := c.Unit(), Quot(x, LIMIT), Power(64 - c.shift);
    UnitSplits(c);
    WrapIsRest(x);
    Assoc(k, h, p);
    DivShift(k * h, Wrap(x), p);
    if k >= 1 { Above(0, k, h); }
  }

  lemma HighIsSmall(rem: nat, c: Clock)
    requires c.Valid() && rem < c.Unit()
    ensures High(rem * c.mult, c) < LIMIT
  {
    hide Power, Quot;
    UnitSplits(c);
    SmallQuotient(rem, c.mult, c.Unit());
    Above(Quot(rem * c.mult, LIMIT), c.Unit(), Power(64 - c.shift));
    Swapped(c.Unit(), Power(64 - c.shift));
  }

  lemma Swapped(a: nat, b: nat)
    ensures a * b == b * a
  {}

  lemma Scaled(a: nat, b: nat, m: nat)
    requires a <= b
    ensures m * a <= m * b
  {}

  lemma SmallQuotient(rem: nat, mult: nat, p: nat)
    requires rem < p && mult <= LIMIT
    ensures Quot(rem * mult, LIMIT) < p
  {
    hide Quot;
    var k := Quot(rem * mult, LIMIT);
    Scaled(mult, LIMIT, rem);
    if rem < k { Above(rem, k, LIMIT); }
  }

  /** The code agrees with the exact conversion, up to wrapping, if and only if one product fits 64 bits. */
  lemma TscToNsExactIff(c: Clock, tsc: nat)
    requires c.Valid() && tsc < LIMIT
    ensures TscToNs(c, tsc) == Wrap(Exact(c, tsc)) <==> Rest(tsc, c.Unit()) * c.mult < LIMIT
  {
    hide Power, Quot, Rest, Wrap, High, Exact;
    var p, quot, rem := c.Unit(), Quot(tsc, c.Unit()), Rest(tsc, c.Unit());
    var x := rem * c.mult;
    SplitIsExact(c, tsc);
    WrappedQuotient(x, c);
    HighIsSmall(rem, c);
    WrapAdds(c.zero, quot * c.mult, Quot(Wrap(x), p));
    Shifted(c.zero + quot * c.mult + Quot(Wrap(x), p), High(x, c));
  }

  lemma Shifted(a: nat, high: nat)
    requires high < LIMIT
    ensures Wrap(a) == Wrap(a + high) <==> high == 0
  {}

  /** A shift of at most 32 and a 32-bit multiplier make the product fit. */
  lemma SmallParametersFit(c: Clock, tsc: nat)
    requires c.shift <= 32 && c.mult < 0x1_0000_0000
    ensures Rest(tsc, c.Unit()) * c.mult < LIMIT
  {
    hide Power, Quot, Rest;
    PowerSplits(c.shift, 32 - c.shift);
    PowerFacts();
    ProductFits(Rest(tsc, c.Unit()), c.mult, c.Unit(), Power(32 - c.shift));
  }

  lemma ProductFits(rem: nat, m: nat, p: nat, h: nat)
    requires rem < p && h >= 1 && p * h == 0x1_0000_0000 && m < 0x1_0000_0000
    ensures rem * m < LIMIT
  {}

  /** A tick count whose remainder product overflows is converted wrongly. */
  lemma LargeShiftFails()
    ensures var c := Clock(33, 0x1_0000_0000, 0);
            c.Valid() && TscToNs(c, 0x1_FFFF_FFFF) != Wrap(Exact(c, 0x1_FFFF_FFFF))
  {
    hide Power, TscToNs, Exact;
    var c := Clock(33, 0x1_0000_0000, 0);
    PowerFacts();
    assert c.Unit() == 0x2_0000_0000;
    TscToNsExactIff(c, 0x1_FFFF_FFFF);
  }

  /** The condition under which a conversion neither overflows nor wraps. */
  predicate Converts(c: Clock, tsc: nat) {
    c.Valid() && tsc < LIMIT && Rest(tsc, c.Unit()) * c.mult < LIMIT && Exact(c, tsc) < LIMIT
  }

  lemma ConvertsExactly(c: Clock, tsc: nat)
    requires Converts(c, tsc)
    ensures TscToNs(c, tsc) == Exact(c, tsc)
  {
    hide Exact, TscToNs, Power, Quot, Rest;
    TscToNsExactIff(c, tsc);
  }

  lemma TscToNsMonotone(c: Clock, a: nat, b: nat)
    requires a <= b && Converts(c, a) && Converts(c, b)
    ensures TscToNs(c, a) <= TscToNs(c, b)
  {
    hide TscToNs, Exact, Converts;
    ConvertsExactly(c, a);
    ConvertsExactly(c, b);
    ExactMonotone(c, a, b);
  }

  lemma ExactMonotone(c: Clock, a: nat, b: nat)
    requires a <= b
    ensures Exact(c, a) <= Exact(c, b)
  {
    hide Power, Quot;
    Scale(a, b, c.mult);
    QuotientMonotone(a * c.mult, b * c.mult, c.Unit());
  }

  // ----- and back -----

  function CeilDiv(a: nat, b: nat): nat
    requires b >= 1
  {
    Quot(a + b - 1, b)
  }

  lemma CeilIs(a: nat, b: nat, q: nat)
    requires b >= 1 && a <= q * b < a + b
    ensures CeilDiv(a, b) == q
  {
    hide Quot;
    QuotientIs(a + b - 1, b, q);
  }

  /** Dividing t*m - r by m gives t less the rounded-up quotient of r. */
  lemma LossIsCeil(t: nat, m: nat, r: nat)
    requires m >= 1 && r <= t * m
    ensures Quot(t * m - r, m) <= t
    ensures t - Quot(t * m - r, m) == CeilDiv(r, m)
  {
    hide Quot, CeilDiv;
    var b := Quot(t * m - r, m);
    if b > t { Above(t, b, m); }
    assert (t - b) * m == t * m - b * m;
    CeilIs(r, m, t - b);
  }

  /** The tick that a time is converted back to, before wrapping. */
  lemma BackFrom(c: Clock, tsc: nat)
    requires Converts(c, tsc) && c.mult > 0
    ensures NsToTsc(c, TscToNs(c, tsc)) == Wrap(Quot(tsc * c.mult - Rest(tsc * c.mult, c.Unit()), c.mult))
  {
    hide TscToNs, Power, Quot, Rest;
    ConvertsExactly(c, tsc);
    assert Wrap(Exact(c, tsc) - c.zero) == Quot(tsc * c.mult, c.Unit());
  }

  /** Converting there and back loses the ticks that rounding to a nanosecond dropped, and no others. */
  lemma RoundTripLoss(c: Clock, tsc: nat)
    requires Converts(c, tsc) && c.mult > 0
    ensures NsToTsc(c, TscToNs(c, tsc)) <= tsc
    ensures tsc - NsToTsc(c, TscToNs(c, tsc)) == CeilDiv(Rest(tsc * c.mult, c.Unit()), c.mult)
    ensures tsc - NsToTsc(c, TscToNs(c, tsc)) <= CeilDiv(c.Unit() - 1, c.mult)
  {
    hide TscToNs, NsToTsc, Power, Quot, Rest;
    BackFrom(c, tsc);
    var p, x := c.Unit(), tsc * c.mult;
    LossIsCeil(tsc, c.mult, Rest(x, p));
    QuotientMonotone(Rest(x, p) + c.mult - 1, p - 1 + c.mult - 1, c.mult);
  }

  /** Seeking by time lands on a tick that is not later, and every later tick has reached the time. */
  lemma SeekBrackets(c: Clock, ns: nat, t: nat)
    requires c.Valid() && c.mult > 0 && c.zero <= ns < LIMIT
    requires Quot((ns - c.zero) * c.Unit(), c.mult) < LIMIT
    ensures Exact(c, NsToTsc(c, ns)) <= ns
    ensures t > NsToTsc(c, ns) ==> Exact(c, t) >= ns
  {
    hide Power, Quot;
    assert Wrap(ns - c.zero) == ns - c.zero;
    Brackets(ns - c.zero, c.Unit(), c.mult, t);
  }

  lemma Brackets(d: nat, p: nat, m: nat, t: nat)
    requires p >= 1 && m >= 1
    ensures Quot(Quot(d * p, m) * m, p) <= d
    ensures t > Quot(d * p, m) ==> Quot(t * m, p) >= d
  {
    hide Quot;
    var tsc := Quot(d * p, m);
    QuotientMonotone(tsc * m, d * p, p);
    QuotientIs(d * p, p, d);
    if t > tsc {
      Above(tsc, t, m);
      QuotientMonotone(d * p, t * m, p);
    }
  }
}
