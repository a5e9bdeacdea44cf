/** Words as their bits: or, exclusive or, shifts and the lowest set bit. */
module Bits {
  import opened Lines
  import opened Bytes

  function BitOr(a: nat, b: nat): nat {
    if a == 0 then b
    else if b == 0 then a
    else (if a % 2 == 1 || b % 2 == 1 then 1 else 0) + 2 * BitOr(a / 2, b / 2)
  }

  function BitXor(a: nat, b: nat): nat
    decreases a + b
  {
    if a == 0 && b == 0 then 0
    else (if a % 2 != b % 2 then 1 else 0) + 2 * BitXor(a / 2, b / 2)
  }

  function ShiftLeft(v: nat, k: nat): nat { v * Power(k) }

  /** The position of the lowest set bit, or the width of the word if there is none. */
  function TrailingZeros(v: nat, width: nat): (n: nat)
    ensures v == 0 ==> n == width
    ensures v > 0 ==> Bit(v, n) && forall k: nat :: k < n ==> !Bit(v, k)
  {
    if v == 0 then width else LowestBit(v)
  }

  function LowestBit(v: nat): (n: nat)
    requires v > 0
    ensures Bit(v, n) && forall k: nat :: k < n ==> !Bit(v, k)
  {
    if v % 2 == 1 then 0
    else
      var n := LowestBit(v / 2);
      assert forall k: nat :: 0 < k < n + 1 ==> Bit(v, k) == Bit(v / 2, k - 1);
      n + 1
  }

  lemma {:induction false} NoBits(k: nat)
    ensures !Bit(0, k)
  {
    if k > 0 { NoBits(k - 1); }
  }

  /** Or-ing sets a bit where either word has it. */
  lemma {:induction false} OrBit(a: nat, b: nat, k: nat)
    ensures Bit(BitOr(a, b), k) <==> Bit(a, k) || Bit(b, k)
    decreases k
  {
    NoBits(k);
    if a > 0 && b > 0 {
      var r := BitOr(a, b);
      var low := if a % 2 == 1 || b % 2 == 1 then 1 else 0;
      assert r == low + 2 * BitOr(a / 2, b / 2);
      assert r % 2 == low && r / 2 == BitOr(a / 2, b / 2);
      if k > 0 { OrBit(a / 2, b / 2, k - 1); }
    }
  }

  lemma {:induction false} PowerBit(i: nat, k: nat)
    ensures Bit(Power(i), k) <==> k == i
    decreases k
  {
    if i == 0 {
      if k > 0 { NoBits(k - 1); }
    } else {
      assert Power(i) == 2 * Power(i - 1);
      if k > 0 { PowerBit(i - 1, k - 1); }
    }
  }

  /** Or-ing a flag into place `i`. */
  lemma OrFlag(mask: nat, flag: bool, i: nat, k: nat)
    ensures Bit(BitOr(mask, ShiftLeft(if flag then 1 else 0, i)), k) <==> Bit(mask, k) || (flag && k == i)
  {
    hide BitOr, Power;
    assert 1 * Power(i) == Power(i) && 0 * Power(i) == 0;
    OrBit(mask, ShiftLeft(if flag then 1 else 0, i), k);
    PowerBit(i, k);
    NoBits(k);
  }

  /** Or-ing into cleared low bits adds. */
  lemma {:induction false} OrAdds(a: nat, b: nat, k: nat)
    requires b < Power(k)
    ensures BitOr(a * Power(k), b) == a * Power(k) + b
  {
    if k == 0 {
      assert a * Power(0) == a;
    } else if a > 0 && b > 0 {
      var p := Power(k - 1);
      Doubled(a, p);
      OrAdds(a, b / 2, k - 1);
    } else {
      assert 0 * Power(k) == 0;
    }
  }

  lemma Doubled(a: nat, p: nat)
    requires a > 0 && p > 0
    ensures a * (2 * p) == 2 * (a * p) && a * (2 * p) > 0 && a * (2 * p) / 2 == a * p && a * (2 * p) % 2 == 0
  {}

  /** Exclusive or works on low and high parts apart. */
  lemma {:induction false} XorParts(a: nat, b: nat, x: nat, y: nat, k: nat)
    requires a < Power(k) && b < Power(k)
    ensures BitXor(a + Power(k) * x, b + Power(k) * y) == BitXor(a, b) + Power(k) * BitXor(x, y)
  {
    hide BitXor, Power;
    PowerStep(k);
    if k == 0 {
      XorStep(0, 0);
      assert 1 * x == x && 1 * y == y && 1 * BitXor(x, y) == BitXor(x, y);
    } else {
      var p := Power(k - 1);
      XorParts(a / 2, b / 2, x, y, k - 1);
      Halved(a, p, x);
      Halved(b, p, y);
      XorStep(a + 2 * p * x, b + 2 * p * y);
      XorStep(a, b);
      Halved(0, p, BitXor(x, y));
    }
  }

  lemma PowerStep(k: nat)
    ensures Power(k) == if k == 0 then 1 else 2 * Power(k - 1)
  {}

  lemma Halved(a: nat, p: nat, x: nat)
    ensures 2 * p * x == 2 * (p * x) && (a + 2 * p * x) / 2 == a / 2 + p * x && (a + 2 * p * x) % 2 == a % 2
  {
    assert 2 * p * x == 2 * (p * x);
  }

  lemma XorStep(a: nat, b: nat)
    ensures BitXor(a, b) == (if a % 2 != b % 2 then 1 else 0) + 2 * BitXor(a / 2, b / 2)
  {}

  lemma {:induction false} XorZeroIff(a: nat, b: nat)
    ensures BitXor(a, b) == 0 <==> a == b
    decreases a + b
  {
    if a != 0 || b != 0 { XorZeroIff(a / 2, b / 2); }
  }

  lemma {:induction false} XorBelow(a: nat, b: nat, k: nat)
    requires a < Power(k) && b < Power(k)
    ensures BitXor(a, b) < Power(k)
  {
    if k > 0 { XorBelow(a / 2, b / 2, k - 1); XorStep(a, b); }
  }

  lemma Power8()
    ensures Power(8) == 256
  {}

  /** The exclusive or of two byte strings, read as words, is that of their bytes. */
  lemma {:induction false} XorBytes(s: Blob, t: Blob)
    requires |s| == |t|
    ensures BitXor(Un(s), Un(t)) == Un(BytesXor(s, t))
  {
    hide BitXor;
    if s == [] {
      XorStep(0, 0);
    } else {
      XorBytes(s[1..], t[1..]);
      XorFirstByte(s[0], t[0], Un(s[1..]), Un(t[1..]));
      assert BytesXor(s, t)[1..] == BytesXor(s[1..], t[1..]);
    }
  }

  lemma XorFirstByte(a: Byte, b: Byte, x: nat, y: nat)
    ensures BitXor(a + 256 * x, b + 256 * y) == BitXor(a, b) + 256 * BitXor(x, y)
  {
    hide BitXor;
    Power8();
    XorParts(a, b, x, y, 8);
  }

  function BytesXor(s: Blob, t: Blob): (r: Blob)
    requires |s| == |t|
    ensures |r| == |s| && forall k :: 0 <= k < |s| ==> (r[k] == 0 <==> s[k] == t[k])
  {
    seq(|s|, k requires 0 <= k < |s| => XorByte(s[k], t[k]))
  }

  function XorByte(a: Byte, b: Byte): (r: Byte)
    ensures r == 0 <==> a == b
    ensures r == BitXor(a, b)
  {
    Power8();
    XorBelow(a, b, 8);
    XorZeroIff(a, b);
    BitXor(a, b)
  }

  /** The lowest set bit of a word lies in its first byte that is not zero. */
  lemma {:induction false} FirstNonZero(s: Blob, n: nat)
    requires n < |s| && s[n] != 0 && forall k :: 0 <= k < n ==> s[k] == 0
    ensures Un(s) > 0 && LowestBit(Un(s)) / 8 == n
  {
    if n == 0 {
      LowByte(s[0], Un(s[1..]));
    } else {
      FirstNonZero(s[1..], n - 1);
      assert Un(s) == 256 * Un(s[1..]);
      ShiftedByte(Un(s[1..]));
    }
  }

  lemma {:induction false} BelowPower(v: nat, k: nat, high: nat)
    requires 0 < v < Power(k)
    ensures v + Power(k) * high > 0 && LowestBit(v + Power(k) * high) == LowestBit(v) < k
  {
    if k > 0 {
      var p := Power(k - 1);
      Halved(v, p, high);
      if v % 2 == 0 { BelowPower(v / 2, k - 1, high); }
    }
  }

  lemma LowByte(b: Byte, high: nat)
    requires b != 0
    ensures b + 256 * high > 0 && LowestBit(b + 256 * high) < 8
  {
    Power8();
    BelowPower(b, 8, high);
  }

  lemma {:induction false} LowestDoubled(v: nat, k: nat)
    requires v > 0
    ensures Power(k) * v > 0 && LowestBit(Power(k) * v) == LowestBit(v) + k
  {
    hide Power, LowestBit;
    PowerStep(k);
    if k == 0 {
      assert 1 * v == v;
    } else {
      LowestDoubled(v, k - 1);
      Grouped(Power(k - 1), v);
      LowestOfDouble(Power(k - 1) * v);
    }
  }

  lemma Grouped(p: nat, v: nat)
    ensures 2 * p * v == 2 * (p * v)
  {}

  lemma LowestOfDouble(u: nat)
    requires u > 0
    ensures LowestBit(2 * u) == LowestBit(u) + 1
  {
    assert 2 * u / 2 == u;
  }

  lemma ShiftedByte(v: nat)
    requires v > 0
    ensures LowestBit(256 * v) == LowestBit(v) + 8
  {
    Power8();
    LowestDoubled(v, 8);
  }
}
