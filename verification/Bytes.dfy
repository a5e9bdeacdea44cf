/** Little-endian numbers in byte strings. */
module Bytes {
  import opened Lines

  type Blob = seq<Byte>
  type U32 = x: nat | x < 0x1_0000_0000
  type U64 = x: nat | x < 0x1_0000_0000_0000_0000

  function Limit(n: nat): (p: nat)
    ensures p >= 1
  {
    if n == 0 then 1 else 256 * Limit(n - 1)
  }

  lemma Limits()
    ensures Limit(2) == 0x1_0000 && Limit(4) == 0x1_0000_0000 && Limit(8) == 0x1_0000_0000_0000_0000
  {}

  /** The `n` low bytes of a number, lowest first. */
  function Le(v: nat, n: nat): (s: Blob)
    ensures |s| == n
  {
    if n == 0 then [] else [v % 256] + Le(v / 256, n - 1)
  }

  function Un(s: Blob): nat {
    if s == [] then 0 else s[0] + 256 * Un(s[1..])
  }

  /** What does not fit is cut off at the top. */
  lemma {:induction false} UnLeWraps(v: nat, n: nat)
    ensures Un(Le(v, n)) == v % Limit(n)
  {
    if n > 0 {
      UnLeWraps(v / 256, n - 1);
      assert Le(v, n)[1..] == Le(v / 256, n - 1);
      ModParts(v, Limit(n - 1));
    }
  }

  lemma ModParts(v: nat, p: nat)
    requires p >= 1
    ensures v % (256 * p) == v % 256 + 256 * (v / 256 % p)
  {
    var q, r := v / 256 / p, v / 256 % p;
    assert v / 256 == q * p + r;
    assert v == 256 * (v / 256) + v % 256;
    assert 256 * (q * p + r) == q * (256 * p) + 256 * r;
    ModIs(v, 256 * p, q, 256 * r + v % 256);
  }

  lemma ModIs(v: nat, m: nat, q: nat, r: nat)
    requires r < m && v == q * m + r
    ensures v % m == r
  {
    var q' := v / m;
    assert v == q' * m + v % m;
    if q' > q { Multiples(q, q', m); }
    if q' < q { Multiples(q', q, m); }
  }

  lemma Multiples(a: nat, b: nat, m: nat)
    requires a < b
    ensures a * m + m <= b * m
  {
    assert (a + 1) * m <= b * m;
  }

  lemma UnLe(v: nat, n: nat)
    requires v < Limit(n)
    ensures Un(Le(v, n)) == v
  {
    UnLeWraps(v, n);
  }

  lemma {:induction false} UnBelow(s: Blob)
    ensures Un(s) < Limit(|s|)
  {
    if s != [] { UnBelow(s[1..]); }
  }

  /** The number in `n` bytes of a file. */
  function Word(file: Blob, at: nat, n: nat): nat
    requires at + n <= |file|
  {
    Un(file[at..at + n])
  }

  /** The bytes of `s` stand in the file at `at`. */
  predicate Holds(file: Blob, at: nat, s: Blob) {
    at + |s| <= |file| && file[at..at + |s|] == s
  }

  lemma Apart(file: Blob, at: nat, a: Blob, b: Blob)
    ensures Holds(file, at, a + b) <==> Holds(file, at, a) && Holds(file, at + |a|, b)
  {
    if Holds(file, at, a + b) {
      var whole := file[at..at + |a| + |b|];
      assert file[at..at + |a|] == whole[..|a|] && file[at + |a|..at + |a| + |b|] == whole[|a|..];
    }
    if Holds(file, at, a) && Holds(file, at + |a|, b) {
      assert file[at..at + |a| + |b|] == file[at..at + |a|] + file[at + |a|..at + |a| + |b|];
    }
  }

  /** Read one number off the front of what stands there. */
  lemma Take(file: Blob, at: nat, v: nat, n: nat, rest: Blob)
    requires Holds(file, at, Le(v, n) + rest) && v < Limit(n)
    ensures at + n <= |file| && Word(file, at, n) == v && Holds(file, at + n, rest)
  {
    Apart(file, at, Le(v, n), rest);
    UnLe(v, n);
  }

  /** The same for a number that may not fit. */
  lemma TakeWrapped(file: Blob, at: nat, v: nat, n: nat, rest: Blob)
    requires Holds(file, at, Le(v, n) + rest)
    ensures at + n <= |file| && Word(file, at, n) == v % Limit(n) && Holds(file, at + n, rest)
  {
    Apart(file, at, Le(v, n), rest);
    UnLeWraps(v, n);
  }

  /** Bit `k` of a number. */
  predicate Bit(v: nat, k: nat) {
    if k == 0 then v % 2 == 1 else Bit(v / 2, k - 1)
  }

  function Power(k: nat): (p: nat)
    ensures p >= 1
  {
    if k == 0 then 1 else 2 * Power(k - 1)
  }

  /** A name without the NULs it ends in. */
  function TrimNul(s: Blob): (t: Blob)
    ensures |t| <= |s| && t == s[..|t|] && (t != [] ==> t[|t| - 1] != 0)
  {
    if s != [] && s[|s| - 1] == 0 then TrimNul(s[..|s| - 1]) else s
  }

  lemma {:induction false} TrimZeros(s: Blob, z: Blob)
    requires forall k :: 0 <= k < |z| ==> z[k] == 0
    ensures TrimNul(s + z) == TrimNul(s)
    decreases |z|
  {
    if z == [] {
      assert s + z == s;
    } else {
      var y := z[..|z| - 1];
      assert (s + z)[..|s + z| - 1] == s + y && (s + z)[|s + z| - 1] == z[|z| - 1];
      TrimZeros(s, y);
    }
  }
}
