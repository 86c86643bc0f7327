/** The digit decoder of main.cpp: an ordinal becomes a vector of n = 16
    base-4 digits, least-significant digit first. */
module Decoder {

  /** The element type of every vector in the program (`uint8_t`). */
  type uint8 = x: int | 0 <= x < 256

  /** A position in a 16-entry vector. */
  type Position = p: nat | p < 16

  /** Vector length `n` and digit base `base` (main.cpp:223-224). */
  const N: nat := 16
  const Base: nat := 4

  /** 4^k as an exact integer. */
  function Pow4(k: nat): (p: nat)
    ensures p >= 1
  {
    if k == 0 then 1 else Base * Pow4(k - 1)
  }

  /** `totalCombinations`, 4^16; the program computes it with a floating-point
      `pow`, which is exact for this power of two. */
  const Total: nat := 0x1_0000_0000

  /** The constant is 4^n: the ordinals are exactly the numbers of n digits. */
  lemma TotalIsPow()
    ensures Pow4(N) == Total
  {
    assert Pow4(4) == 256;
    assert Pow4(8) == 256 * 256 by { assert Pow4(8) == Pow4(4) * 256; }
    assert Pow4(12) == Pow4(8) * 256;
    assert Pow4(16) == Pow4(12) * 256;
  }

  /** A digit vector: 16 entries, each in {0, 1, 2, 3}. */
  ghost predicate IsDigitVector(v: seq<uint8>)
  {
    |v| == N && forall j :: 0 <= j < |v| ==> v[j] < Base
  }

  /** The first n base-4 digits of i, least significant first. */
  function DigitsOf(i: nat, n: nat): (v: seq<uint8>)
    ensures |v| == n
    ensures forall j :: 0 <= j < n ==> v[j] < Base
  {
    if n == 0 then [] else [i % Base] + DigitsOf(i / Base, n - 1)
  }

  /** The vector the program builds for ordinal i. */
  function Decode(i: nat): (v: seq<uint8>)
    ensures IsDigitVector(v)
  {
    DigitsOf(i, N)
  }

  /** Re-encoding: the sum of v[j] * 4^j, written in Horner form. */
  function Value(v: seq<uint8>): nat
  {
    if v == [] then 0 else v[0] + Base * Value(v[1..])
  }

  /** The decode loop of `processRange`: `v[j] = num % base; num /= base`. */
  method DecodeOrdinal(i: nat) returns (v: seq<uint8>)
    ensures v == Decode(i)
  {
    var a := new uint8[N];
    var num: nat := i;
    for j := 0 to N
      invariant a[..j] == Decode(i)[..j]
      invariant DigitsOf(num, N - j) == Decode(i)[j..]
    {
      a[j] := num % Base;
      num := num / Base;
    }
    v := a[..];
  }

  /** Decoding followed by re-encoding gives the ordinal back. */
  lemma {:induction false} ValueOfDigits(i: nat, n: nat)
    requires i < Pow4(n)
    ensures Value(DigitsOf(i, n)) == i
  {
    if n > 0 {
      var d := DigitsOf(i, n);
      assert d[1..] == DigitsOf(i / Base, n - 1);
      assert i / Base < Pow4(n - 1);
      ValueOfDigits(i / Base, n - 1);
    }
  }

  /** Every vector of n digits is the decoding of its own value, and that
      value is below 4^n: decoding is onto. */
  lemma {:induction false} DigitsOfValue(v: seq<uint8>)
    requires forall j :: 0 <= j < |v| ==> v[j] < Base
    ensures Value(v) < Pow4(|v|)
    ensures DigitsOf(Value(v), |v|) == v
  {
    if v != [] {
      DigitsOfValue(v[1..]);
      var x := Value(v);
      assert x == v[0] + Base * Value(v[1..]);
      assert x % Base == v[0] && x / Base == Value(v[1..]);
    }
  }

  /** Two ordinals in [0, 4^16) with the same vector are equal. */
  lemma DecodeInjective(i: nat, k: nat)
    requires i < Total && k < Total
    requires Decode(i) == Decode(k)
    ensures i == k
  {
    TotalIsPow();
    ValueOfDigits(i, N);
    ValueOfDigits(k, N);
  }

  /** Every digit vector is decoded from exactly one ordinal in [0, 4^16). */
  lemma DecodeOnto(v: seq<uint8>)
    requires IsDigitVector(v)
    ensures Value(v) < Total && Decode(Value(v)) == v
  {
    TotalIsPow();
    DigitsOfValue(v);
  }

  /** Multiplying by a positive number keeps a strict order. */
  lemma MulCancelLess(b: int, x: int, y: int)
    requires b > 0 && b * x < b * y
    ensures x < y
  {
  }

  /** Division has one quotient: a == b * q + r with 0 <= r < b fixes q. */
  lemma DivUnique(a: int, b: int, q: int, r: int)
    requires b > 0 && 0 <= r < b && a == b * q + r
    ensures a / b == q
  {
    var q', r' := a / b, a % b;
    assert a == b * q' + r';
    assert b * q < b * (q' + 1) by {
      assert b * (q' + 1) == b * q' + b;
    }
    assert b * q' < b * (q + 1) by {
      assert b * (q + 1) == b * q + b;
    }
    MulCancelLess(b, q, q' + 1);
    MulCancelLess(b, q', q + 1);
  }

  /** (a / 4) / m == a / (4 * m). */
  lemma DivDiv(a: nat, m: nat)
    requires m > 0
    ensures (a / Base) / m == a / (Base * m)
  {
    var q, r := a / (Base * m), a % (Base * m);
    var h, l := r / Base, r % Base;
    assert a == Base * m * q + r;
    assert a == Base * (m * q + h) + l;
    DivUnique(a, Base, m * q + h, l);
    MulCancelLess(Base, h, m);
    DivUnique(a / Base, m, q, h);
  }

  /** Element j of the decoded vector is floor(i / 4^j) mod 4. */
  lemma {:induction false} DigitFormula(i: nat, n: nat, j: nat)
    requires j < n
    ensures DigitsOf(i, n)[j] == (i / Pow4(j)) % Base
  {
    if j > 0 {
      DigitFormula(i / Base, n - 1, j - 1);
      DivDiv(i, Pow4(j - 1));
    }
  }
}
