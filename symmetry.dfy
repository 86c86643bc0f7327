/** The modular symmetry predicate of main.cpp: `posMod` and
    `checkPermittedSum`. */
module Symmetry {
  import opened Decoder

  /** C++'s `a % 4` on `int`: the quotient is truncated toward zero, so a
      negative dividend leaves a remainder that is zero or negative. */
  function CRem4(a: int): (r: int)
    ensures a >= 0 ==> 0 <= r < 4
    ensures a < 0 ==> -4 < r <= 0
    ensures (a - r) % 4 == 0
  {
    if a >= 0 then a % 4 else -((-a) % 4)
  }

  /** `posMod`: `(i % 4 + 4) % 4` with C++'s `%`, returned as `uint8_t`.
      The result lies in [0, 4), is congruent to i, and is therefore the
      Euclidean remainder i mod 4, negative i included. */
  function PosMod(i: int): (r: uint8)
    ensures r < Base && (i - r) % Base == 0
    ensures r == i % Base
  {
    CRem4(CRem4(i) + 4)
  }

  /** One family (a, b, c, d) of the symmetry constraints. */
  datatype Family = Family(a: Position, b: Position, c: Position, d: Position)

  /** The four families the program checks, in its order. */
  const Families: seq<Family> := [
    Family(0, 5, 1, 4), Family(2, 3, 6, 7), Family(8, 13, 12, 9), Family(10, 15, 14, 11)
  ]

  /** Sums and differences of the two pairs of f agree modulo 4. */
  ghost predicate FamilyHolds(v: seq<uint8>, f: Family)
    requires |v| == N
  {
    (v[f.a] as int + v[f.b] as int) % Base == (v[f.c] as int + v[f.d] as int) % Base &&
    (v[f.a] as int - v[f.b] as int) % Base == (v[f.c] as int - v[f.d] as int) % Base
  }

  /** All four families hold. */
  ghost predicate Permitted(v: seq<uint8>)
    requires |v| == N
  {
    forall k :: 0 <= k < |Families| ==> FamilyHolds(v, Families[k])
  }

  /** The two comparisons `checkPermittedSum` makes for family f: the sums,
      then the differences, each `posMod(..) % 4 != posMod(..)`. */
  function FamilyCheck(v: seq<uint8>, f: Family): (ok: bool)
    requires |v| == N
    ensures ok <==> FamilyHolds(v, f)
  {
    var a, b, c, d := v[f.a] as int, v[f.b] as int, v[f.c] as int, v[f.d] as int;
    var sum1, sum2 := PosMod(a + b), PosMod(c + d);
    var diff1, diff2 := PosMod(a - b), PosMod(c - d);
    assert sum1 % 4 == sum1 && diff1 % 4 == diff1;
    if sum1 % 4 != sum2 then false
    else if diff1 % 4 != diff2 then false
    else true
  }

  /** `checkPermittedSum`: the eight comparisons in the program's order, the
      first failing one answering false. */
  function CheckPermittedSum(v: seq<uint8>): (ok: bool)
    requires |v| == N
    ensures ok <==> Permitted(v)
  {
    assert Families[0] == Family(0, 5, 1, 4) && Families[1] == Family(2, 3, 6, 7);
    assert Families[2] == Family(8, 13, 12, 9) && Families[3] == Family(10, 15, 14, 11);
    FamilyCheck(v, Family(0, 5, 1, 4)) &&
    FamilyCheck(v, Family(2, 3, 6, 7)) &&
    FamilyCheck(v, Family(8, 13, 12, 9)) &&
    FamilyCheck(v, Family(10, 15, 14, 11))
  }

  /** x % 4 and y % 4 agree only when y - x is a multiple of 4. */
  lemma SameRemainder(x: int, y: int)
    requires x % 4 == y % 4
    ensures (y - x) % 4 == 0
  {
    assert x == 4 * (x / 4) + x % 4;
    assert y == 4 * (y / 4) + y % 4;
    assert y - x == 4 * (y / 4 - x / 4);
  }

  lemma SmallMultiple(x: int)
    requires -6 <= x <= 6 && x % 4 == 0
    ensures x == -4 || x == 0 || x == 4
  {
  }

  lemma RemainderOfShift(x: int, k: int)
    ensures (x + 4 * k) % 4 == x % 4
  {
  }

  /** Adding 2 to a digit, mod 4. */
  lemma AddTwo(x: int)
    requires 0 <= x < 4
    ensures (x + 2) % 4 == if x < 2 then x + 2 else x - 2
  {
  }

  /** Digits (c, d) with the sum and the difference of (a, b) mod 4 are
      (a, b) itself or (a, b) shifted by 2. */
  lemma PairsShift(a: int, b: int, c: int, d: int)
    requires 0 <= a < 4 && 0 <= b < 4 && 0 <= c < 4 && 0 <= d < 4
    requires (a + b) % 4 == (c + d) % 4 && (a - b) % 4 == (c - d) % 4
    ensures (c == a && d == b) || (c == (a + 2) % 4 && d == (b + 2) % 4)
  {
    SameRemainder(a + b, c + d);
    SameRemainder(a - b, c - d);
    var s, t := c - a, d - b;
    SmallMultiple(s + t);
    SmallMultiple(s - t);
    AddTwo(a);
    AddTwo(b);
    if s == 0 {
      assert t == 0;
    } else {
      assert s == 2 || s == -2;
      assert t == 2 || t == -2;
    }
  }

  /** Shifting both digits of a pair by 2 keeps its sum and difference
      mod 4. */
  lemma ShiftPairs(a: int, b: int, c: int, d: int)
    requires 0 <= a < 4 && 0 <= b < 4
    requires c == (a + 2) % 4 && d == (b + 2) % 4
    ensures (a + b) % 4 == (c + d) % 4 && (a - b) % 4 == (c - d) % 4
  {
    var i, j := (a + 2) / 4, (b + 2) / 4;
    assert c == a + 2 - 4 * i && d == b + 2 - 4 * j;
    RemainderOfShift(a + b, 1 - i - j);
    RemainderOfShift(a - b, j - i);
  }

  /** For digits, a family holds exactly when its second pair equals its
      first pair, or equals it with 2 added to both entries (mod 4). */
  lemma FamilyHoldsIff(v: seq<uint8>, f: Family)
    requires IsDigitVector(v)
    ensures FamilyHolds(v, f) <==>
      (v[f.c] == v[f.a] && v[f.d] == v[f.b]) ||
      (v[f.c] == (v[f.a] + 2) % Base && v[f.d] == (v[f.b] + 2) % Base)
  {
    var a, b, c, d := v[f.a] as int, v[f.b] as int, v[f.c] as int, v[f.d] as int;
    if FamilyHolds(v, f) {
      PairsShift(a, b, c, d);
    } else if c == (a + 2) % 4 && d == (b + 2) % 4 {
      ShiftPairs(a, b, c, d);
    }
  }

  /** The all-zero vector passes. */
  lemma ZeroVectorPermitted()
    ensures CheckPermittedSum(seq(N, _ => 0))
  {
    var z: seq<uint8> := seq(N, _ => 0);
    forall k | 0 <= k < |Families|
      ensures FamilyHolds(z, Families[k])
    {
      var f := Families[k];
      assert z[f.a] == z[f.b] == z[f.c] == z[f.d] == 0;
    }
  }

  /** Replacing digit a of a pair whose sum matches c + d mod 4 by a
      different digit x breaks the match. */
  lemma SumBroken(x: int, a: int, b: int, c: int, d: int)
    requires 0 <= x < Base && 0 <= a < Base && x != a
    requires (a + b) % Base == (c + d) % Base
    ensures (x + b) % Base != (c + d) % Base
  {
    if (x + b) % Base == (c + d) % Base {
      SameRemainder(a + b, x + b);
    }
  }

  /** A family's four positions. */
  function Members(f: Family): set<Position>
  {
    {f.a, f.b, f.c, f.d}
  }

  /** A family's four positions are pairwise different. */
  ghost predicate Distinct(f: Family)
  {
    f.a != f.b && f.a != f.c && f.a != f.d && f.b != f.c && f.b != f.d && f.c != f.d
  }

  /** Changing one digit of a family that holds breaks its sum equation. */
  lemma FamilyDigitChange(v: seq<uint8>, f: Family, p: Position, x: uint8)
    requires IsDigitVector(v) && x < Base && x != v[p]
    requires p in Members(f) && Distinct(f)
    requires FamilyHolds(v, f)
    ensures !FamilyHolds(v[p := x], f)
  {
    var w := v[p := x];
    var a, b, c, d := v[f.a] as int, v[f.b] as int, v[f.c] as int, v[f.d] as int;
    if p == f.a {
      assert w[f.a] == x && w[f.b] == b && w[f.c] == c && w[f.d] == d;
      SumBroken(x, a, b, c, d);
    } else if p == f.b {
      assert w[f.a] == a && w[f.b] == x && w[f.c] == c && w[f.d] == d;
      SumBroken(x, b, a, c, d);
    } else if p == f.c {
      assert w[f.a] == a && w[f.b] == b && w[f.c] == x && w[f.d] == d;
      SumBroken(x, c, d, a, b);
    } else {
      assert w[f.a] == a && w[f.b] == b && w[f.c] == c && w[f.d] == x;
      SumBroken(x, d, c, a, b);
    }
  }

  /** The families are the four 2x2 blocks of the 4x4 grid (row-major
      positions): position p lies in the family of its block and in no
      other. */
  function BlockOf(p: Position): (k: nat)
    ensures k < |Families| && p in Members(Families[k])
    ensures forall j :: 0 <= j < |Families| && j != k ==> p !in Members(Families[j])
  {
    (p / 8) * 2 + (p % 4) / 2
  }

  /** Changing a single digit of a permitted vector makes it fail. */
  lemma PermittedSingleDigitChange(v: seq<uint8>, p: Position, x: uint8)
    requires IsDigitVector(v) && x < Base && x != v[p]
    requires CheckPermittedSum(v)
    ensures !CheckPermittedSum(v[p := x])
  {
    var f := Families[BlockOf(p)];
    assert Distinct(f);
    FamilyDigitChange(v, f, p, x);
  }
}
