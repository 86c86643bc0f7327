/** The collapsibility reducer `collapsable` of main.cpp: seven
    binarizations of a copy of the vector, each of which must still
    triple-match somewhere. */
module Collapse {
  import opened Decoder
  import opened Groups

  /** The digits each transform maps to 0, in the program's order; every
      other digit maps to 1. The first transform (`e != 0 -> 1`) leaves 0
      unchanged, which is the same as mapping it to 0. */
  const ZeroSets: seq<set<int>> := [{0}, {1}, {2}, {3}, {0, 1}, {0, 2}, {0, 3}]

  /** The binarized copy: entry i is 0 when v[i] is in zeros, 1 otherwise. */
  function Binarize(v: seq<uint8>, zeros: set<int>): (b: seq<uint8>)
    ensures |b| == |v| && IsBinary(b)
    ensures forall i :: 0 <= i < |v| ==> (b[i] == 0 <==> v[i] in zeros)
  {
    seq(|v|, i requires 0 <= i < |v| => if v[i] in zeros then 0 else 1)
  }

  /** One range-for loop of `collapsable`, rewriting `temp` in place. */
  method BinarizeInPlace(temp: array<uint8>, zeros: set<int>)
    modifies temp
    ensures temp[..] == Binarize(old(temp[..]), zeros)
  {
    for j := 0 to temp.Length
      invariant temp[..j] == Binarize(old(temp[..]), zeros)[..j]
      invariant temp[j..] == old(temp[..])[j..]
    {
      if temp[j] in zeros {
        temp[j] := 0;
      } else {
        temp[j] := 1;
      }
    }
  }

  /** One block of `collapsable`: `temp = v`, binarize `temp`, then
      `checkEmbeddedOr(temp)`. */
  method BinarizedMatches(v: seq<uint8>, zeros: set<int>) returns (found: bool)
    requires IsDigitVector(v)
    ensures found == EmbeddedOr(Binarize(v, zeros))
  {
    var temp := new uint8[|v|](i requires 0 <= i < |v| => v[i]);
    assert temp[..] == v;
    BinarizeInPlace(temp, zeros);
    found := CheckEmbeddedOr(temp[..]);
  }

  /** Every one of the seven binarizations triple-matches somewhere. */
  ghost predicate IsCollapsable(v: seq<uint8>)
    requires |v| == N
  {
    forall k :: 0 <= k < |ZeroSets| ==> EmbeddedOr(Binarize(v, ZeroSets[k]))
  }

  /** `collapsable`: the seven blocks in order, answering false at the first
      binarization without a triple match. The vector itself is a value and
      is never changed. */
  method Collapsable(v: seq<uint8>) returns (c: bool)
    requires IsDigitVector(v)
    ensures c == IsCollapsable(v)
  {
    var found := BinarizedMatches(v, ZeroSets[0]);
    if !found {
      return false;
    }
    found := BinarizedMatches(v, ZeroSets[1]);
    if !found {
      return false;
    }
    found := BinarizedMatches(v, ZeroSets[2]);
    if !found {
      return false;
    }
    found := BinarizedMatches(v, ZeroSets[3]);
    if !found {
      return false;
    }
    found := BinarizedMatches(v, ZeroSets[4]);
    if !found {
      return false;
    }
    found := BinarizedMatches(v, ZeroSets[5]);
    if !found {
      return false;
    }
    found := BinarizedMatches(v, ZeroSets[6]);
    if !found {
      return false;
    }
    return true;
  }

  /** Binarizing the picked values is picking from the binarized vector. */
  lemma PickedBinarize(v: seq<uint8>, g: seq<Position>, zeros: set<int>)
    requires |v| == N
    ensures Picked(Binarize(v, zeros), g) == Binarize(Picked(v, g), zeros)
  {
  }

  /** All entries equal to x land on the same bit, so its bit occurs at
      least as often after binarizing. */
  lemma {:induction false} CountBinarize(s: seq<uint8>, zeros: set<int>, x: int)
    ensures Count(Binarize(s, zeros), if x in zeros then 0 else 1) >= Count(s, x)
  {
    if s != [] {
      CountBinarize(s[1..], zeros, x);
      assert Binarize(s, zeros)[1..] == Binarize(s[1..], zeros);
    }
  }

  /** A triple match survives every binarization. */
  lemma TripleMatchBinarize(v: seq<uint8>, g: seq<Position>, zeros: set<int>)
    requires |v| == N && TripleMatch(v, g)
    ensures TripleMatch(Binarize(v, zeros), g)
  {
    var x :| Count(Picked(v, g), x) >= 3;
    PickedBinarize(v, g, zeros);
    CountBinarize(Picked(v, g), zeros, x);
  }

  /** A vector that already triple-matches on its raw digits is collapsable;
      so a vector that is not collapsable passes the first gate. */
  lemma EmbeddedOrCollapsable(v: seq<uint8>)
    requires |v| == N && EmbeddedOr(v)
    ensures IsCollapsable(v)
  {
    var k :| 0 <= k < NumGroups() && TripleMatch(v, Group(k));
    forall j | 0 <= j < |ZeroSets|
      ensures EmbeddedOr(Binarize(v, ZeroSets[j]))
    {
      TripleMatchBinarize(v, Group(k), ZeroSets[j]);
    }
  }

  /** The four digits. */
  const AllDigits: set<int> := {0, 1, 2, 3}

  /** A split of the digits into two non-empty classes, named by the class
      that maps to 0. */
  ghost predicate IsSplit(zeros: set<int>)
  {
    zeros <= AllDigits && zeros != {} && zeros != AllDigits
  }

  /** Two sets that contain the same digits. */
  ghost predicate SameDigits(a: set<int>, b: set<int>)
  {
    forall x :: 0 <= x < Base ==> (x in a <==> x in b)
  }

  /** On a digit vector, binarizing depends only on which digits go to 0. */
  lemma BinarizeSameDigits(v: seq<uint8>, a: set<int>, b: set<int>)
    requires IsDigitVector(v) && SameDigits(a, b)
    ensures Binarize(v, a) == Binarize(v, b)
  {
  }

  /** Sending the other class to 0 exchanges 0 and 1 in the binarized copy. */
  lemma BinarizeComplement(v: seq<uint8>, zeros: set<int>)
    requires IsDigitVector(v)
    ensures Binarize(v, AllDigits - zeros) == Swap01(Binarize(v, zeros))
  {
  }

  /** Each split of the digits is one of the seven transforms, or the
      complement of one. */
  lemma SplitIsTransform(zeros: set<int>) returns (k: nat, flipped: bool)
    requires IsSplit(zeros)
    ensures k < |ZeroSets|
    ensures SameDigits(zeros, if flipped then AllDigits - ZeroSets[k] else ZeroSets[k])
  {
    flipped := 0 !in zeros;
    var t := if flipped then AllDigits - zeros else zeros;
    assert 0 in t;
    if 1 in t && 2 in t {
      assert 3 !in t;
      k := 3;
    } else if 1 in t && 3 in t {
      k := 2;
    } else if 2 in t && 3 in t {
      k := 1;
    } else if 1 in t {
      k := 4;
    } else if 2 in t {
      k := 5;
    } else if 3 in t {
      k := 6;
    } else {
      k := 0;
    }
    flipped := flipped != (k in {1, 2, 3});
  }

  /** `collapsable` holds exactly when, for every way of splitting the four
      digits into two non-empty classes, the binarized copy triple-matches:
      the seven transforms are the seven splits, and exchanging 0 and 1
      does not change `checkEmbeddedOr`. */
  lemma CollapsableIffEverySplit(v: seq<uint8>)
    requires IsDigitVector(v)
    ensures IsCollapsable(v) <==>
      forall zeros :: IsSplit(zeros) ==> EmbeddedOr(Binarize(v, zeros))
  {
    if IsCollapsable(v) {
      forall zeros | IsSplit(zeros)
        ensures EmbeddedOr(Binarize(v, zeros))
      {
        var k, flipped := SplitIsTransform(zeros);
        var rule := ZeroSets[k];
        assert EmbeddedOr(Binarize(v, rule));
        if flipped {
          BinarizeSameDigits(v, zeros, AllDigits - rule);
          BinarizeComplement(v, rule);
          EmbeddedOrSwap01(Binarize(v, rule));
        } else {
          BinarizeSameDigits(v, zeros, rule);
        }
      }
    }
    if forall zeros :: IsSplit(zeros) ==> EmbeddedOr(Binarize(v, zeros)) {
      forall k | 0 <= k < |ZeroSets|
        ensures EmbeddedOr(Binarize(v, ZeroSets[k]))
      {
        assert IsSplit(ZeroSets[k]);
      }
    }
  }
}
