/** The group table `flatIndexes` and the triple-match checks `checkGroup`
    and `checkEmbeddedOr` of main.cpp. */
module Groups {
  import opened Decoder

  /** `flatIndexes`: 20 groups of 4 positions, stored back to back. */
  const FlatIndexes: seq<Position> := [
    0, 2, 8, 10, 0, 2, 12, 14, 0, 3, 8, 11, 0, 3, 12, 15,
    1, 2, 9, 10, 1, 2, 13, 14, 1, 3, 9, 11, 1, 3, 13, 15,
    4, 6, 8, 10, 4, 7, 8, 11, 5, 6, 9, 10, 5, 6, 13, 14,
    4, 7, 12, 15, 4, 6, 12, 14, 5, 7, 9, 11, 5, 7, 13, 15,
    0, 1, 4, 5, 2, 3, 6, 7, 8, 9, 12, 13, 10, 11, 14, 15
  ]

  /** `numGroups`, the table size divided by 4: the table splits evenly
      into exactly 20 groups. */
  function NumGroups(): (n: nat)
    ensures n == 20 && 4 * n == |FlatIndexes|
  {
    |FlatIndexes| / 4
  }

  /** Group k, the four entries starting at `&flatIndexes[k * 4]`. */
  function Group(k: nat): (g: seq<Position>)
    requires k < NumGroups()
    ensures |g| == 4
  {
    FlatIndexes[4 * k .. 4 * k + 4]
  }

  /** The values v holds at the positions of g, in the order of g. */
  function Picked(v: seq<uint8>, g: seq<Position>): (s: seq<uint8>)
    requires |v| == N
    ensures |s| == |g|
    ensures forall p :: 0 <= p < |g| ==> s[p] == v[g[p]]
  {
    if g == [] then [] else [v[g[0]]] + Picked(v, g[1..])
  }

  /** The number of entries of s equal to x. */
  function Count(s: seq<uint8>, x: int): (c: nat)
    ensures c <= |s|
  {
    if s == [] then 0 else (if s[0] == x then 1 else 0) + Count(s[1..], x)
  }

  /** Some value occurs at least three times at the positions of g. */
  ghost predicate TripleMatch(v: seq<uint8>, g: seq<Position>)
    requires |v| == N
  {
    exists x :: Count(Picked(v, g), x) >= 3
  }

  /** Some group of the table triple-matches. */
  ghost predicate EmbeddedOr(v: seq<uint8>)
    requires |v| == N
  {
    exists k :: 0 <= k < NumGroups() && TripleMatch(v, Group(k))
  }

  /** `checkGroup`: counts the four values in `counts[4]` and stops as soon
      as one count reaches 3. */
  method CheckGroup(v: seq<uint8>, g: seq<Position>) returns (found: bool)
    requires |v| == N && |g| == 4
    requires forall p :: 0 <= p < 4 ==> v[g[p]] < Base
    ensures found == TripleMatch(v, g)
  {
    ghost var s := Picked(v, g);
    var counts := new uint8[4](_ => 0);
    for i := 0 to 4
      invariant forall x :: 0 <= x < 4 ==> counts[x] == Count(s[..i], x) < 3
    {
      CountPrefixStep(s, i);
      counts[v[g[i]]] := counts[v[g[i]]] + 1;
      if counts[v[g[i]]] == 3 {
        CountPrefixAtMost(s, i + 1, s[i]);
        return true;
      }
    }
    assert s[..4] == s;
    forall x | !(0 <= x < 4)
      ensures Count(s, x) == 0
    {
      CountAbsent(s, x);
    }
    found := false;
  }

  /** `checkEmbeddedOr`: tries the groups in table order and stops at the
      first one that triple-matches. */
  method CheckEmbeddedOr(v: seq<uint8>) returns (found: bool)
    requires IsDigitVector(v)
    ensures found == EmbeddedOr(v)
  {
    var numGroups := NumGroups();
    for i := 0 to numGroups
      invariant forall k :: 0 <= k < i ==> !TripleMatch(v, Group(k))
    {
      var g := Group(i);
      assert forall p :: 0 <= p < 4 ==> g[p] < N;
      found := CheckGroup(v, g);
      if found {
        return;
      }
    }
    found := false;
  }

  /** The count of x in a list of four values. */
  lemma CountFour(s: seq<uint8>, x: int)
    requires |s| == 4
    ensures Count(s, x) ==
      (if s[0] == x then 1 else 0) + (if s[1] == x then 1 else 0) +
      (if s[2] == x then 1 else 0) + (if s[3] == x then 1 else 0)
  {
    var t1, t2, t3 := s[1..], s[2..], s[3..];
    assert t3[1..] == [] && t2[1..] == t3 && t1[1..] == t2;
    assert Count(t3, x) == (if s[3] == x then 1 else 0);
    assert Count(t2, x) == (if s[2] == x then 1 else 0) + Count(t3, x);
    assert Count(t1, x) == (if s[1] == x then 1 else 0) + Count(t2, x);
  }

  /** Three of the four values at the positions of g are equal. */
  ghost predicate ThreeEqual(v: seq<uint8>, g: seq<Position>)
    requires |v| == N && |g| == 4
  {
    exists p, q, r :: 0 <= p < q < r < 4 && v[g[p]] == v[g[q]] == v[g[r]]
  }

  /** A triple match exhibits three equal values. */
  lemma ThreeEqualOfTripleMatch(v: seq<uint8>, g: seq<Position>)
    requires |v| == N && |g| == 4 && TripleMatch(v, g)
    ensures ThreeEqual(v, g)
  {
    var s := Picked(v, g);
    var x :| Count(s, x) >= 3;
    CountFour(s, x);
    var (p, q, r) :=
      if s[0] != x then (1, 2, 3)
      else if s[1] != x then (0, 2, 3)
      else if s[2] != x then (0, 1, 3)
      else (0, 1, 2);
    assert s[p] == s[q] == s[r] == x;
  }

  /** The triple match is "three of the four values are equal". */
  lemma TripleMatchIffThreeEqual(v: seq<uint8>, g: seq<Position>)
    requires |v| == N && |g| == 4
    ensures TripleMatch(v, g) <==> ThreeEqual(v, g)
  {
    if TripleMatch(v, g) {
      ThreeEqualOfTripleMatch(v, g);
    }
    if ThreeEqual(v, g) {
      var p, q, r :| 0 <= p < q < r < 4 && v[g[p]] == v[g[q]] == v[g[r]];
      CountFour(Picked(v, g), v[g[p]]);
    }
  }

  /** Picking over a concatenation of position lists. */
  lemma PickedAppend(v: seq<uint8>, a: seq<Position>, b: seq<Position>)
    requires |v| == N
    ensures Picked(v, a + b) == Picked(v, a) + Picked(v, b)
  {
  }

  /** Counting over a concatenation. */
  lemma {:induction false} CountAppend(a: seq<uint8>, b: seq<uint8>, x: int)
    ensures Count(a + b, x) == Count(a, x) + Count(b, x)
  {
    if a == [] {
      assert a + b == b;
    } else {
      CountAppend(a[1..], b, x);
      assert (a + b)[1..] == a[1..] + b;
    }
  }

  /** Extending a prefix by one entry adds that entry to its count. */
  lemma CountPrefixStep(s: seq<uint8>, i: nat)
    requires i < |s|
    ensures forall x :: Count(s[..i + 1], x) == Count(s[..i], x) + (if s[i] == x then 1 else 0)
  {
    assert s[..i + 1] == s[..i] + [s[i]];
    forall x
      ensures Count(s[..i + 1], x) == Count(s[..i], x) + (if s[i] == x then 1 else 0)
    {
      CountAppend(s[..i], [s[i]], x);
    }
  }

  /** A prefix holds no more occurrences than the whole sequence. */
  lemma CountPrefixAtMost(s: seq<uint8>, k: nat, x: int)
    requires k <= |s|
    ensures Count(s[..k], x) <= Count(s, x)
  {
    assert s == s[..k] + s[k..];
    CountAppend(s[..k], s[k..], x);
  }

  /** A value that does not occur has count 0. */
  lemma {:induction false} CountAbsent(s: seq<uint8>, x: int)
    requires forall i :: 0 <= i < |s| ==> s[i] != x
    ensures Count(s, x) == 0
  {
    if s != [] {
      CountAbsent(s[1..], x);
    }
  }

  /** The count of x is its multiplicity in the multiset of s. */
  lemma {:induction false} CountIsMultiplicity(s: seq<uint8>, x: uint8)
    ensures Count(s, x) == multiset(s)[x]
  {
    if s != [] {
      CountIsMultiplicity(s[1..], x);
      var m: multiset<uint8> := multiset{s[0]};
      assert multiset(s) == m + multiset(s[1..]) by {
        assert s == [s[0]] + s[1..];
      }
    }
  }

  /** Removing entry j of a sequence removes one occurrence from its multiset. */
  lemma MultisetRemove<T>(h: seq<T>, j: nat)
    requires j < |h|
    ensures multiset(h[..j] + h[j + 1..]) == multiset(h) - multiset{h[j]}
  {
    assert h == h[..j] + [h[j]] + h[j + 1..];
  }

  /** Two multisets that agree after removing one common element agree. */
  lemma MultisetCancel<T>(a: multiset<T>, b: multiset<T>, x: T)
    requires x in a && x in b && a - multiset{x} == b - multiset{x}
    ensures a == b
  {
    assert a == (a - multiset{x}) + multiset{x};
    assert b == (b - multiset{x}) + multiset{x};
  }

  /** Picking commutes with removing entry j. */
  lemma PickedRemove(v: seq<uint8>, h: seq<Position>, j: nat)
    requires |v| == N && j < |h|
    ensures Picked(v, h[..j] + h[j + 1..]) == Picked(v, h)[..j] + Picked(v, h)[j + 1..]
  {
  }

  /** Matching the head of g with entry j of h leaves equal multisets. */
  lemma MultisetRemoveBoth<T>(g: seq<T>, h: seq<T>, j: nat)
    requires multiset(g) == multiset(h) && g != [] && j < |h| && h[j] == g[0]
    ensures multiset(g[1..]) == multiset(h[..j] + h[j + 1..])
  {
    MultisetRemove(h, j);
    MultisetRemove(g, 0);
    assert g[..0] + g[1..] == g[1..];
  }

  /** The inductive step of `PickedPermutation`. */
  lemma PickedPermutationStep(v: seq<uint8>, g: seq<Position>, h: seq<Position>, j: nat)
    requires |v| == N && g != [] && j < |h| && h[j] == g[0]
    requires multiset(Picked(v, g[1..])) == multiset(Picked(v, h[..j] + h[j + 1..]))
    ensures multiset(Picked(v, g)) == multiset(Picked(v, h))
  {
    var s, t := Picked(v, h), Picked(v, g);
    PickedRemove(v, h, j);
    PickedRemove(v, g, 0);
    assert g[..0] + g[1..] == g[1..];
    MultisetRemove(s, j);
    MultisetRemove(t, 0);
    assert s[j] == t[0];
    MultisetCancel(multiset(t), multiset(s), t[0]);
  }

  /** Reordering the positions of a list reorders the picked values. */
  lemma {:induction false} PickedPermutation(v: seq<uint8>, g: seq<Position>, h: seq<Position>)
    requires |v| == N && multiset(g) == multiset(h)
    ensures multiset(Picked(v, g)) == multiset(Picked(v, h))
  {
    if g == [] {
      assert |h| == |multiset(h)| == 0;
    } else {
      assert g[0] in multiset(h);
      var j :| 0 <= j < |h| && h[j] == g[0];
      MultisetRemoveBoth(g, h, j);
      PickedPermutation(v, g[1..], h[..j] + h[j + 1..]);
      PickedPermutationStep(v, g, h, j);
    }
  }

  /** `checkGroup` does not depend on the order of the four positions. */
  lemma TripleMatchOrderFree(v: seq<uint8>, g: seq<Position>, h: seq<Position>)
    requires |v| == N && multiset(g) == multiset(h)
    ensures TripleMatch(v, g) ==> TripleMatch(v, h)
  {
    if TripleMatch(v, g) {
      var s := Picked(v, g);
      var x :| Count(s, x) >= 3;
      if forall i :: 0 <= i < |s| ==> s[i] != x {
        CountAbsent(s, x);
      }
      var i :| 0 <= i < |s| && s[i] == x;
      var y: uint8 := s[i];
      PickedPermutation(v, g, h);
      CountIsMultiplicity(s, y);
      CountIsMultiplicity(Picked(v, h), y);
    }
  }

  /** A vector whose entries are all 0 or 1. */
  ghost predicate IsBinary(v: seq<uint8>)
  {
    forall i :: 0 <= i < |v| ==> v[i] <= 1
  }

  /** The binary vector with the roles of 0 and 1 exchanged. */
  function Swap01(v: seq<uint8>): (w: seq<uint8>)
    requires IsBinary(v)
    ensures |w| == |v|
    ensures forall i :: 0 <= i < |v| ==> w[i] == 1 - v[i]
  {
    if v == [] then [] else [1 - v[0]] + Swap01(v[1..])
  }

  /** Exchanging 0 and 1 exchanges their counts. */
  lemma {:induction false} Swap01Counts(s: seq<uint8>, x: int)
    requires IsBinary(s)
    ensures Count(Swap01(s), x) == Count(s, 1 - x)
  {
    if s != [] {
      Swap01Counts(s[1..], x);
      assert Swap01(s)[1..] == Swap01(s[1..]);
    }
  }

  /** In a binary vector, exchanging 0 and 1 does not change `checkGroup`. */
  lemma TripleMatchSwap01(v: seq<uint8>, g: seq<Position>)
    requires |v| == N && IsBinary(v)
    ensures TripleMatch(Swap01(v), g) <==> TripleMatch(v, g)
  {
    var s, t := Picked(v, g), Picked(Swap01(v), g);
    assert IsBinary(s);
    assert t == Swap01(s);
    if TripleMatch(v, g) {
      var x :| Count(s, x) >= 3;
      Swap01Counts(s, 1 - x);
    }
    if TripleMatch(Swap01(v), g) {
      var x :| Count(t, x) >= 3;
      Swap01Counts(s, x);
    }
  }

  /** Hence, in a binary vector, exchanging 0 and 1 does not change
      `checkEmbeddedOr`. */
  lemma EmbeddedOrSwap01(v: seq<uint8>)
    requires |v| == N && IsBinary(v)
    ensures EmbeddedOr(Swap01(v)) <==> EmbeddedOr(v)
  {
    forall k | 0 <= k < NumGroups()
      ensures TripleMatch(Swap01(v), Group(k)) <==> TripleMatch(v, Group(k))
    {
      TripleMatchSwap01(v, Group(k));
    }
  }
}
