/** The counters and collections of `processRange` as one value, and their
    evolution over a range of ordinals. Every function here takes the
    classification of the ordinals as a parameter `gates` (how many of the
    three gates the vector of each ordinal passes), so that what is proved
    here holds whatever the gates are. */
module Tallying {
  import opened Decoder

  /** Sampling periods of `embeddedOrSamples` and `permittedSamples`. */
  const EmbeddedSamplePeriod: nat := 1000000
  const PermittedSamplePeriod: nat := 1000

  /** `count`, `embeddedCount`, `permittedCount`, `collapsableCount`,
      `result`, `embeddedOrSamples` and `permittedSamples`. */
  datatype Tallies = Tallies(
    count: nat, embeddedCount: nat, permittedCount: nat, collapsableCount: nat,
    result: seq<seq<uint8>>, embeddedOrSamples: seq<seq<uint8>>, permittedSamples: seq<seq<uint8>>)

  /** Nothing counted and nothing collected. */
  const Empty := Tallies(0, 0, 0, 0, [], [], [])

  /** The counters are nested and `result` holds one vector per
      `collapsableCount`. */
  ghost predicate Consistent(t: Tallies)
  {
    t.collapsableCount <= t.permittedCount <= t.embeddedCount <= t.count &&
    |t.result| == t.collapsableCount
  }

  /** The effect of one ordinal whose vector v passes n gates: `count`
      always grows, each gate counter grows when v passes that gate, a
      vector passing all three gates is appended to `result`, a vector
      passing gate 1 is sampled when the incremented `embeddedCount` is a
      multiple of its period, and a vector stopped at gate 3 is sampled when
      the incremented `permittedCount` is a multiple of its period. */
  function Step(t: Tallies, v: seq<uint8>, n: nat): Tallies
  {
    var e := t.embeddedCount + (if n >= 1 then 1 else 0);
    var p := t.permittedCount + (if n >= 2 then 1 else 0);
    Tallies(
      t.count + 1, e, p, t.collapsableCount + (if n >= 3 then 1 else 0),
      t.result + (if n >= 3 then [v] else []),
      t.embeddedOrSamples + (if n >= 1 && e % EmbeddedSamplePeriod == 0 then [v] else []),
      t.permittedSamples + (if n == 2 && p % PermittedSamplePeriod == 0 then [v] else []))
  }

  /** The tallies after the ordinals of [start, end), in increasing order,
      starting from t. */
  function Scan(gates: nat -> nat, t: Tallies, start: nat, end: nat): Tallies
    requires start <= end
    decreases end - start
  {
    if end == start then t
    else Step(Scan(gates, t, start, end - 1), Decode(end - 1), gates(end - 1))
  }

  /** The vectors of the ordinals in [start, end) that pass all three
      gates, in ordinal order. */
  function Survivors(gates: nat -> nat, start: nat, end: nat): seq<seq<uint8>>
    requires start <= end
    decreases end - start
  {
    if end == start then []
    else Survivors(gates, start, end - 1) + (if gates(end - 1) >= 3 then [Decode(end - 1)] else [])
  }

  /** Over a range, `count` grows by its length, each later gate counter
      grows by at most as much as the one before it, and `result` grows by
      one vector per `collapsableCount` increment: the nesting
      `collapsableCount <= permittedCount <= embeddedCount <= count` and
      `|result| == collapsableCount` carry over from t. */
  lemma {:induction false} ScanCounters(gates: nat -> nat, t: Tallies, start: nat, end: nat)
    requires start <= end
    ensures var s := Scan(gates, t, start, end);
      s.count == t.count + (end - start) &&
      t.collapsableCount <= s.collapsableCount &&
      s.collapsableCount - t.collapsableCount <= s.permittedCount - t.permittedCount &&
      s.permittedCount - t.permittedCount <= s.embeddedCount - t.embeddedCount &&
      s.embeddedCount - t.embeddedCount <= end - start &&
      |s.result| - |t.result| == s.collapsableCount - t.collapsableCount
    decreases end - start
  {
    if end > start {
      ScanCounters(gates, t, start, end - 1);
    }
  }

  /** A range of ordinals keeps the tallies consistent. */
  lemma ScanConsistent(gates: nat -> nat, t: Tallies, start: nat, end: nat)
    requires Consistent(t) && start <= end
    ensures Consistent(Scan(gates, t, start, end))
  {
    ScanCounters(gates, t, start, end);
  }

  /** Processing [start, mid) and then [mid, end) is processing [start, end):
      how the ordinals are split into consecutive ranges does not change
      the tallies. */
  lemma {:induction false} ScanSplit(gates: nat -> nat, t: Tallies, start: nat, mid: nat, end: nat)
    requires start <= mid <= end
    ensures Scan(gates, t, start, end) == Scan(gates, Scan(gates, t, start, mid), mid, end)
    decreases end - mid
  {
    if end > mid {
      ScanSplit(gates, t, start, mid, end - 1);
    }
  }

  /** What a range appends to `result` is its survivors. */
  lemma {:induction false} ScanResult(gates: nat -> nat, t: Tallies, start: nat, end: nat)
    requires start <= end
    ensures Scan(gates, t, start, end).result == t.result + Survivors(gates, start, end)
    decreases end - start
  {
    if end > start {
      ScanResult(gates, t, start, end - 1);
      var added := if gates(end - 1) >= 3 then [Decode(end - 1)] else [];
      assert Scan(gates, t, start, end).result == Scan(gates, t, start, end - 1).result + added;
    }
  }

  /** The survivors of a range are exactly the digit vectors whose ordinal
      lies in the range and passes all three gates. */
  lemma {:induction false} SurvivorsMember(gates: nat -> nat, start: nat, end: nat, v: seq<uint8>)
    requires start <= end <= Total
    ensures v in Survivors(gates, start, end) <==>
      IsDigitVector(v) && start <= Value(v) < end && gates(Value(v)) >= 3
    decreases end - start
  {
    if end > start {
      var s, w := Survivors(gates, start, end - 1), Decode(end - 1);
      assert Survivors(gates, start, end) == s + (if gates(end - 1) >= 3 then [w] else []);
      SurvivorsMember(gates, start, end - 1, v);
      TotalIsPow();
      ValueOfDigits(end - 1, N);
      if IsDigitVector(v) && Value(v) == end - 1 {
        DecodeOnto(v);
      }
    }
  }

  /** The survivors of a range come in increasing ordinal order, so none
      appears twice. */
  lemma {:induction false} SurvivorsOrdered(gates: nat -> nat, start: nat, end: nat, j: nat, k: nat)
    requires start <= end <= Total && j < k < |Survivors(gates, start, end)|
    ensures Value(Survivors(gates, start, end)[j]) < Value(Survivors(gates, start, end)[k])
    decreases end - start
  {
    var s, w := Survivors(gates, start, end - 1), Decode(end - 1);
    var r := Survivors(gates, start, end);
    assert r == s + (if gates(end - 1) >= 3 then [w] else []);
    assert r[j] == s[j];
    if k == |s| {
      assert r[k] == w;
      SurvivorsMember(gates, start, end - 1, s[j]);
      TotalIsPow();
      ValueOfDigits(end - 1, N);
    } else {
      assert r[k] == s[k];
      SurvivorsOrdered(gates, start, end - 1, j, k);
    }
  }

  /** A vector sampled into `embeddedOrSamples` over a range is the vector
      of an ordinal of the range that passed gate 1. */
  lemma {:induction false} EmbeddedSampleMember(gates: nat -> nat, t: Tallies, start: nat, end: nat, v: seq<uint8>)
    requires start <= end <= Total
    requires v in Scan(gates, t, start, end).embeddedOrSamples
    ensures v in t.embeddedOrSamples || (IsDigitVector(v) && start <= Value(v) < end && gates(Value(v)) >= 1)
    decreases end - start
  {
    if end > start {
      var s, w := Scan(gates, t, start, end - 1), Decode(end - 1);
      if v in s.embeddedOrSamples {
        EmbeddedSampleMember(gates, t, start, end - 1, v);
      } else {
        assert v == w;
        TotalIsPow();
        ValueOfDigits(end - 1, N);
      }
    }
  }

  /** A vector sampled into `permittedSamples` over a range is the vector
      of an ordinal of the range that passed gates 1 and 2 but not gate 3. */
  lemma {:induction false} PermittedSampleMember(gates: nat -> nat, t: Tallies, start: nat, end: nat, v: seq<uint8>)
    requires start <= end <= Total
    requires v in Scan(gates, t, start, end).permittedSamples
    ensures v in t.permittedSamples || (IsDigitVector(v) && start <= Value(v) < end && gates(Value(v)) == 2)
    decreases end - start
  {
    if end > start {
      var s, w := Scan(gates, t, start, end - 1), Decode(end - 1);
      if v in s.permittedSamples {
        PermittedSampleMember(gates, t, start, end - 1, v);
      } else {
        assert v == w;
        TotalIsPow();
        ValueOfDigits(end - 1, N);
      }
    }
  }
}
