/** The per-ordinal classification of `processRange` and the enumeration
    of `main`, run by one sequential worker. */
module Enumeration {
  import opened Decoder
  import opened Groups
  import opened Symmetry
  import opened Collapse
  import opened Chunking
  import opened Tallying

  /** How many of the three gates v passes in turn:
      0, some group triple-matches on the raw digits (gate 1 rejects);
      1, no triple match, but the symmetry check fails;
      2, permitted, but collapsable;
      3, permitted and not collapsable: the vector is a result. */
  ghost function GatesPassed(v: seq<uint8>): (n: nat)
    requires IsDigitVector(v)
    ensures n <= 3
  {
    if EmbeddedOr(v) then 0
    else if !Permitted(v) then 1
    else if IsCollapsable(v) then 2
    else 3
  }

  /** The classification of ordinal i: the gates its vector passes. */
  ghost function Verdict(i: nat): (n: nat)
    ensures n <= 3
  {
    GatesPassed(Decode(i))
  }

  /** The range [i, i + 1) is ordinal i's step. */
  lemma ScanOne(t: Tallies, i: nat)
    ensures Scan(Verdict, t, i, i + 1) == Step(t, Decode(i), Verdict(i))
  {
  }

  /** What one ordinal does to the counters: `count` always grows by one,
      `embeddedCount` exactly when gate 1 passes, `permittedCount` exactly
      when gates 1 and 2 pass, and `collapsableCount` and `result` exactly
      when all three pass. */
  lemma OrdinalCounters(t: Tallies, i: nat)
    ensures var s, v := Scan(Verdict, t, i, i + 1), Decode(i);
      s.count == t.count + 1 &&
      (if !EmbeddedOr(v) then s.embeddedCount == t.embeddedCount + 1
       else s.embeddedCount == t.embeddedCount) &&
      (if !EmbeddedOr(v) && Permitted(v) then s.permittedCount == t.permittedCount + 1
       else s.permittedCount == t.permittedCount) &&
      (if !EmbeddedOr(v) && Permitted(v) && !IsCollapsable(v)
       then s.collapsableCount == t.collapsableCount + 1 && s.result == t.result + [v]
       else s.collapsableCount == t.collapsableCount && s.result == t.result)
  {
    ScanOne(t, i);
  }

  /** The vectors a range contributes to `result` are exactly the digit
      vectors of its ordinals that pass all three gates. */
  lemma ResultsMember(start: nat, end: nat, v: seq<uint8>)
    requires start <= end <= Total
    ensures v in Survivors(Verdict, start, end) <==>
      IsDigitVector(v) && start <= Value(v) < end && GatesPassed(v) == 3
  {
    SurvivorsMember(Verdict, start, end, v);
    if IsDigitVector(v) {
      DecodeOnto(v);
    }
  }

  /** Ordinal 0, the all-zero vector, is rejected at gate 1. */
  lemma ZeroRejected()
    ensures GatesPassed(Decode(0)) == 0
  {
    var v := Decode(0);
    forall j | 0 <= j < N
      ensures v[j] == 0
    {
      DigitFormula(0, N, j);
    }
    var s := Picked(v, Group(0));
    CountFour(s, 0);
    assert TripleMatch(v, Group(0));
  }

  /** The counters and collections of one `processRange` worker. */
  class Enumerator {
    var count: nat
    var embeddedCount: nat
    var permittedCount: nat
    var collapsableCount: nat
    var result: seq<seq<uint8>>
    var embeddedOrSamples: seq<seq<uint8>>
    var permittedSamples: seq<seq<uint8>>

    /** The fields as one `Tallies` value. */
    ghost function State(): Tallies
      reads this
    {
      Tallies(count, embeddedCount, permittedCount, collapsableCount,
              result, embeddedOrSamples, permittedSamples)
    }

    ghost predicate Valid()
      reads this
    {
      Consistent(State())
    }

    /** All counters zero and all collections empty. */
    constructor ()
      ensures Valid() && State() == Empty
    {
      count, embeddedCount, permittedCount, collapsableCount := 0, 0, 0, 0;
      result, embeddedOrSamples, permittedSamples := [], [], [];
    }

    /** One iteration of `processRange`: decode ordinal i, then gate 1
        (`!checkEmbeddedOr`), then the remaining gates, then `++count`. */
    method ProcessOrdinal(i: nat)
      requires Valid()
      modifies this
      ensures Valid()
      ensures State() == Scan(Verdict, old(State()), i, i + 1)
    {
      ScanOne(State(), i);
      var v := DecodeOrdinal(i);
      var embedded := CheckEmbeddedOr(v);
      if !embedded {
        PassedGate1(v);
      }
      count := count + 1;
    }

    /** The branch of a vector that passed gate 1: count and sample it, then
        gate 2 (`checkPermittedSum`). Until `count` is incremented, the
        state is consistent only with that increment. */
    method PassedGate1(v: seq<uint8>)
      requires Valid() && IsDigitVector(v) && GatesPassed(v) >= 1
      modifies this
      ensures Consistent(State().(count := count + 1))
      ensures count == old(count)
      ensures embeddedCount == old(embeddedCount) + 1
      ensures permittedCount == old(permittedCount) + (if GatesPassed(v) >= 2 then 1 else 0)
      ensures collapsableCount == old(collapsableCount) + (if GatesPassed(v) == 3 then 1 else 0)
      ensures result == old(result) + (if GatesPassed(v) == 3 then [v] else [])
      ensures embeddedOrSamples == old(embeddedOrSamples) +
        (if embeddedCount % EmbeddedSamplePeriod == 0 then [v] else [])
      ensures permittedSamples == old(permittedSamples) +
        (if GatesPassed(v) == 2 && permittedCount % PermittedSamplePeriod == 0 then [v] else [])
    {
      embeddedCount := embeddedCount + 1;
      if embeddedCount % EmbeddedSamplePeriod == 0 {
        embeddedOrSamples := embeddedOrSamples + [v];
      }
      if CheckPermittedSum(v) {
        assert GatesPassed(v) >= 2;
        PassedGate2(v);
      }
    }

    /** The branch of a permitted vector: count it, then gate 3
        (`!collapsable`) decides between `result` and a sample. */
    method PassedGate2(v: seq<uint8>)
      requires Consistent(State().(count := count + 1)) && permittedCount < embeddedCount
      requires IsDigitVector(v) && GatesPassed(v) >= 2
      modifies this
      ensures Consistent(State().(count := count + 1))
      ensures count == old(count) && embeddedCount == old(embeddedCount)
      ensures embeddedOrSamples == old(embeddedOrSamples)
      ensures permittedCount == old(permittedCount) + 1
      ensures collapsableCount == old(collapsableCount) + (if GatesPassed(v) == 3 then 1 else 0)
      ensures result == old(result) + (if GatesPassed(v) == 3 then [v] else [])
      ensures permittedSamples == old(permittedSamples) +
        (if GatesPassed(v) == 2 && permittedCount % PermittedSamplePeriod == 0 then [v] else [])
    {
      permittedCount := permittedCount + 1;
      var c := Collapsable(v);
      if !c {
        collapsableCount := collapsableCount + 1;
        result := result + [v];
      } else {
        if permittedCount % PermittedSamplePeriod == 0 {
          permittedSamples := permittedSamples + [v];
        }
      }
    }

    /** `processRange(start, end)`: every ordinal of [start, end) in order. */
    method ProcessRange(start: nat, end: nat)
      requires Valid() && start <= end
      modifies this
      ensures Valid()
      ensures State() == Scan(Verdict, old(State()), start, end)
    {
      var i := start;
      while i < end
        invariant start <= i <= end
        invariant Valid()
        invariant State() == Scan(Verdict, old(State()), start, i)
      {
        ProcessOrdinal(i);
        ScanSplit(Verdict, old(State()), start, i, i + 1);
        i := i + 1;
      }
    }

    /** `main`'s enumeration: [0, total) is partitioned among numThreads
        workers, and each range is processed; the ranges run here one after
        the other, in order. */
    method Run(total: nat, numThreads: nat)
      requires Valid() && numThreads >= 1
      modifies this
      ensures Valid()
      ensures State() == Scan(Verdict, old(State()), 0, total)
    {
      var ranges := Partition(total, numThreads);
      for t := 0 to |ranges|
        invariant Valid()
        invariant State() == Scan(Verdict, old(State()), 0, if t == 0 then 0 else ranges[t - 1].end)
      {
        var r := ranges[t];
        ProcessRange(r.start, r.end);
        ScanSplit(Verdict, old(State()), 0, r.start, r.end);
      }
    }
  }
}
