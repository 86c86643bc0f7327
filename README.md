# Z4 observation enumerator — verified model

`main.cpp` enumerates every vector of 16 base-4 digits, i.e. a 4×4 grid
of Z4 values, and keeps those that pass three gates in turn:

1. **Gate 1.** No group of `flatIndexes` triple-matches (`!checkEmbeddedOr`).
2. **Gate 2.** The eight modular sum/difference equalities hold (`checkPermittedSum`).
3. **Gate 3.** At least one of the seven binarizations has no triple-matching group (`!collapsable`).

Along the way it counts how many vectors pass each gate and samples some of them.

The model has one module per part of the program:

- `Decoder` (`decoder.dfy`): the digit decoder. `DecodeOrdinal` is the decode loop over an array, proved equal to the pure function `Decode`. `Decode` is proved to be a bijection between `[0, 4^16)` and the digit vectors.
- `Groups` (`groups.dfy`): the table `flatIndexes`, and `checkGroup` and `checkEmbeddedOr` as methods whose loops are proved against the predicates `TripleMatch` and `EmbeddedOr`.
- `Symmetry` (`symmetry.dfy`): `posMod` with C++'s truncating `%`, and `checkPermittedSum`. Both are pure functions.
- `Collapse` (`collapse.dfy`): `collapsable`.
  - Each binarization rewrites an array copy in place (`BinarizeInPlace`).
  - `Collapsable` checks the seven copies in the program's order and stops at the first failure.
- `Tallying` (`tallying.dfy`): the counters and collections of `processRange` as one value `Tallies`, and their evolution over a range of ordinals (`Step` and `Scan`).
  - Every function and lemma here takes how many gates each ordinal passes as a parameter, so the counter laws are proved once, whatever the gates are.
- `Enumeration` (`enumeration.dfy`): the `Enumerator` class.
  - Its fields are the program's counters and collections.
  - `ProcessOrdinal` is the loop body of `processRange`, `ProcessRange` the loop over a range, and `Run` the partition plus one range after another.
  - Each method states its new state as `Scan` applied to the old one, with the real gates (`GatesPassed`).
- `Chunking` (`partition.dfy`): the split of `[0, total)` into per-thread ranges, proved to cover every ordinal below `total` exactly once.

Gate 1 runs `checkEmbeddedOr` on the raw decoded vector (main.cpp:251), not on a binarized copy. The model follows the code.

- As a consequence, ordinal 0 (the all-zero vector) is rejected at gate 1 (`ZeroRejected`).
- A vector that fails gate 1 would also be collapsable (`EmbeddedOrCollapsable`).

## Model

| member | source | states |
|---|---|---|
| Decoder.DecodeOrdinal | main.cpp:242-249 | the decode loop (`v[j] = num % 4; num /= 4`) produces exactly `Decode(i)`, a vector of 16 entries each below 4 |
| Decoder.ValueOfDigits | main.cpp:242-249 | for `i < 4^n`, the n decoded digits, weighted by powers of 4 least-significant first, sum back to `i` |
| Decoder.DigitsOfValue | main.cpp:242-249 | every vector of base-4 digits is the decoding of its own value, and that value is below 4 to the power of the vector's length |
| Decoder.DecodeInjective | main.cpp:242-249 | two ordinals below 4^16 with the same vector are equal |
| Decoder.DecodeOnto | main.cpp:242-249 | every 16-digit vector is the decoding of exactly one ordinal below 4^16 (its value) |
| Decoder.DigitFormula | main.cpp:245-249 | digit j of ordinal i is `(i / 4^j) % 4` |
| Decoder.TotalIsPow | main.cpp:223-225 | `totalCombinations` (`4^16`, computed by `std::pow`) is the exact integer 0x1_0000_0000 |
| Groups.NumGroups | main.cpp:11-17 | the table splits evenly into exactly 20 groups of 4 positions (each position below 16 by its type) |
| Groups.CheckGroup | main.cpp:20-33 | with every referenced entry below 4, the counting loop with early exit answers exactly `TripleMatch(v, g)`: some value occurs at least 3 times among the 4 picked entries |
| Groups.CheckEmbeddedOr | main.cpp:36-47 | the loop over the 20 groups answers exactly `EmbeddedOr(v)`: some group k in [0, 20) triple-matches |
| Groups.TripleMatchIffThreeEqual | main.cpp:20-33 | a group triple-matches iff three of its four positions hold the same value |
| Groups.CountFour | main.cpp:22-31 | the frequency of a value among 4 entries is the number of the 4 slots equal to it |
| Groups.CountIsMultiplicity | main.cpp:22-31 | the frequency count equals the multiset multiplicity |
| Groups.PickedPermutation | main.cpp:20-33 | reordering a group's positions permutes the picked values |
| Groups.TripleMatchOrderFree | main.cpp:20-33 | the triple match does not depend on the order of a group's positions |
| Groups.TripleMatchSwap01 | main.cpp:20-33 | on a binary vector, swapping 0 and 1 does not change a group's triple match |
| Groups.EmbeddedOrSwap01 | main.cpp:36-47 | on a binary vector, swapping 0 and 1 does not change `checkEmbeddedOr` |
| Symmetry.CRem4 | main.cpp:51 | C++ `a % 4`: same sign as `a`, magnitude below 4, congruent to `a` |
| Symmetry.PosMod | main.cpp:49-52 | `(i % 4 + 4) % 4` lies in [0, 4), is congruent to i, and equals the Euclidean `i mod 4`, negative i included |
| Symmetry.FamilyCheck | main.cpp:56-64 | the sum comparison and then the difference comparison of one family, with the redundant `% 4` kept, pass iff both mod-4 equalities hold |
| Symmetry.CheckPermittedSum | main.cpp:54-97 | the eight comparisons pass iff the sum and difference equalities mod 4 hold for all four families (0,5)/(1,4), (2,3)/(6,7), (8,13)/(12,9), (10,15)/(14,11) |
| Symmetry.FamilyHoldsIff | main.cpp:54-97 | for digits, a family holds iff its second pair equals its first pair, or equals it shifted by 2 mod 4 |
| Symmetry.ZeroVectorPermitted | main.cpp:54-97 | the all-zero vector passes `checkPermittedSum` |
| Symmetry.BlockOf | main.cpp:54-97 | every position belongs to exactly one of the four families |
| Symmetry.PermittedSingleDigitChange | main.cpp:54-97 | changing any single digit of a vector that passes `checkPermittedSum` makes it fail |
| Collapse.Binarize | main.cpp:101-108 | a binarized copy has the vector's length, holds only 0 and 1, and has 0 exactly where the digit is in the transform's zero set |
| Collapse.BinarizeInPlace | main.cpp:102-108 | one range-for loop rewrites the array copy into `Binarize` of its old contents |
| Collapse.BinarizedMatches | main.cpp:101-113 | copying v, binarizing the copy and calling `checkEmbeddedOr` answers `EmbeddedOr(Binarize(v, zeros))` without changing v |
| Collapse.Collapsable | main.cpp:99-219 | the seven transforms in order, returning false at the first failure, answer exactly "`checkEmbeddedOr` holds on each of the 7 binarizations" |
| Collapse.EmbeddedOrCollapsable | main.cpp:99-219 | a vector that triple-matches somewhere is collapsable: binarizing never breaks a triple match |
| Collapse.TripleMatchBinarize | main.cpp:99-219 | binarizing with any zero set keeps a group's triple match |
| Collapse.BinarizeComplement | main.cpp:99-219 | binarizing with the complementary zero set gives the 0↔1 swap of the binarization |
| Collapse.SplitIsTransform | main.cpp:99-219 | every proper non-empty split of {0,1,2,3} is one of the seven transforms or its complement |
| Collapse.CollapsableIffEverySplit | main.cpp:99-219 | `collapsable(v)` holds iff `checkEmbeddedOr` holds on the binarization for every proper non-empty split of the digits |
| Tallying.ScanCounters | main.cpp:251-280 | over a range, `count` grows by its length; the collapsable gain is at most the permitted gain, which is at most the embedded gain, which is at most the range length; `result` grows by the collapsable gain |
| Tallying.ScanConsistent | main.cpp:251-280 | `collapsableCount <= permittedCount <= embeddedCount <= count` and `result` holding `collapsableCount` vectors are preserved by any range |
| Tallying.ScanSplit | main.cpp:238-303 | processing [start, end) equals processing [start, mid) and then [mid, end) |
| Tallying.ScanResult | main.cpp:262-267 | a range appends to `result` exactly its survivors, in ordinal order |
| Tallying.SurvivorsMember | main.cpp:262-267 | a vector is among a range's survivors iff it is a digit vector whose ordinal lies in the range and passes all three gates |
| Tallying.SurvivorsOrdered | main.cpp:240-267 | survivors appear in strictly increasing ordinal order, so without duplicates |
| Tallying.EmbeddedSampleMember | main.cpp:253-258 | a vector sampled into `embeddedOrSamples` by a range is the vector of an ordinal of the range that passed gate 1 |
| Tallying.PermittedSampleMember | main.cpp:268-274 | a vector sampled into `permittedSamples` by a range is the vector of an ordinal of the range that passed gates 1 and 2 and failed gate 3 |
| Enumeration.OrdinalCounters | main.cpp:251-280 | for one ordinal: `count` grows by 1; `embeddedCount` grows iff `!checkEmbeddedOr(v)`; `permittedCount` grows iff additionally `checkPermittedSum(v)`; `collapsableCount` grows and v is appended to `result` iff additionally `!collapsable(v)` |
| Enumeration.ResultsMember | main.cpp:240-267 | the vectors a range adds to `result` are exactly the digit vectors with ordinal in the range that pass all three gates |
| Enumeration.ZeroRejected | main.cpp:242-253 | ordinal 0 decodes to the all-zero vector, which `checkEmbeddedOr` accepts, so gate 1 rejects it |
| Enumeration.Enumerator.constructor | main.cpp:227-235 | all counters start at 0 and all collections empty |
| Enumeration.Enumerator.ProcessOrdinal | main.cpp:242-280 | one iteration: the new state is one `Step` of the old state for ordinal i, and the counter nesting invariant is kept |
| Enumeration.Enumerator.PassedGate1 | main.cpp:252-278 | the gate-1 branch increments `embeddedCount`, samples at multiples of 1,000,000, and runs gates 2 and 3; every field's new value is stated |
| Enumeration.Enumerator.PassedGate2 | main.cpp:260-276 | the gate-2 branch increments `permittedCount`, then appends to `result` or samples at multiples of 1000 |
| Enumeration.Enumerator.ProcessRange | main.cpp:238-290 | processing [start, end) leaves the state `Scan(old state, start, end)`, keeping the invariant |
| Enumeration.Enumerator.Run | main.cpp:293-309 | processing every partition range in order leaves the state `Scan(old state, 0, total)`, i.e. exactly one visit per ordinal of [0, total) |
| Chunking.Partition | main.cpp:297-303 | there are numThreads ranges; they start at 0, end at total and are contiguous; every range but the last has length `total / numThreads`, and the last has length `total / numThreads + total % numThreads` |
| Chunking.ChunksTile | main.cpp:297-303 | the chunks `[t * chunkSize, t * chunkSize + chunkSize)`, with the last one ending at total, tile [0, total) |
| Chunking.TilesOrdered | main.cpp:297-303 | an earlier range ends no later than a later one starts |
| Chunking.TilesCover | main.cpp:297-303 | an ordinal lies in some range iff it is below total |
| Chunking.TilesDisjoint | main.cpp:297-303 | no ordinal lies in two different ranges |

## Left out

- Threads, `std::atomic` counters, the mutex, `hardware_concurrency` and `join` (main.cpp:9, 227-231, 256, 265, 272, 293-309) are not modelled: the ranges are processed one after another in thread order.
  - With real threads, the interleaving of `result` and of the samples, and the sampling decisions themselves, depend on the schedule. The model does not capture this.
- Enumeration.Enumerator.Run requires `numThreads >= 1`. With 0 from `hardware_concurrency()`, the source would divide by zero.
- Progress printing (main.cpp:280-288, 311-318) and the CSV output (main.cpp:319-359) are I/O and are left out. `count` is still incremented as in `++count`.
- `std::pow(base, n)` (main.cpp:225) is floating point. It is replaced by the exact integer 4^16 (`Total`).
- The `size_t` counters and the `uint8_t` frequency counts in `checkGroup` are unbounded naturals in the model. Neither can wrap: there are at most 4^16 ordinals, and at most 4 increments per group.
- Vectors are fixed at n = 16 and base 4, as in the program. Other sizes are not modelled.
- Tallying.EmbeddedSampleMember and Tallying.PermittedSampleMember: state only which vectors can be sampled, not how many samples a range takes.
- Running the 4^16 enumeration itself is not attempted. Every property is stated for an arbitrary range.
