/**
 * Index of the flop lookup table. A flop (two hole cards and three board cards) is reduced to
 * its board rank triple, the rank and suit patterns of the board, the hole ranks and the hole
 * suits relative to the board suits; the key addresses one block per (rank pattern, suit
 * pattern, hole suit) combination.
 */
module FlopLut {
  import opened Cards
  import SortNetworks

  const RANK_XXX := 0
  const RANK_XXY := 1
  const RANK_XYY := 2
  const RANK_XYZ := 3
  const RANK_COUNT := 4

  const SUIT_AAA := 0
  const SUIT_AAB := 1
  const SUIT_ABA := 2
  const SUIT_ABB := 3
  const SUIT_ABC := 4
  const SUIT_COUNT := 5

  /** Number of sorted board rank triples. */
  const TRIPLES := 455

  /** Number of (low, high) hole rank pairs: 13 * 14 / 2. */
  const HOLE_RANKS := 91

  /** Which suit patterns a board of each rank pattern can have (three distinct cards). */
  const BOARD_RANK_SUITS: seq<seq<bool>> := [
    [false, false, false, false, true],
    [false, false, true, true, true],
    [false, true, true, false, true],
    [true, true, true, true, true]
  ]

  /** Slot of each (hole suit 0, hole suit 1) relative to the board's suit pattern; -1 never occurs. */
  const HOLE_SUIT_OFFSETS: seq<seq<int>> := [
    [0, -1, -1, 1, -1, -1, -1, -1, -1, -1, -1, -1, 2, -1, -1, 3],
    [0, 1, -1, 2, 3, 4, -1, 5, -1, -1, -1, -1, 6, 7, -1, 8],
    [0, 1, -1, 2, 3, 4, -1, 5, -1, -1, -1, -1, 6, 7, -1, 8],
    [0, 1, -1, 2, 3, 4, -1, 5, -1, -1, -1, -1, 6, 7, -1, 8],
    [0, 1, 2, 3, 4, 5, 6, 7, 8, 9, 10, 11, 12, 13, 14, 15]
  ]

  /** Rank pattern of a sorted rank triple i <= j <= k. */
  function RankPatternOf(i: int, j: int, k: int): (p: int)
    ensures 0 <= p < RANK_COUNT
    ensures p == RANK_XXX <==> i == j == k
    ensures p == RANK_XYZ <==> i != j && j != k
  {
    if i == j then (if j == k then RANK_XXX else RANK_XXY)
    else (if j == k then RANK_XYY else RANK_XYZ)
  }

  /** Suit pattern of three suits: equal suits get equal letters, in order of appearance. */
  function SuitPatternOf(i: int, j: int, k: int): (p: int)
    ensures 0 <= p < SUIT_COUNT
    ensures p == SUIT_AAA <==> i == j == k
    ensures p == SUIT_ABC <==> i != j && j != k && i != k
  {
    if i == j then (if j == k then SUIT_AAA else SUIT_AAB)
    else if i == k then SUIT_ABA
    else if j == k then SUIT_ABB
    else SUIT_ABC
  }

  /** Hole-suit slots of a suit pattern: AA, AO, OA, OO for one board suit, 16 for three, 9 for two. */
  function Slots(suitPattern: int): nat
  {
    if suitPattern == SUIT_AAA then 4 else if suitPattern == SUIT_ABC then 16 else 9
  }

  /** Number of pairs (j', k) with j' < j and j' <= k < 13. */
  function PairsBefore(j: nat): nat
    requires j <= RANKS
  {
    if j == 0 then 0 else PairsBefore(j - 1) + RANKS - (j - 1)
  }

  /** Number of sorted rank triples whose lowest rank is below i. */
  function TriplesBefore(i: nat): nat
    requires i <= RANKS
  {
    if i == 0 then 0
    else
      PairsBeforeMonotone(i - 1, RANKS);
      PairsCount();
      TriplesBefore(i - 1) + HOLE_RANKS - PairsBefore(i - 1)
  }

  predicate IsTriple(i: int, j: int, k: int)
  {
    0 <= i <= j <= k < RANKS
  }

  /** Position of the sorted rank triple (i, j, k) in the lexicographic enumeration of init. */
  function TripleIndex(i: int, j: int, k: int): nat
    requires IsTriple(i, j, k)
  {
    PairsBeforeMonotone(i, j);
    TriplesBefore(i) + PairsBefore(j) - PairsBefore(i) + (k - j)
  }

  lemma {:induction false} PairsBeforeMonotone(a: nat, b: nat)
    requires a <= b <= RANKS
    ensures PairsBefore(a) + (b - a) <= PairsBefore(b)
    decreases b - a
  {
    if a < b {
      PairsBeforeMonotone(a, b - 1);
    }
  }

  /** The triples whose lowest rank is i occupy the positions TriplesBefore(i) .. TriplesBefore(i + 1) - 1. */
  lemma TripleIndexInBlock(i: int, j: int, k: int)
    requires IsTriple(i, j, k)
    ensures TriplesBefore(i) + PairsBefore(j) - PairsBefore(i) <= TripleIndex(i, j, k)
    ensures TripleIndex(i, j, k) < TriplesBefore(i) + PairsBefore(j + 1) - PairsBefore(i)
    ensures TripleIndex(i, j, k) < TriplesBefore(i + 1)
  {
    PairsBeforeMonotone(i, j);
    PairsBeforeMonotone(j + 1, RANKS);
    PairsCount();
  }

  lemma {:induction false} TriplesBeforeMonotone(a: nat, b: nat)
    requires a <= b <= RANKS
    ensures TriplesBefore(a) <= TriplesBefore(b)
    decreases b - a
  {
    if a < b {
      TriplesBeforeMonotone(a, b - 1);
      PairsBeforeMonotone(b - 1, RANKS);
      PairsCount();
    }
  }

  /** Triples in different blocks are at different positions. */
  lemma BlocksOrdered(i: int, j: int, k: int, i2: int, j2: int, k2: int)
    requires IsTriple(i, j, k) && IsTriple(i2, j2, k2) && i < i2
    ensures TripleIndex(i, j, k) < TripleIndex(i2, j2, k2)
  {
    TripleIndexInBlock(i, j, k);
    TripleIndexInBlock(i2, j2, k2);
    TriplesBeforeMonotone(i + 1, i2);
    PairsBeforeMonotone(i2, j2);
  }

  /** Within a block, triples with different middle ranks are at different positions. */
  lemma PairsOrdered(i: int, j: int, k: int, j2: int, k2: int)
    requires IsTriple(i, j, k) && IsTriple(i, j2, k2) && j < j2
    ensures TripleIndex(i, j, k) < TripleIndex(i, j2, k2)
  {
    TripleIndexInBlock(i, j, k);
    TripleIndexInBlock(i, j2, k2);
    PairsBeforeMonotone(j + 1, j2);
  }

  /** The enumeration is strictly increasing in lexicographic order, so no two triples share a position. */
  lemma TripleIndexInjective(i: int, j: int, k: int, i2: int, j2: int, k2: int)
    requires IsTriple(i, j, k) && IsTriple(i2, j2, k2)
    requires TripleIndex(i, j, k) == TripleIndex(i2, j2, k2)
    ensures i == i2 && j == j2 && k == k2
  {
    if i < i2 {
      BlocksOrdered(i, j, k, i2, j2, k2);
    } else if i2 < i {
      BlocksOrdered(i2, j2, k2, i, j, k);
    } else if j < j2 {
      PairsOrdered(i, j, k, j2, k2);
    } else if j2 < j {
      PairsOrdered(i, j2, k2, j, k);
    }
  }

  /** There are 91 sorted hole rank pairs ... */
  lemma PairsCount()
    ensures PairsBefore(RANKS) == HOLE_RANKS
  {
  }

  /** ... and 455 sorted board rank triples. */
  lemma TripleCount(n: nat)
    requires n == RANKS
    ensures TriplesBefore(n) == TRIPLES
  {
  }

  /** Number of entries of rp with rank pattern p. */
  ghost function Count(rp: seq<(int, int)>, p: int): nat
  {
    if rp == [] then 0 else Count(rp[..|rp| - 1], p) + (if rp[|rp| - 1].0 == p then 1 else 0)
  }

  /**
   * Each entry holds a valid rank pattern and, as its position, the number of earlier entries
   * of the same pattern; the combination counts are the pattern totals.
   */
  ghost predicate PatternsNumbered(rp: seq<(int, int)>, combinations: seq<int>)
  {
    |combinations| == RANK_COUNT
    && (forall p :: 0 <= p < RANK_COUNT ==> combinations[p] == Count(rp, p))
    && (forall n :: 0 <= n < |rp| ==> 0 <= rp[n].0 < RANK_COUNT && rp[n].1 == Count(rp[..n], rp[n].0))
  }

  /** Every triple enumerated so far carries its own rank pattern. */
  ghost predicate Processed(rp: seq<(int, int)>)
  {
    forall i, j, k :: IsTriple(i, j, k) && TripleIndex(i, j, k) < |rp| ==> rp[TripleIndex(i, j, k)].0 == RankPatternOf(i, j, k)
  }

  /** Row 0 of rank_indexes_ (middle ranks) is filled below upto. */
  ghost predicate MiddleIndexes(ri0: seq<int>, upto: int)
    requires |ri0| == RANKS && upto <= RANKS
  {
    forall c :: 0 <= c < upto ==> ri0[c] == PairsBefore(c) - c
  }

  /** Row 1 of rank_indexes_ (lowest ranks) is filled below upto. */
  ghost predicate LowIndexes(ri1: seq<int>, upto: int)
    requires |ri1| == RANKS && upto <= RANKS
  {
    forall c :: 0 <= c < upto ==> ri1[c] == TriplesBefore(c) - PairsBefore(c)
  }

  /** What the rank loops of init establish. */
  ghost predicate RankTables(ri0: seq<int>, ri1: seq<int>, rp: seq<(int, int)>, combinations: seq<int>)
  {
    |ri0| == RANKS && |ri1| == RANKS && |rp| == TRIPLES
    && MiddleIndexes(ri0, RANKS) && LowIndexes(ri1, RANKS)
    && PatternsNumbered(rp, combinations)
    && Processed(rp)
  }

  /**
   * The rank loops of init (the memset of rank_indexes_, the zero fill of the combination
   * counts and the triple loop over i <= j <= k).
   */
  method RankLoops() returns (ri0: seq<int>, ri1: seq<int>, rp: seq<(int, int)>, combinations: seq<int>)
    ensures RankTables(ri0, ri1, rp, combinations)
  {
    ri0 := seq(RANKS, _ => 0);
    ri1 := seq(RANKS, _ => 0);
    combinations := [0, 0, 0, 0];
    rp := [];
    EmptyTables(ri1, combinations);
    var index := 0;
    var i := 0;
    while i < RANKS
      invariant 0 <= i <= RANKS && |ri0| == RANKS && |ri1| == RANKS
      invariant index == TriplesBefore(i) == |rp|
      invariant i == 0 ==> ri0[0] == 0
      invariant i > 0 ==> MiddleIndexes(ri0, RANKS)
      invariant LowIndexes(ri1, i)
      invariant PatternsNumbered(rp, combinations) && Processed(rp)
    {
      ri0, ri1, rp, combinations, index := RankBlock(i, ri0, ri1, rp, combinations, index);
      i := i + 1;
    }
    TripleCount(i);
  }

  lemma EmptyTables(ri1: seq<int>, combinations: seq<int>)
    requires |ri1| == RANKS && combinations == [0, 0, 0, 0]
    ensures TriplesBefore(0) == 0 && LowIndexes(ri1, 0)
    ensures PatternsNumbered([], combinations) && Processed([])
  {
  }

  /** Filled rank_indexes_ rows locate every sorted triple and every sorted pair. */
  lemma RankIndexesLocate(ri0: seq<int>, ri1: seq<int>)
    requires |ri0| == RANKS && |ri1| == RANKS && MiddleIndexes(ri0, RANKS) && LowIndexes(ri1, RANKS)
    ensures forall i, j, k :: IsTriple(i, j, k) ==> ri1[i] + ri0[j] + k == TripleIndex(i, j, k)
    ensures forall j, k :: IsTriple(0, j, k) ==> ri0[j] + k == TripleIndex(0, j, k)
  {
  }

  /** One iteration of the outer rank loop: every triple whose lowest rank is i. */
  method RankBlock(i: int, ri0: seq<int>, ri1: seq<int>, rp: seq<(int, int)>, combinations: seq<int>, index: int)
    returns (ri0': seq<int>, ri1': seq<int>, rp': seq<(int, int)>, combinations': seq<int>, next: int)
    requires 0 <= i < RANKS && |ri0| == RANKS && |ri1| == RANKS
    requires index == TriplesBefore(i) == |rp|
    requires i == 0 ==> ri0[0] == 0
    requires i > 0 ==> MiddleIndexes(ri0, RANKS)
    requires LowIndexes(ri1, i)
    requires PatternsNumbered(rp, combinations) && Processed(rp)
    ensures |ri0'| == RANKS && |ri1'| == RANKS
    ensures next == TriplesBefore(i + 1) == |rp'|
    ensures MiddleIndexes(ri0', RANKS) && LowIndexes(ri1', i + 1)
    ensures PatternsNumbered(rp', combinations') && Processed(rp')
  {
    ri0', rp', combinations', next := ri0, rp, combinations, index;
    ri1' := ri1[i := next - ri0[i] - i];
    var j := i;
    while j < RANKS
      invariant i <= j <= RANKS && |ri0'| == RANKS
      invariant next == TriplesBefore(i) + PairsBefore(j) - PairsBefore(i) == |rp'|
      invariant i == 0 ==> MiddleIndexes(ri0', j)
      invariant i > 0 ==> MiddleIndexes(ri0', RANKS)
      invariant PatternsNumbered(rp', combinations') && Processed(rp')
    {
      if i == 0 {
        ri0' := ri0'[j := next - j];
      }
      rp', combinations', next := RankRow(i, j, rp', combinations', next);
      PairsBeforeStep(j);
      j := j + 1;
    }
    PairsCount();
    TriplesBeforeStep(i);
  }

  /** The innermost rank loop: the triples (i, j, k) for k from j to the top rank. */
  method RankRow(i: int, j: int, rp: seq<(int, int)>, combinations: seq<int>, index: int)
    returns (rp': seq<(int, int)>, combinations': seq<int>, next: int)
    requires 0 <= i <= j < RANKS
    requires index == TriplesBefore(i) + PairsBefore(j) - PairsBefore(i) == |rp|
    requires PatternsNumbered(rp, combinations) && Processed(rp)
    ensures next == index + RANKS - j == |rp'|
    ensures PatternsNumbered(rp', combinations') && Processed(rp')
  {
    rp', combinations', next := rp, combinations, index;
    var k := j;
    while k < RANKS
      invariant j <= k <= RANKS
      invariant next == index + (k - j) == |rp'|
      invariant PatternsNumbered(rp', combinations') && Processed(rp')
    {
      var rankPattern := RankPatternOf(i, j, k);
      rp', combinations' := PushPattern(i, j, k, rankPattern, rp', combinations');
      next := next + 1;
      k := k + 1;
    }
  }

  /** One push_back of rank_patterns_, numbering the triple within its pattern. */
  method PushPattern(i: int, j: int, k: int, rankPattern: int, rp: seq<(int, int)>, combinations: seq<int>)
    returns (rp': seq<(int, int)>, combinations': seq<int>)
    requires IsTriple(i, j, k) && TripleIndex(i, j, k) == |rp|
    requires rankPattern == RankPatternOf(i, j, k)
    requires PatternsNumbered(rp, combinations) && Processed(rp)
    ensures rp' == rp + [(rankPattern, combinations[rankPattern])]
    ensures PatternsNumbered(rp', combinations') && Processed(rp')
  {
    var n := combinations[rankPattern];
    rp' := rp + [(rankPattern, n)];
    combinations' := combinations[rankPattern := n + 1];
    assert rp'[..|rp|] == rp;
    forall m | 0 <= m < |rp|
      ensures rp'[..m] == rp[..m]
    {
    }
    forall i2, j2, k2 | IsTriple(i2, j2, k2) && TripleIndex(i2, j2, k2) < |rp'|
      ensures rp'[TripleIndex(i2, j2, k2)].0 == RankPatternOf(i2, j2, k2)
    {
      if TripleIndex(i2, j2, k2) == TripleIndex(i, j, k) {
        TripleIndexInjective(i, j, k, i2, j2, k2);
      }
    }
  }

  lemma TripleIndexBound(i: int, j: int, k: int)
    requires IsTriple(i, j, k)
    ensures TripleIndex(i, j, k) < TRIPLES
  {
    TripleIndexInBlock(i, j, k);
    TriplesBeforeMonotone(i + 1, RANKS);
    TripleCount(RANKS);
  }

  lemma TriplesBeforeStep(i: nat)
    requires i < RANKS
    ensures TriplesBefore(i + 1) == TriplesBefore(i) + HOLE_RANKS - PairsBefore(i)
  {
  }

  lemma PairsBeforeStep(j: nat)
    requires j < RANKS
    ensures PairsBefore(j + 1) == PairsBefore(j) + RANKS - j
  {
  }

  predicate IsSuitTriple(i: int, j: int, k: int)
  {
    0 <= i < SUITS && 0 <= j < SUITS && 0 <= k < SUITS
  }

  /** The suit loops of init: suit_patterns_[16 * i + 4 * j + k] is the pattern of the suits (i, j, k). */
  method SuitLoops() returns (sp: seq<int>)
    ensures |sp| == SUITS * SUITS * SUITS
    ensures forall i, j, k :: IsSuitTriple(i, j, k) ==> sp[i * 16 + j * 4 + k] == SuitPatternOf(i, j, k)
  {
    sp := [];
    var i := 0;
    while i < SUITS
      invariant 0 <= i <= SUITS && |sp| == i * 16
      invariant forall i2, j2, k2 :: IsSuitTriple(i2, j2, k2) && i2 < i ==> sp[i2 * 16 + j2 * 4 + k2] == SuitPatternOf(i2, j2, k2)
    {
      var j := 0;
      while j < SUITS
        invariant 0 <= j <= SUITS && |sp| == i * 16 + j * 4
        invariant forall i2, j2, k2 :: IsSuitTriple(i2, j2, k2) && (i2 < i || (i2 == i && j2 < j)) ==>
          sp[i2 * 16 + j2 * 4 + k2] == SuitPatternOf(i2, j2, k2)
      {
        var k := 0;
        while k < SUITS
          invariant 0 <= k <= SUITS && |sp| == i * 16 + j * 4 + k
          invariant forall i2, j2, k2 :: IsSuitTriple(i2, j2, k2) && (i2 < i || (i2 == i && j2 < j) || (i2 == i && j2 == j && k2 < k)) ==>
            sp[i2 * 16 + j2 * 4 + k2] == SuitPatternOf(i2, j2, k2)
        {
          var suitPattern;
          if i == j {
            suitPattern := if j == k then SUIT_AAA else SUIT_AAB;
          } else {
            suitPattern := if i == k then SUIT_ABA else if j == k then SUIT_ABB else SUIT_ABC;
          }
          sp := sp + [suitPattern];
          k := k + 1;
        }
        j := j + 1;
      }
      i := i + 1;
    }
  }

  /** Hole-suit slots of the allowed suit patterns below s for boards of rank pattern p. */
  function SlotsBefore(p: int, s: int): nat
    requires 0 <= p < RANK_COUNT && 0 <= s <= SUIT_COUNT
  {
    if s == 0 then 0
    else SlotsBefore(p, s - 1) + (if BOARD_RANK_SUITS[p][s - 1] then Slots(s - 1) else 0)
  }

  /** Keys taken by the rank patterns below p: combinations * 91 * slots each. */
  function KeysBefore(combinations: seq<int>, p: int): int
    requires |combinations| == RANK_COUNT && 0 <= p <= RANK_COUNT
  {
    if p == 0 then 0
    else KeysBefore(combinations, p - 1) + combinations[p - 1] * HOLE_RANKS * SlotsBefore(p - 1, SUIT_COUNT)
  }

  /** What the offset loops of init establish. */
  ghost predicate OffsetTables(combinations: seq<int>, brso: seq<seq<int>>, offsets: seq<int>, size: int)
    requires |combinations| == RANK_COUNT
  {
    |brso| == RANK_COUNT && |offsets| == RANK_COUNT
    && (forall p :: 0 <= p < RANK_COUNT ==> |brso[p]| == SUIT_COUNT)
    && (forall p, s :: 0 <= p < RANK_COUNT && 0 <= s < SUIT_COUNT ==>
         brso[p][s] == if BOARD_RANK_SUITS[p][s] then SlotsBefore(p, s) else -1)
    && (forall p :: 0 <= p < RANK_COUNT ==> offsets[p] == KeysBefore(combinations, p))
    && size == KeysBefore(combinations, RANK_COUNT)
  }

  /**
   * The offset loops of init: the first slot of each allowed (rank pattern, suit pattern), -1 for
   * the others, the first key of each rank pattern and the table size.
   */
  method OffsetLoops(combinations: seq<int>) returns (brso: seq<seq<int>>, offsets: seq<int>, size: int)
    requires |combinations| == RANK_COUNT
    ensures OffsetTables(combinations, brso, offsets, size)
  {
    brso := seq(RANK_COUNT, _ => seq(SUIT_COUNT, _ => 0));
    offsets := seq(RANK_COUNT, _ => 0);
    size := 0;
    var i := 0;
    while i < RANK_COUNT
      invariant 0 <= i <= RANK_COUNT && |brso| == RANK_COUNT && |offsets| == RANK_COUNT
      invariant forall p :: 0 <= p < RANK_COUNT ==> |brso[p]| == SUIT_COUNT
      invariant forall p, s :: 0 <= p < i && 0 <= s < SUIT_COUNT ==>
        brso[p][s] == if BOARD_RANK_SUITS[p][s] then SlotsBefore(p, s) else -1
      invariant forall p :: 0 <= p < i ==> offsets[p] == KeysBefore(combinations, p)
      invariant size == KeysBefore(combinations, i)
    {
      offsets := offsets[i := size];
      var row, offset := OffsetRow(i);
      brso := brso[i := row];
      size := size + combinations[i] * HOLE_RANKS * offset;
      i := i + 1;
    }
  }

  /** The inner offset loop of init for rank pattern i: first slot of each suit pattern, or -1. */
  method OffsetRow(i: int) returns (row: seq<int>, offset: int)
    requires 0 <= i < RANK_COUNT
    ensures |row| == SUIT_COUNT && offset == SlotsBefore(i, SUIT_COUNT)
    ensures forall s :: 0 <= s < SUIT_COUNT ==> row[s] == if BOARD_RANK_SUITS[i][s] then SlotsBefore(i, s) else -1
  {
    row := seq(SUIT_COUNT, _ => 0);
    offset := 0;
    var j := 0;
    while j < SUIT_COUNT
      invariant 0 <= j <= SUIT_COUNT && |row| == SUIT_COUNT
      invariant offset == SlotsBefore(i, j)
      invariant forall s :: 0 <= s < j ==> row[s] == if BOARD_RANK_SUITS[i][s] then SlotsBefore(i, s) else -1
    {
      if BOARD_RANK_SUITS[i][j] {
        row := row[j := offset];
        if j == SUIT_AAA {
          offset := offset + 4;
        } else if j == SUIT_ABC {
          offset := offset + 16;
        } else {
          offset := offset + 9;
        }
      } else {
        row := row[j := -1];
      }
      j := j + 1;
    }
  }

  /** Slots per rank pattern: 16 for XXX, 34 for XXY and XYY, 47 for XYZ. */
  lemma SlotTotals()
    ensures SlotsBefore(RANK_XXX, SUIT_COUNT) == 16
    ensures SlotsBefore(RANK_XXY, SUIT_COUNT) == 34
    ensures SlotsBefore(RANK_XYY, SUIT_COUNT) == 34
    ensures SlotsBefore(RANK_XYZ, SUIT_COUNT) == 47
  {
  }

  /** The three board cards in ascending order. */
  function SortedTriple(a: int, b: int, c: int): (r: seq<int>)
    ensures |r| == 3 && r[0] <= r[1] <= r[2]
  {
    if a <= b then (if b <= c then [a, b, c] else if a <= c then [a, c, b] else [c, a, b])
    else (if a <= c then [b, a, c] else if b <= c then [b, c, a] else [c, b, a])
  }

  /** The two hole cards in ascending order. */
  function SortedPair(a: int, b: int): (r: seq<int>)
    ensures |r| == 2 && r[0] <= r[1]
  {
    if a <= b then [a, b] else [b, a]
  }

  lemma SwapFirst(x: int, y: int, z: int)
    ensures multiset([x, y, z]) == multiset([y, x, z])
  {
  }

  lemma SwapLast(x: int, y: int, z: int)
    ensures multiset([x, y, z]) == multiset([x, z, y])
  {
  }

  /** SortedTriple is the sorted permutation of its arguments (the one Sort3 produces). */
  lemma SortedTriplePermutation(a: int, b: int, c: int)
    ensures multiset(SortedTriple(a, b, c)) == multiset([a, b, c])
  {
    if a <= b {
      if b <= c {
      } else if a <= c {
        SwapLast(a, b, c);
      } else {
        SwapLast(a, b, c);
        SwapFirst(a, c, b);
        SwapLast(c, a, b);
      }
    } else {
      SwapFirst(a, b, c);
      if a <= c {
      } else if b <= c {
        SwapLast(b, a, c);
      } else {
        SwapLast(b, a, c);
        SwapFirst(b, c, a);
      }
    }
  }

  /** The key does not depend on the order in which the cards are given. */
  lemma SortedTripleSymmetric(a: int, b: int, c: int)
    ensures SortedTriple(a, b, c) == SortedTriple(b, a, c) == SortedTriple(a, c, b)
    ensures SortedTriple(a, b, c) == SortedTriple(c, b, a) == SortedTriple(b, c, a) == SortedTriple(c, a, b)
    ensures SortedPair(a, b) == SortedPair(b, a)
  {
  }

  /**
   * The suit renumbering of get_key: each board suit, in order of first appearance, gets the
   * next letter 0, 1, 2; suits absent from the board stay -1. Returns the map and the letter count.
   */
  function SuitMapOf(suits: seq<int>): (r: (seq<int>, int))
    requires forall n :: 0 <= n < |suits| ==> 0 <= suits[n] < SUITS
    ensures |r.0| == SUITS && 0 <= r.1 <= |suits|
    ensures forall s :: 0 <= s < SUITS ==> -1 <= r.0[s] < r.1
    ensures forall n :: 0 <= n < |suits| ==> r.0[suits[n]] != -1
  {
    if suits == [] then ([-1, -1, -1, -1], 0)
    else
      var (m, next) := SuitMapOf(suits[..|suits| - 1]);
      var suit := suits[|suits| - 1];
      if m[suit] == -1 then (m[suit := next], next + 1) else (m, next)
  }

  /** The board's suit pattern fixes how many letters the renumbering uses, and the first suit is A. */
  lemma SuitMapLetters(s0: int, s1: int, s2: int)
    requires IsSuitTriple(s0, s1, s2)
    ensures var r := SuitMapOf([s0, s1, s2]);
      r.0[s0] == 0
      && r.1 == (if SuitPatternOf(s0, s1, s2) == SUIT_AAA then 1
                 else if SuitPatternOf(s0, s1, s2) == SUIT_ABC then 3 else 2)
  {
    assert [s0][..0] == [];
    assert SuitMapOf([]) == ([-1, -1, -1, -1], 0);
    assert [-1, -1, -1, -1][s0] == -1;
    var m1 := SuitMapOf([s0]);
    assert m1 == ([-1, -1, -1, -1][s0 := 0], 1);
    assert [s0, s1][..1] == [s0];
    var m2 := SuitMapOf([s0, s1]);
    assert m2 == if s1 == s0 then m1 else (m1.0[s1 := 1], 2);
    assert [s0, s1, s2][..2] == [s0, s1];
    var m3 := SuitMapOf([s0, s1, s2]);
    assert m3 == if m2.0[s2] == -1 then (m2.0[s2 := m2.1], m2.1 + 1) else m2;
  }

  lemma ThreeSorted(r: seq<int>)
    requires |r| == 3 && r[0] <= r[1] <= r[2]
    ensures SortNetworks.Sorted(r)
  {
  }

  lemma TwoSorted(r: seq<int>)
    requires |r| == 2 && r[0] <= r[1]
    ensures SortNetworks.Sorted(r)
  {
  }

  /**
   * Every hole-suit code a renumbered flop can produce has a slot: the -1 entries of the hole
   * suit table are never reached, and the slot is below the pattern's slot count.
   */
  lemma HoleSuitSlot(suitPattern: int, x: int, y: int, letters: int)
    requires 0 <= suitPattern < SUIT_COUNT
    requires letters == (if suitPattern == SUIT_AAA then 1 else if suitPattern == SUIT_ABC then 3 else 2)
    requires -1 <= x < letters && -1 <= y < letters
    ensures 0 <= HoleSlot(suitPattern, x, y) < Slots(suitPattern)
  {
  }

  /** A board of three distinct cards never has a rank/suit pattern pair that init marks -1. */
  lemma BoardPatternAllowed(b0: int, b1: int, b2: int)
    requires 0 <= b0 < b1 < b2 < CARDS
    ensures BOARD_RANK_SUITS[RankPatternOf(GetRank(b0), GetRank(b1), GetRank(b2))][SuitPatternOf(GetSuit(b0), GetSuit(b1), GetSuit(b2))]
  {
    assert GetRank(b0) == GetRank(b1) ==> GetSuit(b0) != GetSuit(b1);
    assert GetRank(b1) == GetRank(b2) ==> GetSuit(b1) != GetSuit(b2);
    assert GetRank(b0) == GetRank(b2) ==> GetSuit(b0) != GetSuit(b2);
  }

  lemma {:induction false} CountMonotone(rp: seq<(int, int)>, m: nat, p: int)
    requires m <= |rp|
    ensures Count(rp[..m], p) <= Count(rp, p)
    decreases |rp| - m
  {
    if m < |rp| {
      CountMonotone(rp, m + 1, p);
      assert rp[..m + 1][..m] == rp[..m];
    } else {
      assert rp[..m] == rp;
    }
  }

  /** The position stored for an entry is below the total count of its pattern. */
  lemma CountPrefixBelow(rp: seq<(int, int)>, n: nat)
    requires n < |rp|
    ensures Count(rp[..n], rp[n].0) < Count(rp, rp[n].0)
  {
    CountMonotone(rp, n + 1, rp[n].0);
    assert rp[..n + 1][..n] == rp[..n];
  }

  lemma {:induction false} KeysBeforeMonotone(combinations: seq<int>, p: int, q: int)
    requires |combinations| == RANK_COUNT && 0 <= p <= q <= RANK_COUNT
    requires forall r :: 0 <= r < RANK_COUNT ==> combinations[r] >= 0
    ensures KeysBefore(combinations, p) <= KeysBefore(combinations, q)
    decreases q - p
  {
    if p < q {
      KeysBeforeMonotone(combinations, p, q - 1);
      assert combinations[q - 1] * HOLE_RANKS * SlotsBefore(q - 1, SUIT_COUNT) >= 0;
    }
  }

  /** The mixed-radix key of get_key: pattern block, then slot, then board position, then hole ranks. */
  function MixedKey(base: int, offset: int, count: int, position: int, holeRank: int): int
  {
    base + offset * count * HOLE_RANKS + position * HOLE_RANKS + holeRank
  }

  /** The mixed-radix key of one rank pattern stays inside that pattern's block of keys. */
  lemma KeyInBlock(base: int, offset: int, slots: int, count: int, position: int, holeRank: int)
    requires 0 <= offset < slots && 0 <= position < count && 0 <= holeRank < HOLE_RANKS
    ensures base <= MixedKey(base, offset, count, position, holeRank) < base + count * HOLE_RANKS * slots
  {
    assert position * HOLE_RANKS + holeRank < count * HOLE_RANKS;
    assert (offset + 1) * count * HOLE_RANKS <= slots * count * HOLE_RANKS;
  }

  /** The lookup table's index structures (holdem_flop_lut); the stored equities are not modelled. */
  class FlopTable {
    /** rank_indexes_: row 0 indexes the middle rank of a board, row 1 its lowest rank. */
    var rankIndexes: seq<seq<int>>
    /** rank_patterns_: (rank pattern, position among boards of that pattern) per rank triple. */
    var rankPatterns: seq<(int, int)>
    /** suit_patterns_: suit pattern of each suit triple, addressed by 16 * s0 + 4 * s1 + s2. */
    var suitPatterns: seq<int>
    /** board_rank_suit_offsets_: first hole-suit slot of each (rank pattern, suit pattern), or -1. */
    var boardRankSuitOffsets: seq<seq<int>>
    /** board_rank_combinations_: number of rank triples of each rank pattern. */
    var boardRankCombinations: seq<int>
    /** board_rank_pattern_offsets_: first key of each rank pattern. */
    var boardRankPatternOffsets: seq<int>
    /** data_.size(): number of keys. */
    var size: int

    /** The tables as init leaves them. */
    ghost predicate Valid()
      reads this
    {
      |rankIndexes| == 2 && RankTables(rankIndexes[0], rankIndexes[1], rankPatterns, boardRankCombinations)
      && |suitPatterns| == SUITS * SUITS * SUITS
      && (forall i, j, k :: IsSuitTriple(i, j, k) ==> suitPatterns[i * 16 + j * 4 + k] == SuitPatternOf(i, j, k))
      && OffsetTables(boardRankCombinations, boardRankSuitOffsets, boardRankPatternOffsets, size)
    }

    constructor ()
      ensures Valid()
    {
      rankIndexes := [];
      rankPatterns := [];
      suitPatterns := [];
      boardRankSuitOffsets := [];
      boardRankCombinations := [];
      boardRankPatternOffsets := [];
      size := 0;
      new;
      Init();
    }

    /** init: the rank loops, the suit loops and the offset loops, in that order. */
    method Init()
      modifies this
      ensures Valid()
    {
      var ri0, ri1, rp, combinations := RankLoops();
      rankIndexes := [ri0, ri1];
      rankPatterns := rp;
      boardRankCombinations := combinations;
      suitPatterns := SuitLoops();
      boardRankSuitOffsets, boardRankPatternOffsets, size := OffsetLoops(boardRankCombinations);
    }

    /** The tables locate a sorted board: its rank triple, rank pattern, suit pattern, slots and block. */
    lemma BoardLookup(board: seq<int>)
      requires Valid() && BoardCards(board)
      ensures rankIndexes[1][GetRank(board[0])] + rankIndexes[0][GetRank(board[1])] + GetRank(board[2]) == BoardTriple(board)
      ensures rankPatterns[BoardTriple(board)].0 == BoardRankPattern(board)
      ensures suitPatterns[GetSuit(board[0]) * 16 + GetSuit(board[1]) * 4 + GetSuit(board[2])] == BoardSuitPattern(board)
      ensures boardRankSuitOffsets[BoardRankPattern(board)][BoardSuitPattern(board)]
        == SlotStart(BoardRankPattern(board), BoardSuitPattern(board))
      ensures boardRankPatternOffsets[BoardRankPattern(board)] == BlockStart(boardRankCombinations, BoardRankPattern(board))
    {
      RanksOrdered(board[0], board[1]);
      RanksOrdered(board[1], board[2]);
      RankIndexesLocate(rankIndexes[0], rankIndexes[1]);
      assert IsSuitTriple(GetSuit(board[0]), GetSuit(board[1]), GetSuit(board[2]));
    }

    /** Row 0 of rank_indexes_ also locates a sorted hole rank pair. */
    lemma HoleLookup(hole: seq<int>)
      requires Valid() && HoleCards(hole)
      ensures rankIndexes[0][GetRank(hole[0])] + GetRank(hole[1]) == HoleRank(hole)
    {
      RanksOrdered(hole[0], hole[1]);
      RankIndexesLocate(rankIndexes[0], rankIndexes[1]);
    }

    /**
     * get_key: sorts the board and the hole cards with the sorting networks, looks up the rank
     * and suit patterns, renumbers the suits by first appearance on the board and combines the
     * parts. The key lies inside the table and is the FlopKey of the sorted cards, so it does not
     * depend on the order in which the cards are given.
     */
    method GetKey(c0: int, c1: int, b0: int, b1: int, b2: int) returns (key: int)
      requires Valid()
      requires 0 <= c0 < CARDS && 0 <= c1 < CARDS && 0 <= b0 < CARDS && 0 <= b1 < CARDS && 0 <= b2 < CARDS
      requires c0 != c1 && b0 != b1 && b1 != b2 && b0 != b2
      ensures 0 <= key < size
      ensures key == FlopKey(boardRankCombinations, rankPatterns, SortedTriple(b0, b1, b2), SortedPair(c0, c1))
    {
      var board := SortBoard(b0, b1, b2);
      var hole := SortHole(c0, c1);
      BoardLookup(board);
      HoleLookup(hole);

      var boardRank := rankIndexes[1][GetRank(board[0])] + rankIndexes[0][GetRank(board[1])] + GetRank(board[2]);
      var boardRankPattern := rankPatterns[boardRank].0;
      var boardRankOffset := rankPatterns[boardRank].1;
      var boardSuitPattern := suitPatterns[GetSuit(board[0]) * 16 + GetSuit(board[1]) * 4 + GetSuit(board[2])];
      var boardSuits := [GetSuit(board[0]), GetSuit(board[1]), GetSuit(board[2])];
      var suitMap, letters := IsomorphicSuits(boardSuits);
      var boardRankSuitOffset := boardRankSuitOffsets[boardRankPattern][boardSuitPattern];

      var holeRank := rankIndexes[0][GetRank(hole[0])] + GetRank(hole[1]);
      var holeSuit := (suitMap[GetSuit(hole[0])] % 4) * 4 + suitMap[GetSuit(hole[1])] % 4;
      var offset := boardRankSuitOffset + HOLE_SUIT_OFFSETS[boardSuitPattern][holeSuit];
      assert offset == SlotStart(boardRankPattern, boardSuitPattern) + HoleSuitSlotOf(board, hole);

      key := MixedKey(boardRankPatternOffsets[boardRankPattern], offset, boardRankCombinations[boardRankPattern],
        boardRankOffset, holeRank);
      KeyOfLookups(boardRankCombinations, rankPatterns, board, hole, boardRankPattern,
        boardRankPatternOffsets[boardRankPattern], offset, boardRankOffset, holeRank);
      FlopKeyInTable(boardRankCombinations, rankPatterns, board, hole);
    }
  }

  /** A card's rank never decreases as the card grows. */
  lemma RanksOrdered(a: int, b: int)
    requires 0 <= a <= b
    ensures GetRank(a) <= GetRank(b)
  {
  }

  /** The hole rank pair's position is below the 91 pairs. */
  lemma HoleRankBound(h0: int, h1: int)
    requires IsTriple(0, h0, h1)
    ensures TripleIndex(0, h0, h1) < HOLE_RANKS
  {
    TripleIndexInBlock(0, h0, h1);
    PairsBeforeMonotone(h0 + 1, RANKS);
    PairsCount();
  }

  lemma {:induction false} SlotsBeforeMonotone(p: int, a: int, b: int)
    requires 0 <= p < RANK_COUNT && 0 <= a <= b <= SUIT_COUNT
    ensures SlotsBefore(p, a) <= SlotsBefore(p, b)
    decreases b - a
  {
    if a < b {
      SlotsBeforeMonotone(p, a, b - 1);
    }
  }

  /** The slots of an allowed suit pattern lie inside its rank pattern's slots. */
  lemma SlotInPattern(p: int, s: int)
    requires 0 <= p < RANK_COUNT && 0 <= s < SUIT_COUNT && BOARD_RANK_SUITS[p][s]
    ensures SlotsBefore(p, s) + Slots(s) <= SlotsBefore(p, SUIT_COUNT)
  {
    SlotsBeforeMonotone(p, s + 1, SUIT_COUNT);
  }

  /** The board sort of get_key: sort(board) on a three-element array. */
  method SortBoard(b0: int, b1: int, b2: int) returns (board: seq<int>)
    requires 0 <= b0 < CARDS && 0 <= b1 < CARDS && 0 <= b2 < CARDS && b0 != b1 && b1 != b2 && b0 != b2
    ensures board == SortedTriple(b0, b1, b2) && BoardCards(board)
  {
    var a := new int[3];
    a[0], a[1], a[2] := b0, b1, b2;
    assert a[..] == [b0, b1, b2];
    SortNetworks.Sort3(a);
    SortedTriplePermutation(b0, b1, b2);
    ThreeSorted(SortedTriple(b0, b1, b2));
    SortNetworks.SortedUnique(a[..], SortedTriple(b0, b1, b2));
    board := a[..];
  }

  /** The hole card sort of get_key: sort(hole) on a two-element array. */
  method SortHole(c0: int, c1: int) returns (hole: seq<int>)
    requires 0 <= c0 < CARDS && 0 <= c1 < CARDS && c0 != c1
    ensures hole == SortedPair(c0, c1) && HoleCards(hole)
  {
    var a := new int[2];
    a[0], a[1] := c0, c1;
    assert a[..] == [c0, c1];
    SortNetworks.Sort2(a);
    assert multiset(SortedPair(c0, c1)) == multiset([c0, c1]);
    TwoSorted(SortedPair(c0, c1));
    SortNetworks.SortedUnique(a[..], SortedPair(c0, c1));
    hole := a[..];
  }

  /** The suit renumbering loop of get_key. */
  method IsomorphicSuits(suits: seq<int>) returns (suitMap: seq<int>, letters: int)
    requires |suits| == 3 && IsSuitTriple(suits[0], suits[1], suits[2])
    ensures (suitMap, letters) == SuitMapOf(suits)
  {
    suitMap := [-1, -1, -1, -1];
    letters := 0;
    assert suits[..0] == [];
    for i := 0 to |suits|
      invariant (suitMap, letters) == SuitMapOf(suits[..i])
    {
      assert suits[..i + 1][..i] == suits[..i];
      var suit := suits[i];
      if suitMap[suit] == -1 {
        suitMap := suitMap[suit := letters];
        letters := letters + 1;
      }
    }
    assert suits[..|suits|] == suits;
  }

  /** Three distinct cards in ascending order. */
  predicate BoardCards(board: seq<int>)
  {
    |board| == 3 && 0 <= board[0] < board[1] < board[2] < CARDS
  }

  /** Two distinct cards in ascending order. */
  predicate HoleCards(hole: seq<int>)
  {
    |hole| == 2 && 0 <= hole[0] < hole[1] < CARDS
  }

  /** The rank pattern of a sorted board. */
  function BoardRankPattern(board: seq<int>): (p: int)
    requires BoardCards(board)
    ensures 0 <= p < RANK_COUNT
  {
    RankPatternOf(GetRank(board[0]), GetRank(board[1]), GetRank(board[2]))
  }

  /** The suit pattern of a sorted board; init gives it slots for the board's rank pattern. */
  function BoardSuitPattern(board: seq<int>): (sp: int)
    requires BoardCards(board)
    ensures 0 <= sp < SUIT_COUNT && BOARD_RANK_SUITS[BoardRankPattern(board)][sp]
  {
    BoardPatternAllowed(board[0], board[1], board[2]);
    SuitPatternOf(GetSuit(board[0]), GetSuit(board[1]), GetSuit(board[2]))
  }

  /** The position of a sorted board's rank triple in rank_patterns_. */
  function BoardTriple(board: seq<int>): (n: nat)
    requires BoardCards(board)
    ensures n < TRIPLES
  {
    RanksOrdered(board[0], board[1]);
    RanksOrdered(board[1], board[2]);
    TripleIndexBound(GetRank(board[0]), GetRank(board[1]), GetRank(board[2]));
    TripleIndex(GetRank(board[0]), GetRank(board[1]), GetRank(board[2]))
  }

  /** The position of a sorted hole rank pair among the 91 pairs. */
  function HoleRank(hole: seq<int>): (h: nat)
    requires HoleCards(hole)
    ensures h < HOLE_RANKS
  {
    RanksOrdered(hole[0], hole[1]);
    HoleRankBound(GetRank(hole[0]), GetRank(hole[1]));
    TripleIndex(0, GetRank(hole[0]), GetRank(hole[1]))
  }

  /** The hole-suit slot of the hole cards after the board's suit renumbering. */
  function HoleSuitSlotOf(board: seq<int>, hole: seq<int>): (h: int)
    requires BoardCards(board) && HoleCards(hole)
    ensures 0 <= h < Slots(BoardSuitPattern(board))
  {
    var s0, s1, s2 := GetSuit(board[0]), GetSuit(board[1]), GetSuit(board[2]);
    var letters := SuitMapOf([s0, s1, s2]);
    SuitMapLetters(s0, s1, s2);
    HoleSuitSlot(BoardSuitPattern(board), letters.0[GetSuit(hole[0])], letters.0[GetSuit(hole[1])], letters.1);
    HoleSlot(BoardSuitPattern(board), letters.0[GetSuit(hole[0])], letters.0[GetSuit(hole[1])])
  }

  /** The hole-suit table entry of get_key for the renumbered suits x and y (-1 when off the board). */
  function HoleSlot(suitPattern: int, x: int, y: int): int
    requires 0 <= suitPattern < SUIT_COUNT && -1 <= x < SUITS && -1 <= y < SUITS
  {
    HOLE_SUIT_OFFSETS[suitPattern][(x % 4) * 4 + y % 4]
  }

  /** First key of rank pattern p's block (KeysBefore, named for use in the key). */
  function BlockStart(combinations: seq<int>, p: int): int
    requires |combinations| == RANK_COUNT && 0 <= p < RANK_COUNT
  {
    KeysBefore(combinations, p)
  }

  /** First hole-suit slot of suit pattern s within rank pattern p (SlotsBefore, named for use in the key). */
  function SlotStart(p: int, s: int): nat
    requires 0 <= p < RANK_COUNT && 0 <= s < SUIT_COUNT
  {
    SlotsBefore(p, s)
  }

  /**
   * The key of a flop by the meaning of the tables: the block of the board's rank pattern, the
   * slot of its suit pattern and hole suits, the board's position among boards of its rank
   * pattern, and the hole rank pair's position among the 91 sorted pairs.
   */
  function FlopKey(combinations: seq<int>, rp: seq<(int, int)>, board: seq<int>, hole: seq<int>): int
    requires |combinations| == RANK_COUNT && |rp| == TRIPLES
    requires BoardCards(board) && HoleCards(hole)
  {
    var p := BoardRankPattern(board);
    MixedKey(BlockStart(combinations, p), SlotStart(p, BoardSuitPattern(board)) + HoleSuitSlotOf(board, hole),
      combinations[p], rp[BoardTriple(board)].1, HoleRank(hole))
  }

  /** The values get_key reads from the tables combine into the FlopKey of the cards. */
  lemma KeyOfLookups(combinations: seq<int>, rp: seq<(int, int)>, board: seq<int>, hole: seq<int>,
                     pattern: int, patternOffset: int, offset: int, position: int, holeRank: int)
    requires |combinations| == RANK_COUNT && |rp| == TRIPLES
    requires BoardCards(board) && HoleCards(hole)
    requires pattern == BoardRankPattern(board) && patternOffset == BlockStart(combinations, pattern)
    requires offset == SlotStart(pattern, BoardSuitPattern(board)) + HoleSuitSlotOf(board, hole)
    requires position == rp[BoardTriple(board)].1 && holeRank == HoleRank(hole)
    ensures MixedKey(patternOffset, offset, combinations[pattern], position, holeRank) == FlopKey(combinations, rp, board, hole)
  {
  }

  /** A board's position among the boards of its rank pattern is below that pattern's count. */
  lemma BoardPositionBelow(combinations: seq<int>, rp: seq<(int, int)>, board: seq<int>)
    requires |rp| == TRIPLES && PatternsNumbered(rp, combinations) && Processed(rp)
    requires BoardCards(board)
    ensures 0 <= rp[BoardTriple(board)].1 < combinations[BoardRankPattern(board)]
  {
    var n := BoardTriple(board);
    RanksOrdered(board[0], board[1]);
    RanksOrdered(board[1], board[2]);
    assert rp[n].0 == BoardRankPattern(board);
    CountPrefixBelow(rp, n);
  }

  /** Every flop of distinct cards has a key inside the table. */
  lemma FlopKeyInTable(combinations: seq<int>, rp: seq<(int, int)>, board: seq<int>, hole: seq<int>)
    requires |rp| == TRIPLES && PatternsNumbered(rp, combinations) && Processed(rp)
    requires BoardCards(board) && HoleCards(hole)
    ensures 0 <= FlopKey(combinations, rp, board, hole) < KeysBefore(combinations, RANK_COUNT)
  {
    BoardPositionBelow(combinations, rp, board);
    KeyInTable(combinations, rp, board, hole);
  }

  lemma KeyInTable(combinations: seq<int>, rp: seq<(int, int)>, board: seq<int>, hole: seq<int>)
    requires |combinations| == RANK_COUNT && |rp| == TRIPLES
    requires forall p :: 0 <= p < RANK_COUNT ==> combinations[p] >= 0
    requires BoardCards(board) && HoleCards(hole)
    requires 0 <= rp[BoardTriple(board)].1 < combinations[BoardRankPattern(board)]
    ensures 0 <= FlopKey(combinations, rp, board, hole) < KeysBefore(combinations, RANK_COUNT)
  {
    var p := BoardRankPattern(board);
    var sp := BoardSuitPattern(board);
    SlotInPattern(p, sp);
    KeyInBlock(BlockStart(combinations, p), SlotStart(p, sp) + HoleSuitSlotOf(board, hole),
      SlotsBefore(p, SUIT_COUNT), combinations[p], rp[BoardTriple(board)].1, HoleRank(hole));
    KeysBeforeMonotone(combinations, 0, p);
    KeysBeforeMonotone(combinations, p + 1, RANK_COUNT);
  }
}
