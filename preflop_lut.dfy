/**
 * Key of the preflop lookup table: the 169 strategically distinct starting hands, with the
 * suited hands above the diagonal of a 13 x 13 rank grid and the offsuit hands (pairs included)
 * on or below it.
 */
module PreflopLut {
  import opened Cards

  /** Number of entries of the table (the size of its data array). */
  const SIZE := 169

  predicate Suited(c0: int, c1: int)
  {
    GetSuit(c0) == GetSuit(c1)
  }

  function Low(c0: int, c1: int): int
  {
    if GetRank(c0) <= GetRank(c1) then GetRank(c0) else GetRank(c1)
  }

  function High(c0: int, c1: int): int
  {
    if GetRank(c0) <= GetRank(c1) then GetRank(c1) else GetRank(c0)
  }

  /** get_key: row = low rank for suited hands, high rank for offsuit ones; column = the other rank. */
  function GetKey(c0: int, c1: int): (key: int)
    requires c0 != c1
    ensures 0 <= c0 < CARDS && 0 <= c1 < CARDS ==> 0 <= key < SIZE
  {
    if Suited(c0, c1) then Low(c0, c1) * RANKS + High(c0, c1)
    else High(c0, c1) * RANKS + Low(c0, c1)
  }

  /** The key does not depend on the order of the two hole cards. */
  lemma KeySymmetric(c0: int, c1: int)
    requires c0 != c1
    ensures GetKey(c0, c1) == GetKey(c1, c0)
  {
  }

  /** Row and column of a key give back the two ranks of the hand. */
  lemma KeyRanks(c0: int, c1: int)
    requires 0 <= c0 < CARDS && 0 <= c1 < CARDS && c0 != c1
    ensures var key := GetKey(c0, c1);
      if Suited(c0, c1) then key / RANKS == Low(c0, c1) && key % RANKS == High(c0, c1)
      else key / RANKS == High(c0, c1) && key % RANKS == Low(c0, c1)
  {
    var key := GetKey(c0, c1);
    var row, col := key / RANKS, key % RANKS;
    if Suited(c0, c1) {
      assert key == Low(c0, c1) * RANKS + High(c0, c1);
      assert 0 <= High(c0, c1) < RANKS;
    } else {
      assert key == High(c0, c1) * RANKS + Low(c0, c1);
      assert 0 <= Low(c0, c1) < RANKS;
    }
  }

  /** Suited hands lie above the diagonal of the grid and offsuit hands on or below it. */
  lemma SuitedAboveDiagonal(c0: int, c1: int)
    requires 0 <= c0 < CARDS && 0 <= c1 < CARDS && c0 != c1
    ensures Suited(c0, c1) <==> GetKey(c0, c1) / RANKS < GetKey(c0, c1) % RANKS
  {
    KeyRanks(c0, c1);
  }

  /**
   * Two hands share a key exactly when they have the same two ranks and are both suited or
   * both offsuit: suited and offsuit keys never collide.
   */
  lemma SameKeyIffSameClass(c0: int, c1: int, d0: int, d1: int)
    requires 0 <= c0 < CARDS && 0 <= c1 < CARDS && c0 != c1
    requires 0 <= d0 < CARDS && 0 <= d1 < CARDS && d0 != d1
    ensures GetKey(c0, c1) == GetKey(d0, d1) <==>
      Low(c0, c1) == Low(d0, d1) && High(c0, c1) == High(d0, d1) && Suited(c0, c1) == Suited(d0, d1)
  {
    KeyRanks(c0, c1);
    KeyRanks(d0, d1);
  }
}
