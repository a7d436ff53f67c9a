/** Hand strength in Leduc hold'em: a pair with the board beats every unpaired card. */
module LeducEvaluator {
  import opened Arith

  const DECK := 6

  /** Rank of a Leduc card: J = 0, Q = 1, K = 2. */
  function Rank(card: int): int
  {
    TruncDiv(card, 2)
  }

  /** get_hand_value: a card pairing the board scores 3 + rank, any other card its rank. */
  function GetHandValue(card: int, board: int): (v: int)
    ensures 0 <= card < DECK && 0 <= board < DECK ==> 0 <= v < 6
    ensures 0 <= card < DECK ==> (v >= 3 <==> Rank(card) == Rank(board))
  {
    var rank := Rank(card);
    if rank == Rank(board) then 3 + rank else rank
  }

  /** Every pair outscores every non-pair on the same board. */
  lemma PairBeatsHighCard(pair: int, other: int, board: int)
    requires 0 <= pair < DECK && 0 <= other < DECK && 0 <= board < DECK
    requires Rank(pair) == Rank(board) && Rank(other) != Rank(board)
    ensures GetHandValue(pair, board) > GetHandValue(other, board)
  {
    assert GetHandValue(pair, board) >= 3 && GetHandValue(other, board) < 3;
  }

  /**
   * On a given board, the value order of two cards is their rank order unless exactly one
   * of them pairs the board; cards of equal rank tie.
   */
  lemma ValueFollowsRank(c1: int, c2: int, board: int)
    requires 0 <= c1 < DECK && 0 <= c2 < DECK && 0 <= board < DECK
    ensures (Rank(c1) == Rank(board)) == (Rank(c2) == Rank(board)) ==>
      (GetHandValue(c1, board) < GetHandValue(c2, board) <==> Rank(c1) < Rank(c2))
    ensures Rank(c1) == Rank(c2) ==> GetHandValue(c1, board) == GetHandValue(c2, board)
  {
  }
}
