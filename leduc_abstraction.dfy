/**
 * The card abstraction of Leduc hold'em: six cards, two of each of the ranks J, Q and K
 * (card / 2 is the rank), one private card and one board card.
 */
module LeducAbstraction {
  import opened Arith

  const DECK := 6

  /** get_bucket: the suit is ignored, so both cards of a rank share a bucket. */
  function GetBucket(card: int): (b: int)
    ensures 0 <= card < DECK ==> 0 <= b < 3
    ensures card >= 0 ==> 2 * b <= card < 2 * b + 2
  {
    TruncDiv(card, 2)
  }

  /** get_bucket_count: three buckets before the board, nine (card rank, board rank) after it. */
  function GetBucketCount(round: int): (n: int)
    ensures n > 0
    ensures round == 0 <==> n == 3
  {
    if round == 0 then 3 else 3 * 3
  }

  /** get_buckets: the bucket of each round; the second encodes the board rank in base 3. */
  function GetBuckets(card: int, board: int): (bs: (int, int))
    ensures bs.0 == GetBucket(card)
    ensures 0 <= board < DECK ==> bs.1 % 3 == GetBucket(board) && bs.1 / 3 == bs.0
  {
    var b0 := GetBucket(card);
    (b0, b0 * 3 + GetBucket(board))
  }

  /** Every bucket of a real deal lies below its round's bucket count. */
  lemma BucketsInRange(card: int, board: int)
    requires 0 <= card < DECK && 0 <= board < DECK
    ensures 0 <= GetBuckets(card, board).0 < GetBucketCount(0)
    ensures 0 <= GetBuckets(card, board).1 < GetBucketCount(1)
  {
    assert 0 <= GetBucket(card) < 3 && 0 <= GetBucket(board) < 3;
  }

  /** Two deals share their buckets exactly when they agree in the rank of both cards. */
  lemma BucketsIdentifyRanks(c1: int, d1: int, c2: int, d2: int)
    requires 0 <= c1 < DECK && 0 <= d1 < DECK && 0 <= c2 < DECK && 0 <= d2 < DECK
    ensures GetBuckets(c1, d1) == GetBuckets(c2, d2) <==> c1 / 2 == c2 / 2 && d1 / 2 == d2 / 2
  {
    var b1, b2 := GetBuckets(c1, d1), GetBuckets(c2, d2);
    if b1 == b2 {
      assert b1.1 % 3 == GetBucket(d1) && b2.1 % 3 == GetBucket(d2);
    }
  }
}
