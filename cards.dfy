/** Card encoding of the C++ libraries: a card is rank * 4 + suit. */
module Cards {

  const RANKS := 13
  const SUITS := 4
  const CARDS := 52

  const CLUB := 0
  const DIAMOND := 1
  const HEART := 2
  const SPADE := 3

  /** card >> 2 (an arithmetic shift, so floor division by 4). */
  function GetRank(card: int): int {
    card / 4
  }

  /** card & 3 (the two low bits, never negative). */
  function GetSuit(card: int): (s: int)
    ensures 0 <= s < SUITS
  {
    card % 4
  }

  /** rank << 2 | suit; for a suit in [0, 4) the OR adds the suit to the shifted rank. */
  function GetCard(rank: int, suit: int): (c: int)
    requires 0 <= suit < SUITS
    ensures GetRank(c) == rank && GetSuit(c) == suit
    ensures 0 <= rank < RANKS ==> 0 <= c < CARDS
  {
    rank * 4 + suit
  }

  /** Decomposition: every card is rebuilt from its rank and suit. */
  lemma CardOfRankSuit(card: int)
    ensures GetCard(GetRank(card), GetSuit(card)) == card
  {
  }

  function RankChar(rank: int): (ch: char)
    requires 0 <= rank < RANKS
  {
    match rank
    case 0 => '2' case 1 => '3' case 2 => '4' case 3 => '5' case 4 => '6'
    case 5 => '7' case 6 => '8' case 7 => '9' case 8 => 'T' case 9 => 'J'
    case 10 => 'Q' case 11 => 'K' case _ => 'A'
  }

  function SuitChar(suit: int): (ch: char)
    requires 0 <= suit < SUITS
  {
    match suit
    case 0 => 'c' case 1 => 'd' case 2 => 'h' case _ => 's'
  }

  /** The two-character name of a card, or "?" for a value outside the deck. */
  function GetCardString(card: int): (s: string)
    ensures |s| == (if 0 <= card < CARDS then 2 else 1)
    ensures !(0 <= card < CARDS) <==> s == "?"
  {
    if card < 0 || card >= CARDS then "?"
    else [RankChar(GetRank(card)), SuitChar(GetSuit(card))]
  }

  /** The rank named by the first character, or -1. */
  function StringToRank(s: string): (r: int)
    ensures s == [] ==> r == -1
    ensures -1 <= r < RANKS
  {
    if |s| == 0 then -1
    else
      match s[0]
      case '2' => 0 case '3' => 1 case '4' => 2 case '5' => 3 case '6' => 4
      case '7' => 5 case '8' => 6 case '9' => 7 case 'T' => 8 case 'J' => 9
      case 'Q' => 10 case 'K' => 11 case 'A' => 12
      case _ => -1
  }

  /** The suit named by a character, or -1. */
  function CharToSuit(ch: char): (suit: int)
    ensures -1 <= suit < SUITS
  {
    match ch
    case 'c' => CLUB case 'd' => DIAMOND case 'h' => HEART case 's' => SPADE
    case _ => -1
  }

  /** The card named by the first two characters, or -1. */
  function StringToCard(s: string): (c: int)
    ensures c == -1 || 0 <= c < CARDS
    ensures |s| < 2 ==> c == -1
  {
    if |s| < 2 then -1
    else
      var rank := StringToRank(s);
      if rank == -1 then -1
      else
        var suit := CharToSuit(s[1]);
        if suit == -1 then -1 else GetCard(rank, suit)
  }

  /** Every card of the deck survives printing and parsing. */
  lemma CardStringRoundTrip(card: int)
    requires 0 <= card < CARDS
    ensures StringToCard(GetCardString(card)) == card
  {
    var r, s := GetRank(card), GetSuit(card);
    var name := GetCardString(card);
    assert name == [RankChar(r), SuitChar(s)];
    RankCharParses(r, name);
    SuitCharParses(s);
    CardOfRankSuit(card);
  }

  lemma RankCharParses(r: int, name: string)
    requires 0 <= r < RANKS && |name| > 0 && name[0] == RankChar(r)
    ensures StringToRank(name) == r
  {
  }

  lemma SuitCharParses(s: int)
    requires 0 <= s < SUITS
    ensures CharToSuit(SuitChar(s)) == s
  {
  }

  /** Parsing accepts exactly the names that printing produces, up to characters after the second. */
  lemma StringToCardNames(s: string)
    requires StringToCard(s) != -1
    ensures GetCardString(StringToCard(s)) == s[..2]
  {
    var rank := StringToRank(s);
    var suit := CharToSuit(s[1]);
    assert 0 <= rank < RANKS && 0 <= suit < SUITS;
    var c := GetCard(rank, suit);
    assert StringToCard(s) == c;
    assert GetCardString(c) == [RankChar(rank), SuitChar(suit)];
    ParsedRankPrints(s);
    ParsedSuitPrints(s[1]);
  }

  /** A rank character that parses is printed back as itself. */
  lemma ParsedRankPrints(s: string)
    requires StringToRank(s) != -1
    ensures RankChar(StringToRank(s)) == s[0]
  {
    match s[0]
    case '2' => case '3' => case '4' => case '5' => case '6' => case '7' => case '8' =>
    case '9' => case 'T' => case 'J' => case 'Q' => case 'K' => case 'A' =>
    case _ => assert false;
  }

  /** A suit character that parses is printed back as itself. */
  lemma ParsedSuitPrints(ch: char)
    requires CharToSuit(ch) != -1
    ensures SuitChar(CharToSuit(ch)) == ch
  {
  }

  /** A rank character that is not in the table yields -1. */
  lemma UnknownRankChar(s: string)
    requires |s| > 0 && s[0] !in "23456789TJQKA"
    ensures StringToRank(s) == -1 && StringToCard(s) == -1
  {
  }
}
