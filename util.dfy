/**
 * The helpers of the Python client (midas/util.py) the decision engine relies on: the clamped
 * normal delay, the weighted pick, ensure, rounding to a multiple, screen rectangles, cards, and
 * the choice of the strategy whose stack size is nearest.
 *
 * Randomness is a parameter: the caller passes the draw of random.random() or the standard normal
 * variate. Python floats are modelled as exact reals.
 */
module Util {
  import opened Wrappers
  import opened Arith
  import Cards

  /** ensure: fails with "ensure failed" exactly when the condition is false. */
  function Ensure(exp: bool): (r: Outcome)
    ensures r.Pass? <==> exp
    ensures r.Fail? ==> r.error == "ensure failed"
  {
    if exp then Pass else Fail("ensure failed")
  }

  /**
   * get_normal_random: a normal variate around the midpoint of [a, b] with a third of the half
   * width as its deviation, clamped into [a, b]; z is the standard normal draw.
   */
  function NormalRandom(a: real, b: real, z: real): (r: real)
    ensures a <= b ==> a <= r <= b
    ensures a > b ==> r == a
  {
    var mean := (a + b) / 2.0;
    var sigma := (mean - a) / 3.0;
    var x := mean + sigma * z;
    MaxReal(a, MinReal(x, b))
  }

  /** A draw within three deviations of the mean is never clamped. */
  lemma ThreeSigmaUnclamped(a: real, b: real, z: real)
    requires a <= b && -3.0 <= z <= 3.0
    ensures NormalRandom(a, b, z) == (a + b) / 2.0 + ((a + b) / 2.0 - a) / 3.0 * z
  {
    var mean := (a + b) / 2.0;
    var sigma := (mean - a) / 3.0;
    var x := mean + sigma * z;
    assert sigma >= 0.0 && 3.0 * sigma == mean - a && b - mean == mean - a;
    ScaleMonotone(z, 3.0, sigma);
    ScaleMonotone(-3.0, z, sigma);
    assert z * sigma <= 3.0 * sigma && -3.0 * sigma <= z * sigma;
    assert sigma * z == z * sigma;
    assert mean + 3.0 * sigma == b && mean + -3.0 * sigma == a;
    assert x <= b;
    assert a <= x;
    assert MinReal(x, b) == x;
  }

  /** Index i is the first entry the draw x falls below, among the positive entries. */
  predicate Picks(p: seq<real>, x: real, i: int)
  {
    0 <= i < |p| && x < p[i] && p[i] > 0.0
    && forall j :: 0 <= j < i ==> !(x < p[j] && p[j] > 0.0)
  }

  /**
   * get_weighted_int: scans the entries for the first positive one the draw x lies below, and
   * fails with "Invalid probability distribution" when there is none.
   */
  method WeightedInt(p: seq<real>, x: real) returns (r: Result<nat>)
    ensures r.Ok? ==> Picks(p, x, r.value)
    ensures r.Err? <==> forall i :: 0 <= i < |p| ==> !(x < p[i] && p[i] > 0.0)
  {
    var i := 0;
    while i < |p|
      invariant 0 <= i <= |p|
      invariant forall j :: 0 <= j < i ==> !(x < p[j] && p[j] > 0.0)
    {
      if x < p[i] && p[i] > 0.0 {
        return Ok(i);
      }
      i := i + 1;
    }
    return Err("Invalid probability distribution");
  }

  predicate Cumulative(p: seq<real>)
  {
    forall i, j :: 0 <= i < j < |p| ==> p[i] <= p[j]
  }

  /**
   * The entries are read as a cumulative distribution: with nondecreasing entries ending above
   * the draw, a draw in [0, 1) always picks, and it picks index i exactly when it lies in
   * [p[i - 1], p[i]), so index i is chosen with probability p[i] - p[i - 1].
   */
  lemma {:induction false} CumulativePick(p: seq<real>, x: real, i: int)
    requires Cumulative(p) && |p| > 0 && 0.0 <= x < p[|p| - 1] && 0 <= i < |p|
    ensures Picks(p, x, i) <==> (i == 0 || p[i - 1] <= x) && x < p[i]
  {
    if (i == 0 || p[i - 1] <= x) && x < p[i] {
      forall j | 0 <= j < i
        ensures !(x < p[j] && p[j] > 0.0)
      {
        assert p[j] <= p[i - 1];
      }
    }
  }

  /** Python's round(): to the nearest integer, halves to the even neighbour. */
  function RoundHalfEven(q: real): (n: int)
    ensures -0.5 <= n as real - q <= 0.5
    ensures (n as real - q == 0.5 || q - n as real == 0.5) ==> n % 2 == 0
  {
    var f := q.Floor;
    var frac := q - f as real;
    if frac < 0.5 then f
    else if frac > 0.5 then f + 1
    else if f % 2 == 0 then f
    else f + 1
  }

  function AbsReal(x: real): (r: real)
    ensures r >= 0.0 && (r == x || r == -x)
  {
    if x < 0.0 then -x else x
  }

  /** round_multiple: val unchanged for a zero multiple, else val rounded to the nearest multiple of mul. */
  function RoundMultiple(val: real, mul: real): (r: real)
    ensures mul == 0.0 ==> r == val
    ensures mul != 0.0 ==> (r / mul).Floor as real == r / mul
  {
    if mul == 0.0 then val
    else
      var n := RoundHalfEven(val / mul);
      MultipleDivides(n, mul);
      n as real * mul
  }

  lemma MultipleDivides(n: int, mul: real)
    requires mul != 0.0
    ensures (n as real * mul) / mul == n as real
  {
  }

  /** No integer lies closer to q than its rounding. */
  lemma NearestInteger(q: real, k: int)
    ensures AbsReal(RoundHalfEven(q) as real - q) <= AbsReal(k as real - q)
  {
    var n := RoundHalfEven(q);
    if k < n {
      assert k as real <= n as real - 1.0;
    } else if k > n {
      assert k as real >= n as real + 1.0;
    }
  }

  /**
   * round_multiple picks the multiple of mul whose quotient by mul lies nearest to val / mul:
   * no other integer multiple k * mul has a quotient closer to it.
   */
  lemma RoundsToNearestMultiple(val: real, mul: real, k: int)
    requires mul != 0.0
    ensures AbsReal(RoundMultiple(val, mul) / mul - val / mul) <= AbsReal(k as real - val / mul)
  {
    var n := RoundHalfEven(val / mul);
    MultipleDivides(n, mul);
    assert RoundMultiple(val, mul) / mul == n as real;
    NearestInteger(val / mul, k);
  }

  lemma ScaleMonotone(a: real, b: real, m: real)
    requires a <= b && m >= 0.0
    ensures a * m <= b * m
  {
  }

  lemma {:induction false} HasMin(s: set<int>, w: int)
    requires w in s
    ensures exists m :: m in s && forall k :: k in s ==> m <= k
    decreases |s|
  {
    if !forall k :: k in s ==> w <= k {
      var y :| y in s && y < w;
      var rest := s - {w};
      HasMin(rest, y);
      var m :| m in rest && forall k :: k in rest ==> m <= k;
      assert forall k :: k in s ==> k == w || k in rest;
      assert m in s;
    }
  }

  lemma {:induction false} HasMax(s: set<int>, w: int)
    requires w in s
    ensures exists m :: m in s && forall k :: k in s ==> k <= m
    decreases |s|
  {
    if !forall k :: k in s ==> k <= w {
      var y :| y in s && y > w;
      var rest := s - {w};
      HasMax(rest, y);
      var m :| m in rest && forall k :: k in rest ==> k <= m;
      assert forall k :: k in s ==> k == w || k in rest;
      assert m in s;
    }
  }

  /** A non-empty set of integers has a least and a greatest element. */
  lemma HasExtremes(s: set<int>)
    requires s != {}
    ensures exists m :: m in s && forall k :: k in s ==> m <= k
    ensures exists m :: m in s && forall k :: k in s ==> k <= m
  {
    if forall k :: k !in s {
      assert false;
    }
    var w :| w in s;
    HasMin(s, w);
    HasMax(s, w);
  }

  /** The smallest element of a non-empty set. */
  function SetMin(s: set<int>): (m: int)
    requires s != {}
    ensures m in s && forall k :: k in s ==> m <= k
  {
    HasExtremes(s);
    var m :| m in s && forall k :: k in s ==> m <= k;
    m
  }

  /** The largest element of a non-empty set. */
  function SetMax(s: set<int>): (m: int)
    requires s != {}
    ensures m in s && forall k :: k in s ==> k <= m
  {
    HasExtremes(s);
    var m :| m in s && forall k :: k in s ==> k <= m;
    m
  }

  /** The key find_nearest settles on: the smallest key not below value, else the largest key. */
  function NearestKey(keys: set<int>, value: int): (k: int)
    requires keys != {}
    ensures k in keys
    ensures (exists j :: j in keys && j >= value) ==>
      k >= value && forall j :: j in keys && j >= value ==> k <= j
    ensures (forall j :: j in keys ==> j < value) ==> forall j :: j in keys ==> j <= k
  {
    var above := set j | j in keys && j >= value;
    assert forall j :: j in keys && j >= value ==> j in above;
    if above != {} then SetMin(above) else SetMax(keys)
  }

  /** find_nearest: the entry under NearestKey; max() of no keys raises ValueError. */
  function FindNearest<V>(data: map<int, V>, value: int): (r: Result<V>)
    ensures r.Ok? <==> |data| > 0
    ensures r.Ok? ==> r.value == data[NearestKey(data.Keys, value)]
  {
    if data.Keys == {} then Err("max() arg is an empty sequence")
    else Ok(data[NearestKey(data.Keys, value)])
  }

  /** The cases the client's own test states for keys 2 and 4. */
  lemma FindNearestExamples()
    ensures var data := map[2 := "two", 4 := "four"];
      FindNearest(data, 0) == Ok("two") && FindNearest(data, 1) == Ok("two") && FindNearest(data, 2) == Ok("two")
      && FindNearest(data, 3) == Ok("four") && FindNearest(data, 4) == Ok("four") && FindNearest(data, 5) == Ok("four")
  {
    var data := map[2 := "two", 4 := "four"];
    assert data.Keys == {2, 4};
    var k0, k1, k2 := NearestKey({2, 4}, 0), NearestKey({2, 4}, 1), NearestKey({2, 4}, 2);
    assert 2 in {2, 4} && 4 in {2, 4};
  }

  /** A screen rectangle: left and top edges, width and height. */
  datatype Rect = Rect(x: int, y: int, w: int, h: int) {
    function Left(): int { x }
    function Top(): int { y }
    function Right(): int { x + w }
    function Bottom(): int { y + h }

    /** Indexing yields left, top, right and bottom; any other index raises IndexError. */
    function Item(index: int): (r: Result<int>)
      ensures r.Ok? <==> 0 <= index < 4
    {
      if index == 0 then Ok(x)
      else if index == 1 then Ok(y)
      else if index == 2 then Ok(x + w)
      else if index == 3 then Ok(y + h)
      else Err("IndexError")
    }

    predicate IsValid()
    {
      w != -1 && h != -1
    }

    /** The rectangle with each edge moved by its delta; the constructor refuses an empty result. */
    function Adjusted(dx1: int, dy1: int, dx2: int, dy2: int): Result<Rect>
    {
      NewRect(x + dx1, y + dy1, w - dx1 + dx2, h - dy1 + dy2)
    }
  }

  /** Rect(): its assertion refuses a width or height that is not positive. */
  function NewRect(x: int, y: int, w: int, h: int): (r: Result<Rect>)
    ensures r.Ok? <==> w > 0 && h > 0
    ensures r.Ok? ==>
      r.value.Left() == x && r.value.Top() == y && r.value.Right() - r.value.Left() == w
      && r.value.Bottom() - r.value.Top() == h && r.value.IsValid()
  {
    if w > 0 && h > 0 then Ok(Rect(x, y, w, h)) else Err("AssertionError")
  }

  /** Indexing gives the four edges in order. */
  lemma ItemsAreEdges(r: Rect)
    ensures r.Item(0) == Ok(r.Left()) && r.Item(1) == Ok(r.Top())
    ensures r.Item(2) == Ok(r.Right()) && r.Item(3) == Ok(r.Bottom())
  {
  }

  /**
   * adjusted moves each edge by its own delta, and succeeds exactly when the moved edges still
   * enclose a non-empty rectangle.
   */
  lemma AdjustedMovesEdges(r: Rect, dx1: int, dy1: int, dx2: int, dy2: int)
    ensures r.Adjusted(dx1, dy1, dx2, dy2).Ok? <==>
      r.Left() + dx1 < r.Right() + dx2 && r.Top() + dy1 < r.Bottom() + dy2
    ensures r.Adjusted(dx1, dy1, dx2, dy2).Ok? ==>
      var a := r.Adjusted(dx1, dy1, dx2, dy2).value;
      a.Left() == r.Left() + dx1 && a.Top() == r.Top() + dy1
      && a.Right() == r.Right() + dx2 && a.Bottom() == r.Bottom() + dy2
  {
  }

  const CARDS := 52

  const STRING_TO_RANK: map<char, int> := map['2' := 0, '3' := 1, '4' := 2, '5' := 3, '6' := 4, '7' := 5,
    '8' := 6, '9' := 7, 'T' := 8, 'J' := 9, 'Q' := 10, 'K' := 11, 'A' := 12]

  const RANK_TO_STRING: map<int, char> := map[0 := '2', 1 := '3', 2 := '4', 3 := '5', 4 := '6', 5 := '7',
    6 := '8', 7 := '9', 8 := 'T', 9 := 'J', 10 := 'Q', 11 := 'K', 12 := 'A']

  const STRING_TO_SUIT: map<char, int> := map['c' := 0, 'd' := 1, 'h' := 2, 's' := 3]

  const SUIT_TO_STRING: map<int, char> := map[0 := 'c', 1 := 'd', 2 := 'h', 3 := 's']

  /** Every rank's character reads back as that rank. */
  lemma RankReadsBack(r: int)
    requires 0 <= r < 13
    ensures r in RANK_TO_STRING && RANK_TO_STRING[r] in STRING_TO_RANK && STRING_TO_RANK[RANK_TO_STRING[r]] == r
  {
  }

  /** Every rank character names a rank that is written with that character. */
  lemma RankCharWritesBack(c: char)
    requires c in STRING_TO_RANK
    ensures STRING_TO_RANK[c] in RANK_TO_STRING && RANK_TO_STRING[STRING_TO_RANK[c]] == c
  {
    assert c in "23456789TJQKA";
  }

  /** The suit tables are each other's inverses. */
  lemma SuitTablesInverse(s: int, c: char)
    ensures 0 <= s < 4 ==>
      s in SUIT_TO_STRING && SUIT_TO_STRING[s] in STRING_TO_SUIT && STRING_TO_SUIT[SUIT_TO_STRING[s]] == s
    ensures c in STRING_TO_SUIT ==> STRING_TO_SUIT[c] in SUIT_TO_STRING && SUIT_TO_STRING[STRING_TO_SUIT[c]] == c
  {
  }

  /** A card of the client: rank << 2 | suit, or -1 for none. */
  datatype Card = Card(value: int) {
    /** value >> 2 as a Card.Rank, which raises ValueError outside the thirteen ranks. */
    function Rank(): (r: Result<int>)
      ensures r.Ok? <==> 0 <= value < CARDS
      ensures r.Ok? ==> 0 <= r.value < 13 && r.value * 4 <= value < r.value * 4 + 4
    {
      if 0 <= value / 4 < 13 then Ok(value / 4) else Err("ValueError")
    }

    /** value & 3, always one of the four suits. */
    function Suit(): (s: int)
      ensures 0 <= s < 4 && (value - s) % 4 == 0
    {
      value % 4
    }

    /** The rank character and suit character, or "?" for a value outside the deck. */
    function Repr(): (s: string)
      ensures !(0 <= value < CARDS) <==> s == "?"
      ensures 0 <= value < CARDS ==> |s| == 2
    {
      if value < 0 || value >= CARDS then "?"
      else [RANK_TO_STRING[value / 4], SUIT_TO_STRING[value % 4]]
    }
  }

  /**
   * Card(value, rank, suit, string): a string of two or more characters is parsed through the
   * tables (an unknown character raises KeyError); otherwise a rank and a suit give
   * rank << 2 | suit; otherwise the value is kept.
   */
  function NewCard(value: int, rank: Option<int>, suit: Option<int>, str: Option<string>): (c: Result<Card>)
    requires suit.Some? ==> 0 <= suit.value < 4
    ensures c.Err? <==> str.Some? && |str.value| >= 2 && (str.value[0] !in STRING_TO_RANK || str.value[1] !in STRING_TO_SUIT)
  {
    if str.Some? && |str.value| >= 2 then
      if str.value[0] !in STRING_TO_RANK || str.value[1] !in STRING_TO_SUIT then Err("KeyError")
      else Ok(Card(Cards.GetCard(STRING_TO_RANK[str.value[0]], STRING_TO_SUIT[str.value[1]])))
    else if rank.Some? && suit.Some? then Ok(Card(Cards.GetCard(rank.value, suit.value)))
    else Ok(Card(value))
  }

  /** A card built from a rank and a suit gives them back. */
  lemma RankSuitRoundTrip(rank: int, suit: int)
    requires 0 <= rank < 13 && 0 <= suit < 4
    ensures var c := NewCard(-1, Some(rank), Some(suit), None);
      c.Ok? && c.value.Rank() == Ok(rank) && c.value.Suit() == suit
  {
    var v := Cards.GetCard(rank, suit);
    assert v / 4 == rank && v % 4 == suit;
  }

  /** Every card of the deck survives repr and parsing. */
  lemma ReprRoundTrip(value: int)
    requires 0 <= value < CARDS
    ensures NewCard(-1, None, None, Some(Card(value).Repr())) == Ok(Card(value))
  {
    var r, u := value / 4, value % 4;
    RankReadsBack(r);
    SuitTablesInverse(u, ' ');
    var a, b := RANK_TO_STRING[r], SUIT_TO_STRING[u];
    assert Card(value).Repr() == [a, b];
    ParsesTwo(a, b);
    assert Cards.GetCard(r, u) == value;
  }

  lemma ParsesTwo(a: char, b: char)
    requires a in STRING_TO_RANK && b in STRING_TO_SUIT
    ensures NewCard(-1, None, None, Some([a, b])) == Ok(Card(Cards.GetCard(STRING_TO_RANK[a], STRING_TO_SUIT[b])))
  {
  }

  /** The client writes cards exactly as the engine's card library does. */
  lemma ReprMatchesEngine(value: int)
    ensures Card(value).Repr() == Cards.GetCardString(value)
  {
  }

  /** __eq__: never equal to None, otherwise equal exactly when the values are. */
  function CardEquals(a: Card, other: Option<Card>): (r: bool)
    ensures r <==> other.Some? && other.value.value == a.value
  {
    other.Some? && a.value == other.value.value
  }
}
