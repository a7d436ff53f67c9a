/**
 * The dealer-protocol client of the play tool (play main.cpp): it follows the betting string of
 * each MATCHSTATE message through the strategy's betting tree (read_state), reads the cards
 * (read_cards) and answers with a fold, a call or a raise to a chip total.
 *
 * The strategy's tree is not part of this model: main reaches it through a handful of
 * operations, gathered in TreeOps and passed as parameters.
 */
module PlayMain {
  import opened Wrappers
  import opened Arith
  import opened Cards
  import opened NlheStateBase

  const MAX_STACK := 500
  const BIG_BLIND := 20

  /** The operations main uses on the states of the strategy's tree. */
  datatype TreeOps<!S> = TreeOps(
    playerOf: S -> int,
    callChild: S -> Option<S>,
    raiseChild: (S, Factor) -> Option<S>,
    isTerminal: S -> bool,
    isRoot: S -> bool,
    lastAction: S -> int,
    actionChild: (S, int) -> Option<S>)

  /** Every state is to be played by player 0 or player 1. */
  ghost predicate TwoPlayers<S(!new)>(t: TreeOps<S>)
  {
    forall s :: t.playerOf(s) == 0 || t.playerOf(s) == 1
  }

  /** The pot fraction handed to raise(): a real number, or the infinity or NaN of a division by zero. */
  datatype Factor = Finite(value: real) | DivisionByZero

  function PotAt(pot: (int, int), p: int): int
  {
    if p == 0 then pot.0 else pot.1
  }

  function WithPotAt(pot: (int, int), p: int, v: int): (r: (int, int))
    ensures (p == 0 || p == 1) ==> PotAt(r, p) == v && PotAt(r, 1 - p) == PotAt(pot, 1 - p)
  {
    if p == 0 then (v, pot.1) else (pot.0, v)
  }

  predicate IsDigit(c: char)
  {
    '0' <= c <= '9'
  }

  predicate IsSpace(c: char)
  {
    c == ' ' || (9 <= c as int <= 13)
  }

  /** The longest prefix of s made of digits. */
  function DigitPrefix(s: string): (d: string)
    ensures |d| <= |s| && d == s[..|d|] && AllDigits(d)
    ensures |d| < |s| ==> !IsDigit(s[|d|])
  {
    if s != [] && IsDigit(s[0]) then [s[0]] + DigitPrefix(s[1..]) else []
  }

  /** std::atoi: leading white space (space, tab, new line, vertical tab, form feed, carriage return), an optional sign, then as many digits as follow. */
  function Atoi(s: string): int
  {
    if s != [] && IsSpace(s[0]) then Atoi(s[1..])
    else if s != [] && s[0] == '-' then -(DigitsValue(DigitPrefix(s[1..])) as int)
    else if s != [] && s[0] == '+' then DigitsValue(DigitPrefix(s[1..]))
    else DigitsValue(DigitPrefix(s))
  }

  /** The pot fraction of a raise to pPot chips over the opponent's oPot: the all-in total reads as factor 999. */
  function TranslateFactor(pPot: int, oPot: int): (f: Factor)
    ensures pPot == MAX_STACK ==> f == Finite(999.0)
    ensures pPot != MAX_STACK && oPot != 0 ==> f.Finite? && f.value * (2 * oPot) as real == (pPot - oPot) as real
  {
    if pPot == MAX_STACK then Finite(999.0)
    else if oPot == 0 then DivisionByZero
    else Finite((pPot - oPot) as real / (2 * oPot) as real)
  }

  /** What read_state updates: the current state (null after a fold), both pots and the resume index. */
  datatype Reading<S> = Reading(state: Option<S>, pot: (int, int), index: int)

  /**
   * One character of read_state, other than an 'f': a 'c' follows call() and matches the
   * opponent's pot; an 'r' follows raise() with the pot fraction of the chip total that follows
   * it and sets the mover's pot to that total; any other character (a digit of a total, the
   * round separator) is skipped.
   */
  function ReadStep<S>(t: TreeOps<S>, str: string, r: Reading<S>): (n: Reading<S>)
    requires 0 <= r.index < |str| && r.state.Some?
    ensures n.index == r.index + 1
  {
    StepOn(t, str[r.index], Atoi(str[r.index + 1..]), r)
  }

  /** The step on character c, total being what std::atoi reads after it. */
  function StepOn<S>(t: TreeOps<S>, c: char, total: int, r: Reading<S>): (n: Reading<S>)
    requires r.state.Some?
    ensures n.index == r.index + 1
  {
    var s := r.state.value;
    var player := t.playerOf(s);
    if c == 'c' then
      Reading(t.callChild(s), WithPotAt(r.pot, player, PotAt(r.pot, 1 - player)), r.index + 1)
    else if c == 'r' then
      Reading(t.raiseChild(s, TranslateFactor(total, PotAt(r.pot, 1 - player))), WithPotAt(r.pot, player, total), r.index + 1)
    else r.(index := r.index + 1)
  }

  /** read_state from r.index: it stops on a null state, and on an 'f' it nulls the state and stops without moving past it. */
  function ReadFrom<S>(t: TreeOps<S>, str: string, r: Reading<S>): (e: Reading<S>)
    requires r.index >= 0
    ensures e.index >= r.index
    decreases |str| - r.index
  {
    if r.index >= |str| || r.state.None? then r
    else if str[r.index] == 'f' then r.(state := None)
    else ReadFrom(t, str, ReadStep(t, str, r))
  }

  /**
   * read_state stops at the end of the string, on a null state, or on an 'f', whose position it
   * keeps.
   */
  lemma {:induction false} ReadStops<S>(t: TreeOps<S>, str: string, r: Reading<S>)
    requires r.index >= 0
    ensures var e := ReadFrom(t, str, r);
      (e.index >= |str| || e.state.None?)
      && (e.index < |str| && e.state.None? && r.state.Some? ==>
            str[e.index] == 'f' || (e.index > r.index && str[e.index - 1] in "cr"))
    decreases |str| - r.index
  {
    if r.index < |str| && r.state.Some? && str[r.index] != 'f' {
      ReadStops(t, str, ReadStep(t, str, r));
    }
  }

  /** A run of digits is its own digit prefix. */
  lemma {:induction false} DigitPrefixOfDigits(d: string)
    requires AllDigits(d)
    ensures DigitPrefix(d) == d
  {
    if d != [] {
      DigitPrefixOfDigits(d[1..]);
    }
  }

  /** Characters after a non-digit do not change the digit prefix. */
  lemma {:induction false} DigitPrefixExtend(a: string, b: string)
    requires b == [] || !IsDigit(b[0])
    ensures DigitPrefix(a + b) == DigitPrefix(a)
  {
    if a != [] {
      assert (a + b)[0] == a[0] && (a + b)[1..] == a[1..] + b;
      if IsDigit(a[0]) {
        DigitPrefixExtend(a[1..], b);
      }
    } else {
      assert a + b == b;
    }
  }

  /** A character that can neither continue nor start a number. */
  predicate EndsNumber(b: string)
  {
    b == [] || (!IsDigit(b[0]) && !IsSpace(b[0]) && b[0] != '-' && b[0] != '+')
  }

  /** std::atoi reads the same value however the string goes on after a character that ends the number. */
  lemma {:induction false} AtoiExtend(a: string, b: string)
    requires EndsNumber(b)
    ensures Atoi(a + b) == Atoi(a)
  {
    if a == [] {
      assert a + b == b;
      if b != [] {
        assert DigitPrefix(b) == [];
      }
    } else {
      assert (a + b)[0] == a[0] && (a + b)[1..] == a[1..] + b;
      if IsSpace(a[0]) {
        AtoiExtend(a[1..], b);
      } else if a[0] == '-' || a[0] == '+' {
        DigitPrefixExtend(a[1..], b);
      } else {
        DigitPrefixExtend(a, b);
      }
    }
  }

  /** std::atoi reads back the digits std::to_string writes, whatever non-digit follows them. */
  lemma AtoiNumber(n: nat, rest: string)
    requires rest == [] || !IsDigit(rest[0])
    ensures Atoi(NatToString(n) + rest) == n
  {
    var d := NatToString(n);
    assert (d + rest)[0] == d[0];
    DigitPrefixOfDigits(d);
    DigitPrefixExtend(d, rest);
    DigitsRoundTrip(n);
  }

  /** The characters that may follow a complete action in a betting string: another action, a round separator, or the end. */
  predicate Boundary(str: string, i: int)
  {
    0 <= i <= |str| && (i == |str| || str[i] in "fcr/")
  }

  /**
   * Each MATCHSTATE message extends the previous betting string; read_state resumes where the
   * previous message left it, and reaches the same reading as a read of the longer string from
   * the start, as long as the shorter string ends at an action boundary.
   */
  lemma {:induction false} ReadResumes<S>(t: TreeOps<S>, str1: string, str2: string, r: Reading<S>)
    requires str1 <= str2 && Boundary(str2, |str1|) && r.index >= 0
    ensures ReadFrom(t, str2, ReadFrom(t, str1, r)) == ReadFrom(t, str2, r)
    decreases |str1| - r.index
  {
    if r.index < |str1| && r.state.Some? && str1[r.index] != 'f' {
      ReadStepExtends(t, str1, str2, r);
      ReadResumes(t, str1, str2, ReadStep(t, str1, r));
    }
  }

  /** A step inside the shorter string is the same step in the longer one. */
  lemma ReadStepExtends<S>(t: TreeOps<S>, str1: string, str2: string, r: Reading<S>)
    requires str1 <= str2 && Boundary(str2, |str1|) && 0 <= r.index < |str1| && r.state.Some?
    ensures ReadStep(t, str1, r) == ReadStep(t, str2, r)
  {
    var tail := str2[|str1|..];
    assert str2[r.index + 1..] == str1[r.index + 1..] + tail;
    AtoiExtend(str1[r.index + 1..], tail);
    var total := Atoi(str1[r.index + 1..]);
    assert Atoi(str2[r.index + 1..]) == total;
    assert str1[r.index] == str2[r.index];
    assert ReadStep(t, str1, r) == StepOn(t, str1[r.index], total, r);
    assert ReadStep(t, str2, r) == StepOn(t, str1[r.index], total, r);
  }

  /** Skipping the digits of a raise total changes nothing but the position. */
  lemma {:induction false} SkipsDigits<S>(t: TreeOps<S>, str: string, r: Reading<S>)
    requires 0 <= r.index <= |str| && AllDigits(str[r.index..])
    ensures ReadFrom(t, str, r) == if r.state.None? then r else r.(index := |str|)
    decreases |str| - r.index
  {
    if r.index < |str| && r.state.Some? {
      assert str[r.index] == str[r.index..][0];
      assert str[r.index + 1..] == str[r.index..][1..];
      SkipsDigits(t, str, ReadStep(t, str, r));
    }
  }

  /**
   * The action main sends: RAISE_A from a terminal state (the tree has nothing to offer
   * there), and RAISE_A for any answer but a fold to an opponent's all-in.
   */
  function ReplyAction(terminal: bool, picked: int, lastAction: int): (a: int)
    ensures a == FOLD <==> !terminal && picked == FOLD
    ensures a != picked ==> a == RAISE_A
    ensures terminal || lastAction == RAISE_A ==> a == FOLD || a == RAISE_A
    ensures !terminal && lastAction != RAISE_A ==> a == picked
  {
    var action := if terminal then RAISE_A else picked;
    if action != FOLD && lastAction == RAISE_A then RAISE_A else action
  }

  /** The opponent's pot plus the action's pot fraction of twice that pot, dropped to an integer as int() does. */
  function Candidate(action: int, oPot: int): (c: int)
    requires IsRaise(action) && action != RAISE_A
    ensures oPot >= 0 ==> c >= oPot
  {
    var f := RaiseFactor(action).value;
    var x := oPot as real + f * (2 * oPot) as real;
    assert oPot >= 0 ==> f * (2 * oPot) as real >= 0.0;
    Trunc(x)
  }

  /** The smallest raise total: two big blinds at the root, one big blind elsewhere. */
  function LeastRaise(isRoot: bool): int
  {
    if isRoot then 2 * BIG_BLIND else BIG_BLIND
  }

  /**
   * The chip total of a raise: the whole stack for RAISE_A; otherwise the candidate total,
   * raised to the least raise and to at least a re-raise of the last raise, then capped at the
   * stack.
   */
  function RaiseValue(action: int, oPot: int, pPot: int, isRoot: bool): (v: int)
    requires IsRaise(action)
    ensures v <= MAX_STACK && v >= BIG_BLIND
    ensures action == RAISE_A ==> v == MAX_STACK
    ensures action != RAISE_A ==>
      (v == MAX_STACK || (v >= Candidate(action, oPot) && v >= LeastRaise(isRoot) && v >= 2 * oPot - pPot))
      && (v == MAX_STACK || v == Candidate(action, oPot) || v == LeastRaise(isRoot) || v == 2 * oPot - pPot)
    ensures action != RAISE_A && v == MAX_STACK ==>
      Candidate(action, oPot) >= MAX_STACK || LeastRaise(isRoot) >= MAX_STACK || 2 * oPot - pPot >= MAX_STACK
  {
    if action == RAISE_A then MAX_STACK
    else MinInt(MaxInt(MaxInt(Candidate(action, oPot), LeastRaise(isRoot)), 2 * oPot - pPot), MAX_STACK)
  }

  /**
   * A raise to a total that the pot fraction f reaches exactly reads back, through the
   * translation read_state applies to the opponent's raises, as the same pot fraction.
   */
  lemma TranslateInverts(v: int, oPot: int, f: real)
    requires oPot > 0 && v != MAX_STACK && v as real == oPot as real + f * (2 * oPot) as real
    ensures TranslateFactor(v, oPot) == Finite(f)
  {
    var k := (2 * oPot) as real;
    var g := TranslateFactor(v, oPot).value;
    assert g * k == f * k;
  }

  /** Our reply as the dealer expects it: "f", "c", or "r" followed by the chip total. */
  function ActionString(action: int, val: nat): (s: string)
    ensures s != [] && s[0] == (if action == FOLD then 'f' else if action == CALL then 'c' else 'r')
    ensures action == FOLD || action == CALL <==> |s| == 1
    ensures s[1..] == if action == FOLD || action == CALL then "" else NatToString(val)
  {
    if action == FOLD then "f"
    else if action == CALL then "c"
    else "r" + NatToString(val)
  }

  /** The pots after our reply: a call matches the opponent, a raise puts in the total sent. */
  function ReplyPot(pot: (int, int), myPos: int, action: int, val: int): (r: (int, int))
    requires myPos == 0 || myPos == 1
    ensures PotAt(r, 1 - myPos) == PotAt(pot, 1 - myPos)
  {
    if action == FOLD then pot
    else if action == CALL then WithPotAt(pot, myPos, PotAt(pot, 1 - myPos))
    else WithPotAt(pot, myPos, val)
  }

  /** What main answers from state s with the given pots, the strategy having picked an action. */
  datatype Answer = Answer(action: int, text: string, pot: (int, int))

  function AnswerFor<S>(t: TreeOps<S>, s: S, pot: (int, int), myPos: int, picked: int): (a: Answer)
    requires (myPos == 0 || myPos == 1) && IsAction(picked)
    ensures IsAction(a.action) && a.action == ReplyAction(t.isTerminal(s), picked, t.lastAction(s))
  {
    var action := ReplyAction(t.isTerminal(s), picked, t.lastAction(s));
    var val := if IsRaise(action) then RaiseValue(action, PotAt(pot, 1 - myPos), PotAt(pot, myPos), t.isRoot(s)) else 0;
    Answer(action, ActionString(action, val), ReplyPot(pot, myPos, action, val))
  }

  /**
   * Our own reply, once the dealer echoes it in the next betting string, reads back through
   * read_state to the pots main recorded when it answered; read_state does not, though, move
   * the state along our action, since main has already done so and skips those characters.
   */
  lemma ReplyReadsBack<S>(t: TreeOps<S>, prefix: string, s: S, pot: (int, int), myPos: int, picked: int)
    requires (myPos == 0 || myPos == 1) && IsAction(picked) && t.playerOf(s) == myPos
    ensures var a := AnswerFor(t, s, pot, myPos, picked);
      var e := ReadFrom(t, prefix + a.text, Reading(Some(s), pot, |prefix|));
      e.pot == a.pot && (a.action == FOLD <==> e.state.None? && e.index == |prefix|)
  {
    var a := AnswerFor(t, s, pot, myPos, picked);
    if IsRaise(a.action) {
      var val := RaiseValue(a.action, PotAt(pot, 1 - myPos), PotAt(pot, myPos), t.isRoot(s));
      RaiseReadsBack(t, prefix, s, pot, myPos, val);
    } else {
      var str := prefix + a.text;
      assert str[|prefix|] == a.text[0];
    }
  }

  /** A raise to val, echoed back, sets the raiser's pot to val. */
  lemma RaiseReadsBack<S>(t: TreeOps<S>, prefix: string, s: S, pot: (int, int), myPos: int, val: nat)
    requires (myPos == 0 || myPos == 1) && t.playerOf(s) == myPos
    ensures ReadFrom(t, prefix + ("r" + NatToString(val)), Reading(Some(s), pot, |prefix|)).pot == WithPotAt(pot, myPos, val)
  {
    var str := prefix + ("r" + NatToString(val));
    var r := Reading(Some(s), pot, |prefix|);
    assert str[|prefix|] == 'r';
    assert str[|prefix| + 1..] == NatToString(val);
    AtoiNumber(val, []);
    assert NatToString(val) + [] == NatToString(val);
    SkipsDigits(t, str, ReadStep(t, str, r));
  }


  /** The character at i; the string's terminating NUL, and anything past it, reads as '\0'. */
  function CharAt(str: string, i: int): char
  {
    if 0 <= i < |str| then str[i] else '\0'
  }

  /** string_to_card on the two characters from i. */
  function CardAt(str: string, i: int): (c: int)
    ensures c == -1 || 0 <= c < CARDS
  {
    StringToCard([CharAt(str, i), CharAt(str, i + 1)])
  }

  /** The position after an optional separator at i. */
  function Skip(str: string, i: int, sep: char): (j: int)
    ensures j == i || (j == i + 1 && CharAt(str, i) == sep)
  {
    if CharAt(str, i) == sep then i + 1 else i
  }

  /** The cards read_cards fills in: our two hole cards, the opponent's two, and the five board cards. */
  datatype Hand = Hand(hole: seq<int>, oHole: seq<int>, board: seq<int>)

  predicate WellSized(h: Hand)
  {
    |h.hole| == 2 && |h.oHole| == 2 && |h.board| == 5
  }

  /** A position in the cards field and what has been read so far. */
  datatype Cursor = Cursor(at: int, hand: Hand)

  /** The hole cards: an optional '|', ours, an optional '|', the opponent's when shown, then an optional '/'. */
  function ReadHoles(str: string, h: Hand): (c: Cursor)
    requires WellSized(h)
    ensures WellSized(c.hand) && c.hand.board == h.board && c.at >= 4
  {
    var i0 := Skip(str, 0, '|');
    var hole := [CardAt(str, i0), CardAt(str, i0 + 2)];
    var i1 := Skip(str, i0 + 4, '|');
    var shown := CharAt(str, i1) != '/' && i1 + 4 <= |str|;
    var oHole := if shown then [CardAt(str, i1), CardAt(str, i1 + 2)] else h.oHole;
    Cursor(Skip(str, if shown then i1 + 4 else i1, '/'), Hand(hole, oHole, h.board))
  }

  /** The flop, when six characters remain, then an optional '/'. */
  function ReadFlop(str: string, c: Cursor): (d: Cursor)
    requires WellSized(c.hand)
    ensures WellSized(d.hand) && d.hand.hole == c.hand.hole && d.hand.oHole == c.hand.oHole && d.at >= c.at
  {
    var i := c.at;
    var flop := i + 6 <= |str|;
    var board := if flop then [CardAt(str, i), CardAt(str, i + 2), CardAt(str, i + 4)] + c.hand.board[3..] else c.hand.board;
    Cursor(Skip(str, if flop then i + 6 else i, '/'), c.hand.(board := board))
  }

  /** One board card at board[k], when two characters remain, then an optional '/'. */
  function ReadStreet(str: string, c: Cursor, k: int): (d: Cursor)
    requires WellSized(c.hand) && 0 <= k < 5
    ensures WellSized(d.hand) && d.hand.hole == c.hand.hole && d.hand.oHole == c.hand.oHole && d.at >= c.at
  {
    var i := c.at;
    var dealt := i + 2 <= |str|;
    var board := if dealt then c.hand.board[k := CardAt(str, i)] else c.hand.board;
    Cursor(Skip(str, if dealt then i + 2 else i, '/'), c.hand.(board := board))
  }

  /**
   * read_cards over the cards field of a MATCHSTATE message: the hole cards, then the flop, the
   * turn and the river, each read only when enough characters remain; what is not read keeps
   * its value.
   */
  function ParseCards(str: string, h: Hand): (r: Hand)
    requires WellSized(h)
    ensures WellSized(r)
  {
    ReadStreet(str, ReadStreet(str, ReadFlop(str, ReadHoles(str, h)), 3), 4).hand
  }

  /** read_cards: fills the three arrays from the cards field with a moving cursor. */
  method ReadCards(str: string, hole: array<int>, oHole: array<int>, board: array<int>)
    requires hole.Length == 2 && oHole.Length == 2 && board.Length == 5 && hole != oHole
    modifies hole, oHole, board
    ensures Hand(hole[..], oHole[..], board[..]) == ParseCards(str, Hand(old(hole[..]), old(oHole[..]), old(board[..])))
  {
    var i := ReadHoleCards(str, hole, oHole, board[..]);
    i := ReadFlopCards(str, i, board, hole[..], oHole[..]);
    i := ReadStreetCard(str, i, board, 3, hole[..], oHole[..]);
    i := ReadStreetCard(str, i, board, 4, hole[..], oHole[..]);
  }

  method ReadHoleCards(str: string, hole: array<int>, oHole: array<int>, ghost board: seq<int>) returns (i: int)
    requires hole.Length == 2 && oHole.Length == 2 && hole != oHole && |board| == 5
    modifies hole, oHole
    ensures Cursor(i, Hand(hole[..], oHole[..], board)) == ReadHoles(str, Hand(old(hole[..]), old(oHole[..]), board))
  {
    var len := |str|;
    i := SkipSeparator(str, 0, '|');
    ReadPair(str, i, hole);
    i := SkipSeparator(str, i + 4, '|');
    if CharAt(str, i) != '/' && i + 4 <= len {
      ReadPair(str, i, oHole);
      i := i + 4;
    }
    i := SkipSeparator(str, i, '/');
  }

  /** Steps over the separator at i, if there is one there. */
  method SkipSeparator(str: string, i: int, sep: char) returns (j: int)
    ensures j == Skip(str, i, sep)
  {
    j := i;
    if CharAt(str, j) == sep {
      j := j + 1;
    }
  }

  /** Two cards read from i and i + 2 into a two-card array. */
  method ReadPair(str: string, i: int, cards: array<int>)
    requires cards.Length == 2
    modifies cards
    ensures cards[..] == [CardAt(str, i), CardAt(str, i + 2)]
  {
    cards[0] := CardAt(str, i);
    cards[1] := CardAt(str, i + 2);
  }

  method ReadFlopCards(str: string, i0: int, board: array<int>, ghost hole: seq<int>, ghost oHole: seq<int>) returns (i: int)
    requires board.Length == 5 && |hole| == 2 && |oHole| == 2
    modifies board
    ensures Cursor(i, Hand(hole, oHole, board[..])) == ReadFlop(str, Cursor(i0, Hand(hole, oHole, old(board[..]))))
  {
    i := i0;
    if i + 6 <= |str| {
      board[0] := CardAt(str, i);
      board[1] := CardAt(str, i + 2);
      board[2] := CardAt(str, i + 4);
      i := i + 6;
    }
    i := SkipSeparator(str, i, '/');
  }

  method ReadStreetCard(str: string, i0: int, board: array<int>, k: int, ghost hole: seq<int>, ghost oHole: seq<int>) returns (i: int)
    requires board.Length == 5 && 0 <= k < 5 && |hole| == 2 && |oHole| == 2
    modifies board
    ensures Cursor(i, Hand(hole, oHole, board[..])) == ReadStreet(str, Cursor(i0, Hand(hole, oHole, old(board[..]))), k)
  {
    i := i0;
    if i + 2 <= |str| {
      board[k] := CardAt(str, i);
      i := i + 2;
    }
    i := SkipSeparator(str, i, '/');
  }

  /** Two cards as the dealer writes them, or nothing. */
  function PairField(cards: seq<int>): (s: string)
    requires |cards| == 0 || (|cards| == 2 && AllCards(cards))
    ensures |s| == 2 * |cards|
  {
    if cards == [] then "" else GetCardString(cards[0]) + GetCardString(cards[1])
  }

  /** The board part of the cards field: "/flop", then "/turn", then "/river", as far as dealt. */
  function BoardField(board: seq<int>): (s: string)
    requires |board| in {0, 3, 4, 5} && AllCards(board)
    ensures |s| == if board == [] then 0 else 2 * |board| + |board| - 2
  {
    if board == [] then ""
    else
      var flop := "/" + GetCardString(board[0]) + GetCardString(board[1]) + GetCardString(board[2]);
      var turn := if |board| >= 4 then "/" + GetCardString(board[3]) else "";
      var river := if |board| >= 5 then "/" + GetCardString(board[4]) else "";
      flop + turn + river
  }

  /** The hole-card part of the cards field: the seats' cards either side of '|'. */
  function HoleField(seat: int, hole: seq<int>, oHole: seq<int>): (s: string)
    requires |hole| == 2 && AllCards(hole) && (|oHole| == 0 || (|oHole| == 2 && AllCards(oHole)))
    ensures |s| == 5 + 2 * |oHole|
  {
    if seat == 0 then PairField(hole) + "|" + PairField(oHole) else PairField(oHole) + "|" + PairField(hole)
  }

  /** The cards field the dealer sends to the player in the given seat. */
  function CardsField(seat: int, hole: seq<int>, oHole: seq<int>, board: seq<int>): string
    requires |hole| == 2 && AllCards(hole) && (|oHole| == 0 || (|oHole| == 2 && AllCards(oHole)))
    requires |board| in {0, 3, 4, 5} && AllCards(board)
  {
    HoleField(seat, hole, oHole) + BoardField(board)
  }

  predicate AllCards(cards: seq<int>)
  {
    forall k :: 0 <= k < |cards| ==> 0 <= cards[k] < CARDS
  }

  const NO_CARDS := Hand([-1, -1], [-1, -1], [-1, -1, -1, -1, -1])

  /** The name of card c is written at position i of str. */
  predicate WrittenAt(str: string, i: int, c: int)
  {
    0 <= i && i + 2 <= |str| && 0 <= c < CARDS
    && str[i] == GetCardString(c)[0] && str[i + 1] == GetCardString(c)[1]
  }

  /** A card written at i is read back there, and its name starts with neither separator. */
  lemma CardReadsBack(str: string, i: int, c: int)
    requires WrittenAt(str, i, c)
    ensures CardAt(str, i) == c && CharAt(str, i) != '|' && CharAt(str, i) != '/'
  {
    assert [CharAt(str, i), CharAt(str, i + 1)] == GetCardString(c);
    CardStringRoundTrip(c);
  }

  /** The field ends at i or goes on with a '/'. */
  predicate SlashOrEnd(str: string, i: int)
  {
    i == |str| || (0 <= i < |str| && str[i] == '/')
  }

  /** The hole cards read back from the hole-card part at the start of the field. */
  lemma HolesRead(str: string, seat: int, hole: seq<int>, oHole: seq<int>, h: Hand)
    requires |hole| == 2 && (|oHole| == 0 || |oHole| == 2) && WellSized(h)
    requires seat == 0 ==>
      WrittenAt(str, 0, hole[0]) && WrittenAt(str, 2, hole[1]) && CharAt(str, 4) == '|'
      && (oHole != [] ==> WrittenAt(str, 5, oHole[0]) && WrittenAt(str, 7, oHole[1]))
    requires seat != 0 ==>
      oHole == [] && CharAt(str, 0) == '|' && WrittenAt(str, 1, hole[0]) && WrittenAt(str, 3, hole[1])
    requires SlashOrEnd(str, 5 + 2 * |oHole|)
    ensures var c := ReadHoles(str, h);
      c.hand == Hand(hole, if oHole == [] then h.oHole else oHole, h.board)
      && c.at == if 5 + 2 * |oHole| == |str| then |str| else 6 + 2 * |oHole|
  {
    if seat == 0 {
      CardReadsBack(str, 0, hole[0]);
      CardReadsBack(str, 2, hole[1]);
      if oHole != [] {
        CardReadsBack(str, 5, oHole[0]);
        CardReadsBack(str, 7, oHole[1]);
      }
    } else {
      CardReadsBack(str, 1, hole[0]);
      CardReadsBack(str, 3, hole[1]);
    }
  }

  /** A flop written at the cursor reads back. */
  lemma FlopRead(str: string, i: int, flop: seq<int>, h: Hand)
    requires |flop| == 3 && WellSized(h)
    requires WrittenAt(str, i, flop[0]) && WrittenAt(str, i + 2, flop[1]) && WrittenAt(str, i + 4, flop[2])
    requires SlashOrEnd(str, i + 6)
    ensures ReadFlop(str, Cursor(i, h)) == Cursor(if i + 6 == |str| then i + 6 else i + 7, h.(board := flop + h.board[3..]))
  {
    CardReadsBack(str, i, flop[0]);
    CardReadsBack(str, i + 2, flop[1]);
    CardReadsBack(str, i + 4, flop[2]);
    assert [CardAt(str, i), CardAt(str, i + 2), CardAt(str, i + 4)] == flop;
  }

  /** A turn or river card written at the cursor reads back into board[k]. */
  lemma StreetRead(str: string, i: int, card: int, h: Hand, k: int)
    requires WrittenAt(str, i, card) && SlashOrEnd(str, i + 2) && WellSized(h) && 0 <= k < 5
    ensures ReadStreet(str, Cursor(i, h), k) == Cursor(if i + 2 == |str| then i + 2 else i + 3, h.(board := h.board[k := card]))
  {
    CardReadsBack(str, i, card);
  }

  /** At the end of the field nothing more is read. */
  lemma NothingLeft(str: string, h: Hand)
    requires WellSized(h)
    ensures ReadFlop(str, Cursor(|str|, h)) == Cursor(|str|, h)
    ensures forall k :: 0 <= k < 5 ==> ReadStreet(str, Cursor(|str|, h), k) == Cursor(|str|, h)
  {
  }

  /** Where each card of the field is written. */
  lemma FieldLayout(seat: int, hole: seq<int>, oHole: seq<int>, board: seq<int>)
    requires seat == 0 || (seat == 1 && oHole == [])
    requires |hole| == 2 && AllCards(hole) && (|oHole| == 0 || (|oHole| == 2 && AllCards(oHole)))
    requires |board| in {0, 3, 4, 5} && AllCards(board)
    ensures var str := CardsField(seat, hole, oHole, board);
      var n := 5 + 2 * |oHole|;
      (seat == 0 ==>
        WrittenAt(str, 0, hole[0]) && WrittenAt(str, 2, hole[1]) && CharAt(str, 4) == '|'
        && (oHole != [] ==> WrittenAt(str, 5, oHole[0]) && WrittenAt(str, 7, oHole[1])))
      && (seat != 0 ==> CharAt(str, 0) == '|' && WrittenAt(str, 1, hole[0]) && WrittenAt(str, 3, hole[1]))
      && SlashOrEnd(str, n)
      && (|board| >= 3 ==>
        WrittenAt(str, n + 1, board[0]) && WrittenAt(str, n + 3, board[1])
        && WrittenAt(str, n + 5, board[2]) && SlashOrEnd(str, n + 7))
      && (|board| >= 4 ==> WrittenAt(str, n + 8, board[3]) && SlashOrEnd(str, n + 10))
      && (|board| >= 5 ==> WrittenAt(str, n + 11, board[4]) && n + 13 == |str|)
      && (|board| == 3 ==> n + 7 == |str|)
      && (|board| == 4 ==> n + 10 == |str|)
  {
  }

  /** The board part, from the cursor the hole cards leave, reads back into the unset board. */
  lemma BoardRead(str: string, n: int, board: seq<int>, c0: Cursor)
    requires WellSized(c0.hand) && c0.hand.board == NO_CARDS.board && |board| in {0, 3, 4, 5} && AllCards(board)
    requires SlashOrEnd(str, n) && c0.at == (if n == |str| then n else n + 1)
    requires |board| == 0 ==> n == |str|
    requires |board| >= 3 ==>
      WrittenAt(str, n + 1, board[0]) && WrittenAt(str, n + 3, board[1])
      && WrittenAt(str, n + 5, board[2]) && SlashOrEnd(str, n + 7)
    requires |board| >= 4 ==> WrittenAt(str, n + 8, board[3]) && SlashOrEnd(str, n + 10)
    requires |board| >= 5 ==> WrittenAt(str, n + 11, board[4]) && n + 13 == |str|
    requires |board| == 3 ==> n + 7 == |str|
    requires |board| == 4 ==> n + 10 == |str|
    ensures ReadStreet(str, ReadStreet(str, ReadFlop(str, c0), 3), 4).hand
      == c0.hand.(board := board + NO_CARDS.board[|board|..])
  {
    var hand := c0.hand;
    if |board| == 0 {
      NothingLeft(str, hand);
      assert board + NO_CARDS.board[|board|..] == NO_CARDS.board;
    } else {
      FlopRead(str, n + 1, board[..3], hand);
      var c1 := ReadFlop(str, c0);
      var b3 := board[..3] + [-1, -1];
      assert c1.hand == hand.(board := b3);
      if |board| == 3 {
        NothingLeft(str, c1.hand);
        assert board + NO_CARDS.board[|board|..] == b3;
      } else {
        StreetRead(str, n + 8, board[3], c1.hand, 3);
        var c2 := ReadStreet(str, c1, 3);
        var b4 := b3[3 := board[3]];
        assert c2.hand == hand.(board := b4);
        if |board| == 4 {
          NothingLeft(str, c2.hand);
          assert board + NO_CARDS.board[|board|..] == b4;
        } else {
          StreetRead(str, n + 11, board[4], c2.hand, 4);
          assert board + NO_CARDS.board[|board|..] == b4[4 := board[4]];
        }
      }
    }
  }

  /**
   * read_cards reads back the cards field the dealer writes at any street, to seat 0 always and
   * to seat 1 while the opponent's cards are hidden: our hole cards, the opponent's when shown,
   * and the board so far; the board cards not dealt yet, and the opponent's cards when hidden,
   * stay -1. Seat 1 at the showdown is SeatOneShowdownSwapped.
   */
  lemma CardsRoundTrip(seat: int, hole: seq<int>, oHole: seq<int>, board: seq<int>)
    requires seat == 0 || (seat == 1 && oHole == [])
    requires |hole| == 2 && AllCards(hole) && (|oHole| == 0 || (|oHole| == 2 && AllCards(oHole)))
    requires |board| in {0, 3, 4, 5} && AllCards(board)
    ensures ParseCards(CardsField(seat, hole, oHole, board), NO_CARDS)
      == Hand(hole, if oHole == [] then [-1, -1] else oHole, board + NO_CARDS.board[|board|..])
  {
    var str := CardsField(seat, hole, oHole, board);
    var n := 5 + 2 * |oHole|;
    FieldLayout(seat, hole, oHole, board);
    HolesRead(str, seat, hole, oHole, NO_CARDS);
    var c0 := ReadHoles(str, NO_CARDS);
    assert c0.hand == Hand(hole, if oHole == [] then [-1, -1] else oHole, NO_CARDS.board);
    BoardRead(str, n, board, c0);
  }

  /**
   * At the showdown the dealer writes the hole cards of seat 0 first for both players, and
   * read_cards takes the first pair as our own: the player in seat 1 reads the two pairs swapped.
   */
  lemma SeatOneShowdownSwapped(hole: seq<int>, oHole: seq<int>, board: seq<int>)
    requires |hole| == 2 && AllCards(hole) && |oHole| == 2 && AllCards(oHole)
    requires |board| in {0, 3, 4, 5} && AllCards(board)
    ensures ParseCards(CardsField(1, hole, oHole, board), NO_CARDS)
      == Hand(oHole, hole, board + NO_CARDS.board[|board|..])
  {
    assert CardsField(1, hole, oHole, board) == CardsField(0, oHole, hole, board);
    CardsRoundTrip(0, oHole, hole, board);
  }

  /** Where read_state starts after a change of position: the root, the blinds posted, the first character. */
  function Restart<S>(root: S): (r: Reading<S>)
    ensures r.index == 0 && r.state == Some(root)
  {
    Reading(Some(root), (BIG_BLIND / 2, BIG_BLIND), 0)
  }

  /**
   * The match state main keeps between messages: the state reached in the strategy's tree (none
   * after a fold), the chips each seat has put in, where the next read of the betting string
   * resumes, and our position.
   */
  class MatchState<S(!new)> {
    var state: Option<S>
    const pot: array<int>
    var index: int
    var pos: int

    ghost predicate Valid()
      reads this
    {
      pot.Length == 2 && index >= 0
    }

    ghost function Snapshot(): Reading<S>
      reads this, pot
      requires Valid()
    {
      Reading(state, (pot[0], pot[1]), index)
    }

    /** Only the position is set before the first message, to one no message carries. */
    constructor ()
      ensures Valid() && pos == -1 && state.None? && fresh(pot)
    {
      state := None;
      pot := new int[2](_ => 0);
      index := 0;
      pos := -1;
    }

    /** read_state: follows the betting string from the resume index. */
    method ReadState(t: TreeOps<S>, str: string)
      requires Valid() && TwoPlayers(t)
      modifies this, pot
      ensures Valid() && pos == old(pos)
      ensures Snapshot() == ReadFrom(t, str, old(Snapshot()))
    {
      ghost var goal := ReadFrom(t, str, Snapshot());
      while index < |str|
        invariant Valid() && pos == old(pos)
        invariant ReadFrom(t, str, Snapshot()) == goal
        decreases |str| - index
      {
        if state.None? {
          break;
        }
        ghost var before := Snapshot();
        var s := state.value;
        var player := t.playerOf(s);
        if str[index] == 'f' {
          state := None;
          break;
        } else if str[index] == 'c' {
          state := t.callChild(s);
          pot[player] := pot[1 - player];
        } else if str[index] == 'r' {
          var pPot := Atoi(str[index + 1..]);
          var factor := TranslateFactor(pPot, pot[1 - player]);
          state := t.raiseChild(s, factor);
          pot[player] := pPot;
        }
        index := index + 1;
        assert Snapshot() == ReadStep(t, str, before);
      }
    }

    /** A message for a new position starts a new hand: back to the root with the blinds posted. */
    method Reset(root: S, myPos: int)
      requires Valid()
      modifies this, pot
      ensures Valid() && pos == myPos
      ensures Snapshot() == if old(pos) != myPos then Restart(root) else old(Snapshot())
    {
      if myPos != pos {
        state := Some(root);
        pot[0] := BIG_BLIND / 2;
        pot[1] := BIG_BLIND;
        index := 0;
        pos := myPos;
      }
    }

    /**
     * Our reply from the current state: the action and its text as AnswerFor gives them, the pots
     * it leaves, the state moved along the action, and the resume index moved past the text.
     */
    method Reply(t: TreeOps<S>, myPos: int, picked: int) returns (text: string)
      requires Valid() && state.Some? && (myPos == 0 || myPos == 1) && IsAction(picked)
      modifies this, pot
      ensures Valid() && pos == old(pos)
      ensures var a := AnswerFor(t, old(state).value, old(Snapshot()).pot, myPos, picked);
        text == a.text && Snapshot() == Reading(t.actionChild(old(state).value, a.action), a.pot, old(index) + |a.text|)
    {
      var s := state.value;
      var action := ReplyAction(t.isTerminal(s), picked, t.lastAction(s));
      if action == FOLD {
        text := "f";
      } else if action == CALL {
        text := "c";
        pot[myPos] := pot[1 - myPos];
      } else {
        var val := RaiseValue(action, pot[1 - myPos], pot[myPos], t.isRoot(s));
        pot[myPos] := val;
        text := "r" + NatToString(val);
      }
      state := t.actionChild(s, action);
      index := index + |text|;
    }

    /**
     * Once the state reached is ours to play: read the cards, and unless the opponent's cards
     * are shown, answer with the strategy's pick; the reply is the message followed by ':' and
     * our action.
     */
    method Answer(t: TreeOps<S>, choose: (S, seq<int>, seq<int>) -> int, myPos: int,
                  line: string, cards: string) returns (reply: Option<string>)
      requires Valid() && state.Some? && (myPos == 0 || myPos == 1)
      requires forall s, hole, board :: IsAction(choose(s, hole, board))
      modifies this, pot
      ensures Valid() && pos == old(pos)
      ensures var e := old(Snapshot());
        var hand := ParseCards(cards, NO_CARDS);
        (reply.Some? <==> hand.oHole[0] == -1)
        && (reply.None? ==> Snapshot() == e)
        && (reply.Some? ==>
          var a := AnswerFor(t, e.state.value, e.pot, myPos, choose(e.state.value, hand.hole, hand.board));
          reply.value == line + ":" + a.text
          && Snapshot() == Reading(t.actionChild(e.state.value, a.action), a.pot, e.index + |a.text|))
    {
      var hole := new int[2](_ => -1);
      var oHole := new int[2](_ => -1);
      var board := new int[5](_ => -1);
      assert Hand(hole[..], oHole[..], board[..]) == NO_CARDS;
      ReadCards(cards, hole, oHole, board);
      if oHole[0] != -1 {
        return None;
      }
      var picked := choose(state.value, hole[..], board[..]);
      var text := Reply(t, myPos, picked);
      reply := Some(line + ":" + text);
    }

    /**
     * One MATCHSTATE message, already split into our seat, the betting string and the cards
     * field: reset on a new position, read the betting, and answer when the state reached is ours
     * to play. choose stands for the strategy's pick from the state and the cards.
     */
    method Respond(t: TreeOps<S>, choose: (S, seq<int>, seq<int>) -> int, root: S,
                   line: string, position: int, betting: string, cards: string) returns (reply: Option<string>)
      requires Valid() && TwoPlayers(t)
      requires forall s, hole, board :: IsAction(choose(s, hole, board))
      modifies this, pot
      ensures Valid() && pos == 1 - position
      ensures var myPos := 1 - position;
        var e := ReadFrom(t, betting, if old(pos) != myPos then Restart(root) else old(Snapshot()));
        var hand := ParseCards(cards, NO_CARDS);
        (reply.Some? <==> e.state.Some? && t.playerOf(e.state.value) == myPos && hand.oHole[0] == -1)
        && (reply.None? ==> Snapshot() == e)
        && (reply.Some? ==>
          var a := AnswerFor(t, e.state.value, e.pot, myPos, choose(e.state.value, hand.hole, hand.board));
          reply.value == line + ":" + a.text
          && Snapshot() == Reading(t.actionChild(e.state.value, a.action), a.pot, e.index + |a.text|))
    {
      var myPos := 1 - position;
      Reset(root, myPos);
      ReadState(t, betting);
      if state.None? || t.playerOf(state.value) != myPos {
        return None;
      }
      reply := Answer(t, choose, myPos, line, cards);
    }
  }
}
