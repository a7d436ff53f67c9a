/**
 * The shared no-limit hold'em definitions of nlhe_state_base.cpp: the eleven actions and their
 * bits in an action mask, the pot fraction each raise stands for, the pot a raise leads to, the
 * translation of an observed bet into one of the tree's raises, the game configuration strings
 * and the printed form of a state.
 *
 * Action masks are modelled as the sets of actions whose bits are set; ActionMask shows that each
 * action has a bit of its own, so the two views agree.
 */
module NlheStateBase {
  import opened Wrappers
  import opened Arith

  const INVALID_ACTION := -1
  const FOLD := 0
  const CALL := 1
  const RAISE_O := 2
  const RAISE_H := 3
  const RAISE_Q := 4
  const RAISE_P := 5
  const RAISE_W := 6
  const RAISE_D := 7
  const RAISE_V := 8
  const RAISE_T := 9
  const RAISE_A := 10
  const MAX_ACTIONS := 11

  const F_MASK := 0x001
  const C_MASK := 0x002
  const O_MASK := 0x004
  const H_MASK := 0x008
  const Q_MASK := 0x010
  const P_MASK := 0x020
  const W_MASK := 0x040
  const D_MASK := 0x080
  const V_MASK := 0x100
  const T_MASK := 0x200
  const A_MASK := 0x400

  /** The pot fraction that stands for an all-in bet. */
  const ALLIN_BET_SIZE := 999

  predicate IsAction(action: int)
  {
    FOLD <= action <= RAISE_A
  }

  predicate IsRaise(action: int)
  {
    RAISE_O <= action <= RAISE_A
  }

  function Pow2(n: nat): (p: nat)
    ensures p >= 1
  {
    if n == 0 then 1 else 2 * Pow2(n - 1)
  }

  lemma {:induction false} Pow2Increasing(m: nat, n: nat)
    requires m < n
    ensures Pow2(m) < Pow2(n)
    decreases n
  {
    if m < n - 1 {
      Pow2Increasing(m, n - 1);
    }
  }

  /** get_action_mask: the bit of an action; anything but the eleven actions is an error. */
  function ActionMask(action: int): (r: Result<int>)
    ensures r.Ok? <==> IsAction(action)
    ensures r.Ok? ==> r.value == Pow2(action)
  {
    if action == FOLD then Ok(F_MASK)
    else if action == CALL then Ok(C_MASK)
    else if action == RAISE_O then Ok(O_MASK)
    else if action == RAISE_H then Ok(H_MASK)
    else if action == RAISE_Q then Ok(Q_MASK)
    else if action == RAISE_P then Ok(P_MASK)
    else if action == RAISE_W then Ok(W_MASK)
    else if action == RAISE_D then Ok(D_MASK)
    else if action == RAISE_V then Ok(V_MASK)
    else if action == RAISE_T then Ok(T_MASK)
    else if action == RAISE_A then Ok(A_MASK)
    else Err("unknown action mask")
  }

  /** No two actions share a bit. */
  lemma ActionMasksDistinct(a: int, b: int)
    requires IsAction(a) && IsAction(b) && a != b
    ensures ActionMask(a).value != ActionMask(b).value
  {
    if a < b {
      Pow2Increasing(a, b);
    } else {
      Pow2Increasing(b, a);
    }
  }

  /** get_raise_factor: the fraction of the pot a raise adds on top of a call. */
  function RaiseFactor(action: int): (r: Result<real>)
    ensures r.Ok? <==> IsRaise(action)
    ensures r.Ok? ==> r.value > 0.0
  {
    if action == RAISE_O then Ok(0.25)
    else if action == RAISE_H then Ok(0.5)
    else if action == RAISE_Q then Ok(0.75)
    else if action == RAISE_P then Ok(1.0)
    else if action == RAISE_W then Ok(1.5)
    else if action == RAISE_D then Ok(2.0)
    else if action == RAISE_V then Ok(5.0)
    else if action == RAISE_T then Ok(10.0)
    else if action == RAISE_A then Ok(ALLIN_BET_SIZE as real)
    else Err("unknown action raise factor")
  }

  /** The raises are listed from the smallest fraction to the largest. */
  lemma RaiseFactorIncreasing(a: int, b: int)
    requires IsRaise(a) && IsRaise(b) && a < b
    ensures RaiseFactor(a).value < RaiseFactor(b).value
  {
  }

  /**
   * get_new_player_pot: the mover's pot after a raise of the given size, the fractional chip
   * dropped as the C++ int conversion does, and never above the stack.
   */
  function NewPlayerPot(playerPot: int, toCall: int, inPot: int, action: int, stackSize: int): (r: Result<int>)
    ensures r.Ok? <==> IsRaise(action)
    ensures r.Ok? ==> r.value <= stackSize
    ensures r.Ok? && toCall >= 0 && inPot >= 0 ==> r.value == stackSize || r.value >= playerPot + toCall
  {
    if !IsRaise(action) then Err(RaiseFactor(action).error)
    else Ok(MinInt(playerPot + Trunc(RaisedChips(toCall, inPot, RaiseFactor(action).value)), stackSize))
  }

  /** The chips a raise of the given factor adds: the call plus the factor times the pot after the call. */
  function RaisedChips(toCall: int, inPot: int, factor: real): (x: real)
    ensures toCall >= 0 && inPot >= 0 && factor >= 0.0 ==> x >= toCall as real
    ensures toCall >= 0 && inPot > 0 && factor > 0.0 ==> x > toCall as real
  {
    var pot := (2 * toCall + inPot) as real;
    assert pot >= 0.0 && factor >= 0.0 ==> pot * factor >= 0.0;
    assert pot > 0.0 && factor > 0.0 ==> pot * factor > 0.0;
    toCall as real + pot * factor
  }

  /** A larger raise never leads to a smaller pot. */
  lemma NewPlayerPotMonotone(playerPot: int, toCall: int, inPot: int, a: int, b: int, stackSize: int)
    requires IsRaise(a) && IsRaise(b) && a < b && toCall >= 0 && inPot >= 0
    ensures NewPlayerPot(playerPot, toCall, inPot, a, stackSize).value <= NewPlayerPot(playerPot, toCall, inPot, b, stackSize).value
  {
    RaiseFactorIncreasing(a, b);
    ChipsMonotone(toCall, inPot, RaiseFactor(a).value, RaiseFactor(b).value);
    TruncMonotone(RaisedChips(toCall, inPot, RaiseFactor(a).value), RaisedChips(toCall, inPot, RaiseFactor(b).value));
  }

  lemma ChipsMonotone(toCall: int, inPot: int, f: real, g: real)
    requires toCall >= 0 && inPot >= 0 && f <= g
    ensures RaisedChips(toCall, inPot, f) <= RaisedChips(toCall, inPot, g)
  {
    var c := (2 * toCall + inPot) as real;
    var d := g - f;
    ProductNonnegative(c, d);
    assert c * g == c * f + c * d;
  }

  lemma ProductNonnegative(x: real, y: real)
    requires x >= 0.0 && y >= 0.0
    ensures x * y >= 0.0
  {
  }

  lemma TruncMonotone(x: real, y: real)
    requires 0.0 <= x <= y
    ensures Trunc(x) <= Trunc(y)
  {
  }

  /**
   * The pot fraction each action of raise stands for, as the bet translation compares them:
   * -1 for fold and call, the raise factor for the sized raises, and for the all-in raise the
   * fraction x with to_call + x * (to_call + in_pot) == stack_size.
   */
  function PotSizes(stackSize: int, playerPot: int, opponentPot: int): (sizes: seq<real>)
    requires opponentPot > 0
    ensures |sizes| == MAX_ACTIONS && sizes[FOLD] == -1.0 && sizes[CALL] == -1.0
    ensures forall i :: RAISE_O <= i < RAISE_A ==> sizes[i] == RaiseFactor(i).value
    ensures (opponentPot - playerPot) as real + sizes[RAISE_A] * (2 * opponentPot) as real == stackSize as real
  {
    var toCall := opponentPot - playerPot;
    var inPot := opponentPot + playerPot;
    [-1.0, -1.0, 0.25, 0.5, 0.75, 1.0, 1.5, 2.0, 5.0, 10.0, (stackSize - toCall) as real / (toCall + inPot) as real]
  }

  /**
   * soft_translate: given the random draw u from [0, 1), 0 picks the smaller size b1 and 1 the
   * larger b2, the smaller with probability f = (b2 - b)(1 + b1) / ((b2 - b1)(1 + b)). When
   * b1 == b2 soft_translate divides zero by zero, the comparison with the resulting NaN is false
   * and 1 is returned.
   */
  function SoftTranslate(b1: real, b: real, b2: real, u: real): (r: int)
    requires b1 <= b <= b2 && b1 >= 0.0 && 0.0 <= u < 1.0
    ensures r == 0 || r == 1
  {
    if b1 == b2 then 1
    else if u < ((b2 - b) * (1.0 + b1)) / ((b2 - b1) * (1.0 + b)) then 0
    else 1
  }

  /** An observed size equal to the smaller of two different sizes always picks the smaller. */
  lemma SoftTranslateLower(b1: real, b2: real, u: real)
    requires 0.0 <= b1 < b2 && 0.0 <= u < 1.0
    ensures SoftTranslate(b1, b1, b2, u) == 0
  {
    ProductPositive(b2 - b1, 1.0 + b1);
    DivideSelf((b2 - b1) * (1.0 + b1));
  }

  /** An observed size equal to the larger size always picks the larger. */
  lemma SoftTranslateUpper(b1: real, b2: real, u: real)
    requires 0.0 <= b1 <= b2 && 0.0 <= u < 1.0
    ensures SoftTranslate(b1, b2, b2, u) == 1
  {
    if b1 < b2 {
      ProductZero(b2 - b2, 1.0 + b1);
      ProductPositive(b2 - b1, 1.0 + b2);
      DivideZero((b2 - b1) * (1.0 + b2));
    }
  }

  lemma ProductPositive(x: real, y: real)
    requires x > 0.0 && y > 0.0
    ensures x * y > 0.0
  {
  }

  lemma ProductZero(x: real, y: real)
    requires x == 0.0
    ensures x * y == 0.0
  {
  }

  lemma DivideSelf(x: real)
    requires x != 0.0
    ensures x / x == 1.0
  {
  }

  lemma DivideZero(x: real)
    requires x != 0.0
    ensures 0.0 / x == 0.0
  {
  }

  /** k is the largest available size not above the fraction. */
  predicate IsLower(sizes: seq<real>, available: seq<bool>, fraction: real, k: int)
    requires |sizes| == |available| == MAX_ACTIONS
  {
    IsRaise(k) && available[k] && sizes[k] <= fraction
    && forall j :: RAISE_O <= j <= RAISE_A && available[j] && sizes[j] <= fraction ==> sizes[j] <= sizes[k]
  }

  /** k is an available size not below the fraction and not above any available size above it. */
  predicate IsUpper(sizes: seq<real>, available: seq<bool>, fraction: real, k: int)
    requires |sizes| == |available| == MAX_ACTIONS
  {
    IsRaise(k) && available[k] && sizes[k] >= fraction
    && forall j :: RAISE_O <= j <= RAISE_A && available[j] && sizes[j] > fraction ==> sizes[k] <= sizes[j]
  }

  /**
   * The scan of raise over the available raises: lower is the largest size not above the
   * fraction and upper the smallest size above it, or INVALID_ACTION where there is none. A size
   * equal to the fraction that is not taken as lower (an equal size came first) may become upper.
   */
  method Bounds(sizes: seq<real>, available: seq<bool>, fraction: real) returns (lower: int, upper: int)
    requires |sizes| == |available| == MAX_ACTIONS
    ensures lower == INVALID_ACTION <==> forall j :: IsRaise(j) && available[j] ==> sizes[j] > fraction
    ensures lower != INVALID_ACTION ==> IsLower(sizes, available, fraction, lower)
    ensures upper == INVALID_ACTION ==> forall j :: IsRaise(j) && available[j] ==> sizes[j] <= fraction
    ensures upper != INVALID_ACTION ==> IsUpper(sizes, available, fraction, upper)
    ensures lower == INVALID_ACTION || lower != upper
  {
    lower := INVALID_ACTION;
    upper := INVALID_ACTION;
    var i := CALL + 1;
    while i < MAX_ACTIONS
      invariant RAISE_O <= i <= MAX_ACTIONS
      invariant lower == INVALID_ACTION ==> forall j :: RAISE_O <= j < i && available[j] ==> sizes[j] > fraction
      invariant lower != INVALID_ACTION ==> RAISE_O <= lower < i && available[lower] && sizes[lower] <= fraction
      invariant lower != INVALID_ACTION ==>
        forall j :: RAISE_O <= j < i && available[j] && sizes[j] <= fraction ==> sizes[j] <= sizes[lower]
      invariant upper == INVALID_ACTION ==> forall j :: RAISE_O <= j < i && available[j] ==> sizes[j] <= fraction
      invariant upper != INVALID_ACTION ==> RAISE_O <= upper < i && available[upper] && sizes[upper] >= fraction
      invariant upper != INVALID_ACTION ==>
        forall j :: RAISE_O <= j < i && available[j] && sizes[j] > fraction ==> sizes[upper] <= sizes[j]
      invariant lower == INVALID_ACTION || lower != upper
    {
      if available[i] {
        if sizes[i] <= fraction && (lower == INVALID_ACTION || sizes[i] > sizes[lower]) {
          lower := i;
        } else if sizes[i] >= fraction && (upper == INVALID_ACTION || sizes[i] < sizes[upper]) {
          upper := i;
        }
      }
      i := i + 1;
    }
  }

  /**
   * raise: translate an observed bet of the given pot fraction into one of the state's raises.
   * available[i] says whether the state has a child for action i; u is the random draw of
   * soft_translate. Nothing is returned when the opponent is already all-in. Otherwise the
   * result is the nearest available size below or above the fraction: the one above when none
   * lies below, the one below when none lies above, an exact size when there is one.
   */
  method Raise(stackSize: int, playerPot: int, opponentPot: int, available: seq<bool>, fraction: real, u: real)
    returns (action: Option<int>)
    requires |available| == MAX_ACTIONS && 0 <= playerPot <= opponentPot <= stackSize && opponentPot > 0
    requires 0.0 <= u < 1.0
    requires opponentPot != stackSize ==> exists i :: IsRaise(i) && available[i]
    ensures opponentPot == stackSize <==> action.None?
    ensures action.Some? ==>
      var sizes := PotSizes(stackSize, playerPot, opponentPot);
      IsLower(sizes, available, fraction, action.value) || IsUpper(sizes, available, fraction, action.value)
    ensures action.Some? && (forall j :: IsRaise(j) && available[j] ==> PotSizes(stackSize, playerPot, opponentPot)[j] > fraction) ==>
      IsUpper(PotSizes(stackSize, playerPot, opponentPot), available, fraction, action.value)
    ensures action.Some? && (forall j :: IsRaise(j) && available[j] ==> PotSizes(stackSize, playerPot, opponentPot)[j] < fraction) ==>
      IsLower(PotSizes(stackSize, playerPot, opponentPot), available, fraction, action.value)
    ensures action.Some? && (exists j :: IsRaise(j) && available[j] && PotSizes(stackSize, playerPot, opponentPot)[j] == fraction) ==>
      PotSizes(stackSize, playerPot, opponentPot)[action.value] == fraction
  {
    if stackSize == opponentPot {
      return None;
    }
    var sizes := PotSizes(stackSize, playerPot, opponentPot);
    assert sizes[RAISE_A] >= 0.0 by {
      assert (2 * opponentPot) as real > 0.0;
      assert (opponentPot - playerPot) as real <= stackSize as real;
    }
    var lower, upper := Bounds(sizes, available, fraction);
    if lower == INVALID_ACTION {
      action := Some(upper);
    } else if upper == INVALID_ACTION {
      action := Some(lower);
    } else if lower == upper {
      action := Some(lower);
    } else {
      if sizes[lower] == fraction && sizes[lower] < sizes[upper] {
        SoftTranslateLower(sizes[lower], sizes[upper], u);
      }
      if sizes[upper] == fraction {
        SoftTranslateUpper(sizes[lower], sizes[upper], u);
      }
      action := if SoftTranslate(sizes[lower], fraction, sizes[upper], u) == 0 then Some(lower) else Some(upper);
    }
  }

  /** The printed letters of the actions, in action order. */
  const ACTION_LETTERS := "fcohqpwdvta"

  function ActionLetter(action: int): (c: char)
    requires IsAction(action)
    ensures 'a' <= c <= 'z'
  {
    ACTION_LETTERS[action]
  }

  /** The action a lower-case letter stands for. */
  function LetterAction(c: char): (r: Option<int>)
    ensures r.Some? ==> IsAction(r.value) && ActionLetter(r.value) == c
  {
    if c == 'f' then Some(FOLD)
    else if c == 'c' then Some(CALL)
    else if c == 'o' then Some(RAISE_O)
    else if c == 'h' then Some(RAISE_H)
    else if c == 'q' then Some(RAISE_Q)
    else if c == 'p' then Some(RAISE_P)
    else if c == 'w' then Some(RAISE_W)
    else if c == 'd' then Some(RAISE_D)
    else if c == 'v' then Some(RAISE_V)
    else if c == 't' then Some(RAISE_T)
    else if c == 'a' then Some(RAISE_A)
    else None
  }

  /** Every action's letter reads back as that action. */
  lemma LetterActionInverse(action: int)
    requires IsAction(action)
    ensures LetterAction(ActionLetter(action)) == Some(action)
  {
  }

  /** toupper on a lower-case letter. */
  function Upper(c: char): (u: char)
    requires 'a' <= c <= 'z'
    ensures 'A' <= u <= 'Z' && u as int - c as int == 'A' as int - 'a' as int
  {
    (c as int - 'a' as int + 'A' as int) as char
  }

  /** tolower on an upper-case letter, the inverse of Upper. */
  function Lower(c: char): (l: char)
    requires 'A' <= c <= 'Z'
    ensures 'a' <= l <= 'z' && Upper(l) == c
  {
    (c as int - 'A' as int + 'a' as int) as char
  }

  /** One step of a state's history: the player who acted and the action taken. */
  datatype Step = Step(player: int, action: int)

  predicate ValidStep(s: Step)
  {
    (s.player == 0 || s.player == 1) && IsAction(s.action)
  }

  /** The letter printed for one step: the action's letter, upper case when player 1 acted. */
  function StepLetter(s: Step): (c: char)
    requires ValidStep(s)
    ensures s.player == 0 <==> 'a' <= c <= 'z'
    ensures s.player == 0 ==> LetterAction(c) == Some(s.action)
    ensures s.player == 1 ==> 'A' <= c <= 'Z' && LetterAction(Lower(c)) == Some(s.action)
  {
    LetterActionInverse(s.action);
    if s.player == 0 then ActionLetter(s.action) else Upper(ActionLetter(s.action))
  }

  /** The letters of a history, one per step. */
  function HistoryLetters(history: seq<Step>): (line: string)
    requires forall k :: 0 <= k < |history| ==> ValidStep(history[k])
    ensures |line| == |history|
    ensures forall k :: 0 <= k < |history| ==> line[k] == StepLetter(history[k])
  {
    if history == [] then ""
    else HistoryLetters(history[..|history| - 1]) + [StepLetter(history[|history| - 1])]
  }

  /** The digits of a non-negative number, most significant first. */
  function NatToString(n: nat): (s: string)
    ensures |s| >= 1 && forall k :: 0 <= k < |s| ==> '0' <= s[k] <= '9'
    decreases n
  {
    if n < 10 then [(n + '0' as int) as char]
    else NatToString(n / 10) + [((n % 10) + '0' as int) as char]
  }

  /** A number as the C++ stream prints an int. */
  function IntToString(n: int): (s: string)
    ensures |s| >= 1 && s[0] != ':' && forall k :: 0 <= k < |s| ==> s[k] != ':'
  {
    if n < 0 then "-" + NatToString(-n) else NatToString(n)
  }

  /**
   * operator<<: the state's id, a colon and the letters of the actions leading to it, upper case
   * where the acting player was player 1.
   */
  function Describe(id: int, history: seq<Step>): (line: string)
    requires forall k :: 0 <= k < |history| ==> ValidStep(history[k])
    ensures IndexOf(line, ':') == |IntToString(id)| && line[..|IntToString(id)|] == IntToString(id)
    ensures |line| == |IntToString(id)| + 1 + |history|
    ensures line[|IntToString(id)| + 1..] == HistoryLetters(history)
  {
    var n := IntToString(id);
    var line := n + ":" + HistoryLetters(history);
    assert line[|n|] == ':' && forall k :: 0 <= k < |n| ==> line[k] == n[k];
    line
  }

  /** The history can be read back from the printed form: each letter gives the action and its case the player. */
  lemma DescribeReadsBack(id: int, history: seq<Step>)
    requires forall k :: 0 <= k < |history| ==> ValidStep(history[k])
    ensures var line := Describe(id, history);
      var start := |IntToString(id)| + 1;
      line[start - 1] == ':' && |line| == start + |history|
      && forall k :: 0 <= k < |history| ==>
        (history[k].player == 0 <==> 'a' <= line[start + k] <= 'z')
        && (history[k].player == 0 ==> LetterAction(line[start + k]) == Some(history[k].action))
        && (history[k].player == 1 ==>
              'A' <= line[start + k] <= 'Z' && LetterAction(Lower(line[start + k])) == Some(history[k].action))
  {
    var line := Describe(id, history);
    var start := |IntToString(id)| + 1;
    forall k | 0 <= k < |history|
      ensures line[start + k] == StepLetter(history[k])
    {
      assert line[start + k] == HistoryLetters(history)[k];
    }
  }

  /** The value of a string of decimal digits, as std::stoi reads it. */
  function DigitsValue(d: string): (n: nat)
    requires forall k :: 0 <= k < |d| ==> '0' <= d[k] <= '9'
  {
    if d == [] then 0 else DigitsValue(d[..|d| - 1]) * 10 + (d[|d| - 1] as int - '0' as int)
  }

  /** Printing a number and reading it back gives the number. */
  lemma {:induction false} DigitsRoundTrip(n: nat)
    ensures DigitsValue(NatToString(n)) == n
    decreases n
  {
    var s := NatToString(n);
    if n >= 10 {
      DigitsRoundTrip(n / 10);
      assert s[..|s| - 1] == NatToString(n / 10);
    }
  }

  /** The first position of c in s, or |s| when there is none. */
  function IndexOf(s: string, c: char): (i: nat)
    ensures i <= |s| && (i < |s| ==> s[i] == c) && forall k :: 0 <= k < i ==> s[k] != c
  {
    if s == [] then 0 else if s[0] == c then 0 else 1 + IndexOf(s[1..], c)
  }

  predicate AllDigits(s: string)
  {
    forall k :: 0 <= k < |s| ==> '0' <= s[k] <= '9'
  }

  predicate AllLower(s: string)
  {
    forall k :: 0 <= k < |s| ==> 'a' <= s[k] <= 'z'
  }

  predicate AllLetters(s: string)
  {
    forall k :: 0 <= k < |s| ==> 'a' <= s[k] <= 'z' || 'A' <= s[k] <= 'Z'
  }

  predicate NoDash(s: string)
  {
    forall k :: 0 <= k < |s| ==> s[k] != '-'
  }

  /** s cut at its first c, when it has one. */
  function SplitAt(s: string, c: char): (r: Option<(string, string)>)
    ensures r.Some? ==> s == r.value.0 + [c] + r.value.1 && forall k :: 0 <= k < |r.value.0| ==> r.value.0[k] != c
    ensures r.None? ==> forall k :: 0 <= k < |s| ==> s[k] != c
  {
    var i := IndexOf(s, c);
    if i == |s| then None
    else
      assert s == s[..i] + [c] + s[i + 1..];
      Some((s[..i], s[i + 1..]))
  }

  /** A string is cut at the c that follows a first part free of c. */
  lemma SplitAtJoin(a: string, b: string)
    requires NoDash(a)
    ensures SplitAt(a + "-" + b, '-') == Some((a, b))
  {
    var s := a + "-" + b;
    assert s[|a|] == '-';
    var r := SplitAt(s, '-');
    assert r.Some?;
    var (x, y) := r.value;
    assert x == s[..|x|] == a;
    assert y == s[|a| + 1..] == b;
  }

  /** The three parts of a configuration joined by '-'. */
  function ConfigString(game: string, actions: string, digits: string): string
  {
    game + "-" + actions + "-" + digits
  }

  /**
   * The parts the pattern game-actions-stack of both create functions accepts: a game name
   * without '-', a non-empty run of action letters (lower case only when lowerOnly) and a
   * non-empty run of digits.
   */
  predicate WellFormedParts(game: string, actions: string, digits: string, lowerOnly: bool)
  {
    game != [] && NoDash(game) && actions != [] && digits != [] && AllDigits(digits)
    && (if lowerOnly then AllLower(actions) else AllLetters(actions))
  }

  /** The configuration split into its three parts, when it matches the pattern. */
  function MatchConfig(config: string, lowerOnly: bool): (r: Option<(string, string, string)>)
    ensures r.Some? ==> config == ConfigString(r.value.0, r.value.1, r.value.2) && WellFormedParts(r.value.0, r.value.1, r.value.2, lowerOnly)
  {
    match SplitAt(config, '-')
    case None => None
    case Some((game, rest)) =>
      match SplitAt(rest, '-')
      case None => None
      case Some((actions, digits)) =>
        if WellFormedParts(game, actions, digits, lowerOnly) then Some((game, actions, digits)) else None
  }

  /** Well-formed parts joined by '-' match as those parts. */
  lemma MatchJoined(game: string, actions: string, digits: string, lowerOnly: bool)
    requires WellFormedParts(game, actions, digits, lowerOnly)
    ensures MatchConfig(ConfigString(game, actions, digits), lowerOnly) == Some((game, actions, digits))
  {
    assert ConfigString(game, actions, digits) == game + "-" + (actions + "-" + digits);
    SplitAtJoin(game, actions + "-" + digits);
    assert NoDash(actions) by {
      if lowerOnly {
        assert AllLower(actions);
      } else {
        assert AllLetters(actions);
      }
    }
    SplitAtJoin(actions, digits);
  }

  /** The game a configuration selects: the enabled actions, the limited ones and the stack size. */
  datatype GameConfig = GameConfig(enabled: set<int>, limited: set<int>, stackSize: nat)

  /** The actions of "nlhe-fchqpwdta": all but RAISE_O and RAISE_V. */
  const NLHE_ACTIONS := {FOLD, CALL, RAISE_H, RAISE_Q, RAISE_P, RAISE_W, RAISE_D, RAISE_T, RAISE_A}
  /** The actions of "nlhe2-fcohqpwdvta": all eleven. */
  const NLHE2_ACTIONS := {FOLD, CALL, RAISE_O, RAISE_H, RAISE_Q, RAISE_P, RAISE_W, RAISE_D, RAISE_V, RAISE_T, RAISE_A}
  /** The raises "nlhe2" allows once per player and round. */
  const NLHE2_LIMITED := {RAISE_O, RAISE_H, RAISE_Q}

  /** create: only the two known game configurations are accepted, with any stack size. */
  function Create(config: string): (r: Result<GameConfig>)
    ensures r.Ok? ==> r.value.enabled == NLHE_ACTIONS || r.value.enabled == NLHE2_ACTIONS
  {
    match MatchConfig(config, true)
    case None => Err("unable to parse configuration")
    case Some((game, actions, digits)) => SelectGame(game, actions, digits)
  }

  /** The game named by the parts of a configuration that matched the pattern. */
  function SelectGame(game: string, actions: string, digits: string): (r: Result<GameConfig>)
    requires AllDigits(digits)
    ensures r.Ok? ==> r.value.enabled == NLHE_ACTIONS || r.value.enabled == NLHE2_ACTIONS
  {
    if game == "nlhe" && actions == "fchqpwdta" then Ok(GameConfig(NLHE_ACTIONS, {}, DigitsValue(digits)))
    else if game == "nlhe2" && actions == "fcohqpwdvta" then Ok(GameConfig(NLHE2_ACTIONS, NLHE2_LIMITED, DigitsValue(digits)))
    else Err("unknown game configuration")
  }

  /** The accepted configurations are exactly the two game strings followed by a stack size. */
  lemma CreateAccepts(config: string)
    ensures Create(config).Ok? <==>
      exists digits :: digits != [] && AllDigits(digits)
        && (config == ConfigString("nlhe", "fchqpwdta", digits) || config == ConfigString("nlhe2", "fcohqpwdvta", digits))
  {
    if Create(config).Ok? {
      CreateParts(config);
    }
    forall digits | digits != [] && AllDigits(digits)
      && (config == ConfigString("nlhe", "fchqpwdta", digits) || config == ConfigString("nlhe2", "fcohqpwdvta", digits))
      ensures Create(config).Ok?
    {
      CreateJoined(config, digits);
    }
  }

  lemma CreateParts(config: string)
    requires Create(config).Ok?
    ensures exists digits ::
              digits != [] && AllDigits(digits)
              && (config == ConfigString("nlhe", "fchqpwdta", digits) || config == ConfigString("nlhe2", "fcohqpwdvta", digits))
  {
    var (game, actions, digits) := MatchConfig(config, true).value;
    assert config == ConfigString(game, actions, digits);
    assert WellFormedParts(game, actions, digits, true);
    assert (game == "nlhe" && actions == "fchqpwdta") || (game == "nlhe2" && actions == "fcohqpwdvta");
  }

  lemma CreateJoined(config: string, digits: string)
    requires digits != [] && AllDigits(digits)
    requires config == ConfigString("nlhe", "fchqpwdta", digits) || config == ConfigString("nlhe2", "fcohqpwdvta", digits)
    ensures Create(config).Ok?
  {
    if config == ConfigString("nlhe", "fchqpwdta", digits) {
      CreateGame("nlhe", "fchqpwdta", digits);
    } else {
      CreateGame("nlhe2", "fcohqpwdvta", digits);
    }
  }

  lemma CreateGame(game: string, actions: string, digits: string)
    requires digits != [] && AllDigits(digits)
    requires (game == "nlhe" && actions == "fchqpwdta") || (game == "nlhe2" && actions == "fcohqpwdvta")
    ensures Create(ConfigString(game, actions, digits)) == SelectGame(game, actions, digits)
  {
    MatchJoined(game, actions, digits, true);
  }

  /** The stack size of an accepted "nlhe" configuration is the number it ends with. */
  lemma CreateStack(stackSize: nat)
    ensures Create(ConfigString("nlhe", "fchqpwdta", NatToString(stackSize))) == Ok(GameConfig(NLHE_ACTIONS, {}, stackSize))
  {
    DigitsRoundTrip(stackSize);
    MatchJoined("nlhe", "fchqpwdta", NatToString(stackSize), true);
  }

  /** The stack size of an accepted "nlhe2" configuration is the number it ends with. */
  lemma CreateStack2(stackSize: nat)
    ensures Create(ConfigString("nlhe2", "fcohqpwdvta", NatToString(stackSize))) == Ok(GameConfig(NLHE2_ACTIONS, NLHE2_LIMITED, stackSize))
  {
    DigitsRoundTrip(stackSize);
    MatchJoined("nlhe2", "fcohqpwdvta", NatToString(stackSize), true);
  }
}
