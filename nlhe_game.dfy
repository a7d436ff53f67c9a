/**
 * The heads-up no-limit referee of the play tool (play nlhe_game.cpp): it posts the blinds,
 * asks the two actors in turn to fold, call or raise, moves the bets into the pot when a betting
 * round closes, and settles the bankroll of player 0 by a fold or a showdown.
 *
 * The referee's fields are gathered in a Table value; Game is the class whose methods update
 * them in place, each proved to give the Table the functions below compute. The card dealing,
 * the hand evaluator and the actors are outside the model: the showdown result is a parameter
 * and each actor is a strategy from what it can see to a decision.
 */
module NlheGame {
  import opened Arith

  /** The round after the river: the hand goes to showdown. */
  const SHOWDOWN := 4

  /** What an actor answers when asked to act. */
  datatype Decision = Fold | Call | Raise(amount: int)

  /** The referee's fields: bets_ is the pair of current-round bets, pot_ the chips of closed rounds. */
  datatype Table = Table(running: bool, round: int, player: int, pot: int, bankroll: int, dealer: int,
                         bets: (int, int), allin: bool, stackSize: int, result: int)

  /** What an actor reads through the getters: round, to-call amount, total pot and bets. */
  datatype View = View(round: int, player: int, toCall: int, pot: int, bets: (int, int))

  function Bet(t: Table, p: int): int
  {
    if p == 0 then t.bets.0 else t.bets.1
  }

  function SetBet(bets: (int, int), p: int, v: int): (r: (int, int))
    ensures p == 0 ==> r == (v, bets.1)
    ensures p != 0 ==> r == (bets.0, v)
  {
    if p == 0 then (v, bets.1) else (bets.0, v)
  }

  function ToCall(t: Table): int
  {
    Bet(t, 1 - t.player) - Bet(t, t.player)
  }

  function ViewOf(t: Table): View
  {
    View(t.round, t.player, ToCall(t), t.pot + t.bets.0 + t.bets.1, t.bets)
  }

  /**
   * The start of play: the dealer posts 1 and the other player 2, the dealer acts first in round
   * 0, the pot is empty and nobody is all-in; the showdown result of the dealt cards is given.
   */
  function Dealt(t: Table, result: int): (r: Table)
    requires t.dealer == 0 || t.dealer == 1
    ensures Bet(r, r.dealer) == 1 && Bet(r, 1 - r.dealer) == 2
    ensures r.running && r.round == 0 && r.pot == 0 && r.player == t.dealer && !r.allin
    ensures r.dealer == t.dealer && r.bankroll == t.bankroll && r.stackSize == t.stackSize && r.result == result
  {
    t.(bets := SetBet(SetBet(t.bets, t.dealer, 1), 1 - t.dealer, 2), running := true, player := t.dealer,
       round := 0, pot := 0, allin := false, result := result)
  }

  /**
   * Whether call() closes the betting round, as written: preflop the dealer completing the small
   * blind by one chip does not, a call of more than one chip does, and a check by the big blind
   * does; after the flop a call of a bet or a check by the dealer does.
   */
  function ClosingAsWritten(round: int, player: int, dealer: int, toCall: int): bool
  {
    if round == 0 then
      if player == dealer && toCall == 1 then false
      else if toCall > 1 then true
      else toCall == 0 && player != dealer
    else toCall > 0 || player == dealer
  }

  /** The caller's call puts them all-in: half the pot plus the matched bet is the stack. */
  predicate CallAllIn(t: Table)
  {
    t.pot / 2 + Bet(t, 1 - t.player) == t.stackSize
  }

  /**
   * Whether a call closes the round, corrected: as written, and also whenever the call puts the
   * caller all-in, since no more betting can follow.
   */
  function Closes(t: Table): (r: bool)
    ensures t.round != 0 ==> (r <==> ToCall(t) > 0 || t.player == t.dealer || CallAllIn(t))
    ensures t.round == 0 && ToCall(t) > 1 ==> r
    ensures t.round == 0 && t.player == t.dealer && ToCall(t) == 1 ==> (r <==> CallAllIn(t))
    ensures CallAllIn(t) ==> r
  {
    ClosingAsWritten(t.round, t.player, t.dealer, ToCall(t)) || CallAllIn(t)
  }

  /**
   * call() with the given closing decision: the caller matches the other bet and the all-in flag
   * is set when that uses up the caller's stack; a closing call moves both bets into the pot,
   * zeroes them, advances the round and gives the first action to the player after the dealer,
   * otherwise the turn passes to the other player.
   */
  function CallWith(t: Table, closing: bool): (r: Table)
    requires t.player == 0 || t.player == 1
    ensures Bet(r, 1 - t.player) == (if closing then 0 else Bet(t, 1 - t.player))
    ensures Bet(r, t.player) == Bet(r, 1 - t.player)
    ensures r.allin == CallAllIn(t)
    ensures closing ==> r.pot == t.pot + 2 * Bet(t, 1 - t.player) && r.round == t.round + 1 && r.player == 1 - t.dealer
    ensures !closing ==> r.pot == t.pot && r.round == t.round && r.player == 1 - t.player
  {
    var matched := SetBet(t.bets, t.player, Bet(t, 1 - t.player));
    var t1 := t.(bets := matched, allin := CallAllIn(t));
    if closing then
      t1.(pot := t.pot + matched.0 + matched.1, bets := (0, 0), round := t.round + 1, player := 1 - t.dealer)
    else
      t1.(player := 1 - t.player)
  }

  /** call(), with the corrected closing rule. */
  function AfterCall(t: Table): (r: Table)
    requires t.player == 0 || t.player == 1
    ensures Bet(r, t.player) == Bet(r, 1 - t.player) && r.allin == CallAllIn(t)
    ensures CallAllIn(t) ==> r.bets == (0, 0) && r.round == t.round + 1 && r.player == 1 - t.dealer
    ensures r.running == t.running && r.bankroll == t.bankroll && r.dealer == t.dealer
  {
    CallWith(t, Closes(t))
  }

  /** The largest raise: what takes the raiser's total to the stack. */
  function MaxRaise(t: Table): int
  {
    t.stackSize - t.pot / 2 - Bet(t, 1 - t.player)
  }

  /**
   * raise(amount): below max(2, to-call), or when calling already puts the raiser all-in, it is a
   * call; otherwise the raise is capped at MaxRaise, an all-in raise takes exactly MaxRaise, the
   * raiser's bet becomes the other bet plus the raise and the turn passes.
   */
  function AfterRaise(t: Table, amount: int): (r: Table)
    requires t.player == 0 || t.player == 1
    ensures amount < MaxInt(2, ToCall(t)) || CallAllIn(t) ==> r == AfterCall(t)
    ensures !(amount < MaxInt(2, ToCall(t)) || CallAllIn(t)) ==>
      Bet(r, t.player) == Bet(t, 1 - t.player) + MinInt(amount, MaxRaise(t))
      && Bet(r, 1 - t.player) == Bet(t, 1 - t.player) && r.player == 1 - t.player
      && r.round == t.round && r.pot == t.pot && r.allin == t.allin
  {
    var toCall := ToCall(t);
    var minRaise := MaxInt(2, toCall);
    if amount < minRaise then AfterCall(t)
    else if toCall + Bet(t, t.player) + t.pot / 2 == t.stackSize then AfterCall(t)
    else
      var maxRaise := MaxRaise(t);
      var capped := MinInt(amount, maxRaise);
      var allin := t.pot / 2 + Bet(t, 1 - t.player) + capped >= t.stackSize;
      var raised := if allin then t.stackSize - t.pot / 2 - Bet(t, 1 - t.player) else capped;
      t.(bets := SetBet(t.bets, t.player, Bet(t, 1 - t.player) + raised), player := 1 - t.player)
  }

  /**
   * fold(): player 0's bankroll loses, or gains when player 1 folds, half the pot plus the folder's
   * bet; the hand stops and the dealer button moves.
   */
  function AfterFold(t: Table): (r: Table)
    ensures r.bankroll == t.bankroll + (if t.player == 0 then -1 else 1) * (t.pot / 2 + Bet(t, t.player))
    ensures !r.running && r.dealer == 1 - t.dealer && r.round == t.round && r.bets == t.bets && r.pot == t.pot
  {
    t.(bankroll := t.bankroll + (if t.player == 0 then -1 else 1) * (t.pot / 2 + Bet(t, t.player)),
       running := false, dealer := 1 - t.dealer)
  }

  /**
   * showdown(): player 0's bankroll changes by the result times half the pot (C++ division,
   * truncating toward zero); the hand stops and the dealer button moves.
   */
  function AfterShowdown(t: Table): (r: Table)
    ensures r.bankroll == t.bankroll + TruncDiv(t.result * t.pot, 2)
    ensures !r.running && r.dealer == 1 - t.dealer && r.round == t.round && r.bets == t.bets && r.pot == t.pot
  {
    t.(bankroll := t.bankroll + TruncDiv(t.result * t.pot, 2), running := false, dealer := 1 - t.dealer)
  }

  /** One actor's decision applied through fold, call or raise. */
  function Act(t: Table, d: Decision): (r: Table)
    requires t.player == 0 || t.player == 1
    ensures r.running <==> t.running && !d.Fold?
    ensures d.Fold? ==> r.dealer == 1 - t.dealer
    ensures !d.Fold? ==> r.bankroll == t.bankroll && r.dealer == t.dealer
  {
    match d
    case Fold => AfterFold(t)
    case Call => AfterCall(t)
    case Raise(amount) => AfterRaise(t, amount)
  }

  /** The end of a pass of the play loop: from round 4 the hand stops running. */
  function Tail(u: Table): (r: Table)
    ensures r.running == (u.running && u.round < SHOWDOWN) && r == u.(running := r.running)
  {
    if u.round >= SHOWDOWN then u.(running := false) else u
  }

  /** One pass of the play loop: the player acts, or with both all-in the round advances. */
  function AfterTurn(t: Table, d: Decision): (r: Table)
    requires t.player == 0 || t.player == 1
    ensures r.running ==> r.round < SHOWDOWN
    ensures t.allin ==> r.round == t.round + 1 && r.bets == t.bets && r.pot == t.pot && r.bankroll == t.bankroll
    ensures !t.allin && d.Fold? ==> !r.running && r.dealer == 1 - t.dealer
  {
    Tail(if !t.allin then Act(t, d) else t.(round := t.round + 1))
  }

  /**
   * The referee's invariant: blinds need a stack of at least 2; neither player has more than the
   * stack in play; the pot holds equal halves; while the hand runs the player to act never has the
   * larger bet, the big blind has at least 2 out preflop, and an all-in hand has no open bets; at
   * the showdown round no bets are open.
   */
  predicate Inv(t: Table)
  {
    t.stackSize >= 2 && (t.dealer == 0 || t.dealer == 1) && (t.player == 0 || t.player == 1)
    && -1 <= t.result <= 1
    && t.pot >= 0 && t.pot % 2 == 0 && t.bets.0 >= 0 && t.bets.1 >= 0
    && t.pot / 2 + t.bets.0 <= t.stackSize && t.pot / 2 + t.bets.1 <= t.stackSize
    && 0 <= t.round <= SHOWDOWN && (t.running ==> t.round < SHOWDOWN)
    && (t.running ==> Bet(t, t.player) <= Bet(t, 1 - t.player))
    && (t.running && t.round == 0 ==> Bet(t, 1 - t.dealer) >= 2)
    && (t.running && t.allin ==> t.bets == (0, 0))
    && (t.round == SHOWDOWN ==> t.bets == (0, 0))
  }

  /** A check here would not close the round: the first check of a round. */
  predicate FirstCheck(t: Table)
  {
    ToCall(t) == 0 && (if t.round == 0 then t.player == t.dealer else t.player != t.dealer)
  }

  /** The parts of a hand's progress, most significant first. */
  function Alive(t: Table): nat
  {
    if t.running then 1 else 0
  }

  function RoundsLeft(t: Table): nat
  {
    if 0 <= t.round <= SHOWDOWN then SHOWDOWN - t.round else 0
  }

  /** The chips neither player has put in yet. */
  function Behind(t: Table): nat
  {
    var c := 2 * t.stackSize - t.pot - t.bets.0 - t.bets.1;
    if c < 0 then 0 else c
  }

  function Pending(t: Table): nat
  {
    if FirstCheck(t) then 1 else 0
  }

  /** u comes strictly before t in the order (Alive, RoundsLeft, Behind, Pending). */
  predicate Progress(u: Table, t: Table)
  {
    Alive(u) < Alive(t)
    || (Alive(u) == Alive(t) && RoundsLeft(u) < RoundsLeft(t))
    || (Alive(u) == Alive(t) && RoundsLeft(u) == RoundsLeft(t) && Behind(u) < Behind(t))
    || (Alive(u) == Alive(t) && RoundsLeft(u) == RoundsLeft(t) && Behind(u) == Behind(t) && Pending(u) < Pending(t))
  }

  /** The dealt table satisfies the invariant (the blinds fit the stack). */
  lemma DealtInv(t: Table, result: int)
    requires t.stackSize >= 2 && (t.dealer == 0 || t.dealer == 1) && -1 <= result <= 1
    ensures Inv(Dealt(t, result))
  {
  }

  /** A call keeps the invariant: the bets it matches fit the stack, and an all-in call closes the round. */
  lemma CallInv(t: Table)
    requires Inv(t) && t.running && !t.allin
    ensures Inv(Tail(AfterCall(t)))
  {
  }

  /** A raise keeps the invariant: the raiser's total never passes the stack (the C++ referee's assertion). */
  lemma RaiseInv(t: Table, amount: int)
    requires Inv(t) && t.running && !t.allin
    ensures Inv(Tail(AfterRaise(t, amount)))
    ensures !(amount < MaxInt(2, ToCall(t)) || CallAllIn(t)) ==>
      t.pot / 2 + Bet(AfterRaise(t, amount), t.player) <= t.stackSize && ToCall(AfterRaise(t, amount)) > 0
  {
    if amount < MaxInt(2, ToCall(t)) || CallAllIn(t) {
      CallInv(t);
    }
  }

  /** A closing call advances the round or ends the hand. */
  lemma ClosingCallProgress(t: Table)
    requires Inv(t) && t.running && !t.allin && Closes(t)
    ensures Progress(Tail(AfterCall(t)), t)
  {
  }

  /** A call that leaves the round open puts chips in, or answers a first check. */
  lemma OpenCallProgress(t: Table)
    requires Inv(t) && t.running && !t.allin && !Closes(t)
    ensures Progress(Tail(AfterCall(t)), t)
  {
    var r := AfterCall(t);
    CallInv(t);
    if ToCall(t) == 0 {
      assert FirstCheck(t) && !FirstCheck(r);
      assert Behind(r) == Behind(t);
    } else {
      assert Behind(r) < Behind(t);
    }
  }

  /** A raise that is not turned into a call puts at least one chip in. */
  lemma RaiseProgress(t: Table, amount: int)
    requires Inv(t) && t.running && !t.allin
    requires !(amount < MaxInt(2, ToCall(t)) || CallAllIn(t))
    ensures Progress(Tail(AfterRaise(t, amount)), t)
  {
    var r := AfterRaise(t, amount);
    RaiseInv(t, amount);
    assert Bet(r, t.player) > Bet(t, t.player);
    assert Behind(r) < Behind(t);
  }

  /** Every pass of the loop keeps the invariant and makes progress, so play always ends. */
  lemma TurnProgress(t: Table, d: Decision)
    requires Inv(t) && t.running
    ensures Inv(AfterTurn(t, d)) && Progress(AfterTurn(t, d), t)
  {
    if !t.allin {
      match d
      case Fold =>
      case Call =>
        CallInv(t);
        if Closes(t) {
          ClosingCallProgress(t);
        } else {
          OpenCallProgress(t);
        }
      case Raise(amount) =>
        RaiseInv(t, amount);
        if amount < MaxInt(2, ToCall(t)) || CallAllIn(t) {
          if Closes(t) {
            ClosingCallProgress(t);
          } else {
            OpenCallProgress(t);
          }
        } else {
          RaiseProgress(t, amount);
        }
    }
  }

  /**
   * A pass of the loop leaves the bankroll and the dealer alone while the hand runs; a pass that
   * stops it is a fold, which settles at most one stack and moves the button, or reaches round 4
   * with no open bets, where the showdown settles.
   */
  lemma TurnSettles(t: Table, d: Decision)
    requires Inv(t) && t.running
    ensures var u := AfterTurn(t, d);
      (u.running ==> u.dealer == t.dealer && u.bankroll == t.bankroll)
      && (!u.running ==>
            (u.dealer == 1 - t.dealer && Abs(u.bankroll - t.bankroll) <= t.stackSize && u.round < SHOWDOWN)
            || (u.dealer == t.dealer && u.bankroll == t.bankroll && u.round == SHOWDOWN))
  {
    SettleBounded(t);
    TurnProgress(t, d);
  }

  /**
   * Where the play loop stands against the dealer d0 and bankroll b0 it started from: the
   * invariant holds; while the hand runs nothing is settled; once it stops, either a fold moved
   * the button and at most one stack, or the hand waits at the showdown round unsettled.
   */
  ghost predicate Played(t: Table, d0: int, b0: int)
  {
    Inv(t)
    && (t.running ==> t.dealer == d0 && t.bankroll == b0)
    && (!t.running ==>
          (t.dealer == 1 - d0 && Abs(t.bankroll - b0) <= t.stackSize && t.round < SHOWDOWN)
          || (t.dealer == d0 && t.bankroll == b0 && t.round == SHOWDOWN))
  }

  /** One pass of the play loop keeps Played and moves the hand forward. */
  lemma TurnStep(t: Table, d: Decision, d0: int, b0: int)
    requires Played(t, d0, b0) && t.running
    ensures Played(AfterTurn(t, d), d0, b0) && Progress(AfterTurn(t, d), t)
  {
    TurnProgress(t, d);
    TurnSettles(t, d);
  }

  /** A hand settled by a fold or a showdown moves player 0's bankroll by at most one stack. */
  lemma SettleBounded(t: Table)
    requires Inv(t)
    ensures Abs(AfterFold(t).bankroll - t.bankroll) <= t.stackSize
    ensures t.bets == (0, 0) ==> Abs(AfterShowdown(t).bankroll - t.bankroll) <= t.stackSize
    ensures t.bets == (0, 0) ==> AfterShowdown(t).bankroll - t.bankroll == t.result * (t.pot / 2)
  {
    var h := t.pot / 2;
    assert t.pot == 2 * h;
    assert t.result * t.pot == 2 * (t.result * h);
  }

  /** The first hand with dealer 0, stack 100 and player 0 holding the better cards. */
  const SHOVE_0 := Table(true, 0, 0, 0, 0, 0, (1, 2), false, 100, 1)
  /** After the dealer raises by 2 to 4. */
  const SHOVE_1 := Table(true, 0, 1, 0, 0, 0, (4, 2), false, 100, 1)
  /** After the big blind raises by 95 to 99. */
  const SHOVE_2 := Table(true, 0, 0, 0, 0, 0, (4, 99), false, 100, 1)
  /** After the dealer's raise is capped at 1 chip, all-in at 100: the big blind faces a call of 1. */
  const SHOVE_3 := Table(true, 0, 1, 0, 0, 0, (100, 99), false, 100, 1)

  /** The deal of the first hand gives SHOVE_0. */
  lemma ShoveDealt()
    ensures Dealt(Table(false, 0, 0, 0, 0, 0, (0, 0), false, 100, 0), 1) == SHOVE_0
  {
  }

  /** The dealer's raise by 2 gives SHOVE_1. */
  lemma ShoveRaise1()
    ensures AfterRaise(SHOVE_0, 2) == SHOVE_1
  {
    assert MaxRaise(SHOVE_0) == 98;
  }

  /** The big blind's raise by 95 gives SHOVE_2. */
  lemma ShoveRaise2()
    ensures AfterRaise(SHOVE_1, 95) == SHOVE_2
  {
    assert MaxRaise(SHOVE_1) == 96;
  }

  /** The dealer's raise by 95 is capped at the one chip left, giving SHOVE_3. */
  lemma ShoveRaise3()
    ensures AfterRaise(SHOVE_2, 95) == SHOVE_3
  {
    assert MaxRaise(SHOVE_2) == 1;
  }

  /**
   * As written, the big blind's one-chip call of an all-in re-raise does not close the round:
   * both players are all-in with 100 chips each still in the bets, the loop then skips to the
   * showdown, and the showdown pays from an empty pot, so player 0 wins nothing with the better
   * hand (and the showdown's assertion that no bets are open fails).
   */
  lemma OneChipCallLeftOpen()
    ensures ToCall(SHOVE_3) == 1 && CallAllIn(SHOVE_3)
    ensures !ClosingAsWritten(SHOVE_3.round, SHOVE_3.player, SHOVE_3.dealer, ToCall(SHOVE_3))
    ensures var u := CallWith(SHOVE_3, false);
      u.bets == (100, 100) && u.allin && u.pot == 0
      && AfterShowdown(u.(round := SHOWDOWN)).bankroll == 0
  {
    var u := CallWith(SHOVE_3, false);
    assert u.bets == (100, 100);
  }

  /**
   * With the corrected rule the same call closes the round: the 200 chips go into the pot and
   * the showdown pays player 0 the 100 the other player put in.
   */
  lemma OneChipCallCloses()
    ensures Closes(SHOVE_3)
    ensures var u := AfterCall(SHOVE_3);
      u.pot == 200 && u.bets == (0, 0) && u.allin
      && AfterShowdown(u.(round := SHOWDOWN)).bankroll == 100
  {
    assert Closes(SHOVE_3);
    var u := AfterCall(SHOVE_3);
    assert u == CallWith(SHOVE_3, true);
    assert u.pot == 200 && u.bets == (0, 0) && u.allin;
  }

  /** The referee: its fields updated in place by the actors' fold, call and raise. */
  class Game {
    var running: bool
    var round: int
    var player: int
    var pot: int
    var bankroll: int
    var dealer: int
    var result: int
    const stackSize: int
    const bets: array<int>
    var allin: bool

    /** The fields as a Table. */
    ghost function State(): Table
      reads this, bets
      requires bets.Length == 2
    {
      Table(running, round, player, pot, bankroll, dealer, (bets[0], bets[1]), allin, stackSize, result)
    }

    ghost predicate Valid()
      reads this, bets
    {
      bets.Length == 2 && Inv(State())
    }

    /** nlhe_game(stack_size): dealer 0, bankroll 0, not all-in, no hand running. */
    constructor(stackSize: int)
      requires stackSize >= 2
      ensures Valid() && fresh(bets)
      ensures !running && dealer == 0 && bankroll == 0 && !allin && this.stackSize == stackSize
    {
      this.stackSize := stackSize;
      bets := new int[2](_ => 0);
      dealer := 0;
      bankroll := 0;
      allin := false;
      running := false;
      round := 0;
      player := 0;
      pot := 0;
      result := 0;
    }

    /** fold(). */
    method Fold()
      requires Valid()
      modifies this
      ensures Valid() && State() == AfterFold(old(State()))
    {
      bankroll := bankroll + (if player == 0 then -1 else 1) * (pot / 2 + bets[player]);
      running := false;
      dealer := 1 - dealer;
    }

    /** call(), with the corrected closing rule. */
    method Call()
      requires Valid() && running && !allin
      modifies this, bets
      ensures State() == AfterCall(old(State()))
    {
      var thisPlayer := player;
      var toCall := bets[1 - player] - bets[player];
      var closing := ClosingAsWritten(round, player, dealer, toCall) || pot / 2 + bets[1 - player] == stackSize;
      bets[player] := bets[1 - player];
      allin := pot / 2 + bets[player] == stackSize;
      if closing {
        pot := pot + bets[0] + bets[1];
        bets[0] := 0;
        bets[1] := 0;
        round := round + 1;
        player := 1 - dealer;
      } else {
        player := 1 - player;
      }
    }

    /** raise(amount). */
    method Raise(amount: int)
      requires Valid() && running && !allin
      modifies this, bets
      ensures State() == AfterRaise(old(State()), amount)
    {
      var toCall := bets[1 - player] - bets[player];
      var minRaise := MaxInt(2, toCall);
      if amount < minRaise {
        Call();
        return;
      }
      if toCall + bets[player] + pot / 2 == stackSize {
        Call();
        return;
      }
      var maxRaise := stackSize - pot / 2 - bets[1 - player];
      var raised := MinInt(amount, maxRaise);
      var isAllin := pot / 2 + bets[1 - player] + raised >= stackSize;
      if isAllin {
        raised := stackSize - pot / 2 - bets[1 - player];
      }
      bets[player] := bets[1 - player] + raised;
      player := 1 - player;
    }

    /** showdown(): its assertion that no bets are open is the precondition. */
    method Showdown()
      requires Valid() && bets[0] == 0 && bets[1] == 0
      modifies this
      ensures Valid() && State() == AfterShowdown(old(State()))
    {
      bankroll := bankroll + TruncDiv(result * pot, 2);
      running := false;
      dealer := 1 - dealer;
    }

    /** The start of play(): the blinds, the dealer to act in round 0, an empty pot. */
    method Deal(handResult: int)
      requires Valid() && -1 <= handResult <= 1
      modifies this, bets
      ensures Valid() && State() == Dealt(old(State()), handResult)
    {
      DealtInv(State(), handResult);
      bets[dealer] := 1;
      bets[1 - dealer] := 2;
      result := handResult;
      running := true;
      player := dealer;
      round := 0;
      pot := 0;
      allin := false;
    }

    /** One pass of the play loop (logging left out): the player acts, or with both all-in the round advances. */
    method TakeTurn(d: Decision)
      requires Valid() && running
      modifies this, bets
      ensures State() == AfterTurn(old(State()), d)
    {
      if !allin {
        match d {
          case Fold => Fold();
          case Call => Call();
          case Raise(amount) => Raise(amount);
        }
      } else {
        round := round + 1;
      }
      if round >= SHOWDOWN {
        running := false;
      }
    }

    /**
     * play(): post the blinds, let the actors act until a fold or round 4, and settle a hand that
     * reached round 4 by the showdown. Player 0's bankroll moves by at most one stack and the
     * dealer button moves exactly once.
     */
    method Play(handResult: int, strategy: View -> Decision)
      requires Valid() && -1 <= handResult <= 1
      modifies this, bets
      ensures Valid() && !running
      ensures dealer == 1 - old(dealer) && Abs(bankroll - old(bankroll)) <= stackSize
    {
      ghost var d0 := dealer;
      ghost var b0 := bankroll;
      Deal(handResult);
      while running
        invariant bets.Length == 2 && Played(State(), d0, b0)
        decreases Alive(State()), RoundsLeft(State()), Behind(State()), Pending(State())
      {
        ghost var before := State();
        var view := View(round, player, bets[1 - player] - bets[player], pot + bets[0] + bets[1], (bets[0], bets[1]));
        var d := strategy(view);
        TurnStep(before, d, d0, b0);
        TakeTurn(d);
      }
      if round == SHOWDOWN {
        SettleBounded(State());
        Showdown();
      }
    }
  }
}
