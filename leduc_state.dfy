/**
 * The Leduc hold'em betting tree (leduc_state.cpp): two rounds (PREFLOP, FLOP), each player antes
 * one chip, raises are 2 chips preflop and 4 on the flop, at most two raises per round. Children
 * are kept in creation order, so get_child(i) is the i-th child created.
 */
module LeducState {
  import opened Wrappers
  import opened GameTree

  const FOLD := 0
  const CALL := 1
  const RAISE := 2
  const ACTIONS := 3

  const PREFLOP := 0
  const FLOP := 1

  /** The most raises create_child allows in one round. */
  const MAX_RAISES := 2

  /**
   * What a leduc_state holds besides its id and children, plus what it reads of its parent
   * (whether there is one, its round and its player).
   */
  datatype Info = Info(action: int, player: int, pot: Pot, round: int, raises: int,
                       hasParent: bool, parentRound: int, parentPlayer: int, terminal: bool)

  /** The root: no action, player 0 to act, one chip each, preflop, no raises. */
  const ROOT := Info(-1, 0, (1, 1), PREFLOP, 0, false, -1, -1, false)

  predicate IsPlayer(p: int)
  {
    p == 0 || p == 1
  }

  /** The raise size of a round, on top of the opponent's pot. */
  function RaiseSize(round: int): int
  {
    if round == PREFLOP then 2 else 4
  }

  /** A check or call that follows a check or call of the same round. */
  predicate SecondCall(info: Info)
  {
    info.action == CALL && info.hasParent && info.round == info.parentRound
  }

  /**
   * create_child: the child for action, or nothing when the action is not open here. Only the
   * mover's pot changes (a call matches the opponent, a raise goes the round's raise size above
   * it); a call that closes the round starts the next one with the raise count reset.
   */
  function Child(info: Info, action: int): (r: Option<Info>)
    ensures r.Some? <==>
      !info.terminal && 0 <= action < ACTIONS && IsPlayer(info.player)
      && !(action == RAISE && info.raises == MAX_RAISES) && !(action == FOLD && (info.action == CALL || !info.hasParent))
    ensures r.Some? ==>
      var c := r.value;
      c.action == action && c.hasParent && c.parentRound == info.round && c.parentPlayer == info.player
      && PotOf(c.pot, 1 - info.player) == PotOf(info.pot, 1 - info.player)
      && PotOf(c.pot, info.player) ==
        (if action == FOLD then PotOf(info.pot, info.player)
         else PotOf(info.pot, 1 - info.player) + (if action == RAISE then RaiseSize(info.round) else 0))
      && (c.round == info.round || c.round == info.round + 1)
      && (c.round == info.round + 1 <==> action == CALL && (info.action == RAISE || SecondCall(info)))
      && (c.round != info.round ==> c.player == 0 && c.raises == 0)
      && (c.round == info.round ==> c.player == 1 - info.player && c.raises == info.raises + (if action == RAISE then 1 else 0))
      && (c.terminal <==> action == FOLD || (action == CALL && info.round == FLOP && info.hasParent && info.parentRound == FLOP))
  {
    if info.terminal || !(0 <= action < ACTIONS) || !IsPlayer(info.player) then None
    else if action == RAISE && info.raises == MAX_RAISES then None
    else if action == FOLD && (info.action == CALL || !info.hasParent) then None
    else
      var terminal := action == FOLD || (action == CALL && info.round == FLOP && info.hasParent && info.parentRound == FLOP);
      var round :=
        if info.action == RAISE && action == CALL then info.round + 1
        else if action == CALL && SecondCall(info) then info.round + 1
        else info.round;
      var opponent := PotOf(info.pot, 1 - info.player);
      var pot :=
        if action == CALL then WithPot(info.pot, info.player, opponent)
        else if action == RAISE then WithPot(info.pot, info.player, opponent + RaiseSize(info.round))
        else info.pot;
      var player := if round != info.round then 0 else 1 - info.player;
      var raises := if round != info.round then 0 else if action == RAISE then info.raises + 1 else info.raises;
      Some(Info(action, player, pot, round, raises, true, info.round, info.player, terminal))
  }

  function IsTerminal(info: Info): bool
  {
    info.terminal
  }

  /** What the player to act must still put in to match the other player. */
  function Owed(info: Info): int
  {
    PotOf(info.pot, 1 - info.player) - PotOf(info.pot, info.player)
  }

  /**
   * The shape of every state: the raise count stays within the limit; a raise leaves the next
   * player owing exactly the round's raise size and happens within its parent's round; a check or
   * call leaves nothing owed; only a fold or a final call ends the hand, and a final call leaves
   * equal pots.
   */
  predicate Valid(info: Info)
  {
    IsPlayer(info.player) && -1 <= info.action < ACTIONS && 0 <= info.raises <= MAX_RAISES
    && (info.action == -1 <==> !info.hasParent)
    && (!info.hasParent ==> info.round == PREFLOP && info.raises == 0 && Owed(info) == 0)
    && (info.action == RAISE ==> info.hasParent && info.round == info.parentRound && Owed(info) == RaiseSize(info.round))
    && (info.action == CALL ==> Owed(info) == 0)
    && (!info.terminal ==> PREFLOP <= info.round <= FLOP && info.action != FOLD)
    && (info.terminal ==> info.action == FOLD || (info.action == CALL && PotOf(info.pot, 0) == PotOf(info.pot, 1)))
    && (info.action == FOLD ==> info.terminal && info.hasParent && info.parentPlayer == 1 - info.player)
  }

  /** Progress through a hand: rounds, then raises within a round, then the second check of a round. */
  function Measure(info: Info): nat
  {
    if 0 <= info.round <= 1 && 0 <= info.raises <= MAX_RAISES then
      (1 - info.round) * 6 + (MAX_RAISES - info.raises) * 2 + (if SecondCall(info) then 0 else 1)
    else 0
  }

  lemma ChildValid(info: Info, action: int)
    requires Valid(info) && Child(info, action).Some?
    ensures Valid(Child(info, action).value)
    ensures !Child(info, action).value.terminal ==> Measure(Child(info, action).value) < Measure(info)
  {
  }

  lemma ChildDecreasing()
    ensures Decreasing(Child, IsTerminal, ACTIONS, Measure, Valid)
  {
    forall i, a | Valid(i) && 0 <= a < ACTIONS && Child(i, a).Some? && !IsTerminal(Child(i, a).value)
      ensures Valid(Child(i, a).value) && Measure(Child(i, a).value) < Measure(i)
    {
      ChildValid(i, a);
    }
  }

  /** The leduc_state constructor: the whole tree, its non-terminal states numbered from 0 in preorder. */
  method NewTree() returns (root: Node<Info>)
    ensures root.id == 0 && root.info == ROOT
    ensures Follows(Child, IsTerminal, ACTIONS, root)
    ensures NumberedFrom(Preorder(root), 0)
  {
    ChildDecreasing();
    var next;
    root, next := Build(Child, IsTerminal, ACTIONS, Measure, Valid, ROOT, 0);
  }

  /** Every state of the built tree is valid: in particular no round has more than two raises. */
  lemma TreeValid(root: Node<Info>)
    requires Follows(Child, IsTerminal, ACTIONS, root) && root.info == ROOT
    ensures Everywhere(root, Valid)
  {
    RootValid();
    SubtreeValid(root);
  }

  lemma RootValid()
    ensures Valid(ROOT)
  {
  }

  /** Every state below a valid state of a built tree is valid. */
  lemma SubtreeValid(n: Node<Info>)
    requires Follows(Child, IsTerminal, ACTIONS, n) && Valid(n.info)
    ensures Everywhere(n, Valid)
  {
    ChildClosed();
    FollowsEverywhere(Child, IsTerminal, ACTIONS, n, Valid);
  }

  /** Valid is kept by every child create_child makes. */
  lemma ChildClosed()
    ensures forall i, a :: Valid(i) && 0 <= a < ACTIONS && Child(i, a).Some? ==> Valid(Child(i, a).value)
  {
    forall i, a | Valid(i) && 0 <= a < ACTIONS && Child(i, a).Some?
      ensures Valid(Child(i, a).value)
    {
      ChildValid(i, a);
    }
  }

  /**
   * get_child(i) is the i-th child created: at the root (no fold) child 0 is the CALL child and
   * child 1 the RAISE child; facing a raise the children are FOLD, CALL and, below the limit, RAISE.
   */
  lemma ChildOrder(info: Info)
    requires Valid(info) && !info.terminal
    ensures !info.hasParent ==>
      |Created(Child, info, ACTIONS)| == 2 && Created(Child, info, ACTIONS)[0].action == CALL && Created(Child, info, ACTIONS)[1].action == RAISE
    ensures info.action == RAISE ==>
      Created(Child, info, ACTIONS)[0].action == FOLD && |Created(Child, info, ACTIONS)| == (if info.raises == MAX_RAISES then 2 else 3)
  {
    assert Created(Child, info, 1) == (if Child(info, 0).Some? then [Child(info, 0).value] else []);
    assert Created(Child, info, 2) == Created(Child, info, 1) + [Child(info, 1).value];
  }

  /** A new round is opened by player 0 with the raise count reset. */
  lemma NewRound(info: Info, action: int)
    requires Valid(info) && Child(info, action).Some? && Child(info, action).value.round != info.round
    ensures action == CALL && Child(info, action).value.round == info.round + 1
    ensures Child(info, action).value.player == 0 && Child(info, action).value.raises == 0
  {
  }

  /**
   * get_terminal_ev: player 0's winnings at a terminal state, given the showdown result. The
   * folder forfeits their own stake; a called showdown with equal stakes moves one stake by the
   * result.
   */
  function TerminalEv(info: Info, result: int): (ev: int)
    requires info.terminal
    ensures info.action == FOLD && IsPlayer(info.parentPlayer) ==>
      ev == (if info.parentPlayer == 0 then -1 else 1) * PotOf(info.pot, info.parentPlayer)
    ensures info.action == CALL && PotOf(info.pot, 0) == PotOf(info.pot, 1) ==> ev == result * PotOf(info.pot, 1)
    ensures info.action != FOLD && info.action != CALL ==> ev == 0
  {
    if info.action == FOLD then (if info.parentPlayer == 1 then PotOf(info.pot, 1) else -PotOf(info.pot, 0))
    else if info.action == CALL then result * PotOf(info.pot, 0)
    else 0
  }

  /**
   * A terminal state is a fold or a call with equal pots (the assert in get_terminal_ev), so the showdown
   * value is the same whichever player's pot it is read from, and a fold pays the folder's
   * opponent the folder's stake.
   */
  lemma TerminalEvBalanced(info: Info, result: int)
    requires Valid(info) && info.terminal
    ensures info.action == FOLD || info.action == CALL
    ensures info.action == CALL ==> TerminalEv(info, result) == result * PotOf(info.pot, 1)
    ensures info.action == FOLD ==>
      TerminalEv(info, result) == (if info.parentPlayer == 0 then -PotOf(info.pot, 0) else PotOf(info.pot, 1))
  {
  }
}
