/**
 * The Kuhn poker betting tree (kuhn_state.cpp): each player antes one chip, then the players
 * alternately PASS or BET one chip. Every state offers both actions; a repeated action (pass-pass,
 * bet-bet) ends in a showdown and a pass after a bet is a fold.
 */
module KuhnState {
  import opened Wrappers
  import opened GameTree

  const PASS := 0
  const BET := 1
  const ACTIONS := 2

  /**
   * What a kuhn_state holds besides its id and children: the action that led to it, the player to
   * act, the pot, and the parent's action and player (read by get_terminal_ev).
   */
  datatype Info = Info(action: int, player: int, pot: Pot, parentAction: int, parentPlayer: int, terminal: bool)

  /** The root: no action yet, player 0 to act, one chip ante each. */
  const ROOT := Info(-1, 0, (1, 1), -1, -1, false)

  predicate IsPlayer(p: int)
  {
    p == 0 || p == 1
  }

  /**
   * create_child: the child for action, or nothing when the state is terminal. The other player
   * acts next, only the mover's pot grows (by one chip on a bet), and the child ends the hand
   * when it repeats its parent's action or passes after a bet.
   */
  function Child(info: Info, action: int): (r: Option<Info>)
    ensures r.Some? <==> !info.terminal && 0 <= action < ACTIONS && IsPlayer(info.player)
    ensures r.Some? ==>
      var c := r.value;
      c.action == action && c.player == 1 - info.player
      && c.parentAction == info.action && c.parentPlayer == info.player
      && PotOf(c.pot, info.player) == PotOf(info.pot, info.player) + (if action == BET then 1 else 0)
      && PotOf(c.pot, 1 - info.player) == PotOf(info.pot, 1 - info.player)
      && (c.terminal <==> action == info.action || (info.action == BET && action == PASS))
  {
    if info.terminal || !(0 <= action < ACTIONS) || !IsPlayer(info.player) then None
    else
      var pot := if action == BET then WithPot(info.pot, info.player, PotOf(info.pot, info.player) + 1) else info.pot;
      var terminal := info.action == action || (info.action == BET && action == PASS);
      Some(Info(action, 1 - info.player, pot, info.action, info.player, terminal))
  }

  function IsTerminal(info: Info): bool
  {
    info.terminal
  }

  /** What the player to act must still put in to match the other player. */
  function Owed(info: Info): int
  {
    PotOf(info.pot, 1 - info.player) - PotOf(info.pot, info.player)
  }

  /**
   * The shape of every state of the tree: a non-terminal state owes one chip exactly after a bet;
   * a showdown has equal pots; at a fold the folder has put in one chip less than the bettor.
   */
  predicate Valid(info: Info)
  {
    IsPlayer(info.player) && -1 <= info.action < ACTIONS
    && PotOf(info.pot, 0) >= 1 && PotOf(info.pot, 1) >= 1
    && (!info.terminal ==> Owed(info) == if info.action == BET then 1 else 0)
    && (info.terminal ==>
          info.player == 1 - info.parentPlayer
          && (info.action == info.parentAction ==> Owed(info) == 0)
          && (info.action != info.parentAction ==> info.parentAction == BET && info.action == PASS && Owed(info) == -1))
  }

  /** Actions only move forward through the tree: PASS then BET, or one of them from the root. */
  function Measure(info: Info): nat
  {
    if -1 <= info.action <= 1 then 2 - info.action else 0
  }

  lemma ChildValid(info: Info, action: int)
    requires Valid(info) && Child(info, action).Some?
    ensures Valid(Child(info, action).value)
  {
  }

  /** Every non-terminal child is valid and one step further along. */
  lemma ChildDecreasing()
    ensures Decreasing(Child, IsTerminal, ACTIONS, Measure, Valid)
  {
    forall i, a | Valid(i) && 0 <= a < ACTIONS && Child(i, a).Some? && !IsTerminal(Child(i, a).value)
      ensures Valid(Child(i, a).value) && Measure(Child(i, a).value) < Measure(i)
    {
      ChildValid(i, a);
    }
  }

  /** The kuhn_state constructor: the whole tree, its non-terminal states numbered from 0 in preorder. */
  method NewTree() returns (root: Node<Info>)
    ensures root.id == 0 && root.info == ROOT
    ensures Follows(Child, IsTerminal, ACTIONS, root)
    ensures NumberedFrom(Preorder(root), 0)
  {
    ChildDecreasing();
    var next;
    root, next := Build(Child, IsTerminal, ACTIONS, Measure, Valid, ROOT, 0);
  }

  /** Every state of the built tree is valid. */
  lemma TreeValid(root: Node<Info>)
    requires Follows(Child, IsTerminal, ACTIONS, root) && root.info == ROOT
    ensures Everywhere(root, Valid)
  {
    RootValid();
    SubtreeValid(root);
  }

  lemma RootValid()
    ensures Valid(ROOT)
  {
  }

  /** Every state below a valid state is valid. */
  lemma SubtreeValid(n: Node<Info>)
    requires Follows(Child, IsTerminal, ACTIONS, n) && Valid(n.info)
    ensures Everywhere(n, Valid)
  {
    ChildClosed();
    FollowsEverywhere(Child, IsTerminal, ACTIONS, n, Valid);
  }

  /** Every child create_child makes from a valid state is valid. */
  lemma ChildClosed()
    ensures forall i, a :: Valid(i) && 0 <= a < ACTIONS && Child(i, a).Some? ==> Valid(Child(i, a).value)
  {
    forall i, a | Valid(i) && 0 <= a < ACTIONS && Child(i, a).Some?
      ensures Valid(Child(i, a).value)
    {
      ChildValid(i, a);
    }
  }

  /** Both actions are open at every non-terminal state, so child_count is 2 and get_child(a) is the child for a. */
  lemma TwoChildren(info: Info)
    requires Valid(info) && !info.terminal
    ensures |Created(Child, info, ACTIONS)| == ACTIONS
    ensures forall a :: 0 <= a < ACTIONS ==> Created(Child, info, ACTIONS)[a].action == a
  {
    assert Created(Child, info, 1) == [Child(info, 0).value];
  }

  /**
   * get_terminal_ev: player 0's winnings at a terminal state, given the showdown result (1, 0 or
   * -1). At a showdown with equal stakes the loser pays the winner one stake; after a bet and a
   * pass the passer forfeits their own stake.
   */
  function TerminalEv(info: Info, result: int): (ev: int)
    requires info.terminal
    ensures info.parentAction == info.action && PotOf(info.pot, 0) == PotOf(info.pot, 1) ==>
      ev == result * PotOf(info.pot, 1)
    ensures info.parentAction == BET && info.action == PASS && IsPlayer(info.parentPlayer) ==>
      ev == (if info.parentPlayer == 0 then -1 else 1) * PotOf(info.pot, info.parentPlayer)
    ensures info.parentAction != info.action && !(info.parentAction == BET && info.action == PASS) ==> ev == 0
  {
    if info.parentAction == info.action then result * PotOf(info.pot, 0)
    else if info.parentAction == BET && info.action == PASS then
      (if info.parentPlayer == 0 then -PotOf(info.pot, 0) else PotOf(info.pot, 1))
    else 0
  }

  /**
   * At a showdown both players have put in the same amount; at a fold the folder loses what they
   * put in and the bettor wins the folder's stake plus nothing more.
   */
  lemma TerminalEvBalanced(info: Info, result: int)
    requires Valid(info) && info.terminal
    ensures info.action == info.parentAction ==> TerminalEv(info, result) == result * PotOf(info.pot, 1)
    ensures info.action != info.parentAction ==>
      TerminalEv(info, result) == (if info.parentPlayer == 0 then -PotOf(info.pot, 0) else PotOf(info.pot, 1))
      && PotOf(info.pot, info.parentPlayer) + 1 == PotOf(info.pot, 1 - info.parentPlayer)
  {
  }
}
