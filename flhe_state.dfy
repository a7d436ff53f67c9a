/**
 * The fixed-limit hold'em betting tree (flhe_state.cpp): four rounds, blinds of one and two
 * chips with the big blind counted as the first raise, raises of 2 chips on the preflop and flop
 * and 4 on the turn and river, at most four raises per round.
 *
 * flhe_state.cpp keeps children_ indexed by action but counts them in child_count_, and the
 * traversal in game_state_base.cpp only looks at slots below child_count_; Slots, ChildCount and
 * VisitedSlots model that as written. The tree this module builds keeps the created children in
 * creation order (as leduc_state does), so every created child is reached.
 */
module FlheState {
  import opened Wrappers
  import opened GameTree

  const FOLD := 0
  const CALL := 1
  const RAISE := 2
  const ACTIONS := 3

  const PREFLOP := 0
  const FLOP := 1
  const TURN := 2
  const RIVER := 3

  /** The most raises create_child allows in one round. */
  const MAX_RAISES := 4

  /** A flhe_state's own fields besides id and children, plus what it reads of its parent. */
  datatype Info = Info(action: int, player: int, pot: Pot, round: int, raises: int,
                       hasParent: bool, parentRound: int, parentPlayer: int, terminal: bool)

  /** The root: small blind (player 0) to act, pots 1 and 2, the big blind counted as a raise. */
  const ROOT := Info(-1, 0, (1, 2), PREFLOP, 1, false, -1, -1, false)

  predicate IsPlayer(p: int)
  {
    p == 0 || p == 1
  }

  /** The raise size of a round, on top of the opponent's pot. */
  function RaiseSize(round: int): int
  {
    if round <= FLOP then 2 else 4
  }

  /** A check or call that follows a check or call of the same round. */
  predicate SecondCall(info: Info)
  {
    info.action == CALL && info.hasParent && info.round == info.parentRound
  }

  /**
   * create_child: the child for action, or nothing when the action is not open here. Only the
   * mover's pot changes (a call matches the opponent, a raise goes the round's raise size above
   * it); a call that closes the round starts the next one with the raise count reset.
   */
  function Child(info: Info, action: int): (r: Option<Info>)
    ensures r.Some? <==>
      !info.terminal && 0 <= action < ACTIONS && IsPlayer(info.player)
      && !(action == RAISE && info.raises == MAX_RAISES) && !(action == FOLD && info.action == CALL)
    ensures r.Some? ==>
      var c := r.value;
      c.action == action && c.hasParent && c.parentRound == info.round && c.parentPlayer == info.player
      && PotOf(c.pot, 1 - info.player) == PotOf(info.pot, 1 - info.player)
      && PotOf(c.pot, info.player) ==
        (if action == FOLD then PotOf(info.pot, info.player)
         else PotOf(info.pot, 1 - info.player) + (if action == RAISE then RaiseSize(info.round) else 0))
      && (c.round == info.round || c.round == info.round + 1)
      && (c.round == info.round + 1 <==> action == CALL && (info.action == RAISE || SecondCall(info)))
      && (c.round != info.round ==> c.player == 1 && c.raises == 0)
      && (c.round == info.round ==> c.player == 1 - info.player && c.raises == info.raises + (if action == RAISE then 1 else 0))
      && (c.terminal <==> action == FOLD || (action == CALL && info.round == RIVER && info.hasParent && info.parentRound == RIVER))
  {
    if info.terminal || !(0 <= action < ACTIONS) || !IsPlayer(info.player) then None
    else if action == RAISE && info.raises == MAX_RAISES then None
    else if action == FOLD && info.action == CALL then None
    else
      var terminal := action == FOLD || (action == CALL && info.round == RIVER && info.hasParent && info.parentRound == RIVER);
      var round :=
        if info.action == RAISE && action == CALL then info.round + 1
        else if action == CALL && SecondCall(info) then info.round + 1
        else info.round;
      var opponent := PotOf(info.pot, 1 - info.player);
      var pot :=
        if action == CALL then WithPot(info.pot, info.player, opponent)
        else if action == RAISE then WithPot(info.pot, info.player, opponent + RaiseSize(info.round))
        else info.pot;
      var player := if round != info.round then 1 else 1 - info.player;
      var raises := if round != info.round then 0 else if action == RAISE then info.raises + 1 else info.raises;
      Some(Info(action, player, pot, round, raises, true, info.round, info.player, terminal))
  }

  function IsTerminal(info: Info): bool
  {
    info.terminal
  }

  /** What the player to act must still put in to match the other player. */
  function Owed(info: Info): int
  {
    PotOf(info.pot, 1 - info.player) - PotOf(info.pot, info.player)
  }

  /**
   * The shape of every state: at most four raises a round; the root owes the small blind's one
   * chip; a raise leaves the next player owing the round's raise size; a check or call leaves
   * nothing owed; only a fold or a final call ends the hand, and a final call leaves equal pots.
   */
  predicate Valid(info: Info)
  {
    IsPlayer(info.player) && -1 <= info.action < ACTIONS && 0 <= info.raises <= MAX_RAISES
    && (info.action == -1 <==> !info.hasParent)
    && (!info.hasParent ==> info.round == PREFLOP && info.raises == 1 && info.player == 0 && Owed(info) == 1)
    && (info.action == RAISE ==> info.hasParent && info.round == info.parentRound && Owed(info) == RaiseSize(info.round))
    && (info.action == CALL ==> Owed(info) == 0)
    && (!info.terminal ==> PREFLOP <= info.round <= RIVER && info.action != FOLD)
    && (info.terminal ==> info.action == FOLD || (info.action == CALL && PotOf(info.pot, 0) == PotOf(info.pot, 1)))
    && (info.action == FOLD ==> info.terminal && info.hasParent && info.parentPlayer == 1 - info.player)
  }

  /** Progress through a hand: rounds, then raises within a round, then the second check of a round. */
  function Measure(info: Info): nat
  {
    if 0 <= info.round <= RIVER && 0 <= info.raises <= MAX_RAISES then
      (RIVER - info.round) * 12 + (MAX_RAISES - info.raises) * 2 + (if SecondCall(info) then 0 else 1)
    else 0
  }

  lemma ChildValid(info: Info, action: int)
    requires Valid(info) && Child(info, action).Some?
    ensures Valid(Child(info, action).value)
    ensures !Child(info, action).value.terminal ==> Measure(Child(info, action).value) < Measure(info)
  {
  }

  lemma ChildDecreasing()
    ensures Decreasing(Child, IsTerminal, ACTIONS, Measure, Valid)
  {
    forall i, a | Valid(i) && 0 <= a < ACTIONS && Child(i, a).Some? && !IsTerminal(Child(i, a).value)
      ensures Valid(Child(i, a).value) && Measure(Child(i, a).value) < Measure(i)
    {
      ChildValid(i, a);
    }
  }

  /** The flhe_state constructor: the whole tree, its non-terminal states numbered from 0 in preorder. */
  method NewTree() returns (root: Node<Info>)
    ensures root.id == 0 && root.info == ROOT
    ensures Follows(Child, IsTerminal, ACTIONS, root)
    ensures NumberedFrom(Preorder(root), 0)
  {
    ChildDecreasing();
    var next;
    root, next := Build(Child, IsTerminal, ACTIONS, Measure, Valid, ROOT, 0);
  }

  /** Every state of the built tree is valid: in particular no round has more than four raises. */
  lemma TreeValid(root: Node<Info>)
    requires Follows(Child, IsTerminal, ACTIONS, root) && root.info == ROOT
    ensures Everywhere(root, Valid)
  {
    RootValid();
    SubtreeValid(root);
  }

  lemma RootValid()
    ensures Valid(ROOT)
  {
  }

  /** Every state below a valid state of a built tree is valid. */
  lemma SubtreeValid(n: Node<Info>)
    requires Follows(Child, IsTerminal, ACTIONS, n) && Valid(n.info)
    ensures Everywhere(n, Valid)
  {
    ChildClosed();
    FollowsEverywhere(Child, IsTerminal, ACTIONS, n, Valid);
  }

  /** Valid is kept by every child create_child makes. */
  lemma ChildClosed()
    ensures forall i, a :: Valid(i) && 0 <= a < ACTIONS && Child(i, a).Some? ==> Valid(Child(i, a).value)
  {
    forall i, a | Valid(i) && 0 <= a < ACTIONS && Child(i, a).Some?
      ensures Valid(Child(i, a).value)
    {
      ChildValid(i, a);
    }
  }

  /** A new round comes only from a call, and is opened by player 1 with the raise count reset. */
  lemma NewRound(info: Info, action: int)
    requires Valid(info) && Child(info, action).Some? && Child(info, action).value.round != info.round
    ensures action == CALL && Child(info, action).value.round == info.round + 1
    ensures Child(info, action).value.player == 1 && Child(info, action).value.raises == 0
    ensures info.action == RAISE || SecondCall(info)
  {
  }

  /** children_ as flhe_state.cpp fills it: slot a is non-null exactly when create_child made a child for a. */
  function Slots(info: Info): (r: seq<bool>)
    ensures |r| == ACTIONS
    ensures forall a :: 0 <= a < ACTIONS ==> (r[a] <==> Child(info, a).Some?)
  {
    [Child(info, FOLD).Some?, Child(info, CALL).Some?, Child(info, RAISE).Some?]
  }

  /** child_count_: the number of children created, whatever slots they sit in. */
  function ChildCount(info: Info): (c: nat)
    ensures c == |Created(Child, info, ACTIONS)|
  {
    assert Created(Child, info, 1) == (if Child(info, 0).Some? then [Child(info, 0).value] else []);
    assert Created(Child, info, 2) == Created(Child, info, 1) + (if Child(info, 1).Some? then [Child(info, 1).value] else []);
    (if Child(info, FOLD).Some? then 1 else 0) + (if Child(info, CALL).Some? then 1 else 0)
    + (if Child(info, RAISE).Some? then 1 else 0)
  }

  /** The slots get_state_vector pushes, as written: the non-null ones below child_count_. */
  function VisitedSlots(info: Info): (r: set<int>)
    ensures forall a :: a in r <==> 0 <= a < ChildCount(info) && 0 <= a < ACTIONS && Slots(info)[a]
  {
    set a | 0 <= a < ChildCount(info) && 0 <= a < ACTIONS && Slots(info)[a]
  }

  /**
   * As written, every non-terminal state reached by a check or call with a raise still open has
   * a RAISE child that the traversal never visits: there is no FOLD child, so the CALL and RAISE
   * children sit in slots 1 and 2 while child_count_ is 2.
   */
  lemma RaiseSkippedAfterCall(info: Info)
    requires Valid(info) && !info.terminal && info.action == CALL && info.raises < MAX_RAISES
    ensures Slots(info) == [false, true, true] && ChildCount(info) == 2
    ensures Child(info, RAISE).Some? && RAISE !in VisitedSlots(info)
  {
  }

  /** The state after the small blind limps: player 1 to act, pots 2 and 2, still one raise. */
  const LIMP := Info(CALL, 1, (2, 2), PREFLOP, 1, true, PREFLOP, 0, false)

  /** The limp is the root's CALL child. */
  lemma RootLimp()
    ensures Child(ROOT, CALL) == Some(LIMP)
  {
  }

  /** The limp is the first state whose RAISE subtree the traversal, as written, never numbers. */
  lemma LimpRaiseSkipped()
    ensures Slots(LIMP)[RAISE] && RAISE !in VisitedSlots(LIMP)
  {
    assert Valid(LIMP);
    RaiseSkippedAfterCall(LIMP);
  }

  /**
   * In the tree this module builds, the children of a state are exactly the ones created, in
   * action order, so child_count is their number and the traversal reaches each of them; after a
   * check or call with a raise open that is the CALL child followed by the RAISE child.
   */
  lemma CreatedChildren(info: Info)
    requires Valid(info) && !info.terminal
    ensures |Created(Child, info, ACTIONS)| == ChildCount(info)
    ensures info.action == CALL && info.raises < MAX_RAISES ==>
      Created(Child, info, ACTIONS) == [Child(info, CALL).value, Child(info, RAISE).value]
  {
    assert Created(Child, info, 1) == (if Child(info, 0).Some? then [Child(info, 0).value] else []);
    assert Created(Child, info, 2) == Created(Child, info, 1) + (if Child(info, 1).Some? then [Child(info, 1).value] else []);
  }

  /**
   * get_terminal_ev: player 0's winnings at a terminal state, given the showdown result. The
   * folder forfeits their own stake; a called showdown with equal stakes moves one stake by the
   * result.
   */
  function TerminalEv(info: Info, result: int): (ev: int)
    requires info.terminal
    ensures info.action == FOLD && IsPlayer(info.parentPlayer) ==>
      ev == (if info.parentPlayer == 0 then -1 else 1) * PotOf(info.pot, info.parentPlayer)
    ensures info.action == CALL && PotOf(info.pot, 0) == PotOf(info.pot, 1) ==> ev == result * PotOf(info.pot, 1)
    ensures info.action != FOLD && info.action != CALL ==> ev == 0
  {
    if info.action == FOLD then (if info.parentPlayer == 1 then PotOf(info.pot, 1) else -PotOf(info.pot, 0))
    else if info.action == CALL then result * PotOf(info.pot, 0)
    else 0
  }

  /**
   * A terminal state is a fold or a call with equal pots (the assert in get_terminal_ev), so the showdown
   * value is the same whichever player's pot it is read from.
   */
  lemma TerminalEvBalanced(info: Info, result: int)
    requires Valid(info) && info.terminal
    ensures info.action == FOLD || info.action == CALL
    ensures info.action == CALL ==> TerminalEv(info, result) == result * PotOf(info.pot, 1)
    ensures info.action == FOLD ==>
      TerminalEv(info, result) == (if info.parentPlayer == 0 then -PotOf(info.pot, 0) else PotOf(info.pot, 1))
  {
  }
}
