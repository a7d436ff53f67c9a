/**
 * The no-limit hold'em betting tree of the game library (gamelib nlhe_state.cpp): blinds of one
 * and two chips, a configured stack size, a configured set of enabled actions among fold, call
 * and nine raise sizes, and a set of limited small raises that each player may make once per
 * round. Children are kept in creation order; get_action_child finds a child by its action.
 *
 * The action constants, masks, raise factors and the configuration pattern are those of
 * NlheStateBase; the get_action_mask and get_raise_factor of this file are the same tables.
 */
module NlheState {
  import opened Wrappers
  import opened Arith
  import opened GameTree
  import opened NlheStateBase

  const PREFLOP := 0
  const RIVER := 3

  /** raise_masks_: the limited raises each player has already made in the current round. */
  datatype Masks = Masks(m0: set<int>, m1: set<int>)

  function MaskOf(m: Masks, player: int): set<int>
  {
    if player == 0 then m.m0 else m.m1
  }

  function WithMask(m: Masks, player: int, s: set<int>): (r: Masks)
    requires player == 0 || player == 1
    ensures MaskOf(r, player) == s && MaskOf(r, 1 - player) == MaskOf(m, 1 - player)
  {
    if player == 0 then Masks(s, m.m1) else Masks(m.m0, s)
  }

  /**
   * An nlhe_state's own fields besides id and children, plus what it reads of its parent
   * (whether there is one, its round and its player).
   */
  datatype Info = Info(action: int, player: int, pot: Pot, round: int, masks: Masks,
                       hasParent: bool, parentRound: int, parentPlayer: int, terminal: bool,
                       stackSize: int, enabled: set<int>, limited: set<int>)

  /** The root: no action, player 0 (the small blind) to act, pots 1 and 2, preflop, no limited raise used. */
  function Root(stackSize: int, enabled: set<int>, limited: set<int>): Info
  {
    Info(INVALID_ACTION, 0, (1, 2), PREFLOP, Masks({}, {}), false, -1, -1, false, stackSize, enabled, limited)
  }

  predicate IsPlayer(p: int)
  {
    p == 0 || p == 1
  }

  function Own(info: Info): int
  {
    PotOf(info.pot, info.player)
  }

  function Opp(info: Info): int
  {
    PotOf(info.pot, 1 - info.player)
  }

  /** What the player to act must still put in to match the other player. */
  function Owed(info: Info): int
  {
    Opp(info) - Own(info)
  }

  /** A check or call that follows a check or call of the same round. */
  predicate SecondCall(info: Info)
  {
    info.action == CALL && info.hasParent && info.round == info.parentRound
  }

  /** The smallest enabled action from a on, when there is one up to RAISE_A. */
  function NextEnabled(enabled: set<int>, a: int): (r: Option<int>)
    requires a >= 0
    ensures r.Some? ==> a <= r.value <= RAISE_A && r.value in enabled && forall b :: a <= b < r.value ==> b !in enabled
    ensures r.None? ==> forall b :: a <= b <= RAISE_A ==> b !in enabled
    decreases MAX_ACTIONS - a
  {
    if a > RAISE_A then None
    else if a in enabled then Some(a)
    else NextEnabled(enabled, a + 1)
  }

  /**
   * The do-while of create_child that finds the next larger enabled size; running past RAISE_A
   * asks get_action_mask for the mask of ACTIONS, which throws, and is returned as None.
   */
  method NextSizeAction(enabled: set<int>, action: int) returns (next: Option<int>)
    requires IsRaise(action) && action != RAISE_A
    ensures next == NextEnabled(enabled, action + 1)
  {
    var n := action;
    n := n + 1;
    while n <= RAISE_A && n !in enabled
      invariant action + 1 <= n <= MAX_ACTIONS
      invariant NextEnabled(enabled, action + 1) == NextEnabled(enabled, n)
      decreases MAX_ACTIONS - n
    {
      n := n + 1;
    }
    if n > RAISE_A {
      return None;
    }
    return Some(n);
  }

  /** The smallest raise create_child allows: 3 chips from the root, else twice the call or 2. */
  function MinRaise(toCall: int, isRoot: bool): int
  {
    if isRoot then 3 else if toCall == 0 then 2 else 2 * toCall
  }

  /** get_new_player_pot of this file: the mover's pot after a raise, rounded up, never above the stack. */
  function CeilPlayerPot(playerPot: int, toCall: int, inPot: int, action: int, stackSize: int): (r: int)
    requires IsRaise(action)
    ensures r <= stackSize
    ensures toCall >= 0 && inPot > 0 ==> r == stackSize || r > playerPot + toCall
  {
    MinInt(Ceil(playerPot as real + RaisedChips(toCall, inPot, RaiseFactor(action).value)), stackSize)
  }

  /**
   * The mover's new pot for a raise (the default branch of create_child), or nothing when the
   * raise is combined into the next larger enabled size because it would reach as far, or when no
   * larger size is enabled (where create_child throws).
   */
  function RaisePot(info: Info, action: int): (r: Option<int>)
    requires IsRaise(action) && IsPlayer(info.player)
    ensures r.Some? && 1 <= Own(info) <= Opp(info) < info.stackSize ==>
      Opp(info) < r.value <= info.stackSize
      && (r.value == info.stackSize || r.value - Own(info) >= MinRaise(Owed(info), info.action == INVALID_ACTION))
  {
    var own := Own(info);
    var toCall := Opp(info) - own;
    var inPot := Opp(info) + own - toCall;
    var newPot := CeilPlayerPot(own, toCall, inPot, action, info.stackSize);
    var next := if action == RAISE_A then Some(RAISE_A) else NextEnabled(info.enabled, action + 1);
    if next.None? then None
    else
      var maxPot := CeilPlayerPot(own, toCall, inPot, next.value, info.stackSize);
      var adjusted := if newPot < maxPot then MaxInt(own + MinRaise(toCall, info.action == INVALID_ACTION), newPot) else newPot;
      if adjusted >= maxPot && action != next.value then None
      else
        assert action == RAISE_A && 1 <= own <= Opp(info) < info.stackSize ==> AllInRaiseIsLarge(own, toCall, inPot, info.stackSize);
        Some(adjusted)
  }

  /** An all-in raise that stops short of the stack still adds at least a minimum raise. */
  predicate AllInRaiseIsLarge(own: int, toCall: int, inPot: int, stackSize: int)
    requires IsRaise(RAISE_A)
  {
    var p := CeilPlayerPot(own, toCall, inPot, RAISE_A, stackSize);
    p == stackSize || (p - own >= 2 * toCall && p - own >= 3)
  }

  /** The round after action: a call closes the round after a raise or after a check or call of the same round. */
  function NextRound(info: Info, action: int): int
  {
    if IsRaise(info.action) && action == CALL then info.round + 1
    else if info.action == CALL && action == CALL && info.hasParent && info.round == info.parentRound then info.round + 1
    else info.round
  }

  /** A limited small raise the player has already made this round. */
  predicate LimitUsed(masks: Masks, info: Info, action: int)
  {
    RAISE_O <= action < RAISE_P && action in info.limited && action in MaskOf(masks, info.player)
  }

  /** The masks of the child: a limited small raise is recorded for the mover. */
  function RecordLimit(masks: Masks, info: Info, action: int): Masks
    requires IsPlayer(info.player)
  {
    if RAISE_O <= action < RAISE_P && action in info.limited then WithMask(masks, info.player, MaskOf(masks, info.player) + {action})
    else masks
  }

  /** The pots after action: a fold leaves them, a call matches the opponent, a raise moves to RaisePot. */
  function NextPot(info: Info, action: int): Option<Pot>
    requires IsAction(action) && IsPlayer(info.player)
  {
    if action == FOLD then Some(info.pot)
    else if action == CALL then Some(WithPot(info.pot, info.player, Opp(info)))
    else
      match RaisePot(info, action)
      case None => None
      case Some(p) => Some(WithPot(info.pot, info.player, p))
  }

  /** A child ends the hand on a fold, on a river call after river action, or on the call of an all-in. */
  predicate EndsHand(info: Info, action: int)
  {
    action == FOLD
    || (action == CALL && info.round == RIVER && info.hasParent && info.parentRound == RIVER)
    || (action == CALL && Opp(info) == info.stackSize)
  }

  /**
   * create_child: the child for action, or nothing when the action is not open here: not enabled,
   * a raise against an all-in, a fold after a check, a limited raise already used this round, or a
   * raise merged into a larger size. The child records the action and its parent's round and
   * player, keeps the game's settings and the opponent's pot, and ends the hand exactly on a fold,
   * a river call after river action or the call of an all-in.
   */
  function Child(info: Info, action: int): (r: Option<Info>)
    ensures r.Some? ==>
      IsAction(action) && action in info.enabled && !info.terminal && IsPlayer(info.player)
      && !(IsRaise(action) && Opp(info) == info.stackSize) && !(action == FOLD && info.action == CALL)
    ensures r.Some? ==>
      var c := r.value;
      c.action == action && c.hasParent && c.parentRound == info.round && c.parentPlayer == info.player
      && c.stackSize == info.stackSize && c.enabled == info.enabled && c.limited == info.limited
      && PotOf(c.pot, 1 - info.player) == PotOf(info.pot, 1 - info.player)
      && (action == FOLD ==> c.pot == info.pot)
      && (action == CALL ==> PotOf(c.pot, info.player) == Opp(info))
      && (c.round == info.round || c.round == info.round + 1)
      && (c.round != info.round ==> action == CALL && c.player == 1 && c.masks == Masks({}, {}))
      && (c.round == info.round ==> c.player == 1 - info.player)
      && (c.terminal <==> EndsHand(info, action))
    ensures IsAction(action) && IsPlayer(info.player) && action in info.enabled && !info.terminal
            && (action == FOLD || action == CALL) && !(action == FOLD && info.action == CALL)
            ==> r.Some?
  {
    if !IsAction(action) || !IsPlayer(info.player) || action !in info.enabled || info.terminal then None
    else if IsRaise(action) && Opp(info) == info.stackSize then None
    else if action == FOLD && info.action == CALL then None
    else
      var round := NextRound(info, action);
      var masks := if round == info.round then info.masks else Masks({}, {});
      if LimitUsed(masks, info, action) then None
      else
        match NextPot(info, action)
        case None => None
        case Some(pot) =>
          var player := if round != info.round then 1 else 1 - info.player;
          Some(Info(action, player, pot, round, RecordLimit(masks, info, action), true, info.round, info.player,
                    EndsHand(info, action), info.stackSize, info.enabled, info.limited))
  }

  function IsTerminal(info: Info): bool
  {
    info.terminal
  }

  /**
   * The constructor does not throw: RAISE_A is enabled, or no raise is, or the opponent is all-in
   * so that no raise is tried.
   */
  predicate NoThrow(info: Info)
  {
    RAISE_A in info.enabled || (forall a :: IsRaise(a) ==> a !in info.enabled) || Opp(info) == info.stackSize
  }

  /**
   * The shape of every state: both pots between 1 and the stack; a call leaves the pots equal; a
   * raise stays within its parent's round and leaves the next player owing chips; a state still
   * to be played is in rounds PREFLOP to RIVER, owes nothing negative and cannot throw; only a
   * fold or a call ends the hand.
   */
  predicate Valid(info: Info)
  {
    IsPlayer(info.player) && INVALID_ACTION <= info.action <= RAISE_A && info.stackSize >= 2
    && 1 <= PotOf(info.pot, 0) <= info.stackSize && 1 <= PotOf(info.pot, 1) <= info.stackSize
    && (info.action == INVALID_ACTION <==> !info.hasParent)
    && (!info.hasParent ==> info.round == PREFLOP && info.player == 0 && info.pot == (1, 2))
    && (info.action == CALL ==> Owed(info) == 0)
    && (IsRaise(info.action) ==> info.round == info.parentRound && Owed(info) > 0)
    && (!info.terminal ==> PREFLOP <= info.round <= RIVER && info.action != FOLD && Owed(info) >= 0 && NoThrow(info))
    && (info.terminal ==> info.action == FOLD || info.action == CALL)
    && (info.action == FOLD ==> info.terminal && info.hasParent && info.parentPlayer == 1 - info.player)
  }

  /** Progress through a hand: rounds, chips still behind, then the second check of a round. */
  function Measure(info: Info): nat
  {
    var potSum := PotOf(info.pot, 0) + PotOf(info.pot, 1);
    if PREFLOP <= info.round <= RIVER && potSum <= 2 * info.stackSize then
      (RIVER - info.round) * 2 + (2 * info.stackSize - potSum) * 2 + (if SecondCall(info) then 0 else 1)
    else 0
  }

  lemma FoldChildValid(info: Info)
    requires Valid(info) && Child(info, FOLD).Some?
    ensures Valid(Child(info, FOLD).value) && Child(info, FOLD).value.terminal
  {
  }

  lemma CallChildValid(info: Info)
    requires Valid(info) && Child(info, CALL).Some?
    ensures Valid(Child(info, CALL).value)
    ensures !Child(info, CALL).value.terminal ==> Measure(Child(info, CALL).value) < Measure(info)
  {
  }

  lemma RaiseChildValid(info: Info, action: int)
    requires Valid(info) && IsRaise(action) && Child(info, action).Some?
    ensures Valid(Child(info, action).value)
    ensures !Child(info, action).value.terminal && Measure(Child(info, action).value) < Measure(info)
  {
    var r := RaisePot(info, action);
    assert r.Some?;
    assert Opp(info) < r.value <= info.stackSize;
  }

  lemma ChildValid(info: Info, action: int)
    requires Valid(info) && Child(info, action).Some?
    ensures Valid(Child(info, action).value)
    ensures !Child(info, action).value.terminal ==> Measure(Child(info, action).value) < Measure(info)
  {
    if action == FOLD {
      FoldChildValid(info);
    } else if action == CALL {
      CallChildValid(info);
    } else {
      RaiseChildValid(info, action);
    }
  }

  lemma ChildDecreasing()
    ensures Decreasing(Child, IsTerminal, MAX_ACTIONS, Measure, Valid)
  {
    forall i, a | Valid(i) && 0 <= a < MAX_ACTIONS && Child(i, a).Some? && !IsTerminal(Child(i, a).value)
      ensures Valid(Child(i, a).value) && Measure(Child(i, a).value) < Measure(i)
    {
      ChildValid(i, a);
    }
  }

  /**
   * The nlhe_state constructor: the whole tree, its non-terminal states numbered from 0 in
   * preorder; a configuration with an enabled raise but without RAISE_A makes it throw.
   */
  method NewTree(stackSize: int, enabled: set<int>, limited: set<int>) returns (r: Result<Node<Info>>)
    requires stackSize >= 2
    ensures r.Err? <==> !NoThrow(Root(stackSize, enabled, limited))
    ensures r.Ok? ==>
      r.value.id == 0 && r.value.info == Root(stackSize, enabled, limited)
      && Follows(Child, IsTerminal, MAX_ACTIONS, r.value) && NumberedFrom(Preorder(r.value), 0)
  {
    var root := Root(stackSize, enabled, limited);
    if !(RAISE_A in enabled || (forall a | RAISE_O <= a <= RAISE_A :: a !in enabled) || 2 == stackSize) {
      return Err("unknown action mask");
    }
    ChildDecreasing();
    var node, next := Build(Child, IsTerminal, MAX_ACTIONS, Measure, Valid, root, 0);
    return Ok(node);
  }

  /** Every state of a built tree is valid: pots never pass the stack and a call leaves them equal. */
  lemma TreeValid(root: Node<Info>, stackSize: int, enabled: set<int>, limited: set<int>)
    requires stackSize >= 2 && NoThrow(Root(stackSize, enabled, limited))
    requires Follows(Child, IsTerminal, MAX_ACTIONS, root) && root.info == Root(stackSize, enabled, limited)
    ensures Everywhere(root, Valid)
  {
    ChildClosed();
    FollowsEverywhere(Child, IsTerminal, MAX_ACTIONS, root, Valid);
  }

  /** Valid is kept by every child create_child makes. */
  lemma ChildClosed()
    ensures forall i, a :: Valid(i) && 0 <= a < MAX_ACTIONS && Child(i, a).Some? ==> Valid(Child(i, a).value)
  {
    forall i, a | Valid(i) && 0 <= a < MAX_ACTIONS && Child(i, a).Some?
      ensures Valid(Child(i, a).value)
    {
      ChildValid(i, a);
    }
  }

  /** No raise once the opponent is all-in, no fold after a check or call. */
  lemma ClosedActions(info: Info, action: int)
    ensures IsRaise(action) && Opp(info) == info.stackSize ==> Child(info, action).None?
    ensures action == FOLD && info.action == CALL ==> Child(info, action).None?
    ensures !IsAction(action) || action !in info.enabled || info.terminal ==> Child(info, action).None?
  {
  }

  /**
   * A child ends the hand exactly on a fold, a river call after river action or the call of an
   * all-in; a call matches the opponent's pot; a new round comes only from a call and is opened by
   * player 1 with no limited raise used.
   */
  lemma ChildShape(info: Info, action: int)
    requires Valid(info) && Child(info, action).Some?
    ensures var c := Child(info, action).value;
      (c.terminal <==> action == FOLD || (action == CALL && info.round == RIVER && info.parentRound == RIVER)
                       || (action == CALL && Opp(info) == info.stackSize))
      && (action == CALL ==> PotOf(c.pot, info.player) == Opp(info) && PotOf(c.pot, 1 - info.player) == Opp(info))
      && (c.round != info.round ==> action == CALL && c.round == info.round + 1 && c.player == 1 && c.masks == Masks({}, {}))
  {
  }

  /** A limited small raise a player has made this round is not offered to that player again. */
  lemma LimitedOnce(info: Info, action: int)
    requires RAISE_O <= action < RAISE_P && action in info.limited && action in MaskOf(info.masks, info.player)
    ensures Child(info, action).None?
  {
  }

  /** Making a limited small raise records it for the mover, and within a round nothing is forgotten. */
  lemma LimitRecorded(info: Info, action: int)
    requires Valid(info) && Child(info, action).Some?
    ensures var c := Child(info, action).value;
      (RAISE_O <= action < RAISE_P && action in info.limited ==> action in MaskOf(c.masks, info.player))
      && (c.round == info.round ==> MaskOf(info.masks, 0) <= MaskOf(c.masks, 0) && MaskOf(info.masks, 1) <= MaskOf(c.masks, 1))
  {
  }

  /** get_child(index): out of range (including any negative index, compared as unsigned) gives null. */
  function GetChild(n: Node<Info>, index: int): (r: Option<Node<Info>>)
    ensures r.Some? ==> 0 <= index < |n.children| && r == n.children[index]
    ensures 0 <= index < |n.children| ==> r == n.children[index]
  {
    if index < 0 || index >= |n.children| then None else n.children[index]
  }

  /** get_action_child: the first child whose action is action. */
  function ActionChild(children: seq<Option<Node<Info>>>, action: int): (r: Option<Node<Info>>)
    ensures r.Some? ==> r.value.info.action == action && r in children
  {
    if children == [] then None
    else if children[0].Some? && children[0].value.info.action == action then children[0]
    else ActionChild(children[1..], action)
  }

  /** The search returns the first child with the action. */
  lemma {:induction false} ActionChildAt(children: seq<Option<Node<Info>>>, action: int, k: nat)
    requires k < |children| && children[k].Some? && children[k].value.info.action == action
    requires forall j :: 0 <= j < k ==> children[j].Some? && children[j].value.info.action != action
    ensures ActionChild(children, action) == children[k]
  {
    if k > 0 {
      ActionChildAt(children[1..], action, k - 1);
    }
  }

  /** The search finds nothing when no child has the action. */
  lemma {:induction false} ActionChildAbsent(children: seq<Option<Node<Info>>>, action: int)
    requires forall j :: 0 <= j < |children| ==> children[j].Some? && children[j].value.info.action != action
    ensures ActionChild(children, action).None?
  {
    if children != [] {
      ActionChildAbsent(children[1..], action);
    }
  }

  /** Every child a rule creates carries the action it was created for. */
  ghost predicate Labelled(rule: (Info, int) -> Option<Info>, info: Info)
  {
    forall b :: rule(info, b).Some? ==> rule(info, b).value.action == b
  }

  /** create_child stores its action in the child. */
  lemma ChildLabelled(info: Info)
    ensures Labelled(Child, info)
  {
  }

  /** Created for a actions is created for a - 1 actions and then the state for action a - 1, if any. */
  lemma AppendCreated(rule: (Info, int) -> Option<Info>, info: Info, a: nat)
    requires a > 0
    ensures var prev := Created(rule, info, a - 1);
      Created(rule, info, a) == if rule(info, a - 1).Some? then prev + [rule(info, a - 1).value] else prev
  {
  }

  /** The states created for the actions below a are what the rule created for their own actions. */
  lemma {:induction false} CreatedOwn(rule: (Info, int) -> Option<Info>, info: Info, a: nat)
    requires Labelled(rule, info)
    ensures var c := Created(rule, info, a);
      forall j :: 0 <= j < |c| ==> 0 <= c[j].action < a && rule(info, c[j].action) == Some(c[j])
  {
    if a > 0 {
      CreatedOwn(rule, info, a - 1);
      AppendCreated(rule, info, a);
    }
  }

  /** The states are created in increasing action order. */
  lemma {:induction false} CreatedIncreasing(rule: (Info, int) -> Option<Info>, info: Info, a: nat)
    requires Labelled(rule, info)
    ensures var c := Created(rule, info, a);
      forall i, j :: 0 <= i < j < |c| ==> c[i].action < c[j].action
  {
    if a > 0 {
      CreatedIncreasing(rule, info, a - 1);
      CreatedOwn(rule, info, a - 1);
      AppendCreated(rule, info, a);
    }
  }

  /** Every action below a that the rule accepts has its state among those created, at index j. */
  lemma {:induction false} CreatedIndex(rule: (Info, int) -> Option<Info>, info: Info, a: nat, b: int) returns (j: nat)
    requires 0 <= b < a && rule(info, b).Some?
    ensures j < |Created(rule, info, a)| && Created(rule, info, a)[j] == rule(info, b).value
  {
    var prev := Created(rule, info, a - 1);
    if b == a - 1 {
      j := |prev|;
    } else {
      j := CreatedIndex(rule, info, a - 1, b);
    }
  }

  /** The search over the children a labelled rule built finds the child created for action. */
  lemma FindsCreated(rule: (Info, int) -> Option<Info>, n: Node<Info>, action: int)
    requires Follows(rule, IsTerminal, MAX_ACTIONS, n) && n.id != -1 && Labelled(rule, n.info)
    requires 0 <= action < MAX_ACTIONS && rule(n.info, action).Some?
    ensures ActionChild(n.children, action).Some? && ActionChild(n.children, action).value.info == rule(n.info, action).value
  {
    var c := Created(rule, n.info, MAX_ACTIONS);
    CreatedIncreasing(rule, n.info, MAX_ACTIONS);
    var k := CreatedIndex(rule, n.info, MAX_ACTIONS, action);
    assert n.children[k].Some? && n.children[k].value.info == c[k];
    assert forall j :: 0 <= j < k ==> n.children[j].Some? && n.children[j].value.info == c[j];
    ActionChildAt(n.children, action, k);
  }

  /** No state is created for an action the rule does not accept. */
  lemma CreatedLacks(rule: (Info, int) -> Option<Info>, info: Info, actions: nat, action: int)
    requires Labelled(rule, info) && !(0 <= action < actions && rule(info, action).Some?)
    ensures forall j :: 0 <= j < |Created(rule, info, actions)| ==> Created(rule, info, actions)[j].action != action
  {
    CreatedOwn(rule, info, actions);
  }

  /** The search finds nothing for an action the labelled rule created no child for. */
  lemma FindsNothing(rule: (Info, int) -> Option<Info>, n: Node<Info>, actions: nat, action: int)
    requires Follows(rule, IsTerminal, actions, n) && n.id != -1 && Labelled(rule, n.info)
    requires !(0 <= action < actions && rule(n.info, action).Some?)
    ensures ActionChild(n.children, action).None?
  {
    var c := Created(rule, n.info, actions);
    CreatedLacks(rule, n.info, actions, action);
    forall j | 0 <= j < |n.children|
      ensures n.children[j].Some? && n.children[j].value.info.action != action
    {
      assert |n.children| == |c|;
      assert Matches(IsTerminal, n.children[j].value, c[j]);
      assert c[j].action != action;
    }
    ActionChildAbsent(n.children, action);
  }

  /**
   * In a built tree get_action_child(action) is the child create_child made for action, and
   * null exactly when it made none.
   */
  lemma ActionChildFinds(n: Node<Info>, action: int)
    requires Follows(Child, IsTerminal, MAX_ACTIONS, n) && n.id != -1
    ensures ActionChild(n.children, action).Some? <==> Child(n.info, action).Some?
    ensures ActionChild(n.children, action).Some? ==> ActionChild(n.children, action).value.info == Child(n.info, action).value
  {
    ChildLabelled(n.info);
    if 0 <= action < MAX_ACTIONS && Child(n.info, action).Some? {
      FindsCreated(Child, n, action);
    } else {
      FindsNothing(Child, n, MAX_ACTIONS, action);
    }
  }

  /**
   * get_terminal_ev: player 0's winnings at a terminal state, given the showdown result. The
   * folder forfeits their own stake; a called showdown with equal stakes moves one stake by the
   * result.
   */
  function TerminalEv(info: Info, result: int): (ev: int)
    requires info.terminal
    ensures info.action == FOLD && IsPlayer(info.parentPlayer) ==>
      ev == (if info.parentPlayer == 0 then -1 else 1) * PotOf(info.pot, info.parentPlayer)
    ensures info.action == CALL && PotOf(info.pot, 0) == PotOf(info.pot, 1) ==> ev == result * PotOf(info.pot, 1)
    ensures info.action != FOLD && info.action != CALL ==> ev == 0
  {
    if info.action == FOLD then (if info.parentPlayer == 1 then PotOf(info.pot, 1) else -PotOf(info.pot, 0))
    else if info.action == CALL then result * PotOf(info.pot, 0)
    else 0
  }

  /**
   * A terminal state is a fold or a call with equal pots (the asserts in get_terminal_ev), so the showdown
   * value is the same whichever player's pot it is read from.
   */
  lemma TerminalEvBalanced(info: Info, result: int)
    requires Valid(info) && info.terminal
    ensures info.action == FOLD || info.action == CALL
    ensures info.action == CALL ==> TerminalEv(info, result) == result * PotOf(info.pot, 1)
    ensures info.action == FOLD ==>
      TerminalEv(info, result) == (if info.parentPlayer == 0 then -PotOf(info.pot, 0) else PotOf(info.pot, 1))
  {
  }

  /** tolower on an ASCII letter; other characters are left as they are. */
  function Lower(c: char): char
  {
    if 'A' <= c <= 'Z' then (c as int - 'A' as int + 'a' as int) as char else c
  }

  /** Every letter names an action, in either case. */
  predicate KnownLetters(s: string)
  {
    forall k :: 0 <= k < |s| ==> LetterAction(Lower(s[k])).Some?
  }

  /** The actions the letters enable: every letter's action. */
  function EnabledBy(s: string): set<int>
    requires KnownLetters(s)
  {
    set k | 0 <= k < |s| :: LetterAction(Lower(s[k])).value
  }

  /** The actions the letters limit: the actions of the upper-case letters. */
  function LimitedBy(s: string): set<int>
    requires KnownLetters(s)
  {
    set k | 0 <= k < |s| && 'A' <= s[k] <= 'Z' :: LetterAction(Lower(s[k])).value
  }

  /**
   * The letter loop of create: each lower-case letter enables its action, each upper-case letter
   * enables and limits it, and a letter that names no action stops the parse.
   */
  method ParseLetters(actions: string) returns (r: Option<(set<int>, set<int>)>)
    ensures r.Some? <==> KnownLetters(actions)
    ensures r.Some? ==> r.value == (EnabledBy(actions), LimitedBy(actions))
  {
    var enabled: set<int> := {};
    var limited: set<int> := {};
    var i := 0;
    while i < |actions|
      invariant 0 <= i <= |actions| && KnownLetters(actions[..i])
      invariant enabled == EnabledBy(actions[..i]) && limited == LimitedBy(actions[..i])
    {
      var c := actions[i];
      var a := LetterAction(Lower(c));
      if a.None? {
        return None;
      }
      LettersStep(actions, i);
      enabled := enabled + {a.value};
      if 'A' <= c <= 'Z' {
        limited := limited + {a.value};
      }
      i := i + 1;
    }
    assert actions[..i] == actions;
    return Some((enabled, limited));
  }

  /** Reading one more known letter adds its action to the enabled set, and to the limited set when upper case. */
  lemma LettersStep(s: string, i: nat)
    requires i < |s| && KnownLetters(s[..i]) && LetterAction(Lower(s[i])).Some?
    ensures KnownLetters(s[..i + 1])
    ensures EnabledBy(s[..i + 1]) == EnabledBy(s[..i]) + {LetterAction(Lower(s[i])).value}
    ensures LimitedBy(s[..i + 1]) == LimitedBy(s[..i]) + (if 'A' <= s[i] <= 'Z' then {LetterAction(Lower(s[i])).value} else {})
  {
    var t := s[..i + 1];
    assert s[..i] == t[..i];
    assert t[i] == s[i];
  }

  /**
   * create: parse game-actions-stack. The game must be "nlhe"; the letters are read by
   * ParseLetters; any other game throws.
   */
  method CreateState(config: string) returns (r: Result<GameConfig>)
    ensures MatchConfig(config, false).None? ==> r == Err("unable to parse configuration")
    ensures MatchConfig(config, false).Some? && MatchConfig(config, false).value.0 != "nlhe" ==>
      r == Err("unknown game configuration")
    ensures r.Ok? <==>
      MatchConfig(config, false).Some? && MatchConfig(config, false).value.0 == "nlhe"
      && KnownLetters(MatchConfig(config, false).value.1)
    ensures r.Ok? ==>
      var m := MatchConfig(config, false).value;
      r.value == GameConfig(EnabledBy(m.1), LimitedBy(m.1), DigitsValue(m.2))
  {
    var m := MatchConfig(config, false);
    if m.None? {
      return Err("unable to parse configuration");
    }
    if m.value.0 != "nlhe" {
      return Err("unknown game configuration");
    }
    var letters := ParseLetters(m.value.1);
    if letters.None? {
      return Err("unknown action");
    }
    return Ok(GameConfig(letters.value.0, letters.value.1, DigitsValue(m.value.2)));
  }

  /** Every limited action is also enabled. */
  lemma LimitedEnabled(s: string)
    requires KnownLetters(s)
    ensures LimitedBy(s) <= EnabledBy(s)
  {
  }
}
