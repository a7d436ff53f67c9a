/**
 * The decision engine of the Python client (midas/ai.py): each tick turns a reading of the table
 * into a position in the strategy's betting tree, decides an action and records its belief in a
 * two-generation store.
 *
 * The screen reading itself is an input: a tick receives the Snapshot the Table class read, and
 * whether the table is waiting for us. The strategy tree is reached through the operations its
 * Python binding exposes, gathered in Tree and passed as a parameter; the random choices (the
 * strategy's pick and the bet method draw) are parameters too. Chip amounts are exact reals.
 */
module Ai {
  import opened Wrappers
  import opened Arith
  import opened NlheStateBase
  import Util

  const INVALID_ROUND := -1
  const PREFLOP := 0
  const FLOP := 1
  const TURN := 2
  const RIVER := 3

  /** What a tick reads from the table. Cards are their Card values; a reading may be missing. */
  datatype Snapshot = Snapshot(
    stack: Option<real>,
    totalPot: real,
    buttons: int,
    board: seq<Option<int>>,
    hole: seq<Option<int>>,
    dealer: seq<bool>,
    bet: seq<real>,
    allIn: seq<bool>,
    sitOut: seq<bool>,
    highlight: seq<Option<bool>>)

  /** The fixed list lengths of Table.Snapshot: five board cards, two of everything else. */
  predicate Shaped(s: Snapshot)
  {
    |s.board| == 5 && |s.hole| == 2 && |s.dealer| == 2 && |s.bet| == 2
    && |s.allIn| == 2 && |s.sitOut| == 2 && |s.highlight| == 2
  }

  /** Table.Snapshot() as the actor first holds it: nothing seen. */
  const EMPTY_SNAPSHOT := Snapshot(None, 0.0, 0, [None, None, None, None, None], [None, None],
    [false, false], [0.0, 0.0], [false, false], [false, false], [None, None])

  /**
   * The tick goes ahead only when it is our turn, our seat is not shown as inactive, some button
   * is visible, both hole cards are read and the stack is read.
   */
  function Ready(waiting: bool, s: Snapshot): (r: bool)
    requires Shaped(s)
    ensures r ==> waiting && s.hole[0].Some? && s.hole[1].Some? && s.stack.Some?
    ensures r && !DealerFacesRaise(s) ==> IsNewGame(EMPTY_SNAPSHOT, s)
  {
    assert s.hole[0].Some? ==> s.hole != EMPTY_SNAPSHOT.hole by {
      assert s.hole[0].Some? ==> s.hole[0] != EMPTY_SNAPSHOT.hole[0];
    }

    waiting && s.highlight[0] != Some(false) && s.buttons != 0
    && s.hole[0].Some? && s.hole[1].Some? && s.stack.Some?
  }

  /** The first n board cards are seen and the rest are not. */
  predicate Dealt(board: seq<Option<int>>, n: int)
  {
    forall i :: 0 <= i < |board| ==> (board[i].Some? <==> i < n)
  }

  /** The round the board shows: INVALID_ROUND for a partly read flop. */
  function RoundOf(board: seq<Option<int>>): (r: int)
    requires |board| == 5
    ensures INVALID_ROUND <= r <= RIVER
    ensures r == INVALID_ROUND <==>
      !(board[0].Some? && board[1].Some? && board[2].Some?)
      && !(board[0].None? && board[1].None? && board[2].None?)
  {
    if board[0].Some? && board[1].Some? && board[2].Some? then
      if board[3].Some? then
        if board[4].Some? then RIVER else TURN
      else FLOP
    else if board[0].None? && board[1].None? && board[2].None? then PREFLOP
    else INVALID_ROUND
  }

  /** With the cards dealt in order, the round follows the number of board cards. */
  lemma RoundByCardCount(board: seq<Option<int>>, n: int)
    requires |board| == 5 && 0 <= n <= 5 && Dealt(board, n)
    ensures n == 0 ==> RoundOf(board) == PREFLOP
    ensures (n == 1 || n == 2) ==> RoundOf(board) == INVALID_ROUND
    ensures n == 3 ==> RoundOf(board) == FLOP
    ensures n == 4 ==> RoundOf(board) == TURN
    ensures n == 5 ==> RoundOf(board) == RIVER
  {
    assert board[0].Some? <==> 0 < n;
    assert board[1].Some? <==> 1 < n;
    assert board[2].Some? <==> 2 < n;
    assert board[3].Some? <==> 3 < n;
    assert board[4].Some? <==> 4 < n;
  }

  /** The checks made before the belief is touched: a non-negative pot and bets, a dealer and a round. */
  function Sane(s: Snapshot): (r: bool)
    requires Shaped(s)
    ensures r ==> PREFLOP <= RoundOf(s.board) <= RIVER
    ensures r ==> forall d :: 0 <= d <= 1 ==> 0 <= DealerOf(s, true, None, d) <= 1
  {
    s.totalPot >= 0.0 && s.bet[0] >= 0.0 && s.bet[1] >= 0.0 && (s.dealer[0] || s.dealer[1])
    && RoundOf(s.board) != INVALID_ROUND
  }

  /** As dealer, a new game never shows the opponent betting more than twice our blind. */
  predicate DealerFacesRaise(s: Snapshot)
    requires Shaped(s)
  {
    s.dealer[0] != s.dealer[1] && s.dealer[0] && s.bet[1] > 2.0 * s.bet[0]
  }

  /** A board card seen before now reads differently. */
  predicate SeenCardChanged(prev: Snapshot, s: Snapshot)
    requires Shaped(prev) && Shaped(s)
  {
    exists i :: 0 <= i < 5 && prev.board[i].Some? && prev.board[i] != s.board[i]
  }

  /** The dealer button, read unambiguously both times, moved. */
  predicate DealerMoved(prev: Snapshot, s: Snapshot)
    requires Shaped(prev) && Shaped(s)
  {
    s.dealer[0] != s.dealer[1] && prev.dealer[0] != prev.dealer[1] && s.dealer != prev.dealer
  }

  /** Our stack, read as positive both times, grew. */
  predicate StackGrew(prev: Snapshot, s: Snapshot)
  {
    s.stack.Some? && prev.stack.Some? && s.stack.value > 0.0 && prev.stack.value > 0.0
    && s.stack.value > prev.stack.value
  }

  /** _is_new_game: the checks in the order the client makes them. */
  function IsNewGame(prev: Snapshot, s: Snapshot): (r: bool)
    requires Shaped(prev) && Shaped(s)
    ensures DealerFacesRaise(s) ==> !r
    ensures prev == s ==> !r
    ensures !DealerFacesRaise(s) && (s.hole != prev.hole || s.totalPot < prev.totalPot) ==> r
  {
    if DealerFacesRaise(s) then false
    else if SeenCardChanged(prev, s) then true
    else if DealerMoved(prev, s) then true
    else if s.hole != prev.hole then true
    else if StackGrew(prev, s) then true
    else s.totalPot < prev.totalPot
  }

  /**
   * Unless we are the dealer facing a raise, a new game is declared exactly when a seen board card
   * changed, the dealer moved, the hole cards changed, the stack grew or the pot shrank.
   */
  lemma NewGameTriggers(prev: Snapshot, s: Snapshot)
    requires Shaped(prev) && Shaped(s)
    ensures DealerFacesRaise(s) ==> !IsNewGame(prev, s)
    ensures !DealerFacesRaise(s) ==>
      (IsNewGame(prev, s) <==>
        SeenCardChanged(prev, s) || DealerMoved(prev, s) || s.hole != prev.hole
        || StackGrew(prev, s) || s.totalPot < prev.totalPot)
  {
  }

  /** The same reading twice never starts a game. */
  lemma SameReadingSameGame(s: Snapshot)
    requires Shaped(s)
    ensures !IsNewGame(s, s)
  {
  }

  /** The first tick of the actor always starts a game, unless we are the dealer facing a raise. */
  lemma FirstTickNewGame(s: Snapshot)
    requires Shaped(s) && s.hole[0].Some? && !DealerFacesRaise(s)
    ensures IsNewGame(EMPTY_SNAPSHOT, s)
  {
    assert s.hole != EMPTY_SNAPSHOT.hole by {
      assert s.hole[0] != EMPTY_SNAPSHOT.hole[0];
    }
  }

  /**
   * get_big_blind: in a new game twice our bet when we are the dealer (we posted the small blind),
   * else our bet; otherwise the blind remembered from before. A non-positive blind gives way to
   * the default one; a game that is not new with no blind remembered fails comparing None.
   */
  function BigBlind(remembered: Option<real>, bet0: real, newGame: bool, dealer: int, defaultBlind: real): (r: Result<real>)
    ensures r.Err? <==> !newGame && remembered.None?
    ensures newGame && dealer == 0 && bet0 > 0.0 ==> r == Ok(2.0 * bet0)
    ensures newGame && dealer != 0 && bet0 > 0.0 ==> r == Ok(bet0)
    ensures newGame && bet0 <= 0.0 ==> r == Ok(defaultBlind)
    ensures !newGame && remembered.Some? ==>
      r == Ok(if remembered.value > 0.0 then remembered.value else defaultBlind)
  {
    if !newGame && remembered.None? then Err("TypeError")
    else
      var blind := if newGame then (if dealer == 0 then 2.0 * bet0 else 1.0 * bet0) else remembered.value;
      if blind <= 0.0 then Ok(defaultBlind) else Ok(blind)
  }

  /** With a positive default the blind is always positive, so the check after it cannot fail. */
  lemma BigBlindPositive(remembered: Option<real>, bet0: real, newGame: bool, dealer: int, defaultBlind: real)
    requires defaultBlind > 0.0
    ensures BigBlind(remembered, bet0, newGame, dealer, defaultBlind).Ok? ==>
      BigBlind(remembered, bet0, newGame, dealer, defaultBlind).value > 0.0
  {
  }

  /** Our chips at the start of the hand: the stack, our bet, and half of what was already in the pot. */
  function OurChips(s: Snapshot): real
    requires Shaped(s) && s.stack.Some?
  {
    s.stack.value + (s.totalPot - s.bet[0] - s.bet[1]) / 2.0 + s.bet[0]
  }

  /** The stack depth in small blinds of the smaller of two stacks that together hold total chips. */
  function Depth(ours: real, total: real, bigBlind: real): int
    requires bigBlind > 0.0
  {
    Ceil(MinReal(ours, total - ours) / bigBlind * 2.0)
  }

  /**
   * get_effective_stack: the smaller stack in small blinds, rounded up. It fails when our stack is
   * not positive or either starting stack is not, and otherwise is at least one.
   */
  function EffectiveStack(s: Snapshot, bigBlind: real, totalChips: real): (r: Result<int>)
    requires Shaped(s) && s.stack.Some? && bigBlind > 0.0
    ensures r.Ok? <==> s.stack.value > 0.0 && OurChips(s) > 0.0 && totalChips - OurChips(s) > 0.0
    ensures r.Ok? ==> r.value >= 1
    ensures r.Ok? ==>
      var least := MinReal(OurChips(s), totalChips - OurChips(s)) / bigBlind * 2.0;
      least <= r.value as real < least + 1.0
  {
    if s.stack.value <= 0.0 then Err("ensure failed")
    else
      var ours := OurChips(s);
      if !(ours > 0.0 && totalChips - ours > 0.0) then Err("ensure failed")
      else
        var size := Depth(ours, totalChips, bigBlind);
        PositiveDepth(ours, totalChips, bigBlind);
        if size <= 0 then Err("ensure failed") else Ok(size)
  }

  lemma PositiveDepth(ours: real, total: real, bigBlind: real)
    requires bigBlind > 0.0 && ours > 0.0 && total - ours > 0.0
    ensures Depth(ours, total, bigBlind) >= 1
  {
    var m := MinReal(ours, total - ours);
    assert m / bigBlind > 0.0;
  }

  /** Both players compute the same depth: it depends only on the smaller of the two stacks. */
  lemma DepthSymmetric(ours: real, total: real, bigBlind: real)
    requires bigBlind > 0.0
    ensures Depth(ours, total, bigBlind) == Depth(total - ours, total, bigBlind)
  {
    assert total - (total - ours) == ours;
  }

  /** The operations of the strategy tree's states the client uses, as its Python binding exposes them. */
  datatype Tree<!S> = Tree(
    parent: S -> Option<S>,
    action: S -> int,
    round: S -> int,
    player: S -> int,
    terminal: S -> bool,
    childCount: S -> nat,
    child: (S, int) -> Option<S>,
    actionChild: (S, int) -> Option<S>,
    bet: (S, real) -> Option<S>)

  /** call(): the child reached by CALL. */
  function Call<S>(t: Tree<S>, s: S): Option<S>
  {
    t.actionChild(s, CALL)
  }

  /** Termination measures of a finite tree: a parent is shallower, and a CALL child is lower. */
  datatype Measures<!S> = Measures(depth: S -> nat, height: S -> nat)

  ghost predicate Measured<S(!new)>(t: Tree<S>, m: Measures<S>)
  {
    (forall s :: t.parent(s).Some? ==> m.depth(t.parent(s).value) < m.depth(s))
    && (forall s :: t.actionChild(s, CALL).Some? ==> m.height(t.actionChild(s, CALL).value) < m.height(s))
  }

  /** The actions from the root down to s, the root's own action first. */
  function Path<S(!new)>(t: Tree<S>, ghost m: Measures<S>, s: S): (p: seq<int>)
    requires Measured(t, m)
    ensures |p| >= 1 && p[|p| - 1] == t.action(s)
    decreases m.depth(s)
  {
    match t.parent(s)
    case None => [t.action(s)]
    case Some(q) => Path(t, m, q) + [t.action(s)]
  }

  function Reversed(s: seq<int>): (r: seq<int>)
    ensures |r| == |s|
    ensures forall k :: 0 <= k < |s| ==> r[k] == s[|s| - 1 - k]
  {
    if s == [] then [] else [s[|s| - 1]] + Reversed(s[..|s| - 1])
  }

  lemma ReversedSnoc(s: seq<int>, x: int)
    ensures Reversed(s + [x]) == [x] + Reversed(s)
  {
    assert (s + [x])[..|s|] == s;
  }

  /** The path of a state extends its parent's by its own action. */
  lemma PathStep<S(!new)>(t: Tree<S>, m: Measures<S>, s: S)
    requires Measured(t, m)
    ensures Path(t, m, s) == (if t.parent(s).Some? then Path(t, m, t.parent(s).value) else []) + [t.action(s)]
  {
  }

  /** The walk up the parent pointers collects the actions leaf first; reversed they are the path. */
  method CollectPath<S(!new)>(t: Tree<S>, ghost m: Measures<S>, s: S) returns (p: seq<int>)
    requires Measured(t, m)
    ensures p == Path(t, m, s)
  {
    var actions: seq<int> := [];
    var state := Some(s);
    while state.Some?
      invariant (if state.Some? then Path(t, m, state.value) else []) + Reversed(actions) == Path(t, m, s)
      decreases if state.Some? then m.depth(state.value) + 1 else 0
    {
      var here := state.value;
      ghost var above := if t.parent(here).Some? then Path(t, m, t.parent(here).value) else [];
      PathStep(t, m, here);
      ReversedSnoc(actions, t.action(here));
      assert above + Reversed(actions + [t.action(here)]) == (above + [t.action(here)]) + Reversed(actions);
      actions := actions + [t.action(here)];
      state := t.parent(here);
    }
    p := Reversed(actions);
  }

  /**
   * The child a recorded action leads to in a tree of another stack size: the largest action not
   * above it that the state has, counting down and stopping before FOLD, so a missing bet size
   * falls back to the next smaller one.
   */
  function StepDown<S>(t: Tree<S>, s: S, i: int): (r: Option<S>)
    ensures r.Some? ==>
      exists j :: 1 <= j <= i && r == t.actionChild(s, j) && forall k :: j < k <= i ==> t.actionChild(s, k).None?
    ensures r.None? <==> forall j :: 1 <= j <= i ==> t.actionChild(s, j).None?
    decreases i
  {
    if i < 1 then None
    else if t.actionChild(s, i).Some? then t.actionChild(s, i)
    else StepDown(t, s, i - 1)
  }

  /** Replaying one action: the state stays where it is when no smaller action exists. */
  function ReplayOne<S>(t: Tree<S>, s: S, action: int): (r: S)
    ensures r == s || exists j :: 1 <= j <= action && t.actionChild(s, j) == Some(r)
  {
    match StepDown(t, s, action)
    case None => s
    case Some(c) => c
  }

  /** Replaying a whole path from a state. */
  function Replay<S>(t: Tree<S>, s: S, actions: seq<int>): (r: S)
    ensures (forall k :: 0 <= k < |actions| ==> actions[k] <= FOLD) ==> r == s
    decreases |actions|
  {
    if actions == [] then s else Replay(t, ReplayOne(t, s, actions[0]), actions[1..])
  }

  /** An action the new tree has is followed exactly. */
  lemma ReplayExact<S>(t: Tree<S>, s: S, action: int)
    requires action >= 1 && t.actionChild(s, action).Some?
    ensures ReplayOne(t, s, action) == t.actionChild(s, action).value
  {
  }

  /** FOLD, and the root's own invalid action, are never replayed. */
  lemma ReplaySkipsFold<S>(t: Tree<S>, s: S, action: int)
    requires action <= FOLD
    ensures ReplayOne(t, s, action) == s
  {
  }

  /** One replayed action, as the client's inner loop makes it. */
  method FallBack<S>(t: Tree<S>, s: S, action: int) returns (next: S)
    ensures next == ReplayOne(t, s, action)
  {
    next := s;
    var i := action;
    while i >= 0 && i != FOLD
      invariant StepDown(t, s, action) == StepDown(t, s, i)
      decreases i
    {
      var child := t.actionChild(s, i);
      if child.Some? {
        next := child.value;
        return;
      }
      i := i - 1;
    }
  }

  /** The path replayed in the new tree from its root. */
  method Rewalk<S>(t: Tree<S>, root: S, actions: seq<int>) returns (s: S)
    ensures s == Replay(t, root, actions)
  {
    s := root;
    for k := 0 to |actions|
      invariant Replay(t, s, actions[k..]) == Replay(t, root, actions)
    {
      assert actions[k..][1..] == actions[k + 1..];
      s := FallBack(t, s, actions[k]);
    }
    assert actions[|actions|..] == [];
  }

  /**
   * The repair of a failed all-in, from the i-th child of the parent on: at the first CALL child,
   * the child after it (the minimum bet), or the CALL child itself when there is none or it is the
   * all-in again; nothing when the parent has no CALL child.
   */
  function RepairFrom<S>(t: Tree<S>, p: S, i: nat): (r: Option<S>)
    ensures r.Some? ==> t.action(r.value) != RAISE_A
    ensures r.Some? ==>
      exists j :: i <= j < t.childCount(p) && t.child(p, j).Some? && t.action(t.child(p, j).value) == CALL
        && (r == t.child(p, j) || r == t.child(p, j + 1))
    ensures r.None? <==>
      forall j :: i <= j < t.childCount(p) ==> t.child(p, j).None? || t.action(t.child(p, j).value) != CALL
    decreases t.childCount(p) - i
  {
    if i >= t.childCount(p) then None
    else
      var c := t.child(p, i);
      if c.Some? && t.action(c.value) == CALL then
        var after := t.child(p, i + 1);
        if after.None? || t.action(after.value) == RAISE_A then c else after
      else RepairFrom(t, p, i + 1)
  }

  /** The loop over the parent's children that repairs a failed all-in. */
  method RepairAllIn<S>(t: Tree<S>, p: S) returns (r: Option<S>)
    ensures r == RepairFrom(t, p, 0)
  {
    for i := 0 to t.childCount(p)
      invariant RepairFrom(t, p, 0) == RepairFrom(t, p, i)
    {
      var c := t.child(p, i);
      if c.Some? && t.action(c.value) == CALL {
        r := t.child(p, i + 1);
        if r.None? || t.action(r.value) == RAISE_A {
          r := c;
        }
        return;
      }
    }
    r := None;
  }

  /** Calls from a state until its round is at least g, or until there is no CALL child. */
  function CallUntil<S(!new)>(t: Tree<S>, ghost m: Measures<S>, s: Option<S>, g: int): (r: Option<S>)
    requires Measured(t, m)
    ensures r.Some? ==> t.round(r.value) >= g
    decreases if s.Some? then m.height(s.value) + 1 else 0
  {
    if s.None? || t.round(s.value) >= g then s else CallUntil(t, m, Call(t, s.value), g)
  }

  /**
   * Catching up on rounds the client did not see close: the state may not be past the board's
   * round; when it is behind, the missing actions are taken to be calls.
   */
  function CatchUp<S(!new)>(t: Tree<S>, ghost m: Measures<S>, s: S, g: int): (r: Result<S>)
    requires Measured(t, m)
    ensures r.Ok? ==> t.round(r.value) >= g
    ensures r.Err? <==> g < t.round(s) || CallUntil(t, m, Some(s), g).None?
  {
    if g < t.round(s) then Err("ensure failed")
    else
      var first := if g > t.round(s) then Call(t, s) else Some(s);
      var r := CallUntil(t, m, first, g);
      if r.None? then Err("ensure failed") else Ok(r.value)
  }

  /** A state already in the board's round stays put. */
  lemma CatchUpInRound<S(!new)>(t: Tree<S>, m: Measures<S>, s: S, g: int)
    requires Measured(t, m) && t.round(s) == g
    ensures CatchUp(t, m, s, g) == Ok(s)
  {
  }

  /** The catch-up as the client writes it: one call when behind, then calls while still behind. */
  method CatchUpRounds<S(!new)>(t: Tree<S>, ghost m: Measures<S>, s: S, g: int) returns (r: Result<S>)
    requires Measured(t, m)
    ensures r == CatchUp(t, m, s, g)
  {
    if g < t.round(s) {
      return Err("ensure failed");
    }
    var state := Some(s);
    if g > t.round(s) {
      state := Call(t, s);
    }
    ghost var first := state;
    while state.Some? && t.round(state.value) < g
      invariant CallUntil(t, m, state, g) == CallUntil(t, m, first, g)
      decreases if state.Some? then m.height(state.value) + 1 else 0
    {
      state := Call(t, state.value);
    }
    if state.None? {
      return Err("ensure failed");
    }
    r := Ok(state.value);
  }

  /** The opponent has bet: over the big blind preflop, anything after. */
  predicate OpponentBet(s: Snapshot, round: int, bigBlind: real)
    requires Shaped(s)
  {
    (round == PREFLOP && s.bet[1] > bigBlind) || (round > PREFLOP && s.bet[1] > 0.0)
  }

  /** The pot fraction the opponent's outstanding bet adds: how much it raised over what stood before. */
  function BetFraction(s: Snapshot): (r: Result<real>)
    requires Shaped(s)
    ensures r.Ok? <==> s.allIn[1] || s.totalPot - (s.bet[1] - s.bet[0]) != 0.0
    ensures s.allIn[1] ==> r == Ok(RaiseFactor(RAISE_A).value)
    ensures r.Ok? && !s.allIn[1] ==> r.value * (s.totalPot - (s.bet[1] - s.bet[0])) == s.bet[1] - s.bet[0]
  {
    if s.allIn[1] then Ok(RaiseFactor(RAISE_A).value)
    else if s.totalPot - (s.bet[1] - s.bet[0]) == 0.0 then Err("ZeroDivisionError")
    else Ok((s.bet[1] - s.bet[0]) / (s.totalPot - (s.bet[1] - s.bet[0])))
  }

  /**
   * What the opponent did since our last action: an outstanding bet is translated into the tree by
   * its pot fraction (an all-in always as the all-in); out of position preflop a bet of at most the
   * big blind is a call, and in position after the flop no bet is a check; otherwise the state
   * stays. Every outcome must exist.
   */
  function Facing<S>(t: Tree<S>, state: S, s: Snapshot, bigBlind: real, dealer: int): (r: Result<S>)
    requires Shaped(s)
    ensures OpponentBet(s, t.round(state), bigBlind) ==>
      (r.Ok? <==> BetFraction(s).Ok? && BetFraction(s).value > 0.0 && t.bet(state, BetFraction(s).value).Some?)
    ensures OpponentBet(s, t.round(state), bigBlind) && r.Ok? ==> Some(r.value) == t.bet(state, BetFraction(s).value)
    ensures !OpponentBet(s, t.round(state), bigBlind) && Checked(s, t.round(state), bigBlind, dealer) ==>
      (r.Ok? <==> Call(t, state).Some?) && (r.Ok? ==> Some(r.value) == Call(t, state))
    ensures !OpponentBet(s, t.round(state), bigBlind) && !Checked(s, t.round(state), bigBlind, dealer) ==>
      r == Ok(state)
  {
    var round := t.round(state);
    if OpponentBet(s, round, bigBlind) then
      var fraction := BetFraction(s);
      if fraction.Err? then Err(fraction.error)
      else if fraction.value <= 0.0 then Err("ensure failed")
      else
        var next := t.bet(state, fraction.value);
        if next.None? then Err("ensure failed") else Ok(next.value)
    else if Checked(s, round, bigBlind, dealer) then
      var next := Call(t, state);
      if next.None? then Err("ensure failed") else Ok(next.value)
    else Ok(state)
  }

  /** The opponent's action was a call or check: preflop out of position, or postflop in position. */
  predicate Checked(s: Snapshot, round: int, bigBlind: real, dealer: int)
    requires Shaped(s)
  {
    (round == PREFLOP && dealer == 1 && s.bet[1] <= bigBlind) || (round > PREFLOP && dealer == 0 && s.bet[1] == 0.0)
  }

  /** An opponent all-in is never translated to a smaller bet. */
  lemma AllInStaysAllIn<S>(t: Tree<S>, state: S, s: Snapshot, bigBlind: real, dealer: int)
    requires Shaped(s) && OpponentBet(s, t.round(state), bigBlind) && s.allIn[1]
    ensures Facing(t, state, s, bigBlind, dealer).Ok? ==>
      Some(Facing(t, state, s, bigBlind, dealer).value) == t.bet(state, RaiseFactor(RAISE_A).value)
  {
  }

  /**
   * The seat of the dealer: the button that is lit, or with both lit (a faulty client) the default
   * seat in a new game and the remembered one otherwise; -1 when nothing is known.
   */
  function DealerOf(s: Snapshot, newGame: bool, remembered: Option<int>, defaultDealer: int): (d: int)
    requires Shaped(s)
    ensures s.dealer[0] && !s.dealer[1] ==> d == 0
    ensures !s.dealer[0] && s.dealer[1] ==> d == 1
    ensures !s.dealer[0] && !s.dealer[1] ==> d == -1
    ensures s.dealer[0] && s.dealer[1] && newGame ==> d == defaultDealer
    ensures s.dealer[0] && s.dealer[1] && !newGame ==> (remembered.Some? ==> d == remembered.value) && (remembered.None? ==> d == -1)
  {
    if s.dealer[0] && s.dealer[1] then
      if newGame then defaultDealer else if remembered.Some? then remembered.value else -1
    else if s.dealer[0] then 0
    else if s.dealer[1] then 1
    else -1
  }

  /**
   * _get_next_action: the bucket of our cards must be known; against a sitting-out opponent the
   * child at index CALL + 1 is taken when that slot is filled (where there is no FOLD child this is
   * the second raise size, not the smallest), otherwise the strategy's pick; the action is the
   * chosen child's.
   */
  function NextAction<S>(t: Tree<S>, state: S, opponentSitsOut: bool, bucket: int, picked: int): (r: Result<int>)
    ensures r.Ok? ==> bucket != -1 && !t.terminal(state)
    ensures bucket != -1 && !t.terminal(state) && opponentSitsOut && t.child(state, CALL + 1).Some? ==>
      r == Ok(t.action(t.child(state, CALL + 1).value))
    ensures bucket != -1 && !t.terminal(state) && !(opponentSitsOut && t.child(state, CALL + 1).Some?) ==>
      (r.Ok? <==> t.child(state, picked).Some?) && (r.Ok? ==> r.value == t.action(t.child(state, picked).value))
  {
    if t.terminal(state) || bucket == -1 then Err("ensure failed")
    else
      var index := if opponentSitsOut && t.child(state, CALL + 1).Some? then CALL + 1 else picked;
      var c := t.child(state, index);
      if c.None? then Err("AttributeError") else Ok(t.action(c.value))
  }

  const FOLD_BUTTON := 1
  const CALL_BUTTON := 2
  const RAISE_BUTTON := 4

  /** The button act presses, the pot fraction of a raise, and the action it is announced as. */
  datatype Plan = Plan(button: int, fraction: real, named: int)

  /**
   * The plan of act: FOLD folds; CALL calls, except that before the river a call the tree makes
   * terminal is played as the all-in so the hand really ends; every raise bets its pot fraction.
   * An action outside the eleven fails on its name.
   */
  function PlanAction<S>(t: Tree<S>, state: S, action: int): (r: Result<Plan>)
    ensures r.Ok? ==> IsAction(action)
    ensures action == FOLD ==> r == Ok(Plan(FOLD_BUTTON, -1.0, FOLD))
    ensures IsRaise(action) ==> r == Ok(Plan(RAISE_BUTTON, RaiseFactor(action).value, action))
    ensures action == CALL && t.round(state) < RIVER ==>
      (r.Ok? <==> Call(t, state).Some?)
      && (r.Ok? && t.terminal(Call(t, state).value) ==> r.value == Plan(RAISE_BUTTON, RaiseFactor(RAISE_A).value, RAISE_A))
      && (r.Ok? && !t.terminal(Call(t, state).value) ==> r.value == Plan(CALL_BUTTON, -1.0, CALL))
    ensures action == CALL && t.round(state) >= RIVER ==> r == Ok(Plan(CALL_BUTTON, -1.0, CALL))
    ensures r.Ok? && r.value.button == RAISE_BUTTON ==> RaiseFactor(r.value.named) == Ok(r.value.fraction)
  {
    if !IsAction(action) then Err("unknown action name")
    else if action == FOLD then Ok(Plan(FOLD_BUTTON, -1.0, FOLD))
    else if action == CALL then
      if t.round(state) < RIVER then
        var c := Call(t, state);
        if c.None? then Err("AttributeError")
        else if t.terminal(c.value) then Ok(Plan(RAISE_BUTTON, RaiseFactor(RAISE_A).value, RAISE_A))
        else Ok(Plan(CALL_BUTTON, -1.0, CALL))
      else Ok(Plan(CALL_BUTTON, -1.0, CALL))
    else Ok(Plan(RAISE_BUTTON, RaiseFactor(action).value, action))
  }

  /** The most we can bet to: our stack plus our bet. */
  function MaxBet(s: Snapshot): (m: real)
    requires Shaped(s) && s.stack.Some?
    ensures m > s.bet[0] <==> s.stack.value > 0.0
    ensures m - s.bet[0] == s.stack.value
  {
    s.stack.value + s.bet[0]
  }

  /** The least raise to: the opponent's bet plus the larger of the big blind and the amount to call, within MaxBet. */
  function MinBet(s: Snapshot, bigBlind: real): (r: real)
    requires Shaped(s) && s.stack.Some?
    ensures r <= MaxBet(s)
  {
    MinReal(s.bet[1] + MaxReal(bigBlind, s.bet[1] - s.bet[0]), MaxBet(s))
  }

  /** The most the opponent can bet to: the chips neither our stack nor the pot (net of their bet) hold. */
  function OppMaxBet(s: Snapshot, totalChips: real): (m: real)
    requires Shaped(s) && s.stack.Some?
    ensures m - s.bet[1] + s.stack.value + s.totalPot == totalChips
    ensures m >= s.bet[1] <==> totalChips >= s.stack.value + s.totalPot
  {
    totalChips - (s.stack.value + s.totalPot - s.bet[1])
  }

  /** The bet the fraction asks for: the opponent's bet plus the fraction of the pot after our call, rounded if asked. */
  function Target(s: Snapshot, fraction: real, rounding: Option<real>): (r: real)
    requires Shaped(s)
    ensures rounding.None? || rounding == Some(0.0) ==>
      r - s.bet[1] == fraction * (s.totalPot + (s.bet[1] - s.bet[0]))
    ensures rounding.Some? && rounding.value != 0.0 ==> (r / rounding.value).Floor as real == r / rounding.value
  {
    var amount := s.bet[1] + fraction * (s.totalPot + (s.bet[1] - s.bet[0]));
    if rounding.Some? then Util.RoundMultiple(amount, rounding.value) else amount
  }

  /** The target clamped into [MinBet, MaxBet]: unchanged when it lies there already. */
  function Clamped(s: Snapshot, bigBlind: real, fraction: real, rounding: Option<real>): (a: real)
    requires Shaped(s) && s.stack.Some?
    ensures MinBet(s, bigBlind) <= a <= MaxBet(s)
    ensures MinBet(s, bigBlind) <= Target(s, fraction, rounding) <= MaxBet(s) ==> a == Target(s, fraction, rounding)
    ensures Target(s, fraction, rounding) < MinBet(s, bigBlind) ==> a == MinBet(s, bigBlind)
    ensures Target(s, fraction, rounding) > MaxBet(s) ==> a == MaxBet(s)
  {
    MaxReal(MinBet(s, bigBlind), MinReal(Target(s, fraction, rounding), MaxBet(s)))
  }

  /** A bet close enough to either remaining stack, by the threshold, is made all-in. */
  function NearAllIn(s: Snapshot, amount: real, totalChips: real, threshold: Option<real>): (r: bool)
    requires Shaped(s) && s.stack.Some? && MaxBet(s) > 0.0 && OppMaxBet(s, totalChips) > 0.0
    ensures r <==>
      threshold.Some?
      && (amount >= threshold.value * MaxBet(s) || amount >= threshold.value * OppMaxBet(s, totalChips))
  {
    var t := if threshold.Some? then threshold.value else 0.0;
    AtLeastFraction(amount, MaxBet(s), t);
    AtLeastFraction(amount, OppMaxBet(s, totalChips), t);

    threshold.Some? && (amount / MaxBet(s) >= threshold.value || amount / OppMaxBet(s, totalChips) >= threshold.value)
  }

  /** A quotient by a positive amount reaches t exactly when the amount times t is reached. */
  lemma AtLeastFraction(a: real, b: real, t: real)
    requires b > 0.0
    ensures a / b >= t <==> a >= t * b
  {
    assert (a / b) * b == a;
    if a / b >= t {
      assert (a / b - t) * b >= 0.0;
    } else {
      assert (t - a / b) * b > 0.0;
    }
  }

  /** The bet act makes: the amount to bet to, the least it allows, the most, and the action it is named. */
  datatype BetSize = BetSize(amount: real, minbet: real, maxbet: real, named: int)

  /**
   * The raise amount of act: the clamped target; a bet that is not already the all-in becomes
   * the all-in when it comes near either stack. It fails when we have nothing to bet, or when
   * the opponent's stack is not positive for a bet that is not the all-in.
   */
  function RaiseAmount(s: Snapshot, bigBlind: real, fraction: real, named: int, rounding: Option<real>,
      totalChips: real, threshold: Option<real>): (r: Result<BetSize>)
    requires Shaped(s) && s.stack.Some?
    ensures r.Err? <==> MaxBet(s) <= 0.0 || (named != RAISE_A && OppMaxBet(s, totalChips) <= 0.0)
    ensures r.Ok? ==> r.value.maxbet == MaxBet(s) && r.value.minbet == MinBet(s, bigBlind)
    ensures r.Ok? ==> r.value.minbet <= r.value.amount <= r.value.maxbet
    ensures r.Ok? && named == RAISE_A ==> r.value == BetSize(Clamped(s, bigBlind, fraction, rounding), MinBet(s, bigBlind), MaxBet(s), RAISE_A)
    ensures r.Ok? && named != RAISE_A ==>
      if NearAllIn(s, Clamped(s, bigBlind, fraction, rounding), totalChips, threshold)
      then r.value.amount == MaxBet(s) && r.value.named == RAISE_A
      else r.value.amount == Clamped(s, bigBlind, fraction, rounding) && r.value.named == named
  {
    var maxbet := MaxBet(s);
    if maxbet <= 0.0 then Err("ensure failed")
    else
      var amount := Clamped(s, bigBlind, fraction, rounding);
      if named == RAISE_A then Ok(BetSize(amount, MinBet(s, bigBlind), maxbet, RAISE_A))
      else if OppMaxBet(s, totalChips) <= 0.0 then Err("ensure failed")
      else if NearAllIn(s, amount, totalChips, threshold) then Ok(BetSize(maxbet, MinBet(s, bigBlind), maxbet, RAISE_A))
      else Ok(BetSize(amount, MinBet(s, bigBlind), maxbet, named))
  }

  /**
   * We never bet more than we have, and when we can afford the least legal raise we bet at least
   * that; when we cannot, we bet everything.
   */
  lemma RaiseIsLegal(s: Snapshot, bigBlind: real, fraction: real, named: int, rounding: Option<real>,
      totalChips: real, threshold: Option<real>)
    requires Shaped(s) && s.stack.Some?
    requires RaiseAmount(s, bigBlind, fraction, named, rounding, totalChips, threshold).Ok?
    ensures var b := RaiseAmount(s, bigBlind, fraction, named, rounding, totalChips, threshold).value;
      b.amount - s.bet[0] <= s.stack.value
      && (s.bet[1] + MaxReal(bigBlind, s.bet[1] - s.bet[0]) <= MaxBet(s) ==>
        b.amount >= s.bet[1] + MaxReal(bigBlind, s.bet[1] - s.bet[0]))
      && (s.bet[1] + MaxReal(bigBlind, s.bet[1] - s.bet[0]) > MaxBet(s) ==> b.amount == MaxBet(s))
  {
  }

  /** What a tick asks the table to do. */
  datatype Command = FoldCommand | CallCommand | BetCommand(named: int, amount: real, minbet: real, betMethod: nat)

  /** Actor.TableData: the belief a tick records. The screen handle it also keeps is not modelled. */
  datatype TableData<!S> = TableData(
    dealer: Option<int>,
    bigBlind: Option<real>,
    stackSize: Option<int>,
    state: Option<S>,
    snapshot: Snapshot)

  function EmptyData<S>(): TableData<S>
  {
    TableData(None, None, None, None, EMPTY_SNAPSHOT)
  }

  /** The settings a tick consults. */
  datatype Settings = Settings(
    defaultDealer: int,
    defaultBlind: real,
    totalChips: real,
    betRounding: Option<real>,
    allinThreshold: Option<real>,
    methodOdds: seq<real>)

  /** The command act issues for an action, given the draw that picks the bet method. */
  predicate Issues<S>(t: Tree<S>, action: int, data: TableData<S>, settings: Settings, draw: real, c: Command)
    requires Shaped(data.snapshot) && data.snapshot.stack.Some? && data.state.Some? && data.bigBlind.Some?
  {
    var plan := PlanAction(t, data.state.value, action);
    plan.Ok?
    && (plan.value.button == FOLD_BUTTON ==> c == FoldCommand)
    && (plan.value.button == CALL_BUTTON ==> c == CallCommand)
    && (plan.value.button == RAISE_BUTTON ==>
      var b := RaiseAmount(data.snapshot, data.bigBlind.value, plan.value.fraction, plan.value.named,
        settings.betRounding, settings.totalChips, settings.allinThreshold);
      b.Ok? && c.BetCommand? && c.named == b.value.named && c.amount == b.value.amount
      && c.minbet == b.value.minbet && Util.Picks(settings.methodOdds, draw, c.betMethod))
  }

  /**
   * When act succeeds: there is a state, the plan exists, a bet has an amount and a bet method the
   * draw picks, and the state has a child for the action.
   */
  predicate Acts<S>(t: Tree<S>, action: int, data: TableData<S>, settings: Settings, draw: real)
    requires Shaped(data.snapshot) && data.snapshot.stack.Some? && data.bigBlind.Some?
  {
    data.state.Some?
    && var plan := PlanAction(t, data.state.value, action);
    plan.Ok?
    && (plan.value.button != FOLD_BUTTON && plan.value.button != CALL_BUTTON ==>
      RaiseAmount(data.snapshot, data.bigBlind.value, plan.value.fraction, plan.value.named,
        settings.betRounding, settings.totalChips, settings.allinThreshold).Ok?
      && exists i :: 0 <= i < |settings.methodOdds| && draw < settings.methodOdds[i] && settings.methodOdds[i] > 0.0)
    && t.actionChild(data.state.value, action).Some?
  }

  /**
   * act: presses the button the plan names (a bet with its amount and a bet method drawn from the
   * configured odds), and only then moves the state to the child of the action the strategy chose.
   */
  method Act<S>(t: Tree<S>, action: int, data: TableData<S>, settings: Settings, draw: real)
      returns (r: Result<(Command, TableData<S>)>)
    requires Shaped(data.snapshot) && data.snapshot.stack.Some? && data.bigBlind.Some?
    ensures r.Ok? <==> Acts(t, action, data, settings, draw)
    ensures r.Ok? ==> data.state.Some? && Issues(t, action, data, settings, draw, r.value.0)
    ensures r.Ok? ==>
      t.actionChild(data.state.value, action).Some?
      && r.value.1 == data.(state := t.actionChild(data.state.value, action))
  {
    if data.state.None? {
      return Err("ensure failed");
    }
    var state := data.state.value;
    var plan := PlanAction(t, state, action);
    if plan.Err? {
      return Err(plan.error);
    }
    var command: Command;
    if plan.value.button == FOLD_BUTTON {
      command := FoldCommand;
    } else if plan.value.button == CALL_BUTTON {
      command := CallCommand;
    } else {
      var b := RaiseAmount(data.snapshot, data.bigBlind.value, plan.value.fraction, plan.value.named,
        settings.betRounding, settings.totalChips, settings.allinThreshold);
      if b.Err? {
        return Err(b.error);
      }
      var m := Util.WeightedInt(settings.methodOdds, draw);
      if m.Err? {
        return Err(m.error);
      }
      command := BetCommand(b.value.named, b.value.amount, b.value.minbet, m.value);
    }
    var next := t.actionChild(state, action);
    if next.None? {
      return Err("ensure failed");
    }
    r := Ok((command, data.(state := next)));
  }

  /**
   * A call the tree would end the hand with before the river is issued as a bet named the all-in,
   * while the state still follows the CALL child.
   */
  lemma TerminalCallBetsAllIn<S>(t: Tree<S>, data: TableData<S>, settings: Settings, draw: real, c: Command)
    requires Shaped(data.snapshot) && data.snapshot.stack.Some? && data.state.Some? && data.bigBlind.Some?
    requires Issues(t, CALL, data, settings, draw, c)
    requires t.round(data.state.value) < RIVER && Call(t, data.state.value).Some?
    requires t.terminal(Call(t, data.state.value).value)
    ensures c.BetCommand? && c.named == RAISE_A
  {
    var plan := PlanAction(t, data.state.value, CALL);
    assert plan.value == Plan(RAISE_BUTTON, RaiseFactor(RAISE_A).value, RAISE_A);
  }

  /** A strategy: the root of its tree, the bucket of our cards in a round, and its random pick of a child. */
  datatype Strategy<!S> = Strategy(
    root: S,
    bucket: (seq<Option<int>>, seq<Option<int>>, int) -> int,
    pick: (S, int) -> int)

  /**
   * Where the tick resumes: the root in a new game; the remembered state when the stack depth is
   * unchanged; otherwise the remembered path replayed in the tree of the new depth. The state must
   * exist and not be terminal.
   */
  function Resume<S(!new)>(t: Tree<S>, ghost m: Measures<S>, believed: TableData<S>, newGame: bool, stackSize: int, root: S)
      : (r: Result<S>)
    requires Measured(t, m)
    ensures newGame ==> (r.Ok? <==> !t.terminal(root)) && (r.Ok? ==> r.value == root)
    ensures !newGame && believed.stackSize == Some(stackSize) ==>
      (r.Ok? <==> believed.state.Some? && !t.terminal(believed.state.value))
      && (r.Ok? ==> r.value == believed.state.value)
    ensures !newGame && believed.stackSize != Some(stackSize) ==>
      (r.Ok? <==> believed.state.Some? && !t.terminal(Replay(t, root, Path(t, m, believed.state.value))))
      && (r.Ok? ==> r.value == Replay(t, root, Path(t, m, believed.state.value)))
  {
    var current :=
      if !newGame && believed.stackSize != Some(stackSize) then
        if believed.state.None? then Err("ensure failed")
        else Ok(Some(Replay(t, root, Path(t, m, believed.state.value))))
      else Ok(believed.state);
    if current.Err? then Err(current.error)
    else
      var state := if newGame then Some(root) else current.value;
      if state.None? || t.terminal(state.value) then Err("ensure failed") else Ok(state.value)
  }

  method ResumeState<S(!new)>(t: Tree<S>, ghost m: Measures<S>, believed: TableData<S>, newGame: bool, stackSize: int, root: S)
      returns (r: Result<S>)
    requires Measured(t, m)
    ensures r == Resume(t, m, believed, newGame, stackSize, root)
  {
    var state := believed.state;
    if !newGame && believed.stackSize != Some(stackSize) {
      if believed.state.None? {
        return Err("ensure failed");
      }
      var actions := CollectPath(t, m, believed.state.value);
      var replayed := Rewalk(t, root, actions);
      state := Some(replayed);
    }
    if newGame {
      state := Some(root);
    }
    if state.None? || t.terminal(state.value) {
      return Err("ensure failed");
    }
    r := Ok(state.value);
  }

  /** What a tick works out before choosing its action. */
  datatype Located<!S> = Located(state: S, dealer: int, bigBlind: real, stackSize: int, newGame: bool, strategy: Strategy<S>)

  /** The state reached by a failed all-in is repaired: replaced by the minimum bet or the call. */
  function Repaired<S>(t: Tree<S>, state: S): (r: Result<S>)
    ensures r.Ok? && t.parent(state).Some? ==> t.action(r.value) != RAISE_A
    ensures t.parent(state).None? || t.action(state) != RAISE_A ==> r == Ok(state)
    ensures t.parent(state).Some? && t.action(state) == RAISE_A ==>
      (r.Ok? <==> RepairFrom(t, t.parent(state).value, 0).Some?)
      && (r.Ok? ==> r.value == RepairFrom(t, t.parent(state).value, 0).value)
  {
    if t.parent(state).Some? && t.action(state) == RAISE_A then
      var repaired := RepairFrom(t, t.parent(state).value, 0);
      if repaired.None? then Err("ensure failed") else Ok(repaired.value)
    else Ok(state)
  }

  /** The repair as the client writes it, with the loop over the parent's children. */
  method RepairState<S>(t: Tree<S>, state: S) returns (r: Result<S>)
    ensures r == Repaired(t, state)
  {
    if t.parent(state).Some? && t.action(state) == RAISE_A {
      var repaired := RepairAllIn(t, t.parent(state).value);
      if repaired.None? {
        return Err("ensure failed");
      }
      return Ok(repaired.value);
    }
    r := Ok(state);
  }

  /**
   * The state a tick acts from: where it resumes, repaired after a failed all-in, caught up with the
   * board's round and moved past what the opponent did; the first step that fails gives the error.
   */
  function Position<S(!new)>(t: Tree<S>, ghost m: Measures<S>, believed: TableData<S>, newGame: bool, stackSize: int,
      root: S, s: Snapshot, bigBlind: real, dealer: int): Result<S>
    requires Measured(t, m) && Shaped(s)
  {
    var resumed := Resume(t, m, believed, newGame, stackSize, root);
    if resumed.Err? then Err(resumed.error)
    else
      var repaired := Repaired(t, resumed.value);
      if repaired.Err? then Err(repaired.error)
      else
        var caught := CatchUp(t, m, repaired.value, RoundOf(s.board));
        if caught.Err? then Err(caught.error)
        else Facing(t, caught.value, s, bigBlind, dealer)
  }

  /**
   * The part of a tick between the belief and the choice of an action: new game, dealer, blind,
   * stack depth, strategy and the state, caught up with the table. Each check the client makes
   * becomes an error; a tick that passes them all is located, and what it is located at is stated
   * in the postcondition.
   */
  function Location<S(!new)>(t: Tree<S>, ghost m: Measures<S>, strategies: map<int, Strategy<S>>, settings: Settings,
      believed: TableData<S>, s: Snapshot): (r: Result<Located<S>>)
    requires Measured(t, m) && Shaped(s) && Shaped(believed.snapshot) && s.stack.Some?
    ensures r.Ok? ==>
      var l := r.value;
      l.newGame == IsNewGame(believed.snapshot, s)
      && (l.newGame ==> s.bet[0] > 0.0 && (s.bet[1] > 0.0 || s.allIn[1]))
      && (l.dealer == 0 || l.dealer == 1)
      && l.dealer == DealerOf(s, l.newGame, believed.dealer, settings.defaultDealer)
      && (!l.newGame ==> believed.dealer == Some(l.dealer))
      && BigBlind(believed.bigBlind, s.bet[0], l.newGame, l.dealer, settings.defaultBlind) == Ok(l.bigBlind)
      && l.bigBlind > 0.0
      && EffectiveStack(s, l.bigBlind, settings.totalChips) == Ok(l.stackSize)
      && Util.FindNearest(strategies, l.stackSize) == Ok(l.strategy)
      && Position(t, m, believed, l.newGame, l.stackSize, l.strategy.root, s, l.bigBlind, l.dealer) == Ok(l.state)
      && t.player(l.state) == l.dealer && t.round(l.state) == RoundOf(s.board) && !t.terminal(l.state)
    ensures
      var newGame := IsNewGame(believed.snapshot, s);
      var dealer := DealerOf(s, newGame, believed.dealer, settings.defaultDealer);
      var bigBlind := BigBlind(believed.bigBlind, s.bet[0], newGame, dealer, settings.defaultBlind);
      (newGame ==> s.bet[0] > 0.0 && (s.bet[1] > 0.0 || s.allIn[1]))
      && (dealer == 0 || dealer == 1) && (newGame || believed.dealer == Some(dealer))
      && bigBlind.Ok? && bigBlind.value > 0.0
      && EffectiveStack(s, bigBlind.value, settings.totalChips).Ok? && |strategies| > 0
      && (var stackSize := EffectiveStack(s, bigBlind.value, settings.totalChips).value;
        var here := Position(t, m, believed, newGame, stackSize, Util.FindNearest(strategies, stackSize).value.root,
          s, bigBlind.value, dealer);
        here.Ok? && t.player(here.value) == dealer && t.round(here.value) == RoundOf(s.board) && !t.terminal(here.value))
      ==> r.Ok?
  {
    var newGame := IsNewGame(believed.snapshot, s);
    if newGame && !(s.bet[0] > 0.0 && (s.bet[1] > 0.0 || s.allIn[1])) then Err("ensure failed")
    else
      var dealer := DealerOf(s, newGame, believed.dealer, settings.defaultDealer);
      if !(dealer == 0 || dealer == 1) || !(newGame || believed.dealer == Some(dealer)) then Err("ensure failed")
      else
        var bigBlind := BigBlind(believed.bigBlind, s.bet[0], newGame, dealer, settings.defaultBlind);
        if bigBlind.Err? then Err(bigBlind.error)
        else if bigBlind.value <= 0.0 then Err("ensure failed")
        else
          var stackSize := EffectiveStack(s, bigBlind.value, settings.totalChips);
          if stackSize.Err? then Err(stackSize.error)
          else if |strategies| == 0 then Err("ensure failed")
          else
            var strategy := Util.FindNearest(strategies, stackSize.value).value;
            var here := Position(t, m, believed, newGame, stackSize.value, strategy.root, s, bigBlind.value, dealer);
            if here.Err? then Err(here.error)
            else if t.player(here.value) != dealer || t.round(here.value) != RoundOf(s.board) || t.terminal(here.value) then
              Err("ensure failed")
            else Ok(Located(here.value, dealer, bigBlind.value, stackSize.value, newGame, strategy))
  }

  /** The tick's locating steps as the client runs them, with the loops of the replay, repair and catch-up. */
  method Locate<S(!new)>(t: Tree<S>, ghost m: Measures<S>, strategies: map<int, Strategy<S>>, settings: Settings,
      believed: TableData<S>, s: Snapshot) returns (r: Result<Located<S>>)
    requires Measured(t, m) && Shaped(s) && Shaped(believed.snapshot) && s.stack.Some? && Sane(s)
    ensures r == Location(t, m, strategies, settings, believed, s)
  {
    var newGame := IsNewGame(believed.snapshot, s);
    if newGame && !(s.bet[0] > 0.0 && (s.bet[1] > 0.0 || s.allIn[1])) {
      return Err("ensure failed");
    }
    var dealer := DealerOf(s, newGame, believed.dealer, settings.defaultDealer);
    if !(dealer == 0 || dealer == 1) || !(newGame || believed.dealer == Some(dealer)) {
      return Err("ensure failed");
    }
    var bigBlind := BigBlind(believed.bigBlind, s.bet[0], newGame, dealer, settings.defaultBlind);
    if bigBlind.Err? {
      return Err(bigBlind.error);
    }
    if bigBlind.value <= 0.0 {
      return Err("ensure failed");
    }
    var stackSize := EffectiveStack(s, bigBlind.value, settings.totalChips);
    if stackSize.Err? {
      return Err(stackSize.error);
    }
    if |strategies| == 0 {
      return Err("ensure failed");
    }
    var strategy := Util.FindNearest(strategies, stackSize.value);
    var state := ResumeState(t, m, believed, newGame, stackSize.value, strategy.value.root);
    if state.Err? {
      return Err(state.error);
    }
    state := RepairState(t, state.value);
    if state.Err? {
      return Err(state.error);
    }
    var round := RoundOf(s.board);
    state := CatchUpRounds(t, m, state.value, round);
    if state.Err? {
      return Err(state.error);
    }
    state := Facing(t, state.value, s, bigBlind.value, dealer);
    if state.Err? {
      return Err(state.error);
    }
    var here := state.value;
    if t.player(here) != dealer || t.round(here) != round || t.terminal(here) {
      return Err("ensure failed");
    }
    r := Ok(Located(here, dealer, bigBlind.value, stackSize.value, newGame, strategy.value));
  }

  /** The readings the client compares to tell that its previous action did not take effect. */
  predicate Identical(a: Snapshot, b: Snapshot)
  {
    a.hole == b.hole && a.board == b.board && a.stack == b.stack && a.bet == b.bet
  }

  /** The belief a tick starts from: the one before the last, when the table has not moved since. */
  function Believed<S>(current: TableData<S>, previous: TableData<S>, s: Snapshot): (b: TableData<S>)
    ensures b == current || b == previous
  {
    if Identical(s, current.snapshot) then previous else current
  }

  /**
   * After a tick committed its belief for a reading, a next tick that reads the same table again
   * goes back to the belief from before that tick, so an action the table did not take is undone.
   */
  lemma UnfulfilledActionReverted<S>(committed: TableData<S>, previous: TableData<S>, s: Snapshot, again: Snapshot)
    requires committed.snapshot == s && Identical(again, s)
    ensures Believed(committed, previous, again) == previous
  {
  }

  /** A reading that differs from the last committed one keeps the committed belief. */
  lemma ChangedTableKept<S>(committed: TableData<S>, previous: TableData<S>, s: Snapshot)
    requires !Identical(s, committed.snapshot)
    ensures Believed(committed, previous, s) == committed
  {
  }

  /** The action a tick takes from a located position: the strategy buckets our cards and picks. */
  function Choice<S>(t: Tree<S>, l: Located<S>, s: Snapshot): Result<int>
    requires Shaped(s)
  {
    var bucket := l.strategy.bucket(s.hole, s.board, t.round(l.state));
    NextAction(t, l.state, s.sitOut[1], bucket, l.strategy.pick(l.state, bucket))
  }

  /** The belief a located tick hands to act. */
  function Record<S>(l: Located<S>, s: Snapshot): TableData<S>
  {
    TableData(Some(l.dealer), Some(l.bigBlind), Some(l.stackSize), Some(l.state), s)
  }

  /** The outcome of a tick: nothing to do yet, or an action taken from a state. */
  datatype Tick<!S> = Idle | Acted(state: S, action: int, command: Command)

  /** Actor: the belief of the last tick that acted, and the one before it. */
  class Actor<S(!new)> {
    var tableData: TableData<S>
    var oldTableData: TableData<S>

    ghost predicate Valid()
      reads this
    {
      Shaped(tableData.snapshot) && Shaped(oldTableData.snapshot)
    }

    constructor()
      ensures Valid() && tableData == EmptyData() && oldTableData == EmptyData()
    {
      tableData := EmptyData();
      oldTableData := EmptyData();
    }

    /**
     * process_snapshot: one tick. Sitting out fails; a table not ready for us leaves everything as
     * it was; a reading that fails the first checks too. Otherwise the belief to start from (the
     * older one when the table has not moved) becomes both generations, and only a tick whose
     * action the table accepted commits a new belief: our seat's turn in the board's round, with
     * the new reading, the blind, the depth and the state after our action.
     */
    method ProcessSnapshot(t: Tree<S>, ghost m: Measures<S>, strategies: map<int, Strategy<S>>, settings: Settings,
        sittingOut: bool, waiting: bool, s: Snapshot, draw: real) returns (r: Result<Tick<S>>)
      requires Valid() && Measured(t, m) && Shaped(s)
      modifies this
      ensures Valid()
      ensures sittingOut ==> r == Err("We are sitting out") && unchanged(this)
      ensures !sittingOut && !Ready(waiting, s) ==> r == Ok(Idle) && unchanged(this)
      ensures r.Ok? && r.value.Idle? ==> unchanged(this)
      ensures r.Err? && (sittingOut || !Sane(s)) ==> unchanged(this)
      ensures r.Err? && !sittingOut && Sane(s) ==>
        tableData == Believed(old(tableData), old(oldTableData), s)
        && oldTableData == Believed(old(tableData), old(oldTableData), s)
      ensures r.Ok? && r.value.Acted? ==>
        Ready(waiting, s) && Sane(s)
        && oldTableData == Believed(old(tableData), old(oldTableData), s)
        && tableData.snapshot == s
        && tableData.dealer.Some? && (tableData.dealer.value == 0 || tableData.dealer.value == 1)
        && t.player(r.value.state) == tableData.dealer.value
        && t.round(r.value.state) == RoundOf(s.board) && !t.terminal(r.value.state)
        && tableData.bigBlind.Some? && tableData.bigBlind.value > 0.0
        && tableData.stackSize.Some? && tableData.stackSize.value >= 1
        && EffectiveStack(s, tableData.bigBlind.value, settings.totalChips) == Ok(tableData.stackSize.value)
        && tableData.state == t.actionChild(r.value.state, r.value.action)
        && Issues(t, r.value.action, tableData.(state := Some(r.value.state)), settings, draw, r.value.command)
      ensures r.Ok? && r.value.Acted? ==>
        var located := Location(t, m, strategies, settings, Believed(old(tableData), old(oldTableData), s), s);
        located.Ok? && r.value.state == located.value.state
        && tableData.dealer == Some(located.value.dealer) && tableData.bigBlind == Some(located.value.bigBlind)
        && tableData.stackSize == Some(located.value.stackSize)
        && Choice(t, located.value, s) == Ok(r.value.action)
      ensures !sittingOut && Ready(waiting, s) && Sane(s) ==>
        var located := Location(t, m, strategies, settings, Believed(old(tableData), old(oldTableData), s), s);
        (r.Ok? && r.value.Acted? <==>
          located.Ok? && Choice(t, located.value, s).Ok?
          && Acts(t, Choice(t, located.value, s).value, Record(located.value, s), settings, draw))
    {
      if sittingOut {
        return Err("We are sitting out");
      }
      if !Ready(waiting, s) {
        return Ok(Idle);
      }
      if !Sane(s) {
        return Err("ensure failed");
      }
      var believed := Believed(tableData, oldTableData, s);
      tableData := believed;
      oldTableData := believed;
      var located := Locate(t, m, strategies, settings, believed, s);
      if located.Err? {
        return Err(located.error);
      }
      var l := located.value;
      var action := Choice(t, l, s);
      if action.Err? {
        return Err(action.error);
      }
      var data := Record(l, s);
      var acted := Act(t, action.value, data, settings, draw);
      if acted.Err? {
        return Err(acted.error);
      }
      tableData := acted.value.1;
      r := Ok(Acted(l.state, action.value, acted.value.0));
    }
  }
}
