/**
 * The betting trees shared by every game (game_state_base.cpp). A state is a node carrying its
 * id (-1 for a terminal state), the game's own information and the children reached by
 * get_child(i) for i < get_child_count(), any of which may be null.
 *
 * Every game builds its tree the same way: the constructor takes the next id from a shared
 * counter (terminal states take none), then calls create_child for each action in order, and
 * create_child either creates nothing or constructs the child, which recursively builds its own
 * subtree. Build models that construction once, for a game given by its create_child rule.
 */
module GameTree {
  import opened Wrappers

  datatype Node<I> = Node(id: int, info: I, children: seq<Option<Node<I>>>)

  /** The two players' contributions to the pot (std::array<int, 2>), indexed by player 0 or 1. */
  type Pot = (int, int)

  function PotOf(pot: Pot, player: int): int
  {
    if player == 0 then pot.0 else pot.1
  }

  /** pot with player's contribution replaced by v. */
  function WithPot(pot: Pot, player: int, v: int): (r: Pot)
    requires player == 0 || player == 1
    ensures PotOf(r, player) == v && PotOf(r, 1 - player) == PotOf(pot, 1 - player)
  {
    if player == 0 then (v, pot.1) else (pot.0, v)
  }

  /** The non-terminal states of a subtree in depth-first preorder, child 0 first. */
  function Preorder<I>(n: Node<I>): seq<Node<I>>
    decreases n, 1
  {
    (if n.id == -1 then [] else [n]) + ChildrenPreorder(n, 0)
  }

  /** The preorders of n's children from index i on, one after another. */
  function ChildrenPreorder<I>(n: Node<I>, i: nat): seq<Node<I>>
    decreases n, 0, |n.children| - i
  {
    if i >= |n.children| then []
    else (match n.children[i]
          case None => []
          case Some(c) => Preorder(c)) + ChildrenPreorder(n, i + 1)
  }

  /** The preorder of a stack of states, the top (last) one first. */
  function StackPreorder<I>(stack: seq<Node<I>>): seq<Node<I>>
  {
    if stack == [] then [] else Preorder(stack[|stack| - 1]) + StackPreorder(stack[..|stack| - 1])
  }

  /** Number of states in a subtree, terminal or not. */
  function Size<I>(n: Node<I>): nat
    decreases n, 1
  {
    1 + ChildrenSize(n, 0)
  }

  function ChildrenSize<I>(n: Node<I>, i: nat): nat
    decreases n, 0, |n.children| - i
  {
    if i >= |n.children| then 0
    else (match n.children[i]
          case None => 0
          case Some(c) => Size(c)) + ChildrenSize(n, i + 1)
  }

  function StackSize<I>(stack: seq<Node<I>>): nat
  {
    if stack == [] then 0 else Size(stack[|stack| - 1]) + StackSize(stack[..|stack| - 1])
  }

  /**
   * get_state_vector: an explicit stack, initially the root; each state popped is appended when
   * it is not terminal, and its children are pushed last to first, so that child 0 is popped next.
   */
  method GetStateVector<I>(root: Node<I>) returns (states: seq<Node<I>>)
    ensures states == Preorder(root)
  {
    states := [];
    var stack := [root];
    assert stack[..0] == [];
    while stack != []
      invariant states + StackPreorder(stack) == Preorder(root)
      decreases StackSize(stack)
    {
      var s := stack[|stack| - 1];
      var below := stack[..|stack| - 1];
      ghost var visited := states;
      if s.id != -1 {
        states := states + [s];
      }
      var pushed := PushChildren(below, s);
      PopState(visited, stack, pushed, root);
      stack := pushed;
    }
  }

  /**
   * One step of the traversal: popping s, listing it when it is not terminal and pushing its
   * children keeps the listed states followed by the stack's preorder equal to the whole preorder.
   */
  lemma PopState<I>(states: seq<Node<I>>, stack: seq<Node<I>>, pushed: seq<Node<I>>, root: Node<I>)
    requires stack != [] && states + StackPreorder(stack) == Preorder(root)
    requires var s := stack[|stack| - 1];
      StackPreorder(pushed) == ChildrenPreorder(s, 0) + StackPreorder(stack[..|stack| - 1])
      && StackSize(pushed) == ChildrenSize(s, 0) + StackSize(stack[..|stack| - 1])
    ensures var s := stack[|stack| - 1];
      (states + if s.id != -1 then [s] else []) + StackPreorder(pushed) == Preorder(root)
      && StackSize(pushed) < StackSize(stack)
  {
    var s := stack[|stack| - 1];
    var own: seq<Node<I>> := if s.id != -1 then [s] else [];
    var rest := StackPreorder(stack[..|stack| - 1]);
    assert StackPreorder(stack) == Preorder(s) + rest;
    assert Preorder(s) == own + ChildrenPreorder(s, 0);
    Associative(states, own + ChildrenPreorder(s, 0), rest);
    Associative(states, own, ChildrenPreorder(s, 0));
    Associative(states + own, ChildrenPreorder(s, 0), rest);
  }

  lemma Associative<T>(a: seq<T>, b: seq<T>, c: seq<T>)
    ensures (a + b) + c == a + (b + c)
  {
  }

  /** Pushes the children of s, last to first, so that child 0 ends on top. */
  method PushChildren<I>(stack: seq<Node<I>>, s: Node<I>) returns (pushed: seq<Node<I>>)
    ensures StackPreorder(pushed) == ChildrenPreorder(s, 0) + StackPreorder(stack)
    ensures StackSize(pushed) == ChildrenSize(s, 0) + StackSize(stack)
  {
    pushed := stack;
    var i := |s.children| - 1;
    while i >= 0
      invariant -1 <= i < |s.children|
      invariant StackPreorder(pushed) == ChildrenPreorder(s, i + 1) + StackPreorder(stack)
      invariant StackSize(pushed) == ChildrenSize(s, i + 1) + StackSize(stack)
      decreases i + 1
    {
      ChildStep(s, i);
      if s.children[i].Some? {
        var child := s.children[i].value;
        PushChild(pushed, child);
        Associative(Preorder(child), ChildrenPreorder(s, i + 1), StackPreorder(stack));
        pushed := pushed + [child];
      }
      i := i - 1;
    }
  }

  /** One child's share of the preorder and of the size of its parent's children. */
  lemma ChildStep<I>(s: Node<I>, i: nat)
    requires i < |s.children|
    ensures s.children[i].None? ==>
      ChildrenPreorder(s, i) == ChildrenPreorder(s, i + 1) && ChildrenSize(s, i) == ChildrenSize(s, i + 1)
    ensures s.children[i].Some? ==>
      ChildrenPreorder(s, i) == Preorder(s.children[i].value) + ChildrenPreorder(s, i + 1)
      && ChildrenSize(s, i) == Size(s.children[i].value) + ChildrenSize(s, i + 1)
  {
  }

  /** Pushing a state puts its preorder and its size in front of the stack's. */
  lemma PushChild<I>(stack: seq<Node<I>>, child: Node<I>)
    ensures StackPreorder(stack + [child]) == Preorder(child) + StackPreorder(stack)
    ensures StackSize(stack + [child]) == Size(child) + StackSize(stack)
  {
    assert (stack + [child])[..|stack|] == stack;
  }

  /** The ids of a sequence of states count up by one from first. */
  predicate NumberedFrom<I>(states: seq<Node<I>>, first: int)
  {
    forall i :: 0 <= i < |states| ==> states[i].id == first + i
  }

  lemma NumberedConcat<I>(a: seq<Node<I>>, b: seq<Node<I>>, first: int)
    requires NumberedFrom(a, first) && NumberedFrom(b, first + |a|)
    ensures NumberedFrom(a + b, first)
  {
  }

  /** Only non-terminal states are listed. */
  lemma {:induction false} PreorderNonTerminal<I>(n: Node<I>)
    ensures forall s :: s in Preorder(n) ==> s.id != -1
    decreases n, 1
  {
    ChildrenPreorderNonTerminal(n, 0);
  }

  lemma {:induction false} ChildrenPreorderNonTerminal<I>(n: Node<I>, i: nat)
    ensures forall s :: s in ChildrenPreorder(n, i) ==> s.id != -1
    decreases n, 0, |n.children| - i
  {
    if i < |n.children| {
      ChildrenPreorderNonTerminal(n, i + 1);
      match n.children[i]
      case None =>
      case Some(c) => PreorderNonTerminal(c);
    }
  }

  /** Each state's id is its index in the state vector when the tree is numbered in preorder from 0. */
  lemma StateVectorIds<I>(root: Node<I>, states: seq<Node<I>>)
    requires states == Preorder(root) && NumberedFrom(Preorder(root), 0)
    ensures forall i :: 0 <= i < |states| ==> states[i].id == i
    ensures root.id != -1 ==> states != [] && states[0] == root
  {
  }

  /** The children create_child makes for the actions 0 .. a-1, in order. */
  function Created<I>(rule: (I, int) -> Option<I>, info: I, a: nat): seq<I>
  {
    if a == 0 then []
    else Created(rule, info, a - 1) + (match rule(info, a - 1) case None => [] case Some(c) => [c])
  }

  /**
   * The subtree is what the game's rule builds: a terminal state has id -1 and no children; a
   * non-terminal one has exactly the children the rule creates for the actions 0 .. actions-1,
   * in that order, each terminal exactly when the game says so.
   */
  ghost predicate Follows<I>(rule: (I, int) -> Option<I>, terminal: I -> bool, actions: nat, n: Node<I>)
    decreases n
  {
    if n.id == -1 then n.children == []
    else
      var created := Created(rule, n.info, actions);
      |n.children| == |created|
      && (forall k :: 0 <= k < |n.children| ==> n.children[k].Some? && Matches(terminal, n.children[k].value, created[k]))
      && forall k :: 0 <= k < |n.children| ==> Follows(rule, terminal, actions, n.children[k].value)
  }

  /** A child state built for the information the rule created. */
  ghost predicate Matches<I>(terminal: I -> bool, child: Node<I>, created: I)
  {
    child.info == created && (child.id == -1 <==> terminal(created))
  }

  /** The children built so far are the ones created so far, each following the rule. */
  ghost predicate ChildrenFollow<I>(rule: (I, int) -> Option<I>, terminal: I -> bool, actions: nat,
                                    children: seq<Option<Node<I>>>, created: seq<I>)
  {
    |children| == |created|
    && (forall k :: 0 <= k < |children| ==> children[k].Some? && Matches(terminal, children[k].value, created[k]))
    && forall k :: 0 <= k < |children| ==> Follows(rule, terminal, actions, children[k].value)
  }

  lemma AppendFollowing<I>(rule: (I, int) -> Option<I>, terminal: I -> bool, actions: nat,
                           children: seq<Option<Node<I>>>, created: seq<I>, child: Node<I>, c: I)
    requires ChildrenFollow(rule, terminal, actions, children, created)
    requires Matches(terminal, child, c) && Follows(rule, terminal, actions, child)
    ensures ChildrenFollow(rule, terminal, actions, children + [Some(child)], created + [c])
  {
  }

  /** Every non-terminal state the rule creates from a state satisfying inv satisfies inv and has a smaller measure. */
  ghost predicate Decreasing<I(!new)>(rule: (I, int) -> Option<I>, terminal: I -> bool, actions: nat, measure: I -> nat, inv: I -> bool)
  {
    forall i, a :: inv(i) && 0 <= a < actions && rule(i, a).Some? && !terminal(rule(i, a).value) ==>
      inv(rule(i, a).value) && measure(rule(i, a).value) < measure(i)
  }

  /**
   * A state's constructor: it takes id from the shared counter, then creates its children for the
   * actions in order, each non-terminal child taking the counter as its predecessor left it.
   * The states it numbers are exactly its non-terminal states, in preorder.
   */
  method Build<I(!new)>(rule: (I, int) -> Option<I>, terminal: I -> bool, actions: nat, measure: I -> nat,
                  inv: I -> bool, info: I, id: int) returns (node: Node<I>, next: int)
    requires id >= 0 && inv(info) && Decreasing(rule, terminal, actions, measure, inv)
    ensures node.id == id && node.info == info
    ensures Follows(rule, terminal, actions, node)
    ensures NumberedFrom(Preorder(node), id) && next == id + |Preorder(node)|
    decreases measure(info), 1
  {
    var children: seq<Option<Node<I>>> := [];
    next := id + 1;
    for a := 0 to actions
      invariant Built(rule, terminal, actions, id, info, children, a, next)
    {
      children, next := CreateChild(rule, terminal, actions, measure, inv, info, id, a, children, next);
    }
    node := Node(id, info, children);
    assert ChildrenFollow(rule, terminal, actions, node.children, Created(rule, info, actions));
    assert Preorder(node) == [node] + ChildrenPreorder(node, 0);
  }

  /**
   * The children built for the actions 0 .. a-1 are the ones the rule creates, each following
   * the rule, and the counter has numbered their non-terminal states in preorder from id + 1.
   */
  ghost predicate Built<I>(rule: (I, int) -> Option<I>, terminal: I -> bool, actions: nat, id: int, info: I,
                           children: seq<Option<Node<I>>>, a: nat, next: int)
  {
    ChildrenFollow(rule, terminal, actions, children, Created(rule, info, a))
    && NumberedFrom(ChildrenPreorder(Node(id, info, children), 0), id + 1)
    && next == id + 1 + |ChildrenPreorder(Node(id, info, children), 0)|
  }

  /** create_child for one action: nothing, a terminal child, or a child that builds its subtree. */
  method CreateChild<I(!new)>(rule: (I, int) -> Option<I>, terminal: I -> bool, actions: nat, measure: I -> nat,
                              inv: I -> bool, info: I, id: int, a: nat, children: seq<Option<Node<I>>>, next: int)
    returns (children': seq<Option<Node<I>>>, next': int)
    requires id >= 0 && inv(info) && Decreasing(rule, terminal, actions, measure, inv) && a < actions
    requires Built(rule, terminal, actions, id, info, children, a, next)
    ensures Built(rule, terminal, actions, id, info, children', a + 1, next')
    decreases measure(info), 0
  {
    children', next' := children, next;
    match rule(info, a) {
      case None =>
        assert Created(rule, info, a + 1) == Created(rule, info, a);
      case Some(ci) =>
        assert Created(rule, info, a + 1) == Created(rule, info, a) + [ci];
        var child: Node<I>;
        if terminal(ci) {
          child := Node(-1, ci, []);
          assert Preorder(child) == [];
        } else {
          child, next' := Build(rule, terminal, actions, measure, inv, ci, next);
        }
        AppendFollowing(rule, terminal, actions, children, Created(rule, info, a), child, ci);
        AppendChildPreorder(id, info, children, child);
        NumberedConcat(ChildrenPreorder(Node(id, info, children), 0), Preorder(child), id + 1);
        children' := children + [Some(child)];
    }
  }

  /** Appending a child appends its preorder. */
  lemma AppendChildPreorder<I>(id: int, info: I, children: seq<Option<Node<I>>>, child: Node<I>)
    ensures ChildrenPreorder(Node(id, info, children + [Some(child)]), 0)
      == ChildrenPreorder(Node(id, info, children), 0) + Preorder(child)
  {
    AppendChildFrom(id, info, children, child, 0);
  }

  lemma {:induction false} AppendChildFrom<I>(id: int, info: I, children: seq<Option<Node<I>>>, child: Node<I>, i: nat)
    requires i <= |children|
    ensures ChildrenPreorder(Node(id, info, children + [Some(child)]), i)
      == ChildrenPreorder(Node(id, info, children), i) + Preorder(child)
    decreases |children| - i
  {
    var shorter := Node(id, info, children);
    var longer := Node(id, info, children + [Some(child)]);
    ChildStep(longer, i);
    if i == |children| {
      assert ChildrenPreorder(longer, i + 1) == [];
      assert ChildrenPreorder(shorter, i) == [];
    } else {
      AppendChildFrom(id, info, children, child, i + 1);
      assert longer.children[i] == children[i];
      ChildStep(shorter, i);
      if children[i].Some? {
        Associative(Preorder(children[i].value), ChildrenPreorder(shorter, i + 1), Preorder(child));
      }
    }
  }

  /** P holds at every state of the subtree. */
  ghost predicate Everywhere<I>(n: Node<I>, p: I -> bool)
    decreases n
  {
    p(n.info) && forall k :: 0 <= k < |n.children| && n.children[k].Some? ==> Everywhere(n.children[k].value, p)
  }

  /** A property the root has and every created child inherits holds throughout a built tree. */
  lemma {:induction false} FollowsEverywhere<I(!new)>(rule: (I, int) -> Option<I>, terminal: I -> bool, actions: nat,
                                                n: Node<I>, p: I -> bool)
    requires Follows(rule, terminal, actions, n) && p(n.info)
    requires forall i, a :: p(i) && 0 <= a < actions && rule(i, a).Some? ==> p(rule(i, a).value)
    ensures Everywhere(n, p)
    decreases n
  {
    if n.id != -1 {
      forall k | 0 <= k < |n.children| && n.children[k].Some?
        ensures Everywhere(n.children[k].value, p)
      {
        CreatedInherits(rule, actions, n.info, actions, p);
        FollowsEverywhere(rule, terminal, actions, n.children[k].value, p);
      }
    }
  }

  lemma {:induction false} CreatedInherits<I(!new)>(rule: (I, int) -> Option<I>, actions: nat, info: I, a: nat, p: I -> bool)
    requires a <= actions && p(info)
    requires forall i, b :: p(i) && 0 <= b < actions && rule(i, b).Some? ==> p(rule(i, b).value)
    ensures forall k :: 0 <= k < |Created(rule, info, a)| ==> p(Created(rule, info, a)[k])
  {
    if a > 0 {
      CreatedInherits(rule, actions, info, a - 1, p);
    }
  }
}
