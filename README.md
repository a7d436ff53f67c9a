# midas core in Dafny

midas is a heads-up no-limit hold'em bot. This project models its core and proves properties of the model:

- the betting-tree builders of the solver libraries: no-limit (`nlhe_state` and its `nlhe_state_base`), fixed-limit (`flhe_state`), Leduc and Kuhn. It also models the preorder listing of a tree's decision states (`get_state_vector`);
- the card encoding, the sorting networks, the preflop and flop lookup-table keys, the length-prefixed binary serialisation, and the Leduc abstraction and evaluator;
- the referee of the `play` program (`nlhe_game`) and its client for the ACPC dealer protocol, version 2.0.0 (`read_state`, `read_cards` and the raise amount in `main`);
- the Python client `midas` that plays on a poker site. This covers its helpers in `util.py` and its decision engine in `ai.py`. The engine turns a reading of the table into a position in the game tree, tracks its beliefs over two generations, repairs failed all-in bets, catches up with skipped rounds and sizes its bets.

Each module follows the C++ or Python file it is named after.
- Code that changes state in place is modelled as a class with `modifies` clauses. The sorting networks keep their array.
- Loops are methods with loop invariants, proved against functions that specify them.
- Pure calculations are functions with lemmas about them.

Errors the program raises (a C++ `throw` or a Python exception) come out as `Err` values, and an `assert` becomes a precondition. Random draws, screen readings and the strategy files are parameters.

## Model

| member | source | states |
|---|---|---|
| Arith.TruncDiv | src/play/nlhe_game.cpp:266 | C++ integer division truncates toward zero: the quotient times the divisor lies between zero and the dividend |
| Arith.Trunc | src/cfrlib/nlhe_state_base.cpp:198 | a double converted to int drops the fraction toward zero |
| Arith.Ceil | src/cli/midas/ai.py:332 | math.ceil: the least integer not below the value |
| Cards.GetSuit | src/util/card.h:18-21 | the suit bits of a card lie in [0, 4) |
| Cards.GetCard | src/util/card.h:23-26 | get_rank and get_suit of get_card(r, s) give back r and s; ranks below 13 give a card of the deck |
| Cards.CardOfRankSuit | src/util/card.h:13-26 | every card is rebuilt from its rank and suit |
| Cards.GetCardString | src/util/card.h:28-61 | "?" exactly for values outside [0, 52), two characters otherwise |
| Cards.StringToRank | src/util/card.h:63-89 | -1 for the empty string; any result is -1 or a rank |
| Cards.CharToSuit | src/util/card.h:101-110 | the suit character's suit, or -1 |
| Cards.StringToCard | src/util/card.h:91-116 | -1 or a card of the deck, and -1 for strings shorter than 2 |
| Cards.CardStringRoundTrip | src/util/card.h:28-116 | string_to_card(get_card_string(c)) == c for every card of the deck |
| Cards.RankCharParses | src/util/card.h:35-50 | the rank character printed for a rank parses back to that rank |
| Cards.SuitCharParses | src/util/card.h:52-58 | the suit character printed for a suit parses back to that suit |
| Cards.StringToCardNames | src/util/card.h:91-116 | a string that parses to a card starts with that card's printed name |
| Cards.UnknownRankChar | src/util/card.h:85-99 | a first character outside the rank table gives -1 for the rank and the card |
| SortNetworks.SortPair | src/util/sort.h:3-8 | afterwards a <= b; the two swap exactly when a > b, and nothing else changes |
| SortNetworks.Sort2 | src/util/sort.h:10-14 | ascending permutation of the input, unchanged when already ordered |
| SortNetworks.Sort3 | src/util/sort.h:16-22 | the three-element network yields an ascending permutation |
| SortNetworks.Sort4 | src/util/sort.h:24-32 | the four-element network yields an ascending permutation |
| SortNetworks.Sort5Front | src/util/sort.h:37-40 | the first four exchanges leave the first two and the last three in order |
| SortNetworks.Sort5Back | src/util/sort.h:41-45 | the last five exchanges merge those runs into ascending order |
| SortNetworks.Sort5 | src/util/sort.h:34-46 | the five-element network yields an ascending permutation |
| SortNetworks.SortedUnique | src/util/sort.h:16-46 | two ascending permutations of the same values are equal, so each network's output is the sorted input |
| PreflopLut.GetKey | src/lutlib/holdem_preflop_lut.cpp:88-99 | for two cards of the deck the key lies in [0, 169), the size of the table |
| PreflopLut.KeySymmetric | src/lutlib/holdem_preflop_lut.cpp:92-98 | the key does not depend on the order of the hole cards |
| PreflopLut.KeyRanks | src/lutlib/holdem_preflop_lut.cpp:95-98 | row and column are (low, high) for suited hands and (high, low) for offsuit ones |
| PreflopLut.SuitedAboveDiagonal | src/lutlib/holdem_preflop_lut.cpp:95-98 | a hand is suited exactly when its key lies above the diagonal |
| PreflopLut.SameKeyIffSameClass | src/lutlib/holdem_preflop_lut.cpp:92-98 | two hands share a key iff they have the same ranks and the same suitedness |
| LeducAbstraction.GetBucket | src/abslib/leduc_abstraction.cpp:3-6 | the bucket is card / 2, in [0, 3) for cards of the deck |
| LeducAbstraction.GetBucketCount | src/abslib/leduc_abstraction.cpp:8-14 | 3 buckets exactly in round 0, otherwise 9 |
| LeducAbstraction.GetBuckets | src/abslib/leduc_abstraction.cpp:16-20 | bucket 0 is the card's bucket; bucket 1 splits into it and the board's bucket |
| LeducAbstraction.BucketsInRange | src/abslib/leduc_abstraction.cpp:3-20 | each bucket is below its round's bucket count |
| LeducAbstraction.BucketsIdentifyRanks | src/abslib/leduc_abstraction.cpp:16-20 | two deals share buckets iff card and board have the same ranks |
| LeducEvaluator.GetHandValue | src/evallib/leduc_evaluator.cpp:3-13 | values lie in [0, 6); a value is at least 3 iff the card pairs the board |
| LeducEvaluator.PairBeatsHighCard | src/evallib/leduc_evaluator.cpp:9-12 | every pair outscores every non-pair |
| LeducEvaluator.ValueFollowsRank | src/evallib/leduc_evaluator.cpp:7-12 | between hands that both pair or both do not, the higher rank scores higher; equal ranks score alike |
| FlopLut.RankPatternOf | src/lutlib/holdem_flop_lut.cpp:174-179 | XXX exactly when all three sorted ranks are equal, XYZ exactly when no two neighbours are, XXY or XYY otherwise |
| FlopLut.SuitPatternOf | src/lutlib/holdem_flop_lut.cpp:193-198 | AAA exactly when the three suits are equal, ABC exactly when they are pairwise different |
| FlopLut.TripleIndexInjective | src/lutlib/holdem_flop_lut.cpp:163-185 | the loop order gives every sorted rank triple its own position in rank_patterns_ |
| FlopLut.PairsCount | src/lutlib/holdem_flop_lut.cpp:151-153 | there are 91 sorted hole rank pairs, the factor 91 of the key |
| FlopLut.RankLoops | src/lutlib/holdem_flop_lut.cpp:158-185 | rank_indexes_ locate every triple and pair; each rank_patterns_ entry holds its triple's pattern and its position among triples of that pattern; the combination counts are the pattern totals |
| FlopLut.RankBlock | src/lutlib/holdem_flop_lut.cpp:163-185 | one pass of the outer rank loop fills row 1 at i and enumerates the triples starting with i in order |
| FlopLut.RankRow | src/lutlib/holdem_flop_lut.cpp:172-183 | the inner loop pushes the triples (i, j, k) for k from j up, each with its pattern and running count |
| FlopLut.SuitLoops | src/lutlib/holdem_flop_lut.cpp:187-203 | suit_patterns_ has 64 entries and entry 16 i + 4 j + k is the pattern of the suits (i, j, k) |
| FlopLut.OffsetLoops | src/lutlib/holdem_flop_lut.cpp:205-241 | each allowed (rank pattern, suit pattern) gets the number of slots of the allowed patterns before it, the others -1; each rank pattern starts after the keys of the patterns before it; the size is the total |
| FlopLut.OffsetRow | src/lutlib/holdem_flop_lut.cpp:211-236 | the slot offsets of one rank pattern: 4 slots for AAA, 16 for ABC, 9 for the others, -1 where the pattern is not allowed |
| FlopLut.SlotTotals | src/lutlib/holdem_flop_lut.cpp:12-18 | the allowed suit patterns give 16, 34, 34 and 47 hole-suit slots to XXX, XXY, XYY and XYZ |
| FlopLut.SortedTriplePermutation | src/lutlib/holdem_flop_lut.cpp:105-107 | the sorted board is a permutation of the three board cards |
| FlopLut.SortedTripleSymmetric | src/lutlib/holdem_flop_lut.cpp:105-107 | sorting makes the board and the hole independent of the order in which their cards are given |
| FlopLut.SuitMapOf | src/lutlib/holdem_flop_lut.cpp:120-129 | every board suit gets a letter below the letter count; suits off the board stay -1 |
| FlopLut.SuitMapLetters | src/lutlib/holdem_flop_lut.cpp:120-129 | the first board suit is letter 0, and the board's suit pattern fixes the letter count: 1 for AAA, 3 for ABC, else 2 |
| FlopLut.IsomorphicSuits | src/lutlib/holdem_flop_lut.cpp:120-129 | the renumbering loop computes SuitMapOf of the board suits |
| FlopLut.HoleSuitSlot | src/lutlib/holdem_flop_lut.cpp:20-27 | every hole-suit code a renumbered flop can produce has a slot below its pattern's slot count, so the -1 entries are never read |
| FlopLut.BoardPatternAllowed | src/lutlib/holdem_flop_lut.cpp:132-133 | a board of three distinct cards never has a rank/suit pattern pair that init marks -1 |
| FlopLut.SortBoard | src/lutlib/holdem_flop_lut.cpp:104-107 | the three-element sorting network gives the sorted board |
| FlopLut.SortHole | src/lutlib/holdem_flop_lut.cpp:136-137 | the two-element sorting network gives the sorted hole |
| FlopLut.BoardTriple | src/lutlib/holdem_flop_lut.cpp:113 | a sorted board's rank triple is one of the 455 positions |
| FlopLut.HoleRank | src/lutlib/holdem_flop_lut.cpp:142 | a sorted hole's rank pair is one of the 91 positions |
| FlopLut.BoardSuitPattern | src/lutlib/holdem_flop_lut.cpp:118 | a sorted board's suit pattern is allowed for its rank pattern |
| FlopLut.HoleSuitSlotOf | src/lutlib/holdem_flop_lut.cpp:140-146 | the hole-suit slot lies below the slot count of the board's suit pattern |
| FlopLut.KeyOfLookups | src/lutlib/holdem_flop_lut.cpp:148-153 | the values get_key reads combine into the key of the sorted cards |
| FlopLut.BoardPositionBelow | src/lutlib/holdem_flop_lut.cpp:114-115 | a board's position among boards of its rank pattern is below that pattern's count |
| FlopLut.FlopKeyInTable | src/lutlib/holdem_flop_lut.cpp:150-153 | every flop of distinct cards has a key in [0, size) |
| FlopLut.KeyInBlock | src/lutlib/holdem_flop_lut.cpp:150-153 | a key stays inside its rank pattern's block |
| FlopLut.FlopTable.constructor | src/lutlib/holdem_flop_lut.cpp:30-32 | the constructor runs init, leaving the tables valid |
| FlopLut.FlopTable.Init | src/lutlib/holdem_flop_lut.cpp:156-242 | init leaves the rank, suit and offset tables as RankLoops, SuitLoops and OffsetLoops state |
| FlopLut.FlopTable.BoardLookup | src/lutlib/holdem_flop_lut.cpp:109-118 | after init the tables give a sorted board's rank triple, rank pattern, suit pattern, slot offset and block start |
| FlopLut.FlopTable.HoleLookup | src/lutlib/holdem_flop_lut.cpp:139-142 | after init row 0 of rank_indexes_ gives a sorted hole's rank-pair position |
| FlopLut.FlopTable.GetKey | src/lutlib/holdem_flop_lut.cpp:100-154 | the key lies in [0, size) and is the key of the sorted cards, whatever order they come in |
| BinaryIo.Pow256 | src/util/binary_io.h:5-15 | the number of values of a scalar of the given width, even for a positive width |
| BinaryIo.EncodeUnsigned | src/util/binary_io.h:11-15 | a scalar's raw image has exactly sizeof(T) bytes |
| BinaryIo.DecodeUnsigned | src/util/binary_io.h:5-9 | the value read from n bytes fits in n bytes |
| BinaryIo.DecodeEncodeUnsigned | src/util/binary_io.h:5-15 | reading the image of an unsigned value gives the value |
| BinaryIo.EncodeDecodeUnsigned | src/util/binary_io.h:5-15 | writing the value read from bytes gives the bytes back: encoding is a bijection |
| BinaryIo.EncodeSigned | src/util/binary_io.h:11-15 | a signed scalar's two's-complement image has sizeof(T) bytes |
| BinaryIo.DecodeSigned | src/util/binary_io.h:5-9 | a value read from n bytes lies in the signed range of n bytes |
| BinaryIo.DecodeEncodeSigned | src/util/binary_io.h:5-15 | a signed value in range survives the round trip |
| BinaryIo.WriteScalar | src/util/binary_io.h:11-15 | the stream grows by sizeof(T) bytes and keeps what it held |
| BinaryIo.ReadScalar | src/util/binary_io.h:5-9 | a read succeeds exactly when the stream holds sizeof(T) more bytes, and then advances by that count |
| BinaryIo.ScalarRoundTrip | test/binary_io_test.cpp:4-81 | a written scalar is read back, whatever precedes or follows it |
| BinaryIo.ScalarsInSequence | src/util/binary_io.h:5-15 | two scalars written one after the other are read back in the same order |
| BinaryIo.EncodeElements | src/util/binary_io.h:30 | the elements' images take width bytes each |
| BinaryIo.DecodeElements | src/util/binary_io.h:23 | count elements are read, each within its width |
| BinaryIo.DecodeEncodeElements | src/util/binary_io.h:23-30 | decoding the elements' images gives the elements |
| BinaryIo.WriteSequence | src/util/binary_io.h:26-31 | a vector or array is written as its u64 length and then its elements, after what the stream held |
| BinaryIo.ReadElements | src/util/binary_io.h:22-23 | the elements are read exactly when the stream holds them, and the position advances past them |
| BinaryIo.ReadVector | src/util/binary_io.h:17-24 | a vector read takes its size from the u64 prefix and then reads that many elements |
| BinaryIo.ReadVectorOk | src/util/binary_io.h:17-24 | once the length is read and the elements fit, the read yields those elements |
| BinaryIo.WriteSequenceSplit | src/util/binary_io.h:26-31 | a written sequence is its length image followed by its element images |
| BinaryIo.VectorRoundTrip | test/binary_io_test.cpp:4-81 | a written vector is read back element for element, whatever precedes or follows it |
| BinaryIo.ReadArray | src/util/binary_io.h:33-40 | an array read succeeds exactly when the vector read does and the length equals N |
| BinaryIo.ArrayRoundTrip | src/util/binary_io.h:33-47 | a written array is read back by a reader that expects its length |
| BinaryIo.ArrayLengthMismatch | src/util/binary_io.h:38 | an array read with a different length fails, as the assert does |
| GameTree.WithPot | src/cfrlib/kuhn_state.cpp:65-68 | replacing one player's pot sets that entry and keeps the other |
| GameTree.GetStateVector | src/gamelib/game_state_base.cpp:4-28 | the explicit-stack loop lists the non-terminal states in depth-first preorder, child 0 first |
| GameTree.PopState | src/gamelib/game_state_base.cpp:11-24 | popping the top state and pushing its children keeps listed states followed by the stack's preorder equal to the tree's preorder |
| GameTree.PushChildren | src/gamelib/game_state_base.cpp:20-24 | pushing the children in reverse puts their preorder, child 0 first, in front of the stack's |
| GameTree.PushChild | src/gamelib/game_state_base.cpp:22-23 | pushing a state puts its preorder and size in front of the stack's |
| GameTree.PreorderNonTerminal | src/gamelib/game_state_base.cpp:14-18 | only non-terminal states (id other than -1) are listed |
| GameTree.StateVectorIds | src/gamelib/game_state_base.cpp:16 | in a tree numbered in preorder from 0, each listed state's id is its index, and a non-terminal root comes first |
| GameTree.Build | src/cfrlib/kuhn_state.cpp:27-40 | the constructor pattern shared by the builders: every child is the one create_child makes, terminal children get id -1, and the non-terminal states are numbered in preorder from the shared counter |
| GameTree.CreateChild | src/cfrlib/kuhn_state.cpp:57-74 | one create_child: nothing, a terminal child, or a child whose subtree takes the next ids |
| GameTree.AppendFollowing | src/cfrlib/kuhn_state.cpp:70-73 | appending a child that follows the rule keeps the children following the rule |
| GameTree.FollowsEverywhere | src/cfrlib/kuhn_state.cpp:57-74 | a property of the root that every created child inherits holds at every state of a built tree |
| GameTree.CreatedInherits | src/cfrlib/kuhn_state.cpp:23-24 | the same for the children created for the first actions |
| KuhnState.NewTree | src/cfrlib/kuhn_state.cpp:8-25 | the root has id 0, player 0 and pot (1, 1); the tree follows create_child and is numbered in preorder from 0 |
| KuhnState.Child | src/cfrlib/kuhn_state.cpp:57-74 | a child exists exactly for the two actions of a non-terminal state; the other player acts next, only the mover's pot grows, by one chip on a bet, and the child ends the hand when it repeats its parent's action or passes after a bet |
| KuhnState.RootValid | src/cfrlib/kuhn_state.cpp:8-18 | the root satisfies the invariant |
| KuhnState.ChildClosed | src/cfrlib/kuhn_state.cpp:57-74 | every child create_child makes from a valid state is valid |
| KuhnState.SubtreeValid | src/cfrlib/kuhn_state.cpp:27-40 | every state below a valid state satisfies the invariant |
| KuhnState.ChildValid | src/cfrlib/kuhn_state.cpp:57-74 | create_child keeps the tree's invariant: a bet owes one chip, a repeat of the parent's action is a showdown with equal pots, a pass after a bet is a fold one chip short |
| KuhnState.ChildDecreasing | src/cfrlib/kuhn_state.cpp:63 | non-terminal children stay valid and move forward, so the tree is finite |
| KuhnState.TreeValid | src/cfrlib/kuhn_state.cpp:11-74 | every state of the built tree satisfies the invariant |
| KuhnState.TwoChildren | src/cfrlib/kuhn_state.cpp:72-73 | a non-terminal state gets both children, child_count is 2 and get_child(a) is the child for a |
| KuhnState.TerminalEvBalanced | src/cfrlib/kuhn_state.cpp:81-92 | a showdown pays result times the equal pot; a fold pays -pot[0] or pot[1] by the bettor's seat, and the folder is one chip short |
| KuhnState.TerminalEv | src/cfrlib/kuhn_state.cpp:81-92 | at a showdown with equal stakes the loser pays one stake by the result; after a bet and a pass the passer forfeits their own stake to player 0's account; any other state pays 0 |
| LeducState.NewTree | src/gamelib/leduc_state.cpp:10-37 | the root has id 0, player 0, pot (1, 1), preflop and no raises; the tree follows create_child and is numbered in preorder from 0 |
| LeducState.Child | src/gamelib/leduc_state.cpp:39-87 | a child exists exactly for a non-terminal state's actions other than a third raise, or a fold at the root or after a check; only the mover's pot changes (a call matches, a raise goes 2 or 4 above the opponent); a call after a raise or a second check or call starts the next round with player 0 and no raises; only a fold or a flop call after flop action ends the hand |
| LeducState.ChildValid | src/gamelib/leduc_state.cpp:39-87 | create_child keeps the invariant (at most two raises; a raise owes the round's raise size of 2 or 4 within its parent's round; a call owes nothing; only a fold or a flop call after flop action ends the hand, the call with equal pots), and a non-terminal child moves forward |
| LeducState.ChildDecreasing | src/gamelib/leduc_state.cpp:44-83 | non-terminal children stay valid and move forward, so the tree is finite |
| LeducState.RootValid | src/gamelib/leduc_state.cpp:10-17 | the root satisfies the invariant |
| LeducState.ChildClosed | src/gamelib/leduc_state.cpp:39-87 | every child create_child makes from a valid state is valid |
| LeducState.SubtreeValid | src/gamelib/leduc_state.cpp:25-37 | every state below a valid state satisfies the invariant |
| LeducState.TreeValid | src/gamelib/leduc_state.cpp:10-87 | every state of the built tree satisfies the invariant |
| LeducState.ChildOrder | src/gamelib/leduc_state.cpp:85-86 | get_child(i) is the i-th child created: at the root (no fold) child 0 is CALL and child 1 RAISE; facing a raise child 0 is FOLD and RAISE is there only below two raises |
| LeducState.NewRound | src/gamelib/leduc_state.cpp:59-83 | a new round comes only from a call, is the next round, starts with player 0 and resets the raise count |
| LeducState.TerminalEvBalanced | src/gamelib/leduc_state.cpp:89-101 | a terminal state is a fold or a call; a call pays result times either (equal) pot; a fold pays pot[1] or -pot[0] by the folder's opponent |
| LeducState.TerminalEv | src/gamelib/leduc_state.cpp:89-101 | the folder forfeits their own stake; a call with equal stakes moves one stake by the result; any other state pays 0 |
| FlheState.NewTree | src/gamelib/flhe_state.cpp:7-43 | the root has id 0, player 0, pot (1, 2), preflop and one raise (the blind); the tree follows create_child and is numbered in preorder from 0; children are kept in creation order (the corrected layout, see ## Findings) |
| FlheState.Child | src/gamelib/flhe_state.cpp:45-97 | a child exists exactly for a non-terminal state's actions other than a fifth raise or a fold after a check; only the mover's pot changes (a call matches, a raise goes 2 or 4 above the opponent); a call after a raise or a second check or call starts the next round with player 1 and no raises; only a fold or a river call after river action ends the hand |
| FlheState.ChildValid | src/gamelib/flhe_state.cpp:45-97 | create_child keeps the invariant (at most four raises a round; a raise owes 2 chips preflop and on the flop, 4 on the turn and river; a call owes nothing; only a fold or a river call after river action ends the hand, the call with equal pots), and a non-terminal child moves forward |
| FlheState.ChildDecreasing | src/gamelib/flhe_state.cpp:50-89 | non-terminal children stay valid and move forward, so the tree is finite |
| FlheState.RootValid | src/gamelib/flhe_state.cpp:10-18 | the root satisfies the invariant, owing the small blind's one chip |
| FlheState.ChildClosed | src/gamelib/flhe_state.cpp:45-97 | every child create_child makes from a valid state is valid |
| FlheState.SubtreeValid | src/gamelib/flhe_state.cpp:28-43 | every state below a valid state satisfies the invariant |
| FlheState.TreeValid | src/gamelib/flhe_state.cpp:10-97 | every state of the built tree satisfies the invariant; no round has more than four raises |
| FlheState.NewRound | src/gamelib/flhe_state.cpp:65-89 | a new round comes only from raise-call or a second check or call of a round, is the next round, starts with player 1 and resets the raise count |
| FlheState.Slots | src/gamelib/flhe_state.cpp:91-94 | children_ slot a is filled exactly when create_child made a child for action a |
| FlheState.ChildCount | src/gamelib/flhe_state.cpp:96 | child_count_ is the number of children created |
| FlheState.VisitedSlots | src/gamelib/game_state_base.cpp:20-24 | the traversal pushes exactly the filled slots below child_count_ |
| FlheState.RaiseSkippedAfterCall | src/gamelib/flhe_state.cpp:53-54 | as written, after a check or call with a raise open the CALL and RAISE children sit in slots 1 and 2 while child_count_ is 2, so the RAISE child is never visited |
| FlheState.RootLimp | src/gamelib/flhe_state.cpp:67-82 | the small blind's limp leaves player 1 to act with pots (2, 2) and one raise |
| FlheState.LimpRaiseSkipped | src/gamelib/flhe_state.cpp:93-96 | the big blind's raise after the limp is the first subtree the traversal skips |
| FlheState.CreatedChildren | src/gamelib/flhe_state.cpp:91-96 | kept in creation order, the children are child_count_ many and after a check or call are the CALL child then the RAISE child |
| FlheState.TerminalEvBalanced | src/gamelib/flhe_state.cpp:99-111 | a terminal state is a fold or a call; a call pays result times either (equal) pot; a fold pays pot[1] or -pot[0] by the folder's opponent |
| FlheState.TerminalEv | src/gamelib/flhe_state.cpp:99-111 | the folder forfeits their own stake; a call with equal stakes moves one stake by the result; any other state pays 0 |
| NlheStateBase.ActionMask | src/cfrlib/nlhe_state_base.cpp:55-72 | each of the eleven actions has the bit 2^action; any other value is the "unknown action mask" error |
| NlheStateBase.ActionMasksDistinct | src/cfrlib/nlhe_state_base.cpp:55-72 | no two actions share a mask bit |
| NlheStateBase.RaiseFactor | src/cfrlib/nlhe_state_base.cpp:74-89 | exactly the nine raises have a factor, and it is positive; fold and call are the "unknown action raise factor" error |
| NlheStateBase.RaiseFactorIncreasing | src/cfrlib/nlhe_state_base.cpp:74-89 | the raises are ordered from the smallest pot fraction to the all-in one |
| NlheStateBase.NewPlayerPot | src/cfrlib/nlhe_state_base.cpp:194-199 | defined exactly for raises; never above the stack; either the stack or at least a call |
| NlheStateBase.RaisedChips | src/cfrlib/nlhe_state_base.cpp:198 | the chips a raise adds are at least the call, and more than the call when the pot and factor are positive |
| NlheStateBase.NewPlayerPotMonotone | src/cfrlib/nlhe_state_base.cpp:194-199 | a larger raise never gives a smaller new pot |
| NlheStateBase.ChipsMonotone | src/cfrlib/nlhe_state_base.cpp:198 | a larger factor never adds fewer chips |
| NlheStateBase.TruncMonotone | src/cfrlib/nlhe_state_base.cpp:198 | the int conversion of the chips keeps their order |
| NlheStateBase.PotSizes | src/cfrlib/nlhe_state_base.cpp:145-160 | fold and call sit at -1, the sized raises at their factors, and the all-in size x solves to_call + x * (to_call + in_pot) == stack_size |
| NlheStateBase.SoftTranslate | src/cfrlib/nlhe_state_base.cpp:110-118 | the choice is 0 (smaller size) or 1 (larger size) |
| NlheStateBase.SoftTranslateLower | src/cfrlib/nlhe_state_base.cpp:110-118 | a bet equal to the smaller of two different sizes always picks the smaller |
| NlheStateBase.SoftTranslateUpper | src/cfrlib/nlhe_state_base.cpp:110-118 | a bet equal to the larger size always picks the larger |
| NlheStateBase.Bounds | src/cfrlib/nlhe_state_base.cpp:162-176 | lower is the largest available size not above the fraction and upper the smallest above it, each INVALID_ACTION exactly when no such size exists, and the two differ |
| NlheStateBase.Raise | src/cfrlib/nlhe_state_base.cpp:136-192 | nothing exactly when the opponent is all-in; otherwise an available raise: the one above when none is below, the one below when none is above, and an exact size when one matches |
| NlheStateBase.ActionLetter | src/cfrlib/nlhe_state_base.cpp:122 | each action prints as a lower-case letter |
| NlheStateBase.LetterAction | src/cfrlib/nlhe_state_base.cpp:122 | a letter read back names an action printed as that letter |
| NlheStateBase.LetterActionInverse | src/cfrlib/nlhe_state_base.cpp:122 | every action's letter reads back as that action |
| NlheStateBase.StepLetter | src/cfrlib/nlhe_state_base.cpp:127-128 | the letter is lower case exactly when player 0 acted, and then names the action; when player 1 acted it is upper case and its lower-case form names the action |
| NlheStateBase.HistoryLetters | src/cfrlib/nlhe_state_base.cpp:123-129 | one letter per step of the history, in order from the root |
| NlheStateBase.IntToString | src/cfrlib/nlhe_state_base.cpp:131 | the printed id is non-empty and holds no colon |
| NlheStateBase.DescribeReadsBack | src/cfrlib/nlhe_state_base.cpp:120-134 | the printed state is the id, a colon and one letter per step whose case gives the player and whose letter gives the action: as printed for player 0, through tolower for player 1 |
| NlheStateBase.Describe | src/cfrlib/nlhe_state_base.cpp:120-134 | the first colon of the printed line ends the printed id, and one character follows it per step; what each character says is stated by StepLetter and read back by DescribeReadsBack |
| NlheStateBase.DigitsRoundTrip | src/cfrlib/nlhe_state_base.cpp:15 | a stack size printed in decimal reads back as itself |
| NlheStateBase.SplitAt | src/cfrlib/nlhe_state_base.cpp:7-14 | the string is the part before the first separator, the separator and the rest, or it has no separator |
| NlheStateBase.SplitAtJoin | src/cfrlib/nlhe_state_base.cpp:7-14 | a first part without '-' is split off exactly |
| NlheStateBase.MatchConfig | src/cfrlib/nlhe_state_base.cpp:7-14 | a match splits the configuration into a game without '-', a run of letters and a run of digits that join back to it |
| NlheStateBase.MatchJoined | src/cfrlib/nlhe_state_base.cpp:7-14 | well-formed parts joined by '-' match as those same parts |
| NlheStateBase.Create | src/cfrlib/nlhe_state_base.cpp:5-53 | an accepted configuration enables exactly the "nlhe" or the "nlhe2" action set |
| NlheStateBase.SelectGame | src/cfrlib/nlhe_state_base.cpp:17-52 | only the two known game and action strings give a game |
| NlheStateBase.CreateAccepts | src/cfrlib/nlhe_state_base.cpp:5-53 | a configuration is accepted exactly when it is "nlhe-fchqpwdta-" or "nlhe2-fcohqpwdvta-" followed by digits |
| NlheStateBase.CreateStack | src/cfrlib/nlhe_state_base.cpp:17-31 | "nlhe-fchqpwdta-N" gives all actions but RAISE_O and RAISE_V, no limited raises and stack N |
| NlheStateBase.CreateStack2 | src/cfrlib/nlhe_state_base.cpp:33-49 | "nlhe2-fcohqpwdvta-N" gives all eleven actions, RAISE_O, RAISE_H and RAISE_Q limited, and stack N |
| NlheState.WithMask | src/gamelib/nlhe_state.cpp:127-130 | the mover's raise mask is replaced and the other player's is kept |
| NlheState.NextEnabled | src/gamelib/nlhe_state.cpp:164-173 | the smallest enabled action from a on, or none up to RAISE_A |
| NlheState.NextSizeAction | src/gamelib/nlhe_state.cpp:164-173 | the do-while finds exactly the next larger enabled size, and none (the mask lookup throws) past RAISE_A |
| NlheState.CeilPlayerPot | src/gamelib/nlhe_state.cpp:347-353 | never above the stack; with a positive pot either the stack or more than a call |
| NlheState.RaisePot | src/gamelib/nlhe_state.cpp:159-193 | a raise that survives the combining step moves the mover above the opponent and no higher than the stack, and is all-in or at least a minimum raise |
| NlheState.FoldChildValid | src/gamelib/nlhe_state.cpp:99-100 | a fold child keeps the state invariant and ends the hand |
| NlheState.CallChildValid | src/gamelib/nlhe_state.cpp:101-111 | a call child keeps the state invariant and, unless it ends the hand, moves the hand forward |
| NlheState.RaiseChildValid | src/gamelib/nlhe_state.cpp:121-205 | a raise child keeps the state invariant, never ends the hand and moves the hand forward |
| NlheState.ChildValid | src/gamelib/nlhe_state.cpp:77-206 | every child create_child makes keeps the invariant, and the non-terminal ones move the hand forward |
| NlheState.ChildDecreasing | src/gamelib/nlhe_state.cpp:73-74 | building children from a valid state terminates: each non-terminal child has a smaller measure |
| NlheState.NewTree | src/gamelib/nlhe_state.cpp:41-75 | the constructor fails exactly when a raise would ask for a missing next size; otherwise the tree is create_child applied at every state, ids numbered 0, 1, ... in preorder |
| NlheState.Child | src/gamelib/nlhe_state.cpp:77-206 | a child exists only for an enabled action of a non-terminal state, never a raise against an all-in nor a fold after a check, and always for an open fold or call; it records the action, its parent's round and player and the game's settings, keeps the opponent's pot, leaves the pots on a fold and matches them on a call, starts a new round only on a call (player 1 first, raise masks cleared), and ends the hand exactly on a fold, a river call after river action or an all-in call |
| NlheState.TreeValid | src/gamelib/nlhe_state.cpp:139-150 | every state of a built tree keeps both pots within the stack and a call leaves them equal |
| NlheState.ChildClosed | src/gamelib/nlhe_state.cpp:77-206 | the state invariant is closed under create_child |
| NlheState.ClosedActions | src/gamelib/nlhe_state.cpp:79-93 | no child for a disabled action or at a terminal state, no raise against an all-in opponent, no fold after a check or call |
| NlheState.ChildShape | src/gamelib/nlhe_state.cpp:97-120 | a child ends the hand exactly on a fold, a river call after river action or the call of an all-in; a call matches the pots; a new round comes from a call, starts with player 1 and clears the raise masks |
| NlheState.LimitedOnce | src/gamelib/nlhe_state.cpp:121-132 | a limited small raise already made by the mover this round is not offered again |
| NlheState.LimitRecorded | src/gamelib/nlhe_state.cpp:113-132 | making a limited small raise records it for the mover, and within a round no record is lost |
| NlheState.GetChild | src/gamelib/nlhe_state.cpp:247-256 | the child at an index in range, and nothing for -1 or an index past the end |
| NlheState.ActionChild | src/gamelib/nlhe_state.cpp:360-369 | a child found carries the action asked for and is one of the children |
| NlheState.ActionChildAt | src/gamelib/nlhe_state.cpp:360-369 | the search returns the first child with the action |
| NlheState.ActionChildAbsent | src/gamelib/nlhe_state.cpp:360-369 | the search returns nothing when no child has the action |
| NlheState.ActionChildFinds | src/gamelib/nlhe_state.cpp:360-369 | in a built tree the action child exists exactly when create_child made one for that action, and is that child |
| NlheState.ChildLabelled | src/gamelib/nlhe_state.cpp:59-66 | a created child records the action it was created for |
| NlheState.CreatedIncreasing | src/gamelib/nlhe_state.cpp:73-74 | children are created in increasing action order |
| NlheState.TerminalEvBalanced | src/gamelib/nlhe_state.cpp:208-225 | a terminal state is a fold or a call; a call pays the result times the (equal) pot; a fold pays pot[1] or -pot[0] by who folded |
| NlheState.TerminalEv | src/gamelib/nlhe_state.cpp:208-225 | the folder forfeits their own stake; a call with equal stakes moves one stake by the result; any other state pays 0 |
| NlheState.ParseLetters | src/gamelib/nlhe_state.cpp:385-416 | the letters parse exactly when each names an action; then lower case enables and upper case enables and limits |
| NlheState.LettersStep | src/gamelib/nlhe_state.cpp:388-416 | one more letter adds its action to the enabled set, and to the limited set when upper case |
| NlheState.CreateState | src/gamelib/nlhe_state.cpp:371-422 | "unable to parse configuration" when the pattern fails, "unknown game configuration" for a game other than nlhe, success exactly for nlhe with known letters, giving their enabled and limited sets and the stack number |
| NlheState.LimitedEnabled | src/gamelib/nlhe_state.cpp:403-413 | every limited action is also enabled |
| NlheGame.SetBet | src/play/nlhe_game.cpp:153 | only the given player's bet changes |
| NlheGame.Dealt | src/play/nlhe_game.cpp:42-88 | the dealer posts 1 and the other player 2, the dealer acts first in round 0 with an empty pot and nobody all-in; dealer, bankroll and stack are kept |
| NlheGame.CallWith | src/play/nlhe_game.cpp:148-201 | the caller matches the other bet and is all-in exactly when that uses up the stack; a closing call moves both bets into the pot, advances the round and gives the turn to the player after the dealer; otherwise the turn passes |
| NlheGame.Closes | src/play/nlhe_game.cpp:162-175 | corrected closing rule: after preflop a call closes exactly when it calls a bet, is the dealer's check or puts the caller all-in; preflop a call of more than one chip closes, and the dealer's one-chip completion closes only when it puts the caller all-in |
| NlheGame.AfterCall | src/play/nlhe_game.cpp:148-201 | call() with the corrected closing rule: the bets are matched, the all-in flag set exactly when the call uses up the stack, an all-in call always closes the round, and nothing is settled |
| NlheGame.AfterRaise | src/play/nlhe_game.cpp:203-261 | below the minimum raise, or when the call already puts the raiser all-in, it is a call; otherwise the raiser's bet becomes the other bet plus the raise capped at the stack, and the turn passes |
| NlheGame.AfterFold | src/play/nlhe_game.cpp:139-146 | player 0's bankroll loses or wins half the pot plus the folder's bet; the hand stops and the button moves |
| NlheGame.AfterShowdown | src/play/nlhe_game.cpp:263-284 | player 0's bankroll moves by result times the pot halved toward zero; the hand stops and the button moves |
| NlheGame.Tail | src/play/nlhe_game.cpp:124-125 | from round 4 on the hand stops; nothing else changes |
| NlheGame.Act | src/play/nlhe_game.cpp:90-122 | only a fold stops the hand, moves the button and settles; a call or raise leaves bankroll and dealer |
| NlheGame.AfterTurn | src/play/nlhe_game.cpp:90-128 | with both players all-in the round advances with nothing else changed; a fold stops the hand; a running hand is before round 4 |
| NlheGame.DealtInv | src/play/nlhe_game.cpp:46-47 | the blinds respect the referee's invariant when the stack is at least 2 |
| NlheGame.CallInv | src/play/nlhe_game.cpp:148-201 | a call keeps the invariant, including the assertions that the caller stays within the stack and the bets are equal when the round closes |
| NlheGame.RaiseInv | src/play/nlhe_game.cpp:203-261 | a raise keeps the invariant; a real raise keeps the raiser within the stack (the assertion at line 233) and leaves the other player something to call |
| NlheGame.ClosingCallProgress | src/play/nlhe_game.cpp:179-196 | a closing call advances the round or ends the hand |
| NlheGame.OpenCallProgress | src/play/nlhe_game.cpp:162-175 | a call that leaves the round open puts chips in or answers a first check |
| NlheGame.RaiseProgress | src/play/nlhe_game.cpp:203-261 | a real raise puts at least one chip in |
| NlheGame.TurnProgress | src/play/nlhe_game.cpp:90-128 | every pass of the play loop keeps the invariant and makes progress, so the loop ends |
| NlheGame.TurnSettles | src/play/nlhe_game.cpp:90-131 | while the hand runs the bankroll and dealer stay; it stops either by a fold that moves the button and at most one stack, or at round 4 for the showdown |
| NlheGame.TurnStep | src/play/nlhe_game.cpp:90-131 | one pass of the play loop keeps the invariant and the settlement bound against the starting dealer and bankroll, and makes progress |
| NlheGame.SettleBounded | src/play/nlhe_game.cpp:139-146 | a fold or a showdown with no open bets moves player 0's bankroll by at most one stack |
| NlheGame.ShoveRaise3 | src/play/nlhe_game.cpp:222-231 | a raise past the stack is capped to the chips left, all-in |
| NlheGame.OneChipCallLeftOpen | src/play/nlhe_game.cpp:162-175 | as written, the big blind's one-chip call of an all-in re-raise does not close the round and the showdown then pays nothing from an empty pot |
| NlheGame.OneChipCallCloses | src/play/nlhe_game.cpp:162-175 | with the corrected rule that all-in call closes the round and the better hand wins the other player's 100 chips |
| NlheGame.Game.constructor | src/play/nlhe_game.cpp:20-34 | dealer 0, bankroll 0, not all-in, no hand running |
| NlheGame.Game.Fold | src/play/nlhe_game.cpp:139-146 | the fields become AfterFold of the old fields |
| NlheGame.Game.Call | src/play/nlhe_game.cpp:148-201 | the fields become AfterCall of the old fields, with the corrected closing rule (see ## Findings) in place of lines 162-175 |
| NlheGame.Game.Raise | src/play/nlhe_game.cpp:203-261 | the fields become AfterRaise of the old fields |
| NlheGame.Game.Showdown | src/play/nlhe_game.cpp:263-284 | with no open bets (the assertion), the fields become AfterShowdown of the old fields |
| NlheGame.Game.Deal | src/play/nlhe_game.cpp:46-88 | the fields become Dealt of the old fields with the given result |
| NlheGame.Game.TakeTurn | src/play/nlhe_game.cpp:112-125 | the fields become AfterTurn of the old fields for the actor's decision |
| NlheGame.Game.Play | src/play/nlhe_game.cpp:42-137 | with the corrected closing rule (see ## Findings), play always ends with the hand stopped, the button moved exactly once and player 0's bankroll moved by at most one stack |
| PlayMain.WithPotAt | src/play/main.cpp:47 | only the given seat's pot changes |
| PlayMain.DigitPrefix | src/play/main.cpp:51 | the digits std::atoi reads: the longest prefix of digits |
| PlayMain.TranslateFactor | src/play/main.cpp:51-60 | a raise to the whole stack reads as factor 999; any other raise as the fraction f with p_pot - o_pot == f * 2 * o_pot |
| PlayMain.ReadStep | src/play/main.cpp:44-64 | one character of read_state moves the index by one |
| PlayMain.StepOn | src/play/main.cpp:44-64 | a 'c' or 'r' step moves the index by one |
| PlayMain.ReadFrom | src/play/main.cpp:26-66 | read_state never moves the index back |
| PlayMain.ReadStops | src/play/main.cpp:30-43 | read_state stops at the end of the string or with no state, and a mid-string stop is on an 'f' or just after the 'c' or 'r' that found no child |
| PlayMain.AtoiExtend | src/play/main.cpp:51 | std::atoi reads the same value whatever follows a character that ends the number |
| PlayMain.AtoiNumber | src/play/main.cpp:51 | std::atoi reads back the digits std::to_string writes, whatever non-digit follows |
| PlayMain.ReadResumes | src/play/main.cpp:26-30 | resuming from the previous message's index reaches the same reading as reading the longer string from the start |
| PlayMain.ReadStepExtends | src/play/main.cpp:44-64 | a step inside the shorter betting string is the same step in the longer one |
| PlayMain.SkipsDigits | src/play/main.cpp:30-65 | the digits of a raise total change nothing but the position |
| PlayMain.ReplyAction | src/play/main.cpp:212-231 | a fold exactly when the strategy picks one at a non-terminal state; any other change is to RAISE_A, which is the answer at a terminal state and to an all-in |
| PlayMain.Candidate | src/play/main.cpp:252-256 | a sized raise targets at least the opponent's pot |
| PlayMain.RaiseValue | src/play/main.cpp:244-267 | the total is within [BIG_BLIND, MAX_STACK]; the whole stack for RAISE_A; otherwise the largest of the candidate, the least raise and a re-raise, capped at the stack: it is one of them or MAX_STACK, at least each of them unless capped, and capped only when one of them reaches MAX_STACK |
| PlayMain.TranslateInverts | src/play/main.cpp:51-60 | a raise to exactly the total a pot fraction names reads back as that fraction |
| PlayMain.ActionString | src/play/main.cpp:233-271 | "f", "c" or "r" followed by the decimal total |
| PlayMain.ReplyPot | src/play/main.cpp:240-267 | the opponent's pot is kept |
| PlayMain.AnswerFor | src/play/main.cpp:212-275 | the action sent is the one ReplyAction chooses |
| PlayMain.ReplyReadsBack | src/play/main.cpp:44-64 | our reply, echoed back in the betting string, reads back to the pots recorded when answering, and a fold stops the read on its 'f' |
| PlayMain.RaiseReadsBack | src/play/main.cpp:49-64 | a raise to val, echoed back, sets the raiser's pot to val |
| PlayMain.CardAt | src/play/main.cpp:77-78 | string_to_card gives a card or -1 |
| PlayMain.Skip | src/play/main.cpp:74-75 | an optional separator is stepped over, and only when present |
| PlayMain.ReadHoles | src/play/main.cpp:74-92 | only hole cards are read, and the cursor moves at least past our two cards |
| PlayMain.ReadFlop | src/play/main.cpp:94-103 | only the board is read and the cursor never moves back |
| PlayMain.ReadStreet | src/play/main.cpp:105-115 | only the board is read and the cursor never moves back |
| PlayMain.ParseCards | src/play/main.cpp:68-116 | the five-card board and both two-card hands keep their sizes whatever the field holds |
| PlayMain.ReadCards | src/play/main.cpp:68-116 | the three arrays become ParseCards of the cards field and their old contents |
| PlayMain.ReadHoleCards | src/play/main.cpp:74-92 | the hole-card arrays and the cursor become ReadHoles |
| PlayMain.SkipSeparator | src/play/main.cpp:81-82 | the position becomes Skip |
| PlayMain.ReadPair | src/play/main.cpp:77-78 | the two-card array holds the two cards read |
| PlayMain.ReadFlopCards | src/play/main.cpp:94-103 | the board array and cursor become ReadFlop |
| PlayMain.ReadStreetCard | src/play/main.cpp:105-115 | the board array and cursor become ReadStreet |
| PlayMain.CardReadsBack | src/play/main.cpp:77 | a card name written at a position is read back there and starts with no separator |
| PlayMain.CardsRoundTrip | src/play/main.cpp:68-116 | read_cards reads back the cards field the dealer writes at every street, for seat 0 always and for seat 1 while the opponent's cards are hidden; cards not yet dealt or not shown stay -1 |
| PlayMain.SeatOneShowdownSwapped | src/play/main.cpp:68-89 | for seat 1 at the showdown the field lists seat 0's cards first, so read_cards puts the opponent's cards in hole and ours in o_hole; the board reads back as for seat 0 |
| PlayMain.Restart | src/play/main.cpp:185-192 | a new position restarts at the root from the first character |
| PlayMain.MatchState.constructor | src/play/main.cpp:153-154 | only the position is set, to -1 |
| PlayMain.MatchState.ReadState | src/play/main.cpp:26-66 | the match state becomes ReadFrom of the betting string and the old state |
| PlayMain.MatchState.Reset | src/play/main.cpp:185-192 | a new position restarts at the root with the blinds posted; the same position keeps everything |
| PlayMain.MatchState.Reply | src/play/main.cpp:212-277 | the reply text is AnswerFor's; the state moves to the child for the action, the pots to AnswerFor's and the index past the text |
| PlayMain.MatchState.Answer | src/play/main.cpp:201-279 | no reply exactly when the opponent's cards are shown; otherwise the line, ':' and the answer for the strategy's pick, with the state updated as Reply does |
| PlayMain.MatchState.Respond | src/play/main.cpp:183-279 | reset on a new position, read the betting, and answer exactly when the state reached is ours to play and the opponent's cards are hidden |
| Util.Ensure | src/cli/midas/util.py:318-320 | fails with "ensure failed" exactly when the condition is false |
| Util.NormalRandom | src/cli/midas/util.py:11-15 | the delay always lies in [a, b] |
| Util.ThreeSigmaUnclamped | src/cli/midas/util.py:11-15 | a draw within three deviations is the normal variate itself, unclamped |
| Util.WeightedInt | src/cli/midas/util.py:18-25 | the first positive entry the draw lies below, and the error exactly when there is none |
| Util.CumulativePick | src/cli/midas/util.py:18-25 | on a cumulative distribution index i is picked exactly when the draw lies in [p[i-1], p[i]) |
| Util.RoundHalfEven | src/cli/midas/util.py:327 | round() lands within a half of the quotient, and on the even neighbour at a tie |
| Util.RoundMultiple | src/cli/midas/util.py:323-327 | a zero multiple leaves the value alone; otherwise the result is a whole multiple of mul |
| Util.RoundsToNearestMultiple | src/cli/midas/util.py:323-327 | no whole multiple of mul lies nearer the value, measured in quotients by mul |
| Util.NearestKey | src/cli/midas/util.py:492-497 | the smallest key not below the value, or the largest key when all are below |
| Util.FindNearest | src/cli/midas/util.py:492-497 | fails exactly on an empty map; otherwise the entry of NearestKey |
| Util.FindNearestExamples | src/cli/test/test_util.py:4-11 | keys 2 and 4: values 0, 1, 2 give "two" and 3, 4, 5 give "four" |
| Util.Rect.Item | src/cli/midas/util.py:342-352 | indices 0 to 3 give a value, any other index an IndexError |
| Util.NewRect | src/cli/midas/util.py:335-340 | accepted exactly when width and height are positive, with those edges |
| Util.ItemsAreEdges | src/cli/midas/util.py:342-371 | indexing yields the left, top, right and bottom edges |
| Util.AdjustedMovesEdges | src/cli/midas/util.py:381-382 | each edge moves by its own delta, and the result exists exactly when the moved edges still enclose a non-empty area |
| Util.RankReadsBack | src/cli/midas/util.py:413-443 | every rank's character reads back as that rank |
| Util.RankCharWritesBack | src/cli/midas/util.py:413-443 | every rank character names a rank written with it |
| Util.SuitTablesInverse | src/cli/midas/util.py:445-457 | the two suit tables are each other's inverses |
| Util.Card.Rank | src/cli/midas/util.py:468-470 | a rank exactly for cards of the deck, the one whose four values hold the card; otherwise a ValueError |
| Util.Card.Suit | src/cli/midas/util.py:472-474 | one of the four suits, congruent to the value modulo 4 |
| Util.Card.Repr | src/cli/midas/util.py:476-483 | "?" exactly outside the deck, otherwise two characters |
| Util.NewCard | src/cli/midas/util.py:459-466 | fails exactly when a string of two or more characters has an unknown rank or suit character |
| Util.RankSuitRoundTrip | src/cli/midas/util.py:463-474 | a card built from a rank and a suit gives them back |
| Util.ReprRoundTrip | src/cli/midas/util.py:459-483 | every card of the deck survives repr and parsing |
| Util.ReprMatchesEngine | src/cli/midas/util.py:476-483 | the client writes every card exactly as the engine's card library does |
| Util.CardEquals | src/cli/midas/util.py:485-486 | never equal to None, otherwise equal exactly when the values are |
| Ai.RoundOf | src/cli/midas/ai.py:91-109 | the round lies between INVALID_ROUND and RIVER, and is INVALID_ROUND exactly for a partly read flop |
| Ai.Ready | src/cli/midas/ai.py:53-73 | a tick goes ahead only on our turn with both hole cards and the stack read, and its first reading starts a game unless we are the dealer facing a raise |
| Ai.Sane | src/cli/midas/ai.py:86-109 | a reading that passes the checks has a round from PREFLOP to RIVER and a lit button that gives a dealer in a new game |
| Ai.IsNewGame | src/cli/midas/ai.py:780-817 | never a new game for the dealer facing a raise or for the same reading twice; otherwise changed hole cards or a shrunk pot start one |
| Ai.RoundByCardCount | src/cli/midas/ai.py:91-109 | with the cards dealt in order, 0, 3, 4 and 5 board cards give preflop, flop, turn and river, and 1 or 2 give INVALID_ROUND |
| Ai.NewGameTriggers | src/cli/midas/ai.py:780-817 | as the dealer facing a raise it is never a new game; otherwise a new game exactly when a seen board card changed, the dealer moved, the hole cards changed, the stack grew or the pot shrank |
| Ai.SameReadingSameGame | src/cli/midas/ai.py:780-817 | the same reading twice never starts a game |
| Ai.FirstTickNewGame | src/cli/midas/ai.py:780-817 | the first reading with hole cards starts a game, unless we are the dealer facing a raise |
| Ai.BigBlind | src/cli/midas/ai.py:303-317 | a new game gives twice our bet as dealer, else our bet; otherwise the remembered blind; a non-positive blind becomes the default; no remembered blind mid-game is an error |
| Ai.BigBlindPositive | src/cli/midas/ai.py:148-152 | with a positive default the blind is positive, so the check at line 152 passes |
| Ai.EffectiveStack | src/cli/midas/ai.py:319-336 | succeeds exactly when our stack and both starting stacks are positive, and then gives at least one small blind |
| Ai.PositiveDepth | src/cli/midas/ai.py:332-334 | positive stacks give a depth of at least one |
| Ai.DepthSymmetric | src/cli/midas/ai.py:332 | both players compute the same depth |
| Ai.Path | src/cli/midas/ai.py:169-176 | the path ends with the state's own action |
| Ai.PathStep | src/cli/midas/ai.py:169-176 | a state's path is its parent's path followed by its own action |
| Ai.CollectPath | src/cli/midas/ai.py:169-176 | the walk up the parents, reversed, is exactly the path from the root |
| Ai.StepDown | src/cli/midas/ai.py:181-187 | the child for the largest action not above the recorded one, and none exactly when no action from CALL up to it has a child |
| Ai.ReplayOne | src/cli/midas/ai.py:180-187 | the replayed state is the same state or its child for an action from CALL up to the recorded one |
| Ai.Replay | src/cli/midas/ai.py:178-189 | a path of only FOLD and invalid actions leaves the state where it is |
| Ai.ReplayExact | src/cli/midas/ai.py:180-187 | an action the new tree has is followed exactly |
| Ai.ReplaySkipsFold | src/cli/midas/ai.py:182 | FOLD and the root's invalid action are never replayed |
| Ai.FallBack | src/cli/midas/ai.py:181-187 | the inner loop makes exactly the replay step |
| Ai.Rewalk | src/cli/midas/ai.py:178-189 | the loop replays the whole path from the root of the new tree |
| Ai.RepairFrom | src/cli/midas/ai.py:202-220 | the repair never yields the all-in again: it is the CALL child or the child after it, and nothing only when the parent has no CALL child |
| Ai.RepairAllIn | src/cli/midas/ai.py:208-217 | the loop over the parent's children computes RepairFrom |
| Ai.CallUntil | src/cli/midas/ai.py:229-231 | a state it ends at is in the target round or later |
| Ai.CatchUp | src/cli/midas/ai.py:222-233 | an error exactly when the state is past the board's round or the calls run out; otherwise a state in the board's round or later |
| Ai.CatchUpInRound | src/cli/midas/ai.py:222-233 | a state already in the board's round stays put |
| Ai.CatchUpRounds | src/cli/midas/ai.py:222-233 | the client's call-then-loop computes CatchUp |
| Ai.BetFraction | src/cli/midas/ai.py:244-249 | an all-in reads as the all-in factor; otherwise the fraction f with f times the pot before the raise equal to the raise |
| Ai.Facing | src/cli/midas/ai.py:242-263 | an outstanding bet is translated by its positive pot fraction and must exist; a check or a called blind follows the CALL child and must exist; otherwise the state stays |
| Ai.AllInStaysAllIn | src/cli/midas/ai.py:243-247 | an opponent all-in is translated with the all-in factor |
| Ai.DealerOf | src/cli/midas/ai.py:126-138 | the lit button's seat; with both lit the default in a new game and the remembered one otherwise; -1 when none is lit |
| Ai.NextAction | src/cli/midas/ai.py:820-852 | an action only for a known bucket at a non-terminal state; the child at index CALL+1 against a sitting-out opponent when that slot is filled, else the strategy's pick |
| Ai.PlanAction | src/cli/midas/ai.py:341-360 | fold folds, a raise bets its own factor, a call that the tree makes terminal before the river is played as the all-in, and an unknown action fails |
| Ai.MinBet | src/cli/midas/ai.py:379-383 | the least raise never exceeds the most we can bet |
| Ai.MaxBet | src/cli/midas/ai.py:374-377 | we can bet our whole stack on top of our bet, so above our bet exactly when the stack is positive |
| Ai.OppMaxBet | src/cli/midas/ai.py:401 | the opponent can add the chips outside our stack and the pot, so they can match their bet exactly when the chips cover our stack and the pot |
| Ai.Target | src/cli/midas/ai.py:384-395 | the opponent's bet plus the fraction of the pot after our call, and with a non-zero rounding a multiple of it |
| Ai.Clamped | src/cli/midas/ai.py:397 | the bet lies in [minbet, maxbet], unchanged when it lies there already and moved to the nearer bound otherwise |
| Ai.NearAllIn | src/cli/midas/ai.py:404-415 | with a threshold set, the bet reaches that fraction of our reach or of the opponent's |
| Ai.RaiseAmount | src/cli/midas/ai.py:370-417 | fails exactly when we cannot bet or the opponent has no chips for a non-all-in bet; otherwise a bet in [minbet, maxbet], made all-in when near either stack |
| Ai.RaiseIsLegal | src/cli/midas/ai.py:370-417 | we never bet more than we have, and bet at least the least raise when we can afford it |
| Ai.Act | src/cli/midas/ai.py:338-429 | succeeds exactly when there is a state, the plan exists, a bet has an amount and a bet method the draw picks, and the state has the action's child; the command is the one the plan names, and the state moves to that child |
| Ai.TerminalCallBetsAllIn | src/cli/midas/ai.py:349-355 | a call the tree would end the hand with before the river is sent as an all-in bet |
| Ai.Resume | src/cli/midas/ai.py:162-199 | the root in a new game; the remembered state at an unchanged depth; the replayed path otherwise; the state must exist and not be terminal |
| Ai.ResumeState | src/cli/midas/ai.py:162-199 | computes Resume |
| Ai.Repaired | src/cli/midas/ai.py:202-220 | only a state reached by the all-in is repaired, to RepairFrom of its parent: a CALL child or the child after it, never an all-in; the repair fails exactly when the parent has no CALL child |
| Ai.RepairState | src/cli/midas/ai.py:202-220 | the loop over the parent's children computes Repaired |
| Ai.Location | src/cli/midas/ai.py:121-274 | a success gives the new-game flag, a dealer of 0 or 1 as DealerOf reads the buttons, the blind of BigBlind, the effective stack, the nearest strategy and the state Position reaches from them: resume, all-in repair, catch-up to the board's round and the opponent's action; that state is our seat's, in the board's round and not terminal; conversely, when every check passes and Position gives such a state, the tick is located |
| Ai.Locate | src/cli/midas/ai.py:121-274 | the client's sequence of checks, with the loops of the replay, repair and catch-up, computes Location |
| Ai.Believed | src/cli/midas/ai.py:112-119 | the belief to start from is one of the two generations |
| Ai.UnfulfilledActionReverted | src/cli/midas/ai.py:112-117 | reading the same table again after a tick goes back to the belief from before that tick |
| Ai.ChangedTableKept | src/cli/midas/ai.py:112-119 | a changed reading keeps the committed belief |
| Ai.Actor.constructor | src/cli/midas/ai.py:20-41 | both generations start empty |
| Ai.Actor.ProcessSnapshot | src/cli/midas/ai.py:43-300 | sitting out fails; a table not ready, and a reading failing the first checks, leave both beliefs as they were; a tick that acts starts from the state Location gives for the believed table, takes the action NextAction picks there and commits the located dealer, blind and depth with the state after the action; for a ready, sane reading it acts exactly when Location, NextAction and Act all succeed |

## Left out

- Floating point: C++ doubles and Python floats (pot fractions, chip amounts read from the screen, the normal delay) are exact reals; rounding error and the NaN of a 0/0 are not modelled except where stated (SoftTranslate's b1 == b2 case, main's division by a zero pot).
- BinaryIo: elements are unsigned or two's-complement integers of a given byte width; floating-point elements (the stored equities and strategy probabilities) are not modelled, and the stream's failure state becomes an Err.
- FlopLut.FlopTable: the table's stored equities and the file it is loaded from are not modelled, only its index structures and keys.
- FlopLut.FlopTable.GetKey: requires three distinct board cards, which the assertion at holdem_flop_lut.cpp:102 does not fully check; a board with b0 == b2 fails the assertion at line 133 instead.
- Exceptions, failed asserts and null pointers become Err or None results; an assertion that guards a caller's obligation is a precondition instead.
- std::stoi and std::atoi overflow on more than nine digits is not modelled: numbers are read as unbounded naturals.
- The operator<< of the gamelib states and the action names (get_action_name) are not modelled; the cfrlib operator<< is (NlheStateBase.Describe).
- gamelib nlhe_state::raise(fraction) and call() (src/gamelib/nlhe_state.cpp:273-329) are not modelled. Their translation differs from the cfrlib one that NlheStateBase.Raise models, which uses the nominal raise factors and asserts. The gamelib one measures each existing raise child by its own pots, (pot[player] - pot[1 - player]) / (2 * pot[1 - player]). It gives -1 to FOLD, CALL and missing children, so the lower bound is FOLD whenever no raise lies at or below the fraction. The translation can then pick the FOLD child, and it does when there is no raise child at all. PlayMain and Ai reach a tree's raise and call only through the parameters Tree.bet and Tree.actionChild, so nothing is claimed about this translation.
- Parent pointers of the tree states are not stored: a child's Info copies the parent's round, action and player that create_child reads, and the decision engine walks parents through Tree operations.
- Action masks are modelled as sets of actions; NlheStateBase.ActionMasksDistinct shows each action has its own bit.
- soft_translate's random draw is a parameter u in [0, 1).
- NlheStateBase.Raise: requires the pots of a state of the tree (0 <= own <= opponent <= stack, the opponent above 0) and, unless the opponent is all-in, some available raise, which the assertion at nlhe_state_base.cpp:178 demands.
- NlheState.NewTree requires a stack of at least two chips (the blinds); smaller stacks make the pot assertions of nlhe_state.cpp fail.
- NlheGame: the card dealing, the hand evaluator, the actors and the log are outside the model; the showdown result is a parameter and each actor is a function from what it can see to a decision.
- PlayMain: the socket loop, the protocol version greeting, the MATCHSTATE regular expression, the strategy file and the card buckets are not modelled; a message arrives already split, the strategy tree is given by TreeOps, and the strategy's pick is a parameter. Reads past the end of the cards field see NUL characters, as the C++ string's terminator and undefined bytes after it are modelled.
- Util: the screen-reading helpers of util.py (colours, hamming distances, OCR) and sleep are not modelled; random.random() and the normal variate are parameters.
- Util.NewCard: requires a given suit to be one of the four, which Python's rank << 2 | suit does not check.
- Util.RoundsToNearestMultiple: states nearness on quotients by mul (the result over mul is the integer nearest val over mul), not on the distance from val, to keep the real arithmetic linear.
- Ai: the Table class (pixel reading, buttons, clicks, sit-in), the sleeps and delays (ai.py lines 75-77, 278-297, 431-433), the logging and the strategy file loading are not modelled. A tick receives the Snapshot and whether it is our turn; the strategies are a map given as a parameter; the bucket lookup and the random pick of a child are functions of the strategy; the bet-method draw is a parameter.
- Ai: the tree is reached through Tree operations, with Measures (depth and height of a finite tree) given only to prove termination of the walks up and down it.
- Ai.Act: ai.py sends the table command (lines 364-422) before its check at lines 426-427 that the chosen action has a child; on that error path the model returns the error without a command. The path cannot be reached while the planned action is a child of the state.
- Ai: the None numbers of the empty Snapshot read as 0.0, and a stack that could not be read counts as not positive; TableData does not hold the Table handle.

## Findings

| source | as written | input that shows it | evidently intended | confidence | as-written member | corrected member |
|---|---|---|---|---|---|---|
| src/gamelib/flhe_state.cpp:91-96 | children_ is indexed by action, but child_count_ counts only the children created, and get_state_vector (game_state_base.cpp lines 20-24) visits only the slots below child_count_ | the small blind's limp (the root's CALL child): it has a CALL and a RAISE child but no FOLD child, so its slots are [null, CALL, RAISE] with child_count_ 2 and the RAISE subtree is never visited | every created child is visited | not executed | FlheState.LimpRaiseSkipped | FlheState.CreatedChildren |
| src/play/nlhe_game.cpp:162-175 | preflop, a call of exactly one chip by the big blind does not close the betting round | dealer 0, stack 100: raise by 2, raise by 95, raise by 95 (capped all-in at 100); the big blind's one-chip call leaves both all-in with 100 chips each in the bets, play skips to the showdown and pays from an empty pot | a call that puts the caller all-in closes the round | not executed | NlheGame.OneChipCallLeftOpen | NlheGame.OneChipCallCloses |
