/** PaiGowEngine.ts: a simplified Pai Gow round. A 52-card deck is shuffled
    with the linear congruential generator, the player gets the first seven
    cards and the dealer the next seven, each side splits its cards into a
    five-card high hand and a two-card low hand by the same rule, and the
    hands are compared by their highest card value. */
module PaiGow {
  import opened Shared
  import opened GameConfig
  import opened Random
  import opened FisherYates

  datatype Suit = Hearts | Diamonds | Clubs | Spades

  datatype Rank =
    Two | Three | Four | Five | Six | Seven | Eight | Nine | Ten | Jack | Queen | King | Ace

  /** The source stores the value (2-14) beside the rank. */
  datatype Card = Card(suit: Suit, rank: Rank, value: int)

  const SUITS: seq<Suit> := [Hearts, Diamonds, Clubs, Spades]
  const RANKS: seq<Rank> :=
    [Two, Three, Four, Five, Six, Seven, Eight, Nine, Ten, Jack, Queen, King, Ace]

  // ---------------------------------------------------------------------------
  // The deck
  // ---------------------------------------------------------------------------

  /** The deck `createDeck` builds: suit by suit, ranks 2 to A, value = rank
      index + 2 (the explicit `value = 14` for the ace gives the same). */
  function NewDeck(): (d: seq<Card>)
    ensures |d| == 52
  {
    seq(52, i requires 0 <= i < 52 => Card(SUITS[i / 13], RANKS[i % 13], i % 13 + 2))
  }

  function SuitIndex(s: Suit): (k: int)
    ensures 0 <= k < 4 && SUITS[k] == s
  {
    match s
    case Hearts => 0
    case Diamonds => 1
    case Clubs => 2
    case Spades => 3
  }

  function RankIndex(r: Rank): (k: int)
    ensures 0 <= k < 13 && RANKS[k] == r
  {
    match r
    case Two => 0
    case Three => 1
    case Four => 2
    case Five => 3
    case Six => 4
    case Seven => 5
    case Eight => 6
    case Nine => 7
    case Ten => 8
    case Jack => 9
    case Queen => 10
    case King => 11
    case Ace => 12
  }

  /** Card i of the new deck has suit i / 13 and rank i % 13, and its value
      is its rank index + 2. */
  lemma NewDeckIndex()
    ensures forall i :: 0 <= i < 52 ==>
      && 13 * SuitIndex(NewDeck()[i].suit) + RankIndex(NewDeck()[i].rank) == i
      && NewDeck()[i].value == RankIndex(NewDeck()[i].rank) + 2
  {
    var d := NewDeck();
    forall i | 0 <= i < 52
      ensures 13 * SuitIndex(d[i].suit) + RankIndex(d[i].rank) == i
      ensures d[i].value == RankIndex(d[i].rank) + 2
    {
      var s, r := i / 13, i % 13;
      assert SUITS[s] == d[i].suit && RANKS[r] == d[i].rank;
      assert SuitIndex(SUITS[s]) == s by {
        assert SUITS == [Hearts, Diamonds, Clubs, Spades];
      }
      assert RankIndex(RANKS[r]) == r by {
        assert RANKS == [Two, Three, Four, Five, Six, Seven, Eight, Nine, Ten, Jack, Queen, King, Ace];
      }
    }
  }

  /** The new deck: every suit-rank pair once, the value 2-14 following the
      rank with the ace at 14, and no two cards equal. */
  lemma NewDeckComplete()
    ensures Distinct(NewDeck())
    ensures forall i :: 0 <= i < 52 ==> 2 <= NewDeck()[i].value <= 14
    ensures forall i :: 0 <= i < 52 ==> (NewDeck()[i].value == 14 <==> NewDeck()[i].rank == Ace)
    ensures forall c :: multiset(NewDeck())[c] == if c.value == RankIndex(c.rank) + 2 then 1 else 0
  {
    var d := NewDeck();
    NewDeckIndex();
    forall i | 0 <= i < 52 ensures d[i].value == 14 <==> d[i].rank == Ace {
      assert RankIndex(d[i].rank) == 12 <==> d[i].rank == Ace;
    }
    assert Distinct(d);
    DistinctMultiset(d);
    forall c: Card ensures multiset(d)[c] == if c.value == RankIndex(c.rank) + 2 then 1 else 0 {
      if c.value == RankIndex(c.rank) + 2 {
        var k := 13 * SuitIndex(c.suit) + RankIndex(c.rank);
        assert k / 13 == SuitIndex(c.suit) && k % 13 == RankIndex(c.rank);
        assert d[k] == c;
      } else {
        assert c !in d;
      }
    }
  }

  /** `createDeck`. */
  method CreateDeck() returns (deck: array<Card>)
    ensures fresh(deck) && deck[..] == NewDeck()
  {
    deck := new Card[52](_ => Card(Hearts, Two, 2));
    var n := 0;
    for s := 0 to 4
      invariant n == 13 * s
      invariant forall k :: 0 <= k < n ==> deck[k] == Card(SUITS[k / 13], RANKS[k % 13], k % 13 + 2)
    {
      for i := 0 to 13
        invariant n == 13 * s + i
        invariant forall k :: 0 <= k < n ==> deck[k] == Card(SUITS[k / 13], RANKS[k % 13], k % 13 + 2)
      {
        var rank := RANKS[i];
        var value := i + 2;
        if rank == Ace {
          value := 14;
        }
        assert n / 13 == s && n % 13 == i;
        deck[n] := Card(SUITS[s], rank, value);
        n := n + 1;
      }
    }
  }

  // ---------------------------------------------------------------------------
  // The shuffle
  // ---------------------------------------------------------------------------


  /** `shuffleDeck`, in place. A negative index (a seed below -5 whose first
      state is negative) makes the source write `undefined` into the deck and
      go on; the model stops there with `ok == false`. */
  method ShuffleDeck(deck: array<Card>, random: Lcg) returns (ok: bool)
    requires deck.Length == 52
    modifies deck, random
    ensures ok <==> InRange(LcgSwapIndices(old(random.seed), 51), 51)
    ensures ok ==> deck[..] == Swaps(old(deck[..]), 51, LcgSwapIndices(old(random.seed), 51))
  {
    ghost var seed := random.seed;
    ghost var start := deck[..];
    ghost var done: seq<int> := [];
    var i := 51;
    while i > 0
      invariant LcgDrawn(seed, 51, done, random.seed, i)
      invariant deck[..] == Swaps(start, 51, done)
    {
      ghost var before := random.seed;
      var r := random.Next();
      var j := LcgScale(r, i + 1);
      LcgShuffleStep(seed, 51, done, before, i);
      if j < 0 {
        ok := false;
        return;
      }
      ghost var prev := deck[..];
      deck[i], deck[j] := deck[j], deck[i];
      assert deck[..] == Swap(prev, i, j);
      SwapsSnoc(start, 51, done, j);
      done := done + [j];
      i := i - 1;
    }
    LcgDrawnAll(seed, 51, done, random.seed);
    ok := true;
  }

  // ---------------------------------------------------------------------------
  // Sorting by value, descending (`[...cards].sort((a, b) => b.value - a.value)`)
  // ---------------------------------------------------------------------------

  predicate SortedDesc(s: seq<Card>) {
    forall a, b :: 0 <= a < b < |s| ==> s[a].value >= s[b].value
  }

  /** Inserts x before the first card of lower value: cards of equal value
      keep their relative order, as in the stable `Array.prototype.sort`. */
  function Insert(x: Card, t: seq<Card>): (r: seq<Card>)
    ensures |r| == |t| + 1
  {
    if t == [] || x.value >= t[0].value then [x] + t else [t[0]] + Insert(x, t[1..])
  }

  function SortDesc(s: seq<Card>): (r: seq<Card>)
    ensures |r| == |s|
  {
    if s == [] then [] else Insert(s[0], SortDesc(s[1..]))
  }

  /** Insertion adds x and nothing else. */
  lemma {:induction false} InsertPermutes(x: Card, t: seq<Card>)
    ensures multiset(Insert(x, t)) == multiset(t) + multiset{x}
    ensures forall e :: e in Insert(x, t) ==> e == x || e in t
    decreases |t|
  {
    if t != [] && x.value < t[0].value {
      InsertPermutes(x, t[1..]);
      assert t == [t[0]] + t[1..];
    }
  }

  lemma {:induction false} InsertSorted(x: Card, t: seq<Card>)
    requires SortedDesc(t)
    ensures SortedDesc(Insert(x, t))
    decreases |t|
  {
    if t != [] && x.value < t[0].value {
      InsertSorted(x, t[1..]);
      InsertPermutes(x, t[1..]);
      var r := Insert(x, t[1..]);
      forall k | 0 <= k < |r| ensures r[k].value <= t[0].value {
        assert r[k] in r;
      }
    }
  }

  /** The sort is a sorted rearrangement of its input. */
  lemma {:induction false} SortDescSpec(s: seq<Card>)
    ensures SortedDesc(SortDesc(s))
    ensures multiset(SortDesc(s)) == multiset(s)
  {
    if s != [] {
      SortDescSpec(s[1..]);
      InsertSorted(s[0], SortDesc(s[1..]));
      InsertPermutes(s[0], SortDesc(s[1..]));
      assert s == [s[0]] + s[1..];
    }
  }

  /** The cards of value v, in their order. */
  function OfValue(s: seq<Card>, v: int): seq<Card> {
    if s == [] then [] else (if s[0].value == v then [s[0]] else []) + OfValue(s[1..], v)
  }

  lemma {:induction false} InsertOfValue(x: Card, t: seq<Card>, v: int)
    ensures OfValue(Insert(x, t), v) == (if x.value == v then [x] else []) + OfValue(t, v)
    decreases |t|
  {
    if t != [] && x.value < t[0].value {
      var r := Insert(x, t);
      InsertOfValue(x, t[1..], v);
      assert r[0] == t[0] && r[1..] == Insert(x, t[1..]);
      assert OfValue(r, v) == (if t[0].value == v then [t[0]] else []) + OfValue(r[1..], v);
      assert OfValue(t, v) == (if t[0].value == v then [t[0]] else []) + OfValue(t[1..], v);
      if x.value == v {
        assert t[0].value != v;
      }
    } else {
      assert ([x] + t)[1..] == t;
    }
  }

  /** The sort is stable: the cards of any one value keep their input order,
      which decides which of two equal cards goes to which hand. */
  lemma {:induction false} SortStable(s: seq<Card>, v: int)
    ensures OfValue(SortDesc(s), v) == OfValue(s, v)
  {
    if s != [] {
      SortStable(s[1..], v);
      InsertOfValue(s[0], SortDesc(s[1..]), v);
    }
  }

  // ---------------------------------------------------------------------------
  // The high/low split (`arrangeOptimalHands`)
  // ---------------------------------------------------------------------------

  datatype Groups = Groups(pairs: seq<(Card, Card)>, singles: seq<Card>)

  /** The pairs-and-singles scan of the sorted cards from index i: two
      adjacent cards of equal value form a pair and the scan skips both. */
  function GroupFrom(s: seq<Card>, i: nat): Groups
    requires i <= |s|
    decreases |s| - i
  {
    if i == |s| then Groups([], [])
    else if i < |s| - 1 && s[i].value == s[i + 1].value then
      var g := GroupFrom(s, i + 2);
      Groups([(s[i], s[i + 1])] + g.pairs, g.singles)
    else
      var g := GroupFrom(s, i + 1);
      Groups(g.pairs, [s[i]] + g.singles)
  }

  function Flatten(pairs: seq<(Card, Card)>): (r: seq<Card>)
    ensures |r| == 2 * |pairs|
  {
    if pairs == [] then [] else [pairs[0].0, pairs[0].1] + Flatten(pairs[1..])
  }

  /** The scan puts every card from index i into exactly one pair or the
      singles, and every pair holds two cards of equal value. */
  lemma {:induction false} GroupConserves(s: seq<Card>, i: nat)
    requires i <= |s|
    ensures multiset(Flatten(GroupFrom(s, i).pairs)) + multiset(GroupFrom(s, i).singles)
      == multiset(s[i..])
    decreases |s| - i
  {
    if i < |s| {
      if i < |s| - 1 && s[i].value == s[i + 1].value {
        GroupConserves(s, i + 2);
        PairCase(s, i);
      } else {
        GroupConserves(s, i + 1);
        SingleCase(s, i);
      }
    }
  }

  lemma PairCase(s: seq<Card>, i: nat)
    requires i + 2 <= |s| && s[i].value == s[i + 1].value
    requires multiset(Flatten(GroupFrom(s, i + 2).pairs)) + multiset(GroupFrom(s, i + 2).singles)
      == multiset(s[i + 2..])
    ensures multiset(Flatten(GroupFrom(s, i).pairs)) + multiset(GroupFrom(s, i).singles)
      == multiset(s[i..])
  {
    var g := GroupFrom(s, i + 2);
    var pairs := [(s[i], s[i + 1])] + g.pairs;
    assert GroupFrom(s, i) == Groups(pairs, g.singles);
    assert pairs[1..] == g.pairs;
    DropTwo(s, i);
    PairStep(s[i], s[i + 1], Flatten(g.pairs), g.singles, s[i + 2..]);
  }

  lemma SingleCase(s: seq<Card>, i: nat)
    requires i < |s| && !(i < |s| - 1 && s[i].value == s[i + 1].value)
    requires multiset(Flatten(GroupFrom(s, i + 1).pairs)) + multiset(GroupFrom(s, i + 1).singles)
      == multiset(s[i + 1..])
    ensures multiset(Flatten(GroupFrom(s, i).pairs)) + multiset(GroupFrom(s, i).singles)
      == multiset(s[i..])
  {
    var g := GroupFrom(s, i + 1);
    assert GroupFrom(s, i) == Groups(g.pairs, [s[i]] + g.singles);
    DropOne(s, i);
    SingleStep(s[i], Flatten(g.pairs), g.singles, s[i + 1..]);
  }

  lemma DropOne(s: seq<Card>, i: nat)
    requires i < |s|
    ensures s[i..] == [s[i]] + s[i + 1..]
  {
  }

  lemma DropTwo(s: seq<Card>, i: nat)
    requires i + 2 <= |s|
    ensures s[i..] == [s[i], s[i + 1]] + s[i + 2..]
  {
  }

  lemma PairStep(a: Card, b: Card, flat: seq<Card>, singles: seq<Card>, rest: seq<Card>)
    requires multiset(flat) + multiset(singles) == multiset(rest)
    ensures multiset([a, b] + flat) + multiset(singles) == multiset([a, b] + rest)
  {
  }

  lemma SingleStep(a: Card, flat: seq<Card>, singles: seq<Card>, rest: seq<Card>)
    requires multiset(flat) + multiset(singles) == multiset(rest)
    ensures multiset(flat) + multiset([a] + singles) == multiset([a] + rest)
  {
  }

  lemma {:induction false} GroupPairsEqual(s: seq<Card>, i: nat)
    requires i <= |s|
    ensures forall p :: p in GroupFrom(s, i).pairs ==> p.0.value == p.1.value
    decreases |s| - i
  {
    if i < |s| {
      if i < |s| - 1 && s[i].value == s[i + 1].value {
        GroupPairsEqual(s, i + 2);
      } else {
        GroupPairsEqual(s, i + 1);
      }
    }
  }

  /** The first index k >= i where two adjacent cards have equal value, or
      |s| when there is none. */
  function FirstPair(s: seq<Card>, i: nat): (k: int)
    requires i <= |s|
    ensures i <= k <= |s|
    ensures k < |s| ==> k < |s| - 1 && s[k].value == s[k + 1].value
    ensures forall j :: i <= j < k && j < |s| - 1 ==> s[j].value != s[j + 1].value
    decreases |s| - i
  {
    if i >= |s| - 1 then |s|
    else if s[i].value == s[i + 1].value then i
    else FirstPair(s, i + 1)
  }

  /** The scan finds a pair exactly when some adjacent cards have equal
      value, and its first pair is the first such adjacent couple. */
  lemma {:induction false} GroupLeadingPair(s: seq<Card>, i: nat)
    requires i <= |s|
    ensures GroupFrom(s, i).pairs != [] <==> FirstPair(s, i) < |s|
    ensures FirstPair(s, i) < |s| ==>
      GroupFrom(s, i).pairs[0] == (s[FirstPair(s, i)], s[FirstPair(s, i) + 1])
    decreases |s| - i
  {
    if i < |s| && !(i < |s| - 1 && s[i].value == s[i + 1].value) {
      GroupLeadingPair(s, i + 1);
    }
  }

  /** In a descending sort the first adjacent pair has the highest value
      that occurs twice. */
  lemma FirstPairHighest(s: seq<Card>)
    requires SortedDesc(s) && FirstPair(s, 0) < |s|
    ensures forall a, b :: 0 <= a < b < |s| && s[a].value == s[b].value ==>
      s[a].value <= s[FirstPair(s, 0)].value
  {
    var k := FirstPair(s, 0);
    forall a, b | 0 <= a < b < |s| && s[a].value == s[b].value
      ensures s[a].value <= s[k].value
    {
      assert s[a].value >= s[a + 1].value >= s[b].value;
      assert s[a].value == s[a + 1].value;
      assert k <= a;
    }
  }

  /** `slice(0, n)` and `slice(n)`, clamped as in JavaScript. */
  function Take(s: seq<Card>, n: nat): seq<Card> {
    if n <= |s| then s[..n] else s
  }

  function Drop(s: seq<Card>, n: nat): seq<Card> {
    if n <= |s| then s[n..] else []
  }

  datatype Split = Split(high: seq<Card>, low: seq<Card>)

  /** `arrangeOptimalHands`: the highest pair goes low and the high hand is
      the other pairs then the singles, cut to five; without a pair the two
      highest cards go low. */
  function Arrange(cards: seq<Card>): (sp: Split)
    ensures |cards| >= 2 ==> |sp.low| == 2
  {
    var sorted := SortDesc(cards);
    var g := GroupFrom(sorted, 0);
    if |g.pairs| > 0 then Split(Take(Flatten(g.pairs[1..]) + g.singles, 5), [g.pairs[0].0, g.pairs[0].1])
    else Split(Drop(sorted, 2), Take(sorted, 2))
  }

  /** A five-card high hand and a two-card low hand that together hold
      exactly the given cards. */
  predicate SplitOf(sp: Split, cards: seq<Card>) {
    |sp.high| == 5 && |sp.low| == 2 && multiset(sp.high) + multiset(sp.low) == multiset(cards)
  }

  /** Seven cards split into a two-card low hand and a five-card high hand
      that together hold exactly the seven cards. */
  lemma ArrangeConserves(cards: seq<Card>)
    requires |cards| == 7
    ensures SplitOf(Arrange(cards), cards)
  {
    var sorted := SortDesc(cards);
    SortDescSpec(cards);
    var g := GroupFrom(sorted, 0);
    GroupConserves(sorted, 0);
    assert sorted[0..] == sorted;
    if |g.pairs| > 0 {
      PairSplit(g.pairs, g.singles, cards);
    } else {
      NoPairSplit(sorted, cards);
    }
  }

  lemma PairSplit(pairs: seq<(Card, Card)>, singles: seq<Card>, cards: seq<Card>)
    requires |pairs| > 0 && |cards| == 7
    requires multiset(Flatten(pairs)) + multiset(singles) == multiset(cards)
    ensures SplitOf(Split(Take(Flatten(pairs[1..]) + singles, 5), [pairs[0].0, pairs[0].1]), cards)
  {
    var rest := Flatten(pairs[1..]) + singles;
    assert Flatten(pairs) == [pairs[0].0, pairs[0].1] + Flatten(pairs[1..]);
    assert |Flatten(pairs)| + |singles| == 7 by {
      assert |multiset(Flatten(pairs))| + |multiset(singles)| == |multiset(cards)|;
    }
    assert Take(rest, 5) == rest;
  }

  lemma NoPairSplit(sorted: seq<Card>, cards: seq<Card>)
    requires |sorted| == 7 && multiset(sorted) == multiset(cards)
    ensures SplitOf(Split(Drop(sorted, 2), Take(sorted, 2)), cards)
  {
    assert sorted == sorted[..2] + sorted[2..];
  }

  /** The low hand: the first adjacent pair of the sorted cards, which is the
      highest value held twice, or else the two highest cards. */
  lemma ArrangeLow(cards: seq<Card>)
    requires |cards| >= 2
    ensures var s := SortDesc(cards); var k := FirstPair(s, 0);
      && (k < |s| ==> Arrange(cards).low == [s[k], s[k + 1]])
      && (k == |s| ==> Arrange(cards).low == s[..2])
      && (k < |s| ==> forall a, b :: 0 <= a < b < |s| && s[a].value == s[b].value ==> s[a].value <= s[k].value)
  {
    var s := SortDesc(cards);
    SortDescSpec(cards);
    GroupLeadingPair(s, 0);
    if FirstPair(s, 0) < |s| {
      FirstPairHighest(s);
    }
  }

  /** The scan of `arrangeOptimalHands`, with the index skip. */
  method GroupCards(sorted: seq<Card>) returns (pairs: seq<(Card, Card)>, singles: seq<Card>)
    ensures Groups(pairs, singles) == GroupFrom(sorted, 0)
  {
    pairs, singles := [], [];
    var i := 0;
    while i < |sorted|
      invariant 0 <= i <= |sorted|
      invariant Groups(pairs + GroupFrom(sorted, i).pairs, singles + GroupFrom(sorted, i).singles)
        == GroupFrom(sorted, 0)
      decreases |sorted| - i
    {
      if i < |sorted| - 1 && sorted[i].value == sorted[i + 1].value {
        assert GroupFrom(sorted, i).pairs == [(sorted[i], sorted[i + 1])] + GroupFrom(sorted, i + 2).pairs;
        pairs := pairs + [(sorted[i], sorted[i + 1])];
        i := i + 1;
      } else {
        assert GroupFrom(sorted, i).singles == [sorted[i]] + GroupFrom(sorted, i + 1).singles;
        singles := singles + [sorted[i]];
      }
      i := i + 1;
    }
    assert pairs + [] == pairs && singles + [] == singles;
  }

  /** `arrangeOptimalHands`. */
  method ArrangeOptimalHands(cards: seq<Card>) returns (highHand: seq<Card>, lowHand: seq<Card>)
    ensures Split(highHand, lowHand) == Arrange(cards)
  {
    var sortedCards := SortDesc(cards);
    var pairs, singles := GroupCards(sortedCards);
    if |pairs| > 0 {
      lowHand := [pairs[0].0, pairs[0].1];
      highHand := Take(Flatten(pairs[1..]) + singles, 5);
    } else {
      lowHand := Take(sortedCards, 2);
      highHand := Drop(sortedCards, 2);
    }
  }

  /** `arrangeHouseWay`: the dealer splits by the same rule. */
  method ArrangeHouseWay(cards: seq<Card>) returns (highHand: seq<Card>, lowHand: seq<Card>)
    ensures Split(highHand, lowHand) == Arrange(cards)
  {
    highHand, lowHand := ArrangeOptimalHands(cards);
  }

  // ---------------------------------------------------------------------------
  // Evaluation and comparison
  // ---------------------------------------------------------------------------

  /** The label `evaluateHand` shows: "Pair of Xs" or "X High" for a
      two-card hand; the five-card label text is not modelled. */
  datatype Label = PairOf(rank: Rank) | High(rank: Rank) | FiveCardLabel

  /** `hand.reduce((max, card) => card.value > max.value ? card : max)`. */
  function ReduceMax(max: Card, rest: seq<Card>): (r: Card)
    decreases |rest|
    ensures r == max || r in rest
    ensures r.value >= max.value && forall c :: c in rest ==> r.value >= c.value
    ensures forall k :: 0 <= k < |rest| && rest[k].value > max.value ==> r.value >= rest[k].value
  {
    if rest == [] then max
    else ReduceMax(if rest[0].value > max.value then rest[0] else max, rest[1..])
  }

  /** `evaluateHand`. */
  function EvaluateHand(hand: seq<Card>): (l: Label)
    ensures |hand| == 2 && hand[0].value == hand[1].value ==> l == PairOf(hand[0].rank)
    ensures |hand| == 2 && hand[0].value > hand[1].value ==> l == High(hand[0].rank)
    ensures |hand| == 2 && hand[0].value < hand[1].value ==> l == High(hand[1].rank)
    ensures |hand| != 2 ==> l == FiveCardLabel
  {
    if |hand| == 2 then
      if hand[0].value == hand[1].value then PairOf(hand[0].rank)
      else High(ReduceMax(hand[0], hand[1..]).rank)
    else FiveCardLabel
  }

  /** `Math.max(...hand.map(card => card.value))`. The empty hand, whose
      maximum is -Infinity in the source, gets 0, which is likewise below
      every card value (2-14) and equal only to itself. */
  function MaxValue(hand: seq<Card>): (m: int)
    ensures hand != [] ==> exists k :: 0 <= k < |hand| && hand[k].value == m
    ensures forall k :: 0 <= k < |hand| ==> hand[k].value <= m
    ensures hand == [] ==> m == 0
  {
    if hand == [] then 0
    else if |hand| == 1 then hand[0].value
    else
      var rest := MaxValue(hand[1..]);
      assert forall k :: 1 <= k < |hand| ==> hand[k] == hand[1..][k - 1];
      if hand[0].value >= rest then hand[0].value else rest
  }

  datatype Comparison = HandWin | HandLose | HandTie

  /** Some card of `a` is worth more than every card of `b`. */
  predicate Outranks(a: seq<Card>, b: seq<Card>) {
    exists i :: 0 <= i < |a| && forall j :: 0 <= j < |b| ==> b[j].value < a[i].value
  }

  /** `compareHands`: by the highest card value alone. */
  function CompareHands(player: seq<Card>, dealer: seq<Card>): (c: Comparison)
    ensures player != [] && dealer != [] ==> (c == HandWin <==> Outranks(player, dealer))
    ensures player != [] && dealer != [] ==> (c == HandLose <==> Outranks(dealer, player))
  {
    var p, d := MaxValue(player), MaxValue(dealer);
    if p > d then HandWin else if p < d then HandLose else HandTie
  }

  function Flip(c: Comparison): Comparison {
    match c
    case HandWin => HandLose
    case HandLose => HandWin
    case HandTie => HandTie
  }

  /** Swapping the hands swaps win and lose and keeps a tie; hands with the
      same highest value compare the same way. */
  lemma CompareSymmetric(a: seq<Card>, b: seq<Card>, a2: seq<Card>, b2: seq<Card>)
    requires MaxValue(a) == MaxValue(a2) && MaxValue(b) == MaxValue(b2)
    ensures CompareHands(b, a) == Flip(CompareHands(a, b))
    ensures CompareHands(a2, b2) == CompareHands(a, b)
    ensures CompareHands(a, a) == HandTie
  {
  }

  // ---------------------------------------------------------------------------
  // The round
  // ---------------------------------------------------------------------------

  /** The overall result of `play`: a win needs both hands to win and pays
      `Math.round(bet * 0.95)`; losing both costs the bet; anything else is a
      push. */
  function Settle(high: Comparison, low: Comparison, bet: int): (r: (GameResult, int))
    ensures r.0 == Win <==> high == HandWin && low == HandWin
    ensures r.0 == Loss <==> high == HandLose && low == HandLose
    ensures r.0 == Win ==> r.1 == Round(bet as real * 0.95)
    ensures r.0 == Loss ==> r.1 == -bet
    ensures r.0 == Push ==> r.1 == 0
    ensures bet >= 0 ==> -bet <= r.1 <= bet
  {
    if high == HandWin && low == HandWin then (Win, Round(bet as real * 0.95))
    else if high == HandLose && low == HandLose then (Loss, -bet)
    else (Push, 0)
  }

  datatype Outcome = Outcome(
    result: GameResult,
    delta: int,
    playerCards: seq<Card>,
    dealerCards: seq<Card>,
    player: Split,
    dealer: Split,
    playerHighRank: Label,
    playerLowRank: Label,
    dealerHighRank: Label,
    dealerLowRank: Label,
    highHandResult: Comparison,
    lowHandResult: Comparison)

  /** The round `play` plays on the shuffled deck. */
  function RoundOutcome(bet: int, deck: seq<Card>): Outcome
    requires |deck| == 52
  {
    var playerCards := deck[..7];
    var dealerCards := deck[7..14];
    var p := Arrange(playerCards);
    var d := Arrange(dealerCards);
    var high := CompareHands(p.high, d.high);
    var low := CompareHands(p.low, d.low);
    var s := Settle(high, low, bet);
    Outcome(s.0, s.1, playerCards, dealerCards, p, d,
      EvaluateHand(p.high), EvaluateHand(p.low), EvaluateHand(d.high), EvaluateHand(d.low),
      high, low)
  }

  /** `play(input, seed)`. The bet is not validated (`play` never calls
      `validateInput`). */
  function Game(bet: int, seed: int): (r: Result<Outcome>)
    ensures r.Err? ==> r.failure == NotModelled
    ensures r.Ok? ==> |r.value.playerCards| == 7 && |r.value.dealerCards| == 7
    ensures r.Ok? && bet >= 0 ==> -bet <= r.value.delta <= bet
  {
    var js := LcgSwapIndices(seed, 51);
    if !InRange(js, 51) then Err(NotModelled)
    else Ok(RoundOutcome(bet, Swaps(NewDeck(), 51, js)))
  }

  /** `validateInput`, with the Pai Gow bounds 15-60 of the game table. */
  function ValidateInput(bet: int): (ok: bool)
    ensures ok <==> 15 <= bet <= 60
  {
    PAI_GOW.minScreenTimeDelta <= bet <= PAI_GOW.maxScreenTimeDelta
  }

  /** `play`, statement by statement: the generator, the deck, the shuffle. */
  method Play(bet: int, seed: int) returns (r: Result<Outcome>)
    ensures r == Game(bet, seed)
  {
    var random := new Lcg(seed);
    var deck := CreateDeck();
    var ok := ShuffleDeck(deck, random);
    if !ok {
      return Err(NotModelled);
    }
    var o := PlayRound(bet, deck[..]);
    r := Ok(o);
  }

  /** `play`, statement by statement: the deal, the splits, the comparison. */
  method PlayRound(bet: int, deck: seq<Card>) returns (o: Outcome)
    requires |deck| == 52
    ensures o == RoundOutcome(bet, deck)
  {
    var playerCards := deck[..7];
    var dealerCards := deck[7..14];
    var playerHighHand, playerLowHand := ArrangeOptimalHands(playerCards);
    var dealerHighHand, dealerLowHand := ArrangeHouseWay(dealerCards);
    var playerHighRank := EvaluateHand(playerHighHand);
    var playerLowRank := EvaluateHand(playerLowHand);
    var dealerHighRank := EvaluateHand(dealerHighHand);
    var dealerLowRank := EvaluateHand(dealerLowHand);
    var highHandResult := CompareHands(playerHighHand, dealerHighHand);
    var lowHandResult := CompareHands(playerLowHand, dealerLowHand);
    var result: GameResult;
    var screenTimeDelta: int;
    if highHandResult == HandWin && lowHandResult == HandWin {
      result := Win;
      screenTimeDelta := Round(bet as real * 0.95);
    } else if highHandResult == HandLose && lowHandResult == HandLose {
      result := Loss;
      screenTimeDelta := -bet;
    } else {
      result := Push;
      screenTimeDelta := 0;
    }
    o := Outcome(result, screenTimeDelta, playerCards, dealerCards,
      Split(playerHighHand, playerLowHand), Split(dealerHighHand, dealerLowHand),
      playerHighRank, playerLowRank, dealerHighRank, dealerLowRank,
      highHandResult, lowHandResult);
  }

  // ---------------------------------------------------------------------------
  // Properties of a round
  // ---------------------------------------------------------------------------

  /** Every seed from -5 up plays a round; the outcome of a round follows
      the two hand comparisons. */
  lemma GameSettlement(bet: int, seed: int)
    ensures seed >= -5 ==> Game(bet, seed).Ok?
    ensures Game(bet, seed).Ok? ==> var o := Game(bet, seed).value;
      && (o.result == Win <==> o.highHandResult == HandWin && o.lowHandResult == HandWin)
      && (o.result == Loss <==> o.highHandResult == HandLose && o.lowHandResult == HandLose)
      && o.highHandResult == CompareHands(o.player.high, o.dealer.high)
      && o.lowHandResult == CompareHands(o.player.low, o.dealer.low)
      && (bet >= 0 ==> -bet <= o.delta <= bet)
  {
    LcgSwapIndicesInRange(seed, 51);
    var js := LcgSwapIndices(seed, 51);
    if InRange(js, 51) {
      RoundSettlement(bet, Swaps(NewDeck(), 51, js));
    }
  }

  /** The settlement of the round on any full deck. */
  lemma RoundSettlement(bet: int, deck: seq<Card>)
    requires |deck| == 52
    ensures var o := RoundOutcome(bet, deck);
      && (o.result == Win <==> o.highHandResult == HandWin && o.lowHandResult == HandWin)
      && (o.result == Loss <==> o.highHandResult == HandLose && o.lowHandResult == HandLose)
      && o.highHandResult == CompareHands(o.player.high, o.dealer.high)
      && o.lowHandResult == CompareHands(o.player.low, o.dealer.low)
      && (bet >= 0 ==> -bet <= o.delta <= bet)
  {
  }

  /** A deck without repeats deals fourteen different cards, and each side's
      high and low hands hold exactly its seven cards, five high and two low. */
  lemma RoundHands(bet: int, deck: seq<Card>)
    requires |deck| == 52 && Distinct(deck)
    ensures var o := RoundOutcome(bet, deck);
      && |o.playerCards| == 7 && |o.dealerCards| == 7
      && Distinct(o.playerCards + o.dealerCards)
      && SplitOf(o.player, o.playerCards) && SplitOf(o.dealer, o.dealerCards)
  {
    var o := RoundOutcome(bet, deck);
    assert o.playerCards == deck[..7] && o.dealerCards == deck[7..14];
    assert o.player == Arrange(deck[..7]) && o.dealer == Arrange(deck[7..14]);
    ArrangeConserves(deck[..7]);
    ArrangeConserves(deck[7..14]);
    DealDistinct(deck);
  }

  /** The first fourteen cards of a deck without repeats are all different. */
  lemma DealDistinct(deck: seq<Card>)
    requires |deck| == 52 && Distinct(deck)
    ensures Distinct(deck[..7] + deck[7..14])
  {
    assert deck[..7] + deck[7..14] == deck[..14];
  }

  /** The player's and the dealer's seven cards are fourteen different cards
      of the deck, and each side's high and low hands hold exactly its seven
      cards, five high and two low. */
  lemma GameHands(bet: int, seed: int)
    requires Game(bet, seed).Ok?
    ensures var o := Game(bet, seed).value;
      && |o.playerCards| == 7 && |o.dealerCards| == 7
      && Distinct(o.playerCards + o.dealerCards)
      && SplitOf(o.player, o.playerCards) && SplitOf(o.dealer, o.dealerCards)
  {
    var js := LcgSwapIndices(seed, 51);
    var deck := Swaps(NewDeck(), 51, js);
    SwapsPermutes(NewDeck(), 51, js);
    NewDeckComplete();
    DistinctSubmultiset(NewDeck(), deck);
    RoundHands(bet, deck);
  }
}
