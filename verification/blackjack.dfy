/** BlackjackEngine.ts: one round of blackjack. A 52-card deck is shuffled
    with the Park–Miller generator, two cards are dealt to the player and two
    to the dealer from the top (the end of the array), the player draws by a
    fixed basic strategy against the dealer's first card, the dealer draws to
    17, and the round is settled for plus or minus the bet. */
module Blackjack {
  import opened Shared
  import opened GameConfig
  import opened Random
  import opened FisherYates

  datatype Suit = Spades | Hearts | Diamonds | Clubs

  datatype Rank =
    Ace | Two | Three | Four | Five | Six | Seven | Eight | Nine | Ten | Jack | Queen | King

  /** `getCardValue`: an ace counts 11, a face card 10, a numeral its number. */
  function CardValue(rank: Rank): (v: int)
    ensures 2 <= v <= 11
    ensures v == 11 <==> rank == Ace
    ensures v == 10 <==> rank in {Ten, Jack, Queen, King}
  {
    match rank
    case Ace => 11
    case Two => 2
    case Three => 3
    case Four => 4
    case Five => 5
    case Six => 6
    case Seven => 7
    case Eight => 8
    case Nine => 9
    case Ten => 10
    case Jack => 10
    case Queen => 10
    case King => 10
  }

  /** The source stores `value` beside `rank`; `createDeck` always sets it
      from the rank, so here it is derived. */
  datatype Card = Card(suit: Suit, rank: Rank) {
    function Value(): int {
      CardValue(rank)
    }
  }

  const SUITS: seq<Suit> := [Spades, Hearts, Diamonds, Clubs]
  const RANKS: seq<Rank> :=
    [Ace, Two, Three, Four, Five, Six, Seven, Eight, Nine, Ten, Jack, Queen, King]

  // ---------------------------------------------------------------------------
  // The deck
  // ---------------------------------------------------------------------------

  /** The deck `createDeck` builds: suit by suit, each suit in rank order. */
  function NewDeck(): (d: seq<Card>)
    ensures |d| == 52
  {
    seq(52, i requires 0 <= i < 52 => Card(SUITS[i / 13], RANKS[i % 13]))
  }

  function SuitIndex(s: Suit): (k: int)
    ensures 0 <= k < 4 && SUITS[k] == s
  {
    match s
    case Spades => 0
    case Hearts => 1
    case Diamonds => 2
    case Clubs => 3
  }

  function RankIndex(r: Rank): (k: int)
    ensures 0 <= k < 13 && RANKS[k] == r
  {
    match r
    case Ace => 0
    case Two => 1
    case Three => 2
    case Four => 3
    case Five => 4
    case Six => 5
    case Seven => 6
    case Eight => 7
    case Nine => 8
    case Ten => 9
    case Jack => 10
    case Queen => 11
    case King => 12
  }

  /** Where a card sits in the new deck. */
  function DeckIndex(c: Card): (k: int)
    ensures 0 <= k < 52 && NewDeck()[k] == c
  {
    var k := 13 * SuitIndex(c.suit) + RankIndex(c.rank);
    assert k / 13 == SuitIndex(c.suit) && k % 13 == RankIndex(c.rank);
    k
  }

  /** The new deck holds every one of the 52 cards exactly once. */
  lemma NewDeckComplete()
    ensures Distinct(NewDeck())
    ensures forall c: Card :: multiset(NewDeck())[c] == 1
  {
    var d := NewDeck();
    forall i | 0 <= i < 52 ensures DeckIndex(d[i]) == i {
      var s, r := i / 13, i % 13;
      assert SUITS[s] == d[i].suit && RANKS[r] == d[i].rank;
      assert SuitIndex(SUITS[s]) == s by {
        assert SUITS == [Spades, Hearts, Diamonds, Clubs];
      }
      assert RankIndex(RANKS[r]) == r by {
        assert RANKS == [Ace, Two, Three, Four, Five, Six, Seven, Eight, Nine, Ten, Jack, Queen, King];
      }
    }
    assert Distinct(d);
    DistinctMultiset(d);
    forall c: Card ensures multiset(d)[c] == 1 {
      assert d[DeckIndex(c)] == c;
    }
  }

  /** `createDeck`. */
  method CreateDeck() returns (deck: seq<Card>)
    ensures deck == NewDeck()
  {
    deck := [];
    for s := 0 to 4
      invariant |deck| == 13 * s
      invariant forall k :: 0 <= k < |deck| ==> deck[k] == Card(SUITS[k / 13], RANKS[k % 13])
    {
      for r := 0 to 13
        invariant |deck| == 13 * s + r
        invariant forall k :: 0 <= k < |deck| ==> deck[k] == Card(SUITS[k / 13], RANKS[k % 13])
      {
        assert (13 * s + r) / 13 == s && (13 * s + r) % 13 == r;
        deck := deck + [Card(SUITS[s], RANKS[r])];
      }
    }
  }

  // ---------------------------------------------------------------------------
  // The shuffle
  // ---------------------------------------------------------------------------

  /** The swap indices `Math.floor(random() * (i + 1))` for i = top down to 1,
      the generator starting in state v. */
  function SwapIndices(v: int, top: int): (js: seq<int>)
    ensures |js| == if top > 0 then top else 0
    decreases top
  {
    if top <= 0 then []
    else
      var w := LehmerStep(v);
      [LehmerScale(w, top + 1)] + SwapIndices(w, top - 1)
  }

  /** Every swap index lies in [0, i] exactly when the first state is live;
      otherwise the very first index is negative. */
  lemma {:induction false} SwapIndicesInRange(v: int, top: int)
    requires top >= 1
    ensures InRange(SwapIndices(v, top), top) <==> Live(LehmerStep(v))
    ensures !Live(LehmerStep(v)) ==> SwapIndices(v, top)[0] < 0
    decreases top
  {
    var w := LehmerStep(v);
    var js := SwapIndices(v, top);
    ScaleBelow(v, top + 1);
    if Live(w) {
      ScaleLive(w, top + 1);
      if top > 1 {
        LiveStep(w);
        SwapIndicesInRange(w, top - 1);
        var rest := SwapIndices(w, top - 1);
        forall k | 0 <= k < |js| ensures 0 <= js[k] <= top - k {
          if k > 0 {
            assert js[k] == rest[k - 1];
          }
        }
      }
    }
  }

  /** The deck `shuffleDeck` returns for a seed whose first state is live. */
  function ShuffledDeck(seed: int): (d: seq<Card>)
    requires Live(LehmerStep(seed))
    ensures |d| == 52
  {
    SwapIndicesInRange(seed, 51);
    Swaps(NewDeck(), 51, SwapIndices(seed, 51))
  }

  /** The loop has used the first 51 - i swap indices, all in range, and the
      generator state v will draw the remaining ones. */
  ghost predicate Drawn(seed: int, done: seq<int>, v: int, i: int) {
    0 <= i <= 51 && |done| == 51 - i
    && done + SwapIndices(v, i) == SwapIndices(seed, 51)
    && InRange(done, 51)
  }

  /** One pass of the shuffle loop: the index drawn is at most i; a negative
      one shows that SwapIndices(seed, 51) is out of range, any other one
      extends the indices used. */
  lemma ShuffleStep(seed: int, done: seq<int>, v: int, i: int)
    requires 1 <= i && Drawn(seed, done, v, i)
    ensures |done| == 51 - i && InRange(done, 51)
    ensures var w := LehmerStep(v); var j := LehmerScale(w, i + 1);
      && j <= i
      && (j < 0 ==> !InRange(SwapIndices(seed, 51), 51))
      && (j >= 0 ==> Drawn(seed, done + [j], w, i - 1))
  {
    var w := LehmerStep(v);
    var j := LehmerScale(w, i + 1);
    NextIndex(seed, done, v, i);
    if j >= 0 {
      InRangeSnoc(done, 51, j);
    }
  }

  /** The index drawn from state v is the next entry of SwapIndices(seed, 51). */
  lemma NextIndex(seed: int, done: seq<int>, v: int, i: int)
    requires 1 <= i <= 51 && |done| == 51 - i
    requires done + SwapIndices(v, i) == SwapIndices(seed, 51)
    ensures var w := LehmerStep(v); var j := LehmerScale(w, i + 1);
      && j == SwapIndices(seed, 51)[|done|] && j <= i
      && (done + [j]) + SwapIndices(w, i - 1) == SwapIndices(seed, 51)
  {
    var w := LehmerStep(v);
    var j := LehmerScale(w, i + 1);
    ScaleBelow(v, i + 1);
    assert SwapIndices(v, i) == [j] + SwapIndices(w, i - 1);
    assert (done + [j]) + SwapIndices(w, i - 1) == done + SwapIndices(v, i);
  }

  /** At the end of the loop every index has been used. */
  lemma DrawnAll(seed: int, done: seq<int>, v: int)
    requires Drawn(seed, done, v, 0)
    ensures done == SwapIndices(seed, 51) && InRange(done, 51)
  {
    assert done + [] == done;
  }


  /** The swap loop of `shuffleDeck`, on the deck in place. A negative index
      would make `deck[i] = deck[j]` store `undefined` at the top of the
      deck, the first `pop` would deal it, and reading its rank throws; the
      loop stops there with `ok == false`. */
  method SwapLoop(deck: array<Card>, rng: Lehmer) returns (ok: bool)
    requires deck.Length == 52
    modifies deck, rng
    ensures ok <==> InRange(SwapIndices(old(rng.value), 51), 51)
    ensures ok ==> deck[..] == Swaps(old(deck[..]), 51, SwapIndices(old(rng.value), 51))
  {
    ghost var seed := rng.value;
    ghost var start := deck[..];
    ghost var done: seq<int> := [];
    var i := 51;
    while i > 0
      invariant Drawn(seed, done, rng.value, i)
      invariant deck[..] == Swaps(start, 51, done)
    {
      ghost var before := rng.value;
      var v := rng.Next();
      var j := LehmerScale(v, i + 1);
      ShuffleStep(seed, done, before, i);
      if j < 0 {
        ok := false;
        return;
      }
      ghost var prev := deck[..];
      deck[i], deck[j] := deck[j], deck[i];
      assert deck[..] == Swap(prev, i, j);
      SwapsSnoc(start, 51, done, j);
      done := done + [j];
      i := i - 1;
    }
    DrawnAll(seed, done, rng.value);
    ok := true;
  }

  /** `shuffleDeck`: a new deck, shuffled in place. */
  method ShuffleDeck(rng: Lehmer) returns (deck: array<Card>, ok: bool)
    modifies rng
    ensures fresh(deck) && deck.Length == 52
    ensures ok <==> Live(LehmerStep(old(rng.value)))
    ensures ok ==> deck[..] == ShuffledDeck(old(rng.value))
  {
    var cards := CreateDeck();
    deck := new Card[52](k requires 0 <= k < 52 => cards[k]);
    assert deck[..] == cards;
    SwapIndicesInRange(rng.value, 51);
    ok := SwapLoop(deck, rng);
  }

  // ---------------------------------------------------------------------------
  // Hand values
  // ---------------------------------------------------------------------------

  /** The sum of the card values, every ace counted 11. */
  function RawTotal(hand: seq<Card>): int
  {
    if hand == [] then 0 else RawTotal(hand[..|hand| - 1]) + hand[|hand| - 1].Value()
  }

  function AceCount(hand: seq<Card>): nat
  {
    if hand == [] then 0
    else AceCount(hand[..|hand| - 1]) + if hand[|hand| - 1].rank == Ace then 1 else 0
  }

  /** Counts aces as 1 instead of 11, one at a time, while the total is over 21. */
  function Soften(value: int, aces: int): int
    decreases aces
  {
    if value > 21 && aces > 0 then Soften(value - 10, aces - 1) else value
  }

  /** `calculateHandValue`: each ace counts 11 or 1, as many as possible 11
      without going over 21. */
  function HandValue(hand: seq<Card>): (v: int)
    ensures RawTotal(hand) - 10 * AceCount(hand) <= v <= RawTotal(hand)
    ensures v > 21 ==> v == RawTotal(hand) - 10 * AceCount(hand)
    ensures v < RawTotal(hand) ==> v + 10 > 21
  {
    SoftenBest(RawTotal(hand), AceCount(hand));
    Soften(RawTotal(hand), AceCount(hand))
  }

  /** Softening lowers the total in steps of 10, at most once per ace, and
      stops at the first total not over 21: the result is the largest such
      total, or the total with every ace counted 1 when all are over 21. */
  lemma {:induction false} SoftenBest(value: int, aces: int)
    requires aces >= 0
    ensures value - 10 * aces <= Soften(value, aces) <= value
    ensures (value - Soften(value, aces)) % 10 == 0
    ensures Soften(value, aces) > 21 ==> Soften(value, aces) == value - 10 * aces
    ensures Soften(value, aces) < value ==> Soften(value, aces) + 10 > 21
    decreases aces
  {
    if value > 21 && aces > 0 {
      SoftenBest(value - 10, aces - 1);
    }
  }

  /** With every ace counted 1 each card is worth at least 1. */
  lemma {:induction false} HardTotalAtLeastSize(hand: seq<Card>)
    ensures RawTotal(hand) - 10 * AceCount(hand) >= |hand|
  {
    if hand != [] {
      HardTotalAtLeastSize(hand[..|hand| - 1]);
    }
  }

  /** A hand is worth at least one point per card: a hand still under 17
      holds at most 16 cards, which bounds every drawing loop. */
  lemma HandValueAtLeastSize(hand: seq<Card>)
    ensures HandValue(hand) >= |hand|
  {
    SoftenBest(RawTotal(hand), AceCount(hand));
    HardTotalAtLeastSize(hand);
  }

  /** `calculateHandValue`: sum with aces as 11, then take 10 off per ace
      while over 21. */
  method CalculateHandValue(hand: seq<Card>) returns (value: int)
    ensures value == HandValue(hand)
  {
    value := 0;
    var aces := 0;
    for k := 0 to |hand|
      invariant value == RawTotal(hand[..k]) && aces == AceCount(hand[..k])
    {
      assert hand[..k + 1][..k] == hand[..k];
      var card := hand[k];
      if card.rank == Ace {
        aces := aces + 1;
        value := value + 11;
      } else {
        value := value + card.Value();
      }
    }
    assert hand[..|hand|] == hand;
    while value > 21 && aces > 0
      invariant aces >= 0 && Soften(value, aces) == HandValue(hand)
      decreases aces
    {
      value := value - 10;
      aces := aces - 1;
    }
  }

  // ---------------------------------------------------------------------------
  // The two turns
  // ---------------------------------------------------------------------------

  /** The decision of `shouldHit` for a hand worth `value` against a dealer
      card worth `dealerValue`. Its fourth test (stand on 12 against 4-6)
      never decides anything: such a hand reaches the final `value <= 11`,
      which is false as well. */
  function Hits(value: int, dealerValue: int): (hit: bool)
    ensures hit <==> value <= 11 || (value <= 16 && dealerValue >= 7)
  {
    if value <= 11 then true
    else if value >= 17 then false
    else if value <= 16 && dealerValue >= 7 then true
    else if value <= 12 && dealerValue >= 4 && dealerValue <= 6 then false
    else value <= 11
  }

  /** `shouldHit`. */
  method ShouldHit(hand: seq<Card>, up: Card) returns (hit: bool)
    ensures hit <==> HandValue(hand) <= 11 || (HandValue(hand) <= 16 && up.Value() >= 7)
  {
    var value := CalculateHandValue(hand);
    var dealerValue := up.Value();
    if value <= 11 {
      return true;
    }
    if value >= 17 {
      return false;
    }
    if value <= 16 && dealerValue >= 7 {
      return true;
    }
    if value <= 12 && dealerValue >= 4 && dealerValue <= 6 {
      return false;
    }
    return value <= 11;
  }

  /** The cards of s in the order `pop` deals them: last entry first. */
  function TopFirst(s: seq<Card>): (r: seq<Card>)
    ensures |r| == |s|
  {
    if s == [] then [] else [s[|s| - 1]] + TopFirst(s[..|s| - 1])
  }

  /** Dealing a pile card by card moves exactly its cards. */
  lemma {:induction false} TopFirstPermutes(s: seq<Card>)
    ensures multiset(TopFirst(s)) == multiset(s)
  {
    if s != [] {
      TopFirstPermutes(s[..|s| - 1]);
      assert s == s[..|s| - 1] + [s[|s| - 1]];
    }
  }

  /** `playPlayerHand`: the player's final hand and the deck left over.
      The deck always holds enough cards: a hand that hits is worth at most
      16, so it holds at most 16 cards. */
  function PlayerTurn(hand: seq<Card>, up: Card, deck: seq<Card>): (r: (seq<Card>, seq<Card>))
    requires |hand| + |deck| >= 17
    ensures |r.0| + |r.1| == |hand| + |deck| && |r.1| <= |deck|
    ensures |r.0| <= if |hand| > 17 then |hand| else 17
    decreases |deck|
  {
    HandValueAtLeastSize(hand);
    if !Hits(HandValue(hand), up.Value()) then (hand, deck)
    else
      var h := hand + [deck[|deck| - 1]];
      var d := deck[..|deck| - 1];
      if HandValue(h) > 21 then (h, d) else PlayerTurn(h, up, d)
  }

  /** The player's new cards are the top of the deck, in the order `pop`
      deals them; the rest of the deck is left as it was. */
  lemma {:induction false} PlayerTurnFromTop(hand: seq<Card>, up: Card, deck: seq<Card>)
    requires |hand| + |deck| >= 17
    ensures var r := PlayerTurn(hand, up, deck);
      r.1 == deck[..|r.1|] && r.0 == hand + TopFirst(deck[|r.1|..])
    decreases |deck|
  {
    HandValueAtLeastSize(hand);
    var r := PlayerTurn(hand, up, deck);
    if Hits(HandValue(hand), up.Value()) {
      var n := |deck| - 1;
      var h := hand + [deck[n]];
      var d := deck[..n];
      if HandValue(h) > 21 {
        assert r == (h, d);
        FromTopFirst(hand, deck);
      } else {
        assert r == PlayerTurn(h, up, d);
        PlayerTurnFromTop(h, up, d);
        FromTopStep(hand, deck, r.0, r.1);
      }
    } else {
      assert r == (hand, deck);
      assert deck[|deck|..] == [];
    }
  }

  /** Taking the top card alone. */
  lemma FromTopFirst(hand: seq<Card>, deck: seq<Card>)
    requires |deck| >= 1
    ensures var n := |deck| - 1;
      deck[..n] == deck[..|deck[..n]|] && hand + [deck[n]] == hand + TopFirst(deck[n..])
  {
    var n := |deck| - 1;
    assert deck[n..] == [deck[n]];
    assert TopFirst([deck[n]]) == [deck[n]];
  }

  /** Taking one more card off the top: the cards below position k, top
      first, are the top card followed by the rest below k, top first. */
  lemma DrawOne(deck: seq<Card>, k: int)
    requires 0 <= k < |deck|
    ensures deck[..|deck| - 1][..k] == deck[..k]
    ensures TopFirst(deck[k..]) == [deck[|deck| - 1]] + TopFirst(deck[..|deck| - 1][k..])
  {
    var n := |deck| - 1;
    assert deck[k..] == deck[..n][k..] + [deck[n]];
    assert (deck[..n][k..] + [deck[n]])[..n - k] == deck[..n][k..];
  }

  /** Taking the top card, then more from what is left below it. */
  lemma FromTopStep(hand: seq<Card>, deck: seq<Card>, h: seq<Card>, d: seq<Card>)
    requires |deck| >= 1 && |d| <= |deck| - 1
    requires var n := |deck| - 1;
      d == deck[..n][..|d|] && h == hand + [deck[n]] + TopFirst(deck[..n][|d|..])
    ensures d == deck[..|d|] && h == hand + TopFirst(deck[|d|..])
  {
    var n := |deck| - 1;
    DrawOne(deck, |d|);
    assert hand + [deck[n]] + TopFirst(deck[..n][|d|..]) == hand + ([deck[n]] + TopFirst(deck[..n][|d|..]));
  }

  /** The player hits on every hand before the last one and stands on (or
      has busted with) the last one. */
  lemma {:induction false} PlayerTurnStands(hand: seq<Card>, up: Card, deck: seq<Card>)
    requires |hand| + |deck| >= 17
    ensures !Hits(HandValue(PlayerTurn(hand, up, deck).0), up.Value())
    ensures var h := PlayerTurn(hand, up, deck).0;
      && h[..|hand|] == hand
      && forall m :: |hand| <= m < |h| ==> Hits(HandValue(h[..m]), up.Value())
    decreases |deck|
  {
    HandValueAtLeastSize(hand);
    var r := PlayerTurn(hand, up, deck);
    if Hits(HandValue(hand), up.Value()) {
      var n := |deck| - 1;
      var h := hand + [deck[n]];
      var d := deck[..n];
      if HandValue(h) <= 21 {
        assert r == PlayerTurn(h, up, d);
        PlayerTurnStands(h, up, d);
      } else {
        assert r == (h, d);
      }
      HitStep(hand, up, deck[n], r.0);
    }
  }

  /** A hit on `hand` followed by hits on every later prefix of `final`. */
  lemma HitStep(hand: seq<Card>, up: Card, card: Card, final: seq<Card>)
    requires Hits(HandValue(hand), up.Value())
    requires |hand| + 1 <= |final| && final[..|hand| + 1] == hand + [card]
    requires forall m :: |hand| + 1 <= m < |final| ==> Hits(HandValue(final[..m]), up.Value())
    ensures final[..|hand|] == hand
    ensures forall m :: |hand| <= m < |final| ==> Hits(HandValue(final[..m]), up.Value())
  {
    assert final[..|hand| + 1][..|hand|] == hand;
    assert final[..|hand|] == hand;
  }

  /** `playDealerHand`: the dealer's final hand and the deck left over. */
  function DealerTurn(hand: seq<Card>, deck: seq<Card>): (r: (seq<Card>, seq<Card>))
    requires |hand| + |deck| >= 17
    ensures |r.0| + |r.1| == |hand| + |deck| && |r.1| <= |deck|
    decreases |deck|
  {
    HandValueAtLeastSize(hand);
    if HandValue(hand) < 17 then
      DealerTurn(hand + [deck[|deck| - 1]], deck[..|deck| - 1])
    else (hand, deck)
  }

  /** The dealer's new cards are the top of the deck, in the order `pop`
      deals them. */
  lemma {:induction false} DealerTurnFromTop(hand: seq<Card>, deck: seq<Card>)
    requires |hand| + |deck| >= 17
    ensures var r := DealerTurn(hand, deck);
      r.1 == deck[..|r.1|] && r.0 == hand + TopFirst(deck[|r.1|..])
    decreases |deck|
  {
    HandValueAtLeastSize(hand);
    var r := DealerTurn(hand, deck);
    if HandValue(hand) < 17 {
      var n := |deck| - 1;
      assert r == DealerTurn(hand + [deck[n]], deck[..n]);
      DealerTurnFromTop(hand + [deck[n]], deck[..n]);
      FromTopStep(hand, deck, r.0, r.1);
    } else {
      assert r == (hand, deck);
      assert deck[|deck|..] == [];
    }
  }

  /** The dealer draws until the hand is worth 17 or more, and no longer. */
  lemma {:induction false} DealerTurnStands(hand: seq<Card>, deck: seq<Card>)
    requires |hand| + |deck| >= 17
    ensures HandValue(DealerTurn(hand, deck).0) >= 17
    ensures var h := DealerTurn(hand, deck).0;
      && h[..|hand|] == hand
      && forall m :: |hand| <= m < |h| ==> HandValue(h[..m]) < 17
    decreases |deck|
  {
    HandValueAtLeastSize(hand);
    var r := DealerTurn(hand, deck);
    if HandValue(hand) < 17 {
      var n := |deck| - 1;
      var h := hand + [deck[n]];
      assert r == DealerTurn(h, deck[..n]);
      DealerTurnStands(h, deck[..n]);
      DrawStep(hand, deck[n], r.0);
    }
  }

  /** A draw on `hand` below 17 followed by draws on every later prefix of
      `final`. */
  lemma DrawStep(hand: seq<Card>, card: Card, final: seq<Card>)
    requires HandValue(hand) < 17
    requires |hand| + 1 <= |final| && final[..|hand| + 1] == hand + [card]
    requires forall m :: |hand| + 1 <= m < |final| ==> HandValue(final[..m]) < 17
    ensures final[..|hand|] == hand
    ensures forall m :: |hand| <= m < |final| ==> HandValue(final[..m]) < 17
  {
    assert final[..|hand| + 1][..|hand|] == hand;
    assert final[..|hand|] == hand;
  }

  /** `playPlayerHand`. */
  method PlayPlayerHand(hand: seq<Card>, up: Card, deck: seq<Card>) returns (h: seq<Card>, d: seq<Card>)
    requires |hand| + |deck| >= 17
    ensures (h, d) == PlayerTurn(hand, up, deck)
  {
    h, d := hand, deck;
    var hit := ShouldHit(h, up);
    while hit
      invariant |h| + |d| >= 17
      invariant PlayerTurn(h, up, d) == PlayerTurn(hand, up, deck)
      invariant hit == Hits(HandValue(h), up.Value())
      decreases |d|
    {
      HandValueAtLeastSize(h);
      h, d := h + [d[|d| - 1]], d[..|d| - 1];
      var value := CalculateHandValue(h);
      if value > 21 {
        break;
      }
      hit := ShouldHit(h, up);
    }
  }

  /** `playDealerHand`. */
  method PlayDealerHand(hand: seq<Card>, deck: seq<Card>) returns (h: seq<Card>, d: seq<Card>)
    requires |hand| + |deck| >= 17
    ensures (h, d) == DealerTurn(hand, deck)
  {
    h, d := hand, deck;
    var value := CalculateHandValue(h);
    while value < 17
      invariant |h| + |d| >= 17
      invariant DealerTurn(h, d) == DealerTurn(hand, deck)
      invariant value == HandValue(h)
      decreases |d|
    {
      HandValueAtLeastSize(h);
      h, d := h + [d[|d| - 1]], d[..|d| - 1];
      value := CalculateHandValue(h);
    }
  }

  // ---------------------------------------------------------------------------
  // The round
  // ---------------------------------------------------------------------------

  /** `BlackjackDisplay.gameState` once the round is over. */
  datatype State = PlayerBust | DealerBust | PlayerWin | DealerWin | Tie  // Tie is 'push'

  datatype Outcome = Outcome(
    result: GameResult,
    delta: int,
    playerHand: seq<Card>,
    dealerHand: seq<Card>,
    playerTotal: int,
    dealerTotal: int,
    state: State)

  /** The `switch (gameState)` of `play`. */
  function Settle(state: State, bet: int): (r: (GameResult, int))
    ensures r.0 == Win <==> state == PlayerWin || state == DealerBust
    ensures r.0 == Loss <==> state == PlayerBust || state == DealerWin
    ensures r.1 == (match r.0 case Win => bet case Loss => -bet case Push => 0)
  {
    match state
    case PlayerWin => (Win, bet)
    case DealerBust => (Win, bet)
    case PlayerBust => (Loss, -bet)
    case DealerWin => (Loss, -bet)
    case Tie => (Push, 0)
  }

  function Finish(bet: int, player: seq<Card>, dealer: seq<Card>, state: State): Outcome
  {
    var s := Settle(state, bet);
    Outcome(s.0, s.1, player, dealer, HandValue(player), HandValue(dealer), state)
  }

  /** The round `play` plays on the shuffled deck. */
  function Round(bet: int, deck: seq<Card>): Outcome
    requires |deck| == 52
  {
    var player := [deck[51], deck[50]];
    var dealer := [deck[49], deck[48]];
    var afterPlayer := PlayerTurn(player, dealer[0], deck[..48]);
    var p := afterPlayer.0;
    var playerTotal := HandValue(p);
    if playerTotal > 21 then Finish(bet, p, dealer, PlayerBust)
    else
      var dl := DealerTurn(dealer, afterPlayer.1).0;
      var dealerTotal := HandValue(dl);
      var state :=
        if dealerTotal > 21 then DealerBust
        else if playerTotal > dealerTotal then PlayerWin
        else if dealerTotal > playerTotal then DealerWin
        else Tie;
      Finish(bet, p, dl, state)
  }

  /** `play(input, seed)`: the reference definition of one call. */
  function Game(bet: int, seed: int): (r: Result<Outcome>)
    ensures r.Err? ==> r.failure == Rejected("Invalid bet amount") || r.failure == TypeError
    ensures r.Ok? ==> r.value.delta == (match r.value.result case Win => bet case Loss => -bet case Push => 0)
    ensures r.Ok? ==> r.value.playerTotal == HandValue(r.value.playerHand)
    ensures r.Ok? ==> r.value.dealerTotal == HandValue(r.value.dealerHand)
  {
    if !InBounds(BLACKJACK, bet) then Err(Rejected("Invalid bet amount"))
    else if !Live(LehmerStep(seed)) then Err(TypeError)
    else Ok(Round(bet, ShuffledDeck(seed)))
  }

  /** `play`, statement by statement: validation and the shuffle. */
  method Play(bet: int, seed: int) returns (r: Result<Outcome>)
    ensures r == Game(bet, seed)
  {
    if !(BLACKJACK.minScreenTimeDelta <= bet && bet <= BLACKJACK.maxScreenTimeDelta) {
      return Err(Rejected("Invalid bet amount"));
    }
    var rng := new Lehmer(seed);
    var shuffled, ok := ShuffleDeck(rng);
    if !ok {
      return Err(TypeError);
    }
    var o := PlayRound(bet, shuffled[..]);
    r := Ok(o);
  }

  /** `play`, statement by statement: the deal, the two turns, the settlement. */
  method PlayRound(bet: int, shuffled: seq<Card>) returns (o: Outcome)
    requires |shuffled| == 52
    ensures o == Round(bet, shuffled)
  {
    var deck := shuffled;
    var playerHand := [deck[51], deck[50]];
    var dealerHand := [deck[49], deck[48]];
    deck := deck[..48];
    playerHand, deck := PlayPlayerHand(playerHand, dealerHand[0], deck);
    var state: State;
    var playerTotal := CalculateHandValue(playerHand);
    if playerTotal > 21 {
      state := PlayerBust;
    } else {
      dealerHand, deck := PlayDealerHand(dealerHand, deck);
      var dealerTotal := CalculateHandValue(dealerHand);
      if dealerTotal > 21 {
        state := DealerBust;
      } else if playerTotal > dealerTotal {
        state := PlayerWin;
      } else if dealerTotal > playerTotal {
        state := DealerWin;
      } else {
        state := Tie;
      }
    }
    var result: GameResult;
    var delta: int;
    match state {
      case PlayerWin =>
        result, delta := Win, bet;
      case DealerBust =>
        result, delta := Win, bet;
      case PlayerBust =>
        result, delta := Loss, -bet;
      case DealerWin =>
        result, delta := Loss, -bet;
      case Tie =>
        result, delta := Push, 0;
    }
    var dealerTotal := CalculateHandValue(dealerHand);
    o := Outcome(result, delta, playerHand, dealerHand, playerTotal, dealerTotal, state);
  }

  // ---------------------------------------------------------------------------
  // Properties of a round
  // ---------------------------------------------------------------------------

  /** A bet outside [10, 45] is refused; otherwise the round fails exactly
      for the seeds that are not positive or are multiples of 2147483647. */
  lemma GameFails(bet: int, seed: int)
    ensures Game(bet, seed).Err? && Game(bet, seed).failure.Rejected? <==> !(10 <= bet <= 45)
    ensures Game(bet, seed).Err? <==> !(10 <= bet <= 45) || seed <= 0 || seed % PM_MODULUS == 0
  {
    FirstStateLive(seed);
  }

  /** The settlement: win, loss or push by the final state, for plus the bet,
      minus the bet or nothing; the totals are those of the final hands; a
      player who did not bust faces a dealer hand worth at least 17. */
  lemma GameSettlement(bet: int, seed: int)
    requires Game(bet, seed).Ok?
    ensures var o := Game(bet, seed).value;
      && o.playerTotal == HandValue(o.playerHand) && o.dealerTotal == HandValue(o.dealerHand)
      && (o.state == PlayerBust <==> o.playerTotal > 21)
      && (o.state == DealerBust ==> o.dealerTotal > 21)
      && (o.state == PlayerWin ==> o.dealerTotal < o.playerTotal <= 21)
      && (o.state == DealerWin ==> o.playerTotal < o.dealerTotal <= 21)
      && (o.state == Tie ==> o.playerTotal == o.dealerTotal <= 21)
      && (o.state != PlayerBust ==> o.dealerTotal >= 17)
      && (o.result == Win ==> o.delta == bet)
      && (o.result == Loss ==> o.delta == -bet)
      && (o.result == Push ==> o.delta == 0)
  {
    var deck := ShuffledDeck(seed);
    var dealer := [deck[49], deck[48]];
    var afterPlayer := PlayerTurn([deck[51], deck[50]], dealer[0], deck[..48]);
    if HandValue(afterPlayer.0) <= 21 {
      DealerTurnStands(dealer, afterPlayer.1);
    }
  }

  /** The player stands (or busts) by basic strategy against the dealer's
      first card, having hit on every earlier hand; the dealer's hand holds
      at least the two dealt cards. */
  lemma GamePlayerStrategy(bet: int, seed: int)
    requires Game(bet, seed).Ok?
    ensures var o := Game(bet, seed).value;
      && |o.playerHand| >= 2 && |o.dealerHand| >= 2
      && !Hits(o.playerTotal, o.dealerHand[0].Value())
      && forall m :: 2 <= m < |o.playerHand| ==> Hits(HandValue(o.playerHand[..m]), o.dealerHand[0].Value())
  {
    var deck := ShuffledDeck(seed);
    var player := [deck[51], deck[50]];
    var dealer := [deck[49], deck[48]];
    PlayerTurnStands(player, dealer[0], deck[..48]);
    var afterPlayer := PlayerTurn(player, dealer[0], deck[..48]);
    if HandValue(afterPlayer.0) <= 21 {
      DealerTurnStands(dealer, afterPlayer.1);
    }
  }

  /** Drawing from the top moves cards from the deck to the hand: together
      they hold the same cards as before. */
  lemma FromTopConserves(hand: seq<Card>, deck: seq<Card>, h: seq<Card>, d: seq<Card>)
    requires |d| <= |deck| && d == deck[..|d|] && h == hand + TopFirst(deck[|d|..])
    ensures multiset(h) + multiset(d) == multiset(hand) + multiset(deck)
  {
    TopFirstPermutes(deck[|d|..]);
    assert deck == d + deck[|d|..];
  }

  /** The initial deal: two cards each off the top, 48 left. */
  lemma DealConserves(deck: seq<Card>)
    requires |deck| == 52
    ensures multiset([deck[51], deck[50]]) + multiset([deck[49], deck[48]]) + multiset(deck[..48])
      == multiset(deck)
  {
    assert deck == deck[..48] + [deck[48], deck[49], deck[50], deck[51]];
  }

  /** Both turns played from a deck without repeats deal no card twice. */
  lemma TurnsDistinct(deck: seq<Card>)
    requires |deck| == 52 && Distinct(deck)
    ensures var afterPlayer := PlayerTurn([deck[51], deck[50]], deck[49], deck[..48]);
      var p := afterPlayer.0;
      var dl := DealerTurn([deck[49], deck[48]], afterPlayer.1).0;
      Distinct(p + [deck[49], deck[48]]) && Distinct(p + dl)
  {
    var player := [deck[51], deck[50]];
    var dealer := [deck[49], deck[48]];
    var rest := deck[..48];
    DealConserves(deck);
    var afterPlayer := PlayerTurn(player, deck[49], rest);
    var p, left := afterPlayer.0, afterPlayer.1;
    PlayerTurnFromTop(player, deck[49], rest);
    FromTopConserves(player, rest, p, left);
    var afterDealer := DealerTurn(dealer, left);
    var dl := afterDealer.0;
    DealerTurnFromTop(dealer, left);
    FromTopConserves(dealer, left, dl, afterDealer.1);
    HandsFromDeck(deck, player, dealer, rest, p, left, dl, afterDealer.1);
  }

  /** The cards in the two hands, at any point of the round, come from the
      deck without repeats. */
  lemma HandsFromDeck(deck: seq<Card>, player: seq<Card>, dealer: seq<Card>, rest: seq<Card>,
                      p: seq<Card>, left: seq<Card>, dl: seq<Card>, left2: seq<Card>)
    requires Distinct(deck)
    requires multiset(player) + multiset(dealer) + multiset(rest) == multiset(deck)
    requires multiset(p) + multiset(left) == multiset(player) + multiset(rest)
    requires multiset(dl) + multiset(left2) == multiset(dealer) + multiset(left)
    ensures Distinct(p + dealer) && Distinct(p + dl)
  {
    var mp, mdl, mde := multiset(p), multiset(dl), multiset(dealer);
    var ml, mr := multiset(left), multiset(left2);
    assert multiset(p + dealer) == mp + mde;
    assert multiset(p + dl) == mp + mdl;
    forall x ensures (mp + mde)[x] <= multiset(deck)[x] && (mp + mdl)[x] <= multiset(deck)[x] {
      assert (mp + ml)[x] == (multiset(player) + multiset(rest))[x];
      assert (mdl + mr)[x] == (mde + ml)[x];
      assert (multiset(player) + mde + multiset(rest))[x] == multiset(deck)[x];
    }
    DistinctSubmultiset(deck, p + dealer);
    DistinctSubmultiset(deck, p + dl);
  }

  /** No card is dealt twice: the two final hands hold distinct cards. */
  lemma GameCardsDistinct(bet: int, seed: int)
    requires Game(bet, seed).Ok?
    ensures var o := Game(bet, seed).value;
      Distinct(o.playerHand + o.dealerHand)
  {
    var deck := ShuffledDeck(seed);
    NewDeckComplete();
    SwapIndicesInRange(seed, 51);
    SwapsPermutes(NewDeck(), 51, SwapIndices(seed, 51));
    DistinctSubmultiset(NewDeck(), deck);
    TurnsDistinct(deck);
  }
}
