/** SlotsEngine.ts: the result is decided first, by one or two draws of the
    Park–Miller generator against the configured probabilities; the reels are
    then drawn to fit it (three of a kind for a win, never three of a kind
    otherwise), and a win pays between 1.5 and 2 times the bet. */
module Slots {
  import opened Shared
  import opened GameConfig
  import opened Random

  /** The seven symbols of `SLOT_SYMBOLS`, in their order. */
  datatype Symbol = Cherry | Lemon | Orange | Grapes | Diamond | Star | Bell

  const SLOT_SYMBOLS: seq<Symbol> := [Cherry, Lemon, Orange, Grapes, Diamond, Star, Bell]

  /** `WINNING_COMBINATIONS`: one triple per symbol, in the same order. */
  const WINNING_COMBINATIONS: seq<seq<Symbol>> := [
    [Cherry, Cherry, Cherry],
    [Lemon, Lemon, Lemon],
    [Orange, Orange, Orange],
    [Grapes, Grapes, Grapes],
    [Diamond, Diamond, Diamond],
    [Star, Star, Star],
    [Bell, Bell, Bell]]

  /** The position of a symbol in `SLOT_SYMBOLS`. */
  function IndexOf(s: Symbol): (i: nat)
    ensures i < |SLOT_SYMBOLS| && SLOT_SYMBOLS[i] == s
  {
    match s
    case Cherry => 0
    case Lemon => 1
    case Orange => 2
    case Grapes => 3
    case Diamond => 4
    case Star => 5
    case Bell => 6
  }

  /** Every symbol appears once in the list, and combination k is three
      times symbol k. */
  lemma SymbolTables()
    ensures |SLOT_SYMBOLS| == |WINNING_COMBINATIONS| == 7
    ensures forall i, j :: 0 <= i < j < 7 ==> SLOT_SYMBOLS[i] != SLOT_SYMBOLS[j]
    ensures forall k :: 0 <= k < 7 ==>
      WINNING_COMBINATIONS[k] == [SLOT_SYMBOLS[k], SLOT_SYMBOLS[k], SLOT_SYMBOLS[k]]
  {
  }

  /** `validateInput`: a bet from 5 to 60 minutes. */
  function ValidateInput(bet: int): (ok: bool)
    ensures ok <==> 5 <= bet <= 60
  {
    InBounds(SLOTS, bet)
  }

  // ---------------------------------------------------------------------------
  // Draws
  // ---------------------------------------------------------------------------

  /** The value `random()` returns once the closure's state is v. */
  function Draw(v: int): real {
    (v - 1) as real / PM_SPAN as real
  }

  /** A live state draws from [0, 1); any other state the step can produce
      draws below 0. */
  lemma DrawRange(v: int)
    requires -PM_MODULUS < v < PM_MODULUS
    ensures Live(v) ==> 0.0 <= Draw(v) < 1.0
    ensures !Live(v) ==> Draw(v) < 0.0
  {
  }

  /** `SLOT_SYMBOLS[Math.floor(random() * SLOT_SYMBOLS.length)]` for a live state. */
  function SymbolOf(v: int): Symbol
    requires Live(v)
  {
    ScaleLive(v, |SLOT_SYMBOLS|);
    SLOT_SYMBOLS[LehmerScale(v, |SLOT_SYMBOLS|)]
  }

  // ---------------------------------------------------------------------------
  // Reels
  // ---------------------------------------------------------------------------

  /** `isWinningCombination(reels)`: some winning combination matches the
      reels position by position. */
  predicate IsWinningCombination(reels: seq<Symbol>)
    requires |reels| == 3
  {
    exists k :: 0 <= k < |WINNING_COMBINATIONS| &&
      WINNING_COMBINATIONS[k][0] == reels[0] &&
      WINNING_COMBINATIONS[k][1] == reels[1] &&
      WINNING_COMBINATIONS[k][2] == reels[2]
  }

  /** The reels match a winning combination exactly when they show three of
      a kind. */
  lemma WinningIsThreeOfAKind(reels: seq<Symbol>)
    requires |reels| == 3
    ensures IsWinningCombination(reels) <==> reels[0] == reels[1] == reels[2]
  {
    SymbolTables();
    if reels[0] == reels[1] == reels[2] {
      var k := IndexOf(reels[0]);
      assert WINNING_COMBINATIONS[k] == [reels[0], reels[0], reels[0]];
    }
  }

  /** `symbols.find(s => s !== x)`. */
  function FindOther(symbols: seq<Symbol>, x: Symbol): (r: Option<Symbol>)
    ensures r.Some? ==> r.get in symbols && r.get != x
    ensures r.None? <==> forall k :: 0 <= k < |symbols| ==> symbols[k] == x
    decreases |symbols|
  {
    if symbols == [] then None
    else if symbols[0] != x then Some(symbols[0])
    else FindOther(symbols[1..], x)
  }

  /** `SLOT_SYMBOLS.find(s => s !== x) || '🍒'`: the patch for reel 3. */
  function Replacement(x: Symbol): Symbol {
    match FindOther(SLOT_SYMBOLS, x)
    case Some(s) => s
    case None => Cherry
  }

  /** The patch is the first symbol other than x: a cherry, or a lemon in
      place of a cherry. The fallback is never used. */
  lemma ReplacementSpec(x: Symbol)
    ensures Replacement(x) != x
    ensures Replacement(x) == if x == Cherry then Lemon else Cherry
    ensures FindOther(SLOT_SYMBOLS, x).Some?
  {
  }

  /** Three symbols drawn after state v, reel 3 patched when they form a
      winning combination. */
  function Spin(v: int): (reels: seq<Symbol>)
    requires Live(v)
    ensures |reels| == 3
  {
    var a := LehmerStep(v);
    LiveStep(v);
    var b := LehmerStep(a);
    LiveStep(a);
    var c := LehmerStep(b);
    LiveStep(b);
    var drawn := [SymbolOf(a), SymbolOf(b), SymbolOf(c)];
    if IsWinningCombination(drawn) then drawn[2 := Replacement(drawn[0])] else drawn
  }

  /** A spin never shows three of a kind: the first two reels are as drawn,
      and the third is as drawn unless all three agreed, when it is replaced
      by the first other symbol. */
  lemma SpinNeverWins(v: int)
    requires Live(v)
    ensures var reels := Spin(v);
      var a := LehmerStep(v);
      var b := LehmerStep(a);
      var c := LehmerStep(b);
      && Live(a) && Live(b) && Live(c)
      && !IsWinningCombination(reels)
      && !(reels[0] == reels[1] == reels[2])
      && reels[0] == SymbolOf(a) && reels[1] == SymbolOf(b)
      && (reels[2] == SymbolOf(c) <==> !(SymbolOf(a) == SymbolOf(b) == SymbolOf(c)))
      && (reels[2] != SymbolOf(c) ==> reels[2] == Replacement(reels[0]))
  {
    var a := LehmerStep(v);
    LiveStep(v);
    var b := LehmerStep(a);
    LiveStep(a);
    var c := LehmerStep(b);
    LiveStep(b);
    var drawn := [SymbolOf(a), SymbolOf(b), SymbolOf(c)];
    WinningIsThreeOfAKind(drawn);
    WinningIsThreeOfAKind(Spin(v));
    ReplacementSpec(drawn[0]);
  }

  /** Three reels drawn from the closure, reel 3 patched in place. */
  method SpinReels(random: Lehmer) returns (reels: seq<Symbol>)
    requires Live(random.value)
    modifies random
    ensures reels == Spin(old(random.value))
    ensures random.value == LehmerAfter(old(random.value), 3)
  {
    ghost var v := random.value;
    var a := random.Next();
    LiveStep(v);
    var b := random.Next();
    LiveStep(a);
    var c := random.Next();
    LiveStep(b);
    ScaleLive(a, |SLOT_SYMBOLS|);
    ScaleLive(b, |SLOT_SYMBOLS|);
    ScaleLive(c, |SLOT_SYMBOLS|);
    var shown := new Symbol[3] [
      SLOT_SYMBOLS[LehmerScale(a, |SLOT_SYMBOLS|)],
      SLOT_SYMBOLS[LehmerScale(b, |SLOT_SYMBOLS|)],
      SLOT_SYMBOLS[LehmerScale(c, |SLOT_SYMBOLS|)]];
    if IsWinningCombination(shown[..]) {
      shown[2] := Replacement(shown[0]);
    }
    reels := shown[..];
  }

  // ---------------------------------------------------------------------------
  // The round
  // ---------------------------------------------------------------------------

  /** `getPaylineDescription`: "Three Xs!" names the symbol of reel 1. */
  datatype Payline = ThreeOf(symbol: Symbol) | NoMatch

  function PaylineDescription(reels: seq<Symbol>, isWin: bool): Payline
    requires |reels| == 3
  {
    if isWin then ThreeOf(reels[0]) else NoMatch
  }

  /** `Math.floor(bet * (1.5 + random() * 0.5))` for the state v. */
  function WinDelta(bet: int, v: int): int {
    (bet as real * (1.5 + Draw(v) * 0.5)).Floor
  }

  /** A live draw pays a winning bet between 1.5 times (rounded down) and
      just under twice the bet. */
  lemma WinDeltaRange(bet: int, v: int)
    requires bet > 0 && Live(v)
    ensures (3 * bet) / 2 <= WinDelta(bet, v) <= 2 * bet - 1
  {
    var b := bet as real;
    var r := Draw(v);
    DrawRange(v);
    assert b * (r * 0.5) >= 0.0;
    assert b * (1.0 - r) > 0.0;
    var x := b * (1.5 + r * 0.5);
    assert 1.5 * b <= x < 2.0 * b;
    assert ((3 * bet) / 2) as real <= 1.5 * b;
  }

  /** `GameOutcome` with `SlotsDisplay`. */
  datatype Outcome = Outcome(
    result: GameResult,
    delta: int,
    reels: seq<Symbol>,
    isWin: bool,
    payline: Payline)

  /** The winning round once the first draw has left state v1: the second
      draw picks the combination, the third the payout. A state v1 that is
      not live draws below 0, so the combination index is negative and
      spreading `undefined` throws. */
  function WinRound(bet: int, v1: int): Result<Outcome> {
    var v2 := LehmerStep(v1);
    var k := LehmerScale(v2, |WINNING_COMBINATIONS|);
    if k < 0 then Err(TypeError)
    else
      ScaleBelow(v2, |WINNING_COMBINATIONS|);
      var reels := WINNING_COMBINATIONS[k];
      Ok(Outcome(Win, WinDelta(bet, LehmerStep(v2)), reels, true, PaylineDescription(reels, true)))
  }

  /** A losing or pushed round once the second draw has left state v2: the
      reels are spun from there and the bet is lost or kept. */
  function OtherRound(bet: int, v2: int, result: GameResult): Outcome
    requires Live(v2)
  {
    var reels := Spin(v2);
    Outcome(result, if result == Loss then -bet else 0, reels, false, PaylineDescription(reels, false))
  }

  /** `play(input, seed)`. */
  function Game(bet: int, seed: int): (r: Result<Outcome>)
    ensures r.Err? ==> r.failure == Rejected("Invalid bet amount") || r.failure == TypeError
    ensures r.Ok? ==> (r.value.isWin <==> r.value.result == Win)
    ensures r.Ok? && r.value.result == Loss ==> r.value.delta == -bet
    ensures r.Ok? && r.value.result == Push ==> r.value.delta == 0
  {
    if !ValidateInput(bet) then Err(Rejected("Invalid bet amount"))
    else
      var v1 := LehmerStep(seed);
      if Draw(v1) < SLOTS.winProbability then WinRound(bet, v1)
      else
        var v2 := LehmerStep(v1);
        DrawRange(v1);
        LiveStep(v1);
        Ok(OtherRound(bet, v2, if Draw(v2) < SLOTS.winProbability + SLOTS.lossProbability then Loss else Push))
  }

  /** `play`, statement by statement. */
  method Play(bet: int, seed: int) returns (r: Result<Outcome>)
    ensures r == Game(bet, seed)
  {
    if !ValidateInput(bet) {
      return Err(Rejected("Invalid bet amount"));
    }
    var random := new Lehmer(seed);
    var outcome := Classify(random);
    if outcome == Win {
      r := PlayWin(random, bet);
    } else {
      DrawRange(LehmerStep(seed));
      LiveStep(LehmerStep(seed));
      var o := PlayOther(random, bet, outcome);
      r := Ok(o);
    }
  }

  /** The win branch of `play`: pick a combination, then the payout. */
  method PlayWin(random: Lehmer, bet: int) returns (r: Result<Outcome>)
    modifies random
    ensures r == WinRound(bet, old(random.value))
  {
    var v := random.Next();
    var k := LehmerScale(v, |WINNING_COMBINATIONS|);
    if k < 0 {
      return Err(TypeError);
    }
    ScaleBelow(v, |WINNING_COMBINATIONS|);
    var reels := WINNING_COMBINATIONS[k];
    var w := random.Next();
    var screenTimeDelta := (bet as real * (1.5 + Draw(w) * 0.5)).Floor;
    r := Ok(Outcome(Win, screenTimeDelta, reels, true, PaylineDescription(reels, true)));
  }

  /** The loss and push branch of `play`: spin the reels, settle the bet. */
  method PlayOther(random: Lehmer, bet: int, outcome: GameResult) returns (o: Outcome)
    requires Live(random.value)
    modifies random
    ensures o == OtherRound(bet, old(random.value), outcome)
  {
    var reels := SpinReels(random);
    var screenTimeDelta := if outcome == Loss then -bet else 0;
    o := Outcome(outcome, screenTimeDelta, reels, false, PaylineDescription(reels, false));
  }

  /** The choice of `outcome`: a first draw below the win probability wins;
      otherwise a second, fresh draw below the sum of the win and loss
      probabilities loses, and anything else pushes. */
  method Classify(random: Lehmer) returns (outcome: GameResult)
    modifies random
    ensures var v1 := LehmerStep(old(random.value));
      outcome == (if Draw(v1) < SLOTS.winProbability then Win
                  else if Draw(LehmerStep(v1)) < SLOTS.winProbability + SLOTS.lossProbability then Loss
                  else Push)
    ensures random.value == if outcome == Win then LehmerStep(old(random.value))
                            else LehmerStep(LehmerStep(old(random.value)))
  {
    var first := random.Next();
    if Draw(first) < SLOTS.winProbability {
      outcome := Win;
    } else {
      var second := random.Next();
      outcome := if Draw(second) < SLOTS.winProbability + SLOTS.lossProbability then Loss else Push;
    }
  }

  // ---------------------------------------------------------------------------
  // Properties of a round
  // ---------------------------------------------------------------------------

  /** `play` throws "Invalid bet amount" exactly for bets outside 5-60, and
      otherwise fails only for seeds whose first state is not live: those
      that are not positive or are multiples of the modulus. */
  lemma GameFails(bet: int, seed: int)
    ensures var r := Game(bet, seed);
      && (r == Err(Rejected("Invalid bet amount")) <==> !(5 <= bet <= 60))
      && (r == Err(TypeError) <==> 5 <= bet <= 60 && (seed <= 0 || seed % PM_MODULUS == 0))
      && (r.Err? ==> r == Err(Rejected("Invalid bet amount")) || r == Err(TypeError))
  {
    var v1 := LehmerStep(seed);
    FirstStateLive(seed);
    DrawRange(v1);
    ScaleBelow(v1, |WINNING_COMBINATIONS|);
    if !Live(v1) {
      NonPositiveStep(v1);
      ScaleNonPositive(LehmerStep(v1), |WINNING_COMBINATIONS|);
    } else {
      LiveStep(v1);
      ScaleLive(LehmerStep(v1), |WINNING_COMBINATIONS|);
    }
  }

  /** The result is decided by the first one or two draws: a win below 0.10,
      then a loss for a second draw below 0.95, else a push. */
  lemma GameClassifies(bet: int, seed: int)
    requires Game(bet, seed).Ok?
    ensures var o := Game(bet, seed).value;
      var v1 := LehmerStep(seed);
      && (o.result == Win <==> Draw(v1) < 0.10)
      && (o.result == Loss <==> Draw(v1) >= 0.10 && Draw(LehmerStep(v1)) < 0.95)
      && (o.result == Push <==> Draw(v1) >= 0.10 && Draw(LehmerStep(v1)) >= 0.95)
  {
  }

  /** A win shows the winning combination drawn second, three of a kind, and
      pays between 1.5 and 2 times the bet; a loss costs the bet and a push
      nothing, and neither shows three of a kind. The payline names the
      symbol exactly on a win. */
  lemma GameSettlement(bet: int, seed: int)
    requires Game(bet, seed).Ok?
    ensures var o := Game(bet, seed).value;
      var v2 := LehmerAfter(seed, 2);
      && |o.reels| == 3
      && (o.isWin <==> o.result == Win)
      && (o.result == Win ==>
            && 0 <= LehmerScale(v2, 7) < 7
            && o.reels == WINNING_COMBINATIONS[LehmerScale(v2, 7)]
            && o.reels[0] == o.reels[1] == o.reels[2]
            && (3 * bet) / 2 <= o.delta <= 2 * bet - 1)
      && (o.result != Win ==> Live(v2) && !(o.reels[0] == o.reels[1] == o.reels[2]) && o.reels == Spin(v2))
      && (o.result == Loss ==> o.delta == -bet)
      && (o.result == Push ==> o.delta == 0)
      && (o.payline == ThreeOf(o.reels[0]) <==> o.result == Win)
      && (o.payline == NoMatch <==> o.result != Win)
  {
    var v1 := LehmerStep(seed);
    var v2 := LehmerStep(v1);
    assert LehmerAfter(seed, 2) == v2;
    FirstStateLive(seed);
    DrawRange(v1);
    var o := Game(bet, seed).value;
    if o.result == Win {
      ScaleBelow(v1, 7);
      SymbolTables();
      assert Live(v1) by {
        if !Live(v1) {
          NonPositiveStep(v1);
          ScaleNonPositive(v2, 7);
        }
      }
      LiveStep(v1);
      LiveStep(v2);
      WinDeltaRange(bet, LehmerStep(v2));
    } else {
      LiveStep(v1);
      SpinNeverWins(v2);
    }
  }
}
