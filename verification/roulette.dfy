/** RouletteEngine.ts: European single-zero roulette. One draw of the
    Park–Miller generator picks the winning number 0-36, a second one the
    number of laps of the ball animation; every bet is then settled against
    the winning number. */
module Roulette {
  import opened Shared
  import opened GameConfig
  import opened Random

  datatype BetKind = Red | Black | Odd | Even | Single | Dozen | Column

  /** `RouletteBet`; `value` is optional in the source. Amounts are whole
      minutes. */
  datatype Bet = Bet(kind: BetKind, amount: int, value: Option<int>)

  datatype Color = Green | RedColor | BlackColor

  const RED_NUMBERS: seq<int> := [1, 3, 5, 7, 9, 12, 14, 16, 18, 19, 21, 23, 25, 27, 30, 32, 34, 36]
  const BLACK_NUMBERS: seq<int> := [2, 4, 6, 8, 10, 11, 13, 15, 17, 20, 22, 24, 26, 28, 29, 31, 33, 35]

  /** The red and black lists are disjoint, eighteen numbers each, and
      together they are exactly the numbers 1 to 36. */
  lemma ColorsPartition()
    ensures |RED_NUMBERS| == 18 && |BLACK_NUMBERS| == 18
    ensures forall n :: n in RED_NUMBERS ==> n !in BLACK_NUMBERS
    ensures forall n :: (n in RED_NUMBERS || n in BLACK_NUMBERS) <==> 1 <= n <= 36
  {
    ColorsCover();
    ColorsByRule();
  }

  /** On the wheel's layout a number is red when it is odd in 1-10 and 19-28
      and even in 11-18 and 29-36; black otherwise. */
  predicate RedByRule(n: int) {
    if 1 <= n <= 10 || 19 <= n <= 28 then n % 2 == 1 else n % 2 == 0
  }

  lemma ColorsByRule()
    ensures forall n :: n in RED_NUMBERS ==> RedByRule(n)
    ensures forall n :: n in BLACK_NUMBERS ==> !RedByRule(n)
  {
    RedByRuleAt();
    BlackByRuleAt();
  }

  lemma RedByRuleAt()
    ensures forall k :: 0 <= k < |RED_NUMBERS| ==> RedByRule(RED_NUMBERS[k])
  {
  }

  lemma BlackByRuleAt()
    ensures forall k :: 0 <= k < |BLACK_NUMBERS| ==> !RedByRule(BLACK_NUMBERS[k])
  {
  }

  lemma ColorsCover()
    ensures forall n :: (n in RED_NUMBERS || n in BLACK_NUMBERS) <==> 1 <= n <= 36
  {
    forall n | 1 <= n <= 36 ensures n in RED_NUMBERS || n in BLACK_NUMBERS {
      if n in {1, 3, 5, 7, 9, 12, 14, 16, 18, 19, 21, 23, 25, 27, 30, 32, 34, 36} {
        assert n in RED_NUMBERS;
      } else {
        assert n in BLACK_NUMBERS;
      }
    }
  }

  /** `getNumberColor`: 0 is green, the red list is red, and every other
      number, the black list included, is black. */
  function NumberColor(n: int): (c: Color)
    ensures c == Green <==> n == 0
    ensures c == RedColor <==> n in RED_NUMBERS
    ensures 1 <= n <= 36 ==> (c == BlackColor <==> n in BLACK_NUMBERS)
    ensures !(0 <= n <= 36) ==> c == BlackColor
  {
    ColorsPartition();
    if n == 0 then Green
    else if n in RED_NUMBERS then RedColor
    else BlackColor
  }

  /** `isBetWinner`; `%` is JavaScript's remainder. 0 loses every bet except
      a single on 0; a dozen or column bet whose value is not 1, 2 or 3 never
      wins; on a wheel number each dozen and each column holds twelve
      numbers. */
  function IsBetWinner(bet: Bet, n: int): (w: bool)
    ensures n == 0 ==> (w <==> bet.kind == Single && bet.value == Some(0))
    ensures (bet.kind == Dozen || bet.kind == Column) && bet.value !in {Some(1), Some(2), Some(3)}
      ==> !w
    ensures 1 <= n <= 36 && bet.kind == Dozen && bet.value.Some? && 1 <= bet.value.get <= 3
      ==> (w <==> (n - 1) / 12 + 1 == bet.value.get)
    ensures 1 <= n <= 36 && bet.kind == Column && bet.value.Some? && 1 <= bet.value.get <= 3
      ==> (w <==> (n - 1) % 3 + 1 == bet.value.get)
    ensures 1 <= n <= 36 && bet.kind == Odd ==> (w <==> n % 2 == 1)
    ensures 1 <= n <= 36 && bet.kind == Even ==> (w <==> n % 2 == 0)
  {
    match bet.kind
    case Red => NumberColor(n) == RedColor
    case Black => NumberColor(n) == BlackColor
    case Odd => n != 0 && JsRem(n, 2) == 1
    case Even => n != 0 && JsRem(n, 2) == 0
    case Single => bet.value == Some(n)
    case Dozen =>
      if bet.value == Some(1) then 1 <= n <= 12
      else if bet.value == Some(2) then 13 <= n <= 24
      else if bet.value == Some(3) then 25 <= n <= 36
      else false
    case Column =>
      if bet.value == Some(1) then JsRem(n, 3) == 1
      else if bet.value == Some(2) then JsRem(n, 3) == 2
      else if bet.value == Some(3) then JsRem(n, 3) == 0 && n != 0
      else false
  }

  /** `getPayoutMultiplier`: the stake times 2 for the even-money bets, 3 for
      dozens and columns and 36 for a single number. */
  function PayoutMultiplier(kind: BetKind): (m: int)
    ensures m in {2, 3, 36}
  {
    match kind
    case Red => 2
    case Black => 2
    case Odd => 2
    case Even => 2
    case Dozen => 3
    case Column => 3
    case Single => 36
  }

  // ---------------------------------------------------------------------------
  // Validation
  // ---------------------------------------------------------------------------

  /** `input.bets.reduce((sum, bet) => sum + bet.amount, 0)`. */
  function TotalBet(bets: seq<Bet>): int {
    if bets == [] then 0 else TotalBet(bets[..|bets| - 1]) + bets[|bets| - 1].amount
  }

  /** The per-bet condition of `validateInput`. */
  predicate BetOk(bet: Bet) {
    bet.amount > 0 && (bet.kind != Single || (bet.value.Some? && 0 <= bet.value.get <= 36))
  }

  /** `validateInput`. */
  function ValidateInput(bets: seq<Bet>): (ok: bool)
    ensures ok <==> && bets != []
                    && 5 <= TotalBet(bets) <= 120
                    && forall k :: 0 <= k < |bets| ==> BetOk(bets[k])
  {
    && |bets| != 0
    && ROULETTE.minScreenTimeDelta <= TotalBet(bets) <= ROULETTE.maxScreenTimeDelta
    && forall bet :: bet in bets ==> BetOk(bet)
  }

  // ---------------------------------------------------------------------------
  // The ball animation
  // ---------------------------------------------------------------------------

  /** The pocket numbers 0, 1, ..., k - 1. */
  function Lap(k: int): (r: seq<int>)
    requires k >= 0
    ensures |r| == k && forall i :: 0 <= i < k ==> r[i] == i
  {
    seq(k, i => i)
  }

  /** s full laps of the 37 pockets. */
  function FullLaps(s: nat): (r: seq<int>)
    ensures |r| == 37 * s
  {
    if s == 0 then [] else FullLaps(s - 1) + Lap(37)
  }

  /** The path of `generateBallAnimation` for the winning number w: all laps
      but the last in full, the last one up to w. */
  function BallPath(w: int, spins: int): seq<int> {
    if spins <= 0 then [] else FullLaps(spins - 1) + Lap(Clamp(w + 1, 0, 37))
  }

  /** Every entry of the path is a pocket 0-36; for a winning number 0-36 the
      path has 37 * (spins - 1) + w + 1 entries and ends on w. */
  lemma {:induction false} BallPathShape(w: int, spins: int)
    ensures forall k :: 0 <= k < |BallPath(w, spins)| ==> 0 <= BallPath(w, spins)[k] <= 36
    ensures 0 <= w <= 36 && spins >= 1 ==>
      && |BallPath(w, spins)| == 37 * (spins - 1) + w + 1
      && BallPath(w, spins)[|BallPath(w, spins)| - 1] == w
    ensures w < 0 && spins >= 1 ==> BallPath(w, spins) == FullLaps(spins - 1)
  {
    if spins >= 1 {
      FullLapsRange(spins - 1);
      var full := FullLaps(spins - 1);
      var last := Lap(Clamp(w + 1, 0, 37));
      forall k | 0 <= k < |full + last| ensures 0 <= (full + last)[k] <= 36 {
        if k >= |full| {
          assert (full + last)[k] == last[k - |full|];
        }
      }
      if w < 0 {
        assert last == [];
        assert full + [] == full;
      }
    }
  }

  lemma {:induction false} FullLapsRange(s: nat)
    ensures forall k :: 0 <= k < |FullLaps(s)| ==> 0 <= FullLaps(s)[k] <= 36
  {
    if s > 0 {
      FullLapsRange(s - 1);
      var a, b := FullLaps(s - 1), Lap(37);
      assert FullLaps(s) == a + b;
      forall k | 0 <= k < |a + b| ensures 0 <= (a + b)[k] <= 36 {
        if k >= |a| {
          assert (a + b)[k] == b[k - |a|];
        }
      }
    }
  }

  /** `generateBallAnimation`, with its nested loops. */
  method GenerateBallAnimation(winningNumber: int, random: Lehmer) returns (path: seq<int>)
    modifies random
    ensures random.value == LehmerStep(old(random.value))
    ensures path == BallPath(winningNumber, 3 + LehmerScale(random.value, 2))
  {
    path := [];
    var v := random.Next();
    var spins := 3 + LehmerScale(v, 2);
    var spin := 0;
    while spin < spins
      invariant 0 <= spin && (spin <= spins || spins <= 0)
      invariant spins <= 0 ==> path == []
      invariant spins > 0 ==> spin <= spins
      invariant spins > 0 && spin < spins ==> path == FullLaps(spin)
      invariant spins > 0 && spin == spins ==> path == BallPath(winningNumber, spins)
      decreases spins - spin
    {
      ghost var before := path;
      for i := 0 to 37
        invariant spin < spins - 1 ==> path == before + Lap(i)
        invariant spin == spins - 1 ==> path == before + Lap(Clamp(winningNumber + 1, 0, i))
      {
        if spin == spins - 1 {
          if i <= winningNumber {
            path := path + [i];
          }
          assert Lap(Clamp(winningNumber + 1, 0, i + 1))
              == Lap(Clamp(winningNumber + 1, 0, i)) + (if i <= winningNumber then [i] else []);
        } else {
          path := path + [i];
          assert Lap(i + 1) == Lap(i) + [i];
        }
      }
      spin := spin + 1;
    }
  }

  // ---------------------------------------------------------------------------
  // Settling the bets
  // ---------------------------------------------------------------------------

  /** The winning bets in input order. */
  function Winners(bets: seq<Bet>, n: int): seq<Bet> {
    if bets == [] then []
    else
      var last := bets[|bets| - 1];
      Winners(bets[..|bets| - 1], n) + (if IsBetWinner(last, n) then [last] else [])
  }

  /** The losing bets in input order. */
  function Losers(bets: seq<Bet>, n: int): seq<Bet> {
    if bets == [] then []
    else
      var last := bets[|bets| - 1];
      Losers(bets[..|bets| - 1], n) + (if IsBetWinner(last, n) then [] else [last])
  }

  /** `totalPayout`: the winning amounts times their multipliers. */
  function TotalPayout(bets: seq<Bet>, n: int): int {
    if bets == [] then 0
    else
      var last := bets[|bets| - 1];
      TotalPayout(bets[..|bets| - 1], n) + (if IsBetWinner(last, n) then last.amount * PayoutMultiplier(last.kind) else 0)
  }

  /** `totalLoss`: the losing amounts. */
  function TotalLoss(bets: seq<Bet>, n: int): int {
    if bets == [] then 0
    else
      var last := bets[|bets| - 1];
      TotalLoss(bets[..|bets| - 1], n) + (if IsBetWinner(last, n) then 0 else last.amount)
  }

  /** The winning and losing bets split the bets: each bet lands in exactly
      one of them, on the side its outcome says. */
  lemma {:induction false} SettleSides(bets: seq<Bet>, n: int)
    ensures multiset(Winners(bets, n)) + multiset(Losers(bets, n)) == multiset(bets)
    ensures forall b :: b in Winners(bets, n) ==> IsBetWinner(b, n)
    ensures forall b :: b in Losers(bets, n) ==> !IsBetWinner(b, n)
  {
    if bets != [] {
      var init, last := bets[..|bets| - 1], bets[|bets| - 1];
      SettleSides(init, n);
      assert bets == init + [last];
    }
  }

  /** Both sides keep the input order: splitting a run of bets in two and
      settling the halves gives the same lists as settling the whole run. */
  lemma {:induction false} SettleOrder(a: seq<Bet>, b: seq<Bet>, n: int)
    ensures Winners(a + b, n) == Winners(a, n) + Winners(b, n)
    ensures Losers(a + b, n) == Losers(a, n) + Losers(b, n)
    decreases |b|
  {
    if b == [] {
      assert a + b == a;
    } else {
      var init := b[..|b| - 1];
      assert (a + b)[..|a + b| - 1] == a + init;
      SettleOrder(a, init, n);
    }
  }

  /** For positive amounts the net lies between minus the total staked and
      36 times it, and it is minus the total exactly when nothing wins. */
  lemma {:induction false} SettleNet(bets: seq<Bet>, n: int)
    requires forall k :: 0 <= k < |bets| ==> bets[k].amount > 0
    ensures -TotalBet(bets) <= TotalPayout(bets, n) - TotalLoss(bets, n) <= 36 * TotalBet(bets)
    ensures TotalPayout(bets, n) - TotalLoss(bets, n) == -TotalBet(bets) <==> Winners(bets, n) == []
  {
    if bets != [] {
      var init, last := bets[..|bets| - 1], bets[|bets| - 1];
      assert forall k :: 0 <= k < |init| ==> init[k] == bets[k];
      SettleNet(init, n);
      NetStep(TotalBet(init), TotalPayout(init, n), TotalLoss(init, n), |Winners(init, n)|,
        last.amount, PayoutMultiplier(last.kind), IsBetWinner(last, n));
    }
  }

  /** One more bet of amount a > 0 and multiplier m in [2, 36]. */
  lemma NetStep(total: int, payout: int, loss: int, winners: nat, a: int, m: int, wins: bool)
    requires a > 0 && 2 <= m <= 36
    requires -total <= payout - loss <= 36 * total
    requires payout - loss == -total <==> winners == 0
    ensures var p := payout + (if wins then a * m else 0);
      var l := loss + (if wins then 0 else a);
      var w := winners + (if wins then 1 else 0);
      && -(total + a) <= p - l <= 36 * (total + a)
      && (p - l == -(total + a) <==> w == 0)
  {
  }

  /** The loop of `play` over the bets. */
  method EvaluateBets(bets: seq<Bet>, winningNumber: int)
      returns (winningBets: seq<Bet>, losingBets: seq<Bet>, totalPayout: int, totalLoss: int)
    ensures winningBets == Winners(bets, winningNumber) && losingBets == Losers(bets, winningNumber)
    ensures totalPayout == TotalPayout(bets, winningNumber) && totalLoss == TotalLoss(bets, winningNumber)
  {
    winningBets, losingBets := [], [];
    totalPayout, totalLoss := 0, 0;
    for k := 0 to |bets|
      invariant winningBets == Winners(bets[..k], winningNumber)
      invariant losingBets == Losers(bets[..k], winningNumber)
      invariant totalPayout == TotalPayout(bets[..k], winningNumber)
      invariant totalLoss == TotalLoss(bets[..k], winningNumber)
    {
      var bet := bets[k];
      assert bets[..k + 1][..k] == bets[..k] && bets[..k + 1][k] == bet;
      if IsBetWinner(bet, winningNumber) {
        winningBets := winningBets + [bet];
        totalPayout := totalPayout + bet.amount * PayoutMultiplier(bet.kind);
      } else {
        losingBets := losingBets + [bet];
        totalLoss := totalLoss + bet.amount;
      }
    }
    assert bets[..|bets|] == bets;
  }

  /** win, loss or push by the sign of the net. */
  function Classify(net: int): (r: GameResult)
    ensures r == Win <==> net > 0
    ensures r == Loss <==> net < 0
    ensures r == Push <==> net == 0
  {
    if net > 0 then Win else if net < 0 then Loss else Push
  }

  // ---------------------------------------------------------------------------
  // The round
  // ---------------------------------------------------------------------------

  datatype Outcome = Outcome(
    result: GameResult,
    delta: int,
    winningNumber: int,
    winningColor: Color,
    ballAnimation: seq<int>,
    winningBets: seq<Bet>,
    losingBets: seq<Bet>)

  /** `play(input, seed)`. */
  function Game(bets: seq<Bet>, seed: int): (r: Result<Outcome>)
    ensures r.Err? <==> !ValidateInput(bets)
    ensures r.Err? ==> r.failure == Rejected("Invalid bets")
    ensures r.Ok? ==> (r.value.result == Win <==> r.value.delta > 0)
    ensures r.Ok? ==> (r.value.result == Loss <==> r.value.delta < 0)
  {
    if !ValidateInput(bets) then Err(Rejected("Invalid bets"))
    else
      var v := LehmerStep(seed);
      var n := LehmerScale(v, 37);
      var spins := 3 + LehmerScale(LehmerStep(v), 2);
      var net := TotalPayout(bets, n) - TotalLoss(bets, n);
      Ok(Outcome(Classify(net), net, n, NumberColor(n), BallPath(n, spins), Winners(bets, n), Losers(bets, n)))
  }

  /** `play`, statement by statement. */
  method Play(bets: seq<Bet>, seed: int) returns (r: Result<Outcome>)
    ensures r == Game(bets, seed)
  {
    if !ValidateInput(bets) {
      return Err(Rejected("Invalid bets"));
    }
    var random := new Lehmer(seed);
    var v := random.Next();
    var winningNumber := LehmerScale(v, 37);
    var winningColor := NumberColor(winningNumber);
    var ballAnimation := GenerateBallAnimation(winningNumber, random);
    var winningBets, losingBets, totalPayout, totalLoss := EvaluateBets(bets, winningNumber);
    var netResult := totalPayout - totalLoss;
    var result: GameResult;
    if netResult > 0 {
      result := Win;
    } else if netResult < 0 {
      result := Loss;
    } else {
      result := Push;
    }
    r := Ok(Outcome(result, netResult, winningNumber, winningColor, ballAnimation, winningBets, losingBets));
  }

  // ---------------------------------------------------------------------------
  // Properties of a round
  // ---------------------------------------------------------------------------

  /** `play` throws exactly when `validateInput` fails: no bets, a total
      outside 5-120, a non-positive amount, or a single without a number
      0-36. Dozen and column values are not checked. */
  lemma GameFails(bets: seq<Bet>, seed: int)
    ensures Game(bets, seed).Err? <==> !ValidateInput(bets)
    ensures Game(bets, seed).Err? ==> Game(bets, seed).failure == Rejected("Invalid bets")
  {
  }

  /** The wheel: a positive seed that is not a multiple of 2147483647 gives a
      winning number 0-36, 3 or 4 laps and a path ending on it; a multiple of
      2147483647 gives -1, which is black, and a path of one full lap; a
      seed of 0 or below gives a number in -38..-1, also black, and a path of
      at most one full lap and no partial one. */
  lemma GameSpin(bets: seq<Bet>, seed: int)
    requires ValidateInput(bets)
    ensures var o := Game(bets, seed).value;
      && (seed > 0 && seed % PM_MODULUS != 0 ==>
          && 0 <= o.winningNumber <= 36
          && exists spins :: (3 <= spins <= 4 && o.ballAnimation == BallPath(o.winningNumber, spins)
                             && |o.ballAnimation| == 37 * (spins - 1) + o.winningNumber + 1))
      && (seed > 0 && seed % PM_MODULUS != 0 ==>
          o.ballAnimation[|o.ballAnimation| - 1] == o.winningNumber)
      && (seed % PM_MODULUS == 0 ==>
          && o.winningNumber == -1 && o.winningColor == BlackColor
          && o.ballAnimation == FullLaps(1))
      && (seed <= 0 ==>
          && -38 <= o.winningNumber <= -1 && o.winningColor == BlackColor
          && (o.ballAnimation == [] || o.ballAnimation == FullLaps(1)))
  {
    var v := LehmerStep(seed);
    var n := LehmerScale(v, 37);
    var spins := 3 + LehmerScale(LehmerStep(v), 2);
    FirstStateLive(seed);
    if Live(v) {
      ScaleLive(v, 37);
      LiveStep(v);
      ScaleLive(LehmerStep(v), 2);
      BallPathShape(n, spins);
    }
    if seed % PM_MODULUS == 0 {
      MultipleSticksAtZero(seed, 1);
      MultipleSticksAtZero(seed, 2);
      assert v == 0 && LehmerStep(v) == 0;
      ScaleZero(37);
      ScaleZero(2);
      BallPathShape(-1, 2);
    }
    if seed <= 0 {
      ScaleDead(seed, 37);
      ScaleDead(v, 2);
      BallPathShape(n, spins);
      assert spins == 2 ==> FullLaps(spins - 1) == FullLaps(1);
    }
  }

  /** The settlement: the winning and losing bets split the input, the net is
      the payouts of the winners minus the stakes of the losers, its sign
      gives the result, and it lies between minus the total staked and 36
      times it. */
  lemma GameSettlement(bets: seq<Bet>, seed: int)
    requires ValidateInput(bets)
    ensures var o := Game(bets, seed).value;
      && multiset(o.winningBets) + multiset(o.losingBets) == multiset(bets)
      && (forall b :: b in o.winningBets ==> IsBetWinner(b, o.winningNumber))
      && (forall b :: b in o.losingBets ==> !IsBetWinner(b, o.winningNumber))
      && o.delta == TotalPayout(bets, o.winningNumber) - TotalLoss(bets, o.winningNumber)
      && -TotalBet(bets) <= o.delta <= 36 * TotalBet(bets)
      && (o.delta == -TotalBet(bets) <==> o.winningBets == [])
  {
    var n := LehmerScale(LehmerStep(seed), 37);
    SettleSides(bets, n);
    SettleNet(bets, n);
  }

  /** A lone winning even-money bet of a nets +2a (its stake is not taken
      back), a lone losing bet -a. */
  lemma LoneBet(bet: Bet, seed: int)
    requires ValidateInput([bet])
    ensures var o := Game([bet], seed).value;
      && (IsBetWinner(bet, o.winningNumber) ==> o.delta == bet.amount * PayoutMultiplier(bet.kind) && o.result == Win)
      && (!IsBetWinner(bet, o.winningNumber) ==> o.delta == -bet.amount && o.result == Loss)
  {
    var n := LehmerScale(LehmerStep(seed), 37);
    OneBet(bet, n);
    assert BetOk([bet][0]);
  }

  lemma OneBet(bet: Bet, n: int)
    ensures TotalPayout([bet], n) == if IsBetWinner(bet, n) then bet.amount * PayoutMultiplier(bet.kind) else 0
    ensures TotalLoss([bet], n) == if IsBetWinner(bet, n) then 0 else bet.amount
  {
    assert [bet][..0] == [];
  }
}
