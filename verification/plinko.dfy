/** PlinkoEngine.ts: a chip falls through twelve rows of pegs and goes left or
    right at each row by one draw of the linear congruential generator; the
    sum of its moves, clamped to the board, picks one of eleven multiplier
    slots. */
module Plinko {
  import opened Shared
  import opened GameConfig
  import opened Random

  /** `pegs`: rows of pegs, one move each. */
  const PEGS: nat := 12

  /** `multipliers`, slot by slot. */
  const MULTIPLIERS: seq<real> := [0.1, 0.3, 0.5, 1.0, 1.5, 2.0, 1.5, 1.0, 0.5, 0.3, 0.1]

  /** `Math.floor(multipliers.length / 2)`: where the chip starts. */
  const CENTER_SLOT: int := |MULTIPLIERS| / 2

  /** The slots run from 0 to 10, symmetric about the centre, with
      multipliers between 0.1 and 2; the centre pays 2, its neighbours 1.5. */
  lemma MultiplierTable()
    ensures |MULTIPLIERS| == 11 && CENTER_SLOT == 5
    ensures forall k :: 0 <= k < |MULTIPLIERS| ==> 0.1 <= MULTIPLIERS[k] <= 2.0
    ensures forall k :: 0 <= k < |MULTIPLIERS| ==> MULTIPLIERS[k] == MULTIPLIERS[10 - k]
    ensures MULTIPLIERS[5] == 2.0 && MULTIPLIERS[4] == MULTIPLIERS[6] == 1.5
  {
  }

  /** `validateInput`: a bet from 10 to 80 minutes. */
  function ValidateInput(bet: int): (ok: bool)
    ensures ok <==> 10 <= bet <= 80
  {
    InBounds(PLINKO, bet)
  }

  // ---------------------------------------------------------------------------
  // The path (`generateChipPath`)
  // ---------------------------------------------------------------------------

  /** `random.next() < 0.5 ? 0 : 1` once `next()` has moved the state to s. */
  function Direction(s: int): (d: int)
    ensures d == 0 || d == 1
    ensures d == 0 <==> (s as real) / (LCG_MODULUS as real) < 0.5
  {
    if 2 * s < LCG_MODULUS then 0 else 1
  }

  /** The first n moves drawn from seed: move k uses the (k+1)-th state. */
  function ChipPath(seed: int, n: nat): (path: seq<int>)
    ensures |path| == n
    ensures forall k :: 0 <= k < n ==> path[k] == Direction(LcgAfter(seed, k + 1))
    decreases n
  {
    if n == 0 then [] else ChipPath(seed, n - 1) + [Direction(LcgAfter(seed, n))]
  }

  /** Every move is left (0) or right (1). */
  predicate Moves(path: seq<int>) {
    forall k :: 0 <= k < |path| ==> path[k] == 0 || path[k] == 1
  }

  /** `generateChipPath(random)`. */
  method GenerateChipPath(random: Lcg) returns (path: seq<int>)
    modifies random
    ensures path == ChipPath(old(random.seed), PEGS)
    ensures random.seed == LcgAfter(old(random.seed), PEGS)
  {
    ghost var seed := random.seed;
    path := [];
    for row := 0 to PEGS
      invariant path == ChipPath(seed, row)
      invariant random.seed == LcgAfter(seed, row)
    {
      var r := random.Next();
      path := path + [if (r as real) / (LCG_MODULUS as real) < 0.5 then 0 else 1];
    }
  }

  // ---------------------------------------------------------------------------
  // The final slot (`calculateFinalSlot`)
  // ---------------------------------------------------------------------------

  /** `direction === 0 ? -1 : 1`. */
  function Step(direction: int): (r: int)
    ensures r == -1 || r == 1
  {
    if direction == 0 then -1 else 1
  }

  /** The chip's offset from the centre after the moves of path. */
  function Offset(path: seq<int>): int
    decreases |path|
  {
    if path == [] then 0 else Offset(path[..|path| - 1]) + Step(path[|path| - 1])
  }

  /** `calculateFinalSlot(path)`: the centre plus the offset, clamped to the
      slots. */
  function FinalSlot(path: seq<int>): (slot: int)
    ensures 0 <= slot < |MULTIPLIERS|
  {
    Clamp(CENTER_SLOT + Offset(path), 0, |MULTIPLIERS| - 1)
  }

  method CalculateFinalSlot(path: seq<int>) returns (slot: int)
    ensures slot == FinalSlot(path)
  {
    var position := 0;
    for i := 0 to |path|
      invariant position == Offset(path[..i])
    {
      assert path[..i + 1][..i] == path[..i];
      position := position + (if path[i] == 0 then -1 else 1);
    }
    assert path[..|path|] == path;
    var centerSlot := |MULTIPLIERS| / 2;
    var s := centerSlot + position;
    var below := if |MULTIPLIERS| - 1 < s then |MULTIPLIERS| - 1 else s;
    slot := if 0 > below then 0 else below;
  }

  /** n moves of one unit each leave an offset of at most n, with the parity
      of n. */
  lemma {:induction false} OffsetParity(path: seq<int>)
    ensures -|path| <= Offset(path) <= |path|
    ensures (Offset(path) + |path|) % 2 == 0
    decreases |path|
  {
    if path != [] {
      OffsetParity(path[..|path| - 1]);
    }
  }

  /** The slots a twelve-row drop can end in. */
  predicate Reachable(slot: int) {
    slot == 0 || slot == 1 || slot == 3 || slot == 5 || slot == 7 || slot == 9 || slot == 10
  }

  /** Twelve moves give an even offset, so the chip never lands in slots 2,
      4, 6 or 8 (both 1.5 slots and both 0.5 slots among them). */
  lemma SlotParity(path: seq<int>)
    requires |path| == PEGS
    ensures Reachable(FinalSlot(path))
    ensures FinalSlot(path) != 2 && FinalSlot(path) != 4 && FinalSlot(path) != 6 && FinalSlot(path) != 8
  {
    OffsetParity(path);
  }

  /** n copies of one move. */
  function Repeat(direction: int, n: nat): (path: seq<int>)
    ensures |path| == n && forall k :: 0 <= k < n ==> path[k] == direction
  {
    seq(n, _ => direction)
  }

  lemma {:induction false} OffsetAppend(a: seq<int>, b: seq<int>)
    ensures Offset(a + b) == Offset(a) + Offset(b)
    decreases |b|
  {
    if b != [] {
      var b' := b[..|b| - 1];
      assert (a + b)[..|a + b| - 1] == a + b';
      assert (a + b)[|a + b| - 1] == b[|b| - 1];
      OffsetAppend(a, b');
    } else {
      assert a + b == a;
    }
  }

  lemma {:induction false} OffsetRepeat(direction: int, n: nat)
    ensures Offset(Repeat(direction, n)) == n * Step(direction)
    decreases n
  {
    if n > 0 {
      assert Repeat(direction, n)[..n - 1] == Repeat(direction, n - 1);
      OffsetRepeat(direction, n - 1);
    }
  }

  /** A twelve-row path ending in slot: its lefts first, then its rights. */
  function Witness(slot: int): seq<int>
    requires Reachable(slot)
  {
    var rights := if slot == 0 then 0 else if slot == 10 then PEGS else (slot + 7) / 2;
    Repeat(0, PEGS - rights) + Repeat(1, rights)
  }

  /** Every slot other than 2, 4, 6 and 8 is the end of some path. */
  lemma SlotReachable(slot: int)
    requires Reachable(slot)
    ensures |Witness(slot)| == PEGS && Moves(Witness(slot))
    ensures FinalSlot(Witness(slot)) == slot
  {
    var rights := if slot == 0 then 0 else if slot == 10 then PEGS else (slot + 7) / 2;
    OffsetAppend(Repeat(0, PEGS - rights), Repeat(1, rights));
    OffsetRepeat(0, PEGS - rights);
    OffsetRepeat(1, rights);
  }

  // ---------------------------------------------------------------------------
  // The animation (`generateChipPositions`)
  // ---------------------------------------------------------------------------

  /** `{ row, position }`. */
  datatype ChipPosition = ChipPosition(row: int, position: int)

  /** Row k holds the offset after the first k moves; the offset is not
      clamped. */
  function ChipPositions(path: seq<int>): (ps: seq<ChipPosition>)
    ensures |ps| == |path| + 1
    ensures forall k :: 0 <= k <= |path| ==> ps[k] == ChipPosition(k, Offset(path[..k]))
    decreases |path|
  {
    if path == [] then [ChipPosition(0, 0)]
    else
      var prefix := path[..|path| - 1];
      assert forall k :: 0 <= k <= |prefix| ==> prefix[..k] == path[..k];
      assert path[..|path|] == path;
      ChipPositions(prefix) + [ChipPosition(|path|, Offset(path))]
  }

  /** The animation starts at the centre of row 0, moves one unit per row as
      the path says, and ends at the offset from which `FinalSlot` takes the
      slot, before clamping. */
  lemma ChipPositionsSteps(path: seq<int>)
    ensures ChipPositions(path)[0] == ChipPosition(0, 0)
    ensures forall k :: 0 <= k < |path| ==>
      ChipPositions(path)[k + 1].position == ChipPositions(path)[k].position + Step(path[k])
    ensures ChipPositions(path)[|path|].position == Offset(path)
  {
    ChipEnds(path);
    forall k | 0 <= k < |path|
      ensures ChipPositions(path)[k + 1].position == ChipPositions(path)[k].position + Step(path[k])
    {
      ChipStep(path, k);
    }
  }

  lemma ChipEnds(path: seq<int>)
    ensures ChipPositions(path)[0] == ChipPosition(0, 0)
    ensures ChipPositions(path)[|path|].position == Offset(path)
  {
    assert path[..0] == [];
    assert path[..|path|] == path;
  }

  lemma ChipStep(path: seq<int>, k: nat)
    requires k < |path|
    ensures ChipPositions(path)[k + 1].position == ChipPositions(path)[k].position + Step(path[k])
  {
    var ps := ChipPositions(path);
    var pre := path[..k + 1];
    assert ps[k + 1] == ChipPosition(k + 1, Offset(pre));
    assert ps[k] == ChipPosition(k, Offset(path[..k]));
    assert pre[..k] == path[..k] && pre[k] == path[k];
  }

  /** Twelve moves right take the animation to offset 12, off the board,
      while the slot is clamped to 10. */
  lemma AllRightLeavesBoard()
    ensures ChipPositions(Repeat(1, PEGS))[PEGS].position == 12
    ensures FinalSlot(Repeat(1, PEGS)) == 10
  {
    OffsetRepeat(1, PEGS);
    assert Repeat(1, PEGS)[..PEGS] == Repeat(1, PEGS);
  }

  method GenerateChipPositions(path: seq<int>) returns (positions: seq<ChipPosition>)
    ensures positions == ChipPositions(path)
  {
    var currentPosition := 0;
    positions := [ChipPosition(0, currentPosition)];
    for row := 0 to |path|
      invariant positions == ChipPositions(path[..row])
      invariant currentPosition == Offset(path[..row])
    {
      var direction := path[row];
      assert path[..row + 1][..row] == path[..row];
      currentPosition := currentPosition + (if direction == 0 then -1 else 1);
      positions := positions + [ChipPosition(row + 1, currentPosition)];
    }
    assert path[..|path|] == path;
  }

  // ---------------------------------------------------------------------------
  // The payout
  // ---------------------------------------------------------------------------

  /** The result and the delta for a bet and the slot's multiplier m: from
      1 up the gain `Math.round(bet * m - bet)`, a win when positive and a
      push otherwise; below 1 a loss of `Math.round(bet * (1 - m))`. */
  function Payout(bet: int, m: real): (r: (GameResult, int))
    ensures r.0 == Loss <==> m < 1.0
    ensures r.0 == Win <==> m >= 1.0 && r.1 > 0
    ensures r.0 == Push ==> r.1 <= 0
  {
    if m >= 1.0 then
      var delta := Round(bet as real * m - bet as real);
      (if delta > 0 then Win else Push, delta)
    else (Loss, -Round(bet as real * (1.0 - m)))
  }

  function Abs(x: int): nat {
    if x < 0 then -x else x
  }

  /** A multiplier in [0.1, 2] never moves more than the bet; a loss comes
      exactly from the multipliers below 1, and a win needs a positive gain. */
  lemma PayoutBounds(bet: int, m: real)
    requires 0.1 <= m <= 2.0
    ensures var (result, delta) := Payout(bet, m);
      && Abs(delta) <= Abs(bet)
      && (m >= 1.0 && bet >= 0 ==> delta >= 0)
      && (m < 1.0 && bet >= 0 ==> delta <= 0)
  {
    var b := bet as real;
    if m >= 1.0 {
      assert b * m - b == b * (m - 1.0);
      Fraction(bet, m - 1.0);
      assert Payout(bet, m).1 == Round(b * (m - 1.0));
    } else {
      Fraction(bet, 1.0 - m);
    }
  }

  /** A fraction f in [0, 1] of a whole bet, rounded, lies between 0 and the
      bet. */
  lemma Fraction(bet: int, f: real)
    requires 0.0 <= f <= 1.0
    ensures bet >= 0 ==> 0 <= Round(bet as real * f) <= bet
    ensures bet < 0 ==> bet <= Round(bet as real * f) <= 0
  {
    var b := bet as real;
    assert b - b * f == b * (1.0 - f);
    if bet >= 0 {
      assert b * f >= 0.0;
      assert b * (1.0 - f) >= 0.0;
    } else {
      assert b * f <= 0.0;
      assert b * (1.0 - f) <= 0.0;
    }
  }

  /** Per reachable slot: only the centre can win, paying the bet; slots 3
      and 7 push; the outer slots lose 90% and 70% of the bet, rounded. */
  lemma SlotPayouts(bet: int, slot: int)
    requires Reachable(slot)
    ensures var (result, delta) := Payout(bet, MULTIPLIERS[slot]);
      && (result == Win <==> slot == 5 && bet > 0)
      && (slot == 5 ==> delta == bet)
      && (slot == 3 || slot == 7 ==> result == Push && delta == 0)
      && (slot == 0 || slot == 10 ==> result == Loss && delta == -Round(bet as real * 0.9))
      && (slot == 1 || slot == 9 ==> result == Loss && delta == -Round(bet as real * 0.7))
  {
    var b := bet as real;
    if slot == 5 {
      assert b * 2.0 - b == bet as real;
    }
  }

  // ---------------------------------------------------------------------------
  // The round
  // ---------------------------------------------------------------------------

  /** `GameOutcome` with `PlinkoDisplay`. */
  datatype Outcome = Outcome(
    result: GameResult,
    delta: int,
    path: seq<int>,
    finalSlot: int,
    multiplier: real,
    chipPosition: seq<ChipPosition>)

  /** `play(input, seed)`; `validateInput` is not called, so every bet is
      played. */
  function Game(bet: int, seed: int): (o: Outcome)
    ensures |o.path| == PEGS && |o.chipPosition| == PEGS + 1
    ensures 0 <= o.finalSlot < |MULTIPLIERS| && o.multiplier == MULTIPLIERS[o.finalSlot]
    ensures o.result == Loss <==> o.multiplier < 1.0
  {
    var path := ChipPath(seed, PEGS);
    var slot := FinalSlot(path);
    var m := MULTIPLIERS[slot];
    var (result, delta) := Payout(bet, m);
    Outcome(result, delta, path, slot, m, ChipPositions(path))
  }

  /** The payout of `play`, statement by statement. */
  method Settle(betAmount: int, multiplier: real) returns (result: GameResult, screenTimeDelta: int)
    ensures (result, screenTimeDelta) == Payout(betAmount, multiplier)
  {
    var rawPayout := betAmount as real * multiplier;
    screenTimeDelta := 0;
    if multiplier >= 1.0 {
      screenTimeDelta := Round(rawPayout - betAmount as real);
      result := if screenTimeDelta > 0 then Win else Push;
    } else {
      screenTimeDelta := -Round(betAmount as real * (1.0 - multiplier));
      result := Loss;
    }
  }

  /** `play`, statement by statement. */
  method Play(bet: int, seed: int) returns (o: Outcome)
    ensures o == Game(bet, seed)
  {
    var random := new Lcg(seed);
    var path := GenerateChipPath(random);
    var finalSlot := CalculateFinalSlot(path);
    var multiplier := MULTIPLIERS[finalSlot];
    var result, screenTimeDelta := Settle(bet, multiplier);
    var chipPosition := GenerateChipPositions(path);
    o := Outcome(result, screenTimeDelta, path, finalSlot, multiplier, chipPosition);
  }

  /** A round's path is twelve moves, each left exactly when its draw is below
      0.5; the chip lands in a reachable slot and is paid that slot's
      multiplier; the animation has thirteen rows and ends at the unclamped
      offset. */
  lemma GameDrop(bet: int, seed: int)
    ensures var o := Game(bet, seed);
      && |o.path| == PEGS && Moves(o.path)
      && (forall k :: 0 <= k < PEGS ==>
            (o.path[k] == 0 <==> (LcgAfter(seed, k + 1) as real) / (LCG_MODULUS as real) < 0.5))
      && Reachable(o.finalSlot)
      && o.finalSlot == FinalSlot(o.path)
      && o.multiplier == MULTIPLIERS[o.finalSlot]
      && |o.chipPosition| == PEGS + 1
      && o.chipPosition[0] == ChipPosition(0, 0)
      && o.finalSlot == Clamp(CENTER_SLOT + o.chipPosition[PEGS].position, 0, |MULTIPLIERS| - 1)
  {
    var path := ChipPath(seed, PEGS);
    SlotParity(path);
    ChipPositionsSteps(path);
  }

  /** What a round pays: only the centre slot wins, and then the bet itself;
      no round moves more than the bet. */
  lemma GameSettlement(bet: int, seed: int)
    ensures var o := Game(bet, seed);
      && (o.result == Win <==> o.finalSlot == 5 && bet > 0)
      && (o.result == Loss <==> o.multiplier < 1.0)
      && (o.finalSlot == 5 ==> o.delta == bet)
      && Abs(o.delta) <= Abs(bet)
  {
    var path := ChipPath(seed, PEGS);
    var slot := FinalSlot(path);
    SlotParity(path);
    SlotPayouts(bet, slot);
    MultiplierTable();
    PayoutBounds(bet, MULTIPLIERS[slot]);
  }
}
