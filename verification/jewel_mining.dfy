/** JewelMiningEngine.ts: four bombs are hidden in a 4x4 grid by draws of the
    Park–Miller generator; the player's clicks are then opened in order, each
    gem adding a fifth of the bet until the winnings reach the bet, and the
    first bomb losing the round. */
module JewelMining {
  import opened Shared
  import opened GameConfig
  import opened Random
  import opened FisherYates

  const GRID_SIZE: int := 16
  const BOMB_COUNT: int := 4

  /** A cell of `grid`; `Hidden` only while the grid is being built. */
  datatype Cell = Gem | Bomb | Hidden

  // ---------------------------------------------------------------------------
  // Sets drawn from sequences
  // ---------------------------------------------------------------------------

  /** `new Set(s)`. */
  function Elements(s: seq<int>): set<int> {
    set x | x in s
  }

  /** A sequence has as many distinct values as entries exactly when no entry
      repeats. */
  lemma {:induction false} ElementsCard(s: seq<int>)
    ensures |Elements(s)| <= |s|
    ensures |Elements(s)| == |s| <==> Distinct(s)
    decreases |s|
  {
    if s != [] {
      var t := s[1..];
      ElementsCard(t);
      assert Elements(s) == {s[0]} + Elements(t);
      if s[0] in t {
        assert Elements(s) == Elements(t);
        var k :| 0 <= k < |t| && t[k] == s[0];
        assert s[0] == s[k + 1];
      } else {
        assert s[0] !in Elements(t);
        if Distinct(t) {
          forall i, j | 0 <= i < j < |s| ensures s[i] != s[j] {
            if i > 0 {
              assert s[i] == t[i - 1] && s[j] == t[j - 1];
            } else {
              assert s[j] == t[j - 1];
            }
          }
        } else {
          var i, j :| 0 <= i < j < |t| && t[i] == t[j];
          assert s[i + 1] == s[j + 1];
        }
      }
    }
  }

  /** The cells 0 to n - 1. */
  function Cells(n: nat): (c: set<int>)
    ensures forall i :: i in c <==> 0 <= i < n
  {
    if n == 0 then {} else Cells(n - 1) + {n - 1}
  }

  lemma {:induction false} CellsCard(n: nat)
    ensures |Cells(n)| == n
  {
    if n > 0 {
      var c := Cells(n - 1);
      CellsCard(n - 1);
      assert n - 1 !in c;
      assert Cells(n) == c + {n - 1};
      assert |c + {n - 1}| == |c| + 1;
    }
  }

  // ---------------------------------------------------------------------------
  // Validation
  // ---------------------------------------------------------------------------

  /** `validateInput`: a bet from 10 to 100 minutes, every click a cell of
      the grid, and as many distinct clicks as clicks. */
  function ValidateInput(bet: int, clicked: seq<int>): (ok: bool)
    ensures ok <==> 10 <= bet <= 100 && Distinct(clicked)
                    && forall k :: 0 <= k < |clicked| ==> 0 <= clicked[k] < 16
  {
    ElementsCard(clicked);
    InBounds(JEWEL_MINING, bet)
    && (forall k :: 0 <= k < |clicked| ==> 0 <= clicked[k] < GRID_SIZE)
    && |Elements(clicked)| == |clicked|
  }

  // ---------------------------------------------------------------------------
  // Bombs (`generateBombPositions`)
  // ---------------------------------------------------------------------------

  /** The `while` loop from the positions found so far and the state v, with
      at most `fuel` further draws: a drawn cell is kept unless it is already
      a bomb. */
  function Bombs(positions: seq<int>, v: int, fuel: nat): (r: Result<(seq<int>, int)>)
    ensures r.Err? ==> r.failure == NoTermination
    decreases fuel
  {
    if |positions| >= BOMB_COUNT then Ok((positions, v))
    else if fuel == 0 then Err(NoTermination)
    else
      var w := LehmerStep(v);
      var pos := LehmerScale(w, GRID_SIZE);
      Bombs(if pos in positions then positions else positions + [pos], w, fuel - 1)
  }

  /** Cells of the grid, without repeats. */
  predicate Placed(positions: seq<int>) {
    Distinct(positions) && forall k :: 0 <= k < |positions| ==> 0 <= positions[k] < GRID_SIZE
  }

  /** When the next state is live the loop, if it ends, has added cells of
      the grid without repeats until there are four. */
  lemma {:induction false} BombsLive(positions: seq<int>, v: int, fuel: nat)
    requires Live(LehmerStep(v)) && Placed(positions) && |positions| <= BOMB_COUNT
    ensures var r := Bombs(positions, v, fuel);
      r.Ok? ==> |r.value.0| == BOMB_COUNT && Placed(r.value.0) && positions <= r.value.0
    decreases fuel
  {
    if |positions| < BOMB_COUNT && fuel > 0 {
      var w := LehmerStep(v);
      var pos := LehmerScale(w, GRID_SIZE);
      LiveStep(w);
      ScaleLive(w, GRID_SIZE);
      if pos in positions {
        BombsLive(positions, w, fuel - 1);
      } else {
        var next := positions + [pos];
        assert Placed(next) by {
          forall i, j | 0 <= i < j < |next| ensures next[i] != next[j] {
            if j == |positions| {
              assert next[i] == positions[i];
            }
          }
        }
        BombsLive(next, w, fuel - 1);
      }
    }
  }

  /** From a state that is not positive every draw is negative, so every
      position found is outside the grid. */
  lemma {:induction false} BombsNonPositive(positions: seq<int>, v: int, fuel: nat)
    requires v <= 0 && forall k :: 0 <= k < |positions| ==> positions[k] < 0
    ensures var r := Bombs(positions, v, fuel);
      r.Ok? ==> forall k :: 0 <= k < |r.value.0| ==> r.value.0[k] < 0
    decreases fuel
  {
    if |positions| < BOMB_COUNT && fuel > 0 {
      var w := LehmerStep(v);
      NonPositiveStep(v);
      ScaleNonPositive(w, GRID_SIZE);
      var pos := LehmerScale(w, GRID_SIZE);
      BombsNonPositive(if pos in positions then positions else positions + [pos], w, fuel - 1);
    }
  }

  /** A multiple of the modulus steps to 0, whose draw places a bomb at -1;
      every later draw is -1 again, so the loop never finds a second bomb. */
  lemma {:induction false} BombsStuck(positions: seq<int>, v: int, fuel: nat)
    requires v % PM_MODULUS == 0
    requires positions == [] || positions == [-1]
    ensures Bombs(positions, v, fuel) == Err(NoTermination)
    decreases fuel
  {
    if fuel > 0 {
      MultipleSticksAtZero(v, 1);
      assert LehmerStep(v) == 0;
      ScaleZero(GRID_SIZE);
      assert (if -1 in positions then positions else positions + [-1]) == [-1];
      BombsStuck([-1], 0, fuel - 1);
    }
  }

  /** `generateBombPositions(random)`, with the loop cut off after `fuel` draws. */
  method GenerateBombPositions(random: Lehmer, fuel: nat) returns (r: Result<seq<int>>)
    modifies random
    ensures var b := Bombs([], old(random.value), fuel);
      && (r.Ok? <==> b.Ok?)
      && (b.Ok? ==> r.value == b.value.0 && random.value == b.value.1)
      && (b.Err? ==> r == Err(b.failure))
  {
    ghost var b := Bombs([], random.value, fuel);
    var positions: seq<int> := [];
    var left := fuel;
    while |positions| < BOMB_COUNT
      invariant Bombs(positions, random.value, left) == b
      decreases left
    {
      if left == 0 {
        return Err(NoTermination);
      }
      var v := random.Next();
      var pos := LehmerScale(v, GRID_SIZE);
      if pos !in positions {
        positions := positions + [pos];
      }
      left := left - 1;
    }
    r := Ok(positions);
  }

  // ---------------------------------------------------------------------------
  // The grid
  // ---------------------------------------------------------------------------

  /** The grid once built: a bomb at every position drawn that is a cell, a
      gem everywhere else. A position outside the grid marks no cell. */
  function GridOf(bombs: seq<int>): (grid: seq<Cell>)
    ensures |grid| == GRID_SIZE
  {
    seq(GRID_SIZE, i requires 0 <= i < GRID_SIZE => if i in bombs then Bomb else Gem)
  }

  /** Four bombs at distinct cells leave exactly four bomb cells, the drawn
      ones, and twelve gem cells, and nothing hidden. */
  lemma GridCounts(bombs: seq<int>)
    requires |bombs| == BOMB_COUNT && Placed(bombs)
    ensures var grid := GridOf(bombs);
      && (forall i :: 0 <= i < GRID_SIZE ==> (grid[i] == Bomb <==> i in bombs) && grid[i] != Hidden)
      && |set i | 0 <= i < GRID_SIZE && grid[i] == Bomb| == 4
      && |set i | 0 <= i < GRID_SIZE && grid[i] == Gem| == 12
  {
    BombCellsAreDrawn(bombs);
    ElementsCard(bombs);
    CellsSplit(GridOf(bombs));
  }

  /** The bomb cells of the grid are the drawn positions. */
  lemma BombCellsAreDrawn(bombs: seq<int>)
    requires Placed(bombs)
    ensures (set i | 0 <= i < GRID_SIZE && GridOf(bombs)[i] == Bomb) == Elements(bombs)
  {
    var grid := GridOf(bombs);
    forall x | x in Elements(bombs) ensures 0 <= x < GRID_SIZE && grid[x] == Bomb {
      var k :| 0 <= k < |bombs| && bombs[k] == x;
    }
  }

  /** A built grid splits its cells between bombs and gems. */
  lemma CellsSplit(grid: seq<Cell>)
    requires |grid| == GRID_SIZE && forall i :: 0 <= i < GRID_SIZE ==> grid[i] != Hidden
    ensures |set i | 0 <= i < GRID_SIZE && grid[i] == Bomb| + |set i | 0 <= i < GRID_SIZE && grid[i] == Gem| == GRID_SIZE
  {
    var bombCells := set i | 0 <= i < GRID_SIZE && grid[i] == Bomb;
    var gemCells := set i | 0 <= i < GRID_SIZE && grid[i] == Gem;
    assert gemCells + bombCells == Cells(GRID_SIZE);
    assert gemCells !! bombCells;
    CellsCard(GRID_SIZE);
  }

  /** Lines 43-47: a grid of hidden cells, a bomb written at each drawn
      position, then every cell still hidden turned into a gem. */
  method BuildGrid(bombs: seq<int>) returns (grid: array<Cell>)
    ensures fresh(grid) && grid.Length == GRID_SIZE
    ensures grid[..] == GridOf(bombs)
  {
    grid := new Cell[GRID_SIZE](_ => Hidden);
    for j := 0 to |bombs|
      invariant forall i :: 0 <= i < GRID_SIZE ==> grid[i] == if i in bombs[..j] then Bomb else Hidden
    {
      var pos := bombs[j];
      assert bombs[..j + 1] == bombs[..j] + [pos];
      if 0 <= pos < GRID_SIZE {
        grid[pos] := Bomb;
      }
    }
    assert bombs[..|bombs|] == bombs;
    for i := 0 to GRID_SIZE
      invariant forall k :: 0 <= k < i ==> grid[k] == GridOf(bombs)[k]
      invariant forall k :: i <= k < GRID_SIZE ==> grid[k] == if k in bombs then Bomb else Hidden
    {
      if grid[i] == Hidden {
        grid[i] := Gem;
      }
    }
  }

  // ---------------------------------------------------------------------------
  // The clicks
  // ---------------------------------------------------------------------------

  /** `Math.floor(input.bet * 0.2)`: what each gem adds. */
  function GemValue(bet: int): int {
    (bet as real * 0.2).Floor
  }

  /** A fifth of the bet, rounded down. */
  lemma GemValueFifth(bet: int)
    ensures GemValue(bet) == bet / 5
  {
    var q := bet / 5;
    assert bet as real * 0.2 == q as real + (bet % 5) as real / 5.0;
  }

  /** `grid[position] === 'bomb'`; a position off the grid reads `undefined`. */
  predicate IsBomb(grid: seq<Cell>, position: int) {
    0 <= position < |grid| && grid[position] == Bomb
  }

  /** The state the `for` loop leaves. */
  datatype Dug = Dug(winnings: int, hitBomb: bool, bombPosition: Option<int>)

  /** The `for` loop over the clicks still to open, with `acc` won so far. */
  function Dig(grid: seq<Cell>, bet: int, clicked: seq<int>, acc: int): (d: Dug)
    ensures d.hitBomb <==> d.bombPosition.Some?
    ensures d.hitBomb ==> d.bombPosition.get in clicked && IsBomb(grid, d.bombPosition.get)
    ensures acc <= bet ==> d.winnings <= bet
    decreases |clicked|
  {
    if clicked == [] then Dug(acc, false, None)
    else if IsBomb(grid, clicked[0]) then Dug(acc, true, Some(clicked[0]))
    else
      var a := acc + GemValue(bet);
      if a >= bet then Dug(bet, false, None)
      else Dig(grid, bet, clicked[1..], a)
  }

  /** How many clicks open a gem before the first bomb. */
  function LeadingGems(grid: seq<Cell>, clicked: seq<int>): (n: nat)
    ensures n <= |clicked|
    ensures forall k :: 0 <= k < n ==> !IsBomb(grid, clicked[k])
    ensures n < |clicked| ==> IsBomb(grid, clicked[n])
    decreases |clicked|
  {
    if clicked == [] || IsBomb(grid, clicked[0]) then 0
    else 1 + LeadingGems(grid, clicked[1..])
  }

  /** How many gems reach the cap: the least m with m gems worth at least the bet. */
  function GemsToCap(bet: int): (m: nat)
    requires bet >= 5
    ensures m * GemValue(bet) >= bet && (m - 1) * GemValue(bet) < bet
  {
    var g := GemValue(bet);
    GemValueFifth(bet);
    var m := (bet + g - 1) / g;
    assert m * g >= bet by {
      assert (bet + g - 1) == m * g + (bet + g - 1) % g;
    }
    assert (m - 1) * g < bet by {
      assert (bet + g - 1) == m * g + (bet + g - 1) % g;
    }
    m
  }

  /** The closed form of the loop after m gems: it stops at the cap once the
      gems before the first bomb reach it, otherwise at the first bomb, and
      otherwise runs out of clicks. */
  function DigReference(grid: seq<Cell>, bet: int, clicked: seq<int>, m: nat): Dug
    requires bet >= 5
  {
    var n := LeadingGems(grid, clicked);
    if m + n >= GemsToCap(bet) then Dug(bet, false, None)
    else if n < |clicked| then Dug((m + n) * GemValue(bet), true, Some(clicked[n]))
    else Dug((m + n) * GemValue(bet), false, None)
  }

  /** The loop agrees with its closed form from any count of gems below the cap. */
  lemma {:induction false} DigClosedForm(grid: seq<Cell>, bet: int, clicked: seq<int>, m: nat)
    requires bet >= 5 && m < GemsToCap(bet)
    ensures Dig(grid, bet, clicked, m * GemValue(bet)) == DigReference(grid, bet, clicked, m)
    decreases |clicked|
  {
    var g := GemValue(bet);
    var cap := GemsToCap(bet);
    var n := LeadingGems(grid, clicked);
    if clicked == [] || IsBomb(grid, clicked[0]) {
      assert n == 0 && (m + n) * g == m * g;
    } else {
      assert m * g + g == (m + 1) * g;
      var rest := clicked[1..];
      assert n == 1 + LeadingGems(grid, rest);
      if (m + 1) * g >= bet {
        if m + 1 < cap {
          MulBelow(m + 1, cap - 1, g);
        }
      } else {
        if cap <= m + 1 {
          MulBelow(cap, m + 1, g);
        }
        DigClosedForm(grid, bet, rest, m + 1);
        assert (m + 1) + LeadingGems(grid, rest) == m + n;
        assert LeadingGems(grid, rest) < |rest| ==> rest[LeadingGems(grid, rest)] == clicked[n];
      }
    }
  }

  /** `for (const position of input.clickedPositions)`, with its two `break`s. */
  method ProcessClicks(grid: array<Cell>, bet: int, clicked: seq<int>) returns (d: Dug)
    ensures d == Dig(grid[..], bet, clicked, 0)
  {
    var accumulatedWinnings := 0;
    var hitBomb := false;
    var bombPosition: Option<int> := None;
    var i := 0;
    while i < |clicked|
      invariant 0 <= i <= |clicked| && !hitBomb && bombPosition == None
      invariant Dig(grid[..], bet, clicked[i..], accumulatedWinnings) == Dig(grid[..], bet, clicked, 0)
    {
      var position := clicked[i];
      if 0 <= position < grid.Length && grid[position] == Bomb {
        hitBomb := true;
        bombPosition := Some(position);
        break;
      } else {
        var gemValue := (bet as real * 0.2).Floor;
        accumulatedWinnings := accumulatedWinnings + gemValue;
        if accumulatedWinnings >= bet {
          accumulatedWinnings := bet;
          break;
        }
      }
      assert clicked[i..][1..] == clicked[i + 1..];
      i := i + 1;
    }
    d := Dug(accumulatedWinnings, hitBomb, bombPosition);
  }

  // ---------------------------------------------------------------------------
  // The round
  // ---------------------------------------------------------------------------

  /** `finalState`. */
  datatype FinalState = Continue | Won | Lost

  /** `GameOutcome` with `JewelMiningDisplay`. */
  datatype Outcome = Outcome(
    result: GameResult,
    delta: int,
    grid: seq<Cell>,
    revealed: seq<int>,
    finalState: FinalState,
    accumulatedWinnings: int,
    bombPosition: Option<int>)

  /** Lines 72-98: a bomb loses the bet and clears the winnings, any winnings
      are won, and otherwise the bet is kept. */
  function Settle(bet: int, grid: seq<Cell>, clicked: seq<int>, d: Dug): Outcome {
    var winnings := if d.hitBomb then 0 else d.winnings;
    var result := if d.hitBomb then Loss else if winnings > 0 then Win else Push;
    var delta := if d.hitBomb then -bet else if winnings > 0 then winnings else 0;
    var finalState := if d.hitBomb then Lost else if winnings >= bet then Won else Continue;
    Outcome(result, delta, grid, clicked, finalState, winnings, d.bombPosition)
  }

  /** `play(input, seed)`, with the bomb loop cut off after `fuel` draws. */
  function Game(bet: int, clicked: seq<int>, seed: int, fuel: nat): (r: Result<Outcome>)
    ensures r.Err? ==> r.failure == Rejected("Invalid input") || r.failure == NoTermination
    ensures r.Ok? ==> r.value.revealed == clicked
    ensures r.Ok? ==> (r.value.result == Loss <==> r.value.bombPosition.Some?)
    ensures r.Ok? && r.value.result == Loss ==> r.value.delta == -bet
  {
    if !ValidateInput(bet, clicked) then Err(Rejected("Invalid input"))
    else
      match Bombs([], seed, fuel)
      case Err(f) => Err(f)
      case Ok((bombs, _)) =>
        var grid := GridOf(bombs);
        Ok(Settle(bet, grid, clicked, Dig(grid, bet, clicked, 0)))
  }

  /** `play`, statement by statement. */
  method Play(bet: int, clicked: seq<int>, seed: int, fuel: nat) returns (r: Result<Outcome>)
    ensures r == Game(bet, clicked, seed, fuel)
  {
    if !ValidateInput(bet, clicked) {
      return Err(Rejected("Invalid input"));
    }
    var random := new Lehmer(seed);
    var bombPositions := GenerateBombPositions(random, fuel);
    if bombPositions.Err? {
      return Err(bombPositions.failure);
    }
    var grid := BuildGrid(bombPositions.value);
    var d := ProcessClicks(grid, bet, clicked);
    var o := SettleRound(bet, grid[..], clicked, d);
    r := Ok(o);
  }

  /** Lines 72-98 as written. */
  method SettleRound(bet: int, grid: seq<Cell>, clicked: seq<int>, d: Dug) returns (o: Outcome)
    ensures o == Settle(bet, grid, clicked, d)
  {
    var accumulatedWinnings := d.winnings;
    var result: GameResult;
    var screenTimeDelta: int;
    if d.hitBomb {
      result := Loss;
      screenTimeDelta := -bet;
      accumulatedWinnings := 0;
    } else if accumulatedWinnings > 0 {
      result := Win;
      screenTimeDelta := accumulatedWinnings;
    } else {
      result := Push;
      screenTimeDelta := 0;
    }
    var finalState := if d.hitBomb then Lost else if accumulatedWinnings >= bet then Won else Continue;
    o := Outcome(result, screenTimeDelta, grid, clicked, finalState, accumulatedWinnings, d.bombPosition);
  }

  // ---------------------------------------------------------------------------
  // Properties of a round
  // ---------------------------------------------------------------------------

  /** `play` throws "Invalid input" exactly for an invalid input, before any
      draw; a valid input with a seed that is a multiple of the modulus never
      finishes placing the bombs. */
  lemma GameFails(bet: int, clicked: seq<int>, seed: int, fuel: nat)
    ensures var r := Game(bet, clicked, seed, fuel);
      && (r == Err(Rejected("Invalid input")) <==>
            !(10 <= bet <= 100 && Distinct(clicked) && forall k :: 0 <= k < |clicked| ==> 0 <= clicked[k] < 16))
      && (r.Err? ==> r == Err(Rejected("Invalid input")) || r == Err(NoTermination))
      && (seed % PM_MODULUS == 0 && ValidateInput(bet, clicked) ==> r == Err(NoTermination))
  {
    if seed % PM_MODULUS == 0 {
      BombsStuck([], seed, fuel);
    }
  }

  /** For a positive seed that is not a multiple of the modulus the grid
      holds four bombs and twelve gems, and depends on the seed alone. */
  lemma GameGrid(bet: int, clicked: seq<int>, bet': int, clicked': seq<int>, seed: int, fuel: nat)
    requires seed > 0 && seed % PM_MODULUS != 0
    requires Game(bet, clicked, seed, fuel).Ok?
    ensures var o := Game(bet, clicked, seed, fuel).value;
      && |o.grid| == 16
      && |set i | 0 <= i < 16 && o.grid[i] == Bomb| == 4
      && |set i | 0 <= i < 16 && o.grid[i] == Gem| == 12
      && (Game(bet', clicked', seed, fuel).Ok? ==> Game(bet', clicked', seed, fuel).value.grid == o.grid)
  {
    FirstStateLive(seed);
    BombsLive([], seed, fuel);
    GridCounts(Bombs([], seed, fuel).value.0);
  }

  /** A seed that is not positive draws only positions outside the grid: no
      cell holds a bomb, and no round is lost. */
  lemma GameNoBombs(bet: int, clicked: seq<int>, seed: int, fuel: nat)
    requires seed <= 0
    requires Game(bet, clicked, seed, fuel).Ok?
    ensures var o := Game(bet, clicked, seed, fuel).value;
      (forall i :: 0 <= i < 16 ==> o.grid[i] == Gem) && o.result != Loss
  {
    BombsNonPositive([], seed, fuel);
    var bombs := Bombs([], seed, fuel).value.0;
    var grid := GridOf(bombs);
    forall i | 0 <= i < GRID_SIZE ensures grid[i] == Gem {
      assert i !in bombs;
    }
    NoBombNoLoss(grid, bet, clicked, 0);
  }

  lemma {:induction false} NoBombNoLoss(grid: seq<Cell>, bet: int, clicked: seq<int>, acc: int)
    requires forall i :: 0 <= i < |grid| ==> grid[i] != Bomb
    ensures !Dig(grid, bet, clicked, acc).hitBomb
    decreases |clicked|
  {
    if clicked != [] && acc + GemValue(bet) < bet {
      NoBombNoLoss(grid, bet, clicked[1..], acc + GemValue(bet));
    }
  }

  /** The round in closed form. With n the clicks that open a gem before the
      first bomb and cap the gems that reach the bet: n >= cap wins the bet
      and ends 'won'; otherwise a bomb among the clicks loses the bet, clears
      the winnings and names the bomb's cell; otherwise n gems win n fifths of
      the bet, and no click at all is a push. */
  lemma RoundSettlement(bet: int, grid: seq<Cell>, clicked: seq<int>)
    requires bet >= 5
    ensures var o := Settle(bet, grid, clicked, Dig(grid, bet, clicked, 0));
      var n := LeadingGems(grid, clicked);
      var cap := GemsToCap(bet);
      && o.revealed == clicked && o.grid == grid
      && -bet <= o.delta <= bet && 0 <= o.accumulatedWinnings <= bet
      && (n >= cap ==>
            o.result == Win && o.delta == bet && o.accumulatedWinnings == bet
            && o.finalState == Won && o.bombPosition == None)
      && (n < cap && n < |clicked| ==>
            o.result == Loss && o.delta == -bet && o.accumulatedWinnings == 0
            && o.finalState == Lost && o.bombPosition == Some(clicked[n])
            && IsBomb(grid, clicked[n]))
      && (n < cap && n == |clicked| ==>
            o.delta == o.accumulatedWinnings == n * (bet / 5) < bet
            && o.finalState == Continue && o.bombPosition == None
            && (o.result == Push <==> clicked == []))
  {
    var g := GemValue(bet);
    GemValueFifth(bet);
    assert 0 * g == 0;
    DigClosedForm(grid, bet, clicked, 0);
    var d := Dig(grid, bet, clicked, 0);
    var n := LeadingGems(grid, clicked);
    var cap := GemsToCap(bet);
    if n >= cap {
      assert d == Dug(bet, false, None);
    } else {
      assert (0 + n) * g == n * g;
      MulBelow(n, cap - 1, g);
      if n > 0 {
        MulBelow(1, n, g);
      }
      if n < |clicked| {
        assert d == Dug(n * g, true, Some(clicked[n]));
      } else {
        assert d == Dug(n * g, false, None);
      }
    }
  }

  /** m <= k gives m * g <= k * g for g >= 0. */
  lemma MulBelow(m: int, k: int, g: int)
    requires m <= k && g >= 0
    ensures m * g <= k * g
  {
    assert k * g - m * g == (k - m) * g;
  }

  /** A round that ends has a valid input, reveals the clicks as given and
      settles as its closed form says, on the grid the seed built. */
  lemma GameSettlement(bet: int, clicked: seq<int>, seed: int, fuel: nat)
    requires Game(bet, clicked, seed, fuel).Ok?
    ensures var o := Game(bet, clicked, seed, fuel).value;
      && 10 <= bet <= 100 && o.revealed == clicked
      && -bet <= o.delta <= bet && 0 <= o.accumulatedWinnings <= bet
      && var n := LeadingGems(o.grid, clicked);
      && (n >= GemsToCap(bet) ==> o.result == Win && o.delta == bet && o.finalState == Won)
      && (n < GemsToCap(bet) && n < |clicked| ==>
            o.result == Loss && o.delta == -bet && o.finalState == Lost && o.bombPosition == Some(clicked[n])
            && o.grid[clicked[n]] == Bomb)
      && (n < GemsToCap(bet) && n == |clicked| ==>
            o.delta == n * (bet / 5) && o.finalState == Continue && (o.result == Push <==> clicked == []))
  {
    var bombs := Bombs([], seed, fuel).value.0;
    RoundSettlement(bet, GridOf(bombs), clicked);
  }
}
