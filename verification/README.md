# Screen Time Casino: the game engines and the state slices

Screen Time Casino is a mobile app where the stake is minutes of screen time.
A player bets minutes on a casino game. A win adds minutes to the day's app
limits and a loss takes them away. This project models two parts of the app
in Dafny:

- **The game engines.** There are seven: Blackjack, Pai Gow, Roulette, Math
  Challenge, Plinko, Slots and Jewel Mining. Each takes a bet and a numeric
  seed and plays one round. It returns a result (`win`, `loss` or `push`) and
  a screen-time delta, together with what the screen shows. Four engines use
  the Park–Miller "minimal standard" generator: Blackjack, Roulette, Slots and
  Jewel Mining. Three use a small linear congruential generator (LCG): Pai
  Gow, Plinko and Math Challenge.
- **The Redux slices.** There are four:
  - the daily spin allowance (`dailyLimitsSlice`);
  - the game session and the day's statistics (`casinoSlice`);
  - the per-app limits and usage (`screenTimeSlice`);
  - the signed-in user, the game history and the preferences (`userSlice`).

## How the model is built

**Modules**

- One module per source file: `Blackjack`, `PaiGow`, `Roulette`, `MathChallenge`, `Plinko`, `Slots`, `JewelMining`, `DailyLimitsSlice`, `CasinoSlice`, `ScreenTimeSlice` and `UserSlice`.
- Four shared modules:
  - `Shared`: JavaScript's truncating `%`, `Math.round`, clamping, and the result and failure types;
  - `GameConfig`: the game table of `src/shared/constants/games.ts`;
  - `Random`: the two generators;
  - `FisherYates`: the swap sequence that all three shuffles perform, and its permutation lemma.

**Generators**

- Both generators are modelled on their exact integer state.
- A draw is the new state `v`:
  - Park–Miller: `r = (v - 1) / 2147483646`;
  - LCG: `r = s / 233280`.
- So `Math.floor(r * n)` becomes an integer division, and a comparison `r < p` becomes an exact comparison.
- The generators are classes (`Random.Lehmer`, `Random.Lcg`). Their `Next` methods update the state in place, as the closures and `SeededRandom` objects of the source do.

**Engines**

- Each engine has a reference function `Game(input, seed)` that defines the round.
- It also has a method `Play` that follows the source statement by statement, with `ensures r == Game(...)`.
- The shuffles, the drawing loops, the click loop and the counting loops are methods with loop invariants, proved against specification functions. The Jewel Mining grid is an `array`.
- Where the source throws, the model returns `Err`:
  - `Rejected` for the explicit `throw`;
  - `TypeError` where the source reads a property of `undefined`;
  - `NoTermination` where a loop never ends;
  - `NotModelled` where the source would go on with `undefined` entries and this model does not follow it.

**Slices**

- Each slice state is a value datatype whose member functions are the reducers.
- Each slice also has a class with the same fields, whose methods update them in place as the Immer drafts of the reducers do. Each method ensures `State() == old(State()).Reducer(...)`.
- The clock (`new Date()`, `Date.now()`) becomes a `today` or `now` parameter.

**Behaviour of the code as written**

The lemmas show these points:

- **Bad seeds**
  - A seed that is 0, negative, or a multiple of 2147483647 makes the Park–Miller draws negative or stuck at zero.
  - Blackjack then deals `undefined` and throws (`Blackjack.GameFails`), and so does Slots (`Slots.GameFails`).
  - Roulette's winning number is −1 for a multiple of 2147483647 (0 included), and some number from −38 to −1 for any other seed below 0. Either is shown as black (`Roulette.GameSpin`).
  - Jewel Mining places no bomb (`JewelMining.GameNoBombs`), or loops forever (`JewelMining.GameFails`).
- **Math Challenge, hard difficulty**
  - Two correct answers out of three give an accuracy of 0.666…, which is below 0.67. So a win needs all three (`MathChallenge.GradeTable`).
  - The answer 4 (2^2) leaves the options loop with only three distinct candidates, so the loop never ends (`MathChallenge.PickWrongStuck`, `MathChallenge.HardSeedHangs`).
- **Plinko:** the chip can never land on slots 2, 4, 6 or 8 (`Plinko.SlotParity`).
- **Daily allowance**
  - Upgrading twice adds seven spins twice (`DailyLimitsSlice.UpgradeNotIdempotent`).
  - A new day during `useSpins` always resets to the free allowance (`DailyLimitsSlice.UseSpinsNewDay`).

## Model

| member | source | states |
|---|---|---|
| Shared.JsRem | src/domain/casino/blackjack/BlackjackEngine.ts:111 | JavaScript's `%`: the remainder takes the sign of the dividend and is smaller than the divisor in magnitude |
| Shared.Round | src/domain/casino/pai-gow/PaiGowEngine.ts:106 | `Math.round`: the nearest integer, halves rounded up |
| Shared.Clamp | src/domain/casino/plinko/PlinkoEngine.ts:119 | `Math.max(lo, Math.min(hi, x))`: x inside the range, else the nearer bound |
| Random.FirstStateLive | src/domain/casino/blackjack/BlackjackEngine.ts:108-114 | the first Park–Miller state is in (0, 2147483647) exactly when the seed is positive and not a multiple of the modulus |
| Random.LiveStep | src/domain/casino/blackjack/BlackjackEngine.ts:111 | a state in (0, 2147483647) stays there, because 16807 is invertible modulo the prime |
| Random.LiveAfter | src/domain/casino/roulette/RouletteEngine.ts:99-105 | a live state stays live after any number of draws |
| Random.StepInvertible | src/domain/casino/slots/SlotsEngine.ts:99 | one step of a live state can be undone with the inverse 1407677000 of the multiplier |
| Random.NonPositiveStep | src/domain/casino/jewel-mining/JewelMiningEngine.ts:111 | a non-positive state stays non-positive (truncating `%`) |
| Random.MultipleSticksAtZero | src/domain/casino/jewel-mining/JewelMiningEngine.ts:108-114 | a seed that is a multiple of the modulus gives state 0 at every later draw |
| Random.ScaleLive | src/domain/casino/roulette/RouletteEngine.ts:50 | a live state scales into [0, n) |
| Random.ScaleZero | src/domain/casino/jewel-mining/JewelMiningEngine.ts:119 | state 0 scales to −1 |
| Random.ScaleNonPositive | src/domain/casino/slots/SlotsEngine.ts:47 | a non-positive state scales below 0 |
| Random.ScaleDead | src/domain/casino/roulette/RouletteEngine.ts:50-51 | a step from a non-positive state lands in (−2147483647, 0], and its draw scaled by n floors to an index in [−n − 1, −1] |
| Random.ScaleBelow | src/domain/casino/blackjack/BlackjackEngine.ts:136 | a draw never scales to n or more; a draw from a dead state scales below 0 |
| Random.Lehmer.constructor | src/domain/casino/blackjack/BlackjackEngine.ts:109 | the generator starts at the seed |
| Random.Lehmer.Next | src/domain/casino/blackjack/BlackjackEngine.ts:110-113 | one call advances the state by one Park–Miller step and returns the new state |
| Random.LcgLiveAfter | src/domain/casino/plinko/PlinkoEngine.ts:17-20 | from a non-negative seed every later LCG state is in [0, 233280) |
| Random.LcgIntRange | src/domain/casino/math-challenge/MathChallengeEngine.ts:48-50 | `nextInt(lo, hi)` from a live state lies in [lo, hi] |
| Random.LcgScaleBelow | src/domain/casino/pai-gow/PaiGowEngine.ts:48-51 | a draw scales into [0, n) when the new state is non-negative, below 0 otherwise; seeds from −5 up give a non-negative state |
| Random.Lcg.constructor | src/domain/casino/pai-gow/PaiGowEngine.ts:44-46 | the generator starts at the seed |
| Random.Lcg.Next | src/domain/casino/pai-gow/PaiGowEngine.ts:48-51 | one call advances the state by one LCG step and returns it |
| Random.Lcg.NextInt | src/domain/casino/math-challenge/MathChallengeEngine.ts:48-50 | one call advances the state and returns the scaled integer |
| FisherYates.Swap | src/domain/casino/blackjack/BlackjackEngine.ts:137 | the destructuring swap exchanges entries i and j and keeps every other entry |
| FisherYates.SwapPermutes | src/domain/casino/pai-gow/PaiGowEngine.ts:158 | a swap keeps the multiset of entries |
| FisherYates.SwapsPermutes | src/domain/casino/blackjack/BlackjackEngine.ts:135-138 | the whole swap sequence of a shuffle is a permutation |
| FisherYates.SwapsSnoc | src/domain/casino/pai-gow/PaiGowEngine.ts:156-159 | one more loop pass adds one swap at position top − passes done |
| FisherYates.DistinctMultiset | src/domain/casino/blackjack/BlackjackEngine.ts:116-125 | no repeats is the same as every multiplicity being at most 1 |
| FisherYates.DistinctSubmultiset | src/domain/casino/blackjack/BlackjackEngine.ts:45-46 | cards taken from a deck without repeats have no repeats |
| FisherYates.LcgSwapIndicesInRange | src/domain/casino/pai-gow/PaiGowEngine.ts:155-160 | the LCG shuffle's indices all lie in [0, i] exactly when the first state is non-negative, which every seed from −5 up gives |
| FisherYates.LcgShuffleStep | src/domain/casino/math-challenge/MathChallengeEngine.ts:259-262 | one pass of an LCG shuffle loop draws the next swap index, or shows that the sequence is out of range |
| FisherYates.LcgDrawnAll | src/domain/casino/math-challenge/MathChallengeEngine.ts:259-262 | at the end of an LCG shuffle loop every index has been used, and the state is `top` steps on |
| Blackjack.CardValue | src/domain/casino/blackjack/BlackjackEngine.ts:127-131 | an ace is worth 11, a ten or face card 10, every other card between 2 and 9 |
| Blackjack.NewDeckComplete | src/domain/casino/blackjack/BlackjackEngine.ts:116-125 | the new deck holds each of the 52 cards exactly once |
| Blackjack.CreateDeck | src/domain/casino/blackjack/BlackjackEngine.ts:116-125 | the nested suit and rank loops build the new deck |
| Blackjack.SwapIndicesInRange | src/domain/casino/blackjack/BlackjackEngine.ts:133-140 | every swap index lies in [0, i] exactly when the first state is live; otherwise the first one is negative |
| Blackjack.ShuffleStep | src/domain/casino/blackjack/BlackjackEngine.ts:135-138 | one pass draws an index at most i; a negative one means the shuffle is out of range |
| Blackjack.DrawnAll | src/domain/casino/blackjack/BlackjackEngine.ts:135-138 | when the loop ends it has drawn the whole index sequence of the seed |
| Blackjack.SwapLoop | src/domain/casino/blackjack/BlackjackEngine.ts:135-138 | the in-place loop performs the seed's swap sequence on the array, and stops at the first negative index |
| Blackjack.ShuffleDeck | src/domain/casino/blackjack/BlackjackEngine.ts:133-140 | a fresh 52-card array, shuffled exactly when the first state is live |
| Blackjack.SoftenBest | src/domain/casino/blackjack/BlackjackEngine.ts:155-159 | softening aces takes 10 off at a time, at most once per ace, and stops at the first total not over 21 |
| Blackjack.HandValueAtLeastSize | src/domain/casino/blackjack/BlackjackEngine.ts:142-162 | a hand is worth at least one point per card, so the drawing loops stop |
| Blackjack.HandValue | src/domain/casino/blackjack/BlackjackEngine.ts:142-162 | `calculateHandValue`: between the raw total with every ace counted 1 and the raw total with every ace 11; over 21 only with every ace counted 1; below the raw total only when one more ace as 11 would bust (SoftenBest, HandValueAtLeastSize) |
| Blackjack.CalculateHandValue | src/domain/casino/blackjack/BlackjackEngine.ts:142-162 | the two loops compute the hand value |
| Blackjack.Hits | src/domain/casino/blackjack/BlackjackEngine.ts:174-186 | the player hits on 11 or less, and on 12-16 against a dealer card of 7 or more; the stand-on-12 test never decides |
| Blackjack.ShouldHit | src/domain/casino/blackjack/BlackjackEngine.ts:174-186 | `shouldHit` on a hand is the strategy on its value |
| Blackjack.TopFirstPermutes | src/domain/casino/blackjack/BlackjackEngine.ts:167 | cards dealt by `pop` are the same cards as the pile |
| Blackjack.PlayerTurnFromTop | src/domain/casino/blackjack/BlackjackEngine.ts:164-172 | the player's new cards are the top of the deck in `pop` order; the rest of the deck is untouched |
| Blackjack.PlayerTurnStands | src/domain/casino/blackjack/BlackjackEngine.ts:164-172 | the player hit on every earlier hand and stands on, or has busted with, the final one |
| Blackjack.DealerTurnFromTop | src/domain/casino/blackjack/BlackjackEngine.ts:188-192 | the dealer's new cards are the top of the deck in `pop` order |
| Blackjack.DealerTurnStands | src/domain/casino/blackjack/BlackjackEngine.ts:188-192 | the dealer draws while under 17 and ends on 17 or more |
| Blackjack.PlayerTurn | src/domain/casino/blackjack/BlackjackEngine.ts:164-172 | the player's turn as a function: the cards stay the same in number, the deck only shrinks, and the hand holds at most 17 cards, or its starting number if larger (PlayerTurnFromTop, PlayerTurnStands) |
| Blackjack.DealerTurn | src/domain/casino/blackjack/BlackjackEngine.ts:188-192 | the dealer's turn as a function: the cards stay the same in number and the deck only shrinks (DealerTurnFromTop, DealerTurnStands) |
| Blackjack.PlayPlayerHand | src/domain/casino/blackjack/BlackjackEngine.ts:164-172 | the hit loop plays the player's turn |
| Blackjack.PlayDealerHand | src/domain/casino/blackjack/BlackjackEngine.ts:188-192 | the draw loop plays the dealer's turn |
| Blackjack.Settle | src/domain/casino/blackjack/BlackjackEngine.ts:75-90 | win on a player win or a dealer bust, loss on a player bust or a dealer win, for plus the bet, minus the bet or nothing |
| Blackjack.Game | src/domain/casino/blackjack/BlackjackEngine.ts:36-106 | the reference round fails only with the bet refusal or the `TypeError` of a dead generator; a played round wins the bet, loses it or pushes at 0, and reports the value of each final hand (GameFails, GameSettlement, GamePlayerStrategy, GameCardsDistinct) |
| Blackjack.Play | src/domain/casino/blackjack/BlackjackEngine.ts:36-43 | validation and the shuffle give the round of the reference definition |
| Blackjack.PlayRound | src/domain/casino/blackjack/BlackjackEngine.ts:44-106 | the deal, the two turns and the settlement give the reference round |
| Blackjack.GameFails | src/domain/casino/blackjack/BlackjackEngine.ts:29-39 | a bet outside [10, 45] is refused; a valid bet fails exactly for seeds that are not positive or are multiples of 2147483647 |
| Blackjack.GameSettlement | src/domain/casino/blackjack/BlackjackEngine.ts:51-90 | the final state matches the totals; a player who did not bust faces a dealer at 17 or more; the delta is the bet with the result's sign |
| Blackjack.GamePlayerStrategy | src/domain/casino/blackjack/BlackjackEngine.ts:45-49 | the player stands by basic strategy against the dealer's first card, having hit on every earlier hand |
| Blackjack.FromTopConserves | src/domain/casino/blackjack/BlackjackEngine.ts:167 | drawing from the top moves cards from the deck to the hand and keeps them all |
| Blackjack.DealConserves | src/domain/casino/blackjack/BlackjackEngine.ts:45-46 | the initial deal takes four cards off the top and leaves 48 |
| Blackjack.TurnsDistinct | src/domain/casino/blackjack/BlackjackEngine.ts:164-192 | both turns played from a deck without repeats deal no card twice |
| Blackjack.GameCardsDistinct | src/domain/casino/blackjack/BlackjackEngine.ts:41-58 | no card appears in both final hands or twice in one |
| PaiGow.NewDeckIndex | src/domain/casino/pai-gow/PaiGowEngine.ts:139-153 | card i of the new deck is suit i / 13, rank i % 13, value rank index + 2 |
| PaiGow.NewDeckComplete | src/domain/casino/pai-gow/PaiGowEngine.ts:139-153 | 52 distinct cards valued 2-14, the ace 14, each card exactly once |
| PaiGow.CreateDeck | src/domain/casino/pai-gow/PaiGowEngine.ts:139-153 | the nested loops build the new deck |
| PaiGow.ShuffleDeck | src/domain/casino/pai-gow/PaiGowEngine.ts:155-160 | the in-place LCG shuffle performs the seed's swap sequence when it stays in range |
| PaiGow.InsertPermutes | src/domain/casino/pai-gow/PaiGowEngine.ts:164 | inserting one card adds exactly that card |
| PaiGow.InsertSorted | src/domain/casino/pai-gow/PaiGowEngine.ts:164 | insertion keeps the order by decreasing value |
| PaiGow.SortDesc | src/domain/casino/pai-gow/PaiGowEngine.ts:164 | the stable sort by decreasing value, as insertion; the result has the input's length |
| PaiGow.SortDescSpec | src/domain/casino/pai-gow/PaiGowEngine.ts:164 | the sort gives the same cards by decreasing value |
| PaiGow.SortStable | src/domain/casino/pai-gow/PaiGowEngine.ts:164 | the sort is stable: the cards of any one value come out in their input order |
| PaiGow.GroupConserves | src/domain/casino/pai-gow/PaiGowEngine.ts:170-177 | the pairs and the singles together hold exactly the sorted cards |
| PaiGow.GroupPairsEqual | src/domain/casino/pai-gow/PaiGowEngine.ts:171-172 | every pair is two cards of equal value |
| PaiGow.FirstPair | src/domain/casino/pai-gow/PaiGowEngine.ts:170-177 | the first adjacent pair of equal values, or the length when there is none |
| PaiGow.GroupLeadingPair | src/domain/casino/pai-gow/PaiGowEngine.ts:182-184 | there is a pair exactly when there are adjacent equal values, and `pairs[0]` is the first such two cards |
| PaiGow.FirstPairHighest | src/domain/casino/pai-gow/PaiGowEngine.ts:163 | on sorted cards the first pair has the highest value of any pair |
| PaiGow.Arrange | src/domain/casino/pai-gow/PaiGowEngine.ts:162-193 | `arrangeOptimalHands`: the low hand always holds two cards (ArrangeConserves, ArrangeLow) |
| PaiGow.ArrangeConserves | src/domain/casino/pai-gow/PaiGowEngine.ts:162-193 | seven cards split into a five-card high hand and a two-card low hand holding exactly those cards |
| PaiGow.ArrangeLow | src/domain/casino/pai-gow/PaiGowEngine.ts:182-190 | the low hand is the highest pair, or else the two highest cards |
| PaiGow.GroupCards | src/domain/casino/pai-gow/PaiGowEngine.ts:166-177 | the grouping loop with its `i++` skip computes the pairs and singles |
| PaiGow.ArrangeOptimalHands | src/domain/casino/pai-gow/PaiGowEngine.ts:162-193 | the method computes the arrangement |
| PaiGow.ArrangeHouseWay | src/domain/casino/pai-gow/PaiGowEngine.ts:195-198 | the house way is the same arrangement |
| PaiGow.ReduceMax | src/domain/casino/pai-gow/PaiGowEngine.ts:206 | the reduce keeps a card of the highest value, the first such one |
| PaiGow.EvaluateHand | src/domain/casino/pai-gow/PaiGowEngine.ts:200-208 | a two-card hand is a pair of its rank or the high card's rank; other hands get the five-card label |
| PaiGow.MaxValue | src/domain/casino/pai-gow/PaiGowEngine.ts:234-235 | the highest card value of a hand |
| PaiGow.CompareHands | src/domain/casino/pai-gow/PaiGowEngine.ts:232-240 | `compareHands`: between non-empty hands, a win exactly when some player card beats every dealer card, a loss exactly when some dealer card beats every player card (CompareSymmetric) |
| PaiGow.CompareSymmetric | src/domain/casino/pai-gow/PaiGowEngine.ts:232-240 | the comparison depends only on the highest values, swaps win and lose when the hands swap, and ties a hand with itself |
| PaiGow.Settle | src/domain/casino/pai-gow/PaiGowEngine.ts:99-115 | win only when both hands win (delta the bet × 0.95, rounded), loss only when both lose (minus the bet), push otherwise |
| PaiGow.ValidateInput | src/domain/casino/pai-gow/PaiGowEngine.ts:60-67 | the bet lies in [15, 60] |
| PaiGow.Game | src/domain/casino/pai-gow/PaiGowEngine.ts:69-137 | the reference round fails only where the shuffle would index off the deck; each side gets seven cards and the delta never exceeds the bet (GameSettlement, GameHands) |
| PaiGow.Play | src/domain/casino/pai-gow/PaiGowEngine.ts:69-75 | the shuffle gives the reference round; there is no validation |
| PaiGow.PlayRound | src/domain/casino/pai-gow/PaiGowEngine.ts:77-137 | the deal, the arrangements, the comparisons and the settlement give the reference round |
| PaiGow.GameSettlement | src/domain/casino/pai-gow/PaiGowEngine.ts:93-115 | every seed from −5 up plays; the result follows the two comparisons of highest cards; the delta lies within the bet |
| PaiGow.RoundHands | src/domain/casino/pai-gow/PaiGowEngine.ts:78-85 | seven cards each, no card shared, and each side's hands hold exactly its seven cards |
| PaiGow.DealDistinct | src/domain/casino/pai-gow/PaiGowEngine.ts:78-79 | the two deals from a deck without repeats share no card |
| PaiGow.GameHands | src/domain/casino/pai-gow/PaiGowEngine.ts:69-91 | in every round played, both sides split their own seven distinct cards |
| Roulette.ColorsPartition | src/domain/casino/roulette/RouletteEngine.ts:25-26 | 18 red and 18 black numbers, disjoint, covering 1-36 |
| Roulette.ColorsByRule | src/domain/casino/roulette/RouletteEngine.ts:25-26 | the tables follow the European wheel rule (odd is red on 1-10 and 19-28, even is red on 11-18 and 29-36) |
| Roulette.ColorsCover | src/domain/casino/roulette/RouletteEngine.ts:25-26 | a number is in one of the two tables exactly when it lies in 1-36 |
| Roulette.NumberColor | src/domain/casino/roulette/RouletteEngine.ts:107-111 | `getNumberColor`: green exactly for 0, red exactly for the red table, black for the rest of 1-36 exactly the black table, and black for every number off the wheel |
| Roulette.IsBetWinner | src/domain/casino/roulette/RouletteEngine.ts:134-159 | `isBetWinner`: 0 pays only a single bet on 0; a dozen or column bet without a value 1-3 never wins; dozens, columns, odd and even follow their arithmetic on 1-36 |
| Roulette.PayoutMultiplier | src/domain/casino/roulette/RouletteEngine.ts:161-176 | every bet kind pays 2, 3 or 36 times its amount |
| Roulette.ValidateInput | src/domain/casino/roulette/RouletteEngine.ts:28-40 | at least one bet, a total in [5, 120], every amount positive, every single bet on 0-36 |
| Roulette.BallPathShape | src/domain/casino/roulette/RouletteEngine.ts:113-132 | full laps of 0-36, then a last lap up to the winning number, which ends the path; a negative number leaves only the full laps |
| Roulette.GenerateBallAnimation | src/domain/casino/roulette/RouletteEngine.ts:113-132 | the nested loops build the path with 3 or 4 laps from one draw |
| Roulette.SettleSides | src/domain/casino/roulette/RouletteEngine.ts:62-70 | every bet goes to exactly one side, the winners win and the losers lose |
| Roulette.SettleOrder | src/domain/casino/roulette/RouletteEngine.ts:62-70 | both sides keep the input order: settling two runs of bets one after the other gives the lists of settling them together |
| Roulette.SettleNet | src/domain/casino/roulette/RouletteEngine.ts:59-72 | the net lies between minus the total bet and 36 times it, and is minus the total exactly when nothing wins |
| Roulette.EvaluateBets | src/domain/casino/roulette/RouletteEngine.ts:57-70 | the loop splits the bets and sums payouts and losses |
| Roulette.Classify | src/domain/casino/roulette/RouletteEngine.ts:72-81 | win, loss or push by the sign of the net |
| Roulette.OneBet | src/domain/casino/roulette/RouletteEngine.ts:62-70 | a single bet adds its amount times its multiplier to the payouts when it wins, and its amount to the losses otherwise |
| Roulette.Game | src/domain/casino/roulette/RouletteEngine.ts:42-97 | the reference round is refused exactly for invalid bets; a played round is a win exactly for a positive net and a loss exactly for a negative one (GameFails, GameSpin, GameSettlement, LoneBet) |
| Roulette.Play | src/domain/casino/roulette/RouletteEngine.ts:42-97 | the method gives the reference round |
| Roulette.GameFails | src/domain/casino/roulette/RouletteEngine.ts:43-45 | the round throws "Invalid bets" exactly when validation fails |
| Roulette.GameSpin | src/domain/casino/roulette/RouletteEngine.ts:47-54 | a good seed spins 0-36 and the path ends on it after 3-4 laps; a multiple of 2147483647 spins −1, shown black, with one lap; a seed of 0 or below spins a number in −38..−1, shown black, with a path of no lap or one full lap |
| Roulette.GameSettlement | src/domain/casino/roulette/RouletteEngine.ts:56-93 | the bets are split by the winning number and the delta is payouts less losses, within the bounds of SettleNet |
| Roulette.LoneBet | src/domain/casino/roulette/RouletteEngine.ts:62-81 | a single bet wins its amount times its multiplier or loses its amount |
| MathChallenge.ValidateInput | src/domain/casino/math-challenge/MathChallengeEngine.ts:56-66 | a bet in [5, 30] and a time limit in (0, 300] |
| MathChallenge.NextIntRange | src/domain/casino/math-challenge/MathChallengeEngine.ts:48-50 | `nextInt(lo, hi)` lies in [lo, hi] and the generator stays non-negative |
| MathChallenge.PowBetween | src/domain/casino/math-challenge/MathChallengeEngine.ts:228-236 | a power with base 2-9 lies between the powers of 2 and 9, strictly above that of 2 for a larger base |
| MathChallenge.EasyProblem | src/domain/casino/math-challenge/MathChallengeEngine.ts:179-202 | the easy question is a three-term sum or difference and its answer is the question's value (EasyRanges) |
| MathChallenge.MediumProblem | src/domain/casino/math-challenge/MathChallengeEngine.ts:204-226 | the medium question is a product, answered by its value, or a division built from its quotient, answered by that quotient (MediumRanges) |
| MathChallenge.HardProblem | src/domain/casino/math-challenge/MathChallengeEngine.ts:228-236 | the hard question is a power, answered by its value (HardRanges) |
| MathChallenge.EasyRanges | src/domain/casino/math-challenge/MathChallengeEngine.ts:179-202 | easy questions are three-term sums or differences in the drawn ranges, and the answer is the question's value |
| MathChallenge.MediumRanges | src/domain/casino/math-challenge/MathChallengeEngine.ts:204-226 | medium questions are products, or exact quotients, in the drawn ranges |
| MathChallenge.HardRanges | src/domain/casino/math-challenge/MathChallengeEngine.ts:228-236 | hard questions are powers with base 2-9 and exponent 2-4 |
| MathChallenge.GenerateRanges | src/domain/casino/math-challenge/MathChallengeEngine.ts:144-164 | each difficulty draws its own kind of question, answered correctly |
| MathChallenge.AnswerRanges | src/domain/casino/math-challenge/MathChallengeEngine.ts:179-236 | answers lie in 30-150, 10-80, 132-500, 8-25 or 4-6561 by kind; only 2^2 is below 5 |
| MathChallenge.Spread | src/domain/casino/math-challenge/MathChallengeEngine.ts:250-251 | the offset bound is at least 1, and exactly 1 for answers in [−4, 4] |
| MathChallenge.HundredthsExact | src/domain/casino/math-challenge/MathChallengeEngine.ts:252 | rounding an integer to hundredths gives it back |
| MathChallenge.DrawWrongSpec | src/domain/casino/math-challenge/MathChallengeEngine.ts:248-253 | the do-while loop ends with a new candidate within the spread of the answer |
| MathChallenge.DrawWrongStuck | src/domain/casino/math-challenge/MathChallengeEngine.ts:248-253 | with spread 1 and the three candidates taken, the loop never ends |
| MathChallenge.PickWrongSpec | src/domain/casino/math-challenge/MathChallengeEngine.ts:246-256 | the three wrong answers are distinct, differ from the answer and lie within its spread |
| MathChallenge.PickWrongStuck | src/domain/casino/math-challenge/MathChallengeEngine.ts:246-256 | answers with spread 1 never get three wrong answers |
| MathChallenge.Options | src/domain/casino/math-challenge/MathChallengeEngine.ts:243-265 | `generateOptions`: four options, or a failure only from a loop that never ends or a shuffle off the list (OptionsSpec) |
| MathChallenge.OptionsSpec | src/domain/casino/math-challenge/MathChallengeEngine.ts:243-265 | four distinct options around the answer, or no termination, which always happens for spread 1 |
| MathChallenge.ShuffleSpaced | src/domain/casino/math-challenge/MathChallengeEngine.ts:258-262 | the option shuffle stays in range and keeps the options |
| MathChallenge.ParseNatToString | src/domain/casino/math-challenge/MathChallengeEngine.ts:74 | `i.toString()` reads back as i |
| MathChallenge.IdsDistinct | src/domain/casino/math-challenge/MathChallengeEngine.ts:74 | different problem indices give different ids |
| MathChallenge.ProblemAtSpec | src/domain/casino/math-challenge/MathChallengeEngine.ts:144-177 | a generated problem has its id, difficulty, time limit, correct answer and four options holding it |
| MathChallenge.BatchSpec | src/domain/casino/math-challenge/MathChallengeEngine.ts:69-78 | every problem in a batch is well formed at its index |
| MathChallenge.BatchNext | src/domain/casino/math-challenge/MathChallengeEngine.ts:73-75 | one more loop pass appends the next problem drawn from the state the batch left, or fails with it |
| MathChallenge.BatchFirstErr | src/domain/casino/math-challenge/MathChallengeEngine.ts:73-75 | when the first problem fails, the whole batch fails with it |
| MathChallenge.BatchErrSticks | src/domain/casino/math-challenge/MathChallengeEngine.ts:73-75 | once a problem fails, every longer batch fails the same way |
| MathChallenge.Problems | src/domain/casino/math-challenge/MathChallengeEngine.ts:69-78 | `generateProblems`: as many problems as asked for, or none for a negative count (ProblemsSpec) |
| MathChallenge.ProblemsSpec | src/domain/casino/math-challenge/MathChallengeEngine.ts:69-78 | the batch is well formed; it is unmodelled only for a negative first state; its only other failure is no termination; no count gives none |
| MathChallenge.SquareOfTwoHangs | src/domain/casino/math-challenge/MathChallengeEngine.ts:228-265 | a hard problem whose question is 2^2 never gets its options |
| MathChallenge.SquareFirstHangs | src/domain/casino/math-challenge/MathChallengeEngine.ts:228-265 | a hard batch whose first question is 2^2 never finishes |
| MathChallenge.TwentyOneStates | src/domain/casino/math-challenge/MathChallengeEngine.ts:43-50 | from seed 21 the LCG states are 11338 and 61475, which draw base 2 and exponent 2 |
| MathChallenge.TwentyOneDrawsSquare | src/domain/casino/math-challenge/MathChallengeEngine.ts:228-232 | seed 21 draws 2^2 first, so such seeds exist |
| MathChallenge.AgreementsSet | src/domain/casino/math-challenge/MathChallengeEngine.ts:91-95 | the count is the number of positions where the answers agree |
| MathChallenge.CountCorrectLoop | src/domain/casino/math-challenge/MathChallengeEngine.ts:90-95 | the counting loop computes the number of correct answers |
| MathChallenge.CountSpec | src/domain/casino/math-challenge/MathChallengeEngine.ts:90-95 | correct answers are the agreeing positions both lists have, at most the number of problems |
| MathChallenge.AverageTime | src/domain/casino/math-challenge/MathChallengeEngine.ts:98 | the average is `NaN` exactly when no times are given |
| MathChallenge.SpeedBonus | src/domain/casino/math-challenge/MathChallengeEngine.ts:283-287 | the bonus lies in [0.5, 2]: 2 at half the target time or faster, 0.5 at twice the target or slower, or for a negative average |
| MathChallenge.SpeedBonusMonotone | src/domain/casino/math-challenge/MathChallengeEngine.ts:283-287 | a slower average never earns a larger bonus |
| MathChallenge.BonusMultiplier | src/domain/casino/math-challenge/MathChallengeEngine.ts:103 | the multiplier is at least 0.1, or `NaN` with the speed |
| MathChallenge.BonusRange | src/domain/casino/math-challenge/MathChallengeEngine.ts:101-103 | the multiplier lies in [0.1, 2] |
| MathChallenge.WinDelta | src/domain/casino/math-challenge/MathChallengeEngine.ts:114 | the winning delta is `NaN` exactly when the bonus is |
| MathChallenge.WinDeltaBound | src/domain/casino/math-challenge/MathChallengeEngine.ts:114 | a winning delta lies in [0, 2 × bet] |
| MathChallenge.Grade | src/domain/casino/math-challenge/MathChallengeEngine.ts:105-123 | all answers right always wins, none right always loses, and the delta is `NaN` exactly for a win without a bonus (GradeTable) |
| MathChallenge.GradeTable | src/domain/casino/math-challenge/MathChallengeEngine.ts:105-123 | win on all but one correct (all on hard), loss on at most one correct, push otherwise; the deltas of each |
| MathChallenge.Answers | src/domain/casino/math-challenge/MathChallengeEngine.ts:87 | the correct answers are the problems' answers in order |
| MathChallenge.GradingSpec | src/domain/casino/math-challenge/MathChallengeEngine.ts:87-141 | the grading of a batch meets every clause of the grade |
| MathChallenge.GameSpec | src/domain/casino/math-challenge/MathChallengeEngine.ts:80-142 | play regenerates the batch the UI showed and grades the answers against it; its failures are those of the batch |
| MathChallenge.HardSeedHangs | src/domain/casino/math-challenge/MathChallengeEngine.ts:80-86 | a hard game whose first question is 2^2 never returns |
| MathChallenge.GenerateEasyProblem | src/domain/casino/math-challenge/MathChallengeEngine.ts:179-202 | the method draws the easy question of the reference definition |
| MathChallenge.GenerateMediumProblem | src/domain/casino/math-challenge/MathChallengeEngine.ts:204-226 | the method draws the medium question of the reference definition |
| MathChallenge.GenerateHardProblem | src/domain/casino/math-challenge/MathChallengeEngine.ts:228-236 | the method draws the hard question of the reference definition |
| MathChallenge.PickWrongAnswers | src/domain/casino/math-challenge/MathChallengeEngine.ts:246-256 | the nested loops pick the reference wrong answers |
| MathChallenge.ShuffleOptions | src/domain/casino/math-challenge/MathChallengeEngine.ts:258-262 | the shuffle loop performs the seed's swap sequence |
| MathChallenge.GenerateOptions | src/domain/casino/math-challenge/MathChallengeEngine.ts:243-265 | the method computes the reference options |
| MathChallenge.GenerateQuestion | src/domain/casino/math-challenge/MathChallengeEngine.ts:148-164 | the switch draws the reference question |
| MathChallenge.GenerateProblem | src/domain/casino/math-challenge/MathChallengeEngine.ts:144-177 | the method computes the reference problem |
| MathChallenge.GenerateProblems | src/domain/casino/math-challenge/MathChallengeEngine.ts:69-78 | a fresh generator runs the reference batch |
| MathChallenge.GenerateBatch | src/domain/casino/math-challenge/MathChallengeEngine.ts:73-75 | the loop runs the reference batch on a shared generator |
| MathChallenge.GradeAnswers | src/domain/casino/math-challenge/MathChallengeEngine.ts:87-141 | the method computes the reference grading |
| MathChallenge.Settle | src/domain/casino/math-challenge/MathChallengeEngine.ts:105-123 | the branch gives the reference grade |
| MathChallenge.Game | src/domain/casino/math-challenge/MathChallengeEngine.ts:80-142 | the reference round grades exactly the difficulty's number of problems and keeps the answers and times given (GameSpec, HardSeedHangs) |
| MathChallenge.Play | src/domain/casino/math-challenge/MathChallengeEngine.ts:80-142 | the method gives the reference game |
| Plinko.MultiplierTable | src/domain/casino/plinko/PlinkoEngine.ts:37-38 | 11 symmetric multipliers in [0.1, 2.0] peaking at the centre slot 5 |
| Plinko.ValidateInput | src/domain/casino/plinko/PlinkoEngine.ts:40-47 | the bet lies in [10, 80] |
| Plinko.Direction | src/domain/casino/plinko/PlinkoEngine.ts:99 | left (0) exactly when the draw is below 0.5, else right (1) |
| Plinko.ChipPath | src/domain/casino/plinko/PlinkoEngine.ts:94-103 | the path takes entry k from draw k + 1 |
| Plinko.GenerateChipPath | src/domain/casino/plinko/PlinkoEngine.ts:94-103 | the loop draws the twelve directions and leaves the generator twelve steps on |
| Plinko.FinalSlot | src/domain/casino/plinko/PlinkoEngine.ts:105-120 | the slot always lies in [0, 10] |
| Plinko.CalculateFinalSlot | src/domain/casino/plinko/PlinkoEngine.ts:105-120 | the loop and the clamp compute the slot |
| Plinko.OffsetParity | src/domain/casino/plinko/PlinkoEngine.ts:107-112 | after n rows the offset lies in [−n, n] and has the parity of n |
| Plinko.SlotParity | src/domain/casino/plinko/PlinkoEngine.ts:114-119 | after twelve rows the chip lands in 0, 10 or an odd slot, never in 2, 4, 6 or 8 |
| Plinko.OffsetAppend | src/domain/casino/plinko/PlinkoEngine.ts:110-112 | offsets add up along a path |
| Plinko.OffsetRepeat | src/domain/casino/plinko/PlinkoEngine.ts:110-112 | n moves in one direction shift by n |
| Plinko.SlotReachable | src/domain/casino/plinko/PlinkoEngine.ts:105-120 | every slot of the right parity is reached by some twelve-row path |
| Plinko.ChipPositions | src/domain/casino/plinko/PlinkoEngine.ts:122-136 | position k is row k at the offset of the first k moves |
| Plinko.ChipPositionsSteps | src/domain/casino/plinko/PlinkoEngine.ts:124-133 | the chip starts at (0, 0), moves one step per row, and ends at the path's offset |
| Plinko.ChipEnds | src/domain/casino/plinko/PlinkoEngine.ts:122-136 | the animation starts at (0, 0) and ends at the path's offset |
| Plinko.ChipStep | src/domain/casino/plinko/PlinkoEngine.ts:128-133 | each position moves one step left or right from the one before |
| Plinko.AllRightLeavesBoard | src/domain/casino/plinko/PlinkoEngine.ts:115-119 | the animation reaches position 12 while the slot is clamped to 10 |
| Plinko.GenerateChipPositions | src/domain/casino/plinko/PlinkoEngine.ts:122-136 | the loop builds the positions |
| Plinko.Payout | src/domain/casino/plinko/PlinkoEngine.ts:58-71 | a loss exactly for a multiplier below 1, a win exactly for a multiplier of 1 or more with a positive gain, and a push never gains (PayoutBounds, SlotPayouts) |
| Plinko.PayoutBounds | src/domain/casino/plinko/PlinkoEngine.ts:58-71 | a multiplier in [0.1, 2] never moves more than the bet, and moves it up from 1 and down below 1 for a bet of 0 or more |
| Plinko.Fraction | src/domain/casino/plinko/PlinkoEngine.ts:69 | a rounded fraction of the bet lies between 0 and the bet |
| Plinko.SlotPayouts | src/domain/casino/plinko/PlinkoEngine.ts:58-71 | only the centre wins (plus the bet); slots 3 and 7 push; the edges lose 90% and slots 1 and 9 lose 70% |
| Plinko.Settle | src/domain/casino/plinko/PlinkoEngine.ts:58-71 | the branch computes the payout |
| Plinko.Game | src/domain/casino/plinko/PlinkoEngine.ts:49-92 | the reference round: twelve directions, thirteen positions, a slot on the board with its own multiplier, and a loss exactly for a multiplier below 1 (GameDrop, GameSettlement) |
| Plinko.Play | src/domain/casino/plinko/PlinkoEngine.ts:49-92 | the method gives the reference round |
| Plinko.GameDrop | src/domain/casino/plinko/PlinkoEngine.ts:50-56 | twelve moves from the draws, a reachable slot, its multiplier, and chip positions from (0, 0) whose end, clamped, is the slot |
| Plinko.GameSettlement | src/domain/casino/plinko/PlinkoEngine.ts:58-71 | a win only in the centre, a loss exactly under multiplier 1, the delta within the bet |
| Slots.IndexOf | src/domain/casino/slots/SlotsEngine.ts:14 | every symbol sits in the symbol table |
| Slots.SymbolTables | src/domain/casino/slots/SlotsEngine.ts:14-23 | seven distinct symbols; combination k is three of symbol k |
| Slots.ValidateInput | src/domain/casino/slots/SlotsEngine.ts:28-33 | the bet lies in [5, 60] |
| Slots.DrawRange | src/domain/casino/slots/SlotsEngine.ts:96-102 | a live state draws in [0, 1); any other state draws below 0 |
| Slots.WinningIsThreeOfAKind | src/domain/casino/slots/SlotsEngine.ts:104-108 | a winning combination is exactly three equal reels |
| Slots.FindOther | src/domain/casino/slots/SlotsEngine.ts:56 | `find` returns a symbol other than x, and returns nothing only when every symbol is x |
| Slots.ReplacementSpec | src/domain/casino/slots/SlotsEngine.ts:55-57 | the replacement for reel 3 differs from reel 1: lemon for a cherry, cherry otherwise |
| Slots.Spin | src/domain/casino/slots/SlotsEngine.ts:49-67 | the three reels of a round that is not a win: three draws and the patch of reel 3 (SpinNeverWins) |
| Slots.SpinNeverWins | src/domain/casino/slots/SlotsEngine.ts:49-67 | a non-winning spin never shows three of a kind; reel 3 is patched exactly when the draws give three of a kind |
| Slots.SpinReels | src/domain/casino/slots/SlotsEngine.ts:59-66 | the three draws and the in-place patch give the reference reels, three draws on |
| Slots.WinDeltaRange | src/domain/casino/slots/SlotsEngine.ts:72 | a win pays between 1.5 × bet (rounded down) and 2 × bet − 1 |
| Slots.Game | src/domain/casino/slots/SlotsEngine.ts:35-94 | the reference round fails only with the bet refusal or the `TypeError` of a dead generator; a played round is marked a win exactly when it is one, a loss costs the bet and a push nothing (GameFails, GameClassifies, GameSettlement) |
| Slots.Play | src/domain/casino/slots/SlotsEngine.ts:35-94 | the method gives the reference round |
| Slots.PlayWin | src/domain/casino/slots/SlotsEngine.ts:46-48 | the winning branch gives the reference win |
| Slots.PlayOther | src/domain/casino/slots/SlotsEngine.ts:49-80 | the loss and push branches give the reference round |
| Slots.Classify | src/domain/casino/slots/SlotsEngine.ts:41-42 | win under 0.10; otherwise loss when a second draw is under 0.95, else push; one draw or two |
| Slots.GameFails | src/domain/casino/slots/SlotsEngine.ts:36-38 | a bet outside [5, 60] is refused; a valid bet throws exactly for seeds that are not positive or are multiples of 2147483647 |
| Slots.GameClassifies | src/domain/casino/slots/SlotsEngine.ts:41-42 | the result by the first two draws: win under 0.10, loss under 0.95, push otherwise |
| Slots.GameSettlement | src/domain/casino/slots/SlotsEngine.ts:44-93 | a win shows a winning combination and pays 1.5-2 × bet; other rounds never show three of a kind; loss −bet, push 0; the payline names the symbol only on a win |
| JewelMining.ElementsCard | src/domain/casino/jewel-mining/JewelMiningEngine.ts:28 | the set of a list is no larger, and equally large exactly when there are no repeats |
| JewelMining.Cells | src/domain/casino/jewel-mining/JewelMiningEngine.ts:20 | the cells 0 to n − 1 |
| JewelMining.CellsCard | src/domain/casino/jewel-mining/JewelMiningEngine.ts:20 | there are n cells |
| JewelMining.ValidateInput | src/domain/casino/jewel-mining/JewelMiningEngine.ts:23-30 | a bet in [10, 100] and clicks on distinct cells 0-15 |
| JewelMining.Bombs | src/domain/casino/jewel-mining/JewelMiningEngine.ts:116-125 | the only failure of the placement loop is not ending |
| JewelMining.BombsLive | src/domain/casino/jewel-mining/JewelMiningEngine.ts:116-125 | from a live state the loop places four distinct bombs on cells 0-15, extending the positions already placed |
| JewelMining.BombsNonPositive | src/domain/casino/jewel-mining/JewelMiningEngine.ts:116-125 | from a non-positive state every bomb position is negative |
| JewelMining.BombsStuck | src/domain/casino/jewel-mining/JewelMiningEngine.ts:116-125 | a state stuck at zero draws −1 forever and the loop never ends |
| JewelMining.GenerateBombPositions | src/domain/casino/jewel-mining/JewelMiningEngine.ts:116-125 | the loop places the reference bombs |
| JewelMining.GridOf | src/domain/casino/jewel-mining/JewelMiningEngine.ts:43-47 | the grid has 16 cells |
| JewelMining.GridCounts | src/domain/casino/jewel-mining/JewelMiningEngine.ts:43-47 | a cell is a bomb exactly when placed, none stays hidden, and there are 4 bombs and 12 gems |
| JewelMining.BombCellsAreDrawn | src/domain/casino/jewel-mining/JewelMiningEngine.ts:44-46 | the bomb cells of the grid are exactly the drawn positions |
| JewelMining.CellsSplit | src/domain/casino/jewel-mining/JewelMiningEngine.ts:43-47 | a grid with no hidden cell splits its 16 cells into bombs and gems |
| JewelMining.BuildGrid | src/domain/casino/jewel-mining/JewelMiningEngine.ts:43-47 | the fill and the two loops build the reference grid in a fresh array |
| JewelMining.GemValueFifth | src/domain/casino/jewel-mining/JewelMiningEngine.ts:61 | a gem is worth a fifth of the bet, rounded down |
| JewelMining.LeadingGems | src/domain/casino/jewel-mining/JewelMiningEngine.ts:54-59 | the gems clicked before the first bomb |
| JewelMining.GemsToCap | src/domain/casino/jewel-mining/JewelMiningEngine.ts:65-68 | the number of gems that first reaches the bet |
| JewelMining.Dig | src/domain/casino/jewel-mining/JewelMiningEngine.ts:50-70 | the click loop as recursion: a bomb is reported exactly when one was hit, at a clicked cell that holds a bomb, and the winnings never pass the bet (DigClosedForm) |
| JewelMining.DigClosedForm | src/domain/casino/jewel-mining/JewelMiningEngine.ts:54-70 | the click loop equals the closed form: capped, bombed or the gems' total |
| JewelMining.ProcessClicks | src/domain/casino/jewel-mining/JewelMiningEngine.ts:50-70 | the loop with its two breaks computes the reference clicks |
| JewelMining.Game | src/domain/casino/jewel-mining/JewelMiningEngine.ts:32-106 | the reference round fails only with the input refusal or a bomb loop cut off; the clicks are reported as given, and a round is lost, at the cost of the bet, exactly when a bomb was hit (GameFails, GameGrid, GameNoBombs, GameSettlement) |
| JewelMining.Play | src/domain/casino/jewel-mining/JewelMiningEngine.ts:32-106 | the method gives the reference round |
| JewelMining.SettleRound | src/domain/casino/jewel-mining/JewelMiningEngine.ts:72-98 | the method gives the reference settlement |
| JewelMining.GameFails | src/domain/casino/jewel-mining/JewelMiningEngine.ts:33-35 | invalid input throws "Invalid input"; otherwise only a non-ending placement fails, which a multiple of 2147483647 always causes |
| JewelMining.GameGrid | src/domain/casino/jewel-mining/JewelMiningEngine.ts:40-47 | a good seed gives 4 bombs and 12 gems, the same grid for any bet and clicks |
| JewelMining.GameNoBombs | src/domain/casino/jewel-mining/JewelMiningEngine.ts:44 | a non-positive seed places no bomb on the grid, so the round is never lost |
| JewelMining.NoBombNoLoss | src/domain/casino/jewel-mining/JewelMiningEngine.ts:55-58 | clicks on a grid without bombs never hit one |
| JewelMining.RoundSettlement | src/domain/casino/jewel-mining/JewelMiningEngine.ts:72-90 | the cap wins the bet, a bomb first loses it, otherwise the gems' total with a push only for no clicks; the delta lies within the bet |
| JewelMining.GameSettlement | src/domain/casino/jewel-mining/JewelMiningEngine.ts:32-106 | the settlement of RoundSettlement in every round played |
| DailyLimitsSlice.DailyLimitsState.constructor | src/infrastructure/storage/slices/dailyLimitsSlice.ts:13-18 | three free spins, no games, today's date |
| DailyLimitsSlice.DailyLimitsState.UseSpins | src/infrastructure/storage/slices/dailyLimitsSlice.ts:24-34 | the fields take the values of the reducer, with the nested reset |
| DailyLimitsSlice.DailyLimitsState.ResetDaily | src/infrastructure/storage/slices/dailyLimitsSlice.ts:35-42 | the fields take the values of the reset |
| DailyLimitsSlice.DailyLimitsState.UpdateSpinsForSubscription | src/infrastructure/storage/slices/dailyLimitsSlice.ts:43-57 | the fields take the values of the tier change |
| DailyLimitsSlice.DailyLimitsState.CheckAndResetIfNewDay | src/infrastructure/storage/slices/dailyLimitsSlice.ts:61-66 | the fields take the values of the day check |
| DailyLimitsSlice.UseSpinsSameDay | src/infrastructure/storage/slices/dailyLimitsSlice.ts:24-28 | min(n, remaining) spins move to the games played; the sum is kept and the allowance stays non-negative |
| DailyLimitsSlice.UseSpinsNegative | src/infrastructure/storage/slices/dailyLimitsSlice.ts:25-27 | a negative request raises the allowance and lowers the games played |
| DailyLimitsSlice.UseSpinsNewDay | src/infrastructure/storage/slices/dailyLimitsSlice.ts:29-33 | on a new day any request ends in the free allowance of three spins |
| DailyLimitsSlice.ResetDailyAllowance | src/infrastructure/storage/slices/dailyLimitsSlice.ts:35-42 | ten spins with a subscription, three without, no games, the new date |
| DailyLimitsSlice.UpgradeAddsSeven | src/infrastructure/storage/slices/dailyLimitsSlice.ts:47-52 | an upgrade below ten spins adds seven, and at ten or more changes nothing |
| DailyLimitsSlice.UpgradeNotIdempotent | src/infrastructure/storage/slices/dailyLimitsSlice.ts:48-51 | two upgrades from under three spins add fourteen |
| DailyLimitsSlice.DowngradeCaps | src/infrastructure/storage/slices/dailyLimitsSlice.ts:53-56 | a downgrade caps the allowance at three and changes nothing else |
| DailyLimitsSlice.CheckAndResetIdempotent | src/infrastructure/storage/slices/dailyLimitsSlice.ts:61-66 | no change on the reset day, a reset on any other, and a second check does nothing |
| CasinoSlice.CasinoState.constructor | src/infrastructure/storage/slices/casinoSlice.ts:12-26 | no game, no session, no outcome, fresh statistics for today |
| CasinoSlice.CasinoState.StartGame | src/infrastructure/storage/slices/casinoSlice.ts:32-36 | the fields take the values of `startGame` |
| CasinoSlice.CasinoState.EndGame | src/infrastructure/storage/slices/casinoSlice.ts:37-41 | the fields take the values of `endGame` |
| CasinoSlice.CasinoState.SetGameOutcome | src/infrastructure/storage/slices/casinoSlice.ts:42-75 | the fields take the values of `setGameOutcome` |
| CasinoSlice.CasinoState.ResetDailyStats | src/infrastructure/storage/slices/casinoSlice.ts:79-90 | the statistics start afresh for today |
| CasinoSlice.ConsistentAlways | src/infrastructure/storage/slices/casinoSlice.ts:42-90 | games, spins and the three result counts always agree |
| CasinoSlice.RecordOutcome | src/infrastructure/storage/slices/casinoSlice.ts:42-75 | `setGameOutcome` on the statistics: the day is the current one, and consistent counts stay consistent, a new day's counts always (SameDayOutcome, NewDayOutcome, ConsistentAlways) |
| CasinoSlice.SameDayOutcome | src/infrastructure/storage/slices/casinoSlice.ts:60-74 | on the same day an outcome adds one game, one spin, one to its result and its delta |
| CasinoSlice.NewDayOutcome | src/infrastructure/storage/slices/casinoSlice.ts:46-58 | the first outcome of a new day leaves one game whose delta is the whole net change |
| CasinoSlice.OutcomeKeepsSession | src/infrastructure/storage/slices/casinoSlice.ts:42-43 | the outcome becomes the last outcome and the session is untouched |
| CasinoSlice.SessionKeepsStats | src/infrastructure/storage/slices/casinoSlice.ts:32-41 | starting and ending a game set the session and leave the statistics alone |
| ScreenTimeSlice.FirstIndex | src/infrastructure/storage/slices/screenTimeSlice.ts:48 | `findIndex`: the first index with the bundle id, or −1 when there is none |
| ScreenTimeSlice.FindIndex | src/infrastructure/storage/slices/screenTimeSlice.ts:29 | the search loop finds the first match |
| ScreenTimeSlice.Without | src/infrastructure/storage/slices/screenTimeSlice.ts:55-57 | the filter of `removeApp`: never longer than the list, and no entry left has the bundle id (WithoutMembers, WithoutConcat, WithoutAbsent) |
| ScreenTimeSlice.WithoutMembers | src/infrastructure/storage/slices/screenTimeSlice.ts:56 | the filter keeps exactly the entries with another bundle id |
| ScreenTimeSlice.WithoutConcat | src/infrastructure/storage/slices/screenTimeSlice.ts:56 | the filter works piece by piece and keeps the order |
| ScreenTimeSlice.WithoutAbsent | src/infrastructure/storage/slices/screenTimeSlice.ts:56 | a list without the bundle id passes unchanged |
| ScreenTimeSlice.Filter | src/infrastructure/storage/slices/screenTimeSlice.ts:56 | the loop computes the filter |
| ScreenTimeSlice.ScreenTimeState.constructor | src/infrastructure/storage/slices/screenTimeSlice.ts:12-18 | no apps, no usage, no sync, permission not determined |
| ScreenTimeSlice.ScreenTimeState.SetCurrentLimits | src/infrastructure/storage/slices/screenTimeSlice.ts:24-27 | the list is replaced and the sync time set |
| ScreenTimeSlice.ScreenTimeState.UpdateAppLimit | src/infrastructure/storage/slices/screenTimeSlice.ts:28-34 | the first matching app gets the new limit and time |
| ScreenTimeSlice.ScreenTimeState.UpdateDailyUsage | src/infrastructure/storage/slices/screenTimeSlice.ts:38-40 | one usage key is set |
| ScreenTimeSlice.ScreenTimeState.AddApp | src/infrastructure/storage/slices/screenTimeSlice.ts:47-54 | the app replaces its first entry or is appended |
| ScreenTimeSlice.ScreenTimeState.RemoveApp | src/infrastructure/storage/slices/screenTimeSlice.ts:55-57 | the list is filtered |
| ScreenTimeSlice.UpdateLimit | src/infrastructure/storage/slices/screenTimeSlice.ts:28-34 | `updateAppLimit` on the list: same length, and every position keeps its bundle id (UpdateLimitOnlyFirst) |
| ScreenTimeSlice.UpdateLimitOnlyFirst | src/infrastructure/storage/slices/screenTimeSlice.ts:28-34 | only the first matching app changes, in limit and time only; with no match nothing changes |
| ScreenTimeSlice.AddTo | src/infrastructure/storage/slices/screenTimeSlice.ts:47-54 | `addApp` on the list: the app is in it afterwards and every app with another bundle id stays (AddAppReplacesOrAppends) |
| ScreenTimeSlice.AddAppReplacesOrAppends | src/infrastructure/storage/slices/screenTimeSlice.ts:47-54 | replace in place or append; the app is in the list and unique bundle ids stay unique |
| ScreenTimeSlice.RemoveAppKeepsOthers | src/infrastructure/storage/slices/screenTimeSlice.ts:55-57 | every entry with the bundle id goes, and the others stay in order |
| ScreenTimeSlice.UsageSetsOneKey | src/infrastructure/storage/slices/screenTimeSlice.ts:38-40 | recording usage sets one key and no other |
| UserSlice.UserState.constructor | temp_expo/src/infrastructure/storage/slices/userSlice.ts:16-26 | signed out with an empty history, sound and vibrations on, dark mode off |
| UserSlice.UserState.SetProfile | temp_expo/src/infrastructure/storage/slices/userSlice.ts:32-35 | the profile is stored and the user is authenticated |
| UserSlice.UserState.ClearProfile | temp_expo/src/infrastructure/storage/slices/userSlice.ts:36-40 | profile, authentication and history are cleared |
| UserSlice.UserState.AddGameResult | temp_expo/src/infrastructure/storage/slices/userSlice.ts:41-47 | `unshift` then `slice(0, 100)` give the bounded history |
| UserSlice.UserState.SetGameHistory | temp_expo/src/infrastructure/storage/slices/userSlice.ts:48-50 | the history is replaced |
| UserSlice.UserState.UpdatePreferences | temp_expo/src/infrastructure/storage/slices/userSlice.ts:51-53 | the patch is merged |
| UserSlice.UserState.UpdateSubscriptionStatus | temp_expo/src/infrastructure/storage/slices/userSlice.ts:57-62 | the two field writes give the subscription update |
| UserSlice.Prepend | temp_expo/src/infrastructure/storage/slices/userSlice.ts:41-47 | `unshift` then `slice(0, 100)` on the history: the new game first, between 1 and 100 games (PrependBounded, PrependNewestFirst) |
| UserSlice.PrependBounded | temp_expo/src/infrastructure/storage/slices/userSlice.ts:41-47 | the new game comes first and the older ones follow in order, to at most 100 |
| UserSlice.PrependNewestFirst | temp_expo/src/infrastructure/storage/slices/userSlice.ts:42 | the history reads newest first |
| UserSlice.SignInAndOut | temp_expo/src/infrastructure/storage/slices/userSlice.ts:32-40 | signing out clears profile, authentication and history and keeps the preferences; signing in keeps the history |
| UserSlice.SubscriptionNeedsProfile | temp_expo/src/infrastructure/storage/slices/userSlice.ts:57-62 | without a profile nothing changes; with one only the two subscription fields do |
| UserSlice.HistoryBound | temp_expo/src/infrastructure/storage/slices/userSlice.ts:41-47 | every reducer but `setGameHistory` keeps the history within 100, and adding a game restores the bound |
| UserSlice.Merge | temp_expo/src/infrastructure/storage/slices/userSlice.ts:51-53 | the spread `{ ...preferences, ...patch }`: an empty patch changes nothing (MergeOnlyPresentKeys) |
| UserSlice.MergeOnlyPresentKeys | temp_expo/src/infrastructure/storage/slices/userSlice.ts:51-53 | a patch overwrites exactly its keys and merging twice is merging once |

## Left out

- **Floating point.** Draws, multipliers, accuracies and bonuses are exact rationals. The model does not reproduce the rounding of IEEE doubles. A product such as `bet * 0.2` or `betAmount * 0.95` may differ in its last bit. Where it matters for an integer bet, the model uses the exact value: `Math.floor(bet * 0.2) == bet / 5`, and `winProbability + lossProbability` is 0.95.
- **Large seeds.** Both generators multiply the state by a constant, in doubles:
  - the LCG step is `seed * 9301 + 49297`;
  - the Park–Miller step is `value * 16807`.
  Above 2^53 such a product is rounded. The screens seed every game with `Date.now()`, about 1.76e12. So the first product of both generators (about 1.6e16 and 3e16) is rounded in every real game. The model multiplies exactly. The lemmas that describe a round by its seed describe the exact product, not the double the program computes:
  - `Blackjack.GameFails`, `Slots.GameFails`;
  - `Roulette.GameSpin`;
  - `JewelMining.GameFails`, `JewelMining.GameGrid`, `JewelMining.GameNoBombs`;
  - the "from −5 up" of `PaiGow.GameSettlement`.
  Every round the program plays is the model's round for a seed with the same first state. Every later product stays below 2^53, because the states are below the moduli.
- **Generator period.** The full period of both generators is not proved. The loops that redraw until something new appears get a budget of draws (`fuel`, one generator period for Math Challenge), and running out is `NoTermination`. These loops are the bomb placement and the wrong-answer loop. For Jewel Mining with a live seed, the model does not prove that the bomb loop always ends; `Play` takes the budget as a parameter.
- **`undefined` entries.**
  - A Pai Gow seed whose first LCG state is negative (possible only for seeds of −6 or below) gives a negative swap index, and the shuffle would then store `undefined` in the deck. The model returns `NotModelled`.
  - Jewel Mining's writes to `grid[-k]` for negative bomb positions create properties that are not cells. The model drops them (`JewelMining.GameNoBombs`).
- MathChallenge.Game: a seed whose first LCG state is negative (possible only for seeds of −6 or below) makes the whole round `Err(NotModelled)`, from the choice of question to the grading. The source goes on:
  - `operations[random.nextInt(...)]` is `undefined` (MathChallengeEngine.ts:181, 206), so the `else` branch runs on negative operands;
  - the option shuffle draws negative indices;
  - the grading never reads the options, so wherever the option loops end the round has a result. This model does not give it.
- **Non-integer inputs.** Bets, amounts and answers are integers, and times and time limits are reals. The source's `typeof` and `isNaN` checks hold for these. A negative zero is not distinguished from zero.
- **Question text.** The question string is left out; a question is modelled by its numbers and operation.
- **Unused code.** The unused generator of Math Challenge `play` (MathChallengeEngine.ts:81) and `getQuestionFromAnswer` are left out.
- **Blackjack.** `playerActions` is ignored, as the engine ignores it.
- **Powers.** `Math.pow` is only ever called with an exponent of 2-4. `MathChallenge.MathPow` takes a negative exponent as 0.
- CasinoSlice.GameOutcome: the delta is an integer. A Math Challenge win with no times has a `NaN` delta (`MathChallenge.WinDelta` gives `None`). Passed to `setGameOutcome`, that `NaN` would make the day's `netScreenTimeChange` `NaN` for good. The slice model cannot receive it.
- **Display data.** Only the fields the model states something about are kept. The `displayData` of `GameOutcome` and `GameResult` is left out.
- **PaiGow.EvaluateHand:** the labels of five-card hands (four of a kind, full house, flush and so on) are not modelled. Every five-card hand gets one label, because no comparison or result depends on it.
- **PaiGow.MaxValue:** `Math.max()` of an empty hand is −Infinity, and the model gives 0. The engine never compares an empty hand.
- **PaiGow.ValidateInput:** uses the Pai Gow bounds 15-60. The game table stores them under the key `'pai-gow'`, while the engine reads `GAME_CONFIG.paiGow`. That key is `undefined`, so the source's `validateInput` would throw. It is not called by `play`.
- **Plinko.ValidateInput:** not called by `play`, as in the source.
- **Slice setters.** `setLoading` (in every slice), `setPermissionStatus` and `setDailyUsage` are plain field assignments and are left out.
- **Clock.** `new Date()` and `Date.now()` are parameters.
  - In `dailyLimitsSlice`, the date that `useSpins` reads is also the date its nested `resetDaily` reads.
  - The module-level `today` of the initial states is the constructor's parameter.
- **Shared types.** `temp_expo/src/shared/types` is not part of this model. The user slice uses the shapes of `src/shared/types/index.ts`.
- **Outside the core.** Persistence, the store setup, the screens and the native screen-time service are not part of this model.
