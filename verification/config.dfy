/** The per-game constant table of src/shared/constants/games.ts. */
module GameConfig {

  /** `GameConfig` of src/shared/types/index.ts; probabilities as exact fractions. */
  datatype Config = Config(
    winProbability: real,
    lossProbability: real,
    minScreenTimeDelta: int,
    maxScreenTimeDelta: int,
    dailyCap: int)

  const DAILY_SPINS_FREE: int := 3
  const DAILY_SPINS_PREMIUM: int := 10

  const SLOTS: Config := Config(0.10, 0.85, 5, 60, 120)
  const BLACKJACK: Config := Config(0.42, 0.49, 10, 45, 90)
  const ROULETTE: Config := Config(0.47, 0.53, 5, 120, 180)
  const PLINKO: Config := Config(0.35, 0.65, 10, 80, 150)
  /** Stored under the key 'pai-gow'; the Pai Gow engine looks up `paiGow`. */
  const PAI_GOW: Config := Config(0.40, 0.45, 15, 60, 120)
  const MATH_PROBLEMS: Config := Config(0.60, 0.40, 5, 30, 90)
  const JEWEL_MINING: Config := Config(0.25, 0.75, 10, 100, 200)

  /** `input.bet >= minScreenTimeDelta && input.bet <= maxScreenTimeDelta`. */
  predicate InBounds(c: Config, bet: int) {
    c.minScreenTimeDelta <= bet <= c.maxScreenTimeDelta
  }
}
