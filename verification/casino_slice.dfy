/** casinoSlice.ts: the game session and the day's statistics. The date the
    source reads with `new Date()` is the parameter `today`. */
module CasinoSlice {
  import opened Shared

  /** `GameType`. */
  datatype GameType = SlotsGame | BlackjackGame | RouletteGame | PlinkoGame | PaiGowGame | MathProblemsGame | JewelMiningGame

  /** `GameOutcome` without its display data. */
  datatype GameOutcome = GameOutcome(result: GameResult, screenTimeDelta: int)

  /** `DailyStats`. */
  datatype DailyStats = DailyStats(
    date: string,
    totalGamesPlayed: int,
    totalSpinsUsed: int,
    netScreenTimeChange: int,
    winCount: int,
    lossCount: int,
    pushCount: int)

  /** The statistics of a day with no game yet. */
  function FreshStats(today: string): DailyStats {
    DailyStats(today, 0, 0, 0, 0, 0, 0)
  }

  /** Every game is counted once as a game, once as a spin, and once by its
      result. */
  predicate Consistent(d: DailyStats) {
    d.totalGamesPlayed == d.totalSpinsUsed == d.winCount + d.lossCount + d.pushCount
    && d.winCount >= 0 && d.lossCount >= 0 && d.pushCount >= 0
  }

  /** `setGameOutcome`'s update of the statistics: a new day starts from
      zero, then the game is counted and its delta added. */
  function RecordOutcome(d: DailyStats, outcome: GameOutcome, today: string): (r: DailyStats)
    ensures r.date == today
    ensures Consistent(d) || d.date != today ==> Consistent(r)
  {
    var base := if d.date != today then FreshStats(today) else d;
    var counted := base.(totalGamesPlayed := base.totalGamesPlayed + 1,
                         totalSpinsUsed := base.totalSpinsUsed + 1,
                         netScreenTimeChange := base.netScreenTimeChange + outcome.screenTimeDelta);
    match outcome.result
    case Win => counted.(winCount := counted.winCount + 1)
    case Loss => counted.(lossCount := counted.lossCount + 1)
    case Push => counted.(pushCount := counted.pushCount + 1)
  }

  /** `CasinoState` as a value. */
  datatype Casino = Casino(
    currentGame: Option<GameType>,
    sessionActive: bool,
    lastOutcome: Option<GameOutcome>,
    dailyStats: DailyStats,
    isLoading: bool)
  {
    function StartGame(game: GameType): Casino {
      this.(currentGame := Some(game), sessionActive := true, isLoading := false)
    }

    function EndGame(): Casino {
      this.(currentGame := None, sessionActive := false, isLoading := false)
    }

    function SetGameOutcome(outcome: GameOutcome, today: string): Casino {
      this.(lastOutcome := Some(outcome), dailyStats := RecordOutcome(dailyStats, outcome, today))
    }

    function ResetDailyStats(today: string): Casino {
      this.(dailyStats := FreshStats(today))
    }
  }

  /** `initialState`, on the day the store is created. */
  function Initial(today: string): Casino {
    Casino(None, false, None, FreshStats(today), false)
  }

  /** The slice's state, updated in place by its reducers. */
  class CasinoState {
    var currentGame: Option<GameType>
    var sessionActive: bool
    var lastOutcome: Option<GameOutcome>
    var dailyStats: DailyStats
    var isLoading: bool

    function State(): Casino
      reads this
    {
      Casino(currentGame, sessionActive, lastOutcome, dailyStats, isLoading)
    }

    constructor (today: string)
      ensures State() == Initial(today)
    {
      currentGame := None;
      sessionActive := false;
      lastOutcome := None;
      dailyStats := FreshStats(today);
      isLoading := false;
    }

    method StartGame(game: GameType)
      modifies this
      ensures State() == old(State()).StartGame(game)
    {
      currentGame := Some(game);
      sessionActive := true;
      isLoading := false;
    }

    method EndGame()
      modifies this
      ensures State() == old(State()).EndGame()
    {
      currentGame := None;
      sessionActive := false;
      isLoading := false;
    }

    method SetGameOutcome(outcome: GameOutcome, today: string)
      modifies this
      ensures State() == old(State()).SetGameOutcome(outcome, today)
    {
      lastOutcome := Some(outcome);
      if dailyStats.date != today {
        dailyStats := FreshStats(today);
      }
      dailyStats := dailyStats.(totalGamesPlayed := dailyStats.totalGamesPlayed + 1);
      dailyStats := dailyStats.(totalSpinsUsed := dailyStats.totalSpinsUsed + 1);
      dailyStats := dailyStats.(netScreenTimeChange := dailyStats.netScreenTimeChange + outcome.screenTimeDelta);
      match outcome.result {
        case Win => dailyStats := dailyStats.(winCount := dailyStats.winCount + 1);
        case Loss => dailyStats := dailyStats.(lossCount := dailyStats.lossCount + 1);
        case Push => dailyStats := dailyStats.(pushCount := dailyStats.pushCount + 1);
      }
    }

    method ResetDailyStats(today: string)
      modifies this
      ensures State() == old(State()).ResetDailyStats(today)
    {
      dailyStats := FreshStats(today);
    }
  }

  // ---------------------------------------------------------------------------
  // Properties of the reducers
  // ---------------------------------------------------------------------------

  /** The counters agree at the start of a day, after a reset, and after
      every recorded outcome. */
  lemma ConsistentAlways(c: Casino, outcome: GameOutcome, today: string)
    requires Consistent(c.dailyStats)
    ensures Consistent(Initial(today).dailyStats)
    ensures Consistent(c.ResetDailyStats(today).dailyStats)
    ensures Consistent(c.SetGameOutcome(outcome, today).dailyStats)
  {
  }

  /** On the same day an outcome adds one game and one spin, one to the
      count of its result and none to the others, and its delta to the net
      change. */
  lemma SameDayOutcome(d: DailyStats, outcome: GameOutcome, today: string)
    requires d.date == today
    ensures var r := RecordOutcome(d, outcome, today);
      && r.date == today
      && r.totalGamesPlayed == d.totalGamesPlayed + 1
      && r.totalSpinsUsed == d.totalSpinsUsed + 1
      && r.netScreenTimeChange == d.netScreenTimeChange + outcome.screenTimeDelta
      && r.winCount == d.winCount + (if outcome.result == Win then 1 else 0)
      && r.lossCount == d.lossCount + (if outcome.result == Loss then 1 else 0)
      && r.pushCount == d.pushCount + (if outcome.result == Push then 1 else 0)
  {
  }

  /** The first outcome of a new day leaves one game, counted by its
      result, with its delta as the whole net change. */
  lemma NewDayOutcome(d: DailyStats, outcome: GameOutcome, today: string)
    requires d.date != today
    ensures var r := RecordOutcome(d, outcome, today);
      && r.date == today && r.totalGamesPlayed == 1 && r.totalSpinsUsed == 1
      && r.netScreenTimeChange == outcome.screenTimeDelta
      && r.winCount + r.lossCount + r.pushCount == 1
  {
  }

  /** Recording an outcome keeps it as the last one and leaves the session
      alone. */
  lemma OutcomeKeepsSession(c: Casino, outcome: GameOutcome, today: string)
    ensures var r := c.SetGameOutcome(outcome, today);
      r.lastOutcome == Some(outcome) && r.currentGame == c.currentGame
      && r.sessionActive == c.sessionActive && r.isLoading == c.isLoading
  {
  }

  /** Starting and ending a game set the session, clear the loading flag,
      and leave the statistics and the last outcome alone. */
  lemma SessionKeepsStats(c: Casino, game: GameType)
    ensures var r := c.StartGame(game);
      r.currentGame == Some(game) && r.sessionActive && !r.isLoading
      && r.dailyStats == c.dailyStats && r.lastOutcome == c.lastOutcome
    ensures var r := c.EndGame();
      r.currentGame == None && !r.sessionActive && !r.isLoading
      && r.dailyStats == c.dailyStats && r.lastOutcome == c.lastOutcome
  {
  }
}
