/** dailyLimitsSlice.ts: the free and premium daily spin allowance. The
    date the source reads with `new Date()` is the parameter `today`, an ISO
    day string compared as a whole. */
module DailyLimitsSlice {
  import opened GameConfig

  /** `DailyLimitsState` as a value. */
  datatype Limits = Limits(
    spinsRemaining: int,
    gamesPlayedToday: int,
    lastResetDate: string,
    isLoading: bool)
  {
    /** `resetDaily`: a fresh allowance for the day, by subscription. */
    function ResetDaily(isSubscribed: bool, today: string): Limits {
      this.(spinsRemaining := if isSubscribed then DAILY_SPINS_PREMIUM else DAILY_SPINS_FREE,
            gamesPlayedToday := 0,
            lastResetDate := today)
    }

    /** `useSpins`: move up to n spins to the games played, then, on a new
        day, reset to the free allowance. */
    function UseSpins(n: int, today: string): Limits {
      var spinsToUse := if n <= spinsRemaining then n else spinsRemaining;
      var used := this.(spinsRemaining := spinsRemaining - spinsToUse,
                        gamesPlayedToday := gamesPlayedToday + spinsToUse);
      if today != used.lastResetDate then used.ResetDaily(false, today) else used
    }

    /** `updateSpinsForSubscription`: an upgrade tops the allowance up by the
        difference of the two tiers, a downgrade caps it at the free tier. */
    function UpdateSpinsForSubscription(isSubscribed: bool): Limits {
      var maxSpins := if isSubscribed then DAILY_SPINS_PREMIUM else DAILY_SPINS_FREE;
      if isSubscribed && spinsRemaining < maxSpins then
        var usedSpins := DAILY_SPINS_FREE - spinsRemaining;
        this.(spinsRemaining := maxSpins - usedSpins)
      else if !isSubscribed && spinsRemaining > DAILY_SPINS_FREE then
        this.(spinsRemaining := DAILY_SPINS_FREE)
      else this
    }

    /** `checkAndResetIfNewDay`. */
    function CheckAndResetIfNewDay(isSubscribed: bool, today: string): Limits {
      if today != lastResetDate then ResetDaily(isSubscribed, today) else this
    }
  }

  /** `initialState`, on the day the store is created. */
  function Initial(today: string): Limits {
    Limits(DAILY_SPINS_FREE, 0, today, false)
  }

  /** The slice's state, updated in place by its reducers. */
  class DailyLimitsState {
    var spinsRemaining: int
    var gamesPlayedToday: int
    var lastResetDate: string
    var isLoading: bool

    function State(): Limits
      reads this
    {
      Limits(spinsRemaining, gamesPlayedToday, lastResetDate, isLoading)
    }

    constructor (today: string)
      ensures State() == Initial(today)
    {
      spinsRemaining := DAILY_SPINS_FREE;
      gamesPlayedToday := 0;
      lastResetDate := today;
      isLoading := false;
    }

    method UseSpins(n: int, today: string)
      modifies this
      ensures State() == old(State()).UseSpins(n, today)
    {
      var spinsToUse := if n <= spinsRemaining then n else spinsRemaining;
      spinsRemaining := spinsRemaining - spinsToUse;
      gamesPlayedToday := gamesPlayedToday + spinsToUse;
      if today != lastResetDate {
        ResetDaily(false, today);
      }
    }

    method ResetDaily(isSubscribed: bool, today: string)
      modifies this
      ensures State() == old(State()).ResetDaily(isSubscribed, today)
    {
      spinsRemaining := if isSubscribed then DAILY_SPINS_PREMIUM else DAILY_SPINS_FREE;
      gamesPlayedToday := 0;
      lastResetDate := today;
    }

    method UpdateSpinsForSubscription(isSubscribed: bool)
      modifies this
      ensures State() == old(State()).UpdateSpinsForSubscription(isSubscribed)
    {
      var maxSpins := if isSubscribed then DAILY_SPINS_PREMIUM else DAILY_SPINS_FREE;
      if isSubscribed && spinsRemaining < maxSpins {
        var currentMax := DAILY_SPINS_FREE;
        var usedSpins := currentMax - spinsRemaining;
        spinsRemaining := maxSpins - usedSpins;
      } else if !isSubscribed && spinsRemaining > DAILY_SPINS_FREE {
        spinsRemaining := DAILY_SPINS_FREE;
      }
    }

    method CheckAndResetIfNewDay(isSubscribed: bool, today: string)
      modifies this
      ensures State() == old(State()).CheckAndResetIfNewDay(isSubscribed, today)
    {
      if today != lastResetDate {
        ResetDaily(isSubscribed, today);
      }
    }
  }

  // ---------------------------------------------------------------------------
  // Properties of the reducers
  // ---------------------------------------------------------------------------

  /** On the same day a request for n >= 0 spins moves min(n, spinsRemaining)
      spins to the games played: their sum is kept, and a non-negative
      allowance stays non-negative. */
  lemma UseSpinsSameDay(s: Limits, n: int, today: string)
    requires s.lastResetDate == today && n >= 0
    ensures var r := s.UseSpins(n, today);
      var moved := if n <= s.spinsRemaining then n else s.spinsRemaining;
      && r.spinsRemaining == s.spinsRemaining - moved
      && r.gamesPlayedToday == s.gamesPlayedToday + moved
      && r.spinsRemaining + r.gamesPlayedToday == s.spinsRemaining + s.gamesPlayedToday
      && (s.spinsRemaining >= 0 ==> 0 <= r.spinsRemaining <= s.spinsRemaining)
      && (s.spinsRemaining >= n ==> r.spinsRemaining == s.spinsRemaining - n)
      && r.lastResetDate == today && r.isLoading == s.isLoading
  {
  }

  /** A negative request is not refused: it adds to the allowance and takes
      from the games played. */
  lemma UseSpinsNegative(s: Limits, n: int, today: string)
    requires s.lastResetDate == today && n < 0 && n <= s.spinsRemaining
    ensures var r := s.UseSpins(n, today);
      r.spinsRemaining == s.spinsRemaining - n > s.spinsRemaining
      && r.gamesPlayedToday == s.gamesPlayedToday + n < s.gamesPlayedToday
  {
  }

  /** On a new day any request ends in the free allowance, whatever the
      subscription: three spins, no games, the new date. */
  lemma UseSpinsNewDay(s: Limits, n: int, today: string)
    requires s.lastResetDate != today
    ensures s.UseSpins(n, today) == s.(spinsRemaining := 3, gamesPlayedToday := 0, lastResetDate := today)
  {
  }

  /** A reset gives ten spins with a subscription and three without, no
      games, and the reset date; the loading flag is kept. */
  lemma ResetDailyAllowance(s: Limits, isSubscribed: bool, today: string)
    ensures var r := s.ResetDaily(isSubscribed, today);
      && r.spinsRemaining == (if isSubscribed then 10 else 3)
      && r.gamesPlayedToday == 0 && r.lastResetDate == today && r.isLoading == s.isLoading
  {
  }

  /** An upgrade below ten spins adds seven (ten less the three of the free
      tier already counted); at ten or more it does nothing. Only the
      allowance changes. */
  lemma UpgradeAddsSeven(s: Limits)
    ensures var r := s.UpdateSpinsForSubscription(true);
      && (s.spinsRemaining < 10 ==> r.spinsRemaining == s.spinsRemaining + 7)
      && (s.spinsRemaining >= 10 ==> r == s)
      && r == s.(spinsRemaining := r.spinsRemaining)
  {
  }

  /** Upgrading twice from fewer than three spins adds seven twice: the
      upgrade is not idempotent. */
  lemma UpgradeNotIdempotent(s: Limits)
    requires s.spinsRemaining < 3
    ensures var once := s.UpdateSpinsForSubscription(true);
      var twice := once.UpdateSpinsForSubscription(true);
      twice.spinsRemaining == s.spinsRemaining + 14 && twice != once
  {
  }

  /** A downgrade caps the allowance at three and changes nothing else. */
  lemma DowngradeCaps(s: Limits)
    ensures var r := s.UpdateSpinsForSubscription(false);
      && r.spinsRemaining == (if s.spinsRemaining > 3 then 3 else s.spinsRemaining)
      && r == s.(spinsRemaining := r.spinsRemaining)
  {
  }

  /** The day check does nothing on the day of the last reset, resets on any
      other day, and a second check the same day does nothing. */
  lemma CheckAndResetIdempotent(s: Limits, isSubscribed: bool, today: string)
    ensures s.lastResetDate == today ==> s.CheckAndResetIfNewDay(isSubscribed, today) == s
    ensures s.lastResetDate != today ==>
      s.CheckAndResetIfNewDay(isSubscribed, today) == s.ResetDaily(isSubscribed, today)
    ensures var once := s.CheckAndResetIfNewDay(isSubscribed, today);
      once.lastResetDate == today
      && once.CheckAndResetIfNewDay(isSubscribed, today) == once
  {
  }
}
