/** temp_expo/src/infrastructure/storage/slices/userSlice.ts: the signed-in
    profile, the bounded game history and the preferences. */
module UserSlice {
  import Shared
  import CasinoSlice

  /** `UserProfile`. */
  datatype UserProfile = UserProfile(
    id: string,
    email: string,
    createdAt: int,
    isSubscribed: bool,
    subscriptionExpiry: Shared.Option<int>)

  /** `GameResult` of the shared types, without its display data. */
  datatype GameResult = GameResult(
    id: string,
    timestamp: int,
    gameType: CasinoSlice.GameType,
    outcome: Shared.GameResult,
    screenTimeDelta: int,
    betAmount: int)

  datatype Preferences = Preferences(soundEnabled: bool, vibrationsEnabled: bool, darkModeEnabled: bool)

  /** `Partial<preferences>`: a key is either present with a value or absent. */
  datatype PreferencesPatch = PreferencesPatch(
    soundEnabled: Shared.Option<bool>,
    vibrationsEnabled: Shared.Option<bool>,
    darkModeEnabled: Shared.Option<bool>)

  /** How many games the history keeps. */
  const HISTORY_LIMIT: nat := 100

  /** `{ ...preferences, ...patch }`. */
  function Merge(p: Preferences, patch: PreferencesPatch): (r: Preferences)
    ensures patch == PreferencesPatch(Shared.None, Shared.None, Shared.None) ==> r == p
  {
    Preferences(
      if patch.soundEnabled.Some? then patch.soundEnabled.get else p.soundEnabled,
      if patch.vibrationsEnabled.Some? then patch.vibrationsEnabled.get else p.vibrationsEnabled,
      if patch.darkModeEnabled.Some? then patch.darkModeEnabled.get else p.darkModeEnabled)
  }

  /** `addGameResult` on the history: the new game first, then the newest
      games up to the limit. */
  function Prepend(history: seq<GameResult>, game: GameResult): (r: seq<GameResult>)
    ensures 1 <= |r| <= HISTORY_LIMIT && r[0] == game
  {
    var h := [game] + history;
    if |h| > HISTORY_LIMIT then h[..HISTORY_LIMIT] else h
  }

  /** `UserState` as a value. */
  datatype User = User(
    profile: Shared.Option<UserProfile>,
    gameHistory: seq<GameResult>,
    isAuthenticated: bool,
    isLoading: bool,
    preferences: Preferences)
  {
    function SetProfile(p: UserProfile): User {
      this.(profile := Shared.Some(p), isAuthenticated := true)
    }

    function ClearProfile(): User {
      this.(profile := Shared.None, isAuthenticated := false, gameHistory := [])
    }

    function AddGameResult(game: GameResult): User {
      this.(gameHistory := Prepend(gameHistory, game))
    }

    function SetGameHistory(history: seq<GameResult>): User {
      this.(gameHistory := history)
    }

    function UpdatePreferences(patch: PreferencesPatch): User {
      this.(preferences := Merge(preferences, patch))
    }

    /** `if (state.profile)`: only a signed-in profile is updated; an absent
        expiry is written as absent. */
    function UpdateSubscriptionStatus(isSubscribed: bool, subscriptionExpiry: Shared.Option<int>): User {
      match profile
      case None => this
      case Some(p) => this.(profile := Shared.Some(p.(isSubscribed := isSubscribed, subscriptionExpiry := subscriptionExpiry)))
    }
  }

  const INITIAL: User := User(Shared.None, [], false, false, Preferences(true, true, false))

  class UserState {
    var profile: Shared.Option<UserProfile>
    var gameHistory: seq<GameResult>
    var isAuthenticated: bool
    var isLoading: bool
    var preferences: Preferences

    function State(): User
      reads this
    {
      User(profile, gameHistory, isAuthenticated, isLoading, preferences)
    }

    constructor ()
      ensures State() == INITIAL
    {
      profile := Shared.None;
      gameHistory := [];
      isAuthenticated := false;
      isLoading := false;
      preferences := Preferences(true, true, false);
    }

    method SetProfile(p: UserProfile)
      modifies this
      ensures State() == old(State()).SetProfile(p)
    {
      profile := Shared.Some(p);
      isAuthenticated := true;
    }

    method ClearProfile()
      modifies this
      ensures State() == old(State()).ClearProfile()
    {
      profile := Shared.None;
      isAuthenticated := false;
      gameHistory := [];
    }

    method AddGameResult(game: GameResult)
      modifies this
      ensures State() == old(State()).AddGameResult(game)
    {
      gameHistory := [game] + gameHistory;
      if |gameHistory| > HISTORY_LIMIT {
        gameHistory := gameHistory[..HISTORY_LIMIT];
      }
    }

    method SetGameHistory(history: seq<GameResult>)
      modifies this
      ensures State() == old(State()).SetGameHistory(history)
    {
      gameHistory := history;
    }

    method UpdatePreferences(patch: PreferencesPatch)
      modifies this
      ensures State() == old(State()).UpdatePreferences(patch)
    {
      preferences := Merge(preferences, patch);
    }

    method UpdateSubscriptionStatus(isSubscribed: bool, subscriptionExpiry: Shared.Option<int>)
      modifies this
      ensures State() == old(State()).UpdateSubscriptionStatus(isSubscribed, subscriptionExpiry)
    {
      if profile.Some? {
        profile := Shared.Some(profile.get.(isSubscribed := isSubscribed));
        profile := Shared.Some(profile.get.(subscriptionExpiry := subscriptionExpiry));
      }
    }
  }

  // ---------------------------------------------------------------------------
  // Properties of the reducers
  // ---------------------------------------------------------------------------

  /** A new game goes to the front and the older games follow in order; the
      history never holds more than 100 games afterwards, whatever it held
      before, and it grows by one until it reaches 100. */
  lemma PrependBounded(history: seq<GameResult>, game: GameResult)
    ensures var r := Prepend(history, game);
      && |r| == (if |history| + 1 > 100 then 100 else |history| + 1)
      && |r| <= 100
      && r[0] == game
      && r[1..] == history[..|r| - 1]
  {
  }

  /** The history reads newest first: two games added in turn lead it in
      reverse order. */
  lemma PrependNewestFirst(history: seq<GameResult>, first: GameResult, second: GameResult)
    ensures var r := Prepend(Prepend(history, first), second);
      r[0] == second && r[1] == first
  {
  }

  /** Signing out clears the profile, the authentication and the history,
      and keeps the preferences; signing in stores the profile and keeps the
      history. */
  lemma SignInAndOut(u: User, p: UserProfile)
    ensures var out := u.ClearProfile();
      out.profile.None? && !out.isAuthenticated && out.gameHistory == []
      && out.preferences == u.preferences && out.isLoading == u.isLoading
    ensures var signedIn := u.SetProfile(p);
      signedIn.profile == Shared.Some(p) && signedIn.isAuthenticated
      && signedIn.gameHistory == u.gameHistory && signedIn.preferences == u.preferences
  {
  }

  /** A subscription change without a profile does nothing; with one it
      sets the two subscription fields and keeps the profile's identity. */
  lemma SubscriptionNeedsProfile(u: User, isSubscribed: bool, subscriptionExpiry: Shared.Option<int>)
    ensures var r := u.UpdateSubscriptionStatus(isSubscribed, subscriptionExpiry);
      && (u.profile.None? ==> r == u)
      && (u.profile.Some? ==>
            r.profile.Some? && r.profile.get.isSubscribed == isSubscribed
            && r.profile.get.subscriptionExpiry == subscriptionExpiry
            && r.profile.get.id == u.profile.get.id && r.profile.get.email == u.profile.get.email
            && r.profile.get.createdAt == u.profile.get.createdAt
            && r.gameHistory == u.gameHistory && r.isAuthenticated == u.isAuthenticated
            && r.preferences == u.preferences && r.isLoading == u.isLoading)
  {
  }

  /** Every reducer but `setGameHistory` keeps the history within 100
      games; adding a game brings any history back within the bound. */
  lemma HistoryBound(u: User, p: UserProfile, game: GameResult, patch: PreferencesPatch, isSubscribed: bool,
                     expiry: Shared.Option<int>)
    requires |u.gameHistory| <= HISTORY_LIMIT
    ensures |INITIAL.gameHistory| <= HISTORY_LIMIT
    ensures |u.SetProfile(p).gameHistory| <= HISTORY_LIMIT
    ensures |u.ClearProfile().gameHistory| <= HISTORY_LIMIT
    ensures |u.UpdatePreferences(patch).gameHistory| <= HISTORY_LIMIT
    ensures |u.UpdateSubscriptionStatus(isSubscribed, expiry).gameHistory| <= HISTORY_LIMIT
    ensures forall v: User :: |v.AddGameResult(game).gameHistory| <= HISTORY_LIMIT
  {
  }

  /** A patch overwrites exactly the keys it holds; an empty patch changes
      nothing, and merging twice is merging once. */
  lemma MergeOnlyPresentKeys(p: Preferences, patch: PreferencesPatch)
    ensures var r := Merge(p, patch);
      && (patch.soundEnabled.Some? ==> r.soundEnabled == patch.soundEnabled.get)
      && (patch.soundEnabled.None? ==> r.soundEnabled == p.soundEnabled)
      && (patch.vibrationsEnabled.Some? ==> r.vibrationsEnabled == patch.vibrationsEnabled.get)
      && (patch.vibrationsEnabled.None? ==> r.vibrationsEnabled == p.vibrationsEnabled)
      && (patch.darkModeEnabled.Some? ==> r.darkModeEnabled == patch.darkModeEnabled.get)
      && (patch.darkModeEnabled.None? ==> r.darkModeEnabled == p.darkModeEnabled)
      && Merge(r, patch) == r
  {
  }
}
