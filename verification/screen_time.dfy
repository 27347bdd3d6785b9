/** screenTimeSlice.ts: the per-app limits and the day's usage. The clock
    the source reads with `Date.now()` is the parameter `now`. */
module ScreenTimeSlice {

  /** `AppScreenTime`. */
  datatype AppScreenTime = AppScreenTime(
    bundleId: string,
    appName: string,
    baselineMinutes: int,
    currentLimit: int,
    todayUsage: int,
    lastModified: int)

  datatype PermissionStatus = Granted | Denied | NotDetermined

  // ---------------------------------------------------------------------------
  // Lists of apps
  // ---------------------------------------------------------------------------

  /** `apps.findIndex(app => app.bundleId === bundleId)`: the first index
      with that bundle id, or -1. */
  function FirstIndex(apps: seq<AppScreenTime>, bundleId: string): (k: int)
    ensures -1 <= k < |apps|
    ensures k == -1 <==> forall j :: 0 <= j < |apps| ==> apps[j].bundleId != bundleId
    ensures k >= 0 ==> apps[k].bundleId == bundleId && forall j :: 0 <= j < k ==> apps[j].bundleId != bundleId
    decreases |apps|
  {
    if apps == [] then -1
    else if apps[0].bundleId == bundleId then 0
    else
      var k := FirstIndex(apps[1..], bundleId);
      if k == -1 then -1 else k + 1
  }

  /** The same search as a loop, as `find` and `findIndex` run it. */
  method FindIndex(apps: seq<AppScreenTime>, bundleId: string) returns (k: int)
    ensures k == FirstIndex(apps, bundleId)
  {
    k := 0;
    while k < |apps|
      invariant 0 <= k <= |apps|
      invariant forall j :: 0 <= j < k ==> apps[j].bundleId != bundleId
    {
      if apps[k].bundleId == bundleId {
        return;
      }
      k := k + 1;
    }
    k := -1;
  }

  /** `apps.filter(app => app.bundleId !== bundleId)`. */
  function Without(apps: seq<AppScreenTime>, bundleId: string): (r: seq<AppScreenTime>)
    ensures |r| <= |apps|
    ensures forall k :: 0 <= k < |r| ==> r[k].bundleId != bundleId
    decreases |apps|
  {
    if apps == [] then []
    else
      var last := apps[|apps| - 1];
      Without(apps[..|apps| - 1], bundleId) + if last.bundleId != bundleId then [last] else []
  }

  /** No two entries share a bundle id. */
  predicate UniqueIds(apps: seq<AppScreenTime>) {
    forall i, j :: 0 <= i < j < |apps| ==> apps[i].bundleId != apps[j].bundleId
  }

  /** The filter keeps exactly the entries with another bundle id. */
  lemma {:induction false} WithoutMembers(apps: seq<AppScreenTime>, bundleId: string)
    ensures forall a :: a in Without(apps, bundleId) <==> a in apps && a.bundleId != bundleId
    decreases |apps|
  {
    if apps != [] {
      var init := apps[..|apps| - 1];
      WithoutMembers(init, bundleId);
      assert apps == init + [apps[|apps| - 1]];
    }
  }

  /** The filter works piece by piece, so it keeps the order of the entries
      it keeps. */
  lemma {:induction false} WithoutConcat(a: seq<AppScreenTime>, b: seq<AppScreenTime>, bundleId: string)
    ensures Without(a + b, bundleId) == Without(a, bundleId) + Without(b, bundleId)
    decreases |b|
  {
    if b != [] {
      var init := b[..|b| - 1];
      assert (a + b)[..|a + b| - 1] == a + init;
      WithoutConcat(a, init, bundleId);
    } else {
      assert a + b == a;
    }
  }

  /** A list with no entry for the bundle id passes the filter unchanged. */
  lemma {:induction false} WithoutAbsent(apps: seq<AppScreenTime>, bundleId: string)
    requires forall j :: 0 <= j < |apps| ==> apps[j].bundleId != bundleId
    ensures Without(apps, bundleId) == apps
    decreases |apps|
  {
    if apps != [] {
      WithoutAbsent(apps[..|apps| - 1], bundleId);
    }
  }

  /** `removeApp`'s filter as a loop. */
  method Filter(apps: seq<AppScreenTime>, bundleId: string) returns (kept: seq<AppScreenTime>)
    ensures kept == Without(apps, bundleId)
  {
    kept := [];
    for i := 0 to |apps|
      invariant kept == Without(apps[..i], bundleId)
    {
      assert apps[..i + 1][..i] == apps[..i];
      if apps[i].bundleId != bundleId {
        kept := kept + [apps[i]];
      }
    }
    assert apps[..|apps|] == apps;
  }

  /** `updateAppLimit` on the list. */
  function UpdateLimit(apps: seq<AppScreenTime>, bundleId: string, newLimit: int, now: int): (r: seq<AppScreenTime>)
    ensures |r| == |apps|
    ensures forall k :: 0 <= k < |r| ==> r[k].bundleId == apps[k].bundleId
  {
    var k := FirstIndex(apps, bundleId);
    if k >= 0 then apps[k := apps[k].(currentLimit := newLimit, lastModified := now)] else apps
  }

  /** `addApp` on the list. */
  function AddTo(apps: seq<AppScreenTime>, app: AppScreenTime): (r: seq<AppScreenTime>)
    ensures app in r
    ensures forall a :: a in apps && a.bundleId != app.bundleId ==> a in r
  {
    var k := FirstIndex(apps, app.bundleId);
    if k >= 0 then
      var r := apps[k := app];
      assert r[k] == app;
      assert forall j :: 0 <= j < |apps| && j != k ==> r[j] == apps[j];
      r
    else
      assert (apps + [app])[|apps|] == app;
      apps + [app]
  }

  // ---------------------------------------------------------------------------
  // The slice
  // ---------------------------------------------------------------------------

  /** `ScreenTimeState` as a value. */
  datatype ScreenTime = ScreenTime(
    currentLimits: seq<AppScreenTime>,
    dailyUsage: map<string, int>,
    lastSync: int,
    isLoading: bool,
    permissionStatus: PermissionStatus)

  const INITIAL: ScreenTime := ScreenTime([], map[], 0, false, NotDetermined)

  class ScreenTimeState {
    var currentLimits: seq<AppScreenTime>
    var dailyUsage: map<string, int>
    var lastSync: int
    var isLoading: bool
    var permissionStatus: PermissionStatus

    function State(): ScreenTime
      reads this
    {
      ScreenTime(currentLimits, dailyUsage, lastSync, isLoading, permissionStatus)
    }

    constructor ()
      ensures State() == INITIAL
    {
      currentLimits := [];
      dailyUsage := map[];
      lastSync := 0;
      isLoading := false;
      permissionStatus := NotDetermined;
    }

    method SetCurrentLimits(limits: seq<AppScreenTime>, now: int)
      modifies this
      ensures State() == old(State()).(currentLimits := limits, lastSync := now)
    {
      currentLimits := limits;
      lastSync := now;
    }

    method UpdateAppLimit(bundleId: string, newLimit: int, now: int)
      modifies this
      ensures State() == old(State()).(currentLimits := UpdateLimit(old(currentLimits), bundleId, newLimit, now))
    {
      var k := FindIndex(currentLimits, bundleId);
      if k >= 0 {
        var app := currentLimits[k];
        currentLimits := currentLimits[k := app.(currentLimit := newLimit)];
        currentLimits := currentLimits[k := currentLimits[k].(lastModified := now)];
      }
    }

    method UpdateDailyUsage(bundleId: string, usage: int)
      modifies this
      ensures State() == old(State()).(dailyUsage := old(dailyUsage)[bundleId := usage])
    {
      dailyUsage := dailyUsage[bundleId := usage];
    }

    method AddApp(app: AppScreenTime)
      modifies this
      ensures State() == old(State()).(currentLimits := AddTo(old(currentLimits), app))
    {
      var existingIndex := FindIndex(currentLimits, app.bundleId);
      if existingIndex >= 0 {
        currentLimits := currentLimits[existingIndex := app];
      } else {
        currentLimits := currentLimits + [app];
      }
    }

    method RemoveApp(bundleId: string)
      modifies this
      ensures State() == old(State()).(currentLimits := Without(old(currentLimits), bundleId))
    {
      currentLimits := Filter(currentLimits, bundleId);
    }
  }

  // ---------------------------------------------------------------------------
  // Properties of the reducers
  // ---------------------------------------------------------------------------

  /** A new limit changes only the first app with the bundle id, and only its
      limit and modification time; with no such app nothing changes. */
  lemma UpdateLimitOnlyFirst(apps: seq<AppScreenTime>, bundleId: string, newLimit: int, now: int)
    ensures var r := UpdateLimit(apps, bundleId, newLimit, now);
      var k := FirstIndex(apps, bundleId);
      && |r| == |apps|
      && (k == -1 ==> r == apps)
      && (k >= 0 ==> r[k] == apps[k].(currentLimit := newLimit, lastModified := now)
                     && forall j :: 0 <= j < |apps| && j != k ==> r[j] == apps[j])
  {
  }

  /** Adding an app replaces the first entry with its bundle id in place, or
      else appends it: the list grows by at most one, holds the app, and
      keeps bundle ids unique. */
  lemma AddAppReplacesOrAppends(apps: seq<AppScreenTime>, app: AppScreenTime)
    ensures var r := AddTo(apps, app);
      var k := FirstIndex(apps, app.bundleId);
      && (k >= 0 ==> |r| == |apps| && r[k] == app && forall j :: 0 <= j < |apps| && j != k ==> r[j] == apps[j])
      && (k == -1 ==> r == apps + [app])
      && |apps| <= |r| <= |apps| + 1 && app in r
      && (UniqueIds(apps) ==> UniqueIds(r))
  {
    var r := AddTo(apps, app);
    var k := FirstIndex(apps, app.bundleId);
    if UniqueIds(apps) {
      forall i, j | 0 <= i < j < |r| ensures r[i].bundleId != r[j].bundleId {
        if k == -1 && j == |apps| {
          assert r[i] == apps[i];
        }
      }
    }
  }

  /** Removing an app drops every entry with its bundle id and keeps the
      others in their order. */
  lemma RemoveAppKeepsOthers(apps: seq<AppScreenTime>, bundleId: string, a: seq<AppScreenTime>, x: AppScreenTime, b: seq<AppScreenTime>)
    ensures forall e :: e in Without(apps, bundleId) <==> e in apps && e.bundleId != bundleId
    ensures apps == a + [x] + b && x.bundleId != bundleId ==>
      Without(apps, bundleId) == Without(a, bundleId) + [x] + Without(b, bundleId)
  {
    WithoutMembers(apps, bundleId);
    if apps == a + [x] + b && x.bundleId != bundleId {
      WithoutConcat(a + [x], b, bundleId);
      WithoutConcat(a, [x], bundleId);
      WithoutAbsent([x], bundleId);
    }
  }

  /** Recording usage sets one key and no other. */
  lemma UsageSetsOneKey(usage: map<string, int>, bundleId: string, value: int)
    ensures var r := usage[bundleId := value];
      bundleId in r && r[bundleId] == value
      && forall k :: k != bundleId ==> (k in r <==> k in usage) && (k in usage ==> r[k] == usage[k])
  {
  }
}
