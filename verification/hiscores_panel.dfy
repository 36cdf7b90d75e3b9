/** The non-visual logic of the side panel, `HiscoresPanel`: the timeframe
    table, the day-offset navigation of the daily view, the request-generation
    counter that discards stale background results, the baseline choice of the
    daily view, the player selector's restore rule, and the small string rules
    for row keys, labels and gain visibility. Widgets, layout, sprites and
    tooltips are not modelled; a background task is a request value handed
    back to the caller, a worker method that computes its result, and an
    apply method that the event thread runs with that result. */
module Panel {
  import opened Base
  import opened Text
  import opened Stats
  import opened Gains
  import opened Store
  import opened Config
  import opened Client

  /** Configuration key under which the last selected player is remembered. */
  const LastPlayerKey: string := "lastSelectedPlayer"

  /** The items of the timeframe selector, the first one selected initially. */
  const Timeframes: seq<string> := ["Today", "Week", "Month", "Year"]

  // ---------------------------------------------------------------------------
  // Pure helpers
  // ---------------------------------------------------------------------------

  /** `getTimeframeDays`: how many days back a timeframe's baseline lies. */
  function TimeframeDays(timeframe: string): (days: int)
    ensures days in {0, 7, 30, 365}
    ensures days == 0 <==> timeframe == "Today"
  {
    match timeframe
    case "Today" => 0
    case "Week" => 7
    case "Month" => 30
    case "Year" => 365
    case _ => 7
  }

  /** The four selector items map to four different look-back periods, and
      any other text falls back to a week. */
  lemma TimeframeTable(t: string)
    ensures [TimeframeDays(Timeframes[0]), TimeframeDays(Timeframes[1]),
             TimeframeDays(Timeframes[2]), TimeframeDays(Timeframes[3])] == [0, 7, 30, 365]
    ensures t !in Timeframes ==> TimeframeDays(t) == 7
  {
  }

  /** `capitalize`: `None` (Java `null`) and the empty string come back
      unchanged; otherwise only the first character is upper-cased. */
  function Capitalize(s: Option<string>): (r: Option<string>)
    ensures r.None? <==> s.None?
    ensures s.Some? ==> |r.value| == |s.value|
    ensures s.Some? && s.value != [] ==>
      r.value[0] == UpperChar(s.value[0]) && r.value[1..] == s.value[1..]
  {
    match s
    case None => None
    case Some(t) => if t == [] then Some(t) else Some([UpperChar(t[0])] + t[1..])
  }

  /** Capitalising twice is capitalising once. */
  lemma CapitalizeIdempotent(s: Option<string>)
    ensures Capitalize(Capitalize(s)) == Capitalize(s)
  {
    if s.Some? && s.value != [] {
      var c := UpperChar(s.value[0]);
      assert UpperChar(c) == c;
      assert Capitalize(s).value == [c] + s.value[1..];
      assert Capitalize(Capitalize(s)).value == [c] + s.value[1..];
    }
  }

  /** The key under which a boss row is filed: lower case, spaces become
      underscores, apostrophes are dropped, hyphens become underscores. */
  function BossKey(name: string): (key: string)
    ensures ' ' !in key && '\'' !in key && '-' !in key
    ensures forall c :: c in key ==> !('A' <= c <= 'Z')
    ensures |key| <= |name|
  {
    var lowered := ReplaceChar(Lower(name), ' ', '_');
    assert forall i :: 0 <= i < |lowered| ==> lowered[i] != ' ' && !('A' <= lowered[i] <= 'Z');
    var removed := RemoveChar(lowered, '\'');
    assert forall i :: 0 <= i < |removed| ==> removed[i] in lowered && removed[i] != '\'';
    ReplaceChar(removed, '-', '_')
  }

  /** The key character of one name character: spaces and hyphens become
      underscores, letters are lower-cased. */
  function KeyCharOf(c: char): char {
    if c == ' ' || c == '-' then '_' else LowerChar(c)
  }

  /** `KeyCharOf` applied to every character. */
  function MapKey(s: string): (r: string)
    ensures |r| == |s|
    ensures forall i :: 0 <= i < |s| ==> r[i] == KeyCharOf(s[i])
  {
    seq(|s|, i requires 0 <= i < |s| => KeyCharOf(s[i]))
  }

  lemma MapKeyAppend(a: string, b: string)
    ensures MapKey(a + b) == MapKey(a) + MapKey(b)
  {
    assert forall i :: 0 <= i < |a + b| ==> MapKey(a + b)[i] == (MapKey(a) + MapKey(b))[i];
  }

  /** The boss key is formed piece by piece. */
  lemma BossKeyAppend(a: string, b: string)
    ensures BossKey(a + b) == BossKey(a) + BossKey(b)
  {
    LowerAppend(a, b);
    var la, lb := ReplaceChar(Lower(a), ' ', '_'), ReplaceChar(Lower(b), ' ', '_');
    ReplaceCharAppend(Lower(a), Lower(b), ' ', '_');
    RemoveCharAppend(la, lb, '\'');
    ReplaceCharAppend(RemoveChar(la, '\''), RemoveChar(lb, '\''), '-', '_');
  }

  /** The key of a single character. */
  lemma BossKeyOne(x: char)
    ensures BossKey([x]) == MapKey(RemoveChar([x], '\''))
  {
  }

  /** The key rule of the boss grid: the name without its apostrophes, each
      remaining character lower-cased and spaces and hyphens turned into
      underscores, in the name's own order. */
  lemma {:induction false} BossKeyRule(name: string)
    ensures BossKey(name) == MapKey(RemoveChar(name, '\''))
    decreases |name|
  {
    if name != [] {
      var x, rest := name[0], name[1..];
      assert name == [x] + rest;
      BossKeyAppend([x], rest);
      BossKeyOne(x);
      BossKeyRule(rest);
      RemoveCharAppend([x], rest, '\'');
      MapKeyAppend(RemoveChar([x], '\''), RemoveChar(rest, '\''));
    }
  }

  /** Characters that `BossKey` leaves alone. */
  predicate KeyChar(c: char) {
    c != ' ' && c != '\'' && c != '-' && !('A' <= c <= 'Z')
  }

  /** A name that is already made of key characters is its own key; in
      particular every key is its own key. */
  lemma {:induction false} BossKeyFixesKeys(s: string)
    requires forall c :: c in s ==> KeyChar(c)
    ensures BossKey(s) == s
  {
    assert Lower(s) == s by {
      assert forall i :: 0 <= i < |s| ==> KeyChar(s[i]);
    }
    assert ReplaceChar(s, ' ', '_') == s by {
      assert forall i :: 0 <= i < |s| ==> KeyChar(s[i]);
    }
    RemoveCharAbsent(s, '\'');
    assert ReplaceChar(s, '-', '_') == s by {
      assert forall i :: 0 <= i < |s| ==> KeyChar(s[i]);
    }
  }

  lemma {:induction false} RemoveCharAbsent(s: string, c: char)
    requires c !in s
    ensures RemoveChar(s, c) == s
  {
    if s != [] {
      assert s[0] != c;
      assert c !in s[1..];
      RemoveCharAbsent(s[1..], c);
      assert s == [s[0]] + s[1..];
    }
  }

  /** Forming a key twice is forming it once. */
  lemma BossKeyIdempotent(name: string)
    ensures BossKey(BossKey(name)) == BossKey(name)
  {
    BossKeyFixesKeys(BossKey(name));
  }

  /** A skill row shows its gain text exactly when the XP gain is non-zero. */
  predicate SkillGainShown(xpGain: Int64) {
    xpGain != 0
  }

  /** A boss, activity or clue row shows its gain text exactly when the gain
      is non-zero and the current score is positive. */
  predicate ScoreGainShown(gain: Int32, score: Int32) {
    gain != 0 && score > 0
  }

  /** What a skill row of the current view shows as gain: nothing for a skill
      the current stats lack (the row is reset to level 1), otherwise the
      recorded XP gain, or none when there are no gains. */
  function ShownSkillGain(stats: Snapshot, gains: Option<Gains>, key: string): (xp: Int64)
    ensures key !in stats.skills ==> xp == 0
    ensures key in stats.skills && gains.None? ==> xp == 0
    ensures key in stats.skills && gains.Some? ==> xp == gains.value.SkillGainOf(key).xpGain
  {
    if key !in stats.skills then 0
    else if gains.Some? then gains.value.SkillGainOf(key).xpGain else 0
  }

  /** What a boss or activity row shows: the score (0 for an absent entry)
      and the recorded score gain (0 without gains). */
  function ShownScore(stats: Snapshot, gains: Option<Gains>, key: string): (r: (Int32, Int32))
    ensures key !in stats.activities ==> r.0 == 0
    ensures key in stats.activities ==> r.0 == stats.activities[key].score
    ensures gains.None? ==> r.1 == 0
    ensures gains.Some? ==> r.1 == gains.value.ActivityGainOf(key)
  {
    (if key in stats.activities then stats.activities[key].score else 0,
     if gains.Some? then gains.value.ActivityGainOf(key) else 0)
  }

  /** A skill the current stats lack never shows a gain, whatever the gains
      record for it (a daily view past today compares two stored snapshots,
      not the current stats). */
  lemma AbsentSkillShowsNoGain(stats: Snapshot, gains: Option<Gains>, key: string)
    requires key !in stats.skills
    ensures !SkillGainShown(ShownSkillGain(stats, gains, key))
  {
  }

  /** An activity the player has no entry for never shows a gain. */
  lemma AbsentActivityShowsNoGain(stats: Snapshot, gains: Option<Gains>, key: string)
    requires key !in stats.activities
    ensures var (score, gain) := ShownScore(stats, gains, key); !ScoreGainShown(gain, score)
  {
  }

  /** Gains computed without a baseline never show any gain text. */
  lemma NoBaselineShowsNothing(stats: Snapshot, current: Snapshot, key: string)
    ensures !SkillGainShown(ShownSkillGain(stats, Some(GainsOf(current, None)), key))
    ensures var (score, gain) := ShownScore(stats, Some(GainsOf(current, None)), key);
      !ScoreGainShown(gain, score)
  {
    NoBaselineAllZero(current, key);
  }

  // ---------------------------------------------------------------------------
  // The daily view's baseline choice
  // ---------------------------------------------------------------------------

  /** The gains the daily view displays and whether it reports that there is
      no baseline for the day. */
  datatype DailyView = DailyView(gains: Gains, noBaseline: bool)

  /** The choice made by the daily worker, from the current stats `snap`, the
      day offset, the snapshot nearest the day's target time and the one
      nearest the day before; `now` stamps the empty stats of a day without
      any snapshot. */
  function DailyGains(snap: Snapshot, dayOffset: nat, dayStats: Option<Snapshot>,
                      nextDayStats: Option<Snapshot>, now: Int64): (v: DailyView)
    ensures v.noBaseline <==> dayStats.None? || (dayOffset != 0 && nextDayStats.None?)
    ensures v.gains.previous.Some?
  {
    if dayOffset == 0 && dayStats.Some? then
      DailyView(GainsOf(snap, dayStats), false)
    else if dayStats.Some? && nextDayStats.Some? then
      DailyView(GainsOf(dayStats.value, nextDayStats), false)
    else if dayStats.Some? then
      DailyView(GainsOf(dayStats.value, dayStats), true)
    else
      var empty := EmptySnapshot(snap.username, now);
      DailyView(GainsOf(empty, Some(empty)), true)
  }

  /** With a baseline, today's gains run from the day's snapshot to the
      current stats, and an earlier day's from the day before to that day. */
  lemma DailyBaseline(snap: Snapshot, dayOffset: nat, dayStats: Option<Snapshot>,
                      nextDayStats: Option<Snapshot>, now: Int64)
    requires !DailyGains(snap, dayOffset, dayStats, nextDayStats, now).noBaseline
    ensures var g := DailyGains(snap, dayOffset, dayStats, nextDayStats, now).gains;
      && (dayOffset == 0 ==> g.current == snap && g.previous == dayStats)
      && (dayOffset != 0 ==> g.current == dayStats.value && g.previous == nextDayStats)
  {
  }

  /** A view without a baseline records no gain other than zero, so no row
      shows gain text. */
  lemma DailyNoBaselineZero(snap: Snapshot, dayOffset: nat, dayStats: Option<Snapshot>,
                            nextDayStats: Option<Snapshot>, now: Int64, stats: Snapshot, key: string)
    requires DailyGains(snap, dayOffset, dayStats, nextDayStats, now).noBaseline
    ensures var g := DailyGains(snap, dayOffset, dayStats, nextDayStats, now).gains;
      && g.SkillGainOf(key) == SkillGain(0, 0)
      && g.ActivityGainOf(key) == 0
      && !SkillGainShown(ShownSkillGain(stats, Some(g), key))
  {
    if dayStats.Some? {
      SelfGainsZero(dayStats.value);
    } else {
      SelfGainsZero(EmptySnapshot(snap.username, now));
    }
  }

  /** With increasing timestamps in `[h[0], now]`, every `long` distance to
      `now` is exact, so the newest snapshot is the nearest one. */
  lemma {:induction false} NewestIsNearest(h: seq<Snapshot>, now: Int64)
    requires h != []
    requires forall i, j :: 0 <= i < j < |h| ==> h[i].timestamp < h[j].timestamp
    requires h[|h| - 1].timestamp <= now && now - h[0].timestamp < LongMax
    ensures NearestAt(h, now, |h| - 1)
    ensures Distance(h[|h| - 1].timestamp, now) < LongMax
  {
    var last := |h| - 1;
    forall j | 0 <= j < |h|
      ensures Distance(h[j].timestamp, now) == now - h[j].timestamp
    {
      if 0 < j {
        assert h[0].timestamp < h[j].timestamp;
      }
      if j < last {
        assert h[j].timestamp < h[last].timestamp;
      }
    }
  }

  /** The day targets are `now` minus whole days, not midnights: for offset 0
      the target is the present moment. With increasing timestamps, none in
      the future, the snapshot chosen for today is then the newest one, and
      when the current stats are that snapshot every gain of the view is zero. */
  lemma {:induction false} TodayBaselineIsNewest(h: seq<Snapshot>, now: Int64, dayStats: Option<Snapshot>,
                                                 nextDayStats: Option<Snapshot>, key: string)
    requires h != []
    requires forall i, j :: 0 <= i < j < |h| ==> h[i].timestamp < h[j].timestamp
    requires h[|h| - 1].timestamp <= now && now - h[0].timestamp < LongMax
    requires ClosestAnswer(h, TargetTime(now, DaysArg(0)), dayStats)
    ensures dayStats == Some(h[|h| - 1])
    ensures var v := DailyGains(h[|h| - 1], 0, dayStats, nextDayStats, now);
      && !v.noBaseline
      && v.gains.SkillGainOf(key) == SkillGain(0, 0)
      && v.gains.ActivityGainOf(key) == 0
  {
    var last := |h| - 1;
    assert DaysArg(0) == 0;
    assert TargetTime(now, DaysArg(0)) == now;
    NewestIsNearest(h, now);
    var k :| NearestAt(h, now, k) && dayStats.value == h[k];
    NearestUnique(h, now, k, last);
    SelfGainsZero(h[last]);
  }

  // ---------------------------------------------------------------------------
  // Background requests
  // ---------------------------------------------------------------------------

  /** The status line under the selectors. */
  datatype Status = Hidden | Loading(message: string) | ErrorShown(error: FetchError)

  const FetchingMessage: string := "Fetching data..."
  const NoBaselineMessage: string := "No baseline data for this day"

  /** A daily-view request: its generation, the player, the day offset and
      the current stats captured when it was issued. */
  datatype DailyRequest = DailyRequest(gen: int, username: string, dayOffset: nat, snap: Snapshot)

  /** A gains request: gains of `snap` over `days`; `setsStats` says whether
      the result replaces the current stats as well (a completed automatic
      fetch) or only the gains (a timeframe change). */
  datatype GainsRequest = GainsRequest(gen: int, username: string, days: int, snap: Snapshot, setsStats: bool)

  /** A request for the newest stored snapshot of a player and its gains. */
  datatype LatestRequest = LatestRequest(gen: int, username: string, days: int)

  /** A full load: fetch the player's hiscores, store them, compute gains. */
  datatype LoadRequest = LoadRequest(gen: int, username: string, days: int)

  datatype LoadResult = Loaded(stats: Snapshot, gains: Gains) | LoadFailed(error: FetchError)

  /** `getSnapshotFromDaysAgo` with a Java `int` day count: the offset is
      converted as Java's arithmetic would. */
  function DaysArg(days: int): Int32 {
    Wrap32(days)
  }

  /** Whether `s` is empty once leading and trailing characters up to and
      including the space are trimmed, as `trim().isEmpty()` decides. */
  predicate Blank(s: string) {
    forall i :: 0 <= i < |s| ==> s[i] <= ' '
  }

  class HiscoresPanel {
    const dataManager: StatsDataManager
    const client: HiscoresClient
    /** The player selector's items and selected index, -1 for none. */
    var items: seq<string>
    var selectedIndex: int
    /** The timeframe selector's selected item. */
    var timeframe: string
    /** 0 is today, 1 yesterday, and so on. */
    var currentDayOffset: nat
    /** Incremented by every request; a result is applied only while its
        request is the newest. */
    var requestGeneration: int
    var currentStats: Option<Snapshot>
    var currentGains: Option<Gains>
    var nextDayEnabled: bool
    var status: Status

    /** Builds the panel with "Today" selected and nothing shown, then fills the
        selector as `refreshPlayerList` does. A restored player's load is then
        already requested: generation 1, for the selected name and the day count
        of "Today" (a constructor returns no request value, so the caller builds
        that `LoadRequest` from these fields). */
    constructor (client: HiscoresClient, dataManager: StatsDataManager, initialized: bool)
      modifies dataManager.configManager
      ensures this.client == client && this.dataManager == dataManager
      ensures timeframe == Timeframes[0] && currentDayOffset == 0 && nextDayEnabled
      ensures currentStats.None? && currentGains.None?
      ensures !initialized ==> items == [] && selectedIndex == -1 && unchanged(dataManager.configManager)
      ensures initialized ==> forall p :: p in items <==> p in TrackedNames(dataManager.allPlayerData)
      ensures var last := old(dataManager.configManager.Get(LastPlayerKey));
        initialized && last.Some? && last.value != "" && last.value in items ==>
          && 0 <= selectedIndex < |items| && items[selectedIndex] == last.value
          && (forall j :: 0 <= j < selectedIndex ==> items[j] != last.value)
          && dataManager.configManager.entries == old(dataManager.configManager.entries)
      ensures var last := old(dataManager.configManager.Get(LastPlayerKey));
        initialized && last.Some? && last.value != "" && last.value !in items ==>
          selectedIndex == -1 && dataManager.configManager.entries == old(dataManager.configManager.entries) - {LastPlayerKey}
      ensures var last := old(dataManager.configManager.Get(LastPlayerKey));
        initialized && (last.None? || last.value == "") ==>
          selectedIndex == -1 && unchanged(dataManager.configManager)
      ensures selectedIndex == -1 || Blank(items[selectedIndex]) ==> requestGeneration == 0 && status == Hidden
      ensures 0 <= selectedIndex < |items| && !Blank(items[selectedIndex]) ==>
        requestGeneration == 1 && status == Loading(FetchingMessage)
    {
      this.client := client;
      this.dataManager := dataManager;
      items := [];
      selectedIndex := -1;
      timeframe := Timeframes[0];
      currentDayOffset := 0;
      requestGeneration := 0;
      currentStats := None;
      currentGains := None;
      nextDayEnabled := true;
      status := Hidden;
      new;
      var job := RefreshPlayerList(initialized);
    }

    /** The selected player, `None` when nothing is selected. */
    function SelectedItem(): (p: Option<string>)
      reads this
      ensures p.Some? <==> 0 <= selectedIndex < |items|
      ensures p.Some? ==> p.value == items[selectedIndex]
    {
      if 0 <= selectedIndex < |items| then Some(items[selectedIndex]) else None
    }

    /** `requestGeneration.incrementAndGet()`: every request gets a
        generation newer than all earlier ones. */
    method BeginRequest() returns (gen: int)
      modifies this`requestGeneration
      ensures requestGeneration == old(requestGeneration) + 1
      ensures gen == requestGeneration
    {
      requestGeneration := requestGeneration + 1;
      gen := requestGeneration;
    }

    // ---- day navigation ----------------------------------------------------

    /** The "previous day" button: one day further back, then a daily refresh.
        The button's row is shown only while "Today" is selected. */
    method PreviousDay() returns (job: Option<DailyRequest>)
      requires timeframe == Timeframes[0]
      modifies this`currentDayOffset, this`requestGeneration
      ensures currentDayOffset == old(currentDayOffset) + 1
      ensures job.None? <==> currentStats.None?
      ensures job.Some? ==> job.value == DailyRequest(requestGeneration, currentStats.value.username,
                                                       currentDayOffset, currentStats.value)
      ensures requestGeneration == old(requestGeneration) + (if job.Some? then 1 else 0)
    {
      currentDayOffset := currentDayOffset + 1;
      job := RefreshDailyView();
    }

    /** The "next day" button: one day forward, only while not at today. Like
        the previous-day button it is shown only while "Today" is selected, and
        it can be pressed only while the last daily result left it enabled. */
    method NextDay() returns (job: Option<DailyRequest>)
      requires timeframe == Timeframes[0] && nextDayEnabled
      modifies this`currentDayOffset, this`requestGeneration
      ensures old(currentDayOffset) == 0 ==>
        currentDayOffset == 0 && job.None? && requestGeneration == old(requestGeneration)
      ensures old(currentDayOffset) > 0 ==>
        && currentDayOffset == old(currentDayOffset) - 1
        && (job.None? <==> currentStats.None?)
        && requestGeneration == old(requestGeneration) + (if job.Some? then 1 else 0)
      ensures job.Some? ==> job.value == DailyRequest(requestGeneration, currentStats.value.username,
                                                       currentDayOffset, currentStats.value)
    {
      job := None;
      if currentDayOffset > 0 {
        currentDayOffset := currentDayOffset - 1;
        job := RefreshDailyView();
      }
    }

    /** The timeframe selector: "Today" resets the day offset and refreshes
        the daily view; any other timeframe refreshes the gains. */
    method SelectTimeframe(t: string) returns (daily: Option<DailyRequest>, gains: Option<GainsRequest>)
      modifies this`timeframe, this`currentDayOffset, this`requestGeneration
      ensures timeframe == t
      ensures daily.Some? || gains.Some? <==> currentStats.Some?
      ensures t == "Today" ==>
        && currentDayOffset == 0 && gains.None?
        && (daily.Some? ==> daily.value == DailyRequest(requestGeneration, currentStats.value.username, 0, currentStats.value))
      ensures t != "Today" ==>
        && currentDayOffset == old(currentDayOffset) && daily.None?
        && (gains.Some? ==> gains.value == GainsRequest(requestGeneration, currentStats.value.username,
                                                         TimeframeDays(t), currentStats.value, false))
      ensures requestGeneration == old(requestGeneration) + (if currentStats.Some? then 1 else 0)
    {
      timeframe := t;
      daily, gains := None, None;
      if t == "Today" {
        currentDayOffset := 0;
        daily := RefreshDailyView();
      } else {
        gains := RefreshGains();
      }
    }

    /** `refreshDailyView`: nothing without current stats; otherwise a new
        request for the current day offset. */
    method RefreshDailyView() returns (job: Option<DailyRequest>)
      modifies this`requestGeneration
      ensures job.None? <==> currentStats.None?
      ensures job.Some? ==> job.value == DailyRequest(requestGeneration, currentStats.value.username,
                                                       currentDayOffset, currentStats.value)
      ensures requestGeneration == old(requestGeneration) + (if job.Some? then 1 else 0)
    {
      if currentStats.None? {
        return None;
      }
      var gen := BeginRequest();
      job := Some(DailyRequest(gen, currentStats.value.username, currentDayOffset, currentStats.value));
    }

    /** `refreshGains`: nothing without current stats; otherwise a new
        request for the selected timeframe. */
    method RefreshGains() returns (job: Option<GainsRequest>)
      modifies this`requestGeneration
      ensures job.None? <==> currentStats.None?
      ensures job.Some? ==> job.value == GainsRequest(requestGeneration, currentStats.value.username,
                                                       TimeframeDays(timeframe), currentStats.value, false)
      ensures requestGeneration == old(requestGeneration) + (if job.Some? then 1 else 0)
    {
      if currentStats.None? {
        return None;
      }
      var gen := BeginRequest();
      job := Some(GainsRequest(gen, currentStats.value.username, TimeframeDays(timeframe), currentStats.value, false));
    }

    // ---- workers -------------------------------------------------------------

    /** The daily worker: looks up the snapshots nearest the day and the day
        before, then chooses the view's gains. */
    method DailyWorker(job: DailyRequest, now: Int64)
      returns (view: DailyView, dayStats: Option<Snapshot>, nextDayStats: Option<Snapshot>)
      ensures var h := dataManager.LoadSnapshots(job.username);
        && ClosestAnswer(h, TargetTime(now, DaysArg(job.dayOffset)), dayStats)
        && ClosestAnswer(h, TargetTime(now, DaysArg(job.dayOffset + 1)), nextDayStats)
      ensures view == DailyGains(job.snap, job.dayOffset, dayStats, nextDayStats, now)
    {
      dayStats := dataManager.GetSnapshotFromDaysAgo(job.username, DaysArg(job.dayOffset), now);
      nextDayStats := dataManager.GetSnapshotFromDaysAgo(job.username, DaysArg(job.dayOffset + 1), now);
      view := DailyGains(job.snap, job.dayOffset, dayStats, nextDayStats, now);
    }

    /** The gains worker: gains of the captured stats over the snapshot
        nearest the timeframe's start, or no baseline. */
    method GainsWorker(job: GainsRequest, now: Int64) returns (gains: Gains, older: Option<Snapshot>)
      ensures ClosestAnswer(dataManager.LoadSnapshots(job.username), TargetTime(now, DaysArg(job.days)), older)
      ensures gains == GainsOf(job.snap, older)
    {
      older := dataManager.GetSnapshotFromDaysAgo(job.username, DaysArg(job.days), now);
      gains := GainsOf(job.snap, older);
    }

    /** The worker of a client-stats update: the newest stored snapshot and
        its gains, or nothing when the player has no history. */
    method LatestWorker(job: LatestRequest, now: Int64) returns (result: Option<(Snapshot, Gains)>, older: Option<Snapshot>)
      ensures var h := dataManager.LoadSnapshots(job.username);
        && (result.None? <==> h == [])
        && (result.Some? ==>
              && result.value.0 == h[|h| - 1]
              && ClosestAnswer(h, TargetTime(now, DaysArg(job.days)), older)
              && result.value.1 == GainsOf(h[|h| - 1], older))
    {
      older := None;
      var snapshots := dataManager.LoadSnapshots(job.username);
      if snapshots == [] {
        return None, older;
      }
      var latest := snapshots[|snapshots| - 1];
      older := dataManager.GetSnapshotFromDaysAgo(job.username, DaysArg(job.days), now);
      result := Some((latest, GainsOf(latest, older)));
    }

    /** The load worker: fetch the player's hiscores for its stored account
        type, store the snapshot, then compute its gains over the timeframe. */
    method LoadWorker(job: LoadRequest, exchange: Exchange, now: Int64) returns (result: LoadResult, older: Option<Snapshot>)
      modifies dataManager`allPlayerData, dataManager`isDirty
      ensures var outcome := Outcome(client.nameToKeyMap, job.username, exchange, now);
        && (outcome.Failed? ==> result == LoadFailed(outcome.error) && unchanged(dataManager))
        && (outcome.Fetched? ==>
              && dataManager.allPlayerData == SaveResult(old(dataManager.allPlayerData), outcome.stats, now, dataManager.totalXpOf)
              && dataManager.isDirty == (old(dataManager.isDirty)
                   || !IsDuplicate(HistoryIn(old(dataManager.allPlayerData), Lower(outcome.stats.username)), outcome.stats, dataManager.totalXpOf))
              && ClosestAnswer(dataManager.LoadSnapshots(outcome.stats.username), TargetTime(now, DaysArg(job.days)), older)
              && result == Loaded(outcome.stats, GainsOf(outcome.stats, older)))
    {
      older := None;
      var accountType := dataManager.LoadAccountType(job.username);
      var url, fetched := client.FetchPlayerStats(job.username, accountType, exchange, now);
      if fetched.Failed? {
        return LoadFailed(fetched.error), older;
      }
      var stats := fetched.stats;
      dataManager.SaveSnapshot(stats, now);
      older := dataManager.GetSnapshotFromDaysAgo(stats.username, DaysArg(job.days), now);
      result := Loaded(stats, GainsOf(stats, older));
    }

    // ---- results applied on the event thread -------------------------------

    /** The daily view's callback: applied only for the newest request. */
    method ApplyDaily(job: DailyRequest, view: DailyView)
      modifies this`nextDayEnabled, this`status, this`currentGains
      ensures job.gen != requestGeneration ==> unchanged(this)
      ensures job.gen == requestGeneration ==>
        && nextDayEnabled == (job.dayOffset > 0)
        && status == (if view.noBaseline then Loading(NoBaselineMessage) else Hidden)
        && currentGains == Some(view.gains)
    {
      if job.gen != requestGeneration {
        return;
      }
      nextDayEnabled := job.dayOffset > 0;
      status := if view.noBaseline then Loading(NoBaselineMessage) else Hidden;
      currentGains := Some(view.gains);
    }

    /** The callback of a gains request: applied only for the newest request;
        a completed automatic fetch also replaces the current stats. */
    method ApplyGains(job: GainsRequest, gains: Gains)
      modifies this`currentStats, this`currentGains
      ensures job.gen != requestGeneration ==> unchanged(this)
      ensures job.gen == requestGeneration ==>
        && currentGains == Some(gains)
        && currentStats == (if job.setsStats then Some(job.snap) else old(currentStats))
    {
      if job.gen != requestGeneration {
        return;
      }
      if job.setsStats {
        currentStats := Some(job.snap);
      }
      currentGains := Some(gains);
    }

    /** The callback of a client-stats update. */
    method ApplyLatest(job: LatestRequest, result: Option<(Snapshot, Gains)>)
      modifies this`currentStats, this`currentGains
      ensures job.gen != requestGeneration || result.None? ==> unchanged(this)
      ensures job.gen == requestGeneration && result.Some? ==>
        currentStats == Some(result.value.0) && currentGains == Some(result.value.1)
    {
      if result.None? || job.gen != requestGeneration {
        return;
      }
      currentStats := Some(result.value.0);
      currentGains := Some(result.value.1);
    }

    /** The callback of a load: the stats and gains on success, the error in
        the status line otherwise. */
    method ApplyLoad(job: LoadRequest, result: LoadResult)
      modifies this`currentStats, this`currentGains, this`status
      ensures job.gen != requestGeneration ==> unchanged(this)
      ensures job.gen == requestGeneration && result.Loaded? ==>
        status == Hidden && currentStats == Some(result.stats) && currentGains == Some(result.gains)
      ensures job.gen == requestGeneration && result.LoadFailed? ==>
        status == ErrorShown(result.error) && currentStats == old(currentStats) && currentGains == old(currentGains)
    {
      if job.gen != requestGeneration {
        return;
      }
      match result
      case Loaded(stats, gains) =>
        status := Hidden;
        currentStats := Some(stats);
        currentGains := Some(gains);
      case LoadFailed(error) =>
        status := ErrorShown(error);
    }

    // ---- requests started by events ----------------------------------------

    /** `loadPlayerData`: without data nothing happens; with no (or a blank)
        selection the view is cleared; otherwise the selection is remembered
        and a load is requested. */
    method LoadPlayerData(initialized: bool) returns (job: Option<LoadRequest>)
      modifies this`currentStats, this`currentGains, this`requestGeneration, this`status
      modifies dataManager.configManager
      ensures !initialized ==> job.None? && unchanged(this) && unchanged(dataManager.configManager)
      ensures initialized && (SelectedItem().None? || Blank(SelectedItem().value)) ==>
        && job.None? && currentStats.None? && currentGains.None?
        && requestGeneration == old(requestGeneration) && status == old(status)
        && unchanged(dataManager.configManager)
      ensures initialized && SelectedItem().Some? && !Blank(SelectedItem().value) ==>
        && dataManager.configManager.entries == old(dataManager.configManager.entries)[LastPlayerKey := SelectedItem().value]
        && requestGeneration == old(requestGeneration) + 1
        && job == Some(LoadRequest(requestGeneration, SelectedItem().value, TimeframeDays(timeframe)))
        && status == Loading(FetchingMessage)
        && currentStats == old(currentStats) && currentGains == old(currentGains)
    {
      job := None;
      if !initialized {
        return;
      }
      var selected := SelectedItem();
      if selected.None? || Blank(selected.value) {
        currentStats := None;
        currentGains := None;
        return;
      }
      dataManager.configManager.Set(LastPlayerKey, selected.value);
      var gen := BeginRequest();
      status := Loading(FetchingMessage);
      job := Some(LoadRequest(gen, selected.value, TimeframeDays(timeframe)));
    }

    /** `refreshPlayerData` (the refresh button): a new load, but only while
        stats are shown. */
    method RefreshPlayerData(initialized: bool) returns (job: Option<LoadRequest>)
      modifies this`currentStats, this`currentGains, this`requestGeneration, this`status
      modifies dataManager.configManager
      ensures old(currentStats).None? ==> job.None? && unchanged(this) && unchanged(dataManager.configManager)
      ensures old(currentStats).Some? && !initialized ==>
        job.None? && unchanged(this) && unchanged(dataManager.configManager)
      ensures old(currentStats).Some? && initialized && (SelectedItem().None? || Blank(SelectedItem().value)) ==>
        && job.None? && currentStats.None? && currentGains.None?
        && requestGeneration == old(requestGeneration) && status == old(status)
        && unchanged(dataManager.configManager)
      ensures old(currentStats).Some? && initialized && SelectedItem().Some? && !Blank(SelectedItem().value) ==>
        && dataManager.configManager.entries == old(dataManager.configManager.entries)[LastPlayerKey := SelectedItem().value]
        && requestGeneration == old(requestGeneration) + 1
        && job == Some(LoadRequest(requestGeneration, SelectedItem().value, TimeframeDays(timeframe)))
        && status == Loading(FetchingMessage)
        && currentStats == old(currentStats) && currentGains == old(currentGains)
    {
      job := None;
      if currentStats.Some? {
        job := LoadPlayerData(initialized);
      }
    }

    /** `onAutoFetchCompleted`: when the fetched player is the selected one
        (ignoring case), a gains request that will also replace the stats. */
    method OnAutoFetchCompleted(username: string, stats: Snapshot) returns (job: Option<GainsRequest>)
      modifies this`requestGeneration
      ensures job.Some? <==> SelectedItem().Some? && EqualsIgnoreCase(username, SelectedItem().value)
      ensures job.Some? ==>
        && requestGeneration == old(requestGeneration) + 1
        && job.value == GainsRequest(requestGeneration, username, TimeframeDays(timeframe), stats, true)
      ensures job.None? ==> requestGeneration == old(requestGeneration)
    {
      var selected := SelectedItem();
      if selected.None? || !EqualsIgnoreCase(username, selected.value) {
        return None;
      }
      var gen := BeginRequest();
      job := Some(GainsRequest(gen, username, TimeframeDays(timeframe), stats, true));
    }

    /** `onClientStatsUpdated`: when the updated player is the selected one
        (ignoring case), a request for its newest stored snapshot. */
    method OnClientStatsUpdated(username: string) returns (job: Option<LatestRequest>)
      modifies this`requestGeneration
      ensures job.Some? <==> SelectedItem().Some? && EqualsIgnoreCase(SelectedItem().value, username)
      ensures job.Some? ==>
        && requestGeneration == old(requestGeneration) + 1
        && job.value == LatestRequest(requestGeneration, username, TimeframeDays(timeframe))
      ensures job.None? ==> requestGeneration == old(requestGeneration)
    {
      var selected := SelectedItem();
      if selected.None? || !EqualsIgnoreCase(selected.value, username) {
        return None;
      }
      var gen := BeginRequest();
      job := Some(LatestRequest(gen, username, TimeframeDays(timeframe)));
    }

    // ---- the player selector -----------------------------------------------

    /** The rebuild of the selector in `refreshPlayerList`, while the selection
        listener is muted: the selector lists the tracked players; the remembered
        player is selected again if it is still listed, and otherwise forgotten. */
    method ListPlayers(initialized: bool)
      modifies this`items, this`selectedIndex, dataManager.configManager
      ensures !initialized ==> items == [] && selectedIndex == -1 && unchanged(dataManager.configManager)
      ensures initialized ==> forall p :: p in items <==> p in TrackedNames(dataManager.allPlayerData)
      ensures var last := old(dataManager.configManager.Get(LastPlayerKey));
        initialized && last.Some? && last.value != "" && last.value in items ==>
          && 0 <= selectedIndex < |items| && items[selectedIndex] == last.value
          && (forall j :: 0 <= j < selectedIndex ==> items[j] != last.value)
          && unchanged(dataManager.configManager)
      ensures var last := old(dataManager.configManager.Get(LastPlayerKey));
        initialized && last.Some? && last.value != "" && last.value !in items ==>
          selectedIndex == -1 && dataManager.configManager.entries == old(dataManager.configManager.entries) - {LastPlayerKey}
      ensures var last := old(dataManager.configManager.Get(LastPlayerKey));
        initialized && (last.None? || last.value == "") ==>
          selectedIndex == -1 && unchanged(dataManager.configManager)
    {
      items := [];
      selectedIndex := -1;
      if !initialized {
        return;
      }
      var players, keys := dataManager.GetTrackedPlayers();
      items := players;
      var last := dataManager.configManager.Get(LastPlayerKey);
      if last.Some? && last.value != "" {
        var found := false;
        var i := 0;
        while i < |items|
          invariant 0 <= i <= |items|
          invariant forall j :: 0 <= j < i ==> items[j] != last.value
          invariant items == players && !found && selectedIndex == -1
          invariant dataManager.configManager.entries == old(dataManager.configManager.entries)
        {
          if last.value == items[i] {
            selectedIndex := i;
            found := true;
            break;
          }
          i := i + 1;
        }
        if !found {
          dataManager.configManager.Unset(LastPlayerKey);
          selectedIndex := -1;
        }
      }
    }

    /** `refreshPlayerList`: rebuilds the selector as `ListPlayers` does and, when
        a player was restored, goes on to `loadPlayerData`; storing the restored
        name again leaves the configuration as it was. */
    method RefreshPlayerList(initialized: bool) returns (job: Option<LoadRequest>)
      modifies this`items, this`selectedIndex, this`currentStats, this`currentGains, this`requestGeneration, this`status
      modifies dataManager.configManager
      ensures !initialized ==> items == [] && selectedIndex == -1 && unchanged(dataManager.configManager)
      ensures initialized ==> forall p :: p in items <==> p in TrackedNames(dataManager.allPlayerData)
      ensures var last := old(dataManager.configManager.Get(LastPlayerKey));
        initialized && last.Some? && last.value != "" && last.value in items ==>
          && 0 <= selectedIndex < |items| && items[selectedIndex] == last.value
          && (forall j :: 0 <= j < selectedIndex ==> items[j] != last.value)
          && dataManager.configManager.entries == old(dataManager.configManager.entries)
      ensures var last := old(dataManager.configManager.Get(LastPlayerKey));
        initialized && last.Some? && last.value != "" && last.value !in items ==>
          selectedIndex == -1 && dataManager.configManager.entries == old(dataManager.configManager.entries) - {LastPlayerKey}
      ensures var last := old(dataManager.configManager.Get(LastPlayerKey));
        initialized && (last.None? || last.value == "") ==>
          selectedIndex == -1 && unchanged(dataManager.configManager)
      // nothing restored: no load
      ensures selectedIndex == -1 ==>
        && job.None? && currentStats == old(currentStats) && currentGains == old(currentGains)
        && requestGeneration == old(requestGeneration) && status == old(status)
      // a blank name restored: the view is cleared
      ensures 0 <= selectedIndex < |items| && Blank(items[selectedIndex]) ==>
        && job.None? && currentStats.None? && currentGains.None?
        && requestGeneration == old(requestGeneration) && status == old(status)
      // a player restored: its load is requested
      ensures 0 <= selectedIndex < |items| && !Blank(items[selectedIndex]) ==>
        && requestGeneration == old(requestGeneration) + 1
        && job == Some(LoadRequest(requestGeneration, items[selectedIndex], TimeframeDays(timeframe)))
        && status == Loading(FetchingMessage)
        && currentStats == old(currentStats) && currentGains == old(currentGains)
    {
      ghost var last := dataManager.configManager.Get(LastPlayerKey);
      ListPlayers(initialized);
      job := None;
      if selectedIndex != -1 {
        // only the remembered name can have been restored
        assert last.Some? && items[selectedIndex] == last.value;
        ghost var entries := dataManager.configManager.entries;
        job := LoadPlayerData(initialized);
        assert dataManager.configManager.entries == entries;
      }
    }

    /** The selector's action listener, installed by the constructor once the
        list is built: every choice the user makes (index -1 for none) runs
        `loadPlayerData` for the new selection. */
    method SelectPlayer(index: int, initialized: bool) returns (job: Option<LoadRequest>)
      requires -1 <= index < |items|
      modifies this`selectedIndex, this`currentStats, this`currentGains, this`requestGeneration, this`status
      modifies dataManager.configManager
      ensures selectedIndex == index && SelectedItem() == (if index == -1 then None else Some(items[index]))
      ensures !initialized ==>
        && job.None? && currentStats == old(currentStats) && currentGains == old(currentGains)
        && requestGeneration == old(requestGeneration) && status == old(status)
        && unchanged(dataManager.configManager)
      ensures initialized && (index == -1 || Blank(items[index])) ==>
        && job.None? && currentStats.None? && currentGains.None?
        && requestGeneration == old(requestGeneration) && status == old(status)
        && unchanged(dataManager.configManager)
      ensures initialized && index != -1 && !Blank(items[index]) ==>
        && dataManager.configManager.entries == old(dataManager.configManager.entries)[LastPlayerKey := items[index]]
        && requestGeneration == old(requestGeneration) + 1
        && job == Some(LoadRequest(requestGeneration, items[index], TimeframeDays(timeframe)))
        && status == Loading(FetchingMessage)
        && currentStats == old(currentStats) && currentGains == old(currentGains)
    {
      selectedIndex := index;
      job := LoadPlayerData(initialized);
    }
  }
}
