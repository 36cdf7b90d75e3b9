/** The plugin's game-event handlers (`AdvancedXpTrackerPlugin`): login
    detection by account hash, the two-tick guard that ignores the stat burst
    after a login or world hop, and the capture of the client's own skill
    readings into a snapshot whose "overall" entry is the sum of the others. */
module Plugin {
  import opened Base
  import opened Text
  import opened Stats
  import opened Store

  /** The game states the handlers tell apart; every other state is `OtherState`. */
  datatype GameState = LoggedIn | LoggingIn | Hopping | LoginScreen | OtherState

  /** One element of `Skill.values()` with the client's readings for it: the
      skill's display name, whether it is `Skill.OVERALL`, the real level
      (`getRealSkillLevel`) and the experience (`getSkillExperience`). */
  datatype Reading = Reading(name: string, overall: bool, level: Int32, xp: Int32)

  /** `client.getLocalPlayer()`: null, or a player whose name may be null. */
  datatype LocalPlayer = NullPlayer | Player(name: Option<string>)

  /** What the handlers read from the game client. */
  datatype ClientView = ClientView(state: GameState, accountHash: Int64, localPlayer: LocalPlayer, readings: seq<Reading>)

  /** The guard value set on `LOGGING_IN` and `HOPPING`: stat changes are skipped
      for this many game ticks. */
  const GuardTicks: int := 2

  /** The rank stored for every client-captured skill: the client does not know it. */
  const UnknownRank: Int32 := -1

  // ---------------------------------------------------------------------
  // The captured snapshot
  // ---------------------------------------------------------------------

  /** The exact sum of the levels of the non-overall readings. */
  function LevelSum(readings: seq<Reading>): int {
    if readings == [] then 0
    else
      var last := readings[|readings| - 1];
      LevelSum(readings[..|readings| - 1]) + (if last.overall then 0 else last.level)
  }

  /** The exact sum of the experience of the non-overall readings. */
  function XpSum(readings: seq<Reading>): int {
    if readings == [] then 0
    else
      var last := readings[|readings| - 1];
      XpSum(readings[..|readings| - 1]) + (if last.overall then 0 else last.xp)
  }

  /** The "overall" entry: the level total in Java `int` and the XP total in
      Java `long` arithmetic, rank unknown. */
  function OverallEntry(readings: seq<Reading>): SkillData {
    SkillData(UnknownRank, Wrap32(LevelSum(readings)), Wrap64(XpSum(readings)))
  }

  /** The key a reading is stored under: "overall", or the lowercased skill name. */
  function ReadingKey(r: Reading): string {
    if r.overall then "overall" else Lower(r.name)
  }

  /** The entry a reading is stored as, given the overall entry. */
  function EntryFor(r: Reading, overall: SkillData): SkillData {
    if r.overall then overall else SkillData(UnknownRank, r.level, r.xp)
  }

  /** The skill map after `setSkill` for every reading in order. */
  function Captured(readings: seq<Reading>, overall: SkillData): map<string, SkillData> {
    if readings == [] then map[]
    else
      var last := readings[|readings| - 1];
      Captured(readings[..|readings| - 1], overall)[ReadingKey(last) := EntryFor(last, overall)]
  }

  /** The snapshot `captureClientStats` builds: the logged-in name, the capture
      time, one entry per skill and no activities. */
  function ClientSnapshot(username: string, now: Int64, readings: seq<Reading>): Snapshot {
    Snapshot(username, now, Captured(readings, OverallEntry(readings)), map[])
  }

  /** Every entry of a captured snapshot has the unknown rank. */
  lemma CapturedRanksUnknown(username: string, now: Int64, readings: seq<Reading>)
    ensures forall k :: k in ClientSnapshot(username, now, readings).skills ==>
      ClientSnapshot(username, now, readings).skills[k].rank == UnknownRank
  {
    CapturedRanks(readings, OverallEntry(readings));
  }

  lemma {:induction false} CapturedRanks(readings: seq<Reading>, overall: SkillData)
    requires overall.rank == UnknownRank
    ensures forall k :: k in Captured(readings, overall) ==> Captured(readings, overall)[k].rank == UnknownRank
    decreases |readings|
  {
    if readings != [] {
      CapturedRanks(readings[..|readings| - 1], overall);
    }
  }

  /** The captured skills are keyed by exactly the readings' keys. */
  lemma {:induction false} CapturedKeys(readings: seq<Reading>, overall: SkillData)
    ensures forall k :: k in Captured(readings, overall) <==> exists r :: r in readings && ReadingKey(r) == k
    decreases |readings|
  {
    if readings != [] {
      var init := readings[..|readings| - 1];
      var last := readings[|readings| - 1];
      CapturedKeys(init, overall);
      assert readings == init + [last];
      assert forall r :: r in readings <==> r in init || r == last;
    }
  }

  /** With the distinct keys of `Skill.values()`, every reading is stored
      unchanged under its own key, and the overall entry is the overall reading's. */
  lemma {:induction false} CapturedEntries(readings: seq<Reading>, overall: SkillData)
    requires forall i, j :: 0 <= i < j < |readings| ==> ReadingKey(readings[i]) != ReadingKey(readings[j])
    ensures forall i :: 0 <= i < |readings| ==>
      ReadingKey(readings[i]) in Captured(readings, overall)
      && Captured(readings, overall)[ReadingKey(readings[i])] == EntryFor(readings[i], overall)
    decreases |readings|
  {
    if readings != [] {
      var init := readings[..|readings| - 1];
      CapturedEntries(init, overall);
      forall i | 0 <= i < |readings| - 1
        ensures ReadingKey(readings[i]) in Captured(readings, overall)
             && Captured(readings, overall)[ReadingKey(readings[i])] == EntryFor(readings[i], overall)
      {
        assert init[i] == readings[i];
      }
    }
  }

  /** Where no Java overflow occurs and the skills' keys are distinct, the
      "overall" entry's level is the sum of the other skills' real levels and its
      XP the sum of their experience. */
  lemma OverallIsSum(readings: seq<Reading>, i: int)
    requires forall a, b :: 0 <= a < b < |readings| ==> ReadingKey(readings[a]) != ReadingKey(readings[b])
    requires 0 <= i < |readings| && readings[i].overall
    requires LevelSum(readings) < TwoTo31 && -TwoTo31 <= LevelSum(readings)
    requires XpSum(readings) < TwoTo63 && -TwoTo63 <= XpSum(readings)
    ensures "overall" in ClientSnapshot("", 0, readings).skills
    ensures ClientSnapshot("", 0, readings).skills["overall"].level == LevelSum(readings)
    ensures ClientSnapshot("", 0, readings).skills["overall"].xp == XpSum(readings)
  {
    CapturedEntries(readings, OverallEntry(readings));
    assert ReadingKey(readings[i]) == "overall";
  }

  /** With every real level between 0 and 99, the level total is at most 99 per
      skill, far below the `int` range: the total level does not wrap. */
  lemma {:induction false} LevelSumBounded(readings: seq<Reading>)
    requires forall i :: 0 <= i < |readings| ==> 0 <= readings[i].level <= 99
    ensures 0 <= LevelSum(readings) <= 99 * |readings|
    decreases |readings|
  {
    if readings != [] {
      LevelSumBounded(readings[..|readings| - 1]);
    }
  }

  /** The inner loop of `captureClientStats`: Java `int` and `long` running totals. */
  method Totals(readings: seq<Reading>) returns (totalLevel: Int32, totalXp: Int64)
    ensures totalLevel == Wrap32(LevelSum(readings)) && totalXp == Wrap64(XpSum(readings))
  {
    totalLevel, totalXp := 0, 0;
    for i := 0 to |readings|
      invariant totalLevel == Wrap32(LevelSum(readings[..i]))
      invariant totalXp == Wrap64(XpSum(readings[..i]))
    {
      assert readings[..i + 1][..i] == readings[..i];
      if !readings[i].overall {
        Wrap32Add(LevelSum(readings[..i]), readings[i].level);
        Wrap64Add(XpSum(readings[..i]), readings[i].xp);
        totalLevel := Wrap32(totalLevel + readings[i].level);
        totalXp := Wrap64(totalXp + readings[i].xp);
      }
    }
    assert readings[..|readings|] == readings;
  }

  /** `onGameTick`'s effect on the guard. */
  function Tick(guard: int): int {
    if guard > 0 then guard - 1 else guard
  }

  /** The guard never goes below zero, and two ticks after it is set it is zero. */
  lemma GuardExpires(guard: int)
    requires guard >= 0
    ensures Tick(guard) >= 0 && Tick(guard) <= guard
    ensures guard > 0 ==> Tick(guard) < guard
    ensures Tick(Tick(GuardTicks)) == 0 && Tick(GuardTicks) > 0
  {
  }

  class TrackerPlugin {
    const dataManager: StatsDataManager
    /** `loggedInUsername`, `None` when no one is logged in. */
    var loggedInUsername: Option<string>
    /** `initializeTracker`: ticks left during which stat changes are ignored. */
    var initializeTracker: int
    /** `lastAccountHash`, -1 when no account is recorded. */
    var lastAccountHash: Int64
    /** Every `panel.onClientStatsUpdated(username)` call, in order. */
    var refreshed: seq<string>

    /** The guard stays between 0 and 2. */
    predicate Valid()
      reads this
    {
      0 <= initializeTracker <= GuardTicks
    }

    constructor (dataManager: StatsDataManager)
      ensures this.dataManager == dataManager && Valid()
      ensures loggedInUsername == None && initializeTracker == 0 && lastAccountHash == -1 && refreshed == []
    {
      this.dataManager := dataManager;
      loggedInUsername := None;
      initializeTracker := 0;
      lastAccountHash := -1;
      refreshed := [];
    }

    /** `captureClientStats`: only with a logged-in name and the client in
        `LOGGED_IN`; it then saves the snapshot built from the readings and
        tells the panel. */
    method CaptureClientStats(client: ClientView, now: Int64)
      modifies this`refreshed, dataManager`allPlayerData, dataManager`isDirty
      ensures loggedInUsername.None? || !client.state.LoggedIn? ==>
        && refreshed == old(refreshed)
        && dataManager.allPlayerData == old(dataManager.allPlayerData)
        && dataManager.isDirty == old(dataManager.isDirty)
      ensures loggedInUsername.Some? && client.state.LoggedIn? ==>
        var s := ClientSnapshot(loggedInUsername.value, now, client.readings);
        && dataManager.allPlayerData == SaveResult(old(dataManager.allPlayerData), s, now, dataManager.totalXpOf)
        && dataManager.isDirty == (old(dataManager.isDirty)
             || !IsDuplicate(HistoryIn(old(dataManager.allPlayerData), Lower(s.username)), s, dataManager.totalXpOf))
        && refreshed == old(refreshed) + [loggedInUsername.value]
    {
      if loggedInUsername.None? || !client.state.LoggedIn? {
        return;
      }
      var username := loggedInUsername.value;
      var readings := client.readings;
      var stats := new PlayerStats(username, now);
      for i := 0 to |readings|
        invariant stats.Value() == Snapshot(username, now, Captured(readings[..i], OverallEntry(readings)), map[])
        invariant refreshed == old(refreshed)
        invariant dataManager.allPlayerData == old(dataManager.allPlayerData)
        invariant dataManager.isDirty == old(dataManager.isDirty)
      {
        assert readings[..i + 1][..i] == readings[..i];
        if readings[i].overall {
          var totalLevel, totalXp := Totals(readings);
          stats.SetSkill("overall", UnknownRank, totalLevel, totalXp);
        } else {
          stats.SetSkill(Lower(readings[i].name), UnknownRank, readings[i].level, readings[i].xp);
        }
      }
      assert readings[..|readings|] == readings;
      dataManager.SaveSnapshot(stats.Value(), now);
      refreshed := refreshed + [username];
    }

    /** `onGameStateChanged`. */
    method OnGameStateChanged(state: GameState, client: ClientView, now: Int64)
      requires Valid()
      modifies this`loggedInUsername, this`lastAccountHash, this`initializeTracker, this`refreshed,
               dataManager`allPlayerData, dataManager`isDirty
      ensures Valid()
      // LOGGED_IN with a different account: the hash is recorded in every case
      ensures state.LoggedIn? && client.accountHash != old(lastAccountHash) ==>
        lastAccountHash == client.accountHash && initializeTracker == old(initializeTracker)
      // ... with no local player: `getName()` throws, so nothing else happens
      ensures state.LoggedIn? && client.accountHash != old(lastAccountHash) && client.localPlayer.NullPlayer? ==>
        && loggedInUsername == old(loggedInUsername) && refreshed == old(refreshed)
        && dataManager.allPlayerData == old(dataManager.allPlayerData)
        && dataManager.isDirty == old(dataManager.isDirty)
      // ... with a null name: the name is stored as null and the capture returns at once
      ensures state.LoggedIn? && client.accountHash != old(lastAccountHash) && client.localPlayer == Player(None) ==>
        && loggedInUsername == None && refreshed == old(refreshed)
        && dataManager.allPlayerData == old(dataManager.allPlayerData)
        && dataManager.isDirty == old(dataManager.isDirty)
      // ... with a name: record it and capture
      ensures state.LoggedIn? && client.accountHash != old(lastAccountHash) && client.localPlayer.Player?
              && client.localPlayer.name.Some? ==>
        var name := client.localPlayer.name.value;
        var s := ClientSnapshot(name, now, client.readings);
        && loggedInUsername == Some(name)
        && (client.state.LoggedIn? ==>
              && dataManager.allPlayerData == SaveResult(old(dataManager.allPlayerData), s, now, dataManager.totalXpOf)
              && dataManager.isDirty == (old(dataManager.isDirty)
                   || !IsDuplicate(HistoryIn(old(dataManager.allPlayerData), Lower(s.username)), s, dataManager.totalXpOf))
              && refreshed == old(refreshed) + [name])
        && (!client.state.LoggedIn? ==>
              && dataManager.allPlayerData == old(dataManager.allPlayerData)
              && dataManager.isDirty == old(dataManager.isDirty)
              && refreshed == old(refreshed))
      // LOGGED_IN for the same account (a region change): nothing
      ensures state.LoggedIn? && client.accountHash == old(lastAccountHash) ==>
        && lastAccountHash == old(lastAccountHash) && loggedInUsername == old(loggedInUsername)
        && initializeTracker == old(initializeTracker) && refreshed == old(refreshed)
        && dataManager.allPlayerData == old(dataManager.allPlayerData)
        && dataManager.isDirty == old(dataManager.isDirty)
      // LOGGING_IN or HOPPING: arm the guard
      ensures (state.LoggingIn? || state.Hopping?) ==>
        && initializeTracker == GuardTicks
        && lastAccountHash == old(lastAccountHash) && loggedInUsername == old(loggedInUsername)
      // LOGIN_SCREEN: forget the account, so the next LOGGED_IN captures again; but
      // with no name stored the hash is kept, so the same account is not captured
      // on its next LOGGED_IN either
      ensures state.LoginScreen? && old(loggedInUsername).Some? ==>
        loggedInUsername == None && lastAccountHash == -1 && initializeTracker == old(initializeTracker)
      ensures state.LoginScreen? && old(loggedInUsername).None? ==>
        loggedInUsername == None && lastAccountHash == old(lastAccountHash) && initializeTracker == old(initializeTracker)
      ensures !state.LoggedIn? ==>
        refreshed == old(refreshed) && dataManager.allPlayerData == old(dataManager.allPlayerData)
        && dataManager.isDirty == old(dataManager.isDirty)
      ensures state.OtherState? ==>
        loggedInUsername == old(loggedInUsername) && lastAccountHash == old(lastAccountHash)
        && initializeTracker == old(initializeTracker)
    {
      if state.LoggedIn? {
        var currentAccountHash := client.accountHash;
        if currentAccountHash != lastAccountHash {
          lastAccountHash := currentAccountHash;
          if client.localPlayer.NullPlayer? {
            return;  // NullPointerException: the event handler ends here
          }
          loggedInUsername := client.localPlayer.name;
          CaptureClientStats(client, now);
        }
      } else if state.LoggingIn? || state.Hopping? {
        initializeTracker := GuardTicks;
      } else if state.LoginScreen? {
        if loggedInUsername.Some? {
          loggedInUsername := None;
          lastAccountHash := -1;
        }
      }
    }

    /** `onGameTick`: counts the guard down, never below zero. */
    method OnGameTick()
      requires Valid()
      modifies this`initializeTracker
      ensures Valid()
      ensures initializeTracker == Tick(old(initializeTracker))
    {
      if initializeTracker > 0 {
        initializeTracker := initializeTracker - 1;
      }
    }

    /** `onStatChanged`: ignored while the guard is armed; otherwise a capture
        when someone is logged in and the client is in `LOGGED_IN`. */
    method OnStatChanged(client: ClientView, now: Int64)
      modifies this`refreshed, dataManager`allPlayerData, dataManager`isDirty
      ensures old(initializeTracker) > 0 || loggedInUsername.None? || !client.state.LoggedIn? ==>
        && refreshed == old(refreshed)
        && dataManager.allPlayerData == old(dataManager.allPlayerData)
        && dataManager.isDirty == old(dataManager.isDirty)
      ensures initializeTracker <= 0 && loggedInUsername.Some? && client.state.LoggedIn? ==>
        var s := ClientSnapshot(loggedInUsername.value, now, client.readings);
        && dataManager.allPlayerData == SaveResult(old(dataManager.allPlayerData), s, now, dataManager.totalXpOf)
        && dataManager.isDirty == (old(dataManager.isDirty)
             || !IsDuplicate(HistoryIn(old(dataManager.allPlayerData), Lower(s.username)), s, dataManager.totalXpOf))
        && refreshed == old(refreshed) + [loggedInUsername.value]
    {
      if initializeTracker > 0 {
        return;
      }
      if loggedInUsername.Some? && client.state.LoggedIn? {
        CaptureClientStats(client, now);
      }
    }
  }
}
