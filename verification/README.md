# Hiscores tracker: a Dafny model

This project models the core of the hiscores-tracker RuneLite plugin (package
`com.advancedxptracker`). The plugin records snapshots of an Old School RuneScape
player's skills and activities. The snapshots come from two places: the official
hiscores endpoint and the game client's own skill readings. The plugin keeps up to
180 days of snapshots per player and shows gains over a timeframe or per day in a
side panel. Once a day it fetches every tracked player in the background.

The model has one Dafny module per source file:

| module | file | source |
|---|---|---|
| `Base` | base.dfy | shared `Option` and Java `int`/`long` (wrap-around written out) |
| `Text` | text.dfy | `toLowerCase`, `equalsIgnoreCase`, one-character `replace`, `CASE_INSENSITIVE_ORDER` (ASCII) |
| `AccountTypes` | account_type.dfy | `AccountType.java` |
| `Stats` | player_stats.dfy | `PlayerStats.java` (class with map fields; `Snapshot` is its value) |
| `Gains` | player_gains.dfy | `PlayerGains.java` and `PlayerStats.calculateGains` |
| `Config` | config_store.dfy | the host's key/value configuration, one group |
| `Store` | stats_data_manager.dfy | `StatsDataManager.java` |
| `Client` | hiscores_client.dfy | `HiscoresClient.java`, `HiscoresResponse.java` |
| `Fetch` | auto_daily_fetch.dfy | `AutoDailyFetchManager.java` |
| `Plugin` | plugin.dfy | `AdvancedXpTrackerPlugin.java` (event handlers, client capture) |
| `Panel` | hiscores_panel.dfy | `HiscoresPanel.java` (non-visual logic) |

Stateful source classes are Dafny classes with the same fields. Each method's
`modifies` clause names the fields it changes. Each method is specified by a pure
function of the old state: for example, `SaveSnapshot` is specified by
`SaveResult`, and `FetchNext` by `AfterFetchNext`. Lemmas about those functions
state what the source promises.

Anything outside the core becomes an explicit parameter:
- the clock (`now`) and today's date;
- the time zone, as `dateOf`;
- whether the data file loaded, and whether a write succeeds;
- the HTTP exchange;
- the client's skill readings;
- the three calls the source makes but does not define. `isInitialized` becomes
  `initialized`. `getLatestHiscoresSnapshot` becomes `latestApi`.
  `PlayerStats.getTotalXp` becomes `totalXpOf`.

Background tasks are split into three parts:
- the method that schedules a background job returns a request value;
- a worker method computes the job's result;
- an apply method runs that result on the event thread.

Some behaviour of the source is easy to miss, and the model keeps it as written:
- Snapshot retention is a flat cutoff: `saveSnapshot` and `cleanupOldSnapshots` remove every snapshot older than 180 days (`StatsDataManager.java:140-147`, `StatsDataManager.java:225-227`).
- `flush` clears the dirty flag before it writes (`StatsDataManager.java:70-76`), so a failed write is not retried.
- Times are Java `long` values. The cutoff `now − 180 days` and the nearest-snapshot target are computed with `long` wrap-around. The distance `Math.abs(t − target)` (`StatsDataManager.java:291`) wraps as well, and the absolute value of `Long.MIN_VALUE` is `Long.MIN_VALUE` itself. The scan starts from `Long.MAX_VALUE` and keeps a snapshot only when it is strictly closer. So it answers nothing exactly when every distance equals `Long.MAX_VALUE`, and a far-away snapshot whose distance wraps to a negative number wins (`Store.WrappedDistanceExample`).
- The daily view's day targets are `now` minus whole days, although a comment at `HiscoresPanel.java:956` speaks of midnights. `Panel.TodayBaselineIsNewest` shows the consequence: "Today" compares the current stats with the newest stored snapshot.
- The plugin constructs the panel with an argument list (`AdvancedXpTrackerPlugin.java:83`) that does not match the panel's constructor (`HiscoresPanel.java:276`). The model gives the panel the store and client it uses, and the panel uses the store's configuration object.

## Model

| member | source | states |
|---|---|---|
| `AccountTypes.AllTypesComplete` | src/main/java/com/advancedxptracker/AccountType.java:6-11 | `values()` lists the four account types, each exactly once |
| `AccountTypes.ApiUrl` | src/main/java/com/advancedxptracker/AccountType.java:8-11 | every endpoint starts with the hiscores base URL and ends with `index_lite.json?player=` |
| `AccountTypes.ValueOf` | src/main/java/com/advancedxptracker/StatsDataManager.java:187-195 | `valueOf` returns a type only if that type's name is the argument, and returns one for every valid name (otherwise Java throws) |
| `AccountTypes.ValueOfName` | src/main/java/com/advancedxptracker/StatsDataManager.java:167-195 | storing a type by `name()` and reading it back with `valueOf` gives the same type |
| `AccountTypes.EndpointsDistinct` | src/main/java/com/advancedxptracker/AccountType.java:8-11 | different account types have different endpoints, display names and names |
| `Text.Lower` | src/main/java/com/advancedxptracker/StatsDataManager.java:205 | `toLowerCase` keeps the length and lowercases each character |
| `Text.LowerIdempotent` | src/main/java/com/advancedxptracker/StatsDataManager.java:205 | lowercasing a lowercased key changes nothing |
| `Text.ReplaceChar` | src/main/java/com/advancedxptracker/HiscoresClient.java:38 | `replace(c, d)` keeps the length and swaps exactly the occurrences of `c` |
| `Text.RemoveChar` | src/main/java/com/advancedxptracker/HiscoresPanel.java:471 | `replace("'", "")` leaves no apostrophe, keeps every other character as many times as it occurs, and never lengthens |
| `Text.RemoveCharAppend` | src/main/java/com/advancedxptracker/HiscoresPanel.java:471 | removal works piece by piece, so the kept characters stay in the name's order |
| `Text.CaseInsensitiveTotal` | src/main/java/com/advancedxptracker/AutoDailyFetchManager.java:196 | `CASE_INSENSITIVE_ORDER` relates any two names one way or the other |
| `Text.CaseInsensitiveTransitive` | src/main/java/com/advancedxptracker/AutoDailyFetchManager.java:196 | `CASE_INSENSITIVE_ORDER` is transitive |
| `Stats.EmptySnapshot` | src/main/java/com/advancedxptracker/PlayerStats.java:21-27 | a new `PlayerStats` has the given name and time and no entries |
| `Stats.PlayerStats.constructor` | src/main/java/com/advancedxptracker/PlayerStats.java:21-27 | the new object's value is the empty snapshot |
| `Stats.PlayerStats.Value` | src/main/java/com/advancedxptracker/PlayerStats.java:16-19 | the snapshot denoted by the object's four fields |
| `Stats.PlayerStats.SetSkill` | src/main/java/com/advancedxptracker/PlayerStats.java:29-32 | `setSkill` stores or overwrites exactly one skill entry and leaves everything else as it was |
| `Stats.PlayerStats.SetActivity` | src/main/java/com/advancedxptracker/PlayerStats.java:34-37 | `setActivity` stores or overwrites exactly one activity entry and leaves everything else as it was |
| `Gains.Gains.SkillGainOf` | src/main/java/com/advancedxptracker/PlayerGains.java:37-40 | `getSkillGain` returns the recorded gain, or (0, 0) for a name with none |
| `Gains.Gains.ActivityGainOf` | src/main/java/com/advancedxptracker/PlayerGains.java:42-45 | `getActivityGain` returns the recorded gain, or 0 for a name with none |
| `Gains.GainsOf` | src/main/java/com/advancedxptracker/PlayerStats.java:42-81 | without a baseline there are no gains; with one, gains exist exactly for the keys in both snapshots |
| `Gains.GainIsDifference` | src/main/java/com/advancedxptracker/PlayerStats.java:58-63 | when no overflow occurs, a skill's gain is the XP and level difference |
| `Gains.ScoreGainIsDifference` | src/main/java/com/advancedxptracker/PlayerStats.java:73-77 | when no overflow occurs, an activity's gain is the score difference |
| `Gains.HasGainIffIncreased` | src/main/java/com/advancedxptracker/PlayerGains.java:62-65 | `hasGain` holds exactly when XP or level went up |
| `Gains.SelfGainsZero` | src/main/java/com/advancedxptracker/PlayerStats.java:42-81 | comparing a snapshot with itself gives a zero gain for every key |
| `Gains.NoBaselineAllZero` | src/main/java/com/advancedxptracker/PlayerStats.java:44-47 | without a baseline every lookup answers zero and nothing counts as a gain |
| `Gains.PlayerGains.constructor` | src/main/java/com/advancedxptracker/PlayerGains.java:19-25 | a new object records both snapshots and no gains |
| `Gains.PlayerGains.Value` | src/main/java/com/advancedxptracker/PlayerGains.java:14-17 | the gains value denoted by the object's fields |
| `Gains.PlayerGains.AddSkillGain` | src/main/java/com/advancedxptracker/PlayerGains.java:27-30 | records exactly one skill gain and leaves the activity gains alone |
| `Gains.PlayerGains.AddActivityGain` | src/main/java/com/advancedxptracker/PlayerGains.java:32-35 | records exactly one activity gain and leaves the skill gains alone |
| `Gains.PlayerGains.GetSkillGain` | src/main/java/com/advancedxptracker/PlayerGains.java:37-40 | the recorded skill gain, or (0, 0) |
| `Gains.PlayerGains.GetActivityGain` | src/main/java/com/advancedxptracker/PlayerGains.java:42-45 | the recorded activity gain, or 0 |
| `Gains.CalculateGains` | src/main/java/com/advancedxptracker/PlayerStats.java:42-81 | the two loops produce exactly `GainsOf`, with a null `older` meaning no baseline |
| `Config.ConfigStore.Get` | src/main/java/com/advancedxptracker/StatsDataManager.java:179 | the stored value, or none when the key is unset |
| `Config.ConfigStore.Set` | src/main/java/com/advancedxptracker/StatsDataManager.java:169 | sets one key and leaves the others |
| `Config.ConfigStore.Unset` | src/main/java/com/advancedxptracker/StatsDataManager.java:314 | removes one key and leaves the others |
| `Store.DropOlderThan` | src/main/java/com/advancedxptracker/StatsDataManager.java:147 | `removeIf(t < cutoff)` keeps exactly the snapshots at or after the cutoff and never grows the list |
| `Store.CleanedAll` | src/main/java/com/advancedxptracker/StatsDataManager.java:138-162 | the cleanup keeps every key |
| `Store.DropOlderThanAppend` | src/main/java/com/advancedxptracker/StatsDataManager.java:147 | the cutoff filter distributes over concatenation |
| `Store.AppendSurvivesAtEnd` | src/main/java/com/advancedxptracker/StatsDataManager.java:220-227 | a recent snapshot appended before the cutoff is applied stays last |
| `Store.DropOlderThanIdempotent` | src/main/java/com/advancedxptracker/StatsDataManager.java:138-162 | applying the cutoff twice is applying it once |
| `Store.DropOlderThanShrinks` | src/main/java/com/advancedxptracker/StatsDataManager.java:146-150 | the filter removes something exactly when the history has an old snapshot, and otherwise changes nothing |
| `Store.NearestUnique` | src/main/java/com/advancedxptracker/StatsDataManager.java:285-297 | the index the nearest-snapshot scan picks is unique |
| `Store.WrappedDistanceExample` | src/main/java/com/advancedxptracker/StatsDataManager.java:287-296 | the `long` distance wraps: a snapshot at `Long.MAX_VALUE` is `Long.MIN_VALUE` away from target −1 and is picked, while at exactly `Long.MAX_VALUE` from target 0 it never is |
| `Store.ClosestUnique` | src/main/java/com/advancedxptracker/StatsDataManager.java:275-300 | `getSnapshotFromDaysAgo`'s answer is determined by the history and the target |
| `Store.SaveResult` | src/main/java/com/advancedxptracker/StatsDataManager.java:201-238 | a duplicate changes nothing; other players' histories are untouched; only the player's own key can be added |
| `Store.SaveAppendsAtEnd` | src/main/java/com/advancedxptracker/StatsDataManager.java:201-238 | a saved non-duplicate is the last element, after the cutoff-filtered history, and nothing older than 180 days remains |
| `Store.SaveAtWrappedCutoff` | src/main/java/com/advancedxptracker/StatsDataManager.java:225-227 | within 180 days after `Long.MIN_VALUE` the `long` cutoff wraps past `now`, so the snapshot being saved is removed at once |
| `Store.CleanupAndRemovePreserveKeysMatch` | src/main/java/com/advancedxptracker/StatsDataManager.java:138-162 | cleanup and removal keep each history filed under its player's lowercased name |
| `Store.SavePreservesKeysMatch` | src/main/java/com/advancedxptracker/StatsDataManager.java:201-238 | saving keeps each history filed under its player's lowercased name |
| `Store.StatsDataManager.constructor` | src/main/java/com/advancedxptracker/StatsDataManager.java:37-51 | an unreadable or missing file gives an empty store; the start-up cleanup runs; the flag starts clean |
| `Store.StatsDataManager.SaveAllData` | src/main/java/com/advancedxptracker/StatsDataManager.java:112-133 | a successful write persists the whole dataset; a failed one is swallowed |
| `Store.StatsDataManager.Flush` | src/main/java/com/advancedxptracker/StatsDataManager.java:70-76 | writes only when dirty, and always leaves the flag clear |
| `Store.StatsDataManager.CleanupOldSnapshots` | src/main/java/com/advancedxptracker/StatsDataManager.java:138-162 | the new data is `CleanedAll` of the old; it writes exactly when something was removed |
| `Store.StatsDataManager.SaveAccountType` | src/main/java/com/advancedxptracker/StatsDataManager.java:167-172 | stores the type's name under the player's key; loading it under any casing of the name gives the type back |
| `Store.StatsDataManager.LoadAccountType` | src/main/java/com/advancedxptracker/StatsDataManager.java:177-196 | a missing or unknown stored name falls back to `NORMAL` |
| `Store.StatsDataManager.SaveSnapshot` | src/main/java/com/advancedxptracker/StatsDataManager.java:201-238 | the data becomes `SaveResult`; the dirty flag is raised exactly when a snapshot was added |
| `Store.StatsDataManager.LoadSnapshots` | src/main/java/com/advancedxptracker/StatsDataManager.java:251-256 | the history under the lowercased name, or empty |
| `Store.StatsDataManager.GetLatestSnapshot` | src/main/java/com/advancedxptracker/StatsDataManager.java:261-270 | none exactly for an empty history, otherwise its last element |
| `Store.StatsDataManager.GetSnapshotFromDaysAgo` | src/main/java/com/advancedxptracker/StatsDataManager.java:275-300 | the answer is the snapshot nearest to the `long` target `now − days·24h` by the wrapped `long` distance, the earliest position winning ties; it is none exactly when every distance is `Long.MAX_VALUE` (always for an empty history) |
| `Store.StatsDataManager.RemovePlayer` | src/main/java/com/advancedxptracker/StatsDataManager.java:305-320 | drops the player's history and stored account type, leaves every other history, and writes |
| `Store.StatsDataManager.TrackedKeys` | src/main/java/com/advancedxptracker/StatsDataManager.java:325-342 | the keys with a non-empty history |
| `Store.StatsDataManager.GetTrackedPlayers` | src/main/java/com/advancedxptracker/StatsDataManager.java:325-342 | one display name per non-empty history, taken from its first snapshot, with no key repeated; when keys match names, no two names are equal ignoring case |
| `Store.StatsDataManager.DeletePlayer` | src/main/java/com/advancedxptracker/StatsDataManager.java:347-350 | the same effect as `removePlayer` |
| `Client.RequestUrl` | src/main/java/com/advancedxptracker/HiscoresClient.java:38 | the URL is the endpoint followed by the name with every space turned into `+` and every other character kept |
| `Client.UrlNameRecoverable` | src/main/java/com/advancedxptracker/HiscoresClient.java:38 | for names without `+`, the name can be recovered from the URL |
| `Client.KeyOf` | src/main/java/com/advancedxptracker/HiscoresClient.java:98 | `nameToKeyMap.get(name)` is non-null exactly for a non-null name in the table, and is then a table key |
| `Client.LastIndexFor` | src/main/java/com/advancedxptracker/HiscoresClient.java:96-109 | the last entry whose name maps to a key, or -1 |
| `Client.SkillsOfSpec` | src/main/java/com/advancedxptracker/HiscoresClient.java:96-109 | a skill key is stored exactly when some entry's name maps to it; the last such entry wins; unknown names are skipped |
| `Client.ActivitiesOfSpec` | src/main/java/com/advancedxptracker/HiscoresClient.java:117-135 | the same for activities, with the score narrowed by `(int)` |
| `Client.ScoreKeptWhenInRange` | src/main/java/com/advancedxptracker/HiscoresClient.java:122 | a score that fits in an `int` is stored unchanged |
| `Client.Parsed` | src/main/java/com/advancedxptracker/HiscoresClient.java:90-139 | the snapshot parsed from a document without null elements has the requested name and the parse time, and only table keys |
| `Client.HiscoresClient.constructor` | src/main/java/com/advancedxptracker/HiscoresClient.java:146-270 | the client holds the name-to-key table of `createNameToKeyMapping` |
| `Client.HiscoresClient.ParseHiscoresJson` | src/main/java/com/advancedxptracker/HiscoresClient.java:68-140 | an undecodable or null document, a missing array, or a null element in either array gives no stats (Java throws); otherwise the result is exactly the table-filtered skills and activities |
| `Client.HiscoresClient.FetchPlayerStats` | src/main/java/com/advancedxptracker/HiscoresClient.java:32-63 | the request URL; a transport failure or a non-2xx status is an I/O error carrying the code; a body that is undecodable, null, missing an array or holding a null array element is a parse error; otherwise the parsed stats |
| `Fetch.StaleOfCounts` | src/main/java/com/advancedxptracker/AutoDailyFetchManager.java:175-184 | the stale list keeps exactly the stale tracked players, each as often as it was tracked |
| `Fetch.Rank` | src/main/java/com/advancedxptracker/AutoDailyFetchManager.java:193-195 | rank 0 exactly for a name equal to the priority name ignoring case, 1 otherwise |
| `Fetch.QueueLeTotal` | src/main/java/com/advancedxptracker/AutoDailyFetchManager.java:194-196 | the queue comparator is total |
| `Fetch.QueueLeTransitive` | src/main/java/com/advancedxptracker/AutoDailyFetchManager.java:194-196 | the queue comparator is transitive |
| `Fetch.InsertPermutes` | src/main/java/com/advancedxptracker/AutoDailyFetchManager.java:194-196 | one insertion step adds the element and loses nothing |
| `Fetch.InsertMembers` | src/main/java/com/advancedxptracker/AutoDailyFetchManager.java:194-196 | one insertion step introduces no other element |
| `Fetch.InsertSorted` | src/main/java/com/advancedxptracker/AutoDailyFetchManager.java:194-196 | inserting into a sorted queue keeps it sorted |
| `Fetch.SortQueueSpec` | src/main/java/com/advancedxptracker/AutoDailyFetchManager.java:194-196 | `stale.sort(...)` gives a permutation of the stale list, sorted by the comparator |
| `Fetch.PriorityFirst` | src/main/java/com/advancedxptracker/AutoDailyFetchManager.java:192-196 | when the priority player is stale it is fetched first; priority names precede the others; equal ranks are alphabetical ignoring case |
| `Fetch.NoPriorityAlphabetical` | src/main/java/com/advancedxptracker/AutoDailyFetchManager.java:192-196 | with no priority name the queue is alphabetical ignoring case |
| `Fetch.PriorityKey` | src/main/java/com/advancedxptracker/AutoDailyFetchManager.java:193 | the priority name is lowercased, and null stays null |
| `Fetch.QueueOfTracked` | src/main/java/com/advancedxptracker/AutoDailyFetchManager.java:168-196 | the cycle's queue holds exactly the stale tracked players, each once, in comparator order |
| `Fetch.StalePlayers` | src/main/java/com/advancedxptracker/AutoDailyFetchManager.java:175-184 | the filtering loop computes the stale list |
| `Fetch.StepSendsOneRequest` | src/main/java/com/advancedxptracker/AutoDailyFetchManager.java:238-239 | every step sends exactly one request, to the player's stored account type endpoint |
| `Fetch.IoErrorSkipsPlayer` | src/main/java/com/advancedxptracker/AutoDailyFetchManager.java:248-264 | an I/O error skips the player: nothing is saved or notified, and the next step is scheduled |
| `Fetch.ParseErrorEndsCycle` | src/main/java/com/advancedxptracker/AutoDailyFetchManager.java:236-251 | a parse failure is not caught, so the cycle ends with nothing saved, notified or scheduled |
| `Fetch.SavedBeforeNotified` | src/main/java/com/advancedxptracker/AutoDailyFetchManager.java:238-241 | on success the snapshot is saved and then the listener is notified once; a non-duplicate raises the dirty flag and, unless the clock is within 180 days of `Long.MIN_VALUE`, ends its history; a duplicate changes nothing |
| `Fetch.StepSchedulesNextIndex` | src/main/java/com/advancedxptracker/AutoDailyFetchManager.java:253-270 | unless stopped or aborted, the next index is scheduled, after 10 s while players remain and after 0 s for the final summary |
| `Fetch.AutoDailyFetchManager.constructor` | src/main/java/com/advancedxptracker/AutoDailyFetchManager.java:46-56 | starts with no timer and nothing pending |
| `Fetch.AutoDailyFetchManager.OnPlayerLoggedIn` | src/main/java/com/advancedxptracker/AutoDailyFetchManager.java:63-87 | clears `stopped`; replaces the pending step with an immediate cycle that prioritises the player; starts the hourly timer only if none is running |
| `Fetch.AutoDailyFetchManager.OnPlayerLoggedOut` | src/main/java/com/advancedxptracker/AutoDailyFetchManager.java:93-99 | stops, cancels the timer and drops the pending step |
| `Fetch.AutoDailyFetchManager.Shutdown` | src/main/java/com/advancedxptracker/AutoDailyFetchManager.java:104-110 | the same as logging out |
| `Fetch.AutoDailyFetchManager.FetchNext` | src/main/java/com/advancedxptracker/AutoDailyFetchManager.java:224-271 | past the end nothing changes; otherwise the new state is `AfterFetchNext` of the old one with the fetch outcome |
| `Fetch.AutoDailyFetchManager.TriggerFetchCycle` | src/main/java/com/advancedxptracker/AutoDailyFetchManager.java:160-202 | the queue satisfies `CycleQueue`; an empty queue changes nothing; otherwise the first step runs |
| `Fetch.AutoDailyFetchManager.RunPendingStep` | src/main/java/com/advancedxptracker/AutoDailyFetchManager.java:116-129 | runs and consumes the scheduled cycle start or fetch step |
| `Fetch.AutoDailyFetchManager.HourlyTimerFires` | src/main/java/com/advancedxptracker/AutoDailyFetchManager.java:75-79 | an active timer starts a cycle with no priority; an uncaught failure cancels the fixed-rate timer |
| `Plugin.CapturedRanksUnknown` | src/main/java/com/advancedxptracker/AdvancedXpTrackerPlugin.java:200-207 | every skill captured from the client has rank -1 |
| `Plugin.CapturedRanks` | src/main/java/com/advancedxptracker/AdvancedXpTrackerPlugin.java:185-210 | the capture loop stores rank -1 for every key |
| `Plugin.CapturedKeys` | src/main/java/com/advancedxptracker/AdvancedXpTrackerPlugin.java:185-210 | the captured keys are exactly `overall` and the lowercased skill names read |
| `Plugin.CapturedEntries` | src/main/java/com/advancedxptracker/AdvancedXpTrackerPlugin.java:185-210 | each skill read is stored under its key with its level and XP |
| `Plugin.OverallIsSum` | src/main/java/com/advancedxptracker/AdvancedXpTrackerPlugin.java:187-200 | when no overflow occurs, `overall` holds the sums of the other skills' levels and XP |
| `Plugin.LevelSumBounded` | src/main/java/com/advancedxptracker/AdvancedXpTrackerPlugin.java:190-198 | with levels 0..99 the total level lies between 0 and 99 per skill |
| `Plugin.Totals` | src/main/java/com/advancedxptracker/AdvancedXpTrackerPlugin.java:190-199 | the summing loop gives the exact sums wrapped to `int` and `long` |
| `Plugin.GuardExpires` | src/main/java/com/advancedxptracker/AdvancedXpTrackerPlugin.java:129-153 | each tick lowers a positive guard; the login guard expires after two ticks |
| `Plugin.TrackerPlugin.constructor` | src/main/java/com/advancedxptracker/AdvancedXpTrackerPlugin.java:64-66 | no player, guard 0, account hash -1 |
| `Plugin.TrackerPlugin.CaptureClientStats` | src/main/java/com/advancedxptracker/AdvancedXpTrackerPlugin.java:171-223 | without a logged-in player nothing happens; otherwise the client snapshot is saved and the panel told |
| `Plugin.TrackerPlugin.OnGameStateChanged` | src/main/java/com/advancedxptracker/AdvancedXpTrackerPlugin.java:110-144 | a new account hash is always recorded; with a named local player it captures (data as `SaveResult`, dirty raised exactly for a non-duplicate); with no local player (Java throws) or a null name nothing is captured, and a null name is kept, so the login screen does not reset the hash and that account is not captured again; a region change changes nothing; logging in or hopping arms the guard |
| `Plugin.TrackerPlugin.OnGameTick` | src/main/java/com/advancedxptracker/AdvancedXpTrackerPlugin.java:146-153 | the guard counts down to zero |
| `Plugin.TrackerPlugin.OnStatChanged` | src/main/java/com/advancedxptracker/AdvancedXpTrackerPlugin.java:155-169 | stat changes are ignored while the guard is armed, and otherwise captured for the logged-in player (data as `SaveResult`, dirty raised exactly for a non-duplicate) |
| `Panel.TimeframeDays` | src/main/java/com/advancedxptracker/HiscoresPanel.java:1005-1015 | the look-back is one of 0, 7, 30 or 365 days, and is 0 exactly for "Today" |
| `Panel.TimeframeTable` | src/main/java/com/advancedxptracker/HiscoresPanel.java:1005-1015 | Today→0, Week→7, Month→30, Year→365, anything else→7 |
| `Panel.Capitalize` | src/main/java/com/advancedxptracker/HiscoresPanel.java:1367-1374 | null and empty input come back unchanged; otherwise only the first character is upper-cased and the rest kept |
| `Panel.CapitalizeIdempotent` | src/main/java/com/advancedxptracker/HiscoresPanel.java:1367-1374 | capitalising twice is capitalising once |
| `Panel.BossKey` | src/main/java/com/advancedxptracker/HiscoresPanel.java:471 | a boss key has no space, apostrophe, hyphen or capital letter, and is no longer than the name |
| `Panel.BossKeyRule` | src/main/java/com/advancedxptracker/HiscoresPanel.java:471 | the key is the name without apostrophes, each remaining character in order lower-cased and spaces and hyphens turned into underscores |
| `Panel.BossKeyFixesKeys` | src/main/java/com/advancedxptracker/HiscoresPanel.java:471 | a name made only of key characters is its own key |
| `Panel.BossKeyIdempotent` | src/main/java/com/advancedxptracker/HiscoresPanel.java:471 | normalising a key again changes nothing |
| `Panel.ShownSkillGain` | src/main/java/com/advancedxptracker/HiscoresPanel.java:1036-1050 | a skill row shows the recorded XP gain (0 without gains) only for a skill the current stats contain, and no gain otherwise |
| `Panel.AbsentSkillShowsNoGain` | src/main/java/com/advancedxptracker/HiscoresPanel.java:1036-1050 | a skill the current stats lack never shows gain text, whatever the gains record for it |
| `Panel.ShownScore` | src/main/java/com/advancedxptracker/HiscoresPanel.java:1086-1088 | the score and gain an activity or boss row shows, with 0 for an absent entry or absent gains |
| `Panel.AbsentActivityShowsNoGain` | src/main/java/com/advancedxptracker/HiscoresPanel.java:1086-1092 | an activity the player has no entry for never shows gain text |
| `Panel.NoBaselineShowsNothing` | src/main/java/com/advancedxptracker/HiscoresPanel.java:1038-1092 | gains without a baseline show no gain text on any row |
| `Panel.DailyGains` | src/main/java/com/advancedxptracker/HiscoresPanel.java:960-986 | the view is flagged "no baseline" exactly when there is no day snapshot, or when there is no previous-day snapshot on a day other than today |
| `Panel.DailyBaseline` | src/main/java/com/advancedxptracker/HiscoresPanel.java:962-973 | with a baseline, today compares the current stats with the day snapshot, and an earlier day compares the day snapshot with the previous day's |
| `Panel.DailyNoBaselineZero` | src/main/java/com/advancedxptracker/HiscoresPanel.java:974-986 | a view with no baseline records only zero gains, so no skill shows gain text |
| `Panel.TodayBaselineIsNewest` | src/main/java/com/advancedxptracker/HiscoresPanel.java:955-966 | with offset 0 the target is the present moment, so today's baseline is the newest snapshot |
| `Panel.HiscoresPanel.constructor` | src/main/java/com/advancedxptracker/HiscoresPanel.java:276-346 | "Today" selected, offset 0, nothing shown; the selector is filled and the remembered player restored as by `refreshPlayerList`, and a restored player's load is requested (generation 1, status loading) |
| `Panel.HiscoresPanel.SelectedItem` | src/main/java/com/advancedxptracker/HiscoresPanel.java:830 | the selected player, or none for index -1 |
| `Panel.HiscoresPanel.BeginRequest` | src/main/java/com/advancedxptracker/HiscoresPanel.java:842 | every request gets a generation larger than all before it |
| `Panel.HiscoresPanel.PreviousDay` | src/main/java/com/advancedxptracker/HiscoresPanel.java:562-566 | pressed only while "Today" is selected (the row's visibility, lines 597 and 610), the offset goes one day back and the daily view refreshes |
| `Panel.HiscoresPanel.NextDay` | src/main/java/com/advancedxptracker/HiscoresPanel.java:572-578 | pressed only while "Today" is selected and the button is enabled (line 990), the offset goes one day forward only when it is positive, so it is never negative |
| `Panel.HiscoresPanel.SelectTimeframe` | src/main/java/com/advancedxptracker/HiscoresPanel.java:594-607 | "Today" resets the offset to 0 and refreshes the daily view; anything else refreshes the gains |
| `Panel.HiscoresPanel.RefreshDailyView` | src/main/java/com/advancedxptracker/HiscoresPanel.java:931-954 | without current stats nothing happens; otherwise a new request captures the offset and the stats |
| `Panel.HiscoresPanel.RefreshGains` | src/main/java/com/advancedxptracker/HiscoresPanel.java:907-919 | without current stats nothing happens; otherwise a new request captures the timeframe's day count |
| `Panel.HiscoresPanel.DailyWorker` | src/main/java/com/advancedxptracker/HiscoresPanel.java:955-986 | looks up the day and previous-day snapshots and chooses the view by `DailyGains` |
| `Panel.HiscoresPanel.GainsWorker` | src/main/java/com/advancedxptracker/HiscoresPanel.java:920-922 | gains of the captured stats over the nearest snapshot, or no baseline |
| `Panel.HiscoresPanel.LatestWorker` | src/main/java/com/advancedxptracker/HiscoresPanel.java:1440-1446 | the newest stored snapshot and its gains, or nothing for an empty history |
| `Panel.HiscoresPanel.LoadWorker` | src/main/java/com/advancedxptracker/HiscoresPanel.java:852-868 | a failed fetch changes no data; a successful one is saved (data as `SaveResult`, dirty raised exactly for a non-duplicate) before its gains are computed |
| `Panel.HiscoresPanel.ApplyDaily` | src/main/java/com/advancedxptracker/HiscoresPanel.java:988-1001 | a stale generation changes nothing; otherwise "next day" is enabled exactly for a positive offset, the no-baseline status is shown, and the gains are replaced |
| `Panel.HiscoresPanel.ApplyGains` | src/main/java/com/advancedxptracker/HiscoresPanel.java:923-927 | a stale generation changes nothing; otherwise the gains are replaced, and after an automatic fetch (lines 1415-1419) the stats too |
| `Panel.HiscoresPanel.ApplyLatest` | src/main/java/com/advancedxptracker/HiscoresPanel.java:1447-1452 | a stale generation or an empty history changes nothing; otherwise the stats and gains are replaced |
| `Panel.HiscoresPanel.ApplyLoad` | src/main/java/com/advancedxptracker/HiscoresPanel.java:869-895 | a stale generation changes nothing; success shows the stats and gains; failure shows the error |
| `Panel.HiscoresPanel.LoadPlayerData` | src/main/java/com/advancedxptracker/HiscoresPanel.java:824-848 | nothing happens before the data is loaded; a blank selection clears the view; otherwise the selection is remembered and a load requested |
| `Panel.HiscoresPanel.RefreshPlayerData` | src/main/java/com/advancedxptracker/HiscoresPanel.java:899-905 | without current stats nothing happens; otherwise each path of `loadPlayerData`: nothing when not initialized, a cleared view for a missing or blank selection, else the remembered name, a new generation and a load request |
| `Panel.HiscoresPanel.OnAutoFetchCompleted` | src/main/java/com/advancedxptracker/HiscoresPanel.java:1404-1423 | a request is made exactly when the fetched player is the selected one, ignoring case |
| `Panel.HiscoresPanel.OnClientStatsUpdated` | src/main/java/com/advancedxptracker/HiscoresPanel.java:1428-1456 | a request is made exactly when the updated player is the selected one, ignoring case |
| `Panel.HiscoresPanel.ListPlayers` | src/main/java/com/advancedxptracker/HiscoresPanel.java:654-705 | the selector lists the tracked players; the remembered player is selected at its first position if still listed; otherwise the key is unset and nothing is selected |
| `Panel.HiscoresPanel.RefreshPlayerList` | src/main/java/com/advancedxptracker/HiscoresPanel.java:654-714 | the listing of `ListPlayers`, then a load exactly when a player was restored: a request for a non-blank name, a cleared view for a blank one, and the configuration left as it was |
| `Panel.HiscoresPanel.SelectPlayer` | src/main/java/com/advancedxptracker/HiscoresPanel.java:339-345 | a user's choice becomes the selection and runs `loadPlayerData` for it, with each of its three outcomes stated |

## Left out

- File I/O and JSON: reading and writing the data file, Gson, and directory creation. The loaded dataset and each write's success are parameters. A partly written file is not modelled.
- HTTP and JSON decoding: the exchange's outcome is a parameter (no response, a status code, an undecodable, null or decoded document). Log lines are not modelled.
- `PlayerNotFoundException`: `fetchPlayerStats` never throws it, so the `catch` branches for it in `fetchNext` and `loadPlayerData` are unreachable and not modelled.
- Concurrency. The executors, `synchronized`, `AtomicBoolean` and `volatile` are not modelled. Each scheduled task runs as one atomic step when the caller picks it, so overlapping hourly and pending cycles are not modelled. `RejectedExecutionException` after shutdown is not modelled either.
- Panel.HiscoresPanel.BeginRequest: the generation counter is an unbounded integer; `AtomicInteger.incrementAndGet` turns negative after 2^31−1 requests, and its values first repeat after 2^32 requests (the generation check compares for equality, so only the repeat matters).
- Panel.HiscoresPanel.PreviousDay: the day offset is an unbounded natural number; Java's `int` would wrap after 2^31−1 presses. Day counts reach `getSnapshotFromDaysAgo` through an explicit `int` wrap.
- Text.Lower: case mapping is ASCII-only. Java's `toLowerCase()` and `toUpperCase()` follow Unicode and the default locale, so for other letters the model's keys and displayed names can differ from Java's. For example, Java upper-cases "ß" to "SS", which `Panel.Capitalize`'s length-preserving contract does not allow.
- Time zones: `LocalDate.now()` and the epoch-millisecond-to-date conversion in `isStale` are the parameters `today` and `dateOf`.
- Client.HiscoresClient.constructor: the 113-entry table is written out entry by entry. The model does not prove that no two API names share a key. Comparing that many string literals pairwise is beyond the solver's resource limit, although no key repeats in the table as written.
- `initialize(executor)`: the 30-second periodic flush is the timer around `Flush`. Only `Flush` itself is modelled.
- Fetch.SortQueueSpec: `List.sort` is stable, and the model's insertion sort places each new element after every equal one, so the two give the same order; the model proves its result a sorted permutation but does not state its own stability as a lemma.
- `createNameToKeyMapping` builds the table anew on every parse; the model's client builds it once. The mapping is the same.
- Calls to code outside the core: `isInitialized`, `getLatestHiscoresSnapshot` and `PlayerStats.getTotalXp` are not defined in the source files. They are the parameters `initialized`, `latestApi` and `totalXpOf`.
- `saveSnapshot(stats, source)`: the source argument only appears in log messages, so both overloads are modelled as one `SaveSnapshot`.
- Swing and assets: widgets, layout, tooltips, HTML strings, number formatting, sprites, the sprite tables and `SpriteViewer` are not modelled. The auto-refresh timer is left out as well.
- The panel's add-player and remove-player dialogs (`addPlayer`, `removePlayer`) are user dialogs (`JOptionPane`), so they are not modelled. Their effect on the store is `SaveSnapshot`, `SaveAccountType` and `RemovePlayer`.
- The XP table `computeXpTable` uses `Math.pow` and doubles, so it is not modelled.
- `AdvancedXpTrackerConfig` is not modelled: the core never reads its options.
- `getTimeframeDays(null)` throws a `NullPointerException` in Java. The selector always holds a value, so that path is not modelled.
