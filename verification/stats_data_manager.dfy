/** The snapshot store (`StatsDataManager`): for every lowercased username, the
    list of snapshots in the order they were saved, with a flat 180-day cutoff,
    duplicate suppression by total XP, a dirty flag for the deferred write of
    the data file, and the per-player account type kept in the configuration. */
module Store {
  import opened Base
  import opened Text
  import opened Stats
  import opened AccountTypes
  import opened Config

  const MillisPerDay: int := 86_400_000
  /** `MAX_SNAPSHOT_AGE`: 180 days in milliseconds. */
  const MaxSnapshotAge: int := 180 * MillisPerDay
  const AccountTypeKeyPrefix: string := "accounttype_"
  /** `Long.MAX_VALUE`, the starting distance of the nearest-snapshot search. */
  const LongMax: int := TwoTo63 - 1

  type Dataset = map<string, seq<Snapshot>>

  function AccountTypeKey(username: string): string {
    AccountTypeKeyPrefix + Lower(username)
  }

  /** The history stored under `key`, or the empty list when there is none. */
  function HistoryIn(data: Dataset, key: string): seq<Snapshot> {
    if key in data then data[key] else []
  }

  /** `snapshots.removeIf(s -> s.getTimestamp() < cutoff)`. */
  function DropOlderThan(h: seq<Snapshot>, cutoff: int): (r: seq<Snapshot>)
    ensures |r| <= |h|
    ensures forall s :: s in r <==> s in h && s.timestamp >= cutoff
  {
    if h == [] then []
    else
      assert forall s :: s in h <==> s == h[0] || s in h[1..];
      (if h[0].timestamp < cutoff then [] else [h[0]]) + DropOlderThan(h[1..], cutoff)
  }

  predicate HasOlderThan(h: seq<Snapshot>, cutoff: int) {
    exists s :: s in h && s.timestamp < cutoff
  }

  /** Some history of the dataset holds a snapshot older than the cutoff. */
  predicate AnyOlderThan(data: Dataset, cutoff: int) {
    exists k :: k in data && HasOlderThan(data[k], cutoff)
  }

  /** Some history among `keys` holds a snapshot older than the cutoff. */
  predicate OlderAmong(data: Dataset, keys: set<string>, cutoff: int) {
    exists k :: k in keys && k in data && HasOlderThan(data[k], cutoff)
  }

  lemma OlderAmongStep(data: Dataset, keys: set<string>, k: string, cutoff: int)
    requires k in data
    ensures OlderAmong(data, keys + {k}, cutoff) <==> OlderAmong(data, keys, cutoff) || HasOlderThan(data[k], cutoff)
  {
  }

  /** Scanning every key is the same test as `AnyOlderThan`. */
  lemma OlderAmongAll(data: Dataset, cutoff: int)
    ensures OlderAmong(data, data.Keys, cutoff) <==> AnyOlderThan(data, cutoff)
  {
  }

  /** Every history of the dataset with the cutoff applied. */
  function CleanedAll(data: Dataset, cutoff: int): (r: Dataset)
    ensures r.Keys == data.Keys
  {
    map k | k in data :: DropOlderThan(data[k], cutoff)
  }

  /** Filtering distributes over concatenation: survivors keep their relative order. */
  lemma {:induction false} DropOlderThanAppend(a: seq<Snapshot>, b: seq<Snapshot>, cutoff: int)
    ensures DropOlderThan(a + b, cutoff) == DropOlderThan(a, cutoff) + DropOlderThan(b, cutoff)
  {
    if a == [] {
      assert a + b == b;
    } else {
      assert (a + b)[0] == a[0] && (a + b)[1..] == a[1..] + b;
      DropOlderThanAppend(a[1..], b, cutoff);
    }
  }

  /** A snapshot that survives the cutoff is the new last element, after the
      survivors of the old history in their old order. */
  lemma AppendSurvivesAtEnd(h: seq<Snapshot>, s: Snapshot, cutoff: int)
    requires s.timestamp >= cutoff
    ensures DropOlderThan(h + [s], cutoff) == DropOlderThan(h, cutoff) + [s]
  {
    DropOlderThanAppend(h, [s], cutoff);
    assert DropOlderThan([s], cutoff) == [s] by {
      assert [s][1..] == [];
    }
  }

  /** Applying the cutoff twice removes nothing more. */
  lemma {:induction false} DropOlderThanIdempotent(h: seq<Snapshot>, cutoff: int)
    ensures DropOlderThan(DropOlderThan(h, cutoff), cutoff) == DropOlderThan(h, cutoff)
  {
    if h != [] {
      DropOlderThanIdempotent(h[1..], cutoff);
      DropOlderThanAppend(if h[0].timestamp < cutoff then [] else [h[0]], DropOlderThan(h[1..], cutoff), cutoff);
      if h[0].timestamp >= cutoff {
        assert [h[0]][1..] == [];
      }
    }
  }

  /** Something is removed exactly when the history holds an old snapshot. */
  lemma {:induction false} DropOlderThanShrinks(h: seq<Snapshot>, cutoff: int)
    ensures |DropOlderThan(h, cutoff)| < |h| <==> HasOlderThan(h, cutoff)
    ensures !HasOlderThan(h, cutoff) ==> DropOlderThan(h, cutoff) == h
  {
    if h != [] {
      DropOlderThanShrinks(h[1..], cutoff);
      assert forall s :: s in h <==> s == h[0] || s in h[1..];
      if !HasOlderThan(h, cutoff) {
        assert h == [h[0]] + h[1..];
      }
    }
  }

  /** `System.currentTimeMillis() - MAX_SNAPSHOT_AGE`, in `long` arithmetic. */
  function CutoffTime(now: Int64): (r: Int64)
    ensures -TwoTo63 + MaxSnapshotAge <= now ==> r == now - MaxSnapshotAge
  {
    Wrap64(now - MaxSnapshotAge)
  }

  /** The target of `getSnapshotFromDaysAgo`: `now - TimeUnit.DAYS.toMillis(days)`.
      The day count in milliseconds always fits a `long`; the subtraction wraps. */
  function TargetTime(now: Int64, days: Int32): (r: Int64)
    ensures -TwoTo63 <= now - days * MillisPerDay < TwoTo63 ==> r == now - days * MillisPerDay
  {
    Wrap64(now - days * MillisPerDay)
  }

  /** The distance `Math.abs(t - target)` of the scan, in `long` arithmetic: exact
      while `t - target` fits a `long`; beyond that the difference wraps, and a
      wrapped difference of `Long.MIN_VALUE` stays negative. */
  function Distance(t: Int64, target: Int64): (r: Int64)
    ensures -TwoTo63 < t - target < TwoTo63 ==> r == (if t >= target then t - target else target - t)
  {
    LongAbs(Wrap64(t - target))
  }

  /** Index `k` of `h` is the one the nearest-snapshot scan picks: no snapshot is
      strictly closer to `target`, and every earlier one is strictly farther
      (a tie goes to the earliest list position). */
  predicate NearestAt(h: seq<Snapshot>, target: Int64, k: int) {
    && 0 <= k < |h|
    && (forall j :: 0 <= j < |h| ==> Distance(h[k].timestamp, target) <= Distance(h[j].timestamp, target))
    && (forall j :: 0 <= j < k ==> Distance(h[j].timestamp, target) > Distance(h[k].timestamp, target))
  }

  /** At most one index is the nearest in this sense, so the answer is determined. */
  lemma NearestUnique(h: seq<Snapshot>, target: Int64, k1: int, k2: int)
    requires NearestAt(h, target, k1) && NearestAt(h, target, k2)
    ensures k1 == k2
  {
    // each is at most as far as the other, so they are equally far
    assert Distance(h[k1].timestamp, target) == Distance(h[k2].timestamp, target);
  }

  /** The `long` distance wraps: a snapshot at `Long.MAX_VALUE` is `Long.MIN_VALUE`
      away from the target -1, which beats the starting bound, so the scan picks it;
      exactly `Long.MAX_VALUE` away from the target 0, it is never picked. */
  lemma WrappedDistanceExample(a: Snapshot)
    requires a.timestamp == LongMax
    ensures Distance(a.timestamp, -1) == -TwoTo63
    ensures ClosestAnswer([a], -1, Some(a))
    ensures ClosestAnswer([a], 0, None)
  {
    assert Distance(a.timestamp, -1) == -TwoTo63;
    assert NearestAt([a], -1, 0);
  }

  /** What `getSnapshotFromDaysAgo` may answer for history `h` and target time
      `target`: nothing exactly when every snapshot is `Long.MAX_VALUE` away (the
      scan's initial bound, which a `long` distance cannot exceed), and otherwise
      the nearest snapshot. */
  ghost predicate ClosestAnswer(h: seq<Snapshot>, target: Int64, r: Option<Snapshot>) {
    && (r.None? <==> forall j :: 0 <= j < |h| ==> Distance(h[j].timestamp, target) == LongMax)
    && (r.Some? ==> exists k :: NearestAt(h, target, k) && r.value == h[k])
  }

  /** The answer is determined by the history and the target. */
  lemma ClosestUnique(h: seq<Snapshot>, target: Int64, r1: Option<Snapshot>, r2: Option<Snapshot>)
    requires ClosestAnswer(h, target, r1) && ClosestAnswer(h, target, r2)
    ensures r1 == r2
  {
    if r1.Some? {
      var k1 :| NearestAt(h, target, k1) && r1.value == h[k1];
      var k2 :| NearestAt(h, target, k2) && r2.value == h[k2];
      NearestUnique(h, target, k1, k2);
    }
  }

  /** The duplicate test of `saveSnapshot`: a non-empty history whose latest
      snapshot has the same nonzero total XP. */
  predicate IsDuplicate(history: seq<Snapshot>, stats: Snapshot, totalXpOf: Snapshot -> Int64) {
    && |history| > 0
    && totalXpOf(stats) != 0
    && totalXpOf(stats) == totalXpOf(history[|history| - 1])
  }

  /** The dataset after `saveSnapshot(stats)` at time `now`. */
  function SaveResult(data: Dataset, stats: Snapshot, now: Int64, totalXpOf: Snapshot -> Int64): (r: Dataset)
    ensures IsDuplicate(HistoryIn(data, Lower(stats.username)), stats, totalXpOf) ==> r == data
    ensures forall k :: k != Lower(stats.username) ==> HistoryIn(r, k) == HistoryIn(data, k)
    ensures r.Keys == data.Keys + {Lower(stats.username)} || r == data
  {
    var key := Lower(stats.username);
    var history := HistoryIn(data, key);
    if IsDuplicate(history, stats, totalXpOf) then data
    else data[key := DropOlderThan(history + [stats], CutoffTime(now))]
  }

  /** A saved snapshot that is not a duplicate ends the player's history, after the
      survivors of the old history in their old order, and nothing older than the
      cutoff remains; so it is then the latest snapshot. */
  lemma SaveAppendsAtEnd(data: Dataset, stats: Snapshot, now: Int64, totalXpOf: Snapshot -> Int64)
    requires !IsDuplicate(HistoryIn(data, Lower(stats.username)), stats, totalXpOf)
    requires stats.timestamp >= CutoffTime(now)
    ensures HistoryIn(SaveResult(data, stats, now, totalXpOf), Lower(stats.username))
      == DropOlderThan(HistoryIn(data, Lower(stats.username)), CutoffTime(now)) + [stats]
    ensures forall s :: s in HistoryIn(SaveResult(data, stats, now, totalXpOf), Lower(stats.username)) ==>
      s.timestamp >= CutoffTime(now)
  {
    AppendSurvivesAtEnd(HistoryIn(data, Lower(stats.username)), stats, CutoffTime(now));
  }

  /** Less than 180 days after `Long.MIN_VALUE` the `long` cutoff wraps round to
      a time later than `now`, so a snapshot stamped `now` is removed by the very
      save that adds it. */
  lemma SaveAtWrappedCutoff(data: Dataset, stats: Snapshot, now: Int64, totalXpOf: Snapshot -> Int64)
    requires !IsDuplicate(HistoryIn(data, Lower(stats.username)), stats, totalXpOf)
    requires stats.timestamp == now && now < -TwoTo63 + MaxSnapshotAge
    ensures CutoffTime(now) > now
    ensures stats !in HistoryIn(SaveResult(data, stats, now, totalXpOf), Lower(stats.username))
  {
    assert CutoffTime(now) == now - MaxSnapshotAge + TwoTo64;
  }

  /** The names `getTrackedPlayers` reports: each non-empty history's first username. */
  function TrackedNames(data: Dataset): set<string> {
    set k | k in data && data[k] != [] :: data[k][0].username
  }

  /** Every snapshot is stored under the lowercase of its own username, as
      `saveSnapshot` files it. */
  predicate KeysMatch(data: Dataset) {
    forall k, s :: k in data && s in data[k] ==> Lower(s.username) == k
  }

  /** The cutoff and the removal of a player keep every snapshot under the
      lowercase of its username. */
  lemma CleanupAndRemovePreserveKeysMatch(data: Dataset, cutoff: int, key: string)
    requires KeysMatch(data)
    ensures KeysMatch(CleanedAll(data, cutoff))
    ensures KeysMatch(data - {key})
  {
  }

  /** Saving keeps every snapshot under the lowercase of its username. */
  lemma SavePreservesKeysMatch(data: Dataset, stats: Snapshot, now: Int64, totalXpOf: Snapshot -> Int64)
    requires KeysMatch(data)
    ensures KeysMatch(SaveResult(data, stats, now, totalXpOf))
  {
    var r := SaveResult(data, stats, now, totalXpOf);
    forall k: string, s: Snapshot | k in r && s in r[k] ensures Lower(s.username) == k {
      if k != Lower(stats.username) {
        assert HistoryIn(r, k) == HistoryIn(data, k);
      }
    }
  }

  class StatsDataManager {
    /** `allPlayerData`: lowercased username to its snapshots, oldest save first. */
    var allPlayerData: Dataset
    /** `isDirty`: a save happened since the data file was last written. */
    var isDirty: bool
    /** Every successful write of the data file, in order, with the dataset it wrote. */
    var persisted: seq<Dataset>
    const configManager: ConfigStore
    /** `PlayerStats.getTotalXp`, which the PlayerStats class in this model does not
        define: an arbitrary function of the snapshot. */
    const totalXpOf: Snapshot -> Int64

    /** Loads the data file (`None` for a missing, unreadable or empty file, all of
        which start fresh) and then removes snapshots older than 180 days. */
    constructor (configManager: ConfigStore, totalXpOf: Snapshot -> Int64,
                 loaded: Option<Dataset>, now: Int64, writeOk: bool)
      ensures this.configManager == configManager && this.totalXpOf == totalXpOf
      ensures var data := if loaded.Some? then loaded.value else map[];
        && allPlayerData == CleanedAll(data, CutoffTime(now))
        && persisted == (if writeOk && AnyOlderThan(data, CutoffTime(now)) then [allPlayerData] else [])
      ensures !isDirty
    {
      this.configManager := configManager;
      this.totalXpOf := totalXpOf;
      allPlayerData := if loaded.Some? then loaded.value else map[];
      isDirty := false;
      persisted := [];
      new;
      CleanupOldSnapshots(now, writeOk);
    }

    /** `saveAllData`: a failed write is logged and swallowed. */
    method SaveAllData(writeOk: bool)
      modifies this`persisted
      ensures persisted == old(persisted) + (if writeOk then [allPlayerData] else [])
    {
      if writeOk {
        persisted := persisted + [allPlayerData];
      }
    }

    /** `flush`: writes only when dirty, and clears the flag before writing, so a
        failed write is not retried and a second flush does nothing. */
    method Flush(writeOk: bool)
      modifies this`isDirty, this`persisted
      ensures !isDirty
      ensures persisted == old(persisted) + (if old(isDirty) && writeOk then [allPlayerData] else [])
    {
      if isDirty {
        isDirty := false;
        SaveAllData(writeOk);
      }
    }

    /** `cleanupOldSnapshots`: applies the cutoff to every history, touches nothing
        else, and writes the file when anything was removed. */
    method CleanupOldSnapshots(now: Int64, writeOk: bool)
      modifies this`allPlayerData, this`persisted
      ensures allPlayerData == CleanedAll(old(allPlayerData), CutoffTime(now))
      ensures persisted == old(persisted) +
        (if writeOk && AnyOlderThan(old(allPlayerData), CutoffTime(now)) then [allPlayerData] else [])
    {
      var cutoffTime := CutoffTime(now);
      var totalRemoved := 0;
      ghost var start := allPlayerData;
      ghost var done: set<string> := {};
      var todo := allPlayerData.Keys;
      while todo != {}
        invariant todo !! done && todo + done == start.Keys && allPlayerData.Keys == start.Keys
        invariant forall k :: k in done ==> allPlayerData[k] == DropOlderThan(start[k], cutoffTime)
        invariant forall k :: k in todo ==> allPlayerData[k] == start[k]
        invariant totalRemoved > 0 <==> OlderAmong(start, done, cutoffTime)
        invariant persisted == old(persisted)
        decreases todo
      {
        var k :| k in todo;
        var snapshots := allPlayerData[k];
        var beforeSize := |snapshots|;
        snapshots := DropOlderThan(snapshots, cutoffTime);
        allPlayerData := allPlayerData[k := snapshots];
        var removed := beforeSize - |snapshots|;
        DropOlderThanShrinks(start[k], cutoffTime);
        OlderAmongStep(start, done, k, cutoffTime);
        if removed > 0 {
          totalRemoved := totalRemoved + removed;
        }
        todo := todo - {k};
        done := done + {k};
      }
      assert allPlayerData == CleanedAll(start, cutoffTime);
      OlderAmongAll(start, cutoffTime);
      if totalRemoved > 0 {
        SaveAllData(writeOk);
      }
    }

    /** `saveAccountType`: after it, the type reads back for any casing of the name. */
    method SaveAccountType(username: string, accountType: AccountType)
      modifies configManager
      ensures configManager.entries == old(configManager.entries)[AccountTypeKey(username) := Name(accountType)]
      ensures forall u :: Lower(u) == Lower(username) ==> LoadAccountType(u) == accountType
    {
      configManager.Set(AccountTypeKey(username), Name(accountType));
      forall u | Lower(u) == Lower(username)
        ensures LoadAccountType(u) == accountType
      {
        assert AccountTypeKey(u) == AccountTypeKey(username);
        ValueOfName(accountType);
      }
    }

    /** `loadAccountType`: NORMAL for a missing, empty or unrecognised value. */
    function LoadAccountType(username: string): (t: AccountType)
      reads this, configManager
      ensures AccountTypeKey(username) !in configManager.entries ==> t == Normal
      ensures AccountTypeKey(username) in configManager.entries ==>
        t == (match ValueOf(configManager.entries[AccountTypeKey(username)])
              case None => Normal
              case Some(v) => v)
    {
      var typeName := configManager.Get(AccountTypeKey(username));
      if typeName.None? || typeName.value == "" then Normal
      else match ValueOf(typeName.value)
        case None => Normal
        case Some(v) => v
    }

    /** `saveSnapshot`: a duplicate changes nothing; otherwise the snapshot is
        appended under the lowercased username, everything older than 180 days is
        dropped from that history, and the store becomes dirty. */
    method SaveSnapshot(stats: Snapshot, now: Int64)
      modifies this`allPlayerData, this`isDirty
      ensures allPlayerData == SaveResult(old(allPlayerData), stats, now, totalXpOf)
      ensures isDirty == (old(isDirty) || !IsDuplicate(HistoryIn(old(allPlayerData), Lower(stats.username)), stats, totalXpOf))
    {
      var key := Lower(stats.username);
      var snapshots := HistoryIn(allPlayerData, key);
      if |snapshots| > 0 {
        var latest := snapshots[|snapshots| - 1];
        var currentXp := totalXpOf(stats);
        if currentXp != 0 && currentXp == totalXpOf(latest) {
          return;
        }
      }
      var cutoffTime := CutoffTime(now);
      snapshots := DropOlderThan(snapshots + [stats], cutoffTime);
      allPlayerData := allPlayerData[key := snapshots];
      isDirty := true;
    }

    /** `loadSnapshots`: a copy of the stored history, empty for an unknown player. */
    function LoadSnapshots(username: string): (h: seq<Snapshot>)
      reads this
      ensures Lower(username) in allPlayerData ==> h == allPlayerData[Lower(username)]
      ensures Lower(username) !in allPlayerData ==> h == []
    {
      HistoryIn(allPlayerData, Lower(username))
    }

    /** `getLatestSnapshot`: the last stored snapshot, `None` (null) when there is none. */
    function GetLatestSnapshot(username: string): (r: Option<Snapshot>)
      reads this
      ensures r.None? <==> LoadSnapshots(username) == []
      ensures r.Some? ==> r.value == LoadSnapshots(username)[|LoadSnapshots(username)| - 1]
    {
      var snapshots := LoadSnapshots(username);
      if snapshots == [] then None else Some(snapshots[|snapshots| - 1])
    }

    /** `getSnapshotFromDaysAgo`: the snapshot nearest to `days` days before `now`,
        ties to the earliest position, with distances in `long` arithmetic; `None`
        when the history is empty, or when every distance is exactly `Long.MAX_VALUE`
        (the scan's starting bound). */
    method GetSnapshotFromDaysAgo(username: string, days: Int32, now: Int64) returns (closest: Option<Snapshot>)
      ensures ClosestAnswer(LoadSnapshots(username), TargetTime(now, days), closest)
    {
      var snapshots := LoadSnapshots(username);
      if |snapshots| == 0 {
        return None;
      }
      var targetTime := TargetTime(now, days);
      closest := None;
      var best := -1;
      var smallestDiff: Int64 := LongMax;
      var i := 0;
      while i < |snapshots|
        invariant 0 <= i <= |snapshots|
        invariant -1 <= best < i
        invariant best == -1 <==> closest.None?
        invariant best == -1 ==> smallestDiff == LongMax && forall j :: 0 <= j < i ==> Distance(snapshots[j].timestamp, targetTime) == LongMax
        invariant best >= 0 ==> closest == Some(snapshots[best]) && smallestDiff == Distance(snapshots[best].timestamp, targetTime)
        invariant best >= 0 ==> smallestDiff < LongMax
        invariant forall j :: 0 <= j < i ==> smallestDiff <= Distance(snapshots[j].timestamp, targetTime)
        invariant forall j :: 0 <= j < best ==> Distance(snapshots[j].timestamp, targetTime) > smallestDiff
      {
        var diff := Distance(snapshots[i].timestamp, targetTime);
        if diff < smallestDiff {
          smallestDiff := diff;
          closest := Some(snapshots[i]);
          best := i;
        }
        i := i + 1;
      }
      if best >= 0 {
        assert NearestAt(snapshots, targetTime, best);
      }
    }

    /** `removePlayer`: drops the history and the account-type entry and writes the
        file at once; other players and the dirty flag are untouched. */
    method RemovePlayer(username: string, writeOk: bool)
      modifies this`allPlayerData, this`persisted, configManager
      ensures allPlayerData == old(allPlayerData) - {Lower(username)}
      ensures configManager.entries == old(configManager.entries) - {AccountTypeKey(username)}
      ensures persisted == old(persisted) + (if writeOk then [allPlayerData] else [])
      ensures forall k :: k != Lower(username) ==> HistoryIn(allPlayerData, k) == HistoryIn(old(allPlayerData), k)
    {
      var key := Lower(username);
      var typeKey := AccountTypeKey(username);
      allPlayerData := allPlayerData - {key};
      SaveAllData(writeOk);
      configManager.Unset(typeKey);
    }

    /** The keys whose history is not empty. */
    function TrackedKeys(): (keys: set<string>)
      reads this
      ensures forall k :: k in keys <==> k in allPlayerData && allPlayerData[k] != []
    {
      set k | k in allPlayerData && allPlayerData[k] != []
    }

    /** `getTrackedPlayers`: one name per non-empty history (in the map's own order,
        which `keys` reports), cased as that history's first snapshot. */
    method GetTrackedPlayers() returns (players: seq<string>, ghost keys: seq<string>)
      ensures |keys| == |players|
      ensures forall i, j :: 0 <= i < j < |keys| ==> keys[i] != keys[j]
      ensures forall k :: k in keys <==> k in TrackedKeys()
      ensures forall i :: 0 <= i < |keys| ==> (keys[i] in allPlayerData && allPlayerData[keys[i]] != []
          && players[i] == allPlayerData[keys[i]][0].username)
      ensures forall p :: p in players <==> p in TrackedNames(allPlayerData)
      ensures KeysMatch(allPlayerData) ==> forall i, j :: 0 <= i < j < |players| ==> Lower(players[i]) != Lower(players[j])
    {
      players, keys := [], [];
      var todo := allPlayerData.Keys;
      while todo != {}
        invariant todo <= allPlayerData.Keys
        invariant |keys| == |players|
        invariant forall i, j :: 0 <= i < j < |keys| ==> keys[i] != keys[j]
        invariant forall k :: k in keys <==> k in TrackedKeys() && k !in todo
        invariant forall i :: 0 <= i < |keys| ==> (keys[i] in allPlayerData && allPlayerData[keys[i]] != []
          && players[i] == allPlayerData[keys[i]][0].username)
        decreases todo
      {
        var k :| k in todo;
        var snapshots := allPlayerData[k];
        if snapshots != [] {
          players := players + [snapshots[0].username];
          keys := keys + [k];
        }
        todo := todo - {k};
      }
      if KeysMatch(allPlayerData) {
        assert forall i :: 0 <= i < |keys| ==> allPlayerData[keys[i]][0] in allPlayerData[keys[i]];
      }
      forall p | p in TrackedNames(allPlayerData) ensures p in players {
        var k :| k in allPlayerData && allPlayerData[k] != [] && allPlayerData[k][0].username == p;
        assert k in TrackedKeys();
        var i :| 0 <= i < |keys| && keys[i] == k;
        assert players[i] == p;
      }
    }

    /** `deletePlayer`: the same as `removePlayer`. */
    method DeletePlayer(username: string, writeOk: bool)
      modifies this`allPlayerData, this`persisted, configManager
      ensures allPlayerData == old(allPlayerData) - {Lower(username)}
      ensures configManager.entries == old(configManager.entries) - {AccountTypeKey(username)}
      ensures persisted == old(persisted) + (if writeOk then [allPlayerData] else [])
    {
      RemovePlayer(username, writeOk);
    }
  }
}
