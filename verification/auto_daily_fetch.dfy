/** The daily fetch orchestrator (`AutoDailyFetchManager`): which tracked players
    are stale, the order in which they are fetched, and the state machine that
    walks the queue one player per scheduled step. Timers are modelled by the
    step that is pending and a flag for the hourly timer; a step runs when the
    host calls `RunPendingStep` or `HourlyTimerFires`. */
module Fetch {
  import opened Base
  import opened Text
  import opened Stats
  import opened AccountTypes
  import opened Store
  import opened Client

  /** `INTER_PLAYER_DELAY_SECONDS`. */
  const InterPlayerDelaySeconds: int := 10

  /** A scheduled task: the start of a cycle (with its priority player), or the
      fetch of `queue[index]` after `delaySeconds`. */
  datatype Step =
    | StartCycle(priority: Option<string>)
    | FetchStep(queue: seq<string>, index: nat, totalStale: nat, delaySeconds: int)

  // ---------------------------------------------------------------------
  // Staleness
  // ---------------------------------------------------------------------

  /** `isStale`: no API snapshot at all, or the latest one falls on another local
      date than today. `latestApi` stands for `getLatestHiscoresSnapshot` and
      `dateOf` for the conversion of a timestamp to a local date. */
  predicate IsStale(player: string, latestApi: string -> Option<Snapshot>, dateOf: int -> int, today: int) {
    latestApi(player).None? || dateOf(latestApi(player).value.timestamp) != today
  }

  /** The stale players of `tracked`, in `tracked`'s order. */
  function StaleOf(tracked: seq<string>, latestApi: string -> Option<Snapshot>, dateOf: int -> int, today: int): seq<string>
  {
    if tracked == [] then []
    else
      var last := tracked[|tracked| - 1];
      StaleOf(tracked[..|tracked| - 1], latestApi, dateOf, today)
        + (if IsStale(last, latestApi, dateOf, today) then [last] else [])
  }

  /** Each stale name occurs in the stale list as often as in `tracked`, every
      other name not at all: the list holds exactly the stale tracked players. */
  lemma {:induction false} StaleOfCounts(tracked: seq<string>, latestApi: string -> Option<Snapshot>,
                                         dateOf: int -> int, today: int, p: string)
    ensures multiset(StaleOf(tracked, latestApi, dateOf, today))[p]
         == if IsStale(p, latestApi, dateOf, today) then multiset(tracked)[p] else 0
    decreases |tracked|
  {
    if tracked != [] {
      var init := tracked[..|tracked| - 1];
      StaleOfCounts(init, latestApi, dateOf, today, p);
      assert tracked == init + [tracked[|tracked| - 1]];
    }
  }

  /** A list without repeated elements counts each element at most once. */
  lemma {:induction false} DistinctCountsOne(s: seq<string>, p: string)
    requires forall i, j :: 0 <= i < j < |s| ==> s[i] != s[j]
    ensures multiset(s)[p] <= 1
    decreases |s|
  {
    if s != [] {
      DistinctCountsOne(s[1..], p);
      assert s == [s[0]] + s[1..];
      if s[0] == p {
        assert p !in s[1..];
      }
    }
  }

  // ---------------------------------------------------------------------
  // Queue order
  // ---------------------------------------------------------------------

  /** The first sort key: 0 for the priority player (already lowercased, and
      compared ignoring case), 1 for everyone else. */
  function Rank(p: string, priority: Option<string>): (r: int)
    ensures r == 0 <==> priority.Some? && EqualsIgnoreCase(p, priority.value)
    ensures r == 0 || r == 1
  {
    if priority.Some? && EqualsIgnoreCase(p, priority.value) then 0 else 1
  }

  /** The comparator of `triggerFetchCycle`: by rank, then by
      `String.CASE_INSENSITIVE_ORDER`; `QueueLe(a, b)` is `compare(a, b) <= 0`. */
  predicate QueueLe(a: string, b: string, priority: Option<string>) {
    Rank(a, priority) < Rank(b, priority)
      || (Rank(a, priority) == Rank(b, priority) && CaseInsensitiveLe(a, b))
  }

  lemma QueueLeTotal(a: string, b: string, priority: Option<string>)
    ensures QueueLe(a, b, priority) || QueueLe(b, a, priority)
  {
    CaseInsensitiveTotal(a, b);
  }

  lemma QueueLeTransitive(a: string, b: string, c: string, priority: Option<string>)
    requires QueueLe(a, b, priority) && QueueLe(b, c, priority)
    ensures QueueLe(a, c, priority)
  {
    if Rank(a, priority) == Rank(b, priority) == Rank(c, priority) {
      CaseInsensitiveTransitive(a, b, c);
    }
  }

  /** What a successful `List.sort` with that comparator guarantees. */
  predicate QueueSorted(q: seq<string>, priority: Option<string>) {
    forall i, j :: 0 <= i < j < |q| ==> QueueLe(q[i], q[j], priority)
  }

  /** Inserts `x` after every element that does not compare greater than it. */
  function Insert(q: seq<string>, x: string, priority: Option<string>): seq<string>
  {
    if q == [] then [x]
    else if !QueueLe(q[0], x, priority) then [x] + q
    else [q[0]] + Insert(q[1..], x, priority)
  }

  /** `stale.sort(comparator)`, as a stable insertion sort. */
  function SortQueue(stale: seq<string>, priority: Option<string>): seq<string>
  {
    if stale == [] then []
    else Insert(SortQueue(stale[..|stale| - 1], priority), stale[|stale| - 1], priority)
  }

  lemma {:induction false} InsertPermutes(q: seq<string>, x: string, priority: Option<string>)
    ensures multiset(Insert(q, x, priority)) == multiset(q) + multiset{x}
    decreases |q|
  {
    if q != [] && QueueLe(q[0], x, priority) {
      InsertPermutes(q[1..], x, priority);
      assert q == [q[0]] + q[1..];
    }
  }

  lemma {:induction false} InsertMembers(q: seq<string>, x: string, priority: Option<string>)
    ensures forall y :: y in Insert(q, x, priority) ==> y in q || y == x
    decreases |q|
  {
    if q != [] && QueueLe(q[0], x, priority) {
      InsertMembers(q[1..], x, priority);
    }
  }

  lemma {:induction false} InsertSorted(q: seq<string>, x: string, priority: Option<string>)
    requires QueueSorted(q, priority)
    ensures QueueSorted(Insert(q, x, priority), priority)
    decreases |q|
  {
    if q == [] {
    } else if !QueueLe(q[0], x, priority) {
      QueueLeTotal(q[0], x, priority);
      var r := [x] + q;
      forall i, j | 0 <= i < j < |r| ensures QueueLe(r[i], r[j], priority) {
        if i == 0 && j > 1 {
          QueueLeTransitive(x, q[0], q[j - 1], priority);
        }
      }
    } else {
      var rest := Insert(q[1..], x, priority);
      InsertSorted(q[1..], x, priority);
      InsertMembers(q[1..], x, priority);
      var r := [q[0]] + rest;
      forall i, j | 0 <= i < j < |r| ensures QueueLe(r[i], r[j], priority) {
        if i == 0 {
          assert r[j] in rest;
          if r[j] != x {
            var k :| 0 <= k < |q[1..]| && q[1..][k] == r[j];
            assert q[k + 1] == r[j];
          }
        } else {
          assert r[i] == rest[i - 1] && r[j] == rest[j - 1];
        }
      }
    }
  }

  /** The sorted queue is a permutation of the stale list and is in comparator order. */
  lemma {:induction false} SortQueueSpec(stale: seq<string>, priority: Option<string>)
    ensures multiset(SortQueue(stale, priority)) == multiset(stale)
    ensures QueueSorted(SortQueue(stale, priority), priority)
    decreases |stale|
  {
    if stale != [] {
      var init := stale[..|stale| - 1];
      SortQueueSpec(init, priority);
      InsertPermutes(SortQueue(init, priority), stale[|stale| - 1], priority);
      InsertSorted(SortQueue(init, priority), stale[|stale| - 1], priority);
      assert stale == init + [stale[|stale| - 1]];
    }
  }

  /** In a queue in comparator order, the priority player (if queued at all)
      comes first; players matching the priority precede all others, and
      players of equal rank are in case-insensitive alphabetical order. */
  lemma PriorityFirst(q: seq<string>, priority: Option<string>, p: string)
    requires QueueSorted(q, priority)
    requires p in q && priority.Some? && EqualsIgnoreCase(p, priority.value)
    ensures EqualsIgnoreCase(q[0], priority.value)
    ensures forall i, j :: 0 <= i < j < |q| ==> Rank(q[i], priority) <= Rank(q[j], priority)
    ensures forall i, j :: (0 <= i < j < |q| && Rank(q[i], priority) == Rank(q[j], priority)) ==>
      CaseInsensitiveLe(q[i], q[j])
  {
    var k :| 0 <= k < |q| && q[k] == p;
    if k > 0 {
      assert QueueLe(q[0], q[k], priority);
    }
  }

  /** With no priority player the queue is plain case-insensitive alphabetical order. */
  lemma NoPriorityAlphabetical(q: seq<string>)
    requires QueueSorted(q, None)
    ensures forall i, j :: 0 <= i < j < |q| ==> CaseInsensitiveLe(q[i], q[j])
  {
    forall i, j | 0 <= i < j < |q| ensures CaseInsensitiveLe(q[i], q[j]) {
      assert QueueLe(q[i], q[j], None);
    }
  }

  /** `priorityUsername.toLowerCase()`, or no priority. */
  function PriorityKey(priorityUsername: Option<string>): (k: Option<string>)
    ensures k.Some? <==> priorityUsername.Some?
    ensures k.Some? ==> k.value == Lower(priorityUsername.value)
  {
    if priorityUsername.Some? then Some(Lower(priorityUsername.value)) else None
  }

  /** A fetch queue as `triggerFetchCycle` builds it: empty when the store is not
      initialised; otherwise exactly the stale tracked players, each once when
      every history is filed under its own name, in comparator order. */
  ghost predicate CycleQueue(queue: seq<string>, data: Dataset, priority: Option<string>, initialized: bool,
                             latestApi: string -> Option<Snapshot>, dateOf: int -> int, today: int) {
    && (!initialized ==> queue == [])
    && (initialized ==> forall p :: p in queue <==> p in TrackedNames(data) && IsStale(p, latestApi, dateOf, today))
    && (KeysMatch(data) ==> forall p :: multiset(queue)[p] <= 1)
    && QueueSorted(queue, priority)
  }

  /** Sorting the stale players of the tracked list gives a cycle queue: exactly
      the stale tracked players, each once when every history is filed under its
      own name, in comparator order. */
  lemma QueueOfTracked(tracked: seq<string>, data: Dataset, priority: Option<string>,
                       latestApi: string -> Option<Snapshot>, dateOf: int -> int, today: int)
    requires forall p :: p in tracked <==> p in TrackedNames(data)
    requires KeysMatch(data) ==> forall i, j :: 0 <= i < j < |tracked| ==> Lower(tracked[i]) != Lower(tracked[j])
    ensures |SortQueue(StaleOf(tracked, latestApi, dateOf, today), priority)| == |StaleOf(tracked, latestApi, dateOf, today)|
    ensures CycleQueue(SortQueue(StaleOf(tracked, latestApi, dateOf, today), priority), data, priority, true,
                       latestApi, dateOf, today)
  {
    var stale := StaleOf(tracked, latestApi, dateOf, today);
    var q := SortQueue(stale, priority);
    SortQueueSpec(stale, priority);
    assert |multiset(q)| == |multiset(stale)|;
    forall p ensures multiset(q)[p] == (if IsStale(p, latestApi, dateOf, today) then multiset(tracked)[p] else 0) {
      StaleOfCounts(tracked, latestApi, dateOf, today, p);
    }
    forall p ensures p in q <==> p in TrackedNames(data) && IsStale(p, latestApi, dateOf, today) {
      assert p in q <==> multiset(q)[p] > 0;
      assert p in tracked <==> multiset(tracked)[p] > 0;
    }
    if KeysMatch(data) {
      forall p ensures multiset(q)[p] <= 1 {
        DistinctCountsOne(tracked, p);
      }
    }
  }

  /** The loop of `triggerFetchCycle` that collects the stale players. */
  method StalePlayers(tracked: seq<string>, latestApi: string -> Option<Snapshot>, dateOf: int -> int, today: int)
    returns (stale: seq<string>)
    ensures stale == StaleOf(tracked, latestApi, dateOf, today)
  {
    stale := [];
    for i := 0 to |tracked|
      invariant stale == StaleOf(tracked[..i], latestApi, dateOf, today)
    {
      assert tracked[..i + 1][..i] == tracked[..i];
      if IsStale(tracked[i], latestApi, dateOf, today) {
        stale := stale + [tracked[i]];
      }
    }
    assert tracked[..|tracked|] == tracked;
  }

  // ---------------------------------------------------------------------
  // One fetch step
  // ---------------------------------------------------------------------

  /** What the fetch manager and the store it writes to look like from outside:
      the store's data and dirty flag, the pending step, every request URL sent
      and every listener notification, in order. */
  datatype Observed = Observed(
    data: Dataset,
    dirty: bool,
    pending: Option<Step>,
    requested: seq<string>,
    notified: seq<(string, Snapshot)>)

  /** The delay before the step after `index`. */
  function DelayAfter(queue: seq<string>, index: nat): int {
    if index + 1 < |queue| then InterPlayerDelaySeconds else 0
  }

  /** `fetchNext(queue, index, totalStale)` for an index inside the queue, given
      the account type stored for `queue[index]` and what fetching it yields: the
      request is sent; a fetched snapshot is saved and then reported to the
      listener; an I/O failure is swallowed; a parse failure escapes (the second
      component is true) and schedules nothing; otherwise the next index is
      scheduled unless the manager is stopped. */
  function AfterFetchNext(w: Observed, queue: seq<string>, index: nat, totalStale: nat, accountType: AccountType,
                          outcome: FetchResult, now: Int64, stopped: bool, totalXpOf: Snapshot -> Int64): (Observed, bool)
    requires index < |queue|
  {
    var u := queue[index];
    var sent := w.(requested := w.requested + [RequestUrl(u, accountType)]);
    if outcome == Failed(ParseError) then (sent, true)
    else
      var saved :=
        if outcome.Fetched? then
          sent.(data := SaveResult(w.data, outcome.stats, now, totalXpOf),
                dirty := w.dirty || !IsDuplicate(HistoryIn(w.data, Lower(outcome.stats.username)), outcome.stats, totalXpOf),
                notified := w.notified + [(u, outcome.stats)])
        else sent;
      if stopped then (saved, false)
      else (saved.(pending := Some(FetchStep(queue, index + 1, totalStale, DelayAfter(queue, index)))), false)
  }

  /** Every step sends exactly one request, for `queue[index]`, to the endpoint of
      the account type stored for that player. */
  lemma StepSendsOneRequest(w: Observed, queue: seq<string>, index: nat, totalStale: nat, accountType: AccountType,
                            outcome: FetchResult, now: Int64, stopped: bool, totalXpOf: Snapshot -> Int64)
    requires index < |queue|
    ensures AfterFetchNext(w, queue, index, totalStale, accountType, outcome, now, stopped, totalXpOf).0.requested
         == w.requested + [ApiUrl(accountType) + ReplaceChar(queue[index], ' ', '+')]
  {
  }

  /** A failed request (transport failure or a non-2xx status) skips the player:
      nothing is saved or reported, and unless stopped the cycle goes on with the
      next index. */
  lemma IoErrorSkipsPlayer(w: Observed, queue: seq<string>, index: nat, totalStale: nat, accountType: AccountType,
                           outcome: FetchResult, now: Int64, stopped: bool, totalXpOf: Snapshot -> Int64)
    requires index < |queue|
    requires outcome.Failed? && outcome.error.IoError?
    ensures var (w', aborted) := AfterFetchNext(w, queue, index, totalStale, accountType, outcome, now, stopped, totalXpOf);
      && !aborted
      && w'.data == w.data && w'.dirty == w.dirty && w'.notified == w.notified
      && (!stopped ==> w'.pending == Some(FetchStep(queue, index + 1, totalStale, DelayAfter(queue, index))))
  {
  }

  /** A document that cannot be used ends the cycle: the exception leaves the step
      with nothing saved, reported or scheduled. */
  lemma ParseErrorEndsCycle(w: Observed, queue: seq<string>, index: nat, totalStale: nat, accountType: AccountType,
                            outcome: FetchResult, now: Int64, stopped: bool, totalXpOf: Snapshot -> Int64)
    requires index < |queue|
    requires outcome == Failed(ParseError)
    ensures var (w', aborted) := AfterFetchNext(w, queue, index, totalStale, accountType, outcome, now, stopped, totalXpOf);
      && aborted
      && w'.data == w.data && w'.dirty == w.dirty && w'.notified == w.notified && w'.pending == w.pending
  {
  }

  /** On success the snapshot is saved before the listener hears of it: by the
      time the notification is recorded, the player's history ends with that very
      snapshot (unless it was a duplicate, which leaves the store as it was, or
      the clock is so near `Long.MIN_VALUE` that the cutoff wraps, see
      `SaveAtWrappedCutoff`). */
  lemma SavedBeforeNotified(w: Observed, queue: seq<string>, index: nat, totalStale: nat, accountType: AccountType,
                            outcome: FetchResult, now: Int64, stopped: bool, totalXpOf: Snapshot -> Int64)
    requires index < |queue|
    requires outcome.Fetched? && outcome.stats.username == queue[index] && outcome.stats.timestamp == now
    ensures var (w', aborted) := AfterFetchNext(w, queue, index, totalStale, accountType, outcome, now, stopped, totalXpOf);
      var s := outcome.stats;
      var key := Lower(queue[index]);
      && !aborted
      && w'.notified == w.notified + [(queue[index], s)]
      && (!IsDuplicate(HistoryIn(w.data, key), s, totalXpOf) ==> w'.dirty)
      && (!IsDuplicate(HistoryIn(w.data, key), s, totalXpOf) && CutoffTime(now) <= now ==>
            && HistoryIn(w'.data, key) != []
            && HistoryIn(w'.data, key)[|HistoryIn(w'.data, key)| - 1] == s)
      && (IsDuplicate(HistoryIn(w.data, key), s, totalXpOf) ==> w'.data == w.data && w'.dirty == w.dirty)
  {
    if !IsDuplicate(HistoryIn(w.data, Lower(queue[index])), outcome.stats, totalXpOf) && CutoffTime(now) <= now {
      SaveAppendsAtEnd(w.data, outcome.stats, now, totalXpOf);
    }
  }

  /** Steps walk the queue in order: a step that does not end the cycle and is not
      stopped schedules the same queue at the next index, 10 seconds later while
      players remain and at once when the index just handled was the last. */
  lemma StepSchedulesNextIndex(w: Observed, queue: seq<string>, index: nat, totalStale: nat, accountType: AccountType,
                               outcome: FetchResult, now: Int64, stopped: bool, totalXpOf: Snapshot -> Int64)
    requires index < |queue|
    ensures var (w', aborted) := AfterFetchNext(w, queue, index, totalStale, accountType, outcome, now, stopped, totalXpOf);
      && (stopped || aborted ==> w'.pending == w.pending)
      && (!stopped && !aborted ==>
            && w'.pending.Some? && w'.pending.value.FetchStep?
            && w'.pending.value.queue == queue && w'.pending.value.index == index + 1
            && w'.pending.value.totalStale == totalStale
            && (w'.pending.value.delaySeconds == 10 <==> index + 1 < |queue|)
            && (w'.pending.value.delaySeconds == 0 <==> index + 1 == |queue|))
  {
  }

  class AutoDailyFetchManager {
    const client: HiscoresClient
    const dataManager: StatsDataManager
    /** `stopped`: set by logout and shutdown, cleared by login. */
    var stopped: bool
    /** The hourly timer is scheduled and has neither been cancelled nor died. */
    var hourlyTimerActive: bool
    /** How many times the hourly timer has been scheduled. */
    var hourlyStarts: nat
    /** `pendingFetchStep`: the one task waiting to run, if any. */
    var pending: Option<Step>
    /** Every request URL sent, in order. */
    var requested: seq<string>
    /** Every `onPlayerFetched(username, stats)` call, in order. */
    var notified: seq<(string, Snapshot)>

    constructor (client: HiscoresClient, dataManager: StatsDataManager)
      ensures this.client == client && this.dataManager == dataManager
      ensures !stopped && !hourlyTimerActive && hourlyStarts == 0 && pending == None
      ensures requested == [] && notified == []
    {
      this.client := client;
      this.dataManager := dataManager;
      stopped := false;
      hourlyTimerActive := false;
      hourlyStarts := 0;
      pending := None;
      requested := [];
      notified := [];
    }

    function State(): Observed
      reads this, dataManager
    {
      Observed(dataManager.allPlayerData, dataManager.isDirty, pending, requested, notified)
    }

    /** `onPlayerLoggedIn`: clears `stopped`, replaces any pending step by an
        immediate cycle with this player first, and starts the hourly timer only
        when none is running. */
    method OnPlayerLoggedIn(username: string)
      modifies this`stopped, this`pending, this`hourlyTimerActive, this`hourlyStarts
      ensures !stopped && hourlyTimerActive
      ensures pending == Some(StartCycle(Some(username)))
      ensures hourlyStarts == old(hourlyStarts) + (if old(hourlyTimerActive) then 0 else 1)
    {
      stopped := false;
      pending := None;
      pending := Some(StartCycle(Some(username)));
      if !hourlyTimerActive {
        hourlyTimerActive := true;
        hourlyStarts := hourlyStarts + 1;
      }
    }

    /** `onPlayerLoggedOut`: sets `stopped` and cancels both timers. */
    method OnPlayerLoggedOut()
      modifies this`stopped, this`pending, this`hourlyTimerActive
      ensures stopped && !hourlyTimerActive && pending == None
    {
      stopped := true;
      hourlyTimerActive := false;
      pending := None;
    }

    /** `shutdown`: the same as a logout. */
    method Shutdown()
      modifies this`stopped, this`pending, this`hourlyTimerActive
      ensures stopped && !hourlyTimerActive && pending == None
    {
      stopped := true;
      hourlyTimerActive := false;
      pending := None;
    }

    /** `fetchNext`: nothing at all once the index has run past the queue. */
    method FetchNext(queue: seq<string>, index: nat, totalStale: nat, exchange: Exchange, now: Int64)
      returns (aborted: bool)
      modifies this`pending, this`requested, this`notified, dataManager`allPlayerData, dataManager`isDirty
      ensures index >= |queue| ==> State() == old(State()) && !aborted
      ensures index < |queue| ==> (State(), aborted) == AfterFetchNext(old(State()), queue, index, totalStale,
        old(dataManager.LoadAccountType(queue[index])), Outcome(client.nameToKeyMap, queue[index], exchange, now), now, stopped,
        dataManager.totalXpOf)
    {
      if index >= |queue| {
        return false;
      }
      var username := queue[index];
      var accountType := dataManager.LoadAccountType(username);
      var url, result := client.FetchPlayerStats(username, accountType, exchange, now);
      requested := requested + [url];
      if result == Failed(ParseError) {
        return true;
      }
      if result.Fetched? {
        dataManager.SaveSnapshot(result.stats, now);
        notified := notified + [(username, result.stats)];
      }
      var delay := if index + 1 < |queue| then InterPlayerDelaySeconds else 0;
      if stopped {
        return false;
      }
      pending := Some(FetchStep(queue, index + 1, totalStale, delay));
      aborted := false;
    }

    /** `triggerFetchCycle`: nothing happens when the store is not initialised, no
        player is tracked or none is stale; otherwise the stale players, sorted
        priority first and then alphabetically, become the queue and its first
        player is fetched at once. `queue` is that queue (empty when none). */
    method TriggerFetchCycle(priorityUsername: Option<string>, initialized: bool,
                             latestApi: string -> Option<Snapshot>, dateOf: int -> int, today: int,
                             exchange: Exchange, now: Int64)
      returns (aborted: bool, ghost queue: seq<string>)
      modifies this`pending, this`requested, this`notified, dataManager`allPlayerData, dataManager`isDirty
      ensures CycleQueue(queue, old(dataManager.allPlayerData), PriorityKey(priorityUsername), initialized,
                         latestApi, dateOf, today)
      ensures queue == [] ==> State() == old(State()) && !aborted
      ensures queue != [] ==> (State(), aborted) == AfterFetchNext(old(State()), queue, 0, |queue|,
        old(dataManager.LoadAccountType(queue[0])), Outcome(client.nameToKeyMap, queue[0], exchange, now), now, stopped,
        dataManager.totalXpOf)
    {
      if !initialized {
        return false, [];
      }
      var tracked;
      ghost var keys;
      tracked, keys := dataManager.GetTrackedPlayers();
      var priority := PriorityKey(priorityUsername);
      QueueOfTracked(tracked, dataManager.allPlayerData, priority, latestApi, dateOf, today);
      if |tracked| == 0 {
        return false, [];
      }
      var stale := StalePlayers(tracked, latestApi, dateOf, today);
      if |stale| == 0 {
        return false, [];
      }
      var sorted := SortQueue(stale, priority);
      queue := sorted;
      aborted := FetchNext(sorted, 0, |stale|, exchange, now);
    }

    /** The scheduler runs the pending step: it is consumed, then a cycle start
        runs `triggerFetchCycle` and a fetch step runs `fetchNext`. */
    method RunPendingStep(initialized: bool, latestApi: string -> Option<Snapshot>, dateOf: int -> int, today: int,
                          exchange: Exchange, now: Int64)
      returns (aborted: bool, ghost queue: seq<string>)
      modifies this`pending, this`requested, this`notified, dataManager`allPlayerData, dataManager`isDirty
      ensures old(pending).None? ==> State() == old(State()) && !aborted
      ensures old(pending).Some? && old(pending).value.StartCycle? ==>
        && CycleQueue(queue, old(dataManager.allPlayerData), PriorityKey(old(pending).value.priority), initialized,
                      latestApi, dateOf, today)
        && (queue == [] ==> State() == old(State()).(pending := None) && !aborted)
        && (queue != [] ==> (State(), aborted) == AfterFetchNext(old(State()).(pending := None), queue, 0, |queue|,
              old(dataManager.LoadAccountType(queue[0])), Outcome(client.nameToKeyMap, queue[0], exchange, now), now, stopped,
              dataManager.totalXpOf))
      ensures old(pending).Some? && old(pending).value.FetchStep? ==>
        var step := old(pending).value;
        && (step.index >= |step.queue| ==> State() == old(State()).(pending := None) && !aborted)
        && (step.index < |step.queue| ==> (State(), aborted) == AfterFetchNext(old(State()).(pending := None),
              step.queue, step.index, step.totalStale, old(dataManager.LoadAccountType(step.queue[step.index])),
              Outcome(client.nameToKeyMap, step.queue[step.index], exchange, now), now, stopped, dataManager.totalXpOf))
    {
      queue := [];
      if pending.None? {
        return false, queue;
      }
      var step := pending.value;
      pending := None;
      match step
      case StartCycle(priority) =>
        aborted, queue := TriggerFetchCycle(priority, initialized, latestApi, dateOf, today, exchange, now);
      case FetchStep(q, index, totalStale, _) =>
        aborted := FetchNext(q, index, totalStale, exchange, now);
    }

    /** The hourly timer fires: a cycle without a priority player. An exception
        escaping the run ends the periodic schedule, as for any fixed-rate task. */
    method HourlyTimerFires(initialized: bool, latestApi: string -> Option<Snapshot>, dateOf: int -> int, today: int,
                            exchange: Exchange, now: Int64)
      returns (aborted: bool, ghost queue: seq<string>)
      modifies this`pending, this`requested, this`notified, this`hourlyTimerActive,
               dataManager`allPlayerData, dataManager`isDirty
      ensures !old(hourlyTimerActive) ==> State() == old(State()) && !aborted && !hourlyTimerActive
      ensures old(hourlyTimerActive) ==>
        && CycleQueue(queue, old(dataManager.allPlayerData), None, initialized, latestApi, dateOf, today)
        && (queue == [] ==> State() == old(State()) && !aborted)
        && (queue != [] ==> (State(), aborted) == AfterFetchNext(old(State()), queue, 0, |queue|,
              old(dataManager.LoadAccountType(queue[0])), Outcome(client.nameToKeyMap, queue[0], exchange, now), now, stopped,
              dataManager.totalXpOf))
      ensures hourlyTimerActive == (old(hourlyTimerActive) && !aborted)
    {
      queue := [];
      if !hourlyTimerActive {
        return false, queue;
      }
      aborted, queue := TriggerFetchCycle(None, initialized, latestApi, dateOf, today, exchange, now);
      if aborted {
        hourlyTimerActive := false;
      }
    }
  }
}
