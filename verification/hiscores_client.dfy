/** The hiscores client: the request URL for a player and account type, the
    status check, and the mapping of an already-decoded hiscores document onto
    a fresh `PlayerStats` through the fixed table of API names. The HTTP call and
    the JSON decoding themselves are inputs of the model (`Exchange`). */
module Client {
  import opened Base
  import opened Text
  import opened Stats
  import opened AccountTypes

  /** `HiscoresResponse.SkillEntry`; a `None` name is a JSON null. */
  datatype SkillEntry = SkillEntry(id: Int32, name: Option<string>, rank: Int32, level: Int32, xp: Int64)

  /** `HiscoresResponse.ActivityEntry`: the score is a `long` in the document. */
  datatype ActivityEntry = ActivityEntry(id: Int32, name: Option<string>, rank: Int32, score: Int64)

  /** `HiscoresResponse`: either array may be absent (JSON null or missing), and
      any element of either array may be a JSON null (`None`). */
  datatype HiscoresResponse = HiscoresResponse(
    name: Option<string>,
    skills: Option<seq<Option<SkillEntry>>>,
    activities: Option<seq<Option<ActivityEntry>>>)

  /** What the JSON decoder made of the body: it threw, it produced null (an empty
      body), or it produced a document. */
  datatype Decoded = Unparseable | NullDocument | Document(response: HiscoresResponse)

  /** The HTTP exchange: the call itself failed, or a status code and a decoded body came back. */
  datatype Exchange = TransportFailure | Received(code: int, body: Decoded)

  /** `IOException` (with the status code when the server answered) or the
      `RuntimeException` raised for an unusable document. */
  datatype FetchError = IoError(code: Option<int>) | ParseError

  datatype FetchResult = Fetched(stats: Snapshot) | Failed(error: FetchError)

  /** `createNameToKeyMapping`: exact API names to internal keys. */
  const NameToKey: map<string, string> := map[
    // skills
    "Overall" := "overall",
    "Attack" := "attack",
    "Defence" := "defence",
    "Strength" := "strength",
    "Hitpoints" := "hitpoints",
    "Ranged" := "ranged",
    "Prayer" := "prayer",
    "Magic" := "magic",
    "Cooking" := "cooking",
    "Woodcutting" := "woodcutting",
    "Fletching" := "fletching",
    "Fishing" := "fishing",
    "Firemaking" := "firemaking",
    "Crafting" := "crafting",
    "Smithing" := "smithing",
    "Mining" := "mining",
    "Herblore" := "herblore",
    "Agility" := "agility",
    "Thieving" := "thieving",
    "Slayer" := "slayer",
    "Farming" := "farming",
    "Runecraft" := "runecraft",
    "Hunter" := "hunter",
    "Construction" := "construction",
    "Sailing" := "sailing",
    // activities
    "Grid Points" := "grid_points",
    "League Points" := "league_points",
    "Deadman Points" := "deadman_points",
    "Bounty Hunter - Hunter" := "bounty_hunter_hunter",
    "Bounty Hunter - Rogue" := "bounty_hunter_rogue",
    "Bounty Hunter (Legacy) - Hunter" := "bounty_hunter_legacy_hunter",
    "Bounty Hunter (Legacy) - Rogue" := "bounty_hunter_legacy_rogue",
    "Clue Scrolls (all)" := "clue_all",
    "Clue Scrolls (beginner)" := "clue_beginner",
    "Clue Scrolls (easy)" := "clue_easy",
    "Clue Scrolls (medium)" := "clue_medium",
    "Clue Scrolls (hard)" := "clue_hard",
    "Clue Scrolls (elite)" := "clue_elite",
    "Clue Scrolls (master)" := "clue_master",
    "LMS - Rank" := "lms",
    "PvP Arena - Rank" := "pvp_arena",
    "Soul Wars Zeal" := "soul_wars",
    "Rifts closed" := "rifts_closed",
    "Colosseum Glory" := "colosseum_glory",
    "Collections Logged" := "collections_logged",
    // bosses
    "Abyssal Sire" := "abyssal_sire",
    "Alchemical Hydra" := "alchemical_hydra",
    "Amoxliatl" := "amoxliatl",
    "Araxxor" := "araxxor",
    "Artio" := "artio",
    "Barrows Chests" := "barrows",
    "Bryophyta" := "bryophyta",
    "Callisto" := "callisto",
    "Calvar'ion" := "calvarion",
    "Cerberus" := "cerberus",
    "Chambers of Xeric" := "chambers_of_xeric",
    "Chambers of Xeric: Challenge Mode" := "chambers_of_xeric_cm",
    "Chaos Elemental" := "chaos_elemental",
    "Chaos Fanatic" := "chaos_fanatic",
    "Commander Zilyana" := "commander_zilyana",
    "Corporeal Beast" := "corporeal_beast",
    "Crazy Archaeologist" := "crazy_archaeologist",
    "Dagannoth Prime" := "dagannoth_prime",
    "Dagannoth Rex" := "dagannoth_rex",
    "Dagannoth Supreme" := "dagannoth_supreme",
    "Deranged Archaeologist" := "deranged_archaeologist",
    "Doom of Mokhaiotl" := "doom_of_mokhaiotl",
    "Duke Sucellus" := "duke_sucellus",
    "General Graardor" := "general_graardor",
    "Giant Mole" := "giant_mole",
    "Grotesque Guardians" := "grotesque_guardians",
    "Hespori" := "hespori",
    "Kalphite Queen" := "kalphite_queen",
    "King Black Dragon" := "king_black_dragon",
    "Kraken" := "kraken",
    "Kree'Arra" := "kreearra",
    "K'ril Tsutsaroth" := "kril_tsutsaroth",
    "Lunar Chests" := "lunar_chests",
    "Mimic" := "mimic",
    "Nex" := "nex",
    "Nightmare" := "nightmare",
    "Phosani's Nightmare" := "phosanis_nightmare",
    "Obor" := "obor",
    "Phantom Muspah" := "phantom_muspah",
    "Sarachnis" := "sarachnis",
    "Scorpia" := "scorpia",
    "Scurrius" := "scurrius",
    "Shellbane Gryphon" := "shellbane_gryphon",
    "Skotizo" := "skotizo",
    "Sol Heredit" := "sol_heredit",
    "Spindel" := "spindel",
    "Tempoross" := "tempoross",
    "The Gauntlet" := "the_gauntlet",
    "The Corrupted Gauntlet" := "the_corrupted_gauntlet",
    "The Hueycoatl" := "the_hueycoatl",
    "The Leviathan" := "the_leviathan",
    "The Royal Titans" := "the_royal_titans",
    "The Whisperer" := "the_whisperer",
    "Theatre of Blood" := "theatre_of_blood",
    "Theatre of Blood: Hard Mode" := "theatre_of_blood_hm",
    "Thermonuclear Smoke Devil" := "thermonuclear_smoke_devil",
    "Tombs of Amascut" := "tombs_of_amascut",
    "Tombs of Amascut: Expert Mode" := "tombs_of_amascut_expert",
    "TzKal-Zuk" := "tzkal_zuk",
    "TzTok-Jad" := "tztok_jad",
    "Vardorvis" := "vardorvis",
    "Venenatis" := "venenatis",
    "Vet'ion" := "vetion",
    "Vorkath" := "vorkath",
    "Wintertodt" := "wintertodt",
    "Yama" := "yama",
    "Zalcano" := "zalcano",
    "Zulrah" := "zulrah"
  ]

  /** `okhttp3.Response.isSuccessful`: a 2xx status. */
  predicate IsSuccessful(code: int) {
    200 <= code < 300
  }

  /** The URL of `fetchPlayerStats`: the account type's endpoint prefix, then the
      username with every space turned into `+`. */
  function RequestUrl(username: string, accountType: AccountType): (url: string)
    ensures |url| == |ApiUrl(accountType)| + |username|
    ensures url[..|ApiUrl(accountType)|] == ApiUrl(accountType)
    ensures ' ' !in url[|ApiUrl(accountType)|..]
    ensures forall i :: 0 <= i < |username| && username[i] != ' ' ==> url[|ApiUrl(accountType)| + i] == username[i]
  {
    ApiUrl(accountType) + ReplaceChar(username, ' ', '+')
  }

  /** A username without `+` can be read back from its URL by turning `+` into
      spaces again: the encoding loses nothing for such names. */
  lemma UrlNameRecoverable(username: string, accountType: AccountType)
    requires '+' !in username
    ensures ReplaceChar(RequestUrl(username, accountType)[|ApiUrl(accountType)|..], '+', ' ') == username
  {
    var tail := RequestUrl(username, accountType)[|ApiUrl(accountType)|..];
    assert tail == ReplaceChar(username, ' ', '+');
    assert forall i :: 0 <= i < |username| ==> ReplaceChar(tail, '+', ' ')[i] == username[i];
  }

  /** `HashMap.get` on a possibly-null name: `None` for null and for unknown names. */
  function KeyOf(table: map<string, string>, name: Option<string>): (key: Option<string>)
    ensures key.Some? <==> name.Some? && name.value in table
    ensures key.Some? ==> key.value == table[name.value] && key.value in table.Values
  {
    if name.Some? && name.value in table then Some(table[name.value]) else None
  }

  /** The skills map after the `setSkill` calls of the skill loop: entries in
      document order, unknown names skipped, a later entry for the same key
      replacing an earlier one. */
  function SkillsOf(table: map<string, string>, entries: seq<SkillEntry>): map<string, SkillData>
  {
    if entries == [] then map[]
    else
      var rest := SkillsOf(table, entries[..|entries| - 1]);
      var e := entries[|entries| - 1];
      match KeyOf(table, e.name)
      case None => rest
      case Some(key) => rest[key := SkillData(e.rank, e.level, e.xp)]
  }

  /** What `setActivity(key, rank, (int) score)` stores: the `long` score is
      narrowed with Java's `(int)` cast. */
  function Stored(e: ActivityEntry): ActivityData {
    ActivityData(e.rank, Wrap32(e.score))
  }

  /** The activities map after the activity loop. */
  function ActivitiesOf(table: map<string, string>, entries: seq<ActivityEntry>): map<string, ActivityData>
  {
    if entries == [] then map[]
    else
      var rest := ActivitiesOf(table, entries[..|entries| - 1]);
      var e := entries[|entries| - 1];
      match KeyOf(table, e.name)
      case None => rest
      case Some(key) => rest[key := Stored(e)]
  }

  function SkillName(e: SkillEntry): Option<string> { e.name }

  function ActivityName(e: ActivityEntry): Option<string> { e.name }

  /** The position of the last entry whose name the table maps to `key`, or -1
      when no entry's name does. */
  function LastIndexFor<E>(table: map<string, string>, entries: seq<E>, nameOf: E -> Option<string>, key: string): (i: int)
    ensures -1 <= i < |entries|
    ensures i >= 0 ==> KeyOf(table, nameOf(entries[i])) == Some(key)
    ensures forall j :: i < j < |entries| ==> KeyOf(table, nameOf(entries[j])) != Some(key)
  {
    if entries == [] then -1
    else if KeyOf(table, nameOf(entries[|entries| - 1])) == Some(key) then |entries| - 1
    else LastIndexFor(table, entries[..|entries| - 1], nameOf, key)
  }

  /** A key is present exactly when some entry's name maps to it, and it then holds
      the rank, level and XP of the last such entry. So every key is a value of the
      table, and an entry with an unknown or null name leaves no trace. */
  lemma {:induction false} SkillsOfSpec(table: map<string, string>, entries: seq<SkillEntry>, key: string)
    ensures key in SkillsOf(table, entries) <==> LastIndexFor(table, entries, SkillName, key) >= 0
    ensures key in SkillsOf(table, entries) ==> key in table.Values
    ensures key in SkillsOf(table, entries) ==>
      var e := entries[LastIndexFor(table, entries, SkillName, key)];
      SkillsOf(table, entries)[key] == SkillData(e.rank, e.level, e.xp)
  {
    if entries != [] {
      SkillsOfSpec(table, entries[..|entries| - 1], key);
    }
  }

  /** The same for activities, with the score narrowed to an `int`. */
  lemma {:induction false} ActivitiesOfSpec(table: map<string, string>, entries: seq<ActivityEntry>, key: string)
    ensures key in ActivitiesOf(table, entries) <==> LastIndexFor(table, entries, ActivityName, key) >= 0
    ensures key in ActivitiesOf(table, entries) ==> key in table.Values
    ensures key in ActivitiesOf(table, entries) ==>
      ActivitiesOf(table, entries)[key] == Stored(entries[LastIndexFor(table, entries, ActivityName, key)])
  {
    if entries != [] {
      ActivitiesOfSpec(table, entries[..|entries| - 1], key);
    }
  }

  /** A score that fits in an `int` is stored unchanged by the `(int)` cast. */
  lemma ScoreKeptWhenInRange(table: map<string, string>, entries: seq<ActivityEntry>, key: string)
    requires LastIndexFor(table, entries, ActivityName, key) >= 0
    requires -TwoTo31 <= entries[LastIndexFor(table, entries, ActivityName, key)].score < TwoTo31
    ensures key in ActivitiesOf(table, entries)
    ensures ActivitiesOf(table, entries)[key].score == entries[LastIndexFor(table, entries, ActivityName, key)].score
  {
    ActivitiesOfSpec(table, entries, key);
  }

  /** No element of the array is a JSON null. */
  predicate NoNulls<E>(s: seq<Option<E>>) {
    forall i :: 0 <= i < |s| ==> s[i].Some?
  }

  /** The elements of an array without nulls. */
  function Present<E>(s: seq<Option<E>>): (r: seq<E>)
    requires NoNulls(s)
    ensures |r| == |s|
    ensures forall i :: 0 <= i < |s| ==> r[i] == s[i].value
  {
    if s == [] then [] else Present(s[..|s| - 1]) + [s[|s| - 1].value]
  }

  /** The decoded document is usable: present, with both arrays, and no null
      element in either (the loops dereference every element). */
  predicate Usable(body: Decoded) {
    && body.Document?
    && body.response.skills.Some? && NoNulls(body.response.skills.value)
    && body.response.activities.Some? && NoNulls(body.response.activities.value)
  }

  /** The snapshot `parseHiscoresJson` builds from a usable document with the
      name-to-key table `table`: the caller's username (never the document's own
      name field), the fetch time, and the mapped entries. */
  function Parsed(table: map<string, string>, username: string, now: Int64, response: HiscoresResponse): (s: Snapshot)
    requires response.skills.Some? && NoNulls(response.skills.value)
    requires response.activities.Some? && NoNulls(response.activities.value)
    ensures s.username == username && s.timestamp == now
    ensures forall k :: k in s.skills ==> k in table.Values
    ensures forall k :: k in s.activities ==> k in table.Values
  {
    var skills, activities := Present(response.skills.value), Present(response.activities.value);
    var s := Snapshot(username, now, SkillsOf(table, skills), ActivitiesOf(table, activities));
    forall k | k in s.skills ensures k in table.Values {
      SkillsOfSpec(table, skills, k);
    }
    forall k | k in s.activities ensures k in table.Values {
      ActivitiesOfSpec(table, activities, k);
    }
    s
  }

  /** What one call of `fetchPlayerStats` yields for a given exchange. */
  function Outcome(table: map<string, string>, username: string, exchange: Exchange, now: Int64): FetchResult {
    if exchange.TransportFailure? then Failed(IoError(None))
    else if !IsSuccessful(exchange.code) then Failed(IoError(Some(exchange.code)))
    else if !Usable(exchange.body) then Failed(ParseError)
    else Fetched(Parsed(table, username, now, exchange.body.response))
  }

  /** The client. `createNameToKeyMapping` builds the same table on every parse;
      here the client holds it, built once. */
  class HiscoresClient {
    const nameToKeyMap: map<string, string>

    constructor ()
      ensures nameToKeyMap == NameToKey
    {
      nameToKeyMap := NameToKey;
    }

    /** `parseHiscoresJson`: a fresh `PlayerStats` filled by the two entry loops, or
        `None` where Java throws (decoder failure, null document, missing array,
        null array element). */
    method ParseHiscoresJson(username: string, body: Decoded, now: Int64) returns (result: Option<PlayerStats>)
      ensures result.None? <==> !Usable(body)
      ensures result.Some? ==> fresh(result.value) && result.value.Value() == Snapshot(username, now,
        SkillsOf(nameToKeyMap, Present(body.response.skills.value)),
        ActivitiesOf(nameToKeyMap, Present(body.response.activities.value)))
    {
      if body.Unparseable? || body.NullDocument? {
        return None;
      }
      var response := body.response;
      if response.skills.None? {
        return None;
      }
      var stats := new PlayerStats(username, now);
      var skills := response.skills.value;
      var i := 0;
      while i < |skills|
        invariant 0 <= i <= |skills|
        invariant NoNulls(skills[..i])
        invariant stats.Value() == Snapshot(username, now, SkillsOf(nameToKeyMap, Present(skills[..i])), map[])
      {
        if skills[i].None? {
          return None;  // `skill.name` on a null element throws
        }
        var skill := skills[i].value;
        var key := KeyOf(nameToKeyMap, skill.name);
        if key.Some? {
          stats.SetSkill(key.value, skill.rank, skill.level, skill.xp);
        }
        assert skills[..i + 1][..i] == skills[..i];
        i := i + 1;
      }
      assert skills[..i] == skills;
      if response.activities.None? {
        return None;
      }
      var activities := response.activities.value;
      i := 0;
      while i < |activities|
        invariant 0 <= i <= |activities|
        invariant NoNulls(activities[..i])
        invariant stats.Value() == Snapshot(username, now, SkillsOf(nameToKeyMap, Present(skills)),
          ActivitiesOf(nameToKeyMap, Present(activities[..i])))
      {
        if activities[i].None? {
          return None;  // `activity.name` on a null element throws
        }
        var activity := activities[i].value;
        var key := KeyOf(nameToKeyMap, activity.name);
        if key.Some? {
          stats.SetActivity(key.value, activity.rank, Stored(activity).score);
        }
        assert activities[..i + 1][..i] == activities[..i];
        i := i + 1;
      }
      assert activities[..i] == activities;
      return Some(stats);
    }

    /** `fetchPlayerStats` given the outcome of the HTTP exchange: the request goes
        to `url`; a failed call or a non-2xx status is an `IOException` and nothing
        is parsed; an unusable document is a `RuntimeException`; otherwise the
        parsed snapshot, stamped with `now`. */
    method FetchPlayerStats(username: string, accountType: AccountType, exchange: Exchange, now: Int64)
      returns (url: string, result: FetchResult)
      ensures url == RequestUrl(username, accountType)
      ensures exchange.TransportFailure? ==> result == Failed(IoError(None))
      ensures exchange.Received? && !IsSuccessful(exchange.code) ==> result == Failed(IoError(Some(exchange.code)))
      ensures exchange.Received? && IsSuccessful(exchange.code) && !Usable(exchange.body) ==> result == Failed(ParseError)
      ensures exchange.Received? && IsSuccessful(exchange.code) && Usable(exchange.body) ==>
        result == Fetched(Parsed(nameToKeyMap, username, now, exchange.body.response))
      ensures result == Outcome(nameToKeyMap, username, exchange, now)
    {
      url := RequestUrl(username, accountType);
      if exchange.TransportFailure? {
        return url, Failed(IoError(None));
      }
      if !IsSuccessful(exchange.code) {
        return url, Failed(IoError(Some(exchange.code)));
      }
      var stats := ParseHiscoresJson(username, exchange.body, now);
      if stats.None? {
        return url, Failed(ParseError);
      }
      result := Fetched(stats.value.Value());
    }
  }
}
