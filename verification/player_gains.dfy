/** Differences between two snapshots: the `PlayerGains` class filled by
    `PlayerStats.calculateGains`, the value it denotes, and the lookups with
    defaults that the panel reads. */
module Gains {
  import opened Base
  import opened Stats

  /** `PlayerGains.SkillGain`: XP and level differences of one skill. */
  datatype SkillGain = SkillGain(xpGain: Int64, levelGain: Int32) {
    /** `hasGain`: only a strictly positive XP or level difference counts as a gain. */
    predicate HasGain() {
      xpGain > 0 || levelGain > 0
    }
  }

  /** The value of a `PlayerGains` object; `previous == None` is the
      distinguished "no baseline" result. */
  datatype Gains = Gains(
    current: Snapshot,
    previous: Option<Snapshot>,
    skillGains: map<string, SkillGain>,
    activityGains: map<string, Int32>)
  {
    /** `getSkillGain`: the recorded gain, or (0, 0) for a name without one. */
    function SkillGainOf(name: string): (g: SkillGain)
      ensures name in skillGains ==> g == skillGains[name]
      ensures name !in skillGains ==> g == SkillGain(0, 0)
    {
      if name in skillGains then skillGains[name] else SkillGain(0, 0)
    }

    /** `getActivityGain`: the recorded gain, or 0 for a name without one. */
    function ActivityGainOf(name: string): (g: Int32)
      ensures name in activityGains ==> g == activityGains[name]
      ensures name !in activityGains ==> g == 0
    {
      if name in activityGains then activityGains[name] else 0
    }
  }

  /** Java `long`/`int` subtraction of one skill entry from another. */
  function SkillDiff(current: SkillData, older: SkillData): SkillGain {
    SkillGain(Wrap64(current.xp - older.xp), Wrap32(current.level - older.level))
  }

  /** Java `int` subtraction of one activity score from another. */
  function ScoreDiff(current: ActivityData, older: ActivityData): Int32 {
    Wrap32(current.score - older.score)
  }

  /** Per-key differences over the keys present in both snapshots. */
  function SkillGainsOf(current: map<string, SkillData>, older: map<string, SkillData>): map<string, SkillGain> {
    map k | k in current.Keys * older.Keys :: SkillDiff(current[k], older[k])
  }

  function ActivityGainsOf(current: map<string, ActivityData>, older: map<string, ActivityData>): map<string, Int32> {
    map k | k in current.Keys * older.Keys :: ScoreDiff(current[k], older[k])
  }

  /** What `calculateGains` computes: no gains at all without a baseline,
      otherwise one entry per key present in both snapshots and none for a key
      missing from either. */
  function GainsOf(current: Snapshot, older: Option<Snapshot>): (g: Gains)
    ensures g.current == current && g.previous == older
    ensures older.None? ==> g.skillGains == map[] && g.activityGains == map[]
    ensures older.Some? ==> g.skillGains.Keys == current.skills.Keys * older.value.skills.Keys
    ensures older.Some? ==> g.activityGains.Keys == current.activities.Keys * older.value.activities.Keys
  {
    match older
    case None => Gains(current, None, map[], map[])
    case Some(o) => Gains(current, older, SkillGainsOf(current.skills, o.skills), ActivityGainsOf(current.activities, o.activities))
  }

  /** Where no Java overflow occurs, each gain is the exact difference of the two
      entries, negative when the value went down; nothing clamps it. */
  lemma GainIsDifference(current: Snapshot, older: Snapshot, k: string)
    requires k in current.skills && k in older.skills
    requires -TwoTo63 <= current.skills[k].xp - older.skills[k].xp < TwoTo63
    requires -TwoTo31 <= current.skills[k].level - older.skills[k].level < TwoTo31
    ensures k in GainsOf(current, Some(older)).skillGains
    ensures GainsOf(current, Some(older)).skillGains[k].xpGain == current.skills[k].xp - older.skills[k].xp
    ensures GainsOf(current, Some(older)).skillGains[k].levelGain == current.skills[k].level - older.skills[k].level
  {
  }

  /** The same for activity scores. */
  lemma ScoreGainIsDifference(current: Snapshot, older: Snapshot, k: string)
    requires k in current.activities && k in older.activities
    requires -TwoTo31 <= current.activities[k].score - older.activities[k].score < TwoTo31
    ensures GainsOf(current, Some(older)).ActivityGainOf(k) == current.activities[k].score - older.activities[k].score
  {
  }

  /** A skill row reports a gain exactly when its XP or level went up (no overflow). */
  lemma HasGainIffIncreased(current: Snapshot, older: Snapshot, k: string)
    requires k in current.skills && k in older.skills
    requires -TwoTo63 <= current.skills[k].xp - older.skills[k].xp < TwoTo63
    requires -TwoTo31 <= current.skills[k].level - older.skills[k].level < TwoTo31
    ensures GainsOf(current, Some(older)).SkillGainOf(k).HasGain()
        <==> current.skills[k].xp > older.skills[k].xp || current.skills[k].level > older.skills[k].level
  {
  }

  /** Comparing a snapshot with itself gives a gain entry for every key, all zero. */
  lemma SelfGainsZero(s: Snapshot)
    ensures GainsOf(s, Some(s)).skillGains.Keys == s.skills.Keys
    ensures GainsOf(s, Some(s)).activityGains.Keys == s.activities.Keys
    ensures forall k :: k in s.skills ==> GainsOf(s, Some(s)).SkillGainOf(k) == SkillGain(0, 0)
    ensures forall k :: GainsOf(s, Some(s)).ActivityGainOf(k) == 0
  {
  }

  /** Without a baseline every lookup answers the default, zero. */
  lemma NoBaselineAllZero(s: Snapshot, k: string)
    ensures GainsOf(s, None).SkillGainOf(k) == SkillGain(0, 0)
    ensures GainsOf(s, None).ActivityGainOf(k) == 0
    ensures !GainsOf(s, None).SkillGainOf(k).HasGain()
  {
  }

  class PlayerGains {
    const current: Snapshot
    const previous: Option<Snapshot>
    var skillGains: map<string, SkillGain>
    var activityGains: map<string, Int32>

    /** A new gains object records both snapshots and has no gains yet. */
    constructor (current: Snapshot, previous: Option<Snapshot>)
      ensures Value() == Gains(current, previous, map[], map[])
    {
      this.current := current;
      this.previous := previous;
      skillGains := map[];
      activityGains := map[];
    }

    function Value(): (g: Gains)
      reads this
      ensures g.current == current && g.previous == previous
      ensures g.skillGains == skillGains && g.activityGains == activityGains
    {
      Gains(current, previous, skillGains, activityGains)
    }

    /** `addSkillGain`: a later add for the same name overwrites the earlier one. */
    method AddSkillGain(name: string, xpGain: Int64, levelGain: Int32)
      modifies this
      ensures Value().SkillGainOf(name) == SkillGain(xpGain, levelGain)
      ensures skillGains == old(skillGains)[name := SkillGain(xpGain, levelGain)]
      ensures activityGains == old(activityGains)
    {
      skillGains := skillGains[name := SkillGain(xpGain, levelGain)];
    }

    /** `addActivityGain`: a later add for the same name overwrites the earlier one. */
    method AddActivityGain(name: string, scoreGain: Int32)
      modifies this
      ensures Value().ActivityGainOf(name) == scoreGain
      ensures activityGains == old(activityGains)[name := scoreGain]
      ensures skillGains == old(skillGains)
    {
      activityGains := activityGains[name := scoreGain];
    }

    /** `getSkillGain`. */
    function GetSkillGain(name: string): (g: SkillGain)
      reads this
      ensures name !in skillGains ==> g == SkillGain(0, 0)
      ensures name in skillGains ==> g == skillGains[name]
    {
      Value().SkillGainOf(name)
    }

    /** `getActivityGain`. */
    function GetActivityGain(name: string): (g: Int32)
      reads this
      ensures name !in activityGains ==> g == 0
      ensures name in activityGains ==> g == activityGains[name]
    {
      Value().ActivityGainOf(name)
    }
  }

  /** `stats.calculateGains(older)`: builds a fresh gains object by walking the
      current snapshot's skills and then its activities; `older == null` is the
      no-baseline case. Neither snapshot is modified. */
  method CalculateGains(stats: PlayerStats, older: PlayerStats?) returns (gains: PlayerGains)
    ensures fresh(gains)
    ensures gains.Value() == GainsOf(stats.Value(), if older == null then None else Some(older.Value()))
  {
    if older == null {
      gains := new PlayerGains(stats.Value(), None);
      return;
    }
    var current, previous := stats.Value(), older.Value();
    gains := new PlayerGains(current, Some(previous));

    var todo := current.skills.Keys;
    while todo != {}
      invariant todo <= current.skills.Keys
      invariant gains.skillGains.Keys == (current.skills.Keys - todo) * previous.skills.Keys
      invariant forall k :: k in gains.skillGains ==> gains.skillGains[k] == SkillDiff(current.skills[k], previous.skills[k])
      invariant gains.activityGains == map[]
      invariant gains.current == current && gains.previous == Some(previous)
      decreases todo
    {
      var name :| name in todo;
      if name in previous.skills {
        var diff := SkillDiff(current.skills[name], previous.skills[name]);
        gains.AddSkillGain(name, diff.xpGain, diff.levelGain);
      }
      todo := todo - {name};
    }
    assert gains.skillGains == SkillGainsOf(current.skills, previous.skills);

    todo := current.activities.Keys;
    while todo != {}
      invariant todo <= current.activities.Keys
      invariant gains.activityGains.Keys == (current.activities.Keys - todo) * previous.activities.Keys
      invariant forall k :: k in gains.activityGains ==> gains.activityGains[k] == ScoreDiff(current.activities[k], previous.activities[k])
      invariant gains.skillGains == SkillGainsOf(current.skills, previous.skills)
      invariant gains.current == current && gains.previous == Some(previous)
      decreases todo
    {
      var name :| name in todo;
      if name in previous.activities {
        gains.AddActivityGain(name, ScoreDiff(current.activities[name], previous.activities[name]));
      }
      todo := todo - {name};
    }
    assert gains.activityGains == ActivityGainsOf(current.activities, previous.activities);
  }
}
