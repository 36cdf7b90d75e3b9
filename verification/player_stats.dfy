/** One point-in-time measurement of a player: the `PlayerStats` class, whose
    skill and activity maps are filled in by `setSkill` and `setActivity`,
    and the immutable value it denotes once filled. */
module Stats {
  import opened Base

  /** `PlayerStats.SkillData`: rank, level and experience of one skill. */
  datatype SkillData = SkillData(rank: Int32, level: Int32, xp: Int64)

  /** `PlayerStats.ActivityData`: rank and score (kill count, clue count, ...) of one activity. */
  datatype ActivityData = ActivityData(rank: Int32, score: Int32)

  /** The value of a `PlayerStats` object. Timestamps are epoch milliseconds. */
  datatype Snapshot = Snapshot(
    username: string,
    timestamp: Int64,
    skills: map<string, SkillData>,
    activities: map<string, ActivityData>)

  /** A snapshot with no skills and no activities, as `new PlayerStats(u, t)` starts. */
  function EmptySnapshot(username: string, timestamp: Int64): (s: Snapshot)
    ensures s.username == username && s.timestamp == timestamp
    ensures s.skills == map[] && s.activities == map[]
  {
    Snapshot(username, timestamp, map[], map[])
  }

  class PlayerStats {
    const username: string
    const timestamp: Int64
    var skills: map<string, SkillData>
    var activities: map<string, ActivityData>

    constructor (username: string, timestamp: Int64)
      ensures Value() == EmptySnapshot(username, timestamp)
    {
      this.username := username;
      this.timestamp := timestamp;
      skills := map[];
      activities := map[];
    }

    /** The snapshot this object currently holds. */
    function Value(): (s: Snapshot)
      reads this
      ensures s.username == username && s.timestamp == timestamp
      ensures s.skills == skills && s.activities == activities
    {
      Snapshot(username, timestamp, skills, activities)
    }

    /** `setSkill`: replaces the entry for `name` and no other. */
    method SetSkill(name: string, rank: Int32, level: Int32, xp: Int64)
      modifies this
      ensures skills == old(skills)[name := SkillData(rank, level, xp)]
      ensures activities == old(activities)
      ensures forall k :: k != name && k in old(skills) ==> k in skills && skills[k] == old(skills)[k]
    {
      skills := skills[name := SkillData(rank, level, xp)];
    }

    /** `setActivity`: replaces the entry for `name` and no other. */
    method SetActivity(name: string, rank: Int32, score: Int32)
      modifies this
      ensures activities == old(activities)[name := ActivityData(rank, score)]
      ensures skills == old(skills)
      ensures forall k :: k != name && k in old(activities) ==> k in activities && activities[k] == old(activities)[k]
    {
      activities := activities[name := ActivityData(rank, score)];
    }
  }
}
