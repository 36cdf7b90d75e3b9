/** The host's key/value configuration, as the tracker uses it: every key it
    touches lives in the one group "advancedxptracker", so a key alone names
    an entry. */
module Config {
  import opened Base

  class ConfigStore {
    var entries: map<string, string>

    constructor (entries: map<string, string>)
      ensures this.entries == entries
    {
      this.entries := entries;
    }

    /** `getConfiguration`: the stored value, or `None` (Java `null`) when unset. */
    function Get(key: string): (v: Option<string>)
      reads this
      ensures v.Some? <==> key in entries
      ensures v.Some? ==> v.value == entries[key]
    {
      if key in entries then Some(entries[key]) else None
    }

    /** `setConfiguration`. */
    method Set(key: string, value: string)
      modifies this
      ensures entries == old(entries)[key := value]
    {
      entries := entries[key := value];
    }

    /** `unsetConfiguration`. */
    method Unset(key: string)
      modifies this
      ensures entries == old(entries) - {key}
    {
      entries := entries - {key};
    }
  }
}
