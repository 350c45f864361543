/** Unity's PlayerPrefs: a string-keyed store of typed primitive values. */
module Persistence {

  datatype PrefValue = FloatPref(f: real) | StringPref(s: string)

  type Entries = map<string, PrefValue>

  /** `PlayerPrefs.GetFloat(key, default)`: the stored float, or `default` when
      the key is unset or holds a value of another type. */
  function GetFloat(m: Entries, key: string, default: real): real
  {
    if key in m && m[key].FloatPref? then m[key].f else default
  }

  /** `PlayerPrefs.GetString(key, default)`. */
  function GetString(m: Entries, key: string, default: string): string
  {
    if key in m && m[key].StringPref? then m[key].s else default
  }

  class PlayerPrefs {
    var entries: Entries

    constructor ()
      ensures entries == map[]
    {
      entries := map[];
    }

    method SetFloat(key: string, v: real)
      modifies this
      ensures entries == old(entries)[key := FloatPref(v)]
    {
      entries := entries[key := FloatPref(v)];
    }

    method SetString(key: string, s: string)
      modifies this
      ensures entries == old(entries)[key := StringPref(s)]
    {
      entries := entries[key := StringPref(s)];
    }
  }
}
