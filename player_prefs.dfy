/**
  The host's process-wide preference store, held in memory: each key maps to a
  string or to a 32-bit integer. Reads with a default fall back to the default
  when the key is absent or holds a value of the other kind.
 */
module PlayerPrefs {

  /** The host's `int`: a signed 32-bit integer. */
  type Int32 = x: int | -0x8000_0000 <= x < 0x8000_0000

  datatype StoreValue = Str(text: string) | Int(number: Int32)

  /** What `GetString(key, defaultValue)` returns for the preferences `prefs`. */
  function StringOr(prefs: map<string, StoreValue>, key: string, defaultValue: string): (value: string)
  {
    if key in prefs && prefs[key].Str? then prefs[key].text else defaultValue
  }

  /** What `GetInt(key, defaultValue)` returns for the preferences `prefs`. */
  function IntOr(prefs: map<string, StoreValue>, key: string, defaultValue: Int32): (value: Int32)
  {
    if key in prefs && prefs[key].Int? then prefs[key].number else defaultValue
  }

  class PrefStore {
    var prefs: map<string, StoreValue>

    /** An empty store. */
    constructor ()
      ensures prefs == map[]
    {
      prefs := map[];
    }

    method GetString(key: string, defaultValue: string) returns (value: string)
      ensures value == StringOr(prefs, key, defaultValue)
    {
      value := StringOr(prefs, key, defaultValue);
    }

    method GetInt(key: string, defaultValue: Int32) returns (value: Int32)
      ensures value == IntOr(prefs, key, defaultValue)
    {
      value := IntOr(prefs, key, defaultValue);
    }

    method HasKey(key: string) returns (present: bool)
      ensures present <==> key in prefs
    {
      present := key in prefs;
    }

    method SetString(key: string, value: string)
      modifies this
      ensures prefs == old(prefs)[key := Str(value)]
    {
      prefs := prefs[key := Str(value)];
    }

    method SetInt(key: string, value: Int32)
      modifies this
      ensures prefs == old(prefs)[key := Int(value)]
    {
      prefs := prefs[key := Int(value)];
    }

    method DeleteKey(key: string)
      modifies this
      ensures prefs == old(prefs) - {key}
      ensures key !in prefs
    {
      prefs := prefs - {key};
    }
  }
}
