/**
  The persisted build settings of the iOS build pipeline: seven fields loaded
  from and saved to the preference store under keys that share one prefix,
  each with a typed default; the URL-scheme list is kept as one `|`-joined
  string whose key is deleted when the list is empty.
 */
module BuildPipelineIOS {
  import opened Strings
  import opened PlayerPrefs
  import opened FolderNames

  const ALIAS := "unity.editor.luvikung.buildpipeline.ios."
  const PREFS_SETTINGS_BUILD_PATH := ALIAS + "buildpath"
  const PREFS_SETTINGS_NAME_FORMAT := ALIAS + "nameformat"
  const PREFS_SETTINGS_DATE_TIME_FORMAT := ALIAS + "datetimeformat"
  const PREFS_SETTINGS_CREATE_NEW_FOLDER := ALIAS + "createNewFolder"
  const PREFS_SETTINGS_SET_URL_SCHEMES := ALIAS + "setURLSchemes"
  const PREFS_SETTINGS_URL_SCHEMES := ALIAS + "urlSchemes"
  const PREFS_SETTINGS_BUILD_OPTIONS := ALIAS + "buildOptions"

  /** Every key the settings read or write. */
  const SETTINGS_KEYS: set<string> := {
    PREFS_SETTINGS_BUILD_PATH, PREFS_SETTINGS_NAME_FORMAT, PREFS_SETTINGS_DATE_TIME_FORMAT,
    PREFS_SETTINGS_CREATE_NEW_FOLDER, PREFS_SETTINGS_SET_URL_SCHEMES, PREFS_SETTINGS_URL_SCHEMES,
    PREFS_SETTINGS_BUILD_OPTIONS }

  const DEFAULT_NAME_FORMAT := "{package}_{date}"
  const DEFAULT_DATE_TIME_FORMAT := "yyyyMMddHHmmss"

  /** .NET `bool.TrueString` and `bool.FalseString`. */
  const TRUE_STRING := "True"
  const FALSE_STRING := "False"

  const SCHEME_SEPARATOR := '|'

  /** The values of the seven settings fields. */
  datatype Snapshot = Snapshot(
    buildPath: string,
    nameFormat: string,
    dateTimeFormat: string,
    createNewFolder: bool,
    setURLSchemes: bool,
    urlSchemes: seq<string>,
    buildOptions: Int32)

  /** What `Load` yields for a key that is absent. */
  function Defaults(): (v: Snapshot)
  {
    Snapshot("", DEFAULT_NAME_FORMAT, DEFAULT_DATE_TIME_FORMAT, true, false, [], 0)
  }

  function BoolText(b: bool): (text: string)
  {
    if b then TRUE_STRING else FALSE_STRING
  }

  /** The stored form of a non-empty scheme list. */
  function JoinSchemes(schemes: seq<string>): (stored: string)
  {
    JoinWith(schemes, [SCHEME_SEPARATOR])
  }

  /** A stored scheme string as a list: the empty string is the empty list. */
  function DecodeSchemes(stored: string): (schemes: seq<string>)
  {
    if |stored| > 0 then Split(stored, SCHEME_SEPARATOR) else []
  }

  /** No element of the list contains the separator. */
  predicate SeparatorFree(schemes: seq<string>)
  {
    forall k | 0 <= k < |schemes| :: SCHEME_SEPARATOR !in schemes[k]
  }

  /** What `Load` assigns to the seven fields, read from `prefs`. */
  function Loaded(prefs: map<string, StoreValue>): (v: Snapshot)
  {
    Snapshot(
      StringOr(prefs, PREFS_SETTINGS_BUILD_PATH, ""),
      StringOr(prefs, PREFS_SETTINGS_NAME_FORMAT, DEFAULT_NAME_FORMAT),
      StringOr(prefs, PREFS_SETTINGS_DATE_TIME_FORMAT, DEFAULT_DATE_TIME_FORMAT),
      StringOr(prefs, PREFS_SETTINGS_CREATE_NEW_FOLDER, TRUE_STRING) == TRUE_STRING,
      StringOr(prefs, PREFS_SETTINGS_SET_URL_SCHEMES, FALSE_STRING) == TRUE_STRING,
      if PREFS_SETTINGS_URL_SCHEMES in prefs
      then DecodeSchemes(StringOr(prefs, PREFS_SETTINGS_URL_SCHEMES, ""))
      else [],
      IntOr(prefs, PREFS_SETTINGS_BUILD_OPTIONS, 0))
  }

  /**
    The store after writing `v`, with `urlFlag` as the value stored under the
    `setURLSchemes` key.
   */
  function Written(prefs: map<string, StoreValue>, v: Snapshot, urlFlag: bool): (written: map<string, StoreValue>)
  {
    var scalars := prefs
      [PREFS_SETTINGS_BUILD_PATH := Str(v.buildPath)]
      [PREFS_SETTINGS_NAME_FORMAT := Str(v.nameFormat)]
      [PREFS_SETTINGS_DATE_TIME_FORMAT := Str(v.dateTimeFormat)]
      [PREFS_SETTINGS_CREATE_NEW_FOLDER := Str(BoolText(v.createNewFolder))]
      [PREFS_SETTINGS_SET_URL_SCHEMES := Str(BoolText(urlFlag))];
    var schemes :=
      if |v.urlSchemes| > 0 then scalars[PREFS_SETTINGS_URL_SCHEMES := Str(JoinSchemes(v.urlSchemes))]
      else scalars - {PREFS_SETTINGS_URL_SCHEMES};
    schemes[PREFS_SETTINGS_BUILD_OPTIONS := Int(v.buildOptions)]
  }

  /** The store after `Save` as written: the `setURLSchemes` key gets `createNewFolder`. */
  function Saved(prefs: map<string, StoreValue>, v: Snapshot): (saved: map<string, StoreValue>)
  {
    Written(prefs, v, v.createNewFolder)
  }

  /** The store after a `Save` that writes each field under its own key. */
  function SavedCorrected(prefs: map<string, StoreValue>, v: Snapshot): (saved: map<string, StoreValue>)
  {
    Written(prefs, v, v.setURLSchemes)
  }

  /** The `StringBuilder` loop of `Save`: each scheme but the last followed by `|`, then the last. */
  method JoinSchemesLoop(schemes: seq<string>) returns (joined: string)
    requires |schemes| > 0
    ensures joined == JoinSchemes(schemes)
  {
    var sb := "";
    var i := 0;
    while i < |schemes| - 1
      invariant 0 <= i <= |schemes| - 1
      invariant sb + JoinSchemes(schemes[i..]) == JoinSchemes(schemes)
    {
      assert schemes[i..][1..] == schemes[i + 1..];
      sb := sb + schemes[i];
      sb := sb + [SCHEME_SEPARATOR];
      i := i + 1;
    }
    assert schemes[i..] == [schemes[|schemes| - 1]];
    sb := sb + schemes[|schemes| - 1];
    joined := sb;
  }

  class Settings {
    var buildPath: string
    var nameFormat: string
    var dateTimeFormat: string
    var createNewFolder: bool
    var setURLSchemes: bool
    var urlSchemes: seq<string>
    var buildOptions: Int32

    function Value(): (v: Snapshot)
      reads this
    {
      Snapshot(buildPath, nameFormat, dateTimeFormat, createNewFolder, setURLSchemes, urlSchemes, buildOptions)
    }

    /** A new settings object is loaded from the store at once. */
    constructor (store: PrefStore)
      ensures Value() == Loaded(store.prefs)
    {
      new;
      Load(store);
    }

    method Load(store: PrefStore)
      modifies this
      ensures Value() == Loaded(store.prefs)
    {
      buildPath := store.GetString(PREFS_SETTINGS_BUILD_PATH, "");
      nameFormat := store.GetString(PREFS_SETTINGS_NAME_FORMAT, DEFAULT_NAME_FORMAT);
      dateTimeFormat := store.GetString(PREFS_SETTINGS_DATE_TIME_FORMAT, DEFAULT_DATE_TIME_FORMAT);
      var newFolder := store.GetString(PREFS_SETTINGS_CREATE_NEW_FOLDER, TRUE_STRING);
      createNewFolder := newFolder == TRUE_STRING;
      var setSchemes := store.GetString(PREFS_SETTINGS_SET_URL_SCHEMES, FALSE_STRING);
      setURLSchemes := setSchemes == TRUE_STRING;
      var present := store.HasKey(PREFS_SETTINGS_URL_SCHEMES);
      if present {
        var str := store.GetString(PREFS_SETTINGS_URL_SCHEMES, "");
        if |str| > 0 {
          urlSchemes := Split(str, SCHEME_SEPARATOR);
        } else {
          urlSchemes := [];
        }
      } else {
        urlSchemes := [];
      }
      buildOptions := store.GetInt(PREFS_SETTINGS_BUILD_OPTIONS, 0);
    }

    method Save(store: PrefStore)
      modifies store
      ensures store.prefs == Saved(old(store.prefs), Value())
    {
      store.SetString(PREFS_SETTINGS_BUILD_PATH, buildPath);
      store.SetString(PREFS_SETTINGS_NAME_FORMAT, nameFormat);
      store.SetString(PREFS_SETTINGS_DATE_TIME_FORMAT, dateTimeFormat);
      store.SetString(PREFS_SETTINGS_CREATE_NEW_FOLDER, if createNewFolder then TRUE_STRING else FALSE_STRING);
      store.SetString(PREFS_SETTINGS_SET_URL_SCHEMES, if createNewFolder then TRUE_STRING else FALSE_STRING);
      if |urlSchemes| > 0 {
        var joined := JoinSchemesLoop(urlSchemes);
        store.SetString(PREFS_SETTINGS_URL_SCHEMES, joined);
      } else {
        var present := store.HasKey(PREFS_SETTINGS_URL_SCHEMES);
        if present {
          store.DeleteKey(PREFS_SETTINGS_URL_SCHEMES);
        }
      }
      store.SetInt(PREFS_SETTINGS_BUILD_OPTIONS, buildOptions);
    }

    /**
      The folder name for the current name format; `ctx` carries the host's
      product name, identifier, version, bundle code and formatted date.
     */
    method GetFolderName(ctx: Context) returns (name: string)
      ensures name == FolderName(nameFormat, ctx)
      ensures (forall t: Token :: !Contains(nameFormat, TokenText(t))) ==> name == nameFormat
    {
      var s := nameFormat;
      s := ReplaceAll(s, "{name}", ctx.productName);
      s := ReplaceAll(s, "{package}", ctx.identifier);
      s := ReplaceAll(s, "{version}", ctx.version);
      s := ReplaceAll(s, "{bundle}", ctx.bundleCode);
      s := ReplaceAll(s, "{date}", ctx.date);
      name := s;
      if forall t: Token :: !Contains(nameFormat, TokenText(t)) {
        FolderNameWithoutTokens(nameFormat, ctx);
      }
    }
  }

  /** The lazily created process-wide instance. */
  class SettingsRegistry {
    var instance: Settings?

    constructor ()
      ensures instance == null
    {
      instance := null;
    }

    /** The first access creates and loads the settings; later accesses return the same object. */
    method Instance(store: PrefStore) returns (settings: Settings)
      modifies this
      ensures instance == settings
      ensures old(instance) != null ==> settings == old(instance)
      ensures old(instance) == null ==> fresh(settings) && settings.Value() == Loaded(store.prefs)
    {
      if instance == null {
        instance := new Settings(store);
      }
      settings := instance;
    }
  }

  // ---------------------------------------------------------------- lemmas

  /** The seven keys are pairwise distinct. */
  lemma KeysDistinct()
    ensures PREFS_SETTINGS_BUILD_PATH !in {PREFS_SETTINGS_NAME_FORMAT, PREFS_SETTINGS_DATE_TIME_FORMAT, PREFS_SETTINGS_CREATE_NEW_FOLDER, PREFS_SETTINGS_SET_URL_SCHEMES, PREFS_SETTINGS_URL_SCHEMES, PREFS_SETTINGS_BUILD_OPTIONS}
    ensures PREFS_SETTINGS_NAME_FORMAT !in {PREFS_SETTINGS_DATE_TIME_FORMAT, PREFS_SETTINGS_CREATE_NEW_FOLDER, PREFS_SETTINGS_SET_URL_SCHEMES, PREFS_SETTINGS_URL_SCHEMES, PREFS_SETTINGS_BUILD_OPTIONS}
    ensures PREFS_SETTINGS_DATE_TIME_FORMAT !in {PREFS_SETTINGS_CREATE_NEW_FOLDER, PREFS_SETTINGS_SET_URL_SCHEMES, PREFS_SETTINGS_URL_SCHEMES, PREFS_SETTINGS_BUILD_OPTIONS}
    ensures PREFS_SETTINGS_CREATE_NEW_FOLDER !in {PREFS_SETTINGS_SET_URL_SCHEMES, PREFS_SETTINGS_URL_SCHEMES, PREFS_SETTINGS_BUILD_OPTIONS}
    ensures PREFS_SETTINGS_SET_URL_SCHEMES !in {PREFS_SETTINGS_URL_SCHEMES, PREFS_SETTINGS_BUILD_OPTIONS}
    ensures PREFS_SETTINGS_URL_SCHEMES !in {PREFS_SETTINGS_BUILD_OPTIONS}
  {
    // Each key is the prefix followed by its own name; the names differ.
    assert PREFS_SETTINGS_BUILD_PATH[|ALIAS|..] == "buildpath";
    assert PREFS_SETTINGS_NAME_FORMAT[|ALIAS|..] == "nameformat";
    assert PREFS_SETTINGS_DATE_TIME_FORMAT[|ALIAS|..] == "datetimeformat";
    assert PREFS_SETTINGS_CREATE_NEW_FOLDER[|ALIAS|..] == "createNewFolder";
    assert PREFS_SETTINGS_SET_URL_SCHEMES[|ALIAS|..] == "setURLSchemes";
    assert PREFS_SETTINGS_URL_SCHEMES[|ALIAS|..] == "urlSchemes";
    assert PREFS_SETTINGS_BUILD_OPTIONS[|ALIAS|..] == "buildOptions";
  }

  /** Every key begins with the common prefix. */
  lemma KeysUnderAlias()
    ensures forall k | k in SETTINGS_KEYS :: |ALIAS| < |k| && k[..|ALIAS|] == ALIAS
  {
  }

  /** A store holding none of the keys loads the defaults. */
  lemma LoadDefaults(prefs: map<string, StoreValue>)
    requires forall k | k in SETTINGS_KEYS :: k !in prefs
    ensures Loaded(prefs) == Defaults()
  {
  }

  /**
    A flag stored as a string loads as true exactly when the string is
    `"True"`; any other string loads as false.
   */
  lemma LoadFlags(prefs: map<string, StoreValue>, newFolder: string, setSchemes: string)
    ensures Loaded(prefs[PREFS_SETTINGS_CREATE_NEW_FOLDER := Str(newFolder)]).createNewFolder
      <==> newFolder == "True"
    ensures Loaded(prefs[PREFS_SETTINGS_SET_URL_SCHEMES := Str(setSchemes)]).setURLSchemes
      <==> setSchemes == "True"
  {
  }

  /** Decoding never produces the one-element list holding the empty string. */
  lemma DecodeNeverSingletonEmpty(stored: string)
    ensures DecodeSchemes(stored) != [""]
  {
    if |stored| > 0 {
      JoinSplit(stored, SCHEME_SEPARATOR);
    }
  }

  /**
    An absent scheme key and a scheme key holding the empty string load the
    same settings, with an empty scheme list, and a load never yields `[""]`.
   */
  lemma LoadSchemesAbsentOrEmpty(prefs: map<string, StoreValue>)
    ensures Loaded(prefs[PREFS_SETTINGS_URL_SCHEMES := Str("")]) == Loaded(prefs - {PREFS_SETTINGS_URL_SCHEMES})
    ensures Loaded(prefs - {PREFS_SETTINGS_URL_SCHEMES}).urlSchemes == []
    ensures Loaded(prefs).urlSchemes != [""]
  {
    KeysDistinct();
    if PREFS_SETTINGS_URL_SCHEMES in prefs {
      DecodeNeverSingletonEmpty(StringOr(prefs, PREFS_SETTINGS_URL_SCHEMES, ""));
    }
  }

  /**
    A separator-free scheme list survives joining and decoding exactly when it
    is not `[""]`, which is stored as the empty string and comes back empty.
   */
  lemma SchemesRoundTrip(schemes: seq<string>)
    requires SeparatorFree(schemes)
    ensures DecodeSchemes(JoinSchemes(schemes)) == schemes <==> schemes != [""]
    ensures schemes == [""] ==> DecodeSchemes(JoinSchemes(schemes)) == []
  {
    if |schemes| >= 2 {
      JoinNonEmpty(schemes, [SCHEME_SEPARATOR]);
      SplitJoin(schemes, SCHEME_SEPARATOR);
    } else if |schemes| == 1 && schemes[0] != "" {
      SplitJoin(schemes, SCHEME_SEPARATOR);
    }
  }

  /** Loading what `Written` stored gives back every field, the flag and the decoded scheme list. */
  lemma LoadWritten(prefs: map<string, StoreValue>, v: Snapshot, urlFlag: bool)
    ensures Loaded(Written(prefs, v, urlFlag))
      == v.(setURLSchemes := urlFlag, urlSchemes := DecodeSchemes(JoinSchemes(v.urlSchemes)))
  {
    KeysDistinct();
  }

  /**
    Save then Load reproduces every field except `setURLSchemes`, which comes
    back equal to `createNewFolder`; a separator-free scheme list comes back
    unchanged unless it is `[""]`, which comes back empty.
   */
  lemma SaveThenLoad(prefs: map<string, StoreValue>, v: Snapshot)
    requires SeparatorFree(v.urlSchemes)
    ensures Loaded(Saved(prefs, v)) == v.(
      setURLSchemes := v.createNewFolder,
      urlSchemes := if v.urlSchemes == [""] then [] else v.urlSchemes)
  {
    LoadWritten(prefs, v, v.createNewFolder);
    SchemesRoundTrip(v.urlSchemes);
  }

  /** Whenever the two flags differ, Save then Load loses `setURLSchemes`. */
  lemma SaveLosesSetURLSchemes(prefs: map<string, StoreValue>, v: Snapshot)
    requires v.createNewFolder != v.setURLSchemes
    ensures Loaded(Saved(prefs, v)).setURLSchemes != v.setURLSchemes
    ensures Loaded(Saved(prefs, v)) != v
  {
  }

  /** With each flag written under its own key, Save then Load is the identity on separator-free lists other than `[""]`. */
  lemma CorrectedSaveThenLoad(prefs: map<string, StoreValue>, v: Snapshot)
    requires SeparatorFree(v.urlSchemes) && v.urlSchemes != [""]
    ensures Loaded(SavedCorrected(prefs, v)) == v
  {
    LoadWritten(prefs, v, v.setURLSchemes);
    SchemesRoundTrip(v.urlSchemes);
  }

  /**
    Save writes the seven keys and no others: every other key keeps its value,
    the scheme key holds the joined list when the list is non-empty and is
    gone when it is empty.
   */
  lemma SaveTouchesOnlyItsKeys(prefs: map<string, StoreValue>, v: Snapshot)
    ensures forall k | k !in SETTINGS_KEYS :: (k in Saved(prefs, v) <==> k in prefs)
    ensures forall k | k !in SETTINGS_KEYS && k in prefs :: Saved(prefs, v)[k] == prefs[k]
    ensures |v.urlSchemes| > 0 ==> Saved(prefs, v).Keys == prefs.Keys + SETTINGS_KEYS
    ensures |v.urlSchemes| > 0 ==>
      Saved(prefs, v)[PREFS_SETTINGS_URL_SCHEMES] == Str(JoinSchemes(v.urlSchemes))
    ensures |v.urlSchemes| == 0 ==>
      Saved(prefs, v).Keys == prefs.Keys + SETTINGS_KEYS - {PREFS_SETTINGS_URL_SCHEMES}
  {
  }
}
