# Build Pipeline for iOS: persisted settings and folder-name templating

This project models the settings object of the iOS build-pipeline editor
extension (`Editor/BuildPipelineIOSSettings.cs`) and proves properties of it.

The settings object holds seven fields: `buildPath`, `nameFormat`,
`dateTimeFormat`, `createNewFolder`, `setURLSchemes`, `urlSchemes` and
`buildOptions`. `Load` reads them from the host's preference store (PlayerPrefs), each under a key with
the prefix `unity.editor.luvikung.buildpipeline.ios.` and a typed default.
`Save` writes them back:

- booleans become the strings `"True"` / `"False"`;
- the URL-scheme list becomes one `|`-joined string;
- an empty scheme list deletes the key.

`GetFolderName` renders the build sub-folder name. It applies five literal
replace-all passes to `nameFormat`, in this order: `{name}`, `{package}`,
`{version}`, `{bundle}`, `{date}`.

Files:

- `strings.dfy` (module `Strings`) holds the text operations the source uses:
  - `Split` is `String.Split(char)`;
  - `JoinWith` is the join that `Save`'s loop builds;
  - `ReplaceAll` is `StringBuilder.Replace`.

  It also holds their lemmas: split/join round trips, replace-all on text
  without the pattern, and replace-all over a concatenation.
- `player_prefs.dfy` (module `PlayerPrefs`): the preference store as a class
  over a `map<string, StoreValue>`. A value is a string or a 32-bit integer.
- `folder_names.dfy` (module `FolderNames`): the templater `FolderName`. It
  has a reference definition `Render` over a format given as literal text and
  placeholders, and the lemma that connects the two.
- `settings.dfy` (module `BuildPipelineIOS`) holds:
  - the key constants;
  - the `Settings` class with `Load`, `Save` and `GetFolderName`, and the `|`
    join loop of `Save`;
  - the lazily created instance (`SettingsRegistry.Instance`);
  - the specification functions `Loaded` and `Saved`, with the lemmas about
    defaults, flags, the scheme round trip and the keys `Save` touches.

Host values are parameters of the model:

- `Application.productName`;
- the iOS application identifier;
- `Application.version`;
- `PlayerSettings.Android.bundleVersionCode` as a decimal string (the source
  reads the Android code even for iOS);
- `DateTime.Now.ToString(dateTimeFormat)`.

They form the `FolderNames.Context` record.

Behaviour kept as the code has it:

- **`Save` writes the `setURLSchemes` key from `createNewFolder`**
  (`Editor/BuildPipelineIOSSettings.cs:74`). The model keeps this.
  - `SaveThenLoad` proves that after Save then Load, `setURLSchemes` equals
    `createNewFolder`.
  - `SaveLosesSetURLSchemes` proves that the value is lost whenever the two
    flags differ.
  - `SavedCorrected` writes each flag from its own field.
    `CorrectedSaveThenLoad` proves that this variant reproduces every field
    for a separator-free scheme list other than `[""]`.
- **A placeholder inside a substituted value can be expanded.** One
  `Replace` never rescans the text it has inserted. But each of the five
  passes works on the previous pass's output. So a value containing a
  placeholder of a later pass is expanded by that later pass. The model
  follows the code:
  - `LaterTokenInValueExpands`: a later placeholder in a value is expanded;
  - `EarlierTokenInValueStays`: an earlier placeholder in a value is kept;
  - `FolderNameRendersParts`: when no value other than the date contains
    `{`, and no literal contains a placeholder or ends in the unfinished
    beginning of one (such as `{dat`), every placeholder is replaced by its
    value and nothing else changes, unknown `{...}` tokens in the literal
    text included (`UnknownTokenKept`).
- **A one-element list holding the empty string does not survive a save.**
  Such a list saves as `""` and loads back as the empty list
  (`SchemesRoundTrip`, `SaveThenLoad`).

## Model

| member | source | states |
|---|---|---|
| `Strings.Split` | Editor/BuildPipelineIOSSettings.cs:59 | splitting on the bar character gives at least one piece, and no piece contains the separator |
| `Strings.SplitNoSeparator` | Editor/BuildPipelineIOSSettings.cs:59 | a string without the separator splits into itself alone |
| `Strings.SplitAfterPiece` | Editor/BuildPipelineIOSSettings.cs:59 | splitting `x`, a bar, then `y`, with `x` separator-free, gives `x` followed by the pieces of `y` |
| `Strings.JoinSplit` | Editor/BuildPipelineIOSSettings.cs:57-59 | joining the pieces of any split with the separator gives back the stored string |
| `Strings.SplitJoin` | Editor/BuildPipelineIOSSettings.cs:75-84 | splitting the join of a non-empty separator-free list gives back the list, element for element and in order |
| `Strings.JoinNonEmpty` | Editor/BuildPipelineIOSSettings.cs:78-83 | a join of two or more schemes contains the separator, so it is not empty |
| `Strings.ReplaceAbsent` | Editor/BuildPipelineIOSSettings.cs:93-99 | `Replace` leaves text that does not contain the pattern unchanged |
| `Strings.ReplaceBySelf` | Editor/BuildPipelineIOSSettings.cs:94 | replacing a pattern by itself changes nothing, because replaced text is not scanned again within one pass |
| `Strings.ReplaceConcat` | Editor/BuildPipelineIOSSettings.cs:94 | when no occurrence straddles the boundary, `Replace` on `a + b` is `Replace` on `a` followed by `Replace` on `b` |
| `Strings.ReplaceWhole` | Editor/BuildPipelineIOSSettings.cs:94 | a string that is exactly the pattern becomes exactly the replacement |
| `PlayerPrefs.PrefStore.GetString` | Editor/BuildPipelineIOSSettings.cs:49-57 | returns the stored string, or the default when the key is absent or holds an integer |
| `PlayerPrefs.PrefStore.GetInt` | Editor/BuildPipelineIOSSettings.cs:65 | returns the stored integer, or the default when the key is absent or holds a string |
| `PlayerPrefs.PrefStore.HasKey` | Editor/BuildPipelineIOSSettings.cs:55 | true exactly when the key is present, whatever kind of value it holds |
| `PlayerPrefs.PrefStore.SetString` | Editor/BuildPipelineIOSSettings.cs:70-74 | the key now holds the string; every other key is unchanged |
| `PlayerPrefs.PrefStore.SetInt` | Editor/BuildPipelineIOSSettings.cs:88 | the key now holds the integer; every other key is unchanged |
| `PlayerPrefs.PrefStore.DeleteKey` | Editor/BuildPipelineIOSSettings.cs:86-87 | the key is gone; every other key is unchanged |
| `FolderNames.TokenText` | Editor/BuildPipelineIOSSettings.cs:94-98 | each placeholder is `{`, a word without `{`, then `}` |
| `FolderNames.TokenOfRank` | Editor/BuildPipelineIOSSettings.cs:94-98 | the passes run in the order name, package, version, bundle, date |
| `FolderNames.StagePass` | Editor/BuildPipelineIOSSettings.cs:94-98 | when no value other than the date contains `{` and the literals are safe, the k-th pass turns the text as it stands after k passes into the text after k + 1 passes |
| `FolderNames.FolderNameRendersParts` | Editor/BuildPipelineIOSSettings.cs:91-100 | if no value other than the date contains `{` and no literal contains a placeholder or ends in the unfinished beginning of one, the folder name is the format with every placeholder occurrence replaced by its value and all other text, unknown `{...}` tokens included, kept |
| `FolderNames.FolderNameWithoutTokens` | Editor/BuildPipelineIOSSettings.cs:91-100 | a format containing none of the five placeholders, unknown `{...}` tokens included, comes back unchanged |
| `FolderNames.DefaultFolderName` | Editor/BuildPipelineIOSSettings.cs:51 | when no value other than the date contains `{`, the default format `{package}_{date}` renders as identifier, `_`, date |
| `FolderNames.UnknownTokenKept` | Editor/BuildPipelineIOSSettings.cs:91-100 | when no value other than the date contains `{`, the format `{x}{date}` renders as `{x}` followed by the date: the unknown token is kept |
| `FolderNames.LaterTokenInValueExpands` | Editor/BuildPipelineIOSSettings.cs:94-98 | a product name of `{date}` is expanded by the later `{date}` pass, because each pass rescans the previous pass's output |
| `FolderNames.EarlierTokenInValueStays` | Editor/BuildPipelineIOSSettings.cs:94-98 | a date string of `{name}` is kept verbatim, because the `{name}` pass has already run |
| `BuildPipelineIOS.JoinSchemesLoop` | Editor/BuildPipelineIOSSettings.cs:77-83 | the `StringBuilder` loop builds the schemes in order, separated by single bar characters, with no leading or trailing separator |
| `BuildPipelineIOS.Settings.constructor` | Editor/BuildPipelineIOSSettings.cs:38-41 | a new settings object holds what `Load` reads from the store |
| `BuildPipelineIOS.Settings.Load` | Editor/BuildPipelineIOSSettings.cs:42-66 | the seven fields become the values `Loaded` reads from the store, with their defaults; the store is not changed |
| `BuildPipelineIOS.Settings.Save` | Editor/BuildPipelineIOSSettings.cs:68-89 | the store becomes `Saved` of the old store and the fields; the `setURLSchemes` key is written from `createNewFolder` |
| `BuildPipelineIOS.Settings.GetFolderName` | Editor/BuildPipelineIOSSettings.cs:91-100 | returns the five-pass rendering of `nameFormat`; a format without placeholders comes back unchanged |
| `BuildPipelineIOS.SettingsRegistry.constructor` | Editor/BuildPipelineIOSSettings.cs:27 | no instance exists before the first access |
| `BuildPipelineIOS.SettingsRegistry.Instance` | Editor/BuildPipelineIOSSettings.cs:28-36 | the first access creates a loaded settings object; later accesses return the same object |
| `BuildPipelineIOS.KeysDistinct` | Editor/BuildPipelineIOSSettings.cs:11-17 | the seven preference keys are pairwise distinct |
| `BuildPipelineIOS.KeysUnderAlias` | Editor/BuildPipelineIOSSettings.cs:10-17 | every preference key begins with the `ALIAS` prefix |
| `BuildPipelineIOS.LoadDefaults` | Editor/BuildPipelineIOSSettings.cs:49-65 | a store with none of the keys loads `""`, `{package}_{date}`, `yyyyMMddHHmmss`, true, false, `[]`, 0 |
| `BuildPipelineIOS.LoadFlags` | Editor/BuildPipelineIOSSettings.cs:53-54 | a flag stored as a string loads as true exactly when the string is `"True"` |
| `BuildPipelineIOS.DecodeNeverSingletonEmpty` | Editor/BuildPipelineIOSSettings.cs:57-61 | decoding a stored scheme string never gives `[""]` |
| `BuildPipelineIOS.LoadSchemesAbsentOrEmpty` | Editor/BuildPipelineIOSSettings.cs:55-64 | an absent scheme key and a key holding `""` load the same settings, with an empty list; no load gives `[""]` |
| `BuildPipelineIOS.SchemesRoundTrip` | Editor/BuildPipelineIOSSettings.cs:57-61 | a separator-free list survives join and decode exactly when it is not `[""]`; `[""]` comes back empty |
| `BuildPipelineIOS.LoadWritten` | Editor/BuildPipelineIOSSettings.cs:70-88 | loading what was written gives back each field, the flag that was written, and the decoded scheme list |
| `BuildPipelineIOS.SaveThenLoad` | Editor/BuildPipelineIOSSettings.cs:73-74 | Save then Load reproduces `buildPath`, `nameFormat`, `dateTimeFormat`, `createNewFolder` and `buildOptions` exactly, and the scheme list unless it is `[""]`; `setURLSchemes` comes back as `createNewFolder` |
| `BuildPipelineIOS.SaveLosesSetURLSchemes` | Editor/BuildPipelineIOSSettings.cs:74 | whenever the two flags differ, Save then Load changes `setURLSchemes` |
| `BuildPipelineIOS.CorrectedSaveThenLoad` | Editor/BuildPipelineIOSSettings.cs:74 | if each flag is written from its own field, Save then Load reproduces every field of a separator-free list other than `[""]` |
| `BuildPipelineIOS.SaveTouchesOnlyItsKeys` | Editor/BuildPipelineIOSSettings.cs:75-88 | Save changes only the seven keys; the scheme key holds the joined list when the list is non-empty, and is gone when it is empty |

## Left out

- Real PlayerPrefs persistence (writes to disk, host failures) is not modelled. The store is an in-memory map.
- PlayerPrefs float values are left out, because the settings never use them.
- The model assumes that reading a key with the wrong getter returns the default. This is how the store is taken to behave; the host's storage is not part of this model.
- `null` is not modelled. An empty sequence stands for a `null` scheme array, and `Save` treats the two alike at line 75. Strings are never `null`, so the `str != null` test at line 58 always passes.
- The host calls are parameters of `FolderNames.Context`:
  - `DateTime.Now.ToString(dateTimeFormat)` is the `date` string, so .NET date formatting is not modelled;
  - `Application.productName`, `PlayerSettings.GetApplicationIdentifier`, `Application.version` and `PlayerSettings.Android.bundleVersionCode` are the other four strings.
- The `BUILD_PIPELINE_IOS_UNITY_DEFAULT` branch of `Load` (lines 46-47) is left out. It reads its default from the editor's build settings.
- `buildOptions` is an opaque 32-bit integer. The meaning of the `BuildOptions` flags is not modelled.
- The C# static `instance` field is a field of a `SettingsRegistry` object that the caller holds.
- `FolderNames.FolderNameRendersParts` does not cover a literal that ends in the unfinished beginning of a placeholder, such as `{` or `{dat`. What follows it (a value or the next literal) could complete the placeholder, which a later pass would then expand. Nor does it cover a product name, identifier, version or bundle code containing `{`: such a value can hold or complete a placeholder of a later pass, which that pass then expands (`LaterTokenInValueExpands`).
- `FolderNames.DefaultFolderName` asks the product name, identifier, version and bundle code to be free of `{`. Only the identifier can actually change the result of `{package}_{date}`.
- `Editor/BuildPipelineIOSWindow.cs` (the settings window), the build menu, the build invocation and the post-build property-list edits are not part of this model.
