# mnemosync configuration and directory registry, in Dafny

mnemosync (`mmsync`) is a command-line tool that keeps a list of directories
to back up into a Git repository. This project models its `config` package.
That package has two parts:

- **Configuration** (`config/config.go`): this part works out where the
  YAML configuration file and the JSON registry file live. A non-empty
  `MMSYNC_CONF` under the home directory overrides the location. The part
  also builds the default schema (`config_path`, `app_version`, `is_init`,
  `repo_path`, `db_path`). On load it reads the file and heals the schema
  with an ordered set of repair rules. Each repair adds one warning. When
  anything was repaired, the result is saved.
- **Directory registry** (`config/db.go`): a `DataStore` holds an int64
  counter and a map from decimal identifiers to tracked directories (target
  path and alias). `AddDir` issues the next identifier, and `LoadDataStore`
  reads the registry file.

The files are:

- `wrappers.dfy`: `Option`.
- `filepath.dfy`: paths as sequences of components. `filepath.Join` is
  concatenation.
- `os.dfy`: the OS facts the code reads, given as values. These are the home
  lookup, `MMSYNC_CONF`, `os.Stat` and `os.ReadFile`, plus the load errors.
- `strconv.dfy`: `strconv.FormatInt(n, 10)`. It comes with a reference
  inverse, and a proof that the rendering is injective.
- `config.dfy`: the configuration part. `MnemoConf` is a class, because
  `healConfigSchema` changes it through a pointer.
- `db.dfy`: the registry part. `DataStore` is a class with an `int64`
  counter and a map field. `None` stands for a nil map.

The model follows the code where it differs from the project's design
description:

- With `MMSYNC_CONF` non-empty and the home directory resolved, both
  resolvers return `<home>/<MMSYNC_CONF>`. No
  file name is appended, so the configuration path and the registry path
  are the same file (`ResolversCollideIffOverridden`).
- `AddDir` does not check whether a target path or alias is already
  registered.
- `LoadDataStore` does not validate what it decodes. A nil map, a negative
  counter or keys the counter never issued all load without error
  (`UnvalidatedLoadOverwrites`).
- The code has no migration of the configuration between locations.

## Model

| member | source | states |
|---|---|---|
| `Config.ResolveConfigPath` | config/config.go:38-50 | With the override in effect (home resolved, `MMSYNC_CONF` non-empty) the path is home joined with the override. Otherwise it is `config.yaml` inside `<home>/.config/mmsync`, or inside the relative `.config/mmsync` when the home lookup fails. The result is never empty. |
| `Config.ResolveDbPath` | config/config.go:52-64 | The same cases as the configuration path, with `mmsync-state.json` as the file name. |
| `Config.ResolversShareParent` | config/config.go:38-64 | For every home lookup and override value, the two paths have the same parent directory. Without the override that parent is the default directory. |
| `Config.ResolversCollideIffOverridden` | config/config.go:45-61 | The two paths are equal exactly when the override is in effect. |
| `Config.DefaultSchema` | config/config.go:26-35 | The default schema has IsInit false, an empty RepoPath and version "Version 0.0.1". Its ConfigPath and DbPath are the two resolvers' results, and both are non-empty. |
| `Config.GetMnemoConf` | config/config.go:26-36 | Returns a new document holding the default schema. |
| `Config.GitDirExists` | config/config.go:118-127 | True exactly when `<path>/.git` exists as a directory. An error is returned exactly when stat fails other than by "does not exist", and then the answer is false. |
| `Config.Heal` | config/config.go:129-166 | Reference definition of healing. The version always ends as the default, IsInit never changes, and there are at most four warnings. |
| `Config.HealConfigSchema` | config/config.go:129-166 | The in-place repair leaves the schema and warnings that `Heal` defines, computed from the schemas as they stood on entry. |
| `Config.HealSetsVersion` | config/config.go:140-142 | After healing the version equals the default. The version warning occurs once if the version differed and never otherwise. |
| `Config.HealUninitialised` | config/config.go:144-150 | With IsInit false, RepoPath and DbPath are reset to their defaults, and ConfigPath and IsInit are kept. There is exactly one reset warning and no warning from a later rule. |
| `Config.HealInitialised` | config/config.go:152-164 | With IsInit true, IsInit stays true. RepoPath ends as the default or as a non-empty path stat did not report missing. It is replaced exactly when it was empty or missing. Empty DbPath and ConfigPath are replaced by their defaults and other values are kept. Each replacement is reported exactly once, and there is no reset warning. |
| `Config.HealInitialisedPathsSet` | config/config.go:158-164 | Healed against the default schema, an initialised schema's DbPath and ConfigPath are never empty. |
| `Config.HealQuiet` | config/config.go:135-138 | Every assignment comes with a warning, so an empty warning list means the schema is unchanged. |
| `Config.HealStable` | config/config.go:129-166 | Healing the healed schema again, with the same stat, leaves every field as the first run left it. |
| `Config.HealRepeatsWarnings` | config/config.go:144-153 | Against the default schema, healing the healed schema draws warnings again exactly when the schema was uninitialised or its RepoPath was empty or missing. In exactly those cases a load saves it again every time. |
| `Config.Overlay` | config/config.go:79-83 | Decoding onto the default schema gives, for each of the five fields, the document's value when the key is present and the default when it is absent. An empty document leaves the schema unchanged. |
| `Config.LoadConfig` | config/config.go:66-100 | A missing file gives the default schema and no error. A read error or a decode failure gives an error and no document. Otherwise the decoded schema is healed. It is saved only when there are warnings, and a failed save turns into an error with no document. |
| `Config.ReloadKeepsHealedSchema` | config/config.go:85-99 | Loading the saved, fully written healed schema again yields the same fields. |
| `StrConv.FormatUint` | config/db.go:50 | The rendering of a natural number is a non-empty string of digits with no leading zero, except "0" itself. |
| `StrConv.FormatInt` | config/db.go:50 | The base-10 rendering starts with '-' exactly for negative numbers. The rest is digits. |
| `StrConv.FormatUintRoundTrip` | config/db.go:50 | Reading the digits back gives the number. |
| `StrConv.FormatIntRoundTrip` | config/db.go:50 | The reference decimal reader inverts `FormatInt` for every integer. |
| `StrConv.FormatIntInjective` | config/db.go:50 | Distinct integers have distinct renderings. |
| `StrConv.FormatIntExamples` | config/db.go:50 | 0, 1, 2, 10 and -7 render as "0", "1", "2", "10" and "-7". |
| `Db.IssuedKeyIsRendering` | config/db.go:47-53 | A key satisfies the issued-key test exactly when it is the base-10 rendering of some n in 1..CurrentId. |
| `Db.IssueNextKey` | config/db.go:47-53 | Suppose every key renders some n in 1..CurrentId. Then the rendering of CurrentId+1 is absent, inserting it grows the map by exactly one entry, and every key still renders some n in 1..CurrentId+1. |
| `Db.DataStore.constructor` | config/db.go:23-28 | A new store has CurrentId 0 and an empty, non-nil map. It satisfies the issued-keys invariant. |
| `Db.DataStore.AddDir` | config/db.go:47-53 | Requires a non-nil map and CurrentId below the int64 maximum. CurrentId grows by exactly one, and the returned key is its base-10 rendering. The key maps to the given entry and every other key keeps its value. When the issued-keys invariant held, the key was absent, the map grew by one and the invariant still holds. |
| `Db.LoadDataStore` | config/db.go:29-46 | A missing file gives a new store and no error. A read error or a decode failure gives an error and no store. Decoded content is taken without validation: an absent or null counter stays 0, an absent map stays empty, and a null map becomes nil. |
| `Db.TwoAddsFromFresh` | config/db.go:23-53 | From a new store, two additions return "1" then "2". They leave CurrentId 2 and exactly those two entries. |
| `Db.UnvalidatedLoadOverwrites` | config/db.go:29-53 | Suppose a registry file holds key "1" but no counter. It loads with CurrentId 0, and the next addition returns "1" and replaces that entry. |

## Left out

- Command wiring in `cmd/` and `main.go` is not part of this model. It covers the cobra commands, interactive prompts, running the editor and `man`, binary probes, the root check and printing. None of it holds state of its own.
- YAML and JSON encoding and decoding are foreign libraries. They are modelled as abstract `decode` functions that give per-key documents. Save is modelled as an outcome, so there is no round-trip through bytes.
- `saveConfig` and `DataStore.SaveData` (directory creation and file writing) are OS I/O. `LoadConfig` takes the save outcome as a parameter. `SaveData` is not modelled.
- `os.UserHomeDir`, `os.Getenv`, `os.Stat` and `os.ReadFile` are inputs: a `World` value, or parameters.
- `filepath.Join` clean-up is not modelled. `..`, repeated separators and an absolute override are not normalised. The `MMSYNC_CONF` value is a single path component.
- Warning message texts and the stderr output are not modelled. Warnings are kept as tagged values.
- Concurrency and file races are not modelled: the code is single-threaded and uses no locks.
- The design's configuration migration, its uniqueness checks in `AddDir` and its validate-and-replace on registry load are absent from the code. They are not part of this model.
- Db.DataStore.AddDir: the requires exclude two source behaviours. Go panics when writing to a nil map, which `LoadDataStore` yields for `"tracked_dirs": null`. Go also wraps `CurrentId += 1` around at the int64 maximum. The model promises nothing in either case.
- Path strings are sequences of non-empty components, with `""` as the empty sequence. A decoder that yields an empty component has no Go counterpart. Healing's emptiness tests look only for the empty sequence.
- `StrConv.ParseDecimal` is a model-only reference inverse. It is not `strconv.ParseInt`, which the code does not call.
