/**
 * The configuration file of mnemosync (config/config.go): where the
 * configuration and registry files live, the default schema, the ordered
 * repair rules that heal a loaded schema, and the load procedure that reads,
 * heals and, when something was repaired, saves the configuration.
 */
module Config {
  import opened Wrappers
  import opened FilePath
  import opened Os

  const AppVersion: string := "Version 0.0.1"
  /** `.config/mmsync`, the configuration directory below the home directory. */
  const ConfigDir: Path := [".config", "mmsync"]
  const ConfigFileName: string := "config.yaml"
  const DbFileName: string := "mmsync-state.json"
  const GitDirName: string := ".git"

  datatype ConfigSchema = ConfigSchema(
    configPath: Path,
    appVersion: string,
    isInit: bool,
    repoPath: Path,
    dbPath: Path)

  /** The document root; `healConfigSchema` updates its schema in place. */
  class MnemoConf {
    var configSchema: ConfigSchema

    constructor (schema: ConfigSchema)
      ensures configSchema == schema
    {
      configSchema := schema;
    }
  }

  // ---------------------------------------------------------------------
  // Path resolution

  /** A non-empty MMSYNC_CONF takes effect only when the home directory resolves. */
  predicate Overridden(home: HomeLookup, env: string) {
    home.HomeDir? && env != ""
  }

  /** `<home>/.config/mmsync`, or the relative `.config/mmsync` without a home. */
  function DefaultDir(home: HomeLookup): Path {
    match home
    case HomeDir(h) => h + ConfigDir
    case NoHome => ConfigDir
  }

  /** `ResolveConfigPath`, with the home lookup and MMSYNC_CONF as inputs. */
  function ResolveConfigPath(home: HomeLookup, env: string): (p: Path)
    ensures p != []
    ensures Overridden(home, env) ==> p == home.dir + [env]
    ensures !Overridden(home, env) ==> Parent(p) == DefaultDir(home) && Base(p) == ConfigFileName
  {
    match home
    case NoHome => ConfigDir + [ConfigFileName]
    case HomeDir(h) => if env != "" then h + [env] else h + ConfigDir + [ConfigFileName]
  }

  /** `ResolveDbPath`: the same branches, with the registry file name. */
  function ResolveDbPath(home: HomeLookup, env: string): (p: Path)
    ensures p != []
    ensures Overridden(home, env) ==> p == home.dir + [env]
    ensures !Overridden(home, env) ==> Parent(p) == DefaultDir(home) && Base(p) == DbFileName
  {
    match home
    case NoHome => ConfigDir + [DbFileName]
    case HomeDir(h) => if env != "" then h + [env] else h + ConfigDir + [DbFileName]
  }

  /** Both files always live in the same directory. */
  lemma ResolversShareParent(home: HomeLookup, env: string)
    ensures Parent(ResolveConfigPath(home, env)) == Parent(ResolveDbPath(home, env))
    ensures !Overridden(home, env) ==> Parent(ResolveConfigPath(home, env)) == DefaultDir(home)
  {
  }

  /**
   * The two resolvers agree exactly when the override is in effect: no file
   * name is appended to MMSYNC_CONF, so configuration and registry are then
   * the same file.
   */
  lemma ResolversCollideIffOverridden(home: HomeLookup, env: string)
    ensures ResolveConfigPath(home, env) == ResolveDbPath(home, env) <==> Overridden(home, env)
  {
    if !Overridden(home, env) {
      var c, d := ResolveConfigPath(home, env), ResolveDbPath(home, env);
      assert Base(c) != Base(d);
    }
  }

  // ---------------------------------------------------------------------
  // The default schema

  /** The schema `GetMnemoConf` builds. */
  function DefaultSchema(home: HomeLookup, env: string): (s: ConfigSchema)
    ensures s.appVersion == AppVersion && !s.isInit && s.repoPath == []
    ensures s.configPath == ResolveConfigPath(home, env)
    ensures s.dbPath == ResolveDbPath(home, env)
    ensures s.configPath != [] && s.dbPath != []
  {
    ConfigSchema(ResolveConfigPath(home, env), AppVersion, false, [], ResolveDbPath(home, env))
  }

  /** `GetMnemoConf`: a new document holding the default schema. */
  method GetMnemoConf(home: HomeLookup, env: string) returns (cfg: MnemoConf)
    ensures fresh(cfg)
    ensures cfg.configSchema == DefaultSchema(home, env)
  {
    cfg := new MnemoConf(DefaultSchema(home, env));
  }

  // ---------------------------------------------------------------------
  // `.git` probe

  /**
   * `GitDirExists`: whether `<path>/.git` exists as a directory; only a stat
   * failure other than "does not exist" is reported as an error.
   */
  function GitDirExists(path: Path, stat: Path -> StatResult): (r: (bool, Option<Errno>))
    ensures r.0 <==> stat(path + [GitDirName]) == Exists(true)
    ensures r.1.Some? <==> stat(path + [GitDirName]).StatFailed?
    ensures r.1.Some? ==> !r.0 && r.1.value == stat(path + [GitDirName]).errno
  {
    match stat(path + [GitDirName])
    case Exists(isDir) => (isDir, None)
    case Missing => (false, None)
    case StatFailed(e) => (false, Some(e))
  }

  // ---------------------------------------------------------------------
  // Healing

  datatype Field = AppVersionField | RepoPathField | DbPathField | ConfigPathField

  /** One warning per repair; the message text is not modelled. */
  datatype Warning = Replaced(field: Field) | UninitialisedReset

  datatype HealResult = HealResult(schema: ConfigSchema, warnings: seq<Warning>)

  /** The repository path is rejected when empty or when stat says it does not exist. */
  predicate RepoPathInvalid(p: Path, stat: Path -> StatResult) {
    p == [] || stat(p).Missing?
  }

  function IfWarn(cond: bool, w: Warning): seq<Warning> {
    if cond then [w] else []
  }

  /**
   * The healed schema and its warnings, field by field: the version is
   * always reset; an uninitialised schema has its repository and registry
   * paths reset with a single warning; an initialised one has each invalid
   * path replaced by its default.
   */
  function Heal(s: ConfigSchema, d: ConfigSchema, stat: Path -> StatResult): (h: HealResult)
    ensures h.schema.appVersion == d.appVersion
    ensures h.schema.isInit == s.isInit
    ensures |h.warnings| <= 4
  {
    var versionWarnings := IfWarn(s.appVersion != d.appVersion, Replaced(AppVersionField));
    if !s.isInit then
      HealResult(
        s.(appVersion := d.appVersion, repoPath := d.repoPath, dbPath := d.dbPath),
        versionWarnings + [UninitialisedReset])
    else
      var repoBad := RepoPathInvalid(s.repoPath, stat);
      var dbBad := s.dbPath == [];
      var configBad := s.configPath == [];
      HealResult(
        ConfigSchema(
          if configBad then d.configPath else s.configPath,
          d.appVersion,
          true,
          if repoBad then d.repoPath else s.repoPath,
          if dbBad then d.dbPath else s.dbPath),
        versionWarnings
        + IfWarn(repoBad, Replaced(RepoPathField))
        + IfWarn(dbBad, Replaced(DbPathField))
        + IfWarn(configBad, Replaced(ConfigPathField)))
  }

  /** How many times `w` occurs among the warnings. */
  function Count(ws: seq<Warning>, w: Warning): nat {
    multiset(ws)[w]
  }

  /** `healConfigSchema`: rewrites `loaded`'s schema in place and returns the warnings. */
  method HealConfigSchema(loaded: MnemoConf, defaults: MnemoConf, stat: Path -> StatResult)
    returns (warnings: seq<Warning>)
    modifies loaded
    ensures loaded.configSchema == Heal(old(loaded.configSchema), old(defaults.configSchema), stat).schema
    ensures warnings == Heal(old(loaded.configSchema), old(defaults.configSchema), stat).warnings
  {
    warnings := [];
    var d := defaults.configSchema;

    if loaded.configSchema.appVersion != d.appVersion {
      loaded.configSchema := loaded.configSchema.(appVersion := d.appVersion);
      warnings := warnings + [Replaced(AppVersionField)];
    }

    if !loaded.configSchema.isInit {
      warnings := warnings + [UninitialisedReset];
      loaded.configSchema := loaded.configSchema.(repoPath := d.repoPath);
      loaded.configSchema := loaded.configSchema.(dbPath := d.dbPath);
      return;
    }

    if loaded.configSchema.repoPath == [] {
      loaded.configSchema := loaded.configSchema.(repoPath := d.repoPath);
      warnings := warnings + [Replaced(RepoPathField)];
    } else if stat(loaded.configSchema.repoPath).Missing? {
      loaded.configSchema := loaded.configSchema.(repoPath := d.repoPath);
      warnings := warnings + [Replaced(RepoPathField)];
    }

    if loaded.configSchema.dbPath == [] {
      loaded.configSchema := loaded.configSchema.(dbPath := d.dbPath);
      warnings := warnings + [Replaced(DbPathField)];
    }

    if loaded.configSchema.configPath == [] {
      loaded.configSchema := loaded.configSchema.(configPath := d.configPath);
      warnings := warnings + [Replaced(ConfigPathField)];
    }
  }

  /** The version always ends equal to the default; it is reported only when it differed. */
  lemma HealSetsVersion(s: ConfigSchema, d: ConfigSchema, stat: Path -> StatResult)
    ensures Heal(s, d, stat).schema.appVersion == d.appVersion
    ensures Count(Heal(s, d, stat).warnings, Replaced(AppVersionField))
            == if s.appVersion != d.appVersion then 1 else 0
  {
  }

  /**
   * An uninitialised schema gets its repository and registry paths reset,
   * keeps its configuration path and IsInit, gets exactly one warning for
   * that, and no later rule applies.
   */
  lemma HealUninitialised(s: ConfigSchema, d: ConfigSchema, stat: Path -> StatResult)
    requires !s.isInit
    ensures var h := Heal(s, d, stat);
      && h.schema.repoPath == d.repoPath
      && h.schema.dbPath == d.dbPath
      && h.schema.configPath == s.configPath
      && !h.schema.isInit
      && Count(h.warnings, UninitialisedReset) == 1
      && Count(h.warnings, Replaced(RepoPathField)) == 0
      && Count(h.warnings, Replaced(DbPathField)) == 0
      && Count(h.warnings, Replaced(ConfigPathField)) == 0
  {
  }

  /**
   * An initialised schema stays initialised; its repository path ends as the
   * default or as a non-empty path that stat did not report missing; empty
   * registry and configuration paths are replaced by their defaults; each
   * replacement is reported exactly once.
   */
  lemma HealInitialised(s: ConfigSchema, d: ConfigSchema, stat: Path -> StatResult)
    requires s.isInit
    ensures var h := Heal(s, d, stat);
      && h.schema.isInit
      && (h.schema.repoPath == d.repoPath || !RepoPathInvalid(h.schema.repoPath, stat))
      && (RepoPathInvalid(s.repoPath, stat) ==> h.schema.repoPath == d.repoPath)
      && (!RepoPathInvalid(s.repoPath, stat) ==> h.schema.repoPath == s.repoPath)
      && h.schema.dbPath == (if s.dbPath == [] then d.dbPath else s.dbPath)
      && h.schema.configPath == (if s.configPath == [] then d.configPath else s.configPath)
      && Count(h.warnings, Replaced(RepoPathField)) == (if RepoPathInvalid(s.repoPath, stat) then 1 else 0)
      && Count(h.warnings, Replaced(DbPathField)) == (if s.dbPath == [] then 1 else 0)
      && Count(h.warnings, Replaced(ConfigPathField)) == (if s.configPath == [] then 1 else 0)
      && Count(h.warnings, UninitialisedReset) == 0
  {
  }

  /** With the default schema as `d`, healed registry and configuration paths are never empty. */
  lemma HealInitialisedPathsSet(s: ConfigSchema, home: HomeLookup, env: string, stat: Path -> StatResult)
    requires s.isInit
    ensures var h := Heal(s, DefaultSchema(home, env), stat);
      h.schema.dbPath != [] && h.schema.configPath != []
  {
  }

  /** Every repair is reported: no warnings means nothing changed. */
  lemma HealQuiet(s: ConfigSchema, d: ConfigSchema, stat: Path -> StatResult)
    ensures Heal(s, d, stat).warnings == [] ==> Heal(s, d, stat).schema == s
  {
  }

  /** Healing twice with the same stat leaves the fields as the first run left them. */
  lemma HealStable(s: ConfigSchema, d: ConfigSchema, stat: Path -> StatResult)
    ensures var h := Heal(s, d, stat);
      Heal(h.schema, d, stat).schema == h.schema
  {
  }

  /**
   * Against the default schema, a healed schema draws warnings again exactly
   * when it was uninitialised or its repository path was invalid (the empty
   * default repository path is itself invalid), so a load saves it again
   * every time in exactly those cases.
   */
  lemma HealRepeatsWarnings(s: ConfigSchema, home: HomeLookup, env: string, stat: Path -> StatResult)
    ensures var d := DefaultSchema(home, env);
      var h := Heal(s, d, stat);
      Heal(h.schema, d, stat).warnings != [] <==> (!s.isInit || RepoPathInvalid(s.repoPath, stat))
  {
  }

  // ---------------------------------------------------------------------
  // Loading

  /**
   * What the YAML decoder found under `config_schema`: a key that is absent
   * leaves the field it targets as it was.
   */
  datatype ConfigDocument = ConfigDocument(
    configPath: Option<Path>,
    appVersion: Option<string>,
    isInit: Option<bool>,
    repoPath: Option<Path>,
    dbPath: Option<Path>)

  /** `yaml.Unmarshal` into a schema already holding `base`. */
  function Overlay(base: ConfigSchema, doc: ConfigDocument): (s: ConfigSchema)
    ensures doc == ConfigDocument(None, None, None, None, None) ==> s == base
    ensures s.configPath == if doc.configPath.Some? then doc.configPath.value else base.configPath
    ensures s.appVersion == if doc.appVersion.Some? then doc.appVersion.value else base.appVersion
    ensures s.isInit == if doc.isInit.Some? then doc.isInit.value else base.isInit
    ensures s.repoPath == if doc.repoPath.Some? then doc.repoPath.value else base.repoPath
    ensures s.dbPath == if doc.dbPath.Some? then doc.dbPath.value else base.dbPath
  {
    ConfigSchema(
      doc.configPath.GetOr(base.configPath),
      doc.appVersion.GetOr(base.appVersion),
      doc.isInit.GetOr(base.isInit),
      doc.repoPath.GetOr(base.repoPath),
      doc.dbPath.GetOr(base.dbPath))
  }

  /** The document a save writes: every key present. */
  function FullDocument(s: ConfigSchema): (doc: ConfigDocument)
    ensures forall base :: Overlay(base, doc) == s
  {
    ConfigDocument(Some(s.configPath), Some(s.appVersion), Some(s.isInit), Some(s.repoPath), Some(s.dbPath))
  }

  /**
   * `LoadConfig`. `decode` stands for `yaml.Unmarshal` (None: the document
   * does not parse); `saveConfig` for `saveConfig` (false: it failed). The
   * out-parameter `saved` is the schema handed to `saveConfig`, if any.
   */
  method LoadConfig(w: World, decode: Bytes -> Option<ConfigDocument>, saveConfig: (ConfigSchema, Path) -> bool)
    returns (cfg: MnemoConf?, err: Option<LoadError>, saved: Option<ConfigSchema>)
    ensures cfg == null <==> err.Some?
    ensures cfg != null ==> fresh(cfg)
    ensures
      var path := ResolveConfigPath(w.home, w.mmsyncConf);
      var dflt := DefaultSchema(w.home, w.mmsyncConf);
      match w.readFile(path)
      case FileMissing =>
        cfg != null && cfg.configSchema == dflt && err == None && saved == None
      case ReadFailed(e) =>
        cfg == null && err == Some(ReadError(e)) && saved == None
      case FileData(data) =>
        match decode(data)
        case None =>
          cfg == null && err == Some(DecodeError) && saved == None
        case Some(doc) =>
          var h := Heal(Overlay(dflt, doc), dflt, w.stat);
          && saved == (if h.warnings == [] then None else Some(h.schema))
          && if h.warnings != [] && !saveConfig(h.schema, path) then
               cfg == null && err == Some(SaveError)
             else
               cfg != null && cfg.configSchema == h.schema && err == None
  {
    var configPath := ResolveConfigPath(w.home, w.mmsyncConf);
    var defaultCfg := GetMnemoConf(w.home, w.mmsyncConf);
    saved := None;

    match w.readFile(configPath) {
      case FileMissing =>
        cfg, err := defaultCfg, None;
      case ReadFailed(e) =>
        cfg, err := null, Some(ReadError(e));
      case FileData(data) =>
        var tempCfg := GetMnemoConf(w.home, w.mmsyncConf);
        match decode(data) {
          case None =>
            cfg, err := null, Some(DecodeError);
          case Some(doc) =>
            tempCfg.configSchema := Overlay(tempCfg.configSchema, doc);
            var warnings := HealConfigSchema(tempCfg, defaultCfg, w.stat);
            if |warnings| > 0 {
              saved := Some(tempCfg.configSchema);
              if !saveConfig(tempCfg.configSchema, configPath) {
                cfg, err := null, Some(SaveError);
                return;
              }
            }
            cfg, err := tempCfg, None;
        }
    }
  }

  /**
   * After a load that repaired and saved the schema, loading the saved
   * document again yields the same fields.
   */
  lemma ReloadKeepsHealedSchema(doc: ConfigDocument, home: HomeLookup, env: string, stat: Path -> StatResult)
    ensures var d := DefaultSchema(home, env);
      var h := Heal(Overlay(d, doc), d, stat);
      Heal(Overlay(d, FullDocument(h.schema)), d, stat).schema == h.schema
  {
    var d := DefaultSchema(home, env);
    HealStable(Overlay(d, doc), d, stat);
  }
}
