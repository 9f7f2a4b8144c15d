/**
 * How the root program moves settings between the session cfg and the
 * conversation file: applyFileSettingsAsDefaults fills cfg from the stored
 * settings of the current model without touching keys given on the command
 * line, and persistSettingsToFile stores the current model's cfg values back.
 *
 * Both look up the definition of cfg's model (AppliedDefaults, Persisted);
 * the lemmas take that definition as a parameter `def` and hold for every
 * definition, so in particular for the one GetModelDefinition returns.
 */
module RootSettings {
  import opened Wrappers
  import opened GoStrconv
  import opened Json
  import opened ModelNames
  import opened Models
  import opened ConfigMap
  import opened RootFile
  import opened ParamMaps

  /** defaultHistoryLimit: the history limit when none is configured. */
  const DefaultHistoryLimit := 40

  /** `cf.Settings.Models[modelName]`, or Default when the model has no entry. */
  function SettingsFor(s: TopLevelSettings, modelName: string): ModelSettings {
    if modelName in s.models then s.models[modelName] else s.default
  }

  /**
   * The cfg text for a stored value whose decoded type is the one the schema
   * declares: "%g" of a float, "%d" of a float truncated to int (JSON decodes
   * every number as a float64), a string as it is, FormatBool of a bool.
   */
  function StoredText(t: ParamType, v: JsonValue): Option<string> {
    match t
    case Float => if v.JNumber? then Some(FormatG(v.n)) else None
    case Int => if v.JNumber? then Some(Itoa(Trunc(v.n))) else None
    case String => if v.JString? then Some(v.s) else None
    case StringA => if v.JString? then Some(v.s) else None
    case Bool => if v.JBool? then Some(FormatBool(v.b)) else None
  }

  /** What the loop writes for parameter n: nothing if its cfg key is provided or nothing usable is stored. */
  function Load(n: ParamName, p: ModelParameter, settings: ModelSettings, provided: map<string, bool>): Option<string> {
    if IsProvided(provided, CfgKey(n)) || NameOf(n) !in settings then None
    else StoredText(p.ptype, settings[NameOf(n)])
  }

  function Loads(ps: map<ParamName, ModelParameter>, settings: ModelSettings, provided: map<string, bool>)
    : map<ParamName, string>
  {
    map n | n in ps && Load(n, ps[n], settings, provided).Some? :: Load(n, ps[n], settings, provided).value
  }

  /** The loop's writes for the parameters in done, under their upper-cased names. */
  function CfgWrites(loads: map<ParamName, string>, done: set<ParamName>): map<string, string> {
    CfgKeyIsInjective();
    Rekey(CfgKey, loads, done)
  }

  /** The global settings, each written unless provided; HISTORY_LIMIT only when the stored limit is non-zero. */
  function Globals(s: TopLevelSettings, provided: map<string, bool>): map<string, string> {
    var stream: map<string, string> :=
      if IsProvided(provided, "STREAM") then map[] else map["STREAM" := FormatBool(s.stream)];
    if !IsProvided(provided, "HISTORY_LIMIT") && s.historyLimit != 0 then stream["HISTORY_LIMIT" := Itoa(s.historyLimit)]
    else stream
  }

  /** The cfg applyFileSettingsAsDefaults leaves behind, for the definition def of cfg's model. */
  function AppliedDefaultsFor(def: ModelDefinition, cfg: map<string, string>, file: ConversationFile, provided: map<string, bool>)
    : map<string, string>
  {
    var settings := SettingsFor(file.settings, Get(cfg, "MODEL"));
    cfg + CfgWrites(Loads(def.parameters, settings, provided), def.parameters.Keys) + Globals(file.settings, provided)
  }

  function AppliedDefaults(cfg: map<string, string>, file: ConversationFile, provided: map<string, bool>): map<string, string> {
    AppliedDefaultsFor(GetModelDefinition(Get(cfg, "MODEL")), cfg, file, provided)
  }

  // ---------------------------------------------------------------------
  // The loop
  // ---------------------------------------------------------------------

  /** One iteration of the loop over the model's parameters. */
  method ApplyStoredParam(cfg: Cfg, key: ParamName, paramDef: ModelParameter, settings: ModelSettings, provided: map<string, bool>)
    modifies cfg
    ensures var l := Load(key, paramDef, settings, provided);
      cfg.entries == if l.Some? then old(cfg.entries)[CfgKey(key) := l.value] else old(cfg.entries)
  {
    var configKey := CfgKey(key);
    if !IsProvided(provided, configKey) {
      if NameOf(key) in settings {
        var value := settings[NameOf(key)];
        match paramDef.ptype {
          case Float =>
            if value.JNumber? {
              cfg.Put(configKey, FormatG(value.n));
            }
          case Int =>
            if value.JNumber? {
              cfg.Put(configKey, Itoa(Trunc(value.n)));
            }
          case String =>
            if value.JString? {
              cfg.Put(configKey, value.s);
            }
          case StringA =>
            if value.JString? {
              cfg.Put(configKey, value.s);
            }
          case Bool =>
            if value.JBool? {
              cfg.Put(configKey, FormatBool(value.b));
            }
        }
      }
    }
  }

  lemma LoadsAt(ps: map<ParamName, ModelParameter>, settings: ModelSettings, provided: map<string, bool>, n: ParamName)
    requires n in ps
    ensures var l := Load(n, ps[n], settings, provided);
      (n in Loads(ps, settings, provided) <==> l.Some?)
      && (l.Some? ==> Loads(ps, settings, provided)[n] == l.value)
  {
  }

  /** The loop over the model's parameters, visiting them in any order. */
  method ApplyStored(cfg: Cfg, ps: map<ParamName, ModelParameter>, settings: ModelSettings, provided: map<string, bool>)
    modifies cfg
    ensures cfg.entries == old(cfg.entries) + CfgWrites(Loads(ps, settings, provided), ps.Keys)
  {
    CfgKeyIsInjective();
    ghost var cfg0 := cfg.entries;
    ghost var loads := Loads(ps, settings, provided);
    var remaining := ps.Keys;
    RekeyEmpty(CfgKey, loads);
    while remaining != {}
      invariant remaining <= ps.Keys
      invariant cfg.entries == cfg0 + Rekey(CfgKey, loads, ps.Keys - remaining)
      decreases |remaining|
    {
      var key :| key in remaining;
      ghost var done := ps.Keys - remaining;
      ghost var before := cfg.entries;
      ApplyStoredParam(cfg, key, ps[key], settings, provided);
      LoadsAt(ps, settings, provided, key);
      RekeyStep(CfgKey, loads, done, key, cfg0, before, cfg.entries);
      assert ps.Keys - (remaining - {key}) == done + {key};
      remaining := remaining - {key};
    }
    assert ps.Keys - remaining == ps.Keys;
  }

  /**
   * applyFileSettingsAsDefaults, on the decoded file; None stands for a read
   * that failed, which returns an error and leaves cfg as it is.
   */
  method ApplyFileSettingsAsDefaults(cfg: Cfg, file: Option<ConversationFile>, provided: map<string, bool>) returns (ok: bool)
    modifies cfg
    ensures ok == file.Some?
    ensures cfg.entries == if file.None? then old(cfg.entries) else AppliedDefaults(old(cfg.entries), file.value, provided)
  {
    if file.None? {
      return false;
    }
    var cf := file.value;
    var modelName := cfg.Value("MODEL");
    var settings := SettingsFor(cf.settings, modelName);
    var modelDef := GetModelDefinition(modelName);
    ApplyStored(cfg, modelDef.parameters, settings, provided);
    ApplyGlobals(cfg, cf.settings, provided);
    return true;
  }

  /** The global settings, applied after the model's parameters. */
  method ApplyGlobals(cfg: Cfg, s: TopLevelSettings, provided: map<string, bool>)
    modifies cfg
    ensures cfg.entries == old(cfg.entries) + Globals(s, provided)
  {
    if !IsProvided(provided, "STREAM") {
      cfg.Put("STREAM", FormatBool(s.stream));
    }
    if !IsProvided(provided, "HISTORY_LIMIT") && s.historyLimit != 0 {
      cfg.Put("HISTORY_LIMIT", Itoa(s.historyLimit));
    }
  }

  // ---------------------------------------------------------------------
  // What applyFileSettingsAsDefaults promises
  // ---------------------------------------------------------------------

  /** No schema key is spelled STREAM or HISTORY_LIMIT, so the loop and the global settings never meet. */
  lemma CfgKeyNotGlobal(n: ParamName)
    ensures CfgKey(n) != "STREAM" && CfgKey(n) != "HISTORY_LIMIT"
  {
    assert |CfgKey(n)| == |NameOf(n)|;
  }

  /** A key marked in provided keeps its value, or stays absent. */
  lemma ProvidedNeverChanged(def: ModelDefinition, cfg: map<string, string>, file: ConversationFile,
                                provided: map<string, bool>, k: string)
    requires IsProvided(provided, k)
    ensures var r := AppliedDefaultsFor(def, cfg, file, provided);
      (k in r <==> k in cfg) && (k in cfg ==> r[k] == cfg[k])
  {
    var loads := Loads(def.parameters, SettingsFor(file.settings, Get(cfg, "MODEL")), provided);
    var writes := CfgWrites(loads, def.parameters.Keys);
    ProvidedNotLoaded(def.parameters, SettingsFor(file.settings, Get(cfg, "MODEL")), provided, k);
    ProvidedOver(cfg, writes, file.settings, provided, k);
  }

  /** The loop writes no provided key. */
  lemma ProvidedNotLoaded(ps: map<ParamName, ModelParameter>, settings: ModelSettings, provided: map<string, bool>, k: string)
    requires IsProvided(provided, k)
    ensures k !in CfgWrites(Loads(ps, settings, provided), ps.Keys)
  {
    var loads := Loads(ps, settings, provided);
    CfgKeyIsInjective();
    if k in CfgWrites(loads, ps.Keys) {
      RekeyKeys(CfgKey, loads, ps.Keys, k);
      assert false;
    }
  }

  lemma ProvidedOver(cfg: map<string, string>, writes: map<string, string>, s: TopLevelSettings,
                     provided: map<string, bool>, k: string)
    requires IsProvided(provided, k) && k !in writes
    ensures var r := cfg + writes + Globals(s, provided);
      (k in r <==> k in cfg) && (k in cfg ==> r[k] == cfg[k])
  {
  }

  /**
   * A schema parameter of cfg's model takes the value stored for it (the
   * model's entry, or Default when the model has none) when its key was not
   * provided and the stored value has the schema's type; otherwise its key
   * keeps its value, or stays absent.
   */
  lemma StoredParamApplied(def: ModelDefinition, cfg: map<string, string>, file: ConversationFile,
                              provided: map<string, bool>, n: ParamName)
    requires n in def.parameters
    ensures var settings := SettingsFor(file.settings, Get(cfg, "MODEL"));
      var l := Load(n, def.parameters[n], settings, provided);
      var r := AppliedDefaultsFor(def, cfg, file, provided);
      var k := CfgKey(n);
      (l.Some? ==> k in r && r[k] == l.value)
      && (l.None? ==> (k in r <==> k in cfg) && (k in cfg ==> r[k] == cfg[k]))
  {
    var settings := SettingsFor(file.settings, Get(cfg, "MODEL"));
    var loads := Loads(def.parameters, settings, provided);
    var writes := CfgWrites(loads, def.parameters.Keys);
    var globals := Globals(file.settings, provided);
    assert AppliedDefaultsFor(def, cfg, file, provided) == cfg + writes + globals;
    CfgKeyIsInjective();
    CfgKeyNotGlobal(n);
    assert CfgKey(n) !in globals;
    LoadsAt(def.parameters, settings, provided, n);
    RekeyAt(CfgKey, loads, def.parameters.Keys, n);
  }

  /** The dynamic types a decoded JSON value can have for each schema type. */
  predicate DecodedAs(t: ParamType, v: JsonValue) {
    if t == Float || t == Int then v.JNumber?
    else if t == String || t == StringA then v.JString?
    else v.JBool?
  }

  /** A stored value is copied only when its decoded type matches the schema type. */
  lemma StoredTextTyped(t: ParamType, v: JsonValue)
    ensures StoredText(t, v).Some? <==> DecodedAs(t, v)
  {
  }

  /** What is written to cfg reads back as the stored value: strings as they are, ints and bools by parsing. */
  lemma StoredTextReadsBack(t: ParamType, v: JsonValue)
    requires StoredText(t, v).Some?
    ensures (t == String || t == StringA) ==> StoredText(t, v).value == v.s
    ensures t == Bool ==> ParseBool(StoredText(t, v).value) == Some(v.b)
    ensures t == Int && InInt64(Trunc(v.n)) ==> Atoi(StoredText(t, v).value) == Some(Trunc(v.n))
  {
    if t == Int && InInt64(Trunc(v.n)) {
      AtoiItoa(Trunc(v.n));
    }
  }

  /** STREAM takes the stored flag unless provided; HISTORY_LIMIT the stored limit unless provided or 0. */
  lemma GlobalsApplied(def: ModelDefinition, cfg: map<string, string>, file: ConversationFile, provided: map<string, bool>)
    ensures var r := AppliedDefaultsFor(def, cfg, file, provided);
      var s := file.settings;
      (!IsProvided(provided, "STREAM") ==> "STREAM" in r && r["STREAM"] == FormatBool(s.stream))
      && (!IsProvided(provided, "HISTORY_LIMIT") && s.historyLimit != 0 ==> "HISTORY_LIMIT" in r && r["HISTORY_LIMIT"] == Itoa(s.historyLimit))
      && (s.historyLimit == 0 ==>
            ("HISTORY_LIMIT" in r <==> "HISTORY_LIMIT" in cfg)
            && ("HISTORY_LIMIT" in cfg ==> r["HISTORY_LIMIT"] == cfg["HISTORY_LIMIT"]))
  {
    var loads := Loads(def.parameters, SettingsFor(file.settings, Get(cfg, "MODEL")), provided);
    var writes := CfgWrites(loads, def.parameters.Keys);
    GlobalNotWritten(loads, def.parameters.Keys, "HISTORY_LIMIT");
    GlobalsOver(cfg, writes, file.settings, provided);
  }

  lemma GlobalsOver(cfg: map<string, string>, writes: map<string, string>, s: TopLevelSettings, provided: map<string, bool>)
    requires "HISTORY_LIMIT" !in writes
    ensures var r := cfg + writes + Globals(s, provided);
      (!IsProvided(provided, "STREAM") ==> "STREAM" in r && r["STREAM"] == FormatBool(s.stream))
      && (!IsProvided(provided, "HISTORY_LIMIT") && s.historyLimit != 0 ==> "HISTORY_LIMIT" in r && r["HISTORY_LIMIT"] == Itoa(s.historyLimit))
      && (s.historyLimit == 0 ==>
            ("HISTORY_LIMIT" in r <==> "HISTORY_LIMIT" in cfg)
            && ("HISTORY_LIMIT" in cfg ==> r["HISTORY_LIMIT"] == cfg["HISTORY_LIMIT"]))
  {
  }

  /** The loop never writes STREAM or HISTORY_LIMIT. */
  lemma GlobalNotWritten(loads: map<ParamName, string>, done: set<ParamName>, k: string)
    requires k == "STREAM" || k == "HISTORY_LIMIT"
    ensures k !in CfgWrites(loads, done)
  {
    CfgKeyIsInjective();
    if k in CfgWrites(loads, done) {
      RekeyKeys(CfgKey, loads, done, k);
      var n :| n in done && n in loads && CfgKey(n) == k;
      CfgKeyNotGlobal(n);
      assert false;
    }
  }

  // ---------------------------------------------------------------------
  // persistSettingsToFile
  // ---------------------------------------------------------------------

  /** What the loop stores for parameter n: cfg's value converted to the schema type, if cfg has one that converts. */
  function Persist(n: ParamName, p: ModelParameter, cfg: map<string, string>): Option<JsonValue> {
    if CfgKey(n) !in cfg then None
    else
      var valStr := cfg[CfgKey(n)];
      match p.ptype
      case Float => if ParseFloat(valStr).Some? then Some(JNumber(ParseFloat(valStr).value)) else None
      case Int => if Atoi(valStr).Some? then Some(JNumber(FromInt(Atoi(valStr).value))) else None
      case String => Some(JString(valStr))
      case StringA => Some(JString(valStr))
      case Bool => if ParseBool(valStr).Some? then Some(JBool(ParseBool(valStr).value)) else None
  }

  function Persists(ps: map<ParamName, ModelParameter>, cfg: map<string, string>): map<ParamName, JsonValue> {
    map n | n in ps && Persist(n, ps[n], cfg).Some? :: Persist(n, ps[n], cfg).value
  }

  /** The loop's writes for the parameters in done, under their schema names. */
  function SettingWrites(stored: map<ParamName, JsonValue>, done: set<ParamName>): ModelSettings {
    NameOfIsInjective();
    Rekey(NameOf, stored, done)
  }

  /** The file persistSettingsToFile writes, for the definition def of cfg's model. */
  function PersistedFor(def: ModelDefinition, cfg: map<string, string>, file: ConversationFile): ConversationFile {
    var modelName := Get(cfg, "MODEL");
    var current := if modelName in file.settings.models then file.settings.models[modelName] else map[];
    var updated := current + SettingWrites(Persists(def.parameters, cfg), def.parameters.Keys);
    file.(settings := file.settings.(
      models := file.settings.models[modelName := updated],
      stream := Get(cfg, "STREAM") == "true",
      historyLimit := AtoiOr(Get(cfg, "HISTORY_LIMIT"), DefaultHistoryLimit)))
  }

  function Persisted(cfg: map<string, string>, file: ConversationFile): ConversationFile {
    PersistedFor(GetModelDefinition(Get(cfg, "MODEL")), cfg, file)
  }

  /** One iteration of the loop over the model's parameters. */
  method PersistParam(modelSettings: ModelSettings, key: ParamName, paramDef: ModelParameter, cfg: map<string, string>)
    returns (out: ModelSettings)
    ensures var v := Persist(key, paramDef, cfg);
      out == if v.Some? then modelSettings[NameOf(key) := v.value] else modelSettings
  {
    var v: Option<JsonValue> := None;
    if CfgKey(key) in cfg {
      var valStr := cfg[CfgKey(key)];
      match paramDef.ptype {
        case Float =>
          var val := ParseFloat(valStr);
          if val.Some? {
            v := Some(JNumber(val.value));
          }
        case Int =>
          var val := Atoi(valStr);
          if val.Some? {
            v := Some(JNumber(FromInt(val.value)));
          }
        case String =>
          v := Some(JString(valStr));
        case StringA =>
          v := Some(JString(valStr));
        case Bool =>
          var val := ParseBool(valStr);
          if val.Some? {
            v := Some(JBool(val.value));
          }
      }
    }
    assert v == Persist(key, paramDef, cfg);
    out := modelSettings;
    if v.Some? {
      out := out[NameOf(key) := v.value];
    }
  }

  lemma PersistsAt(ps: map<ParamName, ModelParameter>, cfg: map<string, string>, n: ParamName)
    requires n in ps
    ensures var v := Persist(n, ps[n], cfg);
      (n in Persists(ps, cfg) <==> v.Some?) && (v.Some? ==> Persists(ps, cfg)[n] == v.value)
  {
  }

  /** One iteration of PersistParams keeps its invariant. */
  lemma PersistStep(ps: map<ParamName, ModelParameter>, cfg: map<string, string>, current: ModelSettings,
                    remaining: set<ParamName>, key: ParamName, before: ModelSettings, after: ModelSettings)
    requires key in remaining && remaining <= ps.Keys
    requires before == current + SettingWrites(Persists(ps, cfg), ps.Keys - remaining)
    requires var v := Persist(key, ps[key], cfg); after == if v.Some? then before[NameOf(key) := v.value] else before
    ensures after == current + SettingWrites(Persists(ps, cfg), ps.Keys - (remaining - {key}))
  {
    NameOfIsInjective();
    var done := ps.Keys - remaining;
    PersistsAt(ps, cfg, key);
    RekeyStep(NameOf, Persists(ps, cfg), done, key, current, before, after);
    assert ps.Keys - (remaining - {key}) == done + {key};
  }

  /** The loop over the model's parameters, visiting them in any order. */
  method PersistParams(current: ModelSettings, ps: map<ParamName, ModelParameter>, cfg: map<string, string>)
    returns (modelSettings: ModelSettings)
    ensures modelSettings == current + SettingWrites(Persists(ps, cfg), ps.Keys)
  {
    NameOfIsInjective();
    ghost var stored := Persists(ps, cfg);
    modelSettings := current;
    var remaining := ps.Keys;
    RekeyEmpty(NameOf, stored);
    while remaining != {}
      invariant remaining <= ps.Keys
      invariant modelSettings == current + SettingWrites(stored, ps.Keys - remaining)
      decreases |remaining|
    {
      var key :| key in remaining;
      ghost var before := modelSettings;
      modelSettings := PersistParam(modelSettings, key, ps[key], cfg);
      PersistStep(ps, cfg, current, remaining, key, before, modelSettings);
      remaining := remaining - {key};
    }
    assert ps.Keys - remaining == ps.Keys;
  }

  /**
   * persistSettingsToFile, on the decoded file: None stands for a read that
   * failed, which returns an error and writes nothing; otherwise the file to
   * write.
   */
  method PersistSettingsToFile(file: Option<ConversationFile>, cfg: map<string, string>)
    returns (written: Option<ConversationFile>)
    ensures written.None? <==> file.None?
    ensures written.Some? ==> written.value == Persisted(cfg, file.value)
  {
    if file.None? {
      return None;
    }
    var cf := file.value;
    var modelName := Get(cfg, "MODEL");
    var modelDef := GetModelDefinition(modelName);
    var modelSettings: ModelSettings;
    if modelName in cf.settings.models {
      modelSettings := cf.settings.models[modelName];
    } else {
      modelSettings := map[];
    }
    modelSettings := PersistParams(modelSettings, modelDef.parameters, cfg);
    var settings := cf.settings.(models := cf.settings.models[modelName := modelSettings]);
    settings := settings.(stream := Get(cfg, "STREAM") == "true");
    settings := settings.(historyLimit := AtoiOr(Get(cfg, "HISTORY_LIMIT"), DefaultHistoryLimit));
    return Some(cf.(settings := settings));
  }

  // ---------------------------------------------------------------------
  // What persistSettingsToFile promises
  // ---------------------------------------------------------------------

  /** Only the current model's entry and the global settings change; System, Messages and Default stay. */
  lemma PersistOnlyCurrentModel(def: ModelDefinition, cfg: map<string, string>, file: ConversationFile, m: string)
    requires m != Get(cfg, "MODEL")
    ensures var r := PersistedFor(def, cfg, file);
      r.system == file.system && r.messages == file.messages && r.settings.default == file.settings.default
      && Get(cfg, "MODEL") in r.settings.models
      && (m in r.settings.models <==> m in file.settings.models)
      && (m in file.settings.models ==> r.settings.models[m] == file.settings.models[m])
  {
  }

  /**
   * Within the current model's entry, a schema parameter takes cfg's value
   * when cfg has one that converts to the schema type, and otherwise keeps
   * what was stored.
   */
  lemma PersistedParam(def: ModelDefinition, cfg: map<string, string>, file: ConversationFile, n: ParamName)
    requires n in def.parameters
    ensures var modelName := Get(cfg, "MODEL");
      var before := if modelName in file.settings.models then file.settings.models[modelName] else map[];
      var after := PersistedFor(def, cfg, file).settings.models[modelName];
      var v := Persist(n, def.parameters[n], cfg);
      var key := NameOf(n);
      (v.Some? ==> key in after && after[key] == v.value)
      && (v.None? ==> (key in after <==> key in before) && (key in before ==> after[key] == before[key]))
  {
    var stored := Persists(def.parameters, cfg);
    NameOfIsInjective();
    PersistsAt(def.parameters, cfg, n);
    RekeyAt(NameOf, stored, def.parameters.Keys, n);
  }

  /** Names outside the schema keep what was stored in the current model's entry. */
  lemma PersistedOtherKey(def: ModelDefinition, cfg: map<string, string>, file: ConversationFile, key: string)
    requires forall n | n in def.parameters :: NameOf(n) != key
    ensures var modelName := Get(cfg, "MODEL");
      var before := if modelName in file.settings.models then file.settings.models[modelName] else map[];
      var after := PersistedFor(def, cfg, file).settings.models[modelName];
      (key in after <==> key in before) && (key in before ==> after[key] == before[key])
  {
    var stored := Persists(def.parameters, cfg);
    NameOfIsInjective();
    if key in SettingWrites(stored, def.parameters.Keys) {
      RekeyKeys(NameOf, stored, def.parameters.Keys, key);
      assert false;
    }
  }

  /**
   * Persisting and then applying the file as defaults, with the same model
   * and nothing provided, gives every string parameter cfg had its value back,
   * and every bool and int parameter the canonical spelling of the value it
   * parsed to (which parses back to that value: FormatBool, AtoiItoa).
   */
  lemma PersistThenApply(def: ModelDefinition, cfg: map<string, string>, file: ConversationFile,
                         next: map<string, string>, n: ParamName)
    requires Get(next, "MODEL") == Get(cfg, "MODEL")
    requires n in def.parameters && CfgKey(n) in cfg
    ensures var r := AppliedDefaultsFor(def, next, PersistedFor(def, cfg, file), map[]);
      var t := def.parameters[n].ptype;
      var s := cfg[CfgKey(n)];
      ((t == String || t == StringA) ==> CfgKey(n) in r && r[CfgKey(n)] == s)
      && (t == Bool && ParseBool(s).Some? ==> CfgKey(n) in r && r[CfgKey(n)] == FormatBool(ParseBool(s).value))
      && (t == Int && Atoi(s).Some? ==> CfgKey(n) in r && r[CfgKey(n)] == Itoa(Atoi(s).value))
  {
    var t := def.parameters[n].ptype;
    var s := cfg[CfgKey(n)];
    var v := Persist(n, def.parameters[n], cfg);
    if v.Some? {
      AppliedAfterPersist(def, cfg, file, next, n);
      if t == Int {
        assert v.value == JNumber(FromInt(Atoi(s).value));
        assert Trunc(FromInt(Atoi(s).value)) == Atoi(s).value;
      }
    }
  }

  /** The value applied for a parameter that was persisted is StoredText of what was persisted. */
  lemma AppliedAfterPersist(def: ModelDefinition, cfg: map<string, string>, file: ConversationFile,
                            next: map<string, string>, n: ParamName)
    requires Get(next, "MODEL") == Get(cfg, "MODEL")
    requires n in def.parameters && Persist(n, def.parameters[n], cfg).Some?
    ensures var r := AppliedDefaultsFor(def, next, PersistedFor(def, cfg, file), map[]);
      var l := StoredText(def.parameters[n].ptype, Persist(n, def.parameters[n], cfg).value);
      l.Some? && CfgKey(n) in r && r[CfgKey(n)] == l.value
  {
    PersistedParam(def, cfg, file, n);
    AppliedFromEntry(def, next, PersistedFor(def, cfg, file), n, Persist(n, def.parameters[n], cfg).value);
  }

  /** With nothing provided, a parameter whose model entry holds v of the schema's type is applied as StoredText of v. */
  lemma AppliedFromEntry(def: ModelDefinition, cfg: map<string, string>, file: ConversationFile, n: ParamName, v: JsonValue)
    requires n in def.parameters
    requires Get(cfg, "MODEL") in file.settings.models
    requires NameOf(n) in file.settings.models[Get(cfg, "MODEL")]
    requires file.settings.models[Get(cfg, "MODEL")][NameOf(n)] == v
    requires DecodedAs(def.parameters[n].ptype, v)
    ensures var r := AppliedDefaultsFor(def, cfg, file, map[]);
      var l := StoredText(def.parameters[n].ptype, v);
      l.Some? && CfgKey(n) in r && r[CfgKey(n)] == l.value
  {
    StoredParamApplied(def, cfg, file, map[], n);
  }

  /** Persisting and then applying with STREAM not provided gives STREAM "true" if it was "true", else "false". */
  lemma PersistThenApplyStream(def: ModelDefinition, cfg: map<string, string>, file: ConversationFile, next: map<string, string>)
    ensures var r := AppliedDefaultsFor(def, next, PersistedFor(def, cfg, file), map[]);
      "STREAM" in r && r["STREAM"] == FormatBool(Get(cfg, "STREAM") == "true")
  {
    GlobalsApplied(def, next, PersistedFor(def, cfg, file), map[]);
  }
}
