/**
 * The root program's interactive commands (main.go): validateParameter, the
 * `/<parameter> <value>` and `/<parameter> unset` commands, and the dispatch
 * of one typed line in handleInteractiveInput.
 *
 * Messages printed to the terminal are not modelled. The index /randomodel
 * draws, the contents of the file /persist-system reads and the
 * reasoning-block filter of the export commands are parameters. /history,
 * /save, /help and /modelinfo only read or print, and are reported as an
 * outcome.
 */
module RootInteractive {
  import opened Wrappers
  import opened GoText
  import opened GoStrconv
  import opened ModelNames
  import opened Models
  import opened ConfigMap
  import opened RootFile
  import opened RootSettings
  import opened RootStore
  import opened Export
  import opened RootExport

  // ---------------------------------------------------------------------
  // validateParameter
  // ---------------------------------------------------------------------

  /** Why validateParameter rejects a value. */
  datatype ParamError =
    | InvalidStream(value: string)
    | InvalidHistoryLimit(value: string)
    | UnknownParameter(name: string)
    | InvalidFloat(value: string)
    | InvalidInteger(value: string)
    | OutOfRange(min: real, max: real)
    | NotAnOption(options: seq<string>)
    | InvalidBoolean(value: string)

  /** `modelDef.Parameters[name]`: the parameter def declares under that name, if any. */
  function Lookup(def: ModelDefinition, name: string): (r: Option<ModelParameter>)
    ensures r.None? ==> forall n | n in def.parameters :: NameOf(n) != name
    ensures r.Some? ==> exists n | n in def.parameters :: NameOf(n) == name && r.value == def.parameters[n]
  {
    match ParamNamed(name)
    case None => None
    case Some(n) =>
      if n in def.parameters then Some(def.parameters[n])
      else
        NamedOnly(n, name);
        None
  }

  /** A name denotes at most one parameter. */
  lemma NamedOnly(n: ParamName, name: string)
    requires NameOf(n) == name
    ensures forall m: ParamName :: NameOf(m) == name ==> m == n
  {
    forall m: ParamName | NameOf(m) == name ensures m == n {
      NameOfInjective(m, n);
    }
  }

  /** A declared parameter is found under its own name. */
  lemma LookupOfName(def: ModelDefinition, n: ParamName)
    ensures Lookup(def, NameOf(n)) == if n in def.parameters then Some(def.parameters[n]) else None
  {
    ParamNamedOfName(n);
  }

  /** A numeric range is checked only when Min or Max is set. */
  predicate Ranged(p: ModelParameter) {
    p.min != 0.0 || p.max != 0.0
  }

  /** The range check a numeric value passes. */
  predicate InRange(p: ModelParameter, v: real) {
    !Ranged(p) || (p.min <= v && v <= p.max)
  }

  /** The check of a value against a declared parameter's type, range and options. */
  function ValueError(p: ModelParameter, value: string): Option<ParamError> {
    match p.ptype
    case Float =>
      (match ParseFloat(value)
       case None => Some(InvalidFloat(value))
       case Some(v) => if InRange(p, Value(v)) then None else Some(OutOfRange(p.min, p.max)))
    case Int =>
      (match Atoi(value)
       case None => Some(InvalidInteger(value))
       case Some(v) => if InRange(p, v as real) then None else Some(OutOfRange(p.min, p.max)))
    case String => if |p.options| > 0 && value !in p.options then Some(NotAnOption(p.options)) else None
    case Bool => if ParseBool(value).None? then Some(InvalidBoolean(value)) else None
    case StringA => None
  }

  /**
   * What validateParameter returns: the check of a declared parameter, or,
   * for a name def does not declare, the checks of the two global settings
   * stream and history_limit; any other name is unknown.
   */
  function ParameterError(paramName: string, value: string, def: ModelDefinition): Option<ParamError> {
    match Lookup(def, paramName)
    case Some(p) => ValueError(p, value)
    case None =>
      if paramName == "stream" then
        if ParseBool(value).None? then Some(InvalidStream(value)) else None
      else if paramName == "history_limit" then
        if Atoi(value).None? || Atoi(value).value < 0 then Some(InvalidHistoryLimit(value)) else None
      else Some(UnknownParameter(paramName))
  }

  /** The linear search of a list of strings, as the option check and the models list check make it. */
  method Contains(xs: seq<string>, x: string) returns (found: bool)
    ensures found <==> x in xs
  {
    found := false;
    for i := 0 to |xs|
      invariant x !in xs[..i]
    {
      if xs[i] == x {
        found := true;
        break;
      }
    }
    if !found {
      assert xs[..|xs|] == xs;
    }
  }

  method ValidateParameter(paramName: string, value: string, def: ModelDefinition) returns (err: Option<ParamError>)
    ensures err == ParameterError(paramName, value, def)
  {
    var param := Lookup(def, paramName);
    if param.None? {
      if paramName == "stream" {
        if ParseBool(value).None? {
          return Some(InvalidStream(value));
        }
        return None;
      }
      if paramName == "history_limit" {
        var v := Atoi(value);
        if v.None? || v.value < 0 {
          return Some(InvalidHistoryLimit(value));
        }
        return None;
      }
      return Some(UnknownParameter(paramName));
    }
    var p := param.value;
    match p.ptype {
      case Float =>
        var v := ParseFloat(value);
        if v.None? {
          return Some(InvalidFloat(value));
        }
        if (p.min != 0.0 || p.max != 0.0) && (Value(v.value) < p.min || Value(v.value) > p.max) {
          return Some(OutOfRange(p.min, p.max));
        }
      case Int =>
        var v := Atoi(value);
        if v.None? {
          return Some(InvalidInteger(value));
        }
        if (p.min != 0.0 || p.max != 0.0) && (v.value as real < p.min || v.value as real > p.max) {
          return Some(OutOfRange(p.min, p.max));
        }
      case String =>
        if |p.options| > 0 {
          var found := Contains(p.options, value);
          if !found {
            return Some(NotAnOption(p.options));
          }
        }
      case Bool =>
        if ParseBool(value).None? {
          return Some(InvalidBoolean(value));
        }
      case StringA =>
    }
    return None;
  }

  /** stream is no parameter of any model: it accepts exactly what ParseBool accepts. */
  lemma StreamAccepted(value: string, def: ModelDefinition)
    ensures ParameterError("stream", value, def).None? <==> ParseBool(value).Some?
  {
    assert ParamNamed("stream").None?;
  }

  /** history_limit accepts exactly the int64 numerals of non-negative values. */
  lemma HistoryLimitAccepted(value: string, def: ModelDefinition)
    ensures ParameterError("history_limit", value, def).None? <==> Atoi(value).Some? && Atoi(value).value >= 0
  {
    assert ParamNamed("history_limit").None?;
  }

  /** A name that is neither declared nor global is rejected, whatever the value. */
  lemma UnknownRejected(name: string, value: string, def: ModelDefinition)
    requires forall n | n in def.parameters :: NameOf(n) != name
    requires name != "stream" && name != "history_limit"
    ensures ParameterError(name, value, def) == Some(UnknownParameter(name))
  {
  }

  /** A String parameter with options accepts exactly its options. */
  lemma OptionsAccepted(def: ModelDefinition, n: ParamName, value: string)
    requires n in def.parameters && def.parameters[n].ptype == String && |def.parameters[n].options| > 0
    ensures ParameterError(NameOf(n), value, def).None? <==> value in def.parameters[n].options
  {
    LookupOfName(def, n);
  }

  /** A StringA parameter (stop) accepts every value. */
  lemma StringListAcceptsAll(def: ModelDefinition, n: ParamName, value: string)
    requires n in def.parameters && def.parameters[n].ptype == StringA
    ensures ParameterError(NameOf(n), value, def).None?
  {
    LookupOfName(def, n);
  }

  /**
   * The range check reads Max = 0 as an upper bound, so max_tokens, declared
   * with Min 1 and no Max by seed-oss, nemotron super and the "others" row,
   * rejects every value for those models.
   */
  lemma MaxTokensNeverAccepted(id: ModelId, value: string)
    requires id == SeedOss36b || id == NemotronSuper49b || id == Others
    ensures ParameterError("max_tokens", value, Definition(id)).Some?
  {
    MaxTokensBounds(id);
    LookupOfName(Definition(id), MaxTokens);
  }

  /** Every other model accepts max_tokens exactly for an integer between 1 and its Max. */
  lemma MaxTokensAccepted(id: ModelId, value: string)
    requires id != SeedOss36b && id != NemotronSuper49b && id != Others
    ensures var p := Definition(id).parameters[MaxTokens];
      ParameterError("max_tokens", value, Definition(id)).None? <==>
        Atoi(value).Some? && 1.0 <= Atoi(value).value as real <= p.max
  {
    MaxTokensBounds(id);
    LookupOfName(Definition(id), MaxTokens);
  }

  // ---------------------------------------------------------------------
  // /<parameter> <value> and /<parameter> unset
  // ---------------------------------------------------------------------

  /** Whether the dynamic branch takes a command: a parameter of def, stream or history_limit. */
  predicate IsSetting(commandName: string, def: ModelDefinition) {
    Lookup(def, commandName).Some? || commandName == "stream" || commandName == "history_limit"
  }

  /** The text unset writes for a default: "%g" of a float64, "%v" of anything else. */
  function DefaultText(v: DefaultValue): string {
    match v
    case DFloat(f) => FormatG(f)
    case DInt(i) => Itoa(i)
    case DString(s) => s
    case DBool(b) => FormatBool(b)
    case DNil => "<nil>"
  }

  /**
   * The configuration after `/<name> <value>` or `/<name> unset`; None when
   * the name is no setting of def, so that the line goes on as a prompt.
   * A value that fails validation leaves the configuration as it was.
   */
  function SettingCommand(entries: map<string, string>, commandName: string, parts: seq<string>, def: ModelDefinition)
    : Option<map<string, string>>
    requires |parts| >= 1
  {
    var param := Lookup(def, commandName);
    if param.None? && commandName != "stream" && commandName != "history_limit" then None
    else if |parts| < 2 then Some(entries)
    else if parts[1] == "unset" then
      Some(if param.Some? then entries[ToUpper(commandName) := DefaultText(param.value.default)]
           else if commandName == "stream" then entries["STREAM" := FormatBool(true)]
           else entries["HISTORY_LIMIT" := Itoa(DefaultHistoryLimit)])
    else if ParameterError(commandName, parts[1], def).Some? then Some(entries)
    else Some(entries[ToUpper(commandName) := parts[1]])
  }

  /** The dynamic branch of handleInteractiveInput; false when it does not take the command. */
  method SetParameter(cfg: Cfg, commandName: string, parts: seq<string>, def: ModelDefinition) returns (handled: bool)
    requires |parts| >= 1
    modifies cfg
    ensures handled == SettingCommand(old(cfg.entries), commandName, parts, def).Some?
    ensures cfg.entries == SettingCommand(old(cfg.entries), commandName, parts, def).GetOr(old(cfg.entries))
  {
    var param := Lookup(def, commandName);
    if param.None? && commandName != "stream" && commandName != "history_limit" {
      return false;
    }
    if |parts| < 2 {
      return true;
    }
    var value := parts[1];
    var configKey := ToUpper(commandName);
    if value == "unset" {
      if param.None? {
        if commandName == "stream" {
          cfg.Put("STREAM", FormatBool(true));
        } else if commandName == "history_limit" {
          cfg.Put("HISTORY_LIMIT", Itoa(DefaultHistoryLimit));
        }
      } else {
        cfg.Put(configKey, DefaultText(param.value.default));
      }
      return true;
    }
    var err := ValidateParameter(commandName, value, def);
    if err.Some? {
      return true;
    }
    cfg.Put(configKey, value);
    return true;
  }

  /** The keys the global settings are stored under. */
  lemma GlobalKeys()
    ensures ToUpper("stream") == "STREAM"
    ensures ToUpper("history_limit") == "HISTORY_LIMIT"
  {
    UpperSpelled("stream", "STREAM");
    UpperSpelled("history_limit", "HISTORY_LIMIT");
  }

  /** A setting command changes at most the key of the named setting. */
  lemma SettingTouchesOwnKey(entries: map<string, string>, commandName: string, parts: seq<string>,
                             def: ModelDefinition, k: string)
    requires |parts| >= 1
    requires k != ToUpper(commandName)
    ensures var m := SettingCommand(entries, commandName, parts, def).GetOr(entries);
      (k in m <==> k in entries) && (k in m ==> m[k] == entries[k])
  {
    GlobalKeys();
  }

  /** A value is stored exactly when validateParameter accepts it. */
  lemma SetStoresOnlyValid(entries: map<string, string>, commandName: string, parts: seq<string>, def: ModelDefinition)
    requires |parts| >= 2 && parts[1] != "unset" && IsSetting(commandName, def)
    ensures var m := SettingCommand(entries, commandName, parts, def);
      m.Some? &&
      (ParameterError(commandName, parts[1], def).None? ==> m.value == entries[ToUpper(commandName) := parts[1]]) &&
      (ParameterError(commandName, parts[1], def).Some? ==> m.value == entries)
  {
  }

  /** unset of a declared parameter stores its default's text under the parameter's key. */
  lemma UnsetStoresDefault(entries: map<string, string>, n: ParamName, parts: seq<string>, def: ModelDefinition)
    requires n in def.parameters && |parts| >= 2 && parts[1] == "unset"
    ensures SettingCommand(entries, NameOf(n), parts, def) ==
      Some(entries[CfgKey(n) := DefaultText(def.parameters[n].default)])
  {
    LookupOfName(def, n);
  }

  /** unset of stream and history_limit stores "true" and "40", values a set would accept. */
  lemma UnsetGlobalsValid(entries: map<string, string>, parts: seq<string>, def: ModelDefinition)
    requires |parts| >= 2 && parts[1] == "unset"
    ensures var m := SettingCommand(entries, "stream", parts, def).value;
      m == entries["STREAM" := "true"] && ParameterError("stream", m["STREAM"], def).None?
    ensures var m := SettingCommand(entries, "history_limit", parts, def).value;
      m == entries["HISTORY_LIMIT" := Itoa(DefaultHistoryLimit)]
      && ParameterError("history_limit", m["HISTORY_LIMIT"], def).None?
  {
    StreamAccepted("true", def);
    HistoryLimitAccepted(Itoa(DefaultHistoryLimit), def);
    AtoiItoa(DefaultHistoryLimit);
  }

  /** An int default within its declared range is written by unset as a value the check accepts again. */
  lemma UnsetIntDefaultValid(p: ModelParameter, i: int)
    requires p.ptype == Int && p.default == DInt(i) && InInt64(i) && InRange(p, i as real)
    ensures ValueError(p, DefaultText(p.default)).None?
  {
    AtoiItoa(i);
  }

  /** deepseek-v3.1's seed defaults to nil, so unset stores "<nil>", which a set would reject. */
  lemma UnsetNilSeedRejected(entries: map<string, string>, parts: seq<string>)
    requires |parts| >= 2 && parts[1] == "unset"
    ensures var def := Definition(DeepseekV31);
      SettingCommand(entries, "seed", parts, def) == Some(entries[CfgKey(Seed) := "<nil>"])
      && ParameterError("seed", "<nil>", def).Some?
  {
    var def := Definition(DeepseekV31);
    DeepseekDeclaresSeed();
    UnsetStoresDefault(entries, Seed, parts, def);
    LookupOfName(def, Seed);
    assert !AllDigits("<nil>") by { assert !IsDigit("<nil>"[0]); }
  }

  // ---------------------------------------------------------------------
  // handleInteractiveInput
  // ---------------------------------------------------------------------

  /** The commands handleInteractiveInput recognises by name before the parameter commands. */
  datatype Builtin =
    | Exit | History | Clear | Save | PersistSystem | PersistSettings
    | ExportLast | ExportN | ExportLastN | RandomModel | Help | SwitchModel | ModelInfo

  /** The static command a name denotes (lengths compared first). */
  function BuiltinNamed(name: string): Option<Builtin> {
    if |name| == 4 then
      if name == "exit" || name == "quit" then Some(Exit)
      else if name == "save" then Some(Save)
      else if name == "help" then Some(Help)
      else None
    else if |name| == 5 then
      if name == "clear" then Some(Clear)
      else if name == "model" then Some(SwitchModel)
      else None
    else if |name| == 7 then
      if name == "history" then Some(History)
      else if name == "exportn" then Some(ExportN)
      else None
    else if |name| == 9 then
      if name == "modelinfo" then Some(ModelInfo) else None
    else if |name| == 10 then
      if name == "exportlast" then Some(ExportLast)
      else if name == "randomodel" then Some(RandomModel)
      else None
    else if |name| == 11 then
      if name == "exportlastn" then Some(ExportLastN) else None
    else if |name| == 14 then
      if name == "persist-system" then Some(PersistSystem) else None
    else if |name| == 16 then
      if name == "persist-settings" then Some(PersistSettings) else None
    else None
  }

  /** No static command hides a parameter or a global setting. */
  lemma NoBuiltinShadowsSetting(n: ParamName)
    ensures BuiltinNamed(NameOf(n)).None?
    ensures BuiltinNamed("stream").None? && BuiltinNamed("history_limit").None?
  {
  }

  /** modelsList: the table's model names in table order, without "others". */
  function ModelsList(): (r: seq<string>)
    ensures |r| == |AllModels()| - 1
    ensures forall i | 0 <= i < |r| :: r[i] == ModelName(AllModels()[i])
  {
    seq(|AllModels()| - 1, i requires 0 <= i < |AllModels()| - 1 => ModelName(AllModels()[i]))
  }

  /** The list names exactly the models the table defines, "others" excepted. */
  lemma ModelsListExactly(name: string)
    ensures name in ModelsList() <==> FindModel(name).Some? && FindModel(name).value != Others
  {
    var ms := AllModels();
    if name in ModelsList() {
      var i :| 0 <= i < |ModelsList()| && ModelsList()[i] == name;
      FindModelOfKey(ms[i]);
    }
    if FindModel(name).Some? && FindModel(name).value != Others {
      var id := FindModel(name).value;
      AllModelsComplete(id);
      var i :| 0 <= i < |ms| && ms[i] == id;
      assert ModelsList()[i] == name;
    }
  }

  /** A typed line that starts with a command: the name after "/" and all the words. */
  datatype Line = Line(commandName: string, parts: seq<string>)

  /** The words of the line and the command they start with, if they start with "/". */
  function ParseLine(userInput: string): (r: Option<Line>)
    ensures r.Some? ==> |r.value.parts| >= 1 && r.value.parts[0] == "/" + r.value.commandName
    ensures AllSpace(userInput) ==> r.None?
  {
    var parts := Fields(TrimSpace(userInput));
    if parts == [] || !HasPrefix(parts[0], "/") then None
    else Some(Line(TrimPrefix(parts[0], "/"), parts))
  }

  /**
   * A line is a command exactly when its first word starts with "/", and the
   * command then carries all the words of the trimmed line.
   */
  lemma ParseLineWords(userInput: string)
    ensures var words := Fields(TrimSpace(userInput));
      (ParseLine(userInput).None? <==> words == [] || !HasPrefix(words[0], "/"))
      && (ParseLine(userInput).Some? ==> ParseLine(userInput).value.parts == words)
  {}

  /** What handling a line amounts to besides its effect on the configuration and the file. */
  datatype Outcome =
    | NotACommand                       // false: the line is sent as a prompt
    | Quit                              // os.Exit(0)
    | Handled                           // true, with at most a message printed
    | PrintHistory                      // the file at the conversation path is printed
    | CopyTo(path: string)              // the conversation file is copied to path
    | WriteExport(target: string, result: ExportResult)
    | ShowModelInfo(id: ModelId)

  function ExportOutcome(r: Option<(string, ExportResult)>): Outcome {
    if r.None? then Handled else WriteExport(r.value.0, r.value.1)
  }

  /** The configuration after a command line (pick: the index /randomodel draws). */
  function CfgAfter(entries: map<string, string>, line: Line, pick: nat): map<string, string>
    requires |line.parts| >= 1 && pick < |ModelsList()|
  {
    match BuiltinNamed(line.commandName)
    case Some(RandomModel) => entries["MODEL" := ModelsList()[pick]]
    case Some(SwitchModel) =>
      if |line.parts| >= 2 && (FindModel(line.parts[1]).Some? || line.parts[1] in ModelsList())
      then entries["MODEL" := line.parts[1]]
      else entries
    case Some(_) => entries
    case None =>
      SettingCommand(entries, line.commandName, line.parts, GetModelDefinition(Get(entries, "MODEL"))).GetOr(entries)
  }

  /** The conversation file after a command line (readFile: what reading a path yields). */
  function StoredAfter(s: Stored, entries: map<string, string>, line: Line, readFile: string -> Option<string>): Stored
    requires |line.parts| >= 1
  {
    match BuiltinNamed(line.commandName)
    case Some(Clear) => Cleared(s)
    case Some(PersistSystem) =>
      if |line.parts| >= 2 && readFile(line.parts[1]).Some? then WithSystem(s, readFile(line.parts[1]).value) else s
    case Some(PersistSettings) => if s.Decoded? then Decoded(Persisted(entries, s.cf), s.nulls) else s
    case _ => s
  }

  /** The outcome of a command line. */
  function OutcomeOf(s: Stored, entries: map<string, string>, line: Line, filter: string -> string): Outcome
    requires |line.parts| >= 1
  {
    var parts := line.parts;
    match BuiltinNamed(line.commandName)
    case Some(Exit) => Quit
    case Some(History) => PrintHistory
    case Some(Save) => if |parts| >= 2 then CopyTo(parts[1]) else Handled
    case Some(ExportLast) => ExportOutcome(ExportCommandResult("exportlast", parts, Read(s), filter))
    case Some(ExportN) => ExportOutcome(ExportCommandResult("exportn", parts, Read(s), filter))
    case Some(ExportLastN) => ExportOutcome(ExportCommandResult("exportlastn", parts, Read(s), filter))
    case Some(ModelInfo) =>
      if |parts| >= 2 && FindModel(parts[1]).Some? then ShowModelInfo(FindModel(parts[1]).value) else Handled
    case Some(_) => Handled
    case None =>
      if IsSetting(line.commandName, GetModelDefinition(Get(entries, "MODEL"))) then Handled else NotACommand
  }

  /** The static commands. */
  method RunBuiltin(b: Builtin, line: Line, cfg: Cfg, store: Store, readFile: string -> Option<string>,
                    filter: string -> string, pick: nat) returns (outcome: Outcome)
    requires BuiltinNamed(line.commandName) == Some(b) && |line.parts| >= 1
    requires pick < |ModelsList()|
    requires b == PersistSettings && store.stored.Decoded? ==> ModelsField !in store.stored.nulls
    modifies cfg, store
    ensures outcome == OutcomeOf(old(store.stored), old(cfg.entries), line, filter)
    ensures cfg.entries == CfgAfter(old(cfg.entries), line, pick)
    ensures store.stored == StoredAfter(old(store.stored), old(cfg.entries), line, readFile)
    ensures store.backups == old(store.backups)
  {
    var parts := line.parts;
    match b {
      case Exit =>
        return Quit;
      case History =>
        return PrintHistory;
      case Clear =>
        var _ := store.ClearMessages();
        return Handled;
      case Save =>
        if |parts| < 2 {
          return Handled;
        }
        return CopyTo(parts[1]);
      case PersistSystem =>
        if |parts| < 2 {
          return Handled;
        }
        var content := readFile(parts[1]);
        if content.None? {
          return Handled;
        }
        var _ := store.PersistSystemToFile(content.value);
        return Handled;
      case PersistSettings =>
        var _ := store.PersistSettings(cfg.entries);
        return Handled;
      case ExportLast =>
        var file := store.ReadConversation();
        var r := ExportCommand(line.commandName, parts, file, filter);
        return ExportOutcome(r);
      case ExportN =>
        var file := store.ReadConversation();
        var r := ExportCommand(line.commandName, parts, file, filter);
        return ExportOutcome(r);
      case ExportLastN =>
        var file := store.ReadConversation();
        var r := ExportCommand(line.commandName, parts, file, filter);
        return ExportOutcome(r);
      case RandomModel =>
        cfg.Put("MODEL", ModelsList()[pick]);
        return Handled;
      case Help =>
        return Handled;
      case SwitchModel =>
        if |parts| < 2 {
          return Handled;
        }
        var modelName := parts[1];
        if FindModel(modelName).None? {
          var found := Contains(ModelsList(), modelName);
          if !found {
            return Handled;
          }
        }
        cfg.Put("MODEL", modelName);
        return Handled;
      case ModelInfo =>
        if |parts| < 2 {
          return Handled;
        }
        var id := FindModel(parts[1]);
        if id.None? {
          return Handled;
        }
        return ShowModelInfo(id.value);
    }
  }

  /**
   * handleInteractiveInput: a line that is no command is left to the caller;
   * otherwise the static commands, then the parameter commands of the
   * current model. Only /persist-settings needs the file's Models map to
   * be non-null, as it assigns into it.
   */
  method HandleInteractiveInput(userInput: string, cfg: Cfg, store: Store, readFile: string -> Option<string>,
                                filter: string -> string, pick: nat) returns (outcome: Outcome)
    requires pick < |ModelsList()|
    requires (ParseLine(userInput).Some? && BuiltinNamed(ParseLine(userInput).value.commandName) == Some(PersistSettings)
              && store.stored.Decoded?) ==> ModelsField !in store.stored.nulls
    modifies cfg, store
    ensures ParseLine(userInput).None? ==>
      outcome == NotACommand && cfg.entries == old(cfg.entries) && store.stored == old(store.stored)
    ensures ParseLine(userInput).Some? ==>
      var line := ParseLine(userInput).value;
      outcome == OutcomeOf(old(store.stored), old(cfg.entries), line, filter)
      && cfg.entries == CfgAfter(old(cfg.entries), line, pick)
      && store.stored == StoredAfter(old(store.stored), old(cfg.entries), line, readFile)
    ensures store.backups == old(store.backups)
  {
    outcome := HandleLine(ParseLine(userInput), cfg, store, readFile, filter, pick);
  }

  /** handleInteractiveInput once the line is split into words. */
  method HandleLine(parsed: Option<Line>, cfg: Cfg, store: Store, readFile: string -> Option<string>,
                    filter: string -> string, pick: nat) returns (outcome: Outcome)
    requires parsed.Some? ==> |parsed.value.parts| >= 1
    requires pick < |ModelsList()|
    requires (parsed.Some? && BuiltinNamed(parsed.value.commandName) == Some(PersistSettings)
              && store.stored.Decoded?) ==> ModelsField !in store.stored.nulls
    modifies cfg, store
    ensures parsed.None? ==>
      outcome == NotACommand && cfg.entries == old(cfg.entries) && store.stored == old(store.stored)
    ensures parsed.Some? ==>
      outcome == OutcomeOf(old(store.stored), old(cfg.entries), parsed.value, filter)
      && cfg.entries == CfgAfter(old(cfg.entries), parsed.value, pick)
      && store.stored == StoredAfter(old(store.stored), old(cfg.entries), parsed.value, readFile)
    ensures store.backups == old(store.backups)
  {
    if parsed.None? {
      return NotACommand;
    }
    var line := parsed.value;
    var builtin := BuiltinNamed(line.commandName);
    if builtin.Some? {
      outcome := RunBuiltin(builtin.value, line, cfg, store, readFile, filter, pick);
      return;
    }
    outcome := RunSetting(line, cfg, store, readFile, filter, pick);
  }

  /** A line whose command is not static: a setting of the current model, or nothing. */
  method RunSetting(line: Line, cfg: Cfg, store: Store, readFile: string -> Option<string>,
                    filter: string -> string, pick: nat) returns (outcome: Outcome)
    requires BuiltinNamed(line.commandName).None? && |line.parts| >= 1
    requires pick < |ModelsList()|
    modifies cfg
    ensures outcome == OutcomeOf(store.stored, old(cfg.entries), line, filter)
    ensures cfg.entries == CfgAfter(old(cfg.entries), line, pick)
    ensures store.stored == StoredAfter(store.stored, old(cfg.entries), line, readFile)
  {
    ghost var e := cfg.entries;
    var def := GetModelDefinition(cfg.Value("MODEL"));
    assert def == GetModelDefinition(Get(e, "MODEL"));
    var handled := SetParameter(cfg, line.commandName, line.parts, def);
    outcome := if handled then Handled else NotACommand;
    assert CfgAfter(e, line, pick) == SettingCommand(e, line.commandName, line.parts, def).GetOr(e);
    assert handled <==> IsSetting(line.commandName, def);
    assert StoredAfter(store.stored, e, line, readFile) == store.stored;
  }

  // ---------------------------------------------------------------------
  // What a command line does
  // ---------------------------------------------------------------------

  /** A command changes at most MODEL and the key of the setting it names. */
  lemma OnlyOwnKeyChanges(entries: map<string, string>, line: Line, pick: nat, k: string)
    requires |line.parts| >= 1 && pick < |ModelsList()|
    requires k != "MODEL" && k != ToUpper(line.commandName)
    ensures var m := CfgAfter(entries, line, pick);
      (k in m <==> k in entries) && (k in m ==> m[k] == entries[k])
  {
    if BuiltinNamed(line.commandName).None? {
      SettingTouchesOwnKey(entries, line.commandName, line.parts, GetModelDefinition(Get(entries, "MODEL")), k);
    }
  }

  /** `/model <name>` switches exactly to the names the table defines; the models list adds none. */
  lemma SwitchModelAccepts(entries: map<string, string>, parts: seq<string>, pick: nat)
    requires |parts| >= 2 && pick < |ModelsList()|
    ensures FindModel(parts[1]).Some? ==> CfgAfter(entries, Line("model", parts), pick) == entries["MODEL" := parts[1]]
    ensures FindModel(parts[1]).None? ==> CfgAfter(entries, Line("model", parts), pick) == entries
  {
    ModelsListExactly(parts[1]);
  }

  /** /randomodel switches to a model the table defines, never to "others". */
  lemma RandomModelDefined(entries: map<string, string>, parts: seq<string>, pick: nat)
    requires |parts| >= 1 && pick < |ModelsList()|
    ensures var m := CfgAfter(entries, Line("randomodel", parts), pick);
      "MODEL" in m && FindModel(m["MODEL"]).Some? && FindModel(m["MODEL"]).value != Others
  {
    var name := ModelsList()[pick];
    assert BuiltinNamed("randomodel") == Some(RandomModel);
    assert CfgAfter(entries, Line("randomodel", parts), pick) == entries["MODEL" := name];
    ModelsListExactly(name);
  }

  /**
   * A command that is neither static nor a setting of the current model is
   * left to the caller, which sends the line as a prompt ...
   */
  lemma UnknownCommandIsPrompt(s: Stored, entries: map<string, string>, line: Line, filter: string -> string)
    requires |line.parts| >= 1
    requires BuiltinNamed(line.commandName).None?
    requires !IsSetting(line.commandName, GetModelDefinition(Get(entries, "MODEL")))
    ensures OutcomeOf(s, entries, line, filter) == NotACommand
  {
  }

  /** ... and nothing changes. */
  lemma UnknownCommandChangesNothing(s: Stored, entries: map<string, string>, line: Line, pick: nat,
                                     readFile: string -> Option<string>)
    requires |line.parts| >= 1 && pick < |ModelsList()|
    requires BuiltinNamed(line.commandName).None?
    requires !IsSetting(line.commandName, GetModelDefinition(Get(entries, "MODEL")))
    ensures CfgAfter(entries, line, pick) == entries
    ensures StoredAfter(s, entries, line, readFile) == s
  {
  }

  /** Only /clear, /persist-system and /persist-settings change the conversation file. */
  lemma FileChangedOnlyByItsCommands(s: Stored, entries: map<string, string>, line: Line,
                                     readFile: string -> Option<string>)
    requires |line.parts| >= 1
    requires var b := BuiltinNamed(line.commandName); b.None? || (b.value != Clear && b.value != PersistSystem && b.value != PersistSettings)
    ensures StoredAfter(s, entries, line, readFile) == s
  {
  }

  /** /clear empties the messages of a file that reads and keeps its system prompt and settings. */
  lemma ClearEmptiesMessages(s: Stored, entries: map<string, string>, parts: seq<string>,
                             readFile: string -> Option<string>)
    requires |parts| >= 1 && s.Decoded?
    ensures var r := StoredAfter(s, entries, Line("clear", parts), readFile);
      r.Decoded? && r.cf.messages == [] && r.cf.system == s.cf.system && r.cf.settings == s.cf.settings
  {
  }
}
