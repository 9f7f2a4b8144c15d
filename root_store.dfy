/**
 * The root program's conversation file as a stored value at its path, and
 * the operations that read it, change one part of it and write it back.
 * JSON encoding, the temporary file and the rename are not modelled: a file
 * written reads back as the record written.
 */
module RootStore {
  import opened Wrappers
  import opened GoStrconv
  import opened Json
  import opened ModelNames
  import opened Models
  import opened ParamMaps
  import opened ConfigMap
  import opened RootFile
  import opened RootSettings

  // The defaults the program starts from, as spelled in the program.
  const DefaultTemperature := "1"
  const DefaultTopP := "1"
  const DefaultFrequency := "0"
  const DefaultPresence := "0"
  const DefaultMaxTokens := "4096"
  const DefaultReasoning := "low"

  /** The fields ensureHistoryFileStructure wants to see non-null. */
  datatype Required = MessagesField | DefaultField | ModelsField

  /**
   * What the conversation path holds: no file, a file json.Unmarshal rejects,
   * or a decoded file with the set of required fields that were null or
   * missing in it (they decode as empty).
   */
  datatype Stored = Missing | Malformed | Decoded(cf: ConversationFile, nulls: set<Required>)

  /** readConversation: the decoded file, or an error. */
  function Read(s: Stored): (r: Option<ConversationFile>)
    ensures r.Some? <==> s.Decoded?
    ensures r.Some? ==> r.value == s.cf
  {
    if s.Decoded? then Some(s.cf) else None
  }

  /** A file ensureHistoryFileStructure accepts as it is. */
  predicate WellShaped(s: Stored) {
    s.Decoded? && s.nulls == {}
  }

  /** The value a parameter's Default reads back as from the file. */
  function DefaultJson(v: DefaultValue): (j: JsonValue)
    ensures v.DNil? <==> j.JNull?
  {
    match v
    case DFloat(f) => JNumber(f)
    case DInt(i) => JNumber(FromInt(i))
    case DString(s) => JString(s)
    case DBool(b) => JBool(b)
    case DNil => JNull
  }

  function Defaults(ps: map<ParamName, ModelParameter>): map<ParamName, JsonValue> {
    map n | n in ps :: DefaultJson(ps[n].default)
  }

  /** The stored settings of the default model in a new file. */
  function DefaultModelSettings(): ModelSettings {
    map[
      "temperature" := JNumber(ParseFloatOr(DefaultTemperature, FromInt(1))),
      "top_p" := JNumber(ParseFloatOr(DefaultTopP, FromInt(1))),
      "frequency_penalty" := JNumber(ParseFloatOr(DefaultFrequency, FromInt(0))),
      "presence_penalty" := JNumber(ParseFloatOr(DefaultPresence, FromInt(0))),
      "max_tokens" := JNumber(FromInt(AtoiOr(DefaultMaxTokens, 4096))),
      "reasoning_effort" := JString(DefaultReasoning)]
  }

  /** The generic entry's defaults under their names (GenericDefaultsAgree: as the table has them). */
  function GenericDefaults(): ModelSettings {
    map[
      "temperature" := JNumber(Decimal(5, -1)),
      "top_p" := JNumber(Decimal(1, 0)),
      "max_tokens" := JNumber(Decimal(1024, 0)),
      "frequency_penalty" := JNumber(Decimal(0, 0)),
      "presence_penalty" := JNumber(Decimal(0, 0)),
      "stop" := JString("")]
  }

  /**
   * The file created for a missing path: no system prompt, no messages,
   * STREAM and HISTORY_LIMIT from cfg, Default holding the generic entry's
   * parameter defaults, and one model entry for the default model.
   */
  function NewFile(cfg: map<string, string>): ConversationFile {
    ConversationFile(
      "",
      TopLevelSettings(
        Get(cfg, "STREAM") == "true",
        AtoiIgnoringError(Get(cfg, "HISTORY_LIMIT")),
        GenericDefaults(),
        map[][ModelName(GptOss120b) := DefaultModelSettings()]),
      [])
  }

  /** What ensureHistoryFileStructure leaves at the path. */
  function Ensured(s: Stored, cfg: map<string, string>): Stored {
    if WellShaped(s) then s else Decoded(NewFile(cfg), {})
  }

  /** The files it moves to a backup path: a present file it rejects. */
  function BackedUp(s: Stored): seq<Stored> {
    if s.Missing? || WellShaped(s) then [] else [s]
  }

  // The stored value after each operation; a file that does not read is left as it is.

  function Appended(s: Stored, m: Message): (r: Stored)
    ensures r.Decoded? <==> s.Decoded?
    ensures s.Decoded? ==>
      r.cf.messages == s.cf.messages + [m] && r.cf.system == s.cf.system && r.cf.settings == s.cf.settings
      && r.nulls == s.nulls - {MessagesField}
  {
    match s
    case Decoded(cf, nulls) => Decoded(cf.(messages := cf.messages + [m]), nulls - {MessagesField})
    case _ => s
  }

  function Cleared(s: Stored): (r: Stored)
    ensures r.Decoded? <==> s.Decoded?
    ensures s.Decoded? ==>
      r.cf.messages == [] && r.cf.system == s.cf.system && r.cf.settings == s.cf.settings
      && r.nulls == s.nulls - {MessagesField}
  {
    match s
    case Decoded(cf, nulls) => Decoded(cf.(messages := []), nulls - {MessagesField})
    case _ => s
  }

  function WithSystem(s: Stored, content: string): (r: Stored)
    ensures r.Decoded? <==> s.Decoded?
    ensures s.Decoded? ==>
      r.cf.system == content && r.cf.messages == s.cf.messages && r.cf.settings == s.cf.settings
      && r.nulls == s.nulls
  {
    match s
    case Decoded(cf, nulls) => Decoded(cf.(system := content), nulls)
    case _ => s
  }

  /** The conversation file at one path, read and rewritten by each operation. */
  class Store {
    var stored: Stored
    /** The rejected files moved aside, oldest first. */
    var backups: seq<Stored>

    constructor (s: Stored)
      ensures stored == s && backups == []
    {
      stored := s;
      backups := [];
    }

    method ReadConversation() returns (r: Option<ConversationFile>)
      ensures r == Read(stored)
    {
      if stored.Decoded? {
        return Some(stored.cf);
      }
      return None;
    }

    /** writeConversation of a record whose required fields in nulls are nil. */
    method WriteConversation(cf: ConversationFile, nulls: set<Required>)
      modifies this
      ensures stored == Decoded(cf, nulls) && backups == old(backups)
    {
      stored := Decoded(cf, nulls);
    }

    /**
     * ensureHistoryFileStructure: a missing file is created; a malformed one,
     * or one with a null required field, is moved aside and created afresh.
     */
    method EnsureHistoryFileStructure(cfg: map<string, string>)
      modifies this
      decreases if stored.Missing? then 0 else 1
      ensures stored == Ensured(old(stored), cfg)
      ensures backups == old(backups) + BackedUp(old(stored))
    {
      if stored.Missing? {
        CreateFile(cfg);
      } else if !WellShaped(stored) {
        BackUp();
        EnsureHistoryFileStructure(cfg);
      }
    }

    /** Writes the default file at the (missing) path. */
    method CreateFile(cfg: map<string, string>)
      modifies this
      ensures stored == Decoded(NewFile(cfg), {}) && backups == old(backups)
    {
      var cf := NewFileOf(cfg);
      stored := Decoded(cf, {});
    }

    /** Renames the file at the path to a backup name, leaving the path empty. */
    method BackUp()
      modifies this
      ensures stored == Missing && backups == old(backups) + [old(stored)]
    {
      backups := backups + [stored];
      stored := Missing;
    }

    method AppendMessage(role: string, content: string) returns (ok: bool)
      modifies this
      ensures ok == old(stored).Decoded?
      ensures stored == Appended(old(stored), Message(role, content)) && backups == old(backups)
    {
      var cf := ReadConversation();
      if cf.None? {
        return false;
      }
      var nulls := stored.nulls;
      var updated := cf.value.(messages := cf.value.messages + [Message(role, content)]);
      WriteConversation(updated, nulls - {MessagesField});
      return true;
    }

    method MessageCount() returns (count: int, ok: bool)
      ensures ok == stored.Decoded?
      ensures count == if ok then |stored.cf.messages| else 0
    {
      var cf := ReadConversation();
      if cf.None? {
        return 0, false;
      }
      return |cf.value.messages|, true;
    }

    method PersistSystemToFile(content: string) returns (ok: bool)
      modifies this
      ensures ok == old(stored).Decoded?
      ensures stored == WithSystem(old(stored), content) && backups == old(backups)
    {
      var cf := ReadConversation();
      if cf.None? {
        return false;
      }
      WriteConversation(cf.value.(system := content), stored.nulls);
      return true;
    }

    /** The /clear command. */
    method ClearMessages() returns (ok: bool)
      modifies this
      ensures ok == old(stored).Decoded?
      ensures stored == Cleared(old(stored)) && backups == old(backups)
    {
      var cf := ReadConversation();
      if cf.None? {
        return false;
      }
      WriteConversation(cf.value.(messages := []), stored.nulls - {MessagesField});
      return true;
    }

    /**
     * persistSettingsToFile on the stored file. Assigning into a nil Models
     * map panics in Go, so the file's Models must not be null.
     */
    method PersistSettings(cfg: map<string, string>) returns (ok: bool)
      requires stored.Decoded? ==> ModelsField !in stored.nulls
      modifies this
      ensures ok == old(stored).Decoded?
      ensures ok ==> stored == Decoded(Persisted(cfg, old(stored).cf), old(stored).nulls)
      ensures !ok ==> stored == old(stored)
      ensures backups == old(backups)
    {
      var cf := ReadConversation();
      var written := PersistSettingsToFile(cf, cfg);
      if written.None? {
        return false;
      }
      WriteConversation(written.value, stored.nulls);
      return true;
    }

    /** applyFileSettingsAsDefaults on the stored file; the file itself is not changed. */
    method ApplySettings(cfg: Cfg, provided: map<string, bool>) returns (ok: bool)
      modifies cfg
      ensures ok == stored.Decoded?
      ensures ok ==> cfg.entries == AppliedDefaults(old(cfg.entries), stored.cf, provided)
      ensures !ok ==> cfg.entries == old(cfg.entries)
    {
      var cf := ReadConversation();
      ok := ApplyFileSettingsAsDefaults(cfg, cf, provided);
    }
  }

  /** The file ensureHistoryFileStructure builds for a missing path. */
  method NewFileOf(cfg: map<string, string>) returns (cf: ConversationFile)
    ensures cf == NewFile(cfg)
  {
    var stream := Get(cfg, "STREAM") == "true";
    var limit := AtoiIgnoringError(Get(cfg, "HISTORY_LIMIT"));
    var defaultSettings := GenericSettings();
    var s := TopLevelSettings(stream, limit, defaultSettings, map[]);
    s := s.(models := s.models[ModelName(GptOss120b) := DefaultModelSettings()]);
    cf := ConversationFile("", s, []);
  }

  /** The defaults of the "others" entry, collected by the loop over its parameters. */
  method GenericSettings() returns (defaults: ModelSettings)
    ensures defaults == GenericDefaults()
  {
    GetModelDefinitionOfKey(Others);
    var genericDef := GetModelDefinition("others");
    defaults := CollectDefaults(genericDef.parameters);
    GenericDefaultsAgree(genericDef.parameters, defaults);
  }

  /** The loop that fills Default from the generic entry's parameters. */
  method CollectDefaults(ps: map<ParamName, ModelParameter>) returns (defaults: ModelSettings)
    ensures defaults == SettingWrites(Defaults(ps), ps.Keys)
  {
    defaults := map[];
    var remaining := ps.Keys;
    DefaultsStart(ps);
    while remaining != {}
      invariant remaining <= ps.Keys
      invariant defaults == SettingWrites(Defaults(ps), ps.Keys - remaining)
      decreases |remaining|
    {
      var name :| name in remaining;
      ghost var before := defaults;
      defaults := defaults[NameOf(name) := DefaultJson(ps[name].default)];
      DefaultsStep(ps, remaining, name, before, defaults);
      remaining := remaining - {name};
    }
    assert ps.Keys - remaining == ps.Keys;
  }

  /** Default, as the loop fills it from the generic entry, is GenericDefaults. */
  lemma GenericDefaultsAgree(ps: map<ParamName, ModelParameter>, defaults: ModelSettings)
    requires ps == Definition(Others).parameters
    requires defaults == SettingWrites(Defaults(ps), ps.Keys)
    ensures defaults == GenericDefaults()
  {
    OthersDefaults();
    assert Defaults(ps).Keys == ps.Keys;
    NamedDefaults(Defaults(ps), defaults);
  }

  /** The generic entry's defaults, parameter by parameter. */
  lemma OthersDefaults()
    ensures var d := Defaults(Definition(Others).parameters);
      d.Keys == {Temperature, TopP, MaxTokens, FrequencyPenalty, PresencePenalty, StopSeq}
      && d[Temperature] == JNumber(Decimal(5, -1)) && d[TopP] == JNumber(Decimal(1, 0))
      && d[MaxTokens] == JNumber(Decimal(1024, 0)) && d[FrequencyPenalty] == JNumber(Decimal(0, 0))
      && d[PresencePenalty] == JNumber(Decimal(0, 0)) && d[StopSeq] == JString("")
  {
    var ps := OthersRow().parameters;
    assert ps.Keys == {Temperature, TopP, MaxTokens, FrequencyPenalty, PresencePenalty, StopSeq};
  }

  lemma NamedDefaults(d: map<ParamName, JsonValue>, defaults: ModelSettings)
    requires d.Keys == {Temperature, TopP, MaxTokens, FrequencyPenalty, PresencePenalty, StopSeq}
    requires d[Temperature] == JNumber(Decimal(5, -1)) && d[TopP] == JNumber(Decimal(1, 0))
    requires d[MaxTokens] == JNumber(Decimal(1024, 0)) && d[FrequencyPenalty] == JNumber(Decimal(0, 0))
    requires d[PresencePenalty] == JNumber(Decimal(0, 0)) && d[StopSeq] == JString("")
    requires defaults == SettingWrites(d, d.Keys)
    ensures defaults == GenericDefaults()
  {
    NameOfIsInjective();
    var s1 := {Temperature};
    var s2 := s1 + {TopP};
    var s3 := s2 + {MaxTokens};
    var s4 := s3 + {FrequencyPenalty};
    var s5 := s4 + {PresencePenalty};
    RekeyEmpty(NameOf, d);
    RekeyAdd(NameOf, d, {}, Temperature);
    assert {} + {Temperature} == s1;
    RekeyAdd(NameOf, d, s1, TopP);
    RekeyAdd(NameOf, d, s2, MaxTokens);
    RekeyAdd(NameOf, d, s3, FrequencyPenalty);
    RekeyAdd(NameOf, d, s4, PresencePenalty);
    RekeyAdd(NameOf, d, s5, StopSeq);
    assert s5 + {StopSeq} == d.Keys;
  }

  lemma DefaultsStart(ps: map<ParamName, ModelParameter>)
    ensures SettingWrites(Defaults(ps), ps.Keys - ps.Keys) == map[]
  {
    NameOfIsInjective();
    assert ps.Keys - ps.Keys == {};
    RekeyEmpty(NameOf, Defaults(ps));
  }

  lemma DefaultsStep(ps: map<ParamName, ModelParameter>, remaining: set<ParamName>, name: ParamName,
                     before: ModelSettings, after: ModelSettings)
    requires name in remaining && remaining <= ps.Keys
    requires before == SettingWrites(Defaults(ps), ps.Keys - remaining)
    requires after == before[NameOf(name) := DefaultJson(ps[name].default)]
    ensures after == SettingWrites(Defaults(ps), ps.Keys - (remaining - {name}))
  {
    NameOfIsInjective();
    var done := ps.Keys - remaining;
    var all := Defaults(ps);
    assert name in all && all[name] == DefaultJson(ps[name].default);
    RekeyAdd(NameOf, all, done, name);
    assert ps.Keys - (remaining - {name}) == done + {name};
  }

  // ---------------------------------------------------------------------
  // What the store promises
  // ---------------------------------------------------------------------

  /** After ensureHistoryFileStructure the file is well shaped and reads; running it again changes nothing. */
  lemma EnsuredWellShaped(s: Stored, cfg: map<string, string>)
    ensures WellShaped(Ensured(s, cfg)) && Read(Ensured(s, cfg)).Some?
    ensures Ensured(Ensured(s, cfg), cfg) == Ensured(s, cfg)
    ensures BackedUp(Ensured(s, cfg)) == []
  {
  }

  /** A well-shaped file is kept as it is; every other present file is replaced by a new one and kept as a backup. */
  lemma EnsuredKeepsOnlyWellShaped(s: Stored, cfg: map<string, string>)
    ensures Ensured(s, cfg) == s <==> WellShaped(s)
    ensures !WellShaped(s) ==> Read(Ensured(s, cfg)) == Some(NewFile(cfg))
    ensures !WellShaped(s) && !s.Missing? ==> BackedUp(s) == [s]
  {
    if !WellShaped(s) {
      assert Ensured(s, cfg).nulls == {};
    }
  }

  /**
   * A new file has no system prompt and no messages, takes STREAM and
   * HISTORY_LIMIT from cfg, and its Default holds every parameter of the
   * generic entry under its name with that parameter's default.
   */
  lemma NewFileShape(cfg: map<string, string>, n: ParamName)
    requires n in Definition(Others).parameters
    ensures var f := NewFile(cfg);
      f.system == "" && f.messages == []
      && f.settings.stream == (Get(cfg, "STREAM") == "true")
      && f.settings.historyLimit == AtoiIgnoringError(Get(cfg, "HISTORY_LIMIT"))
      && NameOf(n) in f.settings.default
      && f.settings.default[NameOf(n)] == DefaultJson(Definition(Others).parameters[n].default)
  {
    var ps := Definition(Others).parameters;
    NameOfIsInjective();
    GenericDefaultsAgree(ps, SettingWrites(Defaults(ps), ps.Keys));
    RekeyAt(NameOf, Defaults(ps), ps.Keys, n);
  }

  /** Appending counts: the message count grows by one, the new message is last, and the earlier ones stay in order. */
  lemma AppendCounts(s: Stored, m: Message)
    requires Read(s).Some?
    ensures var r := Read(Appended(s, m)).value;
      |r.messages| == |Read(s).value.messages| + 1 && r.messages[|r.messages| - 1] == m
      && r.messages[..|r.messages| - 1] == Read(s).value.messages
  {
  }

  /** Clearing, then appending: the conversation holds just that message; system and settings are kept. */
  lemma ClearThenAppend(s: Stored, m: Message)
    requires Read(s).Some?
    ensures var r := Read(Appended(Cleared(s), m)).value;
      r.messages == [m] && r.system == Read(s).value.system && r.settings == Read(s).value.settings
  {
  }

  /**
   * Setting the system prompt and appending a message touch different parts
   * of the file: the two commute, and neither fixes a file that does not read.
   */
  lemma SystemAndAppendIndependent(s: Stored, content: string, m: Message)
    ensures WithSystem(Appended(s, m), content) == Appended(WithSystem(s, content), m)
    ensures Read(WithSystem(s, content)).None? <==> Read(s).None?
    ensures Read(s).Some? ==> Read(WithSystem(s, content)).value.messages == Read(s).value.messages
  {
  }
}
