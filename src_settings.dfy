/**
 * The src/ copy's settings (src/config/settings.go): the record
 * persistSettingsToFile builds, applyFileSettingsAsDefaults, and
 * validateNumericRanges, the single check this version makes of the whole
 * configuration.
 */
module SrcSettings {
  import opened Wrappers
  import opened GoStrconv
  import opened ConfigMap
  import opened SrcFile

  /** defaultHistoryLimit */
  const DefaultHistoryLimit := 40

  // ---------------------------------------------------------------------
  // persistSettingsToFile
  // ---------------------------------------------------------------------

  /**
   * The Settings record persistSettingsToFile writes: numbers that do not
   * parse fall back to 1, 1, 0, 0 and 4096, stream is true only for
   * "true", and Stop is copied only when non-empty, which leaves the same
   * text as copying it always.
   */
  function BuildSettings(cfg: map<string, string>): (r: Settings)
    ensures r.stream <==> Get(cfg, "STREAM") == "true"
    ensures r.stop == Get(cfg, "STOP") && r.model == Get(cfg, "MODEL")
  {
    Settings(
      Get(cfg, "MODEL"),
      ParseFloatOr(Get(cfg, "TEMPERATURE"), FromInt(1)),
      ParseFloatOr(Get(cfg, "TOP_P"), FromInt(1)),
      ParseFloatOr(Get(cfg, "FREQUENCY_PENALTY"), FromInt(0)),
      ParseFloatOr(Get(cfg, "PRESENCE_PENALTY"), FromInt(0)),
      AtoiOr(Get(cfg, "MAX_TOKENS"), 4096),
      Get(cfg, "STREAM") == "true",
      Get(cfg, "REASONING_EFFORT"),
      Get(cfg, "STOP"),
      AtoiOr(Get(cfg, "HISTORY_LIMIT"), DefaultHistoryLimit))
  }

  /** Numbers that do not parse are persisted as the fallbacks 1, 1, 0, 0, 4096 and the default limit. */
  lemma PersistedFallbacks(cfg: map<string, string>)
    ensures var r := BuildSettings(cfg);
      (ParseFloat(Get(cfg, "TEMPERATURE")).None? ==> r.temperature == FromInt(1))
      && (ParseFloat(Get(cfg, "TOP_P")).None? ==> r.topP == FromInt(1))
      && (ParseFloat(Get(cfg, "FREQUENCY_PENALTY")).None? ==> r.frequencyPenalty == FromInt(0))
      && (ParseFloat(Get(cfg, "PRESENCE_PENALTY")).None? ==> r.presencePenalty == FromInt(0))
      && (Atoi(Get(cfg, "MAX_TOKENS")).None? ==> r.maxTokens == 4096)
      && (Atoi(Get(cfg, "HISTORY_LIMIT")).None? ==> r.historyLimit == DefaultHistoryLimit)
  {
  }

  /** The file after persistSettingsToFile: the whole Settings record replaced, nothing else changed. */
  function Persisted(cfg: map<string, string>, cf: ConversationFile): (r: ConversationFile)
    ensures r.system == cf.system && r.messages == cf.messages
  {
    cf.(settings := BuildSettings(cfg))
  }

  // ---------------------------------------------------------------------
  // applyFileSettingsAsDefaults
  // ---------------------------------------------------------------------

  /** The configuration keys the file's settings are applied to. */
  datatype Key =
    | Model | Temperature | TopP | FrequencyPenalty | PresencePenalty | MaxTokens
    | Stream | ReasoningEffort | Stop | HistoryLimit

  function KeyText(k: Key): string {
    match k
    case Model => "MODEL"
    case Temperature => "TEMPERATURE"
    case TopP => "TOP_P"
    case FrequencyPenalty => "FREQUENCY_PENALTY"
    case PresencePenalty => "PRESENCE_PENALTY"
    case MaxTokens => "MAX_TOKENS"
    case Stream => "STREAM"
    case ReasoningEffort => "REASONING_EFFORT"
    case Stop => "STOP"
    case HistoryLimit => "HISTORY_LIMIT"
  }

  /** Keys of equal length already differ in their first letter. */
  lemma KeyTextInjective(a: Key, b: Key)
    requires KeyText(a) == KeyText(b)
    ensures a == b
  {
    assert |KeyText(a)| == |KeyText(b)| && KeyText(a)[0] == KeyText(b)[0];
  }

  lemma KeysDistinct()
    ensures forall a: Key, b: Key | a != b :: KeyText(a) != KeyText(b)
  {
    forall a: Key, b: Key | a != b ensures KeyText(a) != KeyText(b) {
      if KeyText(a) == KeyText(b) {
        KeyTextInjective(a, b);
      }
    }
  }

  /** A stored string; the empty string is its zero value. */
  function NonEmpty(s: string): Option<string> {
    if s != "" then Some(s) else None
  }

  /** A stored float64 written back with "%g"; 0 is its zero value. */
  function NonZeroFloat(d: Decimal): Option<string> {
    if Value(d) != 0.0 then Some(FormatG(d)) else None
  }

  /** A stored int written back with "%d"; 0 is its zero value. */
  function NonZeroInt(n: int): Option<string> {
    if n != 0 then Some(Itoa(n)) else None
  }

  /** The text the file's settings hold for a key, None where the stored value is the zero value (never for STREAM). */
  function StoredText(s: Settings, k: Key): Option<string> {
    match k
    case Model => NonEmpty(s.model)
    case Temperature => NonZeroFloat(s.temperature)
    case TopP => NonZeroFloat(s.topP)
    case FrequencyPenalty => NonZeroFloat(s.frequencyPenalty)
    case PresencePenalty => NonZeroFloat(s.presencePenalty)
    case MaxTokens => NonZeroInt(s.maxTokens)
    case Stream => Some(FormatBool(s.stream))
    case ReasoningEffort => NonEmpty(s.reasoningEffort)
    case Stop => NonEmpty(s.stop)
    case HistoryLimit => NonZeroInt(s.historyLimit)
  }

  /** One step: the key is set to the stored text unless it was provided on the command line or the text is None. */
  function Override(e: map<string, string>, provided: map<string, bool>, s: Settings, k: Key): map<string, string> {
    var v := StoredText(s, k);
    if !IsProvided(provided, KeyText(k)) && v.Some? then e[KeyText(k) := v.value] else e
  }

  /** The configuration after applyFileSettingsAsDefaults, one step per stored field in the order the code takes them. */
  function Applied(entries: map<string, string>, s: Settings, provided: map<string, bool>): map<string, string> {
    var e := Override(entries, provided, s, Model);
    var e := Override(e, provided, s, Temperature);
    var e := Override(e, provided, s, TopP);
    var e := Override(e, provided, s, FrequencyPenalty);
    var e := Override(e, provided, s, PresencePenalty);
    var e := Override(e, provided, s, MaxTokens);
    var e := Override(e, provided, s, Stream);
    var e := Override(e, provided, s, ReasoningEffort);
    var e := Override(e, provided, s, Stop);
    Override(e, provided, s, HistoryLimit)
  }

  /** One of applyFileSettingsAsDefaults' ten guarded assignments. */
  method OverrideKey(cfg: Cfg, provided: map<string, bool>, s: Settings, k: Key)
    modifies cfg
    ensures cfg.entries == Override(old(cfg.entries), provided, s, k)
  {
    var v := StoredText(s, k);
    if !IsProvided(provided, KeyText(k)) && v.Some? {
      cfg.Put(KeyText(k), v.value);
    }
  }

  /** applyFileSettingsAsDefaults on the file as read (None: the read failed, and cfg is left alone). */
  method ApplyFileSettingsAsDefaults(cfg: Cfg, file: Option<ConversationFile>, provided: map<string, bool>)
    returns (ok: bool)
    modifies cfg
    ensures ok == file.Some?
    ensures ok ==> cfg.entries == Applied(old(cfg.entries), file.value.settings, provided)
    ensures !ok ==> cfg.entries == old(cfg.entries)
  {
    if file.None? {
      return false;
    }
    var s := file.value.settings;
    OverrideKey(cfg, provided, s, Model);
    OverrideKey(cfg, provided, s, Temperature);
    OverrideKey(cfg, provided, s, TopP);
    OverrideKey(cfg, provided, s, FrequencyPenalty);
    OverrideKey(cfg, provided, s, PresencePenalty);
    OverrideKey(cfg, provided, s, MaxTokens);
    OverrideKey(cfg, provided, s, Stream);
    OverrideKey(cfg, provided, s, ReasoningEffort);
    OverrideKey(cfg, provided, s, Stop);
    OverrideKey(cfg, provided, s, HistoryLimit);
    return true;
  }

  /** A step for one key leaves every other text alone. */
  lemma OverrideElsewhere(e: map<string, string>, provided: map<string, bool>, s: Settings, k: Key, t: string)
    requires t != KeyText(k)
    ensures var r := Override(e, provided, s, k); (t in r <==> t in e) && (t in r ==> r[t] == e[t])
  {
  }

  /** What the step for key j does to key k's text. */
  lemma OverrideStep(e: map<string, string>, provided: map<string, bool>, s: Settings, j: Key, k: Key)
    ensures var r := Override(e, provided, s, j); var t := KeyText(k); var v := StoredText(s, k);
      if j == k && !IsProvided(provided, t) && v.Some? then t in r && r[t] == v.value
      else (t in r <==> t in e) && (t in r ==> r[t] == e[t])
  {
    if j != k {
      KeysDistinct();
      OverrideElsewhere(e, provided, s, j, KeyText(k));
    }
  }

  /**
   * Each key ends up with the file's text when it was not provided and the
   * stored value is not zero, and keeps its value otherwise.
   */
  lemma AppliedAt(entries: map<string, string>, s: Settings, provided: map<string, bool>, k: Key)
    ensures var m := Applied(entries, s, provided); var t := KeyText(k); var v := StoredText(s, k);
      if !IsProvided(provided, t) && v.Some? then t in m && m[t] == v.value
      else (t in m <==> t in entries) && (t in m ==> m[t] == entries[t])
  {
    KeysDistinct();
    var e1 := Override(entries, provided, s, Model);
    OverrideStep(entries, provided, s, Model, k);
    var e2 := Override(e1, provided, s, Temperature);
    OverrideStep(e1, provided, s, Temperature, k);
    var e3 := Override(e2, provided, s, TopP);
    OverrideStep(e2, provided, s, TopP, k);
    var e4 := Override(e3, provided, s, FrequencyPenalty);
    OverrideStep(e3, provided, s, FrequencyPenalty, k);
    var e5 := Override(e4, provided, s, PresencePenalty);
    OverrideStep(e4, provided, s, PresencePenalty, k);
    var e6 := Override(e5, provided, s, MaxTokens);
    OverrideStep(e5, provided, s, MaxTokens, k);
    var e7 := Override(e6, provided, s, Stream);
    OverrideStep(e6, provided, s, Stream, k);
    var e8 := Override(e7, provided, s, ReasoningEffort);
    OverrideStep(e7, provided, s, ReasoningEffort, k);
    var e9 := Override(e8, provided, s, Stop);
    OverrideStep(e8, provided, s, Stop, k);
    OverrideStep(e9, provided, s, HistoryLimit, k);
  }

  /** A text that is no setting key keeps its value and its presence. */
  lemma AppliedElsewhere(entries: map<string, string>, s: Settings, provided: map<string, bool>, t: string)
    requires forall k: Key :: KeyText(k) != t
    ensures var m := Applied(entries, s, provided); (t in m <==> t in entries) && (t in m ==> m[t] == entries[t])
  {
    var e1 := Override(entries, provided, s, Model);
    OverrideElsewhere(entries, provided, s, Model, t);
    var e2 := Override(e1, provided, s, Temperature);
    OverrideElsewhere(e1, provided, s, Temperature, t);
    var e3 := Override(e2, provided, s, TopP);
    OverrideElsewhere(e2, provided, s, TopP, t);
    var e4 := Override(e3, provided, s, FrequencyPenalty);
    OverrideElsewhere(e3, provided, s, FrequencyPenalty, t);
    var e5 := Override(e4, provided, s, PresencePenalty);
    OverrideElsewhere(e4, provided, s, PresencePenalty, t);
    var e6 := Override(e5, provided, s, MaxTokens);
    OverrideElsewhere(e5, provided, s, MaxTokens, t);
    var e7 := Override(e6, provided, s, Stream);
    OverrideElsewhere(e6, provided, s, Stream, t);
    var e8 := Override(e7, provided, s, ReasoningEffort);
    OverrideElsewhere(e7, provided, s, ReasoningEffort, t);
    var e9 := Override(e8, provided, s, Stop);
    OverrideElsewhere(e8, provided, s, Stop, t);
    OverrideElsewhere(e9, provided, s, HistoryLimit, t);
  }

  /** A key that was provided on the command line is never overridden by the file. */
  lemma ProvidedNeverChanged(entries: map<string, string>, s: Settings, provided: map<string, bool>, t: string)
    requires IsProvided(provided, t)
    ensures var m := Applied(entries, s, provided); (t in m <==> t in entries) && (t in m ==> m[t] == entries[t])
  {
    if k: Key :| KeyText(k) == t {
      AppliedAt(entries, s, provided, k);
    } else {
      AppliedElsewhere(entries, s, provided, t);
    }
  }

  /** STREAM is always taken from the file unless provided, false included. */
  lemma StreamAlwaysApplied(entries: map<string, string>, s: Settings, provided: map<string, bool>)
    requires !IsProvided(provided, "STREAM")
    ensures "STREAM" in Applied(entries, s, provided)
    ensures Applied(entries, s, provided)["STREAM"] == FormatBool(s.stream)
  {
    assert KeyText(Stream) == "STREAM";
    assert StoredText(s, Stream) == Some(FormatBool(s.stream));
    AppliedAt(entries, s, provided, Stream);
  }

  /** A zero value stored in the file overrides nothing. */
  lemma ZeroValueKept(entries: map<string, string>, s: Settings, provided: map<string, bool>, k: Key)
    requires k != Stream
    requires match k
      case Model => s.model == ""
      case Temperature => Value(s.temperature) == 0.0
      case TopP => Value(s.topP) == 0.0
      case FrequencyPenalty => Value(s.frequencyPenalty) == 0.0
      case PresencePenalty => Value(s.presencePenalty) == 0.0
      case MaxTokens => s.maxTokens == 0
      case ReasoningEffort => s.reasoningEffort == ""
      case Stop => s.stop == ""
      case _ => s.historyLimit == 0
    ensures Get(Applied(entries, s, provided), KeyText(k)) == Get(entries, KeyText(k))
  {
    AppliedAt(entries, s, provided, k);
  }

  /** Persisting and then applying with nothing provided gives back a non-empty model, reasoning effort or stop. */
  lemma PersistThenApplyText(cfg: map<string, string>, entries: map<string, string>, k: Key)
    requires k == Model || k == ReasoningEffort || k == Stop
    requires Get(cfg, KeyText(k)) != ""
    ensures Get(Applied(entries, BuildSettings(cfg), map[]), KeyText(k)) == Get(cfg, KeyText(k))
  {
    AppliedAt(entries, BuildSettings(cfg), map[], k);
  }

  /**
   * ... and the stream flag, unless given on the command line: "true" when
   * it was "true", otherwise "false".
   */
  lemma PersistThenApplyStream(cfg: map<string, string>, entries: map<string, string>, provided: map<string, bool>)
    requires !IsProvided(provided, "STREAM")
    ensures var m := Applied(entries, BuildSettings(cfg), provided);
      "STREAM" in m && m["STREAM"] == FormatBool(Get(cfg, "STREAM") == "true")
  {
    var s := BuildSettings(cfg);
    StreamAlwaysApplied(entries, s, provided);
    assert s.stream == (Get(cfg, "STREAM") == "true");
  }

  /** ... and max_tokens and the history limit when they parse to a non-zero int. */
  lemma PersistThenApplyInt(cfg: map<string, string>, entries: map<string, string>, k: Key)
    requires k == MaxTokens || k == HistoryLimit
    requires Atoi(Get(cfg, KeyText(k))).Some? && Atoi(Get(cfg, KeyText(k))).value != 0
    ensures Atoi(Get(Applied(entries, BuildSettings(cfg), map[]), KeyText(k))) == Atoi(Get(cfg, KeyText(k)))
  {
    var s := BuildSettings(cfg);
    AppliedAt(entries, s, map[], k);
    if k == MaxTokens {
      AtoiItoa(s.maxTokens);
    } else {
      AtoiItoa(s.historyLimit);
    }
  }

  // ---------------------------------------------------------------------
  // validateNumericRanges
  // ---------------------------------------------------------------------

  /** The first check validateNumericRanges finds failing, with the offending text. */
  datatype RangeError =
    | BadTemperature(value: string)
    | BadTopP(value: string)
    | BadFrequencyPenalty(value: string)
    | BadPresencePenalty(value: string)
    | BadMaxTokens(value: string)
    | BadReasoningEffort(value: string)
    | BadStream(value: string)

  /** The text parses as a float64 within [lo, hi]. */
  predicate FloatWithin(s: string, lo: real, hi: real) {
    ParseFloat(s).Some? && lo <= Value(ParseFloat(s).value) <= hi
  }

  /** The text parses as an int within [1, 4096]. */
  predicate MaxTokensWithin(s: string) {
    Atoi(s).Some? && 1 <= Atoi(s).value <= 4096
  }

  predicate ReasoningKnown(s: string) {
    s == "low" || s == "medium" || s == "high"
  }

  predicate StreamKnown(s: string) {
    s == "true" || s == "false"
  }

  /** The seven texts validateNumericRanges reads. */
  datatype CheckedTexts = CheckedTexts(
    temperature: string, topP: string, frequencyPenalty: string, presencePenalty: string,
    maxTokens: string, reasoningEffort: string, stream: string)

  function Checked(cfg: map<string, string>): CheckedTexts {
    CheckedTexts(Get(cfg, "TEMPERATURE"), Get(cfg, "TOP_P"), Get(cfg, "FREQUENCY_PENALTY"),
      Get(cfg, "PRESENCE_PENALTY"), Get(cfg, "MAX_TOKENS"), Get(cfg, "REASONING_EFFORT"), Get(cfg, "STREAM"))
  }

  /** The checks in the code's order; the first that fails is reported. */
  function FirstFailure(t: CheckedTexts): Option<RangeError> {
    if !FloatWithin(t.temperature, 0.0, 1.0) then Some(BadTemperature(t.temperature))
    else if !FloatWithin(t.topP, 0.01, 1.0) then Some(BadTopP(t.topP))
    else if !FloatWithin(t.frequencyPenalty, -2.0, 2.0) then Some(BadFrequencyPenalty(t.frequencyPenalty))
    else if !FloatWithin(t.presencePenalty, -2.0, 2.0) then Some(BadPresencePenalty(t.presencePenalty))
    else if !MaxTokensWithin(t.maxTokens) then Some(BadMaxTokens(t.maxTokens))
    else if !ReasoningKnown(t.reasoningEffort) then Some(BadReasoningEffort(t.reasoningEffort))
    else if !StreamKnown(t.stream) then Some(BadStream(t.stream))
    else None
  }

  /** The reported check fails on the reported text, which is the text that check reads. */
  predicate Reports(t: CheckedTexts, e: RangeError) {
    match e
    case BadTemperature(v) => v == t.temperature && !FloatWithin(v, 0.0, 1.0)
    case BadTopP(v) => v == t.topP && !FloatWithin(v, 0.01, 1.0)
    case BadFrequencyPenalty(v) => v == t.frequencyPenalty && !FloatWithin(v, -2.0, 2.0)
    case BadPresencePenalty(v) => v == t.presencePenalty && !FloatWithin(v, -2.0, 2.0)
    case BadMaxTokens(v) => v == t.maxTokens && !MaxTokensWithin(v)
    case BadReasoningEffort(v) => v == t.reasoningEffort && !ReasoningKnown(v)
    case BadStream(v) => v == t.stream && !StreamKnown(v)
  }

  lemma FirstFailureReports(t: CheckedTexts)
    ensures FirstFailure(t).Some? ==> Reports(t, FirstFailure(t).value)
  {
    var a := FloatWithin(t.temperature, 0.0, 1.0);
    var b := FloatWithin(t.topP, 0.01, 1.0);
    var c := FloatWithin(t.frequencyPenalty, -2.0, 2.0);
    var d := FloatWithin(t.presencePenalty, -2.0, 2.0);
    var e := MaxTokensWithin(t.maxTokens);
    if !a {
      assert FirstFailure(t) == Some(BadTemperature(t.temperature));
    } else if !b {
      assert FirstFailure(t) == Some(BadTopP(t.topP));
    } else if !c {
      assert FirstFailure(t) == Some(BadFrequencyPenalty(t.frequencyPenalty));
    } else if !d {
      assert FirstFailure(t) == Some(BadPresencePenalty(t.presencePenalty));
    } else if !e {
      assert FirstFailure(t) == Some(BadMaxTokens(t.maxTokens));
    }
  }

  /**
   * validateNumericRanges: None when the configuration passes (ValidExactly
   * says when); otherwise a check that fails, with the offending text.
   */
  function ValidateNumericRanges(cfg: map<string, string>): (r: Option<RangeError>)
    ensures r.Some? ==> Reports(Checked(cfg), r.value)
  {
    FirstFailureReports(Checked(cfg));
    FirstFailure(Checked(cfg))
  }

  /** The configuration passes the check. */
  predicate Valid(cfg: map<string, string>) {
    ValidateNumericRanges(cfg).None?
  }

  /** A configuration passes exactly when every range, option and flag check passes. */
  lemma ValidExactly(cfg: map<string, string>)
    ensures Valid(cfg) <==>
      FloatWithin(Get(cfg, "TEMPERATURE"), 0.0, 1.0) && FloatWithin(Get(cfg, "TOP_P"), 0.01, 1.0)
      && FloatWithin(Get(cfg, "FREQUENCY_PENALTY"), -2.0, 2.0) && FloatWithin(Get(cfg, "PRESENCE_PENALTY"), -2.0, 2.0)
      && MaxTokensWithin(Get(cfg, "MAX_TOKENS")) && ReasoningKnown(Get(cfg, "REASONING_EFFORT"))
      && StreamKnown(Get(cfg, "STREAM"))
  {
  }

  /** The keys validateNumericRanges reads. */
  predicate IsCheckedKey(k: string) {
    (|k| == 11 && k == "TEMPERATURE") || (|k| == 5 && k == "TOP_P") || (|k| == 17 && k == "FREQUENCY_PENALTY")
    || (|k| == 16 && k == "PRESENCE_PENALTY") || (|k| == 10 && k == "MAX_TOKENS")
    || (|k| == 16 && k == "REASONING_EFFORT") || (|k| == 6 && k == "STREAM")
  }

  /** A reported failure means every check before it passed. */
  lemma EarlierChecksPassed(cfg: map<string, string>)
    ensures var r := ValidateNumericRanges(cfg); var t := Checked(cfg);
      (r.Some? && !r.value.BadTemperature? ==> FloatWithin(t.temperature, 0.0, 1.0))
      && (r.Some? && !r.value.BadTemperature? && !r.value.BadTopP? ==> FloatWithin(t.topP, 0.01, 1.0))
      && (r.Some? && (r.value.BadMaxTokens? || r.value.BadReasoningEffort? || r.value.BadStream?) ==>
            FloatWithin(t.frequencyPenalty, -2.0, 2.0) && FloatWithin(t.presencePenalty, -2.0, 2.0))
      && (r.Some? && (r.value.BadReasoningEffort? || r.value.BadStream?) ==> MaxTokensWithin(t.maxTokens))
      && (r.Some? && r.value.BadStream? ==> ReasoningKnown(t.reasoningEffort))
  {
  }

  /** Changing a key the check does not read (HISTORY_LIMIT, MODEL, STOP, ...) changes nothing in its verdict. */
  lemma UncheckedKeyIgnored(cfg: map<string, string>, k: string, v: string)
    requires !IsCheckedKey(k)
    ensures ValidateNumericRanges(cfg[k := v]) == ValidateNumericRanges(cfg)
  {
    assert Checked(cfg[k := v]) == Checked(cfg);
  }

  /** In particular the history limit is never inspected. */
  lemma HistoryLimitNeverInspected(cfg: map<string, string>, v: string)
    ensures ValidateNumericRanges(cfg["HISTORY_LIMIT" := v]) == ValidateNumericRanges(cfg)
  {
    UncheckedKeyIgnored(cfg, "HISTORY_LIMIT", v);
  }
}
