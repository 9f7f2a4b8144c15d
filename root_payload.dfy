/**
 * The root program's request payload: `buildPayload` projects the string
 * session configuration through the model's parameter schema, and
 * `processMessage` assembles the outgoing message list.
 */
module RootPayload {
  import opened Wrappers
  import opened GoText
  import opened GoStrconv
  import opened Json
  import opened ModelNames
  import opened Models
  import opened ConfigMap

  /**
   * The keys buildPayload can write: the three fixed keys, a parameter's
   * APIKey (always a parameter name, see Models.ParamSound), and
   * "chat_template_kwargs". KeyText is the JSON key each one is sent under.
   */
  datatype PayloadKey = ModelKey | MessagesKey | StreamKey | ParamKey(n: ParamName) | KwargsKey

  function KeyText(k: PayloadKey): string {
    match k
    case ModelKey => "model"
    case MessagesKey => "messages"
    case StreamKey => "stream"
    case ParamKey(n) => NameOf(n)
    case KwargsKey => "chat_template_kwargs"
  }

  type Payload = map<PayloadKey, JsonValue>

  /** Distinct keys are sent under distinct JSON keys, so the payload map loses nothing. */
  lemma KeyTextInjective(a: PayloadKey, b: PayloadKey)
    requires KeyText(a) == KeyText(b)
    ensures a == b
  {
    if a.ParamKey? && b.ParamKey? {
      NameOfInjective(a.n, b.n);
    } else if a.ParamKey? {
      assert false;
    } else if b.ParamKey? {
      assert false;
    } else {
      assert |KeyText(a)| == |KeyText(b)|;
    }
  }

  /**
   * The cfg text of a parameter converted to its declared type, independent of
   * the special cases: None when it does not parse.
   */
  function Converted(t: ParamType, s: string): Option<JsonValue> {
    match t
    case Float => if ParseFloat(s).Some? then Some(JNumber(ParseFloat(s).value)) else None
    case Int => if Atoi(s).Some? then Some(JNumber(FromInt(Atoi(s).value))) else None
    case String => Some(JString(s))
    case StringA => Some(JString(s))
    case Bool => if ParseBool(s).Some? then Some(JBool(ParseBool(s).value)) else None
  }

  /**
   * The value the payload switch sends for parameter n declared as p with cfg
   * text s, or None when it skips it: a value that does not parse, an empty
   * stop, or seed 0 unless the model is deepseek-v3.1 (deepseek).
   */
  function Sent(n: ParamName, p: ModelParameter, s: string, deepseek: bool): Option<JsonValue> {
    match p.ptype
    case Float => if ParseFloat(s).Some? then Some(JNumber(ParseFloat(s).value)) else None
    case Int =>
      if Atoi(s).None? then None
      else if n == Seed && Atoi(s).value == 0 && !deepseek then None
      else Some(JNumber(FromInt(Atoi(s).value)))
    case String => if n == StopSeq && s == "" then None else Some(JString(s))
    case StringA => if n == StopSeq && s == "" then None else Some(JString(s))
    case Bool => if ParseBool(s).Some? then Some(JBool(ParseBool(s).value)) else None
  }

  /**
   * What is sent is the converted value, and it is skipped exactly when the
   * value does not convert, is an empty stop, or is a zero seed outside
   * deepseek-v3.1.
   */
  lemma SentIsConverted(n: ParamName, p: ModelParameter, s: string, deepseek: bool)
    ensures var r := Sent(n, p, s, deepseek);
      (r.Some? ==> r == Converted(p.ptype, s))
      && (r.None? <==> Converted(p.ptype, s).None?
                       || ((p.ptype == String || p.ptype == StringA) && n == StopSeq && s == "")
                       || (p.ptype == Int && n == Seed && Atoi(s) == Some(0) && !deepseek))
  {
  }

  /** What one schema entry contributes: nothing without an APIKey or a cfg value under its upper-cased name. */
  function Contribution(ps: map<ParamName, ModelParameter>, n: ParamName, cfg: map<string, string>, deepseek: bool): Option<JsonValue>
    requires n in ps
  {
    if ps[n].apiKey.None? || CfgKey(n) !in cfg then None
    else Sent(n, ps[n], cfg[CfgKey(n)], deepseek)
  }

  /** What every schema entry contributes, by parameter. */
  function Contributions(ps: map<ParamName, ModelParameter>, cfg: map<string, string>, deepseek: bool): (m: map<ParamName, JsonValue>)
  {
    map n | n in ps && Contribution(ps, n, cfg, deepseek).Some? :: Contribution(ps, n, cfg, deepseek).value
  }

  /** The payload entries the schema loop has written after visiting the names in done. */
  function Entries(contribs: map<ParamName, JsonValue>, done: set<ParamName>): (m: Payload)
  {
    map n | n in done && n in contribs :: ParamKey(n) := contribs[n]
  }

  /** The fixed part of every payload. */
  function BasePayload(cfg: map<string, string>, messages: seq<Message>): Payload {
    map[ModelKey := JString(Get(cfg, "MODEL")),
        MessagesKey := MessagesJson(messages),
        StreamKey := JBool(Get(cfg, "STREAM") == "true")]
  }

  lemma BaseHasNoParams(cfg: map<string, string>, messages: seq<Message>)
    ensures forall k | k in BasePayload(cfg, messages) :: !k.ParamKey?
  {
  }

  /** The kwargs entry, when the model asks for it and THINKING parses. */
  function WithKwargs(payload: Payload, def: ModelDefinition, cfg: map<string, string>): Payload {
    if def.chatTemplateKwargsThinking && ParseBool(Get(cfg, "THINKING")).Some? then
      payload[KwargsKey := JObject(map["thinking" := JBool(ParseBool(Get(cfg, "THINKING")).value)])]
    else payload
  }

  /** deepseek-v3.1 always sends a seed: nil when none was written. */
  function WithSeedKey(payload: Payload, deepseek: bool): Payload {
    if deepseek && ParamKey(Seed) !in payload then payload[ParamKey(Seed) := JNull]
    else payload
  }

  /** The fixed keys and the schema entries, before the special keys. */
  function Inner(def: ModelDefinition, deepseek: bool, cfg: map<string, string>, messages: seq<Message>): Payload {
    BasePayload(cfg, messages) + Entries(Contributions(def.parameters, cfg, deepseek), def.parameters.Keys)
  }

  /** The payload for definition def, deepseek telling whether the model is deepseek-v3.1. */
  function Assemble(def: ModelDefinition, deepseek: bool, cfg: map<string, string>, messages: seq<Message>): Payload {
    WithSeedKey(WithKwargs(Inner(def, deepseek, cfg, messages), def, cfg), deepseek)
  }

  /** The payload buildPayload marshals. */
  function PayloadSpec(cfg: map<string, string>, messages: seq<Message>): Payload {
    var modelName := Get(cfg, "MODEL");
    Assemble(GetModelDefinition(modelName), modelName == ModelName(DeepseekV31), cfg, messages)
  }

  lemma UnionUpdate(base: Payload, entries: Payload, k: PayloadKey, v: JsonValue)
    requires k !in base
    ensures (base + entries)[k := v] == base + entries[k := v]
  {
  }

  lemma EntriesEmpty(contribs: map<ParamName, JsonValue>)
    ensures Entries(contribs, {}) == map[]
  {
  }

  lemma EntriesAdd(contribs: map<ParamName, JsonValue>, done: set<ParamName>, n: ParamName)
    ensures n !in contribs ==> Entries(contribs, done + {n}) == Entries(contribs, done)
    ensures n in contribs ==> Entries(contribs, done + {n}) == Entries(contribs, done)[ParamKey(n) := contribs[n]]
  {
    var after := Entries(contribs, done + {n});
    var expected := if n in contribs then Entries(contribs, done)[ParamKey(n) := contribs[n]] else Entries(contribs, done);
    assert after.Keys == expected.Keys;
  }

  /**
   * One iteration of the schema loop in buildPayload: skip an entry without an
   * APIKey or without a cfg value, else convert the value by the declared type
   * and write it under the APIKey unless the switch skips it.
   */
  method WriteParam(payload: Payload, key: ParamName, paramDef: ModelParameter, cfg: map<string, string>, modelName: string)
    returns (out: Payload)
    requires paramDef.apiKey.None? || paramDef.apiKey == Some(key)
    ensures var c := Contribution(map[key := paramDef], key, cfg, modelName == ModelName(DeepseekV31));
            out == if c.Some? then payload[ParamKey(key) := c.value] else payload
  {
    out := payload;
    if paramDef.apiKey.None? {
      return;
    }
    var configKey := ToUpper(NameOf(key));
    if configKey !in cfg {
      return;
    }
    var valStr := cfg[configKey];
    match paramDef.ptype {
      case Float =>
        var val := ParseFloat(valStr);
        if val.Some? {
          out := payload[ParamKey(paramDef.apiKey.value) := JNumber(val.value)];
        }
      case Int =>
        var val := Atoi(valStr);
        if val.Some? {
          if key == Seed && val.value == 0 && modelName != ModelName(DeepseekV31) {
            return;
          }
          out := payload[ParamKey(paramDef.apiKey.value) := JNumber(FromInt(val.value))];
        }
      case String =>
        if key == StopSeq && valStr == "" {
          return;
        }
        out := payload[ParamKey(paramDef.apiKey.value) := JString(valStr)];
      case StringA =>
        if key == StopSeq && valStr == "" {
          return;
        }
        out := payload[ParamKey(paramDef.apiKey.value) := JString(valStr)];
      case Bool =>
        var val := ParseBool(valStr);
        if val.Some? {
          out := payload[ParamKey(paramDef.apiKey.value) := JBool(val.value)];
        }
    }
  }

  /**
   * The schema loop of buildPayload: every entry of ps is visited once, in an
   * arbitrary order (Go's map iteration), each adding its contribution.
   */
  method FillParams(payload0: Payload, ps: map<ParamName, ModelParameter>, cfg: map<string, string>, modelName: string)
    returns (payload: Payload)
    requires KeyedByName(ps)
    requires forall k | k in payload0 :: !k.ParamKey?
    ensures payload == payload0 + Entries(Contributions(ps, cfg, modelName == ModelName(DeepseekV31)), ps.Keys)
  {
    payload := payload0;
    ghost var contribs := Contributions(ps, cfg, modelName == ModelName(DeepseekV31));
    var remaining := ps.Keys;
    assert ps.Keys - remaining == {};
    EntriesEmpty(contribs);
    while remaining != {}
      invariant remaining <= ps.Keys
      invariant payload == payload0 + Entries(contribs, ps.Keys - remaining)
      decreases remaining
    {
      var key :| key in remaining;
      ghost var done := ps.Keys - remaining;
      remaining := remaining - {key};
      assert ps.Keys - remaining == done + {key};
      EntriesAdd(contribs, done, key);
      payload := WriteParam(payload, key, ps[key], cfg, modelName);
      if key in contribs {
        UnionUpdate(payload0, Entries(contribs, done), ParamKey(key), contribs[key]);
      }
    }
    assert ps.Keys - remaining == ps.Keys;
  }

  /**
   * The special payload structures added after the schema loop: the kwargs
   * object, then deepseek-v3.1's nil seed.
   */
  method AddSpecialKeys(filled: Payload, def: ModelDefinition, cfg: map<string, string>, modelName: string)
    returns (payload: Payload)
    ensures payload == WithSeedKey(WithKwargs(filled, def, cfg), modelName == ModelName(DeepseekV31))
  {
    payload := filled;
    if def.chatTemplateKwargsThinking {
      var thinking := ParseBool(Get(cfg, "THINKING"));
      if thinking.Some? {
        payload := payload[KwargsKey := JObject(map["thinking" := JBool(thinking.value)])];
      }
    }
    if modelName == ModelName(DeepseekV31) {
      if ParamKey(Seed) !in payload {
        payload := payload[ParamKey(Seed) := JNull];
      }
    }
  }

  /**
   * buildPayload (before marshalling): the fixed keys, then the schema loop,
   * then the special keys.
   */
  method BuildPayload(cfg: map<string, string>, messages: seq<Message>) returns (payload: Payload)
    ensures payload == PayloadSpec(cfg, messages)
  {
    var modelName := Get(cfg, "MODEL");
    var def := GetModelDefinition(modelName);
    DefinitionKeyed(modelName);
    payload := BasePayload(cfg, messages);
    BaseHasNoParams(cfg, messages);
    payload := FillParams(payload, def.parameters, cfg, modelName);
    payload := AddSpecialKeys(payload, def, cfg, modelName);
  }

  // ---------------------------------------------------------------------
  // What the payload promises
  // ---------------------------------------------------------------------

  /** The kwargs step only ever writes the kwargs key. */
  lemma KwargsKeeps(payload: Payload, def: ModelDefinition, cfg: map<string, string>, k: PayloadKey)
    requires k != KwargsKey
    ensures var p := WithKwargs(payload, def, cfg);
      (k in p <==> k in payload) && (k in p ==> p[k] == payload[k])
  {
  }

  /** The seed step only ever writes the seed key. */
  lemma SeedKeyKeeps(payload: Payload, deepseek: bool, k: PayloadKey)
    requires k != ParamKey(Seed)
    ensures var p := WithSeedKey(payload, deepseek);
      (k in p <==> k in payload) && (k in p ==> p[k] == payload[k])
  {
  }

  /** The schema entries hold exactly the contributed parameters, under their own keys. */
  lemma EntriesKey(contribs: map<ParamName, JsonValue>, done: set<ParamName>, k: PayloadKey)
    ensures var m := Entries(contribs, done);
      (k in m <==> k.ParamKey? && k.n in done && k.n in contribs) && (k in m ==> m[k] == contribs[k.n])
  {
  }

  /** The special keys never touch the fixed keys or a parameter other than seed. */
  lemma AssembleKeeps(def: ModelDefinition, deepseek: bool, cfg: map<string, string>, messages: seq<Message>, k: PayloadKey)
    requires k != KwargsKey && k != ParamKey(Seed)
    ensures var inner := Inner(def, deepseek, cfg, messages);
      var p := Assemble(def, deepseek, cfg, messages);
      (k in p <==> k in inner) && (k in p ==> p[k] == inner[k])
  {
    var inner := Inner(def, deepseek, cfg, messages);
    KwargsKeeps(inner, def, cfg, k);
    SeedKeyKeeps(WithKwargs(inner, def, cfg), deepseek, k);
  }

  /** Every payload has model, messages and stream; stream is true iff cfg STREAM is "true". */
  lemma AssembleFixed(def: ModelDefinition, deepseek: bool, cfg: map<string, string>, messages: seq<Message>)
    ensures var p := Assemble(def, deepseek, cfg, messages);
      ModelKey in p && MessagesKey in p && StreamKey in p
      && p[ModelKey] == JString(Get(cfg, "MODEL"))
      && p[MessagesKey] == MessagesJson(messages)
      && p[StreamKey] == JBool(Get(cfg, "STREAM") == "true")
  {
    var contribs := Contributions(def.parameters, cfg, deepseek);
    EntriesKey(contribs, def.parameters.Keys, ModelKey);
    EntriesKey(contribs, def.parameters.Keys, MessagesKey);
    EntriesKey(contribs, def.parameters.Keys, StreamKey);
    AssembleKeeps(def, deepseek, cfg, messages, ModelKey);
    AssembleKeeps(def, deepseek, cfg, messages, MessagesKey);
    AssembleKeeps(def, deepseek, cfg, messages, StreamKey);
  }

  /** A parameter key, other than deepseek's seed, is present exactly with its contribution. */
  lemma AssembleParam(def: ModelDefinition, deepseek: bool, cfg: map<string, string>, messages: seq<Message>, n: ParamName)
    requires !(deepseek && n == Seed)
    ensures var contribs := Contributions(def.parameters, cfg, deepseek);
      var p := Assemble(def, deepseek, cfg, messages);
      (ParamKey(n) in p <==> n in contribs) && (n in contribs ==> p[ParamKey(n)] == contribs[n])
  {
    var contribs := Contributions(def.parameters, cfg, deepseek);
    var inner := Inner(def, deepseek, cfg, messages);
    EntriesKey(contribs, def.parameters.Keys, ParamKey(n));
    KwargsKeeps(inner, def, cfg, ParamKey(n));
    if n != Seed {
      SeedKeyKeeps(WithKwargs(inner, def, cfg), deepseek, ParamKey(n));
    }
  }

  /** With deepseek set, a seed is always present: the contributed one, else nil. */
  lemma AssembleSeed(def: ModelDefinition, cfg: map<string, string>, messages: seq<Message>)
    ensures var contribs := Contributions(def.parameters, cfg, true);
      var p := Assemble(def, true, cfg, messages);
      ParamKey(Seed) in p && p[ParamKey(Seed)] == (if Seed in contribs then contribs[Seed] else JNull)
  {
    var contribs := Contributions(def.parameters, cfg, true);
    var inner := Inner(def, true, cfg, messages);
    EntriesKey(contribs, def.parameters.Keys, ParamKey(Seed));
    KwargsKeeps(inner, def, cfg, ParamKey(Seed));
  }

  /** The kwargs key is present iff the definition asks for it and THINKING parses. */
  lemma AssembleKwargs(def: ModelDefinition, deepseek: bool, cfg: map<string, string>, messages: seq<Message>)
    ensures var p := Assemble(def, deepseek, cfg, messages);
      var thinking := ParseBool(Get(cfg, "THINKING"));
      (KwargsKey in p <==> def.chatTemplateKwargsThinking && thinking.Some?)
      && (KwargsKey in p ==> p[KwargsKey] == JObject(map["thinking" := JBool(thinking.value)]))
  {
    var contribs := Contributions(def.parameters, cfg, deepseek);
    var inner := Inner(def, deepseek, cfg, messages);
    EntriesKey(contribs, def.parameters.Keys, KwargsKey);
    SeedKeyKeeps(WithKwargs(inner, def, cfg), deepseek, KwargsKey);
  }

  /**
   * What a sound schema entry contributes: it is sent iff it has an APIKey
   * (it is not the thinking switch), cfg holds a value under its upper-cased
   * name, the value converts to the declared type, and it is neither an empty
   * stop nor a zero seed of a model other than deepseek-v3.1.
   */
  lemma ContributionOf(ps: map<ParamName, ModelParameter>, n: ParamName, cfg: map<string, string>, deepseek: bool)
    requires n in ps ==> ps[n].apiKey == (if n == Thinking then None else Some(n))
    requires n == StopSeq && n in ps ==> ps[n].ptype == StringA
    requires n == Seed && n in ps ==> ps[n].ptype == Int
    ensures var contribs := Contributions(ps, cfg, deepseek);
      var sent := n in ps && n != Thinking && CfgKey(n) in cfg
        && Converted(ps[n].ptype, cfg[CfgKey(n)]).Some?
        && !(n == StopSeq && cfg[CfgKey(n)] == "")
        && !(n == Seed && !deepseek && Atoi(cfg[CfgKey(n)]) == Some(0));
      (n in contribs <==> sent) && (sent ==> contribs[n] == Converted(ps[n].ptype, cfg[CfgKey(n)]).value)
  {
    if n in ps && CfgKey(n) in cfg {
      SentIsConverted(n, ps[n], cfg[CfgKey(n)], deepseek);
    }
  }

  /** A string parameter with an APIKey is sent verbatim whenever cfg has it, unless it is an empty stop. */
  lemma StringContribution(ps: map<ParamName, ModelParameter>, n: ParamName, cfg: map<string, string>, deepseek: bool)
    requires n in ps && ps[n].apiKey == Some(n) && (ps[n].ptype == String || ps[n].ptype == StringA)
    ensures var contribs := Contributions(ps, cfg, deepseek);
      (n in contribs <==> CfgKey(n) in cfg && !(n == StopSeq && cfg[CfgKey(n)] == ""))
      && (n in contribs ==> contribs[n] == JString(cfg[CfgKey(n)]))
  {
  }

  /** Every payload has model, messages and stream; stream is true iff cfg STREAM is "true". */
  lemma PayloadFixedKeys(cfg: map<string, string>, messages: seq<Message>)
    ensures var p := PayloadSpec(cfg, messages);
      ModelKey in p && MessagesKey in p && StreamKey in p
      && p[ModelKey] == JString(Get(cfg, "MODEL"))
      && p[MessagesKey] == MessagesJson(messages)
      && p[StreamKey] == JBool(Get(cfg, "STREAM") == "true")
  {
    var name := Get(cfg, "MODEL");
    AssembleFixed(GetModelDefinition(name), name == ModelName(DeepseekV31), cfg, messages);
  }

  /**
   * Any parameter other than deepseek-v3.1's seed is sent exactly when the
   * model declares it with an APIKey, cfg holds a value under its upper-cased
   * name, the value converts to the declared type, and it is neither an empty
   * stop nor a zero seed; what is sent is the converted value.
   */
  lemma ParamPresence(cfg: map<string, string>, messages: seq<Message>, n: ParamName)
    requires !(n == Seed && Get(cfg, "MODEL") == ModelName(DeepseekV31))
    ensures var ps := GetModelDefinition(Get(cfg, "MODEL")).parameters;
      var p := PayloadSpec(cfg, messages);
      var sent := n in ps && ps[n].apiKey.Some? && CfgKey(n) in cfg
        && Converted(ps[n].ptype, cfg[CfgKey(n)]).Some?
        && !(n == StopSeq && cfg[CfgKey(n)] == "")
        && !(n == Seed && Atoi(cfg[CfgKey(n)]) == Some(0));
      (ParamKey(n) in p <==> sent)
      && (sent ==> p[ParamKey(n)] == Converted(ps[n].ptype, cfg[CfgKey(n)]).value)
  {
    var name := Get(cfg, "MODEL");
    DefinitionKeyed(name);
    DefinitionStop(name);
    DefinitionSeed(name);
    ParamPresenceFor(GetModelDefinition(name), name == ModelName(DeepseekV31), cfg, messages, n);
  }

  /** ParamPresence for any definition whose parameters are keyed by name, with stop a string array and seed an Int. */
  lemma ParamPresenceFor(def: ModelDefinition, deepseek: bool, cfg: map<string, string>, messages: seq<Message>, n: ParamName)
    requires KeyedByName(def.parameters)
    requires StopSeq in def.parameters ==> def.parameters[StopSeq].ptype == StringA
    requires Seed in def.parameters ==> def.parameters[Seed].ptype == Int
    requires !(n == Seed && deepseek)
    ensures var ps := def.parameters;
      var p := Assemble(def, deepseek, cfg, messages);
      var sent := n in ps && ps[n].apiKey.Some? && CfgKey(n) in cfg
        && Converted(ps[n].ptype, cfg[CfgKey(n)]).Some?
        && !(n == StopSeq && cfg[CfgKey(n)] == "")
        && !(n == Seed && Atoi(cfg[CfgKey(n)]) == Some(0));
      (ParamKey(n) in p <==> sent)
      && (sent ==> p[ParamKey(n)] == Converted(ps[n].ptype, cfg[CfgKey(n)]).value)
  {
    AssembleParam(def, deepseek, cfg, messages, n);
    ContributionOf(def.parameters, n, cfg, deepseek);
  }

  /** The thinking switch never reaches the payload under a key of its own. */
  lemma ThinkingNeverSent(cfg: map<string, string>, messages: seq<Message>)
    ensures ParamKey(Thinking) !in PayloadSpec(cfg, messages)
  {
    var name := Get(cfg, "MODEL");
    DefinitionKeyed(name);
    ThinkingNeverSentFor(GetModelDefinition(name), name == ModelName(DeepseekV31), cfg, messages);
  }

  lemma ThinkingNeverSentFor(def: ModelDefinition, deepseek: bool, cfg: map<string, string>, messages: seq<Message>)
    requires KeyedByName(def.parameters)
    ensures ParamKey(Thinking) !in Assemble(def, deepseek, cfg, messages)
  {
    ContributionOf(def.parameters, Thinking, cfg, deepseek);
    AssembleParam(def, deepseek, cfg, messages, Thinking);
  }

  /** stop is sent iff cfg STOP is non-empty, and then it is sent verbatim. */
  lemma StopSent(cfg: map<string, string>, messages: seq<Message>)
    ensures var p := PayloadSpec(cfg, messages);
      (ParamKey(StopSeq) in p <==> Get(cfg, "STOP") != "")
      && (ParamKey(StopSeq) in p ==> p[ParamKey(StopSeq)] == JString(Get(cfg, "STOP")))
  {
    var name := Get(cfg, "MODEL");
    DefinitionStop(name);
    StopSentFor(GetModelDefinition(name), name == ModelName(DeepseekV31), cfg, messages);
  }

  /** StopSent for any definition that declares stop as a string array sent under "stop". */
  lemma StopSentFor(def: ModelDefinition, deepseek: bool, cfg: map<string, string>, messages: seq<Message>)
    requires StopSeq in def.parameters
    requires def.parameters[StopSeq].ptype == StringA && def.parameters[StopSeq].apiKey == Some(StopSeq)
    ensures var p := Assemble(def, deepseek, cfg, messages);
      (ParamKey(StopSeq) in p <==> Get(cfg, "STOP") != "")
      && (ParamKey(StopSeq) in p ==> p[ParamKey(StopSeq)] == JString(Get(cfg, "STOP")))
  {
    SpelledStopSeq();
    StringContribution(def.parameters, StopSeq, cfg, deepseek);
    AssembleParam(def, deepseek, cfg, messages, StopSeq);
  }

  /** A zero seed is left out for every model but deepseek-v3.1. */
  lemma SeedZeroOmitted(cfg: map<string, string>, messages: seq<Message>)
    requires Get(cfg, "MODEL") != ModelName(DeepseekV31)
    requires Atoi(Get(cfg, "SEED")) == Some(0)
    ensures ParamKey(Seed) !in PayloadSpec(cfg, messages)
  {
    var name := Get(cfg, "MODEL");
    var def := GetModelDefinition(name);
    DefinitionSeed(name);
    SpelledSeed();
    ContributionOf(def.parameters, Seed, cfg, false);
    AssembleParam(def, false, cfg, messages, Seed);
  }

  /**
   * deepseek-v3.1's payload always carries a seed: the cfg value when it is an
   * integer (0 included), nil otherwise.
   */
  lemma DeepseekAlwaysSeeded(cfg: map<string, string>, messages: seq<Message>)
    requires Get(cfg, "MODEL") == ModelName(DeepseekV31)
    ensures var p := PayloadSpec(cfg, messages);
      var seed := Atoi(Get(cfg, "SEED"));
      ParamKey(Seed) in p && p[ParamKey(Seed)] == (if seed.Some? then JNumber(FromInt(seed.value)) else JNull)
  {
    var name := Get(cfg, "MODEL");
    var def := GetModelDefinition(name);
    var ps := def.parameters;
    GetModelDefinitionOfKey(DeepseekV31);
    DeepseekDeclaresSeed();
    assert Seed in ps && ps[Seed].ptype == Int && ps[Seed].apiKey == Some(Seed);
    SpelledSeed();
    ContributionOf(ps, Seed, cfg, true);
    assert Seed in Contributions(ps, cfg, true) <==> Atoi(Get(cfg, "SEED")).Some?;
    assert PayloadSpec(cfg, messages) == Assemble(def, true, cfg, messages);
    AssembleSeed(def, cfg, messages);
  }

  /**
   * chat_template_kwargs is sent iff the model is deepseek-v3.1 (the only
   * entry with ChatTemplateKwargsThinking) and THINKING parses as a bool.
   */
  lemma KwargsPresence(cfg: map<string, string>, messages: seq<Message>)
    ensures var p := PayloadSpec(cfg, messages);
      var thinking := ParseBool(Get(cfg, "THINKING"));
      (KwargsKey in p <==> Get(cfg, "MODEL") == ModelName(DeepseekV31) && thinking.Some?)
      && (KwargsKey in p ==> p[KwargsKey] == JObject(map["thinking" := JBool(thinking.value)]))
  {
    var name := Get(cfg, "MODEL");
    SpecialProperties(FindModel(name).GetOr(Others));
    ResolvesToDeepseek(name);
    AssembleKwargs(GetModelDefinition(name), name == ModelName(DeepseekV31), cfg, messages);
  }

  /** The model entry a name resolves to is deepseek-v3.1's exactly when the name is deepseek-v3.1's. */
  lemma ResolvesToDeepseek(name: string)
    ensures FindModel(name).GetOr(Others) == DeepseekV31 <==> name == ModelName(DeepseekV31)
  {
    if name == ModelName(DeepseekV31) {
      FindModelOfKey(DeepseekV31);
    }
  }
}
