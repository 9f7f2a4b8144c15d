/**
 * The src/ copy's request payload (src/api/payload.go): buildPayload reads a
 * fixed set of keys from the configuration and sends them under fixed JSON
 * names, parsing the numbers with the errors ignored. The payload is kept as
 * a record; Encode gives the JSON object json.Marshal is handed.
 */
module SrcPayload {
  import opened Wrappers
  import opened GoStrconv
  import opened Json
  import opened ConfigMap
  import opened SrcSettings

  /** The values buildPayload puts in its map; stop only when cfg's STOP is non-empty. */
  datatype Payload = Payload(
    model: string,
    messages: seq<Message>,
    temperature: Decimal,
    topP: Decimal,
    frequencyPenalty: Decimal,
    presencePenalty: Decimal,
    maxTokens: int,
    stream: bool,
    reasoningEffort: string,
    stop: Option<string>)

  /** strconv.ParseFloat with its error ignored: 0 for a text that does not parse. */
  function FloatOrZero(s: string): (d: Decimal)
    ensures ParseFloat(s).Some? ==> d == ParseFloat(s).value
    ensures ParseFloat(s).None? ==> Value(d) == 0.0
  {
    ParseFloatOr(s, FromInt(0))
  }

  /** buildPayload, before json.Marshal. */
  function BuildPayload(cfg: map<string, string>, messages: seq<Message>): (p: Payload)
    ensures Encode(p).Keys == FixedKeys() + (if Get(cfg, "STOP") != "" then {"stop"} else {})
    ensures p.model == Get(cfg, "MODEL") && p.messages == messages
    ensures p.stream <==> Get(cfg, "STREAM") == "true"
    ensures p.stop.Some? ==> p.stop.value == Get(cfg, "STOP")
  {
    Payload(
      Get(cfg, "MODEL"),
      messages,
      FloatOrZero(Get(cfg, "TEMPERATURE")),
      FloatOrZero(Get(cfg, "TOP_P")),
      FloatOrZero(Get(cfg, "FREQUENCY_PENALTY")),
      FloatOrZero(Get(cfg, "PRESENCE_PENALTY")),
      AtoiIgnoringError(Get(cfg, "MAX_TOKENS")),
      Get(cfg, "STREAM") == "true",
      Get(cfg, "REASONING_EFFORT"),
      if Get(cfg, "STOP") != "" then Some(Get(cfg, "STOP")) else None)
  }

  /** The nine keys every payload has. */
  function FixedKeys(): set<string> {
    {"model", "messages", "temperature", "top_p", "frequency_penalty", "presence_penalty",
     "max_tokens", "stream", "reasoning_effort"}
  }

  /** The JSON object the payload map marshals as. */
  function Encode(p: Payload): (o: Object)
    ensures o.Keys == FixedKeys() + (if p.stop.Some? then {"stop"} else {})
  {
    var base := map[
      "model" := JString(p.model),
      "messages" := MessagesJson(p.messages),
      "temperature" := JNumber(p.temperature),
      "top_p" := JNumber(p.topP),
      "frequency_penalty" := JNumber(p.frequencyPenalty),
      "presence_penalty" := JNumber(p.presencePenalty),
      "max_tokens" := JNumber(FromInt(p.maxTokens)),
      "stream" := JBool(p.stream),
      "reasoning_effort" := JString(p.reasoningEffort)];
    if p.stop.Some? then base["stop" := JString(p.stop.value)] else base
  }

  /** "stop" is sent exactly when cfg's STOP is non-empty, and then as that text. */
  lemma StopSentIffSet(cfg: map<string, string>, messages: seq<Message>)
    ensures var o := Encode(BuildPayload(cfg, messages));
      ("stop" in o <==> Get(cfg, "STOP") != "")
      && ("stop" in o ==> o["stop"] == JString(Get(cfg, "STOP")))
  {
    var p := BuildPayload(cfg, messages);
    assert "stop" !in FixedKeys();
  }

  /**
   * Numbers that do not parse are sent as 0; an integer out of int64 range
   * is sent as the nearest bound; "stream" is true only for the text "true".
   */
  lemma UnparseableSentAsZero(cfg: map<string, string>, messages: seq<Message>)
    ensures var p := BuildPayload(cfg, messages);
      (ParseFloat(Get(cfg, "TEMPERATURE")).None? ==> Value(p.temperature) == 0.0)
      && (ParseFloat(Get(cfg, "TOP_P")).None? ==> Value(p.topP) == 0.0)
      && (ParseFloat(Get(cfg, "FREQUENCY_PENALTY")).None? ==> Value(p.frequencyPenalty) == 0.0)
      && (ParseFloat(Get(cfg, "PRESENCE_PENALTY")).None? ==> Value(p.presencePenalty) == 0.0)
      && (AtoiValue(Get(cfg, "MAX_TOKENS")).None? ==> p.maxTokens == 0)
      && (AtoiValue(Get(cfg, "MAX_TOKENS")).Some? && AtoiValue(Get(cfg, "MAX_TOKENS")).value > MaxInt64 ==>
            p.maxTokens == MaxInt64)
      && (p.stream <==> Get(cfg, "STREAM") == "true")
  {
  }

  /**
   * A configuration that passes validateNumericRanges is sent with every
   * number in its range, a known reasoning effort, and the stream flag as
   * the text says.
   */
  lemma ValidatedPayload(cfg: map<string, string>, messages: seq<Message>)
    requires Valid(cfg)
    ensures var p := BuildPayload(cfg, messages);
      0.0 <= Value(p.temperature) <= 1.0 && 0.01 <= Value(p.topP) <= 1.0
      && -2.0 <= Value(p.frequencyPenalty) <= 2.0 && -2.0 <= Value(p.presencePenalty) <= 2.0
      && 1 <= p.maxTokens <= 4096
      && (p.reasoningEffort == "low" || p.reasoningEffort == "medium" || p.reasoningEffort == "high")
      && (p.stream <==> Get(cfg, "STREAM") == "true") && (!p.stream ==> Get(cfg, "STREAM") == "false")
  {
    ValidExactly(cfg);
  }
}
