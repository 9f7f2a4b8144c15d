/**
 * The names the root program's model table is keyed by: the parameter names
 * and the model names, each a closed enumeration with the string the table
 * spells it with, and the lookups from a user-supplied string.
 */
module ModelNames {
  import opened Wrappers
  import opened GoText

  /** The parameter names the table uses. */
  datatype ParamName =
    | Temperature | TopP | FrequencyPenalty | PresencePenalty | MaxTokens | StopSeq
    | ReasoningEffort | ThinkingBudget | MinThinkingTokens | MaxThinkingTokens | Seed | Thinking

  /** The key under which the table declares a parameter. */
  function NameOf(n: ParamName): string {
    match n
    case Temperature => "temperature"
    case TopP => "top_p"
    case FrequencyPenalty => "frequency_penalty"
    case PresencePenalty => "presence_penalty"
    case MaxTokens => "max_tokens"
    case StopSeq => "stop"
    case ReasoningEffort => "reasoning_effort"
    case ThinkingBudget => "thinking_budget"
    case MinThinkingTokens => "min_thinking_tokens"
    case MaxThinkingTokens => "max_thinking_tokens"
    case Seed => "seed"
    case Thinking => "thinking"
  }

  /** The parameter a name denotes, if the table uses that name at all (lengths compared first, to keep the comparisons cheap). */
  function ParamNamed(name: string): (r: Option<ParamName>)
    ensures r.Some? ==> NameOf(r.value) == name
    ensures r.None? ==> forall n: ParamName :: NameOf(n) != name
  {
    if |name| == 11 && name == "temperature" then Some(Temperature)
    else if |name| == 5 && name == "top_p" then Some(TopP)
    else if |name| == 17 && name == "frequency_penalty" then Some(FrequencyPenalty)
    else if |name| == 16 && name == "presence_penalty" then Some(PresencePenalty)
    else if |name| == 10 && name == "max_tokens" then Some(MaxTokens)
    else if |name| == 4 && name == "stop" then Some(StopSeq)
    else if |name| == 16 && name == "reasoning_effort" then Some(ReasoningEffort)
    else if |name| == 15 && name == "thinking_budget" then Some(ThinkingBudget)
    else if |name| == 19 && name == "min_thinking_tokens" then Some(MinThinkingTokens)
    else if |name| == 19 && name == "max_thinking_tokens" then Some(MaxThinkingTokens)
    else if |name| == 4 && name == "seed" then Some(Seed)
    else if |name| == 8 && name == "thinking" then Some(Thinking)
    else None
  }

  /** Every parameter name is found under its own spelling. */
  lemma ParamNamedOfName(n: ParamName)
    ensures ParamNamed(NameOf(n)) == Some(n)
  {
    match n
    case Temperature =>
    case TopP =>
    case FrequencyPenalty =>
    case PresencePenalty =>
    case MaxTokens =>
    case StopSeq =>
    case ReasoningEffort =>
    case ThinkingBudget =>
    case MinThinkingTokens =>
    case MaxThinkingTokens =>
    case Seed =>
    case Thinking =>
  }

  /** No two parameters share a name. */
  lemma NameOfInjective(a: ParamName, b: ParamName)
    requires NameOf(a) == NameOf(b)
    ensures a == b
  {
    ParamNamedOfName(a);
    ParamNamedOfName(b);
  }

  /** The cfg key of a parameter: its name upper-cased, as strings.ToUpper(key). */
  function CfgKey(n: ParamName): (k: string)
    ensures |k| == |NameOf(n)|
  {
    ToUpper(NameOf(n))
  }

  /** The cfg keys as the rest of the program spells them (cfg["TEMPERATURE"], cfg["SEED"], ...). */
  function CfgKeyLiteral(n: ParamName): string {
    match n
    case Temperature => "TEMPERATURE"
    case TopP => "TOP_P"
    case FrequencyPenalty => "FREQUENCY_PENALTY"
    case PresencePenalty => "PRESENCE_PENALTY"
    case MaxTokens => "MAX_TOKENS"
    case StopSeq => "STOP"
    case ReasoningEffort => "REASONING_EFFORT"
    case ThinkingBudget => "THINKING_BUDGET"
    case MinThinkingTokens => "MIN_THINKING_TOKENS"
    case MaxThinkingTokens => "MAX_THINKING_TOKENS"
    case Seed => "SEED"
    case Thinking => "THINKING"
  }

  /** Upper-casing a schema key gives the literal cfg key the rest of the program reads. */
  lemma CfgKeySpelled(n: ParamName)
    ensures CfgKey(n) == CfgKeyLiteral(n)
  {
    match n
    case Temperature => SpelledTemperature();
    case TopP => SpelledTopP();
    case FrequencyPenalty => SpelledFrequencyPenalty();
    case PresencePenalty => SpelledPresencePenalty();
    case MaxTokens => SpelledMaxTokens();
    case StopSeq => SpelledStopSeq();
    case ReasoningEffort => SpelledReasoningEffort();
    case ThinkingBudget => SpelledThinkingBudget();
    case MinThinkingTokens => SpelledMinThinkingTokens();
    case MaxThinkingTokens => SpelledMaxThinkingTokens();
    case Seed => SpelledSeed();
    case Thinking => SpelledThinking();
  }

  lemma UpperSpelled(s: string, t: string)
    requires |s| == |t| && forall i | 0 <= i < |s| :: t[i] == UpperChar(s[i])
    ensures ToUpper(s) == t
  {
  }

  lemma SpelledTemperature()
    ensures CfgKey(Temperature) == "TEMPERATURE"
  {
    UpperSpelled("temperature", "TEMPERATURE");
  }

  lemma SpelledTopP()
    ensures CfgKey(TopP) == "TOP_P"
  {
    UpperSpelled("top_p", "TOP_P");
  }

  lemma SpelledFrequencyPenalty()
    ensures CfgKey(FrequencyPenalty) == "FREQUENCY_PENALTY"
  {
    UpperSpelled("frequency_penalty", "FREQUENCY_PENALTY");
  }

  lemma SpelledPresencePenalty()
    ensures CfgKey(PresencePenalty) == "PRESENCE_PENALTY"
  {
    UpperSpelled("presence_penalty", "PRESENCE_PENALTY");
  }

  lemma SpelledMaxTokens()
    ensures CfgKey(MaxTokens) == "MAX_TOKENS"
  {
    UpperSpelled("max_tokens", "MAX_TOKENS");
  }

  lemma SpelledStopSeq()
    ensures CfgKey(StopSeq) == "STOP"
  {
    UpperSpelled("stop", "STOP");
  }

  lemma SpelledReasoningEffort()
    ensures CfgKey(ReasoningEffort) == "REASONING_EFFORT"
  {
    UpperSpelled("reasoning_effort", "REASONING_EFFORT");
  }

  lemma SpelledThinkingBudget()
    ensures CfgKey(ThinkingBudget) == "THINKING_BUDGET"
  {
    UpperSpelled("thinking_budget", "THINKING_BUDGET");
  }

  lemma SpelledMinThinkingTokens()
    ensures CfgKey(MinThinkingTokens) == "MIN_THINKING_TOKENS"
  {
    UpperSpelled("min_thinking_tokens", "MIN_THINKING_TOKENS");
  }

  lemma SpelledMaxThinkingTokens()
    ensures CfgKey(MaxThinkingTokens) == "MAX_THINKING_TOKENS"
  {
    UpperSpelled("max_thinking_tokens", "MAX_THINKING_TOKENS");
  }

  lemma SpelledSeed()
    ensures CfgKey(Seed) == "SEED"
  {
    UpperSpelled("seed", "SEED");
  }

  lemma SpelledThinking()
    ensures CfgKey(Thinking) == "THINKING"
  {
    UpperSpelled("thinking", "THINKING");
  }

  /**
   * Distinct parameters have distinct cfg keys, so filling cfg does not depend
   * on the order: names of equal length already differ in their first two
   * letters.
   */
  lemma CfgKeyInjective(a: ParamName, b: ParamName)
    requires CfgKey(a) == CfgKey(b)
    ensures a == b
  {
    var ka, kb := CfgKey(a), CfgKey(b);
    assert |NameOf(a)| == |NameOf(b)|;
    assert ka[0] == kb[0] && ka[1] == kb[1];
    assert ka[0] == UpperChar(NameOf(a)[0]) && ka[1] == UpperChar(NameOf(a)[1]);
    assert kb[0] == UpperChar(NameOf(b)[0]) && kb[1] == UpperChar(NameOf(b)[1]);
  }

  /** The keys of ModelDefinitions. */
  datatype ModelId =
    | GptOss120b | SeedOss36b | Qwen3Coder480b | NemotronNano9b | NemotronSuper49b
    | MistralNemotron | MistralSmall24b | DeepseekV31 | R1DistillQwen32b | R1DistillLlama8b
    | DeepseekR1v0528 | Qwen3NextInstruct | Qwen3NextThinking | KimiK2 | CodeGemma7b
    | Gemma7b | Mixtral8x22b | Others

  function ModelName(id: ModelId): string {
    match id
    case GptOss120b => "openai/gpt-oss-120b"
    case SeedOss36b => "bytedance/seed-oss-36b-instruct"
    case Qwen3Coder480b => "qwen/qwen3-coder-480b-a35b-instruct"
    case NemotronNano9b => "nvidia/nvidia-nemotron-nano-9b-v2"
    case NemotronSuper49b => "nvidia/llama-3.3-nemotron-super-49b-v1.5"
    case MistralNemotron => "mistralai/mistral-nemotron"
    case MistralSmall24b => "mistralai/mistral-small-24b-instruct"
    case DeepseekV31 => "deepseek-ai/deepseek-v3.1"
    case R1DistillQwen32b => "deepseek-ai/deepseek-r1-distill-qwen-32b"
    case R1DistillLlama8b => "deepseek-ai/deepseek-r1-distill-llama-8b"
    case DeepseekR1v0528 => "deepseek-ai/deepseek-r1-0528"
    case Qwen3NextInstruct => "qwen/qwen3-next-80b-a3b-instruct"
    case Qwen3NextThinking => "qwen/qwen3-next-80b-a3b-thinking"
    case KimiK2 => "moonshotai/kimi-k2-instruct-0905"
    case CodeGemma7b => "google/codegemma-7b"
    case Gemma7b => "google/gemma-7b"
    case Mixtral8x22b => "mistralai/mixtral-8x22b-instruct-v0.1"
    case Others => "others"
  }

  /** The keys of the table, in the order it lists them. */
  function AllModels(): seq<ModelId> {
    [GptOss120b, SeedOss36b, Qwen3Coder480b, NemotronNano9b, NemotronSuper49b,
     MistralNemotron, MistralSmall24b, DeepseekV31, R1DistillQwen32b, R1DistillLlama8b,
     DeepseekR1v0528, Qwen3NextInstruct, Qwen3NextThinking, KimiK2, CodeGemma7b,
     Gemma7b, Mixtral8x22b, Others]
  }

  /** The list holds every key. */
  lemma AllModelsComplete(id: ModelId)
    ensures id in AllModels()
  {
    match id
    case GptOss120b => assert AllModels()[0] == GptOss120b;
    case SeedOss36b => assert AllModels()[1] == SeedOss36b;
    case Qwen3Coder480b => assert AllModels()[2] == Qwen3Coder480b;
    case NemotronNano9b => assert AllModels()[3] == NemotronNano9b;
    case NemotronSuper49b => assert AllModels()[4] == NemotronSuper49b;
    case MistralNemotron => assert AllModels()[5] == MistralNemotron;
    case MistralSmall24b => assert AllModels()[6] == MistralSmall24b;
    case DeepseekV31 => assert AllModels()[7] == DeepseekV31;
    case R1DistillQwen32b => assert AllModels()[8] == R1DistillQwen32b;
    case R1DistillLlama8b => assert AllModels()[9] == R1DistillLlama8b;
    case DeepseekR1v0528 => assert AllModels()[10] == DeepseekR1v0528;
    case Qwen3NextInstruct => assert AllModels()[11] == Qwen3NextInstruct;
    case Qwen3NextThinking => assert AllModels()[12] == Qwen3NextThinking;
    case KimiK2 => assert AllModels()[13] == KimiK2;
    case CodeGemma7b => assert AllModels()[14] == CodeGemma7b;
    case Gemma7b => assert AllModels()[15] == Gemma7b;
    case Mixtral8x22b => assert AllModels()[16] == Mixtral8x22b;
    case Others => assert AllModels()[17] == Others;
  }

  /** The first of ids whose name is name. */
  function FindIn(name: string, ids: seq<ModelId>): (r: Option<ModelId>)
    ensures r.Some? ==> ModelName(r.value) == name
    ensures r.None? ==> forall i | 0 <= i < |ids| :: ModelName(ids[i]) != name
  {
    if ids == [] then None
    else if ModelName(ids[0]) == name then Some(ids[0])
    else FindIn(name, ids[1..])
  }

  /** The map lookup `ModelDefinitions[name]`, as the key it finds. */
  function FindModel(name: string): (r: Option<ModelId>)
    ensures r.Some? ==> ModelName(r.value) == name
    ensures r.None? ==> forall id: ModelId :: ModelName(id) != name
  {
    var ids := AllModels();
    var r := FindIn(name, ids);
    assert r.None? ==> forall id: ModelId :: ModelName(id) != name by {
      forall id: ModelId ensures r.None? ==> ModelName(id) != name {
        AllModelsComplete(id);
      }
    }
    r
  }

  /**
   * Which key a name could be, read off its length and at most two of its
   * characters; it is right for every key of the table.
   */
  ghost function NameCode(s: string): ModelId {
    var n := |s|;
    if n == 19 then (if s[0] == 'o' then GptOss120b else CodeGemma7b)
    else if n == 31 then SeedOss36b
    else if n == 35 then Qwen3Coder480b
    else if n == 33 then NemotronNano9b
    else if n == 40 then
      (if s[0] == 'n' then NemotronSuper49b else if s[32] == 'q' then R1DistillQwen32b else R1DistillLlama8b)
    else if n == 26 then MistralNemotron
    else if n == 36 then MistralSmall24b
    else if n == 25 then DeepseekV31
    else if n == 28 then DeepseekR1v0528
    else if n == 32 then
      (if s[0] == 'm' then KimiK2 else if s[24] == 'i' then Qwen3NextInstruct else Qwen3NextThinking)
    else if n == 15 then Gemma7b
    else if n == 37 then Mixtral8x22b
    else Others
  }

  lemma NameCodeOfName(id: ModelId)
    ensures NameCode(ModelName(id)) == id
  {
    match id
    case GptOss120b =>
    case SeedOss36b =>
    case Qwen3Coder480b =>
    case NemotronNano9b =>
    case NemotronSuper49b =>
    case MistralNemotron =>
    case MistralSmall24b =>
    case DeepseekV31 =>
    case R1DistillQwen32b =>
    case R1DistillLlama8b =>
    case DeepseekR1v0528 =>
    case Qwen3NextInstruct =>
    case Qwen3NextThinking =>
    case KimiK2 =>
    case CodeGemma7b =>
    case Gemma7b =>
    case Mixtral8x22b =>
    case Others =>
  }

  /** No two keys of the table are spelled alike. */
  lemma ModelNameInjective(a: ModelId, b: ModelId)
    ensures ModelName(a) == ModelName(b) ==> a == b
  {
    NameCodeOfName(a);
    NameCodeOfName(b);
  }

  /** A name carried by exactly one id of ids is found as that id. */
  lemma {:induction false} FindInHit(id: ModelId, ids: seq<ModelId>)
    requires id in ids
    requires forall i | 0 <= i < |ids| && ModelName(ids[i]) == ModelName(id) :: ids[i] == id
    ensures FindIn(ModelName(id), ids) == Some(id)
  {
    if ids[0] != id {
      assert ids == [ids[0]] + ids[1..];
      assert id in ids[1..];
      forall i | 0 <= i < |ids[1..]| && ModelName(ids[1..][i]) == ModelName(id)
        ensures ids[1..][i] == id
      {
        assert ids[1..][i] == ids[i + 1];
      }
      FindInHit(id, ids[1..]);
    }
  }

  /** Every key of the table is found under its own name. */
  lemma FindModelOfKey(id: ModelId)
    ensures FindModel(ModelName(id)) == Some(id)
  {
    var ids := AllModels();
    AllModelsComplete(id);
    forall i | 0 <= i < |ids| && ModelName(ids[i]) == ModelName(id)
      ensures ids[i] == id
    {
      ModelNameInjective(ids[i], id);
    }
    FindInHit(id, ids);
  }
}
