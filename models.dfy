/**
 * The per-model parameter schema of the root program: parameter types, the
 * static table of supported models and the lookup with its generic fallback.
 *
 * The table's keys are closed sets: the model names and the parameter names
 * are enumerations, each with the string the table spells it with
 * (`ModelName`, `NameOf`), and the table is the function `Definition`.
 * `FindModel` is the map lookup `ModelDefinitions[name]`.
 */
module Models {
  import opened Wrappers
  import opened GoText
  import opened GoStrconv
  import opened ModelNames

  /** ParameterType */
  datatype ParamType = Float | Int | String | Bool | StringA

  /**
   * The dynamic type and value of `Default interface{}`: a float64, an int, a
   * string, a bool, or nil.
   */
  datatype DefaultValue = DFloat(f: Decimal) | DInt(i: int) | DString(s: string) | DBool(b: bool) | DNil

  /** ModelParameter without its help-text description; Min and Max are 0 when omitted. */
  datatype ModelParameter = ModelParameter(
    ptype: ParamType,
    default: DefaultValue,
    min: real,
    max: real,
    options: seq<string>,
    apiKey: Option<ParamName>)

  /** The APIKey text: None stands for the empty key of a parameter that is not sent under a key. */
  function ApiKeyText(p: ModelParameter): (k: string)
    ensures k == "" <==> p.apiKey.None?
  {
    match p.apiKey
    case None => ""
    case Some(n) => NameOf(n)
  }

  /** ModelDefinition: "" and false are the omitted special properties. */
  datatype ModelDefinition = ModelDefinition(
    prependedSystemMessageOnThinking: string,
    chatTemplateKwargsThinking: bool,
    parameters: map<ParamName, ModelParameter>)

  // Builders for the table rows: the API key of each parameter is its own name.

  function FloatParam(n: ParamName, mant: int, exp: int, min: real, max: real): ModelParameter {
    ModelParameter(Float, DFloat(Decimal(mant, exp)), min, max, [], Some(n))
  }

  function IntParam(n: ParamName, default: DefaultValue, min: real, max: real): ModelParameter {
    ModelParameter(Int, default, min, max, [], Some(n))
  }

  function StopParam(): ModelParameter {
    ModelParameter(StringA, DString(""), 0.0, 0.0, [], Some(StopSeq))
  }

  function SeedParam(): ModelParameter {
    IntParam(Seed, DInt(0), 0.0, 0.0)
  }

  function PenaltyParam(n: ParamName): ModelParameter {
    FloatParam(n, 0, 0, -2.0, 2.0)
  }

  /** The "thinking" switch: not sent under a key of its own. */
  function ThinkingParam(default: bool): ModelParameter {
    ModelParameter(Bool, DBool(default), 0.0, 0.0, [], None)
  }

  function Plain(params: map<ParamName, ModelParameter>): ModelDefinition {
    ModelDefinition("", false, params)
  }

  /** The parameters shared by the deepseek-r1 and qwen3-next rows. */
  function SamplingParams(): map<ParamName, ModelParameter> {
    map[
      Temperature := FloatParam(Temperature, 6, -1, 0.0, 1.0),
      TopP := FloatParam(TopP, 7, -1, 0.01, 1.0),
      FrequencyPenalty := PenaltyParam(FrequencyPenalty),
      PresencePenalty := PenaltyParam(PresencePenalty),
      MaxTokens := IntParam(MaxTokens, DInt(4096), 1.0, 4096.0),
      StopSeq := StopParam()]
  }

  /** The parameters shared by the gemma and mixtral rows. */
  function GemmaParams(): map<ParamName, ModelParameter> {
    map[
      Temperature := FloatParam(Temperature, 5, -1, 0.0, 1.0),
      TopP := FloatParam(TopP, 1, 0, 0.0, 1.0),
      MaxTokens := IntParam(MaxTokens, DInt(1024), 1.0, 1024.0),
      StopSeq := StopParam()]
  }

  // The rows of the table, one function each.

  function GptOss120bRow(): ModelDefinition {
    Plain(map[
      Temperature := FloatParam(Temperature, 1, 0, 0.0, 1.0),
      TopP := FloatParam(TopP, 1, 0, 0.01, 1.0),
      FrequencyPenalty := PenaltyParam(FrequencyPenalty),
      PresencePenalty := PenaltyParam(PresencePenalty),
      MaxTokens := IntParam(MaxTokens, DInt(4096), 1.0, 4096.0),
      StopSeq := StopParam(),
      ReasoningEffort := ModelParameter(String, DString("medium"), 0.0, 0.0, ["low", "medium", "high"],
                                        Some(ReasoningEffort))])
  }

  function SeedOss36bRow(): ModelDefinition {
    Plain(map[
      Temperature := FloatParam(Temperature, 11, -1, 0.0, 2.0),
      TopP := FloatParam(TopP, 95, -2, 0.01, 1.0),
      MaxTokens := IntParam(MaxTokens, DInt(4096), 1.0, 0.0),
      ThinkingBudget := IntParam(ThinkingBudget, DInt(-1), -1.0, 16384.0),
      FrequencyPenalty := PenaltyParam(FrequencyPenalty),
      PresencePenalty := PenaltyParam(PresencePenalty),
      StopSeq := StopParam(),
      Seed := SeedParam()])
  }

  function Qwen3Coder480bRow(): ModelDefinition {
    Plain(map[
      Temperature := FloatParam(Temperature, 7, -1, 0.0, 1.0),
      TopP := FloatParam(TopP, 8, -1, 0.01, 1.0),
      FrequencyPenalty := PenaltyParam(FrequencyPenalty),
      PresencePenalty := PenaltyParam(PresencePenalty),
      MaxTokens := IntParam(MaxTokens, DInt(4096), 1.0, 16384.0),
      StopSeq := StopParam()])
  }

  function NemotronNano9bRow(): ModelDefinition {
    ModelDefinition("/think", false, map[
      Temperature := FloatParam(Temperature, 6, -1, 0.0, 1.0),
      TopP := FloatParam(TopP, 95, -2, 0.01, 1.0),
      MaxTokens := IntParam(MaxTokens, DInt(2048), 1.0, 8192.0),
      MinThinkingTokens := IntParam(MinThinkingTokens, DInt(1024), 1.0, 4096.0),
      MaxThinkingTokens := IntParam(MaxThinkingTokens, DInt(2048), 1.0, 4096.0),
      FrequencyPenalty := PenaltyParam(FrequencyPenalty),
      PresencePenalty := PenaltyParam(PresencePenalty),
      StopSeq := StopParam(),
      Seed := SeedParam()])
  }

  function NemotronSuper49bRow(): ModelDefinition {
    ModelDefinition("/think", false, map[
      Temperature := FloatParam(Temperature, 6, -1, 0.0, 1.0),
      TopP := FloatParam(TopP, 95, -2, 0.01, 1.0),
      MaxTokens := IntParam(MaxTokens, DInt(65536), 1.0, 0.0),
      FrequencyPenalty := PenaltyParam(FrequencyPenalty),
      PresencePenalty := PenaltyParam(PresencePenalty),
      StopSeq := StopParam(),
      Seed := SeedParam(),
      Thinking := ThinkingParam(false)])
  }

  function MistralNemotronRow(): ModelDefinition {
    Plain(map[
      Temperature := FloatParam(Temperature, 6, -1, 0.0, 1.0),
      TopP := FloatParam(TopP, 7, -1, 0.01, 1.0),
      FrequencyPenalty := PenaltyParam(FrequencyPenalty),
      PresencePenalty := PenaltyParam(PresencePenalty),
      MaxTokens := IntParam(MaxTokens, DInt(4096), 1.0, 4096.0),
      StopSeq := StopParam()])
  }

  function MistralSmall24bRow(): ModelDefinition {
    Plain(map[
      Temperature := FloatParam(Temperature, 2, -1, 0.0, 1.0),
      TopP := FloatParam(TopP, 7, -1, 0.01, 1.0),
      FrequencyPenalty := PenaltyParam(FrequencyPenalty),
      PresencePenalty := PenaltyParam(PresencePenalty),
      MaxTokens := IntParam(MaxTokens, DInt(1024), 1.0, 8192.0),
      StopSeq := StopParam()])
  }

  function DeepseekV31Row(): ModelDefinition {
    ModelDefinition("", true, map[
      Temperature := FloatParam(Temperature, 2, -1, 0.01, 1.0),
      TopP := FloatParam(TopP, 7, -1, 0.01, 1.0),
      MaxTokens := IntParam(MaxTokens, DInt(8192), 1.0, 16384.0),
      StopSeq := StopParam(),
      Seed := IntParam(Seed, DNil, 0.0, 0.0),
      Thinking := ThinkingParam(true)])
  }

  function KimiK2Row(): ModelDefinition {
    Plain(map[
      Temperature := FloatParam(Temperature, 6, -1, 0.0, 1.0),
      TopP := FloatParam(TopP, 9, -1, 0.01, 1.0),
      MaxTokens := IntParam(MaxTokens, DInt(4096), 1.0, 16384.0),
      StopSeq := StopParam()])
  }

  function OthersRow(): ModelDefinition {
    Plain(map[
      Temperature := FloatParam(Temperature, 5, -1, 0.0, 1.0),
      TopP := FloatParam(TopP, 1, 0, 0.0, 1.0),
      MaxTokens := IntParam(MaxTokens, DInt(1024), 1.0, 0.0),
      FrequencyPenalty := PenaltyParam(FrequencyPenalty),
      PresencePenalty := PenaltyParam(PresencePenalty),
      StopSeq := StopParam()])
  }

  /** ModelDefinitions[id]: the table's row for each key. */
  function Definition(id: ModelId): ModelDefinition {
    match id
    case GptOss120b => GptOss120bRow()
    case SeedOss36b => SeedOss36bRow()
    case Qwen3Coder480b => Qwen3Coder480bRow()
    case NemotronNano9b => NemotronNano9bRow()
    case NemotronSuper49b => NemotronSuper49bRow()
    case MistralNemotron => MistralNemotronRow()
    case MistralSmall24b => MistralSmall24bRow()
    case DeepseekV31 => DeepseekV31Row()
    case R1DistillQwen32b => Plain(SamplingParams())
    case R1DistillLlama8b => Plain(SamplingParams())
    case DeepseekR1v0528 => Plain(SamplingParams())
    case Qwen3NextInstruct => Plain(SamplingParams())
    case Qwen3NextThinking => Plain(SamplingParams())
    case KimiK2 => KimiK2Row()
    case CodeGemma7b => Plain(GemmaParams()[Seed := SeedParam()])
    case Gemma7b => Plain(GemmaParams())
    case Mixtral8x22b => Plain(GemmaParams()[Seed := SeedParam()])
    case Others => OthersRow()
  }

  /** GetModelDefinition: the table entry, or the generic "others" entry. */
  function GetModelDefinition(modelName: string): (d: ModelDefinition)
    ensures FindModel(modelName).Some? ==> d == Definition(FindModel(modelName).value)
    ensures FindModel(modelName).None? ==> d == Definition(Others)
  {
    match FindModel(modelName)
    case Some(id) => Definition(id)
    case None => Definition(Others)
  }

  /** A name present in ModelDefinitions gets its own entry. */
  lemma GetModelDefinitionOfKey(id: ModelId)
    ensures GetModelDefinition(ModelName(id)) == Definition(id)
  {
    FindModelOfKey(id);
  }

  /** Any other name gets the "others" entry. */
  lemma GetModelDefinitionFallback(name: string)
    requires forall id: ModelId :: ModelName(id) != name
    ensures GetModelDefinition(name) == Definition(Others)
  {
  }

  // ---------------------------------------------------------------------
  // What the table promises about its rows
  // ---------------------------------------------------------------------

  /** The numeric value of a default, for the range check (nil has none). */
  function NumericDefault(v: DefaultValue): real {
    match v
    case DFloat(f) => Value(f)
    case DInt(i) => i as real
    case _ => 0.0
  }

  /** The dynamic type of each default agrees with the declared type (an Int may default to nil). */
  predicate DefaultTyped(p: ModelParameter) {
    match p.ptype
    case Float => p.default.DFloat?
    case Int => p.default.DInt? || p.default.DNil?
    case String => p.default.DString?
    case StringA => p.default.DString?
    case Bool => p.default.DBool?
  }

  /** A numeric default lies within [Min, Max] whenever Max is declared. */
  predicate DefaultInRange(p: ModelParameter) {
    (p.ptype == Float || p.ptype == Int) && p.max != 0.0 && !p.default.DNil? ==>
      p.min <= NumericDefault(p.default) <= p.max
  }

  /**
   * One entry of a definition is sound: it is sent under its own name (the thinking switch
   * under none), its default has the declared type, and a numeric default is within range.
   */
  predicate ParamSound(n: ParamName, p: ModelParameter) {
    p.apiKey == (if n == Thinking then None else Some(n)) && DefaultTyped(p) && DefaultInRange(p)
  }

  predicate ParamsSound(ps: map<ParamName, ModelParameter>) {
    forall n | n in ps :: ParamSound(n, ps[n])
  }

  /** The special properties and required parameters of the row for id. */
  predicate RowShape(id: ModelId, d: ModelDefinition) {
    var ps := d.parameters;
    (Thinking in ps <==> id == NemotronSuper49b || id == DeepseekV31)
    && (d.chatTemplateKwargsThinking <==> id == DeepseekV31)
    && d.prependedSystemMessageOnThinking == (if id == NemotronNano9b || id == NemotronSuper49b then "/think" else "")
    && Temperature in ps && TopP in ps && MaxTokens in ps && StopSeq in ps
    && ps[StopSeq].ptype == StringA
    && ps[MaxTokens].ptype == Int && ps[MaxTokens].min == 1.0
    && (ps[MaxTokens].max == 0.0 <==> id == SeedOss36b || id == NemotronSuper49b || id == Others)
    && (Seed in ps ==> ps[Seed].ptype == Int && ps[Seed].default == (if id == DeepseekV31 then DNil else DInt(0)))
  }

  /** Every row's parameters are sound. */
  lemma RowsSound(id: ModelId)
    ensures ParamsSound(Definition(id).parameters)
  {
    match id
    case GptOss120b => SoundGptOss120b();
    case SeedOss36b => SoundSeedOss36b();
    case Qwen3Coder480b => SoundQwen3Coder480b();
    case NemotronNano9b => SoundNemotronNano9b();
    case NemotronSuper49b => SoundNemotronSuper49b();
    case MistralNemotron => SoundMistralNemotron();
    case MistralSmall24b => SoundMistralSmall24b();
    case DeepseekV31 => SoundDeepseekV31();
    case R1DistillQwen32b => SoundSamplingParams();
    case R1DistillLlama8b => SoundSamplingParams();
    case DeepseekR1v0528 => SoundSamplingParams();
    case Qwen3NextInstruct => SoundSamplingParams();
    case Qwen3NextThinking => SoundSamplingParams();
    case KimiK2 => SoundKimiK2();
    case CodeGemma7b => SoundSeededGemma();
    case Gemma7b => SoundGemmaParams();
    case Mixtral8x22b => SoundSeededGemma();
    case Others => SoundOthers();
  }

  /** Every row has the shape RowShape describes. */
  lemma RowsShape(id: ModelId)
    ensures RowShape(id, Definition(id))
  {
    match id
    case GptOss120b => ShapeGptOss120b();
    case SeedOss36b => ShapeSeedOss36b();
    case Qwen3Coder480b => ShapeQwen3Coder480b();
    case NemotronNano9b => ShapeNemotronNano9b();
    case NemotronSuper49b => ShapeNemotronSuper49b();
    case MistralNemotron => ShapeMistralNemotron();
    case MistralSmall24b => ShapeMistralSmall24b();
    case DeepseekV31 => ShapeDeepseekV31();
    case R1DistillQwen32b => ShapeR1DistillQwen32b();
    case R1DistillLlama8b => ShapeR1DistillLlama8b();
    case DeepseekR1v0528 => ShapeDeepseekR1v0528();
    case Qwen3NextInstruct => ShapeQwen3NextInstruct();
    case Qwen3NextThinking => ShapeQwen3NextThinking();
    case KimiK2 => ShapeKimiK2();
    case CodeGemma7b => ShapeCodeGemma7b();
    case Gemma7b => ShapeGemma7b();
    case Mixtral8x22b => ShapeMixtral8x22b();
    case Others => ShapeOthers();
  }

  /**
   * The only parameters with an empty APIKey are the "thinking" switches of the
   * llama-3.3 nemotron super and deepseek-v3.1 rows.
   */
  lemma UnkeyedOnlyThinking(id: ModelId, n: ParamName)
    requires n in Definition(id).parameters
    ensures Definition(id).parameters[n].apiKey.None? <==>
              n == Thinking && (id == NemotronSuper49b || id == DeepseekV31)
  {
    RowsSound(id);
    RowsShape(id);
  }

  /**
   * Only deepseek-v3.1 sets ChatTemplateKwargsThinking, and only the two nvidia
   * nemotron rows prepend "/think".
   */
  lemma SpecialProperties(id: ModelId)
    ensures Definition(id).chatTemplateKwargsThinking <==> id == DeepseekV31
    ensures Definition(id).prependedSystemMessageOnThinking ==
              (if id == NemotronNano9b || id == NemotronSuper49b then "/think" else "")
  {
    RowsShape(id);
  }

  /** Only the two nvidia nemotron names get "/think" prepended on thinking. */
  lemma PrependedOnThinking(name: string)
    ensures GetModelDefinition(name).prependedSystemMessageOnThinking ==
              (if name == ModelName(NemotronNano9b) || name == ModelName(NemotronSuper49b) then "/think" else "")
  {
    var id := FindModel(name).GetOr(Others);
    SpecialProperties(id);
    if name == ModelName(NemotronNano9b) {
      FindModelOfKey(NemotronNano9b);
    } else if name == ModelName(NemotronSuper49b) {
      FindModelOfKey(NemotronSuper49b);
    }
  }

  /** Whatever the model name, its definition has temperature, top_p, max_tokens and stop. */
  lemma CoreParametersPresent(name: string)
    ensures var ps := GetModelDefinition(name).parameters;
      Temperature in ps && TopP in ps && MaxTokens in ps && StopSeq in ps
  {
    RowsShape(FindModel(name).GetOr(Others));
  }

  /** Whatever the model name, its definition's parameters are sound. */
  lemma DefinitionSound(name: string)
    ensures ParamsSound(GetModelDefinition(name).parameters)
  {
    RowsSound(FindModel(name).GetOr(Others));
  }

  /** Whatever the model name, its definition has the shape of the row it came from. */
  lemma DefinitionShape(name: string)
    ensures RowShape(FindModel(name).GetOr(Others), GetModelDefinition(name))
  {
    RowsShape(FindModel(name).GetOr(Others));
  }

  /** Each parameter is sent under its own name, except the thinking switch, which has no APIKey. */
  predicate KeyedByName(ps: map<ParamName, ModelParameter>) {
    forall n | n in ps :: ps[n].apiKey == (if n == Thinking then None else Some(n))
  }

  lemma DefinitionKeyed(name: string)
    ensures KeyedByName(GetModelDefinition(name).parameters)
  {
    DefinitionSound(name);
  }

  /** Every definition declares stop as a StringA sent under "stop". */
  lemma DefinitionStop(name: string)
    ensures var ps := GetModelDefinition(name).parameters;
      StopSeq in ps && ps[StopSeq].ptype == StringA && ps[StopSeq].apiKey == Some(StopSeq)
  {
    DefinitionShape(name);
    DefinitionKeyed(name);
  }

  /** A declared seed is an Int sent under "seed". */
  lemma DefinitionSeed(name: string)
    ensures var ps := GetModelDefinition(name).parameters;
      Seed in ps ==> ps[Seed].ptype == Int && ps[Seed].apiKey == Some(Seed)
  {
    DefinitionShape(name);
    DefinitionKeyed(name);
  }

  /** deepseek-v3.1 declares a seed (whose default is nil). */
  lemma DeepseekDeclaresSeed()
    ensures var ps := Definition(DeepseekV31).parameters;
      Seed in ps && ps[Seed].ptype == Int && ps[Seed].apiKey == Some(Seed) && ps[Seed].default == DNil
  {
  }

  /** Every numeric default lies within [Min, Max] whenever Max is declared. */
  lemma DefaultsInRange(id: ModelId, n: ParamName)
    requires n in Definition(id).parameters
    ensures DefaultTyped(Definition(id).parameters[n])
    ensures DefaultInRange(Definition(id).parameters[n])
  {
    RowsSound(id);
  }

  /** max_tokens has Min 1 everywhere, and no Max exactly for seed-oss, nemotron super and "others". */
  lemma MaxTokensBounds(id: ModelId)
    ensures var p := Definition(id).parameters[MaxTokens];
      p.ptype == Int && p.min == 1.0 &&
      (p.max == 0.0 <==> id == SeedOss36b || id == NemotronSuper49b || id == Others)
  {
    RowsShape(id);
  }

  /** A declared seed is an Int defaulting to 0, except deepseek-v3.1's, which defaults to nil. */
  lemma SeedDefaults(id: ModelId)
    ensures var ps := Definition(id).parameters;
      Seed in ps ==> ps[Seed].ptype == Int && ps[Seed].default == (if id == DeepseekV31 then DNil else DInt(0))
  {
    RowsShape(id);
  }

  lemma SoundGptOss120b()
    ensures ParamsSound(Definition(GptOss120b).parameters)
  {
    var ps := Definition(GptOss120b).parameters;
    forall n | n in ps ensures ParamSound(n, ps[n]) {}
  }

  lemma SoundSeedOss36b()
    ensures ParamsSound(Definition(SeedOss36b).parameters)
  {
    var ps := Definition(SeedOss36b).parameters;
    forall n | n in ps ensures ParamSound(n, ps[n]) {}
  }

  lemma SoundQwen3Coder480b()
    ensures ParamsSound(Definition(Qwen3Coder480b).parameters)
  {
    var ps := Definition(Qwen3Coder480b).parameters;
    forall n | n in ps ensures ParamSound(n, ps[n]) {}
  }

  lemma SoundNemotronNano9b()
    ensures ParamsSound(Definition(NemotronNano9b).parameters)
  {
    var ps := Definition(NemotronNano9b).parameters;
    forall n | n in ps ensures ParamSound(n, ps[n]) {}
  }

  lemma SoundNemotronSuper49b()
    ensures ParamsSound(Definition(NemotronSuper49b).parameters)
  {
    var ps := Definition(NemotronSuper49b).parameters;
    forall n | n in ps ensures ParamSound(n, ps[n]) {}
  }

  lemma SoundMistralNemotron()
    ensures ParamsSound(Definition(MistralNemotron).parameters)
  {
    var ps := Definition(MistralNemotron).parameters;
    forall n | n in ps ensures ParamSound(n, ps[n]) {}
  }

  lemma SoundMistralSmall24b()
    ensures ParamsSound(Definition(MistralSmall24b).parameters)
  {
    var ps := Definition(MistralSmall24b).parameters;
    forall n | n in ps ensures ParamSound(n, ps[n]) {}
  }

  lemma SoundDeepseekV31()
    ensures ParamsSound(Definition(DeepseekV31).parameters)
  {
    var ps := Definition(DeepseekV31).parameters;
    forall n | n in ps ensures ParamSound(n, ps[n]) {}
  }

  lemma SoundKimiK2()
    ensures ParamsSound(Definition(KimiK2).parameters)
  {
    var ps := Definition(KimiK2).parameters;
    forall n | n in ps ensures ParamSound(n, ps[n]) {}
  }

  lemma SoundOthers()
    ensures ParamsSound(Definition(Others).parameters)
  {
    var ps := Definition(Others).parameters;
    forall n | n in ps ensures ParamSound(n, ps[n]) {}
  }

  lemma SoundSamplingParams()
    ensures ParamsSound(SamplingParams())
  {
    var ps := SamplingParams();
    forall n | n in ps ensures ParamSound(n, ps[n]) {}
  }

  lemma SoundGemmaParams()
    ensures ParamsSound(GemmaParams())
  {
    var ps := GemmaParams();
    forall n | n in ps ensures ParamSound(n, ps[n]) {}
  }

  lemma SoundSeededGemma()
    ensures ParamsSound(GemmaParams()[Seed := SeedParam()])
  {
    var ps := GemmaParams()[Seed := SeedParam()];
    forall n | n in ps ensures ParamSound(n, ps[n]) {}
  }

  lemma ShapeGptOss120b()
    ensures RowShape(GptOss120b, Definition(GptOss120b))
  {
  }

  lemma ShapeSeedOss36b()
    ensures RowShape(SeedOss36b, Definition(SeedOss36b))
  {
  }

  lemma ShapeQwen3Coder480b()
    ensures RowShape(Qwen3Coder480b, Definition(Qwen3Coder480b))
  {
  }

  lemma ShapeNemotronNano9b()
    ensures RowShape(NemotronNano9b, Definition(NemotronNano9b))
  {
  }

  lemma ShapeNemotronSuper49b()
    ensures RowShape(NemotronSuper49b, Definition(NemotronSuper49b))
  {
  }

  lemma ShapeMistralNemotron()
    ensures RowShape(MistralNemotron, Definition(MistralNemotron))
  {
  }

  lemma ShapeMistralSmall24b()
    ensures RowShape(MistralSmall24b, Definition(MistralSmall24b))
  {
  }

  lemma ShapeDeepseekV31()
    ensures RowShape(DeepseekV31, Definition(DeepseekV31))
  {
  }

  lemma ShapeR1DistillQwen32b()
    ensures RowShape(R1DistillQwen32b, Definition(R1DistillQwen32b))
  {
  }

  lemma ShapeR1DistillLlama8b()
    ensures RowShape(R1DistillLlama8b, Definition(R1DistillLlama8b))
  {
  }

  lemma ShapeDeepseekR1v0528()
    ensures RowShape(DeepseekR1v0528, Definition(DeepseekR1v0528))
  {
  }

  lemma ShapeQwen3NextInstruct()
    ensures RowShape(Qwen3NextInstruct, Definition(Qwen3NextInstruct))
  {
  }

  lemma ShapeQwen3NextThinking()
    ensures RowShape(Qwen3NextThinking, Definition(Qwen3NextThinking))
  {
  }

  lemma ShapeKimiK2()
    ensures RowShape(KimiK2, Definition(KimiK2))
  {
  }

  lemma ShapeCodeGemma7b()
    ensures RowShape(CodeGemma7b, Definition(CodeGemma7b))
  {
  }

  lemma ShapeGemma7b()
    ensures RowShape(Gemma7b, Definition(Gemma7b))
  {
  }

  lemma ShapeMixtral8x22b()
    ensures RowShape(Mixtral8x22b, Definition(Mixtral8x22b))
  {
  }

  lemma ShapeOthers()
    ensures RowShape(Others, Definition(Others))
  {
    var ps := OthersRow().parameters;
    assert Thinking !in ps && Seed !in ps;
    assert ps[MaxTokens] == IntParam(MaxTokens, DInt(1024), 1.0, 0.0);
    assert ps[StopSeq] == StopParam();
  }
}
