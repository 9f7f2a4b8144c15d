/**
 * How the root program's processMessage prepares a request: it appends the
 * user's message to the conversation file, refuses to go on when the file now
 * holds more messages than HISTORY_LIMIT, and assembles the outgoing message
 * list. The file is a stored value here, so every read of it succeeds.
 */
module RootMessages {
  import opened Wrappers
  import opened GoStrconv
  import opened Json
  import opened ModelNames
  import opened Models
  import opened ConfigMap
  import opened RootFile

  function SystemMessage(content: string): Message {
    Message("system", content)
  }

  /**
   * The thinking control message for the definition def of the configured
   * model: its prepended system message when THINKING parses as true (a parse
   * error reads as false), else "/no_think" for llama-3.3 nemotron super only.
   */
  function ThinkingControl(def: ModelDefinition, cfg: map<string, string>): seq<Message> {
    if def.prependedSystemMessageOnThinking != "" then
      if ParseBool(Get(cfg, "THINKING")) == Some(true) then [SystemMessage(def.prependedSystemMessageOnThinking)]
      else if Get(cfg, "MODEL") == ModelName(NemotronSuper49b) then [SystemMessage("/no_think")]
      else []
    else []
  }

  /** The -s content if any, else the file's System. */
  function EffectiveSystem(sysPromptContent: string, file: ConversationFile): string {
    if sysPromptContent != "" then sysPromptContent else file.system
  }

  /** The outgoing list: the control message, the effective system prompt if non-empty, then the stored messages. */
  function OutgoingMessages(def: ModelDefinition, cfg: map<string, string>, sysPromptContent: string, file: ConversationFile)
    : seq<Message>
  {
    var system := EffectiveSystem(sysPromptContent, file);
    ThinkingControl(def, cfg) + (if system != "" then [SystemMessage(system)] else []) + file.messages
  }

  /**
   * The appended file and, unless the limit check refuses, the outgoing list.
   * The limit is HISTORY_LIMIT read with its parse error ignored.
   */
  function PrepareMessage(file: ConversationFile, userInput: string, cfg: map<string, string>, sysPromptContent: string)
    : (r: (ConversationFile, Option<seq<Message>>))
    ensures r.0 == file.(messages := file.messages + [Message("user", userInput)])
    ensures r.1.None? <==> |file.messages| + 1 > AtoiIgnoringError(Get(cfg, "HISTORY_LIMIT"))
    ensures r.1.Some? ==> |r.1.value| > 0 && r.1.value[|r.1.value| - 1] == Message("user", userInput)
  {
    var appended := file.(messages := file.messages + [Message("user", userInput)]);
    var limit := AtoiIgnoringError(Get(cfg, "HISTORY_LIMIT"));
    if |appended.messages| > limit then (appended, None)
    else (appended, Some(OutgoingMessages(GetModelDefinition(Get(cfg, "MODEL")), cfg, sysPromptContent, appended)))
  }

  // ---------------------------------------------------------------------
  // What the outgoing list promises
  // ---------------------------------------------------------------------

  /**
   * At most two system messages come first, and the stored messages follow
   * unchanged and in order.
   */
  lemma OutgoingEndsWithStored(def: ModelDefinition, cfg: map<string, string>, sysPromptContent: string, file: ConversationFile)
    ensures var ms := OutgoingMessages(def, cfg, sysPromptContent, file);
      var k := |ms| - |file.messages|;
      0 <= k <= 2 && ms[k..] == file.messages
      && forall i | 0 <= i < k :: ms[i].role == "system"
  {
    var system := EffectiveSystem(sysPromptContent, file);
    var head := ThinkingControl(def, cfg) + (if system != "" then [SystemMessage(system)] else []);
    assert OutgoingMessages(def, cfg, sysPromptContent, file) == head + file.messages;
  }

  /**
   * The -s content takes precedence over the file's System; the system
   * prompt message is left out when both are empty.
   */
  lemma SystemPrecedence(def: ModelDefinition, cfg: map<string, string>, sysPromptContent: string, file: ConversationFile)
    ensures var ms := OutgoingMessages(def, cfg, sysPromptContent, file);
      var c := ThinkingControl(def, cfg);
      (sysPromptContent != "" ==> ms[|c|] == SystemMessage(sysPromptContent))
      && (sysPromptContent == "" && file.system != "" ==> ms[|c|] == SystemMessage(file.system))
      && (sysPromptContent == "" && file.system == "" ==> ms == c + file.messages)
  {
  }

  /**
   * "/think" goes first exactly for the two nvidia nemotron models with
   * THINKING true; "/no_think" exactly for llama-3.3 nemotron super with
   * THINKING anything else; no other model gets a control message.
   */
  lemma ThinkingControlByModel(cfg: map<string, string>)
    ensures var name := Get(cfg, "MODEL");
      var on := ParseBool(Get(cfg, "THINKING")) == Some(true);
      ThinkingControl(GetModelDefinition(name), cfg) ==
        if (name == ModelName(NemotronNano9b) || name == ModelName(NemotronSuper49b)) && on then [SystemMessage("/think")]
        else if name == ModelName(NemotronSuper49b) && !on then [SystemMessage("/no_think")]
        else []
  {
    var name := Get(cfg, "MODEL");
    PrependedOnThinking(name);
    ThinkingControlOf(GetModelDefinition(name), cfg);
  }

  /** The control message as it follows from the definition's prepended message alone. */
  lemma ThinkingControlOf(def: ModelDefinition, cfg: map<string, string>)
    requires def.prependedSystemMessageOnThinking in {"", "/think"}
    ensures var on := ParseBool(Get(cfg, "THINKING")) == Some(true);
      ThinkingControl(def, cfg) ==
        if def.prependedSystemMessageOnThinking == "/think" && on then [SystemMessage("/think")]
        else if def.prependedSystemMessageOnThinking == "/think" && Get(cfg, "MODEL") == ModelName(NemotronSuper49b) then [SystemMessage("/no_think")]
        else []
  {
  }

  /** An unparseable HISTORY_LIMIT reads as 0, so every message is refused. */
  lemma UnparseableLimitRefuses(file: ConversationFile, userInput: string, cfg: map<string, string>, sysPromptContent: string)
    requires AtoiValue(Get(cfg, "HISTORY_LIMIT")).None?
    ensures PrepareMessage(file, userInput, cfg, sysPromptContent).1.None?
  {
  }
}
