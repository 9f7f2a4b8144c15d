/**
 * The src/ copy's conversation file (src/conversation/conversation.go and
 * src/config/settings.go): a flat Settings record instead of the root
 * program's per-model settings, as the record json.Unmarshal produces.
 */
module SrcFile {
  import opened GoStrconv
  import opened Json

  /**
   * Settings. Stop and HistoryLimit are written only when non-zero
   * (omitempty); an omitted field reads back as its zero value, so the
   * record written is the record read.
   */
  datatype Settings = Settings(
    model: string,
    temperature: Decimal,
    topP: Decimal,
    frequencyPenalty: Decimal,
    presencePenalty: Decimal,
    maxTokens: int,
    stream: bool,
    reasoningEffort: string,
    stop: string,
    historyLimit: int)

  datatype ConversationFile = ConversationFile(
    system: string,
    settings: Settings,
    messages: seq<Message>)
}
