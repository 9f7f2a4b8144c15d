/**
 * The root program's conversation file, as the decoded record the program
 * reads and writes (the JSON text and the file system are not modelled).
 */
module RootFile {
  import opened Json

  /**
   * ModelSettings: a model's stored parameter values as JSON decodes them,
   * so every number, int or float, reads back as a JSON number.
   */
  type ModelSettings = map<string, JsonValue>

  /** TopLevelSettings; a nil Default or Models map reads as an empty one. */
  datatype TopLevelSettings = TopLevelSettings(
    stream: bool,
    historyLimit: int,
    default: ModelSettings,
    models: map<string, ModelSettings>)

  datatype ConversationFile = ConversationFile(
    system: string,
    settings: TopLevelSettings,
    messages: seq<Message>)
}
