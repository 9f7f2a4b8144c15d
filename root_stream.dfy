/**
 * The root program's response handlers (main.go): the streaming and the
 * non-streaming transcript assembly with that version's sentinel lines.
 */
module RootStream {
  import opened Wrappers
  import opened GoText
  import opened Json
  import opened Sse

  function BeginReasoning(): string { "[Begin of Assistant Reasoning]\n" }

  /** Closes a reasoning block in a streamed reply (with a slash, two newlines). */
  function EndReasoningStreamed(): string { "\n[/End of Assistant Reasoning]\n\n" }

  /** Closes the reasoning block of a non-streamed reply (no slash). */
  function EndReasoningWhole(): string { "\n[End of Assistant Reasoning]\n\n" }

  /**
   * handleStream: the transcript of the scanned lines, returned whether or not
   * the scanner stopped with an error (`scanFailed`), which is passed on.
   */
  method HandleStream(lines: seq<string>, decode: Decoder, scanFailed: bool)
    returns (text: string, failed: bool)
    ensures text == Render(StreamItems(lines, decode), BeginReasoning(), EndReasoningStreamed())
    ensures failed == scanFailed
  {
    text := Reassemble(lines, decode, BeginReasoning(), EndReasoningStreamed());
    failed := scanFailed;
  }

  /** A streamed reply that ends in reasoning still ends with the closing line. */
  lemma StreamNeverEndsOpen(lines: seq<string>, decode: Decoder)
    requires var items := StreamItems(lines, decode); items != [] && items[|items| - 1].Reasoning?
    ensures HasSuffix(Render(StreamItems(lines, decode), BeginReasoning(), EndReasoningStreamed()),
                      EndReasoningStreamed())
  {
    RenderEndsClosed(StreamItems(lines, decode), BeginReasoning(), EndReasoningStreamed());
  }

  /**
   * handleNonStream: None is the error return (with ""), for a body that is no
   * JSON object or when neither reasoning nor content was found.
   */
  function HandleNonStream(body: Option<JsonValue>): (r: Option<string>)
    ensures r.None? <==> DecodeObject(body).None? || NonStreamTexts(DecodeObject(body).value) == ("", "")
    ensures r.Some? ==>
      var texts := NonStreamTexts(DecodeObject(body).value);
      r.value == Render(PairItems(texts.0, texts.1), BeginReasoning(), EndReasoningWhole())
  {
    match DecodeObject(body)
    case None => None
    case Some(j) =>
      var (reasoning, content) := NonStreamTexts(j);
      var out := WrapReply(reasoning, content, BeginReasoning(), EndReasoningWhole());
      WrapReplyRenders(reasoning, content, BeginReasoning(), EndReasoningWhole());
      if out == "" then None else Some(out)
  }
}
