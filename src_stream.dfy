/**
 * The src/ copy's response handlers (src/api/stream.go): the same assembly as
 * the root program with different sentinel strings.
 */
module SrcStream {
  import opened Wrappers
  import opened GoText
  import opened Json
  import opened Sse

  function BeginReasoningStreamed(): string { "[Begin of Assistant Reasoning]\n" }

  /** Closes a reasoning block in a streamed reply: a single trailing newline. */
  function EndReasoningStreamed(): string { "\n[/End of Assistant Reasoning]\n" }

  /** The non-streamed reply's sentinels carry no newlines at all. */
  function BeginReasoningWhole(): string { "[Begin of Assistant Reasoning]" }

  function EndReasoningWhole(): string { "[End of Assistant Reasoning]" }

  /** handleStream, with this version's sentinels; a scanner error is passed on with the transcript. */
  method HandleStream(lines: seq<string>, decode: Decoder, scanFailed: bool)
    returns (text: string, failed: bool)
    ensures text == Render(StreamItems(lines, decode), BeginReasoningStreamed(), EndReasoningStreamed())
    ensures failed == scanFailed
  {
    text := Reassemble(lines, decode, BeginReasoningStreamed(), EndReasoningStreamed());
    failed := scanFailed;
  }

  /** A streamed reply that ends in reasoning still ends with the closing line. */
  lemma StreamNeverEndsOpen(lines: seq<string>, decode: Decoder)
    requires var items := StreamItems(lines, decode); items != [] && items[|items| - 1].Reasoning?
    ensures HasSuffix(Render(StreamItems(lines, decode), BeginReasoningStreamed(), EndReasoningStreamed()),
                      EndReasoningStreamed())
  {
    RenderEndsClosed(StreamItems(lines, decode), BeginReasoningStreamed(), EndReasoningStreamed());
  }

  /** handleNonStream: None is the error return, as in the root program; the sentinels differ. */
  function HandleNonStream(body: Option<JsonValue>): (r: Option<string>)
    ensures r.None? <==> DecodeObject(body).None? || NonStreamTexts(DecodeObject(body).value) == ("", "")
    ensures r.Some? ==>
      var texts := NonStreamTexts(DecodeObject(body).value);
      r.value == Render(PairItems(texts.0, texts.1), BeginReasoningWhole(), EndReasoningWhole())
  {
    match DecodeObject(body)
    case None => None
    case Some(j) =>
      var (reasoning, content) := NonStreamTexts(j);
      var out := WrapReply(reasoning, content, BeginReasoningWhole(), EndReasoningWhole());
      WrapReplyRenders(reasoning, content, BeginReasoningWhole(), EndReasoningWhole());
      if out == "" then None else Some(out)
  }
}
