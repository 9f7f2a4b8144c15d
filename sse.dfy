/**
 * Text assembly shared by both versions of the streaming and non-streaming
 * response handlers: the decoded chunk structures, the per-line filter of the
 * server-sent event stream, the field-precedence rules, and the reasoning
 * block rendering, given once as a state machine (the handlers' loop) and once
 * as an independent reference rendering, with a proof that the two agree.
 */
module Sse {
  import opened Wrappers
  import opened GoText
  import opened Json

  datatype ChoiceDelta = ChoiceDelta(content: Option<string>, reasoningContent: Option<string>)
  datatype ChoiceStream = ChoiceStream(delta: Option<ChoiceDelta>, message: Option<Object>)
  datatype StreamChunk = StreamChunk(choices: seq<ChoiceStream>)

  /** json.Unmarshal of one line into a StreamChunk; None is a decode error. */
  type Decoder = string -> Option<StreamChunk>

  /** The text the handlers try to decode: "data: " removed once, then trimmed. */
  function EventPayload(line: string): string {
    TrimSpace(TrimPrefix(line, "data: "))
  }

  /** The first choice of a line, or None when the line is skipped. */
  function LineChoice(line: string, decode: Decoder): (r: Option<ChoiceStream>)
    ensures r.None? <==>
      var p := EventPayload(line);
      p == "" || p == "[DONE]" || decode(p).None? || |decode(p).value.choices| == 0
    ensures r.Some? ==> r.value == decode(EventPayload(line)).value.choices[0]
  {
    var p := EventPayload(line);
    if p == "" || p == "[DONE]" then None
    else match decode(p)
      case None => None
      case Some(chunk) => if |chunk.choices| == 0 then None else Some(chunk.choices[0])
  }

  /** A reasoning or content fragment of the reply, in stream order. */
  datatype Item = Reasoning(text: string) | Content(text: string)

  /** The reasoning and content text one choice carries: delta wins when present. */
  function ChoiceTexts(c: ChoiceStream): (r: (string, string))
    ensures c.delta.Some? ==>
      r == (c.delta.value.reasoningContent.GetOr(""), c.delta.value.content.GetOr(""))
    ensures c.delta.None? && c.message.None? ==> r == ("", "")
    ensures c.delta.None? && c.message.Some? ==>
      r == (StringAt(c.message.value, "reasoning_content").GetOr(""),
            StringAt(c.message.value, "content").GetOr(""))
  {
    match c.delta
    case Some(d) => (d.reasoningContent.GetOr(""), d.content.GetOr(""))
    case None =>
      match c.message
      case None => ("", "")
      case Some(m) => (StringAt(m, "reasoning_content").GetOr(""), StringAt(m, "content").GetOr(""))
  }

  /** The non-empty fragments of one (reasoning, content) pair: reasoning first. */
  function PairItems(r: string, c: string): (items: seq<Item>)
    ensures |items| <= 2
    ensures forall i :: 0 <= i < |items| ==> items[i].text != ""
    ensures Reasoning(r) in items <==> r != ""
    ensures Content(c) in items <==> c != ""
    ensures forall i, j :: 0 <= i < j < |items| ==> items[i].Reasoning? && items[j].Content?
  {
    (if r != "" then [Reasoning(r)] else []) + (if c != "" then [Content(c)] else [])
  }

  /** Fragments contributed by one line of the stream. */
  function LineItems(line: string, decode: Decoder): (items: seq<Item>)
    ensures LineChoice(line, decode).None? ==> items == []
  {
    match LineChoice(line, decode)
    case None => []
    case Some(c) => var (r, t) := ChoiceTexts(c); PairItems(r, t)
  }

  /** Fragments of the whole stream, line by line. */
  function StreamItems(lines: seq<string>, decode: Decoder): seq<Item> {
    if lines == [] then []
    else StreamItems(lines[..|lines| - 1], decode) + LineItems(lines[|lines| - 1], decode)
  }

  lemma StreamItemsPrefix(lines: seq<string>, i: nat, decode: Decoder)
    requires i < |lines|
    ensures StreamItems(lines[..i + 1], decode) == StreamItems(lines[..i], decode) + LineItems(lines[i], decode)
  {
    var p := lines[..i + 1];
    assert p[..|p| - 1] == lines[..i];
    assert p[|p| - 1] == lines[i];
  }

  /** A skipped line adds nothing to the stream's fragments. */
  lemma SkippedLineAddsNothing(lines: seq<string>, line: string, decode: Decoder)
    requires LineChoice(line, decode).None?
    ensures StreamItems(lines + [line], decode) == StreamItems(lines, decode)
  {
    assert (lines + [line])[..|lines|] == lines;
  }

  // ---------------------------------------------------------------------
  // The handlers' two-state machine
  // ---------------------------------------------------------------------

  /** Transcript so far and the `inReasoning` flag. */
  datatype Acc = Acc(buf: string, inReasoning: bool)

  function StepItem(a: Acc, it: Item, open: string, close: string): Acc {
    match it
    case Reasoning(t) =>
      if a.inReasoning then Acc(a.buf + t, true) else Acc(a.buf + open + t, true)
    case Content(t) =>
      if a.inReasoning then Acc(a.buf + close + t, false) else Acc(a.buf + t, false)
  }

  function Fold(a: Acc, items: seq<Item>, open: string, close: string): Acc
    decreases |items|
  {
    if items == [] then a else Fold(StepItem(a, items[0], open, close), items[1..], open, close)
  }

  /** After the last line a still-open reasoning block is closed. */
  function Finish(a: Acc, close: string): string {
    if a.inReasoning then a.buf + close else a.buf
  }

  lemma {:induction false} FoldAppend(a: Acc, xs: seq<Item>, ys: seq<Item>, open: string, close: string)
    ensures Fold(a, xs + ys, open, close) == Fold(Fold(a, xs, open, close), ys, open, close)
    decreases |xs|
  {
    if xs == [] {
      assert xs + ys == ys;
    } else {
      assert (xs + ys)[1..] == xs[1..] + ys;
      FoldAppend(StepItem(a, xs[0], open, close), xs[1..], ys, open, close);
    }
  }

  /** One line's pair of fragments, folded: reasoning first, then content. */
  lemma FoldPair(a: Acc, r: string, c: string, open: string, close: string)
    ensures Fold(a, PairItems(r, c), open, close) ==
      var a1 := if r != "" then StepItem(a, Reasoning(r), open, close) else a;
      if c != "" then StepItem(a1, Content(c), open, close) else a1
  {
    if r != "" && c != "" {
      var a1 := StepItem(a, Reasoning(r), open, close);
      assert PairItems(r, c) == [Reasoning(r), Content(c)];
      assert PairItems(r, c)[1..] == [Content(c)];
      calc {
        Fold(a, PairItems(r, c), open, close);
        Fold(a1, [Content(c)], open, close);
        { assert [Content(c)][1..] == []; }
        Fold(StepItem(a1, Content(c), open, close), [], open, close);
      }
    } else if r != "" {
      assert PairItems(r, c) == [Reasoning(r)];
    } else if c != "" {
      assert PairItems(r, c) == [Content(c)];
    }
  }

  // ---------------------------------------------------------------------
  // Reference rendering: every maximal run of reasoning fragments becomes
  // one block, opened once before the run and closed once after it.
  // ---------------------------------------------------------------------

  /** Length of the leading run of reasoning fragments. */
  function RunLen(items: seq<Item>): (n: nat)
    ensures n <= |items|
    ensures forall i :: 0 <= i < n ==> items[i].Reasoning?
    ensures n < |items| ==> items[n].Content?
  {
    if items == [] || items[0].Content? then 0 else 1 + RunLen(items[1..])
  }

  /** Concatenated text of the leading run of reasoning fragments. */
  function RunText(items: seq<Item>): string {
    if items == [] || items[0].Content? then "" else items[0].text + RunText(items[1..])
  }

  function Render(items: seq<Item>, open: string, close: string): string
    decreases |items|
  {
    if items == [] then ""
    else if items[0].Content? then items[0].text + Render(items[1..], open, close)
    else
      var n := RunLen(items);
      open + RunText(items) + close + Render(items[n..], open, close)
  }

  lemma {:induction false} FoldOutside(buf: string, items: seq<Item>, open: string, close: string)
    ensures Finish(Fold(Acc(buf, false), items, open, close), close) == buf + Render(items, open, close)
    decreases |items|, 1
  {
    if items == [] {
    } else if items[0].Content? {
      var t := items[0].text;
      FoldCons(Acc(buf, false), items, open, close);
      FoldOutside(buf + t, items[1..], open, close);
      RenderCons(items, open, close);
      Regroup3(buf, t, Render(items[1..], open, close));
    } else {
      var t := items[0].text;
      FoldCons(Acc(buf, false), items, open, close);
      FoldInside(buf + open + t, items[1..], open, close);
      RunCons(items);
      RenderCons(items, open, close);
      Regroup6(buf, open, t, RunText(items[1..]), close, Render(items[RunLen(items)..], open, close));
    }
  }

  lemma {:induction false} FoldInside(buf: string, items: seq<Item>, open: string, close: string)
    ensures Finish(Fold(Acc(buf, true), items, open, close), close)
         == buf + RunText(items) + close + Render(items[RunLen(items)..], open, close)
    decreases |items|, 0
  {
    if items == [] {
    } else if items[0].Content? {
      var t := items[0].text;
      FoldCons(Acc(buf, true), items, open, close);
      FoldOutside(buf + close + t, items[1..], open, close);
      assert items[RunLen(items)..] == items;
      RenderCons(items, open, close);
      Regroup4(buf, close, t, Render(items[1..], open, close));
    } else {
      var t := items[0].text;
      FoldCons(Acc(buf, true), items, open, close);
      FoldInside(buf + t, items[1..], open, close);
      RunCons(items);
      Regroup5(buf, t, RunText(items[1..]), close, Render(items[RunLen(items)..], open, close));
    }
  }

  lemma FoldCons(a: Acc, items: seq<Item>, open: string, close: string)
    requires items != []
    ensures Fold(a, items, open, close) == Fold(StepItem(a, items[0], open, close), items[1..], open, close)
  {
  }

  lemma RenderCons(items: seq<Item>, open: string, close: string)
    requires items != []
    ensures items[0].Content? ==> Render(items, open, close) == items[0].text + Render(items[1..], open, close)
    ensures items[0].Reasoning? ==>
      Render(items, open, close) == open + RunText(items) + close + Render(items[RunLen(items)..], open, close)
  {
  }

  /** A run that starts with a reasoning fragment is that fragment followed by the rest of the run. */
  lemma RunCons(items: seq<Item>)
    requires items != [] && items[0].Reasoning?
    ensures RunText(items) == items[0].text + RunText(items[1..])
    ensures items[RunLen(items)..] == items[1..][RunLen(items[1..])..]
  {
  }

  lemma Regroup3(a: string, b: string, c: string)
    ensures (a + b) + c == a + (b + c)
  {
  }

  lemma Regroup4(a: string, b: string, c: string, d: string)
    ensures a + b + c + d == a + "" + b + (c + d)
  {
  }

  lemma Regroup5(a: string, b: string, c: string, d: string, e: string)
    ensures a + b + c + d + e == a + (b + c) + d + e
  {
  }

  lemma Regroup6(a: string, b: string, c: string, d: string, e: string, f: string)
    ensures a + b + c + d + e + f == a + (b + (c + d) + e + f)
  {
  }

  /** The state machine, started empty and finished, is the reference rendering. */
  lemma MachineMatchesRender(items: seq<Item>, open: string, close: string)
    ensures Finish(Fold(Acc("", false), items, open, close), close) == Render(items, open, close)
  {
    FoldOutside("", items, open, close);
  }

  /** A reply whose last fragment is reasoning still ends with the closing sentinel. */
  lemma {:induction false} RenderEndsClosed(items: seq<Item>, open: string, close: string)
    requires items != [] && items[|items| - 1].Reasoning?
    ensures HasSuffix(Render(items, open, close), close)
    decreases |items|
  {
    RenderCons(items, open, close);
    if items[0].Content? {
      RenderEndsClosed(items[1..], open, close);
      SuffixAfter(items[0].text, Render(items[1..], open, close), close);
    } else {
      var n := RunLen(items);
      if n < |items| {
        RenderEndsClosed(items[n..], open, close);
        SuffixAfter(open + RunText(items) + close, Render(items[n..], open, close), close);
      } else {
        assert items[n..] == [];
        ClosedLast(open + RunText(items), close);
      }
    }
  }

  lemma ClosedLast(front: string, close: string)
    ensures HasSuffix(front + close + "", close)
  {
    assert front + close + "" == front + close;
  }

  lemma SuffixAfter(front: string, back: string, close: string)
    requires HasSuffix(back, close)
    ensures HasSuffix(front + back, close)
  {
    var s := front + back;
    assert s[|s| - |close|..] == back[|back| - |close|..];
  }

  /** A reply without reasoning is rendered as its content fragments, back to back. */
  lemma {:induction false} RenderWithoutReasoning(items: seq<Item>, open: string, close: string)
    requires forall i :: 0 <= i < |items| ==> items[i].Content?
    ensures Render(items, open, close) == ContentText(items)
  {
    if items != [] {
      RenderWithoutReasoning(items[1..], open, close);
    }
  }

  /** Concatenated text of the content fragments only. */
  function ContentText(items: seq<Item>): string {
    if items == [] then ""
    else (if items[0].Content? then items[0].text else "") + ContentText(items[1..])
  }

  lemma {:induction false} ContentTextAppend(xs: seq<Item>, ys: seq<Item>)
    ensures ContentText(xs + ys) == ContentText(xs) + ContentText(ys)
    decreases |xs|
  {
    if xs == [] {
      assert xs + ys == ys;
    } else {
      assert (xs + ys)[1..] == xs[1..] + ys;
      ContentTextAppend(xs[1..], ys);
    }
  }

  /** The body of the streaming loop for one decoded choice. */
  method AppendPair(buf: string, inReasoning: bool, reasoning: string, content: string, open: string, close: string)
    returns (buf': string, inReasoning': bool)
    ensures Acc(buf', inReasoning') == Fold(Acc(buf, inReasoning), PairItems(reasoning, content), open, close)
  {
    buf', inReasoning' := buf, inReasoning;
    if reasoning != "" {
      if !inReasoning' {
        buf' := buf' + open;
        inReasoning' := true;
      }
      buf' := buf' + reasoning;
    }
    ghost var mid := Acc(buf', inReasoning');
    assert mid == if reasoning != "" then StepItem(Acc(buf, inReasoning), Reasoning(reasoning), open, close)
                  else Acc(buf, inReasoning);
    if content != "" {
      if inReasoning' {
        buf' := buf' + close;
        inReasoning' := false;
      }
      buf' := buf' + content;
    }
    assert Acc(buf', inReasoning') == if content != "" then StepItem(mid, Content(content), open, close) else mid;
    FoldPair(Acc(buf, inReasoning), reasoning, content, open, close);
  }

  /**
   * The streaming loop shared by both versions: one pass over the scanned
   * lines, appending to the transcript under the inReasoning flag, with the
   * two sentinels as parameters.
   */
  method Reassemble(lines: seq<string>, decode: Decoder, open: string, close: string)
    returns (text: string)
    ensures text == Render(StreamItems(lines, decode), open, close)
  {
    var buf := "";
    var inReasoning := false;
    var i := 0;
    while i < |lines|
      invariant 0 <= i <= |lines|
      invariant Acc(buf, inReasoning) == Fold(Acc("", false), StreamItems(lines[..i], decode), open, close)
    {
      ghost var before := Acc(buf, inReasoning);
      buf, inReasoning := ReassembleLine(buf, inReasoning, lines[i], decode, open, close);
      FoldStreamStep(lines, i, decode, open, close, before, Acc(buf, inReasoning));
      i := i + 1;
    }
    StreamFinished(lines, i, decode, open, close, Acc(buf, inReasoning));
    if inReasoning {
      buf := buf + close;
    }
    text := buf;
  }

  /** After the last line, closing a still-open block gives the reference rendering. */
  lemma StreamFinished(lines: seq<string>, i: nat, decode: Decoder, open: string, close: string, a: Acc)
    requires i == |lines|
    requires a == Fold(Acc("", false), StreamItems(lines[..i], decode), open, close)
    ensures Finish(a, close) == Render(StreamItems(lines, decode), open, close)
  {
    assert lines[..i] == lines;
    MachineMatchesRender(StreamItems(lines, decode), open, close);
  }

  /** One line of the streaming loop: decode it and append its fragments, if any. */
  method ReassembleLine(buf: string, inReasoning: bool, line: string, decode: Decoder, open: string, close: string)
    returns (buf': string, inReasoning': bool)
    ensures Acc(buf', inReasoning') == Fold(Acc(buf, inReasoning), LineItems(line, decode), open, close)
  {
    buf', inReasoning' := buf, inReasoning;
    var choice := LineChoice(line, decode);
    if choice.Some? {
      var (reasoning, content) := ChoiceTexts(choice.value);
      buf', inReasoning' := AppendPair(buf, inReasoning, reasoning, content, open, close);
      assert LineItems(line, decode) == PairItems(reasoning, content);
    }
  }

  /** Folding one more line's fragments continues the fold over the stream so far. */
  lemma FoldStreamStep(lines: seq<string>, i: nat, decode: Decoder, open: string, close: string, before: Acc, after: Acc)
    requires i < |lines|
    requires before == Fold(Acc("", false), StreamItems(lines[..i], decode), open, close)
    requires after == Fold(before, LineItems(lines[i], decode), open, close)
    ensures after == Fold(Acc("", false), StreamItems(lines[..i + 1], decode), open, close)
  {
    StreamItemsPrefix(lines, i, decode);
    FoldAppend(Acc("", false), StreamItems(lines[..i], decode), LineItems(lines[i], decode), open, close);
  }

  // ---------------------------------------------------------------------
  // Non-stream extraction
  // ---------------------------------------------------------------------

  /** `j["choices"].([]interface{})[0].(map[string]interface{})` when all steps succeed. */
  function FirstChoiceObject(j: Object): (r: Option<Object>)
    ensures r.Some? ==> "choices" in j && j["choices"].JArray? && |j["choices"].items| > 0
                        && j["choices"].items[0] == JObject(r.value)
  {
    if "choices" in j && j["choices"].JArray? && |j["choices"].items| > 0
       && j["choices"].items[0].JObject?
    then Some(j["choices"].items[0].fields)
    else None
  }

  /**
   * The field precedence of the non-stream handler: a non-empty string from
   * delta wins; otherwise message's string is used; otherwise "".
   */
  function Prefer(fromDelta: Option<string>, fromMessage: Option<string>): (r: string)
    ensures fromDelta.Some? && fromDelta.value != "" ==> r == fromDelta.value
    ensures (fromDelta.None? || fromDelta.value == "") && fromMessage.Some? ==> r == fromMessage.value
    ensures (fromDelta.None? || fromDelta.value == "") && fromMessage.None? ==> r == ""
  {
    if fromDelta.Some? && fromDelta.value != "" then fromDelta.value else fromMessage.GetOr("")
  }

  /** `obj.(map)[k].(string)` along an optional object. */
  function StringIn(obj: Option<Object>, k: string): Option<string> {
    match obj
    case None => None
    case Some(m) => StringAt(m, k)
  }

  /** The (reasoning, content) pair the non-stream handlers extract from a decoded object. */
  function NonStreamTexts(j: Object): (r: (string, string))
    ensures FirstChoiceObject(j).None? ==> r == ("", "")
    ensures FirstChoiceObject(j).Some? ==>
      var first := FirstChoiceObject(j).value;
      var delta := ObjectAt(first, "delta");
      var msg := ObjectAt(first, "message");
      (forall k | k in {"reasoning_content", "content"} ::
        var v := if k == "content" then r.1 else r.0;
        (StringIn(delta, k).Some? && StringIn(delta, k).value != "" ==> v == StringIn(delta, k).value) &&
        (StringIn(delta, k).None? || StringIn(delta, k).value == "" ==> v == StringIn(msg, k).GetOr("")))
  {
    match FirstChoiceObject(j)
    case None => ("", "")
    case Some(first) =>
      var delta := ObjectAt(first, "delta");
      var msg := ObjectAt(first, "message");
      (Prefer(StringIn(delta, "reasoning_content"), StringIn(msg, "reasoning_content")),
       Prefer(StringIn(delta, "content"), StringIn(msg, "content")))
  }

  /** The content the quiet non-stream handler reads: message.content only. */
  function QuietNonStreamContent(j: Object): (c: string)
    ensures FirstChoiceObject(j).None? ==> c == ""
    ensures FirstChoiceObject(j).Some? ==>
      var msg := ObjectAt(FirstChoiceObject(j).value, "message");
      (msg.Some? && StringAt(msg.value, "content").Some? ==> c == StringAt(msg.value, "content").value)
      && (msg.None? || StringAt(msg.value, "content").None? ==> c == "")
  {
    match FirstChoiceObject(j)
    case None => ""
    case Some(first) => StringIn(ObjectAt(first, "message"), "content").GetOr("")
  }

  /**
   * The (reasoning, content) pair rendered as the non-stream handlers write it:
   * the reasoning between the two sentinels when there is any, then the content.
   */
  function WrapReply(reasoning: string, content: string, open: string, close: string): (out: string)
    ensures out == "" <==> reasoning == "" && content == ""
  {
    (if reasoning != "" then open + reasoning + close else "") + content
  }

  /** The non-stream reply is what the stream renderer makes of a one-line stream with the same texts. */
  lemma WrapReplyRenders(reasoning: string, content: string, open: string, close: string)
    ensures WrapReply(reasoning, content, open, close) == Render(PairItems(reasoning, content), open, close)
  {
    var items := PairItems(reasoning, content);
    var tail: seq<Item> := if content != "" then [Content(content)] else [];
    assert Render(tail, open, close) == content by {
      if content != "" {
        assert tail[1..] == [];
      }
    }
    if reasoning != "" {
      assert items == [Reasoning(reasoning)] + tail;
      assert items[1..] == tail;
      assert RunLen(items) == 1 && RunText(items) == reasoning by {
        assert RunLen(tail) == 0 && RunText(tail) == "";
      }
      assert items[1..] == items[RunLen(items)..];
    } else {
      assert items == tail;
    }
  }

  // ---------------------------------------------------------------------
  // Quiet handlers (single-prompt mode): content only
  // ---------------------------------------------------------------------

  /**
   * The content the quiet stream handler prints for one choice: delta.content
   * when delta carries one, otherwise message.content. Unlike ChoiceTexts, a
   * delta without content falls through to message.
   */
  function QuietChoiceContent(c: ChoiceStream): (t: string)
    ensures c.delta.Some? && c.delta.value.content.Some? ==> t == c.delta.value.content.value
    ensures (c.delta.None? || c.delta.value.content.None?) ==>
      t == (if c.message.Some? then StringAt(c.message.value, "content").GetOr("") else "")
  {
    if c.delta.Some? && c.delta.value.content.Some? then c.delta.value.content.value
    else if c.message.Some? then StringAt(c.message.value, "content").GetOr("")
    else ""
  }

  /** What the quiet stream handler prints for one line. */
  function QuietLine(line: string, decode: Decoder): string {
    match LineChoice(line, decode)
    case None => ""
    case Some(c) => QuietChoiceContent(c)
  }

  /** Everything the quiet stream handler prints, line by line. */
  function QuietText(lines: seq<string>, decode: Decoder): string {
    if lines == [] then ""
    else QuietText(lines[..|lines| - 1], decode) + QuietLine(lines[|lines| - 1], decode)
  }

  lemma QuietTextPrefix(lines: seq<string>, i: nat, decode: Decoder)
    requires i < |lines|
    ensures QuietText(lines[..i + 1], decode) == QuietText(lines[..i], decode) + QuietLine(lines[i], decode)
  {
    var p := lines[..i + 1];
    assert p[..|p| - 1] == lines[..i];
    assert p[|p| - 1] == lines[i];
  }

  /** The quiet streaming loop: prints the content of every decodable line and nothing else. */
  method QuietStream(lines: seq<string>, decode: Decoder) returns (printed: string)
    ensures printed == QuietText(lines, decode)
  {
    printed := "";
    var i := 0;
    assert lines[..0] == [];
    while i < |lines|
      invariant 0 <= i <= |lines|
      invariant printed == QuietText(lines[..i], decode)
    {
      printed := QuietStreamLine(printed, lines[i], decode);
      QuietTextPrefix(lines, i, decode);
      i := i + 1;
    }
    assert lines[..i] == lines;
  }

  /** One line of the quiet streaming loop: print the choice's content, if any. */
  method QuietStreamLine(printed: string, line: string, decode: Decoder) returns (printed': string)
    ensures printed' == printed + QuietLine(line, decode)
  {
    var choice := LineChoice(line, decode);
    var content := "";
    if choice.Some? {
      content := QuietChoiceContent(choice.value);
    }
    assert content == QuietLine(line, decode);
    if content != "" {
      printed' := printed + content;
    } else {
      printed' := printed;
      assert printed + content == printed;
    }
  }

  /** The choice with its reasoning removed, from delta and from message alike. */
  function StripChoice(c: ChoiceStream): (d: ChoiceStream)
    ensures d.delta.Some? ==> d.delta.value.reasoningContent.None?
    ensures d.message.Some? ==> "reasoning_content" !in d.message.value
  {
    ChoiceStream(
      if c.delta.Some? then Some(c.delta.value.(reasoningContent := None)) else None,
      if c.message.Some? then Some(c.message.value - {"reasoning_content"}) else None)
  }

  function StripChunk(chunk: StreamChunk): (d: StreamChunk)
    ensures |d.choices| == |chunk.choices|
    ensures forall i :: 0 <= i < |chunk.choices| ==> d.choices[i] == StripChoice(chunk.choices[i])
  {
    StreamChunk(seq(|chunk.choices|, i requires 0 <= i < |chunk.choices| => StripChoice(chunk.choices[i])))
  }

  /** The decoder that reads every line as `decode` does, with all reasoning removed. */
  function WithoutReasoning(decode: Decoder): Decoder {
    (s: string) => if decode(s).Some? then Some(StripChunk(decode(s).value)) else None
  }

  lemma QuietLineIgnoresReasoning(line: string, decode: Decoder)
    ensures QuietLine(line, decode) == QuietLine(line, WithoutReasoning(decode))
  {
    var p := EventPayload(line);
    var strip := WithoutReasoning(decode);
    assert strip(p) == if decode(p).Some? then Some(StripChunk(decode(p).value)) else None;
    if LineChoice(line, decode).Some? {
      var c := decode(p).value.choices[0];
      assert LineChoice(line, strip) == Some(StripChoice(c));
      QuietChoiceIgnoresReasoning(c);
    } else {
      assert LineChoice(line, strip).None?;
    }
  }

  lemma QuietChoiceIgnoresReasoning(c: ChoiceStream)
    ensures QuietChoiceContent(StripChoice(c)) == QuietChoiceContent(c)
  {
    if c.message.Some? {
      var m := c.message.value;
      var m' := m - {"reasoning_content"};
      assert "content" != "reasoning_content";
      assert "content" in m' <==> "content" in m;
      if "content" in m {
        assert m'["content"] == m["content"];
      }
      assert StringAt(m', "content") == StringAt(m, "content");
    }
  }

  /** The quiet handler never looks at reasoning: removing it changes nothing it prints. */
  lemma {:induction false} QuietIgnoresReasoning(lines: seq<string>, decode: Decoder)
    ensures QuietText(lines, decode) == QuietText(lines, WithoutReasoning(decode))
    decreases |lines|
  {
    if lines != [] {
      QuietIgnoresReasoning(lines[..|lines| - 1], decode);
      QuietLineIgnoresReasoning(lines[|lines| - 1], decode);
    }
  }

  /**
   * What the quiet non-stream handler prints, and whether it failed: the raw
   * body on a decode error (the one failure) or when message.content is empty
   * or missing, otherwise that content.
   */
  function QuietNonStream(raw: string, body: Option<JsonValue>): (r: (string, bool))
    ensures r.1 <==> DecodeObject(body).None?
    ensures DecodeObject(body).None? ==> r.0 == raw
    ensures DecodeObject(body).Some? ==>
      var c := QuietNonStreamContent(DecodeObject(body).value);
      r.0 == (if c != "" then c else raw)
  {
    match DecodeObject(body)
    case None => (raw, true)
    case Some(j) =>
      var c := QuietNonStreamContent(j);
      (if c != "" then c else raw, false)
  }

  /**
   * The quiet non-stream handler reads nothing but choices[0].message.content:
   * replacing the first choice's delta leaves what it prints and its error
   * unchanged.
   */
  lemma QuietNonStreamIgnoresDelta(raw: string, j: Object, first: Object, d: JsonValue)
    requires FirstChoiceObject(j) == Some(first)
    ensures var j2 := j["choices" := JArray([JObject(first["delta" := d])] + j["choices"].items[1..])];
      QuietNonStream(raw, Some(JObject(j2))) == QuietNonStream(raw, Some(JObject(j)))
  {
    var first2 := first["delta" := d];
    var j2 := j["choices" := JArray([JObject(first2)] + j["choices"].items[1..])];
    assert FirstChoiceObject(j2) == Some(first2);
    assert ObjectAt(first2, "message") == ObjectAt(first, "message");
  }

  /** The quiet non-stream handler prints nothing only for an empty body, and fails only on an undecodable one. */
  lemma QuietNonStreamFallsBack(raw: string, body: Option<JsonValue>)
    ensures QuietNonStream(raw, body).0 == "" ==> raw == ""
    ensures body.Some? && body.value.JObject? ==> !QuietNonStream(raw, body).1
  {
  }

  /**
   * message is used only for a field delta leaves empty: when the first
   * choice's delta has non-empty reasoning and content, replacing its
   * message changes neither text.
   */
  lemma NonStreamDeltaWins(j: Object, first: Object, m: JsonValue)
    requires FirstChoiceObject(j) == Some(first)
    requires var delta := ObjectAt(first, "delta");
      StringIn(delta, "content").Some? && StringIn(delta, "content").value != ""
      && StringIn(delta, "reasoning_content").Some? && StringIn(delta, "reasoning_content").value != ""
    ensures var j2 := j["choices" := JArray([JObject(first["message" := m])] + j["choices"].items[1..])];
      NonStreamTexts(j2) == NonStreamTexts(j)
  {
    var first2 := first["message" := m];
    var j2 := j["choices" := JArray([JObject(first2)] + j["choices"].items[1..])];
    assert FirstChoiceObject(j2) == Some(first2);
    assert ObjectAt(first2, "delta") == ObjectAt(first, "delta");
  }
}
