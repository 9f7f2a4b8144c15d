/**
 * The root program's export commands (main.go): exportLastN, exportNth and
 * the `-t` option that asks for the reasoning blocks to be filtered out.
 *
 * The conversation file is passed as it was read (None: the read failed) and
 * the text each export writes to its target file is returned; the write
 * itself is not modelled. filterThinkingBlock is a regular-expression
 * replacement and is taken as a parameter `filter`.
 */
module RootExport {
  import opened Wrappers
  import opened GoText
  import opened GoStrconv
  import opened Json
  import opened RootFile
  import opened Export

  /** Each entry passed through f. */
  function Mapped(xs: seq<string>, f: string -> string): (r: seq<string>)
    ensures |r| == |xs|
    ensures forall k :: 0 <= k < |xs| ==> r[k] == f(xs[k])
  {
    seq(|xs|, k requires 0 <= k < |xs| => f(xs[k]))
  }

  /** The replies as written: filtered when `-t` was given. */
  function Filtered(xs: seq<string>, filterThinking: bool, filter: string -> string): seq<string> {
    if filterThinking then Mapped(xs, filter) else xs
  }

  /**
   * What exportLastN writes: the last n assistant replies (all of them when
   * n <= 0) oldest first, joined by the separator.
   */
  function LastNExport(n: int, file: Option<ConversationFile>, filterThinking: bool, filter: string -> string)
    : ExportResult
  {
    match file
    case None => Failed(ReadFailed)
    case Some(cf) =>
      var selected := LastN(AssistantContents(cf.messages), n);
      if selected == [] then Failed(NoAssistantResponses)
      else Exported(Join(Filtered(selected, filterThinking, filter), Separator()))
  }

  /** What exportNth writes: the n-th assistant reply counted from the last (n = 1 is the last). */
  function NthExport(n: int, file: Option<ConversationFile>, filterThinking: bool, filter: string -> string)
    : ExportResult
  {
    match file
    case None => Failed(ReadFailed)
    case Some(cf) =>
      var replies := AssistantContents(cf.messages);
      var index := |replies| - n;
      if replies == [] then Failed(NoAssistantResponses)
      else if index < 0 || index >= |replies| then Failed(IndexOutOfBounds(n, |replies|))
      else Exported(if filterThinking then filter(replies[index]) else replies[index])
  }

  /** The filtering loop over the selected replies, in place. */
  method FilterInPlace(a: array<string>, filter: string -> string)
    modifies a
    ensures a[..] == Mapped(old(a[..]), filter)
  {
    for i := 0 to a.Length
      invariant forall k :: 0 <= k < i ==> a[k] == filter(old(a[k]))
      invariant forall k :: i <= k < a.Length ==> a[k] == old(a[k])
    {
      a[i] := filter(a[i]);
    }
  }

  method ExportLastN(n: int, file: Option<ConversationFile>, filterThinking: bool, filter: string -> string)
    returns (r: ExportResult)
    ensures r == LastNExport(n, file, filterThinking, filter)
  {
    if file.None? {
      return Failed(ReadFailed);
    }
    var picked := CollectNewestFirst(file.value.messages, n);
    if |picked| == 0 {
      LastNEmpty(AssistantContents(file.value.messages), n);
      return Failed(NoAssistantResponses);
    }
    var a := Chronological(picked);
    ReversedTwice(LastN(AssistantContents(file.value.messages), n));
    if filterThinking {
      FilterInPlace(a, filter);
    }
    return Exported(Join(a[..], Separator()));
  }

  method ExportNth(n: int, file: Option<ConversationFile>, filterThinking: bool, filter: string -> string)
    returns (r: ExportResult)
    ensures r == NthExport(n, file, filterThinking, filter)
  {
    if file.None? {
      return Failed(ReadFailed);
    }
    var ms := file.value.messages;
    var replies: seq<string> := [];
    for i := 0 to |ms|
      invariant replies == AssistantContents(ms[..i])
    {
      AssistantContentsSnoc(ms, i);
      if ms[i].role == "assistant" {
        replies := replies + [ms[i].content];
      } else {
        assert replies + [] == replies;
      }
    }
    assert ms[..|ms|] == ms;
    if |replies| == 0 {
      return Failed(NoAssistantResponses);
    }
    var index := |replies| - n;
    if index < 0 || index >= |replies| {
      return Failed(IndexOutOfBounds(n, |replies|));
    }
    var content := replies[index];
    if filterThinking {
      content := filter(content);
    }
    return Exported(content);
  }

  /** The words with every `-t` removed, in order. */
  function WithoutTFlag(ps: seq<string>): (r: seq<string>) {
    if ps == [] then []
    else WithoutTFlag(ps[..|ps| - 1]) + (if ps[|ps| - 1] == "-t" then [] else [ps[|ps| - 1]])
  }

  /** Removing `-t` keeps exactly the other words. */
  lemma {:induction false} WithoutTFlagExactly(ps: seq<string>)
    ensures forall w :: w in WithoutTFlag(ps) <==> w in ps && w != "-t"
    decreases |ps|
  {
    if ps != [] {
      var init := ps[..|ps| - 1];
      WithoutTFlagExactly(init);
      assert ps == init + [ps[|ps| - 1]];
    }
  }

  /** One more word: it is dropped if it is `-t` and kept otherwise. */
  lemma TFlagStep(ps: seq<string>, w: string)
    ensures WithoutTFlag(ps + [w]) == WithoutTFlag(ps) + (if w == "-t" then [] else [w])
    ensures "-t" in ps + [w] <==> "-t" in ps || w == "-t"
  {
    assert (ps + [w])[..|ps|] == ps;
  }

  /**
   * parseTFlag: whether `-t` occurs after the command word, and the words
   * with every such `-t` removed. The command word itself is always kept.
   */
  method ParseTFlag(parts: seq<string>) returns (filterThinking: bool, newParts: seq<string>)
    requires |parts| >= 1
    ensures filterThinking <==> "-t" in parts[1..]
    ensures newParts == [parts[0]] + WithoutTFlag(parts[1..])
  {
    filterThinking := false;
    newParts := [parts[0]];
    var rest := parts[1..];
    for i := 0 to |rest|
      invariant filterThinking <==> "-t" in rest[..i]
      invariant newParts == [parts[0]] + WithoutTFlag(rest[..i])
    {
      assert rest[..i + 1] == rest[..i] + [rest[i]];
      TFlagStep(rest[..i], rest[i]);
      if rest[i] == "-t" {
        filterThinking := true;
      } else {
        newParts := newParts + [rest[i]];
      }
    }
    assert rest[..|rest|] == rest;
  }

  /** A reader that finds no reply has nothing to export, whichever export is asked for. */
  lemma NoRepliesNoExport(n: int, m: int, cf: ConversationFile, filterThinking: bool, filter: string -> string)
    requires AssistantContents(cf.messages) == []
    ensures LastNExport(n, Some(cf), filterThinking, filter) == Failed(NoAssistantResponses)
    ensures NthExport(m, Some(cf), filterThinking, filter) == Failed(NoAssistantResponses)
  {
  }

  /** exportLastN fails exactly when the file does not read or holds no assistant reply. */
  lemma LastNSucceeds(n: int, file: Option<ConversationFile>, filterThinking: bool, filter: string -> string)
    ensures LastNExport(n, file, filterThinking, filter).Exported? <==>
      file.Some? && AssistantContents(file.value.messages) != []
  {
    if file.Some? {
      LastNEmpty(AssistantContents(file.value.messages), n);
    }
  }

  /** Unfiltered, exportLastN writes the last min(n, k) replies in order, joined; all k when n <= 0. */
  lemma LastNContent(n: int, cf: ConversationFile, filter: string -> string)
    requires AssistantContents(cf.messages) != []
    ensures var replies := AssistantContents(cf.messages);
      var k := if n <= 0 || n >= |replies| then |replies| else n;
      LastNExport(n, Some(cf), false, filter) == Exported(Join(replies[|replies| - k..], Separator()))
  {
    LastNEmpty(AssistantContents(cf.messages), n);
  }

  /** exportNth succeeds exactly for 1 <= n <= k and then writes the n-th reply from the last. */
  lemma NthSucceeds(n: int, cf: ConversationFile, filterThinking: bool, filter: string -> string)
    ensures var replies := AssistantContents(cf.messages);
      (NthExport(n, Some(cf), filterThinking, filter).Exported? <==> 1 <= n <= |replies|)
      && (1 <= n <= |replies| && !filterThinking ==>
            NthExport(n, Some(cf), filterThinking, filter).content == replies[|replies| - n])
  {
  }

  /** The n-th reply from the last is the first of the last n. */
  lemma NthHeadsLastN(n: int, cf: ConversationFile, filterThinking: bool, filter: string -> string)
    requires 1 <= n <= |AssistantContents(cf.messages)|
    ensures NthExport(n, Some(cf), filterThinking, filter).Exported?
    ensures NthExport(n, Some(cf), false, filter).content == LastN(AssistantContents(cf.messages), n)[0]
  {
  }

  /** `/exportlast` and `/exportn 1` write the same text. */
  lemma LastIsFirstFromEnd(cf: ConversationFile, filterThinking: bool, filter: string -> string)
    ensures LastNExport(1, Some(cf), filterThinking, filter) == NthExport(1, Some(cf), filterThinking, filter)
  {
    var replies := AssistantContents(cf.messages);
    if replies != [] {
      var sel := LastN(replies, 1);
      assert sel == [replies[|replies| - 1]];
      assert Filtered(sel, filterThinking, filter) == [if filterThinking then filter(replies[|replies| - 1]) else replies[|replies| - 1]];
    }
  }

  /**
   * The export commands (exportlast, exportn, exportlastn) after `-t` is
   * removed: the target file and what is written to it, or None when too
   * few words were given (the usage message). n is read with Atoi's error
   * ignored, so a word that is no number asks for n = 0.
   */
  function ExportCommandResult(commandName: string, parts: seq<string>, file: Option<ConversationFile>,
                               filter: string -> string): Option<(string, ExportResult)>
    requires |parts| >= 1
  {
    var newParts := [parts[0]] + WithoutTFlag(parts[1..]);
    var ft := "-t" in parts[1..];
    if commandName == "exportlast" then
      if |newParts| < 2 then None else Some((newParts[1], LastNExport(1, file, ft, filter)))
    else if |newParts| < 3 then None
    else
      var n := AtoiIgnoringError(newParts[1]);
      Some((newParts[2], if commandName == "exportn" then NthExport(n, file, ft, filter)
                         else LastNExport(n, file, ft, filter)))
  }

  method ExportCommand(commandName: string, parts: seq<string>, file: Option<ConversationFile>, filter: string -> string)
    returns (r: Option<(string, ExportResult)>)
    requires |parts| >= 1
    requires commandName in {"exportlast", "exportn", "exportlastn"}
    ensures r == ExportCommandResult(commandName, parts, file, filter)
  {
    var filterThinking, newParts := ParseTFlag(parts);
    if commandName == "exportlast" {
      if |newParts| < 2 {
        return None;
      }
      var written := ExportLastN(1, file, filterThinking, filter);
      return Some((newParts[1], written));
    }
    if |newParts| < 3 {
      return None;
    }
    var n := AtoiIgnoringError(newParts[1]);
    var written;
    if commandName == "exportn" {
      written := ExportNth(n, file, filterThinking, filter);
    } else {
      written := ExportLastN(n, file, filterThinking, filter);
    }
    return Some((newParts[2], written));
  }
}
