/**
 * The selection both versions' export commands make from a conversation:
 * the assistant replies in order, the last n of them, and the separator they
 * are joined with; and the two steps of exportLastN that both versions share,
 * the backward scan and the in-place reversal of its result.
 */
module Export {
  import opened Json

  /** Why an export writes nothing. */
  datatype ExportError =
    | ReadFailed
    | NoAssistantResponses
    | IndexOutOfBounds(n: int, count: nat)

  /** The text an export writes to its target file, or why it writes none. */
  datatype ExportResult = Exported(content: string) | Failed(error: ExportError)

  /** The text between two exported replies. */
  function Separator(): string { "\n\n---\n\n" }

  /** The contents of the assistant messages, oldest first. */
  function AssistantContents(ms: seq<Message>): (r: seq<string>)
    ensures |r| <= |ms|
  {
    if ms == [] then []
    else
      var last := ms[|ms| - 1];
      AssistantContents(ms[..|ms| - 1]) + (if last.role == "assistant" then [last.content] else [])
  }

  lemma {:induction false} AssistantContentsAppend(xs: seq<Message>, ys: seq<Message>)
    ensures AssistantContents(xs + ys) == AssistantContents(xs) + AssistantContents(ys)
    decreases |ys|
  {
    if ys == [] {
      assert xs + ys == xs;
    } else {
      var zs := xs + ys;
      assert zs[..|zs| - 1] == xs + ys[..|ys| - 1];
      assert zs[|zs| - 1] == ys[|ys| - 1];
      AssistantContentsAppend(xs, ys[..|ys| - 1]);
    }
  }

  /** A message list starting with m: m's contribution, then the rest's. */
  lemma AssistantContentsCons(ms: seq<Message>, i: nat)
    requires i < |ms|
    ensures AssistantContents(ms[i..]) ==
      (if ms[i].role == "assistant" then [ms[i].content] else []) + AssistantContents(ms[i + 1..])
  {
    assert ms[i..] == [ms[i]] + ms[i + 1..];
    AssistantContentsAppend([ms[i]], ms[i + 1..]);
    assert [ms[i]][..0] == [];
  }

  /** A message list ending with m: the contents so far, then m's contribution. */
  lemma AssistantContentsSnoc(ms: seq<Message>, i: nat)
    requires i < |ms|
    ensures AssistantContents(ms[..i + 1]) ==
      AssistantContents(ms[..i]) + (if ms[i].role == "assistant" then [ms[i].content] else [])
  {
    assert ms[..i + 1][..i] == ms[..i];
  }

  /** Every selected content is an assistant message's content, and every assistant message is selected. */
  lemma {:induction false} AssistantContentsExactly(ms: seq<Message>)
    ensures forall c :: c in AssistantContents(ms) <==>
      exists i :: 0 <= i < |ms| && ms[i].role == "assistant" && ms[i].content == c
    decreases |ms|
  {
    if ms != [] {
      var init := ms[..|ms| - 1];
      AssistantContentsExactly(init);
      forall c ensures c in AssistantContents(ms) <==>
        exists i :: 0 <= i < |ms| && ms[i].role == "assistant" && ms[i].content == c
      {
        if c in AssistantContents(init) {
          var i :| 0 <= i < |init| && init[i].role == "assistant" && init[i].content == c;
          assert ms[i] == init[i];
        }
        if exists i :: 0 <= i < |ms| && ms[i].role == "assistant" && ms[i].content == c {
          var i :| 0 <= i < |ms| && ms[i].role == "assistant" && ms[i].content == c;
          if i < |init| {
            assert init[i] == ms[i];
          }
        }
      }
    }
  }

  /** The last n entries of xs in their order; all of them when n <= 0 or n >= |xs|. */
  function LastN(xs: seq<string>, n: int): (r: seq<string>)
    ensures |r| == if n <= 0 || n >= |xs| then |xs| else n
    ensures r == xs[|xs| - |r|..]
  {
    if n <= 0 || n >= |xs| then xs else xs[|xs| - n..]
  }

  /** A selection is empty only when there was nothing to select. */
  lemma LastNEmpty(xs: seq<string>, n: int)
    ensures LastN(xs, n) == [] <==> xs == []
  {
  }

  function Reversed(s: seq<string>): (r: seq<string>)
    ensures |r| == |s|
  {
    if s == [] then [] else Reversed(s[1..]) + [s[0]]
  }

  lemma {:induction false} ReversedIndex(s: seq<string>, k: nat)
    requires k < |s|
    ensures Reversed(s)[k] == s[|s| - 1 - k]
    decreases |s|
  {
    if k < |s| - 1 {
      ReversedIndex(s[1..], k);
    }
  }

  lemma ReversedTwice(s: seq<string>)
    ensures Reversed(Reversed(s)) == s
  {
    var r := Reversed(s);
    forall k | 0 <= k < |s| ensures Reversed(r)[k] == s[k] {
      ReversedIndex(r, k);
      ReversedIndex(s, |s| - 1 - k);
    }
  }

  /** Putting x in front of a sequence puts it at the back of the reversal. */
  lemma ReversedCons(x: string, s: seq<string>)
    ensures Reversed([x] + s) == Reversed(s) + [x]
  {
    assert ([x] + s)[1..] == s;
  }

  /**
   * exportLastN's backward scan: the assistant contents newest first,
   * stopping as soon as n are collected (never, when n <= 0).
   */
  method CollectNewestFirst(ms: seq<Message>, n: int) returns (picked: seq<string>)
    ensures picked == Reversed(LastN(AssistantContents(ms), n))
  {
    picked := [];
    var i := |ms|;
    while i > 0
      invariant 0 <= i <= |ms|
      invariant picked == Reversed(AssistantContents(ms[i..]))
      invariant n <= 0 || |picked| < n
    {
      i := i - 1;
      AssistantContentsCons(ms, i);
      ghost var rest := AssistantContents(ms[i + 1..]);
      if ms[i].role == "assistant" {
        ReversedCons(ms[i].content, rest);
        picked := picked + [ms[i].content];
        if |picked| == n {
          break;
        }
      } else {
        assert [] + rest == rest;
      }
    }
    ScanFinished(ms, n, i);
  }

  /** Where the scan stops, the messages from there on hold the selection. */
  lemma ScanFinished(ms: seq<Message>, n: int, i: nat)
    requires i <= |ms|
    requires i == 0 || (n > 0 && |AssistantContents(ms[i..])| == n)
    requires i == 0 ==> n <= 0 || |AssistantContents(ms[i..])| <= n
    ensures LastN(AssistantContents(ms), n) == AssistantContents(ms[i..])
  {
    if i == 0 {
      assert ms[i..] == ms;
    } else {
      TailSelected(ms, i, n);
    }
  }

  /** When the messages from i on hold exactly n replies, those are the last n. */
  lemma TailSelected(ms: seq<Message>, i: nat, n: int)
    requires i <= |ms| && n > 0
    requires |AssistantContents(ms[i..])| == n
    ensures LastN(AssistantContents(ms), n) == AssistantContents(ms[i..])
  {
    assert ms == ms[..i] + ms[i..];
    AssistantContentsAppend(ms[..i], ms[i..]);
  }

  /** The in-place swap loop that puts the scanned replies back in chronological order. */
  method ReverseInPlace(a: array<string>)
    modifies a
    ensures a[..] == Reversed(old(a[..]))
  {
    var i, j := 0, a.Length - 1;
    while i < j
      invariant 0 <= i <= j + 1 <= a.Length
      invariant i + j == a.Length - 1
      invariant forall k :: 0 <= k < i ==> a[k] == old(a[a.Length - 1 - k]) && a[a.Length - 1 - k] == old(a[k])
      invariant forall k :: i <= k <= j ==> a[k] == old(a[k])
    {
      a[i], a[j] := a[j], a[i];
      i, j := i + 1, j - 1;
    }
    ghost var before := old(a[..]);
    forall k | 0 <= k < a.Length ensures a[..][k] == Reversed(before)[k] {
      ReversedIndex(before, k);
    }
  }

  /** The scanned replies, copied into a fresh array and reversed there: the selection in chronological order. */
  method Chronological(picked: seq<string>) returns (a: array<string>)
    ensures fresh(a)
    ensures a[..] == Reversed(picked)
  {
    a := new string[|picked|](k requires 0 <= k < |picked| => picked[k]);
    assert a[..] == picked;
    ReverseInPlace(a);
  }
}
