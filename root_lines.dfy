/**
 * The root program's line reader: readSingleLine reads byte by byte until the
 * bytes read so far end with one of the delimiters, and readLines repeats it
 * until the end of input. The reader is the sequence of bytes not yet read;
 * read errors other than the end of input are not modelled.
 */
module RootLines {
  import opened Wrappers

  newtype byte = b: int | 0 <= b < 256

  const CR: byte := 13
  const LF: byte := 10

  /** The list used when the caller passes none: "\r\n", "\r", "\n", in this order. */
  function DefaultDelimiters(): seq<seq<byte>> {
    [[CR, LF], [CR], [LF]]
  }

  function Effective(delimiters: seq<seq<byte>>): seq<seq<byte>> {
    if |delimiters| == 0 then DefaultDelimiters() else delimiters
  }

  /** bytes.HasSuffix */
  predicate EndsWith(s: seq<byte>, d: seq<byte>) {
    |d| <= |s| && s[|s| - |d|..] == d
  }

  /** The index of the first delimiter, in list order from `from`, that line ends with. */
  function FirstSuffix(line: seq<byte>, delims: seq<seq<byte>>, from: nat): (r: Option<nat>)
    requires from <= |delims|
    ensures r.Some? ==> from <= r.value < |delims| && EndsWith(line, delims[r.value])
    ensures r.Some? ==> forall j {:trigger EndsWith(line, delims[j])} | from <= j < r.value :: !EndsWith(line, delims[j])
    ensures r.None? ==> forall j {:trigger EndsWith(line, delims[j])} | from <= j < |delims| :: !EndsWith(line, delims[j])
    decreases |delims| - from
  {
    if from == |delims| then None
    else if EndsWith(line, delims[from]) then Some(from)
    else FirstSuffix(line, delims, from + 1)
  }

  /** The bytes read so far complete a line. */
  predicate Completes(line: seq<byte>, delims: seq<seq<byte>>) {
    FirstSuffix(line, delims, 0).Some?
  }

  /** The length of the shortest prefix, of length at least k, that completes a line. */
  function LineEndFrom(input: seq<byte>, delims: seq<seq<byte>>, k: nat): (r: Option<nat>)
    requires 1 <= k
    ensures r.Some? ==> k <= r.value <= |input| && Completes(input[..r.value], delims)
    ensures r.Some? ==> forall j {:trigger Completes(input[..j], delims)} | k <= j < r.value :: !Completes(input[..j], delims)
    ensures r.None? ==> forall j {:trigger Completes(input[..j], delims)} | k <= j <= |input| :: !Completes(input[..j], delims)
    decreases |input| + 1 - k
  {
    if k > |input| then None
    else if Completes(input[..k], delims) then Some(k)
    else LineEndFrom(input, delims, k + 1)
  }

  /** Where the first line ends: the shortest non-empty prefix that ends with any delimiter. */
  function LineEnd(input: seq<byte>, delims: seq<seq<byte>>): (r: Option<nat>)
    ensures r.Some? ==> 1 <= r.value <= |input| && Completes(input[..r.value], delims)
    ensures r.Some? ==> forall j {:trigger Completes(input[..j], delims)} | 1 <= j < r.value :: !Completes(input[..j], delims)
    ensures r.None? ==> forall j {:trigger Completes(input[..j], delims)} | 1 <= j <= |input| :: !Completes(input[..j], delims)
  {
    LineEndFrom(input, delims, 1)
  }

  /** A line, the number of bytes it took from the input, and whether the input ended. */
  datatype LineResult = LineResult(line: seq<byte>, consumed: nat, eof: bool)

  /**
   * readSingleLine on input: the shortest prefix that ends with a delimiter,
   * without the first delimiter (in list order) it ends with when trimming;
   * at the end of input, whatever was read, untrimmed, with EOF.
   */
  function ReadLine(input: seq<byte>, delims: seq<seq<byte>>, trim: bool): (r: LineResult)
    ensures r.consumed <= |input|
    ensures r.eof <==> LineEnd(input, delims).None?
    ensures r.eof ==> r.line == input && r.consumed == |input|
    ensures !r.eof ==> r.consumed == LineEnd(input, delims).value && r.consumed >= 1
    ensures !r.eof && !trim ==> r.line == input[..r.consumed]
  {
    match LineEnd(input, delims)
    case None => LineResult(input, |input|, true)
    case Some(k) =>
      var d := delims[FirstSuffix(input[..k], delims, 0).value];
      LineResult(if trim then input[..k - |d|] else input[..k], k, false)
  }

  /** readLines on input: every line read, and the last partial line when it is not empty. */
  function Lines(input: seq<byte>, delims: seq<seq<byte>>, trim: bool): seq<seq<byte>>
    decreases |input|
  {
    var r := ReadLine(input, delims, trim);
    if r.eof then (if r.line != [] then [r.line] else [])
    else [r.line] + Lines(input[r.consumed..], delims, trim)
  }

  function Concat(parts: seq<seq<byte>>): seq<byte> {
    if parts == [] then [] else parts[0] + Concat(parts[1..])
  }

  /** The input, as the bytes not yet read. */
  class Reader {
    var rest: seq<byte>

    constructor (input: seq<byte>)
      ensures rest == input
    {
      rest := input;
    }

    method ReadByte() returns (b: byte, ok: bool)
      modifies this
      ensures ok <==> old(rest) != []
      ensures ok ==> b == old(rest)[0] && rest == old(rest)[1..]
      ensures !ok ==> rest == old(rest)
    {
      if rest == [] {
        return 0, false;
      }
      b := rest[0];
      rest := rest[1..];
      return b, true;
    }

    method ReadSingleLine(delimiters: seq<seq<byte>>, trimDelimiter: bool) returns (line: seq<byte>, eof: bool)
      modifies this
      ensures var r := ReadLine(old(rest), Effective(delimiters), trimDelimiter);
        line == r.line && eof == r.eof && rest == old(rest)[r.consumed..]
    {
      var delims := if |delimiters| == 0 then DefaultDelimiters() else delimiters;
      var buf: seq<byte> := [];
      while true
        invariant buf + rest == old(rest)
        invariant forall j {:trigger Completes(old(rest)[..j], delims)} | 1 <= j <= |buf| :: !Completes(old(rest)[..j], delims)
        decreases |rest|
      {
        var b, ok := ReadByte();
        if !ok {
          NoLineEnd(old(rest), delims);
          if |buf| == 0 {
            return [], true;
          }
          return buf, true;
        }
        buf := buf + [b];
        assert buf == old(rest)[..|buf|];
        var i := 0;
        while i < |delims|
          invariant 0 <= i <= |delims|
          invariant forall j {:trigger EndsWith(buf, delims[j])} | 0 <= j < i :: !EndsWith(buf, delims[j])
        {
          if EndsWith(buf, delims[i]) {
            ReadSingleLineDone(old(rest), delims, buf, i);
            var result := buf;
            if trimDelimiter {
              result := buf[..|buf| - |delims[i]|];
            }
            return result, false;
          }
          i := i + 1;
        }
        assert !Completes(buf, delims);
      }
    }

    method ReadLines(delimiters: seq<seq<byte>>, trimDelimiter: bool) returns (lines: seq<seq<byte>>)
      modifies this
      ensures lines == Lines(old(rest), Effective(delimiters), trimDelimiter)
    {
      var delims := Effective(delimiters);
      EffectiveSettles(delimiters);
      lines := [];
      var lastErrEof := false;
      while true
        invariant lines + Lines(rest, delims, trimDelimiter) == Lines(old(rest), delims, trimDelimiter)
        invariant !lastErrEof
        decreases |rest|
      {
        ghost var before := rest;
        ghost var linesBefore := lines;
        var line, eof := ReadSingleLine(delims, trimDelimiter);
        ReadLinesStep(before, delims, trimDelimiter, line, eof, rest, linesBefore, Lines(old(rest), delims, trimDelimiter));
        if eof {
          lastErrEof := true;
          if line != [] {
            lines := lines + [line];
          }
          break;
        }
        if line != [] || !lastErrEof {
          lines := lines + [line];
        }
      }
    }
  }

  /** One iteration of readLines keeps the lines so far plus the lines still to read equal to all lines. */
  lemma ReadLinesStep(before: seq<byte>, delims: seq<seq<byte>>, trim: bool, line: seq<byte>, eof: bool,
                      rest: seq<byte>, lines: seq<seq<byte>>, all: seq<seq<byte>>)
    requires var r := ReadLine(before, delims, trim);
      line == r.line && eof == r.eof && rest == before[r.consumed..]
    requires lines + Lines(before, delims, trim) == all
    ensures eof ==> (if line != [] then lines + [line] else lines) == all
    ensures !eof ==> (lines + [line]) + Lines(rest, delims, trim) == all && |rest| < |before|
  {
    LinesStep(before, delims, trim, line, eof, rest);
    if !eof {
      AppendAssoc(lines, [line], Lines(rest, delims, trim));
    }
  }

  lemma AppendAssoc<T>(a: seq<T>, b: seq<T>, c: seq<T>)
    ensures (a + b) + c == a + (b + c)
  {
  }

  lemma EffectiveSettles(delimiters: seq<seq<byte>>)
    ensures Effective(Effective(delimiters)) == Effective(delimiters)
  {
  }

  /** The first prefix that ends with a delimiter is the line readSingleLine returns. */
  lemma ReadSingleLineDone(input: seq<byte>, delims: seq<seq<byte>>, buf: seq<byte>, i: nat)
    requires 1 <= |buf| <= |input| && buf == input[..|buf|]
    requires forall j {:trigger Completes(input[..j], delims)} | 1 <= j < |buf| :: !Completes(input[..j], delims)
    requires i < |delims| && EndsWith(buf, delims[i])
    requires forall j {:trigger EndsWith(buf, delims[j])} | 0 <= j < i :: !EndsWith(buf, delims[j])
    ensures LineEnd(input, delims) == Some(|buf|)
    ensures FirstSuffix(buf, delims, 0) == Some(i)
  {
    var r := FirstSuffix(buf, delims, 0);
    assert r.Some?;
    assert EndsWith(buf, delims[r.value]);
    assert r == Some(i);
    LineEndAt(input, delims, |buf|);
  }

  /** No prefix completes a line: the input ends first. */
  lemma NoLineEnd(input: seq<byte>, delims: seq<seq<byte>>)
    requires forall j {:trigger Completes(input[..j], delims)} | 1 <= j <= |input| :: !Completes(input[..j], delims)
    ensures LineEnd(input, delims).None?
  {
  }

  /** One step of readLines: the line read, then the lines of what is left. */
  lemma LinesStep(input: seq<byte>, delims: seq<seq<byte>>, trim: bool, line: seq<byte>, eof: bool, rest: seq<byte>)
    requires var r := ReadLine(input, delims, trim);
      line == r.line && eof == r.eof && rest == input[r.consumed..]
    ensures eof ==> Lines(input, delims, trim) == (if line != [] then [line] else [])
    ensures !eof ==> Lines(input, delims, trim) == [line] + Lines(rest, delims, trim) && |rest| < |input|
  {
  }

  lemma EndsWithOne(s: seq<byte>, x: byte)
    ensures EndsWith(s, [x]) <==> |s| >= 1 && s[|s| - 1] == x
  {
    if |s| >= 1 {
      assert s[|s| - 1..] == [s[|s| - 1]];
    }
  }

  lemma EndsWithTwo(s: seq<byte>, x: byte, y: byte)
    ensures EndsWith(s, [x, y]) <==> |s| >= 2 && s[|s| - 2] == x && s[|s| - 1] == y
  {
    if |s| >= 2 {
      assert s[|s| - 2..] == [s[|s| - 2], s[|s| - 1]];
    }
  }

  /** d is the default list, "\r\n", "\r", "\n" in this order. */
  predicate DefaultList(d: seq<seq<byte>>) {
    |d| == 3 && d[0] == [CR, LF] && d[1] == [CR] && d[2] == [LF]
  }

  lemma DefaultDelimitersAreDefaultList()
    ensures DefaultList(DefaultDelimiters())
  {
  }

  /** The default list, tried in order. */
  lemma DefaultFirstSuffix(s: seq<byte>, d: seq<seq<byte>>)
    requires DefaultList(d)
    ensures FirstSuffix(s, d, 0) ==
      if EndsWith(s, [CR, LF]) then Some(0)
      else if EndsWith(s, [CR]) then Some(1)
      else if EndsWith(s, [LF]) then Some(2)
      else None
  {
    assert FirstSuffix(s, d, 1) == if EndsWith(s, [CR]) then Some(1) else FirstSuffix(s, d, 2);
    assert FirstSuffix(s, d, 2) == if EndsWith(s, [LF]) then Some(2) else FirstSuffix(s, d, 3);
    assert FirstSuffix(s, d, 3) == None;
  }

  /** Which default delimiter the bytes read so far end with, judged by their last two bytes. */
  lemma DefaultSuffix(s: seq<byte>, d: seq<seq<byte>>)
    requires DefaultList(d)
    ensures |s| >= 1 && s[|s| - 1] == CR ==> FirstSuffix(s, d, 0) == Some(1)
    ensures |s| >= 2 && s[|s| - 2] == CR && s[|s| - 1] == LF ==> FirstSuffix(s, d, 0) == Some(0)
    ensures |s| >= 1 && s[|s| - 1] == LF && !(|s| >= 2 && s[|s| - 2] == CR) ==> FirstSuffix(s, d, 0) == Some(2)
    ensures (|s| == 0 || (s[|s| - 1] != CR && s[|s| - 1] != LF)) ==> !Completes(s, d)
  {
    DefaultFirstSuffix(s, d);
    EndsWithTwo(s, CR, LF);
    EndsWithOne(s, CR);
    EndsWithOne(s, LF);
  }

  // ---------------------------------------------------------------------
  // What the reader promises
  // ---------------------------------------------------------------------

  /** Nothing left to read gives an empty line with EOF. */
  lemma EmptyInputIsEof(delims: seq<seq<byte>>, trim: bool)
    ensures ReadLine([], delims, trim) == LineResult([], 0, true)
  {
  }

  /** With the default list and trimming, a line never holds a carriage return or a line feed. */
  lemma DefaultLineHasNoCrLf(input: seq<byte>, d: seq<seq<byte>>)
    requires DefaultList(d)
    ensures var r := ReadLine(input, d, true);
      CR !in r.line && LF !in r.line
  {
    var r := ReadLine(input, d, true);
    var end := LineEnd(input, d);
    var n := if end.Some? then end.value - 1 else |input|;
    BeforeLineEndNoCrLf(input, d, n);
    if end.Some? {
      DefaultLineTrimmed(input, d, end.value);
      assert r.line == input[..n];
    }
    assert forall j | 0 <= j < |r.line| :: r.line[j] == input[j];
  }

  /** Every byte read before the byte that completes the line is neither "\r" nor "\n". */
  lemma BeforeLineEndNoCrLf(input: seq<byte>, d: seq<seq<byte>>, n: nat)
    requires DefaultList(d)
    requires n <= |input|
    requires forall j {:trigger Completes(input[..j], d)} | 1 <= j <= n :: !Completes(input[..j], d)
    ensures forall j | 0 <= j < n :: input[j] != CR && input[j] != LF
  {
    forall j | 0 <= j < n ensures input[j] != CR && input[j] != LF {
      assert !Completes(input[..j + 1], d);
      DefaultSuffix(input[..j + 1], d);
    }
  }

  /** The first line completed under the default list ends in one byte that trimming removes. */
  lemma DefaultLineTrimmed(input: seq<byte>, d: seq<seq<byte>>, k: nat)
    requires DefaultList(d)
    requires LineEnd(input, d) == Some(k)
    ensures ReadLine(input, d, true).line == input[..k - 1]
  {
    if k >= 2 {
      assert !Completes(input[..k - 1], d);
      DefaultSuffix(input[..k - 1], d);
      assert input[..k - 1][k - 2] == input[k - 2];
    }
    DefaultSuffix(input[..k], d);
    assert input[..k][k - 1] == input[k - 1];
    assert k >= 2 ==> input[..k][k - 2] == input[k - 2];
  }

  /** A read ends at the first prefix that completes a line. */
  lemma LineEndAt(input: seq<byte>, delims: seq<seq<byte>>, k: nat)
    requires 1 <= k <= |input|
    requires Completes(input[..k], delims)
    requires forall j {:trigger Completes(input[..j], delims)} | 1 <= j < k :: !Completes(input[..j], delims)
    ensures LineEnd(input, delims) == Some(k)
  {
  }

  /** With the default list, a line free of both bytes followed by "\r" is read up to the "\r". */
  lemma CrEndsLine(p: seq<byte>, rest: seq<byte>, d: seq<seq<byte>>)
    requires DefaultList(d)
    requires CR !in p && LF !in p
    ensures ReadLine(p + [CR] + rest, d, true) == LineResult(p, |p| + 1, false)
  {
    var input := p + [CR] + rest;
    PlainPrefixesIncomplete(p, input, d);
    CrCompletes(p, input, d);
    LineEndAt(input, d, |p| + 1);
    assert input[..|p|] == p;
  }

  lemma PlainPrefixesIncomplete(p: seq<byte>, input: seq<byte>, d: seq<seq<byte>>)
    requires DefaultList(d)
    requires CR !in p && LF !in p
    requires |p| <= |input| && input[..|p|] == p
    ensures forall j {:trigger Completes(input[..j], d)} | 1 <= j <= |p| :: !Completes(input[..j], d)
  {
    forall j | 1 <= j <= |p| ensures !Completes(input[..j], d) {
      assert input[..j][j - 1] == p[j - 1];
      DefaultSuffix(input[..j], d);
    }
  }

  lemma CrCompletes(p: seq<byte>, input: seq<byte>, d: seq<seq<byte>>)
    requires DefaultList(d)
    requires |p| < |input| && input[..|p| + 1] == p + [CR]
    ensures Completes(input[..|p| + 1], d) && FirstSuffix(input[..|p| + 1], d, 0) == Some(1)
  {
    DefaultSuffix(p + [CR], d);
  }

  /** With the default list, a "\n" at the start is read as an empty line. */
  lemma LfAloneIsEmptyLine(rest: seq<byte>, d: seq<seq<byte>>)
    requires DefaultList(d)
    ensures ReadLine([LF] + rest, d, true) == LineResult([], 1, false)
  {
    var input := [LF] + rest;
    assert input[..1] == [LF];
    DefaultSuffix([LF], d);
    LineEndAt(input, d, 1);
  }

  /**
   * With the default list, "\r\n" after a line free of both bytes ends the
   * line at "\r": the "\n" is left for the next read, which returns an empty
   * line.
   */
  lemma CrLfSplitsAtCr(p: seq<byte>, q: seq<byte>, d: seq<seq<byte>>)
    requires DefaultList(d)
    requires CR !in p && LF !in p
    ensures var input := p + [CR, LF] + q;
      ReadLine(input, d, true) == LineResult(p, |p| + 1, false)
      && ReadLine(input[|p| + 1..], d, true) == LineResult([], 1, false)
  {
    var input := p + [CR, LF] + q;
    assert input == p + [CR] + ([LF] + q);
    CrEndsLine(p, [LF] + q, d);
    assert input[|p| + 1..] == [LF] + q;
    LfAloneIsEmptyLine(q, d);
  }

  /** Without trimming, the lines put together give back the input. */
  lemma {:induction false} LinesUntrimmedJoin(input: seq<byte>, delims: seq<seq<byte>>)
    ensures Concat(Lines(input, delims, false)) == input
    decreases |input|
  {
    var r := ReadLine(input, delims, false);
    if !r.eof {
      LinesUntrimmedJoin(input[r.consumed..], delims);
      assert input == input[..r.consumed] + input[r.consumed..];
    }
  }
}
