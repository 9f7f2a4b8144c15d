/**
 * The few functions of Go's `strings` package that the chat client uses on
 * text: TrimSpace, HasPrefix, TrimPrefix, HasSuffix, ToUpper, Fields, Join and
 * the split at the first '=' done by `strings.SplitN(a, "=", 2)`.
 * A Go string is modelled as a sequence of runes (`seq<char>`).
 */
module GoText {
  import opened Wrappers

  /** unicode.IsSpace: the white-space runes TrimSpace and Fields skip. */
  predicate IsSpace(c: char) {
    c == '\t' || c == '\n' || c == '\U{000B}' || c == '\U{000C}' || c == '\r' || c == ' '
    || c == '\U{0085}' || c == '\U{00A0}' || c == '\U{1680}'
    || ('\U{2000}' <= c <= '\U{200A}')
    || c == '\U{2028}' || c == '\U{2029}' || c == '\U{202F}' || c == '\U{205F}' || c == '\U{3000}'
  }

  predicate AllSpace(s: string) {
    forall i :: 0 <= i < |s| ==> IsSpace(s[i])
  }

  predicate NoSpace(s: string) {
    forall i :: 0 <= i < |s| ==> !IsSpace(s[i])
  }

  /** strings.TrimLeft(s, white space): drops the leading white space, and only that. */
  function TrimLeftSpace(s: string): (r: string)
    ensures |r| <= |s| && r == s[|s| - |r|..]
    ensures AllSpace(s[..|s| - |r|])
    ensures r == [] || !IsSpace(r[0])
  {
    if s != [] && IsSpace(s[0]) then TrimLeftSpace(s[1..]) else s
  }

  /** strings.TrimRight(s, white space): drops the trailing white space, and only that. */
  function TrimRightSpace(s: string): (r: string)
    ensures |r| <= |s| && r == s[..|r|]
    ensures AllSpace(s[|r|..])
    ensures r == [] || !IsSpace(r[|r| - 1])
  {
    if s != [] && IsSpace(s[|s| - 1]) then TrimRightSpace(s[..|s| - 1]) else s
  }

  /** The number of white-space runes s starts with. */
  function LeadingSpace(s: string): (n: nat)
    ensures n <= |s| && AllSpace(s[..n])
    ensures n < |s| ==> !IsSpace(s[n])
  {
    var t := TrimLeftSpace(s);
    assert |s| - |t| < |s| ==> s[|s| - |t|] == t[0];
    |s| - |t|
  }

  /**
   * strings.TrimSpace: the slice of s after its leading white space, ending
   * where the trailing white space starts; it neither starts nor ends with
   * white space, so no longer slice qualifies.
   */
  function TrimSpace(s: string): (r: string)
    ensures LeadingSpace(s) + |r| <= |s|
    ensures r == s[LeadingSpace(s)..LeadingSpace(s) + |r|] && AllSpace(s[LeadingSpace(s) + |r|..])
    ensures r == [] || (!IsSpace(r[0]) && !IsSpace(r[|r| - 1]))
    ensures AllSpace(s) <==> r == []
  {
    var t := TrimLeftSpace(s);
    var r := TrimRightSpace(t);
    TrimmedSlice(s, |s| - |t|, t, r);
    TrimmedBlank(s, |s| - |t|, t, r);
    r
  }

  /**
   * Dropping the white space s starts with (k runes, leaving t) and then the
   * white space t ends with (leaving r) leaves a slice of s followed only by
   * white space.
   */
  lemma TrimmedSlice(s: string, k: nat, t: string, r: string)
    requires k <= |s| && t == s[k..]
    requires |r| <= |t| && r == t[..|r|] && AllSpace(t[|r|..])
    ensures k + |r| <= |s| && r == s[k..k + |r|] && AllSpace(s[k + |r|..])
  {
    assert s[k + |r|..] == t[|r|..];
  }

  /** With the same k, t and r, trimming leaves nothing exactly when s is all white space. */
  lemma TrimmedBlank(s: string, k: nat, t: string, r: string)
    requires k <= |s| && t == s[k..] && AllSpace(s[..k]) && (t == [] || !IsSpace(t[0]))
    requires |r| <= |t| && r == t[..|r|] && AllSpace(t[|r|..])
    ensures AllSpace(s) <==> r == []
  {
    if AllSpace(s) {
      BlankLeavesNothing(s, k, t);
    }
    if r == [] {
      assert t[|r|..] == t;
      NothingLeftIsBlank(s, k, t);
    }
  }

  lemma BlankLeavesNothing(s: string, k: nat, t: string)
    requires k <= |s| && t == s[k..] && AllSpace(s)
    ensures t == [] || IsSpace(t[0])
  {
    if t != [] {
      assert t[0] == s[k];
    }
  }

  lemma NothingLeftIsBlank(s: string, k: nat, t: string)
    requires k <= |s| && t == s[k..] && AllSpace(s[..k]) && AllSpace(t)
    ensures AllSpace(s)
  {
    forall i | 0 <= i < |s| ensures IsSpace(s[i]) {
      if i < k {
        assert s[i] == s[..k][i];
      } else {
        assert s[i] == t[i - k];
      }
    }
  }

  predicate HasPrefix(s: string, p: string) {
    |p| <= |s| && s[..|p|] == p
  }

  predicate HasSuffix(s: string, p: string) {
    |p| <= |s| && s[|s| - |p|..] == p
  }

  /** strings.TrimPrefix: removes p once when s starts with it. */
  function TrimPrefix(s: string, p: string): (r: string)
    ensures HasPrefix(s, p) ==> p + r == s
    ensures !HasPrefix(s, p) ==> r == s
  {
    if HasPrefix(s, p) then s[|p|..] else s
  }

  /** Upper-casing of one rune (ASCII letters; the client only upper-cases ASCII names). */
  function UpperChar(c: char): char {
    if 'a' <= c <= 'z' then (c as int - 32) as char else c
  }

  /** strings.ToUpper restricted to ASCII. */
  function ToUpper(s: string): (r: string)
    ensures |r| == |s|
    ensures forall i :: 0 <= i < |s| ==> r[i] == UpperChar(s[i])
  {
    seq(|s|, i requires 0 <= i < |s| => UpperChar(s[i]))
  }

  /** A name made of lower-case ASCII letters, digits and underscores. */
  predicate IsLowerName(s: string) {
    forall i :: 0 <= i < |s| ==> ('a' <= s[i] <= 'z') || ('0' <= s[i] <= '9') || s[i] == '_'
  }

  /** ToUpper never maps two different lower-case names to the same key. */
  lemma ToUpperInjective(a: string, b: string)
    requires IsLowerName(a) && IsLowerName(b)
    requires ToUpper(a) == ToUpper(b)
    ensures a == b
  {
    assert |a| == |b|;
    forall i | 0 <= i < |a| ensures a[i] == b[i] {
      assert ToUpper(a)[i] == ToUpper(b)[i];
    }
  }

  /** Length of the leading run of non-space runes. */
  function WordLen(s: string): (n: nat)
    ensures n <= |s| && NoSpace(s[..n])
    ensures n < |s| ==> IsSpace(s[n])
    ensures s != [] && !IsSpace(s[0]) ==> n > 0
  {
    if s == [] || IsSpace(s[0]) then 0 else 1 + WordLen(s[1..])
  }

  /** strings.Fields: the maximal runs of non-space runes, in order. */
  function Fields(s: string): (r: seq<string>)
    ensures forall i :: 0 <= i < |r| ==> r[i] != [] && NoSpace(r[i])
    decreases |s|
  {
    var t := TrimLeftSpace(s);
    if t == [] then []
    else
      var n := WordLen(t);
      var rest := Fields(t[n..]);
      WordsCons(t[..n], rest);
      [t[..n]] + rest
  }

  lemma WordsCons(w: string, ws: seq<string>)
    requires w != [] && NoSpace(w)
    requires forall i :: 0 <= i < |ws| ==> ws[i] != [] && NoSpace(ws[i])
    ensures forall i :: 0 <= i < |[w] + ws| ==> ([w] + ws)[i] != [] && NoSpace(([w] + ws)[i])
  {
    forall i | 0 < i < |[w] + ws| ensures ([w] + ws)[i] == ws[i - 1] {}
  }

  /** gaps[0] + words[0] + gaps[1] + ... + words[n - 1] + gaps[n]. */
  function Interleave(gaps: seq<string>, words: seq<string>): string
    requires |gaps| == |words| + 1
    decreases |words|
  {
    if words == [] then gaps[0] else gaps[0] + words[0] + Interleave(gaps[1..], words[1..])
  }

  /**
   * s is words separated by white space: the gaps are white space, the ones
   * between two words are not empty, and the words are non-empty runs
   * without white space, so each word is a maximal run of s.
   */
  predicate SpaceSeparated(gaps: seq<string>, words: seq<string>, s: string) {
    |gaps| == |words| + 1 && Interleave(gaps, words) == s
    && (forall i :: 0 <= i < |gaps| ==> AllSpace(gaps[i]))
    && (forall i :: 0 < i < |words| ==> gaps[i] != [])
    && (forall i :: 0 <= i < |words| ==> words[i] != [] && NoSpace(words[i]))
  }

  /** The white space around and between the words Fields finds. */
  function FieldGaps(s: string): (gaps: seq<string>)
    ensures |gaps| == |Fields(s)| + 1 && gaps[0] == s[..LeadingSpace(s)]
    decreases |s|
  {
    var t := TrimLeftSpace(s);
    if t == [] then [s[..LeadingSpace(s)]]
    else [s[..LeadingSpace(s)]] + FieldGaps(t[WordLen(t)..])
  }

  /** Fields gives the maximal non-space runs of s, in order, with white space around and between them. */
  lemma {:induction false} FieldsAreRuns(s: string)
    ensures SpaceSeparated(FieldGaps(s), Fields(s), s)
    decreases |s|
  {
    var t := TrimLeftSpace(s);
    var k := LeadingSpace(s);
    assert s == s[..k] + t;
    if t != [] {
      var n := WordLen(t);
      var rest := t[n..];
      FieldsAreRuns(rest);
      FieldsCons(s, t, n, rest);
    }
  }

  /** One step of FieldsAreRuns: a word and the separated rest make a separated whole. */
  lemma FieldsCons(s: string, t: string, n: nat, rest: string)
    requires t == TrimLeftSpace(s) && t != [] && n == WordLen(t) && rest == t[n..]
    requires SpaceSeparated(FieldGaps(rest), Fields(rest), rest)
    ensures SpaceSeparated(FieldGaps(s), Fields(s), s)
  {
    ConsShape(s, t, n, rest);
    ConsInterleave(s, t, n, rest);
    ConsGaps(s, t, n, rest);
  }

  lemma ConsShape(s: string, t: string, n: nat, rest: string)
    requires t == TrimLeftSpace(s) && t != [] && n == WordLen(t) && rest == t[n..]
    ensures FieldGaps(s) == [s[..LeadingSpace(s)]] + FieldGaps(rest)
    ensures Fields(s) == [t[..n]] + Fields(rest)
  {
  }

  lemma ConsInterleave(s: string, t: string, n: nat, rest: string)
    requires t == TrimLeftSpace(s) && t != [] && n == WordLen(t) && rest == t[n..]
    requires Interleave(FieldGaps(rest), Fields(rest)) == rest
    ensures Interleave(FieldGaps(s), Fields(s)) == s
  {
    ConsShape(s, t, n, rest);
    var k := LeadingSpace(s);
    InterleaveCons(s[..k], t[..n], FieldGaps(rest), Fields(rest));
    SplitAt(s, k, t, n, rest);
  }

  lemma SplitAt(s: string, k: nat, t: string, n: nat, rest: string)
    requires k <= |s| && t == s[k..] && n <= |t| && rest == t[n..]
    ensures s[..k] + t[..n] + rest == s
  {
    assert s == s[..k] + t && t == t[..n] + rest;
  }

  lemma InterleaveCons(g: string, w: string, gs: seq<string>, ws: seq<string>)
    requires |gs| == |ws| + 1
    ensures Interleave([g] + gs, [w] + ws) == g + w + Interleave(gs, ws)
  {
    assert ([g] + gs)[1..] == gs && ([w] + ws)[1..] == ws;
  }

  lemma ConsGaps(s: string, t: string, n: nat, rest: string)
    requires t == TrimLeftSpace(s) && t != [] && n == WordLen(t) && rest == t[n..]
    requires SpaceSeparated(FieldGaps(rest), Fields(rest), rest)
    ensures forall i :: 0 <= i < |FieldGaps(s)| ==> AllSpace(FieldGaps(s)[i])
    ensures forall i :: 0 < i < |Fields(s)| ==> FieldGaps(s)[i] != []
  {
    ConsShape(s, t, n, rest);
    if Fields(rest) != [] {
      InnerGapNonEmpty(rest, n, t);
    }
    GapsCons(s[..LeadingSpace(s)], t[..n], FieldGaps(rest), Fields(rest));
  }

  lemma GapsCons(g: string, w: string, gs: seq<string>, ws: seq<string>)
    requires |gs| == |ws| + 1 && AllSpace(g)
    requires forall i :: 0 <= i < |gs| ==> AllSpace(gs[i])
    requires forall i :: 0 < i < |ws| ==> gs[i] != []
    requires ws != [] ==> gs[0] != []
    ensures forall i :: 0 <= i < |[g] + gs| ==> AllSpace(([g] + gs)[i])
    ensures forall i :: 0 < i < |[w] + ws| ==> ([g] + gs)[i] != []
  {
    var gaps := [g] + gs;
    forall i | 0 < i < |gaps| ensures gaps[i] == gs[i - 1] {}
  }

  lemma InnerGapNonEmpty(rest: string, n: nat, t: string)
    requires n == WordLen(t) && rest == t[n..] && Fields(rest) != []
    ensures FieldGaps(rest)[0] != []
  {
    FieldsEmptyIffBlank(rest);
    assert n < |t| && IsSpace(rest[0]);
  }

  /** A line has no fields exactly when it is all white space. */
  lemma FieldsEmptyIffBlank(s: string)
    ensures Fields(s) == [] <==> AllSpace(s)
  {
    var t := TrimLeftSpace(s);
    if t == [] {
      assert s == s[..|s| - |t|];
    } else {
      assert !IsSpace(s[|s| - |t|]);
    }
  }

  /** strings.Join */
  function Join(parts: seq<string>, sep: string): string {
    if parts == [] then ""
    else if |parts| == 1 then parts[0]
    else Join(parts[..|parts| - 1], sep) + sep + parts[|parts| - 1]
  }

  /** Index of the first occurrence of c in s. */
  function IndexOf(s: string, c: char): (r: Option<nat>)
    ensures r.None? <==> c !in s
    ensures r.Some? ==> r.value < |s| && s[r.value] == c && c !in s[..r.value]
  {
    if s == [] then None
    else if s[0] == c then Some(0)
    else match IndexOf(s[1..], c)
      case None => None
      case Some(k) => Some(k + 1)
  }

  /**
   * strings.SplitN(s, "=", 2) applied only when s contains '=': the part
   * before the first '=' and everything after it.
   */
  function CutAtFirst(s: string, c: char): (r: Option<(string, string)>)
    ensures r.None? <==> c !in s
    ensures r.Some? ==> r.value.0 + [c] + r.value.1 == s && c !in r.value.0
  {
    match IndexOf(s, c)
    case None => None
    case Some(k) =>
      assert s == s[..k] + [c] + s[k + 1..];
      Some((s[..k], s[k + 1..]))
  }
}
