/**
 * The regex splits the chunker applies, written out as scans:
 * paragraphs at `\n\s*\n`, sentences at the whitespace character matched by
 * `(?<!\w\.\w.)(?<![A-Z][a-z]\.)(?<=[\.\?\!])\s`, and fixed-width character slices.
 */
module TextSplit {
  import opened Wrappers
  import opened Text

  /** Index of the last newline of s, or -1. */
  function LastNewline(s: string): (i: int)
    ensures -1 <= i < |s|
    ensures i >= 0 ==> s[i] == '\n'
    ensures forall k :: i < k < |s| ==> s[k] != '\n'
  {
    if |s| == 0 then -1
    else if s[|s| - 1] == '\n' then |s| - 1
    else LastNewline(s[..|s| - 1])
  }

  /**
   * The end (exclusive) of a match of `\n\s*\n` starting at i, if one starts there:
   * the greedy `\s*` backs off to the last newline of the whitespace run after i.
   */
  function BreakEnd(s: string, i: nat): (r: Option<nat>)
    requires i < |s|
    ensures r.Some? ==> i + 2 <= r.value <= |s| && AllSpace(s[i..r.value])
  {
    if s[i] != '\n' then None
    else
      var n := LeadingSpace(s[i + 1..]);
      var k := LastNewline(s[i + 1..][..n]);
      if k < 0 then None
      else
        assert forall j :: i < j < i + 2 + k ==> s[j] == s[i + 1..][j - i - 1];
        Some(i + 2 + k)
  }

  /** The leftmost match of `\n\s*\n` at or after `from`, as (start, end). */
  function FirstBreak(s: string, from: nat): (r: Option<(nat, nat)>)
    requires from <= |s|
    ensures r.Some? ==> from <= r.value.0 && r.value.0 + 2 <= r.value.1 <= |s|
    ensures r.Some? ==> AllSpace(s[r.value.0..r.value.1])
    decreases |s| - from
  {
    if from == |s| then None
    else match BreakEnd(s, from)
      case Some(e) => Some((from, e))
      case None => FirstBreak(s, from + 1)
  }

  /** re.split(r'\n\s*\n', s). */
  function SplitParagraphs(s: string): (ps: seq<string>)
    ensures |ps| >= 1
    decreases |s|
  {
    match FirstBreak(s, 0)
    case None => [s]
    case Some((i, e)) => [s[..i]] + SplitParagraphs(s[e..])
  }

  /** The separators are whitespace, so the pieces hold all of the text's non-space content, in order. */
  lemma {:induction false} SplitParagraphsContent(s: string)
    ensures NonSpace(Concat(SplitParagraphs(s))) == NonSpace(s)
    decreases |s|
  {
    match FirstBreak(s, 0)
    case None =>
      ConcatSingle(s);
    case Some((i, e)) =>
      var rest := SplitParagraphs(s[e..]);
      SplitParagraphsContent(s[e..]);
      assert Concat([s[..i]] + rest) == s[..i] + Concat(rest);
      NonSpaceConcat(s[..i], Concat(rest));
      assert s == s[..i] + s[i..e] + s[e..];
      NonSpaceJoin3(s[..i], s[i..e], s[e..]);
  }

  /** \w, restricted to ASCII. */
  predicate IsWordChar(c: char)
  {
    IsLetterAscii(c) || IsDigit(c) || c == '_'
  }

  /** A match of the sentence pattern at i: the whitespace after . ? or !, unless an abbreviation precedes it. */
  predicate IsSentenceBreak(s: string, i: int)
  {
    0 < i < |s| && IsSpace(s[i]) && s[i - 1] in ".?!"
    && !(i >= 4 && IsWordChar(s[i - 4]) && s[i - 3] == '.' && IsWordChar(s[i - 2]) && s[i - 1] != '\n')
    && !(i >= 3 && IsUpperAscii(s[i - 3]) && IsLowerAscii(s[i - 2]) && s[i - 1] == '.')
  }

  /** The pieces of s[start..] cut at every sentence break at or after i. */
  function SentencePieces(s: string, start: nat, i: nat): (ps: seq<string>)
    requires start <= i <= |s|
    ensures |ps| >= 1
    decreases |s| - i
  {
    if i == |s| then [s[start..]]
    else if IsSentenceBreak(s, i) then [s[start..i]] + SentencePieces(s, i + 1, i + 1)
    else SentencePieces(s, start, i + 1)
  }

  /** re.split over the sentence pattern. */
  function SplitSentences(s: string): seq<string>
  {
    SentencePieces(s, 0, 0)
  }

  lemma {:induction false} SentencePiecesContent(s: string, start: nat, i: nat)
    requires start <= i <= |s|
    ensures NonSpace(Concat(SentencePieces(s, start, i))) == NonSpace(s[start..])
    decreases |s| - i
  {
    if i == |s| {
      ConcatSingle(s[start..]);
    } else if IsSentenceBreak(s, i) {
      var rest := SentencePieces(s, i + 1, i + 1);
      SentencePiecesContent(s, i + 1, i + 1);
      CutAtSpace(s, start, i, rest);
    } else {
      SentencePiecesContent(s, start, i + 1);
    }
  }

  lemma {:induction false} CutAtSpace(s: string, start: nat, i: nat, rest: seq<string>)
    requires start <= i < |s| && IsSpace(s[i])
    requires NonSpace(Concat(rest)) == NonSpace(s[i + 1..])
    ensures NonSpace(Concat([s[start..i]] + rest)) == NonSpace(s[start..])
  {
    assert Concat([s[start..i]] + rest) == s[start..i] + Concat(rest);
    NonSpaceConcat(s[start..i], Concat(rest));
    assert s[start..] == s[start..i] + s[i..i + 1] + s[i + 1..];
    assert AllSpace(s[i..i + 1]);
    NonSpaceJoin3(s[start..i], s[i..i + 1], s[i + 1..]);
  }

  /** Sentence splitting drops only the whitespace characters it splits at. */
  lemma {:induction false} SplitSentencesContent(s: string)
    ensures NonSpace(Concat(SplitSentences(s))) == NonSpace(s)
  {
    SentencePiecesContent(s, 0, 0);
    assert s[0..] == s;
  }

  /** [s[i:i+w] for i in range(0, len(s), w)] for a positive width w. */
  function Slices(s: string, w: nat): (r: seq<string>)
    requires w > 0
    ensures Concat(r) == s
    ensures forall x :: x in r ==> 0 < |x| <= w
    decreases |s|
  {
    if |s| == 0 then []
    else
      var n := if w < |s| then w else |s|;
      var rest := Slices(s[n..], w);
      assert Concat([s[..n]] + rest) == s[..n] + Concat(rest);
      assert s == s[..n] + s[n..];
      [s[..n]] + rest
  }

  /** One step of the slicing loop: the slice at i, then the slices from its end. */
  lemma {:induction false} SlicesFrom(s: string, i: nat, w: nat)
    requires w > 0 && i < |s|
    ensures var j := if i + w < |s| then i + w else |s|;
      Slices(s[i..], w) == [s[i..j]] + Slices(s[j..], w)
  {
    var j := if i + w < |s| then i + w else |s|;
    assert s[i..][..j - i] == s[i..j];
    assert s[i..][j - i..] == s[j..];
  }
}
