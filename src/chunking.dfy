/**
 * TextChunker: splits a text that exceeds a token budget into chunks, by
 * section structure, else by paragraph, falling back to sentences and to
 * fixed-width character slices.
 *
 * The module-level functions specify each step; the TextChunker methods are
 * the loops of the source, each proved equal to its specification.
 */
module Chunking {
  import opened Wrappers
  import opened Text
  import opened TextSplit
  import opened TokenCount
  import opened Errors
  import opened PyMath

  /**
   * The slice width the source derives in floating point,
   * int(int(max_tokens * (length / tokens)) * 0.9), as a function of
   * (max_tokens, length, tokens).
   */
  type WidthOracle = (int, nat, nat) -> int

  /** One chunking call: the token count in use, the slice-width rule and the per-chunk budget. */
  datatype Budget = Budget(count: string -> nat, width: WidthOracle, maxTokens: int)
  {
    function Count(s: string): nat { count(s) }
    predicate Fits(s: string) { count(s) <= maxTokens }
  }

  /**
   * No slice width the rule derives for this budget is negative: what
   * int(int(max_tokens * (length / tokens)) * 0.9) gives whenever max_tokens
   * is not negative. A width of zero is allowed; range() then raises.
   */
  ghost predicate NonNegativeWidth(b: Budget)
  {
    forall n, t :: t > 0 ==> b.width(b.maxTokens, n, t) >= 0
  }

  /** The width rule in integer arithmetic: floor(floor(max_tokens * length / tokens) * 0.9). */
  function IntegerWidth(m: int, n: nat, t: nat): int
  {
    if t == 0 then 0 else (m * n / t) * 9 / 10
  }

  /** The source's rule never yields a negative width while max_tokens is not negative. */
  lemma {:induction false} IntegerWidthNonNegative(count: string -> nat, m: int)
    requires m >= 0
    ensures NonNegativeWidth(Budget(count, IntegerWidth, m))
  {
    forall n: nat, t: nat | t > 0
      ensures IntegerWidth(m, n, t) >= 0
    {
      ScaledQuotientNonNegative(m, n, t);
    }
  }

  /**
   * What the five section regexes find in a text: the findall count of each
   * pattern, and the ascending positions where their alternation matches
   * (the split points of the lookahead split).
   */
  datatype StructureScan = StructureScan(counts: seq<nat>, marks: seq<nat>)

  /** has_structure: some section pattern matches more than 3 times. */
  predicate HasStructure(scan: StructureScan)
  {
    exists k :: 0 <= k < |scan.counts| && scan.counts[k] > 3
  }

  /** What regex semantics guarantees about a scan: every findall match start is a split point. */
  predicate ValidScan(text: string, scan: StructureScan)
  {
    |scan.counts| == 5
    && (forall k :: 0 <= k < |scan.marks| ==> scan.marks[k] <= |text|)
    && (forall i, j :: 0 <= i < j < |scan.marks| ==> scan.marks[i] < scan.marks[j])
    && (HasStructure(scan) ==> |scan.marks| > 0)
  }

  /** cur + (sep if cur else "") + x. */
  function Joined(cur: string, sep: string, x: string): string
  {
    cur + (if cur != "" then sep else "") + x
  }

  /** Emits the open chunk, if any. */
  function Flush(acc: seq<string>, cur: string): seq<string>
  {
    if cur != "" then acc + [cur] else acc
  }

  // ---------------------------------------------------------------------------
  // Structure split
  // ---------------------------------------------------------------------------

  /** The pieces of text[from..] cut at the given ascending positions. */
  function Segments(text: string, marks: seq<nat>, from: nat): (r: seq<string>)
    requires from <= |text|
    requires forall k :: 0 <= k < |marks| ==> from <= marks[k] <= |text|
    requires forall i, j :: 0 <= i < j < |marks| ==> marks[i] < marks[j]
    ensures |r| == |marks| + 1
    decreases |marks|
  {
    if |marks| == 0 then [text[from..]]
    else [text[from..marks[0]]] + Segments(text, marks[1..], marks[0])
  }

  lemma {:induction false} SegmentsConcat(text: string, marks: seq<nat>, from: nat)
    requires from <= |text|
    requires forall k :: 0 <= k < |marks| ==> from <= marks[k] <= |text|
    requires forall i, j :: 0 <= i < j < |marks| ==> marks[i] < marks[j]
    ensures Concat(Segments(text, marks, from)) == text[from..]
    decreases |marks|
  {
    if |marks| == 0 {
      ConcatSingle(text[from..]);
    } else {
      var rest := Segments(text, marks[1..], marks[0]);
      SegmentsConcat(text, marks[1..], marks[0]);
      assert Concat([text[from..marks[0]]] + rest) == text[from..marks[0]] + Concat(rest);
      assert text[from..] == text[from..marks[0]] + text[marks[0]..];
    }
  }

  /** [p for p in parts if p.strip()]. */
  function NonBlank(parts: seq<string>): (r: seq<string>)
    ensures forall p :: p in r ==> p in parts && p != "" && Strip(p) != []
  {
    if |parts| == 0 then []
    else if Strip(parts[0]) == [] then NonBlank(parts[1..])
    else [parts[0]] + NonBlank(parts[1..])
  }

  /** Dropping blank parts loses no non-space content. */
  lemma {:induction false} NonBlankContent(parts: seq<string>)
    ensures NonSpace(Concat(NonBlank(parts))) == NonSpace(Concat(parts))
    decreases |parts|
  {
    if |parts| > 0 {
      NonBlankContent(parts[1..]);
      NonSpaceConcat(parts[0], Concat(parts[1..]));
      if Strip(parts[0]) == [] {
        NonSpaceOfSpace(parts[0]);
      } else {
        var rest := NonBlank(parts[1..]);
        assert Concat([parts[0]] + rest) == parts[0] + Concat(rest);
        NonSpaceConcat(parts[0], Concat(rest));
      }
    }
  }

  /**
   * The greedy loop of _split_by_structure: a part joins the open chunk while
   * the join fits the budget; otherwise the open chunk is emitted and the part
   * opens the next one.
   */
  function StructureFrom(b: Budget, acc: seq<string>, cur: string, parts: seq<string>): seq<string>
    decreases |parts|
  {
    if |parts| == 0 then Flush(acc, cur)
    else
      var temp := cur + parts[0];
      if b.Fits(temp) then StructureFrom(b, acc, temp, parts[1..])
      else StructureFrom(b, Flush(acc, cur), parts[0], parts[1..])
  }

  /** The greedy loop neither drops, duplicates nor reorders text. */
  lemma {:induction false} StructureFromConcat(b: Budget, acc: seq<string>, cur: string, parts: seq<string>)
    ensures Concat(StructureFrom(b, acc, cur, parts)) == Concat(acc) + cur + Concat(parts)
    decreases |parts|
  {
    if |parts| == 0 {
      FlushConcat(acc, cur);
    } else {
      var temp := cur + parts[0];
      if b.Fits(temp) {
        StructureFromConcat(b, acc, temp, parts[1..]);
      } else {
        StructureFromConcat(b, Flush(acc, cur), parts[0], parts[1..]);
        FlushConcat(acc, cur);
      }
    }
  }

  lemma {:induction false} FlushConcat(acc: seq<string>, cur: string)
    ensures Concat(Flush(acc, cur)) == Concat(acc) + cur
  {
    if cur != "" {
      ConcatAppend(acc, [cur]);
      ConcatSingle(cur);
    }
  }

  /**
   * Every emitted chunk is non-empty and either fits the budget or is a single
   * part: an oversized part becomes its own unsplit chunk.
   */
  lemma {:induction false} StructureFromBudget(b: Budget, acc: seq<string>, cur: string, parts: seq<string>, all: seq<string>)
    requires forall p :: p in parts ==> p != "" && p in all
    requires forall c :: c in acc ==> c != "" && (b.Fits(c) || c in all)
    requires cur == "" || b.Fits(cur) || cur in all
    ensures forall c :: c in StructureFrom(b, acc, cur, parts) ==> c != "" && (b.Fits(c) || c in all)
    decreases |parts|
  {
    if |parts| > 0 {
      var temp := cur + parts[0];
      assert parts[0] in parts;
      assert forall p :: p in parts[1..] ==> p in parts;
      if b.Fits(temp) {
        StructureFromBudget(b, acc, temp, parts[1..], all);
      } else {
        StructureFromBudget(b, Flush(acc, cur), parts[0], parts[1..], all);
      }
    }
  }

  /** The structure split with the text cut at the split points: what the source evidently intends. */
  function StructureSplit(b: Budget, text: string, scan: StructureScan): seq<string>
    requires ValidScan(text, scan)
  {
    StructureFrom(b, [], "", NonBlank(Segments(text, scan.marks, 0)))
  }

  /** The corrected structure split keeps all of the text's non-space content, in order. */
  lemma {:induction false} StructureSplitContent(b: Budget, text: string, scan: StructureScan)
    requires ValidScan(text, scan)
    ensures NonSpace(Concat(StructureSplit(b, text, scan))) == NonSpace(text)
  {
    var segs := Segments(text, scan.marks, 0);
    StructureFromConcat(b, [], "", NonBlank(segs));
    assert Concat(StructureSplit(b, text, scan)) == Concat(NonBlank(segs));
    NonBlankContent(segs);
    SegmentsConcat(text, scan.marks, 0);
    assert text[0..] == text;
  }

  /** Over-budget chunks of the corrected structure split are single sections. */
  lemma {:induction false} StructureSplitBudget(b: Budget, text: string, scan: StructureScan)
    requires ValidScan(text, scan)
    ensures forall c :: c in StructureSplit(b, text, scan) ==>
      c != "" && (b.Fits(c) || c in Segments(text, scan.marks, 0))
  {
    var parts := NonBlank(Segments(text, scan.marks, 0));
    StructureFromBudget(b, [], "", parts, Segments(text, scan.marks, 0));
  }

  /**
   * _split_by_structure as written: re.split with a capturing pattern puts the
   * captured header and None for each non-participating group into the parts,
   * so `p.strip()` raises AttributeError as soon as there is one split point.
   */
  function StructureSplitAsWritten(b: Budget, text: string, scan: StructureScan): Result<seq<string>, Error>
  {
    if |scan.marks| > 0 then Err(AttributeError(NoneStrip))
    else Ok(StructureFrom(b, [], "", NonBlank([text])))
  }

  const NoneStrip := "'NoneType' object has no attribute 'strip'"

  /**
   * The structure split as written fails exactly when some section mark is
   * found, which every structured text has; without a mark it keeps the
   * whole text's content.
   */
  lemma {:induction false} StructureSplitAsWrittenCases(b: Budget, text: string, scan: StructureScan)
    requires ValidScan(text, scan)
    ensures var r := StructureSplitAsWritten(b, text, scan);
      && (r.Err? <==> |scan.marks| > 0)
      && (r.Err? ==> r.error == AttributeError(NoneStrip))
      && (HasStructure(scan) ==> r.Err?)
      && (r.Ok? ==> NonSpace(Concat(r.value)) == NonSpace(text))
  {
    if |scan.marks| == 0 {
      var parts := NonBlank([text]);
      StructureFromConcat(b, [], "", parts);
      assert Concat(StructureFrom(b, [], "", parts)) == Concat(parts);
      NonBlankContent([text]);
      ConcatSingle(text);
    }
  }

  // ---------------------------------------------------------------------------
  // Sentence and paragraph split
  // ---------------------------------------------------------------------------

  /** _handle_long_sentence: the sentence cut into slices of the derived width. */
  function LongSentenceSplit(b: Budget, sentence: string, tokens: nat): (r: Result<seq<string>, Error>)
    ensures r.Ok? && NonNegativeWidth(b) ==> Concat(r.value) == sentence
  {
    if tokens == 0 then Err(ZeroDivisionError("division by zero"))
    else
      var w := b.width(b.maxTokens, |sentence|, tokens);
      if w == 0 then Err(ValueError("range() arg 3 must not be zero"))
      else if w < 0 then Ok([])
      else Ok(Slices(sentence, w))
  }

  /** _add_sentence_to_chunk: join with one space while the join fits, else start a new chunk. */
  function AddSentence(b: Budget, sentence: string, acc: seq<string>, cur: string): (seq<string>, string)
  {
    var temp := Joined(cur, " ", sentence);
    if b.Fits(temp) then (acc, temp) else (Flush(acc, cur), sentence)
  }

  /** _process_sentences from a state of emitted chunks and an open chunk. */
  function SentenceFrom(b: Budget, acc: seq<string>, cur: string, sents: seq<string>): Result<seq<string>, Error>
    decreases |sents|
  {
    if |sents| == 0 then Ok(Flush(acc, cur))
    else
      var s := Strip(sents[0]);
      if s == [] then SentenceFrom(b, acc, cur, sents[1..])
      else
        var t := b.Count(s);
        if t > b.maxTokens then
          match LongSentenceSplit(b, s, t)
          case Err(e) => Err(e)
          case Ok(sl) => SentenceFrom(b, Flush(acc, cur) + sl, "", sents[1..])
        else
          var next := AddSentence(b, s, acc, cur);
          SentenceFrom(b, next.0, next.1, sents[1..])
  }

  /** The slices the sentence loop may emit for oversized sentences. */
  ghost function SentenceUnits(b: Budget, sents: seq<string>): seq<string>
    decreases |sents|
  {
    if |sents| == 0 then []
    else
      var s := Strip(sents[0]);
      var t := b.Count(s);
      var w := b.width(b.maxTokens, |s|, t);
      (if s != [] && t > b.maxTokens && t > 0 && w > 0 then Slices(s, w) else [])
      + SentenceUnits(b, sents[1..])
  }

  lemma {:induction false} NonSpaceJoined(cur: string, sep: string, x: string)
    requires AllSpace(sep)
    ensures NonSpace(Joined(cur, sep, x)) == NonSpace(cur) + NonSpace(x)
  {
    if cur != "" {
      NonSpaceJoin3(cur, sep, x);
    } else {
      NonSpaceJoin3(cur, "", x);
    }
  }

  lemma {:induction false} ContentAppend(xs: seq<string>, ys: seq<string>)
    ensures NonSpace(Concat(xs + ys)) == NonSpace(Concat(xs)) + NonSpace(Concat(ys))
  {
    ConcatAppend(xs, ys);
    NonSpaceConcat(Concat(xs), Concat(ys));
  }

  lemma {:induction false} ContentFirstStripped(xs: seq<string>)
    requires |xs| > 0
    ensures NonSpace(Concat(xs)) == NonSpace(Strip(xs[0])) + NonSpace(Concat(xs[1..]))
  {
    NonSpaceConcat(xs[0], Concat(xs[1..]));
    NonSpaceStrip(xs[0]);
  }

  lemma {:induction false} FlushContent(acc: seq<string>, cur: string)
    ensures NonSpace(Concat(Flush(acc, cur))) == NonSpace(Concat(acc)) + NonSpace(cur)
  {
    FlushConcat(acc, cur);
    NonSpaceConcat(Concat(acc), cur);
  }

  /** Adding a sentence moves its content behind the open chunk's. */
  lemma {:induction false} AddSentenceContent(b: Budget, s: string, acc: seq<string>, cur: string)
    ensures var next := AddSentence(b, s, acc, cur);
      NonSpace(Concat(next.0)) + NonSpace(next.1) == NonSpace(Concat(acc)) + NonSpace(cur) + NonSpace(s)
  {
    NonSpaceJoined(cur, " ", s);
    FlushContent(acc, cur);
  }

  /** Emitting the open chunk and then the slices of s moves s's content behind the open chunk's. */
  lemma {:induction false} LongSentenceContent(b: Budget, s: string, t: nat, acc: seq<string>, cur: string)
    requires NonNegativeWidth(b) && LongSentenceSplit(b, s, t).Ok?
    ensures NonSpace(Concat(Flush(acc, cur) + LongSentenceSplit(b, s, t).value))
         == NonSpace(Concat(acc)) + NonSpace(cur) + NonSpace(s)
  {
    ContentAppend(Flush(acc, cur), LongSentenceSplit(b, s, t).value);
    FlushContent(acc, cur);
  }

  /** Regrouping of content: (a + c + s) + rest == a + c + (s + rest). */
  lemma {:induction false} Regroup(r: string, q: string, rest: string, a: string, c: string, s: string, whole: string)
    requires r == q + rest && q == a + c + s && whole == s + rest
    ensures r == a + c + whole
  {
  }

  /** With no negative slice width, the sentence loop keeps all non-space content, in order. */
  lemma {:induction false} SentenceFromContent(b: Budget, acc: seq<string>, cur: string, sents: seq<string>)
    requires NonNegativeWidth(b)
    requires SentenceFrom(b, acc, cur, sents).Ok?
    ensures NonSpace(Concat(SentenceFrom(b, acc, cur, sents).value))
         == NonSpace(Concat(acc)) + NonSpace(cur) + NonSpace(Concat(sents))
    decreases |sents|
  {
    if |sents| == 0 {
      FlushContent(acc, cur);
    } else {
      var s := Strip(sents[0]);
      var rest := sents[1..];
      var r := SentenceFrom(b, acc, cur, sents).value;
      ContentFirstStripped(sents);
      if s == [] {
        SentenceFromContent(b, acc, cur, rest);
        Regroup(NonSpace(Concat(r)), NonSpace(Concat(acc)) + NonSpace(cur), NonSpace(Concat(rest)),
                NonSpace(Concat(acc)), NonSpace(cur), [], NonSpace(Concat(sents)));
      } else {
        var t := b.Count(s);
        if t > b.maxTokens {
          var acc2 := Flush(acc, cur) + LongSentenceSplit(b, s, t).value;
          assert r == SentenceFrom(b, acc2, "", rest).value;
          SentenceFromContent(b, acc2, "", rest);
          LongSentenceContent(b, s, t, acc, cur);
          assert NonSpace("") == [];
          Regroup(NonSpace(Concat(r)), NonSpace(Concat(acc2)) + NonSpace(""), NonSpace(Concat(rest)),
                  NonSpace(Concat(acc)), NonSpace(cur), NonSpace(s), NonSpace(Concat(sents)));
        } else {
          var next := AddSentence(b, s, acc, cur);
          assert r == SentenceFrom(b, next.0, next.1, rest).value;
          SentenceFromContent(b, next.0, next.1, rest);
          AddSentenceContent(b, s, acc, cur);
          Regroup(NonSpace(Concat(r)), NonSpace(Concat(next.0)) + NonSpace(next.1), NonSpace(Concat(rest)),
                  NonSpace(Concat(acc)), NonSpace(cur), NonSpace(s), NonSpace(Concat(sents)));
        }
      }
    }
  }

  /**
   * Every chunk of the sentence loop is non-empty and either fits the budget or
   * is one slice of a single oversized sentence.
   */
  lemma {:induction false} SentenceFromBudget(b: Budget, acc: seq<string>, cur: string, sents: seq<string>, units: seq<string>)
    requires SentenceFrom(b, acc, cur, sents).Ok?
    requires forall u :: u in SentenceUnits(b, sents) ==> u in units
    requires forall c :: c in acc ==> c != "" && (b.Fits(c) || c in units)
    requires cur == "" || b.Fits(cur)
    ensures forall c :: c in SentenceFrom(b, acc, cur, sents).value ==> c != "" && (b.Fits(c) || c in units)
    decreases |sents|
  {
    if |sents| > 0 {
      var s := Strip(sents[0]);
      var rest := sents[1..];
      assert forall u :: u in SentenceUnits(b, rest) ==> u in SentenceUnits(b, sents);
      if s == [] {
        SentenceFromBudget(b, acc, cur, rest, units);
      } else {
        var t := b.Count(s);
        if t > b.maxTokens {
          LongSentenceBudget(b, acc, cur, sents, units);
          SentenceFromBudget(b, Flush(acc, cur) + LongSentenceSplit(b, s, t).value, "", rest, units);
        } else {
          AddSentenceBudget(b, s, acc, cur, units);
          var next := AddSentence(b, s, acc, cur);
          SentenceFromBudget(b, next.0, next.1, rest, units);
        }
      }
    }
  }

  /** The slices of an oversized sentence are units, so emitting them after the open chunk keeps the chunks as they must be. */
  lemma {:induction false} LongSentenceBudget(b: Budget, acc: seq<string>, cur: string, sents: seq<string>, units: seq<string>)
    requires |sents| > 0 && Strip(sents[0]) != [] && b.Count(Strip(sents[0])) > b.maxTokens
    requires LongSentenceSplit(b, Strip(sents[0]), b.Count(Strip(sents[0]))).Ok?
    requires forall u :: u in SentenceUnits(b, sents) ==> u in units
    requires forall c :: c in acc ==> c != "" && (b.Fits(c) || c in units)
    requires cur == "" || b.Fits(cur)
    ensures forall c :: c in Flush(acc, cur) + LongSentenceSplit(b, Strip(sents[0]), b.Count(Strip(sents[0]))).value ==>
      c != "" && (b.Fits(c) || c in units)
  {
    var s := Strip(sents[0]);
    var t := b.Count(s);
    var w := b.width(b.maxTokens, |s|, t);
    var sl := LongSentenceSplit(b, s, t).value;
    assert forall u :: u in sl ==> u != "" && u in units by {
      if w > 0 {
        assert SentenceUnits(b, sents) == Slices(s, w) + SentenceUnits(b, sents[1..]);
      }
    }
    FlushBudget(b, acc, cur, units);
  }

  /** Closing the open chunk keeps every emitted chunk non-empty and within budget or a unit. */
  lemma {:induction false} FlushBudget(b: Budget, acc: seq<string>, cur: string, units: seq<string>)
    requires forall c :: c in acc ==> c != "" && (b.Fits(c) || c in units)
    requires cur == "" || b.Fits(cur) || cur in units
    ensures forall c :: c in Flush(acc, cur) ==> c != "" && (b.Fits(c) || c in units)
  {
  }

  /** Adding a sentence that fits alone keeps the emitted chunks as they must be, and the open one within budget. */
  lemma {:induction false} AddSentenceBudget(b: Budget, s: string, acc: seq<string>, cur: string, units: seq<string>)
    requires s != "" && b.Fits(s)
    requires forall c :: c in acc ==> c != "" && (b.Fits(c) || c in units)
    requires cur == "" || b.Fits(cur)
    ensures var next := AddSentence(b, s, acc, cur);
      (forall c :: c in next.0 ==> c != "" && (b.Fits(c) || c in units)) && (next.1 == "" || b.Fits(next.1))
  {
    FlushBudget(b, acc, cur, units);
  }

  /** The chunks of one paragraph split by sentences. */
  function SentenceSplit(b: Budget, paragraph: string): Result<seq<string>, Error>
  {
    SentenceFrom(b, [], "", SplitSentences(paragraph))
  }

  /** _split_by_paragraphs from a state of emitted chunks and an open chunk. */
  function ParagraphFrom(b: Budget, acc: seq<string>, cur: string, paras: seq<string>): Result<seq<string>, Error>
    decreases |paras|
  {
    if |paras| == 0 then Ok(Flush(acc, cur))
    else
      var p := Strip(paras[0]);
      if p == [] then ParagraphFrom(b, acc, cur, paras[1..])
      else
        var temp := Joined(cur, "\n\n", p);
        if b.Fits(temp) then ParagraphFrom(b, acc, temp, paras[1..])
        else if cur == [] then
          match SentenceSplit(b, p)
          case Err(e) => Err(e)
          case Ok(sc) => ParagraphFrom(b, acc + sc, "", paras[1..])
        else ParagraphFrom(b, acc + [cur], p, paras[1..])
  }

  /** The units the paragraph loop may emit whole: stripped paragraphs and slices of their sentences. */
  ghost function ParagraphUnits(b: Budget, paras: seq<string>): seq<string>
    decreases |paras|
  {
    if |paras| == 0 then []
    else
      var p := Strip(paras[0]);
      [p] + SentenceUnits(b, SplitSentences(p)) + ParagraphUnits(b, paras[1..])
  }

  /** An oversized paragraph split by sentences keeps its content. */
  lemma {:induction false} SentenceSplitContent(b: Budget, p: string)
    requires NonNegativeWidth(b) && SentenceSplit(b, p).Ok?
    ensures NonSpace(Concat(SentenceSplit(b, p).value)) == NonSpace(p)
  {
    SentenceFromContent(b, [], "", SplitSentences(p));
    SplitSentencesContent(p);
  }

  /** With no negative slice width, the paragraph loop keeps all non-space content, in order. */
  lemma {:induction false} ParagraphFromContent(b: Budget, acc: seq<string>, cur: string, paras: seq<string>)
    requires NonNegativeWidth(b)
    requires ParagraphFrom(b, acc, cur, paras).Ok?
    ensures NonSpace(Concat(ParagraphFrom(b, acc, cur, paras).value))
         == NonSpace(Concat(acc)) + NonSpace(cur) + NonSpace(Concat(paras))
    decreases |paras|, 1
  {
    if |paras| == 0 {
      FlushContent(acc, cur);
    } else {
      var p := Strip(paras[0]);
      var rest := paras[1..];
      var r := ParagraphFrom(b, acc, cur, paras).value;
      var A, C, W := NonSpace(Concat(acc)), NonSpace(cur), NonSpace(Concat(paras));
      ContentFirstStripped(paras);
      if p == [] {
        ParagraphFromContent(b, acc, cur, rest);
        Regroup(NonSpace(Concat(r)), A + C, NonSpace(Concat(rest)), A, C, [], W);
      } else if b.Fits(Joined(cur, "\n\n", p)) {
        FittingParagraphContent(b, acc, cur, paras);
      } else {
        OversizedParagraphContent(b, acc, cur, paras);
      }
    }
  }

  /** The content step for a paragraph that fits beside the open chunk. */
  lemma {:induction false} FittingParagraphContent(b: Budget, acc: seq<string>, cur: string, paras: seq<string>)
    requires NonNegativeWidth(b)
    requires |paras| > 0 && Strip(paras[0]) != [] && b.Fits(Joined(cur, "\n\n", Strip(paras[0])))
    requires ParagraphFrom(b, acc, cur, paras).Ok?
    ensures NonSpace(Concat(ParagraphFrom(b, acc, cur, paras).value))
         == NonSpace(Concat(acc)) + NonSpace(cur) + NonSpace(Concat(paras))
    decreases |paras|, 0
  {
    var p := Strip(paras[0]);
    var rest := paras[1..];
    var r := ParagraphFrom(b, acc, cur, paras).value;
    var A, C, W := NonSpace(Concat(acc)), NonSpace(cur), NonSpace(Concat(paras));
    ContentFirstStripped(paras);
    var temp := Joined(cur, "\n\n", p);
    assert r == ParagraphFrom(b, acc, temp, rest).value;
    ParagraphFromContent(b, acc, temp, rest);
    NonSpaceJoined(cur, "\n\n", p);
    Regroup(NonSpace(Concat(r)), A + NonSpace(temp), NonSpace(Concat(rest)), A, C, NonSpace(p), W);
  }

  /** The content step for a paragraph that does not fit beside the open chunk. */
  lemma {:induction false} OversizedParagraphContent(b: Budget, acc: seq<string>, cur: string, paras: seq<string>)
    requires NonNegativeWidth(b)
    requires |paras| > 0 && Strip(paras[0]) != [] && !b.Fits(Joined(cur, "\n\n", Strip(paras[0])))
    requires ParagraphFrom(b, acc, cur, paras).Ok?
    ensures NonSpace(Concat(ParagraphFrom(b, acc, cur, paras).value))
         == NonSpace(Concat(acc)) + NonSpace(cur) + NonSpace(Concat(paras))
    decreases |paras|, 0
  {
    var p := Strip(paras[0]);
    var rest := paras[1..];
    var r := ParagraphFrom(b, acc, cur, paras).value;
    var A, C, P, W := NonSpace(Concat(acc)), NonSpace(cur), NonSpace(p), NonSpace(Concat(paras));
    ContentFirstStripped(paras);
    if cur == [] {
      var sc := SentenceSplit(b, p).value;
      assert r == ParagraphFrom(b, acc + sc, "", rest).value;
      ParagraphFromContent(b, acc + sc, "", rest);
      SentenceSplitContent(b, p);
      ContentAppend(acc, sc);
      assert NonSpace("") == [];
      Regroup(NonSpace(Concat(r)), NonSpace(Concat(acc + sc)) + NonSpace(""), NonSpace(Concat(rest)), A, C, P, W);
    } else {
      assert r == ParagraphFrom(b, acc + [cur], p, rest).value;
      ParagraphFromContent(b, acc + [cur], p, rest);
      FlushContent(acc, cur);
      Regroup(NonSpace(Concat(r)), NonSpace(Concat(acc + [cur])) + P, NonSpace(Concat(rest)), A, C, P, W);
    }
  }

  /**
   * Every chunk of the paragraph loop is non-empty and either fits the budget
   * or is a single unit: one whole paragraph or one slice of one sentence.
   */
  lemma {:induction false} ParagraphFromBudget(b: Budget, acc: seq<string>, cur: string, paras: seq<string>, units: seq<string>)
    requires ParagraphFrom(b, acc, cur, paras).Ok?
    requires forall u :: u in ParagraphUnits(b, paras) ==> u in units
    requires forall c :: c in acc ==> c != "" && (b.Fits(c) || c in units)
    requires cur == "" || b.Fits(cur) || cur in units
    ensures forall c :: c in ParagraphFrom(b, acc, cur, paras).value ==> c != "" && (b.Fits(c) || c in units)
    decreases |paras|
  {
    if |paras| > 0 {
      var p := Strip(paras[0]);
      var rest := paras[1..];
      var here := [p] + SentenceUnits(b, SplitSentences(p));
      assert ParagraphUnits(b, paras) == here + ParagraphUnits(b, rest);
      assert forall u :: u in ParagraphUnits(b, rest) ==> u in units;
      assert forall u :: u in here ==> u in units;
      if p == [] {
        ParagraphFromBudget(b, acc, cur, rest, units);
      } else {
        var temp := Joined(cur, "\n\n", p);
        if b.Fits(temp) {
          ParagraphFromBudget(b, acc, temp, rest, units);
        } else if cur == [] {
          var sc := SentenceSplit(b, p).value;
          SentenceFromBudget(b, [], "", SplitSentences(p), units);
          ParagraphFromBudget(b, acc + sc, "", rest, units);
        } else {
          assert p in here;
          ParagraphFromBudget(b, acc + [cur], p, rest, units);
        }
      }
    }
  }

  /** _split_by_paragraphs. */
  function ParagraphSplit(b: Budget, text: string): Result<seq<string>, Error>
  {
    ParagraphFrom(b, [], "", SplitParagraphs(text))
  }

  lemma {:induction false} ParagraphSplitContent(b: Budget, text: string)
    requires NonNegativeWidth(b)
    requires ParagraphSplit(b, text).Ok?
    ensures NonSpace(Concat(ParagraphSplit(b, text).value)) == NonSpace(text)
  {
    ParagraphFromContent(b, [], "", SplitParagraphs(text));
    assert Concat([]) + "" + Concat(SplitParagraphs(text)) == Concat(SplitParagraphs(text));
    SplitParagraphsContent(text);
  }

  lemma {:induction false} ParagraphSplitBudget(b: Budget, text: string)
    requires ParagraphSplit(b, text).Ok?
    ensures forall c :: c in ParagraphSplit(b, text).value ==>
      c != "" && (b.Fits(c) || c in ParagraphUnits(b, SplitParagraphs(text)))
  {
    ParagraphFromBudget(b, [], "", SplitParagraphs(text), ParagraphUnits(b, SplitParagraphs(text)));
  }

  // ---------------------------------------------------------------------------
  // Basic split and the whole call
  // ---------------------------------------------------------------------------

  /** _basic_token_split: [text] unless total // max + 1 > 1, else slices. */
  function BasicSplit(b: Budget, text: string): (r: Result<seq<string>, Error>)
    ensures r.Ok? && NonNegativeWidth(b) ==> Concat(r.value) == text
  {
    if b.maxTokens == 0 then Err(ZeroDivisionError("integer division or modulo by zero"))
    else
      var total := b.Count(text);
      var n := FloorDiv(total, b.maxTokens) + 1;
      if n <= 1 then ConcatSingle(text); Ok([text])
      else
        assert total > 0;
        var w := b.width(b.maxTokens, |text|, total);
        if w == 0 then Err(ValueError("range() arg 3 must not be zero"))
        else if w < 0 then Ok([])
        else Ok(Slices(text, w))
  }

  /** The fallback and validation after the structure or paragraph split. */
  function Complete(b: Budget, text: string, has: bool, split: Result<seq<string>, Error>): Result<(seq<string>, bool), Error>
  {
    match split
    case Err(e) => Err(e)
    case Ok(cs) =>
      if cs != [] then Ok((cs, has))
      else match BasicSplit(b, text)
        case Err(e) => Err(e)
        case Ok(bs) =>
          if bs == [] then Err(ContentProcessingError("Failed to split text into chunks"))
          else Ok((bs, has))
  }

  const SplitFailure := "Error splitting text into chunks: "

  /** chunk_text's wrapping: any failure surfaces as ContentProcessingError. */
  function Wrap(r: Result<(seq<string>, bool), Error>): Result<(seq<string>, bool), Error>
  {
    match r
    case Ok(v) => Ok(v)
    case Err(e) => Err(ContentProcessingError(SplitFailure + Message(e)))
  }

  /** chunk_text as written, with the failing structure split. */
  function ChunkedAsWritten(b: Budget, text: string, scan: StructureScan): (r: Result<(seq<string>, bool), Error>)
    ensures text == "" ==> r == Ok(([""], false))
    ensures text != "" && b.Fits(text) ==> r == Ok(([text], false))
    ensures r.Ok? ==> |r.value.0| >= 1
    ensures r.Err? ==> r.error.ContentProcessingError?
    ensures r.Ok? && text != "" && !b.Fits(text) ==> r.value.1 == HasStructure(scan)
  {
    if text == "" then Ok(([""], false))
    else if b.Fits(text) then Ok(([text], false))
    else
      var has := HasStructure(scan);
      Wrap(Complete(b, text, has, if has then StructureSplitAsWritten(b, text, scan) else ParagraphSplit(b, text)))
  }

  /** Whenever the text is structured and over budget, chunk_text as written fails with the wrapped AttributeError. */
  lemma {:induction false} StructuredTextAlwaysFails(b: Budget, text: string, scan: StructureScan)
    requires ValidScan(text, scan) && HasStructure(scan)
    requires text != "" && !b.Fits(text)
    ensures ChunkedAsWritten(b, text, scan) == Err(ContentProcessingError(SplitFailure + NoneStrip))
  {
    StructureSplitAsWrittenCases(b, text, scan);
  }

  /** Without section structure, chunk_text as written and corrected agree: both take the paragraph split. */
  lemma {:induction false} ChunkedAgreesWithoutStructure(b: Budget, text: string, scan: StructureScan)
    requires ValidScan(text, scan) && !HasStructure(scan)
    ensures ChunkedAsWritten(b, text, scan) == Chunked(b, text, scan)
  {
  }

  /** A concrete instance: four "Section" headers in a text over a budget of zero tokens, one token per character. */
  lemma {:induction false} StructuredTextFailsExample()
    ensures var text := "Section 1. A\nSection 2. B\nSection 3. C\nSection 4. D";
            var b := Budget(s => |s|, (m, n, t) => 1, 0);
            ChunkedAsWritten(b, text, StructureScan([4, 0, 0, 0, 0], [0, 13, 26, 39])).Err?
  {
    var text := "Section 1. A\nSection 2. B\nSection 3. C\nSection 4. D";
    var b := Budget(s => |s|, (m, n, t) => 1, 0);
    var scan := StructureScan([4, 0, 0, 0, 0], [0, 13, 26, 39]);
    assert scan.counts[0] > 3;
    assert !b.Fits(text);
    StructuredTextAlwaysFails(b, text, scan);
  }

  /** chunk_text with the structure split cutting at the split points: the chunker the rest of the model uses. */
  function Chunked(b: Budget, text: string, scan: StructureScan): (r: Result<(seq<string>, bool), Error>)
    requires ValidScan(text, scan)
    ensures text == "" ==> r == Ok(([""], false))
    ensures text != "" && b.Fits(text) ==> r == Ok(([text], false))
    ensures r.Ok? ==> |r.value.0| >= 1
    ensures r.Err? ==> r.error.ContentProcessingError?
    ensures r.Ok? && text != "" && !b.Fits(text) ==> r.value.1 == HasStructure(scan)
  {
    if text == "" then Ok(([""], false))
    else if b.Fits(text) then Ok(([text], false))
    else
      var has := HasStructure(scan);
      Wrap(Complete(b, text, has, if has then Ok(StructureSplit(b, text, scan)) else ParagraphSplit(b, text)))
  }

  /** With no negative slice width every chunk list keeps all of the text's non-space content, in order. */
  lemma {:induction false} ChunkedContent(b: Budget, text: string, scan: StructureScan)
    requires ValidScan(text, scan) && NonNegativeWidth(b)
    requires Chunked(b, text, scan).Ok?
    ensures NonSpace(Concat(Chunked(b, text, scan).value.0)) == NonSpace(text)
  {
    if text == "" {
      ConcatSingle("");
    } else if b.Fits(text) {
      ConcatSingle(text);
    } else {
      var has := HasStructure(scan);
      var split := if has then Ok(StructureSplit(b, text, scan)) else ParagraphSplit(b, text);
      if split.value != [] {
        if has {
          StructureSplitContent(b, text, scan);
        } else {
          ParagraphSplitContent(b, text);
        }
      }
    }
  }

  // ---------------------------------------------------------------------------
  // The chunker's loops
  // ---------------------------------------------------------------------------

  class TextChunker {
    const counter: Counter
    const width: WidthOracle

    constructor(counter: Counter, width: WidthOracle)
      ensures this.counter == counter && this.width == width
    {
      this.counter := counter;
      this.width := width;
    }

    function BudgetOf(maxTokens: int): Budget
    {
      Budget(s => CountTokens(counter, s), width, maxTokens)
    }

    /** _split_by_structure as written: the re.split parts hold None as soon as a section mark is found. */
    method SplitByStructureAsWritten(text: string, maxTokens: int, scan: StructureScan) returns (r: Result<seq<string>, Error>)
      ensures r == StructureSplitAsWritten(BudgetOf(maxTokens), text, scan)
    {
      if |scan.marks| > 0 {
        return Err(AttributeError(NoneStrip));
      }
      var chunks := MergeParts(NonBlank([text]), maxTokens);
      r := Ok(chunks);
    }

    /** _split_by_structure, cutting at the split points. */
    method SplitByStructure(text: string, maxTokens: int, scan: StructureScan) returns (chunks: seq<string>)
      requires ValidScan(text, scan)
      ensures chunks == StructureSplit(BudgetOf(maxTokens), text, scan)
    {
      chunks := MergeParts(NonBlank(Segments(text, scan.marks, 0)), maxTokens);
    }

    /** The greedy loop of _split_by_structure over the non-blank parts. */
    method MergeParts(parts: seq<string>, maxTokens: int) returns (chunks: seq<string>)
      ensures chunks == StructureFrom(BudgetOf(maxTokens), [], "", parts)
    {
      var b := BudgetOf(maxTokens);
      chunks := [];
      var current := "";
      var i := 0;
      while i < |parts|
        invariant 0 <= i <= |parts|
        invariant StructureFrom(b, chunks, current, parts[i..]) == StructureFrom(b, [], "", parts)
      {
        var temp := current + parts[i];
        var tokens := CountTokens(counter, temp);
        if tokens <= maxTokens {
          current := temp;
        } else {
          if current != "" {
            chunks := chunks + [current];
          }
          current := parts[i];
        }
        assert parts[i..][1..] == parts[i + 1..];
        i := i + 1;
      }
      if current != "" {
        chunks := chunks + [current];
      }
    }

    static lemma SliceStep(s: string, i: nat, w: nat, done: seq<string>)
      requires w > 0 && i < |s|
      ensures var j := if i + w < |s| then i + w else |s|;
        (done + [s[i..j]]) + Slices(s[j..], w) == done + Slices(s[i..], w)
    {
      SlicesFrom(s, i, w);
      var j := if i + w < |s| then i + w else |s|;
      assert (done + [s[i..j]]) + Slices(s[j..], w) == done + ([s[i..j]] + Slices(s[j..], w));
    }

    /** [s[i:i + w] for i in range(0, len(s), w)], the slicing both fallbacks share. */
    static method SliceText(s: string, w: nat) returns (slices: seq<string>)
      requires w > 0
      ensures slices == Slices(s, w)
    {
      var i := 0;
      slices := [];
      while i < |s|
        invariant 0 <= i <= |s|
        invariant slices + Slices(s[i..], w) == Slices(s, w)
        decreases |s| - i
      {
        var j := if i + w < |s| then i + w else |s|;
        SliceStep(s, i, w, slices);
        slices := slices + [s[i..j]];
        i := j;
      }
      assert s[i..] == [];
      assert slices + [] == slices;
    }

    /** _handle_long_sentence: emits the open chunk, then the slices of the sentence. */
    method HandleLongSentence(sentence: string, sentenceTokens: nat, maxTokens: int, chunks: seq<string>, current: string)
      returns (r: Result<seq<string>, Error>)
      ensures r == (match LongSentenceSplit(BudgetOf(maxTokens), sentence, sentenceTokens)
                    case Err(e) => Err(e)
                    case Ok(sl) => Ok(Flush(chunks, current) + sl))
    {
      var out := chunks;
      if current != "" {
        out := out + [current];
      }
      if sentenceTokens == 0 {
        return Err(ZeroDivisionError("division by zero"));
      }
      var w := width(maxTokens, |sentence|, sentenceTokens);
      if w == 0 {
        return Err(ValueError("range() arg 3 must not be zero"));
      }
      if w < 0 {
        assert out + [] == out;
        return Ok(out);
      }
      var slices := SliceText(sentence, w);
      r := Ok(out + slices);
    }

    /** _process_sentences. */
    method ProcessSentences(sentences: seq<string>, maxTokens: int) returns (r: Result<seq<string>, Error>)
      ensures r == SentenceFrom(BudgetOf(maxTokens), [], "", sentences)
    {
      var b := BudgetOf(maxTokens);
      var chunks: seq<string> := [];
      var current := "";
      var i := 0;
      while i < |sentences|
        invariant 0 <= i <= |sentences|
        invariant SentenceFrom(b, chunks, current, sentences[i..]) == SentenceFrom(b, [], "", sentences)
      {
        assert sentences[i..][1..] == sentences[i + 1..];
        var sentence := Strip(sentences[i]);
        if sentence != "" {
          var sentenceTokens := CountTokens(counter, sentence);
          if sentenceTokens > maxTokens {
            var handled := HandleLongSentence(sentence, sentenceTokens, maxTokens, chunks, current);
            if handled.Err? {
              return Err(handled.error);
            }
            chunks := handled.value;
            current := "";
          } else {
            var next := AddSentence(b, sentence, chunks, current);
            chunks, current := next.0, next.1;
          }
        }
        i := i + 1;
      }
      if current != "" {
        chunks := chunks + [current];
      }
      r := Ok(chunks);
    }

    /** One pass of the paragraph loop: the paragraph joins the open chunk, is split by sentences, or closes it. */
    method AddParagraph(paras: seq<string>, maxTokens: int, chunks: seq<string>, current: string)
      returns (r: Result<(seq<string>, string), Error>)
      requires paras != []
      ensures r.Err? ==> ParagraphFrom(BudgetOf(maxTokens), chunks, current, paras) == Err(r.error)
      ensures r.Ok? ==>
        ParagraphFrom(BudgetOf(maxTokens), chunks, current, paras)
        == ParagraphFrom(BudgetOf(maxTokens), r.value.0, r.value.1, paras[1..])
    {
      var b := BudgetOf(maxTokens);
      var para := Strip(paras[0]);
      if para == "" {
        return Ok((chunks, current));
      }
      var temp := Joined(current, "\n\n", para);
      var tokens := CountTokens(counter, temp);
      assert b.Fits(temp) <==> tokens <= maxTokens;
      if tokens <= maxTokens {
        return Ok((chunks, temp));
      } else if current == "" {
        var paraChunks := ProcessSentences(SplitSentences(para), maxTokens);
        assert paraChunks == SentenceSplit(b, para);
        if paraChunks.Err? {
          return Err(paraChunks.error);
        }
        return Ok((chunks + paraChunks.value, ""));
      } else {
        return Ok((chunks + [current], para));
      }
    }

    /** _split_by_paragraphs, with _split_paragraph_by_sentences for an oversized paragraph. */
    method SplitByParagraphs(text: string, maxTokens: int) returns (r: Result<seq<string>, Error>)
      ensures r == ParagraphSplit(BudgetOf(maxTokens), text)
    {
      var b := BudgetOf(maxTokens);
      var paragraphs := SplitParagraphs(text);
      var chunks: seq<string> := [];
      var current := "";
      var i := 0;
      while i < |paragraphs|
        invariant 0 <= i <= |paragraphs|
        invariant ParagraphFrom(b, chunks, current, paragraphs[i..]) == ParagraphFrom(b, [], "", paragraphs)
      {
        assert paragraphs[i..][1..] == paragraphs[i + 1..];
        var step := AddParagraph(paragraphs[i..], maxTokens, chunks, current);
        if step.Err? {
          return Err(step.error);
        }
        chunks, current := step.value.0, step.value.1;
        i := i + 1;
      }
      if current != "" {
        chunks := chunks + [current];
      }
      r := Ok(chunks);
    }

    /** _basic_token_split. */
    method BasicTokenSplit(text: string, maxTokens: int) returns (r: Result<seq<string>, Error>)
      ensures r == BasicSplit(BudgetOf(maxTokens), text)
    {
      if maxTokens == 0 {
        return Err(ZeroDivisionError("integer division or modulo by zero"));
      }
      var total := CountTokens(counter, text);
      var chunkCount := FloorDiv(total, maxTokens) + 1;
      if chunkCount <= 1 {
        return Ok([text]);
      }
      var w := width(maxTokens, |text|, total);
      if w == 0 {
        return Err(ValueError("range() arg 3 must not be zero"));
      }
      if w < 0 {
        return Ok([]);
      }
      var chunks := SliceText(text, w);
      r := Ok(chunks);
    }

    /** chunk_text, with the structure split cutting at the split points. */
    method ChunkText(text: string, maxTokens: int, scan: StructureScan) returns (r: Result<(seq<string>, bool), Error>)
      requires ValidScan(text, scan)
      ensures r == Chunked(BudgetOf(maxTokens), text, scan)
    {
      if text == "" {
        return Ok(([""], false));
      }
      if CountTokens(counter, text) <= maxTokens {
        return Ok(([text], false));
      }
      var has := HasStructure(scan);
      var split: Result<seq<string>, Error>;
      if has {
        var cs := SplitByStructure(text, maxTokens, scan);
        split := Ok(cs);
      } else {
        split := SplitByParagraphs(text, maxTokens);
      }
      r := Finish(text, maxTokens, has, split);
    }

    /** chunk_text as written, whose structure split fails on every structured text. */
    method ChunkTextAsWritten(text: string, maxTokens: int, scan: StructureScan) returns (r: Result<(seq<string>, bool), Error>)
      ensures r == ChunkedAsWritten(BudgetOf(maxTokens), text, scan)
    {
      if text == "" {
        return Ok(([""], false));
      }
      if CountTokens(counter, text) <= maxTokens {
        return Ok(([text], false));
      }
      var has := HasStructure(scan);
      var split: Result<seq<string>, Error>;
      if has {
        split := SplitByStructureAsWritten(text, maxTokens, scan);
      } else {
        split := SplitByParagraphs(text, maxTokens);
      }
      r := Finish(text, maxTokens, has, split);
    }

    /** The basic-split fallback for an empty split, and the wrapping of any failure. */
    method Finish(text: string, maxTokens: int, has: bool, split: Result<seq<string>, Error>) returns (r: Result<(seq<string>, bool), Error>)
      ensures r == Wrap(Complete(BudgetOf(maxTokens), text, has, split))
    {
      var done: Result<(seq<string>, bool), Error>;
      if split.Err? {
        done := Err(split.error);
      } else if split.value != [] {
        done := Ok((split.value, has));
      } else {
        var basic := BasicTokenSplit(text, maxTokens);
        if basic.Err? {
          done := Err(basic.error);
        } else if basic.value == [] {
          done := Err(ContentProcessingError("Failed to split text into chunks"));
        } else {
          done := Ok((basic.value, has));
        }
      }
      r := Wrap(done);
    }
  }
}
