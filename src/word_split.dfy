/**
 * The word-based splitter of the older analyzer: words are grouped greedily
 * under an approximate per-chunk token budget, each word costing
 * max(1, len(word) // 4), and each group is joined with single spaces.
 */
module WordSplit {
  import opened Wrappers
  import opened Text
  import opened Errors

  /** _approx_tokens: len(text) // 4. */
  function ApproxTokens(text: string): (n: nat)
    ensures 4 * n <= |text| < 4 * n + 4
  {
    |text| / 4
  }

  /** The cost of one word, never below 1. */
  function WordCost(w: string): (c: nat)
    ensures c >= 1
    ensures c == 1 || c == |w| / 4
  {
    if |w| / 4 >= 1 then |w| / 4 else 1
  }

  function Cost(ws: seq<string>): nat
  {
    if |ws| == 0 then 0 else Cost(ws[..|ws| - 1]) + WordCost(ws[|ws| - 1])
  }

  lemma {:induction false} CostAppend(ws: seq<string>, w: string)
    ensures Cost(ws + [w]) == Cost(ws) + WordCost(w)
  {
    assert (ws + [w])[..|ws|] == ws;
  }

  /** A group costs at least one per word. */
  lemma {:induction false} CostAtLeastLength(ws: seq<string>)
    ensures Cost(ws) >= |ws|
    decreases |ws|
  {
    if |ws| > 0 {
      CostAtLeastLength(ws[..|ws| - 1]);
    }
  }

  function Flatten(gs: seq<seq<string>>): seq<string>
  {
    if |gs| == 0 then [] else gs[0] + Flatten(gs[1..])
  }

  lemma {:induction false} FlattenAppend(gs: seq<seq<string>>, g: seq<string>)
    ensures Flatten(gs + [g]) == Flatten(gs) + g
    decreases |gs|
  {
    if |gs| == 0 {
      assert [g][1..] == [];
    } else {
      assert (gs + [g])[1..] == gs[1..] + [g];
      FlattenAppend(gs[1..], g);
    }
  }

  /**
   * The loop of _split_text as written: when a word would overflow the open
   * group, the open group is emitted even when it is still empty.
   */
  function GroupsFrom(words: seq<string>, size: int, done: seq<seq<string>>, cur: seq<string>, count: int): seq<seq<string>>
    decreases |words|
  {
    if |words| == 0 then (if cur != [] then done + [cur] else done)
    else
      var c := WordCost(words[0]);
      if count + c > size then GroupsFrom(words[1..], size, done + [cur], [words[0]], c)
      else GroupsFrom(words[1..], size, done, cur + [words[0]], count + c)
  }

  /** The loop with the open group emitted only when it holds a word. */
  function GroupsFromCorrected(words: seq<string>, size: int, done: seq<seq<string>>, cur: seq<string>, count: int): seq<seq<string>>
    decreases |words|
  {
    if |words| == 0 then (if cur != [] then done + [cur] else done)
    else
      var c := WordCost(words[0]);
      if count + c > size && cur != [] then GroupsFromCorrected(words[1..], size, done + [cur], [words[0]], c)
      else GroupsFromCorrected(words[1..], size, done, cur + [words[0]], count + c)
  }

  function Groups(words: seq<string>, size: int): seq<seq<string>>
  {
    GroupsFrom(words, size, [], [], 0)
  }

  function GroupsCorrected(words: seq<string>, size: int): seq<seq<string>>
  {
    GroupsFromCorrected(words, size, [], [], 0)
  }

  /** Each group joined with single spaces. */
  function JoinEach(gs: seq<seq<string>>): (r: seq<string>)
    ensures |r| == |gs|
    ensures forall i :: 0 <= i < |gs| ==> r[i] == Join(gs[i], " ")
  {
    if |gs| == 0 then [] else [Join(gs[0], " ")] + JoinEach(gs[1..])
  }

  /** _split_text as written. */
  function SplitTextAsWritten(text: string, chunkSize: int): seq<string>
  {
    JoinEach(Groups(Words(text), chunkSize))
  }

  /** _split_text without the empty leading chunk. */
  function SplitTextCorrected(text: string, chunkSize: int): seq<string>
  {
    JoinEach(GroupsCorrected(Words(text), chunkSize))
  }

  // ---------------------------------------------------------------------------
  // Properties of the grouping
  // ---------------------------------------------------------------------------

  /** Grouping keeps every word, in order. */
  lemma {:induction false} GroupsFromFlatten(words: seq<string>, size: int, done: seq<seq<string>>, cur: seq<string>, count: int)
    ensures Flatten(GroupsFrom(words, size, done, cur, count)) == Flatten(done) + cur + words
    decreases |words|
  {
    if |words| == 0 {
      if cur != [] { FlattenAppend(done, cur); }
    } else {
      var c := WordCost(words[0]);
      assert [words[0]] + words[1..] == words;
      if count + c > size {
        GroupsFromFlatten(words[1..], size, done + [cur], [words[0]], c);
        FlattenAppend(done, cur);
      } else {
        GroupsFromFlatten(words[1..], size, done, cur + [words[0]], count + c);
      }
    }
  }

  lemma {:induction false} GroupsFromCorrectedFlatten(words: seq<string>, size: int, done: seq<seq<string>>, cur: seq<string>, count: int)
    ensures Flatten(GroupsFromCorrected(words, size, done, cur, count)) == Flatten(done) + cur + words
    decreases |words|
  {
    if |words| == 0 {
      if cur != [] { FlattenAppend(done, cur); }
    } else {
      var c := WordCost(words[0]);
      assert [words[0]] + words[1..] == words;
      if count + c > size && cur != [] {
        GroupsFromCorrectedFlatten(words[1..], size, done + [cur], [words[0]], c);
        FlattenAppend(done, cur);
      } else {
        GroupsFromCorrectedFlatten(words[1..], size, done, cur + [words[0]], count + c);
      }
    }
  }

  /** A group is within budget unless it is a single word. */
  predicate WithinBudget(g: seq<string>, size: int)
  {
    |g| <= 1 || Cost(g) <= size
  }

  lemma {:induction false} GroupsFromBudget(words: seq<string>, size: int, done: seq<seq<string>>, cur: seq<string>, count: int)
    requires count == Cost(cur) && WithinBudget(cur, size)
    requires forall g :: g in done ==> WithinBudget(g, size)
    ensures forall g :: g in GroupsFrom(words, size, done, cur, count) ==> WithinBudget(g, size)
    decreases |words|
  {
    if |words| > 0 {
      var c := WordCost(words[0]);
      CostAppend(cur, words[0]);
      if count + c > size {
        assert Cost([words[0]]) == c by { CostAppend([], words[0]); }
        GroupsFromBudget(words[1..], size, done + [cur], [words[0]], c);
      } else {
        GroupsFromBudget(words[1..], size, done, cur + [words[0]], count + c);
      }
    }
  }

  lemma {:induction false} GroupsFromCorrectedBudget(words: seq<string>, size: int, done: seq<seq<string>>, cur: seq<string>, count: int)
    requires count == Cost(cur) && WithinBudget(cur, size)
    requires forall g :: g in done ==> WithinBudget(g, size) && g != []
    ensures forall g :: g in GroupsFromCorrected(words, size, done, cur, count) ==> WithinBudget(g, size) && g != []
    decreases |words|
  {
    if |words| > 0 {
      var c := WordCost(words[0]);
      CostAppend(cur, words[0]);
      if count + c > size && cur != [] {
        assert Cost([words[0]]) == c by { CostAppend([], words[0]); }
        GroupsFromCorrectedBudget(words[1..], size, done + [cur], [words[0]], c);
      } else {
        if cur == [] {
          assert cur + [words[0]] == [words[0]];
        }
        GroupsFromCorrectedBudget(words[1..], size, done, cur + [words[0]], count + c);
      }
    }
  }

  /** Once a group is open, no empty group is ever emitted. */
  lemma {:induction false} GroupsFromOpenNonEmpty(words: seq<string>, size: int, done: seq<seq<string>>, cur: seq<string>, count: int)
    requires cur != []
    ensures var r := GroupsFrom(words, size, done, cur, count);
      |r| > |done| && r[..|done|] == done && forall i :: |done| <= i < |r| ==> r[i] != []
    decreases |words|
  {
    if |words| > 0 {
      var c := WordCost(words[0]);
      if count + c > size {
        GroupsFromOpenNonEmpty(words[1..], size, done + [cur], [words[0]], c);
        var r := GroupsFrom(words, size, done, cur, count);
        assert r[..|done| + 1][..|done|] == r[..|done|];
      } else {
        GroupsFromOpenNonEmpty(words[1..], size, done, cur + [words[0]], count + c);
      }
    }
  }

  /**
   * As written, the only empty group is a leading one, and it appears exactly
   * when the first word alone costs more than the budget.
   */
  lemma {:induction false} GroupsEmptyOnlyFirst(words: seq<string>, size: int)
    ensures var g := Groups(words, size);
      (forall i :: 0 < i < |g| ==> g[i] != [])
      && ((|g| > 0 && g[0] == []) <==> (|words| > 0 && WordCost(words[0]) > size))
  {
    if |words| > 0 {
      var c := WordCost(words[0]);
      var g := Groups(words, size);
      if c > size {
        var none: seq<seq<string>> := [];
        assert none + [[]] == [[]];
        assert g == GroupsFrom(words[1..], size, [[]], [words[0]], c);
        GroupsFromOpenNonEmpty(words[1..], size, [[]], [words[0]], c);
        assert g[0] == g[..1][0];
      } else {
        assert [] + [words[0]] == [words[0]];
        assert g == GroupsFrom(words[1..], size, [], [words[0]], c);
        GroupsFromOpenNonEmpty(words[1..], size, [], [words[0]], c);
      }
    }
  }

  /** The corrected grouping never emits an empty group, and oversized groups are single words. */
  lemma {:induction false} GroupsCorrectedSound(words: seq<string>, size: int)
    ensures forall g :: g in GroupsCorrected(words, size) ==> g != [] && WithinBudget(g, size)
    ensures Flatten(GroupsCorrected(words, size)) == words
  {
    GroupsFromCorrectedBudget(words, size, [], [], 0);
    GroupsFromCorrectedFlatten(words, size, [], [], 0);
  }

  /** As written, every word still appears once, in order, and each group of two or more words is within budget. */
  lemma {:induction false} GroupsSound(words: seq<string>, size: int)
    ensures forall g :: g in Groups(words, size) ==> WithinBudget(g, size)
    ensures Flatten(Groups(words, size)) == words
  {
    GroupsFromBudget(words, size, [], [], 0);
    GroupsFromFlatten(words, size, [], [], 0);
  }

  // ---------------------------------------------------------------------------
  // Properties of the chunks
  // ---------------------------------------------------------------------------

  function WordsOfEach(chunks: seq<string>): seq<string>
  {
    if |chunks| == 0 then [] else Words(chunks[0]) + WordsOfEach(chunks[1..])
  }

  lemma {:induction false} WordsOfJoinEach(gs: seq<seq<string>>)
    requires forall g, w :: g in gs && w in g ==> IsWord(w)
    ensures WordsOfEach(JoinEach(gs)) == Flatten(gs)
    decreases |gs|
  {
    if |gs| > 0 {
      WordsOfJoin(gs[0]);
      WordsOfJoinEach(gs[1..]);
      assert JoinEach(gs)[1..] == JoinEach(gs[1..]);
    }
  }

  lemma {:induction false} FlattenMember(gs: seq<seq<string>>, g: seq<string>, w: string)
    requires g in gs && w in g
    ensures w in Flatten(gs)
    decreases |gs|
  {
    if gs[0] != g {
      FlattenMember(gs[1..], g, w);
    }
  }

  /** Re-splitting the chunks into words gives text.split(), in order (as written). */
  lemma {:induction false} SplitTextKeepsWords(text: string, chunkSize: int)
    ensures WordsOfEach(SplitTextAsWritten(text, chunkSize)) == Words(text)
  {
    var gs := Groups(Words(text), chunkSize);
    GroupsSound(Words(text), chunkSize);
    forall g, w | g in gs && w in g ensures IsWord(w) {
      FlattenMember(gs, g, w);
    }
    WordsOfJoinEach(gs);
  }

  /** The same for the corrected splitter, whose chunks are moreover never empty. */
  lemma {:induction false} SplitTextCorrectedKeepsWords(text: string, chunkSize: int)
    ensures WordsOfEach(SplitTextCorrected(text, chunkSize)) == Words(text)
    ensures forall c :: c in SplitTextCorrected(text, chunkSize) ==> c != ""
  {
    var gs := GroupsCorrected(Words(text), chunkSize);
    GroupsCorrectedSound(Words(text), chunkSize);
    forall g, w | g in gs && w in g ensures IsWord(w) {
      FlattenMember(gs, g, w);
    }
    WordsOfJoinEach(gs);
    forall c | c in SplitTextCorrected(text, chunkSize) ensures c != "" {
      var i :| 0 <= i < |gs| && c == JoinEach(gs)[i];
      assert gs[i] in gs;
      FlattenMember(gs, gs[i], gs[i][0]);
      JoinNonEmpty(gs[i]);
    }
  }

  lemma {:induction false} JoinNonEmpty(ws: seq<string>)
    requires ws != [] && IsWord(ws[0])
    ensures Join(ws, " ") != ""
  {
  }

  /** An eight-letter first word over a budget of one: the as-written splitter leads with an empty chunk. */
  lemma {:induction false} SplitTextEmptyFirstChunk()
    ensures SplitTextAsWritten("abcdefgh", 1) == ["", "abcdefgh"]
    ensures SplitTextCorrected("abcdefgh", 1) == ["abcdefgh"]
  {
    var w := "abcdefgh";
    assert Words(w) == [w] by {
      WordsOfJoin([w]);
    }
    assert WordCost(w) == 2;
  }

  /** The loop of _split_text, as written. */
  method SplitText(text: string, chunkSize: int) returns (chunks: seq<string>)
    ensures chunks == SplitTextAsWritten(text, chunkSize)
  {
    var words := Words(text);
    chunks := [];
    ghost var done: seq<seq<string>> := [];
    var currentWords: seq<string> := [];
    var currentCount := 0;
    var i := 0;
    while i < |words|
      invariant 0 <= i <= |words|
      invariant chunks == JoinEach(done)
      invariant GroupsFrom(words[i..], chunkSize, done, currentWords, currentCount) == Groups(words, chunkSize)
    {
      assert words[i..][1..] == words[i + 1..];
      var w := words[i];
      var wTokens := if |w| / 4 >= 1 then |w| / 4 else 1;
      if currentCount + wTokens > chunkSize {
        chunks := chunks + [Join(currentWords, " ")];
        JoinEachAppend(done, currentWords);
        done := done + [currentWords];
        currentWords := [w];
        currentCount := wTokens;
      } else {
        currentWords := currentWords + [w];
        currentCount := currentCount + wTokens;
      }
      i := i + 1;
    }
    if currentWords != [] {
      JoinEachAppend(done, currentWords);
      chunks := chunks + [Join(currentWords, " ")];
    }
  }

  lemma {:induction false} JoinEachAppend(gs: seq<seq<string>>, g: seq<string>)
    ensures JoinEach(gs + [g]) == JoinEach(gs) + [Join(g, " ")]
  {
  }

  /**
   * The text the older analyzer sends: the whole text, or the first chunk of
   * _split_text as written when the estimate exceeds
   * max_context_tokens - safety_buffer. An over-limit text without words has
   * no first chunk (IndexError).
   */
  function TextForAnalysis(fullText: string, maxContextTokens: int, safetyBuffer: int): (r: Result<string, Error>)
    ensures ApproxTokens(fullText) <= maxContextTokens - safetyBuffer ==> r == Ok(fullText)
    ensures r.Err? <==> ApproxTokens(fullText) > maxContextTokens - safetyBuffer && Words(fullText) == []
  {
    var safeLimit := maxContextTokens - safetyBuffer;
    GroupsSound(Words(fullText), safeLimit);
    if ApproxTokens(fullText) > safeLimit then
      var chunks := SplitTextAsWritten(fullText, safeLimit);
      if |chunks| == 0 then Err(OtherError("IndexError", "list index out of range"))
      else Ok(chunks[0])
    else Ok(fullText)
  }

  /**
   * As written, the first chunk over the limit holds a prefix of the text's
   * words, and it is empty exactly when the first word alone costs more than
   * the safe limit: the model is then sent "".
   */
  lemma {:induction false} TextForAnalysisFirstChunk(fullText: string, maxContextTokens: int, safetyBuffer: int)
    requires ApproxTokens(fullText) > maxContextTokens - safetyBuffer
    requires Words(fullText) != []
    ensures var r := TextForAnalysis(fullText, maxContextTokens, safetyBuffer);
      && r.Ok? && Words(r.value) <= Words(fullText)
      && (r.value == "" <==> WordCost(Words(fullText)[0]) > maxContextTokens - safetyBuffer)
  {
    var size := maxContextTokens - safetyBuffer;
    var words := Words(fullText);
    var gs := Groups(words, size);
    GroupsSound(words, size);
    GroupsEmptyOnlyFirst(words, size);
    assert gs != [];
    assert Flatten(gs) == gs[0] + Flatten(gs[1..]);
    if gs[0] == [] {
      assert Join(gs[0], " ") == "";
      assert Words("") == [];
    } else {
      assert gs[0] in gs;
      forall w | w in gs[0] ensures IsWord(w) {
        FlattenMember(gs, gs[0], w);
      }
      WordsOfJoin(gs[0]);
      JoinNonEmpty(gs[0]);
    }
  }

  /** An eight-letter text over a safe limit of one: as written the model is sent "", corrected the word itself. */
  lemma {:induction false} TextForAnalysisEmptyExample()
    ensures TextForAnalysis("abcdefgh", 2, 1) == Ok("")
    ensures TextForAnalysisCorrected("abcdefgh", 2, 1) == Ok("abcdefgh")
  {
    SplitTextEmptyFirstChunk();
    assert ApproxTokens("abcdefgh") == 2;
  }

  /** The same with the corrected splitter, whose first chunk is never empty. */
  function TextForAnalysisCorrected(fullText: string, maxContextTokens: int, safetyBuffer: int): (r: Result<string, Error>)
    ensures ApproxTokens(fullText) <= maxContextTokens - safetyBuffer ==> r == Ok(fullText)
    ensures r.Err? <==> ApproxTokens(fullText) > maxContextTokens - safetyBuffer && Words(fullText) == []
  {
    var safeLimit := maxContextTokens - safetyBuffer;
    GroupsCorrectedSound(Words(fullText), safeLimit);
    if ApproxTokens(fullText) > safeLimit then
      var chunks := SplitTextCorrected(fullText, safeLimit);
      if |chunks| == 0 then Err(OtherError("IndexError", "list index out of range"))
      else Ok(chunks[0])
    else Ok(fullText)
  }

  /** Corrected, the first chunk over the limit is non-empty and its words are a prefix of the text's words. */
  lemma {:induction false} TextForAnalysisCorrectedFirstChunk(fullText: string, maxContextTokens: int, safetyBuffer: int)
    requires ApproxTokens(fullText) > maxContextTokens - safetyBuffer
    requires Words(fullText) != []
    ensures var r := TextForAnalysisCorrected(fullText, maxContextTokens, safetyBuffer);
      r.Ok? && r.value != "" && Words(r.value) <= Words(fullText)
  {
    var size := maxContextTokens - safetyBuffer;
    var gs := GroupsCorrected(Words(fullText), size);
    SplitTextCorrectedKeepsWords(fullText, size);
    GroupsCorrectedSound(Words(fullText), size);
    assert gs != [];
    forall g, w | g in gs && w in g ensures IsWord(w) {
      FlattenMember(gs, g, w);
    }
    assert gs[0] in gs;
    WordsOfJoin(gs[0]);
    assert Flatten(gs) == gs[0] + Flatten(gs[1..]);
  }
}
