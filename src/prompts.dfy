/**
 * The prompt builders of app/ai_analysis/utils.py: the system instructions,
 * the full-text user prompt and the chunk prompt with its part label.
 */
module Prompts {
  import opened Wrappers
  import opened PyValue
  import opened Errors
  import Text

  /**
   * The fixed sentences of the prompts. The properties below hold whatever
   * the sentences say; SourceWording holds the ones of the source.
   */
  datatype Wording = Wording(
    baseInstructions: string,
    chunkNote: string,
    userPromptIntro: string,
    userPromptOutro: string,
    firstGuidance: string,
    finalGuidance: string,
    middleGuidance: string,
    structuredNote: string,
    unstructuredNote: string)

  const SourceWording: Wording := Wording(
    "You are a legislative analysis AI specializing in Texas public health and local government impacts. "
    + "Provide a comprehensive, objective analysis of the bill text following the structured format exactly. "
    + "Focus especially on impacts to Texas public health agencies and local governments. "
    + "If information is insufficient for any field, provide reasonable, conservative assessments. "
    + "If the bill text is too short or lacks substantive content to perform meaningful analysis, "
    + "return 'INSUFFICIENT_TEXT_FOR_ANALYSIS' in the summary field and populate minimal required fields. "
    + "Use only facts present in the text - do not add external information or assumptions.",
    " You are analyzing a portion of a larger document, so focus on extracting key information from this "
    + "specific section while considering how it fits into a broader bill context.",
    "Analyze the following legislative text and provide a comprehensive analysis. "
    + "Focus on identifying key provisions, potential impacts (especially on public health, "
    + "local government, and the economy), affected stakeholders, and implementation considerations. "
    + "Provide your analysis as a JSON object conforming to the required schema.\n\n"
    + "Legislative Text:\n"
    + "```\n",
    "\n```\n\nRespond with JSON.",
    "Focus on the sections provided while considering the bill's overall context.",
    "Use the summaries of previous sections to inform your analysis and provide a comprehensive conclusion.",
    "Consider the context from previous parts while focusing on the new content in this section.",
    " This document has structured sections. Pay attention to section headers and "
    + "how they relate to previous parts of the bill.",
    " This document was split by content size rather than by natural sections. "
    + "Be aware that some concepts might span across chunks.")

  /** create_analysis_instructions: the chunk variant extends the full-text instructions. */
  function AnalysisInstructions(w: Wording, isChunk: bool): (r: string)
    ensures w.baseInstructions <= r
    ensures isChunk && w.chunkNote != [] <==> |r| > |w.baseInstructions|
  {
    if isChunk then w.baseInstructions + w.chunkNote else w.baseInstructions
  }

  /** The full-text user prompt: the text between a fixed introduction and a fixed closing. */
  function FullTextPrompt(w: Wording, text: string): (r: string)
    ensures w.userPromptIntro <= r
    ensures |r| == |w.userPromptIntro| + |text| + |w.userPromptOutro|
  {
    w.userPromptIntro + text + w.userPromptOutro
  }

  /** The text a full-text prompt carries: what lies between introduction and closing. */
  function PromptText(w: Wording, prompt: string): Option<string>
  {
    var (intro, outro) := (w.userPromptIntro, w.userPromptOutro);
    if |prompt| >= |intro| + |outro| && intro <= prompt && prompt[|prompt| - |outro|..] == outro
    then Some(prompt[|intro|..|prompt| - |outro|])
    else None
  }

  /** The analysed text can be read back from the prompt unchanged. */
  lemma {:induction false} FullTextPromptRoundTrip(w: Wording, text: string)
    ensures PromptText(w, FullTextPrompt(w, text)) == Some(text)
  {
    var p := FullTextPrompt(w, text);
    assert p[|p| - |w.userPromptOutro|..] == w.userPromptOutro;
    assert p[|w.userPromptIntro|..|p| - |w.userPromptOutro|] == text;
  }

  // ---------------------------------------------------------------------
  // The chunk prompt
  // ---------------------------------------------------------------------

  /** ChunkPromptConfig: the attributes create_chunk_prompt reads. */
  datatype ChunkPromptConfig = ChunkPromptConfig(
    chunk: string,
    chunkIndex: int,
    totalChunks: int,
    prevSummaries: seq<string>,
    legislationMetadata: seq<(string, Value)>,
    isStructured: bool)

  /**
   * The configuration built from keyword arguments none of which it reads:
   * every attribute keeps its default ('' , 0, 1, [], {}, False).
   */
  const DefaultChunkConfig: ChunkPromptConfig := ChunkPromptConfig("", 0, 1, [], [], false)

  /** The six metadata keys the bill context shows, with their labels, in order. */
  const MetadataKeys: seq<(string, string)> := [
    ("bill_number", "Bill Number: "),
    ("title", "Title: "),
    ("description", "Description: "),
    ("govt_type", "Government Type: "),
    ("govt_source", "Source: "),
    ("status", "Status: ")
  ]

  /** The context lines for `keys`, or the KeyError of the first key the metadata lacks. */
  function ContextLines(meta: seq<(string, Value)>, keys: seq<(string, string)>): (r: Result<seq<string>, Error>)
    ensures r.Ok? <==> forall i :: 0 <= i < |keys| ==> HasKey(meta, keys[i].0)
    ensures r.Ok? ==> |r.value| == |keys|
    ensures r.Err? ==> exists i :: 0 <= i < |keys| && !HasKey(meta, keys[i].0) && r.error == KeyError(keys[i].0)
  {
    if keys == [] then Ok([])
    else
      var v := Get(meta, keys[0].0);
      GetFindsKey(meta, keys[0].0);
      if v.None? then Err(KeyError(keys[0].0))
      else
        var rest := ContextLines(meta, keys[1..]);
        if rest.Err? then
          assert forall i :: 0 <= i < |keys| - 1 ==> keys[1..][i] == keys[i + 1];
          rest
        else
          assert forall i :: 1 <= i < |keys| ==> keys[i] == keys[1..][i - 1];
          Ok([keys[0].1 + Str(v.value)] + rest.value)
  }

  /** The position label of chunk `index` among `total`; the first index wins even when it is also the last. */
  function PartLabel(index: int, total: int): string
  {
    if index == 0 then "PART 1 OF " + Text.IntToString(total)
    else if index == total - 1 then
      "THE FINAL PART (" + Text.IntToString(index + 1) + " OF " + Text.IntToString(total) + ")"
    else "PART " + Text.IntToString(index + 1) + " OF " + Text.IntToString(total)
  }

  /** The label names the chunk's 1-based position whichever branch it comes from. */
  lemma {:induction false} PartLabelShowsPosition(index: int, total: int)
    requires 0 <= index < total
    ensures index != total - 1 || index == 0 ==>
              PartLabel(index, total) == "PART " + Text.IntToString(index + 1) + " OF " + Text.IntToString(total)
    ensures 0 < index == total - 1 ==>
              PartLabel(index, total) == "THE FINAL PART (" + Text.IntToString(index + 1) + " OF " + Text.IntToString(total) + ")"
  {
    if index == 0 {
      assert Text.IntToString(1) == "1";
      assert "PART 1 OF " == "PART " + "1" + " OF ";
    }
  }

  /** Equal strings that share a prefix and a suffix have equal middles. */
  lemma {:induction false} SameMiddle(p: string, a: string, b: string, q: string)
    requires p + a + q == p + b + q
    ensures a == b
  {
    assert |a| == |b|;
    assert a == (p + a + q)[|p|..|p| + |a|];
    assert b == (p + b + q)[|p|..|p| + |b|];
  }

  /** Two chunks of the same document never carry the same label. */
  lemma {:induction false} PartLabelsDistinct(i: int, j: int, total: int)
    requires 0 <= i < j < total
    ensures PartLabel(i, total) != PartLabel(j, total)
  {
    PartLabelShowsPosition(i, total);
    PartLabelShowsPosition(j, total);
    var n := Text.IntToString(total);
    if j == total - 1 {
      assert PartLabel(i, total)[0] == 'P';
      assert PartLabel(j, total)[0] == 'T';
    } else if PartLabel(i, total) == PartLabel(j, total) {
      var a := Text.IntToString(i + 1);
      var b := Text.IntToString(j + 1);
      assert "PART " + a + " OF " + n == "PART " + a + (" OF " + n);
      assert "PART " + b + " OF " + n == "PART " + b + (" OF " + n);
      SameMiddle("PART ", a, b, " OF " + n);
      Text.IntToStringRoundTrip(i + 1);
      Text.IntToStringRoundTrip(j + 1);
      assert false;
    }
  }

  /** The sentences following the part label, by the label's branch. */
  function PartGuidance(w: Wording, index: int, total: int): string
  {
    if index == 0 then w.firstGuidance
    else if index == total - 1 then w.finalGuidance
    else w.middleGuidance
  }

  const SectionHeader: string := "\n\nCURRENT SECTION TEXT TO ANALYZE:\n"

  /**
   * create_chunk_prompt: the instructions (part label, guidance), the bill
   * context (six metadata lines, then the earlier summaries if any) and the
   * chunk text last. A missing metadata key raises KeyError.
   */
  function ChunkPrompt(w: Wording, config: ChunkPromptConfig): (r: Result<string, Error>)
    ensures r.Ok? <==> forall i :: 0 <= i < |MetadataKeys| ==> HasKey(config.legislationMetadata, MetadataKeys[i].0)
    ensures r.Ok? ==> |r.value| >= |SectionHeader + config.chunk|
                      && r.value[|r.value| - |SectionHeader + config.chunk|..] == SectionHeader + config.chunk
    ensures r.Ok? ==> ("You are analyzing " + PartLabel(config.chunkIndex, config.totalChunks)) <= r.value
  {
    var lines := ContextLines(config.legislationMetadata, MetadataKeys);
    if lines.Err? then Err(lines.error)
    else
      var sections := lines.value
        + (if config.prevSummaries != [] then ["\nSUMMARIES FROM PREVIOUS SECTIONS:"] + config.prevSummaries else []);
      var head := "You are analyzing " + PartLabel(config.chunkIndex, config.totalChunks);
      var middle := " of a large legislative bill. " + PartGuidance(w, config.chunkIndex, config.totalChunks)
        + (if config.isStructured then w.structuredNote else w.unstructuredNote)
        + "\n\nBILL CONTEXT:\n" + Text.Join(sections, "\n");
      Ok(Framed(head, middle, SectionHeader + config.chunk))
  }

  /** head + middle + tail, which starts with head and ends with tail. */
  function Framed(head: string, middle: string, tail: string): (r: string)
    ensures head <= r
    ensures |r| >= |tail| && r[|r| - |tail|..] == tail
  {
    head + middle + tail
  }

  /** Without metadata the chunk prompt fails on the first key, bill_number. */
  lemma {:induction false} EmptyMetadataFails(w: Wording, config: ChunkPromptConfig)
    requires config.legislationMetadata == []
    ensures ChunkPrompt(w, config) == Err(KeyError("bill_number"))
  {
  }

  /**
   * create_user_prompt as written: the chunk branch passes the text as
   * `chunk_text`, which the configuration does not read, so the
   * configuration is the default one and the prompt fails on the empty
   * metadata; the text branch builds the full-text prompt.
   */
  function CreateUserPrompt(w: Wording, text: string, isChunk: bool): (r: Result<string, Error>)
    ensures isChunk ==> r == Err(KeyError("bill_number"))
    ensures !isChunk ==> r.Ok? && PromptText(w, r.value) == Some(text)
  {
    if isChunk then
      EmptyMetadataFails(w, DefaultChunkConfig);
      ChunkPrompt(w, DefaultChunkConfig)
    else
      FullTextPromptRoundTrip(w, text);
      Ok(FullTextPrompt(w, text))
  }

  /**
   * create_user_prompt with the chunk passed as `chunk` and the bill's
   * metadata supplied: the prompt ends with the chunk text.
   */
  function CreateUserPromptCorrected(w: Wording, text: string, isChunk: bool, metadata: seq<(string, Value)>)
    : (r: Result<string, Error>)
    ensures isChunk ==> (r.Ok? <==> forall i :: 0 <= i < |MetadataKeys| ==> HasKey(metadata, MetadataKeys[i].0))
    ensures isChunk && r.Ok? ==> |r.value| >= |SectionHeader + text|
                                 && r.value[|r.value| - |SectionHeader + text|..] == SectionHeader + text
    ensures !isChunk ==> r.Ok? && PromptText(w, r.value) == Some(text)
  {
    if isChunk then ChunkPrompt(w, DefaultChunkConfig.(chunk := text, legislationMetadata := metadata))
    else CreateUserPrompt(w, text, false)
  }
}
