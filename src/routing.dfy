/**
 * The analysis coordinator: how a legislation text reaches the language
 * model. Content is extracted from the latest text record, a PDF goes to the
 * document-reading model, a text is preprocessed and then either declared
 * too short, sent whole, or chunked, each chunk analysed and the partial
 * analyses merged.
 *
 * The model, the PDF reader, the HTML parser and the chunker's scan are
 * oracles of a Pipeline; an analysis is of any type A. Three wiring defects
 * of the chunk path are modelled as written and corrected (see Wiring).
 */
module Routing {
  import opened Wrappers
  import opened Errors
  import opened PyValue
  import opened Bytes
  import opened TokenCount
  import Text
  import Utf8
  import Sanitize
  import Preprocess
  import Chunking
  import Prompts
  import AnalysisStore

  /** The settings the routing reads: max_context_tokens and safety_buffer. */
  datatype Config = Config(maxContextTokens: int, safetyBuffer: int)

  /** max_context_tokens - safety_buffer, the budget of one chunk. */
  function SafeLimit(c: Config): int
  {
    c.maxContextTokens - c.safetyBuffer
  }

  /** Below this many tokens a text is not worth analysing. */
  const MinAnalysisTokens := 300

  /** Where a preprocessed text goes. */
  datatype Route = TooShort | Direct | Chunk(limit: int)

  /** The token-count test of process_analysis and _process_analysis_async. */
  function TextRoute(c: Config, tokens: nat): Route
  {
    if tokens < MinAnalysisTokens then TooShort
    else if tokens > c.maxContextTokens then Chunk(SafeLimit(c))
    else Direct
  }

  function RouteRank(r: Route): nat
  {
    match r
    case TooShort => 0
    case Direct => 1
    case Chunk(_) => 2
  }

  /**
   * Exactly max_context_tokens is sent whole and one more token is chunked;
   * a longer text never takes a lighter route; chunks use the safe limit.
   */
  lemma {:induction false} TextRouteThresholds(c: Config, tokens: nat, more: nat)
    requires tokens <= more
    ensures TextRoute(c, tokens).TooShort? <==> tokens < MinAnalysisTokens
    ensures TextRoute(c, tokens).Chunk? ==> TextRoute(c, tokens).limit == SafeLimit(c) && tokens > c.maxContextTokens
    ensures c.maxContextTokens >= MinAnalysisTokens ==>
              TextRoute(c, c.maxContextTokens) == Direct && TextRoute(c, c.maxContextTokens + 1).Chunk?
    ensures RouteRank(TextRoute(c, tokens)) <= RouteRank(TextRoute(c, more))
  {
  }

  // ---------------------------------------------------------------------
  // The pipeline and its calls
  // ---------------------------------------------------------------------

  /**
   * The services an analysis consults: the token counter, the HTML parser,
   * the chunker's slice-width rule and structure scan, the prompt wording,
   * the language model on (system message, user prompt), the model reading
   * a PDF with a prompt, whether the client may read PDFs (vision_enabled
   * and supports_vision), the truth value of an analysis, the merge of two
   * analyses and the analyzer's insufficient-text analysis.
   */
  datatype Pipeline<!A> = Pipeline(
    counter: Counter,
    soup: Preprocess.Soup,
    width: Chunking.WidthOracle,
    scan: string -> Chunking.StructureScan,
    wording: Prompts.Wording,
    model: (string, string) -> Result<Option<A>, Error>,
    pdfModel: (seq<Byte>, string) -> Result<Option<A>, Error>,
    vision: bool,
    truthy: A -> bool,
    merge: (A, A) -> Result<A, Error>,
    insufficient: A)

  /** The structure scan behaves as regular-expression matching does on every text. */
  ghost predicate ValidPipeline<A>(p: Pipeline<A>)
  {
    forall t :: Chunking.ValidScan(t, p.scan(t))
  }

  /** The chunker's budget for one limit. */
  function ChunkBudget<A>(p: Pipeline<A>, limit: int): Chunking.Budget
  {
    Chunking.Budget(s => CountTokens(p.counter, s), p.width, limit)
  }

  /**
   * text_chunker.chunk_text(text, limit): as written its structure split
   * fails on every structured text; corrected it cuts at the section marks.
   */
  function ChunkText<A>(p: Pipeline<A>, wiring: Wiring, text: string, limit: int): (r: Result<(seq<string>, bool), Error>)
    requires ValidPipeline(p)
    ensures r.Ok? ==> |r.value.0| >= 1
    ensures r.Err? ==> r.error.ContentProcessingError?
  {
    if wiring.AsWritten? then Chunking.ChunkedAsWritten(ChunkBudget(p, limit), text, p.scan(text))
    else Chunking.Chunked(ChunkBudget(p, limit), text, p.scan(text))
  }

  const StructuredFailure := "Error in structured analysis: "
  const AsyncStructuredFailure := "Error in async structured analysis: "

  /** The prefix call_structured_analysis (Sync) or call_structured_analysis_async (Async) puts before the failure it wraps. */
  function FailurePrefix(mode: Mode): string
  {
    if mode.Sync? then StructuredFailure else AsyncStructuredFailure
  }

  /**
   * call_structured_analysis (Sync) or call_structured_analysis_async
   * (Async) once its user prompt is built: the model is called with the
   * instructions for a whole text or a chunk, and any failure, building
   * the prompt included, becomes AIAnalysisError under the variant's prefix.
   */
  function CallStructured<A>(p: Pipeline<A>, mode: Mode, isChunk: bool, prompt: Result<string, Error>): (r: Result<Option<A>, Error>)
    ensures r.Err? ==> r.error.AIAnalysisError?
    ensures r.Err? ==> FailurePrefix(mode) <= r.error.msg
    ensures prompt.Err? ==> r == Err(AIAnalysisError(FailurePrefix(mode) + Message(prompt.error)))
  {
    match prompt
    case Err(e) => Err(AIAnalysisError(FailurePrefix(mode) + Message(e)))
    case Ok(user) =>
      match p.model(Prompts.AnalysisInstructions(p.wording, isChunk), user)
      case Err(e) => Err(AIAnalysisError(FailurePrefix(mode) + Message(e)))
      case Ok(v) => Ok(v)
  }

  /** call_structured_analysis(text, is_chunk=False) or its async twin: the full-text prompt. */
  function DirectCall<A>(p: Pipeline<A>, mode: Mode, text: string): Result<Option<A>, Error>
  {
    CallStructured(p, mode, false, Prompts.CreateUserPrompt(p.wording, text, false))
  }

  /**
   * A direct call fails only when the model does, and then always as
   * AIAnalysisError carrying the model's message behind the variant's prefix.
   */
  lemma {:induction false} DirectCallSound<A>(p: Pipeline<A>, mode: Mode, text: string)
    ensures var prompt := Prompts.CreateUserPrompt(p.wording, text, false);
      && prompt.Ok? && Prompts.PromptText(p.wording, prompt.value) == Some(text)
      && var call := p.model(Prompts.AnalysisInstructions(p.wording, false), prompt.value);
      && (DirectCall(p, mode, text).Err? <==> call.Err?)
      && (call.Err? ==> DirectCall(p, mode, text) == Err(AIAnalysisError(FailurePrefix(mode) + Message(call.error))))
      && (call.Ok? ==> DirectCall(p, mode, text) == call)
  {
  }

  /** The two variants' messages differ: a failure's message says which variant raised it. */
  lemma {:induction false} FailurePrefixesDiffer()
    ensures !(FailurePrefix(Sync) <= FailurePrefix(Async)) && !(FailurePrefix(Async) <= FailurePrefix(Sync))
  {
    assert FailurePrefix(Sync)[9] != FailurePrefix(Async)[9];
  }

  // ---------------------------------------------------------------------
  // analyze_in_chunks
  // ---------------------------------------------------------------------

  /**
   * How the chunk path is wired. As written, the chunker's structure split
   * fails on every structured text, the chunk call passes the bare chunk
   * text where create_chunk_prompt reads a configuration, and the partial
   * analyses are handed to merge_analyses with three arguments where it
   * takes two. Corrected, the structure split cuts at the section marks,
   * each chunk gets its own configuration (position, bill metadata,
   * structure flag) and the analyses are merged pairwise from the first.
   */
  datatype Wiring = AsWritten | Corrected

  /** The synchronous and the asynchronous chunk analysis differ in what they keep and in their messages. */
  datatype Mode = Sync | Async

  const NoMetadataAttribute := "'str' object has no attribute 'legislation_metadata'"
  const MergeArity := "merge_analyses() takes 2 positional arguments but 3 were given"

  /** The user prompt of chunk i. */
  function ChunkUserPrompt(w: Prompts.Wording, wiring: Wiring, meta: seq<(string, Value)>, has: bool, chunks: seq<string>, i: nat)
    : Result<string, Error>
    requires i < |chunks|
  {
    if wiring.AsWritten? then Err(AttributeError(NoMetadataAttribute))
    else Prompts.ChunkPrompt(w, Prompts.ChunkPromptConfig(chunks[i], i, |chunks|, [], meta, has))
  }

  /** call_structured_analysis(chunk, is_chunk=True) for chunk i. */
  function ChunkCall<A>(p: Pipeline<A>, wiring: Wiring, mode: Mode, meta: seq<(string, Value)>, has: bool, chunks: seq<string>, i: nat)
    : Result<Option<A>, Error>
    requires i < |chunks|
  {
    CallStructured(p, mode, true, ChunkUserPrompt(p.wording, wiring, meta, has, chunks, i))
  }

  /** Whether a chunk's result is kept: the synchronous loop keeps truthy results, the asynchronous one every result but None. */
  predicate Keeps<A>(p: Pipeline<A>, mode: Mode, r: Result<Option<A>, Error>)
  {
    r.Ok? && r.value.Some? && (mode.Async? || p.truthy(r.value.value))
  }

  /** The result of every chunk call, in chunk order. */
  function ChunkResults<A>(p: Pipeline<A>, wiring: Wiring, mode: Mode, meta: seq<(string, Value)>, has: bool, chunks: seq<string>)
    : (rs: seq<Result<Option<A>, Error>>)
    ensures |rs| == |chunks|
    ensures forall i :: 0 <= i < |chunks| ==> rs[i] == ChunkCall(p, wiring, mode, meta, has, chunks, i)
  {
    seq(|chunks|, i requires 0 <= i < |chunks| => ChunkCall(p, wiring, mode, meta, has, chunks, i))
  }

  /** The analyses that survive among the chunk results, in chunk order; failed chunks are dropped. */
  function Kept<A>(p: Pipeline<A>, mode: Mode, rs: seq<Result<Option<A>, Error>>): seq<A>
  {
    if rs == [] then []
    else
      var prior := Kept(p, mode, rs[..|rs| - 1]);
      var r := rs[|rs| - 1];
      if Keeps(p, mode, r) then prior + [r.value.value] else prior
  }

  /** Nothing survives exactly when no chunk result is kept; never more analyses than chunks. */
  lemma {:induction false} KeptEmpty<A>(p: Pipeline<A>, mode: Mode, rs: seq<Result<Option<A>, Error>>)
    ensures |Kept(p, mode, rs)| <= |rs|
    ensures Kept(p, mode, rs) == [] <==> forall i :: 0 <= i < |rs| ==> !Keeps(p, mode, rs[i])
    decreases |rs|
  {
    if rs != [] {
      var prior := rs[..|rs| - 1];
      KeptEmpty(p, mode, prior);
      assert forall i :: 0 <= i < |prior| ==> prior[i] == rs[i];
    }
  }

  /** When every chunk result is kept, the survivors are exactly those analyses, in order. */
  lemma {:induction false} KeptAll<A>(p: Pipeline<A>, mode: Mode, rs: seq<Result<Option<A>, Error>>)
    requires forall i :: 0 <= i < |rs| ==> Keeps(p, mode, rs[i])
    ensures |Kept(p, mode, rs)| == |rs|
    ensures forall i :: 0 <= i < |rs| ==> rs[i].Ok? && rs[i].value.Some? && Kept(p, mode, rs)[i] == rs[i].value.value
    decreases |rs|
  {
    if rs != [] {
      var prior := rs[..|rs| - 1];
      assert forall i :: 0 <= i < |prior| ==> prior[i] == rs[i];
      KeptAll(p, mode, prior);
    }
  }

  /** The corrected merge: merge_analyses folded over the partial analyses from the first. */
  function MergeAll<A>(merge: (A, A) -> Result<A, Error>, acc: A, rest: seq<A>): Result<A, Error>
    decreases |rest|
  {
    if rest == [] then Ok(acc)
    else match merge(acc, rest[0])
      case Err(e) => Err(e)
      case Ok(m) => MergeAll(merge, m, rest[1..])
  }

  function NoValidChunks(mode: Mode): string
  {
    if mode.Sync? then "Failed to generate any valid chunk analyses"
    else "Failed to generate any valid chunk analyses asynchronously"
  }

  function ChunkFailure(mode: Mode): string
  {
    if mode.Sync? then "Error analyzing text in chunks: " else "Error in async chunked analysis: "
  }

  /**
   * The merge step of analyze_in_chunks: with no analysis kept it fails;
   * otherwise the merge runs, and a failure that is not an AIAnalysisError
   * is wrapped as ContentProcessingError.
   */
  function MergeKept<A>(p: Pipeline<A>, wiring: Wiring, mode: Mode, kept: seq<A>): (r: Result<A, Error>)
    ensures kept == [] ==> r == Err(ContentProcessingError(NoValidChunks(mode)))
    ensures r.Err? ==> IsAIAnalysisError(r.error)
  {
    if kept == [] then Err(ContentProcessingError(NoValidChunks(mode)))
    else
      var merged := if wiring.AsWritten? then Err(TypeError(MergeArity)) else MergeAll(p.merge, kept[0], kept[1..]);
      match merged
      case Ok(a) => Ok(a)
      case Err(e) => if IsAIAnalysisError(e) then Err(e) else Err(ContentProcessingError(ChunkFailure(mode) + Message(e)))
  }

  /** analyze_in_chunks (Sync) and analyze_in_chunks_async (Async). */
  function AnalyzeInChunks<A>(p: Pipeline<A>, wiring: Wiring, mode: Mode, meta: seq<(string, Value)>, has: bool, chunks: seq<string>)
    : Result<A, Error>
  {
    MergeKept(p, wiring, mode, Kept(p, mode, ChunkResults(p, wiring, mode, meta, has, chunks)))
  }

  /** As written, every chunk call fails before reaching the model. */
  lemma {:induction false} AsWrittenChunkCallFails<A>(p: Pipeline<A>, mode: Mode, meta: seq<(string, Value)>, has: bool, chunks: seq<string>, i: nat)
    requires i < |chunks|
    ensures ChunkCall(p, AsWritten, mode, meta, has, chunks, i).Err?
    ensures ChunkCall(p, AsWritten, mode, meta, has, chunks, i).error.AIAnalysisError?
  {
  }

  /** As written, even analyses that were kept could not be merged: the three-argument call fails. */
  lemma {:induction false} AsWrittenMergeFails<A>(p: Pipeline<A>, mode: Mode, kept: seq<A>)
    ensures MergeKept(p, AsWritten, mode, kept).Err?
    ensures MergeKept(p, AsWritten, mode, kept).error.ContentProcessingError?
  {
  }

  /** So, as written, chunked analysis never succeeds: every chunk is dropped and the "no valid analyses" error is raised. */
  lemma {:induction false} AsWrittenChunkedAnalysisFails<A>(p: Pipeline<A>, mode: Mode, meta: seq<(string, Value)>, has: bool, chunks: seq<string>)
    ensures AnalyzeInChunks(p, AsWritten, mode, meta, has, chunks) == Err(ContentProcessingError(NoValidChunks(mode)))
  {
    var rs := ChunkResults(p, AsWritten, mode, meta, has, chunks);
    forall i | 0 <= i < |rs| ensures !Keeps(p, mode, rs[i]) {
      AsWrittenChunkCallFails(p, mode, meta, has, chunks, i);
    }
    KeptEmpty(p, mode, rs);
  }

  /**
   * Corrected, with the bill's metadata complete, the model sees each chunk
   * under its own position label, and a single surviving analysis is
   * returned as it is.
   */
  lemma {:induction false} CorrectedChunkCalls<A>(p: Pipeline<A>, mode: Mode, meta: seq<(string, Value)>, has: bool, chunks: seq<string>, i: nat)
    requires i < |chunks|
    requires forall k :: 0 <= k < |Prompts.MetadataKeys| ==> HasKey(meta, Prompts.MetadataKeys[k].0)
    ensures var prompt := ChunkUserPrompt(p.wording, Corrected, meta, has, chunks, i);
      && prompt.Ok?
      && Prompts.SectionHeader + chunks[i] <= prompt.value[|prompt.value| - |Prompts.SectionHeader + chunks[i]|..]
      && ChunkCall(p, Corrected, mode, meta, has, chunks, i) == CallStructured(p, mode, true, prompt)
  {
  }

  /** Corrected, one kept analysis is the result, and a merge failure of a non-analysis kind surfaces as ContentProcessingError. */
  lemma {:induction false} CorrectedMergeKept<A>(p: Pipeline<A>, mode: Mode, kept: seq<A>)
    ensures |kept| == 1 ==> MergeKept(p, Corrected, mode, kept) == Ok(kept[0])
    ensures |kept| >= 1 && MergeAll(p.merge, kept[0], kept[1..]).Ok? ==>
              MergeKept(p, Corrected, mode, kept) == MergeAll(p.merge, kept[0], kept[1..])
  {
    if |kept| == 1 {
      assert kept[1..] == [];
    }
  }

  /** One more chunk result extends the survivors by its analysis exactly when it is kept. */
  lemma {:induction false} KeptStep<A>(p: Pipeline<A>, mode: Mode, rs: seq<Result<Option<A>, Error>>, i: nat)
    requires i < |rs|
    ensures Kept(p, mode, rs[..i + 1]) ==
      if Keeps(p, mode, rs[i]) then Kept(p, mode, rs[..i]) + [rs[i].value.value] else Kept(p, mode, rs[..i])
  {
    assert rs[..i + 1][..i] == rs[..i];
  }

  /** analyze_in_chunks as a loop over the chunks, then the merge. */
  method AnalyzeChunks<A>(p: Pipeline<A>, wiring: Wiring, mode: Mode, meta: seq<(string, Value)>, has: bool, chunks: seq<string>)
    returns (r: Result<A, Error>)
    ensures r == AnalyzeInChunks(p, wiring, mode, meta, has, chunks)
  {
    ghost var rs := ChunkResults(p, wiring, mode, meta, has, chunks);
    var kept: seq<A> := [];
    var i := 0;
    while i < |chunks|
      invariant 0 <= i <= |chunks|
      invariant kept == Kept(p, mode, rs[..i])
    {
      var result := ChunkCall(p, wiring, mode, meta, has, chunks, i);
      KeptStep(p, mode, rs, i);
      if Keeps(p, mode, result) {
        kept := kept + [result.value.value];
      }
      i := i + 1;
    }
    assert rs[..|chunks|] == rs;
    r := MergeKept(p, wiring, mode, kept);
  }

  // ---------------------------------------------------------------------
  // process_analysis and _process_analysis_async
  // ---------------------------------------------------------------------

  /** The text analysed when the content is not a PDF to send as a document: bytes are decoded strictly, falling back to the description. */
  function TextOf(content: Value, description: Value): string
  {
    if content.PyBytes? then
      match Utf8.Decode(content.bytes)
      case Some(s) => s
      case None => Sanitize.EnsurePlainString(description)
    else Sanitize.EnsurePlainString(content)
  }

  /** A missing result becomes the insufficient-text analysis. */
  function OrInsufficient<A>(p: Pipeline<A>, r: Result<Option<A>, Error>): Result<A, Error>
  {
    match r
    case Err(e) => Err(e)
    case Ok(None) => Ok(p.insufficient)
    case Ok(Some(a)) => Ok(a)
  }

  /** The chunk route: a single chunk is sent whole, several go through analyze_in_chunks. */
  function ChunkRoute<A>(p: Pipeline<A>, wiring: Wiring, mode: Mode, meta: seq<(string, Value)>, text: string, limit: int)
    : Result<Option<A>, Error>
    requires ValidPipeline(p)
  {
    match ChunkText(p, wiring, text, limit)
    case Err(e) => Err(e)
    case Ok((chunks, has)) =>
      if |chunks| == 1 then DirectCall(p, mode, chunks[0])
      else match AnalyzeInChunks(p, wiring, mode, meta, has, chunks)
        case Err(e) => Err(e)
        case Ok(a) => Ok(Some(a))
  }

  const PdfFailure := "Error analyzing PDF content: "
  const ChunkingFailure := "Error chunking content: "

  /** The prompt sent with a PDF: the full-text prompt of the empty text. */
  function PdfPrompt(w: Prompts.Wording): string
  {
    Prompts.FullTextPrompt(w, "")
  }

  /**
   * What process_analysis (Sync) and _process_analysis_async (Async) do
   * with a preprocessed text and its token count: too short gives the
   * insufficient analysis without a model call, up to max_context_tokens
   * the text is sent whole, beyond it is chunked. The synchronous path
   * wraps every failure of the chunk route as ContentProcessingError, the
   * asynchronous one lets it through.
   */
  function RouteAnalysis<A>(p: Pipeline<A>, c: Config, wiring: Wiring, mode: Mode, meta: seq<(string, Value)>, text: string, tokens: nat)
    : Result<A, Error>
    requires ValidPipeline(p)
  {
    match TextRoute(c, tokens)
    case TooShort => Ok(p.insufficient)
    case Direct => OrInsufficient(p, DirectCall(p, mode, text))
    case Chunk(limit) =>
      match ChunkRoute(p, wiring, mode, meta, text, limit)
      case Err(e) => if mode.Sync? then Err(ContentProcessingError(ChunkingFailure + Message(e))) else Err(e)
      case Ok(v) => OrInsufficient(p, Ok(v))
  }

  /** The preprocessed text and its token count. */
  function TextPreprocessed<A>(p: Pipeline<A>, content: Value, description: Value): (string, nat)
  {
    Preprocess.PreprocessText(p.counter, p.soup, PyStr(TextOf(content, description)))
  }

  /**
   * process_analysis (Sync) and _process_analysis_async (Async): a PDF the
   * client can read goes to the document model, anything else is
   * preprocessed and routed. A failing PDF call is AIAnalysisError on the
   * synchronous path; the asynchronous one degrades AIAnalysisError and
   * UnicodeError to the insufficient analysis.
   */
  function ProcessAnalysis<A>(p: Pipeline<A>, c: Config, wiring: Wiring, mode: Mode, content: Value, description: Value,
                              meta: seq<(string, Value)>)
    : Result<A, Error>
    requires ValidPipeline(p)
  {
    if Preprocess.IsBinaryPdf(content) && p.vision then
      match p.pdfModel(content.bytes, PdfPrompt(p.wording))
      case Err(e) =>
        if mode.Sync? then Err(AIAnalysisError(PdfFailure + Message(e)))
        else if IsAIAnalysisError(e) || e.UnicodeError? then Ok(p.insufficient)
        else Err(e)
      case Ok(v) => OrInsufficient(p, Ok(v))
    else
      var (text, tokens) := TextPreprocessed(p, content, description);
      RouteAnalysis(p, c, wiring, mode, meta, text, tokens)
  }

  /** Content that is not a readable PDF is routed by the token count of its preprocessed text, which is free of control characters. */
  lemma {:induction false} ProcessAnalysisText<A>(p: Pipeline<A>, c: Config, wiring: Wiring, mode: Mode, content: Value, description: Value,
                               meta: seq<(string, Value)>)
    requires ValidPipeline(p)
    requires !(Preprocess.IsBinaryPdf(content) && p.vision)
    ensures var (text, tokens) := TextPreprocessed(p, content, description);
      && ProcessAnalysis(p, c, wiring, mode, content, description, meta) == RouteAnalysis(p, c, wiring, mode, meta, text, tokens)
      && tokens == CountTokens(p.counter, text)
  {
    Preprocess.PreprocessTextSound(p.counter, p.soup, PyStr(TextOf(content, description)));
  }

  /** A short text gets the insufficient-text analysis whatever the model would have said: it is not called. */
  lemma {:induction false} ShortTextSkipsModel<A>(p: Pipeline<A>, c: Config, wiring: Wiring, mode: Mode, meta: seq<(string, Value)>, text: string, tokens: nat,
                               other: (string, string) -> Result<Option<A>, Error>)
    requires ValidPipeline(p)
    requires tokens < MinAnalysisTokens
    ensures RouteAnalysis(p, c, wiring, mode, meta, text, tokens) == Ok(p.insufficient)
    ensures RouteAnalysis(p.(model := other), c, wiring, mode, meta, text, tokens) == Ok(p.insufficient)
  {
  }

  /**
   * As written, the chunk route fails unless the chunker returns a single
   * chunk: a structured text over the limit with the chunker's wrapped
   * AttributeError, any other chunker failure with its own error, and
   * several chunks with the "no valid chunk analyses" error.
   */
  lemma {:induction false} AsWrittenChunkRouteFails<A>(p: Pipeline<A>, mode: Mode, meta: seq<(string, Value)>, text: string, limit: int)
    requires ValidPipeline(p)
    ensures var cs := ChunkText(p, AsWritten, text, limit);
      var r := ChunkRoute(p, AsWritten, mode, meta, text, limit);
      && (cs.Err? ==> r == Err(cs.error) && cs.error.ContentProcessingError?)
      && (cs.Ok? && |cs.value.0| >= 2 ==> r == Err(ContentProcessingError(NoValidChunks(mode))))
    ensures text != "" && !ChunkBudget(p, limit).Fits(text) && Chunking.HasStructure(p.scan(text)) ==>
      ChunkRoute(p, AsWritten, mode, meta, text, limit) == Err(ContentProcessingError(Chunking.SplitFailure + Chunking.NoneStrip))
  {
    var cs := ChunkText(p, AsWritten, text, limit);
    if cs.Ok? {
      var (chunks, has) := cs.value;
      AsWrittenChunkedAnalysisFails(p, mode, meta, has, chunks);
    }
    if text != "" && !ChunkBudget(p, limit).Fits(text) && Chunking.HasStructure(p.scan(text)) {
      Chunking.StructuredTextAlwaysFails(ChunkBudget(p, limit), text, p.scan(text));
    }
  }

  /**
   * As written, a text over the context limit that the chunker does not
   * return as one chunk always fails with ContentProcessingError: wrapped
   * on the synchronous path, the chunker's error or the "no valid chunk
   * analyses" error itself on the asynchronous one. A structured text is
   * such a text.
   */
  lemma {:induction false} AsWrittenLongTextFails<A>(p: Pipeline<A>, c: Config, mode: Mode, meta: seq<(string, Value)>, text: string, tokens: nat)
    requires ValidPipeline(p)
    requires tokens >= MinAnalysisTokens && tokens > c.maxContextTokens
    ensures var cs := ChunkText(p, AsWritten, text, SafeLimit(c));
      var r := RouteAnalysis(p, c, AsWritten, mode, meta, text, tokens);
      && (cs.Err? || |cs.value.0| >= 2 ==> r.Err? && r.error.ContentProcessingError?)
      && (mode.Async? && cs.Err? ==> r == Err(cs.error))
      && (mode.Async? && cs.Ok? && |cs.value.0| >= 2 ==> r == Err(ContentProcessingError(NoValidChunks(Async))))
    ensures text != "" && !ChunkBudget(p, SafeLimit(c)).Fits(text) && Chunking.HasStructure(p.scan(text)) ==>
      ChunkText(p, AsWritten, text, SafeLimit(c)).Err?
  {
    assert TextRoute(c, tokens) == Chunk(SafeLimit(c));
    AsWrittenChunkRouteFails(p, mode, meta, text, SafeLimit(c));
  }

  /**
   * Corrected, the chunk route returns the merge, in chunk order, of the
   * chunk analyses when every one of them is kept.
   */
  lemma {:induction false} CorrectedChunkRouteMerges<A>(p: Pipeline<A>, mode: Mode, meta: seq<(string, Value)>, text: string, limit: int)
    requires ValidPipeline(p)
    requires var cs := ChunkText(p, Corrected, text, limit);
      && cs.Ok? && |cs.value.0| >= 2
      && (forall i :: 0 <= i < |cs.value.0| ==> Keeps(p, mode, ChunkCall(p, Corrected, mode, meta, cs.value.1, cs.value.0, i)))
    ensures var cs := ChunkText(p, Corrected, text, limit);
      var rs := ChunkResults(p, Corrected, mode, meta, cs.value.1, cs.value.0);
      var kept := Kept(p, mode, rs);
      && |kept| == |cs.value.0|
      && (MergeAll(p.merge, kept[0], kept[1..]).Ok? ==>
            ChunkRoute(p, Corrected, mode, meta, text, limit) == Ok(Some(MergeAll(p.merge, kept[0], kept[1..]).value)))
  {
    var (chunks, has) := ChunkText(p, Corrected, text, limit).value;
    var rs := ChunkResults(p, Corrected, mode, meta, has, chunks);
    assert forall i :: 0 <= i < |rs| ==> Keeps(p, mode, rs[i]);
    KeptAll(p, mode, rs);
    var kept := Kept(p, mode, rs);
    CorrectedMergeKept(p, mode, kept);
    assert AnalyzeInChunks(p, Corrected, mode, meta, has, chunks) == MergeKept(p, Corrected, mode, kept);
  }

  /**
   * Corrected, the same long text is analysed: when every chunk's analysis
   * is kept and the merges succeed, the result is their merge in chunk order.
   */
  lemma {:induction false} CorrectedLongTextMerges<A>(p: Pipeline<A>, c: Config, mode: Mode, meta: seq<(string, Value)>, text: string, tokens: nat)
    requires ValidPipeline(p)
    requires tokens >= MinAnalysisTokens && tokens > c.maxContextTokens
    requires var cs := ChunkText(p, Corrected, text, SafeLimit(c));
      && cs.Ok? && |cs.value.0| >= 2
      && (forall i :: 0 <= i < |cs.value.0| ==> Keeps(p, mode, ChunkCall(p, Corrected, mode, meta, cs.value.1, cs.value.0, i)))
      && var kept := Kept(p, mode, ChunkResults(p, Corrected, mode, meta, cs.value.1, cs.value.0));
         |kept| > 0 && MergeAll(p.merge, kept[0], kept[1..]).Ok?
    ensures var cs := ChunkText(p, Corrected, text, SafeLimit(c));
      var kept := Kept(p, mode, ChunkResults(p, Corrected, mode, meta, cs.value.1, cs.value.0));
      RouteAnalysis(p, c, Corrected, mode, meta, text, tokens) == MergeAll(p.merge, kept[0], kept[1..])
  {
    assert TextRoute(c, tokens) == Chunk(SafeLimit(c));
    CorrectedChunkRouteMerges(p, mode, meta, text, SafeLimit(c));
    var cs := ChunkText(p, Corrected, text, SafeLimit(c));
    var kept := Kept(p, mode, ChunkResults(p, Corrected, mode, meta, cs.value.1, cs.value.0));
    var merged := MergeAll(p.merge, kept[0], kept[1..]).value;
    assert ChunkRoute(p, Corrected, mode, meta, text, SafeLimit(c)) == Ok(Some(merged));
    assert OrInsufficient(p, Ok(Some(merged))) == Ok(merged);
  }

  /** A text over the limit that fits one chunk is sent whole, as the chunk the chunker returned. */
  lemma {:induction false} SingleChunkIsDirect<A>(p: Pipeline<A>, c: Config, wiring: Wiring, mode: Mode, meta: seq<(string, Value)>, text: string, tokens: nat)
    requires ValidPipeline(p)
    requires tokens >= MinAnalysisTokens && tokens > c.maxContextTokens
    requires ChunkText(p, wiring, text, SafeLimit(c)).Ok? && |ChunkText(p, wiring, text, SafeLimit(c)).value.0| == 1
    ensures var r := DirectCall(p, mode, ChunkText(p, wiring, text, SafeLimit(c)).value.0[0]);
      r.Ok? ==> RouteAnalysis(p, c, wiring, mode, meta, text, tokens) == OrInsufficient(p, r)
    ensures mode.Async? ==>
      RouteAnalysis(p, c, wiring, mode, meta, text, tokens) == OrInsufficient(p, DirectCall(p, mode, ChunkText(p, wiring, text, SafeLimit(c)).value.0[0]))
    ensures var chunk := ChunkText(p, wiring, text, SafeLimit(c)).value.0[0];
      var call := p.model(Prompts.AnalysisInstructions(p.wording, false), Prompts.CreateUserPrompt(p.wording, chunk, false).value);
      mode.Async? && call.Err? ==>
        RouteAnalysis(p, c, wiring, mode, meta, text, tokens) == Err(AIAnalysisError(AsyncStructuredFailure + Message(call.error)))
  {
    DirectCallSound(p, mode, ChunkText(p, wiring, text, SafeLimit(c)).value.0[0]);
  }

  /**
   * Between 300 tokens and max_context_tokens the text is sent whole: the
   * model's answer is the result, and its failure is an AIAnalysisError
   * under the prefix of the variant that made the call.
   */
  lemma {:induction false} DirectRouteFailure<A>(p: Pipeline<A>, c: Config, wiring: Wiring, mode: Mode, meta: seq<(string, Value)>, text: string, tokens: nat)
    requires ValidPipeline(p)
    requires MinAnalysisTokens <= tokens <= c.maxContextTokens
    ensures var prompt := Prompts.CreateUserPrompt(p.wording, text, false);
      && prompt.Ok?
      && var call := p.model(Prompts.AnalysisInstructions(p.wording, false), prompt.value);
      && (call.Err? ==> RouteAnalysis(p, c, wiring, mode, meta, text, tokens) == Err(AIAnalysisError(FailurePrefix(mode) + Message(call.error))))
      && (call.Ok? ==> RouteAnalysis(p, c, wiring, mode, meta, text, tokens) == OrInsufficient(p, call))
  {
    DirectCallSound(p, mode, text);
  }

  /** A PDF the client can read never reaches the text route, and the asynchronous path turns analysis failures into the insufficient analysis. */
  lemma {:induction false} PdfPath<A>(p: Pipeline<A>, c: Config, wiring: Wiring, mode: Mode, rest: seq<Byte>, description: Value, meta: seq<(string, Value)>)
    requires ValidPipeline(p) && p.vision
    ensures var content := PyBytes(PdfSignature + rest);
      var call := p.pdfModel(PdfSignature + rest, PdfPrompt(p.wording));
      var r := ProcessAnalysis(p, c, wiring, mode, content, description, meta);
      && (call.Ok? ==> r == OrInsufficient(p, call))
      && (call.Err? && mode.Sync? ==> r.Err? && r.error.AIAnalysisError?)
      && (call.Err? && mode.Async? ==> r == if IsAIAnalysisError(call.error) || call.error.UnicodeError? then Ok(p.insufficient) else Err(call.error))
  {
    Preprocess.IsBinaryPdfCases(rest, "");
  }

  // ---------------------------------------------------------------------
  // _analyze_text_content_async
  // ---------------------------------------------------------------------

  /**
   * _analyze_text_content_async: over max_context_tokens is an error, over
   * the safe limit is chunked, otherwise the text is sent whole; a missing
   * result becomes the insufficient analysis.
   */
  function AnalyzeTextContent<A>(p: Pipeline<A>, c: Config, wiring: Wiring, meta: seq<(string, Value)>, content: string)
    : Result<A, Error>
    requires ValidPipeline(p)
  {
    var tokens := CountTokens(p.counter, content);
    if tokens > c.maxContextTokens then Err(TokenLimitError("Token count exceeds limit of " + Text.IntToString(c.maxContextTokens)))
    else if tokens > SafeLimit(c) then OrInsufficient(p, ChunkRoute(p, wiring, Async, meta, content, SafeLimit(c)))
    else OrInsufficient(p, DirectCall(p, Async, content))
  }

  /** TokenLimitError exactly above max_context_tokens; chunking only for counts in (safe limit, max_context_tokens]. */
  lemma {:induction false} AnalyzeTextContentRoutes<A>(p: Pipeline<A>, c: Config, wiring: Wiring, meta: seq<(string, Value)>, content: string)
    requires ValidPipeline(p)
    ensures var tokens := CountTokens(p.counter, content);
      && (AnalyzeTextContent(p, c, wiring, meta, content).Err? && AnalyzeTextContent(p, c, wiring, meta, content).error.TokenLimitError?
          <== tokens > c.maxContextTokens)
      && (tokens <= SafeLimit(c) && tokens <= c.maxContextTokens ==> AnalyzeTextContent(p, c, wiring, meta, content) == OrInsufficient(p, DirectCall(p, Async, content)))
      && (SafeLimit(c) < tokens <= c.maxContextTokens ==>
            AnalyzeTextContent(p, c, wiring, meta, content) == OrInsufficient(p, ChunkRoute(p, wiring, Async, meta, content, SafeLimit(c))))
    ensures var tokens := CountTokens(p.counter, content);
      var call := p.model(Prompts.AnalysisInstructions(p.wording, false), Prompts.CreateUserPrompt(p.wording, content, false).value);
      tokens <= SafeLimit(c) && tokens <= c.maxContextTokens && call.Err? ==>
        AnalyzeTextContent(p, c, wiring, meta, content) == Err(AIAnalysisError(AsyncStructuredFailure + Message(call.error)))
  {
    DirectCallSound(p, Async, content);
  }

  // ---------------------------------------------------------------------
  // analyze_legislation's synchronous wrapper
  // ---------------------------------------------------------------------

  /** analyze_legislation: an AIAnalysisError passes through, every other failure is wrapped as one. */
  function WrapAnalysis<A>(legislationId: int, r: Result<A, Error>): (w: Result<A, Error>)
    ensures r.Ok? ==> w == r
    ensures r.Err? ==> w.Err? && IsAIAnalysisError(w.error)
    ensures r.Err? && IsAIAnalysisError(r.error) ==> w == r
    ensures r.Err? && !IsAIAnalysisError(r.error) ==> w.error.AIAnalysisError?
  {
    match r
    case Ok(_) => r
    case Err(e) =>
      if IsAIAnalysisError(e) then r
      else Err(AIAnalysisError("Failed to analyze legislation ID=" + Text.IntToString(legislationId) + ": " + Message(e)))
  }

  /** Wrapping twice is wrapping once. */
  lemma {:induction false} WrapAnalysisIdempotent<A>(legislationId: int, r: Result<A, Error>)
    ensures WrapAnalysis(legislationId, WrapAnalysis(legislationId, r)) == WrapAnalysis(legislationId, r)
  {
  }

  // ---------------------------------------------------------------------
  // analyze_bill and analyze_bill_async
  // ---------------------------------------------------------------------

  /** The context lines of analyze_bill: only the fields given (and non-empty) appear, title first. */
  function ContextString(title: Option<string>, state: Option<string>): string
  {
    (if title.Some? && title.value != [] then "Title: " + title.value + "\n" else "")
    + (if state.Some? && state.value != [] then "State: " + state.value + "\n" else "")
  }

  lemma {:induction false} ContextStringParts(title: Option<string>, state: Option<string>)
    ensures ContextString(title, state) == [] <==> (title.None? || title.value == []) && (state.None? || state.value == [])
    ensures title.Some? && title.value != [] ==> "Title: " + title.value + "\n" <= ContextString(title, state)
    ensures state.Some? && state.value != [] ==>
              var s := ContextString(title, state);
              var line := "State: " + state.value + "\n";
              |line| <= |s| && s[|s| - |line|..] == line
  {
  }

  /** The exceptions the bill helpers turn into "no analysis": the analysis errors and ValueError (UnicodeError included), TypeError, KeyError, AttributeError. */
  predicate Caught(e: Error)
  {
    IsAIAnalysisError(e) || IsValueError(e) || e.TypeError? || e.KeyError? || e.AttributeError?
  }

  /** A caught failure becomes None; anything else propagates. */
  function CatchAll<A>(r: Result<Option<A>, Error>): (c: Result<Option<A>, Error>)
    ensures c.Err? ==> r.Err? && !Caught(r.error)
    ensures r.Ok? ==> c == r
  {
    match r
    case Err(e) => if Caught(e) then Ok(None) else r
    case Ok(_) => r
  }

  /** The stand-in legislation record analyze_bill builds for the chunk path. */
  function MockMetadata(title: Option<string>, state: Option<string>, text: string): seq<(string, Value)>
  {
    var contextGiven := (title.Some? && title.value != []) || (state.Some? && state.value != []);
    var mockTitle := if !contextGiven then PyStr("Untitled Bill")
                     else if title.Some? && title.value != [] then PyStr(title.value) else PyNone;
    [("title", mockTitle), ("bill_number", PyStr("N/A")),
     ("description", PyStr(text[..if |text| < 200 then |text| else 200] + "..."))]
  }

  /**
   * _analyze_text_bill (Sync) and _analyze_text_bill_async (Async): above
   * the safe limit the chunks always go through analyze_in_chunks (even a
   * single one), otherwise the text is sent whole behind its context lines.
   */
  function TextBill<A>(p: Pipeline<A>, c: Config, wiring: Wiring, mode: Mode, title: Option<string>, state: Option<string>, text: string)
    : Result<Option<A>, Error>
    requires ValidPipeline(p)
  {
    var ctx := ContextString(title, state);
    if CountTokens(p.counter, text) > SafeLimit(c) then
      match ChunkText(p, wiring, text, SafeLimit(c))
      case Err(e) => CatchAll(Err(e))
      case Ok((chunks, has)) =>
        match AnalyzeInChunks(p, wiring, mode, MockMetadata(title, state, text), has, chunks)
        case Err(e) => CatchAll(Err(e))
        case Ok(a) => Ok(Some(a))
    else CatchAll(DirectCall(p, mode, if ctx != [] then ctx + "\n" + text else text))
  }

  /** Every failure on the text path is one the helper catches: it never raises. */
  lemma {:induction false} TextBillNeverFails<A>(p: Pipeline<A>, c: Config, wiring: Wiring, mode: Mode, title: Option<string>, state: Option<string>, text: string)
    requires ValidPipeline(p)
    ensures TextBill(p, c, wiring, mode, title, state, text).Ok?
  {
    if CountTokens(p.counter, text) > SafeLimit(c) {
      var cs := ChunkText(p, wiring, text, SafeLimit(c));
      if cs.Ok? {
        var r := AnalyzeInChunks(p, wiring, mode, MockMetadata(title, state, text), cs.value.1, cs.value.0);
        if r.Err? {
          assert Caught(r.error);
        }
      } else {
        assert Caught(cs.error);
      }
    } else {
      var ctx := ContextString(title, state);
      var d := DirectCall(p, mode, if ctx != [] then ctx + "\n" + text else text);
      if d.Err? {
        assert Caught(d.error);
      }
    }
  }

  const PdfInstruction := "\nAnalyze this legislation document and provide a structured analysis."

  /** _analyze_binary_bill: the document model with the context lines and a fixed instruction. */
  function BinaryBill<A>(p: Pipeline<A>, title: Option<string>, state: Option<string>, pdf: seq<Byte>): Result<Option<A>, Error>
  {
    CatchAll(p.pdfModel(pdf, ContextString(title, state) + PdfInstruction))
  }

  const ShortBill := "Bill text is too short or empty"

  /**
   * analyze_bill (Sync) and analyze_bill_async (Async) on a str or bytes
   * bill text: fewer than 10 characters or bytes is a ValueError; a str is
   * preprocessed and over max_context_tokens is a TokenLimitError; PDF
   * bytes go to the document model, other bytes are decoded and analysed
   * as text; no analysis gives the insufficient-text analysis.
   */
  function AnalyzeBill<A>(p: Pipeline<A>, c: Config, wiring: Wiring, mode: Mode, bill: Value, title: Option<string>, state: Option<string>)
    : Result<A, Error>
    requires ValidPipeline(p)
    requires bill.PyStr? || bill.PyBytes?
  {
    var size := if bill.PyStr? then |bill.s| else |bill.bytes|;
    if size < 10 then Err(ValueError(ShortBill))
    else if bill.PyBytes? then
      if Preprocess.IsBinaryPdf(bill) then OrInsufficient(p, BinaryBill(p, title, state, bill.bytes))
      else OrInsufficient(p, TextBill(p, c, wiring, mode, title, state, Sanitize.EnsurePlainString(bill)))
    else
      var (text, tokens) := BillText(p, bill.s);
      GuardedTextBill(p, c, wiring, mode, title, state, text, tokens)
  }

  /** The preprocessed form of a str bill and its token count. */
  function BillText<A>(p: Pipeline<A>, bill: string): (string, nat)
  {
    Preprocess.PreprocessText(p.counter, p.soup, PyStr(Sanitize.EnsurePlainString(PyStr(bill))))
  }

  /** A preprocessed str bill: over max_context_tokens is a TokenLimitError, otherwise the text path. */
  function GuardedTextBill<A>(p: Pipeline<A>, c: Config, wiring: Wiring, mode: Mode, title: Option<string>, state: Option<string>,
                              text: string, tokens: nat)
    : Result<A, Error>
    requires ValidPipeline(p)
  {
    if tokens > c.maxContextTokens then
      Err(TokenLimitError("Bill text exceeds token limit of " + Text.IntToString(c.maxContextTokens)))
    else OrInsufficient(p, TextBill(p, c, wiring, mode, title, state, text))
  }

  /** A str bill of fewer than 10 characters is refused; a longer one is preprocessed and guarded. */
  lemma {:induction false} AnalyzeBillStr<A>(p: Pipeline<A>, c: Config, wiring: Wiring, mode: Mode, bill: string, title: Option<string>, state: Option<string>)
    requires ValidPipeline(p)
    ensures |bill| < 10 ==> AnalyzeBill(p, c, wiring, mode, PyStr(bill), title, state) == Err(ValueError(ShortBill))
    ensures |bill| >= 10 ==>
      var (text, tokens) := BillText(p, bill);
      && tokens == CountTokens(p.counter, text)
      && AnalyzeBill(p, c, wiring, mode, PyStr(bill), title, state) == GuardedTextBill(p, c, wiring, mode, title, state, text, tokens)
  {
    Preprocess.PreprocessTextSound(p.counter, p.soup, PyStr(Sanitize.EnsurePlainString(PyStr(bill))));
  }

  /**
   * The routing of a preprocessed str bill: over max_context_tokens a
   * TokenLimitError; otherwise the analysis never fails, it is chunked only
   * for counts in (safe limit, max_context_tokens], and below that the text
   * goes whole behind its context lines.
   */
  lemma {:induction false} GuardedTextBillRoutes<A>(p: Pipeline<A>, c: Config, wiring: Wiring, mode: Mode, title: Option<string>, state: Option<string>, text: string)
    requires ValidPipeline(p)
    ensures var tokens := CountTokens(p.counter, text);
      var r := GuardedTextBill(p, c, wiring, mode, title, state, text, tokens);
      && (tokens > c.maxContextTokens ==> r.Err? && r.error.TokenLimitError?)
      && (tokens <= c.maxContextTokens ==> r.Ok?)
      && (tokens <= SafeLimit(c) && tokens <= c.maxContextTokens ==>
            var ctx := ContextString(title, state);
            r == OrInsufficient(p, CatchAll(DirectCall(p, mode, if ctx != [] then ctx + "\n" + text else text))))
  {
    TextBillNeverFails(p, c, wiring, mode, title, state, text);
  }

  /**
   * As written, a str bill counted in (safe limit, max_context_tokens] gets
   * the insufficient-text analysis: either the chunker fails or every chunk
   * call does, the error is caught, and None falls back to the
   * insufficient analysis.
   */
  lemma {:induction false} AsWrittenLongBillIsInsufficient<A>(p: Pipeline<A>, c: Config, mode: Mode, title: Option<string>, state: Option<string>, text: string)
    requires ValidPipeline(p)
    requires SafeLimit(c) < CountTokens(p.counter, text) <= c.maxContextTokens
    ensures GuardedTextBill(p, c, AsWritten, mode, title, state, text, CountTokens(p.counter, text)) == Ok(p.insufficient)
  {
    AsWrittenLongTextBillIsNone(p, c, mode, title, state, text);
  }

  /** The text path as written: the chunker's or the chunk analysis's failure is caught and no analysis comes back. */
  lemma {:induction false} AsWrittenLongTextBillIsNone<A>(p: Pipeline<A>, c: Config, mode: Mode, title: Option<string>, state: Option<string>, text: string)
    requires ValidPipeline(p)
    requires SafeLimit(c) < CountTokens(p.counter, text)
    ensures TextBill(p, c, AsWritten, mode, title, state, text) == Ok(None)
  {
    var cs := ChunkText(p, AsWritten, text, SafeLimit(c));
    if cs.Ok? {
      var (chunks, has) := cs.value;
      var err := ContentProcessingError(NoValidChunks(mode));
      AsWrittenChunkedAnalysisFails(p, mode, MockMetadata(title, state, text), has, chunks);
      assert Caught(err);
    } else {
      assert Caught(cs.error);
    }
  }

  /** PDF bytes skip the token guard and go to the document model with the context prompt. */
  lemma {:induction false} AnalyzeBillPdf<A>(p: Pipeline<A>, c: Config, wiring: Wiring, mode: Mode, rest: seq<Byte>, title: Option<string>, state: Option<string>)
    requires ValidPipeline(p)
    requires |rest| >= 5
    ensures var r := p.pdfModel(PdfSignature + rest, ContextString(title, state) + PdfInstruction);
      AnalyzeBill(p, c, wiring, mode, PyBytes(PdfSignature + rest), title, state) == OrInsufficient(p, CatchAll(r))
    ensures var r := p.pdfModel(PdfSignature + rest, ContextString(title, state) + PdfInstruction);
      r.Err? && Caught(r.error) ==> AnalyzeBill(p, c, wiring, mode, PyBytes(PdfSignature + rest), title, state) == Ok(p.insufficient)
    ensures var r := p.pdfModel(PdfSignature + rest, ContextString(title, state) + PdfInstruction);
      r.Err? && r.error.UnicodeError? ==> AnalyzeBill(p, c, wiring, mode, PyBytes(PdfSignature + rest), title, state) == Ok(p.insufficient)
  {
    Preprocess.IsBinaryPdfCases(rest, "");
  }

  // ---------------------------------------------------------------------
  // Content extraction and analyze_legislation
  // ---------------------------------------------------------------------

  /** The fields of a LegislationText the extraction reads. */
  datatype TextRecord = TextRecord(textContent: Value, isBinary: bool, contentType: Option<string>)

  /** The fields of a Legislation the analysis reads: its description and its latest text record. */
  datatype Legislation = Legislation(description: Value, latestText: Option<TextRecord>)

  /**
   * extract_content_from_legislation and _extract_content: a binary PDF
   * record is sent as bytes when the client can read PDFs (a str is encoded
   * as UTF-8), other binary records and records of another type give the
   * description, a text record gives its text, and no record gives the
   * description.
   */
  function ExtractContent(leg: Legislation, vision: bool): (r: (Value, bool))
    ensures r.1 ==> r.0.PyBytes?
    ensures !r.1 ==> r.0.PyStr? && Sanitize.NoControl(r.0.s)
  {
    match leg.latestText
    case None => (PyStr(Sanitize.EnsurePlainString(leg.description)), false)
    case Some(rec) =>
      if rec.textContent.PyNone? then (PyStr(Sanitize.EnsurePlainString(leg.description)), false)
      else if rec.isBinary && rec.contentType == Some("application/pdf") && vision then
        if rec.textContent.PyBytes? then (rec.textContent, true)
        else if rec.textContent.PyStr? then (PyBytes(Utf8.Encode(rec.textContent.s)), true)
        else (PyStr(Sanitize.EnsurePlainString(leg.description)), false)
      else if rec.isBinary then (PyStr(Sanitize.EnsurePlainString(leg.description)), false)
      else (PyStr(Sanitize.EnsurePlainString(rec.textContent)), false)
  }

  /** Binary content is returned only for a binary PDF record the client can read, and PDF bytes unchanged. */
  lemma {:induction false} ExtractContentBinary(leg: Legislation, vision: bool)
    ensures ExtractContent(leg, vision).1 <==>
      && leg.latestText.Some? && vision
      && var rec := leg.latestText.value;
         rec.isBinary && rec.contentType == Some("application/pdf") && (rec.textContent.PyBytes? || rec.textContent.PyStr?)
    ensures leg.latestText.Some? && leg.latestText.value.textContent.PyBytes? && ExtractContent(leg, vision).1 ==>
      ExtractContent(leg, vision).0 == leg.latestText.value.textContent
    ensures leg.latestText.None? ==> ExtractContent(leg, vision) == (PyStr(Sanitize.EnsurePlainString(leg.description)), false)
  {
  }

  /**
   * _store_analysis_results after a successful analysis: the store either
   * fails (the error is re-raised and the cache untouched) or its record is
   * cached under the id with the current time.
   */
  method StoreResults<A, R>(cache: AnalysisStore.AnalysisCache<R>, id: int, now: int, analysis: A, store: (int, A) -> Result<R, Error>)
    returns (r: Result<R, Error>)
    modifies cache
    ensures r == store(id, analysis)
    ensures r.Ok? ==> cache.entries == old(cache.entries)[id := (now, r.value)]
    ensures r.Err? ==> cache.entries == old(cache.entries)
  {
    r := store(id, analysis);
    if r.Ok? {
      cache.Update(id, now, r.value);
    }
  }

  /**
   * analyze_legislation_async: a fresh cache entry is served as it is; a
   * missing legislation is a ValueError; otherwise the content is
   * extracted, analysed on the asynchronous path and stored, and the stored
   * record cached.
   */
  method AnalyzeLegislation<A, R>(cache: AnalysisStore.AnalysisCache<R>, p: Pipeline<A>, c: Config, wiring: Wiring, id: int, now: int,
                                  find: int -> Option<Legislation>, meta: Legislation -> seq<(string, Value)>,
                                  store: (int, A) -> Result<R, Error>)
    returns (r: Result<R, Error>)
    requires ValidPipeline(p)
    modifies cache
    ensures var hit := AnalysisStore.Lookup(old(cache.entries), id, now, cache.ttlMinutes);
      && (hit.Some? ==> r == Ok(hit.value) && cache.entries == old(cache.entries))
      && (hit.None? && find(id).None? ==> r.Err? && r.error.ValueError?
                                          && cache.entries == AnalysisStore.AfterLookup(old(cache.entries), id, now, cache.ttlMinutes))
      && (hit.None? && find(id).Some? ==>
            var leg := find(id).value;
            var (content, _) := ExtractContent(leg, p.vision);
            var analysis := ProcessAnalysis(p, c, wiring, Async, content, leg.description, meta(leg));
            && (analysis.Err? ==> r == Err(analysis.error))
            && (analysis.Ok? ==> r == store(id, analysis.value))
            && (r.Ok? ==> cache.entries == AnalysisStore.AfterLookup(old(cache.entries), id, now, cache.ttlMinutes)[id := (now, r.value)]))
  {
    var cached := cache.Get(id, now);
    if cached.Some? {
      return Ok(cached.value);
    }
    var found := find(id);
    if found.None? {
      return Err(ValueError("Legislation with ID=" + Text.IntToString(id) + " not found in DB."));
    }
    var leg := found.value;
    var (content, _) := ExtractContent(leg, p.vision);
    var analysis := ProcessAnalysis(p, c, wiring, Async, content, leg.description, meta(leg));
    if analysis.Err? {
      return Err(analysis.error);
    }
    r := StoreResults(cache, id, now, analysis.value, store);
  }

  // ---------------------------------------------------------------------
  // batch_analyze_async
  // ---------------------------------------------------------------------

  /** One entry of the "failed" list: an error dict built from an exception, or an analysis result that carries an "error" key. */
  datatype Failure<A> = Failure(legislationId: int, error: string) | ErrorResult(result: A)

  /** What each gathered task produced: analyze_with_semaphore turns AIAnalysisError, ValueError and TypeError into an error result. */
  function TaskOutcome<A>(id: int, r: Result<A, Error>): Result<A, Failure<A>>
  {
    match r
    case Ok(a) => Ok(a)
    case Err(e) => Err(Failure(id, Message(e)))
  }

  /** The partition of results in index order: failures (raised or error results) and successes. */
  function Partition<A>(ids: seq<int>, outcomes: seq<Result<A, Error>>, hasError: A -> bool): (seq<(int, A)>, seq<Failure<A>>)
    requires |outcomes| == |ids|
  {
    if ids == [] then ([], [])
    else
      var n := |ids| - 1;
      var (ok, failed) := Partition(ids[..n], outcomes[..n], hasError);
      match TaskOutcome(ids[n], outcomes[n])
      case Err(f) => (ok, failed + [f])
      case Ok(a) => if hasError(a) then (ok, failed + [ErrorResult(a)]) else (ok + [(ids[n], a)], failed)
  }

  /** Count of the asyncio tasks that succeeded with a result free of an "error" key. */
  function SuccessCount<A>(outcomes: seq<Result<A, Error>>, hasError: A -> bool): nat
  {
    if outcomes == [] then 0
    else
      var n := |outcomes| - 1;
      SuccessCount(outcomes[..n], hasError) + if outcomes[n].Ok? && !hasError(outcomes[n].value) then 1 else 0
  }

  /** Every id lands in exactly one list, successes are the asyncio tasks that succeeded cleanly, and successes keep their ids in input order. */
  lemma {:induction false} PartitionCounts<A>(ids: seq<int>, outcomes: seq<Result<A, Error>>, hasError: A -> bool)
    requires |outcomes| == |ids|
    ensures var (ok, failed) := Partition(ids, outcomes, hasError);
      && |ok| + |failed| == |ids|
      && |ok| == SuccessCount(outcomes, hasError)
      && forall k :: 0 <= k < |ok| ==> ok[k].0 in ids
    decreases |ids|
  {
    if ids != [] {
      var n := |ids| - 1;
      PartitionCounts(ids[..n], outcomes[..n], hasError);
      var (ok, _) := Partition(ids[..n], outcomes[..n], hasError);
      assert forall k :: 0 <= k < |ok| ==> ok[k].0 in ids[..n];
    }
  }

  /** The statistics block of a batch. */
  datatype BatchStats = BatchStats(total: nat, successCount: nat, failureCount: nat, durationSeconds: real, avgTimePerItem: real)

  /** batch_analyze_async's result processing; duration is the clock's elapsed time. */
  method BatchResults<A>(ids: seq<int>, outcomes: seq<Result<A, Error>>, hasError: A -> bool, duration: real)
    returns (successful: seq<(int, A)>, failed: seq<Failure<A>>, stats: BatchStats)
    requires |outcomes| == |ids|
    ensures (successful, failed) == Partition(ids, outcomes, hasError)
    ensures stats.total == |ids| && stats.successCount == |successful| && stats.failureCount == |failed|
    ensures stats.successCount + stats.failureCount == stats.total
    ensures stats.successCount == SuccessCount(outcomes, hasError)
    ensures ids == [] ==> stats.avgTimePerItem == 0.0
    ensures ids != [] ==> stats.avgTimePerItem == duration / (|ids| as real)
  {
    successful, failed := [], [];
    var i := 0;
    while i < |ids|
      invariant 0 <= i <= |ids|
      invariant (successful, failed) == Partition(ids[..i], outcomes[..i], hasError)
    {
      assert ids[..i + 1][..i] == ids[..i];
      assert outcomes[..i + 1][..i] == outcomes[..i];
      match TaskOutcome(ids[i], outcomes[i]) {
        case Err(f) => failed := failed + [f];
        case Ok(a) =>
          if hasError(a) {
            failed := failed + [ErrorResult(a)];
          } else {
            successful := successful + [(ids[i], a)];
          }
      }
      i := i + 1;
    }
    assert ids[..i] == ids && outcomes[..i] == outcomes;
    PartitionCounts(ids, outcomes, hasError);
    var avg := if ids == [] then 0.0 else duration / (|ids| as real);
    stats := BatchStats(|ids|, |successful|, |failed|, duration, avg);
  }
}
