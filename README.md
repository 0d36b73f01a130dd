# PolicyPulse core, modelled in Dafny

PolicyPulse tracks Texas and federal legislation. It pulls bills from LegiScan and Congress.gov and stores them in PostgreSQL. A language model analyses each bill for its impact on public health and local government, and the results are served through a FastAPI back end. This project models the deterministic logic of that system and proves properties of it. The language model, the HTTP APIs, the database, the PDF extractors, tiktoken and the clock appear only as oracle parameters. Time is a whole number of seconds.

The modules in `src/` follow the repository's structure:

- **Token budgeting and chunking.**
  - `TokenCount`: `TokenCounter` and its `len // 4` fallback.
  - `TextSplit` and `Chunking`: `TextChunker`, which splits by structure, then paragraphs, then sentences, then fixed-width slices.
  - `WordSplit`: the word-based `_split_text` shared by `v2/ai_analysis.py` and `v2/ai_analysis_next.py`.
- **The analysis pipeline.**
  - `Prompts`: prompt construction.
  - `Merge`: the `merge_analyses` helpers.
  - `Preprocess` and `Sanitize`: text preprocessing and control-character removal.
  - `PdfHandler` and `Base64`: PDF detection, the base64 data URL of RFC 4648 section 4 and RFC 2397 section 3, and the vision message.
  - `Retry`: the retry classifier and the bounded retry loop.
  - `Routing`: the routing in `process_analysis`, `_process_analysis_async`, `analyze_bill` and `analyze_legislation`.
  - `Records`: insufficient-text results.
  - `AnalysisStore`: the per-legislation TTL cache, versioning and impact ratings.
  - `Config`: the analysis configuration validators.
- **Ingestion.**
  - `LegiscanModels`: status mapping, dates, content classification and attribute preparation.
  - `Relevance`: keyword relevance scoring.
  - `LegiscanDb`: saving bills, text attributes and amendments.
  - `Sync`: the LegiScan sync and the scheduler's sync manager.
  - `Amendments`: amendment tracking.
  - `Seeding`: historical seeding.
  - `Congress` and `CongressNew`: the two Congress.gov clients.
- **Data stores and the API.**
  - `BaseStore`, `LegislationStore` and `AnalyticsStore`: validators, pagination and the activity window.
  - `ApiUtils`: pagination headers, enum parameters and filters.
  - `RateLimiting` and `Caching`: the rate limiters and caches of the middleware.
  - `ApiModels`: the pydantic validators and `normalize_data`.
  - `ContentModels`: `set_content_field`, `FlexibleContentType`, the `@validates` rules, `latest_text` and `latest_analysis`.
- **Shared helpers.** `Text`, `PyValue` (Python values and dicts as entry lists), `PyMath`, `Bytes`, `Utf8`, `Errors` and `Wrappers`.

Code that changes state step by step is written imperatively. Classes whose methods update their fields keep those fields, and each loop is a method proved against a specification function. Pure logic is written as functions and lemmas.

Where the design description and the code differ, the model follows the code:

- The analysis cache is a plain dict keyed by legislation id with a TTL. There is no content fingerprint and no single-flight computation.
- Chunks do not concatenate back to the text exactly. Paragraphs and sentences are stripped and rejoined with "\n\n" or " ", so what is proved is that only whitespace is lost. No chunk carries a hard-split flag.
- Merged summaries are concatenated and cut at 2000 characters; there is no synthesizing pass.
- Concurrent fan-out (`asyncio.gather`) is a sequential loop that keeps index order.

## Model

| member | source | states |
|---|---|---|
| Bytes.DetectContentType | app/legiscan/models.py:126-142 | the media type is application/pdf, application/msword or application/zip exactly when the bytes start with that signature, and application/octet-stream exactly when they start with none of them |
| Bytes.Latin1RoundTrip | app/models/legislation_models.py:226 | latin-1 decoding and encoding are inverse on bytes |
| Sanitize.RemoveControlDeletesOnly | app/legiscan/utils.py:38 | the control-character substitution deletes exactly the characters of the control class and keeps every other character in order |
| Sanitize.RemoveControlNoop | app/legiscan/utils.py:38 | text without control characters passes through unchanged |
| Sanitize.RemoveControlIdempotent | app/legiscan/utils.py:38 | removing control characters twice is the same as once |
| Sanitize.SanitizeText | app/legiscan/utils.py:12-38 | None gives "", bytes are decoded as UTF-8 with replacement, other values go through str(), and the result holds no control character |
| Sanitize.SanitizeIdempotent | app/legiscan/utils.py:12-38 | sanitizing already sanitized text changes nothing |
| Sanitize.SanitizeEncodedText | app/legiscan/utils.py:27-29 | bytes that are the UTF-8 encoding of a text sanitize the same as that text |
| Sanitize.DropControlRun | app/legiscan/utils.py:38 | a run of control characters between two clean texts disappears and joins them |
| Sanitize.SanitizeNulTestCase | scripts/test_sanitize_text.py:32-34 | the NUL test input sanitizes to the expected text |
| Sanitize.SanitizeControlTestCase | scripts/test_sanitize_text.py:40-42 | the other-control-characters test input sanitizes to the expected text |
| Sanitize.EnsurePlainString | app/ai_analysis/text_preprocessing.py:35-67 | ensure_plain_string gives the same text as sanitize_text for every input |
| Utf8.DecodeEncode | app/legiscan/utils.py:27-29 | decoding with replacement what was UTF-8 encoded gives the text back |
| Utf8.DecodeExactlyEncodings | app/ai_analysis/pdf_handler.py:189 | strict UTF-8 decoding succeeds exactly on encodings and gives the encoded text |
| Utf8.DecodeIgnoreEncode | app/legiscan/models.py:115 | decoding with errors="ignore" drops nothing from a well-formed UTF-8 encoding |
| Base64.EncodeAlphabet | app/ai_analysis/pdf_handler.py:41 | every character of b64encode's output is in the base64 alphabet or is '=' |
| Base64.DecodeEncode | app/ai_analysis/pdf_handler.py:41 | decoding the base64 encoding of any bytes gives those bytes back (section 4 of RFC 4648) |
| Base64.SkipsForeign | app/ai_analysis/pdf_handler.py:41 | characters outside the alphabet are skipped by the lenient decoder |
| TokenCount.EncodingFor | app/ai_analysis/utils.py:307-332 | every model name gets cl100k_base, and a warning is logged exactly when the name starts with none of "gpt-4", "gpt-3.5" and "o" |
| TokenCount.ApproxTokens | app/ai_analysis/utils.py:354-364 | the estimate is the floor of a quarter of the length |
| TokenCount.CountTokens | app/ai_analysis/utils.py:334-352 | the empty text counts 0 tokens, and without an encoder the count is the length floor-divided by 4 |
| TokenCount.ApproxTokensSuperadditive | app/ai_analysis/utils.py:354-364 | the estimate of a concatenation is at least the sum of the parts' estimates |
| TextSplit.SplitParagraphsContent | app/ai_analysis/chunking.py:165 | splitting at blank lines loses only whitespace: the pieces hold the text's non-space characters in order |
| TextSplit.SplitSentencesContent | app/ai_analysis/chunking.py:218-219 | splitting at sentence breaks drops only the whitespace characters it splits at |
| TextSplit.Slices | app/ai_analysis/chunking.py:286-289 | the fixed-width slices are non-empty, at most the width long, and concatenate back to the input |
| TextSplit.SlicesFrom | app/ai_analysis/chunking.py:286-289 | the slice list is the slice at the current offset followed by the slices from its end |
| Chunking.SegmentsConcat | app/ai_analysis/chunking.py:126 | cutting the text at the split points of the lookahead split gives pieces that concatenate back to the text |
| Chunking.NonBlankContent | app/ai_analysis/chunking.py:129 | dropping the blank parts loses no non-space content |
| Chunking.StructureFromConcat | app/ai_analysis/chunking.py:131-152 | (the loop both structure splits share) the greedy structure loop neither drops, duplicates nor reorders text: the chunks concatenate to the emitted chunks, the open chunk and the remaining parts |
| Chunking.StructureFromBudget | app/ai_analysis/chunking.py:134-150 | (the loop both structure splits share) every emitted chunk is non-empty and either fits the budget or is a single oversized part |
| Chunking.StructureSplitContent | app/ai_analysis/chunking.py:109-152 | corrected: the structure split, cutting at the split points, keeps all of the text's non-space content in order |
| Chunking.StructureSplitBudget | app/ai_analysis/chunking.py:109-152 | corrected: each chunk of the structure split is non-empty and fits the budget or is one section |
| Chunking.LongSentenceSplit | app/ai_analysis/chunking.py:260-289 | a zero-token sentence fails as the int division does, with ZeroDivisionError("division by zero"); when the split succeeds and the width rule gives no negative width, the slices of the long sentence concatenate back to the sentence |
| Chunking.AddSentenceContent | app/ai_analysis/chunking.py:291-315 | adding a sentence places its content after the open chunk's content |
| Chunking.LongSentenceContent | app/ai_analysis/chunking.py:273-289 | with no negative width, emitting the open chunk and then the sentence's slices places the sentence's content after the open chunk's |
| Chunking.SentenceFromContent | app/ai_analysis/chunking.py:223-258 | with no negative width, a successful sentence loop keeps all non-space content, in order |
| Chunking.SentenceFromBudget | app/ai_analysis/chunking.py:223-258 | every chunk of the sentence loop is non-empty and fits the budget or is one slice of a single oversized sentence |
| Chunking.SentenceSplitContent | app/ai_analysis/chunking.py:205-221 | with no negative width, an oversized paragraph split by sentences keeps its content |
| Chunking.ParagraphFromContent | app/ai_analysis/chunking.py:170-201 | with no negative width, a successful paragraph loop keeps all non-space content, in order, including paragraphs split by sentences |
| Chunking.OversizedParagraphContent | app/ai_analysis/chunking.py:184-197 | with no negative width, a paragraph that does not fit beside the open chunk keeps its content whether it is emitted whole or split by sentences |
| Chunking.ParagraphFromBudget | app/ai_analysis/chunking.py:170-201 | every chunk of the paragraph loop is non-empty and fits the budget or is a single paragraph or one sentence slice |
| Chunking.ParagraphSplitContent | app/ai_analysis/chunking.py:154-203 | with no negative width, a successful paragraph split keeps all of the text's non-space content, in order |
| Chunking.ParagraphSplitBudget | app/ai_analysis/chunking.py:154-203 | each chunk of the paragraph split is non-empty and fits the budget or is one unit emitted whole |
| Chunking.BasicSplit | app/ai_analysis/chunking.py:317-348 | when the fallback succeeds and the width rule gives no negative width, its chunks concatenate back to the text |
| Chunking.StructuredTextAlwaysFails | app/ai_analysis/chunking.py:123-129 | as written, every over-budget structured text makes chunk_text fail with ContentProcessingError("Error splitting text into chunks: 'NoneType' object has no attribute 'strip'") |
| Chunking.StructuredTextFailsExample | app/ai_analysis/chunking.py:123-129 | a text with four "Section" headers over the budget fails as written |
| Chunking.Chunked | app/ai_analysis/chunking.py:29-107 | corrected (structure split at the section marks): the empty text gives ([""], False); a text within budget gives ([text], False); any other success has at least one chunk and reports has_structure; every failure is a ContentProcessingError |
| Chunking.ChunkedContent | app/ai_analysis/chunking.py:29-107 | corrected, with no negative width: every chunk list keeps all of the text's non-space content, in order |
| Chunking.TextChunker.SplitByStructure | app/ai_analysis/chunking.py:109-152 | corrected: the loop computes the structure split cut at the section marks |
| Chunking.TextChunker.SliceText | app/ai_analysis/chunking.py:286-289 | the comprehension computes the fixed-width slices |
| Chunking.TextChunker.HandleLongSentence | app/ai_analysis/chunking.py:260-289 | the open chunk, then the sentence's slices, are appended to the chunk list; a zero-token sentence gives ZeroDivisionError("division by zero") |
| Chunking.TextChunker.ProcessSentences | app/ai_analysis/chunking.py:223-258 | the loop computes the sentence chunking |
| Chunking.TextChunker.SplitByParagraphs | app/ai_analysis/chunking.py:154-203 | the loop computes the paragraph chunking |
| Chunking.TextChunker.AddParagraph | app/ai_analysis/chunking.py:170-197 | one pass of the paragraph loop: a blank paragraph is skipped, a paragraph that fits joins the open chunk, an oversized first paragraph is split by sentences, otherwise the open chunk closes; the paragraph chunking of the rest after this pass equals the chunking of the whole |
| Chunking.TextChunker.BasicTokenSplit | app/ai_analysis/chunking.py:317-348 | computes the fallback split |
| Chunking.TextChunker.ChunkText | app/ai_analysis/chunking.py:29-107 | corrected: computes the chunker's result, with the structure split cutting at its split points |
| Chunking.TextChunker.constructor | app/ai_analysis/chunking.py:20-27 | a new chunker holds the token counter it is given (and the slice-width oracle) |
| Chunking.IntegerWidthNonNegative | app/ai_analysis/chunking.py:282-289 | the width rule int(int(max_tokens × length / tokens) × 0.9), in integer arithmetic, never gives a negative width while max_tokens is not negative |
| Chunking.StructureSplitAsWrittenCases | app/ai_analysis/chunking.py:109-129 | as written the structure split raises AttributeError on `None.strip()` exactly when a section mark is found, so on every structured text; without a mark it keeps the text's content |
| Chunking.ChunkedAsWritten | app/ai_analysis/chunking.py:29-107 | as written: the empty text gives ([""], False); a text within budget gives ([text], False); any other success has at least one chunk and reports has_structure; every failure is a ContentProcessingError |
| Chunking.ChunkedAgreesWithoutStructure | app/ai_analysis/chunking.py:69-84 | without section structure chunk_text as written and corrected give the same result |
| Chunking.TextChunker.SplitByStructureAsWritten | app/ai_analysis/chunking.py:109-152 | as written: the method computes the failing structure split |
| Chunking.TextChunker.MergeParts | app/ai_analysis/chunking.py:131-152 | the loop computes the greedy grouping of the parts |
| Chunking.TextChunker.ChunkTextAsWritten | app/ai_analysis/chunking.py:29-107 | as written: computes chunk_text's result with the failing structure split |
| Chunking.TextChunker.Finish | app/ai_analysis/chunking.py:46-93 | the basic-split fallback for an empty split, and every failure wrapped as ContentProcessingError |
| WordSplit.ApproxTokens | v2/ai_analysis.py:406-411 | the estimate is the floor of a quarter of the length |
| WordSplit.WordCost | v2/ai_analysis.py:421 | a word costs at least 1, and exactly its length floor-divided by 4 when that is at least 1 |
| WordSplit.CostAtLeastLength | v2/ai_analysis.py:421 | a group costs at least one per word |
| WordSplit.GroupsFromFlatten | v2/ai_analysis.py:420-431 | the grouping loop keeps every word once, in order |
| WordSplit.GroupsFromBudget | v2/ai_analysis.py:420-431 | every group the loop emits is within the budget unless it is a single word |
| WordSplit.GroupsFromOpenNonEmpty | v2/ai_analysis.py:422-425 | once a group holds a word, no empty group is emitted afterwards |
| WordSplit.GroupsEmptyOnlyFirst | v2/ai_analysis.py:422-425 | as written, the only empty group is a leading one, and it appears exactly when the first word alone costs more than the budget |
| WordSplit.GroupsSound | v2/ai_analysis.py:413-434 | as written, every word appears once, in order, and every group is within budget or a single word |
| WordSplit.SplitTextKeepsWords | v2/ai_analysis.py:413-434 | splitting each chunk into words again gives text.split(), in order |
| WordSplit.SplitTextEmptyFirstChunk | v2/ai_analysis.py:422-425 | "abcdefgh" with a budget of 1 splits as written into ["", "abcdefgh"], and into ["abcdefgh"] once corrected |
| WordSplit.GroupsFromCorrectedFlatten | v2/ai_analysis.py:420-431 | the corrected grouping keeps every word once, in order |
| WordSplit.GroupsFromCorrectedBudget | v2/ai_analysis.py:420-431 | the corrected grouping emits only non-empty groups that are within budget or a single word |
| WordSplit.GroupsCorrectedSound | v2/ai_analysis.py:413-434 | the corrected grouping never emits an empty group and keeps all words in order |
| WordSplit.SplitTextCorrectedKeepsWords | v2/ai_analysis.py:413-434 | the corrected splitter's chunks are non-empty and re-split into text.split() |
| WordSplit.SplitText | v2/ai_analysis.py:413-434 | the loop computes the as-written split |
| WordSplit.TextForAnalysis | v2/ai_analysis.py:104-112 | as written: a text whose estimate is within max_context_tokens - safety_buffer is sent whole; the call fails (IndexError on chunks[0]) exactly when the text is over the limit and has no words |
| WordSplit.TextForAnalysisFirstChunk | v2/ai_analysis_next.py:88-93 | as written, over the limit the text sent holds a prefix of the text's words, and it is "" exactly when the first word alone costs more than the safe limit |
| WordSplit.TextForAnalysisEmptyExample | v2/ai_analysis.py:104-112 | "abcdefgh" with max_context_tokens 2 and safety_buffer 1 sends "" as written, "abcdefgh" once corrected |
| WordSplit.TextForAnalysisCorrected | v2/ai_analysis.py:104-112 | corrected splitter: a text within the limit is sent whole; the call fails exactly when the text is over the limit and has no words |
| WordSplit.TextForAnalysisCorrectedFirstChunk | v2/ai_analysis_next.py:88-93 | corrected splitter: over the limit the text sent is non-empty and its words are a prefix of the text's words |
| Merge.MergeSummary | app/ai_analysis/utils.py:500-507 | without a new summary the base's is kept; otherwise the result is the base, a space and the new summary when that fits 2000 characters, else its first 1997 characters followed by "...", so never longer than 2000 |
| Merge.AppendFreshExtends | app/ai_analysis/utils.py:510-520 | the base list is kept as a prefix and only entries of the new list whose key was unseen are appended |
| Merge.AppendFreshBound | app/ai_analysis/utils.py:515-519 | a list below the cap never grows past it; a list at or above it gains at most one entry before the break |
| Merge.AppendFreshComplete | app/ai_analysis/utils.py:510-520 | below the cap nothing is cut: every unseen entry is appended, in order |
| Merge.AppendFreshLoop | app/ai_analysis/utils.py:514-519 | the append loop with its break computes the capped append |
| Merge.MergeKeyPoints | app/ai_analysis/utils.py:510-520 | key points merge only when both analyses have them; the base's points stay first and new points whose text the base lacks are appended, stopping at 15 |
| Merge.KeyPointsMerged | app/ai_analysis/utils.py:510-520 | the merged list extends the base, repeats no base point and respects the cap of 15 |
| Merge.AddAll | app/ai_analysis/utils.py:533-536 | the set the loop builds, listed without duplicates, holds exactly the entries of the base and of the new list |
| Merge.CappedUnionSound | app/ai_analysis/utils.py:523-539 | the capped union has no duplicates, holds only entries of either list, and has exactly min(limit, size of the union) entries |
| Merge.MergeList | app/ai_analysis/utils.py:533-537 | the union loop computes the capped union |
| Merge.MergeAlongSpec | app/ai_analysis/utils.py:532-537 | walking a field list merges each listed field present in both analyses once and leaves every other field unchanged |
| Merge.MergeListFields | app/ai_analysis/utils.py:523-591 | the loops over the list fields compute the field-by-field merge |
| Merge.MergeListFieldsSpec | app/ai_analysis/utils.py:523-591 | each list field present in both analyses becomes the capped union (10, 8 for recommended_actions, 5 for the other action fields); the others keep the base's value |
| Merge.SetCategoryItems | app/ai_analysis/utils.py:559-564 | replacing one category's items keeps every category's name and position |
| Merge.MergeCategories | app/ai_analysis/utils.py:550-564 | merging the categories of the new analysis keeps the base's categories, names and order |
| Merge.MergeStructuredField | app/ai_analysis/utils.py:550-564 | the category loop with its item loop computes the category merge |
| Merge.MergeDictFields | app/ai_analysis/utils.py:542-567 | the loop over the structured fields computes the field-by-field merge |
| Merge.MergeDictFieldsSpec | app/ai_analysis/utils.py:542-567 | every structured field present in both analyses has its categories merged; the others keep the base's value |
| Merge.MergeCategoryExtends | app/ai_analysis/utils.py:559-564 | a category's items keep their order and only grow, by items the category did not already hold, and a category below 8 items ends with at most 8 |
| Merge.SetThenGet | app/ai_analysis/utils.py:561 | a category's items read back as they were set |
| Merge.Severity | app/ai_analysis/utils.py:600-604 | a level ranks at most 4 (unknown levels rank 0), and the lookup fails exactly for an unhashable level |
| Merge.LevelOf | app/ai_analysis/utils.py:602-604 | reading impact_level fails exactly when the summary lacks that key |
| Merge.MergeImpactSummary | app/ai_analysis/utils.py:594-610 | without both summaries the base is kept; otherwise the new summary replaces the base exactly when it ranks strictly higher, and a failure comes from one of the two lookups |
| Merge.MergedSummaryIsMostSevere | app/ai_analysis/utils.py:594-610 | the merged summary ranks at least as high as either input |
| Merge.MergeAnalysesShape | app/ai_analysis/utils.py:466-497 | merge_analyses fails exactly when the impact-summary merge fails; otherwise it keeps every field the base had, bounds the summary, extends the base's key points and merges every field both carry |
| Merge.MergeAnalysesSteps | app/ai_analysis/utils.py:466-497 | the six helpers applied in turn compute the merge |
| Prompts.AnalysisInstructions | app/ai_analysis/utils.py:13-38 | the instructions always start with the base instructions, and are longer exactly for a chunk |
| Prompts.FullTextPrompt | app/ai_analysis/utils.py:279-290 | the full-text prompt starts with the fixed introduction and is as long as introduction, text and closing together |
| Prompts.FullTextPromptRoundTrip | app/ai_analysis/utils.py:279-290 | the analysed text can be read back from the full-text prompt unchanged |
| Prompts.ContextLines | app/ai_analysis/utils.py:665-672 | the six context lines are built exactly when the metadata has every key; otherwise the error is the KeyError of a missing key |
| Prompts.PartLabelShowsPosition | app/ai_analysis/utils.py:681-698 | the label reads "PART i+1 OF n" for the first chunk (even when n = 1) and the middle ones, and "THE FINAL PART (i+1 OF n)" for a later last chunk |
| Prompts.PartLabelsDistinct | app/ai_analysis/utils.py:681-698 | two different chunks of one document never carry the same label |
| Prompts.ChunkPrompt | app/ai_analysis/utils.py:654-711 | the chunk prompt succeeds exactly when the metadata has all six keys; it starts with "You are analyzing " and the part label and ends with the section header and the chunk text |
| Prompts.EmptyMetadataFails | app/ai_analysis/utils.py:665 | with empty metadata the chunk prompt fails with KeyError('bill_number') |
| Prompts.CreateUserPrompt | app/ai_analysis/utils.py:262-290 | as written, the chunk branch always fails with KeyError('bill_number'), because the text goes to chunk_text, which the configuration ignores; the text branch gives a prompt the text reads back from |
| Prompts.CreateUserPromptCorrected | app/ai_analysis/utils.py:262-290 | with the chunk passed as chunk and metadata supplied, the chunk prompt exists exactly when the metadata is complete and ends with the chunk text |
| Preprocess.IsBinaryPdf | app/ai_analysis/text_preprocessing.py:15-33 | a value is a binary PDF exactly when it is bytes whose first five bytes are "%PDF-" (section 7.5.2 of ISO 32000-1) |
| Preprocess.IsBinaryPdfCases | app/ai_analysis/text_preprocessing.py:25-30 | bytes starting with the signature are a PDF; no str is one; four bytes of the signature are not enough |
| Preprocess.CountPresentBounds | app/ai_analysis/text_preprocessing.py:85-87 | the indicator count is zero exactly when no indicator occurs, and equals the number of indicators exactly when all occur |
| Preprocess.CountPresentMonotone | app/ai_analysis/text_preprocessing.py:177-179 | a text containing another contains at least as many indicators |
| Preprocess.RemoveElements | app/ai_analysis/text_preprocessing.py:137-138 | deleting the style or script elements never lengthens the text |
| Preprocess.CollapseSpaceKeepsText | app/ai_analysis/text_preprocessing.py:142 | collapsing whitespace runs keeps every other character, in order |
| Preprocess.CollapseSpaceSingleSpaced | app/ai_analysis/text_preprocessing.py:142 | collapsing leaves the text single-spaced, starting with a space exactly when the input does |
| Preprocess.StripSingleSpaced | app/ai_analysis/text_preprocessing.py:143 | stripping a single-spaced text leaves a tidy text: single spaces only between words |
| Preprocess.NoMarkupKeepsElements | app/ai_analysis/text_preprocessing.py:137-138 | text without '<' holds no element to delete |
| Preprocess.NoMarkupKeepsTags | app/ai_analysis/text_preprocessing.py:140 | text without '<' holds no tag to replace |
| Preprocess.StripHtmlWithRegex | app/ai_analysis/text_preprocessing.py:126-156 | the method is "regex" only when the text got strictly shorter, and "aggressive_regex" otherwise |
| Preprocess.StripHtmlWithRegexTidy | app/ai_analysis/text_preprocessing.py:126-156 | whichever branch is taken, the stripped text is tidy |
| Preprocess.StripHtmlWithRegexPlainText | app/ai_analysis/text_preprocessing.py:126-156 | on text without markup, stripping keeps every non-space character, in order |
| Preprocess.StripHtmlTags | app/ai_analysis/text_preprocessing.py:70-124 | empty input gives "empty_content"; "not_html" exactly for non-empty text below the markup test, returned unchanged; a failure keeps the first 100000 characters; the "beautifulsoup" and "regex" results are strictly shorter |
| Preprocess.ProcessHtmlContent | app/ai_analysis/text_preprocessing.py:158-212 | texts up to 5000 characters and texts that do not look like a page come back unchanged; otherwise the result is the input or something strictly shorter |
| Preprocess.CountPresentPrefix | app/ai_analysis/text_preprocessing.py:84-87 | the six indicators strip_html_tags counts are the first six of process_html_content's, so their count is no larger |
| Preprocess.MarkupIsPage | app/ai_analysis/text_preprocessing.py:173-182 | whatever strip_html_tags calls markup, process_html_content calls a page |
| Preprocess.ProcessHtmlContentUsesRegex | app/ai_analysis/text_preprocessing.py:119-121 | a long markup text, without BeautifulSoup, is replaced by its regex stripping exactly when that is shorter |
| Preprocess.PreprocessTextSound | app/ai_analysis/text_preprocessing.py:214-234 | the count is the count of the returned text; a short control-free string comes back as it is; the result is never longer than the sanitised input |
| Routing.TextRouteThresholds | app/ai_analysis/analysis_processing.py:128-159 | a text is too short exactly below 300 tokens; it is chunked only above max_context_tokens and then at max_context_tokens - safety_buffer; exactly max_context_tokens is sent whole and one more is chunked; more tokens never take a lighter route |
| Routing.CallStructured | app/ai_analysis/analysis_processing.py:168-207 | every failure of the structured call, building the prompt included, is an AIAnalysisError whose message starts "Error in structured analysis: " for the synchronous call and "Error in async structured analysis: " for call_structured_analysis_async (lines 264-304) |
| Routing.DirectCallSound | app/ai_analysis/analysis_processing.py:168-207 | a direct call sends the full-text prompt of the text and returns the model's answer; it fails exactly when the model does, as AIAnalysisError carrying the model's message behind the calling variant's prefix |
| Routing.ChunkResults | app/ai_analysis/analysis_processing.py:227-238 | one call result per chunk, in chunk order |
| Routing.KeptEmpty | app/ai_analysis/analysis_processing.py:227-243 | no more analyses survive than there are chunks, and none survives exactly when every chunk failed or gave a falsy (or, asynchronously, None) result |
| Routing.KeptAll | app/ai_analysis/analysis_processing.py:227-238 | when every chunk result is kept, the survivors are exactly those analyses, in chunk order |
| Routing.MergeKept | app/ai_analysis/analysis_processing.py:240-261 | with nothing kept the error is ContentProcessingError("Failed to generate any valid chunk analyses"); every failure is of the analysis error family |
| Routing.AsWrittenChunkCallFails | app/ai_analysis/analysis_processing.py:186 | as written, every chunk call fails with AIAnalysisError before the model is reached, because create_chunk_prompt gets a str |
| Routing.AsWrittenMergeFails | app/ai_analysis/analysis_processing.py:252 | as written, the three-argument merge_analyses call fails, surfacing as ContentProcessingError |
| Routing.AsWrittenChunkedAnalysisFails | app/ai_analysis/analysis_processing.py:210-261 | as written, analyze_in_chunks always raises the "no valid chunk analyses" ContentProcessingError |
| Routing.CorrectedChunkCalls | app/ai_analysis/analysis_processing.py:186 | corrected, with complete metadata, each chunk's prompt exists and ends with the section header and that chunk |
| Routing.CorrectedMergeKept | app/ai_analysis/analysis_processing.py:246-254 | corrected, a single kept analysis is the result, and a successful fold of the kept analyses is returned |
| Routing.AnalyzeChunks | app/ai_analysis/analysis_processing.py:210-261 | the chunk loop followed by the merge computes analyze_in_chunks |
| Routing.ProcessAnalysisText | app/ai_analysis/analysis_processing.py:113-159 | content that is not a readable PDF is routed by the token count of its preprocessed text |
| Routing.ShortTextSkipsModel | app/ai_analysis/analysis_processing.py:128-131 | below 300 tokens the insufficient-text analysis is returned whatever the model would answer |
| Routing.ChunkText | app/ai_analysis/analysis_processing.py:136 | the chunker as wired: as written its structure split fails; any success has at least one chunk and every failure is a ContentProcessingError |
| Routing.AsWrittenChunkRouteFails | app/ai_analysis/analysis_processing.py:136-149 | as written, a chunker failure is the route's failure, an over-budget structured text fails with "Error splitting text into chunks: 'NoneType' object has no attribute 'strip'", and two or more chunks fail with "no valid chunk analyses" |
| Routing.AsWrittenLongTextFails | app/ai_analysis/async_analysis.py:185-194 | as written, a text over max_context_tokens that the chunker does not return as one chunk always fails with ContentProcessingError: asynchronously the chunker's own error or "no valid chunk analyses"; every over-budget structured text is such a text |
| Routing.CorrectedChunkRouteMerges | app/ai_analysis/async_analysis.py:199-217 | corrected, when every chunk's analysis is kept, the chunk route returns their merge in chunk order |
| Routing.CorrectedLongTextMerges | app/ai_analysis/async_analysis.py:179-196 | corrected, a long text whose chunk analyses are all kept and merge is analysed as that merge |
| Routing.SingleChunkIsDirect | app/ai_analysis/async_analysis.py:212-214 | a text over the limit that fits one chunk is sent whole, as that chunk; asynchronously a failed call reads "Error in async structured analysis: " and the model's message |
| Routing.DirectRouteFailure | app/ai_analysis/async_analysis.py:185-196 | between 300 tokens and max_context_tokens the model's answer is the result, and its failure is an AIAnalysisError whose message is the calling variant's prefix followed by the model's message |
| Routing.PdfPath | app/ai_analysis/async_analysis.py:155-166 | a readable PDF goes to the document model only; None becomes the insufficient analysis; a failure is AIAnalysisError synchronously, and AIAnalysisError or UnicodeError becomes the insufficient analysis asynchronously |
| Routing.AnalyzeTextContentRoutes | app/ai_analysis/legislation_analyzer.py:247-293 | TokenLimitError above max_context_tokens; the text is sent whole up to the safe limit, a failed call reading "Error in async structured analysis: " and the model's message, and chunked only for counts in (safe limit, max_context_tokens] |
| Routing.WrapAnalysis | app/ai_analysis/legislation_analyzer.py:24-49 | a result passes unchanged; an AIAnalysisError passes through; every other failure is wrapped as AIAnalysisError |
| Routing.WrapAnalysisIdempotent | app/ai_analysis/legislation_analyzer.py:24-49 | wrapping twice is wrapping once |
| Routing.ContextStringParts | app/ai_analysis/bill_analysis.py:313-319 | the context is empty exactly when neither title nor state is given; a given title line comes first and a given state line last |
| Routing.CatchAll | app/ai_analysis/bill_analysis.py:353-358 | the helper passes results through and raises only exceptions outside the caught kinds (the analysis errors, ValueError with its subclass UnicodeError, TypeError, KeyError, AttributeError) |
| Routing.TextBillNeverFails | app/ai_analysis/bill_analysis.py:300-358 | the text-bill helper never raises: every failure on its path is caught and becomes None |
| Routing.AnalyzeBillStr | app/ai_analysis/bill_analysis.py:44-61 | a str bill under 10 characters is a ValueError; a longer one is preprocessed and its count is the count of the preprocessed text |
| Routing.GuardedTextBillRoutes | app/ai_analysis/bill_analysis.py:59-87 | over max_context_tokens a TokenLimitError; otherwise the analysis never fails, and up to the safe limit the text is sent behind its context lines |
| Routing.AsWrittenLongBillIsInsufficient | app/ai_analysis/bill_analysis.py:326-358 | as written, every str bill counted in (safe limit, max_context_tokens] gets the insufficient-text analysis, whether the chunker or the chunk analysis fails |
| Routing.AsWrittenLongTextBillIsNone | app/ai_analysis/bill_analysis.py:326-358 | as written, the text path above the safe limit catches the chunker's or the chunk analysis's failure and returns no analysis |
| Routing.AnalyzeBillPdf | app/ai_analysis/bill_analysis.py:216-255 | PDF bytes skip the token guard and go to the document model behind the context lines; a caught failure of the model, a UnicodeError among them, gives the insufficient-text analysis |
| Routing.ExtractContent | app/ai_analysis/analysis_processing.py:18-67 | content flagged binary is bytes; any other content is a control-free str |
| Routing.ExtractContentBinary | app/ai_analysis/legislation_analyzer.py:106-143 | bytes are returned exactly for a binary application/pdf record with str or bytes content when the client reads PDFs, PDF bytes unchanged; no record gives the sanitised description |
| Routing.StoreResults | app/ai_analysis/legislation_analyzer.py:145-169 | a failed store leaves the cache untouched; a successful one caches the record under the id with the current time |
| Routing.AnalyzeLegislation | app/ai_analysis/legislation_analyzer.py:52-76 | a fresh cache entry is served without change; a missing legislation is a ValueError; otherwise the extracted content is analysed asynchronously, stored, and the record cached |
| Routing.PartitionCounts | app/ai_analysis/async_analysis.py:96-122 | every id lands in exactly one list, successes are the clean results, and each success carries an input id |
| Routing.BatchResults | app/ai_analysis/async_analysis.py:96-122 | the loop partitions the results; success_count + failure_count = total, and avg_time_per_item is 0 for an empty batch |
| Records.ImpactGroup | app/ai_analysis/legislation_analyzer.py:215-231 | each impact group of the template maps every one of its keys to the one-element list holding the insufficient-text message |
| Records.ImpactGroupNoEmptyList | app/ai_analysis/legislation_analyzer.py:215-231 | no impact group holds an empty list |
| Records.TemplateValues | app/ai_analysis/legislation_analyzer.py:205-245 | the template has one value per key |
| Records.Zip | app/ai_analysis/legislation_analyzer.py:205-245 | the template's entries pair each key with its value, in order |
| Records.TemplateFlag | app/ai_analysis/legislation_analyzer.py:244 | the template's last entry is insufficient_text = True and no earlier key is insufficient_text |
| Records.TemplateIsInsufficient | app/ai_analysis/legislation_analyzer.py:205-245 | reading insufficient_text from the template gives True |
| Records.TemplateNoEmptyList | app/ai_analysis/legislation_analyzer.py:205-245 | no list anywhere in the template is empty |
| Records.MarkInsufficientGets | app/ai_analysis/async_analysis.py:283-289 | the rewrite sets insufficient_text to True, the summary to the fixed sentence and the impact summary to low public_health, and keeps every other key |
| Records.NormalizeMarks | app/ai_analysis/async_analysis.py:274-289 | a normalised analysis is a dict; an analysis with the marker or a summary shorter than 20 characters carries the flag, the fixed summary and the low impact summary; any other passes unchanged |
| Records.DetailedSummaryPasses | app/ai_analysis/async_analysis.py:280-285 | the rewritten summary is at least 20 characters and not the marker, so it does not trigger the rewrite |
| Records.NormalizeNothing | app/ai_analysis/async_analysis.py:275-277 | empty data becomes the marker analysis of lines 238-259, which is then rewritten |
| Records.NormalizeIdempotent | app/ai_analysis/async_analysis.py:274-289 | normalising twice is normalising once |
| AnalysisStore.Lookup | app/ai_analysis/db_operations.py:26-33 | an entry is served exactly when it exists and its age in minutes is below the TTL, and then it is the stored analysis |
| AnalysisStore.AfterLookup | app/ai_analysis/db_operations.py:33-34 | after a lookup a fresh entry stays and an expired or missing one is gone |
| AnalysisStore.StoredThenServed | app/ai_analysis/db_operations.py:37-48 | an analysis just written to the cache is served for as long as it is younger than the TTL |
| AnalysisStore.StoreIsolated | app/ai_analysis/db_operations.py:37-48 | writing one legislation's entry changes no other legislation's lookup |
| AnalysisStore.MissIsSticky | app/ai_analysis/db_operations.py:26-34 | after a miss the next lookup of the same id misses as well, at any later time |
| AnalysisStore.AnalysisCache.Get | app/ai_analysis/db_operations.py:14-35 | returns the lookup's answer and leaves the cache as the lookup leaves it: an expired entry deleted, nothing else changed |
| AnalysisStore.AnalysisCache.Update | app/ai_analysis/db_operations.py:37-48 | the cache afterwards is the old cache with exactly this id overwritten by (now, analysis) |
| AnalysisStore.MaxVersion | app/ai_analysis/db_operations.py:114-118 | the maximum of the versions (NULL counted as 0) bounds every stored version and is reached by one of them |
| AnalysisStore.NewVersion | app/ai_analysis/db_operations.py:113-129 | the new version is above every stored version, is 1 when none is stored, and is one above a stored version otherwise |
| AnalysisStore.FirstWithVersion | app/ai_analysis/db_operations.py:120-126 | the predecessor found is the first stored analysis whose non-NULL version equals the maximum; none is found only when no version equals it |
| AnalysisStore.PreviousVersionId | app/ai_analysis/db_operations.py:120-130 | the previous id names a stored analysis holding the maximum version; it is missing only when no stored version equals the maximum |
| AnalysisStore.PredecessorMissingOnlyForNullMax | app/ai_analysis/db_operations.py:114-127 | with analyses stored, a missing predecessor means the new version is 1 and some stored version is NULL (NULL counts as 0 for the maximum but never equals it) |
| AnalysisStore.CategoryFromName | app/models/enums.py:32-41 | a category found for a string is the member with that name |
| AnalysisStore.LevelFromName | app/models/enums.py:26-30 | a level found for a string is the member with that name |
| AnalysisStore.CategoryNameRoundTrip | app/models/enums.py:32-41 | every category member is found by its own name |
| AnalysisStore.LevelNameRoundTrip | app/models/enums.py:26-30 | every level member is found by its own name |
| AnalysisStore.CategoryByValue | app/ai_analysis/db_operations.py:145-149 | ImpactCategoryEnum(v) yields a member only for the string equal to that member's value |
| AnalysisStore.LevelByValue | app/ai_analysis/db_operations.py:151-155 | ImpactLevelEnum(v) yields a member only for the string equal to that member's value |
| AnalysisStore.CategoryByName | app/ai_analysis/db_operations.py:422-425 | the case-insensitive name search finds only the member named by the lower-cased key |
| AnalysisStore.LevelByName | app/ai_analysis/db_operations.py:429-432 | the case-insensitive level search finds only the member named by the lower-cased level |
| AnalysisStore.AsDict | app/ai_analysis/db_operations.py:341-342 | the impact summary can be read exactly when it is a dict; anything else raises AttributeError |
| AnalysisStore.PrimaryRating | app/ai_analysis/db_operations.py:354-386 | a primary rating has confidence 0.9 and exists only when primary_category and impact_level are the values of the category and level it records |
| AnalysisStore.CategoryData | app/ai_analysis/db_operations.py:332-339 | six category entries in the dict's order: public_health, local_government, economic, environmental, education, infrastructure |
| AnalysisStore.KeyCategory | app/ai_analysis/db_operations.py:334 | the corrected filing gives every key a category and differs from the code as written only for local_government |
| AnalysisStore.KeyCategoryMatchesLookup | app/ai_analysis/db_operations.py:422-425 | the as-written filing table is exactly the case-insensitive search of the enum for each key |
| AnalysisStore.NoCategoryOfLength16 | app/ai_analysis/db_operations.py:422-425 | no category member is named with 16 characters, so "local_government" matches none |
| AnalysisStore.CategoryRating | app/ai_analysis/db_operations.py:388-453 | a secondary rating has confidence 0.8, a truthy level and the category the filing gives its key; a truthy level that is not a string raises the uncaught AttributeError of `.lower()`, and only then |
| AnalysisStore.StrEach | app/ai_analysis/db_operations.py:414 | each list item is rendered with str(), in order |
| AnalysisStore.ListRatedModerate | app/ai_analysis/db_operations.py:412-416 | a non-empty list under a filed category is rated moderate, described by its items joined by newlines |
| AnalysisStore.ModerateIsFound | app/ai_analysis/db_operations.py:416 | the default level "moderate" names the Moderate member |
| AnalysisStore.SecondaryRatings | app/ai_analysis/db_operations.py:346-352 | every secondary rating has confidence 0.8, and as written none is filed under local_gov; the only failure is the AttributeError of a level without lower() |
| AnalysisStore.AddRating | app/ai_analysis/db_operations.py:348-352 | one loop step keeps the ratings' invariants and an earlier failure stays a failure |
| AnalysisStore.ImpactRatingsWith | app/ai_analysis/db_operations.py:296-352 | as written no rating after the primary one is filed under local_gov; every failure is an AttributeError (a summary that is not a dict, a level without lower()) |
| AnalysisStore.ImpactRatingsAsWritten | app/ai_analysis/db_operations.py:334 | as written the only local_gov rating possible is the primary one |
| AnalysisStore.LocalOnlyData | app/ai_analysis/db_operations.py:332-339 | for the example analysis only local_government_impacts is non-empty |
| AnalysisStore.LocalGovernmentExampleAsWritten | app/ai_analysis/db_operations.py:334 | as written a non-empty list of local-government impacts yields no rating at all |
| AnalysisStore.LocalGovernmentExampleCorrected | app/ai_analysis/db_operations.py:334 | with the corrected filing the same example yields one moderate local_gov rating |
| AnalysisStore.CorrectedRatesLocalGovernment | app/ai_analysis/db_operations.py:334 | with the corrected filing any non-empty list of local-government impacts is rated local_gov |
| AnalysisStore.AppendStep | app/ai_analysis/db_operations.py:348-352 | a rating made for the last category is appended after the earlier ones |
| AnalysisStore.LastRatingKept | app/ai_analysis/db_operations.py:348-352 | the rating made for the last category is in the result |
| AnalysisStore.ContainedInLater | app/ai_analysis/db_operations.py:348-352 | a rating once made stays in the result of every later step |
| AnalysisStore.PrefixErrSticks | app/ai_analysis/db_operations.py:348-352 | an exception in one category ends the whole loop with it |
| AnalysisStore.RateCategories | app/ai_analysis/db_operations.py:348-352 | the loop over the categories returns exactly the specified secondary ratings |
| AnalysisStore.CreateImpactRatings | app/ai_analysis/db_operations.py:296-352 | returns exactly the specified ratings: the primary one, then the per-category ones |
| AnalysisStore.StoreAnalysis | app/ai_analysis/db_operations.py:81-193 | the store fails exactly for an empty dict or when the ratings cannot be built; an empty dict raises TypeError as written (pydantic 2's ValidationError cannot be constructed from a message) and the ValidationError "Cannot store empty analysis data" once corrected; any other failure is an AttributeError; a stored row has version NewVersion of the existing rows, above every earlier version, its predecessor is the previous-version id, insufficient_text is the dict's value or False; the ratings written are those filed as written (no local_gov rating after the primary one) or, corrected, with local_gov matched |
| AnalysisStore.EmptyAnalysisAsWritten | app/ai_analysis/db_operations.py:93-96 | as written an empty dict never yields the ValidationError: building it raises TypeError |
| AnalysisStore.EmptyAnalysisCorrected | app/ai_analysis/db_operations.py:93-96 | corrected, the store fails with ValidationError("Cannot store empty analysis data") exactly when the dict is empty |
| AnalysisStore.StoreTwiceChains | app/ai_analysis/db_operations.py:113-127 | storing again after a first store gives version 2 linked to the first row |
| Retry.DetermineRetryStrategy | app/ai_analysis/structured_analysis.py:270-293 | a failure is retried exactly when its lower-cased message mentions a rate limit, a timeout, a server error or a connection; anything else is a non-retried API failure; the kind is "Rate limit" exactly when a rate limit is mentioned |
| Retry.StrategyOrder | app/ai_analysis/structured_analysis.py:280-291 | a message mentioning several kinds is classified by the first check that matches |
| Retry.StrategyIgnoresCase | app/ai_analysis/structured_analysis.py:280-291 | a message and its lower-cased form are classified alike |
| Retry.LastIndexOf | app/ai_analysis/structured_analysis.py:559 | the index found holds the character and no later index does |
| Retry.BraceSpan | app/ai_analysis/structured_analysis.py:558-559 | the greedy pattern matches from the first '{' to the last '}' after it, and matches nowhere when no '{' is followed by a '}' |
| Retry.ExtractJsonFromText | app/ai_analysis/structured_analysis.py:548-569 | without a brace span the result is {}; with one it is the parsed span, or {} when the span does not parse |
| Retry.SafeJsonLoad | app/ai_analysis/structured_analysis.py:525-546 | a parsed dict is returned as it is, another parsed value wrapped as {"content": value}, and text that does not parse goes to the brace extraction |
| Retry.SafeJsonLoadIsDict | app/ai_analysis/structured_analysis.py:525-569 | with a JSON parser that parses '{...}' only to objects, the shaped reply is always a dict |
| Retry.ApiFailure | app/ai_analysis/structured_analysis.py:239-249 | (reached only by the project's own APIError) an API error that is not retried becomes a RateLimitError exactly when its message mentions a rate limit, an APIError otherwise |
| Retry.AttemptStep | app/ai_analysis/structured_analysis.py:186-265 | an attempt is followed by another only before the last attempt, after no sleep or after base × 2^attempt seconds; every exception one raises is an AIAnalysisError |
| Retry.CallStructuredAnalysis | app/ai_analysis/structured_analysis.py:47-268 | the loop returns the result, the sleeps and the call count of the specified retry run; the async variant without a client raises ValueError at once (lines 345-352) |
| Retry.AttemptsBounded | app/ai_analysis/structured_analysis.py:77 | at most max_retries + 1 calls are made, with fewer sleeps than calls |
| Retry.CallCount | app/ai_analysis/structured_analysis.py:77-268 | with a negative max_retries the loop never runs and the final raise is reached; otherwise between 1 and max_retries + 1 calls are made |
| Retry.FirstSleep | app/ai_analysis/structured_analysis.py:231 | the first sleep from an attempt on is at least base × 2^attempt |
| Retry.SleepsDouble | app/ai_analysis/structured_analysis.py:231 | each sleep is at least twice the one before (exponential backoff) |
| Retry.SleepsCapped | app/ai_analysis/structured_analysis.py:229-231 | no sleep exceeds base × 2^(max_retries − 1) |
| Retry.DelayGrows | app/ai_analysis/structured_analysis.py:231 | the backoff grows with the attempt number |
| Retry.ErrorsAreAnalysisErrors | app/ai_analysis/structured_analysis.py:226-268 | every exception the loop raises belongs to the AIAnalysisError hierarchy |
| Retry.ResultIsDict | app/ai_analysis/structured_analysis.py:193 | with a JSON parser that parses '{...}' only to objects, every result returned is a dict |
| Retry.EmptyRepliesGiveEmptyDict | app/ai_analysis/structured_analysis.py:187-192 | a model that keeps replying with nothing is asked max_retries + 1 times, without any sleep, and the call returns {} |
| Retry.PersistentTransientError | app/ai_analysis/structured_analysis.py:226-249 | (reached only by the project's own APIError, which the OpenAI SDK does not raise) a transient API error that persists gives max_retries + 1 calls with a sleep between each two, then is raised as a RateLimitError or APIError counting max_retries attempts |
| Retry.PermanentErrorStops | app/ai_analysis/structured_analysis.py:239-249 | (reached only by the project's own APIError) an API error that is not transient is raised after one call as "OpenAI API error after 0 attempts", without a retry |
| Retry.Backoffs | app/ai_analysis/structured_analysis.py:264 | the k-th backoff from an attempt on is base × 2^(attempt + k) |
| Retry.PersistentForeignError | app/ai_analysis/structured_analysis.py:254-265 | an exception outside the AIAnalysisError hierarchy, as every OpenAI SDK error is, that persists is retried after each backoff whatever its message, and after max_retries + 1 calls is raised as AIAnalysisError("Unexpected error in API call: …"), or "Failed due to value/type error: …" for ValueError and TypeError |
| Retry.ForeignErrorRetried | app/ai_analysis/structured_analysis.py:260-265 | such an exception is retried after base seconds even when its message names no transient failure |
| PdfHandler.EncodePdfForVision | app/ai_analysis/pdf_handler.py:27-42 | anything but bytes raises ValueError("PDF content must be bytes"); bytes give a data URL |
| PdfHandler.DataUrlRoundTrip | app/ai_analysis/pdf_handler.py:27-42 | decoding the payload of the data URL gives the document back |
| PdfHandler.PrepareVisionMessage | app/ai_analysis/pdf_handler.py:44-74 | the message is refused with ValueError("Content is not a PDF") exactly when the content does not start with "%PDF-" |
| PdfHandler.VisionMessageCarries | app/ai_analysis/pdf_handler.py:60-74 | the message is a user message with exactly two parts: an image_url whose URL carries exactly the document, then the prompt as text |
| PdfHandler.DigitRun | app/ai_analysis/pdf_handler.py:188 | the greedy `\d+` run from a position is all digits and is not followed by a digit |
| PdfHandler.MatchShaped | app/ai_analysis/pdf_handler.py:188 | digits, a dot and digits form a version as the pattern matches it |
| PdfHandler.VersionAt | app/ai_analysis/pdf_handler.py:188 | a match at a position starts with "%PDF-" and its group is a version of shape digits.digits |
| PdfHandler.SearchVersion | app/ai_analysis/pdf_handler.py:188 | the search yields a version-shaped group, and yields none exactly when the pattern matches at no position |
| PdfHandler.GetPdfMetadata | app/ai_analysis/pdf_handler.py:173-196 | is_pdf tells whether the content is a PDF; anything else carries only is_pdf; a PDF carries its size in bytes |
| PdfHandler.MatchAtStart | app/ai_analysis/pdf_handler.py:188 | a header "%PDF-" + digits + "." + digits at the start is the match, with the version as its group |
| PdfHandler.RunEnds | app/ai_analysis/pdf_handler.py:188 | a digit run ends where the first non-digit stands |
| PdfHandler.HeaderVersion | app/ai_analysis/pdf_handler.py:188-189 | a well-formed header within the first 1024 bytes gives the version written in it |
| PdfHandler.PageTexts | app/ai_analysis/pdf_handler.py:129-131 | a page without text counts as "" and every other page as its text, in page order |
| PdfHandler.JoinPages | app/ai_analysis/pdf_handler.py:128-141 | the page loop returns the pages joined by a blank line, or the placeholder when that is only whitespace |
| PdfHandler.JoinAllSpace | app/ai_analysis/pdf_handler.py:134-137 | the joined text is only whitespace exactly when every page's text is |
| PdfHandler.AllSpaceConcat | app/ai_analysis/pdf_handler.py:137 | a concatenation is only whitespace exactly when both parts are |
| PdfHandler.PlaceholderWhenBlank | app/ai_analysis/pdf_handler.py:137-139 | the placeholder replaces the text exactly when no page has text beyond whitespace |
| PdfHandler.ProcessPdfTextExtraction | app/ai_analysis/pdf_handler.py:95-141 | without PyPDF2 an ImportError; for a non-PDF a ValueError; a reader failure passes through; otherwise the joined page text |
| PdfHandler.ExtractTextFromPdf | app/ai_analysis/pdf_handler.py:143-171 | every failure becomes its bracketed note in place of the text; a readable PDF gives its joined page text |
| PdfHandler.ProcessPdfForAnalysis | app/ai_analysis/pdf_handler.py:198-216 | a non-PDF raises ValueError("Content is not a PDF"); a PDF gives the vision message and its metadata |
| Config.CheckMaxContextTokens | app/ai_analysis/config.py:28-47 | a value passes exactly when it lies in [1000, 1000000], unchanged; below fails as too small, above as unreasonably high |
| Config.CheckSafetyBuffer | app/ai_analysis/config.py:49-66 | a value passes exactly when it is not negative, unchanged |
| Config.CheckMaxRetries | app/ai_analysis/config.py:68-87 | a value passes exactly when it lies in [0, 10], unchanged; the message names the side it fails on |
| Config.CheckRetryBaseDelay | app/ai_analysis/config.py:89-108 | a delay passes exactly when 0 < delay <= 10, unchanged; the message names the side it fails on |
| Config.CheckLogLevel | app/ai_analysis/config.py:110-129 | a level passes exactly when it is one of the five upper-case names |
| Config.CheckApiKey | app/ai_analysis/config.py:131-152 | a supplied key passes as it is; a supplied None passes exactly when OPENAI_API_KEY is set and non-empty |
| Config.MakeConfig | app/ai_analysis/config.py:17-152 | a refused configuration carries at least one validator message |
| Config.MadeConfigIsBounded | app/ai_analysis/config.py:17-129 | every configuration built meets all the validators' bounds, defaults included, and carries each supplied value |
| Config.BadFieldRejects | app/ai_analysis/config.py:28-87 | a supplied context size, retry count or buffer outside its bounds makes the construction fail |
| Config.BufferMayExceedContext | app/ai_analysis/config.py:49-66 | the buffer is not checked against the context size: a valid configuration can leave no room for a chunk |
| Config.DefaultsNeedNoKey | app/ai_analysis/config.py:19 | the bare constructor succeeds with the defaults and no API key, since defaults are not validated |
| LegiscanModels.MapBillStatus | app/legiscan/models.py:39-62 | a falsy status is new; any other is looked up by its str() among the codes 1..7 and defaults to updated; never pending |
| LegiscanModels.CodeValue | app/legiscan/models.py:52-60 | every code of the table is a single digit from 1 to 7 |
| LegiscanModels.MapIntStatus | app/legiscan/models.py:39-62 | an integer status maps through its decimal text exactly as the numeric table says (0 is new, 1..7 their statuses, anything else updated) |
| LegiscanModels.ParseDate | app/legiscan/models.py:65-83 | an empty string or one strptime refuses gives the default; otherwise the parsed date |
| LegiscanModels.DecodeBillText | app/legiscan/models.py:86-123 | the binary flag is set exactly for binary content, which starts with a known signature; nothing comes back exactly for a missing, empty or undecodable payload |
| LegiscanModels.DecodeBinaryRoundTrip | app/legiscan/models.py:99-111 | a document with a binary signature sent as base64 comes back as the same bytes, flagged binary |
| LegiscanModels.DecodeTextRoundTrip | app/legiscan/models.py:99-116 | a non-empty text without a binary signature sent as base64 of its UTF-8 comes back as the same text, not flagged |
| LegiscanModels.DecodedBinaryHasType | app/legiscan/models.py:110-142 | decoded binary content always sniffs to a specific media type, never application/octet-stream |
| LegiscanModels.ValidateBillData | app/legiscan/models.py:261-272 | a bill is valid exactly when bill_id, state, bill_number and title are all present |
| LegiscanModels.DateAttribute | app/legiscan/models.py:311-318 | a date attribute is set exactly when the source value is truthy, and is then the parse of that string with default None |
| LegiscanModels.SessionName | app/legiscan/models.py:297 | without a session the name is "Unknown Session"; a session that is not a dict raises |
| LegiscanModels.PrepareLegislationAttributes | app/legiscan/models.py:275-320 | a missing state or bill_id raises KeyError; otherwise the government type is federal exactly for "US", the external id is str(bill_id), the status is the mapped status, the raw response is dropped and each date is set exactly when its source is truthy |
| LegiscanModels.AttributesSanitized | app/legiscan/models.py:297-301 | every sanitised text attribute is free of control characters |
| LegiscanModels.ValidBillPrepares | app/legiscan/models.py:261-320 | a valid bill whose session is a dict (or absent) and whose dates are strings or falsy always yields attributes |
| Relevance.Found | app/legiscan/relevance.py:59-63 | at most one hit per keyword is counted |
| Relevance.CalculateRelevance | app/legiscan/relevance.py:43-83 | an empty bill scores all zero; each topic score is a multiple of ten within [0, 100]; the overall score is the floor of their mean |
| Relevance.MentionsGrows | app/legiscan/relevance.py:62 | a keyword found in a text is found in any text containing it |
| Relevance.FoundGrows | app/legiscan/relevance.py:59-70 | a text containing another finds at least as many keywords |
| Relevance.ScoresMonotone | app/legiscan/relevance.py:56-77 | adding text never lowers a topic score or the overall score |
| Relevance.TopicScoreCounts | app/legiscan/relevance.py:59-74 | a topic score is min(100, 10 × keywords found), and reaches 100 exactly when ten keywords are found |
| Relevance.Priority.constructor | app/legiscan/relevance.py:132-139 | a new priority carries the bill id, the three scores, auto_categorized and the category flags |
| Relevance.HealthPoints | app/legiscan/relevance.py:103-106 | the loop counts ten points per health keyword the text mentions |
| Relevance.CalculateBillRelevance | app/legiscan/relevance.py:85-142 | without the priority model nothing changes and the result is False; an existing priority gets the text's scores in place; otherwise one new priority with the scores and flags for scores above 30 is added to the session, and nothing else is |
| LegiscanDb.ProceedsToSave | app/legiscan/db.py:51-60 | a bill gets past the guards exactly when the payload is non-empty, has every required key and comes from US or TX |
| LegiscanDb.GetTextContent | app/legiscan/db.py:215-286 | the binary flag is set exactly for binary content; a successful state_link fetch decides the content, as bytes for mime_id 2 and as text otherwise |
| LegiscanDb.PrepareTextAttributes | app/legiscan/db.py:289-405 | the record keeps id, version, type and hash; it has content columns exactly when content was given; binary content is stored as bytes with the sniffed type and its length, anything else as sanitised text/plain with its UTF-8 length, and the metadata agrees |
| LegiscanDb.TextRecordKeepsContent | app/legiscan/db.py:215-405 | fetched binary content is stored byte for byte with its length; fetched text is stored sanitised; no content gives no content columns |
| LegiscanDb.RawAsDict | app/legiscan/models.py:145-183 | a stored dict is read as it is |
| LegiscanDb.ExistingIds | app/legiscan/db.py:585-589 | no more ids than list entries are collected |
| LegiscanDb.ExistingIdsAppend | app/legiscan/db.py:585-589 | appending an amendment that has an id appends its id to the collected ids |
| LegiscanDb.StoreAmendment | app/legiscan/db.py:564-599 | an amendment whose id is already listed leaves raw_api_response as it was |
| LegiscanDb.StoreListsId | app/legiscan/db.py:564-599 | after storing, the amendment's id is listed, after every id listed before |
| LegiscanDb.StoreIdempotent | app/legiscan/db.py:592-596 | storing the same amendment twice is storing it once |
| LegiscanDb.CountTracked | app/legiscan/db.py:488-504 | no more amendments are counted than were given |
| LegiscanDb.TrackAmendments | app/legiscan/db.py:474-506 | the count is the number of amendments with a truthy id; with the Amendment model the row is untouched, without it each such amendment is stored in raw_api_response in order |
| LegiscanDb.StoreAllListsEvery | app/legiscan/db.py:491-504 | once all are stored, every amendment with a truthy id is listed in raw_api_response |
| Amendments.GetStatusValue | app/scheduler/amendments.py:163-173 | the status is adopted exactly when the flag is set and proposed otherwise, an enum member exactly when the enum has both members |
| Amendments.GetBillIdSafely | app/scheduler/amendments.py:308-327 | a missing id, or a boolean one, gives None |
| Amendments.BillIdOfInt | app/scheduler/amendments.py:322-324 | an integer id, or its decimal text, comes back as that integer |
| Amendments.FilterKeys | app/scheduler/amendments.py:240-250 | exactly the entries whose key is an attribute of the model are kept |
| Amendments.FilterKeysKeepsAll | app/scheduler/amendments.py:240-250 | when every key is an attribute nothing is dropped and the order is kept |
| Amendments.NewAmendmentKeepsEveryKey | app/scheduler/amendments.py:228-250 | every key create_new_amendment builds is a column of the Amendment model, so the new amendment gets all of them |
| Amendments.RawDict | app/scheduler/amendments.py:271-291 | a stored dict is read as it is; None and text that is not JSON read as {} |
| Amendments.TruthyIds | app/scheduler/amendments.py:297 | only truthy ids are collected |
| Amendments.TruthyIdsAppend | app/scheduler/amendments.py:297-299 | appending an amendment with a truthy id appends that id to the collected ids |
| Amendments.StoreWithoutModel | app/scheduler/amendments.py:258-305 | whenever raw_api_response changes, it becomes a dict |
| Amendments.ListedAfterAppend | app/scheduler/amendments.py:297-303 | after the append the amendment's id is the last one listed |
| Amendments.StoreListsId | app/scheduler/amendments.py:258-305 | after a successful store the amendment's id is listed, after every id listed before |
| Amendments.StoreIdempotent | app/scheduler/amendments.py:297-299 | storing the same amendment again changes nothing |
| Amendments.TrackFailureSticks | app/scheduler/amendments.py:77-108 | the first failure ends the run with that failure |
| Amendments.TrackAmendments | app/scheduler/amendments.py:60-108 | the result is the number of amendments with a truthy id; with the model the row is untouched; without it each is stored in raw_api_response, and a failure is raised as a DataSyncError carrying the original message |
| Sync.ActiveSessions | app/legiscan/sync.py:214-235 | a session is kept exactly when it is in the list and its year_end (default 0) reaches the current year or its sine_die (default 1) is 0; the result is never longer than the list (the same rule as app/scheduler/sync_manager.py:518-525) |
| Sync.BareSessionInactive | app/legiscan/sync.py:228-234 | a session with neither year_end nor sine_die is never active in any positive year |
| Sync.IdentifyChangedBills | app/legiscan/sync.py:237-271 | the loop over the master list returns exactly the ids of the specification ChangedBills, in master-list order |
| Sync.ChangedBillsIff | app/legiscan/sync.py:253-269 | an id is reported if and only if some entry other than key "0" carries that truthy bill_id and a truthy change_hash and is either not stored or stored with a different change_hash |
| Sync.SyncedListUnchanged | app/scheduler/sync_manager.py:547-564 | when every listed bill is stored with its listed change_hash, the next sync reports nothing |
| Sync.StatusText | app/legiscan/sync.py:202 | str(status) always begins with the enum class prefix "SyncStatusEnum." |
| Sync.ErrorRecord | app/legiscan/sync.py:194-198 | the error record counts all errors and samples the first min(5, count) of them, a prefix of the list |
| Sync.FinalStatus | app/legiscan/sync.py:192-199 | a run that got through is partial if and only if some error was collected, completed otherwise |
| Sync.SyncMeta.constructor | app/legiscan/sync.py:79-83 | a new sync row is in progress, with no errors, no successful sync time and zero counts |
| Sync.SyncSummary.constructor | app/legiscan/sync.py:88-96 | a new summary has zero counts, no errors, status "in_progress", the start time and no end time |
| Sync.SyncSummary.UpdateBillStatistics | app/legiscan/sync.py:154-167 | a bill whose created_at equals updated_at counts as new, any other as updated, and the listed amendments are added to amendments_tracked; nothing else changes |
| Sync.SyncSummary.RecordBillProcessingError | app/legiscan/sync.py:169-174 | the message "Error processing bill <id>: <exception>" is appended to the errors and no count changes |
| Sync.FinalizeSyncSuccess | app/legiscan/sync.py:183-204 | the row takes the summary's counts, the sync time and the final status, and the error record only when errors were collected; the summary's status is the status text and its end time is set |
| Sync.UpdateSyncMetadata | app/scheduler/sync_manager.py:386-423 | without a row nothing changes; with one it gets the same status rule, counts and error record as a finished run |
| Sync.HandleSyncCriticalError | app/legiscan/sync.py:273-298 | the row fails with "Fatal error in sync operation: <exception>" as its critical error and the summary fails with that message appended; counts are kept |
| Sync.ErrorLabelReads | app/scheduler/sync_manager.py:443 | the label of an error type has its length, reads each letter up to case and each underscore as a space, and contains no underscore |
| Sync.HandleSyncError | app/scheduler/sync_manager.py:425-476 | the summary gets "<Label>: <exception>" appended and the log line reads "<Label> in nightly sync: <exception>"; with a row, the row fails with the bare exception text |
| Sync.FallbackRaw | app/scheduler/sync_manager.py:316-327 | a dict response is read as it is and any value that is neither dict nor string as {} |
| Sync.NewAmendments | app/scheduler/sync_manager.py:333-337 | only dicts with a truthy amendment_id not listed before the call are appended, never more than were given |
| Sync.StoreAmendmentsInRawData | app/scheduler/sync_manager.py:306-344 | the bill's raw response becomes the specification FallbackStore of the old response and the amendments |
| Sync.FallbackFailsWhole | app/scheduler/sync_manager.py:335-337 | if part of the batch has an amendment to append, so does the whole batch |
| Sync.AddedIds | app/scheduler/sync_manager.py:334 | the ids read from appended amendments, one per amendment, in order |
| Sync.TruthyIdsOfAdded | app/scheduler/sync_manager.py:334-337 | appending amendments with truthy ids lists their ids after the ids listed before |
| Sync.NewAmendmentsCovers | app/scheduler/sync_manager.py:335-337 | an amendment with a truthy id that is not appended was listed already |
| Sync.FallbackListsEvery | app/scheduler/sync_manager.py:306-344 | after the fallback, every amendment of the batch with a truthy id is listed in the stored response, after every id listed before |
| Sync.BatchDuplicatesKept | app/scheduler/sync_manager.py:334-337 | two amendments with the same new id in one batch are both appended, because the listed ids are read once before the loop |
| Sync.RecordSavedBill | app/scheduler/sync_manager.py:251-275 | a saved bill counts as new when its timestamps compare equal and as updated otherwise (also when the comparison fails); a non-empty amendment list is tracked, with the raw-response fallback when tracking fails; the bill id is read safely |
| Sync.LookupBillsByKeywords | app/legiscan/sync.py:300-345 | the loop over the monitored jurisdictions returns exactly the specification LookupBills of the keywords, limit and search results |
| Sync.CollectHitsBound | app/legiscan/sync.py:331-342 | searching one state extends the results and goes past the limit by at most one, since the check follows the append |
| Sync.LookupFromBound | app/legiscan/sync.py:318-345 | each state searched may add one result beyond the limit |
| Sync.LookupBillsBound | app/legiscan/sync.py:300-345 | as written, the lookup returns at most the limit plus two results, one per monitored jurisdiction |
| Sync.LookupExceedsLimit | app/legiscan/sync.py:341-342 | with limit 1 and one matching bill in each of the two jurisdictions the lookup as written returns two results |
| Sync.CollectHitsCappedBound | app/legiscan/sync.py:331-342 | with the limit checked before each append, one state never takes the results past the limit |
| Sync.LookupCappedFromBound | app/legiscan/sync.py:318-345 | with the limit applied to the whole search, no number of states takes the results past it |
| Sync.LookupBillsCappedWithinLimit | app/legiscan/sync.py:300-345 | the corrected lookup never returns more results than the limit |
| Seeding.BeforeTransitive | app/scheduler/seeding.py:297 | the datetime order the date filter compares with is transitive |
| Seeding.ParseStartDate | app/scheduler/seeding.py:24-30 | an ISO start date is used as parsed; an invalid one falls back to 2025-01-01 at midnight |
| Seeding.IsBillInDateRange | app/scheduler/seeding.py:290-301 | a bill without a truthy status_date is in range; a truthy non-string date raises; a bill is out of range exactly when its date parses and falls before the start |
| Seeding.MissingDateInRange | app/scheduler/seeding.py:292-294 | a bill with no status_date key is kept, whatever the start |
| Seeding.InRangeForEarlierStart | app/scheduler/seeding.py:290-301 | moving the start date earlier never drops a bill from the range |
| Seeding.StartDayInRange | app/scheduler/seeding.py:296-298 | a bill dated on the start day is kept when the start is that day's midnight |
| Seeding.RelevantSessions | app/scheduler/seeding.py:144-149 | a session is kept exactly when it is listed and its year_start or year_end (default 0) reaches the start year; never more than were listed |
| Seeding.RelevantForEarlierYear | app/scheduler/seeding.py:144-149 | an earlier start year keeps every session a later one keeps |
| Seeding.EarlySessionSkipped | app/scheduler/seeding.py:146-148 | a session that neither starts nor ends by the start year is skipped |
| Seeding.SessionSummary.constructor | app/scheduler/seeding.py:172-181 | a session summary names its state, session id and name and starts with zero counts and no errors |
| Seeding.SeedingSummary.constructor | app/scheduler/seeding.py:33-45 | a seeding summary records its start date, the bill cap and start time, with zero counts, no errors, no sessions and no end time |
| Seeding.NewBillOutcome | app/scheduler/seeding.py:248-287 | a bill that is added logs no error |
| Seeding.EntryBillId | app/scheduler/seeding.py:227-233 | only a truthy bill_id of an entry other than "0" is handed on |
| Seeding.Visit | app/scheduler/seeding.py:235-246 | each counted entry is found once; a stored bill changes nothing else, and a new one adds at most one bill, to the run and the session alike |
| Seeding.CountBillEntries | app/scheduler/seeding.py:227-233 | the entries the loop counts are never more than the master list holds |
| Seeding.SeedBillsWithinCap | app/scheduler/seeding.py:216-225 | with a positive max_bills, a run that starts within the cap never adds past it |
| Seeding.SeedBillsUncapped | app/scheduler/seeding.py:216-246 | with max_bills 0 every non-metadata entry with a bill_id is found, and no more bills are added than found |
| Seeding.SeedBillsMonotone | app/scheduler/seeding.py:235-274 | the counters only grow, and the run's and the session's added counts move together |
| Seeding.AtCapNothingHappens | app/scheduler/seeding.py:216-219 | a session reached with the cap already met changes nothing |
| Seeding.ProcessBillsForSession | app/scheduler/seeding.py:207-287 | the loop leaves the run and session counts and error lists as the specification SeedBills of the master list gives them; nothing else changes |
| Seeding.EmptyMasterListListedTwice | app/scheduler/seeding.py:189-204 | as written, a session whose master list comes back empty is appended to sessions_processed twice |
| Seeding.RecordedOnce | app/scheduler/seeding.py:202-204 | with the summary appended only in the finally clause, each session is listed exactly once |
| Seeding.ProcessSessionForSeeding | app/scheduler/seeding.py:159-204 | as written: a fresh session summary; an empty master list logs the failure and lists the session twice; an exception logs "Error processing session" in both lists; otherwise the bills are seeded |
| Seeding.ProcessSessionOnce | app/scheduler/seeding.py:159-204 | the same outcomes with the session listed exactly once on every path |
| Seeding.CountWithId | app/scheduler/seeding.py:152-156 | the sessions with a truthy session_id are never more than the relevant sessions |
| Seeding.Listed | app/scheduler/seeding.py:152-156 | the sessions list grows by at least one entry per relevant session with an id, and by exactly one each once corrected |
| Seeding.ListedAsWrittenExact | app/scheduler/seeding.py:152-156 | as written the list grows by exactly one entry per session with an id if and only if none of them has an empty master list |
| Seeding.SeedSession | app/scheduler/seeding.py:152-156 | one pass for a session with an id appends two entries for an empty master list as written and one otherwise, each for this state with the session's own id and its own session_name; the bill cap keeps holding |
| Seeding.ProcessJurisdictionForSeeding | app/scheduler/seeding.py:128-156 | no sessions logs "No sessions found for state"; otherwise the sessions list grows by Listed of the relevant sessions, two entries for an empty master list as written, one once corrected; every new entry carries this state and the id and session_name of a relevant session; existing entries are kept and the bill cap keeps holding |
| Seeding.SessionKey | app/scheduler/seeding.py:575-590 | a bill is matched only by a truthy state and a truthy session id read from a dict or from JSON text |
| Seeding.SessionKeyOfText | app/scheduler/seeding.py:575-579 | stored JSON text and the dict it decodes to name the same session |
| Seeding.FirstMatch | app/scheduler/seeding.py:597-601 | the position found is the first session summary that matches, or the end of the list |
| Seeding.CreditedIsFirstMatch | app/scheduler/seeding.py:597-601 | at most one session summary is credited for a bill, and only one that matches it |
| Seeding.UpdateSessionAnalysisCount | app/scheduler/seeding.py:554-605 | exactly the credited session summary gains one analysed bill; no other count or error list changes |
| Seeding.FailureMessages | app/scheduler/seeding.py:525-551 | a failed analysis logs one message, and a second, stopping message for a quota, billing, database or SQL error |
| Seeding.Advance | app/scheduler/seeding.py:508-523 | a successful analysis appends the bill to the analysed ones; a failure analyses nothing |
| Seeding.FirstStop | app/scheduler/seeding.py:543-551 | the position found is the first bill whose analysis error stops the loop, or the end |
| Seeding.Successes | app/scheduler/seeding.py:508-523 | the bills whose analysis succeeds, never more than were given |
| Seeding.AnalyzedUpToStop | app/scheduler/seeding.py:505-551 | exactly the successes before the first stopping error are analysed, in order, and nothing after it is tried |
| Seeding.AllSuccessesWithoutStop | app/scheduler/seeding.py:505-551 | without a stopping error every successful bill is analysed |
| Seeding.StopLogsLast | app/scheduler/seeding.py:543-551 | a stopping error logs its message and the stop notice as the last entries |
| Seeding.Credit | app/scheduler/seeding.py:520-521 | a session summary is credited at most once per analysed bill |
| Seeding.CreditAppend | app/scheduler/seeding.py:520-521 | analysing one more bill adds its credit to every session summary |
| Seeding.AnalyzeNewBills | app/scheduler/seeding.py:482-551 | nothing happens when no bill was added; a failed AIAnalysis() logs one message; otherwise analysed bills and errors follow the stop rule and each session gains its credits |
| Seeding.AnalyzeEach | app/scheduler/seeding.py:506-551 | the loop over the new bill ids: analysed count, errors and per-session credits equal those of the stop-rule run, and nothing else in the summary changes |
| BaseStore.AsInt | app/data/base_store.py:95 | a value reads as an int exactly when it is an int or a bool, as isinstance(v, int) decides |
| BaseStore.ValidateMaxRetries | app/data/base_store.py:95-98 | max_retries is accepted exactly when it is an int of at least 1, and is then kept; otherwise the ValidationError "max_retries must be a positive integer" |
| BaseStore.ValidatePaginationParams | app/data/base_store.py:279-297 | limit and offset are accepted exactly when both are non-negative ints and the limit is at most 1000; any refusal is a ValidationError |
| BaseStore.LimitReportedFirst | app/data/base_store.py:290-294 | a bad limit is the error reported even when the offset is bad too |
| BaseStore.FirstIndex | app/data/base_store.py:275 | the position of the first '@' (or any character) of an address, or its length when there is none |
| BaseStore.LastIndex | app/data/base_store.py:275 | the position of the last '.' of an address, or -1 when there is none |
| BaseStore.FirstIndexIs | app/data/base_store.py:275 | a position holding the character with none before it is the first index |
| BaseStore.LastIndexIs | app/data/base_store.py:275 | a position holding the character with none after it is the last index |
| BaseStore.SplitPointsForced | app/data/base_store.py:275 | an address can match the e-mail pattern only by splitting at its first '@' and its last '.' |
| BaseStore.MatchAddress | app/data/base_store.py:275-276 | the deciding procedure agrees exactly with the pattern's definition of an address (local part, '@', domain, '.', two or more letters) |
| BaseStore.ValidateEmailAsWritten | app/data/base_store.py:261-277 | as written, an e-mail is accepted exactly when it is a string that the pattern matches, a trailing newline allowed by re.match's '$' |
| BaseStore.TrailingNewlineAccepted | app/data/base_store.py:275-276 | as written, "a@b.co" followed by a newline passes the e-mail check |
| BaseStore.NewlineAfterAddressAccepted | app/data/base_store.py:275-276 | as written, every valid address followed by a newline passes the e-mail check |
| BaseStore.ValidateEmail | app/data/base_store.py:261-277 | an e-mail is accepted exactly when it is a string that is an address under the pattern as a whole; a refusal is a ValidationError |
| BaseStore.AcceptedEmailHasNoNewline | app/data/base_store.py:275 | an accepted address holds no newline |
| BaseStore.DaysInMonth | app/data/base_store.py:310 | every month has 28 to 31 days |
| BaseStore.StrptimeYmd | app/data/base_store.py:299-313 | a string that strptime("%Y-%m-%d") reads names a real calendar date |
| BaseStore.ShortFormAccepted | app/data/base_store.py:299-313 | the check with strptime alone accepts single-digit months and days, as in "2024-1-5" |
| BaseStore.NoThirtiethOfFebruary | app/data/base_store.py:310 | a date read in February never has a day above 29 |
| BaseStore.Pow2 | app/data/base_store.py:147 | the backoff 2 ** attempt is at least one second |
| BaseStore.ConnectFrom | app/data/base_store.py:119-154 | the retry loop sleeps fewer times than the attempts left, and the k-th sleep lasts 2 ** (attempt number) seconds |
| BaseStore.ConnectSucceedsIff | app/data/base_store.py:129-150 | setup succeeds if and only if some attempt connects before all attempts are used, every earlier one having failed with an OperationalError |
| BaseStore.AllFailReportsLast | app/data/base_store.py:137-154 | when every attempt fails, the ConnectionError names max_retries and the last error, after max_retries - 1 sleeps |
| BaseStore.Store.constructor | app/data/base_store.py:98-99 | a new store keeps max_retries and has no session and no sleeps yet |
| BaseStore.Store.InitDbConnection | app/data/base_store.py:119-154 | the loop returns the outcome of the specification ConnectFrom, records its sleeps, and leaves a session as the attempts did |
| BaseStore.Store.GetSession | app/data/base_store.py:102-107 | the session is returned exactly when there is one; otherwise DatabaseOperationError "No database session available" |
| BaseStore.Store.Close | app/data/base_store.py:226-238 | after close there is no session, whether or not closing it failed |
| BaseStore.NewStore | app/data/base_store.py:84-100 | an invalid max_retries is refused before any connection; a valid one builds a store whose setup result is that of ConnectFrom |
| BaseStore.ConnectedLeavesSession | app/data/base_store.py:130-135 | a setup that succeeds leaves a session behind |
| LegislationStore.CalculatePaginationInfo | app/data/legislation_store.py:217-254 | the page size is the limit when positive and the whole count otherwise; there is a next page exactly when a positive limit leaves rows after this page, a previous page exactly when the offset is positive, and the offsets point to them (the previous one never below 0) |
| LegislationStore.TotalPagesIsCeiling | app/data/legislation_store.py:234 | with a positive limit, total_pages is the ceiling of total over the page size: enough pages for every row and no empty last page |
| LegislationStore.CurrentPageWithinTotal | app/data/legislation_store.py:233-234 | an offset inside the results lies on a page between the first and total_pages |
| LegislationStore.NextOffsetIsNextPage | app/data/legislation_store.py:233-250 | following next_offset moves current_page on by exactly one |
| LegislationStore.ValidDateIff | app/data/legislation_store.py:71-90 | a date string is valid if and only if it has the four-two-two digit shape and names a real calendar date |
| LegislationStore.StrictDateIsLenientDate | app/data/legislation_store.py:82-87 | every date this check accepts, the strptime-only check of the base store (app/data/base_store.py:299-313) accepts too |
| LegislationStore.IsValidDateFormat | app/data/legislation_store.py:82-90 | a falsy value is invalid, a truthy non-string makes re.match raise, and a string is valid exactly when it is a valid date string |
| LegislationStore.ValidateLegislationId | app/data/legislation_store.py:92-105 | an id is accepted exactly when it is an int (bool included) above zero; otherwise the ValidationError names the id |
| LegislationStore.ValidateDateRange | app/data/legislation_store.py:107-139 | a range is accepted exactly when it is a dict, each truthy bound is a valid date, and when both are given the end does not sort before the start as strings |
| LegislationStore.RangeAcceptedIff | app/data/legislation_store.py:135-139 | two valid dates form an accepted range if and only if the end is not before the start |
| LegislationStore.RangeOrders | app/data/legislation_store.py:135-139 | a one-day range is accepted, and of two different valid dates exactly one order is accepted |
| LegislationStore.ValidateKeywordsFilter | app/data/legislation_store.py:141-152 | a keywords filter is accepted exactly when it is a list or a string |
| LegislationStore.ValidateSearchParams | app/data/legislation_store.py:154-179 | search parameters are accepted exactly when the query is a string, the filters a dict, a present keywords filter is accepted and a truthy date range is accepted; a non-string query is reported first |
| LegislationStore.StrippedStrs | app/data/legislation_store.py:564 | the keywords kept from a list are non-empty, already stripped, and never more than were given |
| LegislationStore.ParseKeywords | app/data/legislation_store.py:561-568 | keywords parse exactly when given as a string or a list, and every parsed keyword is non-empty and stripped |
| LegislationStore.KeywordsHaveNoComma | app/data/legislation_store.py:562 | keywords parsed from a string hold no comma |
| LegislationStore.SearchByKeywords | app/data/legislation_store.py:543-632 | bad pagination parameters are refused, and an answer's page info counts the same total as the answer |
| LegislationStore.BlankKeywordsAnswerEmpty | app/data/legislation_store.py:570-572 | with nothing to search for, the answer has no items and a zero count, whatever the database holds |
| LegislationStore.ById | app/data/legislation_store.py:784 | the records dict holds exactly the ids of the fetched records |
| LegislationStore.Reassemble | app/data/legislation_store.py:785 | the reassembled records are never more than the ranked ids |
| LegislationStore.ReassembleAppend | app/data/legislation_store.py:785 | reassembly works piecewise, so records keep the relative order of their ranked ids |
| LegislationStore.ReassembleAllFetched | app/data/legislation_store.py:775-785 | when every ranked id was fetched, the records come back one per id, in rank order |
| LegislationStore.MissingIdDropped | app/data/legislation_store.py:785 | a ranked id that was not fetched is dropped |
| AnalyticsStore.ValidateImpactType | app/data/analytics_store.py:25-39 | an impact type is accepted exactly when it is one of the five listed strings; otherwise the ValidationError names it and the list |
| AnalyticsStore.ValidateTimePeriod | app/data/analytics_store.py:41-55 | a time period is accepted exactly when it is one of the four listed strings; otherwise the ValidationError names it and the list |
| AnalyticsStore.ValidatePositiveInteger | app/data/analytics_store.py:392-404 | a value is accepted exactly when it is an int (bool included) above zero, and is then kept; otherwise the message names the parameter and the value |
| AnalyticsStore.ValidateNonNegativeInteger | app/data/analytics_store.py:406-418 | a value is accepted exactly when it is an int (bool included) of at least zero, and is then kept |
| AnalyticsStore.ValidateActivityParams | app/data/analytics_store.py:151-155 | get_recent_activity runs exactly when days and limit are positive ints and offset a non-negative int |
| AnalyticsStore.SortKey | app/data/analytics_store.py:277-284 | an item sorts by its non-empty introduced date, else by its update date |
| AnalyticsStore.InsertDesc | app/data/analytics_store.py:286 | inserting one item adds exactly that item and puts it or the old first item at the front |
| AnalyticsStore.SortActivity | app/data/analytics_store.py:286 | the sort is a permutation of the merged activity |
| AnalyticsStore.InsertDescKeepsOrder | app/data/analytics_store.py:286 | inserting into a newest-first list keeps it newest first |
| AnalyticsStore.WithKeyCons | app/data/analytics_store.py:286 | the items with a given key in a list are those of its head and of its tail, in order |
| AnalyticsStore.InsertDescStable | app/data/analytics_store.py:286 | an inserted item goes before every existing item with its key and keeps their order |
| AnalyticsStore.SortedDescending | app/data/analytics_store.py:286 | the sorted activity is in descending order of sort key |
| AnalyticsStore.SortedStable | app/data/analytics_store.py:286 | items with the same sort key keep their relative order, since list.sort is stable |
| AnalyticsStore.DescendingPairwise | app/data/analytics_store.py:286 | in the sorted activity no item's key is below that of any later item |
| AnalyticsStore.SliceBound | app/data/analytics_store.py:315 | a normalised slice bound lies within the list |
| AnalyticsStore.PySlice | app/data/analytics_store.py:315 | a Python slice never holds more items than the list |
| AnalyticsStore.WindowContents | app/data/analytics_store.py:310-315 | the page holds at most limit items, exactly the ones from offset on, and none when offset is past the end |
| AnalyticsStore.NegativeLimitCountsFromEnd | app/data/analytics_store.py:376-379 | a negative limit given to the mock window reaches back from the end, as Python's slice does |
| AnalyticsStore.NewActivities | app/data/analytics_store.py:245-258 | each row of the new-legislation query becomes one "new" item with its id, in order |
| AnalyticsStore.UpdatedActivities | app/data/analytics_store.py:260-273 | each row of the updated-legislation query becomes one "updated" item with its id, in order |
| AnalyticsStore.ByState | app/data/analytics_store.py:297-299 | by_state holds exactly the states of the rows, and a later row for a state overrides an earlier one |
| AnalyticsStore.MockItems | app/data/analytics_store.py:344-372 | the mock list has three items |
| AnalyticsStore.MockRecentActivity | app/data/analytics_store.py:329-390 | the mock answer reports the days asked, three items in total and the fixed stats (two new, one updated, one bill each in TX, CA and NY) |
| AnalyticsStore.GetRecentActivity | app/data/analytics_store.py:150-327 | an answer comes back exactly when the parameters validate, and it never lists more items than the limit |
| AnalyticsStore.WindowWithin | app/data/analytics_store.py:315 | the page holds nothing the sorted list does not |
| AnalyticsStore.WindowDescending | app/data/analytics_store.py:310-315 | a page of a newest-first list is newest first |
| AnalyticsStore.RecentActivityFromDb | app/data/analytics_store.py:186-324 | with database answers, the page is newest first, total_items counts every row of both queries, and the page is a window of the stable sort of them |
| AnalyticsStore.RecentActivityFallback | app/data/analytics_store.py:171-183 | without a database session, the answer is the mock list under the requested window, empty from offset 3 on |
| ApiUtils.PagesOf | app/api/utils.py:125-127 | the page size is at least 1 and at least the limit |
| ApiUtils.Links | app/api/utils.py:136-161 | the Link header lists two to four links, first at offset 0 and last at the last page's offset |
| ApiUtils.LinksOf | app/api/utils.py:141-158 | the links run first, the optional prev and next, then last |
| ApiUtils.PrevIffPastFirstPage | app/api/utils.py:142-146 | there is a prev link exactly when the offset lies past the first page |
| ApiUtils.AlignedNextIffMore | app/api/utils.py:148-152 | on a page-aligned offset the next link exists exactly when items lie past the current page, and it points at the following page |
| ApiUtils.LastPageHoldsItems | app/api/utils.py:154-158 | with items present, the last link points at a page that holds the final item |
| ApiUtils.Assignments | app/api/utils.py:139 | the query string has one assignment per parameter |
| ApiUtils.RenderLinks | app/api/utils.py:140-158 | each link is rendered once, in order |
| ApiUtils.GetPaginationHeader | app/api/utils.py:130-161 | after the five writes, each pagination header holds its computed value and every other header is as it was |
| ApiUtils.HeadersCarryCounts | app/api/utils.py:130-133 | each count header carries its number as decimal text, and other headers are kept |
| ApiUtils.SetOverwrites | app/api/utils.py:144-156 | writing the same key twice keeps only the second value |
| ApiUtils.Response.constructor | app/api/utils.py:110 | a response starts with the headers it is given |
| ApiUtils.AddPaginationHeaders | app/api/utils.py:110-161 | the response's headers become the specification PaginationHeaders of the old headers, the URL and the counts |
| ApiUtils.RenderOptLink | app/api/utils.py:143-152 | an absent prev or next link renders nothing and a present one renders one link |
| ApiUtils.RenderLinksConcat | app/api/utils.py:161 | rendering a joined link list renders each part in turn |
| ApiUtils.RenderLinksParts | app/api/utils.py:141-158 | the links rendered from the merged parameters are first, the optional prev and next, then last |
| ApiUtils.RenderFromRewritten | app/api/utils.py:144-156 | rewriting "offset" before rendering a link gives the link rendered from the merged parameters |
| ApiUtils.LinkStringsRenderLinks | app/api/utils.py:136-158 | rewriting one parameter dict link by link renders each link as if from fresh merged parameters |
| ApiUtils.OffsetsFromPages | app/api/utils.py:142-155 | the prev, next and last offsets follow from current_page and total_pages as the source computes them |
| ApiUtils.BuildLinks | app/api/utils.py:136-158 | the step-by-step rewriting of one parameter dict returns exactly the specification links (prev, next and last offsets) for the counts |
| ApiUtils.ValidateEnumParameter | app/api/utils.py:163-166 | a value passes exactly when it is falsy or a string among the enum's values; otherwise "Invalid <name>: <value>" |
| ApiUtils.NonStringEnumRefused | app/api/utils.py:165 | a truthy value that is not a string is always refused |
| ApiUtils.StrValues | app/api/utils.py:190 | each keyword becomes one string value, in order |
| ApiUtils.WriteAllGetOther | app/api/utils.py:181-196 | a key none of the writes names keeps its value |
| ApiUtils.WriteAllGetAt | app/api/utils.py:181-196 | with distinct keys, each key holds its value exactly when its write was made |
| ApiUtils.FilterWrites | app/api/utils.py:181-196 | the filter builder writes seven distinct keys |
| ApiUtils.TexasFilters | app/api/utils.py:177-198 | building the filters fails exactly when keywords are truthy but not a string (split needs a string) |
| ApiUtils.TexasFiltersValues | app/api/utils.py:181-196 | each argument is stored unchanged under its own key exactly when it is truthy (relevance_threshold whenever it is not None), and keywords are stored split at commas |
| ApiUtils.TexasFiltersNoOtherKey | app/api/utils.py:179-198 | the filters hold no key besides the seven argument names |
| ApiUtils.FilterKeywordsClean | app/api/utils.py:190 | every stored keyword is non-empty, stripped and free of commas |
| ApiUtils.ListResponseOf | app/api/utils.py:214-223 | the body counts its items, carries the total, and has_more says whether rows lie past the items |
| ApiUtils.HasMoreIffRowsPastPage | app/api/utils.py:221 | on a page as full as it can be, has_more holds exactly when rows lie past the page |
| ApiUtils.HasMoreIffNextLink | app/api/utils.py:148-152 | on a full, page-aligned page, has_more holds exactly when the Link header carries a next link |
| ApiUtils.GetPaginatedLegislationResponse | app/api/utils.py:200-223 | the count and the page are taken with `filters or {}`, the headers are those of AddPaginationHeaders for that count, and the body is ListResponseOf the page |
| RateLimiting.Check | app/api/middleware.py:62-86 | remaining and retry_after are never negative; a refused request leaves the bucket as it was with nothing remaining, and an admitted one stores the remaining tokens, fewer than the rate, with no wait |
| RateLimiting.CheckRefills | app/api/middleware.py:66-86 | the refill is capped at the rate, a request is refused exactly when no token is left after the refill, and the refill time moves to now only when tokens were refilled |
| RateLimiting.NewClientAdmitted | app/api/middleware.py:66-68 | a client's first request is admitted with rate - 1 tokens left whenever the rate is positive |
| RateLimiting.RetryWithinWindow | app/api/middleware.py:82-83 | a refused client is never told to wait more than one window |
| RateLimiting.RefillAtLeastRate | app/api/middleware.py:73 | a whole window's elapsed time refills at least the rate |
| RateLimiting.RefillAfterWindow | app/api/middleware.py:72-86 | after a whole window without requests the bucket is full again and the request is admitted |
| RateLimiting.BurstDrains | app/api/middleware.py:82-86 | a bucket refilled at this instant admits exactly its tokens, each request taking one, and then refuses for a whole window |
| RateLimiting.RateLimiter.constructor | app/api/middleware.py:39-50 | a new limiter keeps its rate and window and knows no client |
| RateLimiting.RateLimiter.IsRateLimited | app/api/middleware.py:52-86 | the answer is Check of the client's bucket (a full one for a new client), and an admitted request's bucket is stored back; a refusal stores nothing new |
| RateLimiting.FirstMatch | app/api/middleware.py:113-117 | the endpoint found is one of the table whose key the path starts with, and none is found only when no key is a prefix |
| RateLimiting.FirstMatchIsFirst | app/api/middleware.py:114-117 | the endpoint found is the first one, in table order, that the path starts with |
| RateLimiting.LongestMatch | app/api/middleware.py:113-117 | the corrected match is the endpoint with the longest key the path starts with |
| RateLimiting.PublicEndpointsUsable | app/api/middleware.py:95-106 | every endpoint key is non-empty and every limit in the table is positive |
| RateLimiting.FreshDispatchNeverLimits | app/api/middleware.py:127-131 | as written, every request is admitted (or not limited at all), with one token taken from a full bucket, whatever came before |
| RateLimiting.SearchEntryShadowed | app/api/middleware.py:113-117 | as written, a /legislation/search path takes the /legislation limit of 100, so its own entry of 50 is never used |
| RateLimiting.SearchEntryUsed | app/api/middleware.py:97-98 | with the longest match, /legislation/search paths get their own limit of 50 |
| RateLimiting.LongEndpointsFromSearch | app/api/middleware.py:95-106 | the only table key of 19 characters or more that a search path can start with is /legislation/search |
| RateLimiting.RateLimitMiddleware.constructor | app/api/middleware.py:92-106 | the middleware starts with the ten public endpoints and no buckets |
| RateLimiting.RateLimitMiddleware.MatchingEndpoint | app/api/middleware.py:113-117 | the loop over the table returns exactly FirstMatch |
| RateLimiting.RateLimitMiddleware.Dispatch | app/api/middleware.py:108-154 | as written, the outcome is that of a fresh limiter for the first matching limit |
| RateLimiting.RateLimitMiddleware.DispatchShared | app/api/middleware.py:108-154 | the corrected dispatch picks the longest matching prefix and keeps one bucket per endpoint and client across requests |
| RateLimiting.SharedDispatchRefusesDrained | app/api/middleware.py:133-146 | with shared buckets, a client that has drained an endpoint's tokens in this instant is refused with 429 and told to retry after 60 seconds |
| RateLimiting.InWindow | app/api/middleware.py:550 | the pruned log keeps exactly the requests at or after the window start, never more than there were |
| RateLimiting.SlidingCheckAdmits | app/api/middleware.py:541-558 | a request is admitted exactly when its key is new or fewer than limit of its requests lie in the window; the logs stay bounded by the limit, hold only in-window times, and an admitted request is logged last |
| RateLimiting.Remaining | app/api/middleware.py:576 | the remaining count lies between 0 and the limit |
| RateLimiting.FullWindowRefused | app/api/middleware.py:553-558 | a key whose window is full is refused, and only the pruning changes its log |
| RateLimiting.SimpleRateLimiter.constructor | app/api/middleware.py:536-539 | a new limiter keeps its limit and window and has no log |
| RateLimiting.SimpleRateLimiter.Check | app/api/middleware.py:541-558 | the answer and the new logs are those of the specification SlidingCheck |
| RateLimiting.SimpleRateLimiter.GetHeaders | app/api/middleware.py:560-581 | the headers carry the limit, the remaining count and the end of the window |
| Caching.OperationsKeepTtlTracked | app/api/middleware.py:169-223 | get, set and delete each keep every expiry attached to a cached key |
| Caching.GetWithinTtl | app/api/middleware.py:179-190 | within its TTL a stored value is returned and the cache is unchanged |
| Caching.GetPastTtl | app/api/middleware.py:183-188 | past its TTL a stored value is gone, and get removes it from both dicts |
| Caching.GetAfterDelete | app/api/middleware.py:206-217 | after delete, get finds nothing |
| Caching.StaleExpiryDropsValue | app/api/middleware.py:201-204 | as written, set with a TTL of zero or less keeps an earlier expiry, so once that time has passed the new value is dropped at the next get |
| Caching.NoExpiryKeepsValue | app/api/middleware.py:192-204 | with the corrected set, a value stored without expiry is returned at any later time, and expiries stay attached to cached keys |
| Caching.SetVersionsAgree | app/api/middleware.py:203-204 | for a positive TTL, the only kind the middleware passes, both versions of set agree |
| Caching.CacheManager.constructor | app/api/middleware.py:164-167 | a new cache manager has no entries and no expiries |
| Caching.CacheManager.Get | app/api/middleware.py:169-190 | the value and the new dicts are those of the specification CacheGet |
| Caching.CacheManager.Set | app/api/middleware.py:192-204 | the new dicts are those of the specification CacheSet, as written |
| Caching.CacheManager.Delete | app/api/middleware.py:206-217 | the key leaves both dicts and nothing else changes |
| Caching.CacheManager.Clear | app/api/middleware.py:219-223 | both dicts are empty afterwards |
| Caching.SimpleGetAfterSet | app/api/middleware.py:512-525 | a stored value is returned exactly until its expiry (the TTL given, or the default), and after that it is gone and removed |
| Caching.SimpleCache.constructor | app/api/middleware.py:508-510 | a new SimpleCache keeps its default TTL and holds nothing |
| Caching.SimpleCache.Get | app/api/middleware.py:512-520 | the value and the new entries are those of the specification SimpleGet |
| Caching.SimpleCache.Set | app/api/middleware.py:522-525 | the new entries are those of the specification SimpleSet |
| Caching.SimpleCache.Delete | app/api/middleware.py:527-530 | the key is removed and nothing else changes |
| Caching.CacheTtl | app/api/middleware.py:366-378 | the TTL is positive: 3600 exactly for a /legislation/ path without "search", 300 exactly for other paths with "/search/", 600 otherwise |
| Caching.LegislationSearchTtl | app/api/middleware.py:370-376 | the /legislation/search path gets neither the detail TTL nor the search TTL but the default 600 |
| Caching.FromCacheData | app/api/middleware.py:284-290 | a stored response comes back with its status, headers, body and media type, marked X-Cache HIT |
| Caching.NonGetPassesThrough | app/api/middleware.py:250-252 | a request other than GET is answered without touching the cache |
| Caching.ErrorsNotStored | app/api/middleware.py:265-267 | an error answer is passed on marked BYPASS and nothing is stored |
| Caching.MissThenHit | app/api/middleware.py:245-338 | a cacheable GET answer is stored on a miss and served from the cache, marked HIT, to the same request until its TTL has passed |
| Caching.CacheMiddleware.constructor | app/api/middleware.py:240-243 | the middleware keeps the cache manager it is given |
| Caching.CacheMiddleware.Dispatch | app/api/middleware.py:245-270 | the response and the new cache are those of the specification CacheStep |
| Caching.InvalidateCache | app/api/middleware.py:470-482 | whatever the prefix, the whole cache is cleared |
| ApiModels.ValidateStringList | app/api/models.py:240-245 | a preference list is accepted exactly when every item is non-blank after stripping, and it comes back item by item stripped; otherwise the fixed error message |
| ApiModels.StringListIdempotent | app/api/models.py:240-245 | a list that passed validation passes again and comes back unchanged |
| ApiModels.StartsWithAny | app/api/models.py:286-287 | true exactly when some listed prefix is a prefix of the name |
| ApiModels.ValidateModelName | app/api/models.py:318-325 | a model name is accepted exactly when it is absent or some allowed name is a prefix of it (a listed name being its own prefix); refusal carries the name and the allowed list |
| ApiModels.AnyGpt4VariantAccepted | app/api/models.py:282-289 | every name beginning with "gpt-4" is accepted, whatever follows |
| ApiModels.ShortModelNameRefused | app/api/models.py:282-289 | "gpt-3.5", a shortening of a listed model, is refused |
| ApiModels.FirstOutside | app/api/models.py:312-315 | the position of the first value (lower-cased when asked) outside the allowed list: all before it are allowed and it, when inside the list's bounds, is not |
| ApiModels.ValidateFocusAreas | app/api/models.py:307-316 | focus areas are accepted exactly when every area, lower-cased, is a known area; otherwise the first offending area, as given, is named |
| ApiModels.FocusAreasIgnoreCase | app/api/models.py:307-316 | lower-casing every area never changes whether the list is accepted |
| ApiModels.ValidateIsoDate | app/api/models.py:340-359 | a DateRange date is accepted, unchanged, exactly when it has the shape dddd-dd-dd and names a real calendar date |
| ApiModels.ValidateDateRange | app/api/models.py:340-359 | a range has no error exactly when both dates are accepted and end_date is not below start_date in string order |
| ApiModels.StrLessConcat | app/api/models.py:346-350 | string order on two concatenations with equal-length heads compares the heads, then the tails |
| ApiModels.DigitsValueBound | app/api/models.py:342-343 | a string of n digits is worth less than 10^n |
| ApiModels.FirstDigitDecides | app/api/models.py:346-350 | between digit strings of one length, a smaller first digit gives the smaller number |
| ApiModels.DigitsOrder | app/api/models.py:346-350 | between digit strings of one length, string order is numeric order and equal strings are equal numbers |
| ApiModels.IsoOrderIsDateOrder | app/api/models.py:346-350 | between strings of the date pattern, string order is calendar order |
| ApiModels.DateRangeChronological | app/api/models.py:340-359 | two valid dates form a valid range exactly when the end is not an earlier day than the start |
| ApiModels.SameDayRange | app/api/models.py:346-350 | a range may start and end on the same day, although the message says "after" |
| ApiModels.ValidateEnumList | app/api/models.py:370-408 | a filter list is accepted exactly when every value belongs to its enum; otherwise the first value outside it is named with the allowed values |
| ApiModels.FilterErrors | app/api/models.py:370-408 | the search filters produce no error exactly when each of the four lists is absent or wholly inside its enum, and at most one error per list |
| ApiModels.SearchQueryErrors | app/api/models.py:426-442 | a search query has no error exactly when sort_by is one of the six fields, sort_dir is asc or desc, limit lies in 1..100 and offset is not negative |
| ApiModels.SearchQueryDefaultsValid | app/api/models.py:426-442 | the default query (relevance, desc, 50, 0) is valid |
| ApiModels.ValidatePriority | app/api/models.py:469-495 | a priority payload is accepted, unchanged, exactly when every given score lies in 0..100 and at least one field is given; a refusal carries at least one error |
| ApiModels.IsoDate | app/api/models.py:154-155 | the ISO date of a real date has ten characters |
| ApiModels.IsoMidnight | app/api/models.py:154-155 | the ISO datetime of midnight contains 'T', so it is never rewritten again |
| ApiModels.NormalizeDateValueIdempotent | app/api/models.py:145-158 | rewriting a date field's value twice gives the same as once |
| ApiModels.DateOnlyBecomesMidnight | app/api/models.py:150-155 | a parseable date-only string becomes midnight of that same date, and the date part parses back to the date |
| ApiModels.IsoDateParses | app/api/models.py:154-155 | the ISO date written for a date parses back with "%Y-%m-%d" to that date |
| ApiModels.GetNormalizeDates | app/api/models.py:145-158 | rewriting the date fields keeps every key and changes only the listed fields' values, each to its rewritten value |
| ApiModels.AtDates | app/api/models.py:145-158 | after the date rewrite a date field holds its rewritten value |
| ApiModels.LastUpdatedFrame | app/api/models.py:160-165 | the last_updated step changes no other key |
| ApiModels.JurisdictionFrame | app/api/models.py:167-172 | the jurisdiction step changes no other key |
| ApiModels.BillStatusFrame | app/api/models.py:174-176 | the bill_status step changes no other key |
| ApiModels.LatestTextFrame | app/api/models.py:178-183 | the latest_text step changes no other key |
| ApiModels.StagesOf | app/api/models.py:131-185 | the staged intermediate dicts end in the normalized result |
| ApiModels.OutFrame | app/api/models.py:160-185 | a key no fill step writes keeps its value from the date rewrite to the result |
| ApiModels.NormalizeDataOtherKeys | app/api/models.py:131-185 | apart from the four filled keys, every key is present in the result exactly when it was in the input, with its value rewritten only when it is a date field |
| ApiModels.LastUpdatedFromDates | app/api/models.py:160-165 | on the date-rewritten dict, a missing last_updated is filled from a truthy updated_at, else a truthy created_at, else stays missing |
| ApiModels.LastUpdatedFallback | app/api/models.py:160-165 | in the result, a last_updated missing from the input is the (rewritten) updated_at when truthy, else the created_at when truthy |
| ApiModels.DatesNamed | app/api/models.py:140-143 | created_at, updated_at and last_updated are among the date fields |
| ApiModels.FillKeysNotDates | app/api/models.py:140-143 | none of the keys the fill steps read or write besides those is a date field |
| ApiModels.PlainKeyFrame | app/api/models.py:145-172 | a key that is not a date field keeps its value through the date rewrite and the first two fill steps |
| ApiModels.JurisdictionFallback | app/api/models.py:167-172 | in the result, a jurisdiction missing from the input is govt_source when truthy, else state when truthy |
| ApiModels.BillStatusFromStatus | app/api/models.py:174-176 | in the result, a bill_status missing from the input is copied from status, and stays missing without one |
| ApiModels.LatestTextFilled | app/api/models.py:178-183 | a latest_text dict with text_content and no text gets text copied from text_content; any other latest_text is kept |
| ApiModels.LastUpdatedKeepsKeys | app/api/models.py:160-165 | the last_updated step removes no key |
| ApiModels.JurisdictionKeepsKeys | app/api/models.py:167-172 | the jurisdiction step removes no key |
| ApiModels.BillStatusKeepsKeys | app/api/models.py:174-176 | the bill_status step removes no key |
| ApiModels.LatestTextKeepsKeys | app/api/models.py:178-183 | the latest_text step removes no key |
| ApiModels.NormalizeDataKeepsKeys | app/api/models.py:131-185 | every key of the input is a key of the result |
| ApiModels.NormalizeDatesFixed | app/api/models.py:145-158 | a dict whose date fields need no rewriting passes through the date rewrite unchanged |
| ApiModels.OutDatesFixed | app/api/models.py:145-185 | the result's date fields need no further rewriting |
| ApiModels.WithTextHasText | app/api/models.py:181-183 | a filled latest_text needs no further filling |
| ApiModels.DatesSettled | app/api/models.py:145-158 | the date rewrite leaves the result unchanged |
| ApiModels.AtOutDated | app/api/models.py:160-185 | a key no fill step writes holds in the result its value after the date rewrite |
| ApiModels.LastUpdatedSettled | app/api/models.py:160-165 | the last_updated step leaves the result unchanged |
| ApiModels.JurisdictionSettled | app/api/models.py:167-172 | the jurisdiction step leaves the result unchanged |
| ApiModels.BillStatusSettled | app/api/models.py:174-176 | the bill_status step leaves the result unchanged |
| ApiModels.LatestTextSettled | app/api/models.py:178-183 | the latest_text step leaves the result unchanged |
| ApiModels.NormalizeDataIdempotent | app/api/models.py:131-185 | normalize_data is idempotent: a normalized dict passes through unchanged |
| ApiModels.InputChangedAsWritten | app/api/models.py:136-137 | as written, the shallow dict copy shares the nested latest_text dict, so filling its text changes the caller's input |
| ApiModels.NormalizeDataCopying | app/api/models.py:136-137 | with a deep copy the caller's dict is returned as it was |
| ApiModels.CopyingAgrees | app/api/models.py:131-185 | the deep copy gives the same normalized dict, and changes nothing at all when latest_text needs no filling |
| ContentModels.StoreContent | app/models/base.py:58-95 | set_content_field succeeds exactly for None, a str or bytes; it stores the content as given with the binary flag set exactly for bytes; any other type is the TypeError naming the type |
| ContentModels.MetadataSize | app/models/base.py:70-91 | the metadata's size_bytes is the UTF-8 length of a str and the length of bytes |
| ContentModels.ContentOf | app/models/legislation_models.py:207-243 | get_content returns bytes exactly when the row is flagged binary and text otherwise |
| ContentModels.StoreThenRead | app/models/legislation_models.py:193-243 | content stored with set_content is read back by get_content as it went in, None reading back as "" |
| ContentModels.BindParam | app/models/base.py:118-147 | None binds as None; any other value binds as bytes on PostgreSQL and as text on other dialects |
| ContentModels.ResultValue | app/models/base.py:149-152 | a stored value is handed back as it is |
| ContentModels.LiteralParam | app/models/base.py:154-157 | a SQL literal is converted exactly as a bind parameter is |
| ContentModels.PostgresRoundTrip | app/models/base.py:118-152 | on PostgreSQL, a str or bytes stored with set_content comes back from get_content unchanged after the bind and result conversions |
| ContentModels.OtherDialectLosesBytes | app/models/base.py:135-141 | on another dialect the byte 0xFF, flagged binary, comes back as b"": the replacement character cannot be latin-1 encoded |
| ContentModels.LegislationText.constructor | app/models/legislation_models.py:161-179 | a new text row has no content, is not binary and has no metadata, media type or size |
| ContentModels.LegislationText.SetContent | app/models/legislation_models.py:193-205 | set_content stores as set_content_field does, then sets "text/plain" and the UTF-8 length for a str, the sniffed type and the length for bytes, clears the type for None and keeps the size; a refused type changes nothing |
| ContentModels.LegislationText.GetContent | app/models/legislation_models.py:207-243 | the value read is the one get_content's rules give for the stored content and flag |
| ContentModels.Amendment.constructor | app/models/legislation_models.py:317-343 | a new amendment has no text, is not binary and has no metadata |
| ContentModels.Amendment.SetAmendmentText | app/models/legislation_models.py:352-355 | set_amendment_text stores in the amendment's columns what set_content_field gives, and a refused type changes nothing |
| ContentModels.LatestIndex | app/models/legislation_models.py:86-96 | the element sorted(...)[-1] yields has a largest version, and no later element has that version |
| ContentModels.Versions | app/models/legislation_models.py:86-96 | the sort keys are the rows' versions, in row order |
| ContentModels.Latest | app/models/legislation_models.py:86-96 | latest_analysis and latest_text are None exactly for no rows, else a row with the largest version |
| ContentModels.NewVersionIsLatest | app/models/legislation_models.py:86-96 | a row added with a version above every other becomes the latest |
| ContentModels.LatestUnique | app/models/legislation_models.py:86-96 | with unique versions, the latest is the one row holding the largest version |
| ContentModels.ValidateNonBlank | app/models/legislation_models.py:98-102 | a title or sponsor name is accepted, unchanged, exactly when it is a str that is not blank after stripping; a falsy or blank str gets the field's ValueError |
| ContentModels.ValidateRequiredField | app/models/legislation_models.py:450-454 | a requirement type or description is accepted, unchanged, exactly when it is truthy and its str() is not blank |
| ContentModels.ValidatePositiveInt | app/models/legislation_models.py:154-158 | an analysis or text version is accepted, unchanged, exactly when it is a positive int (True counting as 1); otherwise the field's ValueError |
| ContentModels.ValidateScore | app/models/legislation_models.py:391-398 | a priority score is accepted exactly when it is None (stored as 0), an int in 0..100 or a bool; otherwise the field's ValueError |
| ContentModels.ValidateConfidence | app/models/legislation_models.py:422-428 | a confidence score is accepted exactly when it is None or a number in [0, 1], and kept as given |
| ContentModels.InsertUnique | app/models/legislation_models.py:150-152 | an insert under a unique constraint succeeds exactly when the key is not yet taken, appending it |
| ContentModels.InsertKeepsUnique | app/models/legislation_models.py:183-185 | inserting under a unique constraint keeps the keys unique |
| ContentModels.LatestAnalysisUnique | app/models/legislation_models.py:86-90 | under unique_analysis_version, a bill's analysis holding the largest version is its latest_analysis |
| Congress.MakeRequest | congress_api.py:21-50 | no API key is the ValueError; a 404 answer is {}; any other 4xx or 5xx answer and a failed request are raised; every other answer gives its JSON body; the later client (PolicyPulseNew/congress_api.py:25-56) wraps requests the same way |
| Congress.RequestParams | congress_api.py:30-32 | the query parameters always carry api_key and format |
| Congress.RequestParamsValues | congress_api.py:30-32 | format is "json", api_key is the key, and every other parameter is sent as the caller gave it |
| Congress.ThrottleSleep | congress_api.py:25-28 | the pause is never negative and makes at least the configured delay separate two requests, pausing not at all once the delay has passed |
| Congress.CongressNumber | congress_api.py:55-56 | the congress number of a year is the Congress whose two calendar years contain it; the later client (PolicyPulseNew/congress_api.py:64) uses the same formula |
| Congress.CongressOfYear | congress_api.py:55-56 | a year gets number n exactly when it is the first or second year of Congress n |
| Congress.Congress2025 | congress_api.py:55-56 | 2025 and 2026 belong to the 119th Congress and 2027 to the 120th |
| Congress.FirstLine | congress_api.py:223 | the first line is the longest prefix of the summary without a newline |
| Congress.SummaryLine | congress_api.py:222-224 | the summary is the first line when at most 300 characters, else its first 300 characters followed by "..."; never a newline and at most 303 characters |
| Congress.SponsorNames | congress_api.py:210-216 | the sponsor list holds only truthy names: all of them, in order, when every sponsor is a dict with a name, none when no sponsor is |
| Congress.TypeText | congress_api.py:192 | the type text read by a formatter is wholly upper-case when upper-cased and wholly lower-case when lower-cased |
| Congress.FirstSummaryLine | congress_api.py:218-224 | the summary taken from the first summary is a single line of at most 303 characters |
| Congress.FormatBillDataWith | congress_api.py:187-231 | on well-shaped details _format_bill_data succeeds; a formatted bill keeps the raw response and the title, has an upper-case type, truthy sponsor names and a one-line summary of at most 303 characters |
| Congress.FormatBill | congress_api.py:429-458 | _format_bill gives a lower-case type and only truthy sponsor names |
| Congress.SummaryFallback | congress_api.py:451-458 | without a summaries list, _format_bill takes the bill's own truthy summary as it is |
| Congress.TypeTextAgree | congress_api.py:192 | upper-casing the type as _format_bill lower-cases it gives the type _format_bill_data produces |
| Congress.FormattersAgree | congress_api.py:187-231 | on well-shaped details whose summary comes from the summaries list, _format_bill and _format_bill_data agree on every shared field, the type differing only in case |
| Congress.ProcessBill | congress_api.py:93-137 | a bill is appended only when its congress, type and number are all present, it is not already tracked, and the formatted bill has a title and a number |
| Congress.FetchBatch | congress_api.py:92-140 | the batch yields at most one bill per listed bill, each with a title and a number |
| Congress.BillDicts | congress_api.py:124-128 | the returned dicts are the formatted bills, one per bill, in order |
| Congress.AbortSticks | congress_api.py:136-146 | once a bill ends the whole call, the bills after it change nothing |
| Congress.SkipsUnidentified | congress_api.py:98-100 | a bill missing congress, type or number adds nothing to the result |
| Congress.NonDictBillEmptiesBatch | congress_api.py:136-146 | a listed bill that is not a dict makes the whole call return [] |
| Congress.FetchNewLegislation | congress_api.py:74-146 | the loop over the listed bills returns exactly the specification batch, or [] when the batch ends the call |
| Congress.ScanFormatsFound | congress_api.py:246-258 | a text found in one version's formats was served by one of its entries |
| Congress.ScanVersionsFound | congress_api.py:245-258 | a text found across versions was served by some entry of some version |
| Congress.ScanFormatsExhausted | congress_api.py:246-251 | a first pass over one version that finds nothing saw no Formatted Text entry serve a text |
| Congress.ScanVersionsExhausted | congress_api.py:245-251 | a first pass across versions that finds nothing saw no Formatted Text entry anywhere serve a text |
| Congress.ScanFormatsNoFailure | congress_api.py:246-258 | a pass over one version cannot fail when every Formatted Text has a url and no fetch raises |
| Congress.ScanVersionsNoFailure | congress_api.py:245-258 | a pass across versions cannot fail under the same condition |
| Congress.BillTextServed | congress_api.py:233-262 | any text get_bill_text returns was served by one of the listed entries |
| Congress.FormattedTextPreferred | congress_api.py:244-258 | when some Formatted Text entry of any version serves a text and nothing fails, the text returned is a Formatted Text, even when an earlier version has another format |
| Congress.FallbackOnlyWithoutFormattedText | congress_api.py:252-258 | the any-url pass decides the result only when no Formatted Text entry serves a text |
| Congress.ScanPass | congress_api.py:245-258 | the two nested loops of a pass, returning at the first text, compute exactly the specification pass |
| Congress.GetBillText | congress_api.py:233-262 | get_bill_text's two passes return exactly the specification text |
| Congress.AnyKeyword | congress_api.py:424 | a title matches exactly when some keyword, lower-cased, occurs in it |
| Congress.KeywordCaseIgnored | congress_api.py:423-424 | a keyword and its lower-case form match the same titles |
| Congress.EmptyKeywordMatchesAll | congress_api.py:424 | an empty keyword matches every title |
| Congress.MatchingBills | congress_api.py:419-427 | check_updates fetches full data for at most one entry per new bill |
| Congress.NonMatchingSkipped | congress_api.py:422-426 | a bill whose title contains no keyword is not fetched again and adds nothing |
| Congress.NoKeywordsNoMatches | congress_api.py:422-426 | with no keywords no bill matches |
| Congress.CheckUpdates | congress_api.py:419-427 | the loop over the new bills returns exactly the specification list of matching bills |
| Congress.MatchingErrorSticks | congress_api.py:419-427 | the first error raised in the loop is the error of the whole call |
| CongressNew.NullTypeTolerated | PolicyPulseNew/congress_api.py:204-209 | a null bill type is where the copies part: the earlier _format_bill_data fails and gives {}, the later one formats it with type "" |
| CongressNew.EnrolledIndex | PolicyPulseNew/congress_api.py:267-270 | the position of the first "Enrolled Bill" version: none before it is enrolled, and it is when it exists |
| CongressNew.ChosenVersion | PolicyPulseNew/congress_api.py:266-271 | the version read is one of the versions, and the first one when none is enrolled |
| CongressNew.FirstEnrolledChosen | PolicyPulseNew/congress_api.py:266-271 | the first enrolled version is chosen, wherever it stands in the list |
| CongressNew.LastUrl | PolicyPulseNew/congress_api.py:275-279 | a type has a url exactly when some entry with both a type and a url has that type |
| CongressNew.FormatsOfGet | PolicyPulseNew/congress_api.py:273-279 | formats maps a type to the url of the last entry of that type that has both, and holds no other type |
| CongressNew.LastUrlIsLast | PolicyPulseNew/congress_api.py:275-279 | the last listed entry of a type gives that type's url |
| CongressNew.FirstTextIsFirstDelivered | PolicyPulseNew/congress_api.py:280-284 | the text is the one served by the first Formatted Text entry whose fetch answers ok |
| CongressNew.NoTextWithoutDelivery | PolicyPulseNew/congress_api.py:280-284 | the text stays None exactly when no Formatted Text entry serves one |
| CongressNew.GetBillTextAndFormats | PolicyPulseNew/congress_api.py:252-291 | the loop over the chosen version's formats gives exactly the specification text and formats, {"text": None, "formats": {}} without text versions |
| CongressNew.LawTypeOf | PolicyPulseNew/congress_api.py:1696-1697 | the law type is "private" exactly when isPrivate is truthy, and none exactly when isPrivate is absent or null |
| CongressNew.HistoryOf | PolicyPulseNew/congress_api.py:1709-1723 | the progression history has one entry per action when every action is a dict |
| CongressNew.TrackBillToLaw | PolicyPulseNew/congress_api.py:1685-1728 | no bill details gives "Bill not found"; otherwise the details are kept, became_law is bool(law_info), and a law is found only with a law type and a truthy lawNumber, from the law endpoint |
| CongressNew.NoLawWithoutIsPrivate | PolicyPulseNew/congress_api.py:1696-1704 | a bill without isPrivate never counts as law, whatever the law endpoint would answer |
| CongressNew.LawDicts | PolicyPulseNew/congress_api.py:1532-1544 | one formatted-law dict per record |
| CongressNew.FormatLaw | PolicyPulseNew/congress_api.py:1527-1544 | a formatted law keeps the bill as raw response, the law's type and number, an upper-case bill type, and the text and formats fetched for that bill |
| CongressNew.LawRecords | PolicyPulseNew/congress_api.py:1525-1598 | a bill's laws yield at most one record each, only those the database stored, each carrying the bill |
| CongressNew.RecentLaws | PolicyPulseNew/congress_api.py:1522-1600 | get_recent_laws returns only records the database stored |
| CongressNew.BillWithoutLawsAddsNothing | PolicyPulseNew/congress_api.py:1525 | a bill without "laws" adds no record |
| CongressNew.LawAbortSticks | PolicyPulseNew/congress_api.py:1602-1604 | once a law of a bill ends the call, the later laws change nothing |
| CongressNew.RecentAbortSticks | PolicyPulseNew/congress_api.py:1602-1604 | once a bill ends the call, the later bills change nothing |
| CongressNew.LawDictsConcat | PolicyPulseNew/congress_api.py:1594 | the dicts of two runs of records are the dicts of each, one after the other |
| CongressNew.BillLaws | PolicyPulseNew/congress_api.py:1526-1598 | the inner loop over one bill's laws gives exactly the specification records |
| CongressNew.GetRecentLaws | PolicyPulseNew/congress_api.py:1505-1604 | the nested loops over bills and laws return exactly the specification records' dicts, and [] when the call ends in its handler |

## Left out

- The OpenAI, LegiScan, Congress.gov, SMTP and database clients are not modelled. Their answers are oracle parameters of the functions that use them: a text analyser, a search, a fetch, a connection attempt, a lookup.
- SQL queries are oracles: `apply_relevance_filter`, `get_relevant_texas_legislation`, `get_impact_summary`, `search_legislation_advanced` and the ranked-id query of the keyword search. The model covers the Python code around them.
- Floating-point scoring is not modelled. This covers `impact_analysis.py` and `calculate_priority_scores` with its multipliers and `int` truncation.
- The characters-per-token ratios of the fallback slicing in chunking.py are not modelled. They become a slice-width parameter.
- Time is a whole number of seconds. The middleware's float timestamps and the analysis cache's `datetime` ages are modelled at that resolution.
- The TTL caches and rate limiters are not guarded by their `asyncio.Lock`. The model is sequential, and `asyncio.gather` and the semaphore become ordered loops.
- The threaded file save in structured_analysis.py is not modelled.
- Library parsing is abstracted as oracles or predicates:
  - JSON decoding and the regex backtracking of `_extract_json_from_text`;
  - BeautifulSoup in `strip_html_tags`;
  - PyPDF2 and pdfminer extraction;
  - the section-pattern scan of the chunker.
- `datetime.strptime` is modelled for the "%Y-%m-%d" format only.
- `\w`, `str.lower` and `str.upper` are modelled on ASCII letters only. Other letters keep their case.
- Base64 decoding in `decode_bill_text` is modelled for well-formed input. The non-strict decoder's handling of stray characters is not.
- Merged sets are ordered by first occurrence. Python's set iteration order is not modelled.
- `merge_analyses` takes its inputs as schema-shaped dicts: a summary is a string or absent, key points are a list of dicts, and so on. A summary that is present but null or not a string, for which `_merge_summary` raises TypeError (app/ai_analysis/utils.py:500-503), is not modelled.
- The shallow copies in `merge_analyses` are not modelled. Aliasing between the merged result and its inputs is left out.
- Pydantic validators are modelled as they run on supplied values. Field defaults are not validated, and the order pydantic reports errors in is field order.
- `AnalysisRequestAPI.validate_input` (app/api/models.py:207-211) is not modelled. It reads the other fields through its `values` parameter, which pydantic 2 passes as a `ValidationInfo` object. How `in` behaves on that object is library behaviour outside the model.
- ApiModels.ValidateDateRange: treats `values` in `end_date_must_be_after_start_date` as the dict of fields that validated before end_date. Under pydantic 2 it is a `ValidationInfo` object, as for `validate_input`.
- `normalize_data` is not modelled for `datetime` values, which become `isoformat()` strings. The model's values have no datetime, so only the string rewriting is covered.
- These scheduler paths are not modelled:
  - the with-model fallback of `track_amendments`;
  - the `process_amendment_with_model` upsert of app/legiscan/db.py, which is a database write.
  Their outcomes are oracle results.
- Sync.RecordSavedBill: the rollback after a failed `track_amendments` restores the bill's raw response only. Other session state is not modelled.
- These parts of app/api/utils.py are not modelled: `validate_date_format`, `log_api_call`, `run_in_background` and `get_request_id`. They are logging and task plumbing.
- `RequestLoggingMiddleware` and `StreamingResponseFixMiddleware` are not modelled. They only pass responses through.
- The last `track_bill_to_law_progression` in PolicyPulseNew/congress_api.py:1685-1728 returns `None` from its exception handler. The model's inputs raise nothing there, so that path is not represented.
- Chunking.ChunkedContent, Chunking.ParagraphSplitContent, Chunking.SentenceSplitContent, Chunking.LongSentenceSplit and Chunking.BasicSplit promise the text's content only when the width rule gives no negative width (Chunking.NonNegativeWidth). A negative max_tokens, a safety_buffer above max_context_tokens, gives a negative width; `range` then yields no slice and that content is lost.
- Retry.AttemptStep: the classifier branch for APIError and RateLimitError (app/ai_analysis/structured_analysis.py:226-249) is modelled as written. Those are the project's own classes, and the OpenAI SDK's exceptions are not subclasses of them, so with the SDK client that branch, Retry.PersistentTransientError and Retry.PermanentErrorStops apply only if the call raises the project's own error. SDK errors take the generic branch (Retry.PersistentForeignError, Retry.ForeignErrorRetried).
- Congress.ThrottleSleep: the delay is a real number, the source's float seconds, with no rounding.
- The earlier, superseded copies of the PolicyPulseNew client's methods are not modelled; Python keeps only the last definition of each. This includes the copy at PolicyPulseNew/congress_api.py:1279 that reads the undefined name `formattedlaw`.

## Findings

| source | as written | input that shows it | evidently intended | confidence | as-written member | corrected member |
|---|---|---|---|---|---|---|
| app/ai_analysis/chunking.py:123-129 | `re.split` with the capturing section pattern puts the captured headers and `None` entries into the parts; `strip()` on `None` raises AttributeError, so every structured text that needs splitting ends in ContentProcessingError | four "Section n." headers in a text over the token budget | split at the section headers and group the sections greedily | high, not executed | Chunking.ChunkedAsWritten, Chunking.StructureSplitAsWrittenCases, Chunking.StructuredTextAlwaysFails, Chunking.StructuredTextFailsExample | Chunking.Chunked, Chunking.StructureSplitContent, Chunking.ChunkedContent |
| v2/ai_analysis.py:422-427 | the first word that alone exceeds the budget closes the still-empty current chunk, so an empty first chunk is emitted | "abcdefgh" with a budget of 1 token gives ["", "abcdefgh"], so the analyzer sends "" to the model | never emit an empty chunk | high, not executed | WordSplit.SplitTextEmptyFirstChunk, WordSplit.GroupsEmptyOnlyFirst, WordSplit.TextForAnalysisFirstChunk, WordSplit.TextForAnalysisEmptyExample | WordSplit.GroupsCorrectedSound, WordSplit.SplitTextCorrectedKeepsWords, WordSplit.TextForAnalysisCorrectedFirstChunk |
| app/ai_analysis/utils.py:277 | the chunk branch passes the text as `chunk_text`, which the chunk configuration does not read; the default configuration has no bill metadata, so formatting the chunk prompt raises KeyError on "bill_number" | any call with is_chunk true | build the chunk prompt from the chunk and the bill's metadata | high, not executed | Prompts.CreateUserPrompt | Prompts.CreateUserPromptCorrected |
| app/ai_analysis/analysis_processing.py:186 | the chunk prompt builder is given the bare text where it expects a chunk configuration, so every chunk call fails and is dropped; besides, `merge_analyses` is called with three arguments where it takes two (line 252). A text the chunker splits into two or more chunks therefore always ends in "Failed to generate any valid chunk analyses"; an over-budget structured text ends earlier, in chunk_text (chunking.py:123-129) | any unstructured text over the context window that the chunker splits into two or more chunks | analyse each chunk and merge the results in chunk order | high, not executed | Routing.AsWrittenChunkedAnalysisFails, Routing.AsWrittenChunkRouteFails, Routing.AsWrittenLongTextFails | Routing.CorrectedChunkRouteMerges, Routing.CorrectedLongTextMerges |
| app/ai_analysis/db_operations.py:334 | the key "local_government" is matched against the lower-cased impact-category names, but that category is named `local_gov`, so local-government impacts never get a rating | an analysis whose only impact is one local-government entry gives no rating | rate local-government impacts under `local_gov` | high, not executed | AnalysisStore.ImpactRatingsAsWritten, AnalysisStore.LocalGovernmentExampleAsWritten | AnalysisStore.CorrectedRatesLocalGovernment, AnalysisStore.LocalGovernmentExampleCorrected, AnalysisStore.CreateImpactRatings |
| app/ai_analysis/db_operations.py:93-96 | an empty analysis dict is refused with `ValidationError("Cannot store empty analysis data")`, but pydantic 2's ValidationError has no public constructor, so the raise itself fails with TypeError | an empty analysis dict | refuse an empty dict with a validation error naming the empty data | medium (rests on pydantic 2 behaviour read as text), not executed | AnalysisStore.EmptyAnalysisAsWritten, AnalysisStore.StoreAnalysis | AnalysisStore.EmptyAnalysisCorrected |
| app/api/middleware.py:113-117 | the first matching prefix wins and "/legislation" precedes "/legislation/search", so the search limit of 50 never applies | any path under "/legislation/search" gets the limit 100 | the most specific prefix decides | high, not executed | RateLimiting.FirstMatch, RateLimiting.SearchEntryShadowed | RateLimiting.LongestMatch, RateLimiting.SearchEntryUsed |
| app/api/middleware.py:128 | a new RateLimiter is built for every request, so its history holds only that request and nothing is ever refused | any run of requests from one client, however many | keep one limiter per endpoint across requests | high, not executed | RateLimiting.FreshDispatchNeverLimits | RateLimiting.RateLimitMiddleware.DispatchShared, RateLimiting.SharedDispatchRefusesDrained |
| app/api/middleware.py:201-204 | `set` with a TTL of zero or less leaves an earlier expiry in place, so the new value is dropped at the next `get` once that time has passed | set with TTL 10, then set again with TTL 0, then get after 10 seconds | a value set without a TTL never expires | high, not executed | Caching.StaleExpiryDropsValue | Caching.NoExpiryKeepsValue, Caching.SetVersionsAgree |
| app/scheduler/seeding.py:189-204 | on an empty master list the `return` inside `try` still runs `finally`, which appends the session summary a second time | a session whose master list is empty | record each session once | high, not executed | Seeding.EmptyMasterListListedTwice, Seeding.ListedAsWrittenExact, Seeding.ProcessSessionForSeeding | Seeding.RecordedOnce, Seeding.ProcessSessionOnce, Seeding.Listed |
| app/legiscan/sync.py:341-342 | the `break` on reaching the limit leaves only the inner loop, so later jurisdictions add more results | keywords ["health"] with limit 1, when the search finds one bill in each of the two monitored jurisdictions, gives 2 results | stop at the limit | high, not executed | Sync.LookupExceedsLimit, Sync.LookupBillsBound | Sync.LookupBillsCappedWithinLimit |
| app/api/models.py:136-137 | `dict(values)` is a shallow copy, so filling `text` into the nested latest_text dict changes the caller's input, contrary to the comment | {"latest_text": {"text_content": "x"}} | leave the caller's dict unchanged | high, not executed | ApiModels.InputChangedAsWritten | ApiModels.NormalizeDataCopying, ApiModels.CopyingAgrees |
| app/data/base_store.py:275-276 | `re.match` with a pattern ending in `$` also accepts one trailing newline | "a@b.co\n" is accepted | accept only the address itself | high, not executed | BaseStore.ValidateEmailAsWritten, BaseStore.TrailingNewlineAccepted | BaseStore.ValidateEmail, BaseStore.AcceptedEmailHasNoNewline |
