/**
 * PDF handling for the vision-capable model: the signature test of
 * ISO 32000-1 section 7.5.2, the base64 data URL of RFC 2397 section 3 that
 * carries the document, the user message built around it, the header
 * metadata, and the page-text extraction used as a fallback. The PDF reader
 * is an oracle: reader(content) is the list of what each page's
 * extract_text() returned, or the exception opening the document raised.
 */
module PdfHandler {
  import opened Wrappers
  import opened Errors
  import opened Bytes
  import opened PyValue
  import Text
  import Base64

  /** is_pdf_content: the content starts with "%PDF-". */
  predicate IsPdfContent(content: seq<Byte>)
  {
    StartsWith(content, PdfSignature)
  }

  // ----- encode_pdf_for_vision and prepare_vision_message -----

  const DataUrlPrefix := "data:application/pdf;base64,"

  /** encode_pdf_for_vision: a data URL of media type application/pdf with the base64 of the bytes. */
  function EncodePdfForVision(pdf: Value): (r: Result<string, Error>)
    ensures r.Err? <==> !pdf.PyBytes?
    ensures r.Err? ==> r.error == ValueError("PDF content must be bytes")
  {
    if pdf.PyBytes? then Ok(DataUrlPrefix + Base64.Encode(pdf.bytes))
    else Err(ValueError("PDF content must be bytes"))
  }

  /** The bytes a data URL of this form carries: its payload after the prefix, decoded. */
  function DataUrlBytes(url: string): Option<seq<Byte>>
  {
    if DataUrlPrefix <= url then Base64.Decode(url[|DataUrlPrefix|..]) else None
  }

  /** The data URL gives the document back. */
  lemma {:induction false} DataUrlRoundTrip(b: seq<Byte>)
    ensures EncodePdfForVision(PyBytes(b)).Ok?
    ensures DataUrlBytes(EncodePdfForVision(PyBytes(b)).value) == Some(b)
  {
    var url := DataUrlPrefix + Base64.Encode(b);
    assert url[|DataUrlPrefix|..] == Base64.Encode(b);
    Base64.DecodeEncode(b);
  }

  /**
   * prepare_vision_message: a user message whose content is an image_url
   * part carrying the document followed by a text part carrying the prompt.
   */
  function PrepareVisionMessage(content: seq<Byte>, prompt: string): (r: Result<Value, Error>)
    ensures r.Err? <==> !IsPdfContent(content)
    ensures r.Err? ==> r.error == ValueError("Content is not a PDF")
  {
    if !IsPdfContent(content) then Err(ValueError("Content is not a PDF"))
    else
      var url := EncodePdfForVision(PyBytes(content)).value;
      Ok(PyDict([
        ("role", PyStr("user")),
        ("content", PyList([
          PyDict([("type", PyStr("image_url")), ("image_url", PyDict([("url", PyStr(url))]))]),
          PyDict([("type", PyStr("text")), ("text", PyStr(prompt))])]))]))
  }

  /** The n-th part of a message's content list. */
  function Part(message: Value, n: nat): Option<Value>
  {
    if !message.PyDict? then None
    else match Get(message.entries, "content")
      case Some(PyList(parts)) => if n < |parts| then Some(parts[n]) else None
      case _ => None
  }

  /** A part's value under key, when the part is a dict. */
  function Field(part: Option<Value>, key: string): Option<Value>
  {
    if part.Some? && part.value.PyDict? then Get(part.value.entries, key) else None
  }

  /**
   * What the model reads back from the message: the first part is the image,
   * whose URL carries exactly the document, and the second is the prompt.
   */
  lemma {:induction false} VisionMessageCarries(content: seq<Byte>, prompt: string)
    requires IsPdfContent(content)
    ensures var m := PrepareVisionMessage(content, prompt).value;
      Get(m.entries, "role") == Some(PyStr("user"))
      && Field(Part(m, 0), "type") == Some(PyStr("image_url"))
      && Field(Part(m, 1), "type") == Some(PyStr("text"))
      && Field(Part(m, 1), "text") == Some(PyStr(prompt))
      && Part(m, 2).None?
      && var image := Field(Part(m, 0), "image_url");
         image.Some? && image.value.PyDict? && Get(image.value.entries, "url").Some?
         && Get(image.value.entries, "url").value.PyStr?
         && DataUrlBytes(Get(image.value.entries, "url").value.s) == Some(content)
  {
    var url := DataUrlPrefix + Base64.Encode(content);
    var image := PyDict([("url", PyStr(url))]);
    var p0 := PyDict([("type", PyStr("image_url")), ("image_url", image)]);
    var p1 := PyDict([("type", PyStr("text")), ("text", PyStr(prompt))]);
    var m := PyDict([("role", PyStr("user")), ("content", PyList([p0, p1]))]);
    assert PrepareVisionMessage(content, prompt) == Ok(m);
    assert "role" != "content";
    assert Get(m.entries, "content") == Some(PyList([p0, p1]));
    assert Part(m, 0) == Some(p0) && Part(m, 1) == Some(p1) && Part(m, 2) == None;
    assert "type" != "image_url";
    assert "type" != "text" by {
      assert "type"[1] != "text"[1];
    }
    assert Get(p1.entries, "text") == Some(PyStr(prompt)) by {
      assert p1.entries[1..] == [("text", PyStr(prompt))];
    }
    assert Get(p0.entries, "image_url") == Some(image) by {
      assert p0.entries[1..] == [("image_url", image)];
    }
    DataUrlRoundTrip(content);
  }

  // ----- get_pdf_metadata -----

  const HeaderWindow := 1024
  const Dot: Byte := 0x2E

  predicate IsDigitByte(x: Byte) { 0x30 <= x <= 0x39 }

  predicate AllDigitBytes(b: seq<Byte>)
  {
    forall k :: 0 <= k < |b| ==> IsDigitByte(b[k])
  }

  /** The length of the run of decimal digits in h from i on. */
  function DigitRun(h: seq<Byte>, i: nat): (n: nat)
    requires i <= |h|
    ensures i + n <= |h| && AllDigitBytes(h[i..i + n])
    ensures i + n == |h| || !IsDigitByte(h[i + n])
    decreases |h| - i
  {
    if i < |h| && IsDigitByte(h[i]) then
      var n := 1 + DigitRun(h, i + 1);
      forall k | i + 1 <= k < i + n
        ensures IsDigitByte(h[k])
      {
        assert h[k] == h[i + 1..i + n][k - i - 1];
      }
      n
    else 0
  }

  /** A version as the pattern \d+\.\d+ matches it. */
  predicate VersionShaped(v: seq<Byte>)
  {
    exists k :: 0 < k < |v| - 1 && v[k] == Dot && AllDigitBytes(v[..k]) && AllDigitBytes(v[k + 1..])
  }

  lemma {:induction false} MatchShaped(h: seq<Byte>, start: nat, dot: nat, end: nat)
    requires start < dot && dot + 1 < end <= |h| && h[dot] == Dot
    requires AllDigitBytes(h[start..dot]) && AllDigitBytes(h[dot + 1..end])
    ensures VersionShaped(h[start..end])
  {
    var v := h[start..end];
    var k := dot - start;
    assert v[..k] == h[start..dot];
    assert v[k + 1..] == h[dot + 1..end];
  }

  /** The group of %PDF-(\d+\.\d+) when the pattern matches at i; the digit runs are greedy. */
  function VersionAt(h: seq<Byte>, i: nat): (r: Option<seq<Byte>>)
    ensures r.Some? ==> (i + 5 + |r.value| <= |h| && h[i..i + 5] == PdfSignature
      && r.value == h[i + 5..i + 5 + |r.value|] && VersionShaped(r.value))
  {
    if i + 5 <= |h| && h[i..i + 5] == PdfSignature then
      var start := i + 5;
      var dot := start + DigitRun(h, start);
      if start < dot && dot < |h| && h[dot] == Dot then
        var end := dot + 1 + DigitRun(h, dot + 1);
        if dot + 1 < end then
          MatchShaped(h, start, dot, end);
          Some(h[start..end])
        else None
      else None
    else None
  }

  /** re.search: the match at the leftmost position from i on. */
  function SearchVersion(h: seq<Byte>, i: nat): (r: Option<seq<Byte>>)
    ensures r.Some? ==> VersionShaped(r.value)
    ensures r.None? <==> forall j :: i <= j <= |h| ==> VersionAt(h, j).None?
    decreases |h| - i
  {
    if i > |h| then None
    else match VersionAt(h, i)
      case Some(v) => Some(v)
      case None => SearchVersion(h, i + 1)
  }

  /** The version from the header, read in the first 1024 bytes, or "unknown". */
  function PdfVersion(content: seq<Byte>): string
  {
    var h := if |content| <= HeaderWindow then content else content[..HeaderWindow];
    match SearchVersion(h, 0)
    case Some(v) => Latin1Decode(v)
    case None => "unknown"
  }

  /**
   * get_pdf_metadata: {"is_pdf": False} for anything else than a PDF;
   * otherwise its size, its header version and its media type.
   */
  function GetPdfMetadata(content: seq<Byte>): (r: Value)
    ensures r.PyDict? && Get(r.entries, "is_pdf") == Some(PyBool(IsPdfContent(content)))
    ensures !IsPdfContent(content) ==> Keys(r.entries) == ["is_pdf"]
    ensures IsPdfContent(content) ==> Get(r.entries, "size_bytes") == Some(PyInt(|content|))
  {
    if !IsPdfContent(content) then PyDict([("is_pdf", PyBool(false))])
    else PyDict([
      ("is_pdf", PyBool(true)),
      ("size_bytes", PyInt(|content|)),
      ("pdf_version", PyStr(PdfVersion(content))),
      ("content_type", PyStr("application/pdf"))])
  }

  /** The pattern matches at 0 when the signature, a digit run, a dot and a digit run stand there. */
  lemma {:induction false} MatchAtStart(h: seq<Byte>, dot: nat, n: nat)
    requires 5 < dot < n - 1 && n <= |h|
    requires h[0..5] == PdfSignature && h[dot] == Dot
    requires DigitRun(h, 5) == dot - 5 && DigitRun(h, dot + 1) == n - dot - 1
    ensures SearchVersion(h, 0) == Some(h[5..n])
  {
    VersionAtStart(h, dot, n);
  }

  lemma {:induction false} VersionAtStart(h: seq<Byte>, dot: nat, n: nat)
    requires 5 < dot < n - 1 && n <= |h|
    requires h[0..5] == PdfSignature && h[dot] == Dot
    requires DigitRun(h, 5) == dot - 5 && DigitRun(h, dot + 1) == n - dot - 1
    ensures VersionAt(h, 0) == Some(h[5..n])
  {
  }

  /** The digit run from i ends at j when h[i..j] is all digits and no digit follows. */
  lemma {:induction false} RunEnds(h: seq<Byte>, i: nat, j: nat)
    requires i <= j <= |h| && AllDigitBytes(h[i..j])
    requires j == |h| || !IsDigitByte(h[j])
    ensures DigitRun(h, i) == j - i
    decreases j - i
  {
    if i < j {
      assert h[i] == h[i..j][0];
      var rest := h[i + 1..j];
      forall k | 0 <= k < |rest|
        ensures IsDigitByte(rest[k])
      {
        assert rest[k] == h[i..j][k + 1];
      }
      RunEnds(h, i + 1, j);
    }
  }

  /**
   * A header "%PDF-" + digits + "." + digits ending at n, inside the
   * 1024-byte window and followed by something other than a digit, gives
   * the version content[5..n].
   */
  lemma {:induction false} HeaderVersion(content: seq<Byte>, dot: nat, n: nat)
    requires 5 < dot < n - 1 && n < HeaderWindow && n <= |content|
    requires content[0..5] == PdfSignature && content[dot] == Dot
    requires AllDigitBytes(content[5..dot]) && AllDigitBytes(content[dot + 1..n])
    requires n == |content| || !IsDigitByte(content[n])
    ensures PdfVersion(content) == Latin1Decode(content[5..n])
  {
    var h := if |content| <= HeaderWindow then content else content[..HeaderWindow];
    assert h[0..5] == content[0..5];
    assert h[5..dot] == content[5..dot];
    assert h[dot + 1..n] == content[dot + 1..n];
    assert h[5..n] == content[5..n];
    RunEnds(h, 5, dot);
    RunEnds(h, dot + 1, n);
    MatchAtStart(h, dot, n);
  }

  // ----- text extraction -----

  const Placeholder := "[PDF contains no extractable text - may be scanned or image-based]"
  const Unavailable := "[PDF text extraction unavailable - PyPDF2 not installed]"
  const PageSeparator := "\n\n"

  function ExtractionFailed(msg: string): string
  {
    "[PDF text extraction failed: " + msg + "]"
  }

  /** `page.extract_text() or ""` for each page. */
  function PageTexts(pages: seq<Option<string>>): (ts: seq<string>)
    ensures |ts| == |pages|
    ensures forall k :: 0 <= k < |pages| ==> ts[k] == pages[k].GetOr("")
  {
    if |pages| == 0 then [] else PageTexts(pages[..|pages| - 1]) + [pages[|pages| - 1].GetOr("")]
  }

  /** The pages joined with a blank line, or the placeholder when that is only whitespace. */
  function JoinedText(pages: seq<Option<string>>): string
  {
    var full := Text.Join(PageTexts(pages), PageSeparator);
    if Text.Strip(full) == [] then Placeholder else full
  }

  /** The page loop of _process_pdf_text_extraction. */
  method JoinPages(pages: seq<Option<string>>) returns (text: string)
    ensures text == JoinedText(pages)
  {
    var texts: seq<string> := [];
    var k := 0;
    while k < |pages|
      invariant 0 <= k <= |pages|
      invariant texts == PageTexts(pages[..k])
    {
      var page := pages[k];
      texts := texts + [if page.Some? then page.value else ""];
      k := k + 1;
      assert pages[..k][..k - 1] == pages[..k - 1];
    }
    assert pages[..|pages|] == pages;
    var full := Text.Join(texts, PageSeparator);
    if Text.Strip(full) == [] {
      return Placeholder;
    }
    return full;
  }

  /** A joined text is only whitespace exactly when every page is. */
  lemma {:induction false} JoinAllSpace(ts: seq<string>)
    ensures Text.AllSpace(Text.Join(ts, PageSeparator)) <==> forall k :: 0 <= k < |ts| ==> Text.AllSpace(ts[k])
  {
    if |ts| > 1 {
      JoinAllSpace(ts[1..]);
      var tail := Text.Join(ts[1..], PageSeparator);
      AllSpaceConcat(ts[0] + PageSeparator, tail);
      AllSpaceConcat(ts[0], PageSeparator);
      assert Text.IsSpace('\n');
      assert forall k :: 1 <= k < |ts| ==> ts[k] == ts[1..][k - 1];
    }
  }

  lemma {:induction false} AllSpaceConcat(a: string, b: string)
    ensures Text.AllSpace(a + b) <==> Text.AllSpace(a) && Text.AllSpace(b)
  {
    if Text.AllSpace(a + b) {
      assert forall k :: 0 <= k < |a| ==> a[k] == (a + b)[k];
      assert forall k :: 0 <= k < |b| ==> b[k] == (a + b)[|a| + k];
    }
  }

  /** The placeholder is used exactly when no page has text beyond whitespace. */
  lemma {:induction false} PlaceholderWhenBlank(pages: seq<Option<string>>)
    ensures Text.Strip(Text.Join(PageTexts(pages), PageSeparator)) == []
      <==> forall k :: 0 <= k < |pages| ==> Text.AllSpace(pages[k].GetOr(""))
  {
    JoinAllSpace(PageTexts(pages));
  }

  /**
   * _process_pdf_text_extraction: PyPDF2 must be installed and the content
   * must be a PDF that the reader opens; then its pages are joined.
   */
  method ProcessPdfTextExtraction(content: seq<Byte>, installed: bool,
                                  reader: seq<Byte> -> Result<seq<Option<string>>, Error>)
    returns (r: Result<string, Error>)
    ensures !installed ==> r == Err(OtherError("ImportError", "No module named 'PyPDF2'"))
    ensures installed && !IsPdfContent(content) ==> r == Err(ValueError("Content is not a valid PDF"))
    ensures installed && IsPdfContent(content) && reader(content).Err? ==> r == Err(reader(content).error)
    ensures installed && IsPdfContent(content) && reader(content).Ok? ==> r == Ok(JoinedText(reader(content).value))
  {
    if !installed {
      return Err(OtherError("ImportError", "No module named 'PyPDF2'"));
    }
    if !IsPdfContent(content) {
      return Err(ValueError("Content is not a valid PDF"));
    }
    var outcome := reader(content);
    if outcome.Err? {
      return Err(outcome.error);
    }
    var text := JoinPages(outcome.value);
    return Ok(text);
  }

  /** extract_text_from_pdf: every failure becomes a bracketed note in place of the text. */
  method ExtractTextFromPdf(content: seq<Byte>, installed: bool,
                            reader: seq<Byte> -> Result<seq<Option<string>>, Error>)
    returns (text: string)
    ensures !installed ==> text == Unavailable
    ensures installed && !IsPdfContent(content) ==> text == ExtractionFailed("Content is not a valid PDF")
    ensures installed && IsPdfContent(content) && reader(content).Ok? ==> text == JoinedText(reader(content).value)
  {
    var r := ProcessPdfTextExtraction(content, installed, reader);
    if r.Ok? {
      return r.value;
    }
    if r.error == OtherError("ImportError", "No module named 'PyPDF2'") {
      return Unavailable;
    }
    return ExtractionFailed(Message(r.error));
  }

  // ----- process_pdf_for_analysis -----

  /** process_pdf_for_analysis: the vision message and the metadata, or a ValueError for anything but a PDF. */
  function ProcessPdfForAnalysis(content: seq<Byte>, prompt: string): (r: Result<(Value, Value), Error>)
    ensures r.Err? <==> !IsPdfContent(content)
    ensures r.Err? ==> r.error == ValueError("Content is not a PDF")
    ensures r.Ok? ==> Ok(r.value.0) == PrepareVisionMessage(content, prompt) && r.value.1 == GetPdfMetadata(content)
  {
    var metadata := GetPdfMetadata(content);
    if Get(metadata.entries, "is_pdf") == Some(PyBool(false)) then Err(ValueError("Content is not a PDF"))
    else Ok((PrepareVisionMessage(content, prompt).value, metadata))
  }
}
