/**
 * Text preprocessing before analysis: the PDF signature test, HTML detection
 * and stripping, and preprocess_text, which pairs the processed text with the
 * token count of that same text. BeautifulSoup is an oracle.
 */
module Preprocess {
  import opened Bytes
  import opened PyValue
  import opened Text
  import opened TokenCount
  import Sanitize

  /** is_binary_pdf: a bytes value whose first five bytes are "%PDF-" (ISO 32000-1 section 7.5.2). */
  function IsBinaryPdf(v: Value): (r: bool)
    ensures r <==> v.PyBytes? && |v.bytes| >= 5 && v.bytes[..5] == PdfSignature
  {
    v.PyBytes? && StartsWith(v.bytes, PdfSignature)
  }

  /** Every byte string that begins with the signature is a PDF; no str, however it reads, is one. */
  lemma {:induction false} IsBinaryPdfCases(rest: seq<Byte>, s: string)
    ensures IsBinaryPdf(PyBytes(PdfSignature + rest))
    ensures !IsBinaryPdf(PyStr(s))
    ensures !IsBinaryPdf(PyBytes(PdfSignature[..4]))
  {
    assert (PdfSignature + rest)[..5] == PdfSignature;
  }

  // ---------------------------------------------------------------------
  // HTML detection
  // ---------------------------------------------------------------------

  /** The indicator tags process_html_content counts. */
  const PageIndicators: seq<string> :=
    ["<html", "<body", "<div", "<span", "<p", "<table", "<script", "<style",
     "<a ", "<img ", "<form", "<input", "<h1", "<h2", "<h3", "<ul", "<ol", "<li"]
  /** The structural tags any one of which makes a text HTML. */
  const StructuralTags: seq<string> := ["<html", "<body", "<head"]
  /** The indicator tags strip_html_tags counts. */
  const StripIndicators: seq<string> := ["<html", "<body", "<div", "<span", "<p", "<table"]
  const DocumentTags: seq<string> := ["<html", "<body"]

  /** sum(indicator in s for indicator in indicators). */
  function CountPresent(s: string, indicators: seq<string>): (n: nat)
    ensures n <= |indicators|
  {
    if |indicators| == 0 then 0
    else (if ContainsDec(s, indicators[0]) then 1 else 0) + CountPresent(s, indicators[1..])
  }

  /** any(tag in s for tag in tags). */
  predicate AnyPresent(s: string, tags: seq<string>)
  {
    exists i :: 0 <= i < |tags| && Contains(s, tags[i])
  }

  /** The count is zero exactly when no indicator occurs, and reaches the length exactly when all do. */
  lemma {:induction false} CountPresentBounds(s: string, indicators: seq<string>)
    ensures CountPresent(s, indicators) == 0 <==> !AnyPresent(s, indicators)
    ensures CountPresent(s, indicators) == |indicators| <==> forall i :: 0 <= i < |indicators| ==> Contains(s, indicators[i])
    decreases |indicators|
  {
    if |indicators| > 0 {
      var tail := indicators[1..];
      CountPresentBounds(s, tail);
      assert forall i :: 1 <= i < |indicators| ==> indicators[i] == tail[i - 1];
      if AnyPresent(s, tail) {
        var i :| 0 <= i < |tail| && Contains(s, tail[i]);
        assert Contains(s, indicators[i + 1]);
      }
      if AnyPresent(s, indicators) && !Contains(s, indicators[0]) {
        var i :| 0 <= i < |indicators| && Contains(s, indicators[i]);
        assert Contains(s, tail[i - 1]);
      }
      if forall i :: 0 <= i < |tail| ==> Contains(s, tail[i]) {
        if Contains(s, indicators[0]) {
          forall i | 0 <= i < |indicators| ensures Contains(s, indicators[i]) {
            if i > 0 { assert Contains(s, tail[i - 1]); }
          }
        }
      }
    }
  }

  /** Whoever contains a larger text contains at least as many indicators. */
  lemma {:induction false} CountPresentMonotone(small: string, large: string, indicators: seq<string>)
    requires Contains(large, small)
    ensures CountPresent(small, indicators) <= CountPresent(large, indicators)
    decreases |indicators|
  {
    if |indicators| > 0 {
      if Contains(small, indicators[0]) {
        ContainsTransitive(large, small, indicators[0]);
      }
      CountPresentMonotone(small, large, indicators[1..]);
    }
  }

  /** process_html_content's test, on the lower-cased text. */
  predicate LooksLikePage(text: string)
  {
    var low := Lower(text);
    CountPresent(low, PageIndicators) >= 3 || AnyPresent(low, StructuralTags)
  }

  /** strip_html_tags's own test, on the lower-cased text. */
  predicate LooksLikeMarkup(text: string)
  {
    var low := Lower(text);
    CountPresent(low, StripIndicators) >= 3 || AnyPresent(low, DocumentTags)
  }

  // ---------------------------------------------------------------------
  // The regular-expression stripper
  // ---------------------------------------------------------------------

  /**
   * The length of the match of `<tag[^>]*>[\s\S]*?</tag>` at the start of s:
   * the opening tag, up to its first '>', then the shortest run up to the
   * first closing tag; 0 when no match starts there.
   */
  function ElementEnd(s: string, openTag: string, closeTag: string): (e: nat)
    ensures e <= |s|
    ensures e > 0 ==> openTag <= s && e > |openTag|
  {
    if !(openTag <= s) then 0
    else
      var g := Find(s[|openTag|..], ">");
      if g < 0 then 0
      else
        var bodyStart := |openTag| + g + 1;
        var c := Find(s[bodyStart..], closeTag);
        if c < 0 then 0 else bodyStart + c + |closeTag|
  }

  /** re.sub(r'<tag[^>]*>[\s\S]*?</tag>', '', s): scanning left to right, each element is deleted whole. */
  function RemoveElements(s: string, openTag: string, closeTag: string): (r: string)
    ensures |r| <= |s|
    decreases |s|
  {
    if |s| == 0 then s
    else
      var e := ElementEnd(s, openTag, closeTag);
      if e > 0 then RemoveElements(s[e..], openTag, closeTag)
      else [s[0]] + RemoveElements(s[1..], openTag, closeTag)
  }

  /**
   * The length of the tag match at the start of s: '<', at least `minInner`
   * characters other than '>', then '>'; 0 when none starts there.
   * With minInner 1 this is `<[^>]+>`, with 0 it is `<[^>]*>`.
   */
  function TagEnd(s: string, minInner: nat): (e: nat)
    ensures e <= |s|
    ensures e > 0 ==> e >= 2 + minInner && s[0] == '<' && s[e - 1] == '>'
  {
    if |s| == 0 || s[0] != '<' then 0
    else
      var g := Find(s[1..], ">");
      if g < minInner then 0 else g + 2
  }

  /** re.sub over the tag pattern, each tag replaced by `repl`. */
  function ReplaceTags(s: string, minInner: nat, repl: string): string
    decreases |s|
  {
    if |s| == 0 then s
    else
      var e := TagEnd(s, minInner);
      if e > 0 then repl + ReplaceTags(s[e..], minInner, repl)
      else [s[0]] + ReplaceTags(s[1..], minInner, repl)
  }

  /** re.sub(r'\s+', ' ', s): every whitespace run becomes one space. */
  function CollapseSpace(s: string): string
    decreases |s|
  {
    if |s| == 0 then s
    else if IsSpace(s[0]) then " " + CollapseSpace(s[LeadingSpace(s)..])
    else [s[0]] + CollapseSpace(s[1..])
  }

  /** Single-spaced: the only whitespace is ' ', and never two in a row. */
  predicate SingleSpaced(s: string)
  {
    forall i :: 0 <= i < |s| && IsSpace(s[i]) ==> s[i] == ' ' && (i + 1 == |s| || !IsSpace(s[i + 1]))
  }

  /** What strip_html_with_regex leaves: single-spaced with no space at either end. */
  predicate Tidy(s: string)
  {
    SingleSpaced(s) && (|s| == 0 || (!IsSpace(s[0]) && !IsSpace(s[|s| - 1])))
  }

  /** Collapsing whitespace keeps every other character, in order. */
  lemma {:induction false} CollapseSpaceKeepsText(s: string)
    ensures NonSpace(CollapseSpace(s)) == NonSpace(s)
    decreases |s|
  {
    if |s| > 0 {
      if IsSpace(s[0]) {
        var n := LeadingSpace(s);
        var t := CollapseSpace(s[n..]);
        CollapseSpaceKeepsText(s[n..]);
        assert s == s[..n] + s[n..];
        NonSpaceConcat(s[..n], s[n..]);
        NonSpaceOfSpace(s[..n]);
        NonSpaceConcat(" ", t);
        assert NonSpace(" ") == [];
      } else {
        var t := CollapseSpace(s[1..]);
        CollapseSpaceKeepsText(s[1..]);
        assert NonSpace(s) == [s[0]] + NonSpace(s[1..]);
        NonSpaceConcat([s[0]], t);
      }
    }
  }

  /** Collapsing whitespace leaves the text single-spaced, starting with a space exactly when the input does. */
  lemma {:induction false} CollapseSpaceSingleSpaced(s: string)
    ensures SingleSpaced(CollapseSpace(s))
    ensures |CollapseSpace(s)| > 0 ==> |s| > 0 && (IsSpace(CollapseSpace(s)[0]) <==> IsSpace(s[0]))
    decreases |s|
  {
    if |s| > 0 {
      if IsSpace(s[0]) {
        var n := LeadingSpace(s);
        var t := CollapseSpace(s[n..]);
        CollapseSpaceSingleSpaced(s[n..]);
        assert (" " + t)[1..] == t;
      } else {
        var t := CollapseSpace(s[1..]);
        CollapseSpaceSingleSpaced(s[1..]);
        assert ([s[0]] + t)[1..] == t;
      }
    }
  }

  /** Stripping a single-spaced text leaves it tidy. */
  lemma {:induction false} StripSingleSpaced(s: string)
    requires SingleSpaced(s)
    ensures Tidy(Strip(s))
  {
    var r := Strip(s);
    if |r| > 0 {
      var i := LeadingSpace(s);
      forall k | 0 <= k < |r| && IsSpace(r[k])
        ensures r[k] == ' ' && (k + 1 == |r| || !IsSpace(r[k + 1]))
      {
        assert r[k] == s[i + k];
        if k + 1 < |r| { assert r[k + 1] == s[i + k + 1]; }
      }
    }
  }

  /** Text with no '<' holds no element. */
  lemma {:induction false} NoMarkupKeepsElements(s: string, openTag: string, closeTag: string)
    requires forall i :: 0 <= i < |s| ==> s[i] != '<'
    requires |openTag| > 0 && openTag[0] == '<'
    ensures RemoveElements(s, openTag, closeTag) == s
    decreases |s|
  {
    if |s| > 0 {
      assert s[0] != openTag[0];
      NoMarkupKeepsElements(s[1..], openTag, closeTag);
      assert s == [s[0]] + s[1..];
    }
  }

  /** Text with no '<' holds no tag. */
  lemma {:induction false} NoMarkupKeepsTags(s: string, minInner: nat, repl: string)
    requires forall i :: 0 <= i < |s| ==> s[i] != '<'
    ensures ReplaceTags(s, minInner, repl) == s
    decreases |s|
  {
    if |s| > 0 {
      NoMarkupKeepsTags(s[1..], minInner, repl);
      assert s == [s[0]] + s[1..];
    }
  }

  /** How the text was obtained, as strip_html_tags reports it. */
  datatype StripMethod =
    | EmptyContent | NotHtml | BeautifulSoup | BeautifulSoupAggressive
    | RegexStrip | AggressiveRegex | StrippingFailed

  /** An element the regex stripper deletes whole: its opening-tag prefix and its closing tag. */
  datatype Element = Element(openTag: string, closeTag: string)

  const Style := Element("<style", "</style>")
  const Script := Element("<script", "</script>")

  /** The stripper with the two elements it deletes as parameters. */
  function RegexStripOf(html: string, first: Element, second: Element): (r: (string, StripMethod))
    ensures r.1 == RegexStrip || r.1 == AggressiveRegex
    ensures r.1 == RegexStrip ==> |r.0| < |html|
    ensures r.1 == AggressiveRegex <==> |Strip(CollapseSpace(ReplaceTags(
              RemoveElements(RemoveElements(html, first.openTag, first.closeTag), second.openTag, second.closeTag), 1, " ")))| >= |html|
  {
    var noFirst := RemoveElements(html, first.openTag, first.closeTag);
    var noSecond := RemoveElements(noFirst, second.openTag, second.closeTag);
    var spaced := Strip(CollapseSpace(ReplaceTags(noSecond, 1, " ")));
    if |spaced| >= |html| then (Strip(CollapseSpace(ReplaceTags(html, 0, ""))), AggressiveRegex)
    else (spaced, RegexStrip)
  }

  /**
   * strip_html_with_regex: style and script elements deleted, tags turned into
   * spaces, whitespace collapsed and trimmed; when that is not shorter than the
   * input, tags are deleted instead.
   */
  function StripHtmlWithRegex(html: string): (r: (string, StripMethod))
    ensures r.1 == RegexStrip || r.1 == AggressiveRegex
    ensures r.1 == RegexStrip ==> |r.0| < |html|
  {
    RegexStripOf(html, Style, Script)
  }

  /** Whichever branch is taken, the stripped text is tidy. */
  lemma {:induction false} RegexStripTidy(html: string, first: Element, second: Element)
    ensures Tidy(RegexStripOf(html, first, second).0)
  {
    var noSecond := RemoveElements(RemoveElements(html, first.openTag, first.closeTag), second.openTag, second.closeTag);
    CollapseSpaceSingleSpaced(ReplaceTags(noSecond, 1, " "));
    StripSingleSpaced(CollapseSpace(ReplaceTags(noSecond, 1, " ")));
    CollapseSpaceSingleSpaced(ReplaceTags(html, 0, ""));
    StripSingleSpaced(CollapseSpace(ReplaceTags(html, 0, "")));
  }

  /** On text without markup, stripping only re-spaces. */
  lemma {:induction false} RegexStripPlainText(html: string, first: Element, second: Element)
    requires forall i :: 0 <= i < |html| ==> html[i] != '<'
    requires |first.openTag| > 0 && first.openTag[0] == '<'
    requires |second.openTag| > 0 && second.openTag[0] == '<'
    ensures NonSpace(RegexStripOf(html, first, second).0) == NonSpace(html)
  {
    NoMarkupKeepsElements(html, first.openTag, first.closeTag);
    NoMarkupKeepsElements(html, second.openTag, second.closeTag);
    NoMarkupKeepsTags(html, 1, " ");
    NoMarkupKeepsTags(html, 0, "");
    CollapseSpaceKeepsText(html);
    NonSpaceStrip(CollapseSpace(html));
  }

  /** strip_html_with_regex always leaves a tidy text. */
  lemma {:induction false} StripHtmlWithRegexTidy(html: string)
    ensures Tidy(StripHtmlWithRegex(html).0)
  {
    RegexStripTidy(html, Style, Script);
  }

  /** On text without markup, strip_html_with_regex keeps every non-space character in order. */
  lemma {:induction false} StripHtmlWithRegexPlainText(html: string)
    requires forall i :: 0 <= i < |html| ==> html[i] != '<'
    ensures NonSpace(StripHtmlWithRegex(html).0) == NonSpace(html)
  {
    var style, script := Style, Script;
    assert style.openTag[0] == '<' && script.openTag[0] == '<';
    RegexStripPlainText(html, style, script);
  }

  // ---------------------------------------------------------------------
  // strip_html_tags, process_html_content, preprocess_text
  // ---------------------------------------------------------------------

  /**
   * What BeautifulSoup makes of a document: the package is missing, parsing
   * raised ValueError, TypeError or AttributeError, or the two texts
   * get_text(separator=' ', strip=True) and ' '.join(stripped_strings).
   */
  datatype SoupOutcome = SoupMissing | SoupRaised | SoupText(text: string, aggressive: string)

  type Soup = string -> SoupOutcome

  /** The longest prefix kept when stripping fails. */
  const FailedStripCap := 100000

  /** strip_html_tags for a str argument. */
  function StripHtmlTags(soup: Soup, html: string): (r: (string, StripMethod))
    ensures html == "" <==> r.1 == EmptyContent
    ensures r.1 == NotHtml <==> html != "" && !LooksLikeMarkup(html)
    ensures r.1 == NotHtml ==> r.0 == html
    ensures r.1 == StrippingFailed ==> r.0 <= html && |r.0| == if |html| < FailedStripCap then |html| else FailedStripCap
    ensures r.1 == BeautifulSoup || r.1 == RegexStrip ==> |r.0| < |html|
  {
    if html == "" then ("", EmptyContent)
    else if !LooksLikeMarkup(html) then (html, NotHtml)
    else match soup(html)
      case SoupMissing => StripHtmlWithRegex(html)
      case SoupRaised => (html[..if |html| < FailedStripCap then |html| else FailedStripCap], StrippingFailed)
      case SoupText(t, aggressive) =>
        if |t| < |html| then (t, BeautifulSoup) else (aggressive, BeautifulSoupAggressive)
  }

  /** Texts up to this length are never inspected for HTML. */
  const HtmlScanThreshold := 5000

  /**
   * process_html_content for a str argument: long texts that look like
   * HTML are stripped, and the stripped text is kept only when
   * strip_html_tags did not call it plain and it is strictly shorter.
   */
  function ProcessHtmlContent(soup: Soup, text: string): (r: string)
    ensures |text| <= HtmlScanThreshold ==> r == text
    ensures !LooksLikePage(text) ==> r == text
    ensures r == text || |r| < |text|
  {
    if |text| <= HtmlScanThreshold || !LooksLikePage(text) then text
    else
      var (stripped, how) := StripHtmlTags(soup, text);
      if how != NotHtml && |stripped| < |text| then stripped else text
  }

  /** The indicators strip_html_tags counts are the first six process_html_content counts. */
  lemma {:induction false} CountPresentPrefix(s: string, indicators: seq<string>, n: nat)
    requires n <= |indicators|
    ensures CountPresent(s, indicators[..n]) <= CountPresent(s, indicators)
    decreases n
  {
    if n > 0 {
      assert indicators[..n][1..] == indicators[1..][..n - 1];
      CountPresentPrefix(s, indicators[1..], n - 1);
    }
  }

  /** strip_html_tags's test is the stricter one: whatever it calls markup, process_html_content calls a page. */
  lemma {:induction false} MarkupIsPage(text: string)
    requires LooksLikeMarkup(text)
    ensures LooksLikePage(text)
  {
    var low := Lower(text);
    assert PageIndicators[..6] == StripIndicators;
    CountPresentPrefix(low, PageIndicators, 6);
    if AnyPresent(low, DocumentTags) {
      var i :| 0 <= i < |DocumentTags| && Contains(low, DocumentTags[i]);
      assert DocumentTags[i] == StructuralTags[i];
    }
  }

  /** A long text that strip_html_tags calls markup, without BeautifulSoup, is regex-stripped whenever that shortens it. */
  lemma {:induction false} ProcessHtmlContentUsesRegex(soup: Soup, text: string)
    requires |text| > HtmlScanThreshold && LooksLikeMarkup(text)
    requires soup(text) == SoupMissing
    ensures var (stripped, how) := StripHtmlWithRegex(text);
      ProcessHtmlContent(soup, text) == if |stripped| < |text| then stripped else text
  {
    MarkupIsPage(text);
  }

  /** preprocess_text: the plain, control-free, HTML-stripped text and the token count of that same text. */
  function PreprocessText(c: Counter, soup: Soup, v: Value): (r: (string, nat))
  {
    var text := ProcessHtmlContent(soup, Sanitize.EnsurePlainString(v));
    (text, CountTokens(c, text))
  }

  /**
   * The count always describes the returned text; a short control-free
   * string is returned as it is; the result never grows beyond the
   * sanitised input.
   */
  lemma {:induction false} PreprocessTextSound(c: Counter, soup: Soup, v: Value)
    ensures var r := PreprocessText(c, soup, v);
      && r.1 == CountTokens(c, r.0)
      && |r.0| <= |Sanitize.EnsurePlainString(v)|
      && (v.PyNone? ==> r == ("", 0))
      && (v.PyStr? && Sanitize.NoControl(v.s) && |v.s| <= HtmlScanThreshold ==> r == (v.s, CountTokens(c, v.s)))
  {
  }
}
