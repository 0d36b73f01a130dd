/**
 * The insufficient-text analyses and the normalisation applied before an
 * analysis is stored on the asynchronous path
 * (app/ai_analysis/legislation_analyzer.py, app/ai_analysis/bill_analysis.py,
 * app/ai_analysis/async_analysis.py). Analyses are dicts.
 */
module Records {
  import opened Wrappers
  import opened PyValue
  import opened Errors

  // ---------------------------------------------------------------------
  // Building blocks
  // ---------------------------------------------------------------------

  /** A dict whose every key maps to a one-element list holding msg. */
  function ImpactGroup(keys: seq<string>, msg: string): (v: Value)
    ensures v.PyDict? && Keys(v.entries) == keys
    ensures forall i :: 0 <= i < |keys| ==> v.entries[i].1 == PyList([PyStr(msg)])
  {
    PyDict(seq(|keys|, i requires 0 <= i < |keys| => (keys[i], PyList([PyStr(msg)]))))
  }

  /** Every list anywhere inside v is non-empty. */
  predicate NoEmptyList(v: Value)
    decreases v, 1
  {
    match v
    case PyList(xs) => xs != [] && ItemsNoEmptyList(v, xs)
    case PyDict(es) => EntriesNoEmptyList(v, es)
    case _ => true
  }

  predicate ItemsNoEmptyList(whole: Value, xs: seq<Value>)
    requires forall x :: x in xs ==> x < whole
    decreases whole, 0, |xs|
  {
    xs == [] || (assert xs[0] in xs; assert forall x :: x in xs[1..] ==> x in xs;
                 NoEmptyList(xs[0]) && ItemsNoEmptyList(whole, xs[1..]))
  }

  predicate EntriesNoEmptyList(whole: Value, es: seq<(string, Value)>)
    requires forall e :: e in es ==> e.1 < whole
    decreases whole, 0, |es|
  {
    es == [] || (assert es[0] in es; assert forall e :: e in es[1..] ==> e in es;
                 NoEmptyList(es[0].1) && EntriesNoEmptyList(whole, es[1..]))
  }

  /** The entries of a dict are free of empty lists when each of its values is. */
  lemma {:induction false} EntriesNoEmptyListEach(whole: Value, es: seq<(string, Value)>)
    requires forall e :: e in es ==> e.1 < whole
    requires forall i :: 0 <= i < |es| ==> NoEmptyList(es[i].1)
    ensures EntriesNoEmptyList(whole, es)
    decreases |es|
  {
    if es != [] {
      assert forall e :: e in es[1..] ==> e in es;
      EntriesNoEmptyListEach(whole, es[1..]);
    }
  }

  /** A one-string list is free of empty lists. */
  lemma {:induction false} SingletonNoEmptyList(msg: string)
    ensures NoEmptyList(PyList([PyStr(msg)]))
  {
    var xs := [PyStr(msg)];
    assert xs[1..] == [];
    assert ItemsNoEmptyList(PyList(xs), xs[1..]);
    assert NoEmptyList(xs[0]);
    assert ItemsNoEmptyList(PyList(xs), xs);
  }

  lemma {:induction false} ImpactGroupNoEmptyList(keys: seq<string>, msg: string)
    ensures NoEmptyList(ImpactGroup(keys, msg))
  {
    var v := ImpactGroup(keys, msg);
    forall i | 0 <= i < |v.entries| ensures NoEmptyList(v.entries[i].1) {
      SingletonNoEmptyList(msg);
    }
    EntriesNoEmptyListEach(v, v.entries);
  }

  /** The low public-health impact summary every insufficient analysis carries. */
  function LowImpactSummary(): Value
  {
    PyDict([("primary_category", PyStr("public_health")), ("impact_level", PyStr("low")), ("relevance_to_texas", PyStr("low"))])
  }

  lemma {:induction false} LowImpactSummaryNoEmptyList()
    ensures NoEmptyList(LowImpactSummary())
  {
    var v := LowImpactSummary();
    EntriesNoEmptyListEach(v, v.entries);
  }

  /** A one-element list of one string, free of empty lists. */
  function Single(s: string): Value
  {
    PyList([PyStr(s)])
  }

  lemma {:induction false} SingleNoEmptyList(s: string)
    ensures NoEmptyList(Single(s))
  {
    assert [PyStr(s)][1..] == [];
  }

  // ---------------------------------------------------------------------
  // The analyzer's insufficient-text analysis
  // ---------------------------------------------------------------------

  /** The texts of the analyzer's template, which its two copies share. */
  datatype TemplateText = TemplateText(
    summary: string, point: string, placeholder: string, recommended: string, immediate: string, resources: string)

  const PublicHealthKeys: seq<string> := ["direct_effects", "indirect_effects", "funding_impact", "vulnerable_populations"]
  const LocalGovernmentKeys: seq<string> := ["administrative", "fiscal", "implementation"]
  const EconomicKeys: seq<string> := ["direct_costs", "economic_effects", "benefits", "long_term_impact"]

  /** The keys of the analyzer's template, in insertion order. */
  const TemplateKeys: seq<string> := [
    "summary", "key_points", "public_health_impacts", "local_government_impacts", "economic_impacts",
    "environmental_impacts", "education_impacts", "infrastructure_impacts", "recommended_actions",
    "immediate_actions", "resource_needs", "impact_summary", "insufficient_text"]

  /** The values of the analyzer's template, key by key. */
  function TemplateValues(t: TemplateText): (vs: seq<Value>)
    ensures |vs| == |TemplateKeys|
  {
    [PyStr(t.summary),
     PyList([KeyPoint(t.point)]),
     ImpactGroup(PublicHealthKeys, t.placeholder),
     ImpactGroup(LocalGovernmentKeys, t.placeholder),
     ImpactGroup(EconomicKeys, t.placeholder),
     Single(t.placeholder),
     Single(t.placeholder),
     Single(t.placeholder),
     Single(t.recommended),
     Single(t.immediate),
     Single(t.resources),
     LowImpactSummary(),
     PyBool(true)]
  }

  function KeyPoint(point: string): Value
  {
    PyDict([("point", PyStr(point)), ("impact_type", PyStr("neutral"))])
  }

  /** The dict entries pairing keys with values. */
  function Zip(ks: seq<string>, vs: seq<Value>): (es: seq<(string, Value)>)
    requires |ks| == |vs|
    ensures |es| == |ks|
    ensures forall i :: 0 <= i < |ks| ==> es[i] == (ks[i], vs[i])
  {
    seq(|ks|, i requires 0 <= i < |ks| => (ks[i], vs[i]))
  }

  /** The entries of the analyzer's template, insufficient_text last. */
  function TemplateEntries(t: TemplateText): seq<(string, Value)>
  {
    Zip(TemplateKeys, TemplateValues(t))
  }

  /** create_insufficient_text_analysis of legislation_analyzer and the fallback of get_insufficient_analysis. */
  function InsufficientTemplate(t: TemplateText): Value
  {
    PyDict(TemplateEntries(t))
  }

  const AnalyzerText := TemplateText(
    "Insufficient text available for detailed analysis.",
    "Insufficient text for detailed analysis",
    "Unable to determine due to insufficient text",
    "Monitor for more detailed information",
    "None required at this time",
    "None identified due to insufficient text")

  /** The bill helper's fallback differs from the analyzer's template only in its summary. */
  function BillFallbackText(): TemplateText
  {
    AnalyzerText.(summary := "Insufficient text available for analysis.")
  }

  /** get_insufficient_analysis: the analyzer's own template when it has one, else the fallback literal. */
  function GetInsufficientAnalysis(analyzerTemplate: Option<Value>): Value
  {
    match analyzerTemplate
    case Some(v) => v
    case None => InsufficientTemplate(BillFallbackText())
  }

  /** The last entry of the template is insufficient_text = True, and no key repeats before it. */
  lemma {:induction false} TemplateFlag(t: TemplateText)
    ensures var es := TemplateEntries(t);
      es[|es| - 1] == ("insufficient_text", PyBool(true))
      && forall i :: 0 <= i < |es| - 1 ==> es[i].0 != "insufficient_text"
  {
  }

  /** Hence d["insufficient_text"] is True in the template. */
  lemma {:induction false} TemplateIsInsufficient(t: TemplateText)
    ensures Get(TemplateEntries(t), "insufficient_text") == Some(PyBool(true))
  {
    TemplateFlag(t);
    var es := TemplateEntries(t);
    GetLast(es, "insufficient_text");
  }

  /** d.get(k) finds the last entry when no earlier entry has key k. */
  lemma {:induction false} GetLast(es: seq<(string, Value)>, k: string)
    requires |es| > 0 && es[|es| - 1].0 == k
    requires forall i :: 0 <= i < |es| - 1 ==> es[i].0 != k
    ensures Get(es, k) == Some(es[|es| - 1].1)
    decreases |es|
  {
    if |es| > 1 {
      GetLast(es[1..], k);
    }
  }

  /** Every value of the template is free of empty lists. */
  lemma {:induction false} TemplateValuesNoEmptyList(t: TemplateText)
    ensures forall i :: 0 <= i < |TemplateKeys| ==> NoEmptyList(TemplateValues(t)[i])
  {
    ImpactGroupNoEmptyList(PublicHealthKeys, t.placeholder);
    ImpactGroupNoEmptyList(LocalGovernmentKeys, t.placeholder);
    ImpactGroupNoEmptyList(EconomicKeys, t.placeholder);
    SingleNoEmptyList(t.placeholder);
    SingleNoEmptyList(t.recommended);
    SingleNoEmptyList(t.immediate);
    SingleNoEmptyList(t.resources);
    LowImpactSummaryNoEmptyList();
    KeyPointsNoEmptyList(t.point);
    var vs := TemplateValues(t);
    forall i | 0 <= i < |TemplateKeys| ensures NoEmptyList(vs[i]) {
      if i < 5 {
        assert i == 0 || i == 1 || i == 2 || i == 3 || i == 4;
      } else if i < 11 {
        assert vs[i] == Single(t.placeholder) || vs[i] == Single(t.recommended)
          || vs[i] == Single(t.immediate) || vs[i] == Single(t.resources);
      }
    }
  }

  lemma {:induction false} KeyPointsNoEmptyList(point: string)
    ensures NoEmptyList(PyList([KeyPoint(point)]))
  {
    var v := KeyPoint(point);
    EntriesNoEmptyListEach(v, v.entries);
    assert ItemsNoEmptyList(PyList([v]), [v]) by {
      assert [v][1..] == [];
    }
  }

  /** Every impact list of the template, and every other list in it, is non-empty. */
  lemma {:induction false} TemplateNoEmptyList(t: TemplateText)
    ensures NoEmptyList(InsufficientTemplate(t))
  {
    TemplateValuesNoEmptyList(t);
    var v := InsufficientTemplate(t);
    EntriesNoEmptyListEach(v, v.entries);
  }

  // ---------------------------------------------------------------------
  // The asynchronous marker analysis and the normalisation on store
  // ---------------------------------------------------------------------

  /** The summary that marks an analysis as made without enough text. */
  const Marker := "INSUFFICIENT_TEXT_FOR_ANALYSIS"

  /** The summary written into a normalised analysis. */
  const DetailedSummary := "Insufficient text available for detailed analysis."

  /** create_insufficient_text_analysis of the asynchronous path: the marker, the flag and three empty lists. */
  function MarkerAnalysis(): Value
  {
    PyDict([("summary", PyStr(Marker)), ("impact_summary", LowImpactSummary()), ("insufficient_text", PyBool(true)),
            ("key_provisions", PyList([])), ("stakeholders", PyList([])), ("implementation_considerations", PyList([]))])
  }

  /** len(v): defined for sized values only. */
  function Len(v: Value): Result<nat, Error>
  {
    match v
    case PyStr(s) => Ok(|s|)
    case PyBytes(bs) => Ok(|bs|)
    case PyList(xs) => Ok(|xs|)
    case PyDict(es) => Ok(|es|)
    case _ => Err(TypeError("object has no len()"))
  }

  /** Whether the store treats the analysis as made without enough text: the marker summary or one shorter than 20. */
  function LooksInsufficient(es: seq<(string, Value)>): Result<bool, Error>
  {
    var summary := GetOr(es, "summary", PyStr(""));
    if summary == PyStr(Marker) then Ok(true)
    else match Len(summary)
      case Err(e) => Err(e)
      case Ok(n) => Ok(n < 20)
  }

  /** The rewrite: flag set, fixed summary, low impact summary. */
  function MarkInsufficient(es: seq<(string, Value)>): seq<(string, Value)>
  {
    Set(Set(Set(es, "insufficient_text", PyBool(true)), "summary", PyStr(DetailedSummary)), "impact_summary", LowImpactSummary())
  }

  /**
   * The normalisation of _store_analysis_results_async: no data becomes the
   * marker analysis, which like any analysis with the marker summary or a
   * summary shorter than 20 is rewritten; a summary without a length is a
   * TypeError, data that is not a dict an AttributeError.
   */
  function Normalize(d: Value): Result<Value, Error>
  {
    var data := if Truthy(d) then d else MarkerAnalysis();
    if !data.PyDict? then Err(AttributeError("object has no attribute 'get'"))
    else match LooksInsufficient(data.entries)
      case Err(e) => Err(e)
      case Ok(insufficient) => Ok(if insufficient then PyDict(MarkInsufficient(data.entries)) else data)
  }

  /** What the rewrite leaves: the flag, the summary and the impact summary set, every other key unchanged. */
  lemma {:induction false} MarkInsufficientGets(es: seq<(string, Value)>, k: string)
    ensures Get(MarkInsufficient(es), k) ==
      if k == "impact_summary" then Some(LowImpactSummary())
      else if k == "summary" then Some(PyStr(DetailedSummary))
      else if k == "insufficient_text" then Some(PyBool(true))
      else Get(es, k)
  {
    var s1 := Set(es, "insufficient_text", PyBool(true));
    var s2 := Set(s1, "summary", PyStr(DetailedSummary));
    GetSet(es, "insufficient_text", PyBool(true), k);
    GetSet(s1, "summary", PyStr(DetailedSummary), k);
    GetSet(s2, "impact_summary", LowImpactSummary(), k);
  }

  /** A normalised analysis is a dict; when it was rewritten it carries the flag, the fixed summary and the low impact summary. */
  lemma {:induction false} NormalizeMarks(d: Value)
    requires Normalize(d).Ok?
    ensures Normalize(d).value.PyDict?
    ensures var data := if Truthy(d) then d else MarkerAnalysis();
      LooksInsufficient(data.entries) == Ok(true) ==>
        var es := Normalize(d).value.entries;
        Get(es, "insufficient_text") == Some(PyBool(true))
        && Get(es, "summary") == Some(PyStr(DetailedSummary))
        && Get(es, "impact_summary") == Some(LowImpactSummary())
    ensures var data := if Truthy(d) then d else MarkerAnalysis();
      LooksInsufficient(data.entries) == Ok(false) ==> Normalize(d) == Ok(d)
  {
    var data := if Truthy(d) then d else MarkerAnalysis();
    MarkInsufficientGets(data.entries, "insufficient_text");
    MarkInsufficientGets(data.entries, "summary");
    MarkInsufficientGets(data.entries, "impact_summary");
  }

  /** The rewritten summary is long enough and not the marker, so the rewrite is not triggered again. */
  lemma {:induction false} DetailedSummaryPasses(es: seq<(string, Value)>)
    requires Get(es, "summary") == Some(PyStr(DetailedSummary))
    ensures LooksInsufficient(es) == Ok(false)
  {
    var m, s := Marker, DetailedSummary;
    assert |s| >= 20;
    assert s != m by {
      assert |s| != |m|;
    }
  }

  /** No data normalises to the rewritten marker analysis. */
  lemma {:induction false} NormalizeNothing(d: Value)
    requires !Truthy(d)
    ensures Normalize(d) == Ok(PyDict(MarkInsufficient(MarkerAnalysis().entries)))
  {
    assert Get(MarkerAnalysis().entries, "summary") == Some(PyStr(Marker));
  }

  /** Normalising twice is normalising once. */
  lemma {:induction false} NormalizeIdempotent(d: Value)
    requires Normalize(d).Ok?
    ensures Normalize(Normalize(d).value) == Normalize(d)
  {
    var data := if Truthy(d) then d else MarkerAnalysis();
    NormalizeMarks(d);
    var r := Normalize(d).value;
    if LooksInsufficient(data.entries) == Ok(true) {
      var es := r.entries;
      DetailedSummaryPasses(es);
      assert Truthy(r) by {
        GetFindsKey(es, "summary");
      }
    }
  }
}
