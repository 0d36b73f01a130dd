/**
 * The Congress.gov client of congress_api.py: the request wrapper, the
 * congress number of the current year, the two bill formatters, the
 * batch loop of fetch_new_legislation, the text-version choice of
 * get_bill_text and the keyword filter of check_updates.  HTTP answers,
 * the database and the clock are parameters.
 */
module Congress {
  import opened Wrappers
  import opened PyValue
  import opened Errors
  import Text

  type Dict = seq<(string, Value)>

  // ---------------------------------------------------------------------
  // _make_request

  /** What requests.get produced: an HTTP answer with its JSON body, or a RequestException. */
  datatype Outcome = Answered(status: int, body: Value) | RequestFailed(reason: string)

  const NoKeyMessage := "Congress.gov API key not found in environment variables"

  /**
   * _make_request: no API key is a ValueError; a 404 answer is an empty
   * dict; any other 4xx or 5xx answer, and a failed request, is raised;
   * otherwise the JSON body.
   */
  function MakeRequest(apiKey: Option<string>, outcome: Outcome): (r: Result<Value, Error>)
    ensures (apiKey.None? || apiKey.value == "") ==> r == Err(ValueError(NoKeyMessage))
    ensures r.Ok? ==> outcome.Answered? && (outcome.status == 404 || !(400 <= outcome.status < 600))
    ensures r.Ok? && outcome.status == 404 ==> r.value == PyDict([])
    ensures r.Ok? && outcome.status != 404 ==> r.value == outcome.body
    ensures (apiKey.Some? && apiKey.value != "" && outcome.Answered? && (outcome.status == 404 || !(400 <= outcome.status < 600))) ==> r.Ok?
  {
    if apiKey.None? || apiKey.value == "" then Err(ValueError(NoKeyMessage))
    else match outcome
      case RequestFailed(reason) => Err(OtherError("RequestException", reason))
      case Answered(status, body) =>
        if status == 404 then Ok(PyDict([]))
        else if 400 <= status < 600 then Err(OtherError("HTTPError", Text.IntToString(status)))
        else Ok(body)
  }

  /** The query parameters _make_request sends: the caller's, plus api_key and format=json. */
  function RequestParams(params: Dict, apiKey: string): (r: Dict)
    ensures HasKey(r, "api_key") && HasKey(r, "format")
  {
    Set(Set(params, "api_key", PyStr(apiKey)), "format", PyStr("json"))
  }

  /** api_key and format are overwritten, and every other parameter is sent as given. */
  lemma {:induction false} RequestParamsValues(params: Dict, apiKey: string, k: string)
    ensures Get(RequestParams(params, apiKey), k)
            == if k == "format" then Some(PyStr("json"))
               else if k == "api_key" then Some(PyStr(apiKey))
               else Get(params, k)
  {
    GetSet(Set(params, "api_key", PyStr(apiKey)), "format", PyStr("json"), k);
    GetSet(params, "api_key", PyStr(apiKey), k);
  }

  /** The pause before a request, in seconds, so that at least `delay` separates two requests. */
  function ThrottleSleep(elapsed: real, delay: real): (pause: real)
    ensures pause >= 0.0
    ensures elapsed + pause >= delay
    ensures elapsed >= delay ==> pause == 0.0
    ensures elapsed < delay ==> elapsed + pause == delay
  {
    if elapsed < delay then delay - elapsed else 0.0
  }

  // ---------------------------------------------------------------------
  // The congress number

  /** The first calendar year of the n-th Congress. */
  function FirstYear(n: int): int
  {
    1789 + 2 * (n - 1)
  }

  /**
   * ((year - 1789) // 2) + 1.  Python's // floors; Dafny's / on a positive
   * divisor agrees with it for every year, before 1789 too.
   */
  function CongressNumber(year: int): (n: int)
    ensures FirstYear(n) <= year < FirstYear(n) + 2
  {
    (year - 1789) / 2 + 1
  }

  /** A year belongs to Congress n exactly when it is one of n's two years. */
  lemma {:induction false} CongressOfYear(year: int, n: int)
    ensures CongressNumber(year) == n <==> FirstYear(n) <= year <= FirstYear(n) + 1
  {
    var m := CongressNumber(year);
    if m < n {
      assert FirstYear(m) + 2 <= FirstYear(n);
    } else if m > n {
      assert FirstYear(n) + 2 <= FirstYear(m);
    }
  }

  lemma {:induction false} Congress2025()
    ensures CongressNumber(2025) == 119 && CongressNumber(2026) == 119 && CongressNumber(2027) == 120
  {
  }

  // ---------------------------------------------------------------------
  // Pieces shared by the formatters

  /** The text before the first newline: summary_text.split('\n', 1)[0]. */
  function FirstLine(s: string): (r: string)
    ensures r <= s && '\n' !in r
    ensures |r| < |s| ==> s[|r|] == '\n'
  {
    if '\n' in s then s[..Text.IndexOf(s, '\n')] else s
  }

  /** The summary: the first line, cut to 300 characters and marked with "..." when longer. */
  function SummaryLine(s: string): (r: string)
    ensures '\n' !in r && |r| <= 303
    ensures (|r| <= 300 && r <= s) || (|r| == 303 && r[..300] <= s && r[300..] == "...")
    ensures '\n' !in s && |s| <= 300 ==> r == s
  {
    var line := FirstLine(s);
    if |line| > 300 then line[..300] + "..." else line
  }

  /** A sponsor that makes the list: a dict with a truthy name. */
  predicate NamedSponsor(v: Value)
  {
    v.PyDict? && Truthy(GetOr(v.entries, "name", PyStr("")))
  }

  function NameOf(v: Value): Value
    requires v.PyDict?
  {
    GetOr(v.entries, "name", PyStr(""))
  }

  /** The names of the named sponsors, in order. */
  function SponsorNames(xs: seq<Value>): (r: seq<Value>)
    ensures |r| <= |xs|
    ensures forall n :: n in r ==> Truthy(n)
    ensures (forall i :: 0 <= i < |xs| ==> NamedSponsor(xs[i]))
            ==> |r| == |xs| && forall i :: 0 <= i < |xs| ==> r[i] == NameOf(xs[i])
    ensures (forall i :: 0 <= i < |xs| ==> !NamedSponsor(xs[i])) ==> r == []
  {
    if |xs| == 0 then []
    else if NamedSponsor(xs[0]) then [NameOf(xs[0])] + SponsorNames(xs[1..])
    else SponsorNames(xs[1..])
  }

  /** Iterating the sponsors value: a str, dict or bytes yields no dicts; a non-iterable raises. */
  function SponsorsOf(v: Value): Option<seq<Value>>
  {
    match v
    case PyList(items) => Some(SponsorNames(items))
    case PyStr(_) => Some([])
    case PyDict(_) => Some([])
    case PyBytes(_) => Some([])
    case _ => None
  }

  /** The bill type upper- or lower-cased; with orEmpty a falsy type counts as "", else only a str has the method. */
  function TypeText(v: Value, upper: bool, orEmpty: bool): (r: Option<string>)
    ensures r.Some? && upper ==> forall i :: 0 <= i < |r.value| ==> !Text.IsLowerAscii(r.value[i])
    ensures r.Some? && !upper ==> forall i :: 0 <= i < |r.value| ==> !Text.IsUpperAscii(r.value[i])
  {
    if orEmpty && !Truthy(v) then Some("")
    else if v.PyStr? then Some(if upper then Text.Upper(v.s) else Text.Lower(v.s))
    else None
  }

  /** The last action's date and text; a truthy latestAction that is not a dict has no get(). */
  function LatestActionOf(la: Value): Option<(Value, Value)>
  {
    if !Truthy(la) then Some((PyStr(""), PyStr("")))
    else if la.PyDict? then Some((GetOr(la.entries, "actionDate", PyStr("")), GetOr(la.entries, "text", PyStr(""))))
    else None
  }

  /** The summary line of the first summary; it must be a dict, and a truthy text must be a str. */
  function FirstSummaryLine(sm: Value): (r: Option<Value>)
    requires sm.PyList? && |sm.items| > 0
    ensures r.Some? ==> r.value.PyStr? && '\n' !in r.value.s && |r.value.s| <= 303
  {
    var first := sm.items[0];
    if !first.PyDict? then None
    else
      var t := GetOr(first.entries, "text", PyStr(""));
      if !Truthy(t) then Some(PyStr(""))
      else if t.PyStr? then Some(PyStr(SummaryLine(t.s)))
      else None
  }

  // ---------------------------------------------------------------------
  // The formatted bill

  /** The nine fields both formatters produce. */
  datatype BillCore = BillCore(
    congress: Value, billType: string, number: Value, title: Value, introducedDate: Value,
    lastActionDate: Value, lastActionText: Value, sponsors: seq<Value>, summary: Value)

  /** _format_bill_data's result: the core plus the summaries and the raw response. */
  datatype FormattedBill = FormattedBill(core: BillCore, summaries: Value, raw: Dict)

  function CoreDict(c: BillCore): Dict
  {
    [("congress", c.congress), ("type", PyStr(c.billType)), ("number", c.number), ("title", c.title),
     ("introduced_date", c.introducedDate), ("last_action_date", c.lastActionDate),
     ("last_action_text", c.lastActionText), ("sponsors", PyList(c.sponsors)), ("summary", c.summary)]
  }

  function BillDict(b: FormattedBill): Dict
  {
    CoreDict(b.core) + [("summaries", b.summaries), ("raw_response", PyDict(b.raw))]
  }

  /** The bill details this model expects from Congress.gov, under which no formatter raises. */
  predicate WellShaped(info: Dict)
  {
    var t := GetOr(info, "type", PyStr(""));
    var la := GetOr(info, "latestAction", PyDict([]));
    var sm := GetOr(info, "summaries", PyNone);
    t.PyStr? && (!Truthy(la) || la.PyDict?)
    && GetOr(info, "sponsors", PyList([])).PyList?
    && (Truthy(sm) && sm.PyList? ==> FirstSummaryLine(sm).Some?)
  }

  /**
   * _format_bill_data; None stands for the {} its exception handler
   * returns.  orEmpty says whether a falsy type counts as "" (the later
   * copy) or must be a str (this file).
   */
  function FormatBillDataWith(info: Dict, orEmpty: bool): (r: Option<FormattedBill>)
    ensures WellShaped(info) ==> r.Some?
    ensures r.Some? ==> r.value.raw == info
    ensures r.Some? ==> r.value.core.title == GetOr(info, "title", PyStr(""))
                        && r.value.core.number == GetOr(info, "number", PyNone)
    ensures r.Some? ==> forall i :: 0 <= i < |r.value.core.billType| ==> !Text.IsLowerAscii(r.value.core.billType[i])
    ensures r.Some? ==> forall n :: n in r.value.core.sponsors ==> Truthy(n)
    ensures r.Some? ==> r.value.core.summary.PyStr? && '\n' !in r.value.core.summary.s && |r.value.core.summary.s| <= 303
  {
    var t := TypeText(GetOr(info, "type", PyStr("")), true, orEmpty);
    var la := LatestActionOf(GetOr(info, "latestAction", PyDict([])));
    var sp := GetOr(info, "sponsors", PyList([]));
    var names := if Truthy(sp) then SponsorsOf(sp) else Some([]);
    var sm := GetOr(info, "summaries", PyNone);
    var summary := if Truthy(sm) && sm.PyList? then FirstSummaryLine(sm) else Some(PyStr(""));
    if t.None? || la.None? || names.None? || summary.None? then None
    else
      Some(FormattedBill(
        BillCore(GetOr(info, "congress", PyNone), t.value, GetOr(info, "number", PyNone),
                 GetOr(info, "title", PyStr("")), GetOr(info, "introducedDate", PyStr("")),
                 la.value.0, la.value.1, names.value, summary.value),
        if Truthy(sm) then sm else PyList([]),
        info))
  }

  /** _format_bill_data of this file: the type must be a str when present. */
  function FormatBillData(info: Dict): Option<FormattedBill>
  {
    FormatBillDataWith(info, false)
  }

  /**
   * _format_bill: the type lower-cased, sponsors always iterated, and the
   * bill's own "summary" used when there is no summaries list.
   */
  function FormatBill(bill: Dict): (r: Option<BillCore>)
    ensures r.Some? ==> forall i :: 0 <= i < |r.value.billType| ==> !Text.IsUpperAscii(r.value.billType[i])
    ensures r.Some? ==> forall n :: n in r.value.sponsors ==> Truthy(n)
  {
    var t := TypeText(GetOr(bill, "type", PyNone), false, true);
    var la := LatestActionOf(GetOr(bill, "latestAction", PyDict([])));
    var names := SponsorsOf(GetOr(bill, "sponsors", PyList([])));
    var sm := GetOr(bill, "summaries", PyNone);
    var fallback := GetOr(bill, "summary", PyNone);
    var summary :=
      if Truthy(sm) && sm.PyList? then FirstSummaryLine(sm)
      else if Truthy(fallback) then Some(fallback)
      else Some(PyStr(""));
    if t.None? || la.None? || names.None? || summary.None? then None
    else
      Some(BillCore(GetOr(bill, "congress", PyNone), t.value, GetOr(bill, "number", PyNone),
                    GetOr(bill, "title", PyStr("")), GetOr(bill, "introducedDate", PyStr("")),
                    la.value.0, la.value.1, names.value, summary.value))
  }

  /** Without a summaries list, _format_bill takes the bill's own truthy summary as it is. */
  lemma {:induction false} SummaryFallback(bill: Dict)
    requires FormatBill(bill).Some?
    requires !(Truthy(GetOr(bill, "summaries", PyNone)) && GetOr(bill, "summaries", PyNone).PyList?)
    requires Truthy(GetOr(bill, "summary", PyNone))
    ensures FormatBill(bill).value.summary == GetOr(bill, "summary", PyNone)
  {
  }

  lemma {:induction false} UpperOfLower(s: string)
    ensures Text.Upper(Text.Lower(s)) == Text.Upper(s)
  {
    assert forall i :: 0 <= i < |s| ==> Text.Upper(Text.Lower(s))[i] == Text.Upper(s)[i];
  }

  /** The type as _format_bill reads it, upper-cased, is the type as _format_bill_data reads it. */
  lemma {:induction false} TypeTextAgree(info: Dict)
    requires GetOr(info, "type", PyStr("")).PyStr?
    ensures TypeText(GetOr(info, "type", PyNone), false, true).Some?
    ensures TypeText(GetOr(info, "type", PyStr("")), true, true).Some?
    ensures Text.Upper(TypeText(GetOr(info, "type", PyNone), false, true).value)
            == TypeText(GetOr(info, "type", PyStr("")), true, true).value
  {
    var t := GetOr(info, "type", PyNone);
    if Truthy(t) {
      UpperOfLower(t.s);
    }
  }

  /**
   * On well-shaped details whose summary comes from the summaries list (or
   * is empty either way), the two formatters agree on every core field
   * but the case of the type.
   */
  lemma {:induction false} FormattersAgree(info: Dict)
    requires WellShaped(info)
    requires var sm := GetOr(info, "summaries", PyNone);
             (Truthy(sm) && sm.PyList?) || !Truthy(GetOr(info, "summary", PyNone))
    ensures FormatBill(info).Some? && FormatBillDataWith(info, true).Some?
    ensures var a := FormatBill(info).value;
            var b := FormatBillDataWith(info, true).value.core;
            a.(billType := b.billType) == b && Text.Upper(a.billType) == b.billType
  {
    TypeTextAgree(info);
    var sp := GetOr(info, "sponsors", PyList([]));
    assert SponsorsOf(sp) == if Truthy(sp) then SponsorsOf(sp) else Some([]) by {
      if !Truthy(sp) {
        assert sp == PyList([]);
        assert SponsorNames([]) == [];
      }
    }
    var sm := GetOr(info, "summaries", PyNone);
    var fromList := if Truthy(sm) && sm.PyList? then FirstSummaryLine(sm) else Some(PyStr(""));
    assert FormatBill(info).Some? && FormatBill(info).value.summary == fromList.value;
  }

  // ---------------------------------------------------------------------
  // fetch_new_legislation

  /** A listed bill's identifiers: congress, upper-cased type, number. */
  datatype BillId = BillId(congress: Value, billType: string, number: Value)

  predicate Identified(id: BillId)
  {
    Truthy(id.congress) && id.billType != "" && Truthy(id.number)
  }

  /** The identifiers of a listed bill; None when the type has no upper() (the step's handler skips it). */
  function IdOf(bill: Dict): Option<BillId>
  {
    var t := GetOr(bill, "type", PyStr(""));
    if t.PyStr? then Some(BillId(GetOr(bill, "congress", PyNone), Text.Upper(t.s), GetOr(bill, "number", PyNone)))
    else None
  }

  /**
   * One step of the batch loop: the formatted bill it appends, or None when
   * the bill is skipped (missing identifiers, already tracked, no details,
   * no title or number after formatting).
   */
  function ProcessBill(bill: Dict, tracked: BillId -> bool, details: BillId -> Dict, summaries: BillId -> seq<Value>)
    : (r: Option<FormattedBill>)
    ensures r.Some? ==> IdOf(bill).Some? && Identified(IdOf(bill).value) && !tracked(IdOf(bill).value)
    ensures r.Some? ==> Truthy(r.value.core.title) && Truthy(r.value.core.number)
  {
    match IdOf(bill)
    case None => None
    case Some(id) =>
      if !Identified(id) || tracked(id) then None
      else
        var info := details(id);
        if info == [] then None
        else
          match FormatBillData(Set(info, "summaries", PyList(summaries(id))))
          case None => None
          case Some(fb) => if Truthy(fb.core.title) && Truthy(fb.core.number) then Some(fb) else None
  }

  /**
   * The batch loop over the bills, in order; None when a bill is not a
   * dict, which the per-bill handler cannot log and which ends the whole
   * call with [].
   */
  function FetchBatch(bills: seq<Value>, tracked: BillId -> bool, details: BillId -> Dict, summaries: BillId -> seq<Value>)
    : (r: Option<seq<FormattedBill>>)
    ensures r.Some? ==> |r.value| <= |bills|
    ensures r.Some? ==> forall fb :: fb in r.value ==> Truthy(fb.core.title) && Truthy(fb.core.number)
  {
    if |bills| == 0 then Some([])
    else
      match FetchBatch(bills[..|bills| - 1], tracked, details, summaries)
      case None => None
      case Some(acc) =>
        var b := bills[|bills| - 1];
        if !b.PyDict? then None
        else
          match ProcessBill(b.entries, tracked, details, summaries)
          case Some(fb) => Some(acc + [fb])
          case None => Some(acc)
  }

  function BillDicts(fbs: seq<FormattedBill>): (r: seq<Dict>)
    ensures |r| == |fbs|
    ensures forall i :: 0 <= i < |fbs| ==> r[i] == BillDict(fbs[i])
  {
    if |fbs| == 0 then [] else BillDicts(fbs[..|fbs| - 1]) + [BillDict(fbs[|fbs| - 1])]
  }

  /** Once a prefix of the batch aborts, the whole batch does. */
  lemma {:induction false} AbortSticks(bills: seq<Value>, n: nat, tracked: BillId -> bool, details: BillId -> Dict, summaries: BillId -> seq<Value>)
    requires n <= |bills|
    requires FetchBatch(bills[..n], tracked, details, summaries).None?
    ensures FetchBatch(bills, tracked, details, summaries).None?
    decreases |bills| - n
  {
    if n < |bills| {
      assert bills[..n + 1][..n] == bills[..n];
      AbortSticks(bills, n + 1, tracked, details, summaries);
    } else {
      assert bills[..n] == bills;
    }
  }

  /** A bill without congress, type or number adds nothing to the batch. */
  lemma {:induction false} SkipsUnidentified(bills: seq<Value>, bill: Dict, tracked: BillId -> bool, details: BillId -> Dict, summaries: BillId -> seq<Value>)
    requires IdOf(bill).None? || !Identified(IdOf(bill).value)
    ensures FetchBatch(bills + [PyDict(bill)], tracked, details, summaries) == FetchBatch(bills, tracked, details, summaries)
  {
    assert (bills + [PyDict(bill)])[..|bills|] == bills;
  }

  /** A bill that is not a dict anywhere in the batch empties the whole result. */
  lemma {:induction false} NonDictBillEmptiesBatch(bills: seq<Value>, i: nat, tracked: BillId -> bool, details: BillId -> Dict, summaries: BillId -> seq<Value>)
    requires i < |bills| && !bills[i].PyDict?
    ensures FetchBatch(bills, tracked, details, summaries).None?
  {
    assert bills[..i + 1][..i] == bills[..i];
    assert bills[..i + 1][i] == bills[i];
    AbortSticks(bills, i + 1, tracked, details, summaries);
  }

  /** One more bill: the batch aborts on a non-dict, else it grows by what ProcessBill keeps. */
  lemma {:induction false} FetchBatchStep(bills: seq<Value>, i: nat, done: seq<FormattedBill>,
                       tracked: BillId -> bool, details: BillId -> Dict, summaries: BillId -> seq<Value>)
    requires i < |bills| && FetchBatch(bills[..i], tracked, details, summaries) == Some(done)
    ensures FetchBatch(bills[..i + 1], tracked, details, summaries) ==
      if !bills[i].PyDict? then None
      else match ProcessBill(bills[i].entries, tracked, details, summaries)
        case Some(fb) => Some(done + [fb])
        case None => Some(done)
  {
    assert bills[..i + 1][..i] == bills[..i];
  }

  /** The bill list of a bill/{congress} answer: bills.bill or bills as a list; anything else holds none. */
  function BatchOf(response: Value): seq<Value>
  {
    if response.PyDict? && HasKey(response.entries, "bills") then
      var bills := GetOr(response.entries, "bills", PyNone);
      if bills.PyDict? && HasKey(bills.entries, "bill") then
        (match GetOr(bills.entries, "bill", PyNone) case PyList(items) => items case _ => [])
      else if bills.PyList? then bills.items
      else []
    else []
  }

  /**
   * fetch_new_legislation after the request: the formatted bills of the
   * batch, skipping what ProcessBill skips, or [] when a bill is not a dict.
   */
  method FetchNewLegislation(response: Value, tracked: BillId -> bool, details: BillId -> Dict, summaries: BillId -> seq<Value>)
    returns (newBills: seq<Dict>)
    ensures newBills == match FetchBatch(BatchOf(response), tracked, details, summaries)
                        case Some(fbs) => BillDicts(fbs)
                        case None => []
  {
    var bills := BatchOf(response);
    if |bills| == 0 {
      return [];
    }
    newBills := [];
    ghost var done: seq<FormattedBill> := [];
    var i := 0;
    while i < |bills|
      invariant 0 <= i <= |bills|
      invariant FetchBatch(bills[..i], tracked, details, summaries) == Some(done)
      invariant newBills == BillDicts(done)
    {
      var bill := bills[i];
      FetchBatchStep(bills, i, done, tracked, details, summaries);
      if !bill.PyDict? {
        AbortSticks(bills, i + 1, tracked, details, summaries);
        return [];
      }
      ghost var step := ProcessBill(bill.entries, tracked, details, summaries);
      var id := IdOf(bill.entries);
      if id.Some? && Identified(id.value) && !tracked(id.value) {
        var info := details(id.value);
        if info != [] {
          var formatted := FormatBillData(Set(info, "summaries", PyList(summaries(id.value))));
          if formatted.Some? && Truthy(formatted.value.core.title) && Truthy(formatted.value.core.number) {
            assert step == formatted;
            newBills := newBills + [BillDict(formatted.value)];
            done := done + [formatted.value];
          } else {
            assert step.None?;
          }
        } else {
          assert step.None?;
        }
      } else {
        assert step.None?;
      }
      i := i + 1;
    }
    assert bills[..i] == bills;
  }

  // ---------------------------------------------------------------------
  // get_bill_text

  /** One entry of a text version's formats: its type and url, each absent or a str. */
  datatype TextFormat = TextFormat(ftype: Option<string>, url: Option<string>)

  /** One entry of textVersions. */
  datatype TextVersion = TextVersion(vtype: Option<string>, formats: seq<TextFormat>)

  /** What requests.get of a url gave: an ok answer's text, a not-ok answer, or a RequestException. */
  datatype Fetched = Fetched(text: string) | NotOk | Raised

  /** A pass ends with a text, with an exception, or having found nothing. */
  datatype Scan = Found(text: string) | Failed | Exhausted

  predicate IsFormattedText(f: TextFormat)
  {
    f.ftype == Some("Formatted Text")
  }

  /**
   * One pass over one version's formats.  The first pass (formattedOnly)
   * reads fmt['url'] of each Formatted Text entry, which fails when there
   * is none; the second fetches every entry that has a url.
   */
  function ScanFormats(fs: seq<TextFormat>, fetch: string -> Fetched, formattedOnly: bool): Scan
  {
    if |fs| == 0 then Exhausted
    else
      var f := fs[0];
      if formattedOnly && !IsFormattedText(f) then ScanFormats(fs[1..], fetch, formattedOnly)
      else if f.url.None? then (if formattedOnly then Failed else ScanFormats(fs[1..], fetch, formattedOnly))
      else
        match fetch(f.url.value)
        case Fetched(t) => Found(t)
        case NotOk => ScanFormats(fs[1..], fetch, formattedOnly)
        case Raised => Failed
  }

  /** One pass over all versions, version by version. */
  function ScanVersions(vs: seq<TextVersion>, fetch: string -> Fetched, formattedOnly: bool): Scan
  {
    if |vs| == 0 then Exhausted
    else
      match ScanFormats(vs[0].formats, fetch, formattedOnly)
      case Exhausted => ScanVersions(vs[1..], fetch, formattedOnly)
      case s => s
  }

  /**
   * get_bill_text: None without text versions; otherwise the first
   * Formatted Text that fetches, across all versions, and only then the
   * first url of any kind that fetches.  An exception ends with None.
   */
  function BillText(versions: Option<seq<TextVersion>>, fetch: string -> Fetched): Option<string>
  {
    if versions.None? || |versions.value| == 0 then None
    else
      match ScanVersions(versions.value, fetch, true)
      case Found(t) => Some(t)
      case Failed => None
      case Exhausted =>
        match ScanVersions(versions.value, fetch, false)
        case Found(t) => Some(t)
        case _ => None
  }

  /** The entry f serves text t in the pass. */
  predicate Serves(f: TextFormat, fetch: string -> Fetched, t: string, formattedOnly: bool)
  {
    (formattedOnly ==> IsFormattedText(f)) && f.url.Some? && fetch(f.url.value) == Fetched(t)
  }

  ghost predicate SomeEntryServes(vs: seq<TextVersion>, fetch: string -> Fetched, t: string, formattedOnly: bool)
  {
    exists i, j :: 0 <= i < |vs| && 0 <= j < |vs[i].formats| && Serves(vs[i].formats[j], fetch, t, formattedOnly)
  }

  /** No entry makes the first pass fail: every Formatted Text has a url and no fetch raises. */
  predicate NoFailures(vs: seq<TextVersion>, fetch: string -> Fetched)
  {
    forall i, j :: 0 <= i < |vs| && 0 <= j < |vs[i].formats| ==>
      (IsFormattedText(vs[i].formats[j]) ==> vs[i].formats[j].url.Some?)
      && (vs[i].formats[j].url.Some? ==> fetch(vs[i].formats[j].url.value) != Raised)
  }

  lemma {:induction false} ScanFormatsFound(fs: seq<TextFormat>, fetch: string -> Fetched, formattedOnly: bool)
    requires ScanFormats(fs, fetch, formattedOnly).Found?
    ensures exists j :: 0 <= j < |fs| && Serves(fs[j], fetch, ScanFormats(fs, fetch, formattedOnly).text, formattedOnly)
  {
    var t := ScanFormats(fs, fetch, formattedOnly).text;
    if !Serves(fs[0], fetch, t, formattedOnly) {
      ScanFormatsFound(fs[1..], fetch, formattedOnly);
      var j :| 0 <= j < |fs[1..]| && Serves(fs[1..][j], fetch, t, formattedOnly);
      assert fs[1..][j] == fs[j + 1];
    }
  }

  lemma {:induction false} ScanVersionsFound(vs: seq<TextVersion>, fetch: string -> Fetched, formattedOnly: bool)
    requires ScanVersions(vs, fetch, formattedOnly).Found?
    ensures SomeEntryServes(vs, fetch, ScanVersions(vs, fetch, formattedOnly).text, formattedOnly)
  {
    var t := ScanVersions(vs, fetch, formattedOnly).text;
    if ScanFormats(vs[0].formats, fetch, formattedOnly).Found? {
      ScanFormatsFound(vs[0].formats, fetch, formattedOnly);
      var j :| 0 <= j < |vs[0].formats| && Serves(vs[0].formats[j], fetch, t, formattedOnly);
      assert Serves(vs[0].formats[j], fetch, t, formattedOnly);
    } else {
      ScanVersionsFound(vs[1..], fetch, formattedOnly);
      var i, j :| 0 <= i < |vs[1..]| && 0 <= j < |vs[1..][i].formats| && Serves(vs[1..][i].formats[j], fetch, t, formattedOnly);
      assert vs[1..][i] == vs[i + 1];
    }
  }

  /** A first pass that ends with nothing saw every Formatted Text entry answer not-ok. */
  lemma {:induction false} ScanFormatsExhausted(fs: seq<TextFormat>, fetch: string -> Fetched)
    requires ScanFormats(fs, fetch, true).Exhausted?
    ensures forall j, t :: 0 <= j < |fs| ==> !Serves(fs[j], fetch, t, true)
  {
    if |fs| > 0 {
      ScanFormatsExhausted(fs[1..], fetch);
      forall j, t | 0 <= j < |fs| ensures !Serves(fs[j], fetch, t, true) {
        if j > 0 {
          assert fs[1..][j - 1] == fs[j];
        }
      }
    }
  }

  lemma {:induction false} ScanVersionsExhausted(vs: seq<TextVersion>, fetch: string -> Fetched, t: string)
    requires ScanVersions(vs, fetch, true).Exhausted?
    ensures !SomeEntryServes(vs, fetch, t, true)
  {
    if |vs| > 0 {
      ScanFormatsExhausted(vs[0].formats, fetch);
      ScanVersionsExhausted(vs[1..], fetch, t);
      forall i, j | 0 <= i < |vs| && 0 <= j < |vs[i].formats|
        ensures !Serves(vs[i].formats[j], fetch, t, true)
      {
        if i > 0 {
          assert vs[1..][i - 1] == vs[i];
        }
      }
    }
  }

  lemma {:induction false} ScanFormatsNoFailure(fs: seq<TextFormat>, fetch: string -> Fetched, formattedOnly: bool)
    requires forall j :: 0 <= j < |fs| ==> ((IsFormattedText(fs[j]) ==> fs[j].url.Some?) && (fs[j].url.Some? ==> fetch(fs[j].url.value) != Raised))
    ensures !ScanFormats(fs, fetch, formattedOnly).Failed?
  {
    if |fs| > 0 {
      assert forall j :: 0 <= j < |fs[1..]| ==> fs[1..][j] == fs[j + 1];
      ScanFormatsNoFailure(fs[1..], fetch, formattedOnly);
    }
  }

  lemma {:induction false} ScanVersionsNoFailure(vs: seq<TextVersion>, fetch: string -> Fetched, formattedOnly: bool)
    requires NoFailures(vs, fetch)
    ensures !ScanVersions(vs, fetch, formattedOnly).Failed?
  {
    if |vs| > 0 {
      ScanFormatsNoFailure(vs[0].formats, fetch, formattedOnly);
      assert forall i :: 0 <= i < |vs[1..]| ==> vs[1..][i] == vs[i + 1];
      ScanVersionsNoFailure(vs[1..], fetch, formattedOnly);
    }
  }

  /** Whatever text get_bill_text returns was served by one of the entries. */
  lemma {:induction false} BillTextServed(versions: Option<seq<TextVersion>>, fetch: string -> Fetched)
    requires BillText(versions, fetch).Some?
    ensures SomeEntryServes(versions.value, fetch, BillText(versions, fetch).value, false)
  {
    var vs := versions.value;
    if ScanVersions(vs, fetch, true).Found? {
      ScanVersionsFound(vs, fetch, true);
      var t := ScanVersions(vs, fetch, true).text;
      var i, j :| 0 <= i < |vs| && 0 <= j < |vs[i].formats| && Serves(vs[i].formats[j], fetch, t, true);
      assert Serves(vs[i].formats[j], fetch, t, false);
    } else {
      ScanVersionsFound(vs, fetch, false);
    }
  }

  /**
   * Formatted Text wins across versions: when some Formatted Text entry
   * fetches and nothing fails, the text returned is a Formatted Text, even
   * if an earlier version offers another format.
   */
  lemma {:induction false} FormattedTextPreferred(vs: seq<TextVersion>, fetch: string -> Fetched, t: string)
    requires NoFailures(vs, fetch) && SomeEntryServes(vs, fetch, t, true)
    ensures BillText(Some(vs), fetch).Some?
    ensures SomeEntryServes(vs, fetch, BillText(Some(vs), fetch).value, true)
  {
    ScanVersionsNoFailure(vs, fetch, true);
    if ScanVersions(vs, fetch, true).Exhausted? {
      ScanVersionsExhausted(vs, fetch, t);
    }
    ScanVersionsFound(vs, fetch, true);
  }

  /** The second pass runs only when no Formatted Text entry fetches. */
  lemma {:induction false} FallbackOnlyWithoutFormattedText(vs: seq<TextVersion>, fetch: string -> Fetched)
    requires |vs| > 0 && ScanVersions(vs, fetch, true).Exhausted?
    ensures forall t :: !SomeEntryServes(vs, fetch, t, true)
    ensures BillText(Some(vs), fetch) == (match ScanVersions(vs, fetch, false) case Found(t) => Some(t) case _ => None)
  {
    forall t ensures !SomeEntryServes(vs, fetch, t, true) {
      ScanVersionsExhausted(vs, fetch, t);
    }
  }

  /** One pass with the source's two nested loops, returning as soon as a text is found. */
  method ScanPass(vs: seq<TextVersion>, fetch: string -> Fetched, formattedOnly: bool) returns (s: Scan)
    ensures s == ScanVersions(vs, fetch, formattedOnly)
  {
    var i := 0;
    while i < |vs|
      invariant 0 <= i <= |vs|
      invariant ScanVersions(vs, fetch, formattedOnly) == ScanVersions(vs[i..], fetch, formattedOnly)
    {
      var fs := vs[i].formats;
      assert vs[i..][0] == vs[i] && vs[i..][1..] == vs[i + 1..];
      var j := 0;
      while j < |fs|
        invariant 0 <= j <= |fs|
        invariant ScanFormats(fs, fetch, formattedOnly) == ScanFormats(fs[j..], fetch, formattedOnly)
      {
        var f := fs[j];
        assert fs[j..][0] == f && fs[j..][1..] == fs[j + 1..];
        if !formattedOnly || IsFormattedText(f) {
          if f.url.None? {
            if formattedOnly {
              return Failed;
            }
          } else {
            var answer := fetch(f.url.value);
            if answer.Fetched? {
              return Found(answer.text);
            } else if answer.Raised? {
              return Failed;
            }
          }
        }
        j := j + 1;
      }
      assert fs[j..] == [];
      i := i + 1;
    }
    s := Exhausted;
  }

  /** get_bill_text after the request: the Formatted Text pass, then the any-url pass. */
  method GetBillText(versions: Option<seq<TextVersion>>, fetch: string -> Fetched) returns (text: Option<string>)
    ensures text == BillText(versions, fetch)
  {
    if versions.None? || |versions.value| == 0 {
      return None;
    }
    var first := ScanPass(versions.value, fetch, true);
    if first.Found? {
      return Some(first.text);
    } else if first.Failed? {
      return None;
    }
    var second := ScanPass(versions.value, fetch, false);
    text := if second.Found? then Some(second.text) else None;
  }

  // ---------------------------------------------------------------------
  // check_updates

  /** keyword.lower() in title. */
  predicate KeywordIn(title: string, k: string)
  {
    Text.Contains(title, Text.Lower(k))
  }

  /** any(keyword.lower() in title for keyword in keywords). */
  function AnyKeyword(title: string, keywords: seq<string>): (b: bool)
    ensures b <==> exists k :: k in keywords && KeywordIn(title, k)
  {
    if |keywords| == 0 then false
    else if Text.ContainsDec(title, Text.Lower(keywords[0])) then
      assert keywords[0] in keywords && KeywordIn(title, keywords[0]);
      true
    else
      var rest := AnyKeyword(title, keywords[1..]);
      assert forall k :: k in keywords ==> k == keywords[0] || k in keywords[1..];
      assert forall k :: k in keywords[1..] ==> k in keywords;
      rest
  }

  /** Matching ignores the case of the keyword: a keyword and its lower-case form match the same titles. */
  lemma {:induction false} KeywordCaseIgnored(title: string, k: string)
    ensures AnyKeyword(title, [k]) == AnyKeyword(title, [Text.Lower(k)])
  {
    Text.LowerIdempotent(k);
    assert forall x :: x in [k] <==> x == k;
    assert forall x :: x in [Text.Lower(k)] <==> x == Text.Lower(k);
  }

  /** An empty keyword matches every title. */
  lemma {:induction false} EmptyKeywordMatchesAll(title: string)
    ensures AnyKeyword(title, [""])
  {
    assert Text.OccursAt(title, "", 0);
    assert "" in [""];
  }

  /** A bill's title lower-cased; a title that is not a str has no lower(). */
  function TitleOf(bill: Dict): Option<string>
  {
    var t := GetOr(bill, "title", PyStr(""));
    if t.PyStr? then Some(Text.Lower(t.s)) else None
  }

  /** The full data fetched for one matching bill, from bill["congress"], bill["type"], bill["number"]. */
  function FullDataFor(bill: Dict, full: (Value, Value, Value) -> Dict): Result<Dict, Error>
  {
    if !HasKey(bill, "congress") then Err(KeyError("'congress'"))
    else if !HasKey(bill, "type") then Err(KeyError("'type'"))
    else if !HasKey(bill, "number") then Err(KeyError("'number'"))
    else Ok(full(GetOr(bill, "congress", PyNone), GetOr(bill, "type", PyNone), GetOr(bill, "number", PyNone)))
  }

  /** check_updates over the new bills: the full data of each bill whose title contains a keyword, in order. */
  function MatchingBills(bills: seq<Dict>, keywords: seq<string>, full: (Value, Value, Value) -> Dict)
    : (r: Result<seq<Dict>, Error>)
    ensures r.Ok? ==> |r.value| <= |bills|
  {
    if |bills| == 0 then Ok([])
    else
      match MatchingBills(bills[..|bills| - 1], keywords, full)
      case Err(e) => Err(e)
      case Ok(acc) =>
        var b := bills[|bills| - 1];
        match TitleOf(b)
        case None => Err(AttributeError("'" + TypeName(GetOr(b, "title", PyStr(""))) + "' object has no attribute 'lower'"))
        case Some(title) =>
          if !AnyKeyword(title, keywords) then Ok(acc)
          else
            match FullDataFor(b, full)
            case Err(e) => Err(e)
            case Ok(d) => Ok(acc + [d])
  }

  /** A bill whose title contains no keyword is not fetched again. */
  lemma {:induction false} NonMatchingSkipped(bills: seq<Dict>, b: Dict, keywords: seq<string>, full: (Value, Value, Value) -> Dict)
    requires MatchingBills(bills, keywords, full).Ok?
    requires TitleOf(b).Some? && !AnyKeyword(TitleOf(b).value, keywords)
    ensures MatchingBills(bills + [b], keywords, full) == MatchingBills(bills, keywords, full)
  {
    assert (bills + [b])[..|bills|] == bills;
  }

  /** With no keywords, no bill matches. */
  lemma {:induction false} NoKeywordsNoMatches(bills: seq<Dict>, full: (Value, Value, Value) -> Dict)
    requires forall i :: 0 <= i < |bills| ==> TitleOf(bills[i]).Some?
    ensures MatchingBills(bills, [], full) == Ok([])
  {
    if |bills| > 0 {
      NoKeywordsNoMatches(bills[..|bills| - 1], full);
    }
  }

  /** check_updates' loop over the bills fetch_new_legislation returned. */
  method CheckUpdates(newBills: seq<Dict>, keywords: seq<string>, full: (Value, Value, Value) -> Dict)
    returns (r: Result<seq<Dict>, Error>)
    ensures r == MatchingBills(newBills, keywords, full)
  {
    var matching: seq<Dict> := [];
    var i := 0;
    while i < |newBills|
      invariant 0 <= i <= |newBills|
      invariant MatchingBills(newBills[..i], keywords, full) == Ok(matching)
    {
      var bill := newBills[i];
      assert newBills[..i + 1][..i] == newBills[..i];
      var title := TitleOf(bill);
      if title.None? {
        r := Err(AttributeError("'" + TypeName(GetOr(bill, "title", PyStr(""))) + "' object has no attribute 'lower'"));
        MatchingErrorSticks(newBills, i + 1, keywords, full);
        return;
      }
      if AnyKeyword(title.value, keywords) {
        var d := FullDataFor(bill, full);
        if d.Err? {
          r := Err(d.error);
          MatchingErrorSticks(newBills, i + 1, keywords, full);
          return;
        }
        matching := matching + [d.value];
      }
      i := i + 1;
    }
    assert newBills[..i] == newBills;
    r := Ok(matching);
  }

  /** The first error of a prefix is the error of the whole list. */
  lemma {:induction false} MatchingErrorSticks(bills: seq<Dict>, n: nat, keywords: seq<string>, full: (Value, Value, Value) -> Dict)
    requires n <= |bills|
    requires MatchingBills(bills[..n], keywords, full).Err?
    ensures MatchingBills(bills, keywords, full) == MatchingBills(bills[..n], keywords, full)
    decreases |bills| - n
  {
    if n < |bills| {
      assert bills[..n + 1][..n] == bills[..n];
      MatchingErrorSticks(bills, n + 1, keywords, full);
    } else {
      assert bills[..n] == bills;
    }
  }
}
