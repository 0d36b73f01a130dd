/**
 * The later Congress.gov client, PolicyPulseNew/congress_api.py.  It
 * shares the request wrapper, the congress number and the formatters with
 * congress_api.py (module Congress); what differs is modelled here: the
 * tolerant type in _format_bill_data, get_bill_text_and_formats, the
 * bill-to-law progression and get_recent_laws.  Where the class defines a
 * method several times, Python keeps the last definition, and that is the
 * one modelled.
 */
module CongressNew {
  import opened Wrappers
  import opened PyValue
  import Text
  import Congress

  type Dict = seq<(string, Value)>

  // ---------------------------------------------------------------------
  // _format_bill_data

  /** _format_bill_data of the later copy: (type or "").upper(), so a missing or null type is "". */
  function FormatBillData(info: Dict): Option<Congress.FormattedBill>
  {
    Congress.FormatBillDataWith(info, true)
  }

  /** A null type is where the two copies part: the first raises (and gives {}), the later one formats. */
  lemma {:induction false} NullTypeTolerated()
    ensures Congress.FormatBillData([("type", PyNone)]).None?
    ensures FormatBillData([("type", PyNone)]).Some? && FormatBillData([("type", PyNone)]).value.core.billType == ""
  {
  }

  // ---------------------------------------------------------------------
  // get_bill_text_and_formats

  predicate IsEnrolled(v: Congress.TextVersion)
  {
    v.vtype == Some("Enrolled Bill")
  }

  /** The position of the first enrolled version, or |vs| when there is none. */
  function EnrolledIndex(vs: seq<Congress.TextVersion>): (i: nat)
    ensures i <= |vs|
    ensures forall k :: 0 <= k < i ==> !IsEnrolled(vs[k])
    ensures i < |vs| ==> IsEnrolled(vs[i])
  {
    if |vs| == 0 then 0
    else if IsEnrolled(vs[0]) then 0
    else 1 + EnrolledIndex(vs[1..])
  }

  /** The version whose formats are read: the first Enrolled Bill, else the first version. */
  function ChosenVersion(vs: seq<Congress.TextVersion>): (v: Congress.TextVersion)
    requires |vs| > 0
    ensures v in vs
    ensures (forall k :: 0 <= k < |vs| ==> !IsEnrolled(vs[k])) ==> v == vs[0]
  {
    var i := EnrolledIndex(vs);
    if i < |vs| then vs[i] else vs[0]
  }

  /** The enrolled version is chosen over every other, wherever it stands. */
  lemma {:induction false} FirstEnrolledChosen(vs: seq<Congress.TextVersion>, k: nat)
    requires k < |vs| && IsEnrolled(vs[k])
    requires forall m :: 0 <= m < k ==> !IsEnrolled(vs[m])
    ensures ChosenVersion(vs) == vs[k]
  {
  }

  /** An entry that is listed under formats: both its type and its url are truthy. */
  predicate Listed(f: Congress.TextFormat)
  {
    f.ftype.Some? && f.ftype.value != "" && f.url.Some? && f.url.value != ""
  }

  /** result["formats"] after the loop: each listed entry's url under its type, a later one overwriting. */
  function FormatsOf(fs: seq<Congress.TextFormat>): Dict
  {
    if |fs| == 0 then []
    else
      var d := FormatsOf(fs[..|fs| - 1]);
      var f := fs[|fs| - 1];
      if Listed(f) then Set(d, f.ftype.value, PyStr(f.url.value)) else d
  }

  /** An entry whose url is looked up for the text: a listed Formatted Text that fetches. */
  predicate Delivers(f: Congress.TextFormat, fetch: string -> Congress.Fetched)
  {
    Listed(f) && f.ftype.value == "Formatted Text" && fetch(f.url.value).Fetched?
  }

  /** result["text"] after the loop: set by the first Formatted Text whose fetch answers ok. */
  function FirstText(fs: seq<Congress.TextFormat>, fetch: string -> Congress.Fetched): Option<string>
  {
    if |fs| == 0 then None
    else
      var p := FirstText(fs[..|fs| - 1], fetch);
      var f := fs[|fs| - 1];
      if p.Some? then p
      else if Delivers(f, fetch) then Some(fetch(f.url.value).text)
      else None
  }

  datatype TextAndFormats = TextAndFormats(text: Option<string>, formats: Dict)

  /** get_bill_text_and_formats after the request. */
  function BillTextAndFormats(versions: Option<seq<Congress.TextVersion>>, fetch: string -> Congress.Fetched): TextAndFormats
  {
    if versions.None? || |versions.value| == 0 then TextAndFormats(None, [])
    else
      var fs := ChosenVersion(versions.value).formats;
      TextAndFormats(FirstText(fs, fetch), FormatsOf(fs))
  }

  /** The url of the last listed entry of type t, the reference reading of the formats dict. */
  function LastUrl(fs: seq<Congress.TextFormat>, t: string): (r: Option<Value>)
    ensures r.None? <==> forall j :: 0 <= j < |fs| ==> !(Listed(fs[j]) && fs[j].ftype.value == t)
  {
    if |fs| == 0 then None
    else
      var f := fs[|fs| - 1];
      if Listed(f) && f.ftype.value == t then Some(PyStr(f.url.value))
      else
        var r := LastUrl(fs[..|fs| - 1], t);
        assert forall j :: 0 <= j < |fs| - 1 ==> fs[..|fs| - 1][j] == fs[j];
        r
  }

  /** formats[t] is the url of the last listed entry of type t, and t is a key exactly when there is one. */
  lemma {:induction false} FormatsOfGet(fs: seq<Congress.TextFormat>, t: string)
    ensures Get(FormatsOf(fs), t) == LastUrl(fs, t)
  {
    if |fs| > 0 {
      var f := fs[|fs| - 1];
      FormatsOfGet(fs[..|fs| - 1], t);
      if Listed(f) {
        GetSet(FormatsOf(fs[..|fs| - 1]), f.ftype.value, PyStr(f.url.value), t);
      }
    }
  }

  /** The last listed entry of a type gives its url. */
  lemma {:induction false} LastUrlIsLast(fs: seq<Congress.TextFormat>, t: string, j: nat)
    requires j < |fs| && Listed(fs[j]) && fs[j].ftype.value == t
    requires forall k :: j < k < |fs| ==> !(Listed(fs[k]) && fs[k].ftype.value == t)
    ensures LastUrl(fs, t) == Some(PyStr(fs[j].url.value))
  {
    if j < |fs| - 1 {
      var p := fs[..|fs| - 1];
      assert p[j] == fs[j];
      assert forall k :: j < k < |p| ==> p[k] == fs[k];
      LastUrlIsLast(p, t, j);
    }
  }

  /** The text is the first delivering entry's. */
  lemma {:induction false} FirstTextIsFirstDelivered(fs: seq<Congress.TextFormat>, fetch: string -> Congress.Fetched, j: nat)
    requires j < |fs| && Delivers(fs[j], fetch)
    requires forall k :: 0 <= k < j ==> !Delivers(fs[k], fetch)
    ensures FirstText(fs, fetch) == Some(fetch(fs[j].url.value).text)
  {
    var p := fs[..|fs| - 1];
    if j < |fs| - 1 {
      assert p[j] == fs[j];
      assert forall k :: 0 <= k < j ==> p[k] == fs[k];
      FirstTextIsFirstDelivered(p, fetch, j);
    } else {
      assert forall k :: 0 <= k < |p| ==> p[k] == fs[k];
      NoTextWithoutDelivery(p, fetch);
    }
  }

  /** No text exactly when no entry delivers one. */
  lemma {:induction false} NoTextWithoutDelivery(fs: seq<Congress.TextFormat>, fetch: string -> Congress.Fetched)
    ensures FirstText(fs, fetch).None? <==> forall k :: 0 <= k < |fs| ==> !Delivers(fs[k], fetch)
  {
    if |fs| > 0 {
      var p := fs[..|fs| - 1];
      NoTextWithoutDelivery(p, fetch);
      assert forall k :: 0 <= k < |p| ==> p[k] == fs[k];
    }
  }

  /** The loop over the chosen version's formats, filling formats and fetching the text. */
  method GetBillTextAndFormats(versions: Option<seq<Congress.TextVersion>>, fetch: string -> Congress.Fetched)
    returns (r: TextAndFormats)
    ensures r == BillTextAndFormats(versions, fetch)
  {
    if versions.None? || |versions.value| == 0 {
      return TextAndFormats(None, []);
    }
    var vs := versions.value;
    var i := 0;
    while i < |vs| && !IsEnrolled(vs[i])
      invariant 0 <= i <= |vs|
      invariant forall k :: 0 <= k < i ==> !IsEnrolled(vs[k])
    {
      i := i + 1;
    }
    if i < |vs| {
      FirstEnrolledChosen(vs, i);
    }
    var version := if i < |vs| then vs[i] else vs[0];
    var fs := version.formats;
    var text: Option<string> := None;
    var formats: Dict := [];
    var j := 0;
    while j < |fs|
      invariant 0 <= j <= |fs|
      invariant text == FirstText(fs[..j], fetch) && formats == FormatsOf(fs[..j])
    {
      var f := fs[j];
      assert fs[..j + 1][..j] == fs[..j];
      if f.ftype.Some? && f.ftype.value != "" && f.url.Some? && f.url.value != "" {
        formats := Set(formats, f.ftype.value, PyStr(f.url.value));
        if f.ftype.value == "Formatted Text" && text.None? {
          var answer := fetch(f.url.value);
          if answer.Fetched? {
            text := Some(answer.text);
          }
        }
      }
      j := j + 1;
    }
    assert fs[..j] == fs;
    r := TextAndFormats(text, formats);
  }

  // ---------------------------------------------------------------------
  // track_bill_to_law_progression

  /** The law type asked for: none when isPrivate is absent or null, else private or public by its truth. */
  function LawTypeOf(details: Dict): (r: Option<string>)
    ensures r == Some("private") <==> Truthy(GetOr(details, "isPrivate", PyNone))
    ensures r.None? <==> GetOr(details, "isPrivate", PyNone).PyNone?
  {
    var p := GetOr(details, "isPrivate", PyNone);
    if p.PyNone? then None else Some(if Truthy(p) then "private" else "public")
  }

  /** law_info: the law's details when there is a law type and a truthy lawNumber, else {}. */
  function LawInfoOf(details: Dict, lawDetails: (string, Value) -> Value): Value
  {
    match LawTypeOf(details)
    case None => PyDict([])
    case Some(t) =>
      var n := GetOr(details, "lawNumber", PyNone);
      if Truthy(n) then lawDetails(t, n) else PyDict([])
  }

  function ActionEntry(a: Dict): Dict
  {
    [("date", GetOr(a, "actionDate", PyNone)), ("text", GetOr(a, "text", PyNone)),
     ("type", GetOr(a, "type", PyNone)), ("chamber", GetOr(a, "chamber", PyNone))]
  }

  /** progression_history: one entry per action; an action that is not a dict leaves it empty. */
  function HistoryOf(actions: Option<seq<Value>>): (h: seq<Dict>)
    ensures actions.Some? && (forall i :: 0 <= i < |actions.value| ==> actions.value[i].PyDict?)
            ==> |h| == |actions.value|
  {
    if actions.None? || exists i :: 0 <= i < |actions.value| && !actions.value[i].PyDict? then []
    else seq(|actions.value|, i requires 0 <= i < |actions.value| => ActionEntry(actions.value[i].entries))
  }

  datatype Progression =
    | BillNotFound
    | Progression(billInfo: Dict, becameLaw: bool, lawInfo: Value, history: seq<Dict>)

  /**
   * track_bill_to_law_progression (the last definition): the bill's
   * details, whether it became law (bool(law_info)), the law's details and
   * the action history.
   */
  function TrackBillToLaw(details: Dict, lawDetails: (string, Value) -> Value, actions: Option<seq<Value>>)
    : (r: Progression)
    ensures r.BillNotFound? <==> details == []
    ensures r.Progression? ==> r.billInfo == details && (r.becameLaw <==> Truthy(r.lawInfo))
    ensures r.Progression? && r.becameLaw ==>
              LawTypeOf(details).Some? && Truthy(GetOr(details, "lawNumber", PyNone))
              && r.lawInfo == lawDetails(LawTypeOf(details).value, GetOr(details, "lawNumber", PyNone))
  {
    if details == [] then BillNotFound
    else
      var info := LawInfoOf(details, lawDetails);
      Progression(details, Truthy(info), info, HistoryOf(actions))
  }

  /** A bill without isPrivate never counts as law, whatever the law endpoint would say. */
  lemma {:induction false} NoLawWithoutIsPrivate(details: Dict, lawDetails: (string, Value) -> Value, actions: Option<seq<Value>>)
    requires details != [] && !HasKey(details, "isPrivate")
    ensures !TrackBillToLaw(details, lawDetails, actions).becameLaw
  {
    GetFindsKey(details, "isPrivate");
  }

  function ProgressionDict(r: Progression): Dict
  {
    match r
    case BillNotFound => [("status", PyStr("error")), ("message", PyStr("Bill not found"))]
    case Progression(info, became, law, history) =>
      [("bill_info", PyDict(info)), ("became_law", PyBool(became)), ("law_info", law),
       ("progression_history", PyList(seq(|history|, i requires 0 <= i < |history| => PyDict(history[i]))))]
  }

  // ---------------------------------------------------------------------
  // get_recent_laws (the definition the class keeps)

  /** One law record of get_recent_laws. */
  datatype LawRecord = LawRecord(
    congress: Value, lawType: Value, lawNumber: Value, title: Value, enactedDate: Value,
    billNumber: Value, billType: string, description: Value, billText: Option<string>,
    documentFormats: Dict, raw: Dict)

  function LawDict(r: LawRecord): Dict
  {
    [("congress", r.congress), ("type", r.lawType), ("number", r.lawNumber), ("title", r.title),
     ("enacted_date", r.enactedDate), ("bill_number", r.billNumber), ("bill_type", PyStr(r.billType)),
     ("description", r.description), ("bill_text", if r.billText.Some? then PyStr(r.billText.value) else PyNone),
     ("document_formats", PyDict(r.documentFormats)), ("raw_response", PyDict(r.raw))]
  }

  function LawDicts(rs: seq<LawRecord>): (r: seq<Dict>)
    ensures |r| == |rs|
  {
    if |rs| == 0 then [] else LawDicts(rs[..|rs| - 1]) + [LawDict(rs[|rs| - 1])]
  }

  /** The laws of a bill: none without "laws"; iterating anything but a list of dicts fails unless it is empty. */
  function LawsOf(bill: Dict): Option<seq<Dict>>
  {
    if !HasKey(bill, "laws") then Some([])
    else
      match GetOr(bill, "laws", PyNone)
      case PyList(items) =>
        if forall i :: 0 <= i < |items| ==> items[i].PyDict? then
          Some(seq(|items|, i requires 0 <= i < |items| => items[i].entries))
        else None
      case PyStr(s) => if s == [] then Some([]) else None
      case PyBytes(b) => if b == [] then Some([]) else None
      case PyDict(es) => if es == [] then Some([]) else None
      case _ => None
  }

  /**
   * formatted_law for one law of a bill, with the bill's text and formats
   * from get_bill_text_and_formats; None when the bill's type has no
   * upper() or its latestAction no get().
   */
  function FormatLaw(bill: Dict, law: Dict, contentOf: (Value, string, Value) -> TextAndFormats): (r: Option<LawRecord>)
    ensures r.Some? ==> r.value.raw == bill
    ensures r.Some? ==> r.value.lawType == GetOr(law, "type", PyStr("")) && r.value.lawNumber == GetOr(law, "number", PyStr(""))
    ensures r.Some? ==> forall i :: 0 <= i < |r.value.billType| ==> !Text.IsLowerAscii(r.value.billType[i])
    ensures r.Some? ==> var c := contentOf(GetOr(bill, "congress", PyNone), r.value.billType, GetOr(bill, "number", PyStr("")));
                        r.value.billText == c.text && r.value.documentFormats == c.formats
  {
    match Congress.TypeText(GetOr(bill, "type", PyNone), true, true)
    case None => None
    case Some(t) =>
      var content := contentOf(GetOr(bill, "congress", PyNone), t, GetOr(bill, "number", PyStr("")));
      var la := GetOr(bill, "latestAction", PyDict([]));
      if !la.PyDict? then None
      else
        Some(LawRecord(GetOr(bill, "congress", PyNone), GetOr(law, "type", PyStr("")), GetOr(law, "number", PyStr("")),
                       GetOr(bill, "title", PyStr("")), GetOr(la.entries, "actionDate", PyStr("")),
                       GetOr(bill, "number", PyNone), t, GetOr(la.entries, "text", PyStr("")),
                       content.text, content.formats, bill))
  }

  /** The records of one bill's laws that the database stored, in order; None when one cannot be formatted. */
  function LawRecords(bill: Dict, laws: seq<Dict>, contentOf: (Value, string, Value) -> TextAndFormats, stored: LawRecord -> bool)
    : (r: Option<seq<LawRecord>>)
    ensures r.Some? ==> |r.value| <= |laws| && forall x :: x in r.value ==> stored(x) && x.raw == bill
  {
    if |laws| == 0 then Some([])
    else
      match LawRecords(bill, laws[..|laws| - 1], contentOf, stored)
      case None => None
      case Some(acc) =>
        match FormatLaw(bill, laws[|laws| - 1], contentOf)
        case None => None
        case Some(rec) => Some(if stored(rec) then acc + [rec] else acc)
  }

  /** get_recent_laws over the answer's bills; None when the whole call ends in its handler with []. */
  function RecentLaws(bills: seq<Dict>, contentOf: (Value, string, Value) -> TextAndFormats, stored: LawRecord -> bool)
    : (r: Option<seq<LawRecord>>)
    ensures r.Some? ==> forall x :: x in r.value ==> stored(x)
  {
    if |bills| == 0 then Some([])
    else
      match RecentLaws(bills[..|bills| - 1], contentOf, stored)
      case None => None
      case Some(acc) =>
        var b := bills[|bills| - 1];
        match LawsOf(b)
        case None => None
        case Some(laws) =>
          match LawRecords(b, laws, contentOf, stored)
          case None => None
          case Some(rs) => Some(acc + rs)
  }

  /** One more bill: its law records follow the earlier ones, or the whole call ends. */
  lemma {:induction false} RecentLawsStep(bills: seq<Dict>, i: nat, done: seq<LawRecord>,
                       contentOf: (Value, string, Value) -> TextAndFormats, stored: LawRecord -> bool)
    requires i < |bills| && RecentLaws(bills[..i], contentOf, stored) == Some(done)
    ensures RecentLaws(bills[..i + 1], contentOf, stored) ==
      match LawsOf(bills[i])
      case None => None
      case Some(laws) =>
        match LawRecords(bills[i], laws, contentOf, stored)
        case None => None
        case Some(rs) => Some(done + rs)
  {
    assert bills[..i + 1][..i] == bills[..i];
  }

  /** A bill without laws adds no record. */
  lemma {:induction false} BillWithoutLawsAddsNothing(bills: seq<Dict>, b: Dict, contentOf: (Value, string, Value) -> TextAndFormats, stored: LawRecord -> bool)
    requires !HasKey(b, "laws")
    ensures RecentLaws(bills + [b], contentOf, stored) == RecentLaws(bills, contentOf, stored)
  {
    assert (bills + [b])[..|bills|] == bills;
    if RecentLaws(bills, contentOf, stored).Some? {
      assert RecentLaws(bills, contentOf, stored).value + [] == RecentLaws(bills, contentOf, stored).value;
    }
  }

  lemma {:induction false} LawAbortSticks(bill: Dict, laws: seq<Dict>, n: nat, contentOf: (Value, string, Value) -> TextAndFormats, stored: LawRecord -> bool)
    requires n <= |laws|
    requires LawRecords(bill, laws[..n], contentOf, stored).None?
    ensures LawRecords(bill, laws, contentOf, stored).None?
    decreases |laws| - n
  {
    if n < |laws| {
      assert laws[..n + 1][..n] == laws[..n];
      LawAbortSticks(bill, laws, n + 1, contentOf, stored);
    } else {
      assert laws[..n] == laws;
    }
  }

  lemma {:induction false} RecentAbortSticks(bills: seq<Dict>, n: nat, contentOf: (Value, string, Value) -> TextAndFormats, stored: LawRecord -> bool)
    requires n <= |bills|
    requires RecentLaws(bills[..n], contentOf, stored).None?
    ensures RecentLaws(bills, contentOf, stored).None?
    decreases |bills| - n
  {
    if n < |bills| {
      assert bills[..n + 1][..n] == bills[..n];
      RecentAbortSticks(bills, n + 1, contentOf, stored);
    } else {
      assert bills[..n] == bills;
    }
  }

  lemma {:induction false} LawDictsConcat(rs: seq<LawRecord>, xs: seq<LawRecord>)
    ensures LawDicts(rs + xs) == LawDicts(rs) + LawDicts(xs)
    decreases |xs|
  {
    if |xs| == 0 {
      assert rs + xs == rs;
    } else {
      var ys := xs[..|xs| - 1];
      assert (rs + xs)[..|rs + xs| - 1] == rs + ys;
      LawDictsConcat(rs, ys);
    }
  }

  /** The inner loop of get_recent_laws over one bill's laws; None when a law cannot be formatted. */
  method BillLaws(bill: Dict, laws: seq<Dict>, contentOf: (Value, string, Value) -> TextAndFormats, stored: LawRecord -> bool)
    returns (recs: Option<seq<LawRecord>>)
    ensures recs == LawRecords(bill, laws, contentOf, stored)
  {
    var kept: seq<LawRecord> := [];
    var j := 0;
    while j < |laws|
      invariant 0 <= j <= |laws|
      invariant LawRecords(bill, laws[..j], contentOf, stored) == Some(kept)
    {
      var law := laws[j];
      assert laws[..j + 1][..j] == laws[..j];
      var rec := FormatLaw(bill, law, contentOf);
      if rec.None? {
        LawAbortSticks(bill, laws, j + 1, contentOf, stored);
        return None;
      }
      if stored(rec.value) {
        kept := kept + [rec.value];
      }
      j := j + 1;
    }
    assert laws[..j] == laws;
    return Some(kept);
  }

  /** The answer's bill list: a list of dicts, or none; anything else ends the call. */
  function BillsOf(response: Value): Option<seq<Dict>>
  {
    if !(response.PyDict? && HasKey(response.entries, "bills")) then Some([])
    else
      match GetOr(response.entries, "bills", PyNone)
      case PyList(items) =>
        if forall i :: 0 <= i < |items| ==> items[i].PyDict? then
          Some(seq(|items|, i requires 0 <= i < |items| => items[i].entries))
        else None
      case _ => None
  }

  /**
   * get_recent_laws after the request: for every law of every bill, the
   * record, kept when the database stored it; [] when anything else fails.
   */
  method GetRecentLaws(response: Value, contentOf: (Value, string, Value) -> TextAndFormats, stored: LawRecord -> bool)
    returns (out: seq<Dict>)
    ensures out == match BillsOf(response)
                   case None => []
                   case Some(bills) => (match RecentLaws(bills, contentOf, stored) case Some(rs) => LawDicts(rs) case None => [])
  {
    var billList := BillsOf(response);
    if billList.None? {
      return [];
    }
    var bills := billList.value;
    out := [];
    ghost var done: seq<LawRecord> := [];
    var i := 0;
    while i < |bills|
      invariant 0 <= i <= |bills|
      invariant RecentLaws(bills[..i], contentOf, stored) == Some(done)
      invariant out == LawDicts(done)
    {
      var bill := bills[i];
      RecentLawsStep(bills, i, done, contentOf, stored);
      var laws := LawsOf(bill);
      if laws.None? {
        RecentAbortSticks(bills, i + 1, contentOf, stored);
        return [];
      }
      var recs := BillLaws(bill, laws.value, contentOf, stored);
      if recs.None? {
        RecentAbortSticks(bills, i + 1, contentOf, stored);
        return [];
      }
      LawDictsConcat(done, recs.value);
      out := out + LawDicts(recs.value);
      done := done + recs.value;
      i := i + 1;
    }
    assert bills[..i] == bills;
  }
}
