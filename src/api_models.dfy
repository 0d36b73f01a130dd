/**
 * The request and response validation of app/api/models.py: the pydantic
 * field and model validators, and BillDetailResponse.normalize_data,
 * which reshapes a raw bill dict before validation.
 */
module ApiModels {
  import opened Wrappers
  import opened PyValue
  import Text
  import BaseStore

  type Dict = seq<(string, Value)>

  /** One entry of a pydantic ValidationError: the field and the message raised for it. */
  datatype FieldError = FieldError(field: string, msg: string)

  // ---------------------------------------------------------------------
  // UserPrefsPayload

  /** validate_string_lists: every item must be non-blank; the items come back stripped. */
  function ValidateStringList(v: seq<string>): (r: Result<seq<string>, string>)
    ensures r.Ok? <==> forall i :: 0 <= i < |v| ==> Text.Strip(v[i]) != ""
    ensures r.Ok? ==> |r.value| == |v| && forall i :: 0 <= i < |v| ==> r.value[i] == Text.Strip(v[i])
    ensures r.Err? ==> r.error == "All list items must be non-empty strings"
  {
    if forall i :: 0 <= i < |v| ==> Text.Strip(v[i]) != "" then
      Ok(seq(|v|, i requires 0 <= i < |v| => Text.Strip(v[i])))
    else Err("All list items must be non-empty strings")
  }

  /** A list that passed validation passes again unchanged. */
  lemma {:induction false} StringListIdempotent(v: seq<string>)
    requires ValidateStringList(v).Ok?
    ensures ValidateStringList(ValidateStringList(v).value) == ValidateStringList(v)
  {
    var w := ValidateStringList(v).value;
    forall i | 0 <= i < |w|
      ensures Text.Strip(w[i]) == w[i] != ""
    {
      Text.StripIdempotent(v[i]);
    }
    assert ValidateStringList(w).Ok?;
    assert ValidateStringList(w).value == w;
  }

  // ---------------------------------------------------------------------
  // AIAnalysisPayload and AnalysisOptions

  const ValidModels: seq<string> := ["gpt-4o", "gpt-4o-2024-08-06", "gpt-4-turbo", "gpt-4", "gpt-3.5-turbo"]

  /** s.startswith(tuple(prefixes)). */
  function StartsWithAny(s: string, prefixes: seq<string>): (b: bool)
    ensures b <==> exists k :: 0 <= k < |prefixes| && prefixes[k] <= s
  {
    if |prefixes| == 0 then false
    else prefixes[0] <= s || StartsWithAny(s, prefixes[1..])
  }

  /**
   * validate_model_name: a name is accepted when it is listed or extends a
   * listed name.  Every listed name is a prefix of itself, so acceptance
   * is the prefix rule alone.
   */
  function ValidateModelName(v: Option<string>): (r: Result<Option<string>, string>)
    ensures r.Ok? <==> v.None? || exists k :: 0 <= k < |ValidModels| && ValidModels[k] <= v.value
    ensures r.Ok? ==> r.value == v
    ensures r.Err? ==> r.error == "Model name '" + v.value + "' is not a recognized model. Valid options include: "
                                 + Text.Join(ValidModels, ", ")
  {
    if v.None? then Ok(v)
    else if v.value !in ValidModels && !StartsWithAny(v.value, ValidModels) then
      Err("Model name '" + v.value + "' is not a recognized model. Valid options include: " + Text.Join(ValidModels, ", "))
    else
      assert v.value in ValidModels ==> exists k :: 0 <= k < |ValidModels| && ValidModels[k] <= v.value;
      Ok(v)
  }

  /** Any name that begins with "gpt-4" is accepted, whatever follows. */
  lemma {:induction false} AnyGpt4VariantAccepted(rest: string)
    ensures ValidateModelName(Some("gpt-4" + rest)).Ok?
  {
    assert ValidModels[3] <= "gpt-4" + rest;
  }

  /** A shorter spelling of a listed model is refused. */
  lemma {:induction false} ShortModelNameRefused()
    ensures ValidateModelName(Some("gpt-3.5")).Err?
  {
    var s := "gpt-3.5";
    forall k | 0 <= k < |ValidModels|
      ensures !(ValidModels[k] <= s)
    {
      assert (|ValidModels[k]| >= 5 && ValidModels[k][4] == '4') || |ValidModels[k]| > |s|;
    }
  }

  const ValidAreas: seq<string> := ["public health", "local government", "economic", "environmental", "healthcare",
                                    "social services", "education", "infrastructure", "justice"]

  /** The position of the first string whose (lower-cased, when asked) form is not allowed, or |xs|. */
  function FirstOutside(xs: seq<string>, allowed: seq<string>, lower: bool): (i: nat)
    ensures i <= |xs|
    ensures forall j :: 0 <= j < i ==> (if lower then Text.Lower(xs[j]) else xs[j]) in allowed
    ensures i < |xs| ==> (if lower then Text.Lower(xs[i]) else xs[i]) !in allowed
  {
    if |xs| == 0 then 0
    else if (if lower then Text.Lower(xs[0]) else xs[0]) !in allowed then 0
    else 1 + FirstOutside(xs[1..], allowed, lower)
  }

  /** validate_focus_areas: the first area outside the list, compared lower-cased, is reported. */
  function ValidateFocusAreas(v: Option<seq<string>>): (r: Result<Option<seq<string>>, string>)
    ensures r.Ok? <==> v.None? || forall j :: 0 <= j < |v.value| ==> Text.Lower(v.value[j]) in ValidAreas
    ensures r.Ok? ==> r.value == v
    ensures r.Err? ==> var i := FirstOutside(v.value, ValidAreas, true);
                       i < |v.value| && r.error == "'" + v.value[i] + "' is not a recognized focus area"
  {
    if v.None? then Ok(v)
    else
      var i := FirstOutside(v.value, ValidAreas, true);
      if i < |v.value| then Err("'" + v.value[i] + "' is not a recognized focus area") else Ok(v)
  }

  /** The check ignores letter case: lower-casing every area changes no verdict. */
  lemma {:induction false} FocusAreasIgnoreCase(xs: seq<string>)
    ensures ValidateFocusAreas(Some(xs)).Ok?
       <==> ValidateFocusAreas(Some(seq(|xs|, j requires 0 <= j < |xs| => Text.Lower(xs[j])))).Ok?
  {
    var ys := seq(|xs|, j requires 0 <= j < |xs| => Text.Lower(xs[j]));
    forall j | 0 <= j < |xs|
      ensures Text.Lower(ys[j]) == Text.Lower(xs[j])
    {
      Text.LowerIdempotent(xs[j]);
    }
  }

  // ---------------------------------------------------------------------
  // DateRange

  /** The Field pattern ^\d{4}-\d{2}-\d{2}$: four digits, '-', two digits, '-', two digits. */
  predicate MatchesIsoPattern(s: string)
  {
    |s| == 10 && s[4] == '-' && s[7] == '-'
    && BaseStore.AllDigits(s[..4]) && BaseStore.AllDigits(s[5..7]) && BaseStore.AllDigits(s[8..])
  }

  /** The value of a string of decimal digits, read from the front. */
  function DigitsValue(s: string): nat
    requires BaseStore.AllDigits(s)
  {
    if |s| == 0 then 0 else BaseStore.DigitValue(s[0]) * Pow10(|s| - 1) + DigitsValue(s[1..])
  }

  /** The date a string of the pattern names, field by field. */
  function IsoYmd(s: string): BaseStore.Ymd
    requires MatchesIsoPattern(s)
  {
    BaseStore.Ymd(DigitsValue(s[..4]), DigitsValue(s[5..7]), DigitsValue(s[8..]))
  }

  /**
   * One date field of DateRange: the pattern first, then
   * datetime.fromisoformat, which on strings of this shape accepts exactly
   * the real dates.
   */
  function ValidateIsoDate(v: string): (r: Result<string, string>)
    ensures r.Ok? <==> MatchesIsoPattern(v) && BaseStore.IsRealDate(IsoYmd(v))
    ensures r.Ok? ==> r.value == v
  {
    if !MatchesIsoPattern(v) then Err("String should match pattern '^\\d{4}-\\d{2}-\\d{2}$'")
    else if !BaseStore.IsRealDate(IsoYmd(v)) then Err("Invalid date format: " + v + ". Expected YYYY-MM-DD")
    else Ok(v)
  }

  /**
   * DateRange: start_date is validated first; end_date then meets its
   * pattern, the ordering check against a start_date that validated, and
   * the date check, in that order.
   */
  function ValidateDateRange(start: string, end: string): (errs: seq<FieldError>)
    ensures errs == [] <==>
      ValidateIsoDate(start).Ok? && ValidateIsoDate(end).Ok? && !Text.StrLess(end, start)
  {
    var s := ValidateIsoDate(start);
    ErrorsOf("start_date", s)
    + (if !MatchesIsoPattern(end) then ErrorsOf("end_date", ValidateIsoDate(end))
       else if s.Ok? && Text.StrLess(end, start) then [FieldError("end_date", "end_date must be after start_date")]
       else ErrorsOf("end_date", ValidateIsoDate(end)))
  }

  /** Calendar order: an earlier year, or the same year and an earlier month, or the same month and an earlier day. */
  predicate DateBefore(a: BaseStore.Ymd, b: BaseStore.Ymd)
  {
    a.year < b.year || (a.year == b.year && (a.month < b.month || (a.month == b.month && a.day < b.day)))
  }

  /** Comparing two concatenations whose first parts have one length compares the first parts, then the second. */
  lemma {:induction false} StrLessConcat(x: string, y: string, x2: string, y2: string)
    requires |x| == |x2|
    ensures Text.StrLess(x + y, x2 + y2) <==> Text.StrLess(x, x2) || (x == x2 && Text.StrLess(y, y2))
    decreases |x|
  {
    if |x| > 0 {
      assert (x + y)[0] == x[0] && (x2 + y2)[0] == x2[0];
      assert (x + y)[1..] == x[1..] + y && (x2 + y2)[1..] == x2[1..] + y2;
      if x[0] == x2[0] {
        StrLessConcat(x[1..], y, x2[1..], y2);
        assert x == x2 <==> x[1..] == x2[1..] by {
          if x[1..] == x2[1..] {
            assert x == [x[0]] + x[1..] && x2 == [x2[0]] + x2[1..];
          }
        }
      }
    } else {
      assert x + y == y && x2 + y2 == y2;
    }
  }

  function Pow10(n: nat): (p: nat)
    ensures p >= 1
  {
    if n == 0 then 1 else 10 * Pow10(n - 1)
  }

  lemma {:induction false} MulLeq(x: int, y: int, p: nat)
    requires x <= y
    ensures x * p <= y * p
  {
  }

  /** A digit string of length n is worth less than 10^n. */
  lemma {:induction false} DigitsValueBound(s: string)
    requires BaseStore.AllDigits(s)
    ensures DigitsValue(s) < Pow10(|s|)
    decreases |s|
  {
    if |s| > 0 {
      var d, p := BaseStore.DigitValue(s[0]), Pow10(|s| - 1);
      DigitsValueBound(s[1..]);
      assert DigitsValue(s) < d * p + p == (d + 1) * p;
      MulLeq(d + 1, 10, p);
    }
  }

  /** A smaller leading digit outweighs any remainder below the place value. */
  lemma {:induction false} LeadingDigitBound(x: int, r: int, y: int, p: nat)
    requires x < y && r < p
    ensures x * p + r < y * p
  {
    MulLeq(x + 1, y, p);
    assert (x + 1) * p == x * p + p;
  }

  /** A smaller leading digit makes the smaller value, whatever follows. */
  lemma {:induction false} FirstDigitDecides(a: string, b: string)
    requires BaseStore.AllDigits(a) && BaseStore.AllDigits(b) && |a| == |b| > 0 && a[0] < b[0]
    ensures DigitsValue(a) < DigitsValue(b)
  {
    var p := Pow10(|a| - 1);
    var da, db := BaseStore.DigitValue(a[0]), BaseStore.DigitValue(b[0]);
    var ra, rb := DigitsValue(a[1..]), DigitsValue(b[1..]);
    assert DigitsValue(a) == da * p + ra;
    assert DigitsValue(b) == db * p + rb;
    DigitsValueBound(a[1..]);
    LeadingDigitBound(da, ra, db, p);
  }

  /** On digit strings of one length, string order is numeric order. */
  lemma {:induction false} DigitsOrder(a: string, b: string)
    requires BaseStore.AllDigits(a) && BaseStore.AllDigits(b) && |a| == |b|
    ensures Text.StrLess(a, b) <==> DigitsValue(a) < DigitsValue(b)
    ensures a == b <==> DigitsValue(a) == DigitsValue(b)
    decreases |a|
  {
    if |a| > 0 {
      if a[0] == b[0] {
        DigitsOrder(a[1..], b[1..]);
        assert a == b <==> a[1..] == b[1..] by {
          if a[1..] == b[1..] {
            assert a == [a[0]] + a[1..] && b == [b[0]] + b[1..];
          }
        }
      } else if a[0] < b[0] {
        FirstDigitDecides(a, b);
      } else {
        FirstDigitDecides(b, a);
      }
    }
  }

  /**
   * For strings of the pattern, the string order the ordering check uses
   * is calendar order, so end_date is refused exactly when it names an
   * earlier date.
   */
  lemma {:induction false} IsoOrderIsDateOrder(s: string, t: string)
    requires MatchesIsoPattern(s) && MatchesIsoPattern(t)
    ensures Text.StrLess(t, s) <==> DateBefore(IsoYmd(t), IsoYmd(s))
  {
    assert s == s[..4] + ("-" + (s[5..7] + ("-" + s[8..])));
    assert t == t[..4] + ("-" + (t[5..7] + ("-" + t[8..])));
    StrLessConcat(t[..4], "-" + (t[5..7] + ("-" + t[8..])), s[..4], "-" + (s[5..7] + ("-" + s[8..])));
    StrLessConcat("-", t[5..7] + ("-" + t[8..]), "-", s[5..7] + ("-" + s[8..]));
    StrLessConcat(t[5..7], "-" + t[8..], s[5..7], "-" + s[8..]);
    StrLessConcat("-", t[8..], "-", s[8..]);
    Text.StrLessIrreflexive("-");
    DigitsOrder(t[..4], s[..4]);
    DigitsOrder(t[5..7], s[5..7]);
    DigitsOrder(t[8..], s[8..]);
  }

  /** Two valid dates make a valid range exactly when the end is not an earlier day than the start. */
  lemma {:induction false} DateRangeChronological(start: string, end: string)
    requires ValidateIsoDate(start).Ok? && ValidateIsoDate(end).Ok?
    ensures ValidateDateRange(start, end) == [] <==> !DateBefore(IsoYmd(end), IsoYmd(start))
  {
    IsoOrderIsDateOrder(start, end);
  }

  /** A range may start and end on the same day. */
  lemma {:induction false} SameDayRange(d: string)
    requires ValidateIsoDate(d).Ok?
    ensures ValidateDateRange(d, d) == []
  {
    Text.StrLessIrreflexive(d);
  }

  // ---------------------------------------------------------------------
  // BillSearchFilters and BillSearchQuery

  const BillStatusValues: seq<string> := ["new", "introduced", "updated", "passed", "defeated", "vetoed", "enacted", "pending"]
  const ImpactCategoryValues: seq<string> :=
    ["public_health", "local_gov", "economic", "environmental", "education", "infrastructure", "healthcare",
     "social_services", "justice"]
  const ImpactLevelValues: seq<string> := ["low", "moderate", "high", "critical"]
  const GovtTypeValues: seq<string> := ["federal", "state", "county", "city"]

  /** One of the enum validators: the first value outside the enum is reported with the allowed values. */
  function ValidateEnumList(v: Option<seq<string>>, valid: seq<string>, field: string): (r: Result<Option<seq<string>>, string>)
    ensures r.Ok? <==> v.None? || forall j :: 0 <= j < |v.value| ==> v.value[j] in valid
    ensures r.Ok? ==> r.value == v
    ensures r.Err? ==> var i := FirstOutside(v.value, valid, false);
                       i < |v.value| && v.value[i] !in valid
                       && r.error == "Invalid " + field + ": " + v.value[i] + ". Valid values: " + Text.Join(valid, ", ")
  {
    if v.None? then Ok(v)
    else
      var i := FirstOutside(v.value, valid, false);
      if i < |v.value| then Err("Invalid " + field + ": " + v.value[i] + ". Valid values: " + Text.Join(valid, ", "))
      else Ok(v)
  }

  function ErrorsOf<T>(field: string, r: Result<T, string>): seq<FieldError>
  {
    if r.Err? then [FieldError(field, r.error)] else []
  }

  /** BillSearchFilters: one error per failing list, in field order. */
  function FilterErrors(status: Option<seq<string>>, category: Option<seq<string>>,
                        level: Option<seq<string>>, govtType: Option<seq<string>>): (errs: seq<FieldError>)
    ensures errs == [] <==>
      (status.None? || forall j :: 0 <= j < |status.value| ==> status.value[j] in BillStatusValues)
      && (category.None? || forall j :: 0 <= j < |category.value| ==> category.value[j] in ImpactCategoryValues)
      && (level.None? || forall j :: 0 <= j < |level.value| ==> level.value[j] in ImpactLevelValues)
      && (govtType.None? || forall j :: 0 <= j < |govtType.value| ==> govtType.value[j] in GovtTypeValues)
    ensures |errs| <= 4
  {
    ErrorsOf("bill_status", ValidateEnumList(status, BillStatusValues, "bill_status"))
    + ErrorsOf("impact_category", ValidateEnumList(category, ImpactCategoryValues, "impact_category"))
    + ErrorsOf("impact_level", ValidateEnumList(level, ImpactLevelValues, "impact_level"))
    + ErrorsOf("govt_type", ValidateEnumList(govtType, GovtTypeValues, "govt_type"))
  }

  const SortFields: seq<string> := ["relevance", "date", "updated", "status", "title", "priority"]

  /** BillSearchQuery: sort field and direction from fixed sets, limit in 1..100, offset not negative. */
  function SearchQueryErrors(sortBy: string, sortDir: string, limit: int, offset: int): (errs: seq<FieldError>)
    ensures errs == [] <==> sortBy in SortFields && (sortDir == "asc" || sortDir == "desc") && 1 <= limit <= 100 && offset >= 0
  {
    (if sortBy !in SortFields then [FieldError("sort_by", "sort_by must be one of: " + Text.Join(SortFields, ", "))] else [])
    + (if sortDir !in ["asc", "desc"] then [FieldError("sort_dir", "sort_dir must be either \"asc\" or \"desc\"")] else [])
    + (if limit < 1 then [FieldError("limit", "Input should be greater than or equal to 1")]
       else if limit > 100 then [FieldError("limit", "Input should be less than or equal to 100")] else [])
    + (if offset < 0 then [FieldError("offset", "Input should be greater than or equal to 0")] else [])
  }

  /** The defaults (relevance, desc, 50, 0) are a valid query. */
  lemma {:induction false} SearchQueryDefaultsValid()
    ensures SearchQueryErrors("relevance", "desc", 50, 0) == []
  {
    assert "relevance" == SortFields[0];
  }

  // ---------------------------------------------------------------------
  // SetPriorityPayload

  datatype PriorityPayload = PriorityPayload(
    publicHealth: Option<int>, localGovt: Option<int>, overall: Option<int>, notes: Option<string>)

  function ScoreErrors(field: string, v: Option<int>): seq<FieldError>
  {
    if v.None? then []
    else if v.value < 0 then [FieldError(field, "Input should be greater than or equal to 0")]
    else if v.value > 100 then [FieldError(field, "Input should be less than or equal to 100")]
    else []
  }

  /**
   * SetPriorityPayload: each given score must lie in 0..100; only when the
   * fields pass does the model validator demand that one field be given.
   */
  function ValidatePriority(p: PriorityPayload): (r: Result<PriorityPayload, seq<FieldError>>)
    ensures r.Ok? <==>
      (p.publicHealth.None? || 0 <= p.publicHealth.value <= 100)
      && (p.localGovt.None? || 0 <= p.localGovt.value <= 100)
      && (p.overall.None? || 0 <= p.overall.value <= 100)
      && !(p.publicHealth.None? && p.localGovt.None? && p.overall.None? && p.notes.None?)
    ensures r.Ok? ==> r.value == p
    ensures r.Err? ==> r.error != []
  {
    var errs := ScoreErrors("public_health_relevance", p.publicHealth) + ScoreErrors("local_govt_relevance", p.localGovt)
                + ScoreErrors("overall_priority", p.overall);
    if errs != [] then Err(errs)
    else if p.publicHealth.None? && p.localGovt.None? && p.overall.None? && p.notes.None? then
      Err([FieldError("", "At least one field must be provided")])
    else Ok(p)
  }

  // ---------------------------------------------------------------------
  // BillDetailResponse.normalize_data

  const DateFields: seq<string> :=
    ["bill_introduced_date", "bill_last_action_date", "bill_status_date", "last_api_check", "created_at", "updated_at", "last_updated"]

  function Pad2(n: int): (s: string)
    requires 0 <= n < 100
    ensures |s| == 2
  {
    [Text.DigitChar(n / 10), Text.DigitChar(n % 10)]
  }

  function Pad4(n: int): (s: string)
    requires 0 <= n < 10000
    ensures |s| == 4
  {
    Pad2(n / 100) + Pad2(n % 100)
  }

  /** date.isoformat(): YYYY-MM-DD. */
  function IsoDate(d: BaseStore.Ymd): (s: string)
    requires BaseStore.IsRealDate(d)
    ensures |s| == 10
  {
    Pad4(d.year) + "-" + Pad2(d.month) + "-" + Pad2(d.day)
  }

  /** datetime.isoformat() of midnight on a date. */
  function IsoMidnight(d: BaseStore.Ymd): (s: string)
    requires BaseStore.IsRealDate(d)
    ensures 'T' in s
  {
    var s := IsoDate(d) + "T00:00:00";
    assert s[10] == 'T';
    s
  }

  /** The value a date field gets: a parseable date-only string becomes its midnight datetime. */
  function NormalizeDateValue(v: Value): Value
  {
    if v.PyStr? && !(|v.s| > 0 && v.s[|v.s| - 1] == 'Z') && 'T' !in v.s then
      match BaseStore.StrptimeYmd(v.s)
      case Some(d) => PyStr(IsoMidnight(d))
      case None => v
    else v
  }

  /** A value needs rewriting at most once. */
  lemma {:induction false} NormalizeDateValueIdempotent(v: Value)
    ensures NormalizeDateValue(NormalizeDateValue(v)) == NormalizeDateValue(v)
  {
  }

  function NormalizeDate(data: Dict, field: string): Dict
  {
    if HasKey(data, field) && NormalizeDateValue(At(data, field)) != At(data, field) then
      Set(data, field, NormalizeDateValue(At(data, field)))
    else data
  }

  function NormalizeDates(data: Dict, fields: seq<string>): Dict
    decreases |fields|
  {
    if |fields| == 0 then data else NormalizeDates(NormalizeDate(data, fields[0]), fields[1..])
  }

  /** dict.get with Python's None when missing. */
  function At(data: Dict, k: string): Value
  {
    GetOr(data, k, PyNone)
  }

  /** A missing last_updated falls back to updated_at, then created_at, when truthy. */
  function FillLastUpdated(data: Dict): Dict
  {
    if HasKey(data, "last_updated") then data
    else if Truthy(At(data, "updated_at")) then Set(data, "last_updated", At(data, "updated_at"))
    else if Truthy(At(data, "created_at")) then Set(data, "last_updated", At(data, "created_at"))
    else data
  }

  /** A missing jurisdiction falls back to govt_source, then state, when truthy. */
  function FillJurisdiction(data: Dict): Dict
  {
    if HasKey(data, "jurisdiction") then data
    else if Truthy(At(data, "govt_source")) then Set(data, "jurisdiction", At(data, "govt_source"))
    else if Truthy(At(data, "state")) then Set(data, "jurisdiction", At(data, "state"))
    else data
  }

  /** A missing bill_status is taken from status, when present. */
  function FillBillStatus(data: Dict): Dict
  {
    if !HasKey(data, "bill_status") && HasKey(data, "status") then Set(data, "bill_status", At(data, "status"))
    else data
  }

  /** Whether a latest_text value is a dict lacking "text" but holding "text_content". */
  predicate NeedsText(lt: Value)
  {
    Truthy(lt) && lt.PyDict? && !HasKey(lt.entries, "text") && HasKey(lt.entries, "text_content")
  }

  function WithText(lt: Value): Value
    requires lt.PyDict?
  {
    PyDict(Set(lt.entries, "text", GetOr(lt.entries, "text_content", PyNone)))
  }

  /** latest_text["text"] is filled from latest_text["text_content"]. */
  function FillLatestText(data: Dict): Dict
  {
    if NeedsText(At(data, "latest_text")) then Set(data, "latest_text", WithText(At(data, "latest_text")))
    else data
  }

  /** normalize_data: the returned dict. */
  function NormalizeData(values: Dict): Dict
  {
    FillLatestText(FillBillStatus(FillJurisdiction(FillLastUpdated(NormalizeDates(values, DateFields)))))
  }

  lemma {:induction false} HasKeySet(es: Dict, k: string, v: Value, k2: string)
    ensures HasKey(Set(es, k, v), k2) <==> k2 == k || HasKey(es, k2)
  {
    GetSet(es, k, v, k2);
    GetFindsKey(es, k2);
    GetFindsKey(Set(es, k, v), k2);
  }

  lemma {:induction false} GetNormalizeDate(data: Dict, field: string, k: string)
    ensures HasKey(NormalizeDate(data, field), k) == HasKey(data, k)
    ensures Get(NormalizeDate(data, field), k)
         == if k == field && HasKey(data, k) then Some(NormalizeDateValue(At(data, k))) else Get(data, k)
  {
    GetFindsKey(data, k);
    if HasKey(data, field) && NormalizeDateValue(At(data, field)) != At(data, field) {
      GetSet(data, field, NormalizeDateValue(At(data, field)), k);
      HasKeySet(data, field, NormalizeDateValue(At(data, field)), k);
    }
  }

  /** Rewriting the date fields rewrites exactly the listed fields' values and keeps every key. */
  lemma {:induction false} GetNormalizeDates(data: Dict, fields: seq<string>, k: string)
    ensures HasKey(NormalizeDates(data, fields), k) == HasKey(data, k)
    ensures Get(NormalizeDates(data, fields), k)
         == if k in fields && HasKey(data, k) then Some(NormalizeDateValue(At(data, k))) else Get(data, k)
    decreases |fields|
  {
    GetFindsKey(data, k);
    if |fields| > 0 {
      var d1 := NormalizeDate(data, fields[0]);
      GetNormalizeDate(data, fields[0], k);
      GetNormalizeDates(d1, fields[1..], k);
      if k in fields && HasKey(data, k) {
        NormalizeDateValueIdempotent(At(data, k));
      }
    }
  }

  /** Writing one key leaves every other key, and its value, as it was. */
  lemma {:induction false} SetFrame(es: Dict, k: string, v: Value, k2: string)
    requires k2 != k
    ensures Get(Set(es, k, v), k2) == Get(es, k2) && HasKey(Set(es, k, v), k2) == HasKey(es, k2)
  {
    GetSet(es, k, v, k2);
    HasKeySet(es, k, v, k2);
  }

  lemma {:induction false} SetHere(es: Dict, k: string, v: Value)
    ensures Get(Set(es, k, v), k) == Some(v) && HasKey(Set(es, k, v), k)
  {
    GetSet(es, k, v, k);
    HasKeySet(es, k, v, k);
  }

  /** Each fill step writes only its own key. */
  lemma {:induction false} LastUpdatedFrame(d: Dict, k: string)
    requires k != "last_updated"
    ensures Get(FillLastUpdated(d), k) == Get(d, k) && HasKey(FillLastUpdated(d), k) == HasKey(d, k)
  {
    if HasKey(d, "last_updated") {
    } else if Truthy(At(d, "updated_at")) {
      SetFrame(d, "last_updated", At(d, "updated_at"), k);
    } else if Truthy(At(d, "created_at")) {
      SetFrame(d, "last_updated", At(d, "created_at"), k);
    }
  }

  lemma {:induction false} JurisdictionFrame(d: Dict, k: string)
    requires k != "jurisdiction"
    ensures Get(FillJurisdiction(d), k) == Get(d, k) && HasKey(FillJurisdiction(d), k) == HasKey(d, k)
  {
    if HasKey(d, "jurisdiction") {
    } else if Truthy(At(d, "govt_source")) {
      SetFrame(d, "jurisdiction", At(d, "govt_source"), k);
    } else if Truthy(At(d, "state")) {
      SetFrame(d, "jurisdiction", At(d, "state"), k);
    }
  }

  lemma {:induction false} BillStatusFrame(d: Dict, k: string)
    requires k != "bill_status"
    ensures Get(FillBillStatus(d), k) == Get(d, k) && HasKey(FillBillStatus(d), k) == HasKey(d, k)
  {
    SetFrame(d, "bill_status", At(d, "status"), k);
  }

  lemma {:induction false} LatestTextFrame(d: Dict, k: string)
    requires k != "latest_text"
    ensures Get(FillLatestText(d), k) == Get(d, k) && HasKey(FillLatestText(d), k) == HasKey(d, k)
  {
    if NeedsText(At(d, "latest_text")) {
      SetFrame(d, "latest_text", WithText(At(d, "latest_text")), k);
    }
  }

  /** The dict after the date rewrite and each fill step of one normalize_data pass. */
  datatype Stages = Stages(dates: Dict, lastUpdated: Dict, jurisdiction: Dict, billStatus: Dict, out: Dict)

  function StagesOf(values: Dict): (st: Stages)
    ensures st.out == NormalizeData(values)
  {
    var d1 := NormalizeDates(values, DateFields);
    var d2 := FillLastUpdated(d1);
    var d3 := FillJurisdiction(d2);
    var d4 := FillBillStatus(d3);
    Stages(d1, d2, d3, d4, FillLatestText(d4))
  }

  /** A key no fill step writes keeps its value from the date rewrite onwards. */
  lemma {:induction false} OutFrame(values: Dict, k: string)
    requires k != "last_updated" && k != "jurisdiction" && k != "bill_status" && k != "latest_text"
    ensures var st := StagesOf(values);
            Get(st.out, k) == Get(st.dates, k) && HasKey(st.out, k) == HasKey(st.dates, k)
  {
    var st := StagesOf(values);
    LastUpdatedFrame(st.dates, k);
    JurisdictionFrame(st.lastUpdated, k);
    BillStatusFrame(st.jurisdiction, k);
    LatestTextFrame(st.billStatus, k);
  }

  /**
   * Apart from the four keys the fill steps write, a key keeps its value,
   * except that a date field's value is rewritten.
   */
  lemma {:induction false} NormalizeDataOtherKeys(values: Dict, k: string)
    requires k != "last_updated" && k != "jurisdiction" && k != "bill_status" && k != "latest_text"
    ensures HasKey(NormalizeData(values), k) == HasKey(values, k)
    ensures Get(NormalizeData(values), k)
         == if k in DateFields && HasKey(values, k) then Some(NormalizeDateValue(At(values, k))) else Get(values, k)
  {
    GetNormalizeDates(values, DateFields, k);
    OutFrame(values, k);
  }

  /** The ISO datetime a date-only string becomes starts with that same date. */
  lemma {:induction false} DateOnlyBecomesMidnight(s: string, d: BaseStore.Ymd)
    requires BaseStore.StrptimeYmd(s) == Some(d) && 'T' !in s && !(|s| > 0 && s[|s| - 1] == 'Z')
    ensures NormalizeDateValue(PyStr(s)) == PyStr(IsoDate(d) + "T00:00:00")
    ensures BaseStore.StrptimeYmd(IsoDate(d)) == Some(d)
  {
    IsoDateParses(d);
  }

  lemma {:induction false} Pad2Value(n: int)
    requires 0 <= n < 100
    ensures BaseStore.IsAsciiDigit(Pad2(n)[0]) && BaseStore.IsAsciiDigit(Pad2(n)[1])
    ensures 10 * BaseStore.DigitValue(Pad2(n)[0]) + BaseStore.DigitValue(Pad2(n)[1]) == n
  {
  }

  lemma {:induction false} Pad4Value(n: int)
    requires 0 <= n < 10000
    ensures BaseStore.AllDigits(Pad4(n)) && BaseStore.YearValue(Pad4(n)) == n
  {
    var s := Pad4(n);
    Pad2Value(n / 100);
    Pad2Value(n % 100);
    assert s[0] == Pad2(n / 100)[0] && s[1] == Pad2(n / 100)[1];
    assert s[2] == Pad2(n % 100)[0] && s[3] == Pad2(n % 100)[1];
    assert n == 100 * (n / 100) + n % 100;
  }

  /** strptime(d.isoformat(), "%Y-%m-%d") gives back d. */
  lemma {:induction false} IsoDateParses(d: BaseStore.Ymd)
    requires BaseStore.IsRealDate(d)
    ensures BaseStore.StrptimeYmd(IsoDate(d)) == Some(d)
  {
    var s := IsoDate(d);
    var y, m, dd := Pad4(d.year), Pad2(d.month), Pad2(d.day);
    Pad4Value(d.year);
    assert s[..4] == y && s[4] == '-';
    var rest := s[5..];
    assert rest == m + "-" + dd;
    assert BaseStore.FirstIndex(rest, '-') == 2 by {
      assert rest[2] == '-' && rest[0] != '-' && rest[1] != '-';
    }
    assert rest[..2] == m && rest[3..] == dd;
    assert BaseStore.IsMonthToken(m) && BaseStore.TokenValue(m) == d.month;
    assert BaseStore.IsDayToken(dd) && BaseStore.TokenValue(dd) == d.day;
    assert BaseStore.YearValue(s) == BaseStore.YearValue(y);
  }

  lemma {:induction false} AtIsGet(d: Dict, k: string)
    ensures HasKey(d, k) ==> Get(d, k) == Some(At(d, k))
    ensures !HasKey(d, k) ==> Get(d, k) == None && At(d, k) == PyNone
  {
    GetFindsKey(d, k);
  }

  /** After the date rewrite a date field holds its rewritten value (None stays None). */
  lemma {:induction false} AtDates(values: Dict, k: string)
    requires k in DateFields
    ensures At(NormalizeDates(values, DateFields), k) == NormalizeDateValue(At(values, k))
  {
    GetNormalizeDates(values, DateFields, k);
    AtIsGet(values, k);
  }

  /** The last_updated fill, stated on the dict after the date rewrite. */
  lemma {:induction false} LastUpdatedFromDates(values: Dict)
    requires !HasKey(values, "last_updated")
    ensures var d := NormalizeDates(values, DateFields);
            var u, c := At(d, "updated_at"), At(d, "created_at");
            Get(NormalizeData(values), "last_updated") == if Truthy(u) then Some(u) else if Truthy(c) then Some(c) else None
  {
    var st := StagesOf(values);
    GetNormalizeDates(values, DateFields, "last_updated");
    AtIsGet(values, "last_updated");
    if Truthy(At(st.dates, "updated_at")) {
      SetHere(st.dates, "last_updated", At(st.dates, "updated_at"));
    } else if Truthy(At(st.dates, "created_at")) {
      SetHere(st.dates, "last_updated", At(st.dates, "created_at"));
    }
    JurisdictionFrame(st.lastUpdated, "last_updated");
    BillStatusFrame(st.jurisdiction, "last_updated");
    LatestTextFrame(st.billStatus, "last_updated");
  }

  /** A missing last_updated is filled from updated_at, else created_at, whichever is truthy first. */
  lemma {:induction false} LastUpdatedFallback(values: Dict)
    requires !HasKey(values, "last_updated")
    ensures var u, c := NormalizeDateValue(At(values, "updated_at")), NormalizeDateValue(At(values, "created_at"));
            Get(NormalizeData(values), "last_updated") == if Truthy(u) then Some(u) else if Truthy(c) then Some(c) else None
  {
    LastUpdatedFromDates(values);
    DatesNamed();
    AtDates(values, "updated_at");
    AtDates(values, "created_at");
  }

  /** The date fields the last_updated fill reads and writes. */
  lemma {:induction false} DatesNamed()
    ensures "created_at" in DateFields && "updated_at" in DateFields && "last_updated" in DateFields
  {
    assert DateFields[4] == "created_at" && DateFields[5] == "updated_at" && DateFields[6] == "last_updated";
  }

  /** The keys the fill steps read or write are not date fields. */
  lemma {:induction false} FillKeysNotDates()
    ensures "govt_source" !in DateFields && "state" !in DateFields && "status" !in DateFields
    ensures "jurisdiction" !in DateFields && "bill_status" !in DateFields && "latest_text" !in DateFields
  {
  }

  /** A key that is not a date field keeps its value through the date rewrite and the first two fill steps. */
  lemma {:induction false} PlainKeyFrame(values: Dict, k: string)
    requires k !in DateFields && k != "last_updated" && k != "jurisdiction"
    ensures var st := StagesOf(values);
            At(st.lastUpdated, k) == At(values, k) && At(st.jurisdiction, k) == At(values, k)
            && Get(st.jurisdiction, k) == Get(values, k) && HasKey(st.jurisdiction, k) == HasKey(values, k)
  {
    var st := StagesOf(values);
    GetNormalizeDates(values, DateFields, k);
    LastUpdatedFrame(st.dates, k);
    JurisdictionFrame(st.lastUpdated, k);
  }

  /** A missing jurisdiction is filled from govt_source, else state, whichever is truthy first. */
  lemma {:induction false} JurisdictionFallback(values: Dict)
    requires !HasKey(values, "jurisdiction")
    ensures var g, s := At(values, "govt_source"), At(values, "state");
            Get(NormalizeData(values), "jurisdiction") == if Truthy(g) then Some(g) else if Truthy(s) then Some(s) else None
  {
    var st := StagesOf(values);
    FillKeysNotDates();
    PlainKeyFrame(values, "govt_source");
    PlainKeyFrame(values, "state");
    GetNormalizeDates(values, DateFields, "jurisdiction");
    LastUpdatedFrame(st.dates, "jurisdiction");
    AtIsGet(values, "jurisdiction");
    if HasKey(st.lastUpdated, "jurisdiction") {
    } else if Truthy(At(st.lastUpdated, "govt_source")) {
      SetHere(st.lastUpdated, "jurisdiction", At(st.lastUpdated, "govt_source"));
    } else if Truthy(At(st.lastUpdated, "state")) {
      SetHere(st.lastUpdated, "jurisdiction", At(st.lastUpdated, "state"));
    }
    BillStatusFrame(st.jurisdiction, "jurisdiction");
    LatestTextFrame(st.billStatus, "jurisdiction");
  }

  /** A missing bill_status is copied from status, and stays missing without one. */
  lemma {:induction false} BillStatusFromStatus(values: Dict)
    requires !HasKey(values, "bill_status")
    ensures Get(NormalizeData(values), "bill_status") == Get(values, "status")
  {
    var st := StagesOf(values);
    FillKeysNotDates();
    PlainKeyFrame(values, "status");
    PlainKeyFrame(values, "bill_status");
    AtIsGet(values, "status");
    AtIsGet(values, "bill_status");
    assert !HasKey(st.jurisdiction, "bill_status");
    if HasKey(st.jurisdiction, "status") {
      SetHere(st.jurisdiction, "bill_status", At(st.jurisdiction, "status"));
    }
    LatestTextFrame(st.billStatus, "bill_status");
  }

  /** A latest_text dict with text_content but no text gets text copied from text_content; otherwise latest_text is kept. */
  lemma {:induction false} LatestTextFilled(values: Dict)
    ensures Get(NormalizeData(values), "latest_text")
         == if NeedsText(At(values, "latest_text")) then Some(WithText(At(values, "latest_text"))) else Get(values, "latest_text")
  {
    var st := StagesOf(values);
    FillKeysNotDates();
    PlainKeyFrame(values, "latest_text");
    BillStatusFrame(st.jurisdiction, "latest_text");
    AtIsGet(st.jurisdiction, "latest_text");
    AtIsGet(st.billStatus, "latest_text");
    assert At(st.billStatus, "latest_text") == At(values, "latest_text");
    if NeedsText(At(values, "latest_text")) {
      SetHere(st.billStatus, "latest_text", WithText(At(st.billStatus, "latest_text")));
    }
  }

  /** No step removes a key. */
  lemma {:induction false} LastUpdatedKeepsKeys(d: Dict, k: string)
    requires HasKey(d, k)
    ensures HasKey(FillLastUpdated(d), k)
  {
    if !HasKey(d, "last_updated") {
      if Truthy(At(d, "updated_at")) {
        HasKeySet(d, "last_updated", At(d, "updated_at"), k);
      } else if Truthy(At(d, "created_at")) {
        HasKeySet(d, "last_updated", At(d, "created_at"), k);
      }
    }
  }

  lemma {:induction false} JurisdictionKeepsKeys(d: Dict, k: string)
    requires HasKey(d, k)
    ensures HasKey(FillJurisdiction(d), k)
  {
    if !HasKey(d, "jurisdiction") {
      if Truthy(At(d, "govt_source")) {
        HasKeySet(d, "jurisdiction", At(d, "govt_source"), k);
      } else if Truthy(At(d, "state")) {
        HasKeySet(d, "jurisdiction", At(d, "state"), k);
      }
    }
  }

  lemma {:induction false} BillStatusKeepsKeys(d: Dict, k: string)
    requires HasKey(d, k)
    ensures HasKey(FillBillStatus(d), k)
  {
    if !HasKey(d, "bill_status") && HasKey(d, "status") {
      HasKeySet(d, "bill_status", At(d, "status"), k);
    }
  }

  lemma {:induction false} LatestTextKeepsKeys(d: Dict, k: string)
    requires HasKey(d, k)
    ensures HasKey(FillLatestText(d), k)
  {
    if NeedsText(At(d, "latest_text")) {
      HasKeySet(d, "latest_text", WithText(At(d, "latest_text")), k);
    }
  }

  /** Every key of the input is a key of the result. */
  lemma {:induction false} NormalizeDataKeepsKeys(values: Dict, k: string)
    requires HasKey(values, k)
    ensures HasKey(NormalizeData(values), k)
  {
    var st := StagesOf(values);
    GetNormalizeDates(values, DateFields, k);
    LastUpdatedKeepsKeys(st.dates, k);
    JurisdictionKeepsKeys(st.lastUpdated, k);
    BillStatusKeepsKeys(st.jurisdiction, k);
    LatestTextKeepsKeys(st.billStatus, k);
  }

  /** A date field the date rewrite leaves alone. */
  predicate DateFixed(d: Dict, k: string)
  {
    !HasKey(d, k) || NormalizeDateValue(At(d, k)) == At(d, k)
  }

  lemma {:induction false} NormalizeDatesFixed(d: Dict, fs: seq<string>)
    requires forall i :: 0 <= i < |fs| ==> DateFixed(d, fs[i])
    ensures NormalizeDates(d, fs) == d
    decreases |fs|
  {
    if |fs| > 0 {
      assert NormalizeDate(d, fs[0]) == d;
      assert forall i :: 0 <= i < |fs| - 1 ==> fs[1..][i] == fs[i + 1];
      NormalizeDatesFixed(d, fs[1..]);
    }
  }

  /** The result's date fields need no further rewriting. */
  lemma {:induction false} OutDatesFixed(values: Dict, k: string)
    requires k in DateFields
    ensures DateFixed(NormalizeData(values), k)
  {
    var out := NormalizeData(values);
    FillKeysNotDates();
    if k != "last_updated" {
      NormalizeDataOtherKeys(values, k);
      AtIsGet(values, k);
      AtIsGet(out, k);
      NormalizeDateValueIdempotent(At(values, k));
    } else if HasKey(values, k) {
      var st := StagesOf(values);
      AtDates(values, k);
      GetNormalizeDates(values, DateFields, k);
      JurisdictionFrame(st.lastUpdated, k);
      BillStatusFrame(st.jurisdiction, k);
      LatestTextFrame(st.billStatus, k);
      AtIsGet(st.dates, k);
      AtIsGet(out, k);
      NormalizeDateValueIdempotent(At(values, k));
    } else {
      LastUpdatedFallback(values);
      AtIsGet(out, k);
      NormalizeDateValueIdempotent(At(values, "updated_at"));
      NormalizeDateValueIdempotent(At(values, "created_at"));
    }
  }

  /** A latest_text that was filled has its text now. */
  lemma {:induction false} WithTextHasText(lt: Value)
    requires lt.PyDict?
    ensures !NeedsText(WithText(lt))
  {
    HasKeySet(lt.entries, "text", GetOr(lt.entries, "text_content", PyNone), "text");
  }

  lemma {:induction false} DatesSettled(values: Dict)
    ensures NormalizeDates(NormalizeData(values), DateFields) == NormalizeData(values)
  {
    var out := NormalizeData(values);
    forall i | 0 <= i < |DateFields|
      ensures DateFixed(out, DateFields[i])
    {
      OutDatesFixed(values, DateFields[i]);
    }
    NormalizeDatesFixed(out, DateFields);
  }

  /** A key no fill step writes has, in the result, its value after the date rewrite. */
  lemma {:induction false} AtOutDated(values: Dict, k: string)
    requires k != "last_updated" && k != "jurisdiction" && k != "bill_status" && k != "latest_text"
    ensures At(NormalizeData(values), k) == At(NormalizeDates(values, DateFields), k)
  {
    OutFrame(values, k);
  }

  lemma {:induction false} LastUpdatedSettled(values: Dict)
    ensures FillLastUpdated(NormalizeData(values)) == NormalizeData(values)
  {
    var out := NormalizeData(values);
    if !HasKey(out, "last_updated") {
      if HasKey(values, "last_updated") {
        NormalizeDataKeepsKeys(values, "last_updated");
      }
      LastUpdatedFromDates(values);
      AtIsGet(out, "last_updated");
      AtOutDated(values, "updated_at");
      AtOutDated(values, "created_at");
    }
  }

  lemma {:induction false} JurisdictionSettled(values: Dict)
    ensures FillJurisdiction(NormalizeData(values)) == NormalizeData(values)
  {
    var out := NormalizeData(values);
    if !HasKey(out, "jurisdiction") {
      FillKeysNotDates();
      if HasKey(values, "jurisdiction") {
        NormalizeDataKeepsKeys(values, "jurisdiction");
      }
      JurisdictionFallback(values);
      AtIsGet(out, "jurisdiction");
      NormalizeDataOtherKeys(values, "govt_source");
      NormalizeDataOtherKeys(values, "state");
      AtIsGet(values, "govt_source");
      AtIsGet(values, "state");
      AtIsGet(out, "govt_source");
      AtIsGet(out, "state");
    }
  }

  lemma {:induction false} BillStatusSettled(values: Dict)
    ensures FillBillStatus(NormalizeData(values)) == NormalizeData(values)
  {
    var out := NormalizeData(values);
    if !HasKey(out, "bill_status") {
      FillKeysNotDates();
      if HasKey(values, "bill_status") {
        NormalizeDataKeepsKeys(values, "bill_status");
      }
      BillStatusFromStatus(values);
      NormalizeDataOtherKeys(values, "status");
      AtIsGet(values, "status");
      AtIsGet(out, "bill_status");
    }
  }

  lemma {:induction false} LatestTextSettled(values: Dict)
    ensures FillLatestText(NormalizeData(values)) == NormalizeData(values)
  {
    var out := NormalizeData(values);
    LatestTextFilled(values);
    AtIsGet(values, "latest_text");
    AtIsGet(out, "latest_text");
    if NeedsText(At(values, "latest_text")) {
      WithTextHasText(At(values, "latest_text"));
    }
  }

  /** normalize_data is idempotent: a normalized dict passes through unchanged. */
  lemma {:induction false} NormalizeDataIdempotent(values: Dict)
    ensures NormalizeData(NormalizeData(values)) == NormalizeData(values)
  {
    DatesSettled(values);
    LastUpdatedSettled(values);
    JurisdictionSettled(values);
    BillStatusSettled(values);
    LatestTextSettled(values);
  }

  /**
   * normalize_data as written, with the caller's dict after the call:
   * dict(values) copies only the top level, so filling latest_text["text"]
   * also changes the latest_text dict the caller passed in.
   */
  function NormalizeDataAsWritten(values: Dict): (Dict, Dict)
  {
    var lt := At(values, "latest_text");
    (NormalizeData(values), if NeedsText(lt) then Set(values, "latest_text", WithText(lt)) else values)
  }

  /** The caller's input changes although the copy was meant to prevent it. */
  lemma {:induction false} InputChangedAsWritten()
    ensures var values := [("latest_text", PyDict([("text_content", PyStr("x"))]))];
            NormalizeDataAsWritten(values).1 != values
  {
    var values := [("latest_text", PyDict([("text_content", PyStr("x"))]))];
    var lt := At(values, "latest_text");
    assert lt == PyDict([("text_content", PyStr("x"))]);
    assert NeedsText(lt);
    SetHere(values, "latest_text", WithText(lt));
    WithTextHasText(lt);
    assert Get(values, "latest_text") == Some(lt);
  }

  /** normalize_data with a deep copy: the same result, and the caller's dict as it was. */
  function NormalizeDataCopying(values: Dict): (r: (Dict, Dict))
    ensures r.1 == values
  {
    (NormalizeData(values), values)
  }

  /** The deep copy changes nothing but the caller's view. */
  lemma {:induction false} CopyingAgrees(values: Dict)
    ensures NormalizeDataCopying(values).0 == NormalizeDataAsWritten(values).0
    ensures !NeedsText(At(values, "latest_text")) ==> NormalizeDataCopying(values) == NormalizeDataAsWritten(values)
  {
  }
}
