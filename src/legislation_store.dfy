/**
 * The pure parts of the legislation store (app/data/legislation_store.py):
 * pagination metadata, the strict date and id validators, keyword
 * parsing for the keyword search, and the reassembly of ranked search
 * results.  The queries themselves are oracles.
 */
module LegislationStore {
  import opened Wrappers
  import opened PyValue
  import Text
  import BaseStore

  type StoreError = BaseStore.StoreError

  // ---------------------------------------------------------------------
  // _calculate_pagination_info

  datatype PageInfo = PageInfo(
    total: int, limit: int, offset: int,
    currentPage: int, totalPages: int, pageSize: int,
    hasMore: bool, hasNextPage: bool, hasPrevPage: bool,
    nextOffset: Option<int>, prevOffset: Option<int>)

  /**
   * The page size is the limit when positive, else the whole count; with
   * a page size of 0 both page numbers are 1.  Python's // floors, which
   * for the positive divisors used here is Dafny's /.
   */
  function CalculatePaginationInfo(total: int, limit: int, offset: int): (p: PageInfo)
    ensures p.total == total && p.limit == limit && p.offset == offset
    ensures p.pageSize == (if limit > 0 then limit else total)
    ensures p.hasNextPage <==> limit > 0 && offset + limit < total
    ensures p.hasPrevPage <==> offset > 0
    ensures p.hasMore == p.hasNextPage
    ensures p.nextOffset == (if p.hasNextPage then Some(offset + limit) else None)
    ensures p.prevOffset == (if p.hasPrevPage then Some(if offset - limit > 0 then offset - limit else 0) else None)
    ensures p.pageSize <= 0 ==> p.currentPage == 1 && p.totalPages == 1
  {
    var pageSize := if limit > 0 then (if limit > 1 then limit else 1) else total;
    var currentPage := if pageSize > 0 then offset / pageSize + 1 else 1;
    var totalPages := if pageSize > 0 then (total + pageSize - 1) / pageSize else 1;
    var hasNext := if limit > 0 then offset + limit < total else false;
    var hasPrev := offset > 0;
    PageInfo(total, limit, offset, currentPage, totalPages, pageSize, hasNext, hasNext, hasPrev,
             if hasNext then Some(offset + limit) else None,
             if hasPrev then Some(if offset - limit > 0 then offset - limit else 0) else None)
  }

  /** total_pages is the ceiling of total / page size: enough pages, and no empty one. */
  lemma {:induction false} TotalPagesIsCeiling(total: int, limit: int, offset: int)
    requires limit > 0 && total >= 0
    ensures var p := CalculatePaginationInfo(total, limit, offset);
      (p.totalPages - 1) * limit < total <= p.totalPages * limit || (total == 0 && p.totalPages == 0)
  {
    var q := (total + limit - 1) / limit;
    var r := (total + limit - 1) % limit;
    assert total + limit - 1 == q * limit + r;
  }

  /** An offset inside the results lies on a page between the first and the last. */
  lemma {:induction false} CurrentPageWithinTotal(total: int, limit: int, offset: int)
    requires limit > 0 && 0 <= offset < total
    ensures var p := CalculatePaginationInfo(total, limit, offset);
      1 <= p.currentPage <= p.totalPages
  {
    PageBelowCeiling(offset, total, limit);
  }

  /** The page of an offset below total is at most the ceiling of total / limit. */
  lemma {:induction false} PageBelowCeiling(offset: int, total: int, limit: int)
    requires limit > 0 && 0 <= offset < total
    ensures 1 <= offset / limit + 1 <= (total + limit - 1) / limit
  {
    var c, q := offset / limit, (total + limit - 1) / limit;
    assert offset == c * limit + offset % limit;
    assert total + limit - 1 == q * limit + (total + limit - 1) % limit;
    if q <= c {
      MulMono(q, c, limit);
    }
  }

  lemma {:induction false} MulMono(a: int, b: int, k: int)
    requires a <= b && k >= 0
    ensures a * k <= b * k
  {
  }

  /** Following next_offset moves exactly one page on. */
  lemma {:induction false} NextOffsetIsNextPage(total: int, limit: int, offset: int)
    requires CalculatePaginationInfo(total, limit, offset).hasNextPage
    ensures CalculatePaginationInfo(total, limit, offset + limit).currentPage
         == CalculatePaginationInfo(total, limit, offset).currentPage + 1
  {
    var q := offset / limit;
    var r := offset % limit;
    DivUnique(offset + limit, limit, q + 1, r);
  }

  /** Division by a positive number is determined by quotient and remainder. */
  lemma {:induction false} DivUnique(x: int, k: int, q: int, r: int)
    requires k > 0 && 0 <= r < k && x == q * k + r
    ensures x / k == q
  {
    var q', r' := x / k, x % k;
    assert x == q' * k + r';
    if q' > q {
      MulMono(q + 1, q', k);
    } else if q' < q {
      MulMono(q' + 1, q, k);
    }
  }

  // ---------------------------------------------------------------------
  // Validators

  /** The regex ^\d{4}-\d{2}-\d{2}$ without its final newline allowance. */
  predicate StrictShape(s: string)
  {
    |s| == 10 && s[4] == '-' && s[7] == '-'
    && forall k :: 0 <= k < 10 && k != 4 && k != 7 ==> BaseStore.IsAsciiDigit(s[k])
  }

  /** re.match with ^…$: `$` also matches before a final newline. */
  predicate MatchesDatePattern(s: string)
  {
    StrictShape(s) || (|s| == 11 && s[10] == '\n' && StrictShape(s[..10]))
  }

  /** LegislationStore._is_valid_date_format on a string: the pattern, then strptime. */
  predicate IsValidDateString(s: string)
  {
    s != "" && MatchesDatePattern(s) && BaseStore.StrptimeYmd(s).Some?
  }

  /** The date a strictly shaped string spells. */
  function ShapeDate(s: string): BaseStore.Ymd
    requires StrictShape(s)
  {
    BaseStore.Ymd(BaseStore.YearValue(s), BaseStore.TokenValue(s[5..7]), BaseStore.TokenValue(s[8..10]))
  }

  /** Exactly the YYYY-MM-DD spellings of real dates; the newline the pattern lets through strptime refuses. */
  lemma {:induction false} ValidDateIff(s: string)
    ensures IsValidDateString(s) <==> StrictShape(s) && BaseStore.IsRealDate(ShapeDate(s))
  {
    if StrictShape(s) {
      var rest := s[5..];
      assert rest[2] == '-' && rest[0] != '-' && rest[1] != '-';
      assert BaseStore.FirstIndex(rest, '-') == 2;
      assert rest[..2] == s[5..7] && rest[3..] == s[8..10];
      assert BaseStore.AllDigits(s[..4]) by {
        forall k | 0 <= k < 4 ensures BaseStore.IsAsciiDigit(s[..4][k]) {
          assert s[..4][k] == s[k];
        }
      }
    } else if |s| == 11 && s[10] == '\n' && StrictShape(s[..10]) {
      var rest := s[5..];
      assert rest[2] == '-' && rest[0] != '-' && rest[1] != '-';
      assert BaseStore.FirstIndex(rest, '-') == 2;
      assert |rest[3..]| == 3;
    }
  }

  /** Whatever this check accepts, the plain strptime check of the base store accepts too. */
  lemma {:induction false} StrictDateIsLenientDate(s: string)
    requires IsValidDateString(s)
    ensures BaseStore.IsValidDateFormat(s)
  {
  }

  /** The check on an arbitrary value: falsy is invalid, a non-string makes re.match raise. */
  function IsValidDateFormat(v: Value): (r: Result<bool, StoreError>)
    ensures r.Err? <==> Truthy(v) && !v.PyStr?
    ensures r == Ok(true) <==> v.PyStr? && IsValidDateString(v.s)
  {
    if !Truthy(v) then Ok(false)
    else if !v.PyStr? then
      Err(BaseStore.Unhandled("TypeError", if v.PyBytes? then "cannot use a string pattern on a bytes-like object"
                                           else "expected string or bytes-like object, got '" + TypeName(v) + "'"))
    else Ok(IsValidDateString(v.s))
  }

  /** _validate_legislation_id: an int (bool included) above zero. */
  function ValidateLegislationId(v: Value): (r: Result<(), StoreError>)
    ensures r.Ok? <==> BaseStore.AsInt(v).Some? && BaseStore.AsInt(v).value > 0
    ensures r.Err? ==> r.error == BaseStore.ValidationError("Invalid legislation ID: " + Str(v) + ". Must be a positive integer.")
  {
    if BaseStore.AsInt(v).None? || BaseStore.AsInt(v).value <= 0 then
      Err(BaseStore.ValidationError("Invalid legislation ID: " + Str(v) + ". Must be a positive integer."))
    else Ok(())
  }

  /** One bound of a date range: absent or falsy, or a valid date string. */
  predicate BoundOk(v: Value)
  {
    !Truthy(v) || (v.PyStr? && IsValidDateString(v.s))
  }

  /**
   * _validate_date_range: each bound is checked when truthy, the start
   * first, then the order of the two under string comparison.
   */
  function ValidateDateRange(range: Value): (r: Result<(), StoreError>)
    ensures r.Ok? <==>
      (range.PyDict?
       && BoundOk(GetOr(range.entries, "start_date", PyNone))
       && BoundOk(GetOr(range.entries, "end_date", PyNone))
       && !(Truthy(GetOr(range.entries, "start_date", PyNone)) && Truthy(GetOr(range.entries, "end_date", PyNone))
            && Text.StrLess(GetOr(range.entries, "end_date", PyNone).s, GetOr(range.entries, "start_date", PyNone).s)))
  {
    if !range.PyDict? then Err(BaseStore.ValidationError("Date range must be a dictionary"))
    else
      var start := GetOr(range.entries, "start_date", PyNone);
      var end := GetOr(range.entries, "end_date", PyNone);
      if Truthy(start) && IsValidDateFormat(start).Err? then Err(IsValidDateFormat(start).error)
      else if Truthy(start) && !IsValidDateFormat(start).value then
        Err(BaseStore.ValidationError("Invalid start_date format: " + Str(start) + ". Expected YYYY-MM-DD"))
      else if Truthy(end) && IsValidDateFormat(end).Err? then Err(IsValidDateFormat(end).error)
      else if Truthy(end) && !IsValidDateFormat(end).value then
        Err(BaseStore.ValidationError("Invalid end_date format: " + Str(end) + ". Expected YYYY-MM-DD"))
      else if Truthy(start) && Truthy(end) && Text.StrLess(end.s, start.s) then
        Err(BaseStore.ValidationError("end_date (" + end.s + ") cannot be before start_date (" + start.s + ")"))
      else Ok(())
  }

  /** {"start_date": a, "end_date": b}. */
  function RangeOf(a: string, b: string): Value
  {
    PyDict([("start_date", PyStr(a)), ("end_date", PyStr(b))])
  }

  /** Two well-formed dates make a range exactly when the end is not before the start. */
  lemma {:induction false} RangeAcceptedIff(a: string, b: string)
    requires IsValidDateString(a) && IsValidDateString(b)
    ensures ValidateDateRange(RangeOf(a, b)).Ok? <==> !Text.StrLess(b, a)
  {
    var es := RangeOf(a, b).entries;
    assert es[1..] == [("end_date", PyStr(b))];
    assert Get(es, "start_date") == Some(PyStr(a)) && Get(es, "end_date") == Some(PyStr(b));
    var start, end := GetOr(es, "start_date", PyNone), GetOr(es, "end_date", PyNone);
    assert start == PyStr(a) && end == PyStr(b);
    assert Truthy(start) && Truthy(end);
    assert BoundOk(start) && BoundOk(end);
  }

  /** A one-day range is accepted, and of two different dates exactly one order is. */
  lemma {:induction false} RangeOrders(a: string, b: string)
    requires IsValidDateString(a) && IsValidDateString(b)
    ensures ValidateDateRange(RangeOf(a, a)).Ok?
    ensures a != b ==> (ValidateDateRange(RangeOf(a, b)).Ok? <==> ValidateDateRange(RangeOf(b, a)).Err?)
  {
    RangeAcceptedIff(a, a);
    RangeAcceptedIff(a, b);
    RangeAcceptedIff(b, a);
    Text.StrLessIrreflexive(a);
    if a != b {
      Text.StrLessTotal(a, b);
      if Text.StrLess(a, b) {
        Text.StrLessAsymmetric(a, b);
      }
    }
  }

  /** _validate_keywords_filter: a list or a string. */
  function ValidateKeywordsFilter(keywords: Value): (r: Result<(), StoreError>)
    ensures r.Ok? <==> keywords.PyStr? || keywords.PyList?
    ensures r.Err? ==> r.error == BaseStore.ValidationError("Keywords filter must be a list or string")
  {
    if keywords.PyStr? || keywords.PyList? then Ok(())
    else Err(BaseStore.ValidationError("Keywords filter must be a list or string"))
  }

  /**
   * _validate_search_params: the query must be a string and the filters a
   * dict; a keywords filter is checked when present, a date range when
   * present and truthy.
   */
  function ValidateSearchParams(query: Value, filters: Value): (r: Result<(), StoreError>)
    ensures r.Ok? <==>
      (query.PyStr? && filters.PyDict?
       && (HasKey(filters.entries, "keywords") ==> ValidateKeywordsFilter(GetOr(filters.entries, "keywords", PyNone)).Ok?)
       && (Truthy(GetOr(filters.entries, "date_range", PyNone)) ==> ValidateDateRange(GetOr(filters.entries, "date_range", PyNone)).Ok?))
    ensures !query.PyStr? ==> r == Err(BaseStore.ValidationError("Query must be a string, got " + TypeName(query)))
  {
    if !query.PyStr? then Err(BaseStore.ValidationError("Query must be a string, got " + TypeName(query)))
    else if !filters.PyDict? then Err(BaseStore.ValidationError("Filters must be a dictionary, got " + TypeName(filters)))
    else
      var kw := GetOr(filters.entries, "keywords", PyNone);
      var dr := GetOr(filters.entries, "date_range", PyNone);
      if HasKey(filters.entries, "keywords") && ValidateKeywordsFilter(kw).Err? then ValidateKeywordsFilter(kw)
      else if Truthy(dr) then ValidateDateRange(dr)
      else Ok(())
  }

  // ---------------------------------------------------------------------
  // Keyword search

  /** [str(kw).strip() for kw in keywords if str(kw).strip()]. */
  function StrippedStrs(xs: seq<Value>): (r: seq<string>)
    ensures forall p :: p in r ==> p != [] && Text.Strip(p) == p
    ensures |r| <= |xs|
  {
    if xs == [] then []
    else
      var p := Text.Strip(Str(xs[0]));
      Text.StripIdempotent(Str(xs[0]));
      if p == [] then StrippedStrs(xs[1..]) else [p] + StrippedStrs(xs[1..])
  }

  /** The keyword list of search_legislation_by_keywords. */
  function ParseKeywords(keywords: Value): (r: Result<seq<string>, StoreError>)
    ensures r.Err? <==> !keywords.PyStr? && !keywords.PyList?
    ensures r.Ok? ==> forall k :: k in r.value ==> k != [] && Text.Strip(k) == k
  {
    match keywords
    case PyStr(s) => Ok(Text.SplitStripNonEmpty(s, ','))
    case PyList(xs) => Ok(StrippedStrs(xs))
    case _ => Err(BaseStore.ValidationError("Keywords must be a string or list, got " + TypeName(keywords)))
  }

  /** Keywords parsed from a string hold no comma. */
  lemma {:induction false} KeywordsHaveNoComma(s: string)
    ensures forall k :: k in ParseKeywords(PyStr(s)).value ==> ',' !in k
  {
    Text.SplitStripNonEmptyKeepsOut(s, ',');
  }

  /** The shape of a keyword search answer. */
  datatype SearchPage<R> = SearchPage(totalCount: int, items: seq<R>, pageInfo: PageInfo)

  /**
   * search_legislation_by_keywords: validation, then keyword parsing; an
   * empty keyword list answers with nothing and makes no query.  The query
   * (its count and its page of rows) is the oracle.
   */
  function SearchByKeywords<R>(keywords: Value, limit: Value, offset: Value,
                               query: seq<string> -> (int, seq<R>)): (r: Result<SearchPage<R>, StoreError>)
    ensures BaseStore.ValidatePaginationParams(limit, offset).Err? ==> r.Err?
    ensures r.Ok? ==> r.value.pageInfo.total == r.value.totalCount
  {
    match BaseStore.ValidatePaginationParams(limit, offset)
    case Err(e) => Err(e)
    case Ok(_) =>
      var l, o := BaseStore.AsInt(limit).value, BaseStore.AsInt(offset).value;
      match ParseKeywords(keywords)
      case Err(e) => Err(e)
      case Ok(kws) =>
        if kws == [] then Ok(SearchPage(0, [], CalculatePaginationInfo(0, l, o)))
        else
          var (total, rows) := query(kws);
          Ok(SearchPage(total, rows, CalculatePaginationInfo(total, l, o)))
  }

  /** With nothing to search for, the answer is empty whatever the database holds. */
  lemma {:induction false} BlankKeywordsAnswerEmpty<R>(s: string, limit: Value, offset: Value,
                                   q1: seq<string> -> (int, seq<R>), q2: seq<string> -> (int, seq<R>))
    requires Text.SplitStripNonEmpty(s, ',') == []
    requires BaseStore.ValidatePaginationParams(limit, offset).Ok?
    ensures SearchByKeywords(PyStr(s), limit, offset, q1) == SearchByKeywords(PyStr(s), limit, offset, q2)
    ensures SearchByKeywords(PyStr(s), limit, offset, q1).value.totalCount == 0
    ensures SearchByKeywords(PyStr(s), limit, offset, q1).value.items == []
  {
  }

  // ---------------------------------------------------------------------
  // Ranked-id reassembly of the advanced search

  /** {record.id: record for record in records}: a later record with the same id wins. */
  function ById<R>(records: seq<(int, R)>): (m: map<int, R>)
    ensures forall id :: id in m <==> exists k :: 0 <= k < |records| && records[k].0 == id
  {
    if records == [] then map[]
    else
      var init := records[..|records| - 1];
      var last := records[|records| - 1];
      var m := ById(init)[last.0 := last.1];
      assert forall k :: 0 <= k < |init| ==> init[k] == records[k];
      m
  }

  /** [records_dict[id] for id in ordered_ids if id in records_dict]. */
  function Reassemble<R>(ordered: seq<int>, fetched: map<int, R>): (r: seq<R>)
    ensures |r| <= |ordered|
  {
    if ordered == [] then []
    else
      var init := Reassemble(ordered[..|ordered| - 1], fetched);
      var id := ordered[|ordered| - 1];
      if id in fetched then init + [fetched[id]] else init
  }

  /** Reassembly works piecewise: records keep the relative order of their ids. */
  lemma {:induction false} ReassembleAppend<R>(a: seq<int>, b: seq<int>, fetched: map<int, R>)
    ensures Reassemble(a + b, fetched) == Reassemble(a, fetched) + Reassemble(b, fetched)
    decreases |b|
  {
    if b == [] {
      assert a + b == a;
    } else {
      var b' := b[..|b| - 1];
      assert (a + b)[..|a + b| - 1] == a + b';
      ReassembleAppend(a, b', fetched);
    }
  }

  /** When every ranked id was fetched, the records come back one per id in rank order. */
  lemma {:induction false} ReassembleAllFetched<R>(ordered: seq<int>, fetched: map<int, R>)
    requires forall i :: 0 <= i < |ordered| ==> ordered[i] in fetched
    ensures |Reassemble(ordered, fetched)| == |ordered|
    ensures forall i :: 0 <= i < |ordered| ==> Reassemble(ordered, fetched)[i] == fetched[ordered[i]]
    decreases |ordered|
  {
    if ordered != [] {
      var init := ordered[..|ordered| - 1];
      assert forall i :: 0 <= i < |init| ==> init[i] == ordered[i];
      ReassembleAllFetched(init, fetched);
    }
  }

  /** An id that was not fetched is dropped. */
  lemma {:induction false} MissingIdDropped<R>(ordered: seq<int>, id: int, fetched: map<int, R>)
    requires id !in fetched
    ensures Reassemble(ordered + [id], fetched) == Reassemble(ordered, fetched)
  {
    assert (ordered + [id])[..|ordered|] == ordered;
  }
}
