/**
 * Amendment tracking of the nightly sync (app/scheduler/amendments.py).
 * Amendments with a truthy amendment_id are counted. Without the Amendment
 * model each of them is appended to the bill's raw_api_response unless
 * its id is already listed there. Any failure rolls the session back and
 * surfaces as a DataSyncError; no count is returned then.
 */
module Amendments {
  import opened Wrappers
  import opened PyValue
  import opened Errors
  import Text
  import LegiscanDb

  /** The status get_status_value picks: an enum member, or its plain name when the enum lacks the members. */
  datatype StatusValue = EnumMember(name: string) | PlainString(name: string)

  /** bool(amend_data.get("adopted", 0)). */
  predicate IsAdopted(amend: seq<(string, Value)>)
  {
    Truthy(GetOr(amend, "adopted", PyInt(0)))
  }

  /** get_status_value: adopted or proposed by the flag, as a member of the enum when it has both. */
  function GetStatusValue(isAdopted: bool, enumHasMembers: bool): (r: StatusValue)
    ensures r.name == "adopted" <==> isAdopted
    ensures r.name == "proposed" <==> !isAdopted
    ensures r.EnumMember? <==> enumHasMembers
  {
    var name := if isAdopted then "adopted" else "proposed";
    if enumHasMembers then EnumMember(name) else PlainString(name)
  }

  /** _get_bill_id_safely: int(str(id)), or None when the id is None or does not convert. */
  function GetBillIdSafely(id: Value): (r: Option<int>)
    ensures id.PyNone? ==> r.None?
    ensures id.PyBool? ==> r.None?
  {
    if id.PyNone? then None else Text.ParseInt(Str(id))
  }

  /** An integer id comes back as itself, and so does its decimal rendering. */
  lemma {:induction false} BillIdOfInt(i: int)
    ensures GetBillIdSafely(PyInt(i)) == Some(i)
    ensures GetBillIdSafely(PyStr(Text.IntToString(i))) == Some(i)
  {
    Text.IntToStringRoundTrip(i);
  }

  /** The columns of the Amendment model (app/models/legislation_models.py). */
  const AmendmentColumns: set<string> := {
    "id", "amendment_id", "legislation_id", "adopted", "status", "amendment_date", "title",
    "description", "amendment_hash", "amendment_text", "amendment_url", "state_link", "chamber",
    "sponsor_info", "text_metadata", "is_binary_text"}

  /** The status as the stored value: an enum member or a plain string. */
  function StatusAsValue(s: StatusValue): Value
  {
    match s
    case EnumMember(n) => PyOther("AmendmentStatusEnum." + n)
    case PlainString(n) => PyStr(n)
  }

  /** The amendment_data dict create_new_amendment builds, with the parsed date as a value. */
  function NewAmendmentData(legislationId: int, amendmentId: Value, isAdopted: bool, status: StatusValue,
                            date: Value, amend: seq<(string, Value)>): seq<(string, Value)>
  {
    [("amendment_id", amendmentId), ("legislation_id", PyInt(legislationId)), ("adopted", PyBool(isAdopted)),
     ("status", StatusAsValue(status)), ("amendment_date", date),
     ("title", GetOr(amend, "title", PyStr(""))), ("description", GetOr(amend, "description", PyStr(""))),
     ("amendment_hash", GetOr(amend, "amendment_hash", PyStr(""))),
     ("amendment_url", GetOr(amend, "state_link", PyStr("")))]
  }

  /** {k: data[k] for k in data if hasattr(Amendment, k)}: the entries whose key is an attribute, in order. */
  function FilterKeys(data: seq<(string, Value)>, attrs: set<string>): (r: seq<(string, Value)>)
    ensures forall e :: e in r <==> e in data && e.0 in attrs
    ensures |r| <= |data|
  {
    if |data| == 0 then []
    else
      var rest := FilterKeys(data[..|data| - 1], attrs);
      var last := data[|data| - 1];
      assert data == data[..|data| - 1] + [last];
      if last.0 in attrs then rest + [last] else rest
  }

  /** A filter that accepts every key keeps the data as it is. */
  lemma {:induction false} FilterKeysKeepsAll(data: seq<(string, Value)>, attrs: set<string>)
    requires forall i :: 0 <= i < |data| ==> data[i].0 in attrs
    ensures FilterKeys(data, attrs) == data
  {
    if |data| > 0 {
      FilterKeysKeepsAll(data[..|data| - 1], attrs);
      assert data == data[..|data| - 1] + [data[|data| - 1]];
    }
  }

  /** With the real Amendment model every key create_new_amendment builds is a column, so none is dropped. */
  lemma {:induction false} NewAmendmentKeepsEveryKey(legislationId: int, amendmentId: Value, isAdopted: bool, status: StatusValue,
                                  date: Value, amend: seq<(string, Value)>)
    ensures var data := NewAmendmentData(legislationId, amendmentId, isAdopted, status, date, amend);
      FilterKeys(data, AmendmentColumns) == data
  {
    FilterKeysKeepsAll(NewAmendmentData(legislationId, amendmentId, isAdopted, status, date, amend), AmendmentColumns);
  }

  /**
   * raw_data as process_without_amendment_model reads it: a dict as it is,
   * a string through json.loads (parse) when that gives a dict, and {}
   * for None, for invalid JSON and for anything else.
   */
  function RawDict(raw: Value, parse: string -> Option<Value>): (r: seq<(string, Value)>)
    ensures raw.PyDict? ==> r == raw.entries
    ensures raw.PyNone? ==> r == []
    ensures raw.PyStr? && parse(raw.s).None? ==> r == []
  {
    match raw
    case PyDict(es) => es
    case PyStr(s) =>
      (match parse(s)
       case Some(PyDict(es)) => es
       case _ => [])
    case _ => []
  }

  /**
   * {a.get("amendment_id") for a in items if a.get("amendment_id")}: the
   * truthy ids in order, or the AttributeError of the first item that is
   * not a dict.
   */
  function TruthyIds(items: seq<Value>): (r: Result<seq<Value>, Error>)
    ensures r.Ok? ==> forall id :: id in r.value ==> Truthy(id)
  {
    if |items| == 0 then Ok([])
    else
      var before := TruthyIds(items[..|items| - 1]);
      var last := items[|items| - 1];
      if before.Err? then before
      else if !last.PyDict? then Err(AttributeError("'" + TypeName(last) + "' object has no attribute 'get'"))
      else
        var id := GetOr(last.entries, "amendment_id", PyNone);
        Ok(if Truthy(id) then before.value + [id] else before.value)
  }

  lemma {:induction false} TruthyIdsAppend(items: seq<Value>, amend: seq<(string, Value)>)
    requires TruthyIds(items).Ok? && Truthy(GetOr(amend, "amendment_id", PyNone))
    ensures TruthyIds(items + [PyDict(amend)]) == Ok(TruthyIds(items).value + [GetOr(amend, "amendment_id", PyNone)])
  {
    assert (items + [PyDict(amend)])[..|items|] == items;
  }

  /**
   * What iterating, then appending to, an "amendments" value that is not a
   * list raises. The id to add is truthy and nothing iterated is a dict, so
   * an append is always attempted.
   */
  function NonListError(v: Value): Error
  {
    match v
    case PyStr(s) =>
      if s == [] then AttributeError("'str' object has no attribute 'append'")
      else AttributeError("'str' object has no attribute 'get'")
    case PyDict(es) =>
      if es == [] then AttributeError("'dict' object has no attribute 'append'")
      else AttributeError("'str' object has no attribute 'get'")
    case PyBytes(bs) =>
      if bs == [] then AttributeError("'bytes' object has no attribute 'append'")
      else AttributeError("'int' object has no attribute 'get'")
    case PyOther(_) => OtherError("Exception", "object is not a list")
    case _ => TypeError("'" + TypeName(v) + "' object is not iterable")
  }

  /**
   * process_without_amendment_model: the new raw_api_response, or the error
   * it raises. A missing "amendments" becomes [amend]; a listed id leaves
   * the field as it was (nothing is written back); otherwise amend is
   * appended to the list.
   */
  function StoreWithoutModel(raw: Value, parse: string -> Option<Value>, amend: seq<(string, Value)>,
                             id: Value): (r: Result<Value, Error>)
    ensures r.Ok? && r.value != raw ==> r.value.PyDict?
  {
    var d := RawDict(raw, parse);
    match Get(d, "amendments")
    case None => Ok(PyDict(Set(d, "amendments", PyList([PyDict(amend)]))))
    case Some(PyList(xs)) =>
      (match TruthyIds(xs)
       case Err(e) => Err(e)
       case Ok(ids) =>
         if id in ids then Ok(raw) else Ok(PyDict(Set(d, "amendments", PyList(xs + [PyDict(amend)])))))
    case Some(v) => Err(NonListError(v))
  }

  /** The truthy ids a raw_api_response lists, when its amendments can be read. */
  function ListedIds(raw: Value, parse: string -> Option<Value>): Result<seq<Value>, Error>
  {
    match Get(RawDict(raw, parse), "amendments")
    case None => Ok([])
    case Some(PyList(xs)) => TruthyIds(xs)
    case Some(v) => Err(NonListError(v))
  }

  /** A dict whose amendments list gets one more amendment lists that amendment's id last. */
  lemma {:induction false} ListedAfterAppend(d: seq<(string, Value)>, xs: seq<Value>, amend: seq<(string, Value)>,
                          parse: string -> Option<Value>)
    requires TruthyIds(xs).Ok? && Truthy(GetOr(amend, "amendment_id", PyNone))
    ensures ListedIds(PyDict(Set(d, "amendments", PyList(xs + [PyDict(amend)]))), parse)
      == Ok(TruthyIds(xs).value + [GetOr(amend, "amendment_id", PyNone)])
  {
    GetSet(d, "amendments", PyList(xs + [PyDict(amend)]), "amendments");
    TruthyIdsAppend(xs, amend);
  }

  /** After a successful store the amendment's id is listed, after every id listed before. */
  lemma {:induction false} StoreListsId(raw: Value, parse: string -> Option<Value>, amend: seq<(string, Value)>)
    requires Truthy(GetOr(amend, "amendment_id", PyNone))
    requires StoreWithoutModel(raw, parse, amend, GetOr(amend, "amendment_id", PyNone)).Ok?
    ensures var after := StoreWithoutModel(raw, parse, amend, GetOr(amend, "amendment_id", PyNone)).value;
      ListedIds(after, parse).Ok? && GetOr(amend, "amendment_id", PyNone) in ListedIds(after, parse).value
      && ListedIds(raw, parse).Ok? && ListedIds(raw, parse).value <= ListedIds(after, parse).value
  {
    var id := GetOr(amend, "amendment_id", PyNone);
    var d := RawDict(raw, parse);
    match Get(d, "amendments")
    case None =>
      assert [PyDict(amend)] == [] + [PyDict(amend)];
      ListedAfterAppend(d, [], amend, parse);
    case Some(PyList(xs)) =>
      if id !in TruthyIds(xs).value {
        ListedAfterAppend(d, xs, amend, parse);
      }
  }

  /** Storing the same amendment again changes nothing. */
  lemma {:induction false} StoreIdempotent(raw: Value, parse: string -> Option<Value>, amend: seq<(string, Value)>)
    requires Truthy(GetOr(amend, "amendment_id", PyNone))
    requires StoreWithoutModel(raw, parse, amend, GetOr(amend, "amendment_id", PyNone)).Ok?
    ensures var id := GetOr(amend, "amendment_id", PyNone);
      var after := StoreWithoutModel(raw, parse, amend, id).value;
      StoreWithoutModel(after, parse, amend, id) == Ok(after)
  {
    var id := GetOr(amend, "amendment_id", PyNone);
    var after := StoreWithoutModel(raw, parse, amend, id).value;
    StoreListsId(raw, parse, amend);
    var d := RawDict(after, parse);
    assert ListedIds(after, parse).Ok?;
    match Get(d, "amendments")
    case None =>
      assert false;
    case Some(PyList(xs)) =>
      assert id in TruthyIds(xs).value;
    case Some(v) =>
      assert false;
  }

  /** The raw_api_response after the no-model processing of every amendment with a truthy id, or the first error. */
  function TrackWithoutModel(raw: Value, parse: string -> Option<Value>,
                             amendments: seq<seq<(string, Value)>>): Result<Value, Error>
  {
    if |amendments| == 0 then Ok(raw)
    else
      var before := TrackWithoutModel(raw, parse, amendments[..|amendments| - 1]);
      var last := amendments[|amendments| - 1];
      if before.Err? || !LegiscanDb.Tracked(last) then before
      else StoreWithoutModel(before.value, parse, last, GetOr(last, "amendment_id", PyNone))
  }

  /** Once a prefix fails, the whole run fails with the same error. */
  lemma {:induction false} TrackFailureSticks(raw: Value, parse: string -> Option<Value>,
                                              amendments: seq<seq<(string, Value)>>, k: nat)
    requires k <= |amendments| && TrackWithoutModel(raw, parse, amendments[..k]).Err?
    ensures TrackWithoutModel(raw, parse, amendments) == TrackWithoutModel(raw, parse, amendments[..k])
    decreases |amendments| - k
  {
    if k < |amendments| {
      assert amendments[..k + 1][..k] == amendments[..k];
      TrackFailureSticks(raw, parse, amendments, k + 1);
    } else {
      assert amendments[..k] == amendments;
    }
  }

  /** The prefix of handle_amendment_error's message for a failure outside the database. */
  const TrackingFailure := "Error tracking amendments: "

  /**
   * track_amendments: the number of amendments with a truthy id. With the
   * Amendment model each is upserted in the amendment table and the bill
   * row is not touched; without it each is stored in raw_api_response. A
   * failure is reported as a DataSyncError carrying the original message;
   * the count 0 the source writes after it is never returned.
   */
  method TrackAmendments(bill: LegiscanDb.Legislation, amendments: seq<seq<(string, Value)>>,
                         hasAmendmentModel: bool, parse: string -> Option<Value>) returns (r: Result<nat, Error>)
    modifies bill
    ensures hasAmendmentModel ==> (r == Ok(LegiscanDb.CountTracked(amendments))
      && bill.rawApiResponse == old(bill.rawApiResponse))
    ensures var t := TrackWithoutModel(old(bill.rawApiResponse), parse, amendments);
      !hasAmendmentModel ==> ((r.Ok? <==> t.Ok?)
      && (t.Ok? ==> r == Ok(LegiscanDb.CountTracked(amendments)) && bill.rawApiResponse == t.value)
      && (t.Err? ==> r == Err(DataSyncError(TrackingFailure + Message(t.error)))))
    ensures bill.id == old(bill.id)
  {
    var processed := 0;
    ghost var raw0 := bill.rawApiResponse;
    for i := 0 to |amendments|
      invariant processed == LegiscanDb.CountTracked(amendments[..i])
      invariant bill.id == old(bill.id)
      invariant hasAmendmentModel ==> bill.rawApiResponse == raw0
      invariant !hasAmendmentModel ==> TrackWithoutModel(raw0, parse, amendments[..i]) == Ok(bill.rawApiResponse)
    {
      assert amendments[..i + 1][..i] == amendments[..i];
      var amend := amendments[i];
      var amendmentId := GetOr(amend, "amendment_id", PyNone);
      if !Truthy(amendmentId) {
        continue;
      }
      if !hasAmendmentModel {
        var stored := StoreWithoutModel(bill.rawApiResponse, parse, amend, amendmentId);
        if stored.Err? {
          TrackFailureSticks(raw0, parse, amendments, i + 1);
          return Err(DataSyncError(TrackingFailure + Message(stored.error)));
        }
        bill.rawApiResponse := stored.value;
      }
      processed := processed + 1;
    }
    assert amendments[..|amendments|] == amendments;
    return Ok(processed);
  }
}
