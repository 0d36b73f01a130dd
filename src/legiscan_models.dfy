/**
 * The conversions between LegiScan API payloads and database attributes
 * (app/legiscan/models.py): status mapping, date parsing, decoding of the
 * base64 bill text, content sniffing and the Legislation attributes.
 */
module LegiscanModels {
  import opened Wrappers
  import opened Bytes
  import opened PyValue
  import opened Errors
  import Base64
  import Utf8
  import Text
  import Sanitize

  /** BillStatusEnum. */
  datatype BillStatus = New | Introduced | Updated | Passed | Defeated | Vetoed | Enacted | Pending

  /** The status named by a LegiScan status code written as a string; None for an unknown code. */
  function StatusOfCode(code: string): Option<BillStatus>
  {
    if code == "1" then Some(Introduced)
    else if code == "2" || code == "3" then Some(Updated)
    else if code == "4" then Some(Passed)
    else if code == "5" then Some(Vetoed)
    else if code == "6" then Some(Defeated)
    else if code == "7" then Some(Enacted)
    else None
  }

  /**
   * map_bill_status: a falsy value is a new bill; otherwise str(value) is
   * looked up among the codes 1..7 and anything else counts as updated.
   */
  function MapBillStatus(v: Value): (r: BillStatus)
    ensures !Truthy(v) ==> r == New
    ensures Truthy(v) ==> r == StatusOfCode(Str(v)).GetOr(Updated)
    ensures r != Pending
  {
    if !Truthy(v) then New else StatusOfCode(Str(v)).GetOr(Updated)
  }

  /** The status of the code written as the int i, the way LegiScan sends it. */
  function StatusOfInt(i: int): BillStatus
  {
    if i == 0 then New
    else if i == 1 then Introduced
    else if i == 2 || i == 3 then Updated
    else if i == 4 then Passed
    else if i == 5 then Vetoed
    else if i == 6 then Defeated
    else if i == 7 then Enacted
    else Updated
  }

  /** A code of the table, read as an integer, is one digit from 1 to 7. */
  lemma {:induction false} CodeValue(s: string, i: int)
    requires Text.ParseInt(s) == Some(i)
    ensures StatusOfCode(s).Some? ==> 1 <= i <= 7 && s == [Text.DigitChar(i)]
  {
    if StatusOfCode(s).Some? {
      assert |s| == 1 && '1' <= s[0] <= '7';
      assert s[..0] == [];
      assert Text.DigitsValue(s) == s[0] as int - '0' as int;
    }
  }

  /** An int status maps through its decimal text exactly as the numeric table says. */
  lemma {:induction false} MapIntStatus(i: int)
    ensures MapBillStatus(PyInt(i)) == StatusOfInt(i)
  {
    var s := Text.IntToString(i);
    Text.IntToStringRoundTrip(i);
    CodeValue(s, i);
    if 1 <= i <= 7 {
      assert s == [Text.DigitChar(i)];
    }
  }

  /** A calendar date as datetime.strptime(s, "%Y-%m-%d") yields it. */
  datatype Date = Date(year: int, month: int, day: int)

  /**
   * parse_date: the default for an empty string or one strptime refuses.
   * strptime itself (and its leniency about digit counts) is the oracle.
   */
  function ParseDate(s: string, strptime: string -> Option<Date>, default: Option<Date>): (r: Option<Date>)
    ensures s == "" ==> r == default
    ensures s != "" && strptime(s).None? ==> r == default
    ensures s != "" && strptime(s).Some? ==> r == strptime(s)
  {
    if s == "" then default
    else
      match strptime(s)
      case None => default
      case Some(d) => Some(d)
  }

  /** What decode_bill_text hands back: nothing, raw bytes or text. */
  datatype Decoded = NoContent | Binary(bytes: seq<Byte>) | Plain(text: string)

  /**
   * decode_bill_text: nothing for an empty or undecodable payload; the
   * decoded bytes, flagged binary, when they start with a PDF, MS Office or
   * ZIP signature; otherwise the bytes read as UTF-8 with undecodable
   * sequences dropped.
   */
  function DecodeBillText(encoded: Option<string>): (r: (Decoded, bool))
    ensures r.1 <==> r.0.Binary?
    ensures encoded.None? || encoded.value == "" ==> r == (NoContent, false)
    ensures r.0.Binary? ==> HasSignature(r.0.bytes)
    ensures r.0.NoContent? <==> encoded.None? || encoded.value == "" || Base64.Decode(encoded.value).None?
  {
    if encoded.None? || encoded.value == "" then (NoContent, false)
    else
      match Base64.Decode(encoded.value)
      case None => (NoContent, false)
      case Some(b) =>
        if HasSignature(b) then (Binary(b), true)
        else (Plain(Utf8.DecodeIgnore(b)), false)
  }

  /** A document with a binary signature, sent as base64, comes back as the same bytes, flagged binary. */
  lemma {:induction false} DecodeBinaryRoundTrip(b: seq<Byte>)
    requires HasSignature(b)
    ensures DecodeBillText(Some(Base64.Encode(b))) == (Binary(b), true)
  {
    Base64.DecodeEncode(b);
  }

  /** A text whose UTF-8 form has no binary signature, sent as base64, comes back as the same text. */
  lemma {:induction false} DecodeTextRoundTrip(s: string)
    requires s != [] && !HasSignature(Utf8.Encode(s))
    ensures DecodeBillText(Some(Base64.Encode(Utf8.Encode(s)))) == (Plain(s), false)
  {
    var b := Utf8.Encode(s);
    Base64.DecodeEncode(b);
    Utf8.DecodeIgnoreEncode(s);
  }

  /** Decoded binary content always sniffs to a specific media type, never the octet-stream default. */
  lemma {:induction false} DecodedBinaryHasType(encoded: Option<string>)
    requires DecodeBillText(encoded).0.Binary?
    ensures DetectContentType(DecodeBillText(encoded).0.bytes) != "application/octet-stream"
  {
  }

  /** The keys validate_bill_data demands. */
  const RequiredFields: seq<string> := ["bill_id", "state", "bill_number", "title"]

  /** validate_bill_data: every required key is present (its value is not looked at). */
  function ValidateBillData(bill: seq<(string, Value)>): (r: bool)
    ensures r <==> forall f :: f in RequiredFields ==> HasKey(bill, f)
  {
    HasKey(bill, "bill_id") && HasKey(bill, "state") && HasKey(bill, "bill_number") && HasKey(bill, "title")
  }

  datatype GovtType = Federal | State | County | City

  /** The attributes prepare_legislation_attributes builds for a Legislation row. */
  datatype Attributes = Attributes(
    externalId: string,
    govtType: GovtType,
    govtSource: string,
    billNumber: string,
    billType: Value,
    title: string,
    description: string,
    billStatus: BillStatus,
    url: Value,
    stateLink: Value,
    changeHash: Value,
    rawApiResponse: Value,
    lastApiCheck: int,
    introducedDate: Option<Option<Date>>,
    statusDate: Option<Option<Date>>,
    lastActionDate: Option<Option<Date>>)

  /**
   * One optional date key: absent (None) when the source value is falsy,
   * otherwise the parse of that string with default None. A truthy value
   * that is not a string makes strptime raise TypeError, which nothing catches.
   */
  function DateAttribute(bill: seq<(string, Value)>, key: string, strptime: string -> Option<Date>)
    : (r: Result<Option<Option<Date>>, Error>)
    ensures r.Ok? && r.value.Some? <==> Truthy(GetOr(bill, key, PyStr(""))) && GetOr(bill, key, PyStr("")).PyStr?
    ensures r.Ok? && r.value.None? <==> !Truthy(GetOr(bill, key, PyStr("")))
    ensures r.Ok? && r.value.Some? ==> r.value.value == ParseDate(GetOr(bill, key, PyStr("")).s, strptime, None)
  {
    var v := GetOr(bill, key, PyStr(""));
    if !Truthy(v) then Ok(None)
    else if v.PyStr? then Ok(Some(ParseDate(v.s, strptime, None)))
    else Err(TypeError("strptime() argument 1 must be str"))
  }

  /**
   * bill_data.get("session", {}).get("session_name", "Unknown Session"):
   * a session that is present but not a dict has no .get.
   */
  function SessionName(bill: seq<(string, Value)>): (r: Result<Value, Error>)
    ensures !HasKey(bill, "session") ==> r == Ok(PyStr("Unknown Session"))
    ensures r.Err? <==> HasKey(bill, "session") && !GetOr(bill, "session", PyNone).PyDict?
  {
    GetFindsKey(bill, "session");
    match Get(bill, "session")
    case None => Ok(PyStr("Unknown Session"))
    case Some(PyDict(es)) => Ok(GetOr(es, "session_name", PyStr("Unknown Session")))
    case Some(_) => Err(AttributeError("object has no attribute 'get'"))
  }

  /**
   * prepare_legislation_attributes with the clock reading now. A missing
   * "state" or "bill_id" raises KeyError.
   */
  function PrepareLegislationAttributes(bill: seq<(string, Value)>, now: int, strptime: string -> Option<Date>)
    : (r: Result<Attributes, Error>)
    ensures !HasKey(bill, "state") || !HasKey(bill, "bill_id") ==> r.Err? && r.error.KeyError?
    ensures r.Ok? ==> (r.value.govtType == Federal <==> Get(bill, "state") == Some(PyStr("US")))
    ensures r.Ok? ==> r.value.govtType in {Federal, State}
    ensures r.Ok? ==> Some(PyStr(r.value.externalId)) == (match Get(bill, "bill_id")
      case Some(v) => Some(PyStr(Str(v)))
      case None => None)
    ensures r.Ok? ==> r.value.rawApiResponse == PyNone && r.value.lastApiCheck == now
    ensures r.Ok? ==> r.value.billStatus == MapBillStatus(GetOr(bill, "status", PyNone))
    ensures r.Ok? ==> r.value.introducedDate.Some? == Truthy(GetOr(bill, "introduced_date", PyStr("")))
    ensures r.Ok? ==> r.value.statusDate.Some? == Truthy(GetOr(bill, "status_date", PyStr("")))
    ensures r.Ok? ==> r.value.lastActionDate.Some? == Truthy(GetOr(bill, "last_action_date", PyStr("")))
  {
    GetFindsKey(bill, "state");
    GetFindsKey(bill, "bill_id");
    if Get(bill, "state").None? then Err(KeyError("state"))
    else if Get(bill, "bill_id").None? then Err(KeyError("bill_id"))
    else
      var session := SessionName(bill);
      var introduced := DateAttribute(bill, "introduced_date", strptime);
      var status := DateAttribute(bill, "status_date", strptime);
      var lastAction := DateAttribute(bill, "last_action_date", strptime);
      if session.Err? then Err(session.error)
      else if introduced.Err? then Err(introduced.error)
      else if status.Err? then Err(status.error)
      else if lastAction.Err? then Err(lastAction.error)
      else
        Ok(Attributes(
          Str(Get(bill, "bill_id").value),
          if Get(bill, "state") == Some(PyStr("US")) then Federal else State,
          Sanitize.SanitizeText(session.value),
          Sanitize.SanitizeText(GetOr(bill, "bill_number", PyStr(""))),
          GetOr(bill, "bill_type", PyNone),
          Sanitize.SanitizeText(GetOr(bill, "title", PyStr(""))),
          Sanitize.SanitizeText(GetOr(bill, "description", PyStr(""))),
          MapBillStatus(GetOr(bill, "status", PyNone)),
          GetOr(bill, "url", PyNone),
          GetOr(bill, "state_link", PyNone),
          GetOr(bill, "change_hash", PyNone),
          PyNone,
          now,
          introduced.value,
          status.value,
          lastAction.value))
  }

  /** Every text attribute that goes through sanitize_text is free of control characters. */
  lemma {:induction false} AttributesSanitized(bill: seq<(string, Value)>, now: int, strptime: string -> Option<Date>)
    requires PrepareLegislationAttributes(bill, now, strptime).Ok?
    ensures var a := PrepareLegislationAttributes(bill, now, strptime).value;
      Sanitize.NoControl(a.govtSource) && Sanitize.NoControl(a.billNumber)
      && Sanitize.NoControl(a.title) && Sanitize.NoControl(a.description)
  {
  }

  /** The value under key is falsy or a string, so the date step cannot raise. */
  predicate DateUsable(bill: seq<(string, Value)>, key: string)
  {
    !Truthy(GetOr(bill, key, PyStr(""))) || GetOr(bill, key, PyStr("")).PyStr?
  }

  /**
   * A bill that passes validate_bill_data, whose session (if any) is a dict
   * and whose date fields are strings or falsy, always yields attributes.
   */
  lemma {:induction false} ValidBillPrepares(bill: seq<(string, Value)>, now: int, strptime: string -> Option<Date>)
    requires ValidateBillData(bill)
    requires !HasKey(bill, "session") || GetOr(bill, "session", PyNone).PyDict?
    requires DateUsable(bill, "introduced_date") && DateUsable(bill, "status_date")
      && DateUsable(bill, "last_action_date")
    ensures PrepareLegislationAttributes(bill, now, strptime).Ok?
  {
    GetFindsKey(bill, "state");
    GetFindsKey(bill, "bill_id");
    GetFindsKey(bill, "session");
  }
}
