/**
 * The LegiScan persistence rules of app/legiscan/db.py that do not depend
 * on the database: which bills are saved, how bill text content is fetched,
 * coerced and described, and how amendments are counted and kept in
 * raw_api_response when the Amendment model is unavailable.
 */
module LegiscanDb {
  import opened Wrappers
  import opened Bytes
  import opened PyValue
  import Utf8
  import Sanitize
  import LegiscanModels

  // ----- save_bill_to_db guards -----

  /**
   * Whether save_bill_to_db gets past its guards: a non-empty payload with
   * every required key, from the US or Texas. Anything else yields None.
   */
  function ProceedsToSave(bill: seq<(string, Value)>): (r: bool)
    ensures r <==> (bill != [] && LegiscanModels.ValidateBillData(bill)
      && (Get(bill, "state") == Some(PyStr("US")) || Get(bill, "state") == Some(PyStr("TX"))))
  {
    bill != [] && LegiscanModels.ValidateBillData(bill)
    && GetOr(bill, "state", PyNone) in [PyStr("US"), PyStr("TX")]
  }

  // ----- get_text_content -----

  /** What the state_link request gave: the body as bytes and as text. */
  datatype Fetched = Fetched(content: seq<Byte>, text: string)

  /**
   * get_text_content. The state link is tried first: when it is set and the
   * request succeeds, the body is the content, as bytes for mime_id 2 (PDF)
   * and as text otherwise. Failing that, the base64 "doc" is decoded for
   * the first version or an enrolled or chaptered one, when a doc_id is set.
   * A "doc" that is not a string makes b64decode raise inside
   * decode_bill_text, which reports nothing.
   */
  function GetTextContent(info: seq<(string, Value)>, versionNum: int, fetch: Option<Fetched>)
    : (r: (LegiscanModels.Decoded, bool))
    ensures r.1 <==> r.0.Binary?
    ensures Truthy(GetOr(info, "state_link", PyNone)) && fetch.Some? ==>
      r == if GetOr(info, "mime_id", PyNone) == PyInt(2) then (LegiscanModels.Binary(fetch.value.content), true)
        else (LegiscanModels.Plain(fetch.value.text), false)
  {
    if Truthy(GetOr(info, "state_link", PyNone)) && fetch.Some? then
      if GetOr(info, "mime_id", PyNone) == PyInt(2) then (LegiscanModels.Binary(fetch.value.content), true)
      else (LegiscanModels.Plain(fetch.value.text), false)
    else
      var kind := GetOr(info, "type", PyNone);
      var doc := GetOr(info, "doc", PyNone);
      if Truthy(GetOr(info, "doc_id", PyNone))
        && (versionNum == 1 || kind == PyStr("Enrolled") || kind == PyStr("Chaptered"))
        && Truthy(doc)
      then
        if doc.PyStr? then LegiscanModels.DecodeBillText(Some(doc.s)) else (LegiscanModels.NoContent, false)
      else (LegiscanModels.NoContent, false)
  }

  // ----- prepare_text_attributes -----

  /** The stored text_content: bytes for a binary record, a string otherwise. */
  datatype Stored = StoredBytes(bytes: seq<Byte>) | StoredText(text: string)

  /** The content columns and text_metadata of a text record. */
  datatype ContentAttrs = ContentAttrs(
    contentType: string,
    fileSize: int,
    textContent: Stored,
    metadataIsBinary: bool,
    metadataContentType: Option<string>,
    metadataEncoding: Option<string>,
    metadataSize: int)

  datatype TextAttrs = TextAttrs(
    legislationId: int,
    versionNum: int,
    textType: Value,
    textHash: Value,
    isBinary: bool,
    content: Option<ContentAttrs>)

  /** The bytes a binary record stores for any content: a string or other value goes through str().encode(). */
  function AsBytes(content: Value): seq<Byte>
  {
    if content.PyBytes? then content.bytes else Utf8.Encode(Str(content))
  }

  /**
   * prepare_text_attributes. Without content no content column is set.
   * Binary content is stored as bytes with the sniffed type and its length;
   * anything else is turned into text, sanitised, and described by its UTF-8
   * length. (The fallback branch for an exception is not reachable here:
   * encoding a string to UTF-8 and sanitising cannot fail.)
   */
  function PrepareTextAttributes(legislationId: int, versionNum: int, info: seq<(string, Value)>,
                                 content: Option<Value>, isBinary: bool): (r: TextAttrs)
    ensures r.legislationId == legislationId && r.versionNum == versionNum && r.isBinary == isBinary
    ensures r.textType == GetOr(info, "type", PyStr("")) && r.textHash == GetOr(info, "text_hash", PyNone)
    ensures r.content.None? <==> content.None?
    ensures r.content.Some? && isBinary ==> (r.content.value.textContent.StoredBytes?
      && r.content.value.contentType == DetectContentType(r.content.value.textContent.bytes)
      && r.content.value.fileSize == |r.content.value.textContent.bytes|
      && r.content.value.metadataIsBinary
      && r.content.value.metadataContentType == Some(r.content.value.contentType)
      && r.content.value.metadataSize == r.content.value.fileSize)
    ensures r.content.Some? && !isBinary ==> (r.content.value.textContent.StoredText?
      && Sanitize.NoControl(r.content.value.textContent.text)
      && r.content.value.contentType == "text/plain"
      && r.content.value.fileSize == |Utf8.Encode(r.content.value.textContent.text)|
      && !r.content.value.metadataIsBinary
      && r.content.value.metadataEncoding == Some("utf-8")
      && r.content.value.metadataSize == r.content.value.fileSize)
  {
    var base := TextAttrs(legislationId, versionNum, GetOr(info, "type", PyStr("")),
      GetOr(info, "text_hash", PyNone), isBinary, None);
    match content
    case None => base
    case Some(c) =>
      if isBinary then
        var b := AsBytes(c);
        var t := DetectContentType(b);
        base.(content := Some(ContentAttrs(t, |b|, StoredBytes(b), true, Some(t), None, |b|)))
      else
        var text := Sanitize.SanitizeText(c);
        var n := |Utf8.Encode(text)|;
        base.(content := Some(ContentAttrs("text/plain", n, StoredText(text), false, None, Some("utf-8"), n)))
  }

  /** The Python value get_text_content hands to prepare_text_attributes. */
  function ContentValue(d: LegiscanModels.Decoded): Option<Value>
  {
    match d
    case NoContent => None
    case Binary(b) => Some(PyBytes(b))
    case Plain(s) => Some(PyStr(s))
  }

  /**
   * Fetched binary content is stored byte for byte, with the sniffed type and
   * its length; fetched text is stored as its sanitised form.
   */
  lemma {:induction false} TextRecordKeepsContent(legislationId: int, versionNum: int, info: seq<(string, Value)>, fetch: Option<Fetched>)
    ensures var (d, binary) := GetTextContent(info, versionNum, fetch);
      var r := PrepareTextAttributes(legislationId, versionNum, info, ContentValue(d), binary);
      (d.Binary? ==> (r.content.Some? && r.content.value.textContent == StoredBytes(d.bytes)
        && r.content.value.fileSize == |d.bytes|))
      && (d.Plain? ==> r.content.Some? && r.content.value.textContent == StoredText(Sanitize.SanitizeText(PyStr(d.text))))
      && (d.NoContent? ==> r.content.None? && !r.isBinary)
  {
  }

  // ----- amendments kept in raw_api_response -----

  /**
   * convert_raw_api_response_to_dict for the values a JSON column holds: a
   * non-empty dict as it is, a string through json.loads (parse) when it
   * gives a non-empty dict, and {} for everything else (an empty dict is
   * falsy, so every strategy passes it over and the result is {} again).
   */
  function RawAsDict(raw: Value, parse: string -> Option<Value>): (r: seq<(string, Value)>)
    ensures raw.PyDict? ==> r == raw.entries
  {
    match raw
    case PyDict(es) => es
    case PyStr(s) =>
      (match parse(s)
       case Some(PyDict(es)) => es
       case _ => [])
    case _ => []
  }

  /** The amendments list of the raw dict, or [] when the key is absent or not a list. */
  function AmendmentList(d: seq<(string, Value)>): seq<Value>
  {
    match Get(d, "amendments")
    case Some(PyList(xs)) => xs
    case _ => []
  }

  /** [a.get("amendment_id") for a in amendments if isinstance(a, dict) and "amendment_id" in a]. */
  function ExistingIds(xs: seq<Value>): (ids: seq<Value>)
    ensures |ids| <= |xs|
  {
    if |xs| == 0 then []
    else
      var rest := ExistingIds(xs[..|xs| - 1]);
      var last := xs[|xs| - 1];
      if last.PyDict? && HasKey(last.entries, "amendment_id")
      then rest + [GetOr(last.entries, "amendment_id", PyNone)]
      else rest
  }

  lemma {:induction false} ExistingIdsAppend(xs: seq<Value>, a: seq<(string, Value)>)
    requires HasKey(a, "amendment_id")
    ensures ExistingIds(xs + [PyDict(a)]) == ExistingIds(xs) + [GetOr(a, "amendment_id", PyNone)]
  {
    assert (xs + [PyDict(a)])[..|xs|] == xs;
  }

  /** The ids stored in a raw_api_response. */
  function StoredIds(raw: Value, parse: string -> Option<Value>): seq<Value>
  {
    ExistingIds(AmendmentList(RawAsDict(raw, parse)))
  }

  /**
   * store_amendment_in_raw_response: the new raw_api_response. An amendment
   * whose id is not yet listed is appended (after resetting a missing or
   * non-list "amendments" to []); otherwise the field is left as it was.
   */
  function StoreAmendment(raw: Value, parse: string -> Option<Value>, amend: seq<(string, Value)>): (r: Value)
    ensures GetOr(amend, "amendment_id", PyNone) in StoredIds(raw, parse) ==> r == raw
  {
    var d := RawAsDict(raw, parse);
    var xs := AmendmentList(d);
    if GetOr(amend, "amendment_id", PyNone) in ExistingIds(xs) then raw
    else PyDict(Set(d, "amendments", PyList(xs + [PyDict(amend)])))
  }

  /** After storing an amendment that has an id, that id is listed, after every id listed before. */
  lemma {:induction false} StoreListsId(raw: Value, parse: string -> Option<Value>, amend: seq<(string, Value)>)
    requires HasKey(amend, "amendment_id")
    ensures GetOr(amend, "amendment_id", PyNone) in StoredIds(StoreAmendment(raw, parse, amend), parse)
    ensures StoredIds(raw, parse) <= StoredIds(StoreAmendment(raw, parse, amend), parse)
  {
    var d := RawAsDict(raw, parse);
    var xs := AmendmentList(d);
    var id := GetOr(amend, "amendment_id", PyNone);
    if id !in ExistingIds(xs) {
      var d2 := Set(d, "amendments", PyList(xs + [PyDict(amend)]));
      GetSet(d, "amendments", PyList(xs + [PyDict(amend)]), "amendments");
      assert AmendmentList(d2) == xs + [PyDict(amend)];
      ExistingIdsAppend(xs, amend);
    }
  }

  /** Storing the same amendment twice is the same as storing it once. */
  lemma {:induction false} StoreIdempotent(raw: Value, parse: string -> Option<Value>, amend: seq<(string, Value)>)
    requires HasKey(amend, "amendment_id")
    ensures StoreAmendment(StoreAmendment(raw, parse, amend), parse, amend) == StoreAmendment(raw, parse, amend)
  {
    StoreListsId(raw, parse, amend);
  }

  /** Whether an amendment is processed: its amendment_id is truthy. */
  predicate Tracked(amend: seq<(string, Value)>)
  {
    Truthy(GetOr(amend, "amendment_id", PyNone))
  }

  /** How many amendments have a truthy id. */
  function CountTracked(amendments: seq<seq<(string, Value)>>): (n: nat)
    ensures n <= |amendments|
  {
    if |amendments| == 0 then 0
    else CountTracked(amendments[..|amendments| - 1]) + (if Tracked(amendments[|amendments| - 1]) then 1 else 0)
  }

  /** raw_api_response after storing, in order, every amendment with a truthy id. */
  function StoreAll(raw: Value, parse: string -> Option<Value>, amendments: seq<seq<(string, Value)>>): Value
  {
    if |amendments| == 0 then raw
    else
      var before := StoreAll(raw, parse, amendments[..|amendments| - 1]);
      var last := amendments[|amendments| - 1];
      if Tracked(last) then StoreAmendment(before, parse, last) else before
  }

  /** The Legislation row whose raw_api_response the fallback writes. */
  class Legislation {
    var id: Value
    var rawApiResponse: Value
  }

  /**
   * track_amendments: counts the amendments with a truthy id. Without the
   * Amendment model each of them is stored in raw_api_response; with it
   * the upsert into the amendment table is the database's business and the
   * row itself is not touched.
   */
  method TrackAmendments(bill: Legislation, amendments: seq<seq<(string, Value)>>, hasAmendmentModel: bool,
                         parse: string -> Option<Value>) returns (processed: nat)
    modifies bill
    ensures processed == CountTracked(amendments)
    ensures hasAmendmentModel ==> bill.rawApiResponse == old(bill.rawApiResponse)
    ensures !hasAmendmentModel ==> bill.rawApiResponse == StoreAll(old(bill.rawApiResponse), parse, amendments)
  {
    processed := 0;
    ghost var raw0 := bill.rawApiResponse;
    for i := 0 to |amendments|
      invariant processed == CountTracked(amendments[..i])
      invariant hasAmendmentModel ==> bill.rawApiResponse == raw0
      invariant !hasAmendmentModel ==> bill.rawApiResponse == StoreAll(raw0, parse, amendments[..i])
    {
      assert amendments[..i + 1][..i] == amendments[..i];
      var amend := amendments[i];
      if !Truthy(GetOr(amend, "amendment_id", PyNone)) {
        continue;
      }
      if !hasAmendmentModel {
        bill.rawApiResponse := StoreAmendment(bill.rawApiResponse, parse, amend);
      }
      processed := processed + 1;
    }
    assert amendments[..|amendments|] == amendments;
  }

  /** Every amendment with a truthy id is listed in raw_api_response once all are stored. */
  lemma {:induction false} StoreAllListsEvery(raw: Value, parse: string -> Option<Value>,
                                              amendments: seq<seq<(string, Value)>>, k: nat)
    requires k < |amendments| && Tracked(amendments[k])
    ensures GetOr(amendments[k], "amendment_id", PyNone) in StoredIds(StoreAll(raw, parse, amendments), parse)
    decreases |amendments|
  {
    var n := |amendments|;
    var init := amendments[..n - 1];
    var before := StoreAll(raw, parse, init);
    var last := amendments[n - 1];
    var after := StoreAll(raw, parse, amendments);
    var id := GetOr(amendments[k], "amendment_id", PyNone);
    if k == n - 1 {
      GetFindsKey(last, "amendment_id");
      assert after == StoreAmendment(before, parse, last);
      StoreListsId(before, parse, last);
    } else {
      assert init[k] == amendments[k];
      StoreAllListsEvery(raw, parse, init, k);
      if Tracked(last) {
        GetFindsKey(last, "amendment_id");
        assert after == StoreAmendment(before, parse, last);
        StoreListsId(before, parse, last);
        var a := StoredIds(before, parse);
        var j :| 0 <= j < |a| && a[j] == id;
        assert StoredIds(after, parse)[j] == id;
      } else {
        assert after == before;
      }
    }
  }
}
