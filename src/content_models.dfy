/**
 * The content handling and validation rules of the ORM models in
 * app/models/base.py and app/models/legislation_models.py: how text or
 * binary bill content is stored on a row and read back, how the
 * FlexibleContentType column converts it for the database, which row is
 * the latest analysis or text, and what the @validates hooks accept.
 */
module ContentModels {
  import opened Wrappers
  import opened Bytes
  import opened PyValue
  import opened Errors
  import Utf8
  import Text

  // ---------------------------------------------------------------------
  // BaseModel.set_content_field

  /** The three attributes set_content_field writes: content, binary flag, metadata. */
  datatype StoredContent = StoredContent(content: Value, isBinary: bool, metadata: Value)

  /** The metadata dict recorded for a str. */
  function TextMetadata(s: string): Value
  {
    PyDict([("is_binary", PyBool(false)), ("encoding", PyStr("utf-8")), ("size_bytes", PyInt(|Utf8.Encode(s)|))])
  }

  /** The metadata dict recorded for bytes, with the sniffed media type. */
  function BinaryMetadata(b: seq<Byte>): Value
  {
    PyDict([("is_binary", PyBool(true)), ("content_type", PyStr(DetectContentType(b))), ("size_bytes", PyInt(|b|))])
  }

  /**
   * set_content_field with a metadata field: None clears all three, a str
   * is stored as text, bytes as binary; any other type is a TypeError and
   * nothing is written.
   */
  function StoreContent(content: Value): (r: Result<StoredContent, Error>)
    ensures r.Ok? <==> content.PyNone? || content.PyStr? || content.PyBytes?
    ensures r.Ok? ==> r.value.content == content && (r.value.isBinary <==> content.PyBytes?)
    ensures r.Err? ==> r.error == TypeError("Content must be either string or bytes, not " + TypeName(content))
  {
    match content
    case PyNone => Ok(StoredContent(PyNone, false, PyNone))
    case PyStr(s) => Ok(StoredContent(content, false, TextMetadata(s)))
    case PyBytes(b) => Ok(StoredContent(content, true, BinaryMetadata(b)))
    case _ => Err(TypeError("Content must be either string or bytes, not " + TypeName(content)))
  }

  /** The metadata's size is the UTF-8 length of a text and the length of bytes. */
  lemma {:induction false} MetadataSize(content: Value)
    requires content.PyStr? || content.PyBytes?
    ensures var m := StoreContent(content).value.metadata;
            m.PyDict? && Get(m.entries, "size_bytes")
                       == Some(PyInt(if content.PyStr? then |Utf8.Encode(content.s)| else |content.bytes|))
  {
    var m := StoreContent(content).value.metadata;
    assert m.entries[2..] == [m.entries[2]];
    assert Get(m.entries[2..], "size_bytes") == Some(m.entries[2].1);
    assert Get(m.entries[1..], "size_bytes") == Some(m.entries[2].1);
  }

  // ---------------------------------------------------------------------
  // LegislationText.get_content

  /**
   * get_content: the stored value read back as the flag says: missing
   * content is empty, binary text is latin-1 encoded (b"" when it cannot
   * be), text bytes are UTF-8 decoded with replacement.
   */
  function ContentOf(textContent: Value, isBinary: bool): (r: Value)
    ensures isBinary ==> r.PyBytes?
    ensures !isBinary ==> r.PyStr?
  {
    if textContent.PyNone? then (if isBinary then PyBytes([]) else PyStr(""))
    else if isBinary then
      match textContent
      case PyBytes(_) => textContent
      case PyStr(s) => (match Latin1Encode(s) case Some(b) => PyBytes(b) case None => PyBytes([]))
      case _ => PyBytes([])
    else
      match textContent
      case PyStr(_) => textContent
      case PyBytes(b) => PyStr(Utf8.DecodeReplace(b))
      case _ => PyStr(Str(textContent))
  }

  /** Read back from the row, stored text or bytes come out as they went in, and None as an empty text. */
  lemma {:induction false} StoreThenRead(content: Value)
    requires StoreContent(content).Ok?
    ensures var st := StoreContent(content).value;
            ContentOf(st.content, st.isBinary) == if content.PyNone? then PyStr("") else content
  {
  }

  // ---------------------------------------------------------------------
  // FlexibleContentType

  /**
   * process_bind_param: PostgreSQL gets bytes (text UTF-8 encoded, other
   * values through str first); other dialects get text (bytes decoded
   * with replacement, other values through str).
   */
  function BindParam(value: Value, dialect: string): (r: Value)
    ensures value.PyNone? ==> r.PyNone?
    ensures !value.PyNone? && dialect == "postgresql" ==> r.PyBytes?
    ensures !value.PyNone? && dialect != "postgresql" ==> r.PyStr?
  {
    if value.PyNone? then PyNone
    else if dialect == "postgresql" then
      match value
      case PyStr(s) => PyBytes(Utf8.Encode(s))
      case PyBytes(_) => value
      case _ => PyBytes(Utf8.Encode(Str(value)))
    else
      match value
      case PyStr(_) => value
      case PyBytes(b) => PyStr(Utf8.DecodeReplace(b))
      case _ => PyStr(Str(value))
  }

  /** process_result_value: the stored value as it is. */
  function ResultValue(value: Value): (r: Value)
    ensures r == value
  {
    value
  }

  /** process_literal_param: the same conversion as a bind parameter. */
  function LiteralParam(value: Value, dialect: string): (r: Value)
    ensures r == BindParam(value, dialect)
  {
    BindParam(value, dialect)
  }

  /**
   * Through PostgreSQL, text and bytes stored with set_content come back
   * unchanged from get_content: text becomes UTF-8 bytes in the column,
   * and get_content decodes them again.
   */
  lemma {:induction false} PostgresRoundTrip(content: Value)
    requires content.PyStr? || content.PyBytes?
    ensures var st := StoreContent(content).value;
            ContentOf(ResultValue(BindParam(st.content, "postgresql")), st.isBinary) == content
  {
    if content.PyStr? {
      Utf8.DecodeEncode(content.s);
    }
  }

  /** Bytes that are not UTF-8 do not survive another dialect: 0xFF comes back as b"". */
  lemma {:induction false} OtherDialectLosesBytes()
    ensures ContentOf(ResultValue(BindParam(PyBytes([0xFF]), "sqlite")), true) == PyBytes([])
  {
    var b: seq<Byte> := [0xFF];
    assert Utf8.Step(b) == (Utf8.Replacement, 1);
    assert b[1..] == [];
    assert Utf8.DecodeReplace(b) == [Utf8.Replacement];
    assert Latin1Encode([Utf8.Replacement]).None?;
  }

  // ---------------------------------------------------------------------
  // The two models that store content

  /** The content columns of LegislationText. */
  class LegislationText {
    var textContent: Value
    var isBinary: bool
    var textMetadata: Value
    var contentType: Option<string>
    var fileSize: Option<int>

    constructor ()
      ensures textContent == PyNone && !isBinary && textMetadata == PyNone
      ensures contentType == None && fileSize == None
    {
      textContent := PyNone;
      isBinary := false;
      textMetadata := PyNone;
      contentType := None;
      fileSize := None;
    }

    /**
     * set_content: set_content_field, then the media type and size
     * ("text/plain" and the UTF-8 length for a str, the sniffed type and
     * the length for bytes).  None clears the media type but leaves the
     * size as it was.
     */
    method SetContent(content: Value) returns (err: Option<Error>)
      modifies this
      ensures var r := StoreContent(content);
              if r.Err? then err == Some(r.error) && unchanged(this)
              else
                err == None && textContent == r.value.content && isBinary == r.value.isBinary
                && textMetadata == r.value.metadata
                && contentType == (match content
                                   case PyStr(_) => Some("text/plain")
                                   case PyBytes(b) => Some(DetectContentType(b))
                                   case _ => None)
                && fileSize == (match content
                                case PyStr(s) => Some(|Utf8.Encode(s)|)
                                case PyBytes(b) => Some(|b|)
                                case _ => old(fileSize))
    {
      var r := StoreContent(content);
      if r.Err? {
        return Some(r.error);
      }
      textContent, isBinary, textMetadata := r.value.content, r.value.isBinary, r.value.metadata;
      match content {
        case PyNone =>
          contentType := None;
        case PyStr(s) =>
          contentType := Some("text/plain");
          fileSize := Some(|Utf8.Encode(s)|);
        case PyBytes(b) =>
          contentType := Some(DetectContentType(b));
          fileSize := Some(|b|);
      }
      return None;
    }

    method GetContent() returns (v: Value)
      ensures v == ContentOf(textContent, isBinary)
    {
      if textContent.PyNone? {
        return if isBinary then PyBytes([]) else PyStr("");
      }
      if isBinary {
        match textContent {
          case PyBytes(_) =>
            v := textContent;
          case PyStr(s) =>
            var enc := Latin1Encode(s);
            v := if enc.Some? then PyBytes(enc.value) else PyBytes([]);
          case _ =>
            v := PyBytes([]);
        }
      } else {
        match textContent {
          case PyStr(_) =>
            v := textContent;
          case PyBytes(b) =>
            v := PyStr(Utf8.DecodeReplace(b));
          case _ =>
            v := PyStr(Str(textContent));
        }
      }
    }
  }

  /** The content columns of Amendment. */
  class Amendment {
    var amendmentText: Value
    var isBinaryText: bool
    var textMetadata: Value

    constructor ()
      ensures amendmentText == PyNone && !isBinaryText && textMetadata == PyNone
    {
      amendmentText := PyNone;
      isBinaryText := false;
      textMetadata := PyNone;
    }

    /** set_amendment_text: set_content_field on the amendment's columns. */
    method SetAmendmentText(content: Value) returns (err: Option<Error>)
      modifies this
      ensures var r := StoreContent(content);
              if r.Err? then err == Some(r.error) && unchanged(this)
              else err == None && StoredContent(amendmentText, isBinaryText, textMetadata) == r.value
    {
      var r := StoreContent(content);
      if r.Err? {
        return Some(r.error);
      }
      amendmentText, isBinaryText, textMetadata := r.value.content, r.value.isBinary, r.value.metadata;
      return None;
    }
  }

  // ---------------------------------------------------------------------
  // Legislation.latest_analysis and Legislation.latest_text

  /**
   * The position sorted(xs, key)[-1] comes from: a largest key, and the
   * last of the largest since the sort is stable.
   */
  function LatestIndex(keys: seq<int>): (i: nat)
    requires |keys| > 0
    ensures i < |keys|
    ensures forall j :: 0 <= j < |keys| ==> keys[j] <= keys[i]
    ensures forall j :: i < j < |keys| ==> keys[j] < keys[i]
  {
    if |keys| == 1 then 0
    else
      var k := LatestIndex(keys[..|keys| - 1]);
      if keys[|keys| - 1] >= keys[k] then |keys| - 1 else k
  }

  /** The version of each row, in order. */
  function Versions<T>(rows: seq<T>, version: T -> int): (keys: seq<int>)
    ensures |keys| == |rows|
    ensures forall j :: 0 <= j < |rows| ==> keys[j] == version(rows[j])
  {
    seq(|rows|, j requires 0 <= j < |rows| => version(rows[j]))
  }

  /** latest_analysis / latest_text: None for no rows, else the row with the largest version. */
  function Latest<T>(rows: seq<T>, version: T -> int): (r: Option<T>)
    ensures r.None? <==> |rows| == 0
    ensures r.Some? ==> r.value in rows && forall j :: 0 <= j < |rows| ==> version(rows[j]) <= version(r.value)
  {
    if |rows| == 0 then None else Some(rows[LatestIndex(Versions(rows, version))])
  }

  /** A row added with a version above every other becomes the latest. */
  lemma {:induction false} NewVersionIsLatest<T>(rows: seq<T>, row: T, version: T -> int)
    requires forall j :: 0 <= j < |rows| ==> version(rows[j]) < version(row)
    ensures Latest(rows + [row], version) == Some(row)
  {
    var all := rows + [row];
    var keys := Versions(all, version);
    var i := LatestIndex(keys);
    assert keys[|rows|] == version(row);
    assert keys[i] == version(all[i]);
    assert keys[|rows|] <= keys[i];
  }

  /** With versions unique, as the unique constraints demand, the latest is the only row with the largest version. */
  lemma {:induction false} LatestUnique<T>(rows: seq<T>, version: T -> int, j: nat)
    requires |rows| > 0 && j < |rows|
    requires forall a, b :: 0 <= a < b < |rows| ==> version(rows[a]) != version(rows[b])
    requires forall k :: 0 <= k < |rows| ==> version(rows[k]) <= version(rows[j])
    ensures Latest(rows, version) == Some(rows[j])
  {
    var keys := Versions(rows, version);
    var i := LatestIndex(keys);
    assert keys[i] == version(rows[i]) && keys[j] == version(rows[j]);
    assert version(rows[i]) == version(rows[j]);
  }

  // ---------------------------------------------------------------------
  // @validates hooks

  /** validate_title / validate_sponsor_name: falsy or blank values are refused; a truthy non-str has no strip(). */
  function ValidateNonBlank(value: Value, message: string): (r: Result<Value, Error>)
    ensures r.Ok? <==> value.PyStr? && Text.Strip(value.s) != ""
    ensures r.Ok? ==> r.value == value
    ensures r.Err? && (!Truthy(value) || value.PyStr?) ==> r.error == ValueError(message)
  {
    if !Truthy(value) then Err(ValueError(message))
    else if !value.PyStr? then Err(AttributeError("'" + TypeName(value) + "' object has no attribute 'strip'"))
    else if Text.Strip(value.s) == "" then Err(ValueError(message))
    else Ok(value)
  }

  function ValidateTitle(value: Value): Result<Value, Error>
  {
    ValidateNonBlank(value, "Legislation title cannot be empty")
  }

  function ValidateSponsorName(value: Value): Result<Value, Error>
  {
    ValidateNonBlank(value, "Sponsor name cannot be empty")
  }

  /** validate_required_fields: like the others, but through str(), so any non-blank value passes. */
  function ValidateRequiredField(key: string, value: Value): (r: Result<Value, Error>)
    ensures r.Ok? <==> Truthy(value) && Text.Strip(Str(value)) != ""
    ensures r.Ok? ==> r.value == value
  {
    if !Truthy(value) || Text.Strip(Str(value)) == "" then Err(ValueError(key + " cannot be empty")) else Ok(value)
  }

  /**
   * validate_analysis_version / validate_version_num: a positive int.
   * bool is a subclass of int, so True passes too.
   */
  function ValidatePositiveInt(value: Value, message: string): (r: Result<Value, Error>)
    ensures r.Ok? <==> (value.PyInt? && value.i > 0) || value == PyBool(true)
    ensures r.Ok? ==> r.value == value
    ensures r.Err? ==> r.error == ValueError(message)
  {
    match value
    case PyInt(i) => if i <= 0 then Err(ValueError(message)) else Ok(value)
    case PyBool(b) => if !b then Err(ValueError(message)) else Ok(value)
    case _ => Err(ValueError(message))
  }

  function ValidateAnalysisVersion(value: Value): Result<Value, Error>
  {
    ValidatePositiveInt(value, "Analysis version must be a positive integer")
  }

  function ValidateVersionNum(value: Value): Result<Value, Error>
  {
    ValidatePositiveInt(value, "Version number must be a positive integer")
  }

  /**
   * validate_score: None becomes 0; otherwise an int (or bool) in 0..100 is
   * kept and anything else refused.
   */
  function ValidateScore(key: string, value: Value): (r: Result<Value, Error>)
    ensures r.Ok? <==> value.PyNone? || (value.PyInt? && 0 <= value.i <= 100) || value.PyBool?
    ensures r.Ok? ==> r.value == if value.PyNone? then PyInt(0) else value
    ensures r.Err? ==> r.error == ValueError(key + " must be an integer between 0 and 100")
  {
    match value
    case PyNone => Ok(PyInt(0))
    case PyInt(i) => if 0 <= i <= 100 then Ok(value) else Err(ValueError(key + " must be an integer between 0 and 100"))
    case PyBool(_) => Ok(value)
    case _ => Err(ValueError(key + " must be an integer between 0 and 100"))
  }

  /** A confidence score as given: absent, a number (an int or a finite float), or something else. */
  datatype ScoreInput = NoScore | Number(x: real) | NotNumber

  /** validate_confidence_score: None stays None; a number must lie in [0, 1]. */
  function ValidateConfidence(value: ScoreInput): (r: Result<Option<real>, Error>)
    ensures r.Ok? <==> value.NoScore? || (value.Number? && 0.0 <= value.x <= 1.0)
    ensures r.Ok? && value.Number? ==> r.value == Some(value.x)
    ensures r.Ok? && value.NoScore? ==> r.value == None
  {
    match value
    case NoScore => Ok(None)
    case Number(x) => if 0.0 <= x <= 1.0 then Ok(Some(x)) else Err(ValueError("Confidence score must be between 0.0 and 1.0"))
    case NotNumber => Err(ValueError("Confidence score must be between 0.0 and 1.0"))
  }

  // ---------------------------------------------------------------------
  // Unique constraints

  /** No two rows share a key. */
  predicate UniqueKeys<K(==)>(keys: seq<K>)
  {
    forall a, b :: 0 <= a < b < |keys| ==> keys[a] != keys[b]
  }

  /**
   * An INSERT under a unique constraint (unique_bill_identifier,
   * unique_analysis_version, unique_text_version): refused when the key is
   * already taken.
   */
  function InsertUnique<K(==)>(keys: seq<K>, key: K, constraint: string): (r: Result<seq<K>, Error>)
    ensures r.Ok? <==> key !in keys
    ensures r.Ok? ==> r.value == keys + [key]
  {
    if key in keys then Err(OtherError("IntegrityError", "duplicate key value violates unique constraint \"" + constraint + "\""))
    else Ok(keys + [key])
  }

  /** Inserting keeps the keys unique. */
  lemma {:induction false} InsertKeepsUnique<K>(keys: seq<K>, key: K, constraint: string)
    requires UniqueKeys(keys)
    ensures InsertUnique(keys, key, constraint).Ok? ==> UniqueKeys(InsertUnique(keys, key, constraint).value)
  {
    if key !in keys {
      var ks := keys + [key];
      forall a, b | 0 <= a < b < |ks|
        ensures ks[a] != ks[b]
      {
        if b == |keys| {
          assert ks[a] == keys[a];
        }
      }
    }
  }

  /** One analysis row's (legislation_id, analysis_version) pair. */
  datatype AnalysisKey = AnalysisKey(legislationId: int, version: int)

  /**
   * Under unique_analysis_version, the latest analysis of a bill is the
   * only one of that bill with its version.
   */
  lemma {:induction false} LatestAnalysisUnique(rows: seq<AnalysisKey>, j: nat)
    requires UniqueKeys(rows) && j < |rows|
    requires forall k :: 0 <= k < |rows| ==> rows[k].legislationId == rows[j].legislationId
    requires forall k :: 0 <= k < |rows| ==> rows[k].version <= rows[j].version
    ensures Latest(rows, (a: AnalysisKey) => a.version) == Some(rows[j])
  {
    LatestUnique(rows, (a: AnalysisKey) => a.version, j);
  }
}
