/** Python `bytes` values and the file signatures the content sniffers look for. */
module Bytes {
  import opened Wrappers

  type Byte = x: int | 0 <= x < 256

  /** "%PDF-", the PDF header of ISO 32000-1 section 7.5.2. */
  const PdfSignature: seq<Byte> := [0x25, 0x50, 0x44, 0x46, 0x2D]
  /** The OLE2 compound-file magic used by legacy MS Office documents. */
  const OleSignature: seq<Byte> := [0xD0, 0xCF, 0x11, 0xE0]
  /** "PK\x03\x04", a ZIP local file header. */
  const ZipSignature: seq<Byte> := [0x50, 0x4B, 0x03, 0x04]

  /** b.startswith(prefix); also `b[:len(prefix)] == prefix`. */
  predicate StartsWith(b: seq<Byte>, prefix: seq<Byte>)
  {
    prefix <= b
  }

  predicate IsAsciiString(s: string)
  {
    forall i :: 0 <= i < |s| ==> s[i] as int < 128
  }

  /** The bytes of an ASCII string (what `s.encode()` gives for it). */
  function AsciiBytes(s: string): (b: seq<Byte>)
    requires IsAsciiString(s)
    ensures |b| == |s|
    ensures forall i :: 0 <= i < |s| ==> b[i] == s[i] as int
  {
    if |s| == 0 then [] else [s[0] as int] + AsciiBytes(s[1..])
  }

  /** bytes.decode("latin-1"): every byte becomes the code point of the same value. */
  function Latin1Decode(b: seq<Byte>): (s: string)
    ensures |s| == |b|
    ensures forall i :: 0 <= i < |b| ==> s[i] as int == b[i]
  {
    if |b| == 0 then [] else [b[0] as char] + Latin1Decode(b[1..])
  }

  predicate IsLatin1(s: string)
  {
    forall i :: 0 <= i < |s| ==> s[i] as int < 256
  }

  /** str.encode("latin-1"), which raises for any code point above 0xFF. */
  function Latin1Encode(s: string): (r: Option<seq<Byte>>)
    ensures r.Some? <==> IsLatin1(s)
    ensures r.Some? ==> |r.value| == |s| && forall i :: 0 <= i < |s| ==> r.value[i] == s[i] as int
  {
    if |s| == 0 then Some([])
    else if s[0] as int >= 256 then None
    else
      match Latin1Encode(s[1..])
      case None => None
      case Some(t) => Some([s[0] as int] + t)
  }

  /** latin-1 is a bijection between bytes and the first 256 code points. */
  lemma {:induction false} Latin1RoundTrip(b: seq<Byte>)
    ensures Latin1Encode(Latin1Decode(b)) == Some(b)
  {
    var r := Latin1Encode(Latin1Decode(b));
    assert r.Some?;
    assert r.value == b;
  }

  /** One of the three binary signatures the sniffers know. */
  predicate HasSignature(b: seq<Byte>)
  {
    StartsWith(b, PdfSignature) || StartsWith(b, OleSignature) || StartsWith(b, ZipSignature)
  }

  /**
   * detect_content_type and BaseModel._detect_content_type: the media type
   * named by the signature the bytes start with (the three start with
   * different bytes, so at most one applies), application/octet-stream for
   * anything else.
   */
  function DetectContentType(b: seq<Byte>): (t: string)
    ensures t == "application/pdf" <==> StartsWith(b, PdfSignature)
    ensures t == "application/msword" <==> StartsWith(b, OleSignature)
    ensures t == "application/zip" <==> StartsWith(b, ZipSignature)
    ensures t == "application/octet-stream" <==> !HasSignature(b)
  {
    assert "application/pdf"[12] != "application/zip"[12];
    if StartsWith(b, PdfSignature) then
      assert b[0] == PdfSignature[0];
      "application/pdf"
    else if StartsWith(b, OleSignature) then
      assert b[0] == OleSignature[0];
      "application/msword"
    else if StartsWith(b, ZipSignature) then
      assert b[0] == ZipSignature[0];
      "application/zip"
    else "application/octet-stream"
  }
}
