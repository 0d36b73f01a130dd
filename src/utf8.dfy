/**
 * UTF-8 as Python's codec implements it: `str.encode("utf-8")`, and
 * `bytes.decode("utf-8", errors="replace")`, which substitutes one U+FFFD for
 * each maximal ill-formed subpart (Unicode 15.0 section 3.9, "U+FFFD Substitution
 * of Maximal Subparts").
 */
module Utf8 {
  import opened Bytes
  import opened Wrappers

  const Replacement: char := 0xFFFD as char

  predicate IsCont(b: Byte) { 0x80 <= b <= 0xBF }

  /** The encoding of one scalar value: 1 to 4 bytes, by magnitude. */
  function EncodeChar(c: char): (r: seq<Byte>)
    ensures 1 <= |r| <= 4
    ensures r[0] < 0x80 || 0xC2 <= r[0] <= 0xF4
    ensures forall k :: 1 <= k < |r| ==> IsCont(r[k])
  {
    var n := c as int;
    if n < 0x80 then [n]
    else if n < 0x800 then [0xC0 + n / 64, 0x80 + n % 64]
    else if n < 0x10000 then [0xE0 + n / 4096, 0x80 + (n / 64) % 64, 0x80 + n % 64]
    else [0xF0 + n / 262144, 0x80 + (n / 4096) % 64, 0x80 + (n / 64) % 64, 0x80 + n % 64]
  }

  function Encode(s: string): (r: seq<Byte>)
    ensures |r| >= |s|
  {
    if |s| == 0 then [] else EncodeChar(s[0]) + Encode(s[1..])
  }

  lemma {:induction false} EncodeConcat(a: string, b: string)
    ensures Encode(a + b) == Encode(a) + Encode(b)
    decreases |a|
  {
    if |a| > 0 {
      assert (a + b)[1..] == a[1..] + b;
      EncodeConcat(a[1..], b);
    } else {
      assert a + b == b;
    }
  }

  /** ASCII text encodes to its own code points, one byte each. */
  lemma {:induction false} EncodeAscii(s: string)
    requires IsAsciiString(s)
    ensures Encode(s) == AsciiBytes(s)
    decreases |s|
  {
    if |s| > 0 {
      EncodeAscii(s[1..]);
    }
  }

  /**
   * One decoding step: the character at the head of b and the number of bytes it
   * consumes; an ill-formed prefix yields U+FFFD and consumes its maximal subpart.
   */
  function Step(b: seq<Byte>): (r: (char, nat))
    requires |b| > 0
    ensures 1 <= r.1 <= |b|
  {
    var b0 := b[0];
    if b0 < 0x80 then (b0 as char, 1)
    else if 0xC2 <= b0 <= 0xDF then
      if |b| >= 2 && IsCont(b[1]) then Two(b0, b[1]) else (Replacement, 1)
    else if 0xE0 <= b0 <= 0xEF then
      var lo := if b0 == 0xE0 then 0xA0 else 0x80;
      var hi := if b0 == 0xED then 0x9F else 0xBF;
      if |b| < 2 || !(lo <= b[1] <= hi) then (Replacement, 1)
      else if |b| < 3 || !IsCont(b[2]) then (Replacement, 2)
      else Three(b0, b[1], b[2])
    else if 0xF0 <= b0 <= 0xF4 then
      var lo := if b0 == 0xF0 then 0x90 else 0x80;
      var hi := if b0 == 0xF4 then 0x8F else 0xBF;
      if |b| < 2 || !(lo <= b[1] <= hi) then (Replacement, 1)
      else if |b| < 3 || !IsCont(b[2]) then (Replacement, 2)
      else if |b| < 4 || !IsCont(b[3]) then (Replacement, 3)
      else Four(b0, b[1], b[2], b[3])
    else (Replacement, 1)
  }

  function Two(b0: Byte, b1: Byte): (r: (char, nat))
    requires 0xC2 <= b0 <= 0xDF && IsCont(b1)
    ensures r.1 == 2
  {
    var v := (b0 - 0xC0) * 64 + (b1 - 0x80);
    assert v < 0x800;
    (v as char, 2)
  }

  function Three(b0: Byte, b1: Byte, b2: Byte): (r: (char, nat))
    requires 0xE0 <= b0 <= 0xEF && IsCont(b1) && IsCont(b2)
    requires b0 == 0xE0 ==> 0xA0 <= b1
    requires b0 == 0xED ==> b1 <= 0x9F
    ensures r.1 == 3
  {
    var v := (b0 - 0xE0) * 4096 + (b1 - 0x80) * 64 + (b2 - 0x80);
    assert v < 0x10000;
    assert b0 == 0xED ==> v < 0xD800;
    assert b0 != 0xED ==> v < 0xD000 || v >= 0xE000;
    (v as char, 3)
  }

  function Four(b0: Byte, b1: Byte, b2: Byte, b3: Byte): (r: (char, nat))
    requires 0xF0 <= b0 <= 0xF4 && IsCont(b1) && IsCont(b2) && IsCont(b3)
    requires b0 == 0xF0 ==> 0x90 <= b1
    requires b0 == 0xF4 ==> b1 <= 0x8F
    ensures r.1 == 4
  {
    var v := (b0 - 0xF0) * 262144 + (b1 - 0x80) * 4096 + (b2 - 0x80) * 64 + (b3 - 0x80);
    assert 0x10000 <= v <= 0x10FFFF;
    (v as char, 4)
  }

  /** bytes.decode("utf-8", errors="replace"). */
  function DecodeReplace(b: seq<Byte>): (s: string)
    ensures |s| <= |b|
    decreases |b|
  {
    if |b| == 0 then []
    else
      var (c, n) := Step(b);
      [c] + DecodeReplace(b[n..])
  }

  lemma {:induction false} StepOfEncodeChar(c: char, rest: seq<Byte>)
    ensures Step(EncodeChar(c) + rest) == (c, |EncodeChar(c)|)
  {
    var n := c as int;
    if n < 0x80 {
    } else if n < 0x800 {
      StepTwoBytes(c, rest);
    } else if n < 0x10000 {
      StepThreeBytes(c, rest);
    } else {
      StepFourBytes(c, rest);
    }
  }

  lemma {:induction false} StepTwoBytes(c: char, rest: seq<Byte>)
    requires 0x80 <= c as int < 0x800
    ensures Step(EncodeChar(c) + rest) == (c, 2)
  {
    var n := c as int;
    var b := EncodeChar(c) + rest;
    var q, r := n / 64, n % 64;
    assert n == q * 64 + r;
    assert b[0] == 0xC0 + q && b[1] == 0x80 + r;
    assert Two(b[0], b[1]).0 as int == n;
  }

  lemma {:induction false} StepThreeBytes(c: char, rest: seq<Byte>)
    requires 0x800 <= c as int < 0x10000
    ensures Step(EncodeChar(c) + rest) == (c, 3)
  {
    var n := c as int;
    var b := EncodeChar(c) + rest;
    var hi, mid, lo := n / 4096, (n / 64) % 64, n % 64;
    assert n == hi * 4096 + mid * 64 + lo;
    assert b[0] == 0xE0 + hi && b[1] == 0x80 + mid && b[2] == 0x80 + lo;
    assert hi == 0 ==> mid >= 0x20;
    assert hi == 0xD ==> mid < 0x20;
    assert Three(b[0], b[1], b[2]).0 as int == n;
  }

  lemma {:induction false} StepFourBytes(c: char, rest: seq<Byte>)
    requires 0x10000 <= c as int
    ensures Step(EncodeChar(c) + rest) == (c, 4)
  {
    var n := c as int;
    var b := EncodeChar(c) + rest;
    var top, hi, mid, lo := n / 262144, (n / 4096) % 64, (n / 64) % 64, n % 64;
    FourParts(n);
    assert b[0] == 0xF0 + top && b[1] == 0x80 + hi && b[2] == 0x80 + mid && b[3] == 0x80 + lo;
    assert Four(b[0], b[1], b[2], b[3]).0 as int == n;
  }

  /** The four six-bit groups of a supplementary code point, and the bounds the second byte must respect. */
  lemma {:induction false} FourParts(n: int)
    requires 0x10000 <= n < 0x110000
    ensures var top, hi, mid, lo := n / 262144, (n / 4096) % 64, (n / 64) % 64, n % 64;
      n == top * 262144 + hi * 4096 + mid * 64 + lo
      && 0 <= top <= 4 && 0 <= hi < 64 && 0 <= mid < 64 && 0 <= lo < 64
      && (top == 0 ==> hi >= 0x10) && (top == 4 ==> hi < 0x10)
  {
    var q := n / 64;
    assert n == q * 64 + n % 64;
    var q2 := q / 64;
    assert q == q2 * 64 + q % 64;
    assert q2 == n / 4096;
    var q3 := q2 / 64;
    assert q2 == q3 * 64 + q2 % 64;
    assert q3 == n / 262144;
  }

  /** Decoding what was encoded gives the text back: no replacement ever happens. */
  lemma {:induction false} DecodeEncode(s: string)
    ensures DecodeReplace(Encode(s)) == s
    decreases |s|
  {
    if |s| > 0 {
      var e := EncodeChar(s[0]);
      var rest := Encode(s[1..]);
      StepOfEncodeChar(s[0], rest);
      assert (e + rest)[|e|..] == rest;
      DecodeEncode(s[1..]);
    }
  }

  /**
   * bytes.decode("utf-8", errors="ignore"): an ill-formed prefix, the one a
   * step answers with a character whose encoding is not the bytes consumed,
   * is dropped.
   */
  function DecodeIgnore(b: seq<Byte>): (s: string)
    ensures |s| <= |b|
    decreases |b|
  {
    if |b| == 0 then []
    else
      var (c, n) := Step(b);
      (if EncodeChar(c) == b[..n] then [c] else []) + DecodeIgnore(b[n..])
  }

  /** Nothing is dropped from a well-formed encoding. */
  lemma {:induction false} DecodeIgnoreEncode(s: string)
    ensures DecodeIgnore(Encode(s)) == s
    decreases |s|
  {
    if |s| > 0 {
      var e := EncodeChar(s[0]);
      var rest := Encode(s[1..]);
      StepOfEncodeChar(s[0], rest);
      assert (e + rest)[|e|..] == rest;
      assert (e + rest)[..|e|] == e;
      DecodeIgnoreEncode(s[1..]);
    }
  }

  /** bytes.decode("utf-8") in strict mode: the text the bytes encode, or None when they are not UTF-8. */
  function Decode(b: seq<Byte>): (r: Option<string>)
    ensures r.Some? ==> Encode(r.value) == b
  {
    var s := DecodeReplace(b);
    if Encode(s) == b then Some(s) else None
  }

  /** Strict decoding succeeds on exactly the encodings, and gives the encoded text back. */
  lemma {:induction false} DecodeExactlyEncodings(b: seq<Byte>, s: string)
    ensures Decode(Encode(s)) == Some(s)
    ensures Decode(b).None? ==> Encode(s) != b
  {
    DecodeEncode(s);
  }

  /** ASCII bytes decode to the characters with the same code points. */
  lemma {:induction false} DecodeAscii(b: seq<Byte>)
    requires forall i :: 0 <= i < |b| ==> b[i] < 0x80
    ensures DecodeReplace(b) == Latin1Decode(b)
    decreases |b|
  {
    if |b| > 0 {
      DecodeAscii(b[1..]);
    }
  }
}
