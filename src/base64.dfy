/**
 * Base64 of RFC 4648 section 4, as Python's base64.b64encode writes it and
 * base64.b64decode reads it. Decoding is the lenient reader b64decode uses
 * by default: characters outside the alphabet are skipped, decoding stops
 * once a group's padding is complete, and leftover bits are dropped.
 */
module Base64 {
  import opened Wrappers
  import opened Bytes

  /** The character of RFC 4648's alphabet for the 6-bit value x. */
  function SextetChar(x: int): (c: char)
    requires 0 <= x < 64
  {
    if x < 26 then ('A' as int + x) as char
    else if x < 52 then ('a' as int + x - 26) as char
    else if x < 62 then ('0' as int + x - 52) as char
    else if x == 62 then '+'
    else '/'
  }

  predicate InAlphabet(c: char)
  {
    'A' <= c <= 'Z' || 'a' <= c <= 'z' || '0' <= c <= '9' || c == '+' || c == '/'
  }

  /** The 6-bit value of an alphabet character. */
  function SextetValue(c: char): (x: nat)
    requires InAlphabet(c)
    ensures x < 64
  {
    if 'A' <= c <= 'Z' then c as int - 'A' as int
    else if 'a' <= c <= 'z' then c as int - 'a' as int + 26
    else if '0' <= c <= '9' then c as int - '0' as int + 52
    else if c == '+' then 62
    else 63
  }

  lemma {:induction false} SextetRoundTrip(x: int)
    requires 0 <= x < 64
    ensures InAlphabet(SextetChar(x)) && SextetValue(SextetChar(x)) == x
  {
  }

  /** base64.b64encode: each 3 bytes become 4 characters; a final 1 or 2 bytes are padded with '='. */
  function Encode(b: seq<Byte>): (s: string)
    ensures |s| == 4 * ((|b| + 2) / 3)
  {
    if |b| == 0 then ""
    else if |b| == 1 then
      [SextetChar(b[0] / 4), SextetChar((b[0] % 4) * 16), '=', '=']
    else if |b| == 2 then
      [SextetChar(b[0] / 4), SextetChar((b[0] % 4) * 16 + b[1] / 16), SextetChar((b[1] % 16) * 4), '=']
    else
      Group(b[0], b[1], b[2]) + Encode(b[3..])
  }

  /** The four characters of a full group of three bytes. */
  function Group(b0: Byte, b1: Byte, b2: Byte): (q: string)
    ensures |q| == 4
  {
    [SextetChar(b0 / 4), SextetChar((b0 % 4) * 16 + b1 / 16), SextetChar((b1 % 16) * 4 + b2 / 64), SextetChar(b2 % 64)]
  }

  /** Every character of an encoding is in the alphabet or is the pad '='. */
  lemma {:induction false} EncodeAlphabet(b: seq<Byte>)
    ensures forall k :: 0 <= k < |Encode(b)| ==> InAlphabet(Encode(b)[k]) || Encode(b)[k] == '='
    decreases |b|
  {
    if |b| >= 3 {
      EncodeAlphabet(b[3..]);
      var s := Encode(b);
      forall k | 4 <= k < |s|
        ensures InAlphabet(s[k]) || s[k] == '='
      {
        assert s[k] == Encode(b[3..])[k - 4];
      }
    }
  }

  // ----- the reader -----

  /**
   * Where the reader stands: the position within the current group of four,
   * the bits carried to the next byte, the pads seen since the last data
   * character, the bytes written, and whether a group's padding completed.
   */
  datatype Reader = Reader(quadPos: nat, left: nat, pads: nat, out: seq<Byte>, done: bool)

  const Start := Reader(0, 0, 0, [], false)

  /** One character through the reader. */
  function Feed(r: Reader, c: char): Reader
  {
    if r.done then r
    else if c == '=' then
      if r.quadPos < 2 then r
      else if r.quadPos + r.pads + 1 >= 4 then r.(pads := r.pads + 1, done := true)
      else r.(pads := r.pads + 1)
    else if !InAlphabet(c) then r
    else
      var v := SextetValue(c);
      if r.quadPos == 0 then Reader(1, v, 0, r.out, false)
      else if r.quadPos == 1 then Reader(2, v % 16, 0, r.out + [(r.left % 64) * 4 + v / 16], false)
      else if r.quadPos == 2 then Reader(3, v % 4, 0, r.out + [(r.left % 16) * 16 + v / 4], false)
      else Reader(0, 0, 0, r.out + [(r.left % 4) * 64 + v], false)
  }

  function FeedAll(r: Reader, s: string): Reader
    decreases |s|
  {
    if |s| == 0 then r else FeedAll(Feed(r, s[0]), s[1..])
  }

  lemma {:induction false} FeedAllConcat(r: Reader, a: string, b: string)
    ensures FeedAll(r, a + b) == FeedAll(FeedAll(r, a), b)
    decreases |a|
  {
    if |a| == 0 {
      assert a + b == b;
    } else {
      assert (a + b)[0] == a[0] && (a + b)[1..] == a[1..] + b;
      FeedAllConcat(Feed(r, a[0]), a[1..], b);
      calc {
        FeedAll(r, a + b);
        FeedAll(Feed(r, a[0]), a[1..] + b);
        FeedAll(FeedAll(Feed(r, a[0]), a[1..]), b);
        FeedAll(FeedAll(r, a), b);
      }
    }
  }

  /**
   * base64.b64decode(s): None where Python raises, that is for a character
   * beyond ASCII, or when input ends in the middle of a group without its
   * padding.
   */
  function Decode(s: string): (r: Option<seq<Byte>>)
  {
    if !IsAsciiString(s) then None
    else
      var end := FeedAll(Start, s);
      if end.done || end.quadPos == 0 then Some(end.out) else None
  }

  /** Four characters through the reader, one after another. */
  lemma {:induction false} FeedFour(r: Reader, q: string, rest: string)
    requires |q| == 4
    ensures FeedAll(r, q + rest) == FeedAll(Feed(Feed(Feed(Feed(r, q[0]), q[1]), q[2]), q[3]), rest)
  {
    FeedAllConcat(r, q, rest);
    var r1 := Feed(r, q[0]);
    var r2 := Feed(r1, q[1]);
    var r3 := Feed(r2, q[2]);
    var r4 := Feed(r3, q[3]);
    assert q[1..][0] == q[1] && q[1..][1..][0] == q[2] && q[1..][1..][1..][0] == q[3];
    assert q[1..][1..][1..][1..] == [];
    assert FeedAll(r3, q[1..][1..][1..]) == FeedAll(r4, []) == r4;
    assert FeedAll(r2, q[1..][1..]) == FeedAll(r3, q[1..][1..][1..]);
    assert FeedAll(r1, q[1..]) == FeedAll(r2, q[1..][1..]);
    assert FeedAll(r, q) == FeedAll(r1, q[1..]);
  }

  /** The bits the encoder spreads over two characters are joined again by the reader. */
  lemma {:induction false} FirstByte(b0: Byte, b1: Byte)
    ensures (b0 / 4) * 4 + ((b0 % 4) * 16 + b1 / 16) / 16 == b0
    ensures ((b0 % 4) * 16 + b1 / 16) % 16 == b1 / 16
  {
  }

  lemma {:induction false} SecondByte(b1: Byte, b2: Byte)
    ensures (b1 / 16) * 16 + ((b1 % 16) * 4 + b2 / 64) / 4 == b1
    ensures ((b1 % 16) * 4 + b2 / 64) % 4 == b2 / 64
  {
  }

  /** The first two characters of a group give back its first byte. */
  lemma {:induction false} ReadFirst(out: seq<Byte>, b0: Byte, b1: Byte)
    ensures var c1 := SextetChar((b0 % 4) * 16 + b1 / 16);
      Feed(Feed(Reader(0, 0, 0, out, false), SextetChar(b0 / 4)), c1) == Reader(2, b1 / 16, 0, out + [b0], false)
  {
    var x, v := b0 / 4, (b0 % 4) * 16 + b1 / 16;
    SextetRoundTrip(x);
    SextetRoundTrip(v);
    FirstByte(b0, b1);
    var r1 := Feed(Reader(0, 0, 0, out, false), SextetChar(x));
    assert r1 == Reader(1, x, 0, out, false);
    assert x % 64 == x;
    assert Feed(r1, SextetChar(v)) == Reader(2, v % 16, 0, out + [x * 4 + v / 16], false);
  }

  /** The third character of a group gives back its second byte. */
  lemma {:induction false} ReadSecond(out: seq<Byte>, b1: Byte, b2: Byte)
    ensures Feed(Reader(2, b1 / 16, 0, out, false), SextetChar((b1 % 16) * 4 + b2 / 64))
      == Reader(3, b2 / 64, 0, out + [b1], false)
  {
    SextetRoundTrip((b1 % 16) * 4 + b2 / 64);
    SecondByte(b1, b2);
  }

  /** The fourth character of a group gives back its third byte. */
  lemma {:induction false} ReadThird(out: seq<Byte>, b2: Byte)
    ensures Feed(Reader(3, b2 / 64, 0, out, false), SextetChar(b2 % 64)) == Reader(0, 0, 0, out + [b2], false)
  {
    SextetRoundTrip(b2 % 64);
  }

  /** A reader that has finished ignores whatever follows. */
  lemma {:induction false} DoneIgnores(r: Reader, s: string)
    requires r.done
    ensures FeedAll(r, s) == r
    decreases |s|
  {
    if |s| > 0 {
      DoneIgnores(Feed(r, s[0]), s[1..]);
    }
  }

  /** A final single byte, padded with "==", is read back and ends the reading. */
  lemma {:induction false} ReadPaddedOne(out: seq<Byte>, b: seq<Byte>)
    requires |b| == 1
    ensures var end := FeedAll(Reader(0, 0, 0, out, false), Encode(b));
      end.done && end.out == out + b
  {
    var s := Encode(b);
    ReadFirst(out, b[0], 0);
    FeedFour(Reader(0, 0, 0, out, false), s, []);
    assert s + [] == s;
  }

  /** A final two bytes, padded with "=", are read back and end the reading. */
  lemma {:induction false} ReadPaddedTwo(out: seq<Byte>, b: seq<Byte>)
    requires |b| == 2
    ensures var end := FeedAll(Reader(0, 0, 0, out, false), Encode(b));
      end.done && end.out == out + b
  {
    var s := Encode(b);
    ReadFirst(out, b[0], b[1]);
    ReadSecond(out + [b[0]], b[1], 0);
    FeedFour(Reader(0, 0, 0, out, false), s, []);
    assert s + [] == s;
    assert out + [b[0]] + [b[1]] == out + b;
  }

  /** The four characters of a group are read back as its three bytes, and the reader is ready for the next group. */
  lemma {:induction false} ReadGroupChars(out: seq<Byte>, b0: Byte, b1: Byte, b2: Byte, rest: string)
    ensures FeedAll(Reader(0, 0, 0, out, false), Group(b0, b1, b2) + rest)
      == FeedAll(Reader(0, 0, 0, out + [b0, b1, b2], false), rest)
  {
    var q := Group(b0, b1, b2);
    var r := Reader(0, 0, 0, out, false);
    FeedFour(r, q, rest);
    ReadFirst(out, b0, b1);
    ReadSecond(out + [b0], b1, b2);
    ReadThird(out + [b0] + [b1], b2);
    assert out + [b0] + [b1] + [b2] == out + [b0, b1, b2];
  }

  lemma {:induction false} ReadGroup(out: seq<Byte>, b: seq<Byte>)
    requires |b| >= 3
    ensures FeedAll(Reader(0, 0, 0, out, false), Encode(b))
      == FeedAll(Reader(0, 0, 0, out + [b[0], b[1], b[2]], false), Encode(b[3..]))
  {
    var q, rest := Group(b[0], b[1], b[2]), Encode(b[3..]);
    assert Encode(b) == q + rest;
    ReadGroupChars(out, b[0], b[1], b[2], rest);
  }

  /** Reading the encoding of b after the bytes out gives out + b, and the reading ends cleanly. */
  ghost predicate ReadsBack(out: seq<Byte>, b: seq<Byte>)
  {
    var end := FeedAll(Reader(0, 0, 0, out, false), Encode(b));
    (end.done || end.quadPos == 0) && end.out == out + b
  }

  lemma {:induction false} DecodeEncodeFrom(out: seq<Byte>, b: seq<Byte>)
    ensures ReadsBack(out, b)
    decreases |b|
  {
    if |b| == 0 {
      assert out + b == out;
    } else if |b| == 1 {
      ReadPaddedOne(out, b);
    } else if |b| == 2 {
      ReadPaddedTwo(out, b);
    } else {
      DecodeEncodeFrom(out + [b[0], b[1], b[2]], b[3..]);
      ReadsBackGroup(out, b);
    }
  }

  lemma {:induction false} ReadsBackGroup(out: seq<Byte>, b: seq<Byte>)
    requires |b| >= 3 && ReadsBack(out + [b[0], b[1], b[2]], b[3..])
    ensures ReadsBack(out, b)
  {
    var out' := out + [b[0], b[1], b[2]];
    ReadGroup(out, b);
    assert out' + b[3..] == out + b;
  }

  /** RFC 4648 round trip: decoding an encoding gives the bytes back. */
  lemma {:induction false} DecodeEncode(b: seq<Byte>)
    ensures Decode(Encode(b)) == Some(b)
  {
    EncodeAlphabet(b);
    var s := Encode(b);
    assert IsAsciiString(s) by {
      forall k | 0 <= k < |s|
        ensures s[k] as int < 128
      {
        assert InAlphabet(s[k]) || s[k] == '=';
      }
    }
    DecodeEncodeFrom([], b);
    assert ReadsBack([], b);
    assert [] + b == b;
  }

  /** Characters outside the alphabet, such as line breaks, are skipped. */
  lemma {:induction false} SkipsForeign(r: Reader, c: char, s: string)
    requires !InAlphabet(c) && c != '='
    ensures FeedAll(r, [c] + s) == FeedAll(r, s)
  {
    assert ([c] + s)[1..] == s;
  }
}
