/**
 * UTF-8, as Python's str.encode("utf-8") produces it. A Dafny char is a
 * Unicode scalar value, so every string is encodable; Decode is the
 * inverse used to state what the encoding preserves.
 */
module Utf8 {
  import opened Wrappers
  import opened Py

  predicate IsContinuation(b: byte) { 0x80 <= b < 0xC0 }

  /** The one- to four-byte UTF-8 sequence of one scalar value. */
  function EncodeChar(c: char): (r: seq<byte>)
    ensures 1 <= |r| <= 4
    ensures |r| == 1 <==> c as int < 0x80
    ensures |r| == 1 ==> r[0] == c as int
  {
    var cp := c as int;
    if cp < 0x80 then [cp]
    else if cp < 0x800 then [0xC0 + cp / 64, 0x80 + cp % 64]
    else if cp < 0x1_0000 then [0xE0 + cp / 64 / 64, 0x80 + cp / 64 % 64, 0x80 + cp % 64]
    else [0xF0 + cp / 64 / 64 / 64, 0x80 + cp / 64 / 64 % 64, 0x80 + cp / 64 % 64, 0x80 + cp % 64]
  }

  /** s.encode("utf-8") */
  function Encode(s: string): (r: seq<byte>)
    ensures |s| <= |r| <= 4 * |s|
    decreases |s|
  {
    if s == [] then [] else EncodeChar(s[0]) + Encode(s[1..])
  }

  /**
   * Reads one scalar value from the front of b, with the number of bytes it
   * took; None for a malformed, overlong, surrogate or out-of-range sequence.
   */
  function DecodeChar(b: seq<byte>): (r: Option<(char, nat)>)
    ensures r.Some? ==> 1 <= r.value.1 <= |b|
  {
    if |b| == 0 then None
    else if b[0] < 0x80 then Some((b[0] as char, 1))
    else if 0xC0 <= b[0] < 0xE0 then
      if |b| < 2 || !IsContinuation(b[1]) then None
      else
        var cp := (b[0] as int - 0xC0) * 64 + (b[1] as int - 0x80);
        if cp < 0x80 then None else Some((cp as char, 2))
    else if 0xE0 <= b[0] < 0xF0 then
      if |b| < 3 || !IsContinuation(b[1]) || !IsContinuation(b[2]) then None
      else
        var cp := ((b[0] as int - 0xE0) * 64 + (b[1] as int - 0x80)) * 64 + (b[2] as int - 0x80);
        if cp < 0x800 || (0xD800 <= cp < 0xE000) then None else Some((cp as char, 3))
    else if 0xF0 <= b[0] < 0xF8 then
      if |b| < 4 || !IsContinuation(b[1]) || !IsContinuation(b[2]) || !IsContinuation(b[3]) then None
      else
        var cp := (((b[0] as int - 0xF0) * 64 + (b[1] as int - 0x80)) * 64 + (b[2] as int - 0x80)) * 64 + (b[3] as int - 0x80);
        if cp < 0x1_0000 || cp >= 0x11_0000 then None else Some((cp as char, 4))
    else None
  }

  /** bytes.decode("utf-8"), None where Python would raise UnicodeDecodeError. */
  function Decode(b: seq<byte>): Option<string>
    decreases |b|
  {
    if b == [] then Some([])
    else match DecodeChar(b)
      case None => None
      case Some((c, n)) =>
        match Decode(b[n..])
        case None => None
        case Some(rest) => Some([c] + rest)
  }

  /** Reading one character back from its own encoding, whatever follows it. */
  lemma DecodeEncodeChar(c: char, rest: seq<byte>)
    ensures DecodeChar(EncodeChar(c) + rest) == Some((c, |EncodeChar(c)|))
  {
    var cp := c as int;
    var b := EncodeChar(c) + rest;
    if cp < 0x80 {
    } else if cp < 0x800 {
      assert cp == (cp / 64) * 64 + cp % 64;
      assert b[0] == 0xC0 + cp / 64 && b[1] == 0x80 + cp % 64;
    } else if cp < 0x1_0000 {
      assert cp / 64 == (cp / 64 / 64) * 64 + cp / 64 % 64;
      assert cp == (cp / 64) * 64 + cp % 64;
      assert b[0] == 0xE0 + cp / 64 / 64 && b[1] == 0x80 + cp / 64 % 64 && b[2] == 0x80 + cp % 64;
    } else {
      assert cp / 64 / 64 == (cp / 64 / 64 / 64) * 64 + cp / 64 / 64 % 64;
      assert cp / 64 == (cp / 64 / 64) * 64 + cp / 64 % 64;
      assert cp == (cp / 64) * 64 + cp % 64;
      assert b[0] == 0xF0 + cp / 64 / 64 / 64 && b[1] == 0x80 + cp / 64 / 64 % 64;
      assert b[2] == 0x80 + cp / 64 % 64 && b[3] == 0x80 + cp % 64;
    }
  }

  /** Decoding undoes encoding: s.encode("utf-8").decode("utf-8") == s. */
  lemma {:induction false} DecodeEncode(s: string)
    ensures Decode(Encode(s)) == Some(s)
    decreases |s|
  {
    if s != [] {
      var e := EncodeChar(s[0]);
      DecodeEncodeChar(s[0], Encode(s[1..]));
      assert (e + Encode(s[1..]))[|e|..] == Encode(s[1..]);
      DecodeEncode(s[1..]);
      assert [s[0]] + s[1..] == s;
    }
  }

  /** Encoding works character by character: it distributes over concatenation. */
  lemma {:induction false} EncodeAppend(s: string, t: string)
    ensures Encode(s + t) == Encode(s) + Encode(t)
    decreases |s|
  {
    if s != [] {
      assert (s + t)[1..] == s[1..] + t;
      EncodeAppend(s[1..], t);
    } else {
      assert s + t == t;
    }
  }

  predicate IsAscii(s: string) { forall i :: 0 <= i < |s| ==> s[i] as int < 0x80 }

  /** An ASCII string encodes to one byte per character, the character's code. */
  lemma {:induction false} EncodeAscii(s: string)
    requires IsAscii(s)
    ensures |Encode(s)| == |s|
    ensures forall i :: 0 <= i < |s| ==> Encode(s)[i] == s[i] as int
    decreases |s|
  {
    if s != [] {
      EncodeAscii(s[1..]);
    }
  }

  /**
   * The layout of section 3 of RFC 3629: the length follows the scalar
   * value's range, the lead byte announces the length, and every byte after
   * it is a continuation byte.
   */
  lemma EncodeCharLayout(c: char)
    ensures |EncodeChar(c)| == 2 <==> 0x80 <= c as int < 0x800
    ensures |EncodeChar(c)| == 3 <==> 0x800 <= c as int < 0x1_0000
    ensures |EncodeChar(c)| == 4 <==> 0x1_0000 <= c as int
    ensures |EncodeChar(c)| == 2 ==> 0xC2 <= EncodeChar(c)[0] < 0xE0
    ensures |EncodeChar(c)| == 3 ==> 0xE0 <= EncodeChar(c)[0] < 0xF0
    ensures |EncodeChar(c)| == 4 ==> 0xF0 <= EncodeChar(c)[0] <= 0xF4
    ensures forall i :: 1 <= i < |EncodeChar(c)| ==> IsContinuation(EncodeChar(c)[i])
  {
  }

  /** One character of each length, with the bytes RFC 3629 gives for it. */
  lemma EncodeCharVectors()
    ensures EncodeChar('A') == [0x41]
    ensures EncodeChar('\U{E9}') == [0xC3, 0xA9]
    ensures EncodeChar('\U{20AC}') == [0xE2, 0x82, 0xAC]
    ensures Encode("\U{1F600}") == [0xF0, 0x9F, 0x98, 0x80]
  {
  }
}
