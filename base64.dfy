/**
 * Base 64 encoding as in section 4 of RFC 4648 (Python's base64.b64encode):
 * the standard alphabet A-Z a-z 0-9 + /, every three bytes become four
 * characters, and a final group of one or two bytes is padded with "==" or "=".
 */
module Base64 {
  import opened Wrappers
  import opened Py

  predicate IsAlphabetChar(c: char)
  {
    ('A' <= c <= 'Z') || ('a' <= c <= 'z') || ('0' <= c <= '9') || c == '+' || c == '/'
  }

  /** The character for a 6-bit value (table 1 of RFC 4648). */
  function CharOf(v: int): (c: char)
    requires 0 <= v < 64
    ensures IsAlphabetChar(c)
  {
    if v < 26 then ('A' as int + v) as char
    else if v < 52 then ('a' as int + (v - 26)) as char
    else if v < 62 then ('0' as int + (v - 52)) as char
    else if v == 62 then '+'
    else '/'
  }

  /** The 6-bit value of an alphabet character; None for any other character. */
  function ValueOf(c: char): (r: Option<int>)
    ensures r.Some? <==> IsAlphabetChar(c)
    ensures r.Some? ==> 0 <= r.value < 64 && CharOf(r.value) == c
  {
    if 'A' <= c <= 'Z' then Some(c as int - 'A' as int)
    else if 'a' <= c <= 'z' then Some(c as int - 'a' as int + 26)
    else if '0' <= c <= '9' then Some(c as int - '0' as int + 52)
    else if c == '+' then Some(62)
    else if c == '/' then Some(63)
    else None
  }

  lemma ValueOfCharOf(v: int)
    requires 0 <= v < 64
    ensures ValueOf(CharOf(v)) == Some(v)
  {
  }

  /** Table 1 of RFC 4648, sixteen values at a time. */
  const TableRows0: string := "ABCDEFGHIJKLMNOP"
  const TableRows1: string := "QRSTUVWXYZabcdef"
  const TableRows2: string := "ghijklmnopqrstuv"
  const TableRows3: string := "wxyz0123456789+/"

  /** The whole of table 1: the character for value v is Alphabet[v]. */
  const Alphabet: string := TableRows0 + TableRows1 + TableRows2 + TableRows3

  lemma CharOfTableRows0(v: int)
    requires 0 <= v < 16
    ensures CharOf(v) == TableRows0[v - 0]
  {
    if v == 0 {
    } else if v == 1 {
    } else if v == 2 {
    } else if v == 3 {
    } else if v == 4 {
    } else if v == 5 {
    } else if v == 6 {
    } else if v == 7 {
    } else if v == 8 {
    } else if v == 9 {
    } else if v == 10 {
    } else if v == 11 {
    } else if v == 12 {
    } else if v == 13 {
    } else if v == 14 {
    }
  }

  lemma CharOfTableRows1(v: int)
    requires 16 <= v < 32
    ensures CharOf(v) == TableRows1[v - 16]
  {
    if v == 16 {
    } else if v == 17 {
    } else if v == 18 {
    } else if v == 19 {
    } else if v == 20 {
    } else if v == 21 {
    } else if v == 22 {
    } else if v == 23 {
    } else if v == 24 {
    } else if v == 25 {
    } else if v == 26 {
    } else if v == 27 {
    } else if v == 28 {
    } else if v == 29 {
    } else if v == 30 {
    }
  }

  lemma CharOfTableRows2(v: int)
    requires 32 <= v < 48
    ensures CharOf(v) == TableRows2[v - 32]
  {
    if v == 32 {
    } else if v == 33 {
    } else if v == 34 {
    } else if v == 35 {
    } else if v == 36 {
    } else if v == 37 {
    } else if v == 38 {
    } else if v == 39 {
    } else if v == 40 {
    } else if v == 41 {
    } else if v == 42 {
    } else if v == 43 {
    } else if v == 44 {
    } else if v == 45 {
    } else if v == 46 {
    }
  }

  lemma CharOfTableRows3(v: int)
    requires 48 <= v < 64
    ensures CharOf(v) == TableRows3[v - 48]
  {
    if v == 48 {
    } else if v == 49 {
    } else if v == 50 {
    } else if v == 51 {
    } else if v == 52 {
    } else if v == 53 {
    } else if v == 54 {
    } else if v == 55 {
    } else if v == 56 {
    } else if v == 57 {
    } else if v == 58 {
    } else if v == 59 {
    } else if v == 60 {
    } else if v == 61 {
    } else if v == 62 {
    }
  }

  /** CharOf and ValueOf are exactly table 1 of RFC 4648, in both directions. */
  lemma CharOfIsAlphabet(v: int)
    requires 0 <= v < 64
    ensures CharOf(v) == Alphabet[v]
    ensures ValueOf(Alphabet[v]) == Some(v)
  {
    if v < 16 {
      CharOfTableRows0(v);
    } else if v < 32 {
      CharOfTableRows1(v);
    } else if v < 48 {
      CharOfTableRows2(v);
    } else {
      CharOfTableRows3(v);
    }
    ValueOfCharOf(v);
  }

  /** The four characters for three bytes x, y, z. */
  function EncodeGroup(x: byte, y: byte, z: byte): (r: string)
    ensures |r| == 4
  {
    [CharOf(x / 4), CharOf(x % 4 * 16 + y / 16), CharOf(y % 16 * 4 + z / 64), CharOf(z % 64)]
  }

  /** The final group for one leftover byte: two characters and "==". */
  function EncodeOneLeft(x: byte): (r: string)
    ensures |r| == 4
  {
    [CharOf(x / 4), CharOf(x % 4 * 16), '=', '=']
  }

  /** The final group for two leftover bytes: three characters and "=". */
  function EncodeTwoLeft(x: byte, y: byte): (r: string)
    ensures |r| == 4
  {
    [CharOf(x / 4), CharOf(x % 4 * 16 + y / 16), CharOf(y % 16 * 4), '=']
  }

  /** b64encode(b), as text. */
  function Encode(b: seq<byte>): (r: string)
    ensures |r| == 4 * ((|b| + 2) / 3)
    decreases |b|
  {
    if |b| == 0 then []
    else if |b| == 1 then EncodeOneLeft(b[0])
    else if |b| == 2 then EncodeTwoLeft(b[0], b[1])
    else EncodeGroup(b[0], b[1], b[2]) + Encode(b[3..])
  }

  /** The three bytes that four 6-bit values carry. */
  function Join(v0: int, v1: int, v2: int, v3: int): (r: seq<byte>)
    requires 0 <= v0 < 64 && 0 <= v1 < 64 && 0 <= v2 < 64 && 0 <= v3 < 64
    ensures |r| == 3
  {
    [v0 * 4 + v1 / 16, v1 % 16 * 16 + v2 / 4, v2 % 4 * 64 + v3]
  }

  /** Decodes one group of four alphabet characters. */
  function DecodeGroup(s: string): Option<seq<byte>>
    requires |s| == 4
  {
    if IsAlphabetChar(s[0]) && IsAlphabetChar(s[1]) && IsAlphabetChar(s[2]) && IsAlphabetChar(s[3]) then
      Some(Join(ValueOf(s[0]).value, ValueOf(s[1]).value, ValueOf(s[2]).value, ValueOf(s[3]).value))
    else None
  }

  /** Decodes the final group of four characters, which may end in "=" or "==". */
  function DecodeLastGroup(s: string): Option<seq<byte>>
    requires |s| == 4
  {
    if !IsAlphabetChar(s[0]) || !IsAlphabetChar(s[1]) then None
    else if s[2] == '=' && s[3] == '=' then Some(Join(ValueOf(s[0]).value, ValueOf(s[1]).value, 0, 0)[..1])
    else if IsAlphabetChar(s[2]) && s[3] == '=' then
      Some(Join(ValueOf(s[0]).value, ValueOf(s[1]).value, ValueOf(s[2]).value, 0)[..2])
    else DecodeGroup(s)
  }

  /** b64decode(s) for canonical input; None where the text is not base 64. */
  function Decode(s: string): Option<seq<byte>>
    decreases |s|
  {
    if |s| == 0 then Some([])
    else if |s| < 4 then None
    else if |s| == 4 then DecodeLastGroup(s)
    else
      var g := DecodeGroup(s[..4]);
      var rest := Decode(s[4..]);
      if g.Some? && rest.Some? then Some(g.value + rest.value) else None
  }

  lemma Split4(a: int, b: int)
    requires 0 <= b < 4
    ensures (a * 4 + b) / 4 == a && (a * 4 + b) % 4 == b
  {
  }

  lemma Split16(a: int, b: int)
    requires 0 <= b < 16
    ensures (a * 16 + b) / 16 == a && (a * 16 + b) % 16 == b
  {
  }

  /** Joining the 6-bit values of a group gives back its three bytes. */
  lemma JoinSplit(x: byte, y: byte, z: byte)
    ensures Join(x / 4, x % 4 * 16 + y / 16, y % 16 * 4 + z / 64, z % 64) == [x, y, z]
  {
    Split16(x % 4, y / 16);
    Split4(y % 16, z / 64);
  }

  lemma DecodeEncodeGroup(x: byte, y: byte, z: byte)
    ensures DecodeGroup(EncodeGroup(x, y, z)) == Some([x, y, z])
    ensures DecodeLastGroup(EncodeGroup(x, y, z)) == Some([x, y, z])
  {
    ValueOfCharOf(x / 4);
    ValueOfCharOf(x % 4 * 16 + y / 16);
    ValueOfCharOf(y % 16 * 4 + z / 64);
    ValueOfCharOf(z % 64);
    JoinSplit(x, y, z);
  }

  lemma DecodeOneLeft(x: byte)
    ensures DecodeLastGroup(EncodeOneLeft(x)) == Some([x])
  {
    var s := EncodeOneLeft(x);
    ValueOfCharOf(x / 4);
    ValueOfCharOf(x % 4 * 16);
    Split16(x % 4, 0);
    assert IsAlphabetChar(s[0]) && IsAlphabetChar(s[1]);
    assert s[2] == '=' && s[3] == '=';
    var j := Join(x / 4, x % 4 * 16, 0, 0);
    assert j[0] == x;
    assert DecodeLastGroup(s) == Some(j[..1]);
    assert j[..1] == [x];
  }

  lemma DecodeTwoLeft(x: byte, y: byte)
    ensures DecodeLastGroup(EncodeTwoLeft(x, y)) == Some([x, y])
  {
    ValueOfCharOf(x / 4);
    ValueOfCharOf(x % 4 * 16 + y / 16);
    ValueOfCharOf(y % 16 * 4);
    Split16(x % 4, y / 16);
    Split4(y % 16, 0);
    var s := EncodeTwoLeft(x, y);
    assert IsAlphabetChar(s[0]) && IsAlphabetChar(s[1]) && IsAlphabetChar(s[2]) && s[3] == '=';
    var j := Join(x / 4, x % 4 * 16 + y / 16, y % 16 * 4, 0);
    assert j[0] == x && j[1] == y;
    assert DecodeLastGroup(s) == Some(j[..2]);
    assert j[..2] == [x, y];
  }

  /** Decoding a text longer than one group: the first group, then the rest. */
  lemma DecodeFirstGroup(g: string, rest: string, x: seq<byte>, y: seq<byte>)
    requires |g| == 4 && |rest| > 0
    requires DecodeGroup(g) == Some(x) && Decode(rest) == Some(y)
    ensures Decode(g + rest) == Some(x + y)
  {
    var s := g + rest;
    assert s[..4] == g && s[4..] == rest;
  }

  lemma EncodeLong(b: seq<byte>)
    requires |b| > 3
    ensures Encode(b) == EncodeGroup(b[0], b[1], b[2]) + Encode(b[3..])
    ensures |Encode(b[3..])| > 0
  {
  }

  lemma DecodeOneGroupText(s: string)
    requires |s| == 4
    ensures Decode(s) == DecodeLastGroup(s)
  {
  }

  lemma EncodeOneByte(b: seq<byte>)
    requires |b| == 1
    ensures Encode(b) == EncodeOneLeft(b[0])
  {
  }

  lemma EncodeTwoBytes(b: seq<byte>)
    requires |b| == 2
    ensures Encode(b) == EncodeTwoLeft(b[0], b[1])
  {
  }

  lemma EncodeThreeBytes(b: seq<byte>)
    requires |b| == 3
    ensures Encode(b) == EncodeGroup(b[0], b[1], b[2])
  {
    assert Encode(b[3..]) == [];
  }

  lemma DecodeEncodeOne(b: seq<byte>)
    requires |b| == 1
    ensures Decode(Encode(b)) == Some(b)
  {
    EncodeOneByte(b);
    DecodeOneLeft(b[0]);
    DecodeOneGroupText(EncodeOneLeft(b[0]));
    assert b == [b[0]];
  }

  lemma DecodeEncodeTwo(b: seq<byte>)
    requires |b| == 2
    ensures Decode(Encode(b)) == Some(b)
  {
    EncodeTwoBytes(b);
    DecodeTwoLeft(b[0], b[1]);
    DecodeOneGroupText(EncodeTwoLeft(b[0], b[1]));
    assert b == [b[0], b[1]];
  }

  lemma DecodeSingleGroup(x: byte, y: byte, z: byte)
    ensures Decode(EncodeGroup(x, y, z)) == Some([x, y, z])
  {
    DecodeEncodeGroup(x, y, z);
    DecodeOneGroupText(EncodeGroup(x, y, z));
  }

  lemma DecodeEncodeThree(b: seq<byte>)
    requires |b| == 3
    ensures Decode(Encode(b)) == Some(b)
  {
    EncodeThreeBytes(b);
    DecodeSingleGroup(b[0], b[1], b[2]);
    assert b == [b[0], b[1], b[2]];
  }

  lemma DecodeGroupThenRest(b: seq<byte>)
    requires |b| > 3
    requires Decode(Encode(b[3..])) == Some(b[3..])
    ensures Decode(EncodeGroup(b[0], b[1], b[2]) + Encode(b[3..])) == Some([b[0], b[1], b[2]] + b[3..])
  {
    EncodeLong(b);
    DecodeEncodeGroup(b[0], b[1], b[2]);
    DecodeFirstGroup(EncodeGroup(b[0], b[1], b[2]), Encode(b[3..]), [b[0], b[1], b[2]], b[3..]);
  }

  lemma SplitThree(b: seq<byte>)
    requires |b| > 3
    ensures [b[0], b[1], b[2]] + b[3..] == b
  {
  }

  lemma DecodeEncodeLong(b: seq<byte>)
    requires |b| > 3
    requires Decode(Encode(b[3..])) == Some(b[3..])
    ensures Decode(Encode(b)) == Some(b)
  {
    EncodeLong(b);
    DecodeGroupThenRest(b);
    SplitThree(b);
  }

  /** Decoding undoes encoding, for every byte string. */
  lemma {:induction false} DecodeEncode(b: seq<byte>)
    ensures Decode(Encode(b)) == Some(b)
    decreases |b|
  {
    if |b| == 0 {
    } else if |b| == 1 {
      DecodeEncodeOne(b);
    } else if |b| == 2 {
      DecodeEncodeTwo(b);
    } else if |b| == 3 {
      DecodeEncodeThree(b);
    } else {
      DecodeEncode(b[3..]);
      DecodeEncodeLong(b);
    }
  }

  /** Different byte strings never share an encoding. */
  lemma EncodeInjective(a: seq<byte>, b: seq<byte>)
    requires Encode(a) == Encode(b)
    ensures a == b
  {
    DecodeEncode(a);
    DecodeEncode(b);
  }

  /**
   * The shape of an encoding whose input length leaves a remainder of two
   * when divided by three: alphabet characters throughout, then one "=".
   */
  lemma {:induction false} EncodeShapeTwoLeft(b: seq<byte>)
    requires |b| % 3 == 2
    ensures var r := Encode(b);
      && r[|r| - 1] == '='
      && forall i :: 0 <= i < |r| - 1 ==> IsAlphabetChar(r[i])
    decreases |b|
  {
    if |b| > 2 {
      EncodeShapeTwoLeft(b[3..]);
      var r := Encode(b);
      assert r[4..] == Encode(b[3..]);
      forall i | 0 <= i < |r| - 1
        ensures IsAlphabetChar(r[i])
      {
        if i >= 4 {
          assert r[i] == Encode(b[3..])[i - 4];
        }
      }
    }
  }

  // The test vectors of section 10 of RFC 4648, on the bytes of "foobar".

  lemma EncodeGroupFoo()
    ensures EncodeGroup(0x66, 0x6F, 0x6F) == "Zm9v"
  {
    assert 0x66 / 4 == 25 && 0x66 % 4 * 16 + 0x6F / 16 == 38;
    assert 0x6F % 16 * 4 + 0x6F / 64 == 61 && 0x6F % 64 == 47;
    CharOfIsAlphabet(25);
    CharOfIsAlphabet(38);
    CharOfIsAlphabet(61);
    CharOfIsAlphabet(47);
  }

  lemma EncodeGroupBar()
    ensures EncodeGroup(0x62, 0x61, 0x72) == "YmFy"
  {
    assert 0x62 / 4 == 24 && 0x62 % 4 * 16 + 0x61 / 16 == 38;
    assert 0x61 % 16 * 4 + 0x72 / 64 == 5 && 0x72 % 64 == 50;
    CharOfIsAlphabet(24);
    CharOfIsAlphabet(38);
    CharOfIsAlphabet(5);
    CharOfIsAlphabet(50);
  }

  lemma EncodeVectorsShort()
    ensures Encode([]) == ""
    ensures Encode([0x66]) == "Zg=="
    ensures Encode([0x66, 0x6F]) == "Zm8="
    ensures Encode([0x66, 0x6F, 0x6F]) == "Zm9v"
  {
    EncodeOneByte([0x66]);
    assert 0x66 / 4 == 25 && 0x66 % 4 * 16 == 32;
    CharOfIsAlphabet(25);
    CharOfIsAlphabet(32);
    EncodeTwoBytes([0x66, 0x6F]);
    assert 0x66 % 4 * 16 + 0x6F / 16 == 38 && 0x6F % 16 * 4 == 60;
    CharOfIsAlphabet(38);
    CharOfIsAlphabet(60);
    EncodeThreeBytes([0x66, 0x6F, 0x6F]);
    EncodeGroupFoo();
  }

  lemma EncodeOneLeftB()
    ensures EncodeOneLeft(0x62) == "Yg=="
  {
    assert 0x62 / 4 == 24 && 0x62 % 4 * 16 == 32;
    CharOfIsAlphabet(24);
    CharOfIsAlphabet(32);
  }

  lemma EncodeTwoLeftBa()
    ensures EncodeTwoLeft(0x62, 0x61) == "YmE="
  {
    assert 0x62 / 4 == 24 && 0x62 % 4 * 16 + 0x61 / 16 == 38 && 0x61 % 16 * 4 == 4;
    CharOfIsAlphabet(24);
    CharOfIsAlphabet(38);
    CharOfIsAlphabet(4);
  }

  lemma EncodeVectorFoob()
    ensures Encode([0x66, 0x6F, 0x6F, 0x62]) == "Zm9vYg=="
  {
    var b: seq<byte> := [0x66, 0x6F, 0x6F, 0x62];
    EncodeLong(b);
    assert b[3..] == [0x62];
    EncodeOneByte(b[3..]);
    EncodeGroupFoo();
    EncodeOneLeftB();
  }

  lemma EncodeVectorFooba()
    ensures Encode([0x66, 0x6F, 0x6F, 0x62, 0x61]) == "Zm9vYmE="
  {
    var b: seq<byte> := [0x66, 0x6F, 0x6F, 0x62, 0x61];
    EncodeLong(b);
    assert b[3..] == [0x62, 0x61];
    EncodeTwoBytes(b[3..]);
    EncodeGroupFoo();
    EncodeTwoLeftBa();
  }

  lemma EncodeVectorFoobar()
    ensures Encode([0x66, 0x6F, 0x6F, 0x62, 0x61, 0x72]) == "Zm9vYmFy"
  {
    var b: seq<byte> := [0x66, 0x6F, 0x6F, 0x62, 0x61, 0x72];
    EncodeLong(b);
    assert b[3..] == [0x62, 0x61, 0x72];
    EncodeThreeBytes(b[3..]);
    EncodeGroupFoo();
    EncodeGroupBar();
  }

  /** All seven test vectors of section 10 of RFC 4648. */
  lemma EncodeTestVectors()
    ensures Encode([]) == ""
    ensures Encode([0x66]) == "Zg=="
    ensures Encode([0x66, 0x6F]) == "Zm8="
    ensures Encode([0x66, 0x6F, 0x6F]) == "Zm9v"
    ensures Encode([0x66, 0x6F, 0x6F, 0x62]) == "Zm9vYg=="
    ensures Encode([0x66, 0x6F, 0x6F, 0x62, 0x61]) == "Zm9vYmE="
    ensures Encode([0x66, 0x6F, 0x6F, 0x62, 0x61, 0x72]) == "Zm9vYmFy"
  {
    EncodeVectorsShort();
    EncodeVectorFoob();
    EncodeVectorFooba();
    EncodeVectorFoobar();
  }
}
