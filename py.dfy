/**
 * The few Python runtime notions the core relies on: bytes, the value kinds
 * a setting can hold, the exceptions the core raises, and the text that
 * str() / str.format / %s produce for a non-negative int and for None.
 */
module Py {
  import opened Wrappers

  /** One element of a Python `bytes` object. */
  type byte = x: int | 0 <= x < 256

  /** The exceptions the modelled code raises. */
  datatype PyError = TypeError | AttributeError

  /** A Python value as far as the core distinguishes it: str, bytes, or anything else. */
  datatype PyValue = PyStr(s: string) | PyBytes(b: seq<byte>) | PyInt(i: int) | PyNone

  predicate IsDigit(c: char) { '0' <= c <= '9' }

  predicate AllDigits(s: string) { forall i :: 0 <= i < |s| ==> IsDigit(s[i]) }

  function DigitChar(d: nat): (c: char)
    requires d < 10
    ensures IsDigit(c)
  {
    ('0' as int + d) as char
  }

  function DigitValue(c: char): (d: nat)
    requires IsDigit(c)
    ensures d < 10
  {
    c as int - '0' as int
  }

  /** str(n) for a non-negative int: decimal digits, no leading zero. */
  function StrOfNat(n: nat): (s: string)
    ensures 1 <= |s| && AllDigits(s)
    ensures |s| > 1 ==> s[0] != '0'
    ensures n < 10 <==> |s| == 1
    decreases n
  {
    if n < 10 then [DigitChar(n)] else StrOfNat(n / 10) + [DigitChar(n % 10)]
  }

  /** int(s) for a string of decimal digits. */
  function ParseNat(s: string): nat
    requires AllDigits(s)
    decreases |s|
  {
    if s == [] then 0 else ParseNat(s[..|s| - 1]) * 10 + DigitValue(s[|s| - 1])
  }

  /** int(str(n)) == n: the decimal text of a number determines it. */
  lemma {:induction false} ParseStrOfNat(n: nat)
    ensures ParseNat(StrOfNat(n)) == n
    decreases n
  {
    var s := StrOfNat(n);
    if n >= 10 {
      ParseStrOfNat(n / 10);
      assert s[..|s| - 1] == StrOfNat(n / 10);
    }
  }

  /** str(x) where x is an int or None. */
  function StrOfOptionalNat(o: Option<nat>): (s: string)
    ensures o.None? ==> s == "None"
    ensures o.Some? ==> s == StrOfNat(o.value)
    ensures o.Some? ==> AllDigits(s) && ParseNat(s) == o.value
  {
    match o
    case None => "None"
    case Some(n) => ParseStrOfNat(n); StrOfNat(n)
  }

  /** str(x) (equally '{}'.format(x)) where x is a str or None. */
  function StrOfOptionalText(o: Option<string>): (s: string)
    ensures o.Some? ==> s == o.value
    ensures o.None? ==> s == "None"
  {
    match o
    case None => "None"
    case Some(t) => t
  }

  /** Reads back what StrOfOptionalNat wrote: "None" or a decimal number. */
  function ParseOptionalNat(s: string): Option<Option<nat>>
  {
    if s == "None" then Some(None)
    else if s != [] && AllDigits(s) then Some(Some(ParseNat(s)))
    else None
  }

  lemma ParseStrOfOptionalNat(o: Option<nat>)
    ensures ParseOptionalNat(StrOfOptionalNat(o)) == Some(o)
  {
    if o.Some? {
      var s := StrOfNat(o.value);
      assert s != "None" by { assert IsDigit(s[0]); }
    }
  }
}
