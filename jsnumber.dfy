/** The JavaScript number built-ins the hex decoder relies on: parseInt with radix 16 and
    the decimal rendering of an integer in a template string. */
module JsNumber {
  import opened JsString

  /** A JavaScript number as far as parseInt can produce one: NaN or an integer. */
  datatype Number = NaN | Int(value: int)

  predicate IsHexDigit(c: char) {
    ('0' <= c <= '9') || ('a' <= c <= 'f') || ('A' <= c <= 'F')
  }

  function HexDigitValue(c: char): (v: nat)
    requires IsHexDigit(c)
    ensures v < 16
  {
    if '0' <= c <= '9' then c as int - '0' as int
    else if 'a' <= c <= 'f' then c as int - 'a' as int + 10
    else c as int - 'A' as int + 10
  }

  predicate AllHexDigits(s: string) {
    forall k :: 0 <= k < |s| ==> IsHexDigit(s[k])
  }

  function Pow16(n: nat): (p: nat)
    ensures p >= 1
  {
    if n == 0 then 1 else 16 * Pow16(n - 1)
  }

  /** Length of the longest prefix of `s` made of hexadecimal digits. */
  function HexDigitsPrefix(s: string): (n: nat)
    ensures n <= |s|
    ensures AllHexDigits(s[..n])
    ensures n < |s| ==> !IsHexDigit(s[n])
  {
    if |s| == 0 || !IsHexDigit(s[0]) then 0
    else
      var m := HexDigitsPrefix(s[1..]);
      assert s[..1 + m] == [s[0]] + s[1..][..m];
      1 + m
  }

  /** The value of a string of hexadecimal digits, most significant first. */
  function HexValue(s: string): (v: nat)
    requires AllHexDigits(s)
    ensures v < Pow16(|s|)
  {
    if |s| == 0 then 0
    else
      var high := HexValue(s[..|s| - 1]);
      var low := HexDigitValue(s[|s| - 1]);
      assert 16 * high + low < 16 * Pow16(|s| - 1) by {
        assert high + 1 <= Pow16(|s| - 1);
        assert 16 * (high + 1) <= 16 * Pow16(|s| - 1);
      }
      16 * high + low
  }

  /** Drops one leading `+` or `-`. */
  function StripSign(s: string): (r: string)
    ensures |r| == if |s| > 0 && (s[0] == '-' || s[0] == '+') then |s| - 1 else |s|
  {
    if |s| > 0 && (s[0] == '-' || s[0] == '+') then s[1..] else s
  }

  /** Drops a leading `0x` or `0X`, which radix 16 allows. */
  function StripHexPrefix(s: string): (r: string)
    ensures |r| <= |s|
  {
    if |s| >= 2 && s[0] == '0' && (s[1] == 'x' || s[1] == 'X') then s[2..] else s
  }

  lemma HexValuePair(s: string)
    requires |s| == 2 && AllHexDigits(s)
    ensures HexValue(s) == 16 * HexDigitValue(s[0]) + HexDigitValue(s[1])
  {
    assert s[..1] == [s[0]];
    assert s[..1][..0] == [];
  }

  /** parseInt(s, 16): skip leading whitespace, read an optional sign and an optional
      `0x`/`0X` prefix, then the longest run of hexadecimal digits; NaN when that run
      is empty. */
  function ParseIntHex(s: string): Number
  {
    var unspaced := s[LeadingSpaces(s)..];
    var negative := |unspaced| > 0 && unspaced[0] == '-';
    var digits := StripHexPrefix(StripSign(unspaced));
    var n := HexDigitsPrefix(digits);
    if n == 0 then NaN
    else
      var m: int := HexValue(digits[..n]);
      Int(if negative then -m else m)
  }

  /** A non-empty string of hexadecimal digits parses to its value. */
  lemma ParseIntHexDigits(s: string)
    requires |s| > 0 && AllHexDigits(s)
    ensures ParseIntHex(s) == Int(HexValue(s))
  {
    assert IsHexDigit(s[0]);
    assert !IsJsSpace(s[0]);
    assert LeadingSpaces(s) == 0;
    var unspaced := s[LeadingSpaces(s)..];
    assert unspaced == s;
    assert s[0] != '-' && s[0] != '+';
    assert StripSign(s) == s;
    assert |s| >= 2 ==> IsHexDigit(s[1]) && s[1] != 'x' && s[1] != 'X';
    assert StripHexPrefix(s) == s;
    var n := HexDigitsPrefix(s);
    assert n == |s|;
    assert s[..n] == s;
  }

  /** At most two characters yield NaN or an integer in -15..255: a sign leaves room for
      only one digit, and two digits are at most ff. */
  lemma ParseIntHexShort(s: string)
    requires |s| <= 2
    ensures ParseIntHex(s).Int? ==> -15 <= ParseIntHex(s).value <= 255
  {
    var unspaced := s[LeadingSpaces(s)..];
    var negative := |unspaced| > 0 && unspaced[0] == '-';
    var digits := StripHexPrefix(StripSign(unspaced));
    var n := HexDigitsPrefix(digits);
    assert n <= |digits| <= |unspaced| <= 2;
    assert negative ==> n <= 1;
    if n > 0 {
      var m := HexValue(digits[..n]);
      assert m < Pow16(n);
      assert Pow16(1) == 16 && Pow16(2) == 256;
    }
  }

  /** The decimal digits of `n`, most significant first. */
  function DecimalString(n: nat): (s: string)
    ensures |s| >= 1
    ensures forall k :: 0 <= k < |s| ==> '0' <= s[k] <= '9'
    ensures s[0] == '0' ==> n == 0
  {
    var d := ['0' + (n % 10) as char];
    if n < 10 then d else DecimalString(n / 10) + d
  }

  /** A number in a template string: `NaN`, or the decimal digits with a leading `-`
      for negative values. */
  function NumberToString(x: Number): string
  {
    match x
    case NaN => "NaN"
    case Int(v) => if v < 0 then "-" + DecimalString(-v) else DecimalString(v)
  }

  /** Reading decimal digits back: the inverse of DecimalString. */
  function DecimalValue(s: string): nat
    requires forall k :: 0 <= k < |s| ==> '0' <= s[k] <= '9'
  {
    if |s| == 0 then 0
    else 10 * DecimalValue(s[..|s| - 1]) + (s[|s| - 1] as int - '0' as int)
  }

  lemma {:induction false} DecimalRoundTrip(n: nat)
    ensures DecimalValue(DecimalString(n)) == n
  {
    var d := ['0' + (n % 10) as char];
    if n >= 10 {
      DecimalRoundTrip(n / 10);
      var s := DecimalString(n / 10) + d;
      assert s[..|s| - 1] == DecimalString(n / 10);
    }
  }

  /** Distinct naturals render differently. */
  lemma DecimalInjective(m: nat, n: nat)
    requires DecimalString(m) == DecimalString(n)
    ensures m == n
  {
    DecimalRoundTrip(m);
    DecimalRoundTrip(n);
  }
}
