/** The few pieces of Go's strings, string conversion and fmt behaviour the program relies on. */
module GoStrings {

  newtype byte = b: int | 0 <= b < 256

  /** strings.HasSuffix: `s` ends with `suffix`. */
  predicate HasSuffix(s: string, suffix: string): (r: bool)
    ensures r <==> |suffix| <= |s| && s == s[..|s| - |suffix|] + suffix
  {
    |suffix| <= |s| && s[|s| - |suffix|..] == suffix
  }

  /** Any string followed by `suffix` has that suffix. */
  lemma HasSuffixOfConcat(stem: string, suffix: string)
    ensures HasSuffix(stem + suffix, suffix)
  {
  }

  /** The UTF-8 encoding of one Unicode scalar value. */
  function EncodeRune(c: char): (r: seq<byte>)
    ensures 1 <= |r| <= 4
    ensures |r| == 1 <==> c as int < 0x80
    ensures |r| == 1 ==> r[0] as int == c as int
    ensures c as int >= 0x80 ==> forall i :: 1 <= i < |r| ==> 0x80 <= r[i] < 0xC0
  {
    var n := c as int;
    if n < 0x80 then
      [n as byte]
    else if n < 0x800 then
      [(0xC0 + n / 0x40) as byte, (0x80 + n % 0x40) as byte]
    else if n < 0x10000 then
      [(0xE0 + n / 0x1000) as byte, (0x80 + n / 0x40 % 0x40) as byte, (0x80 + n % 0x40) as byte]
    else
      [(0xF0 + n / 0x40000) as byte, (0x80 + n / 0x1000 % 0x40) as byte,
       (0x80 + n / 0x40 % 0x40) as byte, (0x80 + n % 0x40) as byte]
  }

  /** The Go conversion `[]byte(s)`: the bytes of the string's UTF-8 encoding. */
  function ToBytes(s: string): (r: seq<byte>)
    ensures |s| <= |r| <= 4 * |s|
  {
    if s == [] then [] else EncodeRune(s[0]) + ToBytes(s[1..])
  }

  predicate IsAscii(s: string)
  {
    forall i :: 0 <= i < |s| ==> s[i] as int < 0x80
  }

  /** On an ASCII string, such as a chart path spelled in ASCII, `[]byte(s)` is the string itself, byte for character. */
  lemma {:induction false} ToBytesAscii(s: string)
    requires IsAscii(s)
    ensures |ToBytes(s)| == |s|
    ensures forall i :: 0 <= i < |s| ==> ToBytes(s)[i] as int == s[i] as int
  {
    if s != [] {
      assert IsAscii(s[1..]) by {
        forall i | 0 <= i < |s[1..]| ensures s[1..][i] as int < 0x80 {
          assert s[1..][i] == s[i + 1];
        }
      }
      ToBytesAscii(s[1..]);
    }
  }

  function DigitChar(d: nat): (c: char)
    requires d < 10
    ensures '0' <= c <= '9'
  {
    ('0' as int + d) as char
  }

  predicate IsDecimal(s: string)
  {
    forall i :: 0 <= i < |s| ==> '0' <= s[i] <= '9'
  }

  /** The number a string of decimal digits denotes. */
  function DecimalValue(s: string): nat
    requires IsDecimal(s)
  {
    if s == [] then 0
    else 10 * DecimalValue(s[..|s| - 1]) + (s[|s| - 1] as int - '0' as int)
  }

  /** fmt's `%d` of a non-negative integer: its shortest decimal numeral. */
  function FormatInt(n: nat): (r: string)
    ensures 1 <= |r|
    ensures IsDecimal(r)
    ensures |r| > 1 ==> r[0] != '0'
    decreases n
  {
    if n < 10 then [DigitChar(n)] else FormatInt(n / 10) + [DigitChar(n % 10)]
  }

  /** Reading the numeral back gives the number that was formatted. */
  lemma {:induction false} FormatIntRoundTrip(n: nat)
    ensures DecimalValue(FormatInt(n)) == n
  {
    if n >= 10 {
      FormatIntRoundTrip(n / 10);
      var r := FormatInt(n);
      assert r[..|r| - 1] == FormatInt(n / 10);
    }
  }
}
