/** The file name a generated image is saved under:
    `sam-gimini-${Date.now()}.png`, with the clock reading passed in. */
module DownloadFile {

  const NamePrefix: string := "sam-gimini-"
  const NameSuffix: string := ".png"

  /** JavaScript prints integers below this bound in plain decimal and larger
      ones in exponent form. */
  const PlainDecimalBound: nat := 1_000_000_000_000_000_000_000

  predicate IsDigits(s: string) {
    forall i :: 0 <= i < |s| ==> '0' <= s[i] <= '9'
  }

  function DigitChar(d: nat): (c: char)
    requires d < 10
  {
    (d + '0' as int) as char
  }

  function DigitValue(c: char): nat
    requires '0' <= c <= '9'
  {
    c as int - '0' as int
  }

  /** How JavaScript renders a non-negative integer Number below 10^21 in a
      template literal: its decimal digits, with no leading zero. */
  function Decimal(n: nat): (s: string)
    ensures |s| >= 1 && IsDigits(s)
    ensures s[0] == '0' ==> s == "0"
  {
    if n < 10 then [DigitChar(n)] else Decimal(n / 10) + [DigitChar(n % 10)]
  }

  /** The number a string of decimal digits denotes. */
  function DecimalValue(s: string): nat
    requires IsDigits(s)
  {
    if s == [] then 0 else 10 * DecimalValue(s[..|s| - 1]) + DigitValue(s[|s| - 1])
  }

  /** Reading the rendered digits back gives the number. */
  lemma {:induction false} DecimalRoundTrip(n: nat)
    ensures DecimalValue(Decimal(n)) == n
  {
    if n >= 10 {
      DecimalRoundTrip(n / 10);
      var s := Decimal(n);
      assert s[..|s| - 1] == Decimal(n / 10);
    }
  }

  /** The download name for a clock reading in milliseconds. */
  function FileName(timestamp: nat): (name: string)
    requires timestamp < PlainDecimalBound
    ensures |name| == |NamePrefix| + |Decimal(timestamp)| + |NameSuffix|
  {
    NamePrefix + Decimal(timestamp) + NameSuffix
  }

  /** Every download name is the fixed prefix, then digits that read back as
      the timestamp, then the `.png` extension. */
  lemma FileNameParts(timestamp: nat)
    requires timestamp < PlainDecimalBound
    ensures var name := FileName(timestamp);
      var digits := name[|NamePrefix|..|name| - |NameSuffix|];
      name[..|NamePrefix|] == NamePrefix &&
      name[|name| - |NameSuffix|..] == NameSuffix &&
      digits == Decimal(timestamp) &&
      |digits| >= 1 && IsDigits(digits) && DecimalValue(digits) == timestamp
  {
    var name := FileName(timestamp);
    assert name[|NamePrefix|..|name| - |NameSuffix|] == Decimal(timestamp);
    DecimalRoundTrip(timestamp);
  }

  /** Downloads made at different instants get different names. */
  lemma FileNameInjective(a: nat, b: nat)
    requires a < PlainDecimalBound && b < PlainDecimalBound
    requires FileName(a) == FileName(b)
    ensures a == b
  {
    FileNameParts(a);
    FileNameParts(b);
  }
}
