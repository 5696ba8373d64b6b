/**
 * Rust's `format!` with the `02x` format spec for a `u8`: two lower-case hexadecimal
 * digits, zero-padded, and the decoder a reader of the output would use.
 */
module Hex {

  import opened Wrappers
  import opened Vectors

  predicate IsLowerHexDigit(c: char)
  {
    ('0' <= c <= '9') || ('a' <= c <= 'f')
  }

  /** The digit for a value below sixteen. */
  function Digit(d: int): (c: char)
    requires 0 <= d < 16
    ensures IsLowerHexDigit(c)
  {
    if d < 10 then (48 + d) as char else (97 + d - 10) as char
  }

  /** The value of a lower-case hexadecimal digit. */
  function DigitValue(c: char): (d: int)
    requires IsLowerHexDigit(c)
    ensures 0 <= d < 16
    ensures Digit(d) == c
  {
    if c <= '9' then c as int - 48 else c as int - 97 + 10
  }

  /** The `02x` format spec applied to a `u8`. */
  function Hex2(n: Byte): (s: string)
    ensures |s| == 2 && IsLowerHexDigit(s[0]) && IsLowerHexDigit(s[1])
    ensures s[0] == '0' <==> n < 16
  {
    [Digit(n / 16), Digit(n % 16)]
  }

  /** Reads back two lower-case hexadecimal digits; anything else is refused. */
  function Unhex2(s: string): (r: Option<Byte>)
    ensures r.Some? <==> |s| == 2 && IsLowerHexDigit(s[0]) && IsLowerHexDigit(s[1])
  {
    if |s| == 2 && IsLowerHexDigit(s[0]) && IsLowerHexDigit(s[1])
    then Some(16 * DigitValue(s[0]) + DigitValue(s[1]))
    else None
  }

  /** Decoding the rendering gives back the original byte. */
  lemma Hex2RoundTrip(n: Byte)
    ensures Unhex2(Hex2(n)) == Some(n)
  {
    var s := Hex2(n);
    assert DigitValue(s[0]) == n / 16 by { DigitInverse(n / 16); }
    assert DigitValue(s[1]) == n % 16 by { DigitInverse(n % 16); }
  }

  /** Every two-digit lower-case string is the rendering of what it decodes to. */
  lemma Unhex2RoundTrip(s: string)
    requires Unhex2(s).Some?
    ensures Hex2(Unhex2(s).value) == s
  {
    var n := Unhex2(s).value;
    assert n / 16 == DigitValue(s[0]) && n % 16 == DigitValue(s[1]);
  }

  /** Distinct bytes are rendered differently. */
  lemma Hex2Injective(m: Byte, n: Byte)
    requires Hex2(m) == Hex2(n)
    ensures m == n
  {
    Hex2RoundTrip(m);
    Hex2RoundTrip(n);
  }

  /** The `02x` format spec pads with a zero and uses lower-case letters. */
  lemma Hex2Examples()
    ensures Hex2(36) == "24" && Hex2(5) == "05" && Hex2(171) == "ab" && Hex2(255) == "ff"
  {
  }

  /** Reading back the digit written for `d` gives `d`. */
  lemma DigitInverse(d: int)
    requires 0 <= d < 16
    ensures DigitValue(Digit(d)) == d
  {
  }
}
