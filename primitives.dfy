/** Shared vocabulary of the model: nullable values, the .NET string tests the
    source relies on (String.IsNullOrEmpty, String.IsNullOrWhiteSpace), bytes
    with wrap-around, and the decimal rendering of an unsigned counter. */
module Primitives {

  /** A reference that may be null in the source. */
  datatype Option<+T> = None | Some(value: T)

  /** An 8-bit unsigned field (TimeToLive, HopsCount). */
  type byte = x: int | 0 <= x < 256

  /** C# `b++` on a byte: unchecked, wraps from 255 to 0. */
  function IncByte(b: byte): (r: byte)
    ensures b < 255 ==> r == b + 1
    ensures b == 255 ==> r == 0
  {
    (b + 1) % 256
  }

  /** The characters for which .NET's Char.IsWhiteSpace holds: the
      SpaceSeparator, LineSeparator and ParagraphSeparator categories plus
      U+0009..U+000D and U+0085. */
  predicate IsWhiteSpaceChar(c: char)
  {
    || c == ' ' || ('\t' <= c <= '\r') || c == '\U{0085}' || c == '\U{00A0}'
    || c == '\U{1680}' || ('\U{2000}' <= c <= '\U{200A}') || c == '\U{2028}'
    || c == '\U{2029}' || c == '\U{202F}' || c == '\U{205F}' || c == '\U{3000}'
  }

  /** String.IsNullOrEmpty. */
  predicate IsNullOrEmpty(s: Option<string>)
  {
    s.None? || s.value == ""
  }

  /** String.IsNullOrWhiteSpace on a non-null string. */
  predicate IsBlank(s: string)
  {
    forall i :: 0 <= i < |s| ==> IsWhiteSpaceChar(s[i])
  }

  /** String.IsNullOrWhiteSpace. */
  predicate IsNullOrWhiteSpace(s: Option<string>)
  {
    s.None? || IsBlank(s.value)
  }

  function Digit(d: nat): (c: char)
    requires d < 10
    ensures '0' <= c <= '9'
  {
    ['0', '1', '2', '3', '4', '5', '6', '7', '8', '9'][d]
  }

  /** UInt64.ToString() for the invariant culture: decimal digits, no sign,
      no leading zero. */
  function Decimal(n: nat): (s: string)
    ensures 1 <= |s|
    ensures forall i :: 0 <= i < |s| ==> '0' <= s[i] <= '9'
    ensures s[|s| - 1] == Digit(n % 10)
    ensures (|s| == 1) == (n < 10)
  {
    if n < 10 then [Digit(n)] else Decimal(n / 10) + [Digit(n % 10)]
  }

  lemma DigitInjective(a: nat, b: nat)
    requires a < 10 && b < 10 && Digit(a) == Digit(b)
    ensures a == b
  {
  }

  /** Distinct counter values give distinct identifiers. */
  lemma {:induction false} DecimalInjective(a: nat, b: nat)
    requires Decimal(a) == Decimal(b)
    ensures a == b
  {
    var s := Decimal(a);
    DigitInjective(a % 10, b % 10);
    if 10 <= a {
      assert Decimal(a / 10) == s[..|s| - 1] == Decimal(b / 10);
      DecimalInjective(a / 10, b / 10);
    }
  }
}
