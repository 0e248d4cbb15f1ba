/** Bytes, white space, decimal digits, and the 32-bit saturating arithmetic of the checksum loops. */
module Words {

  type Byte = b: int | 0 <= b < 256

  const U32_MAX: nat := 0xFFFF_FFFF

  function SaturatingMul(a: nat, b: nat): nat
  {
    if a * b <= U32_MAX then a * b else U32_MAX
  }

  function SaturatingAdd(a: nat, b: nat): nat
  {
    if a + b <= U32_MAX then a + b else U32_MAX
  }

  /** Unicode's White_Space property. */
  predicate IsSpace(c: char)
  {
    || '\U{9}' <= c <= '\U{D}'
    || c in {' ', '\U{85}', '\U{A0}', '\U{1680}', '\U{2028}', '\U{2029}', '\U{202F}', '\U{205F}', '\U{3000}'}
    || '\U{2000}' <= c <= '\U{200A}'
  }

  predicate AllDigits(s: string)
  {
    forall i :: 0 <= i < |s| ==> '0' <= s[i] <= '9'
  }

  /** The number decimal digits stand for. */
  function Magnitude(digits: string): nat
    requires AllDigits(digits)
  {
    if digits == "" then 0
    else 10 * Magnitude(digits[..|digits| - 1]) + (digits[|digits| - 1] - '0') as nat
  }
}
