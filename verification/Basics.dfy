/** Options, results, machine integers, bytes and decimal text shared by every module. */
module Basics {

  datatype Option<+T> = None | Some(value: T)

  datatype Result<+T, +E> = Ok(value: T) | Err(error: E)

  const U64_MAX: nat := 0xFFFF_FFFF_FFFF_FFFF
  const U32_MAX: nat := 0xFFFF_FFFF

  type U64 = n: int | 0 <= n <= U64_MAX
  type U32 = n: int | 0 <= n <= U32_MAX

  type Byte = b: int | 0 <= b < 256
  type Bytes = seq<Byte>

  /** A 16-byte identity. */
  type Id16 = s: Bytes | |s| == 16 witness seq(16, _ => 0)

  /** `usize::checked_add` on a 64-bit platform. */
  function CheckedAdd(a: nat, b: nat): (r: Option<nat>)
    ensures r.Some? <==> a + b <= U64_MAX
  {
    if a + b <= U64_MAX then Some(a + b) else None
  }

  function Min(a: int, b: int): int { if a <= b then a else b }

  function Max(a: int, b: int): int { if a <= b then b else a }

  // ---------------------------------------------------------------- decimal text

  /** The decimal digits of a natural number, without leading zeros. */
  function Dec(n: nat): (s: string)
    ensures |s| >= 1
    ensures forall i :: 0 <= i < |s| ==> '0' <= s[i] <= '9'
  {
    if n < 10 then [Digit(n)] else Dec(n / 10) + [Digit(n % 10)]
  }

  function Digit(d: nat): (c: char)
    requires d < 10
    ensures '0' <= c <= '9' && c as int - '0' as int == d
  {
    ('0' as int + d) as char
  }

  predicate IsDigit(c: char) { '0' <= c <= '9' }

  /** The value of a string of decimal digits. */
  function DecValue(s: string): nat
    requires forall i :: 0 <= i < |s| ==> IsDigit(s[i])
  {
    if s == [] then 0 else 10 * DecValue(s[..|s| - 1]) + DigitValue(s[|s| - 1])
  }

  function DigitValue(c: char): nat
    requires IsDigit(c)
  {
    c as int - '0' as int
  }

  lemma {:induction false} DecValueOfDec(n: nat)
    ensures DecValue(Dec(n)) == n
  {
    if n < 10 {
      assert [Digit(n)][..0] == [];
    } else {
      DecValueOfDec(n / 10);
      assert Dec(n)[..|Dec(n)| - 1] == Dec(n / 10);
    }
  }

  /** A larger number never prints shorter. */
  lemma {:induction false} DecWidthMonotone(a: nat, b: nat)
    requires a <= b
    ensures |Dec(a)| <= |Dec(b)|
  {
    if b >= 10 && a >= 10 { DecWidthMonotone(a / 10, b / 10); }
  }

  /** The bytes of a text whose characters all stand for single bytes. */
  function AsBytes(s: string): (b: Bytes)
    ensures |b| == |s|
  {
    seq(|s|, i requires 0 <= i < |s| => s[i] as int % 256)
  }
}
