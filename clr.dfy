/**
 * The few pieces of .NET semantics the services rely on: the unchecked narrowing casts to
 * `int` and `short`, `int.ToString()` for non-negative values, `char.IsWhiteSpace`,
 * `string.IsNullOrWhiteSpace` and `string.Contains`.
 */
module Clr {
  import opened Wrappers

  const TwoTo16: int := 0x1_0000
  const TwoTo32: int := 0x1_0000_0000

  /** `(short)x` in an unchecked context: the low 16 bits, read as two's complement. */
  function Int16(x: int): (r: int)
    ensures -0x8000 <= r < 0x8000
    ensures (r - x) % TwoTo16 == 0
  {
    var m := x % TwoTo16;
    if m >= 0x8000 then m - TwoTo16 else m
  }

  /** `(int)x`, and every unchecked `int` multiplication: the low 32 bits, read as two's complement. */
  function Int32(x: int): (r: int)
    ensures -0x8000_0000 <= r < 0x8000_0000
    ensures (r - x) % TwoTo32 == 0
  {
    var m := x % TwoTo32;
    if m >= 0x8000_0000 then m - TwoTo32 else m
  }

  /** A value that already fits in 16 bits is not changed by the cast. */
  lemma Int16Fits(x: int)
    requires -0x8000 <= x < 0x8000
    ensures Int16(x) == x
  {
    if x < 0 {
      assert x % TwoTo16 == x + TwoTo16;
    } else {
      assert x % TwoTo16 == x;
    }
  }

  /** A value that already fits in 32 bits is not changed by the cast. */
  lemma Int32Fits(x: int)
    requires -0x8000_0000 <= x < 0x8000_0000
    ensures Int32(x) == x
  {
    if x < 0 {
      assert x % TwoTo32 == x + TwoTo32;
    } else {
      assert x % TwoTo32 == x;
    }
  }

  /** Two values that agree modulo 2^16 cast to the same `short`. */
  lemma Int16Congruent(x: int, y: int)
    requires (x - y) % TwoTo16 == 0
    ensures Int16(x) == Int16(y)
  {
    assert x % TwoTo16 == y % TwoTo16;
  }

  /** Incrementing a `short` read back from a cast is the cast of the incremented value. */
  lemma Int16Increment(c: int)
    ensures Int16(Int16(c) + 1) == Int16(c + 1)
  {
    Int16Congruent(Int16(c) + 1, c + 1);
  }

  /** Two values that agree modulo 2^32 cast to the same `int`. */
  lemma Int32Congruent(x: int, y: int)
    requires (x - y) % TwoTo32 == 0
    ensures Int32(x) == Int32(y)
  {
    assert x % TwoTo32 == y % TwoTo32;
  }

  /** An unchecked `int` addition applied to a wrapped value wraps like the exact sum. */
  lemma Int32Add(x: int, d: int)
    ensures Int32(Int32(x) + d) == Int32(x + d)
  {
    Int32Congruent(Int32(x) + d, x + d);
  }

  /** Casting to `int` first and to `short` afterwards loses nothing more than casting to `short`. */
  lemma Int16OfInt32(x: int)
    ensures Int16(Int32(x)) == Int16(x)
  {
    assert (Int32(x) - x) % TwoTo16 == 0;
    Int16Congruent(Int32(x), x);
  }

  /** The decimal digit character for 0..9. */
  function Digit(d: nat): (c: char)
    requires d < 10
    ensures '0' <= c <= '9'
  {
    ('0' as int + d) as char
  }

  /** `n.ToString()` for a non-negative `int`: the shortest decimal numeral. */
  function NatToString(n: nat): (s: string)
    ensures 1 <= |s|
    ensures forall i :: 0 <= i < |s| ==> '0' <= s[i] <= '9'
    decreases n
  {
    if n < 10 then [Digit(n)] else NatToString(n / 10) + [Digit(n % 10)]
  }

  lemma DigitInjective(a: nat, b: nat)
    requires a < 10 && b < 10 && Digit(a) == Digit(b)
    ensures a == b
  {
  }

  /** Distinct numbers print differently. */
  lemma {:induction false} NatToStringInjective(a: nat, b: nat)
    requires NatToString(a) == NatToString(b)
    ensures a == b
    decreases a
  {
    var s := NatToString(a);
    if a < 10 && b < 10 {
      DigitInjective(a, b);
    } else if a >= 10 && b >= 10 {
      assert s[..|s| - 1] == NatToString(a / 10);
      assert NatToString(b)[..|s| - 1] == NatToString(b / 10);
      NatToStringInjective(a / 10, b / 10);
      DigitInjective(a % 10, b % 10);
    }
  }

  /** `char.IsWhiteSpace`: the Unicode space separators, line and paragraph separators and the control characters it lists. */
  predicate IsWhiteSpace(c: char) {
    c == ' ' || ('\t' <= c <= '\r') || c == '\U{85}' || c == '\U{A0}' || c == '\U{1680}'
    || ('\U{2000}' <= c <= '\U{200A}') || c == '\U{2028}' || c == '\U{2029}' || c == '\U{202F}'
    || c == '\U{205F}' || c == '\U{3000}'
  }

  /** `string.IsNullOrWhiteSpace`. */
  predicate IsNullOrWhiteSpace(s: Option<string>) {
    s.None? || forall i :: 0 <= i < |s.value| ==> IsWhiteSpace(s.value[i])
  }

  /** `string.IsNullOrEmpty`. */
  predicate IsNullOrEmpty(s: Option<string>) {
    s.None? || s.value == []
  }

  /** `haystack.Contains(needle)`: an ordinal substring test. */
  predicate Contains(haystack: string, needle: string) {
    exists i :: 0 <= i <= |haystack| - |needle| && OccursAt(haystack, needle, i)
  }

  predicate OccursAt(haystack: string, needle: string, i: int)
    requires 0 <= i <= |haystack| - |needle|
  {
    haystack[i..i + |needle|] == needle
  }
}
