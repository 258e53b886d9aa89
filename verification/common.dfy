/**
 * Machine integers, byte strings and the small wrappers shared by every pallet.
 * Rust's fixed-width integers are modelled as subset types of `nat`; their
 * saturating, wrapping and truncating operations are written out explicitly.
 */
module Common {

  const U8_MAX: nat := 0xFF
  const U32_MAX: nat := 0xFFFF_FFFF
  const U64_MAX: nat := 0xFFFF_FFFF_FFFF_FFFF
  const U128_MAX: nat := 0xFFFF_FFFF_FFFF_FFFF_FFFF_FFFF_FFFF_FFFF

  type u8 = x: nat | x <= U8_MAX
  type u32 = x: nat | x <= U32_MAX
  type u64 = x: nat | x <= U64_MAX
  type u128 = x: nat | x <= U128_MAX

  /** `Vec<u8>`; a Rust `String` is modelled by its UTF-8 bytes. */
  type Bytes = seq<u8>

  datatype Option<T> = None | Some(value: T)

  /** The outcome of a dispatchable: `Ok(())` or one error. */
  datatype Outcome<E> = Pass | Fail(error: E)

  datatype Result<T, E> = Ok(value: T) | Err(error: E)

  function Min(a: nat, b: nat): nat { if a <= b then a else b }

  function Max(a: nat, b: nat): nat { if a >= b then a else b }

  /** `u32::saturating_add`. */
  function SatAdd32(a: u32, b: u32): u32 { if a + b > U32_MAX then U32_MAX else a + b }

  /** `u64::saturating_add`. */
  function SatAdd64(a: u64, b: u64): u64 { if a + b > U64_MAX then U64_MAX else a + b }

  /** `u128::saturating_add`. */
  function SatAdd128(a: u128, b: u128): u128 { if a + b > U128_MAX then U128_MAX else a + b }

  /** `saturating_sub` on an unsigned integer. */
  function SatSub(a: nat, b: nat): nat { if a >= b then a - b else 0 }

  /** `saturated_into::<u32>()` of a wider unsigned integer. */
  function SatU32(x: nat): u32 { if x > U32_MAX then U32_MAX else x }

  /** `x as u32`: keeps the low 32 bits. */
  function TruncU32(x: nat): u32 { x % (U32_MAX + 1) }

  /** `x as u8`: keeps the low 8 bits. */
  function TruncU8(x: nat): u8 { x % (U8_MAX + 1) }

  /** `a * b` on `u32` in a build without overflow checks: wraps modulo 2^32. */
  function WrapMul32(a: u32, b: u32): u32 { (a * b) % (U32_MAX + 1) }

  /** Adding saturating steps one at a time is saturating the whole sum once. */
  lemma SatAdd32OfSat(x: nat, c: u32)
    ensures SatAdd32(SatU32(x), c) == SatU32(x + c)
  {
  }

  lemma SatAdd64OfSat(x: nat, c: u64)
    ensures SatAdd64(SatU64(x), c) == SatU64(x + c)
  {
  }

  /** A subset is no larger than its superset. */
  lemma {:induction false} SubsetSize<T>(a: set<T>, b: set<T>)
    requires a <= b
    ensures |a| <= |b|
    decreases |a|
  {
    if a != {} {
      var x :| x in a;
      SubsetSize(a - {x}, b - {x});
    }
  }

  /** `saturated_into::<u128>()`. */
  function SatU128(x: nat): u128 { if x > U128_MAX then U128_MAX else x }

  /** `saturated_into::<u64>()`. */
  function SatU64(x: nat): u64 { if x > U64_MAX then U64_MAX else x }

  ghost predicate NoDup<T>(s: seq<T>) {
    forall i, j | 0 <= i < j < |s| :: s[i] != s[j]
  }

  /** A sequence without repetitions has as many distinct elements as entries. */
  lemma {:induction false} DistinctSize<T>(s: seq<T>)
    requires NoDup(s)
    ensures |set x | x in s| == |s|
  {
    if s != [] {
      var last := s[|s| - 1];
      var front := s[..|s| - 1];
      assert NoDup(front);
      DistinctSize(front);
      assert last !in front;
      assert (set x | x in s) == (set x | x in front) + {last};
    }
  }

  /**
   * `((part * 100) / whole.max(1)) as u8` on `u32`: the product wraps and the
   * cast keeps the low byte. Away from the wrap it is the exact percentage, at
   * most 100 while the part is within the whole.
   */
  function Percent(part: u32, whole: u32): (p: u8)
    ensures part * 100 <= U32_MAX && part <= whole && whole > 0 ==> p == (part * 100) / whole && p <= 100
  {
    var q := WrapMul32(part, 100) / Max(whole, 1);
    if part * 100 <= U32_MAX && part <= whole && whole > 0 then
      SmallMod(part * 100, U32_MAX + 1);
      assert q == (part * 100) / whole;
      PercentBound(part, whole);
      SmallMod(q, U8_MAX + 1);
      TruncU8(q)
    else
      TruncU8(q)
  }

  lemma SmallMod(x: nat, m: nat)
    requires x < m
    ensures x % m == x
  {
  }

  lemma PercentBound(part: nat, whole: nat)
    requires part <= whole && whole > 0
    ensures (part * 100) / whole <= 100
  {
    assert part * 100 <= whole * 100;
    DivAtMost(part * 100, whole, 100);
  }

  lemma DivAtMost(a: nat, b: nat, k: nat)
    requires b > 0 && a <= b * k
    ensures a / b <= k
  {
  }
}
