/** Fixed-width unsigned integers as the interpreter uses them (Rust `u8` and `u16`),
    and the bitwise operators on them, defined bit by bit on natural numbers. */
module Bits {

  /** An unsigned 8-bit value (`u8`): registers, memory cells, timers. */
  type Byte = b: int | 0 <= b < 0x100

  /** An unsigned 16-bit value (`u16`): opcodes and the index register. */
  type U16 = w: int | 0 <= w < 0x1_0000

  function Pow2(k: nat): (r: nat)
    ensures r >= 1
  {
    if k == 0 then 1 else 2 * Pow2(k - 1)
  }

  /** AND of the low `width` bits of `a` and `b`, built from the least significant bit up. */
  function BitAnd(a: nat, b: nat, width: nat): (r: nat)
    ensures r < Pow2(width)
    ensures r <= a && r <= b
    decreases width
  {
    if width == 0 then 0
    else 2 * BitAnd(a / 2, b / 2, width - 1) + (if a % 2 == 1 && b % 2 == 1 then 1 else 0)
  }

  /** OR of the low `width` bits of `a` and `b`. */
  function BitOr(a: nat, b: nat, width: nat): (r: nat)
    ensures r < Pow2(width)
    decreases width
  {
    if width == 0 then 0
    else 2 * BitOr(a / 2, b / 2, width - 1) + (if a % 2 == 1 || b % 2 == 1 then 1 else 0)
  }

  /** Exclusive OR of the low `width` bits of `a` and `b`. */
  function BitXor(a: nat, b: nat, width: nat): (r: nat)
    ensures r < Pow2(width)
    decreases width
  {
    if width == 0 then 0
    else 2 * BitXor(a / 2, b / 2, width - 1) + (if a % 2 != b % 2 then 1 else 0)
  }

  /** The low bit of `2 * h + c` is `c`. */
  lemma EvenPlusBit(h: nat, c: nat)
    requires c < 2
    ensures (2 * h + c) % 2 == c
  {
  }

  /** `a & b` on `u8`. */
  function And8(a: Byte, b: Byte): (r: Byte)
    ensures r <= a && r <= b
    ensures r % 2 == (if a % 2 == 1 && b % 2 == 1 then 1 else 0)
  {
    assert Pow2(8) == 0x100;
    assert BitAnd(a, b, 8) == 2 * BitAnd(a / 2, b / 2, 7) + (if a % 2 == 1 && b % 2 == 1 then 1 else 0);
    EvenPlusBit(BitAnd(a / 2, b / 2, 7), if a % 2 == 1 && b % 2 == 1 then 1 else 0);
    BitAnd(a, b, 8)
  }

  /** `a | b` on `u8`. */
  function Or8(a: Byte, b: Byte): (r: Byte)
    ensures r % 2 == (if a % 2 == 1 || b % 2 == 1 then 1 else 0)
  {
    assert Pow2(8) == 0x100;
    assert BitOr(a, b, 8) == 2 * BitOr(a / 2, b / 2, 7) + (if a % 2 == 1 || b % 2 == 1 then 1 else 0);
    EvenPlusBit(BitOr(a / 2, b / 2, 7), if a % 2 == 1 || b % 2 == 1 then 1 else 0);
    BitOr(a, b, 8)
  }

  /** `a ^ b` on `u8`. */
  function Xor8(a: Byte, b: Byte): (r: Byte)
    ensures r % 2 == (if a % 2 != b % 2 then 1 else 0)
  {
    assert Pow2(8) == 0x100;
    assert BitXor(a, b, 8) == 2 * BitXor(a / 2, b / 2, 7) + (if a % 2 != b % 2 then 1 else 0);
    EvenPlusBit(BitXor(a / 2, b / 2, 7), if a % 2 != b % 2 then 1 else 0);
    BitXor(a, b, 8)
  }

  /** `u8::overflowing_add`: the sum modulo 256 and whether it wrapped. */
  function OverflowingAdd(a: Byte, b: Byte): (r: (Byte, bool))
    ensures r.0 == (a + b) % 0x100
    ensures r.1 <==> a + b > 0xFF
  {
    if a + b > 0xFF then (a + b - 0x100, true) else (a + b, false)
  }

  /** `u8::overflowing_sub`: the difference modulo 256 and whether it borrowed. */
  function OverflowingSub(a: Byte, b: Byte): (r: (Byte, bool))
    ensures r.0 == (a - b) % 0x100
    ensures r.1 <==> a < b
  {
    if a < b then (a - b + 0x100, true) else (a - b, false)
  }

  /** `u8::wrapping_add`. */
  function WrappingAdd(a: Byte, b: Byte): (r: Byte)
    ensures r == (a + b) % 0x100
  {
    OverflowingAdd(a, b).0
  }

  /** `u8::wrapping_sub`. */
  function WrappingSub(a: Byte, b: Byte): (r: Byte)
    ensures r == (a - b) % 0x100
  {
    OverflowingSub(a, b).0
  }

  lemma {:induction false} AndZero(a: nat, width: nat)
    ensures BitAnd(a, 0, width) == 0
    decreases width
  {
    if width > 0 {
      AndZero(a / 2, width - 1);
    }
  }

  /** Masking with 1 keeps the least significant bit: `a & 1 == a % 2`. */
  lemma {:induction false} AndOneIsLowBit(a: nat, width: nat)
    requires width >= 1
    ensures BitAnd(a, 1, width) == a % 2
  {
    AndZero(a / 2, width - 1);
  }

  /** Masking a `k+1`-bit value with its top bit `2^k` keeps exactly that bit. */
  lemma {:induction false} AndTopBit(a: nat, k: nat)
    requires a < Pow2(k + 1)
    ensures BitAnd(a, Pow2(k), k + 1) == if a >= Pow2(k) then Pow2(k) else 0
    decreases k
  {
    if k == 0 {
      AndOneIsLowBit(a, 1);
    } else {
      AndTopBit(a / 2, k - 1);
    }
  }

  /** On bytes, `(a & 0x80) >> 7` is the most significant bit, `a / 128`. */
  lemma HighBitOfByte(a: Byte)
    ensures And8(a, 0x80) / 0x80 == a / 0x80
  {
    assert Pow2(7) == 0x80 && Pow2(8) == 0x100;
    AndTopBit(a, 7);
  }

  /** On bytes, `a & 1` is the least significant bit, `a % 2`. */
  lemma LowBitOfByte(a: Byte)
    ensures And8(a, 1) == a % 2
  {
    AndOneIsLowBit(a, 8);
  }

  /** XOR with the same value twice gives back the original value. */
  lemma {:induction false} XorCancels(a: nat, b: nat, width: nat)
    requires a < Pow2(width)
    ensures BitXor(BitXor(a, b, width), b, width) == a
    decreases width
  {
    if width > 0 {
      var low := BitXor(a / 2, b / 2, width - 1);
      var x := BitXor(a, b, width);
      assert x / 2 == low && x % 2 == (if a % 2 != b % 2 then 1 else 0);
      assert a / 2 < Pow2(width - 1);
      XorCancels(a / 2, b / 2, width - 1);
    }
  }

  /** OR is commutative. */
  lemma {:induction false} OrCommutes(a: nat, b: nat, width: nat)
    ensures BitOr(a, b, width) == BitOr(b, a, width)
    decreases width
  {
    if width > 0 {
      OrCommutes(a / 2, b / 2, width - 1);
    }
  }

  /** AND with itself and OR with itself are the identity on values that fit the width. */
  lemma {:induction false} AndOrIdempotent(a: nat, width: nat)
    requires a < Pow2(width)
    ensures BitAnd(a, a, width) == a && BitOr(a, a, width) == a
    decreases width
  {
    if width > 0 {
      AndOrIdempotent(a / 2, width - 1);
    }
  }
}
