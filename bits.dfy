/** Fixed-width unsigned integers of the CHIP-8 machine and the C operators the
    emulator applies to them.

    Values are unbounded Dafny integers restricted to their C range; every
    wrap-around of a C `uint8_t` or `uint16_t` is written out as `% 0x100` or
    `% 0x1_0000`. Masks and shifts of unsigned values (`(op & 0x0F00u) >> 8u`)
    are written as the equivalent division and remainder by powers of two,
    while `&`, `|` and `^` between two bytes are defined bit by bit. */
module Bits {

  /** C `uint8_t`. */
  type u8 = x: int | 0 <= x < 0x100

  /** C `uint16_t`. */
  type u16 = x: int | 0 <= x < 0x1_0000

  /** The 4-bit field `(op & 0xF000u) >> 12u`, the instruction family. */
  function Family(op: u16): (f: nat)
    ensures f < 0x10
  {
    op / 0x1000
  }

  /** Register operand `x`: `(op & 0x0F00u) >> 8u`. */
  function X(op: u16): (x: nat)
    ensures x < 0x10
  {
    (op / 0x100) % 0x10
  }

  /** Register operand `y`: `(op & 0x00F0u) >> 4u`. */
  function Y(op: u16): (y: nat)
    ensures y < 0x10
  {
    (op / 0x10) % 0x10
  }

  /** Nibble operand `n`: `op & 0x000Fu`. */
  function N(op: u16): (n: nat)
    ensures n < 0x10
  {
    op % 0x10
  }

  /** Byte operand `kk`: `op & 0x00FFu`. */
  function KK(op: u16): (kk: u8)
  {
    op % 0x100
  }

  /** Address operand `nnn`: `op & 0x0FFFu`. */
  function NNN(op: u16): (nnn: nat)
    ensures nnn < 0x1000
  {
    op % 0x1000
  }

  /** The four hexadecimal digits of a word determine it, and the operand
      fields are made of them. */
  lemma OperandFields(op: u16)
    ensures op == 0x1000 * Family(op) + 0x100 * X(op) + 0x10 * Y(op) + N(op)
    ensures KK(op) == 0x10 * Y(op) + N(op)
    ensures NNN(op) == 0x100 * X(op) + KK(op)
  {
  }

  /** A bitwise operator of C. */
  datatype BitOp = And | Or | Xor

  /** The operator applied to two single bits. */
  function ApplyBit(f: BitOp, a: nat, b: nat): (r: nat)
    requires a < 2 && b < 2
    ensures r < 2
  {
    match f
    case And => if a == 1 && b == 1 then 1 else 0
    case Or => if a == 1 || b == 1 then 1 else 0
    case Xor => if a != b then 1 else 0
  }

  /** The operator applied to the low `width` bits of `a` and `b`, least
      significant bit first. */
  function Bitwise(f: BitOp, a: nat, b: nat, width: nat): (r: nat)
    ensures r < Pow2(width)
    ensures f == And ==> r <= a && r <= b
    decreases width
  {
    if width == 0 then 0
    else ApplyBit(f, a % 2, b % 2) + 2 * Bitwise(f, a / 2, b / 2, width - 1)
  }

  function Pow2(k: nat): (p: nat)
    ensures p >= 1
  {
    if k == 0 then 1 else 2 * Pow2(k - 1)
  }

  /** C `a & b`, `a | b` and `a ^ b` on two bytes. */
  function ByteOp(f: BitOp, a: u8, b: u8): (r: u8)
  {
    Pow2Eight();
    Bitwise(f, a, b, 8)
  }

  lemma Pow2Eight()
    ensures Pow2(8) == 0x100
  {
  }

  /** Masking twice with the same byte changes nothing more than masking once:
      `(a & b) & b == a & b`, so no bit outside `b` survives. */
  lemma {:induction false} MaskIdempotent(a: nat, b: nat, width: nat)
    ensures Bitwise(And, Bitwise(And, a, b, width), b, width) == Bitwise(And, a, b, width)
    decreases width
  {
    if width > 0 {
      var low := ApplyBit(And, a % 2, b % 2);
      var high := Bitwise(And, a / 2, b / 2, width - 1);
      LowBitAndRest(low, high);
      MaskIdempotent(a / 2, b / 2, width - 1);
    }
  }

  /** A number built from a low bit and the remaining bits splits back into
      them. */
  lemma LowBitAndRest(low: nat, high: nat)
    requires low < 2
    ensures (low + 2 * high) % 2 == low
    ensures (low + 2 * high) / 2 == high
  {
  }

  /** An operator applied to a number and itself: `a & a == a`,
      `a | a == a` and `a ^ a == 0`. */
  lemma {:induction false} BitwiseSelf(a: nat, width: nat)
    requires a < Pow2(width)
    ensures Bitwise(And, a, a, width) == a
    ensures Bitwise(Or, a, a, width) == a
    ensures Bitwise(Xor, a, a, width) == 0
    decreases width
  {
    if width > 0 {
      BitwiseSelf(a / 2, width - 1);
    }
  }

  /** Bit `k` of `a`, counting from the least significant bit. */
  function Bit(a: nat, k: nat): (b: nat)
    ensures b < 2
  {
    if k == 0 then a % 2 else Bit(a / 2, k - 1)
  }

  /** Below the width, each bit of the result is the operator applied to the
      same bit of the two operands: `(a op b)` bit `k` is `a` bit `k` op `b`
      bit `k`. */
  lemma {:induction false} BitwisePerBit(f: BitOp, a: nat, b: nat, width: nat, k: nat)
    requires k < width
    ensures Bit(Bitwise(f, a, b, width), k) == ApplyBit(f, Bit(a, k), Bit(b, k))
    decreases width
  {
    var low := ApplyBit(f, a % 2, b % 2);
    var high := Bitwise(f, a / 2, b / 2, width - 1);
    LowBitAndRest(low, high);
    if k > 0 {
      BitwisePerBit(f, a / 2, b / 2, width - 1, k - 1);
    }
  }
}
