/**
  * Machine words, the register file of one 8086 core and the FLAGS bit
  * layout with its accessor and setter expressions (arch/8086/cpu.h).
  *
  * Words are integers in the range of the C type they model; every
  * wrap-around of the C code is written out with `%`.
  */
module Registers {

  type uint8 = x: int | 0 <= x < 0x100
  type uint16 = x: int | 0 <= x < 0x1_0000
  type uint32 = x: int | 0 <= x < 0x1_0000_0000

  /** Assignment to a `uint8_t` / `uint16_t` / `uint32_t`: the value modulo
    * the width (Dafny's `%` is never negative, which is the two's-complement
    * truncation of a negative C int). */
  function Wrap8(x: int): uint8 { x % 0x100 }
  function Wrap16(x: int): uint16 { x % 0x1_0000 }
  function Wrap32(x: int): uint32 { x % 0x1_0000_0000 }

  /** `a + b` stored into a `uint8_t` / `uint16_t` (b may be negative). */
  function Add8(a: int, b: int): uint8 { (a + b) % 0x100 }
  function Add16(a: int, b: int): uint16 { (a + b) % 0x1_0000 }

  /** Two 16-bit additions in a row are one addition of the sum. */
  lemma Add16Twice(x: int, a: int, b: int)
    ensures Add16(Add16(x, a), b) == Add16(x, a + b)
  {
    var q := (x + a) / 0x1_0000;
    assert Add16(x, a) == x + a - 0x1_0000 * q;
    assert Add16(x, a) + b == (x + a + b) + 0x1_0000 * (-q);
  }

  /** Adding a and then taking a back off returns a 16-bit value unchanged. */
  lemma Add16Undo(x: uint16, a: int)
    ensures Add16(Add16(x, -a), a) == x
  {
    Add16Twice(x, -a, a);
  }

  /** Taking off no more than the value holds does not wrap. */
  lemma Add16Below(x: uint16, a: int)
    requires 0 <= a <= x
    ensures Add16(x, -a) == x - a
  {
  }

  function Pow2(k: nat): (p: nat)
    ensures p >= 1
  {
    if k == 0 then 1 else 2 * Pow2(k - 1)
  }

  lemma {:induction false} Pow2Add(j: nat, k: nat)
    ensures Pow2(j + k) == Pow2(j) * Pow2(k)
  {
    if j > 0 {
      Pow2Add(j - 1, k);
    }
  }

  lemma Pow2Byte()
    ensures Pow2(8) == 0x100
  {
    assert Pow2(4) == 16;
  }

  lemma Pow2Sixteen()
    ensures Pow2(16) == 0x1_0000
  {
    Pow2Byte();
    Pow2Add(8, 8);
  }

  /** `x >> k` on a non-negative value. */
  function Shr(x: nat, k: nat): nat
  {
    var p := Pow2(k);
    DivBounds(x, p);
    x / p
  }

  lemma DivBounds(x: int, p: int)
    requires 0 <= x && 1 <= p
    ensures 0 <= x / p <= x
  {
  }

  /** Bit k of a non-negative value: `!!(x & (1 << k))`. */
  function Bit(x: nat, k: nat): (b: nat)
    ensures b == 0 || b == 1
  {
    (x / Pow2(k)) % 2
  }

  /** The bitwise operators of C, taken bit by bit from the lowest: the
    * low n bits of a `op` b. */
  datatype BitOp = AndOp | OrOp | XorOp

  function Bitwise(op: BitOp, a: nat, b: nat, n: nat): (r: nat)
    ensures r < Pow2(n)
    decreases n
  {
    if n == 0 then 0
    else
      var x, y := a % 2 == 1, b % 2 == 1;
      var low := match op
        case AndOp => x && y
        case OrOp => x || y
        case XorOp => x != y;
      (if low then 1 else 0) + 2 * Bitwise(op, a / 2, b / 2, n - 1)
  }

  function And16(a: uint16, b: uint16): uint16 { Pow2Sixteen(); Bitwise(AndOp, a, b, 16) }
  function Or16(a: uint16, b: uint16): uint16 { Pow2Sixteen(); Bitwise(OrOp, a, b, 16) }
  function Xor16(a: uint16, b: uint16): uint16 { Pow2Sixteen(); Bitwise(XorOp, a, b, 16) }

  /** The identities on words. */
  lemma WordIdentities(a: uint16)
    ensures And16(a, a) == a && Or16(a, a) == a && Xor16(a, a) == 0
    ensures Or16(a, 0) == a && Or16(0, a) == a
  {
    Pow2Sixteen();
    BitwiseIdentities(a, 16);
  }

  /** AND and OR of a value with itself give the value back, XOR gives 0,
    * and OR with 0 is the identity. */
  lemma {:induction false} BitwiseIdentities(a: nat, n: nat)
    requires a < Pow2(n)
    ensures Bitwise(AndOp, a, a, n) == a && Bitwise(OrOp, a, a, n) == a
    ensures Bitwise(XorOp, a, a, n) == 0
    ensures Bitwise(OrOp, a, 0, n) == a && Bitwise(OrOp, 0, a, n) == a
    decreases n
  {
    if n > 0 {
      BitwiseIdentities(a / 2, n - 1);
    }
  }

  // ---------------------------------------------------------------------
  // 8-bit halves: they have no storage of their own; AL is the low byte of
  // the `ax` field and AH its high byte (little-endian host).

  function Lo(w: uint16): uint8 { w % 0x100 }

  function Hi(w: uint16): uint8 { w / 0x100 }

  /** A store through a pointer to the low byte of a field. */
  function SetLo(w: uint16, b: uint8): (r: uint16)
    ensures Lo(r) == b && Hi(r) == Hi(w)
  {
    Hi(w) * 0x100 + b
  }

  /** A store through a pointer to the high byte of a field. */
  function SetHi(w: uint16, b: uint8): (r: uint16)
    ensures Hi(r) == b && Lo(r) == Lo(w)
  {
    b * 0x100 + Lo(w)
  }

  /** The low byte of a value kept in 16 bits is its low byte. */
  lemma LoOfWrap16(x: int)
    ensures Lo(Wrap16(x)) == x % 0x100
  {
    var q, r := x / 0x1_0000, Wrap16(x);
    assert x == 0x100 * (0x100 * q) + r;
  }

  /** A multiple of 256 kept in 16 bits has a zero low byte. */
  lemma ShiftedLowByteIsZero(q: nat)
    ensures Wrap16(0x100 * q) % 0x100 == 0
  {
    var a, b := q / 0x100, q % 0x100;
    assert q == 0x100 * a + b;
    assert 0x100 * q == 0x1_0000 * a + 0x100 * b;
    assert Wrap16(0x100 * q) == 0x100 * b;
  }

  /** The two halves make up the whole field. */
  lemma HalvesCompose(w: uint16)
    ensures SetHi(SetLo(0, Lo(w)), Hi(w)) == w
    ensures w == Hi(w) * 0x100 + Lo(w)
  {
  }

  // ---------------------------------------------------------------------
  // The register record

  /** The fourteen 16-bit fields of `registers_t`, numbered in declaration
    * order. */
  newtype Reg = i: int | 0 <= i < 14

  const AX: Reg := 0
  const BX: Reg := 1
  const CX: Reg := 2
  const DX: Reg := 3
  const IP: Reg := 4
  const SP: Reg := 5
  const BP: Reg := 6
  const SI: Reg := 7
  const DI: Reg := 8
  const SS: Reg := 9
  const CS: Reg := 10
  const DS: Reg := 11
  const ES: Reg := 12
  const FLAGS: Reg := 13

  /** A value of `registers_t`: field r is `regs[r]`, and storing into one
    * field is the update `regs[r := v]`, which leaves every other field as
    * it was. */
  type Regs = s: seq<uint16> | |s| == 14 witness Zero

  const Zero: seq<uint16> := seq(14, _ => 0)

  // ---------------------------------------------------------------------
  // FLAGS

  datatype Flag = CF | PF | AF | ZF | SF | TF | IF | DF | OF

  /** Bit position of each flag inside the FLAGS word. */
  function Position(f: Flag): (k: nat)
    ensures k < 12
  {
    match f
    case CF => 0 case PF => 2 case AF => 4 case ZF => 6 case SF => 7
    case TF => 8 case IF => 9 case DF => 10 case OF => 11
  }

  /** The constant each `FLAGS_X` accessor masks with. */
  function Mask(f: Flag): nat
  {
    match f
    case CF => 0x0001 case PF => 0x0004 case AF => 0x0010 case ZF => 0x0040
    case SF => 0x0080 case TF => 0x0100 case IF => 0x0200 case DF => 0x0400
    case OF => 0x0800
  }

  /** Each mask has exactly the flag's bit set. */
  lemma MaskIsPositionBit(f: Flag)
    ensures Mask(f) == Pow2(Position(f))
  {
    assert Pow2(2) == 4;
    assert Pow2(4) == 16;
    assert Pow2(6) == 64;
    assert Pow2(7) == 128;
    assert Pow2(8) == 256;
    assert Pow2(9) == 512;
    assert Pow2(10) == 1024;
    assert Pow2(11) == 2048;
  }

  /** `FLAGS_X(c)`: the flags word masked with the flag's bit, not shifted
    * down to bit 0. */
  function Accessor(flags: uint16, f: Flag): (v: nat)
    ensures v == 0 || v == Mask(f)
    ensures v != 0 <==> Bit(flags, Position(f)) == 1
  {
    Bit(flags, Position(f)) * Mask(f)
  }

  /** Only the carry accessor can ever compare equal to 1: a test such as
    * `FLAGS_ZF(core) == 1` is false whatever FLAGS holds, and
    * `FLAGS_ZF(core) == 0` is the test that the bit is clear. */
  lemma AccessorIsOneOnlyForCarry(flags: uint16, f: Flag)
    ensures Accessor(flags, f) == 1 <==> f == CF && flags % 2 == 1
  {
  }

  /** `FLAGS_X_SET(c, x)`: `flags | (x & 0x0001 << k)`; the shift binds
    * tighter than `&`. The macro is an int-valued expression, modelled on
    * 32-bit vectors, and it assigns nothing. */
  function SetterValue(flags: bv16, f: Flag, x: bv32): bv32
  {
    flags as bv32 | (x & (1 << Position(f)))
  }

  /** For a truth value x, every setter except the carry one evaluates to
    * the flags word unchanged, and the carry one to the word with bit 0
    * or-ed in. */
  lemma SetterOnTruthValue(flags: bv16, f: Flag, x: bv32)
    requires x == 0 || x == 1
    ensures f != CF ==> SetterValue(flags, f, x) == flags as bv32
    ensures SetterValue(flags, CF, x) == (flags | x as bv16) as bv32
  {
  }
}
