/**
  * The ModRM group executors of arch/8086/cpu.c: the immediate groups
  * 80-83, the shift groups d0-d3, the unary groups f6/f7 (TEST, NOT, NEG,
  * MUL, IMUL, DIV, IDIV) and the INC/DEC groups fe/ff. The reg field of the
  * ModRM byte arrives as an `OPERAND_OP` operand 1 and selects the
  * operation; operand 2 is the r/m operand.
  *
  * The immediate groups check the type byte of operand 2. All the others
  * compare its `op` member, the low byte of whatever the union holds, with
  * the type bytes: an address passes as `OPERAND_ADDR` only when its low
  * byte is 2, and the shift groups then store through the address bits as
  * if they were a pointer.
  */
module CpuGroup {
  import opened Wrappers
  import opened Registers
  import opened CpuState
  import CpuAlu
  import CpuBcd
  import Memory

  // ---------------------------------------------------------------------
  // 80-83: ALU operation with an immediate

  /** The ALU operation the reg field selects in the immediate groups. */
  function GroupOp(op: nat): CpuAlu.AluOp
    requires op < 8
  {
    [CpuAlu.Add, CpuAlu.Or, CpuAlu.Adc, CpuAlu.Sbb, CpuAlu.And, CpuAlu.Sub, CpuAlu.Xor, CpuAlu.Cmp][op]
  }

  /** 80 and 82 work on bytes, 81 and 83 on words. */
  function ImmWidth(opcode: nat): Width { if opcode % 2 == 0 then W8 else W16 }

  /** 82 and 83 have cases only for ADD, ADC, SBB, SUB and CMP, and a
    * `default` that returns -1; 80 and 81 have all eight and no default. */
  predicate HasCase(opcode: nat, op: nat)
  {
    opcode < 0x82 || op == 0 || op == 2 || op == 3 || op == 5 || op == 7
  }

  /** 80-83: the operation code and the immediate are read from operands 1
    * and 3, the destination through the type byte of operand 2 (`ADDR`
    * loads memory, `REG16` loads through the pointer at the width, any
    * other type returns -1). SBB takes the carry through a `core` pointer
    * that is declared, and initialised, only in the ADC case; CMP writes
    * nothing. The functions then fall off their end. */
  function Immediate(m: Machine, opcode: nat, ops: Operands): (r: Result)
    requires Wf(m) && 0x80 <= opcode <= 0x83
    ensures Wf(r.m) && r.m.ports == m.ports
  {
    var w := ImmWidth(opcode);
    var op := OpField(ops.o1);
    var s := WordField(ops.o3);
    if op.None? || s.None? then Result(Undefined, m)
    else
      match ReadRm(m, ops.o2, w, TReg16)
      case Stop(e) => Result(e, m)
      case Got(d) =>
        var o := op.value as nat;
        if !HasCase(opcode, o) then Result(Failed, m)
        else if o == 3 then Result(Undefined, m)
        else if o >= 7 then Result(Done, m)
        else WriteBack(m, ops.o2, w, Some(TReg16), CpuAlu.Compute(GroupOp(o), w, d, WrapTo(w, s.value), m.regs[FLAGS]))
  }

  // ---------------------------------------------------------------------
  // The gate of the shift, unary and INC/DEC groups

  /** `operand1_type` must be `OPERAND_OP`; the operation is its code. */
  function Operation(o: Operand): (r: Read)
    ensures r.Got? <==> o.Op?
    ensures r.Got? ==> r.v == o.code
  {
    match Tag(o)
    case None => Stop(Undefined)
    case Some(t) => if t == TOp then Got(o.code) else Stop(Failed)
  }

  datatype Gate = Passed(a: nat) | Blocked(outcome: Outcome)

  /** The test of `operand2.op` against `OPERAND_ADDR` and the register type
    * byte `reg`: an address whose low byte is 2 passes with its address;
    * one whose low byte is `reg` is read through its bits as a pointer;
    * any other low byte returns -1. The low byte of a register pointer is
    * not known. */
  function GateOf(o: Operand, reg: nat): (g: Gate)
    ensures g.Passed? <==> o.Addr? && o.a % 0x100 == TAddr
    ensures g.Passed? ==> g.a == o.a
    ensures g == Blocked(Failed) <==> OpField(o).Some? && OpField(o).value != TAddr && OpField(o).value != reg
  {
    match OpField(o)
    case None => Blocked(Undefined)
    case Some(b) =>
      if b == TAddr then (if o.Addr? then Passed(o.a) else Blocked(Undefined))
      else if b == reg then Blocked(Undefined)
      else Blocked(Failed)
  }

  // ---------------------------------------------------------------------
  // d0-d3: shifts and rotates

  /** d0/d1, by one: case 6 returns -1; every other operation ends in the
    * write-back, which for an `ADDR` operand stores through the address
    * bits as a pointer. */
  function ShiftOne(m: Machine, ops: Operands): (r: Result)
  {
    match Operation(ops.o1)
    case Stop(e) => Result(e, m)
    case Got(op) =>
      match GateOf(ops.o2, TReg8)
      case Blocked(e) => Result(e, m)
      case Passed(_) => if op == 6 then Result(Failed, m) else Result(Undefined, m)
  }

  function Bits(w: Width): nat { if w == W8 then 8 else 16 }

  /** d2/d3, by CL: a count of 0 or one above the width skips to the
    * write-back; case 6 returns -1 only for counts in between. d2 gates
    * with `OPERAND_REG8`, d3 with `OPERAND_REG16`. */
  function ShiftCount(m: Machine, w: Width, ops: Operands): (r: Result)
  {
    match Operation(ops.o1)
    case Stop(e) => Result(e, m)
    case Got(op) =>
      match GateOf(ops.o2, RegTag(w))
      case Blocked(e) => Result(e, m)
      case Passed(_) =>
        var count := Lo(m.regs[CX]);
        if count == 0 || count > Bits(w) then Result(Undefined, m)
        else if op == 6 then Result(Failed, m)
        else Result(Undefined, m)
  }

  /** What d2/d3 compute before the write-back: the value and the carry and
    * overflow arguments handed to `update_flags` (`None` where none is
    * passed). */
  datatype Shifted = Shifted(v: nat, cf: Option<nat>, of: Option<nat>)

  /** The ROL/RCL value: s shifted left by k, plus bit n - k (the mask
    * `0x80 >> (k - 1)` for n = 8), cut to n bits. */
  function RotateLeft(s: nat, k: nat, n: nat): nat
    requires 1 <= k <= n
  {
    (s * Pow2(k) + Bit(s, n - k)) % Pow2(n)
  }

  /** The ROR/RCR value: s shifted right by k, plus bit k - 1 (the mask
    * `0x01 << (k - 1)`) moved to the top bit, cut to n bits. */
  function RotateRight(s: nat, k: nat, n: nat): nat
    requires 1 <= k <= n
  {
    (Shr(s, k) + Bit(s, k - 1) * Pow2(n - 1)) % Pow2(n)
  }

  /** The SAR value: `(s >> k) & (f << (n - 1))` with f = bit k - 1. */
  function ArithmeticRight(s: nat, k: nat, n: nat): nat
    requires 1 <= k <= n
  {
    if Bit(Shr(s, k), n - 1) == 1 && Bit(s, k - 1) == 1 then Pow2(n - 1) else 0
  }

  /** The overflow argument of SAL and SHR: whether the top bit changed. */
  function TopChanged(s: nat, v: nat, n: nat): nat
    requires 1 <= n
  {
    if Bit(s, n - 1) != Bit(v, n - 1) then 1 else 0
  }

  /** Case `op` on the value s with the count k. RCL and RCR compute what
    * ROL and ROR compute (the carry they read is not used). */
  function CountShift(w: Width, op: nat, s: nat, k: nat): (r: Shifted)
  {
    var n := Bits(w);
    if k > n then Shifted(0, Some(0), Some(0))
    else if k == 0 then Shifted(s, None, None)
    else if op == 0 || op == 2 then Shifted(RotateLeft(s, k, n), Some(Bit(s, n - k)), None)
    else if op == 1 || op == 3 then Shifted(RotateRight(s, k, n), Some(Bit(s, k - 1)), None)
    else if op == 4 then
      var v := (s * Pow2(k)) % Pow2(n);
      Shifted(v, Some(Bit(s, n - k)), Some(TopChanged(s, v, n)))
    else if op == 5 then
      var v := Shr(s, k);
      Shifted(v, Some(Bit(s, k - 1)), Some(TopChanged(s, v, n)))
    else if op == 7 then Shifted(ArithmeticRight(s, k, n), Some(Bit(s, k - 1)), None)
    else Shifted(s, None, None)
  }

  // ---------------------------------------------------------------------
  // f6/f7: TEST, NOT, NEG, MUL, IMUL, DIV, IDIV

  /** `(int16_t)` of a word (two's complement). */
  function Signed16(x: uint16): (v: int)
    ensures -0x8000 <= v < 0x8000 && Wrap16(v) == x
  {
    if x >= 0x8000 then x - 0x1_0000 else x
  }

  /** C division and remainder: the quotient truncated toward zero and a
    * remainder with the sign of the dividend. */
  function TruncDivMod(a: int, b: nat): (qr: (int, int))
    requires b > 0
    ensures qr.0 * b + qr.1 == a
    ensures -(b as int) < qr.1 < b
    ensures a >= 0 ==> qr.1 >= 0
    ensures a < 0 ==> qr.1 <= 0
  {
    if a >= 0 then (a / b, a % b)
    else
      var q := (-a) / b;
      (-q, a + q * b)
  }

  /** MUL and IMUL compute the same zero-extended product AL * s; the word
    * form keeps it in a 16-bit variable, so DX takes its upper half, 0. */
  function Multiply(m: Machine, w: Width, s: uint16): Machine
  {
    var p := Lo(m.regs[AX]) as int * s;
    if w == W8 then m.(regs := m.regs[AX := Wrap16(p)])
    else m.(regs := m.regs[AX := Wrap16(p)][DX := 0])
  }

  /** f6 DIV (signed false) and IDIV (signed true); f7 DIV and IDIV. A zero
    * divisor is undefined. f7 IDIV shifts DX as an int32, which is
    * undefined once DX has its top bit set, and otherwise divides as DIV. */
  function Divide(m: Machine, w: Width, s: uint16, signed: bool): (r: Result)
  {
    var ax := m.regs[AX];
    if s == 0 then Result(Undefined, m)
    else if w == W8 then
      var (q, rem) := if signed then TruncDivMod(Signed16(ax), s) else (ax as int / s, ax as int % s);
      match ShiftedPair(Wrap8(rem), Wrap8(q))
      case None => Result(Undefined, m)
      case Some(v) => Result(Done, m.(regs := m.regs[AX := v]))
    else if signed && m.regs[DX] >= 0x8000 then Result(Undefined, m)
    else
      var dividend := m.regs[DX] as int * 0x1_0000 + ax;
      Result(Done, m.(regs := m.regs[AX := Wrap16(dividend / s)][DX := dividend % s]))
  }

  /** f6 (W8) and f7 (W16). TEST fetches its immediate and discards the
    * result; case 1 and any other code do nothing. */
  function Unary(m: Machine, w: Width, ops: Operands): (r: Result)
    requires Wf(m)
    ensures Wf(r.m) && r.m.ports == m.ports
  {
    match Operation(ops.o1)
    case Stop(e) => Result(e, m)
    case Got(op) =>
      match GateOf(ops.o2, RegTag(w))
      case Blocked(e) => Result(e, m)
      case Passed(a) => UnaryAt(m, w, op, a)
  }

  /** NOT (the complement within the width) or NEG (the negation cut to
    * the width) stored over the operand at a. */
  function NotNegAt(m: Machine, w: Width, neg: bool, a: nat): (r: Result)
    requires Wf(m)
    ensures Wf(r.m) && r.m.regs == m.regs
  {
    Store(m, w, a, NotNegValue(w, neg, Load(m, w, a)))
  }

  function NotNegValue(w: Width, neg: bool, s: uint16): uint16
    requires s <= Ones(w)
  {
    if neg then WrapTo(w, -(s as int)) else Ones(w) - s
  }

  /** The operation of f6/f7 on the operand at a, once it has passed the
    * guards. */
  function UnaryAt(m: Machine, w: Width, op: nat, a: nat): (r: Result)
    requires Wf(m)
    ensures Wf(r.m) && r.m.ports == m.ports
  {
    var s := Load(m, w, a);
    if op == 0 then Result(Done, Fetch(m, w).m)
    else if op == 2 || op == 3 then NotNegAt(m, w, op == 3, a)
    else if op == 4 || op == 5 then Result(Done, Multiply(m, w, s))
    else if op == 6 || op == 7 then Divide(m, w, s, op == 7)
    else Result(Done, m)
  }

  // ---------------------------------------------------------------------
  // fe/ff: INC and DEC

  /** fe: INC and DEC on a byte; for every other code the byte variable
    * keeps its initial 0 and that is stored. ff: INC and DEC on a word, but
    * the result is stored with `vm_write_byte`; other codes do nothing. */
  function IncDecGroup(m: Machine, w: Width, ops: Operands): (r: Result)
    requires Wf(m)
    ensures Wf(r.m) && r.m.regs == m.regs && r.m.ports == m.ports
  {
    match Operation(ops.o1)
    case Stop(e) => Result(e, m)
    case Got(op) =>
      match GateOf(ops.o2, RegTag(w))
      case Blocked(e) => Result(e, m)
      case Passed(a) => IncDecAt(m, w, op, a)
  }

  /** The operation of fe/ff on the operand at a, once it has passed the
    * guards. */
  function IncDecAt(m: Machine, w: Width, op: nat, a: nat): (r: Result)
    requires Wf(m)
    ensures Wf(r.m) && r.m.regs == m.regs && r.m.ports == m.ports
  {
    if op == 0 || op == 1 || w == W8 then Store(m, W8, a, IncDecValue(w, op, Load(m, w, a)))
    else Result(Done, m)
  }

  /** The value fe/ff store: the operand plus or minus one, cut to the
    * width, or the byte variable's initial 0. */
  function IncDecValue(w: Width, op: nat, s: uint16): uint16
  {
    if op == 0 then WrapTo(w, s as int + 1)
    else if op == 1 then WrapTo(w, s as int - 1)
    else 0
  }

  // ---------------------------------------------------------------------
  // Properties of the immediate groups

  /** A word register gets back its value when an immediate is added and
    * then subtracted (81 or 83 /0 then /5), whatever the carry flag. */
  lemma ImmediateAddThenSub(m: Machine, opcode: nat, r: Reg, s: uint16)
    requires Wf(m) && (opcode == 0x81 || opcode == 0x83) && General(r)
    ensures var add := Immediate(m, opcode, Operands(Op(0), Reg16(r), Imm16(s)));
      && add.outcome == Done
      && Immediate(add.m, opcode, Operands(Op(5), Reg16(r), Imm16(s))) == Result(Done, m)
  {
    var flags := m.regs[FLAGS];
    var d := m.regs[r];
    CpuAlu.AddThenSub(W16, d, s, flags);
    var v := CpuAlu.Compute(CpuAlu.Add, W16, d, s, flags);
    var regs1: Regs := m.regs[r := v];
    var m1 := m.(regs := regs1);
    assert ImmWidth(opcode) == W16 && WrapTo(W16, s) == s;
    assert ReadRm(m, Reg16(r), W16, TReg16) == Got(d);
    assert WriteBack(m, Reg16(r), W16, Some(TReg16), v) == Result(Done, m1);
    assert Immediate(m, opcode, Operands(Op(0), Reg16(r), Imm16(s))) == Result(Done, m1);
    assert regs1[FLAGS] == flags;
    var back := CpuAlu.Compute(CpuAlu.Sub, W16, v, s, flags);
    assert ReadRm(m1, Reg16(r), W16, TReg16) == Got(v);
    assert regs1[r := back] == m.regs;
    assert WriteBack(m1, Reg16(r), W16, Some(TReg16), back) == Result(Done, m);
  }

  /** A byte in memory gets back its value when an immediate is added and
    * then subtracted (80 /0 then /5). */
  lemma ImmediateByteAddThenSub(m: Machine, a: nat, s: uint16)
    requires Wf(m) && Memory.Mapped(a)
    ensures var add := Immediate(m, 0x80, Operands(Op(0), Addr(a), Imm8(s)));
      && add.outcome == Done
      && Immediate(add.m, 0x80, Operands(Op(5), Addr(a), Imm8(s))) == Result(Done, m)
  {
    var flags := m.regs[FLAGS];
    var d := Memory.ByteRead(m.mem, a);
    var s8 := WrapTo(W8, s);
    var v := CpuAlu.Compute(CpuAlu.Add, W8, d, s8, flags);
    CpuAlu.AddThenSub(W8, d, s8, flags);
    ImmediateByteAt(m, a, 0, s);
    var m1 := m.(mem := Memory.ByteWrite(m.mem, a, v).mem);
    ByteStoredTwice(m, a, v);
    ImmediateByteAt(m1, a, 5, s);
    assert m1.(mem := m.mem) == m;
  }

  /** 80 /0 (ADD) and 80 /5 (SUB) on a byte in memory store the result of
    * the operation on that byte and the cut immediate. */
  lemma ImmediateByteAt(m: Machine, a: nat, code: nat, s: uint16)
    requires Wf(m) && (code == 0 || code == 5)
    ensures var v := CpuAlu.Compute(GroupOp(code), W8, Memory.ByteRead(m.mem, a), WrapTo(W8, s), m.regs[FLAGS]);
      Immediate(m, 0x80, Operands(Op(code), Addr(a), Imm8(s))) == Result(Done, m.(mem := Memory.ByteWrite(m.mem, a, v).mem))
  {
    var ops := Operands(Op(code), Addr(a), Imm8(s));
    assert OpField(ops.o1) == Some(code);
    assert WordField(ops.o3) == Some(s);
    assert ReadRm(m, ops.o2, W8, TReg16) == Got(Memory.ByteRead(m.mem, a));
  }

  /** 82 and 83 return -1 for OR, AND and XOR, and for codes above 7. */
  lemma ImmediateMissingCases(m: Machine, opcode: nat, ops: Operands)
    requires Wf(m) && (opcode == 0x82 || opcode == 0x83)
    requires ops.o1 == Op(1) || ops.o1 == Op(4) || ops.o1 == Op(6) || (ops.o1.Op? && ops.o1.code > 7)
    requires WordField(ops.o3).Some? && ReadRm(m, ops.o2, ImmWidth(opcode), TReg16).Got?
    ensures Immediate(m, opcode, ops) == Result(Failed, m)
  {
  }

  /** SBB is undefined and CMP changes nothing, in all four groups; with a
    * byte register as destination 80 and 82 return -1. */
  lemma ImmediateWithoutEffect(m: Machine, opcode: nat, dst: Operand, s: uint16)
    requires Wf(m) && 0x80 <= opcode <= 0x83
    requires ReadRm(m, dst, ImmWidth(opcode), TReg16).Got?
    ensures Immediate(m, opcode, Operands(Op(3), dst, Imm16(s))) == Result(Undefined, m)
    ensures Immediate(m, opcode, Operands(Op(7), dst, Imm16(s))) == Result(Done, m)
    ensures forall r: Reg, h: bool, op: uint8 :: opcode % 2 == 0 ==>
      Immediate(m, opcode, Operands(Op(op), Reg8(r, h), Imm8(s))) == Result(Failed, m)
  {
  }

  // ---------------------------------------------------------------------
  // Properties of the shift groups

  /** No shift or rotate completes: every path returns -1 or stores
    * through the address bits of operand 2 as a pointer, and the machine
    * is left as it was. Case 6 fails for d2/d3 only when the count is
    * between 1 and the width. */
  lemma ShiftsNeverComplete(m: Machine, w: Width, ops: Operands)
    ensures ShiftOne(m, ops).outcome in {Failed, Undefined} && ShiftOne(m, ops).m == m
    ensures ShiftCount(m, w, ops).outcome in {Failed, Undefined} && ShiftCount(m, w, ops).m == m
    ensures ops.o1 == Op(6) && GateOf(ops.o2, RegTag(w)).Passed? ==>
      (ShiftCount(m, w, ops).outcome == Failed <==> 1 <= Lo(m.regs[CX]) <= Bits(w))
  {
  }

  /** A count of 0 leaves the value and passes no flag; a count above the
    * width gives 0 and passes 0 for CF and OF. */
  lemma CountShiftEdges(w: Width, op: nat, s: nat)
    requires s < Pow2(Bits(w))
    ensures CountShift(w, op, s, 0) == Shifted(s, None, None)
    ensures forall k :: k > Bits(w) ==> CountShift(w, op, s, k) == Shifted(0, Some(0), Some(0))
  {
  }

  /** `x / 2^k` lies below 2^(n-1) when x < 2^n and k >= 1. */
  lemma {:induction false} HalvedBelowTop(x: nat, n: nat, k: nat)
    requires 1 <= k && 1 <= n && x < Pow2(n)
    ensures Shr(x, k) < Pow2(n - 1)
    ensures Bit(Shr(x, k), n - 1) == 0
  {
    var top := Pow2(n - 1);
    var y := Shr(x, k);
    assert Pow2(n) == 2 * top;
    assert Pow2(k) >= 2 by {
      assert Pow2(k) == 2 * Pow2(k - 1);
    }
    DivByLarger(x, 2, Pow2(k));
    assert y <= x / 2 < top;
    BitAboveIsZero(y, n - 1);
  }

  lemma DivByLarger(x: nat, a: nat, b: nat)
    requires 0 < a <= b
    ensures x / b <= x / a
  {
    var q, t := x / b, x / a;
    assert q * a <= q * b <= x;
    assert x < (t + 1) * a by {
      assert x == t * a + x % a;
    }
    MulMonotone(t + 1, q, a);
  }

  lemma MulMonotone(p: nat, q: nat, a: nat)
    ensures p <= q ==> p * a <= q * a
  {
    if p <= q {
      assert q * a == p * a + (q - p) * a;
    }
  }

  /** SAR by a count within the width always gives 0: the shifted value has
    * its top bit clear, so the mask `f << (n - 1)` removes everything. */
  lemma SarClears(w: Width, s: nat, k: nat)
    requires s < Pow2(Bits(w)) && 1 <= k <= Bits(w)
    ensures CountShift(w, 7, s, k).v == 0
  {
    ArithmeticRightClears(s, k, Bits(w));
  }

  lemma ArithmeticRightClears(s: nat, k: nat, n: nat)
    requires s < Pow2(n) && 1 <= k <= n
    ensures ArithmeticRight(s, k, n) == 0
  {
    HalvedBelowTop(s, n, k);
  }

  lemma BitAboveIsZero(x: nat, j: nat)
    requires x < Pow2(j)
    ensures Bit(x, j) == 0
  {
    DivBelow(x, Pow2(j));
  }

  lemma DivBelow(x: nat, p: nat)
    requires x < p
    ensures x / p == 0
  {
  }

  /** SHR divides by 2^k, and SAL multiplies by 2^k cut to the width. */
  lemma ShiftArithmetic(w: Width, s: nat, k: nat)
    requires s < Pow2(Bits(w)) && 1 <= k <= Bits(w)
    ensures CountShift(w, 5, s, k).v == Shr(s, k)
    ensures CountShift(w, 4, s, k).v == (s * Pow2(k)) % Pow2(Bits(w))
    ensures CountShift(w, 5, s, k).v < Pow2(Bits(w) - 1)
  {
    HalvedBelowTop(s, Bits(w), k);
  }

  // ---------------------------------------------------------------------
  // Properties of the unary groups

  /** NOT and NEG on a mapped byte are their own inverses: applied twice
    * they leave the machine as it was. */
  lemma NotNegTwice(m: Machine, a: nat)
    requires Wf(m) && Memory.Mapped(a) && a % 0x100 == TAddr
    ensures var not := Operands(Op(2), Addr(a), Unset);
      Unary(Unary(m, W8, not).m, W8, not) == Result(Done, m)
    ensures var neg := Operands(Op(3), Addr(a), Unset);
      Unary(Unary(m, W8, neg).m, W8, neg) == Result(Done, m)
  {
    UnaryByteTwice(m, a, 2);
    UnaryByteTwice(m, a, 3);
  }

  lemma UnaryByteTwice(m: Machine, a: nat, code: nat)
    requires Wf(m) && Memory.Mapped(a) && a % 0x100 == TAddr && (code == 2 || code == 3)
    ensures var ops := Operands(Op(code), Addr(a), Unset);
      Unary(Unary(m, W8, ops).m, W8, ops) == Result(Done, m)
  {
    var ops := Operands(Op(code), Addr(a), Unset);
    var b := Memory.ByteRead(m.mem, a);
    var v := if code == 2 then 0xFF - b else Wrap8(-(b as int));
    UnaryByteAt(m, a, code);
    var m1 := m.(mem := Memory.ByteWrite(m.mem, a, v).mem);
    assert Unary(m, W8, ops).m == m1;
    ByteStoredTwice(m, a, v);
    UnaryByteAt(m1, a, code);
    ByteInverse(b, code);
    assert Unary(m1, W8, ops) == Result(Done, m1.(mem := Memory.ByteWrite(m1.mem, a, b).mem));
    assert m1.(mem := m.mem) == m;
  }

  /** Complement and negation of a byte are their own inverses. */
  lemma ByteInverse(b: uint8, code: nat)
    requires code == 2 || code == 3
    ensures var v := if code == 2 then 0xFF - b else Wrap8(-(b as int));
      (if code == 2 then 0xFF - v else Wrap8(-(v as int))) == b
  {
  }

  /** NOT (code 2) and NEG (code 3) on a byte in memory store the
    * complement or the negation of that byte. */
  lemma UnaryByteAt(m: Machine, a: nat, code: nat)
    requires Wf(m) && a % 0x100 == TAddr && (code == 2 || code == 3)
    ensures var b := Memory.ByteRead(m.mem, a);
      var v := if code == 2 then 0xFF - b else Wrap8(-(b as int));
      Unary(m, W8, Operands(Op(code), Addr(a), Unset)) == Result(Done, m.(mem := Memory.ByteWrite(m.mem, a, v).mem))
  {
    var ops := Operands(Op(code), Addr(a), Unset);
    assert Operation(ops.o1) == Got(code);
    assert GateOf(ops.o2, RegTag(W8)) == Passed(a);
  }

  /** Storing a byte and then storing back the byte that was there gives
    * the memory back. */
  lemma ByteStoredTwice(m: Machine, a: nat, v: uint8)
    requires Wf(m) && Memory.Mapped(a)
    ensures var m1 := m.(mem := Memory.ByteWrite(m.mem, a, v).mem);
      && Memory.ByteRead(m1.mem, a) == v
      && Memory.ByteWrite(m1.mem, a, Memory.ByteRead(m.mem, a)).mem == m.mem
  {
    var b := Memory.ByteRead(m.mem, a);
    Memory.ByteRoundTrip(m.mem, a, v, a);
    var mem1 := Memory.ByteWrite(m.mem, a, v).mem;
    Memory.ByteRoundTrip(mem1, a, b, a);
  }

  /** MUL and IMUL agree; the byte form gives the exact product AL * s; the
    * word form cuts it to 16 bits and clears DX, so the high half of the
    * product is lost. */
  lemma MultiplyProduct(m: Machine, a: nat, w: Width)
    requires Wf(m) && a % 0x100 == TAddr
    ensures var mul := Unary(m, w, Operands(Op(4), Addr(a), Unset));
      && mul == Unary(m, w, Operands(Op(5), Addr(a), Unset))
      && mul.outcome == Done
      && var s := Load(m, w, a);
        && (w == W8 ==> mul.m.regs[AX] == Lo(m.regs[AX]) * s)
        && (w == W16 ==> mul.m.regs[AX] == (Lo(m.regs[AX]) * s) % 0x1_0000 && mul.m.regs[DX] == 0)
  {
    var s := Load(m, w, a);
    assert Lo(m.regs[AX]) * s < 0x1_0000 || w == W16 by {
      if w == W8 {
        assert Lo(m.regs[AX]) * s <= 0xFF * 0xFF;
      }
    }
  }

  /** When the word DIV is defined and its quotient fits a word, AX and DX
    * are the quotient and remainder of DX:AX by the divisor; IDIV divides
    * the same way while DX is below 0x8000 and is undefined above. */
  lemma WordDivide(m: Machine, s: uint16)
    requires s != 0
    ensures var dividend := m.regs[DX] as int * 0x1_0000 + m.regs[AX];
      var r := Divide(m, W16, s, false);
      && r.outcome == Done
      && (dividend / s < 0x1_0000 ==> r.m.regs[AX] * s + r.m.regs[DX] == dividend && r.m.regs[DX] < s)
    ensures m.regs[DX] < 0x8000 ==> Divide(m, W16, s, true) == Divide(m, W16, s, false)
    ensures m.regs[DX] >= 0x8000 ==> Divide(m, W16, s, true).outcome == Undefined
  {
    var dividend := m.regs[DX] as int * 0x1_0000 + m.regs[AX];
    var q, rem := dividend / s, dividend % s;
    assert q * s + rem == dividend && 0 <= rem < s;
    var r := Divide(m, W16, s, false);
    assert r.m.regs[AX] == Wrap16(q) && r.m.regs[DX] == rem;
    if q < 0x1_0000 {
      assert Wrap16(q) == q;
    }
  }

  /** The divisor 0 is undefined in every form. */
  lemma DivideByZero(m: Machine, w: Width, signed: bool)
    ensures Divide(m, w, 0, signed) == Result(Undefined, m)
  {
  }

  /** TEST only moves IP past its immediate. */
  lemma TestMovesIp(m: Machine, a: nat, w: Width)
    requires Wf(m) && a % 0x100 == TAddr
    ensures var r := Unary(m, w, Operands(Op(0), Addr(a), Unset));
      && r.outcome == Done && r.m.mem == m.mem
      && r.m.regs == m.regs[IP := Add16(m.regs[IP], if w == W8 then 1 else 2)]
  {
  }

  // ---------------------------------------------------------------------
  // Properties of the INC/DEC groups

  /** fe INC then DEC gives a mapped byte back; codes 2-7 clear it. */
  lemma IncThenDec(m: Machine, a: nat)
    requires Wf(m) && Memory.Mapped(a) && a % 0x100 == TAddr
    ensures var inc := IncDecGroup(m, W8, Operands(Op(0), Addr(a), Unset));
      && inc.outcome == Done
      && IncDecGroup(inc.m, W8, Operands(Op(1), Addr(a), Unset)) == Result(Done, m)
    ensures forall op: uint8 :: 2 <= op ==>
      Memory.ByteRead(IncDecGroup(m, W8, Operands(Op(op), Addr(a), Unset)).m.mem, a) == 0
  {
    var b := Memory.ByteRead(m.mem, a);
    var v := Wrap8(b as int + 1);
    Memory.ByteRoundTrip(m.mem, a, v, a);
    var mem1 := Memory.ByteWrite(m.mem, a, v).mem;
    assert Wrap8(v as int - 1) == b;
    Memory.ByteRoundTrip(mem1, a, b, a);
    assert Memory.ByteWrite(mem1, a, b).mem == m.mem;
    Memory.ByteRoundTrip(m.mem, a, 0, a);
  }

  /** ff INC writes only the low byte of the incremented word: the byte at
    * a + 1 keeps its value. */
  lemma WordIncWritesOneByte(m: Machine, a: nat)
    requires Wf(m) && Memory.Mapped(a) && a % 0x100 == TAddr
    ensures var r := IncDecGroup(m, W16, Operands(Op(0), Addr(a), Unset));
      && r.outcome == Done
      && Memory.ByteRead(r.m.mem, a) == (Load(m, W16, a) + 1) % 0x100
      && Memory.ByteRead(r.m.mem, a + 1) == Memory.ByteRead(m.mem, a + 1)
  {
    var v := Wrap16(Load(m, W16, a) + 1);
    WordIncStores(m, a);
    var r := Store(m, W8, a, v);
    assert r.m.mem == Memory.ByteWrite(m.mem, a, Lo(v)).mem;
    LoOfWrap16(Load(m, W16, a) + 1);
    Memory.ByteRoundTrip(m.mem, a, Lo(v), a);
    Memory.ByteRoundTrip(m.mem, a, Lo(v), a + 1);
  }

  /** ff /0 on a memory word is a byte store of the incremented word. */
  lemma WordIncStores(m: Machine, a: nat)
    requires Wf(m) && Memory.Mapped(a) && a % 0x100 == TAddr
    ensures IncDecGroup(m, W16, Operands(Op(0), Addr(a), Unset)) == Store(m, W8, a, Wrap16(Load(m, W16, a) + 1))
  {
    var ops := Operands(Op(0), Addr(a), Unset);
    assert Operation(ops.o1) == Got(0);
    assert GateOf(ops.o2, RegTag(W16)) == Passed(a);
    assert IncDecGroup(m, W16, ops) == IncDecAt(m, W16, 0, a);
    assert IncDecValue(W16, 0, Load(m, W16, a)) == Wrap16(Load(m, W16, a) + 1);
  }

  // ---------------------------------------------------------------------
  // The executors, performed on the core

  method ExecImmediate(core: Core, opcode: nat, ops: Operands) returns (out: Outcome)
    requires core.Valid() && 0x80 <= opcode <= 0x83
    modifies core`reg, core.mem
    ensures Result(out, core.State()) == Immediate(old(core.State()), opcode, ops)
  {
    var w := ImmWidth(opcode);
    var op := OpField(ops.o1);
    var s := WordField(ops.o3);
    if op.None? || s.None? {
      out := Undefined;
      return;
    }
    var d := core.ReadRmOf(ops.o2, w, TReg16);
    if d.Stop? {
      out := d.outcome;
      return;
    }
    var o := op.value as nat;
    if !HasCase(opcode, o) {
      out := Failed;
    } else if o == 3 {
      out := Undefined;
    } else if o >= 7 {
      out := Done;
    } else {
      var v := CpuAlu.Compute(GroupOp(o), w, d.v, WrapTo(w, s.value), core.reg[FLAGS]);
      out := core.WriteBackTo(ops.o2, w, Some(TReg16), v);
    }
  }

  method ExecShiftOne(core: Core, ops: Operands) returns (out: Outcome)
    ensures out == ShiftOne(core.State(), ops).outcome
  {
    var op := Operation(ops.o1);
    var g := GateOf(ops.o2, TReg8);
    if op.Stop? {
      out := op.outcome;
    } else if g.Blocked? {
      out := g.outcome;
    } else {
      out := if op.v == 6 then Failed else Undefined;
    }
  }

  method ExecShiftCount(core: Core, w: Width, ops: Operands) returns (out: Outcome)
    ensures out == ShiftCount(core.State(), w, ops).outcome
  {
    var op := Operation(ops.o1);
    var g := GateOf(ops.o2, RegTag(w));
    if op.Stop? {
      out := op.outcome;
      return;
    }
    if g.Blocked? {
      out := g.outcome;
      return;
    }
    var count := Lo(core.reg[CX]);
    if count == 0 || count > Bits(w) {
      out := Undefined;
    } else {
      out := if op.v == 6 then Failed else Undefined;
    }
  }

  method ExecDivide(core: Core, w: Width, s: uint16, signed: bool) returns (out: Outcome)
    modifies core`reg
    ensures Result(out, core.State()) == Divide(old(core.State()), w, s, signed)
  {
    var ax := core.reg[AX];
    if s == 0 {
      out := Undefined;
      return;
    }
    if w == W8 {
      var q: int, rem: int;
      if signed {
        var qr := TruncDivMod(Signed16(ax), s);
        q, rem := qr.0, qr.1;
      } else {
        q, rem := ax as int / s, ax as int % s;
      }
      var v := ShiftedPair(Wrap8(rem), Wrap8(q));
      if v.None? {
        out := Undefined;
        return;
      }
      core.reg := core.reg[AX := v.value];
    } else {
      if signed && core.reg[DX] >= 0x8000 {
        out := Undefined;
        return;
      }
      var dividend := core.reg[DX] as int * 0x1_0000 + ax;
      core.reg := core.reg[AX := Wrap16(dividend / s)][DX := dividend % s];
    }
    out := Done;
  }

  method ExecUnary(core: Core, w: Width, ops: Operands) returns (out: Outcome)
    requires core.Valid()
    modifies core`reg, core.mem
    ensures Result(out, core.State()) == Unary(old(core.State()), w, ops)
  {
    var op := Operation(ops.o1);
    if op.Stop? {
      out := op.outcome;
      return;
    }
    var g := GateOf(ops.o2, RegTag(w));
    if g.Blocked? {
      out := g.outcome;
      return;
    }
    out := ExecUnaryAt(core, w, op.v, g.a);
  }

  method ExecMultiply(core: Core, w: Width, s: uint16)
    modifies core`reg
    ensures core.State() == Multiply(old(core.State()), w, s)
  {
    var p := Lo(core.reg[AX]) as int * s;
    core.reg := core.reg[AX := Wrap16(p)];
    if w == W16 {
      core.reg := core.reg[DX := 0];
    }
  }

  method ExecUnaryAt(core: Core, w: Width, code: nat, a: nat) returns (out: Outcome)
    requires core.Valid()
    modifies core`reg, core.mem
    ensures Result(out, core.State()) == UnaryAt(old(core.State()), w, code, a)
  {
    if code == 2 || code == 3 {
      out := ExecNotNeg(core, w, code == 3, a);
      return;
    }
    var s := core.LoadAt(w, a);
    if code == 0 {
      var _ := core.FetchOf(w);
      out := Done;
    } else if code == 4 || code == 5 {
      ExecMultiply(core, w, s);
      out := Done;
    } else if code == 6 || code == 7 {
      out := ExecDivide(core, w, s, code == 7);
    } else {
      out := Done;
    }
  }

  /** f6/f7 /2 (NOT) and /3 (NEG): the result is stored over the operand. */
  method ExecNotNeg(core: Core, w: Width, neg: bool, a: nat) returns (out: Outcome)
    requires core.Valid()
    modifies core.mem
    ensures Result(out, core.State()) == NotNegAt(old(core.State()), w, neg, a)
  {
    var s := core.LoadAt(w, a);
    out := core.StoreAt(w, a, NotNegValue(w, neg, s));
  }

  method ExecIncDecGroup(core: Core, w: Width, ops: Operands) returns (out: Outcome)
    requires core.Valid()
    modifies core.mem
    ensures Result(out, core.State()) == IncDecGroup(old(core.State()), w, ops)
  {
    var op := Operation(ops.o1);
    if op.Stop? {
      out := op.outcome;
      return;
    }
    var g := GateOf(ops.o2, RegTag(w));
    if g.Blocked? {
      out := g.outcome;
      return;
    }
    out := ExecIncDecAt(core, w, op.v, g.a);
  }

  method ExecIncDecAt(core: Core, w: Width, code: nat, a: nat) returns (out: Outcome)
    requires core.Valid()
    modifies core.mem
    ensures Result(out, core.State()) == IncDecAt(old(core.State()), w, code, a)
  {
    var s := core.LoadAt(w, a);
    if code == 0 || code == 1 || w == W8 {
      out := core.StoreAt(W8, a, IncDecValue(w, code, s));
    } else {
      out := Done;
    }
  }
}
