/**
  * The two-operand arithmetic and logic executors of arch/8086/cpu.c (ADD,
  * OR, ADC, SBB, AND, SUB, XOR, CMP and TEST in their register-to-r/m,
  * r/m-to-register and accumulator-immediate forms) and INC/DEC on the
  * sixteen-bit registers.
  *
  * Each executor reads its two operands, computes the result in a C
  * variable of the operand width, and stores it back; the guards on the
  * operand type bytes differ from executor to executor and are kept as
  * written. No executor changes FLAGS (see CpuFlags).
  */
module CpuAlu {
  import opened Wrappers
  import opened Registers
  import opened CpuState
  import CpuFlags

  datatype AluOp = Add | Or | Adc | Sbb | And | Sub | Xor | Cmp | Test

  /** The value an executor computes from the destination d and the source
    * s, in a variable of the width. ADC and SBB add or subtract
    * `FLAGS_CF`, which is 0 or 1. */
  function Compute(op: AluOp, w: Width, d: uint16, s: uint16, flags: uint16): (v: uint16)
    ensures v <= Ones(w)
  {
    var cf := Accessor(flags, CF);
    match op
    case Add => WrapTo(w, d + s)
    case Adc => WrapTo(w, d + s + cf)
    case Sub => WrapTo(w, d - s)
    case Cmp => WrapTo(w, d - s)
    case Sbb => WrapTo(w, d - s - cf)
    case And => WrapTo(w, And16(d, s))
    case Test => WrapTo(w, And16(d, s))
    case Or => WrapTo(w, Or16(d, s))
    case Xor => WrapTo(w, Xor16(d, s))
  }

  /** CMP and TEST compute a value and throw it away. */
  predicate Writes(op: AluOp) { op != Cmp && op != Test }

  // ---------------------------------------------------------------------
  // What the computed values mean

  /** `x` and `x` plus a multiple of the modulus wrap to the same value. */
  lemma WrapShift(w: Width, x: int, q: int)
    ensures WrapTo(w, x + q * (Ones(w) + 1)) == WrapTo(w, x)
  {
    if w == W8 {
      assert (x + q * 0x100) % 0x100 == x % 0x100;
    } else {
      assert (x + q * 0x1_0000) % 0x1_0000 == x % 0x1_0000;
    }
  }

  /** Subtracting what was added gives back the destination, in either
    * width. */
  lemma AddThenSub(w: Width, d: uint16, s: uint16, flags: uint16)
    requires d <= Ones(w)
    ensures Compute(Sub, w, Compute(Add, w, d, s, flags), s, flags) == d
    ensures Compute(Add, w, Compute(Sub, w, d, s, flags), s, flags) == d
  {
    SubUndoesAdd(w, d, s, flags);
    AddUndoesSub(w, d, s, flags);
  }

  lemma SubUndoesAdd(w: Width, d: uint16, s: uint16, flags: uint16)
    requires d <= Ones(w)
    ensures Compute(Sub, w, Compute(Add, w, d, s, flags), s, flags) == d
  {
    var M := Ones(w) + 1;
    var q := (d + s) / M;
    var a := Compute(Add, w, d, s, flags);
    assert a == d + s - q * M;
    assert Compute(Sub, w, a, s, flags) == WrapTo(w, d + (-q) * M);
    WrapShift(w, d, -q);
  }

  lemma AddUndoesSub(w: Width, d: uint16, s: uint16, flags: uint16)
    requires d <= Ones(w)
    ensures Compute(Add, w, Compute(Sub, w, d, s, flags), s, flags) == d
  {
    var M := Ones(w) + 1;
    var r := (d - s) / M;
    var b := Compute(Sub, w, d, s, flags);
    assert b == d - s - r * M;
    assert Compute(Add, w, b, s, flags) == WrapTo(w, d + (-r) * M);
    WrapShift(w, d, -r);
  }

  /** With the carry bit clear, ADC is ADD and SBB is SUB; with it set they
    * differ from them by one. */
  lemma CarryIn(w: Width, d: uint16, s: uint16, flags: uint16)
    ensures flags % 2 == 0 ==> Compute(Adc, w, d, s, flags) == Compute(Add, w, d, s, flags)
    ensures flags % 2 == 0 ==> Compute(Sbb, w, d, s, flags) == Compute(Sub, w, d, s, flags)
    ensures flags % 2 == 1 ==> Compute(Adc, w, d, s, flags) == WrapTo(w, Compute(Add, w, d, s, flags) + 1)
    ensures flags % 2 == 1 ==> Compute(Sbb, w, d, s, flags) == WrapTo(w, Compute(Sub, w, d, s, flags) - 1)
  {
    assert Pow2(0) == 1;
    assert Accessor(flags, CF) == flags % 2;
    var M := Ones(w) + 1;
    var a := (d + s) / M;
    assert Compute(Add, w, d, s, flags) == d + s - a * M;
    WrapShift(w, d + s + 1, -a);
    var b := (d - s) / M;
    assert Compute(Sub, w, d, s, flags) == d - s - b * M;
    WrapShift(w, d - s - 1, -b);
  }

  /** XOR of a value with itself is zero. */
  lemma XorSelf(w: Width, d: uint16, flags: uint16)
    ensures Compute(Xor, w, d, d, flags) == 0
  {
    WordIdentities(d);
  }

  /** AND and OR of a value with itself are the value. */
  lemma AndOrSelf(w: Width, d: uint16, flags: uint16)
    requires d <= Ones(w)
    ensures Compute(And, w, d, d, flags) == d
    ensures Compute(Or, w, d, d, flags) == d
  {
    WordIdentities(d);
    WrapToKeeps(w, d);
  }

  /** The carry argument the executors would hand to `update_flags` for the
    * value they computed: for ADD it reports exactly the unsigned
    * overflow, for SUB and CMP exactly the borrow. */
  lemma CarryArgOfComputed(w: Width, d: uint16, s: uint16, flags: uint16)
    requires d <= Ones(w) && s <= Ones(w)
    ensures CpuFlags.AddArgs(w, d, s, Compute(Add, w, d, s, flags)).cf == 1 <==> d + s > Ones(w)
    ensures CpuFlags.SubArgs(w, d, s, Compute(Sub, w, d, s, flags)).cf == 1 <==> s > d
    ensures CpuFlags.SubArgs(w, d, s, Compute(Cmp, w, d, s, flags)).cf == 1 <==> s > d
  {
    CpuFlags.AddCarryIsOverflow(w, d, s);
    CpuFlags.SubCarryIsBorrow(w, d, s);
  }

  // ---------------------------------------------------------------------
  // Register to r/m (opcodes 00/01, 08/09, 10/11, 18/19, 20/21, 28/29,
  // 30/31, 38/39, 84/85): operand 1 is the source register, operand 2 the
  // destination.

  /** The register type byte the executor accepts for its destination. */
  function ReadTag(op: AluOp, w: Width): nat { RegTag(w) }

  /** The register type byte of the write-back branch, where there is one:
    * ADD r/m16 has a branch that stores nothing, XOR r/m8 tests for
    * `OPERAND_REG16` so its byte register is never written. */
  function WriteTag(op: AluOp, w: Width): Option<nat>
  {
    if op == Add && w == W16 then None
    else if op == Xor then Some(TReg16)
    else if op == Or then None
    else Some(RegTag(w))
  }

  /** The destination read: OR takes the `addr` member whatever the
    * operand is; the others check the type byte first. */
  function Destination(m: Machine, op: AluOp, w: Width, o: Operand): (r: Read)
    requires Wf(m)
    ensures r.Got? ==> r.v <= Ones(w)
  {
    if op == Or then (if o.Addr? then Got(Load(m, w, o.a)) else Stop(Undefined))
    else ReadRm(m, o, w, ReadTag(op, w))
  }

  function RegToRm(m: Machine, op: AluOp, w: Width, ops: Operands): (r: Result)
    requires Wf(m)
    ensures Wf(r.m)
  {
    match Deref(m.regs, ops.o1, w)
    case Stop(e) => Result(e, m)
    case Got(s) =>
      match Destination(m, op, w, ops.o2)
      case Stop(e) => Result(e, m)
      case Got(d) =>
        if Writes(op) then WriteBack(m, ops.o2, w, WriteTag(op, w), Compute(op, w, d, s, m.regs[FLAGS]))
        else Result(Done, m)
  }

  // ---------------------------------------------------------------------
  // r/m to register (02/03, 0a/0b, 12/13, 1a/1b, 22/23, 2a/2b, 32/33,
  // 3a/3b): operand 1 is the destination register, operand 2 the source.

  /** The source read. OR takes the `addr` member unchecked; ADD r16 loads
    * memory, dereferences an `OPERAND_REG8` operand as a word, and adds 0
    * for any other type byte, a 16-bit register included. */
  function Source(m: Machine, op: AluOp, w: Width, o: Operand): (r: Read)
    requires Wf(m)
  {
    if op == Or then (if o.Addr? then Got(Load(m, w, o.a)) else Stop(Undefined))
    else if op == Add && w == W16 then
      match Tag(o)
      case None => Stop(Undefined)
      case Some(t) =>
        if t == TAddr then Got(Load(m, W16, o.a))
        else if t == TReg8 then Deref(m.regs, o, W16)
        else Got(0)
    else ReadRm(m, o, w, RegTag(w))
  }

  function RmToReg(m: Machine, op: AluOp, w: Width, ops: Operands): (r: Result)
    requires Wf(m)
    ensures Wf(r.m)
  {
    match Deref(m.regs, ops.o1, w)
    case Stop(e) => Result(e, m)
    case Got(d) =>
      match Source(m, op, w, ops.o2)
      case Stop(e) => Result(e, m)
      case Got(s) =>
        if Writes(op) then PutPtr(m, ops.o1, w, Compute(op, w, d, s, m.regs[FLAGS]))
        else Result(Done, m)
  }

  // ---------------------------------------------------------------------
  // Accumulator and immediate (04/05, 0c/0d, 14/15, 1c/1d, 24/25, 2c/2d,
  // 34/35, 3c/3d, a8/a9)

  function AccImm(m: Machine, op: AluOp, w: Width, ops: Operands): (r: Result)
    requires Wf(m)
    ensures Wf(r.m)
  {
    match WordField(ops.o1)
    case None => Result(Undefined, m)
    case Some(im) =>
      var ax := m.regs[AX];
      if !Writes(op) then Result(Done, m)
      else if w == W8 then
        Result(Done, m.(regs := m.regs[AX := SetLo(ax, Compute(op, W8, Lo(ax), Lo(im), m.regs[FLAGS]))]))
      else Result(Done, m.(regs := m.regs[AX := Compute(op, W16, ax, im, m.regs[FLAGS])]))
  }

  // ---------------------------------------------------------------------
  // INC and DEC (40-4f)

  /** `inc_r16` / `dec_r16`: the register plus or minus one, in 16 bits. */
  function IncDec(m: Machine, r: Reg, dec: bool): Machine
  {
    m.(regs := m.regs[r := Add16(m.regs[r], if dec then -1 else 1)])
  }

  /** DEC undoes INC and INC undoes DEC. */
  lemma IncDecInverse(m: Machine, r: Reg)
    ensures IncDec(IncDec(m, r, false), r, true) == m
    ensures IncDec(IncDec(m, r, true), r, false) == m
  {
    var x := m.regs[r];
    if x == 0xFFFF {
      assert Add16(x, 1) == 0;
    }
    if x == 0 {
      assert Add16(x, -1) == 0xFFFF;
    }
    assert m.regs[r := x] == m.regs;
  }

  // ---------------------------------------------------------------------
  // Properties of the executors

  /** No arithmetic or logic executor touches FLAGS when its register
    * operands come from the parsers: every register they write is a
    * general, segment or accumulator register. */
  lemma AluKeepsFlags(m: Machine, op: AluOp, w: Width, ops: Operands)
    requires Wf(m) && OperandsOk(ops)
    ensures RegToRm(m, op, w, ops).m.regs[FLAGS] == m.regs[FLAGS]
    ensures RmToReg(m, op, w, ops).m.regs[FLAGS] == m.regs[FLAGS]
    ensures AccImm(m, op, w, ops).m.regs[FLAGS] == m.regs[FLAGS]
  {
    RegToRmKeepsFlags(m, op, w, ops);
    RmToRegKeepsFlags(m, op, w, ops);
  }

  lemma RegToRmKeepsFlags(m: Machine, op: AluOp, w: Width, ops: Operands)
    requires Wf(m) && OperandsOk(ops)
    ensures RegToRm(m, op, w, ops).m.regs[FLAGS] == m.regs[FLAGS]
  {
  }

  lemma RmToRegKeepsFlags(m: Machine, op: AluOp, w: Width, ops: Operands)
    requires Wf(m) && OperandsOk(ops)
    ensures RmToReg(m, op, w, ops).m.regs[FLAGS] == m.regs[FLAGS]
  {
  }

  /** CMP and TEST change nothing: they only decide between completion,
    * -1 and undefined behaviour. */
  lemma CompareChangesNothing(m: Machine, w: Width, ops: Operands)
    requires Wf(m)
    ensures RegToRm(m, Cmp, w, ops).m == m && RegToRm(m, Test, w, ops).m == m
    ensures RmToReg(m, Cmp, w, ops).m == m
    ensures AccImm(m, Cmp, w, ops).m == m && AccImm(m, Test, w, ops).m == m
  {
  }

  /** `add r16, r16` (opcode 03, mode 3) adds 0, because the source branch
    * tests for `OPERAND_REG8`: the destination keeps its value. */
  lemma AddRegRegAddsZero(m: Machine, d: Reg, s: Reg)
    requires Wf(m)
    ensures RmToReg(m, Add, W16, Operands(Reg16(d), Reg16(s), Unset)) == Result(Done, m)
  {
    assert m.regs[d := m.regs[d]] == m.regs;
  }

  /** `xor r/m8, r8` with a byte register destination (opcode 30, mode 3)
    * completes without writing anything. */
  lemma XorByteRegisterNotWritten(m: Machine, s: Reg, d: Reg)
    requires Wf(m) && General(s) && General(d)
    ensures RegToRm(m, Xor, W8, Operands(Reg8(s, false), Reg8(d, false), Unset)) == Result(Done, m)
  {
  }

  /** OR with a register operand (mode 3) reads the host pointer as a
    * guest address, which the model treats as undefined; with a memory
    * operand it completes, storing d | s. */
  lemma OrNeedsMemoryOperand(m: Machine, w: Width, ops: Operands)
    requires Wf(m) && Deref(m.regs, ops.o1, w).Got?
    ensures !ops.o2.Addr? ==> RegToRm(m, Or, w, ops).outcome == Undefined
    ensures !ops.o2.Addr? ==> RmToReg(m, Or, w, ops).outcome == Undefined
    ensures ops.o2.Addr? && w == W8 ==> RegToRm(m, Or, w, ops).outcome == Done
  {
  }

  /** The guards of the register-to-r/m forms: a destination type byte
    * other than memory or the width's register makes them return -1
    * (apart from OR, which has no guard). */
  lemma RegToRmFailsOnOtherTags(m: Machine, op: AluOp, w: Width, ops: Operands)
    requires Wf(m) && op != Or && Deref(m.regs, ops.o1, w).Got?
    ensures RegToRm(m, op, w, ops).outcome == Failed <==>
      Tag(ops.o2).Some? && !ops.o2.Addr? && Tag(ops.o2) != Some(RegTag(w))
  {
    var d := Destination(m, op, w, ops.o2);
    if d.Got? && Writes(op) {
      var v := Compute(op, w, d.v, Deref(m.regs, ops.o1, w).v, m.regs[FLAGS]);
      var r := WriteBack(m, ops.o2, w, WriteTag(op, w), v);
      assert r.outcome != Failed by {
        if ops.o2.Addr? {
          assert r == Store(m, w, ops.o2.a, v);
        }
      }
    }
  }

  // ---------------------------------------------------------------------
  // The executors, performed on the core

  method DestinationOf(core: Core, op: AluOp, w: Width, o: Operand) returns (r: Read)
    requires core.Valid()
    ensures r == Destination(core.State(), op, w, o)
  {
    if op == Or {
      if o.Addr? {
        var v := core.LoadAt(w, o.a);
        r := Got(v);
      } else {
        r := Stop(Undefined);
      }
    } else {
      r := core.ReadRmOf(o, w, ReadTag(op, w));
    }
  }

  /** `instruct_process_{add,or,adc,sbb,and,sub,xor,cmp,test}_reg2rm_{8,16}`. */
  method ExecRegToRm(core: Core, op: AluOp, w: Width, ops: Operands) returns (out: Outcome)
    requires core.Valid()
    modifies core`reg, core.mem
    ensures Result(out, core.State()) == RegToRm(old(core.State()), op, w, ops)
  {
    var s := Deref(core.reg, ops.o1, w);
    if s.Stop? {
      out := s.outcome;
      return;
    }
    var d := DestinationOf(core, op, w, ops.o2);
    if d.Stop? {
      out := d.outcome;
      return;
    }
    if Writes(op) {
      out := core.WriteBackTo(ops.o2, w, WriteTag(op, w), Compute(op, w, d.v, s.v, core.reg[FLAGS]));
    } else {
      out := Done;
    }
  }

  method SourceOf(core: Core, op: AluOp, w: Width, o: Operand) returns (r: Read)
    requires core.Valid()
    ensures r == Source(core.State(), op, w, o)
  {
    if op == Or {
      if o.Addr? {
        var v := core.LoadAt(w, o.a);
        r := Got(v);
      } else {
        r := Stop(Undefined);
      }
    } else if op == Add && w == W16 {
      var t := Tag(o);
      if t.None? {
        r := Stop(Undefined);
      } else if t.value == TAddr {
        var v := core.LoadAt(W16, o.a);
        r := Got(v);
      } else if t.value == TReg8 {
        r := Deref(core.reg, o, W16);
      } else {
        r := Got(0);
      }
    } else {
      r := core.ReadRmOf(o, w, RegTag(w));
    }
  }

  /** `instruct_process_{add,or,adc,sbb,and,sub,xor,cmp}_rm2reg_{8,16}`. */
  method ExecRmToReg(core: Core, op: AluOp, w: Width, ops: Operands) returns (out: Outcome)
    requires core.Valid()
    modifies core`reg
    ensures Result(out, core.State()) == RmToReg(old(core.State()), op, w, ops)
  {
    var d := Deref(core.reg, ops.o1, w);
    if d.Stop? {
      out := d.outcome;
      return;
    }
    var s := SourceOf(core, op, w, ops.o2);
    if s.Stop? {
      out := s.outcome;
      return;
    }
    if Writes(op) {
      out := core.PutPtrAt(ops.o1, w, Compute(op, w, d.v, s.v, core.reg[FLAGS]));
    } else {
      out := Done;
    }
  }

  /** `instruct_process_{add,or,adc,sbb,and,sub,xor,cmp}_i{8al,16ax}` and
    * `test_im{8,16}`. */
  method ExecAccImm(core: Core, op: AluOp, w: Width, ops: Operands) returns (out: Outcome)
    requires core.Valid()
    modifies core`reg
    ensures Result(out, core.State()) == AccImm(old(core.State()), op, w, ops)
  {
    var im := WordField(ops.o1);
    if im.None? {
      out := Undefined;
      return;
    }
    out := Done;
    if !Writes(op) {
      return;
    }
    var ax := core.reg[AX];
    if w == W8 {
      core.reg := core.reg[AX := SetLo(ax, Compute(op, W8, Lo(ax), Lo(im.value), core.reg[FLAGS]))];
    } else {
      core.reg := core.reg[AX := Compute(op, W16, ax, im.value, core.reg[FLAGS])];
    }
  }

  /** `instruct_process_inc_*` / `dec_*`. */
  method ExecIncDec(core: Core, r: Reg, dec: bool)
    requires core.Valid()
    modifies core`reg
    ensures core.State() == IncDec(old(core.State()), r, dec)
  {
    core.reg := core.reg[r := Add16(core.reg[r], if dec then -1 else 1)];
  }
}
