/**
  * State of the 8086 interpreter (arch/8086/cpu.c, cpu.h): the core record,
  * the memory bus and port table it works on, the decoded operands handed
  * from a parser to an executor, and the small steps every executor is
  * built from (fetch, memory and register access, stack push and pop).
  *
  * Each step is specified by a function on a value of the whole machine
  * (`Machine`) and performed in place by a method of `Core` whose
  * postcondition ties the new state to that function of the old one.
  */
module CpuState {
  import opened Wrappers
  import opened Registers
  import Memory
  import Pci

  /** How an instruction ended:
    *  - Done: the executor returned 0 (or fell off its end);
    *  - Failed: it returned -1, and the dispatcher calls exit(-1);
    *  - Aborted: an `assert` of the C code fails;
    *  - Undefined: the C code has undefined behaviour here or depends on
    *    host pointer bits; the model stops without further effects;
    *  - Unmodelled: a path outside this model (the repeat prefixes and
    *    HLT, which loop on the whole interpreter). */
  datatype Outcome = Done | Failed | Aborted | Undefined | Unmodelled

  datatype Width = W8 | W16

  // ---------------------------------------------------------------------
  // A C idiom: a byte pair joined by a shift

  /** `(uint16_t)hi << 8 + (uint16_t)lo` as C parses it: `+` binds tighter
    * than `<<`, so hi is shifted as an int by 8 + lo. A count of 32 or more
    * or a result above INT_MAX is undefined (None); otherwise the low 16
    * bits are kept. The word meant is hi * 256 + lo. */
  function ShiftedPair(hi: uint8, lo: uint8): Option<uint16>
  {
    var k := 8 + lo;
    if k >= 32 || hi * Pow2(k) > 0x7FFF_FFFF then None
    else Some(Wrap16(hi * Pow2(k)))
  }

  /** With lo = 0 the pair is hi * 256; from lo = 8 on every defined result
    * is 0, and from lo = 24 on the shift is undefined. */
  lemma ShiftedPairValues(hi: uint8, lo: uint8)
    ensures lo == 0 ==> ShiftedPair(hi, lo) == Some(hi as int * 0x100)
    ensures lo >= 8 && ShiftedPair(hi, lo).Some? ==> ShiftedPair(hi, lo) == Some(0)
    ensures lo >= 24 ==> ShiftedPair(hi, lo).None?
  {
    if lo == 0 {
      ShiftedPairRowZero(hi);
    } else if 8 <= lo < 24 {
      ShiftedPairHigh(hi, lo);
    }
  }

  lemma ShiftedPairRowZero(hi: uint8)
    ensures ShiftedPair(hi, 0) == Some(hi as int * 0x100)
  {
    Pow2Byte();
    assert hi as int * 0x100 < 0x1_0000;
  }

  lemma ShiftedPairHigh(hi: uint8, lo: uint8)
    requires 8 <= lo < 24
    ensures ShiftedPair(hi, lo).Some? ==> ShiftedPair(hi, lo) == Some(0)
  {
    var q := hi * Pow2(lo - 8);
    ShiftSplit(hi, 16, lo - 8);
    Pow2Sixteen();
    assert hi * Pow2(8 + lo) == 0x1_0000 * q;
    assert Wrap16(0x1_0000 * q) == 0;
  }

  /** Shifting by j + k is shifting by k and scaling by 2^j. */
  lemma ShiftSplit(v: nat, j: nat, k: nat)
    ensures v * Pow2(j + k) == Pow2(j) * (v * Pow2(k))
  {
    Pow2Add(j, k);
  }

  /** Whenever it is defined, the low byte of the pair is 0: the value of lo
    * never reaches the result. */
  lemma ShiftedPairLowByte(hi: uint8, lo: uint8)
    ensures ShiftedPair(hi, lo).Some? ==> Lo(ShiftedPair(hi, lo).value) == 0
  {
    if ShiftedPair(hi, lo).Some? {
      var q := hi * Pow2(lo);
      ShiftSplit(hi, 8, lo);
      Pow2Byte();
      assert hi * Pow2(8 + lo) == 0x100 * q;
      ShiftedLowByteIsZero(q);
    }
  }

  /** The pair read back from the two halves of a word w, hi = Lo(w) and
    * lo = Hi(w), is w itself only for w = 0. */
  lemma {:induction false} ShiftedPairFixedPoint(w: uint16)
    ensures ShiftedPair(Lo(w), Hi(w)) == Some(w) <==> w == 0
  {
    var x, y := Lo(w), Hi(w);
    HalvesCompose(w);
    ShiftedPairValues(x, y);
    ShiftedPairLowByte(x, y);
    if y == 0 {
      if x as int * 0x100 == x as int {
        assert x == 0;
      }
    }
  }

  /** Largest value of a width, and its sign bit. */
  function Ones(w: Width): uint16 { if w == W8 then 0xFF else 0xFFFF }
  function Top(w: Width): uint16 { if w == W8 then 0x80 else 0x8000 }

  /** Assignment of a C int to a variable of the width. */
  function WrapTo(w: Width, x: int): (v: uint16)
    ensures v <= Ones(w)
  {
    if w == W8 then Wrap8(x) else Wrap16(x)
  }

  /** A value that fits the width is stored unchanged. */
  lemma WrapToKeeps(w: Width, x: int)
    requires 0 <= x <= Ones(w)
    ensures WrapTo(w, x) == x
  {
  }

  /** An operand as a parser leaves it: the union member it set, with its
    * tag (REG8 0, REG16 1, ADDR 2, IM8 3, IM16 4, OP 5, IP8 6, IP16 7,
    * SEGMENT 8). A register operand is a pointer into the register record:
    * `Reg8(r, true)` points at the high byte of field r. `Unset` is an
    * operand no parser wrote. */
  datatype Operand =
    | Unset
    | Reg8(r: Reg, high: bool)
    | Reg16(r: Reg)
    | Addr(a: nat)
    | Imm8(v: uint16)
    | Imm16(v: uint16)
    | Op(code: uint8)
    | Ip8(v: uint16)
    | Ip16(v: uint16)
    | Seg(r: Reg)
    | FarSeg(v: uint16)

  datatype Operands = Operands(o1: Operand, o2: Operand, o3: Operand)

  const NoOperands := Operands(Unset, Unset, Unset)

  /** The union read as its `uint8_t op` member: the low byte of whatever
    * was stored (little-endian host). The bits of a host pointer are not
    * known, and nothing was stored in an unset operand. */
  function OpField(o: Operand): Option<uint8>
  {
    match o
    case Addr(a) => Some(a % 0x100)
    case Imm8(v) => Some(Lo(v))
    case Imm16(v) => Some(Lo(v))
    case Op(c) => Some(c)
    case Ip8(v) => Some(Lo(v))
    case Ip16(v) => Some(Lo(v))
    case FarSeg(v) => Some(Lo(v))
    case _ => None
  }

  /** The union read as a 16-bit member (`im`, `offset`, `segment`). */
  function WordField(o: Operand): Option<uint16>
  {
    match o
    case Addr(a) => Some(a % 0x1_0000)
    case Imm8(v) => Some(v)
    case Imm16(v) => Some(v)
    case Ip8(v) => Some(v)
    case Ip16(v) => Some(v)
    case FarSeg(v) => Some(v)
    case _ => None
  }

  /** Physical address an `ADDR` operand carries. */
  function AddrField(o: Operand): Option<nat>
  {
    if o.Addr? then Some(o.a) else None
  }

  /** The type bytes `OPERAND_REG8` ... `OPERAND_SEGMENT`. */
  const TReg8: nat := 0
  const TReg16: nat := 1
  const TAddr: nat := 2
  const TIm8: nat := 3
  const TIm16: nat := 4
  const TOp: nat := 5
  const TIp8: nat := 6
  const TIp16: nat := 7
  const TSegment: nat := 8

  /** `operandN_type`: the type byte the parser stored with the operand;
    * the byte of an operand no parser wrote is indeterminate. */
  function Tag(o: Operand): (t: Option<nat>)
    ensures t.Some? ==> t.value <= TSegment
    ensures t == Some(TAddr) <==> o.Addr?
  {
    match o
    case Unset => None
    case Reg8(_, _) => Some(TReg8)
    case Reg16(_) => Some(TReg16)
    case Addr(_) => Some(TAddr)
    case Imm8(_) => Some(TIm8)
    case Imm16(_) => Some(TIm16)
    case Op(_) => Some(TOp)
    case Ip8(_) => Some(TIp8)
    case Ip16(_) => Some(TIp16)
    case Seg(_) => Some(TSegment)
    case FarSeg(_) => Some(TSegment)
  }

  /** The register type byte of a width. */
  function RegTag(w: Width): nat { if w == W8 then TReg8 else TReg16 }

  /** The eight general registers, the fields the parsers' register tables
    * point into; segment operands point at ES, CS, SS or DS. */
  predicate General(r: Reg) { r <= DI && r != IP }

  predicate SegmentReg(r: Reg) { SS <= r <= ES }

  /** A register operand points where a parser's tables point: a general
    * register (its high byte only for AX, CX, DX, BX) or a segment
    * register. No parser hands out a pointer to IP or FLAGS. */
  predicate PointerOk(o: Operand)
  {
    match o
    case Reg8(r, high) => General(r) && (high ==> r <= DX)
    case Reg16(r) => General(r)
    case Seg(r) => SegmentReg(r)
    case _ => true
  }

  predicate OperandsOk(ops: Operands)
  {
    PointerOk(ops.o1) && PointerOk(ops.o2) && PointerOk(ops.o3)
  }

  /** What a registered in-handler stores into the port before the value is
    * read: the device side is not part of this model, so it is a parameter. */
  datatype Devices = Devices(byteIn: uint8, wordIn: uint16)

  // ---------------------------------------------------------------------
  // The machine as a value

  datatype Machine = Machine(regs: Regs, mem: seq<uint8>, ports: seq<Pci.Port>)

  predicate Wf(m: Machine)
  {
    |m.mem| == Memory.Size && |m.ports| == Pci.PortCount
  }

  datatype Result = Result(outcome: Outcome, m: Machine)

  datatype Fetched = Fetched(v: uint16, m: Machine)

  function SetRegs(m: Machine, regs: Regs): Machine { m.(regs := regs) }

  /** `instruct_read_byte`: the byte at CS:IP; IP moves on by one. */
  function Fetch8(m: Machine): (f: Fetched)
    requires Wf(m)
    ensures Wf(f.m) && f.v <= 0xFF
  {
    var b := Memory.ByteRead(m.mem, Memory.AddrCalc(m.regs[CS], m.regs[IP]));
    Fetched(b, m.(regs := m.regs[IP := Add16(m.regs[IP], 1)]))
  }

  /** `instruct_read_word`: the word at CS:IP; IP moves on by two. */
  function Fetch16(m: Machine): (f: Fetched)
    requires Wf(m)
    ensures Wf(f.m)
  {
    var w := Memory.WordRead(m.mem, Memory.AddrCalc(m.regs[CS], m.regs[IP]));
    Fetched(w, m.(regs := m.regs[IP := Add16(m.regs[IP], 2)]))
  }

  function Fetch(m: Machine, w: Width): (f: Fetched)
    requires Wf(m)
    ensures Wf(f.m)
  {
    if w == W8 then Fetch8(m) else Fetch16(m)
  }

  /** A byte or word load from memory (a byte is zero-extended). */
  function Load(m: Machine, w: Width, a: nat): (v: uint16)
    requires Wf(m)
    ensures v <= Ones(w)
  {
    if w == W8 then Memory.ByteRead(m.mem, a) else Memory.WordRead(m.mem, a)
  }

  /** A byte or word store to memory. The return code of the bus is not
    * looked at by any executor; a word store whose scaled target lies past
    * the memory block is undefined behaviour. */
  function Store(m: Machine, w: Width, a: nat, v: uint16): (r: Result)
    requires Wf(m)
    ensures Wf(r.m) && r.m.regs == m.regs
    ensures r.outcome == Done || (r.outcome == Undefined && r.m == m)
  {
    if w == W8 then Result(Done, m.(mem := Memory.ByteWrite(m.mem, a, Lo(v)).mem))
    else
      var s := Memory.WordWrite(m.mem, a, v);
      if s.status == Memory.Overrun then Result(Undefined, m) else Result(Done, m.(mem := s.mem))
  }

  /** Load through a register pointer: a byte pointer reads its byte, a
    * 16-bit access through the high-byte pointer would straddle two fields. */
  function PtrLoad(regs: Regs, o: Operand, w: Width): (v: Option<uint16>)
    ensures v.Some? ==> v.value <= Ones(w)
  {
    match o
    case Reg8(r, high) =>
      if w == W8 then Some(if high then Hi(regs[r]) else Lo(regs[r]))
      else if high then None else Some(regs[r])
    case Reg16(r) => Some(if w == W8 then Lo(regs[r]) else regs[r])
    case Seg(r) => Some(if w == W8 then Lo(regs[r]) else regs[r])
    case _ => None
  }

  /** Store through a register pointer. */
  function PtrStore(regs: Regs, o: Operand, w: Width, v: uint16): (s: Option<Regs>)
  {
    match o
    case Reg8(r, high) =>
      if w == W8 then
        Some(regs[r := if high then SetHi(regs[r], Lo(v)) else SetLo(regs[r], Lo(v))])
      else if high then None else Some(regs[r := v])
    case Reg16(r) => Some(regs[r := if w == W8 then SetLo(regs[r], Lo(v)) else v])
    case Seg(r) => Some(regs[r := if w == W8 then SetLo(regs[r], Lo(v)) else v])
    case _ => None
  }

  /** A value stored through a register pointer reads back through it,
    * cut to the width of the access, and no other field changes. */
  lemma PtrStoreThenLoad(regs: Regs, o: Operand, w: Width, v: uint16)
    requires PtrStore(regs, o, w, v).Some?
    ensures PtrLoad(PtrStore(regs, o, w, v).value, o, w) == Some(if w == W8 then Lo(v) else v)
    ensures forall q :: q != o.r ==> PtrStore(regs, o, w, v).value[q] == regs[q]
  {
  }

  /** A read through an operand the executor expects to be a pointer. */
  datatype Read = Got(v: uint16) | Stop(outcome: Outcome)

  /** `*oper->operandN.reg` at the width: an operand that is not a register
    * pointer is dereferenced as one, which is undefined. */
  function Deref(regs: Regs, o: Operand, w: Width): (r: Read)
    ensures r.Got? ==> r.v <= Ones(w)
    ensures r.Stop? ==> r.outcome == Undefined
  {
    match PtrLoad(regs, o, w)
    case Some(v) => Got(v)
    case None => Stop(Undefined)
  }

  /** A store through an operand the executor expects to be a pointer. */
  function PutPtr(m: Machine, o: Operand, w: Width, v: uint16): (r: Result)
    ensures r.m.mem == m.mem && r.m.ports == m.ports
    ensures r.outcome == Done || (r.outcome == Undefined && r.m == m)
  {
    match PtrStore(m.regs, o, w, v)
    case Some(regs) => Result(Done, m.(regs := regs))
    case None => Result(Undefined, m)
  }

  /** The guarded read of an r/m operand: `ADDR` loads from memory, the
    * register type byte `reg` loads through the pointer, any other type
    * returns -1. */
  function ReadRm(m: Machine, o: Operand, w: Width, reg: nat): (r: Read)
    requires Wf(m)
    ensures r.Got? ==> r.v <= Ones(w)
    ensures r == Stop(Failed) <==> Tag(o).Some? && Tag(o) != Some(TAddr) && Tag(o) != Some(reg)
  {
    match Tag(o)
    case None => Stop(Undefined)
    case Some(t) =>
      if t == TAddr then Got(Load(m, w, o.a))
      else if t == reg then Deref(m.regs, o, w)
      else Stop(Failed)
  }

  /** The write-back after a guarded read: `ADDR` stores to memory, the
    * register type byte `reg` (when the executor has that branch) stores
    * through the pointer, and any other type stores nothing. */
  function WriteBack(m: Machine, o: Operand, w: Width, reg: Option<nat>, v: uint16): (r: Result)
    requires Wf(m)
    ensures Wf(r.m) && r.m.ports == m.ports
  {
    match Tag(o)
    case None => Result(Undefined, m)
    case Some(t) =>
      if t == TAddr then Store(m, w, o.a, v)
      else if reg == Some(t) then PutPtr(m, o, w, v)
      else Result(Done, m)
  }

  /** A guarded store: `ADDR` stores to memory, the register type byte
    * stores through the pointer, any other type returns -1. */
  function StoreRm(m: Machine, o: Operand, w: Width, reg: nat, v: uint16): (r: Result)
    requires Wf(m)
    ensures Wf(r.m) && r.m.ports == m.ports
    ensures r.outcome == Failed <==> Tag(o).Some? && Tag(o) != Some(TAddr) && Tag(o) != Some(reg)
  {
    match Tag(o)
    case None => Result(Undefined, m)
    case Some(t) =>
      if t == TAddr then Store(m, w, o.a, v)
      else if t == reg then PutPtr(m, o, w, v)
      else Result(Failed, m)
  }

  /** `push_stack_16`: the value must be non-zero (assert); it is written at
    * SS:SP and only then is SP lowered by two. */
  function Push(m: Machine, v: uint16): (r: Result)
    requires Wf(m)
    ensures Wf(r.m)
  {
    if v == 0 then Result(Aborted, m)
    else
      var s := Store(m, W16, Memory.AddrCalc(m.regs[SS], m.regs[SP]), v);
      if s.outcome != Done then s
      else Result(Done, s.m.(regs := s.m.regs[SP := Add16(s.m.regs[SP], -2)]))
  }

  /** The word a pop reads: the one at SS:SP. */
  function StackTop(m: Machine): uint16
    requires Wf(m)
  {
    Memory.WordRead(m.mem, Memory.AddrCalc(m.regs[SS], m.regs[SP]))
  }

  /** The register half of `pop_stack_16`: x is stored into r and only then
    * is SP raised by two (so popping into SP yields x + 2). */
  function Popped(regs: Regs, r: Reg, x: uint16): Regs
  {
    var regs' := regs[r := x];
    regs'[SP := Add16(regs'[SP], 2)]
  }

  /** `pop_stack_16` into register r. */
  function PopInto(m: Machine, r: Reg): (m': Machine)
    requires Wf(m)
    ensures Wf(m') && m'.mem == m.mem
  {
    m.(regs := Popped(m.regs, r, StackTop(m)))
  }

  /** A push completes exactly when the word is non-zero and its store at
    * SS:SP fits in the block, wherever the stack lies. */
  lemma PushCompletes(m: Machine, v: uint16)
    requires Wf(m)
    ensures Push(m, v).outcome == Done <==> v != 0 && Memory.WordFits(Memory.AddrCalc(m.regs[SS], m.regs[SP]))
  {
    Memory.WordWriteFits(m.mem, Memory.AddrCalc(m.regs[SS], m.regs[SP]), v);
  }

  /** A completed push keeps every register but SP, which drops by two. */
  lemma PushRegs(m: Machine, v: uint16)
    requires Wf(m) && Push(m, v).outcome == Done
    ensures Push(m, v).m.regs == m.regs[SP := Add16(m.regs[SP], -2)]
  {
  }

  /** A pop into r != SP stores the popped word into r, raises SP by two
    * and keeps every other register. */
  lemma PoppedRegs(regs: Regs, r: Reg, x: uint16)
    requires r != SP
    ensures Popped(regs, r, x)[r] == x
    ensures Popped(regs, r, x)[SP] == Add16(regs[SP], 2)
    ensures forall q :: q != r && q != SP ==> Popped(regs, r, x)[q] == regs[q]
  {
  }

  /** Push writes at SP and then lowers SP, pop reads at SP and then raises
    * it: a push followed by a pop leaves SP where it was, but the pop reads
    * the slot two bytes below the one the push wrote. */
  lemma PushThenPop(m: Machine, v: uint16, r: Reg)
    requires Wf(m) && r != SP
    requires Push(m, v).outcome == Done
    ensures var m1 := Push(m, v).m;
      var m2 := PopInto(m1, r);
      && m2.regs[SP] == m.regs[SP]
      && m2.regs[r] == Memory.WordRead(m1.mem, Memory.AddrCalc(m.regs[SS], Add16(m.regs[SP], -2)))
  {
    PushRegs(m, v);
    var m1 := Push(m, v).m;
    PoppedRegs(m1.regs, r, StackTop(m1));
  }

  /** With SS = 0 the stack address is SP itself; a push there is a
    * completed word store at SP followed by SP - 2. */
  lemma PushAtLowStack(m: Machine, v: uint16)
    requires Wf(m) && v != 0
    requires m.regs[SS] == 0 && 2 <= m.regs[SP] <= 0x1FE
    ensures Push(m, v) == Result(Done, Machine(m.regs[SP := m.regs[SP] - 2],
      Memory.WordWrite(m.mem, m.regs[SP], v).mem, m.ports))
  {
    var sp: nat := m.regs[SP];
    assert Memory.AddrCalc(m.regs[SS], m.regs[SP]) == sp;
    Memory.WordWriteLow(m.mem, sp, v);
  }

  /** With SS = 0 and SP in 2..0x1FE, the push stores its word at 2*SP
    * (the scaled word write) while the pop reads at SP - 2, so the popped
    * word is the old memory there, not the pushed value. */
  lemma PushThenPopSlots(m: Machine, v: uint16, r: Reg)
    requires Wf(m) && r != SP && v != 0
    requires m.regs[SS] == 0 && 2 <= m.regs[SP] <= 0x1FE
    ensures Push(m, v).outcome == Done
    ensures var m2 := PopInto(Push(m, v).m, r);
      && m2.regs[SP] == m.regs[SP]
      && m2.regs[r] == Memory.WordRead(m.mem, m.regs[SP] - 2)
  {
    var sp: nat := m.regs[SP];
    PushAtLowStack(m, v);
    Memory.WordWriteKeepsSlotBelow(m.mem, sp, v);
    var m1 := Push(m, v).m;
    assert StackTop(m1) == Memory.WordRead(m.mem, sp - 2);
    PoppedRegs(m1.regs, r, StackTop(m1));
  }

  // ---------------------------------------------------------------------
  // The core, updated in place

  /** `cpu8086_core_t` with the memory bus and the port table it reaches
    * through globals. `reg` is the nested `registers_t` record. */
  class Core {
    var reg: Regs
    var oldip: nat
    const mem: array<uint8>
    const ports: array<Pci.Port>

    predicate Valid()
    {
      mem.Length == Memory.Size && ports.Length == Pci.PortCount
    }

    ghost function State(): (m: Machine)
      reads this, mem, ports
      ensures Valid() ==> Wf(m)
    {
      Machine(reg, mem[..], ports[..])
    }

    /** The static core record is zero; memory and ports come from
      * `vm_init` and `pci_init`. */
    constructor (mem: array<uint8>, ports: array<Pci.Port>)
      requires mem.Length == Memory.Size && ports.Length == Pci.PortCount
      ensures Valid() && this.mem == mem && this.ports == ports
      ensures reg == Zero && oldip == 0
    {
      this.mem, this.ports := mem, ports;
      reg := Zero;
      oldip := 0;
    }

    /** `cpu8086_init`: segment and general registers cleared, CS = 0x7C0;
      * FLAGS is not touched. */
    method Init()
      modifies this`reg
      ensures reg == Zero[CS := 0x7C0][FLAGS := old(reg[FLAGS])]
    {
      reg := reg[SS := 0][ES := 0][DS := 0][CS := 0x7C0][IP := 0];
      reg := reg[AX := 0][BX := 0][CX := 0][DX := 0][SP := 0][BP := 0][SI := 0][DI := 0];
    }

    method FetchByte() returns (b: uint16)
      requires Valid()
      modifies this`reg
      ensures Fetched(b, State()) == Fetch8(old(State()))
    {
      var a := Memory.AddrCalc(reg[CS], reg[IP]);
      reg := reg[IP := Add16(reg[IP], 1)];
      var x := Memory.ReadByte(mem, a);
      b := x;
    }

    method FetchWord() returns (w: uint16)
      requires Valid()
      modifies this`reg
      ensures Fetched(w, State()) == Fetch16(old(State()))
    {
      var a := Memory.AddrCalc(reg[CS], reg[IP]);
      reg := reg[IP := Add16(reg[IP], 2)];
      w := Memory.ReadWord(mem, a);
    }

    method FetchOf(w: Width) returns (v: uint16)
      requires Valid()
      modifies this`reg
      ensures Fetched(v, State()) == Fetch(old(State()), w)
    {
      if w == W8 { v := FetchByte(); } else { v := FetchWord(); }
    }

    method LoadAt(w: Width, a: nat) returns (v: uint16)
      requires Valid()
      ensures v == Load(State(), w, a)
    {
      if w == W8 {
        var b := Memory.ReadByte(mem, a);
        v := b;
      } else {
        v := Memory.ReadWord(mem, a);
      }
    }

    method StoreAt(w: Width, a: nat, v: uint16) returns (out: Outcome)
      requires Valid()
      modifies mem
      ensures Result(out, State()) == Store(old(State()), w, a, v)
    {
      if w == W8 {
        var _ := Memory.WriteByte(mem, a, Lo(v));
        out := Done;
      } else {
        var status := Memory.WriteWord(mem, a, v);
        out := if status == Memory.Overrun then Undefined else Done;
      }
    }

    method ReadRmOf(o: Operand, w: Width, regTag: nat) returns (r: Read)
      requires Valid()
      ensures r == ReadRm(State(), o, w, regTag)
    {
      var t := Tag(o);
      if t.None? {
        r := Stop(Undefined);
      } else if t.value == TAddr {
        var v := LoadAt(w, o.a);
        r := Got(v);
      } else if t.value == regTag {
        r := Deref(reg, o, w);
      } else {
        r := Stop(Failed);
      }
    }

    method PutPtrAt(o: Operand, w: Width, v: uint16) returns (out: Outcome)
      requires Valid()
      modifies this`reg
      ensures Result(out, State()) == PutPtr(old(State()), o, w, v)
    {
      var s := PtrStore(reg, o, w, v);
      if s.Some? {
        reg := s.value;
        out := Done;
      } else {
        out := Undefined;
      }
    }

    method WriteBackTo(o: Operand, w: Width, regTag: Option<nat>, v: uint16) returns (out: Outcome)
      requires Valid()
      modifies this`reg, mem
      ensures Result(out, State()) == WriteBack(old(State()), o, w, regTag, v)
    {
      var t := Tag(o);
      if t.None? {
        out := Undefined;
      } else if t.value == TAddr {
        out := StoreAt(w, o.a, v);
      } else if regTag == t {
        out := PutPtrAt(o, w, v);
      } else {
        out := Done;
      }
    }

    method StoreRmTo(o: Operand, w: Width, regTag: nat, v: uint16) returns (out: Outcome)
      requires Valid()
      modifies this`reg, mem
      ensures Result(out, State()) == StoreRm(old(State()), o, w, regTag, v)
    {
      var t := Tag(o);
      if t.None? {
        out := Undefined;
      } else if t.value == TAddr {
        out := StoreAt(w, o.a, v);
      } else if t.value == regTag {
        out := PutPtrAt(o, w, v);
      } else {
        out := Failed;
      }
    }

    method PushWord(v: uint16) returns (out: Outcome)
      requires Valid()
      modifies this`reg, mem
      ensures Result(out, State()) == Push(old(State()), v)
    {
      if v == 0 {
        out := Aborted;
        return;
      }
      out := StoreAt(W16, Memory.AddrCalc(reg[SS], reg[SP]), v);
      if out == Done {
        reg := reg[SP := Add16(reg[SP], -2)];
      }
    }

    method PopWord(r: Reg)
      requires Valid()
      modifies this`reg
      ensures State() == PopInto(old(State()), r)
    {
      var v := Memory.ReadWord(mem, Memory.AddrCalc(reg[SS], reg[SP]));
      reg := reg[r := v];
      reg := reg[SP := Add16(reg[SP], 2)];
    }
  }
}
