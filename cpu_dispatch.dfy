/**
  * The instruction dispatcher of arch/8086/cpu.c: the 256-entry table of
  * parser and executor pairs, and the step that fetches an opcode, runs its
  * parser (when the entry has one) and then its executor (when it has one).
  *
  * Every parser returns 0, so an entry with an executor always runs it; an
  * executor that returns -1 makes the dispatcher exit. An entry without a
  * parser leaves the operand record uninitialised, modelled as three
  * operands no parser wrote.
  */
module CpuDispatch {
  import opened Wrappers
  import opened Registers
  import opened CpuState
  import opened CpuDecode
  import CpuAlu
  import CpuBcd
  import CpuMove
  import CpuStack
  import CpuControl
  import CpuIo
  import CpuString
  import CpuGroup

  // ---------------------------------------------------------------------
  // Executor kinds, grouped as the executor modules are

  /** The three operand forms of the arithmetic rows 00-3f. */
  datatype AluForm = ToRm | ToReg | WithAcc

  datatype ArithProc =
    | Alu(form: AluForm, op: CpuAlu.AluOp, w: Width)
    | IncReg(r: Reg)
    | DecReg(r: Reg)
    | Daa | Das | Aaa | Aas | Aam | Aad | Cbw | Cwd

  datatype MoveProc =
    | MovRegToRm(w: Width)
    | MovRmToReg(w: Width)
    | MovSegToRm
    | Lea
    | MovRmToSeg
    | XchgRegRm(w: Width)
    | XchgAx(r: Reg)
    | Lahf
    | Sahf
    | MovAccFromMem(w: Width)
    | MovAccToMem
    | MovImm8(r: Reg, high: bool)
    | MovImm16(r: Reg)
    | MovImmRm(w: Width)
    | LoadFar(seg: Reg)
    | Xlat

  datatype StackProc =
    | PushReg(r: Reg)
    | PopReg(r: Reg)
    | PushLowered(r: Reg)
    | PopDs
    | Popf
    | PopRm
    | CallNear
    | CallFar
    | RetImm
    | Ret
    | RetfImm
    | Retf
    | Interrupt(n: uint8)
    | IntImm
    | Iret

  datatype FlowProc = Jcc(c: CpuControl.Cond) | LoopOp(k: CpuControl.LoopKind) | JmpNear | JmpFar

  datatype IoProc = InAl | InAx | OutAl | OutAx | InAlDx | InAxDx | OutAlDx | OutAxDx

  datatype StrProc = Movs(w: Width) | Compare | Stos(w: Width) | Lods(w: Width)

  /** The group executors; `opcode` of an immediate group is 80-83. */
  datatype GroupProc = ImmediateGroup(opcode: nat) | ShiftOne | ShiftCount(w: Width) | Unary(w: Width) | IncDecGroup(w: Width)

  /** An executor of the table. `NoEffect` stands for ESC, LOCK, NOP, WAIT,
    * CMC and CLC..STD, whose bodies change no state (the flag setters do
    * nothing); `Repeat` for REPNE/REPE and `Halt` for HLT. */
  datatype Proc =
    | Arith(arith: ArithProc)
    | Move(move: MoveProc)
    | Stack(stack: StackProc)
    | Flow(flow: FlowProc)
    | Io(io: IoProc)
    | Str(str: StrProc)
    | Group(group: GroupProc)
    | NoEffect
    | Repeat
    | Halt

  /** One row of `cpu8086_instruction_table`: a NULL slot is `None`. */
  datatype Entry = Entry(parse: Option<Format>, proc: Option<Proc>)

  // ---------------------------------------------------------------------
  // The table

  /** The width of the byte/word pairs: even opcodes are byte forms. */
  function WidthOf(op: uint8): Width { if op % 2 == 0 then W8 else W16 }

  function RmFormat(w: Width): Format { if w == W8 then Reg2Rm8 else Reg2Rm16 }
  function ImmFormat(w: Width): Format { if w == W8 then Immediate8 else Immediate16 }
  function TableFormat(w: Width): Format { if w == W8 then TableRm8 else TableRm16 }

  /** 00-3f: eight operations, each in six forms (columns 0-5), and the
    * segment, prefix and decimal-adjust slots in columns 6 and 7. */
  function LowRows(op: uint8): Entry
    requires op < 0x40
  {
    var col := op % 8;
    if col < 6 then
      var alu := [CpuAlu.Add, CpuAlu.Or, CpuAlu.Adc, CpuAlu.Sbb, CpuAlu.And, CpuAlu.Sub, CpuAlu.Xor, CpuAlu.Cmp][op / 8];
      var w := WidthOf(op);
      if col < 2 then Entry(Some(RmFormat(w)), Some(Arith(Alu(ToRm, alu, w))))
      else if col < 4 then Entry(Some(RmFormat(w)), Some(Arith(Alu(ToReg, alu, w))))
      else Entry(Some(ImmFormat(w)), Some(Arith(Alu(WithAcc, alu, w))))
    else
      var p :=
        if op == 0x06 then Some(Stack(PushReg(ES)))
        else if op == 0x07 then Some(Stack(PopReg(ES)))
        else if op == 0x0e then Some(Stack(PushReg(CS)))
        else if op == 0x16 then Some(Stack(PushLowered(SS)))
        else if op == 0x17 then Some(Stack(PopReg(SS)))
        else if op == 0x1e then Some(Stack(PushReg(DS)))
        else if op == 0x1f then Some(Stack(PopDs))
        else if op == 0x27 then Some(Arith(Daa))
        else if op == 0x2f then Some(Arith(Das))
        else if op == 0x37 then Some(Arith(Aaa))
        else if op == 0x3f then Some(Arith(Aas))
        else None;
      Entry(None, p)
  }

  /** 80-9f: the immediate groups, TEST, XCHG, MOV, LEA, POP r/m, the XCHG
    * AX row, the conversions, CALL far and the FLAGS transfers. */
  function MiddleRows(op: uint8): Entry
    requires 0x80 <= op < 0xa0
  {
    var w := WidthOf(op);
    if op < 0x84 then Entry(Some(if w == W8 then Rm2Imm8 else Rm2Imm16), Some(Group(ImmediateGroup(op))))
    else if op < 0x86 then Entry(Some(RmFormat(w)), Some(Arith(Alu(ToRm, CpuAlu.Test, w))))
    else if op < 0x88 then Entry(Some(RmFormat(w)), Some(Move(XchgRegRm(w))))
    else if op < 0x8a then Entry(Some(RmFormat(w)), Some(Move(MovRegToRm(w))))
    else if op < 0x8c then Entry(Some(RmFormat(w)), Some(Move(MovRmToReg(w))))
    else if op == 0x8c then Entry(Some(Seg2Rm16), Some(Move(MovSegToRm)))
    else if op == 0x8d then Entry(Some(Reg2RmLea), Some(Move(Lea)))
    else if op == 0x8e then Entry(Some(Seg2Rm16), Some(Move(MovRmToSeg)))
    else if op == 0x8f then Entry(Some(Seg2Rm16), Some(Stack(PopRm)))
    else if op == 0x90 then Entry(None, Some(NoEffect))
    else if op < 0x98 then Entry(None, Some(Move(XchgAx(Reg16Table(op - 0x90)))))
    else if op == 0x98 then Entry(None, Some(Arith(Cbw)))
    else if op == 0x99 then Entry(None, Some(Arith(Cwd)))
    else if op == 0x9a then Entry(Some(Call16), Some(Stack(CallFar)))
    else if op == 0x9b then Entry(None, Some(NoEffect))
    else if op == 0x9c then Entry(None, Some(Stack(PushLowered(FLAGS))))
    else if op == 0x9d then Entry(None, Some(Stack(Popf)))
    else if op == 0x9e then Entry(None, Some(Move(Sahf)))
    else Entry(None, Some(Move(Lahf)))
  }

  /** a0-bf: the accumulator moves, the string instructions, TEST with an
    * immediate and MOV of an immediate to a register. */
  function StringRows(op: uint8): Entry
    requires 0xa0 <= op < 0xc0
  {
    var w := WidthOf(op);
    if op < 0xa2 then Entry(Some(RmFormat(w)), Some(Move(MovAccFromMem(w))))
    else if op < 0xa4 then Entry(Some(RmFormat(w)), Some(Move(MovAccToMem)))
    else if op < 0xa6 then Entry(None, Some(Str(Movs(w))))
    else if op < 0xa8 then Entry(None, Some(Str(Compare)))
    else if op < 0xaa then Entry(Some(ImmFormat(w)), Some(Arith(Alu(WithAcc, CpuAlu.Test, w))))
    else if op < 0xac then Entry(None, Some(Str(Stos(w))))
    else if op < 0xae then Entry(None, Some(Str(Lods(w))))
    else if op < 0xb0 then Entry(None, Some(Str(Compare)))
    else if op < 0xb8 then
      // `instruct_process_mov_im82bh` stores through the DH pointer.
      var k := op - 0xb0;
      var target := if k == 7 then MovImm8(DX, true) else MovImm8(Reg16Table(k % 4), k >= 4);
      Entry(Some(Immediate8), Some(Move(target)))
    else Entry(Some(Immediate16), Some(Move(MovImm16(Reg16Table(op - 0xb8)))))
  }

  /** c0-df: returns, LES/LDS, MOV r/m with an immediate, the interrupts,
    * the shift groups, AAM/AAD, XLAT and ESC. */
  function ControlRows(op: uint8): Entry
    requires 0xc0 <= op < 0xe0
  {
    var w := WidthOf(op);
    if op == 0xc2 then Entry(Some(Immediate16), Some(Stack(RetImm)))
    else if op == 0xc3 then Entry(None, Some(Stack(Ret)))
    else if op == 0xc4 then Entry(Some(Reg2Rm16), Some(Move(LoadFar(ES))))
    else if op == 0xc5 then Entry(Some(Reg2Rm16), Some(Move(LoadFar(DS))))
    else if op == 0xc6 then Entry(Some(Rm2Imm8), Some(Move(MovImmRm(W8))))
    else if op == 0xc7 then Entry(Some(Rm2Imm16), Some(Move(MovImmRm(W16))))
    else if op == 0xca then Entry(Some(Immediate16), Some(Stack(RetfImm)))
    else if op == 0xcb then Entry(None, Some(Stack(Retf)))
    else if op == 0xcc then Entry(None, Some(Stack(Interrupt(3))))
    else if op == 0xcd then Entry(Some(Immediate8), Some(Stack(IntImm)))
    else if op == 0xce then Entry(None, Some(Stack(Interrupt(4))))
    else if op == 0xcf then Entry(None, Some(Stack(Iret)))
    else if op < 0xd2 && 0xd0 <= op then Entry(Some(TableFormat(w)), Some(Group(ShiftOne)))
    else if op < 0xd4 && 0xd2 <= op then Entry(Some(TableFormat(w)), Some(Group(ShiftCount(w))))
    else if op == 0xd4 then Entry(Some(Immediate8), Some(Arith(Aam)))
    else if op == 0xd5 then Entry(Some(Immediate8), Some(Arith(Aad)))
    else if op == 0xd7 then Entry(None, Some(Move(Xlat)))
    else if 0xd8 <= op then Entry(Some(RmFormat(w)), Some(NoEffect))
    else Entry(None, None)
  }

  /** e0-ff: the loops, port I/O, CALL and JMP, the prefixes, HLT, the flag
    * instructions and the unary and INC/DEC groups. */
  function HighRows(op: uint8): Entry
    requires 0xe0 <= op
  {
    var w := WidthOf(op);
    if op < 0xe4 then
      var k := [CpuControl.LoopNe, CpuControl.LoopE, CpuControl.Loop, CpuControl.Jcxz][op - 0xe0];
      Entry(Some(IpInc8), Some(Flow(LoopOp(k))))
    else if op == 0xe4 then Entry(Some(Immediate8), Some(Io(InAl)))
    else if op == 0xe5 then Entry(Some(Immediate8), Some(Io(InAx)))
    else if op == 0xe6 then Entry(Some(Immediate8), Some(Io(OutAl)))
    else if op == 0xe7 then Entry(Some(Immediate8), Some(Io(OutAx)))
    else if op == 0xe8 then Entry(Some(IpInc16), Some(Stack(CallNear)))
    else if op == 0xe9 then Entry(Some(IpInc16), Some(Flow(JmpNear)))
    else if op == 0xea then Entry(Some(Call16), Some(Flow(JmpFar)))
    else if op == 0xeb then Entry(Some(IpInc8), Some(Flow(JmpNear)))
    else if op == 0xec then Entry(None, Some(Io(InAlDx)))
    else if op == 0xed then Entry(None, Some(Io(InAxDx)))
    else if op == 0xee then Entry(None, Some(Io(OutAlDx)))
    else if op == 0xef then Entry(None, Some(Io(OutAxDx)))
    else if op == 0xf0 then Entry(None, Some(NoEffect))
    else if op == 0xf1 then Entry(None, None)
    else if op < 0xf4 then Entry(None, Some(Repeat))
    else if op == 0xf4 then Entry(None, Some(Halt))
    else if op == 0xf5 then Entry(None, Some(NoEffect))
    else if op < 0xf8 then Entry(Some(TableFormat(w)), Some(Group(Unary(w))))
    else if op < 0xfe then Entry(None, Some(NoEffect))
    else Entry(Some(TableFormat(w)), Some(Group(IncDecGroup(w))))
  }

  /** `cpu8086_instruction_table[op]`. */
  function Table(op: uint8): Entry
  {
    if op < 0x40 then LowRows(op)
    else if op < 0x50 then
      Entry(None, Some(Arith(if op < 0x48 then IncReg(Reg16Table(op - 0x40)) else DecReg(Reg16Table(op - 0x48)))))
    else if op < 0x60 then
      Entry(None, Some(Stack(if op < 0x58 then PushReg(Reg16Table(op - 0x50)) else PopReg(Reg16Table(op - 0x58)))))
    else if op < 0x70 then Entry(None, None)
    else if op < 0x80 then Entry(Some(IpInc8), Some(Flow(Jcc(CpuControl.CondOf(op - 0x70)))))
    else if op < 0xa0 then MiddleRows(op)
    else if op < 0xc0 then StringRows(op)
    else if op < 0xe0 then ControlRows(op)
    else HighRows(op)
  }

  /** The opcodes whose slot holds no executor. */
  predicate Unassigned(op: uint8)
  {
    op in {0x0f, 0x26, 0x2e, 0x36, 0x3e, 0xc0, 0xc1, 0xc8, 0xc9, 0xd6, 0xf1} || 0x60 <= op < 0x70
  }

  /** An executor whose register parameters name the fields the C code
    * names: general or segment registers, never IP or FLAGS as a target. */
  predicate Targets(p: Proc)
  {
    match p
    case Arith(a) => (a.IncReg? || a.DecReg?) ==> General(a.r)
    case Move(v) =>
      && (v.XchgAx? ==> General(v.r))
      && (v.MovImm8? ==> General(v.r) && (v.high ==> v.r <= DX))
      && (v.MovImm16? ==> General(v.r))
      && (v.LoadFar? ==> SegmentReg(v.seg))
    case Stack(s) => s.PopReg? ==> General(s.r) || SegmentReg(s.r)
    case Group(g) => g.ImmediateGroup? ==> 0x80 <= g.opcode <= 0x83
    case _ => true
  }

  // ---------------------------------------------------------------------
  // Running an executor

  function ExecArith(m: Machine, a: ArithProc, ops: Operands): (r: Result)
    requires Wf(m)
    ensures Wf(r.m) && r.m.ports == m.ports
  {
    match a
    case Alu(form, op, w) =>
      if form == ToRm then CpuAlu.RegToRm(m, op, w, ops)
      else if form == ToReg then CpuAlu.RmToReg(m, op, w, ops)
      else CpuAlu.AccImm(m, op, w, ops)
    case IncReg(r) => Result(Done, CpuAlu.IncDec(m, r, false))
    case DecReg(r) => Result(Done, CpuAlu.IncDec(m, r, true))
    case Daa => Result(Done, CpuBcd.Daa(m))
    case Das => Result(Done, CpuBcd.Das(m))
    case Aaa => Result(Done, CpuBcd.Aaa(m))
    case Aas => Result(Done, CpuBcd.Aas(m))
    case Aam => Result(Done, CpuBcd.Aam(m))
    case Aad => CpuBcd.Aad(m)
    case Cbw => Result(Done, CpuBcd.Cbw(m))
    case Cwd => Result(Done, CpuBcd.Cwd(m))
  }

  function ExecMove(m: Machine, v: MoveProc, ops: Operands): (r: Result)
    requires Wf(m)
    ensures Wf(r.m) && r.m.ports == m.ports
  {
    match v
    case MovRegToRm(w) => CpuMove.MovRegToRm(m, w, ops)
    case MovRmToReg(w) => CpuMove.MovRmToReg(m, w, ops)
    case MovSegToRm => CpuMove.MovSegToRm(m, ops)
    case Lea => CpuMove.Lea(m, ops)
    case MovRmToSeg => CpuMove.MovRmToSeg(m, ops)
    case XchgRegRm(w) => CpuMove.XchgRegRm(m, w, ops)
    case XchgAx(r) => Result(Done, CpuMove.XchgAx(m, r))
    case Lahf => Result(Done, CpuMove.Lahf(m))
    case Sahf => Result(Done, CpuMove.Sahf(m))
    case MovAccFromMem(w) => CpuMove.MovAccFromMem(m, w, ops)
    case MovAccToMem => CpuMove.MovAccToMem(m, ops)
    case MovImm8(r, high) => CpuMove.MovImm8(m, r, high, ops)
    case MovImm16(r) => CpuMove.MovImm16(m, r, ops)
    case MovImmRm(w) => CpuMove.MovImmRm(m, w, ops)
    case LoadFar(seg) => CpuMove.LoadFar(m, seg, ops)
    case Xlat => Result(Done, CpuMove.Xlat(m))
  }

  function ExecStack(m: Machine, s: StackProc, ops: Operands): (r: Result)
    requires Wf(m)
    ensures Wf(r.m) && r.m.ports == m.ports
  {
    match s
    case PushReg(r) => Push(m, m.regs[r])
    case PopReg(r) => Result(Done, PopInto(m, r))
    case PushLowered(r) => CpuStack.PushLowering(m, m.regs[r])
    case PopDs => CpuStack.PopDs(m)
    case Popf => Result(Done, CpuStack.Popf(m))
    case PopRm => CpuStack.PopRm(m, ops)
    case CallNear => CpuStack.CallNear(m, ops)
    case CallFar => CpuStack.CallFar(m, ops)
    case RetImm => CpuStack.RetImm(m, ops)
    case Ret => Result(Done, CpuStack.Ret(m))
    case RetfImm => CpuStack.RetfImm(m, ops)
    case Retf => Result(Done, CpuStack.Retf(m))
    case Interrupt(n) => CpuStack.Interrupt(m, n)
    case IntImm => CpuStack.Int(m, ops)
    case Iret => CpuStack.Iret(m)
  }

  function ExecFlow(m: Machine, f: FlowProc, ops: Operands): (r: Result)
    requires Wf(m)
    ensures Wf(r.m) && r.m.mem == m.mem && r.m.ports == m.ports
  {
    match f
    case Jcc(c) => CpuControl.Jcc(m, c, ops)
    case LoopOp(k) => CpuControl.LoopStep(m, k, ops)
    case JmpNear => CpuControl.JmpNear(m, ops)
    case JmpFar => CpuControl.JmpFar(m, ops)
  }

  function ExecIo(m: Machine, i: IoProc, ops: Operands, d: Devices): (r: Result)
    requires Wf(m)
    ensures Wf(r.m) && r.m.mem == m.mem
  {
    match i
    case InAl => CpuIo.InAl(m, d, ops)
    case InAx => CpuIo.InAx(m, d, ops)
    case OutAl => CpuIo.OutAl(m, ops)
    case OutAx => CpuIo.OutAx(m, ops)
    case InAlDx => Result(Done, CpuIo.InAlDx(m, d))
    case InAxDx => Result(Done, CpuIo.InAxDx(m, d))
    case OutAlDx => Result(Done, CpuIo.OutAlDx(m))
    case OutAxDx => Result(Done, CpuIo.OutAxDx(m))
  }

  function ExecStr(m: Machine, t: StrProc): (r: Result)
    requires Wf(m)
    ensures Wf(r.m) && r.m.ports == m.ports
  {
    match t
    case Movs(w) => CpuString.Movs(m, w)
    case Compare => Result(Done, CpuString.Compare(m))
    case Stos(w) => CpuString.Stos(m, w)
    case Lods(w) => Result(Done, CpuString.Lods(m, w))
  }

  function ExecGroup(m: Machine, g: GroupProc, ops: Operands): (r: Result)
    requires Wf(m) && (g.ImmediateGroup? ==> 0x80 <= g.opcode <= 0x83)
    ensures Wf(r.m) && r.m.ports == m.ports
  {
    match g
    case ImmediateGroup(opcode) => CpuGroup.Immediate(m, opcode, ops)
    case ShiftOne => CpuGroup.ShiftOne(m, ops)
    case ShiftCount(w) => CpuGroup.ShiftCount(m, w, ops)
    case Unary(w) => CpuGroup.Unary(m, w, ops)
    case IncDecGroup(w) => CpuGroup.IncDecGroup(m, w, ops)
  }

  /** `cpu8086_instruction_table[opcode].proc(&oper)`. */
  function Execute(m: Machine, p: Proc, ops: Operands, d: Devices): (r: Result)
    requires Wf(m) && Targets(p)
    ensures Wf(r.m)
    ensures p == NoEffect ==> r == Result(Done, m)
    ensures p == Repeat || p == Halt ==> r.outcome == Unmodelled
  {
    match p
    case Arith(a) => ExecArith(m, a, ops)
    case Move(v) => ExecMove(m, v, ops)
    case Stack(s) => ExecStack(m, s, ops)
    case Flow(f) => ExecFlow(m, f, ops)
    case Io(i) => ExecIo(m, i, ops, d)
    case Str(t) => ExecStr(m, t)
    case Group(g) => ExecGroup(m, g, ops)
    case NoEffect => Result(Done, m)
    case Repeat => Result(Unmodelled, m)
    case Halt => Result(Unmodelled, m)
  }

  // ---------------------------------------------------------------------
  // One instruction

  /** The opcode fetched, the operands its parser left and the machine
    * after the fetch and the parse. */
  datatype Decoded = Decoded(opcode: uint8, ops: Operands, m: Machine)

  function Decode(m: Machine): (x: Decoded)
    requires Wf(m)
    ensures Wf(x.m) && x.opcode == Peek(m)
  {
    var f := Fetch8(m);
    var op := f.v as uint8;
    match Table(op).parse
    case None => Decoded(op, NoOperands, f.m)
    case Some(fmt) =>
      var p := Parse(fmt, f.m);
      Decoded(op, p.ops, p.m)
  }

  /** `cpu8086_proc_instruction`: the executor of the decoded opcode runs
    * on the machine the parse left; a slot without one ends the step. */
  function Step(m: Machine, d: Devices): (r: Result)
    requires Wf(m)
    ensures Wf(r.m)
  {
    var x := Decode(m);
    TableTargets(x.opcode);
    match Table(x.opcode).proc
    case None => Result(Done, x.m)
    case Some(p) => Execute(x.m, p, x.ops, d)
  }

  // ---------------------------------------------------------------------
  // Properties of the table

  /** Every executor in the table names its registers as the C code does. */
  lemma TableTargets(op: uint8)
    ensures Table(op).proc.Some? ==> Targets(Table(op).proc.value)
  {
  }

  /** A slot has no executor exactly at the opcodes the table leaves NULL;
    * none of those has a parser either. */
  lemma {:induction false} UnassignedSlots(op: uint8)
    ensures Table(op).proc.None? <==> Unassigned(op)
    ensures Table(op).proc.None? ==> Table(op).parse.None?
  {
    if op < 0x40 {
      assert Table(op) == LowRows(op);
    } else if op < 0x80 {
    } else if op < 0xa0 {
      assert Table(op) == MiddleRows(op);
    } else if op < 0xc0 {
      assert Table(op) == StringRows(op);
    } else if op < 0xe0 {
      assert Table(op) == ControlRows(op);
    } else {
      assert Table(op) == HighRows(op);
    }
  }

  /** The byte and word forms of every arithmetic row share operation and
    * form and differ only in width and parser width. */
  lemma {:induction false} ArithmeticRowPairs(op: uint8)
    requires op < 0x40 && op % 8 < 6 && op % 2 == 0
    ensures var e0 := Table(op); var e1 := Table(op + 1);
      && e0.proc.Some? && e0.proc.value.Arith? && e0.proc.value.arith.Alu?
      && e1.proc.Some? && e1.proc.value.Arith? && e1.proc.value.arith.Alu?
      && e0.proc.value.arith.w == W8 && e1.proc.value.arith.w == W16
      && e0.proc.value.arith.op == e1.proc.value.arith.op
      && e0.proc.value.arith.form == e1.proc.value.arith.form
      && e0.parse.Some? && e1.parse.Some?
      && (e0.parse.value == Reg2Rm8 <==> e1.parse.value == Reg2Rm16)
  {
    assert (op + 1) / 8 == op / 8 && (op + 1) % 8 == op % 8 + 1;
    assert Table(op) == LowRows(op);
    assert Table(op + 1) == LowRows(op + 1);
  }

  // ---------------------------------------------------------------------
  // Properties of a step

  /** Fetching and parsing move IP past the opcode and the operand bytes
    * of its format and change nothing else. */
  lemma {:induction false} DecodeAdvancesIp(m: Machine)
    requires Wf(m)
    ensures var op := Peek(m);
      var f := Fetch8(m);
      var n := match Table(op).parse case None => 0 case Some(fmt) => Length(fmt, Peek(f.m));
      Decode(m).m == m.(regs := m.regs[IP := Add16(m.regs[IP], 1 + n)])
  {
    var f := Fetch8(m);
    var op := f.v as uint8;
    match Table(op).parse
    case None =>
    case Some(fmt) =>
      ParseAdvancesIp(fmt, f.m);
      Add16Twice(m.regs[IP], 1, Length(fmt, Peek(f.m)));
  }

  /** The operands a step hands to its executor point only where the
    * parsers' tables point. */
  lemma DecodedOperandsOk(m: Machine)
    requires Wf(m)
    ensures OperandsOk(Decode(m).ops)
  {
    var f := Fetch8(m);
    match Table(f.v as uint8).parse
    case None =>
    case Some(fmt) => ParsePointersOk(fmt, f.m);
  }

  /** A NULL slot only consumes its opcode byte. */
  lemma UnassignedOnlyFetches(m: Machine, d: Devices)
    requires Wf(m) && Unassigned(Peek(m))
    ensures Step(m, d) == Result(Done, m.(regs := m.regs[IP := Add16(m.regs[IP], 1)]))
  {
    UnassignedSlots(Peek(m));
  }

  /** No executor but POPF and SAHF changes FLAGS. */
  lemma {:induction false} ExecuteKeepsFlags(m: Machine, p: Proc, ops: Operands, d: Devices)
    requires Wf(m) && Targets(p) && OperandsOk(ops)
    requires p != Stack(Popf) && p != Move(Sahf)
    ensures Execute(m, p, ops, d).m.regs[FLAGS] == m.regs[FLAGS]
  {
    match p
    case Arith(a) => ArithKeepsFlags(m, a, ops);
    case Move(v) => MoveKeepsFlags(m, v, ops);
    case Stack(s) => StackKeepsFlags(m, s, ops);
    case Flow(f) =>
    case Io(i) =>
    case Str(t) =>
    case Group(g) => GroupKeepsFlags(m, g, ops);
    case NoEffect =>
    case Repeat =>
    case Halt =>
  }

  lemma ArithKeepsFlags(m: Machine, a: ArithProc, ops: Operands)
    requires Wf(m) && OperandsOk(ops) && ((a.IncReg? || a.DecReg?) ==> General(a.r))
    ensures ExecArith(m, a, ops).m.regs[FLAGS] == m.regs[FLAGS]
  {
    if a.Alu? {
      CpuAlu.AluKeepsFlags(m, a.op, a.w, ops);
    }
  }

  lemma MoveKeepsFlags(m: Machine, v: MoveProc, ops: Operands)
    requires Wf(m) && OperandsOk(ops) && Targets(Move(v)) && v != Sahf
    ensures ExecMove(m, v, ops).m.regs[FLAGS] == m.regs[FLAGS]
  {
    match v
    case MovRegToRm(w) =>
    case MovRmToReg(w) =>
    case MovSegToRm =>
    case Lea =>
    case MovRmToSeg =>
    case XchgRegRm(w) =>
    case XchgAx(r) =>
    case Lahf =>
    case MovAccFromMem(w) =>
    case MovAccToMem =>
    case MovImm8(r, high) =>
    case MovImm16(r) =>
    case MovImmRm(w) =>
    case LoadFar(seg) =>
    case Xlat =>
  }

  lemma StackKeepsFlags(m: Machine, s: StackProc, ops: Operands)
    requires Wf(m) && OperandsOk(ops) && Targets(Stack(s)) && s != Popf
    ensures ExecStack(m, s, ops).m.regs[FLAGS] == m.regs[FLAGS]
  {
    match s
    case PushReg(r) =>
    case PopReg(r) =>
    case PushLowered(r) =>
    case PopDs =>
    case PopRm =>
    case CallNear =>
    case CallFar =>
    case RetImm =>
    case Ret =>
    case RetfImm =>
    case Retf =>
    case Interrupt(n) =>
    case IntImm =>
    case Iret =>
  }

  lemma GroupKeepsFlags(m: Machine, g: GroupProc, ops: Operands)
    requires Wf(m) && OperandsOk(ops) && (g.ImmediateGroup? ==> 0x80 <= g.opcode <= 0x83)
    ensures ExecGroup(m, g, ops).m.regs[FLAGS] == m.regs[FLAGS]
  {
    match g
    case ImmediateGroup(opcode) =>
    case ShiftOne =>
    case ShiftCount(w) =>
    case Unary(w) =>
    case IncDecGroup(w) =>
  }

  /** POPF sits only at 9d and SAHF only at 9e. */
  lemma {:induction false} FlagWriterSlots(op: uint8)
    ensures Table(op).proc == Some(Stack(Popf)) <==> op == 0x9d
    ensures Table(op).proc == Some(Move(Sahf)) <==> op == 0x9e
  {
    if op < 0x40 {
      assert Table(op) == LowRows(op);
    } else if op < 0x80 {
    } else if op < 0xa0 {
      assert Table(op) == MiddleRows(op);
    } else if op < 0xc0 {
      assert Table(op) == StringRows(op);
    } else if op < 0xe0 {
      assert Table(op) == ControlRows(op);
    } else {
      assert Table(op) == HighRows(op);
    }
  }

  /** A step changes FLAGS only at opcodes 9d (POPF, the word at the stack
    * top) and 9e (SAHF, AH into the low byte). */
  lemma StepKeepsFlags(m: Machine, d: Devices)
    requires Wf(m)
    ensures Peek(m) != 0x9d && Peek(m) != 0x9e ==> Step(m, d).m.regs[FLAGS] == m.regs[FLAGS]
    ensures Peek(m) == 0x9d ==> Step(m, d).m.regs[FLAGS] == StackTop(m)
    ensures Peek(m) == 0x9e ==> Step(m, d).m.regs[FLAGS] == SetLo(m.regs[FLAGS], Hi(m.regs[AX]))
  {
    var x := Decode(m);
    var op := x.opcode;
    DecodeAdvancesIp(m);
    DecodedOperandsOk(m);
    TableTargets(op);
    FlagWriterSlots(op);
    assert x.m.regs[FLAGS] == m.regs[FLAGS];
    if op == 0x9d {
      assert Table(op) == Entry(None, Some(Stack(Popf)));
      assert x.m == Fetch8(m).m;
      assert Step(m, d) == Result(Done, CpuStack.Popf(x.m));
    } else if op == 0x9e {
      assert Table(op) == Entry(None, Some(Move(Sahf)));
      assert x.m == Fetch8(m).m;
      assert Step(m, d) == Result(Done, CpuMove.Sahf(x.m));
    } else if Table(op).proc.Some? {
      var p := Table(op).proc.value;
      assert Step(m, d) == Execute(x.m, p, x.ops, d);
      ExecuteKeepsFlags(x.m, p, x.ops, d);
    }
  }

  /** Opcodes d0-d3 never complete: the shift groups either return -1 or
    * store through the address bits, and the machine is left as the parse
    * left it. */
  lemma ShiftOpcodesNeverComplete(m: Machine, d: Devices)
    requires Wf(m) && 0xd0 <= Peek(m) <= 0xd3
    ensures Step(m, d).outcome in {Failed, Undefined}
    ensures Step(m, d).m == Decode(m).m
  {
    var x := Decode(m);
    var op := x.opcode;
    var g := if op < 0xd2 then ShiftOne else ShiftCount(WidthOf(op));
    assert Table(op) == ControlRows(op);
    assert Table(op).proc == Some(Group(g));
    assert Step(m, d) == ExecGroup(x.m, g, x.ops);
    CpuGroup.ShiftsNeverComplete(x.m, WidthOf(op), x.ops);
  }

  /** INT3 and INTO complete exactly when FLAGS, CS and IP (after the
    * fetch) are non-zero and the frame fits, wherever the stack lies; then
    * INT3 has built its frame and continues at 000E:000C, and INTO does the
    * same at 0012:0010 whatever OF holds. */
  lemma InterruptOpcodes(m: Machine, d: Devices)
    requires Wf(m) && (Peek(m) == 0xcc || Peek(m) == 0xce)
    ensures Step(m, d).outcome == Done
      <==> m.regs[FLAGS] != 0 && m.regs[CS] != 0 && Add16(m.regs[IP], 1) != 0 && CpuStack.FrameFits(m.regs[SS], m.regs[SP])
    ensures var n := if Peek(m) == 0xcc then 3 else 4;
      Step(m, d).outcome == Done ==>
        Step(m, d).m.regs == m.regs[IP := Add16(m.regs[IP], 1)][SP := Add16(m.regs[SP], -6)][CS := 4 * n + 2][IP := 4 * n]
  {
    var n: uint8 := if Peek(m) == 0xcc then 3 else 4;
    InterruptStep(m, d, n);
    InterruptAfterFetch(m, n);
  }

  /** The interrupt sequence run on the machine the opcode fetch left. */
  lemma InterruptAfterFetch(m: Machine, n: uint8)
    requires Wf(m)
    ensures CpuStack.Interrupt(Fetch8(m).m, n).outcome == Done
      <==> m.regs[FLAGS] != 0 && m.regs[CS] != 0 && Add16(m.regs[IP], 1) != 0 && CpuStack.FrameFits(m.regs[SS], m.regs[SP])
    ensures CpuStack.Interrupt(Fetch8(m).m, n).outcome == Done ==>
      CpuStack.Interrupt(Fetch8(m).m, n).m.regs
        == m.regs[IP := Add16(m.regs[IP], 1)][SP := Add16(m.regs[SP], -6)][CS := 4 * n as int + 2][IP := 4 * n as int]
  {
    var m1 := Fetch8(m).m;
    assert m1.regs == m.regs[IP := Add16(m.regs[IP], 1)];
    CpuStack.InterruptFrame(m1, n);
  }

  /** cc and ce run the interrupt sequence right after the opcode fetch. */
  lemma InterruptStep(m: Machine, d: Devices, n: uint8)
    requires Wf(m) && (Peek(m) == 0xcc || Peek(m) == 0xce)
    requires n == if Peek(m) == 0xcc then 3 else 4
    ensures Step(m, d) == CpuStack.Interrupt(Fetch8(m).m, n)
  {
    var x := Decode(m);
    assert Table(x.opcode) == ControlRows(x.opcode);
    assert Table(x.opcode) == Entry(None, Some(Stack(Interrupt(n))));
    assert x.m == Fetch8(m).m;
  }

  /** b7 (MOV BH, imm8) writes the immediate into DH and leaves BX alone. */
  lemma MovImmToBhWritesDh(m: Machine, d: Devices)
    requires Wf(m) && Peek(m) == 0xb7
    ensures var b := Peek(Fetch8(m).m);
      && Step(m, d).outcome == Done
      && Step(m, d).m.regs[DX] == SetHi(m.regs[DX], b)
      && Step(m, d).m.regs[BX] == m.regs[BX]
  {
    var x := Decode(m);
    assert Table(0xb7) == Entry(Some(Immediate8), Some(Move(MovImm8(DX, true))));
    var f := Fetch8(m);
    assert x.m == Fetch8(f.m).m && x.ops == Operands(Imm8(Fetch8(f.m).v), Unset, Unset);
    assert Step(m, d) == CpuMove.MovImm8(x.m, DX, true, x.ops);
  }

  /** The flag instructions CMC, CLC, STC, CLI, STI, CLD and STD, and NOP,
    * WAIT and LOCK, only move IP past their opcode. */
  lemma FlagInstructionsOnlyFetch(m: Machine, d: Devices)
    requires Wf(m) && (Peek(m) in {0x90, 0x9b, 0xf0, 0xf5} || 0xf8 <= Peek(m) <= 0xfd)
    ensures Step(m, d) == Result(Done, m.(regs := m.regs[IP := Add16(m.regs[IP], 1)]))
  {
    var op := Peek(m);
    if op < 0xa0 {
      assert Table(op) == MiddleRows(op);
    } else {
      assert Table(op) == HighRows(op);
    }
    NoEffectStep(m, d);
  }

  /** A slot whose executor has no effect and which has no parser only
    * consumes its opcode byte. */
  lemma NoEffectStep(m: Machine, d: Devices)
    requires Wf(m) && Table(Peek(m)) == Entry(None, Some(NoEffect))
    ensures Step(m, d) == Result(Done, Fetch8(m).m)
  {
    var x := Decode(m);
    assert x.m == Fetch8(m).m;
  }

  // ---------------------------------------------------------------------
  // The repeat prefixes

  /** The loop condition of `instruct_process_repne` and
    * `instruct_process_repe` after CX has been decremented. */
  predicate RepneContinues(cx: uint16, flags: uint16) { cx != 0 || Accessor(flags, ZF) == 0 }
  predicate RepeContinues(cx: uint16, flags: uint16) { cx != 0 || Accessor(flags, ZF) == 1 }

  /** REPNE stops only when CX has reached 0 with ZF set (the 8086 stops
    * when either holds), and since the ZF accessor is never 1, REPE stops
    * exactly when CX reaches 0, whatever ZF holds. */
  lemma RepeatConditions(cx: uint16, flags: uint16)
    ensures RepneContinues(cx, flags) <==> cx != 0 || Bit(flags, Position(ZF)) == 0
    ensures RepeContinues(cx, flags) <==> cx != 0
  {
    AccessorIsOneOnlyForCarry(flags, ZF);
  }

  // ---------------------------------------------------------------------
  // The executors and the step, performed on the core

  method RunArith(core: Core, a: ArithProc, ops: Operands) returns (out: Outcome)
    requires core.Valid()
    modifies core`reg, core.mem
    ensures Result(out, core.State()) == ExecArith(old(core.State()), a, ops)
  {
    out := Done;
    match a
    case Alu(form, op, w) =>
      if form == ToRm {
        out := CpuAlu.ExecRegToRm(core, op, w, ops);
      } else if form == ToReg {
        out := CpuAlu.ExecRmToReg(core, op, w, ops);
      } else {
        out := CpuAlu.ExecAccImm(core, op, w, ops);
      }
    case IncReg(r) => CpuAlu.ExecIncDec(core, r, false);
    case DecReg(r) => CpuAlu.ExecIncDec(core, r, true);
    case Daa => CpuBcd.ExecDaa(core);
    case Das => CpuBcd.ExecDas(core);
    case Aaa => CpuBcd.ExecAaa(core);
    case Aas => CpuBcd.ExecAas(core);
    case Aam => CpuBcd.ExecAam(core);
    case Aad => out := CpuBcd.ExecAad(core);
    case Cbw => CpuBcd.ExecCbw(core);
    case Cwd => CpuBcd.ExecCwd(core);
  }

  method RunMove(core: Core, v: MoveProc, ops: Operands) returns (out: Outcome)
    requires core.Valid()
    modifies core`reg, core.mem
    ensures Result(out, core.State()) == ExecMove(old(core.State()), v, ops)
  {
    out := Done;
    match v
    case MovRegToRm(w) => out := CpuMove.ExecMovRegToRm(core, w, ops);
    case MovRmToReg(w) => out := CpuMove.ExecMovRmToReg(core, w, ops);
    case MovSegToRm => out := CpuMove.ExecMovSegToRm(core, ops);
    case Lea => out := CpuMove.ExecLea(core, ops);
    case MovRmToSeg => out := CpuMove.ExecMovRmToSeg(core, ops);
    case XchgRegRm(w) => out := CpuMove.ExecXchgRegRm(core, w, ops);
    case XchgAx(r) => CpuMove.ExecXchgAx(core, r);
    case Lahf => CpuMove.ExecLahf(core);
    case Sahf => CpuMove.ExecSahf(core);
    case MovAccFromMem(w) => out := CpuMove.ExecMovAccFromMem(core, w, ops);
    case MovAccToMem => out := CpuMove.ExecMovAccToMem(core, ops);
    case MovImm8(r, high) => out := CpuMove.ExecMovImm8(core, r, high, ops);
    case MovImm16(r) => out := CpuMove.ExecMovImm16(core, r, ops);
    case MovImmRm(w) => out := CpuMove.ExecMovImmRm(core, w, ops);
    case LoadFar(seg) => out := CpuMove.ExecLoadFar(core, seg, ops);
    case Xlat => CpuMove.ExecXlat(core);
  }

  method RunStack(core: Core, s: StackProc, ops: Operands) returns (out: Outcome)
    requires core.Valid()
    modifies core`reg, core.mem
    ensures Result(out, core.State()) == ExecStack(old(core.State()), s, ops)
  {
    out := Done;
    match s
    case PushReg(r) => out := CpuStack.ExecPush(core, r);
    case PopReg(r) => CpuStack.ExecPop(core, r);
    case PushLowered(r) => out := CpuStack.ExecPushLowering(core, r);
    case PopDs => out := CpuStack.ExecPopDs(core);
    case Popf => CpuStack.ExecPopf(core);
    case PopRm => out := CpuStack.ExecPopRm(core, ops);
    case CallNear => out := CpuStack.ExecCallNear(core, ops);
    case CallFar => out := CpuStack.ExecCallFar(core, ops);
    case RetImm => out := CpuStack.ExecRetImm(core, ops);
    case Ret => CpuStack.ExecRet(core);
    case RetfImm => out := CpuStack.ExecRetfImm(core, ops);
    case Retf => CpuStack.ExecRetf(core);
    case Interrupt(n) => out := CpuStack.ExecInterrupt(core, n);
    case IntImm => out := CpuStack.ExecInt(core, ops);
    case Iret => out := CpuStack.ExecIret(core);
  }

  method RunFlow(core: Core, f: FlowProc, ops: Operands) returns (out: Outcome)
    requires core.Valid()
    modifies core`reg
    ensures Result(out, core.State()) == ExecFlow(old(core.State()), f, ops)
  {
    match f
    case Jcc(c) => out := CpuControl.ExecJcc(core, c, ops);
    case LoopOp(k) => out := CpuControl.ExecLoop(core, k, ops);
    case JmpNear => out := CpuControl.ExecJmpNear(core, ops);
    case JmpFar => out := CpuControl.ExecJmpFar(core, ops);
  }

  method RunIo(core: Core, i: IoProc, ops: Operands, d: Devices) returns (out: Outcome)
    requires core.Valid()
    modifies core`reg, core.ports
    ensures Result(out, core.State()) == ExecIo(old(core.State()), i, ops, d)
  {
    out := Done;
    match i
    case InAl => out := CpuIo.ExecInAl(core, d, ops);
    case InAx => out := CpuIo.ExecInAx(core, d, ops);
    case OutAl => out := CpuIo.ExecOutAl(core, ops);
    case OutAx => out := CpuIo.ExecOutAx(core, ops);
    case InAlDx => CpuIo.ExecInAlDx(core, d);
    case InAxDx => CpuIo.ExecInAxDx(core, d);
    case OutAlDx => CpuIo.ExecOutAlDx(core);
    case OutAxDx => CpuIo.ExecOutAxDx(core);
  }

  method RunStr(core: Core, t: StrProc) returns (out: Outcome)
    requires core.Valid()
    modifies core`reg, core.mem
    ensures Result(out, core.State()) == ExecStr(old(core.State()), t)
  {
    out := Done;
    match t
    case Movs(w) => out := CpuString.ExecMovs(core, w);
    case Compare => CpuString.ExecCompare(core);
    case Stos(w) => out := CpuString.ExecStos(core, w);
    case Lods(w) => CpuString.ExecLods(core, w);
  }

  method RunGroup(core: Core, g: GroupProc, ops: Operands) returns (out: Outcome)
    requires core.Valid() && (g.ImmediateGroup? ==> 0x80 <= g.opcode <= 0x83)
    modifies core`reg, core.mem
    ensures Result(out, core.State()) == ExecGroup(old(core.State()), g, ops)
  {
    match g
    case ImmediateGroup(opcode) => out := CpuGroup.ExecImmediate(core, opcode, ops);
    case ShiftOne =>
      out := CpuGroup.ExecShiftOne(core, ops);
      CpuGroup.ShiftsNeverComplete(core.State(), W8, ops);
    case ShiftCount(w) =>
      out := CpuGroup.ExecShiftCount(core, w, ops);
      CpuGroup.ShiftsNeverComplete(core.State(), w, ops);
    case Unary(w) => out := CpuGroup.ExecUnary(core, w, ops);
    case IncDecGroup(w) => out := CpuGroup.ExecIncDecGroup(core, w, ops);
  }

  method Run(core: Core, p: Proc, ops: Operands, d: Devices) returns (out: Outcome)
    requires core.Valid() && Targets(p)
    modifies core`reg, core.mem, core.ports
    ensures Result(out, core.State()) == Execute(old(core.State()), p, ops, d)
  {
    match p
    case Arith(a) => out := RunArith(core, a, ops);
    case Move(v) => out := RunMove(core, v, ops);
    case Stack(s) => out := RunStack(core, s, ops);
    case Flow(f) => out := RunFlow(core, f, ops);
    case Io(i) => out := RunIo(core, i, ops, d);
    case Str(t) => out := RunStr(core, t);
    case Group(g) => out := RunGroup(core, g, ops);
    case NoEffect => out := Done;
    case Repeat => out := Unmodelled;
    case Halt => out := Unmodelled;
  }

  /** `cpu8086_proc`: IP is saved in `oldip`, then one instruction is
    * fetched, parsed and executed. */
  method ExecStep(core: Core, d: Devices) returns (out: Outcome)
    requires core.Valid()
    modifies core`reg, core`oldip, core.mem, core.ports
    ensures core.oldip == old(core.reg[IP])
    ensures Result(out, core.State()) == Step(old(core.State()), d)
  {
    core.oldip := core.reg[IP];
    var b := core.FetchByte();
    var op := b as uint8;
    var ops := NoOperands;
    var e := Table(op);
    if e.parse.Some? {
      ops := ParseOf(core, e.parse.value);
    }
    TableTargets(op);
    if e.proc.None? {
      out := Done;
    } else {
      out := Run(core, e.proc.value, ops, d);
    }
  }
}
