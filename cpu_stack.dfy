/**
  * The stack executors of arch/8086/cpu.c: PUSH and POP of registers,
  * PUSHF/POPF, POP r/m, CALL, RET, RETF, INT and IRET.
  *
  * `push_stack_16` and `pop_stack_16` are `Push` and `PopInto` of the
  * machine state. The other executors open-code their stack accesses, some
  * lowering SP before the write, and the far call writes CS at the
  * physical address two below the one it wrote IP at.
  */
module CpuStack {
  import opened Registers
  import opened CpuState
  import Memory

  /** The physical address of the stack top. */
  function Top(m: Machine): nat { Memory.AddrCalc(m.regs[SS], m.regs[SP]) }

  /** A push continued only if the pushes before it completed. */
  function PushThen(r: Result, v: uint16): (r': Result)
    requires Wf(r.m)
    ensures Wf(r'.m)
  {
    if r.outcome != Done then r else Push(r.m, v)
  }

  /** 16 PUSH SS and 9c PUSHF: SP is lowered first, then the word is
    * written at the old top; there is no assert on the value. */
  function PushLowering(m: Machine, v: uint16): (r: Result)
    requires Wf(m)
    ensures Wf(r.m)
  {
    var a := Top(m);
    Store(m.(regs := m.regs[SP := Add16(m.regs[SP], -2)]), W16, a, v)
  }

  /** 1f POP DS: `pop_stack_16` is handed the value of DS as the pointer;
    * a zero value fails its assert, any other is a wild store. */
  function PopDs(m: Machine): Result
  {
    if m.regs[DS] == 0 then Result(Aborted, m) else Result(Undefined, m)
  }

  /** 9d POPF: SP is raised, FLAGS takes the word at the old top. */
  function Popf(m: Machine): (m': Machine)
    requires Wf(m)
    ensures Wf(m')
  {
    var a := Top(m);
    m.(regs := m.regs[SP := Add16(m.regs[SP], 2)][FLAGS := Memory.WordRead(m.mem, a)])
  }

  /** 8f POP r/m16: SP is raised, then the word at the old top is stored
    * to memory or a 16-bit register; any other type returns -1 with SP
    * already raised. */
  function PopRm(m: Machine, ops: Operands): (r: Result)
    requires Wf(m)
    ensures Wf(r.m)
  {
    var a := Top(m);
    var m1 := m.(regs := m.regs[SP := Add16(m.regs[SP], 2)]);
    StoreRm(m1, ops.o2, W16, TReg16, Memory.WordRead(m.mem, a))
  }

  /** The frame of e8 CALL near and 9a CALL far: IP at the top, SP lowered
    * by two, CS at the physical address two below (in 32 bits). */
  function CallFrame(m: Machine): (r: Result)
    requires Wf(m)
    ensures Wf(r.m)
  {
    var a := Top(m);
    var s := Store(m, W16, a, m.regs[IP]);
    if s.outcome != Done then s
    else Store(s.m.(regs := s.m.regs[SP := Add16(s.m.regs[SP], -2)]), W16, Wrap32(a as int - 2), m.regs[CS])
  }

  /** e8: the frame, then IP takes the target offset. */
  function CallNear(m: Machine, ops: Operands): (r: Result)
    requires Wf(m)
    ensures Wf(r.m)
  {
    match WordField(ops.o1)
    case None => Result(Undefined, m)
    case Some(offset) =>
      var f := CallFrame(m);
      if f.outcome != Done then f else Result(Done, f.m.(regs := f.m.regs[IP := offset]))
  }

  /** 9a: the frame, then CS and IP take the target. */
  function CallFar(m: Machine, ops: Operands): (r: Result)
    requires Wf(m)
    ensures Wf(r.m)
  {
    match WordField(ops.o1)
    case None => Result(Undefined, m)
    case Some(offset) =>
      match WordField(ops.o2)
      case None => Result(Undefined, m)
      case Some(segment) =>
        var f := CallFrame(m);
        if f.outcome != Done then f
        else Result(Done, f.m.(regs := f.m.regs[CS := segment][IP := offset]))
  }

  /** c2 RET imm16: IP takes the immediate; the stack is not touched. */
  function RetImm(m: Machine, ops: Operands): Result
  {
    match WordField(ops.o1)
    case None => Result(Undefined, m)
    case Some(im) => Result(Done, m.(regs := m.regs[IP := im]))
  }

  /** c3 RET: SP is raised, IP takes the word at the old top. */
  function Ret(m: Machine): (m': Machine)
    requires Wf(m)
    ensures Wf(m')
  {
    var a := Top(m);
    m.(regs := m.regs[SP := Add16(m.regs[SP], 2)][IP := Memory.WordRead(m.mem, a)])
  }

  /** ca RETF imm16: CS takes the word at the top, SP is raised by two and
    * IP takes the immediate. */
  function RetfImm(m: Machine, ops: Operands): Result
    requires Wf(m)
  {
    match WordField(ops.o1)
    case None => Result(Undefined, m)
    case Some(im) =>
      var a := Top(m);
      Result(Done, m.(regs := m.regs[SP := Add16(m.regs[SP], 2)][CS := Memory.WordRead(m.mem, a)][IP := im]))
  }

  /** cb RETF: IP from the top, CS from the physical address two above,
    * SP raised by four. */
  function Retf(m: Machine): (m': Machine)
    requires Wf(m)
    ensures Wf(m')
  {
    var a := Top(m);
    var ip := Memory.WordRead(m.mem, a);
    var cs := Memory.WordRead(m.mem, a + 2);
    m.(regs := m.regs[IP := ip][CS := cs][SP := Add16(m.regs[SP], 4)])
  }

  /** cc INT3, cd INT n, ce INTO: FLAGS, CS and IP pushed (the TF and IF
    * setters change nothing), then CS = 4n + 2 and IP = 4n. INTO does not
    * look at OF. */
  function Interrupt(m: Machine, n: uint8): (r: Result)
    requires Wf(m)
    ensures Wf(r.m)
  {
    var p := PushThen(PushThen(Push(m, m.regs[FLAGS]), m.regs[CS]), m.regs[IP]);
    if p.outcome != Done then p
    else Result(Done, p.m.(regs := p.m.regs[CS := n as int * 4 + 2][IP := n as int * 4]))
  }

  /** cd: the vector is the low byte of the immediate. */
  function Int(m: Machine, ops: Operands): (r: Result)
    requires Wf(m)
    ensures Wf(r.m)
  {
    match WordField(ops.o1)
    case None => Result(Undefined, m)
    case Some(im) => Interrupt(m, Lo(im))
  }

  /** cf IRET: IP, CX and FLAGS are pushed; nothing is popped. */
  function Iret(m: Machine): (r: Result)
    requires Wf(m)
    ensures Wf(r.m)
  {
    PushThen(PushThen(Push(m, m.regs[IP]), m.regs[CX]), m.regs[FLAGS])
  }

  // ---------------------------------------------------------------------
  // Properties

  /** The three word slots a frame pushed from SS:SP occupies, at SP, SP - 2
    * and SP - 4, all fit in the block. */
  predicate FrameFits(ss: uint16, sp: uint16)
  {
    && Memory.WordFits(Memory.AddrCalc(ss, sp))
    && Memory.WordFits(Memory.AddrCalc(ss, Add16(sp, -2)))
    && Memory.WordFits(Memory.AddrCalc(ss, Add16(sp, -4)))
  }

  /** Three pushes complete exactly when the three words are non-zero and
    * their slots fit, wherever the stack lies; then SP is six lower (modulo
    * 2^16) and no other register has changed. */
  lemma {:induction false} ThreePushes(m: Machine, a: uint16, b: uint16, c: uint16)
    requires Wf(m)
    ensures var p := PushThen(PushThen(Push(m, a), b), c);
      p.outcome == Done <==> a != 0 && b != 0 && c != 0 && FrameFits(m.regs[SS], m.regs[SP])
    ensures var p := PushThen(PushThen(Push(m, a), b), c);
      p.outcome == Done ==> p.m.regs == m.regs[SP := Add16(m.regs[SP], -6)]
  {
    var sp := m.regs[SP];
    PushCompletes(m, a);
    var r1 := Push(m, a);
    if r1.outcome == Done {
      PushRegs(m, a);
      PushCompletes(r1.m, b);
      var r2 := Push(r1.m, b);
      if r2.outcome == Done {
        PushRegs(r1.m, b);
        Add16Twice(sp, -2, -2);
        PushCompletes(r2.m, c);
        if Push(r2.m, c).outcome == Done {
          PushRegs(r2.m, c);
          Add16Twice(sp, -4, -2);
        }
      }
    }
  }

  /** The stack `cpu8086_init` leaves, SS = 0 and SP = 0, has room for a
    * frame: the slots at 0000:0000, 0000:FFFE and 0000:FFFC fit. */
  lemma InitialStackFits()
    ensures FrameFits(0, 0)
  {
    assert Add16(0, -2) == 0xFFFE && Add16(0, -4) == 0xFFFC;
    assert Memory.WordTarget(0xFFFE).value == 0x7e00 + 2 * (0xFFFE - 0x7e00);
    assert Memory.WordTarget(0xFFFC).value == 0x7e00 + 2 * (0xFFFC - 0x7e00);
  }

  /** Low in the stack (SS = 0, 6 <= SP <= 0x1FE) every frame fits. */
  lemma LowStackFits(sp: uint16)
    requires 6 <= sp <= 0x1FE
    ensures FrameFits(0, sp)
  {
    assert Add16(sp, -2) == sp - 2 && Add16(sp, -4) == sp - 4;
  }

  /** An interrupt completes exactly when FLAGS, CS and IP are non-zero and
    * the frame fits; it then has pushed its three words, lowered SP by six
    * and jumped to 4n+2:4n, leaving FLAGS as it was (TF and IF are not
    * cleared). */
  lemma InterruptFrame(m: Machine, n: uint8)
    requires Wf(m)
    ensures Interrupt(m, n).outcome == Done
      <==> m.regs[FLAGS] != 0 && m.regs[CS] != 0 && m.regs[IP] != 0 && FrameFits(m.regs[SS], m.regs[SP])
    ensures Interrupt(m, n).outcome == Done ==>
      Interrupt(m, n).m.regs == m.regs[SP := Add16(m.regs[SP], -6)][CS := n as int * 4 + 2][IP := n as int * 4]
  {
    ThreePushes(m, m.regs[FLAGS], m.regs[CS], m.regs[IP]);
  }

  /** A zero FLAGS word fails the assert of the first push: every
    * interrupt aborts with the machine unchanged. */
  lemma InterruptAbortsOnZeroFlags(m: Machine, n: uint8)
    requires Wf(m) && m.regs[FLAGS] == 0
    ensures Interrupt(m, n) == Result(Aborted, m)
  {
  }

  /** IRET never returns: it completes exactly when IP, CX and FLAGS are
    * non-zero and the frame fits, and then IP and CS are as they were and
    * SP is six lower. */
  lemma IretDoesNotReturn(m: Machine)
    requires Wf(m)
    ensures Iret(m).outcome == Done
      <==> m.regs[IP] != 0 && m.regs[CX] != 0 && m.regs[FLAGS] != 0 && FrameFits(m.regs[SS], m.regs[SP])
    ensures Iret(m).outcome == Done ==> Iret(m).m.regs == m.regs[SP := Add16(m.regs[SP], -6)]
  {
    ThreePushes(m, m.regs[IP], m.regs[CX], m.regs[FLAGS]);
  }

  /** PUSHF then POPF restores SP but, with the scaled word store, FLAGS
    * comes back as the old word two bytes below the stack top, not the
    * pushed flags. */
  lemma PushfThenPopf(m: Machine)
    requires Wf(m) && m.regs[SS] == 0 && 2 <= m.regs[SP] <= 0x1FE
    ensures PushLowering(m, m.regs[FLAGS]).outcome == Done
    ensures var m2 := Popf(PushLowering(m, m.regs[FLAGS]).m);
      && m2.regs[SP] == m.regs[SP]
      && m2.regs[FLAGS] == Memory.WordRead(m.mem, m.regs[SP] - 2)
  {
    var sp: nat := m.regs[SP];
    var flags := m.regs[FLAGS];
    assert Top(m) == sp;
    Memory.WordWriteLow(m.mem, sp, flags);
    var mem1 := Memory.WordWrite(m.mem, sp, flags).mem;
    var m1 := m.(regs := m.regs[SP := sp - 2], mem := mem1);
    assert PushLowering(m, flags) == Result(Done, m1);
    assert Top(m1) == sp - 2;
    Memory.WordWriteKeepsSlotBelow(m.mem, sp, flags);
  }

  /** POP DS never completes. */
  lemma PopDsNeverCompletes(m: Machine)
    ensures PopDs(m).outcome != Done && PopDs(m).m == m
  {
  }

  /** RET imm16 jumps without popping: memory and SP are kept. */
  lemma RetImmKeepsStack(m: Machine, im: uint16)
    ensures var r := RetImm(m, Operands(Imm16(im), Unset, Unset));
      && r.outcome == Done && r.m.mem == m.mem
      && r.m.regs[SP] == m.regs[SP] && r.m.regs[IP] == im
  {
  }

  /** POP r/m16 into a register raises SP even when the destination is
    * refused, and into a 16-bit register other than SP stores the top
    * word. */
  lemma PopRmEffects(m: Machine, r: Reg)
    requires Wf(m) && r != SP
    ensures PopRm(m, Operands(Unset, Reg16(r), Unset)).m.regs[r] == Memory.WordRead(m.mem, Top(m))
    ensures PopRm(m, Operands(Unset, Reg8(r, false), Unset)).outcome == Failed
    ensures PopRm(m, Operands(Unset, Reg8(r, false), Unset)).m.regs[SP] == Add16(m.regs[SP], 2)
  {
  }

  // ---------------------------------------------------------------------
  // The executors, performed on the core

  /** `push_ax` ... `push_di`, `push_es`, `push_cs`, `push_ds`. */
  method ExecPush(core: Core, r: Reg) returns (out: Outcome)
    requires core.Valid()
    modifies core`reg, core.mem
    ensures Result(out, core.State()) == Push(old(core.State()), old(core.reg[r]))
  {
    out := core.PushWord(core.reg[r]);
  }

  /** `pop_ax` ... `pop_di`, `pop_es`, `pop_ss`. */
  method ExecPop(core: Core, r: Reg)
    requires core.Valid()
    modifies core`reg
    ensures core.State() == PopInto(old(core.State()), r)
  {
    core.PopWord(r);
  }

  method ExecPopDs(core: Core) returns (out: Outcome)
    ensures Result(out, core.State()) == PopDs(core.State())
  {
    out := if core.reg[DS] == 0 then Aborted else Undefined;
  }

  /** `push_ss` and `pushf`. */
  method ExecPushLowering(core: Core, r: Reg) returns (out: Outcome)
    requires core.Valid()
    modifies core`reg, core.mem
    ensures Result(out, core.State()) == PushLowering(old(core.State()), old(core.reg[r]))
  {
    var v := core.reg[r];
    var a := Memory.AddrCalc(core.reg[SS], core.reg[SP]);
    core.reg := core.reg[SP := Add16(core.reg[SP], -2)];
    out := core.StoreAt(W16, a, v);
  }

  method ExecPopf(core: Core)
    requires core.Valid()
    modifies core`reg
    ensures core.State() == Popf(old(core.State()))
  {
    var a := Memory.AddrCalc(core.reg[SS], core.reg[SP]);
    core.reg := core.reg[SP := Add16(core.reg[SP], 2)];
    var v := Memory.ReadWord(core.mem, a);
    core.reg := core.reg[FLAGS := v];
  }

  method ExecPopRm(core: Core, ops: Operands) returns (out: Outcome)
    requires core.Valid()
    modifies core`reg, core.mem
    ensures Result(out, core.State()) == PopRm(old(core.State()), ops)
  {
    var a := Memory.AddrCalc(core.reg[SS], core.reg[SP]);
    core.reg := core.reg[SP := Add16(core.reg[SP], 2)];
    var s := Memory.ReadWord(core.mem, a);
    out := core.StoreRmTo(ops.o2, W16, TReg16, s);
  }

  /** The second half of a call frame: SP drops by two, then v is stored
    * at the given address. */
  method ExecLowerAndStore(core: Core, at: nat, v: uint16) returns (out: Outcome)
    requires core.Valid()
    modifies core`reg, core.mem
    ensures var m := old(core.State());
      Result(out, core.State()) == Store(m.(regs := m.regs[SP := Add16(m.regs[SP], -2)]), W16, at, v)
  {
    core.reg := core.reg[SP := Add16(core.reg[SP], -2)];
    out := core.StoreAt(W16, at, v);
  }

  method ExecCallFrame(core: Core) returns (out: Outcome)
    requires core.Valid()
    modifies core`reg, core.mem
    ensures Result(out, core.State()) == CallFrame(old(core.State()))
  {
    ghost var m0 := core.State();
    var a := Memory.AddrCalc(core.reg[SS], core.reg[SP]);
    var below := Wrap32(a as int - 2);
    var cs := core.reg[CS];
    out := core.StoreAt(W16, a, core.reg[IP]);
    if out != Done {
      return;
    }
    assert core.State() == Store(m0, W16, a, m0.regs[IP]).m;
    out := ExecLowerAndStore(core, below, cs);
  }

  method ExecCallNear(core: Core, ops: Operands) returns (out: Outcome)
    requires core.Valid()
    modifies core`reg, core.mem
    ensures Result(out, core.State()) == CallNear(old(core.State()), ops)
  {
    var offset := WordField(ops.o1);
    if offset.None? {
      out := Undefined;
      return;
    }
    out := ExecCallFrame(core);
    if out == Done {
      core.reg := core.reg[IP := offset.value];
    }
  }

  method ExecCallFar(core: Core, ops: Operands) returns (out: Outcome)
    requires core.Valid()
    modifies core`reg, core.mem
    ensures Result(out, core.State()) == CallFar(old(core.State()), ops)
  {
    var offset := WordField(ops.o1);
    var segment := WordField(ops.o2);
    if offset.None? || segment.None? {
      out := Undefined;
      return;
    }
    out := ExecCallFrame(core);
    if out == Done {
      core.reg := core.reg[CS := segment.value][IP := offset.value];
    }
  }

  method ExecRetImm(core: Core, ops: Operands) returns (out: Outcome)
    modifies core`reg
    ensures Result(out, core.State()) == RetImm(old(core.State()), ops)
  {
    var im := WordField(ops.o1);
    if im.None? {
      out := Undefined;
      return;
    }
    core.reg := core.reg[IP := im.value];
    out := Done;
  }

  method ExecRet(core: Core)
    requires core.Valid()
    modifies core`reg
    ensures core.State() == Ret(old(core.State()))
  {
    var a := Memory.AddrCalc(core.reg[SS], core.reg[SP]);
    core.reg := core.reg[SP := Add16(core.reg[SP], 2)];
    var offset := Memory.ReadWord(core.mem, a);
    core.reg := core.reg[IP := offset];
  }

  method ExecRetfImm(core: Core, ops: Operands) returns (out: Outcome)
    requires core.Valid()
    modifies core`reg
    ensures Result(out, core.State()) == RetfImm(old(core.State()), ops)
  {
    var im := WordField(ops.o1);
    if im.None? {
      out := Undefined;
      return;
    }
    var a := Memory.AddrCalc(core.reg[SS], core.reg[SP]);
    core.reg := core.reg[SP := Add16(core.reg[SP], 2)];
    var cs := Memory.ReadWord(core.mem, a);
    core.reg := core.reg[CS := cs][IP := im.value];
    out := Done;
  }

  method ExecRetf(core: Core)
    requires core.Valid()
    modifies core`reg
    ensures core.State() == Retf(old(core.State()))
  {
    var a := Memory.AddrCalc(core.reg[SS], core.reg[SP]);
    var offset := Memory.ReadWord(core.mem, a);
    core.reg := core.reg[IP := offset];
    var cs := Memory.ReadWord(core.mem, a + 2);
    core.reg := core.reg[CS := cs];
    core.reg := core.reg[SP := Add16(core.reg[SP], 4)];
  }

  /** `int3`, `int` and `into` after the vector is known. */
  method ExecInterrupt(core: Core, n: uint8) returns (out: Outcome)
    requires core.Valid()
    modifies core`reg, core.mem
    ensures Result(out, core.State()) == Interrupt(old(core.State()), n)
  {
    out := core.PushWord(core.reg[FLAGS]);
    if out != Done {
      return;
    }
    out := core.PushWord(core.reg[CS]);
    if out != Done {
      return;
    }
    out := core.PushWord(core.reg[IP]);
    if out != Done {
      return;
    }
    core.reg := core.reg[CS := n as int * 4 + 2][IP := n as int * 4];
  }

  method ExecInt(core: Core, ops: Operands) returns (out: Outcome)
    requires core.Valid()
    modifies core`reg, core.mem
    ensures Result(out, core.State()) == Int(old(core.State()), ops)
  {
    var im := WordField(ops.o1);
    if im.None? {
      out := Undefined;
      return;
    }
    out := ExecInterrupt(core, Lo(im.value));
  }

  method ExecIret(core: Core) returns (out: Outcome)
    requires core.Valid()
    modifies core`reg, core.mem
    ensures Result(out, core.State()) == Iret(old(core.State()))
  {
    out := core.PushWord(core.reg[IP]);
    if out != Done {
      return;
    }
    out := core.PushWord(core.reg[CX]);
    if out != Done {
      return;
    }
    out := core.PushWord(core.reg[FLAGS]);
  }
}
