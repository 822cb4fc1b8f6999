/**
  * The jump executors of arch/8086/cpu.c: the sixteen conditional jumps
  * (70-7f), LOOPNE, LOOPE, LOOP and JCXZ (e0-e3) and the unconditional
  * jumps (e9, ea, eb).
  *
  * The flag accessors return the masked bit, so a test `FLAGS_X(core) == 1`
  * holds only for the carry flag; several conditions are never true and
  * others lose a disjunct. The conditional jumps add the sign-extended
  * 8-bit operand to IP, but the parser has already turned the displacement
  * into the low byte of the target, so the jump counts IP twice.
  */
module CpuControl {
  import opened Wrappers
  import opened Registers
  import opened CpuState

  /** `(int8_t)` of a byte. */
  function SignExt8(b: uint8): (v: int)
    ensures -128 <= v < 128
    ensures Wrap8(v) == b
  {
    if b >= 0x80 then b - 0x100 else b
  }

  datatype Cond = O | NO | B | NB | Z | NZ | BE | A | S | NS | P | NP | L | NL | LE | NLE

  /** The condition of the jump for opcode 70 + k. */
  function CondOf(k: nat): (c: Cond)
    requires k < 16
  {
    [O, NO, B, NB, Z, NZ, BE, A, S, NS, P, NP, L, NL, LE, NLE][k]
  }

  /** The condition each executor tests, accessor by accessor. */
  predicate Taken(c: Cond, flags: uint16)
  {
    var f := (x: Flag) => Accessor(flags, x);
    match c
    case O => f(OF) == 1
    case NO => f(OF) == 0 || f(ZF) == 1
    case B => f(CF) == 1
    case NB => f(CF) == 0 || f(ZF) == 1
    case Z => f(ZF) == 1
    case NZ => f(ZF) == 0
    case BE => f(CF) == 1 || f(ZF) == 1
    case A => f(CF) == 0 || f(ZF) == 0
    case S => f(SF) == 1
    case NS => f(SF) == 0
    case P => f(PF) == 1
    case NP => f(PF) == 0
    case L => f(ZF) == 0 && f(SF) == 1 && f(OF) == 1
    case NL => f(ZF) == 1 || (f(SF) == 0 && f(OF) == 0)
    case LE => f(ZF) == 1 || (f(SF) == 1 && f(OF) == 1)
    case NLE => f(ZF) == 0 && f(SF) == 0 && f(OF) == 0
  }

  /** The 8086 condition of each jump, on the flag bits: the reference the
    * executors are compared with. */
  predicate Intended(c: Cond, flags: uint16)
  {
    var f := (x: Flag) => Bit(flags, Position(x)) == 1;
    match c
    case O => f(OF)
    case NO => !f(OF)
    case B => f(CF)
    case NB => !f(CF)
    case Z => f(ZF)
    case NZ => !f(ZF)
    case BE => f(CF) || f(ZF)
    case A => !f(CF) && !f(ZF)
    case S => f(SF)
    case NS => !f(SF)
    case P => f(PF)
    case NP => !f(PF)
    case L => f(SF) != f(OF)
    case NL => f(SF) == f(OF)
    case LE => f(ZF) || f(SF) != f(OF)
    case NLE => !f(ZF) && f(SF) == f(OF)
  }

  /** 70-7f: when the condition holds, IP moves by the sign-extended low
    * byte of the operand. */
  function Jcc(m: Machine, c: Cond, ops: Operands): Result
  {
    match WordField(ops.o1)
    case None => Result(Undefined, m)
    case Some(offset) =>
      if Taken(c, m.regs[FLAGS]) then Result(Done, m.(regs := m.regs[IP := Add16(m.regs[IP], SignExt8(Lo(offset)))]))
      else Result(Done, m)
  }

  datatype LoopKind = LoopNe | LoopE | Loop | Jcxz

  /** e0-e3: the operand must be an `IP8`; CX is decremented (not by
    * JCXZ) and IP takes the 8-bit operand when the condition holds. */
  function LoopStep(m: Machine, k: LoopKind, ops: Operands): Result
  {
    match Tag(ops.o1)
    case None => Result(Undefined, m)
    case Some(t) =>
      if t != TIp8 then Result(Failed, m)
      else
        var cx := if k == Jcxz then m.regs[CX] else Add16(m.regs[CX], -1);
        var zf := Accessor(m.regs[FLAGS], ZF);
        var jump := match k
          case LoopNe => cx != 0 && zf != 1
          case LoopE => cx != 0 && zf == 1
          case Loop => cx != 0
          case Jcxz => cx == 0;
        var regs := m.regs[CX := cx];
        Result(Done, m.(regs := if jump then regs[IP := ops.o1.v] else regs))
  }

  /** e9 and eb: IP takes the operand. */
  function JmpNear(m: Machine, ops: Operands): Result
  {
    match WordField(ops.o1)
    case None => Result(Undefined, m)
    case Some(offset) => Result(Done, m.(regs := m.regs[IP := offset]))
  }

  /** ea: CS and IP take the operands. */
  function JmpFar(m: Machine, ops: Operands): Result
  {
    match WordField(ops.o1)
    case None => Result(Undefined, m)
    case Some(offset) =>
      match WordField(ops.o2)
      case None => Result(Undefined, m)
      case Some(segment) => Result(Done, m.(regs := m.regs[CS := segment][IP := offset]))
  }

  // ---------------------------------------------------------------------
  // Properties

  /** JNO, JB, JNB, JNZ, JNS and JNP test what the 8086 tests; JO, JZ, JS,
    * JP, JL and JLE are never taken; JBE tests only CF, JA jumps unless
    * both CF and ZF are set, JNL needs SF and OF clear and JNLE needs all
    * three clear. */
  lemma TakenAgainstIntended(c: Cond, flags: uint16)
    ensures c in {NO, B, NB, NZ, NS, NP} ==> (Taken(c, flags) <==> Intended(c, flags))
    ensures c in {O, Z, S, P, L, LE} ==> !Taken(c, flags)
    ensures c == BE ==> (Taken(c, flags) <==> Bit(flags, Position(CF)) == 1)
    ensures c == A ==> (Taken(c, flags) <==> !(Intended(B, flags) && Intended(Z, flags)))
    ensures c == NL ==> (Taken(c, flags) <==> !Intended(S, flags) && !Intended(O, flags))
    ensures c == NLE ==> (Taken(c, flags) <==> !Intended(Z, flags) && !Intended(S, flags) && !Intended(O, flags))
  {
    AccessorIsOneOnlyForCarry(flags, OF);
    AccessorIsOneOnlyForCarry(flags, ZF);
    AccessorIsOneOnlyForCarry(flags, SF);
    AccessorIsOneOnlyForCarry(flags, PF);
    AccessorIsOneOnlyForCarry(flags, CF);
    assert Bit(flags, Position(CF)) == 1 <==> flags % 2 == 1 by {
      assert Position(CF) == 0;
      assert Pow2(0) == 1;
    }
  }

  /** A taken jump from IP (after the fetch) with a forward displacement d
    * lands at 2 * IP + d, not IP + d, while IP + d stays below 128. */
  lemma JccCountsIpTwice(m: Machine, c: Cond, d: uint8)
    requires Taken(c, m.regs[FLAGS]) && m.regs[IP] as int + d < 0x80
    ensures var ops := Operands(Ip8((Lo(m.regs[IP]) + d) % 0x100), Unset, Unset);
      Jcc(m, c, ops) == Result(Done, m.(regs := m.regs[IP := 2 * m.regs[IP] + d]))
  {
    var ip := m.regs[IP];
    var offset := (Lo(ip) + d) % 0x100;
    assert Lo(ip) == ip;
    assert offset == ip + d;
    assert Lo(offset) == offset;
    assert SignExt8(Lo(offset)) == ip + d;
    assert Add16(ip, ip + d) == 2 * ip + d;
  }

  /** LOOPE never jumps and LOOPNE is LOOP: the ZF accessor is never 1. */
  lemma LoopZfTests(m: Machine, ops: Operands)
    ensures LoopStep(m, LoopE, ops).m.regs[IP] == m.regs[IP]
    ensures LoopStep(m, LoopNe, ops) == LoopStep(m, Loop, ops)
  {
    AccessorIsOneOnlyForCarry(m.regs[FLAGS], ZF);
  }

  /** LOOP counts CX down and falls through when it reaches 0: with CX = 1
    * it ends with CX = 0, with CX = 0 it wraps to 0xFFFF and jumps; JCXZ
    * keeps CX and jumps exactly when it is 0. */
  lemma LoopCounts(m: Machine, v: uint16)
    ensures var ops := Operands(Ip8(v), Unset, Unset);
      && (m.regs[CX] == 1 ==> LoopStep(m, Loop, ops) == Result(Done, m.(regs := m.regs[CX := 0])))
      && (m.regs[CX] == 0 ==> LoopStep(m, Loop, ops) == Result(Done, m.(regs := m.regs[CX := 0xFFFF][IP := v])))
      && (LoopStep(m, Jcxz, ops).m.regs[CX] == m.regs[CX])
      && (LoopStep(m, Jcxz, ops).m.regs[IP] == if m.regs[CX] == 0 then v else m.regs[IP])
  {
    assert m.regs[CX := m.regs[CX]] == m.regs;
  }

  /** Any operand but an `IP8` makes the loop instructions return -1. */
  lemma LoopNeedsIp8(m: Machine, k: LoopKind, ops: Operands)
    requires Tag(ops.o1).Some? && !ops.o1.Ip8?
    ensures LoopStep(m, k, ops) == Result(Failed, m)
  {
  }

  // ---------------------------------------------------------------------
  // The executors, performed on the core

  method ExecJcc(core: Core, c: Cond, ops: Operands) returns (out: Outcome)
    modifies core`reg
    ensures Result(out, core.State()) == Jcc(old(core.State()), c, ops)
  {
    var offset := WordField(ops.o1);
    if offset.None? {
      out := Undefined;
      return;
    }
    if Taken(c, core.reg[FLAGS]) {
      core.reg := core.reg[IP := Add16(core.reg[IP], SignExt8(Lo(offset.value)))];
    }
    out := Done;
  }

  method ExecLoop(core: Core, k: LoopKind, ops: Operands) returns (out: Outcome)
    modifies core`reg
    ensures Result(out, core.State()) == LoopStep(old(core.State()), k, ops)
  {
    var t := Tag(ops.o1);
    if t.None? {
      out := Undefined;
      return;
    }
    if t.value != TIp8 {
      out := Failed;
      return;
    }
    if k != Jcxz {
      core.reg := core.reg[CX := Add16(core.reg[CX], -1)];
    }
    var cx := core.reg[CX];
    var zf := Accessor(core.reg[FLAGS], ZF);
    var jump := if k == LoopNe then cx != 0 && zf != 1
      else if k == LoopE then cx != 0 && zf == 1
      else if k == Loop then cx != 0
      else cx == 0;
    if jump {
      core.reg := core.reg[IP := ops.o1.v];
    }
    out := Done;
  }

  method ExecJmpNear(core: Core, ops: Operands) returns (out: Outcome)
    modifies core`reg
    ensures Result(out, core.State()) == JmpNear(old(core.State()), ops)
  {
    var offset := WordField(ops.o1);
    if offset.None? {
      out := Undefined;
      return;
    }
    core.reg := core.reg[IP := offset.value];
    out := Done;
  }

  method ExecJmpFar(core: Core, ops: Operands) returns (out: Outcome)
    modifies core`reg
    ensures Result(out, core.State()) == JmpFar(old(core.State()), ops)
  {
    var offset := WordField(ops.o1);
    var segment := WordField(ops.o2);
    if offset.None? || segment.None? {
      out := Undefined;
      return;
    }
    core.reg := core.reg[CS := segment.value][IP := offset.value];
    out := Done;
  }
}
