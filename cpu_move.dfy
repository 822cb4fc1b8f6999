/**
  * The data-movement executors of arch/8086/cpu.c: MOV in its register,
  * segment, accumulator and immediate forms, LEA, XCHG, LES/LDS, XLAT,
  * LAHF and SAHF.
  */
module CpuMove {
  import opened Wrappers
  import opened Registers
  import opened CpuState
  import Memory

  // ---------------------------------------------------------------------
  // Register and r/m (88-8e)

  /** 88/89: the source register is stored to a memory operand or a
    * register of the width; any other type byte returns -1. */
  function MovRegToRm(m: Machine, w: Width, ops: Operands): (r: Result)
    requires Wf(m)
    ensures Wf(r.m)
  {
    match Deref(m.regs, ops.o1, w)
    case Stop(e) => Result(e, m)
    case Got(s) => StoreRm(m, ops.o2, w, RegTag(w), s)
  }

  /** 8a/8b: the source must be memory or a 16-bit register, in both
    * widths. */
  function MovRmToReg(m: Machine, w: Width, ops: Operands): (r: Result)
    requires Wf(m)
    ensures Wf(r.m)
  {
    match ReadRm(m, ops.o2, w, TReg16)
    case Stop(e) => Result(e, m)
    case Got(s) => PutPtr(m, ops.o1, w, s)
  }

  /** 8c: the segment register is stored like a 16-bit register. */
  function MovSegToRm(m: Machine, ops: Operands): (r: Result)
    requires Wf(m)
    ensures Wf(r.m)
  {
    match Deref(m.regs, ops.o1, W16)
    case Stop(e) => Result(e, m)
    case Got(s) => StoreRm(m, ops.o2, W16, TReg16, s)
  }

  /** 8e: the segment register is loaded from memory or a 16-bit register. */
  function MovRmToSeg(m: Machine, ops: Operands): (r: Result)
    requires Wf(m)
    ensures Wf(r.m)
  {
    match ReadRm(m, ops.o2, W16, TReg16)
    case Stop(e) => Result(e, m)
    case Got(s) => PutPtr(m, ops.o1, W16, s)
  }

  /** 8d: the 16-bit offset the LEA parser leaves as an immediate goes to
    * the register. */
  function Lea(m: Machine, ops: Operands): (r: Result)
  {
    match Tag(ops.o2)
    case None => Result(Undefined, m)
    case Some(t) => if t != TIm16 then Result(Failed, m) else PutPtr(m, ops.o1, W16, ops.o2.v)
  }

  /** 86/87: both operands are read before either is written; the register
    * takes the r/m value, then the r/m takes the register's old value. */
  function XchgRegRm(m: Machine, w: Width, ops: Operands): (r: Result)
    requires Wf(m)
    ensures Wf(r.m)
  {
    match Deref(m.regs, ops.o1, w)
    case Stop(e) => Result(e, m)
    case Got(s) =>
      match ReadRm(m, ops.o2, w, RegTag(w))
      case Stop(e) => Result(e, m)
      case Got(d) =>
        var r1 := PutPtr(m, ops.o1, w, d);
        if r1.outcome != Done then r1 else WriteBack(r1.m, ops.o2, w, Some(RegTag(w)), s)
  }

  // ---------------------------------------------------------------------
  // Accumulator forms

  /** 91-97: `SWAP(*ax, *r)`. */
  function XchgAx(m: Machine, r: Reg): Machine
  {
    m.(regs := m.regs[AX := m.regs[r]][r := m.regs[AX]])
  }

  /** 9f LAHF: AH takes the low byte of FLAGS. */
  function Lahf(m: Machine): Machine
  {
    m.(regs := m.regs[AX := SetHi(m.regs[AX], Lo(m.regs[FLAGS]))])
  }

  /** 9e SAHF: the low byte of FLAGS takes AH. */
  function Sahf(m: Machine): Machine
  {
    m.(regs := m.regs[FLAGS := SetLo(m.regs[FLAGS], Hi(m.regs[AX]))])
  }

  /** a0/a1: AL or AX from a memory operand; any other type returns -1. */
  function MovAccFromMem(m: Machine, w: Width, ops: Operands): (r: Result)
    requires Wf(m)
  {
    match Tag(ops.o2)
    case None => Result(Undefined, m)
    case Some(t) =>
      if t != TAddr then Result(Failed, m)
      else
        var v := Load(m, w, ops.o2.a);
        var ax := if w == W8 then SetLo(m.regs[AX], v) else v;
        Result(Done, m.(regs := m.regs[AX := ax]))
  }

  /** a2/a3: the value is read through the `reg` member of the operand,
    * which for a memory operand holds an address, not a pointer; any other
    * type returns -1. */
  function MovAccToMem(m: Machine, ops: Operands): Result
  {
    match Tag(ops.o2)
    case None => Result(Undefined, m)
    case Some(t) => if t == TAddr then Result(Undefined, m) else Result(Failed, m)
  }

  /** b0-b7: the byte immediate into one half of a register. */
  function MovImm8(m: Machine, r: Reg, high: bool, ops: Operands): Result
  {
    match WordField(ops.o1)
    case None => Result(Undefined, m)
    case Some(im) =>
      var x := m.regs[r];
      Result(Done, m.(regs := m.regs[r := if high then SetHi(x, Lo(im)) else SetLo(x, Lo(im))]))
  }

  /** b8-bf: the word immediate into a register. */
  function MovImm16(m: Machine, r: Reg, ops: Operands): Result
  {
    match WordField(ops.o1)
    case None => Result(Undefined, m)
    case Some(im) => Result(Done, m.(regs := m.regs[r := im]))
  }

  /** c6/c7: the sub-opcode must be 0; the immediate (its low byte for c6)
    * is stored to memory or a register of the width. */
  function MovImmRm(m: Machine, w: Width, ops: Operands): (r: Result)
    requires Wf(m)
    ensures Wf(r.m)
  {
    match OpField(ops.o1)
    case None => Result(Undefined, m)
    case Some(op) =>
      if op != 0 then Result(Failed, m)
      else
        match WordField(ops.o3)
        case None => Result(Undefined, m)
        case Some(im) => StoreRm(m, ops.o2, w, RegTag(w), if w == W8 then Lo(im) else im)
  }

  /** c4/c5 LES/LDS: a dword from memory; its low half goes to the
    * register, its high half to ES or DS. */
  function LoadFar(m: Machine, seg: Reg, ops: Operands): (r: Result)
    requires Wf(m)
    ensures Wf(r.m)
  {
    match Tag(ops.o2)
    case None => Result(Undefined, m)
    case Some(t) =>
      if t != TAddr then Result(Failed, m)
      else
        match Memory.DwordRead(m.mem, ops.o2.a)
        case None => Result(Undefined, m)
        case Some(im) =>
          var r1 := PutPtr(m, ops.o1, W16, im % 0x1_0000);
          if r1.outcome != Done then r1
          else Result(Done, r1.m.(regs := r1.m.regs[seg := im / 0x1_0000]))
  }

  /** d7 XLAT: AL from DS:(BX + AL), the offset cut to 16 bits. */
  function Xlat(m: Machine): Machine
    requires Wf(m)
  {
    var a := Memory.AddrCalc(m.regs[DS], Wrap16(m.regs[BX] as int + Lo(m.regs[AX])));
    m.(regs := m.regs[AX := SetLo(m.regs[AX], Memory.ByteRead(m.mem, a))])
  }

  // ---------------------------------------------------------------------
  // Properties

  /** A MOV to a register destination completes and the destination then
    * reads back the source; to a mapped memory byte it completes and the
    * byte reads back. */
  lemma MovRegToRmStores(m: Machine, w: Width, ops: Operands)
    requires Wf(m) && Deref(m.regs, ops.o1, w).Got?
    ensures var s := Deref(m.regs, ops.o1, w).v; var r := MovRegToRm(m, w, ops);
      && (Tag(ops.o2) == Some(RegTag(w)) && PtrStore(m.regs, ops.o2, w, s).Some? ==>
            r.outcome == Done && PtrLoad(r.m.regs, ops.o2, w) == Some(s))
      && (ops.o2.Addr? && w == W8 && Memory.Mapped(ops.o2.a) ==>
            r.outcome == Done && Memory.ByteRead(r.m.mem, ops.o2.a) == s)
  {
    var s := Deref(m.regs, ops.o1, w).v;
    if Tag(ops.o2) == Some(RegTag(w)) && PtrStore(m.regs, ops.o2, w, s).Some? {
      PtrStoreThenLoad(m.regs, ops.o2, w, s);
    }
    if ops.o2.Addr? && w == W8 && Memory.Mapped(ops.o2.a) {
      Memory.ByteRoundTrip(m.mem, ops.o2.a, Lo(s), ops.o2.a);
    }
  }

  /** `mov r8, r8` (8a, mode 3) always returns -1: the byte parser tags the
    * register operand `OPERAND_REG8`, the executor accepts only
    * `OPERAND_REG16`. */
  lemma MovByteRegRegFails(m: Machine, d: Operand, s: Reg)
    requires Wf(m)
    ensures MovRmToReg(m, W8, Operands(d, Reg8(s, false), Unset)) == Result(Failed, m)
  {
  }

  /** XCHG of two different word registers swaps them, and doing it twice
    * restores the machine. */
  lemma XchgSwaps(m: Machine, a: Reg, b: Reg)
    requires Wf(m) && a != b
    ensures var r := XchgRegRm(m, W16, Operands(Reg16(a), Reg16(b), Unset));
      && r.outcome == Done
      && r.m.regs == m.regs[a := m.regs[b]][b := m.regs[a]]
      && XchgRegRm(r.m, W16, Operands(Reg16(a), Reg16(b), Unset)) == Result(Done, m)
  {
    var regs1: Regs := m.regs[a := m.regs[b]][b := m.regs[a]];
    assert regs1[a := regs1[b]][b := regs1[a]] == m.regs;
  }

  /** Exchanging AX with a register twice restores the machine. */
  lemma XchgAxTwice(m: Machine, r: Reg)
    ensures XchgAx(m, r).regs[AX] == m.regs[r] && XchgAx(m, r).regs[r] == m.regs[AX]
    ensures XchgAx(XchgAx(m, r), r) == m
  {
    var regs1: Regs := m.regs[AX := m.regs[r]][r := m.regs[AX]];
    assert regs1[AX := regs1[r]][r := regs1[AX]] == m.regs;
  }

  /** SAHF and LAHF are each other's inverse on the byte they share: after
    * either one, the other changes nothing. */
  lemma SahfLahf(m: Machine)
    ensures Lahf(Sahf(m)) == Sahf(m)
    ensures Sahf(Lahf(m)) == Lahf(m)
  {
    var s := Sahf(m);
    assert SetHi(s.regs[AX], Lo(s.regs[FLAGS])) == s.regs[AX] by {
      HalvesCompose(s.regs[AX]);
    }
    assert s.regs[AX := s.regs[AX]] == s.regs;
    var l := Lahf(m);
    assert SetLo(l.regs[FLAGS], Hi(l.regs[AX])) == l.regs[FLAGS] by {
      HalvesCompose(l.regs[FLAGS]);
    }
    assert l.regs[FLAGS := l.regs[FLAGS]] == l.regs;
  }

  /** LEA puts the offset into the register and nothing else changes. */
  lemma LeaLoadsOffset(m: Machine, r: Reg, off: uint16)
    ensures Lea(m, Operands(Reg16(r), Imm16(off), Unset)) == Result(Done, m.(regs := m.regs[r := off]))
    ensures Lea(m, Operands(Reg16(r), Addr(off), Unset)).outcome == Failed
  {
  }

  /** The dword splits into the two words it was made of. */
  lemma Le32Halves(b0: uint8, b1: uint8, b2: uint8, b3: uint8)
    ensures Memory.Le32(b0, b1, b2, b3) % 0x1_0000 == Memory.Le16(b0, b1)
    ensures Memory.Le32(b0, b1, b2, b3) / 0x1_0000 == Memory.Le16(b2, b3)
  {
    var lo, hi := Memory.Le16(b0, b1), Memory.Le16(b2, b3);
    var x: int := Memory.Le32(b0, b1, b2, b3);
    assert x == lo as int + 0x1_0000 * hi as int;
    DivModWord(lo as int, hi as int);
    assert x % 0x1_0000 == lo as int;
    assert x / 0x1_0000 == hi as int;
  }

  lemma DivModWord(lo: int, hi: int)
    requires 0 <= lo < 0x1_0000 && 0 <= hi
    ensures (lo + 0x1_0000 * hi) % 0x1_0000 == lo
    ensures (lo + 0x1_0000 * hi) / 0x1_0000 == hi
  {
  }

  /** At the first address of a member array (where the scaled dword index
    * points at the address itself), LES/LDS load the register from the
    * word there and the segment from the word two bytes up. */
  lemma LoadFarAtArrayStart(m: Machine, seg: Reg, r: Reg, a: nat)
    requires Wf(m) && General(r) && r != seg
    requires Memory.WordArray(a) == Some(a) && a + 3 < Memory.Size
    ensures var x := LoadFar(m, seg, Operands(Reg16(r), Addr(a), Unset));
      && x.outcome == Done
      && x.m.regs[r] == Memory.Le16(m.mem[a], m.mem[a + 1])
      && x.m.regs[seg] == Memory.Le16(m.mem[a + 2], m.mem[a + 3])
  {
    Le32Halves(m.mem[a], m.mem[a + 1], m.mem[a + 2], m.mem[a + 3]);
  }

  /** MOV from the accumulator to memory (a2/a3) never completes: memory
    * operands are undefined, all others return -1. */
  lemma MovAccToMemNeverCompletes(m: Machine, ops: Operands)
    ensures MovAccToMem(m, ops).outcome != Done
    ensures MovAccToMem(m, ops).m == m
  {
  }

  // ---------------------------------------------------------------------
  // The executors, performed on the core

  /** `mov_reg2rm_{8,16}`. */
  method ExecMovRegToRm(core: Core, w: Width, ops: Operands) returns (out: Outcome)
    requires core.Valid()
    modifies core`reg, core.mem
    ensures Result(out, core.State()) == MovRegToRm(old(core.State()), w, ops)
  {
    var s := Deref(core.reg, ops.o1, w);
    if s.Stop? {
      out := s.outcome;
      return;
    }
    out := core.StoreRmTo(ops.o2, w, RegTag(w), s.v);
  }

  /** `mov_rm2reg_{8,16}`. */
  method ExecMovRmToReg(core: Core, w: Width, ops: Operands) returns (out: Outcome)
    requires core.Valid()
    modifies core`reg
    ensures Result(out, core.State()) == MovRmToReg(old(core.State()), w, ops)
  {
    var s := core.ReadRmOf(ops.o2, w, TReg16);
    if s.Stop? {
      out := s.outcome;
      return;
    }
    out := core.PutPtrAt(ops.o1, w, s.v);
  }

  /** `mov_seg2rm_16`. */
  method ExecMovSegToRm(core: Core, ops: Operands) returns (out: Outcome)
    requires core.Valid()
    modifies core`reg, core.mem
    ensures Result(out, core.State()) == MovSegToRm(old(core.State()), ops)
  {
    var s := Deref(core.reg, ops.o1, W16);
    if s.Stop? {
      out := s.outcome;
      return;
    }
    out := core.StoreRmTo(ops.o2, W16, TReg16, s.v);
  }

  /** `mov_rm2seg_16`. */
  method ExecMovRmToSeg(core: Core, ops: Operands) returns (out: Outcome)
    requires core.Valid()
    modifies core`reg
    ensures Result(out, core.State()) == MovRmToSeg(old(core.State()), ops)
  {
    var s := core.ReadRmOf(ops.o2, W16, TReg16);
    if s.Stop? {
      out := s.outcome;
      return;
    }
    out := core.PutPtrAt(ops.o1, W16, s.v);
  }

  /** `lea_rm2reg`. */
  method ExecLea(core: Core, ops: Operands) returns (out: Outcome)
    requires core.Valid()
    modifies core`reg
    ensures Result(out, core.State()) == Lea(old(core.State()), ops)
  {
    var t := Tag(ops.o2);
    if t.None? {
      out := Undefined;
    } else if t.value != TIm16 {
      out := Failed;
    } else {
      out := core.PutPtrAt(ops.o1, W16, ops.o2.v);
    }
  }

  /** `xchg_reg2rm_{8,16}`. */
  method ExecXchgRegRm(core: Core, w: Width, ops: Operands) returns (out: Outcome)
    requires core.Valid()
    modifies core`reg, core.mem
    ensures Result(out, core.State()) == XchgRegRm(old(core.State()), w, ops)
  {
    var s := Deref(core.reg, ops.o1, w);
    if s.Stop? {
      out := s.outcome;
      return;
    }
    var d := core.ReadRmOf(ops.o2, w, RegTag(w));
    if d.Stop? {
      out := d.outcome;
      return;
    }
    out := core.PutPtrAt(ops.o1, w, d.v);
    if out != Done {
      return;
    }
    out := core.WriteBackTo(ops.o2, w, Some(RegTag(w)), s.v);
  }

  /** `xchg_{cx,dx,bx,sp,bp,si,di}ax`. */
  method ExecXchgAx(core: Core, r: Reg)
    modifies core`reg
    ensures core.State() == XchgAx(old(core.State()), r)
  {
    var t := core.reg[AX];
    core.reg := core.reg[AX := core.reg[r]];
    core.reg := core.reg[r := t];
  }

  method ExecLahf(core: Core)
    modifies core`reg
    ensures core.State() == Lahf(old(core.State()))
  {
    core.reg := core.reg[AX := SetHi(core.reg[AX], Lo(core.reg[FLAGS]))];
  }

  method ExecSahf(core: Core)
    modifies core`reg
    ensures core.State() == Sahf(old(core.State()))
  {
    core.reg := core.reg[FLAGS := SetLo(core.reg[FLAGS], Hi(core.reg[AX]))];
  }

  /** `mov_rm2al` / `mov_rm2ax`. */
  method ExecMovAccFromMem(core: Core, w: Width, ops: Operands) returns (out: Outcome)
    requires core.Valid()
    modifies core`reg
    ensures Result(out, core.State()) == MovAccFromMem(old(core.State()), w, ops)
  {
    var t := Tag(ops.o2);
    if t.None? {
      out := Undefined;
    } else if t.value != TAddr {
      out := Failed;
    } else {
      var v := core.LoadAt(w, ops.o2.a);
      core.reg := core.reg[AX := if w == W8 then SetLo(core.reg[AX], v) else v];
      out := Done;
    }
  }

  /** `mov_al2rm` / `mov_ax2rm`. */
  method ExecMovAccToMem(core: Core, ops: Operands) returns (out: Outcome)
    ensures Result(out, core.State()) == MovAccToMem(core.State(), ops)
  {
    var t := Tag(ops.o2);
    if t.None? || t.value == TAddr {
      out := Undefined;
    } else {
      out := Failed;
    }
  }

  /** `mov_im82{al,cl,dl,bl,ah,ch,dh,bh}`. */
  method ExecMovImm8(core: Core, r: Reg, high: bool, ops: Operands) returns (out: Outcome)
    modifies core`reg
    ensures Result(out, core.State()) == MovImm8(old(core.State()), r, high, ops)
  {
    var im := WordField(ops.o1);
    if im.None? {
      out := Undefined;
      return;
    }
    var x := core.reg[r];
    core.reg := core.reg[r := if high then SetHi(x, Lo(im.value)) else SetLo(x, Lo(im.value))];
    out := Done;
  }

  /** `mov_im162{ax,cx,dx,bx,sp,bp,si,di}`. */
  method ExecMovImm16(core: Core, r: Reg, ops: Operands) returns (out: Outcome)
    modifies core`reg
    ensures Result(out, core.State()) == MovImm16(old(core.State()), r, ops)
  {
    var im := WordField(ops.o1);
    if im.None? {
      out := Undefined;
      return;
    }
    core.reg := core.reg[r := im.value];
    out := Done;
  }

  /** `mov_im2rm_{8,16}`. */
  method ExecMovImmRm(core: Core, w: Width, ops: Operands) returns (out: Outcome)
    requires core.Valid()
    modifies core`reg, core.mem
    ensures Result(out, core.State()) == MovImmRm(old(core.State()), w, ops)
  {
    var op := OpField(ops.o1);
    if op.None? {
      out := Undefined;
      return;
    }
    if op.value != 0 {
      out := Failed;
      return;
    }
    var im := WordField(ops.o3);
    if im.None? {
      out := Undefined;
      return;
    }
    out := core.StoreRmTo(ops.o2, w, RegTag(w), if w == W8 then Lo(im.value) else im.value);
  }

  /** `les_rm2reg_16` / `lds_rm2reg_16`. */
  method ExecLoadFar(core: Core, seg: Reg, ops: Operands) returns (out: Outcome)
    requires core.Valid()
    modifies core`reg
    ensures Result(out, core.State()) == LoadFar(old(core.State()), seg, ops)
  {
    var t := Tag(ops.o2);
    if t.None? {
      out := Undefined;
      return;
    }
    if t.value != TAddr {
      out := Failed;
      return;
    }
    var im := Memory.ReadDword(core.mem, ops.o2.a);
    if im.None? {
      out := Undefined;
      return;
    }
    out := core.PutPtrAt(ops.o1, W16, im.value % 0x1_0000);
    if out == Done {
      core.reg := core.reg[seg := im.value / 0x1_0000];
    }
  }

  method ExecXlat(core: Core)
    requires core.Valid()
    modifies core`reg
    ensures core.State() == Xlat(old(core.State()))
  {
    var a := Memory.AddrCalc(core.reg[DS], Wrap16(core.reg[BX] as int + Lo(core.reg[AX])));
    var al := Memory.ReadByte(core.mem, a);
    core.reg := core.reg[AX := SetLo(core.reg[AX], al)];
  }
}
