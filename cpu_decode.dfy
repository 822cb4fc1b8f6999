/**
  * Operand decoding of the interpreter (arch/8086/cpu.c): the ModRM byte,
  * the register tables of the parsers, the effective-address functions
  * `addr_rm_mod0/1/2` and their `_offset` variants, and the thirteen
  * `parse_format_*` parsers, which fetch their bytes at CS:IP and so move
  * IP on as they go.
  */
module CpuDecode {
  import opened Wrappers
  import opened Registers
  import opened CpuState
  import Memory

  // ---------------------------------------------------------------------
  // The ModRM byte

  datatype ModRM = ModRM(mode: nat, reg: nat, rm: nat)

  predicate ModRMOk(x: ModRM) { x.mode < 4 && x.reg < 8 && x.rm < 8 }

  /** `OPERAND_MOD`, `OPERAND_OPERAND1`, `OPERAND_OPERAND2`: bits 7-6,
    * bits 5-3 and bits 2-0. */
  function Split(b: uint8): (x: ModRM)
    ensures ModRMOk(x)
  {
    ModRM(b / 64, (b / 8) % 8, b % 8)
  }

  function Join(x: ModRM): nat
  {
    x.mode * 64 + x.reg * 8 + x.rm
  }

  /** The three fields are the whole byte. */
  lemma JoinSplit(b: uint8)
    ensures Join(Split(b)) == b
  {
    var q := b / 8;
    assert b == 8 * q + b % 8;
    assert q == 8 * (q / 8) + q % 8;
    assert q / 8 == b / 64;
  }

  /** Any three fields in range make a byte that splits back into them. */
  lemma SplitJoin(x: ModRM)
    requires ModRMOk(x)
    ensures Join(x) < 0x100 && Split(Join(x)) == x
  {
    var j := Join(x);
    var rest := x.reg * 8 + x.rm;
    assert 0 <= rest < 64;
    assert j == 64 * x.mode + rest;
    assert j / 64 == x.mode;
    assert j % 8 == x.rm;
    assert j / 8 == 8 * x.mode + x.reg;
    assert (j / 8) % 8 == x.reg;
  }

  // ---------------------------------------------------------------------
  // Register tables

  /** `registers2` of every parser: AX, CX, DX, BX, SP, BP, SI, DI. The
    * 16-bit parsers use the same order for their `registers`. */
  function Reg16Table(n: nat): (r: Reg)
    requires n < 8
    ensures General(r)
  {
    [AX, CX, DX, BX, SP, BP, SI, DI][n]
  }

  /** `registers` of the 8-bit parsers: the byte pointers AL, CL, DL, BL,
    * AH, CH, DH, BH. */
  function Reg8Table(n: nat): Operand
    requires n < 8
  {
    [Reg8(AX, false), Reg8(CX, false), Reg8(DX, false), Reg8(BX, false),
     Reg8(AX, true), Reg8(CX, true), Reg8(DX, true), Reg8(BX, true)][n]
  }

  /** `registers` of `parse_format_seg2rm_16`: ES, CS, SS, DS. */
  function SegTable(n: nat): (r: Reg)
    requires n < 4
    ensures SegmentReg(r)
  {
    [ES, CS, SS, DS][n]
  }

  /** reg 0-3 name the low bytes and reg 4-7 the high bytes of the first
    * four entries of the 16-bit table. */
  lemma Reg8Numbering(n: nat)
    requires n < 8
    ensures Reg8Table(n) == Reg8(Reg16Table(n % 4), n >= 4)
  {
  }

  // ---------------------------------------------------------------------
  // Effective addresses

  /** Number of displacement bytes each mode fetches. */
  function DispBytes(mode: nat, rm: nat): nat
  {
    if mode == 0 then (if rm == 6 then 2 else 0)
    else if mode == 1 then 1
    else if mode == 2 then 2
    else 0
  }

  /** Base plus index of each rm. */
  function BaseSum(regs: Regs, rm: nat): nat
  {
    match rm
    case 0 => regs[BX] as int + regs[SI]
    case 1 => regs[BX] as int + regs[DI]
    case 2 => regs[BP] as int + regs[SI]
    case 3 => regs[BP] as int + regs[DI]
    case 4 => regs[SI]
    case 5 => regs[DI]
    case 6 => regs[BP]
    case _ => regs[BX]
  }

  /** rm 2 and 3 address the stack segment, all the others (rm 6 with BP
    * included) the data segment. */
  function BaseSeg(rm: nat): Reg
  {
    if rm == 2 || rm == 3 then SS else DS
  }

  /** `addr_rm_modN` once the displacement is known: segment times 16 plus
    * base, index and displacement in 32-bit arithmetic, except that mode
    * 0 with rm 6 passes `ds * 16`, cut to 16 bits, to `vm_addr_calc`. */
  function Ea(regs: Regs, mode: nat, rm: nat, disp: uint16): nat
  {
    if mode == 0 && rm == 6 then Memory.AddrCalc(Wrap16(regs[DS] as int * 16), disp)
    else regs[BaseSeg(rm)] as int * 16 + BaseSum(regs, rm) + disp
  }

  /** `addr_rm_modN_offset`: the same sums without the segment, in 16 bits. */
  function EaOffset(regs: Regs, mode: nat, rm: nat, disp: uint16): uint16
  {
    if mode == 0 && rm == 6 then disp
    else Wrap16(BaseSum(regs, rm) + disp as int)
  }

  /** Direct addressing scales DS twice: for DS below 0x1000 the address is
    * DS * 256 plus the displacement, not DS * 16 plus it. */
  lemma DirectAddressScalesTwice(regs: Regs, disp: uint16)
    requires regs[DS] < 0x1000
    ensures Ea(regs, 0, 6, disp) == regs[DS] * 256 + disp
    ensures regs[DS] > 0 ==> Ea(regs, 0, 6, disp) != regs[DS] * 16 + disp
  {
  }

  /** Where the 16-bit sum does not wrap, the address is the segment base
    * plus the offset LEA stores; where it wraps, the address keeps the
    * carries that the offset drops, so it lies at least 64 KiB higher. */
  lemma EaIsSegmentPlusOffset(regs: Regs, mode: nat, rm: nat, disp: uint16)
    requires !(mode == 0 && rm == 6)
    ensures BaseSum(regs, rm) + disp < 0x1_0000 ==>
      Ea(regs, mode, rm, disp) == Memory.AddrCalc(regs[BaseSeg(rm)], EaOffset(regs, mode, rm, disp))
    ensures BaseSum(regs, rm) + disp >= 0x1_0000 ==>
      Ea(regs, mode, rm, disp) >= Memory.AddrCalc(regs[BaseSeg(rm)], EaOffset(regs, mode, rm, disp)) + 0x1_0000
  {
  }

  /** The displacement: a byte for mode 1, a word for mode 2 and for mode 0
    * with rm 6, nothing otherwise; each fetch moves IP on. */
  function FetchDisp(m: Machine, mode: nat, rm: nat): (f: Fetched)
    requires Wf(m)
    ensures Wf(f.m)
  {
    var n := DispBytes(mode, rm);
    if n == 1 then Fetch8(m) else if n == 2 then Fetch16(m) else Fetched(0, m)
  }

  /** A displacement fetch moves IP on by the number of displacement bytes
    * and changes nothing else. */
  lemma FetchDispAdvances(m: Machine, mode: nat, rm: nat)
    requires Wf(m)
    ensures FetchDisp(m, mode, rm).m == m.(regs := m.regs[IP := Add16(m.regs[IP], DispBytes(mode, rm))])
  {
    if DispBytes(mode, rm) == 0 {
      assert m.regs[IP := Add16(m.regs[IP], 0)] == m.regs;
    }
  }

  // ---------------------------------------------------------------------
  // The parsers

  /** The thirteen `parse_format_*` functions. */
  datatype Format =
    | Seg2Rm16 | Reg2Rm8 | Reg2RmLea | Reg2Rm16 | Immediate8 | Immediate16
    | IpInc8 | IpInc16 | Rm2Imm8 | Rm2Imm16 | Call16 | TableRm8 | TableRm16

  predicate HasModRM(f: Format)
  {
    !(f.Immediate8? || f.Immediate16? || f.IpInc8? || f.IpInc16? || f.Call16?)
  }

  /** Formats whose mode-3 operand is tagged `OPERAND_REG8`. */
  predicate ByteRm(f: Format)
  {
    f.Reg2Rm8? || f.Rm2Imm8? || f.TableRm8?
  }

  datatype Parsed = Parsed(ops: Operands, m: Machine)

  /** The reg-field operand: a segment, byte or word register pointer, or
    * the sub-opcode for the group formats. */
  function RegOperand(f: Format, reg: nat): Operand
    requires HasModRM(f) && reg < 8 && (f.Seg2Rm16? ==> reg < 4)
  {
    if f.Seg2Rm16? then Seg(SegTable(reg))
    else if f.Reg2Rm8? then Reg8Table(reg)
    else if f.Reg2RmLea? || f.Reg2Rm16? then Reg16(Reg16Table(reg))
    else Op(reg)
  }

  /** The rm-field operand with the displacement fetched: a register of the
    * 16-bit table for mode 3 (as the low byte for the byte formats), the
    * 16-bit offset for LEA, the physical address otherwise. */
  function RmOperand(f: Format, x: ModRM, m: Machine): (p: (Operand, Machine))
    requires Wf(m) && ModRMOk(x)
    ensures Wf(p.1)
  {
    if x.mode == 3 then
      (if ByteRm(f) then Reg8(Reg16Table(x.rm), false) else Reg16(Reg16Table(x.rm)), m)
    else
      var d := FetchDisp(m, x.mode, x.rm);
      if f.Reg2RmLea? then (Imm16(EaOffset(d.m.regs, x.mode, x.rm, d.v)), d.m)
      else (Addr(Ea(d.m.regs, x.mode, x.rm, d.v)), d.m)
  }

  /** What a parser leaves in `struct operand` and in the machine. */
  function Parse(f: Format, m: Machine): (p: Parsed)
    requires Wf(m)
    ensures Wf(p.m)
  {
    if HasModRM(f) then ParseModRM(f, m) else ParseImmediate(f, m)
  }

  /** The parsers without a ModRM byte: immediates, relative targets and
    * the far pointer. */
  function ParseImmediate(f: Format, m: Machine): (p: Parsed)
    requires Wf(m) && !HasModRM(f)
    ensures Wf(p.m)
  {
    if f.Immediate8? then
      var b := Fetch8(m);
      Parsed(Operands(Imm8(b.v), Unset, Unset), b.m)
    else if f.Immediate16? then
      var b := Fetch16(m);
      Parsed(Operands(Imm16(b.v), Unset, Unset), b.m)
    else if f.IpInc8? then
      var b := Fetch8(m);
      Parsed(Operands(Ip8((Lo(b.m.regs[IP]) + b.v) % 0x100), Unset, Unset), b.m)
    else if f.IpInc16? then
      var b := Fetch16(m);
      Parsed(Operands(Ip16(Wrap16(b.m.regs[IP] as int + b.v)), Unset, Unset), b.m)
    else
      var a := Fetch16(m);
      var b := Fetch16(a.m);
      Parsed(Operands(Ip16(a.v), FarSeg(b.v), Unset), b.m)
  }

  /** Bytes of immediate the group formats fetch after the displacement. */
  function ImmBytes(f: Format): nat
  {
    if f.Rm2Imm8? then 1 else if f.Rm2Imm16? then 2 else 0
  }

  /** The parsers that start with a ModRM byte. `parse_format_seg2rm_16`
    * stops after it when reg names no segment register. */
  function ParseModRM(f: Format, m: Machine): (p: Parsed)
    requires Wf(m) && HasModRM(f)
    ensures Wf(p.m)
  {
    var b := Fetch8(m);
    var x := Split(b.v);
    if f.Seg2Rm16? && x.reg >= 4 then Parsed(NoOperands, b.m)
    else
      var o1 := RegOperand(f, x.reg);
      var (o2, m2) := RmOperand(f, x, b.m);
      if f.Rm2Imm8? then
        var i := Fetch8(m2);
        Parsed(Operands(o1, o2, Imm8(i.v)), i.m)
      else if f.Rm2Imm16? then
        var i := Fetch16(m2);
        Parsed(Operands(o1, o2, Imm16(i.v)), i.m)
      else Parsed(Operands(o1, o2, Unset), m2)
  }

  // ---------------------------------------------------------------------
  // Instruction length

  /** The byte at CS:IP. */
  function Peek(m: Machine): uint8
    requires Wf(m)
  {
    Memory.ByteRead(m.mem, Memory.AddrCalc(m.regs[CS], m.regs[IP]))
  }

  /** Bytes a format consumes after the opcode, given the first of them
    * (the ModRM byte, where there is one). */
  function Length(f: Format, first: uint8): nat
  {
    if f.Immediate8? || f.IpInc8? then 1
    else if f.Immediate16? || f.IpInc16? then 2
    else if f.Call16? then 4
    else
      var x := Split(first);
      if f.Seg2Rm16? && x.reg >= 4 then 1
      else if x.mode == 3 then 1 + ImmBytes(f)
      else 1 + DispBytes(x.mode, x.rm) + ImmBytes(f)
  }

  /** A parser changes nothing but IP, which it moves on by exactly the
    * length of the operand bytes: one ModRM byte, the displacement bytes
    * of its mode and the immediate. */
  lemma ParseAdvancesIp(f: Format, m: Machine)
    requires Wf(m)
    ensures Parse(f, m).m == m.(regs := m.regs[IP := Add16(m.regs[IP], Length(f, Peek(m)))])
  {
    var ip := m.regs[IP];
    if HasModRM(f) {
      var b := Fetch8(m);
      var x := Split(b.v);
      if !(f.Seg2Rm16? && x.reg >= 4) && x.mode != 3 {
        FetchDispAdvances(b.m, x.mode, x.rm);
        Add16Twice(ip, 1, DispBytes(x.mode, x.rm));
        if f.Rm2Imm8? {
          Add16Twice(ip, 1 + DispBytes(x.mode, x.rm), 1);
        } else if f.Rm2Imm16? {
          Add16Twice(ip, 1 + DispBytes(x.mode, x.rm), 2);
        }
      } else if !(f.Seg2Rm16? && x.reg >= 4) {
        if f.Rm2Imm8? {
          Add16Twice(ip, 1, 1);
        } else if f.Rm2Imm16? {
          Add16Twice(ip, 1, 2);
        }
      }
    } else if f.Call16? {
      Add16Twice(ip, 2, 2);
    }
  }

  /** Every pointer a parser hands out points into its tables: never at IP
    * or FLAGS. */
  lemma ParsePointersOk(f: Format, m: Machine)
    requires Wf(m)
    ensures OperandsOk(Parse(f, m).ops)
  {
  }

  /** In mode 3 the byte formats take their rm register from the 16-bit
    * table, so rm 4-7 name the low bytes of SP, BP, SI and DI rather than
    * AH, CH, DH and BH. */
  lemma ByteRmUsesWordTable(f: Format, x: ModRM, m: Machine)
    requires Wf(m) && ModRMOk(x) && ByteRm(f) && x.mode == 3
    ensures RmOperand(f, x, m).0 == Reg8(Reg16Table(x.rm), false)
    ensures x.rm >= 4 ==> RmOperand(f, x, m).0 != Reg8Table(x.rm)
  {
  }

  // ---------------------------------------------------------------------
  // The parsers, performed on the core

  method FetchDispOf(core: Core, mode: nat, rm: nat) returns (disp: uint16)
    requires core.Valid()
    modifies core`reg
    ensures Fetched(disp, core.State()) == FetchDisp(old(core.State()), mode, rm)
  {
    var n := DispBytes(mode, rm);
    if n == 1 {
      disp := core.FetchByte();
    } else if n == 2 {
      disp := core.FetchWord();
    } else {
      disp := 0;
    }
  }

  method RmOperandOf(core: Core, f: Format, x: ModRM) returns (o: Operand)
    requires core.Valid() && ModRMOk(x)
    modifies core`reg
    ensures (o, core.State()) == RmOperand(f, x, old(core.State()))
  {
    if x.mode == 3 {
      o := if ByteRm(f) then Reg8(Reg16Table(x.rm), false) else Reg16(Reg16Table(x.rm));
    } else {
      var disp := FetchDispOf(core, x.mode, x.rm);
      if f.Reg2RmLea? {
        o := Imm16(EaOffset(core.reg, x.mode, x.rm, disp));
      } else {
        o := Addr(Ea(core.reg, x.mode, x.rm, disp));
      }
    }
  }

  /** The ModRM parsers, fetching through the core. */
  method ParseModRMOf(core: Core, f: Format) returns (ops: Operands)
    requires core.Valid() && HasModRM(f)
    modifies core`reg
    ensures Parsed(ops, core.State()) == ParseModRM(f, old(core.State()))
  {
    var b := core.FetchByte();
    var x := Split(b);
    if f.Seg2Rm16? && x.reg >= 4 {
      ops := NoOperands;
      return;
    }
    var o1 := RegOperand(f, x.reg);
    var o2 := RmOperandOf(core, f, x);
    if f.Rm2Imm8? {
      var i := core.FetchByte();
      ops := Operands(o1, o2, Imm8(i));
    } else if f.Rm2Imm16? {
      var i := core.FetchWord();
      ops := Operands(o1, o2, Imm16(i));
    } else {
      ops := Operands(o1, o2, Unset);
    }
  }

  /** `parse_format_*`, fetching through the core. */
  method ParseOf(core: Core, f: Format) returns (ops: Operands)
    requires core.Valid()
    modifies core`reg
    ensures Parsed(ops, core.State()) == Parse(f, old(core.State()))
  {
    if HasModRM(f) {
      ops := ParseModRMOf(core, f);
    } else {
      ops := ParseImmediateOf(core, f);
    }
  }

  /** The parsers without a ModRM byte, fetching through the core. */
  method ParseImmediateOf(core: Core, f: Format) returns (ops: Operands)
    requires core.Valid() && !HasModRM(f)
    modifies core`reg
    ensures Parsed(ops, core.State()) == ParseImmediate(f, old(core.State()))
  {
    if f.Immediate8? || f.IpInc8? {
      ops := ParseByteOf(core, f);
    } else if f.Immediate16? || f.IpInc16? {
      ops := ParseWordOf(core, f);
    } else {
      ops := ParseFarOf(core);
    }
  }

  /** `parse_format_imm_8` and `parse_format_ipinc_8`: one byte, taken as it
    * is or added to the low byte of IP after the fetch. */
  method ParseByteOf(core: Core, f: Format) returns (ops: Operands)
    requires core.Valid() && (f.Immediate8? || f.IpInc8?)
    modifies core`reg
    ensures Parsed(ops, core.State()) == ParseImmediate(f, old(core.State()))
  {
    var b := core.FetchByte();
    if f.Immediate8? {
      ops := Operands(Imm8(b), Unset, Unset);
    } else {
      ops := Operands(Ip8((Lo(core.reg[IP]) + b) % 0x100), Unset, Unset);
    }
  }

  /** `parse_format_imm_16` and `parse_format_ipinc_16`: one word, taken as
    * it is or added to IP after the fetch. */
  method ParseWordOf(core: Core, f: Format) returns (ops: Operands)
    requires core.Valid() && (f.Immediate16? || f.IpInc16?)
    modifies core`reg
    ensures Parsed(ops, core.State()) == ParseImmediate(f, old(core.State()))
  {
    var w := core.FetchWord();
    if f.Immediate16? {
      ops := Operands(Imm16(w), Unset, Unset);
    } else {
      ops := Operands(Ip16(Wrap16(core.reg[IP] as int + w)), Unset, Unset);
    }
  }

  /** `parse_format_call_16`: the offset word, then the segment word. */
  method ParseFarOf(core: Core) returns (ops: Operands)
    requires core.Valid()
    modifies core`reg
    ensures Parsed(ops, core.State()) == ParseImmediate(Call16, old(core.State()))
  {
    ghost var a := Fetch16(core.State());
    var offset := core.FetchWord();
    assert core.State() == a.m;
    var segment := core.FetchWord();
    ops := Operands(Ip16(offset), FarSeg(segment), Unset);
  }
}
