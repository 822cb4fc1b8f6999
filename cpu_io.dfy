/**
  * The port I/O executors of arch/8086/cpu.c: IN and OUT with an
  * immediate port (e4-e7) and with the port in a register (ec-ef).
  *
  * The register forms of OUT address the port held in CX, not DX, and the
  * word form of IN from DX keeps the old high byte of AX and ORs the port
  * word into it.
  */
module CpuIo {
  import opened Wrappers
  import opened Registers
  import opened CpuState
  import Pci

  /** e4: AL from the port the immediate names. */
  function InAl(m: Machine, d: Devices, ops: Operands): (r: Result)
    requires Wf(m)
    ensures Wf(r.m)
  {
    match WordField(ops.o1)
    case None => Result(Undefined, m)
    case Some(p) =>
      var i := Pci.ByteIn(m.ports, p, d.byteIn);
      Result(Done, m.(regs := m.regs[AX := SetLo(m.regs[AX], i.value)], ports := i.ports))
  }

  /** e5: AX from the port the immediate names. */
  function InAx(m: Machine, d: Devices, ops: Operands): (r: Result)
    requires Wf(m)
    ensures Wf(r.m)
  {
    match WordField(ops.o1)
    case None => Result(Undefined, m)
    case Some(p) =>
      var i := Pci.WordIn(m.ports, p, d.wordIn);
      Result(Done, m.(regs := m.regs[AX := i.value], ports := i.ports))
  }

  /** e6: AL to the port the immediate names. */
  function OutAl(m: Machine, ops: Operands): (r: Result)
    requires Wf(m)
    ensures Wf(r.m)
  {
    match WordField(ops.o1)
    case None => Result(Undefined, m)
    case Some(p) => Result(Done, m.(ports := Pci.ByteOut(m.ports, p, Lo(m.regs[AX]))))
  }

  /** e7: AX to the port the immediate names. */
  function OutAx(m: Machine, ops: Operands): (r: Result)
    requires Wf(m)
    ensures Wf(r.m)
  {
    match WordField(ops.o1)
    case None => Result(Undefined, m)
    case Some(p) => Result(Done, m.(ports := Pci.WordOut(m.ports, p, m.regs[AX])))
  }

  /** ec: AL from the port DX names. */
  function InAlDx(m: Machine, d: Devices): (m': Machine)
    requires Wf(m)
    ensures Wf(m')
  {
    var i := Pci.ByteIn(m.ports, m.regs[DX], d.byteIn);
    m.(regs := m.regs[AX := SetLo(m.regs[AX], i.value)], ports := i.ports)
  }

  /** ed: the high byte of AX ORed with the word from the port DX names. */
  function InAxDx(m: Machine, d: Devices): (m': Machine)
    requires Wf(m)
    ensures Wf(m')
  {
    var i := Pci.WordIn(m.ports, m.regs[DX], d.wordIn);
    m.(regs := m.regs[AX := Or16(SetLo(m.regs[AX], 0), i.value)], ports := i.ports)
  }

  /** ee: AL to the port CX names. */
  function OutAlDx(m: Machine): (m': Machine)
    requires Wf(m)
    ensures Wf(m')
  {
    m.(ports := Pci.ByteOut(m.ports, m.regs[CX], Lo(m.regs[AX])))
  }

  /** ef: AX to the port CX names. */
  function OutAxDx(m: Machine): (m': Machine)
    requires Wf(m)
    ensures Wf(m')
  {
    m.(ports := Pci.WordOut(m.ports, m.regs[CX], m.regs[AX]))
  }

  // ---------------------------------------------------------------------
  // Properties

  /** A word written to a port without an input handler reads back into
    * AX, and a byte written reads back into AL; nothing but AX and the
    * port changes. */
  lemma OutThenIn(m: Machine, d: Devices, p: uint16)
    requires Wf(m) && m.ports[p].in16.None? && m.ports[p].in8.None?
    ensures var ops := Operands(Imm8(p), Unset, Unset);
      var w := InAx(OutAx(m, ops).m, d, ops);
      var b := InAl(OutAl(m, ops).m, d, ops);
      && w.outcome == Done && w.m == OutAx(m, ops).m
      && b.outcome == Done && b.m == OutAl(m, ops).m
  {
    var ops := Operands(Imm8(p), Unset, Unset);
    var m1 := OutAx(m, ops).m;
    Pci.WordOutThenIn(m.ports, p, m.regs[AX], d.wordIn);
    assert m1.regs[AX := m1.regs[AX]] == m1.regs;
    var m2 := OutAl(m, ops).m;
    Pci.ByteOutThenIn(m.ports, p, Lo(m.regs[AX]), d.byteIn);
    HalvesCompose(m2.regs[AX]);
    assert m2.regs[AX := m2.regs[AX]] == m2.regs;
  }

  /** The register forms of OUT write the port CX names; the port DX names
    * keeps its record whenever CX and DX differ. */
  lemma OutDxWritesPortCx(m: Machine)
    requires Wf(m) && m.regs[CX] != m.regs[DX]
    ensures OutAlDx(m).ports[m.regs[CX]].v == SetLo(m.ports[m.regs[CX]].v, Lo(m.regs[AX]))
    ensures OutAxDx(m).ports[m.regs[CX]].v == m.regs[AX]
    ensures OutAlDx(m).ports[m.regs[DX]] == m.ports[m.regs[DX]]
    ensures OutAxDx(m).ports[m.regs[DX]] == m.ports[m.regs[DX]]
  {
    Pci.WritesAreLocal(m.ports, m.regs[CX], m.regs[DX], Lo(m.regs[AX]), m.regs[AX], Pci.In8, None);
  }

  /** `in ax, dx` loads the port word when the high byte of AX is clear;
    * otherwise the old high byte stays ORed in: with AX = 0x0100 and a
    * port holding 0 without a handler, AX stays 0x0100. */
  lemma InAxDxMerges(m: Machine, d: Devices)
    requires Wf(m)
    ensures Hi(m.regs[AX]) == 0 ==>
      InAxDx(m, d).regs[AX] == Pci.WordIn(m.ports, m.regs[DX], d.wordIn).value
    ensures m.regs[AX] == 0x100 && m.ports[m.regs[DX]] == Pci.Cleared ==>
      InAxDx(m, d).regs[AX] == 0x100
  {
    var v := Pci.WordIn(m.ports, m.regs[DX], d.wordIn).value;
    if Hi(m.regs[AX]) == 0 {
      assert SetLo(m.regs[AX], 0) == 0;
      WordIdentities(v);
    }
    if m.regs[AX] == 0x100 && m.ports[m.regs[DX]] == Pci.Cleared {
      assert SetLo(m.regs[AX], 0) == 0x100;
      WordIdentities(0x100);
    }
  }

  // ---------------------------------------------------------------------
  // The executors, performed on the core

  method ExecInAl(core: Core, d: Devices, ops: Operands) returns (out: Outcome)
    requires core.Valid()
    modifies core`reg, core.ports
    ensures Result(out, core.State()) == InAl(old(core.State()), d, ops)
  {
    var p := WordField(ops.o1);
    if p.None? {
      out := Undefined;
      return;
    }
    var b := Pci.InByte(core.ports, p.value, d.byteIn);
    core.reg := core.reg[AX := SetLo(core.reg[AX], b)];
    out := Done;
  }

  method ExecInAx(core: Core, d: Devices, ops: Operands) returns (out: Outcome)
    requires core.Valid()
    modifies core`reg, core.ports
    ensures Result(out, core.State()) == InAx(old(core.State()), d, ops)
  {
    var p := WordField(ops.o1);
    if p.None? {
      out := Undefined;
      return;
    }
    var w := Pci.InWord(core.ports, p.value, d.wordIn);
    core.reg := core.reg[AX := w];
    out := Done;
  }

  method ExecOutAl(core: Core, ops: Operands) returns (out: Outcome)
    requires core.Valid()
    modifies core.ports
    ensures Result(out, core.State()) == OutAl(old(core.State()), ops)
  {
    var p := WordField(ops.o1);
    if p.None? {
      out := Undefined;
      return;
    }
    Pci.OutByte(core.ports, p.value, Lo(core.reg[AX]));
    out := Done;
  }

  method ExecOutAx(core: Core, ops: Operands) returns (out: Outcome)
    requires core.Valid()
    modifies core.ports
    ensures Result(out, core.State()) == OutAx(old(core.State()), ops)
  {
    var p := WordField(ops.o1);
    if p.None? {
      out := Undefined;
      return;
    }
    Pci.OutWord(core.ports, p.value, core.reg[AX]);
    out := Done;
  }

  method ExecInAlDx(core: Core, d: Devices)
    requires core.Valid()
    modifies core`reg, core.ports
    ensures core.State() == InAlDx(old(core.State()), d)
  {
    var b := Pci.InByte(core.ports, core.reg[DX], d.byteIn);
    core.reg := core.reg[AX := SetLo(core.reg[AX], b)];
  }

  method ExecInAxDx(core: Core, d: Devices)
    requires core.Valid()
    modifies core`reg, core.ports
    ensures core.State() == InAxDx(old(core.State()), d)
  {
    var ax := SetLo(core.reg[AX], 0);
    var w := Pci.InWord(core.ports, core.reg[DX], d.wordIn);
    core.reg := core.reg[AX := Or16(ax, w)];
  }

  method ExecOutAlDx(core: Core)
    requires core.Valid()
    modifies core.ports
    ensures core.State() == OutAlDx(old(core.State()))
  {
    Pci.OutByte(core.ports, core.reg[CX], Lo(core.reg[AX]));
  }

  method ExecOutAxDx(core: Core)
    requires core.Valid()
    modifies core.ports
    ensures core.State() == OutAxDx(old(core.State()))
  {
    Pci.OutWord(core.ports, core.reg[CX], core.reg[AX]);
  }
}
