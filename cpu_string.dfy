/**
  * The string executors of arch/8086/cpu.c: MOVS, CMPS, SCAS, STOS and
  * LODS, one element each (the REP prefixes are not part of this model).
  *
  * SI and DI move up when DF is clear and down when it is set. MOVSW moves
  * them by two, every other word form by one. LODS reads from ES:DI, and
  * CMPS and SCAS compute flag values that never reach FLAGS, so they only
  * move the pointers.
  */
module CpuString {
  import opened Registers
  import opened CpuState
  import Memory

  /** The signed step for an element of n bytes: `FLAGS_DF(core) == 0`
    * means counting up. */
  function Delta(m: Machine, n: nat): int
  {
    if Accessor(m.regs[FLAGS], DF) == 0 then n else -(n as int)
  }

  /** SI and DI moved by the step, each in 16 bits. */
  function Advance(m: Machine, n: nat): Machine
  {
    var d := Delta(m, n);
    m.(regs := m.regs[SI := Add16(m.regs[SI], d)][DI := Add16(m.regs[DI], d)])
  }

  function Source(m: Machine): nat { Memory.AddrCalc(m.regs[DS], m.regs[SI]) }
  function Target(m: Machine): nat { Memory.AddrCalc(m.regs[ES], m.regs[DI]) }

  /** a4/a5 MOVS: the element at DS:SI is written to ES:DI. */
  function Movs(m: Machine, w: Width): (r: Result)
    requires Wf(m)
    ensures Wf(r.m)
  {
    var s := Store(m, w, Target(m), Load(m, w, Source(m)));
    if s.outcome != Done then s else Result(Done, Advance(s.m, if w == W8 then 1 else 2))
  }

  /** a6/a7 CMPS and ae/af SCAS: both elements are read and compared, and
    * only the pointers move. */
  function Compare(m: Machine): Machine
  {
    Advance(m, 1)
  }

  /** aa/ab STOS: AL or AX is written to ES:DI. */
  function Stos(m: Machine, w: Width): (r: Result)
    requires Wf(m)
    ensures Wf(r.m)
  {
    var v := if w == W8 then Lo(m.regs[AX]) else m.regs[AX];
    var s := Store(m, w, Target(m), v);
    if s.outcome != Done then s else Result(Done, Advance(s.m, 1))
  }

  /** ac/ad LODS: AL or AX is read from ES:DI. */
  function Lods(m: Machine, w: Width): (m': Machine)
    requires Wf(m)
    ensures Wf(m')
  {
    var v := Load(m, w, Target(m));
    var ax := if w == W8 then SetLo(m.regs[AX], v) else v;
    Advance(m.(regs := m.regs[AX := ax]), 1)
  }

  // ---------------------------------------------------------------------
  // Properties

  /** A step down undoes a step up of the same size, and the reverse. */
  lemma AdvanceUndone(m: Machine, n: nat)
    requires n < 0x1_0000
    ensures var up := m.(regs := m.regs[FLAGS := 0]);
      var down := m.(regs := m.regs[FLAGS := 0x400]);
      && Advance(down, n).regs[SI] == Add16(m.regs[SI], -(n as int))
      && Advance(up, n).regs[SI] == Add16(m.regs[SI], n)
      && Advance(Advance(up, n).(regs := Advance(up, n).regs[FLAGS := 0x400]), n).regs[SI] == m.regs[SI]
      && Advance(Advance(up, n).(regs := Advance(up, n).regs[FLAGS := 0x400]), n).regs[DI] == m.regs[DI]
  {
    var up := m.(regs := m.regs[FLAGS := 0]);
    var down := m.(regs := m.regs[FLAGS := 0x400]);
    DirectionWords();
    assert Delta(up, n) == n && Delta(down, n) == -(n as int);
    var u := Advance(up, n);
    var back := u.(regs := u.regs[FLAGS := 0x400]);
    assert Delta(back, n) == -(n as int);
    Add16Back(m.regs[SI], n);
    Add16Back(m.regs[DI], n);
  }

  /** FLAGS = 0 counts up and FLAGS = 0x400 (DF alone) counts down. */
  lemma DirectionWords()
    ensures Accessor(0, DF) == 0 && Accessor(0x400, DF) != 0
  {
    assert Bit(0x400, Position(DF)) == 1;
  }

  lemma Add16Back(x: uint16, n: nat)
    requires n < 0x1_0000
    ensures Add16(Add16(x, n), -(n as int)) == x
  {
  }

  /** MOVSB copies the byte at DS:SI to a mapped ES:DI; every other
    * register but SI and DI keeps its value. */
  lemma MovsbCopies(m: Machine)
    requires Wf(m) && Memory.Mapped(Target(m))
    ensures var r := Movs(m, W8);
      && r.outcome == Done
      && Memory.ByteRead(r.m.mem, Target(m)) == Memory.ByteRead(m.mem, Source(m))
      && (forall q: Reg :: q != SI && q != DI ==> r.m.regs[q] == m.regs[q])
  {
    Memory.ByteRoundTrip(m.mem, Target(m), Memory.ByteRead(m.mem, Source(m)), Target(m));
  }

  /** A byte stored by STOSB loads back by LODSB from the same slot:
    * loading from the memory STOSB left, with the pointers where they were,
    * leaves AX as it was. */
  lemma StosbThenLodsb(m: Machine)
    requires Wf(m) && Memory.Mapped(Target(m))
    ensures Stos(m, W8).outcome == Done
    ensures Lods(m.(mem := Stos(m, W8).m.mem), W8).regs == Advance(m, 1).regs
  {
    var b := Lo(m.regs[AX]);
    Memory.ByteRoundTrip(m.mem, Target(m), b, Target(m));
    HalvesCompose(m.regs[AX]);
    assert m.regs[AX := SetLo(m.regs[AX], b)] == m.regs;
  }

  /** Only MOVSW steps by two: STOSW and LODSW step by one, as do CMPS and
    * SCAS, whose comparisons change neither memory nor FLAGS. */
  lemma StepSizes(m: Machine)
    requires Wf(m) && Accessor(m.regs[FLAGS], DF) == 0
    ensures Movs(m, W16).outcome == Done ==> Movs(m, W16).m.regs[SI] == Add16(m.regs[SI], 2)
    ensures Stos(m, W16).outcome == Done ==> Stos(m, W16).m.regs[DI] == Add16(m.regs[DI], 1)
    ensures Lods(m, W16).regs[DI] == Add16(m.regs[DI], 1)
    ensures Compare(m).mem == m.mem && Compare(m).regs[FLAGS] == m.regs[FLAGS]
    ensures Compare(m).regs[DI] == Add16(m.regs[DI], 1)
  {
  }

  /** LODS reads through the destination pointer ES:DI, not DS:SI, and
    * keeps AH. */
  lemma LodsbReadsDestination(m: Machine)
    requires Wf(m) && Memory.Mapped(Target(m))
    ensures Lo(Lods(m, W8).regs[AX]) == m.mem[Target(m)]
    ensures Hi(Lods(m, W8).regs[AX]) == Hi(m.regs[AX])
  {
  }

  // ---------------------------------------------------------------------
  // The executors, performed on the core

  method ExecMovs(core: Core, w: Width) returns (out: Outcome)
    requires core.Valid()
    modifies core`reg, core.mem
    ensures Result(out, core.State()) == Movs(old(core.State()), w)
  {
    var src := Memory.AddrCalc(core.reg[DS], core.reg[SI]);
    var dst := Memory.AddrCalc(core.reg[ES], core.reg[DI]);
    var v := core.LoadAt(w, src);
    out := core.StoreAt(w, dst, v);
    if out != Done {
      return;
    }
    var d := if Accessor(core.reg[FLAGS], DF) == 0 then (if w == W8 then 1 else 2) else (if w == W8 then -1 else -2);
    core.reg := core.reg[SI := Add16(core.reg[SI], d)][DI := Add16(core.reg[DI], d)];
  }

  method ExecCompare(core: Core)
    requires core.Valid()
    modifies core`reg
    ensures core.State() == Compare(old(core.State()))
  {
    var d := if Accessor(core.reg[FLAGS], DF) == 0 then 1 else -1;
    core.reg := core.reg[SI := Add16(core.reg[SI], d)][DI := Add16(core.reg[DI], d)];
  }

  method ExecStos(core: Core, w: Width) returns (out: Outcome)
    requires core.Valid()
    modifies core`reg, core.mem
    ensures Result(out, core.State()) == Stos(old(core.State()), w)
  {
    var dst := Memory.AddrCalc(core.reg[ES], core.reg[DI]);
    out := core.StoreAt(w, dst, if w == W8 then Lo(core.reg[AX]) else core.reg[AX]);
    if out != Done {
      return;
    }
    var d := if Accessor(core.reg[FLAGS], DF) == 0 then 1 else -1;
    core.reg := core.reg[SI := Add16(core.reg[SI], d)][DI := Add16(core.reg[DI], d)];
  }

  method ExecLods(core: Core, w: Width)
    requires core.Valid()
    modifies core`reg
    ensures core.State() == Lods(old(core.State()), w)
  {
    var v := core.LoadAt(w, Memory.AddrCalc(core.reg[ES], core.reg[DI]));
    core.reg := core.reg[AX := if w == W8 then SetLo(core.reg[AX], v) else v];
    var d := if Accessor(core.reg[FLAGS], DF) == 0 then 1 else -1;
    core.reg := core.reg[SI := Add16(core.reg[SI], d)][DI := Add16(core.reg[DI], d)];
  }
}
