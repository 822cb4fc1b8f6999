/**
  * The software BIOS of arch/8086/bios.c: `bios_ivt_exec_8086` pushes
  * FLAGS, CS and IP, points CS:IP at the vector, runs the C handler of the
  * vector (if it has one) and pops IP, CS and FLAGS again.
  *
  * The handlers decode their request from the registers. The display, the
  * key queue and the hard disk are reached through other modules: the
  * display is a `Vgui.Screen`, the key queue a `Keyboard.KeyPoll`, and a
  * disk request is returned as a value, the disk itself being outside this
  * model. The TF and IF setters of the C code assign nothing.
  */
module Bios {
  import opened Wrappers
  import opened Registers
  import opened CpuState
  import CpuStack
  import Memory
  import Vgui
  import Keyboard

  // ---------------------------------------------------------------------
  // The handler table

  datatype Service = Video | DirectDisk | SerialPort | MiscSystem | KeyboardService | ParallelPort | Clock

  /** `bios_ivt_default[n].func`: a NULL slot is `None`. */
  function HandlerOf(n: uint8): Option<Service>
  {
    if n == 0x10 then Some(Video)
    else if n == 0x13 then Some(DirectDisk)
    else if n == 0x14 then Some(SerialPort)
    else if n == 0x15 then Some(MiscSystem)
    else if n == 0x16 then Some(KeyboardService)
    else if n == 0x17 then Some(ParallelPort)
    else if n == 0x1a then Some(Clock)
    else None
  }

  // ---------------------------------------------------------------------
  // The display as the video service sees it

  /** Cursor and colours of the display client. */
  datatype Display = Display(x: uint8, y: uint8, fg: int, bg: int)

  function DisplayOf(s: Vgui.Screen): Display
    reads s
  {
    Display(s.x, s.y, s.fgcolor, s.bgcolor)
  }

  /** The display after n characters have been written. */
  function AfterWriting(d: Display, n: nat): Display
  {
    var p := Vgui.AdvanceBy(d.x, d.y, n);
    d.(x := p.0, y := p.1)
  }

  /** The command of the j-th character written from the cursor of d. */
  function CharAt(d: Display, c: uint8, j: nat): Vgui.Command
  {
    var p := Vgui.AdvanceBy(d.x, d.y, j);
    Vgui.SetChar(p.0, p.1, d.fg, d.bg, c)
  }

  /** The commands of n successive `vgui_set_char(c)` calls: the first at
    * the cursor, each next one where the previous left the cursor. */
  function Written(d: Display, c: uint8, n: nat): (cmds: seq<Vgui.Command>)
    ensures |cmds| == n
    ensures forall j :: 0 <= j < n ==> cmds[j] == CharAt(d, c, j)
    decreases n
  {
    if n == 0 then []
    else
      var rest := Written(AfterWriting(d, 1), c, n - 1);
      forall j | 1 <= j < n
        ensures rest[j - 1] == CharAt(d, c, j)
      {
        AdvanceByFirst(d.x, d.y, j);
      }
      [CharAt(d, c, 0)] + rest
  }

  /** Advancing j times is advancing once and then j - 1 times. */
  lemma AdvanceByFirst(x: uint8, y: uint8, j: nat)
    requires j >= 1
    ensures Vgui.AdvanceBy(x, y, j) == Vgui.AdvanceBy(Vgui.AdvanceBy(x, y, 1).0, Vgui.AdvanceBy(x, y, 1).1, j - 1)
  {
  }

  /** Advancing i + 1 times is advancing i times and then once. */
  lemma {:induction false} AdvanceByLast(x: uint8, y: uint8, i: nat)
    ensures Vgui.AdvanceBy(x, y, i + 1) == Vgui.Advance(Vgui.AdvanceBy(x, y, i).0, Vgui.AdvanceBy(x, y, i).1)
    decreases i
  {
    if i > 0 {
      var p := Vgui.Advance(x, y);
      AdvanceByLast(p.0, p.1, i - 1);
    }
  }

  // ---------------------------------------------------------------------
  // INT 10h, the video service

  datatype VideoServed = VideoServed(outcome: Outcome, m: Machine, d: Display, cmds: seq<Vgui.Command>)

  /** `bios_ivt_videoservice`, on AH: 02 moves the cursor to (DL, DH), 03
    * reads it into DX, 08 reads the character under it into AX (the
    * display's answer is `reply`), 09 and 0A write AL CX times; every other
    * function does nothing. */
  function VideoCall(m: Machine, d: Display, reply: uint8): (r: VideoServed)
    ensures r.m.mem == m.mem && r.m.ports == m.ports
    ensures r.outcome == Done || r.outcome == Undefined
  {
    var ah := Hi(m.regs[AX]);
    if ah == 0x02 then
      var x, y := Lo(m.regs[DX]), Hi(m.regs[DX]);
      VideoServed(Done, m, d.(x := x, y := y), [Vgui.SetCursor(x, y)])
    else if ah == 0x03 then
      match ShiftedPair(d.x, d.y)
      case None => VideoServed(Undefined, m, d, [])
      case Some(dx) => VideoServed(Done, m.(regs := m.regs[DX := dx]), d, [])
    else if ah == 0x08 then
      VideoServed(Done, m.(regs := m.regs[AX := reply]), d, [Vgui.GetChar(d.x, d.y)])
    else if ah == 0x09 || ah == 0x0a then
      var n := m.regs[CX];
      VideoServed(Done, m, AfterWriting(d, n), Written(d, Lo(m.regs[AX]), n))
    else VideoServed(Done, m, d, [])
  }

  // ---------------------------------------------------------------------
  // INT 13h, the direct disk service

  /** What the service asks of the hard disk: `bios_harddisk_reset`,
    * `bios_harddisk_status`, or a sector transfer at a physical address. */
  datatype DiskCall =
    | NoDiskCall
    | DiskReset
    | DiskStatus
    | DiskRead(addr: nat, lba: uint32, count: uint8)
    | DiskWrite(addr: nat, lba: uint32, count: uint8)

  /** HDISK_H heads per cylinder and HDISK_S sectors per track. */
  const Heads: nat := 4
  const Sectors: nat := 64

  /** `((uint16_t)c * H + (uint16_t)h) * S + (uint16_t)s - 1`, computed in
    * `uint32_t` because H and S are. */
  function Lba(c: uint8, h: uint8, s: uint8): uint32
  {
    Wrap32((c * Heads + h) * Sectors + s - 1)
  }

  /** The AX code of functions 01 and 10. `status & 0x80` is 0 or 0x80, so
    * the comparison with 1 never holds and 0xCC is never returned. */
  function StatusCode(status: uint8): uint16
  {
    var err := Bit(status, 0);
    var dreg := Bit(status, 3) * 0x08;
    var bsy := Bit(status, 7) * 0x80;
    if err == 0 && bsy == 0 then 0
    else if dreg == 0 then 0xaa
    else if bsy == 1 then 0xcc
    else 0x01
  }

  datatype DiskServed = DiskServed(m: Machine, call: DiskCall)

  /** `bios_ivt_directdiskservice`, on AH; `status` is what
    * `bios_harddisk_status` returns. CH is the cylinder, all of CL the
    * sector and DH the head; AL counts the sectors. */
  function DiskCallOf(m: Machine, status: uint8): (r: DiskServed)
    ensures r.m.mem == m.mem && r.m.ports == m.ports
  {
    var ah := Hi(m.regs[AX]);
    var regs := m.regs;
    if ah == 0x00 then DiskServed(m.(regs := regs[AX := Lo(regs[AX])]), DiskReset)
    else if ah == 0x01 || ah == 0x10 then DiskServed(m.(regs := regs[AX := StatusCode(status)]), DiskStatus)
    else if ah == 0x02 || ah == 0x0e || ah == 0x03 || ah == 0x0f then
      var addr := Memory.AddrCalc(regs[ES], regs[BX]);
      var lba := Lba(Hi(regs[CX]), Hi(regs[DX]), Lo(regs[CX]));
      var count := Lo(regs[AX]);
      DiskServed(m, if ah == 0x02 || ah == 0x0e then DiskRead(addr, lba, count) else DiskWrite(addr, lba, count))
    else DiskServed(m, NoDiskCall)
  }

  // ---------------------------------------------------------------------
  // INT 16h, the keyboard service

  /** `bios_ivt_keyboardservice`: AH = 0 takes the next key of the queue
    * into AX (0 when the queue is empty). */
  function KeyboardCall(m: Machine, keys: seq<uint8>): (Machine, seq<uint8>)
  {
    if Hi(m.regs[AX]) == 0 then
      var (r, rest) := Keyboard.Popped(keys);
      (m.(regs := m.regs[AX := Keyboard.KeyCode(r)]), rest)
    else (m, keys)
  }

  // ---------------------------------------------------------------------
  // The interrupt

  /** Everything the BIOS reads and updates: the machine, the display and
    * the key queue. */
  datatype World = World(m: Machine, d: Display, keys: seq<uint8>)

  datatype Served = Served(outcome: Outcome, w: World, cmds: seq<Vgui.Command>, call: DiskCall)

  /** The handler of a vector run on the world; the serial, miscellaneous,
    * parallel and clock services return at once. */
  function Serve(svc: Option<Service>, w: World, reply: uint8, status: uint8): (r: Served)
    ensures r.w.m.mem == w.m.mem && r.w.m.ports == w.m.ports
  {
    if svc == Some(Video) then
      var v := VideoCall(w.m, w.d, reply);
      Served(v.outcome, w.(m := v.m, d := v.d), v.cmds, NoDiskCall)
    else if svc == Some(DirectDisk) then
      var s := DiskCallOf(w.m, status);
      Served(Done, w.(m := s.m), [], s.call)
    else if svc == Some(KeyboardService) then
      var (m', keys') := KeyboardCall(w.m, w.keys);
      Served(Done, w.(m := m', keys := keys'), [], NoDiskCall)
    else Served(Done, w, [], NoDiskCall)
  }

  /** `pop_stack_reg` into IP, CS and FLAGS, in that order. */
  function Leave(m: Machine): (m': Machine)
    requires Wf(m)
    ensures Wf(m') && m'.mem == m.mem && m'.ports == m.ports
  {
    PopInto(PopInto(PopInto(m, IP), CS), FLAGS)
  }

  /** `bios_ivt_exec_8086(n)`. The three pushes are those of an INT n
    * (`push_stack_reg` asserts a non-zero value and writes before it
    * lowers SP); a handler that ends in undefined behaviour stops the
    * step there. */
  function Ivt(w: World, n: uint8, reply: uint8, status: uint8): (r: Served)
    requires Wf(w.m)
    ensures Wf(r.w.m)
  {
    var e := CpuStack.Interrupt(w.m, n);
    if e.outcome != Done then Served(e.outcome, w.(m := e.m), [], NoDiskCall)
    else
      var s := Serve(HandlerOf(n), w.(m := e.m), reply, status);
      if s.outcome != Done then s
      else s.(w := s.w.(m := Leave(s.w.m)))
  }

  // ---------------------------------------------------------------------
  // Properties of the frame

  /** Only vectors 10, 13-17 and 1A have a handler. */
  lemma HandlerSlots(n: uint8)
    ensures HandlerOf(n).Some? <==> n in {0x10, 0x13, 0x14, 0x15, 0x16, 0x17, 0x1a}
  {
  }

  /** No service moves SS or SP. */
  lemma ServeKeepsStack(svc: Option<Service>, w: World, reply: uint8, status: uint8)
    ensures Serve(svc, w, reply, status).w.m.regs[SS] == w.m.regs[SS]
    ensures Serve(svc, w, reply, status).w.m.regs[SP] == w.m.regs[SP]
  {
  }

  /** With SS = 0 and no wrap-around, the three pops take IP, CS and FLAGS
    * from the words at SP, SP + 2 and SP + 4 and raise SP by six. */
  lemma {:induction false} LeaveSlots(m: Machine)
    requires Wf(m) && m.regs[SS] == 0 && m.regs[SP] as int + 6 <= 0xFFFF
    ensures var sp: nat := m.regs[SP];
      Leave(m).regs == m.regs[IP := Memory.WordRead(m.mem, sp)][CS := Memory.WordRead(m.mem, sp + 2)]
        [FLAGS := Memory.WordRead(m.mem, sp + 4)][SP := sp + 6]
  {
    var sp: nat := m.regs[SP];
    var m1 := PopInto(m, IP);
    assert m1.regs == m.regs[IP := Memory.WordRead(m.mem, sp)][SP := sp + 2];
    var m2 := PopInto(m1, CS);
    assert Memory.AddrCalc(0, sp + 2) == sp + 2;
    assert m2.regs == m1.regs[CS := Memory.WordRead(m.mem, sp + 2)][SP := sp + 4];
    assert Memory.AddrCalc(0, sp + 4) == sp + 4;
  }

  /** The three pops raise SP by six (modulo 2^16) and keep SS. */
  lemma {:induction false} LeaveRaisesStack(m: Machine)
    requires Wf(m)
    ensures Leave(m).regs[SP] == Add16(m.regs[SP], 6) && Leave(m).regs[SS] == m.regs[SS]
  {
    var sp := m.regs[SP];
    var m1 := PopInto(m, IP);
    PoppedRegs(m.regs, IP, StackTop(m));
    var m2 := PopInto(m1, CS);
    PoppedRegs(m1.regs, CS, StackTop(m1));
    Add16Twice(sp, 2, 2);
    PoppedRegs(m2.regs, FLAGS, StackTop(m2));
    Add16Twice(sp, 4, 2);
  }

  /** A completed interrupt is the frame, a completed service and the three
    * pops, in that order. */
  lemma IvtDone(w: World, n: uint8, reply: uint8, status: uint8)
    requires Wf(w.m)
    ensures var r := Ivt(w, n, reply, status);
      var e := CpuStack.Interrupt(w.m, n);
      var s := Serve(HandlerOf(n), w.(m := e.m), reply, status);
      r.outcome == Done ==> e.outcome == Done && s.outcome == Done && Wf(s.w.m) && r.w.m.regs == Leave(s.w.m).regs
  {
  }

  /** Wherever the stack lies, the handler of vector n runs with CS = 4n + 2,
    * IP = 4n, SP six lower (modulo 2^16) and SS kept, once the frame is
    * built. */
  lemma IvtEntry(w: World, n: uint8)
    requires Wf(w.m)
    ensures var e := CpuStack.Interrupt(w.m, n);
      e.outcome == Done ==>
        && e.m.regs[CS] == 4 * n + 2 && e.m.regs[IP] == 4 * n
        && e.m.regs[SP] == Add16(w.m.regs[SP], -6) && e.m.regs[SS] == w.m.regs[SS]
  {
    CpuStack.InterruptFrame(w.m, n);
  }

  /** Wherever the stack lies, a completed interrupt leaves SS and SP where
    * they were: the service keeps them and the pops undo the pushes. */
  lemma {:induction false} IvtFrame(w: World, n: uint8, reply: uint8, status: uint8)
    requires Wf(w.m)
    ensures var r := Ivt(w, n, reply, status);
      r.outcome == Done ==> r.w.m.regs[SP] == w.m.regs[SP] && r.w.m.regs[SS] == w.m.regs[SS]
  {
    IvtDone(w, n, reply, status);
    var e := CpuStack.Interrupt(w.m, n);
    IvtEntry(w, n);
    var s := Serve(HandlerOf(n), w.(m := e.m), reply, status);
    ServeKeepsStack(HandlerOf(n), w.(m := e.m), reply, status);
    if e.outcome == Done && s.outcome == Done && Wf(s.w.m) {
      LeaveRaisesStack(s.w.m);
      Add16Undo(w.m.regs[SP], 6);
    }
  }

  /** The pops after a frame built at SS = 0 below sp take IP, CS and FLAGS
    * from the three words the frame occupies. */
  lemma PopsFromFrame(m: Machine, mem: seq<uint8>, sp: nat)
    requires Wf(m) && m.mem == mem && m.regs[SS] == 0 && 6 <= sp <= 0x1FE && m.regs[SP] == sp - 6
    ensures Leave(m).regs[IP] == Memory.WordRead(mem, sp - 6)
    ensures Leave(m).regs[CS] == Memory.WordRead(mem, sp - 4)
    ensures Leave(m).regs[FLAGS] == Memory.WordRead(mem, sp - 2)
  {
    LeaveSlots(m);
  }

  /** At a low stack with non-zero FLAGS, CS and IP, when the interrupt
    * completes, IP, CS and FLAGS come from the words at SP - 6, SP - 4 and
    * SP - 2 of the memory the pushes left, not from the words just
    * pushed. */
  lemma {:induction false} IvtReturnSlots(w: World, n: uint8, reply: uint8, status: uint8)
    requires Wf(w.m) && w.m.regs[FLAGS] != 0 && w.m.regs[CS] != 0 && w.m.regs[IP] != 0
    requires w.m.regs[SS] == 0 && 6 <= w.m.regs[SP] <= 0x1FE
    ensures CpuStack.Interrupt(w.m, n).outcome == Done
    ensures var e := CpuStack.Interrupt(w.m, n);
      var r := Ivt(w, n, reply, status);
      var sp: nat := w.m.regs[SP];
      r.outcome == Done ==>
        && r.w.m.regs[IP] == Memory.WordRead(e.m.mem, sp - 6)
        && r.w.m.regs[CS] == Memory.WordRead(e.m.mem, sp - 4)
        && r.w.m.regs[FLAGS] == Memory.WordRead(e.m.mem, sp - 2)
  {
    var sp: nat := w.m.regs[SP];
    CpuStack.LowStackFits(w.m.regs[SP]);
    CpuStack.InterruptFrame(w.m, n);
    IvtEntry(w, n);
    IvtDone(w, n, reply, status);
    var e := CpuStack.Interrupt(w.m, n);
    var s := Serve(HandlerOf(n), w.(m := e.m), reply, status);
    ServeKeepsStack(HandlerOf(n), w.(m := e.m), reply, status);
    if s.outcome == Done && Wf(s.w.m) {
      Add16Below(w.m.regs[SP], 6);
      PopsFromFrame(s.w.m, e.m.mem, sp);
    }
  }

  /** A vector without a handler changes only what the frame changes and
    * asks nothing of the display or the disk. */
  lemma UnservedVector(w: World, n: uint8, reply: uint8, status: uint8)
    requires Wf(w.m) && HandlerOf(n).None?
    requires CpuStack.Interrupt(w.m, n).outcome == Done
    ensures Ivt(w, n, reply, status) == Served(Done, w.(m := Leave(CpuStack.Interrupt(w.m, n).m)), [], NoDiskCall)
  {
  }

  // ---------------------------------------------------------------------
  // Properties of the video service

  /** Setting the cursor from DX and reading it back restores DX exactly
    * when DX is 0: the round trip the two functions are meant to form
    * holds for no other cursor. */
  lemma {:induction false} CursorRoundTrip(m: Machine, d: Display)
    requires Hi(m.regs[AX]) == 0x02
    ensures var put := VideoCall(m, d, 0);
      var get := VideoCall(m.(regs := m.regs[AX := 0x0300]), put.d, 0);
      get.outcome == Done && get.m.regs[DX] == m.regs[DX] <==> m.regs[DX] == 0
  {
    var dx := m.regs[DX];
    CursorSetCall(m, d);
    var m3 := m.(regs := m.regs[AX := 0x0300]);
    assert m3.regs[DX] == dx;
    CursorGetCall(m3, d.(x := Lo(dx), y := Hi(dx)));
    ShiftedPairFixedPoint(dx);
  }

  /** Function 02 moves the cursor to (DL, DH). */
  lemma CursorSetCall(m: Machine, d: Display)
    requires Hi(m.regs[AX]) == 0x02
    ensures VideoCall(m, d, 0).d == d.(x := Lo(m.regs[DX]), y := Hi(m.regs[DX]))
  {
  }

  /** Function 03 in terms of `ShiftedPair`: DX = x << 8 + y. */
  lemma CursorGetCall(m: Machine, d: Display)
    requires Hi(m.regs[AX]) == 0x03
    ensures VideoCall(m, d, 0).outcome == Done <==> ShiftedPair(d.x, d.y).Some?
    ensures VideoCall(m, d, 0).outcome == Done ==> VideoCall(m, d, 0).m.regs[DX] == ShiftedPair(d.x, d.y).value
  {
  }

  /** Functions 09 and 0A write AL CX times with the display's colours and
    * leave the cursor CX positions further; they change no register. */
  lemma WriteCharacters(m: Machine, d: Display)
    requires Hi(m.regs[AX]) == 0x09 || Hi(m.regs[AX]) == 0x0a
    ensures var r := VideoCall(m, d, 0);
      && r.m == m
      && |r.cmds| == m.regs[CX]
      && (forall j :: 0 <= j < m.regs[CX] ==> r.cmds[j] == CharAt(d, Lo(m.regs[AX]), j))
      && (r.d.x, r.d.y) == Vgui.AdvanceBy(d.x, d.y, m.regs[CX])
  {
  }

  // ---------------------------------------------------------------------
  // Properties of the disk service

  /** For sectors counted from 1, the LBA is the conventional CHS
    * conversion with four heads and 64 sectors; sector 0 of cylinder 0,
    * head 0 wraps to the last 32-bit block. */
  lemma LbaConversion(c: uint8, h: uint8, s: uint8)
    ensures s >= 1 ==> Lba(c, h, s) == (c * 4 + h) * 64 + s - 1
    ensures c == 0 && h == 0 && s == 0 ==> Lba(c, h, s) == 0xFFFF_FFFF
  {
  }

  /** Within the geometry (head below 4, sector 1 to 64) the LBA determines
    * cylinder, head and sector. */
  lemma {:induction false} LbaRoundTrip(c: uint8, h: uint8, s: uint8)
    requires h < 4 && 1 <= s <= 64
    ensures Lba(c, h, s) / 256 == c
    ensures (Lba(c, h, s) / 64) % 4 == h
    ensures Lba(c, h, s) % 64 + 1 == s
  {
    var l := (c * 4 + h) * 64 + s - 1;
    assert l == c * 256 + h * 64 + (s - 1);
    assert l < 0x1_0000_0000;
    assert l / 64 == c * 4 + h;
    assert l % 64 == s - 1;
  }

  /** Status codes: 0 when neither the error nor the busy bit is set, 0xAA
    * when one is and the DRQ bit is clear, 1 otherwise; never 0xCC. */
  lemma StatusCodes(status: uint8)
    ensures StatusCode(status) == 0 <==> Bit(status, 0) == 0 && Bit(status, 7) == 0
    ensures StatusCode(status) == 0xaa <==> (Bit(status, 0) == 1 || Bit(status, 7) == 1) && Bit(status, 3) == 0
    ensures StatusCode(status) == 1 <==> (Bit(status, 0) == 1 || Bit(status, 7) == 1) && Bit(status, 3) == 1
    ensures StatusCode(status) != 0xcc
  {
  }

  /** Reset clears AH and keeps AL; a read or write keeps every register and
    * asks for AL sectors at ES*16 + BX. */
  lemma DiskRegisters(m: Machine, status: uint8)
    ensures Hi(m.regs[AX]) == 0x00 ==> var r := DiskCallOf(m, status);
      Hi(r.m.regs[AX]) == 0 && Lo(r.m.regs[AX]) == Lo(m.regs[AX]) && r.call == DiskReset
    ensures Hi(m.regs[AX]) in {0x02, 0x0e} ==> var r := DiskCallOf(m, status);
      r.m == m && r.call.DiskRead? && r.call.addr == m.regs[ES] as int * 16 + m.regs[BX] as int && r.call.count == Lo(m.regs[AX])
    ensures Hi(m.regs[AX]) in {0x03, 0x0f} ==> var r := DiskCallOf(m, status);
      r.m == m && r.call.DiskWrite? && r.call.addr == m.regs[ES] as int * 16 + m.regs[BX] as int && r.call.count == Lo(m.regs[AX])
  {
  }

  // ---------------------------------------------------------------------
  // Properties of the keyboard service

  /** AH = 0 takes the oldest queued key (0 from an empty queue); any other
    * AH changes nothing. */
  lemma KeyboardReadsOldest(m: Machine, keys: seq<uint8>)
    ensures Hi(m.regs[AX]) == 0 && keys != [] ==>
      KeyboardCall(m, keys) == (m.(regs := m.regs[AX := Keyboard.KeyCode(keys[0])]), keys[1..])
    ensures Hi(m.regs[AX]) == 0 && keys == [] ==> KeyboardCall(m, keys) == (m.(regs := m.regs[AX := 0]), [])
    ensures Hi(m.regs[AX]) != 0 ==> KeyboardCall(m, keys) == (m, keys)
  {
  }

  // ---------------------------------------------------------------------
  // The services and the interrupt, performed on the core

  /** The loop of functions 09 and 0A: `vgui_set_char(al)` CX times. */
  method WriteChars(screen: Vgui.Screen, c: uint8, n: uint16) returns (cmds: seq<Vgui.Command>)
    modifies screen
    ensures DisplayOf(screen) == AfterWriting(old(DisplayOf(screen)), n)
    ensures cmds == Written(old(DisplayOf(screen)), c, n)
  {
    ghost var d0 := DisplayOf(screen);
    cmds := [];
    var i: uint16 := 0;
    while i < n
      invariant 0 <= i <= n
      invariant DisplayOf(screen) == AfterWriting(d0, i)
      invariant |cmds| == i && forall j :: 0 <= j < i ==> cmds[j] == CharAt(d0, c, j)
    {
      var cmd := screen.PutChar(c);
      AdvanceByLast(d0.x, d0.y, i);
      cmds := cmds + [cmd];
      i := i + 1;
    }
  }

  method ExecVideo(core: Core, screen: Vgui.Screen, reply: uint8) returns (out: Outcome, cmds: seq<Vgui.Command>)
    requires core.Valid()
    modifies core`reg, screen
    ensures VideoServed(out, core.State(), DisplayOf(screen), cmds) == VideoCall(old(core.State()), old(DisplayOf(screen)), reply)
  {
    var ah := Hi(core.reg[AX]);
    out, cmds := Done, [];
    if ah == 0x02 {
      var cmd := screen.CursorSet(Lo(core.reg[DX]), Hi(core.reg[DX]));
      cmds := [cmd];
    } else if ah == 0x03 {
      var x, y := screen.CursorGet();
      var dx := ShiftedPair(x, y);
      if dx.None? {
        out := Undefined;
        return;
      }
      core.reg := core.reg[DX := dx.value];
    } else if ah == 0x08 {
      var cmd, al := screen.Char(reply);
      core.reg := core.reg[AX := al];
      cmds := [cmd];
    } else if ah == 0x09 || ah == 0x0a {
      cmds := WriteChars(screen, Lo(core.reg[AX]), core.reg[CX]);
    }
  }

  method ExecDisk(core: Core, status: uint8) returns (call: DiskCall)
    requires core.Valid()
    modifies core`reg
    ensures DiskServed(core.State(), call) == DiskCallOf(old(core.State()), status)
  {
    var ah := Hi(core.reg[AX]);
    call := NoDiskCall;
    if ah == 0x00 {
      call := DiskReset;
      core.reg := core.reg[AX := Lo(core.reg[AX])];
    } else if ah == 0x01 || ah == 0x10 {
      call := DiskStatus;
      core.reg := core.reg[AX := StatusCode(status)];
    } else if ah == 0x02 || ah == 0x0e || ah == 0x03 || ah == 0x0f {
      var count := Lo(core.reg[AX]);
      var c, s := Hi(core.reg[CX]), Lo(core.reg[CX]);
      var h := Hi(core.reg[DX]);
      var lba := Lba(c, h, s);
      var addr := Memory.AddrCalc(core.reg[ES], core.reg[BX]);
      call := if ah == 0x02 || ah == 0x0e then DiskRead(addr, lba, count) else DiskWrite(addr, lba, count);
    }
  }

  method ExecKeyboard(core: Core, kbd: Keyboard.KeyPoll)
    requires core.Valid() && kbd.Valid()
    modifies core`reg, kbd
    ensures kbd.Valid() && kbd.ascii[..] == old(kbd.ascii[..])
    ensures (core.State(), kbd.Contents()) == KeyboardCall(old(core.State()), old(kbd.Contents()))
  {
    if Hi(core.reg[AX]) == 0 {
      var c := kbd.Read();
      core.reg := core.reg[AX := c];
    }
  }

  /** The handler of a vector run on the core, the display and the key
    * queue. */
  method ExecServe(core: Core, svc: Option<Service>, screen: Vgui.Screen, kbd: Keyboard.KeyPoll, reply: uint8, status: uint8)
    returns (out: Outcome, cmds: seq<Vgui.Command>, call: DiskCall)
    requires core.Valid() && kbd.Valid() && core.mem != kbd.ascii
    modifies core`reg, screen, kbd
    ensures kbd.Valid()
    ensures Served(out, World(core.State(), DisplayOf(screen), kbd.Contents()), cmds, call)
      == Serve(svc, World(old(core.State()), old(DisplayOf(screen)), old(kbd.Contents())), reply, status)
  {
    out, cmds, call := Done, [], NoDiskCall;
    if svc == Some(Video) {
      out, cmds := ExecVideo(core, screen, reply);
    } else if svc == Some(DirectDisk) {
      call := ExecDisk(core, status);
    } else if svc == Some(KeyboardService) {
      ExecKeyboard(core, kbd);
    }
  }

  /** The three pops that end `bios_ivt_exec_8086`. */
  method ExecLeave(core: Core)
    requires core.Valid()
    modifies core`reg
    ensures core.State() == Leave(old(core.State()))
  {
    core.PopWord(IP);
    core.PopWord(CS);
    core.PopWord(FLAGS);
  }

  /** `bios_ivt_exec_8086(n)` on the core, the display and the key queue;
    * `reply` is the display's answer to a character query and `status`
    * the disk status byte. */
  method ExecIvt(core: Core, n: uint8, screen: Vgui.Screen, kbd: Keyboard.KeyPoll, reply: uint8, status: uint8)
    returns (out: Outcome, cmds: seq<Vgui.Command>, call: DiskCall)
    requires core.Valid() && kbd.Valid() && core.mem != kbd.ascii
    modifies core`reg, core.mem, screen, kbd
    ensures kbd.Valid()
    ensures Served(out, World(core.State(), DisplayOf(screen), kbd.Contents()), cmds, call)
      == Ivt(World(old(core.State()), old(DisplayOf(screen)), old(kbd.Contents())), n, reply, status)
  {
    cmds, call := [], NoDiskCall;
    out := CpuStack.ExecInterrupt(core, n);
    if out != Done {
      return;
    }
    out, cmds, call := ExecServe(core, HandlerOf(n), screen, kbd, reply, status);
    if out != Done {
      return;
    }
    ExecLeave(core);
  }
}
