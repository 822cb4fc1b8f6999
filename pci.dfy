/**
  * The I/O port table (arch/8086/pci.c): 65536 records, each a 16-bit value
  * and four optional device handlers.
  *
  * Handlers are device code outside this model. A handler is represented by
  * an identity; what an input handler does to the port value arrives as a
  * parameter (`device`), and output handlers are called with data the model
  * already stored but their effects are not modelled.
  */
module Pci {
  import opened Wrappers
  import opened Registers

  const PortCount: nat := 0x10000

  datatype Port = Port(v: uint16, in8: Option<nat>, in16: Option<nat>, out8: Option<nat>, out16: Option<nat>)

  /** A record as `pci_init` clears it. */
  const Cleared: Port := Port(0, None, None, None, None)

  /** A value read from a port together with the table after the read. */
  datatype Input<T> = Input(value: T, ports: seq<Port>)

  datatype Slot = In8 | In16 | Out8 | Out16

  // ---------------------------------------------------------------------
  // Specification on a value of the table

  /** `pci_in_byte`: an in-8 handler, when registered, stores through a byte
    * pointer into the value first; the low byte of the value is returned. */
  function ByteIn(ports: seq<Port>, p: nat, device: uint8): (r: Input<uint8>)
    requires |ports| == PortCount && p < PortCount
    ensures |r.ports| == PortCount
    ensures r.value == Lo(r.ports[p].v)
    ensures ports[p].in8.None? ==> r.ports == ports
  {
    var rec := ports[p];
    var rec' := if rec.in8.Some? then rec.(v := SetLo(rec.v, device)) else rec;
    Input(Lo(rec'.v), ports[p := rec'])
  }

  /** `pci_in_word`. */
  function WordIn(ports: seq<Port>, p: nat, device: uint16): (r: Input<uint16>)
    requires |ports| == PortCount && p < PortCount
    ensures |r.ports| == PortCount
    ensures r.value == r.ports[p].v
    ensures ports[p].in16.None? ==> r.ports == ports
  {
    var rec := ports[p];
    var rec' := if rec.in16.Some? then rec.(v := device) else rec;
    Input(rec'.v, ports[p := rec'])
  }

  /** `pci_out_byte`: the byte replaces the low byte of the value. */
  function ByteOut(ports: seq<Port>, p: nat, b: uint8): (r: seq<Port>)
    requires |ports| == PortCount && p < PortCount
    ensures |r| == PortCount
  {
    ports[p := ports[p].(v := SetLo(ports[p].v, b))]
  }

  /** `pci_out_word`; `pci_setvalue_16` and the zero-extending
    * `pci_setvalue_8` store the same way. */
  function WordOut(ports: seq<Port>, p: nat, w: uint16): (r: seq<Port>)
    requires |ports| == PortCount && p < PortCount
    ensures |r| == PortCount
  {
    ports[p := ports[p].(v := w)]
  }

  /** `pci_register_out_8` and its three siblings: one handler slot of one
    * port takes the new handler. */
  function Registered(ports: seq<Port>, p: nat, slot: Slot, h: Option<nat>): (r: seq<Port>)
    requires |ports| == PortCount && p < PortCount
    ensures |r| == PortCount
  {
    var rec := ports[p];
    ports[p := match slot
               case In8 => rec.(in8 := h)
               case In16 => rec.(in16 := h)
               case Out8 => rec.(out8 := h)
               case Out16 => rec.(out16 := h)]
  }

  // ---------------------------------------------------------------------
  // Properties

  /** Every output and every registration touches only its own port. */
  lemma WritesAreLocal(ports: seq<Port>, p: nat, q: nat, b: uint8, w: uint16, slot: Slot, h: Option<nat>)
    requires |ports| == PortCount && p < PortCount && q < PortCount && q != p
    ensures ByteOut(ports, p, b)[q] == ports[q]
    ensures WordOut(ports, p, w)[q] == ports[q]
    ensures Registered(ports, p, slot, h)[q] == ports[q]
  {
  }

  /** Without an in-16 handler, the word written to a port reads back. */
  lemma WordOutThenIn(ports: seq<Port>, p: nat, w: uint16, device: uint16)
    requires |ports| == PortCount && p < PortCount && ports[p].in16.None?
    ensures WordIn(WordOut(ports, p, w), p, device).value == w
  {
  }

  /** A byte output keeps the high byte of the value; without an in-8
    * handler, the byte reads back. */
  lemma ByteOutThenIn(ports: seq<Port>, p: nat, b: uint8, device: uint8)
    requires |ports| == PortCount && p < PortCount
    ensures Hi(ByteOut(ports, p, b)[p].v) == Hi(ports[p].v)
    ensures ports[p].in8.None? ==> ByteIn(ByteOut(ports, p, b), p, device).value == b
  {
  }

  /** A registration replaces exactly the named slot and keeps the value
    * and the other three handlers. */
  lemma RegisterReplacesOneSlot(ports: seq<Port>, p: nat, slot: Slot, h: Option<nat>)
    requires |ports| == PortCount && p < PortCount
    ensures var rec := Registered(ports, p, slot, h)[p];
      && rec.v == ports[p].v
      && rec.in8 == (if slot == In8 then h else ports[p].in8)
      && rec.in16 == (if slot == In16 then h else ports[p].in16)
      && rec.out8 == (if slot == Out8 then h else ports[p].out8)
      && rec.out16 == (if slot == Out16 then h else ports[p].out16)
  {
  }

  /** Zero extension: the 8-bit set leaves the high byte clear. */
  lemma SetValue8ZeroExtends(ports: seq<Port>, p: nat, b: uint8)
    requires |ports| == PortCount && p < PortCount
    ensures Hi(WordOut(ports, p, b as uint16)[p].v) == 0
    ensures Lo(WordOut(ports, p, b as uint16)[p].v) == b
  {
  }

  // ---------------------------------------------------------------------
  // The table, updated in place

  /** `pci_init`: every port cleared. */
  method Init() returns (ports: array<Port>)
    ensures fresh(ports) && ports.Length == PortCount
    ensures forall i :: 0 <= i < PortCount ==> ports[i] == Cleared
  {
    ports := new Port[PortCount](_ => Cleared);
  }

  method InByte(ports: array<Port>, p: nat, device: uint8) returns (b: uint8)
    requires ports.Length == PortCount && p < PortCount
    modifies ports
    ensures Input(b, ports[..]) == ByteIn(old(ports[..]), p, device)
  {
    if ports[p].in8.Some? {
      ports[p] := ports[p].(v := SetLo(ports[p].v, device));
    }
    b := Lo(ports[p].v);
  }

  method InWord(ports: array<Port>, p: nat, device: uint16) returns (w: uint16)
    requires ports.Length == PortCount && p < PortCount
    modifies ports
    ensures Input(w, ports[..]) == WordIn(old(ports[..]), p, device)
  {
    if ports[p].in16.Some? {
      ports[p] := ports[p].(v := device);
    }
    w := ports[p].v;
  }

  method OutByte(ports: array<Port>, p: nat, b: uint8)
    requires ports.Length == PortCount && p < PortCount
    modifies ports
    ensures ports[..] == ByteOut(old(ports[..]), p, b)
  {
    ports[p] := ports[p].(v := SetLo(ports[p].v, b));
  }

  method OutWord(ports: array<Port>, p: nat, w: uint16)
    requires ports.Length == PortCount && p < PortCount
    modifies ports
    ensures ports[..] == WordOut(old(ports[..]), p, w)
  {
    ports[p] := ports[p].(v := w);
  }

  method Register(ports: array<Port>, p: nat, slot: Slot, h: Option<nat>)
    requires ports.Length == PortCount && p < PortCount
    modifies ports
    ensures ports[..] == Registered(old(ports[..]), p, slot, h)
  {
    var rec := ports[p];
    match slot
    case In8 => ports[p] := rec.(in8 := h);
    case In16 => ports[p] := rec.(in16 := h);
    case Out8 => ports[p] := rec.(out8 := h);
    case Out16 => ports[p] := rec.(out16 := h);
  }

  method SetValue8(ports: array<Port>, p: nat, b: uint8)
    requires ports.Length == PortCount && p < PortCount
    modifies ports
    ensures ports[..] == WordOut(old(ports[..]), p, b as uint16)
  {
    ports[p] := ports[p].(v := b as uint16);
  }

  method SetValue16(ports: array<Port>, p: nat, w: uint16)
    requires ports.Length == PortCount && p < PortCount
    modifies ports
    ensures ports[..] == WordOut(old(ports[..]), p, w)
  {
    ports[p] := ports[p].(v := w);
  }
}
