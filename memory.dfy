/**
  * The physical memory bus of the virtual machine (arch/8086/mem.c).
  *
  * Memory is one packed struct of twelve byte arrays whose offsets inside the
  * struct equal the physical addresses they cover, 0x100000 bytes in all.
  * The model keeps it as one flat byte array `mem` of that length; a spec
  * function over `mem[..]` gives the meaning of each access, and the methods
  * perform it in place.
  */
module Memory {
  import opened Wrappers
  import opened Registers

  /** Size of the packed memory struct, in bytes. */
  const Size: nat := 0x100000

  // ---------------------------------------------------------------------
  // Address decoding

  /** `vm_addr_calc`: segment times 16 plus offset, in 32-bit arithmetic. */
  function AddrCalc(base: uint16, offset: uint16): (a: nat)
    ensures a <= 0x10FFEF
  {
    base * 16 + offset
  }

  /** The member array a byte access picks, as the if/else chain of
    * `vm_read_byte` and `vm_write_byte` tests it (inclusive bounds), given by
    * the array's offset in the struct; None is the "overlap" branch. */
  function ByteArray(a: nat): (r: Option<nat>)
    ensures r.Some? ==> r.value <= a < Size
  {
    if a <= 0x3ff then Some(0)
    else if 0x400 <= a <= 0xfff then Some(0x400)
    else if 0x500 <= a <= 0x7bff then Some(0x500)
    else if 0x7c00 <= a <= 0x7dff then Some(0x7c00)
    else if 0x7e00 <= a <= 0x9fbff then Some(0x7e00)
    else if 0x9fc00 <= a <= 0x9ffff then Some(0x9fc00)
    else if 0xa0000 <= a <= 0xaffff then Some(0xa0000)
    else if 0xb0000 <= a <= 0xb7fff then Some(0xb0000)
    else if 0xb8000 <= a <= 0xbffff then Some(0xb8000)
    else if 0xc0000 <= a <= 0xc7fff then Some(0xc0000)
    else if 0xc8000 <= a <= 0xe7fff then Some(0xc8000)
    else if 0xf0000 <= a <= 0xfffff then Some(0xf0000)
    else None
  }

  /** Addresses a byte access reaches. */
  predicate Mapped(a: nat)
  {
    ByteArray(a).Some?
  }

  /** The mapped addresses are exactly 0..0xE7FFF and 0xF0000..0xFFFFF: the
    * window 0xE8000..0xEFFFF of the `rom` array and everything from 1 MiB
    * up are not reachable by a byte access. */
  lemma MappedRanges(a: nat)
    ensures Mapped(a) <==> a < 0xE8000 || 0xF0000 <= a < Size
  {
  }

  /** The member array a word or dword access picks: the same chain with
    * exclusive upper bounds, so the last byte of each range is left out. */
  function WordArray(a: nat): (r: Option<nat>)
    ensures r.Some? ==> r.value <= a && a + 1 < Size
  {
    if a < 0x3ff then Some(0)
    else if 0x400 <= a < 0xfff then Some(0x400)
    else if 0x500 <= a < 0x7bff then Some(0x500)
    else if 0x7c00 <= a < 0x7dff then Some(0x7c00)
    else if 0x7e00 <= a < 0x9fbff then Some(0x7e00)
    else if 0x9fc00 <= a < 0x9ffff then Some(0x9fc00)
    else if 0xa0000 <= a < 0xaffff then Some(0xa0000)
    else if 0xb0000 <= a < 0xb7fff then Some(0xb0000)
    else if 0xb8000 <= a < 0xbffff then Some(0xb8000)
    else if 0xc0000 <= a < 0xc7fff then Some(0xc0000)
    else if 0xc8000 <= a < 0xe7fff then Some(0xc8000)
    else if 0xf0000 <= a < 0xfffff then Some(0xf0000)
    else None
  }

  // ---------------------------------------------------------------------
  // Specification of each access on a value of memory

  /** What a store did: it happened, the address was refused (return code -1),
    * or the computed target lies past the end of the 1 MiB block, which the
    * C code does not guard (undefined behaviour). */
  datatype Status = Written | Rejected | Overrun

  datatype Store = Store(status: Status, mem: seq<uint8>)

  /** Little-endian composition of two bytes, as a `uint16_t` load on the
    * (little-endian) host does it. */
  function Le16(lo: uint8, hi: uint8): (w: uint16)
    ensures Lo(w) == lo && Hi(w) == hi
  {
    lo + 0x100 * hi
  }

  function Le32(b0: uint8, b1: uint8, b2: uint8, b3: uint8): uint32
  {
    var hi := Le16(b2, b3);
    assert 0x1_0000 * hi <= 0x1_0000 * 0xFFFF;
    Le16(b0, b1) + 0x1_0000 * hi
  }

  /** `vm_read_byte`. Array offset plus index within the array is the
    * physical address itself, so a mapped read returns `m[a]`. */
  function ByteRead(m: seq<uint8>, a: nat): (b: uint8)
    requires |m| == Size
    ensures !Mapped(a) ==> b == 0
    ensures Mapped(a) ==> b == m[a]
  {
    match ByteArray(a)
    case Some(base) => m[base + (a - base)]
    case None => 0
  }

  /** `vm_write_byte`. The call into the text display made for the text
    * adapter range is not part of this model. */
  function ByteWrite(m: seq<uint8>, a: nat, b: uint8): (s: Store)
    requires |m| == Size
    ensures |s.mem| == Size
    ensures s.status != Overrun
  {
    match ByteArray(a)
    case Some(base) => Store(Written, m[base + (a - base) := b])
    case None => Store(Rejected, m)
  }

  /** `vm_read_word`: the pair at a and a + 1, or 0 outside the exclusive
    * ranges. */
  function WordRead(m: seq<uint8>, a: nat): (w: uint16)
    requires |m| == Size
  {
    match WordArray(a)
    case Some(base) => Le16(m[base + (a - base)], m[base + (a - base) + 1])
    case None => 0
  }

  /** Where `vm_write_word` puts the word: the member array is indexed as an
    * array of `uint16_t`, so element a - base lies at byte offset
    * base + 2 * (a - base). */
  function WordTarget(a: nat): (t: Option<nat>)
  {
    match WordArray(a)
    case Some(base) => Some(base + 2 * (a - base))
    case None => None
  }

  /** A word store at a has room for its second byte: `vm_write_word`
    * only runs past the block when the scaled target is its last byte. */
  predicate WordFits(a: nat)
  {
    WordTarget(a).None? || WordTarget(a).value + 1 < Size
  }

  /** `vm_write_word`. In the text adapter range B8000..BFFFE the source
    * also moves the display's cursor and draws the low byte there; those
    * display calls are not part of this model, only the store is. */
  function WordWrite(m: seq<uint8>, a: nat, w: uint16): (s: Store)
    requires |m| == Size
    ensures |s.mem| == Size
  {
    match WordTarget(a)
    case None => Store(Rejected, m)
    case Some(t) =>
      if t + 1 < Size then Store(Written, m[t := Lo(w)][t + 1 := Hi(w)])
      else Store(Overrun, m)
  }

  /** A word store overruns exactly where the word does not fit, whatever
    * the memory and the word. */
  lemma WordWriteFits(m: seq<uint8>, a: nat, w: uint16)
    requires |m| == Size
    ensures WordWrite(m, a, w).status == Overrun <==> !WordFits(a)
  {
  }

  /** `vm_read_dword`: the member array is indexed as an array of
    * `uint32_t`; None when the element lies past the end of the block. */
  function DwordRead(m: seq<uint8>, a: nat): (d: Option<uint32>)
    requires |m| == Size
  {
    match WordArray(a)
    case None => Some(0)
    case Some(base) =>
      var t := base + 4 * (a - base);
      if t + 3 < Size then Some(Le32(m[t], m[t + 1], m[t + 2], m[t + 3])) else None
  }

  // ---------------------------------------------------------------------
  // Properties of the accesses

  /** A byte written at a mapped address reads back, and every other
    * address keeps its byte; at an unmapped address nothing changes. */
  lemma ByteRoundTrip(m: seq<uint8>, a: nat, b: uint8, q: nat)
    requires |m| == Size
    ensures var s := ByteWrite(m, a, b);
      && (s.status == Written <==> Mapped(a))
      && (Mapped(a) ==> ByteRead(s.mem, a) == b)
      && (q != a ==> ByteRead(s.mem, q) == ByteRead(m, q))
      && (!Mapped(a) ==> s.mem == m)
  {
  }

  /** Both bytes of a word access lie in mapped memory. */
  lemma WordArrayMapped(a: nat)
    ensures WordArray(a).Some? ==> Mapped(a) && Mapped(a + 1)
  {
  }

  /** A word read is the two byte reads at a and a + 1, except at the last
    * byte of each range, which reads 0 although both bytes are mapped. */
  lemma WordReadIsBytePair(m: seq<uint8>, a: nat)
    requires |m| == Size
    ensures WordArray(a).Some? ==> WordRead(m, a) == Le16(ByteRead(m, a), ByteRead(m, a + 1))
    ensures WordArray(a).None? ==> WordRead(m, a) == 0
  {
    WordArrayMapped(a);
  }

  /** The exclusive bounds leave holes: 0x3FF is mapped for bytes but a word
    * read there yields 0 whatever memory holds. */
  lemma WordReadHole(m: seq<uint8>)
    requires |m| == Size
    ensures Mapped(0x3FF) && Mapped(0x400)
    ensures WordRead(m, 0x3FF) == 0
  {
  }

  /** A word written at a (after the first byte of its array) lands at
    * 2a - base, so reading the word back at a does not, in general, give the
    * word written: a word written at 0x10 leaves the word at 0x10 as it was
    * and appears at 0x20 instead. */
  lemma WordWriteDoesNotRoundTrip(m: seq<uint8>, w: uint16)
    requires |m| == Size
    ensures var s := WordWrite(m, 0x10, w);
      s.status == Written && WordRead(s.mem, 0x10) == WordRead(m, 0x10) && WordRead(s.mem, 0x20) == w
  {
    assert WordTarget(0x10) == Some(0x20);
    var s := WordWrite(m, 0x10, w);
    assert s.mem == m[0x20 := Lo(w)][0x21 := Hi(w)];
    assert s.mem[0x10] == m[0x10] && s.mem[0x11] == m[0x11];
    HalvesCompose(w);
  }

  /** At the first byte of an array (and only there in general) the scaled
    * store coincides with the physical address, so there the word does
    * round-trip. */
  lemma WordWriteAtArrayStart(m: seq<uint8>, a: nat, w: uint16)
    requires |m| == Size
    requires WordArray(a) == Some(a)
    ensures WordWrite(m, a, w).status == Written
    ensures WordRead(WordWrite(m, a, w).mem, a) == w
  {
    var s := WordWrite(m, a, w);
    assert s.mem[a] == Lo(w) && s.mem[a + 1] == Hi(w);
  }

  /** Low in the interrupt-vector array a word stored at a lands at 2a. */
  lemma WordWriteLow(m: seq<uint8>, a: nat, w: uint16)
    requires |m| == Size && a <= 0x1FE
    ensures WordWrite(m, a, w) == Store(Written, m[2 * a := Lo(w)][2 * a + 1 := Hi(w)])
  {
    assert WordTarget(a) == Some(2 * a);
  }

  /** ... and leaves the word at a - 2 as it was. */
  lemma WordWriteKeepsSlotBelow(m: seq<uint8>, a: nat, w: uint16)
    requires |m| == Size && 2 <= a <= 0x1FE
    ensures WordRead(WordWrite(m, a, w).mem, a - 2) == WordRead(m, a - 2)
  {
    WordWriteLow(m, a, w);
    var m' := m[2 * a := Lo(w)][2 * a + 1 := Hi(w)];
    assert m'[a - 2] == m[a - 2] && m'[a - 1] == m[a - 1];
  }

  // ---------------------------------------------------------------------
  // `vm_write`: a byte loop that stops at the first refused byte

  /** Index of the first refused byte of a run of n bytes from a, or n when
    * every byte is mapped. */
  function FirstUnmapped(a: nat, n: nat): (k: nat)
    ensures k <= n
    ensures forall q :: a <= q < a + k ==> Mapped(q)
    ensures k < n ==> !Mapped(a + k)
    decreases n
  {
    if n == 0 then 0
    else if !Mapped(a) then 0
    else 1 + FirstUnmapped(a + 1, n - 1)
  }

  /** `vm_write` as a recursion over the content: write the first byte, stop
    * with its code if refused, carry on otherwise. */
  function WriteRun(m: seq<uint8>, a: nat, content: seq<uint8>): (s: Store)
    requires |m| == Size
    ensures |s.mem| == Size
    ensures s.status != Overrun
    decreases |content|
  {
    if content == [] then Store(Written, m)
    else
      var first := ByteWrite(m, a, content[0]);
      if first.status == Rejected then first
      else WriteRun(first.mem, a + 1, content[1..])
  }

  /** The run writes the bytes before the first refused address, each at its
    * own address, leaves everything else alone, and reports -1 exactly when
    * some byte of the run was refused. */
  lemma {:induction false} WriteRunStopsAtFirstRefusal(m: seq<uint8>, a: nat, content: seq<uint8>)
    requires |m| == Size
    ensures var k := FirstUnmapped(a, |content|);
      var s := WriteRun(m, a, content);
      && (s.status == Rejected <==> k < |content|)
      && (forall q :: 0 <= q < Size ==>
            s.mem[q] == if a <= q < a + k then content[q - a] else m[q])
    decreases |content|
  {
    if content != [] && Mapped(a) {
      var first := ByteWrite(m, a, content[0]);
      WriteRunStopsAtFirstRefusal(first.mem, a + 1, content[1..]);
    }
  }

  // ---------------------------------------------------------------------
  // The accesses, performed in place

  method ReadByte(mem: array<uint8>, a: nat) returns (b: uint8)
    requires mem.Length == Size
    ensures b == ByteRead(mem[..], a)
  {
    if Mapped(a) { b := mem[a]; } else { b := 0; }
  }

  method WriteByte(mem: array<uint8>, a: nat, b: uint8) returns (status: Status)
    requires mem.Length == Size
    modifies mem
    ensures Store(status, mem[..]) == ByteWrite(old(mem[..]), a, b)
  {
    if Mapped(a) {
      mem[a] := b;
      status := Written;
    } else {
      status := Rejected;
    }
  }

  method ReadWord(mem: array<uint8>, a: nat) returns (w: uint16)
    requires mem.Length == Size
    ensures w == WordRead(mem[..], a)
  {
    if WordArray(a).Some? { w := Le16(mem[a], mem[a + 1]); } else { w := 0; }
  }

  method WriteWord(mem: array<uint8>, a: nat, w: uint16) returns (status: Status)
    requires mem.Length == Size
    modifies mem
    ensures Store(status, mem[..]) == WordWrite(old(mem[..]), a, w)
  {
    var target := WordTarget(a);
    if target.None? {
      status := Rejected;
    } else if target.value + 1 < Size {
      mem[target.value] := Lo(w);
      mem[target.value + 1] := Hi(w);
      status := Written;
    } else {
      status := Overrun;
    }
  }

  method ReadDword(mem: array<uint8>, a: nat) returns (d: Option<uint32>)
    requires mem.Length == Size
    ensures d == DwordRead(mem[..], a)
  {
    var arr := WordArray(a);
    if arr.None? {
      d := Some(0);
    } else {
      var t := arr.value + 4 * (a - arr.value);
      if t + 3 < Size {
        d := Some(Le32(mem[t], mem[t + 1], mem[t + 2], mem[t + 3]));
      } else {
        d := None;
      }
    }
  }

  /** `vm_write`: returns 0, or -1 at the first refused byte. The length is
    * a `uint16_t`. */
  method Write(mem: array<uint8>, a: nat, content: seq<uint8>) returns (rc: int)
    requires mem.Length == Size && |content| < 0x10000
    modifies mem
    ensures var s := WriteRun(old(mem[..]), a, content);
      mem[..] == s.mem && rc == (if s.status == Rejected then -1 else 0)
  {
    var i := 0;
    rc := 0;
    while i < |content|
      invariant 0 <= i <= |content|
      invariant WriteRun(old(mem[..]), a, content) == WriteRun(mem[..], a + i, content[i..])
    {
      var status := WriteByte(mem, a + i, content[i]);
      if status == Rejected {
        rc := -1;
        break;
      }
      i := i + 1;
    }
  }

  /** `vm_read`: buffer[i] := byte at a + i for every i below length. */
  method Read(mem: array<uint8>, a: nat, buffer: array<uint8>, length: nat) returns (rc: int)
    requires mem.Length == Size && length < 0x10000 && length <= buffer.Length
    requires buffer != mem
    modifies buffer
    ensures rc == 0
    ensures forall i :: 0 <= i < length ==> buffer[i] == ByteRead(mem[..], a + i)
    ensures buffer[length..] == old(buffer[length..])
  {
    var i := 0;
    while i < length
      invariant 0 <= i <= length
      invariant forall j :: 0 <= j < i ==> buffer[j] == ByteRead(mem[..], a + j)
      invariant buffer[length..] == old(buffer[length..])
    {
      buffer[i] := ReadByte(mem, a + i);
      i := i + 1;
    }
    rc := 0;
  }
}
