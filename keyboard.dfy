/**
  * The keyboard input queue and key translation (keyboard.c): a 256-slot
  * ring buffer filled by the terminal reader and drained by the BIOS
  * keyboard service, and the table that turns a byte into ASCII and scan
  * code.
  */
module Keyboard {
  import opened Registers

  /** KEYPOLL_INIT_TOP: number of slots in the ring. */
  const Slots: nat := 256

  /** An entry of `g_key_table`: ASCII code and single-byte scan code. */
  datatype Key = Key(ascii: uint8, scan: uint8)

  /** `g_key_table`: arrow keys, digits and capital letters; every other
    * entry is zero. The entry for 86 carries a lower-case 'v'. */
  function KeyTable(c: uint8): Key
  {
    match c
    case 37 => Key(37, 75)   // left arrow
    case 38 => Key(38, 72)   // up arrow
    case 39 => Key(39, 77)   // right arrow
    case 40 => Key(40, 80)   // down arrow
    case 48 => Key(48, 11)   case 49 => Key(49, 2)    case 50 => Key(50, 3)
    case 51 => Key(51, 4)    case 52 => Key(52, 5)    case 53 => Key(53, 6)
    case 54 => Key(54, 7)    case 55 => Key(55, 8)    case 56 => Key(56, 9)
    case 57 => Key(57, 10)
    case 65 => Key(65, 30)   case 66 => Key(66, 48)   case 67 => Key(67, 46)
    case 68 => Key(68, 32)   case 69 => Key(69, 18)   case 70 => Key(70, 33)
    case 71 => Key(71, 34)   case 72 => Key(72, 35)   case 73 => Key(73, 23)
    case 74 => Key(74, 36)   case 75 => Key(75, 37)   case 76 => Key(76, 38)
    case 77 => Key(77, 50)   case 78 => Key(78, 49)   case 79 => Key(79, 24)
    case 80 => Key(80, 25)   case 81 => Key(81, 16)   case 82 => Key(82, 19)
    case 83 => Key(83, 31)   case 84 => Key(84, 20)   case 85 => Key(85, 22)
    case 86 => Key(118, 47)  case 87 => Key(87, 17)   case 88 => Key(88, 45)
    case 89 => Key(89, 21)   case 90 => Key(90, 44)
    case _ => Key(0, 0)
  }

  /** The table holds an entry exactly for the arrow codes 37-40, the digits
    * and the capital letters; each entry has a non-zero scan code and its
    * own code as ASCII, except 86, whose ASCII is 'v'. */
  lemma KeyTableEntries(c: uint8)
    ensures KeyTable(c).ascii != 0 <==> 37 <= c <= 40 || 48 <= c <= 57 || 65 <= c <= 90
    ensures KeyTable(c).ascii != 0 ==> KeyTable(c).scan != 0
    ensures KeyTable(c).ascii != 0 && c != 86 ==> KeyTable(c).ascii == c
    ensures KeyTable(86).ascii == 118
  {
  }

  /** What `keyboard_read` returns for a popped byte: 0 for the byte 0 and
    * for bytes without a table entry, otherwise the ASCII code in the low
    * byte and the scan code in the high byte. */
  function KeyCode(r: uint8): (c: uint16)
    ensures c == 0 <==> r == 0 || KeyTable(r).ascii == 0
    ensures c != 0 ==> Lo(c) == KeyTable(r).ascii && Hi(c) == KeyTable(r).scan
  {
    if r == 0 then 0
    else if KeyTable(r).ascii == 0 then 0
    else KeyTable(r).ascii + 0x100 * KeyTable(r).scan
  }

  // ---------------------------------------------------------------------
  // The queue as a value

  /** The queued bytes of a ring with the given indices, oldest first: the
    * slots after head up to and including top. */
  function Queued(buf: seq<uint8>, head: nat, top: nat): (q: seq<uint8>)
    requires |buf| == Slots && head < Slots && top < Slots
    ensures |q| == (top - head) % Slots
    ensures forall i :: 0 <= i < |q| ==> q[i] == buf[(head + 1 + i) % Slots]
  {
    seq((top - head) % Slots, i requires 0 <= i < (top - head) % Slots => buf[(head + 1 + i) % Slots])
  }

  /** The ring holds at most 255 bytes: one slot always stays free. */
  lemma QueuedAtMost255(buf: seq<uint8>, head: nat, top: nat)
    requires |buf| == Slots && head < Slots && top < Slots
    ensures |Queued(buf, head, top)| <= Slots - 1
  {
  }

  /** One push on the queue value: dropped when 255 bytes are held. */
  function Pushed(q: seq<uint8>, key: uint8): (q': seq<uint8>)
  {
    if |q| == Slots - 1 then q else q + [key]
  }

  /** One pop on the queue value: the oldest byte and the rest, or 0 and
    * the empty queue. */
  function Popped(q: seq<uint8>): (uint8, seq<uint8>)
  {
    if q == [] then (0, []) else (q[0], q[1..])
  }

  function PushAll(q: seq<uint8>, keys: seq<uint8>): seq<uint8>
    decreases |keys|
  {
    if keys == [] then q else PushAll(Pushed(q, keys[0]), keys[1..])
  }

  /** The bytes that n pops return, in order. */
  function Drain(q: seq<uint8>, n: nat): seq<uint8>
    decreases n
  {
    if n == 0 then [] else [Popped(q).0] + Drain(Popped(q).1, n - 1)
  }

  /** While the ring does not fill, pushes append in order. */
  lemma {:induction false} PushAllAppends(q: seq<uint8>, keys: seq<uint8>)
    requires |q| + |keys| <= Slots - 1
    ensures PushAll(q, keys) == q + keys
    decreases |keys|
  {
    if keys != [] {
      PushAllAppends(q + [keys[0]], keys[1..]);
      assert q + [keys[0]] + keys[1..] == q + keys;
    }
  }

  /** Pops return the queued bytes oldest first. */
  lemma {:induction false} DrainInOrder(q: seq<uint8>, n: nat)
    requires n <= |q|
    ensures Drain(q, n) == q[..n]
    decreases n
  {
    if n > 0 {
      DrainInOrder(q[1..], n - 1);
      assert [q[0]] + q[1..][..n - 1] == q[..n];
    }
  }

  /** First in, first out: up to 255 bytes pushed into an empty ring come
    * back out in the order they went in. */
  lemma {:induction false} FirstInFirstOut(keys: seq<uint8>)
    requires |keys| <= Slots - 1
    ensures Drain(PushAll([], keys), |keys|) == keys
  {
    PushAllAppends([], keys);
    assert [] + keys == keys;
    DrainInOrder(keys, |keys|);
    assert keys[..|keys|] == keys;
  }

  // ---------------------------------------------------------------------
  // The queue, updated in place

  class KeyPoll {
    var head: nat
    var top: nat
    const ascii: array<uint8>

    ghost predicate Valid()
      reads this
    {
      ascii.Length == Slots && head < Slots && top < Slots
    }

    ghost function Contents(): seq<uint8>
      reads this, ascii
      requires Valid()
    {
      Queued(ascii[..], head, top)
    }

    /** `keyboard_init`, without the reader thread: both indices 0. */
    constructor ()
      ensures Valid() && fresh(ascii) && head == 0 && top == 0 && Contents() == []
    {
      head, top := 0, 0;
      ascii := new uint8[Slots];
    }

    /** `keypoll_empty`. */
    function Empty(): (b: bool)
      reads this, ascii
      requires Valid()
      ensures b <==> Contents() == []
    {
      top == head
    }

    /** `keypoll_full`. */
    function Full(): (b: bool)
      reads this, ascii
      requires Valid()
      ensures b <==> |Contents()| == Slots - 1
    {
      (top + 1) % Slots == head
    }

    /** `keypoll_push`: ignored when full, else appended at the new top. */
    method Push(key: uint8)
      requires Valid()
      modifies this, ascii
      ensures Valid() && head == old(head)
      ensures top == if old(Full()) then old(top) else (old(top) + 1) % Slots
      ensures Contents() == Pushed(old(Contents()), key)
    {
      if !Full() {
        top := (top + 1) % Slots;
        ascii[top] := key;
        PushKeepsOlder(old(ascii[..]), ascii[..], head, old(top), key);
      }
    }

    /** `keypoll_pop`: 0 and no change when empty, else the oldest byte. */
    method Pop() returns (r: uint8)
      requires Valid()
      modifies this
      ensures Valid() && top == old(top) && ascii[..] == old(ascii[..])
      ensures head == if old(Empty()) then old(head) else (old(head) + 1) % Slots
      ensures (r, Contents()) == Popped(old(Contents()))
    {
      r := 0;
      if !Empty() {
        head := (head + 1) % Slots;
        r := ascii[head];
        PopDropsOldest(ascii[..], old(head), top);
      }
    }

    /** `keyboard_read`: pop one byte and translate it. */
    method Read() returns (c: uint16)
      requires Valid()
      modifies this
      ensures Valid() && ascii[..] == old(ascii[..])
      ensures (c, Contents()) == (KeyCode(Popped(old(Contents())).0), Popped(old(Contents())).1)
    {
      var r := Pop();
      c := KeyCode(r);
    }
  }

  // ---------------------------------------------------------------------
  // Ring arithmetic behind Push and Pop

  lemma PushKeepsOlder(buf: seq<uint8>, buf': seq<uint8>, head: nat, top: nat, key: uint8)
    requires |buf| == Slots && head < Slots && top < Slots
    requires (top + 1) % Slots != head
    requires buf' == buf[(top + 1) % Slots := key]
    ensures Queued(buf', head, (top + 1) % Slots) == Queued(buf, head, top) + [key]
  {
    var next := if top == Slots - 1 then 0 else top + 1;
    assert next == (top + 1) % Slots;
    var n := (top - head) % Slots;
    assert n == if top >= head then top - head else top - head + Slots;
    assert (next - head) % Slots == n + 1;
    var q, q' := Queued(buf, head, top), Queued(buf', head, next);
    forall i | 0 <= i < |q|
      ensures q'[i] == q[i]
    {
      var j := if head + 1 + i < Slots then head + 1 + i else head + 1 + i - Slots;
      assert j == (head + 1 + i) % Slots;
      assert j != next;
    }
  }

  lemma PopDropsOldest(buf: seq<uint8>, head: nat, top: nat)
    requires |buf| == Slots && head < Slots && top < Slots && top != head
    ensures Queued(buf, head, top) != []
    ensures Queued(buf, (head + 1) % Slots, top) == Queued(buf, head, top)[1..]
    ensures buf[(head + 1) % Slots] == Queued(buf, head, top)[0]
  {
    var next := if head == Slots - 1 then 0 else head + 1;
    assert next == (head + 1) % Slots;
    var n := (top - head) % Slots;
    assert n == if top > head then top - head else top - head + Slots;
    assert (top - next) % Slots == n - 1;
    var q, q' := Queued(buf, head, top), Queued(buf, next, top);
    forall i | 0 <= i < |q'|
      ensures q'[i] == q[i + 1]
    {
      assert (next + 1 + i) % Slots == (head + 1 + (i + 1)) % Slots;
    }
  }
}
