/**
  * The values the arithmetic and logic executors of arch/8086/cpu.c hand to
  * `update_flags`, one call per flag, factored out of the executors as
  * functions of the operand before the operation (`old`), the source
  * operand `s` and the stored result `d`.
  *
  * `update_flags` itself switches on the value, not on the flag, and the
  * `FLAGS_X_SET` macros it expands only compute an expression, so none of
  * these values ever reaches the FLAGS register; the executors in this
  * model therefore leave FLAGS alone. What the values would mean is still
  * worth stating, because it shows what the code intends and where its
  * expressions depart from the 8086 flags.
  */
module CpuFlags {
  import opened Wrappers
  import opened Registers
  import opened CpuState

  /** Arguments of the calls `update_flags(FLAGS_C, .)` ... `update_flags(FLAGS_O, .)`;
    * `af` is None for the executors that make no AF call. */
  datatype FlagArgs = FlagArgs(cf: nat, pf: nat, af: Option<nat>, zf: nat, sf: nat, of: nat)

  /** A C comparison as an int. */
  function B(b: bool): nat { if b then 1 else 0 }

  /** The sign bit of a value of the width, as 0 or 1. */
  function SignBit(w: Width, x: uint16): nat
  {
    x / Top(w) % 2
  }

  /** `old > d`, `d % 2 == 0`, `(old & 0xf) + (s & 0xf) > 0xf`, `d == 0`,
    * `d >> 7` (or `>> 15`) and `(d & top) ^ (old & top)`: ADD, ADC and INC. */
  function AddArgs(w: Width, prev: uint16, s: uint16, d: uint16): FlagArgs
  {
    FlagArgs(B(prev > d), B(d % 2 == 0), Some(B(prev % 16 + s % 16 > 15)), B(d == 0),
             d / Top(w), Top(w) * ((SignBit(w, d) + SignBit(w, prev)) % 2))
  }

  /** SUB, SBB, CMP and DEC: as for addition but with `old < d` and
    * `(old & 0xf) < (s & 0xf)`. */
  function SubArgs(w: Width, prev: uint16, s: uint16, d: uint16): FlagArgs
  {
    FlagArgs(B(prev < d), B(d % 2 == 0), Some(B(prev % 16 < s % 16)), B(d == 0),
             d / Top(w), Top(w) * ((SignBit(w, d) + SignBit(w, prev)) % 2))
  }

  /** AND, OR, XOR and TEST: 0 for CF and OF, no AF call. */
  function LogicArgs(w: Width, d: uint16): FlagArgs
  {
    FlagArgs(0, B(d % 2 == 0), None, B(d == 0), d / Top(w), 0)
  }

  /** 2 to the width: the modulus of the C variable the result is stored in. */
  function Modulus(w: Width): nat { Ones(w) + 1 }

  // ---------------------------------------------------------------------
  // What the arguments mean

  /** For ADD and INC the carry argument `old > d` is 1 exactly when the
    * true sum does not fit in the width. */
  lemma AddCarryIsOverflow(w: Width, prev: uint16, s: uint16)
    requires prev <= Ones(w) && s <= Ones(w)
    ensures AddArgs(w, prev, s, WrapTo(w, prev + s)).cf == 1 <==> prev + s >= Modulus(w)
  {
    var d := WrapTo(w, prev + s);
    if prev + s >= Modulus(w) {
      assert d == prev + s - Modulus(w);
    } else {
      assert d == prev + s;
    }
  }

  /** For SUB, CMP and DEC the carry argument `old < d` is 1 exactly when
    * the subtraction borrows. */
  lemma SubCarryIsBorrow(w: Width, prev: uint16, s: uint16)
    requires prev <= Ones(w) && s <= Ones(w)
    ensures SubArgs(w, prev, s, WrapTo(w, prev - s)).cf == 1 <==> s > prev
  {
    var d := WrapTo(w, prev - s);
    if s > prev {
      assert d == prev - s + Modulus(w);
    } else {
      assert d == prev - s;
    }
  }

  /** For ADC, `old > d` never reports a carry that did not happen, and
    * reports every carry except the one where s plus the carry-in is itself
    * a full turn of the width. */
  lemma AdcCarryArg(w: Width, prev: uint16, s: uint16, c: nat)
    requires prev <= Ones(w) && s <= Ones(w) && c <= 1
    ensures var cf := AddArgs(w, prev, s, WrapTo(w, prev + s + c)).cf;
      && (cf == 1 ==> prev + s + c >= Modulus(w))
      && (prev + s + c >= Modulus(w) && s + c < Modulus(w) ==> cf == 1)
  {
    var d := WrapTo(w, prev + s + c);
    if prev + s + c >= Modulus(w) {
      assert d == prev + s + c - Modulus(w);
    } else {
      assert d == prev + s + c;
    }
  }

  /** The case the ADC argument misses: 1 + 0xFF + carry 1 wraps back to 1,
    * so `old > d` is 0 although the sum overflowed. */
  lemma AdcCarryMissed()
    ensures AddArgs(W8, 1, 0xFF, WrapTo(W8, 1 + 0xFF + 1)).cf == 0
    ensures 1 + 0xFF + 1 >= Modulus(W8)
  {
  }

  /** The sign argument is the sign bit of the result. */
  lemma SignArgIsSignBit(w: Width, prev: uint16, s: uint16, d: uint16)
    requires d <= Ones(w)
    ensures AddArgs(w, prev, s, d).sf == SignBit(w, d)
    ensures SubArgs(w, prev, s, d).sf == SignBit(w, d)
    ensures LogicArgs(w, d).sf == SignBit(w, d)
  {
  }

  /** The overflow argument is non-zero exactly when the result's sign bit
    * differs from the old operand's, which is not the 8086 overflow
    * condition: -1 + 1 = 0 changes the sign without overflowing. */
  lemma OverflowArgIsSignChange(w: Width, prev: uint16, s: uint16, d: uint16)
    ensures AddArgs(w, prev, s, d).of != 0 <==> SignBit(w, d) != SignBit(w, prev)
    ensures SubArgs(w, prev, s, d).of != 0 <==> SignBit(w, d) != SignBit(w, prev)
  {
  }

  /** The counterexample to reading the overflow argument as the 8086
    * overflow condition: FF + 1 = 00 in eight bits overflows nothing in
    * signed terms, yet the argument `OverflowArgIsSignChange` describes is
    * 0x80, because the sign bit changed. */
  lemma OverflowArgWithoutOverflow()
    ensures AddArgs(W8, 0xFF, 1, WrapTo(W8, 0xFF + 1)).of == 0x80
  {
  }

  /** The subtraction family passes the same parity, zero, sign and
    * overflow arguments as the addition family and differs only in CF and
    * AF; the logic family passes 0 for CF and OF whatever the operands. */
  lemma FamiliesAgree(w: Width, prev: uint16, s: uint16, d: uint16)
    ensures var a := AddArgs(w, prev, s, d); var b := SubArgs(w, prev, s, d);
      a.pf == b.pf && a.zf == b.zf && a.sf == b.sf && a.of == b.of
    ensures LogicArgs(w, d).cf == 0 && LogicArgs(w, d).of == 0 && LogicArgs(w, d).af.None?
    ensures LogicArgs(w, d).zf == AddArgs(w, prev, s, d).zf
  {
  }

  /** The zero argument is 1 exactly for a zero result, and the parity
    * argument tests bit 0 of the result, not the number of set bits. */
  lemma ZeroAndParityArgs(w: Width, prev: uint16, s: uint16, d: uint16)
    ensures AddArgs(w, prev, s, d).zf == 1 <==> d == 0
    ensures AddArgs(w, prev, s, d).pf == 1 <==> Bit(d, 0) == 0
  {
  }
}
