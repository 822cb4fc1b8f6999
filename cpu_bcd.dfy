/**
  * The decimal-adjust and conversion executors of arch/8086/cpu.c: DAA,
  * DAS, AAA, AAS, AAM, AAD, CBW and CWD. They work on AL and AH through
  * byte pointers into the `ax` field.
  *
  * Their tests `FLAGS_AF(core) == 1` compare the masked flag (0 or 0x10)
  * with 1 and are never true; their sign tests `(al & 0x80) == 1` likewise;
  * AAM and AAD shift where the 8086 multiplies by 256 and adds.
  */
module CpuBcd {
  import opened Registers
  import opened CpuState

  function AL(m: Machine): uint8 { Lo(m.regs[AX]) }
  function AH(m: Machine): uint8 { Hi(m.regs[AX]) }

  function WithAX(m: Machine, ax: uint16): Machine { m.(regs := m.regs[AX := ax]) }

  /** `al_l4 > 9 || FLAGS_AF(core) == 1`. */
  predicate LowAdjust(m: Machine)
  {
    AL(m) % 16 > 9 || Accessor(m.regs[FLAGS], AF) == 1
  }

  /** DAA: add 6 when the low digit is above 9, then 0x60 when the high
    * digit of the original AL is above 9 or CF is set. */
  function Daa(m: Machine): Machine
  {
    var al := AL(m);
    var al1 := if LowAdjust(m) then Add8(al, 6) else al;
    var al2 := if al / 16 > 9 || Accessor(m.regs[FLAGS], CF) == 1 then Add8(al1, 0x60) else al1;
    WithAX(m, SetLo(m.regs[AX], al2))
  }

  /** DAS: the same tests, subtracting. */
  function Das(m: Machine): Machine
  {
    var al := AL(m);
    var al1 := if LowAdjust(m) then Add8(al, -6) else al;
    var al2 := if al / 16 > 9 || Accessor(m.regs[FLAGS], CF) == 1 then Add8(al1, -0x60) else al1;
    WithAX(m, SetLo(m.regs[AX], al2))
  }

  /** AAA: AL plus 6 and AH plus 1, each wrapping in its own byte. */
  function Aaa(m: Machine): Machine
  {
    if LowAdjust(m) then WithAX(m, SetHi(SetLo(m.regs[AX], Add8(AL(m), 6)), Add8(AH(m), 1)))
    else m
  }

  /** AAS: AL minus 6 masked to its low digit, AH minus 1. */
  function Aas(m: Machine): Machine
  {
    if LowAdjust(m) then WithAX(m, SetHi(SetLo(m.regs[AX], Add8(AL(m), -6) % 16), Add8(AH(m), -1)))
    else m
  }

  /** AAM: `(uint16_t)a << 8 + (uint16_t)b` parses as `a << (8 + b)`, with
    * a = AL / 10 and b = AL % 10; the shift count is at most 17 and the
    * value fits an int. */
  function Aam(m: Machine): Machine
  {
    var al := AL(m);
    WithAX(m, Wrap16((al / 10) * Pow2(8 + al % 10)))
  }

  /** AAD: `0 << (8 + a)` with a = (AH * 10 + AL) cut to a byte; a shift by
    * 32 or more is undefined, any other count gives 0. */
  function Aad(m: Machine): Result
  {
    var a := Wrap8(AH(m) as int * 10 + AL(m));
    if 8 + a as int >= 32 then Result(Undefined, m) else Result(Done, WithAX(m, 0))
  }

  /** CBW: AH = 0 (the test of the sign is never true). */
  function Cbw(m: Machine): Machine
  {
    WithAX(m, SetHi(m.regs[AX], 0))
  }

  /** CWD: DX = 0 (likewise). */
  function Cwd(m: Machine): Machine
  {
    m.(regs := m.regs[DX := 0])
  }

  // ---------------------------------------------------------------------
  // Properties

  /** The auxiliary carry never takes part: the low adjustment happens
    * exactly when the low digit of AL is above 9. */
  lemma AuxCarryIgnored(m: Machine)
    ensures LowAdjust(m) <==> AL(m) % 16 > 9
  {
    AccessorIsOneOnlyForCarry(m.regs[FLAGS], AF);
  }

  /** On packed BCD with CF clear, DAA and DAS leave the machine alone,
    * whatever AF holds. */
  lemma AdjustKeepsPackedBcd(m: Machine)
    requires AL(m) % 16 <= 9 && AL(m) / 16 <= 9 && m.regs[FLAGS] % 2 == 0
    ensures Daa(m) == m && Das(m) == m
  {
    AuxCarryIgnored(m);
    assert Pow2(0) == 1;
    HalvesCompose(m.regs[AX]);
    assert m.regs[AX := m.regs[AX]] == m.regs;
  }

  /** DAA carries an overflowing low digit into the high digit: a low digit
    * 10-15 becomes 0-5 and the high digit goes up by one, as in decimal
    * addition, as long as the high digit stays a decimal digit. */
  lemma DaaCarriesLowDigit(m: Machine)
    requires AL(m) % 16 > 9 && AL(m) / 16 < 9 && m.regs[FLAGS] % 2 == 0
    ensures AL(Daa(m)) / 16 == AL(m) / 16 + 1
    ensures AL(Daa(m)) % 16 == AL(m) % 16 - 10
    ensures AH(Daa(m)) == AH(m)
  {
    var al := AL(m);
    AuxCarryIgnored(m);
    assert LowAdjust(m);
    assert Accessor(m.regs[FLAGS], CF) == 0 by {
      assert Pow2(0) == 1;
    }
    assert Add8(al, 6) == al + 6;
    assert Daa(m) == WithAX(m, SetLo(m.regs[AX], al + 6));
    assert AL(Daa(m)) == al + 6;
    assert (al + 6) / 16 == al / 16 + 1;
  }

  /** AAA adjusts exactly when the low digit of AL is above 9, and then
    * changes AX only. */
  lemma AaaAdjusts(m: Machine)
    ensures AL(m) % 16 <= 9 ==> Aaa(m) == m
    ensures AL(m) % 16 > 9 ==> AL(Aaa(m)) == Add8(AL(m), 6) && AH(Aaa(m)) == Add8(AH(m), 1)
    ensures forall r: Reg :: r != AX ==> Aaa(m).regs[r] == m.regs[r]
  {
    AuxCarryIgnored(m);
  }

  /** AAM agrees with the 8086 result (quotient in AH, remainder in AL)
    * exactly when AL is a multiple of 10; otherwise the remainder is a
    * shift count and AL comes out 0. */
  lemma AamDigits(m: Machine)
    ensures AL(m) % 10 == 0 ==> Aam(m).regs[AX] == (AL(m) / 10) * 256 + AL(m) % 10
    ensures AL(m) % 10 != 0 ==> AL(Aam(m)) == 0 && Aam(m).regs[AX] != (AL(m) / 10) * 256 + AL(m) % 10
  {
    var a, b := AL(m) / 10, AL(m) % 10;
    var v := Wrap16(a * Pow2(8 + b));
    assert Aam(m).regs[AX] == v;
    if b == 0 {
      AamTens(a);
    } else {
      AamLowByte(a, b);
      assert AL(Aam(m)) == v % 0x100;
      LowByteDiffers(v, a, b);
    }
  }

  /** A word with a zero low byte is not a * 256 + b for a non-zero digit b. */
  lemma LowByteDiffers(v: int, a: int, b: int)
    requires v % 0x100 == 0 && 0 < b < 0x100
    ensures v != a * 256 + b
  {
    assert (a * 256 + b) % 0x100 == b;
  }

  lemma AamTens(a: nat)
    requires a < 26
    ensures Wrap16(a * Pow2(8)) == a * 256
  {
    Pow2Byte();
  }

  /** The AAM word a << (8 + b) has a zero low byte. */
  lemma AamLowByte(a: nat, b: nat)
    ensures Wrap16(a * Pow2(8 + b)) % 0x100 == 0
  {
    var q := a * Pow2(b);
    ShiftSplit(a, 8, b);
    Pow2Byte();
    assert a * Pow2(8 + b) == 0x100 * q;
    ShiftedLowByteIsZero(q);
  }

  /** AAD clears AX whenever it is defined, so the 8086 result AH * 10 + AL
    * is only produced when it is 0; it is defined exactly when the byte
    * AH * 10 + AL is below 24. */
  lemma AadClearsAx(m: Machine)
    ensures Aad(m).outcome == Done <==> Wrap8(AH(m) as int * 10 + AL(m)) < 24
    ensures Aad(m).outcome == Done ==> Aad(m).m.regs[AX] == 0
    ensures Aad(m).outcome == Done && Aad(m).m.regs[AX] == AH(m) as int * 10 + AL(m) ==> AH(m) == 0 && AL(m) == 0
  {
  }

  /** CBW and CWD never sign-extend: a negative AL gives AH = 0, a negative
    * AX gives DX = 0. */
  lemma ConversionsZeroExtend(m: Machine)
    ensures Cbw(m).regs[AX] == AL(m)
    ensures Cwd(m).regs[DX] == 0 && Cwd(m).regs[AX] == m.regs[AX]
  {
  }

  // ---------------------------------------------------------------------
  // The executors, performed on the core

  method ExecDaa(core: Core)
    modifies core`reg
    ensures core.State() == Daa(old(core.State()))
  {
    var al := Lo(core.reg[AX]);
    var al1 := al;
    if al % 16 > 9 || Accessor(core.reg[FLAGS], AF) == 1 {
      al1 := Add8(al1, 6);
    }
    if al / 16 > 9 || Accessor(core.reg[FLAGS], CF) == 1 {
      al1 := Add8(al1, 0x60);
    }
    core.reg := core.reg[AX := SetLo(core.reg[AX], al1)];
  }

  method ExecDas(core: Core)
    modifies core`reg
    ensures core.State() == Das(old(core.State()))
  {
    var al := Lo(core.reg[AX]);
    var al1 := al;
    if al % 16 > 9 || Accessor(core.reg[FLAGS], AF) == 1 {
      al1 := Add8(al1, -6);
    }
    if al / 16 > 9 || Accessor(core.reg[FLAGS], CF) == 1 {
      al1 := Add8(al1, -0x60);
    }
    core.reg := core.reg[AX := SetLo(core.reg[AX], al1)];
  }

  method ExecAaa(core: Core)
    modifies core`reg
    ensures core.State() == Aaa(old(core.State()))
  {
    var ax := core.reg[AX];
    if Lo(ax) % 16 > 9 || Accessor(core.reg[FLAGS], AF) == 1 {
      ax := SetLo(ax, Add8(Lo(ax), 6));
      ax := SetHi(ax, Add8(Hi(ax), 1));
      core.reg := core.reg[AX := ax];
    }
  }

  method ExecAas(core: Core)
    modifies core`reg
    ensures core.State() == Aas(old(core.State()))
  {
    var ax := core.reg[AX];
    if Lo(ax) % 16 > 9 || Accessor(core.reg[FLAGS], AF) == 1 {
      var ax0 := ax;
      ax := SetLo(ax, Add8(Lo(ax), -6));
      ax := SetLo(ax, Lo(ax) % 16);
      assert ax == SetLo(ax0, Add8(Lo(ax0), -6) % 16);
      ax := SetHi(ax, Add8(Hi(ax), -1));
      core.reg := core.reg[AX := ax];
    }
  }

  method ExecAam(core: Core)
    modifies core`reg
    ensures core.State() == Aam(old(core.State()))
  {
    var al := Lo(core.reg[AX]);
    core.reg := core.reg[AX := Wrap16((al / 10) * Pow2(8 + al % 10))];
  }

  method ExecAad(core: Core) returns (out: Outcome)
    modifies core`reg
    ensures Result(out, core.State()) == Aad(old(core.State()))
  {
    var a := Wrap8(Hi(core.reg[AX]) as int * 10 + Lo(core.reg[AX]));
    if 8 + a as int >= 32 {
      out := Undefined;
    } else {
      core.reg := core.reg[AX := 0];
      out := Done;
    }
  }

  method ExecCbw(core: Core)
    modifies core`reg
    ensures core.State() == Cbw(old(core.State()))
  {
    core.reg := core.reg[AX := SetHi(core.reg[AX], 0)];
  }

  method ExecCwd(core: Core)
    modifies core`reg
    ensures core.State() == Cwd(old(core.State()))
  {
    core.reg := core.reg[DX := 0];
  }
}
