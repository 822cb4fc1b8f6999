# An 8086 interpreter core, modelled in Dafny

This project models the core of the 8086VM emulator:

- the 8086 register file and its FLAGS accessors;
- the guest memory bus, built from fixed member arrays that cover the 1 MiB address space;
- the PCI port table with its in/out handler slots;
- the ModRM operand parsers;
- the opcode table and every instruction executor it names;
- the step `cpu8086_proc`;
- the software BIOS interrupt services (video, disk, keyboard);
- the keyboard ring buffer;
- the text-display cursor.

The model follows the C code as written, not the 8086 manual. Where the two differ, a lemma names the difference:

- the scaled word store;
- the flag accessors that are never 1;
- `hi << 8 + lo` parsing as `hi << (8 + lo)`;
- CALL/RET frames that do not match;
- jumps that count IP twice.

Modules:

| module | file | what it holds |
|---|---|---|
| `Wrappers` | wrappers.dfy | `Option` |
| `Registers` | registers.dfy | C integer widths, bit operations, byte halves of a register, the flag accessors and setters of `cpu.h` |
| `Memory` | memory.dfy | `mem.c`: the member arrays, byte/word/dword access, `vm_write`, `vm_read` |
| `Pci` | pci.dfy | `pci.c`: the port records and their handler slots |
| `Keyboard` | keyboard.dfy | `keyboard.c`: the key table and the 256-slot ring `KeyPoll` (a class over an array) |
| `Vgui` | vgui.dfy | `vgui.c`: the cursor and colours (`Screen`, a class) and the commands sent to the display |
| `CpuState` | cpu_state.dfy | the core record (`Core`, a class with the register file, memory and ports), `struct operand`, fetches, guarded operand access, `push_stack_16` / `pop_stack_16` |
| `CpuFlags` | cpu_flags.dfy | the arguments the executors pass to `update_flags` |
| `CpuDecode` | cpu_decode.dfy | the ModRM parsers and the effective-address routines |
| `CpuAlu`, `CpuBcd`, `CpuMove`, `CpuIo`, `CpuString`, `CpuStack`, `CpuControl`, `CpuGroup` | cpu_*.dfy | the executors, one family per module |
| `CpuDispatch` | cpu_dispatch.dfy | `cpu8086_instruction_table`, `cpu8086_proc_instruction`, `cpu8086_proc` |
| `Bios` | bios.dfy | `bios.c`: the vector table, `bios_ivt_exec_8086` and the services |

Each state-changing C routine is written twice:

- as a function on a `Machine` value (registers, memory, ports). These functions are the specification;
- as a method on the `Core` object (and on `Screen` and `KeyPoll`), whose `ensures` ties the new state to that function.

The properties are lemmas about the functions.

The outcome of an instruction is one of:

- `Done`: the executor returned 0;
- `Failed`: it returned -1;
- `Aborted`: a C `assert` fired;
- `Undefined`: the C code has undefined behaviour there (a host pointer used as a guest address, a wild store, a shift by 32 or more, a division by zero);
- `Unmodelled`: REP prefixes and HLT.

## Model

| member | source | states |
|---|---|---|
| `Registers.SetLo` | arch/8086/cpu.c:6494-6503 | a store through the low-byte pointer changes the low byte to b and keeps the high byte |
| `Registers.SetHi` | arch/8086/cpu.c:6494-6503 | a store through `(uint8_t*)&reg + 1` changes the high byte to b and keeps the low byte |
| `Registers.WordIdentities` | arch/8086/cpu.c:1920-1951 | on 16-bit words, `a & a == a`, `a \| a == a`, `a ^ a == 0`, and OR with 0 is the identity |
| `Registers.BitwiseIdentities` | arch/8086/cpu.c:1920-1951 | the same identities at every width, by induction over the bits |
| `Registers.MaskIsPositionBit` | arch/8086/cpu.h:31-39 | each `FLAGS_X` mask has exactly the bit of its flag's position set |
| `Registers.Accessor` | arch/8086/cpu.h:31-39 | `FLAGS_X(c)` is 0 or the flag's mask, and it is non-zero exactly when the flag's bit is set |
| `Registers.AccessorIsOneOnlyForCarry` | arch/8086/cpu.h:31-39 | only `FLAGS_CF` can equal 1; a test `FLAGS_ZF(core) == 1` is false whatever FLAGS holds |
| `Registers.SetterOnTruthValue` | arch/8086/cpu.h:41-49 | for x in {0, 1}, every `FLAGS_X_SET(c, x)` except CF evaluates to FLAGS unchanged, and CF's to FLAGS with bit 0 ORed with x |
| `Memory.AddrCalc` | arch/8086/mem.c:254-256 | segment * 16 + offset never exceeds 0x10FFEF |
| `Memory.ByteArray` | arch/8086/mem.c:51-84 | the member array a byte access picks (inclusive bounds) starts at or below the address, which lies inside the 1 MiB block |
| `Memory.MappedRanges` | arch/8086/mem.c:10-35 | byte accesses reach exactly 0..0xE7FFF and 0xF0000..0xFFFFF: the window 0xE8000..0xEFFFF of `rom` and everything from 1 MiB up are refused |
| `Memory.WordArray` | arch/8086/mem.c:86-119 | the array a word access picks (exclusive bounds) holds both bytes of the word |
| `Memory.Le16` | arch/8086/mem.c:86-119 | the composed word has lo as its low byte and hi as its high byte |
| `Memory.ByteRead` | arch/8086/mem.c:51-84 | a mapped address reads its byte; an unmapped one reads 0 |
| `Memory.ByteRoundTrip` | arch/8086/mem.c:124-171 | a byte written at a mapped address reads back and every other byte is kept; at an unmapped address the write changes nothing |
| `Memory.WordReadIsBytePair` | arch/8086/mem.c:86-119 | a word read is the byte reads at a and a + 1, except at the last byte of each array, which reads 0 |
| `Memory.WordReadHole` | arch/8086/mem.c:86-119 | a word read at 0x3FF yields 0 whatever memory holds, although both bytes are mapped |
| `Memory.WordWriteDoesNotRoundTrip` | arch/8086/mem.c:176-220 | a word written at a, past the first byte of its array, lands at 2a - base, so it does not in general read back at a |
| `Memory.WordWriteAtArrayStart` | arch/8086/mem.c:176-220 | at the first byte of an array the scaled store hits the address itself, and the word round-trips |
| `Memory.WordWriteFits` | arch/8086/mem.c:176-220 | a word write overruns exactly when the high byte of its target lies past the end of memory |
| `Memory.WordWriteLow` | arch/8086/mem.c:176-220 | in the interrupt-vector array a word stored at a lands at 2a |
| `Memory.WordWriteKeepsSlotBelow` | arch/8086/mem.c:176-220 | the same store leaves the word at a - 2 unchanged |
| `Memory.FirstUnmapped` | arch/8086/mem.c:222-233 | the index k of the first refused byte of a run: every byte before k is mapped and byte k, if k < n, is not |
| `Memory.WriteRunStopsAtFirstRefusal` | arch/8086/mem.c:222-233 | the run stores each byte before the first refused address at its own address, leaves every other byte alone, and returns -1 exactly when some byte is refused |
| `Memory.ReadByte` | arch/8086/mem.c:51-84 | the method returns the byte `ByteRead` gives and changes nothing |
| `Memory.WriteByte` | arch/8086/mem.c:124-171 | the array after the call is what `ByteWrite` gives; the status is returned |
| `Memory.ReadWord` | arch/8086/mem.c:86-119 | the method returns `WordRead` of the array |
| `Memory.WriteWord` | arch/8086/mem.c:176-220 | the array after the call is what `WordWrite` gives (the scaled target) |
| `Memory.ReadDword` | arch/8086/mem.c:282-315 | the method returns `DwordRead`: None past the end of the block |
| `Memory.Write` | arch/8086/mem.c:222-233 | the loop ends with the array and the code `WriteRun` gives |
| `Memory.Read` | arch/8086/mem.c:273-280 | buffer[i] is the byte at a + i for every i below the length |
| `Pci.ByteIn` | arch/8086/pci.c:21-27 | the byte read is the low byte of the port value after the in-8 handler; without a handler the table is unchanged |
| `Pci.WordIn` | arch/8086/pci.c:29-35 | the word read is the port value after the in-16 handler; without a handler the table is unchanged |
| `Pci.WritesAreLocal` | arch/8086/pci.c:37-75 | every output, registration and value set touches only its own port |
| `Pci.WordOutThenIn` | arch/8086/pci.c:29-51 | without an in-16 handler, a word written to a port reads back |
| `Pci.ByteOutThenIn` | arch/8086/pci.c:21-43 | a byte output keeps the value's high byte; without an in-8 handler, the byte reads back |
| `Pci.RegisterReplacesOneSlot` | arch/8086/pci.c:53-67 | a registration replaces exactly the named handler slot and keeps the value and the other three slots |
| `Pci.SetValue8ZeroExtends` | arch/8086/pci.c:69-71 | `pci_setvalue_8` leaves the high byte of the value clear |
| `Pci.Init` | arch/8086/pci.c:10-19 | after `pci_init` every one of the 0x10000 ports is cleared |
| `Pci.InByte` | arch/8086/pci.c:21-27 | the method returns the byte and leaves the table `ByteIn` gives |
| `Pci.InWord` | arch/8086/pci.c:29-35 | the method returns the word and leaves the table `WordIn` gives |
| `Pci.OutByte` | arch/8086/pci.c:37-43 | the table after the call is `ByteOut` of the old table |
| `Pci.OutWord` | arch/8086/pci.c:45-51 | the table after the call is `WordOut` of the old table |
| `Pci.Register` | arch/8086/pci.c:53-67 | the table after the call is `Registered` of the old table |
| `Pci.SetValue8` | arch/8086/pci.c:69-71 | the table after the call is `WordOut` with the zero-extended byte |
| `Pci.SetValue16` | arch/8086/pci.c:73-75 | the table after the call is `WordOut` with the word |
| `Keyboard.KeyTableEntries` | keyboard.c:10-54 | the table has an entry exactly for the arrow codes 37-40, the digits and the capital letters; each entry has a non-zero scan code and its own ASCII code, except 86, which holds 'v' |
| `Keyboard.KeyCode` | keyboard.c:133-149 | the key word is 0 exactly for the byte 0 or a byte without a table entry; otherwise its low byte is the ASCII code and its high byte the scan code |
| `Keyboard.Queued` | keyboard.c:59-63 | the queued bytes are the (top - head) mod 256 slots after head, oldest first |
| `Keyboard.QueuedAtMost255` | keyboard.c:69-71 | the ring holds at most 255 bytes |
| `Keyboard.PushAllAppends` | keyboard.c:73-78 | while the ring does not fill, pushes append the keys in order |
| `Keyboard.DrainInOrder` | keyboard.c:80-88 | n pops return the first n queued bytes, oldest first |
| `Keyboard.FirstInFirstOut` | keyboard.c:73-88 | up to 255 keys pushed into an empty ring pop out in the order they went in |
| `Keyboard.PushKeepsOlder` | keyboard.c:73-78 | a push into a ring that is not full appends the key to the queued bytes |
| `Keyboard.PopDropsOldest` | keyboard.c:80-88 | a pop from a non-empty ring removes the oldest byte and keeps the rest |
| `Keyboard.KeyPoll.constructor` | keyboard.c:114-131 | `keyboard_init` starts with both indices 0 and an empty queue |
| `Keyboard.KeyPoll.Empty` | keyboard.c:65-67 | the ring is empty exactly when no byte is queued |
| `Keyboard.KeyPoll.Full` | keyboard.c:69-71 | the ring is full exactly when 255 bytes are queued |
| `Keyboard.KeyPoll.Push` | keyboard.c:73-78 | the queue after the call is the old queue with the key appended, or unchanged when full; head is kept |
| `Keyboard.KeyPoll.Pop` | keyboard.c:80-88 | the call returns the oldest byte and drops it, or returns 0 and changes nothing when empty |
| `Keyboard.KeyPoll.Read` | keyboard.c:133-149 | the call pops one byte and returns its key word |
| `Vgui.AdvanceStaysInRow` | vgui.c:129-146 | a cursor inside the 80 columns stays inside them, and the row moves only when a row is completed |
| `Vgui.AdvancePastLastRow` | vgui.c:129-146 | rows are not clamped: from the end of row 24 the cursor moves to row 25, and from row 255 it wraps to row 0 |
| `Vgui.AdvanceByFromColumn` | vgui.c:129-146 | n writes from column x, while the row stays below 256, leave the cursor at column (x + n) mod 80 of row y + (x + n) / 80 |
| `Vgui.Screen.constructor` | vgui.c:19-23 | the cursor starts at (0, 0) with both colours 0 |
| `Vgui.Screen.CursorSet` | vgui.c:69-80 | the cursor takes (x, y), the colours are kept, and the cursor command is emitted |
| `Vgui.Screen.CursorGet` | vgui.c:83-86 | the call returns the cursor last stored and changes nothing |
| `Vgui.Screen.BkColor` | vgui.c:89-99 | only the background colour changes |
| `Vgui.Screen.FgColor` | vgui.c:102-112 | only the foreground colour changes |
| `Vgui.Screen.Char` | vgui.c:114-127 | the call asks for the character at the cursor and returns the display's answer; nothing changes |
| `Vgui.Screen.PutChar` | vgui.c:129-146 | the character is sent at the current cursor with the current colours, then the cursor advances; the colours are kept |
| `CpuState.ShiftedPairValues` | arch/8086/bios.c:127-133 | `hi << 8 + lo` is hi * 256 when lo = 0; from lo = 8 every defined result is 0; from lo = 24 the shift is undefined |
| `CpuState.ShiftedPairLowByte` | arch/8086/bios.c:127-133 | whenever the pair is defined its low byte is 0: lo never reaches the result |
| `CpuState.ShiftedPairFixedPoint` | arch/8086/bios.c:120-133 | the pair read back from the halves of a word w (hi = low byte, lo = high byte) is w only for w = 0 |
| `CpuState.Tag` | arch/8086/cpu.c:84-97 | a type byte is at most `OPERAND_SEGMENT`, and it is `OPERAND_ADDR` exactly for an address operand |
| `CpuState.Store` | arch/8086/cpu.c:740-772 | a store keeps the registers; it either completes, or is undefined and leaves the machine unchanged |
| `CpuState.PtrStoreThenLoad` | arch/8086/cpu.c:740-772 | a value stored through a register pointer reads back through it, cut to the width, and no other field changes |
| `CpuState.Deref` | arch/8086/cpu.c:740-772 | `*oper->operandN.reg` fits its width, and stops only as undefined behaviour |
| `CpuState.PutPtr` | arch/8086/cpu.c:740-772 | a store through a pointer changes no memory or port; it completes or is undefined with the machine unchanged |
| `CpuState.ReadRm` | arch/8086/cpu.c:740-772 | the guarded read fits the width, and returns -1 exactly when the type byte is neither `ADDR` nor the width's register type |
| `CpuState.StoreRm` | arch/8086/cpu.c:3757-3787 | the guarded store returns -1 exactly when the type byte is neither `ADDR` nor the register type, and never touches a port |
| `CpuState.PushRegs` | arch/8086/cpu.c:455-462 | a completed push keeps every register except SP, which drops by two |
| `CpuState.PushCompletes` | arch/8086/cpu.c:455-462 | a push completes exactly when the word is non-zero and the word at SS:SP fits in memory |
| `CpuState.PoppedRegs` | arch/8086/cpu.c:464-471 | a pop into r other than SP stores the popped word into r, raises SP by two and keeps every other register |
| `CpuState.PushThenPop` | arch/8086/cpu.c:455-471 | a push and then a pop leave SP where it was, but the pop reads the slot above the pushed word |
| `CpuState.PushAtLowStack` | arch/8086/cpu.c:455-462 | with SS = 0, a push is a completed word store at SP followed by SP - 2 |
| `CpuState.PushThenPopSlots` | arch/8086/cpu.c:455-471 | with SS = 0 and SP in 2..0x1FE, the push stores its word at 2*SP while the pop reads at SP - 2, so the popped word is what the push left there |
| `CpuState.Core.constructor` | arch/8086/cpu.c:26 | the static core record starts at zero, with the given memory and ports |
| `CpuState.Core.Init` | arch/8086/cpu.c:7052-7071 | `cpu8086_init` clears the segment and general registers and sets CS = 0x7C0; FLAGS, memory and ports are kept |
| `CpuState.Core.FetchByte` | arch/8086/mem.c:236-243 | the call returns the byte at CS:IP and leaves the state `Fetch8` gives |
| `CpuState.Core.FetchWord` | arch/8086/mem.c:245-252 | the call returns the word at CS:IP and leaves the state `Fetch16` gives |
| `CpuState.Core.LoadAt` | arch/8086/cpu.c:740-772 | the call returns `Load` of the state and changes nothing |
| `CpuState.Core.StoreAt` | arch/8086/cpu.c:740-772 | the state after the call is `Store` of the old state |
| `CpuState.Core.ReadRmOf` | arch/8086/cpu.c:740-772 | the call returns `ReadRm` of the state and changes nothing |
| `CpuState.Core.WriteBackTo` | arch/8086/cpu.c:740-772 | the state after the call is `WriteBack` of the old state |
| `CpuState.Core.StoreRmTo` | arch/8086/cpu.c:3757-3787 | the state after the call is `StoreRm` of the old state |
| `CpuState.Core.PushWord` | arch/8086/cpu.c:455-462 | the state after the call is `Push` of the old state |
| `CpuState.Core.PopWord` | arch/8086/cpu.c:464-471 | the state after the call is `PopInto` of the old state |
| `CpuFlags.AddCarryIsOverflow` | arch/8086/cpu.c:752-761 | for ADD and INC the carry argument `old > d` is 1 exactly when the true sum does not fit in the width |
| `CpuFlags.SubCarryIsBorrow` | arch/8086/cpu.c:1680-1712 | for SUB, CMP and DEC the carry argument `old < d` is 1 exactly when the subtraction borrows |
| `CpuFlags.AdcCarryArg` | arch/8086/cpu.c:1070-1103 | for ADC, `old > d` never reports a carry that did not happen, and it misses only the carry where s plus the carry-in wraps |
| `CpuFlags.AdcCarryMissed` | arch/8086/cpu.c:1070-1103 | 1 + 0xFF with the carry in wraps back to 1, so `old > d` is 0 although the sum overflowed |
| `CpuFlags.SignArgIsSignBit` | arch/8086/cpu.c:752-761 | the sign argument `d >> 7` (or `>> 15`) is the sign bit of the result |
| `CpuFlags.OverflowArgIsSignChange` | arch/8086/cpu.c:752-761 | the overflow argument is non-zero exactly when the result's sign bit differs from the old operand's |
| `CpuFlags.OverflowArgWithoutOverflow` | arch/8086/cpu.c:752-761 | 0xFF + 1 as bytes (-1 + 1) does not overflow on the 8086, yet the overflow argument is 0x80 |
| `CpuFlags.FamiliesAgree` | arch/8086/cpu.c:1680-1712 | the subtraction and addition families pass the same parity, zero, sign and overflow arguments and differ only in CF and AF; the logic family passes 0 for CF and OF |
| `CpuFlags.ZeroAndParityArgs` | arch/8086/cpu.c:752-761 | the zero argument is 1 exactly for a zero result; the parity argument `d % 2 == 0` tests bit 0, not the number of set bits |
| `CpuDecode.Split` | arch/8086/cpu.c:6407-6409 | the mode is below 4 and both register fields are below 8 |
| `CpuDecode.JoinSplit` | arch/8086/cpu.c:6407-6409 | the three fields make up the whole byte |
| `CpuDecode.SplitJoin` | arch/8086/cpu.c:6407-6409 | any three fields in range make a byte that splits back into them |
| `CpuDecode.Reg16Table` | arch/8086/cpu.c:6505-6514 | `registers2` names only the eight general registers |
| `CpuDecode.SegTable` | arch/8086/cpu.c:6426-6431 | the segment table names only ES, CS, SS and DS |
| `CpuDecode.Reg8Numbering` | arch/8086/cpu.c:6494-6503 | reg 0-3 name the low bytes and reg 4-7 the high bytes of AX, CX, DX and BX |
| `CpuDecode.DirectAddressScalesTwice` | arch/8086/cpu.c:6158-6193 | direct addressing scales DS twice: for DS below 0x1000 the address is DS * 256 plus the displacement |
| `CpuDecode.EaIsSegmentPlusOffset` | arch/8086/cpu.c:6195-6405 | when the 16-bit sum does not wrap, the address is the segment base plus the offset LEA stores; when it wraps, the carries are kept |
| `CpuDecode.FetchDispAdvances` | arch/8086/cpu.c:6232-6405 | a displacement fetch moves IP on by the mode's number of displacement bytes and changes nothing else |
| `CpuDecode.ParseAdvancesIp` | arch/8086/cpu.c:6411-7050 | a parser changes only IP, and moves it on by exactly the ModRM byte, the mode's displacement and the immediate of its format |
| `CpuDecode.ParsePointersOk` | arch/8086/cpu.c:6411-7050 | every pointer a parser hands out points into its register tables, never at IP or FLAGS |
| `CpuDecode.ByteRmUsesWordTable` | arch/8086/cpu.c:6484-6552 | in mode 3 the byte formats take rm from the 16-bit table, so rm 4-7 name the low bytes of SP, BP, SI and DI rather than AH, CH, DH, BH |
| `CpuDecode.FetchDispOf` | arch/8086/cpu.c:6232-6405 | the call returns the displacement and leaves the state `FetchDisp` gives |
| `CpuDecode.RmOperandOf` | arch/8086/cpu.c:6484-6552 | the call returns the operand and leaves the state `RmOperand` gives |
| `CpuDecode.ParseModRMOf` | arch/8086/cpu.c:6411-6695 | the call returns the operands and leaves the state `ParseModRM` gives |
| `CpuDecode.ParseImmediateOf` | arch/8086/cpu.c:6697-6910 | the call returns the operands and leaves the state `ParseImmediate` gives |
| `CpuDecode.ParseByteOf` | arch/8086/cpu.c:6697-6745 | an 8-bit immediate or IP increment fetches one byte and leaves the state `ParseImmediate` gives |
| `CpuDecode.ParseWordOf` | arch/8086/cpu.c:6697-6745 | a 16-bit immediate or IP increment fetches one word and leaves the state `ParseImmediate` gives |
| `CpuDecode.ParseFarOf` | arch/8086/cpu.c:6896-6910 | the call fetches the offset and then the segment word, and leaves the state `ParseImmediate` gives for the far pointer |
| `CpuDecode.ParseOf` | arch/8086/cpu.c:6411-7050 | the call returns the operands and leaves the state `Parse` gives |
| `CpuAlu.SubUndoesAdd` | arch/8086/cpu.c:740-772 | subtracting what was added gives back the destination, in either width |
| `CpuAlu.AddUndoesSub` | arch/8086/cpu.c:1680-1712 | adding what was subtracted gives back the destination, in either width |
| `CpuAlu.AddThenSub` | arch/8086/cpu.c:740-1712 | ADD and SUB with the same source undo each other in both orders and both widths |
| `CpuAlu.CarryIn` | arch/8086/cpu.c:1070-1103 | with CF clear, ADC is ADD and SBB is SUB; with CF set they differ from them by one |
| `CpuAlu.XorSelf` | arch/8086/cpu.c:1888-1918 | XOR of a value with itself is 0 |
| `CpuAlu.AndOrSelf` | arch/8086/cpu.c:1482-1513 | AND and OR of a value with itself give the value |
| `CpuAlu.CarryArgOfComputed` | arch/8086/cpu.c:740-772 | for the value an executor computes, the carry argument reports exactly the ADD overflow and the SUB borrow |
| `CpuAlu.IncDecInverse` | arch/8086/cpu.c:2275-2641 | DEC undoes INC and INC undoes DEC |
| `CpuAlu.AluKeepsFlags` | arch/8086/cpu.c:28-53 | no arithmetic or logic executor changes FLAGS when its register operands come from the parsers |
| `CpuAlu.CompareChangesNothing` | arch/8086/cpu.c:2084-2242 | CMP and TEST change nothing; they only decide between completion, -1 and undefined behaviour |
| `CpuAlu.AddRegRegAddsZero` | arch/8086/cpu.c:838-865 | `add r16, r16` (03, mode 3) adds 0: the source branch tests for `OPERAND_REG8`, so the destination keeps its value |
| `CpuAlu.XorByteRegisterNotWritten` | arch/8086/cpu.c:1888-1918 | `xor r/m8, r8` with a byte-register destination completes without writing anything |
| `CpuAlu.OrNeedsMemoryOperand` | arch/8086/cpu.c:936-954 | OR with a register operand reads the host pointer as a guest address (undefined); with a memory operand it completes |
| `CpuAlu.RegToRmFailsOnOtherTags` | arch/8086/cpu.c:740-806 | a destination type byte other than memory or the width's register makes the register-to-r/m forms return -1 (except OR) |
| `CpuAlu.DestinationOf` | arch/8086/cpu.c:740-772 | the call returns `Destination` of the state and changes nothing |
| `CpuAlu.SourceOf` | arch/8086/cpu.c:838-865 | the call returns `Source` of the state and changes nothing |
| `CpuAlu.ExecRegToRm` | arch/8086/cpu.c:740-806 | `*_reg2rm_{8,16}` (ADD, OR, ADC, SBB, AND, SUB, XOR, CMP, TEST) leave the outcome and state `RegToRm` gives |
| `CpuAlu.ExecRmToReg` | arch/8086/cpu.c:808-865 | `*_rm2reg_{8,16}` leave the outcome and state `RmToReg` gives |
| `CpuAlu.ExecAccImm` | arch/8086/cpu.c:867-913 | `*_i8al`, `*_i16ax` and `test_im{8,16}` leave the outcome and state `AccImm` gives |
| `CpuAlu.ExecIncDec` | arch/8086/cpu.c:2275-2641 | `inc_*` and `dec_*` leave the register `IncDec` gives |
| `CpuBcd.AuxCarryIgnored` | arch/8086/cpu.c:1651-1677 | the AF test never holds, so the low adjustment happens exactly when the low digit of AL is above 9 |
| `CpuBcd.AdjustKeepsPackedBcd` | arch/8086/cpu.c:1651-1886 | on packed BCD with CF clear, DAA and DAS leave the machine alone, whatever AF holds |
| `CpuBcd.DaaCarriesLowDigit` | arch/8086/cpu.c:1651-1677 | DAA carries a low digit of 10-15 into the high digit: the low digit becomes 0-5 and the high digit goes up by one |
| `CpuBcd.AaaAdjusts` | arch/8086/cpu.c:2055-2082 | AAA adjusts exactly when the low digit of AL is above 9, and then changes only AX |
| `CpuBcd.AamDigits` | arch/8086/cpu.c:5317-5336 | AAM gives the 8086 result (quotient in AH, remainder in AL) exactly when AL is a multiple of 10 |
| `CpuBcd.AamLowByte` | arch/8086/cpu.c:5317-5336 | the AAM word `a << (8 + b)` has a zero low byte |
| `CpuBcd.AadClearsAx` | arch/8086/cpu.c:5338-5358 | AAD clears AX whenever it is defined, and it is defined exactly when the shift count is below 32 |
| `CpuBcd.ConversionsZeroExtend` | arch/8086/cpu.c:3991-4023 | CBW and CWD never sign-extend: a negative AL gives AH = 0, a negative AX gives DX = 0 |
| `CpuBcd.ExecDaa` | arch/8086/cpu.c:1651-1677 | the state after the call is `Daa` of the old state |
| `CpuBcd.ExecDas` | arch/8086/cpu.c:1858-1886 | the state after the call is `Das` of the old state |
| `CpuBcd.ExecAaa` | arch/8086/cpu.c:2055-2082 | the state after the call is `Aaa` of the old state |
| `CpuBcd.ExecAas` | arch/8086/cpu.c:2244-2273 | the state after the call is `Aas` of the old state |
| `CpuBcd.ExecAam` | arch/8086/cpu.c:5317-5336 | the outcome and state after the call are `Aam` of the old state |
| `CpuBcd.ExecAad` | arch/8086/cpu.c:5338-5358 | the outcome and state after the call are `Aad` of the old state |
| `CpuBcd.ExecCbw` | arch/8086/cpu.c:3991-4006 | the state after the call is `Cbw` of the old state |
| `CpuBcd.ExecCwd` | arch/8086/cpu.c:4008-4023 | the state after the call is `Cwd` of the old state |
| `CpuMove.MovRegToRmStores` | arch/8086/cpu.c:3757-3787 | a MOV to a register destination completes and the destination reads back the source; to a mapped memory byte it completes and the byte reads back |
| `CpuMove.MovByteRegRegFails` | arch/8086/cpu.c:3789-3803 | `mov r8, r8` (8a, mode 3) always returns -1: the parser tags the operand `OPERAND_REG8` and the executor accepts only `OPERAND_REG16` |
| `CpuMove.XchgSwaps` | arch/8086/cpu.c:3732-3755 | XCHG of two different word registers swaps them, and doing it twice restores the machine |
| `CpuMove.XchgAxTwice` | arch/8086/cpu.c:3900-3989 | exchanging AX with a register twice restores the machine |
| `CpuMove.SahfLahf` | arch/8086/cpu.c:4081-4107 | after SAHF, LAHF changes nothing, and after LAHF, SAHF changes nothing |
| `CpuMove.LeaLoadsOffset` | arch/8086/cpu.c:3837-3849 | LEA puts the offset into the register and nothing else changes |
| `CpuMove.Le32Halves` | arch/8086/mem.c:282-315 | a dword splits into the two words it was made of |
| `CpuMove.LoadFarAtArrayStart` | arch/8086/cpu.c:4738-4780 | at the first address of a member array, LES and LDS load the register and the segment from the two words there |
| `CpuMove.MovAccToMemNeverCompletes` | arch/8086/cpu.c:4145-4173 | MOV from the accumulator to memory (a2/a3) never completes: memory operands are undefined and all others return -1 |
| `CpuMove.ExecMovRegToRm` | arch/8086/cpu.c:3757-3787 | the outcome and state after the call are `MovRegToRm` of the old state |
| `CpuMove.ExecMovRmToReg` | arch/8086/cpu.c:3789-3819 | the outcome and state after the call are `MovRmToReg` of the old state |
| `CpuMove.ExecMovSegToRm` | arch/8086/cpu.c:3821-3835 | the outcome and state after the call are `MovSegToRm` of the old state |
| `CpuMove.ExecMovRmToSeg` | arch/8086/cpu.c:3851-3868 | the outcome and state after the call are `MovRmToSeg` of the old state |
| `CpuMove.ExecLea` | arch/8086/cpu.c:3837-3849 | the outcome and state after the call are `Lea` of the old state |
| `CpuMove.ExecXchgRegRm` | arch/8086/cpu.c:3707-3755 | the outcome and state after the call are `XchgRegRm` of the old state |
| `CpuMove.ExecXchgAx` | arch/8086/cpu.c:3900-3989 | the state after the call is `XchgAx` of the old state |
| `CpuMove.ExecLahf` | arch/8086/cpu.c:4095-4107 | the state after the call is `Lahf` of the old state |
| `CpuMove.ExecSahf` | arch/8086/cpu.c:4081-4093 | the state after the call is `Sahf` of the old state |
| `CpuMove.ExecMovAccFromMem` | arch/8086/cpu.c:4109-4143 | the outcome and state after the call are `MovAccFromMem` of the old state |
| `CpuMove.ExecMovAccToMem` | arch/8086/cpu.c:4145-4173 | the outcome and state after the call are `MovAccToMem` of the old state |
| `CpuMove.ExecMovImm8` | arch/8086/cpu.c:4519-4613 | the state after the call is `MovImm8` of the old state |
| `CpuMove.ExecMovImm16` | arch/8086/cpu.c:4615-4709 | the state after the call is `MovImm16` of the old state |
| `CpuMove.ExecMovImmRm` | arch/8086/cpu.c:4782-4820 | the outcome and state after the call are `MovImmRm` of the old state |
| `CpuMove.ExecLoadFar` | arch/8086/cpu.c:4738-4780 | the outcome and state after the call are `LoadFar` of the old state |
| `CpuMove.ExecXlat` | arch/8086/cpu.c:5360-5375 | the state after the call is `Xlat` of the old state |
| `CpuIo.OutThenIn` | arch/8086/cpu.c:5453-5492 | a word written to a port without an in-handler reads back into AX and a byte into AL; nothing but AX and that port changes |
| `CpuIo.OutDxWritesPortCx` | arch/8086/cpu.c:5571-5589 | the register forms of OUT write the port CX names; the port DX names is kept whenever CX and DX differ |
| `CpuIo.InAxDxMerges` | arch/8086/cpu.c:5560-5569 | `in ax, dx` loads the port word when AH is clear; otherwise the old high byte stays ORed in |
| `CpuIo.ExecInAl` | arch/8086/cpu.c:5453-5462 | the outcome and state after the call are `InAl` of the old state |
| `CpuIo.ExecInAx` | arch/8086/cpu.c:5464-5472 | the outcome and state after the call are `InAx` of the old state |
| `CpuIo.ExecOutAl` | arch/8086/cpu.c:5474-5482 | the outcome and state after the call are `OutAl` of the old state |
| `CpuIo.ExecOutAx` | arch/8086/cpu.c:5484-5492 | the outcome and state after the call are `OutAx` of the old state |
| `CpuIo.ExecInAlDx` | arch/8086/cpu.c:5549-5558 | the state after the call is `InAlDx` of the old state |
| `CpuIo.ExecInAxDx` | arch/8086/cpu.c:5560-5569 | the state after the call is `InAxDx` of the old state |
| `CpuIo.ExecOutAlDx` | arch/8086/cpu.c:5571-5579 | the state after the call is `OutAlDx` of the old state |
| `CpuIo.ExecOutAxDx` | arch/8086/cpu.c:5581-5589 | the state after the call is `OutAxDx` of the old state |
| `CpuString.AdvanceUndone` | arch/8086/cpu.c:4175-4201 | a step down undoes a step up of the same size, and the reverse |
| `CpuString.MovsbCopies` | arch/8086/cpu.c:4175-4201 | MOVSB copies the byte at DS:SI to a mapped ES:DI; every register except SI and DI is kept |
| `CpuString.StosbThenLodsb` | arch/8086/cpu.c:4347-4417 | a byte stored by STOSB loads back by LODSB from the same slot, and AH is kept |
| `CpuString.StepSizes` | arch/8086/cpu.c:4175-4517 | only MOVSW steps by two; STOSW and LODSW step by one, as do CMPS and SCAS, which change neither memory nor FLAGS |
| `CpuString.LodsbReadsDestination` | arch/8086/cpu.c:4395-4417 | LODS reads through the destination pointer ES:DI, not DS:SI, and keeps AH |
| `CpuString.ExecMovs` | arch/8086/cpu.c:4175-4229 | the outcome and state after the call are `Movs` of the old state |
| `CpuString.ExecCompare` | arch/8086/cpu.c:4231-4305 | the state after the call is `Compare` of the old state |
| `CpuString.ExecStos` | arch/8086/cpu.c:4347-4393 | the outcome and state after the call are `Stos` of the old state |
| `CpuString.ExecLods` | arch/8086/cpu.c:4395-4441 | the state after the call is `Lods` of the old state |
| `CpuStack.ThreePushes` | arch/8086/cpu.c:455-462 | three pushes complete exactly when all three words are non-zero and the three target words fit in memory, and then SP drops by six (modulo 2^16) and no other register changes |
| `CpuStack.InitialStackFits` | arch/8086/cpu.c:7052-7071 | the stack `cpu8086_init` leaves (SS = SP = 0) has room for a three-word frame, which wraps to SP = FFFA |
| `CpuStack.LowStackFits` | arch/8086/cpu.c:455-462 | with SS = 0 and 6 <= SP <= 1FE the three frame words fit in memory |
| `CpuStack.InterruptFrame` | arch/8086/cpu.c:4856-4904 | wherever the stack lies, an interrupt completes exactly when FLAGS, CS and IP are non-zero and the frame fits, and then it jumps to 4n+2:4n with SP six lower (modulo 2^16) and no other register changed |
| `CpuStack.InterruptAbortsOnZeroFlags` | arch/8086/cpu.c:4856-4904 | a zero FLAGS word fails the assert of the first push, so every interrupt aborts with the machine unchanged |
| `CpuStack.IretDoesNotReturn` | arch/8086/cpu.c:4906-4916 | IRET never returns: it completes exactly when IP, CX and FLAGS are non-zero and the frame fits, and then only SP changes, six lower (modulo 2^16) |
| `CpuStack.PushfThenPopf` | arch/8086/cpu.c:4053-4079 | PUSHF then POPF restores SP, but with the scaled word store FLAGS comes back as the word two bytes below the stack top |
| `CpuStack.PopDsNeverCompletes` | arch/8086/cpu.c:1472-1480 | POP DS never completes |
| `CpuStack.RetImmKeepsStack` | arch/8086/cpu.c:4711-4720 | RET imm16 jumps without popping: memory and SP are kept |
| `CpuStack.PopRmEffects` | arch/8086/cpu.c:3870-3892 | POP r/m16 raises SP even when the destination is refused; into a 16-bit register other than SP it stores the popped word |
| `CpuStack.ExecPush` | arch/8086/cpu.c:2643-2721 | the outcome and state after the call are `Push` of the register |
| `CpuStack.ExecPop` | arch/8086/cpu.c:2723-2801 | the outcome and state after the call are `PopInto` of the register |
| `CpuStack.ExecPopDs` | arch/8086/cpu.c:1472-1480 | the outcome and state after the call are `PopDs` of the old state |
| `CpuStack.ExecPushLowering` | arch/8086/cpu.c:1254-1267 | the outcome and state after the call are `PushLowering` of the old state |
| `CpuStack.ExecPopf` | arch/8086/cpu.c:4067-4079 | the state after the call is `Popf` of the old state |
| `CpuStack.ExecPopRm` | arch/8086/cpu.c:3870-3892 | the outcome and state after the call are `PopRm` of the old state |
| `CpuStack.ExecCallFrame` | arch/8086/cpu.c:5494-5512 | the outcome and state after the call are `CallFrame` of the old state |
| `CpuStack.ExecCallNear` | arch/8086/cpu.c:5494-5512 | the outcome and state after the call are `CallNear` of the old state |
| `CpuStack.ExecCallFar` | arch/8086/cpu.c:4025-4045 | the outcome and state after the call are `CallFar` of the old state |
| `CpuStack.ExecRetImm` | arch/8086/cpu.c:4711-4720 | the outcome and state after the call are `RetImm` of the old state |
| `CpuStack.ExecRet` | arch/8086/cpu.c:4722-4736 | the state after the call is `Ret` of the old state |
| `CpuStack.ExecRetfImm` | arch/8086/cpu.c:4822-4837 | the outcome and state after the call are `RetfImm` of the old state |
| `CpuStack.ExecRetf` | arch/8086/cpu.c:4839-4854 | the state after the call is `Retf` of the old state |
| `CpuStack.ExecInterrupt` | arch/8086/cpu.c:4856-4904 | the outcome and state after the call are `Interrupt` of the old state |
| `CpuStack.ExecInt` | arch/8086/cpu.c:4873-4887 | the outcome and state after the call are `Int` of the old state |
| `CpuStack.ExecIret` | arch/8086/cpu.c:4906-4916 | the outcome and state after the call are `Iret` of the old state |
| `CpuControl.SignExt8` | arch/8086/cpu.c:2803-2815 | `(int8_t)b` lies in -128..127 and is b again when stored in a byte |
| `CpuControl.TakenAgainstIntended` | arch/8086/cpu.c:2803-3017 | JNO, JB, JNB, JNZ, JNS and JNP test what the 8086 tests; JO, JZ, JS, JP, JL and JLE are never taken; JBE tests only CF |
| `CpuControl.JccCountsIpTwice` | arch/8086/cpu.c:2873-2885 | a taken jump from IP with a forward displacement d lands at 2 * IP + d, not IP + d |
| `CpuControl.LoopZfTests` | arch/8086/cpu.c:5383-5417 | LOOPE never jumps and LOOPNE behaves as LOOP, because the ZF accessor is never 1 |
| `CpuControl.LoopCounts` | arch/8086/cpu.c:5419-5435 | LOOP counts CX down and falls through at 0: from CX = 1 it ends with CX = 0, from CX = 0 it wraps to 0xFFFF and jumps; JCXZ keeps CX and jumps exactly when CX is 0 |
| `CpuControl.LoopNeedsIp8` | arch/8086/cpu.c:5383-5451 | any operand but an `IP8` makes the loop instructions return -1 |
| `CpuControl.ExecJcc` | arch/8086/cpu.c:2803-3017 | the state after the call is `Jcc` of the old state |
| `CpuControl.ExecLoop` | arch/8086/cpu.c:5383-5451 | the outcome and state after the call are `LoopStep` of the old state |
| `CpuControl.ExecJmpNear` | arch/8086/cpu.c:5514-5547 | the outcome and state after the call are `JmpNear` of the old state |
| `CpuControl.ExecJmpFar` | arch/8086/cpu.c:5525-5536 | the outcome and state after the call are `JmpFar` of the old state |
| `CpuGroup.Operation` | arch/8086/cpu.c:3019-3204 | the operation code is read exactly when `operand1_type` is `OPERAND_OP`, and it is that operand's code |
| `CpuGroup.GateOf` | arch/8086/cpu.c:3019-3204 | the `OPERAND_ADDR` test passes exactly for an address whose low byte is 2, and then keeps the address; -1 exactly when the known type byte is neither `ADDR` nor the register type |
| `CpuGroup.Signed16` | arch/8086/cpu.c:5797-5938 | `(int16_t)x` lies in -0x8000..0x7FFF and is x again when stored in 16 bits |
| `CpuGroup.TruncDivMod` | arch/8086/cpu.c:5662-5938 | C division: quotient * divisor + remainder is the dividend, the remainder is smaller than the divisor and has the sign of the dividend |
| `CpuGroup.IncDecGroup` | arch/8086/cpu.c:5994-6125 | fe/ff keep every register and every port |
| `CpuGroup.ImmediateAddThenSub` | arch/8086/cpu.c:3206-3391 | a word register gets its value back when an immediate is added and then subtracted (81 or 83 /0 then /5) |
| `CpuGroup.ImmediateByteAddThenSub` | arch/8086/cpu.c:3019-3204 | a byte in memory gets its value back when an immediate is added and then subtracted (80 /0 then /5) |
| `CpuGroup.ImmediateMissingCases` | arch/8086/cpu.c:3393-3651 | 82 and 83 return -1 for OR, AND and XOR, and for codes above 7 |
| `CpuGroup.ImmediateWithoutEffect` | arch/8086/cpu.c:3019-3651 | in all four groups SBB is undefined and CMP changes nothing; with a byte-register destination 80 and 82 return -1 |
| `CpuGroup.ShiftsNeverComplete` | arch/8086/cpu.c:4918-5315 | no shift or rotate completes: every path returns -1 or stores through the address bits of operand 2 as a pointer, and the machine is kept |
| `CpuGroup.CountShiftEdges` | arch/8086/cpu.c:5093-5315 | a count of 0 keeps the value and passes no flag; a count above the width gives 0 and passes 0 for CF and OF |
| `CpuGroup.SarClears` | arch/8086/cpu.c:5093-5203 | SAR by a count within the width always gives 0: the mask `f << (n - 1)` removes every remaining bit |
| `CpuGroup.ArithmeticRightClears` | arch/8086/cpu.c:5093-5203 | the SAR value is 0 for every count from 1 to the width |
| `CpuGroup.ShiftArithmetic` | arch/8086/cpu.c:5093-5315 | SHR divides by 2^k, and SAL multiplies by 2^k cut to the width |
| `CpuGroup.NotNegTwice` | arch/8086/cpu.c:5662-5795 | NOT and NEG on a mapped byte are their own inverses: applied twice they leave the machine as it was |
| `CpuGroup.MultiplyProduct` | arch/8086/cpu.c:5662-5938 | MUL and IMUL agree; the byte form gives the exact product AL * s; the word form cuts the product to 16 bits and clears DX |
| `CpuGroup.WordDivide` | arch/8086/cpu.c:5797-5938 | when the word DIV is defined and its quotient fits a word, AX and DX are the quotient and remainder of DX:AX by the divisor |
| `CpuGroup.DivideByZero` | arch/8086/cpu.c:5662-5938 | a zero divisor is undefined in every form |
| `CpuGroup.TestMovesIp` | arch/8086/cpu.c:5662-5938 | TEST only moves IP past its immediate |
| `CpuGroup.IncThenDec` | arch/8086/cpu.c:5994-6049 | fe INC then DEC gives a mapped byte back; codes 2-7 clear it |
| `CpuGroup.WordIncStores` | arch/8086/cpu.c:6051-6125 | ff /0 on a memory operand is a byte store of the incremented word |
| `CpuGroup.WordIncWritesOneByte` | arch/8086/cpu.c:6051-6125 | ff INC writes only the low byte of the incremented word: the byte at a + 1 is kept |
| `CpuGroup.ExecImmediate` | arch/8086/cpu.c:3019-3651 | the outcome and state after the call are `Immediate` of the old state |
| `CpuGroup.ExecShiftOne` | arch/8086/cpu.c:4918-5091 | the outcome and state after the call are `ShiftOne` of the old state |
| `CpuGroup.ExecShiftCount` | arch/8086/cpu.c:5093-5315 | the outcome and state after the call are `ShiftCount` of the old state |
| `CpuGroup.ExecMultiply` | arch/8086/cpu.c:5662-5938 | the state after MUL or IMUL is `Multiply` of the old state |
| `CpuGroup.ExecDivide` | arch/8086/cpu.c:5662-5938 | the outcome and state after the call are `Divide` of the old state |
| `CpuGroup.ExecUnary` | arch/8086/cpu.c:5662-5938 | the outcome and state after the call are `Unary` of the old state |
| `CpuGroup.ExecNotNeg` | arch/8086/cpu.c:5662-5938 | NOT and NEG on the core leave the outcome and state `NotNegAt` gives: the complement or the negation of the operand stored over it |
| `CpuGroup.ExecUnaryAt` | arch/8086/cpu.c:5662-5938 | the outcome and state after the call are `UnaryAt` of the old state |
| `CpuGroup.ExecIncDecGroup` | arch/8086/cpu.c:5994-6125 | the outcome and state after the call are `IncDecGroup` of the old state |
| `CpuGroup.ExecIncDecAt` | arch/8086/cpu.c:5994-6125 | the outcome and state after the call are `IncDecAt` of the old state |
| `CpuDispatch.Execute` | arch/8086/cpu.c:6136-6138 | an executor without effect completes and changes nothing; REP and HLT are left unmodelled |
| `CpuDispatch.Decode` | arch/8086/cpu.c:6127-6135 | the decoded opcode is the byte at CS:IP |
| `CpuDispatch.TableTargets` | arch/8086/cpu.c:481-738 | every executor in the table names general or segment registers, never IP or FLAGS |
| `CpuDispatch.UnassignedSlots` | arch/8086/cpu.c:481-738 | a slot has no executor exactly at the opcodes the table leaves NULL, and none of those has a parser |
| `CpuDispatch.ArithmeticRowPairs` | arch/8086/cpu.c:481-738 | the byte and word forms of every arithmetic row share operation and form and differ only in width |
| `CpuDispatch.DecodeAdvancesIp` | arch/8086/cpu.c:6127-6135 | fetching and parsing move IP past the opcode and the operand bytes of its format, and change nothing else |
| `CpuDispatch.DecodedOperandsOk` | arch/8086/cpu.c:6127-6135 | the operands a step hands to its executor point only where the parsers' tables point |
| `CpuDispatch.UnassignedOnlyFetches` | arch/8086/cpu.c:6127-6144 | a NULL slot only consumes its opcode byte |
| `CpuDispatch.ExecuteKeepsFlags` | arch/8086/cpu.c:481-738 | no executor except POPF and SAHF changes FLAGS |
| `CpuDispatch.FlagWriterSlots` | arch/8086/cpu.c:481-738 | POPF sits only at 9d and SAHF only at 9e |
| `CpuDispatch.StepKeepsFlags` | arch/8086/cpu.c:6127-6144 | a step changes FLAGS only at 9d (POPF, to the word at the stack top) and 9e (SAHF, AH into the low byte) |
| `CpuDispatch.ShiftOpcodesNeverComplete` | arch/8086/cpu.c:4918-5315 | opcodes d0-d3 never complete, and they leave the machine as the parse left it |
| `CpuDispatch.InterruptOpcodes` | arch/8086/cpu.c:4856-4904 | INT3 and INTO complete exactly when FLAGS, CS and the advanced IP are non-zero and the frame fits; then INT3 continues at 000E:000C and INTO at 0012:0010 whatever OF holds, with SP six lower |
| `CpuDispatch.InterruptStep` | arch/8086/cpu.c:6127-6144 | cc and ce run the interrupt sequence right after the opcode fetch |
| `CpuDispatch.MovImmToBhWritesDh` | arch/8086/cpu.c:4603-4613 | b7 (MOV BH, imm8) writes the immediate into DH and leaves BX alone |
| `CpuDispatch.FlagInstructionsOnlyFetch` | arch/8086/cpu.c:5940-5992 | CMC, CLC, STC, CLI, STI, CLD, STD, NOP, WAIT and LOCK only move IP past their opcode |
| `CpuDispatch.RepeatConditions` | arch/8086/cpu.c:5598-5635 | REPNE continues while CX is non-zero or ZF is clear; REPE continues exactly while CX is non-zero, whatever ZF holds |
| `CpuDispatch.RunArith` | arch/8086/cpu.c:740-2641 | the outcome and state after the call are `ExecArith` of the old state |
| `CpuDispatch.RunMove` | arch/8086/cpu.c:3707-4820 | the outcome and state after the call are `ExecMove` of the old state |
| `CpuDispatch.RunStack` | arch/8086/cpu.c:2643-2801 | the outcome and state after the call are `ExecStack` of the old state |
| `CpuDispatch.RunFlow` | arch/8086/cpu.c:5383-5547 | the outcome and state after the call are `ExecFlow` of the old state |
| `CpuDispatch.RunIo` | arch/8086/cpu.c:5453-5589 | the outcome and state after the call are `ExecIo` of the old state |
| `CpuDispatch.RunStr` | arch/8086/cpu.c:4175-4517 | the outcome and state after the call are `ExecStr` of the old state |
| `CpuDispatch.RunGroup` | arch/8086/cpu.c:3019-6125 | the outcome and state after the call are `ExecGroup` of the old state |
| `CpuDispatch.Run` | arch/8086/cpu.c:6136-6138 | the outcome and state after the call are `Execute` of the old state |
| `CpuDispatch.ExecStep` | arch/8086/cpu.c:6149-6155 | `cpu8086_proc` saves IP in `oldip` and leaves the outcome and state `Step` gives |
| `Bios.Written` | arch/8086/bios.c:147-166 | n writes give n commands, the j-th at the cursor reached after j advances, with the display's colours |
| `Bios.AdvanceByFirst` | vgui.c:129-146 | advancing j times is advancing once and then j - 1 times |
| `Bios.AdvanceByLast` | vgui.c:129-146 | advancing i + 1 times is advancing i times and then once |
| `Bios.VideoCall` | arch/8086/bios.c:105-194 | the video service never touches memory or ports, and either completes or is undefined |
| `Bios.DiskCallOf` | arch/8086/bios.c:196-310 | the disk service never touches memory or ports (transfers are returned as requests) |
| `Bios.Serve` | arch/8086/bios.c:312-336 | no service touches memory or ports |
| `Bios.Leave` | arch/8086/bios.c:96-103 | the three pops keep memory and ports |
| `Bios.HandlerSlots` | arch/8086/bios.c:27-56 | only vectors 10, 13-17 and 1A have a handler |
| `Bios.ServeKeepsStack` | arch/8086/bios.c:105-336 | no service moves SS or SP |
| `Bios.LeaveSlots` | arch/8086/bios.c:96-103 | with SS = 0 and no wrap-around, the pops take IP, CS and FLAGS from the words at SP, SP + 2 and SP + 4 and raise SP by six |
| `Bios.LeaveRaisesStack` | arch/8086/bios.c:96-103 | the three pops raise SP by six (modulo 2^16) and keep SS |
| `Bios.IvtEntry` | arch/8086/bios.c:58-85 | wherever the stack lies, the handler of vector n runs with CS = 4n + 2, IP = 4n, SP six lower (modulo 2^16) and SS kept |
| `Bios.IvtFrame` | arch/8086/bios.c:58-103 | wherever the stack lies, a completed interrupt leaves SS and SP where they were: the service keeps them and the three pops undo the three pushes |
| `Bios.IvtReturnSlots` | arch/8086/bios.c:58-103 | at a low stack with non-zero FLAGS, CS and IP the frame is built, and a completed interrupt takes IP, CS and FLAGS from the words at SP - 6, SP - 4 and SP - 2 of the memory the pushes left |
| `Bios.UnservedVector` | arch/8086/bios.c:58-85 | a vector without a handler changes only what the frame changes, and asks nothing of the display or the disk |
| `Bios.CursorRoundTrip` | arch/8086/bios.c:120-133 | setting the cursor from DX and reading it back restores DX exactly when DX is 0 |
| `Bios.CursorSetCall` | arch/8086/bios.c:120-126 | function 02 moves the cursor to (DL, DH) |
| `Bios.CursorGetCall` | arch/8086/bios.c:127-133 | function 03 sets DX to `x << 8 + y` when that is defined, and is undefined otherwise |
| `Bios.WriteCharacters` | arch/8086/bios.c:147-166 | functions 09 and 0A write AL CX times with the display's colours, move the cursor CX positions on, and change no register |
| `Bios.LbaConversion` | arch/8086/bios.c:241-259 | for sectors counted from 1, the LBA is the CHS conversion with four heads and 64 sectors; sector 0 of cylinder 0, head 0 wraps to 0xFFFFFFFF |
| `Bios.LbaRoundTrip` | arch/8086/bios.c:241-259 | within the geometry (head below 4, sector 1 to 64) the LBA determines cylinder, head and sector |
| `Bios.StatusCodes` | arch/8086/bios.c:221-239 | the status is 0 when neither the error nor the busy bit is set, 0xAA when one is and DRQ is clear, 1 otherwise; 0xCC is never returned |
| `Bios.DiskRegisters` | arch/8086/bios.c:214-279 | reset clears AH and keeps AL; a read or write keeps every register and asks for AL sectors at ES*16 + BX |
| `Bios.KeyboardReadsOldest` | arch/8086/bios.c:320-328 | AH = 0 puts the key word of the oldest queued key into AX (0 from an empty queue); any other AH changes nothing |
| `Bios.WriteChars` | arch/8086/bios.c:147-166 | the loop sends the commands `Written` gives and leaves the cursor `AfterWriting` gives |
| `Bios.ExecVideo` | arch/8086/bios.c:105-194 | the outcome, state, display and commands after the call are `VideoCall` of the old ones |
| `Bios.ExecDisk` | arch/8086/bios.c:196-310 | the state and request after the call are `DiskCallOf` of the old state |
| `Bios.ExecKeyboard` | arch/8086/bios.c:320-328 | the state and queue after the call are `KeyboardCall` of the old ones |
| `Bios.ExecServe` | arch/8086/bios.c:71-74 | the handler of the vector run on the core, the display and the key queue leaves what `Serve` gives |
| `Bios.ExecLeave` | arch/8086/bios.c:78-80 | the pops into IP, CS and FLAGS leave the state `Leave` gives |
| `Bios.ExecIvt` | arch/8086/bios.c:58-85 | `bios_ivt_exec_8086(n)` on the core, the display and the key queue leaves what `Ivt` gives |

## Left out

- REP prefixes (f2, f3) and HLT (f4): a step through them ends as `Unmodelled`. Their loop conditions are stated by `CpuDispatch.RepeatConditions`.
- The reader and display threads, the UNIX socket and shared memory of the text display, and terminal handling (`getch`, `thread_keyboard_receive`): keys reach the model only through `Keyboard.KeyPoll.Push`.
- The internals of the hard disk (`harddisk.c`) are not part of this model:
  - its status byte is a parameter;
  - sector reads and writes are returned as `Bios.DiskCall` requests, and their effect on memory is not modelled.
- The display's answer to a character query (function 08, `vgui_char`) is a parameter, `reply`.
- Diagnostic output (`vm_fprintf`, the disassembly aliases in `struct operand`) does nothing to the machine and is left out.
- A host pointer used as a guest address, and a store through address bits used as a pointer, are `Undefined`: the model does not guess host memory.
- The host is taken to be little-endian with two's-complement integers (the byte halves of a register, the `operand_un` union).
- The out- and in-handlers registered with the port table are not called: only the slot they occupy is modelled, and an in-handler's effect on the value is a parameter.
- `CpuDispatch.ExecStep`: a step whose executor falls off the end of the C function without a return is modelled as `Done`.
- The register file is a sequence of fourteen words indexed by a register name. The byte pointers of the parsers become (register, half) pairs.
- `update_flags` switches on its second argument, so it never reaches a setter with the intended flag, and the setters' values are never stored. FLAGS therefore changes only through POPF and SAHF. The arguments the executors pass are stated by the lemmas of `CpuFlags`.
- CMP reads a variable the C code never initialises on one path; there the model takes 0, since the value is only compared and thrown away.
- The values RCL and RCR compute with d0-d3 are not modelled beyond `CpuGroup.CountShift`: no path of those groups stores a value the guest can see.
- An operand record that no parser wrote is `NoOperands`; its type bytes are unknown and every executor that looks at one is undefined.
- The serial, miscellaneous, parallel and clock BIOS services do nothing in the source and do nothing here.
- The TF and IF setters in `bios_ivt_exec_8086` and the interrupt executors compute a value and store nothing, so they are left out.
- `Bios.ExecIvt` requires the memory array and the key ring to be distinct arrays; in the source they are separate objects.
- The C `assert`s are taken to be compiled in: `push`, POP DS, the interrupt sequence and `bios_ivt_exec_8086` abort on the values they assert against (a zero word). A build with `NDEBUG` would store the zero and go on; that behaviour is not modelled.
- The display calls inside the memory writes are not modelled: `vm_write_byte` calls `vgui_set_char` for even addresses in B8000..BFFFF (arch/8086/mem.c:147-158), and `vm_write_word` calls `vgui_cursor_set` and `vgui_set_char` in B8000..BFFFE (arch/8086/mem.c:193-205). Only the stores into the text adapter array are modelled.
- `main.c`, the CLI and the file utilities are outside the core.
