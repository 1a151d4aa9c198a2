# A verified model of a cycle-stepped MOS 6502 core

This project models the core of a Rust emulator of the MOS 6502 processor in Dafny:

- the processor object: its registers, its status flags, the stack on page one, the reset
  sequence and the three vectors;
- the fifteen addressing-mode resolvers;
- the 256-entry opcode table;
- the 56 documented opcodes and the undocumented ones;
- the clock: `cycle` and `execute_instruction`, which take pending interrupts at instruction
  boundaries and charge each instruction's cycles in one go.

The two cargo features that change behaviour, `binary_coded_decimal` and `illegal_opcodes`,
are a `Config` value handed to every operation that depends on them. The bus (the
`Interface6502` trait) is modelled as a RAM: a class `Ram` whose `contents` map addresses to bytes.

Files and modules:

- `cpu.dfy` (`Cpu`): bytes and words as bounded integers, and the status register as a `bv8`
  with flag masks. It also holds the stack as functions on a `Machine(cpu, mem)` value, and
  the class `MOS6502`, whose methods update its fields as the source does.
- `address_modes.dfy` (`AddressModes`): one method per resolver. Each is specified by a
  function `Resolve…` on the state and memory; lemmas give the frame and the page-crossing
  cycle of every mode.
- `opcodes.dfy` (`Opcodes`): one method per documented opcode. Each is specified by an
  `…Effect` function from the machine before to the machine after.
  `opcode_properties.dfy` (`OpcodeProperties`) proves what those effects mean: the
  arithmetic of ADC and SBC, where a branch goes, the comparison flags, and the inverse pairs
  (PHP/PLP, PHA/PLA, JSR/RTS, BRK/RTI, ROL/ROR, INX/DEX, INC/DEC, EOR twice).
- `illegal.dfy` (`IllegalOpcodes`) and `illegal_properties.dfy` (`IllegalProperties`): the
  same for the undocumented opcodes. Each combined opcode is stated in closed form over the
  state before it, and every one of them is shown to do nothing with the feature off.
- `instructions.dfy` (`Instructions`): the opcode table as `Decode`, with the mnemonics
  grouped by kind, and `Execute`, the call through the table. Lemmas cover the consistency of
  every entry and what no opcode touches.
- `engine.dfy` (`Engine`) and `engine_properties.dfy` (`EngineProperties`): `cycle` and
  `execute_instruction` as methods specified by `CycleEffect` and `InstructionEffect`.
  Lemmas cover the cycle accounting, the entry into interrupts and their return through RTI,
  a masked IRQ, and the exact conditions under which a fetch panics.

A Rust debug build panics on an overflowing `+=`, `-=` or `+` on integers. Examples are the
program counter at 0xFFFF, and `remaining_cycles -= 1` when KIL leaves no cycles to count
down. The model follows these debug-build semantics: each such panic becomes a precondition
of the member that would panic. `EngineProperties.FetchPanics` states exactly when the next
instruction runs without panicking.

Where the code and its surrounding documentation disagree, the model follows the code:

- The doc comment at src/lib.rs:189 gives the reset vector as 0xFFFA, but the code reads
  0xFFFC (src/lib.rs:110).
- Entering an interrupt sets bit 5 (`BreakIrq`) of the live status before pushing it
  (src/lib.rs:282). The model keeps that bit set afterwards.

The decimal-mode adjustment of ADC and SBC (src/opcodes/mod.rs:312-323 and 745-778) is
modelled exactly as written, including its 8-bit wrap-around, which drops the carry out of
the binary sum. For example, ADC of 0x90 and 0x90 in decimal mode gives 0x20 with the carry
clear. Only the binary mode's arithmetic is proved.

## Model

| member | source | states |
|---|---|---|
| Cpu.Ram.Read | src/lib.rs:427-429 | a bus read returns the byte the RAM holds at the address and changes nothing |
| Cpu.Ram.Write | src/lib.rs:430-431 | a bus write changes exactly the addressed byte |
| Cpu.Read16 | src/lib.rs:397-401 | reads the little-endian word at an address; requires the address below 0xFFFF, as the source's `address + 1` overflows otherwise |
| Cpu.WordAtLittleEndian | src/lib.rs:397-401 | the word read has the byte at the address as its low byte and the next byte as its high byte |
| Cpu.MOS6502.constructor | src/lib.rs:166-179 | power-on state: registers zero, stack pointer 0xFD, status 0x24, no cycles pending, no interrupts latched, program counter 0x0400 |
| Cpu.MOS6502.NewStart | src/lib.rs:182-187 | the power-on state with the given program counter |
| Cpu.MOS6502.NewResetPosition | src/lib.rs:192-197 | the power-on state with the program counter read from the reset vector 0xFFFC |
| Cpu.MOS6502.SetProgramCounter | src/lib.rs:200-202 | only the program counter changes, to the given value |
| Cpu.MOS6502.SetFlag | src/lib.rs:358-365 | only the status changes, with the flag's bits set or cleared as asked |
| Cpu.WithFlagSpec | src/lib.rs:358-365 | after setting a flag, reading it gives the value set, and every bit outside its mask is kept |
| Cpu.WithFlagOther | src/lib.rs:358-370 | setting one flag leaves the reading of every disjoint flag unchanged |
| Cpu.MOS6502.PushStack | src/lib.rs:333-336 | writes the byte at 0x0100 plus the stack pointer, then decrements the pointer with wrap-around |
| Cpu.MOS6502.PushStack16 | src/lib.rs:339-342 | pushes the high byte, then the low byte |
| Cpu.MOS6502.PopStack | src/lib.rs:345-348 | increments the stack pointer with wrap-around, then reads the byte it points at; memory is unchanged |
| Cpu.MOS6502.PopStack16 | src/lib.rs:351-355 | pops the low byte, then the high byte, and joins them |
| Cpu.PushThenPop | src/lib.rs:333-348 | a pop right after a push returns the pushed byte and restores the processor state |
| Cpu.Push16ThenPop16 | src/lib.rs:339-355 | a 16-bit pop right after a 16-bit push returns the word and restores the processor state |
| Cpu.PushFrame | src/lib.rs:333-336 | a push changes no byte outside the stack page and moves the stack pointer one slot down |
| Cpu.MOS6502.InterruptRequest | src/lib.rs:373-375 | latches an IRQ and changes nothing else |
| Cpu.MOS6502.NonMaskableInterruptRequest | src/lib.rs:378-380 | latches an NMI and changes nothing else |
| Cpu.MOS6502.Reset | src/lib.rs:383-393 | the program counter comes from the reset vector; A, X and Y are cleared; the stack pointer becomes 0xFD and the status 0x34; eight cycles are charged; the cycle total and the latches are kept |
| AddressModes.Absolute | src/address_modes.rs:12-16 | returns the little-endian word after the opcode and moves the program counter past it |
| AddressModes.AbsoluteX | src/address_modes.rs:19-32 | returns the operand word plus X, which must stay at or below 0xFFFF because the source's `+` panics otherwise, and charges one cycle when that crosses a page |
| AddressModes.AbsoluteXConst | src/address_modes.rs:37-43 | the same address as Absolute,X, never charging a cycle |
| AddressModes.AbsoluteY | src/address_modes.rs:46-59 | returns the operand word plus Y, wrapping at 0x10000, and charges one cycle when that crosses a page |
| AddressModes.AbsoluteYConst | src/address_modes.rs:64-70 | the same address as Absolute,Y, never charging a cycle |
| AddressModes.Immediate | src/address_modes.rs:73-78 | returns the address of the operand byte itself and moves the program counter past it |
| AddressModes.ImpliedMode | src/address_modes.rs:81-83 | yields the implied value and changes nothing |
| AddressModes.Indirect | src/address_modes.rs:86-95 | returns the word at the operand pointer, with the page-boundary behaviour of JMP (indirect) |
| AddressModes.IndirectX | src/address_modes.rs:98-107 | returns the word at page-zero address operand plus X, both bytes read within page zero |
| AddressModes.IndirectY | src/address_modes.rs:110-125 | returns the page-zero word at the operand plus Y, charging one cycle when that crosses a page |
| AddressModes.IndirectYConst | src/address_modes.rs:130-138 | the same address as (Indirect),Y, never charging a cycle |
| AddressModes.Relative | src/address_modes.rs:141-145 | returns the operand byte as an offset and moves the program counter past it |
| AddressModes.ZeroPage | src/address_modes.rs:148-152 | returns the page-zero address the operand names |
| AddressModes.ZeroPageX | src/address_modes.rs:156-160 | returns the operand plus X, wrapping within page zero |
| AddressModes.ZeroPageY | src/address_modes.rs:164-168 | returns the operand plus Y, wrapping within page zero |
| AddressModes.FindAddress | src/opcodes/mod.rs:32-34 | runs the resolver of the entry's mode |
| AddressModes.ResolveFrame | src/address_modes.rs:12-168 | every resolver moves the program counter past exactly its operand bytes and changes no register, flag or latch; it charges at most one cycle, and only in the three page-crossing modes |
| AddressModes.ResolveValueShape | src/address_modes.rs:172-176 | only the implied mode yields the implied value; only the relative mode yields an offset; every other mode yields an address |
| AddressModes.PageCrossIsLowByteCarry | src/address_modes.rs:19-32 | indexing crosses a page exactly when the index carries out of the base's low byte |
| AddressModes.AbsoluteXExtraCycle | src/address_modes.rs:19-32 | Absolute,X charges its extra cycle exactly when the operand's low byte plus X reaches 0x100 |
| AddressModes.AbsoluteYExtraCycle | src/address_modes.rs:46-59 | Absolute,Y charges its extra cycle exactly when the operand's low byte plus Y reaches 0x100 |
| AddressModes.IndirectYExtraCycle | src/address_modes.rs:110-125 | (Indirect),Y charges its extra cycle exactly when the pointer's low byte plus Y reaches 0x100 |
| AddressModes.ConstVariantsAgree | src/address_modes.rs:37-138 | each constant-time variant yields the same address and program counter as its page-crossing mode, without the extra cycle |
| AddressModes.IndirectPageBoundary | src/address_modes.rs:86-95 | a pointer not ending in 0xFF is read little-endian; one ending in 0xFF takes its high byte from the start of the same page |
| AddressModes.ZeroPageStaysOnPageZero | src/address_modes.rs:148-168 | the zero-page modes address page zero, at the operand plus the index modulo 256 |
| AddressModes.IndirectXWrapsInZeroPage | src/address_modes.rs:98-107 | both pointer bytes of (Indirect,X) come from page zero, the second following the first with 0xFF followed by 0x00 |
| Opcodes.SignExtend | src/opcodes/mod.rs:865-871 | the 16-bit word read as a signed number equals the offset byte read as a signed number |
| Opcodes.AddWithCarry | src/opcodes/mod.rs:312-328 | the sum (or difference) and carry out ADC and SBC compute, in binary or decimal mode as the feature and the D flag select; nothing changes |
| Opcodes.Adc | src/opcodes/mod.rs:305-338 | ADC's new accumulator and flags (meaning in OpcodeProperties.AdcBinary); nothing else changes |
| Opcodes.And | src/opcodes/mod.rs:342-352 | A becomes `A & M`, with Z and N from it (OpcodeProperties.LogicMeaning) |
| Opcodes.Asl | src/opcodes/mod.rs:355-376 | shifts A or the addressed byte left (OpcodeProperties.ShiftedArithmetic, ShiftTargets) |
| Opcodes.Branch | src/opcodes/mod.rs:874-889 | a branch: moves the program counter by the signed offset when the condition holds, charging one or two cycles (OpcodeProperties.BranchMeaning) |
| Opcodes.Bcc | src/opcodes/mod.rs:379-381 | branches when C is clear |
| Opcodes.Bcs | src/opcodes/mod.rs:384-386 | branches when C is set |
| Opcodes.Beq | src/opcodes/mod.rs:389-391 | branches when Z is set |
| Opcodes.Bit | src/opcodes/mod.rs:394-403 | sets Z, V and N from `A & M` and M (OpcodeProperties.BitMeaning) |
| Opcodes.Bmi | src/opcodes/mod.rs:406-408 | branches when N is set |
| Opcodes.Bne | src/opcodes/mod.rs:411-413 | branches when Z is clear |
| Opcodes.Bpl | src/opcodes/mod.rs:416-418 | branches when N is clear |
| Opcodes.Brk | src/opcodes/mod.rs:421-428 | pushes the return address and the status with both Break bits, sets I, and jumps through the IRQ vector (OpcodeProperties.BrkThenRti) |
| Opcodes.Bvc | src/opcodes/mod.rs:431-433 | branches when V is clear |
| Opcodes.Bvs | src/opcodes/mod.rs:436-438 | branches when V is set |
| Opcodes.Clc | src/opcodes/mod.rs:441-443 | clears C; nothing else changes |
| Opcodes.Cld | src/opcodes/mod.rs:446-448 | clears D; nothing else changes |
| Opcodes.Cli | src/opcodes/mod.rs:451-453 | clears I; nothing else changes |
| Opcodes.Clv | src/opcodes/mod.rs:456-458 | clears V; nothing else changes |
| Opcodes.Compare | src/opcodes/mod.rs:892-903 | returns the register minus M modulo 256 and sets C, Z and N as a comparison (OpcodeProperties.CompareMeaning) |
| Opcodes.Cmp | src/opcodes/mod.rs:461-463 | compares A with M |
| Opcodes.Cpx | src/opcodes/mod.rs:466-468 | compares X with M |
| Opcodes.Cpy | src/opcodes/mod.rs:471-473 | compares Y with M |
| Opcodes.Dec | src/opcodes/mod.rs:476-485 | decrements the addressed byte, with Z and N from it |
| Opcodes.Dex | src/opcodes/mod.rs:488-496 | decrements X with wrap-around, with Z and N from it |
| Opcodes.Dey | src/opcodes/mod.rs:499-507 | decrements Y with wrap-around, with Z and N from it |
| Opcodes.Eor | src/opcodes/mod.rs:510-520 | A becomes `A ^ M`, with Z and N from it |
| Opcodes.Inc | src/opcodes/mod.rs:523-532 | increments the addressed byte, with Z and N from it |
| Opcodes.Inx | src/opcodes/mod.rs:535-543 | increments X with wrap-around, with Z and N from it |
| Opcodes.Iny | src/opcodes/mod.rs:546-554 | increments Y with wrap-around, with Z and N from it |
| Opcodes.Jmp | src/opcodes/mod.rs:557-563 | the program counter becomes the resolved address |
| Opcodes.Jsr | src/opcodes/mod.rs:566-573 | pushes the address of JSR's last byte and jumps (OpcodeProperties.JsrThenRts) |
| Opcodes.Lda | src/opcodes/mod.rs:577-585 | A takes M, with Z and N from it |
| Opcodes.Ldx | src/opcodes/mod.rs:588-596 | X takes M, with Z and N from it |
| Opcodes.Ldy | src/opcodes/mod.rs:599-607 | Y takes M, with Z and N from it |
| Opcodes.Lsr | src/opcodes/mod.rs:610-631 | shifts A or the addressed byte right (OpcodeProperties.ShiftRightFlags) |
| Opcodes.Nop | src/opcodes/mod.rs:634-635 | changes nothing |
| Opcodes.Ora | src/opcodes/mod.rs:638-648 | A becomes `A \| M`, with Z and N from it |
| Opcodes.Pha | src/opcodes/mod.rs:651-653 | pushes A |
| Opcodes.Php | src/opcodes/mod.rs:656-660 | pushes the status with bits 4 and 5 set (OpcodeProperties.PhpPushesBreak) |
| Opcodes.Pla | src/opcodes/mod.rs:663-667 | pops A, with Z and N from it |
| Opcodes.Plp | src/opcodes/mod.rs:670-674 | pops the status, keeping the live Break bits (OpcodeProperties.PulledStatusBits) |
| Opcodes.Rol | src/opcodes/mod.rs:677-699 | rotates A or the addressed byte left through the carry |
| Opcodes.Ror | src/opcodes/mod.rs:702-724 | rotates A or the addressed byte right through the carry |
| Opcodes.Rti | src/opcodes/mod.rs:727-731 | pops the status as PLP does, then the program counter (OpcodeProperties.RtiPops) |
| Opcodes.Rts | src/opcodes/mod.rs:734-740 | pops the program counter and adds one |
| Opcodes.Sbc | src/opcodes/mod.rs:745-778 | SBC's new accumulator and flags (meaning in OpcodeProperties.SbcBinary) |
| Opcodes.Sec | src/opcodes/mod.rs:781-783 | sets C; nothing else changes |
| Opcodes.Sed | src/opcodes/mod.rs:786-788 | sets D; nothing else changes |
| Opcodes.Sei | src/opcodes/mod.rs:791-793 | sets I; nothing else changes |
| Opcodes.Sta | src/opcodes/mod.rs:796-802 | writes A at the address (OpcodeProperties.StoreMeaning) |
| Opcodes.Stx | src/opcodes/mod.rs:805-811 | writes X at the address |
| Opcodes.Sty | src/opcodes/mod.rs:814-820 | writes Y at the address |
| Opcodes.Tax | src/opcodes/mod.rs:823-827 | X takes A, with Z and N from it |
| Opcodes.Tay | src/opcodes/mod.rs:830-834 | Y takes A, with Z and N from it |
| Opcodes.Tsx | src/opcodes/mod.rs:837-841 | X takes the stack pointer, with Z and N from it |
| Opcodes.Txa | src/opcodes/mod.rs:844-848 | A takes X, with Z and N from it |
| Opcodes.Txs | src/opcodes/mod.rs:851-853 | the stack pointer takes X; no flag changes |
| Opcodes.Tya | src/opcodes/mod.rs:856-860 | A takes Y, with Z and N from it |
| OpcodeProperties.CarryZeroOverflowNegative | src/opcodes/mod.rs:305-338 | C, Z, V and N set in the order ADC sets them read back as set, and bits 2 to 5 are kept |
| OpcodeProperties.CarryZeroNegative | src/opcodes/mod.rs:892-903 | C, Z and N set in the order of a comparison read back as set, and V and bits 2 to 5 are kept |
| OpcodeProperties.CarryNegativeZero | src/opcodes/mod.rs:355-376 | C, N and Z set in the order of ASL read back as set, and V and bits 2 to 5 are kept |
| OpcodeProperties.ZeroNegative | src/opcodes/mod.rs:577-585 | after setting Z and N from a byte, Z says the byte is zero, N is its bit 7, and every other bit is kept |
| OpcodeProperties.ArithmeticFlags | src/opcodes/mod.rs:305-338 | ADC and SBC leave C as the carry out, Z and N from the result, and V from the signed overflow of the result; every other bit is kept |
| OpcodeProperties.AdcBinary | src/opcodes/mod.rs:305-338 | in binary mode, the new A plus 256 times the new C equals A + M + C; V says the signed sum left -128..127; memory and the other registers are unchanged |
| OpcodeProperties.SbcBinary | src/opcodes/mod.rs:745-778 | in binary mode, the new A is A - M - (1 - C) modulo 256; C says no borrow was needed; V says the signed difference left -128..127 |
| OpcodeProperties.SbcIsAdcOfComplement | src/opcodes/mod.rs:745-778 | in binary mode, SBC of M is ADC of `!M`, with the same result and the same flags |
| OpcodeProperties.BranchMeaning | src/opcodes/mod.rs:874-889 | a branch not taken changes nothing; a taken one moves the program counter by the signed offset modulo 2^16 and charges one cycle, or two when it lands on another page |
| OpcodeProperties.CompareMeaning | src/opcodes/mod.rs:892-903 | C is set iff the register is at least M; Z iff they are equal; N is bit 7 of their difference; V is kept; adding M back to the difference gives the register |
| OpcodeProperties.PulledStatusBits | src/opcodes/mod.rs:670-674 | PLP keeps the live Break bits and takes every other bit from the popped byte |
| OpcodeProperties.PhpPushesBreak | src/opcodes/mod.rs:656-660 | PHP pushes the status with bits 4 and 5 set, and the live status is unchanged |
| OpcodeProperties.PhpThenPlp | src/opcodes/mod.rs:656-674 | PLP right after PHP restores the processor state |
| OpcodeProperties.PhaThenPla | src/opcodes/mod.rs:651-667 | PLA right after PHA restores A and the stack pointer, with Z and N describing A |
| OpcodeProperties.JsrThenRts | src/opcodes/mod.rs:566-573 | RTS right after JSR returns to the byte after the JSR instruction with the stack pointer JSR found |
| OpcodeProperties.BrkStatus | src/opcodes/mod.rs:421-428 | BRK sets both Break bits and I, and RTI's status rule gives back the status with both Break bits set |
| OpcodeProperties.BrkThenRti | src/opcodes/mod.rs:421-428 | BRK jumps through the IRQ vector with I set; a following RTI returns past BRK's padding byte, with the stack pointer restored and the status as before plus bits 4 and 5 |
| OpcodeProperties.RtiPops | src/opcodes/mod.rs:727-731 | RTI on a stack holding a status byte, then the low and high return bytes, restores exactly those |
| OpcodeProperties.ShiftedFlags | src/opcodes/mod.rs:355-376 | the carry out of a shift is bit 7 of the operand for ASL and ROL and bit 0 for LSR and ROR; Z describes the result, N is its bit 7 except after LSR, and V is kept |
| OpcodeProperties.ShiftRightFlags | src/opcodes/mod.rs:610-631 | LSR takes C from bit 0, sets Z from the result and clears N |
| OpcodeProperties.DoublingShiftFlags | src/opcodes/mod.rs:677-699 | ASL, ROL and ROR take C from the bit shifted out, then N and Z from the result |
| OpcodeProperties.ShiftedArithmetic | src/opcodes/mod.rs:355-376 | ASL doubles the operand into the result and carry; LSR halves it; ROL and ROR do the same through the old carry |
| OpcodeProperties.RolThenRor | src/opcodes/mod.rs:677-724 | ROR after ROL gives the byte and the carry back |
| OpcodeProperties.RorThenRol | src/opcodes/mod.rs:677-724 | ROL after ROR gives the byte and the carry back |
| OpcodeProperties.ShiftTargets | src/opcodes/mod.rs:610-631 | a shift of the accumulator leaves memory alone; a shift of memory changes only the addressed byte and, of the registers, only the status |
| OpcodeProperties.InxThenDex | src/opcodes/mod.rs:535-543 | DEX after INX, and DEY after INY, restore the register, with Z and N describing it |
| OpcodeProperties.IncThenDec | src/opcodes/mod.rs:523-532 | INC adds one modulo 256 to the addressed byte, and DEC after INC restores every byte of memory |
| OpcodeProperties.EorTwice | src/opcodes/mod.rs:510-520 | EOR with the same operand twice restores A |
| OpcodeProperties.LogicMeaning | src/opcodes/mod.rs:342-352 | AND, ORA and EOR put the combined byte in A with Z and N from it, change only A and the status, and AND never exceeds either input |
| OpcodeProperties.BitMeaning | src/opcodes/mod.rs:394-403 | BIT sets Z iff `A & M` is zero and copies bits 6 and 7 of M into V and N; no register changes |
| OpcodeProperties.LoadsSetZeroAndNegative | src/opcodes/mod.rs:577-607 | LDA, LDX and LDY put M in their register with Z and N describing it; nothing else changes |
| OpcodeProperties.StoreMeaning | src/opcodes/mod.rs:796-802 | a store writes the register at the address, changes no other byte and no register |
| IllegalOpcodes.Slo | src/opcodes/illegal.rs:8-15 | ASL of the addressed byte, then ORA of it (IllegalProperties.SloClosedForm) |
| IllegalOpcodes.Rla | src/opcodes/illegal.rs:18-25 | ROL of the addressed byte, then AND of it |
| IllegalOpcodes.Sre | src/opcodes/illegal.rs:28-35 | LSR of the addressed byte, then EOR of it |
| IllegalOpcodes.Rra | src/opcodes/illegal.rs:38-45 | ROR of the addressed byte, then ADC of it |
| IllegalOpcodes.Sax | src/opcodes/illegal.rs:48-58 | writes `A & X` at the address |
| IllegalOpcodes.Lax | src/opcodes/illegal.rs:61-68 | LDA, then LDX of the same byte |
| IllegalOpcodes.Dcp | src/opcodes/illegal.rs:71-78 | DEC of the addressed byte, then CMP against it |
| IllegalOpcodes.Isc | src/opcodes/illegal.rs:81-88 | INC of the addressed byte, then SBC of it |
| IllegalOpcodes.Anc | src/opcodes/illegal.rs:90-97 | AND, then C takes bit 7 of A |
| IllegalOpcodes.Alr | src/opcodes/illegal.rs:100-107 | AND, then LSR of A |
| IllegalOpcodes.Arr | src/opcodes/illegal.rs:113-132 | AND, V as ADC would set it, then ROR of A with bit 0 cleared first |
| IllegalOpcodes.Xaa | src/opcodes/illegal.rs:135-142 | TXA, then AND |
| IllegalOpcodes.Axs | src/opcodes/illegal.rs:145-152 | X becomes `(A & X) - M` with the flags of comparing `A & X` against M |
| IllegalOpcodes.Ahx | src/opcodes/illegal.rs:155-165 | writes `A & X & H` at the address, H its high byte |
| IllegalOpcodes.Shy | src/opcodes/illegal.rs:168-178 | writes `Y & H` at the address |
| IllegalOpcodes.Shx | src/opcodes/illegal.rs:181-191 | writes `X & H` at the address |
| IllegalOpcodes.Tas | src/opcodes/illegal.rs:194-201 | the stack pointer becomes `A & X`, then AHX |
| IllegalOpcodes.Las | src/opcodes/illegal.rs:204-219 | A, X and the stack pointer all take `M & SP`, with Z and N from it |
| IllegalOpcodes.Kil | src/opcodes/illegal.rs:222-229 | with the feature off, changes nothing; with it on, the source panics, so the method requires the feature off |
| IllegalProperties.FeatureOffIsNoOp | src/opcodes/illegal.rs:8-219 | with the `illegal_opcodes` feature off, every undocumented opcode leaves processor and memory as they were |
| IllegalProperties.ShiftThenLogic | src/opcodes/illegal.rs:8-35 | SLO, RLA and SRE leave the shifted byte in memory and A combined with it; C is the bit shifted out; Z and N describe A; only A and the status change |
| IllegalProperties.SloClosedForm | src/opcodes/illegal.rs:8-15 | SLO: M is shifted left, A becomes `A \| (M << 1)`, C is bit 7 of M, and Z/N follow the new A; no other register and no other memory byte changes |
| IllegalProperties.RlaClosedForm | src/opcodes/illegal.rs:18-25 | RLA: M is rotated left through the carry, A becomes A AND the rotated byte, C is bit 7 of M, and Z/N follow the new A; no other register and no other memory byte changes |
| IllegalProperties.SreClosedForm | src/opcodes/illegal.rs:28-35 | SRE: M is halved, A becomes `A ^ (M >> 1)`, C is bit 0 of M, and Z/N follow the new A; no other register and no other memory byte changes |
| IllegalProperties.RraBinary | src/opcodes/illegal.rs:38-45 | RRA in binary mode: M is rotated right through the carry, and the new A plus 256 times the new C equals A + the rotated byte + bit 0 of M |
| IllegalProperties.LaxClosedForm | src/opcodes/illegal.rs:61-68 | LAX: A and X both take M, with Z and N from it; nothing else changes |
| IllegalProperties.DcpClosedForm | src/opcodes/illegal.rs:71-78 | DCP: M is decremented; C is set iff A is at least the decremented byte, Z iff they are equal, and N is bit 7 of their difference; only the status changes among the registers, and no other memory byte changes |
| IllegalProperties.IscBinary | src/opcodes/illegal.rs:81-88 | ISC in binary mode: M is incremented, then subtracted from A with borrow; C says no borrow was needed; Z and N describe the new A; V says the signed difference left -128..127; only A, the status and the incremented byte change |
| IllegalProperties.AncClosedForm | src/opcodes/illegal.rs:90-97 | ANC: A becomes `A & M`, and C, like N, is bit 7 of it |
| IllegalProperties.AlrClosedForm | src/opcodes/illegal.rs:100-107 | ALR: A becomes `(A & M) >> 1`, C is bit 0 of `A & M`, and N is cleared |
| IllegalProperties.ArrClosedForm | src/opcodes/illegal.rs:113-132 | ARR: A becomes `(A & M) >> 1` with the old carry in bit 7; C always ends clear; V is ADC's overflow of `A & M` and M |
| IllegalProperties.XaaClosedForm | src/opcodes/illegal.rs:135-142 | XAA: A becomes `X & M`, with Z and N from it |
| IllegalProperties.AxsClosedForm | src/opcodes/illegal.rs:145-152 | AXS: X becomes `(A & X) - M` modulo 256; C, Z and N compare `A & X` with M |
| IllegalProperties.LasClosedForm | src/opcodes/illegal.rs:204-219 | LAS: A, X and the stack pointer take `M & SP`, which is no more than either the old pointer or M |
| IllegalProperties.IllegalStores | src/opcodes/illegal.rs:48-201 | SAX, AHX, SHX and SHY write `A & X`, `A & X & H`, `X & H` and `Y & H` and change no register; TAS also sets the stack pointer to `A & X` |
| Instructions.Decode | src/opcodes/mod.rs:45-302 | the 256-entry opcode table: KIL sits exactly at 0x02, 0x12, ..., 0x72, 0x92, 0xB2, 0xD2 and 0xF2; those are the only entries without base cycles; every other entry charges two to eight |
| Instructions.TableEntries | src/opcodes/mod.rs:45-302 | every table entry is consistent: only KIL has zero cycles and it is implied; every other entry takes two to eight; each entry's mode yields an operand its opcode function accepts |
| Instructions.EffectFrame | src/opcodes/mod.rs:27-29 | no opcode touches the cycle total or the interrupt latches; only a taken branch charges cycles, one or two |
| Instructions.SuitingModeFits | src/opcodes/mod.rs:32-34 | a mode that suits an operand kind yields only values of that kind |
| Instructions.IllegalOffIsNoOp | src/opcodes/mod.rs:27-29 | with the feature off, every undocumented opcode in the table can run and does nothing |
| Instructions.Execute | src/opcodes/mod.rs:27-29 | runs the opcode function of the entry's mnemonic |
| Instructions.ExecuteBranch | src/opcodes/mod.rs:379-438 | runs the branch of the mnemonic on the flag it tests |
| Engine.Cycle | src/lib.rs:277-322 | one clock cycle: at a boundary, take a due interrupt or fetch and run the next instruction; then move one cycle from remaining to total |
| Engine.TakeInterrupt | src/lib.rs:279-296 | pushes the program counter and the status with bit 5 set, sets I, jumps through the NMI vector (8 cycles) or the IRQ vector (7), and clears both latches |
| Engine.StartInstruction | src/lib.rs:297-317 | decodes the byte at the program counter, steps past it, and runs the entry |
| Engine.RunEntry | src/lib.rs:301-317 | resolves the operand, executes the opcode, and adds the entry's base cycles |
| Engine.ExecuteInstruction | src/lib.rs:325-330 | runs cycles until none remain, ending on an instruction boundary |
| EngineProperties.MidInstruction | src/lib.rs:277-322 | a cycle in the middle of an instruction can always run and only moves one cycle from remaining to total |
| EngineProperties.FetchCharges | src/lib.rs:297-317 | a fetched instruction charges exactly its base cycles, plus the resolver's page-crossing cycle (at most one, only in a mode that charges it), plus one or two for a taken branch (two onto another page); branches never pay a page-crossing cycle, so the charge is at most two above the base; the total and the latches are unchanged |
| EngineProperties.InstructionCycles | src/lib.rs:325-330 | `execute_instruction` ends with no cycles left, having spent the rest of the current instruction, 8 for an NMI, 7 for an IRQ, or exactly the cycles the fetched instruction charged |
| EngineProperties.InterruptStatus | src/lib.rs:281-284 | entering an interrupt sets bit 5 and I, and RTI's status rule gives back the status with bit 5 set |
| EngineProperties.InterruptRegisters | src/lib.rs:279-296 | entering an interrupt moves the stack pointer three slots down, sets bit 5 and I, jumps through the vector as memory held it, charges 8 or 7 cycles, clears both latches and changes no other register |
| EngineProperties.InterruptPushes | src/lib.rs:281-283 | entering an interrupt writes the return address high byte, then low byte, then the status with bit 5 set, down the stack page |
| EngineProperties.InterruptCycle | src/lib.rs:279-296 | at a boundary with an interrupt due, the cycle enters it, NMI before IRQ, clearing both latches and leaving 7 (NMI) or 6 (IRQ) cycles to run |
| EngineProperties.InterruptThenRti | src/lib.rs:279-296 | RTI at the start of a handler returns to the interrupted instruction with every register as it was, the status keeping bit 5 |
| EngineProperties.MaskedIrqWaits | src/lib.rs:279 | with I set and no NMI, a pending IRQ is not taken: the cycle is the fetch and run of the instruction at the program counter, followed by the count-down, and the IRQ stays latched |
| EngineProperties.FetchPanics | src/lib.rs:297-321 | at a boundary, the next instruction runs without panicking exactly when the program counter is below 0xFFFF, its resolver and opcode function stay within their non-wrapping arithmetic, and it is not KIL |
| EngineProperties.KilHalts | src/lib.rs:320 | KIL never completes a cycle: with the feature on it panics, and with it off the cycle count underflows |

## Left out

- Logging: the `trace!`, `warn!` and `error!` output and the instruction names (`get_name`) have no effect on the machine.
- The `implementation_transparency` getters (src/lib.rs:205-275) only read fields, and the model's fields are public.
- The `Interface6502` bus is modelled as plain RAM. A memory-mapped device, whose reads could have side effects or return different values, is not modelled.
- Release builds, where the overflowing `+=` and `+` wrap instead of panicking, are not modelled. The model follows debug-build semantics, with each panic as a precondition.
- `total_cycles` is a `u64` in the source and an unbounded `nat` here. The model does not capture its overflow after 2^64 cycles.
- The `Instruction` struct's `function` and `address_mode` pointers are modelled as the `Mnemonic` and `AddressMode` datatypes, and the call through them as `Instructions.Execute` and `AddressModes.FindAddress`.
- Opcodes.Adc and Opcodes.Sbc: the decimal-mode results are modelled as the code computes them; what they mean is proved only for binary mode (`AdcBinary`, `SbcBinary`), since the code's decimal adjustment does not compute a decimal sum for every input.
- IllegalProperties.RraBinary and IllegalProperties.IscBinary: likewise proved only outside decimal mode.
