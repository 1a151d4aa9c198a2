/*
 * The addressing modes (src/address_modes.rs). Each resolver runs before an opcode: it reads
 * its operand bytes at the program counter, advances the program counter past them, may add
 * one cycle for a page crossing, and yields the value the opcode works on.
 */
module AddressModes {
  import opened Cpu

  /** What a resolver hands to the opcode. */
  datatype AddressModeValue = Implied | RelativeAddress(offset: Byte) | AbsoluteAddress(address: Word)

  /** The fifteen resolvers, in conventional 6502 notation. */
  datatype AddressMode =
    | Abs | AbsX | AbsXConst | AbsY | AbsYConst
    | Imm | Impl | Ind | IndX | IndY | IndYConst
    | Rel | Zp | ZpX | ZpY

  /** The modes whose indexing costs an extra cycle when it crosses a page. */
  predicate ChargesPageCrossing(mode: AddressMode)
  {
    mode == AbsX || mode == AbsY || mode == IndY
  }

  /** Number of operand bytes that follow the opcode byte. */
  function OperandLength(mode: AddressMode): nat
  {
    match mode
    case Impl => 0
    case Abs | AbsX | AbsXConst | AbsY | AbsYConst | Ind => 2
    case Imm | IndX | IndY | IndYConst | Rel | Zp | ZpX | ZpY => 1
  }

  /** One extra cycle when `address` lies on another page than `base`. */
  function PageCrossCycles(base: Word, address: Word): (c: int)
    ensures 0 <= c <= 1
  {
    if Page(address) != Page(base) then 1 else 0
  }

  /**
   * Address of the high byte of an Indirect target, `page | ((pointer + 1) & 0xff)`: the low
   * byte of the pointer is incremented without carrying into its page, reproducing the 6502's
   * JMP ($xxFF) defect. The source's `pointer + 1` is not wrapping.
   */
  function IndirectHighByteAddress(pointer: Word): Word
    requires pointer < 0xFFFF
  {
    Page(pointer) * 0x100 + Inc8(Lo(pointer))
  }

  /** The target of an (Indirect,X) operand `zp`: a pointer read from page zero at `zp + x`. */
  function IndexedIndirect(mem: Memory, zp: Byte, x: Byte): Word
  {
    Join(Load(mem, ZeroPageAddress(zp, x)), Load(mem, ZeroPageAddress(Add8(zp, x), 1)))
  }

  /** The un-indexed address of an (Indirect),Y operand `zp`: a pointer read from page zero. */
  function ZeroPagePointer(mem: Memory, zp: Byte): Word
  {
    Join(Load(mem, zp), Load(mem, ZeroPageAddress(zp, 1)))
  }

  /** A charge of `cycles` more keeps the `u8` counter from overflowing. */
  predicate RoomFor(s: CpuState, cycles: int)
  {
    s.remaining + cycles < 0x100
  }

  /**
   * When a resolver runs without a panic in the source: every `+=` on the program counter,
   * on `remaining_cycles` and on the X-indexed address is a non-wrapping addition.
   */
  predicate CanResolve(mode: AddressMode, s: CpuState, mem: Memory)
  {
    match mode
    case Impl => true
    case Abs | AbsYConst => s.pc <= 0xFFFD
    case AbsXConst => CanResolveAbsoluteXConst(s, mem)
    case AbsX => CanResolveAbsoluteX(s, mem)
    case AbsY => CanResolveAbsoluteY(s, mem)
    case Ind => CanResolveIndirect(s, mem)
    case IndY => CanResolveIndirectY(s, mem)
    case Imm | IndX | IndYConst | Rel | Zp | ZpX | ZpY => s.pc <= 0xFFFE
  }

  predicate CanResolveAbsoluteXConst(s: CpuState, mem: Memory)
  {
    s.pc <= 0xFFFD && WordAt(mem, s.pc) + s.x <= 0xFFFF
  }

  predicate CanResolveAbsoluteX(s: CpuState, mem: Memory)
  {
    CanResolveAbsoluteXConst(s, mem)
    && RoomFor(s, PageCrossCycles(WordAt(mem, s.pc), WordAt(mem, s.pc) + s.x))
  }

  predicate CanResolveAbsoluteY(s: CpuState, mem: Memory)
  {
    s.pc <= 0xFFFD && RoomFor(s, PageCrossCycles(WordAt(mem, s.pc), Add16(WordAt(mem, s.pc), s.y)))
  }

  predicate CanResolveIndirect(s: CpuState, mem: Memory)
  {
    s.pc <= 0xFFFD && WordAt(mem, s.pc) < 0xFFFF
  }

  predicate CanResolveIndirectY(s: CpuState, mem: Memory)
  {
    s.pc <= 0xFFFE
    && var base := ZeroPagePointer(mem, Load(mem, s.pc));
    RoomFor(s, PageCrossCycles(base, Add16(base, s.y)))
  }

  /** The value a resolver yields and the processor state after it. */
  function Resolve(mode: AddressMode, s: CpuState, mem: Memory): (AddressModeValue, CpuState)
    requires CanResolve(mode, s, mem)
  {
    match mode
    case Abs => ResolveAbsolute(s, mem)
    case AbsX => ResolveAbsoluteX(s, mem)
    case AbsXConst => ResolveAbsoluteXConst(s, mem)
    case AbsY => ResolveAbsoluteY(s, mem)
    case AbsYConst => ResolveAbsoluteYConst(s, mem)
    case Imm => ResolveImmediate(s)
    case Impl => (Implied, s)
    case Ind => ResolveIndirect(s, mem)
    case IndX => ResolveIndirectX(s, mem)
    case IndY => ResolveIndirectY(s, mem)
    case IndYConst => ResolveIndirectYConst(s, mem)
    case Rel => ResolveRelative(s, mem)
    case Zp => ResolveZeroPage(s, mem)
    case ZpX => ResolveZeroPageX(s, mem)
    case ZpY => ResolveZeroPageY(s, mem)
  }

  function ResolveAbsolute(s: CpuState, mem: Memory): (AddressModeValue, CpuState)
    requires s.pc <= 0xFFFD
  {
    (AbsoluteAddress(WordAt(mem, s.pc)), s.(pc := s.pc + 2))
  }

  function ResolveAbsoluteX(s: CpuState, mem: Memory): (AddressModeValue, CpuState)
    requires CanResolveAbsoluteX(s, mem)
  {
    var base := WordAt(mem, s.pc);
    var address := base + s.x;
    (AbsoluteAddress(address), s.(remaining := s.remaining + PageCrossCycles(base, address), pc := s.pc + 2))
  }

  function ResolveAbsoluteXConst(s: CpuState, mem: Memory): (AddressModeValue, CpuState)
    requires CanResolveAbsoluteXConst(s, mem)
  {
    (AbsoluteAddress(WordAt(mem, s.pc) + s.x), s.(pc := s.pc + 2))
  }

  function ResolveAbsoluteY(s: CpuState, mem: Memory): (AddressModeValue, CpuState)
    requires CanResolveAbsoluteY(s, mem)
  {
    var base := WordAt(mem, s.pc);
    var address := Add16(base, s.y);
    (AbsoluteAddress(address), s.(remaining := s.remaining + PageCrossCycles(base, address), pc := s.pc + 2))
  }

  function ResolveAbsoluteYConst(s: CpuState, mem: Memory): (AddressModeValue, CpuState)
    requires s.pc <= 0xFFFD
  {
    (AbsoluteAddress(Add16(WordAt(mem, s.pc), s.y)), s.(pc := s.pc + 2))
  }

  function ResolveImmediate(s: CpuState): (AddressModeValue, CpuState)
    requires s.pc <= 0xFFFE
  {
    (AbsoluteAddress(s.pc), s.(pc := s.pc + 1))
  }

  function ResolveIndirect(s: CpuState, mem: Memory): (AddressModeValue, CpuState)
    requires CanResolveIndirect(s, mem)
  {
    var pointer := WordAt(mem, s.pc);
    (AbsoluteAddress(Join(Load(mem, pointer), Load(mem, IndirectHighByteAddress(pointer)))), s.(pc := s.pc + 2))
  }

  function ResolveIndirectX(s: CpuState, mem: Memory): (AddressModeValue, CpuState)
    requires s.pc <= 0xFFFE
  {
    (AbsoluteAddress(IndexedIndirect(mem, Load(mem, s.pc), s.x)), s.(pc := s.pc + 1))
  }

  function ResolveIndirectY(s: CpuState, mem: Memory): (AddressModeValue, CpuState)
    requires CanResolveIndirectY(s, mem)
  {
    var base := ZeroPagePointer(mem, Load(mem, s.pc));
    var address := Add16(base, s.y);
    (AbsoluteAddress(address), s.(remaining := s.remaining + PageCrossCycles(base, address), pc := s.pc + 1))
  }

  function ResolveIndirectYConst(s: CpuState, mem: Memory): (AddressModeValue, CpuState)
    requires s.pc <= 0xFFFE
  {
    (AbsoluteAddress(Add16(ZeroPagePointer(mem, Load(mem, s.pc)), s.y)), s.(pc := s.pc + 1))
  }

  function ResolveRelative(s: CpuState, mem: Memory): (AddressModeValue, CpuState)
    requires s.pc <= 0xFFFE
  {
    (RelativeAddress(Load(mem, s.pc)), s.(pc := s.pc + 1))
  }

  function ResolveZeroPage(s: CpuState, mem: Memory): (AddressModeValue, CpuState)
    requires s.pc <= 0xFFFE
  {
    (AbsoluteAddress(Load(mem, s.pc)), s.(pc := s.pc + 1))
  }

  function ResolveZeroPageX(s: CpuState, mem: Memory): (AddressModeValue, CpuState)
    requires s.pc <= 0xFFFE
  {
    (AbsoluteAddress(ZeroPageAddress(Load(mem, s.pc), s.x)), s.(pc := s.pc + 1))
  }

  function ResolveZeroPageY(s: CpuState, mem: Memory): (AddressModeValue, CpuState)
    requires s.pc <= 0xFFFE
  {
    (AbsoluteAddress(ZeroPageAddress(Load(mem, s.pc), s.y)), s.(pc := s.pc + 1))
  }

  // ---------------------------------------------------------------------------------------
  // Properties of the resolvers

  /**
   * Every resolver moves the program counter past exactly its operand bytes, leaves every
   * register, the status and the latches alone, and charges at most one cycle, and that
   * only in the three page-crossing modes.
   */
  lemma {:induction false} ResolveFrame(mode: AddressMode, s: CpuState, mem: Memory)
    requires CanResolve(mode, s, mem)
    ensures var r := Resolve(mode, s, mem).1;
      r == s.(pc := s.pc + OperandLength(mode), remaining := r.remaining)
      && s.remaining <= r.remaining <= s.remaining + 1
      && (r.remaining == s.remaining + 1 ==> ChargesPageCrossing(mode))
  {
    if ChargesPageCrossing(mode) {
      ChargingModeFrame(mode, s, mem);
    } else {
      FixedModeFrame(mode, s, mem);
    }
  }

  /** ResolveFrame for Absolute,X, Absolute,Y and (Indirect),Y. */
  lemma ChargingModeFrame(mode: AddressMode, s: CpuState, mem: Memory)
    requires ChargesPageCrossing(mode) && CanResolve(mode, s, mem)
    ensures var r := Resolve(mode, s, mem).1;
      r == s.(pc := s.pc + OperandLength(mode), remaining := r.remaining)
      && s.remaining <= r.remaining <= s.remaining + 1
  {
  }

  /** ResolveFrame for the modes that charge no extra cycle. */
  lemma FixedModeFrame(mode: AddressMode, s: CpuState, mem: Memory)
    requires !ChargesPageCrossing(mode) && CanResolve(mode, s, mem)
    ensures Resolve(mode, s, mem).1 == s.(pc := s.pc + OperandLength(mode))
  {
  }

  /** The shape of value each mode yields: Implied, a relative offset, or an address. */
  lemma ResolveValueShape(mode: AddressMode, s: CpuState, mem: Memory)
    requires CanResolve(mode, s, mem)
    ensures Resolve(mode, s, mem).0.Implied? <==> mode == Impl
    ensures Resolve(mode, s, mem).0.RelativeAddress? <==> mode == Rel
  {
  }

  /**
   * Indexing crosses a page exactly when adding the index carries out of the low byte,
   * whether or not the sum wraps past 0xFFFF.
   */
  lemma PageCrossIsLowByteCarry(base: Word, index: Byte)
    ensures PageCrossCycles(base, Add16(base, index)) == 1 <==> Lo(base) + index >= 0x100
  {
  }

  /** Absolute,X charges its extra cycle exactly when X carries out of the low byte. */
  lemma {:induction false} AbsoluteXExtraCycle(s: CpuState, mem: Memory)
    requires CanResolveAbsoluteX(s, mem)
    ensures ResolveAbsoluteX(s, mem).1.remaining == s.remaining + 1
        <==> Load(mem, s.pc) + s.x >= 0x100
  {
    WordAtLittleEndian(mem, s.pc);
    PageCrossIsLowByteCarry(WordAt(mem, s.pc), s.x);
  }

  /** Absolute,Y charges its extra cycle exactly when Y carries out of the low byte. */
  lemma {:induction false} AbsoluteYExtraCycle(s: CpuState, mem: Memory)
    requires CanResolveAbsoluteY(s, mem)
    ensures ResolveAbsoluteY(s, mem).1.remaining == s.remaining + 1
        <==> Load(mem, s.pc) + s.y >= 0x100
  {
    WordAtLittleEndian(mem, s.pc);
    PageCrossIsLowByteCarry(WordAt(mem, s.pc), s.y);
  }

  /**
   * (Indirect),Y charges its extra cycle exactly when Y carries out of the pointer's low
   * byte, which is the page-zero byte the operand names.
   */
  lemma {:induction false} IndirectYExtraCycle(s: CpuState, mem: Memory)
    requires CanResolveIndirectY(s, mem)
    ensures ResolveIndirectY(s, mem).1.remaining == s.remaining + 1
        <==> Load(mem, Load(mem, s.pc)) + s.y >= 0x100
  {
    var zp := Load(mem, s.pc);
    LoHiOfJoin(Load(mem, zp), Load(mem, ZeroPageAddress(zp, 1)));
    PageCrossIsLowByteCarry(ZeroPagePointer(mem, zp), s.y);
  }

  /**
   * The page-crossing modes and their constant-time variants yield the same address and
   * the same program counter; only the variant never charges the extra cycle.
   */
  lemma ConstVariantsAgree(s: CpuState, mem: Memory)
    ensures CanResolveAbsoluteX(s, mem) ==>
      ResolveAbsoluteXConst(s, mem) == (ResolveAbsoluteX(s, mem).0, ResolveAbsoluteX(s, mem).1.(remaining := s.remaining))
    ensures CanResolveAbsoluteY(s, mem) ==>
      ResolveAbsoluteYConst(s, mem) == (ResolveAbsoluteY(s, mem).0, ResolveAbsoluteY(s, mem).1.(remaining := s.remaining))
    ensures CanResolveIndirectY(s, mem) ==>
      ResolveIndirectYConst(s, mem) == (ResolveIndirectY(s, mem).0, ResolveIndirectY(s, mem).1.(remaining := s.remaining))
  {
  }

  /**
   * Indirect reads its target little-endian from the pointer, except that a pointer ending
   * in 0xFF takes the high byte from the start of the same page, not from the next page.
   */
  lemma IndirectPageBoundary(s: CpuState, mem: Memory)
    requires CanResolveIndirect(s, mem)
    ensures var pointer := WordAt(mem, s.pc);
      Lo(pointer) != 0xFF ==> ResolveIndirect(s, mem).0.address == WordAt(mem, pointer)
    ensures var pointer := WordAt(mem, s.pc);
      Lo(pointer) == 0xFF ==>
        ResolveIndirect(s, mem).0.address == Join(Load(mem, pointer), Load(mem, pointer - 0xFF))
  {
  }

  /** The zero-page modes address page zero: the operand plus the index, wrapping as a byte. */
  lemma ZeroPageStaysOnPageZero(s: CpuState, mem: Memory)
    requires s.pc <= 0xFFFE
    ensures Page(ResolveZeroPage(s, mem).0.address) == 0
    ensures Lo(ResolveZeroPage(s, mem).0.address) == Load(mem, s.pc)
    ensures Page(ResolveZeroPageX(s, mem).0.address) == 0
    ensures Lo(ResolveZeroPageX(s, mem).0.address) == (Load(mem, s.pc) + s.x) % 0x100
    ensures Page(ResolveZeroPageY(s, mem).0.address) == 0
    ensures Lo(ResolveZeroPageY(s, mem).0.address) == (Load(mem, s.pc) + s.y) % 0x100
  {
  }

  /**
   * Both bytes of an (Indirect,X) pointer are read from page zero, the second from the
   * byte after the first with 0xFF followed by 0x00.
   */
  lemma IndirectXWrapsInZeroPage(mem: Memory, zp: Byte, x: Byte)
    ensures var p := ZeroPageAddress(zp, x);
      Page(p) == 0 && IndexedIndirect(mem, zp, x) == Join(Load(mem, p), Load(mem, (p + 1) % 0x100))
  {
  }

  // ---------------------------------------------------------------------------------------
  // The resolvers, one per function of the source

  method Absolute(cpu: MOS6502, bus: Ram) returns (v: AddressModeValue)
    requires cpu.programCounter <= 0xFFFD
    modifies cpu
    ensures (v, cpu.State()) == ResolveAbsolute(old(cpu.State()), bus.contents)
  {
    var address := Read16(bus, cpu.programCounter);
    cpu.programCounter := cpu.programCounter + 2;
    v := AbsoluteAddress(address);
  }

  method AbsoluteX(cpu: MOS6502, bus: Ram) returns (v: AddressModeValue)
    requires CanResolveAbsoluteX(cpu.State(), bus.contents)
    modifies cpu
    ensures (v, cpu.State()) == ResolveAbsoluteX(old(cpu.State()), bus.contents)
  {
    var address := Read16(bus, cpu.programCounter);
    var offsetAddress := address + cpu.xRegister;
    cpu.remainingCycles := cpu.remainingCycles + PageCrossCycles(address, offsetAddress);
    cpu.programCounter := cpu.programCounter + 2;
    v := AbsoluteAddress(offsetAddress);
  }

  method AbsoluteXConst(cpu: MOS6502, bus: Ram) returns (v: AddressModeValue)
    requires CanResolveAbsoluteXConst(cpu.State(), bus.contents)
    modifies cpu
    ensures (v, cpu.State()) == ResolveAbsoluteXConst(old(cpu.State()), bus.contents)
  {
    var address := Read16(bus, cpu.programCounter);
    var offsetAddress := address + cpu.xRegister;
    cpu.programCounter := cpu.programCounter + 2;
    v := AbsoluteAddress(offsetAddress);
  }

  method AbsoluteY(cpu: MOS6502, bus: Ram) returns (v: AddressModeValue)
    requires CanResolveAbsoluteY(cpu.State(), bus.contents)
    modifies cpu
    ensures (v, cpu.State()) == ResolveAbsoluteY(old(cpu.State()), bus.contents)
  {
    var address := Read16(bus, cpu.programCounter);
    var offsetAddress := Add16(address, cpu.yRegister);
    cpu.remainingCycles := cpu.remainingCycles + PageCrossCycles(address, offsetAddress);
    cpu.programCounter := cpu.programCounter + 2;
    v := AbsoluteAddress(offsetAddress);
  }

  method AbsoluteYConst(cpu: MOS6502, bus: Ram) returns (v: AddressModeValue)
    requires cpu.programCounter <= 0xFFFD
    modifies cpu
    ensures (v, cpu.State()) == ResolveAbsoluteYConst(old(cpu.State()), bus.contents)
  {
    var address := Read16(bus, cpu.programCounter);
    var offsetAddress := Add16(address, cpu.yRegister);
    cpu.programCounter := cpu.programCounter + 2;
    v := AbsoluteAddress(offsetAddress);
  }

  method Immediate(cpu: MOS6502, bus: Ram) returns (v: AddressModeValue)
    requires cpu.programCounter <= 0xFFFE
    modifies cpu
    ensures (v, cpu.State()) == ResolveImmediate(old(cpu.State()))
  {
    var address := cpu.programCounter;
    cpu.programCounter := cpu.programCounter + 1;
    v := AbsoluteAddress(address);
  }

  /** `implied` (named apart from the value it returns). */
  method ImpliedMode(cpu: MOS6502, bus: Ram) returns (v: AddressModeValue)
    ensures (v, cpu.State()) == Resolve(Impl, cpu.State(), bus.contents)
  {
    v := Implied;
  }

  method Indirect(cpu: MOS6502, bus: Ram) returns (v: AddressModeValue)
    requires CanResolveIndirect(cpu.State(), bus.contents)
    modifies cpu
    ensures (v, cpu.State()) == ResolveIndirect(old(cpu.State()), bus.contents)
  {
    var indirectAddress := Read16(bus, cpu.programCounter);
    var hi := bus.Read(IndirectHighByteAddress(indirectAddress));
    var lo := bus.Read(indirectAddress);
    cpu.programCounter := cpu.programCounter + 2;
    v := AbsoluteAddress(Join(lo, hi));
  }

  method IndirectX(cpu: MOS6502, bus: Ram) returns (v: AddressModeValue)
    requires cpu.programCounter <= 0xFFFE
    modifies cpu
    ensures (v, cpu.State()) == ResolveIndirectX(old(cpu.State()), bus.contents)
  {
    var indirectAddress := bus.Read(cpu.programCounter);
    var hi := bus.Read(ZeroPageAddress(Add8(indirectAddress, cpu.xRegister), 1));
    var lo := bus.Read(ZeroPageAddress(indirectAddress, cpu.xRegister));
    cpu.programCounter := cpu.programCounter + 1;
    v := AbsoluteAddress(Join(lo, hi));
  }

  method IndirectY(cpu: MOS6502, bus: Ram) returns (v: AddressModeValue)
    requires CanResolveIndirectY(cpu.State(), bus.contents)
    modifies cpu
    ensures (v, cpu.State()) == ResolveIndirectY(old(cpu.State()), bus.contents)
  {
    var indirectAddress := bus.Read(cpu.programCounter);
    var hi := bus.Read(ZeroPageAddress(indirectAddress, 1));
    var lo := bus.Read(indirectAddress);
    var address := Join(lo, hi);
    var offsetAddress := Add16(address, cpu.yRegister);
    cpu.remainingCycles := cpu.remainingCycles + PageCrossCycles(address, offsetAddress);
    cpu.programCounter := cpu.programCounter + 1;
    v := AbsoluteAddress(offsetAddress);
  }

  method IndirectYConst(cpu: MOS6502, bus: Ram) returns (v: AddressModeValue)
    requires cpu.programCounter <= 0xFFFE
    modifies cpu
    ensures (v, cpu.State()) == ResolveIndirectYConst(old(cpu.State()), bus.contents)
  {
    var indirectAddress := bus.Read(cpu.programCounter);
    var hi := bus.Read(ZeroPageAddress(indirectAddress, 1));
    var lo := bus.Read(indirectAddress);
    var address := Join(lo, hi);
    var offsetAddress := Add16(address, cpu.yRegister);
    cpu.programCounter := cpu.programCounter + 1;
    v := AbsoluteAddress(offsetAddress);
  }

  method Relative(cpu: MOS6502, bus: Ram) returns (v: AddressModeValue)
    requires cpu.programCounter <= 0xFFFE
    modifies cpu
    ensures (v, cpu.State()) == ResolveRelative(old(cpu.State()), bus.contents)
  {
    var relativeAddress := bus.Read(cpu.programCounter);
    cpu.programCounter := cpu.programCounter + 1;
    v := RelativeAddress(relativeAddress);
  }

  method ZeroPage(cpu: MOS6502, bus: Ram) returns (v: AddressModeValue)
    requires cpu.programCounter <= 0xFFFE
    modifies cpu
    ensures (v, cpu.State()) == ResolveZeroPage(old(cpu.State()), bus.contents)
  {
    var address := bus.Read(cpu.programCounter);
    cpu.programCounter := cpu.programCounter + 1;
    v := AbsoluteAddress(address);
  }

  method ZeroPageX(cpu: MOS6502, bus: Ram) returns (v: AddressModeValue)
    requires cpu.programCounter <= 0xFFFE
    modifies cpu
    ensures (v, cpu.State()) == ResolveZeroPageX(old(cpu.State()), bus.contents)
  {
    var operand := bus.Read(cpu.programCounter);
    cpu.programCounter := cpu.programCounter + 1;
    v := AbsoluteAddress(ZeroPageAddress(operand, cpu.xRegister));
  }

  method ZeroPageY(cpu: MOS6502, bus: Ram) returns (v: AddressModeValue)
    requires cpu.programCounter <= 0xFFFE
    modifies cpu
    ensures (v, cpu.State()) == ResolveZeroPageY(old(cpu.State()), bus.contents)
  {
    var operand := bus.Read(cpu.programCounter);
    cpu.programCounter := cpu.programCounter + 1;
    v := AbsoluteAddress(ZeroPageAddress(operand, cpu.yRegister));
  }

  /** Run the resolver a table entry names (the call `(instruction.find_address)(cpu, bus)`). */
  method FindAddress(mode: AddressMode, cpu: MOS6502, bus: Ram) returns (v: AddressModeValue)
    requires CanResolve(mode, cpu.State(), bus.contents)
    modifies cpu
    ensures (v, cpu.State()) == Resolve(mode, old(cpu.State()), bus.contents)
  {
    match mode
    case Abs => v := Absolute(cpu, bus);
    case AbsX => v := AbsoluteX(cpu, bus);
    case AbsXConst => v := AbsoluteXConst(cpu, bus);
    case AbsY => v := AbsoluteY(cpu, bus);
    case AbsYConst => v := AbsoluteYConst(cpu, bus);
    case Imm => v := Immediate(cpu, bus);
    case Impl => v := ImpliedMode(cpu, bus);
    case Ind => v := Indirect(cpu, bus);
    case IndX => v := IndirectX(cpu, bus);
    case IndY => v := IndirectY(cpu, bus);
    case IndYConst => v := IndirectYConst(cpu, bus);
    case Rel => v := Relative(cpu, bus);
    case Zp => v := ZeroPage(cpu, bus);
    case ZpX => v := ZeroPageX(cpu, bus);
    case ZpY => v := ZeroPageY(cpu, bus);
  }
}
