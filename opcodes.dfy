/*
 * The legal opcodes (src/opcodes/mod.rs). Each opcode is a method over the processor and the
 * bus that follows the source statement by statement, and an effect function of the abstract
 * machine that states what the method does. An opcode given an operand of the wrong kind panics
 * in the source; here the method requires the right kind. Properties of the effects are proved
 * in module OpcodeProperties.
 */
module Opcodes {
  import opened Cpu
  import opened AddressModes

  // ---------------------------------------------------------------------------------------
  // Arithmetic helpers

  /** `b & 0x0f`. */
  function LowNibble(b: Byte): int { b % 0x10 }

  /** The upper four bits of `b` as a number: `(b & 0xf0) > 0x90` is `HighNibble(b) > 9`. */
  function HighNibble(b: Byte): int { b / 0x10 }

  /** `!m` on a byte. */
  function Complement(m: Byte): Byte { 0xFF - m }

  /** Bit 6 of a byte (`v & 0x40 != 0`). */
  predicate Bit6(v: Byte) { v % 0x80 >= 0x40 }

  /**
   * The overflow test `!(a ^ m) & (a ^ r) & 0x80 != 0`: the two operands have the same sign
   * and the result has the other one.
   */
  predicate Overflowed(a: Byte, m: Byte, r: Byte)
  {
    Bit7(a) == Bit7(m) && Bit7(a) != Bit7(r)
  }

  /** Binary addition `a + m + c` in 16 bits: the low byte and whether it exceeds 0xFF. */
  function BinarySum(a: Byte, m: Byte, c: Byte): (Byte, bool)
    requires c <= 1
  {
    var sum := a + m + c;
    if sum > 0xFF then (sum - 0x100, true) else (sum, false)
  }

  /** The decimal-mode adjustment of ADC, as the source computes it: the sum and the carry. */
  function DecimalSum(a: Byte, m: Byte, c: Byte): (Byte, bool)
    requires c <= 1
  {
    var sum := Add8(Add8(a, m), c);
    var sum := if LowNibble(a) + LowNibble(m) + c > 0x09 then Add8(sum, 0x06) else sum;
    if HighNibble(sum) > 0x09 then (Add8(sum, 0x60), true) else (sum, false)
  }

  /**
   * The decimal-mode adjustment of SBC, as the source computes it; `m` is the complemented
   * operand, and the carry is set when no borrow is detected.
   */
  function DecimalDifference(a: Byte, m: Byte, c: Byte): (Byte, bool)
    requires c <= 1
  {
    var sum := Add8(Add8(a, m), c);
    var sum := if LowNibble(a) + LowNibble(m) + c > 0x09 then Sub8(sum, 0x06) else sum;
    if HighNibble(sum) > 0x09 then (Sub8(sum, 0x60), false) else (sum, true)
  }

  /** Decimal mode is in effect: the crate feature is on and the Decimal flag is set. */
  predicate DecimalMode(s: CpuState, cfg: Config)
  {
    cfg.binaryCodedDecimal && Flag(s.p, Decimal)
  }

  /** The result byte and the carry out of ADC, or of SBC given the complemented operand. */
  function SumAndCarry(s: CpuState, value: Byte, subtract: bool, cfg: Config): (Byte, bool)
  {
    var c := CarryBit(s.p);
    if DecimalMode(s, cfg) then
      (if subtract then DecimalDifference(s.a, value, c) else DecimalSum(s.a, value, c))
    else BinarySum(s.a, value, c)
  }

  /**
   * The shared body of ADC and SBC once SBC has complemented its operand: the accumulator
   * and C, Z, V, N, set in that order.
   */
  function Arithmetic(s: CpuState, value: Byte, subtract: bool, cfg: Config): CpuState
  {
    var (result, carry) := SumAndCarry(s, value, subtract, cfg);
    var p := WithFlag(s.p, Carry, carry);
    var p := WithFlag(p, Zero, result == 0);
    var p := WithFlag(p, Overflow, Overflowed(s.a, value, result));
    s.(a := result, p := WithFlag(p, Negative, Bit7(result)))
  }

  /** The four shifts and rotates. */
  datatype Shift = ShiftLeft | ShiftRight | RotateLeft | RotateRight

  /** `value << 1` on a byte: bit 7 is lost. */
  function DoubledByte(value: Byte): Byte
  {
    if value >= 0x80 then 2 * value - 0x100 else 2 * value
  }

  /**
   * The `*_wrapped` helper of each shift: the shifted byte and the new status. ASL and ROL
   * take the carry from bit 7, LSR and ROR from bit 0; the rotates put the old carry into the
   * vacated bit; LSR clears Negative.
   */
  function Shifted(kind: Shift, p: bv8, value: Byte): (Byte, bv8)
  {
    match kind
    case ShiftLeft =>
      var r := DoubledByte(value);
      (r, WithNZ(WithFlag(p, Carry, Bit7(value)), r))
    case ShiftRight =>
      var r := value / 2;
      (r, WithFlag(WithFlag(WithFlag(p, Carry, value % 2 == 1), Zero, r == 0), Negative, false))
    case RotateLeft =>
      var r := DoubledByte(value) + CarryBit(p);
      (r, WithNZ(WithFlag(p, Carry, Bit7(value)), r))
    case RotateRight =>
      var r := value / 2 + 0x80 * CarryBit(p);
      (r, WithNZ(WithFlag(p, Carry, value % 2 == 1), r))
  }

  /** `signed_8_bit_to_16`: the offset with bit 7 copied into the high byte. */
  function SignExtend(offset: Byte): (w: Word)
    ensures (if w >= 0x8000 then w - 0x10000 else w) == (if Bit7(offset) then offset - 0x100 else offset)
  {
    if Bit7(offset) then offset + 0xFF00 else offset
  }

  /** Where a taken branch goes. */
  function BranchTarget(pc: Word, offset: Byte): Word
  {
    Add16(SignExtend(offset), pc)
  }

  /** A taken branch costs one cycle more, two when the target lies on another page. */
  function BranchCycles(pc: Word, target: Word): int
  {
    if Page(target) != Page(pc) then 2 else 1
  }

  /** A branch runs without panicking: a taken branch keeps the cycle counter in range. */
  predicate CanBranch(s: CpuState, taken: bool, offset: Byte)
  {
    taken ==> s.remaining + BranchCycles(s.pc, BranchTarget(s.pc, offset)) < 0x100
  }

  /** The new status after `compare` of `register` against `value`: C, Z, then N. */
  function CompareFlags(p: bv8, register: Byte, value: Byte): bv8
  {
    var p := WithFlag(p, Carry, register >= value);
    var p := WithFlag(p, Zero, register == value);
    WithFlag(p, Negative, Bit7(Sub8(register, value)))
  }

  /** PLP: the Break bits stay as they were; every other bit comes from the popped byte. */
  function PulledStatus(p: bv8, popped: Byte): bv8
  {
    (p & Mask(Break)) | (StatusOf(popped) & !Mask(Break))
  }

  // ---------------------------------------------------------------------------------------
  // Effects of the opcodes on the abstract machine

  /** The byte an absolute operand names. */
  function Operand(m: Machine, v: AddressModeValue): Byte
    requires v.AbsoluteAddress?
  {
    Load(m.mem, v.address)
  }

  function AdcEffect(m: Machine, v: AddressModeValue, cfg: Config): Machine
    requires v.AbsoluteAddress?
  {
    m.(cpu := Arithmetic(m.cpu, Operand(m, v), false, cfg))
  }

  function SbcEffect(m: Machine, v: AddressModeValue, cfg: Config): Machine
    requires v.AbsoluteAddress?
  {
    m.(cpu := Arithmetic(m.cpu, Complement(Operand(m, v)), true, cfg))
  }

  /** AND, ORA and EOR: the accumulator combined with the operand, then Z and N. */
  function LogicEffect(op: BitOp, m: Machine, v: AddressModeValue): Machine
    requires v.AbsoluteAddress?
  {
    var r := Bitwise(op, m.cpu.a, Operand(m, v), 8);
    m.(cpu := m.cpu.(a := r, p := WithZN(m.cpu.p, r)))
  }

  /** ASL, LSR, ROL and ROR: an implied operand is the accumulator, an address a memory byte. */
  function ShiftEffect(kind: Shift, m: Machine, v: AddressModeValue): Machine
    requires !v.RelativeAddress?
  {
    match v
    case Implied =>
      var (r, p) := Shifted(kind, m.cpu.p, m.cpu.a);
      m.(cpu := m.cpu.(a := r, p := p))
    case AbsoluteAddress(address) =>
      var (r, p) := Shifted(kind, m.cpu.p, Load(m.mem, address));
      Machine(m.cpu.(p := p), Store(m.mem, address, r))
  }

  function BitEffect(m: Machine, v: AddressModeValue): Machine
    requires v.AbsoluteAddress?
  {
    var value := Operand(m, v);
    var p := WithFlag(m.cpu.p, Zero, BitAnd(m.cpu.a, value) == 0);
    var p := WithFlag(p, Overflow, Bit6(value));
    m.(cpu := m.cpu.(p := WithFlag(p, Negative, Bit7(value))))
  }

  /** The branches: nothing changes unless the branch is taken. */
  function BranchEffect(m: Machine, taken: bool, v: AddressModeValue): Machine
    requires v.RelativeAddress? && CanBranch(m.cpu, taken, v.offset)
  {
    if taken then
      var target := BranchTarget(m.cpu.pc, v.offset);
      m.(cpu := m.cpu.(remaining := m.cpu.remaining + BranchCycles(m.cpu.pc, target), pc := target))
    else m
  }

  /** CMP, CPX and CPY: only the flags change. */
  function CompareEffect(m: Machine, register: Byte, v: AddressModeValue): Machine
    requires v.AbsoluteAddress?
  {
    m.(cpu := m.cpu.(p := CompareFlags(m.cpu.p, register, Operand(m, v))))
  }

  /** The flag instructions CLC, CLD, CLI, CLV, SEC, SED and SEI. */
  function FlagEffect(m: Machine, f: StatusFlag, value: bool): Machine
  {
    m.(cpu := m.cpu.(p := WithFlag(m.cpu.p, f, value)))
  }

  /** DEC and INC on memory: Z and N from the new byte. */
  function StepMemoryEffect(m: Machine, v: AddressModeValue, increment: bool): Machine
    requires v.AbsoluteAddress?
  {
    var value := Operand(m, v);
    var r := if increment then Inc8(value) else Dec8(value);
    Machine(m.cpu.(p := WithZN(m.cpu.p, r)), Store(m.mem, v.address, r))
  }

  function InxEffect(m: Machine): Machine
  {
    var r := Inc8(m.cpu.x);
    m.(cpu := m.cpu.(x := r, p := WithZN(m.cpu.p, r)))
  }

  function InyEffect(m: Machine): Machine
  {
    var r := Inc8(m.cpu.y);
    m.(cpu := m.cpu.(y := r, p := WithZN(m.cpu.p, r)))
  }

  function DexEffect(m: Machine): Machine
  {
    var r := Dec8(m.cpu.x);
    m.(cpu := m.cpu.(x := r, p := WithZN(m.cpu.p, r)))
  }

  function DeyEffect(m: Machine): Machine
  {
    var r := Dec8(m.cpu.y);
    m.(cpu := m.cpu.(y := r, p := WithZN(m.cpu.p, r)))
  }

  function JmpEffect(m: Machine, v: AddressModeValue): Machine
    requires v.AbsoluteAddress?
  {
    m.(cpu := m.cpu.(pc := v.address))
  }

  /** JSR pushes the address of its own last byte, `pc - 1`, then jumps. */
  function JsrEffect(m: Machine, v: AddressModeValue): Machine
    requires v.AbsoluteAddress? && m.cpu.pc >= 1
  {
    var m1 := Push16(m, m.cpu.pc - 1);
    m1.(cpu := m1.cpu.(pc := v.address))
  }

  /** RTS pops the return address and adds one (not wrapping). */
  function RtsEffect(m: Machine): Machine
    requires Pop16(m).0 < 0xFFFF
  {
    var (address, m1) := Pop16(m);
    m1.(cpu := m1.cpu.(pc := address + 1))
  }

  /**
   * BRK pushes `pc + 1` (not wrapping), sets both Break bits in the live status, pushes the
   * status, sets InterruptDisable and jumps through the IRQ vector.
   */
  function BrkEffect(m: Machine): Machine
    requires m.cpu.pc < 0xFFFF
  {
    var m1 := Push16(m, m.cpu.pc + 1);
    var p := WithFlag(m1.cpu.p, Break, true);
    var m2 := Push(m1.(cpu := m1.cpu.(p := p)), StatusByte(p));
    m2.(cpu := m2.cpu.(p := WithFlag(p, InterruptDisable, true), pc := WordAt(m2.mem, IrqVector)))
  }

  /** RTI: PLP, then the program counter popped as it was pushed. */
  function RtiEffect(m: Machine): Machine
  {
    var m1 := PlpEffect(m);
    var (address, m2) := Pop16(m1);
    m2.(cpu := m2.cpu.(pc := address))
  }

  function LdaEffect(m: Machine, v: AddressModeValue): Machine
    requires v.AbsoluteAddress?
  {
    var r := Operand(m, v);
    m.(cpu := m.cpu.(a := r, p := WithZN(m.cpu.p, r)))
  }

  function LdxEffect(m: Machine, v: AddressModeValue): Machine
    requires v.AbsoluteAddress?
  {
    var r := Operand(m, v);
    m.(cpu := m.cpu.(x := r, p := WithZN(m.cpu.p, r)))
  }

  function LdyEffect(m: Machine, v: AddressModeValue): Machine
    requires v.AbsoluteAddress?
  {
    var r := Operand(m, v);
    m.(cpu := m.cpu.(y := r, p := WithZN(m.cpu.p, r)))
  }

  function PhaEffect(m: Machine): Machine
  {
    Push(m, m.cpu.a)
  }

  /** PHP pushes the status with both Break bits set; the live status is unchanged. */
  function PhpEffect(m: Machine): Machine
  {
    Push(m, StatusByte(m.cpu.p | Mask(Break)))
  }

  function PlaEffect(m: Machine): Machine
  {
    var (r, m1) := Pop(m);
    m1.(cpu := m1.cpu.(a := r, p := WithNZ(m1.cpu.p, r)))
  }

  function PlpEffect(m: Machine): Machine
  {
    var (r, m1) := Pop(m);
    m1.(cpu := m1.cpu.(p := PulledStatus(m1.cpu.p, r)))
  }

  /** STA, STX and STY: the register is written at the address; the processor is unchanged. */
  function StoreEffect(m: Machine, register: Byte, v: AddressModeValue): Machine
    requires v.AbsoluteAddress?
  {
    m.(mem := Store(m.mem, v.address, register))
  }

  function TaxEffect(m: Machine): Machine
  {
    m.(cpu := m.cpu.(x := m.cpu.a, p := WithNZ(m.cpu.p, m.cpu.a)))
  }

  function TayEffect(m: Machine): Machine
  {
    m.(cpu := m.cpu.(y := m.cpu.a, p := WithNZ(m.cpu.p, m.cpu.a)))
  }

  function TsxEffect(m: Machine): Machine
  {
    m.(cpu := m.cpu.(x := m.cpu.sp, p := WithNZ(m.cpu.p, m.cpu.sp)))
  }

  function TxaEffect(m: Machine): Machine
  {
    m.(cpu := m.cpu.(a := m.cpu.x, p := WithNZ(m.cpu.p, m.cpu.x)))
  }

  /** TXS sets no flag. */
  function TxsEffect(m: Machine): Machine
  {
    m.(cpu := m.cpu.(sp := m.cpu.x))
  }

  function TyaEffect(m: Machine): Machine
  {
    m.(cpu := m.cpu.(a := m.cpu.y, p := WithNZ(m.cpu.p, m.cpu.y)))
  }

  // ---------------------------------------------------------------------------------------
  // The opcode functions

  method Adc(cpu: MOS6502, bus: Ram, v: AddressModeValue, cfg: Config)
    requires v.AbsoluteAddress?
    modifies cpu
    ensures Snapshot(cpu, bus) == AdcEffect(old(Snapshot(cpu, bus)), v, cfg)
  {
    var value := bus.Read(v.address);
    var result, carry := AddWithCarry(cpu, value, false, cfg);
    cpu.SetFlag(Carry, carry);
    cpu.SetFlag(Zero, result == 0);
    cpu.SetFlag(Overflow, Overflowed(cpu.accumulator, value, result));
    cpu.SetFlag(Negative, Bit7(result));
    cpu.accumulator := result;
  }

  /**
   * The part of `adc` and `sbc` that computes the result and the carry, in decimal mode when
   * the feature is on and the Decimal flag is set, in binary otherwise. For SBC `value` is the
   * complemented operand.
   */
  method AddWithCarry(cpu: MOS6502, value: Byte, subtract: bool, cfg: Config) returns (result: Byte, carry: bool)
    ensures (result, carry) == SumAndCarry(cpu.State(), value, subtract, cfg)
  {
    var c := CarryBit(cpu.statusRegister);
    if cfg.binaryCodedDecimal && cpu.GetFlag(Decimal) {
      var sum := Add8(Add8(cpu.accumulator, value), c);
      if LowNibble(cpu.accumulator) + LowNibble(value) + c > 0x09 {
        sum := if subtract then Sub8(sum, 0x06) else Add8(sum, 0x06);
      }
      if HighNibble(sum) > 0x09 {
        sum := if subtract then Sub8(sum, 0x60) else Add8(sum, 0x60);
        carry := !subtract;
      } else {
        carry := subtract;
      }
      result := sum;
    } else {
      var sum := cpu.accumulator + value + c;
      carry := sum > 0xFF;
      result := if sum > 0xFF then sum - 0x100 else sum;
    }
  }

  method And(cpu: MOS6502, bus: Ram, v: AddressModeValue)
    requires v.AbsoluteAddress?
    modifies cpu
    ensures Snapshot(cpu, bus) == LogicEffect(AndBits, old(Snapshot(cpu, bus)), v)
  {
    var value := bus.Read(v.address);
    cpu.accumulator := BitAnd(cpu.accumulator, value);
    cpu.SetFlag(Zero, cpu.accumulator == 0);
    cpu.SetFlag(Negative, Bit7(cpu.accumulator));
  }

  /** `asl_wrapped`. */
  method AslWrapped(cpu: MOS6502, value: Byte) returns (shifted: Byte)
    modifies cpu
    ensures (shifted, cpu.statusRegister) == Shifted(ShiftLeft, old(cpu.statusRegister), value)
    ensures cpu.State() == old(cpu.State()).(p := cpu.statusRegister)
  {
    cpu.SetFlag(Carry, Bit7(value));
    shifted := DoubledByte(value);
    cpu.SetFlag(Negative, Bit7(shifted));
    cpu.SetFlag(Zero, shifted == 0);
  }

  method Asl(cpu: MOS6502, bus: Ram, v: AddressModeValue)
    requires !v.RelativeAddress?
    modifies cpu, bus
    ensures Snapshot(cpu, bus) == ShiftEffect(ShiftLeft, old(Snapshot(cpu, bus)), v)
  {
    match v
    case Implied =>
      cpu.accumulator := AslWrapped(cpu, cpu.accumulator);
    case AbsoluteAddress(address) =>
      var operand := bus.Read(address);
      var value := AslWrapped(cpu, operand);
      bus.Write(address, value);
  }

  /** `branch`: a taken branch moves the program counter and costs one or two cycles more. */
  method Branch(cpu: MOS6502, condition: bool, v: AddressModeValue)
    requires v.RelativeAddress? && CanBranch(cpu.State(), condition, v.offset)
    modifies cpu
    ensures cpu.State() == BranchEffect(Machine(old(cpu.State()), imap[]), condition, v).cpu
  {
    var address := Add16(SignExtend(v.offset), cpu.programCounter);
    if condition {
      if Page(address) != Page(cpu.programCounter) {
        cpu.remainingCycles := cpu.remainingCycles + 2;
      } else {
        cpu.remainingCycles := cpu.remainingCycles + 1;
      }
      cpu.programCounter := address;
    }
  }

  method Bcc(cpu: MOS6502, bus: Ram, v: AddressModeValue)
    requires v.RelativeAddress? && CanBranch(cpu.State(), !cpu.GetFlag(Carry), v.offset)
    modifies cpu
    ensures Snapshot(cpu, bus) == BranchEffect(old(Snapshot(cpu, bus)), !old(cpu.GetFlag(Carry)), v)
  {
    Branch(cpu, !cpu.GetFlag(Carry), v);
  }

  method Bcs(cpu: MOS6502, bus: Ram, v: AddressModeValue)
    requires v.RelativeAddress? && CanBranch(cpu.State(), cpu.GetFlag(Carry), v.offset)
    modifies cpu
    ensures Snapshot(cpu, bus) == BranchEffect(old(Snapshot(cpu, bus)), old(cpu.GetFlag(Carry)), v)
  {
    Branch(cpu, cpu.GetFlag(Carry), v);
  }

  method Beq(cpu: MOS6502, bus: Ram, v: AddressModeValue)
    requires v.RelativeAddress? && CanBranch(cpu.State(), cpu.GetFlag(Zero), v.offset)
    modifies cpu
    ensures Snapshot(cpu, bus) == BranchEffect(old(Snapshot(cpu, bus)), old(cpu.GetFlag(Zero)), v)
  {
    Branch(cpu, cpu.GetFlag(Zero), v);
  }

  method Bit(cpu: MOS6502, bus: Ram, v: AddressModeValue)
    requires v.AbsoluteAddress?
    modifies cpu
    ensures Snapshot(cpu, bus) == BitEffect(old(Snapshot(cpu, bus)), v)
  {
    var value := bus.Read(v.address);
    cpu.SetFlag(Zero, BitAnd(cpu.accumulator, value) == 0);
    cpu.SetFlag(Overflow, Bit6(value));
    cpu.SetFlag(Negative, Bit7(value));
  }

  method Bmi(cpu: MOS6502, bus: Ram, v: AddressModeValue)
    requires v.RelativeAddress? && CanBranch(cpu.State(), cpu.GetFlag(Negative), v.offset)
    modifies cpu
    ensures Snapshot(cpu, bus) == BranchEffect(old(Snapshot(cpu, bus)), old(cpu.GetFlag(Negative)), v)
  {
    Branch(cpu, cpu.GetFlag(Negative), v);
  }

  method Bne(cpu: MOS6502, bus: Ram, v: AddressModeValue)
    requires v.RelativeAddress? && CanBranch(cpu.State(), !cpu.GetFlag(Zero), v.offset)
    modifies cpu
    ensures Snapshot(cpu, bus) == BranchEffect(old(Snapshot(cpu, bus)), !old(cpu.GetFlag(Zero)), v)
  {
    Branch(cpu, !cpu.GetFlag(Zero), v);
  }

  method Bpl(cpu: MOS6502, bus: Ram, v: AddressModeValue)
    requires v.RelativeAddress? && CanBranch(cpu.State(), !cpu.GetFlag(Negative), v.offset)
    modifies cpu
    ensures Snapshot(cpu, bus) == BranchEffect(old(Snapshot(cpu, bus)), !old(cpu.GetFlag(Negative)), v)
  {
    Branch(cpu, !cpu.GetFlag(Negative), v);
  }

  method Brk(cpu: MOS6502, bus: Ram, v: AddressModeValue)
    requires cpu.programCounter < 0xFFFF
    modifies cpu, bus
    ensures Snapshot(cpu, bus) == BrkEffect(old(Snapshot(cpu, bus)))
  {
    cpu.PushStack16(bus, cpu.programCounter + 1);
    cpu.SetFlag(Break, true);
    cpu.PushStack(bus, StatusByte(cpu.statusRegister));
    cpu.SetFlag(InterruptDisable, true);
    cpu.programCounter := Read16(bus, IrqVector);
  }

  method Bvc(cpu: MOS6502, bus: Ram, v: AddressModeValue)
    requires v.RelativeAddress? && CanBranch(cpu.State(), !cpu.GetFlag(Overflow), v.offset)
    modifies cpu
    ensures Snapshot(cpu, bus) == BranchEffect(old(Snapshot(cpu, bus)), !old(cpu.GetFlag(Overflow)), v)
  {
    Branch(cpu, !cpu.GetFlag(Overflow), v);
  }

  method Bvs(cpu: MOS6502, bus: Ram, v: AddressModeValue)
    requires v.RelativeAddress? && CanBranch(cpu.State(), cpu.GetFlag(Overflow), v.offset)
    modifies cpu
    ensures Snapshot(cpu, bus) == BranchEffect(old(Snapshot(cpu, bus)), old(cpu.GetFlag(Overflow)), v)
  {
    Branch(cpu, cpu.GetFlag(Overflow), v);
  }

  method Clc(cpu: MOS6502, bus: Ram, v: AddressModeValue)
    modifies cpu
    ensures Snapshot(cpu, bus) == FlagEffect(old(Snapshot(cpu, bus)), Carry, false)
  {
    cpu.SetFlag(Carry, false);
  }

  method Cld(cpu: MOS6502, bus: Ram, v: AddressModeValue)
    modifies cpu
    ensures Snapshot(cpu, bus) == FlagEffect(old(Snapshot(cpu, bus)), Decimal, false)
  {
    cpu.SetFlag(Decimal, false);
  }

  method Cli(cpu: MOS6502, bus: Ram, v: AddressModeValue)
    modifies cpu
    ensures Snapshot(cpu, bus) == FlagEffect(old(Snapshot(cpu, bus)), InterruptDisable, false)
  {
    cpu.SetFlag(InterruptDisable, false);
  }

  method Clv(cpu: MOS6502, bus: Ram, v: AddressModeValue)
    modifies cpu
    ensures Snapshot(cpu, bus) == FlagEffect(old(Snapshot(cpu, bus)), Overflow, false)
  {
    cpu.SetFlag(Overflow, false);
  }

  method Cmp(cpu: MOS6502, bus: Ram, v: AddressModeValue)
    requires v.AbsoluteAddress?
    modifies cpu
    ensures Snapshot(cpu, bus) == CompareEffect(old(Snapshot(cpu, bus)), old(cpu.accumulator), v)
  {
    var _ := Compare(cpu, bus, cpu.accumulator, v);
  }

  method Cpx(cpu: MOS6502, bus: Ram, v: AddressModeValue)
    requires v.AbsoluteAddress?
    modifies cpu
    ensures Snapshot(cpu, bus) == CompareEffect(old(Snapshot(cpu, bus)), old(cpu.xRegister), v)
  {
    var _ := Compare(cpu, bus, cpu.xRegister, v);
  }

  method Cpy(cpu: MOS6502, bus: Ram, v: AddressModeValue)
    requires v.AbsoluteAddress?
    modifies cpu
    ensures Snapshot(cpu, bus) == CompareEffect(old(Snapshot(cpu, bus)), old(cpu.yRegister), v)
  {
    var _ := Compare(cpu, bus, cpu.yRegister, v);
  }

  method Dec(cpu: MOS6502, bus: Ram, v: AddressModeValue)
    requires v.AbsoluteAddress?
    modifies cpu, bus
    ensures Snapshot(cpu, bus) == StepMemoryEffect(old(Snapshot(cpu, bus)), v, false)
  {
    var operand := bus.Read(v.address);
    var value := Dec8(operand);
    cpu.SetFlag(Zero, value == 0);
    cpu.SetFlag(Negative, Bit7(value));
    bus.Write(v.address, value);
  }

  method Dex(cpu: MOS6502, bus: Ram, v: AddressModeValue)
    requires v.Implied?
    modifies cpu
    ensures Snapshot(cpu, bus) == DexEffect(old(Snapshot(cpu, bus)))
  {
    cpu.xRegister := Dec8(cpu.xRegister);
    cpu.SetFlag(Zero, cpu.xRegister == 0);
    cpu.SetFlag(Negative, Bit7(cpu.xRegister));
  }

  method Dey(cpu: MOS6502, bus: Ram, v: AddressModeValue)
    requires v.Implied?
    modifies cpu
    ensures Snapshot(cpu, bus) == DeyEffect(old(Snapshot(cpu, bus)))
  {
    cpu.yRegister := Dec8(cpu.yRegister);
    cpu.SetFlag(Zero, cpu.yRegister == 0);
    cpu.SetFlag(Negative, Bit7(cpu.yRegister));
  }

  method Eor(cpu: MOS6502, bus: Ram, v: AddressModeValue)
    requires v.AbsoluteAddress?
    modifies cpu
    ensures Snapshot(cpu, bus) == LogicEffect(XorBits, old(Snapshot(cpu, bus)), v)
  {
    var value := bus.Read(v.address);
    cpu.accumulator := BitXor(cpu.accumulator, value);
    cpu.SetFlag(Zero, cpu.accumulator == 0);
    cpu.SetFlag(Negative, Bit7(cpu.accumulator));
  }

  method Inc(cpu: MOS6502, bus: Ram, v: AddressModeValue)
    requires v.AbsoluteAddress?
    modifies cpu, bus
    ensures Snapshot(cpu, bus) == StepMemoryEffect(old(Snapshot(cpu, bus)), v, true)
  {
    var operand := bus.Read(v.address);
    var value := Inc8(operand);
    cpu.SetFlag(Zero, value == 0);
    cpu.SetFlag(Negative, Bit7(value));
    bus.Write(v.address, value);
  }

  method Inx(cpu: MOS6502, bus: Ram, v: AddressModeValue)
    requires v.Implied?
    modifies cpu
    ensures Snapshot(cpu, bus) == InxEffect(old(Snapshot(cpu, bus)))
  {
    cpu.xRegister := Inc8(cpu.xRegister);
    cpu.SetFlag(Zero, cpu.xRegister == 0);
    cpu.SetFlag(Negative, Bit7(cpu.xRegister));
  }

  method Iny(cpu: MOS6502, bus: Ram, v: AddressModeValue)
    requires v.Implied?
    modifies cpu
    ensures Snapshot(cpu, bus) == InyEffect(old(Snapshot(cpu, bus)))
  {
    cpu.yRegister := Inc8(cpu.yRegister);
    cpu.SetFlag(Zero, cpu.yRegister == 0);
    cpu.SetFlag(Negative, Bit7(cpu.yRegister));
  }

  method Jmp(cpu: MOS6502, bus: Ram, v: AddressModeValue)
    requires v.AbsoluteAddress?
    modifies cpu
    ensures Snapshot(cpu, bus) == JmpEffect(old(Snapshot(cpu, bus)), v)
  {
    cpu.programCounter := v.address;
  }

  method Jsr(cpu: MOS6502, bus: Ram, v: AddressModeValue)
    requires v.AbsoluteAddress? && cpu.programCounter >= 1
    modifies cpu, bus
    ensures Snapshot(cpu, bus) == JsrEffect(old(Snapshot(cpu, bus)), v)
  {
    cpu.PushStack16(bus, cpu.programCounter - 1);
    cpu.programCounter := v.address;
  }

  method Lda(cpu: MOS6502, bus: Ram, v: AddressModeValue)
    requires v.AbsoluteAddress?
    modifies cpu
    ensures Snapshot(cpu, bus) == LdaEffect(old(Snapshot(cpu, bus)), v)
  {
    cpu.accumulator := bus.Read(v.address);
    cpu.SetFlag(Zero, cpu.accumulator == 0);
    cpu.SetFlag(Negative, Bit7(cpu.accumulator));
  }

  method Ldx(cpu: MOS6502, bus: Ram, v: AddressModeValue)
    requires v.AbsoluteAddress?
    modifies cpu
    ensures Snapshot(cpu, bus) == LdxEffect(old(Snapshot(cpu, bus)), v)
  {
    cpu.xRegister := bus.Read(v.address);
    cpu.SetFlag(Zero, cpu.xRegister == 0);
    cpu.SetFlag(Negative, Bit7(cpu.xRegister));
  }

  method Ldy(cpu: MOS6502, bus: Ram, v: AddressModeValue)
    requires v.AbsoluteAddress?
    modifies cpu
    ensures Snapshot(cpu, bus) == LdyEffect(old(Snapshot(cpu, bus)), v)
  {
    cpu.yRegister := bus.Read(v.address);
    cpu.SetFlag(Zero, cpu.yRegister == 0);
    cpu.SetFlag(Negative, Bit7(cpu.yRegister));
  }

  /** `lsr_wrapped`. */
  method LsrWrapped(cpu: MOS6502, value: Byte) returns (shifted: Byte)
    modifies cpu
    ensures (shifted, cpu.statusRegister) == Shifted(ShiftRight, old(cpu.statusRegister), value)
    ensures cpu.State() == old(cpu.State()).(p := cpu.statusRegister)
  {
    cpu.SetFlag(Carry, value % 2 == 1);
    shifted := value / 2;
    cpu.SetFlag(Zero, shifted == 0);
    cpu.SetFlag(Negative, false);
  }

  method Lsr(cpu: MOS6502, bus: Ram, v: AddressModeValue)
    requires !v.RelativeAddress?
    modifies cpu, bus
    ensures Snapshot(cpu, bus) == ShiftEffect(ShiftRight, old(Snapshot(cpu, bus)), v)
  {
    match v
    case Implied =>
      cpu.accumulator := LsrWrapped(cpu, cpu.accumulator);
    case AbsoluteAddress(address) =>
      var operand := bus.Read(address);
      var value := LsrWrapped(cpu, operand);
      bus.Write(address, value);
  }

  method Nop(cpu: MOS6502, bus: Ram, v: AddressModeValue)
    ensures Snapshot(cpu, bus) == old(Snapshot(cpu, bus))
  {
  }

  method Ora(cpu: MOS6502, bus: Ram, v: AddressModeValue)
    requires v.AbsoluteAddress?
    modifies cpu
    ensures Snapshot(cpu, bus) == LogicEffect(OrBits, old(Snapshot(cpu, bus)), v)
  {
    var value := bus.Read(v.address);
    cpu.accumulator := BitOr(cpu.accumulator, value);
    cpu.SetFlag(Zero, cpu.accumulator == 0);
    cpu.SetFlag(Negative, Bit7(cpu.accumulator));
  }

  method Pha(cpu: MOS6502, bus: Ram, v: AddressModeValue)
    modifies cpu, bus
    ensures Snapshot(cpu, bus) == PhaEffect(old(Snapshot(cpu, bus)))
  {
    cpu.PushStack(bus, cpu.accumulator);
  }

  method Php(cpu: MOS6502, bus: Ram, v: AddressModeValue)
    modifies cpu, bus
    ensures Snapshot(cpu, bus) == PhpEffect(old(Snapshot(cpu, bus)))
  {
    var status := cpu.statusRegister;
    cpu.PushStack(bus, StatusByte(status | Mask(Break)));
  }

  method Pla(cpu: MOS6502, bus: Ram, v: AddressModeValue)
    modifies cpu
    ensures Snapshot(cpu, bus) == PlaEffect(old(Snapshot(cpu, bus)))
  {
    cpu.accumulator := cpu.PopStack(bus);
    cpu.SetFlag(Negative, Bit7(cpu.accumulator));
    cpu.SetFlag(Zero, cpu.accumulator == 0);
  }

  method Plp(cpu: MOS6502, bus: Ram, v: AddressModeValue)
    modifies cpu
    ensures Snapshot(cpu, bus) == PlpEffect(old(Snapshot(cpu, bus)))
  {
    var status := cpu.PopStack(bus);
    cpu.statusRegister := PulledStatus(cpu.statusRegister, status);
  }

  /** `rol_wrapped`. */
  method RolWrapped(cpu: MOS6502, value: Byte) returns (shifted: Byte)
    modifies cpu
    ensures (shifted, cpu.statusRegister) == Shifted(RotateLeft, old(cpu.statusRegister), value)
    ensures cpu.State() == old(cpu.State()).(p := cpu.statusRegister)
  {
    var carry := CarryBit(cpu.statusRegister);
    cpu.SetFlag(Carry, Bit7(value));
    shifted := DoubledByte(value) + carry;
    cpu.SetFlag(Negative, Bit7(shifted));
    cpu.SetFlag(Zero, shifted == 0);
  }

  method Rol(cpu: MOS6502, bus: Ram, v: AddressModeValue)
    requires !v.RelativeAddress?
    modifies cpu, bus
    ensures Snapshot(cpu, bus) == ShiftEffect(RotateLeft, old(Snapshot(cpu, bus)), v)
  {
    match v
    case Implied =>
      cpu.accumulator := RolWrapped(cpu, cpu.accumulator);
    case AbsoluteAddress(address) =>
      var operand := bus.Read(address);
      var value := RolWrapped(cpu, operand);
      bus.Write(address, value);
  }

  /** `ror_wrapped`. */
  method RorWrapped(cpu: MOS6502, value: Byte) returns (shifted: Byte)
    modifies cpu
    ensures (shifted, cpu.statusRegister) == Shifted(RotateRight, old(cpu.statusRegister), value)
    ensures cpu.State() == old(cpu.State()).(p := cpu.statusRegister)
  {
    var carry := CarryBit(cpu.statusRegister);
    cpu.SetFlag(Carry, value % 2 == 1);
    shifted := value / 2 + 0x80 * carry;
    cpu.SetFlag(Negative, Bit7(shifted));
    cpu.SetFlag(Zero, shifted == 0);
  }

  method Ror(cpu: MOS6502, bus: Ram, v: AddressModeValue)
    requires !v.RelativeAddress?
    modifies cpu, bus
    ensures Snapshot(cpu, bus) == ShiftEffect(RotateRight, old(Snapshot(cpu, bus)), v)
  {
    match v
    case Implied =>
      cpu.accumulator := RorWrapped(cpu, cpu.accumulator);
    case AbsoluteAddress(address) =>
      var operand := bus.Read(address);
      var value := RorWrapped(cpu, operand);
      bus.Write(address, value);
  }

  method Rti(cpu: MOS6502, bus: Ram, v: AddressModeValue)
    modifies cpu
    ensures Snapshot(cpu, bus) == RtiEffect(old(Snapshot(cpu, bus)))
  {
    Plp(cpu, bus, v);
    cpu.programCounter := cpu.PopStack16(bus);
  }

  method Rts(cpu: MOS6502, bus: Ram, v: AddressModeValue)
    requires v.Implied? && Pop16(Snapshot(cpu, bus)).0 < 0xFFFF
    modifies cpu
    ensures Snapshot(cpu, bus) == RtsEffect(old(Snapshot(cpu, bus)))
  {
    var address := cpu.PopStack16(bus);
    cpu.programCounter := address + 1;
  }

  method Sbc(cpu: MOS6502, bus: Ram, v: AddressModeValue, cfg: Config)
    requires v.AbsoluteAddress?
    modifies cpu
    ensures Snapshot(cpu, bus) == SbcEffect(old(Snapshot(cpu, bus)), v, cfg)
  {
    var operand := bus.Read(v.address);
    var value := Complement(operand);
    var result, carry := AddWithCarry(cpu, value, true, cfg);
    cpu.SetFlag(Carry, carry);
    cpu.SetFlag(Zero, result == 0);
    cpu.SetFlag(Overflow, Overflowed(cpu.accumulator, value, result));
    cpu.SetFlag(Negative, Bit7(result));
    cpu.accumulator := result;
  }

  method Sec(cpu: MOS6502, bus: Ram, v: AddressModeValue)
    modifies cpu
    ensures Snapshot(cpu, bus) == FlagEffect(old(Snapshot(cpu, bus)), Carry, true)
  {
    cpu.SetFlag(Carry, true);
  }

  method Sed(cpu: MOS6502, bus: Ram, v: AddressModeValue)
    modifies cpu
    ensures Snapshot(cpu, bus) == FlagEffect(old(Snapshot(cpu, bus)), Decimal, true)
  {
    cpu.SetFlag(Decimal, true);
  }

  method Sei(cpu: MOS6502, bus: Ram, v: AddressModeValue)
    modifies cpu
    ensures Snapshot(cpu, bus) == FlagEffect(old(Snapshot(cpu, bus)), InterruptDisable, true)
  {
    cpu.SetFlag(InterruptDisable, true);
  }

  method Sta(cpu: MOS6502, bus: Ram, v: AddressModeValue)
    requires v.AbsoluteAddress?
    modifies bus
    ensures Snapshot(cpu, bus) == StoreEffect(old(Snapshot(cpu, bus)), old(cpu.accumulator), v)
  {
    bus.Write(v.address, cpu.accumulator);
  }

  method Stx(cpu: MOS6502, bus: Ram, v: AddressModeValue)
    requires v.AbsoluteAddress?
    modifies bus
    ensures Snapshot(cpu, bus) == StoreEffect(old(Snapshot(cpu, bus)), old(cpu.xRegister), v)
  {
    bus.Write(v.address, cpu.xRegister);
  }

  method Sty(cpu: MOS6502, bus: Ram, v: AddressModeValue)
    requires v.AbsoluteAddress?
    modifies bus
    ensures Snapshot(cpu, bus) == StoreEffect(old(Snapshot(cpu, bus)), old(cpu.yRegister), v)
  {
    bus.Write(v.address, cpu.yRegister);
  }

  method Tax(cpu: MOS6502, bus: Ram, v: AddressModeValue)
    modifies cpu
    ensures Snapshot(cpu, bus) == TaxEffect(old(Snapshot(cpu, bus)))
  {
    cpu.xRegister := cpu.accumulator;
    cpu.SetFlag(Negative, Bit7(cpu.xRegister));
    cpu.SetFlag(Zero, cpu.xRegister == 0);
  }

  method Tay(cpu: MOS6502, bus: Ram, v: AddressModeValue)
    modifies cpu
    ensures Snapshot(cpu, bus) == TayEffect(old(Snapshot(cpu, bus)))
  {
    cpu.yRegister := cpu.accumulator;
    cpu.SetFlag(Negative, Bit7(cpu.yRegister));
    cpu.SetFlag(Zero, cpu.yRegister == 0);
  }

  method Tsx(cpu: MOS6502, bus: Ram, v: AddressModeValue)
    modifies cpu
    ensures Snapshot(cpu, bus) == TsxEffect(old(Snapshot(cpu, bus)))
  {
    cpu.xRegister := cpu.stackPointer;
    cpu.SetFlag(Negative, Bit7(cpu.xRegister));
    cpu.SetFlag(Zero, cpu.xRegister == 0);
  }

  method Txa(cpu: MOS6502, bus: Ram, v: AddressModeValue)
    modifies cpu
    ensures Snapshot(cpu, bus) == TxaEffect(old(Snapshot(cpu, bus)))
  {
    cpu.accumulator := cpu.xRegister;
    cpu.SetFlag(Negative, Bit7(cpu.accumulator));
    cpu.SetFlag(Zero, cpu.accumulator == 0);
  }

  method Txs(cpu: MOS6502, bus: Ram, v: AddressModeValue)
    modifies cpu
    ensures Snapshot(cpu, bus) == TxsEffect(old(Snapshot(cpu, bus)))
  {
    cpu.stackPointer := cpu.xRegister;
  }

  method Tya(cpu: MOS6502, bus: Ram, v: AddressModeValue)
    modifies cpu
    ensures Snapshot(cpu, bus) == TyaEffect(old(Snapshot(cpu, bus)))
  {
    cpu.accumulator := cpu.yRegister;
    cpu.SetFlag(Negative, Bit7(cpu.yRegister));
    cpu.SetFlag(Zero, cpu.yRegister == 0);
  }

  /** `compare`: sets C, Z and N and returns the wrapped difference; no register changes. */
  method Compare(cpu: MOS6502, bus: Ram, register: Byte, v: AddressModeValue) returns (difference: Byte)
    requires v.AbsoluteAddress?
    modifies cpu
    ensures difference == Sub8(register, Load(bus.contents, v.address))
    ensures Snapshot(cpu, bus) == CompareEffect(old(Snapshot(cpu, bus)), register, v)
  {
    var value := bus.Read(v.address);
    cpu.SetFlag(Carry, register >= value);
    cpu.SetFlag(Zero, register == value);
    difference := Sub8(register, value);
    cpu.SetFlag(Negative, Bit7(difference));
  }
}
