/*
 * What the legal opcodes mean: the arithmetic the ADC and SBC results and flags stand for,
 * where a branch goes, what a comparison's flags say, and the pairs of opcodes that undo
 * each other (PHP/PLP, JSR/RTS, BRK/RTI, ROL/ROR, INX/DEX, EOR twice).
 */
module OpcodeProperties {
  import opened Cpu
  import opened AddressModes
  import opened Opcodes

  /** A byte read as a two's-complement number. */
  function Signed(b: Byte): int { if Bit7(b) then b - 0x100 else b }

  // ---------------------------------------------------------------------------------------
  // Reading flags back after a run of `set_flag` calls

  /** C, Z, V and N set in that order (ADC, SBC) read back as set; bits 2 to 5 are kept. */
  lemma {:induction false} CarryZeroOverflowNegative(p: bv8, c: bool, z: bool, v: bool, n: bool)
    ensures var q := WithFlag(WithFlag(WithFlag(WithFlag(p, Carry, c), Zero, z), Overflow, v), Negative, n);
      && Flag(q, Carry) == c && Flag(q, Zero) == z && Flag(q, Overflow) == v && Flag(q, Negative) == n
      && q & 0x3C == p & 0x3C
  {
    var p1 := WithFlag(p, Carry, c);
    var p2 := WithFlag(p1, Zero, z);
    var p3 := WithFlag(p2, Overflow, v);
    WithFlagSpec(p3, Negative, n);
    WithFlagSpec(p2, Overflow, v);
    WithFlagSpec(p1, Zero, z);
    WithFlagSpec(p, Carry, c);
  }

  /** C, Z then N (the comparisons, LSR) read back as set; V and bits 2 to 5 are kept. */
  lemma {:induction false} CarryZeroNegative(p: bv8, c: bool, z: bool, n: bool)
    ensures var q := WithFlag(WithFlag(WithFlag(p, Carry, c), Zero, z), Negative, n);
      && Flag(q, Carry) == c && Flag(q, Zero) == z && Flag(q, Negative) == n
      && Flag(q, Overflow) == Flag(p, Overflow) && q & 0x7C == p & 0x7C
  {
    var p1 := WithFlag(p, Carry, c);
    var p2 := WithFlag(p1, Zero, z);
    WithFlagSpec(p2, Negative, n);
    WithFlagSpec(p1, Zero, z);
    WithFlagSpec(p, Carry, c);
  }

  /** C, N then Z (ASL, ROL, ROR) read back as set; V and bits 2 to 5 are kept. */
  lemma {:induction false} CarryNegativeZero(p: bv8, c: bool, n: bool, z: bool)
    ensures var q := WithFlag(WithFlag(WithFlag(p, Carry, c), Negative, n), Zero, z);
      && Flag(q, Carry) == c && Flag(q, Zero) == z && Flag(q, Negative) == n
      && Flag(q, Overflow) == Flag(p, Overflow) && q & 0x7C == p & 0x7C
  {
    var p1 := WithFlag(p, Carry, c);
    var p2 := WithFlag(p1, Negative, n);
    WithFlagSpec(p2, Zero, z);
    WithFlagSpec(p1, Negative, n);
    WithFlagSpec(p, Carry, c);
  }

  /** Z and N set from a result byte read back as its zero test and bit 7; every other bit is kept. */
  lemma {:induction false} ZeroNegative(p: bv8, r: Byte)
    ensures Flag(WithZN(p, r), Zero) == (r == 0) && Flag(WithZN(p, r), Negative) == Bit7(r)
    ensures Flag(WithZN(p, r), Carry) == Flag(p, Carry) && Flag(WithZN(p, r), Overflow) == Flag(p, Overflow)
    ensures WithZN(p, r) & 0x7D == p & 0x7D
    ensures WithNZ(p, r) == WithZN(p, r)
  {
    WithFlagSpec(WithFlag(p, Zero, r == 0), Negative, Bit7(r));
    WithFlagSpec(p, Zero, r == 0);
    ZNReadBack(p, r);
  }

  /** The flags ADC and SBC leave behind are those of the result they computed, and only those change. */
  lemma {:induction false} ArithmeticFlags(s: CpuState, value: Byte, subtract: bool, cfg: Config)
    ensures var (result, carry) := SumAndCarry(s, value, subtract, cfg); var t := Arithmetic(s, value, subtract, cfg);
      && t == s.(a := result, p := t.p)
      && Flag(t.p, Carry) == carry && (Flag(t.p, Zero) <==> result == 0)
      && Flag(t.p, Overflow) == Overflowed(s.a, value, result) && Flag(t.p, Negative) == Bit7(result)
      && t.p & 0x3C == s.p & 0x3C
  {
    var (result, carry) := SumAndCarry(s, value, subtract, cfg);
    CarryZeroOverflowNegative(s.p, carry, result == 0, Overflowed(s.a, value, result), Bit7(result));
  }

  /**
   * Binary ADC: the new accumulator and carry together are `A + M + C`; Z and N describe
   * the new accumulator; V says the signed sum left the range -128..127. Memory, the other
   * registers and the mode flags are unchanged.
   */
  lemma {:induction false} AdcBinary(m: Machine, v: AddressModeValue, cfg: Config)
    requires v.AbsoluteAddress? && !DecimalMode(m.cpu, cfg)
    ensures var s := AdcEffect(m, v, cfg).cpu;
      && s.a + (if Flag(s.p, Carry) then 0x100 else 0) == m.cpu.a + Operand(m, v) + CarryBit(m.cpu.p)
      && (Flag(s.p, Zero) <==> s.a == 0)
      && Flag(s.p, Negative) == Bit7(s.a)
      && (Flag(s.p, Overflow) <==> !(-0x80 <= Signed(m.cpu.a) + Signed(Operand(m, v)) + CarryBit(m.cpu.p) <= 0x7F))
      && s == m.cpu.(a := s.a, p := s.p)
      && s.p & 0x3C == m.cpu.p & 0x3C
    ensures AdcEffect(m, v, cfg).mem == m.mem
  {
    ArithmeticFlags(m.cpu, Operand(m, v), false, cfg);
  }

  /**
   * Binary SBC: the new accumulator is `A - M - (1 - C)` modulo 256, the carry says no
   * borrow was needed, and V says the signed difference left the range -128..127.
   */
  lemma {:induction false} SbcBinary(m: Machine, v: AddressModeValue, cfg: Config)
    requires v.AbsoluteAddress? && !DecimalMode(m.cpu, cfg)
    ensures var s := SbcEffect(m, v, cfg).cpu; var borrow := 1 - CarryBit(m.cpu.p);
      && s.a == (m.cpu.a - Operand(m, v) - borrow) % 0x100
      && (Flag(s.p, Carry) <==> m.cpu.a >= Operand(m, v) + borrow)
      && (Flag(s.p, Zero) <==> s.a == 0)
      && Flag(s.p, Negative) == Bit7(s.a)
      && (Flag(s.p, Overflow) <==> !(-0x80 <= Signed(m.cpu.a) - Signed(Operand(m, v)) - borrow <= 0x7F))
      && s == m.cpu.(a := s.a, p := s.p)
      && s.p & 0x3C == m.cpu.p & 0x3C
    ensures SbcEffect(m, v, cfg).mem == m.mem
  {
    ArithmeticFlags(m.cpu, Complement(Operand(m, v)), true, cfg);
  }

  /** Outside decimal mode, SBC of M is ADC of `!M`: the same result and the same flags. */
  lemma {:induction false} SbcIsAdcOfComplement(m: Machine, v: AddressModeValue, cfg: Config)
    requires v.AbsoluteAddress? && !DecimalMode(m.cpu, cfg)
    ensures SbcEffect(m, v, cfg) == AdcEffect(m.(mem := Store(m.mem, v.address, Complement(Operand(m, v)))), v, cfg).(mem := m.mem)
  {
    LoadStore(m.mem, v.address, Complement(Operand(m, v)), v.address);
  }

  /**
   * A branch not taken changes nothing; a taken branch moves the program counter by the
   * signed offset, modulo 2^16, and costs one more cycle, or two when it lands on another
   * page. Nothing else changes.
   */
  lemma {:induction false} BranchMeaning(m: Machine, taken: bool, v: AddressModeValue)
    requires v.RelativeAddress? && CanBranch(m.cpu, taken, v.offset)
    ensures !taken ==> BranchEffect(m, taken, v) == m
    ensures taken ==> var s := BranchEffect(m, taken, v).cpu;
      && s.pc == (m.cpu.pc + Signed(v.offset)) % 0x10000
      && s.remaining == m.cpu.remaining + (if Page(s.pc) == Page(m.cpu.pc) then 1 else 2)
      && s == m.cpu.(pc := s.pc, remaining := s.remaining)
    ensures BranchEffect(m, taken, v).mem == m.mem
  {
    var w: int := SignExtend(v.offset);
    assert (if w >= 0x8000 then w - 0x10000 else w) == Signed(v.offset);
  }

  /**
   * A comparison sets C when the register is at least the operand, Z when they are equal,
   * and N from bit 7 of their difference modulo 256; every other flag is kept. The
   * difference undoes itself: adding the operand back gives the register.
   */
  lemma {:induction false} CompareMeaning(p: bv8, register: Byte, value: Byte)
    ensures Flag(CompareFlags(p, register, value), Carry) <==> register >= value
    ensures Flag(CompareFlags(p, register, value), Zero) <==> register == value
    ensures Flag(CompareFlags(p, register, value), Negative) <==> Bit7(Sub8(register, value))
    ensures Flag(CompareFlags(p, register, value), Overflow) == Flag(p, Overflow)
    ensures Add8(Sub8(register, value), value) == register
  {
    CarryZeroNegative(p, register >= value, register == value, Bit7(Sub8(register, value)));
  }

  /** PLP keeps the live Break bits and takes every other bit from the popped byte. */
  lemma PulledStatusBits(p: bv8, popped: Byte)
    ensures PulledStatus(p, popped) & Mask(Break) == p & Mask(Break)
    ensures PulledStatus(p, popped) & !Mask(Break) == StatusOf(popped) & !Mask(Break)
  {
  }

  /** PHP pushes the status with bits 4 and 5 set and leaves the live status alone. */
  lemma {:induction false} PhpPushesBreak(m: Machine)
    ensures PhpEffect(m).cpu == m.cpu.(sp := Dec8(m.cpu.sp))
    ensures StatusOf(Pop(PhpEffect(m)).0) == m.cpu.p | 0x30
  {
    PushThenPop(m, StatusByte(m.cpu.p | Mask(Break)));
    StatusOfByte(m.cpu.p | Mask(Break));
  }

  /** PLP right after PHP restores the status and the stack pointer. */
  lemma {:induction false} PhpThenPlp(m: Machine)
    ensures PlpEffect(PhpEffect(m)).cpu == m.cpu
  {
    var b := StatusByte(m.cpu.p | Mask(Break));
    PushThenPop(m, b);
    StatusOfByte(m.cpu.p | Mask(Break));
    assert PulledStatus(m.cpu.p, b) == m.cpu.p;
  }

  /** PLA right after PHA restores the accumulator and the stack pointer; Z and N describe it. */
  lemma {:induction false} PhaThenPla(m: Machine)
    ensures PlaEffect(PhaEffect(m)).cpu == m.cpu.(p := WithZN(m.cpu.p, m.cpu.a))
  {
    PushThenPop(m, m.cpu.a);
    ZNReadBack(m.cpu.p, m.cpu.a);
  }

  /** JSR pushes the address of its last byte; RTS returns just after it, to the stack pointer JSR found. */
  lemma {:induction false} JsrThenRts(m: Machine, v: AddressModeValue)
    requires v.AbsoluteAddress? && m.cpu.pc >= 1
    ensures Pop16(JsrEffect(m, v)).0 < 0xFFFF
    ensures RtsEffect(JsrEffect(m, v)).cpu == m.cpu
  {
    var m1 := Push16(m, m.cpu.pc - 1);
    Push16ThenPop16(m, m.cpu.pc - 1);
    PopIgnoresProgramCounter(m1, v.address);
  }

  /** Popping reads only the stack pointer and memory. */
  lemma {:induction false} PopIgnoresProgramCounter(m: Machine, pc: Word)
    ensures Pop16(m.(cpu := m.cpu.(pc := pc))).0 == Pop16(m).0
    ensures Pop16(m.(cpu := m.cpu.(pc := pc))).1.cpu == Pop16(m).1.cpu.(pc := pc)
  {
  }

  /** BRK sets both Break bits in the status it pushes; RTI's PLP rule gives that status back. */
  lemma BrkStatus(p: bv8)
    ensures WithFlag(p, Break, true) == p | 0x30
    ensures PulledStatus(WithFlag(WithFlag(p, Break, true), InterruptDisable, true), StatusByte(WithFlag(p, Break, true))) == p | 0x30
    ensures Flag(WithFlag(WithFlag(p, Break, true), InterruptDisable, true), InterruptDisable)
  {
    StatusOfByte(WithFlag(p, Break, true));
  }

  /**
   * BRK jumps through the IRQ vector as memory held it; a later RTI comes back to the byte
   * after BRK's padding byte, with the stack pointer as BRK found it and the status as it
   * was but with bits 4 and 5 set.
   */
  lemma {:induction false} BrkThenRti(m: Machine)
    requires m.cpu.pc < 0xFFFF
    ensures BrkEffect(m).cpu.pc == WordAt(m.mem, IrqVector)
    ensures Flag(BrkEffect(m).cpu.p, InterruptDisable)
    ensures RtiEffect(BrkEffect(m)).cpu == m.cpu.(pc := m.cpu.pc + 1, p := m.cpu.p | Mask(Break))
  {
    var sp := m.cpu.sp;
    var ret := m.cpu.pc + 1;
    var status := StatusByte(WithFlag(m.cpu.p, Break, true));
    var mem1 := Store(m.mem, StackAddress(sp), Hi(ret));
    var mem2 := Store(mem1, StackAddress(Dec8(sp)), Lo(ret));
    var mem3 := Store(mem2, StackAddress(Dec8(Dec8(sp))), status);
    var b := BrkEffect(m);
    BrkStatus(m.cpu.p);
    assert b.mem == mem3 && b.cpu.sp == Dec8(Dec8(Dec8(sp)));
    // The vector lies outside the stack page, so the pushes leave it alone.
    VectorUntouched(m.mem, mem1, mem2, mem3, sp, Hi(ret), Lo(ret), status, IrqVector);
    // RTI pops the status, then the low and the high byte of the return address.
    LoadStore(mem2, StackAddress(Dec8(Dec8(sp))), status, StackAddress(Dec8(Dec8(sp))));
    LoadStore(mem2, StackAddress(Dec8(Dec8(sp))), status, StackAddress(Dec8(sp)));
    LoadStore(mem2, StackAddress(Dec8(Dec8(sp))), status, StackAddress(sp));
    LoadStore(mem1, StackAddress(Dec8(sp)), Lo(ret), StackAddress(Dec8(sp)));
    LoadStore(mem1, StackAddress(Dec8(sp)), Lo(ret), StackAddress(sp));
    LoadStore(m.mem, StackAddress(sp), Hi(ret), StackAddress(sp));
    RtiPops(b, status, Lo(ret), Hi(ret));
    JoinOfLoHi(ret);
  }

  /** RTI on a stack holding a status byte and then a return address, low byte first. */
  lemma {:induction false} RtiPops(n: Machine, status: Byte, lo: Byte, hi: Byte)
    requires Load(n.mem, StackAddress(Inc8(n.cpu.sp))) == status
    requires Load(n.mem, StackAddress(Inc8(Inc8(n.cpu.sp)))) == lo
    requires Load(n.mem, StackAddress(Inc8(Inc8(Inc8(n.cpu.sp))))) == hi
    ensures RtiEffect(n).cpu == n.cpu.(sp := Inc8(Inc8(Inc8(n.cpu.sp))), p := PulledStatus(n.cpu.p, status), pc := Join(lo, hi))
  {
  }

  /** Three pushes onto the stack page do not reach the IRQ or the NMI vector. */
  lemma {:induction false} VectorUntouched(mem0: Memory, mem1: Memory, mem2: Memory, mem3: Memory, sp: Byte, hi: Byte, lo: Byte, status: Byte, vector: Word)
    requires vector == IrqVector || vector == NmiVector
    requires mem1 == Store(mem0, StackAddress(sp), hi)
    requires mem2 == Store(mem1, StackAddress(Dec8(sp)), lo)
    requires mem3 == Store(mem2, StackAddress(Dec8(Dec8(sp))), status)
    ensures WordAt(mem3, vector) == WordAt(mem0, vector)
  {
    LoadStore(mem0, StackAddress(sp), hi, vector);
    LoadStore(mem0, StackAddress(sp), hi, vector + 1);
    LoadStore(mem1, StackAddress(Dec8(sp)), lo, vector);
    LoadStore(mem1, StackAddress(Dec8(sp)), lo, vector + 1);
    LoadStore(mem2, StackAddress(Dec8(Dec8(sp))), status, vector);
    LoadStore(mem2, StackAddress(Dec8(Dec8(sp))), status, vector + 1);
  }

  /** The carry out of a shift is bit 7 of the operand for ASL and ROL and bit 0 for LSR and ROR; V is kept. */
  lemma {:induction false} ShiftedFlags(kind: Shift, p: bv8, value: Byte)
    ensures Flag(Shifted(kind, p, value).1, Carry) == if kind == ShiftLeft || kind == RotateLeft then Bit7(value) else value % 2 == 1
    ensures Flag(Shifted(kind, p, value).1, Zero) == (Shifted(kind, p, value).0 == 0)
    ensures Flag(Shifted(kind, p, value).1, Negative) == (kind != ShiftRight && Bit7(Shifted(kind, p, value).0))
    ensures Flag(Shifted(kind, p, value).1, Overflow) == Flag(p, Overflow)
    ensures Shifted(kind, p, value).1 & 0x7C == p & 0x7C
  {
    if kind == ShiftRight {
      ShiftRightFlags(p, value);
    } else {
      DoublingShiftFlags(kind, p, value);
    }
  }

  /** LSR: C from bit 0, Z from the result, N cleared. */
  lemma {:induction false} ShiftRightFlags(p: bv8, value: Byte)
    ensures var (r, q) := Shifted(ShiftRight, p, value);
      && Flag(q, Carry) == (value % 2 == 1) && Flag(q, Zero) == (r == 0) && !Flag(q, Negative)
      && Flag(q, Overflow) == Flag(p, Overflow) && q & 0x7C == p & 0x7C
  {
    CarryZeroNegative(p, value % 2 == 1, value / 2 == 0, false);
  }

  /** ASL, ROL and ROR: C from the bit shifted out, then N and Z from the result. */
  lemma {:induction false} DoublingShiftFlags(kind: Shift, p: bv8, value: Byte)
    requires kind != ShiftRight
    ensures var (r, q) := Shifted(kind, p, value);
      && Flag(q, Carry) == (if kind == RotateRight then value % 2 == 1 else Bit7(value))
      && Flag(q, Zero) == (r == 0) && Flag(q, Negative) == Bit7(r)
      && Flag(q, Overflow) == Flag(p, Overflow) && q & 0x7C == p & 0x7C
  {
    var c := if kind == RotateRight then value % 2 == 1 else Bit7(value);
    var r := Shifted(kind, p, value).0;
    assert Shifted(kind, p, value).1 == WithNZ(WithFlag(p, Carry, c), r);
    CarryThenNZ(p, c, r);
  }

  /** C, then N and Z from a result byte, read back as set; V and bits 2 to 5 are kept. */
  lemma {:induction false} CarryThenNZ(p: bv8, c: bool, r: Byte)
    ensures var q := WithNZ(WithFlag(p, Carry, c), r);
      && Flag(q, Carry) == c && Flag(q, Zero) == (r == 0) && Flag(q, Negative) == Bit7(r)
      && Flag(q, Overflow) == Flag(p, Overflow) && q & 0x7C == p & 0x7C
  {
    CarryNegativeZero(p, c, Bit7(r), r == 0);
  }

  /**
   * What the shifted byte and the carry out stand for: ASL and LSR double and halve the
   * operand, ROL and ROR do the same through the carry.
   */
  lemma {:induction false} ShiftedArithmetic(kind: Shift, p: bv8, value: Byte)
    ensures var (r, q) := Shifted(kind, p, value); var c := CarryBit(q);
      match kind
      case ShiftLeft => r + 0x100 * c == 2 * value
      case ShiftRight => 2 * r + c == value
      case RotateLeft => r + 0x100 * c == 2 * value + CarryBit(p)
      case RotateRight => 2 * r + c == value + 0x100 * CarryBit(p)
  {
    ShiftedFlags(kind, p, value);
  }

  /** ROR undoes ROL: the byte and the carry come back. */
  lemma {:induction false} RolThenRor(p: bv8, value: Byte)
    ensures var (r, q) := Shifted(RotateLeft, p, value);
      Shifted(RotateRight, q, r).0 == value && CarryBit(Shifted(RotateRight, q, r).1) == CarryBit(p)
  {
    var (r, q) := Shifted(RotateLeft, p, value);
    ShiftedArithmetic(RotateLeft, p, value);
    ShiftedArithmetic(RotateRight, q, r);
  }

  /** ROL undoes ROR: the byte and the carry come back. */
  lemma {:induction false} RorThenRol(p: bv8, value: Byte)
    ensures var (r, q) := Shifted(RotateRight, p, value);
      Shifted(RotateLeft, q, r).0 == value && CarryBit(Shifted(RotateLeft, q, r).1) == CarryBit(p)
  {
    var (r, q) := Shifted(RotateRight, p, value);
    ShiftedArithmetic(RotateRight, p, value);
    ShiftedArithmetic(RotateLeft, q, r);
  }

  /**
   * A shift of the accumulator leaves memory alone; a shift of memory changes only the byte
   * at its address and, of the registers, only the status.
   */
  lemma {:induction false} ShiftTargets(kind: Shift, m: Machine, v: AddressModeValue, b: Word)
    requires !v.RelativeAddress?
    ensures v.Implied? ==>
      Load(ShiftEffect(kind, m, v).mem, b) == Load(m.mem, b) && ShiftEffect(kind, m, v).cpu.a == Shifted(kind, m.cpu.p, m.cpu.a).0
    ensures v.AbsoluteAddress? ==>
      && ShiftEffect(kind, m, v).cpu == m.cpu.(p := ShiftEffect(kind, m, v).cpu.p)
      && Load(ShiftEffect(kind, m, v).mem, b) == (if b == v.address then Shifted(kind, m.cpu.p, Load(m.mem, b)).0 else Load(m.mem, b))
  {
    if v.AbsoluteAddress? {
      LoadStore(m.mem, v.address, Shifted(kind, m.cpu.p, Load(m.mem, v.address)).0, b);
    }
  }

  /** DEX undoes INX (and DEY undoes INY), apart from Z and N, which then describe the register. */
  lemma {:induction false} InxThenDex(m: Machine)
    ensures DexEffect(InxEffect(m)) == m.(cpu := m.cpu.(p := WithZN(m.cpu.p, m.cpu.x)))
    ensures DeyEffect(InyEffect(m)) == m.(cpu := m.cpu.(p := WithZN(m.cpu.p, m.cpu.y)))
  {
    ZeroNegativeTwice(m.cpu.p, Inc8(m.cpu.x), m.cpu.x);
    ZeroNegativeTwice(m.cpu.p, Inc8(m.cpu.y), m.cpu.y);
  }

  /** Setting Z and N a second time wipes out the first setting. */
  lemma ZeroNegativeTwice(p: bv8, first: Byte, second: Byte)
    ensures WithZN(WithZN(p, first), second) == WithZN(p, second)
  {
  }

  /** DEC undoes INC on every byte of memory. */
  lemma {:induction false} IncThenDec(m: Machine, v: AddressModeValue, b: Word)
    requires v.AbsoluteAddress?
    ensures Load(StepMemoryEffect(StepMemoryEffect(m, v, true), v, false).mem, b) == Load(m.mem, b)
    ensures Load(StepMemoryEffect(m, v, true).mem, v.address) == (Operand(m, v) + 1) % 0x100
  {
    var m1 := StepMemoryEffect(m, v, true);
    LoadStore(m.mem, v.address, Inc8(Operand(m, v)), v.address);
    LoadStore(m.mem, v.address, Inc8(Operand(m, v)), b);
    LoadStore(m1.mem, v.address, Dec8(Inc8(Operand(m, v))), b);
  }

  /** `Bitwise` exclusive or applied twice with the same mask gives the first argument back. */
  lemma {:induction false} XorTwice(a: nat, b: nat, n: nat)
    requires a < Pow2(n)
    ensures Bitwise(XorBits, Bitwise(XorBits, a, b, n), b, n) == a
  {
    if n > 0 {
      var r := Bitwise(XorBits, a / 2, b / 2, n - 1);
      XorTwice(a / 2, b / 2, n - 1);
      assert Bitwise(XorBits, a, b, n) / 2 == r;
    }
  }

  /** EOR twice with the same operand restores the accumulator. */
  lemma {:induction false} EorTwice(m: Machine, v: AddressModeValue)
    requires v.AbsoluteAddress?
    ensures LogicEffect(XorBits, LogicEffect(XorBits, m, v), v).cpu.a == m.cpu.a
  {
    XorTwice(m.cpu.a, Operand(m, v), 8);
  }

  /** `a & b` never exceeds either operand. */
  lemma {:induction false} AndBounded(a: nat, b: nat, n: nat)
    requires a < Pow2(n) && b < Pow2(n)
    ensures Bitwise(AndBits, a, b, n) <= a && Bitwise(AndBits, a, b, n) <= b
  {
    if n > 0 {
      AndBounded(a / 2, b / 2, n - 1);
    }
  }

  /**
   * AND, ORA and EOR: the accumulator takes the combined byte, Z and N describe it, and
   * only the accumulator and the status change; AND gives no more than either input.
   */
  lemma {:induction false} LogicMeaning(op: BitOp, m: Machine, v: AddressModeValue)
    requires v.AbsoluteAddress?
    ensures var s := LogicEffect(op, m, v).cpu;
      && (Flag(s.p, Zero) <==> s.a == 0)
      && Flag(s.p, Negative) == Bit7(s.a)
      && Flag(s.p, Carry) == Flag(m.cpu.p, Carry)
      && s == m.cpu.(a := s.a, p := s.p)
      && (op == AndBits ==> s.a <= m.cpu.a && s.a <= Operand(m, v))
    ensures LogicEffect(op, m, v).mem == m.mem
  {
    var r := Bitwise(op, m.cpu.a, Operand(m, v), 8);
    ZeroNegative(m.cpu.p, r);
    AndByteBounded(op, m.cpu.a, Operand(m, v));
  }

  /** AND of two bytes is no more than either. */
  lemma {:induction false} AndByteBounded(op: BitOp, a: Byte, b: Byte)
    ensures op == AndBits ==> Bitwise(op, a, b, 8) <= a && Bitwise(op, a, b, 8) <= b
  {
    if op == AndBits {
      assert Pow2(8) == 0x100;
      AndBounded(a, b, 8);
    }
  }

  /** BIT: Z says `A & M` is 0, V and N copy bits 6 and 7 of M; no register changes. */
  lemma {:induction false} BitMeaning(m: Machine, v: AddressModeValue)
    requires v.AbsoluteAddress?
    ensures var s := BitEffect(m, v).cpu;
      && (Flag(s.p, Zero) <==> BitAnd(m.cpu.a, Operand(m, v)) == 0)
      && Flag(s.p, Overflow) == Bit6(Operand(m, v))
      && Flag(s.p, Negative) == Bit7(Operand(m, v))
      && s == m.cpu.(p := s.p)
  {
    var value := Operand(m, v);
    var p1 := WithFlag(m.cpu.p, Zero, BitAnd(m.cpu.a, value) == 0);
    var p2 := WithFlag(p1, Overflow, Bit6(value));
    WithFlagSpec(p2, Negative, Bit7(value));
    WithFlagSpec(p1, Overflow, Bit6(value));
    WithFlagOther(p2, Negative, Overflow, Bit7(value));
    WithFlagSpec(m.cpu.p, Zero, BitAnd(m.cpu.a, value) == 0);
    WithFlagOther(p1, Overflow, Zero, Bit6(value));
    WithFlagOther(p2, Negative, Zero, Bit7(value));
  }

  /** The loads put the operand in their register, with Z and N describing it; nothing else changes. */
  lemma {:induction false} LoadsSetZeroAndNegative(m: Machine, v: AddressModeValue)
    requires v.AbsoluteAddress?
    ensures var s := LdaEffect(m, v).cpu;
      s.a == Operand(m, v) && s == m.cpu.(a := s.a, p := s.p)
      && (Flag(s.p, Zero) <==> Operand(m, v) == 0) && Flag(s.p, Negative) == Bit7(Operand(m, v))
    ensures var s := LdxEffect(m, v).cpu;
      s.x == Operand(m, v) && s == m.cpu.(x := s.x, p := s.p)
      && (Flag(s.p, Zero) <==> Operand(m, v) == 0) && Flag(s.p, Negative) == Bit7(Operand(m, v))
    ensures var s := LdyEffect(m, v).cpu;
      s.y == Operand(m, v) && s == m.cpu.(y := s.y, p := s.p)
      && (Flag(s.p, Zero) <==> Operand(m, v) == 0) && Flag(s.p, Negative) == Bit7(Operand(m, v))
  {
    ZeroNegative(m.cpu.p, Operand(m, v));
  }

  /** A store writes the register at the address and nothing else. */
  lemma {:induction false} StoreMeaning(m: Machine, register: Byte, v: AddressModeValue, b: Word)
    requires v.AbsoluteAddress?
    ensures StoreEffect(m, register, v).cpu == m.cpu
    ensures Load(StoreEffect(m, register, v).mem, b) == if b == v.address then register else Load(m.mem, b)
  {
    LoadStore(m.mem, v.address, register, b);
  }
}
