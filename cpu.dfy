/*
 * Processor state of the MOS 6502 emulator (src/lib.rs): registers, the status byte and its
 * flags, the stack page with its wrapping 8-bit pointer, little-endian 16-bit reads, reset
 * and the interrupt-request latches. The bus is modelled as a 64 KiB RAM.
 *
 * Bytes and addresses are integers in their ranges. Every `wrapping_add`/`wrapping_sub` of the
 * source is written out; where the source uses a plain `+` or `-` (which panics on overflow in
 * a debug build), the members require that the operation stays in range.
 */
module Cpu {

  /** A `u8`. */
  type Byte = x: int | 0 <= x < 0x100

  /** A `u16`: an address of the 64 KiB address space. */
  type Word = x: int | 0 <= x < 0x10000

  /** The remaining-cycles counter is a `u8` whose additions are not wrapping. */
  type CycleCount = Byte

  /**
   * The contents of the address space, as seen through the bus. A location that has never
   * been given a value reads as zero.
   */
  type Memory = imap<Word, Byte>

  /** The byte at `a`. */
  function Load(mem: Memory, a: Word): Byte
  {
    if a in mem then mem[a] else 0
  }

  /** The memory after writing `v` at `a`. */
  function Store(mem: Memory, a: Word, v: Byte): Memory
  {
    mem[a := v]
  }

  /** Writing changes exactly one location. */
  lemma LoadStore(mem: Memory, a: Word, v: Byte, b: Word)
    ensures Load(Store(mem, a, v), b) == if a == b then v else Load(mem, b)
  {
  }

  /** Base address of the stack page. */
  const StackPage: Word := 0x0100
  /** Vector read when a non-maskable interrupt is serviced. */
  const NmiVector: Word := 0xFFFA
  /** Vector read on reset. */
  const ResetVector: Word := 0xFFFC
  /** Vector read when an interrupt request is serviced or BRK executes. */
  const IrqVector: Word := 0xFFFE

  // ---------------------------------------------------------------------------------------
  // Bytes and words

  /** `b.wrapping_add(1)`. */
  function Inc8(b: Byte): Byte { if b == 0xFF then 0 else b + 1 }

  /** `b.wrapping_sub(1)`. */
  function Dec8(b: Byte): Byte { if b == 0 then 0xFF else b - 1 }

  /** `a.wrapping_add(b)` on two bytes. */
  function Add8(a: Byte, b: Byte): Byte { if a + b < 0x100 then a + b else a + b - 0x100 }

  /** `a.wrapping_sub(b)` on two bytes. */
  function Sub8(a: Byte, b: Byte): Byte { if a >= b then a - b else a - b + 0x100 }

  /** `a.wrapping_add(b)` on two words. */
  function Add16(a: Word, b: Word): Word { if a + b < 0x10000 then a + b else a + b - 0x10000 }

  /** Bit 7 of a byte, the sign bit (`v & 0x80 != 0`). */
  predicate Bit7(v: Byte) { v >= 0x80 }

  function Pow2(n: nat): (r: nat)
    ensures r >= 1
  {
    if n == 0 then 1 else 2 * Pow2(n - 1)
  }

  /** Low byte of a word (`data as u8`). */
  function Lo(w: Word): Byte { w % 0x100 }

  /** High byte of a word (`(data >> 8) as u8`). */
  function Hi(w: Word): Byte { w / 0x100 }

  /** The word `(hi << 8) | lo`. */
  function Join(lo: Byte, hi: Byte): Word { hi * 0x100 + lo }

  /** Splitting a joined word gives back its two bytes. */
  lemma LoHiOfJoin(lo: Byte, hi: Byte)
    ensures Lo(Join(lo, hi)) == lo && Hi(Join(lo, hi)) == hi
  {
  }

  /** Joining the two bytes of a word gives back the word. */
  lemma JoinOfLoHi(w: Word)
    ensures Join(Lo(w), Hi(w)) == w
  {
  }

  /**
   * The 256-byte page an address lies on, as its page number: `a & 0xff00` is equal for
   * two addresses exactly when `a >> 8` is.
   */
  function Page(a: Word): Byte { a / 0x100 }

  /** `zp.wrapping_add(k) as u16`: an address on page zero. */
  function ZeroPageAddress(zp: Byte, k: Byte): Word
  {
    Add8(zp, k)
  }

  // ---------------------------------------------------------------------------------------
  // Bitwise operations on bytes

  /** The three bitwise connectives the opcodes use. */
  datatype BitOp = AndBits | OrBits | XorBits

  function Connective(op: BitOp, x: bool, y: bool): bool
  {
    match op
    case AndBits => x && y
    case OrBits => x || y
    case XorBits => x != y
  }

  /** `op` applied bit by bit to the low `n` bits of `a` and `b`, from bit 0 up. */
  function Bitwise(op: BitOp, a: nat, b: nat, n: nat): (r: nat)
    ensures r < Pow2(n)
  {
    if n == 0 then 0
    else (if Connective(op, a % 2 == 1, b % 2 == 1) then 1 else 0) + 2 * Bitwise(op, a / 2, b / 2, n - 1)
  }

  /** `a & b`. */
  function BitAnd(a: Byte, b: Byte): Byte { Bitwise(AndBits, a, b, 8) }

  /** `a | b`. */
  function BitOr(a: Byte, b: Byte): Byte { Bitwise(OrBits, a, b, 8) }

  /** `a ^ b`. */
  function BitXor(a: Byte, b: Byte): Byte { Bitwise(XorBits, a, b, 8) }

  // ---------------------------------------------------------------------------------------
  // Status flags

  /** The flags of the status register; Break covers both bits 4 and 5. */
  datatype StatusFlag = Carry | Zero | InterruptDisable | Decimal | Break | BreakIrq | Overflow | Negative

  /** The bitmask of each flag within the status byte. */
  function Mask(f: StatusFlag): bv8
  {
    match f
    case Carry => 0x01
    case Zero => 0x02
    case InterruptDisable => 0x04
    case Decimal => 0x08
    case Break => 0x30
    case BreakIrq => 0x20
    case Overflow => 0x40
    case Negative => 0x80
  }

  /** `get_flag`: whether any bit of the flag's mask is set in `p`. */
  predicate Flag(p: bv8, f: StatusFlag)
  {
    p & Mask(f) != 0
  }

  /** `set_flag`: clear the bits of the flag, then set them all when `v` holds. */
  function WithFlag(p: bv8, f: StatusFlag, v: bool): bv8
  {
    var cleared := p & !Mask(f);
    if v then cleared | Mask(f) else cleared
  }

  /**
   * Setting a flag makes it read back as the value set, and leaves every bit outside the
   * flag's mask as it was.
   */
  lemma WithFlagSpec(p: bv8, f: StatusFlag, v: bool)
    ensures Flag(WithFlag(p, f, v), f) == v
    ensures WithFlag(p, f, v) & !Mask(f) == p & !Mask(f)
  {
  }

  /** Flags whose masks share no bit. */
  predicate Disjoint(f: StatusFlag, g: StatusFlag)
  {
    Mask(f) & Mask(g) == 0
  }

  /** Setting one flag does not change how a flag with a disjoint mask reads. */
  lemma WithFlagOther(p: bv8, f: StatusFlag, g: StatusFlag, v: bool)
    requires Disjoint(f, g)
    ensures Flag(WithFlag(p, f, v), g) == Flag(p, g)
  {
  }

  /** The status byte as the value written to memory. */
  function StatusByte(p: bv8): Byte { p as int }

  /** A byte read from memory as a status value. */
  function StatusOf(b: Byte): bv8 { b as bv8 }

  /** A status byte written to memory and read back is unchanged. */
  lemma StatusOfByte(p: bv8)
    ensures StatusOf(StatusByte(p)) == p
  {
  }

  /** Zero and Negative set from a result byte, in the order most opcodes use. */
  function WithZN(p: bv8, v: Byte): bv8
  {
    WithFlag(WithFlag(p, Zero, v == 0), Negative, Bit7(v))
  }

  /** Negative, then Zero, set from a result byte (the order of the transfers and PLA). */
  function WithNZ(p: bv8, v: Byte): bv8
  {
    WithFlag(WithFlag(p, Negative, Bit7(v)), Zero, v == 0)
  }

  /**
   * In either order, Zero then reads as "the result is 0", Negative as "bit 7 of the result
   * is set", and both orders give the same status.
   */
  lemma ZNReadBack(p: bv8, v: Byte)
    ensures WithNZ(p, v) == WithZN(p, v)
    ensures Flag(WithZN(p, v), Zero) <==> v == 0
    ensures Flag(WithZN(p, v), Negative) <==> Bit7(v)
    ensures WithZN(p, v) & !(Mask(Zero) | Mask(Negative)) == p & !(Mask(Zero) | Mask(Negative))
  {
  }

  /** The value 0 or 1 of the carry flag. */
  function CarryBit(p: bv8): Byte { if Flag(p, Carry) then 1 else 0 }

  // ---------------------------------------------------------------------------------------
  // Abstract state

  /** Both cargo features of the crate, as run-time configuration. */
  datatype Config = Config(binaryCodedDecimal: bool, illegalOpcodes: bool)

  /** The fields of the `MOS6502` struct. */
  datatype CpuState = CpuState(
    a: Byte,                // accumulator
    x: Byte,                // x_register
    y: Byte,                // y_register
    pc: Word,               // program_counter
    sp: Byte,               // stack_pointer
    p: bv8,                 // status_register
    remaining: CycleCount,  // remaining_cycles
    total: nat,             // total_cycles
    pendingNmi: bool,
    pendingIrq: bool)

  /** A processor together with the memory behind its bus. */
  datatype Machine = Machine(cpu: CpuState, mem: Memory)

  /** The state built by `MOS6502::new_start(start)`; `new()` is `PowerOn(0x0400)`. */
  function PowerOn(start: Word): CpuState
  {
    CpuState(0, 0, 0, start, 0xFD, 0x24, 0, 0, false, false)
  }

  /** `read_16`: little-endian word at `a`; the source's `address + 1` does not wrap. */
  function WordAt(mem: Memory, a: Word): Word
    requires a < 0xFFFF
  {
    Join(Load(mem, a), Load(mem, a + 1))
  }

  /** `read_16` is little-endian: the low byte comes from `a`, the high byte from `a + 1`. */
  lemma {:induction false} WordAtLittleEndian(mem: Memory, a: Word)
    requires a < 0xFFFF
    ensures Lo(WordAt(mem, a)) == Load(mem, a) && Hi(WordAt(mem, a)) == Load(mem, a + 1)
  {
    LoHiOfJoin(Load(mem, a), Load(mem, a + 1));
  }

  /** The state after `reset`, given the state before and the memory. */
  function ResetState(s: CpuState, mem: Memory): CpuState
  {
    s.(pc := WordAt(mem, ResetVector), a := 0, x := 0, y := 0, sp := 0xFD, p := 0x34, remaining := 8)
  }

  // ---------------------------------------------------------------------------------------
  // Stack

  /** Address of the stack slot the pointer designates, on page 0x01 (`STACK_PAGE + sp`). */
  function StackAddress(sp: Byte): Word
  {
    StackPage + sp
  }

  /** `push_stack`: write at the slot, then decrement the pointer with wrap-around. */
  function Push(m: Machine, v: Byte): Machine
  {
    Machine(m.cpu.(sp := Dec8(m.cpu.sp)), Store(m.mem, StackAddress(m.cpu.sp), v))
  }

  /** `push_stack_16`: high byte first, then low byte. */
  function Push16(m: Machine, w: Word): Machine
  {
    Push(Push(m, Hi(w)), Lo(w))
  }

  /** `pop_stack`: increment the pointer with wrap-around, then read the slot. */
  function Pop(m: Machine): (Byte, Machine)
  {
    var sp := Inc8(m.cpu.sp);
    (Load(m.mem, StackAddress(sp)), Machine(m.cpu.(sp := sp), m.mem))
  }

  /** `pop_stack_16`: low byte first, then high byte. */
  function Pop16(m: Machine): (Word, Machine)
  {
    var (lo, m1) := Pop(m);
    var (hi, m2) := Pop(m1);
    (Join(lo, hi), m2)
  }

  /** Popping a byte right after pushing it returns it and restores every register. */
  lemma PushThenPop(m: Machine, v: Byte)
    ensures Pop(Push(m, v)).0 == v
    ensures Pop(Push(m, v)).1.cpu == m.cpu
  {
  }

  /** Pushing a word and popping one returns it and restores every register. */
  lemma {:induction false} Push16ThenPop16(m: Machine, w: Word)
    ensures Pop16(Push16(m, w)).0 == w
    ensures Pop16(Push16(m, w)).1.cpu == m.cpu
  {
    var m1 := Push(m, Hi(w));
    var m2 := Push(m1, Lo(w));
    PushThenPop(m1, Lo(w));
    var (lo, m3) := Pop(m2);
    assert m3.cpu == m1.cpu;
    assert m3.mem == Store(m1.mem, StackAddress(m1.cpu.sp), Lo(w));
    assert StackAddress(m1.cpu.sp) != StackAddress(m.cpu.sp);
    PushThenPop(m, Hi(w));
    var (hi, m4) := Pop(m3);
    assert hi == Hi(w);
    JoinOfLoHi(w);
  }

  /** A push changes no memory outside the stack page and no register but the pointer. */
  lemma PushFrame(m: Machine, v: Byte, a: Word)
    requires Page(a) != Page(StackPage)
    ensures Load(Push(m, v).mem, a) == Load(m.mem, a)
    ensures Push(m, v).cpu == m.cpu.(sp := Dec8(m.cpu.sp))
  {
  }

  // ---------------------------------------------------------------------------------------
  // The bus

  /** A bus backed by plain RAM: `Interface6502` with `read` and `write` over 64 KiB. */
  class Ram {
    var contents: Memory

    constructor (init: Memory)
      ensures contents == init
    {
      contents := init;
    }

    method Read(address: Word) returns (data: Byte)
      ensures data == Load(contents, address)
    {
      data := if address in contents then contents[address] else 0;
    }

    method Write(address: Word, data: Byte)
      modifies this
      ensures contents == Store(old(contents), address, data)
    {
      contents := contents[address := data];
    }
  }

  /** `read_16`: two reads, low byte first. */
  method Read16(bus: Ram, address: Word) returns (w: Word)
    requires address < 0xFFFF
    ensures w == WordAt(bus.contents, address)
  {
    var lo := bus.Read(address);
    var hi := bus.Read(address + 1);
    w := Join(lo, hi);
  }

  // ---------------------------------------------------------------------------------------
  // The processor

  /** The `MOS6502` struct: registers, status, cycle counters and interrupt latches. */
  class MOS6502 {
    var accumulator: Byte
    var xRegister: Byte
    var yRegister: Byte
    var programCounter: Word
    var stackPointer: Byte
    var statusRegister: bv8
    var remainingCycles: CycleCount
    var totalCycles: nat
    var pendingNmi: bool
    var pendingIrq: bool

    /** The abstract value of the processor. */
    function State(): CpuState
      reads this
    {
      CpuState(accumulator, xRegister, yRegister, programCounter, stackPointer, statusRegister,
               remainingCycles, totalCycles, pendingNmi, pendingIrq)
    }

    /** `new`: boot state with the program counter at 0x0400. */
    constructor ()
      ensures State() == PowerOn(0x0400)
    {
      accumulator, xRegister, yRegister := 0, 0, 0;
      programCounter := 0x0400;
      stackPointer := 0xFD;
      statusRegister := 0x24;
      remainingCycles, totalCycles := 0, 0;
      pendingNmi, pendingIrq := false, false;
    }

    /** `new_start`: boot state with the program counter at `start`. */
    constructor NewStart(start: Word)
      ensures State() == PowerOn(start)
    {
      accumulator, xRegister, yRegister := 0, 0, 0;
      programCounter := start;
      stackPointer := 0xFD;
      statusRegister := 0x24;
      remainingCycles, totalCycles := 0, 0;
      pendingNmi, pendingIrq := false, false;
    }

    /** `new_reset_position`: boot state with the program counter read from the reset vector. */
    constructor NewResetPosition(bus: Ram)
      ensures State() == PowerOn(WordAt(bus.contents, ResetVector))
    {
      var start := Read16(bus, ResetVector);
      accumulator, xRegister, yRegister := 0, 0, 0;
      programCounter := start;
      stackPointer := 0xFD;
      statusRegister := 0x24;
      remainingCycles, totalCycles := 0, 0;
      pendingNmi, pendingIrq := false, false;
    }

    method SetProgramCounter(pc: Word)
      modifies this
      ensures State() == old(State()).(pc := pc)
    {
      programCounter := pc;
    }

    /** `get_flag`. */
    predicate GetFlag(f: StatusFlag)
      reads this
    {
      Flag(statusRegister, f)
    }

    /** `set_flag`: only the bits of `f` change. */
    method SetFlag(f: StatusFlag, v: bool)
      modifies this
      ensures State() == old(State()).(p := WithFlag(old(statusRegister), f, v))
    {
      statusRegister := statusRegister & !Mask(f);
      if v {
        statusRegister := statusRegister | Mask(f);
      }
    }

    /** `push_stack`. */
    method PushStack(bus: Ram, data: Byte)
      modifies this, bus
      ensures Machine(State(), bus.contents) == Push(Machine(old(State()), old(bus.contents)), data)
    {
      bus.Write(StackPage + stackPointer, data);
      stackPointer := Dec8(stackPointer);
    }

    /** `push_stack_16`. */
    method PushStack16(bus: Ram, data: Word)
      modifies this, bus
      ensures Machine(State(), bus.contents) == Push16(Machine(old(State()), old(bus.contents)), data)
    {
      PushStack(bus, Hi(data));
      PushStack(bus, Lo(data));
    }

    /** `pop_stack`. */
    method PopStack(bus: Ram) returns (data: Byte)
      modifies this
      ensures (data, Machine(State(), bus.contents)) == Pop(Machine(old(State()), bus.contents))
    {
      stackPointer := Inc8(stackPointer);
      data := bus.Read(StackPage + stackPointer);
    }

    /** `pop_stack_16`. */
    method PopStack16(bus: Ram) returns (data: Word)
      modifies this
      ensures (data, Machine(State(), bus.contents)) == Pop16(Machine(old(State()), bus.contents))
    {
      var lo := PopStack(bus);
      var hi := PopStack(bus);
      data := Join(lo, hi);
    }

    /** `interrupt_request`: latch an IRQ for the next instruction boundary. */
    method InterruptRequest()
      modifies this
      ensures State() == old(State()).(pendingIrq := true)
    {
      pendingIrq := true;
    }

    /** `non_maskable_interrupt_request`: latch an NMI for the next instruction boundary. */
    method NonMaskableInterruptRequest()
      modifies this
      ensures State() == old(State()).(pendingNmi := true)
    {
      pendingNmi := true;
    }

    /** `reset`: reload the program counter from the reset vector; writes nothing to memory. */
    method Reset(bus: Ram)
      modifies this
      ensures State() == ResetState(old(State()), bus.contents)
    {
      programCounter := Read16(bus, ResetVector);
      accumulator := 0;
      xRegister := 0;
      yRegister := 0;
      stackPointer := 0xFD;
      statusRegister := 0x34;
      remainingCycles := 8;
    }
  }

  /** The processor and the memory behind its bus, as one abstract value. */
  function Snapshot(cpu: MOS6502, bus: Ram): Machine
    reads cpu, bus
  {
    Machine(cpu.State(), bus.contents)
  }
}
