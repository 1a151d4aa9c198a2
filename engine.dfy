/*
 * The processor's clock: `cycle` and `execute_instruction` of src/lib.rs. At an instruction
 * boundary a cycle either takes a pending interrupt or fetches, decodes, resolves and
 * executes the next instruction, charging its cycles in one go; every other cycle only counts
 * down what the last instruction charged.
 */
module Engine {
  import opened Cpu
  import opened AddressModes
  import opened Instructions
  import Opcodes
  import OpcodeProperties

  // ---------------------------------------------------------------------------------------
  // One cycle, as a function of the machine

  /** An NMI is always taken at an instruction boundary; an IRQ only while I is clear. */
  predicate InterruptDue(s: CpuState)
  {
    s.pendingNmi || (s.pendingIrq && !Flag(s.p, InterruptDisable))
  }

  /** The vector an interrupt jumps through: the NMI's takes priority. */
  function InterruptVector(s: CpuState): Word
  {
    if s.pendingNmi then NmiVector else IrqVector
  }

  /**
   * Entering an interrupt: push the program counter, set bit 5 of the live status and push
   * it, set I, jump through the vector, charge 8 cycles for an NMI and 7 for an IRQ, and
   * clear both latches.
   */
  function EnterInterrupt(m: Machine): Machine
  {
    var m1 := Push16(m, m.cpu.pc);
    var p := WithFlag(m1.cpu.p, BreakIrq, true);
    var m2 := Push(m1.(cpu := m1.cpu.(p := p)), StatusByte(p));
    m2.(cpu := m2.cpu.(
      p := WithFlag(p, InterruptDisable, true),
      pc := WordAt(m2.mem, InterruptVector(m.cpu)),
      remaining := if m.cpu.pendingNmi then 8 else 7,
      pendingNmi := false,
      pendingIrq := false))
  }

  /** The table entry of the byte at the program counter. */
  function Fetch(m: Machine): Instruction
  {
    Decode(Load(m.mem, m.cpu.pc))
  }

  /** The program counter moved past the opcode byte; the source's `+= 1` does not wrap. */
  function Advance(m: Machine): Machine
    requires m.cpu.pc < 0xFFFF
  {
    m.(cpu := m.cpu.(pc := m.cpu.pc + 1))
  }

  /**
   * Running a table entry panics nowhere: the resolver and the opcode function run to their
   * end, and the cycle count they leave plus the entry's base cycles is at least one and fits
   * in a byte.
   */
  predicate CanRun(entry: Instruction, m: Machine, cfg: Config)
  {
    && CanResolve(entry.mode, m.cpu, m.mem)
    && var (v, s) := Resolve(entry.mode, m.cpu, m.mem);
    && CanExecute(entry.mnemonic, Machine(s, m.mem), v, cfg)
    && 1 <= Effect(entry.mnemonic, Machine(s, m.mem), v, cfg).cpu.remaining + entry.cycles <= 0xFF
  }

  /** Resolve the entry's operand, execute it, and charge its base cycles. */
  function Run(entry: Instruction, m: Machine, cfg: Config): Machine
    requires CanRun(entry, m, cfg)
  {
    var (v, s) := Resolve(entry.mode, m.cpu, m.mem);
    var n := Effect(entry.mnemonic, Machine(s, m.mem), v, cfg);
    n.(cpu := n.cpu.(remaining := n.cpu.remaining + entry.cycles))
  }

  /** The instruction at the program counter runs without panicking. */
  predicate CanFetch(m: Machine, cfg: Config)
  {
    m.cpu.pc < 0xFFFF && CanRun(Fetch(m), Advance(m), cfg)
  }

  /** Fetch, advance the program counter, and run the entry. */
  function RunFetched(m: Machine, cfg: Config): Machine
    requires CanFetch(m, cfg)
  {
    Run(Fetch(m), Advance(m), cfg)
  }

  /** A call of `cycle` runs without panicking. */
  predicate CanCycle(m: Machine, cfg: Config)
  {
    m.cpu.remaining > 0 || InterruptDue(m.cpu) || CanFetch(m, cfg)
  }

  /** The machine after one call of `cycle`. */
  function CycleEffect(m: Machine, cfg: Config): Machine
    requires CanCycle(m, cfg)
  {
    var n :=
      if m.cpu.remaining > 0 then m
      else if InterruptDue(m.cpu) then EnterInterrupt(m)
      else RunFetched(m, cfg);
    n.(cpu := n.cpu.(remaining := n.cpu.remaining - 1, total := n.cpu.total + 1))
  }

  /** Spending every remaining cycle, as `execute_instruction`'s loop does. */
  function RunOut(m: Machine): Machine
  {
    m.(cpu := m.cpu.(remaining := 0, total := m.cpu.total + m.cpu.remaining))
  }

  /** The machine after `execute_instruction`: one cycle, then the rest of what it charged. */
  function InstructionEffect(m: Machine, cfg: Config): Machine
    requires CanCycle(m, cfg)
  {
    RunOut(CycleEffect(m, cfg))
  }

  // ---------------------------------------------------------------------------------------
  // The methods

  /** `cycle`. */
  method Cycle(cpu: MOS6502, bus: Ram, cfg: Config)
    requires CanCycle(Snapshot(cpu, bus), cfg)
    modifies cpu, bus
    ensures Snapshot(cpu, bus) == CycleEffect(old(Snapshot(cpu, bus)), cfg)
  {
    if cpu.remainingCycles == 0 {
      if cpu.pendingNmi || (cpu.pendingIrq && !cpu.GetFlag(InterruptDisable)) {
        TakeInterrupt(cpu, bus);
      } else {
        StartInstruction(cpu, bus, cfg);
      }
    }
    cpu.remainingCycles := cpu.remainingCycles - 1;
    cpu.totalCycles := cpu.totalCycles + 1;
  }

  /** The interrupt branch of `cycle`. */
  method TakeInterrupt(cpu: MOS6502, bus: Ram)
    modifies cpu, bus
    ensures Snapshot(cpu, bus) == EnterInterrupt(old(Snapshot(cpu, bus)))
  {
    cpu.PushStack16(bus, cpu.programCounter);
    cpu.SetFlag(BreakIrq, true);
    cpu.PushStack(bus, StatusByte(cpu.statusRegister));
    cpu.SetFlag(InterruptDisable, true);
    if cpu.pendingNmi {
      cpu.programCounter := Read16(bus, NmiVector);
      cpu.remainingCycles := 8;
    } else {
      cpu.programCounter := Read16(bus, IrqVector);
      cpu.remainingCycles := 7;
    }
    cpu.pendingNmi := false;
    cpu.pendingIrq := false;
  }

  /** The fetch-and-execute branch of `cycle`. */
  method StartInstruction(cpu: MOS6502, bus: Ram, cfg: Config)
    requires CanFetch(Snapshot(cpu, bus), cfg)
    modifies cpu, bus
    ensures Snapshot(cpu, bus) == RunFetched(old(Snapshot(cpu, bus)), cfg)
  {
    var opcode := bus.Read(cpu.programCounter);
    var entry := Decode(opcode);
    cpu.programCounter := cpu.programCounter + 1;
    RunEntry(entry, cpu, bus, cfg);
  }

  /** Resolve, execute, and charge the entry's base cycles (`remaining_cycles += ...`). */
  method RunEntry(entry: Instruction, cpu: MOS6502, bus: Ram, cfg: Config)
    requires CanRun(entry, Snapshot(cpu, bus), cfg)
    modifies cpu, bus
    ensures Snapshot(cpu, bus) == Run(entry, old(Snapshot(cpu, bus)), cfg)
  {
    var v := FindAddress(entry.mode, cpu, bus);
    Execute(entry.mnemonic, cpu, bus, v, cfg);
    cpu.remainingCycles := cpu.remainingCycles + entry.cycles;
  }

  /** `execute_instruction`: one cycle, then cycles until nothing remains. */
  method ExecuteInstruction(cpu: MOS6502, bus: Ram, cfg: Config)
    requires CanCycle(Snapshot(cpu, bus), cfg)
    modifies cpu, bus
    ensures Snapshot(cpu, bus) == InstructionEffect(old(Snapshot(cpu, bus)), cfg)
  {
    ghost var target := InstructionEffect(Snapshot(cpu, bus), cfg);
    Cycle(cpu, bus, cfg);
    while cpu.remainingCycles != 0
      invariant RunOut(Snapshot(cpu, bus)) == target
      decreases cpu.remainingCycles
    {
      Cycle(cpu, bus, cfg);
    }
  }
}
