/*
 * What the clock promises: cycles between instruction boundaries only count down, interrupts
 * are entered as the hardware does and RTI leaves them, a masked IRQ waits, and a fetch
 * panics exactly where the source's arithmetic or its KIL opcode makes it.
 */
module EngineProperties {
  import opened Cpu
  import opened AddressModes
  import opened Instructions
  import opened Engine
  import Opcodes
  import OpcodeProperties

  // ---------------------------------------------------------------------------------------
  // Counting cycles

  /** A cycle in the middle of an instruction only moves one cycle from remaining to total. */
  lemma MidInstruction(m: Machine, cfg: Config)
    requires m.cpu.remaining > 0
    ensures CanCycle(m, cfg)
    ensures CycleEffect(m, cfg).mem == m.mem
    ensures CycleEffect(m, cfg).cpu == m.cpu.(remaining := m.cpu.remaining - 1, total := m.cpu.total + 1)
  {
  }

  /** What a taken branch adds to the count: one cycle, two onto another page; nothing otherwise. */
  function BranchCharge(mnemonic: Mnemonic, s: CpuState, v: AddressModeValue): int
  {
    if mnemonic.Branch? && v.RelativeAddress? && BranchTaken(mnemonic.branch, s.p) then
      Opcodes.BranchCycles(s.pc, Opcodes.BranchTarget(s.pc, v.offset))
    else 0
  }

  /**
   * A fetched instruction charges exactly its base cycles, plus the page-crossing cycle its
   * resolver charged (at most one, and only in a mode that charges it), plus what a taken
   * branch adds. Branches resolve in the relative mode, which never charges, so the charge is
   * at most two above the base. The total and the interrupt latches are left alone.
   */
  lemma {:induction false} FetchCharges(m: Machine, cfg: Config)
    requires m.cpu.remaining == 0 && CanFetch(m, cfg)
    ensures var entry := Fetch(m); var a := Advance(m);
      var (v, s) := Resolve(entry.mode, a.cpu, a.mem); var n := RunFetched(m, cfg);
      && n.cpu.remaining == entry.cycles + s.remaining + BranchCharge(entry.mnemonic, s, v)
      && s.remaining <= 1 && (s.remaining == 1 ==> ChargesPageCrossing(entry.mode))
      && (BranchCharge(entry.mnemonic, s, v) != 0 ==> s.remaining == 0)
      && entry.cycles <= n.cpu.remaining <= entry.cycles + 2
      && n.cpu.total == m.cpu.total
      && n.cpu.pendingNmi == m.cpu.pendingNmi
      && n.cpu.pendingIrq == m.cpu.pendingIrq
  {
    var entry := Fetch(m);
    var a := Advance(m);
    ResolveFrame(entry.mode, a.cpu, a.mem);
    var (v, s) := Resolve(entry.mode, a.cpu, a.mem);
    var n := Machine(s, a.mem);
    EffectFrame(entry.mnemonic, n, v, cfg);
    match entry.mnemonic
    case Branch(op) =>
      TableEntries(Load(m.mem, m.cpu.pc), cfg);
      assert entry.mode == Rel;
      OpcodeProperties.BranchMeaning(n, BranchTaken(op, s.p), v);
    case _ =>
  }

  /**
   * `execute_instruction` ends on an instruction boundary, having spent the cycles the first
   * cycle found or charged: what was left of the current instruction, 8 for an NMI, 7 for an
   * IRQ, or exactly what the fetched instruction charged (FetchCharges).
   */
  lemma {:induction false} InstructionCycles(m: Machine, cfg: Config)
    requires CanCycle(m, cfg)
    ensures InstructionEffect(m, cfg).cpu.remaining == 0
    ensures var spent := InstructionEffect(m, cfg).cpu.total - m.cpu.total;
      if m.cpu.remaining > 0 then spent == m.cpu.remaining
      else if InterruptDue(m.cpu) then spent == (if m.cpu.pendingNmi then 8 else 7)
      else spent == RunFetched(m, cfg).cpu.remaining && Fetch(m).cycles <= spent <= Fetch(m).cycles + 2
  {
    if m.cpu.remaining == 0 && !InterruptDue(m.cpu) {
      FetchCharges(m, cfg);
    }
  }

  // ---------------------------------------------------------------------------------------
  // Interrupts

  /** Setting bit 5 and then I; the PLP rule of RTI gives back the status with bit 5 set. */
  lemma InterruptStatus(p: bv8)
    ensures WithFlag(p, BreakIrq, true) == p | 0x20
    ensures WithFlag(WithFlag(p, BreakIrq, true), InterruptDisable, true) == p | 0x24
    ensures Opcodes.PulledStatus(p | 0x24, StatusByte(p | 0x20)) == p | 0x20
  {
    StatusOfByte(p | 0x20);
  }

  /**
   * Entering an interrupt sets I and bit 5, moves the stack pointer three slots down, jumps
   * through the NMI vector when an NMI is pending and the IRQ vector otherwise, charges 8 or
   * 7 cycles, clears both latches, and changes no other register.
   */
  lemma {:induction false} InterruptRegisters(m: Machine)
    ensures EnterInterrupt(m).cpu == m.cpu.(
      pc := WordAt(m.mem, InterruptVector(m.cpu)),
      sp := Dec8(Dec8(Dec8(m.cpu.sp))),
      p := m.cpu.p | Mask(BreakIrq) | Mask(InterruptDisable),
      remaining := if m.cpu.pendingNmi then 8 else 7,
      pendingNmi := false,
      pendingIrq := false)
  {
    var sp := m.cpu.sp;
    var status := StatusByte(m.cpu.p | 0x20);
    var mem1 := Store(m.mem, StackAddress(sp), Hi(m.cpu.pc));
    var mem2 := Store(mem1, StackAddress(Dec8(sp)), Lo(m.cpu.pc));
    var mem3 := Store(mem2, StackAddress(Dec8(Dec8(sp))), status);
    InterruptStatus(m.cpu.p);
    assert EnterInterrupt(m).mem == mem3;
    OpcodeProperties.VectorUntouched(m.mem, mem1, mem2, mem3, sp, Hi(m.cpu.pc), Lo(m.cpu.pc), status, InterruptVector(m.cpu));
  }

  /**
   * Entering an interrupt writes three bytes down the stack page and nothing else: the return
   * address high byte first, then the low byte, then the status with bit 5 set.
   */
  lemma {:induction false} InterruptPushes(m: Machine)
    ensures var sp := m.cpu.sp;
      var status := StatusByte(m.cpu.p | Mask(BreakIrq));
      && EnterInterrupt(m).mem == Store(Store(Store(m.mem, StackAddress(sp), Hi(m.cpu.pc)), StackAddress(Dec8(sp)), Lo(m.cpu.pc)), StackAddress(Dec8(Dec8(sp))), status)
      && Load(EnterInterrupt(m).mem, StackAddress(sp)) == Hi(m.cpu.pc)
      && Load(EnterInterrupt(m).mem, StackAddress(Dec8(sp))) == Lo(m.cpu.pc)
      && Load(EnterInterrupt(m).mem, StackAddress(Dec8(Dec8(sp)))) == status
  {
    var sp := m.cpu.sp;
    var status := StatusByte(m.cpu.p | 0x20);
    var mem1 := Store(m.mem, StackAddress(sp), Hi(m.cpu.pc));
    var mem2 := Store(mem1, StackAddress(Dec8(sp)), Lo(m.cpu.pc));
    var mem3 := Store(mem2, StackAddress(Dec8(Dec8(sp))), status);
    InterruptStatus(m.cpu.p);
    assert EnterInterrupt(m).mem == mem3;
    ThreeSlots(m.mem, m.cpu.sp, Hi(m.cpu.pc), Lo(m.cpu.pc), StatusByte(m.cpu.p | 0x20));
  }

  /** Three bytes written to consecutive stack slots downwards read back as written. */
  lemma {:induction false} ThreeSlots(mem: Memory, sp: Byte, first: Byte, second: Byte, third: Byte)
    ensures var mem1 := Store(mem, StackAddress(sp), first);
      var mem2 := Store(mem1, StackAddress(Dec8(sp)), second);
      var mem3 := Store(mem2, StackAddress(Dec8(Dec8(sp))), third);
      && Load(mem3, StackAddress(sp)) == first
      && Load(mem3, StackAddress(Dec8(sp))) == second
      && Load(mem3, StackAddress(Dec8(Dec8(sp)))) == third
  {
    var mem1 := Store(mem, StackAddress(sp), first);
    var mem2 := Store(mem1, StackAddress(Dec8(sp)), second);
    LoadStore(mem2, StackAddress(Dec8(Dec8(sp))), third, StackAddress(Dec8(Dec8(sp))));
    LoadStore(mem2, StackAddress(Dec8(Dec8(sp))), third, StackAddress(Dec8(sp)));
    LoadStore(mem2, StackAddress(Dec8(Dec8(sp))), third, StackAddress(sp));
    LoadStore(mem1, StackAddress(Dec8(sp)), second, StackAddress(Dec8(sp)));
    LoadStore(mem1, StackAddress(Dec8(sp)), second, StackAddress(sp));
    LoadStore(mem, StackAddress(sp), first, StackAddress(sp));
  }

  /**
   * At an instruction boundary with an interrupt due, the cycle enters it: NMI before IRQ,
   * both latches cleared, and seven (NMI) or six (IRQ) cycles still to run.
   */
  lemma {:induction false} InterruptCycle(m: Machine, cfg: Config)
    requires m.cpu.remaining == 0 && InterruptDue(m.cpu)
    ensures CanCycle(m, cfg)
    ensures var n := CycleEffect(m, cfg);
      && n.cpu.pc == WordAt(m.mem, if m.cpu.pendingNmi then NmiVector else IrqVector)
      && Flag(n.cpu.p, InterruptDisable)
      && !n.cpu.pendingNmi && !n.cpu.pendingIrq
      && n.cpu.remaining == (if m.cpu.pendingNmi then 7 else 6)
      && n.cpu.total == m.cpu.total + 1
  {
    InterruptRegisters(m);
    var p := m.cpu.p | Mask(BreakIrq) | Mask(InterruptDisable);
    assert p == WithFlag(p, InterruptDisable, true);
    WithFlagSpec(p, InterruptDisable, true);
  }

  /**
   * RTI at the start of an interrupt handler comes back to the interrupted instruction with
   * every register as it was, the status keeping only the bit 5 the entry set.
   */
  lemma {:induction false} InterruptThenRti(m: Machine)
    ensures Opcodes.RtiEffect(EnterInterrupt(m)).cpu == m.cpu.(
      p := m.cpu.p | Mask(BreakIrq),
      remaining := if m.cpu.pendingNmi then 8 else 7,
      pendingNmi := false,
      pendingIrq := false)
  {
    var n := EnterInterrupt(m);
    InterruptRegisters(m);
    InterruptPushes(m);
    InterruptStatus(m.cpu.p);
    OpcodeProperties.RtiPops(n, StatusByte(m.cpu.p | 0x20), Lo(m.cpu.pc), Hi(m.cpu.pc));
    JoinOfLoHi(m.cpu.pc);
  }

  /**
   * With I set and no NMI, a pending IRQ is not taken: the cycle runs the next instruction
   * and the IRQ stays latched for a later boundary.
   */
  lemma {:induction false} MaskedIrqWaits(m: Machine, cfg: Config)
    requires m.cpu.remaining == 0 && !m.cpu.pendingNmi && m.cpu.pendingIrq
    requires Flag(m.cpu.p, InterruptDisable)
    requires CanCycle(m, cfg)
    ensures CanFetch(m, cfg)
    ensures var n := RunFetched(m, cfg);
      CycleEffect(m, cfg) == n.(cpu := n.cpu.(remaining := n.cpu.remaining - 1, total := n.cpu.total + 1))
    ensures CycleEffect(m, cfg).cpu.pendingIrq
  {
    FetchCharges(m, cfg);
  }

  // ---------------------------------------------------------------------------------------
  // When a fetch panics

  /**
   * At an instruction boundary, running the next instruction panics exactly when the program
   * counter sits at 0xFFFF, the resolver or the opcode function overflows one of its
   * non-wrapping additions, or the opcode is KIL; the table guarantees that the operand always
   * fits and the cycle count never leaves a byte.
   */
  lemma {:induction false} FetchPanics(m: Machine, cfg: Config)
    requires m.cpu.remaining == 0
    ensures CanFetch(m, cfg) <==>
      && m.cpu.pc < 0xFFFF
      && var entry := Fetch(m);
      var a := Advance(m);
      && CanResolve(entry.mode, a.cpu, a.mem)
      && var (v, s) := Resolve(entry.mode, a.cpu, a.mem);
      && Fits(OperandKindOf(entry.mnemonic, cfg), v)
      && Completes(entry.mnemonic, Machine(s, a.mem), v, cfg)
      && entry.mnemonic != Unstable(KIL)
  {
    if m.cpu.pc < 0xFFFF {
      var entry := Fetch(m);
      var a := Advance(m);
      TableEntries(Load(m.mem, m.cpu.pc), cfg);
      if CanResolve(entry.mode, a.cpu, a.mem) {
        ResolveFrame(entry.mode, a.cpu, a.mem);
        SuitingModeFits(OperandKindOf(entry.mnemonic, cfg), entry.mode, a.cpu, a.mem);
        var (v, s) := Resolve(entry.mode, a.cpu, a.mem);
        if Completes(entry.mnemonic, Machine(s, a.mem), v, cfg) {
          EffectFrame(entry.mnemonic, Machine(s, a.mem), v, cfg);
        }
      }
    }
  }

  /** KIL never completes a cycle: with the feature on it panics, with it off the cycle count underflows. */
  lemma {:induction false} KilHalts(m: Machine, cfg: Config)
    requires m.cpu.remaining == 0 && !InterruptDue(m.cpu)
    requires Fetch(m).mnemonic == Unstable(KIL)
    ensures !CanCycle(m, cfg)
  {
    FetchPanics(m, cfg);
  }
}
