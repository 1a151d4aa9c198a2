/*
 * The undocumented opcodes (src/opcodes/illegal.rs). With the `illegal_opcodes` feature on,
 * most are two legal opcodes run one after the other on the same operand, so the second sees
 * the memory and flags the first left; the rest write registers and memory directly. With the
 * feature off, every one of them changes nothing. KIL with the feature on halts the emulator
 * (a panic in the source); its method requires the feature to be off.
 */
module IllegalOpcodes {
  import opened Cpu
  import opened AddressModes
  import opened Opcodes

  // ---------------------------------------------------------------------------------------
  // Effects

  /** SLO: ASL, then ORA. */
  function SloEffect(m: Machine, v: AddressModeValue, cfg: Config): Machine
    requires cfg.illegalOpcodes ==> v.AbsoluteAddress?
  {
    if cfg.illegalOpcodes then LogicEffect(OrBits, ShiftEffect(ShiftLeft, m, v), v) else m
  }

  /** RLA: ROL, then AND. */
  function RlaEffect(m: Machine, v: AddressModeValue, cfg: Config): Machine
    requires cfg.illegalOpcodes ==> v.AbsoluteAddress?
  {
    if cfg.illegalOpcodes then LogicEffect(AndBits, ShiftEffect(RotateLeft, m, v), v) else m
  }

  /** SRE: LSR, then EOR. */
  function SreEffect(m: Machine, v: AddressModeValue, cfg: Config): Machine
    requires cfg.illegalOpcodes ==> v.AbsoluteAddress?
  {
    if cfg.illegalOpcodes then LogicEffect(XorBits, ShiftEffect(ShiftRight, m, v), v) else m
  }

  /** RRA: ROR, then ADC (which adds the carry ROR shifted out). */
  function RraEffect(m: Machine, v: AddressModeValue, cfg: Config): Machine
    requires cfg.illegalOpcodes ==> v.AbsoluteAddress?
  {
    if cfg.illegalOpcodes then AdcEffect(ShiftEffect(RotateRight, m, v), v, cfg) else m
  }

  /** SAX: stores `A & X`. */
  function SaxEffect(m: Machine, v: AddressModeValue, cfg: Config): Machine
    requires cfg.illegalOpcodes ==> v.AbsoluteAddress?
  {
    if cfg.illegalOpcodes then StoreEffect(m, BitAnd(m.cpu.a, m.cpu.x), v) else m
  }

  /** LAX: LDA, then LDX. */
  function LaxEffect(m: Machine, v: AddressModeValue, cfg: Config): Machine
    requires cfg.illegalOpcodes ==> v.AbsoluteAddress?
  {
    if cfg.illegalOpcodes then LdxEffect(LdaEffect(m, v), v) else m
  }

  /** DCP: DEC, then CMP against the decremented byte. */
  function DcpEffect(m: Machine, v: AddressModeValue, cfg: Config): Machine
    requires cfg.illegalOpcodes ==> v.AbsoluteAddress?
  {
    if cfg.illegalOpcodes then
      var m1 := StepMemoryEffect(m, v, false);
      CompareEffect(m1, m1.cpu.a, v)
    else m
  }

  /** ISC: INC, then SBC of the incremented byte. */
  function IscEffect(m: Machine, v: AddressModeValue, cfg: Config): Machine
    requires cfg.illegalOpcodes ==> v.AbsoluteAddress?
  {
    if cfg.illegalOpcodes then SbcEffect(StepMemoryEffect(m, v, true), v, cfg) else m
  }

  /** ANC: AND, then the carry takes bit 7 of the accumulator. */
  function AncEffect(m: Machine, v: AddressModeValue, cfg: Config): Machine
    requires cfg.illegalOpcodes ==> v.AbsoluteAddress?
  {
    if cfg.illegalOpcodes then
      var m1 := LogicEffect(AndBits, m, v);
      FlagEffect(m1, Carry, Bit7(m1.cpu.a))
    else m
  }

  /** ALR: AND, then LSR of the accumulator. */
  function AlrEffect(m: Machine, v: AddressModeValue, cfg: Config): Machine
    requires cfg.illegalOpcodes ==> v.AbsoluteAddress?
  {
    if cfg.illegalOpcodes then ShiftEffect(ShiftRight, LogicEffect(AndBits, m, v), Implied) else m
  }

  /**
   * ARR: AND; V as ADC would set it for the new accumulator plus the operand; bit 0 of the
   * accumulator cleared; then ROR of the accumulator.
   */
  function ArrEffect(m: Machine, v: AddressModeValue, cfg: Config): Machine
    requires cfg.illegalOpcodes ==> v.AbsoluteAddress?
  {
    if cfg.illegalOpcodes then
      var m1 := LogicEffect(AndBits, m, v);
      var value := Operand(m1, v);
      var m2 := FlagEffect(m1, Overflow, Overflowed(m1.cpu.a, value, Add8(m1.cpu.a, value)));
      ShiftEffect(RotateRight, m2.(cpu := m2.cpu.(a := BitAnd(m2.cpu.a, 0xFE))), Implied)
    else m
  }

  /** XAA: TXA, then AND. */
  function XaaEffect(m: Machine, v: AddressModeValue, cfg: Config): Machine
    requires cfg.illegalOpcodes ==> v.AbsoluteAddress?
  {
    if cfg.illegalOpcodes then LogicEffect(AndBits, TxaEffect(m), v) else m
  }

  /** AXS: X becomes `(A & X) - M`, with the flags of comparing `A & X` against M. */
  function AxsEffect(m: Machine, v: AddressModeValue, cfg: Config): Machine
    requires cfg.illegalOpcodes ==> v.AbsoluteAddress?
  {
    if cfg.illegalOpcodes then
      var value := BitAnd(m.cpu.a, m.cpu.x);
      var m1 := CompareEffect(m, value, v);
      m1.(cpu := m1.cpu.(x := Sub8(value, Operand(m, v))))
    else m
  }

  /** AHX: stores `A & X & (address >> 8)`. */
  function AhxEffect(m: Machine, v: AddressModeValue, cfg: Config): Machine
    requires cfg.illegalOpcodes ==> v.AbsoluteAddress?
  {
    if cfg.illegalOpcodes then StoreEffect(m, BitAnd(BitAnd(m.cpu.a, m.cpu.x), Hi(v.address)), v) else m
  }

  /** SHY: stores `Y & (address >> 8)`. */
  function ShyEffect(m: Machine, v: AddressModeValue, cfg: Config): Machine
    requires cfg.illegalOpcodes ==> v.AbsoluteAddress?
  {
    if cfg.illegalOpcodes then StoreEffect(m, BitAnd(m.cpu.y, Hi(v.address)), v) else m
  }

  /** SHX: stores `X & (address >> 8)`. */
  function ShxEffect(m: Machine, v: AddressModeValue, cfg: Config): Machine
    requires cfg.illegalOpcodes ==> v.AbsoluteAddress?
  {
    if cfg.illegalOpcodes then StoreEffect(m, BitAnd(m.cpu.x, Hi(v.address)), v) else m
  }

  /** TAS: the stack pointer becomes `A & X`, then AHX. */
  function TasEffect(m: Machine, v: AddressModeValue, cfg: Config): Machine
    requires cfg.illegalOpcodes ==> v.AbsoluteAddress?
  {
    if cfg.illegalOpcodes then AhxEffect(m.(cpu := m.cpu.(sp := BitAnd(m.cpu.a, m.cpu.x))), v, cfg) else m
  }

  /** LAS: A, X and the stack pointer all become `M & SP`; N and Z from it. */
  function LasEffect(m: Machine, v: AddressModeValue, cfg: Config): Machine
    requires cfg.illegalOpcodes ==> v.AbsoluteAddress?
  {
    if cfg.illegalOpcodes then
      var value := BitAnd(Operand(m, v), m.cpu.sp);
      m.(cpu := m.cpu.(a := value, x := value, sp := value, p := WithNZ(m.cpu.p, value)))
    else m
  }

  // ---------------------------------------------------------------------------------------
  // The opcode functions

  method Slo(cpu: MOS6502, bus: Ram, v: AddressModeValue, cfg: Config)
    requires cfg.illegalOpcodes ==> v.AbsoluteAddress?
    modifies cpu, bus
    ensures Snapshot(cpu, bus) == SloEffect(old(Snapshot(cpu, bus)), v, cfg)
  {
    if cfg.illegalOpcodes {
      Asl(cpu, bus, v);
      Ora(cpu, bus, v);
    }
  }

  method Rla(cpu: MOS6502, bus: Ram, v: AddressModeValue, cfg: Config)
    requires cfg.illegalOpcodes ==> v.AbsoluteAddress?
    modifies cpu, bus
    ensures Snapshot(cpu, bus) == RlaEffect(old(Snapshot(cpu, bus)), v, cfg)
  {
    if cfg.illegalOpcodes {
      Rol(cpu, bus, v);
      And(cpu, bus, v);
    }
  }

  method Sre(cpu: MOS6502, bus: Ram, v: AddressModeValue, cfg: Config)
    requires cfg.illegalOpcodes ==> v.AbsoluteAddress?
    modifies cpu, bus
    ensures Snapshot(cpu, bus) == SreEffect(old(Snapshot(cpu, bus)), v, cfg)
  {
    if cfg.illegalOpcodes {
      Lsr(cpu, bus, v);
      Eor(cpu, bus, v);
    }
  }

  method Rra(cpu: MOS6502, bus: Ram, v: AddressModeValue, cfg: Config)
    requires cfg.illegalOpcodes ==> v.AbsoluteAddress?
    modifies cpu, bus
    ensures Snapshot(cpu, bus) == RraEffect(old(Snapshot(cpu, bus)), v, cfg)
  {
    if cfg.illegalOpcodes {
      Ror(cpu, bus, v);
      Adc(cpu, bus, v, cfg);
    }
  }

  method Sax(cpu: MOS6502, bus: Ram, v: AddressModeValue, cfg: Config)
    requires cfg.illegalOpcodes ==> v.AbsoluteAddress?
    modifies bus
    ensures Snapshot(cpu, bus) == SaxEffect(old(Snapshot(cpu, bus)), v, cfg)
  {
    if cfg.illegalOpcodes {
      bus.Write(v.address, BitAnd(cpu.accumulator, cpu.xRegister));
    }
  }

  method Lax(cpu: MOS6502, bus: Ram, v: AddressModeValue, cfg: Config)
    requires cfg.illegalOpcodes ==> v.AbsoluteAddress?
    modifies cpu
    ensures Snapshot(cpu, bus) == LaxEffect(old(Snapshot(cpu, bus)), v, cfg)
  {
    if cfg.illegalOpcodes {
      Lda(cpu, bus, v);
      Ldx(cpu, bus, v);
    }
  }

  method Dcp(cpu: MOS6502, bus: Ram, v: AddressModeValue, cfg: Config)
    requires cfg.illegalOpcodes ==> v.AbsoluteAddress?
    modifies cpu, bus
    ensures Snapshot(cpu, bus) == DcpEffect(old(Snapshot(cpu, bus)), v, cfg)
  {
    if cfg.illegalOpcodes {
      Dec(cpu, bus, v);
      Cmp(cpu, bus, v);
    }
  }

  method Isc(cpu: MOS6502, bus: Ram, v: AddressModeValue, cfg: Config)
    requires cfg.illegalOpcodes ==> v.AbsoluteAddress?
    modifies cpu, bus
    ensures Snapshot(cpu, bus) == IscEffect(old(Snapshot(cpu, bus)), v, cfg)
  {
    if cfg.illegalOpcodes {
      Inc(cpu, bus, v);
      Sbc(cpu, bus, v, cfg);
    }
  }

  method Anc(cpu: MOS6502, bus: Ram, v: AddressModeValue, cfg: Config)
    requires cfg.illegalOpcodes ==> v.AbsoluteAddress?
    modifies cpu
    ensures Snapshot(cpu, bus) == AncEffect(old(Snapshot(cpu, bus)), v, cfg)
  {
    if cfg.illegalOpcodes {
      And(cpu, bus, v);
      cpu.SetFlag(Carry, Bit7(cpu.accumulator));
    }
  }

  method Alr(cpu: MOS6502, bus: Ram, v: AddressModeValue, cfg: Config)
    requires cfg.illegalOpcodes ==> v.AbsoluteAddress?
    modifies cpu, bus
    ensures Snapshot(cpu, bus) == AlrEffect(old(Snapshot(cpu, bus)), v, cfg)
  {
    if cfg.illegalOpcodes {
      And(cpu, bus, v);
      Lsr(cpu, bus, Implied);
    }
  }

  method Arr(cpu: MOS6502, bus: Ram, v: AddressModeValue, cfg: Config)
    requires cfg.illegalOpcodes ==> v.AbsoluteAddress?
    modifies cpu, bus
    ensures Snapshot(cpu, bus) == ArrEffect(old(Snapshot(cpu, bus)), v, cfg)
  {
    if cfg.illegalOpcodes {
      And(cpu, bus, v);
      var value := bus.Read(v.address);
      var result := Add8(cpu.accumulator, value);
      cpu.SetFlag(Overflow, Overflowed(cpu.accumulator, value, result));
      cpu.accumulator := BitAnd(cpu.accumulator, 0xFE);
      Ror(cpu, bus, Implied);
    }
  }

  method Xaa(cpu: MOS6502, bus: Ram, v: AddressModeValue, cfg: Config)
    requires cfg.illegalOpcodes ==> v.AbsoluteAddress?
    modifies cpu
    ensures Snapshot(cpu, bus) == XaaEffect(old(Snapshot(cpu, bus)), v, cfg)
  {
    if cfg.illegalOpcodes {
      Txa(cpu, bus, Implied);
      And(cpu, bus, v);
    }
  }

  method Axs(cpu: MOS6502, bus: Ram, v: AddressModeValue, cfg: Config)
    requires cfg.illegalOpcodes ==> v.AbsoluteAddress?
    modifies cpu
    ensures Snapshot(cpu, bus) == AxsEffect(old(Snapshot(cpu, bus)), v, cfg)
  {
    if cfg.illegalOpcodes {
      var value := BitAnd(cpu.accumulator, cpu.xRegister);
      cpu.xRegister := Compare(cpu, bus, value, v);
    }
  }

  method Ahx(cpu: MOS6502, bus: Ram, v: AddressModeValue, cfg: Config)
    requires cfg.illegalOpcodes ==> v.AbsoluteAddress?
    modifies bus
    ensures Snapshot(cpu, bus) == AhxEffect(old(Snapshot(cpu, bus)), v, cfg)
  {
    if cfg.illegalOpcodes {
      bus.Write(v.address, BitAnd(BitAnd(cpu.accumulator, cpu.xRegister), Hi(v.address)));
    }
  }

  method Shy(cpu: MOS6502, bus: Ram, v: AddressModeValue, cfg: Config)
    requires cfg.illegalOpcodes ==> v.AbsoluteAddress?
    modifies bus
    ensures Snapshot(cpu, bus) == ShyEffect(old(Snapshot(cpu, bus)), v, cfg)
  {
    if cfg.illegalOpcodes {
      bus.Write(v.address, BitAnd(cpu.yRegister, Hi(v.address)));
    }
  }

  method Shx(cpu: MOS6502, bus: Ram, v: AddressModeValue, cfg: Config)
    requires cfg.illegalOpcodes ==> v.AbsoluteAddress?
    modifies bus
    ensures Snapshot(cpu, bus) == ShxEffect(old(Snapshot(cpu, bus)), v, cfg)
  {
    if cfg.illegalOpcodes {
      bus.Write(v.address, BitAnd(cpu.xRegister, Hi(v.address)));
    }
  }

  method Tas(cpu: MOS6502, bus: Ram, v: AddressModeValue, cfg: Config)
    requires cfg.illegalOpcodes ==> v.AbsoluteAddress?
    modifies cpu, bus
    ensures Snapshot(cpu, bus) == TasEffect(old(Snapshot(cpu, bus)), v, cfg)
  {
    if cfg.illegalOpcodes {
      cpu.stackPointer := BitAnd(cpu.accumulator, cpu.xRegister);
      Ahx(cpu, bus, v, cfg);
    }
  }

  method Las(cpu: MOS6502, bus: Ram, v: AddressModeValue, cfg: Config)
    requires cfg.illegalOpcodes ==> v.AbsoluteAddress?
    modifies cpu
    ensures Snapshot(cpu, bus) == LasEffect(old(Snapshot(cpu, bus)), v, cfg)
  {
    if cfg.illegalOpcodes {
      var operand := bus.Read(v.address);
      var value := BitAnd(operand, cpu.stackPointer);
      cpu.accumulator := value;
      cpu.xRegister := value;
      cpu.stackPointer := value;
      cpu.SetFlag(Negative, Bit7(value));
      cpu.SetFlag(Zero, value == 0);
    }
  }

  /** KIL: ignored with the feature off; with it on the source panics, which the engine reports as a halt. */
  method Kil(cpu: MOS6502, bus: Ram, v: AddressModeValue, cfg: Config)
    requires !cfg.illegalOpcodes
    ensures Snapshot(cpu, bus) == old(Snapshot(cpu, bus))
  {
  }
}
