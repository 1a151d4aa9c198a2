/*
 * The opcode table (OPCODE_TABLE in src/opcodes/mod.rs) and the call through it: each of the
 * 256 opcode bytes names a mnemonic, an addressing mode and a base cycle count. The table's
 * function pointers become the Mnemonic datatype and one dispatch over it. Mnemonics are
 * grouped by what they do, so that each dispatch is a match over a handful of cases.
 */
module Instructions {
  import opened Cpu
  import opened AddressModes
  import Opcodes
  import IllegalOpcodes

  /** Loads, stores, register transfers and stack pushes and pulls. */
  datatype TransferOp = LDA | LDX | LDY | STA | STX | STY | TAX | TAY | TSX | TXA | TXS | TYA | PHA | PHP | PLA | PLP

  /** Arithmetic, logic, compares, increments, decrements and shifts. */
  datatype ArithmeticOp = ADC | SBC | AND | EOR | ORA | BIT | CMP | CPX | CPY | INC | DEC | INX | INY | DEX | DEY | ASL | LSR | ROL | ROR

  /** The eight conditional branches. */
  datatype BranchOp = BCC | BCS | BEQ | BMI | BNE | BPL | BVC | BVS

  /** Jumps, subroutine and interrupt returns, BRK, NOP and the flag instructions. */
  datatype ControlOp = JMP | JSR | RTS | RTI | BRK | NOP | CLC | CLD | CLI | CLV | SEC | SED | SEI

  /** The undocumented instructions of src/opcodes/illegal.rs that pair a documented read-modify-write, load or store. */
  datatype CombinedOp = SLO | RLA | SRE | RRA | SAX | LAX | DCP | ISC

  /** The remaining undocumented instructions, KIL among them. */
  datatype UnstableOp = ANC | ALR | ARR | XAA | AXS | AHX | SHY | SHX | TAS | LAS | KIL

  /** The 56 documented mnemonics in four groups, then the 19 undocumented ones in two. */
  datatype Mnemonic =
    | Transfer(transfer: TransferOp)
    | Arithmetic(arithmetic: ArithmeticOp)
    | Branch(branch: BranchOp)
    | Control(control: ControlOp)
    | Combined(combined: CombinedOp)
    | Unstable(unstable: UnstableOp)

  /** The mnemonics of src/opcodes/illegal.rs. */
  predicate IsIllegal(mnemonic: Mnemonic)
  {
    mnemonic.Combined? || mnemonic.Unstable?
  }

  /** The eight conditional branches. */
  predicate IsBranch(mnemonic: Mnemonic)
  {
    mnemonic.Branch?
  }

  /** A table entry (the `Instruction` struct without its logging name). */
  datatype Instruction = Instruction(mnemonic: Mnemonic, mode: AddressMode, cycles: CycleCount)

  /**
   * `OPCODE_TABLE[opcode]`, laid out in rows of sixteen: `Row3(0xD)` is the entry of opcode
   * 0x3D. The twelve KIL slots are the only entries without base cycles; every other entry
   * charges two to eight.
   */
  function Decode(opcode: Byte): (r: Instruction)
    ensures r.mnemonic == Unstable(KIL) <==>
      opcode in {0x02, 0x12, 0x22, 0x32, 0x42, 0x52, 0x62, 0x72, 0x92, 0xB2, 0xD2, 0xF2}
    ensures r.cycles == 0 <==> r.mnemonic == Unstable(KIL)
    ensures r.mnemonic != Unstable(KIL) ==> 2 <= r.cycles <= 8
  {
    var column := opcode % 16;
    match opcode / 16
    case 0x0 => Row0(column)
    case 0x1 => Row1(column)
    case 0x2 => Row2(column)
    case 0x3 => Row3(column)
    case 0x4 => Row4(column)
    case 0x5 => Row5(column)
    case 0x6 => Row6(column)
    case 0x7 => Row7(column)
    case 0x8 => Row8(column)
    case 0x9 => Row9(column)
    case 0xA => RowA(column)
    case 0xB => RowB(column)
    case 0xC => RowC(column)
    case 0xD => RowD(column)
    case 0xE => RowE(column)
    case _   => RowF(column)
  }

  function Row0(column: nat): (r: Instruction)
    ensures r.mnemonic == Unstable(KIL) <==> column == 2
    ensures r.cycles == 0 <==> r.mnemonic == Unstable(KIL)
    ensures r.mnemonic != Unstable(KIL) ==> 2 <= r.cycles <= 8
  {
    match column
    case 0x0 => Instruction(Control(BRK), Impl, 7)
    case 0x1 => Instruction(Arithmetic(ORA), IndX, 6)
    case 0x2 => Instruction(Unstable(KIL), Impl, 0)
    case 0x3 => Instruction(Combined(SLO), IndX, 8)
    case 0x4 => Instruction(Control(NOP), Zp, 3)
    case 0x5 => Instruction(Arithmetic(ORA), Zp, 3)
    case 0x6 => Instruction(Arithmetic(ASL), Zp, 5)
    case 0x7 => Instruction(Combined(SLO), Zp, 5)
    case 0x8 => Instruction(Transfer(PHP), Impl, 3)
    case 0x9 => Instruction(Arithmetic(ORA), Imm, 2)
    case 0xA => Instruction(Arithmetic(ASL), Impl, 2)
    case 0xB => Instruction(Unstable(ANC), Imm, 2)
    case 0xC => Instruction(Control(NOP), Abs, 4)
    case 0xD => Instruction(Arithmetic(ORA), Abs, 4)
    case 0xE => Instruction(Arithmetic(ASL), Abs, 6)
    case _   => Instruction(Combined(SLO), Abs, 6)
  }

  function Row1(column: nat): (r: Instruction)
    ensures r.mnemonic == Unstable(KIL) <==> column == 2
    ensures r.cycles == 0 <==> r.mnemonic == Unstable(KIL)
    ensures r.mnemonic != Unstable(KIL) ==> 2 <= r.cycles <= 8
  {
    match column
    case 0x0 => Instruction(Branch(BPL), Rel, 2)
    case 0x1 => Instruction(Arithmetic(ORA), IndY, 5)
    case 0x2 => Instruction(Unstable(KIL), Impl, 0)
    case 0x3 => Instruction(Combined(SLO), IndYConst, 8)
    case 0x4 => Instruction(Control(NOP), ZpX, 4)
    case 0x5 => Instruction(Arithmetic(ORA), ZpX, 4)
    case 0x6 => Instruction(Arithmetic(ASL), ZpX, 6)
    case 0x7 => Instruction(Combined(SLO), ZpX, 6)
    case 0x8 => Instruction(Control(CLC), Impl, 2)
    case 0x9 => Instruction(Arithmetic(ORA), AbsY, 4)
    case 0xA => Instruction(Control(NOP), Impl, 2)
    case 0xB => Instruction(Combined(SLO), AbsYConst, 7)
    case 0xC => Instruction(Control(NOP), AbsX, 4)
    case 0xD => Instruction(Arithmetic(ORA), AbsX, 4)
    case 0xE => Instruction(Arithmetic(ASL), AbsXConst, 7)
    case _   => Instruction(Combined(SLO), AbsXConst, 7)
  }

  function Row2(column: nat): (r: Instruction)
    ensures r.mnemonic == Unstable(KIL) <==> column == 2
    ensures r.cycles == 0 <==> r.mnemonic == Unstable(KIL)
    ensures r.mnemonic != Unstable(KIL) ==> 2 <= r.cycles <= 8
  {
    match column
    case 0x0 => Instruction(Control(JSR), Abs, 6)
    case 0x1 => Instruction(Arithmetic(AND), IndX, 6)
    case 0x2 => Instruction(Unstable(KIL), Impl, 0)
    case 0x3 => Instruction(Combined(RLA), IndX, 8)
    case 0x4 => Instruction(Arithmetic(BIT), Zp, 3)
    case 0x5 => Instruction(Arithmetic(AND), Zp, 3)
    case 0x6 => Instruction(Arithmetic(ROL), Zp, 5)
    case 0x7 => Instruction(Combined(RLA), Zp, 5)
    case 0x8 => Instruction(Transfer(PLP), Impl, 4)
    case 0x9 => Instruction(Arithmetic(AND), Imm, 2)
    case 0xA => Instruction(Arithmetic(ROL), Impl, 2)
    case 0xB => Instruction(Unstable(ANC), Imm, 2)
    case 0xC => Instruction(Arithmetic(BIT), Abs, 4)
    case 0xD => Instruction(Arithmetic(AND), Abs, 4)
    case 0xE => Instruction(Arithmetic(ROL), Abs, 6)
    case _   => Instruction(Combined(RLA), Abs, 6)
  }

  function Row3(column: nat): (r: Instruction)
    ensures r.mnemonic == Unstable(KIL) <==> column == 2
    ensures r.cycles == 0 <==> r.mnemonic == Unstable(KIL)
    ensures r.mnemonic != Unstable(KIL) ==> 2 <= r.cycles <= 8
  {
    match column
    case 0x0 => Instruction(Branch(BMI), Rel, 2)
    case 0x1 => Instruction(Arithmetic(AND), IndY, 5)
    case 0x2 => Instruction(Unstable(KIL), Impl, 0)
    case 0x3 => Instruction(Combined(RLA), IndYConst, 8)
    case 0x4 => Instruction(Control(NOP), ZpX, 4)
    case 0x5 => Instruction(Arithmetic(AND), ZpX, 4)
    case 0x6 => Instruction(Arithmetic(ROL), ZpX, 6)
    case 0x7 => Instruction(Combined(RLA), ZpX, 6)
    case 0x8 => Instruction(Control(SEC), Impl, 2)
    case 0x9 => Instruction(Arithmetic(AND), AbsY, 4)
    case 0xA => Instruction(Control(NOP), Impl, 2)
    case 0xB => Instruction(Combined(RLA), AbsYConst, 7)
    case 0xC => Instruction(Control(NOP), AbsX, 4)
    case 0xD => Instruction(Arithmetic(AND), AbsX, 4)
    case 0xE => Instruction(Arithmetic(ROL), AbsXConst, 7)
    case _   => Instruction(Combined(RLA), AbsXConst, 7)
  }

  function Row4(column: nat): (r: Instruction)
    ensures r.mnemonic == Unstable(KIL) <==> column == 2
    ensures r.cycles == 0 <==> r.mnemonic == Unstable(KIL)
    ensures r.mnemonic != Unstable(KIL) ==> 2 <= r.cycles <= 8
  {
    match column
    case 0x0 => Instruction(Control(RTI), Impl, 6)
    case 0x1 => Instruction(Arithmetic(EOR), IndX, 6)
    case 0x2 => Instruction(Unstable(KIL), Impl, 0)
    case 0x3 => Instruction(Combined(SRE), IndX, 8)
    case 0x4 => Instruction(Control(NOP), Zp, 3)
    case 0x5 => Instruction(Arithmetic(EOR), Zp, 3)
    case 0x6 => Instruction(Arithmetic(LSR), Zp, 5)
    case 0x7 => Instruction(Combined(SRE), Zp, 5)
    case 0x8 => Instruction(Transfer(PHA), Impl, 3)
    case 0x9 => Instruction(Arithmetic(EOR), Imm, 2)
    case 0xA => Instruction(Arithmetic(LSR), Impl, 2)
    case 0xB => Instruction(Unstable(ALR), Imm, 2)
    case 0xC => Instruction(Control(JMP), Abs, 3)
    case 0xD => Instruction(Arithmetic(EOR), Abs, 4)
    case 0xE => Instruction(Arithmetic(LSR), Abs, 6)
    case _   => Instruction(Combined(SRE), Abs, 6)
  }

  function Row5(column: nat): (r: Instruction)
    ensures r.mnemonic == Unstable(KIL) <==> column == 2
    ensures r.cycles == 0 <==> r.mnemonic == Unstable(KIL)
    ensures r.mnemonic != Unstable(KIL) ==> 2 <= r.cycles <= 8
  {
    match column
    case 0x0 => Instruction(Branch(BVC), Rel, 2)
    case 0x1 => Instruction(Arithmetic(EOR), IndY, 5)
    case 0x2 => Instruction(Unstable(KIL), Impl, 0)
    case 0x3 => Instruction(Combined(SRE), IndYConst, 8)
    case 0x4 => Instruction(Control(NOP), ZpX, 4)
    case 0x5 => Instruction(Arithmetic(EOR), ZpX, 4)
    case 0x6 => Instruction(Arithmetic(LSR), ZpX, 6)
    case 0x7 => Instruction(Combined(SRE), ZpX, 6)
    case 0x8 => Instruction(Control(CLI), Impl, 2)
    case 0x9 => Instruction(Arithmetic(EOR), AbsY, 4)
    case 0xA => Instruction(Control(NOP), Impl, 2)
    case 0xB => Instruction(Combined(SRE), AbsYConst, 7)
    case 0xC => Instruction(Control(NOP), AbsX, 4)
    case 0xD => Instruction(Arithmetic(EOR), AbsX, 4)
    case 0xE => Instruction(Arithmetic(LSR), AbsXConst, 7)
    case _   => Instruction(Combined(SRE), AbsXConst, 7)
  }

  function Row6(column: nat): (r: Instruction)
    ensures r.mnemonic == Unstable(KIL) <==> column == 2
    ensures r.cycles == 0 <==> r.mnemonic == Unstable(KIL)
    ensures r.mnemonic != Unstable(KIL) ==> 2 <= r.cycles <= 8
  {
    match column
    case 0x0 => Instruction(Control(RTS), Impl, 6)
    case 0x1 => Instruction(Arithmetic(ADC), IndX, 6)
    case 0x2 => Instruction(Unstable(KIL), Impl, 0)
    case 0x3 => Instruction(Combined(RRA), IndX, 8)
    case 0x4 => Instruction(Control(NOP), Zp, 3)
    case 0x5 => Instruction(Arithmetic(ADC), Zp, 3)
    case 0x6 => Instruction(Arithmetic(ROR), Zp, 5)
    case 0x7 => Instruction(Combined(RRA), Zp, 5)
    case 0x8 => Instruction(Transfer(PLA), Impl, 4)
    case 0x9 => Instruction(Arithmetic(ADC), Imm, 2)
    case 0xA => Instruction(Arithmetic(ROR), Impl, 2)
    case 0xB => Instruction(Unstable(ARR), Imm, 2)
    case 0xC => Instruction(Control(JMP), Ind, 5)
    case 0xD => Instruction(Arithmetic(ADC), Abs, 4)
    case 0xE => Instruction(Arithmetic(ROR), Abs, 6)
    case _   => Instruction(Combined(RRA), Abs, 6)
  }

  function Row7(column: nat): (r: Instruction)
    ensures r.mnemonic == Unstable(KIL) <==> column == 2
    ensures r.cycles == 0 <==> r.mnemonic == Unstable(KIL)
    ensures r.mnemonic != Unstable(KIL) ==> 2 <= r.cycles <= 8
  {
    match column
    case 0x0 => Instruction(Branch(BVS), Rel, 2)
    case 0x1 => Instruction(Arithmetic(ADC), IndY, 5)
    case 0x2 => Instruction(Unstable(KIL), Impl, 0)
    case 0x3 => Instruction(Combined(RRA), IndYConst, 8)
    case 0x4 => Instruction(Control(NOP), ZpX, 4)
    case 0x5 => Instruction(Arithmetic(ADC), ZpX, 4)
    case 0x6 => Instruction(Arithmetic(ROR), ZpX, 6)
    case 0x7 => Instruction(Combined(RRA), ZpX, 6)
    case 0x8 => Instruction(Control(SEI), Impl, 2)
    case 0x9 => Instruction(Arithmetic(ADC), AbsY, 4)
    case 0xA => Instruction(Control(NOP), Impl, 2)
    case 0xB => Instruction(Combined(RRA), AbsYConst, 7)
    case 0xC => Instruction(Control(NOP), AbsX, 4)
    case 0xD => Instruction(Arithmetic(ADC), AbsX, 4)
    case 0xE => Instruction(Arithmetic(ROR), AbsXConst, 7)
    case _   => Instruction(Combined(RRA), AbsXConst, 7)
  }

  function Row8(column: nat): (r: Instruction)
    ensures r.mnemonic != Unstable(KIL)
    ensures r.cycles == 0 <==> r.mnemonic == Unstable(KIL)
    ensures r.mnemonic != Unstable(KIL) ==> 2 <= r.cycles <= 8
  {
    match column
    case 0x0 => Instruction(Control(NOP), Imm, 2)
    case 0x1 => Instruction(Transfer(STA), IndX, 6)
    case 0x2 => Instruction(Control(NOP), Imm, 2)
    case 0x3 => Instruction(Combined(SAX), IndX, 6)
    case 0x4 => Instruction(Transfer(STY), Zp, 3)
    case 0x5 => Instruction(Transfer(STA), Zp, 3)
    case 0x6 => Instruction(Transfer(STX), Zp, 3)
    case 0x7 => Instruction(Combined(SAX), Zp, 3)
    case 0x8 => Instruction(Arithmetic(DEY), Impl, 2)
    case 0x9 => Instruction(Control(NOP), Imm, 2)
    case 0xA => Instruction(Transfer(TXA), Impl, 2)
    case 0xB => Instruction(Unstable(XAA), Imm, 2)
    case 0xC => Instruction(Transfer(STY), Abs, 4)
    case 0xD => Instruction(Transfer(STA), Abs, 4)
    case 0xE => Instruction(Transfer(STX), Abs, 4)
    case _   => Instruction(Combined(SAX), Abs, 4)
  }

  function Row9(column: nat): (r: Instruction)
    ensures r.mnemonic == Unstable(KIL) <==> column == 2
    ensures r.cycles == 0 <==> r.mnemonic == Unstable(KIL)
    ensures r.mnemonic != Unstable(KIL) ==> 2 <= r.cycles <= 8
  {
    match column
    case 0x0 => Instruction(Branch(BCC), Rel, 2)
    case 0x1 => Instruction(Transfer(STA), IndY, 6)
    case 0x2 => Instruction(Unstable(KIL), Impl, 0)
    case 0x3 => Instruction(Unstable(AHX), IndY, 6)
    case 0x4 => Instruction(Transfer(STY), ZpX, 4)
    case 0x5 => Instruction(Transfer(STA), ZpX, 4)
    case 0x6 => Instruction(Transfer(STX), ZpY, 4)
    case 0x7 => Instruction(Combined(SAX), ZpY, 4)
    case 0x8 => Instruction(Transfer(TYA), Impl, 2)
    case 0x9 => Instruction(Transfer(STA), AbsYConst, 5)
    case 0xA => Instruction(Transfer(TXS), Impl, 2)
    case 0xB => Instruction(Unstable(TAS), AbsY, 5)
    case 0xC => Instruction(Unstable(SHY), AbsX, 5)
    case 0xD => Instruction(Transfer(STA), AbsXConst, 5)
    case 0xE => Instruction(Unstable(SHX), AbsY, 5)
    case _   => Instruction(Unstable(AHX), AbsY, 5)
  }

  function RowA(column: nat): (r: Instruction)
    ensures r.mnemonic != Unstable(KIL)
    ensures r.cycles == 0 <==> r.mnemonic == Unstable(KIL)
    ensures r.mnemonic != Unstable(KIL) ==> 2 <= r.cycles <= 8
  {
    match column
    case 0x0 => Instruction(Transfer(LDY), Imm, 2)
    case 0x1 => Instruction(Transfer(LDA), IndX, 6)
    case 0x2 => Instruction(Transfer(LDX), Imm, 2)
    case 0x3 => Instruction(Combined(LAX), IndX, 6)
    case 0x4 => Instruction(Transfer(LDY), Zp, 3)
    case 0x5 => Instruction(Transfer(LDA), Zp, 3)
    case 0x6 => Instruction(Transfer(LDX), Zp, 3)
    case 0x7 => Instruction(Combined(LAX), Zp, 3)
    case 0x8 => Instruction(Transfer(TAY), Impl, 2)
    case 0x9 => Instruction(Transfer(LDA), Imm, 2)
    case 0xA => Instruction(Transfer(TAX), Impl, 2)
    case 0xB => Instruction(Combined(LAX), Imm, 2)
    case 0xC => Instruction(Transfer(LDY), Abs, 4)
    case 0xD => Instruction(Transfer(LDA), Abs, 4)
    case 0xE => Instruction(Transfer(LDX), Abs, 4)
    case _   => Instruction(Combined(LAX), Abs, 4)
  }

  function RowB(column: nat): (r: Instruction)
    ensures r.mnemonic == Unstable(KIL) <==> column == 2
    ensures r.cycles == 0 <==> r.mnemonic == Unstable(KIL)
    ensures r.mnemonic != Unstable(KIL) ==> 2 <= r.cycles <= 8
  {
    match column
    case 0x0 => Instruction(Branch(BCS), Rel, 2)
    case 0x1 => Instruction(Transfer(LDA), IndY, 5)
    case 0x2 => Instruction(Unstable(KIL), Impl, 0)
    case 0x3 => Instruction(Combined(LAX), IndY, 5)
    case 0x4 => Instruction(Transfer(LDY), ZpX, 4)
    case 0x5 => Instruction(Transfer(LDA), ZpX, 4)
    case 0x6 => Instruction(Transfer(LDX), ZpY, 4)
    case 0x7 => Instruction(Combined(LAX), ZpY, 4)
    case 0x8 => Instruction(Control(CLV), Impl, 2)
    case 0x9 => Instruction(Transfer(LDA), AbsY, 4)
    case 0xA => Instruction(Transfer(TSX), Impl, 2)
    case 0xB => Instruction(Unstable(LAS), AbsY, 4)
    case 0xC => Instruction(Transfer(LDY), AbsX, 4)
    case 0xD => Instruction(Transfer(LDA), AbsX, 4)
    case 0xE => Instruction(Transfer(LDX), AbsY, 4)
    case _   => Instruction(Combined(LAX), AbsY, 4)
  }

  function RowC(column: nat): (r: Instruction)
    ensures r.mnemonic != Unstable(KIL)
    ensures r.cycles == 0 <==> r.mnemonic == Unstable(KIL)
    ensures r.mnemonic != Unstable(KIL) ==> 2 <= r.cycles <= 8
  {
    match column
    case 0x0 => Instruction(Arithmetic(CPY), Imm, 2)
    case 0x1 => Instruction(Arithmetic(CMP), IndX, 6)
    case 0x2 => Instruction(Control(NOP), Imm, 2)
    case 0x3 => Instruction(Combined(DCP), IndX, 8)
    case 0x4 => Instruction(Arithmetic(CPY), Zp, 3)
    case 0x5 => Instruction(Arithmetic(CMP), Zp, 3)
    case 0x6 => Instruction(Arithmetic(DEC), Zp, 5)
    case 0x7 => Instruction(Combined(DCP), Zp, 5)
    case 0x8 => Instruction(Arithmetic(INY), Impl, 2)
    case 0x9 => Instruction(Arithmetic(CMP), Imm, 2)
    case 0xA => Instruction(Arithmetic(DEX), Impl, 2)
    case 0xB => Instruction(Unstable(AXS), Imm, 2)
    case 0xC => Instruction(Arithmetic(CPY), Abs, 4)
    case 0xD => Instruction(Arithmetic(CMP), Abs, 4)
    case 0xE => Instruction(Arithmetic(DEC), Abs, 6)
    case _   => Instruction(Combined(DCP), Abs, 6)
  }

  function RowD(column: nat): (r: Instruction)
    ensures r.mnemonic == Unstable(KIL) <==> column == 2
    ensures r.cycles == 0 <==> r.mnemonic == Unstable(KIL)
    ensures r.mnemonic != Unstable(KIL) ==> 2 <= r.cycles <= 8
  {
    match column
    case 0x0 => Instruction(Branch(BNE), Rel, 2)
    case 0x1 => Instruction(Arithmetic(CMP), IndY, 5)
    case 0x2 => Instruction(Unstable(KIL), Impl, 0)
    case 0x3 => Instruction(Combined(DCP), IndYConst, 8)
    case 0x4 => Instruction(Control(NOP), ZpX, 4)
    case 0x5 => Instruction(Arithmetic(CMP), ZpX, 4)
    case 0x6 => Instruction(Arithmetic(DEC), ZpX, 6)
    case 0x7 => Instruction(Combined(DCP), ZpX, 6)
    case 0x8 => Instruction(Control(CLD), Impl, 2)
    case 0x9 => Instruction(Arithmetic(CMP), AbsY, 4)
    case 0xA => Instruction(Control(NOP), Impl, 2)
    case 0xB => Instruction(Combined(DCP), AbsYConst, 7)
    case 0xC => Instruction(Control(NOP), AbsX, 4)
    case 0xD => Instruction(Arithmetic(CMP), AbsX, 4)
    case 0xE => Instruction(Arithmetic(DEC), AbsXConst, 7)
    case _   => Instruction(Combined(DCP), AbsXConst, 7)
  }

  function RowE(column: nat): (r: Instruction)
    ensures r.mnemonic != Unstable(KIL)
    ensures r.cycles == 0 <==> r.mnemonic == Unstable(KIL)
    ensures r.mnemonic != Unstable(KIL) ==> 2 <= r.cycles <= 8
  {
    match column
    case 0x0 => Instruction(Arithmetic(CPX), Imm, 2)
    case 0x1 => Instruction(Arithmetic(SBC), IndX, 6)
    case 0x2 => Instruction(Control(NOP), Imm, 2)
    case 0x3 => Instruction(Combined(ISC), IndX, 8)
    case 0x4 => Instruction(Arithmetic(CPX), Zp, 3)
    case 0x5 => Instruction(Arithmetic(SBC), Zp, 3)
    case 0x6 => Instruction(Arithmetic(INC), Zp, 5)
    case 0x7 => Instruction(Combined(ISC), Zp, 5)
    case 0x8 => Instruction(Arithmetic(INX), Impl, 2)
    case 0x9 => Instruction(Arithmetic(SBC), Imm, 2)
    case 0xA => Instruction(Control(NOP), Impl, 2)
    case 0xB => Instruction(Arithmetic(SBC), Imm, 2)
    case 0xC => Instruction(Arithmetic(CPX), Abs, 4)
    case 0xD => Instruction(Arithmetic(SBC), Abs, 4)
    case 0xE => Instruction(Arithmetic(INC), Abs, 6)
    case _   => Instruction(Combined(ISC), Abs, 6)
  }

  function RowF(column: nat): (r: Instruction)
    ensures r.mnemonic == Unstable(KIL) <==> column == 2
    ensures r.cycles == 0 <==> r.mnemonic == Unstable(KIL)
    ensures r.mnemonic != Unstable(KIL) ==> 2 <= r.cycles <= 8
  {
    match column
    case 0x0 => Instruction(Branch(BEQ), Rel, 2)
    case 0x1 => Instruction(Arithmetic(SBC), IndY, 5)
    case 0x2 => Instruction(Unstable(KIL), Impl, 0)
    case 0x3 => Instruction(Combined(ISC), IndYConst, 8)
    case 0x4 => Instruction(Control(NOP), ZpX, 4)
    case 0x5 => Instruction(Arithmetic(SBC), ZpX, 4)
    case 0x6 => Instruction(Arithmetic(INC), ZpX, 6)
    case 0x7 => Instruction(Combined(ISC), ZpX, 6)
    case 0x8 => Instruction(Control(SED), Impl, 2)
    case 0x9 => Instruction(Arithmetic(SBC), AbsY, 4)
    case 0xA => Instruction(Control(NOP), Impl, 2)
    case 0xB => Instruction(Combined(ISC), AbsYConst, 7)
    case 0xC => Instruction(Control(NOP), AbsX, 4)
    case 0xD => Instruction(Arithmetic(SBC), AbsX, 4)
    case 0xE => Instruction(Arithmetic(INC), AbsXConst, 7)
    case _   => Instruction(Combined(ISC), AbsXConst, 7)
  }

  // ---------------------------------------------------------------------------------------
  // What each opcode function demands of its operand

  /** The operands an opcode function accepts without panicking. */
  datatype OperandKind = AnyOperand | NoOperand | Offset | Address | AccumulatorOrAddress

  /**
   * Opcodes that ignore their operand accept anything; INX, INY, DEX, DEY and RTS insist on
   * Implied; the branches on a relative offset; the shifts on the accumulator or an address;
   * the rest, and the undocumented opcodes other than KIL when the feature is on, on an
   * address.
   */
  function OperandKindOf(mnemonic: Mnemonic, cfg: Config): OperandKind
  {
    match mnemonic
    case Transfer(op) =>
      (match op
       case LDA | LDX | LDY | STA | STX | STY => Address
       case _ => AnyOperand)
    case Arithmetic(op) =>
      (match op
       case INX | INY | DEX | DEY => NoOperand
       case ASL | LSR | ROL | ROR => AccumulatorOrAddress
       case _ => Address)
    case Branch(_) => Offset
    case Control(op) =>
      (match op
       case JMP | JSR => Address
       case RTS => NoOperand
       case _ => AnyOperand)
    case Combined(_) => if cfg.illegalOpcodes then Address else AnyOperand
    case Unstable(op) => if op != KIL && cfg.illegalOpcodes then Address else AnyOperand
  }

  /** The value a resolver handed over is of the kind the opcode accepts. */
  predicate Fits(kind: OperandKind, v: AddressModeValue)
  {
    match kind
    case AnyOperand => true
    case NoOperand => v.Implied?
    case Offset => v.RelativeAddress?
    case Address => v.AbsoluteAddress?
    case AccumulatorOrAddress => !v.RelativeAddress?
  }

  /** An addressing mode always yields values of the kind. */
  predicate ModeSuits(kind: OperandKind, mode: AddressMode)
  {
    match kind
    case AnyOperand => true
    case NoOperand => mode == Impl
    case Offset => mode == Rel
    case Address => mode != Impl && mode != Rel
    case AccumulatorOrAddress => mode != Rel
  }

  /** Whether a branch branches under status `p`. */
  predicate BranchTaken(op: BranchOp, p: bv8)
  {
    match op
    case BCC => !Flag(p, Carry)
    case BCS => Flag(p, Carry)
    case BEQ => Flag(p, Zero)
    case BMI => Flag(p, Negative)
    case BNE => !Flag(p, Zero)
    case BPL => !Flag(p, Negative)
    case BVC => !Flag(p, Overflow)
    case BVS => Flag(p, Overflow)
  }

  /**
   * Beyond a fitting operand, what an opcode function needs to run to its end: none of its
   * non-wrapping additions overflows (a taken branch's cycle charge, JSR's `pc - 1`, RTS's
   * `+ 1`, BRK's `pc + 1`), and KIL runs only with the feature off.
   */
  predicate Completes(mnemonic: Mnemonic, m: Machine, v: AddressModeValue, cfg: Config)
    requires Fits(OperandKindOf(mnemonic, cfg), v)
  {
    match mnemonic
    case Branch(op) => Opcodes.CanBranch(m.cpu, BranchTaken(op, m.cpu.p), v.offset)
    case Control(JSR) => m.cpu.pc >= 1
    case Control(RTS) => Pop16(m).0 < 0xFFFF
    case Control(BRK) => m.cpu.pc < 0xFFFF
    case Unstable(KIL) => !cfg.illegalOpcodes
    case _ => true
  }

  /** The opcode function of `mnemonic` runs on `v` without panicking. */
  predicate CanExecute(mnemonic: Mnemonic, m: Machine, v: AddressModeValue, cfg: Config)
  {
    Fits(OperandKindOf(mnemonic, cfg), v) && Completes(mnemonic, m, v, cfg)
  }

  /** What executing `mnemonic` on operand `v` does to the machine. */
  function Effect(mnemonic: Mnemonic, m: Machine, v: AddressModeValue, cfg: Config): Machine
    requires CanExecute(mnemonic, m, v, cfg)
  {
    match mnemonic
    case Transfer(op) => TransferEffect(op, m, v, cfg)
    case Arithmetic(op) => ArithmeticEffect(op, m, v, cfg)
    case Branch(op) => Opcodes.BranchEffect(m, BranchTaken(op, m.cpu.p), v)
    case Control(op) => ControlEffect(op, m, v, cfg)
    case Combined(op) => CombinedEffect(op, m, v, cfg)
    case Unstable(op) => UnstableEffect(op, m, v, cfg)
  }

  function TransferEffect(op: TransferOp, m: Machine, v: AddressModeValue, cfg: Config): Machine
    requires CanExecute(Transfer(op), m, v, cfg)
  {
    match op
    case LDA => Opcodes.LdaEffect(m, v)
    case LDX => Opcodes.LdxEffect(m, v)
    case LDY => Opcodes.LdyEffect(m, v)
    case STA => Opcodes.StoreEffect(m, m.cpu.a, v)
    case STX => Opcodes.StoreEffect(m, m.cpu.x, v)
    case STY => Opcodes.StoreEffect(m, m.cpu.y, v)
    case TAX => Opcodes.TaxEffect(m)
    case TAY => Opcodes.TayEffect(m)
    case TSX => Opcodes.TsxEffect(m)
    case TXA => Opcodes.TxaEffect(m)
    case TXS => Opcodes.TxsEffect(m)
    case TYA => Opcodes.TyaEffect(m)
    case PHA => Opcodes.PhaEffect(m)
    case PHP => Opcodes.PhpEffect(m)
    case PLA => Opcodes.PlaEffect(m)
    case PLP => Opcodes.PlpEffect(m)
  }

  function ArithmeticEffect(op: ArithmeticOp, m: Machine, v: AddressModeValue, cfg: Config): Machine
    requires CanExecute(Arithmetic(op), m, v, cfg)
  {
    match op
    case ADC => Opcodes.AdcEffect(m, v, cfg)
    case SBC => Opcodes.SbcEffect(m, v, cfg)
    case AND => Opcodes.LogicEffect(AndBits, m, v)
    case EOR => Opcodes.LogicEffect(XorBits, m, v)
    case ORA => Opcodes.LogicEffect(OrBits, m, v)
    case BIT => Opcodes.BitEffect(m, v)
    case CMP => Opcodes.CompareEffect(m, m.cpu.a, v)
    case CPX => Opcodes.CompareEffect(m, m.cpu.x, v)
    case CPY => Opcodes.CompareEffect(m, m.cpu.y, v)
    case INC => Opcodes.StepMemoryEffect(m, v, true)
    case DEC => Opcodes.StepMemoryEffect(m, v, false)
    case INX => Opcodes.InxEffect(m)
    case INY => Opcodes.InyEffect(m)
    case DEX => Opcodes.DexEffect(m)
    case DEY => Opcodes.DeyEffect(m)
    case ASL => Opcodes.ShiftEffect(Opcodes.ShiftLeft, m, v)
    case LSR => Opcodes.ShiftEffect(Opcodes.ShiftRight, m, v)
    case ROL => Opcodes.ShiftEffect(Opcodes.RotateLeft, m, v)
    case ROR => Opcodes.ShiftEffect(Opcodes.RotateRight, m, v)
  }

  function ControlEffect(op: ControlOp, m: Machine, v: AddressModeValue, cfg: Config): Machine
    requires CanExecute(Control(op), m, v, cfg)
  {
    match op
    case JMP => Opcodes.JmpEffect(m, v)
    case JSR => Opcodes.JsrEffect(m, v)
    case RTS => Opcodes.RtsEffect(m)
    case RTI => Opcodes.RtiEffect(m)
    case BRK => Opcodes.BrkEffect(m)
    case NOP => m
    case CLC => Opcodes.FlagEffect(m, Carry, false)
    case CLD => Opcodes.FlagEffect(m, Decimal, false)
    case CLI => Opcodes.FlagEffect(m, InterruptDisable, false)
    case CLV => Opcodes.FlagEffect(m, Overflow, false)
    case SEC => Opcodes.FlagEffect(m, Carry, true)
    case SED => Opcodes.FlagEffect(m, Decimal, true)
    case SEI => Opcodes.FlagEffect(m, InterruptDisable, true)
  }

  function CombinedEffect(op: CombinedOp, m: Machine, v: AddressModeValue, cfg: Config): Machine
    requires CanExecute(Combined(op), m, v, cfg)
  {
    match op
    case SLO => IllegalOpcodes.SloEffect(m, v, cfg)
    case RLA => IllegalOpcodes.RlaEffect(m, v, cfg)
    case SRE => IllegalOpcodes.SreEffect(m, v, cfg)
    case RRA => IllegalOpcodes.RraEffect(m, v, cfg)
    case SAX => IllegalOpcodes.SaxEffect(m, v, cfg)
    case LAX => IllegalOpcodes.LaxEffect(m, v, cfg)
    case DCP => IllegalOpcodes.DcpEffect(m, v, cfg)
    case ISC => IllegalOpcodes.IscEffect(m, v, cfg)
  }

  function UnstableEffect(op: UnstableOp, m: Machine, v: AddressModeValue, cfg: Config): Machine
    requires CanExecute(Unstable(op), m, v, cfg)
  {
    match op
    case ANC => IllegalOpcodes.AncEffect(m, v, cfg)
    case ALR => IllegalOpcodes.AlrEffect(m, v, cfg)
    case ARR => IllegalOpcodes.ArrEffect(m, v, cfg)
    case XAA => IllegalOpcodes.XaaEffect(m, v, cfg)
    case AXS => IllegalOpcodes.AxsEffect(m, v, cfg)
    case AHX => IllegalOpcodes.AhxEffect(m, v, cfg)
    case SHY => IllegalOpcodes.ShyEffect(m, v, cfg)
    case SHX => IllegalOpcodes.ShxEffect(m, v, cfg)
    case TAS => IllegalOpcodes.TasEffect(m, v, cfg)
    case LAS => IllegalOpcodes.LasEffect(m, v, cfg)
    case KIL => m
  }

  // ---------------------------------------------------------------------------------------
  // Properties of the table

  /**
   * A table entry is consistent: only KIL has no base cycles, and it takes no operand;
   * every other entry takes between two and eight; and the entry's addressing mode yields
   * operands its opcode function accepts.
   */
  predicate WellFormedEntry(entry: Instruction, cfg: Config)
  {
    && (entry.cycles == 0 <==> entry.mnemonic == Unstable(KIL))
    && (entry.mnemonic != Unstable(KIL) ==> 2 <= entry.cycles <= 8)
    && (entry.mnemonic == Unstable(KIL) ==> entry.mode == Impl)
    && ModeSuits(OperandKindOf(entry.mnemonic, cfg), entry.mode)
  }

  /** Every entry of the table is consistent, with the undocumented opcodes switched on or off. */
  lemma {:induction false} TableEntries(opcode: Byte, cfg: Config)
    ensures WellFormedEntry(Decode(opcode), cfg)
  {
    var column := opcode % 16;
    match opcode / 16
    case 0x0 => Row0WellFormed(column, cfg);
    case 0x1 => Row1WellFormed(column, cfg);
    case 0x2 => Row2WellFormed(column, cfg);
    case 0x3 => Row3WellFormed(column, cfg);
    case 0x4 => Row4WellFormed(column, cfg);
    case 0x5 => Row5WellFormed(column, cfg);
    case 0x6 => Row6WellFormed(column, cfg);
    case 0x7 => Row7WellFormed(column, cfg);
    case 0x8 => Row8WellFormed(column, cfg);
    case 0x9 => Row9WellFormed(column, cfg);
    case 0xA => RowAWellFormed(column, cfg);
    case 0xB => RowBWellFormed(column, cfg);
    case 0xC => RowCWellFormed(column, cfg);
    case 0xD => RowDWellFormed(column, cfg);
    case 0xE => RowEWellFormed(column, cfg);
    case _   => RowFWellFormed(column, cfg);
  }

  /* The rows one by one; in the rows with a KIL it sits in column 2. */

  lemma Row0WellFormed(column: nat, cfg: Config)
    requires column < 16
    ensures WellFormedEntry(Row0(column), cfg)
    ensures Row0(column).mnemonic == Unstable(KIL) <==> column == 2
  {
  }

  lemma Row1WellFormed(column: nat, cfg: Config)
    requires column < 16
    ensures WellFormedEntry(Row1(column), cfg)
    ensures Row1(column).mnemonic == Unstable(KIL) <==> column == 2
  {
  }

  lemma Row2WellFormed(column: nat, cfg: Config)
    requires column < 16
    ensures WellFormedEntry(Row2(column), cfg)
    ensures Row2(column).mnemonic == Unstable(KIL) <==> column == 2
  {
  }

  lemma Row3WellFormed(column: nat, cfg: Config)
    requires column < 16
    ensures WellFormedEntry(Row3(column), cfg)
    ensures Row3(column).mnemonic == Unstable(KIL) <==> column == 2
  {
  }

  lemma Row4WellFormed(column: nat, cfg: Config)
    requires column < 16
    ensures WellFormedEntry(Row4(column), cfg)
    ensures Row4(column).mnemonic == Unstable(KIL) <==> column == 2
  {
  }

  lemma Row5WellFormed(column: nat, cfg: Config)
    requires column < 16
    ensures WellFormedEntry(Row5(column), cfg)
    ensures Row5(column).mnemonic == Unstable(KIL) <==> column == 2
  {
  }

  lemma Row6WellFormed(column: nat, cfg: Config)
    requires column < 16
    ensures WellFormedEntry(Row6(column), cfg)
    ensures Row6(column).mnemonic == Unstable(KIL) <==> column == 2
  {
  }

  lemma Row7WellFormed(column: nat, cfg: Config)
    requires column < 16
    ensures WellFormedEntry(Row7(column), cfg)
    ensures Row7(column).mnemonic == Unstable(KIL) <==> column == 2
  {
  }

  lemma Row8WellFormed(column: nat, cfg: Config)
    requires column < 16
    ensures WellFormedEntry(Row8(column), cfg)
    ensures Row8(column).mnemonic != Unstable(KIL)
  {
  }

  lemma Row9WellFormed(column: nat, cfg: Config)
    requires column < 16
    ensures WellFormedEntry(Row9(column), cfg)
    ensures Row9(column).mnemonic == Unstable(KIL) <==> column == 2
  {
  }

  lemma RowAWellFormed(column: nat, cfg: Config)
    requires column < 16
    ensures WellFormedEntry(RowA(column), cfg)
    ensures RowA(column).mnemonic != Unstable(KIL)
  {
  }

  lemma RowBWellFormed(column: nat, cfg: Config)
    requires column < 16
    ensures WellFormedEntry(RowB(column), cfg)
    ensures RowB(column).mnemonic == Unstable(KIL) <==> column == 2
  {
  }

  lemma RowCWellFormed(column: nat, cfg: Config)
    requires column < 16
    ensures WellFormedEntry(RowC(column), cfg)
    ensures RowC(column).mnemonic != Unstable(KIL)
  {
  }

  lemma RowDWellFormed(column: nat, cfg: Config)
    requires column < 16
    ensures WellFormedEntry(RowD(column), cfg)
    ensures RowD(column).mnemonic == Unstable(KIL) <==> column == 2
  {
  }

  lemma RowEWellFormed(column: nat, cfg: Config)
    requires column < 16
    ensures WellFormedEntry(RowE(column), cfg)
    ensures RowE(column).mnemonic != Unstable(KIL)
  {
  }

  lemma RowFWellFormed(column: nat, cfg: Config)
    requires column < 16
    ensures WellFormedEntry(RowF(column), cfg)
    ensures RowF(column).mnemonic == Unstable(KIL) <==> column == 2
  {
  }

  /**
   * What no opcode touches: the cycle total and the interrupt latches. Only a taken branch
   * charges cycles, one or two.
   */
  predicate KeepsCounters(mnemonic: Mnemonic, m: Machine, n: Machine)
  {
    && n.cpu.total == m.cpu.total
    && n.cpu.pendingNmi == m.cpu.pendingNmi
    && n.cpu.pendingIrq == m.cpu.pendingIrq
    && m.cpu.remaining <= n.cpu.remaining <= m.cpu.remaining + 2
    && (n.cpu.remaining != m.cpu.remaining ==> IsBranch(mnemonic))
  }

  /** No opcode touches the cycle total or the interrupt latches; only branches charge cycles. */
  lemma {:induction false} EffectFrame(mnemonic: Mnemonic, m: Machine, v: AddressModeValue, cfg: Config)
    requires CanExecute(mnemonic, m, v, cfg)
    ensures KeepsCounters(mnemonic, m, Effect(mnemonic, m, v, cfg))
  {
    match mnemonic
    case Transfer(op) => TransferFrame(op, m, v, cfg);
    case Arithmetic(op) => ArithmeticFrame(op, m, v, cfg);
    case Branch(op) =>
    case Control(op) => ControlFrame(op, m, v, cfg);
    case Combined(op) => CombinedFrame(op, m, v, cfg);
    case Unstable(op) => UnstableFrame(op, m, v, cfg);
  }

  lemma TransferFrame(op: TransferOp, m: Machine, v: AddressModeValue, cfg: Config)
    requires CanExecute(Transfer(op), m, v, cfg)
    ensures KeepsCounters(Transfer(op), m, TransferEffect(op, m, v, cfg))
  {
  }

  lemma {:induction false} ArithmeticFrame(op: ArithmeticOp, m: Machine, v: AddressModeValue, cfg: Config)
    requires CanExecute(Arithmetic(op), m, v, cfg)
    ensures KeepsCounters(Arithmetic(op), m, ArithmeticEffect(op, m, v, cfg))
  {
    match op
    case ADC | SBC | AND | EOR | ORA => AccumulatorFrame(op, m, v, cfg);
    case BIT | CMP | CPX | CPY | INX | INY | DEX | DEY => RegisterFrame(op, m, v, cfg);
    case INC | DEC | ASL | LSR | ROL | ROR => ReadModifyWriteFrame(op, m, v, cfg);
  }

  /** ArithmeticFrame for the instructions that combine the accumulator with an operand. */
  lemma AccumulatorFrame(op: ArithmeticOp, m: Machine, v: AddressModeValue, cfg: Config)
    requires op in {ADC, SBC, AND, EOR, ORA} && CanExecute(Arithmetic(op), m, v, cfg)
    ensures KeepsCounters(Arithmetic(op), m, ArithmeticEffect(op, m, v, cfg))
  {
  }

  /** ArithmeticFrame for BIT, the compares and the register increments and decrements. */
  lemma RegisterFrame(op: ArithmeticOp, m: Machine, v: AddressModeValue, cfg: Config)
    requires op in {BIT, CMP, CPX, CPY, INX, INY, DEX, DEY} && CanExecute(Arithmetic(op), m, v, cfg)
    ensures KeepsCounters(Arithmetic(op), m, ArithmeticEffect(op, m, v, cfg))
  {
  }

  /** ArithmeticFrame for the memory increments and decrements and the shifts. */
  lemma ReadModifyWriteFrame(op: ArithmeticOp, m: Machine, v: AddressModeValue, cfg: Config)
    requires op in {INC, DEC, ASL, LSR, ROL, ROR} && CanExecute(Arithmetic(op), m, v, cfg)
    ensures KeepsCounters(Arithmetic(op), m, ArithmeticEffect(op, m, v, cfg))
  {
  }

  lemma ControlFrame(op: ControlOp, m: Machine, v: AddressModeValue, cfg: Config)
    requires CanExecute(Control(op), m, v, cfg)
    ensures KeepsCounters(Control(op), m, ControlEffect(op, m, v, cfg))
  {
  }

  lemma CombinedFrame(op: CombinedOp, m: Machine, v: AddressModeValue, cfg: Config)
    requires CanExecute(Combined(op), m, v, cfg)
    ensures KeepsCounters(Combined(op), m, CombinedEffect(op, m, v, cfg))
  {
  }

  lemma UnstableFrame(op: UnstableOp, m: Machine, v: AddressModeValue, cfg: Config)
    requires CanExecute(Unstable(op), m, v, cfg)
    ensures KeepsCounters(Unstable(op), m, UnstableEffect(op, m, v, cfg))
  {
  }

  /** A mode that suits a kind yields only values of that kind. */
  lemma {:induction false} SuitingModeFits(kind: OperandKind, mode: AddressMode, s: CpuState, mem: Memory)
    requires ModeSuits(kind, mode) && CanResolve(mode, s, mem)
    ensures Fits(kind, Resolve(mode, s, mem).0)
  {
    ResolveValueShape(mode, s, mem);
  }

  /** With the feature off, each undocumented opcode in the table does nothing. */
  lemma IllegalOffIsNoOp(mnemonic: Mnemonic, m: Machine, v: AddressModeValue, cfg: Config)
    requires IsIllegal(mnemonic) && !cfg.illegalOpcodes
    ensures CanExecute(mnemonic, m, v, cfg)
    ensures Effect(mnemonic, m, v, cfg) == m
  {
  }

  // ---------------------------------------------------------------------------------------
  // The call through the table

  /** `instruction.execute_instruction(cpu, bus, value)`: run the opcode function of `mnemonic`. */
  method Execute(mnemonic: Mnemonic, cpu: MOS6502, bus: Ram, v: AddressModeValue, cfg: Config)
    requires CanExecute(mnemonic, Snapshot(cpu, bus), v, cfg)
    modifies cpu, bus
    ensures Snapshot(cpu, bus) == Effect(mnemonic, old(Snapshot(cpu, bus)), v, cfg)
  {
    match mnemonic
    case Transfer(op) => ExecuteTransfer(op, cpu, bus, v, cfg);
    case Arithmetic(op) => ExecuteArithmetic(op, cpu, bus, v, cfg);
    case Branch(op) => ExecuteBranch(op, cpu, bus, v);
    case Control(op) => ExecuteControl(op, cpu, bus, v, cfg);
    case Combined(op) => ExecuteCombined(op, cpu, bus, v, cfg);
    case Unstable(op) => ExecuteUnstable(op, cpu, bus, v, cfg);
  }

  /** Execute, for the loads, stores, register transfers and stack pushes and pulls. */
  method ExecuteTransfer(op: TransferOp, cpu: MOS6502, bus: Ram, v: AddressModeValue, cfg: Config)
    requires CanExecute(Transfer(op), Snapshot(cpu, bus), v, cfg)
    modifies cpu, bus
    ensures Snapshot(cpu, bus) == TransferEffect(op, old(Snapshot(cpu, bus)), v, cfg)
  {
    match op
    case LDA => Opcodes.Lda(cpu, bus, v);
    case LDX => Opcodes.Ldx(cpu, bus, v);
    case LDY => Opcodes.Ldy(cpu, bus, v);
    case STA => Opcodes.Sta(cpu, bus, v);
    case STX => Opcodes.Stx(cpu, bus, v);
    case STY => Opcodes.Sty(cpu, bus, v);
    case TAX => Opcodes.Tax(cpu, bus, v);
    case TAY => Opcodes.Tay(cpu, bus, v);
    case TSX => Opcodes.Tsx(cpu, bus, v);
    case TXA => Opcodes.Txa(cpu, bus, v);
    case TXS => Opcodes.Txs(cpu, bus, v);
    case TYA => Opcodes.Tya(cpu, bus, v);
    case PHA => Opcodes.Pha(cpu, bus, v);
    case PHP => Opcodes.Php(cpu, bus, v);
    case PLA => Opcodes.Pla(cpu, bus, v);
    case PLP => Opcodes.Plp(cpu, bus, v);
  }

  /** Execute, for the arithmetic, logic, compare, increment, decrement and shift instructions. */
  method ExecuteArithmetic(op: ArithmeticOp, cpu: MOS6502, bus: Ram, v: AddressModeValue, cfg: Config)
    requires CanExecute(Arithmetic(op), Snapshot(cpu, bus), v, cfg)
    modifies cpu, bus
    ensures Snapshot(cpu, bus) == ArithmeticEffect(op, old(Snapshot(cpu, bus)), v, cfg)
  {
    match op
    case ADC => Opcodes.Adc(cpu, bus, v, cfg);
    case SBC => Opcodes.Sbc(cpu, bus, v, cfg);
    case AND => Opcodes.And(cpu, bus, v);
    case EOR => Opcodes.Eor(cpu, bus, v);
    case ORA => Opcodes.Ora(cpu, bus, v);
    case BIT => Opcodes.Bit(cpu, bus, v);
    case CMP => Opcodes.Cmp(cpu, bus, v);
    case CPX => Opcodes.Cpx(cpu, bus, v);
    case CPY => Opcodes.Cpy(cpu, bus, v);
    case INC => Opcodes.Inc(cpu, bus, v);
    case DEC => Opcodes.Dec(cpu, bus, v);
    case INX => Opcodes.Inx(cpu, bus, v);
    case INY => Opcodes.Iny(cpu, bus, v);
    case DEX => Opcodes.Dex(cpu, bus, v);
    case DEY => Opcodes.Dey(cpu, bus, v);
    case ASL => Opcodes.Asl(cpu, bus, v);
    case LSR => Opcodes.Lsr(cpu, bus, v);
    case ROL => Opcodes.Rol(cpu, bus, v);
    case ROR => Opcodes.Ror(cpu, bus, v);
  }

  /** Execute, for the eight conditional branches. */
  method ExecuteBranch(op: BranchOp, cpu: MOS6502, bus: Ram, v: AddressModeValue)
    requires v.RelativeAddress? && Opcodes.CanBranch(cpu.State(), BranchTaken(op, cpu.statusRegister), v.offset)
    modifies cpu, bus
    ensures Snapshot(cpu, bus) == Opcodes.BranchEffect(old(Snapshot(cpu, bus)), BranchTaken(op, old(cpu.statusRegister)), v)
  {
    match op
    case BCC => Opcodes.Bcc(cpu, bus, v);
    case BCS => Opcodes.Bcs(cpu, bus, v);
    case BEQ => Opcodes.Beq(cpu, bus, v);
    case BMI => Opcodes.Bmi(cpu, bus, v);
    case BNE => Opcodes.Bne(cpu, bus, v);
    case BPL => Opcodes.Bpl(cpu, bus, v);
    case BVC => Opcodes.Bvc(cpu, bus, v);
    case BVS => Opcodes.Bvs(cpu, bus, v);
  }

  /** Execute, for the jumps, subroutine and interrupt returns, BRK, NOP and the flag instructions. */
  method ExecuteControl(op: ControlOp, cpu: MOS6502, bus: Ram, v: AddressModeValue, cfg: Config)
    requires CanExecute(Control(op), Snapshot(cpu, bus), v, cfg)
    modifies cpu, bus
    ensures Snapshot(cpu, bus) == ControlEffect(op, old(Snapshot(cpu, bus)), v, cfg)
  {
    match op
    case JMP => Opcodes.Jmp(cpu, bus, v);
    case JSR => Opcodes.Jsr(cpu, bus, v);
    case RTS => Opcodes.Rts(cpu, bus, v);
    case RTI => Opcodes.Rti(cpu, bus, v);
    case BRK => Opcodes.Brk(cpu, bus, v);
    case NOP => Opcodes.Nop(cpu, bus, v);
    case CLC => Opcodes.Clc(cpu, bus, v);
    case CLD => Opcodes.Cld(cpu, bus, v);
    case CLI => Opcodes.Cli(cpu, bus, v);
    case CLV => Opcodes.Clv(cpu, bus, v);
    case SEC => Opcodes.Sec(cpu, bus, v);
    case SED => Opcodes.Sed(cpu, bus, v);
    case SEI => Opcodes.Sei(cpu, bus, v);
  }

  /** Execute, for the undocumented instructions that pair a documented read-modify-write, load or store. */
  method ExecuteCombined(op: CombinedOp, cpu: MOS6502, bus: Ram, v: AddressModeValue, cfg: Config)
    requires CanExecute(Combined(op), Snapshot(cpu, bus), v, cfg)
    modifies cpu, bus
    ensures Snapshot(cpu, bus) == CombinedEffect(op, old(Snapshot(cpu, bus)), v, cfg)
  {
    match op
    case SLO => IllegalOpcodes.Slo(cpu, bus, v, cfg);
    case RLA => IllegalOpcodes.Rla(cpu, bus, v, cfg);
    case SRE => IllegalOpcodes.Sre(cpu, bus, v, cfg);
    case RRA => IllegalOpcodes.Rra(cpu, bus, v, cfg);
    case SAX => IllegalOpcodes.Sax(cpu, bus, v, cfg);
    case LAX => IllegalOpcodes.Lax(cpu, bus, v, cfg);
    case DCP => IllegalOpcodes.Dcp(cpu, bus, v, cfg);
    case ISC => IllegalOpcodes.Isc(cpu, bus, v, cfg);
  }

  /** Execute, for the remaining undocumented instructions. */
  method ExecuteUnstable(op: UnstableOp, cpu: MOS6502, bus: Ram, v: AddressModeValue, cfg: Config)
    requires CanExecute(Unstable(op), Snapshot(cpu, bus), v, cfg)
    modifies cpu, bus
    ensures Snapshot(cpu, bus) == UnstableEffect(op, old(Snapshot(cpu, bus)), v, cfg)
  {
    match op
    case ANC => IllegalOpcodes.Anc(cpu, bus, v, cfg);
    case ALR => IllegalOpcodes.Alr(cpu, bus, v, cfg);
    case ARR => IllegalOpcodes.Arr(cpu, bus, v, cfg);
    case XAA => IllegalOpcodes.Xaa(cpu, bus, v, cfg);
    case AXS => IllegalOpcodes.Axs(cpu, bus, v, cfg);
    case AHX => IllegalOpcodes.Ahx(cpu, bus, v, cfg);
    case SHY => IllegalOpcodes.Shy(cpu, bus, v, cfg);
    case SHX => IllegalOpcodes.Shx(cpu, bus, v, cfg);
    case TAS => IllegalOpcodes.Tas(cpu, bus, v, cfg);
    case LAS => IllegalOpcodes.Las(cpu, bus, v, cfg);
    case KIL => IllegalOpcodes.Kil(cpu, bus, v, cfg);
  }
}
