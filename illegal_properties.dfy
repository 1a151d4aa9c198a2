/*
 * What the undocumented opcodes compute, stated in closed form over the state before them,
 * and that with the `illegal_opcodes` feature off none of them changes anything.
 */
module IllegalProperties {
  import opened Cpu
  import opened AddressModes
  import opened Opcodes
  import opened IllegalOpcodes
  import opened OpcodeProperties

  /** With the feature off, every undocumented opcode leaves processor and memory as they were. */
  lemma FeatureOffIsNoOp(m: Machine, v: AddressModeValue, cfg: Config)
    requires !cfg.illegalOpcodes
    ensures SloEffect(m, v, cfg) == m && RlaEffect(m, v, cfg) == m && SreEffect(m, v, cfg) == m
    ensures RraEffect(m, v, cfg) == m && SaxEffect(m, v, cfg) == m && LaxEffect(m, v, cfg) == m
    ensures DcpEffect(m, v, cfg) == m && IscEffect(m, v, cfg) == m && AncEffect(m, v, cfg) == m
    ensures AlrEffect(m, v, cfg) == m && ArrEffect(m, v, cfg) == m && XaaEffect(m, v, cfg) == m
    ensures AxsEffect(m, v, cfg) == m && AhxEffect(m, v, cfg) == m && ShyEffect(m, v, cfg) == m
    ensures ShxEffect(m, v, cfg) == m && TasEffect(m, v, cfg) == m && LasEffect(m, v, cfg) == m
  {
  }

  /** `x & 0xFF..` over `n` bits is `x` itself. */
  lemma {:induction false} AndAllOnes(x: nat, n: nat)
    requires x < Pow2(n)
    ensures Bitwise(AndBits, x, Pow2(n) - 1, n) == x
  {
    if n > 0 {
      AndAllOnes(x / 2, n - 1);
      assert (Pow2(n) - 1) / 2 == Pow2(n - 1) - 1;
    }
  }

  /** `x & 0xFE` clears bit 0 and keeps the rest. */
  lemma {:induction false} ClearBitZero(x: Byte)
    ensures BitAnd(x, 0xFE) == x - x % 2
  {
    AndAllOnes(x / 2, 7);
    assert Pow2(7) - 1 == 0x7F;
  }

  /**
   * SLO, RLA and SRE: the byte in memory is shifted, the accumulator is combined with the
   * shifted byte, C is the bit the shift pushed out, and Z and N describe the accumulator.
   */
  lemma {:induction false} ShiftThenLogic(kind: Shift, op: BitOp, m: Machine, v: AddressModeValue)
    requires v.AbsoluteAddress?
    ensures var (r, q) := Shifted(kind, m.cpu.p, Operand(m, v));
      var n := LogicEffect(op, ShiftEffect(kind, m, v), v);
      && Load(n.mem, v.address) == r
      && n.cpu.a == Bitwise(op, m.cpu.a, r, 8)
      && Flag(n.cpu.p, Carry) == Flag(q, Carry)
      && (Flag(n.cpu.p, Zero) <==> n.cpu.a == 0) && Flag(n.cpu.p, Negative) == Bit7(n.cpu.a)
      && n.cpu == m.cpu.(a := n.cpu.a, p := n.cpu.p)
  {
    var (r, q) := Shifted(kind, m.cpu.p, Operand(m, v));
    LoadStore(m.mem, v.address, r, v.address);
    ZeroNegative(q, Bitwise(op, m.cpu.a, r, 8));
  }

  /** SLO: M is shifted left, A takes `A | (M << 1)`, and C takes bit 7 of M; no other byte changes. */
  lemma {:induction false} SloClosedForm(m: Machine, v: AddressModeValue, cfg: Config)
    requires v.AbsoluteAddress? && cfg.illegalOpcodes
    ensures var n := SloEffect(m, v, cfg);
      && Load(n.mem, v.address) == DoubledByte(Operand(m, v))
      && n.cpu.a == BitOr(m.cpu.a, DoubledByte(Operand(m, v)))
      && Flag(n.cpu.p, Carry) == Bit7(Operand(m, v))
      && (Flag(n.cpu.p, Zero) <==> n.cpu.a == 0) && Flag(n.cpu.p, Negative) == Bit7(n.cpu.a)
      && n.cpu == m.cpu.(a := n.cpu.a, p := n.cpu.p)
    ensures forall b: Word :: b != v.address ==> Load(SloEffect(m, v, cfg).mem, b) == Load(m.mem, b)
  {
    ShiftThenLogic(ShiftLeft, OrBits, m, v);
    ShiftedFlags(ShiftLeft, m.cpu.p, Operand(m, v));
  }

  /** SRE: M is halved, A takes `A ^ (M >> 1)`, and C takes bit 0 of M; no other byte changes. */
  lemma {:induction false} SreClosedForm(m: Machine, v: AddressModeValue, cfg: Config)
    requires v.AbsoluteAddress? && cfg.illegalOpcodes
    ensures var n := SreEffect(m, v, cfg);
      && Load(n.mem, v.address) == Operand(m, v) / 2
      && n.cpu.a == BitXor(m.cpu.a, Operand(m, v) / 2)
      && Flag(n.cpu.p, Carry) == (Operand(m, v) % 2 == 1)
      && (Flag(n.cpu.p, Zero) <==> n.cpu.a == 0) && Flag(n.cpu.p, Negative) == Bit7(n.cpu.a)
      && n.cpu == m.cpu.(a := n.cpu.a, p := n.cpu.p)
    ensures forall b: Word :: b != v.address ==> Load(SreEffect(m, v, cfg).mem, b) == Load(m.mem, b)
  {
    ShiftThenLogic(ShiftRight, XorBits, m, v);
    ShiftedFlags(ShiftRight, m.cpu.p, Operand(m, v));
  }

  /** RLA: M is rotated left through the carry, A takes `A & M'`, and C takes bit 7 of M; no other byte changes. */
  lemma {:induction false} RlaClosedForm(m: Machine, v: AddressModeValue, cfg: Config)
    requires v.AbsoluteAddress? && cfg.illegalOpcodes
    ensures var n := RlaEffect(m, v, cfg);
      && Load(n.mem, v.address) == DoubledByte(Operand(m, v)) + CarryBit(m.cpu.p)
      && n.cpu.a == BitAnd(m.cpu.a, DoubledByte(Operand(m, v)) + CarryBit(m.cpu.p))
      && Flag(n.cpu.p, Carry) == Bit7(Operand(m, v))
      && (Flag(n.cpu.p, Zero) <==> n.cpu.a == 0) && Flag(n.cpu.p, Negative) == Bit7(n.cpu.a)
      && n.cpu == m.cpu.(a := n.cpu.a, p := n.cpu.p)
    ensures forall b: Word :: b != v.address ==> Load(RlaEffect(m, v, cfg).mem, b) == Load(m.mem, b)
  {
    ShiftThenLogic(RotateLeft, AndBits, m, v);
    ShiftedFlags(RotateLeft, m.cpu.p, Operand(m, v));
  }

  /**
   * RRA outside decimal mode: M is rotated right through the carry, and the bit it pushed
   * out is the carry ADC adds: `A' + 256 * C' == A + M' + (M & 1)`.
   */
  lemma {:induction false} RraBinary(m: Machine, v: AddressModeValue, cfg: Config)
    requires v.AbsoluteAddress? && cfg.illegalOpcodes && !DecimalMode(m.cpu, cfg)
    ensures var n := RraEffect(m, v, cfg); var r := Operand(m, v) / 2 + 0x80 * CarryBit(m.cpu.p);
      && Load(n.mem, v.address) == r
      && n.cpu.a + (if Flag(n.cpu.p, Carry) then 0x100 else 0) == m.cpu.a + r + Operand(m, v) % 2
  {
    var m1 := ShiftEffect(RotateRight, m, v);
    ShiftedFlags(RotateRight, m.cpu.p, Operand(m, v));
    assert Flag(m1.cpu.p, Decimal) == Flag(m.cpu.p, Decimal);
    ShiftTargets(RotateRight, m, v, v.address);
    AdcBinary(m1, v, cfg);
  }

  /** LAX: A and X both take M; Z and N describe it; nothing else changes. */
  lemma {:induction false} LaxClosedForm(m: Machine, v: AddressModeValue, cfg: Config)
    requires v.AbsoluteAddress? && cfg.illegalOpcodes
    ensures var n := LaxEffect(m, v, cfg);
      && n.cpu == m.cpu.(a := Operand(m, v), x := Operand(m, v), p := WithZN(m.cpu.p, Operand(m, v)))
      && n.mem == m.mem
      && (Flag(n.cpu.p, Zero) <==> Operand(m, v) == 0) && Flag(n.cpu.p, Negative) == Bit7(Operand(m, v))
  {
    ZeroNegativeTwice(m.cpu.p, Operand(m, v), Operand(m, v));
    ZeroNegative(m.cpu.p, Operand(m, v));
  }

  /** DCP: M is decremented, the flags compare A against the decremented byte, and no other byte changes. */
  lemma {:induction false} DcpClosedForm(m: Machine, v: AddressModeValue, cfg: Config)
    requires v.AbsoluteAddress? && cfg.illegalOpcodes
    ensures var n := DcpEffect(m, v, cfg); var d := Dec8(Operand(m, v));
      && Load(n.mem, v.address) == d
      && (Flag(n.cpu.p, Carry) <==> m.cpu.a >= d)
      && (Flag(n.cpu.p, Zero) <==> m.cpu.a == d)
      && Flag(n.cpu.p, Negative) == Bit7(Sub8(m.cpu.a, d))
      && n.cpu == m.cpu.(p := n.cpu.p)
    ensures forall b: Word :: b != v.address ==> Load(DcpEffect(m, v, cfg).mem, b) == Load(m.mem, b)
  {
    var d := Dec8(Operand(m, v));
    LoadStore(m.mem, v.address, d, v.address);
    CompareMeaning(WithZN(m.cpu.p, d), m.cpu.a, d);
  }

  /**
   * ISC outside decimal mode: M is incremented, then subtracted from A with borrow; Z and N
   * describe the new A, V says the signed difference left -128..127, and only A, the status
   * and the incremented byte change.
   */
  lemma {:induction false} IscBinary(m: Machine, v: AddressModeValue, cfg: Config)
    requires v.AbsoluteAddress? && cfg.illegalOpcodes && !DecimalMode(m.cpu, cfg)
    ensures var n := IscEffect(m, v, cfg); var i := Inc8(Operand(m, v)); var borrow := 1 - CarryBit(m.cpu.p);
      && Load(n.mem, v.address) == i
      && n.cpu.a == (m.cpu.a - i - borrow) % 0x100
      && (Flag(n.cpu.p, Carry) <==> m.cpu.a >= i + borrow)
      && (Flag(n.cpu.p, Zero) <==> n.cpu.a == 0) && Flag(n.cpu.p, Negative) == Bit7(n.cpu.a)
      && (Flag(n.cpu.p, Overflow) <==> !(-0x80 <= Signed(m.cpu.a) - Signed(i) - borrow <= 0x7F))
      && n.cpu == m.cpu.(a := n.cpu.a, p := n.cpu.p)
    ensures forall b: Word :: b != v.address ==> Load(IscEffect(m, v, cfg).mem, b) == Load(m.mem, b)
  {
    var i := Inc8(Operand(m, v));
    var m1 := StepMemoryEffect(m, v, true);
    LoadStore(m.mem, v.address, i, v.address);
    ZeroNegative(m.cpu.p, i);
    assert Flag(m1.cpu.p, Decimal) == Flag(m.cpu.p, Decimal);
    SbcBinary(m1, v, cfg);
  }

  /** ANC: A takes `A & M`; C, like N, is bit 7 of the result. */
  lemma {:induction false} AncClosedForm(m: Machine, v: AddressModeValue, cfg: Config)
    requires v.AbsoluteAddress? && cfg.illegalOpcodes
    ensures var n := AncEffect(m, v, cfg);
      && n.cpu.a == BitAnd(m.cpu.a, Operand(m, v))
      && Flag(n.cpu.p, Carry) == Bit7(n.cpu.a) && Flag(n.cpu.p, Negative) == Bit7(n.cpu.a)
      && (Flag(n.cpu.p, Zero) <==> n.cpu.a == 0)
      && n.mem == m.mem
  {
    var r := BitAnd(m.cpu.a, Operand(m, v));
    ZeroNegative(m.cpu.p, r);
    WithFlagSpec(WithZN(m.cpu.p, r), Carry, Bit7(r));
    WithFlagOther(WithZN(m.cpu.p, r), Carry, Zero, Bit7(r));
    WithFlagOther(WithZN(m.cpu.p, r), Carry, Negative, Bit7(r));
  }

  /** ALR: A takes `(A & M) >> 1`; C is bit 0 of `A & M`; N is cleared. */
  lemma {:induction false} AlrClosedForm(m: Machine, v: AddressModeValue, cfg: Config)
    requires v.AbsoluteAddress? && cfg.illegalOpcodes
    ensures var n := AlrEffect(m, v, cfg); var t := BitAnd(m.cpu.a, Operand(m, v));
      && n.cpu.a == t / 2
      && Flag(n.cpu.p, Carry) == (t % 2 == 1)
      && !Flag(n.cpu.p, Negative)
      && n.mem == m.mem
  {
    var m1 := LogicEffect(AndBits, m, v);
    ShiftedFlags(ShiftRight, m1.cpu.p, m1.cpu.a);
  }

  /**
   * ARR: A takes `(A & M) >> 1` with the old carry in bit 7; since bit 0 was cleared first,
   * the carry always ends up clear; V is as ADC of `A & M` and M would set it.
   */
  lemma {:induction false} ArrClosedForm(m: Machine, v: AddressModeValue, cfg: Config)
    requires v.AbsoluteAddress? && cfg.illegalOpcodes
    ensures var n := ArrEffect(m, v, cfg); var t := BitAnd(m.cpu.a, Operand(m, v));
      && n.cpu.a == t / 2 + 0x80 * CarryBit(m.cpu.p)
      && !Flag(n.cpu.p, Carry)
      && Flag(n.cpu.p, Overflow) == Overflowed(t, Operand(m, v), Add8(t, Operand(m, v)))
      && n.mem == m.mem
  {
    var t := BitAnd(m.cpu.a, Operand(m, v));
    var m1 := LogicEffect(AndBits, m, v);
    var value := Operand(m1, v);
    var m2 := FlagEffect(m1, Overflow, Overflowed(t, value, Add8(t, value)));
    ZeroNegative(m.cpu.p, t);
    WithFlagSpec(m1.cpu.p, Overflow, Overflowed(t, value, Add8(t, value)));
    WithFlagOther(m1.cpu.p, Overflow, Carry, Overflowed(t, value, Add8(t, value)));
    ClearBitZero(t);
    ShiftedFlags(RotateRight, m2.cpu.p, t - t % 2);
  }

  /** XAA: A takes `X & M`; Z and N describe it. */
  lemma {:induction false} XaaClosedForm(m: Machine, v: AddressModeValue, cfg: Config)
    requires v.AbsoluteAddress? && cfg.illegalOpcodes
    ensures var n := XaaEffect(m, v, cfg);
      && n.cpu.a == BitAnd(m.cpu.x, Operand(m, v))
      && (Flag(n.cpu.p, Zero) <==> n.cpu.a == 0) && Flag(n.cpu.p, Negative) == Bit7(n.cpu.a)
      && n.cpu == m.cpu.(a := n.cpu.a, p := n.cpu.p)
  {
    LogicMeaning(AndBits, TxaEffect(m), v);
  }

  /** AXS: X takes `(A & X) - M` modulo 256, with the flags of comparing `A & X` against M. */
  lemma {:induction false} AxsClosedForm(m: Machine, v: AddressModeValue, cfg: Config)
    requires v.AbsoluteAddress? && cfg.illegalOpcodes
    ensures var n := AxsEffect(m, v, cfg); var t := BitAnd(m.cpu.a, m.cpu.x);
      && n.cpu.x == (t - Operand(m, v)) % 0x100
      && (Flag(n.cpu.p, Carry) <==> t >= Operand(m, v))
      && (Flag(n.cpu.p, Zero) <==> t == Operand(m, v))
      && Flag(n.cpu.p, Negative) == Bit7(n.cpu.x)
      && n.cpu == m.cpu.(x := n.cpu.x, p := n.cpu.p)
      && n.mem == m.mem
  {
    CompareMeaning(m.cpu.p, BitAnd(m.cpu.a, m.cpu.x), Operand(m, v));
  }

  /** LAS: A, X and the stack pointer all take `M & SP`, which is no more than the old pointer. */
  lemma {:induction false} LasClosedForm(m: Machine, v: AddressModeValue, cfg: Config)
    requires v.AbsoluteAddress? && cfg.illegalOpcodes
    ensures var n := LasEffect(m, v, cfg); var t := BitAnd(Operand(m, v), m.cpu.sp);
      && n.cpu.a == t && n.cpu.x == t && n.cpu.sp == t
      && t <= m.cpu.sp && t <= Operand(m, v)
      && (Flag(n.cpu.p, Zero) <==> t == 0) && Flag(n.cpu.p, Negative) == Bit7(t)
      && n.mem == m.mem
  {
    var t := BitAnd(Operand(m, v), m.cpu.sp);
    AndBounded(Operand(m, v), m.cpu.sp, 8);
    ZeroNegative(m.cpu.p, t);
  }

  /**
   * SAX, AHX, SHX and SHY write `A & X`, `A & X & H`, `X & H` and `Y & H` (H the high byte
   * of the address) and change no register; TAS also sets the stack pointer to `A & X`.
   */
  lemma {:induction false} IllegalStores(m: Machine, v: AddressModeValue, cfg: Config)
    requires v.AbsoluteAddress? && cfg.illegalOpcodes
    ensures SaxEffect(m, v, cfg).cpu == m.cpu && Load(SaxEffect(m, v, cfg).mem, v.address) == BitAnd(m.cpu.a, m.cpu.x)
    ensures AhxEffect(m, v, cfg).cpu == m.cpu
      && Load(AhxEffect(m, v, cfg).mem, v.address) == BitAnd(BitAnd(m.cpu.a, m.cpu.x), Hi(v.address))
    ensures ShxEffect(m, v, cfg).cpu == m.cpu && Load(ShxEffect(m, v, cfg).mem, v.address) == BitAnd(m.cpu.x, Hi(v.address))
    ensures ShyEffect(m, v, cfg).cpu == m.cpu && Load(ShyEffect(m, v, cfg).mem, v.address) == BitAnd(m.cpu.y, Hi(v.address))
    ensures TasEffect(m, v, cfg).cpu == m.cpu.(sp := BitAnd(m.cpu.a, m.cpu.x))
      && Load(TasEffect(m, v, cfg).mem, v.address) == BitAnd(BitAnd(m.cpu.a, m.cpu.x), Hi(v.address))
    ensures Load(ShxEffect(m, v, cfg).mem, v.address) <= Hi(v.address)
    ensures Load(ShyEffect(m, v, cfg).mem, v.address) <= Hi(v.address)
  {
    var a := v.address;
    LoadStore(m.mem, a, BitAnd(m.cpu.a, m.cpu.x), a);
    LoadStore(m.mem, a, BitAnd(BitAnd(m.cpu.a, m.cpu.x), Hi(a)), a);
    LoadStore(m.mem, a, BitAnd(m.cpu.x, Hi(a)), a);
    LoadStore(m.mem, a, BitAnd(m.cpu.y, Hi(a)), a);
    AndBounded(m.cpu.x, Hi(a), 8);
    AndBounded(m.cpu.y, Hi(a), 8);
  }
}
