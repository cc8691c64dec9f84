/** The decode stage of the RV32I simulator step: fixed-position field
    extraction and the per-format immediates of the RISC-V Unprivileged ISA,
    Volume I, sections 2.2 and 2.3 (base instruction formats and immediate
    encoding variants). Everything here is a pure function of the 32-bit
    instruction word. */
module Decoder {

  datatype Option<T> = None | Some(value: T)

  // Major opcodes the simulator dispatches on.
  const OP_REG: bv32 := 0x33     // ADD, SLT
  const OP_IMM: bv32 := 0x13     // ADDI, SLLI
  const OP_STORE: bv32 := 0x23   // SW
  const OP_BRANCH: bv32 := 0x63  // BNE
  const OP_AUIPC: bv32 := 0x17   // AUIPC
  const OP_JAL: bv32 := 0x6F     // JAL

  /** The immediate encoding variants of the ISA manual. */
  datatype Format = IType | SType | BType | UType | JType

  /** The transient fields decode produces: the six fixed fields, each kept
      as the simulator's unsigned 32-bit value, and the immediate, present
      only for the opcodes that have an immediate case. */
  datatype Decoded = Decoded(
    opcode: bv32, rd: bv32, funct3: bv32, rs1: bv32, rs2: bv32, funct7: bv32,
    imm: Option<bv32>)

  /** Bit i of x, as 0 or 1. */
  function Bit(x: bv32, i: bv32): bv32
    requires i < 32
  {
    (x >> i) & 1
  }

  /** Reference layout of the immediates (Figure 2.4 of the ISA manual):
      the value of bit i of the immediate of format f, read off the
      instruction word. Bits the manual fixes at zero give 0; every bit
      above a signed immediate's top bit repeats instruction bit 31. */
  function ManualImmBit(f: Format, instr: bv32, i: bv32): bv32
    requires i < 32
  {
    match f
    case IType =>
      if i < 11 then Bit(instr, 20 + i) else Bit(instr, 31)
    case SType =>
      if i < 5 then Bit(instr, 7 + i)
      else if i < 11 then Bit(instr, 20 + i)
      else Bit(instr, 31)
    case BType =>
      if i == 0 then 0
      else if i < 5 then Bit(instr, 7 + i)
      else if i < 11 then Bit(instr, 20 + i)
      else if i == 11 then Bit(instr, 7)
      else Bit(instr, 31)
    case UType =>
      if i < 12 then 0 else Bit(instr, i)
    case JType =>
      if i == 0 then 0
      else if i < 11 then Bit(instr, 20 + i)
      else if i == 11 then Bit(instr, 20)
      else if i < 20 then Bit(instr, i)
      else Bit(instr, 31)
  }

  /** I-type: bits 31..20, sign-extended from bit 11 (range -2048 .. 2047). */
  function ImmI(instr: bv32): (r: bv32)
    ensures forall i: bv32 | i < 32 :: Bit(r, i) == ManualImmBit(IType, instr, i)
  {
    var field := (instr >> 20) & 0xFFF;
    if field & 0x800 != 0 then field | 0xFFFF_F000 else field
  }

  /** S-type: bits 31..25 over bits 11..7, sign-extended from bit 11. */
  function ImmS(instr: bv32): (r: bv32)
    ensures forall i: bv32 | i < 32 :: Bit(r, i) == ManualImmBit(SType, instr, i)
  {
    var field := (((instr >> 25) & 0x7F) << 5) | ((instr >> 7) & 0x1F);
    if field & 0x800 != 0 then field | 0xFFFF_F000 else field
  }

  /** B-type: a 13-bit even offset, sign-extended from bit 12
      (range -4096 .. 4094). */
  function ImmB(instr: bv32): (r: bv32)
    ensures forall i: bv32 | i < 32 :: Bit(r, i) == ManualImmBit(BType, instr, i)
  {
    var field := ((instr >> 31) << 12)
                 | (((instr >> 7) & 0x1) << 11)
                 | (((instr >> 25) & 0x3F) << 5)
                 | (((instr >> 8) & 0xF) << 1);
    if field & 0x1000 != 0 then field | 0xFFFF_E000 else field
  }

  /** U-type: the upper 20 bits in place, the low 12 bits zero. */
  function ImmU(instr: bv32): (r: bv32)
    ensures forall i: bv32 | i < 32 :: Bit(r, i) == ManualImmBit(UType, instr, i)
  {
    instr & 0xFFFF_F000
  }

  /** J-type: a 21-bit even offset, sign-extended from bit 20
      (range -1 MiB .. 1 MiB - 2). */
  function ImmJ(instr: bv32): (r: bv32)
    ensures forall i: bv32 | i < 32 :: Bit(r, i) == ManualImmBit(JType, instr, i)
  {
    var field := ((instr >> 31) << 20)
                 | (((instr >> 12) & 0xFF) << 12)
                 | (((instr >> 20) & 0x1) << 11)
                 | (((instr >> 21) & 0x3FF) << 1);
    if field & 0x10_0000 != 0 then field | 0xFFE0_0000 else field
  }

  /** The opcodes for which decode computes an immediate. */
  predicate HasImmediate(opcode: bv32)
  {
    opcode == OP_IMM || opcode == OP_STORE || opcode == OP_BRANCH
    || opcode == OP_AUIPC || opcode == OP_JAL
  }

  /** Decode one instruction word: the fixed fields, then the immediate
      selected by the opcode. */
  function Decode(instr: bv32): (d: Decoded)
    ensures d.opcode < 0x80 && d.funct7 < 0x80 && d.funct3 < 0x8
    ensures d.rd < 0x20 && d.rs1 < 0x20 && d.rs2 < 0x20
    // the six fields tile the word: putting them back in place gives it back
    ensures Encode(d.opcode, d.rd, d.funct3, d.rs1, d.rs2, d.funct7) == instr
    ensures d.imm.Some? <==> HasImmediate(d.opcode)
    ensures d.opcode == OP_IMM ==> d.imm == Some(ImmI(instr))
    ensures d.opcode == OP_STORE ==> d.imm == Some(ImmS(instr))
    ensures d.opcode == OP_BRANCH ==> d.imm == Some(ImmB(instr))
    ensures d.opcode == OP_AUIPC ==> d.imm == Some(ImmU(instr))
    ensures d.opcode == OP_JAL ==> d.imm == Some(ImmJ(instr))
  {
    var opcode := instr & 0x7F;
    var imm :=
      if opcode == OP_IMM then Some(ImmI(instr))
      else if opcode == OP_STORE then Some(ImmS(instr))
      else if opcode == OP_BRANCH then Some(ImmB(instr))
      else if opcode == OP_AUIPC then Some(ImmU(instr))
      else if opcode == OP_JAL then Some(ImmJ(instr))
      else None;
    Decoded(opcode, (instr >> 7) & 0x1F, (instr >> 12) & 0x7, (instr >> 15) & 0x1F,
            (instr >> 20) & 0x1F, (instr >> 25) & 0x7F, imm)
  }

  /** The I-type immediate keeps the 12-bit field in its low bits and lies
      in -2048 .. 2047 (two's complement). */
  lemma ImmIShape(instr: bv32)
    ensures ImmI(instr) & 0xFFF == instr >> 20
    ensures ImmI(instr) < 0x800 || 0xFFFF_F800 <= ImmI(instr)
  {
  }

  /** The S-type immediate is bits 31..25 over bits 11..7 and lies in
      -2048 .. 2047. */
  lemma ImmSShape(instr: bv32)
    ensures ImmS(instr) & 0x1F == (instr >> 7) & 0x1F
    ensures (ImmS(instr) >> 5) & 0x7F == instr >> 25
    ensures ImmS(instr) < 0x800 || 0xFFFF_F800 <= ImmS(instr)
  {
  }

  /** The B-type immediate is even and lies in -4096 .. 4094. */
  lemma ImmBShape(instr: bv32)
    ensures ImmB(instr) & 1 == 0
    ensures ImmB(instr) < 0x1000 || 0xFFFF_F000 <= ImmB(instr)
  {
  }

  /** The U-type immediate is the word with its low 12 bits cleared. */
  lemma ImmUShape(instr: bv32)
    ensures ImmU(instr) & 0xFFF == 0 && ImmU(instr) >> 12 == instr >> 12
  {
  }

  /** The J-type immediate is even and lies in -1 MiB .. 1 MiB - 2. */
  lemma ImmJShape(instr: bv32)
    ensures ImmJ(instr) & 1 == 0
    ensures ImmJ(instr) < 0x10_0000 || 0xFFF0_0000 <= ImmJ(instr)
  {
  }

  /** I-type raw field 0x800 is -2048 and 0x7FF is 2047. */
  lemma ImmIExtremes()
    ensures ImmI(0x8000_0000) == 0xFFFF_F800 && ImmI(0x8000_0000) == -(2048 as bv32)
    ensures ImmI(0x7FF0_0000) == 2047
  {
  }

  /** A branch word whose only immediate bit is bit 31 has offset -4096,
      the smallest the B-type encoding can express. */
  lemma ImmBMinimum(instr: bv32)
    requires instr & 0xFE00_0F80 == 0x8000_0000
    ensures ImmB(instr) == 0xFFFF_F000 && ImmB(instr) == -(4096 as bv32)
  {
  }

  /** The word with the six fixed fields in place: the inverse of decode's
      field extraction. */
  function Encode(opcode: bv32, rd: bv32, funct3: bv32, rs1: bv32, rs2: bv32, funct7: bv32): bv32
  {
    opcode | (rd << 7) | (funct3 << 12) | (rs1 << 15) | (rs2 << 20) | (funct7 << 25)
  }

  /** Fields within their widths survive encoding and decoding unchanged. */
  lemma DecodeEncode(opcode: bv32, rd: bv32, funct3: bv32, rs1: bv32, rs2: bv32, funct7: bv32)
    requires opcode < 0x80 && rd < 0x20 && funct3 < 0x8
    requires rs1 < 0x20 && rs2 < 0x20 && funct7 < 0x80
    ensures var d := Decode(Encode(opcode, rd, funct3, rs1, rs2, funct7));
      d.opcode == opcode && d.rd == rd && d.funct3 == funct3
      && d.rs1 == rs1 && d.rs2 == rs2 && d.funct7 == funct7
  {
  }

  /** Fields within their widths that tile a word are its bit slices:
      opcode 6..0, rd 11..7, funct3 14..12, rs1 19..15, rs2 24..20 and
      funct7 31..25. With Decode's range and reassembly clauses this fixes
      every decoded field. */
  lemma EncodedSlices(instr: bv32, opcode: bv32, rd: bv32, funct3: bv32, rs1: bv32, rs2: bv32, funct7: bv32)
    requires opcode < 0x80 && rd < 0x20 && funct3 < 0x8
    requires rs1 < 0x20 && rs2 < 0x20 && funct7 < 0x80
    requires Encode(opcode, rd, funct3, rs1, rs2, funct7) == instr
    ensures opcode == instr & 0x7F && rd == (instr >> 7) & 0x1F
    ensures funct3 == (instr >> 12) & 0x7 && rs1 == (instr >> 15) & 0x1F
    ensures rs2 == (instr >> 20) & 0x1F && funct7 == instr >> 25
  {
  }
}
