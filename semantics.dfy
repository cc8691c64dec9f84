/** Value-level meaning of one simulator step: the supported instructions as
    a closed variant, what each does to an architectural state and to the
    word memory, and the step as a function from a committed state to the
    next one. The imperative simulator in module Sim is proved against these
    definitions. */
module Semantics {
  import opened Decoder

  /** Number of general-purpose registers. The source takes it from the
      shell; the model fixes it at 32, as RV32I has. */
  const RISCV_REGS: nat := 32

  /** A register index: one of the RISCV_REGS registers. */
  type Reg = bv5

  /** Program counter and the general-purpose registers. */
  datatype ArchState = ArchState(pc: bv32, regs: seq<bv32>)
  {
    predicate Valid() { |regs| == RISCV_REGS }

    function Reg(r: Reg): bv32
      requires Valid()
    {
      regs[r as int]
    }
  }

  /** Word memory: the word read at each byte address. */
  type Memory = bv32 -> bv32

  /** uint32_t addition: the sum modulo 2^32. */
  function Add32(a: bv32, b: bv32): bv32
  {
    a + b
  }

  /** mem_read_32: the word stored at addr. */
  function MemRead(mem: Memory, addr: bv32): bv32
  {
    mem(addr)
  }

  /** mem_write_32: after the write, addr reads back value and every other
      address reads as before. */
  function MemWrite(mem: Memory, addr: bv32, value: bv32): (m: Memory)
    ensures MemRead(m, addr) == value
    ensures forall a :: a != addr ==> MemRead(m, a) == MemRead(mem, a)
  {
    a => if a == addr then value else mem(a)
  }

  /** What one instruction word means to the simulator. */
  datatype Instr =
    | Halt                                  // the all-zero word
    | Add(rd: Reg, rs1: Reg, rs2: Reg)
    | Slt(rd: Reg, rs1: Reg, rs2: Reg)
    | Addi(rd: Reg, rs1: Reg, imm: bv32)
    | Slli(rd: Reg, rs1: Reg, imm: bv32)    // shift amount is imm & 0x1F
    | Sw(rs1: Reg, rs2: Reg, imm: bv32)
    | Bne(rs1: Reg, rs2: Reg, imm: bv32)
    | Auipc(rd: Reg, imm: bv32)
    | Jal(rd: Reg, imm: bv32)
    | Ignored                               // 0x33 or 0x13 with an unmatched funct3/funct7
    | Unsupported(opcode: bv32)

  /** The opcodes execute has a case for. */
  predicate Supported(opcode: bv32)
  {
    opcode == OP_REG || opcode == OP_IMM || opcode == OP_STORE
    || opcode == OP_BRANCH || opcode == OP_AUIPC || opcode == OP_JAL
  }

  /** What execute may rely on in the decoded fields: register fields
      below 32 and an immediate exactly for the opcodes that have one. */
  predicate WellFormed(d: Decoded)
  {
    d.rd < 32 && d.rs1 < 32 && d.rs2 < 32 && (d.imm.Some? <==> HasImmediate(d.opcode))
  }

  /** The opcode dispatch of execute on the decoded fields of a nonzero
      word. */
  function Dispatch(d: Decoded): (i: Instr)
    requires WellFormed(d)
    ensures !i.Halt?
    ensures i.Unsupported? <==> !Supported(d.opcode)
  {
    var rd, rs1, rs2 := d.rd as Reg, d.rs1 as Reg, d.rs2 as Reg;
    if d.opcode == OP_REG then
      if d.funct3 == 0 && d.funct7 == 0 then Add(rd, rs1, rs2)
      else if d.funct3 == 2 && d.funct7 == 0 then Slt(rd, rs1, rs2)
      else Ignored
    else if d.opcode == OP_IMM then
      if d.funct3 == 0 then Addi(rd, rs1, d.imm.value)
      else if d.funct3 == 1 then Slli(rd, rs1, d.imm.value)
      else Ignored
    else if d.opcode == OP_STORE then Sw(rs1, rs2, d.imm.value)
    else if d.opcode == OP_BRANCH then Bne(rs1, rs2, d.imm.value)
    else if d.opcode == OP_AUIPC then Auipc(rd, d.imm.value)
    else if d.opcode == OP_JAL then Jal(rd, d.imm.value)
    else Unsupported(d.opcode)
  }

  /** Unfolding step for the proofs in module Sim: Dispatch on opcode
      0x33. */
  lemma DispatchOp(d: Decoded)
    requires WellFormed(d) && d.opcode == OP_REG
    ensures Dispatch(d) ==
      if d.funct3 == 0 && d.funct7 == 0 then Add(d.rd as Reg, d.rs1 as Reg, d.rs2 as Reg)
      else if d.funct3 == 2 && d.funct7 == 0 then Slt(d.rd as Reg, d.rs1 as Reg, d.rs2 as Reg)
      else Ignored
  {
  }

  /** Unfolding step for the proofs in module Sim: Dispatch on opcode
      0x13. */
  lemma DispatchOpImm(d: Decoded)
    requires WellFormed(d) && d.opcode == OP_IMM
    ensures Dispatch(d) ==
      if d.funct3 == 0 then Addi(d.rd as Reg, d.rs1 as Reg, d.imm.value)
      else if d.funct3 == 1 then Slli(d.rd as Reg, d.rs1 as Reg, d.imm.value)
      else Ignored
  {
  }

  /** Unfolding step for the proofs in module Sim: Dispatch on 0x23. */
  lemma DispatchStore(d: Decoded)
    requires WellFormed(d) && d.opcode == OP_STORE
    ensures Dispatch(d) == Sw(d.rs1 as Reg, d.rs2 as Reg, d.imm.value)
  {
  }

  /** Unfolding step for the proofs in module Sim: Dispatch on 0x63. */
  lemma DispatchBranch(d: Decoded)
    requires WellFormed(d) && d.opcode == OP_BRANCH
    ensures Dispatch(d) == Bne(d.rs1 as Reg, d.rs2 as Reg, d.imm.value)
  {
  }

  /** Unfolding step for the proofs in module Sim: Dispatch on 0x17. */
  lemma DispatchAuipc(d: Decoded)
    requires WellFormed(d) && d.opcode == OP_AUIPC
    ensures Dispatch(d) == Auipc(d.rd as Reg, d.imm.value)
  {
  }

  /** Unfolding step for the proofs in module Sim: Dispatch on 0x6F. */
  lemma DispatchJal(d: Decoded)
    requires WellFormed(d) && d.opcode == OP_JAL
    ensures Dispatch(d) == Jal(d.rd as Reg, d.imm.value)
  {
  }

  /** Unfolding step for the proofs in module Sim: Dispatch on an opcode
      with no case. */
  lemma DispatchUnsupported(d: Decoded)
    requires WellFormed(d) && !Supported(d.opcode)
    ensures Dispatch(d) == Unsupported(d.opcode)
  {
  }

  /** What an instruction word means to execute: the all-zero word halts,
      any other word is dispatched on its decoded fields. Which word selects
      which instruction is stated on the raw word by the ClassifySelects
      lemmas below. */
  function Classify(instr: bv32): (i: Instr)
    ensures i.Halt? <==> instr == 0
    ensures i.Unsupported? <==> instr != 0 && !Supported(Decode(instr).opcode)
    // under 0x33 and 0x13 an unmatched funct3/funct7 is a silent no-op, not a halt
    ensures i.Ignored? <==>
      var d := Decode(instr);
      instr != 0 &&
      ((d.opcode == OP_REG && !(d.funct7 == 0 && (d.funct3 == 0 || d.funct3 == 2)))
       || (d.opcode == OP_IMM && d.funct3 != 0 && d.funct3 != 1))
    // every word with opcode 0x63 runs as BNE, whatever its funct3
    ensures instr != 0 && Decode(instr).opcode == OP_BRANCH ==> i.Bne?
    ensures i.Addi? || i.Slli? ==> i.imm == ImmI(instr)
    ensures i.Sw? ==> i.imm == ImmS(instr)
    ensures i.Bne? ==> i.imm == ImmB(instr)
    ensures i.Auipc? ==> i.imm == ImmU(instr)
    ensures i.Jal? ==> i.imm == ImmJ(instr)
    ensures i.Add? || i.Slt? || i.Addi? || i.Slli? || i.Auipc? || i.Jal? ==>
      i.rd as bv32 == Decode(instr).rd
    ensures i.Add? || i.Slt? || i.Addi? || i.Slli? || i.Sw? || i.Bne? ==>
      i.rs1 as bv32 == Decode(instr).rs1
    ensures i.Add? || i.Slt? || i.Sw? || i.Bne? ==> i.rs2 as bv32 == Decode(instr).rs2
  {
    if instr == 0 then Halt else Dispatch(Decode(instr))
  }

  /** Unfolding step for the proofs in module Sim: Classify in terms of
      the decoded fields execute works on. */
  lemma ClassifyDecoded(instr: bv32)
    ensures WellFormed(Decode(instr))
    ensures Classify(instr) == if instr == 0 then Halt else Dispatch(Decode(instr))
  {
  }

  /** The 0x33 instructions, selected on the raw word: ADD is opcode 0x33
      with funct3 0 and funct7 0, SLT the same with funct3 2. */
  lemma ClassifySelectsOp(instr: bv32)
    ensures Classify(instr).Add? <==> instr & 0xFE00_707F == 0x0000_0033
    ensures Classify(instr).Slt? <==> instr & 0xFE00_707F == 0x0000_2033
  {
  }

  /** The 0x13 instructions, selected on the raw word: ADDI is funct3 0 and
      SLLI funct3 1, whatever the upper immediate bits (funct7 is not
      checked for SLLI). */
  lemma ClassifySelectsOpImm(instr: bv32)
    ensures Classify(instr).Addi? <==> instr & 0x707F == 0x13
    ensures Classify(instr).Slli? <==> instr & 0x707F == 0x1013
  {
  }

  /** SW, BNE, AUIPC and JAL are selected by the opcode alone (funct3 is
      not checked for SW or BNE). */
  lemma ClassifySelectsByOpcode(instr: bv32)
    ensures Classify(instr).Sw? <==> instr & 0x7F == 0x23
    ensures Classify(instr).Bne? <==> instr & 0x7F == 0x63
    ensures Classify(instr).Auipc? <==> instr & 0x7F == 0x17
    ensures Classify(instr).Jal? <==> instr & 0x7F == 0x6F
  {
  }

  /** The word read as a 32-bit two's-complement integer (int32_t): within
      the int32_t range, and negative exactly when the sign bit is set. */
  function Signed(x: bv32): (n: int)
    ensures -0x8000_0000 <= n < 0x8000_0000
    ensures n == x as int || n == x as int - 0x1_0000_0000
    ensures n < 0 <==> x >> 31 == 1
  {
    if x < 0x8000_0000 then (x as bv31) as int else (x & 0x7FFF_FFFF) as int - 0x8000_0000
  }

  /** SLT: 1 when a is less than b as signed 32-bit integers, else 0. A
      negative word is below every non-negative one, no word is below
      itself, and of two words at most one is below the other. */
  function SetLessThan(a: bv32, b: bv32): (v: bv32)
    ensures v == 1 <==> Signed(a) < Signed(b)
    ensures v == 0 || v == 1
    ensures a >> 31 == 1 && b >> 31 == 0 ==> v == 1
    ensures a >> 31 == 0 && b >> 31 == 1 ==> v == 0
    ensures a == b ==> v == 0
  {
    if Signed(a) < Signed(b) then 1 else 0
  }

  /** SLT is a strict order: asymmetric and transitive on the signed
      reading, and it disagrees with the unsigned order exactly across the
      sign boundary (0xFFFFFFFF, which is -1, is below 0). */
  lemma SetLessThanOrder(a: bv32, b: bv32, c: bv32)
    ensures SetLessThan(a, b) == 1 ==> SetLessThan(b, a) == 0
    ensures SetLessThan(a, b) == 1 && SetLessThan(b, c) == 1 ==> SetLessThan(a, c) == 1
    ensures SetLessThan(0xFFFF_FFFF, 0) == 1 && SetLessThan(0, 0xFFFF_FFFF) == 0
    ensures SetLessThan(0x7FFF_FFFF, 0x8000_0000) == 0
  {
  }

  /** SLLI: a shifted left by the low five bits of the immediate. */
  function ShiftLeft(a: bv32, imm: bv32): bv32
  {
    a << (imm & 0x1F)
  }

  /** A word store execute hands to mem_write_32. */
  datatype Store = Store(addr: bv32, value: bv32)

  /** What execute produces: the next state, the store it issues (SW only)
      and the run bit. */
  datatype Outcome = Outcome(state: ArchState, store: Option<Store>, run: bool)

  /** The register instruction i writes, if any. */
  function Dest(i: Instr): Option<Reg>
  {
    match i
    case Add(rd, _, _) => Some(rd)
    case Slt(rd, _, _) => Some(rd)
    case Addi(rd, _, _) => Some(rd)
    case Slli(rd, _, _) => Some(rd)
    case Auipc(rd, _) => Some(rd)
    case Jal(rd, _) => Some(rd)
    case _ => None
  }

  /** True when instruction i writes register k. */
  predicate Writes(i: Instr, k: int)
  {
    Dest(i).Some? && Dest(i).value as int == k
  }

  /** The value instruction i writes to its destination, computed from the
      current state (all arithmetic is modulo 2^32). */
  function Result(s: ArchState, i: Instr): (v: bv32)
    requires s.Valid() && Dest(i).Some?
  {
    match i
    case Add(_, rs1, rs2) => Add32(s.Reg(rs1), s.Reg(rs2))
    case Slt(_, rs1, rs2) => SetLessThan(s.Reg(rs1), s.Reg(rs2))
    case Addi(_, rs1, imm) => Add32(s.Reg(rs1), imm)
    case Slli(_, rs1, imm) => ShiftLeft(s.Reg(rs1), imm)
    case Auipc(_, imm) => Add32(s.pc, imm)
    case Jal(_, _) => Add32(s.pc, 4)
  }

  /** The next PC: the fetch default PC + 4, overridden by a taken BNE and
      by JAL. */
  function NextPc(s: ArchState, i: Instr): bv32
    requires s.Valid()
  {
    match i
    case Bne(rs1, rs2, imm) => if s.Reg(rs1) != s.Reg(rs2) then Add32(s.pc, imm) else Add32(s.pc, 4)
    case Jal(_, imm) => Add32(s.pc, imm)
    case _ => Add32(s.pc, 4)
  }

  /** The word SW stores: REGS[rs2] at REGS[rs1] + imm. */
  function StoreOf(s: ArchState, i: Instr): Option<Store>
    requires s.Valid()
  {
    match i
    case Sw(rs1, rs2, imm) => Some(Store(Add32(s.Reg(rs1), imm), s.Reg(rs2)))
    case _ => None
  }

  /** The register file after i writes its destination, before x0 is
      forced to zero. */
  function Written(s: ArchState, i: Instr): (regs: seq<bv32>)
    requires s.Valid()
    ensures |regs| == RISCV_REGS
    ensures forall k | 0 <= k < RISCV_REGS && !Writes(i, k) :: regs[k] == s.regs[k]
    ensures Dest(i).Some? ==> regs[Dest(i).value as int] == Result(s, i)
  {
    match Dest(i)
    case Some(rd) => s.regs[rd as int := Result(s, i)]
    case None => s.regs
  }

  /** Unfolding steps for the proofs in module Sim: what Written, StoreOf
      and NextPc give for each instruction, with its registers read
      directly from the register sequence. */
  lemma AddEffect(s: ArchState, rd: Reg, rs1: Reg, rs2: Reg)
    requires s.Valid()
    ensures var i := Add(rd, rs1, rs2);
      Written(s, i) == s.regs[rd as int := Add32(s.regs[rs1 as int], s.regs[rs2 as int])]
      && StoreOf(s, i) == None && NextPc(s, i) == Add32(s.pc, 4)
  {
  }

  lemma SltEffect(s: ArchState, rd: Reg, rs1: Reg, rs2: Reg)
    requires s.Valid()
    ensures var i := Slt(rd, rs1, rs2);
      Written(s, i) == s.regs[rd as int := SetLessThan(s.regs[rs1 as int], s.regs[rs2 as int])]
      && StoreOf(s, i) == None && NextPc(s, i) == Add32(s.pc, 4)
  {
  }

  lemma AddiEffect(s: ArchState, rd: Reg, rs1: Reg, imm: bv32)
    requires s.Valid()
    ensures var i := Addi(rd, rs1, imm);
      Written(s, i) == s.regs[rd as int := Add32(s.regs[rs1 as int], imm)]
      && StoreOf(s, i) == None && NextPc(s, i) == Add32(s.pc, 4)
  {
  }

  lemma SlliEffect(s: ArchState, rd: Reg, rs1: Reg, imm: bv32)
    requires s.Valid()
    ensures var i := Slli(rd, rs1, imm);
      Written(s, i) == s.regs[rd as int := ShiftLeft(s.regs[rs1 as int], imm)]
      && StoreOf(s, i) == None && NextPc(s, i) == Add32(s.pc, 4)
  {
  }

  lemma AuipcEffect(s: ArchState, rd: Reg, imm: bv32)
    requires s.Valid()
    ensures var i := Auipc(rd, imm);
      Written(s, i) == s.regs[rd as int := Add32(s.pc, imm)]
      && StoreOf(s, i) == None && NextPc(s, i) == Add32(s.pc, 4)
  {
  }

  lemma IgnoredEffect(s: ArchState)
    requires s.Valid()
    ensures Written(s, Ignored) == s.regs && StoreOf(s, Ignored) == None
    ensures NextPc(s, Ignored) == Add32(s.pc, 4)
  {
  }

  lemma SwEffect(s: ArchState, rs1: Reg, rs2: Reg, imm: bv32)
    requires s.Valid()
    ensures var i := Sw(rs1, rs2, imm);
      Written(s, i) == s.regs && NextPc(s, i) == Add32(s.pc, 4)
      && StoreOf(s, i) == Some(Store(Add32(s.regs[rs1 as int], imm), s.regs[rs2 as int]))
  {
  }

  lemma UnsupportedEffect(s: ArchState, opcode: bv32)
    requires s.Valid()
    ensures var i := Unsupported(opcode);
      Written(s, i) == s.regs && StoreOf(s, i) == None && NextPc(s, i) == Add32(s.pc, 4)
  {
  }

  lemma BneEffect(s: ArchState, rs1: Reg, rs2: Reg, imm: bv32)
    requires s.Valid()
    ensures var i := Bne(rs1, rs2, imm);
      Written(s, i) == s.regs && StoreOf(s, i) == None
      && NextPc(s, i) == if s.regs[rs1 as int] != s.regs[rs2 as int]
                         then Add32(s.pc, imm) else Add32(s.pc, 4)
  {
  }

  lemma JalEffect(s: ArchState, rd: Reg, imm: bv32)
    requires s.Valid()
    ensures var i := Jal(rd, imm);
      Written(s, i) == s.regs[rd as int := Add32(s.pc, 4)] && StoreOf(s, i) == None
      && NextPc(s, i) == Add32(s.pc, imm)
  {
  }

  /** execute: the registers are copied from the current state; the all-zero
      word then halts at once; any other instruction writes its destination,
      sets the PC and issues its store, and x0 is forced to zero last. */
  function Exec(s: ArchState, i: Instr, run: bool): (r: Outcome)
    requires s.Valid()
    ensures r.state.Valid()
    // frame: only the destination register (and x0) can change
    ensures forall k | 0 < k < RISCV_REGS && !Writes(i, k) :: r.state.regs[k] == s.regs[k]
    ensures match Dest(i)
      case Some(rd) => rd != 0 ==> r.state.Reg(rd) == Result(s, i)
      case None => true
    // x0: zero after every instruction but the halting zero word, which
    // writes nothing
    ensures i.Halt? ==> r.state.regs == s.regs
    ensures !i.Halt? ==> r.state.Reg(0) == 0
    // the PC: PC + 4 unless a taken BNE or a JAL
    ensures r.state.pc ==
      if i.Jal? || (i.Bne? && s.Reg(i.rs1) != s.Reg(i.rs2)) then Add32(s.pc, i.imm) else Add32(s.pc, 4)
    // the run bit is cleared exactly on a halt or an unsupported opcode
    ensures r.run == (run && !i.Halt? && !i.Unsupported?)
    // only SW writes memory: REGS[rs2] at REGS[rs1] + imm
    ensures r.store.Some? <==> i.Sw?
    ensures i.Sw? ==> r.store == Some(Store(Add32(s.Reg(i.rs1), i.imm), s.Reg(i.rs2)))
  {
    if i.Halt? then Outcome(ArchState(Add32(s.pc, 4), s.regs), None, false)
    else
      Outcome(ArchState(NextPc(s, i), Written(s, i)[0 := 0]), StoreOf(s, i), run && !i.Unsupported?)
  }

  /** Unfolding step for the proofs in module Sim: Exec on the halting
      word. */
  lemma ExecHalt(s: ArchState, run: bool)
    requires s.Valid()
    ensures Exec(s, Halt, run) == Outcome(ArchState(Add32(s.pc, 4), s.regs), None, false)
  {
  }

  /** Unfolding step for the proofs in module Sim: Exec on any other
      instruction. */
  lemma ExecOther(s: ArchState, i: Instr, run: bool)
    requires s.Valid() && !i.Halt?
    ensures Exec(s, i, run) ==
      Outcome(ArchState(NextPc(s, i), Written(s, i)[0 := 0]), StoreOf(s, i), run && !i.Unsupported?)
  {
  }

  /** The simulator as the driver sees it: the committed state, memory
      and the run bit. */
  datatype Machine = Machine(state: ArchState, mem: Memory, run: bool)

  /** The memory after execute's store, if it issued one. */
  function Apply(mem: Memory, store: Option<Store>): (m: Memory)
    ensures store.None? ==> m == mem
    ensures store.Some? ==> MemRead(m, store.value.addr) == store.value.value
    ensures forall a :: store.None? || a != store.value.addr ==> MemRead(m, a) == MemRead(mem, a)
  {
    match store
    case None => mem
    case Some(st) => MemWrite(mem, st.addr, st.value)
  }

  /** process_instruction: fetch the word at the PC, decode it, execute it;
      the result is the next state, committed. */
  function Step(m: Machine): (r: Machine)
    requires m.state.Valid()
    ensures r.state.Valid()
    ensures m.state.Reg(0) == 0 ==> r.state.Reg(0) == 0
  {
    var o := Exec(m.state, Classify(MemRead(m.mem, m.state.pc)), m.run);
    Machine(o.state, Apply(m.mem, o.store), o.run)
  }

  /** A step clears the run bit exactly when the machine was already
      stopped, the word at the PC is zero, or its opcode has no case; only
      a store word changes memory. */
  lemma StepStops(m: Machine)
    requires m.state.Valid()
    ensures var instr := MemRead(m.mem, m.state.pc);
      (!Step(m).run <==> !m.run || instr == 0 || !Supported(Decode(instr).opcode))
      && (Decode(instr).opcode != OP_STORE ==> Step(m).mem == m.mem)
  {
  }

  /** Stand-in for the shell's run loop, which is not part of this model:
      up to n steps, stopping once the run bit is clear. The induction only
      carries Step's register-count and x0 facts through the steps; the
      clauses about a stopped machine follow from the first branch. */
  function Run(m: Machine, n: nat): (r: Machine)
    requires m.state.Valid()
    ensures r.state.Valid()
    // x0 is zero in every committed state
    ensures m.state.Reg(0) == 0 ==> r.state.Reg(0) == 0
    // once halted, nothing moves
    ensures !m.run ==> r == m
    ensures r.run ==> m.run
    decreases n
  {
    if n == 0 || !m.run then m
    else Run(Step(m), n - 1)
  }
}
