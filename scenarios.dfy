/** One-step scenarios of process_instruction on concrete instruction words,
    stated against the value-level step of module Semantics. Each word is
    the standard RV32I encoding of the instruction named. */
module Scenarios {
  import opened Decoder
  import opened Semantics

  /** A running machine whose committed state has x0 = 0 and whose word at
      the PC is instr. */
  predicate Loaded(m: Machine, instr: bv32)
  {
    m.state.Valid() && m.run && m.state.Reg(0) == 0 && MemRead(m.mem, m.state.pc) == instr
  }

  /** ADDI x5, x0, 10 at PC 0: x5 becomes 10, the PC becomes 4, the
      machine keeps running and nothing else changes. */
  lemma AddiX5Ten(m: Machine)
    requires Loaded(m, 0x00A0_0293) && m.state.pc == 0
    ensures Step(m).state.Reg(5) == 10 && Step(m).state.pc == 4 && Step(m).run
    ensures forall k | 0 <= k < 32 && k != 5 :: Step(m).state.regs[k] == m.state.regs[k]
    ensures Step(m).mem == m.mem
  {
  }

  /** SW x1, 0(x2) with x2 = 0x1000 and x1 = 0x2A: the word at 0x1000
      becomes 0x2A, every other word is kept, and no register changes. */
  lemma SwX1AtX2(m: Machine)
    requires Loaded(m, 0x0011_2023) && m.state.Reg(2) == 0x1000 && m.state.Reg(1) == 0x2A
    ensures MemRead(Step(m).mem, 0x1000) == 0x2A
    ensures forall a | a != 0x1000 :: MemRead(Step(m).mem, a) == MemRead(m.mem, a)
    ensures Step(m).state.regs == m.state.regs && Step(m).run
  {
  }

  /** BNE x1, x2, 8 with x1 != x2: the PC moves by 8, not by 4. */
  lemma BneTaken(m: Machine)
    requires Loaded(m, 0x0020_9463) && m.state.Reg(1) != m.state.Reg(2)
    ensures Step(m).state.pc == Add32(m.state.pc, 8)
    ensures Step(m).state.regs == m.state.regs && Step(m).mem == m.mem && Step(m).run
  {
  }

  /** BNE x1, x2, 8 with x1 == x2: the PC falls through to PC + 4. */
  lemma BneNotTaken(m: Machine)
    requires Loaded(m, 0x0020_9463) && m.state.Reg(1) == m.state.Reg(2)
    ensures Step(m).state.pc == Add32(m.state.pc, 4)
  {
  }

  /** The all-zero word clears the run bit and writes no register; the PC
      still advances by 4 and memory is kept. */
  lemma ZeroWordHalts(m: Machine)
    requires m.state.Valid() && MemRead(m.mem, m.state.pc) == 0
    ensures !Step(m).run && Step(m).state.regs == m.state.regs
    ensures Step(m).state.pc == Add32(m.state.pc, 4) && Step(m).mem == m.mem
  {
  }

  /** A word with opcode 0x7F clears the run bit and, with x0 = 0, leaves
      every register as it was. */
  lemma Opcode7FHalts(m: Machine, instr: bv32)
    requires Loaded(m, instr) && instr & 0x7F == 0x7F
    ensures !Step(m).run && Step(m).state.regs == m.state.regs && Step(m).mem == m.mem
  {
  }

  /** The canonical NOP, addi x0, x0, 0 (0x00000013), does not halt: only
      the all-zero word does. */
  lemma NopKeepsRunning(m: Machine)
    requires Loaded(m, 0x0000_0013)
    ensures Step(m).run && Step(m).state.regs == m.state.regs
    ensures Step(m).state.pc == Add32(m.state.pc, 4)
  {
  }
}
