/** The simulator step as the source performs it: two CPU states, current and
    next, a run bit, the fetched instruction word and the decoded fields, all
    updated in place by fetch, decode and execute. Each stage is proved
    against the value-level definitions of module Semantics. */
module Sim {
  import opened Decoder
  import opened Semantics

  /** One CPU state: a program counter and a register file. */
  class CpuState {
    var pc: bv32
    const regs: array<bv32>

    constructor (pc: bv32, regs: seq<bv32>)
      requires |regs| == RISCV_REGS
      ensures this.pc == pc && this.regs[..] == regs && fresh(this.regs)
    {
      this.pc := pc;
      this.regs := new bv32[RISCV_REGS](k => if 0 <= k < |regs| then regs[k] else 0);
    }

    /** The architectural state this object holds. */
    ghost function View(): ArchState
      reads this, regs
    {
      ArchState(pc, regs[..])
    }
  }

  class Simulator {
    const current: CpuState
    const next: CpuState
    var runBit: bool
    var mem: Memory
    var instruction: bv32
    var decoded: Decoded

    /** Both register files have 32 entries, and current and next share
        nothing, so writing next never disturbs current. */
    ghost predicate Valid()
    {
      current.regs.Length == RISCV_REGS && next.regs.Length == RISCV_REGS
      && current != next && current.regs != next.regs
    }

    constructor (pc: bv32, regs: seq<bv32>, mem: Memory)
      requires |regs| == RISCV_REGS
      ensures Valid() && fresh(current) && fresh(current.regs) && fresh(next) && fresh(next.regs)
      ensures current.View() == ArchState(pc, regs) && next.View() == ArchState(pc, regs)
      ensures runBit && this.mem == mem
    {
      current := new CpuState(pc, regs);
      next := new CpuState(pc, regs);
      runBit := true;
      this.mem := mem;
      instruction := 0;
      decoded := Decoder.Decode(0);
    }

    /** fetch: read the word at the current PC; the next PC defaults to
        PC + 4 (modulo 2^32). */
    method Fetch()
      requires Valid()
      modifies this`instruction, next`pc
      ensures instruction == MemRead(mem, current.pc)
      ensures next.pc == Add32(current.pc, 4)
    {
      instruction := MemRead(mem, current.pc);
      next.pc := Add32(current.pc, 4);
    }

    /** decode: split the fetched word into its fields. */
    method Decode()
      modifies this`decoded
      ensures decoded == Decoder.Decode(instruction)
    {
      decoded := Decoder.Decode(instruction);
    }

    /** The effect of execute's opcode dispatch for instruction i, taken
        from state s with run bit run0 and memory mem0: the destination
        written, the next PC chosen, the store applied and the run bit
        updated (x0 is not yet forced to zero). */
    ghost predicate Performed(i: Instr, s: ArchState, run0: bool, mem0: Memory)
      requires s.Valid()
      reads this, next, next.regs
    {
      next.regs[..] == Written(s, i) && next.pc == NextPc(s, i)
      && mem == Apply(mem0, StoreOf(s, i)) && runBit == (run0 && !i.Unsupported?)
    }

    /** What every opcode case relies on: well-formed decoded fields d,
        and next still a copy of current with PC + 4. */
    ghost predicate ReadyToDispatch(d: Decoded)
      reads this, current, current.regs, next, next.regs
    {
      Valid() && WellFormed(d)
      && next.regs[..] == current.regs[..] && next.pc == Add32(current.pc, 4)
    }

    /** Opcode 0x33: ADD (funct3 0, funct7 0), SLT (funct3 2, funct7 0);
        any other funct3/funct7 does nothing. */
    method ExecuteOp(d: Decoded)
      requires ReadyToDispatch(d) && d.opcode == OP_REG
      modifies next.regs
      ensures Performed(Dispatch(d), current.View(), old(runBit), old(mem))
    {
      DispatchOp(d);
      ghost var s := current.View();
      var cur := current.regs;
      var rd, rs1, rs2 := (d.rd as Reg) as int, (d.rs1 as Reg) as int, (d.rs2 as Reg) as int;
      if d.funct3 == 0 && d.funct7 == 0 {
        AddEffect(s, d.rd as Reg, d.rs1 as Reg, d.rs2 as Reg);
        next.regs[rd] := Add32(cur[rs1], cur[rs2]);
      } else if d.funct3 == 2 && d.funct7 == 0 {
        SltEffect(s, d.rd as Reg, d.rs1 as Reg, d.rs2 as Reg);
        next.regs[rd] := SetLessThan(cur[rs1], cur[rs2]);
      } else {
        IgnoredEffect(s);
      }
    }

    /** Opcode 0x13: ADDI (funct3 0), SLLI (funct3 1, shift amount the low
        five immediate bits); any other funct3 does nothing. */
    method ExecuteOpImm(d: Decoded)
      requires ReadyToDispatch(d) && d.opcode == OP_IMM
      modifies next.regs
      ensures Performed(Dispatch(d), current.View(), old(runBit), old(mem))
    {
      DispatchOpImm(d);
      ghost var s := current.View();
      var cur := current.regs;
      var rd, rs1 := (d.rd as Reg) as int, (d.rs1 as Reg) as int;
      if d.funct3 == 0 {
        AddiEffect(s, d.rd as Reg, d.rs1 as Reg, d.imm.value);
        next.regs[rd] := Add32(cur[rs1], d.imm.value);
      } else if d.funct3 == 1 {
        SlliEffect(s, d.rd as Reg, d.rs1 as Reg, d.imm.value);
        next.regs[rd] := ShiftLeft(cur[rs1], d.imm.value);
      } else {
        IgnoredEffect(s);
      }
    }

    /** Opcode 0x23: SW, the word REGS[rs2] at REGS[rs1] + imm. */
    method ExecuteStore(d: Decoded)
      requires ReadyToDispatch(d) && d.opcode == OP_STORE
      modifies this`mem
      ensures Performed(Dispatch(d), current.View(), old(runBit), old(mem))
    {
      DispatchStore(d);
      SwEffect(current.View(), d.rs1 as Reg, d.rs2 as Reg, d.imm.value);
      var cur := current.regs;
      mem := MemWrite(mem, Add32(cur[(d.rs1 as Reg) as int], d.imm.value), cur[(d.rs2 as Reg) as int]);
    }

    /** Opcode 0x63: BNE; the PC moves by imm when the registers differ. */
    method ExecuteBranch(d: Decoded)
      requires ReadyToDispatch(d) && d.opcode == OP_BRANCH
      modifies next`pc
      ensures Performed(Dispatch(d), current.View(), old(runBit), old(mem))
    {
      DispatchBranch(d);
      BneEffect(current.View(), d.rs1 as Reg, d.rs2 as Reg, d.imm.value);
      var cur := current.regs;
      if cur[(d.rs1 as Reg) as int] != cur[(d.rs2 as Reg) as int] {
        next.pc := Add32(current.pc, d.imm.value);
      }
    }

    /** Opcode 0x17: AUIPC, rd gets PC + imm. */
    method ExecuteAuipc(d: Decoded)
      requires ReadyToDispatch(d) && d.opcode == OP_AUIPC
      modifies next.regs
      ensures Performed(Dispatch(d), current.View(), old(runBit), old(mem))
    {
      DispatchAuipc(d);
      AuipcEffect(current.View(), d.rd as Reg, d.imm.value);
      next.regs[(d.rd as Reg) as int] := Add32(current.pc, d.imm.value);
    }

    /** Opcode 0x6F: JAL, rd gets the return address PC + 4 and the PC
        moves by imm. */
    method ExecuteJal(d: Decoded)
      requires ReadyToDispatch(d) && d.opcode == OP_JAL
      modifies next`pc, next.regs
      ensures Performed(Dispatch(d), current.View(), old(runBit), old(mem))
    {
      DispatchJal(d);
      JalEffect(current.View(), d.rd as Reg, d.imm.value);
      next.regs[(d.rd as Reg) as int] := Add32(current.pc, 4);
      next.pc := Add32(current.pc, d.imm.value);
    }

    /** The copy loop at the head of execute: next's registers become
        current's, one index at a time. */
    method CopyRegisters()
      requires Valid()
      modifies next.regs
      ensures next.regs[..] == current.regs[..]
    {
      var k := 0;
      while k < RISCV_REGS
        invariant 0 <= k <= RISCV_REGS
        invariant forall j :: 0 <= j < k ==> next.regs[j] == current.regs[j]
      {
        next.regs[k] := current.regs[k];
        k := k + 1;
      }
    }

    /** The opcode dispatch of execute for a nonzero word: one case per
        supported opcode; any other opcode clears the run bit. */
    method ExecuteOpcode(d: Decoded)
      requires ReadyToDispatch(d)
      modifies next, next.regs, this`runBit, this`mem
      ensures Performed(Dispatch(d), current.View(), old(runBit), old(mem))
    {
      if d.opcode == OP_REG {
        ExecuteOp(d);
      } else if d.opcode == OP_IMM {
        ExecuteOpImm(d);
      } else if d.opcode == OP_STORE {
        ExecuteStore(d);
      } else if d.opcode == OP_BRANCH {
        ExecuteBranch(d);
      } else if d.opcode == OP_AUIPC {
        ExecuteAuipc(d);
      } else if d.opcode == OP_JAL {
        ExecuteJal(d);
      } else {
        DispatchUnsupported(d);
        UnsupportedEffect(current.View(), d.opcode);
        runBit := false;
      }
    }

    /** execute: copy the registers from current to next, halt on the zero
        word, dispatch on the opcode, and force x0 to zero. */
    method Execute()
      requires Valid() && WellFormed(decoded) && next.pc == Add32(current.pc, 4)
      modifies next, next.regs, this`runBit, this`mem
      ensures var i := if instruction == 0 then Halt else Dispatch(decoded);
        var o := Exec(current.View(), i, old(runBit));
        next.View() == o.state && runBit == o.run && mem == Apply(old(mem), o.store)
    {
      CopyRegisters();
      ghost var s := current.View();
      if instruction == 0 {
        runBit := false;
        ExecHalt(s, old(runBit));
        return;
      }
      ExecuteOpcode(decoded);
      next.regs[0] := 0;
      ExecOther(s, Dispatch(decoded), old(runBit));
    }

    /** process_instruction: fetch, decode and execute one instruction. The
        outcome is the step of the reference semantics, and current is left
        as it was. */
    method ProcessInstruction()
      requires Valid()
      modifies this, next, next.regs
      ensures Valid()
      ensures var m := Step(Machine(old(current.View()), old(mem), old(runBit)));
        next.View() == m.state && mem == m.mem && runBit == m.run
      ensures current.View() == old(current.View())
    {
      Fetch();
      Decode();
      ClassifyDecoded(instruction);
      Execute();
    }
  }
}
