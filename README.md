# RV32I instruction-step simulator, modelled in Dafny

`sim.c` is the per-instruction core of a small RISC-V (RV32I subset)
simulator. A shell, which is not part of this model, keeps two CPU states:
`CURRENT_STATE` (the committed architectural state) and `NEXT_STATE` (the state
being built). It also keeps a word memory reached through `mem_read_32` and
`mem_write_32`, and a `RUN_BIT`. For every instruction the shell calls
`process_instruction`, which runs three stages:

- **fetch** reads the word at the current PC and sets the next PC to PC + 4.
- **decode** splits the word into opcode, rd, funct3, rs1, rs2 and funct7. It
  also computes the immediate of the I, S, B, U or J format the opcode selects.
- **execute** copies the current registers into the next state. The all-zero
  word then clears `RUN_BIT` and returns. Any other word is dispatched on its
  opcode:
  - ADD and SLT (0x33), ADDI and SLLI (0x13).
  - SW (0x23), BNE (0x63), AUIPC (0x17) and JAL (0x6F).
  - Any other opcode clears `RUN_BIT`.

  Finally, execute forces x0 to zero.

The project has four modules:

- `Decoder` (`decoder.dfy`) is the pure decode stage over `bv32`. Each
  immediate is proved bit for bit against the immediate layout of the RISC-V
  Unprivileged ISA manual (section 2.3, Figure 2.4). Decode is proved to
  tile the word with its six fields.
- `Semantics` (`semantics.dfy`) is the value-level meaning of one step:
  - `Classify` turns a word into an `Instr`.
  - `Exec` takes an `Instr` to the next state, the store it issues and the
    run bit.
  - `Step` is `process_instruction` followed by the commit.
  - `Run` stands in for the shell's run loop, which the source does not
    show: repeated steps, assumed to stop once the run bit is clear.
- `Sim` (`sim.dfy`) is the imperative simulator. A `Simulator` object owns two
  `CpuState` objects, each with an array of registers. Its fields are the run
  bit, memory, the fetched word and the decoded fields. `Fetch`, `Decode`,
  `Execute` and `ProcessInstruction` update these fields in place:
  - `Execute` keeps the source's copy loop and its per-opcode cases.
  - `ProcessInstruction` is proved to leave `next`, memory and the run bit
    exactly as `Semantics.Step` says.
  - It is also proved to leave `current` untouched.
- `Scenarios` (`scenarios.dfy`) holds one-step examples on concrete
  instruction words.

Behaviour of the code that the model keeps:

- Only the all-zero word halts. The comment at `sim.c:89` also names
  `addi x0, x0, 0`, but the test is `instruction == 0`. The model follows the
  code, and `Scenarios.NopKeepsRunning` proves that 0x00000013 keeps running.
- Every word with opcode 0x63 runs as BNE, whatever its funct3. Every word
  with opcode 0x23 stores a full word, whatever its funct3.
- Under 0x33 and 0x13, a funct3/funct7 combination with no case does nothing
  and does not halt.
- ADD, ADDI, AUIPC, JAL's return address and every PC update wrap modulo
  2^32. SLT compares as `int32_t`. SLLI shifts by `imm & 0x1F`.

## Model

| member | source | states |
|---|---|---|
| `Decoder.ImmI` | sim.c:42-47 | bit i of the I immediate is instruction bit 20+i below bit 11 and instruction bit 31 from bit 11 up (the 12-bit field sign-extended) |
| `Decoder.ImmS` | sim.c:49-54 | bits 4..0 come from instruction bits 11..7, bits 10..5 from bits 30..25, and every higher bit repeats bit 31 |
| `Decoder.ImmB` | sim.c:56-64 | bit 0 is zero, bits 4..1 come from 11..8, bits 10..5 from 30..25, bit 11 from bit 7, and bits 12 and up repeat bit 31 |
| `Decoder.ImmU` | sim.c:66-68 | the low 12 bits are zero and every higher bit is the instruction's own bit |
| `Decoder.ImmJ` | sim.c:70-78 | bit 0 is zero, bits 10..1 come from 30..21, bit 11 from bit 20, bits 19..12 in place, and bits 20 and up repeat bit 31 |
| `Decoder.Decode` | sim.c:21-80 | every field is within its width, and the six fields put back in place give the word. An immediate is present exactly for 0x13, 0x23, 0x63, 0x17 and 0x6F, and it is the I, S, B, U or J immediate respectively |
| `Decoder.EncodedSlices` | sim.c:23-38 | any six fields within their widths that tile a word are its bit slices (opcode 6..0, rd 11..7, funct3 14..12, rs1 19..15, rs2 24..20, funct7 31..25); with `Decode`'s range and reassembly clauses this fixes every decoded field |
| `Decoder.DecodeEncode` | sim.c:23-38 | fields within their widths survive encoding then decoding (the inverse direction of decode's reassembly clause) |
| `Decoder.ImmIShape` | sim.c:42-47 | the I immediate keeps the 12-bit field in its low bits and lies in -2048..2047 |
| `Decoder.ImmSShape` | sim.c:49-54 | the S immediate is bits 31..25 over bits 11..7 and lies in -2048..2047 |
| `Decoder.ImmBShape` | sim.c:56-64 | the B immediate is even and lies in -4096..4094 |
| `Decoder.ImmUShape` | sim.c:66-68 | the U immediate is the word with its low 12 bits cleared |
| `Decoder.ImmJShape` | sim.c:70-78 | the J immediate is even and lies in -1 MiB..1 MiB-2 |
| `Decoder.ImmIExtremes` | sim.c:43-46 | raw I field 0x800 gives 0xFFFFF800 (-2048) and 0x7FF gives 2047 |
| `Decoder.ImmBMinimum` | sim.c:57-63 | a branch word with bit 31 as its only immediate bit has offset -4096 |
| `Semantics.MemWrite` | sim.c:113 | after the write, the address reads back the value and every other address reads as before |
| `Semantics.Dispatch` | sim.c:95-135 | dispatch on the decoded fields never halts, and it yields Unsupported exactly for opcodes outside the six |
| `Semantics.Classify` | sim.c:89-135 | Halt iff the word is 0. Unsupported iff the word is nonzero with an opcode outside the six. Ignored iff a 0x33/0x13 combination has no case. Opcode 0x63 is always BNE. Each variant carries its format's immediate and the decoded rd/rs1/rs2 |
| `Semantics.ClassifySelectsOp` | sim.c:96-101 | on the raw word: ADD iff `instr & 0xFE00707F == 0x33`, SLT iff `instr & 0xFE00707F == 0x2033` |
| `Semantics.ClassifySelectsOpImm` | sim.c:104-109 | on the raw word: ADDI iff `instr & 0x707F == 0x13`, SLLI iff `instr & 0x707F == 0x1013` (funct7 not checked) |
| `Semantics.ClassifySelectsByOpcode` | sim.c:112-129 | on the raw word: SW, BNE, AUIPC and JAL iff the low 7 bits are 0x23, 0x63, 0x17 and 0x6F (funct3 not checked for SW or BNE) |
| `Semantics.Signed` | sim.c:100 | the `int32_t` reading of a word is the one value in -2^31..2^31-1 equal to the word modulo 2^32 (x or x - 2^32), and it is negative exactly when bit 31 is set |
| `Semantics.SetLessThan` | sim.c:99-100 | the result is 0 or 1, and 1 exactly when a < b as signed 32-bit integers. A word with bit 31 set is below every word with bit 31 clear, and no word is below itself |
| `Semantics.SetLessThanOrder` | sim.c:99-100 | SLT is asymmetric and transitive. 0xFFFFFFFF (-1) is below 0 and 0x7FFFFFFF is not below 0x80000000, unlike the unsigned order |
| `Semantics.Written` | sim.c:95-129 | only the destination register changes, and it receives the instruction's result |
| `Semantics.Exec` | sim.c:82-139 | only rd and x0 can change, and rd (if not x0) gets the result. The zero word leaves every register as it was; any other instruction leaves x0 = 0. The PC is PC + 4 unless a taken BNE or a JAL. The run bit clears exactly on the zero word or an unsupported opcode. Only SW stores, with REGS[rs2] at REGS[rs1] + imm |
| `Semantics.Apply` | sim.c:113 | without a store memory is unchanged; with one, the address reads the stored word and every other address is kept |
| `Semantics.Step` | sim.c:141-148 | one fetch-decode-execute keeps 32 registers and keeps x0 at zero when it was zero |
| `Semantics.StepStops` | sim.c:90-134 | the run bit clears exactly when it was already clear, the word at the PC is 0, or its opcode has no case; a non-store word leaves memory unchanged |
| `Semantics.Run` | sim.c:90-93 | assumed driver, not in sim.c: stepping stops once RUN_BIT (cleared at these lines and at 131-134) is clear. Repeated steps keep 32 registers and x0 = 0; a stopped machine never moves, and a machine that ends running was running at the start |
| `Scenarios.AddiX5Ten` | sim.c:104-106 | ADDI x5, x0, 10 at PC 0 gives x5 = 10 and PC 4, keeps running, and changes no other register and no memory |
| `Scenarios.SwX1AtX2` | sim.c:112-113 | SW x1, 0(x2) with x2 = 0x1000 and x1 = 0x2A writes 0x2A at 0x1000 and changes nothing else |
| `Scenarios.BneTaken` | sim.c:116-119 | BNE x1, x2, 8 with x1 != x2 goes to PC + 8 |
| `Scenarios.BneNotTaken` | sim.c:116-119 | BNE x1, x2, 8 with x1 == x2 goes to PC + 4 |
| `Scenarios.ZeroWordHalts` | sim.c:89-93 | the zero word clears the run bit and leaves registers and memory as they were |
| `Scenarios.Opcode7FHalts` | sim.c:131-134 | a word with opcode 0x7F clears the run bit and changes no register and no memory |
| `Scenarios.NopKeepsRunning` | sim.c:89-93 | addi x0, x0, 0 does not halt: only the zero word does |
| `Sim.Simulator.Fetch` | sim.c:13-19 | the fetched word is memory at the current PC, and the next PC is PC + 4 (mod 2^32) |
| `Sim.Simulator.Decode` | sim.c:21-80 | the decoded fields are those of the fetched word |
| `Sim.Simulator.CopyRegisters` | sim.c:85-87 | after the loop, next's registers equal current's |
| `Sim.Simulator.ExecuteOp` | sim.c:96-102 | the 0x33 case leaves next and memory as Dispatch's instruction prescribes |
| `Sim.Simulator.ExecuteOpImm` | sim.c:104-110 | the 0x13 case leaves next as Dispatch's instruction prescribes |
| `Sim.Simulator.ExecuteStore` | sim.c:112-114 | the 0x23 case writes the SW store into memory |
| `Sim.Simulator.ExecuteBranch` | sim.c:116-120 | the 0x63 case sets next's PC as BNE prescribes |
| `Sim.Simulator.ExecuteAuipc` | sim.c:122-124 | the 0x17 case writes PC + imm to rd |
| `Sim.Simulator.ExecuteJal` | sim.c:126-129 | the 0x6F case writes the return address and sets next's PC |
| `Sim.Simulator.ExecuteOpcode` | sim.c:95-135 | the switch leaves next, memory and the run bit as the dispatched instruction prescribes |
| `Sim.Simulator.Execute` | sim.c:82-139 | next, the run bit and memory end exactly as `Exec` says for the classified word |
| `Sim.Simulator.ProcessInstruction` | sim.c:141-148 | fetch, decode and execute leave next, memory and the run bit as `Step` says, and current unchanged |

## Left out

- `OperatingSystemsBuyerConsumerProblem.c`: this threaded producer/consumer demo is not part of this model.
- `shell.h` and the shell are not part of this model. This covers the `mem_read_32`/`mem_write_32` bodies, the commit of `NEXT_STATE` into `CURRENT_STATE`, and the run loop. `Semantics.Run` is an assumed stand-in for that loop, one that stops once the run bit is clear. Memory is a total function from address to word. `Step` and `Run` return the next state as the committed one.
- `RISCV_REGS` is fixed at 32. The source takes its value from `shell.h`.
- Byte layout, endianness, alignment and address bounds are not modelled. A store to one address changes only the word read at that address, so overlapping unaligned words are not modelled.
- The `printf` diagnostic for an unsupported opcode at `sim.c:132` is output only and is not modelled.
- For opcodes without an immediate case, decode leaves the previous value in the global `imm`. Execute never reads it on those paths. The model gives those opcodes no immediate (`Option.None`) instead of stale state.
- Decode's separate field globals become one `Decoded` value. Execute in `Sim` receives the decoded fields as that value.
- `Semantics.Dispatch`: its own contract says only that dispatch never halts and yields Unsupported exactly off the six opcodes. Which instruction each opcode/funct3/funct7 selects is stated on the raw word by `Semantics.ClassifySelectsOp`, `Semantics.ClassifySelectsOpImm` and `Semantics.ClassifySelectsByOpcode`.
- `Semantics.ShiftLeft`: SLLI's result is stated only as the shift itself, `a << (imm & 0x1F)`. No bit-level property is proved about it.
