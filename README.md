# LS-8 CPU in Dafny

A model of the LS-8 virtual CPU of `ls8/cpu.py`. The CPU has eight registers, with register 7 as the stack pointer (SP), starting at `0xF4`. It also has 256 memory cells, a program counter (PC) and a flags register (FL). Its run loop fetches the byte at PC and dispatches on thirteen opcodes: HLT, LDI, PRN, ADD, MUL, CMP, PUSH, POP, CALL, RET, JMP, JEQ and JNE. It stops on HLT or on any byte outside that table.

The project has three modules:

- `Ls8Spec` (`ls8_spec.dfy`) describes the CPU as values. It has:
  - the state as a `State` datatype;
  - the opcode table (`Opcode`, `Decode`, `Operands`);
  - the ALU (`Alu`, `Compare`);
  - one pass of the run loop (`Exec`), which returns the next state and a `Signal`: `Continue` with what PRN printed, `Halt`, `Unimplemented(opcode, pc)` or `Fault`. A run's `Status` reports an unknown opcode under the same name, `Unimplemented(opcode, pc)`;
  - a run bounded by fuel (`RunFor`).
- `Cpu` (`cpu.dfy`) holds the class `CPU` the source defines. Its registers and memory are arrays updated in place, and `pc` and `fl` are fields. Every method is proved against `Ls8Spec` through `View()`. `Step` is the body of the run loop. It is split into one method per instruction group. `Run(fuel)` is the loop.
- `Ls8Properties` (`ls8_properties.dfy`) holds the lemmas:
  - the opcode table is a bijection;
  - the ALU's effects and frames;
  - how PC moves;
  - FL stays in {0, 1, 2, 4} from construction onward, so JEQ and JNE's exact test `FL == 1` agrees with the Equal bit;
  - the PUSH/POP and CALL/RET round trips;
  - how a run stops;
  - how fuel composes.

The LS-8 architecture intends 8-bit registers that wrap modulo 256, and JEQ/JNE that read the Equal bit alone. Where that intent and the code disagree, the model follows the code:

- ADD and MUL do not reduce modulo 256 (`ls8/cpu.py:57`, `ls8/cpu.py:60`), so registers and memory cells are unbounded `int`s. `AddDoesNotWrap` shows 200 + 100 = 300.
- JEQ and JNE test `FL == 1` exactly (`ls8/cpu.py:153`, `ls8/cpu.py:159`), not the Equal bit alone. `ConditionalJumps` proves that the two agree in every state with valid flags, and `FlagsValidFromConstruction` proves that every reachable state has valid flags.
- The architecture gives registers 8-bit values. The code never bounds them.

FL is a `bv8`. The source only ever assigns it `0` or `(FL & 0b11111000) | bit`, so every value it can hold fits in 8 bits.

Out-of-range indices get one consistent policy. The source indexes Python lists with PC, PC+1, PC+2, SP, SP-1 and register operands. An index from -len to -1 (len is 256 for memory, 8 for registers) silently reads or writes from the end of the list: PUSH with SP = 0 stores to `memory[255]`. Any other index outside the list raises `IndexError`. In a step, all of these are modelled as the `Fault` signal, detected before anything changes, which stops the run with status `Faulted`. The accessors `CPU.RamRead` and `CPU.RamWrite` and the ALU (`Ls8Spec.Alu`, `CPU.Alu`) instead take in-range indices as a precondition; the run loop only calls them after checking the indices.

CALL stores the return address before it reads its operand byte (`ls8/cpu.py:137-139`). If SP-1 equals PC+1, the operand read is therefore the return address. Both `StepCall` and `CPU.Call` model this.

## Model

| member | source | states |
|---|---|---|
| `Ls8Spec.Init` | ls8/cpu.py:23-31 | a fresh CPU: registers 0 except SP = 0xF4, 256 zeroed cells, PC = 0, FL = 0 |
| `Cpu.CPU.constructor` | ls8/cpu.py:23-31 | the constructed object's state is `Init()`, in fresh, distinct arrays |
| `Ls8Spec.Decode` | ls8/cpu.py:5-17 | a decoded byte is the opcode of the instruction returned; a byte outside the table matches no instruction |
| `Ls8Properties.DecodeOpcode` | ls8/cpu.py:5-17 | decoding inverts the opcode table, so the thirteen opcodes are distinct |
| `Ls8Properties.OperandsInOpcode` | ls8/cpu.py:5-17 | every opcode is a byte whose top two bits give the instruction's operand count |
| `Ls8Spec.Compare` | ls8/cpu.py:61-68 | CMP's new FL keeps the high five bits and has exactly one low bit: Equal iff equal, Greater iff a > b, Less iff a < b |
| `Ls8Spec.Alu` | ls8/cpu.py:53-70 | succeeds exactly for the tags ADD, MUL and CMP (otherwise the source raises); never changes memory or PC |
| `Cpu.CPU.Alu` | ls8/cpu.py:53-70 | updates registers/FL in place to the value `Ls8Spec.Alu` gives; for an unsupported tag it reports failure and the state is unchanged |
| `Ls8Properties.AluArithmetic` | ls8/cpu.py:56-60 | ADD/MUL set register a to the unreduced sum/product; every other register (b included), memory, PC and FL unchanged |
| `Ls8Properties.AluCompare` | ls8/cpu.py:61-68 | CMP changes no register, memory or PC; sets the bit matching the comparison and keeps FL's high five bits |
| `Cpu.CPU.RamRead` | ls8/cpu.py:92-93 | returns the memory cell at the address |
| `Cpu.CPU.RamWrite` | ls8/cpu.py:95-96 | replaces exactly that memory cell; registers, PC and FL unchanged |
| `Ls8Spec.Exec` | ls8/cpu.py:102-167 | one loop pass: any stop (HLT, unknown opcode, fault) leaves the state unchanged; a continuing step fetched a decodable opcode; only PRN prints. This row also covers the per-instruction helpers `StepLdi`, `StepPrn`, `StepAlu`, `StepPush`, `StepPop`, `StepCall`, `StepRet` and `StepJump` (ls8/cpu.py:108-162), whose effects the lemmas below state |
| `Cpu.CPU.Step` | ls8/cpu.py:102-167 | one in-place loop pass yields exactly the next state and signal of `Exec` |
| `Cpu.CPU.LoadImmediate` | ls8/cpu.py:108-110 | the in-place LDI matches `StepLdi` |
| `Cpu.CPU.Print` | ls8/cpu.py:112-114 | the in-place PRN matches `StepPrn` |
| `Cpu.CPU.Arithmetic` | ls8/cpu.py:116-122 | the in-place MUL/ADD/CMP dispatch through the ALU matches `StepAlu` |
| `Cpu.CPU.Push` | ls8/cpu.py:124-127 | the in-place PUSH (decrement SP, then store) matches `StepPush` |
| `Cpu.CPU.Pop` | ls8/cpu.py:129-132 | the in-place POP (load, then increment SP) matches `StepPop` |
| `Cpu.CPU.Call` | ls8/cpu.py:134-139 | the in-place CALL (store PC+2 below SP, then jump) matches `StepCall` |
| `Cpu.CPU.Return` | ls8/cpu.py:141-143 | the in-place RET (PC from the stack top, then increment SP) matches `StepRet` |
| `Cpu.CPU.Jump` | ls8/cpu.py:149-150 | the in-place jump to the register operand matches `StepJump` |
| `Ls8Spec.RunFor` | ls8/cpu.py:98-167 | the fuel-bounded run loop always ends in a well-formed state |
| `Cpu.CPU.Run` | ls8/cpu.py:98-167 | the in-place loop's final state, printed numbers and stop reason are those of `RunFor` |
| `Ls8Properties.SequentialAdvance` | ls8/cpu.py:108-147 | LDI, PRN, MUL, ADD, CMP, PUSH and POP move PC by 1 + their operand count (+3 or +2) |
| `Ls8Properties.Branches` | ls8/cpu.py:149-162 | JMP sets PC to the operand register; JEQ/JNE go there or to PC+2; no register, memory or FL change |
| `Ls8Properties.PrintOnly` | ls8/cpu.py:112-114 | a step that prints is a PRN: it prints the operand register and only advances PC by 2 |
| `Ls8Properties.PrintEffect` | ls8/cpu.py:112-114 | a well-formed PRN prints exactly `registers[memory[PC+1]]` and changes nothing but PC, which advances by 2 |
| `Ls8Properties.LdiEffect` | ls8/cpu.py:108-110 | LDI writes the immediate to the operand register only and advances PC by 3 |
| `Ls8Properties.Stops` | ls8/cpu.py:103-167 | HLT or a byte outside the opcode table ends the run at once with nothing changed or printed; the latter reports its opcode and PC |
| `Ls8Properties.ExactTestIsEqualBit` | ls8/cpu.py:152-162 | on a valid FL, `FL == 1` holds iff the Equal bit is set |
| `Ls8Properties.ExecKeepsFlagsValid` | ls8/cpu.py:61-68 | one step keeps FL in {0, 1, 2, 4} |
| `Ls8Properties.RunKeepsFlagsValid` | ls8/cpu.py:98-167 | a run of any length keeps FL in {0, 1, 2, 4} |
| `Ls8Properties.FlagsValidFromConstruction` | ls8/cpu.py:23-31 | from a fresh CPU with any program loaded, every reachable state has FL in {0, 1, 2, 4} |
| `Ls8Properties.ConditionalJumps` | ls8/cpu.py:152-162 | with valid flags, JEQ jumps iff the Equal bit is set and JNE iff it is clear; otherwise PC advances by 2 |
| `Ls8Properties.PushThenPop` | ls8/cpu.py:124-132 | for every register r, SP included: PUSH r writes only memory[SP-1] (with the decremented SP when r is SP); PUSH r then POP r restores every register including SP, and FL |
| `Ls8Properties.CallThenRet` | ls8/cpu.py:134-143 | for every register r, SP included, whose target holds a RET once the return address is stored: CALL then RET resumes at the CALL's PC + 2 with SP and all registers restored |
| `Ls8Properties.MoreFuel` | ls8/cpu.py:100-102 | a run that stopped on its own ends the same with more fuel |
| `Ls8Properties.RunSplits` | ls8/cpu.py:100-102 | running a + b steps is running a steps, then b more from there, with the outputs concatenated |
| `Ls8Properties.LoadPrintHalt` | ls8/cpu.py:108-114 | LDI R0,v; PRN R0; HLT on a fresh CPU prints exactly v and halts |
| `Ls8Properties.AddDoesNotWrap` | ls8/cpu.py:56-60 | 200 + 100 leaves 300 and 200 * 100 leaves 20000: no reduction modulo 256 |

## Left out

- `load` (ls8/cpu.py:33-51) is not modelled. It reads a file named on the command line, exits the process when the file is missing, and parses with Python's `int(s, 2)`. The lemmas take the loaded memory as a parameter instead.
- `trace` (ls8/cpu.py:72-90) is debug printing only, and it refers to attributes that do not exist.
- Printing is not modelled. PRN's number is returned in `Continue` and collected in the run's output. The "Unimplemented Command" message is the `Unimplemented(opcode, pc)` status.
- Python's negative-index wrap and `IndexError` are not modelled. In a step, both become the `Fault` signal; the accessors and the ALU require in-range indices instead; see above.
- `Ls8Spec.Exec`: on a fault, the model keeps the state from before the step. The source may already have changed part of it before raising, for example PUSH's decremented SP.
- `Ls8Spec.RunFor`: bounded by fuel, because the source's loop need not terminate. `Cpu.CPU.Run` is bounded the same way.
- `Ls8Properties.PushThenPop`: requires the pushed cell not to be the POP instruction or its operand. When it is, the POP that runs need not be POP r, so the source need not restore the register.
- `Ls8Properties.CallThenRet`: requires the stored return address not to overwrite the CALL's operand byte, and the target to hold a RET after the store (for CALL SP that means PC + 2 is the RET byte 0x11). Outside those cases the source need not return to PC + 2.
- The ALU's exception for an unsupported tag is a failure result (`None`, `false`) rather than an exception. The run loop never passes such a tag.
