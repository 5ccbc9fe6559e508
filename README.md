# LS-8 CPU in Dafny

A model of the LS-8 emulator's `CPU` class (`ls8/cpu.py`), with proofs. The LS-8 is an
8-bit educational machine with the following state:

- 256 memory cells;
- eight registers, where register 7 is the stack pointer (SP);
- a program counter `pc`, an instruction register `ir` and a flags register `fl`.

The emulator loads a program into memory. `run` then fetches one opcode at a time and
decodes three bit fields from it:

- bits 7-6 are the operand count;
- bit 5 sends the instruction to the ALU;
- bit 4 says the instruction sets `pc` itself.

Then `run` either calls the ALU (ADD, MUL, CMP) or calls the handler that the constructor's
dispatch table holds for the opcode: LDI, PRN, PUSH, POP, CALL, RET, JMP, JEQ or JNE. It
stops after fetching HLT.

The project has these layers:

- `wrappers.dfy`: `Option` and `Result`.
- `bits.dfy`: Python's `x >> k` and `x >> k & 1` on non-negative integers, proved equal to
  division by 2^k and its remainder.
- `isa.dfy`:
  - the thirteen opcode constants;
  - the dispatch table, written as a lookup over the nine registered handlers;
  - the bit-field decode.
- `machine.dfy`: the CPU as a value, `State(ram, reg, pc, ir, fl, out)`. Each handler, the
  ALU, one pass of the loop (`Step`) and the bounded loop (`Loop`, `Run`) are functions from
  state to state. An access that would raise in Python is a `Fault`.
- `cpu.dfy`: the `CPU` class. Memory and registers are arrays updated in place. Every method
  is proved to have exactly the effect of its `machine.dfy` counterpart on the abstract state
  `State()`. `Load` and `Run` are loops with invariants.
- `properties.dfy`: lemmas that span several instructions:
  - the default `pc` advance;
  - where `run` stops;
  - the PUSH/POP and CALL/RET round trips;
  - CMP followed by JEQ/JNE;
  - LDI followed by PRN;
  - extra fuel does not change a finished run;
  - one-pass lemmas for individual opcodes.
- `scenarios.dfy`: two whole programs, followed pass by pass from a freshly loaded CPU.

Values are unbounded naturals. The emulator never masks a register or memory value, so
ADD and MUL are not reduced to 8 bits here either. What PRN prints is modelled as the
sequence `out`: one value per printed line.

## Model

| member | source | states |
|---|---|---|
| Bits.ShiftRight | ls8/cpu.py:166-168 | `x >> k`, computed as k halvings that each round down, equals `x / 2^k` |
| Bits.Bit | ls8/cpu.py:167-168 | `x >> k & 1` is the remainder of `x / 2^k` modulo 2, so it is 0 or 1 |
| Isa.DecodeIsShiftAndMask | ls8/cpu.py:166-168 | the operand count is `ir >> 6`; the ALU flag is `ir >> 5 & 1`; the sets-PC flag is `ir >> 4 & 1` |
| Isa.Dispatch | ls8/cpu.py:31-39 | a found handler is the one registered under that opcode; every registered opcode has bit 5 clear and is not HLT; its bits 7-6 equal the operand bytes the handler reads; bit 4 is set exactly when the handler moves `pc` |
| Isa.DispatchFindsEveryHandler | ls8/cpu.py:31-39 | each of the nine handlers is found again under its own opcode |
| Isa.DispatchMissesOnlyUnregistered | ls8/cpu.py:173 | the lookup fails (Python's KeyError) exactly when no handler is registered under the opcode |
| Isa.NonTableOpcodes | ls8/cpu.py:6-18 | ADD, MUL and CMP decode as two-operand ALU instructions with bit 4 clear; HLT decodes as operand-less, non-ALU, bit 4 clear; none of the four is in the table |
| Machine.Init | ls8/cpu.py:26-30 | a new CPU has zeroed memory (256 cells) and registers (8), `pc` 0, `ir` HLT, `fl` 0 and nothing printed |
| Machine.Overlay | ls8/cpu.py:50-52 | after copying, cell `a` holds `program[a]` below the program's length and its old value elsewhere; the length is unchanged |
| Machine.Boot | ls8/cpu.py:41-52 | a fresh CPU after `load`: the program at addresses 0.., zeros after it, and everything else as the constructor left it |
| Machine.LoadImmediate | ls8/cpu.py:98-101 | LDI writes the immediate byte into the operand register; every other register and all other state are unchanged |
| Machine.PrintRegister | ls8/cpu.py:103-106 | PRN appends exactly the operand register's value to the output; nothing else changes |
| Machine.PushRegister | ls8/cpu.py:108-113 | PUSH lowers SP by one and stores the operand register, read after the decrement, at the new SP; no other memory cell and no other register changes |
| Machine.PopRegister | ls8/cpu.py:115-120 | POP loads the cell at SP into the operand register, then raises SP by one; so POP into SP leaves the popped value plus one; memory and other registers are unchanged |
| Machine.Jump | ls8/cpu.py:137-140 | JMP sets `pc` to the operand register's value; nothing else changes |
| Machine.SaveReturn | ls8/cpu.py:122-126 | the first half of CALL lowers SP and stores `pc + 2` at the new SP, and changes nothing else |
| Machine.CallSubroutine | ls8/cpu.py:122-129 | CALL lowers SP, saves `pc + 2` at the new SP, leaves all other cells alone, and jumps to the register named at `pc + 1` as read after the save |
| Machine.Return | ls8/cpu.py:131-135 | RET loads `pc` from the cell at SP and raises SP by one; nothing else changes |
| Machine.JumpIfEqual | ls8/cpu.py:142-146 | JEQ jumps to the operand register's value when `fl & 1` is set, otherwise `pc := pc + 2`; flags, registers, memory and output are unchanged |
| Machine.JumpIfNotEqual | ls8/cpu.py:148-152 | JNE is the complement: it jumps when `fl & 1` is clear, otherwise `pc := pc + 2`; nothing else changes |
| Machine.Execute | ls8/cpu.py:173 | calling a table entry never changes `ir`; handlers that do not move `pc` leave it alone; only PRN prints |
| Machine.Alu | ls8/cpu.py:60-76 | fails exactly for an op other than ADD/MUL/CMP (UnsupportedAluOp) or a register index of 8 or more; ADD sets `reg[a] := reg[a] + reg[b]` and MUL sets `reg[a] := reg[a] * reg[b]` (other registers and `fl` unchanged); CMP leaves the registers alone and sets `fl` to exactly one of 0b100, 0b010, 0b001, each iff `<`, `>`, `==` |
| Machine.Perform | ls8/cpu.py:170-173 | the work of one opcode keeps the state well formed and never touches `ir`; for HLT it does nothing |
| Machine.Step | ls8/cpu.py:163-176 | a pass that succeeds fetched its opcode at a `pc` inside memory into `ir`; on HLT, `pc` moves one past it and nothing else changes |
| Machine.Start | ls8/cpu.py:156-159 | `run` first sets SP to 0xF4 and fetches `ram[pc]` into `ir`, changing nothing else; it fails only when `pc` is outside memory |
| Machine.Loop | ls8/cpu.py:161-176 | a halted loop has HLT in `ir`; a loop that runs out of fuel does not |
| Machine.Continue | ls8/cpu.py:161-176 | a failed pass stops the loop with that fault and the state before the pass |
| Machine.Run | ls8/cpu.py:154-176 | a halted run ends with HLT in `ir`; when `pc` starts outside memory, the run faults at once with OutOfRange, having set only SP to 0xF4 (the write that precedes the failing fetch) |
| Cpu.CPU.constructor | ls8/cpu.py:23-30 | the new object's state is `Init()` over freshly allocated arrays |
| Cpu.CPU.Load | ls8/cpu.py:41-52 | memory becomes `Overlay(old memory, program)`; a program longer than 256 cells faults at address 256 after filling memory |
| Cpu.CPU.RamRead | ls8/cpu.py:54-55 | returns the cell at the address |
| Cpu.CPU.RamWrite | ls8/cpu.py:57-58 | memory becomes the old memory with only that address set to the value |
| Cpu.CPU.Alu | ls8/cpu.py:60-76 | the in-place ALU has exactly the effect of `Machine.Alu`, and changes nothing when it faults |
| Cpu.CPU.Ldi | ls8/cpu.py:98-101 | the new state is `LoadImmediate` of the old |
| Cpu.CPU.Prn | ls8/cpu.py:103-106 | the new state is `PrintRegister` of the old |
| Cpu.CPU.Push | ls8/cpu.py:108-113 | the new state is `PushRegister` of the old |
| Cpu.CPU.Pop | ls8/cpu.py:115-120 | the new state is `PopRegister` of the old |
| Cpu.CPU.Call | ls8/cpu.py:122-129 | the new state is `CallSubroutine` of the old |
| Cpu.CPU.Ret | ls8/cpu.py:131-135 | the new state is `Return` of the old |
| Cpu.CPU.Jmp | ls8/cpu.py:137-140 | the new state is `Jump` of the old |
| Cpu.CPU.Jeq | ls8/cpu.py:142-146 | the new state is `JumpIfEqual` of the old |
| Cpu.CPU.Jne | ls8/cpu.py:148-152 | the new state is `JumpIfNotEqual` of the old |
| Cpu.CPU.Execute | ls8/cpu.py:173 | calling the table entry has exactly the effect of `Machine.Execute` |
| Cpu.CPU.Perform | ls8/cpu.py:170-173 | the opcode's work in place equals `Machine.Perform`; on a fault nothing changes |
| Cpu.CPU.Step | ls8/cpu.py:163-176 | one pass of the loop body in place equals `Machine.Step`; on a fault nothing changes |
| Cpu.CPU.Run | ls8/cpu.py:154-176 | the loop in place returns the status, and leaves the state, that `Machine.Run` computes from the starting state |
| Properties.StepAdvancesPc | ls8/cpu.py:175-176 | after a pass whose opcode has bit 4 clear, `pc` has moved by exactly `(ir >> 6) + 1` |
| Properties.StepDispatches | ls8/cpu.py:172-176 | a pass on a table opcode whose accesses are in range runs its handler, sets `ir`, and steps over the handler's operands unless the handler moves `pc` |
| Properties.StepComputes | ls8/cpu.py:170-176 | a pass on ADD, MUL or CMP with valid registers runs the ALU and moves `pc` by 3 |
| Properties.StepFaultsOnUnknownOpcode | ls8/cpu.py:172-173 | a pass fails with UnknownOpcode exactly when the opcode is non-ALU, not HLT and not in the table |
| Properties.StepFaultsOnUnsupportedAluOp | ls8/cpu.py:75-76 | a pass fails with UnsupportedAluOp exactly when bit 5 is set and the opcode is not ADD, MUL or CMP |
| Properties.HaltAtStart | ls8/cpu.py:156-161 | HLT at `pc` when `run` starts: the loop body never runs; only SP (0xF4) and `ir` change |
| Properties.BootHaltsAtOnce | ls8/cpu.py:156-161 | a loaded program that starts with HLT halts with `pc` still 0, nothing printed, and only SP changed |
| Properties.StartAfterBoot | ls8/cpu.py:156-157 | right after `load`, `run` starts at address 0 with the program's first opcode in `ir` and the program in memory |
| Properties.LoopStopsPastHlt | ls8/cpu.py:161-176 | a loop that enters its body and halts stops with `pc` one past an HLT opcode in memory |
| Properties.RunStopsPastHlt | ls8/cpu.py:154-176 | a run whose first opcode is not HLT and that halts ends with `pc` one past an HLT |
| Properties.LoopOnce | ls8/cpu.py:161-176 | one iteration: a successful pass continues the loop from its result with one unit less fuel; a failed pass ends it with that fault |
| Properties.LoopFuelMonotone | ls8/cpu.py:161-176 | more fuel does not change a run that halted or faulted |
| Properties.PushPopRoundTrip | ls8/cpu.py:108-120 | PUSH r then POP s (s not SP): `reg[s]` gets what was pushed, SP returns to its old value, `pc` moves by 4, and only `reg[s]` and the cell at old SP - 1 change |
| Properties.CallRetRoundTrip | ls8/cpu.py:122-140 | CALL saves `pc + 2` at SP - 1 and jumps to the target register; a later RET at that SP resumes at `pc + 2` with SP restored |
| Properties.FlagValues | ls8/cpu.py:68-74 | of the three values CMP writes, only "equal" has bit 0 set |
| Properties.CompareThenBranch | ls8/cpu.py:142-152 | CMP a, b then JEQ t jumps to `reg[t]` iff `reg[a] == reg[b]` (JNE iff unequal), otherwise continues after the branch; registers, memory and output are unchanged |
| Properties.LoadThenPrint | ls8/cpu.py:98-106 | LDI r, v then PRN r prints exactly v |
| Properties.StepLoadsImmediate | ls8/cpu.py:98-101 | a pass on LDI r, v sets `reg[r] := v`, sets `ir` and moves `pc` by 3, and changes nothing else |
| Properties.PassLoadImmediate | ls8/cpu.py:98-101 | one loop iteration over LDI continues from the state with `reg[r] := v` and `pc + 3` |
| Properties.PassMultiply | ls8/cpu.py:66-67 | one loop iteration over MUL continues from the state with `reg[a] := reg[a] * reg[b]` and `pc + 3` |
| Properties.PassCompare | ls8/cpu.py:68-74 | one loop iteration over CMP continues with the less/greater/equal flag and `pc + 3` |
| Properties.PassPrint | ls8/cpu.py:103-106 | one loop iteration over PRN continues with the register's value printed and `pc + 2` |
| Properties.PassJumpIfEqual | ls8/cpu.py:142-144 | one loop iteration over JEQ with the equal flag set continues at the operand register's value |
| Properties.PassHalt | ls8/cpu.py:161-176 | the iteration that fetches HLT ends the loop as Halted, with `pc` one past the HLT |
| Scenarios.MultiplyProgramFinishes | ls8/cpu.py:66-67 | MUL R0,R1; PRN R0; HLT leaves the product in R0, prints it once and halts at address 12 |
| Scenarios.MultiplyProgram | ls8/cpu.py:154-176 | LDI R0,8; LDI R1,9; MUL R0,R1; PRN R0; HLT, loaded into a new CPU, halts after five passes, prints only 72, and ends with `pc` 12 |
| Scenarios.BranchProgramBranches | ls8/cpu.py:142-146 | CMP of two equal registers, then JEQ, skips the PRN it jumps over and prints only the value at the target |
| Scenarios.BranchProgram | ls8/cpu.py:154-176 | a program that compares 5 with 5 and then JEQs over `PRN R3` halts after nine passes, prints only 2, and ends with `pc` 25 |

## Left out

- `ls8/fileio.py` is not part of this model. It reads `sys.argv`, opens the file and parses binary strings. `load` here takes the program as a parameter instead of reading `fileio.command_list`.
- `CPU.trace` is not modelled. It is debugging output only.
- `print` in PRN is not real I/O. It appends the value to `out`.
- No 8-bit wraparound or saturation. The code never masks values, so ADD and MUL results are unbounded naturals. A wraparound policy would be invented behaviour.
- Cpu.CPU.Run: the loop is bounded by `fuel` and returns OutOfFuel when fuel is exhausted. Python's `while` loop can run forever.
- Machine.Step: a pass whose opcode would raise in Python is a `Fault` that leaves the whole state unchanged. Python may already have changed things when it raises:
  - `ir` has already been refetched;
  - in PUSH, SP has already been decremented;
  - in CALL, SP has already been decremented and `pc + 2` has already been written to the cell at the new SP, before the jump raises on `pc + 1` outside memory or on a register index of 8 or more.

  The model does not record that partial state.
- Machine.PushRegister: Python runs PUSH and CALL with SP at 0. It then decrements SP to -1 and writes to `ram[-1]`, the last cell. The model treats that stack underflow as a fault.
- Machine.PopRegister: Python runs POP and RET with SP at 256 or more. They raise IndexError, and the model treats this as a fault as well.
- A jump target, or any other `pc` value, outside memory is not rejected when it is set. The next fetch faults with OutOfRange, which is where Python raises IndexError.
- Machine.Execute: the dispatch table is a dictionary of bound methods in Python. Here it is the fixed lookup `Isa.Dispatch` followed by a `match` on the handler.
- Properties.PushPopRoundTrip: it holds only if these conditions hold:
  - POP's target is not SP;
  - the pushed cell does not overwrite the POP instruction's own two bytes.

  Outside those conditions the code does something else, and the lemma does not claim anything there.
- Properties.HaltAtStart: HLT as the first instruction still sets SP to 0xF4, because the code does so before the loop. The model therefore states "only SP and `ir` change", not "no state changes".
