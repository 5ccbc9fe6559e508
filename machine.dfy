/**
 * The LS-8 CPU of `ls8/cpu.py` as a value: its state, each instruction as a state
 * transition, one cycle of the run loop and the run loop itself.  Register and memory
 * cells hold unbounded naturals, as Python ints do there (nothing is masked to 8 bits).
 */
module Machine {
  import opened Wrappers
  import opened Bits
  import opened Isa

  const MEMORY_SIZE: nat := 256
  const REGISTERS: nat := 8
  /** Register 7 is the stack pointer. */
  const SP: nat := 7
  /** The stack pointer `run` starts from. */
  const STACK_START: nat := 0xF4
  /** The flag values CMP writes: exactly one of less, greater, equal. */
  const FL_LESS: nat := 0x04
  const FL_GREATER: nat := 0x02
  const FL_EQUAL: nat := 0x01

  /**
   * Why a run stops early: an opcode with neither the ALU bit nor a table entry (the
   * dispatch-table KeyError), an ALU opcode other than ADD, MUL and CMP, or an access
   * outside memory or the register file by the instruction at `at` (for loading, the
   * first address past memory).
   */
  datatype Fault = UnknownOpcode(op: nat) | UnsupportedAluOp(op: nat) | OutOfRange(at: nat)

  datatype State = State(ram: seq<nat>, reg: seq<nat>, pc: nat, ir: nat, fl: nat, out: seq<nat>)

  predicate Valid(s: State) {
    |s.ram| == MEMORY_SIZE && |s.reg| == REGISTERS
  }

  /** The state a freshly constructed CPU holds. */
  function Init(): (s: State)
    ensures Valid(s) && s.pc == 0 && s.ir == HLT && s.fl == 0 && s.out == []
    ensures forall a | 0 <= a < MEMORY_SIZE :: s.ram[a] == 0
    ensures forall i | 0 <= i < REGISTERS :: s.reg[i] == 0
  {
    State(seq(MEMORY_SIZE, _ => 0), seq(REGISTERS, _ => 0), 0, HLT, 0, [])
  }

  /** Memory after `load` copies `program` to the addresses from 0 on. */
  function Overlay(mem: seq<nat>, program: seq<nat>): (r: seq<nat>)
    ensures |r| == |mem|
    ensures forall a | 0 <= a < |mem| :: r[a] == if a < |program| then program[a] else mem[a]
  {
    if |program| >= |mem| then program[..|mem|] else program + mem[|program|..]
  }

  /** A fresh CPU with `program` loaded. */
  function Boot(program: seq<nat>): (s: State)
    requires |program| <= MEMORY_SIZE
    ensures Valid(s) && s.(ram := Init().ram) == Init()
    ensures forall a | 0 <= a < MEMORY_SIZE :: s.ram[a] == if a < |program| then program[a] else 0
  {
    Init().(ram := Overlay(Init().ram, program))
  }

  /** The `k`-th byte after the opcode, as `ram_read(pc + k)` fetches it. */
  function Operand(s: State, k: nat): nat
    requires Valid(s) && s.pc + k < MEMORY_SIZE
  {
    s.ram[s.pc + k]
  }

  /** `fl & 0b00000001`: the equal flag. */
  predicate EqualFlag(fl: nat) {
    Bit(fl, 0) == 1
  }

  // ---------------------------------------------------------------------------------
  // The dispatch-table handlers.  Each `...Ready` predicate says that the handler's
  // accesses stay inside memory and the register file (elsewhere Python raises
  // IndexError, or wraps a negative stack address); `Step` checks it before the call.
  // ---------------------------------------------------------------------------------

  predicate LdiReady(s: State) requires Valid(s) {
    s.pc + 2 < MEMORY_SIZE && Operand(s, 1) < REGISTERS
  }

  /** LDI: the immediate byte goes into the operand register; nothing else changes. */
  function LoadImmediate(s: State): (r: State)
    requires Valid(s) && LdiReady(s)
    ensures Valid(r) && r.(reg := s.reg) == s
    ensures r.reg[Operand(s, 1)] == Operand(s, 2)
    ensures forall i | 0 <= i < REGISTERS && i != Operand(s, 1) :: r.reg[i] == s.reg[i]
  {
    s.(reg := s.reg[Operand(s, 1) := Operand(s, 2)])
  }

  predicate PrnReady(s: State) requires Valid(s) {
    s.pc + 1 < MEMORY_SIZE && Operand(s, 1) < REGISTERS
  }

  /** PRN: the operand register's value is emitted; nothing else changes. */
  function PrintRegister(s: State): (r: State)
    requires Valid(s) && PrnReady(s)
    ensures Valid(r) && r.(out := s.out) == s
    ensures |r.out| == |s.out| + 1 && r.out[..|s.out|] == s.out
    ensures r.out[|s.out|] == s.reg[Operand(s, 1)]
  {
    s.(out := s.out + [s.reg[Operand(s, 1)]])
  }

  /** The stack can take one more entry: SP - 1 is an address. */
  predicate CanDecrementSp(s: State) requires Valid(s) {
    1 <= s.reg[SP] <= MEMORY_SIZE
  }

  predicate PushReady(s: State) requires Valid(s) {
    CanDecrementSp(s) && s.pc + 1 < MEMORY_SIZE && Operand(s, 1) < REGISTERS
  }

  /**
   * PUSH: SP drops by one and the operand register, read after the decrement, is stored
   * at the new SP.  Only that one memory cell and SP change.
   */
  function PushRegister(s: State): (r: State)
    requires Valid(s) && PushReady(s)
    ensures Valid(r) && r.(reg := s.reg, ram := s.ram) == s
    ensures r.reg == s.reg[SP := s.reg[SP] - 1]
    ensures r.ram[s.reg[SP] - 1] == if Operand(s, 1) == SP then s.reg[SP] - 1 else s.reg[Operand(s, 1)]
    ensures forall a | 0 <= a < MEMORY_SIZE && a != s.reg[SP] - 1 :: r.ram[a] == s.ram[a]
  {
    var reg := s.reg[SP := s.reg[SP] - 1];
    s.(reg := reg, ram := s.ram[reg[SP] := reg[Operand(s, 1)]])
  }

  predicate PopReady(s: State) requires Valid(s) {
    s.reg[SP] < MEMORY_SIZE && s.pc + 1 < MEMORY_SIZE && Operand(s, 1) < REGISTERS
  }

  /**
   * POP: the cell at SP goes into the operand register, then SP rises by one (so popping
   * into SP itself leaves the popped value plus one there).  Memory is untouched.
   */
  function PopRegister(s: State): (r: State)
    requires Valid(s) && PopReady(s)
    ensures Valid(r) && r.(reg := s.reg) == s
    ensures Operand(s, 1) != SP ==> r.reg[Operand(s, 1)] == s.ram[s.reg[SP]] && r.reg[SP] == s.reg[SP] + 1
    ensures Operand(s, 1) == SP ==> r.reg[SP] == s.ram[s.reg[SP]] + 1
    ensures forall i | 0 <= i < REGISTERS && i != SP && i != Operand(s, 1) :: r.reg[i] == s.reg[i]
  {
    var reg := s.reg[Operand(s, 1) := s.ram[s.reg[SP]]];
    s.(reg := reg[SP := reg[SP] + 1])
  }

  predicate JmpReady(s: State) requires Valid(s) {
    s.pc + 1 < MEMORY_SIZE && Operand(s, 1) < REGISTERS
  }

  /** JMP: the program counter becomes the operand register's value; nothing else changes. */
  function Jump(s: State): (r: State)
    requires Valid(s) && JmpReady(s)
    ensures Valid(r) && r.(pc := s.pc) == s
    ensures r.pc == s.reg[Operand(s, 1)]
  {
    s.(pc := s.reg[Operand(s, 1)])
  }

  /** The first half of CALL: push the address of the next instruction, `pc + 2`. */
  function SaveReturn(s: State): (r: State)
    requires Valid(s) && CanDecrementSp(s)
    ensures Valid(r) && r.(reg := s.reg, ram := s.ram) == s
    ensures r.reg == s.reg[SP := s.reg[SP] - 1]
    ensures r.ram == s.ram[s.reg[SP] - 1 := s.pc + 2]
  {
    var sp := s.reg[SP] - 1;
    s.(reg := s.reg[SP := sp], ram := s.ram[sp := s.pc + 2])
  }

  /** The target register of CALL is read after the return address is written. */
  predicate CallReady(s: State) requires Valid(s) {
    CanDecrementSp(s) && JmpReady(SaveReturn(s))
  }

  /**
   * CALL: SP drops by one, `pc + 2` is stored at the new SP, and then the program counter
   * jumps as JMP does, in that new state.
   */
  function CallSubroutine(s: State): (r: State)
    requires Valid(s) && CallReady(s)
    ensures Valid(r) && r.(reg := s.reg, ram := s.ram, pc := s.pc) == s
    ensures r.reg == s.reg[SP := s.reg[SP] - 1]
    ensures r.ram[r.reg[SP]] == s.pc + 2
    ensures forall a | 0 <= a < MEMORY_SIZE && a != r.reg[SP] :: r.ram[a] == s.ram[a]
    ensures s.pc + 1 < MEMORY_SIZE && r.pc == r.reg[r.ram[s.pc + 1]]
  {
    Jump(SaveReturn(s))
  }

  predicate RetReady(s: State) requires Valid(s) {
    s.reg[SP] < MEMORY_SIZE
  }

  /** RET: the program counter is loaded from the cell at SP, then SP rises by one. */
  function Return(s: State): (r: State)
    requires Valid(s) && RetReady(s)
    ensures Valid(r) && r.(reg := s.reg, pc := s.pc) == s
    ensures r.pc == s.ram[s.reg[SP]]
    ensures r.reg == s.reg[SP := s.reg[SP] + 1]
  {
    s.(pc := s.ram[s.reg[SP]], reg := s.reg[SP := s.reg[SP] + 1])
  }

  /** Only a taken branch reads its operand. */
  predicate JeqReady(s: State) requires Valid(s) {
    EqualFlag(s.fl) ==> JmpReady(s)
  }

  /** JEQ: jump when the equal flag is set, else step over the one operand byte. */
  function JumpIfEqual(s: State): (r: State)
    requires Valid(s) && JeqReady(s)
    ensures Valid(r) && r.(pc := s.pc) == s
    ensures EqualFlag(s.fl) ==> r.pc == s.reg[Operand(s, 1)]
    ensures !EqualFlag(s.fl) ==> r.pc == s.pc + 2
  {
    if EqualFlag(s.fl) then Jump(s) else s.(pc := s.pc + 2)
  }

  predicate JneReady(s: State) requires Valid(s) {
    !EqualFlag(s.fl) ==> JmpReady(s)
  }

  /** JNE: jump when the equal flag is clear, else step over the one operand byte. */
  function JumpIfNotEqual(s: State): (r: State)
    requires Valid(s) && JneReady(s)
    ensures Valid(r) && r.(pc := s.pc) == s
    ensures !EqualFlag(s.fl) ==> r.pc == s.reg[Operand(s, 1)]
    ensures EqualFlag(s.fl) ==> r.pc == s.pc + 2
  {
    if !EqualFlag(s.fl) then Jump(s) else s.(pc := s.pc + 2)
  }

  predicate Ready(h: Handler, s: State) requires Valid(s) {
    match h
    case Ldi => LdiReady(s)
    case Prn => PrnReady(s)
    case Push => PushReady(s)
    case Pop => PopReady(s)
    case Call => CallReady(s)
    case Ret => RetReady(s)
    case Jmp => JmpReady(s)
    case Jeq => JeqReady(s)
    case Jne => JneReady(s)
  }

  /**
   * Invoking a dispatch-table entry.  Handlers never touch the instruction register, and
   * those that do not claim to move the program counter leave it alone.
   */
  function Execute(h: Handler, s: State): (r: State)
    requires Valid(s) && Ready(h, s)
    ensures Valid(r) && r.ir == s.ir
    ensures !h.MovesPc() ==> r.pc == s.pc
    ensures h !in {Prn} ==> r.out == s.out
  {
    match h
    case Ldi => LoadImmediate(s)
    case Prn => PrintRegister(s)
    case Push => PushRegister(s)
    case Pop => PopRegister(s)
    case Call => CallSubroutine(s)
    case Ret => Return(s)
    case Jmp => Jump(s)
    case Jeq => JumpIfEqual(s)
    case Jne => JumpIfNotEqual(s)
  }

  // ---------------------------------------------------------------------------------
  // The ALU.
  // ---------------------------------------------------------------------------------

  /**
   * `alu(op, a, b)`: ADD and MUL update register `a` in place, CMP overwrites the flags
   * with exactly one of less, greater and equal; any other opcode is unsupported.  A
   * register index out of range is a fault of the instruction at `pc`.
   */
  function Alu(s: State, op: nat, a: nat, b: nat): (r: Result<State, Fault>)
    requires Valid(s)
    ensures r.Err? <==> (op !in {ADD, MUL, CMP} || a >= REGISTERS || b >= REGISTERS)
    ensures op !in {ADD, MUL, CMP} ==> r == Err(UnsupportedAluOp(op))
    ensures r.Ok? ==> Valid(r.value) && r.value.(reg := s.reg, fl := s.fl) == s
    ensures r.Ok? && op == ADD ==> r.value.reg == s.reg[a := s.reg[a] + s.reg[b]] && r.value.fl == s.fl
    ensures r.Ok? && op == MUL ==> r.value.reg == s.reg[a := s.reg[a] * s.reg[b]] && r.value.fl == s.fl
    ensures r.Ok? && op == CMP ==> r.value.reg == s.reg
    ensures r.Ok? && op == CMP ==> r.value.fl in {FL_LESS, FL_GREATER, FL_EQUAL}
    ensures r.Ok? && op == CMP ==> (r.value.fl == FL_LESS <==> s.reg[a] < s.reg[b])
    ensures r.Ok? && op == CMP ==> (r.value.fl == FL_GREATER <==> s.reg[a] > s.reg[b])
    ensures r.Ok? && op == CMP ==> (r.value.fl == FL_EQUAL <==> s.reg[a] == s.reg[b])
  {
    if op !in {ADD, MUL, CMP} then Err(UnsupportedAluOp(op))
    else if a >= REGISTERS || b >= REGISTERS then Err(OutOfRange(s.pc))
    else if op == ADD then Ok(s.(reg := s.reg[a := s.reg[a] + s.reg[b]]))
    else if op == MUL then Ok(s.(reg := s.reg[a := s.reg[a] * s.reg[b]]))
    else if s.reg[a] < s.reg[b] then Ok(s.(fl := FL_LESS))
    else if s.reg[a] > s.reg[b] then Ok(s.(fl := FL_GREATER))
    else Ok(s.(fl := FL_EQUAL))
  }

  // ---------------------------------------------------------------------------------
  // The fetch-decode-execute loop.
  // ---------------------------------------------------------------------------------

  /**
   * The work of the opcode at `pc`, before `pc` moves: the ALU for bit 5, nothing for HLT,
   * otherwise the dispatch-table handler, which faults when no handler is registered or
   * its accesses leave memory or the register file.
   */
  function Perform(s: State): (r: Result<State, Fault>)
    requires Valid(s) && s.pc < MEMORY_SIZE
    ensures r.Ok? ==> Valid(r.value) && r.value.ir == s.ir
    ensures s.ram[s.pc] == HLT ==> r == Ok(s)
  {
    var op := s.ram[s.pc];
    if IsAlu(op) then
      if s.pc + 2 >= MEMORY_SIZE then Err(OutOfRange(s.pc))
      else Alu(s, op, s.ram[s.pc + 1], s.ram[s.pc + 2])
    else if op == HLT then Ok(s)
    else match Dispatch(op)
      case None => Err(UnknownOpcode(op))
      case Some(h) => if Ready(h, s) then Ok(Execute(h, s)) else Err(OutOfRange(s.pc))
  }

  /**
   * One pass of the body of `run`'s loop: fetch the opcode at `pc` into `ir`, perform it,
   * then, unless bit 4 is set, advance `pc` past the opcode and its `ir >> 6` operands.
   */
  function Step(s: State): (r: Result<State, Fault>)
    requires Valid(s)
    ensures r.Ok? ==> Valid(r.value) && s.pc < MEMORY_SIZE && r.value.ir == s.ram[s.pc]
    ensures r.Ok? && r.value.ir == HLT ==> r.value == s.(ir := HLT, pc := s.pc + 1)
  {
    if s.pc >= MEMORY_SIZE then Err(OutOfRange(s.pc))
    else
      var op := s.ram[s.pc];
      match Perform(s)
      case Err(f) => Err(f)
      case Ok(t) =>
        if SetsPc(op) then Ok(t.(ir := op))
        else Ok(t.(ir := op, pc := t.pc + NumOperands(op) + 1))
  }

  datatype Status = Halted | Faulted(fault: Fault) | OutOfFuel

  /** How a run ended, and the last state it reached before ending. */
  datatype Outcome = Outcome(status: Status, last: State)

  /** What `run` does before its loop: SP := 0xF4, then `ir` := the opcode at `pc`. */
  function Start(s: State): (r: Result<State, Fault>)
    requires Valid(s)
    ensures r.Ok? <==> s.pc < MEMORY_SIZE
    ensures r.Ok? ==> Valid(r.value) && r.value.(reg := s.reg, ir := s.ir) == s
    ensures r.Ok? ==> r.value.reg == s.reg[SP := STACK_START] && r.value.ir == s.ram[s.pc]
  {
    if s.pc < MEMORY_SIZE then Ok(s.(reg := s.reg[SP := STACK_START], ir := s.ram[s.pc]))
    else Err(OutOfRange(s.pc))
  }

  /**
   * `while command != HLT`, with `ir` as the last fetched command, running at most `fuel`
   * passes of the body.  A run that halts has just fetched HLT.
   */
  function Loop(s: State, fuel: nat): (r: Outcome)
    requires Valid(s)
    ensures Valid(r.last)
    ensures r.status == Halted ==> r.last.ir == HLT
    ensures r.status == OutOfFuel ==> r.last.ir != HLT
    decreases fuel, 0
  {
    if s.ir == HLT then Outcome(Halted, s)
    else if fuel == 0 then Outcome(OutOfFuel, s)
    else Continue(s, Step(s), fuel - 1)
  }

  /** After one pass from `s`: stop on its fault, or go on from the state it produced. */
  function Continue(s: State, pass: Result<State, Fault>, fuel: nat): (r: Outcome)
    requires Valid(s) && (pass.Ok? ==> Valid(pass.value))
    ensures Valid(r.last)
    ensures r.status == Halted ==> r.last.ir == HLT
    ensures r.status == OutOfFuel ==> r.last.ir != HLT
    ensures pass.Err? ==> r == Outcome(Faulted(pass.error), s)
    decreases fuel, 1
  {
    match pass
    case Err(f) => Outcome(Faulted(f), s)
    case Ok(next) => Loop(next, fuel)
  }

  /**
   * `run`, bounded to `fuel` passes of its loop body.  SP is set before the first fetch, so
   * a first fetch outside memory faults with SP already at 0xF4.
   */
  function Run(s: State, fuel: nat): (r: Outcome)
    requires Valid(s)
    ensures Valid(r.last)
    ensures r.status == Halted ==> r.last.ir == HLT
    ensures s.pc >= MEMORY_SIZE ==> r == Outcome(Faulted(OutOfRange(s.pc)), s.(reg := s.reg[SP := STACK_START]))
  {
    match Start(s)
    case Err(f) => Outcome(Faulted(f), s.(reg := s.reg[SP := STACK_START]))
    case Ok(started) => Loop(started, fuel)
  }
}
