/**
 * What the LS-8 CPU promises across instructions: the default program-counter advance,
 * where the run loop stops, the stack and call disciplines, and comparison followed by
 * a conditional branch.
 */
module Properties {
  import opened Wrappers
  import opened Isa
  import opened Machine

  /** When the fetched opcode has bit 4 clear, `pc` moves past the opcode and its `ir >> 6` operands. */
  lemma StepAdvancesPc(s: State)
    requires Valid(s) && Step(s).Ok? && !SetsPc(Step(s).value.ir)
    ensures Step(s).value.pc == s.pc + NumOperands(Step(s).value.ir) + 1
  {
    var op := s.ram[s.pc];
    if !IsAlu(op) && op != HLT {
      var h := Dispatch(op).value;
      assert !h.MovesPc();
      assert Execute(h, s).pc == s.pc;
    }
  }

  /**
   * A cycle on a dispatch-table opcode runs its handler and then, unless the handler moves
   * the program counter, steps over the opcode and the operands the handler reads.
   */
  lemma StepDispatches(m: State, h: Handler)
    requires Valid(m) && m.pc < MEMORY_SIZE && m.ram[m.pc] == Opcode(h) && Ready(h, m)
    ensures Step(m) == Ok(
      var t := Execute(h, m);
      if h.MovesPc() then t.(ir := Opcode(h)) else t.(ir := Opcode(h), pc := m.pc + h.Operands() + 1))
  {
    DispatchFindsEveryHandler(h);
  }

  /** A cycle on ADD, MUL or CMP runs the ALU on the two operand registers, then steps over all three bytes. */
  lemma StepComputes(m: State)
    requires Valid(m) && m.pc + 2 < MEMORY_SIZE && m.ram[m.pc] in {ADD, MUL, CMP}
    requires m.ram[m.pc + 1] < REGISTERS && m.ram[m.pc + 2] < REGISTERS
    ensures Alu(m, m.ram[m.pc], m.ram[m.pc + 1], m.ram[m.pc + 2]).Ok?
    ensures Step(m) == Ok(Alu(m, m.ram[m.pc], m.ram[m.pc + 1], m.ram[m.pc + 2]).value.(ir := m.ram[m.pc], pc := m.pc + 3))
  {
    NonTableOpcodes();
  }

  /** Exactly when one cycle stops on an opcode the CPU cannot dispatch. */
  lemma StepFaultsOnUnknownOpcode(s: State)
    requires Valid(s) && s.pc < MEMORY_SIZE
    ensures Step(s) == Err(UnknownOpcode(s.ram[s.pc]))
        <==> !IsAlu(s.ram[s.pc]) && s.ram[s.pc] != HLT && Dispatch(s.ram[s.pc]).None?
  {
  }

  /** Exactly when one cycle stops on an ALU opcode other than ADD, MUL and CMP. */
  lemma StepFaultsOnUnsupportedAluOp(s: State)
    requires Valid(s) && s.pc + 2 < MEMORY_SIZE
    ensures Step(s) == Err(UnsupportedAluOp(s.ram[s.pc]))
        <==> IsAlu(s.ram[s.pc]) && s.ram[s.pc] !in {ADD, MUL, CMP}
  {
  }

  /** HLT at `pc` when `run` starts: the loop body never runs, and only SP and `ir` are set. */
  lemma HaltAtStart(s: State, fuel: nat)
    requires Valid(s) && s.pc < MEMORY_SIZE && s.ram[s.pc] == HLT
    ensures Run(s, fuel) == Outcome(Halted, s.(reg := s.reg[SP := STACK_START], ir := HLT))
  {
  }

  /** A freshly loaded program that starts with HLT: `pc` stays 0 and only SP changes. */
  lemma BootHaltsAtOnce(program: seq<nat>, fuel: nat)
    requires 0 < |program| <= MEMORY_SIZE && program[0] == HLT
    ensures Run(Boot(program), fuel) == Outcome(Halted, Boot(program).(reg := Boot(program).reg[SP := STACK_START]))
    ensures Run(Boot(program), fuel).last.out == []
  {
    HaltAtStart(Boot(program), fuel);
  }

  /** `run` right after `load`: `pc` at 0, the first opcode fetched, the program in place. */
  lemma StartAfterBoot(program: seq<nat>)
    requires 0 < |program| <= MEMORY_SIZE
    ensures Start(Boot(program)).Ok?
    ensures var s0 := Start(Boot(program)).value;
      Valid(s0) && s0.pc == 0 && s0.ir == program[0] && s0.out == [] && s0.ram[..|program|] == program
  {
  }

  /** A loop that runs at least once and halts stops one past an HLT opcode it fetched. */
  lemma {:induction false} LoopStopsPastHlt(s: State, fuel: nat)
    requires Valid(s) && s.ir != HLT && Loop(s, fuel).status == Halted
    ensures var last := Loop(s, fuel).last;
      1 <= last.pc <= MEMORY_SIZE && last.ram[last.pc - 1] == HLT && last.ir == HLT
    decreases fuel
  {
    assert 0 < fuel;
    LoopOnce(s, fuel);
    var next := Step(s).value;
    if next.ir != HLT {
      LoopStopsPastHlt(next, fuel - 1);
    } else {
      assert next == s.(ir := HLT, pc := s.pc + 1);
    }
  }

  /** `run` on a program that does not start with HLT halts with `pc` one past an HLT. */
  lemma RunStopsPastHlt(s: State, fuel: nat)
    requires Valid(s) && s.pc < MEMORY_SIZE && s.ram[s.pc] != HLT && Run(s, fuel).status == Halted
    ensures var last := Run(s, fuel).last;
      1 <= last.pc <= MEMORY_SIZE && last.ram[last.pc - 1] == HLT
  {
    LoopStopsPastHlt(Start(s).value, fuel);
  }

  /** One pass of the loop body, when the last command was not HLT and fuel is left. */
  lemma LoopOnce(s: State, fuel: nat)
    requires Valid(s) && s.ir != HLT && 0 < fuel
    ensures Step(s).Ok? ==> Loop(s, fuel) == Loop(Step(s).value, fuel - 1)
    ensures Step(s).Err? ==> Loop(s, fuel) == Outcome(Faulted(Step(s).error), s)
  {
  }

  /** More fuel does not change a run that has already ended. */
  lemma {:induction false} LoopFuelMonotone(s: State, fuel: nat, more: nat)
    requires Valid(s) && fuel <= more && Loop(s, fuel).status != OutOfFuel
    ensures Loop(s, more) == Loop(s, fuel)
    decreases fuel
  {
    if s.ir != HLT {
      assert 0 < fuel;
      LoopOnce(s, fuel);
      LoopOnce(s, more);
      if Step(s).Ok? {
        LoopFuelMonotone(Step(s).value, fuel - 1, more - 1);
      }
    }
  }

  /**
   * PUSH r then POP s (s not SP), with the pushed cell not overwriting the POP instruction:
   * register s gets what was pushed (register r, or the decremented SP when r is SP), SP is
   * back where it started, only register s and the one stack cell changed.
   */
  lemma PushPopRoundTrip(m: State, r: nat, s: nat)
    requires Valid(m) && m.pc + 3 < MEMORY_SIZE
    requires m.ram[m.pc] == PUSH && m.ram[m.pc + 1] == r && m.ram[m.pc + 2] == POP && m.ram[m.pc + 3] == s
    requires r < REGISTERS && s < REGISTERS && s != SP
    requires 1 <= m.reg[SP] <= MEMORY_SIZE && m.reg[SP] - 1 != m.pc + 2 && m.reg[SP] - 1 != m.pc + 3
    ensures Step(m).Ok? && Step(Step(m).value).Ok?
    ensures var after := Step(Step(m).value).value;
      && after.reg[s] == (if r == SP then m.reg[SP] - 1 else m.reg[r])
      && after.reg == m.reg[s := after.reg[s]]
      && after.ram == m.ram[m.reg[SP] - 1 := after.reg[s]]
      && after.pc == m.pc + 4 && after.fl == m.fl && after.out == m.out
  {
    assert Dispatch(PUSH) == Some(Push) && Dispatch(POP) == Some(Pop);
    var pushed := Step(m).value;
    assert pushed == PushRegister(m).(ir := PUSH, pc := m.pc + 2);
    assert pushed.ram[pushed.pc] == POP && pushed.ram[pushed.pc + 1] == s;
    var after := Step(pushed).value;
    assert after == PopRegister(pushed).(ir := POP, pc := m.pc + 4);
  }

  /**
   * CALL through register t saves `pc + 2` at the new SP and enters the routine; a later RET
   * whose SP is that SP and finds the saved cell intact resumes right after the CALL with
   * SP restored.
   */
  lemma CallRetRoundTrip(m: State, t: nat, later: State)
    requires Valid(m) && m.pc + 1 < MEMORY_SIZE && m.ram[m.pc] == CALL && m.ram[m.pc + 1] == t
    requires t < REGISTERS && 1 <= m.reg[SP] <= MEMORY_SIZE && m.reg[SP] - 1 != m.pc + 1
    requires Valid(later) && later.pc < MEMORY_SIZE && later.ram[later.pc] == RET
    requires later.reg[SP] == m.reg[SP] - 1 && later.ram[later.reg[SP]] == m.pc + 2
    ensures Step(m).Ok?
    ensures var called := Step(m).value;
      && called.reg[SP] == m.reg[SP] - 1
      && called.ram[called.reg[SP]] == m.pc + 2
      && called.pc == (if t == SP then m.reg[SP] - 1 else m.reg[t])
    ensures Step(later).Ok? && Step(later).value.pc == m.pc + 2 && Step(later).value.reg[SP] == m.reg[SP]
  {
    assert Dispatch(CALL) == Some(Call) && Dispatch(RET) == Some(Ret);
    assert SaveReturn(m).ram[m.pc + 1] == t;
    assert Step(m).value == CallSubroutine(m).(ir := CALL);
    assert Step(later).value == Return(later).(ir := RET);
  }

  /** Only the value CMP writes for "equal" has the equal flag (bit 0) set. */
  lemma FlagValues()
    ensures EqualFlag(FL_EQUAL) && !EqualFlag(FL_LESS) && !EqualFlag(FL_GREATER)
  {
  }

  /**
   * CMP a, b then JEQ t (or JNE t): the branch is taken exactly when the registers are equal
   * (for JNE, unequal); untaken, execution continues after the branch.
   */
  lemma CompareThenBranch(m: State, a: nat, b: nat, branch: nat, t: nat)
    requires Valid(m) && m.pc + 4 < MEMORY_SIZE && branch in {JEQ, JNE}
    requires m.ram[m.pc] == CMP && m.ram[m.pc + 1] == a && m.ram[m.pc + 2] == b
    requires m.ram[m.pc + 3] == branch && m.ram[m.pc + 4] == t
    requires a < REGISTERS && b < REGISTERS && t < REGISTERS
    ensures Step(m).Ok? && Step(Step(m).value).Ok?
    ensures var after := Step(Step(m).value).value;
      && after.pc == (if (m.reg[a] == m.reg[b]) == (branch == JEQ) then m.reg[t] else m.pc + 5)
      && after.reg == m.reg && after.ram == m.ram && after.out == m.out
  {
    var compared := Step(m).value;
    assert compared.pc == m.pc + 3;
    FlagValues();
    assert EqualFlag(compared.fl) <==> m.reg[a] == m.reg[b];
    if branch == JEQ {
      assert Dispatch(JEQ) == Some(Jeq);
      assert Step(compared).value == JumpIfEqual(compared).(ir := JEQ);
    } else {
      assert Dispatch(JNE) == Some(Jne);
      assert Step(compared).value == JumpIfNotEqual(compared).(ir := JNE);
    }
  }

  /** LDI r, v then PRN r prints exactly v. */
  lemma LoadThenPrint(m: State, r: nat, v: nat)
    requires Valid(m) && m.pc + 4 < MEMORY_SIZE && r < REGISTERS
    requires m.ram[m.pc] == LDI && m.ram[m.pc + 1] == r && m.ram[m.pc + 2] == v
    requires m.ram[m.pc + 3] == PRN && m.ram[m.pc + 4] == r
    ensures Step(m).Ok? && Step(Step(m).value).Ok?
    ensures Step(Step(m).value).value.out == m.out + [v]
  {
    assert Dispatch(LDI) == Some(Ldi) && Dispatch(PRN) == Some(Prn);
    var loaded := Step(m).value;
    assert loaded == LoadImmediate(m).(ir := LDI, pc := m.pc + 3);
    assert Step(loaded).value == PrintRegister(loaded).(ir := PRN, pc := m.pc + 5);
  }

  /** A cycle on LDI r, v at `pc`: register r := v and `pc` moves past the three bytes. */
  lemma StepLoadsImmediate(m: State)
    requires Valid(m) && m.pc + 2 < MEMORY_SIZE && m.ram[m.pc] == LDI && m.ram[m.pc + 1] < REGISTERS
    ensures Step(m) == Ok(m.(reg := m.reg[m.ram[m.pc + 1] := m.ram[m.pc + 2]], ir := LDI, pc := m.pc + 3))
  {
    StepDispatches(m, Ldi);
  }

  /** One loop pass over LDI r, v. */
  lemma PassLoadImmediate(m: State, fuel: nat)
    requires Valid(m) && m.ir != HLT && 0 < fuel
    requires m.pc + 2 < MEMORY_SIZE && m.ram[m.pc] == LDI && m.ram[m.pc + 1] < REGISTERS
    ensures Loop(m, fuel)
         == Loop(m.(reg := m.reg[m.ram[m.pc + 1] := m.ram[m.pc + 2]], ir := LDI, pc := m.pc + 3), fuel - 1)
  {
    StepLoadsImmediate(m);
    LoopOnce(m, fuel);
  }

  /** One loop pass over MUL a, b. */
  lemma PassMultiply(m: State, fuel: nat)
    requires Valid(m) && m.ir != HLT && 0 < fuel
    requires m.pc + 2 < MEMORY_SIZE && m.ram[m.pc] == MUL
    requires m.ram[m.pc + 1] < REGISTERS && m.ram[m.pc + 2] < REGISTERS
    ensures var a, b := m.ram[m.pc + 1], m.ram[m.pc + 2];
      Loop(m, fuel) == Loop(m.(reg := m.reg[a := m.reg[a] * m.reg[b]], ir := MUL, pc := m.pc + 3), fuel - 1)
  {
    StepComputes(m);
    LoopOnce(m, fuel);
  }

  /** One loop pass over CMP a, b. */
  lemma PassCompare(m: State, fuel: nat)
    requires Valid(m) && m.ir != HLT && 0 < fuel
    requires m.pc + 2 < MEMORY_SIZE && m.ram[m.pc] == CMP
    requires m.ram[m.pc + 1] < REGISTERS && m.ram[m.pc + 2] < REGISTERS
    ensures var x, y := m.reg[m.ram[m.pc + 1]], m.reg[m.ram[m.pc + 2]];
      var fl := if x < y then FL_LESS else if x > y then FL_GREATER else FL_EQUAL;
      Loop(m, fuel) == Loop(m.(fl := fl, ir := CMP, pc := m.pc + 3), fuel - 1)
  {
    StepComputes(m);
    LoopOnce(m, fuel);
  }

  /** One loop pass over PRN r. */
  lemma PassPrint(m: State, fuel: nat)
    requires Valid(m) && m.ir != HLT && 0 < fuel
    requires m.pc + 1 < MEMORY_SIZE && m.ram[m.pc] == PRN && m.ram[m.pc + 1] < REGISTERS
    ensures Loop(m, fuel) == Loop(m.(out := m.out + [m.reg[m.ram[m.pc + 1]]], ir := PRN, pc := m.pc + 2), fuel - 1)
  {
    StepDispatches(m, Prn);
    LoopOnce(m, fuel);
  }

  /** One loop pass over JEQ r with the equal flag set: the branch is taken. */
  lemma PassJumpIfEqual(m: State, fuel: nat)
    requires Valid(m) && m.ir != HLT && 0 < fuel && EqualFlag(m.fl)
    requires m.pc + 1 < MEMORY_SIZE && m.ram[m.pc] == JEQ && m.ram[m.pc + 1] < REGISTERS
    ensures Loop(m, fuel) == Loop(m.(ir := JEQ, pc := m.reg[m.ram[m.pc + 1]]), fuel - 1)
  {
    StepDispatches(m, Jeq);
    LoopOnce(m, fuel);
  }

  /** The loop pass that fetches HLT is the last one: `pc` ends one past it. */
  lemma PassHalt(m: State, fuel: nat)
    requires Valid(m) && m.ir != HLT && 0 < fuel && m.pc < MEMORY_SIZE && m.ram[m.pc] == HLT
    ensures Loop(m, fuel) == Outcome(Halted, m.(ir := HLT, pc := m.pc + 1))
  {
    LoopOnce(m, fuel);
  }
}
