/**
 * Whole programs run on a freshly constructed and loaded CPU: the worked examples of the
 * LS-8 instruction set, followed pass by pass through the run loop.
 */
module Scenarios {
  import opened Isa
  import opened Machine
  import opened Properties

  /** LDI R0,8; LDI R1,9; MUL R0,R1; PRN R0; HLT */
  const MULTIPLY_PROGRAM: seq<nat> := [LDI, 0, 8, LDI, 1, 9, MUL, 0, 1, PRN, 0, HLT]

  /** MULTIPLY_PROGRAM's code bytes in a memory image. */
  predicate HoldsMultiplyProgram(ram: seq<nat>) {
    && |ram| == MEMORY_SIZE
    && ram[0] == LDI && ram[1] == 0 && ram[2] == 8 && ram[3] == LDI && ram[4] == 1 && ram[5] == 9
    && ram[6] == MUL && ram[7] == 0 && ram[8] == 1 && ram[9] == PRN && ram[10] == 0 && ram[11] == HLT
  }

  lemma MultiplyProgramBoots(program: seq<nat>)
    requires program == MULTIPLY_PROGRAM
    ensures var s0 := Start(Boot(program)).value;
      Valid(s0) && s0.pc == 0 && s0.ir == LDI && s0.out == [] && HoldsMultiplyProgram(s0.ram)
  {
    StartAfterBoot(program);
  }

  /** The two LDIs of MULTIPLY_PROGRAM load R0 and R1 and use two of the five passes. */
  lemma MultiplyProgramLoads(s0: State) returns (s2: State)
    requires Valid(s0) && s0.pc == 0 && s0.ir == LDI && HoldsMultiplyProgram(s0.ram)
    ensures Valid(s2) && Loop(s0, 5) == Loop(s2, 3)
    ensures s2.pc == 6 && s2.ir == LDI && s2.ram == s0.ram && s2.out == s0.out
    ensures s2.reg[0] == 8 && s2.reg[1] == 9
  {
    PassLoadImmediate(s0, 5);
    var s1 := s0.(reg := s0.reg[0 := 8], pc := 3);
    assert Loop(s0, 5) == Loop(s1, 4);
    PassLoadImmediate(s1, 4);
    s2 := s1.(reg := s1.reg[1 := 9], pc := 6);
    assert Loop(s1, 4) == Loop(s2, 3);
  }

  /** The last three passes of MULTIPLY_PROGRAM: the product, its print, the halt. */
  lemma MultiplyProgramFinishes(s2: State)
    requires Valid(s2) && s2.pc == 6 && s2.ir == LDI && HoldsMultiplyProgram(s2.ram)
    ensures var product := s2.reg[0] * s2.reg[1];
      Loop(s2, 3) == Outcome(Halted, s2.(reg := s2.reg[0 := product], ir := HLT, pc := 12, out := s2.out + [product]))
  {
    var product := s2.reg[0] * s2.reg[1];
    PassMultiply(s2, 3);
    var s3 := s2.(reg := s2.reg[0 := product], ir := MUL, pc := 9);
    assert Loop(s2, 3) == Loop(s3, 2);
    PassPrint(s3, 2);
    var s4 := s3.(ir := PRN, pc := 11, out := s2.out + [product]);
    assert Loop(s3, 2) == Loop(s4, 1);
    PassHalt(s4, 1);
  }

  /** MULTIPLY_PROGRAM prints 72 and halts one past its HLT. */
  lemma MultiplyProgram(program: seq<nat>)
    requires program == MULTIPLY_PROGRAM
    ensures var outcome := Run(Boot(program), 5);
      outcome.status == Halted && outcome.last.out == [72] && outcome.last.pc == 12
  {
    MultiplyProgramBoots(program);
    var s2 := MultiplyProgramLoads(Start(Boot(program)).value);
    MultiplyProgramFinishes(s2);
    assert s2.reg[0] * s2.reg[1] == 72;
  }

  /** LDI R0,5; LDI R1,5; LDI R2,22; LDI R3,1; LDI R4,2; CMP R0,R1; JEQ R2; PRN R3; (22:) PRN R4; HLT */
  const BRANCH_PROGRAM: seq<nat> :=
    [LDI, 0, 5, LDI, 1, 5, LDI, 2, 22, LDI, 3, 1, LDI, 4, 2, CMP, 0, 1, JEQ, 2, PRN, 3, PRN, 4, HLT]

  /** BRANCH_PROGRAM code bytes in a memory image. */
  predicate HoldsBranchProgram(ram: seq<nat>) {
    && |ram| == MEMORY_SIZE
    && ram[0] == LDI && ram[1] == 0 && ram[2] == 5 && ram[3] == LDI && ram[4] == 1 && ram[5] == 5
    && ram[6] == LDI && ram[7] == 2 && ram[8] == 22 && ram[9] == LDI && ram[10] == 3 && ram[11] == 1
    && ram[12] == LDI && ram[13] == 4 && ram[14] == 2 && ram[15] == CMP && ram[16] == 0 && ram[17] == 1
    && ram[18] == JEQ && ram[19] == 2 && ram[20] == PRN && ram[21] == 3 && ram[22] == PRN && ram[23] == 4
    && ram[24] == HLT
  }

  lemma BranchProgramBoots(program: seq<nat>)
    requires program == BRANCH_PROGRAM
    ensures var s0 := Start(Boot(program)).value;
      Valid(s0) && s0.pc == 0 && s0.ir == LDI && s0.out == [] && HoldsBranchProgram(s0.ram)
  {
    StartAfterBoot(program);
    BranchProgramInPlace(Start(Boot(program)).value.ram, program);
  }

  lemma BranchProgramInPlace(ram: seq<nat>, program: seq<nat>)
    requires program == BRANCH_PROGRAM && |ram| == MEMORY_SIZE && ram[..|program|] == program
    ensures HoldsBranchProgram(ram)
  {
    BranchProgramHead(ram, program);
    BranchProgramMiddle(ram, program);
    BranchProgramTail(ram, program);
  }

  lemma BranchProgramHead(ram: seq<nat>, program: seq<nat>)
    requires program == BRANCH_PROGRAM && |ram| == MEMORY_SIZE && ram[..|program|] == program
    ensures ram[0] == LDI && ram[1] == 0 && ram[2] == 5 && ram[3] == LDI && ram[4] == 1 && ram[5] == 5
  {
  }

  lemma BranchProgramMiddle(ram: seq<nat>, program: seq<nat>)
    requires program == BRANCH_PROGRAM && |ram| == MEMORY_SIZE && ram[..|program|] == program
    ensures ram[6] == LDI && ram[7] == 2 && ram[8] == 22 && ram[9] == LDI && ram[10] == 3 && ram[11] == 1
  {
  }

  lemma BranchProgramTail(ram: seq<nat>, program: seq<nat>)
    requires program == BRANCH_PROGRAM && |ram| == MEMORY_SIZE && ram[..|program|] == program
    ensures ram[12] == LDI && ram[13] == 4 && ram[14] == 2 && ram[15] == CMP && ram[16] == 0 && ram[17] == 1
    ensures ram[18] == JEQ && ram[19] == 2 && ram[20] == PRN && ram[21] == 3 && ram[22] == PRN && ram[23] == 4
    ensures ram[24] == HLT
  {
  }


  /** The five LDIs of BRANCH_PROGRAM load R0..R4 and use five of the nine passes. */
  lemma BranchProgramLoads(s0: State) returns (s5: State)
    requires Valid(s0) && s0.pc == 0 && s0.ir == LDI && HoldsBranchProgram(s0.ram)
    ensures Valid(s5) && Loop(s0, 9) == Loop(s5, 4)
    ensures s5.pc == 15 && s5.ram == s0.ram && s5.out == s0.out && s5.ir == LDI && s5.fl == s0.fl
    ensures s5.reg[0] == 5 && s5.reg[1] == 5 && s5.reg[2] == 22 && s5.reg[3] == 1 && s5.reg[4] == 2
  {
    PassLoadImmediate(s0, 9);
    var s1 := s0.(reg := s0.reg[0 := 5], pc := 3);
    assert Loop(s0, 9) == Loop(s1, 8);
    PassLoadImmediate(s1, 8);
    var s2 := s1.(reg := s1.reg[1 := 5], pc := 6);
    assert Loop(s1, 8) == Loop(s2, 7);
    PassLoadImmediate(s2, 7);
    var s3 := s2.(reg := s2.reg[2 := 22], pc := 9);
    assert Loop(s2, 7) == Loop(s3, 6);
    PassLoadImmediate(s3, 6);
    var s4 := s3.(reg := s3.reg[3 := 1], pc := 12);
    assert Loop(s3, 6) == Loop(s4, 5);
    PassLoadImmediate(s4, 5);
    s5 := s4.(reg := s4.reg[4 := 2], pc := 15);
    assert Loop(s4, 5) == Loop(s5, 4);
  }

  /** From the CMP on, BRANCH_PROGRAM finds R0 == R1, jumps over PRN R3 to PRN R4 and halts. */
  lemma BranchProgramBranches(s5: State)
    requires Valid(s5) && s5.pc == 15 && s5.ir == LDI && HoldsBranchProgram(s5.ram)
    requires s5.reg[0] == 5 && s5.reg[1] == 5 && s5.reg[2] == 22 && s5.reg[4] == 2
    ensures Loop(s5, 4) == Outcome(Halted, s5.(fl := FL_EQUAL, ir := HLT, pc := 25, out := s5.out + [2]))
  {
    PassCompare(s5, 4);
    var s6 := s5.(fl := FL_EQUAL, ir := CMP, pc := 18);
    assert Loop(s5, 4) == Loop(s6, 3);
    FlagValues();
    PassJumpIfEqual(s6, 3);
    var s7 := s6.(ir := JEQ, pc := 22);
    assert Loop(s6, 3) == Loop(s7, 2);
    PassPrint(s7, 2);
    var s8 := s7.(ir := PRN, pc := 24, out := s5.out + [2]);
    assert Loop(s7, 2) == Loop(s8, 1);
    PassHalt(s8, 1);
  }

  /** BRANCH_PROGRAM takes the equal branch over PRN R3 and prints only 2. */
  lemma BranchProgram(program: seq<nat>)
    requires program == BRANCH_PROGRAM
    ensures var outcome := Run(Boot(program), 9);
      outcome.status == Halted && outcome.last.out == [2] && outcome.last.pc == 25
  {
    BranchProgramBoots(program);
    var s5 := BranchProgramLoads(Start(Boot(program)).value);
    BranchProgramBranches(s5);
  }
}
