/**
 * The LS-8 instruction set as `ls8/cpu.py` encodes it: the opcode bytes, the dispatch
 * table built by the CPU's constructor, and the three bit fields the run loop decodes
 * from every opcode.
 */
module Isa {
  import opened Wrappers
  import opened Bits

  const HLT: nat := 0x01  // 0b00000001
  const LDI: nat := 0x82  // 0b10000010
  const PRN: nat := 0x47  // 0b01000111
  const ADD: nat := 0xA0  // 0b10100000
  const MUL: nat := 0xA2  // 0b10100010
  const PUSH: nat := 0x45  // 0b01000101
  const POP: nat := 0x46  // 0b01000110
  const CALL: nat := 0x50  // 0b01010000
  const RET: nat := 0x11  // 0b00010001
  const CMP: nat := 0xA7  // 0b10100111
  const JMP: nat := 0x54  // 0b01010100
  const JEQ: nat := 0x55  // 0b01010101
  const JNE: nat := 0x56  // 0b01010110

  /** The handlers registered in the dispatch table. */
  datatype Handler = Ldi | Prn | Push | Pop | Call | Ret | Jmp | Jeq | Jne
  {
    /** The operand bytes after the opcode that the handler reads (or, for JEQ and JNE, skips). */
    function Operands(): nat {
      match this
      case Ldi => 2
      case Ret => 0
      case _ => 1
    }

    /** The handlers that place the program counter themselves. */
    predicate MovesPc() {
      match this
      case Call | Ret | Jmp | Jeq | Jne => true
      case Ldi | Prn | Push | Pop => false
    }
  }

  /** The opcode under which the constructor registers each handler. */
  function Opcode(h: Handler): nat {
    match h
    case Ldi => LDI
    case Prn => PRN
    case Push => PUSH
    case Pop => POP
    case Call => CALL
    case Ret => RET
    case Jmp => JMP
    case Jeq => JEQ
    case Jne => JNE
  }

  /** `ir >> 6`: the number of operand bytes that follow the opcode. */
  function NumOperands(ir: nat): nat {
    ir / 64
  }

  /** `ir >> 5 & 1`: the instruction goes to the ALU. */
  predicate IsAlu(ir: nat) {
    ir / 32 % 2 == 1
  }

  /** `ir >> 4 & 1`: the instruction sets the program counter itself. */
  predicate SetsPc(ir: nat) {
    ir / 16 % 2 == 1
  }

  /** The three decoded fields are exactly the shifts and masks the run loop applies. */
  lemma DecodeIsShiftAndMask(ir: nat)
    ensures NumOperands(ir) == ShiftRight(ir, 6)
    ensures IsAlu(ir) <==> Bit(ir, 5) == 1
    ensures SetsPc(ir) <==> Bit(ir, 4) == 1
  {
    assert Pow2(4) == 16 && Pow2(5) == 32 && Pow2(6) == 64;
  }

  /**
   * Lookup in the dispatch table. Every entry is a non-ALU opcode whose decoded operand
   * count is what its handler reads and whose sets-PC bit says whether its handler moves
   * the program counter; an opcode is absent exactly when no handler is registered under it.
   */
  function Dispatch(op: nat): (h: Option<Handler>)
    ensures h.Some? ==> Opcode(h.value) == op
    ensures h.Some? ==> !IsAlu(op) && op != HLT
    ensures h.Some? ==> NumOperands(op) == h.value.Operands()
    ensures h.Some? ==> (SetsPc(op) <==> h.value.MovesPc())
  {
    if op == LDI then Some(Ldi)
    else if op == PRN then Some(Prn)
    else if op == PUSH then Some(Push)
    else if op == POP then Some(Pop)
    else if op == CALL then Some(Call)
    else if op == RET then Some(Ret)
    else if op == JMP then Some(Jmp)
    else if op == JEQ then Some(Jeq)
    else if op == JNE then Some(Jne)
    else None
  }

  /** Every registered handler is found again under its own opcode. */
  lemma DispatchFindsEveryHandler(h: Handler)
    ensures Dispatch(Opcode(h)) == Some(h)
  {
    match h
    case Ldi =>
    case Prn =>
    case Push =>
    case Pop =>
    case Call =>
    case Ret =>
    case Jmp =>
    case Jeq =>
    case Jne =>
  }

  /** An opcode the table does not find belongs to no registered handler. */
  lemma DispatchMissesOnlyUnregistered(op: nat)
    ensures Dispatch(op).None? <==> forall g: Handler :: Opcode(g) != op
  {
    if Dispatch(op).Some? {
      assert Opcode(Dispatch(op).value) == op;
    }
  }

  /**
   * The opcodes that do not go through the dispatch table: ADD, MUL and CMP decode as
   * two-operand ALU instructions that leave the program counter to the loop, and HLT as
   * an operand-less, non-ALU instruction that does the same.
   */
  lemma NonTableOpcodes()
    ensures forall op | op in {ADD, MUL, CMP} :: IsAlu(op) && !SetsPc(op) && NumOperands(op) == 2
    ensures !IsAlu(HLT) && !SetsPc(HLT) && NumOperands(HLT) == 0
    ensures Dispatch(ADD).None? && Dispatch(MUL).None? && Dispatch(CMP).None? && Dispatch(HLT).None?
  {
  }
}
