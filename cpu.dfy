/**
 * The `CPU` class of `ls8/cpu.py`: memory and registers are fixed-size arrays updated in
 * place, and every method is proved to have exactly the effect of the corresponding
 * transition of the `Machine` module on the abstract state `State()`.
 */
module Cpu {
  import opened Wrappers
  import opened Bits
  import Isa
  import opened Machine

  class CPU {
    const ram: array<nat>
    const reg: array<nat>
    var pc: nat
    var ir: nat
    var fl: nat
    /** What PRN has printed, one value per line. */
    var out: seq<nat>

    ghost predicate Valid()
      reads this
    {
      ram.Length == MEMORY_SIZE && reg.Length == REGISTERS
    }

    /** The abstract state of the CPU. */
    function State(): (s: Machine.State)
      reads this, ram, reg
      ensures Valid() ==> Machine.Valid(s)
    {
      Machine.State(ram[..], reg[..], pc, ir, fl, out)
    }

    /** `__init__`: zeroed memory and registers, `pc` 0, `ir` HLT, `fl` 0. */
    constructor ()
      ensures Valid() && State() == Init()
      ensures fresh(ram) && fresh(reg)
    {
      ram := new nat[MEMORY_SIZE](_ => 0);
      reg := new nat[REGISTERS](_ => 0);
      pc := 0;
      ir := Isa.HLT;
      fl := 0;
      out := [];
    }

    /**
     * `load`: copies `program` into memory from address 0 on.  A program longer than memory
     * fills all of it and then faults at the first address past the end.
     */
    method Load(program: seq<nat>) returns (fault: Option<Fault>)
      requires Valid()
      modifies ram
      ensures fault.None? <==> |program| <= MEMORY_SIZE
      ensures fault.Some? ==> fault.value == OutOfRange(MEMORY_SIZE)
      ensures ram[..] == Overlay(old(ram[..]), program)
    {
      var address := 0;
      while address < |program|
        invariant address <= |program| && address <= MEMORY_SIZE
        invariant forall a | 0 <= a < MEMORY_SIZE :: ram[a] == if a < address then program[a] else old(ram[a])
      {
        if address == MEMORY_SIZE {
          return Some(OutOfRange(MEMORY_SIZE));
        }
        ram[address] := program[address];
        address := address + 1;
      }
      return None;
    }

    method RamRead(address: nat) returns (value: nat)
      requires Valid() && address < MEMORY_SIZE
      ensures value == ram[address]
    {
      value := ram[address];
    }

    method RamWrite(value: nat, address: nat)
      requires Valid() && address < MEMORY_SIZE
      modifies ram
      ensures ram[..] == old(ram[..])[address := value]
    {
      ram[address] := value;
    }

    /** `alu`: on a fault nothing changes. */
    method Alu(op: nat, a: nat, b: nat) returns (fault: Option<Fault>)
      requires Valid()
      modifies this, reg
      ensures match Machine.Alu(old(State()), op, a, b)
        case Ok(s) => fault.None? && State() == s
        case Err(f) => fault == Some(f) && State() == old(State())
    {
      if op == Isa.ADD && a < REGISTERS && b < REGISTERS {
        reg[a] := reg[a] + reg[b];
      } else if op == Isa.MUL && a < REGISTERS && b < REGISTERS {
        reg[a] := reg[a] * reg[b];
      } else if op == Isa.CMP && a < REGISTERS && b < REGISTERS {
        if reg[a] < reg[b] {
          fl := FL_LESS;
        } else if reg[a] > reg[b] {
          fl := FL_GREATER;
        } else {
          fl := FL_EQUAL;
        }
      } else if op !in {Isa.ADD, Isa.MUL, Isa.CMP} {
        return Some(UnsupportedAluOp(op));
      } else {
        return Some(OutOfRange(pc));
      }
      return None;
    }

    method Ldi()
      requires Valid() && LdiReady(State())
      modifies reg
      ensures State() == LoadImmediate(old(State()))
    {
      var register := RamRead(pc + 1);
      var value := RamRead(pc + 2);
      reg[register] := value;
    }

    method Prn()
      requires Valid() && PrnReady(State())
      modifies this
      ensures State() == PrintRegister(old(State()))
    {
      var register := RamRead(pc + 1);
      var value := reg[register];
      out := out + [value];
    }

    method Push()
      requires Valid() && PushReady(State())
      modifies ram, reg
      ensures State() == PushRegister(old(State()))
    {
      reg[SP] := reg[SP] - 1;
      var currentSp := reg[SP];
      var register := RamRead(pc + 1);
      var value := reg[register];
      RamWrite(value, currentSp);
    }

    method Pop()
      requires Valid() && PopReady(State())
      modifies reg
      ensures State() == PopRegister(old(State()))
    {
      var currentSp := reg[SP];
      var value := RamRead(currentSp);
      var register := RamRead(pc + 1);
      reg[register] := value;
      reg[SP] := reg[SP] + 1;
    }

    method Call()
      requires Valid() && CallReady(State())
      modifies this, ram, reg
      ensures State() == CallSubroutine(old(State()))
    {
      reg[SP] := reg[SP] - 1;
      var currentSp := reg[SP];
      RamWrite(pc + 2, currentSp);
      assert State() == SaveReturn(old(State()));
      Jmp();
    }

    method Ret()
      requires Valid() && RetReady(State())
      modifies this, reg
      ensures State() == Return(old(State()))
    {
      var currentSp := reg[SP];
      var value := RamRead(currentSp);
      pc := value;
      reg[SP] := reg[SP] + 1;
    }

    method Jmp()
      requires Valid() && JmpReady(State())
      modifies this
      ensures State() == Jump(old(State()))
    {
      var register := RamRead(pc + 1);
      var value := reg[register];
      pc := value;
    }

    method Jeq()
      requires Valid() && JeqReady(State())
      modifies this
      ensures State() == JumpIfEqual(old(State()))
    {
      if Bit(fl, 0) == 1 {
        Jmp();
      } else {
        pc := pc + 2;
      }
    }

    method Jne()
      requires Valid() && JneReady(State())
      modifies this
      ensures State() == JumpIfNotEqual(old(State()))
    {
      if Bit(fl, 0) != 1 {
        Jmp();
      } else {
        pc := pc + 2;
      }
    }

    /** Calls the handler the dispatch table holds. */
    method Execute(h: Isa.Handler)
      requires Valid() && Ready(h, State())
      modifies this, ram, reg
      ensures State() == Machine.Execute(h, old(State()))
    {
      match h
      case Ldi => Ldi();
      case Prn => Prn();
      case Push => Push();
      case Pop => Pop();
      case Call => Call();
      case Ret => Ret();
      case Jmp => Jmp();
      case Jeq => Jeq();
      case Jne => Jne();
    }

    /** The work of the opcode at `pc`: the ALU, nothing for HLT, or its handler. */
    method Perform() returns (fault: Option<Fault>)
      requires Valid() && pc < MEMORY_SIZE
      modifies this, ram, reg
      ensures match Machine.Perform(old(State()))
        case Ok(s) => fault.None? && State() == s
        case Err(f) => fault == Some(f) && State() == old(State())
    {
      var command := ram[pc];
      Isa.DecodeIsShiftAndMask(command);
      if Bit(command, 5) == 1 {
        if pc + 2 >= MEMORY_SIZE {
          return Some(OutOfRange(pc));
        }
        var a := RamRead(pc + 1);
        var b := RamRead(pc + 2);
        fault := Alu(command, a, b);
      } else if command == Isa.HLT {
        fault := None;
      } else {
        match Isa.Dispatch(command)
        case None =>
          return Some(UnknownOpcode(command));
        case Some(h) =>
          if !Ready(h, State()) {
            return Some(OutOfRange(pc));
          }
          Execute(h);
          fault := None;
      }
    }

    /** One pass of the body of `run`'s loop; on a fault nothing changes. */
    method Step() returns (fault: Option<Fault>)
      requires Valid()
      modifies this, ram, reg
      ensures match Machine.Step(old(State()))
        case Ok(s) => fault.None? && State() == s
        case Err(f) => fault == Some(f) && State() == old(State())
    {
      if pc >= MEMORY_SIZE {
        return Some(OutOfRange(pc));
      }
      var command := ram[pc];
      var numOperands := ShiftRight(command, 6);
      var setPc := Bit(command, 4);
      Isa.DecodeIsShiftAndMask(command);
      fault := Perform();
      if fault.Some? {
        return;
      }
      ir := command;
      if setPc != 1 {
        pc := pc + numOperands + 1;
      }
    }

    /**
     * `run`, allowed at most `fuel` passes of its loop body: SP := 0xF4, fetch, then step
     * until the last fetched opcode is HLT.
     */
    method Run(fuel: nat) returns (status: Status)
      requires Valid()
      modifies this, ram, reg
      ensures Outcome(status, State()) == Machine.Run(old(State()), fuel)
    {
      reg[SP] := STACK_START;
      if pc >= MEMORY_SIZE {
        return Faulted(OutOfRange(pc));
      }
      ir := ram[pc];
      var command := ir;
      var left := fuel;
      while command != Isa.HLT
        invariant Valid() && command == ir
        invariant Loop(State(), left) == Machine.Run(old(State()), fuel)
        decreases left
      {
        if left == 0 {
          return OutOfFuel;
        }
        var fault := Step();
        if fault.Some? {
          return Faulted(fault.value);
        }
        command := ir;
        left := left - 1;
      }
      return Halted;
    }
  }
}
