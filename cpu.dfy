/** The CPU class of ls8/cpu.py: registers and memory are arrays updated in
    place, PC and FL are fields. Every method is proved against the value
    model in Ls8Spec through View(). */
module Cpu {
  import opened Ls8Spec

  class CPU {
    var registers: array<int>
    var memory: array<int>
    var pc: int
    var fl: bv8

    ghost predicate Valid()
      reads this
    {
      registers.Length == RegisterCount && memory.Length == MemorySize && registers != memory
    }

    /** The architectural state as a value. */
    ghost function View(): (s: State)
      reads this, registers, memory
      requires Valid()
      ensures s.Valid()
    {
      State(registers[..], memory[..], pc, fl)
    }

    constructor ()
      ensures Valid() && fresh(registers) && fresh(memory)
      ensures View() == Init()
    {
      var regs := new int[RegisterCount](i => 0);
      regs[SP] := StackStart;
      registers := regs;
      memory := new int[MemorySize](a => 0);
      pc := 0;
      fl := 0x00;
      new;
      assert registers[..] == Init().regs;
      assert memory[..] == Init().mem;
    }

    method RamRead(address: int) returns (value: int)
      requires Valid() && IsAddr(address)
      ensures value == View().mem[address]
    {
      value := memory[address];
    }

    method RamWrite(address: int, value: int)
      requires Valid() && IsAddr(address)
      modifies memory
      ensures Valid()
      ensures View() == old(View()).(mem := old(View()).mem[address := value])
    {
      memory[address] := value;
    }

    /** Returns false, changing nothing, where the source raises
        "Unsupported ALU operation". */
    method Alu(op: string, regA: int, regB: int) returns (ok: bool)
      requires Valid() && IsReg(regA) && IsReg(regB)
      modifies this`fl, registers
      ensures Valid()
      ensures Ls8Spec.Alu(old(View()), op, regA, regB) == if ok then Some(View()) else None
      ensures !ok ==> View() == old(View())
    {
      if op == "ADD" {
        registers[regA] := registers[regA] + registers[regB];
      } else if op == "MUL" {
        registers[regA] := registers[regA] * registers[regB];
      } else if op == "CMP" {
        fl := fl & 0xF8;
        if registers[regA] == registers[regB] {
          fl := fl | 0x01;
        } else if registers[regA] > registers[regB] {
          fl := fl | 0x02;
        } else {
          fl := fl | 0x04;
        }
      } else {
        return false;
      }
      ok := true;
    }

    /** One pass of the body of the source's run loop. A fault is detected
        before anything is changed. */
    method Step() returns (signal: Signal)
      requires Valid()
      modifies this`pc, this`fl, registers, memory
      ensures Valid()
      ensures Exec(old(View())) == Transition(View(), signal)
    {
      if !IsAddr(pc) {
        return Fault;
      }
      var ir := RamRead(pc);
      match Decode(ir) {
        case None => signal := Signal.Unimplemented(ir, pc);
        case Some(Hlt) => signal := Halt;
        case Some(Ldi) => signal := LoadImmediate();
        case Some(Prn) => signal := Print();
        case Some(Mul) => signal := Arithmetic("MUL");
        case Some(Add) => signal := Arithmetic("ADD");
        case Some(Push) => signal := Push();
        case Some(Pop) => signal := Pop();
        case Some(Call) => signal := Call();
        case Some(Ret) => signal := Return();
        case Some(Cmp) => signal := Arithmetic("CMP");
        case Some(Jmp) => signal := Jump();
        case Some(Jeq) =>
          if fl == 0x01 {
            signal := Jump();
          } else {
            pc, signal := pc + 2, Continue([]);
          }
        case Some(Jne) =>
          if fl != 0x01 {
            signal := Jump();
          } else {
            pc, signal := pc + 2, Continue([]);
          }
      }
    }

    /** LDI: register operand 1 := operand 2. */
    method LoadImmediate() returns (signal: Signal)
      requires Valid() && IsAddr(pc)
      modifies this`pc, registers
      ensures Valid()
      ensures StepLdi(old(View())) == Transition(View(), signal)
    {
      if !IsAddr(pc + 2) || !IsReg(memory[pc + 1]) {
        return Fault;
      }
      registers[memory[pc + 1]] := memory[pc + 2];
      pc := pc + 3;
      signal := Continue([]);
    }

    /** PRN: the register named by the operand is printed. */
    method Print() returns (signal: Signal)
      requires Valid() && IsAddr(pc)
      modifies this`pc
      ensures Valid()
      ensures StepPrn(old(View())) == Transition(View(), signal)
    {
      if !IsAddr(pc + 1) || !IsReg(memory[pc + 1]) {
        return Fault;
      }
      signal := Continue([registers[memory[pc + 1]]]);
      pc := pc + 2;
    }

    /** MUL, ADD and CMP: the ALU on the two register operands. */
    method Arithmetic(op: string) returns (signal: Signal)
      requires Valid() && IsAddr(pc) && IsAluOp(op)
      modifies this`pc, this`fl, registers
      ensures Valid()
      ensures StepAlu(old(View()), op) == Transition(View(), signal)
    {
      if !IsAddr(pc + 2) || !IsReg(memory[pc + 1]) || !IsReg(memory[pc + 2]) {
        return Fault;
      }
      var _ := Alu(op, memory[pc + 1], memory[pc + 2]);
      pc := pc + 3;
      signal := Continue([]);
    }

    method Push() returns (signal: Signal)
      requires Valid() && IsAddr(pc)
      modifies this`pc, registers, memory
      ensures Valid()
      ensures StepPush(old(View())) == Transition(View(), signal)
    {
      if !IsAddr(pc + 1) || !IsReg(memory[pc + 1]) || !IsAddr(registers[SP] - 1) {
        return Fault;
      }
      registers[SP] := registers[SP] - 1;
      memory[registers[SP]] := registers[memory[pc + 1]];
      pc := pc + 2;
      signal := Continue([]);
    }

    method Pop() returns (signal: Signal)
      requires Valid() && IsAddr(pc)
      modifies this`pc, registers
      ensures Valid()
      ensures StepPop(old(View())) == Transition(View(), signal)
    {
      if !IsAddr(pc + 1) || !IsReg(memory[pc + 1]) || !IsAddr(registers[SP]) {
        return Fault;
      }
      registers[memory[pc + 1]] := memory[registers[SP]];
      registers[SP] := registers[SP] + 1;
      pc := pc + 2;
      signal := Continue([]);
    }

    method Call() returns (signal: Signal)
      requires Valid() && IsAddr(pc)
      modifies this`pc, registers, memory
      ensures Valid()
      ensures StepCall(old(View())) == Transition(View(), signal)
    {
      var returnAddress := pc + 2;
      var sp := registers[SP] - 1;
      if !IsAddr(sp) || !IsAddr(pc + 1) {
        return Fault;
      }
      // The operand byte is read after the return address is stored.
      var operand := if sp == pc + 1 then returnAddress else memory[pc + 1];
      if !IsReg(operand) {
        return Fault;
      }
      registers[SP] := sp;
      memory[registers[SP]] := returnAddress;
      pc := registers[memory[pc + 1]];
      signal := Continue([]);
    }

    method Return() returns (signal: Signal)
      requires Valid()
      modifies this`pc, registers
      ensures Valid()
      ensures StepRet(old(View())) == Transition(View(), signal)
    {
      if !IsAddr(registers[SP]) {
        return Fault;
      }
      pc := memory[registers[SP]];
      registers[SP] := registers[SP] + 1;
      signal := Continue([]);
    }

    /** JMP, and JEQ/JNE when taken: PC := the register named by the operand. */
    method Jump() returns (signal: Signal)
      requires Valid() && IsAddr(pc)
      modifies this`pc
      ensures Valid()
      ensures StepJump(old(View())) == Transition(View(), signal)
    {
      if !IsAddr(pc + 1) || !IsReg(memory[pc + 1]) {
        return Fault;
      }
      pc := registers[memory[pc + 1]];
      signal := Continue([]);
    }

    /** The source's run loop, bounded by fuel: steps until HLT, an opcode
        outside the table, a fault, or fuel steps have run. PRN's numbers are
        collected in output. */
    method Run(fuel: nat) returns (output: seq<int>, status: Status)
      requires Valid()
      modifies this`pc, this`fl, registers, memory
      ensures Valid()
      ensures RunFor(old(View()), fuel) == Outcome(View(), output, status)
    {
      output, status := [], OutOfFuel;
      var running := true;
      var steps := 0;
      while running && steps < fuel
        invariant Valid()
        invariant steps <= fuel
        invariant running ==> status == OutOfFuel
        invariant running ==> RunFor(old(View()), fuel) == Prepend(output, RunFor(View(), fuel - steps))
        invariant !running ==> RunFor(old(View()), fuel) == Outcome(View(), output, status)
        decreases fuel - steps
      {
        var signal := Step();
        match signal {
          case Continue(out) => output := output + out;
          case Halt => running, status := false, Halted;
          case Unimplemented(opcode, at) => running, status := false, Status.Unimplemented(opcode, at);
          case Fault => running, status := false, Faulted;
        }
        steps := steps + 1;
      }
    }
  }
}
