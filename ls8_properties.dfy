/** What the LS-8 CPU of ls8/cpu.py promises, proved of the value model:
    the opcode table, the ALU's frame, PC movement, the flags invariant that
    makes JEQ/JNE's exact test agree with the Equal bit, the PUSH/POP and
    CALL/RET round trips, how a run stops, and how fuel composes. */
module Ls8Properties {
  import opened Ls8Spec

  // ------------------------------------------------------------ opcode table

  /** Decoding is the inverse of the opcode table, so no two instructions
      share an opcode byte. */
  lemma DecodeOpcode(i: Instr)
    ensures Decode(Opcode(i)) == Some(i)
  {
  }

  /** The operand count sits in the top two bits of every opcode byte. */
  lemma OperandsInOpcode(i: Instr)
    ensures 0 <= Opcode(i) < 256
    ensures Operands(i) == Opcode(i) / 64
  {
  }

  // --------------------------------------------------------------------- ALU

  /** ADD and MUL set register a to the unreduced sum or product and change
      no other register, nor memory, PC or FL. */
  lemma AluArithmetic(s: State, op: string, a: int, b: int)
    requires s.Valid() && IsReg(a) && IsReg(b)
    requires op == "ADD" || op == "MUL"
    ensures var s' := Alu(s, op, a, b).value;
      && s'.regs[a] == (if op == "ADD" then s.regs[a] + s.regs[b] else s.regs[a] * s.regs[b])
      && (forall i | IsReg(i) && i != a :: s'.regs[i] == s.regs[i])
      && s'.mem == s.mem && s'.pc == s.pc && s'.fl == s.fl
  {
  }

  /** CMP leaves every register, memory and PC as they were and sets the
      flag bit of the comparison's outcome, keeping the high five bits. */
  lemma AluCompare(s: State, a: int, b: int)
    requires s.Valid() && IsReg(a) && IsReg(b)
    ensures var s' := Alu(s, "CMP", a, b).value;
      && s'.regs == s.regs && s'.mem == s.mem && s'.pc == s.pc
      && s'.fl & 0xF8 == s.fl & 0xF8
      && (s'.fl & 0x01 == 0x01 <==> s.regs[a] == s.regs[b])
      && (s'.fl & 0x02 == 0x02 <==> s.regs[a] > s.regs[b])
      && (s'.fl & 0x04 == 0x04 <==> s.regs[a] < s.regs[b])
  {
  }

  // ------------------------------------------------------------- PC movement

  /** An instruction that does not branch moves PC past itself and its
      operand bytes. */
  lemma SequentialAdvance(s: State)
    requires s.Valid() && IsAddr(s.pc)
    requires Decode(s.mem[s.pc]).Some?
    requires Decode(s.mem[s.pc]).value in {Ldi, Prn, Mul, Add, Cmp, Push, Pop}
    requires Exec(s).signal.Continue?
    ensures Exec(s).next.pc == s.pc + 1 + Operands(Decode(s.mem[s.pc]).value)
  {
  }

  /** JMP moves PC to the register named by its operand; JEQ and JNE move it
      there or past their operand byte. */
  lemma Branches(s: State)
    requires s.Valid() && IsAddr(s.pc)
    requires s.mem[s.pc] in {JMP, JEQ, JNE}
    requires Exec(s).signal.Continue?
    ensures s.mem[s.pc] == JMP ==> Exec(s).next.pc == s.regs[s.mem[s.pc + 1]]
    ensures Exec(s).next.pc == s.pc + 2 || Exec(s).next.pc == s.regs[s.mem[s.pc + 1]]
    ensures Exec(s).next.regs == s.regs && Exec(s).next.mem == s.mem && Exec(s).next.fl == s.fl
  {
  }

  /** Only PRN prints: it prints the register named by its operand and
      changes nothing but PC. */
  lemma PrintOnly(s: State)
    requires s.Valid()
    requires Exec(s).signal.Continue? && Exec(s).signal.out != []
    ensures IsAddr(s.pc + 1) && s.mem[s.pc] == PRN && IsReg(s.mem[s.pc + 1])
    ensures Exec(s) == Transition(s.(pc := s.pc + 2), Continue([s.regs[s.mem[s.pc + 1]]]))
  {
  }

  /** A well-formed PRN prints the register named by its operand and changes
      nothing but PC, which moves past the operand. */
  lemma PrintEffect(s: State)
    requires s.Valid() && s.pc >= 0 && IsAddr(s.pc + 1)
    requires s.mem[s.pc] == PRN && IsReg(s.mem[s.pc + 1])
    ensures Exec(s) == Transition(s.(pc := s.pc + 2), Continue([s.regs[s.mem[s.pc + 1]]]))
  {
  }

  /** LDI writes its immediate into the register operand and nothing else. */
  lemma LdiEffect(s: State)
    requires s.Valid() && IsAddr(s.pc + 2) && s.pc >= 0
    requires s.mem[s.pc] == LDI && IsReg(s.mem[s.pc + 1])
    ensures var t := Exec(s);
      && t.signal == Continue([])
      && t.next.regs[s.mem[s.pc + 1]] == s.mem[s.pc + 2]
      && (forall i | IsReg(i) && i != s.mem[s.pc + 1] :: t.next.regs[i] == s.regs[i])
      && t.next.mem == s.mem && t.next.fl == s.fl && t.next.pc == s.pc + 3
  {
  }

  // ------------------------------------------------------- stopping the loop

  /** HLT and an opcode outside the table stop the run and change nothing;
      the latter reports its opcode and PC. */
  lemma Stops(s: State, fuel: nat)
    requires s.Valid() && IsAddr(s.pc) && fuel > 0
    requires s.mem[s.pc] == HLT || forall i: Instr :: Opcode(i) != s.mem[s.pc]
    ensures s.mem[s.pc] == HLT ==> RunFor(s, fuel) == Outcome(s, [], Halted)
    ensures s.mem[s.pc] != HLT ==> RunFor(s, fuel) == Outcome(s, [], Status.Unimplemented(s.mem[s.pc], s.pc))
  {
  }

  // ------------------------------------------------------------------- flags

  /** The values FL can hold: zero, or exactly one of Equal, Greater, Less. */
  predicate FlagsValid(fl: bv8) { fl == 0x00 || fl == 0x01 || fl == 0x02 || fl == 0x04 }

  /** On a valid FL, JEQ's and JNE's exact test FL == 1 is the Equal bit. */
  lemma ExactTestIsEqualBit(fl: bv8)
    requires FlagsValid(fl)
    ensures (fl == 0x01) <==> (fl & 0x01 == 0x01)
  {
  }

  lemma ExecKeepsFlagsValid(s: State)
    requires s.Valid() && FlagsValid(s.fl)
    ensures FlagsValid(Exec(s).next.fl)
  {
  }

  lemma {:induction false} RunKeepsFlagsValid(s: State, fuel: nat)
    requires s.Valid() && FlagsValid(s.fl)
    ensures FlagsValid(RunFor(s, fuel).final.fl)
    decreases fuel
  {
    if fuel > 0 {
      var t := Exec(s);
      ExecKeepsFlagsValid(s);
      if t.signal.Continue? {
        RunKeepsFlagsValid(t.next, fuel - 1);
      }
    }
  }

  /** From construction onward, whatever program is loaded, FL is always
      valid: every state a run reaches is the final state of a shorter run. */
  lemma FlagsValidFromConstruction(program: seq<int>, fuel: nat)
    requires |program| == MemorySize
    ensures FlagsValid(RunFor(Init().(mem := program), fuel).final.fl)
  {
    RunKeepsFlagsValid(Init().(mem := program), fuel);
  }

  /** In a state with valid flags JEQ jumps exactly when the Equal bit is
      set and otherwise skips its operand byte; JNE the other way round. */
  lemma ConditionalJumps(s: State)
    requires s.Valid() && FlagsValid(s.fl) && IsAddr(s.pc + 1) && s.pc >= 0
    requires s.mem[s.pc] == JEQ || s.mem[s.pc] == JNE
    requires IsReg(s.mem[s.pc + 1])
    ensures var taken := (s.fl & 0x01 == 0x01) == (s.mem[s.pc] == JEQ);
      Exec(s) == Transition(s.(pc := if taken then s.regs[s.mem[s.pc + 1]] else s.pc + 2), Continue([]))
  {
  }

  // ------------------------------------------------------------ round trips

  /** PUSH r then POP r, the pushed cell not the POP instruction, restores
      every register, SP included, and FL; PUSH writes memory[SP - 1] only.
      PUSH SP stores SP after its decrement, and POP SP reloads that value
      before incrementing it, so SP comes back as well. */
  lemma PushThenPop(s: State, r: int)
    requires s.Valid() && s.pc >= 0 && IsAddr(s.pc + 3)
    requires IsReg(r)
    requires s.mem[s.pc] == PUSH && s.mem[s.pc + 1] == r
    requires s.mem[s.pc + 2] == POP && s.mem[s.pc + 3] == r
    requires IsAddr(s.regs[SP] - 1) && s.regs[SP] - 1 != s.pc + 2 && s.regs[SP] - 1 != s.pc + 3
    ensures var pushed := if r == SP then s.regs[SP] - 1 else s.regs[r];
      var t := Exec(s);
      && t.signal == Continue([])
      && t.next == s.(regs := s.regs[SP := s.regs[SP] - 1], mem := s.mem[s.regs[SP] - 1 := pushed], pc := s.pc + 2)
      && Exec(t.next) == Transition(s.(mem := s.mem[s.regs[SP] - 1 := pushed], pc := s.pc + 4), Continue([]))
  {
  }

  /** CALL through register r, landing on a RET (the byte there after the
      return address is stored), then that RET: execution resumes just past
      the CALL with SP and every register as before; the return address
      stays in memory[SP - 1]. CALL SP jumps to the new SP, the cell holding
      the return address itself. */
  lemma CallThenRet(s: State, r: int)
    requires s.Valid() && s.pc >= 0 && IsAddr(s.pc + 1)
    requires IsReg(r)
    requires s.mem[s.pc] == CALL && s.mem[s.pc + 1] == r
    requires IsAddr(s.regs[SP] - 1) && s.regs[SP] - 1 != s.pc + 1
    requires IsAddr(if r == SP then s.regs[SP] - 1 else s.regs[r])
    requires s.mem[s.regs[SP] - 1 := s.pc + 2][if r == SP then s.regs[SP] - 1 else s.regs[r]] == RET
    ensures Exec(s).signal == Continue([])
    ensures Exec(s).next.pc == if r == SP then s.regs[SP] - 1 else s.regs[r]
    ensures Exec(Exec(s).next) == Transition(s.(mem := s.mem[s.regs[SP] - 1 := s.pc + 2], pc := s.pc + 2), Continue([]))
  {
  }

  // ---------------------------------------------------------------- fuel

  /** A continuing step prepends its output to the rest of the run. */
  lemma RunForContinue(s: State, fuel: nat)
    requires s.Valid() && fuel > 0 && Exec(s).signal.Continue?
    ensures RunFor(s, fuel) == Prepend(Exec(s).signal.out, RunFor(Exec(s).next, fuel - 1))
  {
  }

  /** Any other signal ends the run where it is, whatever the fuel. */
  lemma RunForStop(s: State, fuel: nat, more: nat)
    requires s.Valid() && fuel > 0 && !Exec(s).signal.Continue?
    ensures RunFor(s, fuel).status != OutOfFuel
    ensures RunFor(s, fuel + more) == RunFor(s, fuel)
  {
  }

  lemma PrependTwice(out: seq<int>, more: seq<int>, r: Outcome)
    ensures Prepend(out, Prepend(more, r)) == Prepend(out + more, r)
  {
    assert out + (more + r.output) == (out + more) + r.output;
  }

  /** A run that ended before its fuel ran out ends the same with more. */
  lemma {:induction false} MoreFuel(s: State, fuel: nat, extra: nat)
    requires s.Valid() && RunFor(s, fuel).status != OutOfFuel
    ensures RunFor(s, fuel + extra) == RunFor(s, fuel)
    decreases fuel
  {
    if Exec(s).signal.Continue? {
      RunForContinue(s, fuel);
      RunForContinue(s, fuel + extra);
      MoreFuel(Exec(s).next, fuel - 1, extra);
    } else {
      RunForStop(s, fuel, extra);
    }
  }

  /** Running for a + b steps is running for a steps, then, if that run is
      still going, for b more from where it stopped, its output following. */
  lemma {:induction false} RunSplits(s: State, a: nat, b: nat)
    requires s.Valid()
    ensures var first := RunFor(s, a);
      RunFor(s, a + b) == if first.status == OutOfFuel then Prepend(first.output, RunFor(first.final, b)) else first
    decreases a, 1
  {
    if a > 0 {
      if Exec(s).signal.Continue? {
        RunSplitsAfterStep(s, a, b);
      } else {
        RunForStop(s, a, b);
      }
    }
  }

  /** RunSplits when the first step continues. */
  lemma {:induction false} RunSplitsAfterStep(s: State, a: nat, b: nat)
    requires s.Valid() && a > 0 && Exec(s).signal.Continue?
    ensures var first := RunFor(s, a);
      RunFor(s, a + b) == if first.status == OutOfFuel then Prepend(first.output, RunFor(first.final, b)) else first
    decreases a, 0
  {
    var t := Exec(s);
    RunForContinue(s, a);
    RunForContinue(s, a + b);
    RunSplits(t.next, a - 1, b);
    var rest := RunFor(t.next, a - 1);
    if rest.status == OutOfFuel {
      PrependTwice(t.signal.out, rest.output, RunFor(rest.final, b));
    }
  }

  // --------------------------------------------------------------- programs

  /** LDI R0, v; PRN R0; HLT on a fresh CPU prints v and halts. */
  lemma LoadPrintHalt(v: int)
    ensures var prog := [LDI, 0, v, PRN, 0, HLT] + seq(MemorySize - 6, a => 0);
      var r := RunFor(Init().(mem := prog), 3);
      r.output == [v] && r.status == Halted && r.final.regs[0] == v && r.final.pc == 5
  {
  }

  /** ADD does not wrap at 256: 200 + 100 leaves 300 in the register. */
  lemma AddDoesNotWrap(s: State)
    requires s.Valid() && s.regs[0] == 200 && s.regs[1] == 100
    ensures Alu(s, "ADD", 0, 1).value.regs[0] == 300
    ensures Alu(s, "MUL", 0, 1).value.regs[0] == 20000
  {
  }
}
