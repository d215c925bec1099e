/** The LS-8 CPU of ls8/cpu.py as values: its architectural state, the opcode
    table, the ALU, one fetch-decode-execute step and a fuel-bounded run.
    The class in cpu.dfy is proved against these functions. */
module Ls8Spec {

  datatype Option<T> = None | Some(value: T)

  // Opcode bytes (written in binary in the source).
  const HLT: int := 0x01   // 0b00000001
  const LDI: int := 0x82   // 0b10000010
  const PRN: int := 0x47   // 0b01000111
  const MUL: int := 0xA2   // 0b10100010
  const PUSH: int := 0x45  // 0b01000101
  const POP: int := 0x46   // 0b01000110
  const CALL: int := 0x50  // 0b01010000
  const RET: int := 0x11   // 0b00010001
  const ADD: int := 0xA0   // 0b10100000
  const CMP: int := 0xA7   // 0b10100111
  const JMP: int := 0x54   // 0b01010100
  const JEQ: int := 0x55   // 0b01010101
  const JNE: int := 0x56   // 0b01010110

  const RegisterCount: int := 8
  const MemorySize: int := 256
  /** Register 7 is the stack pointer. */
  const SP: int := 7
  /** The stack pointer of a fresh CPU: the stack grows down from here. */
  const StackStart: int := 0xF4

  predicate IsReg(i: int) { 0 <= i < RegisterCount }
  predicate IsAddr(a: int) { 0 <= a < MemorySize }

  /** Registers and memory cells hold unbounded integers, as the source's
      Python ints do: ADD and MUL never reduce modulo 256. The flags register
      is only ever written with 0 or with an 8-bit mask, so it is a bv8. */
  datatype State = State(regs: seq<int>, mem: seq<int>, pc: int, fl: bv8)
  {
    predicate Valid() { |regs| == RegisterCount && |mem| == MemorySize }
  }

  /** The state of a freshly constructed CPU. */
  function Init(): (s: State)
    ensures s.Valid()
    ensures s.regs[SP] == StackStart
    ensures forall i | IsReg(i) && i != SP :: s.regs[i] == 0
    ensures forall a | IsAddr(a) :: s.mem[a] == 0
    ensures s.pc == 0 && s.fl == 0
  {
    State(seq(RegisterCount, i => if i == SP then StackStart else 0), seq(MemorySize, a => 0), 0, 0)
  }

  // ---------------------------------------------------------------- decoding

  datatype Instr = Hlt | Ldi | Prn | Mul | Push | Pop | Call | Ret | Add | Cmp | Jmp | Jeq | Jne

  function Opcode(i: Instr): int
  {
    match i
    case Hlt => HLT
    case Ldi => LDI
    case Prn => PRN
    case Mul => MUL
    case Push => PUSH
    case Pop => POP
    case Call => CALL
    case Ret => RET
    case Add => ADD
    case Cmp => CMP
    case Jmp => JMP
    case Jeq => JEQ
    case Jne => JNE
  }

  /** The dispatch of the run loop: the instruction an opcode byte names, or
      None for a byte outside the table. */
  function Decode(ir: int): (r: Option<Instr>)
    ensures r.Some? ==> Opcode(r.value) == ir
    ensures r.None? ==> forall i: Instr :: Opcode(i) != ir
  {
    if ir == HLT then Some(Hlt)
    else if ir == LDI then Some(Ldi)
    else if ir == PRN then Some(Prn)
    else if ir == MUL then Some(Mul)
    else if ir == ADD then Some(Add)
    else if ir == PUSH then Some(Push)
    else if ir == POP then Some(Pop)
    else if ir == CALL then Some(Call)
    else if ir == RET then Some(Ret)
    else if ir == CMP then Some(Cmp)
    else if ir == JMP then Some(Jmp)
    else if ir == JEQ then Some(Jeq)
    else if ir == JNE then Some(Jne)
    else None
  }

  /** How many operand bytes follow the opcode byte. */
  function Operands(i: Instr): nat
  {
    match i
    case Hlt | Ret => 0
    case Prn | Push | Pop | Call | Jmp | Jeq | Jne => 1
    case Ldi | Mul | Add | Cmp => 2
  }

  // --------------------------------------------------------------------- ALU

  /** CMP's new flags: the low three bits are cleared and exactly one is set
      again; the high five bits are kept. */
  function Compare(fl: bv8, x: int, y: int): (r: bv8)
    ensures r & 0xF8 == fl & 0xF8
    ensures (r & 0x07 == 0x01) <==> x == y
    ensures (r & 0x07 == 0x02) <==> x > y
    ensures (r & 0x07 == 0x04) <==> x < y
  {
    var cleared := fl & 0xF8;
    if x == y then cleared | 0x01
    else if x > y then cleared | 0x02
    else cleared | 0x04
  }

  predicate IsAluOp(op: string) { op == "ADD" || op == "MUL" || op == "CMP" }

  /** The ALU on register operands a and b; None stands for the exception the
      source raises on an operation tag it does not support. */
  function Alu(s: State, op: string, a: int, b: int): (r: Option<State>)
    requires s.Valid() && IsReg(a) && IsReg(b)
    ensures r.Some? <==> IsAluOp(op)
    ensures r.Some? ==> r.value.Valid() && r.value.mem == s.mem && r.value.pc == s.pc
  {
    if op == "ADD" then Some(s.(regs := s.regs[a := s.regs[a] + s.regs[b]]))
    else if op == "MUL" then Some(s.(regs := s.regs[a := s.regs[a] * s.regs[b]]))
    else if op == "CMP" then Some(s.(fl := Compare(s.fl, s.regs[a], s.regs[b])))
    else None
  }

  // -------------------------------------------------------------- one step

  /** What one pass of the run loop reports. Continue carries what PRN
      printed (at most one number); Unimplemented carries the opcode byte and
      the PC the source reports; Fault stands for an index outside memory or
      the register file. */
  datatype Signal = Continue(out: seq<int>) | Halt | Unimplemented(opcode: int, pc: int) | Fault

  datatype Transition = Transition(next: State, signal: Signal)

  function Stay(s: State, signal: Signal): Transition { Transition(s, signal) }

  function Advance(s: State, out: seq<int>): Transition { Transition(s, Continue(out)) }

  function StepLdi(s: State): Transition
    requires s.Valid() && IsAddr(s.pc)
  {
    if !IsAddr(s.pc + 2) || !IsReg(s.mem[s.pc + 1]) then Stay(s, Fault)
    else Advance(s.(regs := s.regs[s.mem[s.pc + 1] := s.mem[s.pc + 2]], pc := s.pc + 3), [])
  }

  function StepPrn(s: State): Transition
    requires s.Valid() && IsAddr(s.pc)
  {
    if !IsAddr(s.pc + 1) || !IsReg(s.mem[s.pc + 1]) then Stay(s, Fault)
    else Advance(s.(pc := s.pc + 2), [s.regs[s.mem[s.pc + 1]]])
  }

  function StepAlu(s: State, op: string): Transition
    requires s.Valid() && IsAddr(s.pc) && IsAluOp(op)
  {
    if !IsAddr(s.pc + 2) || !IsReg(s.mem[s.pc + 1]) || !IsReg(s.mem[s.pc + 2]) then Stay(s, Fault)
    else Advance(Alu(s, op, s.mem[s.pc + 1], s.mem[s.pc + 2]).value.(pc := s.pc + 3), [])
  }

  /** SP is decremented before the operand register is read, so PUSH of
      register 7 stores the decremented SP. */
  function StepPush(s: State): Transition
    requires s.Valid() && IsAddr(s.pc)
  {
    var sp := s.regs[SP] - 1;
    if !IsAddr(s.pc + 1) || !IsReg(s.mem[s.pc + 1]) || !IsAddr(sp) then Stay(s, Fault)
    else
      var regs := s.regs[SP := sp];
      Advance(s.(regs := regs, mem := s.mem[sp := regs[s.mem[s.pc + 1]]], pc := s.pc + 2), [])
  }

  /** The operand register is written before SP is incremented, so POP into
      register 7 leaves SP one above the popped value. */
  function StepPop(s: State): Transition
    requires s.Valid() && IsAddr(s.pc)
  {
    var sp := s.regs[SP];
    if !IsAddr(s.pc + 1) || !IsReg(s.mem[s.pc + 1]) || !IsAddr(sp) then Stay(s, Fault)
    else
      var regs := s.regs[s.mem[s.pc + 1] := s.mem[sp]];
      Advance(s.(regs := regs[SP := regs[SP] + 1], pc := s.pc + 2), [])
  }

  /** The return address is stored before the operand byte is read, so the
      operand is read from the updated memory. */
  function StepCall(s: State): Transition
    requires s.Valid() && IsAddr(s.pc)
  {
    var sp := s.regs[SP] - 1;
    if !IsAddr(sp) || !IsAddr(s.pc + 1) then Stay(s, Fault)
    else
      var regs := s.regs[SP := sp];
      var mem := s.mem[sp := s.pc + 2];
      if !IsReg(mem[s.pc + 1]) then Stay(s, Fault)
      else Advance(s.(regs := regs, mem := mem, pc := regs[mem[s.pc + 1]]), [])
  }

  function StepRet(s: State): Transition
    requires s.Valid()
  {
    var sp := s.regs[SP];
    if !IsAddr(sp) then Stay(s, Fault)
    else Advance(s.(pc := s.mem[sp], regs := s.regs[SP := sp + 1]), [])
  }

  /** PC := the register named by the operand byte (JMP, and JEQ/JNE when
      taken). */
  function StepJump(s: State): Transition
    requires s.Valid() && IsAddr(s.pc)
  {
    if !IsAddr(s.pc + 1) || !IsReg(s.mem[s.pc + 1]) then Stay(s, Fault)
    else Advance(s.(pc := s.regs[s.mem[s.pc + 1]]), [])
  }

  /** One pass of the run loop: fetch the byte at PC, decode it, execute it. */
  function Exec(s: State): (t: Transition)
    requires s.Valid()
    ensures t.next.Valid()
    ensures !t.signal.Continue? ==> t.next == s
    ensures t.signal.Continue? ==> IsAddr(s.pc) && Decode(s.mem[s.pc]).Some?
    ensures t.signal.Continue? && t.signal.out != [] ==> Decode(s.mem[s.pc]) == Some(Prn)
  {
    if !IsAddr(s.pc) then Stay(s, Fault)
    else
      var ir := s.mem[s.pc];
      match Decode(ir)
      case None => Stay(s, Signal.Unimplemented(ir, s.pc))
      case Some(Hlt) => Stay(s, Halt)
      case Some(Ldi) => StepLdi(s)
      case Some(Prn) => StepPrn(s)
      case Some(Mul) => StepAlu(s, "MUL")
      case Some(Add) => StepAlu(s, "ADD")
      case Some(Push) => StepPush(s)
      case Some(Pop) => StepPop(s)
      case Some(Call) => StepCall(s)
      case Some(Ret) => StepRet(s)
      case Some(Cmp) => StepAlu(s, "CMP")
      case Some(Jmp) => StepJump(s)
      case Some(Jeq) => if s.fl == 0x01 then StepJump(s) else Advance(s.(pc := s.pc + 2), [])
      case Some(Jne) => if s.fl != 0x01 then StepJump(s) else Advance(s.(pc := s.pc + 2), [])
  }

  // ------------------------------------------------------------------ a run

  /** Why a run ended: HLT, an opcode outside the table (with the opcode and
      PC the source reports), a fault, or no fuel left. */
  datatype Status = Halted | Unimplemented(opcode: int, pc: int) | Faulted | OutOfFuel

  datatype Outcome = Outcome(final: State, output: seq<int>, status: Status)

  /** r with out printed before everything r printed. */
  function Prepend(out: seq<int>, r: Outcome): Outcome
  {
    Outcome(r.final, out + r.output, r.status)
  }

  /** The run loop for at most fuel steps. */
  function RunFor(s: State, fuel: nat): (r: Outcome)
    requires s.Valid()
    ensures r.final.Valid()
    decreases fuel
  {
    if fuel == 0 then Outcome(s, [], OutOfFuel)
    else
      var t := Exec(s);
      match t.signal
      case Continue(out) => Prepend(out, RunFor(t.next, fuel - 1))
      case Halt => Outcome(s, [], Halted)
      case Unimplemented(opcode, pc) => Outcome(s, [], Status.Unimplemented(opcode, pc))
      case Fault => Outcome(s, [], Faulted)
  }
}
