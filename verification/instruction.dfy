/**
 * Instructions: the opcode a visited point compiles to, the instruction
 * record with its two radii, and the effect each opcode has on the state of
 * a running program (program counter, stack, remaining input, output).
 * The effects are stated here as functions; the class `Program` performs
 * them in place and is proved to agree with them.
 */
module Instructions {
  import opened Geom
  import opened Stacks

  /** The closures the Go code stores, as a closed set of tags. */
  datatype Opcode =
    | Push(n: int)
    | Dup
    | Swap(n: int)
    | Sub
    | Greater
    | JumpZero(n: int)
    | GetChar
    | PutChar
    | Nop

  datatype Instruction = Instruction(chebyshevRadius: int, manhattanRadius: int, point: Point, op: Opcode)

  predicate HasOperand(op: Opcode) {
    op.Push? || op.Swap? || op.JumpZero?
  }

  /** The opcode chosen by `MakeInstruction` for a point in `area`, reached
      after `stepCount` moves. */
  function OpcodeFor(area: Area, stepCount: int): Opcode {
    match area
    case ENE => Push(stepCount)
    case NNE => Dup
    case NNW => Swap(stepCount)
    case WNW => Sub
    case WSW => Greater
    case SSW => JumpZero(stepCount)
    case SSE => GetChar
    case ESE => PutChar
    case OnLine => Nop
  }

  /** The area an opcode comes from: the inverse of `OpcodeFor`. */
  function AreaFor(op: Opcode): Area {
    match op
    case Push(_) => ENE
    case Dup => NNE
    case Swap(_) => NNW
    case Sub => WNW
    case Greater => WSW
    case JumpZero(_) => SSW
    case GetChar => SSE
    case PutChar => ESE
    case Nop => OnLine
  }

  /** `MakeInstruction(p, stepCount)`. */
  function MakeInstruction(p: Point, stepCount: int): Instruction {
    Instruction(Chebyshev(Origin, p), Manhattan(Origin, p), p, OpcodeFor(AreaOf(p), stepCount))
  }

  /** The instruction made for a point: the radii are the point's distances
      from the origin; the opcode is determined by the point's area alone (the
      area can be read back from it), it is Nop exactly on the four lines,
      and it carries `stepCount` exactly for Push, Swap and JumpZero. */
  lemma InstructionShape(p: Point, stepCount: int)
    ensures MakeInstruction(p, stepCount).point == p
    ensures MakeInstruction(p, stepCount).chebyshevRadius == Max(Abs(p.x), Abs(p.y))
    ensures MakeInstruction(p, stepCount).manhattanRadius == Abs(p.x) + Abs(p.y)
    ensures AreaFor(MakeInstruction(p, stepCount).op) == AreaOf(p)
    ensures MakeInstruction(p, stepCount).op == Nop <==> p.x == 0 || p.y == 0 || Abs(p.x) == Abs(p.y)
    ensures HasOperand(MakeInstruction(p, stepCount).op) <==> AreaOf(p) in {ENE, NNW, SSW}
    ensures HasOperand(MakeInstruction(p, stepCount).op) ==> MakeInstruction(p, stepCount).op.n == stepCount
  {
    AreaRegions(p);
  }

  /** The state a running program changes: the program counter, the stack,
      the input not yet read and the output written so far. */
  datatype Machine = Machine(pc: int, stack: seq<Value>, input: seq<Value>, output: seq<int>)

  /** What one effect reports, with the state after it. */
  datatype Transition = Transition(status: Status, after: Machine)

  predicate IsScalar(c: int) {
    0 <= c <= 0x10FFFF && !(0xD800 <= c <= 0xDFFF)
  }

  /** The code point written for a value: Go's conversion of a rune to a
      string writes U+FFFD for anything that is not a Unicode scalar value. */
  function Encoded(c: Value): (r: int)
    ensures IsScalar(r)
    ensures IsScalar(c) ==> r == c
  {
    if IsScalar(c) then c else 0xFFFD
  }

  /** Instructions are in ascending order of Chebyshev radius, as the jump
      search needs. */
  ghost predicate ChebyshevAscending(instrs: seq<Instruction>) {
    forall j, k :: 0 <= j < k < |instrs| ==> instrs[j].chebyshevRadius <= instrs[k].chebyshevRadius
  }

  /** The jump target: the first index whose Chebyshev radius is at least
      `n`, or the length when there is none. */
  function FirstAtLeast(instrs: seq<Instruction>, n: int): (i: nat)
    ensures i <= |instrs|
    ensures forall k :: 0 <= k < i ==> instrs[k].chebyshevRadius < n
    ensures i < |instrs| ==> n <= instrs[i].chebyshevRadius
  {
    if |instrs| == 0 then 0
    else if n <= instrs[0].chebyshevRadius then 0
    else 1 + FirstAtLeast(instrs[1..], n)
  }

  /** The lower-bound search `sort.Search` performs for a jump: a binary
      search for the first index with Chebyshev radius at least `n`. */
  method Search(instrs: seq<Instruction>, n: int) returns (i: nat)
    requires ChebyshevAscending(instrs)
    ensures i == FirstAtLeast(instrs, n)
  {
    var lo, hi := 0, |instrs|;
    while lo < hi
      invariant 0 <= lo <= hi <= |instrs|
      invariant forall k :: 0 <= k < lo ==> instrs[k].chebyshevRadius < n
      invariant forall k :: hi <= k < |instrs| ==> n <= instrs[k].chebyshevRadius
    {
      var h := (lo + hi) / 2;
      if instrs[h].chebyshevRadius < n {
        lo := h + 1;
      } else {
        hi := h;
      }
    }
    var f: int := FirstAtLeast(instrs, n);
    assert lo < |instrs| ==> n <= instrs[lo].chebyshevRadius;
    assert f < |instrs| ==> n <= instrs[f].chebyshevRadius;
    i := lo;
  }

  /** The effect of executing `op` (the closures `MakeExecPush` ... `ExecNop`).
      A failing effect changes nothing; only a jump touches the program
      counter, and only to one before its target; at most one input value
      is consumed and at most one output value is appended. */
  function Effect(instrs: seq<Instruction>, op: Opcode, m: Machine): (t: Transition)
    ensures t.status != Ok ==> t.after == m
    ensures !op.JumpZero? ==> t.after.pc == m.pc
    ensures op.JumpZero? ==> t.after.pc == m.pc || t.after.pc == FirstAtLeast(instrs, op.n) - 1
    ensures t.after.input == m.input || (m.input != [] && t.after.input == m.input[1..])
    ensures t.after.output == m.output || (|t.after.output| == |m.output| + 1 && t.after.output[..|m.output|] == m.output)
  {
    match op
    case Push(n) => Transition(Ok, m.(stack := PushOf(m.stack, Wrap(n))))
    case Dup => var u := DupOf(m.stack); Transition(u.status, m.(stack := u.mem))
    case Swap(n) => var u := SwapOf(m.stack, n); Transition(u.status, m.(stack := u.mem))
    case Sub => var u := SubOf(m.stack); Transition(u.status, m.(stack := u.mem))
    case Greater => var u := GreaterOf(m.stack); Transition(u.status, m.(stack := u.mem))
    case JumpZero(n) =>
      var t := TopOf(m.stack);
      if t.status != Ok then Transition(t.status, m)
      else if t.value == 0 then Transition(Ok, m.(pc := FirstAtLeast(instrs, n) - 1))
      else Transition(Ok, m)
    case GetChar =>
      if m.input == [] then Transition(Ok, m.(stack := PushOf(m.stack, 0)))
      else Transition(Ok, m.(stack := PushOf(m.stack, m.input[0]), input := m.input[1..]))
    case PutChar =>
      var t := PopOf(m.stack);
      if t.status != Ok then Transition(t.status, m)
      else Transition(Ok, m.(stack := t.mem, output := m.output + [Encoded(t.value)]))
    case Nop => Transition(Ok, m)
  }

  /** One step (`Program.Step`): execute the instruction at the program
      counter, then advance the counter by one whether or not it failed.
      The counter stays within [0, len]; a failure only advances it. */
  function StepFrom(instrs: seq<Instruction>, m: Machine): (t: Transition)
    requires 0 <= m.pc < |instrs|
    ensures 0 <= t.after.pc <= |instrs|
    ensures t.status != Ok ==> t.after == m.(pc := m.pc + 1)
    ensures !instrs[m.pc].op.JumpZero? ==> t.after.pc == m.pc + 1
  {
    var e := Effect(instrs, instrs[m.pc].op, m);
    Transition(e.status, e.after.(pc := e.after.pc + 1))
  }

  /** Push(n) pushes `Value(n)`, the operand wrapped to 32 bits. */
  lemma PushStep(instrs: seq<Instruction>, m: Machine)
    requires 0 <= m.pc < |instrs| && instrs[m.pc].op.Push?
    ensures StepFrom(instrs, m) == Transition(Ok, m.(pc := m.pc + 1, stack := m.stack + [Wrap(instrs[m.pc].op.n)]))
  {
  }

  /** Nop changes nothing but the program counter. */
  lemma NopStep(instrs: seq<Instruction>, m: Machine)
    requires 0 <= m.pc < |instrs| && instrs[m.pc].op == Nop
    ensures StepFrom(instrs, m) == Transition(Ok, m.(pc := m.pc + 1))
  {
  }

  /** Dup pushes a copy of the top, or fails on an empty stack; either way
      the counter advances. */
  lemma DupStep(instrs: seq<Instruction>, m: Machine)
    requires 0 <= m.pc < |instrs| && instrs[m.pc].op == Dup
    ensures StepFrom(instrs, m) == Transition(DupOf(m.stack).status, m.(pc := m.pc + 1, stack := DupOf(m.stack).mem))
  {
  }

  /** Swap(n) exchanges the top with the element n - 1 below it, or fails
      with OutOfRange; either way the counter advances. */
  lemma SwapStep(instrs: seq<Instruction>, m: Machine)
    requires 0 <= m.pc < |instrs| && instrs[m.pc].op.Swap?
    ensures var u := SwapOf(m.stack, instrs[m.pc].op.n);
            StepFrom(instrs, m) == Transition(u.status, m.(pc := m.pc + 1, stack := u.mem))
  {
  }

  /** Sub replaces the top two values b, a by b - a, or fails leaving the
      stack as it was; either way the counter advances. */
  lemma SubStep(instrs: seq<Instruction>, m: Machine)
    requires 0 <= m.pc < |instrs| && instrs[m.pc].op == Sub
    ensures StepFrom(instrs, m) == Transition(SubOf(m.stack).status, m.(pc := m.pc + 1, stack := SubOf(m.stack).mem))
  {
  }

  /** Greater replaces the top two values b, a by 1 if b > a and 0
      otherwise, or fails leaving the stack as it was; either way the counter
      advances. */
  lemma GreaterStep(instrs: seq<Instruction>, m: Machine)
    requires 0 <= m.pc < |instrs| && instrs[m.pc].op == Greater
    ensures StepFrom(instrs, m) == Transition(GreaterOf(m.stack).status, m.(pc := m.pc + 1, stack := GreaterOf(m.stack).mem))
  {
  }

  /** A jump with zero on top lands on the first instruction whose Chebyshev
      radius reaches the operand, or on the end when there is none; the stack
      is untouched. */
  lemma JumpZeroTaken(instrs: seq<Instruction>, m: Machine)
    requires 0 <= m.pc < |instrs| && instrs[m.pc].op.JumpZero?
    requires |m.stack| > 0 && m.stack[|m.stack| - 1] == 0
    ensures StepFrom(instrs, m) == Transition(Ok, m.(pc := FirstAtLeast(instrs, instrs[m.pc].op.n)))
    ensures var pc := StepFrom(instrs, m).after.pc;
            && (pc == |instrs| || instrs[m.pc].op.n <= instrs[pc].chebyshevRadius)
            && forall k :: 0 <= k < pc ==> instrs[k].chebyshevRadius < instrs[m.pc].op.n
  {
    var n := instrs[m.pc].op.n;
    var f: int := FirstAtLeast(instrs, n);
    assert Effect(instrs, JumpZero(n), m) == Transition(Ok, m.(pc := f - 1));
    assert StepFrom(instrs, m) == Transition(Ok, m.(pc := f));
  }

  /** A jump with a non-zero top only advances. */
  lemma JumpZeroNotTaken(instrs: seq<Instruction>, m: Machine)
    requires 0 <= m.pc < |instrs| && instrs[m.pc].op.JumpZero?
    requires |m.stack| > 0 && m.stack[|m.stack| - 1] != 0
    ensures StepFrom(instrs, m) == Transition(Ok, m.(pc := m.pc + 1))
  {
  }

  /** A jump on an empty stack fails and only advances. */
  lemma JumpZeroOnEmpty(instrs: seq<Instruction>, m: Machine)
    requires 0 <= m.pc < |instrs| && instrs[m.pc].op.JumpZero? && m.stack == []
    ensures StepFrom(instrs, m) == Transition(Fail(InsufficientStack), m.(pc := m.pc + 1))
  {
  }

  /** GetChar pushes the next input value and consumes it, or pushes 0 at
      the end of the input. */
  lemma GetCharStep(instrs: seq<Instruction>, m: Machine)
    requires 0 <= m.pc < |instrs| && instrs[m.pc].op == GetChar
    ensures m.input == [] ==>
              StepFrom(instrs, m) == Transition(Ok, m.(pc := m.pc + 1, stack := m.stack + [0]))
    ensures m.input != [] ==>
              StepFrom(instrs, m) == Transition(Ok, m.(pc := m.pc + 1, stack := m.stack + [m.input[0]], input := m.input[1..]))
  {
  }

  /** PutChar pops the top and writes it; on an empty stack it fails with
      stack and output unchanged. */
  lemma PutCharStep(instrs: seq<Instruction>, m: Machine)
    requires 0 <= m.pc < |instrs| && instrs[m.pc].op == PutChar
    ensures m.stack == [] ==>
              StepFrom(instrs, m) == Transition(Fail(InsufficientStack), m.(pc := m.pc + 1))
    ensures m.stack != [] ==>
              StepFrom(instrs, m) ==
                Transition(Ok, m.(pc := m.pc + 1, stack := m.stack[..|m.stack| - 1],
                                  output := m.output + [Encoded(m.stack[|m.stack| - 1])]))
  {
  }

  /** The jump resolves to the nearest radius at or above the operand: with
      radii 1 and 5, operand 3 resolves to index 1. */
  lemma NearestOrGreater(instrs: seq<Instruction>)
    requires |instrs| == 2 && instrs[0].chebyshevRadius == 1 && instrs[1].chebyshevRadius == 5
    ensures FirstAtLeast(instrs, 3) == 1
  {
  }
}
