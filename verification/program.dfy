/**
 * The running program: the sorted instruction list, the program counter,
 * the stack, the input not yet read and the output written so far. `Exec`
 * performs one opcode in place, `Step` one instruction, `Run` the loop of
 * steps; each is proved to agree with its function over `Machine` states
 * (`Effect`, `StepFrom`, `RunFrom`).
 */
module Programs {
  import opened Geom
  import opened Stacks
  import opened Instructions
  import opened Compiler

  datatype Config = Config(strictMode: bool, debugMode: bool)

  /** How a run ends: the counter reached the end, a step failed in strict
      mode, or the step budget ran out first. */
  datatype RunOutcome = Finished | Aborted(error: StackError) | OutOfFuel

  datatype Stop = Stop(outcome: RunOutcome, final: Machine)

  /** A step function that keeps the counter within [0, len] whenever it
      starts inside the list. */
  ghost predicate Bounded(step: Machine -> Transition, len: int)
  {
    forall m: Machine :: 0 <= m.pc < len ==> 0 <= step(m).after.pc <= len
  }

  /** The loop of `Run` over any step function, from state `m`, for at most
      `fuel` steps. Strict mode ends at the first failing step, after that
      step has moved the counter; lenient mode goes on. The counter stays
      within [0, len]; a finished run has it at the end; lenient mode never
      aborts. */
  ghost function Iterate(step: Machine -> Transition, len: int, strict: bool, fuel: nat, m: Machine): (r: Stop)
    requires Bounded(step, len) && 0 <= m.pc <= len
    ensures 0 <= r.final.pc <= len
    ensures r.outcome.Finished? <==> r.final.pc == len && !r.outcome.Aborted?
    ensures !strict ==> !r.outcome.Aborted?
    decreases fuel
  {
    if m.pc == len then Stop(Finished, m)
    else if fuel == 0 then Stop(OutOfFuel, m)
    else
      var t := step(m);
      if t.status != Ok && strict then Stop(Aborted(t.status.error), t.after)
      else Iterate(step, len, strict, fuel - 1, t.after)
  }

  /** A strict run that does not abort is the lenient run: the modes differ
      only in stopping at an error. */
  lemma {:induction false} StrictAgreesWithLenient(step: Machine -> Transition, len: int, fuel: nat, m: Machine)
    requires Bounded(step, len) && 0 <= m.pc <= len
    requires !Iterate(step, len, true, fuel, m).outcome.Aborted?
    ensures Iterate(step, len, true, fuel, m) == Iterate(step, len, false, fuel, m)
    decreases fuel
  {
    if m.pc < len && fuel > 0 {
      StrictAgreesWithLenient(step, len, fuel - 1, step(m).after);
    }
  }

  /** A run that ended before its budget ran out ends the same way with any
      larger budget: the budget only bounds the run, it does not change it. */
  lemma {:induction false} MoreFuelSameStop(step: Machine -> Transition, len: int, strict: bool, fuel: nat, more: nat, m: Machine)
    requires Bounded(step, len) && 0 <= m.pc <= len && fuel <= more
    requires !Iterate(step, len, strict, fuel, m).outcome.OutOfFuel?
    ensures Iterate(step, len, strict, more, m) == Iterate(step, len, strict, fuel, m)
    decreases fuel
  {
    if m.pc < len {
      var t := step(m);
      if !(t.status != Ok && strict) {
        MoreFuelSameStop(step, len, strict, fuel - 1, more - 1, t.after);
      }
    }
  }

  /** `Program.Step` as a step function: `StepFrom` inside the list. */
  function StepOf(instrs: seq<Instruction>): (step: Machine -> Transition)
    ensures Bounded(step, |instrs|)
  {
    (m: Machine) => if 0 <= m.pc < |instrs| then StepFrom(instrs, m) else Transition(Ok, m)
  }

  /** The run of a compiled program: `Iterate` over `StepFrom`. */
  ghost function RunFrom(instrs: seq<Instruction>, strict: bool, fuel: nat, m: Machine): (r: Stop)
    requires 0 <= m.pc <= |instrs|
  {
    Iterate(StepOf(instrs), |instrs|, strict, fuel, m)
  }

  /** In strict mode a failing step ends the run at once, with the counter
      already advanced past the failing instruction. */
  lemma StrictStopsAtError(instrs: seq<Instruction>, fuel: nat, m: Machine)
    requires 0 <= m.pc < |instrs| && fuel > 0
    requires StepFrom(instrs, m).status != Ok
    ensures RunFrom(instrs, true, fuel, m) ==
              Stop(Aborted(StepFrom(instrs, m).status.error), m.(pc := m.pc + 1))
  {
  }

  class Program {
    const instructions: seq<Instruction>
    var pc: int
    const stack: Stack
    var input: seq<Value>
    var output: seq<int>
    const config: Config

    /** The jump search needs the instructions ascending by Chebyshev radius;
        the counter stays within [0, len] between steps. */
    ghost predicate Valid()
      reads this
    {
      ChebyshevAscending(instructions) && 0 <= pc <= |instructions|
    }

    /** The state the specification functions act on. */
    function State(): Machine
      reads this, stack
    {
      Machine(pc, stack.mem, input, output)
    }

    /** The `Program` value `Compile` builds: counter at the start, an empty
        stack, the given input and nothing written. */
    constructor (instrs: seq<Instruction>, stdin: seq<Value>, cfg: Config)
      requires ChebyshevAscending(instrs)
      ensures Valid() && fresh(stack)
      ensures instructions == instrs && config == cfg
      ensures State() == Machine(0, [], stdin, [])
    {
      instructions := instrs;
      pc := 0;
      stack := new Stack();
      input := stdin;
      output := [];
      config := cfg;
    }

    /** The `Exec` closure of an instruction with opcode `op`. */
    method Exec(op: Opcode) returns (status: Status)
      requires ChebyshevAscending(instructions)
      modifies this, stack
      ensures Transition(status, State()) == Effect(instructions, op, old(State()))
    {
      match op
      case Push(n) =>
        stack.Push(Wrap(n));
        status := Ok;
      case Dup =>
        status := stack.Dup();
      case Swap(n) =>
        status := stack.Swap(n);
      case Sub =>
        status := stack.Sub();
      case Greater =>
        status := stack.Greater();
      case JumpZero(n) =>
        var v, err := stack.Top();
        if err != Ok {
          return err;
        }
        if v == 0 {
          var target := Search(instructions, n);
          pc := -1 + target as int;
        }
        status := Ok;
      case GetChar =>
        var c: Value := 0;
        if input != [] {
          c := input[0];
          input := input[1..];
        }
        stack.Push(c);
        status := Ok;
      case PutChar =>
        var c, err := stack.Pop();
        if err != Ok {
          return err;
        }
        output := output + [Encoded(c)];
        status := Ok;
      case Nop =>
        status := Ok;
    }

    /** `Step`: execute the instruction at the counter, then advance the
        counter whether or not it failed. */
    method Step() returns (status: Status)
      requires Valid() && pc < |instructions|
      modifies this, stack
      ensures Valid()
      ensures Transition(status, State()) == StepFrom(instructions, old(State()))
    {
      status := Exec(instructions[pc].op);
      pc := pc + 1;
    }

    /** `Run`: step while the counter is inside the list, for at most `fuel`
        steps; in strict mode return at the first failing step. */
    method Run(fuel: nat) returns (outcome: RunOutcome)
      requires Valid()
      modifies this, stack
      ensures Valid()
      ensures Stop(outcome, State()) == RunFrom(instructions, config.strictMode, fuel, old(State()))
    {
      var left := fuel;
      while pc < |instructions|
        invariant Valid()
        invariant RunFrom(instructions, config.strictMode, fuel, old(State())) ==
                  RunFrom(instructions, config.strictMode, left, State())
        decreases left
      {
        if left == 0 {
          return OutOfFuel;
        }
        var status := Step();
        left := left - 1;
        if status != Ok && config.strictMode {
          return Aborted(status.error);
        }
      }
      return Finished;
    }
  }

  /** `Compile` returning a `Program`: the compiled, sorted instructions with
      the counter at the start, or the compile error. */
  method Load(code: seq<char>, stdin: seq<Value>, cfg: Config) returns (prog: Program?, err: Option<CompileError>)
    ensures Trace(code).Failed? ==> prog == null && err == Some(Trace(code).error)
    ensures Trace(code).Going? && !Trace(code).scan.originVisited ==> prog == null && err == Some(MissingTermination)
    ensures Trace(code).Going? && Trace(code).scan.originVisited ==>
              && err == None && prog != null && fresh(prog) && fresh(prog.stack) && prog.Valid()
              && StrictlyAscending(prog.instructions)
              && multiset(prog.instructions) == multiset(Trace(code).scan.instrs)
              && prog.config == cfg
              && prog.State() == Machine(0, [], stdin, [])
  {
    var r := Compile(code);
    if r.Failure? {
      return null, Some(r.error);
    }
    StrictlyAscendingByChebyshev(r.instructions);
    prog := new Program(r.instructions, stdin, cfg);
    err := None;
  }

  /** The instruction emitted for (2, 1) after three moves is Push(3), and
      running it alone leaves 3 on the stack. */
  lemma PushThreeProgram(stdin: seq<Value>, strict: bool)
    ensures MakeInstruction(Point(2, 1), 3) == Instruction(2, 3, Point(2, 1), Push(3))
    ensures RunFrom([MakeInstruction(Point(2, 1), 3)], strict, 1, Machine(0, [], stdin, [])) ==
              Stop(Finished, Machine(1, [3], stdin, []))
  {
  }

  /** Five steps east end on the x-axis: the instruction emitted for (5, 0)
      is a Nop at radius 5, and running it leaves the stack empty. */
  lemma EastAxisProgram(stdin: seq<Value>, strict: bool)
    ensures MakeInstruction(Point(5, 0), 5) == Instruction(5, 5, Point(5, 0), Nop)
    ensures RunFrom([MakeInstruction(Point(5, 0), 5)], strict, 1, Machine(0, [], stdin, [])) ==
              Stop(Finished, Machine(1, [], stdin, []))
  {
  }
}
