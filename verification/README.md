# tsp — a model of the travelling-salesperson language

The `tsp` package compiles a two-dimensional "walk" language and runs the
result on a small stack machine. A source is a string of moves (`A` left,
`S` down, `D` right, `W` up) and visit markers (`$`); every other byte is
ignored. The salesperson starts at the origin. Each visit of a point other
than the origin becomes one instruction, and the visit of the origin ends the
path. The point's octant around the origin picks the opcode, and the number
of moves since the previous visit is the operand. The instructions are then
sorted by their Chebyshev radius and, within one radius, by their Manhattan
radius. Two visits with the same pair of radii are rejected. At run time a
program counter walks the sorted list. Each step executes one instruction on
a stack of 32-bit values, reads code points from the input and writes code
points to the output.

The model has five modules:

- `Geom` (`geom.dfy`) covers points, vectors, both metrics and the nine areas.
- `Stacks` (`stack.dfy`) covers the value stack:
  - pure functions over `seq<Value>` say what each operation does;
  - the class `Stack` mutates its `mem` field the way the Go slice is mutated.
  - Each method is proved equal to its function.
- `Instructions` (`instruction.dfy`) covers three things:
  - the opcode a point compiles to;
  - the effect of each opcode on a `Machine` state, which is counter, stack, remaining input and output;
  - the binary search behind a jump.
- `Compiler` (`compile.dfy`) covers compilation:
  - `Trace` is the scan of the source as a fold over its characters;
  - `ScanCode` is the imperative loop of `Compile`, proved equal to `Trace`;
  - `Compile` adds the termination check and an in-place sort.
- `Programs` (`program.dfy`) covers running a program:
  - the class `Program` has `Exec`, `Step` and `Run`, each proved against `Effect`, `StepFrom` and `RunFrom`;
  - `Iterate` is the run loop over any step function, and the fuel and strict-mode lemmas are proved about it;
  - `Load` builds a `Program` from a source.

Values are Go `rune`s, that is, `int32`. `Value` is the subset type of
`int` with that range. `Wrap` is two's-complement wrap-around, and it is
used for `Value(n)` in `Push` and for the subtraction in `Sub`. Coordinates,
step counts and radii are Go `int`s and are modelled as unbounded `int`.

The point (5, 0), reached by five moves east, lies on the x-axis, where
`Area` (geom.go:62-88) gives `AreaOnLine`. Its instruction is therefore a
`Nop` at radius 5, not a push (`Programs.EastAxisProgram`). A point inside the
ENE octant, such as (2, 1), does give a push (`Programs.PushThreeProgram`).

## Model

| member | source | states |
|---|---|---|
| Geom.AddMovesByLength | geom.go:17-19 | the point reached by `Add` lies at the vector's own Chebyshev and Manhattan length from the start; only the zero vector stays put |
| Geom.Add | geom.go:17-19 | `p.Add(v)`; its contract is in `AddMovesByLength` |
| Geom.Abs | geom.go:21-26 | the result is non-negative and equals n or -n |
| Geom.Max | geom.go:28-33 | the result is at least both arguments and is one of them |
| Geom.Chebyshev | geom.go:36-38 | the Chebyshev distance is non-negative and zero exactly for equal points |
| Geom.Manhattan | geom.go:41-43 | the Manhattan distance is non-negative and zero exactly for equal points |
| Geom.DistancesSymmetric | geom.go:36-43 | both distances are symmetric |
| Geom.DistancesBoundEachOther | geom.go:36-43 | Chebyshev <= Manhattan <= 2 * Chebyshev |
| Geom.AreaRegions | geom.go:62-89 | OnLine exactly on the axes and diagonals; each octant exactly for its sign and magnitude condition, so every other point falls in exactly one octant |
| Geom.AreaOf | geom.go:62-89 | `p.Area()`, the same nested sign and magnitude tests; its contract is in `AreaRegions` |
| Geom.AreaTable | geom_test.go:16-63 | the twelve expected areas of the unit test |
| Stacks.Wrap | tsp.go:32 | the result is a 32-bit value congruent to the input modulo 2^32, and equal to it when it is in range |
| Stacks.PushOf | stack.go:18-20 | the value goes on top and the rest is unchanged |
| Stacks.PopOf | stack.go:22-29 | succeeds exactly on a non-empty stack, returning the top and the rest; otherwise fails with InsufficientStack and leaves the stack unchanged |
| Stacks.TopOf | stack.go:31-36 | never changes the stack; returns the top when non-empty, otherwise InsufficientStack and 0 |
| Stacks.SwapOf | stack.go:38-45 | valid exactly for 0 < i <= len; exchanges the top with the element i - 1 places below it and nothing else; otherwise OutOfRange and no change |
| Stacks.DupOf | stack.go:47-54 | on a non-empty stack pushes a copy of the top; otherwise InsufficientStack and no change |
| Stacks.SubOf | stack.go:56-68 | with two or more elements replaces b, a by b - a wrapped to 32 bits; with fewer the stack is restored exactly and the error is InsufficientStack |
| Stacks.GreaterOf | stack.go:70-86 | with two or more elements replaces b, a by 1 if b > a and 0 otherwise; with fewer the stack is restored and the error is InsufficientStack |
| Stacks.PushThenPop | stack.go:18-29 | Pop after Push returns the pushed value and restores the stack |
| Stacks.SwapOneIsIdentity | stack.go:38-45 | Swap(1) of a non-empty stack changes nothing |
| Stacks.SwapTwiceIsIdentity | stack.go:38-45 | a successful swap done twice restores the stack |
| Stacks.Stack.constructor | stack.go:14-16 | a new stack is empty |
| Stacks.Stack.Push | stack.go:18-20 | the new contents are `PushOf` of the old |
| Stacks.Stack.Pop | stack.go:22-29 | the value, status and new contents are those of `PopOf` |
| Stacks.Stack.Top | stack.go:31-36 | the value and status are those of `TopOf`; the contents are unchanged |
| Stacks.Stack.Swap | stack.go:38-45 | the status and new contents are those of `SwapOf` |
| Stacks.Stack.Dup | stack.go:47-54 | the status and new contents are those of `DupOf` |
| Stacks.Stack.Sub | stack.go:56-68 | the status and new contents are those of `SubOf`, including the re-push on failure |
| Stacks.Stack.Greater | stack.go:70-86 | the status and new contents are those of `GreaterOf` |
| Instructions.InstructionShape | instruction.go:89-124 | the radii are the point's distances from the origin; the opcode's area is the point's area; Nop exactly on the lines; an operand exactly for Push, Swap and JumpZero, and it is the step count |
| Instructions.MakeInstruction | instruction.go:89-124 | `MakeInstruction(p, stepCount)`; its contract is in `InstructionShape` |
| Instructions.OpcodeFor | instruction.go:92-117 | the switch on the area choosing the closure; its contract is in `InstructionShape` (the area read back by `AreaFor`, the operand for Push, Swap and JumpZero) |
| Instructions.Encoded | instruction.go:78 | the written code point is always a Unicode scalar value, and it is the value itself when that is one |
| Instructions.FirstAtLeast | instruction.go:54-56 | the first index whose Chebyshev radius is at least n: every earlier radius is below n; the index is the length or its radius reaches n |
| Instructions.Search | instruction.go:54-56 | the binary search over ascending radii returns `FirstAtLeast` |
| Instructions.Effect | instruction.go:22-87 | a failing effect changes nothing; only JumpZero moves the counter, and only to one before the search result; at most one input value is consumed and at most one output value appended |
| Instructions.StepFrom | tsp.go:74-83 | the counter stays within [0, len]; a failed step only advances the counter; every opcode but JumpZero advances it by one |
| Instructions.PushStep | instruction.go:22-27 | Push(n) pushes n wrapped to 32 bits and succeeds |
| Instructions.NopStep | instruction.go:85-87 | Nop changes only the counter |
| Instructions.DupStep | instruction.go:29-31 | Dup gives the status and contents of `DupOf` and advances the counter |
| Instructions.SwapStep | instruction.go:33-37 | Swap(n) gives the status and contents of `SwapOf` with the operand and advances the counter |
| Instructions.SubStep | instruction.go:39-41 | Sub gives the status and contents of `SubOf` and advances the counter |
| Instructions.GreaterStep | instruction.go:43-45 | Greater gives the status and contents of `GreaterOf` and advances the counter |
| Instructions.JumpZeroTaken | instruction.go:47-60 | with 0 on top the next counter is the first index whose radius reaches the operand, or the end; the stack is untouched |
| Instructions.JumpZeroNotTaken | instruction.go:47-60 | with a non-zero top the step only advances |
| Instructions.JumpZeroOnEmpty | instruction.go:49-52 | on an empty stack the jump fails with InsufficientStack and only advances |
| Instructions.GetCharStep | instruction.go:62-71 | pushes the next input value and consumes it, or pushes 0 at the end of the input |
| Instructions.PutCharStep | instruction.go:73-83 | pops the top and appends its encoding to the output; on an empty stack fails with output and stack unchanged |
| Instructions.NearestOrGreater | instruction.go:54-56 | with radii 1 and 5 a jump operand of 3 resolves to index 1 |
| Compiler.SlotNamesKey | tsp.go:121-122 | a recorded slot lies within the instruction list and names an instruction with that key |
| Compiler.KeyHasSlot | tsp.go:130 | every emitted instruction's key is recorded |
| Compiler.OriginSlot | tsp.go:130-133 | the origin's key is recorded exactly when the origin was visited, at the slot after the last instruction |
| Compiler.VisitKeepsInv | tsp.go:118-137 | a visit keeps the instructions off the origin with distinct keys |
| Compiler.VisitPoint | tsp.go:118-137 | the `VISIT` case of the loop; its contract is in `RepeatedKeyFails`, `OriginVisitCloses`, `EmitStep` and `VisitKeepsInv` |
| Compiler.ScanChar | tsp.go:107-146 | the body of the loop for one byte; its contract is in `InertCharacter`, `MoveStep`, `MoveAfterOriginStops` and the visit lemmas |
| Compiler.TraceUpTo | tsp.go:107-146 | the loop over the first n bytes; its contract is in `TraceInv`, `OpenPath` and `Settled` |
| Compiler.Trace | tsp.go:107-147 | the loop over the whole source; `ScanCode` is proved to compute it |
| Compiler.TraceInv | tsp.go:107-147 | every reached scan state has distinct keys, lies at the origin once the origin is visited, and stops only after that visit |
| Compiler.Settled | tsp.go:139-143 | once the scan has failed or stopped, the rest of the source is not read |
| Compiler.OpenPath | tsp.go:107-146 | until the origin is visited, the point is the sum of the moves read, the step count is the number of moves since the last visit, and there is one instruction per visit |
| Compiler.InertCharacter | tsp.go:107-109 | a byte other than a move or a visit changes nothing |
| Compiler.MoveStep | tsp.go:139-146 | before the origin visit a move advances the point by its vector and counts one step |
| Compiler.EmitStep | tsp.go:135-137 | a visit with a new key away from the origin appends the point's instruction and restarts the count |
| Compiler.CloseStep | tsp.go:130-133 | the first visit of the origin, whose key is not yet recorded, marks the origin visited and changes nothing else |
| Compiler.StopStep | tsp.go:139-143 | a move after the origin visit halts the scan and changes nothing else |
| Compiler.VisitEmits | tsp.go:118-137 | the emitted instruction is `MakeInstruction` of the walked displacement, with the number of moves since the previous visit as its operand |
| Compiler.OriginVisitCloses | tsp.go:130-133 | the first visit of the origin emits nothing and ends the path |
| Compiler.RepeatedKeyFails | tsp.go:119-129 | a visit fails exactly when its key was recorded; away from the origin the error names the earlier instruction's slot and point, with the same key, and the slot the new one would take |
| Compiler.MoveAfterOriginStops | tsp.go:139-143 | a move after the origin visit stops the scan, and the rest of the source is ignored |
| Compiler.GoingBefore | tsp.go:119-129 | the loop returns on a failure, so a scan still going after n bytes was going after every shorter prefix |
| Compiler.InstrsGrow | tsp.go:134-136 | instructions are only appended: every later state starts with the instructions of an earlier one |
| Compiler.OpenStep | tsp.go:118-134 | before the origin visit a byte that is not a `$` at the origin leaves the origin flag unset or fails |
| Compiler.NoOriginVisit | tsp.go:130-133 | when no `$` among the first n bytes is read at the origin, the scan has failed or the origin flag is unset |
| Compiler.OriginVisitRequired | tsp.go:130-150 | a scan of the whole source that does not fail has the origin flag only if some `$` is read at the origin; otherwise `Compile` reports MissingTermination |
| Compiler.RevisitOrigin | tsp.go:119-121 | a `$` at the origin after the origin visit fails as a second visit of the origin |
| Compiler.ClosedStep | tsp.go:107-146 | after the origin visit a byte leaves the state as it is, halts it, or fails as a second visit of the origin |
| Compiler.AfterOriginFrozen | tsp.go:130-143 | after the origin visit every later state still going keeps the flag and exactly the same instructions |
| Compiler.FrozenToEnd | tsp.go:130-147 | after the origin visit a scan of the whole source that does not fail ends with the same instructions |
| Compiler.ClosedAt | tsp.go:130-147 | the first visit of the origin fixes the instructions a successful scan returns |
| Compiler.CompiledInstructions | tsp.go:107-150 | when the first `$` at the origin is at byte j, a scan of the whole source that does not fail returns exactly the instructions emitted before j, one per earlier `$` |
| Compiler.FailsToEnd | tsp.go:119-129 | a failure on a prefix is the failure of the whole scan |
| Compiler.VisitRecorded | tsp.go:130-137 | a `$` off the origin that does not fail records its point's key in the instruction after those of the earlier visits |
| Compiler.KeyKept | tsp.go:130 | a recorded key stays in the `visited` map in every later state |
| Compiler.SecondVisitFails | tsp.go:119-129 | a `$` whose point has the key of an earlier `$` off the origin makes the whole scan fail |
| Compiler.DuplicateVisitsFail | tsp.go:119-129 | two `$` at points off the origin with equal Chebyshev and Manhattan radii, with no visit of the origin before the second, make the whole scan fail, so `Compile` fails |
| Compiler.AsWrittenFailsOnlyAtOrigin | tsp.go:121-122 | in a reached state the lookup as written (`EarlierPointAsWritten`) is in range exactly when the repeated point is not the origin, and then finds a point with the same key |
| Compiler.EarlierPointAsWritten | tsp.go:122 | the lookup `Instructions[n-1]` as written, with `None` for an index out of range; its contract is in `AsWrittenFailsOnlyAtOrigin` and `OriginRevisitReadsPastEnd` |
| Compiler.OriginRevisitReadsPastEnd | tsp.go:121-122 | for the source "$$" the lookup as written reads slot 0 of an empty list |
| Compiler.StrictlyAscendingByChebyshev | tsp.go:152-157 | the sorted order is in particular ascending by Chebyshev radius, which the jump search relies on |
| Compiler.SortByRadius | tsp.go:152-157 | with distinct keys, sorting by (Chebyshev, Manhattan) gives a strictly ascending permutation |
| Compiler.InsertLast | tsp.go:152-157 | one insertion step: an ascending prefix of length i grows to length i + 1, keys stay distinct and the elements are only permuted |
| Compiler.RecordVisit | tsp.go:130 | a new key is recorded at the slot after the last instruction |
| Compiler.ScanCode | tsp.go:103-147 | the loop computes `Trace`: the same failure, or the same final point, count, flag and instructions |
| Compiler.Compile | tsp.go:85-168 | fails as the scan fails, or with MissingTermination when the origin was never visited; otherwise returns the scanned instructions, as many and as a permutation, strictly ascending by the two radii; it succeeds only if some `$` is read at the origin |
| Programs.Iterate | tsp.go:60-72 | the counter stays within [0, len]; a run finishes exactly when it reaches the end without aborting; lenient mode never aborts |
| Programs.StrictAgreesWithLenient | tsp.go:60-72 | a strict run that does not abort is the lenient run |
| Programs.MoreFuelSameStop | tsp.go:60-72 | a run that ended within its budget ends the same way with any larger budget |
| Programs.StepOf | tsp.go:74-83 | the step keeps the counter within [0, len] |
| Programs.RunFrom | tsp.go:60-72 | `Run` of a compiled program, `Iterate` over `StepOf`; its contract is in `Iterate`, `StrictAgreesWithLenient`, `MoreFuelSameStop` and `StrictStopsAtError` |
| Programs.StrictStopsAtError | tsp.go:62-65 | in strict mode a failing step ends the run at once, with the counter past the failing instruction |
| Programs.Program.constructor | tsp.go:86-92 | a new program has counter 0, an empty stack, the given input and no output |
| Programs.Program.Exec | instruction.go:22-87 | performing an opcode in place gives the state and status of `Effect` |
| Programs.Program.Step | tsp.go:74-83 | a step in place gives the state and status of `StepFrom` and keeps the counter in range |
| Programs.Program.Run | tsp.go:60-72 | the loop in place ends with the outcome and state of `RunFrom` |
| Programs.Load | tsp.go:85-168 | the compile errors of `Compile`, or a fresh program holding the sorted instructions with counter 0, an empty stack and the given input |
| Programs.PushThreeProgram | instruction.go:93-95 | the point (2, 1) reached after three moves compiles to Push(3); running it leaves [3] on the stack |
| Programs.EastAxisProgram | instruction.go:89-92 | the point (5, 0) compiles to a Nop at radius 5; running it leaves the stack empty |

## Left out

- Reading the source is not modelled: `ioutil.ReadAll` and its error are left out, and the source is given as a sequence of characters, one per byte.
- Standard input and output are not modelled:
  - `bufio.Reader`, `bufio.Writer` and `Flush` are left out.
  - Input is a sequence of already decoded code points, so the UTF-8 decoding in `ReadRune` is left out.
  - Output is the sequence of code points written.
  - Read and write errors other than end of input are left out.
- Debug-mode tracing to standard error, the instructions' display strings and the error message texts are not modelled. `Config.debugMode` is carried but has no effect, and errors are tags.
- Programs.Program.Run: it takes a step budget (`fuel`) and reports `OutOfFuel` when the budget runs out, because the Go loop need not terminate. `MoreFuelSameStop` shows the budget does not change a run that ends within it.
- Go's 64-bit `int` for coordinates, step counts and radii is modelled as unbounded `int`; overflow on sources longer than 2^63 bytes is not modelled.
- Compiler.Compile: `sort.Slice` is modelled by an insertion sort. With distinct keys the comparison is a strict total order, so any correct sort gives the same list.
- Compiler.Compile: it returns the instruction list. `Programs.Load` builds the `Program` value that the Go `Compile` returns.
- Compiler.VisitPoint: it has a fallback earlier point for a slot outside the list. `RepeatedKeyFails` shows it is never used in a reached state.
- Instructions are a closed set of opcode tags interpreted by `Effect` and `Program.Exec`, not stored closures.

## Findings

| source | as written | input that shows it | evidently intended | confidence | as-written member | corrected member |
|---|---|---|---|---|---|---|
| tsp.go:121-122 | on a repeated key, reads `Instructions[n-1]`; for a second visit of the origin, n is one past the last instruction, so the index is out of range and Go panics | the source "$$" | report a second visit of the origin as a compile error | not executed | Compiler.OriginRevisitReadsPastEnd | Compiler.RepeatedKeyFails |
