/**
 * The compiler: it traces the walk written in the source, turns every
 * visited point other than the origin into an instruction, stops at the
 * visit of the origin, and sorts the instructions by their two radii.
 *
 * `Trace` is the specification of the scan, one character at a time over
 * ever longer prefixes of the source text; `Compile` is the loop of the Go
 * `Compile`, proved to agree with it.
 */
module Compiler {
  import opened Geom
  import opened Instructions

  datatype Option<T> = None | Some(value: T)

  const VISIT := '$'

  /** A point's distances from the origin: the key under which a visit is
      recorded. */
  datatype Key = Key(chebyshev: int, manhattan: int)

  function KeyOf(p: Point): Key {
    Key(Chebyshev(Origin, p), Manhattan(Origin, p))
  }

  const ORIGIN_KEY := Key(0, 0)

  function InstrKey(ins: Instruction): Key {
    Key(ins.chebyshevRadius, ins.manhattanRadius)
  }

  datatype CompileError =
    | DuplicateKey(first: nat, firstPoint: Point, second: nat, secondPoint: Point)
    | OriginVisitedTwice
    | MissingTermination

  datatype CompileResult = Success(instructions: seq<Instruction>) | Failure(error: CompileError)

  /** The move a source character stands for: A left, S down, D right, W up;
      every other character stays. */
  function MoveOf(c: char): Vector {
    match c
    case 'A' => Vector(-1, 0)
    case 'S' => Vector(0, -1)
    case 'D' => Vector(1, 0)
    case 'W' => Vector(0, 1)
    case _ => Vector(0, 0)
  }

  predicate IsMove(c: char) {
    c == 'A' || c == 'S' || c == 'D' || c == 'W'
  }

  /** The variables of the scan: the current point, the moves since the last
      emitted instruction, whether the origin was visited, the instructions so
      far, and whether scanning stopped at a move after the origin visit. The
      Go code's `visited` map is a function of these (`Recorded`). */
  datatype Scan = Scan(p: Point, steps: nat, originVisited: bool, instrs: seq<Instruction>, halted: bool)

  datatype Traced = Going(scan: Scan) | Failed(error: CompileError)

  const START := Scan(Origin, 0, false, [], false)

  /** The slots of the Go code's `visited` map for the instructions emitted
      so far: each instruction's key at its 1-based position. */
  function Slots(instrs: seq<Instruction>): map<Key, nat> {
    if instrs == [] then map[]
    else Slots(instrs[..|instrs| - 1])[InstrKey(instrs[|instrs| - 1]) := |instrs|]
  }

  /** A recorded slot names an instruction with that key. */
  lemma {:induction false} SlotNamesKey(instrs: seq<Instruction>, key: Key)
    requires key in Slots(instrs)
    ensures 1 <= Slots(instrs)[key] <= |instrs|
    ensures InstrKey(instrs[Slots(instrs)[key] - 1]) == key
  {
    var init := instrs[..|instrs| - 1];
    if key != InstrKey(instrs[|instrs| - 1]) {
      SlotNamesKey(init, key);
    }
  }

  /** Every instruction's key is recorded. */
  lemma {:induction false} KeyHasSlot(instrs: seq<Instruction>, k: nat)
    requires k < |instrs|
    ensures InstrKey(instrs[k]) in Slots(instrs)
  {
    if k < |instrs| - 1 {
      KeyHasSlot(instrs[..|instrs| - 1], k);
    }
  }

  /** No emitted instruction lies at the origin, and each one's radii are its
      point's distances from the origin. */
  ghost predicate WellPlaced(instrs: seq<Instruction>) {
    forall k :: 0 <= k < |instrs| ==> instrs[k].point != Origin && InstrKey(instrs[k]) == KeyOf(instrs[k].point)
  }

  ghost predicate DistinctKeys(s: seq<Instruction>) {
    forall j, k :: 0 <= j < k < |s| ==> InstrKey(s[j]) != InstrKey(s[k])
  }

  /** What holds of every state the scan reaches: the instructions lie off
      the origin and have distinct keys; the point stays at the origin once
      it is visited; the scan stops only after the origin visit. */
  ghost predicate ScanInv(s: Scan) {
    && WellPlaced(s.instrs)
    && DistinctKeys(s.instrs)
    && (s.originVisited ==> s.p == Origin)
    && (s.halted ==> s.originVisited)
  }

  /** The Go code's `visited` map in a reached state: each instruction's key at
      its 1-based slot, and the origin's key at the slot after the last
      instruction once the origin was visited. */
  function Recorded(s: Scan): map<Key, nat> {
    if s.originVisited then Slots(s.instrs)[ORIGIN_KEY := |s.instrs| + 1] else Slots(s.instrs)
  }

  lemma KeyOfOrigin(p: Point)
    ensures KeyOf(p) == ORIGIN_KEY <==> p == Origin
  {
  }

  /** The origin's key is recorded exactly when the origin was visited, at
      the slot after the last instruction. */
  lemma OriginSlot(s: Scan)
    requires ScanInv(s)
    ensures ORIGIN_KEY in Recorded(s) <==> s.originVisited
    ensures s.originVisited ==> Recorded(s)[ORIGIN_KEY] == |s.instrs| + 1
  {
    if ORIGIN_KEY in Slots(s.instrs) {
      SlotNamesKey(s.instrs, ORIGIN_KEY);
    }
  }

  /** A visit marker (the VISIT case of the loop in `Compile`). A repeated
      key fails: at the origin as a second visit of the origin, elsewhere with
      the slot and point of the earlier instruction (in a reached state the
      slot always names one, see `RepeatedKeyFails`). A new key at the origin
      ends the path; a new key elsewhere emits the instruction for the point
      and restarts the step count. */
  function VisitPoint(s: Scan): Traced {
    var key := KeyOf(s.p);
    if key in Recorded(s) then
      if s.p == Origin then Failed(OriginVisitedTwice)
      else
        var n := Recorded(s)[key];
        Failed(DuplicateKey(n, if 0 < n <= |s.instrs| then s.instrs[n - 1].point else s.p, |s.instrs| + 1, s.p))
    else if s.p == Origin then
      Going(s.(originVisited := true))
    else
      Going(s.(instrs := s.instrs + [MakeInstruction(s.p, s.steps)], steps := 0))
  }

  /** One character of the scan (the body of the loop in `Compile`). */
  function ScanChar(s: Scan, c: char): Traced {
    if s.halted then Going(s)
    else if c == VISIT then VisitPoint(s)
    else if IsMove(c) then
      if s.originVisited then Going(s.(halted := true))
      else Going(s.(p := Add(s.p, MoveOf(c)), steps := s.steps + 1))
    else
      Going(s)
  }

  /** The scan of the first `n` characters of `code`. */
  function TraceUpTo(code: seq<char>, n: nat): Traced
    requires n <= |code|
  {
    if n == 0 then Going(START)
    else
      match TraceUpTo(code, n - 1)
      case Failed(e) => Failed(e)
      case Going(s) => ScanChar(s, code[n - 1])
  }

  /** The scan of the whole of `code`. */
  function Trace(code: seq<char>): Traced {
    TraceUpTo(code, |code|)
  }

  /** A visit keeps the invariant: a new key is distinct from all keys so far. */
  lemma VisitKeepsInv(s: Scan)
    requires ScanInv(s) && !s.halted
    ensures VisitPoint(s).Going? ==> ScanInv(VisitPoint(s).scan)
  {
    KeyOfOrigin(s.p);
    OriginSlot(s);
    var key := KeyOf(s.p);
    if key !in Recorded(s) && s.p != Origin {
      var instrs := s.instrs + [MakeInstruction(s.p, s.steps)];
      forall k | 0 <= k < |s.instrs|
        ensures InstrKey(s.instrs[k]) != key
      {
        KeyHasSlot(s.instrs, k);
      }
      assert instrs[..|s.instrs|] == s.instrs;
    }
  }

  /** Every state the scan reaches satisfies the invariant. */
  lemma {:induction false} TraceInv(code: seq<char>, n: nat)
    requires n <= |code|
    ensures TraceUpTo(code, n).Going? ==> ScanInv(TraceUpTo(code, n).scan)
  {
    if n > 0 {
      TraceInv(code, n - 1);
      var prev := TraceUpTo(code, n - 1);
      if prev.Going? && !prev.scan.halted && code[n - 1] == VISIT {
        VisitKeepsInv(prev.scan);
      }
    }
  }

  /** Once the scan has failed or stopped, the rest of the source is not read. */
  lemma {:induction false} Settled(code: seq<char>, j: nat, n: nat)
    requires j <= n <= |code|
    requires TraceUpTo(code, j).Failed? || TraceUpTo(code, j).scan.halted
    ensures TraceUpTo(code, n) == TraceUpTo(code, j)
  {
    if j < n {
      Settled(code, j, n - 1);
    }
  }

  // ---------------------------------------------------------------------
  // Reference definitions of what the scan computes while the path is open.

  /** The point the first `n` moves of `code` lead to from the origin. */
  function Displacement(code: seq<char>, n: nat): Point
    requires n <= |code|
  {
    if n == 0 then Origin
    else Add(Displacement(code, n - 1), MoveOf(code[n - 1]))
  }

  /** The number of moves among the first `n` characters after the last
      visit marker among them (or from the start). */
  function MovesSinceVisit(code: seq<char>, n: nat): nat
    requires n <= |code|
  {
    if n == 0 then 0
    else if code[n - 1] == VISIT then 0
    else if IsMove(code[n - 1]) then MovesSinceVisit(code, n - 1) + 1
    else MovesSinceVisit(code, n - 1)
  }

  /** The number of visit markers among the first `n` characters. */
  function Visits(code: seq<char>, n: nat): nat
    requires n <= |code|
  {
    if n == 0 then 0
    else Visits(code, n - 1) + (if code[n - 1] == VISIT then 1 else 0)
  }

  /** Until the origin is visited the scan is at the sum of the moves read,
      its step count is the number of moves since the last visit, and it has
      emitted one instruction per visit. */
  lemma {:induction false} OpenPath(code: seq<char>, n: nat)
    requires n <= |code|
    requires TraceUpTo(code, n).Going? && !TraceUpTo(code, n).scan.originVisited
    ensures TraceUpTo(code, n).scan.p == Displacement(code, n)
    ensures TraceUpTo(code, n).scan.steps == MovesSinceVisit(code, n)
    ensures |TraceUpTo(code, n).scan.instrs| == Visits(code, n)
    ensures !TraceUpTo(code, n).scan.halted
  {
    if n > 0 {
      assert TraceUpTo(code, n - 1).Going? && !TraceUpTo(code, n - 1).scan.originVisited;
      OpenPath(code, n - 1);
    }
  }

  /** Characters other than the four moves and the visit marker change
      nothing: not the position, not the step count, not the instructions. */
  lemma InertCharacter(code: seq<char>, n: nat)
    requires n < |code| && !IsMove(code[n]) && code[n] != VISIT
    ensures TraceUpTo(code, n + 1) == TraceUpTo(code, n)
  {
  }

  /** Before the origin visit a move advances the point by its vector and
      counts one more step. */
  lemma MoveStep(code: seq<char>, n: nat, s: Scan)
    requires n < |code| && IsMove(code[n])
    requires TraceUpTo(code, n) == Going(s) && !s.halted && !s.originVisited
    ensures TraceUpTo(code, n + 1) == Going(s.(p := Add(s.p, MoveOf(code[n])), steps := s.steps + 1))
  {
  }

  /** A visit of a point other than the origin whose key is new appends the
      point's instruction and restarts the step count. */
  lemma EmitStep(code: seq<char>, n: nat, s: Scan)
    requires n < |code| && code[n] == VISIT
    requires TraceUpTo(code, n) == Going(s) && !s.halted
    requires s.p != Origin && KeyOf(s.p) !in Recorded(s)
    ensures TraceUpTo(code, n + 1) == Going(s.(instrs := s.instrs + [MakeInstruction(s.p, s.steps)], steps := 0))
  {
  }

  /** The first visit of the origin, with its key not yet recorded, ends
      the path and emits nothing. */
  lemma CloseStep(code: seq<char>, n: nat, s: Scan)
    requires n < |code| && code[n] == VISIT
    requires TraceUpTo(code, n) == Going(s) && !s.halted && !s.originVisited && s.p == Origin
    requires ORIGIN_KEY !in Slots(s.instrs)
    ensures TraceUpTo(code, n + 1) == Going(s.(originVisited := true))
  {
    KeyOfOrigin(s.p);
  }

  /** After the origin visit a move stops the scan. */
  lemma StopStep(code: seq<char>, n: nat, s: Scan)
    requires n < |code| && IsMove(code[n])
    requires TraceUpTo(code, n) == Going(s) && !s.halted && s.originVisited
    ensures TraceUpTo(code, n + 1) == Going(s.(halted := true))
  {
  }

  /** Visiting a point other than the origin whose key is new emits the
      instruction for that point, with the number of moves since the previous
      visit as its step count, and restarts the count. */
  lemma VisitEmits(code: seq<char>, n: nat)
    requires n < |code| && code[n] == VISIT
    requires TraceUpTo(code, n).Going? && !TraceUpTo(code, n).scan.originVisited
    requires Displacement(code, n) != Origin && KeyOf(Displacement(code, n)) !in Recorded(TraceUpTo(code, n).scan)
    ensures var s := TraceUpTo(code, n).scan;
            TraceUpTo(code, n + 1) ==
              Going(s.(instrs := s.instrs + [MakeInstruction(Displacement(code, n), MovesSinceVisit(code, n))], steps := 0))
  {
    OpenPath(code, n);
    EmitStep(code, n, TraceUpTo(code, n).scan);
  }

  /** Visiting the origin ends the path and emits no instruction. */
  lemma OriginVisitCloses(code: seq<char>, n: nat)
    requires n < |code| && code[n] == VISIT
    requires TraceUpTo(code, n).Going? && !TraceUpTo(code, n).scan.originVisited
    requires Displacement(code, n) == Origin
    ensures TraceUpTo(code, n + 1) == Going(TraceUpTo(code, n).scan.(originVisited := true))
  {
    var s := TraceUpTo(code, n).scan;
    OpenPath(code, n);
    TraceInv(code, n);
    OriginSlot(s);
    CloseStep(code, n, s);
  }

  /** A visit fails exactly when its key was recorded before. A repeated key
      away from the origin is reported with the earlier instruction's slot and
      point, which has the same key, and the slot the new one would take; a
      repeated visit of the origin is reported as such. */
  lemma RepeatedKeyFails(code: seq<char>, n: nat)
    requires n < |code| && code[n] == VISIT
    requires TraceUpTo(code, n).Going? && !TraceUpTo(code, n).scan.halted
    ensures var s := TraceUpTo(code, n).scan;
            TraceUpTo(code, n + 1).Failed? <==> KeyOf(s.p) in Recorded(s)
    ensures var s := TraceUpTo(code, n).scan; var r := TraceUpTo(code, n + 1);
            r.Failed? && s.p != Origin ==>
              && r.error.DuplicateKey?
              && 1 <= r.error.first < r.error.second == |s.instrs| + 1
              && r.error.firstPoint == s.instrs[r.error.first - 1].point
              && KeyOf(r.error.firstPoint) == KeyOf(s.p)
              && r.error.secondPoint == s.p
    ensures var s := TraceUpTo(code, n).scan; var r := TraceUpTo(code, n + 1);
            r.Failed? && s.p == Origin ==> r.error == OriginVisitedTwice
  {
    TraceInv(code, n);
    var s := TraceUpTo(code, n).scan;
    KeyOfOrigin(s.p);
    OriginSlot(s);
    if KeyOf(s.p) in Recorded(s) && s.p != Origin {
      SlotNamesKey(s.instrs, KeyOf(s.p));
    }
  }

  /** A move after the origin visit stops the scan: whatever follows is not
      read, and the instructions are those collected so far. */
  lemma MoveAfterOriginStops(code: seq<char>, n: nat)
    requires n < |code| && IsMove(code[n])
    requires TraceUpTo(code, n).Going? && TraceUpTo(code, n).scan.originVisited && !TraceUpTo(code, n).scan.halted
    ensures Trace(code) == Going(TraceUpTo(code, n).scan.(halted := true))
  {
    StopStep(code, n, TraceUpTo(code, n).scan);
    Settled(code, n + 1, |code|);
  }

  // ---------------------------------------------------------------------
  // The scan over the whole source.

  /** A failure is final: every prefix of a source whose scan is still
      going was still going too. */
  lemma {:induction false} GoingBefore(code: seq<char>, j: nat, n: nat)
    requires j <= n <= |code| && TraceUpTo(code, n).Going?
    ensures TraceUpTo(code, j).Going?
  {
    if j < n {
      GoingBefore(code, j, n - 1);
    }
  }

  /** Instructions are only ever appended: a later state begins with the
      instructions of an earlier one. */
  lemma {:induction false} InstrsGrow(code: seq<char>, j: nat, n: nat)
    requires j <= n <= |code| && TraceUpTo(code, n).Going?
    ensures TraceUpTo(code, j).Going?
    ensures |TraceUpTo(code, j).scan.instrs| <= |TraceUpTo(code, n).scan.instrs|
    ensures TraceUpTo(code, n).scan.instrs[..|TraceUpTo(code, j).scan.instrs|] == TraceUpTo(code, j).scan.instrs
  {
    if j < n {
      GoingBefore(code, n - 1, n);
      InstrsGrow(code, j, n - 1);
    }
  }

  /** The origin flag is set only by a visit marker read at the origin: if no
      visit among the first `n` characters is at the origin, the scan has
      failed or has not set the flag. */
  lemma {:induction false} NoOriginVisit(code: seq<char>, n: nat)
    requires n <= |code|
    requires forall k {:trigger Displacement(code, k)} :: 0 <= k < n && code[k] == VISIT ==> Displacement(code, k) != Origin
    ensures TraceUpTo(code, n).Failed? || !TraceUpTo(code, n).scan.originVisited
  {
    if n > 0 {
      NoOriginVisit(code, n - 1);
      if TraceUpTo(code, n - 1).Going? {
        OpenStep(code, n - 1);
      }
    }
  }

  /** A scan of the whole source that does not fail sets the origin flag
      only if some visit marker is read at the origin. */
  lemma OriginVisitRequired(code: seq<char>)
    ensures Trace(code).Going? && Trace(code).scan.originVisited ==>
              exists k {:trigger Displacement(code, k)} :: 0 <= k < |code| && code[k] == VISIT && Displacement(code, k) == Origin
  {
    if forall k {:trigger Displacement(code, k)} :: 0 <= k < |code| && code[k] == VISIT ==> Displacement(code, k) != Origin {
      NoOriginVisit(code, |code|);
    }
  }

  /** Once the origin is visited the instructions are final: every later
      state that is still going has the flag set and the same instructions. */
  lemma {:induction false} AfterOriginFrozen(code: seq<char>, j: nat, n: nat)
    requires j <= n <= |code|
    requires TraceUpTo(code, j).Going? && TraceUpTo(code, j).scan.originVisited
    requires TraceUpTo(code, n).Going?
    ensures TraceUpTo(code, n).scan.originVisited
    ensures TraceUpTo(code, n).scan.instrs == TraceUpTo(code, j).scan.instrs
  {
    if j < n {
      GoingBefore(code, n - 1, n);
      AfterOriginFrozen(code, j, n - 1);
      TraceInv(code, n - 1);
      ClosedStep(TraceUpTo(code, n - 1).scan, code[n - 1]);
    }
  }

  /** After the origin visit no character changes the instructions or
      clears the flag: a visit there is a second visit of the origin, which
      fails. */
  lemma ClosedStep(s: Scan, c: char)
    requires s.originVisited && s.p == Origin
    ensures ScanChar(s, c) in {Going(s), Going(s.(halted := true)), Failed(OriginVisitedTwice)}
  {
    if !s.halted && c == VISIT {
      RevisitOrigin(s);
    }
  }

  /** A visit of the origin after the origin visit is a second one. */
  lemma RevisitOrigin(s: Scan)
    requires s.originVisited && s.p == Origin && !s.halted
    ensures VisitPoint(s) == Failed(OriginVisitedTwice)
  {
    KeyOfOrigin(s.p);
  }

  /** Before the origin visit only a visit marker read at the origin sets
      the flag. */
  lemma OpenStep(code: seq<char>, n: nat)
    requires n < |code| && TraceUpTo(code, n).Going? && !TraceUpTo(code, n).scan.originVisited
    requires code[n] == VISIT ==> Displacement(code, n) != Origin
    ensures TraceUpTo(code, n + 1).Failed? || !TraceUpTo(code, n + 1).scan.originVisited
  {
    OpenPath(code, n);
  }

  /** The instructions of a source: when the first visit of the origin is the
      visit marker at `j`, a scan of the whole source that does not fail has
      the origin flag set and returns exactly the instructions emitted before
      `j`, one per earlier visit marker. */
  lemma CompiledInstructions(code: seq<char>, j: nat)
    requires j < |code| && code[j] == VISIT && Displacement(code, j) == Origin
    requires forall k {:trigger Displacement(code, k)} :: 0 <= k < j && code[k] == VISIT ==> Displacement(code, k) != Origin
    ensures Trace(code).Going? ==>
              && TraceUpTo(code, j).Going?
              && Trace(code).scan.originVisited
              && Trace(code).scan.instrs == TraceUpTo(code, j).scan.instrs
              && |Trace(code).scan.instrs| == Visits(code, j)
  {
    if Trace(code).Going? {
      GoingBefore(code, j, |code|);
      NoOriginVisit(code, j);
      OpenPath(code, j);
      ClosedAt(code, j);
    }
  }

  /** The scan after the first visit of the origin at `j`, if it does not
      fail, keeps the flag and the instructions it had then. */
  lemma ClosedAt(code: seq<char>, j: nat)
    requires j < |code| && code[j] == VISIT && Displacement(code, j) == Origin
    requires TraceUpTo(code, j).Going? && !TraceUpTo(code, j).scan.originVisited
    ensures Trace(code).Going? ==>
              Trace(code).scan.originVisited && Trace(code).scan.instrs == TraceUpTo(code, j).scan.instrs
  {
    OriginVisitCloses(code, j);
    FrozenToEnd(code, j + 1);
  }

  /** Once the origin is visited, a scan of the whole source that does not
      fail ends with the same flag and instructions. */
  lemma FrozenToEnd(code: seq<char>, j: nat)
    requires j <= |code| && TraceUpTo(code, j).Going? && TraceUpTo(code, j).scan.originVisited
    ensures Trace(code).Going? ==>
              Trace(code).scan.originVisited && Trace(code).scan.instrs == TraceUpTo(code, j).scan.instrs
  {
    if Trace(code).Going? {
      AfterOriginFrozen(code, j, |code|);
    }
  }

  /** Two visit markers off the origin at points with the same key, with no
      visit of the origin before the second, make the whole scan fail. */
  lemma DuplicateVisitsFail(code: seq<char>, i: nat, j: nat)
    requires i < j < |code| && code[i] == VISIT && code[j] == VISIT
    requires forall k {:trigger Displacement(code, k)} :: 0 <= k < j && code[k] == VISIT ==> Displacement(code, k) != Origin
    requires KeyOf(Displacement(code, i)) == KeyOf(Displacement(code, j))
    ensures Trace(code).Failed?
  {
    NoOriginVisit(code, j);
    NoOriginVisit(code, i + 1);
    if TraceUpTo(code, j).Failed? {
      FailsToEnd(code, j);
    } else {
      SecondVisitFails(code, i, j);
    }
  }

  /** A failed scan of a prefix is a failed scan of the whole source. */
  lemma FailsToEnd(code: seq<char>, n: nat)
    requires n <= |code| && TraceUpTo(code, n).Failed?
    ensures Trace(code).Failed?
  {
    Settled(code, n, |code|);
  }

  /** The visit at `j` repeats the key recorded by the visit at `i`. */
  lemma SecondVisitFails(code: seq<char>, i: nat, j: nat)
    requires i < j < |code| && code[i] == VISIT && code[j] == VISIT
    requires Displacement(code, i) != Origin
    requires KeyOf(Displacement(code, i)) == KeyOf(Displacement(code, j))
    requires TraceUpTo(code, j).Going? && !TraceUpTo(code, j).scan.originVisited
    requires TraceUpTo(code, i + 1).Failed? || !TraceUpTo(code, i + 1).scan.originVisited
    ensures Trace(code).Failed?
  {
    GoingBefore(code, i + 1, j);
    VisitRecorded(code, i);
    KeyKept(code, i + 1, j, Visits(code, i));
    OpenPath(code, j);
    RepeatedKeyFails(code, j);
    FailsToEnd(code, j + 1);
  }

  /** A visit off the origin that does not fail records its point's key as
      the instruction after those of the earlier visits. */
  lemma VisitRecorded(code: seq<char>, i: nat)
    requires i < |code| && code[i] == VISIT && Displacement(code, i) != Origin
    requires TraceUpTo(code, i + 1).Going? && !TraceUpTo(code, i + 1).scan.originVisited
    ensures Visits(code, i) < |TraceUpTo(code, i + 1).scan.instrs|
    ensures InstrKey(TraceUpTo(code, i + 1).scan.instrs[Visits(code, i)]) == KeyOf(Displacement(code, i))
  {
    GoingBefore(code, i, i + 1);
    var s := TraceUpTo(code, i).scan;
    assert !s.originVisited;
    OpenPath(code, i);
    RepeatedKeyFails(code, i);
    EmitStep(code, i, s);
    InstructionShape(s.p, s.steps);
  }

  /** An emitted instruction's key stays recorded in every later state. */
  lemma KeyKept(code: seq<char>, j: nat, n: nat, k: nat)
    requires j <= n <= |code| && TraceUpTo(code, j).Going? && TraceUpTo(code, n).Going?
    requires k < |TraceUpTo(code, j).scan.instrs|
    ensures InstrKey(TraceUpTo(code, j).scan.instrs[k]) in Slots(TraceUpTo(code, n).scan.instrs)
  {
    InstrsGrow(code, j, n);
    var sj := TraceUpTo(code, j).scan;
    var sn := TraceUpTo(code, n).scan;
    assert sn.instrs[k] == sn.instrs[..|sj.instrs|][k];
    KeyHasSlot(sn.instrs, k);
  }

  /** The lookup the Go `Compile` performs when a key repeats, as written: the
      earlier point is read from the instruction list at slot n - 1, where n
      is the slot recorded for the key. `None` stands for the index being out
      of range, a run-time panic in Go. */
  function EarlierPointAsWritten(s: Scan): Option<Point>
    requires KeyOf(s.p) in Recorded(s)
  {
    var n := Recorded(s)[KeyOf(s.p)];
    if 0 <= n - 1 < |s.instrs| then Some(s.instrs[n - 1].point) else None
  }

  /** In a reached state the lookup as written is in range exactly when the
      repeated point is not the origin, and then it finds a point with the
      same key. */
  lemma AsWrittenFailsOnlyAtOrigin(s: Scan)
    requires ScanInv(s) && KeyOf(s.p) in Recorded(s)
    ensures EarlierPointAsWritten(s).Some? <==> s.p != Origin
    ensures EarlierPointAsWritten(s).Some? ==> KeyOf(EarlierPointAsWritten(s).value) == KeyOf(s.p)
  {
    KeyOfOrigin(s.p);
    OriginSlot(s);
    if s.p != Origin {
      SlotNamesKey(s.instrs, KeyOf(s.p));
    }
  }

  /** The smallest source that shows it: after "$" the origin's key is
      recorded at slot 1 with no instruction, so a second "$" reads slot 0 of
      an empty list. */
  lemma OriginRevisitReadsPastEnd()
    ensures TraceUpTo("$$", 1).Going? && !TraceUpTo("$$", 1).scan.halted
    ensures Recorded(TraceUpTo("$$", 1).scan)[ORIGIN_KEY] == 1 && TraceUpTo("$$", 1).scan.instrs == []
    ensures EarlierPointAsWritten(TraceUpTo("$$", 1).scan) == None
    ensures Trace("$$") == Failed(OriginVisitedTwice)
  {
    TraceInv("$$", 1);
  }

  // ---------------------------------------------------------------------
  // Sorting by the two radii.

  predicate KeyLess(a: Key, b: Key) {
    a.chebyshev < b.chebyshev || (a.chebyshev == b.chebyshev && a.manhattan < b.manhattan)
  }

  ghost predicate StrictlyAscending(s: seq<Instruction>) {
    forall j, k :: 0 <= j < k < |s| ==> KeyLess(InstrKey(s[j]), InstrKey(s[k]))
  }

  /** Strictly ascending by (Chebyshev, Manhattan) is in particular ascending
      by Chebyshev radius, the order the jump search relies on. */
  lemma StrictlyAscendingByChebyshev(s: seq<Instruction>)
    requires StrictlyAscending(s)
    ensures ChebyshevAscending(s)
  {
  }

  /** `sort.Slice` with the comparison of the Go `Compile`, done here as an
      insertion sort; with distinct keys the result is strictly ascending. */
  method SortByRadius(a: array<Instruction>)
    requires DistinctKeys(a[..])
    modifies a
    ensures StrictlyAscending(a[..])
    ensures multiset(a[..]) == multiset(old(a[..]))
  {
    var i := 0;
    while i < a.Length
      invariant 0 <= i <= a.Length
      invariant forall l, m :: 0 <= l < m < i ==> KeyLess(InstrKey(a[l]), InstrKey(a[m]))
      invariant DistinctKeys(a[..])
      invariant multiset(a[..]) == multiset(old(a[..]))
    {
      InsertLast(a, i);
      i := i + 1;
    }
  }

  /** One step of the insertion sort: the element at `i` moves down past
      every greater key, so the first `i + 1` elements are ascending. */
  method InsertLast(a: array<Instruction>, i: nat)
    requires i < a.Length && DistinctKeys(a[..])
    requires forall l, m :: 0 <= l < m < i ==> KeyLess(InstrKey(a[l]), InstrKey(a[m]))
    modifies a
    ensures forall l, m :: 0 <= l < m <= i ==> KeyLess(InstrKey(a[l]), InstrKey(a[m]))
    ensures DistinctKeys(a[..])
    ensures multiset(a[..]) == multiset(old(a[..]))
  {
    var j := i;
    while j > 0 && KeyLess(InstrKey(a[j]), InstrKey(a[j - 1]))
      invariant 0 <= j <= i
      invariant forall l, m :: 0 <= l < m <= i && l != j && m != j ==> KeyLess(InstrKey(a[l]), InstrKey(a[m]))
      invariant forall m :: j < m <= i ==> KeyLess(InstrKey(a[j]), InstrKey(a[m]))
      invariant DistinctKeys(a[..])
      invariant multiset(a[..]) == multiset(old(a[..]))
    {
      a[j - 1], a[j] := a[j], a[j - 1];
      j := j - 1;
    }
  }

  /** A new key is recorded at the slot after the last instruction, whether
      it is the origin's (which ends the path) or a point's (which emits an
      instruction). */
  lemma RecordVisit(s: Scan)
    requires !s.originVisited
    ensures s.p == Origin ==> Recorded(s.(originVisited := true)) == Recorded(s)[KeyOf(s.p) := |s.instrs| + 1]
    ensures var s' := s.(instrs := s.instrs + [MakeInstruction(s.p, s.steps)], steps := 0);
            Recorded(s') == Recorded(s)[KeyOf(s.p) := |s.instrs| + 1]
  {
    var instrs := s.instrs + [MakeInstruction(s.p, s.steps)];
    assert instrs[..|s.instrs|] == s.instrs;
  }

  /** The loop of the Go `Compile` over the bytes of the source, proved to compute
      the scan `Trace`: it returns at the first repeated key, and leaves the
      loop at the first move after the origin visit. */
  method ScanCode(code: seq<char>) returns (t: Traced)
    ensures t == Trace(code)
  {
    var p := Origin;
    var stepCount: nat := 0;
    var visited: map<Key, nat> := map[];
    var originVisited := false;
    var instrs: seq<Instruction> := [];
    var halted := false;
    var i := 0;
    while i < |code|
      invariant 0 <= i <= |code|
      invariant TraceUpTo(code, i) == Going(Scan(p, stepCount, originVisited, instrs, halted))
      invariant visited == Recorded(Scan(p, stepCount, originVisited, instrs, halted))
      invariant !halted
      invariant originVisited ==> p == Origin
    {
      var c := code[i];
      ghost var s := Scan(p, stepCount, originVisited, instrs, halted);
      KeyOfOrigin(p);
      if c == VISIT {
        var key := KeyOf(p);
        if key in visited {
          if p == Origin {
            t := Failed(OriginVisitedTwice);
          } else {
            assert key != ORIGIN_KEY;
            assert key in Slots(instrs);
            SlotNamesKey(instrs, key);
            var n := visited[key];
            t := Failed(DuplicateKey(n, instrs[n - 1].point, |instrs| + 1, p));
          }
          Settled(code, i + 1, |code|);
          return;
        }
        RecordVisit(s);
        visited := visited[key := |instrs| + 1];
        if p == Origin {
          CloseStep(code, i, s);
          originVisited := true;
          i := i + 1;
          continue;
        }
        EmitStep(code, i, s);
        instrs := instrs + [MakeInstruction(p, stepCount)];
        stepCount := 0;
      } else if IsMove(c) && !originVisited {
        MoveStep(code, i, s);
      } else if !IsMove(c) {
        InertCharacter(code, i);
      }
      var v := MoveOf(c);
      if v != Vector(0, 0) {
        if originVisited {
          StopStep(code, i, s);
          halted := true;
          Settled(code, i + 1, |code|);
          break;
        }
        p := Add(p, v);
        stepCount := stepCount + 1;
      }
      i := i + 1;
    }
    t := Going(Scan(p, stepCount, originVisited, instrs, halted));
  }

  /** `Compile`: the scan of the source, then the check that the origin was
      visited, then the sort. It fails as the scan fails; it fails when the
      origin was never visited; otherwise it returns the scanned instructions,
      each once, strictly ascending by (Chebyshev radius, Manhattan radius). */
  method Compile(code: seq<char>) returns (r: CompileResult)
    ensures Trace(code).Failed? ==> r == Failure(Trace(code).error)
    ensures Trace(code).Going? && !Trace(code).scan.originVisited ==> r == Failure(MissingTermination)
    ensures Trace(code).Going? && Trace(code).scan.originVisited ==>
              && r.Success?
              && StrictlyAscending(r.instructions)
              && multiset(r.instructions) == multiset(Trace(code).scan.instrs)
              && |r.instructions| == |Trace(code).scan.instrs|
    ensures r.Success? ==>
              exists k {:trigger Displacement(code, k)} :: 0 <= k < |code| && code[k] == VISIT && Displacement(code, k) == Origin
  {
    var t := ScanCode(code);
    if t.Failed? {
      return Failure(t.error);
    }
    var instrs := t.scan.instrs;
    if !t.scan.originVisited {
      return Failure(MissingTermination);
    }
    OriginVisitRequired(code);
    TraceInv(code, |code|);
    var a := new Instruction[|instrs|](k requires 0 <= k < |instrs| => instrs[k]);
    assert a[..] == instrs;
    SortByRadius(a);
    r := Success(a[..]);
  }
}
