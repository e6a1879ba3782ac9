/**
 * The value stack of the machine. The pure functions say what each
 * operation does to the contents; the class `Stack` performs the same
 * operations in place, the way the Go slice is appended to and truncated,
 * and each of its methods is proved to agree with its function.
 */
module Stacks {

  /** A machine value: Go's `rune`, a signed 32-bit integer. */
  type Value = v: int | -0x8000_0000 <= v < 0x8000_0000

  const WORD := 0x1_0000_0000

  /** Conversion to a 32-bit value with two's-complement wrap-around, as Go's
      `Value(n)` and as `rune` subtraction do: the one value congruent to
      `x` modulo 2^32. */
  function Wrap(x: int): (v: Value)
    ensures (x - v) % WORD == 0
    ensures -0x8000_0000 <= x < 0x8000_0000 ==> v == x
  {
    (x + 0x8000_0000) % WORD - 0x8000_0000
  }

  datatype StackError = InsufficientStack | OutOfRange

  datatype Status = Ok | Fail(error: StackError)

  /** What `Pop` or `Top` returns, with the contents left behind. */
  datatype Read = Read(status: Status, value: Value, mem: seq<Value>)

  /** What an operation without a returned value reports, with the new contents. */
  datatype Update = Update(status: Status, mem: seq<Value>)

  function PushOf(s: seq<Value>, v: Value): (r: seq<Value>)
    ensures |r| == |s| + 1 && r[..|s|] == s && r[|s|] == v
  {
    s + [v]
  }

  /** `Pop`: the last element is removed and returned; on an empty stack it
      fails with InsufficientStack and leaves the stack empty. */
  function PopOf(s: seq<Value>): (r: Read)
    ensures r.status == Ok <==> |s| > 0
    ensures r.status == Ok ==> r.mem + [r.value] == s
    ensures r.status != Ok ==> r == Read(Fail(InsufficientStack), 0, s)
  {
    if |s| > 0 then Read(Ok, s[|s| - 1], s[..|s| - 1])
    else Read(Fail(InsufficientStack), 0, s)
  }

  /** `Top`: the last element, the stack itself never changing. */
  function TopOf(s: seq<Value>): (r: Read)
    ensures r.mem == s
    ensures r.status == Ok <==> |s| > 0
    ensures r.status == Ok ==> r.value == PopOf(s).value
    ensures r.status != Ok ==> r.status == Fail(InsufficientStack) && r.value == 0
  {
    if |s| > 0 then Read(Ok, s[|s| - 1], s)
    else Read(Fail(InsufficientStack), 0, s)
  }

  /** `Swap(i)`: valid exactly for 0 < i <= len; exchanges the top with the
      element i - 1 places below it and leaves every other place alone. */
  function SwapOf(s: seq<Value>, i: int): (r: Update)
    ensures r.status == Ok <==> 0 < i <= |s|
    ensures r.status != Ok ==> r == Update(Fail(OutOfRange), s)
    ensures r.status == Ok ==>
              && |r.mem| == |s|
              && r.mem[|s| - 1] == s[|s| - i]
              && r.mem[|s| - i] == s[|s| - 1]
              && forall k :: 0 <= k < |s| && k != |s| - 1 && k != |s| - i ==> r.mem[k] == s[k]
  {
    var l := |s|;
    if 0 < i <= l then Update(Ok, s[l - 1 := s[l - i]][l - i := s[l - 1]])
    else Update(Fail(OutOfRange), s)
  }

  /** `Dup`: `Top`, then `Push` of what it read. */
  function DupOf(s: seq<Value>): (r: Update)
    ensures r.status == Ok <==> |s| > 0
    ensures r.status != Ok ==> r == Update(Fail(InsufficientStack), s)
    ensures r.status == Ok ==> |r.mem| == |s| + 1 && r.mem[..|s|] == s && r.mem[|s|] == s[|s| - 1]
  {
    var t := TopOf(s);
    if t.status != Ok then Update(t.status, s)
    else Update(Ok, PushOf(s, t.value))
  }

  /** `Sub`: pop a, pop b, push b - a (wrapped to 32 bits). When the second pop
      fails, a is pushed back, so a failure leaves the stack exactly as it was. */
  function SubOf(s: seq<Value>): (r: Update)
    ensures r.status == Ok <==> |s| >= 2
    ensures r.status != Ok ==> r == Update(Fail(InsufficientStack), s)
    ensures r.status == Ok ==> r.mem == s[..|s| - 2] + [Wrap(s[|s| - 2] as int - s[|s| - 1] as int)]
  {
    var a := PopOf(s);
    if a.status != Ok then Update(a.status, s)
    else
      var b := PopOf(a.mem);
      if b.status != Ok then Update(Fail(InsufficientStack), PushOf(a.mem, a.value))
      else Update(Ok, PushOf(b.mem, Wrap(b.value as int - a.value as int)))
  }

  /** `Greater`: pop a, pop b, push 1 if b > a and 0 otherwise; a failure
      leaves the stack exactly as it was. */
  function GreaterOf(s: seq<Value>): (r: Update)
    ensures r.status == Ok <==> |s| >= 2
    ensures r.status != Ok ==> r == Update(Fail(InsufficientStack), s)
    ensures r.status == Ok ==> r.mem == s[..|s| - 2] + [if s[|s| - 2] > s[|s| - 1] then 1 else 0]
  {
    var a := PopOf(s);
    if a.status != Ok then Update(a.status, s)
    else
      var b := PopOf(a.mem);
      if b.status != Ok then Update(Fail(InsufficientStack), PushOf(a.mem, a.value))
      else Update(Ok, PushOf(b.mem, if b.value > a.value then 1 else 0))
  }

  /** Pushing a value and popping again gives the value back and restores
      the original contents. */
  lemma PushThenPop(s: seq<Value>, v: Value)
    ensures PopOf(PushOf(s, v)) == Read(Ok, v, s)
  {
    assert PushOf(s, v)[..|s|] == s;
  }

  /** `Swap(1)` exchanges the top with itself. */
  lemma SwapOneIsIdentity(s: seq<Value>)
    requires |s| > 0
    ensures SwapOf(s, 1) == Update(Ok, s)
  {
  }

  /** A successful swap undone by the same swap. */
  lemma SwapTwiceIsIdentity(s: seq<Value>, i: int)
    requires 0 < i <= |s|
    ensures SwapOf(SwapOf(s, i).mem, i) == Update(Ok, s)
  {
    var once := SwapOf(s, i).mem;
    var twice := SwapOf(once, i).mem;
    forall k | 0 <= k < |s|
      ensures twice[k] == s[k]
    {
    }
  }

  class Stack {
    var mem: seq<Value>

    /** `NewStack`. */
    constructor ()
      ensures mem == []
    {
      mem := [];
    }

    method Push(v: Value)
      modifies this
      ensures mem == PushOf(old(mem), v)
    {
      mem := mem + [v];
    }

    method Pop() returns (v: Value, status: Status)
      modifies this
      ensures Read(status, v, mem) == PopOf(old(mem))
    {
      if |mem| > 0 {
        v := mem[|mem| - 1];
        mem := mem[..|mem| - 1];
        return v, Ok;
      }
      return 0, Fail(InsufficientStack);
    }

    method Top() returns (v: Value, status: Status)
      ensures Read(status, v, mem) == TopOf(mem)
    {
      if |mem| > 0 {
        return mem[|mem| - 1], Ok;
      }
      return 0, Fail(InsufficientStack);
    }

    method Swap(i: int) returns (status: Status)
      modifies this
      ensures Update(status, mem) == SwapOf(old(mem), i)
    {
      var l := |mem|;
      if 0 < i <= l {
        mem := mem[l - 1 := mem[l - i]][l - i := mem[l - 1]];
        return Ok;
      }
      return Fail(OutOfRange);
    }

    method Dup() returns (status: Status)
      modifies this
      ensures Update(status, mem) == DupOf(old(mem))
    {
      var v, err := Top();
      if err != Ok {
        return err;
      }
      Push(v);
      return Ok;
    }

    method Sub() returns (status: Status)
      modifies this
      ensures Update(status, mem) == SubOf(old(mem))
    {
      var v1, err1 := Pop();
      if err1 != Ok {
        return err1;
      }
      var v2, err2 := Pop();
      if err2 != Ok {
        Push(v1);
        return Fail(InsufficientStack);
      }
      Push(Wrap(v2 as int - v1 as int));
      return Ok;
    }

    method Greater() returns (status: Status)
      modifies this
      ensures Update(status, mem) == GreaterOf(old(mem))
    {
      var v1, err1 := Pop();
      if err1 != Ok {
        return err1;
      }
      var v2, err2 := Pop();
      if err2 != Ok {
        Push(v1);
        return Fail(InsufficientStack);
      }
      if v2 > v1 {
        Push(1);
      } else {
        Push(0);
      }
      return Ok;
    }
  }
}
