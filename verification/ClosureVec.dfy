/** The vec of closures on top of `FreestandingVec`: every closure is consumed exactly once,
    by code of its own type, and the last one pushed goes first. */
module ClosureVec {
  import opened Layouts
  import opened Tally
  import FV = FreestandingVec

  /** A closure type `F`. */
  datatype ClosureType = ClosureType(name: nat, layout: Layout)

  /** The metadata: `task_fn` is `call` for the closure type `of`. */
  datatype Task = Task(of: ClosureType)

  // ----- the vec as its clients see it

  /** A pushed closure; `serial` counts the pushes before it. */
  datatype Closure = Closure(serial: nat, of: ClosureType, bytes: seq<FV.Byte>)

  /** A closure was read by `task_fn` for type `reader`, and run or just dropped; `pushes` is the
      number of pushes up to then. */
  datatype Use = Use(closure: Closure, reader: ClosureType, ran: bool, pushes: nat)

  datatype View = View(task: ClosureType, pushes: nat, stack: seq<Closure>, uses: seq<Use>)

  datatype Op =
    | Push(of: ClosureType, bytes: seq<FV.Byte>)
    | PopAndRun(justDrop: bool)
    | Clear
    | UpdateType(of: ClosureType)

  /** What the type system and the documentation ask of the caller. */
  predicate Legal(v: View, op: Op) {
    match op
    case Push(f, bytes) => f == v.task && |bytes| == f.layout.size
    case UpdateType(f) => v.stack == []
    case _ => true
  }

  function Popped(v: View, justDrop: bool): View {
    if v.stack == [] then v
    else
      var top := v.stack[|v.stack| - 1];
      v.(stack := v.stack[..|v.stack| - 1], uses := v.uses + [Use(top, v.task, !justDrop, v.pushes)])
  }

  function Cleared(v: View): View
    decreases |v.stack|
  {
    if v.stack == [] then v else Cleared(Popped(v, true))
  }

  function Step(v: View, op: Op): View {
    match op
    case Push(f, bytes) => v.(stack := v.stack + [Closure(v.pushes, f, bytes)], pushes := v.pushes + 1)
    case PopAndRun(justDrop) => Popped(v, justDrop)
    case Clear => Cleared(v)
    case UpdateType(f) => v.(task := f)
  }

  /** The views that some sequence of legal calls leads to. */
  ghost predicate Run(vs: seq<View>, ops: seq<Op>) {
    && |vs| == |ops| + 1
    && vs[0].pushes == 0 && vs[0].stack == [] && vs[0].uses == []
    && forall k :: 0 <= k < |ops| ==> Legal(vs[k], ops[k]) && vs[k + 1] == Step(vs[k], ops[k])
  }

  // ----- the invariant of the views

  ghost predicate Used(v: View, n: nat, before: nat) {
    exists k :: 0 <= k < before <= |v.uses| && v.uses[k].closure.serial == n
  }

  ghost predicate Stacked(v: View, n: nat) {
    exists i :: 0 <= i < |v.stack| && v.stack[i].serial == n
  }

  ghost predicate StackOk(v: View) {
    && (forall i :: 0 <= i < |v.stack| ==> v.stack[i].of == v.task && v.stack[i].serial < v.pushes)
    && (forall i, j :: 0 <= i < j < |v.stack| ==> v.stack[i].serial < v.stack[j].serial)
  }

  /** Each closure ever pushed has been used or is in the vec, not both, and none twice. */
  ghost predicate Accounted(v: View) {
    && (forall n: nat :: n < v.pushes ==> (Used(v, n, |v.uses|) <==> !Stacked(v, n)))
    && (forall k :: 0 <= k < |v.uses| ==> v.uses[k].closure.serial < v.pushes)
    && (forall k, l :: 0 <= k < l < |v.uses| ==> v.uses[k].closure.serial != v.uses[l].closure.serial)
  }

  /** Every closure was used by the code of its own type. */
  ghost predicate OwnType(v: View) {
    forall k :: 0 <= k < |v.uses| ==> v.uses[k].reader == v.uses[k].closure.of
  }

  /** Last in, first out: when a closure was used, all those pushed after it had been. */
  ghost predicate Nested(v: View) {
    forall k, n: nat :: 0 <= k < |v.uses| && v.uses[k].closure.serial < n < v.uses[k].pushes ==> Used(v, n, k)
  }

  ghost predicate ViewOk(v: View) {
    StackOk(v) && Accounted(v) && OwnType(v) && Nested(v)
  }

  lemma StackedAfterPush(v: View, f: ClosureType, bytes: seq<FV.Byte>, n: nat)
    ensures Stacked(Step(v, Push(f, bytes)), n) <==> Stacked(v, n) || n == v.pushes
  {
    var v' := Step(v, Push(f, bytes));
    assert v'.stack[|v.stack|].serial == v.pushes;
    if Stacked(v, n) {
      var i :| 0 <= i < |v.stack| && v.stack[i].serial == n;
      assert v'.stack[i].serial == n;
    }
  }

  lemma PushKeeps(v: View, f: ClosureType, bytes: seq<FV.Byte>)
    requires ViewOk(v) && Legal(v, Push(f, bytes))
    ensures ViewOk(Step(v, Push(f, bytes)))
  {
    var v' := Step(v, Push(f, bytes));
    forall n: nat | n < v'.pushes
      ensures Used(v', n, |v'.uses|) <==> !Stacked(v', n)
    {
      StackedAfterPush(v, f, bytes, n);
      assert Used(v', n, |v'.uses|) <==> Used(v, n, |v.uses|);
    }
    forall k, n: nat | 0 <= k < |v'.uses| && v'.uses[k].closure.serial < n < v'.uses[k].pushes
      ensures Used(v', n, k)
    {
      assert Used(v, n, k);
    }
  }

  /** The uses so far stay as they are; the top of the stack is the next one. */
  lemma UsedAfterPop(v: View, justDrop: bool, n: nat, before: nat)
    requires v.stack != []
    ensures before <= |v.uses| ==> (Used(Popped(v, justDrop), n, before) <==> Used(v, n, before))
    ensures Used(Popped(v, justDrop), n, |v.uses| + 1)
            <==> Used(v, n, |v.uses|) || n == v.stack[|v.stack| - 1].serial
  {
    var v' := Popped(v, justDrop);
    var u := |v.uses|;
    assert v'.uses[u].closure.serial == v.stack[|v.stack| - 1].serial;
    if before <= u && Used(v, n, before) {
      var k :| 0 <= k < before && v.uses[k].closure.serial == n;
      assert v'.uses[k].closure.serial == n;
    }
    if Used(v, n, u) {
      var k :| 0 <= k < u && v.uses[k].closure.serial == n;
      assert v'.uses[k].closure.serial == n;
    }
  }

  lemma StackedAfterPop(v: View, justDrop: bool, n: nat)
    requires StackOk(v) && v.stack != []
    ensures Stacked(Popped(v, justDrop), n) <==> Stacked(v, n) && n != v.stack[|v.stack| - 1].serial
  {
    var v' := Popped(v, justDrop);
    var top := |v.stack| - 1;
    if Stacked(v, n) && n != v.stack[top].serial {
      var i :| 0 <= i < |v.stack| && v.stack[i].serial == n;
      assert v'.stack[i].serial == n;
    }
    if Stacked(v', n) {
      var i :| 0 <= i < |v'.stack| && v'.stack[i].serial == n;
      assert v.stack[i].serial == n;
    }
  }

  lemma PopKeeps(v: View, justDrop: bool)
    requires ViewOk(v)
    ensures ViewOk(Popped(v, justDrop))
  {
    if v.stack != [] {
      PopKeepsAccounts(v, justDrop);
      PopKeepsNested(v, justDrop);
    }
  }

  lemma PopKeepsAccounts(v: View, justDrop: bool)
    requires StackOk(v) && Accounted(v) && v.stack != []
    ensures Accounted(Popped(v, justDrop))
  {
    var v' := Popped(v, justDrop);
    var top := v.stack[|v.stack| - 1].serial;
    assert Stacked(v, top);
    forall n: nat | n < v'.pushes
      ensures Used(v', n, |v'.uses|) <==> !Stacked(v', n)
    {
      UsedAfterPop(v, justDrop, n, 0);
      StackedAfterPop(v, justDrop, n);
      assert Used(v, n, |v.uses|) <==> !Stacked(v, n);
    }
    forall k | 0 <= k < |v.uses|
      ensures v'.uses[k].closure.serial != top
    {
      assert Used(v, v.uses[k].closure.serial, |v.uses|);
    }
  }

  /** Everything pushed after the top of the stack is no longer in the stack. */
  lemma PopKeepsNested(v: View, justDrop: bool)
    requires ViewOk(v) && v.stack != []
    ensures Nested(Popped(v, justDrop))
  {
    var v' := Popped(v, justDrop);
    var top := |v.stack| - 1;
    forall k, n: nat | 0 <= k < |v'.uses| && v'.uses[k].closure.serial < n < v'.uses[k].pushes
      ensures Used(v', n, k)
    {
      UsedAfterPop(v, justDrop, n, k);
      if k < |v.uses| {
        assert Used(v, n, k);
      } else {
        assert !Stacked(v, n);
        assert Used(v, n, |v.uses|);
      }
    }
  }

  lemma {:induction false} ClearKeeps(v: View)
    requires ViewOk(v)
    ensures ViewOk(Cleared(v)) && Cleared(v).stack == [] && Cleared(v).pushes == v.pushes
    decreases |v.stack|
  {
    if v.stack != [] {
      PopKeeps(v, true);
      ClearKeeps(Popped(v, true));
    }
  }

  lemma StepKeeps(v: View, op: Op)
    requires ViewOk(v) && Legal(v, op)
    ensures ViewOk(Step(v, op))
  {
    hide ViewOk;
    match op
    case Push(f, bytes) => PushKeeps(v, f, bytes);
    case PopAndRun(justDrop) => PopKeeps(v, justDrop);
    case Clear => ClearKeeps(v);
    case UpdateType(f) => UpdateKeeps(v, f);
  }

  lemma UpdateKeeps(v: View, f: ClosureType)
    requires ViewOk(v) && v.stack == []
    ensures ViewOk(v.(task := f))
  {
    var v' := v.(task := f);
    assert forall n: nat, b: nat :: Used(v', n, b) <==> Used(v, n, b);
    assert forall n: nat :: !Stacked(v', n) && !Stacked(v, n);
  }

  // ----- the theorems

  lemma {:induction false} RunOk(vs: seq<View>, ops: seq<Op>, k: nat)
    requires Run(vs, ops) && k <= |ops|
    ensures ViewOk(vs[k])
  {
    hide ViewOk, Step;
    if k == 0 {
      EmptyOk(vs[0]);
    } else {
      RunOk(vs, ops, k - 1);
      StepKeeps(vs[k - 1], ops[k - 1]);
      assert vs[k - 1 + 1] == Step(vs[k - 1], ops[k - 1]);
    }
  }

  lemma EmptyOk(v: View)
    requires v.pushes == 0 && v.stack == [] && v.uses == []
    ensures ViewOk(v)
  {
  }

  /** Over any sequence of calls, every closure ever pushed is either still in the vec or has
      been used once; never both, never twice; and always by the code of its own type. */
  lemma ConsumedExactlyOnce(vs: seq<View>, ops: seq<Op>)
    requires Run(vs, ops)
    ensures var v := vs[|ops|];
            && (forall n: nat :: n < v.pushes ==> (Used(v, n, |v.uses|) <==> !Stacked(v, n)))
            && (forall k, l :: 0 <= k < l < |v.uses| ==> v.uses[k].closure.serial != v.uses[l].closure.serial)
            && (forall k :: 0 <= k < |v.uses| ==> v.uses[k].reader == v.uses[k].closure.of)
  {
    RunOk(vs, ops, |ops|);
  }

  /** Once the vec is cleared, as its drop does, every closure has been used. */
  lemma NothingLeftAfterClear(vs: seq<View>, ops: seq<Op>)
    requires Run(vs, ops) && ops != [] && ops[|ops| - 1] == Clear
    ensures var v := vs[|ops|]; v.stack == [] && forall n: nat :: n < v.pushes ==> Used(v, n, |v.uses|)
  {
    hide Used;
    var last := |ops| - 1;
    RunOk(vs, ops, last);
    RunOk(vs, ops, |ops|);
    assert vs[last + 1] == Step(vs[last], ops[last]);
    ClearKeeps(vs[last]);
    var v := vs[|ops|];
    assert forall n: nat :: !Stacked(v, n);
  }

  /** Last in, first out: when a closure is used, every closure pushed after it was used
      before. */
  lemma LastInFirstOut(vs: seq<View>, ops: seq<Op>, k: nat, n: nat)
    requires Run(vs, ops) && k < |vs[|ops|].uses|
    requires var u := vs[|ops|].uses[k]; u.closure.serial < n < u.pushes
    ensures Used(vs[|ops|], n, k)
  {
    RunOk(vs, ops, |ops|);
  }

  /** A use logged between two views is a use that the later one has at or after the place
      where the earlier one ended. */
  ghost predicate Extends(v: View, v': View) {
    |v.uses| <= |v'.uses| && v'.uses[..|v.uses|] == v.uses
  }

  ghost predicate NoneRan(v: View, v': View) {
    forall j :: |v.uses| <= j < |v'.uses| ==> !v'.uses[j].ran
  }

  lemma {:induction false} ClearOnlyDrops(v: View)
    ensures Extends(v, Cleared(v)) && NoneRan(v, Cleared(v)) && |Cleared(v).uses| == |v.uses| + |v.stack|
    decreases |v.stack|
  {
    if v.stack != [] {
      ClearOnlyDrops(Popped(v, true));
      var v' := Cleared(v);
      var last := |v.uses|;
      assert v'.uses[..last] == v'.uses[..last + 1][..last];
      assert v'.uses[last] == v'.uses[..last + 1][last];
    }
  }

  /** Closures are run when `pop_and_run` asks for it and only then: a call of it on a vec that
      is not empty runs one closure, `clear` runs none of those it drops, and pushing or
      changing the type uses none. */
  lemma RunExactlyWhenAsked(vs: seq<View>, ops: seq<Op>, k: nat)
    requires Run(vs, ops) && k < |ops|
    ensures var v, v' := vs[k], vs[k + 1];
            && Extends(v, v')
            && match ops[k]
               case PopAndRun(justDrop) =>
                 if v.stack == [] then |v'.uses| == |v.uses|
                 else |v'.uses| == |v.uses| + 1 && v'.uses[|v.uses|].ran == !justDrop
               case Clear => |v'.uses| == |v.uses| + |v.stack| && NoneRan(v, v')
               case _ => |v'.uses| == |v.uses|
  {
    assert vs[k + 1] == Step(vs[k], ops[k]);
    if ops[k].Clear? {
      ClearOnlyDrops(vs[k]);
    }
  }

  // ----- the vec itself

  class Vec {
    const data: FV.Vec<Task>
    /** Not looked at: the closures in the vec, and the uses of those that were. */
    ghost var pushes: nat
    ghost var stack: seq<Closure>
    ghost var uses: seq<Use>

    ghost predicate Valid()
      reads this, data, data.block
    {
      && data.Valid() && data.elem == data.metadata.of.layout
      && |stack| == data.len
      && forall i :: 0 <= i < |stack| ==> stack[i].bytes == data.Contents()[i]
    }

    ghost function Now(): View
      requires Valid()
      reads this, data, data.block
    {
      View(data.metadata.of, pushes, stack, uses)
    }

    constructor (d: FV.Vec<Task>)
      requires d.Valid() && d.elem == d.metadata.of.layout && d.Contents() == []
      ensures data == d && Valid() && Now() == View(d.metadata.of, 0, [], [])
    {
      data, pushes, stack, uses := d, 0, [], [];
    }

    /** `new`; `d` is the vec underneath, whose allocator may have refused. */
    static method New(h: Layout, f: ClosureType) returns (d: FV.Vec<Task>, v: Option<Vec>)
      requires LayoutOk(h) && LayoutOk(f.layout) && h.size > 0
      ensures fresh(d) && (v.None? <==> d.refusals == 1)
      ensures v.Some? ==> fresh(v.value) && v.value.data == d && v.value.Valid() && v.value.Now() == View(f, 0, [], [])
    {
      var r;
      d, r := FV.Vec.New(h, f.layout, Task(f));
      if r != FV.Done {
        return d, None;
      }
      var c := new Vec(d);
      return d, Some(c);
    }

    /** `push`. */
    method Push(f: ClosureType, closure: seq<FV.Byte>) returns (r: FV.Outcome)
      requires Valid() && Legal(Now(), Op.Push(f, closure))
      modifies this, data, data.block
      ensures Valid()
      ensures Now() == if r == FV.Done then Step(old(Now()), Op.Push(f, closure)) else old(Now())
      ensures data.refusals == old(data.refusals) + if r == FV.OutOfMemory then 1 else 0
      ensures r == FV.Overflow <==>
                f.layout.size > 0 && Offset(data.header, f.layout, |old(stack)| + 1) > USIZE_MAX
    {
      r := data.Push(f.layout, closure);
      if r == FV.Done {
        stack, pushes := stack + [Closure(pushes, f, closure)], pushes + 1;
      }
    }

    /** `pop_and_run_`: `task_fn` reads as many bytes as its own type has, and runs or drops. */
    method PopAndRun_(justDrop: bool) returns (wasEmpty: bool)
      requires Valid()
      modifies this, data
      ensures Valid() && Now() == Step(old(Now()), Op.PopAndRun(justDrop))
      ensures wasEmpty <==> old(Now()).stack == []
      ensures !wasEmpty ==> uses != [] && (uses[|uses| - 1].ran <==> !justDrop)
    {
      var r := data.Pop();
      if r.None? {
        return true;
      }
      var task := data.metadata;
      var closure := data.block[r.value..r.value + task.of.layout.size];
      ghost var top := stack[|stack| - 1];
      assert closure == top.bytes;
      uses := uses + [Use(Closure(top.serial, top.of, closure), task.of, !justDrop, pushes)];
      stack := stack[..|stack| - 1];
      return false;
    }

    /** `pop_and_run`. */
    method PopAndRun() returns (wasEmpty: bool)
      requires Valid()
      modifies this, data
      ensures Valid() && Now() == Step(old(Now()), Op.PopAndRun(false))
      ensures wasEmpty <==> old(Now()).stack == []
      ensures !wasEmpty ==> uses != [] && uses[|uses| - 1].ran
    {
      wasEmpty := PopAndRun_(false);
    }

    /** `clear`. */
    method Clear()
      requires Valid()
      modifies this, data
      ensures Valid() && Now() == Step(old(Now()), Op.Clear) && data.len == 0
      ensures |uses| == |old(uses)| + |old(stack)| && forall j :: |old(uses)| <= j < |uses| ==> !uses[j].ran
    {
      ClearOnlyDrops(Now());
      var empty := false;
      while !empty
        invariant Valid() && Cleared(Now()) == Cleared(old(Now()))
        invariant empty ==> Now().stack == []
        decreases data.len, !empty
      {
        empty := PopAndRun_(true);
      }
    }

    /** `update_type`, once the vec is empty; `None` if the memory ran out. */
    method UpdateType(f: ClosureType) returns (r: FV.Outcome)
      requires Valid() && LayoutOk(f.layout) && Legal(Now(), Op.UpdateType(f))
      modifies this, data
      ensures r == FV.Done ==> Valid() && Now() == Step(old(Now()), Op.UpdateType(f))
      ensures r != FV.Overflow && data.refusals == old(data.refusals) + if r == FV.OutOfMemory then 1 else 0
    {
      r := data.Init(f.layout, Task(f));
    }

    /** `Drop`: the closures are dropped, then the allocation is given back. */
    method Drop()
      requires Valid()
      modifies this, data
      ensures !data.isAllocated && stack == [] && uses == Cleared(old(Now())).uses
      ensures |uses| == |old(uses)| + |old(stack)| && forall j :: |old(uses)| <= j < |uses| ==> !uses[j].ran
    {
      Clear();
      data.Drop();
    }
  }
}
