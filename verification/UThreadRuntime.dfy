/** The slot allocator of the user-thread runtime: a vector of context slots with a free
  * list threaded through the slots of finished threads.
  */
module UThreadRuntimes {
  import opened Common

  datatype Status = RUNNING | SUSPEND | DONE
  datatype ContextSlot = ContextSlot(next_done_item: int, status: Status)

  // The four fields that the operations work on.
  datatype Runtime = Runtime(context_list: seq<ContextSlot>, first_done_item: int, current_uthread: int, unfinished: int)

  const EMPTY: Runtime := Runtime([], -1, -1, 0)

  // ----- What each operation does to the fields -----

  function Create(rt: Runtime): (r: (Runtime, int))
    requires rt.first_done_item < |rt.context_list|
  {
    var started := ContextSlot(-1, SUSPEND);
    if rt.first_done_item >= 0 then
      var index := rt.first_done_item;
      (rt.(first_done_item := rt.context_list[index].next_done_item,
           context_list := rt.context_list[index := started],
           unfinished := rt.unfinished + 1), index)
    else
      (rt.(context_list := rt.context_list + [started], unfinished := rt.unfinished + 1), |rt.context_list|)
  }

  // The slot's own status is read, but RUNNING is only written to a copy of it.
  function Resume(rt: Runtime, index: nat): Runtime {
    if index < |rt.context_list| && rt.context_list[index].status == SUSPEND then rt.(current_uthread := index) else rt
  }

  function Yield(rt: Runtime): Runtime {
    rt.(current_uthread := -1)
  }

  function Done(rt: Runtime): Runtime
    requires -1 <= rt.current_uthread < |rt.context_list|
  {
    if rt.current_uthread == -1 then rt
    else rt.(context_list := rt.context_list[rt.current_uthread := ContextSlot(rt.first_done_item, DONE)],
             first_done_item := rt.current_uthread,
             unfinished := rt.unfinished - 1,
             current_uthread := -1)
  }

  // ----- The invariant -----

  // free lists the slots reached from first by following next_done_item.
  ghost predicate Chain(list: seq<ContextSlot>, first: int, free: seq<nat>)
    decreases |free|
  {
    if free == [] then first == -1
    else first == free[0] && free[0] < |list| && Chain(list, list[free[0]].next_done_item, free[1..])
  }

  ghost predicate Inv(rt: Runtime, free: seq<nat>) {
    && Chain(rt.context_list, rt.first_done_item, free)
    && IsDistinct(free)
    && (forall i | i in free :: i < |rt.context_list|)
    && (forall i: nat | i < |rt.context_list| :: rt.context_list[i].status == if i in free then DONE else SUSPEND)
    && rt.unfinished == |rt.context_list| - |free|
    && -1 <= rt.current_uthread < |rt.context_list|
    && (rt.current_uthread >= 0 ==> rt.current_uthread !in free)
  }

  lemma {:induction false} ChainIgnoresOthers(list: seq<ContextSlot>, first: int, free: seq<nat>, i: nat, slot: ContextSlot)
    requires Chain(list, first, free) && i !in free && i < |list|
    ensures Chain(list[i := slot], first, free)
    decreases |free|
  {
    if free != [] {
      ChainIgnoresOthers(list, list[free[0]].next_done_item, free[1..], i, slot);
    }
  }

  lemma {:induction false} ChainSurvivesGrowth(list: seq<ContextSlot>, first: int, free: seq<nat>, slot: ContextSlot)
    requires Chain(list, first, free)
    ensures Chain(list + [slot], first, free)
    decreases |free|
  {
    if free != [] {
      ChainSurvivesGrowth(list, list[free[0]].next_done_item, free[1..], slot);
    }
  }

  lemma FirstInRange(rt: Runtime, free: seq<nat>)
    requires Inv(rt, free)
    ensures -1 <= rt.first_done_item < |rt.context_list|
    ensures rt.first_done_item == -1 <==> free == []
  {
  }

  // The free list after a Create.
  function AfterCreate(free: seq<nat>): seq<nat> { if free == [] then [] else free[1..] }

  /** Create never hands out a live slot, and grows the vector only when none is free. */
  lemma CreateSpec(rt: Runtime, free: seq<nat>)
    requires Inv(rt, free)
    ensures rt.first_done_item < |rt.context_list|
    ensures var (after, index) := Create(rt);
      && Inv(after, AfterCreate(free))
      && 0 <= index < |after.context_list| && after.context_list[index].status == SUSPEND
      && (index < |rt.context_list| ==> rt.context_list[index].status == DONE)
      && (|after.context_list| > |rt.context_list| <==> free == [])
      && after.current_uthread == rt.current_uthread
  {
    FirstInRange(rt, free);
    var started := ContextSlot(-1, SUSPEND);
    if free == [] {
      ChainSurvivesGrowth(rt.context_list, rt.first_done_item, free, started);
    } else {
      var index := free[0];
      assert forall i :: i in free <==> i == index || i in free[1..];
      ChainIgnoresOthers(rt.context_list, rt.context_list[index].next_done_item, free[1..], index, started);
    }
  }

  lemma ResumeSpec(rt: Runtime, free: seq<nat>, index: nat)
    requires Inv(rt, free)
    ensures Inv(Resume(rt, index), free)
    ensures rt.current_uthread == -1 ==>
              (Resume(rt, index).current_uthread == index <==> index < |rt.context_list| && index !in free)
  {
  }

  lemma DoneSpec(rt: Runtime, free: seq<nat>)
    requires Inv(rt, free) && rt.current_uthread >= 0
    ensures Inv(Done(rt), [rt.current_uthread] + free)
    ensures Done(rt).context_list[rt.current_uthread].status == DONE && Done(rt).current_uthread == -1
  {
    var c := rt.current_uthread;
    ChainIgnoresOthers(rt.context_list, rt.first_done_item, free, c, ContextSlot(rt.first_done_item, DONE));
    assert ([c] + free)[1..] == free;
  }

  // ----- Whole runs -----

  // The main context creates and resumes; a resumed thread yields or finishes.
  datatype Op = CreateOp | ResumeOp(index: nat) | YieldOp | DoneOp

  function Step(rt: Runtime, op: Op): Runtime {
    match op
    case CreateOp => if rt.current_uthread == -1 && rt.first_done_item < |rt.context_list| then Create(rt).0 else rt
    case ResumeOp(index) => if rt.current_uthread == -1 then Resume(rt, index) else rt
    case YieldOp => Yield(rt)
    case DoneOp => if -1 <= rt.current_uthread < |rt.context_list| then Done(rt) else rt
  }

  function Exec(rt: Runtime, run: seq<Op>): Runtime
    decreases |run|
  {
    if run == [] then rt else Exec(Step(rt, run[0]), run[1..])
  }

  // The largest number of unfinished threads at any moment of the run.
  function Peak(rt: Runtime, run: seq<Op>): int
    decreases |run|
  {
    if run == [] then rt.unfinished else Max(rt.unfinished, Peak(Step(rt, run[0]), run[1..]))
  }

  lemma StepSpec(rt: Runtime, free: seq<nat>, op: Op) returns (next: seq<nat>)
    requires Inv(rt, free)
    ensures Inv(Step(rt, op), next)
    ensures |Step(rt, op).context_list| == Max(|rt.context_list|, Step(rt, op).unfinished)
  {
    FirstInRange(rt, free);
    next := free;
    match op
    case CreateOp =>
      if rt.current_uthread == -1 {
        CreateSpec(rt, free);
        next := AfterCreate(free);
      }
    case ResumeOp(index) => ResumeSpec(rt, free, index);
    case YieldOp =>
    case DoneOp =>
      if rt.current_uthread >= 0 {
        DoneSpec(rt, free);
        next := [rt.current_uthread] + free;
      }
  }

  lemma {:induction false} RunSpec(rt: Runtime, free: seq<nat>, run: seq<Op>) returns (last: seq<nat>)
    requires Inv(rt, free)
    ensures Inv(Exec(rt, run), last)
    ensures |Exec(rt, run).context_list| == Max(|rt.context_list|, Peak(rt, run))
    decreases |run|
  {
    if run == [] {
      last := free;
    } else {
      hide Step, Inv;
      var next := StepSpec(rt, free, run[0]);
      UnfinishedFits(rt, free);
      last := RunSpec(Step(rt, run[0]), next, run[1..]);
    }
  }

  lemma UnfinishedFits(rt: Runtime, free: seq<nat>)
    requires Inv(rt, free)
    ensures rt.unfinished <= |rt.context_list|
  {
  }

  /** Over every run: the free list is acyclic and holds exactly the finished slots. */
  lemma FreeListIsExact(run: seq<Op>)
    ensures exists free :: Inv(Exec(EMPTY, run), free)
  {
    var free := RunSpec(EMPTY, [], run);
  }

  /** Over every run: the vector is as long as the largest number of threads that were
    * ever unfinished at once, and no longer.
    */
  lemma VectorNeverGrowsPastNeed(run: seq<Op>)
    ensures |Exec(EMPTY, run).context_list| == Peak(EMPTY, run)
  {
    var free := RunSpec(EMPTY, [], run);
    PeakAtLeastNow(EMPTY, run);
  }

  lemma PeakAtLeastNow(rt: Runtime, run: seq<Op>)
    ensures rt.unfinished <= Peak(rt, run)
  {
  }

  function Range(n: nat): (r: set<nat>)
    ensures |r| == n
    ensures forall i: nat :: i in r <==> i < n
  {
    if n == 0 then {} else Range(n - 1) + {n - 1}
  }

  function Elements(free: seq<nat>): (r: set<nat>)
    ensures forall i :: i in r <==> i in free
    ensures IsDistinct(free) ==> |r| == |free|
  {
    if free == [] then {}
    else
      assert forall i :: i in free <==> i == free[0] || i in free[1..];
      assert IsDistinct(free) ==> free[0] !in free[1..];
      Elements(free[1..]) + {free[0]}
  }

  lemma AllListed(n: nat, free: seq<nat>)
    requires IsDistinct(free) && forall i | i in free :: i < n
    ensures |free| == n <==> forall i: nat | i < n :: i in free
  {
    SubsetCount(Elements(free), Range(n));
    assert (forall i: nat | i < n :: i in free) ==> Range(n) == Elements(free);
  }

  lemma {:induction false} SubsetCount(a: set<nat>, b: set<nat>)
    requires a <= b
    ensures |a| <= |b| && (|a| == |b| ==> a == b)
    decreases |b|
  {
    if x :| x in b && x in a {
      SubsetCount(a - {x}, b - {x});
      assert a == a - {x} + {x} && b == b - {x} + {x};
    } else {
      assert a == {};
    }
  }

  /** Over every run: the counter is zero exactly when every slot has finished. */
  lemma AllDoneIsExact(run: seq<Op>)
    ensures var rt := Exec(EMPTY, run);
      rt.unfinished == 0 <==> forall i: nat | i < |rt.context_list| :: rt.context_list[i].status == DONE
  {
    var rt := Exec(EMPTY, run);
    var free := RunSpec(EMPTY, [], run);
    AllListed(|rt.context_list|, free);
  }

  // ----- The class -----

  class UThreadRuntime {
    var context_list: seq<ContextSlot>
    var first_done_item: int
    var current_uthread: int
    var unfinished_item_count: int
    ghost var free: seq<nat>
    // The threads that were switched to, in order.
    ghost var switches: seq<int>

    ghost function State(): Runtime
      reads this
    {
      Runtime(context_list, first_done_item, current_uthread, unfinished_item_count)
    }

    ghost predicate Valid()
      reads this
    {
      Inv(State(), free)
    }

    constructor ()
      ensures Valid() && State() == EMPTY && switches == []
    {
      context_list, first_done_item, current_uthread, unfinished_item_count := [], -1, -1, 0;
      free, switches := [], [];
    }

    /** A null function is refused with -2 and changes nothing. */
    method CreateThread(has_func: bool) returns (index: int)
      requires Valid()
      modifies this
      ensures Valid()
      ensures !has_func ==> index == -2 && State() == old(State())
      ensures has_func ==> old(first_done_item) < |old(context_list)| && (State(), index) == Create(old(State()))
      ensures has_func ==> 0 <= index < |context_list| && context_list[index].status == SUSPEND
      ensures 0 <= index < |old(context_list)| ==> old(context_list)[index].status == DONE
      ensures forall i: nat | i < |old(context_list)| && i != index :: i < |context_list| && context_list[i] == old(context_list)[i]
      ensures switches == old(switches)
    {
      if !has_func {
        return -2;
      }
      ghost var was := State();
      CreateSpec(was, free);
      FirstInRange(was, free);
      index := -1;
      if first_done_item >= 0 {
        index := first_done_item;
        first_done_item := context_list[index].next_done_item;
      } else {
        index := |context_list|;
        // the new slot's status is not set yet
        context_list := context_list + [ContextSlot(-1, DONE)];
      }
      context_list := context_list[index := ContextSlot(-1, SUSPEND)];
      unfinished_item_count := unfinished_item_count + 1;
      free := AfterCreate(free);
      assert context_list == Create(was).0.context_list;
    }

    // The switch into the thread itself is not part of this model; it ends with the
    // thread calling YieldThread or with its done callback.
    method ResumeThread(index: nat) returns (resumed: bool)
      requires Valid()
      modifies this
      ensures Valid() && State() == Resume(old(State()), index)
      ensures context_list == old(context_list) && current_uthread == if resumed then index else old(current_uthread)
      ensures resumed <==> index < |context_list| && context_list[index].status == SUSPEND
      ensures switches == old(switches) + if resumed then [index] else []
    {
      ResumeSpec(State(), free, index);
      if index >= |context_list| {
        return false;
      }
      var context_slot := context_list[index];
      if context_slot.status == SUSPEND {
        current_uthread := index;
        switches := switches + [index];
        // the copy is marked, the stored slot is not
        context_slot := context_slot.(status := RUNNING);
        return true;
      }
      return false;
    }

    method YieldThread()
      requires Valid()
      modifies this
      ensures Valid() && State() == Yield(old(State())) && switches == old(switches)
      ensures context_list == old(context_list) && current_uthread == -1
    {
      if current_uthread != -1 {
        var context_slot := context_list[current_uthread];
        current_uthread := -1;
        context_slot := context_slot.(status := SUSPEND);
      }
    }

    method UThreadDoneCallback()
      requires Valid()
      modifies this
      ensures Valid() && State() == Done(old(State())) && switches == old(switches)
      ensures current_uthread == -1 && |context_list| == |old(context_list)|
      ensures forall i: nat | i < |context_list| ::
                context_list[i].status == if i == old(current_uthread) then DONE else old(context_list)[i].status
    {
      if current_uthread != -1 {
        DoneSpec(State(), free);
        free := [current_uthread] + free;
        context_list := context_list[current_uthread := ContextSlot(first_done_item, DONE)];
        first_done_item := current_uthread;
        unfinished_item_count := unfinished_item_count - 1;
        current_uthread := -1;
      }
    }

    method IsAllDone() returns (done: bool)
      requires Valid()
      ensures done <==> forall i: nat | i < |context_list| :: context_list[i].status == DONE
    {
      AllListed(|context_list|, free);
      return unfinished_item_count == 0;
    }
  }
}
