/** The blocking queue that links the IO thread and the workers, as a transition
  * system in which each operation on the mutex, the queue, the counter, the break-out
  * flag or the condition variable is a step of its own.
  */
module ThdQueues {

  import opened Common

  // Where a thread is. woken marks a pluck that has been notified (or woke up
  // spuriously) since it last slept; sure marks a pluck entered because size() had
  // just been seen to be positive.
  datatype PC<T> =
    | Idle
    | PushLock(value: T)
    | PushAdd(value: T)
    | PushCount(value: T)
    | PushNotify
    | PushUnlock
    | PluckLock(sure: bool)
    | PluckBreak(sure: bool)
    | PluckTest(woken: bool, sure: bool)
    | Asleep(sure: bool)
    | Awake(sure: bool)
    | WokenBreak(sure: bool)
    | PluckCount(woken: bool)
    | PluckTake(woken: bool)
    | PluckUnlock(result: Option<T>)
    | BreakLock
    | BreakSet
    | BreakNotify
    | BreakUnlock
  {
    predicate Critical() {
      PushAdd? || PushCount? || PushNotify? || PushUnlock? || PluckBreak? || PluckTest? || WokenBreak?
      || PluckCount? || PluckTake? || PluckUnlock? || BreakSet? || BreakNotify? || BreakUnlock?
    }
    // Notified, and still to take an item or to find the queue empty.
    predicate Woken() {
      Awake? || WokenBreak? || ((PluckTest? || PluckCount? || PluckTake?) && woken)
    }
    predicate Plucking() {
      PluckLock? || PluckBreak? || PluckTest? || Asleep? || Awake? || WokenBreak? || PluckCount? || PluckTake?
      || PluckUnlock?
    }
  }

  // pushed and taken record the whole history of the queue.
  datatype State<T> = State(
    threads: seq<PC<T>>,
    owner: Option<nat>,
    queue: seq<T>,
    size: int,
    broken: bool,
    pushed: seq<T>,
    taken: seq<T>)

  datatype Action<T> =
    | StartPush(t: nat, value: T)
    | StartPluck(t: nat)
    | StartPeek(t: nat)
    | StartBreak(t: nat)
    | Move(t: nat, wake: nat)
    | Spurious(t: nat)

  function Init<T>(n: nat): State<T> {
    State(seq(n, _ => Idle), None, [], 0, false, [], [])
  }

  predicate IsAsleep<T>(threads: seq<PC<T>>, t: nat) {
    t < |threads| && threads[t].Asleep?
  }

  predicate Enabled<T>(s: State<T>, a: Action<T>) {
    a.t < |s.threads| &&
    match a
    case Move(t, wake) =>
      && !s.threads[t].Idle? && !s.threads[t].Asleep?
      && ((s.threads[t].PushLock? || s.threads[t].PluckLock? || s.threads[t].Awake? || s.threads[t].BreakLock?)
          ==> s.owner == None)
      // notify_one wakes some sleeper, if there is one
      && (s.threads[t].PushNotify? && (exists u :: 0 <= u < |s.threads| && IsAsleep(s.threads, u))
          ==> IsAsleep(s.threads, wake))
    case Spurious(t) => s.threads[t].Asleep?
    case _ => s.threads[a.t].Idle?
  }

  function To<T>(s: State<T>, t: nat, pc: PC<T>): State<T>
    requires t < |s.threads|
  {
    s.(threads := s.threads[t := pc])
  }

  function WakeOne<T>(threads: seq<PC<T>>, wake: nat): seq<PC<T>> {
    if IsAsleep(threads, wake) then threads[wake := Awake(threads[wake].sure)] else threads
  }

  function WakeAll<T>(threads: seq<PC<T>>): (r: seq<PC<T>>)
    ensures |r| == |threads|
    ensures forall i | 0 <= i < |threads| :: r[i] == if threads[i].Asleep? then Awake(threads[i].sure) else threads[i]
  {
    seq(|threads|, i requires 0 <= i < |threads| => if threads[i].Asleep? then Awake(threads[i].sure) else threads[i])
  }

  function DoMove<T>(s: State<T>, t: nat, wake: nat): State<T>
    requires t < |s.threads|
  {
    match s.threads[t]
    case PushLock(v) => To(s.(owner := Some(t)), t, PushAdd(v))
    case PushAdd(v) => To(s.(queue := s.queue + [v], pushed := s.pushed + [v]), t, PushCount(v))
    case PushCount(_) => To(s.(size := s.size + 1), t, PushNotify)
    case PushNotify => s.(threads := WakeOne(s.threads[t := PushUnlock], wake))
    case PushUnlock => To(s.(owner := None), t, Idle)
    case PluckLock(sure) => To(s.(owner := Some(t)), t, PluckBreak(sure))
    case PluckBreak(sure) => To(s, t, if s.broken then PluckUnlock(None) else PluckTest(false, sure))
    case PluckTest(woken, sure) =>
      if s.queue == [] then To(s.(owner := None), t, Asleep(sure)) else To(s, t, PluckCount(woken))
    case Awake(sure) => To(s.(owner := Some(t)), t, WokenBreak(sure))
    case WokenBreak(sure) => To(s, t, if s.broken then PluckUnlock(None) else PluckTest(true, sure))
    case PluckCount(woken) => To(s.(size := s.size - 1), t, PluckTake(woken))
    case PluckTake(_) =>
      if s.queue == [] then s
      else To(s.(queue := s.queue[1..], taken := s.taken + [s.queue[0]]), t, PluckUnlock(Some(s.queue[0])))
    case PluckUnlock(_) => To(s.(owner := None), t, Idle)
    case BreakLock => To(s.(owner := Some(t)), t, BreakSet)
    case BreakSet => To(s.(broken := true), t, BreakNotify)
    case BreakNotify => s.(threads := WakeAll(s.threads[t := BreakUnlock]))
    case BreakUnlock => To(s.(owner := None), t, Idle)
    case _ => s
  }

  function Step<T>(s: State<T>, a: Action<T>): State<T> {
    if !Enabled(s, a) then s
    else match a
      case StartPush(t, v) => To(s, t, PushLock(v))
      case StartPluck(t) => To(s, t, PluckLock(false))
      case StartPeek(t) => if s.size > 0 then To(s, t, PluckLock(true)) else s
      case StartBreak(t) => To(s, t, BreakLock)
      case Move(t, wake) => DoMove(s, t, wake)
      case Spurious(t) => To(s, t, Awake(s.threads[t].sure))
  }

  function Exec<T>(s: State<T>, run: seq<Action<T>>): State<T>
    decreases |run|
  {
    if run == [] then s else Exec(Step(s, run[0]), run[1..])
  }

  // ----- The invariant -----

  function CountWoken<T>(threads: seq<PC<T>>): nat {
    if threads == [] then 0
    else CountWoken(threads[..|threads| - 1]) + if threads[|threads| - 1].Woken() then 1 else 0
  }

  lemma {:induction false} CountUpdate<T>(threads: seq<PC<T>>, t: nat, pc: PC<T>)
    requires t < |threads|
    ensures CountWoken(threads[t := pc])
            == CountWoken(threads) - (if threads[t].Woken() then 1 else 0) + if pc.Woken() then 1 else 0
    decreases |threads|
  {
    var n := |threads| - 1;
    if t < n {
      CountUpdate(threads[..n], t, pc);
      assert threads[t := pc][..n] == threads[..n][t := pc];
    } else {
      assert threads[t := pc][..n] == threads[..n];
    }
  }

  ghost predicate Exclusive<T>(threads: seq<PC<T>>, owner: Option<nat>) {
    && (owner.Some? ==> owner.value < |threads|)
    && (forall t | 0 <= t < |threads| :: threads[t].Critical() <==> owner == Some(t))
  }

  // The pc of the thread inside the mutex.
  function Inside<T>(s: State<T>): PC<T> {
    if s.owner.Some? && s.owner.value < |s.threads| then s.threads[s.owner.value] else Idle
  }

  ghost predicate Counted<T>(s: State<T>) {
    && s.taken + s.queue == s.pushed
    && s.size == |s.queue| - (if Inside(s).PushCount? || Inside(s).PluckTake? then 1 else 0)
    && (Inside(s).PushCount? || Inside(s).PluckCount? || Inside(s).PluckTake? ==> s.queue != [])
    && (Inside(s).PushCount? ==> s.queue[|s.queue| - 1] == Inside(s).value)
    && (Inside(s).PluckTest? ==> !s.broken)
  }

  // An item has been added for which the notification is still to come.
  function Announced<T>(s: State<T>): nat {
    if Inside(s).PushCount? || Inside(s).PushNotify? then 1 else 0
  }

  ghost predicate AnyAsleep<T>(threads: seq<PC<T>>) {
    exists t :: 0 <= t < |threads| && threads[t].Asleep?
  }

  ghost predicate NoLostWakeUp<T>(s: State<T>) {
    && (AnyAsleep(s.threads) && !s.broken ==> |s.queue| <= CountWoken(s.threads) + Announced(s))
    && (s.broken && !Inside(s).BreakNotify? ==> !AnyAsleep(s.threads))
  }

  ghost predicate Inv<T>(s: State<T>) {
    Exclusive(s.threads, s.owner) && Counted(s) && NoLostWakeUp(s)
  }

  lemma {:induction false} NobodyWoken<T>(n: nat)
    ensures CountWoken(Init<T>(n).threads) == 0
  {
    if n > 0 {
      NobodyWoken<T>(n - 1);
      assert Init<T>(n).threads[..n - 1] == Init<T>(n - 1).threads;
    }
  }

  lemma InitHolds<T>(n: nat)
    ensures Inv(Init<T>(n))
  {
    NobodyWoken<T>(n);
  }

  lemma ExclusiveMove<T>(s: State<T>, t: nat, wake: nat)
    requires Exclusive(s.threads, s.owner) && Enabled(s, Move(t, wake))
    ensures Exclusive(DoMove(s, t, wake).threads, DoMove(s, t, wake).owner)
  {
  }

  lemma ExclusiveKept<T>(s: State<T>, a: Action<T>)
    requires Exclusive(s.threads, s.owner)
    ensures Exclusive(Step(s, a).threads, Step(s, a).owner)
  {
    hide DoMove;
    if Enabled(s, a) && a.Move? {
      hide Exclusive, Enabled;
      ExclusiveMove(s, a.t, a.wake);
    }
  }

  lemma CountedKept<T>(s: State<T>, a: Action<T>)
    requires Exclusive(s.threads, s.owner) && Counted(s)
    ensures Counted(Step(s, a))
  {
    if Enabled(s, a) && a.Move? {
      CountedMove(s, a.t, a.wake);
      hide DoMove, Counted;
    }
  }

  lemma CountedMove<T>(s: State<T>, t: nat, wake: nat)
    requires Exclusive(s.threads, s.owner) && Counted(s) && Enabled(s, Move(t, wake))
    ensures Counted(DoMove(s, t, wake))
  {
  }

  // One thread changes its pc: nobody falls asleep unless it does.
  lemma Retarget<T>(threads: seq<PC<T>>, t: nat, pc: PC<T>)
    requires t < |threads|
    ensures AnyAsleep(threads[t := pc]) ==> AnyAsleep(threads) || pc.Asleep?
    ensures CountWoken(threads[t := pc])
            == CountWoken(threads) - (if threads[t].Woken() then 1 else 0) + if pc.Woken() then 1 else 0
  {
    CountUpdate(threads, t, pc);
    if AnyAsleep(threads[t := pc]) && !pc.Asleep? {
      var u :| 0 <= u < |threads| && threads[t := pc][u].Asleep?;
      assert threads[u].Asleep?;
    }
  }

  lemma NotifyOneKept<T>(s: State<T>, t: nat, wake: nat)
    requires Inv(s) && Enabled(s, Move(t, wake)) && s.threads[t].PushNotify?
    ensures NoLostWakeUp(DoMove(s, t, wake))
  {
    var mid := s.threads[t := PushUnlock];
    Retarget(s.threads, t, PushUnlock);
    if AnyAsleep(s.threads) {
      var u :| 0 <= u < |s.threads| && s.threads[u].Asleep?;
      assert IsAsleep(s.threads, u);
      Retarget(mid, wake, Awake(mid[wake].sure));
    } else {
      assert wake < |mid| ==> !mid[wake].Asleep?;
    }
  }

  lemma NotifyAllKept<T>(s: State<T>, t: nat, wake: nat)
    requires Inv(s) && Enabled(s, Move(t, wake)) && s.threads[t].BreakNotify?
    ensures NoLostWakeUp(DoMove(s, t, wake))
  {
    AllAwake(s.threads[t := BreakUnlock]);
  }

  lemma AllAwake<T>(threads: seq<PC<T>>)
    ensures !AnyAsleep(WakeAll(threads))
  {
  }

  lemma MoveKeepsWakeUps<T>(s: State<T>, t: nat, wake: nat)
    requires Inv(s) && Enabled(s, Move(t, wake)) && !s.threads[t].PushNotify? && !s.threads[t].BreakNotify?
    ensures NoLostWakeUp(DoMove(s, t, wake))
  {
    hide CountWoken;
    Retarget(s.threads, t, DoMove(s, t, wake).threads[t]);
    if s.threads[t].Plucking() { PluckKeepsWakeUps(s, t, wake); }
  }

  lemma PluckKeepsWakeUps<T>(s: State<T>, t: nat, wake: nat)
    requires Inv(s) && Enabled(s, Move(t, wake)) && s.threads[t].Plucking()
    ensures NoLostWakeUp(DoMove(s, t, wake))
  {
    hide CountWoken;
    Retarget(s.threads, t, DoMove(s, t, wake).threads[t]);
  }

  lemma NoLostWakeUpKept<T>(s: State<T>, a: Action<T>)
    requires Inv(s)
    ensures NoLostWakeUp(Step(s, a))
  {
    if Enabled(s, a) {
      if !a.Move? {
        hide DoMove;
        Retarget(s.threads, a.t, Step(s, a).threads[a.t]);
      } else {
        hide Inv, NoLostWakeUp, DoMove;
        if s.threads[a.t].PushNotify? { NotifyOneKept(s, a.t, a.wake); }
        else if s.threads[a.t].BreakNotify? { NotifyAllKept(s, a.t, a.wake); }
        else { MoveKeepsWakeUps(s, a.t, a.wake); }
      }
    }
  }

  lemma {:induction false} RunKeepsInv<T>(s: State<T>, run: seq<Action<T>>)
    requires Inv(s)
    ensures Inv(Exec(s, run))
    decreases |run|
  {
    hide Step, Exclusive, Counted, NoLostWakeUp;
    if run != [] {
      ExclusiveKept(s, run[0]);
      CountedKept(s, run[0]);
      NoLostWakeUpKept(s, run[0]);
      RunKeepsInv(Step(s, run[0]), run[1..]);
    }
  }

  ghost predicate Reachable<T(!new)>(s: State<T>) {
    exists n: nat, run: seq<Action<T>> :: s == Exec(Init<T>(n), run)
  }

  lemma ReachableInv<T(!new)>(s: State<T>)
    requires Reachable(s)
    ensures Inv(s)
  {
    hide Inv, Exec, Init;
    var n: nat, run: seq<Action<T>> :| s == Exec(Init<T>(n), run);
    InitHolds<T>(n);
    RunKeepsInv(Init<T>(n), run);
  }

  // ----- What it means -----

  /** First in, first out: at every step what has been taken, followed by what is
    * still queued, is what was pushed.
    */
  lemma FirstInFirstOut<T(!new)>(s: State<T>)
    requires Reachable(s)
    ensures s.taken + s.queue == s.pushed
  {
    ReachableInv(s);
  }

  /** size_ never promises an item that is not there: it is the queue length, or one
    * less inside a push or a pluck.
    */
  lemma SizeNeverOvercounts<T(!new)>(s: State<T>)
    requires Reachable(s)
    ensures 0 <= s.size <= |s.queue| <= s.size + 1
    ensures s.owner == None ==> s.size == |s.queue|
  {
    ReachableInv(s);
  }

  /** No wake-up is lost: while anyone sleeps un-notified, every queued item but the one
    * whose push is about to notify has a notified waiter still to run. After a
    * break-out has notified, nobody sleeps.
    */
  lemma EveryItemHasAWaker<T(!new)>(s: State<T>)
    requires Reachable(s)
    ensures AnyAsleep(s.threads) && !s.broken ==> |s.queue| <= CountWoken(s.threads) + Announced(s)
    ensures s.broken && !Inside(s).BreakNotify? ==> !AnyAsleep(s.threads)
  {
    ReachableInv(s);
  }

  /** So an idle queue is empty: if everyone who plucks sleeps and no push or break-out
    * is under way, there is nothing to take.
    */
  lemma AllAsleepMeansEmpty<T(!new)>(s: State<T>)
    requires Reachable(s) && s.owner == None && AnyAsleep(s.threads)
    requires forall t | 0 <= t < |s.threads| :: s.threads[t].Idle? || s.threads[t].Asleep?
    ensures !s.broken && s.queue == []
  {
    ReachableInv(s);
    NoneWoken(s.threads);
  }

  lemma {:induction false} NoneWoken<T>(threads: seq<PC<T>>)
    requires forall t | 0 <= t < |threads| :: !threads[t].Woken()
    ensures CountWoken(threads) == 0
    decreases |threads|
  {
    if threads != [] {
      NoneWoken(threads[..|threads| - 1]);
    }
  }

  // The queue every caller may think of: it changes when size_ does.
  function Visible<T>(s: State<T>): seq<T> {
    if Inside(s).PushCount? && s.queue != [] then s.queue[..|s.queue| - 1]
    else if Inside(s).PluckTake? && s.queue != [] then s.queue[1..]
    else s.queue
  }

  /** Every step acts on the visible queue like one atomic operation, or not at all, and
    * size_ is always its length. A push appends the value it was called with when it
    * counts it; a pluck removes the first item when it counts it down, and returns that
    * very item.
    */
  lemma RefinesAtomicFifo<T(!new)>(s: State<T>, a: Action<T>)
    requires Reachable(s)
    ensures s.size == |Visible(s)|
    ensures var t := Step(s, a);
      || Visible(t) == Visible(s)
      || (a.t < |s.threads| && s.threads[a.t].PushCount? && Visible(t) == Visible(s) + [s.threads[a.t].value])
      || (a.t < |s.threads| && s.threads[a.t].PluckCount? && Visible(s) != []
          && Visible(s) == [t.queue[0]] + Visible(t))
    ensures a.t < |s.threads| && s.threads[a.t].PluckTake? && Enabled(s, a) ==>
              s.queue != [] && Step(s, a).threads[a.t] == PluckUnlock(Some(s.queue[0]))
    ensures Inside(s).PluckTake? && Some(a.t) != s.owner ==> Step(s, a).queue == s.queue
  {
    ReachableInv(s);
    hide Reachable, NoLostWakeUp;
    if Enabled(s, a) && a.Move? {
      VisibleMove(s, a.t, a.wake);
      TakeReturnsFirst(s, a.t, a.wake);
      hide DoMove, Visible;
    }
  }

  lemma VisibleMove<T>(s: State<T>, t: nat, wake: nat)
    requires Exclusive(s.threads, s.owner) && Counted(s) && Enabled(s, Move(t, wake))
    ensures var n := DoMove(s, t, wake);
      || Visible(n) == Visible(s)
      || (s.threads[t].PushCount? && Visible(n) == Visible(s) + [s.threads[t].value])
      || (s.threads[t].PluckCount? && s.queue != [] && n.queue == s.queue && Visible(s) == [s.queue[0]] + Visible(n))
  {
    hide Counted;
    InsideIs(s);
    if s.owner == Some(t) {
      NextInside(s, t, wake);
    } else {
      NotInside(s, t, wake);
    }
  }

  lemma InsideIs<T>(s: State<T>)
    requires Counted(s)
    ensures Inside(s).PushCount? || Inside(s).PluckCount? || Inside(s).PluckTake? ==> s.queue != []
    ensures Inside(s).PushCount? ==> s.queue[|s.queue| - 1] == Inside(s).value
  {
  }

  // The thread inside goes on, or leaves the mutex.
  lemma NextInside<T>(s: State<T>, t: nat, wake: nat)
    requires Exclusive(s.threads, s.owner) && Enabled(s, Move(t, wake)) && s.owner == Some(t)
    ensures Inside(s) == s.threads[t]
    ensures Inside(DoMove(s, t, wake)) == if DoMove(s, t, wake).owner == Some(t) then DoMove(s, t, wake).threads[t] else Idle
    ensures s.threads[t].Critical()
  {
  }

  // A thread outside moves, at most into the mutex.
  lemma NotInside<T>(s: State<T>, t: nat, wake: nat)
    requires Exclusive(s.threads, s.owner) && Enabled(s, Move(t, wake)) && s.owner != Some(t)
    ensures DoMove(s, t, wake).queue == s.queue
    ensures Inside(DoMove(s, t, wake)) == Inside(s) || (Inside(s).Idle?
            && !Inside(DoMove(s, t, wake)).PushCount? && !Inside(DoMove(s, t, wake)).PluckTake?)
    ensures !s.threads[t].PushCount? && !s.threads[t].PluckCount? && !s.threads[t].PluckTake?
  {
  }

  lemma TakeReturnsFirst<T>(s: State<T>, t: nat, wake: nat)
    requires Exclusive(s.threads, s.owner) && Counted(s) && Enabled(s, Move(t, wake))
    ensures s.threads[t].PluckTake? ==> s.queue != [] && DoMove(s, t, wake).threads[t] == PluckUnlock(Some(s.queue[0]))
    ensures Inside(s).PluckTake? && Some(t) != s.owner ==> DoMove(s, t, wake).queue == s.queue
  {
  }

  ghost predicate EmptyHandedOk<T>(s: State<T>) {
    forall t | 0 <= t < |s.threads| && s.threads[t] == PluckUnlock(None) :: s.broken
  }

  lemma EmptyHandedKept<T>(s: State<T>, a: Action<T>)
    requires EmptyHandedOk(s)
    ensures EmptyHandedOk(Step(s, a))
  {
    if Enabled(s, a) && a.Move? {
      EmptyHandedMove(s, a.t, a.wake);
      hide DoMove, EmptyHandedOk;
    }
  }

  lemma EmptyHandedMove<T>(s: State<T>, t: nat, wake: nat)
    requires EmptyHandedOk(s) && t < |s.threads|
    ensures EmptyHandedOk(DoMove(s, t, wake))
  {
  }

  lemma {:induction false} RunKeepsEmptyHanded<T>(s: State<T>, run: seq<Action<T>>)
    requires EmptyHandedOk(s)
    ensures EmptyHandedOk(Exec(s, run))
    decreases |run|
  {
    hide Step, EmptyHandedOk;
    if run != [] {
      EmptyHandedKept(s, run[0]);
      RunKeepsEmptyHanded(Step(s, run[0]), run[1..]);
    }
  }

  /** In every run, whoever comes out of a pluck without an item does so after a break-out. */
  lemma EmptyHandedOnlyWhenBroken<T(!new)>(s: State<T>, t: nat)
    requires Reachable(s) && t < |s.threads| && s.threads[t] == PluckUnlock(None)
    ensures s.broken
  {
    hide Exec;
    var n: nat, run: seq<Action<T>> :| s == Exec(Init<T>(n), run);
    RunKeepsEmptyHanded(Init<T>(n), run);
  }

  /** Inside the mutex a pluck gives up if and only if there was a break-out, and else takes an
    * item if and only if there is one; it sleeps only on an empty queue.
    */
  lemma PluckDecides<T(!new)>(s: State<T>, t: nat, wake: nat)
    requires Reachable(s) && Enabled(s, Move(t, wake))
    ensures var n := Step(s, Move(t, wake)).threads[t];
      && (s.threads[t].PluckBreak? || s.threads[t].WokenBreak? ==>
            if s.broken then n == PluckUnlock(None) else n.PluckTest?)
      && (s.threads[t].PluckTest? ==> if s.queue != [] then n.PluckCount? else n.Asleep?)
      && (s.threads[t].PluckTake? ==> s.queue != [] && n == PluckUnlock(Some(s.queue[0])))
  {
    ReachableInv(s);
    hide NoLostWakeUp;
  }

  /** A look at size() sends the consumer into a pluck if and only if there is something to
    * take, as long as nobody else is in the middle of an operation.
    */
  lemma PeekIsExact<T(!new)>(s: State<T>, t: nat)
    requires Reachable(s) && Enabled(s, StartPeek(t)) && s.owner == None
    ensures Step(s, StartPeek(t)).threads[t] == if s.queue != [] then PluckLock(true) else Idle
  {
    SizeNeverOvercounts(s);
  }

  // The thread has something to do.
  predicate IsBusy<T>(s: State<T>, t: nat) {
    t < |s.threads| && !s.threads[t].Idle? && !s.threads[t].Asleep?
  }

  /** The queue never gets stuck: as long as any thread is awake inside an operation, one of
    * them can move, and moving takes it on.
    */
  lemma SomebodyCanMove<T(!new)>(s: State<T>, t: nat) returns (mover: nat, wake: nat)
    requires Reachable(s) && IsBusy(s, t)
    ensures Enabled(s, Move(mover, wake)) && IsBusy(s, mover)
    ensures Step(s, Move(mover, wake)).threads[mover] != s.threads[mover]
  {
    hide CountWoken;
    ReachableInv(s);
    mover := if s.owner.Some? then s.owner.value else t;
    wake := SomeSleeper(s.threads);
    CanMove(s, mover, wake);
  }

  lemma SomeSleeper<T>(threads: seq<PC<T>>) returns (wake: nat)
    ensures (exists u :: 0 <= u < |threads| && IsAsleep(threads, u)) ==> IsAsleep(threads, wake)
  {
    wake := 0;
    if u :| 0 <= u < |threads| && IsAsleep(threads, u) {
      wake := u;
    }
  }

  lemma CanMove<T>(s: State<T>, t: nat, wake: nat)
    requires Exclusive(s.threads, s.owner) && Counted(s) && (s.owner == Some(t) || (s.owner == None && IsBusy(s, t)))
    requires (exists u :: 0 <= u < |s.threads| && IsAsleep(s.threads, u)) ==> IsAsleep(s.threads, wake)
    ensures Enabled(s, Move(t, wake)) && IsBusy(s, t) && Step(s, Move(t, wake)).threads[t] != s.threads[t]
  {
    hide WakeAll, CountWoken;
  }

  // ----- A single consumer that looks before it plucks -----

  // Only thread c plucks; it is the IO thread for the out-queue.
  ghost predicate OnlyConsumer<T>(run: seq<Action<T>>, c: nat) {
    forall i | 0 <= i < |run| :: (run[i].StartPluck? || run[i].StartPeek?) ==> run[i].t == c
  }

  predicate Sure<T>(pc: PC<T>) {
    (pc.PluckLock? || pc.PluckBreak? || pc.PluckTest? || pc.Asleep? || pc.Awake? || pc.WokenBreak?) && pc.sure
  }

  ghost predicate SureOk<T>(s: State<T>, c: nat) {
    && (forall t | 0 <= t < |s.threads| && t != c :: !s.threads[t].Plucking())
    && (c < |s.threads| && Sure(s.threads[c]) ==> s.queue != [] && !s.threads[c].Asleep?)
  }

  lemma SureMove<T>(s: State<T>, t: nat, wake: nat, c: nat)
    requires Exclusive(s.threads, s.owner) && Counted(s) && SureOk(s, c) && Enabled(s, Move(t, wake))
    ensures SureOk(DoMove(s, t, wake), c)
  {
  }

  lemma SureKept<T>(s: State<T>, a: Action<T>, c: nat)
    requires Inv(s) && SureOk(s, c) && ((a.StartPluck? || a.StartPeek?) ==> a.t == c)
    ensures SureOk(Step(s, a), c)
  {
    hide NoLostWakeUp, CountWoken, DoMove;
    if Enabled(s, a) && a.Move? {
      SureMove(s, a.t, a.wake, c);
      hide SureOk, Counted, Exclusive;
    }
  }

  lemma {:induction false} RunKeepsSure<T>(s: State<T>, run: seq<Action<T>>, c: nat)
    requires Inv(s) && SureOk(s, c) && OnlyConsumer(run, c)
    ensures SureOk(Exec(s, run), c)
    decreases |run|
  {
    hide Step, SureOk, Exclusive, Counted, NoLostWakeUp;
    if run != [] {
      SureKept(s, run[0], c);
      RunKeepsInv(s, run[..1]);
      assert Exec(s, run[..1]) == Step(s, run[0]) by {
        assert run[..1][1..] == [];
      }
      RunKeepsSure(Step(s, run[0]), run[1..], c);
    }
  }

  /** The only consumer never blocks in a pluck it enters after seeing a positive size. */
  lemma PeekingConsumerNeverBlocks<T>(n: nat, run: seq<Action<T>>, c: nat)
    requires OnlyConsumer(run, c)
    ensures var s := Exec(Init<T>(n), run); c < |s.threads| && Sure(s.threads[c]) ==> s.queue != [] && !s.threads[c].Asleep?
  {
    InitHolds<T>(n);
    RunKeepsSure(Init<T>(n), run, c);
  }
}
