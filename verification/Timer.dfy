/** The scheduler's timer: a binary heap kept in a vector, in which every socket
  * remembers the position of its own entry (plus one) so that it can be removed
  * without a search.
  */
module Timers {
  import opened Common
  import opened TimerHeap

  const UINT64_MAX: nat := 0xFFFF_FFFF_FFFF_FFFF

  // The fields of the C socket record that the timer and the scheduler write.
  class UThreadSocket {
    var uthread_id: int
    var waited_events: int
    var timer_id: nat

    constructor ()
      ensures uthread_id == 0 && waited_events == 0 && timer_id == 0
    {
      uthread_id, waited_events, timer_id := 0, 0, 0;
    }
  }

  type TimerObj = Entry<UThreadSocket>

  // The timer the heap would report as due at clock reading now.
  predicate ReportedDue(abs_time: nat, now: nat) {
    abs_time <= now || (abs_time - now) % 0x1_0000_0000 == 0
  }

  predicate Distinct(h: seq<TimerObj>) {
    forall i, j :: 0 <= i < j < |h| ==> h[i].item != h[j].item
  }

  ghost predicate Stored(h: seq<TimerObj>, socket: UThreadSocket) {
    exists i :: 0 <= i < |h| && h[i].item == socket
  }

  ghost predicate Within(h: seq<TimerObj>, members: set<UThreadSocket>) {
    forall i | 0 <= i < |h| :: h[i].item in members
  }

  lemma SwapKeepsDistinct(h: seq<TimerObj>, i: nat, j: nat)
    requires i < |h| && j < |h| && Distinct(h)
    ensures Distinct(Swap(h, i, j))
  {
  }

  lemma StoredByEntries(h: seq<TimerObj>, socket: UThreadSocket)
    ensures Stored(h, socket) <==> exists e :: e in multiset(h) && e.item == socket
  {
    if e :| e in multiset(h) && e.item == socket {
      assert e in h;
    }
    if i :| 0 <= i < |h| && h[i].item == socket {
      assert h[i] in multiset(h);
    }
  }

  // One entry more: its socket becomes stored, nothing else changes.
  lemma OneMoreSocket(h: seq<TimerObj>, g: seq<TimerObj>, e: TimerObj, sockets: set<UThreadSocket>)
    requires multiset(g) == multiset(h) + multiset{e}
    ensures forall s | s in sockets :: Stored(g, s) <==> Stored(h, s) || s == e.item
    ensures Within(h, sockets) && e.item in sockets ==> Within(g, sockets)
  {
    forall s | s in sockets ensures Stored(g, s) <==> Stored(h, s) || s == e.item {
      StoredByEntries(h, s);
      StoredByEntries(g, s);
      assert forall x :: x in multiset(g) <==> x in multiset(h) || x == e;
    }
    forall i | 0 <= i < |g| ensures g[i] in h || g[i] == e {
      assert g[i] in multiset(g);
    }
  }

  // One entry fewer: its socket is no longer stored, nothing else changes.
  lemma OneFewerSocket(h: seq<TimerObj>, g: seq<TimerObj>, i: nat, sockets: set<UThreadSocket>)
    requires i < |h| && Distinct(h) && multiset(g) == multiset(h) - multiset{h[i]}
    ensures forall s | s in sockets :: Stored(g, s) <==> Stored(h, s) && s != h[i].item
    ensures !Stored(g, h[i].item)
  {
    assert h == h[..i] + [h[i]] + h[i + 1..];
    assert multiset(g) == multiset(h[..i] + h[i + 1..]);
    OneFewerEntry(h, g, i, h[i].item);
    forall s | s in sockets ensures Stored(g, s) <==> Stored(h, s) && s != h[i].item {
      OneFewerEntry(h, g, i, s);
    }
  }

  lemma RemoveAtSockets(h: seq<TimerObj>, i: nat, sockets: set<UThreadSocket>)
    requires i < |h| && IsHeap(h) && Distinct(h)
    ensures forall s | s in sockets :: Stored(RemoveAt(h, i), s) <==> Stored(h, s) && s != h[i].item
  {
    RemoveAtSpec(h, i);
    OneFewerSocket(h, RemoveAt(h, i), i, sockets);
  }

  lemma PopMinSockets(h: seq<TimerObj>, sockets: set<UThreadSocket>)
    requires |h| > 0 && IsHeap(h) && Distinct(h)
    ensures forall s | s in sockets :: Stored(PopMin(h), s) <==> Stored(h, s) && s != h[0].item
  {
    PopMinSpec(h);
    OneFewerSocket(h, PopMin(h), 0, sockets);
  }

  lemma OneFewerEntry(h: seq<TimerObj>, g: seq<TimerObj>, i: nat, s: UThreadSocket)
    requires i < |h| && Distinct(h) && multiset(g) == multiset(h[..i] + h[i + 1..])
    ensures Stored(g, s) <==> Stored(h, s) && s != h[i].item
  {
    StoredByEntries(g, s);
    StoredByEntries(h[..i] + h[i + 1..], s);
    StoredElsewhere(h, i, s);
  }

  lemma StoredElsewhere(h: seq<TimerObj>, i: nat, s: UThreadSocket)
    requires i < |h| && Distinct(h)
    ensures Stored(h[..i] + h[i + 1..], s) <==> Stored(h, s) && s != h[i].item
  {
    var rest := h[..i] + h[i + 1..];
    if k :| 0 <= k < |h| && h[k].item == s && k != i {
      assert rest[if k < i then k else k - 1] == h[k];
    }
    if k :| 0 <= k < |rest| && rest[k].item == s {
      assert h[if k < i then k else k + 1] == rest[k];
    }
  }

  // Timer id timer_id belongs to socket s.
  predicate Names(h: seq<TimerObj>, timer_id: nat, s: UThreadSocket) {
    1 <= timer_id <= |h| && h[timer_id - 1].item == s
  }

  // What removing by id means: the named entry goes, every other entry stays;
  // an id that names nothing changes nothing.
  ghost predicate Removal(h: seq<TimerObj>, g: seq<TimerObj>, timer_id: nat) {
    if 1 <= timer_id <= |h| then
      g == RemoveAt(h, timer_id - 1) && multiset(g) == multiset(h) - multiset{h[timer_id - 1]} && !Stored(g, h[timer_id - 1].item)
    else g == h
  }

  // A timer taken out by PopTimeout: the heap it was taken from, and the thread that its
  // socket named at that moment.
  datatype Popped = Popped(heap: seq<TimerObj>, thread: int)

  class Timer {
    var timer_heap: seq<TimerObj>
    // Every socket that has ever been handed to this timer.
    ghost var sockets: set<UThreadSocket>
    // Everything that PopTimeout has taken out, in order.
    ghost var popped: seq<Popped>

    /** Heap order, and each stored socket knows its own position. */
    ghost predicate Agrees()
      reads this`timer_heap, this`sockets, sockets`timer_id
    {
      && IsHeap(timer_heap)
      && Within(timer_heap, sockets)
      && (forall i | 0 <= i < |timer_heap| :: timer_heap[i].item in sockets && timer_heap[i].item.timer_id == i + 1)
    }

    /** In addition, a socket without a stored entry has timer id 0. */
    ghost predicate Valid()
      reads this`timer_heap, this`sockets, sockets`timer_id
    {
      && Agrees()
      && (forall s | s in sockets :: s.timer_id == 0 || Stored(timer_heap, s))
    }

    constructor ()
      ensures Valid() && timer_heap == [] && sockets == {} && popped == []
    {
      timer_heap, sockets, popped := [], {}, [];
    }

    // Agreement makes the stored sockets pairwise distinct.
    lemma AgreementIsDistinct()
      requires Agrees()
      ensures Distinct(timer_heap)
    {
      forall i, j | 0 <= i < j < |timer_heap| ensures timer_heap[i].item != timer_heap[j].item {
        assert timer_heap[i].item.timer_id == i + 1;
        assert timer_heap[j].item.timer_id == j + 1;
      }
    }

    ghost function Members(): (m: set<UThreadSocket>)
      requires Within(timer_heap, sockets)
      reads this`timer_heap, this`sockets
      ensures m <= sockets && Within(timer_heap, m)
      ensures forall s | s in sockets :: s in m <==> Stored(timer_heap, s)
    {
      set s | s in sockets && Stored(timer_heap, s)
    }

    // The loop state of both sifting loops: obj is being placed, slot hole still
    // holds a stale entry, and every other slot agrees with its socket.
    ghost predicate Sifting(hole: nat, obj: TimerObj, members: set<UThreadSocket>)
      reads this`timer_heap, members`timer_id
    {
      && hole < |timer_heap|
      && Distinct(timer_heap[hole := obj])
      && Within(timer_heap[hole := obj], members)
      && (forall i | 0 <= i < |timer_heap| && i != hole ::
            timer_heap[i].item in members && timer_heap[i].item.timer_id == i + 1)
    }

    // One loop step: the entry at from moves into the hole, and from becomes the hole.
    method MoveIntoHole(hole: nat, from: nat, ghost obj: TimerObj, ghost members: set<UThreadSocket>)
      requires Sifting(hole, obj, members) && from < |timer_heap| && from != hole
      modifies this`timer_heap, members`timer_id
      ensures Sifting(from, obj, members)
      ensures timer_heap[from := obj] == Swap(old(timer_heap)[hole := obj], hole, from)
    {
      ghost var full := timer_heap[hole := obj];
      SwapKeepsDistinct(full, hole, from);
      assert full[from] == timer_heap[from];
      timer_heap := timer_heap[hole := timer_heap[from]];
      timer_heap[hole].item.timer_id := hole + 1;
      assert timer_heap[from := obj] == Swap(full, hole, from);
    }

    method FillHole(hole: nat, obj: TimerObj, ghost members: set<UThreadSocket>)
      requires Sifting(hole, obj, members)
      modifies this`timer_heap, members`timer_id
      ensures timer_heap == old(timer_heap)[hole := obj]
      ensures Distinct(timer_heap) && Within(timer_heap, members)
      ensures forall i | 0 <= i < |timer_heap| :: timer_heap[i].item.timer_id == i + 1
    {
      timer_heap := timer_heap[hole := obj];
      timer_heap[hole].item.timer_id := hole + 1;
    }

    method HeapUp(end_idx: nat, ghost members: set<UThreadSocket>)
      requires 1 <= end_idx <= |timer_heap|
      requires Sifting(end_idx - 1, timer_heap[end_idx - 1], members)
      modifies this`timer_heap, members`timer_id
      ensures timer_heap == SiftUp(old(timer_heap), end_idx - 1)
      ensures Distinct(timer_heap) && Within(timer_heap, members)
      ensures forall i | 0 <= i < |timer_heap| :: timer_heap[i].item.timer_id == i + 1
    {
      var now_idx := end_idx - 1;
      var obj := timer_heap[now_idx];
      assert timer_heap[now_idx := obj] == timer_heap;
      while now_idx > 0 && obj.time < timer_heap[(now_idx - 1) / 2].time
        invariant 0 <= now_idx && Sifting(now_idx, obj, members)
        invariant SiftUp(timer_heap[now_idx := obj], now_idx) == SiftUp(old(timer_heap), end_idx - 1)
        decreases now_idx
      {
        var parent_idx := (now_idx - 1) / 2;
        MoveIntoHole(now_idx, parent_idx, obj, members);
        now_idx := parent_idx;
      }
      FillHole(now_idx, obj, members);
    }

    method HeapDown(begin_idx: nat, ghost members: set<UThreadSocket>)
      requires begin_idx < |timer_heap|
      requires Sifting(begin_idx, timer_heap[begin_idx], members)
      modifies this`timer_heap, members`timer_id
      ensures timer_heap == SiftDown(old(timer_heap), begin_idx)
      ensures Distinct(timer_heap) && Within(timer_heap, members)
      ensures forall i | 0 <= i < |timer_heap| :: timer_heap[i].item.timer_id == i + 1
    {
      hide Sifting, Distinct, Within;
      var now_idx := begin_idx;
      var obj := timer_heap[now_idx];
      var child_idx := (now_idx + 1) * 2;
      assert timer_heap[now_idx := obj] == timer_heap;
      while child_idx <= |timer_heap|
        invariant now_idx < |timer_heap| && Sifting(now_idx, obj, members)
        invariant child_idx == (now_idx + 1) * 2
        invariant SiftDown(timer_heap[now_idx := obj], now_idx) == SiftDown(old(timer_heap), begin_idx)
        decreases |timer_heap| - now_idx
      {
        if child_idx == |timer_heap| || timer_heap[child_idx - 1].time < timer_heap[child_idx].time {
          child_idx := child_idx - 1;
        }
        assert child_idx == SmallerChild(timer_heap[now_idx := obj], now_idx);
        if obj.time < timer_heap[child_idx].time || obj.time == timer_heap[child_idx].time {
          break;
        }
        MoveIntoHole(now_idx, child_idx, obj, members);
        now_idx := child_idx;
        child_idx := (now_idx + 1) * 2;
      }
      FillHole(now_idx, obj, members);
    }

    /** Stores a timer for a socket that has none. */
    method AddTimer(abs_time: nat, socket: UThreadSocket)
      requires Agrees() && !Stored(timer_heap, socket)
      modifies this`timer_heap, this`sockets, sockets`timer_id, socket`timer_id
      ensures Agrees() && sockets == old(sockets) + {socket}
      ensures timer_heap == Insert(old(timer_heap), Entry(abs_time, socket))
      ensures multiset(timer_heap) == old(multiset(timer_heap)) + multiset{Entry(abs_time, socket)}
      ensures forall s | s in sockets :: Stored(timer_heap, s) <==> old(Stored(timer_heap, s)) || s == socket
      ensures forall s | s in sockets :: Stored(timer_heap, s) || s.timer_id == old(s.timer_id)
      ensures old(Valid()) ==> Valid()
    {
      hide IsHeap, SiftUp;
      AgreementIsDistinct();
      ghost var was := timer_heap;
      var entry := Entry(abs_time, socket);
      timer_heap := timer_heap + [entry];
      sockets := sockets + {socket};
      ghost var members := Members();
      assert Sifting(|was|, entry, members) by {
        assert timer_heap[|was| := entry] == timer_heap;
      }
      HeapUp(|timer_heap|, members);
      assert timer_heap == Insert(was, entry);
      InsertSpec(was, entry);
      OneMoreSocket(was, timer_heap, entry, sockets);
      OneMoreSocket(was, was + [entry], entry, sockets);
    }

    // The last branch of RemoveTimer: the entry that filled slot now_idx moves to
    // where it belongs relative to the removed time.
    method Settle(now_idx: nat, removed_time: nat, ghost members: set<UThreadSocket>)
      requires now_idx < |timer_heap|
      requires Sifting(now_idx, timer_heap[now_idx], members)
      modifies this`timer_heap, members`timer_id
      ensures timer_heap == Settled(old(timer_heap), now_idx, removed_time)
      ensures Within(timer_heap, members)
      ensures forall i | 0 <= i < |timer_heap| :: timer_heap[i].item.timer_id == i + 1
    {
      assert timer_heap[now_idx := timer_heap[now_idx]] == timer_heap;
      if timer_heap[now_idx].time < removed_time {
        HeapUp(now_idx + 1, members);
      } else if timer_heap[now_idx].time == removed_time {
        timer_heap[now_idx].item.timer_id := now_idx + 1;
      } else {
        HeapDown(now_idx, members);
      }
    }

    // The swap with the last slot and the pop_back; pop_back only shortens the
    // vector, so storage still shows what its last slot held.
    method TakeOut(now_idx: nat) returns (storage: seq<TimerObj>, ghost members: set<UThreadSocket>)
      requires Agrees() && now_idx < |timer_heap|
      modifies this`timer_heap, sockets`timer_id
      ensures storage == Swap(old(timer_heap), now_idx, |old(timer_heap)| - 1)
      ensures timer_heap == storage[..|storage| - 1]
      ensures members <= sockets && old(timer_heap)[now_idx].item !in members
      ensures forall s | s in sockets :: s in members <==> Stored(timer_heap, s)
      ensures now_idx < |timer_heap| ==> Sifting(now_idx, timer_heap[now_idx], members)
      ensures now_idx == |timer_heap| ==> Agrees()
      ensures old(timer_heap)[now_idx].item.timer_id == 0
      ensures forall s | s in sockets && s != old(timer_heap)[now_idx].item :: s.timer_id == old(s.timer_id)
    {
      AgreementIsDistinct();
      timer_heap[now_idx].item.timer_id := 0;
      storage := Swap(timer_heap, now_idx, |timer_heap| - 1);
      timer_heap := storage[..|storage| - 1];
      members := Members();
      assert now_idx < |timer_heap| ==> timer_heap[now_idx := timer_heap[now_idx]] == timer_heap;
      assert now_idx == |timer_heap| ==> IsHeap(timer_heap) by {
        if now_idx == |timer_heap| {
          RemoveAtSpec(old(timer_heap), now_idx);
        }
      }
    }

    // Removal of a timer that is stored. Without the guard, the comparison after
    // pop_back may read the slot one past the end of the vector.
    method RemoveStored(now_idx: nat, guarded: bool)
      requires Agrees() && now_idx < |timer_heap|
      modifies this`timer_heap, sockets`timer_id
      ensures Agrees() && timer_heap == RemoveAt(old(timer_heap), now_idx)
      ensures old(timer_heap)[now_idx].item.timer_id
                == if !guarded && timer_heap != [] && now_idx == |timer_heap| then now_idx + 1 else 0
      ensures forall s | s in sockets :: Stored(timer_heap, s) <==> old(Stored(timer_heap, s)) && s != old(timer_heap)[now_idx].item
      ensures forall s | s in sockets && s != old(timer_heap)[now_idx].item ::
                Stored(timer_heap, s) || s.timer_id == old(s.timer_id)
    {
      hide IsHeap, SiftUp, SiftDown, Settled;
      var obj := timer_heap[now_idx];
      ghost var was := timer_heap;
      AgreementIsDistinct();
      var storage, members := TakeOut(now_idx);
      assert timer_heap == was[now_idx := was[|was| - 1]][..|was| - 1];
      assert IsHeap(RemoveAt(was, now_idx)) by {
        RemoveAtSpec(was, now_idx);
      }
      RemoveAtSockets(was, now_idx, sockets);
      if timer_heap == [] {
        return;
      }
      if now_idx < |timer_heap| {
        Settle(now_idx, obj.time, members);
      } else if !guarded {
        // storage[now_idx] is the removed entry itself, so the times tie
        storage[now_idx].item.timer_id := now_idx + 1;
      }
    }

    /** RemoveTimer as written. When the removed entry is the last of several, the
      * comparison after pop_back reads the slot just past the end, which still shows
      * the removed entry; its time ties with itself, so the removed socket is given
      * its old id back. The stored timers are right in every case, but the id is
      * right exactly when the entry was not the last of several.
      */
    method RemoveTimer(timer_id: nat)
      requires Agrees()
      modifies this`timer_heap, sockets`timer_id
      ensures Agrees()
      ensures Removal(old(timer_heap), timer_heap, timer_id)
      ensures forall s | s in sockets :: Stored(timer_heap, s) || s.timer_id ==
                if !Names(old(timer_heap), timer_id, s) then old(s.timer_id)
                else if 1 < timer_id == |old(timer_heap)| then timer_id else 0
      ensures forall s | s in sockets ::
                Stored(timer_heap, s) <==> old(Stored(timer_heap, s)) && !Names(old(timer_heap), timer_id, s)
      ensures old(Valid()) ==> (Valid() <==> !(1 < timer_id == |old(timer_heap)|))
    {
      if timer_id == 0 || timer_id > |timer_heap| {
        return;
      }
      RemoveAtSpec(timer_heap, timer_id - 1);
      RemoveStored(timer_id - 1, false);
    }

    /** RemoveTimer with the missing guard: stop when the last slot was removed. */
    method RemoveTimerGuarded(timer_id: nat)
      requires Agrees()
      modifies this`timer_heap, sockets`timer_id
      ensures Agrees()
      ensures Removal(old(timer_heap), timer_heap, timer_id)
      ensures forall s | s in sockets :: Stored(timer_heap, s) || s.timer_id ==
                if !Names(old(timer_heap), timer_id, s) then old(s.timer_id) else 0
      ensures forall s | s in sockets ::
                Stored(timer_heap, s) <==> old(Stored(timer_heap, s)) && !Names(old(timer_heap), timer_id, s)
      ensures old(Valid()) ==> Valid()
    {
      hide IsHeap, RemoveAt, Distinct;
      if timer_id == 0 || timer_id > |timer_heap| {
        return;
      }
      RemoveAtSpec(timer_heap, timer_id - 1);
      RemoveStored(timer_id - 1, true);
    }

    method PopRoot()
      requires Agrees() && timer_heap != []
      modifies this`timer_heap, sockets`timer_id
      ensures Agrees() && timer_heap == PopMin(old(timer_heap))
      ensures old(timer_heap)[0].item.timer_id == 0
      ensures forall s | s in sockets :: Stored(timer_heap, s) <==> old(Stored(timer_heap, s)) && s != old(timer_heap)[0].item
      ensures forall s | s in sockets && s != old(timer_heap)[0].item ::
                Stored(timer_heap, s) || s.timer_id == old(s.timer_id)
    {
      hide IsHeap, SiftDown;
      ghost var was := timer_heap;
      AgreementIsDistinct();
      var _, members := TakeOut(0);
      assert timer_heap == was[0 := was[|was| - 1]][..|was| - 1];
      assert IsHeap(PopMin(was)) by {
        PopMinSpec(was);
      }
      PopMinSockets(was, sockets);
      if |timer_heap| > 0 {
        assert timer_heap[0 := timer_heap[0]] == timer_heap;
        HeapDown(0, members);
      }
    }

    /** Takes the earliest timer out; nothing to take out is reported as null. */
    method PopTimeout() returns (socket: UThreadSocket?)
      requires Agrees()
      modifies this`timer_heap, this`popped, sockets`timer_id
      ensures popped == old(popped) + old(
                if timer_heap == [] then [] else [Popped(timer_heap, timer_heap[0].item.uthread_id)])
      ensures Agrees()
      ensures old(timer_heap) == [] <==> socket == null
      ensures socket == null ==> timer_heap == [] && unchanged(sockets)
      ensures socket != null ==>
                && socket == old(timer_heap)[0].item && socket in sockets
                && timer_heap == PopMin(old(timer_heap))
                && (forall e | e in old(timer_heap) :: old(timer_heap)[0].time <= e.time)
                && multiset(timer_heap) == old(multiset(timer_heap)) - multiset{old(timer_heap)[0]}
                && !Stored(timer_heap, socket) && socket.timer_id == 0
      ensures forall s | s in sockets :: Stored(timer_heap, s) || s == socket || s.timer_id == old(s.timer_id)
      ensures forall s | s in sockets :: Stored(timer_heap, s) <==> old(Stored(timer_heap, s)) && s != socket
      ensures old(Valid()) ==> Valid()
    {
      hide IsHeap, PopMin;
      if timer_heap == [] {
        return null;
      }
      RootIsMinimumOfAll(timer_heap);
      PopMinSpec(timer_heap);
      socket := timer_heap[0].item;
      popped := popped + [Popped(timer_heap, socket.uthread_id)];
      PopRoot();
    }

    /** How long epoll may sleep: -1 with no timers, and 0 exactly when the
      * earliest timer is reported as due. The gap is narrowed to an int, so a gap
      * that is a non-zero multiple of 2^32 is reported as due too.
      */
    method GetNextTimeout(now_time: nat) returns (next_timeout: int)
      requires Agrees()
      ensures timer_heap == [] ==> next_timeout == -1
      ensures timer_heap != [] ==> (next_timeout == 0 <==> ReportedDue(timer_heap[0].time, now_time))
      ensures timer_heap != [] && now_time < timer_heap[0].time < now_time + 0x8000_0000 ==>
                next_timeout == timer_heap[0].time - now_time
      ensures next_timeout != 0 ==> forall e | e in timer_heap :: e.time > now_time
    {
      if timer_heap == [] {
        return -1;
      }
      next_timeout := 0;
      var obj := timer_heap[0];
      RootIsMinimumOfAll(timer_heap);
      if obj.time > now_time {
        next_timeout := CastToInt(obj.time - now_time);
      }
    }

    method GetSocketList() returns (socket_list: seq<UThreadSocket>)
      requires Agrees()
      ensures |socket_list| == |timer_heap|
      ensures forall i | 0 <= i < |socket_list| :: socket_list[i] == timer_heap[i].item && socket_list[i] in sockets
      ensures forall i, j | 0 <= i < j < |socket_list| :: socket_list[i] != socket_list[j]
    {
      socket_list := [];
      for i := 0 to |timer_heap|
        invariant |socket_list| == i
        invariant forall k | 0 <= k < i :: socket_list[k] == timer_heap[k].item
      {
        socket_list := socket_list + [timer_heap[i].item];
      }
      AgreementIsDistinct();
    }
  }

  /** Taking out timers until none is left yields them all, earliest first. */
  method DrainTimer(timer: Timer) returns (order: seq<TimerObj>)
    requires timer.Valid()
    modifies timer`timer_heap, timer`popped, timer.sockets`timer_id
    ensures timer.Valid() && timer.timer_heap == [] && order == Drain(old(timer.timer_heap))
    ensures SortedByTime(order) && multiset(order) == old(multiset(timer.timer_heap))
    ensures forall s | s in timer.sockets :: s.timer_id == 0
  {
    hide IsHeap, PopMin, Drain, SortedByTime;
    ghost var all := Drain(timer.timer_heap);
    DrainSorts(timer.timer_heap);
    order := [];
    DrainStep(order, timer.timer_heap);
    while timer.timer_heap != []
      invariant timer.Valid()
      invariant order + Drain(timer.timer_heap) == all
      decreases |timer.timer_heap|
    {
      DrainStep(order, timer.timer_heap);
      var earliest := timer.timer_heap[0];
      var socket := timer.PopTimeout();
      order := order + [earliest];
    }
    DrainStep(order, timer.timer_heap);
  }

  lemma DrainStep(order: seq<TimerObj>, h: seq<TimerObj>)
    ensures h != [] ==> order + Drain(h) == order + [h[0]] + Drain(PopMin(h))
    ensures h == [] ==> order + Drain(h) == order
    ensures order == [] ==> order + Drain(h) == Drain(h)
  {
    hide PopMin;
  }

  // A second, later timer is stored and removed again.
  method StoreSecondAndRemove(timer: Timer, a: UThreadSocket, b: UThreadSocket, guarded: bool)
    requires timer.Agrees() && timer.timer_heap == [Entry(10, b)] && a != b
    modifies timer, timer.sockets`timer_id, a`timer_id
    ensures timer.Agrees() && timer.timer_heap == old(timer.timer_heap) && timer.sockets == old(timer.sockets) + {a}
    ensures a.timer_id == if guarded then 0 else 2
  {
    var e, f := Entry(10, b), Entry(20, a);
    assert !Stored([e], a);
    timer.AddTimer(20, a);
    assert timer.timer_heap == [e, f];
    assert timer.timer_heap[1].item == a;
    if guarded {
      timer.RemoveTimerGuarded(2);
    } else {
      timer.RemoveTimer(2);
    }
    assert timer.timer_heap == [e];
    assert Names([e, f], 2, a);
  }

  /** What a stale id does: a is stored and removed while it is the last of two, so
    * it keeps id 2; c is stored next and takes position 2; waiting on a again then
    * starts by removing "its" old timer, which is c's. After the guarded removal c
    * stays.
    */
  method StaleIdRemovesAnotherTimer(a: UThreadSocket, b: UThreadSocket, c: UThreadSocket, guarded: bool)
    returns (timer: Timer)
    requires a != b && b != c && a != c
    requires a.timer_id == b.timer_id == c.timer_id == 0
    modifies a`timer_id, b`timer_id, c`timer_id
    ensures Stored(timer.timer_heap, c) <==> guarded
  {
    timer := new Timer();
    timer.AddTimer(10, b);
    assert timer.timer_heap == [Entry(10, b)];
    StoreSecondAndRemove(timer, a, b, guarded);
    var e, f := Entry(10, b), Entry(30, c);
    assert !Stored([e], c);
    timer.AddTimer(30, c);
    assert timer.timer_heap == [e, f];
    assert timer.timer_heap[1].item == c;
    assert !Stored([e, f], a);
    timer.RemoveTimer(a.timer_id);
  }
}
