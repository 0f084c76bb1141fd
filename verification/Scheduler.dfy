/** The scheduler that drives the user threads of one OS thread: it resumes the threads
  * whose sockets have events and those whose timers have run out.
  */
module Schedulers {
  import opened Common
  import opened TimerHeap
  import opened Timers
  import opened UThreadRuntimes
  import opened SchedulerRuns

  const TIMEOUT_EVENT := 0
  const ERROR_EVENT := -1
  const CLOSE_EVENT := -2

  class UThreadEpollScheduler {
    const runtime: UThreadRuntime
    const timer: Timer
    // All the sockets that the threads may wait for.
    const pool: set<UThreadSocket>
    // Whether RemoveTimer has its missing guard; the code as written is without.
    const guarded: bool
    // The socket that each thread inside UThreadPoll or UThreadWait waits for; in the
    // source this is a parameter of that call, on the thread's own stack.
    var waiting: map<nat, UThreadSocket>
    // The threads inside UThreadPoll: epoll knows their sockets, and no others.
    var polled: set<nat>
    // What each thread that was switched to found in the waited_events of the socket it
    // waited for, if it waited.
    ghost var found: seq<Option<int>>

    ghost predicate Sound()
      reads timer, timer.sockets`timer_id, pool`timer_id
    {
      && timer.Agrees() && (guarded ==> timer.Valid()) && timer.sockets <= pool
      && (forall s | s in pool && s !in timer.sockets :: s.timer_id == 0)
    }

    // Waiting threads are suspended, each with a socket of its own that names it.
    ghost predicate WaitersSuspended()
      reads this`waiting, this`polled, runtime, pool`uthread_id
    {
      && polled <= waiting.Keys
      && forall t | t in waiting ::
        && t < |runtime.context_list| && runtime.context_list[t].status == SUSPEND
        && waiting[t] in pool && waiting[t].uthread_id == t
    }

    // A socket in the timer heap names the thread that waits for it.
    ghost predicate TimersNameWaiters()
      reads this`waiting, timer, pool`uthread_id
    {
      forall s | s in pool && Stored(timer.timer_heap, s) :: s.uthread_id in waiting && waiting[s.uthread_id] == s
    }

    // Every waiting thread, except at most one that is being resumed, has a timer.
    ghost predicate WaitersTimed(except: int)
      reads this`waiting, timer
    {
      forall t | t in waiting && t != except :: Stored(timer.timer_heap, waiting[t])
    }

    // Without the guard a waiting thread may lose its timer to a stale id.
    ghost predicate ConsistentBut(except: int)
      reads this`waiting, this`polled, runtime, timer, timer.sockets`timer_id, pool`timer_id, pool`uthread_id
    {
      && runtime.Valid() && Sound() && WaitersSuspended() && TimersNameWaiters()
      && (guarded ==> WaitersTimed(except))
    }

    /** What holds whenever the scheduler is in control: the timers name waiting threads one
      * to one, and with the guard every waiting thread has one.
      */
    ghost predicate Consistent()
      reads this`waiting, this`polled, runtime, timer, timer.sockets`timer_id, pool`timer_id, pool`uthread_id
    {
      ConsistentBut(-1) && runtime.current_uthread == -1
    }

    ghost function Who(): Waiters
      reads this`waiting, this`polled, timer`timer_heap, pool`uthread_id
    {
      Waiters(waiting, polled, timer.timer_heap, map s | s in pool :: s.uthread_id)
    }

    // The waiting threads that have a timer.
    ghost function Timed(): (threads: set<nat>)
      reads this`waiting, this`polled, timer`timer_heap, pool`uthread_id
    {
      TimedIn(Who())
    }

    ghost predicate AllFinished()
      reads runtime`context_list
    {
      forall i: nat | i < |runtime.context_list| :: runtime.context_list[i].status == DONE
    }

    ghost function Now(): Snapshot
      reads this`waiting, this`polled, this`found, timer`timer_heap, timer`popped, pool`uthread_id
      reads runtime`switches, runtime`context_list
    {
      Snapshot(Who(), runtime.switches, found, timer.popped, AllFinished())
    }

    // What a thread would find if it were switched to now.
    ghost function Finds(thread: int): Option<int>
      reads this`waiting, waiting.Values`waited_events
    {
      if thread in waiting then Some(waiting[thread].waited_events) else None
    }

    /** With the scheduler in control, the timers name pairwise different sockets and
      * pairwise different threads, all of them suspended.
      */
    lemma TimersNameDistinctSuspendedThreads(i: nat, j: nat)
      requires Consistent() && i < j < |timer.timer_heap|
      ensures var s, r := timer.timer_heap[i].item, timer.timer_heap[j].item;
        && s != r && s.uthread_id != r.uthread_id
        && 0 <= s.uthread_id < |runtime.context_list| && runtime.context_list[s.uthread_id].status == SUSPEND
        && 0 <= r.uthread_id < |runtime.context_list| && runtime.context_list[r.uthread_id].status == SUSPEND
    {
      hide Inv, IsHeap;
      timer.AgreementIsDistinct();
      assert Stored(timer.timer_heap, timer.timer_heap[i].item);
      assert Stored(timer.timer_heap, timer.timer_heap[j].item);
    }

    constructor (pool: set<UThreadSocket>, guarded: bool)
      requires forall s | s in pool :: s.timer_id == 0
      ensures Consistent() && this.pool == pool && this.guarded == guarded && waiting == map[] && polled == {}
      ensures found == [] && runtime.State() == EMPTY && runtime.switches == [] && timer.timer_heap == [] && timer.popped == []
      ensures fresh(runtime) && fresh(timer)
    {
      runtime := new UThreadRuntime();
      timer := new Timer();
      this.pool, this.guarded := pool, guarded;
      waiting, polled, found := map[], {}, [];
    }

    // ----- Timers -----

    /** The timer that the id names goes, and no other. */
    method RemoveTimer(timer_id: nat)
      requires Sound()
      modifies timer`timer_heap, pool`timer_id
      ensures Sound()
      ensures forall s | s in pool ::
                Stored(timer.timer_heap, s) <==> old(Stored(timer.timer_heap, s)) && !Names(old(timer.timer_heap), timer_id, s)
      ensures Removal(old(timer.timer_heap), timer.timer_heap, timer_id)
    {
      hide IsHeap, RemoveAt;
      OthersAreNotStored();
      if timer_id > 0 {
        if guarded {
          timer.RemoveTimerGuarded(timer_id);
        } else {
          timer.RemoveTimer(timer_id);
        }
      }
      OthersAreNotStored();
    }

    lemma OthersAreNotStored()
      requires timer.Agrees()
      ensures forall s | s in pool && s !in timer.sockets :: !Stored(timer.timer_heap, s)
    {
    }

    // The id that a stored socket carries names its own timer; with the guard, a socket
    // that is not stored carries 0.
    lemma IdIsRight(socket: UThreadSocket)
      requires Sound() && socket in pool
      ensures Stored(timer.timer_heap, socket) <==> Names(timer.timer_heap, socket.timer_id, socket)
      ensures guarded && !Stored(timer.timer_heap, socket) ==> socket.timer_id == 0
      ensures guarded || Stored(timer.timer_heap, socket) ==>
                forall s | Names(timer.timer_heap, socket.timer_id, s) :: s == socket
      ensures (guarded || Stored(timer.timer_heap, socket)) && 1 <= socket.timer_id <= |timer.timer_heap| ==>
                timer.timer_heap[socket.timer_id - 1].item == socket
    {
      hide IsHeap, Within;
      if i :| 0 <= i < |timer.timer_heap| && timer.timer_heap[i].item == socket {
        assert timer.timer_heap[i].item.timer_id == i + 1;
      }
    }

    /** A socket's earlier timer, if it has one, is replaced. With the guard no other socket
      * is affected; as written, a stale id takes the timer that it names now.
      */
    method AddTimer(socket: UThreadSocket, timeout_ms: int, now: nat)
      requires Sound() && socket in pool
      modifies timer`timer_heap, timer`sockets, pool`timer_id
      ensures Sound()
      ensures forall s | s in pool :: Stored(timer.timer_heap, s) <==>
                s == socket || old(Stored(timer.timer_heap, s) && !Names(timer.timer_heap, socket.timer_id, s))
      ensures guarded ==> forall s | s in pool ::
                Stored(timer.timer_heap, s) <==> s == socket || old(Stored(timer.timer_heap, s))
      ensures multiset(timer.timer_heap) == multiset{Entry(Deadline(now, timeout_ms), socket)} + old(
                if 1 <= socket.timer_id <= |timer.timer_heap|
                then multiset(timer.timer_heap) - multiset{timer.timer_heap[socket.timer_id - 1]}
                else multiset(timer.timer_heap))
      ensures timeout_ms == -1 ==> Deadline(now, timeout_ms) == 0xFFFF_FFFF_FFFF_FFFF
      ensures 0 <= timeout_ms && now + timeout_ms <= 0xFFFF_FFFF_FFFF_FFFF ==> Deadline(now, timeout_ms) == now + timeout_ms
    {
      hide RemoveAt, Deadline, Stored, Sound;
      IdIsRight(socket);
      RemoveTimer(socket.timer_id);
      StoreTimer(Deadline(now, timeout_ms), socket);
    }

    // The call of timer_.AddTimer.
    method StoreTimer(abs_time: nat, socket: UThreadSocket)
      requires Sound() && socket in pool && !Stored(timer.timer_heap, socket)
      modifies timer`timer_heap, timer`sockets, pool`timer_id
      ensures Sound()
      ensures forall s | s in pool :: Stored(timer.timer_heap, s) <==> old(Stored(timer.timer_heap, s)) || s == socket
      ensures multiset(timer.timer_heap) == old(multiset(timer.timer_heap)) + multiset{Entry(abs_time, socket)}
    {
      hide IsHeap, Insert, Within, Stored;
      OthersAreNotStored();
      timer.AddTimer(abs_time, socket);
      OthersAreNotStored();
    }

    // ----- One turn of a thread -----

    lemma CurrentIsSuspended()
      requires runtime.Valid() && runtime.current_uthread >= 0
      ensures runtime.current_uthread < |runtime.context_list|
      ensures runtime.context_list[runtime.current_uthread].status == SUSPEND
    {
    }

    // UThreadPoll and UThreadWait up to the yield.
    method BeginWait(socket: UThreadSocket, polls: bool, timeout_ms: int, now: nat)
      requires ConsistentBut(-1) && runtime.current_uthread >= 0 && runtime.current_uthread !in waiting
      requires socket in pool && socket !in waiting.Values
      modifies this`waiting, this`polled, runtime, timer`timer_heap, timer`sockets, pool`uthread_id, pool`timer_id
      ensures Consistent() && waiting == old(waiting)[old(runtime.current_uthread) := socket]
      ensures polled == if polls then old(polled) + {old(runtime.current_uthread)} else old(polled)
      ensures OthersWait(guarded, [old(runtime.current_uthread)], old(Who()), Who())
      ensures runtime.context_list == old(runtime.context_list) && runtime.switches == old(runtime.switches)
      ensures Entry(Deadline(now, timeout_ms), socket) in timer.timer_heap
    {
      hide Inv, Sound, Stored, Deadline, OnlyTimersOf, OthersWait;
      var thread := runtime.current_uthread;
      ghost var before := Who();
      CurrentIsSuspended();
      socket.uthread_id := thread;
      RegisterWait(socket, polls, timeout_ms, now, thread);
      OneChangesItsWait(guarded, thread, socket, before, Who());
      runtime.YieldThread();
    }

    // What a wait leaves in the scheduler: its timer, and for UThreadPoll its registration.
    method RegisterWait(socket: UThreadSocket, polls: bool, timeout_ms: int, now: nat, thread: nat)
      requires runtime.Valid() && Sound() && thread == runtime.current_uthread && thread !in waiting
      requires polled <= waiting.Keys && thread < |runtime.context_list| && runtime.context_list[thread].status == SUSPEND
      requires forall t | t in waiting ::
        && t < |runtime.context_list| && runtime.context_list[t].status == SUSPEND
        && waiting[t] in pool && waiting[t] != socket && waiting[t].uthread_id == t
      requires forall s | s in pool && s != socket && Stored(timer.timer_heap, s) ::
                 s.uthread_id in waiting && waiting[s.uthread_id] == s
      requires guarded ==> WaitersTimed(-1)
      requires socket in pool && socket.uthread_id == thread
      modifies this`waiting, this`polled, timer`timer_heap, timer`sockets, pool`timer_id
      ensures ConsistentBut(-1) && waiting == old(waiting)[thread := socket]
      ensures polled == if polls then old(polled) + {thread} else old(polled)
      ensures OnlyTimersOf(guarded, socket, old(timer.timer_heap), timer.timer_heap)
      ensures Entry(Deadline(now, timeout_ms), socket) in timer.timer_heap
    {
      hide Inv, Sound, Stored, Deadline, OnlyTimersOf;
      SetTimer(socket, timeout_ms, now);
      waiting := waiting[thread := socket];
      if polls {
        polled := polled + {thread};
      }
    }

    // The AddTimer call of a wait.
    method SetTimer(socket: UThreadSocket, timeout_ms: int, now: nat)
      requires Sound() && socket in pool
      modifies timer`timer_heap, timer`sockets, pool`timer_id
      ensures Sound() && Stored(timer.timer_heap, socket)
      ensures OnlyTimersOf(guarded, socket, old(timer.timer_heap), timer.timer_heap)
      ensures forall s | s in pool && Stored(timer.timer_heap, s) :: s == socket || old(Stored(timer.timer_heap, s))
      ensures guarded ==> forall s | s in pool && old(Stored(timer.timer_heap, s)) :: Stored(timer.timer_heap, s)
      ensures Entry(Deadline(now, timeout_ms), socket) in timer.timer_heap
    {
      hide Sound, Stored, Names, Deadline, OnlyTimersOf;
      IdIsRight(socket);
      ghost var heap := timer.timer_heap;
      ghost var id := socket.timer_id;
      AddTimer(socket, timeout_ms, now);
      ReplacementKeepsOthers(guarded, socket, id, Deadline(now, timeout_ms), heap, timer.timer_heap);
      assert Entry(Deadline(now, timeout_ms), socket) in multiset(timer.timer_heap);
    }

    // The removal of a socket's own timer, if it has one.
    method DropTimer(socket: UThreadSocket)
      requires Sound() && socket in pool
      modifies timer`timer_heap, pool`timer_id
      ensures Sound() && !Stored(timer.timer_heap, socket)
      ensures OnlyTimersOf(guarded, socket, old(timer.timer_heap), timer.timer_heap)
      ensures forall s | s in pool && Stored(timer.timer_heap, s) :: old(Stored(timer.timer_heap, s))
      ensures guarded ==> forall s | s in pool && s != socket && old(Stored(timer.timer_heap, s)) :: Stored(timer.timer_heap, s)
    {
      hide Sound, Stored, Removal, Names, OnlyTimersOf;
      IdIsRight(socket);
      ghost var heap := timer.timer_heap;
      ghost var id := socket.timer_id;
      RemoveTimer(socket.timer_id);
      RemovalKeepsOthers(guarded, socket, id, heap, timer.timer_heap);
    }

    // The end of the wait: the socket leaves epoll, and its timer goes if it has not fired.
    method EndWait(thread: nat)
      requires ConsistentBut(thread) && thread in waiting
      modifies this`waiting, this`polled, timer`timer_heap, pool`timer_id
      ensures ConsistentBut(-1) && waiting == old(waiting) - {thread} && polled == old(polled) - {thread}
      ensures OthersWait(guarded, [thread], old(Who()), Who())
      ensures !Stored(timer.timer_heap, old(waiting[thread]))
    {
      hide Inv, Sound, Stored, OnlyTimersOf, OthersWait;
      ghost var before := Who();
      DropTimer(waiting[thread]);
      polled := polled - {thread};
      waiting := waiting - {thread};
      OneChangesItsWait(guarded, thread, before.waiting[thread], before, Who());
    }

    method YieldTask()
      requires ConsistentBut(-1)
      modifies runtime
      ensures Consistent() && runtime.context_list == old(runtime.context_list)
      ensures runtime.switches == old(runtime.switches)
    {
      hide Inv, Sound, Stored;
      runtime.YieldThread();
    }

    // The thread's function returns.
    method Finish()
      requires ConsistentBut(-1) && runtime.current_uthread >= 0 && runtime.current_uthread !in waiting
      modifies runtime
      ensures Consistent() && |runtime.context_list| == |old(runtime.context_list)|
      ensures runtime.context_list[old(runtime.current_uthread)].status == DONE
      ensures runtime.switches == old(runtime.switches)
    {
      hide Inv, Sound, Stored;
      CurrentIsSuspended();
      runtime.UThreadDoneCallback();
    }

    lemma NobodyExcepted(thread: int)
      requires ConsistentBut(thread) && thread !in waiting
      ensures ConsistentBut(-1)
    {
    }

    // What the turn of a thread leaves behind; before is who waited for what.
    ghost predicate TurnTaken(thread: int, turn: Turn, before: map<nat, UThreadSocket>)
      reads this`waiting, this`polled, runtime, timer
    {
      0 <= thread < |runtime.context_list| &&
      match turn
      case Waits(socket, polls, timeout_ms, now) =>
        socket !in (before - {thread}).Values ==>
          && thread in waiting && waiting[thread] == socket && (thread in polled <==> polls)
          && Entry(Deadline(now, timeout_ms), socket) in timer.timer_heap
      case Yields => thread !in waiting && runtime.context_list[thread].status == SUSPEND
      case Finishes => thread !in waiting && runtime.context_list[thread].status == DONE
    }

    /** What the running thread does until it gives control back. */
    method TakeTurn(turn: Turn)
      requires runtime.current_uthread >= 0 && ConsistentBut(runtime.current_uthread)
      requires turn.Waits? ==> turn.socket in pool
      modifies this`waiting, this`polled, runtime, timer`timer_heap, timer`sockets, pool`uthread_id, pool`timer_id
      ensures Consistent()
      ensures OthersWait(guarded, [old(runtime.current_uthread)], old(Who()), Who())
      ensures |runtime.context_list| == |old(runtime.context_list)| && runtime.switches == old(runtime.switches)
      ensures TurnTaken(old(runtime.current_uthread), turn, old(waiting))
    {
      hide Inv, Sound, Stored, TimersNameWaiters, WaitersTimed, Deadline, OthersWait;
      CurrentIsSuspended();
      var thread := runtime.current_uthread;
      if thread in waiting {
        EndWait(thread);
      } else {
        NobodyExcepted(thread);
        SameWaiters(guarded, [thread], Who());
        assert waiting - {thread} == waiting;
      }
      ghost var between := Who();
      // no thread waits for a socket that another one waits for
      if turn.Waits? && turn.socket !in waiting.Values {
        BeginWait(turn.socket, turn.polls, turn.timeout_ms, turn.now);
        OthersStillWait(guarded, [thread], [thread], old(Who()), between, Who());
        OnceIsEnough(guarded, thread, old(Who()), Who());
      } else if turn.Finishes? {
        Finish();
      } else {
        YieldTask();
      }
    }

    /** Resuming a thread: a suspended one is switched to and takes a turn, any other index
      * does nothing. Whoever else waits goes on waiting for the same socket.
      */
    method ResumeThread(index: int, turn: Turn) returns (resumed: bool)
      requires runtime.current_uthread == -1 && ConsistentBut(index)
      requires turn.Waits? ==> turn.socket in pool
      modifies this`waiting, this`polled, this`found, runtime, timer`timer_heap, timer`sockets, pool`uthread_id, pool`timer_id
      ensures Consistent()
      ensures resumed <==> 0 <= index < |old(runtime.context_list)| && old(runtime.context_list)[index].status == SUSPEND
      ensures index in old(waiting) ==> resumed
      ensures runtime.switches == old(runtime.switches) + if resumed then [index] else []
      ensures found == old(found) + if resumed then [old(Finds(index))] else []
      ensures resumed ==> TurnTaken(index, turn, old(waiting))
      ensures OthersWait(guarded, if resumed then [index] else [], old(Who()), Who())
      ensures |runtime.context_list| == |old(runtime.context_list)|
    {
      hide Inv, Sound, Stored, TimersNameWaiters, WaitersTimed, TurnTaken, OthersWait;
      SameWaiters(guarded, [], Who());
      // a negative id becomes a huge unsigned index
      resumed := false;
      if index >= 0 {
        resumed := runtime.ResumeThread(index);
      }
      if resumed {
        found := found + [Finds(index)];
        TakeTurn(turn);
      } else {
        NobodyExcepted(index);
      }
    }

    // ----- The scheduler loop -----

    // The socket is that of a waiting thread.
    ghost predicate IsWaitedFor(s: UThreadSocket, thread: int)
      reads this`waiting, s`uthread_id
    {
      s.uthread_id == thread && thread in waiting && waiting[thread] == s
    }

    /** The loop over the sockets that epoll_wait reported, and the loop of ResumeAll:
      * every listed socket's thread is switched to once, in this order, and finds its own
      * event, although the threads resumed before it start and end waits of their own.
      */
    method ResumeEach(list: seq<Event>, turns: seq<Turn>) returns (resumed: seq<int>)
      requires Consistent()
      requires |turns| == |list|
      requires forall i, j :: 0 <= i < j < |list| ==> list[i].socket != list[j].socket
      requires forall e | e in list :: e.socket in pool && IsWaitedFor(e.socket, e.socket.uthread_id)
      requires TurnsWithin(turns, pool)
      modifies this`waiting, this`polled, this`found, runtime, timer`timer_heap, timer`sockets, pool
      ensures Consistent()
      ensures runtime.switches == old(runtime.switches) + resumed
      ensures found == old(found) + Masks(list)
      ensures |resumed| == |list| && forall k | 0 <= k < |list| :: resumed[k] == old(list[k].socket.uthread_id)
      ensures OthersWait(guarded, resumed, old(Who()), Who())
    {
      hide Inv, Sound, Stored, WaitersTimed, TimersNameWaiters, OthersWait, TurnTaken;
      resumed := [];
      ghost var marks := [];
      SameWaiters(guarded, [], Who());
      for k := 0 to |list|
        invariant Consistent() && |resumed| == |marks| == k
        invariant runtime.switches == old(runtime.switches) + resumed
        invariant found == old(found) + marks
        invariant forall i | 0 <= i < k :: resumed[i] == old(list[i].socket.uthread_id) && marks[i] == Some(list[i].mask)
        invariant forall i | k <= i < |list| :: IsWaitedFor(list[i].socket, old(list[i].socket.uthread_id))
        invariant OthersWait(guarded, resumed, old(Who()), Who())
      {
        var thread := list[k].socket.uthread_id;
        ghost var before := Who();
        var ok := ResumeWaiter(list[k].socket, list[k].mask, turns[k]);
        OthersStillWait(guarded, resumed, [thread], old(Who()), before, Who());
        if ok {
          resumed := resumed + [thread];
          marks := marks + [Some(list[k].mask)];
        }
      }
      assert marks == Masks(list);
    }

    // socket->waited_events = event, and the resumption of its thread.
    method ResumeWaiter(socket: UThreadSocket, event: int, turn: Turn) returns (resumed: bool)
      requires Consistent() && socket in pool && IsWaitedFor(socket, socket.uthread_id)
      requires turn.Waits? ==> turn.socket in pool
      modifies this`waiting, this`polled, this`found, runtime, timer`timer_heap, timer`sockets, pool`uthread_id, pool`timer_id, socket`waited_events
      ensures Consistent() && resumed
      ensures runtime.switches == old(runtime.switches) + [old(socket.uthread_id)]
      ensures found == old(found) + [Some(event)]
      ensures TurnTaken(old(socket.uthread_id), turn, old(waiting))
      ensures OthersWait(guarded, [old(socket.uthread_id)], old(Who()), Who())
      ensures forall s | s in pool && s != socket && old(IsWaitedFor(s, s.uthread_id)) ::
                s.uthread_id == old(s.uthread_id) && IsWaitedFor(s, s.uthread_id)
    {
      hide Inv, Sound, Stored, TimersNameWaiters, TurnTaken, OthersWait;
      ghost var before := Who();
      socket.waited_events := event;
      resumed := ResumeThread(socket.uthread_id, turn);
      OthersKept(guarded, [before.names[socket]], before, Who());
    }

    // The sockets in the heap, all different, each waited for.
    method TimedSockets() returns (list: seq<UThreadSocket>)
      requires Consistent()
      ensures |list| == |timer.timer_heap|
      ensures forall i | 0 <= i < |list| :: list[i] == timer.timer_heap[i].item
      ensures IsDistinct(list)
      ensures forall s | s in list :: s in pool && IsWaitedFor(s, s.uthread_id)
    {
      hide Inv, IsHeap, WaitersSuspended, WaitersTimed;
      list := timer.GetSocketList();
      forall i | 0 <= i < |list| ensures list[i] in pool && IsWaitedFor(list[i], list[i].uthread_id) {
        assert Stored(timer.timer_heap, list[i]);
      }
    }

    // The threads that the timers name are exactly the waiting ones with a timer.
    lemma WaitersAreTimed(list: seq<UThreadSocket>, ids: seq<int>)
      requires Consistent() && |ids| == |list| == |timer.timer_heap|
      requires forall i | 0 <= i < |list| :: list[i] == timer.timer_heap[i].item && ids[i] == list[i].uthread_id
      requires forall s | s in list :: s in pool && IsWaitedFor(s, s.uthread_id)
      ensures forall t: int :: t in ids <==> t in Timed()
      ensures guarded ==> Timed() == waiting.Keys
    {
      hide Inv, IsHeap, Sound;
      assert guarded ==> forall t | t in waiting :: t in Timed();
      forall t | t in Timed() ensures t in ids {
        var k :| 0 <= k < |timer.timer_heap| && timer.timer_heap[k].item == waiting[t];
        assert ids[k] == t;
      }
      forall k | 0 <= k < |ids| ensures ids[k] in Timed() {
        assert list[k] in list;
        assert Stored(timer.timer_heap, list[k]);
      }
    }

    /** ResumeAll: the snapshot of the timer heap is worked off although the heap changes
      * meanwhile, and the threads switched to are those that have a timer when it starts,
      * each once; with the guard these are all the waiting threads.
      */
    method ResumeAll(flag: int, turns: seq<Turn>) returns (resumed: seq<int>)
      requires Consistent() && |turns| == |timer.timer_heap|
      requires TurnsWithin(turns, pool)
      modifies this`waiting, this`polled, this`found, runtime, timer`timer_heap, timer`sockets, pool
      ensures Consistent()
      ensures runtime.switches == old(runtime.switches) + resumed
      ensures IsDistinct(resumed) && forall t: int :: t in resumed <==> t in old(Timed())
      ensures guarded ==> old(Timed()) == old(waiting.Keys)
      ensures found == old(found) + Same(|resumed|, Some(flag))
      ensures OthersWait(guarded, resumed, old(Who()), Who())
    {
      hide *;
      var exist_socket_list := TimedSockets();
      ghost var ids := Ids(exist_socket_list);
      WaitersAreTimed(exist_socket_list, ids);
      IdsDiffer(exist_socket_list, ids);
      var list := WithEvents(exist_socket_list, flag);
      ListedSockets(exist_socket_list, list);
      resumed := ResumeEach(list, turns);
      assert resumed == ids;
      assert Masks(list) == Same(|resumed|, Some(flag));
    }

    function WithEvents(sockets: seq<UThreadSocket>, mask: int): (list: seq<Event>)
      ensures |list| == |sockets| && forall i | 0 <= i < |list| :: list[i] == Event(sockets[i], mask)
    {
      seq(|sockets|, i requires 0 <= i < |sockets| => Event(sockets[i], mask))
    }

    lemma ListedSockets(sockets: seq<UThreadSocket>, list: seq<Event>)
      requires |list| == |sockets| && forall i | 0 <= i < |list| :: list[i].socket == sockets[i]
      requires IsDistinct(sockets) && forall s | s in sockets :: s in pool && IsWaitedFor(s, s.uthread_id)
      ensures forall i, j :: 0 <= i < j < |list| ==> list[i].socket != list[j].socket
      ensures forall e | e in list :: e.socket in pool && IsWaitedFor(e.socket, e.socket.uthread_id)
    {
      forall i | 0 <= i < |list| ensures list[i].socket in sockets {
        assert sockets[i] in sockets;
      }
    }

    ghost function Ids(list: seq<UThreadSocket>): (ids: seq<int>)
      reads list
      ensures |ids| == |list| && forall i | 0 <= i < |list| :: ids[i] == list[i].uthread_id
    {
      if list == [] then [] else [list[0].uthread_id] + Ids(list[1..])
    }

    lemma IdsDiffer(list: seq<UThreadSocket>, ids: seq<int>)
      requires |ids| == |list| && forall i | 0 <= i < |list| :: ids[i] == list[i].uthread_id
      requires IsDistinct(list)
      requires forall s | s in list :: IsWaitedFor(s, s.uthread_id)
      ensures IsDistinct(ids)
    {
      forall i, j | 0 <= i < j < |ids| ensures ids[i] != ids[j] {
        assert list[i] in list && list[j] in list;
      }
    }

    // ----- Timeouts -----

    lemma TimerAgrees()
      requires Sound()
      ensures timer.Agrees()
    {
    }

    // timer_.PopTimeout on a heap that is not empty.
    method TakeEarliest() returns (socket: UThreadSocket)
      requires Sound() && timer.timer_heap != []
      modifies timer`timer_heap, timer`popped, pool`timer_id
      ensures Sound() && socket == old(timer.timer_heap)[0].item && socket in pool && old(Stored(timer.timer_heap, socket))
      ensures timer.popped == old(timer.popped) + [old(Popped(timer.timer_heap, timer.timer_heap[0].item.uthread_id))]
      ensures forall e | e in old(timer.timer_heap) :: old(timer.timer_heap)[0].time <= e.time
      ensures forall s | s in pool :: Stored(timer.timer_heap, s) <==> old(Stored(timer.timer_heap, s)) && s != socket
      ensures OnlyTimersOf(true, socket, old(timer.timer_heap), timer.timer_heap)
    {
      hide IsHeap, PopMin, OnlyTimersOf;
      ghost var was := timer.timer_heap;
      OthersAreNotStored();
      socket := timer.PopTimeout();
      assert was[0].item == socket;
      PopKeepsOthers(was, timer.timer_heap);
      OthersAreNotStored();
    }

    /** An earliest timer is taken out, and the thread that its socket names finds the timeout
      * event and is switched to.
      */
    method FireEarliest(turn: Turn) returns (resumed: bool)
      requires Consistent() && timer.timer_heap != []
      requires turn.Waits? ==> turn.socket in pool
      modifies this`waiting, this`polled, this`found, runtime, timer, pool
      ensures Consistent() && resumed
      ensures timer.popped == old(timer.popped) + [old(Popped(timer.timer_heap, timer.timer_heap[0].item.uthread_id))]
      ensures runtime.switches == old(runtime.switches) + [old(timer.timer_heap[0].item.uthread_id)]
      ensures forall e | e in old(timer.timer_heap) :: old(timer.timer_heap)[0].time <= e.time
      ensures found == old(found) + [Some(0)]
      ensures TurnTaken(old(timer.timer_heap[0].item.uthread_id), turn, old(waiting))
      ensures OthersWait(guarded, [old(timer.timer_heap[0].item.uthread_id)], old(Who()), Who())
    {
      hide Inv, Sound, Stored, TurnTaken, OthersWait, OnlyTimersOf;
      ghost var before := Who();
      var socket := TakeEarliest();
      ghost var thread, between := socket.uthread_id, Who();
      AnyGuard(guarded, socket, before.heap, between.heap);
      OneChangesItsWait(guarded, thread, socket, before, between);
      socket.waited_events := TIMEOUT_EVENT;
      resumed := ResumeThread(socket.uthread_id, turn);
      OthersStillWait(guarded, [thread], [thread], before, between, Who());
      OnceIsEnough(guarded, thread, before, Who());
    }

    /** DealwithTimeout, for as long as clock readings are given. What it takes out of the timer
      * heap, one after the other, are the entries listed in fired, each an earliest one of
      * the heap at that moment and reported as due; the threads it switches to are those
      * that their sockets name. When it returns by itself no timer is due at the last reading.
      */
    method DealwithTimeout(ticks: seq<Tick>) returns (fired: seq<Fired>, settled: bool, next_timeout: int)
      requires Consistent()
      requires forall tick | tick in ticks && tick.turn.Waits? :: tick.turn.socket in pool
      modifies this`waiting, this`polled, this`found, runtime, timer, pool
      ensures Consistent() && |fired| <= |ticks|
      ensures timer.popped == old(timer.popped) + Pops(fired)
      ensures runtime.switches == old(runtime.switches) + Threads(fired)
      ensures found == old(found) + Same(|fired|, Some(0))
      ensures fired != [] ==> fired[0].pop.heap == old(timer.timer_heap)
      ensures forall i | 0 <= i < |fired| :: fired[i].now == ticks[i].now && FiredInTime(fired[i])
      ensures !settled ==> |fired| == |ticks|
      ensures settled ==> |fired| < |ticks| && next_timeout != 0
      ensures settled ==> forall e | e in timer.timer_heap :: e.time > ticks[|fired|].now
      ensures OthersWait(guarded, Threads(fired), old(Who()), Who())
    {
      hide Inv, Sound, Stored, WaitersSuspended, WaitersTimed, TimersNameWaiters, TurnTaken, ReportedDue, Pops, Threads, OthersWait;
      fired, settled, next_timeout := [], false, 0;
      NothingFired();
      SameWaiters(guarded, [], Who());
      while |fired| < |ticks|
        invariant Consistent() && |fired| <= |ticks|
        invariant timer.popped == old(timer.popped) + Pops(fired)
        invariant runtime.switches == old(runtime.switches) + Threads(fired)
        invariant found == old(found) + Same(|fired|, Some(0))
        invariant if fired == [] then timer.timer_heap == old(timer.timer_heap) else fired[0].pop.heap == old(timer.timer_heap)
        invariant forall i | 0 <= i < |fired| :: fired[i].now == ticks[i].now && FiredInTime(fired[i])
        invariant OthersWait(guarded, Threads(fired), old(Who()), Who())
        decreases |ticks| - |fired|
      {
        var tick := ticks[|fired|];
        assert tick in ticks;
        TimerAgrees();
        next_timeout := timer.GetNextTimeout(tick.now);
        if next_timeout != 0 {
          settled := true;
          break;
        }
        var f := Fired(Popped(timer.timer_heap, timer.timer_heap[0].item.uthread_id), tick.now);
        ghost var before := Who();
        var resumed := FireEarliest(tick.turn);
        OneMoreFired(fired, f);
        OneMoreSame(|fired|, Some(0));
        OthersStillWait(guarded, Threads(fired), [f.pop.thread], old(Who()), before, Who());
        fired := fired + [f];
      }
    }

    // ----- New threads -----

    /** ConsumeTodoList: every task gets a thread of its own, which nobody waits in, and which
      * is switched to at once.
      */
    method ConsumeTodoList(first_turns: seq<Turn>) returns (ids: seq<int>)
      requires Consistent()
      requires TurnsWithin(first_turns, pool)
      modifies this`waiting, this`polled, this`found, runtime, timer`timer_heap, timer`sockets, pool`uthread_id, pool`timer_id
      ensures Consistent() && |ids| == |first_turns|
      ensures runtime.switches == old(runtime.switches) + ids && found == old(found) + Same(|ids|, None)
      ensures forall t | t in old(waiting) :: t !in ids
      ensures OthersWait(guarded, ids, old(Who()), Who())
    {
      hide Inv, Sound, Stored, WaitersSuspended, WaitersTimed, TimersNameWaiters, TurnTaken;
      ids := [];
      for i := 0 to |first_turns|
        invariant Consistent() && |ids| == i
        invariant runtime.switches == old(runtime.switches) + ids && found == old(found) + Same(|ids|, None)
        invariant forall t | t in old(waiting) :: t !in ids
        invariant OthersWait(guarded, ids, old(Who()), Who())
      {
        assert first_turns[i] in first_turns;
        ghost var before := Who();
        var id := StartTask(first_turns[i]);
        OthersStillWait(guarded, ids, [id], old(Who()), before, Who());
        OneMoreSame(|ids|, None);
        ids := ids + [id];
      }
    }

    method StartTask(turn: Turn) returns (id: int)
      requires Consistent()
      requires turn.Waits? ==> turn.socket in pool
      modifies this`waiting, this`polled, this`found, runtime, timer`timer_heap, timer`sockets, pool`uthread_id, pool`timer_id
      ensures Consistent() && id >= 0 && id !in old(waiting)
      ensures runtime.switches == old(runtime.switches) + [id] && found == old(found) + [None]
      ensures TurnTaken(id, turn, old(waiting))
      ensures OthersWait(guarded, [id], old(Who()), Who())
    {
      hide Inv, Sound, Stored, TurnTaken, OthersWait;
      id := runtime.CreateThread(true);
      var resumed := ResumeThread(id, turn);
    }

    // ----- Events -----

    // The socket is registered with epoll.
    ghost predicate IsPolled(s: UThreadSocket)
      reads this`waiting, this`polled, s`uthread_id
    {
      s.uthread_id in polled && IsWaitedFor(s, s.uthread_id)
    }

    /** epoll_wait: of the sockets that have events it reports those that a thread polls, once
      * each; a socket whose thread is in UThreadWait is not among them.
      */
    method EpollWait(pending: seq<Event>) returns (list: seq<Event>)
      requires Consistent()
      requires forall i, j :: 0 <= i < j < |pending| ==> pending[i].socket != pending[j].socket
      ensures forall i, j :: 0 <= i < j < |list| ==> list[i].socket != list[j].socket
      ensures forall e | e in list :: e in pending && e.socket in pool && IsPolled(e.socket)
      ensures forall e | e in pending :: e in list <==> IsPolled(e.socket)
    {
      hide Inv, Sound, WaitersTimed, TimersNameWaiters;
      list := [];
      for i := 0 to |pending|
        invariant forall i, j :: 0 <= i < j < |list| ==> list[i].socket != list[j].socket
        invariant forall e | e in list :: e in pending[..i] && e.socket in pool && IsPolled(e.socket)
        invariant forall k | 0 <= k < i :: pending[k] in list <==> IsPolled(pending[k].socket)
      {
        var e := pending[i];
        assert pending[..i + 1] == pending[..i] + [e];
        if e.socket.uthread_id in polled && waiting[e.socket.uthread_id] == e.socket {
          list := list + [e];
        }
      }
      assert pending[..|pending|] == pending;
    }

    /** The loop over what the active-socket function yields: every thread that waits for a
      * listed socket is switched to, also in UThreadWait, and no thread is that no listed
      * socket named.
      */
    method ResumeActive(active: seq<UThreadSocket>, turns: seq<Turn>)
      returns (resumed: seq<int>, ghost marks: seq<Option<int>>)
      requires Consistent() && |turns| == |active| && TurnsWithin(turns, pool)
      requires forall s | s in active :: s in pool
      modifies this`waiting, this`polled, this`found, runtime, timer`timer_heap, timer`sockets, pool`uthread_id, pool`timer_id
      ensures Consistent()
      ensures runtime.switches == old(runtime.switches) + resumed
      ensures found == old(found) + marks && |marks| == |resumed|
      ensures ActiveHandled(active, [], resumed, old(Who()))
      ensures OthersWait(guarded, resumed, old(Who()), Who())
    {
      hide Inv, Sound, Stored, TimersNameWaiters, TurnTaken, OthersWait, ActiveHandled;
      resumed, marks := [], [];
      ghost var start := Who();
      SameWaiters(guarded, [], start);
      NoneHandled(active, start);
      for i := 0 to |active|
        invariant Consistent()
        invariant runtime.switches == old(runtime.switches) + resumed
        invariant found == old(found) + marks && |marks| == |resumed|
        invariant ActiveHandled(active[..i], [], resumed, start)
        invariant OthersWait(guarded, resumed, start, Who())
      {
        assert turns[i] in turns && active[i] in active;
        ghost var before := Who();
        var thread := active[i].uthread_id;
        ghost var mark := Finds(thread);
        SocketNamesItsWaiter(active[i]);
        var ok := ResumeThread(thread, turns[i]);
        var now := if ok then [thread] else [];
        OneMoreHandled(guarded, active, i, resumed, now, start, before);
        OthersStillWait(guarded, resumed, now, start, before, Who());
        resumed, marks := resumed + now, marks + if ok then [mark] else [];
      }
      assert active[..|active|] == active;
    }

    // Whoever waits for s is the thread that s names.
    lemma SocketNamesItsWaiter(s: UThreadSocket)
      requires Consistent() && s in pool
      ensures forall t | t in waiting && waiting[t] == s :: t == s.uthread_id
      ensures s in Who().names && Who().names[s] == s.uthread_id
    {
      hide Inv, Sound, Stored, TimersNameWaiters, WaitersTimed;
    }

    // ----- The loop of Run -----

    // The threads of pending sockets that are polled are those resumed.
    lemma EventsReachPollers(pending: seq<Event>, list: seq<Event>, ids: seq<int>)
      requires Consistent()
      requires |ids| == |list| && forall i | 0 <= i < |list| :: ids[i] == list[i].socket.uthread_id
      requires forall i, j :: 0 <= i < j < |list| ==> list[i].socket != list[j].socket
      requires forall e | e in list :: e in pending && e.socket in pool && IsPolled(e.socket)
      requires forall e | e in pending :: e in list <==> IsPolled(e.socket)
      ensures EventsHandled(pending, ids, Masks(list), Who())
    {
      hide Inv, Sound, Stored, TimersNameWaiters, WaitersTimed;
      forall k | 0 <= k < |ids|
        ensures FoundItsEvents(pending, ids[k], Some(list[k].mask), Who()) && ids[k] in polled
        ensures HasEvent(pending, list[k].socket)
      {
        assert list[k] in list;
        assert list[k] == Event(list[k].socket, list[k].mask);
      }
      forall i, j | 0 <= i < j < |ids| ensures ids[i] != ids[j] {
        assert list[i] in list && list[j] in list;
      }
      forall t | t in polled && HasEvent(pending, waiting[t]) ensures t in ids {
        var e :| e in pending && e.socket == waiting[t];
        assert IsPolled(e.socket);
        var k :| 0 <= k < |list| && list[k] == e;
        assert ids[k] == t;
      }
    }

    // The part of a turn that follows epoll_wait.
    method HandleEvents(round: Round) returns (resumed: seq<int>, ghost masks: seq<Option<int>>)
      requires Consistent() && TurnsWithin(round.turns, pool)
      requires forall i, j :: 0 <= i < j < |round.pending| ==> round.pending[i].socket != round.pending[j].socket
      modifies this`waiting, this`polled, this`found, runtime, timer`timer_heap, timer`sockets, pool
      ensures Consistent()
      ensures runtime.switches == old(runtime.switches) + resumed && found == old(found) + masks
      ensures EventsHandled(round.pending, resumed, masks, old(Who()))
      ensures OthersWait(guarded, resumed, old(Who()), Who())
    {
      hide Consistent, Padded, TurnsWithin, OthersWait, IsPolled, EventsHandled;
      var list := EpollWait(round.pending);
      ghost var ids := EventIds(list);
      PolledIsWaitedFor(list);
      EventsReachPollers(round.pending, list, ids);
      PaddedWithin(round.turns, |list|, pool);
      resumed := ResumeEach(list, Padded(round.turns, |list|, Yields));
      assert resumed == ids;
      masks := Masks(list);
    }

    ghost function EventIds(list: seq<Event>): (ids: seq<int>)
      reads set e | e in list :: e.socket
      ensures |ids| == |list| && forall i | 0 <= i < |list| :: ids[i] == list[i].socket.uthread_id
    {
      if list == [] then []
      else
        assert list[0] in list && forall e | e in list[1..] :: e in list;
        [list[0].socket.uthread_id] + EventIds(list[1..])
    }

    lemma PolledIsWaitedFor(list: seq<Event>)
      ensures forall e | e in list && IsPolled(e.socket) :: IsWaitedFor(e.socket, e.socket.uthread_id)
    {
    }

    /** One turn of the loop of Run does what RoundDone says: the threads switched to and the
      * timers taken out are exactly those of its log; the pollers with events are resumed,
      * and no thread in UThreadWait is resumed for an event; the waiters for active sockets
      * are resumed; if epoll fails every thread with a timer is woken, after Close everyone
      * is; else every task is started and timeouts are handled until nothing is due.
      * Whoever is not switched to waits on as before.
      */
    method RunRound(round: Round) returns (stop: Stop, ghost log: RoundLog, ghost mid: Snapshot)
      requires Consistent() && RoundWithin(round, pool)
      modifies this`waiting, this`polled, this`found, runtime, timer, pool
      ensures Consistent()
      ensures stop == if round.failed then Failed else if round.closed then Closed else NoMoreRounds
      ensures RoundDone(guarded, round, log, old(Now()), mid, Now())
    {
      hide Consistent, Padded, TurnsWithin, ReportedDue, FiredInTime, OthersWait, EventsHandled, ActiveHandled, EveryoneWoken,
           TasksStarted, TimeoutsHandled, Timed, TimedIn, Pops, Threads;
      mid := Now();
      ghost var start := mid;
      NothingFired();
      if round.failed {
        var woken := WakeEveryone(ERROR_EVENT, round.last_turns);
        log := RoundLog([], [], [], [], woken, [], [], false);
        assert log.Switched() == woken && log.Found(true) == Same(|woken|, Some(-1));
        return Failed, log, mid;
      }
      ghost var masks, marks;
      var resumed, active;
      resumed, masks := HandleEvents(round);
      PaddedWithin(round.active_turns, |round.active|, pool);
      ghost var before := Who();
      active, marks := ResumeActive(round.active, Padded(round.active_turns, |round.active|, Yields));
      ActiveLifted(guarded, round.active, resumed, active, start.who, before);
      OthersStillWait(guarded, resumed, active, start.who, before, Who());
      before := Who();
      if round.closed {
        var woken := WakeEveryone(CLOSE_EVENT, round.last_turns);
        WokenLifted(guarded, resumed + active, woken, start.who, before);
        OthersStillWait(guarded, resumed + active, woken, start.who, before, Who());
        log := RoundLog(resumed, masks, active, marks, woken, [], [], false);
        assert log.Switched() == resumed + active + woken;
        assert log.Found(false) == masks + marks + Same(|woken|, Some(-2));
        return Closed, log, mid;
      }
      var ids := ConsumeTodoList(round.tasks);
      OthersKept(guarded, resumed + active, start.who, before);
      OthersStillWait(guarded, resumed + active, ids, start.who, before, Who());
      mid := Now();
      var fired, settled, next_timeout := DealwithTimeout(round.ticks);
      log := RoundLog(resumed, masks, active, marks, [], ids, fired, settled);
      TimeoutsAre(guarded, round.ticks, log, mid, Now());
      RoundParts(guarded, round, log, start, mid, Now());
      stop := NoMoreRounds;
    }

    method WakeEveryone(flag: int, turns: seq<Turn>) returns (resumed: seq<int>)
      requires Consistent() && TurnsWithin(turns, pool)
      modifies this`waiting, this`polled, this`found, runtime, timer`timer_heap, timer`sockets, pool
      ensures Consistent()
      ensures runtime.switches == old(runtime.switches) + resumed && found == old(found) + Same(|resumed|, Some(flag))
      ensures forall t: int :: t in resumed <==> t in TimedIn(old(Who()))
      ensures guarded ==> TimedIn(old(Who())) == old(waiting.Keys)
      ensures OthersWait(guarded, resumed, old(Who()), Who())
    {
      hide Consistent, Padded, TurnsWithin, TimedIn, OthersWait;
      PaddedWithin(turns, |timer.timer_heap|, pool);
      resumed := ResumeAll(flag, Padded(turns, |timer.timer_heap|, Yields));
    }

    lemma FirstIsStored()
      requires Consistent()
      ensures timer.timer_heap != [] ==> waiting != map[]
    {
      hide Inv, IsHeap;
      if timer.timer_heap != [] {
        assert Stored(timer.timer_heap, timer.timer_heap[0].item);
      }
    }

    lemma NobodyWaitsWhenDone()
      requires Consistent()
      requires forall i: nat | i < |runtime.context_list| :: runtime.context_list[i].status == DONE
      ensures waiting == map[]
    {
      hide Inv, Sound;
      assert forall t | t in waiting :: runtime.context_list[t].status == SUSPEND;
    }

    method IsAllDone() returns (done: bool)
      requires Consistent()
      ensures done <==> AllFinished()
      ensures done ==> waiting == map[] && timer.timer_heap == []
    {
      hide Inv, IsHeap;
      FirstIsStored();
      done := runtime.IsAllDone();
      if done {
        NobodyWaitsWhenDone();
      }
    }

    /** Run, over any number of turns of its loop. starts are the states in which the turns
      * start, followed by the final state, and every turn does between them what RoundDone
      * says. All the given turns are made unless one closes the scheduler or epoll fails in
      * it, or every thread has finished, and then nobody is left waiting.
      */
    method Run(first_tasks: seq<Turn>, rounds: seq<Round>, run_forever: bool)
      returns (stop: Stop, first_ids: seq<int>, ghost logs: seq<RoundLog>, ghost starts: seq<Snapshot>, ghost mids: seq<Snapshot>)
      requires Consistent() && TurnsWithin(first_tasks, pool)
      requires forall round | round in rounds :: RoundWithin(round, pool)
      modifies this`waiting, this`polled, this`found, runtime, timer, pool
      ensures Consistent()
      ensures |first_ids| == |first_tasks|
      ensures |logs| <= |rounds| && |starts| == |logs| + 1 && |mids| == |logs|
      ensures starts[0].switches == old(runtime.switches) + first_ids && starts[0].popped == old(timer.popped)
      ensures starts[0].found == old(found) + Same(|first_ids|, None)
      ensures OthersWait(guarded, first_ids, old(Who()), starts[0].who)
      ensures forall i | 0 <= i < |logs| :: run_forever || !starts[i].all_done
      ensures forall i | 0 <= i < |logs| :: RoundDone(guarded, rounds[i], logs[i], starts[i], mids[i], starts[i + 1])
      ensures starts[|logs|] == Now()
      ensures forall i | 0 <= i < |logs| - 1 :: !rounds[i].failed && !rounds[i].closed
      ensures stop == if logs != [] && rounds[|logs| - 1].failed then Failed
                      else if logs != [] && rounds[|logs| - 1].closed then Closed
                      else if |logs| == |rounds| then NoMoreRounds else AllDone
      ensures stop.AllDone? ==> !run_forever && waiting == map[] && timer.timer_heap == []
      ensures stop.AllDone? ==> AllFinished()
    {
      hide Consistent, TurnsWithin, RoundWithin, RoundDone, OthersWait, Timed, TimedIn, Who;
      first_ids := ConsumeTodoList(first_tasks);
      logs, starts, mids := [], [Now()], [];
      for i := 0 to |rounds|
        invariant Consistent() && |logs| == |mids| == i && |starts| == i + 1
        invariant starts[0].switches == old(runtime.switches) + first_ids && starts[0].popped == old(timer.popped)
        invariant starts[0].found == old(found) + Same(|first_ids|, None)
        invariant OthersWait(guarded, first_ids, old(Who()), starts[0].who)
        invariant forall k | 0 <= k < i :: run_forever || !starts[k].all_done
        invariant starts[i] == Now()
        invariant forall k | 0 <= k < i :: RoundDone(guarded, rounds[k], logs[k], starts[k], mids[k], starts[k + 1])
        invariant forall k | 0 <= k < i :: !rounds[k].failed && !rounds[k].closed
      {
        var done := IsAllDone();
        if !run_forever && done {
          stop := AllDone;
          return;
        }
        ghost var log, mid;
        stop, log, mid := RunRound(rounds[i]);
        logs, starts, mids := logs + [log], starts + [Now()], mids + [mid];
        if stop != NoMoreRounds {
          return;
        }
      }
      stop := NoMoreRounds;
    }
  }
}
