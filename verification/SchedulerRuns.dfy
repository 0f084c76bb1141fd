/** What the scheduler does over time, as values: the choices of the threads and of the
  * outside world, the records of who waits for what, and what one turn of the scheduler's
  * loop means in those terms.
  */
module SchedulerRuns {
  import opened Common
  import opened TimerHeap
  import opened Timers

  const TWO_TO_64: nat := 0x1_0000_0000_0000_0000

  // What a resumed thread does until it gives control back: it starts to wait for a
  // socket, yields without waiting for anything, or finishes. A wait is UThreadPoll, which
  // registers the socket with epoll, or UThreadWait, which does not. now is the clock
  // reading that the wait starts with.
  datatype Turn = Waits(socket: UThreadSocket, polls: bool, timeout_ms: int, now: nat) | Yields | Finishes

  // A socket with the events that epoll reports for it.
  datatype Event = Event(socket: UThreadSocket, mask: int)

  predicate HasEvent(pending: seq<Event>, s: UThreadSocket) {
    exists e :: e in pending && e.socket == s
  }

  // What the threads of the listed sockets find.
  function Masks(list: seq<Event>): (masks: seq<Option<int>>)
    ensures |masks| == |list| && forall i | 0 <= i < |list| :: masks[i] == Some(list[i].mask)
  {
    seq(|list|, i requires 0 <= i < |list| => Some(list[i].mask))
  }

  function Same(n: nat, found: Option<int>): (all: seq<Option<int>>)
    ensures |all| == n && forall i | 0 <= i < n :: all[i] == found
  {
    seq(n, _ => found)
  }

  lemma OneMoreSame(n: nat, found: Option<int>)
    ensures Same(n + 1, found) == Same(n, found) + [found]
  {
  }

  // One reading of the clock, and what the thread resumed by a timeout does.
  datatype Tick = Tick(now: nat, turn: Turn)

  // A timer taken out by DealwithTimeout, and the clock reading.
  datatype Fired = Fired(pop: Popped, now: nat)

  function Pops(fired: seq<Fired>): seq<Popped> {
    if fired == [] then [] else Pops(fired[..|fired| - 1]) + [fired[|fired| - 1].pop]
  }

  function Threads(fired: seq<Fired>): seq<int> {
    if fired == [] then [] else Threads(fired[..|fired| - 1]) + [fired[|fired| - 1].pop.thread]
  }

  lemma OneMoreFired(fired: seq<Fired>, f: Fired)
    ensures Pops(fired + [f]) == Pops(fired) + [f.pop]
    ensures Threads(fired + [f]) == Threads(fired) + [f.pop.thread]
    ensures forall i | i in Threads(fired + [f]) :: i in Threads(fired) || i == f.pop.thread
  {
    assert (fired + [f])[..|fired|] == fired;
  }

  lemma NothingFired()
    ensures Pops([]) == [] && Threads([]) == []
  {
  }

  // The timer was an earliest one of its heap, and reported as due.
  predicate FiredInTime(f: Fired) {
    && f.pop.heap != []
    && (forall e | e in f.pop.heap :: f.pop.heap[0].time <= e.time)
    && ReportedDue(f.pop.heap[0].time, f.now)
  }

  // What happens in one turn of the loop of Run: whether epoll_wait fails, the sockets that
  // have events, each once, the sockets that the active-socket function yields, the
  // tasks that are waiting, the clock readings of the timeout handling, whether Close has
  // been called, and what the resumed threads do. A list that is too short is continued
  // with threads that yield.
  datatype Round = Round(
    failed: bool, pending: seq<Event>, turns: seq<Turn>, active: seq<UThreadSocket>,
    active_turns: seq<Turn>, closed: bool, last_turns: seq<Turn>, tasks: seq<Turn>, ticks: seq<Tick>)

  // What one turn of the loop did: the threads resumed for their events and what they found
  // in their sockets' waited_events, likewise those resumed for the active-socket function,
  // the threads woken by ResumeAll, the threads of the new tasks, and
  // the timers that fired; settled says that the timeout handling ended by itself.
  datatype RoundLog = RoundLog(
    resumed: seq<int>, masks: seq<Option<int>>, active: seq<int>, marks: seq<Option<int>>,
    woken: seq<int>, ids: seq<int>, fired: seq<Fired>, settled: bool)
  {
    function Switched(): seq<int> { resumed + active + woken + ids + Threads(fired) }

    // What all these threads find: those woken find -1 after a failure of epoll and -2 after
    // Close, a new thread has no socket yet, and those timed out find 0.
    function Found(failed: bool): seq<Option<int>> {
      masks + marks + Same(|woken|, Some(if failed then -1 else -2)) + Same(|ids|, None) + Same(|fired|, Some(0))
    }
  }

  function Padded<T>(xs: seq<T>, n: nat, default: T): (r: seq<T>)
    ensures |r| == n && forall x | x in r :: x in xs || x == default
  {
    seq(n, i requires 0 <= i => if i < |xs| then xs[i] else default)
  }

  predicate TurnsWithin(turns: seq<Turn>, pool: set<UThreadSocket>) {
    forall turn | turn in turns && turn.Waits? :: turn.socket in pool
  }

  predicate RoundWithin(round: Round, pool: set<UThreadSocket>) {
    && TurnsWithin(round.turns, pool) && TurnsWithin(round.active_turns, pool) && TurnsWithin(round.last_turns, pool)
    && TurnsWithin(round.tasks, pool)
    && (forall tick | tick in round.ticks && tick.turn.Waits? :: tick.turn.socket in pool)
    && (forall s | s in round.active :: s in pool)
    && (forall i, j :: 0 <= i < j < |round.pending| ==> round.pending[i].socket != round.pending[j].socket)
  }

  // What a turn of the loop does as far as it does not depend on the state.
  predicate LogFits(round: Round, log: RoundLog) {
    if round.failed then log == RoundLog([], [], [], [], log.woken, [], [], false)
    else if round.closed then log == RoundLog(log.resumed, log.masks, log.active, log.marks, log.woken, [], [], false)
    else
      && log.woken == [] && |log.ids| == |round.tasks|
      && |log.fired| <= |round.ticks| && (log.settled <==> |log.fired| < |round.ticks|)
      && (forall i | 0 <= i < |log.fired| :: log.fired[i].now == round.ticks[i].now && FiredInTime(log.fired[i]))
  }

  lemma PaddedWithin(turns: seq<Turn>, n: nat, pool: set<UThreadSocket>)
    requires TurnsWithin(turns, pool)
    ensures TurnsWithin(Padded(turns, n, Yields), pool)
  {
  }

  // Why the loop of Run ended.
  datatype Stop = AllDone | Closed | Failed | NoMoreRounds

  // The time at which a wait runs out; -1 stands for never, and the sum is a 64-bit one.
  function Deadline(now: nat, timeout_ms: int): (abs_time: nat)
    ensures abs_time <= 0xFFFF_FFFF_FFFF_FFFF
    ensures timeout_ms == -1 ==> abs_time == 0xFFFF_FFFF_FFFF_FFFF
    ensures timeout_ms != -1 ==> (abs_time - (now + timeout_ms)) % 0x1_0000_0000_0000_0000 == 0
    ensures timeout_ms != -1 && 0 <= now + timeout_ms <= 0xFFFF_FFFF_FFFF_FFFF ==> abs_time == now + timeout_ms
  {
    if timeout_ms == -1 then UINT64_MAX else (now + timeout_ms) % TWO_TO_64
  }

  /** A wait without timeout can be reported as timed out after all: exactly when the
    * clock's low 32 bits are all ones.
    */
  lemma UnlimitedWaitReportedDue(now: nat)
    requires now < 0xFFFF_FFFF_FFFF_FFFF
    ensures ReportedDue(Deadline(now, -1), now) <==> now % 0x1_0000_0000 == 0xFFFF_FFFF
  {
    assert UINT64_MAX == 0xFFFF_FFFF * 0x1_0000_0000 + 0xFFFF_FFFF;
    var q, r := now / 0x1_0000_0000, now % 0x1_0000_0000;
    assert UINT64_MAX - now == (0xFFFF_FFFF - q) * 0x1_0000_0000 + (0xFFFF_FFFF - r);
  }

  /** Every limited wait that an int can express and the clock can reach is reported as due
    * exactly from timeout_ms after its start; so only unlimited waits are ever misreported.
    */
  lemma LimitedWaitReportedExactly(start: nat, timeout_ms: int, now: nat)
    requires 0 <= timeout_ms < 0x8000_0000 && start + timeout_ms <= 0xFFFF_FFFF_FFFF_FFFF && start <= now
    ensures ReportedDue(Deadline(start, timeout_ms), now) <==> start + timeout_ms <= now
  {
  }

  /** Timers that were added without timeout come out last. */
  lemma UnlimitedTimersComeLast(h: seq<TimerObj>, i: nat, j: nat)
    requires IsHeap(h) && (forall e | e in h :: e.time <= UINT64_MAX)
    requires i < j < |h| && Drain(h)[i].time == Deadline(0, -1)
    ensures Drain(h)[j].time == Deadline(0, -1)
  {
    DrainSorts(h);
    var order := Drain(h);
    assert order[j] in multiset(order);
    hide Drain;
  }

  // Who waits for what, who of them polls, the timers, and the thread that each socket names.
  datatype Waiters = Waiters(
    waiting: map<nat, UThreadSocket>, polled: set<nat>, heap: seq<TimerObj>, names: map<UThreadSocket, int>)

  // The waiting threads that have a timer.
  ghost function TimedIn(w: Waiters): set<nat> {
    set t | t in w.waiting && Stored(w.heap, w.waiting[t])
  }

  // Every timer of s in h is in g too, at the same time.
  ghost predicate KeepsTimers(s: UThreadSocket, h: seq<TimerObj>, g: seq<TimerObj>) {
    forall e | e in h && e.item == s :: e in g
  }

  // Every thread but those in ids waits as before, with no other timer than before, and with
  // the guard in RemoveTimer with the same one; and no socket names a thread anew that is
  // not in ids.
  ghost predicate OthersWait(guarded: bool, ids: seq<int>, before: Waiters, after: Waiters) {
    && (forall t | t in before.waiting && t !in ids :: t in after.waiting && after.waiting[t] == before.waiting[t])
    && (forall t | t in after.waiting && t !in ids :: t in before.waiting)
    && (forall t | t in before.polled && t !in ids :: t in after.polled)
    && (forall t | t in after.polled && t !in ids :: t in before.polled)
    && (forall t | t in before.waiting && t !in ids :: KeepsTimers(before.waiting[t], after.heap, before.heap))
    && (guarded ==> forall t | t in before.waiting && t !in ids :: KeepsTimers(before.waiting[t], before.heap, after.heap))
    && before.names.Keys == after.names.Keys
    && (forall s | s in before.names :: after.names[s] == before.names[s] || after.names[s] in ids)
  }

  lemma SameWaiters(guarded: bool, ids: seq<int>, w: Waiters)
    ensures OthersWait(guarded, ids, w, w)
  {
  }

  lemma OnceIsEnough(guarded: bool, thread: int, a: Waiters, b: Waiters)
    requires OthersWait(guarded, [thread] + [thread], a, b)
    ensures OthersWait(guarded, [thread], a, b)
  {
    assert forall t: int :: t in [thread] + [thread] <==> t in [thread];
  }

  lemma OthersStillWait(guarded: bool, ids: seq<int>, more: seq<int>, a: Waiters, b: Waiters, c: Waiters)
    requires OthersWait(guarded, ids, a, b) && OthersWait(guarded, more, b, c)
    ensures OthersWait(guarded, ids + more, a, c)
  {
    hide KeepsTimers;
    assert forall t: int :: t in ids + more <==> t in ids || t in more;
    forall t | t in a.waiting && t !in ids + more
      ensures KeepsTimers(a.waiting[t], c.heap, a.heap)
      ensures guarded ==> KeepsTimers(a.waiting[t], a.heap, c.heap)
    {
      KeptTwice(a.waiting[t], c.heap, b.heap, a.heap);
      if guarded {
        KeptTwice(a.waiting[t], a.heap, b.heap, c.heap);
      }
    }
  }

  lemma KeptTwice(s: UThreadSocket, f: seq<TimerObj>, g: seq<TimerObj>, h: seq<TimerObj>)
    requires KeepsTimers(s, f, g) && KeepsTimers(s, g, h)
    ensures KeepsTimers(s, f, h)
  {
  }

  // Only the timers of socket change: no others appear, and with the guard none disappear.
  ghost predicate OnlyTimersOf(guarded: bool, socket: UThreadSocket, before: seq<TimerObj>, after: seq<TimerObj>) {
    && (forall e | e in after && e.item != socket :: e in before)
    && (guarded ==> forall e | e in before && e.item != socket :: e in after)
  }

  lemma RemovalKeepsOthers(guarded: bool, socket: UThreadSocket, id: nat, h: seq<TimerObj>, g: seq<TimerObj>)
    requires Removal(h, g, id) && (guarded && 1 <= id <= |h| ==> h[id - 1].item == socket)
    ensures OnlyTimersOf(guarded, socket, h, g)
  {
    hide RemoveAt;
    forall e | e in g ensures e in h {
      assert e in multiset(g);
    }
    if guarded {
      forall e | e in h && e.item != socket ensures e in g {
        assert e in multiset(h);
        assert e in multiset(g);
      }
    }
  }

  lemma PopKeepsOthers(h: seq<TimerObj>, g: seq<TimerObj>)
    requires h != [] && multiset(g) == multiset(h) - multiset{h[0]}
    ensures OnlyTimersOf(true, h[0].item, h, g)
  {
    forall e | e in g ensures e in h {
      assert e in multiset(g);
    }
    forall e | e in h && e.item != h[0].item ensures e in g {
      assert e in multiset(h);
      assert e in multiset(g);
    }
  }

  lemma ReplacementKeepsOthers(guarded: bool, socket: UThreadSocket, id: nat, time: nat, h: seq<TimerObj>, g: seq<TimerObj>)
    requires multiset(g) == multiset{Entry(time, socket)}
               + if 1 <= id <= |h| then multiset(h) - multiset{h[id - 1]} else multiset(h)
    requires guarded && 1 <= id <= |h| ==> h[id - 1].item == socket
    ensures OnlyTimersOf(guarded, socket, h, g)
  {
    forall e | e in g && e.item != socket ensures e in h {
      assert e in multiset(g);
      assert e in multiset(h);
    }
    if guarded {
      forall e | e in h && e.item != socket ensures e in g {
        assert e in multiset(h);
        assert e in multiset(g);
      }
    }
  }

  // One thread starts or ends a wait for socket, or loses its timer by a timeout.
  lemma OneChangesItsWait(guarded: bool, thread: nat, socket: UThreadSocket, before: Waiters, after: Waiters)
    requires after.waiting - {thread} == before.waiting - {thread} && after.polled - {thread} == before.polled - {thread}
    requires OnlyTimersOf(guarded, socket, before.heap, after.heap)
    requires forall t | t in before.waiting && t != thread :: before.waiting[t] != socket
    requires before.names.Keys == after.names.Keys
    requires forall s | s in before.names :: after.names[s] == before.names[s] || after.names[s] == thread
    ensures OthersWait(guarded, [thread], before, after)
  {
    forall t | t in before.waiting && t != thread ensures t in after.waiting && after.waiting[t] == before.waiting[t] {
      assert t in before.waiting - {thread};
      assert (before.waiting - {thread})[t] == (after.waiting - {thread})[t];
    }
    forall t | t in after.waiting && t != thread ensures t in before.waiting {
      assert t in after.waiting - {thread};
    }
    forall t | t != thread ensures t in before.polled <==> t in after.polled {
      assert t in before.polled - {thread} <==> t in after.polled - {thread};
    }
  }

  lemma AnyGuard(guarded: bool, socket: UThreadSocket, before: seq<TimerObj>, after: seq<TimerObj>)
    requires OnlyTimersOf(true, socket, before, after)
    ensures OnlyTimersOf(guarded, socket, before, after)
  {
  }

  // Who still waits, and who still has a timer.
  lemma OthersKept(guarded: bool, ids: seq<int>, before: Waiters, after: Waiters)
    requires OthersWait(guarded, ids, before, after)
    ensures forall t | t in before.waiting && t !in ids :: t in after.waiting && after.waiting[t] == before.waiting[t]
    ensures forall t | t in TimedIn(after) && t !in ids :: t in TimedIn(before)
    ensures forall s | s in before.names :: s in after.names && (after.names[s] == before.names[s] || after.names[s] in ids)
  {
    forall t | t in TimedIn(after) && t !in ids ensures t in TimedIn(before) {
      var i :| 0 <= i < |after.heap| && after.heap[i].item == after.waiting[t];
      assert after.heap[i] in after.heap && after.heap[i] in before.heap;
    }
  }

  // A moment of the scheduler, with the threads switched to, what each of them found in the
  // waited_events of the socket it waited for, and the timers taken out so far; all_done
  // says that every thread has finished.
  datatype Snapshot = Snapshot(
    who: Waiters, switches: seq<int>, found: seq<Option<int>>, popped: seq<Popped>, all_done: bool)

  // The threads resumed for their events are, once each, those that poll a socket with
  // events, and each finds the events of its own socket.
  ghost predicate EventsHandled(pending: seq<Event>, resumed: seq<int>, masks: seq<Option<int>>, w: Waiters) {
    && IsDistinct(resumed) && |masks| == |resumed|
    && (forall t: int :: t in resumed <==> t in w.polled && t in w.waiting && HasEvent(pending, w.waiting[t]))
    && (forall k | 0 <= k < |resumed| :: FoundItsEvents(pending, resumed[k], masks[k], w))
  }

  ghost predicate FoundItsEvents(pending: seq<Event>, t: int, found: Option<int>, w: Waiters) {
    t in w.waiting && found.Some? && Event(w.waiting[t], found.value) in pending
  }

  // Every thread that waits for a listed socket has been resumed by the end of the part, and
  // none was resumed that no listed socket named.
  ghost predicate ActiveHandled(active: seq<UThreadSocket>, earlier: seq<int>, resumed: seq<int>, w: Waiters) {
    && (forall t | t in w.waiting && w.waiting[t] in active :: t in earlier + resumed)
    && (forall t | t in resumed :: t in earlier || exists s :: s in active && s in w.names && w.names[s] == t)
  }

  // After Close: of the threads not resumed before, those woken had a timer when the turn
  // began, and with the guard they are all that waited.
  ghost predicate EveryoneWoken(guarded: bool, earlier: seq<int>, woken: seq<int>, w: Waiters) {
    && (forall t | t in woken && t !in earlier :: t in TimedIn(w))
    && (guarded ==> forall t | t in w.waiting && t !in earlier :: t in woken)
  }

  // The timeout handling, from mid to after.
  ghost predicate TimeoutsHandled(guarded: bool, ticks: seq<Tick>, log: RoundLog, mid: Snapshot, after: Snapshot) {
    && after.switches == mid.switches + Threads(log.fired) && after.popped == mid.popped + Pops(log.fired)
    && after.found == mid.found + Same(|log.fired|, Some(0))
    && OthersWait(guarded, Threads(log.fired), mid.who, after.who)
    && (log.fired != [] ==> log.fired[0].pop.heap == mid.who.heap)
    && (log.settled ==> |log.fired| < |ticks| && forall e | e in after.who.heap :: e.time > ticks[|log.fired|].now)
  }

  // A turn without failure and without Close, up to the timeout handling.
  ghost predicate TasksStarted(guarded: bool, log: RoundLog, before: Snapshot, mid: Snapshot) {
    var earlier := log.resumed + log.active;
    && mid.switches == before.switches + earlier + log.ids && mid.popped == before.popped
    && mid.found == before.found + (log.masks + log.marks) + Same(|log.ids|, None)
    && OthersWait(guarded, earlier + log.ids, before.who, mid.who)
    && (forall t | t in before.who.waiting && t !in earlier :: t !in log.ids)
  }

  lemma NoneHandled(active: seq<UThreadSocket>, w: Waiters)
    ensures ActiveHandled(active[..0], [], [], w)
  {
  }

  lemma OneMoreHandled(guarded: bool, active: seq<UThreadSocket>, i: nat, resumed: seq<int>, now: seq<int>, start: Waiters, before: Waiters)
    requires i < |active| && active[i] in start.names && active[i] in before.names && |now| <= 1
    requires ActiveHandled(active[..i], [], resumed, start) && OthersWait(guarded, resumed, start, before)
    requires forall t | t in before.waiting && before.waiting[t] == active[i] :: t in now
    requires now != [] ==> before.names[active[i]] == now[0]
    ensures ActiveHandled(active[..i + 1], [], resumed + now, start)
  {
    OthersKept(guarded, resumed, start, before);
    hide OthersWait;
    var s := active[i];
    assert active[..i + 1] == active[..i] + [s];
    assert forall x :: x in active[..i + 1] <==> x in active[..i] || x == s;
    assert forall t: int :: t in resumed + now <==> t in resumed || t in now;
    forall t | t in start.waiting && start.waiting[t] in active[..i + 1] ensures t in [] + (resumed + now) {
      if start.waiting[t] in active[..i] {
        assert t in [] + resumed;
      }
    }
    forall t | t in resumed + now ensures exists x :: x in active[..i + 1] && x in start.names && start.names[x] == t {
      if t !in resumed && start.names[s] == t {
        assert s in active[..i + 1];
      }
    }
  }

  // Between a turn's start and the active-socket part, only threads of resumed changed.
  lemma ActiveLifted(guarded: bool, active: seq<UThreadSocket>, resumed: seq<int>, more: seq<int>, start: Waiters, before: Waiters)
    requires OthersWait(guarded, resumed, start, before) && ActiveHandled(active, [], more, before)
    ensures ActiveHandled(active, resumed, more, start)
  {
    OthersKept(guarded, resumed, start, before);
    assert forall t: int :: t in resumed + more <==> t in resumed || t in more;
    assert [] + more == more;
    assert start.names.Keys == before.names.Keys;
  }

  lemma WokenLifted(guarded: bool, earlier: seq<int>, woken: seq<int>, start: Waiters, before: Waiters)
    requires OthersWait(guarded, earlier, start, before)
    requires forall t: int :: t in woken <==> t in TimedIn(before)
    requires guarded ==> TimedIn(before) == before.waiting.Keys
    ensures EveryoneWoken(guarded, earlier, woken, start)
  {
    OthersKept(guarded, earlier, start, before);
    hide OthersWait, TimedIn;
  }

  lemma TimeoutsAre(guarded: bool, ticks: seq<Tick>, log: RoundLog, mid: Snapshot, after: Snapshot)
    requires after.switches == mid.switches + Threads(log.fired) && after.popped == mid.popped + Pops(log.fired)
    requires after.found == mid.found + Same(|log.fired|, Some(0))
    requires OthersWait(guarded, Threads(log.fired), mid.who, after.who)
    requires log.fired != [] ==> log.fired[0].pop.heap == mid.who.heap
    requires log.settled ==> |log.fired| < |ticks| && forall e | e in after.who.heap :: e.time > ticks[|log.fired|].now
    ensures TimeoutsHandled(guarded, ticks, log, mid, after)
  {
    hide OthersWait, Threads, Pops;
  }

  lemma RoundParts(guarded: bool, round: Round, log: RoundLog, before: Snapshot, mid: Snapshot, after: Snapshot)
    requires !round.failed && !round.closed && LogFits(round, log)
    requires EventsHandled(round.pending, log.resumed, log.masks, before.who) && |log.marks| == |log.active|
    requires ActiveHandled(round.active, log.resumed, log.active, before.who)
    requires mid.switches == before.switches + log.resumed + log.active + log.ids && mid.popped == before.popped
    requires mid.found == before.found + log.masks + log.marks + Same(|log.ids|, None)
    requires OthersWait(guarded, log.resumed + log.active + log.ids, before.who, mid.who)
    requires forall t | t in before.who.waiting && t !in log.resumed + log.active :: t !in log.ids
    requires TimeoutsHandled(guarded, round.ticks, log, mid, after)
    ensures RoundDone(guarded, round, log, before, mid, after)
  {
    hide EventsHandled, ActiveHandled, OthersWait, LogFits, Threads, Pops, Same, RoundLog.Found;
    assert mid.switches == before.switches + (log.resumed + log.active) + log.ids;
    assert mid.found == before.found + (log.masks + log.marks) + Same(|log.ids|, None);
    FoundWithoutWaking(round, log);
    assert log.Switched() == log.resumed + log.active + log.ids + Threads(log.fired) by {
      hide *;
      OnlyWhenWoken(round, log);
    }
    OthersStillWait(guarded, log.resumed + log.active + log.ids, Threads(log.fired), before.who, mid.who, after.who);
  }

  lemma FoundWithoutWaking(round: Round, log: RoundLog)
    requires !round.failed && !round.closed && LogFits(round, log)
    ensures log.Found(false) == log.masks + log.marks + Same(|log.ids|, None) + Same(|log.fired|, Some(0))
  {
    hide FiredInTime;
    assert log.masks + log.marks + Same(|log.woken|, Some(-2)) == log.masks + log.marks;
  }

  lemma OnlyWhenWoken(round: Round, log: RoundLog)
    requires !round.failed && !round.closed && LogFits(round, log)
    ensures log.Switched() == log.resumed + log.active + log.ids + Threads(log.fired)
  {
    hide FiredInTime, Threads;
    assert log.resumed + log.active + log.woken == log.resumed + log.active;
  }

  // What one turn of the loop of Run does, from the state before it to the state after it;
  // mid is the state in which the timeout handling starts.
  ghost predicate RoundDone(guarded: bool, round: Round, log: RoundLog, before: Snapshot, mid: Snapshot, after: Snapshot) {
    && LogFits(round, log)
    && after.switches == before.switches + log.Switched() && after.popped == before.popped + Pops(log.fired)
    && after.found == before.found + log.Found(round.failed) && |log.marks| == |log.active|
    && OthersWait(guarded, log.Switched(), before.who, after.who)
    && if round.failed then forall t: int :: t in log.woken <==> t in TimedIn(before.who)
       else
         && EventsHandled(round.pending, log.resumed, log.masks, before.who)
         && ActiveHandled(round.active, log.resumed, log.active, before.who)
         && if round.closed then EveryoneWoken(guarded, log.resumed + log.active, log.woken, before.who)
            else TasksStarted(guarded, log, before, mid) && TimeoutsHandled(guarded, round.ticks, log, mid, after)
  }
}
