/** What the invariant means for a server unit, stated over every run from the start:
  * any number of connections and workers, every interleaving of IOFunc calls,
  * workers, responses and timeouts.
  */
module HshaTheorems {
  import opened Common
  import opened Hsha
  import opened HshaInvariant
  import opened HshaSteps

  ghost predicate Reachable(maxQueue: nat, s: State) {
    exists n: nat, run: seq<Action> :: s == Exec(maxQueue, Init(n), run)
  }

  lemma ReachableInv(m: nat, s: State)
    requires Reachable(m, s)
    ensures Inv(m, s)
  {
    hide Inv, Exec, Init;
    var n: nat, run: seq<Action> :| s == Exec(m, Init(n), run);
    InitHolds(m, n);
    RunKeepsInv(m, Init(n), run);
  }

  /** No object is freed twice or touched after it was freed, by anyone. */
  lemma NoUseAfterFree(m: nat, s: State)
    requires Reachable(m, s)
    ensures !s.fault
  {
    ReachableInv(m, s);
  }

  // How many items of the in-queue, of the workers' hands and of the out-queue are
  // about connection c.
  function InItems(s: State, c: Conn): set<int> { set i | 0 <= i < |s.inq| && s.inq[i].conn == c }
  function HeldItems(s: State, c: Conn): set<int> {
    set w | 0 <= w < |s.workers| && (s.workers[w].Holding? || s.workers[w].Answered?) && s.workers[w].conn == c
  }
  function OutItems(s: State, c: Conn): set<int> { set i | 0 <= i < |s.outq| && s.outq[i].conn == c }
  function Outstanding(s: State, c: Conn): nat { |InItems(s, c)| + |HeldItems(s, c)| + |OutItems(s, c)| }

  // c has pushed a request and no response for it has been handed to c yet.
  predicate AwaitsResponse(s: State, c: Conn) {
    && c in s.conns && s.conns[c].pc.Awaited().Some? && c in s.socks
    && (s.conns[c].pc.Pushed? || s.socks[c].args == None)
  }

  // The socket record outlives its timed-out IOFunc call.
  predicate LazilyDestroyed(s: State, c: Conn) {
    c in s.socks && s.socks[c].uthread == -1
  }

  lemma FlightMeaning(m: nat, s: State, c: Conn)
    requires Inv(m, s)
    ensures c in s.flight <==> AwaitsResponse(s, c) || LazilyDestroyed(s, c)
    ensures !(AwaitsResponse(s, c) && LazilyDestroyed(s, c))
  {
    hide TimersOk, InQueueOk, WorkersOk, OutQueueOk, TaskReqsOk, QueuedReqsOk, WorkerReqsOk, FreshReqs,
         TaskRespsOk, QueuedRespsOk, SocketRespsOk, WorkerRespsOk, FreshResps, Bounded, ControlOk;
  }

  lemma Singleton(xs: set<int>, x: int)
    requires x in xs && forall y | y in xs :: y == x
    ensures |xs| == 1
  {
    assert forall y :: y in xs <==> y in {x};
    assert xs == {x};
  }

  lemma CountIn(s: State, c: Conn)
    requires InQueueOk(s.inq, s.flight)
    ensures |InItems(s, c)| == if c in s.flight && s.flight[c].stage.InQueue? then 1 else 0
  {
    if c in s.flight && s.flight[c].stage.InQueue? {
      var i :| 0 <= i < |s.inq| && s.inq[i] == InItem(c, s.flight[c].req);
      Singleton(InItems(s, c), i);
    } else {
      assert InItems(s, c) == {};
    }
  }

  lemma CountHeld(s: State, c: Conn)
    requires WorkersOk(s.workers, s.flight)
    ensures |HeldItems(s, c)| == if c in s.flight && s.flight[c].stage.AtWorker? then 1 else 0
  {
    if c in s.flight && s.flight[c].stage.AtWorker? {
      Singleton(HeldItems(s, c), s.flight[c].stage.worker);
    } else {
      assert HeldItems(s, c) == {};
    }
  }

  lemma CountOut(s: State, c: Conn)
    requires OutQueueOk(s.outq, s.flight)
    ensures |OutItems(s, c)| == if c in s.flight && s.flight[c].stage.OutQueue? then 1 else 0
  {
    if c in s.flight && s.flight[c].stage.OutQueue? {
      var i :| 0 <= i < |s.outq| && s.outq[i] == OutItem(c, s.flight[c].stage.resp);
      Singleton(OutItems(s, c), i);
    } else {
      assert OutItems(s, c) == {};
    }
  }

  /** A connection has at most one request outstanding, and it has one exactly while
    * its call waits for the response or its socket waits to be destroyed.
    */
  lemma ExactlyOneOutstanding(m: nat, s: State, c: Conn)
    requires Reachable(m, s)
    ensures Outstanding(s, c) <= 1
    ensures Outstanding(s, c) == 1 <==> AwaitsResponse(s, c) || LazilyDestroyed(s, c)
  {
    hide *;
    ReachableInv(m, s);
    FlightMeaning(m, s, c);
    InvQueues(m, s);
    CountIn(s, c);
    CountHeld(s, c);
    CountOut(s, c);
    OutstandingIs(s, c);
  }

  lemma InvQueues(m: nat, s: State)
    requires Inv(m, s)
    ensures InQueueOk(s.inq, s.flight) && WorkersOk(s.workers, s.flight) && OutQueueOk(s.outq, s.flight)
  {
  }

  lemma OutstandingIs(s: State, c: Conn)
    ensures Outstanding(s, c) == |InItems(s, c)| + |HeldItems(s, c)| + |OutItems(s, c)|
  {
  }

  /** The outstanding item of a waiting call carries the very request it waits for,
    * also in later keep-alive rounds.
    */
  lemma OutstandingIsTheAwaitedRequest(m: nat, s: State, c: Conn)
    requires Reachable(m, s) && AwaitsResponse(s, c)
    ensures forall i | i in InItems(s, c) :: s.inq[i].req == s.conns[c].pc.req
    ensures forall w | w in HeldItems(s, c) :: s.workers[w].req == s.conns[c].pc.req
    ensures forall i | i in OutItems(s, c) :: s.outq[i].resp.req == s.conns[c].pc.req
  {
    hide ControlOk, SocketsOk, TimersOk, InQueueOk, WorkersOk, OutQueueOk, FlightsOk, TaskReqsOk, QueuedReqsOk,
         WorkerReqsOk, FreshReqs, TaskRespsOk, QueuedRespsOk, SocketRespsOk, WorkerRespsOk, FreshResps, Bounded;
    ReachableInv(m, s);
    AwaitedFlight(s.conns, s.socks, s.flight, s.nextConn, s.io, c);
    ItemsOfFlight(s, c);
  }

  lemma AwaitedFlight(conns: map<Conn, Task>, socks: map<Conn, Sock>, flight: map<Conn, Flight>, n: nat, io: Control, c: Conn)
    requires SocketsOk(conns, socks, flight, n) && FlightsOk(conns, socks, flight, io)
    requires c in conns && conns[c].pc.Awaited().Some? && c in socks && (conns[c].pc.Pushed? || socks[c].args == None)
    ensures c in flight && flight[c].req == conns[c].pc.req
  {
  }

  lemma ItemsOfFlight(s: State, c: Conn)
    requires InQueueOk(s.inq, s.flight) && WorkersOk(s.workers, s.flight) && OutQueueOk(s.outq, s.flight) && c in s.flight
    ensures forall i | i in InItems(s, c) :: s.inq[i].req == s.flight[c].req
    ensures forall w | w in HeldItems(s, c) :: s.workers[w].req == s.flight[c].req
    ensures forall i | i in OutItems(s, c) :: s.outq[i].resp.req == s.flight[c].req
  {
  }

  /** Handing out a response resumes the connection it is for, which is parked on the
    * request that the response answers, and nothing else.
    */
  lemma ResponseResumesItsWaiter(m: nat, s: State)
    requires Reachable(m, s) && Enabled(s, DeliverResponse)
    ensures var c := s.io.phase.conn;
      && Step(m, s, DeliverResponse).io == Running(c, Active)
      && c in s.conns && s.conns[c].pc.Parked? && c in s.socks
      && s.socks[c].args.Some? && s.socks[c].args.value.req == s.conns[c].pc.req
  {
    hide ControlOk, SocketsOk, TimersOk, InQueueOk, WorkersOk, OutQueueOk, FlightsOk, TaskReqsOk, QueuedReqsOk,
         WorkerReqsOk, FreshReqs, TaskRespsOk, QueuedRespsOk, SocketRespsOk, WorkerRespsOk, FreshResps, Bounded;
    ReachableInv(m, s);
    DeliveringIsParked(s.conns, s.socks, s.flight, s.io);
    ResumeStep(m, s, s.io.phase.conn, Active);
  }

  /** A woken call either sends the response to its own request or abandons the socket;
    * it abandons it exactly when no response was handed over.
    */
  lemma WakeUpMatches(m: nat, s: State)
    requires Reachable(m, s) && Enabled(s, WakeUp)
    ensures var c := s.io.conn; var t := Step(m, s, WakeUp);
      && c in s.socks && c in t.conns
      && (s.socks[c].args == None ==> t.conns[c].pc == Exiting(false) && LazilyDestroyed(t, c) && c in s.flight)
      && (s.socks[c].args != None ==> t.conns[c].pc.Sending? && t.conns[c].pc.resp.req == s.conns[c].pc.req)
      && c !in t.timers
  {
    hide Inv, Reachable, Apply, Enabled;
    ReachableInv(m, s);
    WakingIsParked(m, s);
    WakingOwnsSocket(m, s);
    if s.socks[s.io.conn].args == None {
      TimedOutStep(m, s);
    } else {
      AnsweredStep(m, s);
    }
  }

  lemma WakingIsParked(m: nat, s: State)
    requires Enabled(s, WakeUp)
    ensures IsRunning(s) && Now(s).Parked? && Step(m, s, WakeUp) == Apply(m, s, WakeUp)
  {
    hide Apply;
  }

  /** In every reachable state, also while a call runs and while the heap is being sifted,
    * a socket in the timer heap is the live record of a parked call and names that
    * call's slot; a lazily destroyed socket is in neither the timer heap nor epoll.
    */
  lemma TimedSocketsAreLive(m: nat, s: State, c: Conn)
    requires Reachable(m, s)
    ensures c in s.timers ==> c in s.socks && c in s.conns && s.conns[c].pc.Yielded() && s.socks[c].uthread == s.conns[c].slot
    ensures LazilyDestroyed(s, c) ==> c !in s.timers && c !in s.polled
  {
    hide ControlOk, InQueueOk, WorkersOk, OutQueueOk, FlightsOk, TaskReqsOk, QueuedReqsOk,
         WorkerReqsOk, FreshReqs, TaskRespsOk, QueuedRespsOk, SocketRespsOk, WorkerRespsOk, FreshResps, Bounded;
    ReachableInv(m, s);
    TimedIsParked(s.conns, s.socks, s.flight, s.timers + s.lost, s.polled, s.io, s.nextConn, c);
  }

  lemma TimedIsParked(conns: map<Conn, Task>, socks: map<Conn, Sock>, flight: map<Conn, Flight>, owed: set<Conn>, polled: set<Conn>, io: Control, n: nat, c: Conn)
    requires SocketsOk(conns, socks, flight, n) && TimersOk(conns, owed, polled, io)
    ensures c in owed ==> c in socks && c in conns && conns[c].pc.Yielded() && socks[c].uthread == conns[c].slot
    ensures c in socks && socks[c].uthread == -1 ==> c !in owed && c !in polled
  {
  }

  /** While the scheduler loop is in control, the live calls are those with a timer and those
    * that lost it under a stale id; so the timed sockets are exactly the sockets of the
    * live calls if and only if none was lost. No two name the same slot.
    */
  lemma TimedSocketsAreTheLiveOnes(m: nat, s: State)
    requires Reachable(m, s) && s.io.Scheduler?
    ensures s.conns.Keys == s.timers + s.lost && s.timers !! s.lost
    ensures s.timers == s.conns.Keys <==> s.lost == {}
    ensures forall c, d | c in s.timers && d in s.timers && c != d :: c in s.socks && d in s.socks && s.socks[c].uthread != s.socks[d].uthread
  {
    hide ControlOk, SocketsOk, TimersOk, InQueueOk, WorkersOk, OutQueueOk, FlightsOk, TaskReqsOk, QueuedReqsOk,
         WorkerReqsOk, FreshReqs, TaskRespsOk, QueuedRespsOk, SocketRespsOk, WorkerRespsOk, FreshResps, Bounded;
    ReachableInv(m, s);
    TimedAreLive(s.conns, s.slots, s.timers + s.lost, s.polled, s.io, s.nextConn);
    TimedSlots(s.conns, s.slots, s.socks, s.flight, s.io, s.nextConn);
    if s.timers == s.conns.Keys {
      assert s.lost <= s.timers;
      assert s.lost == {};
    }
  }

  predicate RemovesGuarded(run: seq<Action>) {
    forall i | 0 <= i < |run| :: !run[i].StaleRemoval?
  }

  /** With the guard in RemoveTimer there are no stale ids and no timer is ever lost. */
  lemma {:induction false} NothingLostWhenGuarded(m: nat, s: State, run: seq<Action>)
    requires s.lost == {} && RemovesGuarded(run)
    ensures Exec(m, s, run).lost == {}
    decreases |run|
  {
    hide Step;
    if run != [] {
      LostOnlyByStaleIds(m, s, run[0]);
      NothingLostWhenGuarded(m, Step(m, s, run[0]), run[1..]);
    }
  }

  lemma LostOnlyByStaleIds(m: nat, s: State, a: Action)
    requires !a.StaleRemoval?
    ensures Step(m, s, a).lost <= s.lost
  {
    hide Apply, Enabled, IsLoopStep, IsWorkerStep;
    if Enabled(s, a) {
      if IsLoopStep(a) {
        LostByLoop(m, s, a);
      } else if IsWorkerStep(a) {
        LostByWorker(m, s, a);
      } else {
        LostByCall(m, s, a);
      }
    }
  }

  lemma LostByLoop(m: nat, s: State, a: Action)
    requires Enabled(s, a) && IsLoopStep(a)
    ensures Apply(m, s, a).lost == s.lost
  {
    hide Resume, SetPC, Yield, Unpoll, FreeReq, FreeResp, DoHandleResponse, DoStartTask, DoPushRequest, DoWakeUp, DoLeave,
         DoDispatch, DoPushResponse, DoPluckRequest, HeapIsLive;
  }

  lemma LostByWorker(m: nat, s: State, a: Action)
    requires Enabled(s, a) && IsWorkerStep(a)
    ensures Apply(m, s, a).lost == s.lost
  {
    hide Resume, SetPC, Yield, Unpoll, FreeReq, FreeResp, DoHandleResponse, DoStartTask, DoPushRequest, DoWakeUp, DoLeave,
         DoDispatch, DoPushResponse, DoPluckRequest, HeapIsLive;
  }

  lemma LostByCall(m: nat, s: State, a: Action)
    requires Enabled(s, a) && !IsLoopStep(a) && !IsWorkerStep(a) && !a.StaleRemoval?
    ensures Apply(m, s, a).lost <= s.lost
  {
    hide Resume, SetPC, Yield, Unpoll, FreeReq, FreeResp, DoHandleResponse, DoStartTask, DoPushRequest, DoWakeUp, DoLeave,
         DoDispatch, DoPushResponse, DoPluckRequest, HeapIsLive;
  }

  lemma TimedAreLive(conns: map<Conn, Task>, slots: map<nat, Conn>, timers: set<Conn>, polled: set<Conn>, io: Control, n: nat)
    requires ControlOk(conns, slots, io, n) && TimersOk(conns, timers, polled, io) && io.Scheduler?
    ensures forall c :: c in timers <==> c in conns
    ensures forall c | c in polled :: c in conns
  {
  }

  lemma TimedSlots(conns: map<Conn, Task>, slots: map<nat, Conn>, socks: map<Conn, Sock>, flight: map<Conn, Flight>, io: Control, n: nat)
    requires ControlOk(conns, slots, io, n) && SocketsOk(conns, socks, flight, n) && io.Scheduler?
    ensures forall c | c in conns :: c in socks && socks[c].uthread == conns[c].slot
    ensures forall c, d | c in conns && d in conns && c != d :: conns[c].slot != conns[d].slot
  {
  }

  /** An epoll event or a timeout resumes the call whose socket it names: no wake-up is
    * lost to a stale slot number, and none reaches another call.
    */
  lemma WakeUpsAreExact(m: nat, s: State, a: Action)
    requires Reachable(m, s) && Enabled(s, a) && (a.NextEvent? || a.FireTimer?)
    ensures Step(m, s, a).io.Running?
    ensures Step(m, s, a).io.conn == if a.NextEvent? then s.io.phase.batch[0] else a.timed
  {
    hide ControlOk, SocketsOk, TimersOk, InQueueOk, WorkersOk, OutQueueOk, FlightsOk, TaskReqsOk, QueuedReqsOk,
         WorkerReqsOk, FreshReqs, TaskRespsOk, QueuedRespsOk, SocketRespsOk, WorkerRespsOk, FreshResps, Bounded;
    ReachableInv(m, s);
    if a.NextEvent? {
      var c := s.io.phase.batch[0];
      PendingIsPolling(s.conns, s.timers + s.lost, s.polled, s.io, c);
      ResumeStep(m, s, c, Events(s.io.phase.batch[1..]));
    } else {
      HeapLive(m, s);
      PendingIsPolling(s.conns, s.timers + s.lost, s.polled, s.io, a.timed);
      ResumeStep(m, s, a.timed, Timeouts);
    }
  }

  /** Nothing leaks: once no connection is open and nothing is in flight or in a
    * worker's hands, every request, response and socket record has been freed.
    */
  lemma NothingLeaks(m: nat, s: State)
    requires Reachable(m, s)
    requires s.conns == map[] && s.inq == [] && s.outq == []
    requires forall w | 0 <= w < |s.workers| :: s.workers[w].Idle?
    ensures s.reqs == map[] && s.resps == map[] && s.socks == map[]
    ensures s.timers == {} && s.lost == {} && s.polled == {} && s.slots == map[]
  {
    hide ControlOk, SocketsOk, TimersOk, InQueueOk, WorkersOk, OutQueueOk, FlightsOk, TaskReqsOk, QueuedReqsOk,
         WorkerReqsOk, FreshReqs, TaskRespsOk, QueuedRespsOk, SocketRespsOk, WorkerRespsOk, FreshResps, Bounded;
    ReachableInv(m, s);
    EmptyFlight(s);
    EmptyOwners(s);
    EmptyRest(s);
  }

  lemma EmptyRest(s: State)
    requires ControlOk(s.conns, s.slots, s.io, s.nextConn) && TimersOk(s.conns, s.timers + s.lost, s.polled, s.io)
    requires SocketsOk(s.conns, s.socks, s.flight, s.nextConn) && s.conns == map[] && s.flight == map[]
    ensures s.socks == map[] && s.timers == {} && s.lost == {} && s.polled == {} && s.slots == map[]
  {
    assert forall c | c in s.timers || c in s.lost :: c in s.timers + s.lost;
    assert s.socks.Keys == {} && s.slots.Keys == {};
  }

  lemma EveryStage(flight: map<Conn, Flight>)
    ensures forall c | c in flight :: flight[c].stage.InQueue? || flight[c].stage.AtWorker? || flight[c].stage.OutQueue?
  {
  }

  lemma EmptyFlight(s: State)
    requires InQueueOk(s.inq, s.flight) && WorkersOk(s.workers, s.flight) && OutQueueOk(s.outq, s.flight)
    requires s.inq == [] && s.outq == [] && forall w | 0 <= w < |s.workers| :: s.workers[w].Idle?
    ensures s.flight == map[]
  {
    EveryStage(s.flight);
    assert s.flight.Keys == {};
  }

  lemma EveryOwner(reqs: map<Req, ReqOwner>, resps: map<Resp, RespOwner>)
    ensures forall r | r in reqs :: reqs[r].TaskReq? || reqs[r].QueuedReq? || reqs[r].WorkerReq?
    ensures forall p | p in resps :: resps[p].TaskResp? || resps[p].QueuedResp? || resps[p].SocketResp? || resps[p].WorkerResp?
  {
  }

  lemma EmptyOwners(s: State)
    requires TaskReqsOk(s.conns, s.reqs) && QueuedReqsOk(s.flight, s.reqs) && WorkerReqsOk(s.workers, s.reqs)
    requires TaskRespsOk(s.conns, s.resps) && QueuedRespsOk(s.flight, s.resps) && WorkerRespsOk(s.workers, s.resps)
    requires SocketRespsOk(s.conns, s.socks, s.flight, s.resps)
    requires s.conns == map[] && s.flight == map[] && forall w | 0 <= w < |s.workers| :: s.workers[w].Idle?
    ensures s.reqs == map[] && s.resps == map[]
  {
    EveryOwner(s.reqs, s.resps);
    assert s.reqs.Keys == {} && s.resps.Keys == {};
  }

  /** The in-queue of a unit never grows beyond its limit, although the check and the
    * push are separate steps.
    */
  lemma InQueueIsBounded(m: nat, s: State)
    requires Reachable(m, s)
    ensures |s.inq| <= m
  {
    ReachableInv(m, s);
  }
}
