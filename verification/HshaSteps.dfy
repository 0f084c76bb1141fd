/** Every step of a server unit keeps the invariant. The parts of the invariant stay
  * folded here; each step only names the lemmas for the fields it changes.
  */
module HshaSteps {
  import opened Common
  import opened Hsha
  import opened HshaInvariant

  // The loop moves to its next part, or takes a new batch of events.
  lemma LoopStep(m: nat, s: State, a: Action)
    requires Inv(m, s) && Enabled(s, a)
    requires a.EpollWait? || a.EventsDone? || a.NoMoreResponses? || a.NothingToStart? || a.NoTimerDue?
    ensures Inv(m, Apply(m, s, a))
  {
    hide ControlOk, SocketsOk, TimersOk, InQueueOk, WorkersOk, OutQueueOk, FlightsOk, TaskReqsOk, QueuedReqsOk,
         WorkerReqsOk, FreshReqs, TaskRespsOk, QueuedRespsOk, SocketRespsOk, WorkerRespsOk, FreshResps, Bounded;
    MovePhase(s.conns, s.slots, s.io, s.nextConn, Apply(m, s, a).io.phase);
    MovePhaseFlights(s.conns, s.socks, s.flight, s.io, Apply(m, s, a).io.phase);
    MovePhaseTimers(s.conns, s.timers + s.lost, s.polled, s.io, Apply(m, s, a).io.phase);
  }

  lemma MovePhase(conns: map<Conn, Task>, slots: map<nat, Conn>, io: Control, n: nat, next: Phase)
    requires ControlOk(conns, slots, io, n) && io.Scheduler?
    ensures ControlOk(conns, slots, Scheduler(next), n)
  {
  }

  lemma MovePhaseFlights(conns: map<Conn, Task>, socks: map<Conn, Sock>, flight: map<Conn, Flight>, io: Control, next: Phase)
    requires FlightsOk(conns, socks, flight, io) && io.Scheduler? && !io.phase.Delivering? && !next.Delivering?
    ensures FlightsOk(conns, socks, flight, Scheduler(next))
  {
  }

  lemma MovePhaseTimers(conns: map<Conn, Task>, timers: set<Conn>, polled: set<Conn>, io: Control, next: Phase)
    requires TimersOk(conns, timers, polled, io) && io.Scheduler?
    requires next.Events? ==> IsDistinct(next.batch) && forall c | c in next.batch :: c in polled
    ensures TimersOk(conns, timers, polled, Scheduler(next))
  {
  }

  // Every socket in the heap, and every one that lost its timer, is that of a live call.
  lemma HeapLive(m: nat, s: State)
    requires Inv(m, s)
    ensures HeapIsLive(s)
  {
  }

  lemma OwedWithout(timers: set<Conn>, lost: set<Conn>, c: Conn)
    requires timers !! lost
    ensures (timers - {c}) + lost == timers + lost || (timers - {c}) + lost == (timers + lost) - {c}
    ensures (timers - {c}) + (lost - {c}) == (timers + lost) - {c} && (timers - {c}) !! (lost - {c}) && (timers - {c}) !! lost
    ensures (timers + {c}) + (lost - {c}) == (timers + lost) + {c} && (timers + {c}) !! (lost - {c})
    ensures c in timers ==> (timers - {c}) + (lost + {c}) == timers + lost && (timers - {c}) !! (lost + {c})
  {
    assert c in lost ==> (timers - {c}) + lost == timers + lost;
    assert c !in lost ==> (timers - {c}) + lost == (timers + lost) - {c};
  }

  // What every resume in the scheduler loop has in common: c is parked, so its own
  // call is the one that runs.
  lemma ResumeStep(m: nat, s: State, c: Conn, back: Phase)
    requires Inv(m, s) && s.io.Scheduler? && c in s.conns && s.conns[c].pc.Yielded()
    requires s.io.phase.Delivering? ==> s.io.phase.conn == c
    requires !back.Delivering? && !back.Top?
    requires Pending(Running(c, back)) != [] ==>
               Pending(s.io) != [] && Pending(s.io)[0] == c && Pending(Running(c, back)) == Pending(s.io)[1..]
    ensures Resume(s, c, back) == s.(io := Running(c, back))
    ensures Resume(s.(timers := s.timers - {c}), c, back) == s.(timers := s.timers - {c}, io := Running(c, back))
    ensures Inv(m, s.(io := Running(c, back)))
    ensures Inv(m, s.(timers := s.timers - {c}, io := Running(c, back)))
  {
    hide ControlOk, SocketsOk, TimersOk, InQueueOk, WorkersOk, OutQueueOk, FlightsOk, TaskReqsOk, QueuedReqsOk,
         WorkerReqsOk, FreshReqs, TaskRespsOk, QueuedRespsOk, SocketRespsOk, WorkerRespsOk, FreshResps, Bounded;
    OwedWithout(s.timers, s.lost, c);
    ResumeRuns(s, c, back);
    ResumeRuns(s.(timers := s.timers - {c}), c, back);
    RunControl(s.conns, s.slots, s.io, s.nextConn, c, back);
    RunTimers(s.conns, s.timers + s.lost, s.polled, s.io, c, back);
    RunFlights(s.conns, s.socks, s.flight, s.io, c, back);
  }

  lemma PendingIsPolling(conns: map<Conn, Task>, timers: set<Conn>, polled: set<Conn>, io: Control, c: Conn)
    requires TimersOk(conns, timers, polled, io)
    ensures c in Pending(io) ==> c in conns && conns[c].pc.Polling()
    ensures c in timers ==> c in conns && conns[c].pc.Yielded()
  {
  }

  lemma DeliveringIsParked(conns: map<Conn, Task>, socks: map<Conn, Sock>, flight: map<Conn, Flight>, io: Control)
    requires FlightsOk(conns, socks, flight, io) && io.Scheduler? && io.phase.Delivering?
    ensures Delivered(conns, socks, flight, io.phase.conn)
  {
  }

  lemma CurrentOwnsSocket(conns: map<Conn, Task>, socks: map<Conn, Sock>, flight: map<Conn, Flight>, n: nat, c: Conn)
    requires SocketsOk(conns, socks, flight, n) && Attached(conns, c)
    ensures c in socks && socks[c].uthread >= 0
  {
  }

  lemma BackIsNotDelivering(conns: map<Conn, Task>, slots: map<nat, Conn>, io: Control, n: nat)
    requires ControlOk(conns, slots, io, n) && io.Running?
    ensures !io.back.Delivering? && !io.back.Top?
  {
  }

  lemma OnlyPollersPolled(conns: map<Conn, Task>, timers: set<Conn>, polled: set<Conn>, io: Control, c: Conn)
    requires TimersOk(conns, timers, polled, io) && c in conns && !conns[c].pc.Polling()
    ensures c !in polled
  {
  }

  lemma NextEventStep(m: nat, s: State)
    requires Inv(m, s) && Enabled(s, NextEvent)
    ensures Inv(m, Apply(m, s, NextEvent))
  {
    hide ControlOk, SocketsOk, TimersOk, InQueueOk, WorkersOk, OutQueueOk, FlightsOk, TaskReqsOk, QueuedReqsOk,
         WorkerReqsOk, FreshReqs, TaskRespsOk, QueuedRespsOk, SocketRespsOk, WorkerRespsOk, FreshResps, Bounded;
    var c := s.io.phase.batch[0];
    PendingIsPolling(s.conns, s.timers + s.lost, s.polled, s.io, c);
    ResumeStep(m, s, c, Events(s.io.phase.batch[1..]));
  }

  lemma FireTimerStep(m: nat, s: State, c: Conn)
    requires Inv(m, s) && Enabled(s, FireTimer(c))
    ensures Inv(m, Apply(m, s, FireTimer(c)))
  {
    hide ControlOk, SocketsOk, TimersOk, InQueueOk, WorkersOk, OutQueueOk, FlightsOk, TaskReqsOk, QueuedReqsOk,
         WorkerReqsOk, FreshReqs, TaskRespsOk, QueuedRespsOk, SocketRespsOk, WorkerRespsOk, FreshResps, Bounded;
    HeapLive(m, s);
    PendingIsPolling(s.conns, s.timers + s.lost, s.polled, s.io, c);
    ResumeStep(m, s, c, Timeouts);
  }

  lemma DeliverStep(m: nat, s: State)
    requires Inv(m, s) && Enabled(s, DeliverResponse)
    ensures Inv(m, Apply(m, s, DeliverResponse))
  {
    hide ControlOk, SocketsOk, TimersOk, InQueueOk, WorkersOk, OutQueueOk, FlightsOk, TaskReqsOk, QueuedReqsOk,
         WorkerReqsOk, FreshReqs, TaskRespsOk, QueuedRespsOk, SocketRespsOk, WorkerRespsOk, FreshResps, Bounded;
    DeliveringIsParked(s.conns, s.socks, s.flight, s.io);
    ResumeStep(m, s, s.io.phase.conn, Active);
  }

  // The socket record and the response were live before the step and are not after it.
  predicate Freed(s: State, t: State, c: Conn, p: Resp) {
    c in s.socks && p in s.resps && t.socks == s.socks - {c} && t.resps == s.resps - {p}
  }

  lemma DestroyLateSocket(m: nat, s: State)
    requires Enabled(s, HandleResponse) && s.outq[0].conn in s.socks && s.socks[s.outq[0].conn].uthread == -1 && Inv(m, s)
    ensures Inv(m, Apply(m, s, HandleResponse))
    ensures Freed(s, Apply(m, s, HandleResponse), s.outq[0].conn, s.outq[0].resp)
  {
    hide ControlOk, SocketsOk, TimersOk, InQueueOk, WorkersOk, OutQueueOk, FlightsOk, TaskReqsOk, QueuedReqsOk,
         WorkerReqsOk, FreshReqs, TaskRespsOk, QueuedRespsOk, SocketRespsOk, WorkerRespsOk, FreshResps, Bounded;
    var c, p := s.outq[0].conn, s.outq[0].resp;
    TakenIsAwaited(m, s);
    DropInQueue(s.inq, s.flight, c);
    DropWorkers(s.workers, s.flight, c);
    LeaveOutQueue(s.outq, s.flight);
    DestroySockets(s.conns, s.socks, s.flight, s.nextConn, c);
    DestroyFlights(s.conns, s.socks, s.flight, s.io, c);
    DropQueuedReqs(s.flight, s.reqs, c);
    UnqueueResp(s.flight, s.resps, c, p);
    OtherTaskResps(s.conns, s.resps, p, SocketResp(c));
    DestroySocketResps(s.conns, s.socks, s.flight, s.resps, c);
    OtherSocketResps(s.conns, s.socks - {c}, s.flight - {c}, s.resps, p, QueuedResp(c));
    OtherWorkerResps(s.workers, s.resps, p, SocketResp(c));
    KeepFreshResps(s.resps, s.nextResp, p, SocketResp(c));
  }

  lemma HandOverResponse(m: nat, s: State)
    requires Enabled(s, HandleResponse) && s.outq[0].conn in s.socks && s.socks[s.outq[0].conn].uthread != -1 && Inv(m, s)
    ensures Inv(m, Apply(m, s, HandleResponse))
  {
    hide ControlOk, SocketsOk, TimersOk, InQueueOk, WorkersOk, OutQueueOk, FlightsOk, TaskReqsOk, QueuedReqsOk,
         WorkerReqsOk, FreshReqs, TaskRespsOk, QueuedRespsOk, SocketRespsOk, WorkerRespsOk, FreshResps, Bounded;
    var c, p := s.outq[0].conn, s.outq[0].resp;
    TakenIsAwaited(m, s);
    DropInQueue(s.inq, s.flight, c);
    DropWorkers(s.workers, s.flight, c);
    LeaveOutQueue(s.outq, s.flight);
    DeliverSockets(s.conns, s.socks, s.flight, s.nextConn, c, Some(p));
    DeliverFlights(s.conns, s.socks, s.flight, s.io, c, p);
    DropQueuedReqs(s.flight, s.reqs, c);
    UnqueueResp(s.flight, s.resps, c, p);
    OtherTaskResps(s.conns, s.resps, p, SocketResp(c));
    DeliverSocketResps(s.conns, s.socks, s.flight, s.resps, c, p);
    OtherWorkerResps(s.workers, s.resps, p, SocketResp(c));
    KeepFreshResps(s.resps, s.nextResp, p, SocketResp(c));
    DeliverTimers(s.conns, s.timers + s.lost, s.polled, c);
    DeliverControl(s.conns, s.slots, s.nextConn, c);
  }

  lemma StartTaskStep(m: nat, s: State, slot: nat)
    requires Inv(m, s) && Enabled(s, StartTask(slot))
    ensures Inv(m, Apply(m, s, StartTask(slot)))
  {
    hide ControlOk, SocketsOk, TimersOk, InQueueOk, WorkersOk, OutQueueOk, FlightsOk, TaskReqsOk, QueuedReqsOk,
         WorkerReqsOk, FreshReqs, TaskRespsOk, QueuedRespsOk, SocketRespsOk, WorkerRespsOk, FreshResps, Bounded;
    var c := s.nextConn;
    StartControl(s.conns, s.slots, s.io, c, slot);
    StartSockets(s.conns, s.socks, s.flight, c, slot);
    StartTimers(s.conns, s.slots, s.timers + s.lost, s.polled, s.io, c, slot);
    StartFlights(s.conns, s.slots, s.socks, s.flight, s.io, c, slot);
    StartOwners(m, s.conns, s.socks, s.flight, s.reqs, s.resps, s.inq, c, slot);
  }

  // A step of the running call that neither yields nor touches its socket.
  lemma LocalStep(m: nat, s: State, pc: PC)
    requires Inv(m, s) && IsRunning(s) && !Now(s).Yielded() && !pc.Yielded()
    requires Now(s).Awaited() == None && pc.Awaited() == None && Now(s) != Exiting(false) && pc != Exiting(false)
    requires pc.Admitted? ==> |s.inq| < m
    ensures var t := s.(conns := At(s.conns, s.io.conn, pc));
      && ControlOk(t.conns, t.slots, t.io, t.nextConn) && SocketsOk(t.conns, t.socks, t.flight, t.nextConn)
      && TimersOk(t.conns, t.timers + t.lost, t.polled, t.io) && FlightsOk(t.conns, t.socks, t.flight, t.io)
      && SocketRespsOk(t.conns, t.socks, t.flight, t.resps) && Bounded(m, t.conns, t.inq)
  {
    hide ControlOk, SocketsOk, TimersOk, InQueueOk, WorkersOk, OutQueueOk, FlightsOk, TaskReqsOk, QueuedReqsOk,
         WorkerReqsOk, FreshReqs, TaskRespsOk, QueuedRespsOk, SocketRespsOk, WorkerRespsOk, FreshResps, Bounded;
    var c := s.io.conn;
    PcControl(s.conns, s.slots, s.io, s.nextConn, c, pc);
    PcSockets(s.conns, s.socks, s.flight, s.nextConn, c, pc);
    PcTimers(s.conns, s.timers + s.lost, s.polled, s.io, c, pc);
    PcFlights(s.conns, s.socks, s.flight, s.io, c, pc);
    PcSocketResps(s.conns, s.socks, s.flight, s.resps, c, pc);
    PcBounded(m, s.conns, s.inq, c, pc);
  }

  lemma NewRequestStep(m: nat, s: State)
    requires Inv(m, s) && Enabled(s, NewRequest)
    ensures Inv(m, Apply(m, s, NewRequest))
  {
    hide ControlOk, SocketsOk, TimersOk, InQueueOk, WorkersOk, OutQueueOk, FlightsOk, TaskReqsOk, QueuedReqsOk,
         WorkerReqsOk, FreshReqs, TaskRespsOk, QueuedRespsOk, SocketRespsOk, WorkerRespsOk, FreshResps, Bounded;
    var c, n := s.io.conn, s.nextReq;
    LocalStep(m, s, Reading(n));
    NewTaskReq(s.conns, s.reqs, n, c);
    OtherQueuedReqs(s.flight, s.reqs, n, TaskReq(c));
    OtherWorkerReqs(s.workers, s.reqs, n, TaskReq(c));
    PcTaskResps(s.conns, s.resps, c, Reading(n));
  }

  lemma DropRequest(m: nat, s: State)
    requires IsRunning(s) && (Now(s).Reading? || Now(s).Got?) && Inv(m, s)
    ensures Inv(m, SetPC(FreeReq(s, Now(s).req), Exiting(true)))
  {
    hide ControlOk, SocketsOk, TimersOk, InQueueOk, WorkersOk, OutQueueOk, FlightsOk, TaskReqsOk, QueuedReqsOk,
         WorkerReqsOk, FreshReqs, TaskRespsOk, QueuedRespsOk, SocketRespsOk, WorkerRespsOk, FreshResps, Bounded;
    var c, r := s.io.conn, Now(s).req;
    LocalStep(m, s, Exiting(true));
    DropTaskReq(s.conns, s.reqs, c, Exiting(true));
    OtherQueuedReqs(s.flight, s.reqs, r, TaskReq(c));
    OtherWorkerReqs(s.workers, s.reqs, r, TaskReq(c));
    KeepFresh(s.reqs, s.nextReq, r, TaskReq(c));
    PcTaskResps(s.conns, s.resps, c, Exiting(true));
  }

  lemma KeepRequest(m: nat, s: State, pc: PC)
    requires IsRunning(s) && (Now(s).Reading? || Now(s).Got?) && Inv(m, s) && !pc.Yielded()
    requires pc.OwnReq() == Some(Now(s).req) && (pc.Admitted? ==> |s.inq| < m)
    ensures Now(s).req in s.reqs && Inv(m, SetPC(s, pc))
  {
    hide ControlOk, SocketsOk, TimersOk, InQueueOk, WorkersOk, OutQueueOk, FlightsOk, TaskReqsOk, QueuedReqsOk,
         WorkerReqsOk, FreshReqs, TaskRespsOk, QueuedRespsOk, SocketRespsOk, WorkerRespsOk, FreshResps, Bounded;
    LocalStep(m, s, pc);
    DropTaskReq(s.conns, s.reqs, s.io.conn, Exiting(true));
    PcTaskReqs(s.conns, s.reqs, s.io.conn, pc);
    PcTaskResps(s.conns, s.resps, s.io.conn, pc);
  }

  lemma ReadFailsStep(m: nat, s: State)
    requires Inv(m, s) && Enabled(s, ReadFails)
    ensures Inv(m, Apply(m, s, ReadFails))
  {
    hide ControlOk, SocketsOk, TimersOk, InQueueOk, WorkersOk, OutQueueOk, FlightsOk, TaskReqsOk, QueuedReqsOk,
         WorkerReqsOk, FreshReqs, TaskRespsOk, QueuedRespsOk, SocketRespsOk, WorkerRespsOk, FreshResps, Bounded;
    DropRequest(m, s);
  }

  lemma ReadDoneStep(m: nat, s: State)
    requires Inv(m, s) && Enabled(s, ReadDone)
    ensures Inv(m, Apply(m, s, ReadDone))
  {
    hide ControlOk, SocketsOk, TimersOk, InQueueOk, WorkersOk, OutQueueOk, FlightsOk, TaskReqsOk, QueuedReqsOk,
         WorkerReqsOk, FreshReqs, TaskRespsOk, QueuedRespsOk, SocketRespsOk, WorkerRespsOk, FreshResps, Bounded;
    KeepRequest(m, s, Got(Now(s).req));
  }

  lemma AdmitStep(m: nat, s: State, draw: nat, rate: int, ka: bool)
    requires Inv(m, s) && Enabled(s, Admit(draw, rate, ka))
    ensures Inv(m, Apply(m, s, Admit(draw, rate, ka)))
  {
    hide ControlOk, SocketsOk, TimersOk, InQueueOk, WorkersOk, OutQueueOk, FlightsOk, TaskReqsOk, QueuedReqsOk,
         WorkerReqsOk, FreshReqs, TaskRespsOk, QueuedRespsOk, SocketRespsOk, WorkerRespsOk, FreshResps, Bounded;
    if |s.inq| >= m || draw % 100 < rate {
      DropRequest(m, s);
    } else {
      KeepRequest(m, s, Admitted(Now(s).req, ka));
    }
  }

  lemma YieldStep(m: nat, s: State, pc: PC)
    requires Inv(m, s) && IsRunning(s) && !Now(s).Yielded() && !Now(s).Exiting? && pc.Yielded()
    requires Now(s).Awaited() == pc.Awaited() && (pc.Parked? ==> Now(s).WaitCall?)
    requires Now(s).OwnReq() == pc.OwnReq() && Now(s).OwnResp() == pc.OwnResp()
    ensures Inv(m, Yield(s, pc))
  {
    hide ControlOk, SocketsOk, TimersOk, InQueueOk, WorkersOk, OutQueueOk, FlightsOk, TaskReqsOk, QueuedReqsOk,
         WorkerReqsOk, FreshReqs, TaskRespsOk, QueuedRespsOk, SocketRespsOk, WorkerRespsOk, FreshResps, Bounded;
    var c := s.io.conn;
    CurrentOwnsSocket(s.conns, s.socks, s.flight, s.nextConn, c);
    BackIsNotDelivering(s.conns, s.slots, s.io, s.nextConn);
    YieldControl(s.conns, s.slots, s.io, s.nextConn, c, pc);
    YieldSockets(s.conns, s.socks, s.flight, s.nextConn, c, pc);
    HeapLive(m, s);
    OwedWithout(s.timers, s.lost, c);
    YieldTimers(s.conns, s.timers + s.lost, s.polled, s.io, c, pc);
    YieldFlights(s.conns, s.socks, s.flight, s.io, c, pc);
    if pc.Parked? {
      WaitingIsInFlight(s.conns, s.socks, s.flight, s.io, c);
    }
    YieldSocketResps(s.conns, s.socks, s.flight, s.resps, c, pc);
    PcTaskReqs(s.conns, s.reqs, c, pc);
    PcTaskResps(s.conns, s.resps, c, pc);
    PcBounded(m, s.conns, s.inq, c, pc);
  }

  lemma WaitingIsInFlight(conns: map<Conn, Task>, socks: map<Conn, Sock>, flight: map<Conn, Flight>, io: Control, c: Conn)
    requires FlightsOk(conns, socks, flight, io) && c in conns && conns[c].pc.Awaited().Some? && !conns[c].pc.Parked?
    ensures c in flight
  {
  }

  lemma UnpollStep(m: nat, s: State, pc: PC)
    requires Inv(m, s) && IsRunning(s) && Now(s).Polling() && !pc.Yielded() && !pc.Exiting? && !pc.Admitted?
    requires pc.Awaited() == None && Now(s).OwnReq() == pc.OwnReq() && Now(s).OwnResp() == pc.OwnResp()
    ensures Inv(m, Unpoll(s, pc))
  {
    hide ControlOk, SocketsOk, TimersOk, InQueueOk, WorkersOk, OutQueueOk, FlightsOk, TaskReqsOk, QueuedReqsOk,
         WorkerReqsOk, FreshReqs, TaskRespsOk, QueuedRespsOk, SocketRespsOk, WorkerRespsOk, FreshResps, Bounded;
    var c := s.io.conn;
    CurrentOwnsSocket(s.conns, s.socks, s.flight, s.nextConn, c);
    PcControl(s.conns, s.slots, s.io, s.nextConn, c, pc);
    PcSockets(s.conns, s.socks, s.flight, s.nextConn, c, pc);
    HeapLive(m, s);
    OwedWithout(s.timers, s.lost, c);
    UnpollTimers(s.conns, s.timers + s.lost, s.polled, s.io, c, pc);
    PcFlights(s.conns, s.socks, s.flight, s.io, c, pc);
    PcSocketResps(s.conns, s.socks, s.flight, s.resps, c, pc);
    PcTaskReqs(s.conns, s.reqs, c, pc);
    PcTaskResps(s.conns, s.resps, c, pc);
    PcBounded(m, s.conns, s.inq, c, pc);
  }

  lemma PushRequestStep(m: nat, s: State)
    requires Inv(m, s) && Enabled(s, PushRequest)
    ensures Inv(m, Apply(m, s, PushRequest))
  {
    hide ControlOk, SocketsOk, TimersOk, InQueueOk, WorkersOk, OutQueueOk, FlightsOk, TaskReqsOk, QueuedReqsOk,
         WorkerReqsOk, FreshReqs, TaskRespsOk, QueuedRespsOk, SocketRespsOk, WorkerRespsOk, FreshResps, Bounded;
    var c, r, pc := s.io.conn, Now(s).req, Pushed(Now(s).req, Now(s).ka);
    var f := Flight(r, InQueue);
    CurrentOwnsSocket(s.conns, s.socks, s.flight, s.nextConn, c);
    IdleNotInFlight(s.conns, s.socks, s.flight, s.io, c);
    PcControl(s.conns, s.slots, s.io, s.nextConn, c, pc);
    PcSockets(s.conns, s.socks, s.flight, s.nextConn, c, pc);
    MoveSockets(At(s.conns, c, pc), s.socks, s.flight, s.nextConn, c, f);
    PcTimers(s.conns, s.timers + s.lost, s.polled, s.io, c, pc);
    EnterInQueue(s.inq, s.flight, c, r);
    MoveWorkers(s.workers, s.flight, c, f);
    MoveOutQueue(s.outq, s.flight, c, f);
    PushFlights(s.conns, s.socks, s.flight, s.io, c, r, pc.ka);
    HandOverReq(s.conns, s.flight, s.reqs, c, pc);
    OtherWorkerReqs(s.workers, s.reqs, r, QueuedReq(c));
    KeepFresh(s.reqs, s.nextReq, r, QueuedReq(c));
    PcTaskResps(s.conns, s.resps, c, pc);
    MoveQueuedResps(s.flight, s.resps, c, f);
    PcSocketResps(s.conns, s.socks, s.flight, s.resps, c, pc);
    MoveSocketResps(At(s.conns, c, pc), s.socks, s.flight, s.resps, c, f);
    PushBounded(m, s.conns, s.slots, s.inq, s.io, s.nextConn, c, pc, InItem(c, r));
  }

  lemma ClearArgsStep(m: nat, s: State)
    requires Inv(m, s) && Enabled(s, ClearArgs)
    ensures Inv(m, Apply(m, s, ClearArgs))
  {
    hide ControlOk, SocketsOk, TimersOk, InQueueOk, WorkersOk, OutQueueOk, FlightsOk, TaskReqsOk, QueuedReqsOk,
         WorkerReqsOk, FreshReqs, TaskRespsOk, QueuedRespsOk, SocketRespsOk, WorkerRespsOk, FreshResps, Bounded;
    var c, pc := s.io.conn, WaitCall(Now(s).req, Now(s).ka);
    CurrentOwnsSocket(s.conns, s.socks, s.flight, s.nextConn, c);
    PcControl(s.conns, s.slots, s.io, s.nextConn, c, pc);
    PcSockets(s.conns, s.socks, s.flight, s.nextConn, c, pc);
    DeliverSockets(At(s.conns, c, pc), s.socks, s.flight, s.nextConn, c, None);
    PcTimers(s.conns, s.timers + s.lost, s.polled, s.io, c, pc);
    ClearFlights(s.conns, s.socks, s.flight, s.io, c);
    ClearSocketResps(s.conns, s.socks, s.flight, s.resps, c, pc);
    PcTaskReqs(s.conns, s.reqs, c, pc);
    PcTaskResps(s.conns, s.resps, c, pc);
    PcBounded(m, s.conns, s.inq, c, pc);
  }

  // The call no longer owns its socket; whoever takes the response to the request in
  // flight will find it destroyed.
  predicate HandedOver(s: State, t: State, c: Conn) {
    && c in s.conns && c in t.conns && Attached(s.conns, c) && !Attached(t.conns, c)
    && Destroyed(t.conns, t.socks, c) && t.flight == s.flight && c in t.flight && s.conns[c].pc.Awaited() == Some(t.flight[c].req)
    && c !in t.timers && c !in t.polled
  }

  lemma TimedOutStep(m: nat, s: State)
    requires Enabled(s, WakeUp) && s.io.conn in s.socks && s.socks[s.io.conn].args == None && Inv(m, s)
    ensures Inv(m, Apply(m, s, WakeUp))
    ensures HandedOver(s, Apply(m, s, WakeUp), s.io.conn)
  {
    hide ControlOk, SocketsOk, TimersOk, InQueueOk, WorkersOk, OutQueueOk, FlightsOk, TaskReqsOk, QueuedReqsOk,
         WorkerReqsOk, FreshReqs, TaskRespsOk, QueuedRespsOk, SocketRespsOk, WorkerRespsOk, FreshResps, Bounded;
    var c, pc := s.io.conn, Exiting(false);
    CurrentOwnsSocket(s.conns, s.socks, s.flight, s.nextConn, c);
    ParkedCases(s.conns, s.socks, s.flight, s.io, c);
    OnlyPollersPolled(s.conns, s.timers + s.lost, s.polled, s.io, c);
    assert s.polled - {c} == s.polled;
    PcControl(s.conns, s.slots, s.io, s.nextConn, c, pc);
    TimeoutSockets(s.conns, s.socks, s.flight, s.nextConn, c);
    HeapLive(m, s);
    OwedWithout(s.timers, s.lost, c);
    UnpollTimers(s.conns, s.timers + s.lost, s.polled, s.io, c, pc);
    TimeoutFlights(s.conns, s.socks, s.flight, s.io, c);
    TimeoutSocketResps(s.conns, s.socks, s.flight, s.resps, c);
    PcTaskReqs(s.conns, s.reqs, c, pc);
    PcTaskResps(s.conns, s.resps, c, pc);
    PcBounded(m, s.conns, s.inq, c, pc);
  }

  // The call goes on with the response to the very request it waited for.
  predicate Resumed(s: State, t: State, c: Conn) {
    && c in s.conns && c in t.conns && c in s.socks && c !in t.timers
    && t.conns[c].pc.Sending? && s.socks[c].args == Some(t.conns[c].pc.resp)
    && s.conns[c].pc.Awaited() == Some(t.conns[c].pc.resp.req)
  }

  lemma AnsweredStep(m: nat, s: State)
    requires Enabled(s, WakeUp) && s.io.conn in s.socks && s.socks[s.io.conn].args != None && Inv(m, s)
    ensures Inv(m, Apply(m, s, WakeUp))
    ensures Resumed(s, Apply(m, s, WakeUp), s.io.conn)
  {
    hide ControlOk, SocketsOk, TimersOk, InQueueOk, WorkersOk, OutQueueOk, FlightsOk, TaskReqsOk, QueuedReqsOk,
         WorkerReqsOk, FreshReqs, TaskRespsOk, QueuedRespsOk, SocketRespsOk, WorkerRespsOk, FreshResps, Bounded;
    var c, p := s.io.conn, s.socks[s.io.conn].args.value;
    var pc := Sending(p, Now(s).ka);
    CurrentOwnsSocket(s.conns, s.socks, s.flight, s.nextConn, c);
    ParkedCases(s.conns, s.socks, s.flight, s.io, c);
    OnlyPollersPolled(s.conns, s.timers + s.lost, s.polled, s.io, c);
    assert s.polled - {c} == s.polled;
    PcControl(s.conns, s.slots, s.io, s.nextConn, c, pc);
    PcSockets(s.conns, s.socks, s.flight, s.nextConn, c, pc);
    HeapLive(m, s);
    OwedWithout(s.timers, s.lost, c);
    UnpollTimers(s.conns, s.timers + s.lost, s.polled, s.io, c, pc);
    WakeFlights(s.conns, s.socks, s.flight, s.io, c, pc);
    WakeResps(s.conns, s.socks, s.flight, s.resps, c, p, pc.ka);
    OtherQueuedResps(s.flight, s.resps, p, TaskResp(c));
    OtherWorkerResps(s.workers, s.resps, p, TaskResp(c));
    KeepFreshResps(s.resps, s.nextResp, p, TaskResp(c));
    PcTaskReqs(s.conns, s.reqs, c, pc);
    PcBounded(m, s.conns, s.inq, c, pc);
  }

  lemma SendDoneStep(m: nat, s: State, sent: bool)
    requires Inv(m, s) && Enabled(s, SendDone(sent))
    ensures Inv(m, Apply(m, s, SendDone(sent)))
  {
    hide ControlOk, SocketsOk, TimersOk, InQueueOk, WorkersOk, OutQueueOk, FlightsOk, TaskReqsOk, QueuedReqsOk,
         WorkerReqsOk, FreshReqs, TaskRespsOk, QueuedRespsOk, SocketRespsOk, WorkerRespsOk, FreshResps, Bounded;
    var c, p := s.io.conn, Now(s).resp;
    var pc := if Now(s).ka && sent then LoopHead else Exiting(true);
    LocalStep(m, s, pc);
    PcTaskReqs(s.conns, s.reqs, c, pc);
    DropTaskResp(s.conns, s.resps, c, pc);
    OtherQueuedResps(s.flight, s.resps, p, TaskResp(c));
    OtherSocketResps(At(s.conns, c, pc), s.socks, s.flight, s.resps, p, TaskResp(c));
    OtherWorkerResps(s.workers, s.resps, p, TaskResp(c));
    KeepFreshResps(s.resps, s.nextResp, p, TaskResp(c));
  }

  // The stream's destructor frees the socket record if it is still attached, and only then.
  predicate Closed(s: State, t: State) {
    && IsRunning(s) && Now(s).Exiting? && (Now(s).attached ==> s.io.conn in s.socks)
    && t.socks == if Now(s).attached then s.socks - {s.io.conn} else s.socks
  }

  lemma LeaveStep(m: nat, s: State)
    requires Enabled(s, Leave) && Inv(m, s)
    ensures Inv(m, Apply(m, s, Leave))
    ensures Closed(s, Apply(m, s, Leave))
  {
    hide ControlOk, SocketsOk, TimersOk, InQueueOk, WorkersOk, OutQueueOk, FlightsOk, TaskReqsOk, QueuedReqsOk,
         WorkerReqsOk, FreshReqs, TaskRespsOk, QueuedRespsOk, SocketRespsOk, WorkerRespsOk, FreshResps, Bounded;
    var c := s.io.conn;
    if Now(s).attached {
      CurrentOwnsSocket(s.conns, s.socks, s.flight, s.nextConn, c);
    }
    BackIsNotDelivering(s.conns, s.slots, s.io, s.nextConn);
    LeaveControl(s.conns, s.slots, s.io, s.nextConn, c);
    LeaveSockets(s.conns, s.socks, s.flight, s.nextConn, c);
    LeaveTimers(s.conns, s.timers + s.lost, s.polled, s.io, c);
    LeaveFlights(s.conns, s.socks, s.flight, s.io, c);
    LeaveOwners(m, s.conns, s.socks, s.flight, s.reqs, s.resps, s.inq, c);
  }

  lemma StaleRemovalStep(m: nat, s: State, c: Conn)
    requires Inv(m, s) && Enabled(s, StaleRemoval(c))
    ensures Inv(m, Apply(m, s, StaleRemoval(c)))
  {
    hide ControlOk, SocketsOk, TimersOk, InQueueOk, WorkersOk, OutQueueOk, FlightsOk, TaskReqsOk, QueuedReqsOk,
         WorkerReqsOk, FreshReqs, TaskRespsOk, QueuedRespsOk, SocketRespsOk, WorkerRespsOk, FreshResps, Bounded;
    HeapLive(m, s);
    OwedWithout(s.timers, s.lost, c);
  }

  lemma PluckRequestStep(m: nat, s: State, w: nat)
    requires Inv(m, s) && Enabled(s, PluckRequest(w))
    ensures Inv(m, Apply(m, s, PluckRequest(w)))
  {
    hide ControlOk, SocketsOk, TimersOk, InQueueOk, WorkersOk, OutQueueOk, FlightsOk, TaskReqsOk, QueuedReqsOk,
         WorkerReqsOk, FreshReqs, TaskRespsOk, QueuedRespsOk, SocketRespsOk, WorkerRespsOk, FreshResps, Bounded;
    var c, r := s.inq[0].conn, s.inq[0].req;
    var f := Flight(r, AtWorker(w));
    LeaveInQueue(s.inq, s.flight, w);
    MoveSockets(s.conns, s.socks, s.flight, s.nextConn, c, f);
    EnterWorker(s.workers, s.flight, w, c, r);
    MoveOutQueue(s.outq, s.flight, c, f);
    MoveFlights(s.conns, s.socks, s.flight, s.io, c, f);
    TakeReq(s.workers, s.flight, s.reqs, w, c, r);
    OtherTaskReqs(s.conns, s.reqs, r, WorkerReq(w));
    KeepFresh(s.reqs, s.nextReq, r, WorkerReq(w));
    MoveQueuedResps(s.flight, s.resps, c, f);
    MoveSocketResps(s.conns, s.socks, s.flight, s.resps, c, f);
    KeepWorkerResps(s.workers, s.resps, w, Holding(c, r));
    FewerBounded(m, s.conns, s.inq);
  }

  lemma DispatchStep(m: nat, s: State, w: nat, waited_ms: int)
    requires Inv(m, s) && Enabled(s, Dispatch(w, waited_ms))
    ensures Inv(m, Apply(m, s, Dispatch(w, waited_ms)))
  {
    hide ControlOk, SocketsOk, TimersOk, InQueueOk, WorkersOk, OutQueueOk, FlightsOk, TaskReqsOk, QueuedReqsOk,
         WorkerReqsOk, FreshReqs, TaskRespsOk, QueuedRespsOk, SocketRespsOk, WorkerRespsOk, FreshResps, Bounded;
    var k := s.workers[w];
    var p := Resp(s.nextResp, k.req, waited_ms < MAX_QUEUE_WAIT_TIME_COST);
    AnswerWorker(s.workers, s.flight, w, s.nextResp, p.handled);
    KeepWorkerReq(s.workers, s.reqs, w, Answered(k.conn, k.req, p));
    NewWorkerResp(s.workers, s.resps, s.nextResp, w, p.handled);
    OtherTaskResps(s.conns, s.resps, p, WorkerResp(w));
    OtherQueuedResps(s.flight, s.resps, p, WorkerResp(w));
    OtherSocketResps(s.conns, s.socks, s.flight, s.resps, p, WorkerResp(w));
  }

  lemma PushResponseStep(m: nat, s: State, w: nat)
    requires Inv(m, s) && Enabled(s, PushResponse(w))
    ensures Inv(m, Apply(m, s, PushResponse(w)))
  {
    hide ControlOk, SocketsOk, TimersOk, InQueueOk, WorkersOk, OutQueueOk, FlightsOk, TaskReqsOk, QueuedReqsOk,
         WorkerReqsOk, FreshReqs, TaskRespsOk, QueuedRespsOk, SocketRespsOk, WorkerRespsOk, FreshResps, Bounded;
    var c, r, p := s.workers[w].conn, s.workers[w].req, s.workers[w].resp;
    var f := Flight(r, OutQueue(p));
    LeaveWorker(s.workers, s.flight, w, p);
    MoveSockets(s.conns, s.socks, s.flight, s.nextConn, c, f);
    MoveInQueue(s.inq, s.flight, c, f);
    EnterOutQueue(s.outq, s.flight, c, p);
    MoveFlights(s.conns, s.socks, s.flight, s.io, c, f);
    MoveQueuedReqs(s.flight, s.reqs, c, f);
    KeepWorkerReq(s.workers, s.reqs, w, Cleanup(r));
    QueueResp(s.workers, s.flight, s.resps, w, c);
    OtherTaskResps(s.conns, s.resps, p, QueuedResp(c));
    MoveSocketResps(s.conns, s.socks, s.flight, s.resps, c, f);
    OtherSocketResps(s.conns, s.socks, s.flight[c := f], s.resps, p, QueuedResp(c));
    KeepFreshResps(s.resps, s.nextResp, p, QueuedResp(c));
  }

  lemma DeleteRequestStep(m: nat, s: State, w: nat)
    requires Inv(m, s) && Enabled(s, DeleteRequest(w))
    ensures Inv(m, Apply(m, s, DeleteRequest(w)))
  {
    hide ControlOk, SocketsOk, TimersOk, InQueueOk, WorkersOk, OutQueueOk, FlightsOk, TaskReqsOk, QueuedReqsOk,
         WorkerReqsOk, FreshReqs, TaskRespsOk, QueuedRespsOk, SocketRespsOk, WorkerRespsOk, FreshResps, Bounded;
    var r := s.workers[w].req;
    FreeWorker(s.workers, s.flight, w);
    DropWorkerReq(s.workers, s.reqs, w);
    OtherTaskReqs(s.conns, s.reqs, r, WorkerReq(w));
    OtherQueuedReqs(s.flight, s.reqs, r, WorkerReq(w));
    KeepFresh(s.reqs, s.nextReq, r, WorkerReq(w));
    KeepWorkerResps(s.workers, s.resps, w, Idle);
  }

  // The response at the head of the out-queue belongs to a request in flight: either
  // its call is parked on it, or its socket was lazily destroyed.
  lemma TakenIsAwaited(m: nat, s: State)
    requires Inv(m, s) && s.outq != []
    ensures var c, p := s.outq[0].conn, s.outq[0].resp;
      && c in s.flight && s.flight[c] == Flight(p.req, OutQueue(p)) && c in s.socks
      && (Destroyed(s.conns, s.socks, c) <==> s.socks[c].uthread == -1)
      && (s.socks[c].uthread != -1 ==> Waiting(s.conns, s.socks, c, p.req) && Attached(s.conns, c))
      && (s.socks[c].uthread != -1 && s.io.Scheduler? ==> s.conns[c].pc.Parked?)
  {
    hide TimersOk, InQueueOk, WorkersOk, TaskReqsOk, QueuedReqsOk, WorkerReqsOk, FreshReqs,
         TaskRespsOk, QueuedRespsOk, SocketRespsOk, WorkerRespsOk, FreshResps, Bounded;
  }

  lemma DeliverTimers(conns: map<Conn, Task>, timers: set<Conn>, polled: set<Conn>, c: Conn)
    requires TimersOk(conns, timers, polled, Scheduler(Active))
    ensures TimersOk(conns, timers, polled, Scheduler(Delivering(c)))
  {
  }

  lemma DeliverControl(conns: map<Conn, Task>, slots: map<nat, Conn>, n: nat, c: Conn)
    requires ControlOk(conns, slots, Scheduler(Active), n)
    ensures ControlOk(conns, slots, Scheduler(Delivering(c)), n)
  {
  }

  lemma FewerBounded(m: nat, conns: map<Conn, Task>, inq: seq<InItem>)
    requires Bounded(m, conns, inq) && inq != []
    ensures Bounded(m, conns, inq[1..])
  {
  }

  lemma LoopKeepsInv(m: nat, s: State, a: Action)
    requires Inv(m, s) && Enabled(s, a) && IsLoopStep(a)
    ensures Inv(m, Apply(m, s, a))
  {
    hide Inv, Apply;
    match a
    case NextEvent => NextEventStep(m, s);
    case HandleResponse =>
      TakenIsAwaited(m, s);
      if s.socks[s.outq[0].conn].uthread == -1 { DestroyLateSocket(m, s); } else { HandOverResponse(m, s); }
    case DeliverResponse => DeliverStep(m, s);
    case StartTask(slot) => StartTaskStep(m, s, slot);
    case FireTimer(c) => FireTimerStep(m, s, c);
    case _ => LoopStep(m, s, a);
  }

  lemma WorkerKeepsInv(m: nat, s: State, a: Action)
    requires Inv(m, s) && Enabled(s, a) && IsWorkerStep(a)
    ensures Inv(m, Apply(m, s, a))
  {
    hide Inv, Apply;
    match a
    case PluckRequest(w) => PluckRequestStep(m, s, w);
    case Dispatch(w, waited_ms) => DispatchStep(m, s, w, waited_ms);
    case PushResponse(w) => PushResponseStep(m, s, w);
    case DeleteRequest(w) => DeleteRequestStep(m, s, w);
  }

  lemma CallKeepsInv(m: nat, s: State, a: Action)
    requires Inv(m, s) && Enabled(s, a) && !IsLoopStep(a) && !IsWorkerStep(a)
    ensures Inv(m, Apply(m, s, a))
  {
    hide Inv;
    match a
    case NewRequest => NewRequestStep(m, s);
    case ReadBlocks => YieldStep(m, s, ReadPoll(Now(s).req));
    case ReadContinues => UnpollStep(m, s, Reading(Now(s).req));
    case ReadFails => ReadFailsStep(m, s);
    case ReadDone => ReadDoneStep(m, s);
    case Admit(draw, rate, ka) => AdmitStep(m, s, draw, rate, ka);
    case PushRequest => PushRequestStep(m, s);
    case ClearArgs => ClearArgsStep(m, s);
    case Wait => YieldStep(m, s, Parked(Now(s).req, Now(s).ka));
    case WakeUp =>
      WakingOwnsSocket(m, s);
      if s.socks[s.io.conn].args == None { TimedOutStep(m, s); } else { AnsweredStep(m, s); }
    case SendBlocks => YieldStep(m, s, SendPoll(Now(s).resp, Now(s).ka));
    case SendContinues => UnpollStep(m, s, Sending(Now(s).resp, Now(s).ka));
    case SendDone(sent) => SendDoneStep(m, s, sent);
    case Leave => LeaveStep(m, s);
    case StaleRemoval(c) => StaleRemovalStep(m, s, c);
  }

  lemma StepKeepsInv(m: nat, s: State, a: Action)
    requires Inv(m, s)
    ensures Inv(m, Step(m, s, a))
  {
    hide Inv, Apply, Enabled, IsLoopStep, IsWorkerStep;
    if Enabled(s, a) {
      if IsLoopStep(a) {
        LoopKeepsInv(m, s, a);
      } else if IsWorkerStep(a) {
        WorkerKeepsInv(m, s, a);
      } else {
        CallKeepsInv(m, s, a);
      }
    }
  }

  lemma WakingOwnsSocket(m: nat, s: State)
    requires Inv(m, s) && IsRunning(s) && Now(s).Parked?
    ensures s.io.conn in s.socks
  {
    CurrentOwnsSocket(s.conns, s.socks, s.flight, s.nextConn, s.io.conn);
  }

  lemma {:induction false} RunKeepsInv(m: nat, s: State, run: seq<Action>)
    requires Inv(m, s)
    ensures Inv(m, Exec(m, s, run))
    decreases |run|
  {
    hide Inv, Step;
    if run != [] {
      StepKeepsInv(m, s, run[0]);
      RunKeepsInv(m, Step(m, s, run[0]), run[1..]);
    }
  }
}
