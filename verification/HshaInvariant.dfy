/** The inductive invariant of a server unit and its preservation by every step. */
module HshaInvariant {
  import opened Common
  import opened Hsha

  // Each part of the invariant names the fields it depends on.

  predicate IsCurrent(io: Control, c: Conn) {
    io.Running? && io.conn == c
  }

  ghost predicate ControlOk(conns: map<Conn, Task>, slots: map<nat, Conn>, io: Control, nextConn: nat) {
    && (forall c | c in conns :: c < nextConn)
    && (forall c | c in conns :: conns[c].slot in slots && slots[conns[c].slot] == c)
    && (forall u | u in slots :: slots[u] in conns && conns[slots[u]].slot == u)
    && (io.Running? ==> io.conn in conns && !io.back.Delivering? && !io.back.Top?)
    && (forall c | c in conns :: IsCurrent(io, c) || conns[c].pc.Yielded())
  }

  // The IOFunc call of c still owns the socket record.
  predicate Attached(conns: map<Conn, Task>, c: Conn) {
    c in conns && conns[c].pc != Exiting(false)
  }

  ghost predicate SocketsOk(conns: map<Conn, Task>, socks: map<Conn, Sock>, flight: map<Conn, Flight>, nextConn: nat) {
    && (forall c | c in socks :: c < nextConn)
    && (forall c | c in conns && conns[c].pc != Exiting(false) :: c in socks && socks[c].uthread >= 0)
    && (forall c | c in conns && conns[c].pc.Yielded() :: c in socks && socks[c].uthread == conns[c].slot)
    && (forall c | c in socks :: Attached(conns, c) || (socks[c].uthread == -1 && c in flight))
  }

  // The events of the current epoll_wait that are still to be handled.
  function Pending(io: Control): seq<Conn> {
    var p := if io.Running? then io.back else io.phase;
    if p.Events? then p.batch else []
  }

  ghost predicate TimersOk(conns: map<Conn, Task>, timers: set<Conn>, polled: set<Conn>, io: Control) {
    && (forall c | c in timers :: c in conns && conns[c].pc.Yielded())
    && (forall c | c in conns && conns[c].pc.Yielded() :: IsCurrent(io, c) || c in timers)
    && (forall c | c in polled :: c in conns && conns[c].pc.Polling())
    && (forall c | c in conns && conns[c].pc.Polling() :: c in polled)
    && IsDistinct(Pending(io))
    && (forall c | c in Pending(io) :: c in polled && !IsCurrent(io, c))
  }

  ghost predicate InQueueOk(inq: seq<InItem>, flight: map<Conn, Flight>) {
    && (forall i | 0 <= i < |inq| :: inq[i].conn in flight && flight[inq[i].conn] == Flight(inq[i].req, InQueue))
    && (forall i, j | 0 <= i < j < |inq| :: inq[i].conn != inq[j].conn)
    && (forall c | c in flight && flight[c].stage.InQueue? :: InItem(c, flight[c].req) in inq)
  }

  ghost predicate WorkersOk(workers: seq<Worker>, flight: map<Conn, Flight>) {
    && (forall w | 0 <= w < |workers| && (workers[w].Holding? || workers[w].Answered?) ::
          workers[w].conn in flight && flight[workers[w].conn] == Flight(workers[w].req, AtWorker(w)))
    && (forall w | 0 <= w < |workers| && workers[w].Answered? :: workers[w].resp.req == workers[w].req)
    && (forall c | c in flight && flight[c].stage.AtWorker? ::
          flight[c].stage.worker < |workers| && workers[flight[c].stage.worker].Serves(c, flight[c].req))
  }

  ghost predicate OutQueueOk(outq: seq<OutItem>, flight: map<Conn, Flight>) {
    && (forall i | 0 <= i < |outq| :: outq[i].conn in flight
          && flight[outq[i].conn] == Flight(outq[i].resp.req, OutQueue(outq[i].resp)))
    && (forall i, j | 0 <= i < j < |outq| :: outq[i].conn != outq[j].conn)
    && (forall c | c in flight && flight[c].stage.OutQueue? :: OutItem(c, flight[c].stage.resp) in outq)
  }

  // The response for the request that c is parked on sits in its socket record.
  predicate Delivered(conns: map<Conn, Task>, socks: map<Conn, Sock>, flight: map<Conn, Flight>, c: Conn) {
    && c in conns && conns[c].pc.Parked? && c in socks && c !in flight
    && socks[c].args.Some? && socks[c].args.value.req == conns[c].pc.req
  }

  // A request in flight is awaited by its call.
  predicate Waiting(conns: map<Conn, Task>, socks: map<Conn, Sock>, c: Conn, r: Req) {
    && c in conns && c in socks && conns[c].pc.Awaited() == Some(r)
    && (conns[c].pc.Pushed? || socks[c].args == None)
  }

  // The socket record waits to be destroyed together with the late response.
  predicate Destroyed(conns: map<Conn, Task>, socks: map<Conn, Sock>, c: Conn) {
    c in socks && socks[c].uthread == -1 && !Attached(conns, c)
  }

  ghost predicate FlightsOk(conns: map<Conn, Task>, socks: map<Conn, Sock>, flight: map<Conn, Flight>, io: Control) {
    && (forall c | c in flight :: Waiting(conns, socks, c, flight[c].req) || Destroyed(conns, socks, c))
    && (forall c | c in conns && conns[c].pc.Awaited().Some? ::
          || (c in flight && flight[c].req == conns[c].pc.req)
          || (Delivered(conns, socks, flight, c) && (io == Scheduler(Delivering(c)) || IsCurrent(io, c))))
    && (io.Scheduler? && io.phase.Delivering? ==> Delivered(conns, socks, flight, io.phase.conn))
  }

  // Every live request has the owner recorded for it, and every owner's request is live.
  ghost predicate TaskReqsOk(conns: map<Conn, Task>, reqs: map<Req, ReqOwner>) {
    && (forall r | r in reqs && reqs[r].TaskReq? :: reqs[r].conn in conns && conns[reqs[r].conn].pc.OwnReq() == Some(r))
    && (forall c | c in conns && conns[c].pc.OwnReq().Some? :: conns[c].pc.req in reqs && reqs[conns[c].pc.req] == TaskReq(c))
  }

  ghost predicate QueuedReqsOk(flight: map<Conn, Flight>, reqs: map<Req, ReqOwner>) {
    && (forall r | r in reqs && reqs[r].QueuedReq? :: reqs[r].conn in flight && flight[reqs[r].conn] == Flight(r, InQueue))
    && (forall c | c in flight && flight[c].stage.InQueue? :: flight[c].req in reqs && reqs[flight[c].req] == QueuedReq(c))
  }

  ghost predicate WorkerReqsOk(workers: seq<Worker>, reqs: map<Req, ReqOwner>) {
    && (forall r | r in reqs && reqs[r].WorkerReq? :: reqs[r].worker < |workers| && workers[reqs[r].worker].OwnReq() == Some(r))
    && (forall w | 0 <= w < |workers| && !workers[w].Idle? :: workers[w].req in reqs && reqs[workers[w].req] == WorkerReq(w))
  }

  ghost predicate FreshReqs(reqs: map<Req, ReqOwner>, nextReq: nat) {
    forall r | r in reqs :: r < nextReq
  }

  ghost predicate TaskRespsOk(conns: map<Conn, Task>, resps: map<Resp, RespOwner>) {
    && (forall p | p in resps && resps[p].TaskResp? :: resps[p].conn in conns && conns[resps[p].conn].pc.OwnResp() == Some(p))
    && (forall c | c in conns && conns[c].pc.OwnResp().Some? :: conns[c].pc.resp in resps && resps[conns[c].pc.resp] == TaskResp(c))
  }

  ghost predicate QueuedRespsOk(flight: map<Conn, Flight>, resps: map<Resp, RespOwner>) {
    && (forall p | p in resps && resps[p].QueuedResp? :: resps[p].conn in flight && flight[resps[p].conn].stage == OutQueue(p))
    && (forall c | c in flight && flight[c].stage.OutQueue? ::
          flight[c].stage.resp in resps && resps[flight[c].stage.resp] == QueuedResp(c))
  }

  ghost predicate SocketRespsOk(conns: map<Conn, Task>, socks: map<Conn, Sock>, flight: map<Conn, Flight>, resps: map<Resp, RespOwner>) {
    && (forall p | p in resps && resps[p].SocketResp? ::
          Delivered(conns, socks, flight, resps[p].conn) && socks[resps[p].conn].args == Some(p))
    && (forall c | c in conns && Delivered(conns, socks, flight, c) ::
          socks[c].args.value in resps && resps[socks[c].args.value] == SocketResp(c))
  }

  ghost predicate WorkerRespsOk(workers: seq<Worker>, resps: map<Resp, RespOwner>) {
    && (forall p | p in resps && resps[p].WorkerResp? ::
          resps[p].worker < |workers| && workers[resps[p].worker].Answered? && workers[resps[p].worker].resp == p)
    && (forall w | 0 <= w < |workers| && workers[w].Answered? :: workers[w].resp in resps && resps[workers[w].resp] == WorkerResp(w))
  }

  ghost predicate FreshResps(resps: map<Resp, RespOwner>, nextResp: nat) {
    forall p | p in resps :: p.id < nextResp
  }

  ghost predicate Bounded(maxQueue: nat, conns: map<Conn, Task>, inq: seq<InItem>) {
    && |inq| <= maxQueue
    && (forall c | c in conns && conns[c].pc.Admitted? :: |inq| < maxQueue)
  }

  ghost predicate Inv(maxQueue: nat, s: State) {
    && !s.fault
    && ControlOk(s.conns, s.slots, s.io, s.nextConn)
    && SocketsOk(s.conns, s.socks, s.flight, s.nextConn)
    && TimersOk(s.conns, s.timers + s.lost, s.polled, s.io) && s.timers !! s.lost
    && InQueueOk(s.inq, s.flight)
    && WorkersOk(s.workers, s.flight)
    && OutQueueOk(s.outq, s.flight)
    && FlightsOk(s.conns, s.socks, s.flight, s.io)
    && TaskReqsOk(s.conns, s.reqs)
    && QueuedReqsOk(s.flight, s.reqs)
    && WorkerReqsOk(s.workers, s.reqs)
    && FreshReqs(s.reqs, s.nextReq)
    && TaskRespsOk(s.conns, s.resps)
    && QueuedRespsOk(s.flight, s.resps)
    && SocketRespsOk(s.conns, s.socks, s.flight, s.resps)
    && WorkerRespsOk(s.workers, s.resps)
    && FreshResps(s.resps, s.nextResp)
    && Bounded(maxQueue, s.conns, s.inq)
  }

  lemma InitHolds(maxQueue: nat, workerCount: nat)
    ensures Inv(maxQueue, Init(workerCount))
  {
  }

  function At(conns: map<Conn, Task>, c: Conn, pc: PC): map<Conn, Task>
    requires c in conns
  {
    conns[c := conns[c].(pc := pc)]
  }

  // ----- A running call moves to another pc -----

  lemma PcControl(conns: map<Conn, Task>, slots: map<nat, Conn>, io: Control, n: nat, c: Conn, pc: PC)
    requires ControlOk(conns, slots, io, n) && c in conns && IsCurrent(io, c)
    ensures ControlOk(At(conns, c, pc), slots, io, n)
  {
  }

  lemma PcSockets(conns: map<Conn, Task>, socks: map<Conn, Sock>, flight: map<Conn, Flight>, n: nat, c: Conn, pc: PC)
    requires SocketsOk(conns, socks, flight, n)
    requires Attached(conns, c) && pc != Exiting(false) && !pc.Yielded()
    ensures SocketsOk(At(conns, c, pc), socks, flight, n)
  {
  }

  lemma PcTimers(conns: map<Conn, Task>, timers: set<Conn>, polled: set<Conn>, io: Control, c: Conn, pc: PC)
    requires TimersOk(conns, timers, polled, io)
    requires c in conns && IsCurrent(io, c) && !conns[c].pc.Yielded() && !pc.Yielded()
    ensures TimersOk(At(conns, c, pc), timers, polled, io)
  {
  }

  lemma PcFlights(conns: map<Conn, Task>, socks: map<Conn, Sock>, flight: map<Conn, Flight>, io: Control, c: Conn, pc: PC)
    requires FlightsOk(conns, socks, flight, io)
    requires Attached(conns, c) && conns[c].pc.Awaited() == None && pc.Awaited() == None && pc != Exiting(false)
    ensures FlightsOk(At(conns, c, pc), socks, flight, io)
  {
  }

  lemma PcTaskReqs(conns: map<Conn, Task>, reqs: map<Req, ReqOwner>, c: Conn, pc: PC)
    requires TaskReqsOk(conns, reqs)
    requires c in conns && pc.OwnReq() == conns[c].pc.OwnReq()
    ensures TaskReqsOk(At(conns, c, pc), reqs)
  {
  }

  lemma PcTaskResps(conns: map<Conn, Task>, resps: map<Resp, RespOwner>, c: Conn, pc: PC)
    requires TaskRespsOk(conns, resps)
    requires c in conns && pc.OwnResp() == conns[c].pc.OwnResp()
    ensures TaskRespsOk(At(conns, c, pc), resps)
  {
  }

  lemma PcSocketResps(conns: map<Conn, Task>, socks: map<Conn, Sock>, flight: map<Conn, Flight>, resps: map<Resp, RespOwner>, c: Conn, pc: PC)
    requires SocketRespsOk(conns, socks, flight, resps)
    requires c in conns && !pc.Parked? && !conns[c].pc.Parked?
    ensures SocketRespsOk(At(conns, c, pc), socks, flight, resps)
  {
  }

  // ----- Yielding, and coming back from a poll -----

  function Parks(socks: map<Conn, Sock>, c: Conn, slot: nat): map<Conn, Sock>
    requires c in socks
  {
    socks[c := socks[c].(uthread := slot)]
  }

  lemma YieldControl(conns: map<Conn, Task>, slots: map<nat, Conn>, io: Control, n: nat, c: Conn, pc: PC)
    requires ControlOk(conns, slots, io, n) && c in conns && IsCurrent(io, c) && pc.Yielded()
    ensures ControlOk(At(conns, c, pc), slots, Scheduler(io.back), n)
  {
  }

  lemma YieldSockets(conns: map<Conn, Task>, socks: map<Conn, Sock>, flight: map<Conn, Flight>, n: nat, c: Conn, pc: PC)
    requires SocketsOk(conns, socks, flight, n) && Attached(conns, c) && pc.Yielded()
    ensures c in socks
    ensures SocketsOk(At(conns, c, pc), Parks(socks, c, conns[c].slot), flight, n)
  {
  }

  lemma YieldTimers(conns: map<Conn, Task>, timers: set<Conn>, polled: set<Conn>, io: Control, c: Conn, pc: PC)
    requires TimersOk(conns, timers, polled, io)
    requires c in conns && IsCurrent(io, c) && !conns[c].pc.Yielded() && pc.Yielded()
    ensures TimersOk(At(conns, c, pc), timers + {c}, if pc.Polling() then polled + {c} else polled, Scheduler(io.back))
  {
  }

  lemma YieldFlights(conns: map<Conn, Task>, socks: map<Conn, Sock>, flight: map<Conn, Flight>, io: Control, c: Conn, pc: PC)
    requires FlightsOk(conns, socks, flight, io)
    requires Attached(conns, c) && c in socks && socks[c].uthread >= 0 && IsCurrent(io, c) && !io.back.Delivering? && pc.Yielded()
    requires conns[c].pc.Awaited() == pc.Awaited() && (pc.Parked? ==> conns[c].pc.WaitCall?)
    ensures FlightsOk(At(conns, c, pc), Parks(socks, c, conns[c].slot), flight, Scheduler(io.back))
  {
  }

  lemma YieldSocketResps(conns: map<Conn, Task>, socks: map<Conn, Sock>, flight: map<Conn, Flight>, resps: map<Resp, RespOwner>, c: Conn, pc: PC)
    requires SocketRespsOk(conns, socks, flight, resps)
    requires c in conns && c in socks && !conns[c].pc.Parked? && (pc.Parked? ==> c in flight)
    ensures SocketRespsOk(At(conns, c, pc), Parks(socks, c, conns[c].slot), flight, resps)
  {
  }

  lemma UnpollTimers(conns: map<Conn, Task>, timers: set<Conn>, polled: set<Conn>, io: Control, c: Conn, pc: PC)
    requires TimersOk(conns, timers, polled, io) && c in conns && IsCurrent(io, c) && !pc.Yielded()
    ensures TimersOk(At(conns, c, pc), timers - {c}, polled - {c}, io)
  {
  }

  // ----- Resuming -----

  lemma ResumeRuns(s: State, c: Conn, back: Phase)
    requires ControlOk(s.conns, s.slots, s.io, s.nextConn) && SocketsOk(s.conns, s.socks, s.flight, s.nextConn)
    requires c in s.conns && s.conns[c].pc.Yielded()
    ensures Resume(s, c, back) == s.(io := Running(c, back))
  {
  }

  lemma RunControl(conns: map<Conn, Task>, slots: map<nat, Conn>, io: Control, n: nat, c: Conn, back: Phase)
    requires ControlOk(conns, slots, io, n) && io.Scheduler? && c in conns && !back.Delivering? && !back.Top?
    ensures ControlOk(conns, slots, Running(c, back), n)
  {
  }

  lemma RunFlights(conns: map<Conn, Task>, socks: map<Conn, Sock>, flight: map<Conn, Flight>, io: Control, c: Conn, back: Phase)
    requires FlightsOk(conns, socks, flight, io)
    requires io.Scheduler? && (io.phase.Delivering? ==> io.phase.conn == c)
    ensures FlightsOk(conns, socks, flight, Running(c, back))
  {
  }

  lemma RunTimers(conns: map<Conn, Task>, timers: set<Conn>, polled: set<Conn>, io: Control, c: Conn, back: Phase)
    requires TimersOk(conns, timers, polled, io) && io.Scheduler?
    requires Pending(Running(c, back)) != [] ==>
               Pending(io) != [] && Pending(io)[0] == c && Pending(Running(c, back)) == Pending(io)[1..]
    ensures TimersOk(conns, timers, polled, Running(c, back))
    ensures TimersOk(conns, timers - {c}, polled, Running(c, back))
  {
    var before, after := Pending(io), Pending(Running(c, back));
    assert forall i | 0 <= i < |after| :: after[i] == before[i + 1];
  }

  // ----- A request in flight changes its stage -----

  lemma MoveInQueue(inq: seq<InItem>, flight: map<Conn, Flight>, c: Conn, f: Flight)
    requires InQueueOk(inq, flight)
    requires (c in flight ==> !flight[c].stage.InQueue?) && !f.stage.InQueue?
    ensures InQueueOk(inq, flight[c := f])
  {
  }

  lemma MoveWorkers(workers: seq<Worker>, flight: map<Conn, Flight>, c: Conn, f: Flight)
    requires WorkersOk(workers, flight)
    requires (c in flight ==> !flight[c].stage.AtWorker?) && !f.stage.AtWorker?
    ensures WorkersOk(workers, flight[c := f])
  {
  }

  lemma MoveOutQueue(outq: seq<OutItem>, flight: map<Conn, Flight>, c: Conn, f: Flight)
    requires OutQueueOk(outq, flight)
    requires (c in flight ==> !flight[c].stage.OutQueue?) && !f.stage.OutQueue?
    ensures OutQueueOk(outq, flight[c := f])
  {
  }

  lemma MoveSockets(conns: map<Conn, Task>, socks: map<Conn, Sock>, flight: map<Conn, Flight>, n: nat, c: Conn, f: Flight)
    requires SocketsOk(conns, socks, flight, n)
    ensures SocketsOk(conns, socks, flight[c := f], n)
  {
  }

  lemma MoveFlights(conns: map<Conn, Task>, socks: map<Conn, Sock>, flight: map<Conn, Flight>, io: Control, c: Conn, f: Flight)
    requires FlightsOk(conns, socks, flight, io) && c in flight && f.req == flight[c].req
    ensures FlightsOk(conns, socks, flight[c := f], io)
  {
  }

  lemma MoveSocketResps(conns: map<Conn, Task>, socks: map<Conn, Sock>, flight: map<Conn, Flight>, resps: map<Resp, RespOwner>, c: Conn, f: Flight)
    requires SocketRespsOk(conns, socks, flight, resps)
    requires c in flight || c !in conns || !conns[c].pc.Parked?
    ensures SocketRespsOk(conns, socks, flight[c := f], resps)
  {
  }

  lemma EnterInQueue(inq: seq<InItem>, flight: map<Conn, Flight>, c: Conn, r: Req)
    requires InQueueOk(inq, flight) && c !in flight
    ensures InQueueOk(inq + [InItem(c, r)], flight[c := Flight(r, InQueue)])
  {
    var q, f := inq + [InItem(c, r)], flight[c := Flight(r, InQueue)];
    forall d | d in f && f[d].stage.InQueue? ensures InItem(d, f[d].req) in q {
      assert q[|inq|] == InItem(c, r);
    }
  }

  lemma LeaveInQueue(inq: seq<InItem>, flight: map<Conn, Flight>, w: nat)
    requires InQueueOk(inq, flight) && inq != []
    ensures inq[0].conn in flight && flight[inq[0].conn] == Flight(inq[0].req, InQueue)
    ensures InQueueOk(inq[1..], flight[inq[0].conn := Flight(inq[0].req, AtWorker(w))])
  {
    assert inq == [inq[0]] + inq[1..];
  }

  lemma EnterWorker(workers: seq<Worker>, flight: map<Conn, Flight>, w: nat, c: Conn, r: Req)
    requires WorkersOk(workers, flight) && w < |workers| && workers[w].Idle?
    requires c in flight && !flight[c].stage.AtWorker?
    ensures WorkersOk(workers[w := Holding(c, r)], flight[c := Flight(r, AtWorker(w))])
  {
  }

  lemma LeaveWorker(workers: seq<Worker>, flight: map<Conn, Flight>, w: nat, p: Resp)
    requires WorkersOk(workers, flight) && w < |workers| && workers[w].Answered?
    ensures workers[w].conn in flight && flight[workers[w].conn] == Flight(workers[w].req, AtWorker(w)) && workers[w].resp.req == workers[w].req
    ensures WorkersOk(workers[w := Cleanup(workers[w].req)], flight[workers[w].conn := Flight(workers[w].req, OutQueue(p))])
  {
  }

  lemma AnswerWorker(workers: seq<Worker>, flight: map<Conn, Flight>, w: nat, id: nat, handled: bool)
    requires WorkersOk(workers, flight) && w < |workers| && workers[w].Holding?
    ensures WorkersOk(workers[w := Answered(workers[w].conn, workers[w].req, Resp(id, workers[w].req, handled))], flight)
  {
  }

  lemma FreeWorker(workers: seq<Worker>, flight: map<Conn, Flight>, w: nat)
    requires WorkersOk(workers, flight) && w < |workers| && workers[w].Cleanup?
    ensures WorkersOk(workers[w := Idle], flight)
  {
  }

  lemma EnterOutQueue(outq: seq<OutItem>, flight: map<Conn, Flight>, c: Conn, p: Resp)
    requires OutQueueOk(outq, flight) && c in flight && !flight[c].stage.OutQueue?
    ensures OutQueueOk(outq + [OutItem(c, p)], flight[c := Flight(p.req, OutQueue(p))])
  {
    var q, f := outq + [OutItem(c, p)], flight[c := Flight(p.req, OutQueue(p))];
    forall d | d in f && f[d].stage.OutQueue? ensures OutItem(d, f[d].stage.resp) in q {
      assert q[|outq|] == OutItem(c, p);
    }
  }

  // ----- The response has been taken from the out-queue -----

  lemma DropInQueue(inq: seq<InItem>, flight: map<Conn, Flight>, c: Conn)
    requires InQueueOk(inq, flight) && c in flight && !flight[c].stage.InQueue?
    ensures InQueueOk(inq, flight - {c})
  {
  }

  lemma DropWorkers(workers: seq<Worker>, flight: map<Conn, Flight>, c: Conn)
    requires WorkersOk(workers, flight) && c in flight && !flight[c].stage.AtWorker?
    ensures WorkersOk(workers, flight - {c})
  {
  }

  lemma LeaveOutQueue(outq: seq<OutItem>, flight: map<Conn, Flight>)
    requires OutQueueOk(outq, flight) && outq != []
    ensures outq[0].conn in flight && flight[outq[0].conn] == Flight(outq[0].resp.req, OutQueue(outq[0].resp))
    ensures OutQueueOk(outq[1..], flight - {outq[0].conn})
  {
    assert outq == [outq[0]] + outq[1..];
  }

  lemma DropQueuedReqs(flight: map<Conn, Flight>, reqs: map<Req, ReqOwner>, c: Conn)
    requires QueuedReqsOk(flight, reqs) && c in flight && !flight[c].stage.InQueue?
    ensures QueuedReqsOk(flight - {c}, reqs)
  {
  }

  lemma DestroySockets(conns: map<Conn, Task>, socks: map<Conn, Sock>, flight: map<Conn, Flight>, n: nat, c: Conn)
    requires SocketsOk(conns, socks, flight, n) && Destroyed(conns, socks, c)
    ensures SocketsOk(conns, socks - {c}, flight - {c}, n)
  {
  }

  lemma DestroyFlights(conns: map<Conn, Task>, socks: map<Conn, Sock>, flight: map<Conn, Flight>, io: Control, c: Conn)
    requires FlightsOk(conns, socks, flight, io) && Destroyed(conns, socks, c) && c in flight
    ensures FlightsOk(conns, socks - {c}, flight - {c}, io)
  {
  }

  lemma DestroySocketResps(conns: map<Conn, Task>, socks: map<Conn, Sock>, flight: map<Conn, Flight>, resps: map<Resp, RespOwner>, c: Conn)
    requires SocketRespsOk(conns, socks, flight, resps) && Destroyed(conns, socks, c)
    ensures SocketRespsOk(conns, socks - {c}, flight - {c}, resps)
  {
  }

  function Fills(socks: map<Conn, Sock>, c: Conn, args: Option<Resp>): map<Conn, Sock>
    requires c in socks
  {
    socks[c := socks[c].(args := args)]
  }

  lemma DeliverSockets(conns: map<Conn, Task>, socks: map<Conn, Sock>, flight: map<Conn, Flight>, n: nat, c: Conn, a: Option<Resp>)
    requires SocketsOk(conns, socks, flight, n) && c in socks && Attached(conns, c)
    ensures SocketsOk(conns, Fills(socks, c, a), flight - {c}, n)
    ensures SocketsOk(conns, Fills(socks, c, a), flight, n)
  {
  }

  lemma DeliverFlights(conns: map<Conn, Task>, socks: map<Conn, Sock>, flight: map<Conn, Flight>, io: Control, c: Conn, p: Resp)
    requires FlightsOk(conns, socks, flight, io) && io == Scheduler(Active)
    requires c in flight && flight[c].req == p.req && Waiting(conns, socks, c, p.req) && conns[c].pc.Parked?
    ensures FlightsOk(conns, Fills(socks, c, Some(p)), flight - {c}, Scheduler(Delivering(c)))
  {
  }

  lemma DeliverSocketResps(conns: map<Conn, Task>, socks: map<Conn, Sock>, flight: map<Conn, Flight>, resps: map<Resp, RespOwner>, c: Conn, p: Resp)
    requires SocketRespsOk(conns, socks, flight, resps) && c in flight && Waiting(conns, socks, c, p.req) && conns[c].pc.Parked?
    requires p in resps && !resps[p].SocketResp?
    ensures SocketRespsOk(conns, Fills(socks, c, Some(p)), flight - {c}, resps[p := SocketResp(c)])
  {
  }

  // ----- Owners of requests -----

  lemma OtherTaskReqs(conns: map<Conn, Task>, reqs: map<Req, ReqOwner>, r: Req, o: ReqOwner)
    requires TaskReqsOk(conns, reqs) && (r in reqs ==> !reqs[r].TaskReq?) && !o.TaskReq?
    ensures TaskReqsOk(conns, reqs[r := o])
    ensures TaskReqsOk(conns, reqs - {r})
  {
  }

  lemma OtherQueuedReqs(flight: map<Conn, Flight>, reqs: map<Req, ReqOwner>, r: Req, o: ReqOwner)
    requires QueuedReqsOk(flight, reqs) && (r in reqs ==> !reqs[r].QueuedReq?) && !o.QueuedReq?
    ensures QueuedReqsOk(flight, reqs[r := o])
    ensures QueuedReqsOk(flight, reqs - {r})
  {
  }

  lemma OtherWorkerReqs(workers: seq<Worker>, reqs: map<Req, ReqOwner>, r: Req, o: ReqOwner)
    requires WorkerReqsOk(workers, reqs) && (r in reqs ==> !reqs[r].WorkerReq?) && !o.WorkerReq?
    ensures WorkerReqsOk(workers, reqs[r := o])
    ensures WorkerReqsOk(workers, reqs - {r})
  {
  }

  lemma NewTaskReq(conns: map<Conn, Task>, reqs: map<Req, ReqOwner>, n: nat, c: Conn)
    requires TaskReqsOk(conns, reqs) && FreshReqs(reqs, n) && c in conns && conns[c].pc.OwnReq() == None
    ensures TaskReqsOk(At(conns, c, Reading(n)), reqs[n := TaskReq(c)])
    ensures n !in reqs && FreshReqs(reqs[n := TaskReq(c)], n + 1)
  {
  }

  lemma KeepFresh(reqs: map<Req, ReqOwner>, n: nat, r: Req, o: ReqOwner)
    requires FreshReqs(reqs, n) && r in reqs
    ensures FreshReqs(reqs[r := o], n)
    ensures FreshReqs(reqs - {r}, n)
  {
  }

  lemma DropTaskReq(conns: map<Conn, Task>, reqs: map<Req, ReqOwner>, c: Conn, pc: PC)
    requires TaskReqsOk(conns, reqs) && c in conns && conns[c].pc.OwnReq().Some? && pc.OwnReq() == None
    ensures conns[c].pc.req in reqs && reqs[conns[c].pc.req] == TaskReq(c)
    ensures TaskReqsOk(At(conns, c, pc), reqs - {conns[c].pc.req})
  {
  }

  lemma HandOverReq(conns: map<Conn, Task>, flight: map<Conn, Flight>, reqs: map<Req, ReqOwner>, c: Conn, pc: PC)
    requires TaskReqsOk(conns, reqs) && QueuedReqsOk(flight, reqs)
    requires c in conns && conns[c].pc.OwnReq().Some? && pc.OwnReq() == None && c !in flight
    ensures conns[c].pc.req in reqs && reqs[conns[c].pc.req] == TaskReq(c)
    ensures TaskReqsOk(At(conns, c, pc), reqs[conns[c].pc.req := QueuedReq(c)])
    ensures QueuedReqsOk(flight[c := Flight(conns[c].pc.req, InQueue)], reqs[conns[c].pc.req := QueuedReq(c)])
  {
  }

  lemma TakeReq(workers: seq<Worker>, flight: map<Conn, Flight>, reqs: map<Req, ReqOwner>, w: nat, c: Conn, r: Req)
    requires QueuedReqsOk(flight, reqs) && WorkerReqsOk(workers, reqs)
    requires w < |workers| && workers[w].Idle? && c in flight && flight[c] == Flight(r, InQueue)
    ensures r in reqs && reqs[r] == QueuedReq(c)
    ensures QueuedReqsOk(flight[c := Flight(r, AtWorker(w))], reqs[r := WorkerReq(w)])
    ensures WorkerReqsOk(workers[w := Holding(c, r)], reqs[r := WorkerReq(w)])
  {
  }

  lemma MoveQueuedReqs(flight: map<Conn, Flight>, reqs: map<Req, ReqOwner>, c: Conn, f: Flight)
    requires QueuedReqsOk(flight, reqs) && c in flight && !flight[c].stage.InQueue? && !f.stage.InQueue?
    ensures QueuedReqsOk(flight[c := f], reqs)
  {
  }

  lemma KeepWorkerReq(workers: seq<Worker>, reqs: map<Req, ReqOwner>, w: nat, k: Worker)
    requires WorkerReqsOk(workers, reqs) && w < |workers| && !workers[w].Idle? && k.OwnReq() == workers[w].OwnReq()
    ensures workers[w].req in reqs
    ensures WorkerReqsOk(workers[w := k], reqs)
  {
  }

  lemma DropWorkerReq(workers: seq<Worker>, reqs: map<Req, ReqOwner>, w: nat)
    requires WorkerReqsOk(workers, reqs) && w < |workers| && !workers[w].Idle?
    ensures workers[w].req in reqs && reqs[workers[w].req] == WorkerReq(w)
    ensures WorkerReqsOk(workers[w := Idle], reqs - {workers[w].req})
  {
  }

  // ----- Owners of responses -----

  lemma OtherTaskResps(conns: map<Conn, Task>, resps: map<Resp, RespOwner>, p: Resp, o: RespOwner)
    requires TaskRespsOk(conns, resps) && (p in resps ==> !resps[p].TaskResp?) && !o.TaskResp?
    ensures TaskRespsOk(conns, resps[p := o])
    ensures TaskRespsOk(conns, resps - {p})
  {
  }

  lemma OtherQueuedResps(flight: map<Conn, Flight>, resps: map<Resp, RespOwner>, p: Resp, o: RespOwner)
    requires QueuedRespsOk(flight, resps) && (p in resps ==> !resps[p].QueuedResp?) && !o.QueuedResp?
    ensures QueuedRespsOk(flight, resps[p := o])
    ensures QueuedRespsOk(flight, resps - {p})
  {
  }

  lemma OtherSocketResps(conns: map<Conn, Task>, socks: map<Conn, Sock>, flight: map<Conn, Flight>, resps: map<Resp, RespOwner>, p: Resp, o: RespOwner)
    requires SocketRespsOk(conns, socks, flight, resps) && (p in resps ==> !resps[p].SocketResp?) && !o.SocketResp?
    ensures SocketRespsOk(conns, socks, flight, resps[p := o])
    ensures SocketRespsOk(conns, socks, flight, resps - {p})
  {
  }

  lemma OtherWorkerResps(workers: seq<Worker>, resps: map<Resp, RespOwner>, p: Resp, o: RespOwner)
    requires WorkerRespsOk(workers, resps) && (p in resps ==> !resps[p].WorkerResp?) && !o.WorkerResp?
    ensures WorkerRespsOk(workers, resps[p := o])
    ensures WorkerRespsOk(workers, resps - {p})
  {
  }

  lemma KeepFreshResps(resps: map<Resp, RespOwner>, n: nat, p: Resp, o: RespOwner)
    requires FreshResps(resps, n) && p in resps
    ensures FreshResps(resps[p := o], n)
    ensures FreshResps(resps - {p}, n)
  {
  }

  lemma NewWorkerResp(workers: seq<Worker>, resps: map<Resp, RespOwner>, n: nat, w: nat, handled: bool)
    requires WorkerRespsOk(workers, resps) && FreshResps(resps, n) && w < |workers| && workers[w].Holding?
    ensures Resp(n, workers[w].req, handled) !in resps
    ensures FreshResps(resps[Resp(n, workers[w].req, handled) := WorkerResp(w)], n + 1)
    ensures WorkerRespsOk(workers[w := Answered(workers[w].conn, workers[w].req, Resp(n, workers[w].req, handled))],
                          resps[Resp(n, workers[w].req, handled) := WorkerResp(w)])
  {
  }

  lemma KeepWorkerResps(workers: seq<Worker>, resps: map<Resp, RespOwner>, w: nat, k: Worker)
    requires WorkerRespsOk(workers, resps) && w < |workers| && !workers[w].Answered? && !k.Answered?
    ensures WorkerRespsOk(workers[w := k], resps)
  {
  }

  lemma QueueResp(workers: seq<Worker>, flight: map<Conn, Flight>, resps: map<Resp, RespOwner>, w: nat, c: Conn)
    requires WorkerRespsOk(workers, resps) && QueuedRespsOk(flight, resps)
    requires w < |workers| && workers[w].Answered? && c in flight && !flight[c].stage.OutQueue?
    ensures workers[w].resp in resps && resps[workers[w].resp] == WorkerResp(w)
    ensures WorkerRespsOk(workers[w := Cleanup(workers[w].req)], resps[workers[w].resp := QueuedResp(c)])
    ensures QueuedRespsOk(flight[c := Flight(workers[w].req, OutQueue(workers[w].resp))], resps[workers[w].resp := QueuedResp(c)])
  {
  }

  lemma MoveQueuedResps(flight: map<Conn, Flight>, resps: map<Resp, RespOwner>, c: Conn, f: Flight)
    requires QueuedRespsOk(flight, resps) && (c in flight ==> !flight[c].stage.OutQueue?) && !f.stage.OutQueue?
    ensures QueuedRespsOk(flight[c := f], resps)
  {
  }

  lemma UnqueueResp(flight: map<Conn, Flight>, resps: map<Resp, RespOwner>, c: Conn, p: Resp)
    requires QueuedRespsOk(flight, resps) && c in flight && flight[c].stage == OutQueue(p)
    ensures p in resps && resps[p] == QueuedResp(c)
    ensures QueuedRespsOk(flight - {c}, resps - {p})
    ensures QueuedRespsOk(flight - {c}, resps[p := SocketResp(c)])
  {
  }

  lemma DropTaskResp(conns: map<Conn, Task>, resps: map<Resp, RespOwner>, c: Conn, pc: PC)
    requires TaskRespsOk(conns, resps) && c in conns && conns[c].pc.OwnResp().Some? && pc.OwnResp() == None
    ensures conns[c].pc.resp in resps && resps[conns[c].pc.resp] == TaskResp(c)
    ensures TaskRespsOk(At(conns, c, pc), resps - {conns[c].pc.resp})
  {
  }

  // ----- Pushing the request, clearing args -----

  lemma IdleNotInFlight(conns: map<Conn, Task>, socks: map<Conn, Sock>, flight: map<Conn, Flight>, io: Control, c: Conn)
    requires FlightsOk(conns, socks, flight, io) && Attached(conns, c) && conns[c].pc.Awaited() == None
    ensures c !in flight
  {
  }

  lemma PushFlights(conns: map<Conn, Task>, socks: map<Conn, Sock>, flight: map<Conn, Flight>, io: Control, c: Conn, r: Req, ka: bool)
    requires FlightsOk(conns, socks, flight, io) && Attached(conns, c) && c in socks && conns[c].pc.Admitted?
    ensures FlightsOk(At(conns, c, Pushed(r, ka)), socks, flight[c := Flight(r, InQueue)], io)
  {
  }

  lemma PcBounded(m: nat, conns: map<Conn, Task>, inq: seq<InItem>, c: Conn, pc: PC)
    requires Bounded(m, conns, inq) && c in conns && (pc.Admitted? ==> |inq| < m)
    ensures Bounded(m, At(conns, c, pc), inq)
  {
  }

  lemma PushBounded(m: nat, conns: map<Conn, Task>, slots: map<nat, Conn>, inq: seq<InItem>, io: Control, n: nat, c: Conn, pc: PC, x: InItem)
    requires Bounded(m, conns, inq) && ControlOk(conns, slots, io, n)
    requires c in conns && IsCurrent(io, c) && conns[c].pc.Admitted? && !pc.Admitted?
    ensures Bounded(m, At(conns, c, pc), inq + [x])
  {
  }

  lemma ClearFlights(conns: map<Conn, Task>, socks: map<Conn, Sock>, flight: map<Conn, Flight>, io: Control, c: Conn)
    requires FlightsOk(conns, socks, flight, io) && c in conns && conns[c].pc.Pushed? && c in socks && socks[c].uthread >= 0
    ensures c in flight
    ensures FlightsOk(At(conns, c, WaitCall(conns[c].pc.req, conns[c].pc.ka)), Fills(socks, c, None), flight, io)
  {
  }

  lemma ClearSocketResps(conns: map<Conn, Task>, socks: map<Conn, Sock>, flight: map<Conn, Flight>, resps: map<Resp, RespOwner>, c: Conn, pc: PC)
    requires SocketRespsOk(conns, socks, flight, resps) && c in conns && c in socks && !conns[c].pc.Parked? && !pc.Parked?
    ensures SocketRespsOk(At(conns, c, pc), Fills(socks, c, None), flight, resps)
  {
  }

  // ----- Waking up from the wait -----

  lemma ParkedCases(conns: map<Conn, Task>, socks: map<Conn, Sock>, flight: map<Conn, Flight>, io: Control, c: Conn)
    requires FlightsOk(conns, socks, flight, io) && c in conns && conns[c].pc.Parked? && c in socks && socks[c].uthread >= 0
    ensures socks[c].args == None ==> c in flight && flight[c].req == conns[c].pc.req
    ensures socks[c].args != None ==> Delivered(conns, socks, flight, c)
  {
  }

  // The socket after a timed-out wait.
  function Abandons(socks: map<Conn, Sock>, c: Conn): map<Conn, Sock>
    requires c in socks
  {
    socks[c := socks[c].(uthread := -1)]
  }

  lemma TimeoutSockets(conns: map<Conn, Task>, socks: map<Conn, Sock>, flight: map<Conn, Flight>, n: nat, c: Conn)
    requires SocketsOk(conns, socks, flight, n) && c in conns && c in socks && c in flight
    ensures SocketsOk(At(conns, c, Exiting(false)), Abandons(socks, c), flight, n)
  {
  }

  lemma TimeoutFlights(conns: map<Conn, Task>, socks: map<Conn, Sock>, flight: map<Conn, Flight>, io: Control, c: Conn)
    requires FlightsOk(conns, socks, flight, io) && IsCurrent(io, c) && c in conns && c in socks && c in flight
    ensures FlightsOk(At(conns, c, Exiting(false)), Abandons(socks, c), flight, io)
  {
  }

  lemma TimeoutSocketResps(conns: map<Conn, Task>, socks: map<Conn, Sock>, flight: map<Conn, Flight>, resps: map<Resp, RespOwner>, c: Conn)
    requires SocketRespsOk(conns, socks, flight, resps) && c in conns && c in socks && c in flight
    ensures SocketRespsOk(At(conns, c, Exiting(false)), Abandons(socks, c), flight, resps)
  {
  }

  lemma WakeFlights(conns: map<Conn, Task>, socks: map<Conn, Sock>, flight: map<Conn, Flight>, io: Control, c: Conn, pc: PC)
    requires FlightsOk(conns, socks, flight, io) && IsCurrent(io, c) && Delivered(conns, socks, flight, c) && pc.Sending?
    ensures FlightsOk(At(conns, c, pc), socks, flight, io)
  {
  }

  lemma WakeResps(conns: map<Conn, Task>, socks: map<Conn, Sock>, flight: map<Conn, Flight>, resps: map<Resp, RespOwner>, c: Conn, p: Resp, ka: bool)
    requires SocketRespsOk(conns, socks, flight, resps) && TaskRespsOk(conns, resps)
    requires Delivered(conns, socks, flight, c) && socks[c].args == Some(p)
    ensures p in resps && resps[p] == SocketResp(c)
    ensures SocketRespsOk(At(conns, c, Sending(p, ka)), socks, flight, resps[p := TaskResp(c)])
    ensures TaskRespsOk(At(conns, c, Sending(p, ka)), resps[p := TaskResp(c)])
  {
  }

  // ----- The start and the end of an IOFunc call -----

  lemma StartControl(conns: map<Conn, Task>, slots: map<nat, Conn>, io: Control, n: nat, u: nat)
    requires ControlOk(conns, slots, io, n) && io.Scheduler? && u !in slots
    ensures ControlOk(conns[n := Task(u, LoopHead)], slots[u := n], Running(n, Starting), n + 1)
  {
  }

  lemma StartSockets(conns: map<Conn, Task>, socks: map<Conn, Sock>, flight: map<Conn, Flight>, n: nat, u: nat)
    requires SocketsOk(conns, socks, flight, n)
    ensures SocketsOk(conns[n := Task(u, LoopHead)], socks[n := Sock(0, None)], flight, n + 1)
  {
  }

  lemma StartTimers(conns: map<Conn, Task>, slots: map<nat, Conn>, timers: set<Conn>, polled: set<Conn>, io: Control, n: nat, u: nat)
    requires ControlOk(conns, slots, io, n) && TimersOk(conns, timers, polled, io) && io.Scheduler?
    ensures TimersOk(conns[n := Task(u, LoopHead)], timers, polled, Running(n, Starting))
  {
  }

  lemma StartFlights(conns: map<Conn, Task>, slots: map<nat, Conn>, socks: map<Conn, Sock>, flight: map<Conn, Flight>, io: Control, n: nat, u: nat)
    requires ControlOk(conns, slots, io, n) && SocketsOk(conns, socks, flight, n) && FlightsOk(conns, socks, flight, io) && io == Scheduler(Starting)
    ensures n !in conns && n !in flight
    ensures FlightsOk(conns[n := Task(u, LoopHead)], socks[n := Sock(0, None)], flight, Running(n, Starting))
  {
  }

  lemma StartOwners(m: nat, conns: map<Conn, Task>, socks: map<Conn, Sock>, flight: map<Conn, Flight>, reqs: map<Req, ReqOwner>, resps: map<Resp, RespOwner>, inq: seq<InItem>, n: nat, u: nat)
    requires TaskReqsOk(conns, reqs) && TaskRespsOk(conns, resps) && SocketRespsOk(conns, socks, flight, resps)
    requires Bounded(m, conns, inq) && n !in conns
    ensures TaskReqsOk(conns[n := Task(u, LoopHead)], reqs)
    ensures TaskRespsOk(conns[n := Task(u, LoopHead)], resps)
    ensures SocketRespsOk(conns[n := Task(u, LoopHead)], socks[n := Sock(0, None)], flight, resps)
    ensures Bounded(m, conns[n := Task(u, LoopHead)], inq)
  {
  }

  lemma LeaveControl(conns: map<Conn, Task>, slots: map<nat, Conn>, io: Control, n: nat, c: Conn)
    requires ControlOk(conns, slots, io, n) && c in conns && IsCurrent(io, c)
    ensures ControlOk(conns - {c}, slots - {conns[c].slot}, Scheduler(io.back), n)
  {
  }

  lemma LeaveSockets(conns: map<Conn, Task>, socks: map<Conn, Sock>, flight: map<Conn, Flight>, n: nat, c: Conn)
    requires SocketsOk(conns, socks, flight, n) && c in conns
    ensures Attached(conns, c) ==> SocketsOk(conns - {c}, socks - {c}, flight, n)
    ensures !Attached(conns, c) ==> SocketsOk(conns - {c}, socks, flight, n)
  {
  }

  lemma LeaveTimers(conns: map<Conn, Task>, timers: set<Conn>, polled: set<Conn>, io: Control, c: Conn)
    requires TimersOk(conns, timers, polled, io) && c in conns && IsCurrent(io, c) && !conns[c].pc.Yielded()
    ensures TimersOk(conns - {c}, timers, polled, Scheduler(io.back))
  {
  }

  lemma LeaveFlights(conns: map<Conn, Task>, socks: map<Conn, Sock>, flight: map<Conn, Flight>, io: Control, c: Conn)
    requires FlightsOk(conns, socks, flight, io) && c in conns && IsCurrent(io, c) && conns[c].pc.Exiting? && !io.back.Delivering?
    ensures Attached(conns, c) ==> FlightsOk(conns - {c}, socks - {c}, flight, Scheduler(io.back))
    ensures !Attached(conns, c) ==> FlightsOk(conns - {c}, socks, flight, Scheduler(io.back))
  {
  }

  lemma LeaveOwners(m: nat, conns: map<Conn, Task>, socks: map<Conn, Sock>, flight: map<Conn, Flight>, reqs: map<Req, ReqOwner>, resps: map<Resp, RespOwner>, inq: seq<InItem>, c: Conn)
    requires TaskReqsOk(conns, reqs) && TaskRespsOk(conns, resps) && SocketRespsOk(conns, socks, flight, resps)
    requires Bounded(m, conns, inq) && c in conns && conns[c].pc.Exiting?
    ensures TaskReqsOk(conns - {c}, reqs)
    ensures TaskRespsOk(conns - {c}, resps)
    ensures SocketRespsOk(conns - {c}, socks, flight, resps)
    ensures SocketRespsOk(conns - {c}, socks - {c}, flight, resps)
    ensures Bounded(m, conns - {c}, inq)
  {
  }
}
