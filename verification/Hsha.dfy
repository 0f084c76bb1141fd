/** One server unit as a transition system: the IO thread, which runs the scheduler
  * loop and, inside it, at most one IOFunc user thread at a time, next to any number
  * of worker threads. A step is one operation on shared state. Reading or freeing an
  * object that is not live sets fault, so memory safety is a property of the runs
  * and not an assumption about them.
  */
module Hsha {

  import opened Common
  import HshaAdmission

  // A worker that finds its request to have queued this long answers without serving it.
  const MAX_QUEUE_WAIT_TIME_COST: int := 500

  // A connection stands for its socket record and for the IOFunc call that made it.
  type Conn = nat
  type Req = nat
  // A response object, the request that its worker was answering, and whether the
  // dispatch function filled it in.
  datatype Resp = Resp(id: nat, req: Req, handled: bool)

  // Where an IOFunc call is. The three parked states are the two poll calls and
  // the wait for the response; ka is the local is_keep_alive.
  datatype PC =
    | LoopHead
    | Reading(req: Req)
    | ReadPoll(req: Req)
    | Got(req: Req)
    | Admitted(req: Req, ka: bool)
    | Pushed(req: Req, ka: bool)
    | WaitCall(req: Req, ka: bool)
    | Parked(req: Req, ka: bool)
    | Sending(resp: Resp, ka: bool)
    | SendPoll(resp: Resp, ka: bool)
    | Exiting(attached: bool)
  {
    predicate Polling() { ReadPoll? || SendPoll? }
    predicate Yielded() { ReadPoll? || SendPoll? || Parked? }
    // The request object this call still owns.
    function OwnReq(): Option<Req> {
      if Reading? || ReadPoll? || Got? || Admitted? then Some(req) else None
    }
    // The request this call has handed over and waits for.
    function Awaited(): Option<Req> {
      if Pushed? || WaitCall? || Parked? then Some(req) else None
    }
    function OwnResp(): Option<Resp> {
      if Sending? || SendPoll? then Some(resp) else None
    }
  }

  // An IOFunc call occupies one slot of the user-thread runtime.
  datatype Task = Task(slot: nat, pc: PC)

  // uthread is -1 once the record has been lazily destroyed.
  datatype Sock = Sock(uthread: int, args: Option<Resp>)

  datatype InItem = InItem(conn: Conn, req: Req)
  datatype OutItem = OutItem(conn: Conn, resp: Resp)

  datatype Worker =
    | Idle
    | Holding(conn: Conn, req: Req)
    | Answered(conn: Conn, req: Req, resp: Resp)
    | Cleanup(req: Req)
  {
    function OwnReq(): Option<Req> {
      if Idle? then None else Some(req)
    }
    predicate Serves(c: Conn, r: Req) {
      (Holding? || Answered?) && conn == c && req == r
    }
  }

  // The parts of one turn of the scheduler loop.
  datatype Phase =
    | Top
    | Events(batch: seq<Conn>)
    | Active
    | Delivering(conn: Conn)
    | Starting
    | Timeouts

  datatype Control = Scheduler(phase: Phase) | Running(conn: Conn, back: Phase)

  // Auxiliary records of who owns a live object and where a pushed request is. No step
  // looks at them except to test whether an object is live. Likewise lost records the
  // parked sockets whose timers were taken out of the heap under a stale id.
  datatype ReqOwner = TaskReq(conn: Conn) | QueuedReq(conn: Conn) | WorkerReq(worker: nat)
  datatype RespOwner = TaskResp(conn: Conn) | QueuedResp(conn: Conn) | SocketResp(conn: Conn) | WorkerResp(worker: nat)
  datatype Stage = InQueue | AtWorker(worker: nat) | OutQueue(resp: Resp)
  datatype Flight = Flight(req: Req, stage: Stage)

  datatype State = State(
    conns: map<Conn, Task>,
    slots: map<nat, Conn>,
    socks: map<Conn, Sock>,
    timers: set<Conn>,
    lost: set<Conn>,
    polled: set<Conn>,
    inq: seq<InItem>,
    outq: seq<OutItem>,
    workers: seq<Worker>,
    reqs: map<Req, ReqOwner>,
    resps: map<Resp, RespOwner>,
    flight: map<Conn, Flight>,
    io: Control,
    nextConn: nat,
    nextReq: nat,
    nextResp: nat,
    fault: bool)

  datatype Action =
    // the scheduler loop
    | EpollWait(ready: seq<Conn>)
    | NextEvent
    | EventsDone
    | HandleResponse
    | DeliverResponse
    | NoMoreResponses
    | StartTask(slot: nat)
    | NothingToStart
    | FireTimer(timed: Conn)
    | NoTimerDue
    // the running IOFunc call
    | NewRequest
    | ReadBlocks
    | ReadContinues
    | ReadFails
    | ReadDone
    // the random draw, the load control's rate then, and what the request asks for
    | Admit(draw: nat, rate: int, keepAlive: bool)
    | PushRequest
    | ClearArgs
    | Wait
    | WakeUp
    | SendBlocks
    | SendContinues
    | SendDone(sent: bool)
    | Leave
    | StaleRemoval(timed: Conn)
    // worker threads
    | PluckRequest(w: nat)
    | Dispatch(w: nat, waited_ms: int)
    | PushResponse(w: nat)
    | DeleteRequest(w: nat)

  function Init(workerCount: nat): State {
    State(map[], map[], map[], {}, {}, {}, [], [], seq(workerCount, _ => Idle), map[], map[], map[],
          Scheduler(Top), 0, 0, 0, false)
  }

  function Fault(s: State): State { s.(fault := true) }

  predicate IsRunning(s: State) {
    s.io.Running? && s.io.conn in s.conns
  }

  // The pc of the call that runs now.
  function Now(s: State): PC
    requires IsRunning(s)
  {
    s.conns[s.io.conn].pc
  }

  // Control-flow guards only: nothing here asks whether memory is live.
  predicate Enabled(s: State, a: Action) {
    !s.fault &&
    match a
    case EpollWait(ready) => s.io == Scheduler(Top) && IsDistinct(ready) && (forall c | c in ready :: c in s.polled)
    case NextEvent => s.io.Scheduler? && s.io.phase.Events? && s.io.phase.batch != []
    case EventsDone => s.io == Scheduler(Events([]))
    case HandleResponse => s.io == Scheduler(Active) && s.outq != []
    case DeliverResponse => s.io.Scheduler? && s.io.phase.Delivering?
    case NoMoreResponses => s.io == Scheduler(Active) && s.outq == []
    case StartTask(slot) => s.io == Scheduler(Starting) && slot !in s.slots
    case NothingToStart => s.io == Scheduler(Starting)
    case FireTimer(c) => s.io == Scheduler(Timeouts) && c in s.timers
    case NoTimerDue => s.io == Scheduler(Timeouts)
    case NewRequest => IsRunning(s) && Now(s).LoopHead?
    case ReadBlocks => IsRunning(s) && Now(s).Reading?
    case ReadContinues => IsRunning(s) && Now(s).ReadPoll?
    case ReadFails => IsRunning(s) && Now(s).Reading?
    case ReadDone => IsRunning(s) && Now(s).Reading?
    case Admit(_, _, _) => IsRunning(s) && Now(s).Got?
    case PushRequest => IsRunning(s) && Now(s).Admitted?
    case ClearArgs => IsRunning(s) && Now(s).Pushed?
    case Wait => IsRunning(s) && Now(s).WaitCall?
    case WakeUp => IsRunning(s) && Now(s).Parked?
    case SendBlocks => IsRunning(s) && Now(s).Sending?
    case SendContinues => IsRunning(s) && Now(s).SendPoll?
    case SendDone(_) => IsRunning(s) && Now(s).Sending?
    case Leave => IsRunning(s) && Now(s).Exiting?
    case StaleRemoval(c) => IsRunning(s) && c in s.timers
    case PluckRequest(w) => w < |s.workers| && s.workers[w].Idle? && s.inq != []
    case Dispatch(w, _) => w < |s.workers| && s.workers[w].Holding?
    case PushResponse(w) => w < |s.workers| && s.workers[w].Answered?
    case DeleteRequest(w) => w < |s.workers| && s.workers[w].Cleanup?
  }

  // Neither queue and no worker is touched.
  predicate SameQueues(s: State, t: State) {
    t.inq == s.inq && t.outq == s.outq && t.workers == s.workers
  }

  // The calls are where they were, and so is the IO thread.
  predicate SameCalls(s: State, t: State) {
    t.conns == s.conns && t.io == s.io
  }

  // Adding, removing or popping a timer compares entries and writes the timer ids of
  // any of the stored sockets.
  predicate HeapIsLive(s: State) {
    forall c | c in s.timers :: c in s.socks
  }

  // UThreadRuntime.Resume on the id stored in a socket record.
  function Resume(s: State, c: Conn, back: Phase): (r: State)
    ensures r.lost == s.lost && r.nextReq == s.nextReq && SameQueues(s, r) && r.conns == s.conns && r.socks == s.socks
    ensures r.fault || (if r.io.Running? then r.io.back == back else r.io.phase == back)
  {
    if c !in s.socks then Fault(s)
    else
      var u := s.socks[c].uthread;
      if u >= 0 && u in s.slots then s.(io := Running(s.slots[u], back)) else s.(io := Scheduler(back))
  }

  function SetPC(s: State, pc: PC): (r: State)
    requires IsRunning(s)
    ensures r.lost == s.lost && r.nextReq == s.nextReq && SameQueues(s, r) && r.io == s.io
    ensures r.conns == s.conns[s.io.conn := s.conns[s.io.conn].(pc := pc)] && IsRunning(r) && Now(r) == pc
  {
    s.(conns := s.conns[s.io.conn := s.conns[s.io.conn].(pc := pc)])
  }

  // Stores the current user thread and a timer with the socket, then yields.
  function Yield(s: State, pc: PC): (r: State)
    requires IsRunning(s)
    ensures r.lost <= s.lost && r.nextReq == s.nextReq && SameQueues(s, r)
    ensures r.fault || r.io == Scheduler(s.io.back)
  {
    var c := s.io.conn;
    if c !in s.socks || !HeapIsLive(s) then Fault(s)
    else SetPC(s.(socks := s.socks[c := s.socks[c].(uthread := s.conns[c].slot)],
                  timers := s.timers + {c},
                  lost := s.lost - {c},
                  polled := if pc.Polling() then s.polled + {c} else s.polled), pc)
           .(io := Scheduler(s.io.back))
  }

  function FreeReq(s: State, r: Req): (t: State)
    ensures t.lost == s.lost && t.nextReq == s.nextReq && SameQueues(s, t) && SameCalls(s, t) && t.socks == s.socks
  {
    if r in s.reqs then s.(reqs := s.reqs - {r}) else Fault(s)
  }

  function FreeResp(s: State, p: Resp): (r: State)
    ensures r.lost == s.lost && r.nextReq == s.nextReq && SameQueues(s, r) && SameCalls(s, r)
  {
    if p in s.resps then s.(resps := s.resps - {p}) else Fault(s)
  }

  function FreeSock(s: State, c: Conn): (r: State)
    ensures r.lost == s.lost && r.nextReq == s.nextReq && SameQueues(s, r) && SameCalls(s, r)
  {
    if c in s.socks then s.(socks := s.socks - {c}) else Fault(s)
  }

  function DoHandleResponse(s: State): (r: State)
    requires s.outq != []
    ensures r.lost == s.lost && r.nextReq == s.nextReq && r.inq == s.inq && r.workers == s.workers && r.conns == s.conns
    ensures r.fault || (r.outq == s.outq[1..] && (r.io == s.io || r.io == Scheduler(Delivering(s.outq[0].conn))))
  {
    var item := s.outq[0];
    var c, p := item.conn, item.resp;
    var t := s.(outq := s.outq[1..], flight := s.flight - {c});
    if c !in s.socks then Fault(s)
    else if s.socks[c].uthread == -1 then FreeResp(FreeSock(t, c), p)
    else t.(socks := t.socks[c := t.socks[c].(args := Some(p))],
            resps := if p in t.resps then t.resps[p := SocketResp(c)] else t.resps,
            io := Scheduler(Delivering(c)))
  }

  function DoStartTask(s: State, slot: nat): (r: State)
    ensures r.lost == s.lost && r.nextReq == s.nextReq && SameQueues(s, r)
    ensures r.io == Running(s.nextConn, Starting) && IsRunning(r) && Now(r) == LoopHead
  {
    var c := s.nextConn;
    s.(conns := s.conns[c := Task(slot, LoopHead)],
       slots := s.slots[slot := c],
       socks := s.socks[c := Sock(0, None)],
       io := Running(c, Starting),
       nextConn := c + 1)
  }

  function DoPushRequest(s: State): (r: State)
    requires IsRunning(s) && Now(s).Admitted?
    ensures r.lost == s.lost && r.nextReq == s.nextReq && r.io == s.io && IsRunning(r) && Now(r).Pushed?
    ensures r.outq == s.outq && r.workers == s.workers && r.inq == s.inq + [InItem(s.io.conn, Now(s).req)]
  {
    var c := s.io.conn;
    var pc := s.conns[c].pc;
    SetPC(s.(inq := s.inq + [InItem(c, pc.req)],
             flight := s.flight[c := Flight(pc.req, InQueue)],
             reqs := if pc.req in s.reqs then s.reqs[pc.req := QueuedReq(c)] else s.reqs),
          Pushed(pc.req, pc.ka))
  }

  // After UThreadWait: no response in args means the wait timed out, and the socket
  // is left to whoever takes the late response from the out-queue.
  function DoWakeUp(s: State): (r: State)
    requires IsRunning(s) && Now(s).Parked?
    ensures r.lost <= s.lost && r.nextReq == s.nextReq && SameQueues(s, r)
    ensures r.fault || (r.io == s.io && IsRunning(r) && s.io.conn in s.socks
      && Now(r) == match s.socks[s.io.conn].args case None => Exiting(false) case Some(p) => Sending(p, Now(s).ka))
    ensures r.fault || r.conns == s.conns[s.io.conn := s.conns[s.io.conn].(pc := Now(r))]
  {
    var c := s.io.conn;
    var pc := s.conns[c].pc;
    if c !in s.socks || !HeapIsLive(s) then Fault(s)
    else
      var t := s.(timers := s.timers - {c}, lost := s.lost - {c});
      match s.socks[c].args
      case None => SetPC(t.(socks := t.socks[c := t.socks[c].(uthread := -1)]), Exiting(false))
      case Some(p) =>
        if p !in t.resps then Fault(s)
        else SetPC(t.(resps := t.resps[p := TaskResp(c)]), Sending(p, pc.ka))
  }

  // The stream destructor closes and frees a socket that is still attached.
  function DoLeave(s: State): (r: State)
    requires IsRunning(s) && Now(s).Exiting?
    ensures r.lost == s.lost && r.nextReq == s.nextReq && SameQueues(s, r) && r.io == Scheduler(s.io.back)
  {
    var c := s.io.conn;
    var t := if s.conns[c].pc.attached then FreeSock(s, c) else s;
    t.(conns := t.conns - {c}, slots := t.slots - {s.conns[c].slot}, io := Scheduler(s.io.back))
  }

  function DoDispatch(s: State, w: nat, waited_ms: int): (r: State)
    requires w < |s.workers| && s.workers[w].Holding?
    ensures r.lost == s.lost && r.nextReq == s.nextReq && SameCalls(s, r) && r.socks == s.socks && r.inq == s.inq && r.outq == s.outq
  {
    var k := s.workers[w];
    var p := Resp(s.nextResp, k.req, waited_ms < MAX_QUEUE_WAIT_TIME_COST);
    if p.handled && k.req !in s.reqs then Fault(s)
    else s.(workers := s.workers[w := Answered(k.conn, k.req, p)],
            resps := s.resps[p := WorkerResp(w)],
            nextResp := s.nextResp + 1)
  }

  function DoPushResponse(s: State, w: nat): (r: State)
    requires w < |s.workers| && s.workers[w].Answered?
    ensures r.lost == s.lost && r.nextReq == s.nextReq && SameCalls(s, r) && r.socks == s.socks && r.inq == s.inq
    ensures r.outq == s.outq + [OutItem(s.workers[w].conn, s.workers[w].resp)]
  {
    var k := s.workers[w];
    s.(workers := s.workers[w := Cleanup(k.req)],
       outq := s.outq + [OutItem(k.conn, k.resp)],
       flight := s.flight[k.conn := Flight(k.req, OutQueue(k.resp))],
       resps := if k.resp in s.resps then s.resps[k.resp := QueuedResp(k.conn)] else s.resps)
  }

  function DoPluckRequest(s: State, w: nat): (r: State)
    requires w < |s.workers| && s.inq != []
    ensures r.lost == s.lost && r.nextReq == s.nextReq && SameCalls(s, r) && r.socks == s.socks && r.outq == s.outq && r.inq == s.inq[1..]
  {
    var item := s.inq[0];
    s.(workers := s.workers[w := Holding(item.conn, item.req)],
       inq := s.inq[1..],
       flight := s.flight[item.conn := Flight(item.req, AtWorker(w))],
       reqs := if item.req in s.reqs then s.reqs[item.req := WorkerReq(w)] else s.reqs)
  }

  // The steps of the scheduler loop, and those of the workers; the others are the calls'.
  predicate IsLoopStep(a: Action) {
    a.EpollWait? || a.NextEvent? || a.EventsDone? || a.HandleResponse? || a.DeliverResponse? || a.NoMoreResponses?
    || a.StartTask? || a.NothingToStart? || a.FireTimer? || a.NoTimerDue?
  }

  predicate IsWorkerStep(a: Action) { a.PluckRequest? || a.Dispatch? || a.PushResponse? || a.DeleteRequest? }

  function ApplyLoop(s: State, a: Action): State
    requires Enabled(s, a) && IsLoopStep(a)
  {
    match a
    case EpollWait(ready) => s.(io := Scheduler(Events(ready)))
    case NextEvent => Resume(s, s.io.phase.batch[0], Events(s.io.phase.batch[1..]))
    case EventsDone => s.(io := Scheduler(Active))
    case HandleResponse => DoHandleResponse(s)
    case DeliverResponse => Resume(s, s.io.phase.conn, Active)
    case NoMoreResponses => s.(io := Scheduler(Starting))
    case StartTask(slot) => DoStartTask(s, slot)
    case NothingToStart => s.(io := Scheduler(Timeouts))
    case FireTimer(c) => if HeapIsLive(s) then Resume(s.(timers := s.timers - {c}), c, Timeouts) else Fault(s)
    case NoTimerDue => s.(io := Scheduler(Top))
  }

  function ApplyCall(maxQueue: nat, s: State, a: Action): State
    requires Enabled(s, a) && !IsLoopStep(a) && !IsWorkerStep(a)
  {
    match a
    case NewRequest =>
      SetPC(s.(reqs := s.reqs[s.nextReq := TaskReq(s.io.conn)], nextReq := s.nextReq + 1), Reading(s.nextReq))
    case ReadBlocks => Yield(s, ReadPoll(Now(s).req))
    case ReadContinues => Unpoll(s, Reading(Now(s).req))
    case ReadFails => SetPC(FreeReq(s, Now(s).req), Exiting(true))
    case ReadDone =>
      if Now(s).req in s.reqs then SetPC(s, Got(Now(s).req)) else Fault(s)
    case Admit(draw, rate, ka) =>
      // queue full, or refused by the fast-reject rate: the request is dropped here
      if |s.inq| >= maxQueue || !HshaAdmission.LetsIn(draw % 100, rate) then SetPC(FreeReq(s, Now(s).req), Exiting(true))
      else if Now(s).req in s.reqs then SetPC(s, Admitted(Now(s).req, ka))
      else Fault(s)
    case PushRequest => DoPushRequest(s)
    case ClearArgs =>
      var c := s.io.conn;
      if c !in s.socks then Fault(s)
      else SetPC(s.(socks := s.socks[c := s.socks[c].(args := None)]), WaitCall(s.conns[c].pc.req, s.conns[c].pc.ka))
    case Wait => Yield(s, Parked(Now(s).req, Now(s).ka))
    case WakeUp => DoWakeUp(s)
    case SendBlocks => Yield(s, SendPoll(Now(s).resp, Now(s).ka))
    case SendContinues => Unpoll(s, Sending(Now(s).resp, Now(s).ka))
    case SendDone(sent) =>
      SetPC(FreeResp(s, Now(s).resp),
            if Now(s).ka && sent then LoopHead else Exiting(true))
    case Leave => DoLeave(s)
    // what RemoveTimer, as it is written, may do on behalf of a socket with a stale id
    case StaleRemoval(c) =>
      if HeapIsLive(s) then s.(timers := s.timers - {c}, lost := s.lost + {c}) else Fault(s)
  }

  function ApplyWorker(s: State, a: Action): State
    requires Enabled(s, a) && IsWorkerStep(a)
  {
    match a
    case PluckRequest(w) => DoPluckRequest(s, w)
    case Dispatch(w, waited_ms) => DoDispatch(s, w, waited_ms)
    case PushResponse(w) => DoPushResponse(s, w)
    case DeleteRequest(w) => FreeReq(s, s.workers[w].req).(workers := s.workers[w := Idle])
  }

  function Apply(maxQueue: nat, s: State, a: Action): State
    requires Enabled(s, a)
  {
    if IsLoopStep(a) then ApplyLoop(s, a)
    else if IsWorkerStep(a) then ApplyWorker(s, a)
    else ApplyCall(maxQueue, s, a)
  }

  // The end of UThreadPoll: leave epoll, drop the timer.
  function Unpoll(s: State, pc: PC): (r: State)
    requires IsRunning(s)
    ensures r.lost <= s.lost && r.nextReq == s.nextReq && SameQueues(s, r)
    ensures r.fault || (r.io == s.io && IsRunning(r) && Now(r) == pc)
  {
    if s.io.conn !in s.socks || !HeapIsLive(s) then Fault(s)
    else SetPC(s.(timers := s.timers - {s.io.conn}, lost := s.lost - {s.io.conn}, polled := s.polled - {s.io.conn}), pc)
  }

  function Step(maxQueue: nat, s: State, a: Action): State {
    if Enabled(s, a) then Apply(maxQueue, s, a) else s
  }

  function Exec(maxQueue: nat, s: State, run: seq<Action>): State
    decreases |run|
  {
    if run == [] then s else Exec(maxQueue, Step(maxQueue, s, run[0]), run[1..])
  }
}
