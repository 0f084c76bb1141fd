/** The course of an IOFunc call and of the scheduler loop around it, over every run. */
module HshaCalls {
  import opened Common
  import opened Hsha
  import opened HshaInvariant
  import opened HshaSteps
  import opened HshaTheorems
  import opened HshaRuns

  // ----- The course of a call -----

  // Where a call may be after a step of its own.
  predicate Follows(before: PC, a: Action, after: PC) {
    match a
    case NewRequest => before.LoopHead? && after.Reading?
    case ReadBlocks => before.Reading? && after == ReadPoll(before.req)
    case ReadContinues => before.ReadPoll? && after == Reading(before.req)
    case ReadFails => before.Reading? && after == Exiting(true)
    case ReadDone => before.Reading? && after == Got(before.req)
    case Admit(_, _, ka) => before.Got? && after in [Admitted(before.req, ka), Exiting(true)]
    case PushRequest => before.Admitted? && after == Pushed(before.req, before.ka)
    case ClearArgs => before.Pushed? && after == WaitCall(before.req, before.ka)
    case Wait => before.WaitCall? && after == Parked(before.req, before.ka)
    case WakeUp =>
      before.Parked? && (after == Exiting(false) || (after.Sending? && after.resp.req == before.req && after.ka == before.ka))
    case SendBlocks => before.Sending? && after == SendPoll(before.resp, before.ka)
    case SendContinues => before.SendPoll? && after == Sending(before.resp, before.ka)
    case SendDone(sent) => before.Sending? && after == if before.ka && sent then LoopHead else Exiting(true)
    case _ => false
  }

  // Only the running call moves, and it keeps control unless it now waits.
  predicate CallMoved(s: State, t: State, pc: PC) {
    && IsRunning(s)
    && t.conns == At(s.conns, s.io.conn, pc)
    && t.io == if pc.Yielded() then Scheduler(s.io.back) else s.io
  }

  lemma YieldMoves(s: State, pc: PC)
    requires IsRunning(s) && pc.Yielded() && !Yield(s, pc).fault
    ensures CallMoved(s, Yield(s, pc), pc)
  {
  }

  lemma UnpollMoves(s: State, pc: PC)
    requires IsRunning(s) && !pc.Yielded() && !Unpoll(s, pc).fault
    ensures CallMoved(s, Unpoll(s, pc), pc)
  {
  }

  lemma PollSteps(m: nat, s: State, a: Action)
    requires Enabled(s, a) && !Apply(m, s, a).fault
    requires a.ReadBlocks? || a.ReadContinues? || a.Wait? || a.SendBlocks? || a.SendContinues?
    ensures exists pc :: CallMoved(s, Apply(m, s, a), pc) && Follows(Now(s), a, pc)
  {
    hide ApplyLoop, ApplyWorker, Yield, Unpoll, SetPC, CallMoved;
    var pc := if a.ReadBlocks? then ReadPoll(Now(s).req)
              else if a.ReadContinues? then Reading(Now(s).req)
              else if a.Wait? then Parked(Now(s).req, Now(s).ka)
              else if a.SendBlocks? then SendPoll(Now(s).resp, Now(s).ka)
              else Sending(Now(s).resp, Now(s).ka);
    if pc.Yielded() { YieldMoves(s, pc); } else { UnpollMoves(s, pc); }
    assert CallMoved(s, Apply(m, s, a), pc) && Follows(Now(s), a, pc);
  }

  // The steps that neither poll nor look at a stored response.
  lemma RequestSteps(m: nat, s: State, a: Action)
    requires Enabled(s, a) && !Apply(m, s, a).fault && (a.NewRequest? || a.ReadFails? || a.ReadDone? || a.Admit?)
    ensures var t := Apply(m, s, a); IsRunning(t) && CallMoved(s, t, Now(t)) && Follows(Now(s), a, Now(t))
  {
    hide ApplyLoop, ApplyWorker, FreeReq, SetPC;
  }

  lemma ResponseSteps(m: nat, s: State, a: Action)
    requires Enabled(s, a) && !Apply(m, s, a).fault && (a.PushRequest? || a.ClearArgs? || a.SendDone?)
    ensures var t := Apply(m, s, a); IsRunning(t) && CallMoved(s, t, Now(t)) && Follows(Now(s), a, Now(t))
  {
    hide ApplyLoop, ApplyWorker, FreeResp, SetPC;
  }

  lemma WakeMoves(m: nat, s: State)
    requires Inv(m, s) && Enabled(s, WakeUp)
    ensures var t := Apply(m, s, WakeUp); IsRunning(t) && CallMoved(s, t, Now(t)) && Follows(Now(s), WakeUp, Now(t))
  {
    hide Inv, Apply;
    WakeIs(m, s);
    if s.socks[s.io.conn].args != None { AnsweredStep(m, s); }
  }

  // The steps by which a call moves on, and the last one.
  predicate IsCallStep(a: Action) { !IsLoopStep(a) && !IsWorkerStep(a) && !a.StaleRemoval? && !a.Leave? }

  lemma CallStepMoves(m: nat, s: State, a: Action)
    requires Inv(m, s) && Enabled(s, a) && IsCallStep(a)
    ensures IsRunning(s) && exists pc :: CallMoved(s, Step(m, s, a), pc) && Follows(Now(s), a, pc)
  {
    hide Inv, ApplyLoop, ApplyWorker, ApplyCall, CallMoved, Follows;
    NoFault(m, s, a);
    if a.WakeUp? {
      WakeMoves(m, s);
    } else if a.NewRequest? || a.ReadFails? || a.ReadDone? || a.Admit? {
      RequestSteps(m, s, a);
    } else if a.PushRequest? || a.ClearArgs? || a.SendDone? {
      ResponseSteps(m, s, a);
    } else {
      PollSteps(m, s, a);
    }
  }

  lemma LeaveIs(m: nat, s: State)
    requires Inv(m, s) && Enabled(s, Leave)
    ensures var t := Step(m, s, Leave); t.conns == s.conns - {s.io.conn} && t.io == Scheduler(s.io.back)
  {
    hide Inv, ApplyLoop, ApplyWorker, FreeSock;
    NoFault(m, s, Leave);
  }

  lemma StartIs(m: nat, s: State, slot: nat)
    requires Inv(m, s) && Enabled(s, StartTask(slot))
    ensures var c := s.nextConn; var t := Step(m, s, StartTask(slot));
      t.conns == s.conns[c := Task(slot, LoopHead)] && t.io == Running(c, Starting)
  {
    hide Inv, ApplyCall, ApplyWorker;
  }

  lemma LoopMovesNoCall(s: State, a: Action)
    requires Enabled(s, a) && IsLoopStep(a) && !a.StartTask?
    ensures ApplyLoop(s, a).conns == s.conns
  {
    hide Resume, DoHandleResponse, DoStartTask, HeapIsLive;
  }

  /** In every reachable state a call's own step takes it where its source goes on, and lets
    * the loop run exactly if the call now waits; no other step moves it. So a call whose
    * response was sent goes on to its next request exactly if it is kept alive.
    */
  lemma CallsTakeTheirCourse(m: nat, s: State, a: Action)
    requires Reachable(m, s) && Enabled(s, a)
    ensures var t := Step(m, s, a);
      if IsCallStep(a) then exists pc :: CallMoved(s, t, pc) && Follows(Now(s), a, pc)
      else if a.Leave? then Now(s).Exiting? && t.conns == s.conns - {s.io.conn} && t.io == Scheduler(s.io.back)
      else if a.StartTask? then t.conns == s.conns[s.nextConn := Task(a.slot, LoopHead)] && t.io == Running(s.nextConn, Starting)
      else t.conns == s.conns
  {
    hide Inv, Reachable, ApplyLoop, ApplyWorker, ApplyCall, CallMoved, Follows;
    ReachableInv(m, s);
    if IsCallStep(a) {
      CallStepMoves(m, s, a);
    } else if a.Leave? {
      LeaveIs(m, s);
    } else if a.StartTask? {
      StartIs(m, s, a.slot);
    } else if a.StaleRemoval? {
      StaleStep(m, s, a.timed);
    } else if IsLoopStep(a) {
      LoopMovesNoCall(s, a);
    } else {
      WorkerFrame(s, a);
    }
  }

  // ----- Keeping connections alive -----

  // Whether the latest admitted request of each connection asks to keep it alive.
  function Asks(m: nat, s: State, run: seq<Action>, asks: map<Conn, bool>): map<Conn, bool>
    decreases |run|
  {
    if run == [] then asks else Asks(m, Step(m, s, run[0]), run[1..], Noted(s, run[0], asks))
  }

  function Noted(s: State, a: Action, asks: map<Conn, bool>): map<Conn, bool> {
    if Enabled(s, a) && a.Admit? then asks[s.io.conn := a.keepAlive] else asks
  }

  predicate Remembers(pc: PC) {
    pc.Admitted? || pc.Pushed? || pc.WaitCall? || pc.Parked? || pc.Sending? || pc.SendPoll?
  }

  ghost predicate AsksKept(conns: map<Conn, Task>, asks: map<Conn, bool>) {
    forall c | c in conns && Remembers(conns[c].pc) :: c in asks && asks[c] == conns[c].pc.ka
  }

  lemma MovedKeeps(s: State, t: State, a: Action, pc: PC, asks: map<Conn, bool>)
    requires CallMoved(s, t, pc) && Follows(Now(s), a, pc) && AsksKept(s.conns, asks) && Enabled(s, a)
    ensures AsksKept(t.conns, Noted(s, a, asks))
  {
  }

  lemma AsksStep(m: nat, s: State, a: Action, asks: map<Conn, bool>)
    requires Inv(m, s) && AsksKept(s.conns, asks)
    ensures AsksKept(Step(m, s, a).conns, Noted(s, a, asks))
  {
    hide Inv, Enabled, ApplyLoop, ApplyWorker, ApplyCall, CallMoved, Follows;
    if Enabled(s, a) {
      if IsCallStep(a) {
        CallStepMoves(m, s, a);
        var pc :| CallMoved(s, Step(m, s, a), pc) && Follows(Now(s), a, pc);
        MovedKeeps(s, Step(m, s, a), a, pc, asks);
      } else if a.Leave? {
        LeaveIs(m, s);
      } else if a.StartTask? {
        StartIs(m, s, a.slot);
      } else if a.StaleRemoval? {
        StaleStep(m, s, a.timed);
      } else if IsLoopStep(a) {
        LoopMovesNoCall(s, a);
      } else {
        WorkerFrame(s, a);
      }
    }
  }

  lemma {:induction false} AsksRun(m: nat, s: State, run: seq<Action>, asks: map<Conn, bool>)
    requires Inv(m, s) && AsksKept(s.conns, asks)
    ensures AsksKept(Exec(m, s, run).conns, Asks(m, s, run, asks))
    decreases |run|
  {
    hide Inv, Step, Noted, AsksKept;
    if run != [] {
      StepKeepsInv(m, s, run[0]);
      AsksStep(m, s, run[0], asks);
      AsksRun(m, Step(m, s, run[0]), run[1..], Noted(s, run[0], asks));
    }
  }

  /** After every run: a call that has sent its response frees it and goes on to its next
    * request exactly if the request it answered asked to be kept alive and the send
    * succeeded; otherwise it leaves and closes its socket.
    */
  lemma KeepAliveGoesOn(m: nat, n: nat, run: seq<Action>, sent: bool)
    requires Enabled(Exec(m, Init(n), run), SendDone(sent))
    ensures var s := Exec(m, Init(n), run); var t := Step(m, s, SendDone(sent));
      var c := s.io.conn; var asks := Asks(m, Init(n), run, map[]);
      && c in asks && c in t.conns && t.io == s.io && t.resps == s.resps - {Now(s).resp}
      && (t.conns[c].pc == LoopHead <==> asks[c] && sent)
      && (t.conns[c].pc == Exiting(true) <==> !(asks[c] && sent))
  {
    hide Inv, Exec, Init, Asks, AsksKept;
    var s := Exec(m, Init(n), run);
    InitIsReachable(m, n, run);
    NobodyAtFirst(n);
    AsksRun(m, Init(n), run, map[]);
    AsksAt(s, Asks(m, Init(n), run, map[]));
    SentIs(m, s, sent);
  }

  lemma NobodyAtFirst(n: nat)
    ensures AsksKept(Init(n).conns, map[])
  {
  }

  lemma AsksAt(s: State, asks: map<Conn, bool>)
    requires AsksKept(s.conns, asks) && IsRunning(s) && Now(s).Sending?
    ensures s.io.conn in asks && asks[s.io.conn] == Now(s).ka
  {
  }

  lemma SentIs(m: nat, s: State, sent: bool)
    requires IsRunning(s) && Now(s).Sending? && Inv(m, s)
    ensures var t := Step(m, s, SendDone(sent));
      && IsRunning(t) && t.io == s.io && t.resps == s.resps - {Now(s).resp}
      && Now(t) == if Now(s).ka && sent then LoopHead else Exiting(true)
  {
    hide ControlOk, SocketsOk, TimersOk, InQueueOk, WorkersOk, OutQueueOk, FlightsOk, TaskReqsOk, QueuedReqsOk,
         WorkerReqsOk, FreshReqs, TaskRespsOk, QueuedRespsOk, SocketRespsOk, WorkerRespsOk, FreshResps, Bounded;
    hide ApplyLoop, ApplyWorker;
    NoFault(m, s, SendDone(sent));
  }

  // ----- The scheduler loop -----

  // The five parts of a turn: waiting for events, handling them, handing out responses,
  // starting calls for accepted connections, and firing timers.
  function Part(p: Phase): nat {
    match p
    case Top => 0
    case Events(_) => 1
    case Active => 2
    case Delivering(_) => 2
    case Starting => 3
    case Timeouts => 4
  }

  function Place(io: Control): nat { Part(if io.Running? then io.back else io.phase) }

  // The parts that a step enters.
  function Entered(m: nat, s: State, a: Action): seq<nat> {
    var t := Step(m, s, a);
    if Place(t.io) == Place(s.io) then [] else [Place(t.io)]
  }

  // A part is left only for the next one, and only when it has nothing left to do.
  predicate Advances(s: State, t: State) {
    && s.io.Scheduler? && t.io.Scheduler? && Place(t.io) == Next(Place(s.io))
    && Pending(s.io) == [] && (Place(s.io) == 2 ==> s.outq == [])
  }

  lemma LoopOrder(s: State, a: Action)
    requires Enabled(s, a) && IsLoopStep(a) && !ApplyLoop(s, a).fault
    ensures var t := ApplyLoop(s, a); Place(t.io) == Place(s.io) || Advances(s, t)
  {
    hide Resume, DoHandleResponse, DoStartTask, HeapIsLive;
  }

  lemma PlaceStep(m: nat, s: State, a: Action)
    requires Inv(m, s) && Enabled(s, a)
    ensures var t := Step(m, s, a); Place(t.io) == Place(s.io) || Advances(s, t)
  {
    hide Inv, ApplyLoop, ApplyWorker, ApplyCall, Advances;
    NoFault(m, s, a);
    if IsLoopStep(a) {
      LoopOrder(s, a);
    } else if IsWorkerStep(a) {
      WorkerFrame(s, a);
    } else {
      CallControl(m, s, a);
    }
  }

  // The part after p; after the last comes the first.
  function Next(p: nat): nat { if p == 4 then 0 else p + 1 }

  /** Over every run the loop goes round its five parts in order, leaves none before its events
    * or responses are used up, and a call that waits gives control back to the part that
    * switched to it.
    */
  lemma {:induction false} LoopGoesRound(m: nat, s: State, run: seq<Action>)
    requires Inv(m, s)
    ensures var parts := [Place(s.io)] + Log(m, s, run, Entered);
      && (forall i | 0 <= i < |parts| - 1 :: parts[i + 1] == Next(parts[i]))
      && Place(Exec(m, s, run).io) == parts[|parts| - 1]
    decreases |run|
  {
    hide Inv, Step, Enabled, Place, Entered, Next;
    if run != [] {
      var t := Step(m, s, run[0]);
      StepKeepsInv(m, s, run[0]);
      LoopGoesRound(m, t, run[1..]);
      PlaceAfter(m, s, run[0]);
      var parts, rest := [Place(s.io)] + Log(m, s, run, Entered), [Place(t.io)] + Log(m, t, run[1..], Entered);
      assert parts == rest || (parts == [Place(s.io)] + rest && Place(t.io) == Next(Place(s.io)));
    }
  }

  lemma PlaceAfter(m: nat, s: State, a: Action)
    requires Inv(m, s)
    ensures var t := Step(m, s, a);
      if Enabled(s, a) && Entered(m, s, a) != [] then Entered(m, s, a) == [Place(t.io)] && Place(t.io) == Next(Place(s.io))
      else Place(t.io) == Place(s.io)
  {
    hide Inv, Apply, Enabled;
    if Enabled(s, a) { PlaceStep(m, s, a); }
  }

  // ----- Nobody is stuck -----

  /** A running call can always take every step that its source allows there. */
  lemma CallsAreNeverStuck(m: nat, s: State)
    requires Reachable(m, s) && s.io.Running?
    ensures IsRunning(s)
    ensures Now(s).LoopHead? ==> Enabled(s, NewRequest)
    ensures Now(s).Reading? ==> Enabled(s, ReadBlocks) && Enabled(s, ReadFails) && Enabled(s, ReadDone)
    ensures Now(s).ReadPoll? ==> Enabled(s, ReadContinues)
    ensures Now(s).Got? ==> forall draw, rate, ka :: Enabled(s, Admit(draw, rate, ka))
    ensures Now(s).Admitted? ==> Enabled(s, PushRequest)
    ensures Now(s).Pushed? ==> Enabled(s, ClearArgs)
    ensures Now(s).WaitCall? ==> Enabled(s, Wait)
    ensures Now(s).Parked? ==> Enabled(s, WakeUp)
    ensures Now(s).Sending? ==> Enabled(s, SendBlocks) && forall sent :: Enabled(s, SendDone(sent))
    ensures Now(s).SendPoll? ==> Enabled(s, SendContinues)
    ensures Now(s).Exiting? ==> Enabled(s, Leave)
  {
    hide Inv, Reachable;
    ReachableInv(m, s);
    IsFaultless(m, s);
  }

  /** The loop can always go on: it takes any report of pollers, every event and response in
    * turn, any accepted connection, and any timer in the heap.
    */
  lemma LoopIsNeverStuck(m: nat, s: State)
    requires Reachable(m, s) && s.io.Scheduler?
    ensures s.io.phase.Top? ==> forall ready: seq<Conn> | IsDistinct(ready) && (forall c | c in ready :: c in s.polled) :: Enabled(s, EpollWait(ready))
    ensures s.io.phase.Events? ==> Enabled(s, if s.io.phase.batch == [] then EventsDone else NextEvent)
    ensures s.io.phase.Active? ==> Enabled(s, if s.outq == [] then NoMoreResponses else HandleResponse)
    ensures s.io.phase.Delivering? ==> Enabled(s, DeliverResponse)
    ensures s.io.phase.Starting? ==> Enabled(s, NothingToStart) && forall u: nat | u !in s.slots :: Enabled(s, StartTask(u))
    ensures s.io.phase.Timeouts? ==> Enabled(s, NoTimerDue) && forall c | c in s.timers :: Enabled(s, FireTimer(c))
  {
    hide Inv, Reachable;
    ReachableInv(m, s);
    IsFaultless(m, s);
  }

  /** A worker can always go on, unless it is idle and the in-queue is empty. */
  lemma WorkersAreNeverStuck(m: nat, s: State, w: nat)
    requires Reachable(m, s) && w < |s.workers|
    ensures s.workers[w].Idle? && s.inq != [] ==> Enabled(s, PluckRequest(w))
    ensures s.workers[w].Holding? ==> forall waited_ms :: Enabled(s, Dispatch(w, waited_ms))
    ensures s.workers[w].Answered? ==> Enabled(s, PushResponse(w))
    ensures s.workers[w].Cleanup? ==> Enabled(s, DeleteRequest(w))
  {
    hide Inv, Reachable;
    ReachableInv(m, s);
    IsFaultless(m, s);
  }

  /** Epoll watches exactly the sockets of the calls that poll. */
  lemma PolledAreThePollers(m: nat, s: State, c: Conn)
    requires Reachable(m, s)
    ensures c in s.polled <==> c in s.conns && s.conns[c].pc.Polling()
  {
    hide ControlOk, SocketsOk, InQueueOk, WorkersOk, OutQueueOk, FlightsOk, TaskReqsOk, QueuedReqsOk,
         WorkerReqsOk, FreshReqs, TaskRespsOk, QueuedRespsOk, SocketRespsOk, WorkerRespsOk, FreshResps, Bounded, Reachable;
    ReachableInv(m, s);
  }

  // ----- Each request is let in once -----

  // A request that is not made yet, or that its call is still to decide about.
  predicate IsReading(pc: PC, r: Req) {
    (pc.Reading? || pc.ReadPoll? || pc.Got?) && pc.req == r
  }

  ghost predicate Undecided(s: State, r: Req) {
    r >= s.nextReq || exists c :: c in s.conns && IsReading(s.conns[c].pc, r)
  }

  lemma LoopIds(s: State, a: Action)
    requires Enabled(s, a) && IsLoopStep(a)
    ensures ApplyLoop(s, a).nextReq == s.nextReq
  {
    hide Resume, DoHandleResponse, DoStartTask, HeapIsLive;
  }

  lemma WorkerIds(s: State, a: Action)
    requires Enabled(s, a) && IsWorkerStep(a)
    ensures ApplyWorker(s, a).nextReq == s.nextReq
  {
    hide FreeReq, DoDispatch, DoPushResponse, DoPluckRequest;
  }

  lemma CallIds(m: nat, s: State, a: Action)
    requires Enabled(s, a) && !IsLoopStep(a) && !IsWorkerStep(a)
    ensures var t := ApplyCall(m, s, a); t.nextReq == if a.NewRequest? then s.nextReq + 1 else s.nextReq
    ensures a.NewRequest? ==> IsRunning(ApplyCall(m, s, a)) && Now(ApplyCall(m, s, a)) == Reading(s.nextReq)
  {
    hide SetPC, Yield, Unpoll, FreeReq, FreeResp, DoWakeUp, DoLeave, DoPushRequest, HeapIsLive;
  }

  lemma ReadersStay(s: State, t: State, a: Action, pc: PC, r: Req)
    requires CallMoved(s, t, pc) && Follows(Now(s), a, pc) && Undecided(t, r) && t.nextReq >= s.nextReq
    requires a.NewRequest? ==> pc == Reading(s.nextReq)
    ensures Undecided(s, r)
  {
    if r < s.nextReq {
      var c :| c in t.conns && IsReading(t.conns[c].pc, r);
      assert c in s.conns && IsReading(s.conns[c].pc, r);
    }
  }

  lemma FewerUndecided(m: nat, s: State, a: Action, r: Req)
    requires Inv(m, s) && Enabled(s, a) && Undecided(Step(m, s, a), r)
    ensures Undecided(s, r)
  {
    hide Inv, Enabled, ApplyLoop, ApplyWorker, ApplyCall, CallMoved, Follows, IsReading;
    if IsLoopStep(a) {
      LoopIds(s, a);
      if a.StartTask? { StartIs(m, s, a.slot); NewCallReadsNothing(r); } else { LoopMovesNoCall(s, a); }
    } else if IsWorkerStep(a) {
      WorkerIds(s, a);
      WorkerFrame(s, a);
    } else {
      CallIds(m, s, a);
      if a.Leave? {
        LeaveIs(m, s);
      } else if a.StaleRemoval? {
        StaleStep(m, s, a.timed);
      } else {
        CallStepMoves(m, s, a);
        var pc :| CallMoved(s, Step(m, s, a), pc) && Follows(Now(s), a, pc);
        MovedTo(s, Step(m, s, a), pc);
        ReadersStay(s, Step(m, s, a), a, pc, r);
      }
    }
  }

  lemma NewCallReadsNothing(r: Req)
    ensures !IsReading(LoopHead, r)
  {
  }

  lemma MovedTo(s: State, t: State, pc: PC)
    requires CallMoved(s, t, pc)
    ensures IsRunning(t) ==> Now(t) == pc
  {
  }

  lemma OneReader(m: nat, s: State)
    requires Inv(m, s) && IsRunning(s) && Now(s).Got?
    ensures Now(s).req < s.nextReq
    ensures forall c | c in s.conns && IsReading(s.conns[c].pc, Now(s).req) :: c == s.io.conn
  {
    hide ControlOk, SocketsOk, TimersOk, InQueueOk, WorkersOk, OutQueueOk, FlightsOk, QueuedReqsOk,
         WorkerReqsOk, TaskRespsOk, QueuedRespsOk, SocketRespsOk, WorkerRespsOk, FreshResps, Bounded;
  }

  // Admission decides about a request for good.
  lemma Decided(m: nat, s: State, a: Action)
    requires Inv(m, s) && Enabled(s, a) && a.Admit?
    ensures IsRunning(s) && Undecided(s, Now(s).req) && !Undecided(Step(m, s, a), Now(s).req)
  {
    hide Inv, ApplyLoop, ApplyWorker, ApplyCall;
    OneReader(m, s);
    CallIds(m, s, a);
    CallStepMoves(m, s, a);
    assert IsReading(Now(s), Now(s).req);
  }

  ghost predicate OnceEach(s: State, log: seq<InItem>) {
    && (forall i | 0 <= i < |log| :: Undecided(s, log[i].req))
    && (forall i, j | 0 <= i < j < |log| :: log[i].req != log[j].req)
  }

  lemma OnceMore(m: nat, s: State, a: Action, rest: seq<InItem>)
    requires Inv(m, s) && Enabled(s, a) && OnceEach(Step(m, s, a), rest)
    ensures OnceEach(s, LetIn(m, s, a) + rest)
  {
    hide Inv, Enabled, Step, Undecided;
    forall i | 0 <= i < |rest| ensures Undecided(s, rest[i].req) {
      FewerUndecided(m, s, a, rest[i].req);
    }
    if a.Admit? { Decided(m, s, a); }
  }

  /** No request is let in twice: over every run the requests let in are distinct, so each is
    * queued, taken and answered at most once.
    */
  lemma {:induction false} LetInAtMostOnce(m: nat, s: State, run: seq<Action>)
    requires Inv(m, s)
    ensures OnceEach(s, Log(m, s, run, LetIn))
    decreases |run|
  {
    hide Inv, Enabled, Apply, LetIn;
    if run != [] {
      StepKeepsInv(m, s, run[0]);
      LetInAtMostOnce(m, Step(m, s, run[0]), run[1..]);
      if Enabled(s, run[0]) { OnceMore(m, s, run[0], Log(m, Step(m, s, run[0]), run[1..], LetIn)); }
    }
  }
}
