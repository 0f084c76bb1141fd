/** What a server unit does with connections, requests and responses over whole runs. Each
  * account is read off the states before and after a step and balanced against the
  * account of the stage before it.
  */
module HshaRuns {
  import opened Common
  import opened Hsha
  import opened HshaInvariant
  import opened HshaSteps
  import opened HshaTheorems

  // What a run adds to one account, in the order in which it happened.
  function Log<T>(m: nat, s: State, run: seq<Action>, what: (nat, State, Action) -> seq<T>): seq<T>
    decreases |run|
  {
    if run == [] then []
    else
      var rest := Log(m, Step(m, s, run[0]), run[1..], what);
      if Enabled(s, run[0]) then what(m, s, run[0]) + rest else rest
  }

  // What enters a stage leaves it in the same order, or is still there.
  lemma {:induction false} Balanced<T>(m: nat, s: State, run: seq<Action>,
                                       put: (nat, State, Action) -> seq<T>, took: (nat, State, Action) -> seq<T>, held: State -> seq<T>)
    requires Inv(m, s)
    requires forall s, a :: Inv(m, s) && Enabled(s, a) ==> held(s) + put(m, s, a) == took(m, s, a) + held(Step(m, s, a))
    ensures held(s) + Log(m, s, run, put) == Log(m, s, run, took) + held(Exec(m, s, run))
    decreases |run|
  {
    hide Inv, Enabled, Apply;
    if run == [] {
      assert held(s) + [] == [] + held(s);
    } else {
      var a, t := run[0], Step(m, s, run[0]);
      StepKeepsInv(m, s, a);
      Balanced(m, t, run[1..], put, took, held);
      if Enabled(s, a) {
        assert held(s) + Log(m, s, run, put) == (held(s) + put(m, s, a)) + Log(m, t, run[1..], put);
        assert took(m, s, a) + (held(t) + Log(m, t, run[1..], put)) == (took(m, s, a) + held(t)) + Log(m, t, run[1..], put);
      }
    }
  }

  lemma InitIsReachable(m: nat, n: nat, run: seq<Action>)
    ensures Inv(m, Init(n)) && Inv(m, Exec(m, Init(n), run))
  {
    hide Exec, Init, Inv;
    InitHolds(m, n);
    RunKeepsInv(m, Init(n), run);
  }

  lemma IsFaultless(m: nat, s: State)
    requires Inv(m, s)
    ensures !s.fault && (s.io.Running? ==> IsRunning(s))
  {
    hide SocketsOk, TimersOk, InQueueOk, WorkersOk, OutQueueOk, FlightsOk, TaskReqsOk, QueuedReqsOk,
         WorkerReqsOk, FreshReqs, TaskRespsOk, QueuedRespsOk, SocketRespsOk, WorkerRespsOk, FreshResps, Bounded;
  }

  lemma NoFault(m: nat, s: State, a: Action)
    requires Inv(m, s) && Enabled(s, a)
    ensures !Apply(m, s, a).fault && Step(m, s, a) == Apply(m, s, a)
  {
    hide Apply, Enabled;
    hide ControlOk, SocketsOk, TimersOk, InQueueOk, WorkersOk, OutQueueOk, FlightsOk, TaskReqsOk, QueuedReqsOk,
         WorkerReqsOk, FreshReqs, TaskRespsOk, QueuedRespsOk, SocketRespsOk, WorkerRespsOk, FreshResps, Bounded;
    StepKeepsInv(m, s, a);
  }

  // ----- What the steps of the loop, of the calls and of the workers leave alone -----

  lemma LoopFrame(s: State, a: Action)
    requires Enabled(s, a) && IsLoopStep(a)
    ensures a.HandleResponse? || SameQueues(s, ApplyLoop(s, a))
  {
    hide Resume, DoHandleResponse, HeapIsLive, DoStartTask;
  }

  lemma CallFrame(m: nat, s: State, a: Action)
    requires Enabled(s, a) && !IsLoopStep(a) && !IsWorkerStep(a)
    ensures a.PushRequest? || SameQueues(s, ApplyCall(m, s, a))
  {
    hide SetPC, Yield, Unpoll, FreeReq, FreeResp, DoWakeUp, DoLeave, DoPushRequest, HeapIsLive;
  }

  lemma WorkerFrame(s: State, a: Action)
    requires Enabled(s, a) && IsWorkerStep(a)
    ensures var t := ApplyWorker(s, a);
      && SameCalls(s, t) && t.socks == s.socks && (a.PluckRequest? || t.inq == s.inq) && (a.PushResponse? || t.outq == s.outq)
  {
    hide FreeReq, DoDispatch, DoPushResponse, DoPluckRequest;
  }

  // ----- Letting requests in -----

  lemma OwnsRequest(m: nat, s: State)
    requires Inv(m, s) && IsRunning(s) && Now(s).OwnReq().Some?
    ensures Now(s).req in s.reqs
  {
    hide ControlOk, SocketsOk, TimersOk, InQueueOk, WorkersOk, OutQueueOk, FlightsOk, QueuedReqsOk,
         WorkerReqsOk, FreshReqs, TaskRespsOk, QueuedRespsOk, SocketRespsOk, WorkerRespsOk, FreshResps, Bounded;
  }

  /** A request is let in exactly when the in-queue has room for it and the draw reaches the
    * load control's rate; otherwise it is freed and its call leaves.
    */
  lemma AdmissionIsExact(m: nat, s: State, draw: nat, rate: int, ka: bool)
    requires Reachable(m, s) && Enabled(s, Admit(draw, rate, ka))
    ensures var c := s.io.conn; var r := Now(s).req; var t := Step(m, s, Admit(draw, rate, ka));
      && r in s.reqs
      && if |s.inq| < m && draw % 100 >= rate then t == s.(conns := At(s.conns, c, Admitted(r, ka)))
         else t == s.(conns := At(s.conns, c, Exiting(true)), reqs := s.reqs - {r})
  {
    hide Inv, Reachable;
    ReachableInv(m, s);
    OwnsRequest(m, s);
  }

  // The requests that find room and whose draw lets them in.
  function LetIn(m: nat, s: State, a: Action): seq<InItem> {
    if a.Admit? && IsRunning(s) && Now(s).Got? && |s.inq| < m && a.draw % 100 >= a.rate then [InItem(s.io.conn, Now(s).req)] else []
  }

  // What a step appends to the in-queue, and the request that a worker takes.
  function Pushed(m: nat, s: State, a: Action): seq<InItem> {
    var t := Step(m, s, a);
    if |t.inq| > |s.inq| then t.inq[|s.inq|..] else []
  }

  function Plucked(m: nat, s: State, a: Action): seq<InItem> {
    var t := Step(m, s, a);
    if a.PluckRequest? && a.w < |t.workers| && t.workers[a.w].Holding? then [InItem(t.workers[a.w].conn, t.workers[a.w].req)] else []
  }

  function AboutToPush(s: State): seq<InItem> {
    if IsRunning(s) && Now(s).Admitted? then [InItem(s.io.conn, Now(s).req)] else []
  }

  lemma AllAreParked(m: nat, s: State)
    requires Inv(m, s) && s.io.Scheduler?
    ensures forall c | c in s.conns :: s.conns[c].pc.Yielded()
  {
    hide SocketsOk, TimersOk, InQueueOk, WorkersOk, OutQueueOk, FlightsOk, TaskReqsOk, QueuedReqsOk,
         WorkerReqsOk, FreshReqs, TaskRespsOk, QueuedRespsOk, SocketRespsOk, WorkerRespsOk, FreshResps, Bounded;
  }

  // A call that is switched to is parked, or it is a new one.
  lemma ParkedOrNew(m: nat, s: State, a: Action)
    requires Inv(m, s) && Enabled(s, a) && IsLoopStep(a)
    ensures var t := ApplyLoop(s, a); IsRunning(t) ==> Now(t).Yielded() || Now(t).LoopHead?
  {
    hide Inv, Resume, DoHandleResponse, HeapIsLive, DoStartTask;
    AllAreParked(m, s);
  }

  // Only admission makes a call hold a request that it is about to push.
  lemma OnlyAdmitted(m: nat, s: State, a: Action)
    requires Enabled(s, a) && !IsLoopStep(a) && !IsWorkerStep(a) && !a.Admit? && !a.StaleRemoval?
    ensures var t := ApplyCall(m, s, a); t.fault || AboutToPush(t) == []
  {
    hide SetPC, Yield, Unpoll, FreeReq, FreeResp, DoWakeUp, DoLeave, DoPushRequest, HeapIsLive;
  }

  lemma AdmitStep(m: nat, s: State, draw: nat, rate: int, ka: bool)
    requires Inv(m, s) && Enabled(s, Admit(draw, rate, ka))
    ensures var t := ApplyCall(m, s, Admit(draw, rate, ka)); AboutToPush(t) == LetIn(m, s, Admit(draw, rate, ka))
  {
    hide Inv, FreeReq, SetPC;
    OwnsRequest(m, s);
  }

  lemma StaleStep(m: nat, s: State, c: Conn)
    requires Enabled(s, StaleRemoval(c))
    ensures var t := ApplyCall(m, s, StaleRemoval(c)); SameCalls(s, t) && t.socks == s.socks
  {
    hide HeapIsLive;
  }

  lemma PushStep(m: nat, s: State, a: Action)
    requires Inv(m, s) && Enabled(s, a)
    ensures AboutToPush(s) + LetIn(m, s, a) == Pushed(m, s, a) + AboutToPush(Step(m, s, a))
  {
    hide Inv, ApplyLoop, ApplyWorker, ApplyCall;
    NoFault(m, s, a);
    if IsLoopStep(a) {
      LoopFrame(s, a);
      if a.HandleResponse? { TakenIs(m, s); }
      ParkedOrNew(m, s, a);
    } else if IsWorkerStep(a) {
      WorkerFrame(s, a);
      PushByWorker(m, s, a);
    } else {
      PushByCall(m, s, a);
    }
  }

  lemma PushByWorker(m: nat, s: State, a: Action)
    requires Enabled(s, a) && IsWorkerStep(a)
    ensures Pushed(m, s, a) == LetIn(m, s, a) == []
  {
    hide FreeReq, DoDispatch, DoPushResponse, DoPluckRequest;
  }

  lemma PushByCall(m: nat, s: State, a: Action)
    requires Inv(m, s) && Enabled(s, a) && !Apply(m, s, a).fault && !IsLoopStep(a) && !IsWorkerStep(a)
    ensures AboutToPush(s) + LetIn(m, s, a) == Pushed(m, s, a) + AboutToPush(Step(m, s, a))
  {
    hide Inv, ApplyLoop, ApplyWorker, ApplyCall;
    CallFrame(m, s, a);
    if a.Admit? {
      AdmitStep(m, s, a.draw, a.rate, a.keepAlive);
    } else if a.StaleRemoval? {
      StaleStep(m, s, a.timed);
    } else {
      OnlyAdmitted(m, s, a);
      if a.PushRequest? { PushedIs(m, s); }
    }
  }

  lemma PushedIs(m: nat, s: State)
    requires Enabled(s, PushRequest)
    ensures var t := Apply(m, s, PushRequest);
      t.inq == s.inq + AboutToPush(s) && t.outq == s.outq && t.workers == s.workers
  {
    hide DoPushRequest;
  }

  lemma QueueStep(m: nat, s: State, a: Action)
    requires Inv(m, s) && Enabled(s, a)
    ensures s.inq + Pushed(m, s, a) == Plucked(m, s, a) + Step(m, s, a).inq
  {
    hide Inv, ApplyLoop, ApplyWorker, ApplyCall;
    NoFault(m, s, a);
    if IsLoopStep(a) {
      LoopFrame(s, a);
      if a.HandleResponse? { TakenIs(m, s); }
    } else if a.PluckRequest? {
      PluckedIs(m, s, a.w);
    } else if IsWorkerStep(a) {
      WorkerFrame(s, a);
    } else {
      CallFrame(m, s, a);
      if a.PushRequest? { PushedIs(m, s); }
    }
  }

  lemma PluckedIs(m: nat, s: State, w: nat)
    requires Enabled(s, PluckRequest(w))
    ensures var t := Apply(m, s, PluckRequest(w));
      && t.inq == s.inq[1..] && t.workers == s.workers[w := Holding(s.inq[0].conn, s.inq[0].req)]
  {
  }

  /** Over every run the requests pushed into the in-queue are those that found room and whose
    * draw let them in, in that order, but for one that is just about to be pushed; and
    * the workers take them first in, first out.
    */
  lemma LetInMeansQueued(m: nat, n: nat, run: seq<Action>)
    ensures var s := Init(n); var t := Exec(m, s, run);
      && Log(m, s, run, LetIn) == Log(m, s, run, Pushed) + AboutToPush(t)
      && Log(m, s, run, Pushed) == Log(m, s, run, Plucked) + t.inq
  {
    hide Log, Inv, Exec, Step, Enabled, LetIn, Pushed, Plucked, AboutToPush;
    InitIsReachable(m, n, run);
    forall s, a | Inv(m, s) && Enabled(s, a)
      ensures AboutToPush(s) + LetIn(m, s, a) == Pushed(m, s, a) + AboutToPush(Step(m, s, a))
    {
      PushStep(m, s, a);
    }
    forall s, a | Inv(m, s) && Enabled(s, a)
      ensures s.inq + Pushed(m, s, a) == Plucked(m, s, a) + Step(m, s, a).inq
    {
      QueueStep(m, s, a);
    }
    Balanced(m, Init(n), run, LetIn, Pushed, AboutToPush);
    Balanced(m, Init(n), run, Pushed, Plucked, (s: State) => s.inq);
    NothingAtFirst(n);
  }

  lemma NothingAtFirst(n: nat)
    ensures var s := Init(n); AboutToPush(s) == [] && s.inq == [] && s.outq == [] && InHand(s) == []
  {
  }

  // ----- Answering -----

  // What a step appends to the out-queue, and the response that the loop takes from it.
  function PutOut(m: nat, s: State, a: Action): seq<OutItem> {
    var t := Step(m, s, a);
    if |t.outq| > |s.outq| then t.outq[|s.outq|..] else []
  }

  function Taken(m: nat, s: State, a: Action): seq<OutItem> {
    if a.HandleResponse? && s.outq != [] then [s.outq[0]] else []
  }

  lemma OutQueueStep(m: nat, s: State, a: Action)
    requires Inv(m, s) && Enabled(s, a)
    ensures s.outq + PutOut(m, s, a) == Taken(m, s, a) + Step(m, s, a).outq
  {
    hide Inv, ApplyLoop, ApplyWorker, ApplyCall;
    NoFault(m, s, a);
    if a.HandleResponse? {
      TakenIs(m, s);
    } else if IsLoopStep(a) {
      LoopFrame(s, a);
    } else if a.PushResponse? {
      AnsweredIs(m, s, a.w);
    } else if IsWorkerStep(a) {
      WorkerFrame(s, a);
    } else {
      CallFrame(m, s, a);
      if a.PushRequest? { PushedIs(m, s); }
    }
  }

  lemma TakenIs(m: nat, s: State)
    requires Enabled(s, HandleResponse) && !Apply(m, s, HandleResponse).fault
    ensures var t := Apply(m, s, HandleResponse); t.outq == s.outq[1..] && t.inq == s.inq && t.workers == s.workers
  {
    hide DoHandleResponse;
  }

  lemma AnsweredIs(m: nat, s: State, w: nat)
    requires Enabled(s, PushResponse(w))
    ensures var t := Apply(m, s, PushResponse(w));
      && t.outq == s.outq + [OutItem(s.workers[w].conn, s.workers[w].resp)] && t.workers == s.workers[w := Cleanup(s.workers[w].req)]
  {
  }

  // Which request, of which connection, a pushed response answers.
  function AnswersTo(m: nat, s: State, a: Action): seq<InItem> {
    Asked(PutOut(m, s, a))
  }

  function Asked(items: seq<OutItem>): seq<InItem> {
    seq(|items|, i requires 0 <= i < |items| => InItem(items[i].conn, items[i].resp.req))
  }

  // The requests in the hands of the workers.
  function Held(workers: seq<Worker>): multiset<InItem> {
    if workers == [] then multiset{}
    else HeldBy(workers[0]) + Held(workers[1..])
  }

  function HeldBy(k: Worker): multiset<InItem> {
    if k.Holding? || k.Answered? then multiset{InItem(k.conn, k.req)} else multiset{}
  }

  lemma {:induction false} HeldAfter(workers: seq<Worker>, w: nat, k: Worker)
    requires w < |workers|
    ensures Held(workers[w := k]) + HeldBy(workers[w]) == Held(workers) + HeldBy(k)
  {
    hide HeldBy;
    var after := workers[w := k];
    var x, y := HeldBy(workers[w]), HeldBy(k);
    assert Held(after) == HeldBy(after[0]) + Held(after[1..]);
    assert Held(workers) == HeldBy(workers[0]) + Held(workers[1..]);
    if w > 0 {
      HeldAfter(workers[1..], w - 1, k);
      assert after[0] == workers[0] && after[1..] == workers[1..][w - 1 := k];
      assert Held(after[1..]) + x == Held(workers[1..]) + y;
      assert Held(after) + x == HeldBy(workers[0]) + (Held(after[1..]) + x);
    } else {
      assert after[0] == k && after[1..] == workers[1..];
      assert Held(after) + x == y + Held(workers[1..]) + x;
    }
  }

  lemma {:induction false} NothingHeld(n: nat)
    ensures Held(seq(n, _ => Idle)) == multiset{}
  {
    if n > 0 {
      NothingHeld(n - 1);
      assert seq(n, _ => Idle)[1..] == seq(n - 1, _ => Idle);
    }
  }

  lemma AnswerStep(m: nat, s: State, a: Action)
    requires Inv(m, s) && Enabled(s, a)
    ensures Held(s.workers) + multiset(Plucked(m, s, a)) == multiset(AnswersTo(m, s, a)) + Held(Step(m, s, a).workers)
  {
    hide Inv, ApplyLoop, ApplyWorker, ApplyCall, Held, HeldBy;
    NoFault(m, s, a);
    if IsWorkerStep(a) {
      AnswerByWorker(m, s, a);
    } else {
      if IsLoopStep(a) {
        LoopFrame(s, a);
        if a.HandleResponse? { TakenIs(m, s); }
      } else {
        CallFrame(m, s, a);
        if a.PushRequest? { PushedIs(m, s); }
      }
      assert PutOut(m, s, a) == [];
    }
  }

  lemma AnswerByWorker(m: nat, s: State, a: Action)
    requires Inv(m, s) && Enabled(s, a) && IsWorkerStep(a)
    ensures Held(s.workers) + multiset(Plucked(m, s, a)) == multiset(AnswersTo(m, s, a)) + Held(Apply(m, s, a).workers)
  {
    hide Inv, Apply, Held, HeldBy, PutOut, AnswersTo, Plucked;
    if a.PluckRequest? {
      TakesRequest(m, s, a.w);
      HeldAfter(s.workers, a.w, Holding(s.inq[0].conn, s.inq[0].req));
    } else if a.PushResponse? {
      GivesResponse(m, s, a.w);
      HeldAfter(s.workers, a.w, Cleanup(s.workers[a.w].req));
    } else {
      KeepsRequest(m, s, a);
      var after := Apply(m, s, a).workers;
      HeldAfter(s.workers, a.w, after[a.w]);
      Cancel(Held(after), Held(s.workers), HeldBy(after[a.w]));
      assert multiset(Plucked(m, s, a)) == multiset{} == multiset(AnswersTo(m, s, a));
    }
  }

  lemma Cancel(a: multiset<InItem>, b: multiset<InItem>, x: multiset<InItem>)
    requires a + x == b + x
    ensures a == b
  {
    forall e ensures a[e] == b[e] {
      assert (a + x)[e] == (b + x)[e];
    }
  }

  lemma TakesRequest(m: nat, s: State, w: nat)
    requires Enabled(s, PluckRequest(w))
    ensures var a := PluckRequest(w); var x := InItem(s.inq[0].conn, s.inq[0].req);
      && Plucked(m, s, a) == [x] && AnswersTo(m, s, a) == [] && Apply(m, s, a).workers == s.workers[w := Holding(x.conn, x.req)]
      && HeldBy(s.workers[w]) == multiset{} && HeldBy(Holding(x.conn, x.req)) == multiset{x} == multiset([x])
  {
    hide ApplyWorker, ApplyLoop, ApplyCall;
    PluckedIs(m, s, w);
    WorkerFrame(s, PluckRequest(w));
  }

  lemma GivesResponse(m: nat, s: State, w: nat)
    requires Inv(m, s) && Enabled(s, PushResponse(w))
    ensures var a := PushResponse(w); var k := s.workers[w]; var x := InItem(k.conn, k.req);
      && Plucked(m, s, a) == [] && AnswersTo(m, s, a) == [x] && Apply(m, s, a).workers == s.workers[w := Cleanup(k.req)]
      && HeldBy(k) == multiset{x} == multiset([x]) && HeldBy(Cleanup(k.req)) == multiset{}
  {
    hide Inv, ApplyWorker, ApplyLoop, ApplyCall;
    AnsweredIs(m, s, w);
    AnswersItsRequest(m, s, w);
  }

  lemma KeepsRequest(m: nat, s: State, a: Action)
    requires Inv(m, s) && Enabled(s, a) && (a.Dispatch? || a.DeleteRequest?)
    ensures var t := Apply(m, s, a);
      && Plucked(m, s, a) == [] && AnswersTo(m, s, a) == [] && a.w < |s.workers| == |t.workers|
      && t.workers == s.workers[a.w := t.workers[a.w]] && HeldBy(t.workers[a.w]) == HeldBy(s.workers[a.w])
  {
    hide Inv, ApplyWorker, ApplyLoop, ApplyCall;
    WorkerFrame(s, a);
    if a.Dispatch? { DispatchIs(m, s, a.w, a.waited_ms); } else { DeletedIs(m, s, a.w); }
  }

  lemma DispatchIs(m: nat, s: State, w: nat, waited_ms: int)
    requires Inv(m, s) && Enabled(s, Dispatch(w, waited_ms))
    ensures var k := s.workers[w];
      Apply(m, s, Dispatch(w, waited_ms)).workers == s.workers[w := Answered(k.conn, k.req, Resp(s.nextResp, k.req, waited_ms < 500))]
  {
    hide Inv;
    NoFault(m, s, Dispatch(w, waited_ms));
  }

  lemma DeletedIs(m: nat, s: State, w: nat)
    requires Enabled(s, DeleteRequest(w))
    ensures Apply(m, s, DeleteRequest(w)).workers == s.workers[w := Idle]
  {
  }

  lemma AnswersItsRequest(m: nat, s: State, w: nat)
    requires Inv(m, s) && w < |s.workers| && s.workers[w].Answered?
    ensures s.workers[w].resp.req == s.workers[w].req
  {
    hide ControlOk, SocketsOk, TimersOk, InQueueOk, OutQueueOk, FlightsOk, TaskReqsOk, QueuedReqsOk,
         WorkerReqsOk, FreshReqs, TaskRespsOk, QueuedRespsOk, SocketRespsOk, WorkerRespsOk, FreshResps, Bounded;
  }

  // Like Balanced, for a stage whose items leave in any order.
  lemma {:induction false} BalancedBag<T>(m: nat, s: State, run: seq<Action>,
                                          put: (nat, State, Action) -> seq<T>, took: (nat, State, Action) -> seq<T>, held: State -> multiset<T>)
    requires Inv(m, s)
    requires forall s, a :: Inv(m, s) && Enabled(s, a) ==>
               held(s) + multiset(put(m, s, a)) == multiset(took(m, s, a)) + held(Step(m, s, a))
    ensures held(s) + multiset(Log(m, s, run, put)) == multiset(Log(m, s, run, took)) + held(Exec(m, s, run))
    decreases |run|
  {
    hide Inv, Enabled, Apply;
    if run == [] {
      assert held(s) + multiset([]) == multiset([]) + held(s);
    } else {
      var a, t := run[0], Step(m, s, run[0]);
      StepKeepsInv(m, s, a);
      BalancedBag(m, t, run[1..], put, took, held);
      if Enabled(s, a) {
        assert multiset(Log(m, s, run, put)) == multiset(put(m, s, a)) + multiset(Log(m, t, run[1..], put));
        assert multiset(Log(m, s, run, took)) == multiset(took(m, s, a)) + multiset(Log(m, t, run[1..], took));
        Chain(held(s), multiset(put(m, s, a)), multiset(Log(m, t, run[1..], put)),
              held(t), multiset(took(m, s, a)), multiset(Log(m, t, run[1..], took)), held(Exec(m, s, run)));
      }
    }
  }

  lemma Chain<T>(start: multiset<T>, put: multiset<T>, puts: multiset<T>,
                 middle: multiset<T>, took: multiset<T>, tooks: multiset<T>, end: multiset<T>)
    requires start + put == took + middle && middle + puts == tooks + end
    ensures start + (put + puts) == (took + tooks) + end
  {
    assert start + (put + puts) == (start + put) + puts;
    assert (took + middle) + puts == took + (middle + puts);
    assert took + (tooks + end) == (took + tooks) + end;
  }

  /** Over every run the responses that the workers push answer exactly the requests that
    * they took and no longer hold, once each and to the connection each came from; and
    * the loop takes the responses first in, first out.
    */
  lemma EveryRequestIsAnsweredOnce(m: nat, n: nat, run: seq<Action>)
    ensures var s := Init(n); var t := Exec(m, s, run);
      && multiset(Log(m, s, run, Plucked)) == multiset(Log(m, s, run, AnswersTo)) + Held(t.workers)
      && Log(m, s, run, PutOut) == Log(m, s, run, Taken) + t.outq
  {
    hide Log, Inv, Exec, Step, Enabled, PutOut, Plucked, AnswersTo, Taken, Held;
    InitIsReachable(m, n, run);
    forall s, a | Inv(m, s) && Enabled(s, a)
      ensures Held(s.workers) + multiset(Plucked(m, s, a)) == multiset(AnswersTo(m, s, a)) + Held(Step(m, s, a).workers)
    {
      AnswerStep(m, s, a);
    }
    forall s, a | Inv(m, s) && Enabled(s, a)
      ensures s.outq + PutOut(m, s, a) == Taken(m, s, a) + Step(m, s, a).outq
    {
      OutQueueStep(m, s, a);
    }
    BalancedBag(m, Init(n), run, Plucked, AnswersTo, (s: State) => Held(s.workers));
    Balanced(m, Init(n), run, PutOut, Taken, (s: State) => s.outq);
    NothingAtFirst(n);
    NothingHeld(n);
  }

  /** A worker serves a request exactly when it was queued for less than 500 ms; in any
    * case it makes a new response that answers the request.
    */
  lemma LateRequestsAreNotServed(m: nat, s: State, w: nat, waited_ms: int)
    requires Reachable(m, s) && Enabled(s, Dispatch(w, waited_ms))
    ensures var k := s.workers[w]; var t := Step(m, s, Dispatch(w, waited_ms));
      && w < |t.workers| && t.workers[w].Answered? && t.workers[w].conn == k.conn
      && t.workers[w].resp !in s.resps && t.workers[w].resp in t.resps && t.workers[w].resp.req == k.req
      && (t.workers[w].resp.handled <==> waited_ms < 500)
  {
    hide Inv, Reachable, ApplyLoop, ApplyCall;
    ReachableInv(m, s);
    NoFault(m, s, Dispatch(w, waited_ms));
    NewResponse(m, s);
  }

  lemma NewResponse(m: nat, s: State)
    requires Inv(m, s)
    ensures forall p | p in s.resps :: p.id < s.nextResp
  {
    hide ControlOk, SocketsOk, TimersOk, InQueueOk, WorkersOk, OutQueueOk, FlightsOk, TaskReqsOk, QueuedReqsOk,
         WorkerReqsOk, FreshReqs, TaskRespsOk, QueuedRespsOk, SocketRespsOk, WorkerRespsOk, Bounded;
  }

  // ----- Events -----

  // The connections that epoll reports, and the call that an event switches to.
  function Reported(m: nat, s: State, a: Action): seq<Conn> {
    if a.EpollWait? then a.ready else []
  }

  function Ran(m: nat, s: State, a: Action): seq<Conn> {
    var t := Step(m, s, a);
    if a.NextEvent? && t.io.Running? then [t.io.conn] else []
  }

  // Outside its first two parts the loop holds no event.
  lemma LoopPending(s: State, a: Action)
    requires Enabled(s, a) && IsLoopStep(a) && !a.NextEvent? && !ApplyLoop(s, a).fault
    ensures Pending(s.io) == [] && Pending(ApplyLoop(s, a).io) == if a.EpollWait? then a.ready else []
  {
    hide Resume, DoHandleResponse, DoStartTask, HeapIsLive;
  }

  // A running call goes on, or control goes back to the loop.
  lemma CallControl(m: nat, s: State, a: Action)
    requires Enabled(s, a) && !IsLoopStep(a) && !IsWorkerStep(a) && !ApplyCall(m, s, a).fault
    ensures s.io.Running? && ApplyCall(m, s, a).io in [s.io, Scheduler(s.io.back)]
  {
    hide SetPC, Yield, Unpoll, FreeReq, FreeResp, DoWakeUp, DoLeave, DoPushRequest, HeapIsLive;
  }

  lemma EventStep(m: nat, s: State, a: Action)
    requires Inv(m, s) && Enabled(s, a)
    ensures Pending(s.io) + Reported(m, s, a) == Ran(m, s, a) + Pending(Step(m, s, a).io)
  {
    hide Inv, ApplyLoop, ApplyWorker, ApplyCall;
    NoFault(m, s, a);
    if a.NextEvent? {
      RunsNext(m, s);
    } else if IsLoopStep(a) {
      LoopPending(s, a);
    } else if IsWorkerStep(a) {
      WorkerFrame(s, a);
    } else {
      CallControl(m, s, a);
    }
  }

  lemma RunsNext(m: nat, s: State)
    requires Inv(m, s) && Enabled(s, NextEvent)
    ensures Step(m, s, NextEvent).io == Running(s.io.phase.batch[0], Events(s.io.phase.batch[1..]))
  {
    hide ControlOk, SocketsOk, TimersOk, InQueueOk, WorkersOk, OutQueueOk, FlightsOk, TaskReqsOk, QueuedReqsOk,
         WorkerReqsOk, FreshReqs, TaskRespsOk, QueuedRespsOk, SocketRespsOk, WorkerRespsOk, FreshResps, Bounded;
    var c := s.io.phase.batch[0];
    PendingIsPolling(s.conns, s.timers + s.lost, s.polled, s.io, c);
    ResumeStep(m, s, c, Events(s.io.phase.batch[1..]));
  }

  /** Over every run each reported event switches to the call of its connection, once and in
    * the order of the report, before the loop goes on to the responses.
    */
  lemma EveryEventReachesItsCall(m: nat, n: nat, run: seq<Action>)
    ensures var s := Init(n); var t := Exec(m, s, run);
      && Log(m, s, run, Reported) == Log(m, s, run, Ran) + Pending(t.io)
      && (t.io == Scheduler(Active) ==> Log(m, s, run, Reported) == Log(m, s, run, Ran))
  {
    hide Log, Inv, Exec, Step, Enabled, Reported, Ran;
    InitIsReachable(m, n, run);
    forall s, a | Inv(m, s) && Enabled(s, a)
      ensures Pending(s.io) + Reported(m, s, a) == Ran(m, s, a) + Pending(Step(m, s, a).io)
    {
      EventStep(m, s, a);
    }
    Balanced(m, Init(n), run, Reported, Ran, (s: State) => Pending(s.io));
    assert Pending(Init(n).io) == [];
  }

  // ----- Responses -----

  // The responses that are not for a lazily destroyed socket, and those that a woken
  // call goes on with.
  function HandedOver(m: nat, s: State, a: Action): seq<OutItem> {
    if a.HandleResponse? && s.outq != [] && !LazilyDestroyed(s, s.outq[0].conn) then [s.outq[0]] else []
  }

  function Received(m: nat, s: State, a: Action): seq<OutItem> {
    var t := Step(m, s, a);
    if a.WakeUp? && IsRunning(t) && Now(t).Sending? then [OutItem(t.io.conn, Now(t).resp)] else []
  }

  // The response on its way from the loop to its call.
  function InHand(s: State): seq<OutItem> {
    if s.io.Running? then if IsRunning(s) && Now(s).Parked? then StoredWith(s, s.io.conn) else []
    else if s.io.phase.Delivering? then StoredWith(s, s.io.phase.conn)
    else []
  }

  function StoredWith(s: State, c: Conn): seq<OutItem> {
    if c in s.socks && s.socks[c].args.Some? then [OutItem(c, s.socks[c].args.value)] else []
  }

  // A parked call has no response until the loop hands it one.
  lemma ParkedWithoutResponse(m: nat, s: State)
    requires Inv(m, s) && s.io.Scheduler? && !s.io.phase.Delivering?
    ensures forall c | c in s.conns && s.conns[c].pc.Parked? :: StoredWith(s, c) == []
  {
    hide ControlOk, SocketsOk, TimersOk, InQueueOk, WorkersOk, OutQueueOk, TaskReqsOk, QueuedReqsOk,
         WorkerReqsOk, FreshReqs, TaskRespsOk, QueuedRespsOk, SocketRespsOk, WorkerRespsOk, FreshResps, Bounded;
  }

  lemma HandOverIs(m: nat, s: State)
    requires Inv(m, s) && Enabled(s, HandleResponse)
    ensures var c, p := s.outq[0].conn, s.outq[0].resp; var t := Apply(m, s, HandleResponse);
      && c in s.socks && (LazilyDestroyed(s, c) <==> s.socks[c].uthread == -1)
      && if LazilyDestroyed(s, c) then t.io == s.io
         else t.io == Scheduler(Delivering(c)) && t.socks == s.socks[c := s.socks[c].(args := Some(p))]
  {
    hide Inv, ApplyCall, ApplyWorker;
    TakenIsAwaited(m, s);
    NoFault(m, s, HandleResponse);
  }

  lemma DeliverIs(m: nat, s: State)
    requires Inv(m, s) && Enabled(s, DeliverResponse)
    ensures var c := s.io.phase.conn;
      Apply(m, s, DeliverResponse) == s.(io := Running(c, Active)) && c in s.conns && s.conns[c].pc.Parked?
  {
    hide ControlOk, SocketsOk, TimersOk, InQueueOk, WorkersOk, OutQueueOk, FlightsOk, TaskReqsOk, QueuedReqsOk,
         WorkerReqsOk, FreshReqs, TaskRespsOk, QueuedRespsOk, SocketRespsOk, WorkerRespsOk, FreshResps, Bounded;
    DeliveringIsParked(s.conns, s.socks, s.flight, s.io);
    ResumeStep(m, s, s.io.phase.conn, Active);
  }

  // Apart from that the loop delivers nothing: what it switches to is a new call, or
  // one that finds its record as it was.
  lemma OtherSwitches(s: State, a: Action)
    requires Enabled(s, a) && IsLoopStep(a) && !a.HandleResponse? && !a.DeliverResponse? && !ApplyLoop(s, a).fault
    ensures var t := ApplyLoop(s, a);
      && s.io.Scheduler? && !s.io.phase.Delivering? && (t.io.Scheduler? ==> !t.io.phase.Delivering?)
      && (IsRunning(t) && Now(t).Parked? ==> t.conns == s.conns && t.socks == s.socks)
  {
    hide Resume, DoStartTask, HeapIsLive;
  }

  lemma WakeIs(m: nat, s: State)
    requires IsRunning(s) && Now(s).Parked? && Inv(m, s)
    ensures var c := s.io.conn; var t := Step(m, s, WakeUp);
      && c in s.socks && IsRunning(t) && t.io == s.io && t.conns == At(s.conns, c, Now(t))
      && Now(t) == if s.socks[c].args == None then Exiting(false) else Sending(s.socks[c].args.value, Now(s).ka)
  {
    hide Inv, ApplyLoop, ApplyWorker, DoWakeUp;
    IsFaultless(m, s);
    NoFault(m, s, WakeUp);
  }

  lemma OtherCallSteps(m: nat, s: State, a: Action)
    requires Enabled(s, a) && !IsLoopStep(a) && !IsWorkerStep(a) && !ApplyCall(m, s, a).fault && !a.WakeUp? && !a.StaleRemoval?
    ensures var t := ApplyCall(m, s, a); !Now(s).Parked? && (t.io.Scheduler? || (IsRunning(t) && !Now(t).Parked?))
  {
    hide SetPC, Yield, Unpoll, FreeReq, FreeResp, DoLeave, DoPushRequest, HeapIsLive;
  }

  lemma BackNotDelivering(m: nat, s: State)
    requires Inv(m, s) && s.io.Running?
    ensures !s.io.back.Delivering?
  {
    hide SocketsOk, TimersOk, InQueueOk, WorkersOk, OutQueueOk, FlightsOk, TaskReqsOk, QueuedReqsOk,
         WorkerReqsOk, FreshReqs, TaskRespsOk, QueuedRespsOk, SocketRespsOk, WorkerRespsOk, FreshResps, Bounded;
  }

  lemma HandStep(m: nat, s: State, a: Action)
    requires Inv(m, s) && Enabled(s, a)
    ensures InHand(s) + HandedOver(m, s, a) == Received(m, s, a) + InHand(Step(m, s, a))
  {
    hide Inv, ApplyLoop, ApplyWorker, ApplyCall;
    NoFault(m, s, a);
    if IsLoopStep(a) {
      HandByLoop(m, s, a);
    } else if IsWorkerStep(a) {
      WorkerFrame(s, a);
    } else {
      HandByCall(m, s, a);
    }
  }

  lemma HandByLoop(m: nat, s: State, a: Action)
    requires Inv(m, s) && Enabled(s, a) && IsLoopStep(a) && !Apply(m, s, a).fault
    ensures InHand(s) + HandedOver(m, s, a) == InHand(Apply(m, s, a))
  {
    hide Inv, ApplyLoop, ApplyWorker, ApplyCall;
    if a.HandleResponse? {
      HandOverIs(m, s);
    } else if a.DeliverResponse? {
      DeliverIs(m, s);
    } else {
      OtherSwitches(s, a);
      ParkedWithoutResponse(m, s);
    }
  }

  lemma HandByCall(m: nat, s: State, a: Action)
    requires Inv(m, s) && Enabled(s, a) && !IsLoopStep(a) && !IsWorkerStep(a) && !Apply(m, s, a).fault
    ensures InHand(s) == Received(m, s, a) + InHand(Apply(m, s, a))
  {
    hide Inv, ApplyLoop, ApplyWorker, ApplyCall;
    if a.WakeUp? {
      WakeIs(m, s);
    } else if a.StaleRemoval? {
      StaleStep(m, s, a.timed);
    } else {
      OtherCallSteps(m, s, a);
      CallControl(m, s, a);
      BackNotDelivering(m, s);
    }
  }

  /** Over every run each response that the loop takes, except one for a lazily destroyed
    * socket, reaches the call of its connection, which goes on with it at once: nothing
    * else is received, and no two responses change places.
    */
  lemma EveryResponseReachesItsCall(m: nat, n: nat, run: seq<Action>)
    ensures var s := Init(n); var t := Exec(m, s, run);
      Log(m, s, run, HandedOver) == Log(m, s, run, Received) + InHand(t)
  {
    hide Log, Inv, Exec, Step, Enabled, HandedOver, Received, InHand;
    InitIsReachable(m, n, run);
    forall s, a | Inv(m, s) && Enabled(s, a)
      ensures InHand(s) + HandedOver(m, s, a) == Received(m, s, a) + InHand(Step(m, s, a))
    {
      HandStep(m, s, a);
    }
    Balanced(m, Init(n), run, HandedOver, Received, InHand);
    NothingAtFirst(n);
  }
}
