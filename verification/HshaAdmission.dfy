/** Which connections and requests the server lets in: the acceptor with its connection
  * limit and its round over the units, the load control, and the split of the workers.
  */
module HshaAdmission {
  import opened Common

  const MAX_ACCEPT_QUEUE_LENGTH: nat := 102400

  // ----- The acceptor and the units -----

  // Connections handed to a unit: those still in its accept queue, and those with an
  // IOFunc call.
  datatype Unit = Unit(accepted_fd_list: nat, live: nat) {
    function Held(): nat { accepted_fd_list + live }
  }

  // Where the acceptor thread is: in accept, past the check, or before hold_fds_++.
  datatype PC = Accepting | Handing | Counting

  // attempts and tries record the hand-offs so far, in all and by unit.
  datatype State = State(
    pc: PC,
    idx: nat,
    hold_fds: int,
    units: seq<Unit>,
    attempts: nat,
    tries: seq<nat>)

  datatype Action =
    | Accept
    | AddAcceptedFd
    | CountFd
    | HandlerAcceptedFd(unit: nat)
    | Finish(unit: nat)

  function Init(n: nat): State {
    State(Accepting, 0, 0, seq(n, _ => Unit(0, 0)), 0, seq(n, _ => 0))
  }

  // The unit whose turn it is.
  function Next(s: State): (unit: nat)
    requires |s.units| > 0
    ensures unit < |s.units|
  {
    s.idx % |s.units|
  }

  // A step that its thread cannot take leaves the state alone.
  function Step(maxConnections: int, s: State, a: Action): State
    requires |s.units| == |s.tries| > 0
  {
    match a
    case Accept =>
      // a connection over the limit is closed at once
      if s.pc.Accepting? && s.hold_fds < maxConnections then s.(pc := Handing) else s
    case AddAcceptedFd =>
      if !s.pc.Handing? then s
      else
        var i := Next(s);
        var u := s.units[i];
        var t := s.(idx := i + 1, attempts := s.attempts + 1, tries := s.tries[i := s.tries[i] + 1]);
        if u.accepted_fd_list > MAX_ACCEPT_QUEUE_LENGTH then t.(pc := Accepting)
        else t.(pc := Counting, units := s.units[i := u.(accepted_fd_list := u.accepted_fd_list + 1)])
    case CountFd =>
      if s.pc.Counting? then s.(pc := Accepting, hold_fds := s.hold_fds + 1) else s
    case HandlerAcceptedFd(i) =>
      if i < |s.units| then s.(units := s.units[i := Unit(0, s.units[i].Held())]) else s
    case Finish(i) =>
      if i < |s.units| && s.units[i].live > 0
      then s.(units := s.units[i := s.units[i].(live := s.units[i].live - 1)], hold_fds := s.hold_fds - 1) else s
  }

  function Exec(maxConnections: int, s: State, run: seq<Action>): (r: State)
    requires |s.units| == |s.tries| > 0
    ensures |r.units| == |r.tries| == |s.units|
    decreases |run|
  {
    if run == [] then s else Exec(maxConnections, Step(maxConnections, s, run[0]), run[1..])
  }

  // Connections handed to some unit and not finished.
  function Handed(units: seq<Unit>): nat {
    if units == [] then 0 else units[0].Held() + Handed(units[1..])
  }

  lemma {:induction false} HandedAfter(units: seq<Unit>, i: nat, u: Unit)
    requires i < |units|
    ensures Handed(units[i := u]) == Handed(units) - units[i].Held() + u.Held()
    decreases |units|
  {
    if i > 0 {
      assert units[i := u][1..] == units[1..][i - 1 := u];
      HandedAfter(units[1..], i - 1, u);
    } else {
      assert units[0 := u][1..] == units[1..];
    }
  }

  lemma {:induction false} HandedNothing(n: nat)
    ensures Handed(seq(n, _ => Unit(0, 0))) == 0
    decreases n
  {
    if n > 0 {
      assert seq(n, _ => Unit(0, 0))[1..] == seq(n - 1, _ => Unit(0, 0));
      HandedNothing(n - 1);
    }
  }

  function Limit(maxConnections: int): nat { if maxConnections > 0 then maxConnections else 0 }

  // Hand-offs to unit j among the first k, when they go round n units.
  function Share(k: nat, n: nat, j: nat): nat
    requires n > 0
  {
    k / n + if j < k % n then 1 else 0
  }

  ghost predicate Inv(maxConnections: int, s: State) {
    && |s.units| == |s.tries| > 0
    && s.hold_fds == Handed(s.units) - (if s.pc.Counting? then 1 else 0)
    && Handed(s.units) + (if s.pc.Handing? then 1 else 0) <= Limit(maxConnections)
    && (forall i | 0 <= i < |s.units| :: s.units[i].accepted_fd_list <= MAX_ACCEPT_QUEUE_LENGTH + 1)
    && s.idx % |s.units| == s.attempts % |s.units|
    && (forall j: nat | j < |s.tries| :: s.tries[j] == Share(s.attempts, |s.tries|, j))
  }

  lemma NextAttempt(k: nat, n: nat)
    requires n > 0
    ensures (k + 1) / n == if k % n == n - 1 then k / n + 1 else k / n
    ensures (k + 1) % n == if k % n == n - 1 then 0 else k % n + 1
  {
    var q, r := k / n, k % n;
    assert k == q * n + r;
    if r == n - 1 {
      assert k + 1 == (q + 1) * n;
      DivIs(k + 1, n, q + 1, 0);
    } else {
      DivIs(k + 1, n, q, r + 1);
    }
  }

  lemma DivIs(k: nat, n: nat, q: nat, r: nat)
    requires n > 0 && k == q * n + r && r < n
    ensures k / n == q && k % n == r
  {
    var d := k / n - q;
    assert k == (k / n) * n + k % n;
    assert d * n == r - k % n;
    Multiple(d, n);
  }

  lemma Multiple(d: int, n: int)
    requires n > 0
    ensures d > 0 ==> d * n >= n
    ensures d < 0 ==> d * n <= -n
  {
  }

  lemma ShareGrows(k: nat, n: nat, j: nat)
    requires n > 0 && j < n
    ensures Share(k + 1, n, j) == Share(k, n, j) + if j == k % n then 1 else 0
  {
    NextAttempt(k, n);
  }

  lemma StepKeepsInv(m: int, s: State, a: Action)
    requires Inv(m, s)
    ensures Inv(m, Step(m, s, a))
  {
    hide Handed, Share;
    match a
    case Accept =>
    case CountFd =>
    case AddAcceptedFd =>
      if s.pc.Handing? {
        var n, i := |s.units|, Next(s);
        NextAttempt(s.attempts, n);
        if i + 1 < n {
          DivIs(i + 1, n, 0, i + 1);
        } else {
          DivIs(n, n, 1, 0);
        }
        forall j: nat | j < n ensures Share(s.attempts + 1, n, j) == Share(s.attempts, n, j) + if j == i then 1 else 0 {
          ShareGrows(s.attempts, n, j);
        }
        HandedAfter(s.units, i, s.units[i].(accepted_fd_list := s.units[i].accepted_fd_list + 1));
      }
    case HandlerAcceptedFd(i) =>
      if i < |s.units| {
        HandedAfter(s.units, i, Unit(0, s.units[i].Held()));
      }
    case Finish(i) =>
      if i < |s.units| && s.units[i].live > 0 {
        HandedAfter(s.units, i, s.units[i].(live := s.units[i].live - 1));
      }
  }

  lemma {:induction false} RunKeepsInv(m: int, s: State, run: seq<Action>)
    requires Inv(m, s)
    ensures Inv(m, Exec(m, s, run))
    decreases |run|
  {
    if run != [] {
      StepKeepsInv(m, s, run[0]);
      RunKeepsInv(m, Step(m, s, run[0]), run[1..]);
    }
  }

  lemma ReachableInv(n: nat, m: int, run: seq<Action>)
    requires n > 0
    ensures Inv(m, Exec(m, Init(n), run))
  {
    HandedNothing(n);
    forall j: nat | j < n ensures Share(0, n, j) == 0 {
      DivIs(0, n, 0, 0);
    }
    RunKeepsInv(m, Init(n), run);
  }

  /** In every run, with any number of units: the connections handed over and not yet
    * finished never exceed the limit, and the counter is their number, less the one
    * increment that the acceptor may still owe.
    */
  lemma ConnectionsAreBounded(n: nat, maxConnections: int, run: seq<Action>)
    requires n > 0
    ensures var s := Exec(maxConnections, Init(n), run);
      && Handed(s.units) <= Limit(maxConnections)
      && s.hold_fds == Handed(s.units) - (if s.pc.Counting? then 1 else 0)
  {
    ReachableInv(n, maxConnections, run);
  }

  /** After k attempts each unit has been offered floor(k/n) or ceil(k/n) connections, the
    * earlier units first.
    */
  lemma HandOffsAreEven(n: nat, maxConnections: int, run: seq<Action>, j: nat)
    requires j < n
    ensures Exec(maxConnections, Init(n), run).tries[j] == Share(Exec(maxConnections, Init(n), run).attempts, n, j)
  {
    hide Share, Handed;
    ReachableInv(n, maxConnections, run);
  }

  lemma ShareIsFloorOrCeiling(k: nat, n: nat, j: nat)
    requires n > 0
    ensures n * (Share(k, n, j) - 1) < k < n * (Share(k, n, j) + 1)
  {
    assert k == (k / n) * n + k % n;
    OneMore(n, k / n);
  }

  /** A unit's accept queue holds at most one connection more than its nominal length: the
    * test comes before the push and is for greater.
    */
  lemma AcceptQueueIsBounded(n: nat, maxConnections: int, run: seq<Action>, i: nat)
    requires i < n
    ensures Exec(maxConnections, Init(n), run).units[i].accepted_fd_list <= 102401
  {
    ReachableInv(n, maxConnections, run);
  }

  /** In every run, a connection that is accepted is handed on if and only if fewer than the
    * limit are held at that moment.
    */
  lemma AcceptIsExact(n: nat, maxConnections: int, run: seq<Action>)
    requires n > 0 && Exec(maxConnections, Init(n), run).pc.Accepting?
    ensures var s := Exec(maxConnections, Init(n), run);
      Step(maxConnections, s, Accept).pc == if Handed(s.units) < maxConnections then Handing else Accepting
  {
    hide Handed, Share;
    ReachableInv(n, maxConnections, run);
  }

  /** And in every run, the unit whose turn it is takes it unless its queue is over length;
    * then it is one connection more that is handed over, and else it is closed.
    */
  lemma HandOffIsExact(n: nat, maxConnections: int, run: seq<Action>)
    requires n > 0 && Exec(maxConnections, Init(n), run).pc.Handing?
    ensures var s := Exec(maxConnections, Init(n), run);
      var t := Step(maxConnections, s, AddAcceptedFd);
      var i := s.attempts % n;
      && t.attempts == s.attempts + 1
      && if s.units[i].accepted_fd_list <= 102400
         then t.pc == Counting && Handed(t.units) == Handed(s.units) + 1
              && t.units == s.units[i := s.units[i].(accepted_fd_list := s.units[i].accepted_fd_list + 1)]
         else t.pc == Accepting && t.units == s.units
  {
    hide Handed, Share;
    ReachableInv(n, maxConnections, run);
    var s := Exec(maxConnections, Init(n), run);
    var i := Next(s);
    HandedAfter(s.units, i, s.units[i].(accepted_fd_list := s.units[i].accepted_fd_list + 1));
  }

  lemma {:induction false} ExecTwice(m: int, s: State, a: seq<Action>, b: seq<Action>)
    requires |s.units| == |s.tries| > 0
    ensures Exec(m, s, a + b) == Exec(m, Exec(m, s, a), b)
    decreases |a|
  {
    if a == [] {
      assert a + b == b;
    } else {
      assert (a + b)[1..] == a[1..] + b;
      ExecTwice(m, Step(m, s, a[0]), a[1..], b);
    }
  }

  // Nothing is under way and every accept queue is empty.
  ghost predicate IsQuiet(s: State) {
    s.pc.Accepting? && forall i | 0 <= i < |s.units| :: s.units[i].accepted_fd_list == 0
  }

  // One connection goes all the way to its IOFunc call.
  function OneConnection(s: State): seq<Action>
    requires |s.units| > 0
  {
    [Accept] + ([AddAcceptedFd] + ([CountFd] + [HandlerAcceptedFd(Next(s))]))
  }

  lemma OneMoreIsHeld(m: int, s: State)
    requires Inv(m, s) && IsQuiet(s) && Handed(s.units) < m
    ensures var t := Exec(m, s, OneConnection(s));
      Inv(m, t) && IsQuiet(t) && Handed(t.units) == Handed(s.units) + 1
  {
    hide Handed, Share, Inv, IsQuiet;
    InvGives(m, s);
    var i := Next(s);
    FourSteps(m, s, i);
    RunKeepsInv(m, s, OneConnection(s));
    HandedAfter(s.units, i, Unit(0, s.units[i].live + 1));
  }

  lemma InvGives(m: int, s: State)
    requires Inv(m, s) && IsQuiet(s)
    ensures s.pc.Accepting? && s.hold_fds == Handed(s.units) && |s.units| == |s.tries| > 0
    ensures s.units[Next(s)].accepted_fd_list == 0
  {
  }

  lemma FourSteps(m: int, s: State, i: nat)
    requires |s.units| == |s.tries| > 0 && i == Next(s) && s.pc.Accepting? && s.hold_fds < m && s.units[i].accepted_fd_list == 0
    ensures var t := Exec(m, s, OneConnection(s));
      && t.pc.Accepting? && t.units == s.units[i := Unit(0, s.units[i].live + 1)]
      && (IsQuiet(s) ==> IsQuiet(t))
  {
    hide IsQuiet, Share, Handed, Exec;
    var s1 := Step(m, s, Accept);
    var s2 := Step(m, s1, AddAcceptedFd);
    var s3 := Step(m, s2, CountFd);
    ExecFirst(m, s, Accept, [AddAcceptedFd] + ([CountFd] + [HandlerAcceptedFd(i)]));
    ExecFirst(m, s1, AddAcceptedFd, [CountFd] + [HandlerAcceptedFd(i)]);
    ExecFirst(m, s2, CountFd, [HandlerAcceptedFd(i)]);
    ExecFirst(m, s3, HandlerAcceptedFd(i), []);
    assert [HandlerAcceptedFd(i)] + [] == [HandlerAcceptedFd(i)];
    StillQuiet(s, Step(m, s3, HandlerAcceptedFd(i)), i);
  }

  lemma ExecFirst(m: int, s: State, a: Action, rest: seq<Action>)
    requires |s.units| == |s.tries| > 0
    ensures Exec(m, s, [a] + rest) == Exec(m, Step(m, s, a), rest) && Exec(m, s, []) == s
    ensures Exec(m, Step(m, s, a), []) == Step(m, s, a)
  {
    assert ([a] + rest)[1..] == rest;
  }

  lemma StillQuiet(s: State, t: State, i: nat)
    requires i < |s.units| && t.pc.Accepting? && t.units == s.units[i := Unit(0, s.units[i].live + 1)]
    ensures IsQuiet(s) ==> IsQuiet(t)
  {
  }

  /** The limit is no more than that: any number of units can come to hold exactly so many
    * connections at once.
    */
  lemma {:induction false} LimitIsReached(n: nat, maxConnections: int, k: nat) returns (run: seq<Action>)
    requires n > 0 && (k == 0 || k <= maxConnections)
    ensures Handed(Exec(maxConnections, Init(n), run).units) == k
    ensures IsQuiet(Exec(maxConnections, Init(n), run))
    decreases k
  {
    hide Handed, Inv, Share, IsQuiet;
    if k == 0 {
      run := [];
      HandedNothing(n);
      InitIsQuiet(n);
    } else {
      var before := LimitIsReached(n, maxConnections, k - 1);
      ReachableInv(n, maxConnections, before);
      var s := Exec(maxConnections, Init(n), before);
      OneMoreIsHeld(maxConnections, s);
      run := before + OneConnection(s);
      ExecTwice(maxConnections, Init(n), before, OneConnection(s));
    }
  }

  lemma InitIsQuiet(n: nat)
    ensures IsQuiet(Init(n))
  {
  }

  // ----- Load control -----

  function NextRate(rate: int, overloaded: bool, adjust: int): int {
    if overloaded then
      if rate == 99 then rate else if rate + adjust > 99 then 99 else rate + adjust
    else
      if rate == 0 then rate else if rate - adjust < 0 then 0 else rate - adjust
  }

  // The rate after a run of refreshes, each overloaded or not.
  function RateAfter(rate: int, loads: seq<bool>, adjust: int): int
    decreases |loads|
  {
    if loads == [] then rate else RateAfter(NextRate(rate, loads[0], adjust), loads[1..], adjust)
  }

  predicate IsRate(rate: int) { 0 <= rate <= 99 }

  lemma {:induction false} RateStaysInRange(rate: int, loads: seq<bool>, adjust: nat)
    requires IsRate(rate)
    ensures IsRate(RateAfter(rate, loads, adjust))
    decreases |loads|
  {
    if loads != [] {
      RateStaysInRange(NextRate(rate, loads[0], adjust), loads[1..], adjust);
    }
  }

  /** The reject rate stays a percentage below 100, from its start at 0 and over every run,
    * exactly for the adjust rates that are not negative.
    */
  lemma RateIsPercentage(adjust: int)
    ensures (forall loads :: IsRate(RateAfter(0, loads, adjust))) <==> adjust >= 0
  {
    if adjust >= 0 {
      forall loads ensures IsRate(RateAfter(0, loads, adjust)) {
        RateStaysInRange(0, loads, adjust);
      }
    } else {
      assert RateAfter(0, [true], adjust) == RateAfter(adjust, [], adjust);
    }
  }

  /** k overloaded refreshes in a row raise the rate by k steps, up to 99; k others lower it
    * by k steps, down to 0.
    */
  lemma {:induction false} RateRamps(rate: int, k: nat, adjust: nat)
    requires IsRate(rate)
    ensures RateAfter(rate, seq(k, _ => true), adjust) == Min(99, rate + k * adjust)
    ensures RateAfter(rate, seq(k, _ => false), adjust) == Max(0, rate - k * adjust)
    decreases k
  {
    if k > 0 {
      assert seq(k, _ => true)[1..] == seq(k - 1, _ => true);
      assert seq(k, _ => false)[1..] == seq(k - 1, _ => false);
      var up, down := NextRate(rate, true, adjust), NextRate(rate, false, adjust);
      RateRamps(up, k - 1, adjust);
      RateRamps(down, k - 1, adjust);
      assert k * adjust == (k - 1) * adjust + adjust;
    }
  }

  // Of the hundred equally likely draws, those that let a request in.
  predicate LetsIn(draw: int, rate: int) { draw >= rate }

  function Admitting(rate: int): set<int> { set d | 0 <= d < 100 && LetsIn(d, rate) }

  lemma {:induction false} CountFrom(rate: int)
    requires 0 <= rate <= 100
    ensures |Admitting(rate)| == 100 - rate
    decreases 100 - rate
  {
    if rate < 100 {
      CountFrom(rate + 1);
      assert Admitting(rate) == Admitting(rate + 1) + {rate};
    } else {
      assert Admitting(rate) == {};
    }
  }

  // std::atomic_int and int fields; the averages come from the statistics thread.
  class HshaServerQos {
    var enqueue_reject_rate: int
    var last_seq: int
    // The refreshes that counted, as overloaded or not.
    ghost var loads: seq<bool>

    constructor ()
      ensures enqueue_reject_rate == 0 && last_seq == 0 && loads == []
    {
      enqueue_reject_rate, last_seq, loads := 0, 0, [];
    }

    ghost predicate Follows(adjust: int)
      reads this
    {
      enqueue_reject_rate == RateAfter(0, loads, adjust)
    }

    /** draw is what the random engine yields; a request gets in for exactly 100 - rate of
      * the hundred remainders, so for at least one, and for all of them at rate 0.
      */
    method CanEnqueue(draw: nat) returns (can: bool)
      ensures can <==> draw % 100 >= enqueue_reject_rate
      ensures can <==> draw % 100 in Admitting(enqueue_reject_rate)
      ensures IsRate(enqueue_reject_rate) ==> |Admitting(enqueue_reject_rate)| == 100 - enqueue_reject_rate
    {
      if 0 <= enqueue_reject_rate <= 100 {
        CountFrom(enqueue_reject_rate);
      }
      can := draw % 100 >= enqueue_reject_rate;
    }

    /** One turn of CalFunc: only averages not seen before count. */
    method Refresh(seq_no: int, in_avg: nat, out_avg: nat, threshold: int, adjust: int)
      requires Follows(adjust)
      modifies this
      ensures Follows(adjust) && last_seq == seq_no
      ensures loads == old(loads) + if seq_no != old(last_seq) then [(in_avg + out_avg) / 2 > threshold] else []
    {
      if seq_no != last_seq {
        var avg_queue_wait_time := (in_avg + out_avg) / 2;
        RateAppend(0, loads, avg_queue_wait_time > threshold, adjust);
        loads := loads + [avg_queue_wait_time > threshold];
        if avg_queue_wait_time > threshold {
          if enqueue_reject_rate != 99 {
            enqueue_reject_rate := if enqueue_reject_rate + adjust > 99 then 99 else enqueue_reject_rate + adjust;
          }
        } else {
          if enqueue_reject_rate != 0 {
            enqueue_reject_rate := if enqueue_reject_rate - adjust < 0 then 0 else enqueue_reject_rate - adjust;
          }
        }
        last_seq := seq_no;
      }
    }
  }

  lemma {:induction false} RateAppend(rate: int, loads: seq<bool>, load: bool, adjust: int)
    ensures RateAfter(rate, loads + [load], adjust) == NextRate(RateAfter(rate, loads, adjust), load, adjust)
    decreases |loads|
  {
    if loads == [] {
      assert ([load])[1..] == [];
    } else {
      assert (loads + [load])[1..] == loads[1..] + [load];
      RateAppend(NextRate(rate, loads[0], adjust), loads[1..], load, adjust);
    }
  }

  // ----- The split of the workers -----

  function Sum(counts: seq<nat>): nat {
    if counts == [] then 0 else Sum(counts[..|counts| - 1]) + counts[|counts| - 1]
  }

  /** The loop of the server's constructor: every worker belongs to one unit and every unit
    * has one at least; all units but the last have the same number, and the last has
    * what is left, which is less than one share and a full round more.
    */
  method SplitWorkers(io_thread_count: nat, max_threads: nat) returns (counts: seq<nat>)
    requires io_thread_count >= 1 && max_threads >= 1
    ensures |counts| == if max_threads < io_thread_count then max_threads else io_thread_count
    ensures Sum(counts) == max_threads
    ensures forall i | 0 <= i < |counts| :: counts[i] >= 1
    ensures forall i | 0 <= i < |counts| - 1 :: counts[i] == max_threads / |counts|
    ensures counts[|counts| - 1] == max_threads / |counts| + max_threads % |counts|
  {
    var io_count := io_thread_count;
    if max_threads < io_count {
      io_count := max_threads;
    }
    var per_io := max_threads / io_count;
    ghost var share, rest := per_io, max_threads % io_count;
    ShareIsPositive(max_threads, io_count);
    counts := [];
    for i := 0 to io_count
      invariant |counts| == i
      invariant i < io_count ==> per_io == share
      invariant Sum(counts) == share * i + if i == io_count then rest else 0
      invariant forall k | 0 <= k < i && k < io_count - 1 :: counts[k] == share
      invariant i == io_count ==> counts[i - 1] == share + rest
    {
      if i == io_count - 1 {
        LastShare(max_threads, io_count);
        per_io := max_threads - per_io * (io_count - 1);
      }
      OneMore(share, i);
      SumOne(counts, per_io);
      counts := counts + [per_io];
    }
  }

  lemma SumOne(counts: seq<nat>, count: nat)
    ensures Sum(counts + [count]) == Sum(counts) + count
  {
    assert (counts + [count])[..|counts|] == counts;
  }

  lemma OneMore(share: nat, i: nat)
    ensures share * (i + 1) == share * i + share
  {
  }

  lemma LastShare(m: nat, n: nat)
    requires n >= 1
    ensures m - (m / n) * (n - 1) == m / n + m % n
  {
    OneMore(m / n, n - 1);
  }

  lemma ShareIsPositive(m: nat, n: nat)
    requires 1 <= n <= m
    ensures m / n >= 1 && m == (m / n) * n + m % n
  {
  }
}
