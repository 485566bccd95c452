/**
 Reloading the configuration: a stopped generation either winds down completely or has a
 dispatcher that is blocked for ever on a full work queue nobody serves any more; and which
 of the two can happen is decided by how many tasks, of senders inside addTask as well, are
 waiting when the configuration comes.
 */
module PipelineReload {
  import opened Wrappers
  import opened Tasks
  import opened Pipeline
  import opened PipelineSafety
  import opened PipelineProgress
  import P = Pools
  import C = Collectors
  import R = Requests

  // The dispatcher waits for room in a queue whose last worker is gone.
  predicate Wedged(c: C.Collector) {
    && c.hand.Picked?
    && var p := C.Get(c, C.ToBackground(c, c.hand.t));
       P.Full(p) && P.Live(p) == 0
  }

  // The steps by which a stopped generation winds down.
  predicate WindsDown(l: Label) {
    l.Inner? || l.Drop?
  }

  // A worker of collector d gives up its task, leaves or is gone.
  predicate GoesHome(l: Label, d: nat) {
    (l.Inner? && l.d == d && l.act.Worker? && !l.act.move.Taking?) || (l.Drop? && l.d == d)
  }

  lemma WorkerGoesHome(s: State, d: nat, bg: bool) returns (l: Label)
    requires Inv(s) && s.mode.Stopping? && Up(s) && d < |s.colls|
    requires P.Live(C.Get(s.colls[d], bg)) > 0
    ensures Enabled(s, l) && GoesHome(l, d)
  {
    var p := C.Get(s.colls[d], bg);
    if p.leaving > 0 {
      l := Inner(d, C.Worker(bg, P.Releasing));
    } else if p.idle > 0 {
      l := Inner(d, C.Worker(bg, P.Leaving));
    } else {
      var t :| t in p.taken || t in p.querying;
      assert Accounted(s, t);
      assert C.Count(s.colls[d], t) > 0;
      l := Drop(d, bg, t);
    }
  }

  // While a generation is being stopped, every collector that has not returned and is not
  // wedged can do something towards its end.
  lemma CollectorWindsDown(s: State, d: nat) returns (l: Label)
    requires Inv(s) && s.mode.Stopping? && Up(s) && d < |s.colls|
    requires !s.colls[d].phase.Exited? && !Wedged(s.colls[d])
    ensures Enabled(s, l) && WindsDown(l)
  {
    var c := s.colls[d];
    if c.phase.Created? {
      l := Inner(d, C.Start);
    } else if c.hand.Spawning? {
      l := Inner(d, C.Spawn(true));
    } else if c.hand.Picked? {
      if P.Full(C.Get(c, C.ToBackground(c, c.hand.t))) {
        l := WorkerGoesHome(s, d, C.ToBackground(c, c.hand.t));
      } else {
        l := Inner(d, C.Enqueue);
      }
    } else if c.phase.Running? {
      l := Inner(d, C.Stop);
    } else if P.Live(c.std) > 0 {
      l := WorkerGoesHome(s, d, false);
    } else if P.Live(c.bg) > 0 {
      l := WorkerGoesHome(s, d, true);
    } else {
      l := Inner(d, C.Exit);
    }
  }

  // Once nothing more winds down, the new generation starts exactly if no dispatcher is
  // wedged.
  lemma ReloadOutcome(s: State)
    requires Inv(s) && s.mode.Stopping? && Up(s)
    requires forall l :: WindsDown(l) ==> !Enabled(s, l)
    ensures Enabled(s, Restart) <==> forall d :: 0 <= d < |s.colls| ==> !Wedged(s.colls[d])
  {
    if Enabled(s, Restart) {
      forall d | 0 <= d < |s.colls| ensures !Wedged(s.colls[d]) {
        assert s.colls[d].phase.Exited?;
      }
    }
    if forall d :: 0 <= d < |s.colls| ==> !Wedged(s.colls[d]) {
      forall d | 0 <= d < |s.colls| ensures s.colls[d].phase.Exited? {
        if !s.colls[d].phase.Exited? {
          var l := CollectorWindsDown(s, d);
          assert false;
        }
      }
    }
  }

  lemma WedgedCollectorStays(c: C.Collector, a: C.Act, stopping: bool)
    requires C.Inv(c) && Wedged(c) && C.Can(c, a, stopping)
    ensures Wedged(C.Do(c, a, stopping))
  {
  }

  predicate WedgedAt(cs: seq<C.Collector>, d: nat) {
    d < |cs| && Wedged(cs[d])
  }

  lemma OneCollectorChanges(cs: seq<C.Collector>, d: nat, e: nat, c: C.Collector)
    requires WedgedAt(cs, d) && e < |cs| && (e == d ==> Wedged(c))
    ensures WedgedAt(cs[e := c], d)
  {
  }

  lemma WedgedWorkerStays(c: C.Collector, bg: bool, t: Task)
    requires Wedged(c) && (t in C.Get(c, bg).taken || t in C.Get(c, bg).querying)
    ensures Wedged(C.Finish(c, bg, t))
    ensures t in C.Get(c, bg).taken ==> Wedged(C.Begin(c, bg, t))
  {
  }

  lemma WedgedStaysAtWork(s: State, l: Label, s': State, d: nat)
    requires WedgedAt(s.colls, d) && Enabled(s, l) && s' == Apply(s, l) && (l.Begin? || l.Deliver? || l.Drop?)
    ensures WedgedAt(s'.colls, d)
  {
    var c := s.colls[l.d];
    if l.d == d {
      WedgedWorkerStays(c, l.bg, l.t);
    }
    OneCollectorChanges(s.colls, d, l.d, if l.Begin? then C.Begin(c, l.bg, l.t) else C.Finish(c, l.bg, l.t));
  }

  lemma WedgedStaysInside(s: State, e: nat, act: C.Act, d: nat)
    requires CollectorsOk(s) && WedgedAt(s.colls, d) && Enabled(s, Inner(e, act))
    ensures WedgedAt(s.colls[e := C.Do(s.colls[e], act, s.mode.Stopping?)], d)
  {
    if e == d {
      WedgedCollectorStays(s.colls[d], act, s.mode.Stopping?);
    }
    OneCollectorChanges(s.colls, d, e, C.Do(s.colls[e], act, s.mode.Stopping?));
  }

  lemma WedgedStaysAtSubmit(s: State, r: nat, d: nat)
    requires WedgedAt(s.colls, d) && Enabled(s, Submit(r))
    ensures WedgedAt(Apply(s, Submit(r)).colls, d)
  {
    var t := NextTask(s, r);
    OneCollectorChanges(s.colls, d, t.db, C.Accept(s.colls[t.db], t));
  }

  lemma WedgedStays(s: State, l: Label, s': State, d: nat)
    requires CollectorsOk(s) && WedgedAt(s.colls, d) && Enabled(s, l) && s' == Apply(s, l)
    ensures WedgedAt(s'.colls, d)
  {
    match l
    case Inner(e, act) => WedgedStaysInside(s, e, act, d);
    case Submit(r) => WedgedStaysAtSubmit(s, r, d);
    case Begin(_, _, _) => WedgedStaysAtWork(s, l, s', d);
    case Deliver(_, _, _, _) => WedgedStaysAtWork(s, l, s', d);
    case Drop(_, _, _) => WedgedStaysAtWork(s, l, s', d);
    case _ =>
  }

  lemma WedgedRunStep(ss: seq<State>, ls: seq<Label>, d: nat, i: nat)
    requires IsRun(ss, ls) && i < |ls| && Inv(ss[i]) && WedgedAt(ss[i].colls, d)
    ensures WedgedAt(ss[i + 1].colls, d)
    ensures !ls[i].Restart?
  {
    WedgedStays(ss[i], ls[i], ss[i + 1], d);
  }

  // A wedged dispatcher stays so in every continuation, and no new generation ever starts.
  lemma {:induction false} WedgedForEver(ss: seq<State>, ls: seq<Label>, d: nat, i: nat)
    requires IsRun(ss, ls) && Inv(ss[0]) && WedgedAt(ss[0].colls, d) && i < |ss|
    ensures WedgedAt(ss[i].colls, d)
    ensures forall k :: 0 <= k < i ==> !ls[k].Restart?
  {
    if i > 0 {
      WedgedForEver(ss, ls, d, i - 1);
      RunKeepsInv(ss, ls, i - 1);
      WedgedRunStep(ss, ls, d, i - 1);
    }
  }

  // ---- when a reload can hang ----

  // The tasks that are on a pool's queue or on their way to it inside the collector.
  function Load(c: C.Collector, bg: bool): nat {
    |C.Get(c, bg).queue|
    + (if c.hand.Picked? && C.ToBackground(c, c.hand.t) == bg then 1 else 0)
    + (if c.inbox != [] && C.ToBackground(c, c.inbox[0]) == bg then 1 else 0)
  }

  // The request is inside addTask of collector d of that generation, with a task for that
  // pool; `hasBg`: the collector has a background pool.
  predicate WaitsFor(q: R.Request, gen: nat, d: nat, hasBg: bool, bg: bool) {
    && q.phase.Sending? && q.inside == Some(gen) && q.next < |q.pairs|
    && var t := q.pairs[q.next]; t.db == d && (t.job && hasBg) == bg
  }

  function Waiting(qs: seq<R.Request>, gen: nat, d: nat, hasBg: bool, bg: bool): nat {
    if qs == [] then 0
    else Waiting(qs[..|qs| - 1], gen, d, hasBg, bg) + (if WaitsFor(qs[|qs| - 1], gen, d, hasBg, bg) then 1 else 0)
  }

  predicate HasBg(c: C.Collector) {
    c.bg.limit > 0
  }

  // All the tasks that may still come to the queue of a pool of a generation that is stopped.
  function Total(s: State, d: nat, bg: bool): nat
    requires d < |s.colls|
  {
    Load(s.colls[d], bg) + Waiting(s.reqs, s.gen, d, HasBg(s.colls[d]), bg)
  }

  predicate Overloaded(s: State, d: nat, bg: bool) {
    d < |s.colls| && Total(s, d, bg) > P.TASKS_QUEUE_SIZE
  }

  ghost predicate Light(s: State) {
    forall d: nat, bg :: !Overloaded(s, d, bg)
  }

  lemma LightIsNotWedged(s: State, d: nat)
    requires Light(s) && d < |s.colls|
    ensures !Wedged(s.colls[d])
  {
    assert !Overloaded(s, d, true) && !Overloaded(s, d, false);
  }

  // ---- the senders ----

  lemma {:induction false} WaitingUpdate(qs: seq<R.Request>, r: nat, q: R.Request,
                                            gen: nat, d: nat, hasBg: bool, bg: bool)
    requires r < |qs|
    ensures Waiting(qs[r := q], gen, d, hasBg, bg) + (if WaitsFor(qs[r], gen, d, hasBg, bg) then 1 else 0) ==
            Waiting(qs, gen, d, hasBg, bg) + (if WaitsFor(q, gen, d, hasBg, bg) then 1 else 0)
  {
    var n := |qs| - 1;
    if r == n {
      assert qs[r := q][..n] == qs[..n];
    } else {
      WaitingUpdate(qs[..n], r, q, gen, d, hasBg, bg);
      assert qs[r := q][..n] == qs[..n][r := q];
    }
  }

  lemma {:induction false} SomebodyWaits(qs: seq<R.Request>, gen: nat, d: nat, hasBg: bool, bg: bool) returns (r: nat)
    requires Waiting(qs, gen, d, hasBg, bg) > 0
    ensures r < |qs| && WaitsFor(qs[r], gen, d, hasBg, bg)
  {
    var n := |qs| - 1;
    if WaitsFor(qs[n], gen, d, hasBg, bg) {
      r := n;
    } else {
      r := SomebodyWaits(qs[..n], gen, d, hasBg, bg);
    }
  }

  // ---- the load of one collector ----

  lemma SetLoad(c: C.Collector, b: bool, p: P.Pool, bg: bool)
    requires p.limit == C.Get(c, b).limit
    ensures Load(C.Set(c, b, p), bg) + (if b == bg then |C.Get(c, b).queue| else 0) ==
            Load(c, bg) + (if b == bg then |p.queue| else 0)
  {
    assert forall t :: C.ToBackground(C.Set(c, b, p), t) == C.ToBackground(c, t);
  }

  lemma ReceiveKeepsLoad(c: C.Collector, bg: bool)
    requires C.Inv(c) && C.Can(c, C.Receive, true)
    ensures Load(C.Do(c, C.Receive, true), bg) == Load(c, bg)
  {
  }

  lemma EnqueueKeepsLoad(c: C.Collector, bg: bool)
    requires C.Can(c, C.Enqueue, true)
    ensures Load(C.Do(c, C.Enqueue, true), bg) == Load(c, bg)
  {
    var t := c.hand.t;
    if C.ToBackground(c, t) {
      SetLoad(c.(hand := C.Spawning(true)), true, P.Enqueue(c.bg, t), bg);
    } else {
      SetLoad(c.(hand := C.Spawning(false)), false, P.Enqueue(c.std, t), bg);
    }
  }

  lemma SpawnKeepsLoad(c: C.Collector, found: bool, bg: bool)
    requires C.Can(c, C.Spawn(found), true)
    ensures Load(C.Do(c, C.Spawn(found), true), bg) == Load(c, bg)
  {
    SetLoad(c, c.hand.bg, P.Spawn(C.Get(c, c.hand.bg), found), bg);
  }

  // A stopped collector gets no more tasks, so its load does not grow.
  lemma LoadDoesNotGrow(c: C.Collector, a: C.Act, bg: bool)
    requires C.Inv(c) && C.Can(c, a, true)
    ensures Load(C.Do(c, a, true), bg) <= Load(c, bg)
  {
    match a
    case Receive => ReceiveKeepsLoad(c, bg);
    case Enqueue => EnqueueKeepsLoad(c, bg);
    case Spawn(found) => SpawnKeepsLoad(c, found, bg);
    case Worker(b, m) => SetLoad(c, b, P.DoMove(C.Get(c, b), m), bg);
    case _ =>
  }

  lemma LoadOfWorkers(c: C.Collector, b: bool, t: Task, bg: bool)
    requires t in C.Get(c, b).taken || t in C.Get(c, b).querying
    ensures Load(C.Finish(c, b, t), bg) == Load(c, bg)
    ensures t in C.Get(c, b).taken ==> Load(C.Begin(c, b, t), bg) == Load(c, bg)
  {
    SetLoad(c, b, P.Finish(C.Get(c, b), t), bg);
    if t in C.Get(c, b).taken {
      SetLoad(c, b, P.Begin(C.Get(c, b), t), bg);
    }
  }

  lemma AcceptAddsToLoad(c: C.Collector, t: Task, bg: bool)
    requires C.CanAccept(c)
    ensures Load(C.Accept(c, t), bg) == Load(c, bg) + (if C.ToBackground(c, t) == bg then 1 else 0)
  {
  }

  // ---- no step of a stopped generation adds to the total ----

  lemma RequestDoesNotWait(q: R.Request, id: nat, a: R.Act, gen: nat, d: nat, hasBg: bool, bg: bool)
    requires R.Inv(q, id) && R.Can(q, a)
    ensures WaitsFor(R.Do(q, a), gen, d, hasBg, bg) ==> WaitsFor(q, gen, d, hasBg, bg)
  {
  }

  // A step of one request that does not begin to wait.
  lemma RequestStep(s: State, r: nat, q: R.Request, s': State, d: nat, bg: bool)
    requires r < |s.reqs| && s'.reqs == s.reqs[r := q] && s'.colls == s.colls && s'.gen == s.gen && d < |s.colls|
    requires WaitsFor(q, s.gen, d, HasBg(s.colls[d]), bg) ==> WaitsFor(s.reqs[r], s.gen, d, HasBg(s.colls[d]), bg)
    ensures Total(s', d, bg) <= Total(s, d, bg)
  {
    WaitingUpdate(s.reqs, r, q, s.gen, d, HasBg(s.colls[d]), bg);
  }

  lemma SubmitKeepsTotal(s: State, r: nat, s': State, d: nat, bg: bool)
    requires Enabled(s, Submit(r)) && s' == Apply(s, Submit(r)) && d < |s.colls|
    ensures d < |s'.colls| && Total(s', d, bg) == Total(s, d, bg)
  {
    var t := NextTask(s, r);
    WaitingUpdate(s.reqs, r, R.Sent(s.reqs[r]), s.gen, d, HasBg(s.colls[d]), bg);
    if t.db == d {
      AcceptAddsToLoad(s.colls[d], t, bg);
    }
  }

  lemma InnerTotal(s: State, e: nat, act: C.Act, s': State, d: nat, bg: bool)
    requires CollectorsOk(s) && s.mode.Stopping? && d < |s.colls|
    requires Enabled(s, Inner(e, act)) && s' == Apply(s, Inner(e, act))
    ensures d < |s'.colls| && Total(s', d, bg) <= Total(s, d, bg)
  {
    if e == d {
      assert CollectorOk(s.colls[d], s.limits[d], false);
      C.DoKeepsInv(s.colls[d], act, true);
      LoadDoesNotGrow(s.colls[d], act, bg);
    }
  }

  // One collector changes without a change of its load.
  lemma CollectorKeepsTotal(s: State, e: nat, c: C.Collector, s': State, d: nat, bg: bool)
    requires e < |s.colls| && d < |s.colls| && s'.colls == s.colls[e := c] && s'.gen == s.gen
    requires Load(c, bg) == Load(s.colls[e], bg) && HasBg(c) == HasBg(s.colls[e])
    requires Waiting(s'.reqs, s.gen, d, HasBg(s.colls[d]), bg) == Waiting(s.reqs, s.gen, d, HasBg(s.colls[d]), bg)
    ensures Total(s', d, bg) == Total(s, d, bg)
  {
  }

  lemma FinishKeepsLoad(c: C.Collector, b: bool, t: Task, bg: bool)
    requires t in C.Get(c, b).taken || t in C.Get(c, b).querying
    ensures var c' := C.Finish(c, b, t); Load(c', bg) == Load(c, bg) && HasBg(c') == HasBg(c)
  {
    LoadOfWorkers(c, b, t, bg);
    C.FinishKeeps(c, b, t);
  }

  lemma BeginKeepsLoad(c: C.Collector, b: bool, t: Task, bg: bool)
    requires t in C.Get(c, b).taken
    ensures var c' := C.Begin(c, b, t); Load(c', bg) == Load(c, bg) && HasBg(c') == HasBg(c)
  {
    LoadOfWorkers(c, b, t, bg);
    C.BeginKeeps(c, b, t);
  }

  lemma ResultsDoNotWait(qs: seq<R.Request>, r: nat, res: Result, gen: nat, d: nat, hasBg: bool, bg: bool)
    requires r < |qs|
    ensures Waiting(qs[r := R.Receive(qs[r], res)], gen, d, hasBg, bg) == Waiting(qs, gen, d, hasBg, bg)
  {
    WaitingUpdate(qs, r, R.Receive(qs[r], res), gen, d, hasBg, bg);
  }

  lemma DeliverKeepsTotal(s: State, e: nat, b: bool, t: Task, answer: Answer, s': State, d: nat, bg: bool)
    requires Enabled(s, Deliver(e, b, t, answer)) && s' == Apply(s, Deliver(e, b, t, answer)) && d < |s.colls|
    ensures d < |s'.colls| && Total(s', d, bg) == Total(s, d, bg)
  {
    FinishKeepsLoad(s.colls[e], b, t, bg);
    ResultsDoNotWait(s.reqs, t.req, Result(t, answer), s.gen, d, HasBg(s.colls[d]), bg);
    CollectorKeepsTotal(s, e, C.Finish(s.colls[e], b, t), s', d, bg);
  }

  lemma BeginKeepsTotal(s: State, e: nat, b: bool, t: Task, s': State, d: nat, bg: bool)
    requires Enabled(s, Begin(e, b, t)) && s' == Apply(s, Begin(e, b, t)) && d < |s.colls|
    ensures d < |s'.colls| && Total(s', d, bg) == Total(s, d, bg)
  {
    BeginKeepsLoad(s.colls[e], b, t, bg);
    CollectorKeepsTotal(s, e, C.Begin(s.colls[e], b, t), s', d, bg);
  }

  lemma DropKeepsTotal(s: State, e: nat, b: bool, t: Task, s': State, d: nat, bg: bool)
    requires Enabled(s, Drop(e, b, t)) && s' == Apply(s, Drop(e, b, t)) && d < |s.colls|
    ensures d < |s'.colls| && Total(s', d, bg) == Total(s, d, bg)
  {
    FinishKeepsLoad(s.colls[e], b, t, bg);
    CollectorKeepsTotal(s, e, C.Finish(s.colls[e], b, t), s', d, bg);
  }

  lemma TotalDoesNotGrow(s: State, l: Label, s': State, d: nat, bg: bool)
    requires RequestsOk(s) && CollectorsOk(s) && s.mode.Stopping? && d < |s.colls|
    requires Enabled(s, l) && !l.Restart? && s' == Apply(s, l)
    ensures d < |s'.colls| && Total(s', d, bg) <= Total(s, d, bg)
  {
    match l
    case Inner(e, act) => InnerTotal(s, e, act, s', d, bg);
    case Submit(r) => SubmitKeepsTotal(s, r, s', d, bg);
    case Alone(r, move) =>
      RequestDoesNotWait(s.reqs[r], r, move, s.gen, d, HasBg(s.colls[d]), bg);
      RequestStep(s, r, R.Do(s.reqs[r], move), s', d, bg);
    case Refuse(r) => RequestStep(s, r, s'.reqs[r], s', d, bg);
    case GiveUp(r) => RequestStep(s, r, s'.reqs[r], s', d, bg);
    case Crash(r) => RequestStep(s, r, s'.reqs[r], s', d, bg);
    case Arrive(_, _, _) => assert s'.reqs[..|s'.reqs| - 1] == s.reqs;
    case Begin(e, b, t) => BeginKeepsTotal(s, e, b, t, s', d, bg);
    case Deliver(e, b, t, answer) => DeliverKeepsTotal(s, e, b, t, answer, s', d, bg);
    case Drop(e, b, t) => DropKeepsTotal(s, e, b, t, s', d, bg);
  }

  lemma StoppedStaysStopped(s: State, l: Label, s': State)
    requires s.mode.Stopping? && Enabled(s, l) && !l.Restart? && s' == Apply(s, l)
    ensures s'.mode.Stopping? && |s'.colls| == |s.colls|
  {
  }

  lemma StoppedStepStaysLight(s: State, l: Label, s': State)
    requires RequestsOk(s) && CollectorsOk(s) && s.mode.Stopping? && Light(s)
    requires Enabled(s, l) && !l.Restart? && s' == Apply(s, l)
    ensures s'.mode.Stopping? && Light(s')
  {
    StoppedStaysStopped(s, l, s');
    forall d: nat, bg ensures !Overloaded(s', d, bg) {
      if d < |s.colls| {
        assert !Overloaded(s, d, bg);
        TotalDoesNotGrow(s, l, s', d, bg);
      }
    }
  }

  predicate NoRestart(ls: seq<Label>) {
    forall k :: 0 <= k < |ls| ==> !ls[k].Restart?
  }

  lemma {:induction false} StoppedRunStaysLight(ss: seq<State>, ls: seq<Label>, i: nat)
    requires IsRun(ss, ls) && NoRestart(ls) && i < |ss|
    requires Inv(ss[0]) && ss[0].mode.Stopping? && Light(ss[0])
    ensures Inv(ss[i]) && ss[i].mode.Stopping? && Light(ss[i])
  {
    RunKeepsInv(ss, ls, i);
    if i > 0 {
      StoppedRunStaysLight(ss, ls, i - 1);
      StoppedStepStaysLight(ss[i - 1], ls[i - 1], ss[i]);
    }
  }

  lemma LightGoesOn(s: State, d: nat) returns (l: Label, s': State)
    requires Inv(s) && s.mode.Stopping? && Up(s) && Light(s)
    requires d < |s.colls| && !s.colls[d].phase.Exited?
    ensures Enabled(s, l) && s' == Apply(s, l) && Inv(s') && Rank(s') < Rank(s)
    ensures s'.mode.Stopping? && Up(s') && Light(s') && s'.reqs == s.reqs && s'.gen == s.gen
  {
    LightIsNotWedged(s, d);
    l := CollectorWindsDown(s, d);
    s' := Apply(s, l);
    StepOn(s, l, s');
    StoppedStepStaysLight(s, l, s');
  }

  // A run at whose end a new generation has just started; no request has done anything.
  ghost predicate EndsInRestart(s: State, ss: seq<State>, ls: seq<Label>) {
    && IsRun(ss, ls) && ss[0] == s && ls != [] && ls[|ls| - 1].Restart?
    && ss[|ls|].reqs == s.reqs && ss[|ls|].gen == s.gen + 1 && Up(ss[|ls|])
  }

  lemma RestartsNow(s: State)
    requires Enabled(s, Restart)
    ensures EndsInRestart(s, [s, Apply(s, Restart)], [Restart])
  {
  }

  lemma RestartsLater(s: State, l: Label, s': State, ss: seq<State>, ls: seq<Label>)
    requires Enabled(s, l) && s' == Apply(s, l) && s'.reqs == s.reqs && s'.gen == s.gen && EndsInRestart(s', ss, ls)
    ensures EndsInRestart(s, [s] + ss, [l] + ls)
  {
    PrependRun(s, l, ss, ls);
    assert ([s] + ss)[|[l] + ls|] == ss[|ls|];
  }

  // From a light state the next generation can always be reached.
  lemma CanRestart(s: State) returns (ss: seq<State>, ls: seq<Label>)
    requires Inv(s) && s.mode.Stopping? && Up(s) && Light(s)
    ensures EndsInRestart(s, ss, ls)
    decreases Rank(s)
  {
    if d: nat :| d < |s.colls| && !s.colls[d].phase.Exited? {
      var l, s' := LightGoesOn(s, d);
      ss, ls := CanRestart(s');
      RestartsLater(s, l, s', ss, ls);
      ss, ls := [s] + ss, [l] + ls;
    } else {
      RestartsNow(s);
      ss, ls := [s, Apply(s, Restart)], [Restart];
    }
  }

  // ---- an overloaded collector can get wedged ----

  // Its dispatcher has not left its loop.
  predicate Dispatching(s: State, d: nat) {
    d < |s.colls| && (s.colls[d].phase.Created? || s.colls[d].phase.Running?)
  }

  // The steps of its that keep the total: of the dispatcher, of workers going home, of senders.
  predicate FillsUp(s: State, l: Label, d: nat) {
    || GoesHome(l, d)
    || (l.Submit? && AtCurrent(s, l.r) && NextTask(s, l.r).db == d)
    || (l.Inner? && l.d == d && (l.act.Start? || l.act == C.Spawn(true) || l.act.Receive? || l.act.Enqueue?))
  }

  // Its next step; with nothing in hand or inbox, a sender is next.
  lemma OverloadedMoves(s: State, d: nat, bg: bool) returns (l: Label)
    requires Inv(s) && s.mode.Stopping? && Up(s)
    requires Dispatching(s, d) && Overloaded(s, d, bg) && !Wedged(s.colls[d])
    ensures Enabled(s, l) && FillsUp(s, l, d)
  {
    var c := s.colls[d];
    assert CollectorOk(c, s.limits[d], false);
    if c.phase.Created? {
      l := Inner(d, C.Start);
    } else if c.hand.Spawning? {
      l := Inner(d, C.Spawn(true));
    } else if c.hand.Picked? {
      if P.Full(C.Get(c, C.ToBackground(c, c.hand.t))) {
        l := WorkerGoesHome(s, d, C.ToBackground(c, c.hand.t));
      } else {
        l := Inner(d, C.Enqueue);
      }
    } else if c.inbox != [] {
      l := Inner(d, C.Receive);
    } else {
      var r := SomebodyWaits(s.reqs, s.gen, d, HasBg(c), bg);
      l := Submit(r);
    }
  }

  lemma DispatchKeepsLoad(c: C.Collector, a: C.Act, bg: bool)
    requires C.Inv(c) && C.Can(c, a, true) && (a.Start? || a == C.Spawn(true) || a.Receive? || a.Enqueue?)
    ensures var c' := C.Do(c, a, true);
      && Load(c', bg) == Load(c, bg) && HasBg(c') == HasBg(c)
      && (c'.phase == c.phase || c'.phase.Running?)
  {
    C.DoKeepsInv(c, a, true);
    match a
    case Start =>
    case Receive => ReceiveKeepsLoad(c, bg);
    case Enqueue => EnqueueKeepsLoad(c, bg);
    case Spawn(found) => SpawnKeepsLoad(c, found, bg);
  }

  lemma MoveKeepsLoad(c: C.Collector, b: bool, m: P.Move, bg: bool)
    requires P.CanMove(C.Get(c, b), m) && !m.Taking?
    ensures var c' := C.Set(c, b, P.DoMove(C.Get(c, b), m));
      Load(c', bg) == Load(c, bg) && HasBg(c') == HasBg(c) && c'.phase == c.phase
  {
    SetLoad(c, b, P.DoMove(C.Get(c, b), m), bg);
  }

  lemma InnerFillingKeepsTotal(s: State, act: C.Act, s': State, d: nat, bg: bool)
    requires CollectorsOk(s) && s.mode.Stopping? && Dispatching(s, d)
    requires Enabled(s, Inner(d, act)) && FillsUp(s, Inner(d, act), d) && s' == Apply(s, Inner(d, act))
    ensures Dispatching(s', d) && Total(s', d, bg) == Total(s, d, bg)
  {
    if act.Worker? {
      MoveKeepsLoad(s.colls[d], act.bg, act.move, bg);
    } else {
      assert CollectorOk(s.colls[d], s.limits[d], false);
      DispatchKeepsLoad(s.colls[d], act, bg);
    }
    CollectorKeepsTotal(s, d, C.Do(s.colls[d], act, true), s', d, bg);
  }

  lemma DropKeepsDispatching(s: State, b: bool, t: Task, s': State, d: nat)
    requires Enabled(s, Drop(d, b, t)) && s' == Apply(s, Drop(d, b, t)) && Dispatching(s, d)
    ensures Dispatching(s', d)
  {
    C.FinishKeeps(s.colls[d], b, t);
  }

  lemma FillingKeepsTotal(s: State, l: Label, s': State, d: nat, bg: bool)
    requires CollectorsOk(s) && s.mode.Stopping? && Dispatching(s, d)
    requires Enabled(s, l) && FillsUp(s, l, d) && s' == Apply(s, l)
    ensures Dispatching(s', d) && Total(s', d, bg) == Total(s, d, bg)
  {
    match l
    case Submit(r) => SubmitKeepsTotal(s, r, s', d, bg);
    case Drop(_, b, t) =>
      DropKeepsTotal(s, d, b, t, s', d, bg);
      DropKeepsDispatching(s, b, t, s', d);
    case Inner(_, act) => InnerFillingKeepsTotal(s, act, s', d, bg);
  }

  lemma FillingIsInside(s: State, l: Label, s': State, d: nat)
    requires Enabled(s, l) && FillsUp(s, l, d) && s' == Apply(s, l)
    ensures !FromOutside(l) && s'.mode == s.mode && (Up(s) ==> Up(s'))
  {
  }

  lemma OverloadedGoesOn(s: State, d: nat, bg: bool) returns (l: Label, s': State)
    requires Inv(s) && s.mode.Stopping? && Up(s)
    requires Dispatching(s, d) && Overloaded(s, d, bg) && !Wedged(s.colls[d])
    ensures Enabled(s, l) && !l.Restart? && s' == Apply(s, l) && Inv(s') && Rank(s') < Rank(s)
    ensures s'.mode.Stopping? && Up(s') && Dispatching(s', d) && Overloaded(s', d, bg)
  {
    l := OverloadedMoves(s, d, bg);
    s' := Apply(s, l);
    FillingIsInside(s, l, s', d);
    FillingKeepsTotal(s, l, s', d, bg);
    StepOn(s, l, s');
  }

  // A run without a new generation at whose end the dispatcher is wedged.
  ghost predicate EndsWedged(s: State, ss: seq<State>, ls: seq<Label>, d: nat) {
    && IsRun(ss, ls) && ss[0] == s && NoRestart(ls)
    && Inv(ss[|ls|]) && Up(ss[|ls|]) && WedgedAt(ss[|ls|].colls, d)
  }

  lemma WedgedNow(s: State, d: nat)
    requires Inv(s) && Up(s) && WedgedAt(s.colls, d)
    ensures EndsWedged(s, [s], [], d)
  {
  }

  lemma WedgedLater(s: State, l: Label, s': State, ss: seq<State>, ls: seq<Label>, d: nat)
    requires Enabled(s, l) && !l.Restart? && s' == Apply(s, l) && EndsWedged(s', ss, ls, d)
    ensures EndsWedged(s, [s] + ss, [l] + ls, d)
  {
    PrependRun(s, l, ss, ls);
    assert ([s] + ss)[|[l] + ls|] == ss[|ls|];
  }

  // A stopped generation with an overloaded collector can get wedged.
  lemma OverloadWedges(s: State, d: nat, bg: bool) returns (ss: seq<State>, ls: seq<Label>)
    requires Inv(s) && s.mode.Stopping? && Up(s) && Dispatching(s, d) && Overloaded(s, d, bg)
    ensures EndsWedged(s, ss, ls, d)
    decreases Rank(s)
  {
    if Wedged(s.colls[d]) {
      WedgedNow(s, d);
      ss, ls := [s], [];
    } else {
      var l, s' := OverloadedGoesOn(s, d, bg);
      ss, ls := OverloadWedges(s', d, bg);
      WedgedLater(s, l, s', ss, ls, d);
      ss, ls := [s] + ss, [l] + ls;
    }
  }

  // No continuation ever starts a new generation.
  ghost predicate NeverRestarts(s: State) {
    forall ss, ls :: IsRun(ss, ls) && ss[0] == s ==> NoRestart(ls)
  }

  // The current generation can come to a point, without a panic, from which no other one
  // ever follows.
  ghost predicate CanHang(s: State) {
    exists ss: seq<State>, ls: seq<Label> ::
      IsRun(ss, ls) && ss[0] == s && NoRestart(ls) && Up(ss[|ls|]) && NeverRestarts(ss[|ls|])
  }

  lemma WedgedNeverRestarts(s: State, d: nat)
    requires Inv(s) && WedgedAt(s.colls, d)
    ensures NeverRestarts(s)
  {
    forall ss, ls | IsRun(ss, ls) && ss[0] == s ensures NoRestart(ls) {
      WedgedForEver(ss, ls, d, |ls|);
    }
  }

  lemma LightNeverHangs(s: State)
    requires Inv(s) && s.mode.Stopping? && Light(s)
    ensures !CanHang(s)
  {
    forall ss: seq<State>, ls: seq<Label> | IsRun(ss, ls) && ss[0] == s && NoRestart(ls) && Up(ss[|ls|])
      ensures !NeverRestarts(ss[|ls|])
    {
      StoppedRunStaysLight(ss, ls, |ls|);
      var ss', ls' := CanRestart(ss[|ls|]);
      assert !NoRestart(ls');
    }
  }

  // A reload can hang exactly if, when the configuration arrives, there are more tasks for
  // one pool of a collector that are not with a worker, whether already inside the collector
  // or with a sender that waits for its inbox, than the pool's queue has places.
  lemma ReloadHangsExactly(s: State, next: seq<C.Limits>)
    requires Inv(s) && Enabled(s, Reload(next))
    ensures CanHang(Apply(s, Reload(next))) <==> exists d: nat, bg :: Overloaded(s, d, bg)
  {
    var s' := Apply(s, Reload(next));
    StepKeepsInv(s, Reload(next));
    if d: nat, bg :| Overloaded(s, d, bg) {
      assert CollectorOk(s.colls[d], s.limits[d], true);
      assert Overloaded(s', d, bg);
      var ss, ls := OverloadWedges(s', d, bg);
      WedgedNeverRestarts(ss[|ls|], d);
    } else {
      LightAfterReload(s, next, s');
      LightNeverHangs(s');
    }
  }

  lemma LightAfterReload(s: State, next: seq<C.Limits>, s': State)
    requires Light(s) && Enabled(s, Reload(next)) && s' == Apply(s, Reload(next))
    ensures Light(s')
  {
    forall d: nat, bg ensures !Overloaded(s', d, bg) {
      assert !Overloaded(s, d, bg);
    }
  }

  // Otherwise it comes to its end by itself: it cannot rest before the new generation can
  // start.
  lemma LightReloadEnds(s: State, next: seq<C.Limits>, ss: seq<State>, ls: seq<Label>)
    requires Inv(s) && Enabled(s, Reload(next)) && Light(s)
    requires IsRun(ss, ls) && ss[0] == Apply(s, Reload(next)) && NoRestart(ls) && Up(ss[|ls|])
    requires forall l :: WindsDown(l) ==> !Enabled(ss[|ls|], l)
    ensures Enabled(ss[|ls|], Restart)
  {
    StepKeepsInv(s, Reload(next));
    LightAfterReload(s, next, ss[0]);
    StoppedRunStaysLight(ss, ls, |ls|);
    var end := ss[|ls|];
    forall d | 0 <= d < |end.colls| ensures !Wedged(end.colls[d]) {
      LightIsNotWedged(end, d);
    }
    ReloadOutcome(end);
  }
}
