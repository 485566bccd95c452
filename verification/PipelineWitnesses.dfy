/**
 Concrete runs of the pipeline that show where its guarantees end: a reload that never
 finishes, once because of tasks inside the collector and once because of senders at its
 inbox; a send on a closed result channel after a timeout; and a task stranded in a queue
 because a new worker was refused while the last one was on its way out.
 */
module PipelineWitnesses {
  import opened Tasks
  import opened Pipeline
  import opened PipelineSafety
  import opened PipelineGuarantees
  import opened PipelineProgress
  import opened PipelineReload
  import P = Pools
  import C = Collectors
  import R = Requests

  ghost predicate Reaches(s: State, s': State) {
    exists ss, ls :: IsRun(ss, ls) && ss[0] == s && ss[|ls|] == s'
  }

  lemma ReachesItself(s: State)
    ensures Reaches(s, s)
  {
    assert IsRun([s], []);
  }

  lemma ReachesNext(s: State, s': State, l: Label)
    requires Reaches(s, s') && Enabled(s', l)
    ensures Reaches(s, Apply(s', l))
  {
    var ss, ls :| IsRun(ss, ls) && ss[0] == s && ss[|ls|] == s';
    var ss', ls' := ss + [Apply(s', l)], ls + [l];
    forall i | 0 <= i < |ls'| ensures Enabled(ss'[i], ls'[i]) && ss'[i + 1] == Apply(ss'[i], ls'[i]) {
      if i < |ls| {
        assert Enabled(ss[i], ls[i]) && ss[i + 1] == Apply(ss[i], ls[i]);
      }
    }
    assert IsRun(ss', ls');
  }

  // ---- one database with one standard worker, and one request with n tasks for it ----

  const ONE := [C.Limits(1, 0)]

  function Zeros(n: nat): seq<nat> {
    seq(n, i => 0)
  }

  function TheTasks(n: nat): seq<Task> {
    R.NewPairs(0, false, Zeros(n))
  }

  function Sent(n: nat, k: nat): R.Request {
    R.NewRequest(0, false, false, Zeros(n)).(next := k, scheduled := k)
  }

  function One(c: C.Collector, r: R.Request): State {
    State(Live, 0, ONE, [c], [r], multiset{}, multiset{}, false, false)
  }

  function Coll(inbox: seq<Task>, hand: C.Hand, std: P.Pool): C.Collector {
    C.Collector(C.Running, inbox, hand, std, P.NewPool(0))
  }

  lemma Begins(n: nat)
    ensures Reaches(Init(ONE), One(Coll([], C.Waiting, P.NewPool(1)), Sent(n, 0)))
  {
    var s0 := Init(ONE);
    ReachesItself(s0);
    ReachesNext(s0, s0, Arrive(false, false, Zeros(n)));
    var s1 := Apply(s0, Arrive(false, false, Zeros(n)));
    ReachesNext(s0, s1, Inner(0, C.Start));
    assert Apply(s1, Inner(0, C.Start)) == One(Coll([], C.Waiting, P.NewPool(1)), Sent(n, 0));
  }

  lemma CollectorMoves(c: C.Collector, r: R.Request, act: C.Act)
    requires Reaches(Init(ONE), One(c, r)) && C.Can(c, act, false) && !act.Exit?
    ensures Reaches(Init(ONE), One(C.Do(c, act, false), r))
  {
    var s := One(c, r);
    ReachesNext(Init(ONE), s, Inner(0, act));
    assert [c][0 := C.Do(c, act, false)] == [C.Do(c, act, false)];
  }

  lemma RequestMoves(c: C.Collector, r: R.Request, move: R.Act)
    requires Reaches(Init(ONE), One(c, r)) && R.Can(r, move)
    ensures Reaches(Init(ONE), One(c, R.Do(r, move)))
  {
    ReachesNext(Init(ONE), One(c, r), Alone(0, move));
    assert [r][0 := R.Do(r, move)] == [R.Do(r, move)];
  }

  lemma TaskMoves(c: C.Collector, r: R.Request)
    requires Reaches(Init(ONE), One(c, r)) && r.phase.Sending? && r.next < |r.pairs| && r.pairs[r.next].db == 0
    requires r.inside.None? && c.phase.Running? && c.inbox == []
    ensures Reaches(Init(ONE), One(C.Accept(c, r.pairs[r.next]), R.Sent(r)))
  {
    var entered := R.Entered(r, 0);
    ReachesNext(Init(ONE), One(c, r), Enter(0));
    assert Apply(One(c, r), Enter(0)) == One(c, entered);
    SubmitMoves(c, r, entered);
  }

  lemma SubmitMoves(c: C.Collector, r: R.Request, entered: R.Request)
    requires r.phase.Sending? && r.next < |r.pairs| && r.pairs[r.next].db == 0 && r.inside.None?
    requires entered == R.Entered(r, 0) && Reaches(Init(ONE), One(c, entered))
    requires c.phase.Running? && c.inbox == []
    ensures Reaches(Init(ONE), One(C.Accept(c, r.pairs[r.next]), R.Sent(r)))
  {
    var c' := C.Accept(c, r.pairs[r.next]);
    ReachesNext(Init(ONE), One(c, entered), Submit(0));
    assert R.Sent(entered) == R.Sent(r) && NextTask(One(c, entered), 0) == r.pairs[r.next];
    assert [c][0 := c'] == [c'] && [entered][0 := R.Sent(r)] == [R.Sent(r)];
  }

  lemma RequestSteps(n: nat, k: nat)
    requires k < n
    ensures var r := Sent(n, k); r.next == k && |r.pairs| == n && r.phase.Sending?
    ensures Sent(n, k).pairs == TheTasks(n) && TheTasks(n)[k] == Task(0, k, 0, false)
    ensures R.Sent(Sent(n, k)) == Sent(n, k + 1)
  {
  }

  lemma InboxSteps(t: Task, p: P.Pool)
    ensures C.Accept(Coll([], C.Waiting, p), t) == Coll([t], C.Waiting, p)
    ensures C.Do(Coll([t], C.Waiting, p), C.Receive, false) == Coll([], C.Picked(t), p)
  {
  }

  lemma QueueSteps(t: Task, p: P.Pool)
    requires !t.job && !P.Full(p)
    ensures C.Do(Coll([], C.Picked(t), p), C.Enqueue, false) == Coll([], C.Spawning(false), P.Enqueue(p, t))
  {
  }

  lemma SpawnSteps(p: P.Pool)
    ensures C.Do(Coll([], C.Spawning(false), p), C.Spawn(true), false) == Coll([], C.Waiting, P.Spawn(p, true))
  {
  }

  lemma WorkerSteps(p: P.Pool, m: P.Move)
    requires P.CanMove(p, m)
    ensures C.Do(Coll([], C.Waiting, p), C.Worker(false, m), false) == Coll([], C.Waiting, P.DoMove(p, m))
  {
  }

  predicate SendsOn(r: R.Request) {
    && r.phase.Sending? && r.next < |r.pairs| && r.inside.None?
    && r.pairs[r.next].db == 0 && !r.pairs[r.next].job
  }

  // The dispatcher takes the next task out of the inbox.
  lemma Receives(r: R.Request, p: P.Pool)
    requires SendsOn(r) && Reaches(Init(ONE), One(Coll([], C.Waiting, p), r))
    ensures Reaches(Init(ONE), One(Coll([], C.Picked(r.pairs[r.next]), p), R.Sent(r)))
  {
    var t := r.pairs[r.next];
    InboxSteps(t, p);
    TaskMoves(Coll([], C.Waiting, p), r);
    CollectorMoves(Coll([t], C.Waiting, p), R.Sent(r), C.Receive);
  }

  // It puts the task on the standard queue and asks for a worker.
  lemma Dispatches(r: R.Request, p: P.Pool)
    requires SendsOn(r) && !P.Full(p) && Reaches(Init(ONE), One(Coll([], C.Waiting, p), r))
    ensures Reaches(Init(ONE), One(Coll([], C.Waiting, P.Spawn(P.Enqueue(p, r.pairs[r.next]), true)), R.Sent(r)))
  {
    var t := r.pairs[r.next];
    Receives(r, p);
    QueueSteps(t, p);
    CollectorMoves(Coll([], C.Picked(t), p), R.Sent(r), C.Enqueue);
    SpawnSteps(P.Enqueue(p, t));
    CollectorMoves(Coll([], C.Spawning(false), P.Enqueue(p, t)), R.Sent(r), C.Spawn(true));
  }

  lemma WorkerMoves(r: R.Request, p: P.Pool, m: P.Move)
    requires P.CanMove(p, m) && Reaches(Init(ONE), One(Coll([], C.Waiting, p), r))
    ensures Reaches(Init(ONE), One(Coll([], C.Waiting, P.DoMove(p, m)), r))
  {
    WorkerSteps(p, m);
    CollectorMoves(Coll([], C.Waiting, p), r, C.Worker(false, m));
  }

  // The pool with its one worker busy with t.
  function Working(t: Task): P.Pool {
    P.Pool(1, [], 0, 0, multiset{t}, multiset{})
  }

  function Asking(t: Task): P.Pool {
    P.Pool(1, [], 0, 0, multiset{}, multiset{t})
  }

  lemma FirstWork(t: Task)
    ensures var p := Queued(t); P.CanMove(p, P.Taking) && P.DoMove(p, P.Taking) == Working(t)
  {
  }

  function Queued(t: Task): P.Pool {
    P.Spawn(P.Enqueue(P.NewPool(1), t), true)
  }

  lemma FirstIsQueued(n: nat)
    requires n > 0
    ensures Reaches(Init(ONE), One(Coll([], C.Waiting, Queued(TheTasks(n)[0])), Sent(n, 1)))
  {
    Begins(n);
    RequestSteps(n, 0);
    Dispatches(Sent(n, 0), P.NewPool(1));
  }

  lemma FirstIsTaken(n: nat)
    requires n > 0
    ensures Reaches(Init(ONE), One(Coll([], C.Waiting, Working(TheTasks(n)[0])), Sent(n, 1)))
  {
    FirstIsQueued(n);
    FirstWork(TheTasks(n)[0]);
    WorkerMoves(Sent(n, 1), Queued(TheTasks(n)[0]), P.Taking);
  }

  lemma FirstIsAsked(n: nat)
    requires n > 0
    ensures Reaches(Init(ONE), One(Coll([], C.Waiting, Asking(TheTasks(n)[0])), Sent(n, 1)))
  {
    var t := TheTasks(n)[0];
    FirstIsTaken(n);
    var s := One(Coll([], C.Waiting, Working(t)), Sent(n, 1));
    ReachesNext(Init(ONE), s, Begin(0, false, t));
    assert P.Begin(Working(t), t) == Asking(t);
    assert Apply(s, Begin(0, false, t)) == One(Coll([], C.Waiting, Asking(t)), Sent(n, 1));
  }

  // ---- a reload that hangs: twelve tasks for one worker ----

  // The only worker has the first task, the next k - 1 tasks wait in its queue.
  function Busy(k: nat): P.Pool
    requires 1 <= k <= 12
  {
    P.Pool(1, TheTasks(12)[1..k], 0, 0, multiset{TheTasks(12)[0]}, multiset{})
  }

  lemma BusyGrows(k: nat)
    requires 1 <= k <= 10
    ensures !P.Full(Busy(k)) && P.Spawn(P.Enqueue(Busy(k), TheTasks(12)[k]), true) == Busy(k + 1)
  {
  }

  lemma {:induction false} QueueFills(k: nat)
    requires 1 <= k <= 11
    ensures Reaches(Init(ONE), One(Coll([], C.Waiting, Busy(k)), Sent(12, k)))
  {
    if k == 1 {
      FirstIsTaken(12);
      assert Busy(1) == Working(TheTasks(12)[0]);
    } else {
      QueueFills(k - 1);
      BusyGrows(k - 1);
      RequestSteps(12, k - 1);
      Dispatches(Sent(12, k - 1), Busy(k - 1));
    }
  }

  function Blocked(mode: Mode, p: P.Pool): State {
    One(Coll([], C.Picked(TheTasks(12)[11]), p), Sent(12, 12)).(mode := mode)
  }

  // The reload cancels the generation; the worker drops its task and leaves, and nobody is
  // left to make room for the task the dispatcher holds.
  lemma WorkerDropsTask()
    requires Reaches(Init(ONE), Blocked(Stopping(ONE), Busy(11)))
    ensures Reaches(Init(ONE), Deserted(1, 0))
  {
    var t := TheTasks(12)[0];
    ReachesNext(Init(ONE), Blocked(Stopping(ONE), Busy(11)), Drop(0, false, t));
    assert Apply(Blocked(Stopping(ONE), Busy(11)), Drop(0, false, t)) == Deserted(1, 0);
  }

  // The queue is full, and its worker is idle or leaving.
  function Deserted(idle: nat, leaving: nat): State {
    Blocked(Stopping(ONE), Busy(11).(taken := multiset{}, idle := idle, leaving := leaving))
    .(dropped := multiset{TheTasks(12)[0]})
  }

  lemma LeavingDeserts()
    ensures Enabled(Deserted(1, 0), Inner(0, C.Worker(false, P.Leaving)))
    ensures Apply(Deserted(1, 0), Inner(0, C.Worker(false, P.Leaving))) == Deserted(0, 1)
  {
    var c, c' := Deserted(1, 0).colls[0], Deserted(0, 1).colls[0];
    assert C.Do(c, C.Worker(false, P.Leaving), true) == c';
    assert [c][0 := c'] == [c'];
  }

  lemma ReleasingDeserts()
    ensures Enabled(Deserted(0, 1), Inner(0, C.Worker(false, P.Releasing)))
    ensures Apply(Deserted(0, 1), Inner(0, C.Worker(false, P.Releasing))) == Deserted(0, 0)
  {
    var c, c' := Deserted(0, 1).colls[0], Deserted(0, 0).colls[0];
    assert C.Do(c, C.Worker(false, P.Releasing), true) == c';
    assert [c][0 := c'] == [c'];
  }

  lemma LastWorkerLeaves()
    requires Reaches(Init(ONE), Deserted(1, 0))
    ensures Reaches(Init(ONE), Deserted(0, 0)) && Wedged(Deserted(0, 0).colls[0])
  {
    LeavingDeserts();
    ReachesNext(Init(ONE), Deserted(1, 0), Inner(0, C.Worker(false, P.Leaving)));
    ReleasingDeserts();
    ReachesNext(Init(ONE), Deserted(0, 1), Inner(0, C.Worker(false, P.Releasing)));
  }

  lemma ReloadCanHang()
    ensures exists s :: Reaches(Init(ONE), s) && s.mode.Stopping? && |s.colls| == 1 && Wedged(s.colls[0])
  {
    QueueFills(11);
    RequestSteps(12, 11);
    Receives(Sent(12, 11), Busy(11));
    ReachesNext(Init(ONE), Blocked(Live, Busy(11)), Reload(ONE));
    assert Apply(Blocked(Live, Busy(11)), Reload(ONE)) == Blocked(Stopping(ONE), Busy(11));
    WorkerDropsTask();
    LastWorkerLeaves();
  }

  // ---- a send on a closed channel: a request times out while its query is answered ----

  function TimedOut(phase: R.Phase): R.Request {
    Sent(1, 1).(phase := phase, expired := true)
  }

  lemma TimesOut()
    ensures Reaches(Init(ONE), One(Coll([], C.Waiting, Asking(TheTasks(1)[0])), TimedOut(R.Closing(false))))
  {
    var c := Coll([], C.Waiting, Asking(TheTasks(1)[0]));
    FirstIsAsked(1);
    RequestMoves(c, Sent(1, 1), R.Expire);
    RequestMoves(c, TimedOut(R.Sending), R.StartGather);
    RequestMoves(c, TimedOut(R.Gathering), R.Abort);
  }

  lemma AbortCanPanic()
    ensures exists s :: Reaches(Init(ONE), s) && s.panicked
  {
    var t := TheTasks(1)[0];
    TimesOut();
    var s := One(Coll([], C.Waiting, Asking(t)), TimedOut(R.Closing(false)));
    ReachesNext(Init(ONE), s, Deliver(0, false, t, Success("")));
    assert Apply(s, Deliver(0, false, t, Success(""))).panicked;
  }

  // ---- a stranded task: the group is full of a worker that is about to be gone ----

  function Answering(k: nat): R.Request {
    Sent(2, k).(buffer := [Result(TheTasks(2)[0], Failure)])
  }

  function Leaving(): P.Pool {
    P.Pool(1, [], 0, 1, multiset{}, multiset{})
  }

  function Stuck(leaving: nat): P.Pool {
    P.Pool(1, TheTasks(2)[1..], 0, leaving, multiset{}, multiset{})
  }

  lemma FinishSteps(t: Task)
    ensures P.Finish(Asking(t), t) == Idling(t)
  {
  }

  lemma LeaveSteps(t: Task)
    requires t == TheTasks(2)[0]
    ensures P.DoMove(Idling(t), P.Leaving) == Leaving()
  {
  }

  function Idling(t: Task): P.Pool {
    P.Pool(1, [], 1, 0, multiset{}, multiset{})
  }

  lemma ResultSteps()
    ensures R.Receive(Sent(2, 1), Result(TheTasks(2)[0], Failure)) == Answering(1)
  {
  }

  lemma FirstIsAnswered()
    ensures Reaches(Init(ONE), One(Coll([], C.Waiting, Idling(TheTasks(2)[0])), Answering(1)))
  {
    var t := TheTasks(2)[0];
    FirstIsAsked(2);
    FinishSteps(t);
    ResultSteps();
    var s := One(Coll([], C.Waiting, Asking(t)), Sent(2, 1));
    ReachesNext(Init(ONE), s, Deliver(0, false, t, Failure));
    assert Apply(s, Deliver(0, false, t, Failure)) == One(Coll([], C.Waiting, Idling(t)), Answering(1));
  }

  lemma WorkerIsLeaving()
    ensures Reaches(Init(ONE), One(Coll([], C.Waiting, Leaving()), Answering(1)))
  {
    FirstIsAnswered();
    LeaveSteps(TheTasks(2)[0]);
    WorkerMoves(Answering(1), Idling(TheTasks(2)[0]), P.Leaving);
  }

  lemma SecondIsQueued()
    ensures Reaches(Init(ONE), One(Coll([], C.Waiting, Stuck(0)), Answering(2)))
  {
    WorkerIsLeaving();
    Dispatches(Answering(1), Leaving());
    assert P.Spawn(P.Enqueue(Leaving(), TheTasks(2)[1]), true) == Stuck(1);
    assert R.Sent(Answering(1)) == Answering(2);
    WorkerMoves(Answering(2), Stuck(1), P.Releasing);
  }

  function LeftWaiting(): R.Request {
    R.Do(Answering(2).(phase := R.Gathering), R.Gather(true))
  }

  lemma RequestWaits()
    ensures Reaches(Init(ONE), One(Coll([], C.Waiting, Stuck(0)), LeftWaiting()))
  {
    SecondIsQueued();
    var c := Coll([], C.Waiting, Stuck(0));
    RequestMoves(c, Answering(2), R.StartGather);
    RequestMoves(c, Answering(2).(phase := R.Gathering), R.Gather(true));
  }

  lemma NothingMoves(l: Label)
    ensures var s := One(Coll([], C.Waiting, Stuck(0)), LeftWaiting());
      Loose(l) && !FromOutside(l) ==> !Enabled(s, l)
  {
  }

  // The dispatcher's request for a worker is refused while the only one is on its way out,
  // and the pipeline comes to rest with the second task in the queue.
  lemma TaskCanBeStranded()
    ensures exists s :: Reaches(Init(ONE), s) && AtLooseRest(s) && !Answered(s)
  {
    RequestWaits();
    var s := One(Coll([], C.Waiting, Stuck(0)), LeftWaiting());
    forall l | Loose(l) && !FromOutside(l) ensures !Enabled(s, l) {
      NothingMoves(l);
    }
    assert !s.reqs[0].phase.Closed?;
  }

  // ---- a reload that hangs: eleven requests at one inbox ----

  function Sender(id: nat): R.Request {
    R.Entered(R.NewRequest(id, false, false, [0]), 0)
  }

  function Senders(n: nat): seq<R.Request> {
    seq(n, i requires 0 <= i < n => Sender(i))
  }

  // All of them are inside addTask, and the collector has nothing to do yet.
  function Crowd(n: nat): State {
    State(Live, 0, ONE, [Coll([], C.Waiting, P.NewPool(1))], Senders(n), multiset{}, multiset{}, false, false)
  }

  lemma CrowdBegins()
    ensures Reaches(Init(ONE), Crowd(0))
  {
    ReachesItself(Init(ONE));
    ReachesNext(Init(ONE), Init(ONE), Inner(0, C.Start));
    assert Apply(Init(ONE), Inner(0, C.Start)) == Crowd(0);
  }

  lemma CrowdArrives(n: nat)
    requires Reaches(Init(ONE), Crowd(n))
    ensures Reaches(Init(ONE), Crowd(n).(reqs := Senders(n) + [R.NewRequest(n, false, false, [0])]))
  {
    ReachesNext(Init(ONE), Crowd(n), Arrive(false, false, [0]));
  }

  lemma {:induction false} CrowdGathers(n: nat)
    ensures Reaches(Init(ONE), Crowd(n))
  {
    if n == 0 {
      CrowdBegins();
    } else {
      CrowdGathers(n - 1);
      CrowdArrives(n - 1);
      var s := Crowd(n - 1).(reqs := Senders(n - 1) + [R.NewRequest(n - 1, false, false, [0])]);
      ReachesNext(Init(ONE), s, Enter(n - 1));
      assert Apply(s, Enter(n - 1)).reqs == Senders(n);
    }
  }

  lemma {:induction false} CrowdWaits(n: nat)
    ensures Waiting(Senders(n), 0, 0, false, false) == n
  {
    if n > 0 {
      CrowdWaits(n - 1);
      assert Senders(n)[..n - 1] == Senders(n - 1);
      assert WaitsFor(Sender(n - 1), 0, 0, false, false);
    }
  }

  // The first of eleven gets its task into the inbox; the ten others wait.
  lemma CrowdSubmits(s: State)
    requires s == Apply(Crowd(11), Submit(0))
    ensures Reaches(Init(ONE), s) && s.mode.Live? && |s.colls| == 1 && Up(s)
    ensures Load(s.colls[0], false) == 1 && Load(s.colls[0], true) == 0 && Overloaded(s, 0, false)
  {
    CrowdGathers(11);
    ReachesNext(Init(ONE), Crowd(11), Submit(0));
    CrowdWaits(11);
    SubmitKeepsTotal(Crowd(11), 0, s, 0, false);
  }

  lemma ReachedIsSound(s: State)
    requires Reaches(Init(ONE), s)
    ensures Inv(s)
  {
    var ss, ls :| IsRun(ss, ls) && ss[0] == Init(ONE) && ss[|ls|] == s;
    InitialRun(ONE, ss, ls, |ls|);
  }

  // One task inside the collector is enough for a reload to hang, if ten senders wait.
  lemma CrowdCanHang()
    ensures exists s :: Reaches(Init(ONE), s) && Enabled(s, Reload(ONE)) && |s.colls| == 1
                        && Load(s.colls[0], false) + Load(s.colls[0], true) == 1
                        && CanHang(Apply(s, Reload(ONE)))
  {
    var s := Apply(Crowd(11), Submit(0));
    CrowdSubmits(s);
    ReachedIsSound(s);
    ReloadHangsExactly(s, ONE);
  }
}
