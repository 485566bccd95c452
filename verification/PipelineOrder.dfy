/**
 The order in which the tasks of one work queue are started.
 */
module PipelineOrder {
  import opened Tasks
  import opened Pipeline
  import opened PipelineSafety
  import P = Pools
  import C = Collectors
  import R = Requests

  // The dispatcher of database d puts t on one of its work queues.
  predicate Puts(s: State, l: Label, d: nat, bg: bool, t: Task) {
    && l == Inner(d, C.Enqueue) && d < |s.colls|
    && s.colls[d].hand == C.Picked(t) && C.ToBackground(s.colls[d], t) == bg
  }

  // A worker takes t, the head of its queue.
  predicate TakesHead(c: C.Collector, a: C.Act, bg: bool, t: Task) {
    a == C.Worker(bg, P.Taking) && var q := C.Get(c, bg).queue; q != [] && q[0] == t
  }

  predicate Takes(s: State, l: Label, d: nat, bg: bool, t: Task) {
    l.Inner? && l.d == d && d < |s.colls| && TakesHead(s.colls[d], l.act, bg, t)
  }

  // t waits in front of u.
  predicate Before(q: seq<Task>, t: Task, u: Task) {
    exists x, y :: 0 <= x < y < |q| && q[x] == t && q[y] == u
  }

  lemma LastComesAfter(q: seq<Task>, t: Task, u: Task)
    requires t in q
    ensures Before(q + [u], t, u)
  {
    var x :| 0 <= x < |q| && q[x] == t;
    assert (q + [u])[x] == t && (q + [u])[|q|] == u;
  }

  lemma ShorterKeepsOrder(q: seq<Task>, t: Task, u: Task)
    requires q != [] && Before(q, t, u) && q[0] != t
    ensures Before(q[1..], t, u)
  {
    var x, y :| 0 <= x < y < |q| && q[x] == t && q[y] == u;
    assert q[1..][x - 1] == t && q[1..][y - 1] == u;
  }

  lemma LongerKeepsOrder(q: seq<Task>, v: Task, t: Task, u: Task)
    requires Before(q, t, u)
    ensures Before(q + [v], t, u)
  {
    var x, y :| 0 <= x < y < |q| && q[x] == t && q[y] == u;
    assert (q + [v])[x] == t && (q + [v])[y] == u;
  }

  lemma Twice(q: seq<Task>, t: Task, u: Task)
    requires Before(q, t, u) && q[0] == u
    ensures multiset(q)[u] >= 2
  {
    var x, y :| 0 <= x < y < |q| && q[x] == t && q[y] == u;
    assert q == [u] + q[1..y] + [u] + q[y + 1..];
  }

  // ---- steps of one collector ----

  predicate Queued(c: C.Collector, bg: bool, t: Task) {
    c.phase.Exited? || t in C.Get(c, bg).queue
  }

  predicate Ordered(c: C.Collector, bg: bool, t: Task, u: Task) {
    c.phase.Exited? || Before(C.Get(c, bg).queue, t, u)
  }

  lemma ActsBeforeExit(c: C.Collector, a: C.Act, stopping: bool)
    requires C.Inv(c) && C.Can(c, a, stopping)
    ensures !c.phase.Exited?
  {
  }

  // A work queue grows at its end and shrinks at its front, until its collector is gone.
  lemma QueueOfStep(c: C.Collector, a: C.Act, stopping: bool, bg: bool)
    requires C.Inv(c) && C.Can(c, a, stopping)
    ensures var q, q' := C.Get(c, bg).queue, C.Get(C.Do(c, a, stopping), bg).queue;
      || C.Do(c, a, stopping).phase.Exited?
      || (a == C.Worker(bg, P.Taking) && q != [] && q' == q[1..])
      || (a != C.Worker(bg, P.Taking) && ((exists u :: q' == q + [u]) || q' == q))
  {
    if a.Enqueue? && C.ToBackground(c, c.hand.t) == bg {
      assert C.Get(C.Do(c, a, stopping), bg).queue == C.Get(c, bg).queue + [c.hand.t];
    }
  }

  lemma StepKeepsQueued(c: C.Collector, a: C.Act, stopping: bool, bg: bool, t: Task)
    requires C.Inv(c) && C.Can(c, a, stopping) && Queued(c, bg, t) && !TakesHead(c, a, bg, t)
    ensures Queued(C.Do(c, a, stopping), bg, t)
  {
    ActsBeforeExit(c, a, stopping);
    QueueOfStep(c, a, stopping, bg);
    var q := C.Get(c, bg).queue;
    assert q == [q[0]] + q[1..];
  }

  lemma StepKeepsOrder(c: C.Collector, a: C.Act, stopping: bool, bg: bool, t: Task, u: Task)
    requires C.Inv(c) && C.Can(c, a, stopping) && Ordered(c, bg, t, u) && !TakesHead(c, a, bg, t)
    ensures Ordered(C.Do(c, a, stopping), bg, t, u)
  {
    ActsBeforeExit(c, a, stopping);
    QueueOfStep(c, a, stopping, bg);
    var q, q' := C.Get(c, bg).queue, C.Get(C.Do(c, a, stopping), bg).queue;
    if a == C.Worker(bg, P.Taking) {
      ShorterKeepsOrder(q, t, u);
    } else if v :| q' == q + [v] {
      LongerKeepsOrder(q, v, t, u);
    }
  }

  // ---- steps of the whole pipeline ----

  predicate SameQueues(c: C.Collector, c': C.Collector) {
    c'.phase == c.phase && c'.std.queue == c.std.queue && c'.bg.queue == c.bg.queue
  }

  lemma WorkKeepsQueues(c: C.Collector, b: bool, t: Task)
    requires t in C.Get(c, b).taken || t in C.Get(c, b).querying
    ensures SameQueues(c, C.Finish(c, b, t))
    ensures t in C.Get(c, b).taken ==> SameQueues(c, C.Begin(c, b, t))
  {
  }

  lemma OneChanges(cs: seq<C.Collector>, e: nat, c: C.Collector, d: nat)
    requires e < |cs| && d < |cs| && SameQueues(cs[e], c)
    ensures SameQueues(cs[d], cs[e := c][d])
  {
  }

  // Within a generation only a step of its own dispatcher and idle workers changes a
  // collector's queues.
  lemma OthersKeepQueues(s: State, l: Label, s': State, d: nat)
    requires Enabled(s, l) && !l.Restart? && !l.Inner? && s' == Apply(s, l) && d < |s.colls|
    ensures |s'.colls| == |s.colls| && SameQueues(s.colls[d], s'.colls[d])
  {
    match l
    case Begin(e, b, t) =>
      WorkKeepsQueues(s.colls[e], b, t);
      OneChanges(s.colls, e, C.Begin(s.colls[e], b, t), d);
    case Deliver(e, b, t, _) =>
      WorkKeepsQueues(s.colls[e], b, t);
      OneChanges(s.colls, e, C.Finish(s.colls[e], b, t), d);
    case Drop(e, b, t) =>
      WorkKeepsQueues(s.colls[e], b, t);
      OneChanges(s.colls, e, C.Finish(s.colls[e], b, t), d);
    case Submit(r) =>
      var t := NextTask(s, r);
      OneChanges(s.colls, t.db, C.Accept(s.colls[t.db], t), d);
    case _ =>
  }

  lemma CollectorOfStep(s: State, l: Label, s': State, d: nat)
    requires Enabled(s, l) && !l.Restart? && s' == Apply(s, l) && d < |s.colls|
    ensures |s'.colls| == |s.colls|
    ensures if l.Inner? && l.d == d then s'.colls[d] == C.Do(s.colls[d], l.act, s.mode.Stopping?)
            else SameQueues(s.colls[d], s'.colls[d])
  {
    if !l.Inner? {
      OthersKeepQueues(s, l, s', d);
    }
  }

  lemma QueuedAfterStep(s: State, l: Label, s': State, d: nat, bg: bool, t: Task)
    requires CollectorsOk(s) && Enabled(s, l) && !l.Restart? && s' == Apply(s, l) && d < |s.colls|
    requires Queued(s.colls[d], bg, t) && !Takes(s, l, d, bg, t)
    ensures d < |s'.colls| && Queued(s'.colls[d], bg, t)
  {
    CollectorOfStep(s, l, s', d);
    if l.Inner? && l.d == d {
      assert CollectorOk(s.colls[d], s.limits[d], s.mode.Live?);
      StepKeepsQueued(s.colls[d], l.act, s.mode.Stopping?, bg, t);
    }
  }

  lemma OrderedAfterStep(s: State, l: Label, s': State, d: nat, bg: bool, t: Task, u: Task)
    requires CollectorsOk(s) && Enabled(s, l) && !l.Restart? && s' == Apply(s, l) && d < |s.colls|
    requires Ordered(s.colls[d], bg, t, u) && !Takes(s, l, d, bg, t)
    ensures d < |s'.colls| && Ordered(s'.colls[d], bg, t, u)
  {
    CollectorOfStep(s, l, s', d);
    if l.Inner? && l.d == d {
      assert CollectorOk(s.colls[d], s.limits[d], s.mode.Live?);
      StepKeepsOrder(s.colls[d], l.act, s.mode.Stopping?, bg, t, u);
    }
  }

  // What is put on a queue comes after all that wait there.
  lemma PutComesLast(s: State, l: Label, s': State, d: nat, bg: bool, u: Task)
    requires CollectorsOk(s) && Enabled(s, l) && s' == Apply(s, l) && Puts(s, l, d, bg, u)
    ensures d < |s'.colls| && Queued(s'.colls[d], bg, u)
    ensures forall t :: Queued(s.colls[d], bg, t) ==> Ordered(s'.colls[d], bg, t, u)
  {
    CollectorOfStep(s, l, s', d);
    var q := C.Get(s.colls[d], bg).queue;
    assert CollectorOk(s.colls[d], s.limits[d], s.mode.Live?);
    ActsBeforeExit(s.colls[d], l.act, s.mode.Stopping?);
    assert C.Get(s'.colls[d], bg).queue == q + [u];
    forall t | t in q ensures Before(q + [u], t, u) {
      LastComesAfter(q, t, u);
    }
  }

  // ---- runs ----

  // No new generation starts from step i on, before step n.
  predicate SameGeneration(ls: seq<Label>, i: nat, n: nat)
    requires n <= |ls|
  {
    forall m :: i <= m < n ==> !ls[m].Restart?
  }

  // Nor is t taken.
  predicate Undisturbed(ss: seq<State>, ls: seq<Label>, i: nat, n: nat, d: nat, bg: bool, t: Task)
    requires |ss| == |ls| + 1 && n <= |ls|
  {
    forall m :: i <= m < n ==> !ls[m].Restart? && !Takes(ss[m], ls[m], d, bg, t)
  }

  lemma QueuedInRun(ss: seq<State>, ls: seq<Label>, n: nat, d: nat, bg: bool, t: Task)
    requires IsRun(ss, ls) && Inv(ss[0]) && n < |ls| && !ls[n].Restart? && !Takes(ss[n], ls[n], d, bg, t)
    requires d < |ss[n].colls| && Queued(ss[n].colls[d], bg, t)
    ensures d < |ss[n + 1].colls| && Queued(ss[n + 1].colls[d], bg, t)
  {
    RunKeepsInv(ss, ls, n);
    QueuedAfterStep(ss[n], ls[n], ss[n + 1], d, bg, t);
  }

  lemma OrderedInRun(ss: seq<State>, ls: seq<Label>, n: nat, d: nat, bg: bool, t: Task, u: Task)
    requires IsRun(ss, ls) && Inv(ss[0]) && n < |ls| && !ls[n].Restart? && !Takes(ss[n], ls[n], d, bg, t)
    requires d < |ss[n].colls| && Ordered(ss[n].colls[d], bg, t, u)
    ensures d < |ss[n + 1].colls| && Ordered(ss[n + 1].colls[d], bg, t, u)
  {
    RunKeepsInv(ss, ls, n);
    OrderedAfterStep(ss[n], ls[n], ss[n + 1], d, bg, t, u);
  }

  // A task on a queue stays there until it is taken.
  lemma {:induction false} StaysQueued(ss: seq<State>, ls: seq<Label>, i: nat, n: nat, d: nat, bg: bool, t: Task)
    requires IsRun(ss, ls) && Inv(ss[0]) && i <= n <= |ls| && Undisturbed(ss, ls, i, n, d, bg, t)
    requires d < |ss[i].colls| && Queued(ss[i].colls[d], bg, t)
    ensures d < |ss[n].colls| && Queued(ss[n].colls[d], bg, t)
    decreases n - i
  {
    if i < n {
      QueuedInRun(ss, ls, i, d, bg, t);
      StaysQueued(ss, ls, i + 1, n, d, bg, t);
    }
  }

  // And others stay behind it.
  lemma {:induction false} StaysInOrder(ss: seq<State>, ls: seq<Label>, i: nat, n: nat,
                                           d: nat, bg: bool, t: Task, u: Task)
    requires IsRun(ss, ls) && Inv(ss[0]) && i <= n <= |ls| && Undisturbed(ss, ls, i, n, d, bg, t)
    requires d < |ss[i].colls| && Ordered(ss[i].colls[d], bg, t, u)
    ensures d < |ss[n].colls| && Ordered(ss[n].colls[d], bg, t, u)
    decreases n - i
  {
    if i < n {
      OrderedInRun(ss, ls, i, d, bg, t, u);
      StaysInOrder(ss, ls, i + 1, n, d, bg, t, u);
    }
  }

  lemma PutInRun(ss: seq<State>, ls: seq<Label>, i: nat, d: nat, bg: bool, u: Task)
    requires IsRun(ss, ls) && Inv(ss[0]) && i < |ls| && Puts(ss[i], ls[i], d, bg, u)
    ensures d < |ss[i + 1].colls| && Queued(ss[i + 1].colls[d], bg, u)
    ensures forall t :: Queued(ss[i].colls[d], bg, t) ==> Ordered(ss[i + 1].colls[d], bg, t, u)
  {
    RunKeepsInv(ss, ls, i);
    PutComesLast(ss[i], ls[i], ss[i + 1], d, bg, u);
  }

  lemma NoneTwice(s: State, d: nat, bg: bool, t: Task, u: Task)
    requires Inv(s) && d < |s.colls| && Before(C.Get(s.colls[d], bg).queue, t, u)
    ensures C.Get(s.colls[d], bg).queue[0] != u
  {
    if C.Get(s.colls[d], bg).queue[0] == u {
      Twice(C.Get(s.colls[d], bg).queue, t, u);
      assert C.Count(s.colls[d], u) >= 2;
      assert Accounted(s, u);
      R.DistinctPairs(s.reqs[u.req], u.req, u);
    }
  }

  // Of two tasks put on one work queue by the same generation, the second is taken only
  // after the first.
  lemma WorkQueueIsFifo(limits: seq<C.Limits>, ss: seq<State>, ls: seq<Label>, i: nat, j: nat, k: nat,
                        d: nat, bg: bool, t: Task, u: Task)
    requires IsRun(ss, ls) && ss[0] == Init(limits) && i < j < k < |ls|
    requires Puts(ss[i], ls[i], d, bg, t) && Puts(ss[j], ls[j], d, bg, u) && Takes(ss[k], ls[k], d, bg, u)
    requires SameGeneration(ls, i, k)
    ensures exists m :: i < m < k && Takes(ss[m], ls[m], d, bg, t)
  {
    InitInv(limits);
    RunKeepsInv(ss, ls, k);
    if Undisturbed(ss, ls, i + 1, k, d, bg, t) {
      PutInRun(ss, ls, i, d, bg, t);
      StaysQueued(ss, ls, i + 1, j, d, bg, t);
      PutInRun(ss, ls, j, d, bg, u);
      StaysInOrder(ss, ls, j + 1, k, d, bg, t, u);
      assert CollectorOk(ss[k].colls[d], ss[k].limits[d], ss[k].mode.Live?);
      ActsBeforeExit(ss[k].colls[d], ls[k].act, ss[k].mode.Stopping?);
      NoneTwice(ss[k], d, bg, t, u);
    }
  }
}
