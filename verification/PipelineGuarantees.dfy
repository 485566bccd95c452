/**
 What the invariant of PipelineSafety means for tasks, result channels, responses and worker
 pools, stated for every run.
 */
module PipelineGuarantees {
  import opened Tasks
  import opened Pipeline
  import opened PipelineSafety
  import P = Pools
  import C = Collectors
  import R = Requests

  // ---- conservation ----

  lemma InitialRun(limits: seq<C.Limits>, ss: seq<State>, ls: seq<Label>, i: nat)
    requires IsRun(ss, ls) && ss[0] == Init(limits) && i < |ss|
    ensures Inv(ss[i])
  {
    InitInv(limits);
    RunKeepsInv(ss, ls, i);
  }

  // In every state of every run, a submitted or yet to be submitted task is in exactly one
  // place, once; no collector but its database's and no request but its own has it.
  lemma OnePlace(limits: seq<C.Limits>, ss: seq<State>, ls: seq<Label>, i: nat, t: Task)
    requires IsRun(ss, ls) && ss[0] == Init(limits) && i < |ss|
    requires t.req < |ss[i].reqs| && t in ss[i].reqs[t.req].pairs
    ensures AtRequestIn(ss[i].reqs, t) + AtCollector(ss[i], t) + ss[i].dropped[t] + ss[i].abandoned[t] == 1
    ensures forall d :: 0 <= d < |ss[i].colls| && d != t.db ==> C.Count(ss[i].colls[d], t) == 0
    ensures forall r :: 0 <= r < |ss[i].reqs| && r != t.req ==> R.Count(ss[i].reqs[r], t) == 0
  {
    InitialRun(limits, ss, ls, i);
    assert Accounted(ss[i], t);
    R.DistinctPairs(ss[i].reqs[t.req], t.req, t);
  }

  // ---- at most one answer ----

  function AnswersIn(qs: seq<R.Request>, t: Task): nat {
    if t.req < |qs| then R.Answers(qs[t.req], t) else 0
  }

  function Answers(s: State, t: Task): nat {
    AnswersIn(s.reqs, t)
  }

  lemma AnswersGrow(qs: seq<R.Request>, r: nat, q: R.Request, t: Task)
    requires r < |qs| && R.Answers(q, t) >= R.Answers(qs[r], t)
    ensures AnswersIn(qs[r := q], t) >= AnswersIn(qs, t)
  {
  }

  lemma AnswersStay(s: State, l: Label, t: Task)
    requires Enabled(s, l)
    ensures AnswersIn(ReqsAfter(s, l), t) >= AnswersIn(s.reqs, t)
  {
    match l
    case Alone(r, move) =>
      R.AnswersStay(s.reqs[r], move, t);
      AnswersGrow(s.reqs, r, R.Do(s.reqs[r], move), t);
    case Enter(r) => AnswersGrow(s.reqs, r, R.Entered(s.reqs[r], s.gen), t);
    case Submit(r) => AnswersGrow(s.reqs, r, R.Sent(s.reqs[r]), t);
    case Refuse(r) =>
      var q, res := s.reqs[r], Result(NextTask(s, r), Failure);
      R.ReceiveAnswers(R.Sent(q), res, t);
      AnswersGrow(s.reqs, r, R.Receive(R.Sent(q), res), t);
    case Crash(r) => AnswersGrow(s.reqs, r, R.Break(s.reqs[r]), t);
    case GiveUp(r) => AnswersGrow(s.reqs, r, R.Sent(s.reqs[r]), t);
    case Deliver(d, bg, u, answer) =>
      R.ReceiveAnswers(s.reqs[u.req], Result(u, answer), t);
      AnswersGrow(s.reqs, u.req, R.Receive(s.reqs[u.req], Result(u, answer)), t);
    case _ =>
  }

  lemma AnswersOfStep(ss: seq<State>, ls: seq<Label>, i: nat, t: Task)
    requires IsRun(ss, ls) && i < |ls|
    ensures Answers(ss[i + 1], t) >= Answers(ss[i], t)
  {
    AnswersStay(ss[i], ls[i], t);
    ReqsOfApply(ss[i], ls[i]);
  }

  lemma {:induction false} AnswersStayInRun(ss: seq<State>, ls: seq<Label>, i: nat, j: nat, t: Task)
    requires IsRun(ss, ls) && i <= j < |ss|
    ensures Answers(ss[j], t) >= Answers(ss[i], t)
    decreases j - i
  {
    if i < j {
      AnswersOfStep(ss, ls, i, t);
      AnswersStayInRun(ss, ls, i + 1, j, t);
    }
  }

  // No run delivers two results of one task.
  lemma OneAnswerPerTask(limits: seq<C.Limits>, ss: seq<State>, ls: seq<Label>, i: nat, j: nat)
    requires IsRun(ss, ls) && ss[0] == Init(limits) && i < j < |ls|
    requires ls[i].Deliver? && ls[j].Deliver?
    ensures ls[i].t != ls[j].t
  {
    if ls[i].t == ls[j].t {
      var t := ls[i].t;
      InitialRun(limits, ss, ls, j);
      if R.OutputClosed(ss[i].reqs[t.req]) {
        PanicIsLast(ss, ls, i);
      } else {
        R.ReceiveAnswers(ss[i].reqs[t.req], Result(t, ls[i].answer), t);
        AnswersStayInRun(ss, ls, i + 1, j, t);
        WorkerTaskHasNoAnswer(ss[j], ls[j].d, ls[j].bg, t);
      }
    }
  }

  lemma PanicIsLast(ss: seq<State>, ls: seq<Label>, i: nat)
    requires IsRun(ss, ls) && i < |ls| && ss[i + 1].panicked
    ensures i + 1 == |ls|
  {
  }

  lemma WorkerTaskHasNoAnswer(s: State, d: nat, bg: bool, t: Task)
    requires Inv(s) && Querying(s, d, bg, t)
    ensures Answers(s, t) == 0
  {
    assert Accounted(s, t);
    WorkerTask(s, d, bg, t);
    R.DistinctPairs(s.reqs[t.req], t.req, t);
  }

  // ---- the result channel ----

  function Unfinished(s: State, r: nat): set<Task>
    requires r < |s.reqs|
  {
    set t | t in s.reqs[r].pairs && AtCollector(s, t) > 0
  }

  function Pending(s: State, r: nat): multiset<Task>
    requires r < |s.reqs|
  {
    multiset(TasksOf(s.reqs[r].buffer)) + multiset(R.Left(s.reqs[r])) + multiset(Unfinished(s, r))
  }

  lemma PendingFits(s: State, r: nat)
    requires Inv(s) && r < |s.reqs|
    ensures Pending(s, r) <= multiset(s.reqs[r].pairs)
  {
    forall u ensures Pending(s, r)[u] <= multiset(s.reqs[r].pairs)[u] {
      assert Accounted(s, u);
      R.DistinctPairs(s.reqs[r], r, u);
    }
  }

  // The buffered results, the tasks still inside a collector and the tasks still to be
  // submitted never exceed the capacity of the request's result channel.
  lemma ResultsFit(s: State, r: nat)
    requires Inv(s) && r < |s.reqs|
    ensures |s.reqs[r].buffer| + |Unfinished(s, r)| + |R.Left(s.reqs[r])| <= |s.reqs[r].pairs|
  {
    PendingFits(s, r);
    SubBagSize(Pending(s, r), multiset(s.reqs[r].pairs));
  }

  // So a worker that has a result is never blocked by a full channel, in any run.
  lemma WorkerNeverBlocks(limits: seq<C.Limits>, ss: seq<State>, ls: seq<Label>, i: nat,
                          d: nat, bg: bool, t: Task, answer: Answer)
    requires IsRun(ss, ls) && ss[0] == Init(limits) && i < |ss|
    requires Querying(ss[i], d, bg, t) && Up(ss[i])
    ensures Enabled(ss[i], Deliver(d, bg, t, answer))
  {
    InitialRun(limits, ss, ls, i);
    assert Accounted(ss[i], t);
    WorkerTask(ss[i], d, bg, t);
    ResultsFit(ss[i], t.req);
    assert t in Unfinished(ss[i], t.req);
  }

  // Nor is a request that has to put an error result into its own channel.
  lemma RefusalNeverBlocks(s: State, r: nat)
    requires Inv(s) && HasNext(s, r)
    ensures R.HasRoom(s.reqs[r])
  {
    ResultsFit(s, r);
  }

  // ---- a request that ends with nothing outstanding ----

  lemma AllDealtWith(q: R.Request, id: nat)
    requires R.Inv(q, id) && R.EndedWell(q)
    requires multiset(R.ChunkTasks(q.chunks)) <= multiset(q.pairs)
    ensures multiset(R.ChunkTasks(q.chunks)) == multiset(q.pairs)
  {
    SubBagSize(multiset(R.ChunkTasks(q.chunks)), multiset(q.pairs));
  }

  // Each of its pairs was dealt with exactly once, and none of its tasks is left anywhere.
  lemma NothingLeft(s: State, r: nat, t: Task)
    requires Inv(s) && r < |s.reqs| && R.EndedWell(s.reqs[r]) && t.req == r
    ensures multiset(R.ChunkTasks(s.reqs[r].chunks)) == multiset(s.reqs[r].pairs)
    ensures t !in TasksOf(s.reqs[r].buffer)
    ensures AtCollector(s, t) == s.dropped[t] == s.abandoned[t] == 0
  {
    var q := s.reqs[r];
    forall u ensures multiset(R.ChunkTasks(q.chunks))[u] <= multiset(q.pairs)[u] {
      assert Accounted(s, u);
    }
    AllDealtWith(q, r);
    assert Accounted(s, t);
  }

  // A worker that has a result for t sends it on a closed channel, and the process panics,
  // exactly if t's request gave up waiting and has closed its result channel.
  lemma PanicsExactly(s: State, d: nat, bg: bool, t: Task, answer: Answer)
    requires Inv(s) && Enabled(s, Deliver(d, bg, t, answer))
    ensures Apply(s, Deliver(d, bg, t, answer)).panicked <==>
            var q := s.reqs[t.req]; R.Aborted(q) && (q.phase.Closed? || !q.job)
  {
    OnlyAbortedPanic(s, d, bg, t);
  }

  lemma OnlyAbortedPanic(s: State, d: nat, bg: bool, t: Task)
    requires Inv(s) && Querying(s, d, bg, t)
    ensures R.OutputClosed(s.reqs[t.req]) ==> R.Aborted(s.reqs[t.req])
  {
    if R.EndedWell(s.reqs[t.req]) {
      WorkerTaskIsUnfinished(s, d, bg, t);
      NothingLeft(s, t.req, t);
    }
  }

  lemma WorkerTaskIsUnfinished(s: State, d: nat, bg: bool, t: Task)
    requires Inv(s) && Querying(s, d, bg, t)
    ensures AtCollector(s, t) > 0
  {
    assert Accounted(s, t);
    WorkerTask(s, d, bg, t);
  }

  predicate NoneAbortedIn(qs: seq<R.Request>) {
    forall r :: 0 <= r < |qs| ==> !R.Aborted(qs[r])
  }

  predicate NoneAborted(s: State) {
    NoneAbortedIn(s.reqs)
  }

  predicate IsAbort(l: Label) {
    l.Alone? && l.move.Abort?
  }

  lemma StepWithoutAbort(s: State, l: Label)
    requires NoneAborted(s) && Enabled(s, l) && !IsAbort(l)
    ensures NoneAbortedIn(ReqsAfter(s, l))
  {
  }

  lemma StepWithoutPanic(s: State, l: Label, s': State)
    requires Inv(s) && NoneAborted(s) && Enabled(s, l) && s' == Apply(s, l)
    ensures !s'.panicked
  {
    if l.Deliver? && R.OutputClosed(s.reqs[l.t.req]) {
      OnlyAbortedPanic(s, l.d, l.bg, l.t);
    }
  }

  lemma RunStepWithoutAbort(ss: seq<State>, ls: seq<Label>, i: nat)
    requires IsRun(ss, ls) && i < |ls|
    requires Inv(ss[i]) && NoneAborted(ss[i]) && !IsAbort(ls[i])
    ensures NoneAborted(ss[i + 1]) && !ss[i + 1].panicked
  {
    StepWithoutAbort(ss[i], ls[i]);
    ReqsOfApply(ss[i], ls[i]);
    StepWithoutPanic(ss[i], ls[i], ss[i + 1]);
  }

  // While no request gives up waiting, no result is ever sent on a closed channel, whatever
  // the interleaving of requests, jobs, workers and reloads.
  lemma {:induction false} NoPanicWithoutAbort(limits: seq<C.Limits>, ss: seq<State>, ls: seq<Label>, i: nat)
    requires IsRun(ss, ls) && ss[0] == Init(limits) && i < |ss|
    requires forall k :: 0 <= k < i ==> !IsAbort(ls[k])
    ensures !ss[i].panicked && NoneAborted(ss[i])
  {
    if i > 0 {
      NoPanicWithoutAbort(limits, ss, ls, i - 1);
      InitialRun(limits, ss, ls, i - 1);
      RunStepWithoutAbort(ss, ls, i - 1);
    }
  }

  // ---- the response ----

  // A request that gathers to the end has one chunk for every requested pair, and has
  // written all of them but those that failed the output validation.
  lemma ResponseIsComplete(s: State, r: nat)
    requires Inv(s) && r < |s.reqs| && R.EndedWell(s.reqs[r]) && !s.reqs[r].job
    ensures multiset(R.ChunkTasks(s.reqs[r].chunks)) == multiset(s.reqs[r].pairs)
    ensures s.reqs[r].written == |s.reqs[r].pairs| - R.Skips(s.reqs[r].chunks)
  {
    NothingLeft(s, r, Task(r, 0, 0, false));
    R.WritesAndSkips(s.reqs[r].chunks);
  }

  // ---- workers ----

  // A group never has more workers than its limit, and the next generation's collectors are
  // made only when no worker of this one is left.
  lemma WorkersWithinLimits(s: State, d: nat)
    requires Inv(s) && d < |s.colls|
    ensures s.limits[d].std >= 0 ==> P.Live(s.colls[d].std) <= s.limits[d].std
    ensures s.limits[d].bg >= 0 ==> P.Live(s.colls[d].bg) <= s.limits[d].bg
    ensures Enabled(s, Restart) ==> C.Workers(s.colls[d]) == 0
  {
  }
}
