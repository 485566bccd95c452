/**
 Jobs of the serial scheduler, whose context nothing ever cancels: exactly when such a job
 waits for its result for ever, and with it the scheduler.
 */
module PipelineJobs {
  import opened Tasks
  import opened Pipeline
  import opened PipelineSafety
  import opened PipelineProgress
  import opened PipelineAborts
  import R = Requests

  // A patient job that has submitted its only task and waits.
  predicate WaitingJob(s: State, r: nat) {
    r < |s.reqs| && s.reqs[r].patient && s.reqs[r].phase.Gathering?
  }

  // Its task was given up by a worker, or left behind in the queues of a stopped collector.
  predicate Lost(s: State, t: Task) {
    s.dropped[t] > 0 || s.abandoned[t] > 0
  }

  function TaskOf(s: State, r: nat): Task
    requires r < |s.reqs| && |s.reqs[r].pairs| == 1
  {
    s.reqs[r].pairs[0]
  }

  lemma OneTask(s: State, r: nat)
    requires RequestsOk(s) && WaitingJob(s, r)
    ensures |s.reqs[r].pairs| == 1 && TaskOf(s, r).req == r
    ensures multiset(s.reqs[r].pairs) == multiset{TaskOf(s, r)} && R.Left(s.reqs[r]) == []
  {
    assert s.reqs[r].pairs == [TaskOf(s, r)];
  }

  // ---- a lost task ----

  lemma NothingArrives(s: State, r: nat)
    requires Inv(s) && WaitingJob(s, r)
    requires |s.reqs[r].pairs| == 1 ==> Lost(s, TaskOf(s, r))
    ensures |s.reqs[r].pairs| == 1 && s.reqs[r].buffer == [] && s.reqs[r].scheduled > 0
  {
    OneTask(s, r);
    var q, t := s.reqs[r], TaskOf(s, r);
    forall u ensures multiset(TasksOf(q.buffer))[u] == multiset(R.ChunkTasks(q.chunks))[u] == 0 {
      assert Accounted(s, u);
      R.DistinctPairs(q, r, u);
    }
    assert multiset(TasksOf(q.buffer)) == multiset{} && multiset(R.ChunkTasks(q.chunks)) == multiset{};
    assert |TasksOf(q.buffer)| == |q.buffer| && |R.ChunkTasks(q.chunks)| == |q.chunks|;
  }

  lemma OwnStepsDisabled(q: R.Request, id: nat, a: R.Act)
    requires R.Inv(q, id) && q.patient && q.phase.Gathering? && q.buffer == [] && q.scheduled > 0
    ensures !R.Can(q, a)
  {
  }

  // No other step than the request's own changes more of it than its result channel.
  lemma OthersKeepWaiting(s: State, l: Label, r: nat)
    requires Enabled(s, l) && WaitingJob(s, r) && !(l.Alone? && l.r == r)
    ensures r < |ReqsAfter(s, l)|
    ensures var q := ReqsAfter(s, l)[r]; q == s.reqs[r].(buffer := q.buffer)
  {
  }

  lemma StaysWaiting(s: State, l: Label, s': State, r: nat)
    requires Inv(s) && WaitingJob(s, r) && s.reqs[r].buffer == [] && s.reqs[r].scheduled > 0
    requires Enabled(s, l) && s' == Apply(s, l)
    ensures WaitingJob(s', r) && s'.reqs[r].pairs == s.reqs[r].pairs
  {
    if l.Alone? && l.r == r {
      OwnStepsDisabled(s.reqs[r], r, l.move);
    } else {
      ReqsOfApply(s, l);
      OthersKeepWaiting(s, l, r);
    }
  }

  predicate Stuck(s: State, r: nat) {
    WaitingJob(s, r) && |s.reqs[r].pairs| == 1 && Lost(s, TaskOf(s, r))
  }

  lemma StepKeepsStuck(s: State, l: Label, s': State, r: nat)
    requires Inv(s) && Stuck(s, r) && Enabled(s, l) && s' == Apply(s, l)
    ensures Stuck(s', r)
  {
    NothingArrives(s, r);
    StaysWaiting(s, l, s', r);
    LossesStay(s, l, TaskOf(s, r));
  }

  // A job whose task is lost waits in every state of every continuation, also when new
  // generations start.
  lemma {:induction false} LostJobWaits(ss: seq<State>, ls: seq<Label>, r: nat, i: nat)
    requires IsRun(ss, ls) && Inv(ss[0]) && Stuck(ss[0], r) && i < |ss|
    ensures Stuck(ss[i], r)
  {
    if i > 0 {
      LostJobWaits(ss, ls, r, i - 1);
      RunKeepsInv(ss, ls, i - 1);
      StepKeepsStuck(ss[i - 1], ls[i - 1], ss[i], r);
    }
  }

  // ---- any other ----

  ghost predicate EndsClosed(s: State, ss: seq<State>, ls: seq<Label>, r: nat) {
    IsRun(ss, ls) && ss[0] == s && r < |ss[|ls|].reqs| && ss[|ls|].reqs[r].phase.Closed?
  }

  ghost predicate CanClose(s: State, r: nat) {
    exists ss, ls :: EndsClosed(s, ss, ls, r)
  }

  lemma ClosesLater(s: State, l: Label, s': State, r: nat)
    requires Enabled(s, l) && s' == Apply(s, l) && CanClose(s', r)
    ensures CanClose(s, r)
  {
    var ss, ls :| EndsClosed(s', ss, ls, r);
    PrependRun(s, l, ss, ls);
    assert ([s] + ss)[|[l] + ls|] == ss[|ls|];
    assert EndsClosed(s, [s] + ss, [l] + ls, r);
  }

  lemma CompletesNow(s: State, r: nat)
    requires Up(s) && r < |s.reqs| && s.reqs[r].phase.Gathering? && s.reqs[r].scheduled == 0
    ensures CanClose(s, r)
  {
    var s1 := Apply(s, Alone(r, R.Complete));
    var s2 := Apply(s1, Alone(r, R.Close));
    assert EndsClosed(s2, [s2], [], r);
    ClosesLater(s1, Alone(r, R.Close), s2, r);
    ClosesLater(s, Alone(r, R.Complete), s1, r);
  }

  ghost predicate Hopeful(s: State, r: nat) {
    && Inv(s) && Quiet(s) && Going(s) && WaitingJob(s, r)
    && |s.reqs[r].pairs| == 1 && !Lost(s, TaskOf(s, r))
  }

  // A task that is not lost is inside a collector, or its result has come.
  lemma SomewhereElse(s: State, r: nat)
    requires Hopeful(s, r) && s.reqs[r].buffer == [] && s.reqs[r].scheduled > 0
    ensures AtCollector(s, TaskOf(s, r)) > 0
  {
    OneTask(s, r);
    assert Accounted(s, TaskOf(s, r));
    assert s.reqs[r].chunks == [];
  }

  lemma StepStaysFit(s: State, l: Label, s': State)
    requires Inv(s) && Quiet(s) && Going(s) && Enabled(s, l) && s' == Apply(s, l)
    requires (GoesOn(s, l) || (l.Alone? && l.move.Gather?)) && !FromOutside(l)
    ensures Inv(s') && Quiet(s') && Going(s') && Rank(s') < Rank(s)
  {
    StepKeepsQuiet(s, l, s');
    StepOn(s, l, s');
    StepKeepsGoing(s, l, s');
  }

  lemma WorkDoesNotLose(s: State, l: Label, s': State, r: nat)
    requires Inv(s) && Going(s) && WaitingJob(s, r) && |s.reqs[r].pairs| == 1 && !Lost(s, TaskOf(s, r))
    requires GoesOn(s, l) && s' == Apply(s, l) && Up(s')
    ensures WaitingJob(s', r) && s'.reqs[r].pairs == s.reqs[r].pairs && !Lost(s', TaskOf(s, r))
  {
    OneTask(s, r);
    StepLosesNot(s, l, s', TaskOf(s, r));
    ReqsOfApply(s, l);
    OthersKeepWaiting(s, l, r);
  }

  lemma HopefulGathers(s: State, r: nat) returns (l: Label, s': State)
    requires Hopeful(s, r) && s.reqs[r].scheduled > 0 && s.reqs[r].buffer != []
    ensures Enabled(s, l) && s' == Apply(s, l) && Hopeful(s', r) && Rank(s') < Rank(s)
  {
    l := Alone(r, R.Gather(true));
    s' := Apply(s, l);
    StepStaysFit(s, l, s');
  }

  lemma HopefulStays(s: State, l: Label, s': State, r: nat)
    requires Hopeful(s, r) && GoesOn(s, l) && s' == Apply(s, l)
    ensures Hopeful(s', r) && Rank(s') < Rank(s)
  {
    StepStaysFit(s, l, s');
    WorkDoesNotLose(s, l, s', r);
  }

  lemma HopefulGoesOn(s: State, r: nat) returns (l: Label, s': State)
    requires Hopeful(s, r) && s.reqs[r].scheduled > 0 && s.reqs[r].buffer == []
    ensures Enabled(s, l) && s' == Apply(s, l) && Hopeful(s', r) && Rank(s') < Rank(s)
  {
    SomewhereElse(s, r);
    l := CollectorGoesOn(s, TaskOf(s, r).db, TaskOf(s, r));
    s' := Apply(s, l);
    HopefulStays(s, l, s', r);
  }

  lemma HopefulCloses(s: State, r: nat)
    requires Hopeful(s, r)
    ensures CanClose(s, r)
    decreases Rank(s)
  {
    if s.reqs[r].scheduled == 0 {
      CompletesNow(s, r);
    } else if s.reqs[r].buffer != [] {
      var l, s' := HopefulGathers(s, r);
      HopefulCloses(s', r);
      ClosesLater(s, l, s', r);
    } else {
      var l, s' := HopefulGoesOn(s, r);
      HopefulCloses(s', r);
      ClosesLater(s, l, s', r);
    }
  }

  // While a generation is at work and every waiting task is attended, a job that nothing
  // cancels can never be closed in any continuation exactly if its task is lost.
  lemma JobIsStuckExactly(s: State, r: nat)
    requires Inv(s) && Quiet(s) && Going(s) && WaitingJob(s, r)
    ensures |s.reqs[r].pairs| == 1
    ensures !CanClose(s, r) <==> Lost(s, TaskOf(s, r))
  {
    OneTask(s, r);
    if Lost(s, TaskOf(s, r)) {
      forall ss, ls ensures !EndsClosed(s, ss, ls, r) {
        if EndsClosed(s, ss, ls, r) {
          LostJobWaits(ss, ls, r, |ls|);
        }
      }
    } else {
      HopefulCloses(s, r);
    }
  }

  // The premise holds whenever a generation has just started.
  lemma FreshIsGoing(s: State)
    requires Enabled(s, Restart) && Usable(s.mode.next)
    ensures Going(Apply(s, Restart))
  {
  }
}
