/**
 When a request may give up waiting: exactly which of its tasks can still make a worker send
 on the closed result channel, and that nothing else ever does.
 */
module PipelineAborts {
  import opened Tasks
  import opened Pipeline
  import opened PipelineSafety
  import opened PipelineGuarantees
  import opened PipelineProgress
  import C = Collectors
  import R = Requests

  ghost predicate HasQuery(s: State, r: nat) {
    exists d: nat, bg, t :: Querying(s, d, bg, t) && t.req == r
  }

  // What must not be left when r gives up. An HTTP request closes its result channel at
  // once and its cancel channel later, so any task of it that is still in a collector may
  // yet reach a worker and be answered. A job cancels first, and a stopped generation is
  // cancelled already; then only a worker that waits for the database may still answer.
  ghost predicate Endangered(s: State, r: nat)
    requires r < |s.reqs|
  {
    if s.reqs[r].job || s.mode.Stopping? then HasQuery(s, r) else Unfinished(s, r) != {}
  }

  ghost predicate Quiet(s: State) {
    forall r :: 0 <= r < |s.reqs| && R.Aborted(s.reqs[r]) ==> !Endangered(s, r)
  }

  // ---- no danger ever arises by itself ----

  lemma PairsStay(s: State, l: Label, r: nat)
    requires Enabled(s, l) && r < |s.reqs|
    ensures r < |ReqsAfter(s, l)| && ReqsAfter(s, l)[r].pairs == s.reqs[r].pairs
    ensures ReqsAfter(s, l)[r].job == s.reqs[r].job
    ensures R.Aborted(ReqsAfter(s, l)[r]) && l != Alone(r, R.Abort) ==> R.Aborted(s.reqs[r])
  {
  }

  lemma NewcomersHaveNotAborted(s: State, l: Label, r: nat)
    requires Enabled(s, l) && |s.reqs| <= r < |ReqsAfter(s, l)|
    ensures !R.Aborted(ReqsAfter(s, l)[r])
  {
  }

  lemma LossesStay(s: State, l: Label, t: Task)
    requires Enabled(s, l)
    ensures Apply(s, l).dropped[t] >= s.dropped[t] && Apply(s, l).abandoned[t] >= s.abandoned[t]
  {
  }

  // A task that was submitted and has left its collector does not come back.
  lemma TaskStaysAway(s: State, l: Label, s': State, t: Task)
    requires Inv(s) && Enabled(s, l) && s' == Apply(s, l) && Inv(s')
    requires t.req < |s.reqs| && s.reqs[t.req].next == |s.reqs[t.req].pairs| && AtCollector(s, t) == 0
    ensures AtCollector(s', t) == 0
  {
    assert Accounted(s, t) && Accounted(s', t);
    ReqsOfApply(s, l);
    PairsStay(s, l, t.req);
    AnswersStay(s, l, t);
    LossesStay(s, l, t);
    assert R.Left(s.reqs[t.req]) == [];
  }

  lemma NothingComesBack(s: State, l: Label, s': State, r: nat)
    requires Inv(s) && Enabled(s, l) && s' == Apply(s, l) && Inv(s')
    requires r < |s.reqs| && s.reqs[r].next == |s.reqs[r].pairs| && Unfinished(s, r) == {}
    ensures r < |s'.reqs| && Unfinished(s', r) == {}
  {
    ReqsOfApply(s, l);
    PairsStay(s, l, r);
    forall t | t in s'.reqs[r].pairs ensures AtCollector(s', t) == 0 {
      R.DistinctPairs(s.reqs[r], r, t);
      assert t !in Unfinished(s, r);
      TaskStaysAway(s, l, s', t);
    }
  }

  lemma InnerStartsNoQuery(c: C.Collector, a: C.Act, stopping: bool, bg: bool, t: Task)
    requires C.Can(c, a, stopping)
    ensures t in C.Get(C.Do(c, a, stopping), bg).querying ==> t in C.Get(c, bg).querying
  {
  }

  lemma FinishStartsNoQuery(c: C.Collector, b: bool, u: Task, bg: bool, t: Task)
    requires u in C.Get(c, b).taken || u in C.Get(c, b).querying
    ensures t in C.Get(C.Finish(c, b, u), bg).querying ==> t in C.Get(c, bg).querying
  {
  }

  lemma BeginStartsOneQuery(c: C.Collector, b: bool, u: Task, bg: bool, t: Task)
    requires u in C.Get(c, b).taken
    ensures t in C.Get(C.Begin(c, b, u), bg).querying ==> t == u || t in C.Get(c, bg).querying
  {
  }

  predicate QueryIn(cs: seq<C.Collector>, d: nat, bg: bool, t: Task) {
    d < |cs| && t in C.Get(cs[d], bg).querying
  }

  lemma QueryWasInOther(cs: seq<C.Collector>, e: nat, c: C.Collector, d: nat, bg: bool, t: Task)
    requires e < |cs| && QueryIn(cs[e := c], d, bg, t)
    requires t in C.Get(c, bg).querying ==> t in C.Get(cs[e], bg).querying
    ensures QueryIn(cs, d, bg, t)
  {
  }

  lemma QueryWasThereAtFinish(cs: seq<C.Collector>, e: nat, b: bool, u: Task, d: nat, bg: bool, t: Task)
    requires e < |cs| && (u in C.Get(cs[e], b).taken || u in C.Get(cs[e], b).querying)
    requires QueryIn(cs[e := C.Finish(cs[e], b, u)], d, bg, t)
    ensures QueryIn(cs, d, bg, t)
  {
    FinishStartsNoQuery(cs[e], b, u, bg, t);
    QueryWasInOther(cs, e, C.Finish(cs[e], b, u), d, bg, t);
  }

  // A worker asks the database only for tasks that are not cancelled.
  lemma QueryWasThere(s: State, l: Label, s': State, d: nat, bg: bool, t: Task)
    requires Enabled(s, l) && s' == Apply(s, l)
    requires QueryIn(s'.colls, d, bg, t) && t.req < |s.reqs| && Interrupted(s, t)
    ensures QueryIn(s.colls, d, bg, t)
  {
    match l
    case Inner(e, act) =>
      InnerStartsNoQuery(s.colls[e], act, s.mode.Stopping?, bg, t);
      QueryWasInOther(s.colls, e, C.Do(s.colls[e], act, s.mode.Stopping?), d, bg, t);
    case Submit(r) =>
      var u := NextTask(s, r);
      QueryWasInOther(s.colls, u.db, C.Accept(s.colls[u.db], u), d, bg, t);
    case Begin(e, b, u) =>
      BeginStartsOneQuery(s.colls[e], b, u, bg, t);
      QueryWasInOther(s.colls, e, C.Begin(s.colls[e], b, u), d, bg, t);
    case Deliver(e, b, u, _) => QueryWasThereAtFinish(s.colls, e, b, u, d, bg, t);
    case Drop(e, b, u) => QueryWasThereAtFinish(s.colls, e, b, u, d, bg, t);
    case _ =>
  }

  lemma QueryIsUnfinished(s: State, r: nat)
    requires Inv(s) && r < |s.reqs| && HasQuery(s, r)
    ensures Unfinished(s, r) != {}
  {
    var d: nat, bg, t :| Querying(s, d, bg, t) && t.req == r;
    assert Accounted(s, t);
    WorkerTask(s, d, bg, t);
    assert t in Unfinished(s, r);
  }

  lemma NoNewQuery(s: State, l: Label, s': State, r: nat)
    requires Enabled(s, l) && s' == Apply(s, l) && r < |s.reqs| && !HasQuery(s, r)
    requires s.mode.Stopping? || R.Cancelled(s.reqs[r]) || l == Alone(r, R.Abort)
    ensures !HasQuery(s', r)
  {
    forall d: nat, bg, t | Querying(s', d, bg, t) && t.req == r ensures false {
      if l == Alone(r, R.Abort) {
        assert Querying(s, d, bg, t);
      } else {
        QueryWasThere(s, l, s', d, bg, t);
        assert Querying(s, d, bg, t);
      }
    }
  }

  lemma RestartFinishesAll(s: State, s': State, r: nat)
    requires Enabled(s, Restart) && s' == Apply(s, Restart) && r < |s'.reqs|
    ensures Unfinished(s', r) == {}
  {
  }

  // A request that gave up and whose tasks cannot be answered any more stays so.
  lemma QuietStays(s: State, l: Label, s': State, r: nat)
    requires Inv(s) && Enabled(s, l) && s' == Apply(s, l) && Inv(s') && r < |s.reqs|
    requires (R.Aborted(s.reqs[r]) || l == Alone(r, R.Abort)) && !Endangered(s, r)
    ensures r < |s'.reqs| && !Endangered(s', r)
  {
    ReqsOfApply(s, l);
    PairsStay(s, l, r);
    if s.reqs[r].job {
      NoNewQuery(s, l, s', r);
    } else if s.mode.Live? {
      NothingComesBack(s, l, s', r);
      if HasQuery(s', r) {
        QueryIsUnfinished(s', r);
      }
    } else if l.Restart? {
      RestartFinishesAll(s, s', r);
    } else {
      NoNewQuery(s, l, s', r);
    }
  }

  lemma StepKeepsQuiet(s: State, l: Label, s': State)
    requires Inv(s) && Quiet(s) && Enabled(s, l) && s' == Apply(s, l)
    requires IsAbort(l) ==> !Endangered(s, l.r)
    ensures Inv(s') && Quiet(s') && !s'.panicked
  {
    StepKeepsInv(s, l);
    ReqsOfApply(s, l);
    forall r | 0 <= r < |s'.reqs| && R.Aborted(s'.reqs[r]) ensures !Endangered(s', r) {
      if r >= |s.reqs| {
        NewcomersHaveNotAborted(s, l, r);
      } else {
        PairsStay(s, l, r);
        QuietStays(s, l, s', r);
      }
    }
    if l.Deliver? {
      QuietMeansNoPanic(s, l.d, l.bg, l.t);
    }
  }

  lemma QuietMeansNoPanic(s: State, d: nat, bg: bool, t: Task)
    requires Inv(s) && Quiet(s) && Querying(s, d, bg, t)
    ensures !R.OutputClosed(s.reqs[t.req])
  {
    OnlyAbortedPanic(s, d, bg, t);
    assert HasQuery(s, t.req);
    QueryIsUnfinished(s, t.req);
  }

  // Requests that give up only when none of their tasks can be answered any more never make
  // a worker panic, in any run.
  ghost predicate CarefulRun(ss: seq<State>, ls: seq<Label>) {
    && IsRun(ss, ls)
    && forall k :: 0 <= k < |ls| && IsAbort(ls[k]) ==> !Endangered(ss[k], ls[k].r)
  }

  lemma {:induction false} CarefulRunIsQuiet(ss: seq<State>, ls: seq<Label>, i: nat)
    requires CarefulRun(ss, ls) && Inv(ss[0]) && Quiet(ss[0]) && !ss[0].panicked && i < |ss|
    ensures Inv(ss[i]) && Quiet(ss[i]) && !ss[i].panicked
  {
    if i > 0 {
      CarefulRunIsQuiet(ss, ls, i - 1);
      StepKeepsQuiet(ss[i - 1], ls[i - 1], ss[i]);
    }
  }

  lemma NoPanicInCarefulRuns(limits: seq<C.Limits>, ss: seq<State>, ls: seq<Label>, i: nat)
    requires CarefulRun(ss, ls) && ss[0] == Init(limits) && i < |ss|
    ensures !ss[i].panicked
  {
    InitInv(limits);
    CarefulRunIsQuiet(ss, ls, i);
  }

  // ---- and every danger can come true ----

  // A run on which nobody else gives up and some worker sends on a closed channel.
  ghost predicate Panics(s: State, ss: seq<State>, ls: seq<Label>) {
    && IsRun(ss, ls) && ss[0] == s && ss[|ls|].panicked
    && forall k :: 0 <= k < |ls| ==> !IsAbort(ls[k])
  }

  ghost predicate CanPanic(s: State) {
    exists ss, ls :: Panics(s, ss, ls)
  }

  lemma PanicsNow(s: State, l: Label, s': State)
    requires Enabled(s, l) && !IsAbort(l) && s' == Apply(s, l) && s'.panicked
    ensures CanPanic(s)
  {
    assert Panics(s, [s, s'], [l]);
  }

  lemma PanicsLater(s: State, l: Label, s': State)
    requires Enabled(s, l) && !IsAbort(l) && s' == Apply(s, l) && CanPanic(s')
    ensures CanPanic(s)
  {
    var ss, ls :| Panics(s', ss, ls);
    PrependRun(s, l, ss, ls);
    assert ([s] + ss)[|[l] + ls|] == ss[|ls|];
    assert Panics(s, [s] + ss, [l] + ls);
  }

  // An HTTP request that has given up and not yet cancelled.
  predicate Forsaken(s: State, r: nat) {
    r < |s.reqs| && s.reqs[r].phase == R.Closing(false) && !s.reqs[r].job
  }

  lemma DropIsOfAnother(s: State, l: Label, t: Task)
    requires Going(s) && Enabled(s, l) && l.Drop? && t.req < |s.reqs| && !R.Cancelled(s.reqs[t.req])
    ensures l.t != t
  {
  }

  // No step of a dispatcher or a worker loses a task that is not cancelled.
  lemma StepLosesNot(s: State, l: Label, s': State, t: Task)
    requires Going(s) && GoesOn(s, l) && s' == Apply(s, l) && !s'.panicked
    requires t.req < |s.reqs| && !R.Cancelled(s.reqs[t.req])
    ensures s'.dropped[t] == s.dropped[t] && s'.abandoned[t] == s.abandoned[t]
  {
    if l.Drop? {
      DropIsOfAnother(s, l, t);
    } else if l.Inner? {
      assert !l.act.Exit?;
    }
  }

  lemma ForsakenStays(s: State, l: Label, s': State, r: nat)
    requires GoesOn(s, l) && Forsaken(s, r) && s' == Apply(s, l) && !s'.panicked
    ensures r < |s'.reqs| && s'.reqs[r] == s.reqs[r]
  {
  }

  lemma StaysUp(s: State, l: Label, s': State)
    requires GoesOn(s, l) && s' == Apply(s, l) && !s'.panicked
    ensures Up(s') && !FromOutside(l)
  {
  }

  lemma StepStaysGoing(s: State, l: Label, s': State)
    requires Inv(s) && Going(s) && GoesOn(s, l) && s' == Apply(s, l) && !s'.panicked
    ensures Inv(s') && Going(s') && Rank(s') < Rank(s)
  {
    StaysUp(s, l, s');
    StepOn(s, l, s');
    StepKeepsGoing(s, l, s');
  }

  // A step of a dispatcher or a worker leaves a task of such a request where it is, or
  // answers it.
  lemma StepTowardsPanic(s: State, l: Label, s': State, t: Task)
    requires Inv(s) && Going(s) && GoesOn(s, l) && Forsaken(s, t.req) && s' == Apply(s, l) && !s'.panicked
    requires Inv(s') && AtCollector(s, t) > 0
    ensures Forsaken(s', t.req) && AtCollector(s', t) > 0
  {
    StepLosesNot(s, l, s', t);
    ForsakenStays(s, l, s', t.req);
    SameShare(s, s', t);
  }

  lemma SameShare(s: State, s': State, t: Task)
    requires Inv(s) && Inv(s') && t.req < |s.reqs| && t.req < |s'.reqs| && s'.reqs[t.req] == s.reqs[t.req]
    requires s'.dropped[t] == s.dropped[t] && s'.abandoned[t] == s.abandoned[t]
    ensures AtCollector(s', t) == AtCollector(s, t)
  {
    assert Accounted(s, t) && Accounted(s', t);
  }

  lemma UnfinishedPanics(s: State, t: Task)
    requires Inv(s) && Going(s) && Forsaken(s, t.req) && AtCollector(s, t) > 0
    ensures CanPanic(s)
    decreases Rank(s)
  {
    var l := CollectorGoesOn(s, t.db, t);
    var s' := Apply(s, l);
    if s'.panicked {
      PanicsNow(s, l, s');
    } else {
      StepStaysGoing(s, l, s');
      StepTowardsPanic(s, l, s', t);
      UnfinishedPanics(s', t);
      PanicsLater(s, l, s');
    }
  }

  lemma QueryPanics(s: State, d: nat, bg: bool, t: Task)
    requires Inv(s) && Up(s) && Querying(s, d, bg, t) && s.reqs[t.req].phase == R.Closing(false)
    ensures CanPanic(s)
  {
    var l := Deliver(d, bg, t, Failure);
    if s.reqs[t.req].job {
      var s' := Apply(s, Alone(t.req, R.Close));
      PanicsNow(s', l, Apply(s', l));
      PanicsLater(s, Alone(t.req, R.Close), s');
    } else {
      PanicsNow(s, l, Apply(s, l));
    }
  }

  lemma QuietNeverPanics(s: State)
    requires Inv(s) && Quiet(s) && !s.panicked
    ensures !CanPanic(s)
  {
    forall ss, ls ensures !Panics(s, ss, ls) {
      if Panics(s, ss, ls) {
        CarefulRunIsQuiet(ss, ls, |ls|);
      }
    }
  }

  // When a request gives up, and the requests that did so before are harmless, then some
  // worker may yet send on a closed channel exactly if the request has a task that can
  // still be answered. (That an unfinished task can be needs what all progress needs: every
  // waiting task is attended.)
  lemma AbortPanicsExactly(s: State, r: nat)
    requires Inv(s) && Quiet(s) && Enabled(s, Alone(r, R.Abort))
    requires s.mode.Live? && !s.reqs[r].job ==> Going(s)
    ensures CanPanic(Apply(s, Alone(r, R.Abort))) <==> Endangered(s, r)
  {
    var s' := Apply(s, Alone(r, R.Abort));
    StepKeepsInv(s, Alone(r, R.Abort));
    if !Endangered(s, r) {
      StepKeepsQuiet(s, Alone(r, R.Abort), s');
      QuietNeverPanics(s');
    } else if s.reqs[r].job || s.mode.Stopping? {
      var d: nat, bg, t :| Querying(s, d, bg, t) && t.req == r;
      QueryPanics(s', d, bg, t);
    } else {
      var t :| t in Unfinished(s, r);
      R.DistinctPairs(s.reqs[r], r, t);
      UnfinishedPanics(s', t);
    }
  }
}
