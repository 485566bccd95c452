/**
 Every run comes to rest: a rank that each step of every actor lowers. And for runs without
 cancellation and reload: exactly which steps leave waiting tasks without a worker, the
 absence of deadlock without these steps, and that such a run ends with every task answered.
 */
module PipelineProgress {
  import opened Tasks
  import opened Pipeline
  import opened PipelineSafety
  import opened PipelineGuarantees
  import P = Pools
  import C = Collectors
  import R = Requests

  // ---- the rank ----

  function RequestRanks(qs: seq<R.Request>): nat {
    if qs == [] then 0 else RequestRanks(qs[..|qs| - 1]) + R.Rank(qs[|qs| - 1])
  }

  function CollectorRanks(cs: seq<C.Collector>): nat {
    if cs == [] then 0 else CollectorRanks(cs[..|cs| - 1]) + C.Rank(cs[|cs| - 1])
  }

  function Rank(s: State): nat {
    RequestRanks(s.reqs) + CollectorRanks(s.colls)
  }

  lemma {:induction false} RequestRanksUpdate(qs: seq<R.Request>, r: nat, q: R.Request)
    requires r < |qs|
    ensures RequestRanks(qs[r := q]) + R.Rank(qs[r]) == RequestRanks(qs) + R.Rank(q)
  {
    var n := |qs| - 1;
    if r == n {
      assert qs[r := q][..n] == qs[..n];
    } else {
      RequestRanksUpdate(qs[..n], r, q);
      assert qs[r := q][..n] == qs[..n][r := q];
    }
  }

  lemma {:induction false} CollectorRanksUpdate(cs: seq<C.Collector>, d: nat, c: C.Collector)
    requires d < |cs|
    ensures CollectorRanks(cs[d := c]) + C.Rank(cs[d]) == CollectorRanks(cs) + C.Rank(c)
  {
    var n := |cs| - 1;
    if d == n {
      assert cs[d := c][..n] == cs[..n];
    } else {
      CollectorRanksUpdate(cs[..n], d, c);
      assert cs[d := c][..n] == cs[..n][d := c];
    }
  }

  // The steps that come from outside.
  predicate FromOutside(l: Label) {
    l.Arrive? || l.Reload? || l.Restart?
  }

  // One request and one collector change, and together they lose rank.
  lemma BothLower(s: State, r: nat, q: R.Request, d: nat, c: C.Collector)
    requires r < |s.reqs| && d < |s.colls|
    requires R.Rank(q) + C.Rank(c) < R.Rank(s.reqs[r]) + C.Rank(s.colls[d])
    ensures Rank(WithColl(WithReq(s, r, q), d, c)) < Rank(s)
  {
    RequestRanksUpdate(s.reqs, r, q);
    CollectorRanksUpdate(s.colls, d, c);
  }

  lemma RequestLowers(s: State, r: nat, q: R.Request)
    requires r < |s.reqs| && R.Rank(q) < R.Rank(s.reqs[r])
    ensures Rank(WithReq(s, r, q)) < Rank(s)
  {
    RequestRanksUpdate(s.reqs, r, q);
  }

  lemma CollectorLowers(s: State, d: nat, c: C.Collector)
    requires d < |s.colls| && C.Rank(c) < C.Rank(s.colls[d])
    ensures Rank(WithColl(s, d, c)) < Rank(s)
  {
    CollectorRanksUpdate(s.colls, d, c);
  }

  lemma SubmitLowersRank(s: State, r: nat)
    requires RequestsOk(s) && Enabled(s, Submit(r))
    ensures Rank(Apply(s, Submit(r))) < Rank(s)
  {
    var t := NextTask(s, r);
    R.SentKeeps(s.reqs[r], r);
    BothLower(s, r, R.Sent(s.reqs[r]), t.db, C.Accept(s.colls[t.db], t));
  }

  lemma RefuseLowersRank(s: State, r: nat)
    requires RequestsOk(s) && Enabled(s, Refuse(r))
    ensures Rank(Apply(s, Refuse(r))) < Rank(s)
  {
    var q, res := s.reqs[r], Result(NextTask(s, r), Failure);
    R.SentKeeps(q, r);
    R.ReceiveKeeps(R.Sent(q), r, res);
    RequestLowers(s, r, R.Receive(R.Sent(q), res));
  }

  lemma WorkerStepLowersRank(s: State, l: Label)
    requires RequestsOk(s) && Enabled(s, l) && (l.Begin? || l.Deliver? || l.Drop?)
    ensures Rank(Apply(s, l)) < Rank(s)
  {
    var d, bg, t := l.d, l.bg, l.t;
    match l
    case Begin(_, _, _) =>
      C.BeginKeeps(s.colls[d], bg, t);
      CollectorLowers(s, d, C.Begin(s.colls[d], bg, t));
    case Drop(_, _, _) =>
      C.FinishKeeps(s.colls[d], bg, t);
      CollectorLowers(s, d, C.Finish(s.colls[d], bg, t));
    case Deliver(_, _, _, answer) =>
      C.FinishKeeps(s.colls[d], bg, t);
      if R.OutputClosed(s.reqs[t.req]) {
        CollectorLowers(s, d, C.Finish(s.colls[d], bg, t));
      } else {
        R.ReceiveKeeps(s.reqs[t.req], t.req, Result(t, answer));
        BothLower(s, t.req, R.Receive(s.reqs[t.req], Result(t, answer)), d, C.Finish(s.colls[d], bg, t));
      }
  }

  // Every step that does not come from outside lowers the rank, also during cancellation
  // and while a generation is being stopped.
  lemma StepLowersRank(s: State, l: Label)
    requires RequestsOk(s) && Enabled(s, l) && !FromOutside(l)
    ensures Rank(Apply(s, l)) < Rank(s)
  {
    match l
    case Alone(r, move) =>
      R.DoKeeps(s.reqs[r], r, move);
      RequestLowers(s, r, R.Do(s.reqs[r], move));
    case Enter(r) =>
      R.EnteredKeeps(s.reqs[r], r, s.gen);
      RequestLowers(s, r, R.Entered(s.reqs[r], s.gen));
    case Submit(r) => SubmitLowersRank(s, r);
    case Refuse(r) => RefuseLowersRank(s, r);
    case Crash(r) =>
      R.BreakKeeps(s.reqs[r], r);
      RequestLowers(s, r, R.Break(s.reqs[r]));
    case GiveUp(r) =>
      R.SentKeeps(s.reqs[r], r);
      RequestLowers(s, r, R.Sent(s.reqs[r]));
    case Inner(d, act) =>
      C.DoLowersRank(s.colls[d], act, s.mode.Stopping?);
      CollectorLowers(s, d, C.Do(s.colls[d], act, s.mode.Stopping?));
    case _ => WorkerStepLowersRank(s, l);
  }

  lemma StepOn(s: State, l: Label, s': State)
    requires Inv(s) && Enabled(s, l) && !FromOutside(l) && s' == Apply(s, l)
    ensures Inv(s') && Rank(s') < Rank(s)
  {
    StepKeepsInv(s, l);
    StepLowersRank(s, l);
  }

  lemma RunStepLowersRank(ss: seq<State>, ls: seq<Label>, i: nat)
    requires IsRun(ss, ls) && i < |ls| && Inv(ss[0]) && !FromOutside(ls[i])
    ensures Rank(ss[i + 1]) < Rank(ss[i])
  {
    RunKeepsInv(ss, ls, i);
    StepLowersRank(ss[i], ls[i]);
  }

  // Left to itself the pipeline takes at most as many steps as its rank says.
  lemma {:induction false} RunIsBounded(ss: seq<State>, ls: seq<Label>, i: nat)
    requires IsRun(ss, ls) && Inv(ss[0]) && i < |ss|
    requires forall k :: 0 <= k < |ls| ==> !FromOutside(ls[k])
    ensures i + Rank(ss[i]) <= Rank(ss[0])
  {
    if i > 0 {
      RunStepLowersRank(ss, ls, i - 1);
      RunIsBounded(ss, ls, i - 1);
    }
  }

  // ---- runs without cancellation and reload ----

  // Nobody gives up waiting and no configuration arrives; a worker may leave at any time,
  // and gives its slot back later.
  predicate Loose(l: Label) {
    match l
    case Alone(_, move) => !move.Abort? && !move.Expire?
    case Inner(_, act) => !act.Stop? && !act.Exit?
    case GiveUp(_) => false
    case Drop(_, _, _) => false
    case Reload(_) => false
    case Restart => false
    case _ => true
  }

  // The step leaves waiting tasks without a worker.
  predicate Strands(s: State, l: Label) {
    l.Inner? && l.d < |s.colls| && C.Strands(s.colls[l.d], l.act)
  }

  predicate Orderly(s: State, l: Label) {
    Loose(l) && !Strands(s, l)
  }

  predicate Usable(limits: seq<C.Limits>) {
    forall d :: 0 <= d < |limits| ==> limits[d].std != 0
  }

  predicate AllAttended(cs: seq<C.Collector>) {
    forall d :: 0 <= d < |cs| ==> C.Attended(cs[d])
  }

  predicate Going(s: State) {
    s.mode.Live? && Up(s) && Usable(s.limits) && AllAttended(s.colls)
  }

  predicate NoneDesertedIn(qs: seq<R.Request>) {
    forall r :: 0 <= r < |qs| ==> !R.Deserted(qs[r])
  }

  // Whoever is inside addTask is at a collector of the current generation.
  predicate SendersCurrent(s: State) {
    forall r: nat | r < |s.reqs| :: Inside(s, r) ==> AtCurrent(s, r)
  }

  ghost predicate NothingGivenUp(s: State) {
    && s.mode.Live? && Up(s) && NoneDesertedIn(s.reqs) && SendersCurrent(s)
    && s.dropped == multiset{} && s.abandoned == multiset{}
  }

  ghost predicate Steady(s: State) {
    Going(s) && NothingGivenUp(s)
  }

  lemma AttendedChanges(cs: seq<C.Collector>, d: nat, c: C.Collector)
    requires d < |cs| && AllAttended(cs)
    ensures AllAttended(cs[d := c]) <==> C.Attended(c)
  {
    assert cs[d := c][d] == c;
  }

  lemma WorkStepKeepsAttended(s: State, l: Label, s': State)
    requires Going(s) && Enabled(s, l) && s' == Apply(s, l) && (l.Begin? || l.Deliver? || l.Drop?)
    ensures AllAttended(s'.colls)
  {
    var c := s.colls[l.d];
    if l.Begin? {
      C.BeginKeepsAttended(c, l.bg, l.t);
      AttendedChanges(s.colls, l.d, C.Begin(c, l.bg, l.t));
    } else {
      C.FinishKeepsAttended(c, l.bg, l.t);
      AttendedChanges(s.colls, l.d, C.Finish(c, l.bg, l.t));
    }
  }

  // While nobody gives up and no configuration arrives, a step keeps every waiting task
  // attended exactly if it is not a worker leaving as the last one from a queue that is not
  // empty, nor a new worker refused because all the others are on their way out.
  lemma StrandsExactly(s: State, l: Label, s': State)
    requires Going(s) && Enabled(s, l) && (Loose(l) || l.Drop?) && s' == Apply(s, l)
    ensures AllAttended(s'.colls) <==> !Strands(s, l)
  {
    match l
    case Inner(d, act) =>
      C.StrandsExactly(s.colls[d], act, false);
      AttendedChanges(s.colls, d, C.Do(s.colls[d], act, false));
    case Submit(r) =>
      var t := NextTask(s, r);
      AttendedChanges(s.colls, t.db, C.Accept(s.colls[t.db], t));
    case Begin(_, _, _) => WorkStepKeepsAttended(s, l, s');
    case Deliver(_, _, _, _) => WorkStepKeepsAttended(s, l, s');
    case Drop(_, _, _) => WorkStepKeepsAttended(s, l, s');
    case _ =>
  }

  lemma StepKeepsGoing(s: State, l: Label, s': State)
    requires Going(s) && Enabled(s, l) && (Orderly(s, l) || l.Drop?) && s' == Apply(s, l)
    ensures s'.mode.Live? && Usable(s'.limits) && AllAttended(s'.colls)
  {
    StrandsExactly(s, l, s');
  }

  lemma StepDesertsNone(s: State, l: Label)
    requires NoneDesertedIn(s.reqs) && Enabled(s, l) && !IsAbort(l) && !l.Crash?
    ensures NoneDesertedIn(ReqsAfter(s, l))
  {
  }

  // Nobody meets a closed inbox.
  lemma NobodyCrashes(s: State, l: Label)
    requires CollectorsOk(s) && s.mode.Live? && SendersCurrent(s) && Enabled(s, l)
    ensures !l.Crash?
  {
  }

  lemma EntersCurrent(s: State, r: nat, s': State)
    requires Enabled(s, Enter(r)) && s' == Apply(s, Enter(r))
    ensures AtCurrent(s', r)
  {
  }

  lemma StaysCurrent(s: State, l: Label, s': State, r: nat)
    requires Enabled(s, l) && l != Enter(r) && s' == Apply(s, l) && s'.reqs == ReqsAfter(s, l)
    requires s'.gen == s.gen && |s'.colls| == |s.colls| && Inside(s', r) && AtCurrent(s, r)
    ensures AtCurrent(s', r)
  {
    InsideBefore(s, l, r);
  }

  lemma StepKeepsGeneration(s: State, l: Label, s': State)
    requires s.mode.Live? && Enabled(s, l) && s' == Apply(s, l)
    ensures s'.gen == s.gen && |s'.colls| == |s.colls|
  {
  }

  lemma StepKeepsSenders(s: State, l: Label, s': State)
    requires s.mode.Live? && SendersCurrent(s) && Enabled(s, l) && s' == Apply(s, l)
    requires s'.reqs == ReqsAfter(s, l)
    ensures SendersCurrent(s')
  {
    StepKeepsGeneration(s, l, s');
    forall r: nat | r < |s'.reqs| && Inside(s', r) ensures AtCurrent(s', r) {
      if l == Enter(r) {
        EntersCurrent(s, r, s');
      } else {
        InsideBefore(s, l, r);
        StaysCurrent(s, l, s', r);
      }
    }
  }

  lemma InsideBefore(s: State, l: Label, r: nat)
    requires Enabled(s, l) && l != Enter(r) && r < |ReqsAfter(s, l)|
    requires var q := ReqsAfter(s, l)[r]; q.phase.Sending? && q.inside.Some? && q.next < |q.pairs|
    ensures var q := ReqsAfter(s, l)[r];
      Inside(s, r) && q.inside == s.reqs[r].inside && q.next == s.reqs[r].next && q.pairs == s.reqs[r].pairs
  {
  }

  lemma LooseStepLosesNothing(s: State, l: Label, s': State)
    requires Inv(s) && NothingGivenUp(s) && Enabled(s, l) && Loose(l) && s' == Apply(s, l)
    ensures NothingGivenUp(s')
  {
    NobodyCrashes(s, l);
    ReqsOfApply(s, l);
    StepDesertsNone(s, l);
    StepKeepsSenders(s, l, s');
    StepWithoutPanic(s, l, s');
  }

  lemma OrderlyStepKeeps(s: State, l: Label, s': State)
    requires Inv(s) && Steady(s) && Enabled(s, l) && Orderly(s, l) && s' == Apply(s, l)
    ensures Inv(s') && Steady(s')
  {
    StepKeepsInv(s, l);
    StepKeepsGoing(s, l, s');
    LooseStepLosesNothing(s, l, s');
  }

  ghost predicate OrderlyRun(ss: seq<State>, ls: seq<Label>) {
    IsRun(ss, ls) && forall k :: 0 <= k < |ls| ==> Orderly(ss[k], ls[k])
  }

  lemma {:induction false} OrderlyRunKeeps(ss: seq<State>, ls: seq<Label>, i: nat)
    requires OrderlyRun(ss, ls) && i < |ss| && Inv(ss[0]) && Steady(ss[0])
    ensures Inv(ss[i]) && Steady(ss[i])
  {
    if i > 0 {
      OrderlyRunKeeps(ss, ls, i - 1);
      OrderlyStepKeeps(ss[i - 1], ls[i - 1], ss[i]);
    }
  }

  // ---- no deadlock ----

  // A task in the hands of a worker belongs to a request that still waits for it, unless the
  // request has given up or broken off.
  lemma StillWanted(s: State, d: nat, bg: bool, t: Task)
    requires Inv(s) && d < |s.colls|
    requires t in C.Get(s.colls[d], bg).taken || t in C.Get(s.colls[d], bg).querying
    ensures t.req < |s.reqs| && t.db == d && t in Unfinished(s, t.req)
    ensures !R.Deserted(s.reqs[t.req]) ==> !R.OutputClosed(s.reqs[t.req]) && !R.Cancelled(s.reqs[t.req])
  {
    assert Accounted(s, t);
    assert C.Count(s.colls[d], t) > 0;
    if R.EndedWell(s.reqs[t.req]) {
      NothingLeft(s, t.req, t);
    }
  }

  // A step of a dispatcher or a worker that strands nothing; a task is dropped only if some
  // request has given up or broken off.
  predicate GoesOn(s: State, l: Label) {
    && Enabled(s, l)
    && (l.Inner? || l.Begin? || l.Deliver? || l.Drop?)
    && (Orderly(s, l) || (l.Drop? && !NoneDesertedIn(s.reqs)))
  }

  lemma ResultHasRoom(s: State, d: nat, bg: bool, t: Task)
    requires Inv(s) && d < |s.colls| && t in C.Get(s.colls[d], bg).querying
    ensures t.req < |s.reqs| && R.HasRoom(s.reqs[t.req])
  {
    StillWanted(s, d, bg, t);
    ResultsFit(s, t.req);
  }

  lemma WorkerGoesOn(s: State, d: nat, bg: bool, t: Task) returns (l: Label)
    requires Inv(s) && Going(s) && d < |s.colls|
    requires t in C.Get(s.colls[d], bg).taken || t in C.Get(s.colls[d], bg).querying
    ensures GoesOn(s, l)
  {
    StillWanted(s, d, bg, t);
    if t in C.Get(s.colls[d], bg).querying {
      ResultHasRoom(s, d, bg, t);
      l := Deliver(d, bg, t, Failure);
    } else if Interrupted(s, t) {
      l := Drop(d, bg, t);
    } else {
      l := Begin(d, bg, t);
    }
  }

  // A pool with work in it can go on.
  lemma PoolGoesOn(s: State, d: nat, bg: bool) returns (l: Label)
    requires Inv(s) && Going(s) && d < |s.colls|
    requires C.Get(s.colls[d], bg).queue != [] ==> s.colls[d].hand != C.Spawning(bg)
    requires var p := C.Get(s.colls[d], bg); p.queue != [] || p.taken != multiset{} || p.querying != multiset{}
    ensures GoesOn(s, l)
  {
    var p := C.Get(s.colls[d], bg);
    if t :| t in p.taken || t in p.querying {
      l := WorkerGoesOn(s, d, bg, t);
    } else {
      assert C.Attended(s.colls[d]);
      assert P.Active(p) == p.idle;
      l := Inner(d, C.Worker(bg, P.Taking));
    }
  }

  // The dispatcher asks for a worker, unless those on their way out have to go first.
  lemma DispatcherGoesOn(s: State, d: nat) returns (l: Label)
    requires Inv(s) && Going(s) && d < |s.colls| && s.colls[d].hand.Spawning?
    ensures GoesOn(s, l)
  {
    var c := s.colls[d];
    var p := C.Get(c, c.hand.bg);
    assert CollectorOk(c, s.limits[d], true);
    l := if P.Active(p) == 0 && p.leaving > 0 then Inner(d, C.Worker(c.hand.bg, P.Releasing))
         else Inner(d, C.Spawn(true));
  }

  // A collector with a task in it can go on, also when its dispatcher is blocked.
  lemma CollectorGoesOn(s: State, d: nat, t: Task) returns (l: Label)
    requires Inv(s) && Going(s) && d < |s.colls| && C.Count(s.colls[d], t) > 0
    ensures GoesOn(s, l)
  {
    var c := s.colls[d];
    if c.phase.Created? {
      l := Inner(d, C.Start);
    } else if c.hand.Spawning? {
      l := DispatcherGoesOn(s, d);
    } else if c.hand.Picked? {
      var bg := C.ToBackground(c, c.hand.t);
      if P.Full(C.Get(c, bg)) {
        l := PoolGoesOn(s, d, bg);
      } else {
        l := Inner(d, C.Enqueue);
      }
    } else if c.inbox != [] {
      l := Inner(d, C.Receive);
    } else if P.Count(c.std, t) > 0 {
      l := PoolGoesOn(s, d, false);
    } else {
      l := PoolGoesOn(s, d, true);
    }
  }

  // A request that waits for a result has a task in some collector.
  lemma AwaitedTask(s: State, r: nat) returns (t: Task)
    requires Inv(s) && NothingGivenUp(s) && r < |s.reqs|
    requires s.reqs[r].phase.Gathering? && s.reqs[r].scheduled > 0 && s.reqs[r].buffer == []
    ensures t.db < |s.colls| && C.Count(s.colls[t.db], t) > 0
  {
    var q := s.reqs[r];
    if forall u :: u in q.pairs ==> AtCollector(s, u) == 0 {
      forall u ensures multiset(q.pairs)[u] <= multiset(R.ChunkTasks(q.chunks))[u] {
        assert Accounted(s, u);
        assert u in q.pairs ==> AtCollector(s, u) == 0;
        R.DistinctPairs(q, r, u);
      }
      SubBagSize(multiset(q.pairs), multiset(R.ChunkTasks(q.chunks)));
    }
    t :| t in q.pairs && AtCollector(s, t) > 0;
  }

  // A request with a task to submit can go on, or the collector it waits for can.
  lemma SenderGoesOn(s: State, r: nat) returns (l: Label)
    requires Inv(s) && Steady(s) && HasNext(s, r)
    ensures Enabled(s, l) && Orderly(s, l) && !FromOutside(l)
  {
    RefusalNeverBlocks(s, r);
    if Looks(s, r) {
      l := if NoCollector(s, NextTask(s, r)) then Refuse(r) else Enter(r);
    } else if Inactive(s, r) {
      l := Refuse(r);
    } else if C.CanAccept(Found(s, r)) {
      l := Submit(r);
    } else {
      var d := NextTask(s, r).db;
      assert CollectorOk(s.colls[d], s.limits[d], true);
      assert C.Count(s.colls[d], s.colls[d].inbox[0]) > 0;
      l := CollectorGoesOn(s, d, s.colls[d].inbox[0]);
    }
  }

  // As long as one request has not closed, something other than an arrival can happen that
  // leaves no waiting task without a worker.
  lemma NoDeadlock(s: State, r: nat) returns (l: Label)
    requires Inv(s) && Steady(s) && r < |s.reqs| && !s.reqs[r].phase.Closed?
    ensures Enabled(s, l) && Orderly(s, l) && !FromOutside(l)
  {
    var q := s.reqs[r];
    match q.phase
    case Closing(_) => l := Alone(r, R.Close);
    case Sending =>
      if q.next == |q.pairs| {
        l := Alone(r, R.StartGather);
      } else {
        l := SenderGoesOn(s, r);
      }
    case Gathering =>
      if q.scheduled == 0 {
        l := Alone(r, R.Complete);
      } else if q.buffer != [] {
        l := Alone(r, R.Gather(true));
      } else {
        var t := AwaitedTask(s, r);
        l := CollectorGoesOn(s, t.db, t);
      }
  }

  // ---- so every such run ends with every task answered ----

  ghost predicate Answered(s: State) {
    forall r :: 0 <= r < |s.reqs| ==>
      && s.reqs[r].phase == R.Closed(true)
      && multiset(R.ChunkTasks(s.reqs[r].chunks)) == multiset(s.reqs[r].pairs)
  }

  ghost predicate AtRest(s: State) {
    forall l :: Orderly(s, l) && !FromOutside(l) ==> !Enabled(s, l)
  }

  lemma InitIsSteady(limits: seq<C.Limits>)
    requires Usable(limits)
    ensures Inv(Init(limits)) && Steady(Init(limits))
  {
  }

  lemma ClosedMeansAnswered(s: State)
    requires Inv(s) && NoneDesertedIn(s.reqs) && forall r :: 0 <= r < |s.reqs| ==> s.reqs[r].phase.Closed?
    ensures Answered(s)
  {
    forall r | 0 <= r < |s.reqs|
      ensures s.reqs[r].phase == R.Closed(true) && multiset(R.ChunkTasks(s.reqs[r].chunks)) == multiset(s.reqs[r].pairs)
    {
      assert !R.Deserted(s.reqs[r]);
      NothingLeft(s, r, Task(r, 0, 0, false));
    }
  }

  lemma RestMeansAnswered(s: State)
    requires Inv(s) && Steady(s) && AtRest(s)
    ensures Answered(s)
  {
    forall r | 0 <= r < |s.reqs| ensures s.reqs[r].phase.Closed? {
      if !s.reqs[r].phase.Closed? {
        var l := NoDeadlock(s, r);
        assert false;
      }
    }
    ClosedMeansAnswered(s);
  }

  // A run in which requests come in at any time, nobody gives up, no configuration arrives
  // and no step leaves waiting tasks without a worker: from any point after the last arrival
  // it takes at most Rank more steps, and where it cannot go on in this way every request is
  // closed and every task has been answered.
  lemma RunEndsAnswered(limits: seq<C.Limits>, ss: seq<State>, ls: seq<Label>, last: nat)
    requires OrderlyRun(ss, ls) && ss[0] == Init(limits) && Usable(limits) && last < |ss|
    requires forall k :: last <= k < |ls| ==> !ls[k].Arrive?
    ensures |ls| <= last + Rank(ss[last])
    ensures AtRest(ss[|ls|]) ==> Answered(ss[|ls|])
  {
    InitIsSteady(limits);
    OrderlyRunKeeps(ss, ls, |ls|);
    OrderlyRunKeeps(ss, ls, last);
    RunIsBounded(ss[last..], ls[last..], |ls| - last);
    if AtRest(ss[|ls|]) {
      RestMeansAnswered(ss[|ls|]);
    }
  }

  lemma OneStepOn(s: State, r: nat) returns (l: Label, s': State)
    requires Inv(s) && Steady(s) && r < |s.reqs| && !s.reqs[r].phase.Closed?
    ensures Enabled(s, l) && s' == Apply(s, l) && Orderly(s, l) && !FromOutside(l)
    ensures Inv(s') && Steady(s') && Rank(s') < Rank(s)
  {
    l := NoDeadlock(s, r);
    s' := Apply(s, l);
    OrderlyStepKeeps(s, l, s');
    StepLowersRank(s, l);
  }

  ghost predicate Completes(s: State, ss: seq<State>, ls: seq<Label>) {
    && OrderlyRun(ss, ls) && ss[0] == s && Answered(ss[|ls|])
    && forall k :: 0 <= k < |ls| ==> !FromOutside(ls[k])
  }

  lemma PrependCompletes(s: State, l: Label, s': State, ss: seq<State>, ls: seq<Label>)
    requires Completes(s', ss, ls) && Enabled(s, l) && s' == Apply(s, l) && Orderly(s, l) && !FromOutside(l)
    ensures Completes(s, [s] + ss, [l] + ls)
  {
    PrependRun(s, l, ss, ls);
    assert ([s] + ss)[|[l] + ls|] == ss[|ls|];
  }

  // And from every state such a run can reach, it can come to that end.
  lemma CanFinish(s: State) returns (ss: seq<State>, ls: seq<Label>)
    requires Inv(s) && Steady(s)
    ensures Completes(s, ss, ls)
    decreases Rank(s)
  {
    if r: nat :| r < |s.reqs| && !s.reqs[r].phase.Closed? {
      var l, s' := OneStepOn(s, r);
      ss, ls := CanFinish(s');
      PrependCompletes(s, l, s', ss, ls);
      ss, ls := [s] + ss, [l] + ls;
    } else {
      ClosedMeansAnswered(s);
      ss, ls := [s], [];
    }
  }

  // ---- runs that have no stranding step ----

  // A worker only ever leaves an empty queue, together with its slot.
  predicate Calm(l: Label) {
    Loose(l) && (l.Inner? ==> C.Calm(l.act))
  }

  predicate NoneLeaving(cs: seq<C.Collector>) {
    forall d :: 0 <= d < |cs| ==> C.NoneLeaving(cs[d])
  }

  lemma NoneLeavingChanges(cs: seq<C.Collector>, d: nat, c: C.Collector)
    requires d < |cs| && NoneLeaving(cs) && C.NoneLeaving(c)
    ensures NoneLeaving(cs[d := c])
  {
  }

  lemma CalmCollectorStep(s: State, d: nat, act: C.Act)
    requires CollectorsOk(s) && s.mode.Live? && Usable(s.limits) && NoneLeaving(s.colls)
    requires Enabled(s, Inner(d, act)) && Calm(Inner(d, act))
    ensures !Strands(s, Inner(d, act)) && NoneLeaving(s.colls[d := C.Do(s.colls[d], act, false)])
  {
    assert CollectorOk(s.colls[d], s.limits[d], true);
    C.CalmStrandsNothing(s.colls[d], act);
    NoneLeavingChanges(s.colls, d, C.Do(s.colls[d], act, false));
  }

  lemma CalmWorkStep(s: State, l: Label, s': State)
    requires NoneLeaving(s.colls) && Enabled(s, l) && s' == Apply(s, l) && (l.Begin? || l.Deliver?)
    ensures NoneLeaving(s'.colls)
  {
    var c := s.colls[l.d];
    NoneLeavingChanges(s.colls, l.d, if l.Begin? then C.Begin(c, l.bg, l.t) else C.Finish(c, l.bg, l.t));
  }

  lemma CalmSubmit(s: State, r: nat, s': State)
    requires NoneLeaving(s.colls) && Enabled(s, Submit(r)) && s' == Apply(s, Submit(r))
    ensures NoneLeaving(s'.colls)
  {
    var t := NextTask(s, r);
    NoneLeavingChanges(s.colls, t.db, C.Accept(s.colls[t.db], t));
  }

  lemma CalmStep(s: State, l: Label, s': State)
    requires CollectorsOk(s) && s.mode.Live? && Usable(s.limits) && NoneLeaving(s.colls)
    requires Enabled(s, l) && Calm(l) && s' == Apply(s, l)
    ensures Orderly(s, l) && NoneLeaving(s'.colls) && s'.mode.Live? && s'.limits == s.limits
  {
    match l
    case Inner(d, act) => CalmCollectorStep(s, d, act);
    case Begin(_, _, _) => CalmWorkStep(s, l, s');
    case Deliver(_, _, _, _) => CalmWorkStep(s, l, s');
    case Submit(r) => CalmSubmit(s, r, s');
    case _ =>
  }

  // So the theorems above hold of every such run.
  lemma {:induction false} CalmRunIsOrderly(limits: seq<C.Limits>, ss: seq<State>, ls: seq<Label>, i: nat)
    requires IsRun(ss, ls) && ss[0] == Init(limits) && Usable(limits) && i < |ss|
    requires forall k :: 0 <= k < |ls| ==> Calm(ls[k])
    ensures forall k :: 0 <= k < i ==> Orderly(ss[k], ls[k])
    ensures ss[i].mode.Live? && Usable(ss[i].limits) && NoneLeaving(ss[i].colls)
  {
    if i > 0 {
      CalmRunIsOrderly(limits, ss, ls, i - 1);
      InitialRun(limits, ss, ls, i - 1);
      CalmStep(ss[i - 1], ls[i - 1], ss[i]);
    }
  }

  // ---- what happens when tasks are stranded ----

  ghost predicate AtLooseRest(s: State) {
    forall l :: Loose(l) && !FromOutside(l) ==> !Enabled(s, l)
  }

  // Where a run cannot go on in any way, every task has been answered exactly if no work queue
  // was left without a worker.
  lemma RestOutcome(s: State)
    requires Inv(s) && NothingGivenUp(s) && Usable(s.limits) && AtLooseRest(s)
    ensures Answered(s) <==> forall d :: 0 <= d < |s.colls| ==> s.colls[d].std.queue == [] && s.colls[d].bg.queue == []
  {
    if forall d :: 0 <= d < |s.colls| ==> s.colls[d].std.queue == [] && s.colls[d].bg.queue == [] {
      assert Steady(s);
      RestMeansAnswered(s);
    }
    if Answered(s) {
      forall d | 0 <= d < |s.colls| ensures s.colls[d].std.queue == [] && s.colls[d].bg.queue == [] {
        if s.colls[d].std.queue != [] {
          QueuedIsUnanswered(s, d, s.colls[d].std.queue[0]);
        }
        if s.colls[d].bg.queue != [] {
          QueuedIsUnanswered(s, d, s.colls[d].bg.queue[0]);
        }
      }
    }
  }

  lemma QueuedIsUnanswered(s: State, d: nat, t: Task)
    requires Inv(s) && d < |s.colls| && (t in s.colls[d].std.queue || t in s.colls[d].bg.queue)
    ensures !Answered(s)
  {
    assert C.Count(s.colls[d], t) > 0;
    assert Accounted(s, t);
    if R.EndedWell(s.reqs[t.req]) {
      NothingLeft(s, t.req, t);
    }
  }
}
