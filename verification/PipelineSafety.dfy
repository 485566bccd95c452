/**
 What every step of the pipeline keeps, in every interleaving with cancellation and reload:
 requests and collectors keep to their bounds, and every task is exactly where it belongs.
 */
module PipelineSafety {
  import opened Tasks
  import opened Pipeline
  import P = Pools
  import C = Collectors
  import R = Requests

  // How often t exists, is at its request, is at the collector of its database.
  function ExpectedIn(qs: seq<R.Request>, t: Task): nat {
    if t.req < |qs| then multiset(qs[t.req].pairs)[t] else 0
  }

  function AtRequestIn(qs: seq<R.Request>, t: Task): nat {
    if t.req < |qs| then R.Count(qs[t.req], t) else 0
  }

  function AtCollectorIn(cs: seq<C.Collector>, t: Task): nat {
    if t.db < |cs| then C.Count(cs[t.db], t) else 0
  }

  function AtCollector(s: State, t: Task): nat {
    AtCollectorIn(s.colls, t)
  }

  // All the places where t may be: its request (not submitted, in the result channel, dealt
  // with), the collector of its database (inbox, dispatcher's hand, queues, workers), and
  // the two ways of being lost.
  function Total(s: State, t: Task): nat {
    AtRequestIn(s.reqs, t) + AtCollectorIn(s.colls, t) + s.dropped[t] + s.abandoned[t]
  }

  predicate EachOk(qs: seq<R.Request>) {
    forall r :: 0 <= r < |qs| ==> R.Inv(qs[r], r)
  }

  predicate RequestsOk(s: State) {
    EachOk(s.reqs)
  }

  // A collector with the given limits that, unless it is being stopped, has not ended.
  predicate CollectorOk(c: C.Collector, l: C.Limits, live: bool) {
    && C.Inv(c) && c.std.limit == l.std && c.bg.limit == l.bg
    && (live ==> c.phase.Created? || c.phase.Running?)
  }

  predicate AllOk(cs: seq<C.Collector>, limits: seq<C.Limits>, live: bool) {
    |cs| == |limits| && forall d :: 0 <= d < |cs| ==> CollectorOk(cs[d], limits[d], live)
  }

  predicate CollectorsOk(s: State) {
    AllOk(s.colls, s.limits, s.mode.Live?)
  }

  // Only the collector of its database and only its own request have t.
  predicate AtHome(cs: seq<C.Collector>, t: Task) {
    forall d :: 0 <= d < |cs| && C.Count(cs[d], t) > 0 ==> d == t.db
  }

  predicate Owned(qs: seq<R.Request>, t: Task) {
    forall r :: 0 <= r < |qs| && R.Count(qs[r], t) > 0 ==> r == t.req
  }

  // t is nowhere but where it belongs, and there it is exactly once if it exists at all.
  predicate Accounted(s: State, t: Task) {
    AtHome(s.colls, t) && Owned(s.reqs, t) && Total(s, t) == ExpectedIn(s.reqs, t)
  }

  ghost predicate Inv(s: State) {
    && RequestsOk(s)
    && CollectorsOk(s)
    && forall t :: Accounted(s, t)
  }

  lemma InitInv(limits: seq<C.Limits>)
    ensures Inv(Init(limits))
  {
  }

  // ---- the ways in which a step moves a task ----

  lemma CollectorUpdate(cs: seq<C.Collector>, d: nat, c: C.Collector, u: Task)
    requires AtHome(cs, u) && d < |cs| && (C.Count(c, u) > 0 ==> d == u.db)
    ensures AtHome(cs[d := c], u)
    ensures AtCollectorIn(cs[d := c], u) + C.Count(cs[d], u) == AtCollectorIn(cs, u) + C.Count(c, u)
  {
  }

  lemma RequestUpdate(qs: seq<R.Request>, r: nat, q: R.Request, u: Task)
    requires Owned(qs, u) && r < |qs| && q.pairs == qs[r].pairs && (R.Count(q, u) > 0 ==> r == u.req)
    ensures Owned(qs[r := q], u) && ExpectedIn(qs[r := q], u) == ExpectedIn(qs, u)
    ensures AtRequestIn(qs[r := q], u) + R.Count(qs[r], u) == AtRequestIn(qs, u) + R.Count(q, u)
  {
  }

  // Request r changes without letting go of or gaining a task.
  lemma Stays(s: State, r: nat, q: R.Request, u: Task)
    requires RequestsOk(s) && Accounted(s, u) && r < |s.reqs|
    requires R.Inv(q, r) && q.pairs == s.reqs[r].pairs && R.Count(q, u) == R.Count(s.reqs[r], u)
    ensures RequestsOk(WithReq(s, r, q)) && Accounted(WithReq(s, r, q), u)
  {
    RequestUpdate(s.reqs, r, q, u);
  }

  // Request r hands t to the collector of its database.
  lemma Hands(s: State, r: nat, q: R.Request, c: C.Collector, t: Task, u: Task)
    requires RequestsOk(s) && Accounted(s, u) && r < |s.reqs| && t.db < |s.colls| && t.req == r
    requires R.Inv(q, r) && q.pairs == s.reqs[r].pairs
    requires R.Count(s.reqs[r], u) == R.Count(q, u) + P.One(t, u)
    requires C.Count(c, u) == C.Count(s.colls[t.db], u) + P.One(t, u)
    ensures var s' := WithColl(WithReq(s, r, q), t.db, c); RequestsOk(s') && Accounted(s', u)
  {
    RequestUpdate(s.reqs, r, q, u);
    CollectorUpdate(s.colls, t.db, c, u);
  }

  // Request r loses t.
  lemma Gives(s: State, r: nat, q: R.Request, t: Task, u: Task)
    requires RequestsOk(s) && Accounted(s, u) && r < |s.reqs| && t.req == r
    requires R.Inv(q, r) && q.pairs == s.reqs[r].pairs
    requires R.Count(s.reqs[r], u) == R.Count(q, u) + P.One(t, u)
    ensures var s' := WithReq(s, r, q).(dropped := s.dropped + multiset{t}); RequestsOk(s') && Accounted(s', u)
  {
    RequestUpdate(s.reqs, r, q, u);
    assert (s.dropped + multiset{t})[u] == s.dropped[u] + P.One(t, u);
  }

  // The collector of its database answers t.
  lemma Answers(s: State, c: C.Collector, q: R.Request, t: Task, u: Task)
    requires RequestsOk(s) && Accounted(s, u) && t.req < |s.reqs| && t.db < |s.colls|
    requires R.Inv(q, t.req) && q.pairs == s.reqs[t.req].pairs
    requires C.Count(s.colls[t.db], u) == C.Count(c, u) + P.One(t, u)
    requires R.Count(q, u) == R.Count(s.reqs[t.req], u) + P.One(t, u)
    ensures var s' := WithReq(WithColl(s, t.db, c), t.req, q); RequestsOk(s') && Accounted(s', u)
  {
    RequestUpdate(s.reqs, t.req, q, u);
    CollectorUpdate(s.colls, t.db, c, u);
  }

  // The collector of its database loses t.
  lemma Loses(s: State, c: C.Collector, t: Task, panicked: bool, u: Task)
    requires RequestsOk(s) && Accounted(s, u) && t.db < |s.colls|
    requires C.Count(s.colls[t.db], u) == C.Count(c, u) + P.One(t, u)
    ensures var s' := WithColl(s, t.db, c).(dropped := s.dropped + multiset{t}, panicked := panicked);
      RequestsOk(s') && Accounted(s', u)
  {
    CollectorUpdate(s.colls, t.db, c, u);
    assert (s.dropped + multiset{t})[u] == s.dropped[u] + P.One(t, u);
  }

  // Collector d changes without letting go of a task, or abandons the bag m.
  lemma Leaves(s: State, d: nat, c: C.Collector, m: multiset<Task>, u: Task)
    requires RequestsOk(s) && Accounted(s, u) && d < |s.colls|
    requires C.Count(s.colls[d], u) == C.Count(c, u) + m[u]
    ensures var s' := WithColl(s, d, c).(abandoned := s.abandoned + m); RequestsOk(s') && Accounted(s', u)
  {
  }

  // ---- each label is one of them ----

  // A task on a worker belongs to the request and the database it names.
  lemma WorkerTask(s: State, d: nat, bg: bool, t: Task)
    requires RequestsOk(s) && Accounted(s, t) && (Taken(s, d, bg, t) || Querying(s, d, bg, t))
    ensures t.db == d && C.Count(s.colls[d], t) > 0
    ensures t in s.reqs[t.req].pairs
  {
  }

  // A collector without workers holds tasks only in its inbox, its hand and its queues.
  lemma NothingRuns(c: C.Collector, u: Task)
    requires C.Workers(c) == 0 && c.hand.Waiting?
    ensures C.Count(c, u) == multiset(c.inbox)[u] + multiset(c.std.queue)[u] + multiset(c.bg.queue)[u]
  {
  }

  lemma InnerKeeps(s: State, d: nat, act: C.Act, u: Task)
    requires RequestsOk(s) && CollectorsOk(s) && Accounted(s, u) && Enabled(s, Inner(d, act))
    ensures var s' := Apply(s, Inner(d, act)); RequestsOk(s') && Accounted(s', u)
  {
    var c := s.colls[d];
    var c' := C.Do(c, act, s.mode.Stopping?);
    C.DoKeepsTasks(c, act, s.mode.Stopping?, u);
    if act.Exit? {
      NothingRuns(c, u);
      var m := multiset(c.inbox) + multiset(c.std.queue) + multiset(c.bg.queue);
      Leaves(s, d, c', m, u);
      assert s.abandoned + m == s.abandoned + multiset(c.inbox) + multiset(c.std.queue) + multiset(c.bg.queue);
    } else {
      Leaves(s, d, c', multiset{}, u);
      assert s.abandoned + multiset{} == s.abandoned;
    }
  }

  lemma BeginKeeps(s: State, d: nat, bg: bool, t: Task, u: Task)
    requires RequestsOk(s) && Accounted(s, u) && Enabled(s, Begin(d, bg, t))
    ensures var s' := Apply(s, Begin(d, bg, t)); RequestsOk(s') && Accounted(s', u)
  {
    C.BeginCounts(s.colls[d], bg, t, u);
    Leaves(s, d, C.Begin(s.colls[d], bg, t), multiset{}, u);
    assert s.abandoned + multiset{} == s.abandoned;
  }

  lemma DropKeeps(s: State, d: nat, bg: bool, t: Task, u: Task)
    requires RequestsOk(s) && Accounted(s, u) && Accounted(s, t) && Enabled(s, Drop(d, bg, t))
    ensures var s' := Apply(s, Drop(d, bg, t)); RequestsOk(s') && Accounted(s', u)
  {
    WorkerTask(s, d, bg, t);
    C.FinishCounts(s.colls[d], bg, t, u);
    Loses(s, C.Finish(s.colls[d], bg, t), t, s.panicked, u);
  }

  lemma DeliverKeeps(s: State, d: nat, bg: bool, t: Task, answer: Answer, u: Task)
    requires RequestsOk(s) && Accounted(s, u) && Accounted(s, t) && Enabled(s, Deliver(d, bg, t, answer))
    requires !R.OutputClosed(s.reqs[t.req])
    ensures var s' := Apply(s, Deliver(d, bg, t, answer)); RequestsOk(s') && Accounted(s', u)
    ensures Apply(s, Deliver(d, bg, t, answer)).reqs[t.req].buffer == s.reqs[t.req].buffer + [Result(t, answer)]
  {
    WorkerTask(s, d, bg, t);
    C.FinishCounts(s.colls[d], bg, t, u);
    R.ReceiveKeeps(s.reqs[t.req], t.req, Result(t, answer));
    Answers(s, C.Finish(s.colls[d], bg, t), R.Receive(s.reqs[t.req], Result(t, answer)), t, u);
  }

  lemma PanicKeeps(s: State, d: nat, bg: bool, t: Task, answer: Answer, u: Task)
    requires RequestsOk(s) && Accounted(s, u) && Accounted(s, t) && Enabled(s, Deliver(d, bg, t, answer))
    requires R.OutputClosed(s.reqs[t.req])
    ensures var s' := Apply(s, Deliver(d, bg, t, answer)); RequestsOk(s') && Accounted(s', u)
  {
    WorkerTask(s, d, bg, t);
    C.FinishCounts(s.colls[d], bg, t, u);
    Loses(s, C.Finish(s.colls[d], bg, t), t, true, u);
  }

  lemma SubmitKeeps(s: State, r: nat, u: Task)
    requires RequestsOk(s) && Accounted(s, u) && Enabled(s, Submit(r))
    ensures var s' := Apply(s, Submit(r)); RequestsOk(s') && Accounted(s', u)
  {
    var t := NextTask(s, r);
    R.SentKeeps(s.reqs[r], r);
    R.SentCounts(s.reqs[r], u);
    Hands(s, r, R.Sent(s.reqs[r]), C.Accept(s.colls[t.db], t), t, u);
  }

  lemma RefuseKeeps(s: State, r: nat, u: Task)
    requires RequestsOk(s) && Accounted(s, u) && Enabled(s, Refuse(r))
    ensures var s' := Apply(s, Refuse(r)); RequestsOk(s') && Accounted(s', u)
    ensures Apply(s, Refuse(r)).reqs[r].buffer == s.reqs[r].buffer + [Result(NextTask(s, r), Failure)]
  {
    var q, res := s.reqs[r], Result(NextTask(s, r), Failure);
    R.SentKeeps(q, r);
    R.SentCounts(q, u);
    R.ReceiveKeeps(R.Sent(q), r, res);
    Stays(s, r, R.Receive(R.Sent(q), res), u);
  }

  lemma CrashKeeps(s: State, r: nat, u: Task)
    requires RequestsOk(s) && Accounted(s, u) && Enabled(s, Crash(r))
    ensures var s' := Apply(s, Crash(r)); RequestsOk(s') && Accounted(s', u)
  {
    R.BreakKeeps(s.reqs[r], r);
    Stays(s, r, R.Break(s.reqs[r]), u);
  }

  // A new request, which has all of its own tasks and none of anybody else's.
  lemma RequestAppend(qs: seq<R.Request>, q: R.Request, u: Task)
    requires Owned(qs, u) && (R.Count(q, u) > 0 ==> u.req == |qs|)
    ensures Owned(qs + [q], u)
    ensures u.req != |qs| ==>
              AtRequestIn(qs + [q], u) == AtRequestIn(qs, u) && ExpectedIn(qs + [q], u) == ExpectedIn(qs, u)
    ensures u.req == |qs| ==>
              AtRequestIn(qs + [q], u) == R.Count(q, u) && ExpectedIn(qs + [q], u) == multiset(q.pairs)[u]
  {
  }

  lemma EachOkAppend(qs: seq<R.Request>, q: R.Request)
    requires EachOk(qs) && R.Inv(q, |qs|)
    ensures EachOk(qs + [q])
  {
  }

  lemma Joins(s: State, q: R.Request, u: Task)
    requires RequestsOk(s) && Accounted(s, u) && R.Inv(q, |s.reqs|)
    requires R.Count(q, u) == multiset(q.pairs)[u] && (u in q.pairs ==> u.req == |s.reqs|)
    ensures var s' := s.(reqs := s.reqs + [q]); RequestsOk(s') && Accounted(s', u)
  {
    EachOkAppend(s.reqs, q);
    RequestAppend(s.reqs, q, u);
  }

  lemma ArriveKeeps(s: State, job: bool, patient: bool, dbs: seq<nat>, u: Task)
    requires RequestsOk(s) && Accounted(s, u) && Enabled(s, Arrive(job, patient, dbs))
    ensures var s' := Apply(s, Arrive(job, patient, dbs)); RequestsOk(s') && Accounted(s', u)
  {
    var q := R.NewRequest(|s.reqs|, job, patient, dbs);
    R.NewRequestCounts(|s.reqs|, job, patient, dbs);
    R.DistinctPairs(q, |s.reqs|, u);
    Joins(s, q, u);
  }

  lemma RestartKeeps(s: State, u: Task)
    requires RequestsOk(s) && CollectorsOk(s) && Accounted(s, u) && Enabled(s, Restart)
    ensures var s' := Apply(s, Restart); RequestsOk(s') && Accounted(s', u)
  {
    if u.db < |s.colls| {
      C.UnusedHoldsNothing(s.colls[u.db]);
    }
  }

  lemma StepAccounts(s: State, l: Label, u: Task)
    requires Inv(s) && Enabled(s, l)
    ensures RequestsOk(Apply(s, l)) && Accounted(Apply(s, l), u)
  {
    assert Accounted(s, u);
    match l
    case Arrive(job, patient, dbs) => ArriveKeeps(s, job, patient, dbs, u);
    case Alone(r, move) =>
      R.DoKeeps(s.reqs[r], r, move);
      Stays(s, r, R.Do(s.reqs[r], move), u);
    case Enter(r) =>
      R.EnteredKeeps(s.reqs[r], r, s.gen);
      Stays(s, r, R.Entered(s.reqs[r], s.gen), u);
    case Submit(r) => SubmitKeeps(s, r, u);
    case Refuse(r) => RefuseKeeps(s, r, u);
    case Crash(r) => CrashKeeps(s, r, u);
    case GiveUp(r) =>
      R.SentKeeps(s.reqs[r], r);
      R.SentCounts(s.reqs[r], u);
      Gives(s, r, R.Sent(s.reqs[r]), NextTask(s, r), u);
    case Inner(d, act) => InnerKeeps(s, d, act, u);
    case Begin(d, bg, t) =>
      BeginKeeps(s, d, bg, t, u);
    case Deliver(d, bg, t, answer) =>
      assert Accounted(s, t);
      if R.OutputClosed(s.reqs[t.req]) {
        PanicKeeps(s, d, bg, t, answer, u);
      } else {
        DeliverKeeps(s, d, bg, t, answer, u);
      }
    case Drop(d, bg, t) =>
      assert Accounted(s, t);
      DropKeeps(s, d, bg, t, u);
    case Reload(_) =>
    case Restart => RestartKeeps(s, u);
  }

  lemma CollectorChanges(s: State, d: nat, c: C.Collector)
    requires CollectorsOk(s) && d < |s.colls|
    requires C.Inv(c) && C.SameLimits(s.colls[d], c)
    requires s.mode.Live? ==> c.phase.Created? || c.phase.Running?
    ensures AllOk(s.colls[d := c], s.limits, s.mode.Live?)
  {
  }

  lemma WorkerStepKeepsCollectors(s: State, d: nat, bg: bool, t: Task)
    requires CollectorsOk(s) && (Taken(s, d, bg, t) || Querying(s, d, bg, t))
    ensures Taken(s, d, bg, t) ==> AllOk(s.colls[d := C.Begin(s.colls[d], bg, t)], s.limits, s.mode.Live?)
    ensures AllOk(s.colls[d := C.Finish(s.colls[d], bg, t)], s.limits, s.mode.Live?)
  {
    if Taken(s, d, bg, t) {
      C.BeginKeeps(s.colls[d], bg, t);
      CollectorChanges(s, d, C.Begin(s.colls[d], bg, t));
    }
    C.FinishKeeps(s.colls[d], bg, t);
    CollectorChanges(s, d, C.Finish(s.colls[d], bg, t));
  }

  lemma StepKeepsCollectors(s: State, l: Label)
    requires CollectorsOk(s) && Enabled(s, l)
    ensures CollectorsOk(Apply(s, l))
  {
    match l
    case Inner(d, act) =>
      C.DoKeepsInv(s.colls[d], act, s.mode.Stopping?);
      CollectorChanges(s, d, C.Do(s.colls[d], act, s.mode.Stopping?));
    case Begin(d, bg, t) => WorkerStepKeepsCollectors(s, d, bg, t);
    case Deliver(d, bg, t, _) => WorkerStepKeepsCollectors(s, d, bg, t);
    case Drop(d, bg, t) => WorkerStepKeepsCollectors(s, d, bg, t);
    case Submit(r) =>
      var t := NextTask(s, r);
      CollectorChanges(s, t.db, C.Accept(s.colls[t.db], t));
    case _ =>
  }

  // Every step, of every actor, keeps the invariant.
  lemma StepKeepsInv(s: State, l: Label)
    requires Inv(s) && Enabled(s, l)
    ensures Inv(Apply(s, l))
  {
    StepKeepsCollectors(s, l);
    StepAccounts(s, l, Task(0, 0, 0, false));
    forall u ensures Accounted(Apply(s, l), u) {
      StepAccounts(s, l, u);
    }
  }

  lemma {:induction false} RunKeepsInv(ss: seq<State>, ls: seq<Label>, i: nat)
    requires IsRun(ss, ls) && Inv(ss[0]) && i < |ss|
    ensures Inv(ss[i])
  {
    if i > 0 {
      RunKeepsInv(ss, ls, i - 1);
      StepKeepsInv(ss[i - 1], ls[i - 1]);
    }
  }
}
