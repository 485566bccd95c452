/**
 The whole task pipeline as an interleaved transition system: requests and scheduler jobs,
 the collectors of the current generation, the workers, cancellation and reload. A label
 names the actor and the atomic step it takes; `Enabled` says when it may take it and
 `Apply` what the state is afterwards.
 */
module Pipeline {
  import opened Tasks
  import C = Collectors
  import R = Requests

  // `Stopping`: cs.collectors is nil and the generation's context is cancelled, because a
  // configuration with the limits `next` has arrived.
  datatype Mode = Live | Stopping(next: seq<C.Limits>)

  datatype State = State(
    mode: Mode,
    gen: nat,                     // the number of generations before the current one
    limits: seq<C.Limits>,        // the configuration of the current generation
    colls: seq<C.Collector>,      // its collectors, by database
    reqs: seq<R.Request>,         // every request and job run ever begun
    dropped: multiset<Task>,      // given up because of a cancelled context or channel
    abandoned: multiset<Task>,    // left in the queues of a stopped collector
    panicked: bool,               // a worker has sent a result on a closed channel
    crashed: bool)                // a job has sent its task to a closed inbox

  datatype Label =
    | Arrive(job: bool, patient: bool, dbs: seq<nat>)
    | Alone(r: nat, move: R.Act)
    | Enter(r: nat)
    | Submit(r: nat)
    | Refuse(r: nat)
    | GiveUp(r: nat)
    | Crash(r: nat)
    | Inner(d: nat, act: C.Act)
    | Begin(d: nat, bg: bool, t: Task)
    | Deliver(d: nat, bg: bool, t: Task, answer: Answer)
    | Drop(d: nat, bg: bool, t: Task)
    | Reload(next: seq<C.Limits>)
    | Restart

  function NewGeneration(limits: seq<C.Limits>): seq<C.Collector> {
    seq(|limits|, d requires 0 <= d < |limits| => C.NewCollector(limits[d]))
  }

  function Init(limits: seq<C.Limits>): State {
    State(Live, 0, limits, NewGeneration(limits), [], multiset{}, multiset{}, false, false)
  }

  // AddTask finds no collector for the task: there is no such database, or a generation is
  // being stopped.
  predicate NoCollector(s: State, t: Task) {
    s.mode.Stopping? || t.db >= |s.colls|
  }

  // A request that has a pair to submit and has not looked for its collector, or has found
  // one.
  predicate HasNext(s: State, r: nat) {
    && r < |s.reqs|
    && s.reqs[r].phase.Sending? && s.reqs[r].next < |s.reqs[r].pairs|
  }

  function NextTask(s: State, r: nat): Task
    requires HasNext(s, r)
  {
    s.reqs[r].pairs[s.reqs[r].next]
  }

  predicate Looks(s: State, r: nat) {
    HasNext(s, r) && s.reqs[r].inside.None?
  }

  predicate Inside(s: State, r: nat) {
    HasNext(s, r) && s.reqs[r].inside.Some?
  }

  // The collector it has found is one of the current generation.
  predicate AtCurrent(s: State, r: nat) {
    Inside(s, r) && s.reqs[r].inside.value == s.gen && NextTask(s, r).db < |s.colls|
  }

  function Found(s: State, r: nat): C.Collector
    requires AtCurrent(s, r)
  {
    s.colls[NextTask(s, r).db]
  }

  // It has no inbox yet; this refusal does not watch the request's context.
  predicate Inactive(s: State, r: nat) {
    AtCurrent(s, r) && Found(s, r).phase.Created?
  }

  // It has returned, and has closed its inbox.
  predicate InboxClosed(s: State, r: nat) {
    Inside(s, r) && (AtCurrent(s, r) ==> Found(s, r).phase.Exited?)
  }

  predicate Querying(s: State, d: nat, bg: bool, t: Task) {
    d < |s.colls| && t in C.Get(s.colls[d], bg).querying && t.req < |s.reqs|
  }

  predicate Taken(s: State, d: nat, bg: bool, t: Task) {
    d < |s.colls| && t in C.Get(s.colls[d], bg).taken && t.req < |s.reqs|
  }

  // The worker sees a closed cancel channel or a cancelled context.
  predicate Interrupted(s: State, t: Task)
    requires t.req < |s.reqs|
  {
    s.mode.Stopping? || R.Cancelled(s.reqs[t.req])
  }

  // Nothing outside of the handlers of HTTP requests has panicked.
  predicate Up(s: State) {
    !s.panicked && !s.crashed
  }

  predicate Enabled(s: State, l: Label) {
    && Up(s)
    && match l
       case Arrive(job, patient, dbs) => (job ==> |dbs| == 1) && (patient ==> job)
       case Alone(r, move) => r < |s.reqs| && R.Can(s.reqs[r], move)
       case Enter(r) => Looks(s, r) && !NoCollector(s, NextTask(s, r))
       case Submit(r) => AtCurrent(s, r) && C.CanAccept(Found(s, r))
       case Refuse(r) => ((Looks(s, r) && NoCollector(s, NextTask(s, r))) || Inactive(s, r)) && R.HasRoom(s.reqs[r])
       case GiveUp(r) =>
         && ((Looks(s, r) && NoCollector(s, NextTask(s, r))) || (Inside(s, r) && !Inactive(s, r)))
         && s.reqs[r].expired
       case Crash(r) => InboxClosed(s, r)
       case Inner(d, act) => d < |s.colls| && C.Can(s.colls[d], act, s.mode.Stopping?)
       case Begin(d, bg, t) => Taken(s, d, bg, t) && !Interrupted(s, t)
       case Deliver(d, bg, t, _) => Querying(s, d, bg, t) && (R.OutputClosed(s.reqs[t.req]) || R.HasRoom(s.reqs[t.req]))
       case Drop(d, bg, t) => (Taken(s, d, bg, t) || Querying(s, d, bg, t)) && Interrupted(s, t)
       case Reload(_) => s.mode.Live?
       case Restart => s.mode.Stopping? && forall d :: 0 <= d < |s.colls| ==> s.colls[d].phase.Exited?
  }

  function WithReq(s: State, r: nat, q: R.Request): State
    requires r < |s.reqs|
  {
    s.(reqs := s.reqs[r := q])
  }

  function WithColl(s: State, d: nat, c: C.Collector): State
    requires d < |s.colls|
  {
    s.(colls := s.colls[d := c])
  }

  function DoSubmit(s: State, r: nat): State
    requires Enabled(s, Submit(r))
  {
    var t := NextTask(s, r);
    WithColl(WithReq(s, r, R.Sent(s.reqs[r])), t.db, C.Accept(s.colls[t.db], t))
  }

  function DoRefuse(s: State, r: nat): State
    requires Enabled(s, Refuse(r))
  {
    WithReq(s, r, R.Receive(R.Sent(s.reqs[r]), Result(NextTask(s, r), Failure)))
  }

  function DoGiveUp(s: State, r: nat): State
    requires Enabled(s, GiveUp(r))
  {
    WithReq(s, r, R.Sent(s.reqs[r])).(dropped := s.dropped + multiset{NextTask(s, r)})
  }

  function DoInner(s: State, d: nat, act: C.Act): State
    requires Enabled(s, Inner(d, act))
  {
    var c := s.colls[d];
    var s' := WithColl(s, d, C.Do(c, act, s.mode.Stopping?));
    if act.Exit? then s'.(abandoned := s.abandoned + multiset(c.inbox) + multiset(c.std.queue) + multiset(c.bg.queue))
    else s'
  }

  function DoDeliver(s: State, d: nat, bg: bool, t: Task, answer: Answer): State
    requires Enabled(s, Deliver(d, bg, t, answer))
  {
    var s' := WithColl(s, d, C.Finish(s.colls[d], bg, t));
    if R.OutputClosed(s.reqs[t.req]) then s'.(panicked := true, dropped := s.dropped + multiset{t})
    else WithReq(s', t.req, R.Receive(s.reqs[t.req], Result(t, answer)))
  }

  function DoDrop(s: State, d: nat, bg: bool, t: Task): State
    requires Enabled(s, Drop(d, bg, t))
  {
    WithColl(s, d, C.Finish(s.colls[d], bg, t)).(dropped := s.dropped + multiset{t})
  }

  function Apply(s: State, l: Label): State
    requires Enabled(s, l)
  {
    match l
    case Arrive(job, patient, dbs) => s.(reqs := s.reqs + [R.NewRequest(|s.reqs|, job, patient, dbs)])
    case Alone(r, move) => WithReq(s, r, R.Do(s.reqs[r], move))
    case Enter(r) => WithReq(s, r, R.Entered(s.reqs[r], s.gen))
    case Submit(r) => DoSubmit(s, r)
    case Refuse(r) => DoRefuse(s, r)
    case GiveUp(r) => DoGiveUp(s, r)
    case Crash(r) => WithReq(s, r, R.Break(s.reqs[r])).(crashed := s.reqs[r].job)
    case Inner(d, act) => DoInner(s, d, act)
    case Begin(d, bg, t) => WithColl(s, d, C.Begin(s.colls[d], bg, t))
    case Deliver(d, bg, t, answer) => DoDeliver(s, d, bg, t, answer)
    case Drop(d, bg, t) => DoDrop(s, d, bg, t)
    case Reload(next) => s.(mode := Stopping(next))
    case Restart => s.(mode := Live, gen := s.gen + 1, limits := s.mode.next, colls := NewGeneration(s.mode.next))
  }

  // What a step does to the requests alone.
  function ReqsAfter(s: State, l: Label): seq<R.Request>
    requires Enabled(s, l)
  {
    match l
    case Arrive(job, patient, dbs) => s.reqs + [R.NewRequest(|s.reqs|, job, patient, dbs)]
    case Alone(r, move) => s.reqs[r := R.Do(s.reqs[r], move)]
    case Enter(r) => s.reqs[r := R.Entered(s.reqs[r], s.gen)]
    case Submit(r) => s.reqs[r := R.Sent(s.reqs[r])]
    case Refuse(r) => s.reqs[r := R.Receive(R.Sent(s.reqs[r]), Result(NextTask(s, r), Failure))]
    case GiveUp(r) => s.reqs[r := R.Sent(s.reqs[r])]
    case Crash(r) => s.reqs[r := R.Break(s.reqs[r])]
    case Deliver(_, _, t, answer) =>
      if R.OutputClosed(s.reqs[t.req]) then s.reqs
      else s.reqs[t.req := R.Receive(s.reqs[t.req], Result(t, answer))]
    case _ => s.reqs
  }

  lemma ReqsOfApply(s: State, l: Label)
    requires Enabled(s, l)
    ensures Apply(s, l).reqs == ReqsAfter(s, l)
  {
  }

  // A run: the states it goes through and the steps between them.
  ghost predicate IsRun(ss: seq<State>, ls: seq<Label>) {
    && |ss| == |ls| + 1
    && forall i :: 0 <= i < |ls| ==> Enabled(ss[i], ls[i]) && ss[i + 1] == Apply(ss[i], ls[i])
  }

  lemma PrependRun(s: State, l: Label, ss: seq<State>, ls: seq<Label>)
    requires IsRun(ss, ls) && Enabled(s, l) && ss[0] == Apply(s, l)
    ensures IsRun([s] + ss, [l] + ls)
  {
  }
}
