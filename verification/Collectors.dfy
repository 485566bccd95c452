/**
 One database's collector: a dispatcher that takes tasks from an inbox of one place and
 distributes them to a standard and a background pool. Each function below is one atomic
 section of the dispatcher or of a worker.
 */
module Collectors {
  import opened Tasks
  import P = Pools

  const INBOX_SIZE: nat := 1

  // Where the dispatcher stands: in its `select`, holding a task it has to put on a work
  // queue, or past the queue and about to ask for a worker.
  datatype Hand = Waiting | Picked(t: Task) | Spawning(bg: bool)

  datatype Phase = Created | Running | Draining | Exited

  datatype Limits = Limits(std: int, bg: int)

  datatype Collector = Collector(phase: Phase, inbox: seq<Task>, hand: Hand, std: P.Pool, bg: P.Pool)

  function NewCollector(l: Limits): (c: Collector)
    ensures Inv(c) && Workers(c) == 0
    ensures forall u :: Count(c, u) == 0
  {
    Collector(Created, [], Waiting, P.NewPool(l.std), P.NewPool(l.bg))
  }

  // How often t is somewhere inside the collector.
  function Count(c: Collector, t: Task): nat {
    multiset(c.inbox)[t] + (if c.hand.Picked? then P.One(c.hand.t, t) else 0)
    + P.Count(c.std, t) + P.Count(c.bg, t)
  }

  function Workers(c: Collector): nat {
    P.Live(c.std) + P.Live(c.bg)
  }

  // Scheduled tasks go to the background pool when there is one.
  predicate ToBackground(c: Collector, t: Task) {
    t.job && c.bg.limit > 0
  }

  function Get(c: Collector, bg: bool): P.Pool {
    if bg then c.bg else c.std
  }

  function Set(c: Collector, bg: bool, p: P.Pool): Collector {
    if bg then c.(bg := p) else c.(std := p)
  }

  predicate Unused(c: Collector) {
    && Workers(c) == 0
    && c.inbox == [] && c.hand.Waiting? && c.std.queue == [] && c.bg.queue == []
  }

  lemma UnusedHoldsNothing(c: Collector)
    requires Unused(c)
    ensures forall u :: Count(c, u) == 0
  {
  }

  predicate Inv(c: Collector) {
    && P.Inv(c.std) && P.Inv(c.bg)
    && |c.inbox| <= INBOX_SIZE
    && (c.phase.Created? ==> c.inbox == [])
    && (!c.phase.Running? ==> c.hand.Waiting?)
    && (c.phase.Created? || c.phase.Exited? ==> Unused(c))
    && (c.bg.limit <= 0 ==> c.bg.queue == [] && P.Live(c.bg) == 0)
    && (c.hand.Spawning? && c.hand.bg ==> c.bg.limit > 0)
  }

  predicate SameLimits(c: Collector, c': Collector) {
    c'.std.limit == c.std.limit && c'.bg.limit == c.bg.limit
  }

  // A pool with waiting tasks has a worker that will come back to its queue, or is about to
  // be given one.
  predicate PoolAttended(c: Collector, bg: bool) {
    Get(c, bg).queue != [] && c.hand != Spawning(bg) ==> P.Active(Get(c, bg)) > 0
  }

  predicate Attended(c: Collector) {
    PoolAttended(c, true) && PoolAttended(c, false)
  }

  function PhaseRank(c: Collector): nat {
    match c.phase case Created => 3 case Running => 2 case Draining => 1 case Exited => 0
  }

  function HandRank(c: Collector): nat {
    match c.hand case Waiting => 0 case Picked(_) => 8 case Spawning(_) => 3
  }

  function Rank(c: Collector): nat {
    PhaseRank(c) + 9 * |c.inbox| + HandRank(c) + P.Rank(c.std) + P.Rank(c.bg)
  }

  // addTask while the inbox exists, is not closed yet and has room.
  function Accept(c: Collector, t: Task): (c': Collector)
    requires CanAccept(c)
    ensures Inv(c) ==> Inv(c')
    ensures forall u :: Count(c', u) == Count(c, u) + P.One(t, u)
    ensures Rank(c') == Rank(c) + 9
  {
    c.(inbox := c.inbox + [t])
  }

  predicate CanAccept(c: Collector) {
    (c.phase.Running? || c.phase.Draining?) && |c.inbox| < INBOX_SIZE
  }

  // The inbox has one place, and takes a task while it is open.
  lemma AcceptsExactly(c: Collector)
    ensures CanAccept(c) <==> !c.phase.Created? && !c.phase.Exited? && c.inbox == []
  {
  }

  // The steps a collector takes without regard to the requests it works for. `Spawn` is the
  // end of spawnWorker: the dispatcher, which has itself just filled the queue, has found a
  // task there unless a worker was faster, and may find that worker's group full or not.
  datatype Act = Start | Receive | Enqueue | Spawn(found: bool) | Stop | Exit | Worker(bg: bool, move: P.Move)

  // `stopping`: the context of the collector's generation is cancelled.
  predicate Can(c: Collector, a: Act, stopping: bool) {
    match a
    case Start => c.phase.Created?
    case Receive => c.phase.Running? && c.hand.Waiting? && c.inbox != []
    case Enqueue => c.hand.Picked? && !P.Full(Get(c, ToBackground(c, c.hand.t)))
    case Spawn(found) => c.hand.Spawning? && (found || Get(c, c.hand.bg).queue == [])
    case Stop => stopping && c.phase.Running? && c.hand.Waiting?
    case Exit => c.phase.Draining? && Workers(c) == 0
    case Worker(bg, m) => P.CanMove(Get(c, bg), m)
  }

  function Do(c: Collector, a: Act, stopping: bool): Collector
    requires Can(c, a, stopping)
  {
    match a
    case Start => c.(phase := Running)
    case Receive => c.(inbox := c.inbox[1..], hand := Picked(c.inbox[0]))
    case Enqueue =>
      if ToBackground(c, c.hand.t)
      then c.(bg := P.Enqueue(c.bg, c.hand.t), hand := Spawning(true))
      else c.(std := P.Enqueue(c.std, c.hand.t), hand := Spawning(false))
    case Spawn(found) => Set(c, c.hand.bg, P.Spawn(Get(c, c.hand.bg), found)).(hand := Waiting)
    case Stop => c.(phase := Draining)
    // what is left in the queues when the dispatcher has returned is never looked at again
    case Exit => Collector(Exited, [], Waiting, P.NewPool(c.std.limit), P.NewPool(c.bg.limit))
    case Worker(bg, m) => Set(c, bg, P.DoMove(Get(c, bg), m))
  }

  lemma DoKeepsInv(c: Collector, a: Act, stopping: bool)
    requires Inv(c) && Can(c, a, stopping)
    ensures Inv(Do(c, a, stopping)) && SameLimits(c, Do(c, a, stopping))
    ensures c.phase.Running? && !stopping ==> Do(c, a, stopping).phase.Running?
    ensures c.phase.Created? ==> Do(c, a, stopping).phase.Running?
  {
  }

  lemma SetRank(c: Collector, bg: bool, p: P.Pool)
    ensures Rank(Set(c, bg, p)) + P.Rank(Get(c, bg)) == Rank(c) + P.Rank(p)
  {
  }

  lemma SetCount(c: Collector, bg: bool, p: P.Pool, u: Task)
    ensures Count(Set(c, bg, p), u) + P.Count(Get(c, bg), u) == Count(c, u) + P.Count(p, u)
  {
  }

  lemma DispatchKeepsTasks(c: Collector, a: Act, stopping: bool, u: Task)
    requires Can(c, a, stopping) && (a.Enqueue? || a.Spawn?)
    ensures Count(Do(c, a, stopping), u) == Count(c, u)
  {
  }

  lemma DoKeepsTasks(c: Collector, a: Act, stopping: bool, u: Task)
    requires Can(c, a, stopping)
    ensures Count(Do(c, a, stopping), u) == if a.Exit? then 0 else Count(c, u)
  {
    match a
    case Receive => assert c.inbox == [c.inbox[0]] + c.inbox[1..];
    case Enqueue => DispatchKeepsTasks(c, a, stopping, u);
    case Spawn(_) => DispatchKeepsTasks(c, a, stopping, u);
    case Worker(bg, m) => SetCount(c, bg, P.DoMove(Get(c, bg), m), u);
    case _ =>
  }

  lemma MoveLowersRank(c: Collector, bg: bool, m: P.Move)
    requires P.CanMove(Get(c, bg), m)
    ensures Rank(Set(c, bg, P.DoMove(Get(c, bg), m))) < Rank(c)
  {
    SetRank(c, bg, P.DoMove(Get(c, bg), m));
  }

  lemma DispatchLowersRank(c: Collector, a: Act, stopping: bool)
    requires Can(c, a, stopping) && (a.Enqueue? || a.Spawn?)
    ensures Rank(Do(c, a, stopping)) < Rank(c)
  {
  }

  lemma DoLowersRank(c: Collector, a: Act, stopping: bool)
    requires Can(c, a, stopping)
    ensures Rank(Do(c, a, stopping)) < Rank(c)
  {
    match a
    case Worker(bg, m) => MoveLowersRank(c, bg, m);
    case Enqueue => DispatchLowersRank(c, a, stopping);
    case Spawn(_) => DispatchLowersRank(c, a, stopping);
    case _ =>
  }

  function Begin(c: Collector, bg: bool, t: Task): Collector
    requires t in Get(c, bg).taken
  {
    Set(c, bg, P.Begin(Get(c, bg), t))
  }

  function Finish(c: Collector, bg: bool, t: Task): Collector
    requires t in Get(c, bg).taken || t in Get(c, bg).querying
  {
    Set(c, bg, P.Finish(Get(c, bg), t))
  }

  lemma BeginCounts(c: Collector, bg: bool, t: Task, u: Task)
    requires t in Get(c, bg).taken
    ensures Count(Begin(c, bg, t), u) == Count(c, u)
  {
  }

  lemma BeginKeeps(c: Collector, bg: bool, t: Task)
    requires t in Get(c, bg).taken
    ensures Inv(c) ==> Inv(Begin(c, bg, t))
    ensures SameLimits(c, Begin(c, bg, t)) && Begin(c, bg, t).phase == c.phase
    ensures Rank(Begin(c, bg, t)) < Rank(c)
  {
  }

  lemma FinishCounts(c: Collector, bg: bool, t: Task, u: Task)
    requires t in Get(c, bg).taken || t in Get(c, bg).querying
    ensures Count(c, u) == Count(Finish(c, bg, t), u) + P.One(t, u)
  {
  }

  lemma FinishKeeps(c: Collector, bg: bool, t: Task)
    requires t in Get(c, bg).taken || t in Get(c, bg).querying
    ensures Inv(c) ==> Inv(Finish(c, bg, t))
    ensures SameLimits(c, Finish(c, bg, t)) && Finish(c, bg, t).phase == c.phase
    ensures Rank(Finish(c, bg, t)) + 2 <= Rank(c)
  {
    SetRank(c, bg, P.Finish(Get(c, bg), t));
  }

  // The two steps that leave waiting tasks without a worker: the last one in its loop leaves
  // although the queue is not empty, or a new one is refused because workers on their way
  // out still hold the slots.
  predicate Strands(c: Collector, a: Act) {
    match a
    case Worker(bg, m) =>
      var p := Get(c, bg);
      m.Leaving? && P.Active(p) == 1 && p.queue != [] && c.hand != Spawning(bg)
    case Spawn(_) =>
      c.hand.Spawning?
      && var p := Get(c, c.hand.bg); p.queue != [] && P.Active(p) == 0 && !P.Admits(p)
    case _ => false
  }

  lemma SetAttended(c: Collector, bg: bool, p: P.Pool)
    requires Attended(c)
    ensures Attended(Set(c, bg, p)) <==> (p.queue != [] && c.hand != Spawning(bg) ==> P.Active(p) > 0)
  {
    assert PoolAttended(Set(c, bg, p), !bg) == PoolAttended(c, !bg);
  }

  lemma MoveStrandsExactly(c: Collector, bg: bool, m: P.Move)
    requires Attended(c) && P.CanMove(Get(c, bg), m)
    ensures Attended(Set(c, bg, P.DoMove(Get(c, bg), m))) <==> !Strands(c, Worker(bg, m))
  {
    SetAttended(c, bg, P.DoMove(Get(c, bg), m));
  }

  lemma SpawnStrandsExactly(c: Collector, found: bool)
    requires Attended(c) && Can(c, Spawn(found), false)
    ensures Attended(Do(c, Spawn(found), false)) <==> !Strands(c, Spawn(found))
  {
    var bg := c.hand.bg;
    var p := P.Spawn(Get(c, bg), found);
    assert PoolAttended(c, !bg) == PoolAttended(Do(c, Spawn(found), false), !bg);
  }

  // A step of a collector leaves waiting tasks without a worker exactly if it is one of the
  // two.
  lemma StrandsExactly(c: Collector, a: Act, stopping: bool)
    requires Attended(c) && Can(c, a, stopping) && !a.Exit?
    ensures Attended(Do(c, a, stopping)) <==> !Strands(c, a)
  {
    match a
    case Worker(bg, m) => MoveStrandsExactly(c, bg, m);
    case Spawn(found) => SpawnStrandsExactly(c, found);
    case _ =>
  }

  lemma BeginKeepsAttended(c: Collector, bg: bool, t: Task)
    requires Attended(c) && t in Get(c, bg).taken
    ensures Attended(Begin(c, bg, t))
  {
    SetAttended(c, bg, P.Begin(Get(c, bg), t));
  }

  lemma FinishKeepsAttended(c: Collector, bg: bool, t: Task)
    requires Attended(c) && (t in Get(c, bg).taken || t in Get(c, bg).querying)
    ensures Attended(Finish(c, bg, t))
  {
    SetAttended(c, bg, P.Finish(Get(c, bg), t));
  }

  // Runs in which a worker only ever leaves an empty queue, together with its slot, and
  // nothing is stopped, have no such step.
  predicate Calm(a: Act) {
    match a
    case Worker(_, m) => m.Taking? || m.Retiring?
    case _ => !a.Stop? && !a.Exit?
  }

  predicate NoneLeaving(c: Collector) {
    c.std.leaving == 0 && c.bg.leaving == 0
  }

  lemma CalmStrandsNothing(c: Collector, a: Act)
    requires Inv(c) && NoneLeaving(c) && c.std.limit != 0 && Can(c, a, false) && Calm(a)
    ensures !Strands(c, a) && NoneLeaving(Do(c, a, false))
  {
  }
}
