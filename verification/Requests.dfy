/**
 The request side: one HTTP request, or one run of a scheduler job, that submits its
 tasks one after another, then collects the results and closes its two channels.
 */
module Requests {
  import opened Wrappers
  import opened Tasks
  import P = Pools

  // `Closing`: the first of the two deferred closes is done; `ok` tells whether the
  // gathering ended because nothing was outstanding, or because the context had expired.
  // `Broken`: the handler panicked while submitting; its deferred calls have cancelled its
  // tasks, and there is no deferred close of its result channel yet.
  datatype Phase = Sending | Gathering | Closing(ok: bool) | Closed(ok: bool) | Broken

  // What became of one requested (database, query) pair in the response.
  datatype Kind = FromCache(cached: string) | Body(data: string) | Comment | Skipped

  datatype Chunk = Chunk(task: Task, kind: Kind)

  datatype Request = Request(
    job: bool,
    patient: bool,          // nothing ever cancels its context
    pairs: seq<Task>,       // the expansion, and with it the capacity of the result channel
    next: nat,              // pairs[next..] are not submitted yet
    inside: Option<nat>,    // addTask of a collector of this generation has been entered
    buffer: seq<Result>,    // the result channel
    chunks: seq<Chunk>,     // history: pairs already dealt with
    scheduled: nat,
    written: nat,
    phase: Phase,
    expired: bool)

  function NewPairs(id: nat, job: bool, dbs: seq<nat>): seq<Task> {
    seq(|dbs|, i requires 0 <= i < |dbs| => Task(id, i, dbs[i], job))
  }

  function NewRequest(id: nat, job: bool, patient: bool, dbs: seq<nat>): Request {
    Request(job, patient, NewPairs(id, job, dbs), 0, None, [], [], 0, 0, Sending, false)
  }

  function ChunkTasks(cs: seq<Chunk>): seq<Task> {
    seq(|cs|, i requires 0 <= i < |cs| => cs[i].task)
  }

  // The chunks that reach the response body.
  function Writes(cs: seq<Chunk>): nat {
    if cs == [] then 0
    else Writes(cs[..|cs| - 1]) + (if cs[|cs| - 1].kind.Skipped? then 0 else 1)
  }

  predicate HasRoom(r: Request) {
    |r.buffer| < |r.pairs|
  }

  // An HTTP request closes its result channel before its cancel channel, a job after it.
  predicate OutputClosed(r: Request) {
    r.phase.Closed? || (r.phase.Closing? && !r.job)
  }

  predicate Cancelled(r: Request) {
    r.phase.Closed? || r.phase.Broken? || (r.phase.Closing? && r.job)
  }

  predicate EndedWell(r: Request) {
    (r.phase.Closing? || r.phase.Closed?) && r.phase.ok
  }

  predicate Aborted(r: Request) {
    (r.phase.Closing? || r.phase.Closed?) && !r.phase.ok
  }

  // Nobody waits for its tasks any more although they are not all dealt with.
  predicate Deserted(r: Request) {
    Aborted(r) || r.phase.Broken?
  }

  predicate Inv(r: Request, id: nat) {
    && (forall i :: 0 <= i < |r.pairs| ==> r.pairs[i].req == id && r.pairs[i].idx == i && r.pairs[i].job == r.job)
    && (r.patient ==> r.job && !r.expired) && (r.job ==> |r.pairs| == 1)
    && r.next <= |r.pairs|
    && (!r.phase.Sending? && !r.phase.Broken? ==> r.next == |r.pairs|)
    && (r.inside.Some? ==> r.phase.Sending? && r.next < |r.pairs|)
    && r.scheduled + |r.chunks| == r.next
    && (!r.job ==> r.written == Writes(r.chunks))
    && (EndedWell(r) ==> r.scheduled == 0)
  }

  // The pairs that are not submitted yet.
  function Left(r: Request): seq<Task> {
    if r.next <= |r.pairs| then r.pairs[r.next..] else []
  }

  // How often t is on the request's side: not submitted, answered, or dealt with.
  function Count(r: Request, t: Task): nat {
    multiset(Left(r))[t] + multiset(TasksOf(r.buffer))[t] + multiset(ChunkTasks(r.chunks))[t]
  }

  function PhaseRank(r: Request): nat {
    match r.phase case Sending => 3 case Gathering => 2 case Closing(_) => 1 case Closed(_) => 0 case Broken => 0
  }

  // An upper bound on the steps this request can still cause.
  function Rank(r: Request): nat {
    12 * |Left(r)| + (if r.inside.Some? then 0 else 1) + |r.buffer| + PhaseRank(r) + (if r.expired then 0 else 1)
  }

  lemma DistinctPairs(r: Request, id: nat, t: Task)
    requires Inv(r, id)
    ensures multiset(r.pairs)[t] <= 1
    ensures t in r.pairs ==> t.req == id
  {
    if t in r.pairs {
      var i :| 0 <= i < |r.pairs| && r.pairs[i] == t;
      assert r.pairs == r.pairs[..i] + [t] + r.pairs[i + 1..];
      assert t !in r.pairs[..i] && t !in r.pairs[i + 1..];
    }
  }

  lemma NewRequestCounts(id: nat, job: bool, patient: bool, dbs: seq<nat>)
    requires (patient ==> job) && (job ==> |dbs| == 1)
    ensures var r := NewRequest(id, job, patient, dbs);
      && Inv(r, id)
      && forall u :: Count(r, u) == multiset(r.pairs)[u]
  {
  }

  // The next pair is answered from the cache.
  function Hit(r: Request, data: string): Request
    requires r.next < |r.pairs|
  {
    r.(next := r.next + 1, chunks := r.chunks + [Chunk(r.pairs[r.next], FromCache(data))], written := r.written + 1)
  }

  // The next pair is handed over as a task.
  function Sent(r: Request): Request
    requires r.next < |r.pairs|
  {
    r.(next := r.next + 1, inside := None, scheduled := r.scheduled + 1)
  }

  // AddTask has found the collector for the next task.
  function Entered(r: Request, gen: nat): Request {
    r.(inside := Some(gen))
  }

  // It panics there.
  function Break(r: Request): Request {
    r.(inside := None, phase := Broken)
  }

  // A result arrives in the channel.
  function Receive(r: Request, res: Result): Request {
    r.(buffer := r.buffer + [res])
  }

  // `valid` is the verdict of the output validation.
  function KindOf(a: Answer, valid: bool): Kind {
    match a
    case Failure => Comment
    case Success(data) => if valid then Body(data) else Skipped
  }

  lemma KindsExactly(a: Answer, valid: bool)
    ensures KindOf(a, valid) == Comment <==> a.Failure?
    ensures KindOf(a, valid) == Skipped <==> a.Success? && !valid
    ensures forall d :: KindOf(a, valid) == Body(d) <==> a == Success(d) && valid
  {
  }

  // gatherResults takes one result from the channel.
  function Gather(r: Request, valid: bool): Request
    requires r.buffer != [] && r.scheduled > 0
  {
    var kind := KindOf(r.buffer[0].answer, valid);
    r.(buffer := r.buffer[1..],
       scheduled := r.scheduled - 1,
       chunks := r.chunks + [Chunk(r.buffer[0].task, kind)],
       written := if r.job || kind.Skipped? then r.written else r.written + 1)
  }

  // The steps a request takes without regard to the collectors.
  datatype Act =
    | CacheHit(cached: string)
    | StartGather
    | Gather(valid: bool)
    | Complete
    | Abort
    | Close
    | Expire

  predicate Can(r: Request, a: Act) {
    match a
    case CacheHit(_) => r.phase.Sending? && r.inside.None? && r.next < |r.pairs| && !r.job
    case StartGather => r.phase.Sending? && r.next >= |r.pairs|
    case Gather(_) => r.phase.Gathering? && r.scheduled > 0 && r.buffer != []
    case Complete => r.phase.Gathering? && r.scheduled == 0
    case Abort => r.phase.Gathering? && r.scheduled > 0 && r.expired
    case Close => r.phase.Closing?
    case Expire => !r.expired && !r.patient
  }

  function Do(r: Request, a: Act): Request
    requires Can(r, a)
  {
    match a
    case CacheHit(data) => Hit(r, data)
    case StartGather => r.(phase := Gathering)
    case Gather(valid) => Gather(r, valid)
    case Complete => r.(phase := Closing(true))
    case Abort => r.(phase := Closing(false))
    case Close => r.(phase := Closed(r.phase.ok))
    case Expire => r.(expired := true)
  }

  lemma PushChunk(cs: seq<Chunk>, c: Chunk)
    ensures ChunkTasks(cs + [c]) == ChunkTasks(cs) + [c.task]
    ensures Writes(cs + [c]) == Writes(cs) + (if c.kind.Skipped? then 0 else 1)
  {
  }

  lemma HitCounts(r: Request, data: string, u: Task)
    requires r.next < |r.pairs|
    ensures Count(Hit(r, data), u) == Count(r, u)
  {
    var t := r.pairs[r.next];
    PushChunk(r.chunks, Chunk(t, FromCache(data)));
    SentLeft(r);
    assert Left(Hit(r, data)) == Left(Sent(r));
  }

  lemma HitKeeps(r: Request, id: nat, data: string)
    requires Inv(r, id) && r.next < |r.pairs| && r.phase.Sending? && r.inside.None?
    ensures Inv(Hit(r, data), id)
    ensures Rank(Hit(r, data)) < Rank(r)
  {
  }

  lemma SentLeft(r: Request)
    requires r.next < |r.pairs|
    ensures Left(r) == [r.pairs[r.next]] + Left(Sent(r))
  {
  }

  lemma SentCounts(r: Request, u: Task)
    requires r.next < |r.pairs|
    ensures Count(r, u) == Count(Sent(r), u) + P.One(r.pairs[r.next], u)
  {
    SentLeft(r);
  }

  lemma SentKeeps(r: Request, id: nat)
    requires Inv(r, id) && r.next < |r.pairs| && r.phase.Sending?
    ensures Inv(Sent(r), id)
    ensures Rank(Sent(r)) + 11 <= Rank(r)
  {
  }

  lemma EnteredKeeps(r: Request, id: nat, gen: nat)
    requires Inv(r, id) && r.phase.Sending? && r.inside.None? && r.next < |r.pairs|
    ensures Inv(Entered(r, gen), id) && Rank(Entered(r, gen)) < Rank(r)
    ensures forall u :: Count(Entered(r, gen), u) == Count(r, u)
  {
    assert Left(Entered(r, gen)) == Left(r);
  }

  lemma BreakKeeps(r: Request, id: nat)
    requires Inv(r, id) && r.phase.Sending?
    ensures Inv(Break(r), id) && Rank(Break(r)) < Rank(r)
    ensures forall u :: Count(Break(r), u) == Count(r, u)
  {
    assert Left(Break(r)) == Left(r);
  }

  lemma ReceiveKeeps(r: Request, id: nat, res: Result)
    requires Inv(r, id)
    ensures Inv(Receive(r, res), id)
    ensures forall u :: Count(Receive(r, res), u) == Count(r, u) + P.One(res.task, u)
    ensures Rank(Receive(r, res)) == Rank(r) + 1
  {
    TasksOfPush(r.buffer, res);
  }

  lemma GatherCounts(r: Request, valid: bool, u: Task)
    requires r.buffer != [] && r.scheduled > 0
    ensures Count(Gather(r, valid), u) == Count(r, u)
  {
    PushChunk(r.chunks, Chunk(r.buffer[0].task, KindOf(r.buffer[0].answer, valid)));
    TasksOfPop(r.buffer);
    assert Left(Gather(r, valid)) == Left(r);
  }

  lemma GatherKeeps(r: Request, id: nat, valid: bool)
    requires Inv(r, id) && r.buffer != [] && r.scheduled > 0
    ensures Inv(Gather(r, valid), id)
    ensures Rank(Gather(r, valid)) < Rank(r)
  {
  }

  lemma DoKeeps(r: Request, id: nat, a: Act)
    requires Inv(r, id) && Can(r, a)
    ensures Inv(Do(r, a), id) && Do(r, a).pairs == r.pairs
    ensures forall u :: Count(Do(r, a), u) == Count(r, u)
    ensures Rank(Do(r, a)) < Rank(r)
  {
    match a
    case CacheHit(data) =>
      HitKeeps(r, id, data);
      forall u ensures Count(Do(r, a), u) == Count(r, u) { HitCounts(r, data, u); }
    case Gather(valid) =>
      GatherKeeps(r, id, valid);
      forall u ensures Count(Do(r, a), u) == Count(r, u) { GatherCounts(r, valid, u); }
    case _ =>
  }

  // How often t has been answered or dealt with; this only ever grows.
  function Answers(r: Request, t: Task): nat {
    multiset(TasksOf(r.buffer))[t] + multiset(ChunkTasks(r.chunks))[t]
  }

  lemma ReceiveAnswers(r: Request, res: Result, t: Task)
    ensures Answers(Receive(r, res), t) == Answers(r, t) + P.One(res.task, t)
  {
    TasksOfPush(r.buffer, res);
  }

  lemma AnswersStay(r: Request, a: Act, t: Task)
    requires Can(r, a)
    ensures Answers(Do(r, a), t) >= Answers(r, t)
  {
    match a
    case CacheHit(data) => PushChunk(r.chunks, Chunk(r.pairs[r.next], FromCache(data)));
    case Gather(valid) =>
      PushChunk(r.chunks, Chunk(r.buffer[0].task, KindOf(r.buffer[0].answer, valid)));
      TasksOfPop(r.buffer);
    case _ =>
  }

  // Skipped chunks are the only ones that do not reach the response.
  function Skips(cs: seq<Chunk>): nat {
    if cs == [] then 0
    else Skips(cs[..|cs| - 1]) + (if cs[|cs| - 1].kind.Skipped? then 1 else 0)
  }

  lemma {:induction false} WritesAndSkips(cs: seq<Chunk>)
    ensures Writes(cs) + Skips(cs) == |cs|
  {
    if cs != [] {
      WritesAndSkips(cs[..|cs| - 1]);
    }
  }
}
