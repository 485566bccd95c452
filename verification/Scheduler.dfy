/**
 The scheduler in serial mode (internal/scheduler/mod.go): one goroutine that wakes up every
 second, runs the overdue jobs one after another, and takes in new configurations between
 its rounds.
 */
module Scheduler {
  import opened Wrappers
  import opened Configuration
  import opened Durations
  import Cached = ResultCache

  const OFFSET: int := 7 * SECOND

  datatype ScheduledTask = ScheduledTask(nextRun: int, job: Job)

  // One execution of a job, with the state of affairs at its start: the number of
  // configurations loaded before, when the current one was, how many tasks it has, which of
  // them this is and when it was due. `found`: its query is in the configuration.
  datatype Exec = Exec(
    gen: nat, loadedAt: int, count: nat, pos: nat, job: Job, due: int, start: int, end: int, found: bool)

  datatype State = State(now: int, cfg: Config, tasks: seq<ScheduledTask>, gen: nat, loadedAt: int, log: seq<Exec>)

  // The valid jobs of a configuration, in order.
  function ValidJobs(jobs: seq<Job>): seq<Job> {
    if jobs == [] then []
    else ValidJobs(jobs[..|jobs| - 1]) + (if jobs[|jobs| - 1].isValid then [jobs[|jobs| - 1]] else [])
  }

  lemma {:induction false} ValidJobsAreJobs(jobs: seq<Job>, j: Job)
    ensures j in ValidJobs(jobs) <==> j in jobs && j.isValid
  {
    if jobs != [] {
      ValidJobsAreJobs(jobs[..|jobs| - 1], j);
      assert jobs == jobs[..|jobs| - 1] + [jobs[|jobs| - 1]];
    }
  }

  // updateConfig gives every task the zero time.
  function Unscheduled(jobs: seq<Job>): seq<ScheduledTask> {
    seq(|jobs|, i requires 0 <= i < |jobs| => ScheduledTask(0, jobs[i]))
  }

  function Rescheduled(tasks: seq<ScheduledTask>, now: int): seq<ScheduledTask> {
    seq(|tasks|, i requires 0 <= i < |tasks| => tasks[i].(nextRun := now + tasks[i].job.idx * OFFSET))
  }

  // updateConfig and rescheduleTask at time `now`.
  function Load(s: State, cfg: Config, now: int): State {
    State(now, cfg, Rescheduled(Unscheduled(ValidJobs(cfg.jobs)), now), s.gen + 1, now, s.log)
  }

  // runOverdueJobs looks at task k, which takes `dur` to handle if it is overdue.
  function Look(s: State, k: nat, dur: nat): State
    requires k < |s.tasks|
  {
    var t := s.tasks[k];
    if s.now > t.nextRun then
      var found := t.job.query in s.cfg.queries;
      var end := if found then s.now + dur else s.now;
      s.(now := end,
         tasks := s.tasks[k := t.(nextRun := end + t.job.interval)],
         log := s.log + [Exec(s.gen, s.loadedAt, |s.tasks|, k, t.job, t.nextRun, s.now, end, found)])
    else s
  }

  function LookAll(s: State, k: nat, durs: seq<nat>): State
    requires k <= |s.tasks| <= |durs|
    decreases |s.tasks| - k
  {
    if k == |s.tasks| then s
    else LookAll(Look(s, k, durs[k]), k + 1, durs)
  }

  // One turn of the loop: the timer fires after `wait`, or a configuration arrives.
  datatype Event = Tick(wait: nat, durs: seq<nat>) | Reload(delay: nat, cfg: Config)

  predicate Fits(s: State, e: Event) {
    e.Tick? ==> |s.tasks| <= |e.durs|
  }

  function Turn(s: State, e: Event): State
    requires Fits(s, e)
  {
    match e
    case Tick(wait, durs) => LookAll(s.(now := s.now + wait), 0, durs)
    case Reload(delay, cfg) => Load(s, cfg, s.now + delay)
  }

  const NONE := State(0, Config({}, map[], []), [], 0, 0, [])

  // A run that starts at `at` with the first configuration; every configuration comes from
  // a load that succeeded.
  ghost predicate IsRun(ss: seq<State>, es: seq<Event>, cfg: Config, at: int) {
    && |ss| == |es| + 1 && ss[0] == Load(NONE, cfg, at) && Loaded(cfg)
    && forall i :: 0 <= i < |es| ==>
         && Fits(ss[i], es[i]) && ss[i + 1] == Turn(ss[i], es[i])
         && (es[i].Reload? ==> Loaded(es[i].cfg))
  }

  // ---- what holds at every moment ----

  // The tasks are runnable in the current configuration and not due before their offset.
  predicate TasksOk(s: State) {
    forall k :: 0 <= k < |s.tasks| ==>
      && s.tasks[k].job in s.cfg.jobs && Runnable(s.tasks[k].job, s.cfg)
      && s.tasks[k].nextRun >= s.loadedAt + s.tasks[k].job.idx * OFFSET
  }

  // An execution found its query, and began after its task was due and after the offset of
  // its job.
  predicate ExecOk(e: Exec) {
    && e.found && e.job.interval >= SECOND
    && e.due < e.start <= e.end
    && e.start > e.loadedAt + e.job.idx * OFFSET
  }

  // d comes after e: they do not overlap, and if they are of the same task then more than
  // its interval lies between them.
  predicate Apart(e: Exec, d: Exec) {
    && e.end <= d.start && e.gen <= d.gen
    && (e.gen == d.gen && e.pos == d.pos ==> d.job == e.job && d.start > e.end + e.job.interval)
  }

  // The next run of the task that e was an execution of is far enough away.
  predicate Behind(e: Exec, s: State) {
    && e.end <= s.now && e.gen <= s.gen
    && (e.gen == s.gen && e.pos < |s.tasks| ==>
          e.job == s.tasks[e.pos].job && s.tasks[e.pos].nextRun >= e.end + e.job.interval)
  }

  ghost predicate Spaced(s: State) {
    && TasksOk(s) && s.loadedAt <= s.now
    && (forall i :: 0 <= i < |s.log| ==> ExecOk(s.log[i]) && Behind(s.log[i], s))
    && (forall i, j :: 0 <= i < j < |s.log| ==> Apart(s.log[i], s.log[j]))
  }

  lemma LookKeepsSpaced(s: State, k: nat, dur: nat)
    requires Spaced(s) && k < |s.tasks|
    ensures Spaced(Look(s, k, dur))
  {
  }

  lemma {:induction false} LookAllKeepsSpaced(s: State, k: nat, durs: seq<nat>)
    requires Spaced(s) && k <= |s.tasks| <= |durs|
    ensures Spaced(LookAll(s, k, durs))
    decreases |s.tasks| - k
  {
    if k < |s.tasks| {
      LookKeepsSpaced(s, k, durs[k]);
      LookAllKeepsSpaced(Look(s, k, durs[k]), k + 1, durs);
    }
  }

  lemma LoadKeepsSpaced(s: State, cfg: Config, now: int)
    requires Loaded(cfg) && s.now <= now
    requires forall i :: 0 <= i < |s.log| ==> ExecOk(s.log[i]) && Behind(s.log[i], s)
    requires forall i, j :: 0 <= i < j < |s.log| ==> Apart(s.log[i], s.log[j])
    ensures Spaced(Load(s, cfg, now))
  {
    var s' := Load(s, cfg, now);
    forall k | 0 <= k < |s'.tasks| ensures s'.tasks[k].job in cfg.jobs && Runnable(s'.tasks[k].job, cfg) {
      ValidJobsAreJobs(cfg.jobs, s'.tasks[k].job);
    }
  }

  // No two executions ever overlap; a job starts again strictly more than its interval after
  // it ended, and for the first time strictly more than its offset after the configuration
  // was loaded; and it always finds its query.
  lemma {:induction false} RunsAreSpaced(ss: seq<State>, es: seq<Event>, cfg: Config, at: int, i: nat)
    requires IsRun(ss, es, cfg, at) && i < |ss|
    ensures Spaced(ss[i])
  {
    if i == 0 {
      LoadKeepsSpaced(NONE.(now := at), cfg, at);
    } else {
      RunsAreSpaced(ss, es, cfg, at, i - 1);
      var s, e := ss[i - 1], es[i - 1];
      match e
      case Tick(wait, durs) =>
        assert Spaced(s.(now := s.now + wait)) by {
          assert forall k :: 0 <= k < |s.log| ==> Behind(s.log[k], s) ==> Behind(s.log[k], s.(now := s.now + wait));
        }
        LookAllKeepsSpaced(s.(now := s.now + wait), 0, durs);
      case Reload(delay, c) => LoadKeepsSpaced(s, c, s.now + delay);
    }
  }

  // ---- lateness ----

  // How far past its due time task j may be when the round has come to task k: it has been
  // looked at in this round (and at most the k - 1 - j tasks after it have run since), or
  // not yet (and n - 1 others may have run since, plus the wait between the rounds).
  function Slack(n: nat, k: nat, j: nat, most: nat, wait: nat): int {
    if j < k then (k - 1 - j) * most else (n - 1 - j + k) * most + wait
  }

  ghost predicate InTime(s: State, k: nat, most: nat, wait: nat) {
    forall j :: 0 <= j < |s.tasks| ==> s.now <= s.tasks[j].nextRun + Slack(|s.tasks|, k, j, most, wait)
  }

  predicate Punctual(e: Exec, most: nat, wait: nat) {
    e.count >= 1 && e.start <= e.due + (e.count - 1) * most + wait
  }

  ghost predicate AllPunctual(s: State, most: nat, wait: nat) {
    forall i :: 0 <= i < |s.log| ==> Punctual(s.log[i], most, wait)
  }

  lemma NotNegative(a: nat, most: nat)
    ensures a * most >= 0
  {
  }

  lemma LookIsPunctual(s: State, k: nat, dur: nat, most: nat, wait: nat)
    requires InTime(s, k, most, wait) && AllPunctual(s, most, wait)
    requires k < |s.tasks| && dur <= most && s.tasks[k].job.interval >= 0
    ensures InTime(Look(s, k, dur), k + 1, most, wait) && AllPunctual(Look(s, k, dur), most, wait)
  {
  }

  lemma {:induction false} LookAllIsPunctual(s: State, k: nat, durs: seq<nat>, most: nat, wait: nat)
    requires TasksOk(s) && InTime(s, k, most, wait) && AllPunctual(s, most, wait)
    requires k <= |s.tasks| <= |durs| && forall d :: d in durs ==> d <= most
    ensures var s' := LookAll(s, k, durs);
      |s'.tasks| == |s.tasks| && InTime(s', |s.tasks|, most, wait) && AllPunctual(s', most, wait)
    decreases |s.tasks| - k
  {
    if k < |s.tasks| {
      assert durs[k] in durs;
      LookIsPunctual(s, k, durs[k], most, wait);
      LookKeepsTasksOk(s, k, durs[k]);
      LookAllIsPunctual(Look(s, k, durs[k]), k + 1, durs, most, wait);
    }
  }

  lemma LookKeepsTasksOk(s: State, k: nat, dur: nat)
    requires TasksOk(s) && k < |s.tasks|
    ensures TasksOk(Look(s, k, dur))
  {
  }

  lemma Waiting(s: State, most: nat, wait: nat, w: nat)
    requires InTime(s, |s.tasks|, most, wait) && w <= wait
    ensures InTime(s.(now := s.now + w), 0, most, wait)
  {
  }

  lemma JustLoaded(s: State, cfg: Config, now: int, most: nat, wait: nat)
    requires Loaded(cfg) && AllPunctual(s, most, wait)
    ensures var s' := Load(s, cfg, now); InTime(s', |s'.tasks|, most, wait) && AllPunctual(s', most, wait)
  {
    var s' := Load(s, cfg, now);
    forall j | 0 <= j < |s'.tasks| ensures now <= s'.tasks[j].nextRun + Slack(|s'.tasks|, |s'.tasks|, j, most, wait) {
      ValidJobsAreJobs(cfg.jobs, s'.tasks[j].job);
      NotNegative(|s'.tasks| - 1 - j, most);
    }
  }

  // If no execution takes longer than `most` and no wait is longer than `wait`, then every
  // job starts at most (n - 1) * most + wait after it was due, where n is the number of its
  // configuration's tasks; and between the rounds no task is overdue by more than the
  // executions of the others. The source waits one second.
  lemma {:induction false} JobsArePunctual(ss: seq<State>, es: seq<Event>, cfg: Config, at: int, i: nat,
                                              most: nat, wait: nat)
    requires IsRun(ss, es, cfg, at) && i < |ss|
    requires forall k :: 0 <= k < |es| && es[k].Tick? ==>
               es[k].wait <= wait && forall d :: d in es[k].durs ==> d <= most
    ensures AllPunctual(ss[i], most, wait) && InTime(ss[i], |ss[i].tasks|, most, wait)
  {
    if i == 0 {
      JustLoaded(NONE, cfg, at, most, wait);
    } else {
      JobsArePunctual(ss, es, cfg, at, i - 1, most, wait);
      RunsAreSpaced(ss, es, cfg, at, i - 1);
      var s, e := ss[i - 1], es[i - 1];
      match e
      case Tick(w, durs) =>
        Waiting(s, most, wait, w);
        LookAllIsPunctual(s.(now := s.now + w), 0, durs, most, wait);
      case Reload(delay, c) => JustLoaded(s, c, s.now + delay, most, wait);
    }
  }

  // ---- the scheduler's own methods ----

  // What a job puts into the cache when it ends at `end`.
  function Puts(job: Job, cfg: Config, answer: Option<string>, cachingTime: string -> int, end: int)
    : seq<Cached.Event>
  {
    if job.query in cfg.queries && answer.Some?
    then [Cached.JobDone(Cached.Query(job.query, cachingTime(job.query)), job.database, answer.value, end)]
    else []
  }

  function PutsOfLook(s: State, k: nat, dur: nat, answer: Option<string>, cachingTime: string -> int): seq<Cached.Event>
    requires k < |s.tasks|
  {
    if s.now > s.tasks[k].nextRun then Puts(s.tasks[k].job, s.cfg, answer, cachingTime, Look(s, k, dur).now) else []
  }

  // What the jobs of a round put into the cache, from task k on.
  function PutsOfRound(s: State, k: nat, durs: seq<nat>, answers: seq<Option<string>>, cachingTime: string -> int)
    : seq<Cached.Event>
    requires k <= |s.tasks| <= |durs| && |s.tasks| <= |answers|
    decreases |s.tasks| - k
  {
    if k == |s.tasks| then []
    else
      PutsOfLook(s, k, durs[k], answers[k], cachingTime)
      + PutsOfRound(Look(s, k, durs[k]), k + 1, durs, answers, cachingTime)
  }

  lemma FirstLook(s: State, k: nat, durs: seq<nat>, answers: seq<Option<string>>, cachingTime: string -> int)
    requires k < |s.tasks| <= |durs| && |s.tasks| <= |answers|
    ensures var s' := Look(s, k, durs[k]);
      && LookAll(s, k, durs) == LookAll(s', k + 1, durs)
      && PutsOfRound(s, k, durs, answers, cachingTime) ==
         PutsOfLook(s, k, durs[k], answers[k], cachingTime) + PutsOfRound(s', k + 1, durs, answers, cachingTime)
  {
  }

  lemma Regroup<T>(a: seq<T>, b: seq<T>, c: seq<T>)
    ensures a + b + c == a + (b + c)
  {
  }

  class SerialScheduler {
    var now: int  // the clock
    var cfg: Config
    var tasks: seq<ScheduledTask>
    var gen: nat
    var loadedAt: int
    var log: seq<Exec>

    function Snapshot(): State
      reads this
    {
      State(now, cfg, tasks, gen, loadedAt, log)
    }

    // New scheduler: updateConfig leaves every task with the zero time, which
    // rescheduleTask replaces before the loop looks at it.
    constructor (cfg: Config, at: int)
      ensures Snapshot() == Load(NONE, cfg, at)
    {
      now, gen, log := at, 0, [];
      this.cfg, tasks, loadedAt := NONE.cfg, [], 0;
      new;
      UpdateConfig(cfg);
      RescheduleTask();
    }

    method UpdateConfig(cfg: Config)
      modifies this
      ensures this.cfg == cfg && now == old(now) && log == old(log) && gen == old(gen) + 1 && loadedAt == old(now)
      ensures tasks == Unscheduled(ValidJobs(cfg.jobs))
    {
      var valid: seq<ScheduledTask> := [];
      for i := 0 to |cfg.jobs|
        invariant valid == Unscheduled(ValidJobs(cfg.jobs[..i]))
      {
        assert cfg.jobs[..i + 1][..i] == cfg.jobs[..i];
        if cfg.jobs[i].isValid {
          valid := valid + [ScheduledTask(0, cfg.jobs[i])];
        }
      }
      assert cfg.jobs[..|cfg.jobs|] == cfg.jobs;
      tasks := valid;
      this.cfg := cfg;
      gen, loadedAt := gen + 1, now;
    }

    method RescheduleTask()
      modifies this`tasks
      ensures tasks == Rescheduled(old(tasks), now)
    {
      for i := 0 to |tasks|
        invariant |tasks| == |old(tasks)|
        invariant forall k :: 0 <= k < i ==> tasks[k] == Rescheduled(old(tasks), now)[k]
        invariant forall k :: i <= k < |tasks| ==> tasks[k] == old(tasks)[k]
      {
        tasks := tasks[i := tasks[i].(nextRun := now + tasks[i].job.idx * OFFSET)];
      }
    }

    // A configuration arrives `delay` after the last round.
    method TakeConfig(delay: nat, cfg: Config)
      modifies this
      ensures Snapshot() == Turn(old(Snapshot()), Reload(delay, cfg))
    {
      now := now + delay;
      UpdateConfig(cfg);
      RescheduleTask();
    }

    // handleJob: without its query in the configuration the job fails at once; otherwise it
    // takes `dur`, and an error-free answer (`None` stands for an error, and for a cancelled
    // context) is stored in the cache.
    method HandleJob(job: Job, dur: nat, answer: Option<string>, cachingTime: string -> int)
      returns (found: bool, stored: seq<Cached.Event>)
      modifies this`now
      ensures found == (job.query in cfg.queries)
      ensures now == if found then old(now) + dur else old(now)
      ensures stored == Puts(job, cfg, answer, cachingTime, now)
    {
      found := job.query in cfg.queries;
      if !found {
        return false, [];
      }
      now := now + dur;
      match answer
      case None => stored := [];
      case Some(data) =>
        var query := Cached.Query(job.query, cachingTime(job.query));
        stored := [Cached.JobDone(query, job.database, data, now)];
    }

    // The body of the loop over the tasks.
    method LookAt(k: nat, dur: nat, answer: Option<string>, cachingTime: string -> int)
      returns (stored: seq<Cached.Event>)
      requires k < |tasks|
      modifies this
      ensures Snapshot() == Look(old(Snapshot()), k, dur)
      ensures stored == PutsOfLook(old(Snapshot()), k, dur, answer, cachingTime)
    {
      stored := [];
      var t := tasks[k];
      if now > t.nextRun {
        var start, found := now, false;
        found, stored := HandleJob(t.job, dur, answer, cachingTime);
        tasks := tasks[k := t.(nextRun := now + t.job.interval)];
        log := log + [Exec(gen, loadedAt, |tasks|, k, t.job, t.nextRun, start, now, found)];
      }
    }

    // `stored` is what the jobs put into the cache.
    method RunOverdueJobs(durs: seq<nat>, answers: seq<Option<string>>, cachingTime: string -> int)
      returns (stored: seq<Cached.Event>)
      requires |tasks| <= |durs| && |tasks| <= |answers|
      modifies this
      ensures Snapshot() == LookAll(old(Snapshot()), 0, durs)
      ensures stored == PutsOfRound(old(Snapshot()), 0, durs, answers, cachingTime)
    {
      stored := [];
      ghost var s := Snapshot();
      for i := 0 to |tasks|
        invariant s == Snapshot() && |s.tasks| == |old(tasks)|
        invariant LookAll(s, i, durs) == LookAll(old(Snapshot()), 0, durs)
        invariant stored + PutsOfRound(s, i, durs, answers, cachingTime) ==
                  PutsOfRound(old(Snapshot()), 0, durs, answers, cachingTime)
      {
        FirstLook(s, i, durs, answers, cachingTime);
        var put := LookAt(i, durs[i], answers[i], cachingTime);
        s := Look(s, i, durs[i]);
        Regroup(stored, put, PutsOfRound(s, i + 1, durs, answers, cachingTime));
        stored := stored + put;
      }
    }

    // One round of the loop, begun by the timer.
    method Round(wait: nat, durs: seq<nat>, answers: seq<Option<string>>, cachingTime: string -> int)
      returns (stored: seq<Cached.Event>)
      requires |tasks| <= |durs| && |tasks| <= |answers|
      modifies this
      ensures Snapshot() == Turn(old(Snapshot()), Tick(wait, durs))
      ensures stored == PutsOfRound(old(Snapshot()).(now := old(now) + wait), 0, durs, answers, cachingTime)
    {
      now := now + wait;
      stored := RunOverdueJobs(durs, answers, cachingTime);
    }
  }
}
