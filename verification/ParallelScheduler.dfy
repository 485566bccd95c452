/**
 The scheduler in parallel mode (internal/scheduler/mod.go): one loop per job, all of them
 stopped and waited for before a new configuration is taken in.
 */
module ParallelScheduler {
  import opened Wrappers
  import opened Configuration
  import opened Durations
  import Serial = Scheduler

  // A job's goroutine waits for its timer, handles the job, or has returned.
  datatype Status = Sleeping(until: int) | Handling(since: int) | Gone

  datatype Loop = Loop(job: Job, status: Status)

  datatype Run = Run(gen: nat, loadedAt: int, pos: nat, job: Job, start: int, end: int, found: bool)

  // `next`: a configuration has arrived and the loops are told to stop.
  datatype State = State(
    now: int, cfg: Config, next: Option<Config>, loops: seq<Loop>, gen: nat, loadedAt: int, log: seq<Run>)

  datatype Event = Wait(dt: nat) | Fire(k: nat) | Done(k: nat) | Quit(k: nat) | Arrive(cfg: Config) | Swap

  // The first time a loop waits for its interval and its offset.
  function NewLoops(jobs: seq<Job>, now: int): seq<Loop> {
    seq(|jobs|, i requires 0 <= i < |jobs| =>
      Loop(jobs[i], Sleeping(now + jobs[i].interval + jobs[i].idx * Serial.OFFSET)))
  }

  function Init(cfg: Config, at: int): State {
    State(at, cfg, None, NewLoops(Serial.ValidJobs(cfg.jobs), at), 0, at, [])
  }

  predicate Enabled(s: State, e: Event) {
    match e
    case Wait(_) => true
    case Fire(k) => k < |s.loops| && s.loops[k].status.Sleeping? && s.now >= s.loops[k].status.until
    case Done(k) => k < |s.loops| && s.loops[k].status.Handling?
    case Quit(k) => s.next.Some? && k < |s.loops| && s.loops[k].status.Sleeping?
    case Arrive(cfg) => s.next.None? && Loaded(cfg)
    case Swap => s.next.Some? && forall k :: 0 <= k < |s.loops| ==> s.loops[k].status.Gone?
  }

  function SetStatus(s: State, k: nat, status: Status): State
    requires k < |s.loops|
  {
    s.(loops := s.loops[k := s.loops[k].(status := status)])
  }

  function After(s: State, e: Event): State
    requires Enabled(s, e)
  {
    match e
    case Wait(dt) => s.(now := s.now + dt)
    case Fire(k) => SetStatus(s, k, Handling(s.now))
    case Done(k) =>
      var job := s.loops[k].job;
      SetStatus(s, k, Sleeping(s.now + job.interval))
      .(log := s.log + [Run(s.gen, s.loadedAt, k, job, s.loops[k].status.since, s.now, job.query in s.cfg.queries)])
    case Quit(k) => SetStatus(s, k, Gone)
    case Arrive(cfg) => s.(next := Some(cfg))
    case Swap =>
      State(s.now, s.next.value, None, NewLoops(Serial.ValidJobs(s.next.value.jobs), s.now), s.gen + 1, s.now, s.log)
  }

  ghost predicate IsRun(ss: seq<State>, es: seq<Event>, cfg: Config, at: int) {
    && |ss| == |es| + 1 && ss[0] == Init(cfg, at) && Loaded(cfg)
    && forall i :: 0 <= i < |es| ==> Enabled(ss[i], es[i]) && ss[i + 1] == After(ss[i], es[i])
  }

  // A loop's job is runnable in the configuration its handler reads, and its loop does not
  // begin before the interval and the offset have passed.
  predicate LoopOk(s: State, l: Loop) {
    var first := s.loadedAt + l.job.interval + l.job.idx * Serial.OFFSET;
    && l.job in s.cfg.jobs && Runnable(l.job, s.cfg) && l.job.idx >= 0
    && (l.status.Sleeping? ==> l.status.until >= first)
    && (l.status.Handling? ==> first <= l.status.since <= s.now)
  }

  predicate RunOk(r: Run) {
    && r.found && r.job.interval >= SECOND
    && r.loadedAt + r.job.interval + r.job.idx * Serial.OFFSET <= r.start <= r.end
  }

  // Two runs, the later one recorded later: a job does not overlap itself and pauses for
  // its interval, and a new generation begins after the old one's runs.
  predicate Apart(e: Run, d: Run) {
    && e.gen <= d.gen
    && (e.gen < d.gen ==> e.end <= d.start)
    && (e.gen == d.gen && e.pos == d.pos ==> d.job == e.job && d.start >= e.end + e.job.interval)
  }

  predicate Behind(e: Run, s: State) {
    && e.end <= s.now && e.gen <= s.gen
    && (e.gen < s.gen ==> e.end <= s.loadedAt)
    && (e.gen == s.gen && e.pos < |s.loops| ==>
          && e.job == s.loops[e.pos].job
          && (s.loops[e.pos].status.Sleeping? ==> s.loops[e.pos].status.until >= e.end + e.job.interval)
          && (s.loops[e.pos].status.Handling? ==> s.loops[e.pos].status.since >= e.end + e.job.interval))
  }

  ghost predicate Spaced(s: State) {
    && s.loadedAt <= s.now && (s.next.Some? ==> Loaded(s.next.value))
    && (forall k :: 0 <= k < |s.loops| ==> LoopOk(s, s.loops[k]))
    && (forall i :: 0 <= i < |s.log| ==> RunOk(s.log[i]) && Behind(s.log[i], s))
    && (forall i, j :: 0 <= i < j < |s.log| ==> Apart(s.log[i], s.log[j]))
  }

  lemma LoopsOfLoaded(cfg: Config, now: int, k: nat)
    requires Loaded(cfg) && k < |Serial.ValidJobs(cfg.jobs)|
    ensures var j := Serial.ValidJobs(cfg.jobs)[k]; j in cfg.jobs && Runnable(j, cfg) && j.idx >= 0
  {
    var j := Serial.ValidJobs(cfg.jobs)[k];
    Serial.ValidJobsAreJobs(cfg.jobs, j);
    var i :| 0 <= i < |cfg.jobs| && cfg.jobs[i] == j;
  }

  lemma DoneKeepsSpaced(s: State, k: nat)
    requires Spaced(s) && Enabled(s, Done(k))
    ensures Spaced(After(s, Done(k)))
  {
    var s' := After(s, Done(k));
    var n := |s.log|;
    assert LoopOk(s, s.loops[k]);
    forall i | 0 <= i < n ensures Apart(s.log[i], s'.log[n]) && Behind(s.log[i], s') {
      assert Behind(s.log[i], s);
    }
  }

  lemma StepKeepsSpaced(s: State, e: Event)
    requires Spaced(s) && Enabled(s, e)
    ensures Spaced(After(s, e))
  {
    var s' := After(s, e);
    match e
    case Done(k) => DoneKeepsSpaced(s, k);
    case Swap =>
      forall k | 0 <= k < |s'.loops| ensures LoopOk(s', s'.loops[k]) {
        LoopsOfLoaded(s'.cfg, s'.now, k);
      }
      assert forall i :: 0 <= i < |s.log| ==> Behind(s.log[i], s);
    case _ =>
      assert forall k :: 0 <= k < |s.loops| ==> LoopOk(s, s.loops[k]);
      assert forall i :: 0 <= i < |s.log| ==> Behind(s.log[i], s);
  }

  // In every run, every execution of a job finds its query, none begins before the job's
  // interval and offset have passed since the configuration was loaded, a job never overlaps
  // itself and rests for at least its interval, and generations do not overlap.
  lemma {:induction false} RunsAreSpaced(ss: seq<State>, es: seq<Event>, cfg: Config, at: int, i: nat)
    requires IsRun(ss, es, cfg, at) && i < |ss|
    ensures Spaced(ss[i])
  {
    if i == 0 {
      forall k | 0 <= k < |ss[0].loops| ensures LoopOk(ss[0], ss[0].loops[k]) {
        LoopsOfLoaded(cfg, at, k);
      }
    } else {
      RunsAreSpaced(ss, es, cfg, at, i - 1);
      StepKeepsSpaced(ss[i - 1], es[i - 1]);
    }
  }
}
