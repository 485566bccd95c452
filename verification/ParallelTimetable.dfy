/**
 When the jobs of the parallel scheduler run, told by the log of their runs alone, and the
 loop of one job as it is in the source.
 */
module ParallelTimetable {
  import opened Wrappers
  import opened Configuration
  import opened ParallelScheduler
  import Serial = Scheduler

  // A job is due its interval after the end of its last run in this generation, or, without
  // any, at the time `first`.
  function DueBy(log: seq<Run>, gen: nat, pos: nat, first: int): int {
    if log == [] then first
    else
      var last := log[|log| - 1];
      if last.gen == gen && last.pos == pos then last.end + last.job.interval
      else DueBy(log[..|log| - 1], gen, pos, first)
  }

  function FirstRun(loadedAt: int, job: Job): int {
    loadedAt + job.interval + job.idx * Serial.OFFSET
  }

  function DueOf(s: State, k: nat): int
    requires k < |s.loops|
  {
    DueBy(s.log, s.gen, k, FirstRun(s.loadedAt, s.loops[k].job))
  }

  // A loop sleeps exactly until its job is due, and ends only for a new configuration.
  predicate LoopOnSchedule(s: State, k: nat)
    requires k < |s.loops|
  {
    match s.loops[k].status
    case Sleeping(until) => until == DueOf(s, k)
    case Handling(since) => since >= DueOf(s, k)
    case Gone => s.next.Some?
  }

  predicate StartsWhenDue(log: seq<Run>, i: int)
    requires 0 <= i < |log|
  {
    log[i].start >= DueBy(log[..i], log[i].gen, log[i].pos, FirstRun(log[i].loadedAt, log[i].job))
  }

  // There is a loop for each valid job of the configuration, and all are on schedule.
  ghost predicate OnSchedule(s: State) {
    && |s.loops| == |Serial.ValidJobs(s.cfg.jobs)|
    && (forall k :: 0 <= k < |s.loops| ==> s.loops[k].job == Serial.ValidJobs(s.cfg.jobs)[k])
    && (forall k :: 0 <= k < |s.loops| ==> LoopOnSchedule(s, k))
    && (forall r :: r in s.log ==> r.gen <= s.gen)
    && (forall i :: 0 <= i < |s.log| ==> StartsWhenDue(s.log, i))
  }

  lemma OneMoreRun(log: seq<Run>, r: Run, gen: nat, pos: nat, first: int)
    ensures DueBy(log + [r], gen, pos, first) ==
            if r.gen == gen && r.pos == pos then r.end + r.job.interval else DueBy(log, gen, pos, first)
    ensures forall i :: 0 <= i < |log| && StartsWhenDue(log, i) ==> StartsWhenDue(log + [r], i)
  {
    assert (log + [r])[..|log|] == log;
    assert forall i :: 0 <= i < |log| ==> (log + [r])[..i] == log[..i];
  }

  lemma DoneKeepsOnSchedule(s: State, k: nat)
    requires OnSchedule(s) && Enabled(s, Done(k))
    ensures OnSchedule(After(s, Done(k)))
  {
    var s' := After(s, Done(k));
    var r := s'.log[|s.log|];
    assert s'.log == s.log + [r] && s'.log[..|s.log|] == s.log;
    assert LoopOnSchedule(s, k);
    OneMoreRun(s.log, r, s.gen, k, FirstRun(s.loadedAt, s.loops[k].job));
    forall j | 0 <= j < |s.loops| ensures LoopOnSchedule(s', j) {
      assert LoopOnSchedule(s, j);
      OneMoreRun(s.log, r, s.gen, j, FirstRun(s.loadedAt, s.loops[j].job));
    }
  }

  lemma {:induction false} DueOfNewLoop(log: seq<Run>, gen: nat, pos: nat, first: int)
    requires forall r :: r in log ==> r.gen < gen
    ensures DueBy(log, gen, pos, first) == first
  {
    if log != [] {
      DueOfNewLoop(log[..|log| - 1], gen, pos, first);
    }
  }

  lemma SwapKeepsOnSchedule(s: State)
    requires OnSchedule(s) && Enabled(s, Swap)
    ensures OnSchedule(After(s, Swap))
  {
    var s' := After(s, Swap);
    forall k | 0 <= k < |s'.loops| ensures LoopOnSchedule(s', k) {
      DueOfNewLoop(s.log, s'.gen, k, FirstRun(s'.loadedAt, s'.loops[k].job));
    }
  }

  lemma StepKeepsOnSchedule(s: State, e: Event)
    requires OnSchedule(s) && Enabled(s, e)
    ensures OnSchedule(After(s, e))
  {
    match e
    case Done(k) => DoneKeepsOnSchedule(s, k);
    case Swap => SwapKeepsOnSchedule(s);
    case _ =>
      var s' := After(s, e);
      forall j | 0 <= j < |s'.loops| ensures LoopOnSchedule(s', j) {
        assert LoopOnSchedule(s, j);
      }
  }

  // In every run each job has a loop that never ends but for a new configuration, sleeps
  // exactly until its interval after its last run has passed, or, before the first, its
  // interval and its offset after the configuration was loaded, and starts no run before.
  lemma {:induction false} RunsAreOnSchedule(ss: seq<State>, es: seq<Event>, cfg: Config, at: int, i: nat)
    requires IsRun(ss, es, cfg, at) && i < |ss|
    ensures OnSchedule(ss[i])
  {
    if i > 0 {
      RunsAreOnSchedule(ss, es, cfg, at, i - 1);
      StepKeepsOnSchedule(ss[i - 1], es[i - 1]);
    }
  }

  // A waiting loop may start its job exactly when it is due.
  lemma FiresExactly(s: State, k: nat)
    requires OnSchedule(s) && k < |s.loops| && s.loops[k].status.Sleeping?
    ensures Enabled(s, Fire(k)) <==> s.now >= DueOf(s, k)
    ensures Enabled(s, Fire(k)) ==> Enabled(After(s, Fire(k)), Done(k))
  {
    assert LoopOnSchedule(s, k);
  }

  // A new configuration is taken in as it arrived, once all loops have ended.
  lemma SwapTakesTheNewConfig(s: State, cfg: Config)
    ensures Enabled(s, Arrive(cfg)) ==> After(s, Arrive(cfg)).next == Some(cfg)
    ensures Enabled(s, Swap) ==> Some(After(s, Swap).cfg) == s.next && After(s, Swap).next == None
  {
  }

  // The n-th run starts `late` after its time and takes `dur`.
  predicate RunsAt(runs: seq<(int, int)>, n: nat, job: Job, at: int, late: nat, dur: nat)
    requires n < |runs|
  {
    && runs[n].0 == late + (if n == 0 then FirstRun(at, job) else runs[n - 1].1 + job.interval)
    && runs[n].1 == runs[n].0 + dur
  }

  // runJobInLoop begun at `at`: the i-th timer fires `lates[i]` after its time, and the i-th
  // run takes `durs[i]`. The first interval has the offset added.
  method RunJobInLoop(job: Job, at: int, lates: seq<nat>, durs: seq<nat>) returns (runs: seq<(int, int)>)
    requires |lates| == |durs|
    ensures |runs| == |lates|
    ensures forall i :: 0 <= i < |runs| ==> RunsAt(runs, i, job, at, lates[i], durs[i])
  {
    runs := [];
    var now, interval := at, job.interval + job.idx * Serial.OFFSET;
    for i := 0 to |lates|
      invariant |runs| == i
      invariant now + interval == if i == 0 then FirstRun(at, job) else runs[i - 1].1 + job.interval
      invariant forall n :: 0 <= n < i ==> RunsAt(runs, n, job, at, lates[n], durs[n])
    {
      ghost var before := runs;
      var start := now + interval + lates[i];
      now := start + durs[i];
      runs := runs + [(start, now)];
      interval := job.interval;
      forall n | 0 <= n < i ensures RunsAt(runs, n, job, at, lates[n], durs[n]) {
        assert RunsAt(before, n, job, at, lates[n], durs[n]);
      }
    }
  }
}
