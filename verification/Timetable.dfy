/**
 When the jobs of the serial scheduler run, told by the log of their executions alone: when
 each is due, that it then runs, and what it leaves in the cache.
 */
module Timetable {
  import opened Wrappers
  import opened Configuration
  import opened Scheduler
  import Cached = ResultCache

  // ---- when a job is due ----

  // Executions of one task: of the same position in the same configuration.
  predicate SameTask(e: Exec, d: Exec) {
    e.gen == d.gen && e.pos == d.pos
  }

  // a is the last execution of its task before b; b is the first of its task.
  predicate Previous(log: seq<Exec>, a: int, b: int) {
    && 0 <= a < b < |log| && SameTask(log[a], log[b])
    && forall i :: a < i < b ==> !SameTask(log[i], log[b])
  }

  predicate First(log: seq<Exec>, b: int) {
    0 <= b < |log| && forall i :: 0 <= i < b ==> !SameTask(log[i], log[b])
  }

  // After these executions the task is due its interval after the end of its last one, or,
  // without any, at the time `first`.
  function DueBy(log: seq<Exec>, gen: nat, pos: nat, first: int): int {
    if log == [] then first
    else
      var last := log[|log| - 1];
      if last.gen == gen && last.pos == pos then last.end + last.job.interval
      else DueBy(log[..|log| - 1], gen, pos, first)
  }

  predicate DueIsRight(log: seq<Exec>, i: int)
    requires 0 <= i < |log|
  {
    log[i].due == DueBy(log[..i], log[i].gen, log[i].pos, log[i].loadedAt + log[i].job.idx * OFFSET)
  }

  // The tasks are the valid jobs of the configuration, and each knows when it is due.
  predicate OnSchedule(s: State) {
    && |s.tasks| == |ValidJobs(s.cfg.jobs)|
    && (forall k :: 0 <= k < |s.tasks| ==> s.tasks[k].job == ValidJobs(s.cfg.jobs)[k])
    && (forall k :: 0 <= k < |s.tasks| ==>
          s.tasks[k].nextRun == DueBy(s.log, s.gen, k, s.loadedAt + s.tasks[k].job.idx * OFFSET))
  }

  // What the log says of an execution is so.
  predicate Recorded(s: State, e: Exec) {
    && e.gen <= s.gen
    && (e.gen == s.gen ==>
          && e.loadedAt == s.loadedAt && e.count == |s.tasks| && e.pos < |s.tasks| && e.job == s.tasks[e.pos].job)
  }

  ghost predicate Timely(s: State) {
    && OnSchedule(s)
    && (forall e :: e in s.log ==> Recorded(s, e))
    && (forall i :: 0 <= i < |s.log| ==> DueIsRight(s.log, i))
  }

  lemma OneMoreExec(log: seq<Exec>, e: Exec, gen: nat, pos: nat, first: int)
    ensures DueBy(log + [e], gen, pos, first) ==
            if e.gen == gen && e.pos == pos then e.end + e.job.interval else DueBy(log, gen, pos, first)
    ensures forall i :: 0 <= i < |log| && DueIsRight(log, i) ==> DueIsRight(log + [e], i)
  {
    assert (log + [e])[..|log|] == log;
    assert forall i :: 0 <= i < |log| ==> (log + [e])[..i] == log[..i];
  }

  lemma LookKeepsTimely(s: State, k: nat, dur: nat)
    requires Timely(s) && k < |s.tasks|
    ensures Timely(Look(s, k, dur))
  {
    var s' := Look(s, k, dur);
    if s.now > s.tasks[k].nextRun {
      var e := s'.log[|s.log|];
      assert s'.log == s.log + [e] && s'.log[..|s.log|] == s.log;
      forall j | 0 <= j < |s.tasks|
        ensures s'.tasks[j].nextRun == DueBy(s'.log, s'.gen, j, s'.loadedAt + s'.tasks[j].job.idx * OFFSET)
      {
        OneMoreExec(s.log, e, s.gen, j, s.loadedAt + s.tasks[j].job.idx * OFFSET);
      }
      OneMoreExec(s.log, e, s.gen, k, s.loadedAt + s.tasks[k].job.idx * OFFSET);
    }
  }

  lemma {:induction false} LookAllKeepsTimely(s: State, k: nat, durs: seq<nat>)
    requires Timely(s) && k <= |s.tasks| <= |durs|
    ensures Timely(LookAll(s, k, durs))
    decreases |s.tasks| - k
  {
    if k < |s.tasks| {
      LookKeepsTimely(s, k, durs[k]);
      LookAllKeepsTimely(Look(s, k, durs[k]), k + 1, durs);
    }
  }

  lemma {:induction false} DueOfNewTask(log: seq<Exec>, gen: nat, pos: nat, first: int)
    requires forall e :: e in log ==> e.gen < gen
    ensures DueBy(log, gen, pos, first) == first
  {
    if log != [] {
      DueOfNewTask(log[..|log| - 1], gen, pos, first);
    }
  }

  lemma LoadKeepsTimely(s: State, cfg: Config, now: int)
    requires (forall e :: e in s.log ==> e.gen <= s.gen) && forall i :: 0 <= i < |s.log| ==> DueIsRight(s.log, i)
    ensures Timely(Load(s, cfg, now))
  {
    var s' := Load(s, cfg, now);
    forall k | 0 <= k < |s'.tasks|
      ensures s'.tasks[k].nextRun == DueBy(s'.log, s'.gen, k, s'.loadedAt + s'.tasks[k].job.idx * OFFSET)
    {
      DueOfNewTask(s.log, s'.gen, k, s'.loadedAt + s'.tasks[k].job.idx * OFFSET);
    }
  }

  // In every run, after every turn of the loop.
  lemma {:induction false} RunsAreTimely(ss: seq<State>, es: seq<Event>, cfg: Config, at: int, i: nat)
    requires IsRun(ss, es, cfg, at) && i < |ss|
    ensures Timely(ss[i])
  {
    if i == 0 {
      LoadKeepsTimely(NONE, cfg, at);
    } else {
      RunsAreTimely(ss, es, cfg, at, i - 1);
      TurnKeepsTimely(ss[i - 1], es[i - 1]);
    }
  }

  lemma TurnKeepsTimely(s: State, e: Event)
    requires Timely(s) && Fits(s, e)
    ensures Timely(Turn(s, e))
  {
    match e
    case Tick(wait, durs) => RoundKeepsTimely(s, wait, durs);
    case Reload(delay, c) =>
      forall x | x in s.log ensures x.gen <= s.gen {
        assert Recorded(s, x);
      }
      LoadKeepsTimely(s, c, s.now + delay);
  }

  lemma RoundKeepsTimely(s: State, wait: nat, durs: seq<nat>)
    requires Timely(s) && |s.tasks| <= |durs|
    ensures Timely(LookAll(s.(now := s.now + wait), 0, durs))
  {
    WaitKeepsTimely(s, wait);
    LookAllKeepsTimely(s.(now := s.now + wait), 0, durs);
  }

  lemma WaitKeepsTimely(s: State, wait: nat)
    requires Timely(s)
    ensures Timely(s.(now := s.now + wait))
  {
    forall e | e in s.log ensures Recorded(s.(now := s.now + wait), e) {
      assert Recorded(s, e);
    }
  }

  lemma {:induction false} DueAfter(log: seq<Exec>, a: nat, n: nat, first: int)
    requires a < n <= |log| && forall i :: a < i < n ==> !SameTask(log[i], log[a])
    ensures DueBy(log[..n], log[a].gen, log[a].pos, first) == log[a].end + log[a].job.interval
  {
    assert log[..n][..n - 1] == log[..n - 1];
    if a < n - 1 {
      DueAfter(log, a, n - 1, first);
    }
  }

  lemma {:induction false} DueBefore(log: seq<Exec>, b: nat, n: nat, first: int)
    requires n <= b < |log| && forall i :: 0 <= i < n ==> !SameTask(log[i], log[b])
    ensures DueBy(log[..n], log[b].gen, log[b].pos, first) == first
  {
    if n > 0 {
      assert log[..n][..n - 1] == log[..n - 1];
      DueBefore(log, b, n - 1, first);
    }
  }

  // A job is due its interval after the end of its previous execution, and for the first
  // time its offset after its configuration was loaded.
  lemma DueExactly(ss: seq<State>, es: seq<Event>, cfg: Config, at: int, n: nat, a: int, b: int)
    requires IsRun(ss, es, cfg, at) && n < |ss|
    ensures var log := ss[n].log;
      && (Previous(log, a, b) ==> log[b].due == log[a].end + log[a].job.interval)
      && (First(log, b) ==> log[b].due == log[b].loadedAt + log[b].job.idx * OFFSET)
  {
    RunsAreTimely(ss, es, cfg, at, n);
    var log := ss[n].log;
    if 0 <= b < |log| {
      assert DueIsRight(log, b);
      var first := log[b].loadedAt + log[b].job.idx * OFFSET;
      if Previous(log, a, b) {
        DueAfter(log, a, b, first);
      }
      if First(log, b) {
        DueBefore(log, b, b, first);
      }
    }
  }

  // So, if no execution takes longer than `most` and no wait is longer than `wait`, each
  // starts after these times, and later by no more than the executions of the others and
  // one wait.
  lemma JobsRunOnTime(ss: seq<State>, es: seq<Event>, cfg: Config, at: int, n: nat, a: int, b: int,
                      most: nat, wait: nat)
    requires IsRun(ss, es, cfg, at) && n < |ss|
    requires forall k :: 0 <= k < |es| && es[k].Tick? ==>
               es[k].wait <= wait && forall d :: d in es[k].durs ==> d <= most
    ensures var log := ss[n].log;
      && (Previous(log, a, b) ==>
            var due := log[a].end + log[a].job.interval;
            due < log[b].start <= due + (log[b].count - 1) * most + wait)
      && (First(log, b) ==>
            var due := log[b].loadedAt + log[b].job.idx * OFFSET;
            due < log[b].start <= due + (log[b].count - 1) * most + wait)
  {
    DueExactly(ss, es, cfg, at, n, a, b);
    RunsAreSpaced(ss, es, cfg, at, n);
    JobsArePunctual(ss, es, cfg, at, n, most, wait);
    if 0 <= b < |ss[n].log| {
      assert ExecOk(ss[n].log[b]) && Punctual(ss[n].log[b], most, wait);
    }
  }

  // The configuration is the last one that arrived.
  lemma {:induction false} ConfigIsLatest(ss: seq<State>, es: seq<Event>, cfg: Config, at: int, i: nat)
    requires IsRun(ss, es, cfg, at) && i < |ss|
    ensures ss[i].cfg == LatestConfig(es[..i], cfg)
  {
    if i > 0 {
      ConfigIsLatest(ss, es, cfg, at, i - 1);
      assert es[..i][..i - 1] == es[..i - 1];
      if es[i - 1].Tick? {
        RoundKeepsConfig(ss[i - 1].(now := ss[i - 1].now + es[i - 1].wait), 0, es[i - 1].durs);
      }
    }
  }

  function LatestConfig(es: seq<Event>, cfg: Config): Config {
    if es == [] then cfg
    else if es[|es| - 1].Reload? then es[|es| - 1].cfg
    else LatestConfig(es[..|es| - 1], cfg)
  }

  lemma {:induction false} RoundKeepsConfig(s: State, k: nat, durs: seq<nat>)
    requires k <= |s.tasks| <= |durs|
    ensures LookAll(s, k, durs).cfg == s.cfg
    decreases |s.tasks| - k
  {
    if k < |s.tasks| {
      RoundKeepsConfig(Look(s, k, durs[k]), k + 1, durs);
    }
  }

  // Jobs are seven seconds apart at first.
  lemma SevenSeconds()
    ensures OFFSET == 7_000_000_000
  {
  }

  // ---- overdue jobs run ----

  lemma {:induction false} RoundExtendsLog(s: State, k: nat, durs: seq<nat>)
    requires k <= |s.tasks| <= |durs|
    ensures var s' := LookAll(s, k, durs);
      && s'.now >= s.now && s.log <= s'.log
      && (forall i :: |s.log| <= i < |s'.log| ==> s'.log[i].gen == s.gen && k <= s'.log[i].pos < |s.tasks|)
      && (forall i, j :: |s.log| <= i < j < |s'.log| ==> s'.log[i].pos < s'.log[j].pos)
    decreases |s.tasks| - k
  {
    if k < |s.tasks| {
      RoundExtendsLog(Look(s, k, durs[k]), k + 1, durs);
    }
  }

  // The round from task k on runs task j.
  ghost predicate RunsInRound(s: State, s': State, j: nat) {
    exists i :: |s.log| <= i < |s'.log| && s'.log[i].gen == s.gen && s'.log[i].pos == j && s'.log[i].start >= s.now
  }

  lemma LookRuns(s: State, k: nat, dur: nat)
    requires k < |s.tasks| && s.now > s.tasks[k].nextRun
    ensures var s' := Look(s, k, dur);
      && |s'.log| == |s.log| + 1 && s'.log[..|s.log|] == s.log
      && var e := s'.log[|s.log|];
         && e.gen == s.gen && e.pos == k && e.job == s.tasks[k].job && e.start == s.now && e.end == s'.now
  {
  }

  // A task that is overdue when a round begins runs in it, once.
  lemma {:induction false} OverdueTasksRun(s: State, k: nat, durs: seq<nat>, j: nat)
    requires k <= j < |s.tasks| <= |durs| && s.now > s.tasks[j].nextRun
    ensures RunsInRound(s, LookAll(s, k, durs), j)
    decreases |s.tasks| - k
  {
    var s1, s' := Look(s, k, durs[k]), LookAll(s, k, durs);
    RoundExtendsLog(s1, k + 1, durs);
    if k == j {
      LookRuns(s, k, durs[k]);
      assert s'.log[|s.log|] == s1.log[|s.log|];
    } else {
      OverdueTasksRun(s1, k + 1, durs, j);
      var i :| |s1.log| <= i < |s'.log| && s'.log[i].gen == s1.gen && s'.log[i].pos == j && s'.log[i].start >= s1.now;
      assert |s.log| <= i;
    }
  }

  // The valid jobs come in the order of the configuration.
  lemma {:induction false} ValidJobsInOrder(jobs: seq<Job>, i: nat, j: nat)
    requires forall a, b :: 0 <= a < b < |jobs| ==> jobs[a].idx < jobs[b].idx
    requires i < j < |ValidJobs(jobs)|
    ensures ValidJobs(jobs)[i].idx < ValidJobs(jobs)[j].idx
  {
    var n := |jobs| - 1;
    var front := ValidJobs(jobs[..n]);
    if j < |front| {
      ValidJobsInOrder(jobs[..n], i, j);
    } else {
      ValidJobsAreJobs(jobs[..n], front[i]);
    }
  }

  // ---- what is left in the cache ----

  // The answer of a job, if there is one, becomes the last result stored for its query and
  // database, whatever was stored before.
  lemma AnswerIsStored(disabled: bool, es: seq<Cached.Event>, job: Job, cfg: Config, answer: Option<string>,
                       cachingTime: string -> int, end: int)
    ensures var stored := Puts(job, cfg, answer, cachingTime, end);
      if job.query in cfg.queries && answer.Some? then
        && |stored| == 1
        && Cached.IsLastStore(disabled, es + stored, job.query, job.database, |es|)
        && stored[0].data == answer.value && stored[0].at == end
        && stored[0].query.cachingTime == cachingTime(job.query)
      else stored == []
  {
  }

  // And until its caching time has passed a request without parameters for that query and
  // that database is served it.
  lemma AnswerIsServed(es: seq<Cached.Event>, names: set<string>, job: Job, cfg: Config, data: string,
                       cachingTime: string -> int, end: int, now: int)
    requires (forall e :: e in es ==> Cached.WellFormed(e)) && Cached.Unmixed(names) && Cached.NamedIn(es, names)
    requires job.query in cfg.queries && job.query in names
    requires cachingTime(job.query) != 0 && now < end + cachingTime(job.query)
    ensures var after := es + Puts(job, cfg, Some(data), cachingTime, end);
      && (forall e :: e in after ==> Cached.WellFormed(e))
      && var query := Cached.Query(job.query, cachingTime(job.query));
         Cached.Served(false, after, query, job.database, [], now) == Some(data)
  {
    var stored := Puts(job, cfg, Some(data), cachingTime, end);
    var after := es + stored;
    AnswerIsStored(false, es, job, cfg, Some(data), cachingTime, end);
    assert after[|es|] == stored[0];
    var query := Cached.Query(job.query, cachingTime(job.query));
    Cached.ServedFromCache(false, after, names, query, job.database, [], now, data);
  }

  // e is the answer of an execution, stored under its query and database when it ended.
  predicate IsAnswerOf(x: Exec, answers: seq<Option<string>>, cachingTime: string -> int, e: Cached.Event) {
    && x.found && x.pos < |answers| && answers[x.pos].Some? && e.JobDone?
    && e.query.name == x.job.query && e.query.cachingTime == cachingTime(x.job.query)
    && e.db == x.job.database && e.data == answers[x.pos].value && e.at == x.end
  }

  ghost predicate AnswersNew(s: State, s': State, answers: seq<Option<string>>, cachingTime: string -> int,
                             e: Cached.Event)
  {
    exists i :: |s.log| <= i < |s'.log| && IsAnswerOf(s'.log[i], answers, cachingTime, e)
  }

  lemma LookStores(s: State, k: nat, dur: nat, answers: seq<Option<string>>, cachingTime: string -> int,
                   e: Cached.Event)
    requires k < |s.tasks| <= |answers|
    ensures e in PutsOfLook(s, k, dur, answers[k], cachingTime) <==>
            AnswersNew(s, Look(s, k, dur), answers, cachingTime, e)
  {
    var s' := Look(s, k, dur);
    if s.now > s.tasks[k].nextRun {
      var x := s'.log[|s.log|];
      assert IsAnswerOf(x, answers, cachingTime, e) <==> e in PutsOfLook(s, k, dur, answers[k], cachingTime);
    }
  }

  // A round stores exactly the answers of the executions it adds to the log.
  lemma {:induction false} RoundStoresAnswers(s: State, k: nat, durs: seq<nat>, answers: seq<Option<string>>,
                                              cachingTime: string -> int, e: Cached.Event)
    requires k <= |s.tasks| <= |durs| && |s.tasks| <= |answers|
    ensures e in PutsOfRound(s, k, durs, answers, cachingTime) <==>
            AnswersNew(s, LookAll(s, k, durs), answers, cachingTime, e)
    decreases |s.tasks| - k
  {
    if k < |s.tasks| {
      var s1, s' := Look(s, k, durs[k]), LookAll(s, k, durs);
      LookStores(s, k, durs[k], answers, cachingTime, e);
      RoundStoresAnswers(s1, k + 1, durs, answers, cachingTime, e);
      RoundExtendsLog(s1, k + 1, durs);
      assert forall i :: 0 <= i < |s1.log| ==> s'.log[i] == s1.log[i];
    }
  }

  // And in the order in which they ended.
  lemma {:induction false} RoundStoresInOrder(s: State, k: nat, durs: seq<nat>, answers: seq<Option<string>>,
                                              cachingTime: string -> int)
    requires k <= |s.tasks| <= |durs| && |s.tasks| <= |answers|
    ensures var puts := PutsOfRound(s, k, durs, answers, cachingTime);
      && (forall e :: e in puts ==> e.JobDone? && e.at >= s.now)
      && forall i, j :: 0 <= i < j < |puts| ==> puts[i].at <= puts[j].at
    decreases |s.tasks| - k
  {
    if k < |s.tasks| {
      RoundStoresInOrder(Look(s, k, durs[k]), k + 1, durs, answers, cachingTime);
    }
  }
}
