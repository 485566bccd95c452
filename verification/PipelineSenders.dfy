/**
 Senders that are inside addTask when their collector returns and closes its inbox: who can
 meet a closed inbox, and when.
 */
module PipelineSenders {
  import opened Tasks
  import opened Pipeline
  import opened PipelineSafety
  import opened PipelineGuarantees
  import opened PipelineProgress
  import opened PipelineReload
  import C = Collectors
  import R = Requests

  // A sender inside addTask has found its collector in this generation or an earlier one.
  predicate NotAhead(s: State, r: nat) {
    Inside(s, r) ==> s.reqs[r].inside.value <= s.gen
  }

  lemma StepKeepsNotAhead(s: State, l: Label, s': State, r: nat)
    requires NotAhead(s, r) && Enabled(s, l) && s' == Apply(s, l)
    ensures NotAhead(s', r)
  {
    ReqsOfApply(s, l);
    if Inside(s', r) && l != Enter(r) {
      InsideBefore(s, l, r);
    }
  }

  lemma {:induction false} NobodyIsAhead(limits: seq<C.Limits>, ss: seq<State>, ls: seq<Label>, i: nat, r: nat)
    requires IsRun(ss, ls) && ss[0] == Init(limits) && i < |ss|
    ensures NotAhead(ss[i], r)
  {
    if i > 0 {
      NobodyIsAhead(limits, ss, ls, i - 1, r);
      StepKeepsNotAhead(ss[i - 1], ls[i - 1], ss[i], r);
    }
  }

  // ---- a crash needs a reload during addTask ----

  // A configuration arrived while r was inside addTask.
  ghost predicate Overtaken(ss: seq<State>, ls: seq<Label>, n: nat, r: nat)
    requires |ss| == |ls| + 1 && n <= |ls|
  {
    exists j :: 0 <= j < n && ls[j].Reload? && Inside(ss[j], r)
  }

  predicate Safe(s: State, r: nat) {
    Inside(s, r) ==> s.mode.Live? && AtCurrent(s, r)
  }

  lemma StepKeepsSafe(s: State, l: Label, s': State, r: nat)
    requires Safe(s, r) && Enabled(s, l) && s' == Apply(s, l) && !(l.Reload? && Inside(s, r))
    ensures Safe(s', r)
  {
    ReqsOfApply(s, l);
    if Inside(s', r) {
      if l == Enter(r) {
        EntersCurrent(s, r, s');
      } else {
        InsideBefore(s, l, r);
        StepKeepsGeneration(s, l, s');
        StaysCurrent(s, l, s', r);
      }
    }
  }

  lemma {:induction false} SafeOrOvertaken(limits: seq<C.Limits>, ss: seq<State>, ls: seq<Label>, n: nat, r: nat)
    requires IsRun(ss, ls) && ss[0] == Init(limits) && n < |ss|
    ensures Safe(ss[n], r) || Overtaken(ss, ls, n, r)
  {
    if n > 0 {
      SafeOrOvertaken(limits, ss, ls, n - 1, r);
      if Safe(ss[n - 1], r) && !(ls[n - 1].Reload? && Inside(ss[n - 1], r)) {
        StepKeepsSafe(ss[n - 1], ls[n - 1], ss[n], r);
      }
    }
  }

  lemma SafeDoesNotCrash(s: State, r: nat)
    requires CollectorsOk(s) && Safe(s, r)
    ensures !Enabled(s, Crash(r))
  {
  }

  // In every run, a handler or a job that meets a closed inbox was inside addTask when a
  // configuration arrived.
  lemma CrashNeedsReload(limits: seq<C.Limits>, ss: seq<State>, ls: seq<Label>, k: nat)
    requires IsRun(ss, ls) && ss[0] == Init(limits) && k < |ls| && ls[k].Crash?
    ensures Overtaken(ss, ls, k, ls[k].r)
  {
    InitialRun(limits, ss, ls, k);
    SafeOrOvertaken(limits, ss, ls, k, ls[k].r);
    if Safe(ss[k], ls[k].r) {
      SafeDoesNotCrash(ss[k], ls[k].r);
    }
  }

  // And if the reload cannot hang, whoever is inside addTask when it begins may meet one.
  lemma InsideCanCrash(limits: seq<C.Limits>, ss: seq<State>, ls: seq<Label>, i: nat, next: seq<C.Limits>, r: nat)
    returns (ss': seq<State>, ls': seq<Label>)
    requires IsRun(ss, ls) && ss[0] == Init(limits) && i < |ss|
    requires Enabled(ss[i], Reload(next)) && Light(ss[i]) && Inside(ss[i], r)
    ensures IsRun(ss', ls') && ss'[0] == Apply(ss[i], Reload(next)) && Enabled(ss'[|ls'|], Crash(r))
  {
    var s' := Apply(ss[i], Reload(next));
    InitialRun(limits, ss, ls, i);
    NobodyIsAhead(limits, ss, ls, i, r);
    StepKeepsInv(ss[i], Reload(next));
    LightAfterReload(ss[i], next, s');
    ss', ls' := CanRestart(s');
  }

  // A handler that panics in addTask cancels its tasks and leaves its result channel open,
  // so it never makes a worker panic; a job that does takes the process with it.
  lemma CrashLeavesChannelOpen(s: State, r: nat, d: nat, bg: bool, t: Task, answer: Answer)
    requires Enabled(s, Crash(r))
    ensures var s' := Apply(s, Crash(r));
      && R.Cancelled(s'.reqs[r]) && !R.OutputClosed(s'.reqs[r])
      && (Up(s') <==> !s.reqs[r].job)
      && (t.req == r && Enabled(s', Deliver(d, bg, t, answer)) ==> !Apply(s', Deliver(d, bg, t, answer)).panicked)
  {
  }
}
