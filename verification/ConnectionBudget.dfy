/**
 The split of a database's connections, computed when a configuration is loaded, bounds the
 workers that are alive in any state of any run, also while generations are replaced.
 */
module ConnectionBudget {
  import opened Pipeline
  import opened PipelineGuarantees
  import opened PipelineProgress
  import Conf = Configuration
  import C = Collectors

  // A database's pool and the number of background workers its configuration asks for.
  datatype Setting = Setting(pool: Conf.Pool, background: int)

  predicate Affordable(x: Setting) {
    Conf.Affordable(x.pool, x.background)
  }

  function LimitsOf(x: Setting): C.Limits {
    var (std, bg) := Conf.Split(x.pool, x.background);
    C.Limits(std, bg)
  }

  function AllLimits(xs: seq<Setting>): seq<C.Limits> {
    seq(|xs|, d requires 0 <= d < |xs| => LimitsOf(xs[d]))
  }

  // In every state of every run the live workers of a database, standard and background
  // together, are no more than the connections of its current configuration; and when a new
  // generation starts, none of the old one is alive.
  lemma WorkersWithinConnections(limits: seq<C.Limits>, ss: seq<State>, ls: seq<Label>, i: nat,
                                 xs: seq<Setting>, d: nat)
    requires IsRun(ss, ls) && ss[0] == Init(limits) && i < |ss|
    requires ss[i].limits == AllLimits(xs) && d < |xs| && Affordable(xs[d])
    ensures d < |ss[i].colls| && C.Workers(ss[i].colls[d]) <= xs[d].pool.maxConnections
    ensures i < |ls| && ls[i].Restart? ==> C.Workers(ss[i].colls[d]) == 0
  {
    Conf.SplitWithinBudget(xs[d].pool, xs[d].background);
    InitialRun(limits, ss, ls, i);
    WorkersWithinLimits(ss[i], d);
    assert ss[i].limits[d] == LimitsOf(xs[d]);
  }

  // Affordable settings give every database a standard worker, which is what the
  // progress theorem needs.
  lemma BudgetIsUsable(xs: seq<Setting>)
    requires forall d :: 0 <= d < |xs| ==> Affordable(xs[d])
    ensures Usable(AllLimits(xs))
  {
  }
}
