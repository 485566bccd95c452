/**
 What loading a configuration computes and guarantees (internal/conf): the split of a
 database's connections between its two groups of workers, the validation of the scheduler's
 jobs, and the index from group names to queries.
 */
module Configuration {
  import opened Wrappers
  import opened Durations

  // ---- databases ----

  const DEFAULT_MAX_CONNECTIONS := 10
  const DEFAULT_IDLE_CONNECTIONS := 2
  const DEFAULT_CONN_MAX_LIFETIME := 600 * SECOND
  const DEFAULT_CONNECT_TIMEOUT := 15 * SECOND

  datatype Pool = Pool(maxConnections: int, maxIdle: int, connMaxLifeTime: int)

  const DEFAULT_POOL := Pool(DEFAULT_MAX_CONNECTIONS, DEFAULT_IDLE_CONNECTIONS, DEFAULT_CONN_MAX_LIFETIME)

  // Ten connections, two of them kept idle, for ten minutes; fifteen seconds to connect.
  lemma Defaults()
    ensures DEFAULT_POOL == Pool(10, 2, 600_000_000_000) && DEFAULT_CONNECT_TIMEOUT == 15_000_000_000
  {
  }

  function PoolOf(pool: Option<Pool>): Pool {
    match pool case Some(p) => p case None => DEFAULT_POOL
  }

  // (standard workers, background workers) of a pool when `background` of them are asked for.
  function Split(p: Pool, background: int): (int, int) {
    var all := if p.maxIdle > 0 then p.maxConnections else 1;
    if background >= all then (all, 0) else (all - background, background)
  }

  class Database {
    var name: string
    var pool: Option<Pool>
    var connectTimeout: int
    var backgroundWorkers: int
    var maxWorkers: int
    var valid: bool

    constructor (pool: Option<Pool>, connectTimeout: int, backgroundWorkers: int)
      ensures this.pool == pool && this.connectTimeout == connectTimeout
      ensures this.backgroundWorkers == backgroundWorkers && !valid
    {
      name := "";
      this.pool := pool;
      this.connectTimeout := connectTimeout;
      this.backgroundWorkers := backgroundWorkers;
      maxWorkers := 0;
      valid := false;
    }

    method Setup(name: string)
      modifies this
      ensures this.name == name && valid == old(valid)
      ensures pool == Some(PoolOf(old(pool)))
      ensures (maxWorkers, backgroundWorkers) == Split(PoolOf(old(pool)), old(backgroundWorkers))
      ensures connectTimeout == if old(connectTimeout) <= 0 then DEFAULT_CONNECT_TIMEOUT else old(connectTimeout)
    {
      this.name := name;
      if pool.None? {
        pool := Some(DEFAULT_POOL);
      }
      if pool.value.maxIdle > 0 {
        maxWorkers := pool.value.maxConnections;
      } else {
        maxWorkers := 1;
      }
      if backgroundWorkers >= maxWorkers {
        backgroundWorkers := 0;
      } else {
        maxWorkers := maxWorkers - backgroundWorkers;
      }
      if connectTimeout <= 0 {
        connectTimeout := DEFAULT_CONNECT_TIMEOUT;
      }
    }
  }

  // There is a standard worker, and no more workers than connections; a group with a
  // negative limit has no limit, but a background group without workers is never used.
  predicate WithinBudget(p: Pool, workers: (int, int)) {
    workers.0 >= 1 && workers.0 + (if workers.1 > 0 then workers.1 else 0) <= p.maxConnections
  }

  // As configured: there is a connection, and the background workers are not negative; or
  // they are, the pool keeps no idle connections, and one standard worker more than their
  // absolute number still fits.
  predicate Affordable(p: Pool, background: int) {
    && p.maxConnections >= 1
    && (background >= 0 || (p.maxIdle <= 0 && 1 - background <= p.maxConnections))
  }

  // Exactly which settings of a pool keep its workers within its connections.
  lemma SplitWithinBudget(p: Pool, background: int)
    ensures WithinBudget(p, Split(p, background)) <==> Affordable(p, background)
  {
  }

  // The two groups together use all the connections that the pool opens, one if it keeps no
  // idle ones; the background group is as large as asked for, or empty if that would leave
  // nothing to the other.
  lemma SplitUsesAll(p: Pool, background: int)
    ensures var (std, bg) := Split(p, background);
      && std + bg == (if p.maxIdle > 0 then p.maxConnections else 1)
      && bg == (if background < std + bg then background else 0)
  {
  }

  // ---- jobs ----

  datatype Job = Job(query: string, database: string, interval: int, idx: int, isValid: bool)

  datatype JobError = MissingDatabase | UnknownDatabase(db: string) | MissingQuery | UnknownQuery(query: string)

  // The maps of a configuration, by the names of their entries; a query with the groups it
  // lists.
  datatype Config = Config(databases: set<string>, queries: map<string, seq<string>>, jobs: seq<Job>)

  function DatabaseErrors(j: Job, c: Config): seq<JobError> {
    if j.database == "" then [MissingDatabase]
    else if j.database !in c.databases then [UnknownDatabase(j.database)]
    else []
  }

  function QueryErrors(j: Job, c: Config): seq<JobError> {
    if j.query == "" then [MissingQuery]
    else if j.query !in c.queries then [UnknownQuery(j.query)]
    else []
  }

  // Job.validate: an unknown name is an error, a short interval only makes the job invalid.
  method ValidateJob(j: Job, c: Config) returns (j': Job, errs: seq<JobError>)
    ensures errs == DatabaseErrors(j, c) + QueryErrors(j, c)
    ensures j' == j.(isValid := if j.interval < SECOND then false else errs == [] || j.isValid)
  {
    j' := j;
    errs := [];
    if j.database == "" {
      errs := errs + [MissingDatabase];
    } else if j.database !in c.databases {
      errs := errs + [UnknownDatabase(j.database)];
    }
    if j.query == "" {
      errs := errs + [MissingQuery];
    } else if j.query !in c.queries {
      errs := errs + [UnknownQuery(j.query)];
    }
    if errs == [] {
      j' := j'.(isValid := true);
    }
    if j.interval < SECOND {
      j' := j'.(isValid := false);
    }
  }

  // The errors of a job, each exactly when it is so.
  lemma JobErrorsExactly(j: Job, c: Config, e: JobError)
    ensures e in DatabaseErrors(j, c) + QueryErrors(j, c) <==>
            match e
            case MissingDatabase => j.database == ""
            case UnknownDatabase(db) => db == j.database != "" && db !in c.databases
            case MissingQuery => j.query == ""
            case UnknownQuery(query) => query == j.query != "" && query !in c.queries
  {
  }

  // A job that may be run: its names exist in the configuration and it has a usable interval.
  predicate Runnable(j: Job, c: Config) {
    j.database in c.databases && j.query in c.queries && j.interval >= SECOND
  }

  predicate Loaded(c: Config) {
    && (forall i :: 0 <= i < |c.jobs| ==> c.jobs[i].idx == i + 1)
    && (forall j :: j in c.jobs ==> j.database in c.databases && j.query in c.queries)
    && (forall j :: j in c.jobs ==> (j.isValid <==> j.interval >= SECOND))
  }

  // The part of loading that concerns the jobs: they are numbered from one and validated,
  // and a single error rejects the configuration.
  method LoadJobs(c: Config) returns (res: Option<Config>)
    requires forall j :: j in c.jobs ==> !j.isValid
    ensures res.Some? <==> forall j :: j in c.jobs ==>
                             j.database != "" && j.database in c.databases && j.query != "" && j.query in c.queries
    ensures res.Some? ==> Loaded(res.value) && |res.value.jobs| == |c.jobs|
                          && res.value.databases == c.databases && res.value.queries == c.queries
    ensures res.Some? ==> forall i :: 0 <= i < |c.jobs| ==>
                            res.value.jobs[i] == c.jobs[i].(idx := i + 1, isValid := c.jobs[i].interval >= SECOND)
  {
    var jobs, ok := [], true;
    for i := 0 to |c.jobs|
      invariant |jobs| == i
      invariant ok <==> forall k :: 0 <= k < i ==>
                          && c.jobs[k].database != "" && c.jobs[k].database in c.databases
                          && c.jobs[k].query != "" && c.jobs[k].query in c.queries
      invariant ok ==> forall k :: 0 <= k < i ==>
                         jobs[k] == c.jobs[k].(idx := k + 1, isValid := c.jobs[k].interval >= SECOND)
    {
      var j, errs := ValidateJob(c.jobs[i].(idx := i + 1), c);
      if errs != [] {
        ok := false;
      }
      jobs := jobs + [j];
    }
    res := if ok then Some(c.(jobs := jobs)) else None;
  }

  // ---- groups ----

  predicate Lists(groups: map<string, seq<string>>, g: string, q: string) {
    g in groups && q in groups[g]
  }

  predicate Names(queries: map<string, seq<string>>, q: string, g: string) {
    q in queries && g in queries[q]
  }

  // Every group has a query, and none twice.
  predicate Tidy(groups: map<string, seq<string>>) {
    forall g :: g in groups ==>
      groups[g] != [] && forall i, j :: 0 <= i < j < |groups[g]| ==> groups[g][i] != groups[g][j]
  }

  function Added(groups: map<string, seq<string>>, g: string, q: string): map<string, seq<string>> {
    if g !in groups then groups[g := [q]]
    else if q in groups[g] then groups
    else groups[g := groups[g] + [q]]
  }

  lemma AddedLists(groups: map<string, seq<string>>, group: string, name: string, g: string, q: string)
    ensures Lists(Added(groups, group, name), g, q) <==> Lists(groups, g, q) || (g == group && q == name)
  {
  }

  // buildGroups visits the queries in any order; the index is the exact inverse of what the
  // queries list.
  method BuildGroups(queries: map<string, seq<string>>) returns (groups: map<string, seq<string>>)
    ensures forall g, q :: Lists(groups, g, q) <==> Names(queries, q, g)
    ensures Tidy(groups)
  {
    groups := map[];
    var todo := queries.Keys;
    while todo != {}
      invariant todo <= queries.Keys
      invariant forall g, q :: Lists(groups, g, q) <==> Names(queries, q, g) && q !in todo
      invariant Tidy(groups)
      decreases todo
    {
      var name :| name in todo;
      ghost var before := groups;
      var i := 0;
      while i < |queries[name]|
        invariant 0 <= i <= |queries[name]|
        invariant forall g, q :: Lists(groups, g, q) <==> Lists(before, g, q) || (q == name && g in queries[name][..i])
        invariant Tidy(groups)
      {
        var group := queries[name][i];
        assert queries[name][..i + 1] == queries[name][..i] + [group];
        ghost var was := groups;
        if group in groups {
          if name !in groups[group] {
            groups := groups[group := groups[group] + [name]];
          }
        } else {
          groups := groups[group := [name]];
        }
        forall g, q ensures Lists(groups, g, q) <==> Lists(was, g, q) || (g == group && q == name) {
          AddedLists(was, group, name, g, q);
        }
        i := i + 1;
      }
      assert queries[name][..i] == queries[name];
      todo := todo - {name};
    }
  }

  lemma GroupExists(queries: map<string, seq<string>>, groups: map<string, seq<string>>, g: string)
    requires (forall g, q :: Lists(groups, g, q) <==> Names(queries, q, g)) && Tidy(groups)
    ensures g in groups <==> exists q :: Names(queries, q, g)
  {
    if g in groups {
      assert Lists(groups, g, groups[g][0]);
    }
    if q :| Names(queries, q, g) {
      assert Lists(groups, g, q);
    }
  }

  // Whatever the order of the visits, two results have the same groups with the same queries.
  lemma GroupsAreDetermined(queries: map<string, seq<string>>, a: map<string, seq<string>>, b: map<string, seq<string>>)
    requires (forall g, q :: Lists(a, g, q) <==> Names(queries, q, g)) && Tidy(a)
    requires (forall g, q :: Lists(b, g, q) <==> Names(queries, q, g)) && Tidy(b)
    ensures a.Keys == b.Keys
    ensures forall g :: g in a ==> multiset(a[g]) == multiset(b[g])
  {
    forall g ensures g in a <==> g in b {
      GroupExists(queries, a, g);
      GroupExists(queries, b, g);
    }
    forall g | g in a ensures multiset(a[g]) == multiset(b[g]) {
      forall q ensures multiset(a[g])[q] == multiset(b[g])[q] {
        assert Lists(a, g, q) <==> Lists(b, g, q);
        OnceOnly(a[g], q);
        OnceOnly(b[g], q);
      }
    }
  }

  lemma {:induction false} OnceOnly(s: seq<string>, x: string)
    requires forall i, j :: 0 <= i < j < |s| ==> s[i] != s[j]
    ensures multiset(s)[x] == if x in s then 1 else 0
  {
    if s != [] {
      var front, last := s[..|s| - 1], s[|s| - 1];
      assert s == front + [last];
      OnceOnly(front, x);
    }
  }
}
