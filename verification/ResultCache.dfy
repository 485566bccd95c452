/**
 Who writes the result cache and who reads it: requests through two gates
 (internal/server/query_handler.go), scheduler jobs without any (internal/scheduler/mod.go),
 and a reload that clears it.
 */
module ResultCache {
  import opened Wrappers
  import opened Caching

  datatype Query = Query(name: string, cachingTime: int)

  // ---- cache keys ----

  function Key(query: string, db: string): string {
    query + "@" + db
  }

  // No name continues another one with an at sign.
  predicate Unmixed(names: set<string>) {
    forall p, q :: p in names && q in names ==> !(p + "@" <= q)
  }

  ghost predicate KeysTellApart(names: set<string>) {
    forall p, d, q, e :: p in names && q in names && Key(p, d) == Key(q, e) ==> p == q && d == e
  }

  lemma SameKey(p: string, d: string, q: string, e: string)
    requires Key(p, d) == Key(q, e) && |p| <= |q|
    ensures (p == q && d == e) || p + "@" <= q
  {
    var k := Key(p, d);
    assert p == k[..|p|] && q == k[..|q|];
    assert d == k[|p| + 1..] && e == k[|q| + 1..];
    if |p| < |q| {
      assert k[..|p| + 1] == p + "@";
      assert q[..|p| + 1] == k[..|p| + 1];
    }
  }

  // The keys of a set of query names tell all (query, database) pairs apart exactly if no
  // name continues another with an at sign.
  lemma KeysTellApartExactly(names: set<string>)
    ensures KeysTellApart(names) <==> Unmixed(names)
  {
    if Unmixed(names) {
      forall p, d, q, e | p in names && q in names && Key(p, d) == Key(q, e) ensures p == q && d == e {
        if |p| <= |q| {
          SameKey(p, d, q, e);
        } else {
          SameKey(q, e, p, d);
        }
      }
    }
    if !Unmixed(names) {
      var p, q :| p in names && q in names && p + "@" <= q;
      var rest := q[|p| + 1..];
      assert q == p + "@" + rest;
      assert Key(p, rest + "@" + "x") == Key(q, "x");
      assert p != q;
    }
  }

  lemma ContinuedNameHasAtSign(p: string, q: string)
    requires p + "@" <= q
    ensures '@' in q
  {
    assert q[|p|] == (p + "@")[|p|];
  }

  lemma NamesWithoutAtSign(names: set<string>)
    requires forall n :: n in names ==> '@' !in n
    ensures Unmixed(names)
  {
    forall p, q | p in names && q in names ensures !(p + "@" <= q) {
      if p + "@" <= q {
        ContinuedNameHasAtSign(p, q);
      }
    }
  }

  // ---- user parameters ----

  // WithParams: keys and values alternate; a repeated key keeps its last value.
  function ParamsOf(params: seq<string>): map<string, string>
    requires |params| % 2 == 0
  {
    if params == [] then map[]
    else ParamsOf(params[..|params| - 2])[params[|params| - 2] := params[|params| - 1]]
  }

  method WithParams(params: seq<string>) returns (res: map<string, string>)
    requires |params| % 2 == 0
    ensures res == ParamsOf(params)
  {
    res := map[];
    var i := 0;
    while i < |params|
      invariant 0 <= i <= |params| && i % 2 == 0
      invariant res == ParamsOf(params[..i])
    {
      res := res[params[i] := params[i + 1]];
      assert params[..i + 2][..i] == params[..i];
      i := i + 2;
    }
    assert params[..i] == params;
  }

  // The i-th pair is the last one with this key.
  predicate IsLastParam(params: seq<string>, key: string, i: int) {
    && 0 <= i < |params| / 2 && params[2 * i] == key
    && forall j :: i < j < |params| / 2 ==> params[2 * j] != key
  }

  // A parameter is in the map exactly if its key is in the list, with its last value.
  lemma {:induction false} ParamsExactly(params: seq<string>, key: string)
    requires |params| % 2 == 0
    ensures key in ParamsOf(params) <==> exists i :: IsLastParam(params, key, i)
    ensures forall i :: IsLastParam(params, key, i) ==> ParamsOf(params)[key] == params[2 * i + 1]
  {
    if params != [] {
      var n := |params| / 2 - 1;
      var front := params[..|params| - 2];
      ParamsExactly(front, key);
      if params[2 * n] == key {
        assert IsLastParam(params, key, n);
      } else {
        forall i ensures IsLastParam(params, key, i) <==> IsLastParam(front, key, i) {
          LastParamInFront(params, key, i);
        }
      }
    }
  }

  lemma LastParamInFront(params: seq<string>, key: string, i: int)
    requires |params| % 2 == 0 && params != [] && params[|params| - 2] != key
    ensures IsLastParam(params, key, i) <==> IsLastParam(params[..|params| - 2], key, i)
  {
    var n, front := |params| / 2 - 1, params[..|params| - 2];
    assert forall j :: 0 <= j < n ==> front[2 * j] == params[2 * j];
  }

  // The write gate looks at the task's parameters, the read gate at the request's: they
  // agree.
  lemma GatesAgree(params: seq<string>)
    requires |params| % 2 == 0
    ensures |ParamsOf(params)| > 0 <==> |params| > 0
  {
  }

  // ---- what goes in and what comes out ----

  datatype Event =
    // error-free, gathered by a request
    | Answered(query: Query, db: string, params: seq<string>, data: string, at: int)
    // error-free, collected by a job
    | JobDone(query: Query, db: string, data: string, at: int)
    | Reloaded

  predicate WellFormed(e: Event) {
    e.Answered? ==> |e.params| % 2 == 0
  }

  function OpOf(disabled: bool, e: Event): Op<string>
    requires WellFormed(e)
  {
    match e
    case Answered(query, db, params, data, at) =>
      if disabled || |ParamsOf(params)| > 0 || query.cachingTime == 0 then Op.Nothing
      else Op.Put(Key(query.name, db), query.cachingTime, data, at)
    case JobDone(query, db, data, at) => Op.Put(Key(query.name, db), query.cachingTime, data, at)
    case Reloaded => Op.Clear
  }

  function Ops(disabled: bool, es: seq<Event>): seq<Op<string>>
    requires forall e :: e in es ==> WellFormed(e)
  {
    seq(|es|, i requires 0 <= i < |es| => OpOf(disabled, es[i]))
  }

  predicate MayRead(disabled: bool, query: Query, params: seq<string>) {
    !disabled && |params| == 0 && query.cachingTime != 0
  }

  function Served(disabled: bool, es: seq<Event>, query: Query, db: string, params: seq<string>, now: int)
    : Option<string>
    requires forall e :: e in es ==> WellFormed(e)
  {
    if MayRead(disabled, query, params) then Lookup(Replay(Ops(disabled, es)), Key(query.name, db), now)
    else None
  }

  // The event stores a result for this query and database: a job's, or that of a request
  // without parameters for a query that is to be cached.
  predicate Stores(disabled: bool, e: Event, name: string, db: string) {
    match e
    case Answered(query, d, params, _, _) =>
      query.name == name && d == db && !disabled && params == [] && query.cachingTime != 0
    case JobDone(query, d, _, _) => query.name == name && d == db
    case Reloaded => false
  }

  predicate IsLastStore(disabled: bool, es: seq<Event>, name: string, db: string, i: int) {
    && 0 <= i < |es| && Stores(disabled, es[i], name, db)
    && forall j :: i < j < |es| ==> !es[j].Reloaded? && !Stores(disabled, es[j], name, db)
  }

  predicate NamedIn(es: seq<Event>, names: set<string>) {
    forall e :: e in es && !e.Reloaded? ==> e.query.name in names
  }

  lemma StoresIsPut(disabled: bool, e: Event, names: set<string>, name: string, db: string)
    requires WellFormed(e) && KeysTellApart(names) && name in names && (!e.Reloaded? ==> e.query.name in names)
    ensures Stores(disabled, e, name, db) <==> OpOf(disabled, e).Put? && OpOf(disabled, e).key == Key(name, db)
    ensures Stores(disabled, e, name, db) ==>
              OpOf(disabled, e) == Op.Put(Key(name, db), e.query.cachingTime, e.data, e.at)
  {
  }

  lemma LastStoreIsLastPut(disabled: bool, es: seq<Event>, names: set<string>, name: string, db: string, i: int)
    requires forall e :: e in es ==> WellFormed(e)
    requires KeysTellApart(names) && NamedIn(es, names) && name in names
    ensures IsLastStore(disabled, es, name, db, i) <==> IsLastPut(Ops(disabled, es), Key(name, db), i)
    ensures IsLastStore(disabled, es, name, db, i) ==>
              Ops(disabled, es)[i] == Op.Put(Key(name, db), es[i].query.cachingTime, es[i].data, es[i].at)
  {
    var ops := Ops(disabled, es);
    forall j | 0 <= j < |ops|
      ensures Stores(disabled, es[j], name, db) <==> ops[j].Put? && ops[j].key == Key(name, db)
      ensures es[j].Reloaded? <==> ops[j].Clear?
    {
      StoresIsPut(disabled, es[j], names, name, db);
    }
    if 0 <= i < |es| {
      StoresIsPut(disabled, es[i], names, name, db);
    }
  }

  // Bytes are served for a query and a database exactly if caching is not disabled, the
  // request has no parameters, the query is to be cached, and the last result stored for
  // that very pair since the last reload has not expired; the bytes are that result's.
  lemma ServedFromCache(disabled: bool, es: seq<Event>, names: set<string>, query: Query, db: string,
                        params: seq<string>, now: int, data: string)
    requires forall e :: e in es ==> WellFormed(e)
    requires Unmixed(names) && NamedIn(es, names) && query.name in names
    ensures Served(disabled, es, query, db, params, now) == Some(data) <==>
            && !disabled && params == [] && query.cachingTime != 0
            && exists i :: IsLastStore(disabled, es, query.name, db, i)
                 && es[i].at + es[i].query.cachingTime > now && es[i].data == data
  {
    KeysTellApartExactly(names);
    var ops := Ops(disabled, es);
    LookupIsLastPut(ops, Key(query.name, db), now, data);
    forall i
      ensures IsLastStore(disabled, es, query.name, db, i) <==> IsLastPut(ops, Key(query.name, db), i)
      ensures IsLastStore(disabled, es, query.name, db, i) ==>
                ops[i] == Op.Put(Key(query.name, db), es[i].query.cachingTime, es[i].data, es[i].at)
    {
      LastStoreIsLastPut(disabled, es, names, query.name, db, i);
    }
  }

  // Whatever the names, nothing is served if caching is disabled, to a request with
  // parameters, or for a query that is not to be cached.
  lemma ClosedGateServesNothing(disabled: bool, es: seq<Event>, query: Query, db: string, params: seq<string>, now: int)
    requires forall e :: e in es ==> WellFormed(e)
    requires disabled || params != [] || query.cachingTime == 0
    ensures Served(disabled, es, query, db, params, now) == None
  {
  }

  // The two gates of the handler agree: a result is stored by a request exactly if the same
  // request could have been served from the cache.
  lemma SameGate(disabled: bool, query: Query, db: string, params: seq<string>, data: string, at: int)
    requires |params| % 2 == 0
    ensures MayRead(disabled, query, params) <==> OpOf(disabled, Answered(query, db, params, data, at)).Put?
    ensures MayRead(disabled, query, params) <==> !disabled && params == [] && query.cachingTime != 0
  {
    GatesAgree(params);
  }

  // With a clock that does not go back, nothing that was stored with a caching time of zero
  // or less is ever served, although jobs do store it.
  lemma UncachedIsNeverServed(disabled: bool, es: seq<Event>, names: set<string>, query: Query, db: string,
                              params: seq<string>, now: int, i: int)
    requires forall e :: e in es ==> WellFormed(e)
    requires Unmixed(names) && NamedIn(es, names) && query.name in names
    requires IsLastStore(disabled, es, query.name, db, i) && es[i].at <= now && es[i].query.cachingTime <= 0
    ensures Served(disabled, es, query, db, params, now) == None
  {
    var found := Served(disabled, es, query, db, params, now);
    if found.Some? {
      ServedFromCache(disabled, es, names, query, db, params, now, found.value);
    }
  }

  // A query whose name continues another's with an at sign can be answered with the
  // other's result.
  lemma MixedNamesServeAnothersResult()
    ensures Served(false, [JobDone(Query("a@b", 60), "c", "x", 0)], Query("a", 60), "b@c", [], 1) == Some("x")
  {
    var es := [JobDone(Query("a@b", 60), "c", "x", 0)];
    assert Key("a@b", "c") == Key("a", "b@c");
    assert IsLastPut(Ops(false, es), Key("a", "b@c"), 0);
    LookupIsLastPut(Ops(false, es), Key("a", "b@c"), 1, "x");
  }

  // ---- the handler's methods ----

  class QueryHandler {
    const disableCache: bool
    const resultCache: Cache<string>

    constructor (disableCache: bool, resultCache: Cache<string>)
      ensures this.disableCache == disableCache && this.resultCache == resultCache
    {
      this.disableCache := disableCache;
      this.resultCache := resultCache;
    }

    method GetFromCache(query: Query, db: string, params: seq<string>, now: int) returns (res: Option<string>)
      requires resultCache.Valid()
      ensures forall es ::
                (forall e :: e in es ==> WellFormed(e)) && resultCache.cache == Replay(Ops(disableCache, es)) ==>
                  res == Served(disableCache, es, query, db, params, now)
      ensures disableCache || params != [] || query.cachingTime == 0 ==> res == None
      ensures !disableCache && params == [] && query.cachingTime != 0 ==>
                res == Lookup(resultCache.cache, Key(query.name, db), now)
    {
      if disableCache || |params| > 0 || query.cachingTime == 0 {
        return None;
      }
      res := resultCache.Get(query.name + "@" + db, now);
    }

    method PutIntoCache(query: Query, db: string, params: seq<string>, data: string, now: int)
      requires resultCache.Valid() && |params| % 2 == 0
      modifies resultCache
      ensures resultCache.Valid()
      ensures resultCache.cache ==
              After(old(resultCache.cache), OpOf(disableCache, Answered(query, db, params, data, now)))
    {
      var taskParams := WithParams(params);
      if disableCache || |taskParams| > 0 || query.cachingTime == 0 {
        return;
      }
      resultCache.Put(query.name + "@" + db, query.cachingTime, data, now);
    }

    method UpdateConf()
      requires resultCache.Valid()
      modifies resultCache
      ensures resultCache.Valid()
      ensures resultCache.cache == After(old(resultCache.cache), OpOf(disableCache, Reloaded))
    {
      resultCache.Clear();
    }
  }
}
