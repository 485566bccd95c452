/**
 From the URL of a request to the (database, query) pairs it asks for
 (internal/server/request.go). Maps are iterated in any order.
 */
module RequestParams {
  import opened Wrappers
  import Text
  import ResultCache
  import Conf = Configuration

  // The decoded query string: every key with its values.
  type Url = map<string, seq<string>>

  function Values(url: Url, key: string): seq<string> {
    if key in url then url[key] else []
  }

  datatype ParamError =
    | MissingDatabase | UnknownGroup(name: string) | MissingQuery | UnknownQuery(name: string) | NoValidQuery

  // A query stands for its name, which is its key in the configuration.
  datatype Params = Params(dbNames: seq<string>, queryNames: seq<string>, extra: seq<string>, queries: seq<string>)

  predicate NoRepeats<T(==)>(s: seq<T>) {
    forall i, j :: 0 <= i < j < |s| ==> s[i] != s[j]
  }

  function Elements(s: seq<string>): set<string> {
    set x | x in s
  }

  // The distinct trimmed values that are not empty.
  function Kept(inp: seq<string>): set<string> {
    set s | s in inp && Text.Trim(s) != "" :: Text.Trim(s)
  }

  lemma KeptPrefix(inp: seq<string>, i: nat)
    requires i < |inp|
    ensures Kept(inp[..i + 1]) == Kept(inp[..i]) + (if Text.Trim(inp[i]) == "" then {} else {Text.Trim(inp[i])})
  {
  }

  method Collect(s: set<string>) returns (res: seq<string>)
    ensures NoRepeats(res) && Elements(res) == s
  {
    res := [];
    var todo := s;
    while todo != {}
      invariant todo <= s
      invariant NoRepeats(res) && Elements(res) == s - todo
      decreases todo
    {
      var x :| x in todo;
      ghost var before := res;
      res := res + [x];
      assert x !in Elements(before);
      assert Elements(res) == Elements(before) + {x};
      todo := todo - {x};
    }
  }

  method DeduplicateStringList(inp: seq<string>) returns (res: seq<string>)
    ensures NoRepeats(res) && Elements(res) == Kept(inp)
  {
    if |inp| == 0 {
      return [];
    }
    if |inp| == 1 {
      var s := Text.Trim(inp[0]);
      return if s != "" then [s] else [];
    }
    var tmpMap: set<string> := {};
    for i := 0 to |inp|
      invariant tmpMap == Kept(inp[..i])
    {
      KeptPrefix(inp, i);
      var s := Text.Trim(inp[i]);
      if s != "" {
        tmpMap := tmpMap + {s};
      }
    }
    assert inp[..|inp|] == inp;
    res := Collect(tmpMap);
  }

  const STANDARD := {"query", "group", "database"}

  // Every other parameter with its first value.
  function Extra(url: Url): map<string, string> {
    map k | k in url && k !in STANDARD && url[k] != [] :: url[k][0]
  }

  // The extra parameters are those that are not "query", "group" or "database" and have a
  // value; each with its first.
  lemma ExtraExactly(url: Url, k: string)
    ensures k in Extra(url) <==> k in url && k != "query" && k != "group" && k != "database" && url[k] != []
    ensures k in Extra(url) ==> Extra(url)[k] == url[k][0]
  {
  }

  // The part of the query string that has been visited.
  function Visited(url: Url, todo: set<string>): Url {
    map k | k in url && k !in todo :: url[k]
  }

  lemma OneMoreKey(url: Url, todo: set<string>, k: string)
    requires k in todo && k in url
    ensures Extra(Visited(url, todo - {k})) ==
            if k !in STANDARD && url[k] != [] then Extra(Visited(url, todo))[k := url[k][0]]
            else Extra(Visited(url, todo))
  {
  }

  method ParamsFromQuery(url: Url) returns (params: seq<string>)
    ensures |params| % 2 == 0 && ResultCache.ParamsOf(params) == Extra(url)
  {
    params := [];
    var todo := url.Keys;
    while todo != {}
      invariant todo <= url.Keys && |params| % 2 == 0
      invariant ResultCache.ParamsOf(params) == Extra(Visited(url, todo))
      decreases todo
    {
      var k :| k in todo;
      OneMoreKey(url, todo, k);
      if k != "query" && k != "group" && k != "database" && |url[k]| > 0 {
        var longer := params + [k, url[k][0]];
        assert longer[..|longer| - 2] == params;
        params := longer;
      }
      todo := todo - {k};
    }
    assert Visited(url, todo) == url;
  }

  // ---- which requests are accepted ----

  predicate Known(groups: map<string, seq<string>>, g: string) {
    g in groups && groups[g] != []
  }

  function Members(groups: map<string, seq<string>>, gs: seq<string>): seq<string> {
    if gs == [] then []
    else Members(groups, gs[..|gs| - 1]) + (if Known(groups, gs[|gs| - 1]) then groups[gs[|gs| - 1]] else [])
  }

  // The queries asked for, directly or through a group.
  function Asked(url: Url, groups: map<string, seq<string>>): set<string> {
    Kept(Values(url, "query") + Members(groups, Values(url, "group")))
  }

  predicate Acceptable(url: Url, queries: set<string>, groups: map<string, seq<string>>) {
    && Kept(Values(url, "database")) != {}
    && (forall g :: g in Values(url, "group") ==> Known(groups, g))
    && Asked(url, groups) != {}
    && Asked(url, groups) <= queries
  }

  lemma {:induction false} MembersOfGroups(groups: map<string, seq<string>>, gs: seq<string>, x: string)
    ensures x in Members(groups, gs) <==> exists g :: g in gs && Conf.Lists(groups, g, x)
  {
    if gs != [] {
      var front, last := gs[..|gs| - 1], gs[|gs| - 1];
      MembersOfGroups(groups, front, x);
      assert gs == front + [last];
      if Conf.Lists(groups, last, x) {
        assert last in gs;
      }
    }
  }

  // The URL names the query, or a group that the query lists.
  ghost predicate Mentioned(url: Url, listed: map<string, seq<string>>, y: string) {
    y in Values(url, "query") || exists g :: g in Values(url, "group") && Conf.Names(listed, y, g)
  }

  lemma KnownExactly(groups: map<string, seq<string>>, g: string)
    ensures Known(groups, g) <==> exists q :: Conf.Lists(groups, g, q)
  {
    if Known(groups, g) {
      assert Conf.Lists(groups, g, groups[g][0]);
    }
  }

  // What is kept of a list: the trimmed values that are not empty.
  lemma KeptExactly(inp: seq<string>, x: string)
    ensures x in Kept(inp) <==> x != "" && exists y :: y in inp && Text.Trim(y) == x
  {
  }

  // With the index of a loaded configuration, the queries asked for are those named in the
  // URL and those that list a group named in the URL, trimmed.
  lemma AskedThroughGroups(url: Url, listed: map<string, seq<string>>, groups: map<string, seq<string>>, x: string)
    requires forall g, q :: Conf.Lists(groups, g, q) <==> Conf.Names(listed, q, g)
    ensures x in Asked(url, groups) <==> x != "" && exists y :: Text.Trim(y) == x && Mentioned(url, listed, y)
  {
    var direct, through := Values(url, "query"), Members(groups, Values(url, "group"));
    forall y ensures y in direct + through <==> Mentioned(url, listed, y) {
      MembersOfGroups(groups, Values(url, "group"), y);
      if g :| g in Values(url, "group") && Conf.Names(listed, y, g) {
        assert Conf.Lists(groups, g, y);
      }
      if y in through {
        var g :| g in Values(url, "group") && Conf.Lists(groups, g, y);
        assert Conf.Names(listed, y, g);
      }
    }
  }

  lemma NoElements(s: seq<string>)
    ensures Elements(s) == {} <==> s == []
  {
    if s != [] {
      assert s[0] in Elements(s);
    }
  }

  // The names from the `query` and `group` parameters, not yet trimmed.
  method CollectNames(url: Url, groups: map<string, seq<string>>) returns (names: seq<string>, errs: seq<ParamError>)
    ensures names == Values(url, "query") + Members(groups, Values(url, "group"))
    ensures errs == [] <==> forall g :: g in Values(url, "group") ==> Known(groups, g)
    ensures forall e :: e in errs <==> e.UnknownGroup? && e.name in Values(url, "group") && !Known(groups, e.name)
  {
    errs := [];
    names := Values(url, "query");
    var gs := Values(url, "group");
    for i := 0 to |gs|
      invariant names == Values(url, "query") + Members(groups, gs[..i])
      invariant forall e :: e in errs <==> e.UnknownGroup? && e.name in gs[..i] && !Known(groups, e.name)
      invariant errs == [] <==> forall g :: g in gs[..i] ==> Known(groups, g)
    {
      var g := gs[i];
      assert gs[..i + 1][..i] == gs[..i] && gs[..i + 1] == gs[..i] + [g];
      if g in groups && |groups[g]| > 0 {
        names := names + groups[g];
      } else {
        errs := errs + [UnknownGroup(g)];
      }
    }
    assert gs[..|gs|] == gs;
  }

  method FindQueries(names: seq<string>, queries: set<string>) returns (found: seq<string>, errs: seq<ParamError>)
    ensures errs == [] <==> Elements(names) <= queries
    ensures errs == [] ==> found == names
    ensures names == [] ==> found == []
    ensures forall e :: e in errs <==> e.UnknownQuery? && e.name in names && e.name !in queries
  {
    found, errs := [], [];
    for i := 0 to |names|
      invariant forall e :: e in errs <==> e.UnknownQuery? && e.name in names[..i] && e.name !in queries
      invariant errs == [] <==> forall q :: q in names[..i] ==> q in queries
      invariant errs == [] ==> found == names[..i]
      invariant |found| <= i
    {
      var name := names[i];
      assert names[..i + 1] == names[..i] + [name];
      if name in queries {
        found := found + [name];
      } else {
        errs := errs + [UnknownQuery(name)];
      }
    }
    assert names[..|names|] == names;
  }

  // The databases and queries asked for, with every reason to refuse them.
  method CheckedNames(url: Url, queries: set<string>, groups: map<string, seq<string>>)
    returns (dbNames: seq<string>, queryNames: seq<string>, found: seq<string>, errs: seq<ParamError>)
    ensures NoRepeats(dbNames) && Elements(dbNames) == Kept(Values(url, "database"))
    ensures NoRepeats(queryNames) && Elements(queryNames) == Asked(url, groups)
    ensures MissingDatabase in errs <==> dbNames == []
    ensures MissingQuery in errs <==> queryNames == []
    ensures forall g :: UnknownGroup(g) in errs <==> g in Values(url, "group") && !Known(groups, g)
    ensures forall q :: UnknownQuery(q) in errs <==> q in queryNames && q !in queries
    ensures errs == [] ==> found == queryNames
    ensures errs == [] <==>
            && dbNames != [] && queryNames != [] && Elements(queryNames) <= queries
            && forall g :: g in Values(url, "group") ==> Known(groups, g)
  {
    dbNames := DeduplicateStringList(Values(url, "database"));
    var noDatabase := if |dbNames| == 0 then [MissingDatabase] else [];
    var names, groupErrs := CollectNames(url, groups);
    queryNames := DeduplicateStringList(names);
    var noQuery := if |queryNames| == 0 then [MissingQuery] else [];
    var queryErrs;
    found, queryErrs := FindQueries(queryNames, queries);
    var noValid := if |found| == 0 then [NoValidQuery] else [];
    errs := Together(noDatabase, groupErrs, noQuery, queryErrs, noValid);
  }

  // All the errors, one kind after the other.
  function Together(a: seq<ParamError>, b: seq<ParamError>, c: seq<ParamError>, d: seq<ParamError>, e: seq<ParamError>)
    : (r: seq<ParamError>)
    ensures forall x :: x in r <==> x in a || x in b || x in c || x in d || x in e
    ensures r == [] <==> a == [] && b == [] && c == [] && d == [] && e == []
  {
    a + b + c + d + e
  }

  // Succeeds exactly for acceptable requests; one unknown group or query makes it fail, and
  // each of them is reported.
  method NewRequestParams(url: Url, queries: set<string>, groups: map<string, seq<string>>)
    returns (res: Option<Params>, errs: seq<ParamError>)
    ensures res.Some? <==> Acceptable(url, queries, groups)
    ensures res.Some? <==> errs == []
    ensures res.Some? ==>
              var p := res.value;
              && NoRepeats(p.dbNames) && Elements(p.dbNames) == Kept(Values(url, "database")) && p.dbNames != []
              && NoRepeats(p.queries) && Elements(p.queries) == Asked(url, groups) && p.queries != []
              && p.queryNames == p.queries
              && |p.extra| % 2 == 0 && ResultCache.ParamsOf(p.extra) == Extra(url)
    ensures MissingDatabase in errs <==> Kept(Values(url, "database")) == {}
    ensures MissingQuery in errs <==> Asked(url, groups) == {}
    ensures forall g :: UnknownGroup(g) in errs <==> g in Values(url, "group") && !Known(groups, g)
    ensures forall q :: UnknownQuery(q) in errs <==> q in Asked(url, groups) && q !in queries
  {
    var dbNames, queryNames, found;
    dbNames, queryNames, found, errs := CheckedNames(url, queries, groups);
    NoElements(dbNames);
    NoElements(queryNames);
    assert forall q :: q in queryNames <==> q in Elements(queryNames);
    if errs != [] {
      return None, errs;
    }
    var extra := ParamsFromQuery(url);
    res := Some(Params(dbNames, queryNames, extra, found));
  }

  // ---- the pairs ----

  function Row(d: string, queries: seq<string>): seq<(string, string)> {
    seq(|queries|, i requires 0 <= i < |queries| => (d, queries[i]))
  }

  function Pairs(dbs: seq<string>, queries: seq<string>): seq<(string, string)> {
    if dbs == [] then [] else Pairs(dbs[..|dbs| - 1], queries) + Row(dbs[|dbs| - 1], queries)
  }

  // iter, with a yield that always asks for more.
  method Iter(p: Params) returns (pairs: seq<(string, string)>)
    ensures pairs == Pairs(p.dbNames, p.queries)
  {
    pairs := [];
    for i := 0 to |p.dbNames|
      invariant pairs == Pairs(p.dbNames[..i], p.queries)
    {
      ghost var before := pairs;
      for j := 0 to |p.queries|
        invariant pairs == before + Row(p.dbNames[i], p.queries)[..j]
      {
        pairs := pairs + [(p.dbNames[i], p.queries[j])];
      }
      assert p.dbNames[..i + 1][..i] == p.dbNames[..i];
      assert Row(p.dbNames[i], p.queries)[..|p.queries|] == Row(p.dbNames[i], p.queries);
    }
    assert p.dbNames[..|p.dbNames|] == p.dbNames;
  }

  lemma RowHas(d: string, queries: seq<string>, e: string, q: string)
    ensures (e, q) in Row(d, queries) <==> e == d && q in queries
  {
    if q in queries {
      var i :| 0 <= i < |queries| && queries[i] == q;
      assert Row(d, queries)[i] == (d, q);
    }
  }

  lemma {:induction false} PairsHave(dbs: seq<string>, queries: seq<string>, d: string, q: string)
    ensures (d, q) in Pairs(dbs, queries) <==> d in dbs && q in queries
  {
    if dbs != [] {
      var front, last := dbs[..|dbs| - 1], dbs[|dbs| - 1];
      PairsHave(front, queries, d, q);
      RowHas(last, queries, d, q);
      assert dbs == front + [last];
    }
  }

  lemma NoRepeatsJoined<T>(a: seq<T>, b: seq<T>)
    requires NoRepeats(a) && NoRepeats(b) && forall x :: x in a ==> x !in b
    ensures NoRepeats(a + b)
  {
    forall i, j | 0 <= i < j < |a + b| ensures (a + b)[i] != (a + b)[j] {
      if i < |a| <= j {
        assert a[i] in a && b[j - |a|] in b;
      }
    }
  }

  lemma {:induction false} HowManyPairs(dbs: seq<string>, queries: seq<string>)
    ensures |Pairs(dbs, queries)| == |dbs| * |queries|
  {
    if dbs != [] {
      HowManyPairs(dbs[..|dbs| - 1], queries);
      assert (|dbs| - 1) * |queries| + |queries| == |dbs| * |queries|;
    }
  }

  lemma RowIsElsewhere(front: seq<string>, last: string, queries: seq<string>, x: (string, string))
    requires last !in front && x in Pairs(front, queries)
    ensures x !in Row(last, queries)
  {
  }

  lemma {:induction false} PairsDiffer(dbs: seq<string>, queries: seq<string>)
    requires NoRepeats(dbs) && NoRepeats(queries)
    ensures NoRepeats(Pairs(dbs, queries))
  {
    if dbs != [] {
      var front, last := dbs[..|dbs| - 1], dbs[|dbs| - 1];
      PairsDiffer(front, queries);
      forall x | x in Pairs(front, queries) ensures x !in Row(last, queries) {
        RowIsElsewhere(front, last, queries, x);
      }
      NoRepeatsJoined(Pairs(front, queries), Row(last, queries));
    }
  }

  // From distinct databases and distinct queries come all pairs, each once, and as many as
  // the result channel has room for.
  lemma PairsAreTheProduct(dbs: seq<string>, queries: seq<string>)
    requires NoRepeats(dbs) && NoRepeats(queries)
    ensures NoRepeats(Pairs(dbs, queries))
    ensures forall d, q :: (d, q) in Pairs(dbs, queries) <==> d in dbs && q in queries
    ensures |Pairs(dbs, queries)| == |dbs| * |queries|
  {
    PairsDiffer(dbs, queries);
    HowManyPairs(dbs, queries);
    forall d, q ensures (d, q) in Pairs(dbs, queries) <==> d in dbs && q in queries {
      PairsHave(dbs, queries, d, q);
    }
  }

  lemma {:induction false} PairPosition(dbs: seq<string>, queries: seq<string>, i: nat, j: nat)
    requires i < |dbs| && j < |queries|
    ensures 0 <= i * |queries| + j < |Pairs(dbs, queries)|
    ensures Pairs(dbs, queries)[i * |queries| + j] == (dbs[i], queries[j])
  {
    var n := |dbs| - 1;
    HowManyPairs(dbs[..n], queries);
    HowManyPairs(dbs, queries);
    if i < n {
      PairPosition(dbs[..n], queries, i, j);
    }
  }
}
