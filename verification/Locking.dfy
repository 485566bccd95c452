/**
 The lock that keeps one query string from being served twice at once
 (internal/server/query_handler.go). An entry older than MAX_LOCK_TIME is taken over, and
 unlocking removes the entry of a key whoever made it.
 */
module Locking {
  import opened Durations

  const MAX_LOCK_TIME: int := 20 * 60 * SECOND

  datatype LockInfo = LockInfo(key: string, ts: int)

  type Table = map<string, LockInfo>

  // tryLock succeeds unless a recent enough entry is there.
  predicate Refuses(m: Table, query: string, now: int) {
    query in m && now - m[query].ts < MAX_LOCK_TIME
  }

  // One call, made at one time by one request; a request unlocks only what it locked.
  datatype Call = Try(query: string, req: string, at: int) | Release(query: string, req: string, at: int)

  function TableAfter(m: Table, c: Call): Table {
    match c
    case Try(query, req, at) => if Refuses(m, query, at) then m else m[query := LockInfo(req, at)]
    case Release(query, _, _) => m - {query}
  }

  class Locker {
    var runningQuery: Table

    constructor ()
      ensures runningQuery == map[]
    {
      runningQuery := map[];
    }

    // `holder` is who refused the lock.
    method TryLock(query: string, reqId: string, now: int) returns (holder: string, ok: bool)
      modifies this
      ensures ok <==> !Refuses(old(runningQuery), query, now)
      ensures runningQuery == TableAfter(old(runningQuery), Try(query, reqId, now))
      ensures !ok ==> holder == old(runningQuery)[query].key
    {
      if query in runningQuery {
        var li := runningQuery[query];
        if now - li.ts < MAX_LOCK_TIME {
          return li.key, false;
        }
      }
      runningQuery := runningQuery[query := LockInfo(reqId, now)];
      return "", true;
    }

    method Unlock(query: string, ghost reqId: string, ghost now: int)
      modifies this
      ensures runningQuery == TableAfter(old(runningQuery), Release(query, reqId, now))
    {
      runningQuery := runningQuery - {query};
    }
  }

  // ---- runs ----

  // A request that got the lock at `since` and has not unlocked yet.
  datatype Hold = Hold(query: string, req: string, since: int)

  datatype State = State(table: Table, holds: set<Hold>)

  const EMPTY := State(map[], {})

  predicate Granted(s: State, c: Call) {
    c.Try? && !Refuses(s.table, c.query, c.at)
  }

  // Requests have unique ids, so a request holds a query string at most once.
  predicate Possible(s: State, c: Call) {
    match c
    case Try(_, req, _) => forall h :: h in s.holds ==> h.req != req
    case Release(query, req, _) => exists h :: h in s.holds && h.query == query && h.req == req
  }

  function After(s: State, c: Call): State {
    var table := TableAfter(s.table, c);
    match c
    case Try(query, req, at) =>
      State(table, if Refuses(s.table, query, at) then s.holds else s.holds + {Hold(query, req, at)})
    case Release(query, req, _) =>
      State(table, set h | h in s.holds && !(h.query == query && h.req == req))
  }

  // A run with a clock that does not go back.
  ghost predicate IsRun(ss: seq<State>, cs: seq<Call>) {
    && |ss| == |cs| + 1 && ss[0] == EMPTY
    && (forall i :: 0 <= i < |cs| ==> Possible(ss[i], cs[i]) && ss[i + 1] == After(ss[i], cs[i]))
    && (forall i, j :: 0 <= i < j < |cs| ==> cs[i].at <= cs[j].at)
  }

  // ---- spacing: no assumption on how long anybody holds the lock ----

  // From a grant of a key until the next unlock of it, the table has an entry for the key
  // that is no older than the grant.
  lemma {:induction false} EntryStays(ss: seq<State>, cs: seq<Call>, i: nat, j: nat)
    requires IsRun(ss, cs) && i < j < |ss| && Granted(ss[i], cs[i])
    requires forall k :: i < k < j ==> !(cs[k].Release? && cs[k].query == cs[i].query)
    ensures cs[i].query in ss[j].table && ss[j].table[cs[i].query].ts >= cs[i].at
  {
    if j > i + 1 {
      EntryStays(ss, cs, i, j - 1);
      assert ss[j] == After(ss[j - 1], cs[j - 1]);
    }
  }

  // Two grants of one key without an unlock of it in between are at least MAX_LOCK_TIME
  // apart.
  lemma GrantsAreSpaced(ss: seq<State>, cs: seq<Call>, i: nat, j: nat)
    requires IsRun(ss, cs) && i < j < |cs|
    requires Granted(ss[i], cs[i]) && Granted(ss[j], cs[j]) && cs[i].query == cs[j].query
    requires forall k :: i < k < j ==> !(cs[k].Release? && cs[k].query == cs[i].query)
    ensures cs[j].at - cs[i].at >= MAX_LOCK_TIME
  {
    EntryStays(ss, cs, i, j);
  }

  // ---- mutual exclusion ----

  // While the table names the holders, a request gets the lock exactly if nobody has it, or
  // has had it for MAX_LOCK_TIME or more.
  lemma GrantedExactly(s: State, c: Call)
    requires Exclusive(s) && Possible(s, c) && c.Try?
    ensures Granted(s, c) <==> forall h :: h in s.holds && h.query == c.query ==> c.at - h.since >= MAX_LOCK_TIME
    ensures Granted(s, c) ==> TableAfter(s.table, c) == s.table[c.query := LockInfo(c.req, c.at)]
    ensures !Granted(s, c) ==> TableAfter(s.table, c) == s.table
  {
    if c.query in s.table {
      var h := Hold(c.query, s.table[c.query].key, s.table[c.query].ts);
      assert h in s.holds;
    }
  }

  // MAX_LOCK_TIME is twenty minutes, in nanoseconds.
  lemma TwentyMinutes()
    ensures MAX_LOCK_TIME == 1_200_000_000_000
  {
  }

  // At most one request holds a key, and the key's entry is that request's.
  ghost predicate Exclusive(s: State) {
    && (forall g, h :: g in s.holds && h in s.holds && g.query == h.query ==> g == h)
    && (forall h :: h in s.holds ==> h.query in s.table && s.table[h.query] == LockInfo(h.req, h.since))
    && (forall q :: q in s.table ==> Hold(q, s.table[q].key, s.table[q].ts) in s.holds)
  }

  // Every holder is still within MAX_LOCK_TIME when the next call is made.
  ghost predicate Timely(s: State, c: Call) {
    forall h :: h in s.holds ==> c.at - h.since < MAX_LOCK_TIME
  }

  // From an exclusive state a call leads to an exclusive state, unless it is a tryLock of a
  // key whose holder has had it for MAX_LOCK_TIME or more.
  lemma ExclusionIsKept(s: State, c: Call)
    requires Exclusive(s) && Possible(s, c)
    ensures Exclusive(After(s, c)) <==>
            !(c.Try? && exists h :: h in s.holds && h.query == c.query && c.at - h.since >= MAX_LOCK_TIME)
  {
    var s' := After(s, c);
    match c
    case Try(query, req, at) =>
      if Refuses(s.table, query, at) {
      } else if query in s.table {
        var h := Hold(query, s.table[query].key, s.table[query].ts);
        assert h in s.holds && h in s'.holds && Hold(query, req, at) in s'.holds;
        assert h.req != req;
      } else {
        assert forall h :: h in s.holds ==> h.query != query;
      }
    case Release(query, req, _) =>
      assert forall h :: h in s'.holds ==> h in s.holds && h.query != query;
  }

  // In every run in which each holder unlocks within MAX_LOCK_TIME, a key has at most one
  // holder at any time and the table says who it is.
  lemma {:induction false} MutualExclusion(ss: seq<State>, cs: seq<Call>, i: nat)
    requires IsRun(ss, cs) && i < |ss|
    requires forall k :: 0 <= k < i ==> Timely(ss[k], cs[k])
    ensures Exclusive(ss[i])
  {
    if i > 0 {
      MutualExclusion(ss, cs, i - 1);
      assert Timely(ss[i - 1], cs[i - 1]);
      ExclusionIsKept(ss[i - 1], cs[i - 1]);
    }
  }

  // A holder that is late harms others: after a takeover its unlock removes the new
  // holder's entry, and a third request gets in although the second is still in time.
  lemma LateUnlockLetsAThirdIn()
    ensures var cs := [Try("q", "a", 0), Try("q", "b", MAX_LOCK_TIME), Release("q", "a", MAX_LOCK_TIME + 1),
                       Try("q", "c", MAX_LOCK_TIME + 1)];
      exists ss: seq<State> :: IsRun(ss, cs) && Granted(ss[3], cs[3])
        && Hold("q", "b", MAX_LOCK_TIME) in ss[4].holds && Hold("q", "c", MAX_LOCK_TIME + 1) in ss[4].holds
  {
    var cs := [Try("q", "a", 0), Try("q", "b", MAX_LOCK_TIME), Release("q", "a", MAX_LOCK_TIME + 1),
               Try("q", "c", MAX_LOCK_TIME + 1)];
    var a, b, c := Hold("q", "a", 0), Hold("q", "b", MAX_LOCK_TIME), Hold("q", "c", MAX_LOCK_TIME + 1);
    var s1 := State(map["q" := LockInfo("a", 0)], {a});
    var s2 := State(map["q" := LockInfo("b", MAX_LOCK_TIME)], {a, b});
    var s3 := State(map[], {b});
    var s4 := State(map["q" := LockInfo("c", MAX_LOCK_TIME + 1)], {b, c});
    assert "a" != "b" && "b" != "c" && "a" != "c";
    assert After(EMPTY, cs[0]) == s1;
    assert After(s1, cs[1]) == s2;
    assert After(s2, cs[2]) == s3;
    assert After(s3, cs[3]) == s4;
    assert a in s2.holds;
    assert IsRun([EMPTY, s1, s2, s3, s4], cs);
  }
}
