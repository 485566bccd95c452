/**
 The request's side as the loops they are in the source (internal/server/query_handler.go):
 queryDatabases answers pairs from the cache and submits tasks for the others; gatherResults
 takes the results that have arrived, writes and stores what is to be written and stored, and
 stops when nothing is outstanding, the context has expired or nothing more has arrived.
 Both are shown to be repetitions of the atomic steps of the transition system; entering
 addTask, which changes nothing else, is left out of them.
 */
module ResponseObject {
  import opened Tasks
  import opened Wrappers
  import R = Requests

  function ChunkOf(res: Result, valid: string -> bool): R.Chunk {
    R.Chunk(res.task, R.KindOf(res.answer, res.answer.Success? && valid(res.answer.data)))
  }

  function ChunksOf(rs: seq<Result>, valid: string -> bool): seq<R.Chunk> {
    seq(|rs|, i requires 0 <= i < |rs| => ChunkOf(rs[i], valid))
  }

  // The request after it has taken up to n results, one atomic step each.
  function Gathered(r: R.Request, n: nat, valid: string -> bool): R.Request
    requires r.phase.Gathering?
    decreases n
  {
    if n == 0 || r.buffer == [] || r.scheduled == 0 then r
    else Gathered(R.Do(r, R.Gather(ChunkOf(r.buffer[0], valid).kind != R.Skipped)), n - 1, valid)
  }

  // The pairs that the cache answers, and the tasks made for the others.
  function Hits(pairs: seq<Task>, cached: Task -> Option<string>): seq<R.Chunk> {
    if pairs == [] then [] else Hit(pairs[0], cached) + Hits(pairs[1..], cached)
  }

  function Hit(t: Task, cached: Task -> Option<string>): seq<R.Chunk> {
    match cached(t) case Some(data) => [R.Chunk(t, R.FromCache(data))] case None => []
  }

  function Misses(pairs: seq<Task>, cached: Task -> Option<string>): seq<Task> {
    if pairs == [] then [] else Miss(pairs[0], cached) + Misses(pairs[1..], cached)
  }

  function Miss(t: Task, cached: Task -> Option<string>): seq<Task> {
    if cached(t).Some? then [] else [t]
  }

  lemma NextPair(pairs: seq<Task>, i: nat, cached: Task -> Option<string>)
    requires i < |pairs|
    ensures match cached(pairs[i])
      case Some(data) =>
        && Hits(pairs[i..], cached) == [R.Chunk(pairs[i], R.FromCache(data))] + Hits(pairs[i + 1..], cached)
        && Misses(pairs[i..], cached) == Misses(pairs[i + 1..], cached)
      case None =>
        && Hits(pairs[i..], cached) == Hits(pairs[i + 1..], cached)
        && Misses(pairs[i..], cached) == [pairs[i]] + Misses(pairs[i + 1..], cached)
  {
  }

  lemma Regroup<T>(a: seq<T>, b: seq<T>, c: seq<T>)
    ensures a + b + c == a + (b + c)
  {
  }

  function Min(a: nat, b: nat): nat {
    if a < b then a else b
  }

  // The results that putIntoCache is given: error-free and valid ones.
  predicate IsValid(res: Result, valid: string -> bool) {
    res.answer.Success? && valid(res.answer.data)
  }

  function Valid(rs: seq<Result>, valid: string -> bool): seq<Result> {
    if rs == [] then []
    else Valid(rs[..|rs| - 1], valid) + (if IsValid(rs[|rs| - 1], valid) then [rs[|rs| - 1]] else [])
  }

  // How gathering ends, or that it waits.
  datatype End = Complete | Expired | Waits

  // How many results are gathered before that.
  function Gatherable(scheduled: nat, inbox: seq<Result>, patience: Option<nat>): nat {
    var n := Min(scheduled, |inbox|);
    if patience.Some? then Min(n, patience.value) else n
  }

  class Response {
    var scheduled: nat
    var written: nat
    var inbox: seq<Result>
    var chunks: seq<R.Chunk>  // the body of the response, and what was left out of it

    constructor (scheduled: nat, inbox: seq<Result>)
      ensures this.scheduled == scheduled && this.inbox == inbox && written == 0 && chunks == []
    {
      this.scheduled := scheduled;
      this.inbox := inbox;
      written := 0;
      chunks := [];
    }

    // `fails`: the client cannot be written to, and the chunk is not counted.
    method Write(c: R.Chunk, fails: bool)
      modifies this`written, this`chunks
      ensures chunks == old(chunks) + [c]
      ensures written == if fails then old(written) else old(written) + 1
    {
      chunks := chunks + [c];
      if !fails {
        written := written + 1;
      }
    }

    // `cached` is getFromCache; the tasks are submitted in this order.
    method QueryDatabases(pairs: seq<Task>, cached: Task -> Option<string>) returns (tasks: seq<Task>)
      modifies this`scheduled, this`written, this`chunks
      ensures tasks == Misses(pairs, cached)
      ensures chunks == old(chunks) + Hits(pairs, cached)
      ensures scheduled == old(scheduled) + |tasks|
      ensures written == old(written) + (|pairs| - |tasks|)
    {
      tasks := [];
      for i := 0 to |pairs|
        invariant tasks + Misses(pairs[i..], cached) == Misses(pairs, cached)
        invariant chunks + Hits(pairs[i..], cached) == old(chunks) + Hits(pairs, cached)
        invariant scheduled == old(scheduled) + |tasks|
        invariant |tasks| <= i && written == old(written) + (i - |tasks|)
      {
        NextPair(pairs, i, cached);
        match cached(pairs[i])
        case Some(data) =>
          Regroup(chunks, [R.Chunk(pairs[i], R.FromCache(data))], Hits(pairs[i + 1..], cached));
          Write(R.Chunk(pairs[i], R.FromCache(data)), false);
        case None =>
          Regroup(tasks, [pairs[i]], Misses(pairs[i + 1..], cached));
          tasks := tasks + [pairs[i]];
          scheduled := scheduled + 1;
      }
    }

    // What gatherResults does with the next result, which it returns if it is to be stored.
    method TakeResult(valid: string -> bool) returns (stored: seq<Result>)
      requires scheduled > 0 && inbox != []
      modifies this
      ensures inbox == old(inbox)[1..] && scheduled == old(scheduled) - 1
      ensures chunks == old(chunks) + [ChunkOf(old(inbox)[0], valid)]
      ensures written == old(written) + (if ChunkOf(old(inbox)[0], valid).kind.Skipped? then 0 else 1)
      ensures stored == if IsValid(old(inbox)[0], valid) then [old(inbox)[0]] else []
    {
      var res := inbox[0];
      inbox := inbox[1..];
      scheduled := scheduled - 1;
      stored := [];
      match res.answer
      case Failure => Write(R.Chunk(res.task, R.Comment), false);
      case Success(data) =>
        if valid(data) {
          Write(R.Chunk(res.task, R.Body(data)), false);
          stored := [res];
        } else {
          chunks := chunks + [R.Chunk(res.task, R.Skipped)];
        }
    }

    // `valid` is the output validation; `patience`, if any, is the number of results after
    // which the select takes the expired context. `stored` goes to putIntoCache.
    method GatherResults(valid: string -> bool, patience: Option<nat>) returns (end: End, stored: seq<Result>)
      modifies this
      ensures var n := Gatherable(old(scheduled), old(inbox), patience);
        && scheduled == old(scheduled) - n
        && inbox == old(inbox)[n..]
        && chunks == old(chunks) + ChunksOf(old(inbox)[..n], valid)
        && written == old(written) + R.Writes(ChunksOf(old(inbox)[..n], valid))
        && stored == Valid(old(inbox)[..n], valid)
        && end == if scheduled == 0 then Complete else if patience == Some(n) then Expired else Waits
      ensures var n := old(scheduled) - scheduled;
        && (end.Complete? <==> scheduled == 0)
        && (end.Expired? ==> patience == Some(n))
        && (end.Waits? ==> inbox == [])
        && (patience.Some? ==> n <= patience.value)
    {
      ghost var n, rs, before := 0, inbox, chunks;
      var left := patience;
      stored := [];
      while scheduled > 0
        invariant n <= |rs| && n + scheduled == old(scheduled)
        invariant left == if patience.Some? then Some(patience.value - n) else None
        invariant patience.Some? ==> n <= patience.value
        invariant inbox == rs[n..]
        invariant chunks == before + ChunksOf(rs[..n], valid)
        invariant written == old(written) + R.Writes(ChunksOf(rs[..n], valid))
        invariant stored == Valid(rs[..n], valid)
        decreases scheduled
      {
        if left == Some(0) {
          return Expired, stored;
        }
        if inbox == [] {
          return Waits, stored;
        }
        left := if left.Some? then Some(left.value - 1) else None;
        OneMoreResult(rs, n, valid);
        Regroup(before, ChunksOf(rs[..n], valid), [ChunkOf(rs[n], valid)]);
        var more := TakeResult(valid);
        stored := stored + more;
        n := n + 1;
      }
      end := Complete;
    }
  }

  lemma OneMoreResult(rs: seq<Result>, n: nat, valid: string -> bool)
    requires n < |rs|
    ensures ChunksOf(rs[..n + 1], valid) == ChunksOf(rs[..n], valid) + [ChunkOf(rs[n], valid)]
    ensures R.Writes(ChunksOf(rs[..n + 1], valid)) ==
            R.Writes(ChunksOf(rs[..n], valid)) + (if ChunkOf(rs[n], valid).kind.Skipped? then 0 else 1)
    ensures Valid(rs[..n + 1], valid) == Valid(rs[..n], valid) + (if IsValid(rs[n], valid) then [rs[n]] else [])
  {
    assert ChunksOf(rs[..n + 1], valid) == ChunksOf(rs[..n], valid) + [ChunkOf(rs[n], valid)];
    R.PushChunk(ChunksOf(rs[..n], valid), ChunkOf(rs[n], valid));
    assert rs[..n + 1][..n] == rs[..n];
  }

  // What becomes of each result, in order: an error gives a comment, a result that fails
  // validation is skipped, any other is the body itself.
  lemma ChunksExactly(rs: seq<Result>, valid: string -> bool, i: nat)
    requires i < |rs|
    ensures |ChunksOf(rs, valid)| == |rs|
    ensures var c, res := ChunksOf(rs, valid)[i], rs[i];
      && c.task == res.task
      && (res.answer.Failure? ==> c.kind == R.Comment)
      && (res.answer.Success? && !valid(res.answer.data) ==> c.kind == R.Skipped)
      && (res.answer.Success? && valid(res.answer.data) ==> c.kind == R.Body(res.answer.data))
  {
  }

  predicate FailsValidation(res: Result, valid: string -> bool) {
    res.answer.Success? && !valid(res.answer.data)
  }

  // So a task has a comment exactly if it has an error result, and is skipped exactly if it
  // has a result that fails validation.
  lemma CommentsAndSkips(rs: seq<Result>, valid: string -> bool, t: Task)
    ensures R.Chunk(t, R.Comment) in ChunksOf(rs, valid) <==> Result(t, Failure) in rs
    ensures R.Chunk(t, R.Skipped) in ChunksOf(rs, valid) <==>
            exists res :: res in rs && res.task == t && FailsValidation(res, valid)
  {
    var cs := ChunksOf(rs, valid);
    forall i | 0 <= i < |rs| ensures cs[i] in cs && rs[i] in rs {
    }
    forall i | 0 <= i < |rs|
      ensures cs[i] == R.Chunk(t, R.Comment) <==> rs[i] == Result(t, Failure)
      ensures cs[i] == R.Chunk(t, R.Skipped) <==> rs[i].task == t && FailsValidation(rs[i], valid)
    {
      ChunksExactly(rs, valid, i);
    }
  }

  lemma OneMoreSkip(cs: seq<R.Chunk>, c: R.Chunk)
    ensures R.Skips(cs + [c]) == R.Skips(cs) + (if c.kind.Skipped? then 1 else 0)
  {
    assert (cs + [c])[..|cs|] == cs;
  }

  lemma {:induction false} SkipsExactly(rs: seq<Result>, valid: string -> bool)
    ensures R.Skips(ChunksOf(rs, valid)) == |set i | 0 <= i < |rs| && FailsValidation(rs[i], valid)|
  {
    if rs != [] {
      var n := |rs| - 1;
      var front := rs[..n];
      SkipsExactly(front, valid);
      assert ChunksOf(rs, valid) == ChunksOf(front, valid) + [ChunkOf(rs[n], valid)];
      OneMoreSkip(ChunksOf(front, valid), ChunkOf(rs[n], valid));
      var before := set i | 0 <= i < n && FailsValidation(front[i], valid);
      var all := set i | 0 <= i < |rs| && FailsValidation(rs[i], valid);
      assert all == before + (if FailsValidation(rs[n], valid) then {n} else {});
    }
  }

  // `written` grows by one for each result but those that fail validation.
  lemma WrittenExactly(rs: seq<Result>, valid: string -> bool)
    ensures R.Writes(ChunksOf(rs, valid)) == |rs| - |set i | 0 <= i < |rs| && FailsValidation(rs[i], valid)|
  {
    R.WritesAndSkips(ChunksOf(rs, valid));
    SkipsExactly(rs, valid);
  }

  // Exactly the error-free, valid results are stored, which are the bodies of the response.
  lemma {:induction false} StoredAreTheBodies(rs: seq<Result>, valid: string -> bool, data: string, t: Task)
    ensures Result(t, Success(data)) in Valid(rs, valid) <==> R.Chunk(t, R.Body(data)) in ChunksOf(rs, valid)
    ensures Result(t, Success(data)) in Valid(rs, valid) <==> Result(t, Success(data)) in rs && valid(data)
    ensures Result(t, Failure) !in Valid(rs, valid)
  {
    if rs != [] {
      var n := |rs| - 1;
      StoredAreTheBodies(rs[..n], valid, data, t);
      assert rs[..n + 1] == rs && rs == rs[..n] + [rs[n]];
      OneMoreResult(rs, n, valid);
    }
  }

  // In the order of the results.
  lemma {:induction false} StoredInOrder(a: seq<Result>, b: seq<Result>, valid: string -> bool)
    ensures Valid(a + b, valid) == Valid(a, valid) + Valid(b, valid)
  {
    if b == [] {
      assert a + b == a;
    } else {
      assert (a + b)[..|a + b| - 1] == a + b[..|b| - 1];
      StoredInOrder(a, b[..|b| - 1], valid);
    }
  }

  // The cache answers exactly the pairs it has data for, with that data, and tasks are made
  // of exactly the others, both in order.
  lemma {:induction false} HitsExactly(pairs: seq<Task>, cached: Task -> Option<string>, c: R.Chunk, t: Task)
    ensures c in Hits(pairs, cached) <==> c.kind.FromCache? && c.task in pairs && cached(c.task) == Some(c.kind.cached)
    ensures t in Misses(pairs, cached) <==> t in pairs && cached(t) == None
  {
    if pairs != [] {
      HitsExactly(pairs[1..], cached, c, t);
      assert pairs == [pairs[0]] + pairs[1..];
    }
  }

  lemma {:induction false} HitsInOrder(a: seq<Task>, b: seq<Task>, cached: Task -> Option<string>)
    ensures Hits(a + b, cached) == Hits(a, cached) + Hits(b, cached)
    ensures Misses(a + b, cached) == Misses(a, cached) + Misses(b, cached)
  {
    if a == [] {
      assert a + b == b;
    } else {
      assert (a + b)[1..] == a[1..] + b;
      HitsInOrder(a[1..], b, cached);
      Regroup(Hit(a[0], cached), Hits(a[1..], cached), Hits(b, cached));
      Regroup(Miss(a[0], cached), Misses(a[1..], cached), Misses(b, cached));
    }
  }

  lemma ChunksFromFront(rs: seq<Result>, valid: string -> bool)
    requires rs != []
    ensures ChunksOf(rs, valid) == [ChunkOf(rs[0], valid)] + ChunksOf(rs[1..], valid)
  {
  }

  lemma OneStep(r: R.Request, valid: string -> bool)
    requires r.phase.Gathering? && !r.job && r.buffer != [] && r.scheduled > 0
    ensures var c := ChunkOf(r.buffer[0], valid);
      R.Do(r, R.Gather(c.kind != R.Skipped)) ==
      r.(buffer := r.buffer[1..], scheduled := r.scheduled - 1, chunks := r.chunks + [c],
         written := r.written + (if c.kind.Skipped? then 0 else 1))
  {
  }

  // The request after n results have been taken at one go.
  function Jumped(r: R.Request, n: nat, valid: string -> bool): R.Request
    requires n <= |r.buffer| && n <= r.scheduled
  {
    r.(buffer := r.buffer[n..], scheduled := r.scheduled - n,
       chunks := r.chunks + ChunksOf(r.buffer[..n], valid),
       written := r.written + R.Writes(ChunksOf(r.buffer[..n], valid)))
  }

  // Taking n results is taking the first and then n - 1.
  lemma FirstAndRest(rs: seq<Result>, n: nat, valid: string -> bool)
    requires 0 < n <= |rs|
    ensures var c, cs := ChunkOf(rs[0], valid), ChunksOf(rs[1..][..n - 1], valid);
      && ChunksOf(rs[..n], valid) == [c] + cs
      && R.Writes(ChunksOf(rs[..n], valid)) == (if c.kind.Skipped? then 0 else 1) + R.Writes(cs)
    ensures rs[1..][n - 1..] == rs[n..]
  {
    assert rs[..n][1..] == rs[1..][..n - 1];
    ChunksFromFront(rs[..n], valid);
    WritesOfFront(ChunksOf(rs[..n], valid));
    assert ChunksOf(rs[..n], valid)[1..] == ChunksOf(rs[1..][..n - 1], valid);
  }

  lemma JumpAfterStep(r: R.Request, n: nat, valid: string -> bool)
    requires r.phase.Gathering? && !r.job && 0 < n <= |r.buffer| && n <= r.scheduled
    ensures var r' := R.Do(r, R.Gather(ChunkOf(r.buffer[0], valid).kind != R.Skipped));
      n - 1 <= |r'.buffer| && n - 1 <= r'.scheduled && Jumped(r', n - 1, valid) == Jumped(r, n, valid)
  {
    OneStep(r, valid);
    FirstAndRest(r.buffer, n, valid);
    Regroup(r.chunks, [ChunkOf(r.buffer[0], valid)], ChunksOf(r.buffer[1..][..n - 1], valid));
  }

  // The loop is the repetition of the atomic step of the transition system.
  lemma {:induction false} LoopIsManySteps(r: R.Request, n: nat, valid: string -> bool)
    requires r.phase.Gathering? && !r.job && n <= |r.buffer| && n <= r.scheduled
    ensures Gathered(r, n, valid) == Jumped(r, n, valid)
    decreases n
  {
    if n == 0 {
      assert r.chunks + [] == r.chunks;
    } else {
      JumpAfterStep(r, n, valid);
      LoopIsManySteps(R.Do(r, R.Gather(ChunkOf(r.buffer[0], valid).kind != R.Skipped)), n - 1, valid);
    }
  }

  lemma {:induction false} WritesOfFront(cs: seq<R.Chunk>)
    requires cs != []
    ensures R.Writes(cs) == (if cs[0].kind.Skipped? then 0 else 1) + R.Writes(cs[1..])
  {
    var n := |cs| - 1;
    if n > 0 {
      WritesOfFront(cs[..n]);
      assert cs[1..][..n - 1] == cs[..n][1..];
    }
  }

  // The next pair is answered from the cache or submitted.
  function OnePair(r: R.Request, cached: Task -> Option<string>): (r': R.Request)
    requires r.next < |r.pairs| && r.inside.None?
    ensures var t := r.pairs[r.next];
      && r'.chunks == r.chunks + Hit(t, cached)
      && r'.scheduled == r.scheduled + |Miss(t, cached)|
      && r'.written == r.written + |Hit(t, cached)|
    ensures r' == r.(next := r.next + 1, chunks := r'.chunks, scheduled := r'.scheduled, written := r'.written)
  {
    match cached(r.pairs[r.next])
    case Some(data) => R.Hit(r, data)
    case None => R.Sent(r)
  }

  // The request after all the pairs that are left, one atomic step each.
  function Scattered(r: R.Request, cached: Task -> Option<string>): R.Request
    requires r.inside.None?
    decreases |r.pairs| - r.next
  {
    if r.next >= |r.pairs| then r else Scattered(OnePair(r, cached), cached)
  }

  lemma BothTasks(a: seq<R.Chunk>, b: seq<R.Chunk>)
    ensures R.ChunkTasks(a + b) == R.ChunkTasks(a) + R.ChunkTasks(b)
  {
  }

  lemma OneHitOrMiss(t: Task, cached: Task -> Option<string>)
    ensures multiset(R.ChunkTasks(Hit(t, cached))) + multiset(Miss(t, cached)) == multiset{t}
    ensures |Hit(t, cached)| + |Miss(t, cached)| == 1
  {
  }

  // Every pair is either answered or submitted, never both.
  lemma {:induction false} HitOrMiss(pairs: seq<Task>, cached: Task -> Option<string>)
    ensures multiset(R.ChunkTasks(Hits(pairs, cached))) + multiset(Misses(pairs, cached)) == multiset(pairs)
    ensures |Hits(pairs, cached)| + |Misses(pairs, cached)| == |pairs|
  {
    if pairs != [] {
      var t, rest := pairs[0], pairs[1..];
      HitOrMiss(rest, cached);
      OneHitOrMiss(t, cached);
      BothTasks(Hit(t, cached), Hits(rest, cached));
      assert pairs == [t] + rest;
    }
  }

  lemma FirstPair(r: R.Request, cached: Task -> Option<string>)
    requires r.next < |r.pairs| && r.inside.None?
    ensures var t, rest := r.pairs[r.next], R.Left(OnePair(r, cached));
      && Hits(R.Left(r), cached) == Hit(t, cached) + Hits(rest, cached)
      && Misses(R.Left(r), cached) == Miss(t, cached) + Misses(rest, cached)
  {
  }

  // This loop, too, is the repetition of the atomic steps.
  lemma {:induction false} ScatterIsManySteps(r: R.Request, cached: Task -> Option<string>)
    requires r.next <= |r.pairs| && r.inside.None?
    ensures var r', pairs := Scattered(r, cached), R.Left(r);
      && r'.next == |r.pairs|
      && r'.chunks == r.chunks + Hits(pairs, cached)
      && r'.scheduled == r.scheduled + |Misses(pairs, cached)|
      && r'.written == r.written + |Hits(pairs, cached)|
      && r' == r.(next := r'.next, chunks := r'.chunks, scheduled := r'.scheduled, written := r'.written)
    decreases |r.pairs| - r.next
  {
    if r.next < |r.pairs| {
      ScatterIsManySteps(OnePair(r, cached), cached);
      FirstPair(r, cached);
      Regroup(r.chunks, Hit(r.pairs[r.next], cached), Hits(R.Left(OnePair(r, cached)), cached));
    }
  }
}
