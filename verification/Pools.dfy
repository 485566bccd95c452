/**
 One work queue of a collector together with the capped group of workers that serve it.
 A worker is anonymous: it is idle in its `select`, it has just taken a task (`taken`),
 it waits for the database (`querying`), or it has left its loop and has not yet given
 its slot back to the group (`leaving`).
 */
module Pools {
  import opened Tasks

  const TASKS_QUEUE_SIZE: nat := 10

  datatype Pool = Pool(
    limit: int,
    queue: seq<Task>,
    idle: nat,
    leaving: nat,
    taken: multiset<Task>,
    querying: multiset<Task>)

  function NewPool(limit: int): (p: Pool)
    ensures Inv(p) && Live(p) == 0 && Rank(p) == 0
    ensures forall u :: Count(p, u) == 0
  {
    Pool(limit, [], 0, 0, multiset{}, multiset{})
  }

  // The workers that occupy a slot of the group.
  function Live(p: Pool): nat {
    p.idle + p.leaving + |p.taken| + |p.querying|
  }

  // Those that are still in their loop and will come back for another task.
  function Active(p: Pool): nat {
    p.idle + |p.taken| + |p.querying|
  }

  // How often t is in the pool.
  function Count(p: Pool, t: Task): nat {
    multiset(p.queue)[t] + p.taken[t] + p.querying[t]
  }

  function One(t: Task, u: Task): nat {
    if t == u then 1 else 0
  }

  // A work queue has ten places.
  predicate Full(p: Pool) {
    |p.queue| >= TASKS_QUEUE_SIZE
  }

  lemma TenPlaces(p: Pool)
    ensures Full(p) <==> |p.queue| >= 10
  {
  }

  // When a group limited to `limit` accepts one more worker; a negative limit is no limit.
  predicate Admits(p: Pool) {
    p.limit < 0 || Live(p) < p.limit
  }

  // The queue is bounded, and the group respects its limit.
  predicate Inv(p: Pool) {
    && |p.queue| <= TASKS_QUEUE_SIZE
    && (p.limit >= 0 ==> Live(p) <= p.limit)
  }

  // An upper bound on the steps this pool can still cause.
  function Rank(p: Pool): nat {
    4 * |p.queue| + 2 * p.idle + p.leaving + 5 * |p.taken| + 4 * |p.querying|
  }

  function Enqueue(p: Pool, t: Task): (p': Pool)
    requires !Full(p)
    ensures Inv(p) ==> Inv(p')
    ensures Live(p') == Live(p)
    ensures forall u :: Count(p', u) == Count(p, u) + One(t, u)
    ensures Rank(p') == Rank(p) + 4
  {
    p.(queue := p.queue + [t])
  }

  // `found`: the look at the queue before has found a task there, which somebody may have
  // taken since.
  function Spawn(p: Pool, found: bool): (p': Pool)
    ensures Inv(p) ==> Inv(p')
    ensures p'.queue == p.queue && forall u :: Count(p', u) == Count(p, u)
    ensures Live(p') == Live(p) + (if found && Admits(p) then 1 else 0)
    ensures Rank(p') <= Rank(p) + 2
  {
    if !found then p
    else if Admits(p) then p.(idle := p.idle + 1)
    else p
  }

  function Take(p: Pool): (p': Pool)
    requires p.queue != [] && p.idle > 0
    ensures Inv(p) ==> Inv(p')
    ensures Live(p') == Live(p)
    ensures forall u :: Count(p', u) == Count(p, u)
    ensures Rank(p') < Rank(p)
  {
    assert p.queue == [p.queue[0]] + p.queue[1..];
    p.(queue := p.queue[1..],
       idle := p.idle - 1,
       taken := p.taken + multiset{p.queue[0]})
  }

  function Begin(p: Pool, t: Task): (p': Pool)
    requires t in p.taken
    ensures Inv(p) ==> Inv(p')
    ensures Live(p') == Live(p)
    ensures forall u :: Count(p', u) == Count(p, u)
    ensures Rank(p') < Rank(p)
  {
    p.(taken := p.taken - multiset{t}, querying := p.querying + multiset{t})
  }

  // The worker is through with t and is back in its `select`.
  function Finish(p: Pool, t: Task): (p': Pool)
    requires t in p.taken || t in p.querying
    ensures Inv(p) ==> Inv(p')
    ensures Live(p') == Live(p)
    ensures forall u :: Count(p, u) == Count(p', u) + One(t, u)
    ensures Rank(p') + 2 <= Rank(p)
  {
    if t in p.querying then p.(querying := p.querying - multiset{t}, idle := p.idle + 1)
    else p.(taken := p.taken - multiset{t}, idle := p.idle + 1)
  }

  function Leave(p: Pool): (p': Pool)
    requires p.idle > 0
    ensures Inv(p) ==> Inv(p')
    ensures Live(p') == Live(p)
    ensures forall u :: Count(p', u) == Count(p, u)
    ensures Rank(p') < Rank(p)
  {
    p.(idle := p.idle - 1, leaving := p.leaving + 1)
  }

  function Release(p: Pool): (p': Pool)
    requires p.leaving > 0
    ensures Inv(p) ==> Inv(p')
    ensures Live(p') == Live(p) - 1
    ensures forall u :: Count(p', u) == Count(p, u)
    ensures Rank(p') < Rank(p)
  {
    p.(leaving := p.leaving - 1)
  }

  // What an idle worker does by itself: it takes the next task, or its shutdown timer (or a
  // cancelled context) makes it leave, after which it gives its slot back. `Retire` is the
  // whole exit in one step with nothing left in the queue.
  datatype Move = Taking | Leaving | Releasing | Retiring

  predicate CanMove(p: Pool, m: Move) {
    match m
    case Taking => p.idle > 0 && p.queue != []
    case Leaving => p.idle > 0
    case Releasing => p.leaving > 0
    case Retiring => p.idle > 0 && p.queue == []
  }

  function DoMove(p: Pool, m: Move): (p': Pool)
    requires CanMove(p, m)
    ensures Inv(p) ==> Inv(p')
    ensures p'.limit == p.limit && forall u :: Count(p', u) == Count(p, u)
    ensures Live(p') == if m.Taking? || m.Leaving? then Live(p) else Live(p) - 1
    ensures Rank(p') < Rank(p)
  {
    match m
    case Taking => Take(p)
    case Leaving => Leave(p)
    case Releasing => Release(p)
    case Retiring => Release(Leave(p))
  }
}
