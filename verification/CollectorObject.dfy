/**
 The collector as the object it is in the source (internal/collectors/collector.go). Each
 method is a stretch of code of one goroutine that nobody interrupts here; its contract
 says of which atomic steps it consists.
 */
module CollectorObject {
  import opened Wrappers
  import opened Tasks
  import P = Pools
  import C = Collectors

  // How an addTask ends, or that it waits; sending to a closed inbox panics.
  datatype Outcome = Refused(res: Result) | Accepted | GivenUp | Waits | Panics

  // A turn of a worker's loop: it is handed a task, or its timer or the closed context ends
  // the loop. `cancelled` is what the checks before the query see, `interrupted` what the
  // wait for its answer sees.
  datatype Turn = Serve(cancelled: bool, interrupted: bool, answer: Answer) | Quit

  // The results of the turns, for the tasks handed to them.
  function AnsweredBy(tasks: seq<Task>, turns: seq<Turn>): seq<Result>
    requires |tasks| == |turns| && forall i :: 0 <= i < |turns| ==> turns[i].Serve?
  {
    if tasks == [] then []
    else
      var n := |tasks| - 1;
      AnsweredBy(tasks[..n], turns[..n])
      + (if turns[n].cancelled || turns[n].interrupted then [] else [Result(tasks[n], turns[n].answer)])
  }

  // If nothing is interrupted every task is answered, in order.
  lemma {:induction false} AllAnswered(tasks: seq<Task>, turns: seq<Turn>)
    requires |tasks| == |turns|
    requires forall i :: 0 <= i < |turns| ==> turns[i].Serve? && !turns[i].cancelled && !turns[i].interrupted
    ensures TasksOf(AnsweredBy(tasks, turns)) == tasks
  {
    if tasks != [] {
      var n := |tasks| - 1;
      AllAnswered(tasks[..n], turns[..n]);
      TasksOfPush(AnsweredBy(tasks[..n], turns[..n]), Result(tasks[n], turns[n].answer));
    }
  }

  // The i-th task is handled to the end, with that result.
  predicate Answers(tasks: seq<Task>, turns: seq<Turn>, i: nat, res: Result)
    requires i < |tasks| && i < |turns|
  {
    tasks[i] == res.task && turns[i] == Serve(false, false, res.answer)
  }

  // The results are those of the tasks that are neither cancelled nor interrupted.
  lemma {:induction false} AnsweredExactly(tasks: seq<Task>, turns: seq<Turn>, res: Result)
    requires |tasks| == |turns| && forall i :: 0 <= i < |turns| ==> turns[i].Serve?
    ensures res in AnsweredBy(tasks, turns) <==> exists i :: 0 <= i < |tasks| && Answers(tasks, turns, i, res)
  {
    if tasks != [] {
      var n := |tasks| - 1;
      AnsweredExactly(tasks[..n], turns[..n], res);
      forall i | 0 <= i < n ensures Answers(tasks, turns, i, res) <==> Answers(tasks[..n], turns[..n], i, res) {
      }
      assert Answers(tasks, turns, n, res) <==>
             res == Result(tasks[n], turns[n].answer) && !turns[n].cancelled && !turns[n].interrupted;
    }
  }

  predicate Uninterrupted(turn: Turn) {
    turn.Serve? && !turn.cancelled && !turn.interrupted
  }

  // Each of them once.
  lemma {:induction false} AnsweredOnce(tasks: seq<Task>, turns: seq<Turn>)
    requires |tasks| == |turns| && forall i :: 0 <= i < |turns| ==> turns[i].Serve?
    ensures |AnsweredBy(tasks, turns)| == |set i | 0 <= i < |turns| && Uninterrupted(turns[i])|
  {
    if tasks != [] {
      var n := |tasks| - 1;
      var front := turns[..n];
      AnsweredOnce(tasks[..n], front);
      var before := set i | 0 <= i < n && Uninterrupted(front[i]);
      var all := set i | 0 <= i < |turns| && Uninterrupted(turns[i]);
      assert all == before + (if Uninterrupted(turns[n]) then {n} else {});
    }
  }

  lemma AnsweredOneMore(tasks: seq<Task>, turns: seq<Turn>, n: nat)
    requires n < |tasks| && n < |turns| && forall i :: 0 <= i <= n ==> turns[i].Serve?
    ensures AnsweredBy(tasks[..n + 1], turns[..n + 1]) ==
            AnsweredBy(tasks[..n], turns[..n])
            + (if turns[n].cancelled || turns[n].interrupted then [] else [Result(tasks[n], turns[n].answer)])
  {
    assert tasks[..n + 1][..n] == tasks[..n] && turns[..n + 1][..n] == turns[..n];
  }

  // A pool whose first n tasks have been handled.
  function Served(p: P.Pool, n: nat): P.Pool
    requires n <= |p.queue|
  {
    p.(queue := p.queue[n..])
  }

  lemma ServedOneMore(p: P.Pool, n: nat)
    requires n < |p.queue|
    ensures Served(p, n).queue[0] == p.queue[n] && Served(Served(p, n), 1) == Served(p, n + 1)
  {
  }

  // A whole turn of a worker takes one task from the queue, whether it gives the task up at
  // once or waits for the database. (A task that has just been taken is at
  // no other worker.)
  lemma WholeTurn(p: P.Pool)
    requires p.queue != [] && p.idle > 0
    ensures var t := p.queue[0];
      && t in P.Take(p).taken
      && P.Finish(P.Begin(P.Take(p), t), t) == Served(p, 1)
      && (t !in p.querying ==> P.Finish(P.Take(p), t) == Served(p, 1))
  {
    var t := p.queue[0];
    assert p.taken + multiset{t} - multiset{t} == p.taken;
    assert p.querying + multiset{t} - multiset{t} == p.querying;
  }

  class Collector {
    const limits: C.Limits
    var phase: C.Phase
    var tasksQueue: seq<Task>
    var hand: C.Hand
    var std: P.Pool
    var bg: P.Pool

    function Snapshot(): C.Collector
      reads this
    {
      C.Collector(phase, tasksQueue, hand, std, bg)
    }

    constructor (limits: C.Limits)
      ensures Snapshot() == C.NewCollector(limits) && this.limits == limits
    {
      this.limits := limits;
      phase := C.Created;
      tasksQueue := [];
      hand := C.Waiting;
      std := P.NewPool(limits.std);
      bg := P.NewPool(limits.bg);
    }

    // run, up to its loop: the inbox exists from here on.
    method Open()
      requires phase.Created?
      modifies this
      ensures Snapshot() == C.Do(old(Snapshot()), C.Start, false)
    {
      phase := C.Running;
    }

    // addTask up to the point where it would wait. `cancelled`: the request's context or its
    // cancel channel is closed; `accept`: what the select does if it could also send.
    method AddTask(task: Task, cancelled: bool, accept: bool) returns (outcome: Outcome)
      modifies this
      ensures outcome ==
              if old(phase).Created? then Refused(Result(task, Failure))
              else if old(phase).Exited? then (if cancelled && !accept then GivenUp else Panics)
              else if |old(tasksQueue)| < C.INBOX_SIZE && (accept || !cancelled) then Accepted
              else if cancelled then GivenUp
              else Waits
      ensures Snapshot() == if outcome.Accepted? then C.Accept(old(Snapshot()), task) else old(Snapshot())
    {
      if phase.Created? {
        return Refused(Result(task, Failure));
      }
      if phase.Exited? {
        return if cancelled && !accept then GivenUp else Panics;
      }
      if |tasksQueue| < C.INBOX_SIZE && (accept || !cancelled) {
        tasksQueue := tasksQueue + [task];
        return Accepted;
      }
      return if cancelled then GivenUp else Waits;
    }

    method SpawnWorker()
      modifies this`std
      ensures std == P.Spawn(old(std), old(std).queue != [])
    {
      if |std.queue| == 0 {
        return;
      }
      if std.limit < 0 || P.Live(std) < std.limit {
        std := std.(idle := std.idle + 1);
      }
    }

    method SpawnBgWorker()
      modifies this`bg
      ensures bg == P.Spawn(old(bg), old(bg).queue != [])
    {
      if |bg.queue| == 0 {
        return;
      }
      if bg.limit < 0 || P.Live(bg) < bg.limit {
        bg := bg.(idle := bg.idle + 1);
      }
    }

    // One turn of run's loop, begun with the next task or taken up again with one that waits
    // for room in its work queue: if there still is none, the dispatcher is blocked.
    method Dispatch() returns (blocked: bool)
      requires phase.Running? && (hand.Picked? || (hand.Waiting? && tasksQueue != []))
      modifies this
      ensures var c1 := if old(hand).Picked? then old(Snapshot()) else C.Do(old(Snapshot()), C.Receive, false);
        && blocked == !C.Can(c1, C.Enqueue, false)
        && Snapshot() == if blocked then c1 else C.Do(C.Do(c1, C.Enqueue, false), C.Spawn(true), false)
    {
      if hand.Waiting? {
        hand := C.Picked(tasksQueue[0]);
        tasksQueue := tasksQueue[1..];
      }
      var task := hand.t;
      if task.job && bg.limit > 0 {
        if |bg.queue| >= P.TASKS_QUEUE_SIZE {
          return true;
        }
        bg := bg.(queue := bg.queue + [task]);
        SpawnBgWorker();
      } else {
        if |std.queue| >= P.TASKS_QUEUE_SIZE {
          return true;
        }
        std := std.(queue := std.queue + [task]);
        SpawnWorker();
      }
      hand := C.Waiting;
      return false;
    }

    // One turn of the standard worker's loop for the next task.
    method WorkOnStandardQueue(cancelled: bool, interrupted: bool, answer: Answer)
      returns (task: Task, res: Option<Result>)
      requires std.idle > 0 && std.queue != []
      modifies this`std
      ensures task == old(std).queue[0]
      ensures res == if cancelled || interrupted then None else Some(Result(task, answer))
      ensures std == Served(old(std), 1)
    {
      WholeTurn(std);
      task := std.queue[0];
      std := std.(queue := std.queue[1..], idle := std.idle - 1, taken := std.taken + multiset{task});
      if cancelled {
        std := std.(taken := std.taken - multiset{task}, idle := std.idle + 1);
        return task, None;
      }
      std := std.(taken := std.taken - multiset{task}, querying := std.querying + multiset{task});
      std := std.(querying := std.querying - multiset{task}, idle := std.idle + 1);
      res := if interrupted then None else Some(Result(task, answer));
    }

    // The standard worker's loop: `turns` says what each turn of its select comes to. The
    // loop ends with a turn that quits, waits when the queue is empty, and is looked at no
    // further when there are no more turns.
    method ServeStandardQueue(turns: seq<Turn>) returns (handled: nat, left: bool, res: seq<Result>)
      requires std.idle > 0
      modifies this`std
      ensures handled <= |old(std).queue| && handled <= |turns|
      ensures forall i :: 0 <= i < handled ==> turns[i].Serve?
      ensures handled == |turns| || turns[handled].Quit? || handled == |old(std).queue|
      ensures left <==> handled < |turns| && turns[handled].Quit?
      ensures res == AnsweredBy(old(std).queue[..handled], turns[..handled])
      ensures var p := Served(old(std), handled); std == if left then P.Leave(p) else p
    {
      handled, res := 0, [];
      while handled < |turns| && turns[handled].Serve? && std.queue != []
        invariant handled <= |turns| && handled <= |old(std).queue|
        invariant forall i :: 0 <= i < handled ==> turns[i].Serve?
        invariant std == Served(old(std), handled)
        invariant res == AnsweredBy(old(std).queue[..handled], turns[..handled])
        decreases |turns| - handled
      {
        ServedOneMore(old(std), handled);
        AnsweredOneMore(old(std).queue, turns, handled);
        var task, r := WorkOnStandardQueue(turns[handled].cancelled, turns[handled].interrupted, turns[handled].answer);
        if r.Some? {
          res := res + [r.value];
        }
        handled := handled + 1;
      }
      left := handled < |turns| && turns[handled].Quit?;
      if left {
        std := std.(idle := std.idle - 1, leaving := std.leaving + 1);
      }
    }

    // run, after its loop: both groups have been waited for, the inbox is closed.
    method Close()
      requires phase.Draining? && C.Workers(Snapshot()) == 0
      modifies this
      ensures Snapshot() == C.Do(old(Snapshot()), C.Exit, true)
    {
      phase := C.Exited;
      tasksQueue := [];
      hand := C.Waiting;
      std := P.NewPool(std.limit);
      bg := P.NewPool(bg.limit);
    }
  }
}
