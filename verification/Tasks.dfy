/**
 A task is one query to run in one database on behalf of one request, and a result is
 the single answer a worker may send back for it.
 */
module Tasks {

  // A request's tasks are numbered in the order in which its expansion yields them, so
  // `req` and `idx` identify a task; `job` marks a task created by the scheduler.
  datatype Task = Task(req: nat, idx: nat, db: nat, job: bool)

  datatype Answer = Success(data: string) | Failure

  datatype Result = Result(task: Task, answer: Answer)

  function TasksOf(rs: seq<Result>): seq<Task> {
    seq(|rs|, i requires 0 <= i < |rs| => rs[i].task)
  }

  lemma TasksOfPush(rs: seq<Result>, r: Result)
    ensures TasksOf(rs + [r]) == TasksOf(rs) + [r.task]
  {
  }

  lemma TasksOfPop(rs: seq<Result>)
    requires rs != []
    ensures TasksOf(rs) == [rs[0].task] + TasksOf(rs[1..])
  {
  }

  // A bag that fits inside another has no more elements than it.
  lemma SubBagSize<T>(a: multiset<T>, b: multiset<T>)
    requires a <= b
    ensures |a| <= |b|
    ensures |a| == |b| ==> a == b
  {
    assert b == a + (b - a);
  }
}
