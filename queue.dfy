/** The request queue every upstream call goes through (app.js:52,
    `new Queue(1, Infinity)`): at most one task runs at a time, tasks start
    in the order they were added, and a task's failure does not hold up the
    ones behind it. */
module RequestQueue {
  import opened Values

  class Queue<T> {
    var running: Option<T>   // the task in flight, if any (concurrency 1)
    var waiting: seq<T>      // tasks added but not yet started, oldest first
    var started: seq<T>      // every task started so far, in start order
    ghost var submitted: seq<T>  // every task added so far, in add order

    /** Tasks start in submission order (`started` is a prefix of
        `submitted`, `waiting` the rest), the task in flight is the last one
        started, and nothing waits while nothing runs. */
    ghost predicate Valid()
      reads this
    {
      && submitted == started + waiting
      && (running.None? ==> waiting == [])
      && (running.Some? ==> started != [] && running.value == started[|started| - 1])
    }

    constructor ()
      ensures Valid() && submitted == [] && running == None
    {
      running, waiting, started := None, [], [];
      submitted := [];
    }

    /** `queue.add(task)`: the task starts at once when nothing is in flight
        and waits at the back otherwise. */
    method Add(task: T)
      requires Valid()
      modifies this
      ensures Valid()
      ensures submitted == old(submitted) + [task]
      ensures old(running).None? ==> running == Some(task) && started == old(started) + [task] && waiting == []
      ensures old(running).Some? ==> running == old(running) && started == old(started) && waiting == old(waiting) + [task]
    {
      submitted := submitted + [task];
      if running.None? {
        running := Some(task);
        started := started + [task];
      } else {
        waiting := waiting + [task];
      }
    }

    /** The task in flight resolves or rejects (either way): the oldest waiting
        task, if any, starts. */
    method Settle()
      requires Valid() && running.Some?
      modifies this
      ensures Valid()
      ensures submitted == old(submitted)
      ensures old(waiting) == [] ==> running == None && started == old(started)
      ensures old(waiting) != [] ==>
        && running == Some(old(waiting)[0])
        && started == old(started) + [old(waiting)[0]]
        && waiting == old(waiting)[1..]
    {
      if waiting == [] {
        running := None;
      } else {
        running := Some(waiting[0]);
        started := started + [waiting[0]];
        waiting := waiting[1..];
      }
    }
  }
}
