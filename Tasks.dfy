/** Background tasks as abstract handles. The event loop hands out a fresh
    handle for every task it creates and records whether the task is still
    running, was cancelled, or ran to its end. No scheduling is modelled: an
    outside step (a method of the owner of the task) says when a task makes
    progress. */
module Tasks {
  import opened Values

  type TaskId = nat

  datatype TaskState = Live | Cancelled | Done

  /** The task table after `task.cancel()`: a running task becomes cancelled,
      a task that already ended is left as it is (asyncio then returns False). */
  function CancelledAt(tasks: seq<TaskState>, t: TaskId): (r: seq<TaskState>)
    requires t < |tasks|
    ensures |r| == |tasks| && r[t] != Live
    ensures forall u :: 0 <= u < |tasks| && u != t ==> r[u] == tasks[u]
    ensures tasks[t] != Live ==> r == tasks
  {
    if tasks[t] == Live then tasks[t := Cancelled] else tasks
  }

  /** The task table after `if slot: slot.cancel()`. */
  function CancelSlot(tasks: seq<TaskState>, slot: Option<TaskId>): (r: seq<TaskState>)
    requires slot.Some? ==> slot.value < |tasks|
  {
    match slot
    case None => tasks
    case Some(t) => CancelledAt(tasks, t)
  }

  class EventLoop {
    var tasks: seq<TaskState>

    constructor ()
      ensures tasks == []
    {
      tasks := [];
    }

    predicate IsLive(t: TaskId)
      reads this
    {
      t < |tasks| && tasks[t] == Live
    }

    /** `asyncio.create_task` / `ensure_future`: a new running task. */
    method Create() returns (t: TaskId)
      modifies this`tasks
      ensures t == |old(tasks)| && tasks == old(tasks) + [Live]
    {
      t := |tasks|;
      tasks := tasks + [Live];
    }

    /** `task.cancel()`. */
    method Cancel(t: TaskId)
      requires t < |tasks|
      modifies this`tasks
      ensures tasks == CancelledAt(old(tasks), t)
    {
      if tasks[t] == Live {
        tasks := tasks[t := Cancelled];
      }
    }

    /** A running task returns from its coroutine. */
    method Finish(t: TaskId)
      requires IsLive(t)
      modifies this`tasks
      ensures tasks == old(tasks)[t := Done]
    {
      tasks := tasks[t := Done];
    }
  }
}
