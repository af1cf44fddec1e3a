/** The watchdog timer of timer.py: a task that sleeps for `timeout`
    seconds, then runs a callback, and sleeps again only when `_auto_restart`
    is set. The job's loop is modelled by two steps, `Expire` (the sleep ran
    out and the callback was entered) and `CallbackReturned` (the callback
    returned or raised; a raise is logged and swallowed, so both end the same
    way). */
module Timers {
  import opened Values
  import opened Tasks

  class Timer {
    const loop: EventLoop
    var timeout: int
    /** `_task`: the job's task, if one was started and not cancelled since. */
    var task: Option<TaskId>
    /** `_in_callback` (class default False). */
    var inCallback: bool
    /** `_auto_restart` (class default False): the only flag the job reads. */
    var autoRestart: bool
    /** The public attribute `auto_restart` that a caller may set on the
        object; nothing in the timer reads it. */
    var autoRestartAttribute: bool
    /** How many times the job has invoked the callback. */
    var calls: nat

    ghost predicate Valid()
      reads this, loop
    {
      && (task.Some? ==> task.value < |loop.tasks|)
      && (inCallback ==> task.Some? && loop.tasks[task.value] == Live)
    }

    /** `Timer(timeout, callback, autostart)`. */
    constructor (timeout: int, autostart: bool, loop: EventLoop)
      modifies loop`tasks
      ensures Valid() && this.loop == loop && this.timeout == timeout
      ensures !inCallback && !autoRestart && !autoRestartAttribute && calls == 0
      ensures autostart ==> task == Some(|old(loop.tasks)|) && loop.tasks == old(loop.tasks) + [Live]
      ensures !autostart ==> task == None && loop.tasks == old(loop.tasks)
    {
      this.loop := loop;
      this.timeout := timeout;
      task := None;
      inCallback := false;
      autoRestart := false;
      autoRestartAttribute := false;
      calls := 0;
      new;
      if autostart {
        Start();
      }
    }

    /** `start`: creates the job's task only when the slot is empty. */
    method Start()
      requires Valid()
      modifies this`task, loop`tasks
      ensures Valid()
      ensures old(task).Some? ==> task == old(task) && loop.tasks == old(loop.tasks)
      ensures old(task).None? ==> task == Some(|old(loop.tasks)|) && loop.tasks == old(loop.tasks) + [Live]
    {
      if task.None? {
        var t := loop.Create();
        task := Some(t);
      }
    }

    /** `_cancel`: refuses while the callback runs; otherwise cancels the
        job's task and empties the slot. */
    method Cancel() returns (err: Option<Error>)
      requires Valid()
      modifies this`task, loop`tasks
      ensures Valid()
      ensures old(inCallback) ==> err == Some(CallbackRunning) && task == old(task) && loop.tasks == old(loop.tasks)
      ensures !old(inCallback) ==> err == None && task == None && loop.tasks == CancelSlot(old(loop.tasks), old(task))
    {
      if inCallback {
        return Some(CallbackRunning);
      }
      if task.Some? {
        loop.Cancel(task.value);
        task := None;
      }
      err := None;
    }

    /** `reset`: cancel (a refusal is swallowed), then `start`. Outside the
        callback the job restarts with a fresh task; inside it nothing
        changes, because the slot still holds the running task. */
    method Reset()
      requires Valid()
      modifies this`task, loop`tasks
      ensures Valid()
      ensures inCallback ==> task == old(task) && loop.tasks == old(loop.tasks)
      ensures !inCallback ==> task == Some(|old(loop.tasks)|) &&
                              loop.tasks == CancelSlot(old(loop.tasks), old(task)) + [Live]
    {
      var _ := Cancel();
      Start();
    }

    /** `setTimeout`: store the new timeout, then `reset`. */
    method SetTimeout(t: int)
      requires Valid()
      modifies this`timeout, this`task, loop`tasks
      ensures Valid() && timeout == t
      ensures inCallback ==> task == old(task) && loop.tasks == old(loop.tasks)
      ensures !inCallback ==> task == Some(|old(loop.tasks)|) &&
                              loop.tasks == CancelSlot(old(loop.tasks), old(task)) + [Live]
    {
      timeout := t;
      Reset();
    }

    /** The job's sleep ran out: it sets `_in_callback` and calls the
        callback once. */
    method Expire()
      requires Valid() && task.Some? && loop.IsLive(task.value) && !inCallback
      modifies this`inCallback, this`calls
      ensures Valid() && inCallback && calls == old(calls) + 1
    {
      inCallback := true;
      calls := calls + 1;
    }

    /** The callback returned or raised: the job clears `_in_callback`, then
        sleeps again if `_auto_restart` holds and otherwise returns. Its task
        then ends, but `_task` still names it. */
    method CallbackReturned()
      requires Valid() && inCallback
      modifies this`inCallback, loop`tasks
      ensures Valid() && !inCallback
      ensures autoRestart ==> loop.tasks == old(loop.tasks)
      ensures !autoRestart ==> loop.tasks == old(loop.tasks)[task.value := Done]
    {
      inCallback := false;
      if !autoRestart {
        loop.Finish(task.value);
      }
    }
  }

  /** A timer whose job ended without auto-restart is not re-armed by
      `start`, since `_task` was never cleared; `reset` re-arms it. */
  method StartAfterExpiry() returns (armedByStart: bool, armedByReset: bool)
    ensures !armedByStart && armedByReset
  {
    var loop := new EventLoop();
    var timer := new Timer(180, true, loop);
    timer.Expire();
    timer.CallbackReturned();
    timer.Start();
    armedByStart := timer.task.Some? && loop.IsLive(timer.task.value);
    timer.Reset();
    armedByReset := timer.task.Some? && loop.IsLive(timer.task.value);
  }

  /** `reset` from inside the callback keeps the running job: the refusal of
      `_cancel` is swallowed and `start` finds the slot taken. With
      auto-restart the job then goes back to sleep on the same task. */
  method ResetInsideCallback() returns (sameTask: bool, stillArmed: bool)
    ensures sameTask && stillArmed
  {
    var loop := new EventLoop();
    var timer := new Timer(180, true, loop);
    timer.autoRestart := true;
    var before := timer.task;
    timer.Expire();
    timer.Reset();
    sameTask := timer.task == before;
    timer.CallbackReturned();
    stillArmed := timer.task.Some? && loop.IsLive(timer.task.value);
  }
}
