/** The coordinator of coordinator.py: it owns the device client, keeps the
    latest status, holds the ordered list of listener callbacks, and keeps at
    most one observation task and one reconnect task. Client calls are
    outcomes supplied by the caller of a step (`ReconnectSucceeded`,
    `ReconnectFailed`) or entries of a log (`closedClients`); listener
    callbacks are handles whose invocations are logged in `notified`. */
module Coordination {
  import opened Values
  import opened Tasks
  import opened Timers

  /** A device client (a `CoAPClient` instance). */
  type ClientId = nat

  /** A listener callback registered by an entity. */
  type ListenerId = nat

  /** The position of the first occurrence of `x` in `s`. */
  function FirstIndex(s: seq<ListenerId>, x: ListenerId): (i: nat)
    requires x in s
    ensures i < |s| && s[i] == x && x !in s[..i]
  {
    if s[0] == x then 0
    else
      var j := FirstIndex(s[1..], x);
      assert s[..j + 1] == [s[0]] + s[1..][..j];
      j + 1
  }

  /** `list.remove(x)`: the list without the first occurrence of `x`. */
  function RemoveFirst(s: seq<ListenerId>, x: ListenerId): (r: seq<ListenerId>)
    requires x in s
    ensures |r| == |s| - 1
    ensures multiset(r) == multiset(s) - multiset{x}
    ensures forall j :: 0 <= j < FirstIndex(s, x) ==> r[j] == s[j]
    ensures forall j :: FirstIndex(s, x) <= j < |r| ==> r[j] == s[j + 1]
  {
    var i := FirstIndex(s, x);
    RemoveAtMultiset(s, i);
    s[..i] + s[i + 1..]
  }

  /** Dropping the element at `i` removes one copy of it from the multiset. */
  lemma RemoveAtMultiset(s: seq<ListenerId>, i: nat)
    requires i < |s|
    ensures multiset(s[..i] + s[i + 1..]) == multiset(s) - multiset{s[i]}
  {
    var front, back := s[..i], s[i + 1..];
    assert s == front + ([s[i]] + back);
    assert multiset(s) == multiset(front) + (multiset{s[i]} + multiset(back));
  }

  /** Removal is not idempotent: once a callback that was registered once has
      been removed, removing it again raises. */
  lemma RemoveOnceRegistered(s: seq<ListenerId>, x: ListenerId)
    requires multiset(s)[x] == 1
    ensures x !in RemoveFirst(s, x)
  {
    var r: seq<ListenerId> := RemoveFirst(s, x);
    assert multiset(r)[x] == 0;
  }

  class Coordinator {
    const host: string
    const loop: EventLoop
    /** `_timer_disconnected`, the watchdog whose callback is `reconnect`. */
    const timer: Timer
    /** `_timeout`, the base interval of the watchdog, in seconds. */
    const timeout: int

    var client: ClientId
    var status: Status
    /** `_listeners`, in registration order; a callback may occur twice. */
    var listeners: seq<ListenerId>
    /** `_task`, the observation task. */
    var task: Option<TaskId>
    /** `_reconnect_task`. */
    var reconnectTask: Option<TaskId>

    /** The listener callbacks invoked so far, in order. */
    var notified: seq<ListenerId>
    /** The clients on which `shutdown()` has been called, in order. */
    var closedClients: seq<ClientId>

    /** Every observation task and every reconnect task ever created. */
    ghost var observers: set<TaskId>
    ghost var reconnectors: set<TaskId>

    /** The invariant the coordinator keeps: every observation task other
        than the one in `_task` has been cancelled or has ended, and likewise
        for reconnect tasks, so at most one of each kind runs. The watchdog
        is never armed: it is built with `autostart=False` and its `reset()`
        calls are disabled. */
    ghost predicate Valid()
      reads this, loop, timer
    {
      && (task.Some? ==> task.value in observers)
      && (reconnectTask.Some? ==> reconnectTask.value in reconnectors)
      && observers !! reconnectors
      && (forall t :: t in observers ==> t < |loop.tasks|)
      && (forall t :: t in reconnectors ==> t < |loop.tasks|)
      && (forall t :: t in observers && loop.tasks[t] == Live ==> task == Some(t))
      && (forall t :: t in reconnectors && loop.tasks[t] == Live ==> reconnectTask == Some(t))
      && timer.loop == loop && timer.Valid()
      && timer.task.None? && !timer.inCallback && !timer.autoRestart
    }

    /** `__init__`: the watchdog gets timeout `_timeout * missed` and
        `autostart=False`; the assignment to `auto_restart` lands on an
        attribute the timer does not read, so `_auto_restart` stays False. */
    constructor (host: string, client: ClientId, status: Status, loop: EventLoop, missedPackageCount: int)
      modifies loop`tasks
      ensures Valid() && fresh(timer)
      ensures this.host == host && this.client == client && this.status == status && this.loop == loop
      ensures listeners == [] && task == None && reconnectTask == None
      ensures notified == [] && closedClients == []
      ensures timeout == 60 && timer.timeout == 60 * missedPackageCount
      ensures timer.task == None && !timer.autoRestart && timer.autoRestartAttribute
      ensures loop.tasks == old(loop.tasks)
    {
      this.host := host;
      this.client := client;
      this.status := status;
      this.loop := loop;
      listeners := [];
      task := None;
      reconnectTask := None;
      timeout := 60;
      notified := [];
      closedClients := [];
      observers := {};
      reconnectors := {};
      var watchdog := new Timer(60 * missedPackageCount, false, loop);
      watchdog.autoRestartAttribute := true;
      timer := watchdog;
    }

    /** At most one observation task and at most one reconnect task run. */
    lemma AtMostOneRunning()
      requires Valid()
      ensures forall t, u :: t in observers && u in observers && loop.IsLive(t) && loop.IsLive(u) ==> t == u
      ensures forall t, u :: t in reconnectors && u in reconnectors && loop.IsLive(t) && loop.IsLive(u) ==> t == u
    {
    }

    /** `_start_observing`: cancel the observation task, if any, then create
        a new one. */
    method StartObserving()
      requires Valid()
      modifies this`task, this`observers, loop`tasks
      ensures Valid()
      ensures task == Some(|old(loop.tasks)|)
      ensures loop.tasks == CancelSlot(old(loop.tasks), old(task)) + [Live]
    {
      if task.Some? {
        loop.Cancel(task.value);
        task := None;
      }
      var t := loop.Create();
      task := Some(t);
      observers := observers + {t};
    }

    /** `async_add_listener`: append the callback; start observing when the
        list was empty. The returned remover stands for the callback. */
    method AddListener(callback: ListenerId) returns (remover: ListenerId)
      requires Valid()
      modifies this`listeners, this`task, this`observers, loop`tasks
      ensures Valid()
      ensures listeners == old(listeners) + [callback] && remover == callback
      ensures old(listeners) == [] ==>
                task == Some(|old(loop.tasks)|) && loop.tasks == CancelSlot(old(loop.tasks), old(task)) + [Live]
      ensures old(listeners) != [] ==> task == old(task) && loop.tasks == old(loop.tasks)
    {
      var startObserving := listeners == [];
      listeners := listeners + [callback];
      if startObserving {
        StartObserving();
      }
      remover := callback;
    }

    /** `async_remove_listener` (what the remover calls): remove the first
        occurrence, raising `ValueError` when the callback is not
        registered; once the list is empty, cancel the observation task and
        empty the slot. */
    method RemoveListener(callback: ListenerId) returns (err: Option<Error>)
      requires Valid()
      modifies this`listeners, this`task, loop`tasks
      ensures Valid()
      ensures callback !in old(listeners) ==>
                err == Some(ValueError) && listeners == old(listeners) &&
                task == old(task) && loop.tasks == old(loop.tasks)
      ensures callback in old(listeners) ==>
                err == None && listeners == RemoveFirst(old(listeners), callback)
      ensures callback in old(listeners) && listeners == [] && old(task).Some? ==>
                task == None && loop.tasks == CancelledAt(old(loop.tasks), old(task).value)
      ensures callback in old(listeners) && (listeners != [] || old(task).None?) ==>
                task == old(task) && loop.tasks == old(loop.tasks)
    {
      if callback !in listeners {
        return Some(ValueError);
      }
      listeners := RemoveFirst(listeners, callback);
      if listeners == [] && task.Some? {
        loop.Cancel(task.value);
        task := None;
      }
      err := None;
    }

    /** One round of `_async_observe_status`: the running observation task
        receives `received`, which replaces the status wholesale, and then
        every listener is called once, in list order. */
    method StatusArrived(received: Status)
      requires Valid() && task.Some? && loop.IsLive(task.value)
      modifies this`status, this`notified
      ensures Valid()
      ensures status == received
      ensures notified == old(notified) + listeners
    {
      status := received;
      var i := 0;
      while i < |listeners|
        invariant 0 <= i <= |listeners| && status == received
        invariant notified == old(notified) + listeners[..i]
      {
        notified := notified + [listeners[i]];
        i := i + 1;
      }
      assert listeners[..i] == listeners;
    }

    /** The device's status stream ended (or raised): the observation task
        returns, and nothing restarts it; `_task` still names it. */
    method ObservationEnded()
      requires Valid() && task.Some? && loop.IsLive(task.value)
      modifies loop`tasks
      ensures Valid()
      ensures loop.tasks == old(loop.tasks)[task.value := Done]
    {
      loop.Finish(task.value);
    }

    /** `reconnect`: cancel a reconnect task still in flight and install a new
        one running `_reconnect`. */
    method Reconnect()
      requires Valid()
      modifies this`reconnectTask, this`reconnectors, loop`tasks
      ensures Valid()
      ensures reconnectTask == Some(|old(loop.tasks)|)
      ensures loop.tasks == CancelSlot(old(loop.tasks), old(reconnectTask)) + [Live]
    {
      if reconnectTask.Some? {
        loop.Cancel(reconnectTask.value);
        reconnectTask := None;
      }
      var t := loop.Create();
      reconnectTask := Some(t);
      reconnectors := reconnectors + {t};
    }

    /** `_reconnect` running to its end with `CoAPClient.create` returning
        `newClient`: the old client was shut down (an error there is
        swallowed), the new one replaces it, and observation restarts, with
        or without listeners. The status is kept. */
    method ReconnectSucceeded(newClient: ClientId)
      requires Valid() && reconnectTask.Some? && loop.IsLive(reconnectTask.value)
      modifies this`client, this`closedClients, this`task, this`observers, loop`tasks
      ensures Valid()
      ensures closedClients == old(closedClients) + [old(client)] && client == newClient
      ensures task == Some(|old(loop.tasks)|)
      ensures loop.tasks == (CancelSlot(old(loop.tasks), old(task)) + [Live])[reconnectTask.value := Done]
    {
      closedClients := closedClients + [client];
      client := newClient;
      StartObserving();
      loop.Finish(reconnectTask.value);
    }

    /** `_reconnect` with `CoAPClient.create` raising: the error is logged,
        the old client (already shut down) stays in place, and observation is
        not restarted. */
    method ReconnectFailed()
      requires Valid() && reconnectTask.Some? && loop.IsLive(reconnectTask.value)
      modifies this`closedClients, loop`tasks
      ensures Valid()
      ensures closedClients == old(closedClients) + [client]
      ensures loop.tasks == old(loop.tasks)[reconnectTask.value := Done]
    {
      closedClients := closedClients + [client];
      loop.Finish(reconnectTask.value);
    }

    /** `shutdown` as written: it cancels the reconnect task (leaving the
        slot set), then calls `cancel()` on the watchdog, which has no such
        attribute (the method is `_cancel`); the `AttributeError` ends the
        call before the client is shut down. */
    method ShutdownAsWritten() returns (err: Option<Error>)
      requires Valid()
      modifies loop`tasks
      ensures Valid()
      ensures err == Some(AttributeError)
      ensures loop.tasks == CancelSlot(old(loop.tasks), reconnectTask)
    {
      if reconnectTask.Some? {
        loop.Cancel(reconnectTask.value);
      }
      err := Some(AttributeError);
    }

    /** `shutdown` as intended: it cancels the reconnect task (the slot stays
        set), cancels the watchdog through `_cancel`, and shuts the client
        down. The observation task, the listeners and the status are left
        alone. */
    method Shutdown() returns (err: Option<Error>)
      requires Valid()
      modifies this`closedClients, timer`task, loop`tasks
      ensures Valid()
      ensures err == None
      ensures closedClients == old(closedClients) + [client]
      ensures loop.tasks == CancelSlot(old(loop.tasks), reconnectTask)
    {
      if reconnectTask.Some? {
        loop.Cancel(reconnectTask.value);
      }
      err := timer.Cancel();
      closedClients := closedClients + [client];
    }
  }

  /** As written, shutting the coordinator down never shuts its client down. */
  method ShutdownLeavesClientOpen() returns (closed: seq<ClientId>, err: Option<Error>)
    ensures closed == [] && err == Some(AttributeError)
  {
    var loop := new EventLoop();
    var c := new Coordinator("192.0.2.1", 7, map[], loop, 3);
    err := c.ShutdownAsWritten();
    closed := c.closedClients;
  }

  /** A listener added to a fresh coordinator starts observation; the next
      status replaces the old one and calls the listener exactly once. */
  method ObserveOneStatus() returns (calls: seq<ListenerId>, mode: Option<Value>)
    ensures calls == [5] && mode == Some(Str("A"))
  {
    var loop := new EventLoop();
    var c := new Coordinator("192.0.2.1", 7, map["pwr" := Str("1"), "mode" := Str("P")], loop, 3);
    var _ := c.AddListener(5);
    c.StatusArrived(map["pwr" := Str("1"), "mode" := Str("A")]);
    calls := c.notified;
    mode := Lookup(c.status, "mode");
  }

  /** Two reconnects in a row leave exactly one reconnect task running; when
      it succeeds observation restarts on the new client even though no
      listener is registered. */
  method ReconnectTwice() returns (firstRunning: bool, secondRunning: bool, observing: bool, newClient: ClientId)
    ensures !firstRunning && secondRunning && observing && newClient == 8
  {
    var loop := new EventLoop();
    var c := new Coordinator("192.0.2.1", 7, map[], loop, 3);
    c.Reconnect();
    var first := c.reconnectTask.value;
    c.Reconnect();
    firstRunning := loop.IsLive(first);
    secondRunning := loop.IsLive(c.reconnectTask.value);
    c.ReconnectSucceeded(8);
    observing := c.task.Some? && loop.IsLive(c.task.value);
    newClient := c.client;
  }
}
