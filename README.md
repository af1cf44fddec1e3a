# philips-airpurifier-coap, modelled in Dafny

A model of the core of the Home Assistant integration for Philips air purifiers that speak CoAP. The core has three parts.

- **The fan entity** (`philips.py`).
  - Each device class declares capability tables: preset modes and speeds, each a dict from a name to a *pattern* (a partial device status). It also declares a list of extra attributes.
  - The fan collects these tables along its class chain, base class first. Dicts are merged by `update`; lists are concatenated.
  - It reads its state (on/off, preset mode, percentage, oscillation, icon, extra attributes) by matching the device status against the patterns.
  - Its commands write patterns to the device client and, in some cases, update the shared local status optimistically.
  - `PhilipsAC1214` overrides the commands. It writes power-on first only when the fan does not read as on. Then, when the target pattern's mode is not "A" and the current pattern's mode is not "M", it writes the Allergen pattern before the target; this covers a move to Night, from Auto to Auto, and from Auto to a manual speed, but not one from a manual speed to another. A move to a pattern whose mode is not "A" raises `AttributeError` when the status matches no preset, since the current mode cannot be read.
- **The coordinator** (`coordinator.py`). It keeps:
  - the ordered list of listener callbacks;
  - one observation-task slot;
  - one reconnect-task slot;
  - the CoAP client, which a reconnect swaps for a new one;
  - the device status, which every received status replaces wholesale.
- **The watchdog timer** (`timer.py`). A task that sleeps, runs a callback, and sleeps again only with auto-restart. It can be started, cancelled (refused while the callback runs) and reset.

Files:

- `Sequences.dfy`: a fact about sequence concatenation that the proofs share.
- `Values.dfy`: status values, patches, client commands, Python exceptions as error values.
- `Dicts.dfy`: a Python dict as an association list with distinct keys, in insertion order. It covers `d[k] = v`, `d.update(e)` and the fold of `update` over a class chain. The merge is proved against a reference definition (the most derived layer that defines a key).
- `Tasks.dfy`: asyncio tasks as abstract handles that are live, cancelled or done.
- `Timers.dfy`: the `Timer` class.
- `Coordination.dfy`: the `Coordinator` class. Its invariant `Valid` says that at most one observation task and at most one reconnect task run.
- `Philips.dfy`: the configuration a fan collects, the read properties as functions, and every command as a function returning its `Effect` (new local status, client calls in order, exception raised). The class `Fan` performs the commands step by step on the coordinator's status and a log of client calls. Each of its methods is proved to do exactly what the `Effect` function says.
- `PhilipsModels.dfy`: the AC1214 and AC2729 classes as instances. This covers their class chains, collected tables and concrete command outcomes.

The device client, the event loop and the Home Assistant helpers appear only as parameters, logged commands or explicit steps. `set_control_value(s)` calls are appended to a log. `CoAPClient.create` succeeding or failing is a separate method in each case. An expiring timer, a status arriving or a stream ending is a method the caller invokes. `percentage_to_ordered_list_item` and `ordered_list_item_to_percentage` are function parameters (`toItem`, `toPercentage`). Callable value maps are interpreted by a parameter `apply`, and `PresetMode.ICON_MAP` is a parameter `iconMap`.

Behaviour of the code worth noting:
- Removing a callback that is not registered raises `ValueError` (`list.remove`); it is not a no-op.
- Listener callbacks are called in a plain loop, so a raising listener would stop the others. The model takes callbacks as not raising.
- `shutdown` calls `cancel()` on the timer, which has no such method (see Findings).

## Model

| member | source | states |
|---|---|---|
| Dicts.Put | custom_components/philips_airpurifier_coap/philips.py:186-188 | `d[k] = v` keeps the position of an existing key and appends a new one; a dict stays a dict |
| Dicts.PutGet | custom_components/philips_airpurifier_coap/philips.py:186-188 | after `d[k] = v`, `get(k)` is `v` and `get` of every other key is unchanged |
| Dicts.Get | custom_components/philips_airpurifier_coap/philips.py:629 | `get` answers a value iff the key is present, and that value is the one stored under the key |
| Dicts.Update | custom_components/philips_airpurifier_coap/philips.py:188 | `update` keeps a dict a dict; its keys are the existing keys in their order followed by the keys of `e` not already present, in `e`'s order |
| Dicts.UpdateGet | custom_components/philips_airpurifier_coap/philips.py:188 | after `d.update(e)`, `get` answers from `e` for its keys and from `d` for all others |
| Dicts.UpdateFresh | custom_components/philips_airpurifier_coap/philips.py:184-188 | updating with a dict whose keys are all new appends its entries in order, so `{}.update(e)` is `e` |
| Dicts.FreshKeysAppend | custom_components/philips_airpurifier_coap/philips.py:188 | the keys `update` appends for two dicts in a row are those the first appends, then those the second appends that are still new |
| Dicts.MergeLayers | custom_components/philips_airpurifier_coap/philips.py:183-191 | the merged keys are the keys of all layers, base class first, each kept at its first appearance |
| Dicts.MergeLayersSpec | custom_components/philips_airpurifier_coap/philips.py:183-191 | the merged chain is a dict, its keys are exactly the keys of all layers, and each value comes from the most derived layer defining the key |
| Dicts.MergeWellFormed | custom_components/philips_airpurifier_coap/philips.py:183-191 | the merged table has no key twice, so the list of names has no duplicate |
| Dicts.MergeKeys | custom_components/philips_airpurifier_coap/philips.py:183-191 | a key is in the merged table iff some layer defines it |
| Dicts.MergeGet | custom_components/philips_airpurifier_coap/philips.py:183-191 | the merged value of a key is the one of the most derived layer that defines it |
| Dicts.MergeLayersPrefix | custom_components/philips_airpurifier_coap/philips.py:183-191 | the keys of the merge of a prefix of the chain are a prefix of the keys of the whole merge (first-appearance order) |
| Tasks.CancelledAt | custom_components/philips_airpurifier_coap/timer.py:61 | `task.cancel()` makes a running task cancelled, leaves an ended one alone and changes no other task |
| Tasks.EventLoop.Create | custom_components/philips_airpurifier_coap/timer.py:75 | a new task is a fresh handle appended as running |
| Tasks.EventLoop.Cancel | custom_components/philips_airpurifier_coap/timer.py:61 | the task table becomes `CancelledAt` of the old one |
| Tasks.EventLoop.Finish | custom_components/philips_airpurifier_coap/timer.py:49-50 | a running task that returns is done; nothing else changes |
| Timers.Timer.constructor | custom_components/philips_airpurifier_coap/timer.py:11-21 | flags start False; with `autostart` exactly one new running task fills the slot, without it the slot is empty and no task is created |
| Timers.Timer.Start | custom_components/philips_airpurifier_coap/timer.py:73-75 | a task is created only when the slot is empty; otherwise nothing changes (idempotent) |
| Timers.Timer.Cancel | custom_components/philips_airpurifier_coap/timer.py:57-62 | inside the callback it raises `CallbackRunningException` and changes nothing; otherwise it cancels the slot's task and empties the slot |
| Timers.Timer.Reset | custom_components/philips_airpurifier_coap/timer.py:64-71 | outside the callback the old task is cancelled and a fresh one installed; inside it the refusal is swallowed and the running task is kept |
| Timers.Timer.SetTimeout | custom_components/philips_airpurifier_coap/timer.py:52-55 | stores the timeout, then behaves as `reset` |
| Timers.Timer.Expire | custom_components/philips_airpurifier_coap/timer.py:26-31 | once the sleep of a live job runs out, `_in_callback` is set and the callback is called once |
| Timers.Timer.CallbackReturned | custom_components/philips_airpurifier_coap/timer.py:32-50 | `_in_callback` is cleared; with `_auto_restart` the job sleeps again on the same task, otherwise the task ends and the slot still names it |
| Timers.StartAfterExpiry | custom_components/philips_airpurifier_coap/timer.py:73-75 | after a job ends without auto-restart, `start` does not re-arm the timer, but `reset` does |
| Timers.ResetInsideCallback | custom_components/philips_airpurifier_coap/timer.py:64-71 | `reset` from inside the callback keeps the same task, which stays armed with auto-restart |
| Coordination.FirstIndex | custom_components/philips_airpurifier_coap/coordinator.py:127 | the position of the first occurrence of a registered callback |
| Coordination.RemoveFirst | custom_components/philips_airpurifier_coap/coordinator.py:127 | `list.remove` drops exactly the first occurrence: one element fewer, same multiset minus one copy, the rest in order |
| Coordination.RemoveOnceRegistered | custom_components/philips_airpurifier_coap/coordinator.py:127 | a callback registered once is gone after one removal, so a second removal raises (removal is not idempotent) |
| Coordination.Coordinator.constructor | custom_components/philips_airpurifier_coap/coordinator.py:20-45 | no listeners and empty task slots; a watchdog with timeout `60 * MISSED_PACKAGE_COUNT` that is not started and whose `_auto_restart` stays False, since `auto_restart` is a different attribute |
| Coordination.Coordinator.AtMostOneRunning | custom_components/philips_airpurifier_coap/coordinator.py:145-152 | under the invariant at most one observation task and at most one reconnect task are running |
| Coordination.Coordinator.StartObserving | custom_components/philips_airpurifier_coap/coordinator.py:145-152 | cancels the observation task, if any, then installs one new running task; the invariant is kept |
| Coordination.Coordinator.AddListener | custom_components/philips_airpurifier_coap/coordinator.py:105-121 | appends the callback at the end; observation starts iff the list was empty, otherwise tasks are untouched |
| Coordination.Coordinator.RemoveListener | custom_components/philips_airpurifier_coap/coordinator.py:123-131 | an unregistered callback raises `ValueError` and changes nothing; otherwise its first occurrence is removed, and when the list becomes empty the observation task is cancelled and the slot cleared, otherwise the task is untouched |
| Coordination.Coordinator.StatusArrived | custom_components/philips_airpurifier_coap/coordinator.py:136-143 | the received status replaces the old one wholesale, then every listener is called exactly once, in list order |
| Coordination.Coordinator.ObservationEnded | custom_components/philips_airpurifier_coap/coordinator.py:136 | when the status stream ends the observation task is done and nothing restarts it |
| Coordination.Coordinator.Reconnect | custom_components/philips_airpurifier_coap/coordinator.py:69-91 | cancels a reconnect task in flight and installs one new running reconnect task; the invariant is kept |
| Coordination.Coordinator.ReconnectSucceeded | custom_components/philips_airpurifier_coap/coordinator.py:93-99 | the old client was shut down, the new one replaces it, and observation restarts even without listeners; the status is kept |
| Coordination.Coordinator.ReconnectFailed | custom_components/philips_airpurifier_coap/coordinator.py:93-103 | the error is swallowed, the old client stays and no observation starts |
| Coordination.Coordinator.ShutdownAsWritten | custom_components/philips_airpurifier_coap/coordinator.py:47-67 | as written: cancels the reconnect task (the slot stays set), then raises `AttributeError` at the timer's missing `cancel`, so the client is never shut down |
| Coordination.Coordinator.Shutdown | custom_components/philips_airpurifier_coap/coordinator.py:47-67 | as intended: cancels the reconnect task (the slot stays set), cancels the watchdog and shuts the client down; observation task, listeners and status untouched |
| Coordination.ShutdownLeavesClientOpen | custom_components/philips_airpurifier_coap/coordinator.py:64 | on a fresh coordinator, `shutdown` as written raises `AttributeError` and shuts no client down |
| Coordination.ObserveOneStatus | custom_components/philips_airpurifier_coap/coordinator.py:109-143 | the first listener starts observation; the next status replaces the old one and calls that listener exactly once |
| Coordination.ReconnectTwice | custom_components/philips_airpurifier_coap/coordinator.py:69-99 | two reconnects leave only the second reconnect task running; its success restarts observation on the new client without any listener |
| Philips.CollectPresetModes | custom_components/philips_airpurifier_coap/philips.py:183-191 | the loop builds the merge of the chain's preset tables, and the mode list is its keys |
| Philips.CollectSpeeds | custom_components/philips_airpurifier_coap/philips.py:193-201 | the loop builds the merge of the chain's speed tables, and the speed list is its keys |
| Philips.CollectAttributes | custom_components/philips_airpurifier_coap/philips.py:203-210 | the loop builds the base-first concatenation of the layers' attribute lists |
| Philips.ChainAttributes | custom_components/philips_airpurifier_coap/philips.py:203-210 | every attribute of every layer is in the collected list, and every collected attribute comes from some layer |
| Philips.ChainAttributesAppend | custom_components/philips_airpurifier_coap/philips.py:203-210 | concatenation along a chain is compositional, every duplicate kept |
| Philips.CollectedPresets | custom_components/philips_airpurifier_coap/philips.py:183-191 | the collected mode names have no duplicate, are exactly the keys of all layers, and each pattern comes from the most derived layer |
| Philips.Fan.constructor | custom_components/philips_airpurifier_coap/philips.py:162-181 | the fan's tables, name lists and attributes are the collected ones of its chain |
| Philips.IsOn | custom_components/philips_airpurifier_coap/philips.py:212-219 | the fan reads as on iff the status holds the power key and its value equals the class's "on" state |
| Philips.FirstMatchFrom | custom_components/philips_airpurifier_coap/philips.py:278-288 | the first entry from a position on whose pattern matches the status after key replacement; None iff none matches |
| Philips.PresetMode | custom_components/philips_airpurifier_coap/philips.py:274-288 | the first preset in table order whose every (k, v) equals `status.get(k)` after `REPLACE_PRESET`; None iff none matches |
| Philips.Percentage | custom_components/philips_airpurifier_coap/philips.py:347-361 | the converted name of the first matching speed after `REPLACE_SPEED`; None iff no speed matches |
| Philips.Oscillating | custom_components/philips_airpurifier_coap/philips.py:306-324 | None without `KEY_OSCILLATION` or when its key is missing; equality for an int ON value, membership for a list, None for any other type |
| Philips.SupportedFeatures | custom_components/philips_airpurifier_coap/philips.py:254-266 | always PRESET_MODE; SET_SPEED iff there is a speed; OSCILLATE iff `KEY_OSCILLATION` is set |
| Philips.FanIcon | custom_components/philips_airpurifier_coap/philips.py:404-417 | power icon iff off; the preset's icon iff on with a preset in the icon map; the fan-speed icon otherwise |
| Philips.CleanKey | custom_components/philips_airpurifier_coap/philips.py:386 | `partition("#")[0]`: a prefix of the key without '#', cut exactly at the first '#' |
| Philips.AttributeValue | custom_components/philips_airpurifier_coap/philips.py:388-395 | the raw value passes through without a map or when a dict map lacks it; a dict hit gives the mapped value (the first element of a tuple); a callable map gives its result on the raw value and the status |
| Philips.Emit | custom_components/philips_airpurifier_coap/philips.py:380-396 | `append` raises `TypeError` exactly when a list value is looked up in a dict map (a list is unhashable); otherwise it adds the attribute iff its cleaned key is in the status and leaves every other key alone |
| Philips.EmitAll | custom_components/philips_airpurifier_coap/philips.py:398-401 | the loop only raises `TypeError`, and when it does not, it keeps every key already reported |
| Philips.ExtraStateAttributes | custom_components/philips_airpurifier_coap/philips.py:376-402 | `extra_state_attributes` raises, with `TypeError`, iff some entry has a dict map and a list value under its present cleaned key |
| Philips.EmitAllRaises | custom_components/philips_airpurifier_coap/philips.py:398-401 | from any starting dict, the loop raises iff some entry of the list is unhashable |
| Philips.ExtraKeys | custom_components/philips_airpurifier_coap/philips.py:376-402 | when nothing raises, an attribute is reported iff some entry with that name has its cleaned status key present |
| Philips.ExtraLastWins | custom_components/philips_airpurifier_coap/philips.py:388-401 | when nothing raises, the reported value is the raw one, mapped through a dict map that contains it (first tuple element), or passed to a callable map, taken from the last entry of that name whose key is present |
| Philips.EmitAllAppend | custom_components/philips_airpurifier_coap/philips.py:399-401 | the attribute loop over a concatenation is the loop over the second part continued from the first, a raise in the first part ending it |
| Philips.EmitOnto | custom_components/philips_airpurifier_coap/philips.py:380-396 | one `append` on a dict with earlier entries raises exactly as on its own, and otherwise overlays its own result on them |
| Philips.EmitAllOnto | custom_components/philips_airpurifier_coap/philips.py:399-401 | running the loop from a non-empty dict raises exactly as from `{}`, and otherwise overlays the loop's own result on it |
| Philips.ExtraDuplicated | custom_components/philips_airpurifier_coap/philips.py:203-210 | collecting the inherited attribute list twice raises exactly when listing it once does, and otherwise reports the same attributes |
| Philips.TurnOnEffect | custom_components/philips_airpurifier_coap/philips.py:221-242 | the base class never raises; an AC1214 raises only `AttributeError` and never updates the local status |
| Philips.SetPresetModeEffect | custom_components/philips_airpurifier_coap/philips.py:290-298 | the base class never raises; an AC1214 raises only `AttributeError` and never updates the local status |
| Philips.SetPercentageEffect | custom_components/philips_airpurifier_coap/philips.py:363-374 | 0 changes the local status exactly as turn-off does and raises nothing; any other value leaves it unchanged; only an AC1214 can raise, and only `AttributeError` |
| Philips.TurnOffEffect | custom_components/philips_airpurifier_coap/philips.py:244-252 | one write of the "off" state; only the power key changes locally, and the fan then reads as off |
| Philips.Fan.TurnOff | custom_components/philips_airpurifier_coap/philips.py:244-252 | the shared status and the write log change exactly as `TurnOffEffect` says |
| Philips.GenericSetPresetMode | custom_components/philips_airpurifier_coap/philips.py:290-298 | a known non-empty pattern gives exactly one multi-key write and overwrites exactly its keys, every other key unchanged; otherwise no write and no change |
| Philips.PresetModeAfterSet | custom_components/philips_airpurifier_coap/philips.py:290-298 | with `REPLACE_PRESET` unset, after setting a known preset the fan reads as a preset at or before it in table order |
| Philips.GenericSetPercentage | custom_components/philips_airpurifier_coap/philips.py:363-374 | 0 is exactly turn-off; any other value writes the selected speed's pattern (if usable) and leaves the local status unchanged |
| Philips.GenericTurnOn | custom_components/philips_airpurifier_coap/philips.py:221-242 | a preset wins over a percentage; with neither, one write of the "on" state, only the power key changes, and the fan reads as on |
| Philips.OnValue | custom_components/philips_airpurifier_coap/philips.py:337 | an int ON value is written as is; a list gives its first element, and IndexError when empty |
| Philips.OscillateEffect | custom_components/philips_airpurifier_coap/philips.py:326-345 | a no-op without `KEY_OSCILLATION`; otherwise one write of the ON or OFF value to the key, which is set locally; IndexError changes nothing |
| Philips.OscillateThenOscillating | custom_components/philips_airpurifier_coap/philips.py:306-345 | after `async_oscillate(b)` with a usable ON value (and for false an OFF value that is not an ON value), `oscillating` is `b` |
| Philips.Fan.Oscillate | custom_components/philips_airpurifier_coap/philips.py:326-345 | the shared status, writes and error are those of `OscillateEffect` |
| Philips.Fan.SetPresetMode | custom_components/philips_airpurifier_coap/philips.py:290-298 | the shared status, writes and error are those of the class's preset command (base or AC1214) |
| Philips.Fan.SetPercentage | custom_components/philips_airpurifier_coap/philips.py:363-374 | the shared status, writes and error are those of the class's percentage command |
| Philips.Fan.TurnOn | custom_components/philips_airpurifier_coap/philips.py:221-242 | the shared status, writes and error are those of the class's turn-on command |
| Philips.CurrentPattern | custom_components/philips_airpurifier_coap/philips.py:629 | `_available_preset_modes.get(self.preset_mode)` is a pattern iff the status reads as a preset, and on a well-formed table that pattern matches the status |
| Philips.PresetModeListed | custom_components/philips_airpurifier_coap/philips.py:278-288 | the preset the status reads as is one of the collected mode names |
| Philips.PowerOnFirst | custom_components/philips_airpurifier_coap/philips.py:621-627 | no write iff the fan reads as on; otherwise exactly one write of the AC1214 power-on value to the power key |
| Philips.AC1214Switch | custom_components/philips_airpurifier_coap/philips.py:637-645 | `AttributeError` with nothing written iff the target is usable, its mode is not "A" and no current pattern is known; an unusable target writes nothing; otherwise one or two writes, ending with the target, and a first write of two is the Allergen pattern |
| Philips.AC1214SetPresetModeNamed | custom_components/philips_airpurifier_coap/philips.py:616-645 | a named AC1214 command is the power-on prefix followed by the switch from the current pattern to the named one |
| Philips.AC1214SetPresetMode | custom_components/philips_airpurifier_coap/philips.py:616-645 | never updates the local status; the writes start with power-on exactly when the fan reads as off; an empty mode writes nothing more |
| Philips.AC1214SetPresetModeMoves | custom_components/philips_airpurifier_coap/philips.py:629-645 | after the power-on step: AttributeError (and nothing more written) iff the target's mode is not "A" and no preset matches; otherwise [Allergen if the target's mode is not "A" and the current mode is not "M"] then [the target] |
| Philips.AC1214MoveViaAllergen | custom_components/philips_airpurifier_coap/philips.py:637-645 | from a pattern whose mode is not "M" to a target whose mode is not "A", the writes are the Allergen pattern, then the target |
| Philips.AC1214PresetToPreset | custom_components/philips_airpurifier_coap/philips.py:621-645 | on a fan that reads as on, the preset command is exactly the move from the current pattern to the target |
| Philips.AC1214RaisesUnread | custom_components/philips_airpurifier_coap/philips.py:629-641 | from a status matching no preset, a target whose mode is not "A" gives the power-on step and then AttributeError |
| Philips.AC1214SetPercentage | custom_components/philips_airpurifier_coap/philips.py:647-679 | the writes start with power-on exactly when off; 0 is then the base turn-off; any other value leaves the local status unchanged |
| Philips.AC1214SetPercentageMoves | custom_components/philips_airpurifier_coap/philips.py:660-679 | for a non-zero percentage, after the power-on step, the same move as for a preset, to the selected speed's pattern |
| Philips.AC1214ZeroPercentWhenOff | custom_components/philips_airpurifier_coap/philips.py:653-664 | 0% on an AC1214 that is off writes power-on and then power-off |
| Philips.AC1214TurnOn | custom_components/philips_airpurifier_coap/philips.py:681-709 | never updates the local status; the writes start with power-on exactly when off; with neither argument that is all |
| Philips.AC1214TurnOnDelegates | custom_components/philips_airpurifier_coap/philips.py:702-709 | a preset wins over a percentage; after the power-on step the writes and error are those of the delegated AC1214 command |
| Philips.AC1214TurnOnWhenOff | custom_components/philips_airpurifier_coap/philips.py:695-704 | turning an AC1214 that reads as off on with a preset writes power-on twice first, and it still reads as off locally |
| Philips.Fan.TurnOnAC1214 | custom_components/philips_airpurifier_coap/philips.py:681-709 | the write log grows by exactly the writes of `AC1214TurnOn`, with its error |
| Philips.Fan.PowerOnIfOff | custom_components/philips_airpurifier_coap/philips.py:621-627 | the power-on write is made exactly when the fan reads as off |
| Philips.Fan.SwitchAC1214 | custom_components/philips_airpurifier_coap/philips.py:606-614 | `async_set_a` and the target write produce exactly the move `AC1214Switch` describes |
| Philips.Fan.SetPresetModeAC1214 | custom_components/philips_airpurifier_coap/philips.py:616-645 | the write log grows by exactly the writes of `AC1214SetPresetMode`, with its error |
| Philips.Fan.SetPercentageAC1214 | custom_components/philips_airpurifier_coap/philips.py:647-679 | the shared status, writes and error are those of `AC1214SetPercentage` |
| Philips.Fan.SetSpeedAC1214 | custom_components/philips_airpurifier_coap/philips.py:665-679 | for a non-zero percentage the write log grows by exactly the writes of `AC1214SetPercentage` |
| PhilipsModels.AC1214PresetsWellFormed | custom_components/philips_airpurifier_coap/philips.py:587-595 | the AC1214 preset table is a dict with seven modes in declaration order |
| PhilipsModels.AC1214SpeedsWellFormed | custom_components/philips_airpurifier_coap/philips.py:596-602 | the AC1214 speed table is a dict with five speeds in declaration order |
| PhilipsModels.AC2729PresetsWellFormed | custom_components/philips_airpurifier_coap/philips.py:718-747 | the AC2729 preset table is a dict with seven modes in declaration order |
| PhilipsModels.AC2729SpeedsWellFormed | custom_components/philips_airpurifier_coap/philips.py:748-774 | the AC2729 speed table is a dict with five speeds in declaration order |
| PhilipsModels.MergeOwnTable | custom_components/philips_airpurifier_coap/philips.py:183-191 | when every class before the device class has empty tables, the merge is the device class's own table in its own order |
| PhilipsModels.MergeEmpty | custom_components/philips_airpurifier_coap/philips.py:183-191 | merging empty tables gives the empty table |
| PhilipsModels.ChainsListGenericTwice | custom_components/philips_airpurifier_coap/philips.py:203-210 | both device chains collect the generic attribute list twice |
| PhilipsModels.AC1214PresetsMerged | custom_components/philips_airpurifier_coap/philips.py:584-595 | the AC1214 chain collects exactly its own preset table |
| PhilipsModels.AC1214SpeedsMerged | custom_components/philips_airpurifier_coap/philips.py:584-602 | the AC1214 chain collects exactly its own speed table |
| PhilipsModels.AC2729PresetsMerged | custom_components/philips_airpurifier_coap/philips.py:712-747 | the AC2729 chain, through the humidifier mixin, collects exactly its own preset table |
| PhilipsModels.AC2729SpeedsMerged | custom_components/philips_airpurifier_coap/philips.py:712-774 | the AC2729 chain collects exactly its own speed table |
| PhilipsModels.AC1214Config | custom_components/philips_airpurifier_coap/philips.py:584-604 | the configuration an AC1214 collects satisfies the configuration invariant |
| PhilipsModels.AC2729Config | custom_components/philips_airpurifier_coap/philips.py:712-776 | the configuration an AC2729 collects satisfies the configuration invariant |
| PhilipsModels.BuildAC1214 | custom_components/philips_airpurifier_coap/philips.py:584-604 | constructing the fan of an AC1214 gives exactly that configuration and an empty write log |
| PhilipsModels.BuildAC2729 | custom_components/philips_airpurifier_coap/philips.py:712-776 | constructing the fan of an AC2729 gives exactly that configuration and an empty write log |
| PhilipsModels.Mismatch | custom_components/philips_airpurifier_coap/philips.py:283-286 | a pattern with one key whose status value differs does not match |
| PhilipsModels.SkipEntry | custom_components/philips_airpurifier_coap/philips.py:278-288 | the scan passes over an entry that does not match |
| PhilipsModels.AC1214PresetEntries | custom_components/philips_airpurifier_coap/philips.py:587-592 | `get` on the AC1214 preset table answers the declared patterns of Auto, Allergen, speed 1 and speed 2 |
| PhilipsModels.AC1214ReadsAuto | custom_components/philips_airpurifier_coap/philips.py:274-288 | every status in mode "P" reads as Auto |
| PhilipsModels.AC1214ReadsSpeed2 | custom_components/philips_airpurifier_coap/philips.py:274-288 | every status in mode "M" at speed "2" reads as speed 2 |
| PhilipsModels.AC1214AutoPattern | custom_components/philips_airpurifier_coap/philips.py:629 | in mode "P" the current pattern is Auto's |
| PhilipsModels.AC1214Speed2Pattern | custom_components/philips_airpurifier_coap/philips.py:629 | in mode "M" at speed "2" the current pattern is speed 2's |
| PhilipsModels.AC1214AllergenEntry | custom_components/philips_airpurifier_coap/philips.py:611 | the pattern `async_set_a` writes is mode "A" |
| PhilipsModels.ManualPattern | custom_components/philips_airpurifier_coap/philips.py:590-593 | a manual AC1214 pattern is non-empty and sets mode "M" |
| PhilipsModels.AC1214PoweredIsOn | custom_components/philips_airpurifier_coap/philips.py:212-219 | an AC1214 whose power key holds "1" reads as on |
| PhilipsModels.AC1214UnpoweredIsOff | custom_components/philips_airpurifier_coap/philips.py:212-219 | an AC1214 whose power key does not hold "1" reads as off |
| PhilipsModels.AC1214AutoToManual | custom_components/philips_airpurifier_coap/philips.py:637-645 | from Auto to a manual speed the AC1214 writes the Allergen pattern first |
| PhilipsModels.AC1214MoveDirect | custom_components/philips_airpurifier_coap/philips.py:637-645 | from a manual pattern to a manual pattern it writes the target alone |
| PhilipsModels.AC1214AutoToSpeed1 | custom_components/philips_airpurifier_coap/philips.py:616-645 | an AC1214 on in Auto asked for speed 1 writes Allergen and then speed 1, with no power-on and no local change |
| PhilipsModels.AC1214Speed2ToSpeed1 | custom_components/philips_airpurifier_coap/philips.py:616-645 | an AC1214 on at speed 2 asked for speed 1 writes speed 1 alone |
| PhilipsModels.AC1214NoModeNoPreset | custom_components/philips_airpurifier_coap/philips.py:274-288 | every AC1214 preset sets the mode, so a status without a mode reads as no preset |
| PhilipsModels.AC1214UnknownStateRaises | custom_components/philips_airpurifier_coap/philips.py:621-641 | an AC1214 that is off with no mode asked for speed 1 writes power-on and then raises AttributeError |
| PhilipsModels.AC2729ReadsSpeed2 | custom_components/philips_airpurifier_coap/philips.py:274-288 | an AC2729 status that is on in mode "M" at speed "2" reads as speed 2 |
| PhilipsModels.AC2729Speed2Entry | custom_components/philips_airpurifier_coap/philips.py:732-736 | `get` on the AC2729 preset table answers the declared speed 2 pattern |
| PhilipsModels.PoweredOverwrites | custom_components/philips_airpurifier_coap/philips.py:297 | writing a three-key pattern into the status sets those three keys |
| PhilipsModels.AC2729SetThenRead | custom_components/philips_airpurifier_coap/philips.py:290-298 | setting speed 2 on an AC2729 from any status writes its pattern once and makes the fan read as on and as speed 2 |

## Left out

- A `set_control_value(s)` call that raises is not modelled. In the code such a call ends the command before the optimistic local update (philips.py:237-241, 247-251, 297-298, and before the later AC1214 writes). The model takes every write as succeeding.
- CoAP I/O: `set_control_value(s)` calls are a log of commands; `observe_status`, `CoAPClient.create` and `client.shutdown()` are explicit steps or outcomes given by the caller, and an error in `client.shutdown()` (swallowed in `_reconnect`) is not distinguished.
- asyncio scheduling: interleavings, `asyncio.sleep` (including the one-second pause of the AC1214), real timeouts and the cancellation message are not modelled; tasks are handles that are live, cancelled or done.
- The `RuntimeError` branch of `Timer._job` (event loop shutting down) depends on runtime event-loop state and is not modelled; callback failures are modelled as returning normally, since they are logged and swallowed.
- The percentage helpers of Home Assistant are not part of this model; they are the uninterpreted parameters `toItem` and `toPercentage`, and nothing is assumed about their arithmetic.
- Callable value maps (the RUNTIME lambda with float division, `round` and `timedelta`) are opaque and interpreted by the parameter `apply`.
- `PresetMode.ICON_MAP` and the icon constants are the parameter `iconMap` and opaque icons; const.py is not part of this model, so PhilipsApi keys and PresetMode names are stand-in strings that only need to differ from each other, and `PhilipsApi.POWER_MAP[SWITCH_ON]`, the value the AC1214 writes to power on, is the stand-in `"1"`. The base class's own "on" and "off" states, `"1"` and `"0"`, are the values of philips.py:157-158.
- `_handle_coordinator_update` (writing Home Assistant state), logging, and the DeviceInfo construction of `PhilipsGenericFan.__init__`.
- The other device classes of philips.py; AC1214 and AC2729 stand for the two command styles, and the lights, switches, selects and sensor lists are not collected.
- `preset_modes` and `speed_count` are plain reads of the collected name lists (`cfg.presetModes`, `|cfg.speedNames|`).
- Python bool-is-int: `isinstance(on, int)` is also true for a bool ON value; the model has no bool values.
- A status key holding `None` is treated as a missing key in the oscillation read.
- The order of the dicts returned by `extra_state_attributes` and of the device status: both are maps, so insertion order is not modelled (the preset and speed tables, where order matters, are ordered).
- `ValidConfig` assumes the AC1214 table has an Allergen preset, as the class declares; a subclass without one would send `set_control_values(data=None)`, which is not modelled.
- Listener and remover callbacks are identified by a number and are taken as not raising; a raising listener would stop the loop in `_async_observe_status`.
- __init__.py, fan.py, switch.py and config_entry_data.py are Home Assistant glue and are not part of this model.
- Philips.AC1214SetPresetMode: its own contract states the status, the power-on prefix and the empty-mode case only; the move after the prefix is stated by Philips.AC1214SetPresetModeMoves.
- Philips.AC1214SetPercentage: its own contract does not state the move for a non-zero percentage; Philips.AC1214SetPercentageMoves states it.
- Philips.AC1214TurnOn: its own contract does not state the delegated cases; Philips.AC1214TurnOnDelegates states them.

## Findings

| source | as written | input that shows it | evidently intended | confidence | as-written member | corrected member |
|---|---|---|---|---|---|---|
| custom_components/philips_airpurifier_coap/coordinator.py:64 | `shutdown` calls `cancel()` on the watchdog `Timer`, which defines only `_cancel`, so the call raises `AttributeError` before `client.shutdown()` | any call of `shutdown` on a coordinator (the watchdog is always set) | cancel the watchdog through `_cancel` and then shut the client down | high, not executed | Coordination.Coordinator.ShutdownAsWritten | Coordination.Coordinator.Shutdown |
