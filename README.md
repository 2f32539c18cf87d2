# localtuya device session, modelled in Dafny

This project models the core of the localtuya Home Assistant integration,
`custom_components/localtuya/common.py`. The core is `TuyaDevice`, the
per-device session manager. It keeps one link to a Tuya device alive:
- it connects with a capped random backoff;
- it retries after failures;
- it reconnects after a disconnection unless the device is passive;
- it caches the datapoint (DP) values the device reports;
- it publishes every change to the device's entities.

Beside it sit the entity-side rules of `LocalTuyaEntity` and the two
configuration helpers, `get_entity_config` and `prepare_setup_entities`.

Files and modules:

- `values.dfy` (`Values`): datapoint values, the status cache type
  (`map<string, Value>`), and `DecimalString`, which is Python's `str()` of a
  datapoint index.
- `backoff.dfy` (`Backoff`): `min(randrange(2 ** attempts), 300)`. The random
  draw is a parameter `r` with `0 <= r < 2^attempts`.
- `config.dfy` (`Config`): the config entry, `get_entity_config` (a `Result`
  whose error is the "missing entity config" exception), the platform filter
  and `prepare_setup_entities`.
- `session.dfy` (`TuyaSession`): the session as a state machine over values.
  The coroutine `_make_connection` is split at its three awaits into the stages
  `Sleeping`, `Opening` and `Fetching`. A cancelled task is the stage
  `Cancelled`. Each resumption of an await, each call and each link callback is
  an `Event`, and `Step` applies one event. `loop.call_soon(self.connect)` is a
  counter of queued connects plus the event that runs one. The dispatcher is the
  append-only log `published`. The link's `close()` and `set_dp()` are the logs
  `closedLinks` and `writes`.
- `session_props.dfy` (`SessionProps`): properties of single events, the
  invariant, and properties of event sequences (proved by induction).
- `device.dfy` (`Device`): the class `TuyaDevice`. Its fields are the
  attributes the source mutates, plus the logs the model adds (`registered`,
  `published`, `pendingConnects`, `closedLinks`, `writes`). Every method is
  proved to move `State()` as `Step` does on its event (`ConnectFailed`, the
  shared failure path, as `TuyaSession.ConnectFailed` does), so the
  properties in `SessionProps` hold of the object.
- `entity.dfy` (`Entity`): the class `LocalTuyaEntity` and its update handler.
  `available`, `dps` and `device_state_attributes` are functions of the
  entity's view (its status copy and last-seen time). `has_config` is a
  function of the entity's configuration, and `unique_id` of the device id
  and the datapoint.
- `wiring.dfy` (`Wiring`): what an entity holds after handling the events its
  device publishes.

In these places the model follows the code, which is easy to misread:
- The device cache `_status` is never cleared. Only the entities of a
  non-passive device empty their own copy on a disconnection. After a reconnect,
  the device publishes the fresh status merged into the old cache, so keys from
  before the disconnection reach the entities again
  (`SessionProps.StaleKeysSurviveReconnect`, `Wiring.StaleKeysReachEntity`).
- Only a `None` initial status fails an attempt. An empty status is a success
  (`SessionProps.EmptyStatusIsSuccess`).
- `set_dp` returns nothing. A write while disconnected is only logged.
- `close()` does not drop `_interface`, and the cancelled task is never cleared.
  A device that was connected still reads as connected after `close()` until its
  link reports the disconnection. Link callbacks after `close()` still publish.

The model also shows one likely gap in the code, listed under "## Findings".

## Model

| member | source | states |
|---|---|---|
| `Values.DecimalStringInjective` | custom_components/localtuya/common.py:316-318 | distinct datapoint indices have distinct `str()` keys in a status map |
| `Backoff.Delay` | custom_components/localtuya/common.py:145-147 | the backoff is the random draw capped at 300: the draw itself or 300, never above either, below `2^attempts`, and 0 when there were no failures |
| `Backoff.CapUnreachableBeforeNineFailures` | custom_components/localtuya/common.py:145-147 | with at most 8 failures the random draw is used unchanged (the cap never applies) |
| `Backoff.CapReachedAfterNineFailures` | custom_components/localtuya/common.py:145-147 | from 9 failures on, every draw of 300 or more is capped to exactly 300 |
| `Config.GetEntityConfig` | custom_components/localtuya/common.py:94-99 | finds a config exactly when some entity has the id; the result is the first such entity; otherwise the "missing entity config" error |
| `Config.EntitiesForPlatform` | custom_components/localtuya/common.py:40-44 | keeps exactly the entities of the platform, each as often as it is configured |
| `Config.EntitiesForPlatformAppend` | custom_components/localtuya/common.py:40-44 | the filter keeps configuration order: filtering a concatenation concatenates the filtered parts |
| `Config.EntitiesForPlatformSingle` | custom_components/localtuya/common.py:40-44 | one entity is kept iff its platform matches |
| `Config.PrepareSetupEntities` | custom_components/localtuya/common.py:38-50 | nothing to set up iff no entity has the platform; otherwise the stored device and exactly the filtered list (order and repetitions included); a missing device is an error only when there is something to set up |
| `SessionProps.ConnectStartsOnlyFromIdle` | custom_components/localtuya/common.py:125-142 | `connect` changes the state iff the device is not closing and holds neither an attempt nor a link; it then only starts an attempt sleeping a capped backoff |
| `SessionProps.ConnectIdempotent` | custom_components/localtuya/common.py:125-133 | a second `connect` after the first changes nothing |
| `SessionProps.ConnectBurstStartsOneAttempt` | custom_components/localtuya/common.py:125-142 | any run of direct `connect()` calls has exactly the effect of the first: at most one attempt in flight |
| `SessionProps.NoEventRestartsAttempt` | custom_components/localtuya/common.py:125-135 | no event starts an attempt while one is held; a direct, queued or `disconnected` connect leaves a held handle as it is |
| `SessionProps.ConnectCallsKeepAttempt` | custom_components/localtuya/common.py:125-135 | while an attempt is held, any mix of direct, queued and `disconnected` connects keeps that attempt and its failure count |
| `SessionProps.QueuedConnectAfterDirectConnect` | custom_components/localtuya/common.py:170-177 | after a failure queues a connect and an entity's `connect` starts the next attempt, the queued connect runs and starts nothing |
| `SessionProps.AttemptSucceeds` | custom_components/localtuya/common.py:164-177 | a returned status is merged into the cache and published; the count is reset to 0 and the handle cleared; connected iff the link is still held |
| `SessionProps.EmptyStatusIsSuccess` | custom_components/localtuya/common.py:164-166 | an empty status resets the count; only `None` raises it |
| `SessionProps.AttemptFails` | custom_components/localtuya/common.py:170-177 | a failure raises the count by exactly 1, closes and drops a stored link, queues exactly one `connect`, clears the handle, and leaves cache and publications alone |
| `SessionProps.OpenedLinkRequestsAllDps` | custom_components/localtuya/common.py:154-161 | the opened link is stored and handed every requested datapoint |
| `SessionProps.CloseEffects` | custom_components/localtuya/common.py:179-185 | `close` sets closing, turns an attempt in flight into a cancelled handle, closes but keeps the link, so a connected device stays connected |
| `SessionProps.SetDpLeavesConnectionAlone` | custom_components/localtuya/common.py:187-197 | `set_dp` never changes link, attempt, count, closing, cache or publications; it forwards the write iff a link is held |
| `SessionProps.StatusUpdateMerges` | custom_components/localtuya/common.py:199-205 | the cache gains or overwrites exactly the updated keys, keeps all others, and the whole merged cache is published |
| `SessionProps.MergeKeepsEarlierKeys` | custom_components/localtuya/common.py:199-202 | updates `{"1": "on"}` then `{"2": "5"}` leave both keys cached |
| `SessionProps.DisconnectedEffects` | custom_components/localtuya/common.py:207-221 | publishes `None`, drops the link, keeps the cache; a passive device keeps its attempt state, any other starts an attempt iff not closing and no handle is held |
| `SessionProps.StepPreservesInv` | custom_components/localtuya/common.py:125-221 | every event keeps the invariant: no link while sleeping or opening, cancelled only when closing, no live attempt when closing, backoff within the cap |
| `SessionProps.RunPreservesInv` | custom_components/localtuya/common.py:125-221 | every sequence of events keeps the invariant |
| `SessionProps.ReachableSatisfiesInv` | custom_components/localtuya/common.py:105-221 | every state reached from a new device satisfies the invariant |
| `SessionProps.NoAttemptAfterClose` | custom_components/localtuya/common.py:125-186 | once closing, after any events: still closing, no attempt running, count frozen, a cancelled handle never cleared |
| `SessionProps.CloseIsFinal` | custom_components/localtuya/common.py:179-183 | whatever happened before and after `close`, no attempt runs afterwards |
| `SessionProps.AttemptsCountFailures` | custom_components/localtuya/common.py:164-172 | after any valid run the count is the number of failures since the last success (plus the start count if none succeeded) |
| `SessionProps.ConsecutiveFailures` | custom_components/localtuya/common.py:170-172 | after k failures and no success from a count of 0, the count is k |
| `SessionProps.PassiveNeverReconnects` | custom_components/localtuya/common.py:217-221 | a passive, idle device that nobody calls `connect` on never starts an attempt, whatever the link reports |
| `SessionProps.ActiveReconnectsOnDisconnect` | custom_components/localtuya/common.py:217-219 | an idle non-passive device starts an attempt when the link reports a disconnection |
| `SessionProps.LogsOnlyGrow` | custom_components/localtuya/common.py:109-221 | requested datapoints only grow; published, closed-link and write logs are only appended; the cache never loses a key |
| `SessionProps.StaleKeysSurviveReconnect` | custom_components/localtuya/common.py:199-221 | after disconnect and reconnect a key missing from the fresh status is still cached and published |
| `SessionProps.SuccessAfterLostLinkIsNotRetried` | custom_components/localtuya/common.py:164-177 | as written: a disconnection during the status fetch followed by a returned status leaves no link, no attempt and no queued connect |
| `SessionProps.CorrectedCompletionNeverStrands` | custom_components/localtuya/common.py:164-177 | with the corrected step, an ending attempt leaves the device connected or counts a failure and queues a connect; connected iff a status came back and the link is still held |
| `SessionProps.CorrectedLostLinkIsRetried` | custom_components/localtuya/common.py:164-177 | with the corrected step, the lost-link run counts a failure and queues a connect that starts a new attempt |
| `Device.TuyaDevice.constructor` | custom_components/localtuya/common.py:105-118 | a new device is idle with an empty cache and requests the datapoint of every configured entity |
| `Device.TuyaDevice.AddDpsToRequest` | custom_components/localtuya/common.py:72-74 | adds exactly the given datapoints to the requested set and changes nothing else |
| `Device.TuyaDevice.Connected` | custom_components/localtuya/common.py:120-123 | connected iff a link is held and no attempt handle is set |
| `Device.TuyaDevice.Connect` | custom_components/localtuya/common.py:125-142 | updates the object as `connect` does on the state machine |
| `Device.TuyaDevice.RunScheduledConnect` | custom_components/localtuya/common.py:176 | a queued connect is consumed and runs `connect` |
| `Device.TuyaDevice.BackoffElapsed` | custom_components/localtuya/common.py:145-153 | the backoff sleep ends and the attempt moves on to opening the link |
| `Device.TuyaDevice.LinkOpened` | custom_components/localtuya/common.py:154-164 | stores the link, hands it the requested datapoints, and moves on to fetching the status |
| `Device.TuyaDevice.LinkFailed` | custom_components/localtuya/common.py:152-177 | opening the link failed: the failure path |
| `Device.TuyaDevice.StatusFetched` | custom_components/localtuya/common.py:164-177 | `None` takes the failure path; anything else is merged, published, and resets the count and the handle |
| `Device.TuyaDevice.ConnectFailed` | custom_components/localtuya/common.py:170-177 | the `except` branch and the clearing of the handle, field by field |
| `Device.TuyaDevice.Close` | custom_components/localtuya/common.py:179-185 | updates the object as `close` does on the state machine |
| `Device.TuyaDevice.SetDp` | custom_components/localtuya/common.py:187-197 | updates the object as `set_dp` does on the state machine |
| `Device.TuyaDevice.StatusUpdated` | custom_components/localtuya/common.py:199-205 | updates the object as `status_updated` does on the state machine |
| `Device.TuyaDevice.Disconnected` | custom_components/localtuya/common.py:207-221 | updates the object as `disconnected` does on the state machine |
| `Device.ThreeFailuresThenSuccess` | custom_components/localtuya/common.py:144-177 | three failed opens, then one success: the count is 0, the device is connected, and the snapshot was published exactly once |
| `Entity.Dps` | custom_components/localtuya/common.py:320-330 | the cached value under the index's `str()` key, `None` exactly when it is unknown |
| `Entity.StateAttributes` | custom_components/localtuya/common.py:286-293 | empty without a last-seen time; otherwise exactly the last-seen time and the old status |
| `Entity.HasConfig` | custom_components/localtuya/common.py:310-313 | false for absent options, `None` and the string "-1"; true otherwise (the integer -1 included) |
| `Entity.UniqueId` | custom_components/localtuya/common.py:305-308 | `local_`, then the device id, then `_`, then the datapoint's decimal digits |
| `Entity.UniqueIdInjective` | custom_components/localtuya/common.py:305-308 | equal unique ids mean the same device id and the same datapoint |
| `Entity.SnapshotReplacesStatus` | custom_components/localtuya/common.py:244-247 | a snapshot replaces the entity status and clears last-seen; available iff the snapshot has the entity's datapoint |
| `Entity.PassiveDisconnectKeepsStatus` | custom_components/localtuya/common.py:248-250 | `None` on a passive device keeps the status and availability and records the time |
| `Entity.ActiveDisconnectMakesUnavailable` | custom_components/localtuya/common.py:251-253 | `None` on any other device empties the status: unavailable, `dps` unknown, no attributes |
| `Entity.Available` | custom_components/localtuya/common.py:315-318 | `available` iff `dps` of the entity's own datapoint is not `None` (over the modelled values, which are never null) |
| `Entity.HandleUpdate` | custom_components/localtuya/common.py:242-255 | a snapshot replaces the status and clears last-seen; `None` keeps the status and records the time on a passive device, empties it otherwise; last-seen is set iff a passive device disconnected; availability then follows the snapshot, or the old status on a passive device, and is false otherwise |
| `Entity.LocalTuyaEntity.constructor` | custom_components/localtuya/common.py:227-234 | a new entity has an empty status and no last-seen time |
| `Entity.LocalTuyaEntity.UpdateHandler` | custom_components/localtuya/common.py:242-255 | the entity's status and last-seen change as the update handler rule says |
| `Entity.NewEntity` | custom_components/localtuya/common.py:227-234 | creating an entity fails with the missing-config error exactly when no entity is configured for the datapoint |
| `Wiring.FollowerHoldsLastSnapshot` | custom_components/localtuya/common.py:242-247 | an entity that handled a published sequence ending in a snapshot holds exactly that snapshot |
| `Wiring.PassiveFollowerKeepsSnapshot` | custom_components/localtuya/common.py:248-250 | a passive device's entity keeps its status through any run of disconnections |
| `Wiring.EntitySeesMergedCache` | custom_components/localtuya/common.py:199-205 | after a link update every entity holds the device's whole merged cache |
| `Wiring.DisconnectReachesEntity` | custom_components/localtuya/common.py:207-215 | after a disconnection a passive device's entities keep their status, and any other device's entities become unavailable |
| `Wiring.StaleKeysReachEntity` | custom_components/localtuya/common.py:202-205 | after disconnect and reconnect an entity gets back a key the fresh status lacks |

## Left out

- asyncio: `ensure_future`, `sleep`, `cancel` and `call_soon` are explicit events. Between two events any other event may occur; real timing is not modelled.
- Cancellation follows Python 3.8 and later: `close()` cancels the attempt at its current await, and `CancelledError` is not an `Exception` there, so the line that clears `_connect_task` never runs. The model keeps a `Cancelled` handle forever. On Python 3.7, `except Exception` catches the cancellation: the attempt counts a failure, closes and drops the link, queues a connect and clears its handle. That behaviour is not modelled.
- The pytuya link (`pytuya.connect`, `status()`, `set_dp`, `add_dps_to_request`, `close()`) is opaque. Its results are the events `LinkOpened`/`LinkFailed` and `StatusFetched(Some | None)`. An exception from `status()` or `add_dps_to_request` is the same failure path as a `None` status. `set_dp` raising on the link is only logged in the source, so it is not distinguished from success.
- Device.TuyaDevice.Connect: the backoff draw is taken when the attempt is created rather than when its coroutine first runs. The attempt count cannot change in between, so the draw range is the same.
- Host, local key and `float(protocol_version)` are only handed to `pytuya.connect` and to log lines. They are not modelled. The device id is modelled where it builds `unique_id` (`Entity.UniqueId`). Its other uses are out: the dispatcher signal name `localtuya_<device id>` (one per-device publish log stands for it) and the `device_info` identifier.
- The passive-device flag is read with `[...]` in `disconnected` and `_update_handler`, so a config entry without it raises `KeyError` there. The model assumes the flag is always present (`ConfigEntry.passive` is a `bool`).
- The dispatcher's signal names and subscription handling are a per-device publish log. In the source, a published snapshot is the device's own dict, which the entity then aliases. The model publishes a value copy, so the aliasing is not captured.
- Entity-side `schedule_update_ha_state`, the `status_updated` hook for subclasses, `name`, `should_poll`, `device_info`, `dps_conf`, the restore of the last state (`async_get_last_state`, `fromisoformat`) and `datetime.now()` are out. The time is a parameter `now`.
- `get_dps_for_platform` (schema introspection) and `async_setup_entry` are out. The exception is its insertion loop into the requested datapoints (`Device.TuyaDevice.AddDpsToRequest`).
- Datapoint ids are non-negative integers. Entity options other than id, platform and friendly name are a map.
- Datapoint values are bool, int or string. JSON `null` and floats are not modelled, so `dps` returns `None` only for an absent key. In the source, a datapoint reported as `null` is available while `dps` returns `None`; `Entity.Available` and `Entity.Dps` do not cover that case.
- Entity.HasConfig: only looks in the options map, so on `id`, `platform` or `friendly_name` it returns false where the source returns true (those keys are always set).
- The attribute names `last_seen` and `old_state` come from `const.py`, which is not part of this model. Only the fact that they are distinct is used.
- Logging.

## Findings

| source | as written | input that shows it | evidently intended | confidence | as-written member | corrected member |
|---|---|---|---|---|---|---|
| custom_components/localtuya/common.py:164-177 | a status that comes back after `disconnected` dropped the link counts as a success: the attempt ends with no link, and the `connect` that `disconnected` called did nothing because the attempt handle was still set, so no reconnect is queued | a non-passive device in `interface.status()`; the link calls `disconnected`; `status()` then returns a dict | the attempt takes the failure path (counts a failure, queues a connect) when the link is gone | plausible, not executed; whether pytuya's `status()` can return after a disconnect is not part of this model | `SessionProps.SuccessAfterLostLinkIsNotRetried` | `TuyaSession.CorrectedStep`, with `SessionProps.CorrectedCompletionNeverStrands` and `SessionProps.CorrectedLostLinkIsRetried` |

The rest of the model keeps `Step`, the code as written. `CorrectedStep` differs from it only in that one case.

