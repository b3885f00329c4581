# La Marzocco integration for Home Assistant: a Dafny model of its core

This project models the sequential logic of the La Marzocco espresso machine
integration for Home Assistant and proves properties of it. It covers five
parts:

- **Update coordinator (`LmApiCoordinator`).**
  - Initialises the cloud client, retrying until the first success.
  - Starts the websocket at most once, only when the `use_websocket` option
    is on.
  - Pulls the machine status on every pass that gets past initialisation.
  - Maps every failure to `ConfigEntryAuthFailed` or `UpdateFailed`.
  - Copies a pushed brew-active flag into the client.
- **Local client (`LaMarzocco(LMDirect)`).**
  - Keeps a status dictionary that starts as `{POWER: 0}`.
  - On each library callback, merges the message into it with `dict.update`
    and stamps the receive time and the update-available flag.
  - Records the firmware version once.
  - Runs a poll loop that a run flag stops and that tolerates only
    connection-reset socket errors.
- **Entity base.** Builds the entity name and unique id. Derives the extra
  state attributes from the per-model attribute table and the status
  dictionary.
- **Switch platform.** The attribute tables, the five switch descriptions, the
  model filter of its setup, the `is_on` reading of each switch, and the
  True/False argument of turn on and turn off.
- **Binary sensor platform.**
  - The water reservoir and brew active sensors.
  - A setup loop that filters by model and by the websocket option. Here the
    option defaults to on; the coordinator defaults it to off.
  - The `is_on` and `available` readings.

The two stateful parts are Dafny classes whose fields mirror the Python
object's fields. Each method's postcondition ties the new state to a pure
step function: `UpdateData` for the coordinator, `Received`/`NoteFirmware`
for the callback, and `FetchLoop` for the poll loop. The lemmas about runs of
many steps are stated over those functions.

The awaited calls into the device libraries are inputs of type `Outcome`:
`hass_init`, `update_local_machine_status`, `request_status`, and the
setter a switch's turn on or turn off awaits. The websocket connection
(`websocket_connect`) is only counted as a scheduled task; what it does is
not modelled. The current time is a parameter given in microseconds. The
coordinator's websocket task is counted and each scheduled device-info
update is recorded by the firmware version passed to it. The polling task is
a three-state field (no task, running, cancelled), so a second `init_data`,
which creates a second task, cannot be told apart from the first.

The files are organised as follows:

- `common.dfy`: status values with Python truthiness, `dict.get` and
  `dict[...]`, call outcomes, the shared constant names, and a subsequence
  predicate for "order is kept".
- `coordinator.dfy`, `api.dfy`, `entity.dfy`, `switch.dfy` and
  `binary_sensor.dfy`: one module per source file.

## Model

| member | source | states |
|---|---|---|
| `Values.Get` | custom_components/lamarzocco/binary_sensor.py:48-49 | `dict.get`: the stored value, or None when the key is missing |
| `Values.Truthy` | custom_components/lamarzocco/api.py:58 | Python truth value: exactly None, False, zero, 0.0 and the empty string are falsy |
| `Values.OptionOr` | custom_components/lamarzocco/coordinator.py:42 | `options.get(key, default)`: the stored option, or the default when it is absent |
| `Values.Index` | custom_components/lamarzocco/switch.py:126 | `dict[key]`: KeyError exactly when the key is missing, otherwise the stored value |
| `Coordinator.UseWebsocket` | custom_components/lamarzocco/coordinator.py:42 | the coordinator's websocket option is off when the option is absent |
| `Coordinator.Initial` | custom_components/lamarzocco/coordinator.py:39-42 | a new coordinator is uninitialised, has made no call and reads the option with default False |
| `Coordinator.MapError` | custom_components/lamarzocco/coordinator.py:57-64 | AuthFail and only AuthFail becomes ConfigEntryAuthFailed; every other exception becomes UpdateFailed |
| `Coordinator.Pull` | custom_components/lamarzocco/coordinator.py:56-66 | the status pull is counted and changes nothing else; the pass returns the client iff the pull succeeded, and raises ConfigEntryAuthFailed iff it failed with AuthFail |
| `Coordinator.UpdateData` | custom_components/lamarzocco/coordinator.py:44-66 | one pass: hass_init is called iff the flag is false; the flag becomes true iff it was or hass_init succeeds; a websocket task is added only on the pass whose hass_init succeeds with the option on; the status is pulled iff the pass gets past initialisation; the pass returns the client iff that pull succeeds; which outcomes give ConfigEntryAuthFailed |
| `Coordinator.InitAttempts` | custom_components/lamarzocco/coordinator.py:47-48 | initialisation is attempted at most once per pass, on every pass up to and including the first that succeeds: every pass before the last counted one failed, and when passes remain, the last counted one succeeded |
| `Coordinator.RunConsistent` | custom_components/lamarzocco/coordinator.py:47-56 | over any passes: one websocket task exactly when initialised with the option on; initialised implies a hass_init call; no status pull before initialisation; the option never changes |
| `Coordinator.WebsocketAtMostOnce` | custom_components/lamarzocco/coordinator.py:47-54 | from a new coordinator, over any passes, the websocket is scheduled at most once, and only with the option on after initialisation |
| `Coordinator.InitializedIsPermanent` | custom_components/lamarzocco/coordinator.py:47-56 | once initialised: the flag stays true, hass_init is never called again, no websocket task is added, and every pass pulls the status |
| `Coordinator.InitRetriedUntilSuccess` | custom_components/lamarzocco/coordinator.py:47-64 | from uninitialised: initialised iff some pass's hass_init succeeds; hass_init is called once per pass up to and including the first success; the status is pulled on that pass and on every later one |
| `Coordinator.LmApiCoordinator.constructor` | custom_components/lamarzocco/coordinator.py:29-42 | the coordinator holds the client, starts uninitialised, and reads the option with default False |
| `Coordinator.LmApiCoordinator.AsyncUpdateData` | custom_components/lamarzocco/coordinator.py:44-66 | `_async_update_data` changes the fields as `UpdateData` does and keeps the coordinator invariant; it returns the client on success and nothing when it raises |
| `Coordinator.LmApiCoordinator.OnDataReceived` | custom_components/lamarzocco/coordinator.py:68-72 | sets the client's brew-active flag to `status[BREW_ACTIVE]` and publishes the client; a message without the key raises KeyError and changes nothing; the coordinator state is untouched |
| `Api.WholeSecond` | custom_components/lamarzocco/api.py:55 | `replace(microsecond=0)`: the receive time truncated to the whole second below it |
| `Api.Update` | custom_components/lamarzocco/api.py:54 | `dict.update`: the keys are the union; incoming values win; other keys keep their value |
| `Api.Stamped` | custom_components/lamarzocco/api.py:55-56 | DATE_RECEIVED becomes the truncated receive time and UPDATE_AVAILABLE the library's flag; every other key is unchanged |
| `Api.Received` | custom_components/lamarzocco/api.py:54-56 | one callback: every incoming key gets its incoming value, keys absent from the message are kept, then the two stamps are overwritten |
| `Api.UpdateAll` | custom_components/lamarzocco/api.py:54 | merging messages one after another keeps every earlier key, and the last message's values win |
| `Api.UpdateAllKeys` | custom_components/lamarzocco/api.py:54 | merging a sequence of messages: a key is present iff it was already present or some message carries it |
| `Api.UpdateAllLastWins` | custom_components/lamarzocco/api.py:54 | a key carried by some message holds the value from the last message that carries it |
| `Api.UpdateAllKeepsOld` | custom_components/lamarzocco/api.py:54 | a key no message carries keeps its earlier value |
| `Api.Messages` | custom_components/lamarzocco/api.py:52-54 | (proof helper) the messages carried by a run of callbacks, in order |
| `Api.Callbacks` | custom_components/lamarzocco/api.py:51-56 | with no callbacks the status is unchanged; a run of callbacks keeps every key already present and ends with the stamps of the last callback |
| `Api.StampHidesStamp` | custom_components/lamarzocco/api.py:54-56 | (proof helper) a later callback's stamps hide an earlier one's, whatever is merged in between |
| `Api.CallbacksAreOneMerge` | custom_components/lamarzocco/api.py:54-56 | after any run of callbacks, the status is the merge of all their messages, stamped by the last callback |
| `Api.NoteFirmware` | custom_components/lamarzocco/api.py:58-62 | the device-info update is scheduled iff the recorded version is falsy and the status has a firmware version; it is scheduled with that version, which is then recorded; otherwise the recorded version is kept |
| `Api.NothingAfterRecorded` | custom_components/lamarzocco/api.py:58-62 | once a truthy version is recorded, no device-info update is scheduled again, whatever the machine reports |
| `Api.FalsyFirmwareRescheduled` | custom_components/lamarzocco/api.py:58-62 | while the recorded and the reported firmware values are falsy, every callback schedules the device-info update again, with the reported value |
| `Api.FirmwareRecordedOnce` | custom_components/lamarzocco/api.py:58-62 | when the reported versions are truthy, at most one device-info update is scheduled over any run of callbacks |
| `Api.LoopGoesOn` | custom_components/lamarzocco/api.py:80-87 | the loop goes on after a success, and after a socket error iff its errno is ECONNRESET; AuthFail, RequestNotSuccessful and other exceptions are not caught and end it |
| `Api.FetchLoop` | custom_components/lamarzocco/api.py:76-88 | the poll loop: with the flag clear it stops before any pass; otherwise it stops or raises within the given passes, and runs on only after all of them |
| `Api.FirstEnd` | custom_components/lamarzocco/api.py:77-88 | the first pass after which the loop does not go round again |
| `Api.FetchLoopEnds` | custom_components/lamarzocco/api.py:77-88 | with the flag set, the loop goes through successes and ECONNRESET errors; it re-raises the first other error on that pass, or stops at the next flag check after close() |
| `Api.FetchLoopRaisesOnlyUnswallowed` | custom_components/lamarzocco/api.py:80-85 | the only exceptions that escape the loop are the ones that are not ECONNRESET socket errors |
| `Api.LaMarzocco.constructor` | custom_components/lamarzocco/api.py:20-31 | the status is exactly `{POWER: 0}`, there is no polling task, and no firmware version is recorded |
| `Api.LaMarzocco.InitData` | custom_components/lamarzocco/api.py:33-40 | registers the callback, sets the run flag and starts the polling task |
| `Api.LaMarzocco.Close` | custom_components/lamarzocco/api.py:42-49 | clears the run flag and cancels the polling task if there is one |
| `Api.LaMarzocco.UpdateCallback` | custom_components/lamarzocco/api.py:51-62 | the new status is `Received` of the old one; the firmware is recorded and the device-info update scheduled as `NoteFirmware` says; a call without a status raises TypeError and changes nothing |
| `Api.LaMarzocco.FetchData` | custom_components/lamarzocco/api.py:76-88 | the `while self._run` loop ends as `FetchLoop` says; it ends by the flag iff the flag is then false; the polling task is cancelled iff the loop was running, stopped through close(), and a task existed |
| `Entity.JoinUnderscore` | custom_components/lamarzocco/entity.py:77 | `"_".join`: the result starts with the first part and ends with the last, has a "_" after the first part when there are several, and its length is the parts' total plus one per separator |
| `Entity.TupleToStr` | custom_components/lamarzocco/entity.py:74-78 | a plain key is returned unchanged; a tuple key becomes its parts joined by "_", so a one-part tuple gives that part and every tuple key starts with its first part |
| `Entity.SplitUnderscore` | custom_components/lamarzocco/entity.py:76-77 | splitting on "_" gives at least one part, and no part contains "_" |
| `Entity.SplitPart` | custom_components/lamarzocco/entity.py:76-77 | (proof helper) a prefix without "_" is glued to the first part of the split |
| `Entity.SplitSeparator` | custom_components/lamarzocco/entity.py:76-77 | (proof helper) a part without "_", a "_" and a tail split into the part followed by the tail's pieces |
| `Entity.SplitJoin` | custom_components/lamarzocco/entity.py:76-77 | `"_".join` of parts without "_" is undone by splitting |
| `Entity.TupleToStrInjective` | custom_components/lamarzocco/entity.py:74-78 | tuple keys whose parts contain no "_" convert to distinct status keys |
| `Entity.BoolToStr` | custom_components/lamarzocco/entity.py:70-72 | booleans become "True" or "False"; every other value is returned as it is; the result is never a boolean |
| `Entity.ConvertedKeys` | custom_components/lamarzocco/entity.py:85-87 | one converted key per table entry, in table order |
| `Entity.ExtraStateAttributes` | custom_components/lamarzocco/entity.py:66-88 | no table for the model gives `{}`; otherwise the keys are exactly the converted table keys present in the status (missing ones are skipped), each with its status value and booleans stringified |
| `Entity.Name` | custom_components/lamarzocco/entity.py:43-48 | the machine name, one space, then the description's name |
| `Entity.UniqueId` | custom_components/lamarzocco/entity.py:50-53 | the serial number, "_", then the description's key |
| `Entity.UniqueIdsDistinct` | custom_components/lamarzocco/entity.py:50-53 | descriptions with distinct keys give distinct unique ids for the same machine |
| `Switch.DaySlots` | custom_components/lamarzocco/switch.py:42-65 | three schedule entries per day |
| `Switch.Slots` | custom_components/lamarzocco/switch.py:43-46 | (proof helper) a day's three entries: its auto flag, on time and off time, in that order |
| `Switch.DaySlotsCons` | custom_components/lamarzocco/switch.py:42-65 | (proof helper) the first day of a list contributes its three entries before the rest |
| `Switch.WeekSlots` | custom_components/lamarzocco/switch.py:42-65 | the slots of seven days are their three entries each, day by day |
| `Switch.WeekTableShape` | custom_components/lamarzocco/switch.py:42-65 | (proof helper) a table written out as the receive date and seven days' entries is the receive date followed by those days' slots |
| `Switch.AutoOnOffTable` | custom_components/lamarzocco/switch.py:42-65 | the auto on/off table is the receive date followed by the three entries of each of the seven days: 22 entries |
| `Switch.K1Only` | custom_components/lamarzocco/switch.py:72-101 | the key-1 entries of a table: exactly the table entries that concern key 1, in table order |
| `Switch.K1OnlyCounts` | custom_components/lamarzocco/switch.py:72-101 | the key-1 filter keeps every copy of a key-1 entry and no copy of any other entry |
| `Switch.K1OnlyAppend` | custom_components/lamarzocco/switch.py:72-101 | the key-1 filter of a concatenation is the concatenation of the filtered parts |
| `Switch.K1OnlyAll` | custom_components/lamarzocco/switch.py:72-101 | a table whose entries all concern key 1 is kept whole |
| `Switch.K1OnlyNone` | custom_components/lamarzocco/switch.py:72-101 | a table none of whose entries concerns key 1 is dropped whole |
| `Switch.K1OnlyStep` | custom_components/lamarzocco/switch.py:72-101 | (proof helper) filtering a suffix keeps its first entry exactly when that entry concerns key 1 |
| `Switch.K1OnlySkip` | custom_components/lamarzocco/switch.py:72-101 | (proof helper) filtering skips a run of entries none of which concerns key 1 |
| `Switch.K1OnlyKeepTwo` | custom_components/lamarzocco/switch.py:72-101 | (proof helper) a table whose first two entries concern key 1 keeps both, then filters the rest |
| `Switch.PrebrewFrom2` | custom_components/lamarzocco/switch.py:72-82 | (proof helper) from the third entry of a GS3 AV-shaped prebrew table on, only the toff k1 entry concerns key 1 |
| `Switch.PrebrewShape` | custom_components/lamarzocco/switch.py:72-82 | (proof helper) a nine-entry table whose entries 0, 1 and 5 alone concern key 1 filters down to those three |
| `Switch.PreinfusionShape` | custom_components/lamarzocco/switch.py:84-90 | (proof helper) a five-entry table whose first two entries alone concern key 1 filters down to those two |
| `Switch.LmPrebrewIsK1Subset` | custom_components/lamarzocco/switch.py:72-101 | the Linea Mini/Micro prebrew table is the key-1 part of the GS3 AV one |
| `Switch.LmPreinfusionIsK1Subset` | custom_components/lamarzocco/switch.py:84-95 | the Linea Mini/Micro preinfusion table is the key-1 part of the GS3 AV one |
| `Switch.SetupEntities` | custom_components/lamarzocco/switch.py:187-195 | a switch is created for a description iff the model is a key of its attribute tables, in description order |
| `Switch.SetupEntitiesCounts` | custom_components/lamarzocco/switch.py:191-195 | the model filter keeps every copy of a description that lists the model and no copy of any other |
| `Switch.TableModels` | custom_components/lamarzocco/switch.py:127-182 | which models each switch description lists |
| `Switch.SwitchesPerModel` | custom_components/lamarzocco/switch.py:120-195 | the four known models get main, auto on/off and steam boiler enable; prebrew and preinfusion go to all of them but the GS3 MP; any other model gets no switch |
| `Switch.SwitchUniqueIdsDistinct` | custom_components/lamarzocco/switch.py:120-184 | the switches of one machine have pairwise distinct unique ids |
| `Switch.StatusKey` | custom_components/lamarzocco/switch.py:126-176 | main, auto on/off, prebrew, preinfusion and steam boiler read `power`, `global_auto`, `enable_prebrewing`, `enable_preinfusion` and `steam_boiler_enable`, and no two switches read the same key |
| `Switch.ControlFn` | custom_components/lamarzocco/switch.py:125-175 | each switch's `control_fn` calls its own client setter (`set_power`, `set_auto_on_off_global`, `set_prebrewing_enable`, `set_preinfusion_enable`, `set_steam_boiler_enable`), and no two switches share one |
| `Switch.IsOn` | custom_components/lamarzocco/switch.py:126-176 | each switch reads its own status key, and a missing key raises KeyError; main, prebrew, preinfusion and steam boiler return the stored value; auto on/off is on iff `global_auto` is "Enabled" |
| `Switch.TurnOn` | custom_components/lamarzocco/switch.py:207-210 | turn on calls the switch's setter with True; it then requests a state update iff the setter returned, and otherwise raises the setter's exception |
| `Switch.TurnOff` | custom_components/lamarzocco/switch.py:212-215 | turn off calls the switch's setter with False; it then requests a state update iff the setter returned, and otherwise raises the setter's exception |
| `Switch.TurnOnOffDiffer` | custom_components/lamarzocco/switch.py:125-215 | for the same setter outcome, turn off differs from turn on only in the argument; distinct switches call distinct setters |
| `BinarySensor.SensorKey` | custom_components/lamarzocco/binary_sensor.py:48-63 | only the brew sensor reads BREW_ACTIVE |
| `BinarySensor.IsOn` | custom_components/lamarzocco/binary_sensor.py:48-62 | the water sensor is on iff the reservoir contact is missing or falsy; the brew sensor returns the stored BREW_ACTIVE value unchanged, or None |
| `BinarySensor.Available` | custom_components/lamarzocco/binary_sensor.py:49-63 | a sensor is available iff its key is present with a value other than None |
| `BinarySensor.UnavailableReadings` | custom_components/lamarzocco/binary_sensor.py:48-63 | an unavailable brew sensor reads None; an unavailable water sensor reports a problem |
| `BinarySensor.UseWebsocket` | custom_components/lamarzocco/binary_sensor.py:78 | this platform's websocket option is on when the option is absent |
| `BinarySensor.Selected` | custom_components/lamarzocco/binary_sensor.py:82-84 | a description whose table lacks the model is never appended; the brew sensor is skipped when the websocket is off; otherwise a description is appended iff its table lists the model |
| `BinarySensor.Selection` | custom_components/lamarzocco/binary_sensor.py:80-87 | a sensor is kept iff its model is listed and it is not the brew sensor with the websocket off; description order is kept |
| `BinarySensor.SelectionCounts` | custom_components/lamarzocco/binary_sensor.py:80-87 | the selection keeps every copy of a selected description and no copy of any other |
| `BinarySensor.SelectionAppend` | custom_components/lamarzocco/binary_sensor.py:81-87 | (proof helper) one more loop iteration appends the description exactly when it is selected |
| `BinarySensor.SetupEntry` | custom_components/lamarzocco/binary_sensor.py:74-89 | the appending loop with its `continue` builds exactly the selection |
| `BinarySensor.SensorsPerModel` | custom_components/lamarzocco/binary_sensor.py:42-87 | the four known models get the water sensor, plus the brew sensor exactly when the websocket is on; other models get none |
| `BinarySensor.SensorsHaveNoAttributes` | custom_components/lamarzocco/binary_sensor.py:50-69 | neither sensor has extra state attributes |
| `BinarySensor.SensorUniqueIdsDistinct` | custom_components/lamarzocco/binary_sensor.py:44-58 | the two sensors of one machine have distinct unique ids |

## Left out

- asyncio scheduling. `hass.loop.create_task`, `hass.async_create_task` and `asyncio.sleep` are not modelled as concurrency. A created task is a counter, the list of its arguments, or the three-state polling task; a second polling task created by a second `init_data` is not distinguished from the first. A `close()` that runs while the poll loop sleeps is an input of each poll pass.
- The device libraries (`lmcloud`, `lmdirect`) are not part of this model. `hass_init`, `update_local_machine_status`, `request_status` and the switch setters are `Outcome` inputs. `websocket_connect` is only counted as a scheduled task. Whatever these calls do to the client's own state is not modelled.
- `_update_device_info` and the device registry (api.py:64-74) are not part of this model. Only the firmware version passed to the scheduled task is recorded.
- `datetime.now()` is a parameter given in microseconds.
- The const module and the library's message keys are not part of this model. The key strings (`POWER`, `DATE_RECEIVED`, `FIRMWARE_VER`, ...) stand in for their values; the proofs only use that they are distinct. Model names are a datatype.
- `__init__.py` is not part of this model: OAuth and HTTP calls, platform forwarding, and the older client class there.
- The config flow, entity services and `device_info` are not part of this model, and neither are the Home Assistant base classes. The left-out base-class behaviour includes the listener notification of `async_set_updated_data` (modelled as recording the published object), `_handle_coordinator_update` and `_update_ha_state`'s delayed refresh (an `UpdateHaState` action).
- `super().close()` of the local library is not modelled. `close()` is the flag and task update only.
- Python `CancelledError` of the cancelled polling task is not modelled. Cancelling is recorded in `pollingTask`.
- The code shown does not set `_run` in the constructor; the model starts it at false.
- Api.LaMarzocco.constructor: does not model `super().__init__` of the local library (api.py:31), which is not part of this model; it assumes that call leaves `_current_status` and `_run` alone.
- `Api.FetchData` runs over a finite list of passes. Its `Running` end only means the list ran out; the Python loop has no such end.
- `Switch.IsOn` returns the stored value. How Home Assistant reads a non-boolean value as on or off is not modelled.
- The order of keys in Python dictionaries is not modelled: statuses and attribute maps are Dafny maps.
- `Api.NoteFirmware` follows the code's truthiness test. A falsy reported firmware value, such as an empty string, does not latch, and a later callback schedules the update again. `Api.FirmwareRecordedOnce` therefore assumes truthy reported versions, and `Api.FalsyFirmwareRescheduled` states the repeat.
