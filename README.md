# Sensor-to-cloud app: a Dafny model

This project models the application logic in `sch_app_a.py`, a home-sensing
app. The app receives raw samples from sensor adaptors (temperature,
acceleration, door contacts, motion sensors, power meters and more). It turns
them into change events. It buffers the events per device and POSTs them to
a cloud series endpoint. It also watches doorways to tell people going out
from people coming in, and raises a "night wandering" alarm on motion at night.

The model keeps the program's own structure. Each part below is a Dafny
module.

- **Text** (`text.dfy`): the pieces of Python's string handling the app
  relies on. These are `str.split` on one character, slicing a prefix,
  ASCII `lower()`, and `int()` of a decimal string.
- **Telemetry** (`telemetry.dfy`): the event record `{n, v, t}`, and a
  batch, which is the list one `storeX` call hands to the DataManager. It
  also has the `storeX` record builders. A buffer element is either a record
  or a nested batch, because the DataManager nests later batches.
- **FilterSpec** (`filter_spec.dfy`): one pure step function per kind of
  change-detection filter. Run functions apply a step to a list of samples,
  and lemmas state what a whole run reports.
- **Filters** (`filters.dfy`): the filter classes. Each class keeps the
  fields the source updates in place. Each `Process…` method returns the
  batches it stores and is proved equal to its step function.
- **Delivery** (`delivery.dfy`): the `DataManager` class and its
  specification `Sink`. A `Sink` holds the per-device buffers `s`, the armed
  list `waiting`, the pending reactor timers, the POSTs in flight and the
  POSTs delivered. A timer firing and a POST completing with success or
  failure are explicit operations. It also models URL selection.
- **Occupancy** (`occupancy.dfy`): the `CheckExit` doorway state machine,
  which stores its three DA events through its DataManager. It also has
  `EntryExit`, which pairs door contacts with inside motion sensors by
  location and forwards sensor changes.
- **NightWatch** (`night.dfy`): `betweenTimes`, the `Client` sequence
  numbering, and `NightWander`. NightWander renames the night sensors and
  raises alarms.
- **Ingress** (`ingress.dfy`): the App's routing of a data message to the
  first filter with the device's name. It also builds the service request
  from the offered characteristics.

The model turns the program's external inputs into parameters:
- The current time (`time.time()`) is a `now` parameter.
- The local midnight of a timestamp's day is a `midnight` parameter.
- Filter thresholds are constructor parameters.
- Configuration flags and the night window are parameters.
- A POST's outcome is the `ok` argument of `SendValuesThread`.

Behaviour of the source that the model keeps as written:

- `Humid` tests `abs(previous)` against the threshold, not the change since
  the last report (`FilterSpec.HumidNeverReports`).
- The temperature filters' mode is fixed to on-change. Their regular branch
  is modelled: it stamps the current reading with the previous minute.
- A second store on an armed device appends the batch as one nested element.
  A failed POST stores its batch again with `da` false, so a DA batch that
  is retried goes to the ordinary URL (`Delivery.RetryThenDeliver`).
- In `CheckExit.fsm` the second `wait_door_close` branch can never be
  reached. So `wait_long_door_open` falls into the reset branch and goes
  back to idle. Suppose the door is held open, the inside motion sensor
  stays off, and its last "on" came at least 30 s before the door opened.
  Then the machine reports `open_and_close` and then `door_open_too_long`
  again every four ticks (`Occupancy.DoorHeldOpenRepeats`). If there was
  motion, it goes to `check_going_out` instead.
- `Client.receive` compares each queued message's own number with that
  message itself, and never reads the acknowledged number, so it never
  removes anything.
- `NightWander.onChange` sets `lastActive` on every "on" inside the window,
  whether or not it alarms. With a 600-second ignore time, motion at 23:00,
  23:05 and 23:11 therefore alarms only at 23:00. A quiet period measured
  from the last alarm would alarm again at 23:11. The model follows the
  code (`NightWatch.NightScenario`).
- `betweenTimes` ignores boundaries 50000 s or more before the time. Near
  the end of a longer window it answers False
  (`NightWatch.LongWindowMissedNearEnd`).
- `EntryExit` keys its state machines by location name. Two doorways with
  the same location share the one created last.
- The default `night_wandering` is the string "False". `setNames` tests
  its truth, and a non-empty string is true. The configuration loop that
  should turn it into a boolean tests `c.lower`, a method object, so it
  never converts anything. With the defaults night wandering is therefore
  on, and an empty `night_sensors` list makes every device a night sensor.
  The model takes the flag's truth value as the `enabled` parameter of
  `NightWander.SetNames`.
- The App's name table replaces spaces with underscores. Two names that
  differ only there therefore share a filter (`Ingress.UnderscoredCollides`).

## Model

| member | source | states |
|---|---|---|
| Text.Split | sch_app_a.py:526-528 | `str.split(sep)` yields at least one token, and no token contains the separator |
| Text.JoinSplit | sch_app_a.py:526-528 | joining the tokens of a split with the separator gives back the original name |
| Text.SplitNoSeparator | sch_app_a.py:526-528 | a name without the separator splits into exactly itself, which is when the dash split is tried |
| Text.SplitAtSeparator | sch_app_a.py:68-69 | splitting `a + sep + b` with `sep` not in `a` yields `a` followed by the tokens of `b` |
| Text.Prefix | sch_app_a.py:531-532 | the slice `[:n]` is a prefix of the string, no longer than `n` characters, and the whole string when it is shorter |
| Text.LowerChar | sch_app_a.py:532-533 | an upper-case ASCII letter maps to the letter 32 code points above it, its lower-case form; everything else is unchanged |
| Text.Lower | sch_app_a.py:532-533 | `lower()` keeps the length and lowers each character |
| Text.ParseInt | sch_app_a.py:68-69 | `int()` succeeds exactly on an optional sign followed by at least one digit, and a digit string parses to its decimal value |
| Text.ParseIntSigned | sch_app_a.py:68-69 | a '+' in front of digits keeps their value and a '-' negates it |
| Telemetry.Abs | sch_app_a.py:233 | `abs` is non-negative and equals `x` or `-x` |
| Telemetry.Items | sch_app_a.py:129-132 | a batch stored on an idle device becomes a buffer holding exactly its records, in order |
| Telemetry.FlattenItems | sch_app_a.py:129-136 | flattening a stored batch gives back the batch |
| Telemetry.ScalarBatch | sch_app_a.py:146-221 | the single-value builders produce one record with the given name, value and time |
| Telemetry.AxisBatch | sch_app_a.py:138-185 | the axis builders produce three records named by axis, all stamped with the sample time |
| Telemetry.AxisBatchValues | sch_app_a.py:138-185 | the three records carry the axis values in x, y, z order |
| Telemetry.ButtonsBatch | sch_app_a.py:164-170 | the buttons builder produces `left_button` then `right_button`, both at the sample time, carrying the two readings |
| FilterSpec.ScalarStep | sch_app_a.py:368-373 | a threshold filter reports exactly when `abs(v - previous) >= min_change`, as one record, and keeps `previous` otherwise |
| FilterSpec.ScalarRunReportsChanges | sch_app_a.py:368-373 | over any run, consecutive reported values differ by at least the threshold, and the filter remembers the last value reported |
| FilterSpec.HumidStep | sch_app_a.py:339-344 | Humid reports exactly when `abs(previous) >= min_change`, and only then updates `previous` |
| FilterSpec.HumidNeverReports | sch_app_a.py:333-344 | starting from a previous value under the threshold, Humid never reports anything |
| FilterSpec.EpochMinute | sch_app_a.py:248-256 | the epoch minute is the start of the minute containing `t`, a multiple of 60 |
| FilterSpec.TempStep | sch_app_a.py:251-263 | regular mode reports once per new minute, stamping the current reading with the previous minute; on-change mode is the threshold filter on `powerTemp` |
| FilterSpec.PowerStep | sch_app_a.py:381-389 | Power reports exactly on a threshold change, with one or two records: the old value back-filled at `t-1` exactly when more than 2 s passed, then the new one; then it updates both fields |
| FilterSpec.PowerRunDecidesLikeThreshold | sch_app_a.py:381-389 | Power decides like the plain threshold filter over any run, and emits at least as many records |
| FilterSpec.BinaryLevel | sch_app_a.py:353-357 | a binary value is level 1 exactly when it is "on" |
| FilterSpec.ConnectedLevel | sch_app_a.py:409-414 | a connected value is level 1 exactly when it is truthy |
| FilterSpec.EdgeStep | sch_app_a.py:351-361 | an edge filter is silent when the level is unchanged, and on a flip emits the old level at `t-1` then the new one at `t`; it remembers the new level |
| FilterSpec.EdgeRunIsStepFunction | sch_app_a.py:346-361 | over any run, the records form old/new pairs one second apart that chain from the initial level |
| FilterSpec.VectorStep | sch_app_a.py:228-238 | a vector filter reports all three axes exactly when some axis moved by more than the threshold, and only then replaces `previous` |
| FilterSpec.VectorRunReportsChanges | sch_app_a.py:223-238 | over any run, each reported sample tripped against the one reported before it |
| FilterSpec.ButtonsStep | sch_app_a.py:294-297 | Buttons reports every sample, with both readings |
| Filters.AnyAxisExceeds | sch_app_a.py:231-235 | the axis loop answers true exactly when some axis moved by strictly more than the threshold |
| Filters.Accelerometer.ProcessAccel | sch_app_a.py:228-238 | output and new `previous` are those of the vector step |
| Filters.Gyro.ProcessGyro | sch_app_a.py:304-314 | output and new `previous` are those of the vector step |
| Filters.Magnet.ProcessMagnet | sch_app_a.py:321-331 | output and new `previous` are those of the vector step |
| Filters.TemperatureMeasure.constructor | sch_app_a.py:242-250 | starts in on-change mode with `powerTemp` 0 and the current epoch minute |
| Filters.TemperatureMeasure.ProcessTemp | sch_app_a.py:251-263 | output and new state are those of the temperature step; the mode never changes |
| Filters.IrTemperatureMeasure.ProcessIrTemp | sch_app_a.py:276-288 | output and new state are those of the temperature step; the mode never changes |
| Filters.Buttons.ProcessButtons | sch_app_a.py:294-297 | output is the buttons step |
| Filters.Humid.ProcessHumidity | sch_app_a.py:339-344 | output and new `previous` are those of the Humid step |
| Filters.Binary.ProcessBinary | sch_app_a.py:351-361 | output and new level are those of the edge step on the normalised value |
| Filters.Luminance.ProcessLuminance | sch_app_a.py:368-373 | output and new `previous` are those of the threshold step |
| Filters.Power.ProcessPower | sch_app_a.py:381-389 | output and new state are those of the Power step |
| Filters.Battery.ProcessBattery | sch_app_a.py:396-401 | output and new `previous` are those of the threshold step |
| Filters.Connected.ProcessConnected | sch_app_a.py:408-418 | output and new level are those of the edge step on the truth value |
| Delivery.DropThree | sch_app_a.py:99 | `bridge_id[3:]` is the id without its first three characters, or empty when shorter |
| Delivery.PostUrlInjective | sch_app_a.py:98-107 | different devices are posted to different URLs |
| Delivery.DaUrlsAreSeparate | sch_app_a.py:98-107 | for a well-formed bridge id, a DA URL never coincides with a telemetry URL |
| Delivery.RemoveFirst | sch_app_a.py:125 | `list.remove` drops one occurrence when present and nothing otherwise |
| Delivery.RemoveFirstDropsFirst | sch_app_a.py:125 | `list.remove` drops exactly the first occurrence and keeps the order of the rest |
| Delivery.Store | sch_app_a.py:129-136 | storing changes only the buffers, the armed list and the timers |
| Delivery.StoreKeepsInv | sch_app_a.py:129-136 | storing keeps `waiting` free of duplicates and equal, as a set, to the buffered devices, with one pending send per armed device |
| Delivery.FireKeepsInv | sch_app_a.py:122-127 | a send keeps that invariant |
| Delivery.FinishKeepsInv | sch_app_a.py:117-120 | a completed POST, successful or failed, keeps that invariant |
| Delivery.StoreEffect | sch_app_a.py:129-136 | storing on an armed device schedules nothing and nests the batch as one element; on an idle device it makes the batch the buffer and schedules one send. Either way the buffer gains exactly the batch's records |
| Delivery.FireEffect | sch_app_a.py:122-127 | a send posts the device's whole buffer to the URL its `da` flag selects, and removes the device from `s` and `waiting` |
| Delivery.RetryRestoresBatch | sch_app_a.py:117-120 | a failed POST stores its batch again with `da` false |
| Delivery.StoreHeld | sch_app_a.py:129-136 | storing adds exactly the batch's records to what is held for the device |
| Delivery.FireHeld | sch_app_a.py:122-127 | sending loses no record and duplicates none |
| Delivery.WithdrawHeld | sch_app_a.py:103-120 | a POST in flight holds exactly its own records |
| Delivery.DeliverHeld | sch_app_a.py:103-120 | a successful POST delivers exactly its own records |
| Delivery.FinishHeld | sch_app_a.py:103-120 | completing a POST loses no record and duplicates none, whether it failed or succeeded |
| Delivery.RetryThenDeliver | sch_app_a.py:103-136 | a batch that fails once and is re-sent arrives exactly once with all its records, on the telemetry URL |
| Delivery.DataManager.constructor | sch_app_a.py:97-101 | starts empty, with both base URLs built from the bridge id |
| Delivery.DataManager.StoreValues | sch_app_a.py:129-136 | the new state is `Store` of the old one, and the invariant holds |
| Delivery.DataManager.StoreBatch | sch_app_a.py:138-215 | a `storeX` call stores its batch with `da` false |
| Delivery.DataManager.StoreEntryExit | sch_app_a.py:217-221 | `storeEntryExit` stores one record under the location with `da` true |
| Delivery.DataManager.SendValues | sch_app_a.py:122-127 | the new state is `Send` of the old one |
| Delivery.DataManager.FireTimer | sch_app_a.py:122-135 | the earliest pending send fires, keeping the invariant |
| Delivery.DataManager.SendValuesThread | sch_app_a.py:103-120 | a POST completes as `Finish`, keeping the invariant |
| Occupancy.Sense | sch_app_a.py:574-589 | door "on" opens the door at `t`, any other door value closes it at `t`; motion "on" switches the sensor on at `t`, any other value off at `t`; the other sensor's fields and the state never change |
| Occupancy.SenseIsIdempotent | sch_app_a.py:574-589 | repeating the same sensor change changes nothing more |
| Occupancy.TickFollowsEdges | sch_app_a.py:591-635 | a tick moves along one of the listed edges with its action, and changes nothing but the state |
| Occupancy.TickConditions | sch_app_a.py:591-635 | when each edge is taken, in both directions, with the 30, 10, 6, 15 and 60-second constants |
| Occupancy.ActionEvents | sch_app_a.py:636-638 | an action stores three events valued 0, 1, 0 at the door-open time and one and two seconds later; no action stores none |
| Occupancy.ClosedDoorSettles | sch_app_a.py:591-635 | with the door closed, a machine in idle, `wait_door_close` or `wait_long_door_open` reports nothing and ends idle |
| Occupancy.ClosedDoorActsAtMostOnce | sch_app_a.py:591-635 | with the door closed, any run of ticks reports at most one action |
| Occupancy.DoorHeldOpenRepeats | sch_app_a.py:620-635 | a door held open with no motion goes from `wait_long_door_open` back through idle and reports `open_and_close` and `door_open_too_long` again |
| Occupancy.AnsweredDoorScenario | sch_app_a.py:591-616 | door opened with motion on, then closed, with motion still on more than ten seconds after the close: `answered_door` |
| Occupancy.CameInScenario | sch_app_a.py:591-625 | door opened with no recent motion, then motion: `came_in`; closing the door returns to idle |
| Occupancy.CheckExit.constructor | sch_app_a.py:563-571 | starts idle with the door closed and the motion sensor off |
| Occupancy.CheckExit.OnChange | sch_app_a.py:574-589 | the new fields are `Sense` of the old ones |
| Occupancy.CheckExit.Fsm | sch_app_a.py:591-639 | the new state and the action are those of one tick, and the DataManager has stored the action's three DA events |
| Occupancy.CheckExit.Transition | sch_app_a.py:591-635 | the state switch agrees with one tick |
| Occupancy.CheckExit.Report | sch_app_a.py:636-638 | the three `storeEntryExit` calls store the action's events |
| Occupancy.Tokens | sch_app_a.py:526-528 | a name splits on spaces, or on dashes when the space split gives one token |
| Occupancy.SplitAll | sch_app_a.py:524-528 | every name is split, in order, and keeps its device id |
| Occupancy.FindPirMatch | sch_app_a.py:535-544 | a match is the first inside motion sensor of that location; "no match" means there is none; the IndexError comes from a motion sensor name with too few tokens before any match |
| Occupancy.PairedAreDoorways | sch_app_a.py:529-544 | every doorway found pairs a door contact with at least three tokens with an inside motion sensor at its location, ignoring case |
| Occupancy.PairingIsComplete | sch_app_a.py:529-544 | unless an IndexError ended the search, every door contact with an inside motion sensor at its location is paired |
| Occupancy.SplitNames | sch_app_a.py:524-528 | the splitting loop computes `SplitAll` |
| Occupancy.FindInsidePir | sch_app_a.py:535-544 | the inner loop computes the first matching motion sensor, or the IndexError |
| Occupancy.PairDoorways | sch_app_a.py:529-544 | the outer loop computes the pairing, including the IndexError case |
| Occupancy.PairSplits | sch_app_a.py:529-544 | the loop over split names finds exactly the doorways of `PairFrom`, in order, and stops on the IndexError |
| Occupancy.PairAt | sch_app_a.py:530-544 | one door contact either raises the IndexError, adds its doorway in front of the later ones, or adds nothing |
| Occupancy.Devs | sch_app_a.py:546-553 | the watched ids are door contact then motion sensor for each doorway, in order |
| Occupancy.HitsIff | sch_app_a.py:555-560 | a state machine is told of a change exactly when a doorway stored under its key names that device |
| Occupancy.SenseAllAppend | sch_app_a.py:555-560 | forwarding a list of changes is forwarding each part in turn |
| Occupancy.LocationKeysAreLocations | sch_app_a.py:547-548 | the machine keys are exactly the doorways' locations: every location is a key and every key is a location |
| Occupancy.EntryExit.constructor | sch_app_a.py:514-520 | starts with no doorways and no state machines |
| Occupancy.EntryExit.InitExits | sch_app_a.py:522-553 | appends the doorways found. On an IndexError nothing else changes; otherwise there is one fresh idle machine per location and the watched ids are returned |
| Occupancy.EntryExit.CreateCheckExits | sch_app_a.py:546-553 | one fresh idle machine per location; other keys keep their machines |
| Occupancy.EntryExit.OnChange | sch_app_a.py:555-560 | each machine receives exactly the changes its doorways name, in order |
| Occupancy.EntryExit.ForwardTo | sch_app_a.py:556-560 | one doorway forwards the change to its own machine only, as door contact or motion sensor |
| NightWatch.ClockSecondsOfTwoDigits | sch_app_a.py:68-69 | "HH:MM" parses to `(60*HH + MM)*60` |
| NightWatch.NightStartSeconds | sch_app_a.py:57 | the default night start is 1800 s |
| NightWatch.NightEndSeconds | sch_app_a.py:58 | the default night end is 25200 s |
| NightWatch.BetweenSecsOnlyInside | sch_app_a.py:74-93 | `betweenTimes` is true only inside the window |
| NightWatch.BetweenSecsIsWindow | sch_app_a.py:74-93 | for windows under 50000 s, `betweenTimes` is true exactly inside the window |
| NightWatch.LongWindowMissedNearEnd | sch_app_a.py:74-93 | a 08:00 to 23:00 window is reported as outside at 22:50 |
| NightWatch.DefaultNightDecisions | sch_app_a.py:57-93 | for 00:30 to 07:00, 06:59 is inside while 07:01 and 00:29 are not |
| NightWatch.Client.constructor | sch_app_a.py:421-424 | starts with count 0 and no messages |
| NightWatch.Client.Send | sch_app_a.py:426-430 | stamps the message with the current count, appends it and increments the count |
| NightWatch.Client.Receive | sch_app_a.py:432-442 | changes nothing: no queued message is ever removed |
| NightWatch.IdOfName | sch_app_a.py:484-486 | finds a device with that name, or there is none |
| NightWatch.IdOfNameIsFirst | sch_app_a.py:484-486 | the device found is the first in dictionary order with that name, where the loop breaks |
| NightWatch.NameOf | sch_app_a.py:506 | finds the name of a device, or there is none |
| NightWatch.RenameMapsNames | sch_app_a.py:482-490 | with distinct entries that are not already ids, renaming replaces each name by its device id |
| NightWatch.RenameStep | sch_app_a.py:482-490 | one pass of the outer loop turns entry i into its renamed form and leaves the others alone |
| NightWatch.WanderStep | sch_app_a.py:495-511 | only an "on" inside the night window alarms or moves `lastActive`; an alarm needs `t - lastActive` over the ignore time; `lastActive` only ever becomes `t`; it raises exactly on an "on" whose window does not parse, or on an alarm for a device missing from the name table, and a raise leaves `lastActive` unchanged |
| NightWatch.WanderStepRestartsQuietPeriod | sch_app_a.py:495-511 | any "on" inside the window sets `lastActive` to `t`, and it alarms exactly when the ignore time has passed |
| NightWatch.RepeatedEventAlarmsOnce | sch_app_a.py:495-511 | the same event delivered twice alarms at most once |
| NightWatch.WanderRunIsDebounced | sch_app_a.py:495-511 | with events in time order, alarms are more than the ignore time apart |
| NightWatch.NightScenario | sch_app_a.py:495-511 | with a night read as 22:00 to 06:00 and a 600 s ignore time, motion at 23:00, 23:05 and 23:11 alarms only at 23:00 |
| NightWatch.TenPmSeconds | sch_app_a.py:68-69 | "22:00" parses to 79200 s, so it is a night start the scenario accepts |
| NightWatch.SixAmSeconds | sch_app_a.py:68-69 | "06:00" parses to 21600 s, so it is a night end the scenario accepts |
| NightWatch.NightWander.constructor | sch_app_a.py:455-458 | starts with `lastActive` 0 and no names |
| NightWatch.NightWander.SetNames | sch_app_a.py:475-493 | the night sensor list becomes the all-ids list or the renamed list, as the flag says |
| NightWatch.NightWander.OnChange | sch_app_a.py:495-511 | `lastActive` and the error are those of `WanderStep`, and the client queues and sends exactly the alarm it decides, numbered with the old count |
| Ingress.Underscored | sch_app_a.py:861 | spaces become underscores, and nothing else changes |
| Ingress.UnderscoredCollides | sch_app_a.py:861 | names that differ only by space against underscore get the same key |
| Ingress.FirstIndex | sch_app_a.py:684-688 | the first filter with that id, or none has it |
| Ingress.FindFilter | sch_app_a.py:684-749 | the lookup loop reaches the first filter named like the device, none, or the KeyError of an unknown device |
| Ingress.SameNameSameFilter | sch_app_a.py:684-749 | two devices with the same name reach the same filter |
| Ingress.ForwardCount | sch_app_a.py:724-729 | a binary message is forwarded once per occurrence of its id in the watched list |
| Ingress.Offer | sch_app_a.py:755-828 | a request names the characteristic it was made for |
| Ingress.ServeRequestsEnabled | sch_app_a.py:755-828 | a characteristic is requested exactly when it is offered and its flag is "True", with its table interval |
| Ingress.ServiceKeyErrorIff | sch_app_a.py:751-833 | an unknown device raises the KeyError exactly when one of its offered characteristics is enabled; a known device gets the filters and request of `Serve` |
| Ingress.ServiceRequest | sch_app_a.py:751-833 | the service loop builds the filters and requests of `Serve`, or stops at the KeyError of an unknown device before making any filter |
| Ingress.DefaultsServeSlowSensors | sch_app_a.py:755-828 | with the default settings, temperature and humidity are requested every 600 s, and acceleration and buttons are not requested |

## Left out

- HTTP delivery: the POST, its JSON body and basic authentication are a foreign network call. Its outcome is the `ok` argument of `SendValuesThread`.
- Reactor scheduling: `callLater`, `callInThread` and `callFromThread` are modelled as an explicit FIFO list of pending sends, which is their order since every delay is the same. The self-rescheduling `fsm` poll is left out; each tick is a call of `Fsm(now)`.
- Local time: `localtime`, `strftime`, `strptime` and `mktime` are left out, along with time zones and daylight saving. The local midnight of a time's day is a parameter.
- Floating point: readings and timestamps are reals. Rounding is not modelled.
- `onConfigureMessage`: configuration-file I/O and the manager handshake are left out. Its name table with underscores is modelled as `Ingress.Underscored`. Its boolean normalisation loop has no effect, so the flags stay strings, and the model takes them as parameters.
- Logging and messaging: `cbLog`, `sendMessage`, `sendManagerMessage`, `setState` and the app base class are left out. The `Client` keeps the messages it sends as a list.
- `NightWander.clientTest` is left out. It is a self-rescheduling test sender.
- `pillbox` is left out. It is a stub with no behaviour.
- The unused mail imports are left out.
- Text.Lower: lower-cases ASCII letters only, not the full Unicode case mapping of Python's `lower()`.
- Text.ParseInt: does not accept the surrounding whitespace or digit underscores that Python's `int()` allows.
- Ingress.FindFilter: models the lookup over the filters' ids. Calling the filter it finds is the `Process…` method of that filter's class.
- The App's lists of filter objects are modelled as lists of their ids, and the App object itself is not modelled.
- Threads: `onAdaptorData` runs on a messaging-library thread, so the filters call `storeValues` concurrently with the reactor's `sendValues` and with the POST threads. The model takes each store, send and completion as one atomic step. `Delivery.Inv` and the record-conservation lemmas rely on that. Races between these steps are not modelled.
- Ingress.ServiceRequest: `devServices.append` and the filters' names are not modelled, since the App object is not. The KeyError on an unknown device is modelled.
- EntryExit fields that are set but never read are left out.
- Dictionary order: Python 2 iterates the name table in hash order. The model takes that order as the given sequence of (id, name) pairs. The same order is used for `splits` in `initExits`. It decides which device `IdOfName` finds and which doorway wins a shared location, and the model does not fix it.
- Delivery.DataManager.SendValues: requires the device to have a buffer. The source would raise a KeyError otherwise, and a pending send always has one.
