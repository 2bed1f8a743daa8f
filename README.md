# Emporia worker: a Dafny model

This project models the sync worker of HomeTracker's energy monitor
(`backend/python/emporia_worker.py`). The worker is a long-running loop. At each tick it does one of four things:

- generates a demo reading;
- waits for credentials;
- connects to the Emporia Vue service and picks a device;
- polls that device.

A polled device's channels are normalized into a reading: a total, two phase legs and a map of named circuits. The reading is stored in SQLite, the learning-status row is bumped, and one JSON line is published on standard output.

The model has six modules:

- `Wrappers` (`wrappers.dfy`): `Option`, Python's `Optional`.
- `DeviceIds` (`device_ids.dfy`): device gids as text. This covers `str(gid)` when a discovered device is saved and `int(device_gid)` at every poll. A round trip proves that a saved gid always reads back.
- `Readings` (`readings.dfy`): the channel classifier of `poll_emporia` and the rule that publishes a phase of 0 or None as null.
  - `ClassifyChannels` is the loop itself, over four accumulators.
  - It is proved equal to `Normalize`, which is built from two functions: `LastMarked`, the last channel carrying a marker, and `CircuitsOf`, the circuit map.
  - Lemmas characterize both functions by index: which channel wins, which names become keys, and that every circuit value is positive and every key non-empty.
- `Gateway` (`gateway.dfy`): the database as a class `Database`.
  - The configuration table is a `map`, the raw readings table an append-only `seq`, and the learning-status row a `LearningStatus` record.
  - `SaveDeviceGid` states its new state as `WithDeviceGid` of the old `StoreState`, and `UpdateLearningStatus` states the new learning-status row as `Bump` of the old one. `StoreReading` states its new state directly: one reading appended, everything else unchanged.
  - `Record` (store a reading, then bump the status) is the value-level effect of those two steps together; in the worker, `Poll` (and so `PollEmporia`, proved equal to it), `Next`'s demo branch and `GenerateDemoReading` state their database effect with it.
  - `BumpAllCounts` proves what N successive status updates do.
- `Demo` (`demo.dfy`): `generate_demo_reading`, with the random draws and the clock hour as inputs.
- `Worker` (`worker.dfy`): the loop of `main`.
  - `Next` is one iteration as a function of the loop state: the session, the device gid and the failure counter, plus the database and the tick's inputs (clock, random draws, and the results of `login`, `get_devices` and `get_device_list_usage`). It returns the new state, the lines emitted and the sleep length.
  - `RunAll` runs many ticks.
  - The class `Worker` holds `main`'s local variables as fields. `Step` runs one iteration in place and `Run` the `while` loop; both are proved equal to `Next`/`RunAll`.
  - Lemmas state the decision order, the failure counter, and the store effects of one iteration and of a whole run.

External calls, the clock, randomness and sleeping become inputs or outputs:

- The metering library's calls are the `LoginResult`, `DiscoveryResult` and `UsageResult` fields of a `Tick`.
- `time.time()`, `datetime.now().hour` and `random` are the `now`, `hour` and `draw` fields of a `Tick`.
- `time.sleep(n)` is the `sleep` field of the iteration's `Outcome`.
- `emit_json` is the `Event` sequence of the iteration's `Outcome`.

Connecting always authenticates first. `login` (line 241) runs before the device list is asked for (line 248), so even a connection attempt that finds no devices has logged in before it drops the session. The model's `Connect` consults `login` before discovery in the same order.

## Model

| member | source | states |
|---|---|---|
| `Readings.ClassifyChannels` | backend/python/emporia_worker.py:127-146 | The channel loop yields the total of the last `'1,2,3'` channel (0.0 if none), the last `'1,2'` and `'3,4'` usages as the phases (absent if none), and the circuit map, as given by `Normalize` |
| `Readings.Normalize` | backend/python/emporia_worker.py:127-146 | The reading carries the poll's timestamp; total is 0.0 when no `'1,2,3'` channel exists; each phase is absent if and only if no channel carries its marker; circuit keys are non-empty names with positive values |
| `Readings.LastMarked` | backend/python/emporia_worker.py:138-143 | A main's value, when present, is the usage (missing counted as 0) of some channel carrying its marker; `LastMarkedWins` and `LastMarkedNone` pin down which one and when |
| `Readings.CircuitsOf` | backend/python/emporia_worker.py:144-146 | Every key of the circuit map is a non-empty name and every value is strictly positive |
| `Readings.LastMarkedNone` | backend/python/emporia_worker.py:128-143 | A main (total or phase) is left at its default exactly when no channel carries its marker |
| `Readings.LastMarkedWins` | backend/python/emporia_worker.py:138-143 | With repeated marker channels, the last one in order gives the value; a missing usage counts as 0 |
| `Readings.CircuitKeys` | backend/python/emporia_worker.py:144-146 | A name is a circuit key if and only if some channel with no marker, that name (non-empty) and usage > 0 exists |
| `Readings.CircuitLastWins` | backend/python/emporia_worker.py:144-146 | With duplicate names, the last qualifying channel's usage is the circuit's value |
| `Readings.NonCircuitsIgnored` | backend/python/emporia_worker.py:144-146 | A marker channel, an unnamed channel, or one with missing, zero or negative usage leaves the circuit map unchanged |
| `Readings.MainsOnlyScenario` | backend/python/emporia_worker.py:128-146 | Channels `'1,2,3'`=1000 and `'1,2'`=550 give total 1000, phase A 550, no phase B and no circuits |
| `Readings.PublishPhase` | backend/python/emporia_worker.py:157-158 | A published phase is null if and only if the stored phase is absent or exactly 0; otherwise it is the stored value |
| `DeviceIds.IntRoundTrip` | backend/python/emporia_worker.py:115 | `int(str(n)) == n`: a gid saved from discovery (line 250) always parses back at poll time |
| `DeviceIds.IntToDecimal` | backend/python/emporia_worker.py:250 | `str(n)`: a `-` exactly for negative numbers, then decimal digits with no leading zero; 0 is exactly `"0"` |
| `DeviceIds.ParseInt` | backend/python/emporia_worker.py:115 | `int(text)`: a number if and only if the text is digits, or a sign followed by digits; digits and `+digits` read as their value, `-digits` as its negation; the round trip with `str` is `IntRoundTrip` |
| `DeviceIds.NatRoundTrip` | backend/python/emporia_worker.py:115 | The decimal digits of a natural number read back as that number |
| `DeviceIds.ParseIntRejects` | backend/python/emporia_worker.py:115 | Empty text, and text containing an ASCII character that is not a digit, sign, underscore or whitespace, are rejected; `int()` raises on both |
| `Gateway.Database.GetCredentials` | backend/python/emporia_worker.py:52-60 | Email and password are each present exactly when their key is, with the stored value |
| `Gateway.Database.GetDeviceGid` | backend/python/emporia_worker.py:63-70 | The device gid is present exactly when its key is, with the stored value |
| `Gateway.Database.SaveDeviceGid` | backend/python/emporia_worker.py:73-79 | Upsert: the gid key now maps to the new gid; other keys, readings and status are unchanged |
| `Gateway.Database.StoreReading` | backend/python/emporia_worker.py:82-90 | Exactly one reading is appended; configuration and status are unchanged |
| `Gateway.Database.UpdateLearningStatus` | backend/python/emporia_worker.py:93-102 | The count grows by exactly 1; the first timestamp becomes `ts` if unset and is otherwise kept |
| `Gateway.Bump` | backend/python/emporia_worker.py:95-101 | The count grows by exactly 1; the first timestamp is kept if set and becomes `ts` otherwise, so it is always set afterwards |
| `Gateway.Record` | backend/python/emporia_worker.py:148-150 | Storing then bumping appends exactly that reading, leaves the configuration alone, adds 1 to the count and coalesces the first timestamp with the reading's |
| `Gateway.WithDeviceGid` | backend/python/emporia_worker.py:73-79 | After the upsert `device_gid` maps to the new gid; every other key, the readings and the status are unchanged |
| `Gateway.BumpAllCounts` | backend/python/emporia_worker.py:93-101 | After N updates the count has grown by exactly N; the first timestamp is the first update's if it was unset, and is otherwise never changed |
| `Gateway.RecordKeepsStatus` | backend/python/emporia_worker.py:148-150 | Storing a reading and then bumping keeps "count = number of readings, first timestamp = first reading's" and changes no configuration |
| `Demo.DemoReading` | backend/python/emporia_worker.py:169-190 | A demo reading carries the tick's timestamp, both phases and exactly the four circuits HVAC, Kitchen, Living Room and Office |
| `Demo.DemoTotalBounds` | backend/python/emporia_worker.py:174-181 | With draws in their ranges, the demo total is 700..900 W off-peak and 900..1400 W in the 6-9 and 17-21 o'clock peaks |
| `Demo.DemoHvacIdle` | backend/python/emporia_worker.py:186 | HVAC is 0 W (its key still present) exactly when the roll is at most 0.3 |
| `Worker.Poll` | backend/python/emporia_worker.py:110-166 | Success if and only if the gid parses and the library returns at least one device. Success appends exactly the normalized reading and bumps the count once; failure leaves the database unchanged. Exactly one line is emitted: on success the `LiveEvent` of that reading; `InvalidGid(text)` when the gid does not parse; `Raised(message)` when the library raises; `no_device_data` for an empty device list. The first timestamp is coalesced: kept if set, otherwise the poll's time |
| `Worker.LiveEvent` | backend/python/emporia_worker.py:153-160 | A live reading line carries the stored timestamp, total and circuits, is not flagged demo, and publishes each phase as null exactly when it is absent or 0, otherwise unchanged |
| `Worker.AfterPoll` | backend/python/emporia_worker.py:266-282 | Polling adds exactly one line after those before it; the gid is kept; the counter is reset or incremented by one; a session survives unchanged, or is dropped only when this failure reaches the threshold of 5, with the counter 0 and a 10 s sleep |
| `Worker.Connect` | backend/python/emporia_worker.py:236-265 | A connection attempt first emits `connecting`; a session it leaves is the one just logged in, has a non-empty gid announced by `connected`, and a counter of at most 1; a login exception only clears the session |
| `Worker.Next` | backend/python/emporia_worker.py:219-292 | Every iteration emits at least one line and sleeps one of the fixed lengths (poll interval, 30, 60 or 10 s); a live session lost without an exception line means this failure reached the threshold of 5, with the counter 0 and a 10 s sleep |
| `Worker.RunAll` | backend/python/emporia_worker.py:219-294 | A run of N ticks sleeps N times and emits at least N lines |
| `Worker.NextKeepsControl` | backend/python/emporia_worker.py:264-280 | After any iteration the counter is in 0..4 and a live session always has a non-empty device gid |
| `Worker.DemoTakesPrecedence` | backend/python/emporia_worker.py:222-225 | In demo mode, or without the library: one demo reading is recorded, the session is untouched, the poll interval is slept, and credentials are never consulted |
| `Worker.MissingCredentialsWait` | backend/python/emporia_worker.py:228-233 | A missing or empty email or password: nothing changes, `waiting_for_config` is emitted, sleep 30 s |
| `Worker.StoredDeviceReused` | backend/python/emporia_worker.py:244-246 | On connecting with a stored gid, that gid is used, the configuration is not written, and discovery is never consulted |
| `Worker.NoDevicesFoundResets` | backend/python/emporia_worker.py:247-257 | An empty discovery leaves no session, stores nothing, emits `connecting` then `no_devices_found`, and sleeps 60 s |
| `Worker.FirstDiscoveredDeviceSaved` | backend/python/emporia_worker.py:247-252 | Otherwise the first discovered gid is saved and announced, and the poll that follows never fails because that gid does not parse |
| `Worker.LoopErrorClearsSession` | backend/python/emporia_worker.py:288-292 | Whenever an exception line is emitted, the session is cleared and the retry sleep is 60 s |
| `Worker.FailureCounter` | backend/python/emporia_worker.py:267-282 | With a session: success resets the counter to 0; a failure increments it; the fifth failure clears the session, resets the counter to 0 and sleeps 10 s |
| `Worker.ConnectResetsCounter` | backend/python/emporia_worker.py:259-267 | A successful connection starts the counter at 0, so after the poll that follows it is at most 1 |
| `Worker.NextStoreEffects` | backend/python/emporia_worker.py:219-292 | One iteration only appends readings, at most one and exactly when a reading line is emitted. It bumps the count once per stored reading, keeps a set first timestamp, and writes no configuration key except `device_gid` |
| `Worker.AfterPollStoreEffects` | backend/python/emporia_worker.py:266-282 | Polling with a session and counting the outcome appends at most one reading, exactly when a reading line is emitted, and leaves the configuration unchanged |
| `Worker.RunKeepsControl` | backend/python/emporia_worker.py:219-280 | Over any number of iterations the counter stays in 0..4 |
| `Worker.RunWithoutCredentials` | backend/python/emporia_worker.py:228-233 | Outside demo mode and without credentials, any run leaves the state and database unchanged and sleeps 30 s per tick |
| `Worker.RunStoreEffects` | backend/python/emporia_worker.py:219-292 | Over any run the readings table only grows, every stored reading is counted exactly once, credentials are never written, and a set first timestamp never changes |
| `Worker.NextKeepsStatusMatching` | backend/python/emporia_worker.py:93-101 | One iteration keeps the count equal to the number of stored readings and the first timestamp equal to the first reading's |
| `Worker.RunKeepsStatusMatching` | backend/python/emporia_worker.py:93-101 | From a fresh schema, the count always equals the number of stored readings and the first timestamp is the first reading's |
| `Worker.PollEmporia` | backend/python/emporia_worker.py:110-166 | `poll_emporia` on the live database has the effect and result given by `Poll` |
| `Worker.GenerateDemoReading` | backend/python/emporia_worker.py:169-203 | Records exactly the demo reading (stored and bumped) and publishes it unchanged, flagged as demo |
| `Worker.Worker.Step` | backend/python/emporia_worker.py:219-292 | One pass of the loop body in place matches `Next` and keeps the counter and session invariant |
| `Worker.Worker.ConnectAndPoll` | backend/python/emporia_worker.py:236-267 | The connect branch in place matches `Connect`: login, device resolution, announcement and the first poll |
| `Worker.Worker.PollAndCount` | backend/python/emporia_worker.py:266-282 | The poll and counter update in place matches `AfterPoll` |
| `Worker.Worker.Run` | backend/python/emporia_worker.py:219-294 | The loop over a finite run of ticks matches `RunAll` and keeps the invariant at every iteration |
| `Worker.Worker.constructor` | backend/python/emporia_worker.py:214-217 | The loop starts with no session, no device gid and the counter at 0 |

## Left out

- SQLite itself is not modelled: SQL text, commits, row factories, the `updated_at` and `last_updated` timestamps, and JSON serialization of the circuit map. A missing `power_config` table (the `sqlite3.OperationalError` paths) reads the same as a missing key.
- Storage faults are not modelled. The only exceptions the model's catch-all sees are those raised by `login` and `get_devices`; an exception raised by `PyEmVue()` itself is folded into `login`.
- The metering library is not modelled. Its results are inputs, and only the first device returned by `get_device_list_usage` is used, as in the source.
- Exception messages (`str(e)`) are abstract strings. A gid that does not parse is reported as `InvalidGid(text)`, not Python's exact message text.
- Rounding to 2 decimals and the JSON text of each line are left out; published values are the stored ones.
- Logging, environment parsing (`DB_PATH`, `POLL_INTERVAL`, `DEMO_MODE`) and the import check are left out. They become the `Config` value.
- Sleeping is not performed. Each iteration only reports how long it would sleep.
- Process shutdown is not modelled: the `KeyboardInterrupt` handler and `db.close()`. A run ends when its finite sequence of ticks does.
- Floating point is not modelled; usages are exact reals, so NaN usages are not represented.
- DeviceIds.ParseInt: accepts an optional sign followed by ASCII digits only. Python's `int()` also accepts surrounding whitespace, underscores between digits and non-ASCII digits.
- Worker.Next: if a session existed without a device gid (ruled out by `ControlOk`), the poll is modelled as parsing the empty text. Python would raise a `TypeError` from `int(None)`; both are caught inside `poll_emporia` as a poll error.
- Worker.Config: `pollInterval` is a `nat`, so a negative `POLL_INTERVAL` (accepted by `int()` at line 41) is not modelled. In the source, `time.sleep` would then raise `ValueError` after every demo reading and every poll not ending in a reconnect, and the catch-all at lines 288-292 would emit a `retry_in: 60` line, clear the session and sleep 60 s.
- Gateway.Database.UpdateLearningStatus: the model assumes the learning-status row with `id = 1` exists, as the external schema set-up creates it. If the row were missing, the source's `UPDATE ... WHERE id = 1` would silently change nothing; `RunKeepsStatusMatching` and `NextKeepsStatusMatching` rely on the row being there.
- DeviceIds.ParseIntRejects: like `ParseInt`, it says nothing about text made only of digits, signs, underscores and whitespace that is not a plain `[sign]digits` form; `int()` accepts some of these (`" 7"`, `"1_0"`) where `ParseInt` does not.
- Demo.DemoReading: the bounds of the phase noise around 0.55 and 0.45 of the total are not proved.
