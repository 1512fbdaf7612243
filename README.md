# Hamster activity tracker: a Dafny model of its engine

The hamster activity tracker ingests sensor events from hamster wheels: a wheel
spins for some milliseconds, a hamster enters or leaves a wheel, or a sensor
reports a failure. From these it keeps per-hamster and per-sensor state. A
background sweep alerts about hamsters and sensors that have gone quiet, and a
daily report projects each hamster's rounds.
The repository has two implementations of the engine. This model covers both,
plus the report generator that sits on top of the second:

- `model.dfy` (module `HamsterModel`) holds the values both share. These are
  the four events, the tracker's `HamsterStat` and `SensorStat` records, the
  report's `HamsterStats` and `DailyReport`, and the alerts handed to the
  alert sink, kept as records.
- `activity_service.dfy` (module `HamsterActivity`) models
  `HamsterActivityService`. It keeps the wheel each hamster is in, the time
  each hamster and sensor was last active, whether each sensor works, and a
  tally of whole 5-second rounds per hamster. A hamster already in a wheel
  ignores further enters. An exit only counts from the hamster's own wheel.
  The report marks a hamster active above 10 rounds. The sweep alerts after
  60 idle minutes for a hamster, and after 30 silent minutes for a working
  sensor.
- `tracker_service.dfy` (module `HamsterTracker`) models
  `HamsterActivityTrackerService`. It keeps entry, exit and round counters, a
  last-seen time per sensor, and a wheel-to-hamster index. In that index the
  last enter wins and any exit clears the wheel. Every spin of an occupied
  wheel counts one round. The sweep uses a single 5-minute threshold.
- `report_generator.dfy` (module `ReportGenerator`) models
  `ReportGeneratorImpl`. It projects the tracker's counters snapshot into a
  daily report, where a single round makes a hamster active.

Each service is a `class` whose fields are the source's maps, held as Dafny
`map`s. Its methods update those fields in place. Each such method is proved
equal to a pure effect function on the service's state value
(`ServiceState`, `TrackerState`), and the properties are proved about those
functions:

- which entries change and which stay the same;
- the service invariants that every event preserves;
- what a run of events does to the counters.

The clock is a parameter `now`, counted in milliseconds. For
`HamsterActivityTrackerService` it is `System.currentTimeMillis()`, in epoch
milliseconds. For `HamsterActivityService`, `now` and every stored time are
`LocalDateTime` readings: local wall-clock times without a zone, counted in
milliseconds on that local time line. Read that way, `MinutesBetween` is the
source's `ChronoUnit.MINUTES.between`, which subtracts wall-clock readings
rather than measuring elapsed time. Each operation returns `sent`, the alerts
it delivered, in delivery order.

The sweeps are methods with a loop over the map's keys. Each is proved to
deliver exactly the multiset of alerts that a set comprehension over the
whole map defines. Separate lemmas characterise that set entry by entry, in
both directions. Map iteration order is not modelled, so the order of the
alerts is not fixed.

Behaviours of the code worth knowing, each stated by a lemma or contract:

- A spin of 0 ms or less changes nothing in `HamsterActivityService`, not even
  the wheel sensor's last-seen time (`SpinEffect`).
- In `HamsterActivityService`, an exit from a wheel the hamster is not in does
  not refresh the sensor (`ExitEffect`).
- A failed sensor is not terminal in `HamsterActivityService`. It works
  again after the next event that refreshes its wheel's sensor: a spin of
  more than 0 ms, an enter that takes effect, or a matching exit
  (`FailedSensorRevivedExactly`, `SpinRevivesFailedSensor`). Until then it
  stays failed and is never reported for silence
  (`NoSilenceAlertAfterFailure`).
- The two report thresholds differ: more than 10 rounds in
  `HamsterActivityService`, more than 0 in `ReportGeneratorImpl`. The same
  events therefore give different reports (both `EnterThenSpinReport`
  lemmas).
- `HamsterActivityTrackerService` counts one round per spin whatever its
  duration, including 0 ms or less, and adds the duration as it is
  (`HamsterTracker.SpinEffect`). An exit clears the wheel whoever occupies
  it (`HamsterTracker.ExitEffect`).
- The tracker sweep's two comparisons differ. A hamster is reported at
  exactly 5 minutes of quiet, a sensor only after more than 5 minutes
  (`ThresholdIsAsymmetric`).

## Model

| member | source | states |
|---|---|---|
| HamsterActivity.TruncDiv | hamster-activity-tracker/src/main/kotlin/org/example/hamsteractivitytracker/service/HamsterActivityService.kt:70 | The quotient truncates toward zero, as JVM `Long` division does: it lies within one divisor of the dividend, on the side of zero, for both signs. |
| HamsterActivity.RoundExamples | hamster-activity-tracker/src/main/kotlin/org/example/hamsteractivitytracker/service/HamsterActivityService.kt:70 | A 12000 ms spin is 2 whole rounds, 5000 ms is 1, and 4999 ms is 0. |
| HamsterActivity.RefreshSensor | hamster-activity-tracker/src/main/kotlin/org/example/hamsteractivitytracker/service/HamsterActivityService.kt:136-138 | The sensor exists afterwards with last event time `now` and works. Every other sensor is unchanged. |
| HamsterActivity.TouchHamster | hamster-activity-tracker/src/main/kotlin/org/example/hamsteractivitytracker/service/HamsterActivityService.kt:129-134 | The hamster exists afterwards, active at `now`. It keeps its wheel, or has none when it was not tracked. Every other hamster is unchanged. |
| HamsterActivity.SpinEffect | hamster-activity-tracker/src/main/kotlin/org/example/hamsteractivitytracker/service/HamsterActivityService.kt:64-76 | A spin of 0 ms or less changes nothing. Otherwise the wheel's sensor is refreshed. If a hamster in that wheel was found and the spin is worth a whole round, that hamster's tally grows by `durationMs / 5000` and it is active at `now`, in its wheel. In every other case tallies and hamsters are unchanged. |
| HamsterActivity.EnterEffect | hamster-activity-tracker/src/main/kotlin/org/example/hamsteractivitytracker/service/HamsterActivityService.kt:78-89 | A hamster already in some wheel is not moved and nothing changes. Otherwise it is placed in the wheel, active at `now`, and the wheel's sensor is refreshed. Tallies are unchanged. |
| HamsterActivity.ExitEffect | hamster-activity-tracker/src/main/kotlin/org/example/hamsteractivitytracker/service/HamsterActivityService.kt:91-102 | An exit from a wheel the hamster is not in changes nothing. Otherwise the hamster is out of every wheel, active at `now`, and the wheel's sensor is refreshed. Tallies are unchanged. |
| HamsterActivity.FailureEffect | hamster-activity-tracker/src/main/kotlin/org/example/hamsteractivitytracker/service/HamsterActivityService.kt:104-108 | The sensor is recorded as not working at `now`. Every other sensor, every hamster and every tally is unchanged. |
| HamsterActivity.EventEffect | hamster-activity-tracker/src/main/kotlin/org/example/hamsteractivitytracker/service/HamsterActivityService.kt:55-62 | Only a sensor failure alerts, with its id and code. Every event preserves the invariant: tallied hamsters are tracked and tallies are positive. Tracked hamsters are never dropped, and no tally decreases. Only a spin changes tallies. |
| HamsterActivity.RoundsReport | hamster-activity-tracker/src/main/kotlin/org/example/hamsteractivitytracker/service/HamsterActivityService.kt:112-123 | The report carries the date and one line per tallied hamster. Each line has the hamster's id and tally, and is active exactly when the tally exceeds 10. |
| HamsterActivity.HamsterIdleAlertsExactly | hamster-activity-tracker/src/main/kotlin/org/example/hamsteractivitytracker/service/HamsterActivityService.kt:152-157 | An alert is in the hamster sweep exactly when it names a tracked hamster idle more than 60 whole minutes, with those minutes. |
| HamsterActivity.SensorIdleAlertsExactly | hamster-activity-tracker/src/main/kotlin/org/example/hamsteractivitytracker/service/HamsterActivityService.kt:159-164 | An alert is in the sensor sweep exactly when it names a working sensor silent more than 30 whole minutes, with those minutes. |
| HamsterActivity.HamsterIdleAlertsInsert | hamster-activity-tracker/src/main/kotlin/org/example/hamsteractivitytracker/service/HamsterActivityService.kt:152-157 | Visiting one more hamster appends its alert exactly when it is idle more than 60 minutes. The alerts then equal those due for the enlarged visited set. |
| HamsterActivity.SensorIdleAlertsInsert | hamster-activity-tracker/src/main/kotlin/org/example/hamsteractivitytracker/service/HamsterActivityService.kt:159-164 | Visiting one more sensor appends its alert exactly when it works and is silent more than 30 minutes. The alerts then equal those due for the enlarged visited set. |
| HamsterActivity.NoSilenceAlertAfterFailure | hamster-activity-tracker/src/main/kotlin/org/example/hamsteractivitytracker/service/HamsterActivityService.kt:161 | Right after a failure, no sweep at any later time alerts for that sensor's silence. |
| HamsterActivity.SpinRevivesFailedSensor | hamster-activity-tracker/src/main/kotlin/org/example/hamsteractivitytracker/service/HamsterActivityService.kt:65-67 | A spin lasting more than 0 ms on a failed sensor's wheel marks that sensor working again, seen at `now`. |
| HamsterActivity.FailedSensorRevivedExactly | hamster-activity-tracker/src/main/kotlin/org/example/hamsteractivitytracker/service/HamsterActivityService.kt:55-102 | From a state where a sensor has failed, one event leaves it working exactly when the event refreshes that wheel's sensor: a spin of more than 0 ms, an enter by a hamster in no wheel, or an exit by the hamster in that wheel. A reviving event records it working at `now`. Any other event leaves it failed, and then no sweep alerts for its silence. |
| HamsterActivity.ReportedHamstersAreTracked | hamster-activity-tracker/src/main/kotlin/org/example/hamsteractivitytracker/service/HamsterActivityService.kt:112-123 | Under the service invariant, every hamster in the report is a tracked hamster with at least one round. |
| HamsterActivity.EnterThenSpinReport | hamster-activity-tracker/src/main/kotlin/org/example/hamsteractivitytracker/service/HamsterActivityService.kt:64-123 | From an empty service, Enter(H, W) then a 12000 ms spin on W reports H with 2 rounds, not active. |
| HamsterActivity.HamsterActivityService.constructor | hamster-activity-tracker/src/main/kotlin/org/example/hamsteractivitytracker/service/HamsterActivityService.kt:44-46 | A new service has three empty maps and satisfies the invariant. |
| HamsterActivity.HamsterActivityService.ProcessEvent | hamster-activity-tracker/src/main/kotlin/org/example/hamsteractivitytracker/service/HamsterActivityService.kt:55-62 | The new maps and the delivered alerts are `EventEffect` of the old maps, for the occupant the search found. The invariant is kept. |
| HamsterActivity.HamsterActivityService.HandleWheelSpin | hamster-activity-tracker/src/main/kotlin/org/example/hamsteractivitytracker/service/HamsterActivityService.kt:64-76 | The new maps are `SpinEffect` of the old ones. For a spin lasting more than 0 ms, the occupant used is a valid answer of the search. |
| HamsterActivity.HamsterActivityService.HandleHamsterEnter | hamster-activity-tracker/src/main/kotlin/org/example/hamsteractivitytracker/service/HamsterActivityService.kt:78-89 | The new maps are `EnterEffect` of the old ones. |
| HamsterActivity.HamsterActivityService.HandleHamsterExit | hamster-activity-tracker/src/main/kotlin/org/example/hamsteractivitytracker/service/HamsterActivityService.kt:91-102 | The new maps are `ExitEffect` of the old ones. |
| HamsterActivity.HamsterActivityService.HandleSensorFailure | hamster-activity-tracker/src/main/kotlin/org/example/hamsteractivitytracker/service/HamsterActivityService.kt:104-110 | The new maps are `FailureEffect` of the old ones. Exactly one alert is delivered, naming the sensor and its error code. |
| HamsterActivity.HamsterActivityService.FindHamsterInWheel | hamster-activity-tracker/src/main/kotlin/org/example/hamsteractivitytracker/service/HamsterActivityService.kt:125-127 | The result is a hamster whose current wheel is `wheelId`. It is None only when no tracked hamster is in that wheel. |
| HamsterActivity.HamsterActivityService.UpdateHamsterActivity | hamster-activity-tracker/src/main/kotlin/org/example/hamsteractivitytracker/service/HamsterActivityService.kt:129-134 | Only the hamster map changes, to `TouchHamster` of the old one. |
| HamsterActivity.HamsterActivityService.UpdateSensorState | hamster-activity-tracker/src/main/kotlin/org/example/hamsteractivitytracker/service/HamsterActivityService.kt:136-138 | Only the sensor map changes, to `RefreshSensor` of the old one. |
| HamsterActivity.HamsterActivityService.GenerateDailyReport | hamster-activity-tracker/src/main/kotlin/org/example/hamsteractivitytracker/service/HamsterActivityService.kt:112-123 | Without changing anything, it returns `RoundsReport` of the current tallies. |
| HamsterActivity.HamsterActivityService.CheckInactiveEntities | hamster-activity-tracker/src/main/kotlin/org/example/hamsteractivitytracker/service/HamsterActivityService.kt:149-165 | Without changing anything, it delivers every due hamster alert and every due sensor alert, each exactly once. |
| HamsterActivity.HamsterActivityService.CheckInactiveHamsters | hamster-activity-tracker/src/main/kotlin/org/example/hamsteractivitytracker/service/HamsterActivityService.kt:152-157 | The delivered alerts, as a multiset, are exactly the idle-hamster alerts of the whole map. |
| HamsterActivity.HamsterActivityService.CheckInactiveSensors | hamster-activity-tracker/src/main/kotlin/org/example/hamsteractivitytracker/service/HamsterActivityService.kt:159-164 | The delivered alerts, as a multiset, are exactly the silent-working-sensor alerts of the whole map. |
| HamsterTracker.EnterEffect | hamster-activity-tracker/src/main/kotlin/org/example/hamsteractivitytracker/service/HamsterActivityTrackerService.kt:23-26 | The hamster has counters afterwards, fresh ones stamped `now` if it had none. Its entry count grows by one and its other counters are unchanged. The wheel now maps to it, whoever held it. Other hamsters and sensors are unchanged. |
| HamsterTracker.ExitEffect | hamster-activity-tracker/src/main/kotlin/org/example/hamsteractivitytracker/service/HamsterActivityTrackerService.kt:28-31 | The hamster has counters afterwards. Its exit count grows by one and its other counters are unchanged. The wheel is removed from the index, whoever held it, and every other wheel keeps its hamster. Sensors are unchanged. |
| HamsterTracker.SpinEffect | hamster-activity-tracker/src/main/kotlin/org/example/hamsteractivitytracker/service/HamsterActivityTrackerService.kt:33-42 | The wheel's sensor is seen at `now` and the index is unchanged. For an occupied wheel, the occupant gains exactly one round and the spin's duration, and was active at `now`; its entry, exit and last-seen fields are unchanged. Other hamsters are unchanged, and every hamster is unchanged when the wheel is empty. |
| HamsterTracker.TrackEffect | hamster-activity-tracker/src/main/kotlin/org/example/hamsteractivitytracker/service/HamsterActivityTrackerService.kt:20-49 | Only a sensor failure alerts, with its id and code, and a failure changes no map. Every event keeps the tracker consistent: each indexed hamster has counters and no counter is negative. No hamster is dropped. |
| HamsterTracker.Replay | hamster-activity-tracker/src/main/kotlin/org/example/hamsteractivitytracker/service/HamsterActivityTrackerService.kt:20-49 | Any sequence of events keeps the tracker consistent (indexed hamsters have counters, no counter is negative) and drops no hamster. |
| HamsterTracker.ReplayCountsEntriesAndExits | hamster-activity-tracker/src/main/kotlin/org/example/hamsteractivitytracker/service/HamsterActivityTrackerService.kt:23-31 | After any sequence of events, a hamster's entry count has grown by exactly its number of Enter events, and its exit count by exactly its number of Exit events. |
| HamsterTracker.InactiveHamsterAlertsExactly | hamster-activity-tracker/src/main/kotlin/org/example/hamsteractivitytracker/service/HamsterActivityTrackerService.kt:55-60 | A hamster is reported exactly when it has counters and either never spun or last spun at least 300000 ms ago. Only hamster alerts are produced. |
| HamsterTracker.InactiveSensorAlertsExactly | hamster-activity-tracker/src/main/kotlin/org/example/hamsteractivitytracker/service/HamsterActivityTrackerService.kt:62-66 | A sensor is reported exactly when it was last seen more than 300000 ms ago. Only sensor alerts are produced. |
| HamsterTracker.ThresholdIsAsymmetric | hamster-activity-tracker/src/main/kotlin/org/example/hamsteractivitytracker/service/HamsterActivityTrackerService.kt:52-66 | At exactly 300000 ms of quiet, a hamster is reported but a sensor is not. |
| HamsterTracker.InactiveHamsterAlertsInsert | hamster-activity-tracker/src/main/kotlin/org/example/hamsteractivitytracker/service/HamsterActivityTrackerService.kt:55-60 | Visiting one more hamster appends its alert exactly when it is not recently active. The alerts then equal those due for the enlarged visited set. |
| HamsterTracker.InactiveSensorAlertsInsert | hamster-activity-tracker/src/main/kotlin/org/example/hamsteractivitytracker/service/HamsterActivityTrackerService.kt:62-66 | Visiting one more sensor appends its alert exactly when it is stale. The alerts then equal those due for the enlarged visited set. |
| HamsterTracker.HamsterActivityTrackerService.constructor | hamster-activity-tracker/src/main/kotlin/org/example/hamsteractivitytracker/service/HamsterActivityTrackerService.kt:15-17 | A new tracker has three empty maps and is consistent. |
| HamsterTracker.HamsterActivityTrackerService.ProcessEvent | hamster-activity-tracker/src/main/kotlin/org/example/hamsteractivitytracker/service/HamsterActivityTrackerService.kt:20-49 | The new maps and the delivered alerts are `TrackEffect` of the old maps. The tracker stays consistent. |
| HamsterTracker.HamsterActivityTrackerService.GetOrPutStat | hamster-activity-tracker/src/main/kotlin/org/example/hamsteractivitytracker/service/HamsterActivityTrackerService.kt:24 | It returns the hamster's counters, or fresh defaults stamped `now`. It stores the returned value under the hamster and changes nothing else. |
| HamsterTracker.HamsterActivityTrackerService.CheckInactiveHamstersAndSensors | hamster-activity-tracker/src/main/kotlin/org/example/hamsteractivitytracker/service/HamsterActivityTrackerService.kt:50-68 | Without changing anything, it delivers every due hamster alert and every due sensor alert, each exactly once. |
| HamsterTracker.HamsterActivityTrackerService.CheckInactiveHamsters | hamster-activity-tracker/src/main/kotlin/org/example/hamsteractivitytracker/service/HamsterActivityTrackerService.kt:55-60 | The delivered alerts, as a multiset, are exactly the inactive-hamster alerts of the whole map. |
| HamsterTracker.HamsterActivityTrackerService.CheckInactiveSensors | hamster-activity-tracker/src/main/kotlin/org/example/hamsteractivitytracker/service/HamsterActivityTrackerService.kt:62-66 | The delivered alerts, as a multiset, are exactly the stale-sensor alerts of the whole map. |
| HamsterTracker.HamsterActivityTrackerService.GetHamsterStatsSnapshot | hamster-activity-tracker/src/main/kotlin/org/example/hamsteractivitytracker/service/HamsterActivityTrackerService.kt:70 | It returns the counters exactly as they are and changes nothing. |
| HamsterTracker.HamsterActivityTrackerService.GetSensorStatsSnapshot | hamster-activity-tracker/src/main/kotlin/org/example/hamsteractivitytracker/service/HamsterActivityTrackerService.kt:71 | It returns the sensor records exactly as they are and changes nothing. |
| ReportGenerator.SnapshotReport | hamster-activity-tracker/src/main/kotlin/org/example/hamsteractivitytracker/service/ReportGeneratorImpl.kt:16-28 | The report carries the date and one line per hamster of the snapshot. Each line has the hamster's id and total rounds, and is active exactly when the rounds exceed 0. |
| ReportGenerator.ReportGeneratorImpl.constructor | hamster-activity-tracker/src/main/kotlin/org/example/hamsteractivitytracker/service/ReportGeneratorImpl.kt:9-11 | The generator is bound to the given tracker. |
| ReportGenerator.ReportGeneratorImpl.GenerateDailyReport | hamster-activity-tracker/src/main/kotlin/org/example/hamsteractivitytracker/service/ReportGeneratorImpl.kt:13-29 | Without changing anything, it returns `SnapshotReport` of the tracker's current counters. |
| ReportGenerator.EnteredOnlyIsReportedInactive | hamster-activity-tracker/src/main/kotlin/org/example/hamsteractivitytracker/service/ReportGeneratorImpl.kt:16-23 | A hamster seen for the first time through an Enter is reported with 0 rounds, not active. |
| ReportGenerator.AnySpinMakesOccupantActive | hamster-activity-tracker/src/main/kotlin/org/example/hamsteractivitytracker/service/ReportGeneratorImpl.kt:21 | In a consistent tracker, where no counter is negative, any spin of an occupied wheel, however short, makes the occupant reported active. |
| ReportGenerator.EnterThenSpinReport | hamster-activity-tracker/src/main/kotlin/org/example/hamsteractivitytracker/service/ReportGeneratorImpl.kt:13-29 | From an empty tracker, Enter(H, W) then a 12000 ms spin on W reports H with 1 round, active. |

## Left out

- Coroutines, the `Mutex`, the monitoring loop that runs the sweep every 60 seconds, and its cancellation at shutdown (`startMonitoring`, `cleanup`) are not modelled. Each operation is one atomic step. Concurrency is outside what the model states, including the spin handler in `HamsterActivityService` that runs outside the mutex.
- The wall clock (`LocalDateTime.now()`, `System.currentTimeMillis()`) is the parameter `now`. Two clock readings within one operation are taken as equal.
- `LocalDateTime` is modelled as integer milliseconds of local wall-clock time. Its sub-millisecond precision is dropped. Near a minute boundary this can move `MINUTES.between` by one relative to the source.
- Time-zone and daylight-saving jumps of the local clock are not modelled. `HamsterActivityService` measures idleness on wall-clock readings, so the model's `now` is that wall-clock reading, not elapsed time. For example, a hamster last active at 01:59 and swept at 03:00 on the night the clocks go forward counts as idle for 61 minutes, although one real minute passed.
- Alert message texts are not modelled. An alert is a record of the ids and numbers its message names. `SimpleAlertService` only prints the message, so it is not part of this model.
- Spring wiring, the HTTP controllers, JSON mapping, the simulator's `main`, the unused `DailyStats` record, and the `ReportGenerator` interface's default date are not part of this model.
- Kotlin `Int` and `Long` overflow is not modelled, and neither is the `.toInt()` of the round count. Counters and durations are unbounded integers.
- Map iteration order is not modelled. The sweeps are stated as multisets of alerts, and the wheel occupant search as any valid answer, because which hamster `find` returns depends on iteration order.
- The snapshot returned by `getHamsterStatsSnapshot` shares its mutable `HamsterStat` objects with the tracker. The model's records are values, so later tracker updates are not visible through an earlier snapshot.
- `HamsterActivityService` shares `AtomicInteger` tallies. The model replaces them with plain values in a map.
