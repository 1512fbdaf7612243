/**
 The value types shared by both implementations of the hamster activity engine:
 the closed set of sensor events, the per-hamster and per-sensor records of the
 tracker service, the daily report, and the alerts handed to the alert sink.
 */
module HamsterModel {

  datatype Option<+T> = None | Some(value: T)

  /** The four sensor events. `durationMs` is a Kotlin Long and `errorCode` an Int. */
  datatype HamsterEvent =
    | WheelSpin(wheelId: string, durationMs: int)
    | HamsterEnter(hamsterId: string, wheelId: string)
    | HamsterExit(hamsterId: string, wheelId: string)
    | SensorFailure(sensorId: string, errorCode: int)

  /** An event together with the clock reading at which it is processed. */
  datatype TimedEvent = TimedEvent(event: HamsterEvent, at: int)

  /** The tracker service's per-hamster counters (timestamps in epoch milliseconds). */
  datatype HamsterStat = HamsterStat(
    entriesCount: int,
    exitsCount: int,
    totalRounds: int,
    totalActiveDuration: int,
    lastActiveTimestamp: Option<int>,
    lastSeenTimestamp: int)

  /** `HamsterStat()` with every default; the default `lastSeenTimestamp` is the clock at creation. */
  function NewHamsterStat(now: int): HamsterStat
  {
    HamsterStat(0, 0, 0, 0, None, now)
  }

  /** The tracker service's per-sensor record. */
  datatype SensorStat = SensorStat(lastSeenTimestamp: int)

  /** One hamster's line in a daily report. */
  datatype HamsterStats = HamsterStats(hamsterId: string, totalRounds: int, isActive: bool)

  /** A calendar date; the engine only carries it from the request into the report. */
  datatype LocalDate = LocalDate(year: int, month: int, day: int)

  datatype DailyReport = DailyReport(date: LocalDate, hamsterStats: map<string, HamsterStats>)

  /**
   An alert handed to the alert sink, as a record of what its message names.
   The first three are the messages of HamsterActivityService, the last two
   (and SensorFailed) those of HamsterActivityTrackerService.
   */
  datatype Alert =
    | SensorFailed(sensorId: string, errorCode: int)
    | HamsterInactiveFor(hamsterId: string, minutes: int)
    | SensorInactiveFor(sensorId: string, minutes: int)
    | HamsterInactive(hamsterId: string)
    | SensorInactive(sensorId: string)

  /** The state after one operation and the alerts it delivered, in delivery order. */
  datatype Step<S> = Step(state: S, alerts: seq<Alert>)
}
