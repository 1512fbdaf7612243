/**
 HamsterActivityService: the engine the HTTP controllers call. It keeps, per
 hamster, the wheel it is in and when it was last active; per sensor, when it
 last reported and whether it works; and per hamster a tally of whole wheel
 rounds. Each processed event is one atomic step; the clock is the parameter
 `now`, a local wall-clock reading (`LocalDateTime`) counted in milliseconds.
 */
module HamsterActivity {
  import opened HamsterModel

  const ROUND_DURATION_MS := 5000
  const ACTIVE_THRESHOLD := 10
  const HAMSTER_INACTIVITY_MINUTES := 60
  const SENSOR_INACTIVITY_MINUTES := 30
  const MS_PER_MINUTE := 60000

  datatype HamsterState = HamsterState(currentWheelId: Option<string>, lastActivityTime: int)

  datatype SensorState = SensorState(lastEventTime: int, isWorking: bool)

  /** The three maps of the service, as one value. */
  datatype ServiceState = ServiceState(
    hamsterStates: map<string, HamsterState>,
    sensorStates: map<string, SensorState>,
    dailyRounds: map<string, int>)

  /** Integer division of the JVM, which truncates toward zero. */
  function TruncDiv(a: int, b: int): (q: int)
    requires 0 < b
    ensures 0 <= a ==> 0 <= q && q * b <= a < q * b + b
    ensures a < 0 ==> q <= 0 && q * b - b < a <= q * b
  {
    if 0 <= a then a / b else -((-a) / b)
  }

  /** Whole rounds in a spin of `durationMs`: the fractional round is dropped. */
  function Rounds(durationMs: int): int
  {
    TruncDiv(durationMs, ROUND_DURATION_MS)
  }

  /** `ChronoUnit.MINUTES.between(from, to)` on millisecond timestamps: whole minutes, truncated toward zero. */
  function MinutesBetween(from: int, to: int): int
  {
    TruncDiv(to - from, MS_PER_MINUTE)
  }

  lemma RoundExamples()
    ensures Rounds(12000) == 2 && Rounds(5000) == 1 && Rounds(4999) == 0
  {
  }

  /** The current tally of a hamster; a missing tally reads as 0. */
  function Tally(dailyRounds: map<string, int>, hamsterId: string): int
  {
    if hamsterId in dailyRounds then dailyRounds[hamsterId] else 0
  }

  predicate InWheel(hamsterStates: map<string, HamsterState>, hamsterId: string, wheelId: string)
  {
    hamsterId in hamsterStates && hamsterStates[hamsterId].currentWheelId == Some(wheelId)
  }

  predicate InSomeWheel(hamsterStates: map<string, HamsterState>, hamsterId: string)
  {
    hamsterId in hamsterStates && hamsterStates[hamsterId].currentWheelId.Some?
  }

  /**
   `occupant` is an answer the search for the hamster in `wheelId` may give:
   some hamster in that wheel, or None when there is none. Several hamsters can
   be in one wheel; which of them is found depends on map iteration order.
   */
  predicate OccupantChoice(hamsterStates: map<string, HamsterState>, wheelId: string, occupant: Option<string>)
  {
    match occupant
    case None => forall h :: h in hamsterStates ==> hamsterStates[h].currentWheelId != Some(wheelId)
    case Some(h) => InWheel(hamsterStates, h, wheelId)
  }

  /** updateSensorState: the sensor reported at `now` and works. */
  function RefreshSensor(sensorStates: map<string, SensorState>, sensorId: string, now: int): (r: map<string, SensorState>)
    ensures r.Keys == sensorStates.Keys + {sensorId}
    ensures r[sensorId].lastEventTime == now && r[sensorId].isWorking
    ensures forall id :: id in sensorStates && id != sensorId ==> r[id] == sensorStates[id]
  {
    sensorStates[sensorId := SensorState(now, true)]
  }

  /** updateHamsterActivity: the hamster was active at `now`; a missing hamster is created outside any wheel. */
  function TouchHamster(hamsterStates: map<string, HamsterState>, hamsterId: string, now: int): (r: map<string, HamsterState>)
    ensures r.Keys == hamsterStates.Keys + {hamsterId}
    ensures r[hamsterId].lastActivityTime == now
    ensures r[hamsterId].currentWheelId == if hamsterId in hamsterStates then hamsterStates[hamsterId].currentWheelId else None
    ensures forall h :: h in hamsterStates && h != hamsterId ==> r[h] == hamsterStates[h]
  {
    if hamsterId in hamsterStates then hamsterStates[hamsterId := hamsterStates[hamsterId].(lastActivityTime := now)]
    else hamsterStates[hamsterId := HamsterState(None, now)]
  }

  /**
   The service invariant: every tallied hamster is a tracked hamster, and a
   tally, once it exists, is positive (it is created by a spin worth rounds).
   */
  ghost predicate Invariant(s: ServiceState)
  {
    && s.dailyRounds.Keys <= s.hamsterStates.Keys
    && forall h :: h in s.dailyRounds ==> 0 < s.dailyRounds[h]
  }

  /** A spin credits rounds only when it lasts, an occupant was found and it is worth a whole round. */
  predicate Credited(durationMs: int, occupant: Option<string>)
  {
    0 < durationMs && occupant.Some? && 0 < Rounds(durationMs)
  }

  /** handleWheelSpin, with `occupant` the hamster findHamsterInWheel found. */
  function SpinEffect(s: ServiceState, wheelId: string, durationMs: int, now: int, occupant: Option<string>): (r: ServiceState)
    requires 0 < durationMs ==> OccupantChoice(s.hamsterStates, wheelId, occupant)
    ensures durationMs <= 0 ==> r == s
    ensures 0 < durationMs ==> r.sensorStates == s.sensorStates[wheelId := SensorState(now, true)]
    ensures Credited(durationMs, occupant) ==>
              var h := occupant.value;
              && InWheel(s.hamsterStates, h, wheelId)
              && r.dailyRounds == s.dailyRounds[h := Tally(s.dailyRounds, h) + durationMs / ROUND_DURATION_MS]
              && r.hamsterStates == s.hamsterStates[h := HamsterState(Some(wheelId), now)]
    ensures !Credited(durationMs, occupant) ==> r.dailyRounds == s.dailyRounds && r.hamsterStates == s.hamsterStates
  {
    if durationMs <= 0 then s
    else
      var refreshed := s.(sensorStates := RefreshSensor(s.sensorStates, wheelId, now));
      match occupant
      case None => refreshed
      case Some(h) =>
        var rounds := Rounds(durationMs);
        if 0 < rounds then
          refreshed.(dailyRounds := refreshed.dailyRounds[h := Tally(refreshed.dailyRounds, h) + rounds],
                     hamsterStates := TouchHamster(refreshed.hamsterStates, h, now))
        else refreshed
  }

  /** handleHamsterEnter: the first claim wins; a hamster already in a wheel is not moved. */
  function EnterEffect(s: ServiceState, hamsterId: string, wheelId: string, now: int): (r: ServiceState)
    ensures InSomeWheel(s.hamsterStates, hamsterId) ==> r == s
    ensures !InSomeWheel(s.hamsterStates, hamsterId) ==>
              && r.hamsterStates == s.hamsterStates[hamsterId := HamsterState(Some(wheelId), now)]
              && r.sensorStates == s.sensorStates[wheelId := SensorState(now, true)]
              && r.dailyRounds == s.dailyRounds
  {
    if InSomeWheel(s.hamsterStates, hamsterId) then s
    else
      s.(hamsterStates := s.hamsterStates[hamsterId := HamsterState(Some(wheelId), now)],
         sensorStates := RefreshSensor(s.sensorStates, wheelId, now))
  }

  /** handleHamsterExit: only an exit from the wheel the hamster is in has an effect. */
  function ExitEffect(s: ServiceState, hamsterId: string, wheelId: string, now: int): (r: ServiceState)
    ensures !InWheel(s.hamsterStates, hamsterId, wheelId) ==> r == s
    ensures InWheel(s.hamsterStates, hamsterId, wheelId) ==>
              && r.hamsterStates == s.hamsterStates[hamsterId := HamsterState(None, now)]
              && r.sensorStates == s.sensorStates[wheelId := SensorState(now, true)]
              && r.dailyRounds == s.dailyRounds
  {
    if !InWheel(s.hamsterStates, hamsterId, wheelId) then s
    else
      s.(hamsterStates := s.hamsterStates[hamsterId := s.hamsterStates[hamsterId].(currentWheelId := None, lastActivityTime := now)],
         sensorStates := RefreshSensor(s.sensorStates, wheelId, now))
  }

  /** handleSensorFailure, without its alert: the sensor is marked not working. */
  function FailureEffect(s: ServiceState, sensorId: string, now: int): (r: ServiceState)
    ensures r.sensorStates.Keys == s.sensorStates.Keys + {sensorId}
    ensures r.sensorStates[sensorId] == SensorState(now, false)
    ensures forall id :: id in s.sensorStates && id != sensorId ==> r.sensorStates[id] == s.sensorStates[id]
    ensures r.hamsterStates == s.hamsterStates && r.dailyRounds == s.dailyRounds
  {
    s.(sensorStates := s.sensorStates[sensorId := SensorState(now, false)])
  }

  /** What processEvent needs of the ghost choice of the spin's occupant. */
  predicate SpinChoice(s: ServiceState, event: HamsterEvent, occupant: Option<string>)
  {
    event.WheelSpin? && 0 < event.durationMs ==> OccupantChoice(s.hamsterStates, event.wheelId, occupant)
  }

  /** processEvent: dispatch on the event; only a sensor failure alerts. */
  function EventEffect(s: ServiceState, event: HamsterEvent, now: int, occupant: Option<string>): (r: Step<ServiceState>)
    requires SpinChoice(s, event, occupant)
    ensures r.alerts == if event.SensorFailure? then [SensorFailed(event.sensorId, event.errorCode)] else []
    ensures Invariant(s) ==> Invariant(r.state)
    ensures s.hamsterStates.Keys <= r.state.hamsterStates.Keys
    ensures forall h :: h in s.dailyRounds ==> h in r.state.dailyRounds && s.dailyRounds[h] <= r.state.dailyRounds[h]
    ensures !event.WheelSpin? ==> r.state.dailyRounds == s.dailyRounds
  {
    match event
    case WheelSpin(wheelId, durationMs) => Step(SpinEffect(s, wheelId, durationMs, now, occupant), [])
    case HamsterEnter(hamsterId, wheelId) => Step(EnterEffect(s, hamsterId, wheelId, now), [])
    case HamsterExit(hamsterId, wheelId) => Step(ExitEffect(s, hamsterId, wheelId, now), [])
    case SensorFailure(sensorId, errorCode) => Step(FailureEffect(s, sensorId, now), [SensorFailed(sensorId, errorCode)])
  }

  /** generateDailyReport: one line per tallied hamster; more than ACTIVE_THRESHOLD rounds is active. */
  function RoundsReport(dailyRounds: map<string, int>, date: LocalDate): (report: DailyReport)
    ensures report.date == date
    ensures report.hamsterStats.Keys == dailyRounds.Keys
    ensures forall h :: h in report.hamsterStats ==>
              && report.hamsterStats[h].hamsterId == h
              && report.hamsterStats[h].totalRounds == dailyRounds[h]
              && (report.hamsterStats[h].isActive <==> dailyRounds[h] > 10)
  {
    DailyReport(date, map h | h in dailyRounds :: HamsterStats(h, dailyRounds[h], dailyRounds[h] > ACTIVE_THRESHOLD))
  }

  /**
   The sweep's alerts for the hamsters among `among`: one per such hamster
   idle for more than HAMSTER_INACTIVITY_MINUTES whole minutes.
   */
  function HamsterIdleAlerts(hamsterStates: map<string, HamsterState>, among: set<string>, now: int): set<Alert>
  {
    set h | h in among && h in hamsterStates && MinutesBetween(hamsterStates[h].lastActivityTime, now) > HAMSTER_INACTIVITY_MINUTES
      :: HamsterInactiveFor(h, MinutesBetween(hamsterStates[h].lastActivityTime, now))
  }

  /**
   The sweep's alerts for the sensors among `among`: one per such sensor that
   works and has been silent for more than SENSOR_INACTIVITY_MINUTES whole minutes.
   */
  function SensorIdleAlerts(sensorStates: map<string, SensorState>, among: set<string>, now: int): set<Alert>
  {
    set id | id in among && id in sensorStates && MinutesBetween(sensorStates[id].lastEventTime, now) > SENSOR_INACTIVITY_MINUTES
                         && sensorStates[id].isWorking
      :: SensorInactiveFor(id, MinutesBetween(sensorStates[id].lastEventTime, now))
  }

  /** The hamster alerts of a sweep are exactly: one per hamster idle more than 60 minutes, with its idle minutes. */
  lemma HamsterIdleAlertsExactly(hamsterStates: map<string, HamsterState>, now: int, a: Alert)
    ensures a in HamsterIdleAlerts(hamsterStates, hamsterStates.Keys, now) <==>
              && a.HamsterInactiveFor?
              && a.hamsterId in hamsterStates
              && a.minutes == MinutesBetween(hamsterStates[a.hamsterId].lastActivityTime, now)
              && a.minutes > 60
  {
  }

  /** The sensor alerts of a sweep are exactly: one per working sensor silent more than 30 minutes, with its silent minutes. */
  lemma SensorIdleAlertsExactly(sensorStates: map<string, SensorState>, now: int, a: Alert)
    ensures a in SensorIdleAlerts(sensorStates, sensorStates.Keys, now) <==>
              && a.SensorInactiveFor?
              && a.sensorId in sensorStates
              && a.minutes == MinutesBetween(sensorStates[a.sensorId].lastEventTime, now)
              && a.minutes > 30
              && sensorStates[a.sensorId].isWorking
  {
  }

  /** Visiting one more hamster adds its alert, if it is idle, to those of the hamsters visited before. */
  lemma HamsterIdleAlertsInsert(hamsterStates: map<string, HamsterState>, among: set<string>, sent: seq<Alert>, hamsterId: string, now: int)
    requires hamsterId in hamsterStates && hamsterId !in among
    requires multiset(sent) == multiset(HamsterIdleAlerts(hamsterStates, among, now))
    ensures var minutes := MinutesBetween(hamsterStates[hamsterId].lastActivityTime, now);
            var sent' := if minutes > HAMSTER_INACTIVITY_MINUTES then sent + [HamsterInactiveFor(hamsterId, minutes)] else sent;
            multiset(sent') == multiset(HamsterIdleAlerts(hamsterStates, among + {hamsterId}, now))
  {
  }

  /** Visiting one more sensor adds its alert, if it works and is silent, to those of the sensors visited before. */
  lemma SensorIdleAlertsInsert(sensorStates: map<string, SensorState>, among: set<string>, sent: seq<Alert>, sensorId: string, now: int)
    requires sensorId in sensorStates && sensorId !in among
    requires multiset(sent) == multiset(SensorIdleAlerts(sensorStates, among, now))
    ensures var state := sensorStates[sensorId];
            var minutes := MinutesBetween(state.lastEventTime, now);
            var sent' := if minutes > SENSOR_INACTIVITY_MINUTES && state.isWorking then sent + [SensorInactiveFor(sensorId, minutes)] else sent;
            multiset(sent') == multiset(SensorIdleAlerts(sensorStates, among + {sensorId}, now))
  {
  }

  /** A failed sensor is never reported for silence, however long it stays silent. */
  lemma NoSilenceAlertAfterFailure(s: ServiceState, sensorId: string, failedAt: int, now: int)
    ensures var failed := FailureEffect(s, sensorId, failedAt).sensorStates;
            forall a :: a in SensorIdleAlerts(failed, failed.Keys, now) ==> a.sensorId != sensorId
  {
  }

  /** An example of FailedSensorRevivedExactly: a lasting spin on a failed sensor's wheel makes it work again. */
  lemma SpinRevivesFailedSensor(s: ServiceState, sensorId: string, failedAt: int, durationMs: int, now: int, occupant: Option<string>)
    requires 0 < durationMs && OccupantChoice(s.hamsterStates, sensorId, occupant)
    ensures SpinEffect(FailureEffect(s, sensorId, failedAt), sensorId, durationMs, now, occupant).sensorStates[sensorId] == SensorState(now, true)
  {
  }

  /** Whether `event` refreshes the sensor of wheel `sensorId`: a lasting spin, an enter that takes effect, or a matching exit. */
  predicate RefreshesSensor(s: ServiceState, event: HamsterEvent, sensorId: string)
  {
    match event
    case WheelSpin(wheelId, durationMs) => wheelId == sensorId && 0 < durationMs
    case HamsterEnter(hamsterId, wheelId) => wheelId == sensorId && !InSomeWheel(s.hamsterStates, hamsterId)
    case HamsterExit(hamsterId, wheelId) => wheelId == sensorId && InWheel(s.hamsterStates, hamsterId, wheelId)
    case SensorFailure(_, _) => false
  }

  /**
   A failed sensor works again after exactly the events that refresh it. Any
   other event leaves it failed, so no sweep alerts for its silence.
   */
  lemma FailedSensorRevivedExactly(s: ServiceState, event: HamsterEvent, now: int, occupant: Option<string>, sensorId: string, later: int)
    requires SpinChoice(s, event, occupant)
    requires sensorId in s.sensorStates && !s.sensorStates[sensorId].isWorking
    ensures var after := EventEffect(s, event, now, occupant).state.sensorStates;
            && sensorId in after
            && (after[sensorId].isWorking <==> RefreshesSensor(s, event, sensorId))
            && (RefreshesSensor(s, event, sensorId) ==> after[sensorId] == SensorState(now, true))
            && (!RefreshesSensor(s, event, sensorId) ==>
                  forall a :: a in SensorIdleAlerts(after, after.Keys, later) ==> a.sensorId != sensorId)
  {
  }

  /** Under the service invariant, every hamster in the report is a tracked hamster with at least one round. */
  lemma ReportedHamstersAreTracked(s: ServiceState, date: LocalDate)
    requires Invariant(s)
    ensures var report := RoundsReport(s.dailyRounds, date);
            forall h :: h in report.hamsterStats ==> h in s.hamsterStates && 0 < report.hamsterStats[h].totalRounds
  {
  }

  /** From an empty service, Enter(H, W) then a 12-second spin on W credits H with 2 rounds, not enough to be active. */
  lemma EnterThenSpinReport(hamsterId: string, wheelId: string, enteredAt: int, spunAt: int, occupant: Option<string>, date: LocalDate)
    requires OccupantChoice(EnterEffect(ServiceState(map[], map[], map[]), hamsterId, wheelId, enteredAt).hamsterStates, wheelId, occupant)
    ensures var entered := EnterEffect(ServiceState(map[], map[], map[]), hamsterId, wheelId, enteredAt);
            var spun := SpinEffect(entered, wheelId, 12000, spunAt, occupant);
            RoundsReport(spun.dailyRounds, date) == DailyReport(date, map[hamsterId := HamsterStats(hamsterId, 2, false)])
  {
  }

  class HamsterActivityService {
    var hamsterStates: map<string, HamsterState>
    var sensorStates: map<string, SensorState>
    var dailyRounds: map<string, int>

    function State(): ServiceState
      reads this
    {
      ServiceState(hamsterStates, sensorStates, dailyRounds)
    }

    ghost predicate Valid()
      reads this
    {
      Invariant(State())
    }

    constructor ()
      ensures Valid()
      ensures State() == ServiceState(map[], map[], map[])
    {
      hamsterStates, sensorStates, dailyRounds := map[], map[], map[];
    }

    /** One event, applied atomically; `sent` is what was delivered to the alert sink. */
    method ProcessEvent(event: HamsterEvent, now: int) returns (sent: seq<Alert>, ghost occupant: Option<string>)
      requires Valid()
      modifies this
      ensures Valid()
      ensures SpinChoice(old(State()), event, occupant)
      ensures Step(State(), sent) == EventEffect(old(State()), event, now, occupant)
    {
      sent, occupant := [], None;
      match event
      case WheelSpin(wheelId, durationMs) =>
        occupant := HandleWheelSpin(wheelId, durationMs, now);
      case HamsterEnter(hamsterId, wheelId) =>
        HandleHamsterEnter(hamsterId, wheelId, now);
      case HamsterExit(hamsterId, wheelId) =>
        HandleHamsterExit(hamsterId, wheelId, now);
      case SensorFailure(sensorId, errorCode) =>
        sent := HandleSensorFailure(sensorId, errorCode, now);
    }

    method HandleWheelSpin(wheelId: string, durationMs: int, now: int) returns (ghost occupant: Option<string>)
      modifies this
      ensures 0 < durationMs ==> OccupantChoice(old(hamsterStates), wheelId, occupant)
      ensures State() == SpinEffect(old(State()), wheelId, durationMs, now, occupant)
    {
      occupant := None;
      if durationMs <= 0 {
        return;
      }
      UpdateSensorState(wheelId, now);
      var hamsterInWheel := FindHamsterInWheel(wheelId);
      occupant := hamsterInWheel;
      if hamsterInWheel.None? {
        return;
      }
      var hamsterId := hamsterInWheel.value;
      var rounds := Rounds(durationMs);
      if 0 < rounds {
        dailyRounds := dailyRounds[hamsterId := Tally(dailyRounds, hamsterId) + rounds];
        UpdateHamsterActivity(hamsterId, now);
      }
    }

    method HandleHamsterEnter(hamsterId: string, wheelId: string, now: int)
      modifies this
      ensures State() == EnterEffect(old(State()), hamsterId, wheelId, now)
    {
      if hamsterId in hamsterStates && hamsterStates[hamsterId].currentWheelId.Some? {
        return;
      }
      hamsterStates := hamsterStates[hamsterId := HamsterState(Some(wheelId), now)];
      UpdateSensorState(wheelId, now);
    }

    method HandleHamsterExit(hamsterId: string, wheelId: string, now: int)
      modifies this
      ensures State() == ExitEffect(old(State()), hamsterId, wheelId, now)
    {
      if hamsterId !in hamsterStates || hamsterStates[hamsterId].currentWheelId != Some(wheelId) {
        return;
      }
      hamsterStates := hamsterStates[hamsterId := hamsterStates[hamsterId].(currentWheelId := None, lastActivityTime := now)];
      UpdateSensorState(wheelId, now);
    }

    method HandleSensorFailure(sensorId: string, errorCode: int, now: int) returns (sent: seq<Alert>)
      modifies this
      ensures State() == FailureEffect(old(State()), sensorId, now)
      ensures sent == [SensorFailed(sensorId, errorCode)]
    {
      sensorStates := sensorStates[sensorId := SensorState(now, false)];
      sent := [SensorFailed(sensorId, errorCode)];
    }

    /** findHamsterInWheel: some hamster whose current wheel is `wheelId`, if there is one. */
    method FindHamsterInWheel(wheelId: string) returns (hamsterId: Option<string>)
      ensures OccupantChoice(hamsterStates, wheelId, hamsterId)
    {
      if h :| h in hamsterStates && hamsterStates[h].currentWheelId == Some(wheelId) {
        hamsterId := Some(h);
      } else {
        hamsterId := None;
      }
    }

    method UpdateHamsterActivity(hamsterId: string, now: int)
      modifies this`hamsterStates
      ensures hamsterStates == TouchHamster(old(hamsterStates), hamsterId, now)
    {
      if hamsterId in hamsterStates {
        hamsterStates := hamsterStates[hamsterId := hamsterStates[hamsterId].(lastActivityTime := now)];
      } else {
        hamsterStates := hamsterStates[hamsterId := HamsterState(None, now)];
      }
    }

    method UpdateSensorState(sensorId: string, now: int)
      modifies this`sensorStates
      ensures sensorStates == RefreshSensor(old(sensorStates), sensorId, now)
    {
      sensorStates := sensorStates[sensorId := SensorState(now, true)];
    }

    /** generateDailyReport: reads the tallies and changes nothing. */
    method GenerateDailyReport(date: LocalDate) returns (report: DailyReport)
      ensures report == RoundsReport(dailyRounds, date)
    {
      var stats := map h | h in dailyRounds :: HamsterStats(h, dailyRounds[h], dailyRounds[h] > ACTIVE_THRESHOLD);
      report := DailyReport(date, stats);
    }

    /**
     checkInactiveEntities: the hamster pass, then the sensor pass. It changes
     nothing and delivers each due alert exactly once, in map order.
     */
    method CheckInactiveEntities(now: int) returns (sent: seq<Alert>)
      ensures multiset(sent) == multiset(HamsterIdleAlerts(hamsterStates, hamsterStates.Keys, now))
                                + multiset(SensorIdleAlerts(sensorStates, sensorStates.Keys, now))
    {
      var hamsterAlerts := CheckInactiveHamsters(now);
      var sensorAlerts := CheckInactiveSensors(now);
      sent := hamsterAlerts + sensorAlerts;
    }

    /** The first forEach of checkInactiveEntities. */
    method CheckInactiveHamsters(now: int) returns (sent: seq<Alert>)
      ensures multiset(sent) == multiset(HamsterIdleAlerts(hamsterStates, hamsterStates.Keys, now))
    {
      sent := [];
      var pending := hamsterStates.Keys;
      ghost var visited: set<string> := {};
      while pending != {}
        invariant pending <= hamsterStates.Keys && visited == hamsterStates.Keys - pending
        invariant multiset(sent) == multiset(HamsterIdleAlerts(hamsterStates, visited, now))
        decreases pending
      {
        var hamsterId :| hamsterId in pending;
        var minutes := MinutesBetween(hamsterStates[hamsterId].lastActivityTime, now);
        HamsterIdleAlertsInsert(hamsterStates, visited, sent, hamsterId, now);
        if minutes > HAMSTER_INACTIVITY_MINUTES {
          sent := sent + [HamsterInactiveFor(hamsterId, minutes)];
        }
        visited := visited + {hamsterId};
        pending := pending - {hamsterId};
      }
    }

    /** The second forEach of checkInactiveEntities: a sensor marked not working is skipped. */
    method CheckInactiveSensors(now: int) returns (sent: seq<Alert>)
      ensures multiset(sent) == multiset(SensorIdleAlerts(sensorStates, sensorStates.Keys, now))
    {
      sent := [];
      var pending := sensorStates.Keys;
      ghost var visited: set<string> := {};
      while pending != {}
        invariant pending <= sensorStates.Keys && visited == sensorStates.Keys - pending
        invariant multiset(sent) == multiset(SensorIdleAlerts(sensorStates, visited, now))
        decreases pending
      {
        var sensorId :| sensorId in pending;
        var state := sensorStates[sensorId];
        var minutes := MinutesBetween(state.lastEventTime, now);
        SensorIdleAlertsInsert(sensorStates, visited, sent, sensorId, now);
        if minutes > SENSOR_INACTIVITY_MINUTES && state.isWorking {
          sent := sent + [SensorInactiveFor(sensorId, minutes)];
        }
        visited := visited + {sensorId};
        pending := pending - {sensorId};
      }
    }
  }
}
