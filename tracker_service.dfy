/**
 HamsterActivityTrackerService: the second implementation of the engine. It
 keeps per-hamster counters, per-sensor last-seen times and a wheel-to-hamster
 index in which the last Enter wins and any Exit clears the wheel. One
 processed event is one atomic step; the clock is the parameter `now`, in
 milliseconds.
 */
module HamsterTracker {
  import opened HamsterModel

  /** The single inactivity threshold of the sweep: 5 minutes in milliseconds. */
  const INACTIVE_THRESHOLD_MS := 5 * 60 * 1000

  /** The three maps of the service, as one value. */
  datatype TrackerState = TrackerState(
    hamsterStats: map<string, HamsterStat>,
    sensorStats: map<string, SensorStat>,
    wheelToHamster: map<string, string>)

  /**
   Every hamster the wheel index names has counters, and no counter is
   negative: the service only ever adds one to them.
   */
  ghost predicate Consistent(s: TrackerState)
  {
    && (forall w :: w in s.wheelToHamster ==> s.wheelToHamster[w] in s.hamsterStats)
    && (forall h :: h in s.hamsterStats ==>
          0 <= s.hamsterStats[h].entriesCount && 0 <= s.hamsterStats[h].exitsCount && 0 <= s.hamsterStats[h].totalRounds)
  }

  /** The value `getOrPut(hamsterId) { HamsterStat() }` yields. */
  function StatOf(hamsterStats: map<string, HamsterStat>, hamsterId: string, now: int): HamsterStat
  {
    if hamsterId in hamsterStats then hamsterStats[hamsterId] else NewHamsterStat(now)
  }

  /** A hamster's entry count; a hamster without counters has entered 0 times. */
  function EntriesOf(hamsterStats: map<string, HamsterStat>, hamsterId: string): int
  {
    if hamsterId in hamsterStats then hamsterStats[hamsterId].entriesCount else 0
  }

  /** A hamster's exit count; a hamster without counters has left 0 times. */
  function ExitsOf(hamsterStats: map<string, HamsterStat>, hamsterId: string): int
  {
    if hamsterId in hamsterStats then hamsterStats[hamsterId].exitsCount else 0
  }

  /** The HamsterEnter branch: count the entry and make the hamster the wheel's occupant, whoever was there. */
  function EnterEffect(s: TrackerState, hamsterId: string, wheelId: string, now: int): (r: TrackerState)
    ensures r.hamsterStats.Keys == s.hamsterStats.Keys + {hamsterId}
    ensures r.hamsterStats[hamsterId].entriesCount == EntriesOf(s.hamsterStats, hamsterId) + 1
    ensures hamsterId in s.hamsterStats ==> r.hamsterStats[hamsterId].(entriesCount := 0) == s.hamsterStats[hamsterId].(entriesCount := 0)
    ensures hamsterId !in s.hamsterStats ==> r.hamsterStats[hamsterId] == HamsterStat(1, 0, 0, 0, None, now)
    ensures forall h :: h in s.hamsterStats && h != hamsterId ==> r.hamsterStats[h] == s.hamsterStats[h]
    ensures r.wheelToHamster == s.wheelToHamster[wheelId := hamsterId]
    ensures r.sensorStats == s.sensorStats
  {
    var stat := StatOf(s.hamsterStats, hamsterId, now);
    s.(hamsterStats := s.hamsterStats[hamsterId := stat.(entriesCount := stat.entriesCount + 1)],
       wheelToHamster := s.wheelToHamster[wheelId := hamsterId])
  }

  /** The HamsterExit branch: count the exit and clear the wheel, whoever occupied it. */
  function ExitEffect(s: TrackerState, hamsterId: string, wheelId: string, now: int): (r: TrackerState)
    ensures r.hamsterStats.Keys == s.hamsterStats.Keys + {hamsterId}
    ensures r.hamsterStats[hamsterId].exitsCount == ExitsOf(s.hamsterStats, hamsterId) + 1
    ensures hamsterId in s.hamsterStats ==> r.hamsterStats[hamsterId].(exitsCount := 0) == s.hamsterStats[hamsterId].(exitsCount := 0)
    ensures hamsterId !in s.hamsterStats ==> r.hamsterStats[hamsterId] == HamsterStat(0, 1, 0, 0, None, now)
    ensures forall h :: h in s.hamsterStats && h != hamsterId ==> r.hamsterStats[h] == s.hamsterStats[h]
    ensures r.wheelToHamster.Keys == s.wheelToHamster.Keys - {wheelId}
    ensures forall w :: w in r.wheelToHamster ==> r.wheelToHamster[w] == s.wheelToHamster[w]
    ensures r.sensorStats == s.sensorStats
  {
    var stat := StatOf(s.hamsterStats, hamsterId, now);
    s.(hamsterStats := s.hamsterStats[hamsterId := stat.(exitsCount := stat.exitsCount + 1)],
       wheelToHamster := s.wheelToHamster - {wheelId})
  }

  /**
   The WheelSpin branch: the wheel's occupant, if any, gains one round and the
   spin's duration (whatever it is), and was active at `now`; the wheel's
   sensor was seen at `now` in every case.
   */
  function SpinEffect(s: TrackerState, wheelId: string, durationMs: int, now: int): (r: TrackerState)
    ensures r.sensorStats == s.sensorStats[wheelId := SensorStat(now)]
    ensures r.wheelToHamster == s.wheelToHamster
    ensures wheelId !in s.wheelToHamster ==> r.hamsterStats == s.hamsterStats
    ensures wheelId in s.wheelToHamster ==>
              var h := s.wheelToHamster[wheelId];
              var before := StatOf(s.hamsterStats, h, now);
              && r.hamsterStats.Keys == s.hamsterStats.Keys + {h}
              && r.hamsterStats[h].totalRounds == before.totalRounds + 1
              && r.hamsterStats[h].totalActiveDuration == before.totalActiveDuration + durationMs
              && r.hamsterStats[h].lastActiveTimestamp == Some(now)
              && r.hamsterStats[h].entriesCount == before.entriesCount
              && r.hamsterStats[h].exitsCount == before.exitsCount
              && r.hamsterStats[h].lastSeenTimestamp == before.lastSeenTimestamp
              && forall x :: x in s.hamsterStats && x != h ==> r.hamsterStats[x] == s.hamsterStats[x]
  {
    var stats :=
      if wheelId in s.wheelToHamster then
        var h := s.wheelToHamster[wheelId];
        var stat := StatOf(s.hamsterStats, h, now);
        s.hamsterStats[h := stat.(totalActiveDuration := stat.totalActiveDuration + durationMs,
                                  totalRounds := stat.totalRounds + 1,
                                  lastActiveTimestamp := Some(now))]
      else s.hamsterStats;
    s.(hamsterStats := stats, sensorStats := s.sensorStats[wheelId := SensorStat(now)])
  }

  /** processEvent: only a sensor failure alerts, and it changes no map. */
  function TrackEffect(s: TrackerState, event: HamsterEvent, now: int): (r: Step<TrackerState>)
    ensures r.alerts == if event.SensorFailure? then [SensorFailed(event.sensorId, event.errorCode)] else []
    ensures event.SensorFailure? ==> r.state == s
    ensures Consistent(s) ==> Consistent(r.state)
    ensures s.hamsterStats.Keys <= r.state.hamsterStats.Keys
  {
    match event
    case HamsterEnter(hamsterId, wheelId) => Step(EnterEffect(s, hamsterId, wheelId, now), [])
    case HamsterExit(hamsterId, wheelId) => Step(ExitEffect(s, hamsterId, wheelId, now), [])
    case WheelSpin(wheelId, durationMs) => Step(SpinEffect(s, wheelId, durationMs, now), [])
    case SensorFailure(sensorId, errorCode) => Step(s, [SensorFailed(sensorId, errorCode)])
  }

  /** Events processed one after the other, with the alerts in delivery order. */
  function Replay(s: TrackerState, events: seq<TimedEvent>): (r: Step<TrackerState>)
    ensures Consistent(s) ==> Consistent(r.state)
    ensures s.hamsterStats.Keys <= r.state.hamsterStats.Keys
    decreases |events|
  {
    if events == [] then Step(s, [])
    else
      var first := TrackEffect(s, events[0].event, events[0].at);
      var rest := Replay(first.state, events[1..]);
      Step(rest.state, first.alerts + rest.alerts)
  }

  /** How many of `events` are an Enter of `hamsterId`. */
  function CountEnters(events: seq<TimedEvent>, hamsterId: string): nat
  {
    if events == [] then 0
    else (if events[0].event.HamsterEnter? && events[0].event.hamsterId == hamsterId then 1 else 0)
         + CountEnters(events[1..], hamsterId)
  }

  /** How many of `events` are an Exit of `hamsterId`. */
  function CountExits(events: seq<TimedEvent>, hamsterId: string): nat
  {
    if events == [] then 0
    else (if events[0].event.HamsterExit? && events[0].event.hamsterId == hamsterId then 1 else 0)
         + CountExits(events[1..], hamsterId)
  }

  /** After any run, a hamster's entry and exit counters have grown by exactly its Enter and Exit events. */
  lemma {:induction false} ReplayCountsEntriesAndExits(s: TrackerState, events: seq<TimedEvent>, hamsterId: string)
    ensures EntriesOf(Replay(s, events).state.hamsterStats, hamsterId) == EntriesOf(s.hamsterStats, hamsterId) + CountEnters(events, hamsterId)
    ensures ExitsOf(Replay(s, events).state.hamsterStats, hamsterId) == ExitsOf(s.hamsterStats, hamsterId) + CountExits(events, hamsterId)
    decreases |events|
  {
    if events != [] {
      var first := TrackEffect(s, events[0].event, events[0].at);
      ReplayCountsEntriesAndExits(first.state, events[1..], hamsterId);
    }
  }

  /** The hamster spun less than 5 minutes ago; the sweep alerts for every other hamster. */
  predicate RecentlyActive(stat: HamsterStat, now: int)
  {
    stat.lastActiveTimestamp.Some? && now - stat.lastActiveTimestamp.value < INACTIVE_THRESHOLD_MS
  }

  /** The sweep's alerts for the hamsters among `among`. */
  function InactiveHamsterAlerts(hamsterStats: map<string, HamsterStat>, among: set<string>, now: int): set<Alert>
  {
    set h | h in among && h in hamsterStats && !RecentlyActive(hamsterStats[h], now) :: HamsterInactive(h)
  }

  /** The sweep's alerts for the sensors among `among`: those not seen for more than 5 minutes. */
  function InactiveSensorAlerts(sensorStats: map<string, SensorStat>, among: set<string>, now: int): set<Alert>
  {
    set id | id in among && id in sensorStats && now - sensorStats[id].lastSeenTimestamp > INACTIVE_THRESHOLD_MS :: SensorInactive(id)
  }

  /** A sweep alerts for exactly the hamsters with no spin, or no spin in the last 300000 ms. */
  lemma InactiveHamsterAlertsExactly(hamsterStats: map<string, HamsterStat>, now: int, hamsterId: string)
    ensures HamsterInactive(hamsterId) in InactiveHamsterAlerts(hamsterStats, hamsterStats.Keys, now) <==>
              && hamsterId in hamsterStats
              && (hamsterStats[hamsterId].lastActiveTimestamp == None
                  || now - hamsterStats[hamsterId].lastActiveTimestamp.value >= 300000)
    ensures forall a :: a in InactiveHamsterAlerts(hamsterStats, hamsterStats.Keys, now) ==> a.HamsterInactive?
  {
  }

  /** A sweep alerts for exactly the sensors not seen for more than 300000 ms. */
  lemma InactiveSensorAlertsExactly(sensorStats: map<string, SensorStat>, now: int, sensorId: string)
    ensures SensorInactive(sensorId) in InactiveSensorAlerts(sensorStats, sensorStats.Keys, now) <==>
              sensorId in sensorStats && now - sensorStats[sensorId].lastSeenTimestamp > 300000
    ensures forall a :: a in InactiveSensorAlerts(sensorStats, sensorStats.Keys, now) ==> a.SensorInactive?
  {
  }

  /** At exactly 5 minutes of quiet a hamster is reported but a sensor is not: the two comparisons differ. */
  lemma ThresholdIsAsymmetric(hamsterId: string, sensorId: string, stat: HamsterStat, t: int)
    requires stat.lastActiveTimestamp == Some(t)
    ensures HamsterInactive(hamsterId) in InactiveHamsterAlerts(map[hamsterId := stat], {hamsterId}, t + 300000)
    ensures InactiveSensorAlerts(map[sensorId := SensorStat(t)], {sensorId}, t + 300000) == {}
  {
  }

  /** Visiting one more hamster adds its alert, if it is due, to those of the hamsters visited before. */
  lemma InactiveHamsterAlertsInsert(hamsterStats: map<string, HamsterStat>, among: set<string>, sent: seq<Alert>, hamsterId: string, now: int)
    requires hamsterId in hamsterStats && hamsterId !in among
    requires multiset(sent) == multiset(InactiveHamsterAlerts(hamsterStats, among, now))
    ensures var sent' := if !RecentlyActive(hamsterStats[hamsterId], now) then sent + [HamsterInactive(hamsterId)] else sent;
            multiset(sent') == multiset(InactiveHamsterAlerts(hamsterStats, among + {hamsterId}, now))
  {
  }

  /** Visiting one more sensor adds its alert, if it is due, to those of the sensors visited before. */
  lemma InactiveSensorAlertsInsert(sensorStats: map<string, SensorStat>, among: set<string>, sent: seq<Alert>, sensorId: string, now: int)
    requires sensorId in sensorStats && sensorId !in among
    requires multiset(sent) == multiset(InactiveSensorAlerts(sensorStats, among, now))
    ensures var sent' := if now - sensorStats[sensorId].lastSeenTimestamp > INACTIVE_THRESHOLD_MS then sent + [SensorInactive(sensorId)] else sent;
            multiset(sent') == multiset(InactiveSensorAlerts(sensorStats, among + {sensorId}, now))
  {
  }

  class HamsterActivityTrackerService {
    var hamsterStats: map<string, HamsterStat>
    var sensorStats: map<string, SensorStat>
    var wheelToHamster: map<string, string>

    function State(): TrackerState
      reads this
    {
      TrackerState(hamsterStats, sensorStats, wheelToHamster)
    }

    ghost predicate Valid()
      reads this
    {
      Consistent(State())
    }

    constructor ()
      ensures Valid()
      ensures State() == TrackerState(map[], map[], map[])
    {
      hamsterStats, sensorStats, wheelToHamster := map[], map[], map[];
    }

    /** One event, applied atomically; `sent` is what was delivered to the alert sink. */
    method ProcessEvent(event: HamsterEvent, now: int) returns (sent: seq<Alert>)
      requires Valid()
      modifies this
      ensures Valid()
      ensures Step(State(), sent) == TrackEffect(old(State()), event, now)
    {
      sent := [];
      match event
      case HamsterEnter(hamsterId, wheelId) =>
        var stat := GetOrPutStat(hamsterId, now);
        hamsterStats := hamsterStats[hamsterId := stat.(entriesCount := stat.entriesCount + 1)];
        wheelToHamster := wheelToHamster[wheelId := hamsterId];
        assert State() == EnterEffect(old(State()), hamsterId, wheelId, now);
      case HamsterExit(hamsterId, wheelId) =>
        var stat := GetOrPutStat(hamsterId, now);
        hamsterStats := hamsterStats[hamsterId := stat.(exitsCount := stat.exitsCount + 1)];
        wheelToHamster := wheelToHamster - {wheelId};
        assert State() == ExitEffect(old(State()), hamsterId, wheelId, now);
      case WheelSpin(wheelId, durationMs) =>
        if wheelId in wheelToHamster {
          var hamsterId := wheelToHamster[wheelId];
          var stat := GetOrPutStat(hamsterId, now);
          stat := stat.(totalActiveDuration := stat.totalActiveDuration + durationMs);
          stat := stat.(totalRounds := stat.totalRounds + 1);
          stat := stat.(lastActiveTimestamp := Some(now));
          hamsterStats := hamsterStats[hamsterId := stat];
        }
        sensorStats := sensorStats[wheelId := SensorStat(now)];
        assert State() == SpinEffect(old(State()), wheelId, durationMs, now);
      case SensorFailure(sensorId, errorCode) =>
        sent := [SensorFailed(sensorId, errorCode)];
    }

    /** Kotlin's getOrPut on hamsterStats: the hamster's counters, stored first as defaults when missing. */
    method GetOrPutStat(hamsterId: string, now: int) returns (stat: HamsterStat)
      modifies this`hamsterStats
      ensures stat == StatOf(old(hamsterStats), hamsterId, now)
      ensures hamsterStats == old(hamsterStats)[hamsterId := stat]
    {
      if hamsterId in hamsterStats {
        stat := hamsterStats[hamsterId];
      } else {
        stat := NewHamsterStat(now);
        hamsterStats := hamsterStats[hamsterId := stat];
      }
    }

    /**
     checkInactiveHamstersAndSensors: the hamster pass, then the sensor pass.
     It changes nothing and delivers each due alert exactly once, in map order.
     */
    method CheckInactiveHamstersAndSensors(now: int) returns (sent: seq<Alert>)
      ensures multiset(sent) == multiset(InactiveHamsterAlerts(hamsterStats, hamsterStats.Keys, now))
                                + multiset(InactiveSensorAlerts(sensorStats, sensorStats.Keys, now))
    {
      var hamsterAlerts := CheckInactiveHamsters(now);
      var sensorAlerts := CheckInactiveSensors(now);
      sent := hamsterAlerts + sensorAlerts;
    }

    /** The first forEach of checkInactiveHamstersAndSensors. */
    method CheckInactiveHamsters(now: int) returns (sent: seq<Alert>)
      ensures multiset(sent) == multiset(InactiveHamsterAlerts(hamsterStats, hamsterStats.Keys, now))
    {
      sent := [];
      var pending := hamsterStats.Keys;
      ghost var visited: set<string> := {};
      while pending != {}
        invariant pending <= hamsterStats.Keys && visited == hamsterStats.Keys - pending
        invariant multiset(sent) == multiset(InactiveHamsterAlerts(hamsterStats, visited, now))
        decreases pending
      {
        var hamsterId :| hamsterId in pending;
        var stat := hamsterStats[hamsterId];
        var isActive := RecentlyActive(stat, now);
        InactiveHamsterAlertsInsert(hamsterStats, visited, sent, hamsterId, now);
        if !isActive {
          sent := sent + [HamsterInactive(hamsterId)];
        }
        visited := visited + {hamsterId};
        pending := pending - {hamsterId};
      }
    }

    /** The second forEach of checkInactiveHamstersAndSensors. */
    method CheckInactiveSensors(now: int) returns (sent: seq<Alert>)
      ensures multiset(sent) == multiset(InactiveSensorAlerts(sensorStats, sensorStats.Keys, now))
    {
      sent := [];
      var pending := sensorStats.Keys;
      ghost var visited: set<string> := {};
      while pending != {}
        invariant pending <= sensorStats.Keys && visited == sensorStats.Keys - pending
        invariant multiset(sent) == multiset(InactiveSensorAlerts(sensorStats, visited, now))
        decreases pending
      {
        var sensorId :| sensorId in pending;
        InactiveSensorAlertsInsert(sensorStats, visited, sent, sensorId, now);
        if now - sensorStats[sensorId].lastSeenTimestamp > INACTIVE_THRESHOLD_MS {
          sent := sent + [SensorInactive(sensorId)];
        }
        visited := visited + {sensorId};
        pending := pending - {sensorId};
      }
    }

    /** getHamsterStatsSnapshot: a copy of the counters; nothing changes. */
    method GetHamsterStatsSnapshot() returns (snapshot: map<string, HamsterStat>)
      ensures snapshot == hamsterStats
    {
      snapshot := hamsterStats;
    }

    /** getSensorStatsSnapshot: a copy of the sensor records; nothing changes. */
    method GetSensorStatsSnapshot() returns (snapshot: map<string, SensorStat>)
      ensures snapshot == sensorStats
    {
      snapshot := sensorStats;
    }
  }
}
