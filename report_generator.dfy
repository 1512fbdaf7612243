/**
 ReportGeneratorImpl: the daily report of the tracker service, a projection of
 its counters snapshot in which any recorded round makes a hamster active.
 */
module ReportGenerator {
  import opened HamsterModel
  import HamsterTracker

  /** The `mapValues` of generateDailyReport: one line per hamster of the snapshot. */
  function SnapshotReport(snapshot: map<string, HamsterStat>, date: LocalDate): (report: DailyReport)
    ensures report.date == date
    ensures report.hamsterStats.Keys == snapshot.Keys
    ensures forall h :: h in report.hamsterStats ==>
              && report.hamsterStats[h].hamsterId == h
              && report.hamsterStats[h].totalRounds == snapshot[h].totalRounds
              && (report.hamsterStats[h].isActive <==> snapshot[h].totalRounds > 0)
  {
    DailyReport(date, map h | h in snapshot :: HamsterStats(h, snapshot[h].totalRounds, snapshot[h].totalRounds > 0))
  }

  class ReportGeneratorImpl {
    const tracker: HamsterTracker.HamsterActivityTrackerService

    constructor (tracker: HamsterTracker.HamsterActivityTrackerService)
      ensures this.tracker == tracker
    {
      this.tracker := tracker;
    }

    /** generateDailyReport: reads the tracker's snapshot and changes nothing. */
    method GenerateDailyReport(date: LocalDate) returns (report: DailyReport)
      ensures report == SnapshotReport(tracker.hamsterStats, date)
    {
      var hamsterStatsSnapshot := tracker.GetHamsterStatsSnapshot();
      var stats := map h | h in hamsterStatsSnapshot ::
        HamsterStats(h, hamsterStatsSnapshot[h].totalRounds, hamsterStatsSnapshot[h].totalRounds > 0);
      report := DailyReport(date, stats);
    }
  }

  /** A hamster that only entered is in the report, with 0 rounds and not active. */
  lemma EnteredOnlyIsReportedInactive(s: HamsterTracker.TrackerState, hamsterId: string, wheelId: string, now: int, date: LocalDate)
    requires hamsterId !in s.hamsterStats
    ensures var report := SnapshotReport(HamsterTracker.EnterEffect(s, hamsterId, wheelId, now).hamsterStats, date);
            hamsterId in report.hamsterStats && report.hamsterStats[hamsterId] == HamsterStats(hamsterId, 0, false)
  {
  }

  /** Any spin of an occupied wheel, however short, makes its occupant active in the next report. */
  lemma AnySpinMakesOccupantActive(s: HamsterTracker.TrackerState, wheelId: string, durationMs: int, now: int, date: LocalDate)
    requires wheelId in s.wheelToHamster
    requires HamsterTracker.Consistent(s)
    ensures var h := s.wheelToHamster[wheelId];
            var report := SnapshotReport(HamsterTracker.SpinEffect(s, wheelId, durationMs, now).hamsterStats, date);
            h in report.hamsterStats && report.hamsterStats[h].isActive
  {
  }

  /** From an empty tracker, Enter(H, W) then a 12-second spin on W reports H with 1 round, active. */
  lemma EnterThenSpinReport(hamsterId: string, wheelId: string, enteredAt: int, spunAt: int, date: LocalDate)
    ensures var events := [TimedEvent(HamsterEnter(hamsterId, wheelId), enteredAt), TimedEvent(WheelSpin(wheelId, 12000), spunAt)];
            var run := HamsterTracker.Replay(HamsterTracker.TrackerState(map[], map[], map[]), events);
            SnapshotReport(run.state.hamsterStats, date) == DailyReport(date, map[hamsterId := HamsterStats(hamsterId, 1, true)])
  {
    var events := [TimedEvent(HamsterEnter(hamsterId, wheelId), enteredAt), TimedEvent(WheelSpin(wheelId, 12000), spunAt)];
    var empty := HamsterTracker.TrackerState(map[], map[], map[]);
    var entered := HamsterTracker.EnterEffect(empty, hamsterId, wheelId, enteredAt);
    var spun := HamsterTracker.SpinEffect(entered, wheelId, 12000, spunAt);
    assert HamsterTracker.TrackEffect(empty, events[0].event, events[0].at).state == entered;
    assert HamsterTracker.TrackEffect(entered, events[1..][0].event, events[1..][0].at).state == spun;
    assert events[1..][1..] == [];
    assert HamsterTracker.Replay(spun, events[1..][1..]).state == spun;
    assert HamsterTracker.Replay(entered, events[1..]).state == spun;
    assert HamsterTracker.Replay(empty, events).state == spun;
    assert spun.hamsterStats.Keys == {hamsterId};
    var report := SnapshotReport(spun.hamsterStats, date);
    assert report.hamsterStats == map[hamsterId := HamsterStats(hamsterId, 1, true)];
  }
}
