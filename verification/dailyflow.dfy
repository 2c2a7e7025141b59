/**
 * Working days seen across the pages. What persists between page visits is the stored
 * attendance status (browser storage, cleared only by logout), the date the pages take as
 * today, and the logbook rows per log date. Each event applies the rule of the page it happens
 * on, so the lemmas here are about how those rules combine, within one date and across dates.
 */
module DailyFlow {
  import opened Optional
  import opened Store
  import Dashboard
  import CheckIn

  /** What persists between page visits: the stored status, today's date, the logbook rows per date. */
  datatype Day = Day(stored: Option<string>, today: string, rows: map<string, nat>)

  /** The number of logbook rows dated `date`. */
  function RowsOn(d: Day, date: string): nat {
    if date in d.rows then d.rows[date] else 0
  }

  /** A first visit on date `today`: nothing stored and no logbook rows yet. */
  function Fresh(today: string): Day {
    Day(None, today, map[])
  }

  datatype Event =
    /** The check-in page's submit button, pressed with no submission in flight. */
    | CheckInSubmitted(location: Option<CheckIn.Coordinate>, distance: Option<real>)
    /** A logbook submission with `tasks` tasks for the form's date `logDate`, whose insert succeeded or not. */
    | LogbookSubmitted(tasks: nat, inserted: bool, logDate: string)
    /** The dashboard's "Absen Pulang" button. */
    | PulangPressed
    /** Logout from the dashboard. */
    | LoggedOut
    /** The calendar moves on to `date`; browser storage is not touched. */
    | NewDay(date: string)

  /** The status the dashboard shows. */
  function ShownStatus(d: Day): string {
    Dashboard.StatusAfterLoad(Dashboard.BELUM_ABSEN, d.stored)
  }

  /** Whether the dashboard sees a logbook for today: it counts only the rows dated today. */
  predicate LogbookDone(d: Day) {
    Dashboard.LogbookCompleted(LogRows(RowsOn(d, d.today)))
  }

  /** The effect of one event. Rows are never removed; only `NewDay` changes the date, and it keeps the stored status. */
  function Step(d: Day, e: Event): (d': Day)
    ensures forall date :: RowsOn(d', date) >= RowsOn(d, date)
    ensures e.NewDay? ==> d'.today == e.date && d'.stored == d.stored && d'.rows == d.rows
    ensures !e.NewDay? ==> d'.today == d.today
  {
    match e
    case CheckInSubmitted(location, distance) =>
      if CheckIn.IsReadyToSubmit(location, distance, false) then d.(stored := Some(CheckIn.MASUK_STATUS)) else d
    case LogbookSubmitted(tasks, inserted, logDate) =>
      if tasks > 0 && inserted then d.(rows := d.rows[logDate := RowsOn(d, logDate) + tasks]) else d
    case PulangPressed =>
      // a disabled button fires nothing; the handler then checks the logbook itself
      if !Dashboard.IsPulangDisabled(ShownStatus(d), LogbookDone(d)) && LogbookDone(d)
      then d.(stored := Some(Dashboard.PULANG)) else d
    case LoggedOut =>
      d.(stored := None)
    case NewDay(date) =>
      d.(today := date)
  }

  /** The state after a sequence of events. */
  function Run(d: Day, events: seq<Event>): Day {
    if events == [] then d else Step(Run(d, events[..|events| - 1]), events[|events| - 1])
  }

  /** A day that has ended ("Pulang") has a logbook dated today. */
  ghost predicate EndedWithLogbook(d: Day) {
    d.stored == Some(Dashboard.PULANG) ==> RowsOn(d, d.today) > 0
  }

  /** No event of the sequence moves the calendar on. */
  predicate WithinOneDate(events: seq<Event>) {
    forall i :: 0 <= i < |events| ==> !events[i].NewDay?
  }

  /** Within one date no sequence of events ends the day without a logbook for that date. */
  lemma {:induction false} RunKeepsLogbookInvariant(d: Day, events: seq<Event>)
    requires EndedWithLogbook(d)
    requires WithinOneDate(events)
    ensures Run(d, events).today == d.today
    ensures EndedWithLogbook(Run(d, events))
  {
    if events != [] {
      var n := |events| - 1;
      assert WithinOneDate(events[..n]) by {
        forall i | 0 <= i < n ensures !events[..n][i].NewDay? {
          assert events[..n][i] == events[i];
        }
      }
      RunKeepsLogbookInvariant(d, events[..n]);
    }
  }

  /**
   * The stored status outlives the date: after a complete day (check-in, logbook, "Absen Pulang")
   * the next date starts at "Pulang" with no logbook, so "Absen Masuk" stays disabled.
   */
  lemma StatusSurvivesNewDay(c: CheckIn.Coordinate, day1: string, day2: string)
    requires day1 != day2
    ensures var ended := Run(Fresh(day1), [CheckInSubmitted(Some(c), Some(0.0)), LogbookSubmitted(1, true, day1), PulangPressed]);
            ended.stored == Some(Dashboard.PULANG) && EndedWithLogbook(ended)
    ensures var next := Run(Fresh(day1), [CheckInSubmitted(Some(c), Some(0.0)), LogbookSubmitted(1, true, day1), PulangPressed, NewDay(day2)]);
            next.stored == Some(Dashboard.PULANG) && RowsOn(next, next.today) == 0 &&
            !EndedWithLogbook(next) && !Dashboard.IsMasukEnabled(ShownStatus(next))
  {
    var e1 := CheckInSubmitted(Some(c), Some(0.0));
    var e2 := LogbookSubmitted(1, true, day1);
    var d1 := Step(Fresh(day1), e1);
    assert d1.stored == Some(CheckIn.MASUK_STATUS);
    var d2 := Step(d1, e2);
    assert RowsOn(d2, day1) == 1;
    var d3 := Step(d2, PulangPressed);
    assert d3.stored == Some(Dashboard.PULANG);
    var d4 := Step(d3, NewDay(day2));
    assert RowsOn(d4, day2) == 0;
    assert Run(Fresh(day1), [e1]) == d1;
    assert [e1, e2][..1] == [e1];
    assert Run(Fresh(day1), [e1, e2]) == d2;
    assert [e1, e2, PulangPressed][..2] == [e1, e2];
    assert Run(Fresh(day1), [e1, e2, PulangPressed]) == d3;
    assert [e1, e2, PulangPressed, NewDay(day2)][..3] == [e1, e2, PulangPressed];
  }

  /** At event `k` the status was "Masuk", today had a logbook, and "Absen Pulang" was pressed. */
  predicate PulangAfterMasuk(d: Day, events: seq<Event>, k: int) {
    0 <= k < |events| && events[k] == PulangPressed &&
    Run(d, events[..k]).stored == Some(Dashboard.MASUK) && LogbookDone(Run(d, events[..k]))
  }

  /**
   * From any starting state, "Pulang" is stored at the end only if it was stored at the start or
   * the dashboard's button was pressed while "Masuk" was stored and today had a logbook.
   */
  lemma {:induction false} PulangOnlyFromMasuk(d: Day, events: seq<Event>)
    ensures Run(d, events).stored == Some(Dashboard.PULANG) ==>
              d.stored == Some(Dashboard.PULANG) || exists k :: PulangAfterMasuk(d, events, k)
  {
    if events != [] && Run(d, events).stored == Some(Dashboard.PULANG) {
      var n := |events| - 1;
      var before := Run(d, events[..n]);
      if events[n] == PulangPressed && before.stored != Some(Dashboard.PULANG) {
        assert ShownStatus(before) == Dashboard.MASUK;
        assert PulangAfterMasuk(d, events, n);
      } else {
        PulangOnlyFromMasuk(d, events[..n]);
        if d.stored != Some(Dashboard.PULANG) {
          var k :| PulangAfterMasuk(d, events[..n], k);
          assert events[..n][..k] == events[..k];
          assert PulangAfterMasuk(d, events, k);
        }
      }
    }
  }

  /**
   * "Masuk" carries over from an earlier date as well: a date that starts with it stored ends
   * with "Pulang" after only a logbook, with no check-in on that date.
   */
  lemma PulangWithoutCheckInToday(today: string, rows: map<string, nat>)
    ensures Run(Day(Some(Dashboard.MASUK), today, rows), [LogbookSubmitted(1, true, today), PulangPressed]).stored
            == Some(Dashboard.PULANG)
  {
    var d0 := Day(Some(Dashboard.MASUK), today, rows);
    var e := LogbookSubmitted(1, true, today);
    var d1 := Step(d0, e);
    assert RowsOn(d1, today) > 0;
    assert Run(d0, [e]) == d1;
    assert [e, PulangPressed][..1] == [e];
  }

  /**
   * The check-in page does not look at the stored status: a valid check-in after the day has
   * ended sets it back to "Masuk".
   */
  lemma CheckInReopensDay(c: CheckIn.Coordinate, d: Day)
    requires d.stored == Some(Dashboard.PULANG)
    ensures Step(d, CheckInSubmitted(Some(c), Some(0.0))).stored == Some(Dashboard.MASUK)
  {
  }
}
