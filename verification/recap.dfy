/**
 * The attendance recap (src/app/RekapAbsensi/page.tsx): the user's logbook rows, optionally
 * restricted to a date range, newest first; the three-way attendance statistics; the status
 * badge and the time column. Dates are day numbers (the order of ISO dates).
 */
module Recap {
  import opened Optional
  import opened Text

  const HADIR := "Hadir"
  const TERLAMBAT := "Terlambat"
  const TIDAK_HADIR := "Tidak Hadir"
  const ALFA := "Alfa"

  /** One `logbooks` row with the columns the recap reads; `status` may be null. */
  datatype Row = Row(id: int, userId: string, logDate: int, startTime: Option<string>, endTime: Option<string>, status: Option<string>)

  /** The statistics panel. */
  datatype Stats = Stats(hadir: nat, terlambat: nat, tidakHadir: nat, totalHari: nat)

  // ---------------------------------------------------------------------------
  // Statistics

  /** The counter the statistics loop increments for a row: anything but "Hadir" or "Terlambat" is absent. */
  function Classify(status: Option<string>): (bucket: string)
    ensures bucket in {HADIR, TERLAMBAT, TIDAK_HADIR}
    ensures bucket == HADIR <==> status == Some(HADIR)
    ensures bucket == TERLAMBAT <==> status == Some(TERLAMBAT)
  {
    if status == Some(HADIR) then HADIR
    else if status == Some(TERLAMBAT) then TERLAMBAT
    else TIDAK_HADIR
  }

  /** The number of rows classified as `bucket`. */
  function Count(rows: seq<Row>, bucket: string): (n: nat)
    ensures n <= |rows|
  {
    if rows == [] then 0
    else Count(rows[..|rows| - 1], bucket) + (if Classify(rows[|rows| - 1].status) == bucket then 1 else 0)
  }

  /** Every row lands in exactly one of the three counters. */
  lemma {:induction false} CountsPartition(rows: seq<Row>)
    ensures Count(rows, HADIR) + Count(rows, TERLAMBAT) + Count(rows, TIDAK_HADIR) == |rows|
  {
    if rows != [] {
      CountsPartition(rows[..|rows| - 1]);
    }
  }

  /** The `stats` loop: one pass over the rows, incrementing one counter per row. */
  method ComputeStats(rows: seq<Row>) returns (stats: Stats)
    ensures stats.totalHari == |rows|
    ensures stats.hadir == Count(rows, HADIR)
    ensures stats.terlambat == Count(rows, TERLAMBAT)
    ensures stats.tidakHadir == Count(rows, TIDAK_HADIR)
    ensures stats.hadir + stats.terlambat + stats.tidakHadir == stats.totalHari
  {
    var hadir, terlambat, tidakHadir := 0, 0, 0;
    for i := 0 to |rows|
      invariant hadir == Count(rows[..i], HADIR)
      invariant terlambat == Count(rows[..i], TERLAMBAT)
      invariant tidakHadir == Count(rows[..i], TIDAK_HADIR)
      invariant hadir + terlambat + tidakHadir == i
    {
      assert rows[..i + 1][..i] == rows[..i];
      if rows[i].status == Some(HADIR) {
        hadir := hadir + 1;
      } else if rows[i].status == Some(TERLAMBAT) {
        terlambat := terlambat + 1;
      } else {
        tidakHadir := tidakHadir + 1;
      }
    }
    assert rows[..|rows|] == rows;
    stats := Stats(hadir, terlambat, tidakHadir, |rows|);
  }

  // ---------------------------------------------------------------------------
  // Row display

  /** The value handed to the badge: the row's status, or "Tidak Hadir" when it is null or empty. */
  function ShownStatus(status: Option<string>): (s: string)
    ensures Filled(status) ==> s == status.value
    ensures !Filled(status) ==> s == TIDAK_HADIR
  {
    if Filled(status) then status.value else TIDAK_HADIR
  }

  /** The badge text: "Hadir" and "Terlambat" are shown as they are, every other value as "Tidak Hadir". */
  function StatusBadge(status: string): (text: string)
    ensures text in {HADIR, TERLAMBAT, TIDAK_HADIR}
    ensures status in {HADIR, TERLAMBAT} ==> text == status
    ensures status !in {HADIR, TERLAMBAT} ==> text == TIDAK_HADIR
  {
    match status
    case "Hadir" => HADIR
    case "Terlambat" => TERLAMBAT
    case "Tidak Hadir" => TIDAK_HADIR
    case "Alfa" => TIDAK_HADIR
    case _ => TIDAK_HADIR
  }

  /** Each row's badge names the counter the statistics put it in. */
  lemma BadgeAgreesWithStats(status: Option<string>)
    ensures StatusBadge(ShownStatus(status)) == Classify(status)
  {
  }

  /** A time column: its first five characters ("HH:MM"), or "-" when it is null or empty. */
  function TimeShown(t: Option<string>): (r: string)
    ensures Filled(t) ==> StartsWith(t.value, r) && |r| == (if |t.value| < 5 then |t.value| else 5)
    ensures !Filled(t) ==> r == "-"
    ensures r != ""
  {
    if Filled(t) then (if |t.value| < 5 then t.value else t.value[..5]) else "-"
  }

  // ---------------------------------------------------------------------------
  // The query

  /** The rows of one user (`.eq('user_id', …)`). */
  function OwnRows(table: seq<Row>, userId: string): (r: seq<Row>)
    ensures forall row :: row in r <==> row in table && row.userId == userId
    ensures forall row :: multiset(r)[row] == (if row.userId == userId then multiset(table)[row] else 0)
    ensures |r| <= |table|
  {
    if table == [] then []
    else
      assert table == [table[0]] + table[1..];
      (if table[0].userId == userId then [table[0]] else []) + OwnRows(table[1..], userId)
  }

  predicate InRange(row: Row, start: int, end: int) {
    start <= row.logDate <= end
  }

  /** The rows dated within `[start, end]` (`.gte(…).lte(…)`). */
  function Between(rows: seq<Row>, start: int, end: int): (r: seq<Row>)
    ensures forall row :: row in r <==> row in rows && InRange(row, start, end)
    ensures forall row :: multiset(r)[row] == (if InRange(row, start, end) then multiset(rows)[row] else 0)
    ensures |r| <= |rows|
  {
    if rows == [] then []
    else
      assert rows == [rows[0]] + rows[1..];
      (if InRange(rows[0], start, end) then [rows[0]] else []) + Between(rows[1..], start, end)
  }

  /** The date filter applies only when both ends of the range are set. */
  function FilterRange(rows: seq<Row>, start: Option<int>, end: Option<int>): (r: seq<Row>)
    ensures start.Some? && end.Some? ==> forall row :: row in r <==> row in rows && InRange(row, start.value, end.value)
    ensures start.Some? && end.Some? ==>
              forall row :: multiset(r)[row] == (if InRange(row, start.value, end.value) then multiset(rows)[row] else 0)
    ensures start.None? || end.None? ==> r == rows
  {
    if start.Some? && end.Some? then Between(rows, start.value, end.value) else rows
  }

  /** Newest first (`.order('log_date', { ascending: false })`). */
  ghost predicate SortedDesc(s: seq<Row>) {
    forall i, j :: 0 <= i < j < |s| ==> s[i].logDate >= s[j].logDate
  }

  /** Inserts `row` into a list before its first row that is not newer. */
  function InsertDesc(row: Row, sorted: seq<Row>): (r: seq<Row>)
    ensures multiset(r) == multiset(sorted) + multiset{row}
  {
    if sorted == [] then [row]
    else if row.logDate >= sorted[0].logDate then [row] + sorted
    else
      assert sorted == [sorted[0]] + sorted[1..];
      [sorted[0]] + InsertDesc(row, sorted[1..])
  }

  /** Every row of the result is the inserted row or a row of the list. */
  lemma {:induction false} InsertDescMembers(row: Row, sorted: seq<Row>)
    ensures forall x :: x in InsertDesc(row, sorted) ==> x == row || x in sorted
  {
    if sorted != [] && row.logDate < sorted[0].logDate {
      InsertDescMembers(row, sorted[1..]);
    }
  }

  /** Inserting into a newest-first list keeps it newest first. */
  lemma {:induction false} InsertDescSorted(row: Row, sorted: seq<Row>)
    requires SortedDesc(sorted)
    ensures SortedDesc(InsertDesc(row, sorted))
  {
    if sorted != [] && row.logDate < sorted[0].logDate {
      var rest := InsertDesc(row, sorted[1..]);
      InsertDescSorted(row, sorted[1..]);
      InsertDescMembers(row, sorted[1..]);
      forall x | x in rest ensures x.logDate <= sorted[0].logDate {
        if x != row {
          var k :| 0 <= k < |sorted[1..]| && sorted[1..][k] == x;
          assert x == sorted[k + 1];
        }
      }
      ConsSorted(sorted[0], rest);
    }
  }

  /** A row no older than every row of a newest-first list can go in front of it. */
  lemma ConsSorted(first: Row, rest: seq<Row>)
    requires SortedDesc(rest)
    requires forall x :: x in rest ==> x.logDate <= first.logDate
    ensures SortedDesc([first] + rest)
  {
    var r := [first] + rest;
    forall i, j | 0 <= i < j < |r| ensures r[i].logDate >= r[j].logDate {
      assert r[j] == rest[j - 1];
      if i > 0 { assert r[i] == rest[i - 1]; }
    }
  }

  /** The rows ordered newest first: sorted, and the same rows as before. */
  function SortDesc(rows: seq<Row>): (r: seq<Row>)
    ensures SortedDesc(r)
    ensures multiset(r) == multiset(rows)
  {
    if rows == [] then []
    else
      assert rows == [rows[0]] + rows[1..];
      InsertDescSorted(rows[0], SortDesc(rows[1..]));
      InsertDesc(rows[0], SortDesc(rows[1..]))
  }

  /**
   * The recap query: the user's rows, restricted to the range when both ends are set, newest
   * first. It returns each qualifying row of the table exactly as often as the table holds it.
   */
  function QueryRows(table: seq<Row>, userId: string, start: Option<int>, end: Option<int>): (r: seq<Row>)
    ensures SortedDesc(r)
    ensures multiset(r) == multiset(FilterRange(OwnRows(table, userId), start, end))
    ensures forall row :: multiset(r)[row] ==
              if row.userId == userId && (start.Some? && end.Some? ==> InRange(row, start.value, end.value))
              then multiset(table)[row] else 0
    ensures forall row :: row in r <==>
              row in table && row.userId == userId &&
              (start.Some? && end.Some? ==> InRange(row, start.value, end.value))
  {
    var r := SortDesc(FilterRange(OwnRows(table, userId), start, end));
    assert forall row :: row in r <==> row in multiset(r);
    r
  }

  /** The recap page's state. */
  class RecapPage {
    var data: seq<Row>
    var loading: bool
    /** The two date inputs; None while an input is empty. */
    var startDate: Option<int>
    var endDate: Option<int>

    constructor ()
      ensures data == [] && !loading && startDate == None && endDate == None
    {
      data := [];
      loading := false;
      startDate := None;
      endDate := None;
    }

    /**
     * `fetchData`, given the signed-in user's id, the `logbooks` table and whether the query
     * succeeds. Without a user, or when the query fails, the shown rows stay as they were.
     */
    method FetchData(user: Option<string>, table: seq<Row>, queryOk: bool)
      modifies this`data, this`loading
      ensures !loading
      ensures user.None? || !queryOk ==> data == old(data)
      ensures user.Some? && queryOk ==> data == QueryRows(table, user.value, startDate, endDate)
    {
      loading := true;
      if user.None? {
        loading := false;
        return;
      }
      if queryOk {
        data := QueryRows(table, user.value, startDate, endDate);
      }
      loading := false;
    }

    /** Editing the date inputs; once both are set the rows are fetched again. */
    method ChangeRange(start: Option<int>, end: Option<int>, user: Option<string>, table: seq<Row>, queryOk: bool)
      modifies this`startDate, this`endDate, this`data, this`loading
      ensures startDate == start && endDate == end
      ensures (start.None? || end.None?) ==> data == old(data) && loading == old(loading)
      ensures start.Some? && end.Some? && user.Some? && queryOk ==>
                data == QueryRows(table, user.value, start, end)
      ensures start.Some? && end.Some? && (user.None? || !queryOk) ==> data == old(data)
    {
      startDate := start;
      endDate := end;
      if start.Some? && end.Some? {
        FetchData(user, table, queryOk);
      }
    }
  }
}
