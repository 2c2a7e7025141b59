/**
 * The leave request form (src/app/PengajuanCutiPage/page.tsx): required fields, the inclusive
 * day count, the annual-leave balance check, the insert of the request and, after it, the
 * deduction from the annual-leave balance. Calendar dates are millisecond timestamps.
 */
module Leave {
  import opened Optional
  import opened Text

  /** The only leave type that draws on the balance. */
  const ANNUAL := "Cuti Tahunan"
  /** The status every new request is stored with. */
  const PENDING := "Menunggu Persetujuan"
  /** Milliseconds in a day (1000 * 3600 * 24). */
  const MS_PER_DAY: int := 86400000

  /** `Math.ceil(a / b)` for a positive divisor. */
  function CeilDiv(a: int, b: int): (q: int)
    requires b > 0
    ensures (q - 1) * b < a <= q * b
  {
    -((-a) / b)
  }

  /** `diffDays`: whole days from start to end, rounded up, plus one (both ends count). */
  function DiffDays(startMs: int, endMs: int): (d: int)
    ensures (d - 2) * MS_PER_DAY < endMs - startMs <= (d - 1) * MS_PER_DAY
  {
    CeilDiv(endMs - startMs, MS_PER_DAY) + 1
  }

  /** For two calendar days the count is inclusive: end minus start, plus one. */
  lemma DiffDaysOfDays(startDay: int, endDay: int)
    ensures DiffDays(startDay * MS_PER_DAY, endDay * MS_PER_DAY) == endDay - startDay + 1
  {
    var d := DiffDays(startDay * MS_PER_DAY, endDay * MS_PER_DAY);
    assert endDay * MS_PER_DAY - startDay * MS_PER_DAY == (endDay - startDay) * MS_PER_DAY;
  }

  /** A same-day request is one day; an end before the start is not rejected and counts zero or fewer days. */
  lemma DiffDaysEdgeCases(day: int, endDay: int)
    ensures DiffDays(day * MS_PER_DAY, day * MS_PER_DAY) == 1
    ensures endDay < day ==> DiffDays(day * MS_PER_DAY, endDay * MS_PER_DAY) <= 0
  {
    DiffDaysOfDays(day, day);
    DiffDaysOfDays(day, endDay);
  }

  /** `!leaveType || !startDate || !endDate || !reason` fails: every field is non-empty. */
  predicate FieldsFilled(leaveType: string, startDate: string, endDate: string, reason: string) {
    Truthy(leaveType) && Truthy(startDate) && Truthy(endDate) && Truthy(reason)
  }

  /** The balance check: only annual leave with a known balance, and only strictly more days than remain. */
  predicate ExceedsBalance(leaveType: string, balance: Option<int>, diffDays: int) {
    leaveType == ANNUAL && balance.Some? && diffDays > balance.value
  }

  /** The balance written after an annual-leave request: the balance (0 when unknown) minus the days. */
  function NewBalance(balance: Option<int>, diffDays: int): (b: int)
    ensures b + diffDays == balance.GetOr(0)
  {
    balance.GetOr(0) - diffDays
  }

  /** A request that passes the check leaves a known, non-negative balance non-negative; using it all up is allowed. */
  lemma CheckedDeductionStaysNonNegative(balance: int, diffDays: int)
    requires 0 <= balance
    ensures !ExceedsBalance(ANNUAL, Some(balance), diffDays) ==> NewBalance(Some(balance), diffDays) >= 0
    ensures !ExceedsBalance(ANNUAL, Some(balance), balance) && NewBalance(Some(balance), balance) == 0
  {
  }

  /** Other leave types are never checked against the balance. */
  lemma OtherTypesUnchecked(leaveType: string, balance: Option<int>, diffDays: int)
    requires leaveType != ANNUAL
    ensures !ExceedsBalance(leaveType, balance, diffDays)
  {
  }

  /** With an unknown balance the check is skipped and the deduction starts from 0, so the stored balance becomes negative. */
  lemma UncheckedDeductions(days: int)
    requires days > 0
    ensures !ExceedsBalance(ANNUAL, None, days) && NewBalance(None, days) < 0
  {
  }

  /**
   * An end date before the start is not rejected: one day back counts zero days and leaves the
   * balance as it is, two or more days back count negative days and raise the balance.
   */
  lemma ReversedRangeDeductions(balance: int, startDay: int, endDay: int)
    ensures endDay == startDay - 1 ==>
              NewBalance(Some(balance), DiffDays(startDay * MS_PER_DAY, endDay * MS_PER_DAY)) == balance
    ensures endDay <= startDay - 2 ==>
              NewBalance(Some(balance), DiffDays(startDay * MS_PER_DAY, endDay * MS_PER_DAY)) > balance
    ensures endDay < startDay ==> !ExceedsBalance(ANNUAL, Some(balance), DiffDays(startDay * MS_PER_DAY, endDay * MS_PER_DAY)) || balance < 0
  {
    DiffDaysOfDays(startDay, endDay);
  }

  /** Twelve days left and a five-day annual leave (1 to 5 January) leave seven; with three left it is refused. */
  lemma BalanceScenarios(firstDay: int)
    ensures DiffDays(firstDay * MS_PER_DAY, (firstDay + 4) * MS_PER_DAY) == 5
    ensures !ExceedsBalance(ANNUAL, Some(12), 5) && NewBalance(Some(12), 5) == 7
    ensures ExceedsBalance(ANNUAL, Some(3), 5)
  {
    DiffDaysOfDays(firstDay, firstDay + 4);
  }

  /** The row inserted into `leave_requests`. */
  datatype LeaveRow = LeaveRow(userId: string, leaveType: string, startDate: string, endDate: string, reason: string, status: string)

  /** The calls the page issues to its collaborators. */
  datatype Call = GetUser | InsertRequest(row: LeaveRow) | UpdateBalance(userId: string, balance: int)

  /** How `handleSubmit` ended. */
  datatype Outcome = MissingFields | NotLoggedIn | InsufficientBalance | InsertFailed | Submitted

  /** The leave form's state. */
  class LeaveForm {
    var leaveType: string
    var startDate: string
    var endDate: string
    var reason: string
    /** `annual_leave_balance` as last read or written; None until it is known. */
    var leaveBalance: Option<int>
    var loading: bool
    var calls: seq<Call>

    constructor ()
      ensures leaveType == "" && startDate == "" && endDate == "" && reason == ""
      ensures leaveBalance == None && !loading && calls == []
    {
      leaveType := "";
      startDate := "";
      endDate := "";
      reason := "";
      leaveBalance := None;
      loading := false;
      calls := [];
    }

    /**
     * `fetchProfile`: `profile` is None when the profile query fails, otherwise the
     * `annual_leave_balance` column, itself possibly null. Without a user nothing changes.
     */
    method FetchProfile(user: Option<string>, profile: Option<Option<int>>)
      modifies this`leaveBalance
      ensures user.Some? && profile.Some? ==> leaveBalance == profile.value
      ensures user.None? || profile.None? ==> leaveBalance == old(leaveBalance)
    {
      if user.None? {
        return;
      }
      if profile.Some? {
        leaveBalance := profile.value;
      }
    }

    /** The four inputs' change handlers. */
    method Edit(newType: string, newStart: string, newEnd: string, newReason: string)
      modifies this`leaveType, this`startDate, this`endDate, this`reason
      ensures leaveType == newType && startDate == newStart && endDate == newEnd && reason == newReason
    {
      leaveType, startDate, endDate, reason := newType, newStart, newEnd, newReason;
    }

    /** The form is emptied after a successful submission. */
    method ClearFields()
      modifies this`leaveType, this`startDate, this`endDate, this`reason
      ensures leaveType == "" && startDate == "" && endDate == "" && reason == ""
    {
      leaveType, startDate, endDate, reason := "", "", "", "";
    }

    /**
     * The deduction after an accepted annual-leave request: the update is always issued, and the
     * balance shown changes only when the update succeeded.
     */
    method DeductBalance(userId: string, days: int, updateOk: bool)
      modifies this`leaveBalance, this`calls
      ensures calls == old(calls) + [UpdateBalance(userId, NewBalance(old(leaveBalance), days))]
      ensures leaveBalance == (if updateOk then Some(NewBalance(old(leaveBalance), days)) else old(leaveBalance))
    {
      var newBalance := NewBalance(leaveBalance, days);
      calls := calls + [UpdateBalance(userId, newBalance)];
      if updateOk {
        leaveBalance := Some(newBalance);
      }
    }

    /**
     * `handleSubmit`, given the signed-in user's id, the timestamps the two dates parse to, and
     * whether the insert and the balance update succeed. The request is inserted only once the
     * fields, the user and the balance check pass; the balance is deducted only after the insert
     * succeeded, and changed locally only when the update succeeded too.
     */
    method HandleSubmit(user: Option<string>, startMs: int, endMs: int, insertOk: bool, updateOk: bool)
      returns (outcome: Outcome)
      modifies this`leaveType, this`startDate, this`endDate, this`reason, this`leaveBalance, this`loading, this`calls
      ensures outcome == MissingFields <==> !FieldsFilled(old(leaveType), old(startDate), old(endDate), old(reason))
      ensures outcome == NotLoggedIn <==> FieldsFilled(old(leaveType), old(startDate), old(endDate), old(reason)) && user.None?
      ensures outcome == InsufficientBalance <==>
                FieldsFilled(old(leaveType), old(startDate), old(endDate), old(reason)) && user.Some? &&
                ExceedsBalance(old(leaveType), old(leaveBalance), DiffDays(startMs, endMs))
      ensures outcome == InsertFailed <==>
                FieldsFilled(old(leaveType), old(startDate), old(endDate), old(reason)) && user.Some? &&
                !ExceedsBalance(old(leaveType), old(leaveBalance), DiffDays(startMs, endMs)) && !insertOk
      ensures outcome == MissingFields ==> calls == old(calls) && loading == old(loading)
      ensures outcome != MissingFields ==> !loading
      ensures outcome == NotLoggedIn || outcome == InsufficientBalance ==> calls == old(calls) + [GetUser]
      ensures outcome == InsertFailed || (outcome == Submitted && old(leaveType) != ANNUAL) ==>
                calls == old(calls) + [GetUser, InsertRequest(LeaveRow(user.value, old(leaveType), old(startDate), old(endDate), old(reason), PENDING))]
      ensures outcome == Submitted && old(leaveType) == ANNUAL ==>
                var newBalance := NewBalance(old(leaveBalance), DiffDays(startMs, endMs));
                calls == old(calls) + [GetUser, InsertRequest(LeaveRow(user.value, old(leaveType), old(startDate), old(endDate), old(reason), PENDING)),
                                       UpdateBalance(user.value, newBalance)] &&
                leaveBalance == (if updateOk then Some(newBalance) else old(leaveBalance))
      ensures outcome != Submitted || old(leaveType) != ANNUAL ==> leaveBalance == old(leaveBalance)
      ensures outcome == Submitted ==> leaveType == "" && startDate == "" && endDate == "" && reason == ""
      ensures outcome != Submitted ==>
                leaveType == old(leaveType) && startDate == old(startDate) && endDate == old(endDate) && reason == old(reason)
    {
      if leaveType == "" || startDate == "" || endDate == "" || reason == "" {
        return MissingFields;
      }
      loading := true;
      calls := calls + [GetUser];
      if user.None? {
        loading := false;
        return NotLoggedIn;
      }
      var diffDays := DiffDays(startMs, endMs);
      if leaveType == ANNUAL && leaveBalance.Some? && diffDays > leaveBalance.value {
        loading := false;
        return InsufficientBalance;
      }
      calls := calls + [InsertRequest(LeaveRow(user.value, leaveType, startDate, endDate, reason, PENDING))];
      if !insertOk {
        loading := false;
        return InsertFailed;
      }
      if leaveType == ANNUAL {
        DeductBalance(user.value, diffDays, updateOk);
      }
      ClearFields();
      loading := false;
      outcome := Submitted;
    }
  }
}
