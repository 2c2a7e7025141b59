/**
 * The home screen (src/app/Dashboard/page.tsx): today's attendance status, the two attendance
 * buttons and the rules that enable them, the status badge, the display name, logout.
 */
module Dashboard {
  import opened Optional
  import opened Text
  import opened Store

  /** The three attendance statuses of a day. */
  const BELUM_ABSEN := "Belum Absen"
  const MASUK := "Masuk"
  const PULANG := "Pulang"

  const DEFAULT_DISPLAY_NAME := "Pengguna KPPN"

  /** The display name: the profile's `full_name`, else the e-mail's local part, else "Pengguna KPPN". */
  function DisplayName(profileFullName: Option<string>, email: Option<string>): (r: string)
    ensures Filled(profileFullName) ==> r == profileFullName.value
    ensures !Filled(profileFullName) && Filled(email) && BeforeFirst(email.value, '@') != "" ==>
              r == BeforeFirst(email.value, '@') && StartsWith(email.value, r) && '@' !in r &&
              (|r| < |email.value| ==> email.value[|r|] == '@')
    ensures !Filled(profileFullName) && !(Filled(email) && BeforeFirst(email.value, '@') != "") ==>
              r == DEFAULT_DISPLAY_NAME
    ensures r != ""
  {
    if Filled(profileFullName) then profileFullName.value
    else if Filled(email) && BeforeFirst(email.value, '@') != "" then BeforeFirst(email.value, '@')
    else DEFAULT_DISPLAY_NAME
  }

  /** The status after reading browser storage: a stored value replaces the current one only when non-empty. */
  function StatusAfterLoad(current: string, stored: Option<string>): (r: string)
    ensures Filled(stored) ==> r == stored.value
    ensures !Filled(stored) ==> r == current
  {
    if Filled(stored) then stored.value else current
  }

  /** The logbook counts as completed only when the query succeeded with at least one row. */
  predicate LogbookCompleted(q: LogQuery) {
    q.LogRows? && q.count > 0
  }

  /** The "Absen Masuk" button is enabled only before any attendance today. */
  predicate IsMasukEnabled(status: string) {
    status == BELUM_ABSEN
  }

  /** `isPulangDisabled`: the "Absen Pulang" button needs status "Masuk" and a completed logbook. */
  predicate IsPulangDisabled(status: string, hasCompletedLogbook: bool) {
    status != MASUK || !hasCompletedLogbook
  }

  /** At most one of the two attendance buttons is enabled at any time. */
  lemma ButtonsExclusive(status: string, hasCompletedLogbook: bool)
    ensures !(IsMasukEnabled(status) && !IsPulangDisabled(status, hasCompletedLogbook))
    ensures !IsPulangDisabled(status, hasCompletedLogbook) <==> status == MASUK && hasCompletedLogbook
  {
  }

  /** The badge text: "Masuk" and "Pulang" have their own texts, every other value reads "Belum Absen". */
  function StatusBadge(status: string): (text: string)
    ensures status == MASUK <==> text == "Sudah Absen Masuk"
    ensures status == PULANG <==> text == "Selesai Hari Ini"
    ensures status != MASUK && status != PULANG <==> text == BELUM_ABSEN
  {
    if status == MASUK then "Sudah Absen Masuk"
    else if status == PULANG then "Selesai Hari Ini"
    else BELUM_ABSEN
  }

  /** The writes the page issues to its collaborators. */
  datatype Call = SignOut

  /** The dashboard's state, as the component keeps it between events. */
  class DashboardPage {
    var absensiStatus: string
    var fullName: string
    var email: string
    var isLoading: bool
    var isLoggingOut: bool
    var hasCompletedLogbook: bool
    var calls: seq<Call>
    /** Browser storage, shared with the other pages. */
    const storage: StatusStorage

    constructor (storage: StatusStorage)
      ensures this.storage == storage
      ensures absensiStatus == BELUM_ABSEN && fullName == "Loading..." && email == "loading@kppn.go.id"
      ensures isLoading && !isLoggingOut && !hasCompletedLogbook && calls == []
    {
      this.storage := storage;
      absensiStatus := BELUM_ABSEN;
      fullName := "Loading...";
      email := "loading@kppn.go.id";
      isLoading := true;
      isLoggingOut := false;
      hasCompletedLogbook := false;
      calls := [];
    }

    /**
     * `fetchAndCheckStatus`, given the identity provider's user, the profile's `full_name` and
     * the answer of today's logbook query. Without a user the page only redirects.
     */
    method FetchAndCheckStatus(user: Option<AuthUser>, profileFullName: Option<string>, logQuery: LogQuery)
      modifies this`absensiStatus, this`fullName, this`email, this`isLoading, this`hasCompletedLogbook
      ensures user.None? ==>
                absensiStatus == old(absensiStatus) && fullName == old(fullName) && email == old(email) &&
                isLoading == old(isLoading) && hasCompletedLogbook == old(hasCompletedLogbook)
      ensures user.Some? ==>
                && fullName == DisplayName(profileFullName, user.value.email)
                && email == (if Filled(user.value.email) then user.value.email.value else "N/A")
                && absensiStatus == StatusAfterLoad(old(absensiStatus), storage.status)
                && hasCompletedLogbook == LogbookCompleted(logQuery)
                && !isLoading
    {
      if user.None? {
        return;
      }
      fullName := DisplayName(profileFullName, user.value.email);
      email := if Filled(user.value.email) then user.value.email.value else "N/A";
      var stored := storage.status;
      if Filled(stored) {
        absensiStatus := stored.value;
      }
      match logQuery {
        case LogQueryFailed(_) => hasCompletedLogbook := false;
        case LogRows(count) => hasCompletedLogbook := count > 0;
      }
      isLoading := false;
    }

    /** `handleAbsenPulang`: without a completed logbook nothing changes; otherwise the day ends. */
    method HandleAbsenPulang()
      modifies this`absensiStatus, storage`status
      ensures !old(hasCompletedLogbook) ==> absensiStatus == old(absensiStatus) && storage.status == old(storage.status)
      ensures old(hasCompletedLogbook) ==> absensiStatus == PULANG && storage.status == Some(PULANG)
    {
      if !hasCompletedLogbook {
        return;
      }
      absensiStatus := PULANG;
      storage.status := Some(PULANG);
    }

    /** `handleLogout`: sign out (whatever its outcome) and forget the stored status. */
    method HandleLogout()
      modifies this`isLoggingOut, this`calls, storage`status
      ensures isLoggingOut && calls == old(calls) + [SignOut]
      ensures storage.status == None
    {
      isLoggingOut := true;
      calls := calls + [SignOut];
      storage.status := None;
    }
  }
}
