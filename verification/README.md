# KPPN attendance app: page logic in Dafny

This project models the decision rules inside the six pages of a small attendance and
logbook web application for the staff of a KPPN office (Next.js and Supabase):

- **Dashboard**: today's attendance status ("Belum Absen", "Masuk", "Pulang"), the display name,
  which of the two attendance buttons is enabled, the status badge, "Absen Pulang" and logout.
- **CheckInPage**: the 100 m geofence gate and the check-in, which stores "Masuk" in browser
  storage.
- **Logbook**: the daily task list with autocomplete over ten standard tasks, the form fields,
  and the insert of one `logbooks` row per task.
- **CheckOutForm**: the check-out location rule and the update of today's logbook rows. A
  reading passes when it is within 500 m, or when its reverse-geocoded address names
  Lhokseumawe.
- **RekapAbsensi**: the user's rows, optionally within a date range, newest first; the
  three-way statistics; the badge and the time column.
- **PengajuanCutiPage**: the leave request, with the inclusive day count, the annual-leave
  balance check and the deduction after the insert.

Each page whose handlers update component state is a class. Its fields are that state, and its
methods are the event handlers. Each method states the whole new state for every path through
the handler, early returns included. The pure rules inside the handlers are functions and
predicates, and lemmas state what those rules promise. The backend and the browser enter as
parameters, never as calls:

- the identity provider's user;
- the rows and errors the queries return;
- whether an insert or update succeeds;
- the distance to the office;
- the reverse-geocoded place name;
- the current date and time.

The writes a page issues are appended to a `calls` log, so the contracts say exactly what is
written and in which order. The one browser-storage entry the pages share, `absensi_status`, is
a `Store.StatusStorage` object that the Dashboard and CheckIn pages hold by reference. The
`DailyFlow` module replays events across the pages against that entry, the date the pages take
as today, and the logbook rows per log date.

Files:

- `text.dfy`: `Optional` and `Text`, the JavaScript string operations the handlers use.
- `store.dfy`: the shared browser storage and the answers of the identity provider and the
  logbook query.
- `logbook.dfy`, `dashboard.dfy`, `checkin.dfy`, `checkout.dfy`, `recap.dfy`, `leave.dfy`: one
  module per page.
- `dailyflow.dfy`: how the page rules combine within one date and across dates.

## Model

| member | source | states |
|---|---|---|
| Text.TrimStart | src/app/Logbook/page.tsx:188 | result is the suffix left after an all-white-space prefix, and does not start with white space |
| Text.TrimEnd | src/app/Logbook/page.tsx:188 | result is the prefix left before an all-white-space suffix, and does not end with white space |
| Text.Trim | src/app/Logbook/page.tsx:188 | `trim()` yields a trimmed string no longer than the input, empty exactly when the input is all white space |
| Text.TrimIsSlice | src/app/Logbook/page.tsx:188 | the trimmed text is a contiguous piece of the input with only white space on either side |
| Text.TrimStartAllSpace | src/app/Logbook/page.tsx:188 | if what is left after the leading white space is all white space, the whole input was |
| Text.TrimTrimmed | src/app/Logbook/page.tsx:188 | trimming is idempotent: a trimmed string is its own `trim()` |
| Text.ToLower | src/app/Logbook/page.tsx:178 | `toLowerCase()` keeps the length and folds each character independently |
| Text.ContainsIff | src/app/Logbook/page.tsx:178 | `includes` holds exactly when the pattern occurs at some position |
| Text.MissingCharNotContained | src/app/CheckOutForm/page.tsx:111 | a text lacking one of the pattern's characters does not include the pattern |
| Text.Contains | src/app/Logbook/page.tsx:178 | `includes`: the pattern starts at the first position or, recursively, at a later one; `ContainsIff` gives its meaning |
| Text.BeforeFirst | src/app/Logbook/page.tsx:112 | `split('@')[0]` is a prefix without '@', followed by '@' when shorter than the input |
| Logbook.SelectUserData | src/app/Logbook/page.tsx:112-145 | the name is the non-blank profile name, else the e-mail's part before '@', else "Pegawai"; the position is the profile's when truthy, else "Staf Pelaksana" |
| Logbook.Matches | src/app/Logbook/page.tsx:177-178 | a catalogue task matches when its lower-cased text includes the lower-cased input |
| Logbook.MatchingTasks | src/app/Logbook/page.tsx:177-179 | the filter keeps exactly the catalogue entries that match case-insensitively, and is never longer than the catalogue |
| Logbook.MatchingTasksAppend | src/app/Logbook/page.tsx:177-179 | the filter keeps catalogue order: filtering a concatenation concatenates the filtered parts |
| Logbook.Suggestions | src/app/Logbook/page.tsx:176-184 | no suggestions for input of two characters or fewer; otherwise exactly the matching catalogue entries |
| Logbook.Accepts | src/app/Logbook/page.tsx:188-189 | the candidate is accepted when its trimmed text is non-empty and not yet listed |
| Logbook.WithTask | src/app/Logbook/page.tsx:187-195 | an accepted candidate's trimmed text is appended after the unchanged earlier tasks; a rejected one changes nothing |
| Logbook.WithTaskMembers | src/app/Logbook/page.tsx:187-195 | the tasks afterwards are the earlier ones plus, when accepted, the trimmed candidate |
| Logbook.WithTaskWellFormed | src/app/Logbook/page.tsx:187-195 | adding keeps every task trimmed, non-blank and listed once |
| Logbook.WithTaskTwice | src/app/Logbook/page.tsx:187-195 | adding the same text twice has the effect of adding it once |
| Logbook.RemoveAt | src/app/Logbook/page.tsx:198-200 | removes exactly the task at an index inside the list; any other index leaves the list as it is |
| Logbook.RemoveAtWellFormed | src/app/Logbook/page.tsx:198-200 | removing keeps every task trimmed, non-blank and listed once |
| Logbook.SetField | src/app/Logbook/page.tsx:204-210 | only the four known field names change their field; any other name changes nothing |
| Logbook.Entries | src/app/Logbook/page.tsx:228-240 | one row per task, each with the user, position, date and times of the form |
| Logbook.EntriesForgetTaskText | src/app/Logbook/page.tsx:228-240 | the rows do not depend on the task texts: equally long task lists give identical rows |
| Logbook.LogbookPage.constructor | src/app/Logbook/page.tsx:69-84 | empty task list and input, loading, today's date and 08:00 as start time |
| Logbook.LogbookPage.LoadUser | src/app/Logbook/page.tsx:89-165 | no user: only the error; otherwise user id and `SelectUserData`, with the log-check message overriding the profile message |
| Logbook.LogbookPage.HandleTaskInputChange | src/app/Logbook/page.tsx:172-185 | records the input and shows `Suggestions` for it |
| Logbook.LogbookPage.AddTask | src/app/Logbook/page.tsx:187-195 | the list becomes `WithTask`; input and suggestions clear only when the task was accepted; the list stays well formed |
| Logbook.LogbookPage.AddTypedTask | src/app/Logbook/page.tsx:187 | the default argument: adds the text currently in the input box |
| Logbook.LogbookPage.RemoveTask | src/app/Logbook/page.tsx:198-200 | the list becomes `RemoveAt`, one shorter exactly when the index is inside it |
| Logbook.LogbookPage.HandleChange | src/app/Logbook/page.tsx:204-210 | the form becomes `SetField` of the old form |
| Logbook.LogbookPage.HandleSubmit | src/app/Logbook/page.tsx:213-255 | no tasks or no user id: an error and no write; otherwise exactly one insert of `Entries`, then the insert error or a submission left in flight |
| Dashboard.DisplayName | src/app/Dashboard/page.tsx:36 | the profile name when truthy, else the e-mail's whole part before its first '@' when that is non-empty, else "Pengguna KPPN"; never empty |
| Dashboard.StatusAfterLoad | src/app/Dashboard/page.tsx:42-43 | a non-empty stored status replaces the current one; otherwise it stays |
| Dashboard.LogbookCompleted | src/app/Dashboard/page.tsx:54-59 | the logbook counts as completed only when the query succeeded and returned at least one row |
| Dashboard.IsMasukEnabled | src/app/Dashboard/page.tsx:195 | "Absen Masuk" is enabled only while the status is "Belum Absen" |
| Dashboard.IsPulangDisabled | src/app/Dashboard/page.tsx:154 | "Absen Pulang" is disabled unless the status is "Masuk" and the logbook is completed |
| Dashboard.ButtonsExclusive | src/app/Dashboard/page.tsx:154 | the two attendance buttons are never enabled together; "Absen Pulang" is enabled exactly with status "Masuk" and a completed logbook |
| Dashboard.StatusBadge | src/app/Dashboard/page.tsx:104-116 | "Masuk" and "Pulang" have their own texts, each shown exactly for that status; every other value reads "Belum Absen" |
| Dashboard.DashboardPage.constructor | src/app/Dashboard/page.tsx:12-16 | status "Belum Absen", placeholder name and e-mail, loading |
| Dashboard.DashboardPage.FetchAndCheckStatus | src/app/Dashboard/page.tsx:19-62 | no user: nothing changes; otherwise name, e-mail, stored status and logbook flag (false on a query error) are set and loading ends |
| Dashboard.DashboardPage.HandleAbsenPulang | src/app/Dashboard/page.tsx:77-88 | without a completed logbook nothing changes; otherwise page and storage both become "Pulang" |
| Dashboard.DashboardPage.HandleLogout | src/app/Dashboard/page.tsx:90-96 | signs out once and clears the stored status, whatever sign-out returns |
| CheckIn.IsLocationValid | src/app/CheckInPage/page.tsx:86 | a position was read, its distance is known, and it is at most 100 m |
| CheckIn.IsReadyToSubmit | src/app/CheckInPage/page.tsx:87 | a valid location and no submission in flight |
| CheckIn.LocationStatusText | src/app/CheckInPage/page.tsx:64-68 | "outside" exactly beyond 100 m, "valid" exactly within it |
| CheckIn.StatusTextAgreesWithGate | src/app/CheckInPage/page.tsx:86 | the status text says "valid" exactly when the submit gate accepts the reading |
| CheckIn.RadiusInclusive | src/app/CheckInPage/page.tsx:86 | a reading exactly at 100 m is valid; a farther one is not |
| CheckIn.CheckInForm.constructor | src/app/CheckInPage/page.tsx:37-40 | no location or distance, "Mencari lokasi...", nothing in flight |
| CheckIn.CheckInForm.OnGeolocationUnsupported | src/app/CheckInPage/page.tsx:50-53 | only the status line changes |
| CheckIn.CheckInForm.OnPosition | src/app/CheckInPage/page.tsx:56-69 | location and distance are recorded; the status text follows the radius and agrees with validity |
| CheckIn.CheckInForm.OnPositionError | src/app/CheckInPage/page.tsx:70-77 | permission denied and other failures get their own messages |
| CheckIn.CheckInForm.HandleSubmit | src/app/CheckInPage/page.tsx:91-119 | not ready: nothing changes; ready: "Masuk" is stored, replacing any earlier status, and nothing stays in flight |
| CheckOut.WithinRadius | src/app/CheckOutForm/page.tsx:110 | the radius branch: a known distance that is truthy (not 0) and at most 500 m |
| CheckOut.AddressInCity | src/app/CheckOutForm/page.tsx:111 | the address branch: a non-empty address whose lower-cased text includes "lhokseumawe" |
| CheckOut.IsValidLocation | src/app/CheckOutForm/page.tsx:109-111 | the radius branch or the address branch |
| CheckOut.AddressOverridesDistance | src/app/CheckOutForm/page.tsx:109-111 | an address naming the city accepts any distance, even an unknown one, and so does a stale one from an earlier reading |
| CheckOut.RadiusBoundary | src/app/CheckOutForm/page.tsx:109-111 | a positive distance up to 500 m passes; a longer one passes exactly when the address names the city |
| CheckOut.ZeroDistanceNeedsAddress | src/app/CheckOutForm/page.tsx:110 | a distance of 0 is within the radius but fails the radius test, so only the address can accept it |
| CheckOut.ZeroDistanceRejectedWithoutAddress | src/app/CheckOutForm/page.tsx:109-111 | with any of the three placeholder addresses, a reading exactly at the office is rejected |
| CheckOut.NoHNotInCity | src/app/CheckOutForm/page.tsx:111 | a text without 'h' or 'H' never names the city |
| CheckOut.LocationStatusText | src/app/CheckOutForm/page.tsx:69-73 | "valid" exactly within 500 m, "outside" exactly beyond |
| CheckOut.AddressOf | src/app/CheckOutForm/page.tsx:58-66 | the place name when truthy, "Alamat tidak ditemukan" when missing, "Gagal mendapatkan alamat" when the request fails |
| CheckOut.CheckOutForm.constructor | src/app/CheckOutForm/page.tsx:18-22 | no location, placeholder address and status, nothing in flight |
| CheckOut.CheckOutForm.OnGeolocationUnsupported | src/app/CheckOutForm/page.tsx:32-35 | only the status line changes |
| CheckOut.CheckOutForm.OnFetchStarted | src/app/CheckOutForm/page.tsx:37 | only the status line changes |
| CheckOut.CheckOutForm.OnPosition | src/app/CheckOutForm/page.tsx:39-55 | location and distance are recorded while the address and status stay as they were, so validity is then judged with the earlier address |
| CheckOut.CheckOutForm.OnAddress | src/app/CheckOutForm/page.tsx:57-73 | the address becomes `AddressOf` the geocoder's answer, then the status follows the radius |
| CheckOut.CheckOutForm.OnPositionError | src/app/CheckOutForm/page.tsx:75-82 | permission denied and other failures get their own messages |
| CheckOut.CheckOutForm.HandleCheckOut | src/app/CheckOutForm/page.tsx:102-152 | no location, or a location failing `IsValidLocation`: no call and no state change; otherwise one user lookup, the update only with a user, and nothing left in flight |
| Recap.Classify | src/app/RekapAbsensi/page.tsx:86-90 | "Hadir" and "Terlambat" count as themselves, exactly; everything else, null included, counts as "Tidak Hadir" |
| Recap.Count | src/app/RekapAbsensi/page.tsx:84-92 | a counter never exceeds the number of rows |
| Recap.CountsPartition | src/app/RekapAbsensi/page.tsx:84-92 | the three counters add up to the number of rows |
| Recap.ComputeStats | src/app/RekapAbsensi/page.tsx:84-92 | the loop's counters equal the three counts, `totalHari` is the row count and the counters sum to it |
| Recap.ShownStatus | src/app/RekapAbsensi/page.tsx:185 | the row's status when truthy, else "Tidak Hadir" |
| Recap.StatusBadge | src/app/RekapAbsensi/page.tsx:9-26 | "Hadir" and "Terlambat" are shown as they are; every other value, "Alfa" included, as "Tidak Hadir" |
| Recap.BadgeAgreesWithStats | src/app/RekapAbsensi/page.tsx:84-92 | each row's badge names the counter the statistics put it in |
| Recap.TimeShown | src/app/RekapAbsensi/page.tsx:182 | the first five characters of a truthy time, else "-"; never empty |
| Recap.OwnRows | src/app/RekapAbsensi/page.tsx:55 | exactly the rows of the given user, each as often as the table holds it |
| Recap.Between | src/app/RekapAbsensi/page.tsx:59 | exactly the rows dated within the inclusive range, each as often as the input holds it |
| Recap.FilterRange | src/app/RekapAbsensi/page.tsx:58-60 | the range applies, keeping multiplicities, only when both ends are set; otherwise the rows pass unchanged |
| Recap.InsertDesc | src/app/RekapAbsensi/page.tsx:56 | insertion adds exactly the one row (as a multiset) |
| Recap.InsertDescMembers | src/app/RekapAbsensi/page.tsx:56 | every row after insertion is the new row or an old one |
| Recap.InsertDescSorted | src/app/RekapAbsensi/page.tsx:56 | insertion into a newest-first list keeps it newest first |
| Recap.ConsSorted | src/app/RekapAbsensi/page.tsx:56 | a row no older than the rest can go in front of a newest-first list |
| Recap.SortDesc | src/app/RekapAbsensi/page.tsx:56 | the rows newest first, a permutation of the input |
| Recap.QueryRows | src/app/RekapAbsensi/page.tsx:52-62 | newest first, each qualifying row as often as the table holds it, and exactly the user's rows within the range when both ends are set |
| Recap.RecapPage.constructor | src/app/RekapAbsensi/page.tsx:36-39 | no rows, not loading, both date inputs empty |
| Recap.RecapPage.FetchData | src/app/RekapAbsensi/page.tsx:42-71 | with a user and a successful query the rows become `QueryRows`; otherwise they stay; loading ends |
| Recap.RecapPage.ChangeRange | src/app/RekapAbsensi/page.tsx:77-81 | the inputs are recorded; the rows are fetched again only when both are set |
| Leave.CeilDiv | src/app/PengajuanCutiPage/page.tsx:62 | `Math.ceil(a / b)`: the least q with a <= q * b |
| Leave.DiffDays | src/app/PengajuanCutiPage/page.tsx:62 | the day count is one more than the elapsed time rounded up to whole days |
| Leave.DiffDaysOfDays | src/app/PengajuanCutiPage/page.tsx:62 | for two midnights the count is inclusive: end minus start plus one |
| Leave.DiffDaysEdgeCases | src/app/PengajuanCutiPage/page.tsx:62 | a same-day request is one day; an end before the start gives zero or fewer days |
| Leave.FieldsFilled | src/app/PengajuanCutiPage/page.tsx:46 | all four fields are non-empty |
| Leave.ExceedsBalance | src/app/PengajuanCutiPage/page.tsx:65 | refused only for annual leave with a known balance and strictly more days than remain |
| Leave.NewBalance | src/app/PengajuanCutiPage/page.tsx:90 | the new balance plus the days equals the old balance, with an unknown balance read as 0 |
| Leave.CheckedDeductionStaysNonNegative | src/app/PengajuanCutiPage/page.tsx:65-69 | a request passing the check keeps a known, non-negative balance non-negative; using it all up is allowed |
| Leave.OtherTypesUnchecked | src/app/PengajuanCutiPage/page.tsx:65 | leave types other than "Cuti Tahunan" are never checked against the balance |
| Leave.UncheckedDeductions | src/app/PengajuanCutiPage/page.tsx:65-90 | with an unknown balance the check is skipped and the deduction from 0 turns the balance negative |
| Leave.ReversedRangeDeductions | src/app/PengajuanCutiPage/page.tsx:62-90 | an end one day before the start deducts nothing; two or more days before it raises the balance; neither is refused by a non-negative balance |
| Leave.BalanceScenarios | src/app/PengajuanCutiPage/page.tsx:62-90 | five days from twelve leave seven; five days against three are refused |
| Leave.LeaveForm.constructor | src/app/PengajuanCutiPage/page.tsx:10-15 | empty fields, unknown balance, not loading |
| Leave.LeaveForm.FetchProfile | src/app/PengajuanCutiPage/page.tsx:18-40 | the balance (possibly null) is taken only with a user and a successful query |
| Leave.LeaveForm.Edit | src/app/PengajuanCutiPage/page.tsx:135-174 | the four inputs take the typed values |
| Leave.LeaveForm.ClearFields | src/app/PengajuanCutiPage/page.tsx:106-109 | the four inputs are emptied |
| Leave.LeaveForm.DeductBalance | src/app/PengajuanCutiPage/page.tsx:89-101 | the update is always issued; the local balance changes only when the update succeeds |
| Leave.LeaveForm.HandleSubmit | src/app/PengajuanCutiPage/page.tsx:43-116 | each outcome happens exactly under its condition; the insert happens only after every check, the deduction only for annual leave after a successful insert, the reset only on success |
| DailyFlow.Step | src/app/Dashboard/page.tsx:47-59 | no event removes logbook rows; only a new date changes today's date, and it keeps the stored status |
| DailyFlow.RunKeepsLogbookInvariant | src/app/Dashboard/page.tsx:77-88 | within one date no sequence of events stores "Pulang" without a logbook dated that day |
| DailyFlow.StatusSurvivesNewDay | src/app/Dashboard/page.tsx:47-52 | after a complete day the next date starts at "Pulang" with no logbook, and "Absen Masuk" stays disabled |
| DailyFlow.PulangOnlyFromMasuk | src/app/Dashboard/page.tsx:154 | from any start, "Pulang" is stored at the end only if it was at the start or the button was pressed while "Masuk" was stored and today had a logbook |
| DailyFlow.PulangWithoutCheckInToday | src/app/Dashboard/page.tsx:42-43 | "Masuk" stored on an earlier date lets a day end with only a logbook and no check-in |
| DailyFlow.CheckInReopensDay | src/app/CheckInPage/page.tsx:91-113 | the check-in ignores the stored status: a valid check-in after "Pulang" sets it back to "Masuk" |

## Left out

- Distances: the haversine great-circle distance and its floating point are not modelled. The
  distance in metres is an input, a Dafny `real`, so NaN and rounding are not modelled either.
- Geolocation and reverse geocoding: the browser's geolocation service and the Nominatim
  request are not modelled. Their results are inputs (`OnPosition`, `OnAddress`,
  `OnPositionError`, `Geocode`). On the check-out page a reading arrives in two steps, position
  then address. In between, the address is the placeholder on the first reading, and after
  "Ambil Ulang Lokasi" it is the previous reading's address, which `HandleCheckOut` then judges
  and writes with the new distance.
- Supabase: the queries themselves, row-level security and the network are not modelled. Each
  query's answer is a parameter, and each write is recorded in the page's `calls` log.
- The check-in payload: it is built and only written to the console, so it does not appear in
  the model.
- The 1.5 s simulated delay before check-in is not modelled.
- Timers and clocks: the one-second clock, `setTimeout` redirects, `Date` formatting with the
  `id-ID` locale and the clock-derived default values are not modelled. Today's date and the
  current time are parameters.
- Dates: the leave page's dates are millisecond timestamps (`Date.getTime`). An unparsable date,
  which gives NaN, is not modelled. The recap compares `log_date` as day numbers, which follow
  the order of ISO date strings.
- Navigation, toasts, console output and rendering (JSX, CSS, loading screens) are not modelled.
  The Dashboard's "Absen Masuk" handler, which only navigates, is represented by its
  enabled-rule `Dashboard.IsMasukEnabled`.
- Focus events: the Dashboard re-runs its fetch when the window regains focus, and each run is
  the same `FetchAndCheckStatus`. Concurrent, interleaved async handlers are not modelled.
- The missing-client check: the Logbook page tests whether its Supabase client object exists.
  The client always exists here, so that branch is not modelled.
- Register, the root page and the middleware are not part of this model.
- DailyFlow.RunKeepsLogbookInvariant: holds only within one date. The stored status is cleared
  only by logout, not when the date changes, so the next date starts at "Pulang" with no
  logbook (`DailyFlow.StatusSurvivesNewDay`).
- DailyFlow.PulangOnlyFromMasuk: does not promise a check-in on the same date, because "Masuk"
  may have been stored on an earlier one (`DailyFlow.PulangWithoutCheckInToday`).
- Text.ToLower: folds only the ASCII letters A–Z, whereas JavaScript's `toLowerCase` applies
  full Unicode case mapping.
- Text lengths: JavaScript measures `length` and `slice` in UTF-16 code units, while the model
  counts Dafny characters. The two differ only for characters outside the Basic Multilingual
  Plane.
- Recap.SortDesc: the database's order among rows with the same `log_date` is not specified.
  The model fixes one order, and only the newest-first property and the permutation are
  promised.
- The task description: the logbook submission computes a text combining each task with the
  remark, and then discards it. The inserted rows carry no task text, which
  `Logbook.EntriesForgetTaskText` states.
