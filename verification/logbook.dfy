/**
 * The daily logbook form (src/app/Logbook/page.tsx): the list of tasks the employee
 * builds up, autocomplete over a fixed catalogue of standard tasks, the form fields,
 * and the submission that inserts one `logbooks` row per task.
 */
module Logbook {
  import opened Optional
  import opened Text
  import opened Store

  /** The catalogue the autocomplete searches, in display order. */
  const STANDARD_TASKS: seq<string> := [
    "Pelaksanaan rekonsiliasi laporan keuangan",
    "Verifikasi Surat Perintah Membayar (SPM)",
    "Penyusunan Laporan Pertanggungjawaban (LPJ)",
    "Input data transaksi ke sistem SAKTI",
    "Pelayanan konsultasi anggaran",
    "Monitoring dan evaluasi kinerja PPNPN",
    "Administrasi persuratan dan kearsipan",
    "Rapat koordinasi internal",
    "Pengarsipan dokumen dinas",
    "Penyelesaian naskah dinas"
  ]

  const DEFAULT_POSITION := "Staf Pelaksana"
  const DEFAULT_NAME := "Pegawai"
  const MSG_NOT_AUTHENTICATED := "Pengguna belum terautentikasi."
  const MSG_ALREADY_FILLED := "Anda sudah mengisi Logbook Harian untuk tanggal ini."
  const MSG_NO_TASKS := "Mohon tambahkan minimal satu Tugas/Pekerjaan."
  const MSG_NO_USER_ID := "Error: User ID tidak ditemukan. Mohon coba login ulang."

  /** The message shown when the profile query fails. */
  function ProfileErrorMessage(message: string): string {
    "Gagal mengambil data profil: " + message + ". Silakan periksa konfigurasi RLS Supabase Anda."
  }

  /** The message shown when the check for today's logbook fails. */
  function LogCheckErrorMessage(message: string): string {
    "Gagal cek status Logbook: " + message + "."
  }

  /** The message shown when the insert fails. */
  function InsertErrorMessage(message: string): string {
    "Gagal menyimpan data: " + message
  }

  datatype UserData = UserData(fullName: string, position: string)
  datatype FormData = FormData(date: string, startTime: string, endTime: string, keterangan: string)

  /** The `full_name, position` columns of the user's `profiles` row. */
  datatype Profile = Profile(fullName: Option<string>, position: Option<string>)

  /** One row inserted into `logbooks`. */
  datatype Entry = Entry(userId: string, position: string, logDate: string, startTime: string, endTime: string)
  /** The writes the page issues to the record store. */
  datatype Call = InsertLogbooks(entries: seq<Entry>)

  // ---------------------------------------------------------------------------
  // Display name and position

  /** The profile's `full_name` is used only when it is present and not blank. */
  predicate ProfileNameUsable(profile: Option<Profile>) {
    profile.Some? && profile.value.fullName.Some? && Trim(profile.value.fullName.value) != ""
  }

  /**
   * The name and position `fetchUserData` settles on: the profile's full name when it is not
   * blank, else the part of the e-mail address before its first '@', else "Pegawai"; the
   * profile's position when it is non-empty, else "Staf Pelaksana".
   */
  function SelectUserData(email: Option<string>, profile: Option<Profile>): (u: UserData)
    ensures ProfileNameUsable(profile) ==> u.fullName == profile.value.fullName.value && Trim(u.fullName) != ""
    ensures !ProfileNameUsable(profile) && Filled(email) ==>
              StartsWith(email.value, u.fullName) && '@' !in u.fullName &&
              (|u.fullName| < |email.value| ==> email.value[|u.fullName|] == '@')
    ensures !ProfileNameUsable(profile) && !Filled(email) ==> u.fullName == DEFAULT_NAME
    ensures profile.Some? && Filled(profile.value.position) ==>
              u.position == profile.value.position.value
    ensures !(profile.Some? && Filled(profile.value.position)) ==>
              u.position == DEFAULT_POSITION
    ensures u.position != ""
  {
    var fromEmail := if Filled(email) then BeforeFirst(email.value, '@') else DEFAULT_NAME;
    var name := if ProfileNameUsable(profile) then profile.value.fullName.value else fromEmail;
    var position :=
      if profile.Some? && Filled(profile.value.position)
      then profile.value.position.value else DEFAULT_POSITION;
    UserData(name, position)
  }

  // ---------------------------------------------------------------------------
  // Autocomplete

  /** A catalogue task matches the typed input case-insensitively, anywhere in its text. */
  predicate Matches(task: string, input: string) {
    Contains(ToLower(task), ToLower(input))
  }

  /** The catalogue entries that match `input`, in catalogue order (`Array.prototype.filter`). */
  function MatchingTasks(catalogue: seq<string>, input: string): (r: seq<string>)
    ensures |r| <= |catalogue|
    ensures forall t :: t in r <==> t in catalogue && Matches(t, input)
  {
    if catalogue == [] then []
    else (if Matches(catalogue[0], input) then [catalogue[0]] else []) + MatchingTasks(catalogue[1..], input)
  }

  /** The filter keeps catalogue order: filtering a concatenation concatenates the filtered parts. */
  lemma {:induction false} MatchingTasksAppend(a: seq<string>, b: seq<string>, input: string)
    ensures MatchingTasks(a + b, input) == MatchingTasks(a, input) + MatchingTasks(b, input)
  {
    if a != [] {
      assert (a + b)[0] == a[0];
      assert (a + b)[1..] == a[1..] + b;
      MatchingTasksAppend(a[1..], b, input);
    } else {
      assert a + b == b;
    }
  }

  /**
   * The suggestions shown for the text in the task box, drawn from `catalogue` (the page uses
   * `STANDARD_TASKS`): none until more than two characters are typed.
   */
  function Suggestions(catalogue: seq<string>, input: string): (r: seq<string>)
    ensures |input| <= 2 ==> r == []
    ensures |input| > 2 ==> forall t :: t in r <==> t in catalogue && Matches(t, input)
  {
    if |input| > 2 then MatchingTasks(catalogue, input) else []
  }

  // ---------------------------------------------------------------------------
  // The task list

  /** The invariant of the task list: every task trimmed, non-empty, and no task twice. */
  ghost predicate WellFormedTasks(tasks: seq<string>) {
    (forall i :: 0 <= i < |tasks| ==> tasks[i] != "" && IsTrimmed(tasks[i])) &&
    (forall i, j :: 0 <= i < j < |tasks| ==> tasks[i] != tasks[j])
  }

  /** `addTask` accepts a candidate when, once trimmed, it is non-empty and not yet listed. */
  predicate Accepts(tasks: seq<string>, candidate: string) {
    Trim(candidate) != "" && Trim(candidate) !in tasks
  }

  /** The task list after `addTask(candidate)`: the trimmed candidate appended, or nothing changed. */
  function WithTask(tasks: seq<string>, candidate: string): (r: seq<string>)
    ensures |r| == |tasks| + (if Accepts(tasks, candidate) then 1 else 0)
    ensures r[..|tasks|] == tasks
    ensures Accepts(tasks, candidate) ==> r[|tasks|] == Trim(candidate)
  {
    var t := Trim(candidate);
    if t != "" && t !in tasks then tasks + [t] else tasks
  }

  /** The tasks after `addTask` are the earlier ones plus, when accepted, the trimmed candidate. */
  lemma WithTaskMembers(tasks: seq<string>, candidate: string)
    ensures forall t :: t in WithTask(tasks, candidate) <==>
              t in tasks || (Accepts(tasks, candidate) && t == Trim(candidate))
  {
  }

  /** Adding a task keeps the list trimmed, non-blank and free of duplicates. */
  lemma WithTaskWellFormed(tasks: seq<string>, candidate: string)
    requires WellFormedTasks(tasks)
    ensures WellFormedTasks(WithTask(tasks, candidate))
  {
    if Accepts(tasks, candidate) {
      var t := Trim(candidate);
      var r := tasks + [t];
      assert WithTask(tasks, candidate) == r;
      forall i, j | 0 <= i < j < |r| ensures r[i] != r[j] {
        if j == |tasks| { assert r[i] in tasks; }
      }
    }
  }

  /** Adding the same text twice has the effect of adding it once. */
  lemma WithTaskTwice(tasks: seq<string>, candidate: string)
    ensures WithTask(WithTask(tasks, candidate), candidate) == WithTask(tasks, candidate)
  {
    if Accepts(tasks, candidate) {
      var r := WithTask(tasks, candidate);
      assert r[|tasks|] == Trim(candidate);
    }
  }

  /** `tasks.filter((_, i) => i !== index)`: the list without the task at position `index`. */
  function RemoveAt(tasks: seq<string>, index: int): (r: seq<string>)
    ensures 0 <= index < |tasks| ==> r == tasks[..index] + tasks[index + 1..]
    ensures !(0 <= index < |tasks|) ==> r == tasks
  {
    if tasks == [] then []
    else (if index == 0 then [] else [tasks[0]]) + RemoveAt(tasks[1..], index - 1)
  }

  /** Removing a task keeps the list trimmed, non-blank and free of duplicates. */
  lemma RemoveAtWellFormed(tasks: seq<string>, index: int)
    requires WellFormedTasks(tasks)
    ensures WellFormedTasks(RemoveAt(tasks, index))
  {
    if 0 <= index < |tasks| {
      var r := RemoveAt(tasks, index);
      assert forall k :: 0 <= k < |r| ==> r[k] == tasks[if k < index then k else k + 1];
    }
  }

  // ---------------------------------------------------------------------------
  // Form fields and submission

  /** `handleChange`: only the four known field names are written; any other name changes nothing. */
  function SetField(form: FormData, name: string, value: string): (r: FormData)
    ensures name == "date" ==> r == form.(date := value)
    ensures name == "startTime" ==> r == form.(startTime := value)
    ensures name == "endTime" ==> r == form.(endTime := value)
    ensures name == "keterangan" ==> r == form.(keterangan := value)
    ensures name !in {"date", "startTime", "endTime", "keterangan"} ==> r == form
  {
    match name
    case "date" => form.(date := value)
    case "startTime" => form.(startTime := value)
    case "endTime" => form.(endTime := value)
    case "keterangan" => form.(keterangan := value)
    case _ => form
  }

  /** The rows `handleSubmit` inserts: one per task, all with the same user, position, date and times. */
  function Entries(tasks: seq<string>, userId: string, position: string, form: FormData): (r: seq<Entry>)
    ensures |r| == |tasks|
    ensures forall i :: 0 <= i < |r| ==>
              r[i] == Entry(userId, position, form.date, form.startTime, form.endTime)
  {
    if tasks == [] then []
    else [Entry(userId, position, form.date, form.startTime, form.endTime)] + Entries(tasks[1..], userId, position, form)
  }

  /**
   * The inserted rows do not record which task they stand for: two task lists of the same
   * length give identical rows (the task text, and the extra remark, reach no column).
   */
  lemma {:induction false} EntriesForgetTaskText(a: seq<string>, b: seq<string>, userId: string, position: string, form: FormData)
    requires |a| == |b|
    ensures Entries(a, userId, position, form) == Entries(b, userId, position, form)
  {
    if a != [] {
      EntriesForgetTaskText(a[1..], b[1..], userId, position, form);
    }
  }

  /** The page's state, as the component keeps it between events. */
  class LogbookPage {
    var userId: Option<string>
    var userData: UserData
    var tasks: seq<string>
    var currentTaskInput: string
    var suggestions: seq<string>
    var isLoading: bool
    var isSubmitting: bool
    var error: string
    var formData: FormData
    /** The writes issued to the record store so far. */
    var calls: seq<Call>
    /** The catalogue the autocomplete searches. */
    const catalogue: seq<string>

    ghost predicate Valid()
      reads this
    {
      WellFormedTasks(tasks)
    }

    /** The initial state: today's date, a start time of 08:00 and the current time as end time. */
    constructor (today: string, nowTime: string)
      ensures Valid()
      ensures userId == None && userData == UserData("", DEFAULT_POSITION)
      ensures tasks == [] && currentTaskInput == "" && suggestions == []
      ensures isLoading && !isSubmitting && error == ""
      ensures formData == FormData(today, "08:00", nowTime, "")
      ensures calls == [] && catalogue == STANDARD_TASKS
    {
      catalogue := STANDARD_TASKS;
      userId := None;
      userData := UserData("", DEFAULT_POSITION);
      tasks := [];
      currentTaskInput := "";
      suggestions := [];
      isLoading := true;
      isSubmitting := false;
      error := "";
      formData := FormData(today, "08:00", nowTime, "");
      calls := [];
    }

    /**
     * `fetchUserData`, given the identity provider's answer, the profile query's row and error,
     * and the check for an existing logbook today. The later messages overwrite the earlier ones.
     */
    method LoadUser(user: Option<AuthUser>, profile: Option<Profile>, profileError: Option<string>, logCheck: LogQuery)
      requires Valid()
      modifies this`userId, this`userData, this`isLoading, this`error
      ensures Valid() && !isLoading
      ensures user.None? ==> userId == old(userId) && userData == old(userData) && error == MSG_NOT_AUTHENTICATED
      ensures user.Some? ==> userId == Some(user.value.id) && userData == SelectUserData(user.value.email, profile)
      ensures user.Some? && logCheck.LogQueryFailed? ==>
                error == LogCheckErrorMessage(logCheck.message)
      ensures user.Some? && logCheck.LogRows? && logCheck.count > 0 ==> error == MSG_ALREADY_FILLED
      ensures user.Some? && logCheck == LogRows(0) && profileError.Some? ==>
                error == ProfileErrorMessage(profileError.value)
      ensures user.Some? && logCheck == LogRows(0) && profileError.None? ==> error == old(error)
    {
      if user.None? {
        isLoading := false;
        error := MSG_NOT_AUTHENTICATED;
        return;
      }
      userId := Some(user.value.id);
      if profileError.Some? {
        error := ProfileErrorMessage(profileError.value);
      }
      userData := SelectUserData(user.value.email, profile);
      if logCheck.LogQueryFailed? {
        error := LogCheckErrorMessage(logCheck.message);
      } else if logCheck.count > 0 {
        error := MSG_ALREADY_FILLED;
      }
      isLoading := false;
    }

    /** `handleTaskInputChange`: record the typed text and recompute the suggestions. */
    method HandleTaskInputChange(input: string)
      requires Valid()
      modifies this`currentTaskInput, this`suggestions
      ensures Valid()
      ensures currentTaskInput == input
      ensures suggestions == Suggestions(catalogue, input)
    {
      currentTaskInput := input;
      suggestions := Suggestions(catalogue, input);
    }

    /**
     * `addTask(taskToAdd)`: append the trimmed text when it is new and not blank, and then clear
     * the input box and the suggestions; otherwise change nothing.
     */
    method AddTask(taskToAdd: string)
      requires Valid()
      modifies this`tasks, this`currentTaskInput, this`suggestions
      ensures Valid()
      ensures tasks == WithTask(old(tasks), taskToAdd)
      ensures Accepts(old(tasks), taskToAdd) ==> currentTaskInput == "" && suggestions == []
      ensures !Accepts(old(tasks), taskToAdd) ==>
                tasks == old(tasks) && currentTaskInput == old(currentTaskInput) && suggestions == old(suggestions)
    {
      WithTaskWellFormed(tasks, taskToAdd);
      if Accepts(tasks, taskToAdd) {
        tasks := WithTask(tasks, taskToAdd);
        currentTaskInput := "";
        suggestions := [];
      } else {
        assert WithTask(tasks, taskToAdd) == tasks;
      }
    }

    /** The "add" button: `addTask()` with its default argument, the text in the input box. */
    method AddTypedTask()
      requires Valid()
      modifies this`tasks, this`currentTaskInput, this`suggestions
      ensures Valid()
      ensures tasks == WithTask(old(tasks), old(currentTaskInput))
      ensures Accepts(old(tasks), old(currentTaskInput)) ==> currentTaskInput == "" && suggestions == []
      ensures !Accepts(old(tasks), old(currentTaskInput)) ==>
                currentTaskInput == old(currentTaskInput) && suggestions == old(suggestions)
    {
      AddTask(currentTaskInput);
    }

    /** `removeTask(index)`: drop the task at `index`; an index outside the list changes nothing. */
    method RemoveTask(index: int)
      requires Valid()
      modifies this`tasks
      ensures Valid()
      ensures tasks == RemoveAt(old(tasks), index)
      ensures |tasks| == |old(tasks)| - (if 0 <= index < |old(tasks)| then 1 else 0)
    {
      RemoveAtWellFormed(tasks, index);
      tasks := RemoveAt(tasks, index);
    }

    /** `handleChange` for a form input named `name`. */
    method HandleChange(name: string, value: string)
      requires Valid()
      modifies this`formData
      ensures Valid()
      ensures formData == SetField(old(formData), name, value)
    {
      if name == "date" || name == "startTime" || name == "endTime" || name == "keterangan" {
        formData := SetField(formData, name, value);
      }
    }

    /**
     * `handleSubmit`, given the insert's error message (None when the insert succeeds).
     * Without tasks or without a user id nothing is written; otherwise one batch of rows,
     * one per task, is inserted.
     */
    method HandleSubmit(insertError: Option<string>)
      requires Valid()
      modifies this`isSubmitting, this`error, this`calls
      ensures Valid()
      ensures old(tasks) == [] ==> error == MSG_NO_TASKS && calls == old(calls) && isSubmitting == old(isSubmitting)
      ensures old(tasks) != [] && !Filled(userId) ==>
                error == MSG_NO_USER_ID && calls == old(calls) && isSubmitting == old(isSubmitting)
      ensures old(tasks) != [] && Filled(userId) ==>
                calls == old(calls) + [InsertLogbooks(Entries(tasks, userId.value, userData.position, formData))]
      ensures old(tasks) != [] && Filled(userId) && insertError.None? ==>
                isSubmitting && error == ""
      ensures old(tasks) != [] && Filled(userId) && insertError.Some? ==>
                !isSubmitting && error == InsertErrorMessage(insertError.value)
    {
      if tasks == [] {
        error := MSG_NO_TASKS;
        return;
      }
      if !Filled(userId) {
        error := MSG_NO_USER_ID;
        return;
      }
      isSubmitting := true;
      error := "";
      var entries := Entries(tasks, userId.value, userData.position, formData);
      calls := calls + [InsertLogbooks(entries)];
      if insertError.Some? {
        error := InsertErrorMessage(insertError.value);
        isSubmitting := false;
      }
    }
  }
}
