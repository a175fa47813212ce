// The application serializers: the job check and the duplicate check when a
// student applies, the status update that records a history row only for a
// real change, the interview-time check and the saved-job duplicate check.
module ApplicationSerializers {
  import opened Common
  import opened Dates
  import opened ApplicationModels

  /** The parts of a job that applying reads; the deadline column holds a timestamp. */
  datatype JobState = JobState(id: int, employer: int, isActive: bool, deadline: Option<DateTime>)

  /** A rejected request carries a message; `TypeError` is the exception Python raises comparing a datetime with a date. */
  datatype Failure = Invalid(message: string) | TypeError

  const JobClosedError: string := "该职位已关闭"
  const DeadlinePassedError: string := "申请截止日期已过"
  const AlreadyAppliedError: string := "您已经申请过这个职位"
  const InterviewTimeError: string := "面试时间必须是未来的时间"
  const AlreadySavedError: string := "您已经收藏过这个职位"

  // ---------------------------------------------------------------------------
  // `ApplicationCreateSerializer.validate_job`.
  // ---------------------------------------------------------------------------

  /**
   * `validate_job` as written: a closed job is rejected; for an open job
   * with a deadline the deadline (a datetime) is compared with today's date,
   * which raises instead of deciding.
   */
  function ValidateJobAsWritten(job: JobState, today: Date): (r: Result<JobState, Failure>)
    ensures !job.isActive ==> r == Err(Invalid(JobClosedError))
    ensures job.isActive && job.deadline.Some? ==> r == Err(TypeError)
    ensures r.Ok? <==> job.isActive && job.deadline.None?
  {
    if !job.isActive then Err(Invalid(JobClosedError))
    else if job.deadline.Some? then Err(TypeError)
    else Ok(job)
  }

  /** Even a deadline a year away makes the check raise. */
  lemma FutureDeadlineRaises()
    ensures ValidateJobAsWritten(JobState(1, 1, true, Some(DateTime(Date(2031, 1, 1), 0, 0, 0, 0))), Date(2030, 1, 1)) == Err(TypeError)
  {
  }

  /**
   * The intended check: a closed job is rejected, and so is one whose
   * deadline falls on a day before today.
   */
  function ValidateJob(job: JobState, today: Date): (r: Result<JobState, Failure>)
    ensures r.Ok? <==> job.isActive && (job.deadline.None? || DateAtMost(today, job.deadline.value.date))
    ensures r.Ok? ==> r.value == job
    ensures !job.isActive ==> r == Err(Invalid(JobClosedError))
    ensures job.isActive && r.Err? ==> r == Err(Invalid(DeadlinePassedError))
  {
    if !job.isActive then Err(Invalid(JobClosedError))
    else if job.deadline.Some? && DateBefore(job.deadline.value.date, today) then Err(Invalid(DeadlinePassedError))
    else
      DateOrderTotal(today, if job.deadline.Some? then job.deadline.value.date else today);
      Ok(job)
  }

  /** The intended check never raises, agrees with the written one on jobs without a deadline, and accepts a deadline today. */
  lemma ValidateJobAgrees(job: JobState, today: Date)
    ensures ValidateJob(job, today) != Err(TypeError)
    ensures job.deadline.None? ==> ValidateJob(job, today) == ValidateJobAsWritten(job, today)
    ensures job.isActive && job.deadline.Some? && job.deadline.value.date == today ==> ValidateJob(job, today).Ok?
  {
  }

  // ---------------------------------------------------------------------------
  // `ApplicationCreateSerializer.create`.
  // ---------------------------------------------------------------------------

  /** A history without rows about `id` leaves it at "pending". */
  lemma {:induction false} ReplayUntouched(h: seq<HistoryRecord>, id: int)
    requires forall i :: 0 <= i < |h| ==> h[i].application != id
    ensures Replay(h, id) == Pending
    decreases |h|
  {
    if |h| > 0 {
      ReplayUntouched(h[..|h| - 1], id);
    }
  }

  /** Storing a new pending application under the next id keeps the tables valid, unless its pair is taken. */
  lemma InsertValid(apps: map<int, Application>, history: seq<HistoryRecord>, nextId: int, a: Application)
    requires TablesValid(apps, history, nextId) && a.id == nextId && a.status == Pending
    requires !HasApplied(apps, a.student, a.job)
    ensures nextId !in apps
    ensures TablesValid(apps[nextId := a], history, nextId + 1)
  {
    assert forall i :: 0 <= i < |history| ==> history[i].application != nextId;
    ReplayUntouched(history, nextId);
  }

  /** Whether the student has an application to the job already. */
  predicate HasApplied(applications: map<int, Application>, student: int, job: int) {
    exists id :: id in applications && applications[id].student == student && applications[id].job == job
  }

  /**
   * `create`: a second application by the same student to the same job is
   * rejected and nothing is stored; otherwise a new application with status
   * "pending" is stored under a fresh id.
   */
  method CreateApplication(store: ApplicationStore, student: int, job: JobState, coverLetter: string, appliedAt: DateTime)
    returns (r: Result<int, string>)
    requires store.Valid()
    modifies store
    ensures store.Valid()
    ensures r.Err? <==> HasApplied(old(store.applications), student, job.id)
    ensures r.Err? ==> r.error == AlreadyAppliedError && store.applications == old(store.applications)
    ensures r.Ok? ==> r.value !in old(store.applications)
                      && store.applications == old(store.applications)[r.value :=
                           Application(r.value, student, job.id, job.employer, coverLetter, Pending, None, "", None, appliedAt)]
    ensures store.history == old(store.history)
  {
    if exists id :: id in store.applications && store.applications[id].student == student && store.applications[id].job == job.id {
      return Err(AlreadyAppliedError);
    }
    var id := store.nextId;
    var a := Application(id, student, job.id, job.employer, coverLetter, Pending, None, "", None, appliedAt);
    InsertValid(store.applications, store.history, id, a);
    store.applications := store.applications[id := a];
    store.nextId := id + 1;
    r := Ok(id);
  }

  // ---------------------------------------------------------------------------
  // `ApplicationStatusUpdateSerializer.update`.
  // ---------------------------------------------------------------------------

  /**
   * `update`: an omitted status keeps the old one; the notes default to
   * the empty text and are only written into the history row, which is
   * added exactly when the status changes.
   */
  method UpdateApplicationStatus(store: ApplicationStore, id: int, status: Option<string>, changedBy: int, notes: Option<string>)
    requires store.Valid() && id in store.applications
    modifies store
    ensures store.Valid()
    ensures var before := old(store.applications)[id];
            var after := if status.Some? then status.value else before.status;
            && store.applications == old(store.applications)[id := before.(status := after)]
            && store.history == old(store.history) +
                 (if after != before.status
                  then [HistoryRecord(id, before.status, after, Some(changedBy), Some(if notes.Some? then notes.value else ""))]
                  else [])
    ensures store.nextId == old(store.nextId)
  {
    var note := if notes.Some? then notes.value else "";
    var a := store.applications[id];
    var oldStatus := a.status;
    var newStatus := if status.Some? then status.value else oldStatus;
    if oldStatus != newStatus {
      StatusChangeValid(store.applications, store.history, store.nextId, id, a.(status := newStatus), Some(changedBy), Some(note));
      store.applications := store.applications[id := a.(status := newStatus)];
      store.history := store.history + [HistoryRecord(id, oldStatus, newStatus, Some(changedBy), Some(note))];
    } else {
      SameStatusValid(store.applications, store.history, store.nextId, id, a.(status := newStatus));
      store.applications := store.applications[id := a.(status := newStatus)];
    }
  }

  // ---------------------------------------------------------------------------
  // `InterviewSerializer.validate_scheduled_at`.
  // ---------------------------------------------------------------------------

  /** An interview time must come strictly after now. */
  function ValidateScheduledAt(value: DateTime, now: DateTime): (r: Result<DateTime, string>)
    ensures r.Ok? <==> DateTimeBefore(now, value)
    ensures r.Ok? ==> r.value == value
    ensures r.Err? ==> r.error == InterviewTimeError
  {
    if !DateTimeBefore(now, value) then Err(InterviewTimeError) else Ok(value)
  }

  /** Now itself and any earlier time are rejected. */
  lemma PastInterviewRejected(value: DateTime, now: DateTime)
    requires value == now || DateTimeBefore(value, now)
    ensures ValidateScheduledAt(value, now).Err?
  {
    DateTimeOrderTotal(value, now);
  }

  // ---------------------------------------------------------------------------
  // `SavedJobSerializer.create`.
  // ---------------------------------------------------------------------------

  /** One `SavedJob` row. */
  datatype SavedJob = SavedJob(student: int, job: int, notes: string)

  /** The saved-jobs table. */
  class SavedJobStore {
    var saved: seq<SavedJob>

    /** `unique_together = ['student', 'job']`. */
    predicate Valid()
      reads this
    {
      forall i, j :: 0 <= i < j < |saved| ==> saved[i].student != saved[j].student || saved[i].job != saved[j].job
    }

    constructor ()
      ensures Valid() && saved == []
    {
      saved := [];
    }

    /** `create`: saving a job the student has saved already is rejected; otherwise one row is added. */
    method Save(student: int, job: int, notes: string) returns (r: Result<(), string>)
      requires Valid()
      modifies this
      ensures Valid()
      ensures r.Err? <==> exists i :: 0 <= i < |old(saved)| && old(saved)[i].student == student && old(saved)[i].job == job
      ensures r.Err? ==> r.error == AlreadySavedError && saved == old(saved)
      ensures r.Ok? ==> saved == old(saved) + [SavedJob(student, job, notes)]
    {
      if exists i :: 0 <= i < |saved| && saved[i].student == student && saved[i].job == job {
        return Err(AlreadySavedError);
      }
      saved := saved + [SavedJob(student, job, notes)];
      r := Ok(());
    }
  }
}
