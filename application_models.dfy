// Job applications: their status values, the status history that records
// every change, interview scores, and the table of applications as a store
// keyed by id.
module ApplicationModels {
  import opened Common
  import opened Dates
  import opened Numbers

  // ---------------------------------------------------------------------------
  // Statuses.  The column is text; these are its choices.
  // ---------------------------------------------------------------------------

  const Pending: string := "pending"
  const Reviewing: string := "reviewing"
  const InterviewScheduled: string := "interview_scheduled"
  const InterviewCompleted: string := "interview_completed"
  const OfferMade: string := "offer_made"
  const Accepted: string := "accepted"
  const Rejected: string := "rejected"
  const Withdrawn: string := "withdrawn"

  /** `Application.STATUS_CHOICES`, in order: four stages of processing, then four outcomes. */
  const StatusChoices: seq<string> :=
    [Pending, Reviewing, InterviewScheduled, InterviewCompleted, OfferMade, Accepted, Rejected, Withdrawn]

  /** `is_active`: the application is still being processed. */
  predicate IsActive(status: string) {
    status == Pending || status == Reviewing || status == InterviewScheduled || status == InterviewCompleted
  }

  /** The active statuses are exactly the four processing stages; no outcome is active. */
  lemma ActiveMeansProcessing(status: string)
    ensures IsActive(status) <==> status in StatusChoices[..4]
    ensures status in StatusChoices[4..] ==> !IsActive(status)
  {
    assert StatusChoices[..4] == [Pending, Reviewing, InterviewScheduled, InterviewCompleted];
    assert StatusChoices[4..] == [OfferMade, Accepted, Rejected, Withdrawn];
    assert Reviewing[0] != Withdrawn[0];
  }

  // ---------------------------------------------------------------------------
  // Applications and their status history.
  // ---------------------------------------------------------------------------

  /**
   * One `ApplicationStatusHistory` row: the application, the status before
   * and after, who changed it and the notes given.
   */
  datatype HistoryRecord = HistoryRecord(application: int, oldStatus: string, newStatus: string,
                                         changedBy: Option<int>, notes: Option<string>)

  /**
   * The fields of an application the model follows; `employer` is the
   * employer profile owning the job applied to, `matchScore` the stored
   * match score.
   */
  datatype Application = Application(
    id: int, student: int, job: int, employer: int, coverLetter: string,
    status: string, statusUpdatedBy: Option<int>, employerNotes: string,
    matchScore: Option<real>, appliedAt: DateTime)

  /** The status an application has after the rows of `h` about it, starting from "pending". */
  function Replay(h: seq<HistoryRecord>, id: int): string
    decreases |h|
  {
    if |h| == 0 then Pending
    else if h[|h| - 1].application == id then h[|h| - 1].newStatus
    else Replay(h[..|h| - 1], id)
  }

  /** Every row records a change from the status its application had at that point. */
  predicate Chained(h: seq<HistoryRecord>) {
    forall i :: 0 <= i < |h| ==> h[i].oldStatus == Replay(h[..i], h[i].application)
  }

  /** Appending a row that starts from the current status keeps the history chained and moves only that application. */
  lemma AppendRecord(h: seq<HistoryRecord>, r: HistoryRecord)
    requires Chained(h) && r.oldStatus == Replay(h, r.application)
    ensures Chained(h + [r])
    ensures forall id :: Replay(h + [r], id) == if id == r.application then r.newStatus else Replay(h, id)
  {
    var h' := h + [r];
    assert h'[..|h|] == h;
    forall i | 0 <= i < |h'|
      ensures h'[i].oldStatus == Replay(h'[..i], h'[i].application)
    {
      if i < |h| {
        assert h'[..i] == h[..i];
      }
    }
  }

  /** Rows are filed under their own id, and every id is below `nextId`. */
  predicate Keyed(apps: map<int, Application>, nextId: int) {
    forall id :: id in apps ==> apps[id].id == id && id < nextId
  }

  /** `unique_together = ['student', 'job']`. */
  predicate UniquePairs(apps: map<int, Application>) {
    forall a, b :: a in apps && b in apps && a != b ==>
      apps[a].student != apps[b].student || apps[a].job != apps[b].job
  }

  /** Every history row is about a stored application, and replaying the rows gives each one's status. */
  predicate Tracked(apps: map<int, Application>, history: seq<HistoryRecord>) {
    && Chained(history)
    && (forall i :: 0 <= i < |history| ==> history[i].application in apps)
    && (forall id :: id in apps ==> Replay(history, id) == apps[id].status)
  }

  predicate TablesValid(apps: map<int, Application>, history: seq<HistoryRecord>, nextId: int) {
    Keyed(apps, nextId) && UniquePairs(apps) && Tracked(apps, history)
  }

  /**
   * Giving a stored application a new status, with the history row from
   * its old status, keeps the tables valid when its id, student and job
   * stay as they were.
   */
  lemma StatusChangeValid(apps: map<int, Application>, history: seq<HistoryRecord>, nextId: int,
                          id: int, a: Application, changedBy: Option<int>, notes: Option<string>)
    requires TablesValid(apps, history, nextId) && id in apps
    requires a.id == id && a.student == apps[id].student && a.job == apps[id].job
    ensures TablesValid(apps[id := a], history + [HistoryRecord(id, apps[id].status, a.status, changedBy, notes)], nextId)
  {
    var r := HistoryRecord(id, apps[id].status, a.status, changedBy, notes);
    AppendRecord(history, r);
    var apps' := apps[id := a];
    assert UniquePairs(apps') by {
      forall x, y | x in apps' && y in apps' && x != y
        ensures apps'[x].student != apps'[y].student || apps'[x].job != apps'[y].job
      {
        assert apps'[x].student == apps[x].student && apps'[x].job == apps[x].job;
        assert apps'[y].student == apps[y].student && apps'[y].job == apps[y].job;
      }
    }
  }

  /** Changing other fields of a stored application than its id, student, job and status keeps the tables valid. */
  lemma SameStatusValid(apps: map<int, Application>, history: seq<HistoryRecord>, nextId: int, id: int, a: Application)
    requires TablesValid(apps, history, nextId) && id in apps
    requires a.id == id && a.student == apps[id].student && a.job == apps[id].job && a.status == apps[id].status
    ensures TablesValid(apps[id := a], history, nextId)
  {
    var apps' := apps[id := a];
    assert UniquePairs(apps') by {
      forall x, y | x in apps' && y in apps' && x != y
        ensures apps'[x].student != apps'[y].student || apps'[x].job != apps'[y].job
      {
        assert apps'[x].student == apps[x].student && apps'[x].job == apps[x].job;
        assert apps'[y].student == apps[y].student && apps'[y].job == apps[y].job;
      }
    }
  }

  /** The applications table, keyed by id, with the status history table beside it. */
  class ApplicationStore {
    var applications: map<int, Application>
    var history: seq<HistoryRecord>
    var nextId: int

    predicate Valid()
      reads this
    {
      TablesValid(applications, history, nextId)
    }

    /** An empty table. */
    constructor ()
      ensures Valid() && applications == map[] && history == []
    {
      applications := map[];
      history := [];
      nextId := 1;
    }

    /**
     * `update_status`: sets the status and who set it, overwrites the
     * employer notes only when the notes are non-empty, and appends one
     * history row from the old status to the new one, even when they are
     * the same.
     */
    method UpdateStatus(id: int, newStatus: string, updatedBy: Option<int>, notes: Option<string>)
      requires Valid() && id in applications
      modifies this
      ensures Valid()
      ensures applications == old(applications)[id := old(applications)[id].(
                status := newStatus, statusUpdatedBy := updatedBy,
                employerNotes := if TruthyText(notes) then notes.value else old(applications)[id].employerNotes)]
      ensures history == old(history) + [HistoryRecord(id, old(applications)[id].status, newStatus, updatedBy, notes)]
      ensures nextId == old(nextId)
    {
      var a := applications[id];
      var a' := a.(status := newStatus, statusUpdatedBy := updatedBy);
      if TruthyText(notes) {
        a' := a'.(employerNotes := notes.value);
      }
      StatusChangeValid(applications, history, nextId, id, a', updatedBy, notes);
      applications := applications[id := a'];
      history := history + [HistoryRecord(id, a.status, newStatus, updatedBy, notes)];
    }
  }

  // ---------------------------------------------------------------------------
  // Means of optional scores.
  // ---------------------------------------------------------------------------

  /** The values that are present, in order. */
  function Given(xs: seq<Option<real>>): (r: seq<real>)
    ensures |r| <= |xs|
    decreases |xs|
  {
    if |xs| == 0 then []
    else Given(xs[..|xs| - 1]) + (if xs[|xs| - 1].Some? then [xs[|xs| - 1].value] else [])
  }

  function Sum(xs: seq<real>): real
    decreases |xs|
  {
    if |xs| == 0 then 0.0 else Sum(xs[..|xs| - 1]) + xs[|xs| - 1]
  }

  /** `sum(scores) / len(scores) if scores else None` over the present scores. */
  function MeanOfGiven(xs: seq<Option<real>>): (r: Option<real>)
    ensures r.None? <==> forall i :: 0 <= i < |xs| ==> xs[i].None?
    ensures r.Some? ==> r.value * |Given(xs)| as real == Sum(Given(xs))
  {
    NoneGiven(xs);
    var g := Given(xs);
    if |g| == 0 then None else Some(Sum(g) / |g| as real)
  }

  /** Nothing is present exactly when every entry is absent. */
  lemma {:induction false} NoneGiven(xs: seq<Option<real>>)
    ensures |Given(xs)| == 0 <==> forall i :: 0 <= i < |xs| ==> xs[i].None?
    decreases |xs|
  {
    if |xs| > 0 {
      NoneGiven(xs[..|xs| - 1]);
      assert forall i :: 0 <= i < |xs| - 1 ==> xs[..|xs| - 1][i] == xs[i];
    }
  }

  /** Every present value lies within [lo, hi]. */
  predicate AllWithin(xs: seq<Option<real>>, lo: real, hi: real) {
    forall i :: 0 <= i < |xs| ==> xs[i].None? || lo <= xs[i].value <= hi
  }

  /** The present values of entries within [lo, hi] are within [lo, hi]. */
  lemma {:induction false} GivenWithin(xs: seq<Option<real>>, lo: real, hi: real)
    requires AllWithin(xs, lo, hi)
    ensures forall i :: 0 <= i < |Given(xs)| ==> lo <= Given(xs)[i] <= hi
    decreases |xs|
  {
    if |xs| > 0 {
      var init := xs[..|xs| - 1];
      assert AllWithin(init, lo, hi) by {
        assert forall i :: 0 <= i < |init| ==> init[i] == xs[i];
      }
      GivenWithin(init, lo, hi);
    }
  }

  /** n copies of x add up to n·x. */
  lemma {:induction false} Repeated(n: nat, x: real, s: real)
    requires s == n as real * x
    ensures s + x == (n + 1) as real * x
  {
  }

  /** A sum of n values within [lo, hi] lies within [n·lo, n·hi]. */
  lemma {:induction false} SumWithin(g: seq<real>, lo: real, hi: real)
    requires forall i :: 0 <= i < |g| ==> lo <= g[i] <= hi
    ensures |g| as real * lo <= Sum(g) <= |g| as real * hi
    decreases |g|
  {
    if |g| > 0 {
      var n := |g| - 1;
      SumWithin(g[..n], lo, hi);
      Repeated(n, lo, n as real * lo);
      Repeated(n, hi, n as real * hi);
    }
  }

  /** The mean of present values within [lo, hi] is within [lo, hi]. */
  lemma MeanWithin(xs: seq<Option<real>>, lo: real, hi: real)
    ensures AllWithin(xs, lo, hi) && MeanOfGiven(xs).Some? ==> lo <= MeanOfGiven(xs).value <= hi
  {
    var g := Given(xs);
    if AllWithin(xs, lo, hi) && |g| > 0 {
      GivenWithin(xs, lo, hi);
      SumWithin(g, lo, hi);
      var n := |g| as real;
      QuotientCompare(Sum(g), n, hi);
      assert lo * n <= Sum(g);
      if Sum(g) / n < lo {
        QuotientCompare(Sum(g), n, lo);
      }
    }
  }

  // ---------------------------------------------------------------------------
  // Interviews.
  // ---------------------------------------------------------------------------

  /** The three optional scores of an interview; the field validators keep each within [1, 10]. */
  datatype Interview = Interview(technicalScore: Option<int>, communicationScore: Option<int>, culturalFitScore: Option<int>)

  function AsReal(x: Option<int>): Option<real> {
    if x.Some? then Some(x.value as real) else None
  }

  predicate ScoreValid(x: Option<int>) { x.None? || 1 <= x.value <= 10 }

  /** `average_score`: the mean of the scores given, or None when there is none. */
  function AverageScore(iv: Interview): (r: Option<real>)
    ensures r.None? <==> iv.technicalScore.None? && iv.communicationScore.None? && iv.culturalFitScore.None?
    ensures (ScoreValid(iv.technicalScore) && ScoreValid(iv.communicationScore) && ScoreValid(iv.culturalFitScore)
             && r.Some?) ==> 1.0 <= r.value <= 10.0
  {
    var xs := [AsReal(iv.technicalScore), AsReal(iv.communicationScore), AsReal(iv.culturalFitScore)];
    assert xs[0] == AsReal(iv.technicalScore) && xs[1] == AsReal(iv.communicationScore) && xs[2] == AsReal(iv.culturalFitScore);
    MeanWithin(xs, 1.0, 10.0);
    MeanOfGiven(xs)
  }

  /** With a single score given, the average is that score. */
  lemma AverageOfOne(s: int)
    ensures AverageScore(Interview(Some(s), None, None)) == Some(s as real)
  {
    var xs := [AsReal(Some(s)), AsReal(None), AsReal(None)];
    assert Given(xs[..1]) == [s as real];
    assert xs[..2][..1] == xs[..1];
    assert xs[..3][..2] == xs[..2];
    assert xs[..3] == xs;
    assert Given(xs) == [s as real];
    assert Sum([s as real]) == s as real;
  }
}
