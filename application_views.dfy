// The application views: the whitelist of list orderings, the statistics
// endpoint and the bulk status update.
module ApplicationViews {
  import opened Common
  import opened Dates
  import opened Numbers
  import opened Counters
  import opened Sequences
  import opened UserModels
  import opened ApplicationModels

  /** How a view refuses a request: 403, 404 or 400 with a message. */
  datatype Failure = Forbidden(message: string) | NotFound(message: string) | BadRequest(message: string)

  // ---------------------------------------------------------------------------
  // List ordering.
  // ---------------------------------------------------------------------------

  const DefaultOrdering: string := "-applied_at"
  const Orderings: seq<string> := ["applied_at", "-applied_at", "ai_match_score", "-ai_match_score"]

  /** The `ordering` parameter is used only when it is one of the four allowed; otherwise newest first. */
  function Ordering(param: Option<string>): (r: string)
    ensures r in Orderings
    ensures param.Some? && param.value in Orderings ==> r == param.value
    ensures param.None? || param.value !in Orderings ==> r == DefaultOrdering
  {
    var ordering := if param.Some? then param.value else DefaultOrdering;
    if ordering in Orderings then ordering else DefaultOrdering
  }

  /** Passing the ordering used back in gives the same ordering. */
  lemma OrderingStable(param: Option<string>)
    ensures Ordering(Some(Ordering(param))) == Ordering(param)
  {
  }

  // ---------------------------------------------------------------------------
  // `application_statistics`.
  // ---------------------------------------------------------------------------

  const StudentMissing: string := "学生档案不存在"
  const EmployerMissing: string := "雇主档案不存在"
  const NotAllowed: string := "权限不足"

  /** The status bucket the code fills as `reviewed_applications`. */
  const ReviewedKey: string := "reviewed"

  datatype Stats = Stats(total: nat, pending: nat, reviewed: nat, accepted: nat, rejected: nat,
                         averageMatchScore: real, thisMonth: nat, successRate: real)

  function StatusOf(a: Application): string { a.status }

  /**
   * The applications a user sees: a student its own, an employer those to
   * its jobs; a missing profile is a 404 and any other account type a 403.
   */
  function Visible(userType: UserType, profile: Option<int>, all: seq<Application>): (r: Result<seq<Application>, Failure>)
    ensures r.Ok? ==> userType != AdminUser && profile.Some?
    ensures r.Ok? && userType == StudentUser ==> forall a :: a in r.value <==> a in all && a.student == profile.value
    ensures r.Ok? && userType == EmployerUser ==> forall a :: a in r.value <==> a in all && a.employer == profile.value
    ensures userType == AdminUser ==> r == Err(Forbidden(NotAllowed))
    ensures userType != AdminUser && profile.None? ==> r.Err? && r.error.NotFound?
  {
    match userType
    case StudentUser =>
      if profile.None? then Err(NotFound(StudentMissing))
      else Ok(Filter(all, (a: Application) => a.student == profile.value))
    case EmployerUser =>
      if profile.None? then Err(NotFound(EmployerMissing))
      else Ok(Filter(all, (a: Application) => a.employer == profile.value))
    case AdminUser => Err(Forbidden(NotAllowed))
  }

  /** The stored match scores, for `Avg`. */
  function MatchScores(apps: seq<Application>): (r: seq<Option<real>>)
    ensures |r| == |apps| && forall i :: 0 <= i < |apps| ==> r[i] == apps[i].matchScore
  {
    seq(|apps|, i requires 0 <= i < |apps| => apps[i].matchScore)
  }

  /** `float(avg or 0)`: the mean of the stored scores, 0 when none is stored. */
  function AverageMatchScore(apps: seq<Application>): real {
    var m := MeanOfGiven(MatchScores(apps));
    if m.Some? then m.value else 0.0
  }

  /** `accepted / total * 100` when there is any application, else 0. */
  function SuccessRate(accepted: nat, total: nat): (r: real)
    ensures total == 0 ==> r == 0.0
    ensures accepted <= total ==> 0.0 <= r <= 100.0
    ensures total > 0 && accepted == total ==> r == 100.0
  {
    if total > 0 then
      var q := accepted as real / total as real;
      QuotientCompare(accepted as real, total as real, 1.0);
      q * 100.0
    else 0.0
  }

  /** Applications made since midnight on the first day of the current month. */
  function ThisMonth(apps: seq<Application>, now: DateTime): seq<Application> {
    Filter(apps, (a: Application) => !DateTimeBefore(a.appliedAt, MonthStart(now)))
  }

  /**
   * The figures for the visible applications, with the second bucket read
   * from the status `reviewedKey`; every other bucket is the number of
   * applications in its status.
   */
  function StatsOf(apps: seq<Application>, now: DateTime, reviewedKey: string): Stats {
    var accepted := Occurrences(apps, StatusOf, Accepted);
    Stats(|apps|, Occurrences(apps, StatusOf, Pending), Occurrences(apps, StatusOf, reviewedKey), accepted,
          Occurrences(apps, StatusOf, Rejected), AverageMatchScore(apps), |ThisMonth(apps, now)|,
          SuccessRate(accepted, |apps|))
  }

  /** What the endpoint answers, as written: the second bucket reads the status "reviewed". */
  function Statistics(userType: UserType, profile: Option<int>, all: seq<Application>, now: DateTime): Result<Stats, Failure> {
    var visible := Visible(userType, profile, all);
    if visible.Err? then Err(visible.error) else Ok(StatsOf(visible.value, now, ReviewedKey))
  }

  /**
   * The status counts grouped by status, then one pass over the groups
   * filling the four buckets: each bucket ends as its status's count.
   */
  method StatusBuckets(apps: seq<Application>) returns (pending: nat, reviewed: nat, accepted: nat, rejected: nat)
    ensures pending == Occurrences(apps, StatusOf, Pending)
    ensures reviewed == Occurrences(apps, StatusOf, ReviewedKey)
    ensures accepted == Occurrences(apps, StatusOf, Accepted)
    ensures rejected == Occurrences(apps, StatusOf, Rejected)
  {
    var counts := CountBy(apps, StatusOf);
    var groups := KeyOrder(apps, StatusOf);
    pending, reviewed, accepted, rejected := 0, 0, 0, 0;
    for i := 0 to |groups|
      invariant pending == if Pending in groups[..i] then Get(counts, Pending) else 0
      invariant reviewed == if ReviewedKey in groups[..i] then Get(counts, ReviewedKey) else 0
      invariant accepted == if Accepted in groups[..i] then Get(counts, Accepted) else 0
      invariant rejected == if Rejected in groups[..i] then Get(counts, Rejected) else 0
    {
      assert groups[..i + 1] == groups[..i] + [groups[i]];
      var status := groups[i];
      if status == Pending {
        pending := Get(counts, status);
      } else if status == ReviewedKey {
        reviewed := Get(counts, status);
      } else if status == Accepted {
        accepted := Get(counts, status);
      } else if status == Rejected {
        rejected := Get(counts, status);
      }
    }
    assert groups[..|groups|] == groups;
    GroupedCount(apps, StatusOf, Pending);
    GroupedCount(apps, StatusOf, ReviewedKey);
    GroupedCount(apps, StatusOf, Accepted);
    GroupedCount(apps, StatusOf, Rejected);
  }

  /**
   * The endpoint: the visible applications, their four status buckets, then
   * the aggregates.
   */
  method ApplicationStatistics(userType: UserType, profile: Option<int>, all: seq<Application>, now: DateTime)
    returns (r: Result<Stats, Failure>)
    ensures r == Statistics(userType, profile, all, now)
  {
    var visible := Visible(userType, profile, all);
    if visible.Err? {
      return Err(visible.error);
    }
    var apps := visible.value;
    var pending, reviewed, accepted, rejected := StatusBuckets(apps);
    r := Ok(Stats(|apps|, pending, reviewed, accepted, rejected, AverageMatchScore(apps), |ThisMonth(apps, now)|,
                  SuccessRate(accepted, |apps|)));
  }

  /** Items counted under four different keys are at most all the items. */
  lemma {:induction false} FourKeysWithinTotal<T>(s: seq<T>, f: T -> string, a: string, b: string, c: string, d: string)
    requires a != b && a != c && a != d && b != c && b != d && c != d
    ensures Occurrences(s, f, a) + Occurrences(s, f, b) + Occurrences(s, f, c) + Occurrences(s, f, d) <= |s|
    decreases |s|
  {
    if |s| > 0 {
      FourKeysWithinTotal(s[..|s| - 1], f, a, b, c, d);
    }
  }

  /** The four buckets together never exceed the total, and the success rate is a percentage. */
  lemma StatsBounds(apps: seq<Application>, now: DateTime, reviewedKey: string)
    requires reviewedKey != Pending && reviewedKey != Accepted && reviewedKey != Rejected
    ensures var st := StatsOf(apps, now, reviewedKey);
            st.pending + st.reviewed + st.accepted + st.rejected <= st.total
            && 0.0 <= st.successRate <= 100.0
            && st.thisMonth <= st.total
  {
    FourKeysWithinTotal(apps, StatusOf, Pending, reviewedKey, Accepted, Rejected);
  }

  /** No application has a status that no application has ever been given. */
  lemma {:induction false} NoneWithStatus(apps: seq<Application>, key: string)
    requires forall i :: 0 <= i < |apps| ==> apps[i].status != key
    ensures Occurrences(apps, StatusOf, key) == 0
    decreases |apps|
  {
    if |apps| > 0 {
      NoneWithStatus(apps[..|apps| - 1], key);
    }
  }

  /**
   * As written, the second bucket is always 0 for applications whose
   * statuses are among the choices: an application under review is not
   * counted.
   */
  lemma ReviewedBucketEmpty(apps: seq<Application>, now: DateTime)
    requires forall i :: 0 <= i < |apps| ==> apps[i].status in StatusChoices
    ensures StatsOf(apps, now, ReviewedKey).reviewed == 0
  {
    NoneWithStatus(apps, ReviewedKey);
  }

  /** One application under review: the written bucket shows 0 of it. */
  lemma ReviewingNotCounted(a: Application, now: DateTime)
    requires a.status == Reviewing
    ensures StatsOf([a], now, ReviewedKey).reviewed == 0
    ensures StatsOf([a], now, Reviewing).reviewed == 1
  {
    assert [a][..0] == [];
    assert StatusOf(a) != ReviewedKey by {
      assert |Reviewing| != |ReviewedKey|;
    }
    assert Occurrences([a], StatusOf, ReviewedKey) == 0;
    assert Occurrences([a], StatusOf, Reviewing) == 1;
  }

  /** The intended figures: the second bucket counts the applications in status "reviewing". */
  function IntendedStats(apps: seq<Application>, now: DateTime): (r: Stats)
    ensures r.reviewed == Occurrences(apps, StatusOf, Reviewing)
    ensures r.pending + r.reviewed + r.accepted + r.rejected <= r.total
    ensures 0.0 <= r.successRate <= 100.0
  {
    StatsBounds(apps, now, Reviewing);
    StatsOf(apps, now, Reviewing)
  }

  // ---------------------------------------------------------------------------
  // `bulk_update_applications`.
  // ---------------------------------------------------------------------------

  const BulkEmployersOnly: string := "只有雇主可以批量更新申请状态"
  const BulkMissingInput: string := "请提供申请ID列表和新状态"
  const BulkNotOwned: string := "部分申请不存在或无权限操作"

  /** The applications the query selects: those listed, stored, and owned by the employer. */
  function Selected(apps: map<int, Application>, ids: seq<int>, employer: int): set<int> {
    set id | id in apps && id in ids && apps[id].employer == employer
  }

  /** Every listed id is a stored application of the employer. */
  predicate AllOwned(apps: map<int, Application>, ids: seq<int>, employer: int) {
    forall k :: 0 <= k < |ids| ==> ids[k] in apps && apps[ids[k]].employer == employer
  }

  /** The distinct values of a list are at most as many as its entries, and as many exactly when none repeats. */
  lemma {:induction false} DistinctValues(ids: seq<int>)
    ensures |set id | id in ids| <= |ids|
    ensures |set id | id in ids| == |ids| <==> Distinct(ids)
    decreases |ids|
  {
    if |ids| > 0 {
      var init := ids[..|ids| - 1];
      var last := ids[|ids| - 1];
      assert ids == init + [last];
      DistinctValues(init);
      ValuesSnoc(init, last);
      DistinctSnoc(init, last);
      if last in init {
        assert (set id | id in init) + {last} == (set id | id in init);
      } else {
        assert |(set id | id in init) + {last}| == |set id | id in init| + 1;
      }
    }
  }

  lemma ValuesSnoc(init: seq<int>, last: int)
    ensures (set id | id in init + [last]) == (set id | id in init) + {last}
  {
  }

  /** Appending keeps a list repetition-free exactly when the new value is not in it yet. */
  lemma DistinctSnoc(init: seq<int>, last: int)
    ensures Distinct(init + [last]) <==> Distinct(init) && last !in init
  {
    var ids := init + [last];
    if Distinct(init) && last !in init {
      forall i, j | 0 <= i < j < |ids| ensures ids[i] != ids[j] {
        if j < |ids| - 1 { assert ids[i] == init[i] && ids[j] == init[j]; }
        else { assert ids[i] in init; }
      }
    }
    if last in init {
      var k :| 0 <= k < |init| && init[k] == last;
      assert ids[k] == ids[|ids| - 1];
    } else if Distinct(ids) {
      forall i, j | 0 <= i < j < |init| ensures init[i] != init[j] {
        assert init[i] == ids[i] && init[j] == ids[j];
      }
    }
  }

  /** A subset is no larger than its superset, and equally large only when it is the whole of it. */
  lemma SubsetSize(a: set<int>, b: set<int>)
    requires a <= b
    ensures |a| <= |b|
    ensures |a| == |b| ==> a == b
  {
    assert b == a + (b - a);
    assert a * (b - a) == {};
    if |a| == |b| {
      assert |b - a| == 0;
    }
  }

  /**
   * The query's count equals the number of ids exactly when the ids do not
   * repeat and each names a stored application of the employer: a repeated
   * or foreign id makes the request fail.
   */
  lemma SelectionComplete(apps: map<int, Application>, ids: seq<int>, employer: int)
    ensures |Selected(apps, ids, employer)| == |ids| <==> Distinct(ids) && AllOwned(apps, ids, employer)
  {
    var all := set id | id in ids;
    var sel := Selected(apps, ids, employer);
    DistinctValues(ids);
    assert sel <= all;
    SubsetSize(sel, all);
    if AllOwned(apps, ids, employer) {
      forall id | id in all ensures id in sel {
        var k :| 0 <= k < |ids| && ids[k] == id;
      }
      assert sel == all;
    }
    if |sel| == |ids| {
      assert sel == all;
      forall k | 0 <= k < |ids| ensures ids[k] in apps && apps[ids[k]].employer == employer {
        assert ids[k] in all;
      }
    }
  }

  /** Why a bulk update is refused, in the order the view checks, if it is. */
  function BulkRefusal(userType: UserType, profile: Option<int>, apps: map<int, Application>,
                       ids: seq<int>, status: Option<string>): Option<Failure>
  {
    if userType != EmployerUser then Some(Forbidden(BulkEmployersOnly))
    else if profile.None? then Some(NotFound(EmployerMissing))
    else if |ids| == 0 || !TruthyText(status) then Some(BadRequest(BulkMissingInput))
    else if |Selected(apps, ids, profile.value)| != |ids| then Some(BadRequest(BulkNotOwned))
    else None
  }

  /** The history rows a bulk update writes: one per id, from the status it had to the new one. */
  function BulkRecords(apps: map<int, Application>, ids: seq<int>, status: string, changedBy: int, notes: string): (r: seq<HistoryRecord>)
    requires forall k :: 0 <= k < |ids| ==> ids[k] in apps
    ensures |r| == |ids|
    ensures forall k :: 0 <= k < |ids| ==> r[k] == HistoryRecord(ids[k], apps[ids[k]].status, status, Some(changedBy), Some(notes))
    decreases |ids|
  {
    if |ids| == 0 then []
    else BulkRecords(apps, ids[..|ids| - 1], status, changedBy, notes)
         + [HistoryRecord(ids[|ids| - 1], apps[ids[|ids| - 1]].status, status, Some(changedBy), Some(notes))]
  }

  /** The rows for one more id are the rows so far and that id's row. */
  lemma BulkRecordsSnoc(apps: map<int, Application>, ids: seq<int>, i: nat, status: string, changedBy: int, notes: string)
    requires i < |ids| && forall k :: 0 <= k < |ids| ==> ids[k] in apps
    ensures BulkRecords(apps, ids[..i + 1], status, changedBy, notes)
            == BulkRecords(apps, ids[..i], status, changedBy, notes)
               + [HistoryRecord(ids[i], apps[ids[i]].status, status, Some(changedBy), Some(notes))]
  {
    assert ids[..i + 1][..i] == ids[..i];
  }

  /** One application of the loop: new status and one history row, nothing else. */
  method Reassign(store: ApplicationStore, id: int, status: string, changedBy: int, notes: string)
    requires store.Valid() && id in store.applications
    modifies store
    ensures store.Valid()
    ensures store.applications == old(store.applications)[id := old(store.applications)[id].(status := status)]
    ensures store.history == old(store.history) + [HistoryRecord(id, old(store.applications)[id].status, status, Some(changedBy), Some(notes))]
    ensures store.nextId == old(store.nextId)
  {
    var a := store.applications[id];
    StatusChangeValid(store.applications, store.history, store.nextId, id, a.(status := status), Some(changedBy), Some(notes));
    store.applications := store.applications[id := a.(status := status)];
    store.history := store.history + [HistoryRecord(id, a.status, status, Some(changedBy), Some(notes))];
  }

  /** The table after giving each listed application, in turn, the new status. */
  function Reassigning(apps: map<int, Application>, ids: seq<int>, status: string): (r: map<int, Application>)
    requires forall k :: 0 <= k < |ids| ==> ids[k] in apps
    ensures r.Keys == apps.Keys
    decreases |ids|
  {
    if |ids| == 0 then apps
    else
      var r' := Reassigning(apps, ids[..|ids| - 1], status);
      var id := ids[|ids| - 1];
      r'[id := r'[id].(status := status)]
  }

  /** An application not listed is left as it was. */
  lemma {:induction false} ReassigningSkips(apps: map<int, Application>, ids: seq<int>, status: string, id: int)
    requires forall k :: 0 <= k < |ids| ==> ids[k] in apps
    requires id in apps && id !in ids
    ensures Reassigning(apps, ids, status)[id] == apps[id]
    decreases |ids|
  {
    if |ids| > 0 {
      ReassigningSkips(apps, ids[..|ids| - 1], status, id);
    }
  }

  /** Every listed application has the new status and its other fields unchanged; the rest are as they were. */
  lemma {:induction false} ReassigningEffect(apps: map<int, Application>, ids: seq<int>, status: string)
    requires forall k :: 0 <= k < |ids| ==> ids[k] in apps
    ensures forall id :: id in apps ==>
              Reassigning(apps, ids, status)[id] == if id in ids then apps[id].(status := status) else apps[id]
    decreases |ids|
  {
    if |ids| > 0 {
      var init := ids[..|ids| - 1];
      ReassigningEffect(apps, init, status);
      assert ids == init + [ids[|ids| - 1]];
      forall id | id in apps
        ensures Reassigning(apps, ids, status)[id] == if id in ids then apps[id].(status := status) else apps[id]
      {
        if id == ids[|ids| - 1] {
          if id in init {
            assert Reassigning(apps, init, status)[id] == apps[id].(status := status);
          }
        } else {
          assert id in ids <==> id in init;
        }
      }
    }
  }

  lemma HistoryGrows(history: seq<HistoryRecord>, done: seq<HistoryRecord>, record: HistoryRecord)
    ensures (history + done) + [record] == history + (done + [record])
  {
    var left := (history + done) + [record];
    var right := history + (done + [record]);
    assert |left| == |right|;
    forall k | 0 <= k < |left| ensures left[k] == right[k] {
      if k < |history| {
      } else if k < |history| + |done| {
      } else {
      }
    }
  }

  /**
   * `bulk_update_applications`: refused as `BulkRefusal` says, changing
   * nothing; otherwise every listed application gets the new status and one
   * history row, and the count updated is the number of ids.
   */
  method BulkUpdate(store: ApplicationStore, userType: UserType, profile: Option<int>, user: int,
                    ids: seq<int>, status: Option<string>, notes: string)
    returns (r: Result<nat, Failure>)
    requires store.Valid()
    modifies store
    ensures store.Valid()
    ensures r.Err? <==> BulkRefusal(userType, profile, old(store.applications), ids, status).Some?
    ensures r.Err? ==> r.error == BulkRefusal(userType, profile, old(store.applications), ids, status).value
                       && store.applications == old(store.applications) && store.history == old(store.history)
    ensures r.Ok? ==> r.value == |ids| && Distinct(ids) && AllOwned(old(store.applications), ids, profile.value)
    ensures r.Ok? ==> store.applications == Reassigning(old(store.applications), ids, status.value)
    ensures r.Ok? ==> store.history == old(store.history) + BulkRecords(old(store.applications), ids, status.value, user, notes)
  {
    var refusal := BulkRefusal(userType, profile, store.applications, ids, status);
    if refusal.Some? {
      return Err(refusal.value);
    }
    SelectionComplete(store.applications, ids, profile.value);
    var updated := ReassignAll(store, ids, status.value, user, notes);
    r := Ok(updated);
  }

  /** The loop over the selected applications, one `Reassign` each. */
  method ReassignAll(store: ApplicationStore, ids: seq<int>, newStatus: string, user: int, notes: string)
    returns (updated: nat)
    requires store.Valid() && Distinct(ids) && forall k :: 0 <= k < |ids| ==> ids[k] in store.applications
    modifies store
    ensures store.Valid()
    ensures updated == |ids|
    ensures store.applications == Reassigning(old(store.applications), ids, newStatus)
    ensures store.history == old(store.history) + BulkRecords(old(store.applications), ids, newStatus, user, notes)
  {
    ghost var before := store.applications;
    ghost var history := store.history;
    updated := 0;
    for i := 0 to |ids|
      invariant store.Valid()
      invariant updated == i
      invariant store.applications == Reassigning(before, ids[..i], newStatus)
      invariant store.history == history + BulkRecords(before, ids[..i], newStatus, user, notes)
    {
      ReassignNext(store, before, history, ids, i, newStatus, user, notes);
      updated := updated + 1;
    }
    assert ids[..|ids|] == ids;
  }

  /** What the `i`-th step of the loop does to the table and to the history, in terms of the table before it. */
  lemma NextStep(before: map<int, Application>, history: seq<HistoryRecord>, ids: seq<int>, i: nat,
                 newStatus: string, user: int, notes: string)
    requires i < |ids| && Distinct(ids) && forall k :: 0 <= k < |ids| ==> ids[k] in before
    ensures var apps := Reassigning(before, ids[..i], newStatus);
      && ids[i] in apps && apps[ids[i]] == before[ids[i]]
      && Reassigning(before, ids[..i + 1], newStatus) == apps[ids[i] := apps[ids[i]].(status := newStatus)]
      && history + BulkRecords(before, ids[..i + 1], newStatus, user, notes)
         == (history + BulkRecords(before, ids[..i], newStatus, user, notes))
            + [HistoryRecord(ids[i], apps[ids[i]].status, newStatus, Some(user), Some(notes))]
  {
    var id := ids[i];
    assert ids[..i + 1][..i] == ids[..i];
    assert ids[..i + 1][i] == id;
    assert id !in ids[..i];
    ReassigningSkips(before, ids[..i], newStatus, id);
    BulkRecordsSnoc(before, ids, i, newStatus, user, notes);
    HistoryGrows(history, BulkRecords(before, ids[..i], newStatus, user, notes),
                 HistoryRecord(id, before[id].status, newStatus, Some(user), Some(notes)));
  }

  /** The body of the loop in `ReassignAll`: the `i`-th id gets its new status and its history row. */
  method ReassignNext(store: ApplicationStore, ghost before: map<int, Application>, ghost history: seq<HistoryRecord>,
                      ids: seq<int>, i: nat, newStatus: string, user: int, notes: string)
    requires i < |ids| && Distinct(ids) && forall k :: 0 <= k < |ids| ==> ids[k] in before
    requires store.Valid()
    requires store.applications == Reassigning(before, ids[..i], newStatus)
    requires store.history == history + BulkRecords(before, ids[..i], newStatus, user, notes)
    modifies store
    ensures store.Valid()
    ensures store.applications == Reassigning(before, ids[..i + 1], newStatus)
    ensures store.history == history + BulkRecords(before, ids[..i + 1], newStatus, user, notes)
  {
    NextStep(before, history, ids, i, newStatus, user, notes);
    Reassign(store, ids[i], newStatus, user, notes);
  }
}
