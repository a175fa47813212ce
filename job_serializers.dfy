// The job create/update and search serializers: the salary and deadline
// checks, the skill-id check of a submitted skill row, and how creating and
// updating a job writes its fields and its skill rows.
module JobSerializers {
  import opened Common
  import opened Dates
  import opened JobModels
  import opened Counters

  // ---------------------------------------------------------------------------
  // Validators.
  // ---------------------------------------------------------------------------

  const SalaryOrderError: string := "最低薪资不能高于最高薪资"

  /**
   * The salary check of `JobCreateUpdateSerializer.validate` and of
   * `JobSearchSerializer.validate`: rejected exactly when both bounds are
   * given and non-zero and the minimum exceeds the maximum.
   */
  function ValidateSalaryRange(salaryMin: Option<real>, salaryMax: Option<real>): (r: Result<(), string>)
    ensures r.Err? <==> TruthyReal(salaryMin) && TruthyReal(salaryMax) && salaryMin.value > salaryMax.value
    ensures r.Err? ==> r.error == SalaryOrderError
  {
    if TruthyReal(salaryMin) && TruthyReal(salaryMax) && salaryMin.value > salaryMax.value then Err(SalaryOrderError)
    else Ok(())
  }

  /** What can arrive as an application deadline. */
  datatype DeadlineValue = DateTimeValue(dt: DateTime) | DateValue(d: Date) | TextValue(s: string) | OtherValue

  const DeadlineFormatError: string := "日期格式必须是YYYY-MM-DD"
  const DeadlineTypeError: string := "无效的日期格式"
  const DeadlinePastError: string := "申请截止日期必须是未来的日期"

  /**
   * `validate_application_deadline` on the day `today`: a datetime is cut to
   * its date, a text must read as YYYY-MM-DD, anything else is rejected, and
   * the date must come strictly after today.
   */
  function ValidateDeadline(value: DeadlineValue, today: Date): (r: Result<Date, string>)
    ensures value.OtherValue? ==> r == Err(DeadlineTypeError)
    ensures value.TextValue? && ParseIsoDate(value.s).None? ==> r == Err(DeadlineFormatError)
    ensures r.Ok? ==> DateBefore(today, r.value)
    ensures r.Ok? && value.DateTimeValue? ==> r.value == value.dt.date
    ensures r.Ok? && value.DateValue? ==> r.value == value.d
    ensures r.Ok? && value.TextValue? ==> ParseIsoDate(value.s) == Some(r.value)
    ensures r.Err? && r.error == DeadlinePastError <==> (match DateOf(value) case None => false case Some(d) => !DateBefore(today, d))
    ensures DateOf(value).Some? && DateBefore(today, DateOf(value).value) ==> r == Ok(DateOf(value).value)
  {
    match DateOf(value)
    case None => Err(if value.TextValue? then DeadlineFormatError else DeadlineTypeError)
    case Some(d) => if !DateBefore(today, d) then Err(DeadlinePastError) else Ok(d)
  }

  /** The date a deadline value stands for, if any. */
  function DateOf(value: DeadlineValue): Option<Date> {
    match value
    case DateTimeValue(dt) => Some(dt.date)
    case DateValue(d) => Some(d)
    case TextValue(s) => ParseIsoDate(s)
    case OtherValue => None
  }

  /** A date written as YYYY-MM-DD is judged as the date itself. */
  lemma DeadlineTextAsDate(d: Date, today: Date)
    requires ValidDate(d)
    ensures ValidateDeadline(TextValue(FormatIsoDate(d)), today) == ValidateDeadline(DateValue(d), today)
  {
    ParseFormatIsoDate(d);
  }

  /** Today's date itself is not a valid deadline. */
  lemma TodayRejected(today: Date)
    ensures ValidateDeadline(DateValue(today), today) == Err(DeadlinePastError)
  {
  }

  const UnknownSkillError: string := "技能不存在或已停用"

  /**
   * `validate_skill_id`: the id must name an existing skill that is active;
   * `skills` maps each stored skill id to its `is_active` flag.
   */
  function ValidateSkillId(skills: map<int, bool>, value: int): (r: Result<int, string>)
    ensures r.Ok? <==> value in skills && skills[value]
    ensures r.Ok? ==> r.value == value
    ensures r.Err? ==> r.error == UnknownSkillError
  {
    if value in skills && skills[value] then Ok(value) else Err(UnknownSkillError)
  }

  // ---------------------------------------------------------------------------
  // `create` and `update`.
  // ---------------------------------------------------------------------------

  /** A scalar field value of a job. */
  datatype Value = Text(text: string) | Number(number: real) | Flag(flag: bool) | Day(day: Date) | Nothing

  /** One submitted requirement entry after validation; absent fields are None. */
  datatype RequirementData = RequirementData(skillId: int, importance: Option<Importance>,
                                             minExperience: Option<real>, weight: Option<real>)

  /** One submitted preference entry after validation. */
  datatype PreferenceData = PreferenceData(skillId: int, bonusPoints: Option<real>)

  /** A stored `JobSkillRequirement` row of the job, with the model's defaults filled in. */
  datatype RequirementRow = RequirementRow(skillId: int, importance: Importance, minExperience: real, weight: real)

  /** A stored `JobSkillPreference` row of the job. */
  datatype PreferenceRow = PreferenceRow(skillId: int, bonusPoints: real)

  /** The validated data: the scalar fields given, and the two skill lists when their keys are present. */
  datatype JobData = JobData(fields: map<string, Value>, required: Option<seq<RequirementData>>,
                             preferred: Option<seq<PreferenceData>>)

  function RequirementRowOf(d: RequirementData): RequirementRow {
    RequirementRow(d.skillId,
                   if d.importance.Some? then d.importance.value else DefaultImportance,
                   if d.minExperience.Some? then d.minExperience.value else DefaultMinExperience,
                   if d.weight.Some? then d.weight.value else DefaultWeight)
  }

  function PreferenceRowOf(d: PreferenceData): PreferenceRow {
    PreferenceRow(d.skillId, if d.bonusPoints.Some? then d.bonusPoints.value else DefaultBonusPoints)
  }

  /** The rows `_create_skill_requirements` inserts: one per entry, in order, with the defaults for absent fields. */
  function RequirementRows(data: seq<RequirementData>): (r: seq<RequirementRow>)
    ensures |r| == |data|
    ensures forall i :: 0 <= i < |data| ==> r[i].skillId == data[i].skillId
    ensures forall i :: 0 <= i < |data| ==> r[i].weight == (if data[i].weight.Some? then data[i].weight.value else DefaultWeight)
    ensures forall i :: 0 <= i < |data| ==> r[i].importance == (if data[i].importance.Some? then data[i].importance.value else DefaultImportance)
    ensures forall i :: 0 <= i < |data| ==> r[i].minExperience == (if data[i].minExperience.Some? then data[i].minExperience.value else DefaultMinExperience)
    decreases |data|
  {
    if |data| == 0 then [] else RequirementRows(data[..|data| - 1]) + [RequirementRowOf(data[|data| - 1])]
  }

  /** The rows `_create_skill_preferences` inserts: one per entry, in order, bonus points defaulting to 0.5. */
  function PreferenceRows(data: seq<PreferenceData>): (r: seq<PreferenceRow>)
    ensures |r| == |data|
    ensures forall i :: 0 <= i < |data| ==> r[i].skillId == data[i].skillId
    ensures forall i :: 0 <= i < |data| ==> r[i].bonusPoints == (if data[i].bonusPoints.Some? then data[i].bonusPoints.value else DefaultBonusPoints)
    decreases |data|
  {
    if |data| == 0 then [] else PreferenceRows(data[..|data| - 1]) + [PreferenceRowOf(data[|data| - 1])]
  }

  /** Entries whose weights and bonus points pass the model's bounds give rows within those bounds. */
  lemma RowsWithinBounds(reqs: seq<RequirementData>, prefs: seq<PreferenceData>)
    requires forall i :: 0 <= i < |reqs| ==> reqs[i].weight.None? || WeightInBounds(reqs[i].weight.value)
    requires forall i :: 0 <= i < |prefs| ==> prefs[i].bonusPoints.None? || BonusInBounds(prefs[i].bonusPoints.value)
    ensures forall i :: 0 <= i < |reqs| ==> WeightInBounds(RequirementRows(reqs)[i].weight)
    ensures forall i :: 0 <= i < |prefs| ==> BonusInBounds(PreferenceRows(prefs)[i].bonusPoints)
  {
  }

  /** The skill ids of requirement rows, in row order. */
  function RequirementIds(rows: seq<RequirementRow>): (r: seq<int>)
    ensures |r| == |rows| && forall i :: 0 <= i < |rows| ==> r[i] == rows[i].skillId
  {
    seq(|rows|, i requires 0 <= i < |rows| => rows[i].skillId)
  }

  /** The skill ids of preference rows, in row order. */
  function PreferenceIds(rows: seq<PreferenceRow>): (r: seq<int>)
    ensures |r| == |rows| && forall i :: 0 <= i < |rows| ==> r[i] == rows[i].skillId
  {
    seq(|rows|, i requires 0 <= i < |rows| => rows[i].skillId)
  }

  /** The skill ids of submitted requirement entries, in order. */
  function RequestedIds(data: seq<RequirementData>): (r: seq<int>)
    ensures |r| == |data| && forall i :: 0 <= i < |data| ==> r[i] == data[i].skillId
  {
    seq(|data|, i requires 0 <= i < |data| => data[i].skillId)
  }

  /** The skill ids of submitted preference entries, in order. */
  function OfferedIds(data: seq<PreferenceData>): (r: seq<int>)
    ensures |r| == |data| && forall i :: 0 <= i < |data| ==> r[i] == data[i].skillId
  {
    seq(|data|, i requires 0 <= i < |data| => data[i].skillId)
  }

  /**
   * How many of the skill ids `ids` are inserted, one at a time, into a
   * job's rows whose skills are `taken` before an insert breaks the
   * `unique_together = ['job', 'skill']` constraint: the index of the first
   * id already among `taken` or the earlier ids, or |ids| when none is.
   * Every inserted id is new, and the one refused is a repeat.
   */
  function Inserted(taken: seq<int>, ids: seq<int>): (n: nat)
    ensures n <= |ids|
    ensures Distinct(taken) ==> Distinct(taken + ids[..n])
    ensures n < |ids| ==> ids[n] in taken + ids[..n]
    decreases |ids|
  {
    if |ids| == 0 then 0
    else
      var m := Inserted(taken, ids[..|ids| - 1]);
      assert ids[..|ids| - 1][..m] == ids[..m];
      if m < |ids| - 1 then m
      else if ids[|ids| - 1] in taken + ids[..|ids| - 1] then |ids| - 1
      else
        assert taken + ids[..|ids|] == (taken + ids[..|ids| - 1]) + [ids[|ids| - 1]];
        |ids|
  }

  /** Rows whose skills are pairwise distinct take every id exactly when the ids are new and pairwise distinct too. */
  lemma InsertedAll(taken: seq<int>, ids: seq<int>)
    requires Distinct(taken)
    ensures Inserted(taken, ids) == |ids| <==> Distinct(taken + ids)
  {
    var n := Inserted(taken, ids);
    assert ids[..|ids|] == ids;
    if n < |ids| {
      var k :| 0 <= k < |taken + ids[..n]| && (taken + ids[..n])[k] == ids[n];
      assert (taken + ids)[k] == (taken + ids)[|taken| + n] && k < |taken| + n;
    }
  }

  /** An entry list that names one skill twice is never inserted whole. */
  lemma RepeatedSkillRefused(taken: seq<int>, ids: seq<int>, i: int, j: int)
    requires Distinct(taken) && 0 <= i < j < |ids| && ids[i] == ids[j]
    ensures Inserted(taken, ids) < |ids|
  {
    InsertedAll(taken, ids);
    assert (taken + ids)[|taken| + i] == (taken + ids)[|taken| + j];
  }

  /** Counting from the front: the first k ids are all inserted exactly when the first k - 1 are and the k-th is new. */
  lemma InsertedPrefix(taken: seq<int>, ids: seq<int>, k: nat)
    requires k < |ids| && Inserted(taken, ids[..k]) == k
    ensures Inserted(taken, ids[..k + 1]) == (if ids[k] in taken + ids[..k] then k else k + 1)
  {
    assert ids[..k + 1][..k] == ids[..k];
  }

  /** Once an insert is refused, the later entries do not change how many were inserted. */
  lemma InsertedStops(taken: seq<int>, ids: seq<int>, k: nat)
    requires k <= |ids| && Inserted(taken, ids[..k]) < k
    ensures Inserted(taken, ids) == Inserted(taken, ids[..k])
    decreases |ids| - k
  {
    if k < |ids| {
      assert ids[..k + 1][..k] == ids[..k];
      InsertedStops(taken, ids, k + 1);
    } else {
      assert ids[..k] == ids;
    }
  }

  /** Inserting the next requirement entry: one more row, and its skill id joins the ids. */
  lemma AppendRequirement(rows: seq<RequirementRow>, data: seq<RequirementData>, i: nat)
    requires i < |data|
    ensures RequirementRows(data[..i + 1]) == RequirementRows(data[..i]) + [RequirementRowOf(data[i])]
    ensures RequestedIds(data)[..i + 1] == RequestedIds(data)[..i] + [data[i].skillId]
    ensures RequirementIds(rows + [RequirementRowOf(data[i])]) == RequirementIds(rows) + [data[i].skillId]
  {
    assert data[..i + 1][..i] == data[..i];
  }

  /** Inserting the next preference entry: one more row, and its skill id joins the ids. */
  lemma AppendPreference(rows: seq<PreferenceRow>, data: seq<PreferenceData>, i: nat)
    requires i < |data|
    ensures PreferenceRows(data[..i + 1]) == PreferenceRows(data[..i]) + [PreferenceRowOf(data[i])]
    ensures OfferedIds(data)[..i + 1] == OfferedIds(data)[..i] + [data[i].skillId]
    ensures PreferenceIds(rows + [PreferenceRowOf(data[i])]) == PreferenceIds(rows) + [data[i].skillId]
  {
    assert data[..i + 1][..i] == data[..i];
  }

  /** A skill list of the data, an absent one counting as empty. */
  function Listed<T>(list: Option<seq<T>>): (r: seq<T>)
    ensures list.None? ==> r == []
    ensures list.Some? ==> r == list.value
  {
    if list.Some? then list.value else []
  }

  /** The requirement rows a job holds after its rows are replaced by the entries `data`. */
  function FreshRequirements(data: seq<RequirementData>): seq<RequirementRow> {
    RequirementRows(data[..Inserted([], RequestedIds(data))])
  }

  /** The preference rows a job holds after its rows are replaced by the entries `data`. */
  function FreshPreferences(data: seq<PreferenceData>): seq<PreferenceRow> {
    PreferenceRows(data[..Inserted([], OfferedIds(data))])
  }

  /** Every submitted requirement entry, if the list was given, is inserted without a clash. */
  predicate RequiredFit(data: JobData) {
    data.required.None? || Inserted([], RequestedIds(data.required.value)) == |data.required.value|
  }

  /** Every submitted preference entry, if the list was given, is inserted without a clash. */
  predicate PreferredFit(data: JobData) {
    data.preferred.None? || Inserted([], OfferedIds(data.preferred.value)) == |data.preferred.value|
  }

  /** Into a job without rows of the kind, every id is inserted exactly when no id repeats. */
  lemma InsertedIntoNone(ids: seq<int>)
    ensures Inserted([], ids) == |ids| <==> Distinct(ids)
  {
    InsertedAll([], ids);
    assert [] + ids == ids;
  }

  /** The submitted lists fit exactly when neither names a skill twice. */
  lemma FitIffDistinct(data: JobData)
    ensures RequiredFit(data) <==> data.required.None? || Distinct(RequestedIds(data.required.value))
    ensures PreferredFit(data) <==> data.preferred.None? || Distinct(OfferedIds(data.preferred.value))
  {
    if data.required.Some? {
      InsertedIntoNone(RequestedIds(data.required.value));
    }
    if data.preferred.Some? {
      InsertedIntoNone(OfferedIds(data.preferred.value));
    }
  }

  /** A job as the serializer writes it: its employer, its scalar fields and its skill rows. */
  class JobRecord {
    var employer: int
    var fields: map<string, Value>
    var requirements: seq<RequirementRow>
    var preferences: seq<PreferenceRow>

    /** At most one requirement row and at most one preference row per skill of the job. */
    predicate Valid()
      reads this
    {
      Distinct(RequirementIds(requirements)) && Distinct(PreferenceIds(preferences))
    }

    /** `Job.objects.create`: the job row with the employer and the fields, and no skill rows yet. */
    constructor Insert(employer: int, fields: map<string, Value>)
      ensures this.employer == employer && this.fields == fields
      ensures requirements == [] && preferences == [] && Valid()
    {
      this.employer := employer;
      this.fields := fields;
      requirements := [];
      preferences := [];
    }

    /**
     * `create`: the employer comes from the request context, the fields
     * from the data, and one row is inserted per submitted skill entry; an
     * absent list counts as empty. An entry repeating a skill breaks the
     * uniqueness of `(job, skill)`: the insert raises, `ok` is false, and the
     * job and the rows inserted before it stay.
     */
    static method Create(employer: int, data: JobData) returns (job: JobRecord, ok: bool)
      ensures fresh(job) && job.Valid()
      ensures job.employer == employer && job.fields == data.fields
      ensures job.requirements == FreshRequirements(Listed(data.required))
      ensures job.preferences == if RequiredFit(data) then FreshPreferences(Listed(data.preferred)) else []
      ensures ok <==> RequiredFit(data) && PreferredFit(data)
    {
      job := new JobRecord.Insert(employer, data.fields);
      ok := job.AddRequirements(Listed(data.required));
      if ok {
        ok := job.AddPreferences(Listed(data.preferred));
      }
    }

    /**
     * `update`: each given field is overwritten and the others kept; a skill
     * list replaces the job's rows of that kind only when its key was given
     * (an empty list removes them all). As in `create`, a repeated skill
     * raises with the rows inserted before it, and the preferences are then
     * not reached.
     */
    method Update(data: JobData) returns (ok: bool)
      requires Valid()
      modifies this
      ensures Valid()
      ensures employer == old(employer)
      ensures forall k :: k in data.fields ==> k in fields && fields[k] == data.fields[k]
      ensures forall k :: k !in data.fields ==> (k in fields <==> k in old(fields)) && (k in fields ==> fields[k] == old(fields)[k])
      ensures requirements == if data.required.Some? then FreshRequirements(data.required.value) else old(requirements)
      ensures preferences == if RequiredFit(data) && data.preferred.Some? then FreshPreferences(data.preferred.value) else old(preferences)
      ensures ok <==> RequiredFit(data) && PreferredFit(data)
    {
      fields := fields + data.fields;
      ok := true;
      if data.required.Some? {
        requirements := [];
        ok := AddRequirements(data.required.value);
      }
      if ok && data.preferred.Some? {
        preferences := [];
        ok := AddPreferences(data.preferred.value);
      }
    }

    /**
     * `_create_skill_requirements`: inserts one row per entry, in order,
     * until an entry names a skill that already has a requirement row of the
     * job; that insert raises and `ok` is false.
     */
    method AddRequirements(data: seq<RequirementData>) returns (ok: bool)
      requires Valid()
      modifies this
      ensures Valid()
      ensures var n := Inserted(RequirementIds(old(requirements)), RequestedIds(data));
              requirements == old(requirements) + RequirementRows(data[..n]) && (ok <==> n == |data|)
      ensures employer == old(employer) && fields == old(fields) && preferences == old(preferences)
    {
      ghost var taken := RequirementIds(requirements);
      ghost var ids := RequestedIds(data);
      ok := true;
      var i := 0;
      while i < |data|
        invariant 0 <= i <= |data| && Distinct(taken)
        invariant Inserted(taken, ids[..i]) == i
        invariant requirements == old(requirements) + RequirementRows(data[..i])
        invariant RequirementIds(requirements) == taken + ids[..i]
        invariant employer == old(employer) && fields == old(fields) && preferences == old(preferences)
      {
        InsertedPrefix(taken, ids, i);
        if data[i].skillId in RequirementIds(requirements) {
          InsertedStops(taken, ids, i + 1);
          ok := false;
          return;
        }
        AppendRequirement(requirements, data, i);
        assert old(requirements) + RequirementRows(data[..i + 1]) == requirements + [RequirementRowOf(data[i])];
        requirements := requirements + [RequirementRowOf(data[i])];
        i := i + 1;
      }
      assert data[..|data|] == data && ids[..|data|] == ids;
    }

    /**
     * `_create_skill_preferences`: inserts one row per entry, in order,
     * until an entry names a skill that already has a preference row of the
     * job; that insert raises and `ok` is false.
     */
    method AddPreferences(data: seq<PreferenceData>) returns (ok: bool)
      requires Valid()
      modifies this
      ensures Valid()
      ensures var n := Inserted(PreferenceIds(old(preferences)), OfferedIds(data));
              preferences == old(preferences) + PreferenceRows(data[..n]) && (ok <==> n == |data|)
      ensures employer == old(employer) && fields == old(fields) && requirements == old(requirements)
    {
      ghost var taken := PreferenceIds(preferences);
      ghost var ids := OfferedIds(data);
      ok := true;
      var i := 0;
      while i < |data|
        invariant 0 <= i <= |data| && Distinct(taken)
        invariant Inserted(taken, ids[..i]) == i
        invariant preferences == old(preferences) + PreferenceRows(data[..i])
        invariant PreferenceIds(preferences) == taken + ids[..i]
        invariant employer == old(employer) && fields == old(fields) && requirements == old(requirements)
      {
        InsertedPrefix(taken, ids, i);
        if data[i].skillId in PreferenceIds(preferences) {
          InsertedStops(taken, ids, i + 1);
          ok := false;
          return;
        }
        AppendPreference(preferences, data, i);
        assert old(preferences) + PreferenceRows(data[..i + 1]) == preferences + [PreferenceRowOf(data[i])];
        preferences := preferences + [PreferenceRowOf(data[i])];
        i := i + 1;
      }
      assert data[..|data|] == data && ids[..|data|] == ids;
    }
  }
}
