// The request validators of the matching API: the algorithm configuration,
// a single match request and a batch match request.  Field checks run first,
// then the cross-field `validate`.
module MatchingSerializers {
  import opened Common
  import opened MatchingModels

  /** A rejected request: a field that failed its own check, or a cross-field message. */
  datatype RequestError = FieldError(field: string) | NonFieldError(message: string)

  // ---------------------------------------------------------------------------
  // `MatchingAlgorithmConfigSerializer`.
  // ---------------------------------------------------------------------------

  /** The weights a configuration request carries; absent ones are None. */
  datatype WeightInput = WeightInput(skill: Option<real>, experience: Option<real>, education: Option<real>, location: Option<real>)

  const WeightSumMessage: string := "所有权重的总和必须等于1.0"

  /** `data.get(field, 0)`. */
  function OrZero(w: Option<real>): real { if w.Some? then w.value else 0.0 }

  predicate WeightOk(w: Option<real>) { w.None? || 0.0 <= w.value <= 1.0 }

  function InputSum(d: WeightInput): real {
    OrZero(d.skill) + OrZero(d.experience) + OrZero(d.education) + OrZero(d.location)
  }

  /**
   * The serializer: each given weight in [0, 1], then the sum of the weights,
   * absent ones counted as 0, within 0.01 of 1.
   */
  function ValidateConfig(d: WeightInput): (r: Result<WeightInput, RequestError>)
    ensures r.Ok? <==> WeightOk(d.skill) && WeightOk(d.experience) && WeightOk(d.education) && WeightOk(d.location)
                       && -0.01 <= InputSum(d) - 1.0 <= 0.01
    ensures r.Ok? ==> r.value == d
    ensures r == Err(NonFieldError(WeightSumMessage)) <==>
      WeightOk(d.skill) && WeightOk(d.experience) && WeightOk(d.education) && WeightOk(d.location)
      && !(-0.01 <= InputSum(d) - 1.0 <= 0.01)
  {
    if !WeightOk(d.skill) then Err(FieldError("skill_weight"))
    else if !WeightOk(d.experience) then Err(FieldError("experience_weight"))
    else if !WeightOk(d.education) then Err(FieldError("education_weight"))
    else if !WeightOk(d.location) then Err(FieldError("location_weight"))
    else
      var total := InputSum(d);
      if total - 1.0 > 0.01 || 1.0 - total > 0.01 then Err(NonFieldError(WeightSumMessage)) else Ok(d)
  }

  /** The configuration a validated request creates: absent weights take the model defaults. */
  function CreatedConfig(name: string, d: WeightInput): Config {
    Config(name,
           if d.skill.Some? then d.skill.value else DefaultConfig.skillWeight,
           if d.experience.Some? then d.experience.value else DefaultConfig.experienceWeight,
           if d.education.Some? then d.education.value else DefaultConfig.educationWeight,
           if d.location.Some? then d.location.value else DefaultConfig.locationWeight)
  }

  predicate AllWeightsGiven(d: WeightInput) {
    d.skill.Some? && d.experience.Some? && d.education.Some? && d.location.Some?
  }

  /** With every weight given, the serializer and the model's save accept the same configurations. */
  lemma ConfigChecksAgree(name: string, d: WeightInput)
    requires AllWeightsGiven(d)
    requires WeightOk(d.skill) && WeightOk(d.experience) && WeightOk(d.education) && WeightOk(d.location)
    ensures ValidateConfig(d).Ok? <==> CheckWeightSum(CreatedConfig(name, d)).Ok?
  {
  }

  /**
   * As written, a request giving only `skill_weight = 1.0` passes the
   * serializer, but the saved row takes the defaults 0.3, 0.2 and 0.1 for the
   * others, sums to 1.6 and is refused by `save`.
   */
  lemma PartialConfigRefusedOnSave()
    ensures ValidateConfig(WeightInput(Some(1.0), None, None, None)).Ok?
    ensures CheckWeightSum(CreatedConfig("c", WeightInput(Some(1.0), None, None, None))).Err?
  {
  }

  /** The intended check: absent weights count with the defaults they will be saved with. */
  function ValidateConfigWithDefaults(name: string, d: WeightInput): (r: Result<WeightInput, RequestError>)
    ensures r.Ok? <==> WeightOk(d.skill) && WeightOk(d.experience) && WeightOk(d.education) && WeightOk(d.location)
                       && CheckWeightSum(CreatedConfig(name, d)).Ok?
  {
    if !WeightOk(d.skill) then Err(FieldError("skill_weight"))
    else if !WeightOk(d.experience) then Err(FieldError("experience_weight"))
    else if !WeightOk(d.education) then Err(FieldError("education_weight"))
    else if !WeightOk(d.location) then Err(FieldError("location_weight"))
    else if CheckWeightSum(CreatedConfig(name, d)).Err? then Err(NonFieldError(WeightSumMessage))
    else Ok(d)
  }

  /** Whatever the corrected check accepts, `save` accepts too, and it agrees with the serializer on complete requests. */
  lemma DefaultsCheckMatchesSave(name: string, d: WeightInput)
    ensures ValidateConfigWithDefaults(name, d).Ok? ==> CheckWeightSum(CreatedConfig(name, d)).Ok?
    ensures AllWeightsGiven(d) ==> (ValidateConfigWithDefaults(name, d).Ok? <==> ValidateConfig(d).Ok?)
  {
  }

  // ---------------------------------------------------------------------------
  // `MatchRequestSerializer`.
  // ---------------------------------------------------------------------------

  datatype MatchRequestInput = MatchRequestInput(studentId: Option<int>, jobId: Option<int>, limit: Option<int>, minScore: Option<real>)

  datatype MatchRequest = MatchRequest(studentId: Option<int>, jobId: Option<int>, limit: int, minScore: real)

  const DefaultLimit: int := 10
  const DefaultMinScore: real := 0.0
  const NeitherIdMessage: string := "必须提供student_id或job_id中的一个"
  const BothIdsMessage: string := "不能同时提供student_id和job_id"

  /** Limit defaults to 10 within [1, 100], min_score to 0.0 within [0, 1]; then exactly one truthy id. */
  function ValidateMatchRequest(d: MatchRequestInput): (r: Result<MatchRequest, RequestError>)
    ensures r.Ok? <==>
      (d.limit.None? || 1 <= d.limit.value <= 100) && (d.minScore.None? || 0.0 <= d.minScore.value <= 1.0)
      && (TruthyInt(d.studentId) != TruthyInt(d.jobId))
    ensures r.Ok? ==> 1 <= r.value.limit <= 100 && 0.0 <= r.value.minScore <= 1.0
    ensures r.Ok? ==> r.value.limit == (if d.limit.Some? then d.limit.value else DefaultLimit)
    ensures r.Ok? ==> r.value.minScore == (if d.minScore.Some? then d.minScore.value else DefaultMinScore)
    ensures r.Ok? ==> r.value.studentId == d.studentId && r.value.jobId == d.jobId
  {
    var limit := if d.limit.Some? then d.limit.value else DefaultLimit;
    var minScore := if d.minScore.Some? then d.minScore.value else DefaultMinScore;
    if !(1 <= limit <= 100) then Err(FieldError("limit"))
    else if !(0.0 <= minScore <= 1.0) then Err(FieldError("min_score"))
    else if !TruthyInt(d.studentId) && !TruthyInt(d.jobId) then Err(NonFieldError(NeitherIdMessage))
    else if TruthyInt(d.studentId) && TruthyInt(d.jobId) then Err(NonFieldError(BothIdsMessage))
    else Ok(MatchRequest(d.studentId, d.jobId, limit, minScore))
  }

  /** A zero id counts as absent: `student_id = 0` with a job id is a job request. */
  lemma ZeroIdIsAbsent(jobId: int)
    requires jobId != 0
    ensures ValidateMatchRequest(MatchRequestInput(Some(0), Some(jobId), None, None)).Ok?
    ensures ValidateMatchRequest(MatchRequestInput(Some(0), None, None, None)) == Err(NonFieldError(NeitherIdMessage))
  {
  }

  // ---------------------------------------------------------------------------
  // `BatchMatchRequestSerializer`.
  // ---------------------------------------------------------------------------

  datatype BatchPriority = Low | Normal | HighPriority

  datatype BatchRequestInput = BatchRequestInput(
    studentIds: Option<seq<int>>,
    jobIds: Option<seq<int>>,
    limitPerItem: Option<int>,
    minScore: Option<real>,
    priority: Option<string>)

  datatype BatchRequest = BatchRequest(
    studentIds: Option<seq<int>>,
    jobIds: Option<seq<int>>,
    limitPerItem: int,
    minScore: real,
    priority: BatchPriority)

  const DefaultLimitPerItem: int := 5
  const MaxBatchIds: int := 100
  const NeitherListMessage: string := "必须提供student_ids或job_ids中的一个"
  const BothListsMessage: string := "不能同时提供student_ids和job_ids"
  const TooManyIdsMessage: string := "批量匹配数量不能超过100个"

  /** The priority choices; an absent priority is normal. */
  function ParsePriority(p: Option<string>): (r: Option<BatchPriority>)
    ensures r.None? <==> p.Some? && p.value !in {"low", "normal", "high"}
    ensures p.None? ==> r == Some(Normal)
  {
    if p.None? then Some(Normal)
    else if p.value == "low" then Some(Low)
    else if p.value == "normal" then Some(Normal)
    else if p.value == "high" then Some(HighPriority)
    else None
  }

  /** A list field with `allow_empty=False`: absent, or given with at least one id. */
  predicate ListOk(ids: Option<seq<int>>) { ids.None? || |ids.value| > 0 }

  /** `data.get(field)` is truthy: given and non-empty. */
  predicate TruthyList(ids: Option<seq<int>>) { ids.Some? && |ids.value| > 0 }

  /**
   * The field checks (non-empty lists, limit_per_item in [1, 50], min_score in
   * [0, 1], a known priority), then exactly one id list, then at most 100 ids.
   */
  function ValidateBatchRequest(d: BatchRequestInput): (r: Result<BatchRequest, RequestError>)
    ensures r.Ok? <==>
      ListOk(d.studentIds) && ListOk(d.jobIds)
      && (d.limitPerItem.None? || 1 <= d.limitPerItem.value <= 50)
      && (d.minScore.None? || 0.0 <= d.minScore.value <= 1.0)
      && ParsePriority(d.priority).Some?
      && (d.studentIds.Some? != d.jobIds.Some?)
      && |if d.studentIds.Some? then d.studentIds.value else d.jobIds.value| <= MaxBatchIds
    ensures r.Ok? ==> 1 <= r.value.limitPerItem <= 50
    ensures r.Ok? && d.limitPerItem.None? ==> r.value.limitPerItem == DefaultLimitPerItem
    ensures r.Ok? && d.priority.None? ==> r.value.priority == Normal
    ensures r.Ok? ==> r.value.studentIds == d.studentIds && r.value.jobIds == d.jobIds
    ensures r.Ok? ==> ParsePriority(d.priority) == Some(r.value.priority)
    ensures r.Ok? && d.limitPerItem.Some? ==> r.value.limitPerItem == d.limitPerItem.value
    ensures r.Ok? ==> r.value.minScore == (if d.minScore.Some? then d.minScore.value else DefaultMinScore)
  {
    var limit := if d.limitPerItem.Some? then d.limitPerItem.value else DefaultLimitPerItem;
    var minScore := if d.minScore.Some? then d.minScore.value else DefaultMinScore;
    var priority := ParsePriority(d.priority);
    if !ListOk(d.studentIds) then Err(FieldError("student_ids"))
    else if !ListOk(d.jobIds) then Err(FieldError("job_ids"))
    else if !(1 <= limit <= 50) then Err(FieldError("limit_per_item"))
    else if !(0.0 <= minScore <= 1.0) then Err(FieldError("min_score"))
    else if priority.None? then Err(FieldError("priority"))
    else if !TruthyList(d.studentIds) && !TruthyList(d.jobIds) then Err(NonFieldError(NeitherListMessage))
    else if TruthyList(d.studentIds) && TruthyList(d.jobIds) then Err(NonFieldError(BothListsMessage))
    else
      var ids := if TruthyList(d.studentIds) then d.studentIds.value else d.jobIds.value;
      if |ids| > MaxBatchIds then Err(NonFieldError(TooManyIdsMessage))
      else Ok(BatchRequest(d.studentIds, d.jobIds, limit, minScore, priority.value))
  }

  /** An accepted batch names between 1 and 100 students or jobs, never both. */
  lemma BatchSizeBounds(d: BatchRequestInput)
    requires ValidateBatchRequest(d).Ok?
    ensures d.studentIds.Some? ==> 1 <= |d.studentIds.value| <= MaxBatchIds && d.jobIds.None?
    ensures d.jobIds.Some? ==> 1 <= |d.jobIds.value| <= MaxBatchIds && d.studentIds.None?
  {
  }
}
