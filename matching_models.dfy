// The matching records: match results with their explanations, the algorithm
// configuration, the score bands, and the batch matching job's life cycle.
module MatchingModels {
  import opened Common
  import opened Strings
  import opened Dates
  import opened Numbers
  import opened UserModels
  import opened JobModels

  // ---------------------------------------------------------------------------
  // Match results.
  // ---------------------------------------------------------------------------

  /** One `SkillMatchDetail` row. */
  datatype SkillDetail = SkillDetail(
    skillName: string,
    studentHasSkill: bool,
    studentProficiency: Option<Proficiency>,
    studentYears: real,
    jobRequiresSkill: bool,
    importance: Option<Importance>,
    jobMinExperience: real,
    jobWeight: real,
    matchScore: real,
    isMissing: bool,
    isBonus: bool)

  /** An entry of `match_details['missing_skills']`. */
  datatype MissingSkill = MissingSkill(skillName: string, importance: Importance, minExperience: real)

  /** An entry of `match_details['bonus_skills']`. */
  datatype BonusSkill = BonusSkill(skillName: string, proficiency: Proficiency, bonusPoints: real)

  /** A recommendation reason, before it is rendered as text (see `ReasonText`). */
  datatype Reason =
    | HighSkillScore(score: real)
    | RequiredSkillsMet(matched: int, total: int)
    | BonusSkillsHeld(count: int)
    | ExperienceFullyMet
    | ExperienceMostlyMet
    | EducationMet
    | LocationMet

  /** An improvement suggestion, before it is rendered as text (see `SuggestionText`). */
  datatype Suggestion =
    | LearnCriticalSkills(names: seq<string>)
    | AddImportantSkills(names: seq<string>)
    | ImproveProficiency

  /** The AI analysis stored in `match_details['ai_analysis']`. */
  datatype AiAnalysis = AiAnalysis(
    compatibility: string,
    strengths: seq<string>,
    concerns: seq<string>,
    skillRecommendations: seq<string>,
    careerAdvice: string,
    confidence: real)

  /** The record stored when the AI analysis fails. */
  const AiFallback: AiAnalysis := AiAnalysis("暂时无法获取AI分析", [], [], [], "", 0.0)

  datatype MatchDetails = MatchDetails(
    totalRequired: int,
    matchedRequired: int,
    bonusCount: int,
    missing: seq<MissingSkill>,
    bonus: seq<BonusSkill>,
    ai: AiAnalysis)

  /** One `MatchResult` row; there is at most one per (student, job). */
  datatype MatchResult = MatchResult(
    studentId: int,
    jobId: int,
    overall: real,
    skill: real,
    experience: real,
    education: real,
    location: real,
    details: MatchDetails,
    reasons: seq<Reason>,
    suggestions: seq<Suggestion>)

  predicate InPercentRange(x: real) { 0.0 <= x <= 100.0 }

  /** The field validators of the five scores. */
  predicate ScoresInRange(r: MatchResult) {
    InPercentRange(r.overall) && InPercentRange(r.skill) && InPercentRange(r.experience)
    && InPercentRange(r.education) && InPercentRange(r.location)
  }

  /** `f"{x:.1f}"`: one decimal place, rounded half to even. */
  function FormatOneDecimal(x: real): (r: string)
    ensures |r| >= 3
  {
    var n := RoundHalfEven(x * 10.0);
    var a := if n < 0 then -n else n;
    (if n < 0 then "-" else "") + NatToString(a / 10) + "." + NatToString(a % 10)
  }

  function ReasonText(r: Reason): string {
    match r
    case HighSkillScore(s) => "技能匹配度高达 " + FormatOneDecimal(s) + "%"
    case RequiredSkillsMet(m, t) =>
      "满足 " + (if m < 0 then "-" + NatToString(-m) else NatToString(m)) + "/"
      + (if t < 0 then "-" + NatToString(-t) else NatToString(t)) + " 项必需技能"
    case BonusSkillsHeld(c) => "拥有 " + (if c < 0 then "-" + NatToString(-c) else NatToString(c)) + " 项加分技能"
    case ExperienceFullyMet => "工作经验完全符合要求"
    case ExperienceMostlyMet => "工作经验基本符合要求"
    case EducationMet => "教育背景完全匹配"
    case LocationMet => "地理位置匹配度高"
  }

  function SuggestionText(s: Suggestion): string {
    match s
    case LearnCriticalSkills(names) => "建议重点学习关键技能: " + Join(", ", names)
    case AddImportantSkills(names) => "建议补充重要技能: " + Join(", ", names)
    case ImproveProficiency => "建议提升相关技能熟练度，增加项目经验"
  }

  // ---------------------------------------------------------------------------
  // `MatchResult.match_level` and `match_level_display`.
  // ---------------------------------------------------------------------------

  datatype MatchLevel = Excellent | VeryGood | Good | Fair | Poor

  function LevelOf(score: real): (r: MatchLevel)
    ensures r == Excellent <==> score >= 90.0
    ensures r == VeryGood <==> 80.0 <= score < 90.0
    ensures r == Good <==> 70.0 <= score < 80.0
    ensures r == Fair <==> 60.0 <= score < 70.0
    ensures r == Poor <==> score < 60.0
  {
    if score >= 90.0 then Excellent
    else if score >= 80.0 then VeryGood
    else if score >= 70.0 then Good
    else if score >= 60.0 then Fair
    else Poor
  }

  /** Position of a band, from poor (0) to excellent (4). */
  function LevelRank(l: MatchLevel): int {
    match l
    case Poor => 0
    case Fair => 1
    case Good => 2
    case VeryGood => 3
    case Excellent => 4
  }

  /** A higher score never falls in a lower band. */
  lemma LevelMonotone(s: real, t: real)
    requires s <= t
    ensures LevelRank(LevelOf(s)) <= LevelRank(LevelOf(t))
  {
  }

  /** The stored name of a band. */
  function LevelName(l: MatchLevel): string {
    match l
    case Excellent => "excellent"
    case VeryGood => "very_good"
    case Good => "good"
    case Fair => "fair"
    case Poor => "poor"
  }

  const UnknownLevelLabel: string := "未知"

  /** The label lookup by band name, with the fallback for any other name. */
  function LevelLabel(name: string): (r: string)
    ensures r == UnknownLevelLabel <==>
      name !in {"excellent", "very_good", "good", "fair", "poor"}
  {
    if name == "excellent" then "极佳匹配"
    else if name == "very_good" then "很好匹配"
    else if name == "good" then "良好匹配"
    else if name == "fair" then "一般匹配"
    else if name == "poor" then "匹配度低"
    else UnknownLevelLabel
  }

  /** `match_level_display`: every score gets a real label, never the fallback. */
  function LevelDisplay(score: real): (r: string)
    ensures r != UnknownLevelLabel
  {
    LevelLabel(LevelName(LevelOf(score)))
  }

  // ---------------------------------------------------------------------------
  // `MatchingAlgorithmConfig`.
  // ---------------------------------------------------------------------------

  datatype Config = Config(
    name: string,
    skillWeight: real,
    experienceWeight: real,
    educationWeight: real,
    locationWeight: real)

  const DefaultConfig: Config := Config("default", 0.4, 0.3, 0.2, 0.1)

  function WeightSum(c: Config): real {
    c.skillWeight + c.experienceWeight + c.educationWeight + c.locationWeight
  }

  /** The field validators: each weight lies in [0, 1]. */
  predicate WeightsInRange(c: Config) {
    0.0 <= c.skillWeight <= 1.0 && 0.0 <= c.experienceWeight <= 1.0
    && 0.0 <= c.educationWeight <= 1.0 && 0.0 <= c.locationWeight <= 1.0
  }

  /** The check `save` runs: the weights sum to 1 within 0.01. */
  function CheckWeightSum(c: Config): (r: Result<Config, string>)
    ensures r.Ok? <==> -0.01 <= WeightSum(c) - 1.0 <= 0.01
    ensures r.Ok? ==> r.value == c
  {
    var d := WeightSum(c) - 1.0;
    if d > 0.01 || -d > 0.01 then Err("权重总和必须等于1.0") else Ok(c)
  }

  /** The saved configurations, keyed by their unique name. */
  class ConfigTable {
    var configs: map<string, Config>

    constructor ()
      ensures configs == map[]
    {
      configs := map[];
    }

    /** `MatchingAlgorithmConfig.save`: raises before writing when the weights do not sum to 1. */
    method Save(c: Config) returns (r: Result<Config, string>)
      modifies this
      ensures r == CheckWeightSum(c)
      ensures configs == if r.Ok? then old(configs)[c.name := c] else old(configs)
    {
      r := CheckWeightSum(c);
      if r.Ok? {
        configs := configs[c.name := c];
      }
    }
  }

  // ---------------------------------------------------------------------------
  // `MatchingJob`.
  // ---------------------------------------------------------------------------

  datatype JobStatus = PendingJob | Running | Completed | Failed | Cancelled

  /** A batch matching job; `now` stands for `timezone.now()`. */
  class MatchingJob {
    var status: JobStatus
    var progress: int
    var totalMatches: int
    var executionTime: Option<real>
    var errorMessage: string
    var startedAt: Option<DateTime>
    var completedAt: Option<DateTime>

    ghost predicate Valid()
      reads this
    {
      0 <= progress <= 100
    }

    constructor ()
      ensures Valid()
      ensures status == PendingJob && progress == 0 && totalMatches == 0
      ensures executionTime == None && errorMessage == "" && startedAt == None && completedAt == None
    {
      status := PendingJob;
      progress := 0;
      totalMatches := 0;
      executionTime := None;
      errorMessage := "";
      startedAt := None;
      completedAt := None;
    }

    /** `start_execution`: running, with the start time recorded; nothing else changes. */
    method StartExecution(now: DateTime)
      requires Valid()
      modifies this
      ensures Valid()
      ensures status == Running && startedAt == Some(now)
      ensures progress == old(progress) && totalMatches == old(totalMatches)
      ensures executionTime == old(executionTime) && errorMessage == old(errorMessage)
      ensures completedAt == old(completedAt)
    {
      status := Running;
      startedAt := Some(now);
    }

    /**
     * `complete_execution(total_matches, execution_time)`: completed at 100%.
     * The execution time is recorded only when it is truthy (present and non-zero).
     */
    method CompleteExecution(now: DateTime, total: int, elapsed: Option<real>)
      requires Valid()
      modifies this
      ensures Valid()
      ensures status == Completed && completedAt == Some(now) && progress == 100
      ensures totalMatches == total
      ensures executionTime == if TruthyReal(elapsed) then elapsed else old(executionTime)
      ensures errorMessage == old(errorMessage) && startedAt == old(startedAt)
    {
      status := Completed;
      completedAt := Some(now);
      progress := 100;
      totalMatches := total;
      if TruthyReal(elapsed) {
        executionTime := elapsed;
      }
    }

    /** `fail_execution(error_message)`: failed, with the time and the message recorded. */
    method FailExecution(now: DateTime, message: string)
      requires Valid()
      modifies this
      ensures Valid()
      ensures status == Failed && completedAt == Some(now) && errorMessage == message
      ensures progress == old(progress) && totalMatches == old(totalMatches)
      ensures executionTime == old(executionTime) && startedAt == old(startedAt)
    {
      status := Failed;
      completedAt := Some(now);
      errorMessage := message;
    }
  }
}
