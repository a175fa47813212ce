// The matching service: ranked match lists for a student or for a job, with
// the result cache, and the personalised recommendation built from a
// student's best matches.
module MatchingServices {
  import opened Common
  import opened Strings
  import opened Dates
  import opened Numbers
  import opened Sequences
  import opened UserModels
  import opened JobModels
  import opened MatchingModels
  import opened MatchingAlgorithms

  // ---------------------------------------------------------------------------
  // The rows the service queries.
  // ---------------------------------------------------------------------------

  /**
   * The tables the service reads: profiles and jobs in query order, and the
   * (student id, job id) pairs that have an application.
   */
  datatype Database = Database(students: seq<StudentProfile>, jobs: seq<Job>, applications: set<(int, int)>)

  /** `StudentProfile.objects.get(id=...)`, as an option. */
  function FindStudent(students: seq<StudentProfile>, id: int): (r: Option<StudentProfile>)
    ensures r.Some? ==> r.value in students && r.value.id == id
    ensures r.None? <==> forall k :: 0 <= k < |students| ==> students[k].id != id
  {
    if |students| == 0 then None
    else if students[0].id == id then Some(students[0])
    else
      var r := FindStudent(students[1..], id);
      assert forall k :: 1 <= k < |students| ==> students[k] == students[1..][k - 1];
      r
  }

  /** `Job.objects.get(id=...)`, as an option. */
  function FindJob(jobs: seq<Job>, id: int): (r: Option<Job>)
    ensures r.Some? ==> r.value in jobs && r.value.id == id
    ensures r.None? <==> forall k :: 0 <= k < |jobs| ==> jobs[k].id != id
  {
    if |jobs| == 0 then None
    else if jobs[0].id == id then Some(jobs[0])
    else
      var r := FindJob(jobs[1..], id);
      assert forall k :: 1 <= k < |jobs| ==> jobs[k] == jobs[1..][k - 1];
      r
  }

  /** A job the student may be matched with: active, deadline not passed, not applied to. */
  predicate OpenFor(job: Job, studentId: int, applications: set<(int, int)>, today: Date) {
    job.isActive && job.deadline.Some? && DateAtMost(today, job.deadline.value)
    && (studentId, job.id) !in applications
  }

  function OpenJobs(db: Database, studentId: int, today: Date): seq<Job> {
    Filter(db.jobs, (j: Job) => OpenFor(j, studentId, db.applications, today))
  }

  /** A student the job may be matched with: active account, seeking a job, not applied to it. */
  predicate SeekingFor(student: StudentProfile, jobId: int, applications: set<(int, int)>) {
    student.userActive && student.seekingJob && (student.id, jobId) !in applications
  }

  function SeekingStudents(db: Database, jobId: int): seq<StudentProfile> {
    Filter(db.students, (s: StudentProfile) => SeekingFor(s, jobId, db.applications))
  }

  // ---------------------------------------------------------------------------
  // Ranking.
  // ---------------------------------------------------------------------------

  function ByOverall(r: MatchResult): real { r.overall }

  /** `matches.sort(key=overall_score, reverse=True)` followed by `matches[:limit]`. */
  function Ranked(matches: seq<MatchResult>, limit: int): seq<MatchResult> {
    Take(SortDesc(matches, ByOverall), limit)
  }

  /** A student's freshly computed list: the kept matches over the open jobs, ranked. */
  function StudentMatches(student: StudentProfile, jobs: seq<Job>, config: Config,
                          ai: (int, int) -> Option<AiAnalysis>, minScore: real, limit: int): seq<MatchResult> {
    Ranked(KeptRow(student, jobs, Matcher(config, ai), minScore), limit)
  }

  /** The kept results of the students against one job, in student order. */
  function KeptColumn(job: Job, students: seq<StudentProfile>, f: (StudentProfile, Job) -> MatchResult,
                      minScore: real): seq<MatchResult>
    decreases |students|
  {
    if |students| == 0 then []
    else KeptColumn(job, students[..|students| - 1], f, minScore)
         + When(f(students[|students| - 1], job).overall >= minScore, f(students[|students| - 1], job))
  }

  /** A job's freshly computed list: the kept matches over the seeking students, ranked. */
  function JobMatches(job: Job, students: seq<StudentProfile>, config: Config,
                      ai: (int, int) -> Option<AiAnalysis>, minScore: real, limit: int): seq<MatchResult> {
    Ranked(KeptColumn(job, students, Matcher(config, ai), minScore), limit)
  }

  /** Extending the students by one adds that student's result when it reaches the minimum, and its key. */
  lemma KeptColumnStep(job: Job, students: seq<StudentProfile>, i: int,
                       f: (StudentProfile, Job) -> MatchResult, minScore: real)
    requires 0 <= i < |students|
    ensures KeptColumn(job, students[..i + 1], f, minScore)
            == KeptColumn(job, students[..i], f, minScore) + When(f(students[i], job).overall >= minScore, f(students[i], job))
    ensures ColumnKeys(students[..i + 1], job.id) == ColumnKeys(students[..i], job.id) + {(students[i].id, job.id)}
  {
    assert students[..i + 1][..i] == students[..i];
  }

  /** The keys of the results of a list of students against one job. */
  function ColumnKeys(students: seq<StudentProfile>, jobId: int): set<(int, int)>
    decreases |students|
  {
    if |students| == 0 then {} else ColumnKeys(students[..|students| - 1], jobId) + {(students[|students| - 1].id, jobId)}
  }

  /** A ranked list is sorted, drawn from its input and no longer than the limit. */
  lemma RankedFacts(matches: seq<MatchResult>, limit: int)
    ensures SortedDesc(Ranked(matches, limit), ByOverall)
    ensures forall r :: r in Ranked(matches, limit) ==> r in matches
    ensures limit >= 0 ==> |Ranked(matches, limit)| <= limit
    ensures limit >= |matches| ==> multiset(Ranked(matches, limit)) == multiset(matches)
    ensures forall x, y :: x in multiset(matches) - multiset(Ranked(matches, limit)) && y in Ranked(matches, limit)
              ==> y.overall >= x.overall
  {
    var r := Ranked(matches, limit);
    TopEntries(matches, ByOverall, limit);
    forall x | x in r
      ensures x in matches
    {
      assert x in multiset(r);
    }
    forall x, y | x in multiset(matches) - multiset(r) && y in r
      ensures y.overall >= x.overall
    {
      assert ByOverall(y) >= ByOverall(x);
    }
  }

  /** Every stored match belongs to the pair it was computed for. */
  lemma MatcherPair(config: Config, ai: (int, int) -> Option<AiAnalysis>, student: StudentProfile, job: Job)
    ensures Matcher(config, ai)(student, job).studentId == student.id
    ensures Matcher(config, ai)(student, job).jobId == job.id
  {
    var r := ComputeMatch(student, job, config, ai(student.id, job.id));
    assert Matcher(config, ai)(student, job) == r;
  }

  /** A student's column entries: each is one seeking student's result, at or above the minimum. */
  lemma {:induction false} KeptColumnExact(job: Job, students: seq<StudentProfile>,
                                           f: (StudentProfile, Job) -> MatchResult, minScore: real)
    ensures forall r :: r in KeptColumn(job, students, f, minScore) <==>
      exists a :: 0 <= a < |students| && r == f(students[a], job) && r.overall >= minScore
    decreases |students|
  {
    if |students| > 0 {
      var init := students[..|students| - 1];
      KeptColumnExact(job, init, f, minScore);
      forall r
        ensures r in KeptColumn(job, students, f, minScore) <==>
          exists a :: 0 <= a < |students| && r == f(students[a], job) && r.overall >= minScore
      {
        if exists a :: 0 <= a < |students| && r == f(students[a], job) && r.overall >= minScore {
          var a :| 0 <= a < |students| && r == f(students[a], job) && r.overall >= minScore;
          if a < |students| - 1 {
            assert init[a] == students[a];
          }
        }
      }
    }
  }

  /** The column keys are exactly the listed students' pairs with the job. */
  lemma {:induction false} ColumnKeysHas(students: seq<StudentProfile>, jobId: int)
    ensures forall a :: 0 <= a < |students| ==> (students[a].id, jobId) in ColumnKeys(students, jobId)
    ensures forall key :: key in ColumnKeys(students, jobId) ==> key.1 == jobId && exists a :: 0 <= a < |students| && key.0 == students[a].id
    decreases |students|
  {
    if |students| > 0 {
      var init := students[..|students| - 1];
      ColumnKeysHas(init, jobId);
      forall key | key in ColumnKeys(students, jobId)
        ensures key.1 == jobId && exists a :: 0 <= a < |students| && key.0 == students[a].id
      {
        if key in ColumnKeys(init, jobId) {
          var a :| 0 <= a < |init| && key.0 == init[a].id;
          assert init[a] == students[a];
        }
      }
      forall a | 0 <= a < |students|
        ensures (students[a].id, jobId) in ColumnKeys(students, jobId)
      {
        if a < |students| - 1 {
          assert init[a] == students[a];
        }
      }
    }
  }

  // ---------------------------------------------------------------------------
  // The result cache.
  // ---------------------------------------------------------------------------

  /** `student_matches_{id}_{min_score}_{limit}` and `job_matches_{id}_{min_score}_{limit}`. */
  datatype CacheKey =
    | StudentKey(studentId: int, minScore: real, limit: int)
    | JobKey(jobId: int, minScore: real, limit: int)

  /** What every cached list satisfies: ranked, above its minimum, within its limit, about its owner. */
  predicate CacheEntryOk(k: CacheKey, v: seq<MatchResult>) {
    SortedDesc(v, ByOverall)
    && (forall r :: r in v ==> r.overall >= k.minScore)
    && (k.limit >= 0 ==> |v| <= k.limit)
    && (k.StudentKey? ==> forall r :: r in v ==> r.studentId == k.studentId)
    && (k.JobKey? ==> forall r :: r in v ==> r.jobId == k.jobId)
  }

  /** `if cached_results:` — an empty cached list is a miss. */
  predicate CacheHit(cache: map<CacheKey, seq<MatchResult>>, k: CacheKey) {
    k in cache && cache[k] != []
  }

  /** A freshly ranked student list may be cached under its key. */
  lemma StudentMatchesOk(student: StudentProfile, jobs: seq<Job>, config: Config,
                         ai: (int, int) -> Option<AiAnalysis>, minScore: real, limit: int)
    ensures CacheEntryOk(StudentKey(student.id, minScore, limit), StudentMatches(student, jobs, config, ai, minScore, limit))
  {
    var f := Matcher(config, ai);
    var row := KeptRow(student, jobs, f, minScore);
    RankedFacts(row, limit);
    KeptRowExact(student, jobs, f, minScore);
    forall r | r in Ranked(row, limit)
      ensures r.overall >= minScore && r.studentId == student.id
    {
      var b :| 0 <= b < |jobs| && r == f(student, jobs[b]) && r.overall >= minScore;
      MatcherPair(config, ai, student, jobs[b]);
    }
  }

  /** A freshly ranked job list may be cached under its key. */
  lemma JobMatchesOk(job: Job, students: seq<StudentProfile>, config: Config,
                     ai: (int, int) -> Option<AiAnalysis>, minScore: real, limit: int)
    ensures CacheEntryOk(JobKey(job.id, minScore, limit), JobMatches(job, students, config, ai, minScore, limit))
  {
    var f := Matcher(config, ai);
    var column := KeptColumn(job, students, f, minScore);
    RankedFacts(column, limit);
    KeptColumnExact(job, students, f, minScore);
    forall r | r in Ranked(column, limit)
      ensures r.overall >= minScore && r.jobId == job.id
    {
      var a :| 0 <= a < |students| && r == f(students[a], job) && r.overall >= minScore;
      MatcherPair(config, ai, students[a], job);
    }
  }

  /** A job the student has applied to is never scored for that student. */
  lemma AppliedJobsNotScored(db: Database, studentId: int, today: Date, key: (int, int))
    requires key in db.applications
    ensures key !in RowKeys(studentId, OpenJobs(db, studentId, today))
  {
    RowKeysHas(studentId, OpenJobs(db, studentId, today));
  }

  /** A student who has applied to the job is never scored for it. */
  lemma ApplicantsNotScored(db: Database, jobId: int, key: (int, int))
    requires key in db.applications
    ensures key !in ColumnKeys(SeekingStudents(db, jobId), jobId)
  {
    ColumnKeysHas(SeekingStudents(db, jobId), jobId);
  }

  // ---------------------------------------------------------------------------
  // The personalised recommendation.
  // ---------------------------------------------------------------------------

  /** How often one missing skill occurs across the matches, with the importance first seen. */
  datatype Gap = Gap(name: string, count: nat, importance: Importance)

  /** The ranking the sort gives importance: critical 3, important 2, nice to have 1. */
  function ImportanceRank(i: Importance): (r: int)
    ensures 1 <= r <= 3
  {
    match i
    case Critical => 3
    case Important => 2
    case NiceToHave => 1
  }

  function ImportanceName(i: Importance): string {
    match i
    case Critical => "critical"
    case Important => "important"
    case NiceToHave => "nice_to_have"
  }

  /** The sort key `(count, importance rank)`, encoded as one number. */
  function GapKey(g: Gap): real {
    (g.count * 4 + ImportanceRank(g.importance)) as real
  }

  /** The encoded key orders gaps as the pair (count, importance rank) does. */
  lemma GapKeyIsLexicographic(a: Gap, b: Gap)
    ensures GapKey(a) >= GapKey(b) <==>
      a.count > b.count || (a.count == b.count && ImportanceRank(a.importance) >= ImportanceRank(b.importance))
  {
  }

  /** The position of the gap named `name`, if any. */
  function GapIndex(gaps: seq<Gap>, name: string): (r: Option<nat>)
    ensures r.Some? ==> r.value < |gaps| && gaps[r.value].name == name
    ensures r.None? <==> forall k :: 0 <= k < |gaps| ==> gaps[k].name != name
    decreases |gaps|
  {
    if |gaps| == 0 then None
    else match GapIndex(gaps[..|gaps| - 1], name)
      case Some(k) => Some(k)
      case None => if gaps[|gaps| - 1].name == name then Some(|gaps| - 1) else None
  }

  /** One missing skill counted: a new entry with count 1, or the existing entry's count plus one. */
  function Bump(gaps: seq<Gap>, m: MissingSkill): seq<Gap> {
    match GapIndex(gaps, m.skillName)
    case Some(k) => gaps[k := gaps[k].(count := gaps[k].count + 1)]
    case None => gaps + [Gap(m.skillName, 1, m.importance)]
  }

  /** The `skill_gaps` dictionary after counting `missing`, in insertion order. */
  function Tally(missing: seq<MissingSkill>): seq<Gap>
    decreases |missing|
  {
    if |missing| == 0 then [] else Bump(Tally(missing[..|missing| - 1]), missing[|missing| - 1])
  }

  /** Every missing skill of every match, in match order. */
  function AllMissing(matches: seq<MatchResult>): seq<MissingSkill>
    decreases |matches|
  {
    if |matches| == 0 then [] else AllMissing(matches[..|matches| - 1]) + matches[|matches| - 1].details.missing
  }

  /** How many entries of `missing` name the skill. */
  function Occurrences(missing: seq<MissingSkill>, name: string): nat
    decreases |missing|
  {
    if |missing| == 0 then 0
    else Occurrences(missing[..|missing| - 1], name) + (if missing[|missing| - 1].skillName == name then 1 else 0)
  }

  /** The first entry of `missing` naming the skill. */
  function FirstNamed(missing: seq<MissingSkill>, name: string): (r: Option<MissingSkill>)
    ensures r.None? <==> Occurrences(missing, name) == 0
    ensures r.Some? ==> r.value in missing && r.value.skillName == name
    decreases |missing|
  {
    if |missing| == 0 then None
    else match FirstNamed(missing[..|missing| - 1], name)
      case Some(m) => Some(m)
      case None => if missing[|missing| - 1].skillName == name then Some(missing[|missing| - 1]) else None
  }

  /** Counting a skill keeps every entry's name and appends at most the new name. */
  lemma BumpNames(gaps: seq<Gap>, m: MissingSkill)
    ensures |gaps| <= |Bump(gaps, m)| <= |gaps| + 1
    ensures forall k :: 0 <= k < |gaps| ==> Bump(gaps, m)[k].name == gaps[k].name
    ensures |Bump(gaps, m)| == |gaps| + 1 <==> GapIndex(gaps, m.skillName).None?
    ensures |Bump(gaps, m)| == |gaps| + 1 ==> Bump(gaps, m)[|gaps|] == Gap(m.skillName, 1, m.importance)
  {
  }

  predicate UniqueNames(gaps: seq<Gap>) {
    forall i, j :: 0 <= i < j < |gaps| ==> gaps[i].name != gaps[j].name
  }

  /**
   * The tally holds one entry per missing skill name; its count is the number of
   * occurrences and its importance is that of the first occurrence.
   */
  lemma TallyCounts(missing: seq<MissingSkill>)
    ensures UniqueNames(Tally(missing))
    ensures forall name :: GapIndex(Tally(missing), name).Some? <==> Occurrences(missing, name) > 0
    ensures forall g :: g in Tally(missing) ==>
      g.count == Occurrences(missing, g.name)
      && FirstNamed(missing, g.name).Some? && g.importance == FirstNamed(missing, g.name).value.importance
  {
    TallyUnique(missing);
    TallyPresent(missing);
    TallyEntries(missing);
  }

  /** No skill name has two entries. */
  lemma {:induction false} TallyUnique(missing: seq<MissingSkill>)
    ensures UniqueNames(Tally(missing))
    decreases |missing|
  {
    if |missing| > 0 {
      var init := missing[..|missing| - 1];
      TallyUnique(init);
      BumpNames(Tally(init), missing[|missing| - 1]);
    }
  }

  /** A skill name has an entry exactly when some missing skill carries it. */
  lemma {:induction false} TallyPresent(missing: seq<MissingSkill>)
    ensures forall name :: GapIndex(Tally(missing), name).Some? <==> Occurrences(missing, name) > 0
    decreases |missing|
  {
    if |missing| > 0 {
      var init := missing[..|missing| - 1];
      var m := missing[|missing| - 1];
      var before := Tally(init);
      TallyPresent(init);
      var after := Tally(missing);
      assert after == Bump(before, m);
      BumpNames(before, m);
      forall name
        ensures GapIndex(after, name).Some? <==> Occurrences(missing, name) > 0
      {
        if name == m.skillName {
          match GapIndex(before, name)
          case Some(i) => assert after[i].name == name;
          case None => assert after[|before|].name == name;
        } else {
          if GapIndex(after, name).Some? {
            var k := GapIndex(after, name).value;
            assert before[k].name == name;
          }
          if GapIndex(before, name).Some? {
            var k := GapIndex(before, name).value;
            assert after[k].name == name;
          }
        }
      }
    }
  }

  /** Each entry holds its skill's number of occurrences and the importance first seen. */
  lemma TallyEntries(missing: seq<MissingSkill>)
    ensures forall g :: g in Tally(missing) ==>
      g.count == Occurrences(missing, g.name)
      && FirstNamed(missing, g.name).Some? && g.importance == FirstNamed(missing, g.name).value.importance
  {
    forall g | g in Tally(missing)
      ensures g.count == Occurrences(missing, g.name)
      ensures FirstNamed(missing, g.name).Some? && g.importance == FirstNamed(missing, g.name).value.importance
    {
      var k :| 0 <= k < |Tally(missing)| && Tally(missing)[k] == g;
      TallyEntry(missing, k);
    }
  }

  /** The entry at one position, followed back through the counting. */
  lemma {:induction false} TallyEntry(missing: seq<MissingSkill>, k: nat)
    requires k < |Tally(missing)|
    ensures var g := Tally(missing)[k];
      g.count == Occurrences(missing, g.name)
      && FirstNamed(missing, g.name).Some? && g.importance == FirstNamed(missing, g.name).value.importance
    decreases |missing|
  {
    var init := missing[..|missing| - 1];
    var m := missing[|missing| - 1];
    var before := Tally(init);
    var after := Tally(missing);
    assert after == Bump(before, m);
    BumpNames(before, m);
    match GapIndex(before, m.skillName)
    case Some(i) =>
      TallyEntry(init, k);
      if k != i {
        TallyUnique(init);
        assert after[k] == before[k];
      }
    case None =>
      if k < |before| {
        TallyEntry(init, k);
        assert after[k] == before[k];
      } else {
        TallyPresent(init);
      }
  }

  /** The learning priority of a recommended skill. */
  datatype Priority = High | Medium

  /** One entry of `job_recommendations`. */
  datatype JobRecommendation = JobRecommendation(jobId: int, jobTitle: string, matchScore: real, reason: string)

  /** One entry of `skill_recommendations`. */
  datatype SkillRecommendation = SkillRecommendation(skillName: string, importance: Importance, demandCount: nat, priority: Priority)

  /** A `RecommendationItem`: a job, a skill to learn, or the `index`-th career advice. */
  datatype RecItem =
    | JobItem(job: JobRecommendation)
    | SkillItem(skill: SkillRecommendation)
    | AdviceItem(index: nat, advice: string)

  /** The stored recommendation of one student. */
  datatype Recommendation = Recommendation(confidence: real, generatedAt: DateTime, items: seq<RecItem>)

  const AdviceHigh: string := "您的技能匹配度很高，建议积极申请心仪职位"
  const AdviceGood: string := "您具备良好的基础，建议针对性提升关键技能"
  const AdviceWeak: string := "建议重点学习市场需求技能，提升竞争力"

  /** `', '.join(reasons[:2])` with each reason rendered. */
  function ReasonLine(reasons: seq<Reason>): string {
    var first := Take(reasons, 2);
    Join(", ", seq(|first|, i requires 0 <= i < |first| => ReasonText(first[i])))
  }

  function JobRecommendationOf(m: MatchResult, jobs: seq<Job>): JobRecommendation {
    var title := match FindJob(jobs, m.jobId) case Some(j) => j.title case None => "";
    JobRecommendation(m.jobId, title, m.overall, ReasonLine(m.reasons))
  }

  function PriorityOf(i: Importance): (r: Priority)
    ensures r == High <==> i == Critical
  {
    if i == Critical then High else Medium
  }

  function SkillRecommendationOf(g: Gap): SkillRecommendation {
    SkillRecommendation(g.name, g.importance, g.count, PriorityOf(g.importance))
  }

  /** The five most frequent gaps, by (count, importance rank), ties in first-seen order. */
  function TopGaps(matches: seq<MatchResult>): seq<Gap> {
    Take(SortDesc(Tally(AllMissing(matches)), GapKey), 5)
  }

  function SumOverall(matches: seq<MatchResult>): real
    decreases |matches|
  {
    if |matches| == 0 then 0.0 else SumOverall(matches[..|matches| - 1]) + matches[|matches| - 1].overall
  }

  function AverageOverall(matches: seq<MatchResult>): real
    requires |matches| > 0
  {
    SumOverall(matches) / |matches| as real
  }

  /** `career_advice`: the band message, then the top skill to learn when there is one. */
  function CareerAdvice(average: real, skills: seq<SkillRecommendation>): (r: seq<string>)
    ensures 1 <= |r| <= 2 && (|r| == 2 <==> |skills| > 0)
  {
    [if average >= 85.0 then AdviceHigh else if average >= 70.0 then AdviceGood else AdviceWeak]
    + (if |skills| > 0 then ["建议优先学习 " + skills[0].skillName + "，这是当前市场的热门技能"] else [])
  }

  /** The rebuilt items: the jobs, then the skills, then the numbered advice. */
  function Items(jobs: seq<JobRecommendation>, skills: seq<SkillRecommendation>, advice: seq<string>): seq<RecItem> {
    seq(|jobs|, i requires 0 <= i < |jobs| => JobItem(jobs[i]))
    + seq(|skills|, i requires 0 <= i < |skills| => SkillItem(skills[i]))
    + seq(|advice|, i requires 0 <= i < |advice| => AdviceItem(i, advice[i]))
  }

  /** The `score` a recommendation item is stored with. */
  function ItemScore(item: RecItem): real {
    match item
    case JobItem(j) => j.matchScore
    case SkillItem(s) => (s.demandCount * 10) as real
    case AdviceItem(i, _) => (90 - i * 5) as real
  }

  /** The item title. */
  function ItemTitle(item: RecItem): string {
    match item
    case JobItem(j) => j.jobTitle
    case SkillItem(s) => "学习 " + s.skillName
    case AdviceItem(i, _) => "职业建议 " + NatToString(i + 1)
  }

  /** The item description. */
  function ItemDescription(item: RecItem): string {
    match item
    case JobItem(j) => j.reason
    case SkillItem(s) => "重要性: " + ImportanceName(s.importance) + ", 需求度: " + NatToString(s.demandCount) + " 个职位"
    case AdviceItem(_, a) => a
  }

  function JobRecommendations(matches: seq<MatchResult>, jobs: seq<Job>): seq<JobRecommendation> {
    var top := Take(matches, 5);
    seq(|top|, i requires 0 <= i < |top| => JobRecommendationOf(top[i], jobs))
  }

  function SkillRecommendations(matches: seq<MatchResult>): seq<SkillRecommendation> {
    var top := TopGaps(matches);
    seq(|top|, i requires 0 <= i < |top| => SkillRecommendationOf(top[i]))
  }

  /**
   * The recommendation `generate_student_recommendations` stores for the
   * matches it found, or None when there are none.
   */
  function Recommend(matches: seq<MatchResult>, jobs: seq<Job>, now: DateTime): (r: Option<Recommendation>)
    ensures r.None? <==> |matches| == 0
  {
    if |matches| == 0 then None
    else
      var average := AverageOverall(matches);
      var skills := SkillRecommendations(matches);
      Some(Recommendation(Min(average, 95.0), now,
                          Items(JobRecommendations(matches, jobs), skills, CareerAdvice(average, skills))))
  }

  /** The matches `generate_student_recommendations` asks for: at least 70, at most 10. */
  const RecommendMinScore: real := 70.0
  const RecommendLimit: int := 10

  /** The loop building `job_recommendations` from the first five matches. */
  method BuildJobRecommendations(matches: seq<MatchResult>, jobs: seq<Job>) returns (recs: seq<JobRecommendation>)
    ensures recs == JobRecommendations(matches, jobs)
    ensures |recs| == if |matches| < 5 then |matches| else 5
    ensures forall i :: 0 <= i < |recs| ==>
      recs[i].jobId == matches[i].jobId && recs[i].matchScore == matches[i].overall
  {
    var top := Take(matches, 5);
    recs := [];
    var i := 0;
    while i < |top|
      invariant 0 <= i <= |top|
      invariant recs == seq(i, k requires 0 <= k < i => JobRecommendationOf(top[k], jobs))
    {
      recs := recs + [JobRecommendationOf(top[i], jobs)];
      i := i + 1;
    }
  }

  lemma TallyAppend(counted: seq<MissingSkill>, m: MissingSkill)
    ensures Tally(counted + [m]) == Bump(Tally(counted), m)
  {
    var all := counted + [m];
    assert all[..|all| - 1] == counted;
  }

  lemma TallyStep(done: seq<MissingSkill>, missing: seq<MissingSkill>, j: int)
    requires 0 <= j < |missing|
    ensures Tally(done + missing[..j + 1]) == Bump(Tally(done + missing[..j]), missing[j])
  {
    assert done + missing[..j + 1] == (done + missing[..j]) + [missing[j]];
    TallyAppend(done + missing[..j], missing[j]);
  }

  lemma AllMissingStep(matches: seq<MatchResult>, i: int)
    requires 0 <= i < |matches|
    ensures AllMissing(matches[..i + 1]) == AllMissing(matches[..i]) + matches[i].details.missing
  {
    assert matches[..i + 1][..i] == matches[..i];
  }

  /** One missing skill counted in place: a new entry starts at 0, then the entry's count goes up by one. */
  method CountMissing(gaps: seq<Gap>, m: MissingSkill) returns (r: seq<Gap>)
    ensures r == Bump(gaps, m)
  {
    r := gaps;
    var k := GapIndex(r, m.skillName);
    if k.None? {
      r := r + [Gap(m.skillName, 0, m.importance)];
      k := Some(|r| - 1);
    }
    r := r[k.value := r[k.value].(count := r[k.value].count + 1)];
  }

  /** The loop counting `skill_gaps` over every missing skill of every match. */
  method TallyGaps(matches: seq<MatchResult>) returns (gaps: seq<Gap>)
    ensures gaps == Tally(AllMissing(matches))
  {
    gaps := [];
    var i := 0;
    while i < |matches|
      invariant 0 <= i <= |matches|
      invariant gaps == Tally(AllMissing(matches[..i]))
    {
      var missing := matches[i].details.missing;
      ghost var done := AllMissing(matches[..i]);
      var j := 0;
      assert done + missing[..0] == done;
      while j < |missing|
        invariant 0 <= j <= |missing|
        invariant gaps == Tally(done + missing[..j])
      {
        gaps := CountMissing(gaps, missing[j]);
        TallyStep(done, missing, j);
        j := j + 1;
      }
      assert missing[..|missing|] == missing;
      AllMissingStep(matches, i);
      i := i + 1;
    }
    assert matches[..|matches|] == matches;
  }

  /** The loop building `skill_recommendations` from the top gaps. */
  method BuildSkillRecommendations(top: seq<Gap>) returns (recs: seq<SkillRecommendation>)
    ensures |recs| == |top|
    ensures forall i :: 0 <= i < |recs| ==> recs[i] == SkillRecommendationOf(top[i])
  {
    recs := [];
    var i := 0;
    while i < |top|
      invariant 0 <= i <= |top|
      invariant |recs| == i && forall k :: 0 <= k < i ==> recs[k] == SkillRecommendationOf(top[k])
    {
      recs := recs + [SkillRecommendationOf(top[i])];
      i := i + 1;
    }
  }

  /** The loops building the new `RecommendationItem` rows, in the order they are created. */
  method BuildItems(jobs: seq<JobRecommendation>, skills: seq<SkillRecommendation>, advice: seq<string>)
    returns (items: seq<RecItem>)
    ensures items == Items(jobs, skills, advice)
  {
    items := [];
    var i := 0;
    while i < |jobs|
      invariant 0 <= i <= |jobs|
      invariant items == seq(i, k requires 0 <= k < i => JobItem(jobs[k]))
    {
      items := items + [JobItem(jobs[i])];
      i := i + 1;
    }
    ghost var jobItems := items;
    i := 0;
    while i < |skills|
      invariant 0 <= i <= |skills|
      invariant items == jobItems + seq(i, k requires 0 <= k < i => SkillItem(skills[k]))
    {
      items := items + [SkillItem(skills[i])];
      i := i + 1;
    }
    ghost var skillItems := items;
    i := 0;
    while i < |advice|
      invariant 0 <= i <= |advice|
      invariant items == skillItems + seq(i, k requires 0 <= k < i => AdviceItem(k, advice[k]))
    {
      items := items + [AdviceItem(i, advice[i])];
      i := i + 1;
    }
  }

  /** A sum of scores that are each at least `lo` is at least `lo` times their number. */
  lemma {:induction false} SumAtLeast(matches: seq<MatchResult>, lo: real)
    requires forall m :: m in matches ==> m.overall >= lo
    ensures SumOverall(matches) >= lo * |matches| as real
    decreases |matches|
  {
    if |matches| > 0 {
      var init := matches[..|matches| - 1];
      assert forall m :: m in init ==> m in matches;
      SumAtLeast(init, lo);
      assert lo * |matches| as real == lo * |init| as real + lo;
    }
  }

  /** Scores that all reach 70 average at least 70. */
  lemma AverageAtLeast(matches: seq<MatchResult>)
    requires |matches| > 0
    requires forall m :: m in matches ==> m.overall >= RecommendMinScore
    ensures AverageOverall(matches) >= RecommendMinScore
  {
    SumAtLeast(matches, RecommendMinScore);
    QuotientCompare(SumOverall(matches), |matches| as real, RecommendMinScore);
  }

  /**
   * Given matches that all reach 70, as `find_matches_for_student` returns them
   * here, the confidence lies in [70, 95] and the first advice is never the
   * weakest one: the third advice band cannot be reached.
   */
  lemma RecommendationBounds(matches: seq<MatchResult>, jobs: seq<Job>, now: DateTime)
    requires |matches| > 0
    requires forall m :: m in matches ==> m.overall >= RecommendMinScore
    ensures 70.0 <= Recommend(matches, jobs, now).value.confidence <= 95.0
    ensures CareerAdvice(AverageOverall(matches), SkillRecommendations(matches))[0] != AdviceWeak
  {
    AverageAtLeast(matches);
  }

  /** Every job item scores its match and every advice item scores 90 minus 5 per position. */
  lemma ItemScores(jobs: seq<JobRecommendation>, skills: seq<SkillRecommendation>, advice: seq<string>)
    ensures |Items(jobs, skills, advice)| == |jobs| + |skills| + |advice|
    ensures forall i :: 0 <= i < |jobs| ==> ItemScore(Items(jobs, skills, advice)[i]) == jobs[i].matchScore
    ensures forall i :: 0 <= i < |skills| ==>
      ItemScore(Items(jobs, skills, advice)[|jobs| + i]) == (skills[i].demandCount * 10) as real
    ensures forall i :: 0 <= i < |advice| ==>
      ItemScore(Items(jobs, skills, advice)[|jobs| + |skills| + i]) == (90 - 5 * i) as real
  {
  }

  /** The five best gaps of a tally with distinct names: distinct names, best first, none left out ranked higher. */
  lemma TopOfUnique(gaps: seq<Gap>)
    requires UniqueNames(gaps)
    ensures |Take(SortDesc(gaps, GapKey), 5)| <= 5
    ensures forall g :: g in Take(SortDesc(gaps, GapKey), 5) ==> g in gaps
    ensures forall i, j :: 0 <= i < j < |Take(SortDesc(gaps, GapKey), 5)| ==>
      Take(SortDesc(gaps, GapKey), 5)[i].name != Take(SortDesc(gaps, GapKey), 5)[j].name
    ensures SortedDesc(Take(SortDesc(gaps, GapKey), 5), GapKey)
    ensures forall g, t :: g in multiset(gaps) - multiset(Take(SortDesc(gaps, GapKey), 5)) && t in Take(SortDesc(gaps, GapKey), 5)
              ==> GapKey(t) >= GapKey(g)
  {
    var top := Take(SortDesc(gaps, GapKey), 5);
    TopEntries(gaps, GapKey, 5);
    forall g | g in top
      ensures g in gaps
    {
      assert g in multiset(top);
    }
    forall i, j | 0 <= i < j < |top|
      ensures top[i].name != top[j].name
    {
      DistinctNamesInSubset(gaps, top, i, j);
    }
  }

  /** The top gaps: at most five entries of the tally, with distinct names, best first. */
  lemma TopGapsRanked(matches: seq<MatchResult>)
    ensures |TopGaps(matches)| <= 5
    ensures forall g :: g in TopGaps(matches) ==> g in Tally(AllMissing(matches))
    ensures forall i, j :: 0 <= i < j < |TopGaps(matches)| ==> TopGaps(matches)[i].name != TopGaps(matches)[j].name
    ensures SortedDesc(TopGaps(matches), GapKey)
    ensures forall g, t :: g in multiset(Tally(AllMissing(matches))) - multiset(TopGaps(matches)) && t in TopGaps(matches)
              ==> GapKey(t) >= GapKey(g)
  {
    TallyCounts(AllMissing(matches));
    TopOfUnique(Tally(AllMissing(matches)));
  }

  /** At most five gaps are kept, each one of the tallied gaps. */
  lemma TopGapsTallied(matches: seq<MatchResult>)
    ensures |TopGaps(matches)| <= 5
    ensures forall g :: g in TopGaps(matches) ==> g in Tally(AllMissing(matches))
  {
    TopGapsRanked(matches);
  }

  /** Each tallied gap was seen at least once, with its count and first importance. */
  lemma TalliedGap(all: seq<MissingSkill>, g: Gap)
    requires g in Tally(all)
    ensures g.count == Occurrences(all, g.name) > 0
    ensures FirstNamed(all, g.name).Some? && g.importance == FirstNamed(all, g.name).value.importance
  {
    TallyCounts(all);
    var gaps := Tally(all);
    assert GapIndex(gaps, g.name).Some?;
  }

  /**
   * The skill recommendations: one per top gap, each with the number of
   * occurrences of the skill among the missing skills and the importance first
   * seen, and priority high exactly for critical skills.
   */
  lemma SkillRecommendationsCounted(matches: seq<MatchResult>)
    ensures |SkillRecommendations(matches)| == |TopGaps(matches)| <= 5
    ensures forall i :: 0 <= i < |SkillRecommendations(matches)| ==>
      SkillRecommendations(matches)[i].skillName == TopGaps(matches)[i].name
    ensures forall r :: r in SkillRecommendations(matches) ==>
      r.demandCount == Occurrences(AllMissing(matches), r.skillName) > 0
      && FirstNamed(AllMissing(matches), r.skillName).Some?
      && r.importance == FirstNamed(AllMissing(matches), r.skillName).value.importance
      && (r.priority == High <==> r.importance == Critical)
  {
    TopGapsTallied(matches);
    RecommendationsCounted(matches);
  }

  /** A recommendation carries its skill's demand and first importance, and is high priority exactly for a critical skill. */
  predicate CountedRecommendation(all: seq<MissingSkill>, r: SkillRecommendation) {
    && r.demandCount == Occurrences(all, r.skillName) > 0
    && FirstNamed(all, r.skillName).Some?
    && r.importance == FirstNamed(all, r.skillName).value.importance
    && (r.priority == High <==> r.importance == Critical)
  }

  lemma RecommendationsCounted(matches: seq<MatchResult>)
    requires forall g :: g in TopGaps(matches) ==> g in Tally(AllMissing(matches))
    ensures forall r :: r in SkillRecommendations(matches) ==> CountedRecommendation(AllMissing(matches), r)
  {
    var recs := SkillRecommendations(matches);
    forall i | 0 <= i < |recs|
      ensures CountedRecommendation(AllMissing(matches), recs[i])
    {
      RecommendationCounted(matches, i);
    }
  }

  /** The recommendation at one position, from the tallied gap at that position. */
  lemma RecommendationCounted(matches: seq<MatchResult>, i: nat)
    requires i < |TopGaps(matches)|
    requires forall g :: g in TopGaps(matches) ==> g in Tally(AllMissing(matches))
    ensures i < |SkillRecommendations(matches)|
    ensures CountedRecommendation(AllMissing(matches), SkillRecommendations(matches)[i])
  {
    var top := TopGaps(matches);
    assert SkillRecommendations(matches)[i] == SkillRecommendationOf(top[i]);
    TalliedGap(AllMissing(matches), top[i]);
  }

  /** Two positions of a sub-multiset of a list with unique names hold different names. */
  lemma DistinctNamesInSubset(gaps: seq<Gap>, top: seq<Gap>, i: int, j: int)
    requires UniqueNames(gaps) && multiset(top) <= multiset(gaps)
    requires 0 <= i < j < |top|
    ensures top[i].name != top[j].name
  {
    if top[i].name == top[j].name {
      assert top[i] in multiset(gaps) && top[j] in multiset(gaps);
      var a :| 0 <= a < |gaps| && gaps[a] == top[i];
      var b :| 0 <= b < |gaps| && gaps[b] == top[j];
      assert a == b;
      assert top[i] == top[j];
      assert multiset(top)[top[i]] >= 2 by {
        var rest := top[..i] + top[i + 1..];
        assert top == top[..i] + [top[i]] + top[i + 1..];
        assert top[j] in rest by {
          assert rest[j - 1] == top[j];
        }
        assert multiset(top) == multiset(rest) + multiset{top[i]};
      }
      assert multiset(gaps)[top[i]] >= 2;
      MultiplicityOfUnique(gaps, a);
      assert false;
    }
  }

  /** In a list with unique names an entry occurs once. */
  lemma MultiplicityOfUnique(gaps: seq<Gap>, a: int)
    requires UniqueNames(gaps) && 0 <= a < |gaps|
    ensures multiset(gaps)[gaps[a]] == 1
  {
    var g := gaps[a];
    assert gaps == gaps[..a] + [g] + gaps[a + 1..];
    assert g !in gaps[..a];
    assert g !in gaps[a + 1..];
    assert multiset(gaps) == multiset(gaps[..a]) + multiset{g} + multiset(gaps[a + 1..]);
  }

  /** The body of `generate_student_recommendations` once matches were found. */
  method BuildRecommendation(matches: seq<MatchResult>, jobs: seq<Job>, now: DateTime) returns (rec: Recommendation)
    requires |matches| > 0
    ensures Some(rec) == Recommend(matches, jobs, now)
  {
    var jobRecs := BuildJobRecommendations(matches, jobs);
    var gaps := TallyGaps(matches);
    var skills := BuildSkillRecommendations(Take(SortDesc(gaps, GapKey), 5));
    assert skills == SkillRecommendations(matches);
    var average := SumOverall(matches) / |matches| as real;
    var advice := CareerAdvice(average, skills);
    var items := BuildItems(jobRecs, skills, advice);
    rec := Recommendation(Min(average, 95.0), now, items);
  }

  // ---------------------------------------------------------------------------
  // The service.
  // ---------------------------------------------------------------------------

  /** `MatchingService`, with the result cache and the stored recommendations, one per student. */
  class MatchingService {
    const store: MatchStore
    var cache: map<CacheKey, seq<MatchResult>>
    var recommendations: map<int, Recommendation>

    ghost predicate Valid()
      reads this
    {
      forall k :: k in cache ==> CacheEntryOk(k, cache[k])
    }

    constructor (store: MatchStore)
      ensures this.store == store && cache == map[] && recommendations == map[]
      ensures Valid()
    {
      this.store := store;
      cache := map[];
      recommendations := map[];
    }

    /**
     * `find_matches_for_student`: [] for an unknown student; the cached list on
     * a hit; otherwise every open job is scored and the kept results ranked and
     * cached.
     */
    method FindMatchesForStudent(db: Database, studentId: int, today: Date, config: Config,
                                 ai: (int, int) -> Option<AiAnalysis>, minScore: real, limit: int)
      returns (r: seq<MatchResult>)
      requires Valid()
      modifies this, store
      ensures Valid() && recommendations == old(recommendations)
      ensures CacheEntryOk(StudentKey(studentId, minScore, limit), r)
      ensures FindStudent(db.students, studentId).None? ==> r == [] && cache == old(cache) && unchanged(store)
      ensures FindStudent(db.students, studentId).Some? && CacheHit(old(cache), StudentKey(studentId, minScore, limit)) ==>
        r == old(cache)[StudentKey(studentId, minScore, limit)] && cache == old(cache) && unchanged(store)
      ensures FindStudent(db.students, studentId).Some? && !CacheHit(old(cache), StudentKey(studentId, minScore, limit)) ==>
        r == StudentMatches(FindStudent(db.students, studentId).value, OpenJobs(db, studentId, today), config, ai, minScore, limit)
        && cache == old(cache)[StudentKey(studentId, minScore, limit) := r]
        && RowKeys(studentId, OpenJobs(db, studentId, today)) <= store.results.Keys
      ensures SameOutside(store.results, old(store.results), RowKeys(studentId, OpenJobs(db, studentId, today)))
    {
      var found := FindStudent(db.students, studentId);
      if found.None? {
        return [];
      }
      var student := found.value;
      var open := OpenJobs(db, studentId, today);
      var key := StudentKey(studentId, minScore, limit);
      if key in cache && cache[key] != [] {
        return cache[key];
      }
      var matches := store.MatchStudent(student, open, config, ai, minScore);
      r := Ranked(matches, limit);
      StudentMatchesOk(student, open, config, ai, minScore, limit);
      cache := cache[key := r];
    }

    /** The loop of `find_matches_for_job`: each student against the job, keeping those at or above `minScore`. */
    method ScoreStudents(job: Job, students: seq<StudentProfile>, config: Config,
                         ai: (int, int) -> Option<AiAnalysis>, minScore: real)
      returns (matches: seq<MatchResult>)
      modifies store
      ensures matches == KeptColumn(job, students, Matcher(config, ai), minScore)
      ensures ColumnKeys(students, job.id) <= store.results.Keys
      ensures SameOutside(store.results, old(store.results), ColumnKeys(students, job.id))
    {
      ghost var f := Matcher(config, ai);
      matches := [];
      var i := 0;
      while i < |students|
        invariant 0 <= i <= |students|
        invariant matches == KeptColumn(job, students[..i], f, minScore)
        invariant ColumnKeys(students[..i], job.id) <= store.results.Keys
        invariant SameOutside(store.results, old(store.results), ColumnKeys(students[..i], job.id))
      {
        KeptColumnStep(job, students, i, f, minScore);
        var m := store.MatchPair(students[i], job, config, ai);
        if m.overall >= minScore {
          matches := matches + [m];
        }
        i := i + 1;
      }
      assert students[..|students|] == students;
    }

    /**
     * `find_matches_for_job`: [] for an unknown job; the cached list on a hit;
     * otherwise every seeking student is scored and the kept results ranked
     * and cached.
     */
    method FindMatchesForJob(db: Database, jobId: int, config: Config,
                             ai: (int, int) -> Option<AiAnalysis>, minScore: real, limit: int)
      returns (r: seq<MatchResult>)
      requires Valid()
      modifies this, store
      ensures Valid() && recommendations == old(recommendations)
      ensures CacheEntryOk(JobKey(jobId, minScore, limit), r)
      ensures FindJob(db.jobs, jobId).None? ==> r == [] && cache == old(cache) && unchanged(store)
      ensures FindJob(db.jobs, jobId).Some? && CacheHit(old(cache), JobKey(jobId, minScore, limit)) ==>
        r == old(cache)[JobKey(jobId, minScore, limit)] && cache == old(cache) && unchanged(store)
      ensures FindJob(db.jobs, jobId).Some? && !CacheHit(old(cache), JobKey(jobId, minScore, limit)) ==>
        r == JobMatches(FindJob(db.jobs, jobId).value, SeekingStudents(db, jobId), config, ai, minScore, limit)
        && cache == old(cache)[JobKey(jobId, minScore, limit) := r]
        && ColumnKeys(SeekingStudents(db, jobId), jobId) <= store.results.Keys
      ensures SameOutside(store.results, old(store.results), ColumnKeys(SeekingStudents(db, jobId), jobId))
    {
      var found := FindJob(db.jobs, jobId);
      if found.None? {
        return [];
      }
      var job := found.value;
      var students := SeekingStudents(db, jobId);
      var key := JobKey(jobId, minScore, limit);
      if key in cache && cache[key] != [] {
        return cache[key];
      }
      var matches := ScoreStudents(job, students, config, ai, minScore);
      r := Ranked(matches, limit);
      JobMatchesOk(job, students, config, ai, minScore, limit);
      cache := cache[key := r];
    }

    /**
     * `generate_student_recommendations`: None for an unknown student or when
     * no match reaches 70 among the top ten; otherwise the student's single
     * recommendation is stored, its old items replaced by the rebuilt ones.
     * `matches` is the list the lookup returned.
     */
    method GenerateStudentRecommendations(db: Database, studentId: int, today: Date, now: DateTime, config: Config,
                                          ai: (int, int) -> Option<AiAnalysis>)
      returns (rec: Option<Recommendation>, ghost matches: seq<MatchResult>)
      requires Valid()
      modifies this, store
      ensures Valid()
      ensures FindStudent(db.students, studentId).None? ==> rec.None? && unchanged(store) && cache == old(cache)
      ensures FindStudent(db.students, studentId).Some? ==> rec == Recommend(matches, db.jobs, now)
      ensures FindStudent(db.students, studentId).Some? && CacheHit(old(cache), StudentKey(studentId, RecommendMinScore, RecommendLimit)) ==>
        matches == old(cache)[StudentKey(studentId, RecommendMinScore, RecommendLimit)]
      ensures FindStudent(db.students, studentId).Some? && !CacheHit(old(cache), StudentKey(studentId, RecommendMinScore, RecommendLimit)) ==>
        matches == StudentMatches(FindStudent(db.students, studentId).value, OpenJobs(db, studentId, today), config, ai,
                                  RecommendMinScore, RecommendLimit)
      ensures CacheEntryOk(StudentKey(studentId, RecommendMinScore, RecommendLimit), matches)
      ensures recommendations == if rec.Some? then old(recommendations)[studentId := rec.value] else old(recommendations)
    {
      var found := FindStudent(db.students, studentId);
      if found.None? {
        return None, [];
      }
      var m := FindMatchesForStudent(db, studentId, today, config, ai, RecommendMinScore, RecommendLimit);
      matches := m;
      if |m| == 0 {
        return None, m;
      }
      var built := BuildRecommendation(m, db.jobs, now);
      rec := Some(built);
      recommendations := recommendations[studentId := rec.value];
    }
  }
}
