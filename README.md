# Recruitment platform core, modelled and proved in Dafny

This project models the core of a Django recruitment platform that matches
students with jobs. It covers:

- **The matching engine.** Skill, experience, education and location scores
  are combined into a weighted overall score, together with the
  recommendation reasons and improvement suggestions derived from them. It
  also covers batch matching, the result levels, the algorithm
  configuration, the batch-job status transitions, the matching service
  (filter, sort and limit; the student recommendation with its skill-gap
  tally, advice and rebuilt items) and the matching request serializers.
- **The line-oriented parsers of AI replies.** These are the job-description
  parser of the job views, the parser of the automatic job uploader with its
  file checks, and the résumé parser of the AI résumé service.
- **The error handler.** This is the bounded error history with per-key
  counters and the summary, the retry loop, the circuit breaker, recovery
  strategies and the combined handler.
- **The log analyzer.** It parses log lines, groups multi-line entries, and
  produces the error-pattern, AI-performance, summary and
  processing-performance reports.
- **The CRUD layer.** This covers:
  - job validators and the job create and update;
  - the category path, the salary display and the view counter;
  - profile completion percentages;
  - application statuses with their status history, interview scores,
    application statistics and the bulk status update;
  - the user, login, password and résumé validators.

Scores are exact `real`s, so bounds, case splits and orderings are proved
exactly; `round(x, n)` is decimal rounding, half to even, on exact values.
Database tables become `map`s or `seq`s held by classes whose methods update
them in place. The clock, the AI service and other outside answers become
parameters. Loops of the source are methods with loop invariants. Each one
is proved equal to a specification function, and the properties are lemmas
about those functions.

The files follow the source's structure. `matching_*.dfy` cover the matching
package. `job_ai_parser.dfy`, `upload_parser.dfy` and `resume_parser.dfy`
cover the three parsers. `line_values.dfy` holds their shared value
extraction. `error_handling.dfy`, `log_analysis.dfy` and `log_reports.dfy`
cover the two utilities. `job_*.dfy`, `application_*.dfy`,
`profile_completion.dfy`, `user_serializers.dfy` and `resume_serializers.dfy`
cover the CRUD layer. `common.dfy`, `strings.dfy`, `dates.dfy`,
`numbers.dfy`, `sequences.dfy`, `counters.dfy` and `user_models.dfy` hold
the shared helpers and the user enumerations.

## Model

| member | source | states |
|---|---|---|
| MatchingAlgorithms.ProficiencyWeight | backend/matching/algorithms.py:24-29 | each proficiency weight lies in [0.3, 1.0] |
| MatchingAlgorithms.ImportanceWeight | backend/matching/algorithms.py:31-35 | each importance weight lies in [1, 3] |
| MatchingAlgorithms.Lookup | backend/matching/algorithms.py:40-46 | a student skill of that name is found iff some skill row carries the name, and the one found is such a row |
| MatchingAlgorithms.SkillScore | backend/matching/algorithms.py:156-160 | the score is at most 100, is 0 when the largest possible total is not positive, and otherwise below the cap equals total/maximum × 100 |
| MatchingAlgorithms.SkillMatch | backend/matching/algorithms.py:38-170 | the skill-match record of a student for a job, defined by the required and the preferred pass over the rows; its score, lists and counts are proved in SkillScoreBounds, MissingEntriesUnheld, BonusEntriesHeldNotRequired and FullyQualifiedScoresHundred |
| MatchingAlgorithms.CalculateSkillMatch | backend/matching/algorithms.py:38-170 | the two accumulating loops produce exactly the skill-match record of the specification (score, details, missing and bonus lists, counts) |
| MatchingAlgorithms.RequiredLoop | backend/matching/algorithms.py:75-126 | the loop over the required skills accumulates exactly the specified totals, details and missing skills |
| MatchingAlgorithms.BonusLoop | backend/matching/algorithms.py:129-140 | the loop over the preferred skills adds exactly the specified bonus of each held skill that is not also required |
| MatchingAlgorithms.ContributionBounds | backend/matching/algorithms.py:84-91 | a held required skill's match score lies in [0, 100] and its contribution between 0 and importance × weight × 100 |
| MatchingAlgorithms.FullContribution | backend/matching/algorithms.py:84-91 | an expert holding at least max(min_experience, 1) years contributes exactly the full share |
| MatchingAlgorithms.RequiredPassTotals | backend/matching/algorithms.py:72-126 | after the required-skill loop, 0 ≤ total ≤ largest possible total |
| MatchingAlgorithms.RequiredPassMissing | backend/matching/algorithms.py:72-126 | one detail row per required skill; the missing list holds exactly the unheld required skills, and missing + held = required |
| MatchingAlgorithms.HeldCount | backend/matching/algorithms.py:168 | the number of held required skills is at most the number required |
| MatchingAlgorithms.BonusPassFacts | backend/matching/algorithms.py:128-154 | the preferred-skill loop leaves the maximum and the missing list unchanged, never lowers the total, and lists exactly the held preferred skills that are not required |
| MatchingAlgorithms.MatchedCountsHeld | backend/matching/algorithms.py:162-170 | matched_required_skills counts the held required skills, total_required_skills is the number required, and there is one detail row per required or bonus skill |
| MatchingAlgorithms.BonusEntriesHeldNotRequired | backend/matching/algorithms.py:129-140 | a bonus entry exists exactly for each preferred skill the student holds that the job does not require |
| MatchingAlgorithms.MissingEntriesUnheld | backend/matching/algorithms.py:106-112 | the missing list holds exactly the required skills the student lacks |
| MatchingAlgorithms.SkillScoreBounds | backend/matching/algorithms.py:156-160 | with non-negative data the skill score lies in [0, 100] |
| MatchingAlgorithms.NoRequiredSkillsScoresZero | backend/matching/algorithms.py:128-160 | a job without required skills scores 0 whatever bonus skills are held |
| MatchingAlgorithms.WithoutBonusNoCap | backend/matching/algorithms.py:156-158 | without preferred skills the cap is never reached: score × maximum = total × 100 |
| MatchingAlgorithms.FullyQualifiedTotal | backend/matching/algorithms.py:80-91 | holding every required skill at expert level with enough years makes the total equal the maximum |
| MatchingAlgorithms.FullyQualifiedScoresHundred | backend/matching/algorithms.py:72-160 | such a student scores exactly 100 on a job with positive requirement weights |
| MatchingAlgorithms.PositiveMaxPossible | backend/matching/algorithms.py:72-75 | one required skill with positive weight makes the largest possible total positive |
| MatchingAlgorithms.HeldRequirementLowersScore | backend/matching/algorithms.py:75-157 | as written, adding a required skill the student holds above its minimum lowers the score from 100 to 94 for a concrete student |
| MatchingAlgorithms.PreferredMadeRequiredLowersScore | backend/matching/algorithms.py:128-157 | as written, requiring a held preferred skill that the student meets in full lowers the score from 100 to 59 for a concrete student |
| MatchingAlgorithms.BonusPassShift | backend/matching/algorithms.py:128-154 | against two requirement lists that require the same preferred skills, the preferred-skill loop adds the same amount and leaves the maximum unchanged |
| MatchingAlgorithms.RequiresSkillAppend | backend/matching/algorithms.py:130 | a skill is required after appending a requirement exactly when it was required before or is the appended one |
| MatchingAlgorithms.SkillScoreGrows | backend/matching/algorithms.py:156-158 | adding the same non-negative amount to the total and to the maximum never lowers the capped score |
| MatchingAlgorithms.AddFullyMetRequirement | backend/matching/algorithms.py:75-157 | with non-negative data, adding a required skill that the student meets in full and that is not a preferred skill never lowers the skill score |
| MatchingAlgorithms.LevelYears | backend/matching/algorithms.py:179-196 | each experience level asks for at most 10 years, an unknown one for none |
| MatchingAlgorithms.ExperienceScore | backend/matching/algorithms.py:199-217 | the score lies in [0, 100]; it is 100 iff no years are asked for or the mean is within [required, 2 × required]; above twice it lies in [85, 100); below it is mean/required × 100 |
| MatchingAlgorithms.ExperienceMatch | backend/matching/algorithms.py:176-217 | the experience score of a student for a job, from the mean years over the student's skills and the years the job's level asks for, lies in [0, 100] |
| MatchingAlgorithms.ExperienceOverqualifiedNonIncreasing | backend/matching/algorithms.py:205-210 | beyond twice the asked-for years more experience never raises the score |
| MatchingAlgorithms.ExperienceUnderqualifiedNonDecreasing | backend/matching/algorithms.py:199-217 | up to twice the asked-for years more experience never lowers the score |
| MatchingAlgorithms.RequiredEducation | backend/matching/algorithms.py:237-246 | each experience level asks for a degree level in [1, 3], an unknown one for a bachelor |
| MatchingAlgorithms.EducationScore | backend/matching/algorithms.py:248-252 | the score lies in [0, 100]; it is 100 iff the student level is at least the required one, else student/required × 100 |
| MatchingAlgorithms.EducationMatch | backend/matching/algorithms.py:231-252 | the education score of a student for a job lies in [0, 100] and is 100 exactly when the student's degree reaches the one the job's level asks for |
| MatchingAlgorithms.LocationScore | backend/matching/algorithms.py:258-277 | 100 iff the job is remote or hybrid or its city is preferred; 60 iff on-site with no preferences; 20 iff on-site in a city not among non-empty preferences |
| MatchingAlgorithms.LocationMatch | backend/matching/algorithms.py:258-277 | the location score of a student for a job is 100, 60 or 20, and 100 exactly when the job is not on-site or its city is among the student's preferred ones |
| MatchingAlgorithms.OverallScore | backend/matching/algorithms.py:315-320 | the overall score is the four component scores weighted by the configuration; its bounds and monotonicity are proved in OverallBounds and OverallMonotone |
| MatchingAlgorithms.WeightedSumMonotone | backend/matching/algorithms.py:315-320 | with non-negative weights, a weighted sum never decreases when its components increase |
| MatchingAlgorithms.OverallBounds | backend/matching/algorithms.py:315-320 | with non-negative weights and component scores in [0, 100], the overall score lies in [0, 100 × the weight sum] |
| MatchingAlgorithms.OverallMonotone | backend/matching/algorithms.py:315-320 | a better component score never lowers the overall score |
| MatchingAlgorithms.Reasons | backend/matching/algorithms.py:387-417 | at most six reasons are given |
| MatchingAlgorithms.ReasonsOrdered | backend/matching/algorithms.py:390-417 | the reasons come in the fixed order, each kind at most once |
| MatchingAlgorithms.ReasonsMembers | backend/matching/algorithms.py:390-417 | a reason is in the list exactly when its own check passes |
| MatchingAlgorithms.SkillReasonsPresence | backend/matching/algorithms.py:393-401 | each skill reason is present iff its threshold is met (score ≥ 80, matched ratio ≥ 0.8, a bonus skill) |
| MatchingAlgorithms.ExperienceReasonsPresence | backend/matching/algorithms.py:404-407 | "fully met" iff experience ≥ 90 and "mostly met" iff 70 ≤ experience < 90, so never both |
| MatchingAlgorithms.PlaceReasonsPresence | backend/matching/algorithms.py:410-415 | the education and location reasons are present iff their scores are ≥ 90 |
| MatchingAlgorithms.GenerateReasons | backend/matching/algorithms.py:387-417 | the appending method builds exactly the specified reason list |
| MatchingAlgorithms.MissingNamesOf | backend/matching/algorithms.py:426-427 | the names listed are exactly those of the missing skills of that importance |
| MatchingAlgorithms.Suggestions | backend/matching/algorithms.py:419-441 | at most three suggestions are given |
| MatchingAlgorithms.SuggestionsOrdered | backend/matching/algorithms.py:421-441 | suggestions come in the order critical, important, generic |
| MatchingAlgorithms.SuggestionsPresence | backend/matching/algorithms.py:424-439 | the critical (important) suggestion is present iff such a skill is missing and names the first three of them; the generic one iff the skill score is below 60 |
| MatchingAlgorithms.GenerateSuggestions | backend/matching/algorithms.py:419-441 | the appending method builds exactly the specified suggestion list |
| MatchingAlgorithms.ComponentsInRange | backend/matching/algorithms.py:309-312 | with non-negative data all four component scores lie in [0, 100] |
| MatchingAlgorithms.StoredScoresInRange | backend/matching/algorithms.py:331-339 | with weights summing to at most 1 every stored rounded score passes its [0, 100] field validator |
| MatchingAlgorithms.OverallWithinSaveTolerance | backend/matching/algorithms.py:315-335 | under a configuration that passes the save check the stored overall score lies in [0, 101] |
| MatchingAlgorithms.ComputeMatch | backend/matching/algorithms.py:305-364 | the result `calculate_match` stores for a pair: scores rounded to two places, reasons and suggestions from the unrounded scores, the AI analysis or its fallback; ComponentsInRange, StoredScoresInRange and MatcherPair state its properties |
| MatchingAlgorithms.MatchStore.CalculateMatch | backend/matching/algorithms.py:305-364 | stores exactly the computed match under (student, job), overwriting any earlier one, and rebuilds the skill-detail rows only for a new result or one without rows |
| MatchingAlgorithms.MatchStore.MatchPair | backend/matching/algorithms.py:453-457 | one pair stores and returns the matcher's result for that pair, overwriting only that key, and rebuilds the pair's skill-detail rows only for a new result or one without rows |
| MatchingAlgorithms.MatchStore.MatchStudent | backend/matching/algorithms.py:453-465 | one student's inner loop keeps exactly the specified row; results and skill-detail rows change only under that student's keys; each key holds the result of the last job with that id, and, for a job id that occurs once, the rows the pair's `calculate_match` leaves |
| MatchingAlgorithms.MatchStore.BatchMatch | backend/matching/algorithms.py:443-468 | returns exactly the kept batch; the new store (BatchStored) has a result for every (student, job) pair, loses no earlier result, changes results and skill-detail rows only under the batch's keys, holds at each key the result of the last pair written there, and, for ids that occur once, the rows that pair's `calculate_match` leaves |
| MatchingAlgorithms.BatchKeysStudent | backend/matching/algorithms.py:443-468 | every key the batch may change belongs to one of the batch's students |
| MatchingAlgorithms.KeptRowExact | backend/matching/algorithms.py:453-457 | a student's row holds exactly the results of that student whose overall score reaches the minimum |
| MatchingAlgorithms.KeptBatchRows | backend/matching/algorithms.py:452-457 | the batch holds exactly what the students' rows hold |
| MatchingAlgorithms.KeptBatchExact | backend/matching/algorithms.py:443-468 | the batch holds exactly the (student, job) results whose overall score reaches the minimum |
| MatchingAlgorithms.BatchMatchExact | backend/matching/algorithms.py:443-468 | the batch results are exactly the stored matches of the pairs reaching the minimum |
| MatchingModels.FormatOneDecimal | backend/matching/algorithms.py:394 | a number printed with one decimal has at least three characters |
| MatchingModels.LevelOf | backend/matching/models.py:68-80 | the five bands partition the scores: ≥ 90, [80, 90), [70, 80), [60, 70), < 60 |
| MatchingModels.LevelMonotone | backend/matching/models.py:68-80 | a higher score never falls in a lower band |
| MatchingModels.LevelLabel | backend/matching/models.py:85-92 | the fallback label is given iff the name is not one of the five band names |
| MatchingModels.LevelDisplay | backend/matching/models.py:82-92 | every score gets a real band label, never the fallback |
| MatchingModels.CheckWeightSum | backend/matching/models.py:154-159 | the save check passes iff the weight sum is within 0.01 of 1 |
| MatchingModels.ConfigTable.Save | backend/matching/models.py:154-159 | the row is written iff the check passes; otherwise the table is unchanged |
| MatchingModels.MatchingJob.StartExecution | backend/matching/models.py:206-210 | status becomes running with the start time recorded, and nothing else changes |
| MatchingModels.MatchingJob.CompleteExecution | backend/matching/models.py:212-220 | status completed, progress 100, completion time and total recorded; the execution time only when truthy |
| MatchingModels.MatchingJob.FailExecution | backend/matching/models.py:222-227 | status failed with completion time and message recorded, and nothing else changes |
| MatchingSerializers.ValidateConfig | backend/matching/serializers.py:65-78 | accepted iff each given weight is in [0, 1] and the sum, with absent weights counted as 0, is within 0.01 of 1 |
| MatchingSerializers.ConfigChecksAgree | backend/matching/serializers.py:65-78 | with every weight given, the serializer and the model's save accept the same configurations |
| MatchingSerializers.PartialConfigRefusedOnSave | backend/matching/serializers.py:67-76 | a request with only skill_weight = 1.0 passes the serializer but is refused on save |
| MatchingSerializers.ValidateConfigWithDefaults | backend/matching/models.py:133-136 | the corrected check accepts iff the weights are in range and the saved row, with defaults filled in, passes the save check |
| MatchingSerializers.DefaultsCheckMatchesSave | backend/matching/serializers.py:65-78 | what the corrected check accepts, save accepts; on complete requests it agrees with the serializer |
| MatchingSerializers.ValidateMatchRequest | backend/matching/serializers.py:146-162 | accepted iff limit ∈ [1, 100] and min_score ∈ [0, 1] (defaults 10 and 0.0) and exactly one truthy id is given |
| MatchingSerializers.ZeroIdIsAbsent | backend/matching/serializers.py:156-160 | a zero student_id counts as absent |
| MatchingSerializers.ParsePriority | backend/matching/serializers.py:180-183 | a priority is refused iff given and not low, normal or high |
| MatchingSerializers.ValidateBatchRequest | backend/matching/serializers.py:165-198 | accepted iff the lists are non-empty when given, the fields are in range, exactly one id list is given and it has at most 100 ids; an accepted request carries the given id lists, limit, min_score and priority, with limit_per_item defaulting to 5, min_score to its default and priority to normal |
| MatchingSerializers.BatchSizeBounds | backend/matching/serializers.py:187-196 | an accepted batch names between 1 and 100 students or jobs, never both |
| MatchingServices.FindStudent | backend/matching/services.py:32 | the student is found iff some profile has that id, and the one found has it |
| MatchingServices.FindJob | backend/matching/services.py:84-87 | the job is found iff some job has that id, and the one found has it |
| MatchingServices.RankedFacts | backend/matching/services.py:63-65 | the sorted, truncated list is sorted non-increasingly, drawn from the input, at most `limit` long, a permutation when nothing is cut, and nothing cut outscores what is kept |
| MatchingServices.MatcherPair | backend/matching/services.py:58-61 | every computed match belongs to the pair it was computed for |
| MatchingServices.KeptColumnExact | backend/matching/services.py:111-115 | a job's kept list holds exactly the listed students' results at or above the minimum |
| MatchingServices.StudentMatchesOk | backend/matching/services.py:56-68 | a freshly ranked student list is sorted, at or above the minimum, within the limit and about that student |
| MatchingServices.JobMatchesOk | backend/matching/services.py:110-122 | a freshly ranked job list is sorted, at or above the minimum, within the limit and about that job |
| MatchingServices.AppliedJobsNotScored | backend/matching/services.py:35-47 | a job the student applied to is never scored for that student |
| MatchingServices.ApplicantsNotScored | backend/matching/services.py:90-101 | a student who applied to the job is never scored for it |
| MatchingServices.ImportanceRank | backend/matching/services.py:175 | the sort ranks importance within [1, 3] |
| MatchingServices.GapKeyIsLexicographic | backend/matching/services.py:173-177 | the single sort key orders gaps exactly as the pair (count, importance rank) does |
| MatchingServices.GapIndex | backend/matching/services.py:168 | a gap is found iff one carries the name, at a position holding that name |
| MatchingServices.FirstNamed | backend/matching/services.py:168-169 | the first missing entry naming a skill exists iff the skill occurs, and it names the skill |
| MatchingServices.BumpNames | backend/matching/services.py:168-170 | counting a skill keeps every entry's name and appends a new entry with count 1 exactly when the name is new |
| MatchingServices.TallyCounts | backend/matching/services.py:162-170 | the tally holds one entry per missing skill name, its count is the number of occurrences, and its importance is the first occurrence's |
| MatchingServices.TallyEntry | backend/matching/services.py:162-170 | each tally entry's count is the number of missing skills with its name, one of which exists, and its importance is that of the first one |
| MatchingServices.PriorityOf | backend/matching/services.py:184 | the learning priority is high iff the skill is critical |
| MatchingServices.CareerAdvice | backend/matching/services.py:187-199 | one or two advice lines; two iff there is a skill gap |
| MatchingServices.Recommend | backend/matching/services.py:140-209 | no recommendation iff no match was found |
| MatchingServices.BuildJobRecommendations | backend/matching/services.py:151-159 | the loop gives exactly the specified list: min(5, matches) entries, each with its match's job and score |
| MatchingServices.TallyAppend | backend/matching/services.py:163-170 | counting one more missing skill bumps the tally of those before it |
| MatchingServices.CountMissing | backend/matching/services.py:168-170 | the in-place update of one counter gives exactly the specified bump |
| MatchingServices.TallyGaps | backend/matching/services.py:162-170 | the nested counting loop gives exactly the tally of all missing skills in match order |
| MatchingServices.BuildSkillRecommendations | backend/matching/services.py:179-185 | one skill recommendation per top gap, in order |
| MatchingServices.BuildItems | backend/matching/services.py:214-257 | the three loops create exactly the specified items: jobs, then skills, then advice |
| MatchingServices.SumAtLeast | backend/matching/services.py:188 | scores each at least `lo` sum to at least `lo` × their number |
| MatchingServices.AverageAtLeast | backend/matching/services.py:188 | scores that all reach 70 average at least 70 |
| MatchingServices.RecommendationBounds | backend/matching/services.py:140-206 | with matches that reach 70 the confidence lies in [70, 95] and the weakest advice band is unreachable |
| MatchingServices.ItemScores | backend/matching/services.py:218-255 | a job item scores its match, a skill item demand × 10, and advice item i scores 90 − 5i |
| MatchingServices.TopOfUnique | backend/matching/services.py:173-179 | the five best of a tally with distinct names are distinct, drawn from the tally, best first, and nothing left out ranks higher |
| MatchingServices.TopGapsRanked | backend/matching/services.py:173-179 | the top gaps are at most five distinct tally entries, sorted by (count, importance) with nothing left out ranked higher |
| MatchingServices.TalliedGap | backend/matching/services.py:162-170 | each tallied gap was seen, with its occurrence count and first importance |
| MatchingServices.SkillRecommendationsCounted | backend/matching/services.py:162-185 | one skill recommendation per top gap (at most 5), each with its demand count and first-seen importance, and priority high iff critical |
| MatchingServices.BuildRecommendation | backend/matching/services.py:146-257 | the body builds exactly the specified recommendation |
| MatchingServices.MatchingService.FindMatchesForStudent | backend/matching/services.py:28-78 | [] for an unknown student; the cached list on a hit; otherwise the open jobs' kept matches ranked and cached, every cached list staying sorted, above its minimum and within its limit |
| MatchingServices.MatchingService.ScoreStudents | backend/matching/services.py:111-115 | the loop keeps exactly the students' results at or above the minimum and stores each pair |
| MatchingServices.MatchingService.FindMatchesForJob | backend/matching/services.py:80-132 | [] for an unknown job; the cached list on a hit; otherwise the seeking students' kept matches ranked and cached |
| MatchingServices.MatchingService.GenerateStudentRecommendations | backend/matching/services.py:134-260 | None for an unknown student or without matches; otherwise exactly the specified recommendation is stored under the student, replacing the old one and its items |
| LineValues.AfterColon | backend/jobs/views.py:686-687 | None iff the line has no colon; otherwise the text after the first colon |
| LineValues.AfterColonOfKey | backend/jobs/views.py:686-687 | after a colon-free key, the text after the first colon is exactly the rest of the line |
| LineValues.ExtractJobValue | backend/jobs/views.py:684-692 | never empty; "Not Provided" without a colon; otherwise the value is the placeholder or no spelling of it (case-insensitive) |
| LineValues.ExtractResumeValue | backend/resumes/ai_service.py:331-339 | never empty; "Not Provided" without a colon |
| LineValues.UnbracketedOfField | backend/jobs/views.py:687-690 | a value written after a key and padding is read back unchanged |
| LineValues.UnbracketedOfBrackets | backend/jobs/views.py:689-690 | one enclosing bracket pair and its padding are removed |
| LineValues.UnbracketedOfBracketedField | backend/jobs/views.py:686-690 | a bracketed value after a key is read back without the brackets |
| LineValues.ResumeValueRoundTrip | backend/resumes/ai_service.py:331-339 | a written résumé field value is read back unchanged |
| LineValues.JobValueRoundTrip | backend/jobs/views.py:684-692 | a written job field value is read back unchanged, except that any spelling of "not provided" reads as the placeholder |
| LineValues.BracketedValueRoundTrip | backend/jobs/views.py:689-691 | a bracketed value is read back without brackets by both parsers |
| LineValues.DigitsAreNotPlaceholder | backend/jobs/views.py:598-599 | a value holding a digit is never a spelling of "not provided" |
| JobAiParser.FirstMatch | backend/jobs/views.py:546-571 | the first table row with a keyword in the value: it matches, no earlier row does, and None means no row does |
| JobAiParser.Mapped | backend/jobs/views.py:544-575 | the job type or experience level becomes the first matching row's value, and stays unchanged without a match |
| JobAiParser.RemoteOf | backend/jobs/views.py:582-593 | remote iff "remote" without "hybrid"; hybrid iff "hybrid"; on_site iff neither |
| JobAiParser.SalaryOf | backend/jobs/views.py:594-625 | None iff there are no digits or the value says "not provided"; otherwise the first run of digits |
| JobAiParser.SalaryOfNumber | backend/jobs/views.py:598-601 | a number written after digit-free text is read back as that number |
| JobAiParser.DeadlineOf | backend/jobs/views.py:626-641 | the placeholder leaves the field unchanged; any other value is parsed as YYYY-MM-DD, so a new value is None or a valid date |
| JobAiParser.DeadlineRoundTrip | backend/jobs/views.py:626-634 | a date written as YYYY-MM-DD is read back as that date |
| JobAiParser.Collected | backend/jobs/views.py:644-663 | a continuation line is appended iff it is a bullet or starts with none of the section's stop prefixes |
| JobAiParser.Continue | backend/jobs/views.py:642-663 | a continuation line changes no field and no collecting flag |
| JobAiParser.HeaderStep | backend/jobs/views.py:506-641 | a header sets its own collecting flag and clears the other three, so at most one is set |
| JobAiParser.HeaderOf | backend/jobs/views.py:506-641 | the header of a stripped line, by the first alternative of the `elif` chain whose prefix it starts with; SalaryMinHeaderOf and the line-step lemmas use it |
| JobAiParser.Step | backend/jobs/views.py:500-663 | a blank line changes nothing, and each line keeps at most one section collecting |
| JobAiParser.ScanLines | backend/jobs/views.py:500-663 | the scan state after the lines in order, from the initial state; ScanAtMostOne proves at most one section collects after any lines |
| JobAiParser.ScanAtMostOne | backend/jobs/views.py:500-663 | however the reply is laid out, no two sections are collected at once |
| JobAiParser.BenefitsOf | backend/jobs/views.py:672-679 | without collected lines benefits stay unchanged; otherwise every piece is non-empty and trimmed |
| JobAiParser.ParseJobReply | backend/jobs/views.py:487-488 | an empty or missing reply gives the default record |
| JobAiParser.JobReplyScanner.ReadContinuation | backend/jobs/views.py:642-663 | the in-place update of the line lists is exactly the specified continuation step |
| JobAiParser.JobReplyScanner.ReadHeader | backend/jobs/views.py:506-641 | the in-place update of the record and flags is exactly the specified header step |
| JobAiParser.JobReplyScanner.ReadLine | backend/jobs/views.py:500-663 | one loop pass is exactly the specified step |
| JobAiParser.JobReplyScanner.ReadLines | backend/jobs/views.py:500-663 | the loop over all lines from the initial state ends in exactly the specified scan state |
| JobAiParser.JobReplyScanner.Finished | backend/jobs/views.py:665-681 | the sections are joined exactly as specified |
| JobAiParser.ParseJobAiResponse | backend/jobs/views.py:468-681 | the loop over the lines gives exactly the specified record |
| JobAiParser.SplitOneLine | backend/jobs/views.py:490 | a reply without line breaks is one line |
| JobAiParser.OneLineReply | backend/jobs/views.py:487-681 | a one-line reply is that line read into the initial state |
| JobAiParser.TitleLineStep | backend/jobs/views.py:506-511 | a title line sets the title to its value and stops every section |
| JobAiParser.DescriptionLineStep | backend/jobs/views.py:512-519 | a description header starts the description section with its value unless that is the placeholder |
| JobAiParser.SalaryMinHeaderOf | backend/jobs/views.py:594 | a line starting "Salary Min:" is a minimum-salary header |
| JobAiParser.SalaryMinLineStep | backend/jobs/views.py:594-609 | a minimum-salary line sets the lower bound from its value and stops every section |
| JobAiParser.TitleReply | backend/jobs/views.py:468-681 | a one-line title reply yields that title with every other field at its default |
| UploadParser.Suffix | backend/auto_upload_job.py:510 | the suffix is empty or a final dot-started piece of the name, not the whole name, with no other dot |
| UploadParser.CheckUploadFile | backend/auto_upload_job.py:505-511 | accepted iff the file exists and its suffix is ".docx" in any case; a missing file is refused first, then another suffix |
| UploadParser.DocxAccepted | backend/auto_upload_job.py:510-511 | an existing name with a dot-free stem and a "docx" extension in any case is accepted |
| UploadParser.HiddenDocxRefused | backend/auto_upload_job.py:510-511 | a bare ".docx" has no suffix and is refused |
| UploadParser.JobTypeWord | backend/auto_upload_job.py:257-259 | an accepted job type is never freelance |
| UploadParser.ExperienceWord | backend/auto_upload_job.py:260-262 | an accepted experience level is entry, mid, senior or executive |
| UploadParser.UploadSalary | backend/auto_upload_job.py:266-293 | None iff the value is empty, a "not provided"/"not specified" spelling, or has no digits; otherwise the first run of digits |
| UploadParser.UploadBenefits | backend/auto_upload_job.py:300-307 | every piece is trimmed and non-empty, and a value not given gives [] |
| UploadParser.UploadDeadline | backend/auto_upload_job.py:308-322 | a deadline is set only from a given value containing '-' that parses as a valid YYYY-MM-DD date |
| UploadParser.Assigned | backend/auto_upload_job.py:251-322 | setting one field leaves every other field unchanged and keeps the record well formed |
| UploadParser.ReadUploadLine | backend/auto_upload_job.py:244-322 | a line changes at most the field its key names, a line without a colon changes nothing, and the record stays well formed |
| UploadParser.AssignedTwice | backend/auto_upload_job.py:251-322 | for a non-enumerated field a second assignment overwrites the first |
| UploadParser.LaterLineOverwrites | backend/auto_upload_job.py:244-322 | a later line for the same non-enumerated field overwrites an earlier one |
| UploadParser.UploadAlwaysWellFormed | backend/auto_upload_job.py:242-328 | whatever the reply, the enumerated fields hold only accepted words and the benefits are trimmed and non-empty |
| UploadParser.FieldOf | backend/auto_upload_job.py:251-322 | the field a lower-cased key names: the first key phrase of the `elif` chain it contains |
| UploadParser.UploadLines | backend/auto_upload_job.py:244-322 | the record after the lines in order, from the defaults; UploadAlwaysWellFormed and LaterLineOverwrites state its properties |
| UploadParser.Assign | backend/auto_upload_job.py:251-322 | the branch-per-field assignment is exactly the specified one and changes no other field |
| UploadParser.ParseUploadReply | backend/auto_upload_job.py:242-328 | the loop over the lines gives exactly the specified record, which is well formed |
| UploadParser.ReadLine | backend/auto_upload_job.py:245-322 | one line is read exactly as the specified step: its key, its field, then the assignment |
| UploadParser.ReadLines | backend/auto_upload_job.py:244-322 | the loop over the lines gives exactly the specified record |
| ResumeParser.ExtractYears | backend/resumes/ai_service.py:341-350 | 0 when the text has no digits, otherwise the first run of digits |
| ResumeParser.ExtractYearsOfNumber | backend/resumes/ai_service.py:341-350 | a number written after digit-free text is read back as that number |
| ResumeParser.HeaderStepFlags | backend/resumes/ai_service.py:222-291 | Name/Email/Phone keep the flags; each section header sets its own flag only; Years of Experience clears only degree and major; Self Introduction clears all |
| ResumeParser.ContinueWith | backend/resumes/ai_service.py:292-311 | the continuation chain changes no field and no collecting flag |
| ResumeParser.Continue | backend/resumes/ai_service.py:292-311 | a continuation line changes no field and no collecting flag |
| ResumeParser.HeaderOf | backend/resumes/ai_service.py:222-291 | the header of a stripped line, by the first of the ten prefixes it starts with in the order of the `elif` chain; StarredIsNoHeader uses it |
| ResumeParser.Step | backend/resumes/ai_service.py:216-311 | a blank line changes nothing, and each line keeps at most one section collecting |
| ResumeParser.ScanLines | backend/resumes/ai_service.py:216-311 | the scan state after the lines in order, from the initial state; ScanAtMostOne proves at most one section collects after any lines |
| ResumeParser.ScanAtMostOne | backend/resumes/ai_service.py:216-311 | however the reply is laid out, no two sections are collected at once |
| ResumeParser.ParseResumeReply | backend/resumes/ai_service.py:327-329 | a reply that makes the parser raise yields the mock record |
| ResumeParser.ResumeReplyScanner.ReadContinuation | backend/resumes/ai_service.py:292-311 | one continuation line updates the scanner exactly as specified |
| ResumeParser.ResumeReplyScanner.AppendContinuation | backend/resumes/ai_service.py:294-311 | the chain appends to the first section that takes the line, exactly as specified |
| ResumeParser.ResumeReplyScanner.ReadHeader | backend/resumes/ai_service.py:222-291 | a header line updates the record and flags exactly as specified |
| ResumeParser.ResumeReplyScanner.SetHeader | backend/resumes/ai_service.py:222-291 | the branch for a header changes the record, the section lists and the flags exactly as specified |
| ResumeParser.StarredIsNoHeader | backend/resumes/ai_service.py:222-291 | no header starts with '*', so a starred line is always a continuation |
| ResumeParser.ResumeReplyScanner.ReadLine | backend/resumes/ai_service.py:216-311 | one loop pass is exactly the specified step |
| ResumeParser.ResumeReplyScanner.Finished | backend/resumes/ai_service.py:313-325 | the sections are joined exactly as specified |
| ResumeParser.ParseAiResponse | backend/resumes/ai_service.py:184-329 | the loop over the lines gives exactly the specified record |
| ResumeParser.NameLineStep | backend/resumes/ai_service.py:222-223 | a name line sets the name and leaves every section as it was |
| ResumeParser.YearsLineStep | backend/resumes/ai_service.py:248-253 | a years line sets the years and stops only the degree and major sections |
| ResumeParser.DegreeContinuation | backend/resumes/ai_service.py:294-297 | a starred continuation of the degree section is added without its star |
| ResumeParser.Extension | backend/resumes/ai_service.py:105 | the extension is empty or a final dot-started piece of the name with no other dot |
| ResumeParser.ExtractText | backend/resumes/ai_service.py:45-58 | an extension without a reader gives ""; otherwise the reader's text |
| ResumeParser.ParseResume | backend/resumes/ai_service.py:84-145 | success iff the service is enabled, the extracted text is not blank and the model answered; failures carry the mock record, and a disabled service says so |
| ResumeParser.UnsupportedUploadFails | backend/resumes/ai_service.py:103-116 | an upload with an unsupported extension never reaches the model and yields the mock record |
| ResumeParser.PdfExtension | backend/resumes/ai_service.py:48-49 | "report.PDF" has the extension ".PDF", which has a reader |
| ErrorHandling.Latest | backend/error_handler.py:43-45 | the last n entries: min(n, length) of them, a suffix of the list |
| ErrorHandling.LatestStep | backend/error_handler.py:43-45 | appending then dropping the oldest once over the cap keeps exactly the latest n entries |
| ErrorHandling.LatestOfLatest | backend/error_handler.py:68 | the latest five of the latest hundred are the latest five |
| ErrorHandling.Items | backend/error_handler.py:64 | the counter items, one per key in the dictionary's order, each with its count |
| ErrorHandling.SummaryTotals | backend/error_handler.py:58-69 | total_errors is min(errors logged, 100), unique_errors the number of distinct "type:message" keys, and recent_errors the last min(5, n) errors |
| ErrorHandling.MostCommon | backend/error_handler.py:63-67 | at most five keys by non-increasing count, each with its true count, and no key left out was seen more often than one kept |
| ErrorHandling.TopErrorsCounted | backend/error_handler.py:63-67 | each listed entry is a logged key with its number of occurrences, at least 1 |
| ErrorHandling.TopErrorsLargest | backend/error_handler.py:63-67 | no key left out of the five occurred more often than a key listed |
| ErrorHandling.ErrorLog.LogError | backend/error_handler.py:32-56 | the record is appended to the history, which stays within 100 entries, and exactly its key's counter goes up by one |
| ErrorHandling.LoggedOneMore | backend/error_handler.py:43-49 | logging one more error keeps the history the latest 100 errors and every counter the number of occurrences of its key, a new key listed last |
| ErrorHandling.ErrorLog.Remember | backend/error_handler.py:43-45 | the error is appended and the oldest entry dropped once over 100, leaving the counters unchanged |
| ErrorHandling.ErrorLog.Count | backend/error_handler.py:48-49 | the key's counter goes up by one, a new key joins the key order at the end, and the history is unchanged |
| ErrorHandling.ErrorLog.Summary | backend/error_handler.py:58-69 | total = history length, unique = number of keys, at most five most-common entries sorted by count, recent = last five |
| ErrorHandling.RetryFrom | backend/error_handler.py:111-128 | at most max_retries + 1 calls; the first success is returned; every earlier call failed retryably; a non-retryable failure stops early; wait i is delay × backoff^i |
| ErrorHandling.RetryHandler.Run | backend/error_handler.py:102-131 | the wrapper runs the retry loop with falsy overrides replaced by the handler's own settings |
| ErrorHandling.RunRetries | backend/error_handler.py:111-128 | the attempt loop gives exactly the specified run |
| ErrorHandling.AllAttemptsFail | backend/error_handler.py:111-128 | when every call fails retryably, all max_retries + 1 calls are made with max_retries waits and the last exception is raised |
| ErrorHandling.BreakerCallKeepsInvariant | backend/error_handler.py:152-183 | every call keeps the breaker invariant: open or half-open only at or above the threshold with a failure time known |
| ErrorHandling.OpenBreakerRefuses | backend/error_handler.py:154-156 | inside the timeout an open breaker refuses without calling and without changing, with positive time remaining |
| ErrorHandling.SuccessCloses | backend/error_handler.py:161-174 | a call that goes through and succeeds leaves the breaker closed with no failures |
| ErrorHandling.TrialFailureReopens | backend/error_handler.py:154-183 | the trial call of a half-open breaker, or of an open one past its timeout, reopens it on failure |
| ErrorHandling.ClosedOpensAtThreshold | backend/error_handler.py:176-183 | a closed breaker opens exactly on the failure that brings its count to the threshold |
| ErrorHandling.CircuitBreaker.OnSuccess | backend/error_handler.py:169-174 | the fields change exactly as the specified success step |
| ErrorHandling.CircuitBreaker.OnFailure | backend/error_handler.py:176-183 | the fields change exactly as the specified failure step |
| ErrorHandling.CircuitBreaker.Call | backend/error_handler.py:152-167 | the call changes the fields and answers exactly as specified, keeping the invariant |
| ErrorHandling.ErrorRecovery.Register | backend/error_handler.py:194-197 | the strategy is stored under its exception type, replacing any earlier one |
| ErrorHandling.ErrorRecovery.AttemptRecovery | backend/error_handler.py:199-221 | false without a strategy for the exception's own class; otherwise true iff the strategy returns a truthy value without raising |
| ErrorHandling.HandleError | backend/error_handler.py:373-398 | the error is logged, recovery is attempted only when asked, and the summary is taken afterwards |
| ErrorHandling.WithErrorHandling | backend/error_handler.py:400-439 | a success returns at once with nothing logged; a failure is logged, and the function is re-executed exactly once iff recovery succeeded, its success then being returned |
| LogAnalysis.Run | backend/log_analyzer.py:85 | the greedy run is the longest prefix whose characters all satisfy the class |
| LogAnalysis.LevelAndMessage | backend/log_analyzer.py:85 | when the tail matches, the level and the message are both non-empty |
| LogAnalysis.HeaderFields | backend/log_analyzer.py:85 | when the part after the timestamp matches, logger, level and message are all non-empty |
| LogAnalysis.ParseLogLine | backend/log_analyzer.py:82-106 | a parsed line has a valid timestamp, non-empty logger, level and message, and the stripped line as raw line; a blank line is None |
| LogAnalysis.HeaderFieldsOfJoined | backend/log_analyzer.py:85-91 | the logger, level and message written between separators are read back |
| LogAnalysis.ParseLogLineRoundTrip | backend/log_analyzer.py:82-106 | a line written as timestamp, logger, level and message with a valid timestamp is read back field for field |
| LogAnalysis.HeaderStepWell | backend/log_analyzer.py:54-63 | a header line adds one entry, numbered after all the others |
| LogAnalysis.ContinuationStepWell | backend/log_analyzer.py:64-70 | a continuation line only lengthens the current entry's message, or is dropped before the first entry |
| LogAnalysis.GroupLinesWell | backend/log_analyzer.py:48-75 | every header line gives exactly one entry, in file order, carrying that line's number and fields |
| LogAnalysis.ParsedEntries | backend/log_analyzer.py:41-80 | there are as many entries as header lines, with increasing line numbers, each starting at its own header line and tagged with the file |
| LogAnalysis.ParseLogFile | backend/log_analyzer.py:41-80 | the loop over the numbered lines gives exactly the specified entries |
| LogAnalysis.GroupLines | backend/log_analyzer.py:49-75 | the finished entries and the current one after the lines in order; GroupLinesWell proves one entry per header line, in order, with its line number |
| LogAnalysis.GroupFile | backend/log_analyzer.py:43-75 | the loop with the current entry gives exactly the specified grouping, the last entry flushed |
| LogAnalysis.LastReplaced | backend/log_analyzer.py:64-70 | replacing the current entry by one from the same header line keeps the entries in line order, each at its own header |
| LogReports.ErrorTypeOf | backend/log_analyzer.py:174-177 | the error type is the stripped text before the first ':', or "未知错误" when the message has no ':' |
| LogReports.ErrorTypeOfJoined | backend/log_analyzer.py:174-175 | a message written as a type, ':' and a text is classified under that type |
| LogReports.AnalyzeErrorPatterns | backend/log_analyzer.py:160-203 | nothing exactly when no entry is at ERROR level; otherwise the count per error type, the five newest errors and the count per hour |
| LogReports.ErrorTypeCounts | backend/log_analyzer.py:171-198 | each type's count is its number of occurrences and the counts per type and per hour each add up to the number of ERROR entries |
| LogReports.RecentErrors | backend/log_analyzer.py:190 | the first five of the ERROR entries sorted newest first; RecentErrorsNewest states its properties |
| LogReports.RecentErrorsNewest | backend/log_analyzer.py:190 | at most five ERROR entries, newest first; all of them when there are at most five; none left out is newer than one shown |
| LogReports.ResponseTextOfJoined | backend/log_analyzer.py:222-225 | a message made of the marker and a response yields the stripped response |
| LogReports.SuccessRate | backend/log_analyzer.py:228-231 | a rate exists exactly when there was an AI call; it lies in [0, 100] and is 100 exactly when nothing failed |
| LogReports.AnalyzeAiPerformance | backend/log_analyzer.py:205-238 | the loop's counters are the specified tally and the rate is computed from them |
| LogReports.AiCounts | backend/log_analyzer.py:216-226 | successes, failures and response lengths are counted once each, by the first marker a message carries |
| LogReports.EarliestTime | backend/log_analyzer.py:276 | the start time is one of the entries' times and no entry is earlier |
| LogReports.LatestTime | backend/log_analyzer.py:277 | the end time is one of the entries' times and no entry is later |
| LogReports.FileSuccessRate | backend/log_analyzer.py:302-304 | a file success rate exists exactly when some file processing started, and is non-negative; at most 100 when no more files completed than started |
| LogReports.Summarize | backend/log_analyzer.py:266-304 | no report without entries; otherwise start no later than end, the entry total, file counts bounded by it, and a rate exactly when processing started |
| LogReports.SummaryLevels | backend/log_analyzer.py:281 | the level counts are occurrence counts and add up to the number of entries |
| LogReports.AnalyzeProcessingPerformance | backend/log_analyzer.py:108-158 | the loop over the entries gives exactly the specified durations per step |
| LogReports.StepEventOf | backend/log_analyzer.py:122-146 | the step a message starts or ends, by the first marker of the `elif` chain it contains |
| LogReports.Apply | backend/log_analyzer.py:122-146 | one step event: a start records its time, an end records the time since its start when seen, and the end of a file forgets every start; NoStartNoDuration and ApplyInOrder state its properties |
| LogReports.PerfOf | backend/log_analyzer.py:118-146 | the start times and durations after the entries in order; DurationsNonNegative proves them non-negative for a chronological log |
| LogReports.Record | backend/log_analyzer.py:122-146 | one iteration of the loop body performs exactly one specified step |
| LogReports.NoStartNoDuration | backend/log_analyzer.py:122-146 | after the last end of a file, a step whose start marker has not been seen has no start time and gains no duration |
| LogReports.ApplyInOrder | backend/log_analyzer.py:122-146 | one more entry, no earlier than the last, keeps start times no later than the last entry and durations non-negative |
| LogReports.DurationsNonNegative | backend/log_analyzer.py:108-146 | in a log in time order every recorded duration is non-negative |
| LogReports.SelectLogFiles | backend/log_analyzer.py:311-319 | a file is read exactly when its name matches the pattern for the date and does not end in "_errors.log" |
| LogReports.EntriesFromFiles | backend/log_analyzer.py:328-332 | every entry collected carries the name of one of the files read |
| LogReports.AnalysedFiles | backend/log_analyzer.py:311-332 | no analysed entry comes from an error-only log or from a file outside the pattern |
| LogReports.AnalyzeLogs | backend/log_analyzer.py:306-345 | nothing when no entry is found; otherwise the summary, durations, error patterns (none iff no ERROR entry) and AI figures of all entries of the chosen files |
| LogReports.ReadLogFiles | backend/log_analyzer.py:328-332 | the collected entries are those of each chosen file, file after file |
| ProfileCompletion.Percentage | backend/users/views.py:383 | the rounded percentage lies in [0, 100], is 100 exactly when every check passes and 0 exactly when none does |
| ProfileCompletion.PercentageMonotone | backend/users/views.py:383 | passing more checks never lowers the rounded percentage |
| ProfileCompletion.StudentPassed | backend/users/views.py:344-381 | a student profile passes at most the twelve checks |
| ProfileCompletion.BackgroundPassed | backend/users/views.py:350-359 | at most five background fields count |
| ProfileCompletion.WishesPassed | backend/users/views.py:360-367 | at most four job-wish fields count |
| ProfileCompletion.CalculateStudentCompletion | backend/users/views.py:344-383 | the method gives the specified completion of the profile |
| ProfileCompletion.CountStudentChecks | backend/users/views.py:346-381 | the chain of increments counts exactly the passing checks |
| ProfileCompletion.CountBackground | backend/users/views.py:350-359 | the increments over the background fields count exactly the filled ones |
| ProfileCompletion.CountWishes | backend/users/views.py:360-367 | the increments over the wish fields count exactly the filled ones |
| ProfileCompletion.StudentCompletionExtremes | backend/users/views.py:344-383 | 100 exactly for a profile passing all twelve checks, 0 exactly for one passing none |
| ProfileCompletion.StudentCompletionMonotone | backend/users/views.py:344-383 | filling in more of a profile never lowers its completion |
| ProfileCompletion.StudentPassedMonotone | backend/users/views.py:346-381 | a profile passing every check another passes passes at least as many checks |
| ProfileCompletion.LinksCountOnce | backend/users/views.py:378-381 | the four links count as one check: which of them are set does not matter |
| ProfileCompletion.EmployerPassed | backend/users/views.py:386-406 | an employer profile passes at most the eight checks |
| ProfileCompletion.CalculateEmployerCompletion | backend/users/views.py:386-408 | the method gives the specified completion of the profile |
| ProfileCompletion.CountEmployerChecks | backend/users/views.py:388-406 | the chain of increments counts exactly the filled fields |
| ProfileCompletion.EmployerCompletionExtremes | backend/users/views.py:386-408 | 100 exactly when all eight fields are filled, 0 exactly when none is |
| ProfileCompletion.EmployerCompletionMonotone | backend/users/views.py:386-408 | filling in more fields never lowers the completion |
| ProfileCompletion.EmployerPassedMonotone | backend/users/views.py:388-406 | filling in every field another profile fills counts at least as many fields |
| JobModels.NewRequirement | backend/jobs/models.py:111-116 | a requirement row is accepted exactly when its weight, if given, lies in [0.1, 5.0]; absent fields take the defaults "important", 0.0 and 1.0 |
| JobModels.NewPreference | backend/jobs/models.py:129-133 | a preference row is accepted exactly when its bonus points, if given, lie in [0.1, 2.0]; they default to 0.5 |
| JobModels.GroupThousands | backend/jobs/models.py:89 | grouping keeps the leading digit and never shortens the digits |
| JobModels.RemoveCommas | backend/jobs/models.py:89 | removing the separators leaves no ',' |
| JobModels.GroupThousandsRoundTrip | backend/jobs/models.py:89 | taking the ',' separators out again gives the digits back |
| JobModels.FormatAmount | backend/jobs/models.py:89 | the formatted amount starts with a sign or a digit |
| JobModels.FormatAmountReadsBack | backend/jobs/models.py:89 | a non-negative amount is displayed as its half-to-even rounded value with thousands separators |
| JobModels.SalaryRangeDisplay | backend/jobs/models.py:86-92 | "薪资面议" exactly when there is no non-zero minimum; a range with both bounds, "min+" with only a minimum, each followed by the currency |
| JobModels.JobViews.constructor | backend/jobs/models.py:66 | a new job has been viewed zero times |
| JobModels.JobViews.IncrementViews | backend/jobs/models.py:94-97 | viewing a job adds exactly one to its view count |
| JobModels.FullPath | backend/jobs/models.py:161-166 | the full path ends with the category's own name and, below a root, is longer than the names of the category and its parent |
| JobModels.Ancestry | backend/jobs/models.py:161-166 | the ancestry is non-empty and ends with the category's own name |
| JobModels.FullPathJoinsAncestry | backend/jobs/models.py:161-166 | the full path is the names from the root down, joined by " > " |
| JobModels.LabelIsOneLevel | backend/jobs/models.py:156-159 | the display label shows only the parent and the category, so it equals the full path exactly for roots and their direct children |
| JobSerializers.ValidateSalaryRange | backend/jobs/serializers.py:182-190 | rejected exactly when both salary bounds are given and non-zero and the minimum exceeds the maximum |
| JobSerializers.ValidateDeadline | backend/jobs/serializers.py:156-180 | a datetime counts by its date, a text must read as YYYY-MM-DD, any other value is rejected; a deadline is accepted, as its date, exactly when that date is strictly after today |
| JobSerializers.DeadlineTextAsDate | backend/jobs/serializers.py:156-180 | a deadline written as YYYY-MM-DD is judged exactly like the date itself |
| JobSerializers.TodayRejected | backend/jobs/serializers.py:176-179 | today's date is not a valid deadline |
| JobSerializers.ValidateSkillId | backend/jobs/serializers.py:34-40 | an id is accepted exactly when it names an existing, active skill |
| JobSerializers.RequirementRows | backend/jobs/serializers.py:233-241 | one requirement row per entry, in order, with the entry's skill and the defaults for absent fields |
| JobSerializers.PreferenceRows | backend/jobs/serializers.py:243-251 | one preference row per entry, in order, bonus points defaulting to 0.5 |
| JobSerializers.RowsWithinBounds | backend/jobs/models.py:112-131 | entries whose weights and bonus points pass the column validators give rows within those bounds |
| JobSerializers.Inserted | backend/jobs/models.py:118-119 | how many skill ids are inserted before one repeats a skill already among the job's rows or the earlier ids; every inserted id is new and the refused one is a repeat |
| JobSerializers.InsertedAll | backend/jobs/models.py:118-119 | into rows with distinct skills every id is inserted exactly when the rows and the ids together name each skill once |
| JobSerializers.RepeatedSkillRefused | backend/jobs/serializers.py:233-241 | an entry list naming a skill twice is never inserted whole |
| JobSerializers.InsertedIntoNone | backend/jobs/serializers.py:233-251 | into a job without rows of the kind every entry is inserted exactly when no skill repeats |
| JobSerializers.FitIffDistinct | backend/jobs/serializers.py:192-231 | the submitted lists are inserted whole exactly when neither names a skill twice |
| JobSerializers.JobRecord.Insert | backend/jobs/serializers.py:198-201 | the job row has the requesting employer and the fields, no skill rows, and satisfies the one-row-per-skill invariant |
| JobSerializers.JobRecord.Create | backend/jobs/serializers.py:192-209 | a created job belongs to the requesting employer and has the submitted fields; its rows are those inserted before the first repeated skill, the preferences only reached when the requirements fit; success iff both lists fit; at most one row per skill |
| JobSerializers.JobRecord.Update | backend/jobs/serializers.py:211-231 | given fields are overwritten and the rest kept; a given skill list replaces that kind of rows with those inserted before the first repeated skill, preferences only when the requirements fit; success iff both fit; the one-row-per-skill invariant is kept |
| JobSerializers.JobRecord.AddRequirements | backend/jobs/serializers.py:233-241 | the rows for the entries before the first one whose skill already has a row are appended, success iff there is none, nothing else changes, and the invariant is kept |
| JobSerializers.JobRecord.AddPreferences | backend/jobs/serializers.py:243-251 | the rows for the entries before the first one whose skill already has a row are appended, success iff there is none, nothing else changes, and the invariant is kept |
| ApplicationModels.ActiveMeansProcessing | backend/applications/models.py:61-64 | an application is active exactly when its status is one of the four processing stages; no outcome is active |
| ApplicationModels.AppendRecord | backend/applications/models.py:82-88 | a history row starting from the application's current status keeps the history chained and moves only that application |
| ApplicationModels.StatusChangeValid | backend/applications/models.py:72-88 | a new status with the history row from the old one keeps the ids below the next id, every (student, job) pair unique, and the history chained and replaying to each current status |
| ApplicationModels.SameStatusValid | backend/applications/models.py:50 | changing fields other than id, student, job and status keeps the pairs unique and the history chained |
| ApplicationModels.ApplicationStore.constructor | backend/applications/models.py:50 | an empty table satisfies the uniqueness and history invariants |
| ApplicationModels.ApplicationStore.UpdateStatus | backend/applications/models.py:72-88 | the status and its author are set, the notes overwrite the employer notes only when non-empty, and one history row from the old status to the new one is appended, even for an unchanged status |
| ApplicationModels.MeanOfGiven | backend/applications/models.py:179-183 | no mean exactly when no score is given; otherwise the mean times the number of given scores is their sum |
| ApplicationModels.NoneGiven | backend/applications/models.py:182 | nothing is left after dropping the absent scores exactly when every score is absent |
| ApplicationModels.MeanWithin | backend/applications/models.py:179-183 | the mean of given scores within [lo, hi] is within [lo, hi] |
| ApplicationModels.AverageScore | backend/applications/models.py:143-183 | no average exactly when no score was given; with scores within the validators' [1, 10], the average lies in [1, 10] |
| ApplicationModels.AverageOfOne | backend/applications/models.py:179-183 | with one score given, the average is that score |
| ApplicationSerializers.ValidateJobAsWritten | backend/applications/serializers.py:123-131 | a closed job is rejected; an open job with a deadline raises a TypeError; only an open job without a deadline passes |
| ApplicationSerializers.FutureDeadlineRaises | backend/applications/serializers.py:127-130 | even a deadline a year in the future makes the check raise |
| ApplicationSerializers.ValidateJob | backend/applications/serializers.py:123-131 | a job is accepted exactly when it is open and its deadline, if any, is not before today; the refusals carry the two messages |
| ApplicationSerializers.ValidateJobAgrees | backend/applications/serializers.py:123-131 | the intended check never raises, agrees with the written one on jobs without a deadline, and accepts a deadline of today |
| ApplicationSerializers.CreateApplication | backend/applications/serializers.py:133-145 | a second application by the same student to the same job is refused with nothing stored; otherwise a pending application is stored under a fresh id |
| ApplicationSerializers.InsertValid | backend/applications/serializers.py:133-145 | a pending application under the next id, for a pair not yet taken, is stored under a fresh id and keeps the tables valid |
| ApplicationSerializers.UpdateApplicationStatus | backend/applications/serializers.py:156-174 | an omitted status keeps the old one; a history row with the notes (default empty) is appended exactly when the status changes |
| ApplicationSerializers.ValidateScheduledAt | backend/applications/serializers.py:200-204 | an interview time is accepted exactly when it is strictly after now |
| ApplicationSerializers.PastInterviewRejected | backend/applications/serializers.py:200-204 | now and every earlier time are refused |
| ApplicationSerializers.SavedJobStore.Save | backend/applications/serializers.py:259-269 | saving a job twice is refused with nothing changed; otherwise exactly one row is added, and no pair is stored twice |
| ApplicationViews.Ordering | backend/applications/views.py:77-81 | the requested ordering is used exactly when it is one of the four allowed; otherwise newest first |
| ApplicationViews.OrderingStable | backend/applications/views.py:77-81 | passing the ordering used back in gives the same ordering |
| ApplicationViews.Visible | backend/applications/views.py:380-397 | a student sees exactly its own applications, an employer exactly those to its jobs; a missing profile is a 404 and any other account type a 403 |
| ApplicationViews.SuccessRate | backend/applications/views.py:433-435 | 0 without applications; a percentage in [0, 100], 100 when every application was accepted |
| ApplicationViews.ApplicationStatistics | backend/applications/views.py:377-437 | the endpoint's pass over the status groups gives exactly the specified figures |
| ApplicationViews.StatusBuckets | backend/applications/views.py:414-422 | each of the four buckets ends as the number of applications with its status key |
| Counters.GroupedCount | backend/applications/views.py:414-422 | a key that no group carries reads as 0, which is still its number of occurrences |
| ApplicationViews.StatsBounds | backend/applications/views.py:400-435 | the four status buckets together never exceed the total, nor does this month's count |
| ApplicationViews.ReviewedBucketEmpty | backend/applications/views.py:416-417 | as written, the second bucket is 0 for every set of applications whose statuses are among the choices |
| ApplicationViews.ReviewingNotCounted | backend/applications/views.py:416-417 | an application under review is counted by the intended bucket and not by the written one |
| ApplicationViews.IntendedStats | backend/applications/views.py:400-435 | the second bucket counts the applications under review, the buckets stay within the total and the rate is a percentage |
| ApplicationViews.SelectionComplete | backend/applications/views.py:469-478 | the query's count equals the number of ids exactly when the ids do not repeat and each names a stored application of the employer |
| ApplicationViews.DistinctValues | backend/applications/views.py:469-478 | a list has at most as many distinct values as entries, and exactly as many iff no value repeats |
| ApplicationViews.BulkRecords | backend/applications/views.py:480-492 | one history row per id, from the status it had to the new one |
| ApplicationViews.Reassign | backend/applications/views.py:481-492 | one iteration sets one application's status and appends its history row, nothing else |
| ApplicationViews.NextStep | backend/applications/views.py:480-492 | the i-th step of the loop changes only the i-th application, from its original state, and appends its history row |
| ApplicationViews.ReassigningSkips | backend/applications/views.py:480-494 | an application not listed is left as it was |
| ApplicationViews.ReassigningEffect | backend/applications/views.py:480-494 | every listed application has the new status with its other fields unchanged; the rest are as they were |
| ApplicationViews.BulkUpdate | backend/applications/views.py:440-500 | refused with nothing changed for a non-employer, a missing profile, an empty id list or status, or a repeated or foreign id; otherwise every listed application gets the new status and a history row, and the count is the number of ids |
| ApplicationViews.ReassignAll | backend/applications/views.py:480-494 | the loop gives exactly the reassigned table and the history rows in id order, and counts every id |
| UserSerializers.ValidateProjectDates | backend/users/serializers.py:55-63 | a project is refused exactly when both dates are given and the start is after the end |
| UserSerializers.ProjectDatesAccepted | backend/users/serializers.py:55-63 | a project may start and end on the same day, and one with a single date is never refused |
| UserSerializers.ValidateGraduationYear | backend/users/serializers.py:86-94 | a graduation year is accepted exactly when it lies between 1950 and ten years after the current year |
| UserSerializers.GraduationYearStaysValid | backend/users/serializers.py:86-94 | a year accepted now is accepted in every later year too |
| UserSerializers.ValidateExpectedSalary | backend/users/serializers.py:96-105 | refused exactly when both expected salaries are non-zero and the minimum is higher |
| UserSerializers.ZeroSalaryIgnored | backend/users/serializers.py:101 | a zero bound counts as absent |
| UserSerializers.NewAccount | backend/users/serializers.py:137-159 | refused exactly when the two passwords differ; otherwise the account has the submitted name, address, password and type, and a student or employer gets the matching profile, an administrator none |
| UserSerializers.AccountStore.constructor | backend/users/serializers.py:144-159 | an empty store satisfies the invariant |
| UserSerializers.AccountStore.Register | backend/users/serializers.py:124-159 | a taken username is refused first, then mismatching passwords, with nothing stored; otherwise the new account is appended under a fresh id with its profile row, and ids and usernames stay distinct with every profile owned by an account |
| UserSerializers.Authenticate | backend/users/serializers.py:176-177 | the default backend returns the account exactly when the password checks and the account is active |
| UserSerializers.Login | backend/users/serializers.py:167-190 | missing fields are refused first; login succeeds exactly when a single account has the address, its password checks and it is active |
| UserSerializers.DisabledMessageUnreachable | backend/users/serializers.py:182-183 | as written, the disabled-account message is never given |
| UserSerializers.DisabledAccountToldWrongPassword | backend/users/serializers.py:176-183 | a disabled account with the right password is told its credentials are wrong |
| UserSerializers.LoginIntended | backend/users/serializers.py:167-190 | the same success condition, and the disabled-account message exactly for a single account with the right password that is inactive |
| UserSerializers.LoginIntendedAgrees | backend/users/serializers.py:167-190 | the intended check agrees with the written one except where it gives the disabled-account message |
| UserSerializers.DisabledAccountTold | backend/users/serializers.py:182-183 | with the intended check, a disabled account with the right password learns that it is disabled |
| UserSerializers.ChangePassword | backend/users/serializers.py:213-231 | the change succeeds exactly when the old password checks and the new ones match; the old-password error comes first; afterwards the account holds the new password |
| UserSerializers.PasswordChanged | backend/users/serializers.py:226-231 | after a change the new password checks and the old one no longer does, unless they are equal |
| UserSerializers.StudentSkillStore.Add | backend/users/serializers.py:249-259 | a skill the student already has is refused with nothing changed; otherwise one row is added and no pair is stored twice |
| ResumeSerializers.ValidateEmail | backend/resumes/serializers.py:17-21 | an address is refused exactly when it is empty, and returned unchanged otherwise |
| ResumeSerializers.ValidateName | backend/resumes/serializers.py:23-27 | a name is refused exactly when fewer than two characters remain after stripping; the stripped name is kept and has no surrounding whitespace |
| ResumeSerializers.ValidateNameIdempotent | backend/resumes/serializers.py:23-27 | a validated name passes again unchanged |
| ResumeSerializers.PaddedInitialRejected | backend/resumes/serializers.py:25 | surrounding whitespace does not count towards the two characters |
| ResumeSerializers.ValidateResumeFile | backend/resumes/serializers.py:30-42 | no file passes; a file passes exactly when it is at most 10 MB and PDF, DOC or DOCX, and the size error comes before the type error |
| ResumeSerializers.SizeLimitExact | backend/resumes/serializers.py:31-34 | a file of exactly 10 MB is accepted and one byte more is refused |
| Dates.ParseIsoDate | backend/jobs/serializers.py:164-170 | a text read as YYYY-MM-DD gives a valid calendar date made of three '-'-separated parts |
| Dates.ParseFormatIsoDate | backend/jobs/serializers.py:164-170 | reading back a valid date written as YYYY-MM-DD gives the same date |
| Counters.TallyCounts | backend/log_analyzer.py:171-178 | each counter is the number of occurrences of its key, keys without items have no counter, and the keys are listed once each |
| Counters.TallyTotal | backend/log_analyzer.py:171-178 | the counters add up to the number of items counted |
| Counters.TallyGet | backend/log_analyzer.py:171-178 | every key's counter is its number of occurrences, 0 for a key never seen |
| Counters.TallyKeys | backend/log_analyzer.py:171-178 | the counted keys are exactly the listed keys, one listing per key, and every counter is at least 1 |
| Sequences.SortDesc | backend/log_analyzer.py:190 | the sort into non-increasing key order is a permutation of its input |
| Sequences.InsertDescSorted | backend/log_analyzer.py:190 | inserting into a list sorted by non-increasing key keeps it sorted |
| Sequences.InsertDescTies | backend/log_analyzer.py:190 | an inserted entry goes ahead of every entry with its key, which keep their order |
| Sequences.SortDescStable | backend/log_analyzer.py:190 | the sort is stable: the entries sharing a key keep their order in the input |
| Sequences.TopEntries | backend/log_analyzer.py:190 | the first n of the sorted entries are sorted, drawn from the input, all of it when n reaches its length, and none left out has a larger key than one kept |
| Numbers.RoundHalfEvenClose | backend/users/views.py:383 | Python's rounding lands within one half of its input |
| Numbers.RoundWithin | backend/users/views.py:383 | rounding keeps a value between two whole-number bounds |

## Left out

- Database access: querysets, `update_or_create`, `bulk_create` and transactions become `seq`s and `map`s held by classes. The uniqueness of a job's requirement and preference rows per skill is modelled in `JobSerializers.JobRecord`. The skill matcher takes the job's and the student's skill rows as lists; the source reads them into dictionaries keyed by skill name, which agree with the lists when each name occurs once, as the schema's unique skill names and per-skill rows ensure. Lists that repeat a name are outside the model: the matcher counts each row.
- The Django cache: the matching service's cache is a `map` field with an invariant; its time-to-live and eviction are not modelled.
- `MatchingService.get_matching_statistics`: it uses `models.Max` without importing `models`, so it always falls into its `except` and returns `{}`; it is not modelled.
- HTTP views, permissions, routing and pagination: only the ordering whitelist, the statistics endpoint and the bulk update are modelled, as functions and methods of their request data.
- Calls to the AI service: the AI's reply is a parameter of the parsers, and the AI-enhanced analysis of a match is an optional parameter with the fallback record when absent.
- PDF and DOCX text extraction, logging handlers, SMTP notification and the file-system recovery strategies: their effects are outside the model; a recovery strategy is a parameter that succeeds or fails.
- The wall clock, `time.sleep` and `timezone.now()`: each becomes an explicit parameter; the retry loop returns the delays it would have slept.
- Celery tasks, background dispatch, the demo views, the demo-data seeding and the test script.
- Floating point: scores are exact reals, and Python's `round(x, n)` is decimal rounding, half to even, on exact values; binary rounding artefacts are not modelled.
- Regular expressions and `strptime`: replaced by specified helpers (the first maximal digit run; the shape YYYY-MM-DD with a valid calendar date; the log-line header pattern as greedy character runs).
- Python's `str.strip`, `lower`, and the regular-expression classes `\d`, `\w` and `\S`, are modelled on the whitespace characters space, `\t`, `\n`, `\r`, `\v` and `\f` and on ASCII letters and digits only; Python 3 also strips `\x1c`-`\x1f` and matches the classes on Unicode.
- Text rendering of numbers inside recommendation reasons and suggestions: reasons and suggestions are tagged datatypes carrying their numbers, not formatted strings.
- Fields the code reads but the models do not declare (the student's `is_seeking_job`, the profile's expected salary and availability, the recommendation item fields, `ai_match_score`): they are modelled as if declared; the code as written would fail on them at run time.
- UpdateApplicationStatus (ApplicationSerializers): `ApplicationStatusUpdateSerializer.update` writes its history row with a `status=` argument that the history model does not declare, so the source as written raises TypeError after the new status is saved; the model records the intended (old, new) row.
- Add (UserSerializers.StudentSkillStore): `StudentSkillCreateSerializer` lists `skill_id` in its fields without declaring it, so the field is read-only and `validated_data['skill_id']` raises KeyError in the source as written; the model performs the intended duplicate check and insert.
- BulkUpdate (ApplicationViews): the view creates each history row with a `status=` argument that `ApplicationStatusHistory` does not declare, so in the source as written the first pass of the loop saves one application's new status, then raises TypeError: that application is left updated without a history row and the request ends in a server error. The model performs the intended update, recording an (old, new) history row per listed id, in the order of the id list rather than the database order.
- `update_status` called with `notes=None` would store NULL into a non-null notes column; the model stores the optional value as given.
- `StudentProfile.objects.create` during registration omits the required graduation year; the model creates the profile row regardless.
- Password hashing: a password check is equality with the stored password; Django's password validators on the new password are not modelled.
- `User.objects.get` returning several accounts raises `MultipleObjectsReturned`; the model returns `SeveralAccounts` for it.
- LogReports.AnalyzeLogs: the directory listing is a parameter already in name order, standing for `sorted(log_files)`; globbing and reading the files are not modelled.
- `analyze_database_operations` and the printing of every report: the reports are returned as values.
- GenerateStudentRecommendations (MatchingServices.MatchingService): in the source as written the method always returns None and stores nothing. Its `update_or_create` passes `recommendation_type` and `generated_at`, which `StudentRecommendation` does not declare, and never sets the required `expires_at`. It then calls `recommendation.items`, an accessor that does not exist (the reverse accessor is `recommendationitem_set`). Its skill and advice items leave the required `job` foreign key unset. Each of these ends in the `except Exception` branch, which returns None. The model stores the intended recommendation and items.
- ValidateConfig (MatchingSerializers): `MatchingAlgorithmConfigSerializer.Meta.fields` names `min_match_threshold` and `algorithm_parameters`, which `MatchingAlgorithmConfig` does not declare (it has `algorithm_params`), so in the source as written the serializer raises ImproperlyConfigured while building its fields, before `validate` runs. The model gives the `validate` check as if the fields were declared.
- RetryHandler.Run and RetryFrom (ErrorHandling): `max_retries` is a `nat`. The source accepts any integer, and a negative value runs no attempt and then raises with no exception to re-raise (a TypeError); that edge is not modelled.
- JobRecommendation (MatchingServices): the job recommendation record has no `company_name`. The source copies it from the job's employer, which the model's job record does not carry.
- ValidateMatchRequest and ValidateBatchRequest (MatchingSerializers): a refusal carries only the first failing field; DRF validates every field and reports all failures together. Which requests are accepted is modelled exactly.
- ConfigTable.Save (MatchingModels): saving a configuration under a name already taken overwrites that row. In the source, `unique=True` on `name` makes inserting a new configuration with a taken name raise IntegrityError, while saving an existing row under its own name updates it.

## Findings

| source | as written | input that shows it | evidently intended | confidence | as-written member | corrected member |
|---|---|---|---|---|---|---|
| backend/matching/algorithms.py:75-157 | a required skill adds its full share to the largest possible total but only its held score to the total | a student with A (Expert, 1 year) and B (Advanced, 5 years); required A alone scores 100, required A and B (both Important, weight 1, minimum 0) score 94 | adding a required skill the candidate already satisfies never lowers the score; this holds only for a skill met in full, as the corrected member proves | not executed | MatchingAlgorithms.HeldRequirementLowersScore | MatchingAlgorithms.AddFullyMetRequirement |
| backend/matching/algorithms.py:128-157 | a preferred skill that is also required earns no bonus | a student with A (Beginner, 0 years) and B (Expert, 1 year), B preferred with bonus 2; required A alone scores 100 (capped), required A and B score 59 | adding a required skill the candidate already satisfies never lowers the score; this holds only for a skill that is not preferred, as the corrected member proves | not executed | MatchingAlgorithms.PreferredMadeRequiredLowersScore | MatchingAlgorithms.AddFullyMetRequirement |
| backend/matching/serializers.py:65-78 | the serializer counts an absent weight as 0 when checking that the weights sum to 1 | only `skill_weight = 1.0`: `validate` accepts, then save fills in 0.3, 0.2 and 0.1 and refuses the sum 1.6; the flaw is latent, since as written `Meta.fields` names undeclared fields and the serializer fails before `validate` runs (see ValidateConfig under Left out) | check the sum with the defaults that save will fill in | not executed | MatchingSerializers.PartialConfigRefusedOnSave | MatchingSerializers.DefaultsCheckMatchesSave |
| backend/applications/serializers.py:123-131 | the deadline, a datetime column, is compared with `timezone.now().date()` | any open job with a deadline, even a year ahead: the comparison raises TypeError | compare the deadline's date with today's date | not executed | ApplicationSerializers.FutureDeadlineRaises | ApplicationSerializers.ValidateJobAgrees |
| backend/applications/views.py:400-423 | the second bucket reads status 'reviewed', which is not a status choice | one application in status 'reviewing': the bucket shows 0 | count the applications in status 'reviewing' | not executed | ApplicationViews.ReviewingNotCounted | ApplicationViews.IntendedStats |
| backend/users/serializers.py:167-190 | `authenticate` already refuses an inactive account, so the disabled-account message is unreachable | an inactive account with the right password: told "邮箱或密码错误" | tell a disabled account that it is disabled | not executed | UserSerializers.DisabledAccountToldWrongPassword | UserSerializers.DisabledAccountTold |
