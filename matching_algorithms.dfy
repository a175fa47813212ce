// The matching engine: the skill, experience, education and location
// matchers, their weighted combination, the recommendation reasons and
// improvement suggestions, and the store that `calculate_match` and
// `batch_match` write into.
module MatchingAlgorithms {
  import opened Common
  import opened Numbers
  import opened Sequences
  import opened UserModels
  import opened JobModels
  import opened MatchingModels

  // ---------------------------------------------------------------------------
  // Skill matching.
  // ---------------------------------------------------------------------------

  function ProficiencyWeight(p: Proficiency): (r: real)
    ensures 0.3 <= r <= 1.0
  {
    match p
    case Beginner => 0.3
    case Intermediate => 0.6
    case Advanced => 0.8
    case Expert => 1.0
  }

  function ImportanceWeight(i: Importance): (r: real)
    ensures 1.0 <= r <= 3.0
  {
    match i
    case Critical => 3.0
    case Important => 2.0
    case NiceToHave => 1.0
  }

  /** The student's skill of that name; a later row wins, as in a dict comprehension. */
  function Lookup(skills: seq<StudentSkill>, name: string): (r: Option<StudentSkill>)
    ensures r.Some? ==> r.value in skills && r.value.name == name
    ensures r.None? <==> forall k :: 0 <= k < |skills| ==> skills[k].name != name
    decreases |skills|
  {
    if |skills| == 0 then None
    else if skills[|skills| - 1].name == name then Some(skills[|skills| - 1])
    else Lookup(skills[..|skills| - 1], name)
  }

  /** `name in required_skills`. */
  predicate RequiresSkill(req: seq<RequiredSkill>, name: string) {
    exists k :: 0 <= k < |req| && req[k].name == name
  }

  /** `min(years / max(min_experience, 1), 1.0)`. */
  function ExperienceFactor(years: real, minExperience: real): real {
    Min(years / Max(minExperience, 1.0), 1.0)
  }

  /** The `match_score` of a held required skill: 60% proficiency and 40% experience. */
  function HeldScore(s: StudentSkill, r: RequiredSkill): real {
    ProficiencyWeight(s.proficiency) * 100.0 * 0.6 + ExperienceFactor(s.years, r.minExperience) * 100.0 * 0.4
  }

  /** What a held required skill adds to the total. */
  function Contribution(s: StudentSkill, r: RequiredSkill): real {
    HeldScore(s, r) * ImportanceWeight(r.importance) * r.weight
  }

  /** What every required skill adds to the largest possible total. */
  function MaxContribution(r: RequiredSkill): real {
    ImportanceWeight(r.importance) * r.weight * 100.0
  }

  /** What a held preferred skill that is not also required adds to the total. */
  function BonusContribution(s: StudentSkill, p: PreferredSkill): real {
    ProficiencyWeight(s.proficiency) * 100.0 * p.bonusPoints
  }

  function HeldDetail(s: StudentSkill, r: RequiredSkill): SkillDetail {
    SkillDetail(r.name, true, Some(s.proficiency), s.years, true, Some(r.importance),
                r.minExperience, r.weight, HeldScore(s, r), false, false)
  }

  function MissingDetail(r: RequiredSkill): SkillDetail {
    SkillDetail(r.name, false, None, 0.0, true, Some(r.importance), r.minExperience, r.weight, 0.0, true, false)
  }

  function BonusDetail(s: StudentSkill, p: PreferredSkill): SkillDetail {
    SkillDetail(p.name, true, Some(s.proficiency), s.years, false, None, 0.0, 1.0,
                ProficiencyWeight(s.proficiency) * 100.0, false, true)
  }

  /** The accumulators of `calculate_skill_match`. */
  datatype SkillAcc = SkillAcc(
    total: real,
    maxPossible: real,
    details: seq<SkillDetail>,
    missing: seq<MissingSkill>,
    bonus: seq<BonusSkill>)

  const EmptyAcc: SkillAcc := SkillAcc(0.0, 0.0, [], [], [])

  /** One pass of the loop over the required skills. */
  function RequiredStep(acc: SkillAcc, skills: seq<StudentSkill>, r: RequiredSkill): SkillAcc {
    var a := acc.(maxPossible := acc.maxPossible + MaxContribution(r));
    match Lookup(skills, r.name)
    case Some(s) => a.(total := a.total + Contribution(s, r), details := a.details + [HeldDetail(s, r)])
    case None =>
      a.(missing := a.missing + [MissingSkill(r.name, r.importance, r.minExperience)],
         details := a.details + [MissingDetail(r)])
  }

  /** The accumulators after the loop over the required skills. */
  function RequiredPass(skills: seq<StudentSkill>, req: seq<RequiredSkill>): SkillAcc
    decreases |req|
  {
    if |req| == 0 then EmptyAcc
    else RequiredStep(RequiredPass(skills, req[..|req| - 1]), skills, req[|req| - 1])
  }

  /** One pass of the loop over the preferred skills. */
  function BonusStep(acc: SkillAcc, skills: seq<StudentSkill>, req: seq<RequiredSkill>, p: PreferredSkill): SkillAcc {
    match Lookup(skills, p.name)
    case Some(s) =>
      if RequiresSkill(req, p.name) then acc
      else acc.(total := acc.total + BonusContribution(s, p),
                bonus := acc.bonus + [BonusSkill(p.name, s.proficiency, p.bonusPoints)],
                details := acc.details + [BonusDetail(s, p)])
    case None => acc
  }

  /** The accumulators after the loop over the preferred skills, starting from `start`. */
  function BonusPass(skills: seq<StudentSkill>, req: seq<RequiredSkill>, pref: seq<PreferredSkill>, start: SkillAcc): SkillAcc
    decreases |pref|
  {
    if |pref| == 0 then start
    else BonusStep(BonusPass(skills, req, pref[..|pref| - 1], start), skills, req, pref[|pref| - 1])
  }

  /** The dictionary `calculate_skill_match` returns. */
  datatype SkillResult = SkillResult(
    score: real,
    details: seq<SkillDetail>,
    missing: seq<MissingSkill>,
    bonus: seq<BonusSkill>,
    totalRequired: int,
    matchedRequired: int,
    bonusCount: int)

  /** The final score: the total as a percentage of the largest possible total, capped at 100. */
  function SkillScore(total: real, maxPossible: real): (r: real)
    ensures r <= 100.0
    ensures maxPossible <= 0.0 ==> r == 0.0
    ensures maxPossible > 0.0 && total <= maxPossible ==> r * maxPossible == total * 100.0
  {
    if maxPossible > 0.0 then Min(total / maxPossible * 100.0, 100.0) else 0.0
  }

  function SkillMatch(skills: seq<StudentSkill>, req: seq<RequiredSkill>, pref: seq<PreferredSkill>): SkillResult {
    var acc := BonusPass(skills, req, pref, RequiredPass(skills, req));
    SkillResult(SkillScore(acc.total, acc.maxPossible), acc.details, acc.missing, acc.bonus,
                |req|, |req| - |acc.missing|, |acc.bonus|)
  }

  /** `SkillMatcher.calculate_skill_match`: the loop over the required skills, then over the preferred ones. */
  method CalculateSkillMatch(skills: seq<StudentSkill>, req: seq<RequiredSkill>, pref: seq<PreferredSkill>)
    returns (r: SkillResult)
    ensures r == SkillMatch(skills, req, pref)
  {
    var total, maxPossible, details, missing, bonus := RequiredLoop(skills, req);
    total, details, bonus := BonusLoop(skills, req, pref, total, maxPossible, details, missing, bonus);
    var score := if maxPossible > 0.0 then Min(total / maxPossible * 100.0, 100.0) else 0.0;
    r := SkillResult(score, details, missing, bonus, |req|, |req| - |missing|, |bonus|);
  }

  /** The loop over the required skills: each adds its share to the largest possible total, and its score or its absence. */
  method RequiredLoop(skills: seq<StudentSkill>, req: seq<RequiredSkill>)
    returns (total: real, maxPossible: real, details: seq<SkillDetail>, missing: seq<MissingSkill>, bonus: seq<BonusSkill>)
    ensures SkillAcc(total, maxPossible, details, missing, bonus) == RequiredPass(skills, req)
  {
    total, maxPossible, details, missing, bonus := 0.0, 0.0, [], [], [];
    var i := 0;
    while i < |req|
      invariant 0 <= i <= |req|
      invariant SkillAcc(total, maxPossible, details, missing, bonus) == RequiredPass(skills, req[..i])
    {
      ghost var before := SkillAcc(total, maxPossible, details, missing, bonus);
      var q := req[i];
      maxPossible := maxPossible + MaxContribution(q);
      var held := Lookup(skills, q.name);
      if held.Some? {
        var s := held.value;
        total := total + Contribution(s, q);
        details := details + [HeldDetail(s, q)];
      } else {
        missing := missing + [MissingSkill(q.name, q.importance, q.minExperience)];
        details := details + [MissingDetail(q)];
      }
      assert SkillAcc(total, maxPossible, details, missing, bonus) == RequiredStep(before, skills, q);
      assert req[..i + 1][..i] == req[..i];
      i := i + 1;
    }
    assert req[..|req|] == req;
  }

  /** The loop over the preferred skills: each one held and not also required adds its bonus. */
  method BonusLoop(skills: seq<StudentSkill>, req: seq<RequiredSkill>, pref: seq<PreferredSkill>,
                   total0: real, maxPossible: real, details0: seq<SkillDetail>, missing: seq<MissingSkill>,
                   bonus0: seq<BonusSkill>)
    returns (total: real, details: seq<SkillDetail>, bonus: seq<BonusSkill>)
    ensures SkillAcc(total, maxPossible, details, missing, bonus)
            == BonusPass(skills, req, pref, SkillAcc(total0, maxPossible, details0, missing, bonus0))
  {
    total, details, bonus := total0, details0, bonus0;
    ghost var start := SkillAcc(total0, maxPossible, details0, missing, bonus0);
    var j := 0;
    while j < |pref|
      invariant 0 <= j <= |pref|
      invariant SkillAcc(total, maxPossible, details, missing, bonus) == BonusPass(skills, req, pref[..j], start)
    {
      ghost var before := SkillAcc(total, maxPossible, details, missing, bonus);
      var p := pref[j];
      var held := Lookup(skills, p.name);
      if held.Some? && !RequiresSkill(req, p.name) {
        var s := held.value;
        total := total + BonusContribution(s, p);
        bonus := bonus + [BonusSkill(p.name, s.proficiency, p.bonusPoints)];
        details := details + [BonusDetail(s, p)];
      }
      assert SkillAcc(total, maxPossible, details, missing, bonus) == BonusStep(before, skills, req, p);
      assert pref[..j + 1][..j] == pref[..j];
      j := j + 1;
    }
    assert pref[..|pref|] == pref;
  }

  // --- Properties of the skill score. ---

  /** The data the field validators guarantee: no negative years, weights or bonus points. */
  predicate NonNegativeSkillData(skills: seq<StudentSkill>, req: seq<RequiredSkill>, pref: seq<PreferredSkill>) {
    (forall k :: 0 <= k < |skills| ==> skills[k].years >= 0.0)
    && (forall k :: 0 <= k < |req| ==> req[k].weight >= 0.0)
    && (forall k :: 0 <= k < |pref| ==> pref[k].bonusPoints >= 0.0)
  }

  /** A held required skill adds between nothing and its full share. */
  lemma ContributionBounds(s: StudentSkill, r: RequiredSkill)
    requires s.years >= 0.0 && r.weight >= 0.0
    ensures 0.0 <= HeldScore(s, r) <= 100.0
    ensures 0.0 <= Contribution(s, r) <= MaxContribution(r)
  {
    HeldScoreBounds(s, r);
    var h := HeldScore(s, r);
    var w := ImportanceWeight(r.importance);
    var iw := w * r.weight;
    assert iw >= 0.0;
    MulMonotoneNonNeg(0.0, h, iw);
    MulMonotoneNonNeg(h, 100.0, iw);
    assert Contribution(s, r) == h * w * r.weight;
    assert h * w * r.weight == h * iw;
    assert MaxContribution(r) == iw * 100.0 == 100.0 * iw;
  }

  lemma HeldScoreBounds(s: StudentSkill, r: RequiredSkill)
    requires s.years >= 0.0
    ensures 0.0 <= HeldScore(s, r) <= 100.0
  {
    var d := Max(r.minExperience, 1.0);
    assert s.years / d >= 0.0;
    var f := ExperienceFactor(s.years, r.minExperience);
    assert 0.0 <= f <= 1.0;
    var p := ProficiencyWeight(s.proficiency);
    assert 0.0 <= p * 100.0 * 0.6 <= 60.0;
    assert 0.0 <= f * 100.0 * 0.4 <= 40.0;
  }

  /** A required skill held at expert level with enough years adds exactly its full share. */
  lemma FullContribution(s: StudentSkill, r: RequiredSkill)
    requires s.proficiency == Expert && s.years >= Max(r.minExperience, 1.0)
    ensures Contribution(s, r) == MaxContribution(r)
  {
    var d := Max(r.minExperience, 1.0);
    assert s.years / d >= 1.0;
    assert ExperienceFactor(s.years, r.minExperience) == 1.0;
    assert HeldScore(s, r) == 100.0;
  }

  /**
   * After the required skills the total lies between 0 and the largest possible
   * total; each required skill adds its full share to the latter.
   */
  lemma {:induction false} RequiredPassTotals(skills: seq<StudentSkill>, req: seq<RequiredSkill>)
    requires NonNegativeSkillData(skills, req, [])
    ensures 0.0 <= RequiredPass(skills, req).total <= RequiredPass(skills, req).maxPossible
    decreases |req|
  {
    if |req| > 0 {
      var init := req[..|req| - 1];
      var r := req[|req| - 1];
      assert NonNegativeSkillData(skills, init, []);
      RequiredPassTotals(skills, init);
      assert MaxContribution(r) >= 0.0;
      match Lookup(skills, r.name)
      case Some(s) =>
        ContributionBounds(s, r);
      case None =>
    }
  }

  /**
   * The missing list holds exactly the required skills the student lacks, in
   * order, and the detail list has one row per required skill.
   */
  lemma {:induction false} RequiredPassMissing(skills: seq<StudentSkill>, req: seq<RequiredSkill>)
    ensures |RequiredPass(skills, req).details| == |req|
    ensures |RequiredPass(skills, req).missing| + HeldCount(skills, req) == |req|
    ensures forall m :: m in RequiredPass(skills, req).missing <==>
      exists k :: 0 <= k < |req| && Lookup(skills, req[k].name).None?
                  && m == MissingSkill(req[k].name, req[k].importance, req[k].minExperience)
    ensures RequiredPass(skills, req).bonus == []
    decreases |req|
  {
    if |req| > 0 {
      var init := req[..|req| - 1];
      RequiredPassMissing(skills, init);
      forall m
        ensures m in RequiredPass(skills, req).missing <==>
          exists k :: 0 <= k < |req| && Lookup(skills, req[k].name).None?
                      && m == MissingSkill(req[k].name, req[k].importance, req[k].minExperience)
      {
        if m in RequiredPass(skills, req).missing && m !in RequiredPass(skills, init).missing {
          assert Lookup(skills, req[|req| - 1].name).None?;
        }
        if exists k :: 0 <= k < |req| && Lookup(skills, req[k].name).None?
                       && m == MissingSkill(req[k].name, req[k].importance, req[k].minExperience) {
          var k :| 0 <= k < |req| && Lookup(skills, req[k].name).None?
                   && m == MissingSkill(req[k].name, req[k].importance, req[k].minExperience);
          if k < |req| - 1 {
            assert init[k] == req[k];
          }
        }
      }
    }
  }

  /** The number of required skills the student holds. */
  function HeldCount(skills: seq<StudentSkill>, req: seq<RequiredSkill>): (n: nat)
    ensures n <= |req|
    decreases |req|
  {
    if |req| == 0 then 0
    else HeldCount(skills, req[..|req| - 1]) + (if Lookup(skills, req[|req| - 1].name).Some? then 1 else 0)
  }

  /**
   * The bonus pass leaves the largest possible total and the missing list alone,
   * only raises the total, and lists exactly the preferred skills the student
   * holds that are not also required.
   */
  lemma {:induction false} BonusPassFacts(skills: seq<StudentSkill>, req: seq<RequiredSkill>,
                                          pref: seq<PreferredSkill>, start: SkillAcc)
    requires NonNegativeSkillData(skills, [], pref)
    ensures BonusPass(skills, req, pref, start).maxPossible == start.maxPossible
    ensures BonusPass(skills, req, pref, start).missing == start.missing
    ensures BonusPass(skills, req, pref, start).total >= start.total
    ensures |BonusPass(skills, req, pref, start).details| - |start.details|
            == |BonusPass(skills, req, pref, start).bonus| - |start.bonus|
    ensures forall b :: b in BonusPass(skills, req, pref, start).bonus <==>
      b in start.bonus
      || exists k :: 0 <= k < |pref| && Lookup(skills, pref[k].name).Some? && !RequiresSkill(req, pref[k].name)
                     && b == BonusSkill(pref[k].name, Lookup(skills, pref[k].name).value.proficiency, pref[k].bonusPoints)
    decreases |pref|
  {
    if |pref| > 0 {
      var init := pref[..|pref| - 1];
      var p := pref[|pref| - 1];
      assert NonNegativeSkillData(skills, [], init);
      BonusPassFacts(skills, req, init, start);
      var before := BonusPass(skills, req, init, start);
      var held := Lookup(skills, p.name);
      if held.Some? && !RequiresSkill(req, p.name) {
        MulMonotoneNonNeg(0.0, ProficiencyWeight(held.value.proficiency) * 100.0, p.bonusPoints);
      }
      forall b
        ensures b in BonusPass(skills, req, pref, start).bonus <==>
          b in start.bonus
          || exists k :: 0 <= k < |pref| && Lookup(skills, pref[k].name).Some? && !RequiresSkill(req, pref[k].name)
                         && b == BonusSkill(pref[k].name, Lookup(skills, pref[k].name).value.proficiency, pref[k].bonusPoints)
      {
        if exists k :: 0 <= k < |pref| && Lookup(skills, pref[k].name).Some? && !RequiresSkill(req, pref[k].name)
                       && b == BonusSkill(pref[k].name, Lookup(skills, pref[k].name).value.proficiency, pref[k].bonusPoints) {
          var k :| 0 <= k < |pref| && Lookup(skills, pref[k].name).Some? && !RequiresSkill(req, pref[k].name)
                   && b == BonusSkill(pref[k].name, Lookup(skills, pref[k].name).value.proficiency, pref[k].bonusPoints);
          if k < |pref| - 1 {
            assert init[k] == pref[k];
          }
        }
      }
    }
  }

  /** `matched_required_skills` counts the required skills the student holds. */
  lemma MatchedCountsHeld(skills: seq<StudentSkill>, req: seq<RequiredSkill>, pref: seq<PreferredSkill>)
    requires NonNegativeSkillData(skills, req, pref)
    ensures SkillMatch(skills, req, pref).matchedRequired == HeldCount(skills, req)
    ensures SkillMatch(skills, req, pref).totalRequired == |req|
    ensures |SkillMatch(skills, req, pref).details| == |req| + SkillMatch(skills, req, pref).bonusCount
  {
    RequiredPassMissing(skills, req);
    BonusPassFacts(skills, req, pref, RequiredPass(skills, req));
  }

  /** Each bonus entry is a preferred skill the student holds and the job does not require, and vice versa. */
  lemma BonusEntriesHeldNotRequired(skills: seq<StudentSkill>, req: seq<RequiredSkill>, pref: seq<PreferredSkill>)
    requires NonNegativeSkillData(skills, req, pref)
    ensures forall b :: b in SkillMatch(skills, req, pref).bonus <==>
      exists k :: 0 <= k < |pref| && Lookup(skills, pref[k].name).Some? && !RequiresSkill(req, pref[k].name)
                  && b == BonusSkill(pref[k].name, Lookup(skills, pref[k].name).value.proficiency, pref[k].bonusPoints)
  {
    RequiredPassMissing(skills, req);
    BonusPassFacts(skills, req, pref, RequiredPass(skills, req));
  }

  /** The missing list holds exactly the required skills the student lacks. */
  lemma MissingEntriesUnheld(skills: seq<StudentSkill>, req: seq<RequiredSkill>, pref: seq<PreferredSkill>)
    requires NonNegativeSkillData(skills, req, pref)
    ensures forall m :: m in SkillMatch(skills, req, pref).missing <==>
      exists k :: 0 <= k < |req| && Lookup(skills, req[k].name).None?
                  && m == MissingSkill(req[k].name, req[k].importance, req[k].minExperience)
  {
    RequiredPassMissing(skills, req);
    BonusPassFacts(skills, req, pref, RequiredPass(skills, req));
  }

  /** With non-negative data the skill score lies in [0, 100]. */
  lemma SkillScoreBounds(skills: seq<StudentSkill>, req: seq<RequiredSkill>, pref: seq<PreferredSkill>)
    requires NonNegativeSkillData(skills, req, pref)
    ensures 0.0 <= SkillMatch(skills, req, pref).score <= 100.0
  {
    assert NonNegativeSkillData(skills, req, []);
    RequiredPassTotals(skills, req);
    BonusPassFacts(skills, req, pref, RequiredPass(skills, req));
    var acc := BonusPass(skills, req, pref, RequiredPass(skills, req));
    if acc.maxPossible > 0.0 {
      assert acc.total / acc.maxPossible >= 0.0;
    }
  }

  /** A job without required skills scores 0, whatever bonus skills the student holds. */
  lemma NoRequiredSkillsScoresZero(skills: seq<StudentSkill>, pref: seq<PreferredSkill>)
    requires NonNegativeSkillData(skills, [], pref)
    ensures SkillMatch(skills, [], pref).score == 0.0
  {
    BonusPassFacts(skills, [], pref, RequiredPass(skills, []));
  }

  /** Without a bonus skill the cap is never reached: the score is the covered share of the largest total. */
  lemma WithoutBonusNoCap(skills: seq<StudentSkill>, req: seq<RequiredSkill>)
    requires NonNegativeSkillData(skills, req, [])
    requires RequiredPass(skills, req).maxPossible > 0.0
    ensures SkillMatch(skills, req, []).score * RequiredPass(skills, req).maxPossible
            == RequiredPass(skills, req).total * 100.0
  {
    RequiredPassTotals(skills, req);
  }

  /** The student holds every required skill at expert level with at least the asked-for years (and at least one). */
  predicate FullyQualified(skills: seq<StudentSkill>, req: seq<RequiredSkill>) {
    forall k :: 0 <= k < |req| ==>
      Lookup(skills, req[k].name).Some? && Lookup(skills, req[k].name).value.proficiency == Expert
      && Lookup(skills, req[k].name).value.years >= Max(req[k].minExperience, 1.0)
  }

  lemma {:induction false} FullyQualifiedTotal(skills: seq<StudentSkill>, req: seq<RequiredSkill>)
    requires FullyQualified(skills, req)
    ensures RequiredPass(skills, req).total == RequiredPass(skills, req).maxPossible
    decreases |req|
  {
    if |req| > 0 {
      var init := req[..|req| - 1];
      assert FullyQualified(skills, init) by {
        forall k | 0 <= k < |init| ensures init[k] == req[k] { }
      }
      FullyQualifiedTotal(skills, init);
      FullContribution(Lookup(skills, req[|req| - 1].name).value, req[|req| - 1]);
    }
  }

  /** A fully qualified student scores 100 on a job with positive requirement weights. */
  lemma FullyQualifiedScoresHundred(skills: seq<StudentSkill>, req: seq<RequiredSkill>, pref: seq<PreferredSkill>)
    requires NonNegativeSkillData(skills, req, pref)
    requires FullyQualified(skills, req)
    requires |req| > 0 && forall k :: 0 <= k < |req| ==> req[k].weight > 0.0
    ensures SkillMatch(skills, req, pref).score == 100.0
  {
    FullyQualifiedTotal(skills, req);
    PositiveMaxPossible(skills, req);
    BonusPassFacts(skills, req, pref, RequiredPass(skills, req));
    var acc := BonusPass(skills, req, pref, RequiredPass(skills, req));
    assert acc.total >= acc.maxPossible > 0.0;
    assert acc.total / acc.maxPossible >= 1.0;
  }

  lemma {:induction false} PositiveMaxPossible(skills: seq<StudentSkill>, req: seq<RequiredSkill>)
    requires |req| > 0 && forall k :: 0 <= k < |req| ==> req[k].weight > 0.0
    ensures RequiredPass(skills, req).maxPossible > 0.0
    decreases |req|
  {
    var init := req[..|req| - 1];
    var r := req[|req| - 1];
    assert MaxContribution(r) > 0.0;
    if |init| > 0 {
      assert forall k :: 0 <= k < |init| ==> init[k] == req[k];
      PositiveMaxPossible(skills, init);
    }
  }

  // --- Adding a required skill. ---

  /**
   * As written, adding a required skill the student holds above its minimum
   * can lower the score: here from 100 to 94, because the new skill adds 176
   * of a possible 200.
   */
  lemma HeldRequirementLowersScore()
    ensures var a := StudentSkill(1, "A", Expert, 1.0);
            var b := StudentSkill(2, "B", Advanced, 5.0);
            var ra := RequiredSkill(1, "A", Important, 0.0, 1.0);
            var rb := RequiredSkill(2, "B", Important, 0.0, 1.0);
            SkillMatch([a, b], [ra], []).score == 100.0 && SkillMatch([a, b], [ra, rb], []).score == 94.0
  {
    var a := StudentSkill(1, "A", Expert, 1.0);
    var b := StudentSkill(2, "B", Advanced, 5.0);
    var ra := RequiredSkill(1, "A", Important, 0.0, 1.0);
    var rb := RequiredSkill(2, "B", Important, 0.0, 1.0);
    assert Lookup([a, b], "A") == Some(a) by { assert [a, b][..1] == [a]; }
    assert Lookup([a, b], "B") == Some(b);
    assert [ra, rb][..1] == [ra];
    assert Contribution(a, ra) == 200.0;
    assert Contribution(b, rb) == 176.0;
    assert RequiredPass([a, b], [ra]).total == 200.0 && RequiredPass([a, b], [ra]).maxPossible == 200.0;
    assert RequiredPass([a, b], [ra, rb]).total == 376.0 && RequiredPass([a, b], [ra, rb]).maxPossible == 400.0;
  }

  /**
   * As written, requiring a skill that was only preferred can lower the score
   * even when the student meets it in full: here from 100 to 59, because its
   * bonus is no longer counted while the largest possible total grows.
   */
  lemma PreferredMadeRequiredLowersScore()
    ensures var a := StudentSkill(1, "A", Beginner, 0.0);
            var b := StudentSkill(2, "B", Expert, 1.0);
            var ra := RequiredSkill(1, "A", Important, 0.0, 1.0);
            var rb := RequiredSkill(2, "B", Important, 0.0, 1.0);
            var pb := PreferredSkill(2, "B", 2.0);
            SkillMatch([a, b], [ra], [pb]).score == 100.0 && SkillMatch([a, b], [ra, rb], [pb]).score == 59.0
  {
    var a := StudentSkill(1, "A", Beginner, 0.0);
    var b := StudentSkill(2, "B", Expert, 1.0);
    var ra := RequiredSkill(1, "A", Important, 0.0, 1.0);
    var rb := RequiredSkill(2, "B", Important, 0.0, 1.0);
    var pb := PreferredSkill(2, "B", 2.0);
    assert Lookup([a, b], "A") == Some(a) by { assert [a, b][..1] == [a]; }
    assert Lookup([a, b], "B") == Some(b);
    assert [ra, rb][..1] == [ra];
    assert Contribution(a, ra) == 36.0;
    assert Contribution(b, rb) == 200.0;
    assert !RequiresSkill([ra], "B");
    assert RequiresSkill([ra, rb], "B") by { assert [ra, rb][1].name == "B"; }
    assert [pb][..0] == [];
    assert BonusPass([a, b], [ra], [pb], RequiredPass([a, b], [ra])).total == 236.0;
    assert BonusPass([a, b], [ra, rb], [pb], RequiredPass([a, b], [ra, rb])).total == 236.0;
    assert RequiredPass([a, b], [ra, rb]).maxPossible == 400.0;
  }

  /** The bonus pass adds the same amount against two requirement lists that require the same preferred skills. */
  lemma {:induction false} BonusPassShift(skills: seq<StudentSkill>, req1: seq<RequiredSkill>, req2: seq<RequiredSkill>,
                                          pref: seq<PreferredSkill>, start1: SkillAcc, start2: SkillAcc)
    requires forall k :: 0 <= k < |pref| ==> (RequiresSkill(req1, pref[k].name) <==> RequiresSkill(req2, pref[k].name))
    ensures BonusPass(skills, req2, pref, start2).total - start2.total
            == BonusPass(skills, req1, pref, start1).total - start1.total
    ensures BonusPass(skills, req2, pref, start2).maxPossible == start2.maxPossible
    decreases |pref|
  {
    if |pref| > 0 {
      var init := pref[..|pref| - 1];
      assert forall k :: 0 <= k < |init| ==> init[k] == pref[k];
      BonusPassShift(skills, req1, req2, init, start1, start2);
    }
  }

  /** Adding the same non-negative amount to a total and to its largest possible value never lowers the score. */
  lemma SkillScoreGrows(total: real, maxPossible: real, c: real)
    requires 0.0 <= total && 0.0 <= maxPossible && 0.0 <= c
    ensures SkillScore(total, maxPossible) <= SkillScore(total + c, maxPossible + c)
  {
    if maxPossible + c > 0.0 {
      var q := (total + c) / (maxPossible + c);
      assert q * (maxPossible + c) == total + c;
      assert q >= 0.0;
      if maxPossible > 0.0 {
        if total >= maxPossible {
          assert total + c >= maxPossible + c;
          QuotientCompare(total + c, maxPossible + c, 1.0);
        } else {
          var p := total / maxPossible;
          assert p * maxPossible == total;
          QuotientCompare(total, maxPossible, 1.0);
          MulMonotoneNonNeg(p, 1.0, c);
          assert p * (maxPossible + c) == total + p * c;
          assert p * (maxPossible + c) <= q * (maxPossible + c);
          QuotientCompare(p * (maxPossible + c), maxPossible + c, q);
          assert p * (maxPossible + c) / (maxPossible + c) == p;
          MulMonotoneNonNeg(p, q, 100.0);
        }
      }
    }
  }

  /** A skill is required after appending `r` exactly when it was before or is `r`'s. */
  lemma RequiresSkillAppend(req: seq<RequiredSkill>, r: RequiredSkill, name: string)
    ensures RequiresSkill(req + [r], name) <==> RequiresSkill(req, name) || r.name == name
  {
    var req2 := req + [r];
    if RequiresSkill(req2, name) && r.name != name {
      var j :| 0 <= j < |req2| && req2[j].name == name;
      assert req[j].name == name;
    }
    if RequiresSkill(req, name) {
      var j :| 0 <= j < |req| && req[j].name == name;
      assert req2[j].name == name;
    }
    if r.name == name {
      assert req2[|req|].name == name;
    }
  }

  /**
   * Adding a required skill the student holds and meets in full (it adds its
   * whole share) and that is not also a preferred skill never lowers the score.
   */
  lemma AddFullyMetRequirement(skills: seq<StudentSkill>, req: seq<RequiredSkill>, pref: seq<PreferredSkill>,
                               r: RequiredSkill, s: StudentSkill)
    requires NonNegativeSkillData(skills, req + [r], pref)
    requires Lookup(skills, r.name) == Some(s)
    requires Contribution(s, r) == MaxContribution(r)
    requires forall k :: 0 <= k < |pref| ==> pref[k].name != r.name
    ensures SkillMatch(skills, req, pref).score <= SkillMatch(skills, req + [r], pref).score
  {
    var req2 := req + [r];
    assert req2[..|req2| - 1] == req;
    assert forall k :: 0 <= k < |req| ==> req2[k] == req[k];
    assert r.weight >= 0.0 by { assert req2[|req|] == r; }
    assert NonNegativeSkillData(skills, req, []);
    var a1 := RequiredPass(skills, req);
    var a2 := RequiredPass(skills, req2);
    var c := MaxContribution(r);
    assert c >= 0.0;
    assert a2.total == a1.total + c && a2.maxPossible == a1.maxPossible + c;
    forall k | 0 <= k < |pref|
      ensures RequiresSkill(req, pref[k].name) <==> RequiresSkill(req2, pref[k].name)
    {
      RequiresSkillAppend(req, r, pref[k].name);
    }
    BonusPassShift(skills, req, req2, pref, a1, a2);
    RequiredPassTotals(skills, req);
    BonusPassFacts(skills, req, pref, a1);
    var b1 := BonusPass(skills, req, pref, a1);
    SkillScoreGrows(b1.total, b1.maxPossible, c);
  }

  // ---------------------------------------------------------------------------
  // Experience, education and location.
  // ---------------------------------------------------------------------------

  function SumYears(skills: seq<StudentSkill>): real
    decreases |skills|
  {
    if |skills| == 0 then 0.0 else SumYears(skills[..|skills| - 1]) + skills[|skills| - 1].years
  }

  /** The mean years over all of the student's skills, 0 without skills. */
  function AverageYears(skills: seq<StudentSkill>): real {
    if |skills| == 0 then 0.0 else SumYears(skills) / |skills| as real
  }

  /** The years an experience level asks for; an unknown level asks for none. */
  function LevelYears(l: ExperienceLevel): (n: nat)
    ensures n <= 10
  {
    match l
    case Entry => 0
    case Junior => 1
    case Mid => 3
    case Senior => 5
    case Lead => 8
    case Executive => 10
    case UnlistedLevel => 0
  }

  /** `ExperienceMatcher.calculate_experience_match` on the mean years and the asked-for years. */
  function ExperienceScore(avg: real, level: nat): (r: real)
    ensures 0.0 <= r <= 100.0
    ensures r == 100.0 <==> level == 0 || level as real <= avg <= 2.0 * level as real
    ensures level > 0 && avg > 2.0 * level as real ==> 85.0 <= r < 100.0
    ensures level > 0 && 0.0 <= avg < level as real ==> r * level as real == avg * 100.0
    ensures level > 0 && avg < 0.0 ==> r == 0.0
  {
    if avg >= level as real then
      if level == 0 then 100.0
      else
        var ratio := avg / level as real;
        QuotientCompare(avg, level as real, 2.0);
        if ratio <= 2.0 then 100.0 else Max(85.0, 100.0 - (ratio - 2.0) * 5.0)
    else if level == 0 then 100.0
    else
      var ratio := avg / level as real;
      QuotientCompare(avg, level as real, 1.0);
      QuotientCompare(avg, level as real, 0.0);
      assert ratio * level as real == avg;
      assert ratio * 100.0 * level as real == (ratio * level as real) * 100.0;
      Max(0.0, ratio * 100.0)
  }

  /** `ExperienceMatcher.calculate_experience_match` of a student for a job. */
  function ExperienceMatch(student: StudentProfile, job: Job): (r: real)
    ensures 0.0 <= r <= 100.0
  {
    ExperienceScore(AverageYears(student.skills), LevelYears(job.experienceLevel))
  }

  /** Beyond twice the asked-for years, more experience never raises the score. */
  lemma ExperienceOverqualifiedNonIncreasing(a: real, b: real, level: nat)
    requires level > 0 && 2.0 * level as real < a <= b
    ensures ExperienceScore(b, level) <= ExperienceScore(a, level)
  {
    var l := level as real;
    DivMonotone(a, b, l);
  }

  /** Up to twice the asked-for years, more experience never lowers the score. */
  lemma ExperienceUnderqualifiedNonDecreasing(a: real, b: real, level: nat)
    requires a <= b
    requires b <= 2.0 * level as real
    ensures ExperienceScore(a, level) <= ExperienceScore(b, level)
  {
    if level > 0 && b < level as real {
      var l := level as real;
      DivMonotone(a, b, l);
    }
  }

  function EducationRank(e: EducationLevel): nat {
    match e
    case Diploma => 1
    case Bachelor => 2
    case Master => 3
    case PhD => 4
    case Unlisted => 0
  }

  /** The degree level a job's experience level asks for; an unknown level asks for a bachelor. */
  function RequiredEducation(l: ExperienceLevel): (n: nat)
    ensures 1 <= n <= 3
  {
    match l
    case Entry => 1
    case Junior => 2
    case Mid => 2
    case Senior => 2
    case Lead => 3
    case Executive => 3
    case UnlistedLevel => 2
  }

  /** `EducationMatcher.calculate_education_match` on the two levels. */
  function EducationScore(student: nat, required: nat): (r: real)
    requires required >= 1
    ensures 0.0 <= r <= 100.0
    ensures r == 100.0 <==> student >= required
    ensures student < required ==> r * required as real == student as real * 100.0
  {
    if student >= required then 100.0
    else
      var ratio := student as real / required as real;
      assert ratio * required as real == student as real;
      Max(0.0, ratio * 100.0)
  }

  /** `EducationMatcher.calculate_education_match` of a student for a job. */
  function EducationMatch(student: StudentProfile, job: Job): (r: real)
    ensures 0.0 <= r <= 100.0
    ensures r == 100.0 <==> EducationRank(student.education) >= RequiredEducation(job.experienceLevel)
  {
    EducationScore(EducationRank(student.education), RequiredEducation(job.experienceLevel))
  }

  /** `LocationMatcher.calculate_location_match`. */
  function LocationScore(remote: RemoteOption, city: string, preferred: seq<string>): (r: real)
    ensures r == 100.0 <==> !remote.OnSite? || city in preferred
    ensures r == 60.0 <==> remote.OnSite? && |preferred| == 0
    ensures r == 20.0 <==> remote.OnSite? && city !in preferred && |preferred| > 0
  {
    if !remote.OnSite? then 100.0
    else if city in preferred then 100.0
    else if |preferred| == 0 then 60.0
    else 20.0
  }

  /** `LocationMatcher.calculate_location_match` of a student for a job. */
  function LocationMatch(student: StudentProfile, job: Job): (r: real)
    ensures r == 100.0 || r == 60.0 || r == 20.0
    ensures r == 100.0 <==> !job.remoteOption.OnSite? || job.city in student.preferredLocations
  {
    LocationScore(job.remoteOption, job.city, student.preferredLocations)
  }

  // ---------------------------------------------------------------------------
  // The weighted sum.
  // ---------------------------------------------------------------------------

  function OverallScore(skill: real, experience: real, education: real, location: real, c: Config): real {
    skill * c.skillWeight + experience * c.experienceWeight + education * c.educationWeight + location * c.locationWeight
  }

  lemma WeightedSumMonotone(s1: real, e1: real, d1: real, l1: real, s2: real, e2: real, d2: real, l2: real,
                            w1: real, w2: real, w3: real, w4: real)
    requires s1 <= s2 && e1 <= e2 && d1 <= d2 && l1 <= l2
    requires w1 >= 0.0 && w2 >= 0.0 && w3 >= 0.0 && w4 >= 0.0
    ensures s1 * w1 + e1 * w2 + d1 * w3 + l1 * w4 <= s2 * w1 + e2 * w2 + d2 * w3 + l2 * w4
  {
    MulMonotoneNonNeg(s1, s2, w1);
    MulMonotoneNonNeg(e1, e2, w2);
    MulMonotoneNonNeg(d1, d2, w3);
    MulMonotoneNonNeg(l1, l2, w4);
  }

  /** With non-negative weights and scores in [0, 100] the overall score lies in [0, 100 × the weight sum]. */
  lemma OverallBounds(skill: real, experience: real, education: real, location: real, c: Config)
    requires InPercentRange(skill) && InPercentRange(experience)
    requires InPercentRange(education) && InPercentRange(location)
    requires c.skillWeight >= 0.0 && c.experienceWeight >= 0.0
    requires c.educationWeight >= 0.0 && c.locationWeight >= 0.0
    ensures 0.0 <= OverallScore(skill, experience, education, location, c) <= 100.0 * WeightSum(c)
  {
    WeightedSumMonotone(0.0, 0.0, 0.0, 0.0, skill, experience, education, location,
                        c.skillWeight, c.experienceWeight, c.educationWeight, c.locationWeight);
    WeightedSumMonotone(skill, experience, education, location, 100.0, 100.0, 100.0, 100.0,
                        c.skillWeight, c.experienceWeight, c.educationWeight, c.locationWeight);
  }

  /** With non-negative weights a better component score never lowers the overall score. */
  lemma OverallMonotone(s1: real, e1: real, d1: real, l1: real, s2: real, e2: real, d2: real, l2: real, c: Config)
    requires s1 <= s2 && e1 <= e2 && d1 <= d2 && l1 <= l2
    requires c.skillWeight >= 0.0 && c.experienceWeight >= 0.0
    requires c.educationWeight >= 0.0 && c.locationWeight >= 0.0
    ensures OverallScore(s1, e1, d1, l1, c) <= OverallScore(s2, e2, d2, l2, c)
  {
    WeightedSumMonotone(s1, e1, d1, l1, s2, e2, d2, l2,
                        c.skillWeight, c.experienceWeight, c.educationWeight, c.locationWeight);
  }

  // ---------------------------------------------------------------------------
  // Recommendation reasons and improvement suggestions.
  // ---------------------------------------------------------------------------

  /** `matched_required_skills / max(total_required_skills, 1)`. */
  function MatchedRatio(s: SkillResult): real {
    s.matchedRequired as real / (if s.totalRequired >= 1 then s.totalRequired else 1) as real
  }

  /** The position of a reason in the fixed order; the two experience reasons share one. */
  function ReasonRank(r: Reason): int {
    match r
    case HighSkillScore(_) => 0
    case RequiredSkillsMet(_, _) => 1
    case BonusSkillsHeld(_) => 2
    case ExperienceFullyMet => 3
    case ExperienceMostlyMet => 3
    case EducationMet => 4
    case LocationMet => 5
  }

  /** In the fixed order, each kind at most once. */
  predicate StrictlyRanked(rs: seq<Reason>) {
    forall i, j :: 0 <= i < j < |rs| ==> ReasonRank(rs[i]) < ReasonRank(rs[j])
  }

  function When<T>(c: bool, x: T): seq<T> { if c then [x] else [] }

  /** `r` with `x` appended when `c` holds. */
  function AppendIf<T>(r: seq<T>, c: bool, x: T): seq<T> { if c then r + [x] else r }

  /** The first three checks, on the skill result. */
  function SkillReasons(s: SkillResult): (r: seq<Reason>)
    ensures |r| <= 3
  {
    var r1 := AppendIf([], s.score >= 80.0, HighSkillScore(s.score));
    var r2 := AppendIf(r1, MatchedRatio(s) >= 0.8, RequiredSkillsMet(s.matchedRequired, s.totalRequired));
    AppendIf(r2, s.bonusCount > 0, BonusSkillsHeld(s.bonusCount))
  }

  /** `_generate_recommendation_reasons`: the checks in their fixed order, each appending at most one reason. */
  function Reasons(s: SkillResult, experience: real, education: real, location: real): (r: seq<Reason>)
    ensures |r| <= 6
  {
    var r3 := SkillReasons(s);
    var r4 := if experience >= 90.0 then r3 + [ExperienceFullyMet] else AppendIf(r3, experience >= 70.0, ExperienceMostlyMet);
    var r5 := AppendIf(r4, education >= 90.0, EducationMet);
    AppendIf(r5, location >= 90.0, LocationMet)
  }

  predicate RanksBelow(r: seq<Reason>, k: int) {
    forall i :: 0 <= i < |r| ==> ReasonRank(r[i]) < k
  }

  lemma AppendRanked(r: seq<Reason>, c: bool, x: Reason)
    requires StrictlyRanked(r) && RanksBelow(r, ReasonRank(x))
    ensures StrictlyRanked(AppendIf(r, c, x)) && RanksBelow(AppendIf(r, c, x), ReasonRank(x) + 1)
  {
  }

  /** The reasons come in the fixed order, each kind at most once. */
  lemma ReasonsOrdered(s: SkillResult, experience: real, education: real, location: real)
    ensures StrictlyRanked(Reasons(s, experience, education, location))
  {
    var r3 := SkillReasons(s);
    SkillReasonsRanked(s);
    var r4 := if experience >= 90.0 then r3 + [ExperienceFullyMet] else AppendIf(r3, experience >= 70.0, ExperienceMostlyMet);
    if experience >= 90.0 {
      AppendRanked(r3, true, ExperienceFullyMet);
    } else {
      AppendRanked(r3, experience >= 70.0, ExperienceMostlyMet);
    }
    var r5 := AppendIf(r4, education >= 90.0, EducationMet);
    AppendRanked(r4, education >= 90.0, EducationMet);
    AppendRanked(r5, location >= 90.0, LocationMet);
  }

  /** The skill reasons come first, in their order. */
  lemma SkillReasonsRanked(s: SkillResult)
    ensures StrictlyRanked(SkillReasons(s)) && RanksBelow(SkillReasons(s), 3)
  {
    var r1 := AppendIf([], s.score >= 80.0, HighSkillScore(s.score));
    AppendRanked([], s.score >= 80.0, HighSkillScore(s.score));
    var r2 := AppendIf(r1, MatchedRatio(s) >= 0.8, RequiredSkillsMet(s.matchedRequired, s.totalRequired));
    AppendRanked(r1, MatchedRatio(s) >= 0.8, RequiredSkillsMet(s.matchedRequired, s.totalRequired));
    AppendRanked(r2, s.bonusCount > 0, BonusSkillsHeld(s.bonusCount));
  }

  /** An element is in `AppendIf(r, c, x)` when it is in `r`, or it is `x` and `c` holds. */
  lemma InAppendIf<T>(r: seq<T>, c: bool, x: T, y: T)
    ensures y in AppendIf(r, c, x) <==> y in r || (c && y == x)
  {
  }

  /** Each reason is given exactly when its own check passes. */
  lemma ReasonsMembers(s: SkillResult, experience: real, education: real, location: real, y: Reason)
    ensures y in Reasons(s, experience, education, location) <==>
      (y == HighSkillScore(s.score) && s.score >= 80.0)
      || (y == RequiredSkillsMet(s.matchedRequired, s.totalRequired) && MatchedRatio(s) >= 0.8)
      || (y == BonusSkillsHeld(s.bonusCount) && s.bonusCount > 0)
      || (y == ExperienceFullyMet && experience >= 90.0)
      || (y == ExperienceMostlyMet && 70.0 <= experience < 90.0)
      || (y == EducationMet && education >= 90.0)
      || (y == LocationMet && location >= 90.0)
  {
    var r1 := AppendIf([], s.score >= 80.0, HighSkillScore(s.score));
    InAppendIf([], s.score >= 80.0, HighSkillScore(s.score), y);
    var r2 := AppendIf(r1, MatchedRatio(s) >= 0.8, RequiredSkillsMet(s.matchedRequired, s.totalRequired));
    InAppendIf(r1, MatchedRatio(s) >= 0.8, RequiredSkillsMet(s.matchedRequired, s.totalRequired), y);
    var r3 := AppendIf(r2, s.bonusCount > 0, BonusSkillsHeld(s.bonusCount));
    InAppendIf(r2, s.bonusCount > 0, BonusSkillsHeld(s.bonusCount), y);
    assert SkillReasons(s) == r3;
    var r4 := if experience >= 90.0 then r3 + [ExperienceFullyMet] else AppendIf(r3, experience >= 70.0, ExperienceMostlyMet);
    if experience >= 90.0 {
      InAppendIf(r3, true, ExperienceFullyMet, y);
    } else {
      InAppendIf(r3, experience >= 70.0, ExperienceMostlyMet, y);
    }
    var r5 := AppendIf(r4, education >= 90.0, EducationMet);
    InAppendIf(r4, education >= 90.0, EducationMet, y);
    InAppendIf(r5, location >= 90.0, LocationMet, y);
  }

  /** The skill reasons appear exactly when their thresholds are met. */
  lemma SkillReasonsPresence(s: SkillResult, experience: real, education: real, location: real)
    ensures HighSkillScore(s.score) in Reasons(s, experience, education, location) <==> s.score >= 80.0
    ensures RequiredSkillsMet(s.matchedRequired, s.totalRequired) in Reasons(s, experience, education, location)
            <==> MatchedRatio(s) >= 0.8
    ensures BonusSkillsHeld(s.bonusCount) in Reasons(s, experience, education, location) <==> s.bonusCount > 0
  {
    ReasonsMembers(s, experience, education, location, HighSkillScore(s.score));
    ReasonsMembers(s, experience, education, location, RequiredSkillsMet(s.matchedRequired, s.totalRequired));
    ReasonsMembers(s, experience, education, location, BonusSkillsHeld(s.bonusCount));
  }

  /**
   * The experience reasons appear exactly when their thresholds are met; the
   * two bands are disjoint, so at most one of them is given.
   */
  lemma ExperienceReasonsPresence(s: SkillResult, experience: real, education: real, location: real)
    ensures ExperienceFullyMet in Reasons(s, experience, education, location) <==> experience >= 90.0
    ensures ExperienceMostlyMet in Reasons(s, experience, education, location) <==> 70.0 <= experience < 90.0
  {
    ReasonsMembers(s, experience, education, location, ExperienceFullyMet);
    ReasonsMembers(s, experience, education, location, ExperienceMostlyMet);
  }

  /** The education and location reasons appear exactly when their thresholds are met. */
  lemma PlaceReasonsPresence(s: SkillResult, experience: real, education: real, location: real)
    ensures EducationMet in Reasons(s, experience, education, location) <==> education >= 90.0
    ensures LocationMet in Reasons(s, experience, education, location) <==> location >= 90.0
  {
    ReasonsMembers(s, experience, education, location, EducationMet);
    ReasonsMembers(s, experience, education, location, LocationMet);
  }

  /** The reasons list built by appending, as the source does. */
  method GenerateReasons(s: SkillResult, experience: real, education: real, location: real) returns (reasons: seq<Reason>)
    ensures reasons == Reasons(s, experience, education, location)
  {
    reasons := [];
    if s.score >= 80.0 {
      reasons := reasons + [HighSkillScore(s.score)];
    }
    var matchedRatio := s.matchedRequired as real / (if s.totalRequired >= 1 then s.totalRequired else 1) as real;
    if matchedRatio >= 0.8 {
      reasons := reasons + [RequiredSkillsMet(s.matchedRequired, s.totalRequired)];
    }
    if s.bonusCount > 0 {
      reasons := reasons + [BonusSkillsHeld(s.bonusCount)];
    }
    if experience >= 90.0 {
      reasons := reasons + [ExperienceFullyMet];
    } else if experience >= 70.0 {
      reasons := reasons + [ExperienceMostlyMet];
    }
    if education >= 90.0 {
      reasons := reasons + [EducationMet];
    }
    if location >= 90.0 {
      reasons := reasons + [LocationMet];
    }
  }

  /** The names of the missing skills of one importance, in order. */
  function MissingNamesOf(missing: seq<MissingSkill>, i: Importance): (r: seq<string>)
    ensures |r| <= |missing|
    ensures forall n :: n in r <==> exists k :: 0 <= k < |missing| && missing[k].importance == i && missing[k].skillName == n
    decreases |missing|
  {
    if |missing| == 0 then []
    else
      var r := MissingNamesOf(missing[..|missing| - 1], i)
               + When(missing[|missing| - 1].importance == i, missing[|missing| - 1].skillName);
      assert forall k :: 0 <= k < |missing| - 1 ==> missing[..|missing| - 1][k] == missing[k];
      r
  }

  function SuggestionRank(s: Suggestion): int {
    match s
    case LearnCriticalSkills(_) => 0
    case AddImportantSkills(_) => 1
    case ImproveProficiency => 2
  }

  /** `_generate_improvement_suggestions`. */
  function Suggestions(s: SkillResult): (r: seq<Suggestion>)
    ensures |r| <= 3
  {
    var critical := MissingNamesOf(s.missing, Critical);
    var important := MissingNamesOf(s.missing, Important);
    var r1 := AppendIf([], |s.missing| > 0 && |critical| > 0, LearnCriticalSkills(Take(critical, 3)));
    var r2 := AppendIf(r1, |s.missing| > 0 && |important| > 0, AddImportantSkills(Take(important, 3)));
    AppendIf(r2, s.score < 60.0, ImproveProficiency)
  }

  /** The suggestions come in the fixed order: critical skills, important skills, then the generic advice. */
  lemma SuggestionsOrdered(s: SkillResult)
    ensures forall i, j :: 0 <= i < j < |Suggestions(s)| ==>
      SuggestionRank(Suggestions(s)[i]) < SuggestionRank(Suggestions(s)[j])
  {
  }

  /**
   * A critical (important) suggestion is given exactly when a critical
   * (important) skill is missing, naming the first three such skills; the
   * generic advice is given exactly when the skill score is below 60.
   */
  lemma SuggestionsPresence(s: SkillResult)
    ensures (exists k :: 0 <= k < |Suggestions(s)| && Suggestions(s)[k].LearnCriticalSkills?)
            <==> |MissingNamesOf(s.missing, Critical)| > 0
    ensures (exists k :: 0 <= k < |Suggestions(s)| && Suggestions(s)[k].AddImportantSkills?)
            <==> |MissingNamesOf(s.missing, Important)| > 0
    ensures ImproveProficiency in Suggestions(s) <==> s.score < 60.0
    ensures forall k :: 0 <= k < |Suggestions(s)| && Suggestions(s)[k].LearnCriticalSkills? ==>
      1 <= |Suggestions(s)[k].names| <= 3 && Suggestions(s)[k].names == Take(MissingNamesOf(s.missing, Critical), 3)
    ensures forall k :: 0 <= k < |Suggestions(s)| && Suggestions(s)[k].AddImportantSkills? ==>
      1 <= |Suggestions(s)[k].names| <= 3 && Suggestions(s)[k].names == Take(MissingNamesOf(s.missing, Important), 3)
  {
    var critical := MissingNamesOf(s.missing, Critical);
    var important := MissingNamesOf(s.missing, Important);
    SuggestionsParts(s);
    SuggestionsLayout(When(|critical| > 0, LearnCriticalSkills(Take(critical, 3))),
                      When(|important| > 0, AddImportantSkills(Take(important, 3))),
                      When(s.score < 60.0, ImproveProficiency));
  }

  /** The suggestions are the three optional parts, one after the other. */
  lemma SuggestionsParts(s: SkillResult)
    ensures var critical := MissingNamesOf(s.missing, Critical);
      var important := MissingNamesOf(s.missing, Important);
      Suggestions(s) == When(|critical| > 0, LearnCriticalSkills(Take(critical, 3)))
        + When(|important| > 0, AddImportantSkills(Take(important, 3))) + When(s.score < 60.0, ImproveProficiency)
  {
    var critical := MissingNamesOf(s.missing, Critical);
    var important := MissingNamesOf(s.missing, Important);
    var a := LearnCriticalSkills(Take(critical, 3));
    var b := AddImportantSkills(Take(important, 3));
    var c1, c2 := |s.missing| > 0 && |critical| > 0, |s.missing| > 0 && |important| > 0;
    assert c1 == (|critical| > 0) && c2 == (|important| > 0);
    var r1 := AppendIf([], c1, a);
    var r2 := AppendIf(r1, c2, b);
    assert Suggestions(s) == AppendIf(r2, s.score < 60.0, ImproveProficiency);
    AppendIfWhen([], c1, a);
    AppendIfWhen(r1, c2, b);
    AppendIfWhen(r2, s.score < 60.0, ImproveProficiency);
    assert [] + When(c1, a) == When(c1, a);
  }

  lemma AppendIfWhen<T>(r: seq<T>, c: bool, x: T)
    ensures AppendIf(r, c, x) == r + When(c, x)
  {
    if !c {
      assert r + [] == r;
    }
  }

  /** Where each kind of suggestion can sit in a list made of the three optional parts. */
  lemma SuggestionsLayout(a: seq<Suggestion>, b: seq<Suggestion>, c: seq<Suggestion>)
    requires |a| <= 1 && |b| <= 1 && |c| <= 1
    requires forall x :: x in a ==> x.LearnCriticalSkills?
    requires forall x :: x in b ==> x.AddImportantSkills?
    requires c == [] || c == [ImproveProficiency]
    ensures (exists k :: 0 <= k < |a + b + c| && (a + b + c)[k].LearnCriticalSkills?) <==> a != []
    ensures (exists k :: 0 <= k < |a + b + c| && (a + b + c)[k].AddImportantSkills?) <==> b != []
    ensures ImproveProficiency in a + b + c <==> c != []
    ensures forall k :: 0 <= k < |a + b + c| && (a + b + c)[k].LearnCriticalSkills? ==> (a + b + c)[k] == a[0]
    ensures forall k :: 0 <= k < |a + b + c| && (a + b + c)[k].AddImportantSkills? ==> (a + b + c)[k] == b[0]
  {
    var r := a + b + c;
    forall k | 0 <= k < |r|
      ensures r[k].LearnCriticalSkills? ==> a != [] && r[k] == a[0]
      ensures r[k].AddImportantSkills? ==> b != [] && r[k] == b[0]
    {
      if k < |a| {
        assert r[k] in a;
      } else if k < |a| + |b| {
        assert r[k] == b[k - |a|] && r[k] in b;
      } else {
        assert r[k] == c[k - |a| - |b|];
      }
    }
    if a != [] {
      assert r[0] == a[0];
    }
    if b != [] {
      assert r[|a|] == b[0];
    }
    if c != [] {
      assert r[|a| + |b|] == ImproveProficiency;
    }
    assert ImproveProficiency !in a && ImproveProficiency !in b;
  }

  /** The suggestion list built by appending, as the source does. */
  method GenerateSuggestions(s: SkillResult) returns (suggestions: seq<Suggestion>)
    ensures suggestions == Suggestions(s)
  {
    suggestions := [];
    if |s.missing| > 0 {
      var critical := MissingNamesOf(s.missing, Critical);
      var important := MissingNamesOf(s.missing, Important);
      if |critical| > 0 {
        suggestions := suggestions + [LearnCriticalSkills(Take(critical, 3))];
      }
      if |important| > 0 {
        suggestions := suggestions + [AddImportantSkills(Take(important, 3))];
      }
    }
    if s.score < 60.0 {
      suggestions := suggestions + [ImproveProficiency];
    }
  }

  // ---------------------------------------------------------------------------
  // `calculate_match` and `batch_match`.
  // ---------------------------------------------------------------------------

  /**
   * The stored result of matching `student` with `job`: every score rounded to
   * two places, reasons and suggestions from the unrounded scores, and the AI
   * analysis or, when it failed (`None`), the fallback record.
   */
  function ComputeMatch(student: StudentProfile, job: Job, config: Config, ai: Option<AiAnalysis>): MatchResult {
    var sk := SkillMatch(student.skills, job.required, job.preferred);
    var ex := ExperienceMatch(student, job);
    var ed := EducationMatch(student, job);
    var lo := LocationMatch(student, job);
    MatchResult(
      student.id, job.id,
      Round(OverallScore(sk.score, ex, ed, lo, config), 2),
      Round(sk.score, 2), Round(ex, 2), Round(ed, 2), Round(lo, 2),
      MatchDetails(sk.totalRequired, sk.matchedRequired, sk.bonusCount, sk.missing, sk.bonus,
                   if ai.Some? then ai.value else AiFallback),
      Reasons(sk, ex, ed, lo),
      Suggestions(sk))
  }

  predicate NonNegativeJobData(student: StudentProfile, job: Job) {
    NonNegativeSkillData(student.skills, job.required, job.preferred)
  }

  predicate NonNegativeWeights(c: Config) {
    c.skillWeight >= 0.0 && c.experienceWeight >= 0.0 && c.educationWeight >= 0.0 && c.locationWeight >= 0.0
  }

  /** The unrounded component scores all lie in [0, 100]. */
  lemma ComponentsInRange(student: StudentProfile, job: Job)
    requires NonNegativeJobData(student, job)
    ensures InPercentRange(SkillMatch(student.skills, job.required, job.preferred).score)
    ensures InPercentRange(ExperienceMatch(student, job))
    ensures InPercentRange(EducationMatch(student, job))
    ensures InPercentRange(LocationMatch(student, job))
  {
    SkillScoreBounds(student.skills, job.required, job.preferred);
  }

  /**
   * With non-negative data and weights summing to at most 1, every stored score
   * passes its field validator.
   */
  lemma StoredScoresInRange(student: StudentProfile, job: Job, config: Config, ai: Option<AiAnalysis>)
    requires NonNegativeJobData(student, job)
    requires NonNegativeWeights(config) && WeightSum(config) <= 1.0
    ensures ScoresInRange(ComputeMatch(student, job, config, ai))
  {
    var sk := SkillMatch(student.skills, job.required, job.preferred);
    var ex, ed, lo := ExperienceMatch(student, job), EducationMatch(student, job), LocationMatch(student, job);
    ComponentsInRange(student, job);
    OverallBounds(sk.score, ex, ed, lo, config);
    RoundWithin(OverallScore(sk.score, ex, ed, lo, config), 2, 0, 100);
    RoundWithin(sk.score, 2, 0, 100);
    RoundWithin(ex, 2, 0, 100);
    RoundWithin(ed, 2, 0, 100);
    RoundWithin(lo, 2, 0, 100);
  }

  /**
   * A configuration that passes the save check may sum to 1.01, so the stored
   * overall score can reach 101 but no more.
   */
  lemma OverallWithinSaveTolerance(student: StudentProfile, job: Job, config: Config, ai: Option<AiAnalysis>)
    requires NonNegativeJobData(student, job)
    requires NonNegativeWeights(config) && CheckWeightSum(config).Ok?
    ensures 0.0 <= ComputeMatch(student, job, config, ai).overall <= 101.0
  {
    var sk := SkillMatch(student.skills, job.required, job.preferred);
    var ex, ed, lo := ExperienceMatch(student, job), EducationMatch(student, job), LocationMatch(student, job);
    ComponentsInRange(student, job);
    OverallBounds(sk.score, ex, ed, lo, config);
    RoundWithin(OverallScore(sk.score, ex, ed, lo, config), 2, 0, 101);
  }

  /** The skill-detail rows are rebuilt only for a new result or one that has none. */
  predicate RebuildsDetails(results: map<(int, int), MatchResult>, details: map<(int, int), seq<SkillDetail>>, key: (int, int)) {
    key !in results || key !in details || details[key] == []
  }

  /** The keys of one student's results against a list of jobs. */
  function RowKeys(studentId: int, jobs: seq<Job>): set<(int, int)>
    decreases |jobs|
  {
    if |jobs| == 0 then {} else RowKeys(studentId, jobs[..|jobs| - 1]) + {(studentId, jobs[|jobs| - 1].id)}
  }

  /** The row keys are exactly the student's pairs with the listed jobs. */
  lemma {:induction false} RowKeysHas(studentId: int, jobs: seq<Job>)
    ensures forall b :: 0 <= b < |jobs| ==> (studentId, jobs[b].id) in RowKeys(studentId, jobs)
    ensures forall key :: key in RowKeys(studentId, jobs) ==> key.0 == studentId && exists b :: 0 <= b < |jobs| && key.1 == jobs[b].id
    decreases |jobs|
  {
    if |jobs| > 0 {
      var init := jobs[..|jobs| - 1];
      RowKeysHas(studentId, init);
      forall key | key in RowKeys(studentId, jobs)
        ensures key.0 == studentId && exists b :: 0 <= b < |jobs| && key.1 == jobs[b].id
      {
        if key in RowKeys(studentId, init) {
          var b :| 0 <= b < |init| && key.1 == init[b].id;
          assert init[b] == jobs[b];
        }
      }
      forall b | 0 <= b < |jobs|
        ensures (studentId, jobs[b].id) in RowKeys(studentId, jobs)
      {
        if b < |jobs| - 1 {
          assert init[b] == jobs[b];
        }
      }
    }
  }

  /** Two stores agree on every key outside `keys`. */
  ghost predicate SameOutside<V>(m: map<(int, int), V>, m0: map<(int, int), V>, keys: set<(int, int)>) {
    forall key :: key !in keys ==> (key in m <==> key in m0) && (key in m ==> m[key] == m0[key])
  }

  /** Every (student, job) pair of the lists has a key in `keys`. */
  ghost predicate PairsStored(students: seq<StudentProfile>, jobs: seq<Job>, keys: set<(int, int)>) {
    forall a, b :: 0 <= a < |students| && 0 <= b < |jobs| ==> (students[a].id, jobs[b].id) in keys
  }

  /** Storing one more student's row keeps every earlier pair and adds the new student's. */
  lemma PairsStoredStep(students: seq<StudentProfile>, i: int, jobs: seq<Job>, before: set<(int, int)>, after: set<(int, int)>)
    requires 0 <= i < |students|
    requires PairsStored(students[..i], jobs, before) && before <= after && RowKeys(students[i].id, jobs) <= after
    ensures PairsStored(students[..i + 1], jobs, after)
  {
    RowKeysHas(students[i].id, jobs);
    var prefix := students[..i + 1];
    forall a, b | 0 <= a < i + 1 && 0 <= b < |jobs|
      ensures (prefix[a].id, jobs[b].id) in after
    {
      if a < i {
        assert prefix[a] == students[..i][a];
      }
    }
  }

  /** Writing the keys `keys` loses no key that was there before. */
  lemma SameOutsideKeeps<V>(m: map<(int, int), V>, m0: map<(int, int), V>, keys: set<(int, int)>)
    requires SameOutside(m, m0, keys) && keys <= m.Keys
    ensures m0.Keys <= m.Keys
  {
  }

  /** The skill-detail rows stored under `key` once `calculate_match` has written a result whose rows are `rows`. */
  function DetailsAfterMatch(results: map<(int, int), MatchResult>, details: map<(int, int), seq<SkillDetail>>,
                             key: (int, int), rows: seq<SkillDetail>): seq<SkillDetail>
  {
    if RebuildsDetails(results, details, key) then rows else details[key]
  }

  /** No job among `jobs[b + 1..n]` has the id of `jobs[b]`: the pair with `jobs[b]` is the last one written. */
  predicate LastJobBy(jobs: seq<Job>, b: int, n: int)
    requires 0 <= b < n <= |jobs|
  {
    forall c :: b < c < n ==> jobs[c].id != jobs[b].id
  }

  /** No student among `students[a + 1..n]` has the id of `students[a]`. */
  predicate LastStudentBy(students: seq<StudentProfile>, a: int, n: int)
    requires 0 <= a < n <= |students|
  {
    forall c :: a < c < n ==> students[c].id != students[a].id
  }

  /** No other job of the list has the id of `jobs[b]`. */
  predicate OnlyJob(jobs: seq<Job>, b: int)
    requires 0 <= b < |jobs|
  {
    forall c :: 0 <= c < |jobs| && c != b ==> jobs[c].id != jobs[b].id
  }

  /** No other student of the list has the id of `students[a]`. */
  predicate OnlyStudent(students: seq<StudentProfile>, a: int)
    requires 0 <= a < |students|
  {
    forall c :: 0 <= c < |students| && c != a ==> students[c].id != students[a].id
  }

  /** The keys of all students' results against a list of jobs. */
  function BatchKeys(students: seq<StudentProfile>, jobs: seq<Job>): set<(int, int)>
    decreases |students|
  {
    if |students| == 0 then {}
    else BatchKeys(students[..|students| - 1], jobs) + RowKeys(students[|students| - 1].id, jobs)
  }

  /** Every batch key belongs to one of the listed students. */
  lemma {:induction false} BatchKeysStudent(students: seq<StudentProfile>, jobs: seq<Job>)
    ensures forall key :: key in BatchKeys(students, jobs) ==> exists a :: 0 <= a < |students| && key.0 == students[a].id
    decreases |students|
  {
    if |students| > 0 {
      var init := students[..|students| - 1];
      BatchKeysStudent(init, jobs);
      RowKeysHas(students[|students| - 1].id, jobs);
      forall key | key in BatchKeys(students, jobs)
        ensures exists a :: 0 <= a < |students| && key.0 == students[a].id
      {
        if key in BatchKeys(init, jobs) {
          var a :| 0 <= a < |init| && key.0 == init[a].id;
          assert init[a] == students[a];
        }
      }
    }
  }

  /**
   * Each pair of the student with a job of `jobs[..n]` that no later job of
   * `jobs[..n]` overwrites holds that job's result.
   */
  ghost predicate RowResults(results: map<(int, int), MatchResult>, student: StudentProfile, jobs: seq<Job>, n: int,
                             f: (StudentProfile, Job) -> MatchResult)
    requires 0 <= n <= |jobs|
  {
    forall b :: 0 <= b < n && LastJobBy(jobs, b, n) ==>
      (student.id, jobs[b].id) in results && results[(student.id, jobs[b].id)] == f(student, jobs[b])
  }

  /**
   * Each pair of the student with a job of `jobs[..n]` whose id no other job
   * of the list has holds the rows one `calculate_match` writes over
   * `results0` and `details0`.
   */
  ghost predicate RowDetails(details: map<(int, int), seq<SkillDetail>>, results0: map<(int, int), MatchResult>,
                             details0: map<(int, int), seq<SkillDetail>>, student: StudentProfile, jobs: seq<Job>, n: int)
    requires 0 <= n <= |jobs|
  {
    forall b :: 0 <= b < n && OnlyJob(jobs, b) ==>
      (student.id, jobs[b].id) in details
      && details[(student.id, jobs[b].id)]
         == DetailsAfterMatch(results0, details0, (student.id, jobs[b].id),
                              SkillMatch(student.skills, jobs[b].required, jobs[b].preferred).details)
  }

  /** Writing the pair with `jobs[j]` extends the last-write property to `jobs[..j + 1]`. */
  lemma RowResultsStep(r0: map<(int, int), MatchResult>, r1: map<(int, int), MatchResult>, student: StudentProfile,
                       jobs: seq<Job>, j: int, f: (StudentProfile, Job) -> MatchResult)
    requires 0 <= j < |jobs|
    requires RowResults(r0, student, jobs, j, f)
    requires r1 == r0[(student.id, jobs[j].id) := f(student, jobs[j])]
    ensures RowResults(r1, student, jobs, j + 1, f)
  {
    forall b | 0 <= b < j + 1 && LastJobBy(jobs, b, j + 1)
      ensures (student.id, jobs[b].id) in r1 && r1[(student.id, jobs[b].id)] == f(student, jobs[b])
    {
      if b < j {
        assert jobs[j].id != jobs[b].id;
        assert LastJobBy(jobs, b, j);
      }
    }
  }

  /** Writing the pair with `jobs[j]`, untouched so far when its id is unique, extends the detail property. */
  lemma RowDetailsStep(d0: map<(int, int), seq<SkillDetail>>, d1: map<(int, int), seq<SkillDetail>>,
                       r0: map<(int, int), MatchResult>, results0: map<(int, int), MatchResult>,
                       details0: map<(int, int), seq<SkillDetail>>, student: StudentProfile, jobs: seq<Job>, j: int)
    requires 0 <= j < |jobs|
    requires RowDetails(d0, results0, details0, student, jobs, j)
    requires OnlyJob(jobs, j) ==>
      var key := (student.id, jobs[j].id);
      (key in r0 <==> key in results0) && (key in d0 <==> key in details0)
      && (key in d0 ==> d0[key] == details0[key])
    requires var key := (student.id, jobs[j].id);
      d1 == if RebuildsDetails(r0, d0, key)
            then d0[key := SkillMatch(student.skills, jobs[j].required, jobs[j].preferred).details]
            else d0
    ensures RowDetails(d1, results0, details0, student, jobs, j + 1)
  {
    var key := (student.id, jobs[j].id);
    forall b | 0 <= b < j + 1 && OnlyJob(jobs, b)
      ensures (student.id, jobs[b].id) in d1
              && d1[(student.id, jobs[b].id)]
                 == DetailsAfterMatch(results0, details0, (student.id, jobs[b].id),
                                      SkillMatch(student.skills, jobs[b].required, jobs[b].preferred).details)
    {
      if b < j {
        assert jobs[j].id != jobs[b].id;
      } else {
        assert RebuildsDetails(r0, d0, key) == RebuildsDetails(results0, details0, key);
      }
    }
  }

  /** Changing at most `more` after changing at most `keys` changes at most both. */
  lemma SameOutsideStep<V>(m1: map<(int, int), V>, m0: map<(int, int), V>, mOld: map<(int, int), V>,
                           keys: set<(int, int)>, more: set<(int, int)>)
    requires SameOutside(m0, mOld, keys) && SameOutside(m1, m0, more)
    ensures SameOutside(m1, mOld, keys + more)
  {
  }

  /**
   * Each pair of a student of `students[..n]` that no later student of
   * `students[..n]` overwrites, with a job that no later job overwrites,
   * holds that pair's result.
   */
  ghost predicate BatchResults(results: map<(int, int), MatchResult>, students: seq<StudentProfile>, jobs: seq<Job>,
                               n: int, f: (StudentProfile, Job) -> MatchResult)
    requires 0 <= n <= |students|
  {
    forall a, b :: 0 <= a < n && 0 <= b < |jobs| && LastStudentBy(students, a, n) && LastJobBy(jobs, b, |jobs|) ==>
      (students[a].id, jobs[b].id) in results && results[(students[a].id, jobs[b].id)] == f(students[a], jobs[b])
  }

  /**
   * Each pair of a student of `students[..n]` and a job whose ids no other
   * student or job of the lists has holds the rows one `calculate_match`
   * writes over `results0` and `details0`.
   */
  ghost predicate BatchDetails(details: map<(int, int), seq<SkillDetail>>, results0: map<(int, int), MatchResult>,
                               details0: map<(int, int), seq<SkillDetail>>, students: seq<StudentProfile>,
                               jobs: seq<Job>, n: int)
    requires 0 <= n <= |students|
  {
    forall a, b :: 0 <= a < n && 0 <= b < |jobs| && OnlyStudent(students, a) && OnlyJob(jobs, b) ==>
      (students[a].id, jobs[b].id) in details
      && details[(students[a].id, jobs[b].id)]
         == DetailsAfterMatch(results0, details0, (students[a].id, jobs[b].id),
                              SkillMatch(students[a].skills, jobs[b].required, jobs[b].preferred).details)
  }

  /** Storing the row of `students[i]` extends the last-write property to `students[..i + 1]`. */
  lemma BatchResultsStep(r0: map<(int, int), MatchResult>, r1: map<(int, int), MatchResult>,
                         students: seq<StudentProfile>, jobs: seq<Job>, i: int, f: (StudentProfile, Job) -> MatchResult)
    requires 0 <= i < |students|
    requires BatchResults(r0, students, jobs, i, f)
    requires SameOutside(r1, r0, RowKeys(students[i].id, jobs))
    requires RowResults(r1, students[i], jobs, |jobs|, f)
    ensures BatchResults(r1, students, jobs, i + 1, f)
  {
    forall a, b | 0 <= a < i + 1 && 0 <= b < |jobs| && LastStudentBy(students, a, i + 1) && LastJobBy(jobs, b, |jobs|)
      ensures (students[a].id, jobs[b].id) in r1 && r1[(students[a].id, jobs[b].id)] == f(students[a], jobs[b])
    {
      if a < i {
        assert students[i].id != students[a].id;
        OtherStudentKept(r1, r0, students[i].id, jobs, (students[a].id, jobs[b].id));
        assert LastStudentBy(students, a, i);
      }
    }
  }

  /** Writing one student's row leaves every key of another student as it was. */
  lemma OtherStudentKept<V>(m1: map<(int, int), V>, m0: map<(int, int), V>, studentId: int, jobs: seq<Job>, key: (int, int))
    requires SameOutside(m1, m0, RowKeys(studentId, jobs)) && key.0 != studentId
    ensures (key in m1 <==> key in m0) && (key in m1 ==> m1[key] == m0[key])
  {
    RowKeysHas(studentId, jobs);
  }

  /** Storing the row of `students[i]` extends the detail property to `students[..i + 1]`. */
  lemma BatchDetailsStep(d0: map<(int, int), seq<SkillDetail>>, d1: map<(int, int), seq<SkillDetail>>,
                         results0: map<(int, int), MatchResult>, details0: map<(int, int), seq<SkillDetail>>,
                         students: seq<StudentProfile>, jobs: seq<Job>, i: int)
    requires 0 <= i < |students|
    requires BatchDetails(d0, results0, details0, students, jobs, i)
    requires SameOutside(d1, d0, RowKeys(students[i].id, jobs))
    requires OnlyStudent(students, i) ==> RowDetails(d1, results0, details0, students[i], jobs, |jobs|)
    ensures BatchDetails(d1, results0, details0, students, jobs, i + 1)
  {
    forall a, b | 0 <= a < i + 1 && 0 <= b < |jobs| && OnlyStudent(students, a) && OnlyJob(jobs, b)
      ensures (students[a].id, jobs[b].id) in d1
              && d1[(students[a].id, jobs[b].id)]
                 == DetailsAfterMatch(results0, details0, (students[a].id, jobs[b].id),
                                      SkillMatch(students[a].skills, jobs[b].required, jobs[b].preferred).details)
    {
      if a < i {
        assert students[i].id != students[a].id;
        OtherStudentKept(d1, d0, students[i].id, jobs, (students[a].id, jobs[b].id));
      }
    }
  }

  /** The detail property of a row does not depend on the stores outside `keys` when the row's keys lie outside. */
  lemma RowDetailsRebase(d: map<(int, int), seq<SkillDetail>>, rA: map<(int, int), MatchResult>,
                         dA: map<(int, int), seq<SkillDetail>>, rB: map<(int, int), MatchResult>,
                         dB: map<(int, int), seq<SkillDetail>>, student: StudentProfile, jobs: seq<Job>,
                         keys: set<(int, int)>)
    requires RowDetails(d, rA, dA, student, jobs, |jobs|)
    requires SameOutside(rA, rB, keys) && SameOutside(dA, dB, keys)
    requires forall b :: 0 <= b < |jobs| ==> (student.id, jobs[b].id) !in keys
    ensures RowDetails(d, rB, dB, student, jobs, |jobs|)
  {
    forall b | 0 <= b < |jobs| && OnlyJob(jobs, b)
      ensures (student.id, jobs[b].id) in d
              && d[(student.id, jobs[b].id)]
                 == DetailsAfterMatch(rB, dB, (student.id, jobs[b].id),
                                      SkillMatch(student.skills, jobs[b].required, jobs[b].preferred).details)
    {
      var key := (student.id, jobs[b].id);
      assert RebuildsDetails(rA, dA, key) == RebuildsDetails(rB, dB, key);
    }
  }

  /** A student whose id no other student has has no key among the earlier students' keys. */
  lemma OnlyStudentUnwritten(students: seq<StudentProfile>, jobs: seq<Job>, i: int)
    requires 0 <= i < |students| && OnlyStudent(students, i)
    ensures forall b :: 0 <= b < |jobs| ==> (students[i].id, jobs[b].id) !in BatchKeys(students[..i], jobs)
  {
    BatchKeysStudent(students[..i], jobs);
    assert forall a :: 0 <= a < i ==> students[..i][a].id != students[i].id;
  }

  /**
   * What the batch loop has stored after `students[..n]`: every pair has a
   * result, no earlier key is lost, only the batch's keys changed, and each
   * pair holds its last-written result and, for unique ids, its rows.
   */
  ghost predicate BatchStored(results: map<(int, int), MatchResult>, details: map<(int, int), seq<SkillDetail>>,
                              results0: map<(int, int), MatchResult>, details0: map<(int, int), seq<SkillDetail>>,
                              students: seq<StudentProfile>, jobs: seq<Job>, n: int, f: (StudentProfile, Job) -> MatchResult)
    requires 0 <= n <= |students|
  {
    PairsStored(students[..n], jobs, results.Keys)
    && results0.Keys <= results.Keys
    && SameOutside(results, results0, BatchKeys(students[..n], jobs))
    && SameOutside(details, details0, BatchKeys(students[..n], jobs))
    && BatchResults(results, students, jobs, n, f)
    && BatchDetails(details, results0, details0, students, jobs, n)
  }

  /** Storing the row of `students[i]`, as the inner loop does, extends what the batch has stored. */
  lemma BatchStoredStep(r0: map<(int, int), MatchResult>, d0: map<(int, int), seq<SkillDetail>>,
                        r1: map<(int, int), MatchResult>, d1: map<(int, int), seq<SkillDetail>>,
                        results0: map<(int, int), MatchResult>, details0: map<(int, int), seq<SkillDetail>>,
                        students: seq<StudentProfile>, jobs: seq<Job>, i: int, f: (StudentProfile, Job) -> MatchResult)
    requires 0 <= i < |students|
    requires BatchStored(r0, d0, results0, details0, students, jobs, i, f)
    requires RowKeys(students[i].id, jobs) <= r1.Keys
    requires SameOutside(r1, r0, RowKeys(students[i].id, jobs))
    requires SameOutside(d1, d0, RowKeys(students[i].id, jobs))
    requires RowResults(r1, students[i], jobs, |jobs|, f)
    requires RowDetails(d1, r0, d0, students[i], jobs, |jobs|)
    ensures BatchStored(r1, d1, results0, details0, students, jobs, i + 1, f)
  {
    BatchKeysSplit(students, jobs, i);
    BatchResultsStoredStep(r0, r1, results0, students, jobs, i, f);
    BatchDetailsStoredStep(r0, d0, d1, results0, details0, students, jobs, i);
  }

  /** The batch's keys after one more student are those before plus that student's row. */
  lemma BatchKeysSplit(students: seq<StudentProfile>, jobs: seq<Job>, i: int)
    requires 0 <= i < |students|
    ensures BatchKeys(students[..i + 1], jobs) == BatchKeys(students[..i], jobs) + RowKeys(students[i].id, jobs)
  {
    assert students[..i + 1][..i] == students[..i];
  }

  /** The results half of `BatchStoredStep`. */
  lemma BatchResultsStoredStep(r0: map<(int, int), MatchResult>, r1: map<(int, int), MatchResult>,
                               results0: map<(int, int), MatchResult>,
                               students: seq<StudentProfile>, jobs: seq<Job>, i: int, f: (StudentProfile, Job) -> MatchResult)
    requires 0 <= i < |students|
    requires PairsStored(students[..i], jobs, r0.Keys) && results0.Keys <= r0.Keys
    requires SameOutside(r0, results0, BatchKeys(students[..i], jobs))
    requires BatchResults(r0, students, jobs, i, f)
    requires RowKeys(students[i].id, jobs) <= r1.Keys
    requires SameOutside(r1, r0, RowKeys(students[i].id, jobs))
    requires RowResults(r1, students[i], jobs, |jobs|, f)
    requires BatchKeys(students[..i + 1], jobs) == BatchKeys(students[..i], jobs) + RowKeys(students[i].id, jobs)
    ensures PairsStored(students[..i + 1], jobs, r1.Keys) && results0.Keys <= r1.Keys
    ensures SameOutside(r1, results0, BatchKeys(students[..i + 1], jobs))
    ensures BatchResults(r1, students, jobs, i + 1, f)
  {
    SameOutsideKeeps(r1, r0, RowKeys(students[i].id, jobs));
    PairsStoredStep(students, i, jobs, r0.Keys, r1.Keys);
    BatchResultsStep(r0, r1, students, jobs, i, f);
    SameOutsideStep(r1, r0, results0, BatchKeys(students[..i], jobs), RowKeys(students[i].id, jobs));
  }

  /** The skill-detail half of `BatchStoredStep`. */
  lemma BatchDetailsStoredStep(r0: map<(int, int), MatchResult>,
                               d0: map<(int, int), seq<SkillDetail>>, d1: map<(int, int), seq<SkillDetail>>,
                               results0: map<(int, int), MatchResult>, details0: map<(int, int), seq<SkillDetail>>,
                               students: seq<StudentProfile>, jobs: seq<Job>, i: int)
    requires 0 <= i < |students|
    requires SameOutside(r0, results0, BatchKeys(students[..i], jobs))
    requires SameOutside(d0, details0, BatchKeys(students[..i], jobs))
    requires BatchDetails(d0, results0, details0, students, jobs, i)
    requires SameOutside(d1, d0, RowKeys(students[i].id, jobs))
    requires RowDetails(d1, r0, d0, students[i], jobs, |jobs|)
    requires BatchKeys(students[..i + 1], jobs) == BatchKeys(students[..i], jobs) + RowKeys(students[i].id, jobs)
    ensures SameOutside(d1, details0, BatchKeys(students[..i + 1], jobs))
    ensures BatchDetails(d1, results0, details0, students, jobs, i + 1)
  {
    if OnlyStudent(students, i) {
      OnlyStudentUnwritten(students, jobs, i);
      RowDetailsRebase(d1, r0, d0, results0, details0, students[i], jobs, BatchKeys(students[..i], jobs));
    }
    BatchDetailsStep(d0, d1, results0, details0, students, jobs, i);
    SameOutsideStep(d1, d0, details0, BatchKeys(students[..i], jobs), RowKeys(students[i].id, jobs));
  }

  /** The stored match results and their skill-detail rows, keyed by (student id, job id). */
  class MatchStore {
    var results: map<(int, int), MatchResult>
    var skillDetails: map<(int, int), seq<SkillDetail>>

    constructor ()
      ensures results == map[] && skillDetails == map[]
    {
      results := map[];
      skillDetails := map[];
    }

    /** `IntelligentMatcher.calculate_match`: one result per (student, job), created or overwritten. */
    method CalculateMatch(student: StudentProfile, job: Job, config: Config, ai: Option<AiAnalysis>)
      returns (r: MatchResult)
      modifies this
      ensures r == ComputeMatch(student, job, config, ai)
      ensures results == old(results)[(student.id, job.id) := r]
      ensures skillDetails ==
        if RebuildsDetails(old(results), old(skillDetails), (student.id, job.id))
        then old(skillDetails)[(student.id, job.id) := SkillMatch(student.skills, job.required, job.preferred).details]
        else old(skillDetails)
    {
      var sk := CalculateSkillMatch(student.skills, job.required, job.preferred);
      var ex := ExperienceMatch(student, job);
      var ed := EducationMatch(student, job);
      var lo := LocationMatch(student, job);
      var overall := OverallScore(sk.score, ex, ed, lo, config);
      var reasons := GenerateReasons(sk, ex, ed, lo);
      var suggestions := GenerateSuggestions(sk);
      var key := (student.id, job.id);
      var created := key !in results;
      var analysis := if ai.Some? then ai.value else AiFallback;
      r := MatchResult(student.id, job.id, Round(overall, 2), Round(sk.score, 2), Round(ex, 2), Round(ed, 2), Round(lo, 2),
                       MatchDetails(sk.totalRequired, sk.matchedRequired, sk.bonusCount, sk.missing, sk.bonus, analysis),
                       reasons, suggestions);
      results := results[key := r];
      if created || key !in skillDetails || skillDetails[key] == [] {
        skillDetails := skillDetails[key := sk.details];
      }
    }

    /** One pair of `batch_match`: `calculate_match` with the pair's AI analysis. */
    method MatchPair(student: StudentProfile, job: Job, config: Config, ai: (int, int) -> Option<AiAnalysis>)
      returns (r: MatchResult)
      modifies this
      ensures r == Matcher(config, ai)(student, job)
      ensures results == old(results)[(student.id, job.id) := r]
      ensures skillDetails ==
        if RebuildsDetails(old(results), old(skillDetails), (student.id, job.id))
        then old(skillDetails)[(student.id, job.id) := SkillMatch(student.skills, job.required, job.preferred).details]
        else old(skillDetails)
    {
      r := CalculateMatch(student, job, config, ai(student.id, job.id));
    }

    /** The inner loop of `batch_match`: one student against every job, in order. */
    method MatchStudent(student: StudentProfile, jobs: seq<Job>, config: Config,
                        ai: (int, int) -> Option<AiAnalysis>, minScore: real)
      returns (row: seq<MatchResult>)
      modifies this
      ensures row == KeptRow(student, jobs, Matcher(config, ai), minScore)
      ensures RowKeys(student.id, jobs) <= results.Keys
      ensures SameOutside(results, old(results), RowKeys(student.id, jobs))
      ensures SameOutside(skillDetails, old(skillDetails), RowKeys(student.id, jobs))
      ensures RowResults(results, student, jobs, |jobs|, Matcher(config, ai))
      ensures RowDetails(skillDetails, old(results), old(skillDetails), student, jobs, |jobs|)
    {
      ghost var f := Matcher(config, ai);
      row := [];
      var j := 0;
      while j < |jobs|
        invariant 0 <= j <= |jobs|
        invariant row == KeptRow(student, jobs[..j], f, minScore)
        invariant RowKeys(student.id, jobs[..j]) <= results.Keys
        invariant SameOutside(results, old(results), RowKeys(student.id, jobs[..j]))
        invariant SameOutside(skillDetails, old(skillDetails), RowKeys(student.id, jobs[..j]))
        invariant RowResults(results, student, jobs, j, f)
        invariant RowDetails(skillDetails, old(results), old(skillDetails), student, jobs, j)
      {
        assert jobs[..j + 1][..j] == jobs[..j];
        var job := jobs[j];
        var key := (student.id, job.id);
        KeptRowStep(student, jobs, j, f, minScore);
        RowKeysHas(student.id, jobs[..j]);
        if OnlyJob(jobs, j) {
          assert key !in RowKeys(student.id, jobs[..j]);
        }
        ghost var r0, d0 := results, skillDetails;
        var r := MatchPair(student, job, config, ai);
        RowResultsStep(r0, results, student, jobs, j, f);
        RowDetailsStep(d0, skillDetails, r0, old(results), old(skillDetails), student, jobs, j);
        SameOutsideStep(results, r0, old(results), RowKeys(student.id, jobs[..j]), {key});
        SameOutsideStep(skillDetails, d0, old(skillDetails), RowKeys(student.id, jobs[..j]), {key});
        if r.overall >= minScore {
          row := row + [r];
        }
        j := j + 1;
      }
      assert jobs[..|jobs|] == jobs;
    }

    /**
     * `IntelligentMatcher.batch_match`: every student against every job, in
     * that order, keeping the results at or above `minScore`.  `ai` gives the AI
     * analysis of each (student id, job id) pair.
     */
    method BatchMatch(students: seq<StudentProfile>, jobs: seq<Job>, config: Config,
                      ai: (int, int) -> Option<AiAnalysis>, minScore: real)
      returns (matched: seq<MatchResult>)
      modifies this
      ensures matched == KeptBatch(students, jobs, Matcher(config, ai), minScore)
      ensures BatchStored(results, skillDetails, old(results), old(skillDetails), students, jobs, |students|, Matcher(config, ai))
    {
      ghost var f := Matcher(config, ai);
      matched := [];
      var i := 0;
      while i < |students|
        invariant 0 <= i <= |students|
        invariant matched == KeptBatch(students[..i], jobs, f, minScore)
        invariant BatchStored(results, skillDetails, old(results), old(skillDetails), students, jobs, i, f)
      {
        ghost var before, detailsBefore := results, skillDetails;
        var row := MatchStudent(students[i], jobs, config, ai, minScore);
        BatchStoredStep(before, detailsBefore, results, skillDetails, old(results), old(skillDetails), students, jobs, i, f);
        KeptBatchStep(students, jobs, i, f, minScore);
        matched := matched + row;
        i := i + 1;
      }
      assert students[..|students|] == students;
    }
  }

  /** The match `calculate_match` stores for a pair, under a configuration and the AI answers. */
  function Matcher(config: Config, ai: (int, int) -> Option<AiAnalysis>): (StudentProfile, Job) -> MatchResult {
    (s: StudentProfile, j: Job) => ComputeMatch(s, j, config, ai(s.id, j.id))
  }

  /** The kept results of one student against the jobs, in job order. */
  function KeptRow(student: StudentProfile, jobs: seq<Job>, f: (StudentProfile, Job) -> MatchResult, minScore: real): seq<MatchResult>
    decreases |jobs|
  {
    if |jobs| == 0 then []
    else KeptRow(student, jobs[..|jobs| - 1], f, minScore)
         + When(f(student, jobs[|jobs| - 1]).overall >= minScore, f(student, jobs[|jobs| - 1]))
  }

  /** The kept results of all students against all jobs, student by student. */
  function KeptBatch(students: seq<StudentProfile>, jobs: seq<Job>, f: (StudentProfile, Job) -> MatchResult,
                     minScore: real): seq<MatchResult>
    decreases |students|
  {
    if |students| == 0 then []
    else KeptBatch(students[..|students| - 1], jobs, f, minScore) + KeptRow(students[|students| - 1], jobs, f, minScore)
  }

  /** Extending the jobs by one adds that job's result when it reaches the minimum. */
  lemma KeptRowStep(student: StudentProfile, jobs: seq<Job>, j: int, f: (StudentProfile, Job) -> MatchResult, minScore: real)
    requires 0 <= j < |jobs|
    ensures KeptRow(student, jobs[..j + 1], f, minScore)
            == KeptRow(student, jobs[..j], f, minScore) + When(f(student, jobs[j]).overall >= minScore, f(student, jobs[j]))
  {
    assert jobs[..j + 1][..j] == jobs[..j];
  }

  /** Extending the students by one appends that student's row. */
  lemma KeptBatchStep(students: seq<StudentProfile>, jobs: seq<Job>, i: int, f: (StudentProfile, Job) -> MatchResult, minScore: real)
    requires 0 <= i < |students|
    ensures KeptBatch(students[..i + 1], jobs, f, minScore)
            == KeptBatch(students[..i], jobs, f, minScore) + KeptRow(students[i], jobs, f, minScore)
  {
    assert students[..i + 1][..i] == students[..i];
  }

  /** A student's row holds exactly the pairs whose overall score reaches the minimum. */
  lemma {:induction false} KeptRowExact(student: StudentProfile, jobs: seq<Job>,
                                        f: (StudentProfile, Job) -> MatchResult, minScore: real)
    ensures forall r :: r in KeptRow(student, jobs, f, minScore) <==>
      exists b :: 0 <= b < |jobs| && r == f(student, jobs[b]) && r.overall >= minScore
    decreases |jobs|
  {
    if |jobs| > 0 {
      var init := jobs[..|jobs| - 1];
      KeptRowExact(student, init, f, minScore);
      forall r
        ensures r in KeptRow(student, jobs, f, minScore) <==>
          exists b :: 0 <= b < |jobs| && r == f(student, jobs[b]) && r.overall >= minScore
      {
        if exists b :: 0 <= b < |jobs| && r == f(student, jobs[b]) && r.overall >= minScore {
          var b :| 0 <= b < |jobs| && r == f(student, jobs[b]) && r.overall >= minScore;
          if b < |jobs| - 1 {
            assert init[b] == jobs[b];
          }
        }
      }
    }
  }

  /** The batch holds exactly what the students' rows hold. */
  lemma {:induction false} KeptBatchRows(students: seq<StudentProfile>, jobs: seq<Job>,
                                         f: (StudentProfile, Job) -> MatchResult, minScore: real)
    ensures forall r :: r in KeptBatch(students, jobs, f, minScore) <==>
      exists a :: 0 <= a < |students| && r in KeptRow(students[a], jobs, f, minScore)
    decreases |students|
  {
    if |students| > 0 {
      var init := students[..|students| - 1];
      var last := students[|students| - 1];
      KeptBatchRows(init, jobs, f, minScore);
      assert KeptBatch(students, jobs, f, minScore) == KeptBatch(init, jobs, f, minScore) + KeptRow(last, jobs, f, minScore);
      forall r
        ensures r in KeptBatch(students, jobs, f, minScore) <==>
          exists a :: 0 <= a < |students| && r in KeptRow(students[a], jobs, f, minScore)
      {
        if r in KeptBatch(init, jobs, f, minScore) {
          var a :| 0 <= a < |init| && r in KeptRow(init[a], jobs, f, minScore);
          assert init[a] == students[a];
        } else if r in KeptRow(last, jobs, f, minScore) {
          assert r in KeptRow(students[|students| - 1], jobs, f, minScore);
        }
        if exists a :: 0 <= a < |students| && r in KeptRow(students[a], jobs, f, minScore) {
          var a :| 0 <= a < |students| && r in KeptRow(students[a], jobs, f, minScore);
          if a < |students| - 1 {
            assert init[a] == students[a];
          }
        }
      }
    }
  }

  /** The batch holds exactly the (student, job) results whose overall score reaches the minimum. */
  lemma KeptBatchExact(students: seq<StudentProfile>, jobs: seq<Job>,
                       f: (StudentProfile, Job) -> MatchResult, minScore: real, r: MatchResult)
    ensures r in KeptBatch(students, jobs, f, minScore) <==>
      exists a, b :: 0 <= a < |students| && 0 <= b < |jobs| && r == f(students[a], jobs[b]) && r.overall >= minScore
  {
    KeptBatchRows(students, jobs, f, minScore);
    if r in KeptBatch(students, jobs, f, minScore) {
      var a :| 0 <= a < |students| && r in KeptRow(students[a], jobs, f, minScore);
      KeptRowExact(students[a], jobs, f, minScore);
    }
    if exists a, b :: 0 <= a < |students| && 0 <= b < |jobs| && r == f(students[a], jobs[b]) && r.overall >= minScore {
      var a, b :| 0 <= a < |students| && 0 <= b < |jobs| && r == f(students[a], jobs[b]) && r.overall >= minScore;
      KeptRowExact(students[a], jobs, f, minScore);
    }
  }

  /** A batch's results are exactly the stored matches of the pairs that reach the minimum score. */
  lemma BatchMatchExact(students: seq<StudentProfile>, jobs: seq<Job>, config: Config,
                        ai: (int, int) -> Option<AiAnalysis>, minScore: real, r: MatchResult)
    ensures r in KeptBatch(students, jobs, Matcher(config, ai), minScore) <==>
      exists a, b :: 0 <= a < |students| && 0 <= b < |jobs|
                     && r == ComputeMatch(students[a], jobs[b], config, ai(students[a].id, jobs[b].id))
                     && r.overall >= minScore
  {
    KeptBatchExact(students, jobs, Matcher(config, ai), minScore, r);
  }
}
