// Job postings, their skill requirements and preferences, the salary label,
// the view counter and the category tree.
module JobModels {
  import opened Common
  import opened Strings
  import opened Dates
  import opened Numbers

  datatype JobType = FullTime | PartTime | Internship | Contract | Freelance

  /** `Job.experience_level`; `UnlistedLevel` is any stored value outside the choices. */
  datatype ExperienceLevel = Entry | Junior | Mid | Senior | Lead | Executive | UnlistedLevel

  datatype RemoteOption = OnSite | Remote | Hybrid

  /** `JobSkillRequirement.importance`. */
  datatype Importance = Critical | Important | NiceToHave

  /** One `JobSkillRequirement` row with its skill's name. */
  datatype RequiredSkill = RequiredSkill(skillId: int, name: string, importance: Importance, minExperience: real, weight: real)

  /** One `JobSkillPreference` row with its skill's name. */
  datatype PreferredSkill = PreferredSkill(skillId: int, name: string, bonusPoints: real)

  /**
   * The parts of a job posting the matching and listing code reads.  The
   * requirement and preference lists are in query order; a job has at most
   * one row per skill and skill names are unique, so each list is keyed by
   * skill name.
   */
  datatype Job = Job(
    id: int,
    title: string,
    experienceLevel: ExperienceLevel,
    remoteOption: RemoteOption,
    city: string,
    isActive: bool,
    deadline: Option<Date>,
    required: seq<RequiredSkill>,
    preferred: seq<PreferredSkill>)

  // ---------------------------------------------------------------------------
  // Field bounds of the requirement and preference rows.
  // ---------------------------------------------------------------------------

  const DefaultImportance: Importance := Important
  const DefaultMinExperience: real := 0.0
  const DefaultWeight: real := 1.0
  const DefaultBonusPoints: real := 0.5

  predicate WeightInBounds(w: real) { 0.1 <= w <= 5.0 }

  predicate BonusInBounds(b: real) { 0.1 <= b <= 2.0 }

  /**
   * A requirement row built from submitted fields: absent fields take their
   * defaults and the weight must lie in [0.1, 5.0].
   */
  function NewRequirement(skillId: int, name: string, importance: Option<Importance>,
                          minExperience: Option<real>, weight: Option<real>): (r: Result<RequiredSkill, string>)
    ensures r.Ok? <==> (weight.None? || WeightInBounds(weight.value))
    ensures r.Ok? ==> WeightInBounds(r.value.weight) && r.value.skillId == skillId
    ensures r.Ok? ==> r.value.importance == (if importance.Some? then importance.value else DefaultImportance)
    ensures r.Ok? ==> r.value.minExperience == (if minExperience.Some? then minExperience.value else DefaultMinExperience)
    ensures r.Ok? && weight.None? ==> r.value.weight == DefaultWeight
  {
    var w := if weight.Some? then weight.value else DefaultWeight;
    if !WeightInBounds(w) then Err("weight out of range")
    else Ok(RequiredSkill(skillId, name,
                          if importance.Some? then importance.value else DefaultImportance,
                          if minExperience.Some? then minExperience.value else DefaultMinExperience,
                          w))
  }

  /** A preference row built from submitted fields: bonus points default to 0.5 and lie in [0.1, 2.0]. */
  function NewPreference(skillId: int, name: string, bonusPoints: Option<real>): (r: Result<PreferredSkill, string>)
    ensures r.Ok? <==> (bonusPoints.None? || BonusInBounds(bonusPoints.value))
    ensures r.Ok? ==> BonusInBounds(r.value.bonusPoints) && r.value.skillId == skillId
    ensures r.Ok? && bonusPoints.None? ==> r.value.bonusPoints == DefaultBonusPoints
  {
    var b := if bonusPoints.Some? then bonusPoints.value else DefaultBonusPoints;
    if !BonusInBounds(b) then Err("bonus points out of range")
    else Ok(PreferredSkill(skillId, name, b))
  }

  // ---------------------------------------------------------------------------
  // `Job.salary_range_display`: amounts are shown with `{:,.0f}`.
  // ---------------------------------------------------------------------------

  const Negotiable: string := "薪资面议"

  /** Digits with a ',' inserted before every group of three, counted from the right. */
  function GroupThousands(d: string): (r: string)
    ensures |r| >= |d|
    ensures |d| > 0 ==> |r| > 0 && r[0] == d[0]
  {
    if |d| <= 3 then d else GroupThousands(d[..|d| - 3]) + "," + d[|d| - 3..]
  }

  function RemoveCommas(s: string): (r: string)
    ensures ',' !in r
  {
    if |s| == 0 then [] else (if s[0] == ',' then [] else [s[0]]) + RemoveCommas(s[1..])
  }

  lemma {:induction false} RemoveCommasConcat(a: string, b: string)
    ensures RemoveCommas(a + b) == RemoveCommas(a) + RemoveCommas(b)
    decreases |a|
  {
    if |a| > 0 {
      assert (a + b)[1..] == a[1..] + b;
      RemoveCommasConcat(a[1..], b);
    } else {
      assert a + b == b;
    }
  }

  lemma RemoveCommasNone(s: string)
    requires ',' !in s
    ensures RemoveCommas(s) == s
  {
  }

  /** Taking the separators out again gives the digits back. */
  lemma {:induction false} GroupThousandsRoundTrip(d: string)
    requires ',' !in d
    ensures RemoveCommas(GroupThousands(d)) == d
    decreases |d|
  {
    if |d| <= 3 {
      RemoveCommasNone(d);
    } else {
      var head, tail := d[..|d| - 3], d[|d| - 3..];
      assert ',' !in head && ',' !in tail;
      assert GroupThousands(d) == GroupThousands(head) + "," + tail;
      GroupThousandsRoundTrip(head);
      RemoveSeparatorBetween(GroupThousands(head), head, tail);
      assert head + tail == d;
    }
  }

  /** One separator between a group that reads back as `head` and a separator-free `tail`. */
  lemma RemoveSeparatorBetween(g: string, head: string, tail: string)
    requires RemoveCommas(g) == head && ',' !in tail
    ensures RemoveCommas(g + "," + tail) == head + tail
  {
    var sep := g + ",";
    RemoveCommasConcat(g, ",");
    assert RemoveCommas(",") == [] by {
      assert ","[1..] == [];
    }
    assert RemoveCommas(sep) == head;
    RemoveCommasConcat(sep, tail);
    RemoveCommasNone(tail);
    assert sep + tail == g + "," + tail;
  }

  /** `format(x, ',.0f')` on a decimal amount: rounded half to even, sign kept. */
  function FormatAmount(x: real): (r: string)
    ensures |r| > 0 && (r[0] == '-' || IsDigit(r[0]))
  {
    var n := RoundHalfEven(x);
    var digits := NatToString(if n < 0 then -n else n);
    (if x < 0.0 then "-" else "") + GroupThousands(digits)
  }

  /** A non-negative amount is displayed as its rounded value with separators. */
  lemma FormatAmountReadsBack(x: real)
    requires x >= 0.0
    ensures RoundHalfEven(x) >= 0
    ensures RemoveCommas(FormatAmount(x)) == NatToString(RoundHalfEven(x))
    ensures DigitsValue(RemoveCommas(FormatAmount(x))) == RoundHalfEven(x)
  {
    var d := NatToString(RoundHalfEven(x));
    assert forall i :: 0 <= i < |d| ==> d[i] != ',';
    assert FormatAmount(x) == GroupThousands(d);
    GroupThousandsRoundTrip(d);
    NatToStringRoundTrip(RoundHalfEven(x));
  }

  function SalaryRangeDisplay(salaryMin: Option<real>, salaryMax: Option<real>, currency: string): (r: string)
    ensures r == Negotiable <==> !TruthyReal(salaryMin)
    ensures TruthyReal(salaryMin) && TruthyReal(salaryMax) ==>
      r == FormatAmount(salaryMin.value) + " - " + FormatAmount(salaryMax.value) + " " + currency
    ensures TruthyReal(salaryMin) && !TruthyReal(salaryMax) ==> r == FormatAmount(salaryMin.value) + "+ " + currency
  {
    if TruthyReal(salaryMin) && TruthyReal(salaryMax) then
      var a := FormatAmount(salaryMin.value);
      assert (a + " - " + FormatAmount(salaryMax.value) + " " + currency)[0] == a[0];
      a + " - " + FormatAmount(salaryMax.value) + " " + currency
    else if TruthyReal(salaryMin) then
      var a := FormatAmount(salaryMin.value);
      assert (a + "+ " + currency)[0] == a[0];
      a + "+ " + currency
    else Negotiable
  }

  // ---------------------------------------------------------------------------
  // `Job.increment_views`.
  // ---------------------------------------------------------------------------

  /** The stored view counter of one job. */
  class JobViews {
    var viewsCount: int

    constructor ()
      ensures viewsCount == 0
    {
      viewsCount := 0;
    }

    method IncrementViews()
      modifies this
      ensures viewsCount == old(viewsCount) + 1
    {
      viewsCount := viewsCount + 1;
    }
  }

  // ---------------------------------------------------------------------------
  // `JobCategory`: a tree of named categories.
  // ---------------------------------------------------------------------------

  datatype Category = Root(name: string) | Child(name: string, parent: Category)

  /** `JobCategory.full_path`: every ancestor's name from the root down, joined by " > ". */
  function FullPath(c: Category): (r: string)
    ensures EndsWith(r, c.name)
    ensures c.Child? ==> |r| > |c.name| + |c.parent.name|
  {
    match c
    case Root(n) => n
    case Child(n, p) => FullPath(p) + " > " + n
  }

  /** `JobCategory.__str__`: the parent's name and the own name only. */
  function Label(c: Category): string {
    match c
    case Root(n) => n
    case Child(n, p) => p.name + " > " + n
  }

  /** The names on the path from the root down to `c`. */
  function Ancestry(c: Category): (r: seq<string>)
    ensures |r| >= 1 && r[|r| - 1] == c.name
  {
    match c
    case Root(n) => [n]
    case Child(n, p) => Ancestry(p) + [n]
  }

  /** The full path is the ancestry joined with " > ". */
  lemma {:induction false} FullPathJoinsAncestry(c: Category)
    ensures FullPath(c) == Join(" > ", Ancestry(c))
  {
    match c
    case Root(n) =>
    case Child(n, p) =>
      FullPathJoinsAncestry(p);
      JoinAppend(" > ", Ancestry(p), n);
  }

  /** The label agrees with the full path exactly for roots and their direct children. */
  lemma LabelIsOneLevel(c: Category)
    ensures Label(c) == FullPath(c) <==> (c.Root? || c.parent.Root?)
  {
    if c.Child? && c.parent.Child? {
      assert |FullPath(c.parent)| > |c.parent.name|;
      assert |FullPath(c)| > |Label(c)|;
    }
  }
}
