// The profile-completion percentages shown on the profile pages: a count of
// the checks a student or employer profile passes, as a percentage rounded
// to one decimal place.  Each field check is Python truthiness of the
// field, given here as a boolean; whether the student has skill rows and
// project rows is the result of the two `exists()` queries.
module ProfileCompletion {
  import opened Numbers

  /** One for a passing check. */
  function One(check: bool): nat { if check then 1 else 0 }

  /**
   * `round((completed / total) * 100, 1)`: within [0, 100], 100 exactly when
   * every check passes and 0 exactly when none does.
   */
  function Percentage(completed: nat, total: nat): (r: real)
    requires 0 < total <= 100 && completed <= total
    ensures 0.0 <= r <= 100.0
    ensures r == 100.0 <==> completed == total
    ensures r == 0.0 <==> completed == 0
  {
    var x := completed as real * 100.0 / total as real;
    if completed == total then
      var a := completed as real * 100.0;
      assert a == 100.0 * total as real;
      QuotientCompare(a, total as real, 100.0);
      assert x == 100.0;
      RoundOfInt(100, 1);
      Round(x, 1)
    else if completed == 0 then
      RoundOfInt(0, 1);
      Round(x, 1)
    else
      var a := completed as real * 100.0;
      assert a <= 99.0 * total as real;
      assert a >= 1.0 * total as real;
      QuotientCompare(a, total as real, 99.0);
      QuotientCompare(a, total as real, 1.0);
      assert 1.0 <= x <= 99.0;
      RoundWithin(x, 1, 1, 99);
      Round(x, 1)
  }

  /** Passing more checks never lowers the percentage. */
  lemma PercentageMonotone(a: nat, b: nat, total: nat)
    requires 0 < total <= 100 && a <= b <= total
    ensures Percentage(a, total) <= Percentage(b, total)
  {
    var xa := a as real * 100.0 / total as real;
    var xb := b as real * 100.0 / total as real;
    DivMonotone(a as real * 100.0, b as real * 100.0, total as real);
    RoundMonotone(xa, xb, 1);
  }

  // ---------------------------------------------------------------------------
  // Students: twelve checks.
  // ---------------------------------------------------------------------------

  datatype StudentFields = StudentFields(
    educationLevel: bool, major: bool, university: bool, graduationYear: bool, bio: bool,
    preferredJobTypes: bool, preferredLocations: bool, expectedSalaryMin: bool, availabilityDate: bool,
    hasSkills: bool, hasProjects: bool,
    resumeUrl: bool, portfolioUrl: bool, linkedinUrl: bool, githubUrl: bool)

  const StudentTotal: nat := 12

  /** `any(links)`: the four links count as a single check. */
  predicate AnyLink(p: StudentFields) { p.resumeUrl || p.portfolioUrl || p.linkedinUrl || p.githubUrl }

  /** How many of the twelve checks the profile passes: background, wishes, then skills, projects and links. */
  function StudentPassed(p: StudentFields): (r: nat)
    ensures r <= StudentTotal
  {
    BackgroundPassed(p) + WishesPassed(p) + One(p.hasSkills) + One(p.hasProjects) + One(AnyLink(p))
  }

  function BackgroundPassed(p: StudentFields): (r: nat)
    ensures r <= 5
  {
    One(p.educationLevel) + One(p.major) + One(p.university) + One(p.graduationYear) + One(p.bio)
  }

  function WishesPassed(p: StudentFields): (r: nat)
    ensures r <= 4
  {
    One(p.preferredJobTypes) + One(p.preferredLocations) + One(p.expectedSalaryMin) + One(p.availabilityDate)
  }

  function StudentCompletion(p: StudentFields): real {
    Percentage(StudentPassed(p), StudentTotal)
  }

  /** `_calculate_student_profile_completion`: the count of passing checks, then one division. */
  method CalculateStudentCompletion(p: StudentFields) returns (r: real)
    ensures r == StudentCompletion(p)
  {
    var completed := CountStudentChecks(p);
    r := Percentage(completed, StudentTotal);
  }

  /** The chain of `if`s, one increment per passing check. */
  method CountStudentChecks(p: StudentFields) returns (completed: nat)
    ensures completed == StudentPassed(p)
  {
    var background := CountBackground(p);
    var wishes := CountWishes(p);
    var count := background + wishes;
    if p.hasSkills { count := count + 1; }
    if p.hasProjects { count := count + 1; }
    if p.resumeUrl || p.portfolioUrl || p.linkedinUrl || p.githubUrl { count := count + 1; }
    completed := count;
  }

  method CountBackground(p: StudentFields) returns (count: nat)
    ensures count == BackgroundPassed(p)
  {
    var n := 0;
    if p.educationLevel { n := n + 1; }
    if p.major { n := n + 1; }
    if p.university { n := n + 1; }
    if p.graduationYear { n := n + 1; }
    if p.bio { n := n + 1; }
    count := n;
  }

  method CountWishes(p: StudentFields) returns (count: nat)
    ensures count == WishesPassed(p)
  {
    var n := 0;
    if p.preferredJobTypes { n := n + 1; }
    if p.preferredLocations { n := n + 1; }
    if p.expectedSalaryMin { n := n + 1; }
    if p.availabilityDate { n := n + 1; }
    count := n;
  }

  /** 100.0 exactly for a profile passing every check; 0.0 exactly for one passing none. */
  lemma StudentCompletionExtremes(p: StudentFields)
    ensures StudentCompletion(p) == 100.0 <==>
      p.educationLevel && p.major && p.university && p.graduationYear && p.bio && p.preferredJobTypes
      && p.preferredLocations && p.expectedSalaryMin && p.availabilityDate && p.hasSkills && p.hasProjects && AnyLink(p)
    ensures StudentCompletion(p) == 0.0 <==>
      !p.educationLevel && !p.major && !p.university && !p.graduationYear && !p.bio && !p.preferredJobTypes
      && !p.preferredLocations && !p.expectedSalaryMin && !p.availabilityDate && !p.hasSkills && !p.hasProjects
      && !AnyLink(p)
  {
  }

  /** Every check the first profile passes, the second passes too. */
  predicate StudentAtLeast(p: StudentFields, q: StudentFields) {
    && (p.educationLevel ==> q.educationLevel) && (p.major ==> q.major) && (p.university ==> q.university)
    && (p.graduationYear ==> q.graduationYear) && (p.bio ==> q.bio) && (p.preferredJobTypes ==> q.preferredJobTypes)
    && (p.preferredLocations ==> q.preferredLocations) && (p.expectedSalaryMin ==> q.expectedSalaryMin)
    && (p.availabilityDate ==> q.availabilityDate) && (p.hasSkills ==> q.hasSkills)
    && (p.hasProjects ==> q.hasProjects) && (AnyLink(p) ==> AnyLink(q))
  }

  /** Passing one more check never lowers the percentage. */
  lemma StudentCompletionMonotone(p: StudentFields, q: StudentFields)
    requires StudentAtLeast(p, q)
    ensures StudentCompletion(p) <= StudentCompletion(q)
  {
    StudentPassedMonotone(p, q);
    PercentageMonotone(StudentPassed(p), StudentPassed(q), StudentTotal);
  }

  lemma StudentPassedMonotone(p: StudentFields, q: StudentFields)
    requires StudentAtLeast(p, q)
    ensures StudentPassed(p) <= StudentPassed(q)
  {
    BackgroundMonotone(p, q);
    WishesMonotone(p, q);
    OneMonotone(p.hasSkills, q.hasSkills);
    OneMonotone(p.hasProjects, q.hasProjects);
    OneMonotone(AnyLink(p), AnyLink(q));
  }

  lemma BackgroundMonotone(p: StudentFields, q: StudentFields)
    requires StudentAtLeast(p, q)
    ensures BackgroundPassed(p) <= BackgroundPassed(q)
  {
    OneMonotone(p.educationLevel, q.educationLevel);
    OneMonotone(p.major, q.major);
    OneMonotone(p.university, q.university);
    OneMonotone(p.graduationYear, q.graduationYear);
    OneMonotone(p.bio, q.bio);
  }

  lemma WishesMonotone(p: StudentFields, q: StudentFields)
    requires StudentAtLeast(p, q)
    ensures WishesPassed(p) <= WishesPassed(q)
  {
    OneMonotone(p.preferredJobTypes, q.preferredJobTypes);
    OneMonotone(p.preferredLocations, q.preferredLocations);
    OneMonotone(p.expectedSalaryMin, q.expectedSalaryMin);
    OneMonotone(p.availabilityDate, q.availabilityDate);
  }

  /** A check that passes whenever another does counts at least as much. */
  lemma OneMonotone(a: bool, b: bool)
    requires a ==> b
    ensures One(a) <= One(b)
  {
  }

  /** Which links are set does not matter, only whether one is. */
  lemma LinksCountOnce(p: StudentFields, q: StudentFields)
    requires AnyLink(p) == AnyLink(q)
    requires q == p.(resumeUrl := q.resumeUrl, portfolioUrl := q.portfolioUrl,
                     linkedinUrl := q.linkedinUrl, githubUrl := q.githubUrl)
    ensures StudentCompletion(p) == StudentCompletion(q)
  {
    assert StudentAtLeast(p, q) && StudentAtLeast(q, p);
    StudentPassedMonotone(p, q);
    StudentPassedMonotone(q, p);
  }

  // ---------------------------------------------------------------------------
  // Employers: eight checks.
  // ---------------------------------------------------------------------------

  datatype EmployerFields = EmployerFields(
    companyName: bool, companyDescription: bool, industry: bool, companySize: bool,
    contactPerson: bool, contactPhone: bool, contactEmail: bool, companyAddress: bool)

  const EmployerTotal: nat := 8

  /** How many of the eight fields are filled in. */
  function EmployerPassed(p: EmployerFields): (r: nat)
    ensures r <= EmployerTotal
  {
    CompanyPassed(p) + ContactPassed(p)
  }

  function CompanyPassed(p: EmployerFields): (r: nat)
    ensures r <= 4
  {
    One(p.companyName) + One(p.companyDescription) + One(p.industry) + One(p.companySize)
  }

  function ContactPassed(p: EmployerFields): (r: nat)
    ensures r <= 4
  {
    One(p.contactPerson) + One(p.contactPhone) + One(p.contactEmail) + One(p.companyAddress)
  }

  function EmployerCompletion(p: EmployerFields): real {
    Percentage(EmployerPassed(p), EmployerTotal)
  }

  /** `_calculate_employer_profile_completion`. */
  method CalculateEmployerCompletion(p: EmployerFields) returns (r: real)
    ensures r == EmployerCompletion(p)
  {
    var completed := CountEmployerChecks(p);
    r := Percentage(completed, EmployerTotal);
  }

  method CountEmployerChecks(p: EmployerFields) returns (completed: nat)
    ensures completed == EmployerPassed(p)
  {
    var count := CountCompany(p);
    if p.contactPerson { count := count + 1; }
    if p.contactPhone { count := count + 1; }
    if p.contactEmail { count := count + 1; }
    if p.companyAddress { count := count + 1; }
    completed := count;
  }

  /** The first four `if`s: name, description, industry and size. */
  method CountCompany(p: EmployerFields) returns (count: nat)
    ensures count == CompanyPassed(p)
  {
    var n := 0;
    if p.companyName { n := n + 1; }
    if p.companyDescription { n := n + 1; }
    if p.industry { n := n + 1; }
    if p.companySize { n := n + 1; }
    count := n;
  }

  lemma EmployerCompletionExtremes(p: EmployerFields)
    ensures EmployerCompletion(p) == 100.0 <==>
      p.companyName && p.companyDescription && p.industry && p.companySize
      && p.contactPerson && p.contactPhone && p.contactEmail && p.companyAddress
    ensures EmployerCompletion(p) == 0.0 <==>
      !p.companyName && !p.companyDescription && !p.industry && !p.companySize
      && !p.contactPerson && !p.contactPhone && !p.contactEmail && !p.companyAddress
  {
  }

  predicate EmployerAtLeast(p: EmployerFields, q: EmployerFields) {
    && (p.companyName ==> q.companyName) && (p.companyDescription ==> q.companyDescription)
    && (p.industry ==> q.industry) && (p.companySize ==> q.companySize)
    && (p.contactPerson ==> q.contactPerson) && (p.contactPhone ==> q.contactPhone)
    && (p.contactEmail ==> q.contactEmail) && (p.companyAddress ==> q.companyAddress)
  }

  lemma EmployerCompletionMonotone(p: EmployerFields, q: EmployerFields)
    requires EmployerAtLeast(p, q)
    ensures EmployerCompletion(p) <= EmployerCompletion(q)
  {
    EmployerPassedMonotone(p, q);
    PercentageMonotone(EmployerPassed(p), EmployerPassed(q), EmployerTotal);
  }

  lemma EmployerPassedMonotone(p: EmployerFields, q: EmployerFields)
    requires EmployerAtLeast(p, q)
    ensures EmployerPassed(p) <= EmployerPassed(q)
  {
    CompanyMonotone(p, q);
    ContactMonotone(p, q);
  }

  lemma CompanyMonotone(p: EmployerFields, q: EmployerFields)
    requires EmployerAtLeast(p, q)
    ensures CompanyPassed(p) <= CompanyPassed(q)
  {
    OneMonotone(p.companyName, q.companyName);
    OneMonotone(p.companyDescription, q.companyDescription);
    OneMonotone(p.industry, q.industry);
    OneMonotone(p.companySize, q.companySize);
  }

  lemma ContactMonotone(p: EmployerFields, q: EmployerFields)
    requires EmployerAtLeast(p, q)
    ensures ContactPassed(p) <= ContactPassed(q)
  {
    OneMonotone(p.contactPerson, q.contactPerson);
    OneMonotone(p.contactPhone, q.contactPhone);
    OneMonotone(p.contactEmail, q.contactEmail);
    OneMonotone(p.companyAddress, q.companyAddress);
  }
}
