// The user-side records the matching engine reads: account types, the
// enumerations of the student profile, and a student's skills.
module UserModels {
  datatype UserType = StudentUser | EmployerUser | AdminUser

  /** `StudentProfile.education_level`; `Unlisted` is a blank or unknown stored value. */
  datatype EducationLevel = Bachelor | Master | PhD | Diploma | Unlisted

  /** `StudentSkill.proficiency_level` (default beginner). */
  datatype Proficiency = Beginner | Intermediate | Advanced | Expert

  /** One `StudentSkill` row with its skill's name; years default to 0. */
  datatype StudentSkill = StudentSkill(skillId: int, name: string, proficiency: Proficiency, years: real)

  /**
   * The parts of a student profile the matching code reads.  `seekingJob` is
   * the job-seeking flag the job-side search filters on, and `userActive` is
   * the owning account's `is_active`.  `preferredLocations` is `[]` when the
   * stored JSON list is empty or null.
   */
  datatype StudentProfile = StudentProfile(
    id: int,
    userActive: bool,
    seekingJob: bool,
    education: EducationLevel,
    preferredLocations: seq<string>,
    skills: seq<StudentSkill>)

  /** A student has at most one row per skill (`unique_together = ['student', 'skill']`). */
  predicate UniqueSkills(p: StudentProfile) {
    forall i, j :: 0 <= i < j < |p.skills| ==> p.skills[i].skillId != p.skills[j].skillId
  }
}
