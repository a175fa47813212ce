// The batch job uploader: the check on a document's path before it is read,
// and the parser that turns the AI's "key: value" reply into a job record
// (`AutoJobUploader._parse_ai_response`).
//
// Unlike the parser of the job views, this one has no multi-line sections:
// every line with a colon is a key and a value, the key picks at most one
// field, and a later line for the same field overwrites an earlier one.
module UploadParser {
  import opened Common
  import opened Strings
  import opened Dates
  import opened JobModels
  import opened LineValues

  // ---------------------------------------------------------------------------
  // `_process_file_internal`: the checks before extraction.
  // ---------------------------------------------------------------------------

  /**
   * `Path.suffix` of a file name: from the last dot on, provided that dot is
   * neither the first nor the last character; otherwise empty.
   */
  function Suffix(name: string): (r: string)
    ensures r == [] || (r[0] == '.' && '.' !in r[1..] && 2 <= |r| < |name| && r == name[|name| - |r|..])
  {
    match LastIndexOf(name, '.')
    case None => []
    case Some(i) => if 0 < i < |name| - 1 then name[i..] else []
  }

  datatype FileError = FileNotFound(name: string) | UnsupportedFormat(suffix: string)

  /** A missing file is refused first, then any suffix other than `.docx` in any letter case. */
  function CheckUploadFile(exists_: bool, name: string): (r: Result<string, FileError>)
    ensures r.Ok? <==> exists_ && Lower(Suffix(name)) == ".docx"
    ensures !exists_ ==> r == Err(FileNotFound(name))
    ensures exists_ && Lower(Suffix(name)) != ".docx" ==> r == Err(UnsupportedFormat(Suffix(name)))
  {
    if !exists_ then Err(FileNotFound(name))
    else if Lower(Suffix(name)) != ".docx" then Err(UnsupportedFormat(Suffix(name)))
    else Ok(name)
  }

  /** A name with a non-empty dot-free stem and the `.docx` extension, in any case, is accepted when it exists. */
  lemma DocxAccepted(stem: string, ext: string)
    requires stem != [] && '.' !in stem && Lower(ext) == "docx"
    ensures CheckUploadFile(true, stem + "." + ext) == Ok(stem + "." + ext)
  {
    var name := stem + "." + ext;
    assert name[|stem|] == '.';
    assert name[|stem| + 1..] == ext;
    assert LastIndexOf(name, '.') == Some(|stem|);
    assert Suffix(name) == "." + ext;
    assert Lower("." + ext) == "." + Lower(ext) by {
      assert Lower("." + ext)[0] == '.';
    }
  }

  /** A bare `.docx` has no suffix (its dot is the first character) and is refused. */
  lemma HiddenDocxRefused()
    ensures CheckUploadFile(true, ".docx") == Err(UnsupportedFormat(""))
  {
    assert LastIndexOf(".docx", '.') == Some(0);
  }

  // ---------------------------------------------------------------------------
  // `_parse_ai_response`.
  // ---------------------------------------------------------------------------

  const NotSpecified: string := "Not Specified"

  /** The record the uploader builds; the category is always 1. */
  datatype UploadDraft = UploadDraft(
    title: string,
    company: string,
    locationCity: string,
    locationState: string,
    locationCountry: string,
    jobType: JobType,
    experienceLevel: ExperienceLevel,
    remoteOption: RemoteOption,
    salaryMin: Option<nat>,
    salaryMax: Option<nat>,
    description: string,
    requirements: string,
    responsibilities: string,
    benefits: seq<string>,
    deadline: Option<Date>,
    categoryId: int)

  const DefaultUpload: UploadDraft :=
    UploadDraft("", "", NotSpecified, "", "中国", FullTime, Entry, OnSite, None, None, "", "", "", [], None, 1)

  /** The fields a key can name, in the order the keys are tried. */
  datatype Field =
    | TitleField | CompanyField | LocationField | JobTypeField | ExperienceField | RemoteField
    | SalaryMinField | SalaryMaxField | DescriptionField | RequirementsField | ResponsibilitiesField
    | BenefitsField | DeadlineField

  /** The field of a lower-cased key: the first of the key phrases it contains. */
  function FieldOf(key: string): Option<Field> {
    if Contains(key, "job title") then Some(TitleField)
    else if Contains(key, "company") then Some(CompanyField)
    else if Contains(key, "location") then Some(LocationField)
    else if Contains(key, "job type") then Some(JobTypeField)
    else if Contains(key, "experience level") then Some(ExperienceField)
    else if Contains(key, "remote option") then Some(RemoteField)
    else if Contains(key, "salary min") then Some(SalaryMinField)
    else if Contains(key, "salary max") then Some(SalaryMaxField)
    else if Contains(key, "description") then Some(DescriptionField)
    else if Contains(key, "requirements") then Some(RequirementsField)
    else if Contains(key, "responsibilities") then Some(ResponsibilitiesField)
    else if Contains(key, "benefits") then Some(BenefitsField)
    else if Contains(key, "application deadline") then Some(DeadlineField)
    else None
  }

  /** The accepted job types; "freelance" is not among them. */
  function JobTypeWord(w: string): (r: Option<JobType>)
    ensures r.Some? ==> r.value != Freelance
  {
    if w == "full_time" then Some(FullTime)
    else if w == "part_time" then Some(PartTime)
    else if w == "contract" then Some(Contract)
    else if w == "internship" then Some(Internship)
    else None
  }

  /** The accepted experience levels; junior and lead are not among them. */
  function ExperienceWord(w: string): (r: Option<ExperienceLevel>)
    ensures r.Some? ==> r.value in {Entry, Mid, Senior, Executive}
  {
    if w == "entry" then Some(Entry)
    else if w == "mid" then Some(Mid)
    else if w == "senior" then Some(Senior)
    else if w == "executive" then Some(Executive)
    else None
  }

  function RemoteWord(w: string): Option<RemoteOption> {
    if w == "remote" then Some(Remote)
    else if w == "hybrid" then Some(Hybrid)
    else if w == "on_site" then Some(OnSite)
    else None
  }

  /** `value and value.lower() not in ['not provided', 'not specified', '']`. */
  predicate Given(value: string) {
    value != [] && Lower(value) != "not provided" && Lower(value) != "not specified"
  }

  /** A salary bound: the first run of digits of a given value, else None. */
  function UploadSalary(value: string): (r: Option<nat>)
    ensures r.Some? ==> Given(value) && r == FirstDigitRun(value)
    ensures r.None? <==> !Given(value) || NoDigits(value)
  {
    if Given(value) then FirstDigitRun(value) else None
  }

  /** The benefit list of a given value: its trimmed, non-empty comma-separated pieces. */
  function UploadBenefits(value: string): (r: seq<string>)
    ensures forall i :: 0 <= i < |r| ==> r[i] != [] && Strip(r[i]) == r[i]
    ensures !Given(value) ==> r == []
  {
    if Given(value) then StrippedNonEmpty(Split(value, ',')) else []
  }

  /** The deadline of a given value: it must contain '-' and parse as YYYY-MM-DD; anything else is None. */
  function UploadDeadline(value: string): (r: Option<Date>)
    ensures r.Some? ==> Given(value) && '-' in value && r == ParseIsoDate(value) && ValidDate(r.value)
  {
    if Given(value) && '-' in value then ParseIsoDate(value) else None
  }

  /** The record with one field set from a value; enumerated fields change only for an accepted word. */
  function Assigned(d: UploadDraft, f: Field, value: string): (r: UploadDraft)
    ensures AgreeOutside(d, r, Some(f))
    ensures WellFormedUpload(d) ==> WellFormedUpload(r)
  {
    match f
    case TitleField => d.(title := value)
    case CompanyField => d.(company := value)
    case LocationField => d.(locationCity := value)
    case JobTypeField =>
      (match JobTypeWord(Lower(value))
       case Some(t) => d.(jobType := t)
       case None => d)
    case ExperienceField =>
      (match ExperienceWord(Lower(value))
       case Some(e) => d.(experienceLevel := e)
       case None => d)
    case RemoteField =>
      (match RemoteWord(Lower(value))
       case Some(o) => d.(remoteOption := o)
       case None => d)
    case SalaryMinField => d.(salaryMin := UploadSalary(value))
    case SalaryMaxField => d.(salaryMax := UploadSalary(value))
    case DescriptionField => d.(description := value)
    case RequirementsField => d.(requirements := value)
    case ResponsibilitiesField => d.(responsibilities := value)
    case BenefitsField => d.(benefits := UploadBenefits(value))
    case DeadlineField => d.(deadline := UploadDeadline(value))
  }

  /** `r` equals `d` in every field except, possibly, the field `f`. */
  predicate AgreeOutside(d: UploadDraft, r: UploadDraft, f: Option<Field>) {
    (f != Some(TitleField) ==> r.title == d.title)
    && (f != Some(CompanyField) ==> r.company == d.company)
    && (f != Some(LocationField) ==> r.locationCity == d.locationCity)
    && (f != Some(JobTypeField) ==> r.jobType == d.jobType)
    && (f != Some(ExperienceField) ==> r.experienceLevel == d.experienceLevel)
    && (f != Some(RemoteField) ==> r.remoteOption == d.remoteOption)
    && (f != Some(SalaryMinField) ==> r.salaryMin == d.salaryMin)
    && (f != Some(SalaryMaxField) ==> r.salaryMax == d.salaryMax)
    && (f != Some(DescriptionField) ==> r.description == d.description)
    && (f != Some(RequirementsField) ==> r.requirements == d.requirements)
    && (f != Some(ResponsibilitiesField) ==> r.responsibilities == d.responsibilities)
    && (f != Some(BenefitsField) ==> r.benefits == d.benefits)
    && (f != Some(DeadlineField) ==> r.deadline == d.deadline)
    && r.locationState == d.locationState && r.locationCountry == d.locationCountry
    && r.categoryId == d.categoryId
  }

  /** The key and the value of a stripped line with a colon. */
  function KeyValue(line: string): Option<(string, string)> {
    match IndexOf(line, ':')
    case None => None
    case Some(i) => Some((Lower(Strip(line[..i])), Strip(line[i + 1..])))
  }

  /** The field a line of the reply names, if any. */
  function LineField(raw: string): Option<Field> {
    match KeyValue(Strip(raw))
    case None => None
    case Some(kv) => FieldOf(kv.0)
  }

  /** One line of the reply: a line with a colon whose key names a field sets that field. */
  function ReadUploadLine(d: UploadDraft, raw: string): (r: UploadDraft)
    ensures AgreeOutside(d, r, LineField(raw))
    ensures ':' !in Strip(raw) ==> r == d
    ensures WellFormedUpload(d) ==> WellFormedUpload(r)
  {
    match KeyValue(Strip(raw))
    case None => d
    case Some(kv) =>
      match FieldOf(kv.0)
      case None => d
      case Some(f) => Assigned(d, f, kv.1)
  }

  /** The record after the given lines, in order. */
  function UploadLines(lines: seq<string>): UploadDraft
    decreases |lines|
  {
    if |lines| == 0 then DefaultUpload else ReadUploadLine(UploadLines(lines[..|lines| - 1]), lines[|lines| - 1])
  }

  /** `_parse_ai_response`; a missing reply raises inside the `try` and leaves the defaults. */
  function UploadReply(reply: Option<string>): UploadDraft {
    if reply.None? then DefaultUpload else UploadLines(Split(Strip(reply.value), '\n'))
  }

  /**
   * A later line for the same field overwrites an earlier one.  The enumerated
   * fields are the exception: a rejected word there keeps the earlier value.
   */
  lemma AssignedTwice(d: UploadDraft, f: Field, v1: string, v2: string)
    requires f !in {JobTypeField, ExperienceField, RemoteField}
    ensures Assigned(Assigned(d, f, v1), f, v2) == Assigned(d, f, v2)
  {
  }

  lemma LaterLineOverwrites(d: UploadDraft, a: string, b: string)
    requires LineField(a).Some? && LineField(b) == LineField(a)
    requires LineField(a).value !in {JobTypeField, ExperienceField, RemoteField}
    ensures ReadUploadLine(ReadUploadLine(d, a), b) == ReadUploadLine(d, b)
  {
    var f := LineField(a).value;
    var va := KeyValue(Strip(a)).value.1;
    var vb := KeyValue(Strip(b)).value.1;
    assert ReadUploadLine(d, a) == Assigned(d, f, va);
    assert ReadUploadLine(d, b) == Assigned(d, f, vb);
    assert ReadUploadLine(Assigned(d, f, va), b) == Assigned(Assigned(d, f, va), f, vb);
    AssignedTwice(d, f, va, vb);
  }

  /** The enumerated fields hold accepted words and the benefits are trimmed and non-empty. */
  predicate WellFormedUpload(d: UploadDraft) {
    d.jobType != Freelance
    && d.experienceLevel in {Entry, Mid, Senior, Executive}
    && (forall i :: 0 <= i < |d.benefits| ==> d.benefits[i] != [] && Strip(d.benefits[i]) == d.benefits[i])
    && (d.deadline.Some? ==> ValidDate(d.deadline.value))
    && d.categoryId == 1
  }

  /** Whatever the reply, the uploader's record only holds accepted enumeration values. */
  lemma {:induction false} UploadAlwaysWellFormed(lines: seq<string>)
    ensures WellFormedUpload(UploadLines(lines))
    decreases |lines|
  {
    if |lines| > 0 {
      UploadAlwaysWellFormed(lines[..|lines| - 1]);
    }
  }

  /** The field assignment as the source writes it: one branch per field. */
  method Assign(d: UploadDraft, f: Field, value: string) returns (r: UploadDraft)
    ensures r == Assigned(d, f, value)
    ensures AgreeOutside(d, r, Some(f))
  {
    r := d;
    match f {
      case TitleField => r := r.(title := value);
      case CompanyField => r := r.(company := value);
      case LocationField => r := r.(locationCity := if value != NotSpecified then value else NotSpecified);
      case JobTypeField =>
        var t := JobTypeWord(Lower(value));
        if t.Some? { r := r.(jobType := t.value); }
      case ExperienceField =>
        var e := ExperienceWord(Lower(value));
        if e.Some? { r := r.(experienceLevel := e.value); }
      case RemoteField =>
        var o := RemoteWord(Lower(value));
        if o.Some? { r := r.(remoteOption := o.value); }
      case SalaryMinField => r := r.(salaryMin := UploadSalary(value));
      case SalaryMaxField => r := r.(salaryMax := UploadSalary(value));
      case DescriptionField => r := r.(description := value);
      case RequirementsField => r := r.(requirements := value);
      case ResponsibilitiesField => r := r.(responsibilities := value);
      case BenefitsField => r := r.(benefits := UploadBenefits(value));
      case DeadlineField => r := r.(deadline := UploadDeadline(value));
    }
  }

  /** One line of the reply: its key, the field the key names, then that field's assignment. */
  method ReadLine(d: UploadDraft, raw: string) returns (r: UploadDraft)
    ensures r == ReadUploadLine(d, raw)
  {
    r := d;
    var kv := KeyValue(Strip(raw));
    if kv.Some? {
      var key, value := kv.value.0, kv.value.1;
      var f := FieldOf(key);
      if f.Some? {
        r := Assign(d, f.value, value);
      }
    }
  }

  /** The lines of the reply read in order into the record. */
  method ReadLines(lines: seq<string>) returns (d: UploadDraft)
    ensures d == UploadLines(lines)
  {
    d := DefaultUpload;
    for i := 0 to |lines|
      invariant d == UploadLines(lines[..i])
    {
      assert lines[..i + 1][..i] == lines[..i];
      d := ReadLine(d, lines[i]);
    }
    assert lines[..|lines|] == lines;
  }

  /** `_parse_ai_response`: every line read in order into the record. */
  method ParseUploadReply(reply: Option<string>) returns (d: UploadDraft)
    ensures d == UploadReply(reply)
    ensures WellFormedUpload(d)
  {
    if reply.None? {
      return DefaultUpload;
    }
    var lines := Split(Strip(reply.value), '\n');
    d := ReadLines(lines);
    UploadAlwaysWellFormed(lines);
  }
}
