// The parser that turns the AI's "Label: value" description of an uploaded
// job posting into a job draft (`_parse_job_ai_response` of the job views).
//
// Lines are scanned in order.  A header line sets its field; the four
// multi-line sections (description, requirements, responsibilities,
// benefits) each have a collecting flag, and every header sets its own flag
// and clears the other three.  Other lines are continuation lines of the
// section being collected.
module JobAiParser {
  import opened Common
  import opened Strings
  import opened Dates
  import opened JobModels
  import opened LineValues

  /** The parsed record; `application_deadline` holds the parsed date (midnight of that day). */
  datatype JobDraft = JobDraft(
    title: string,
    description: string,
    requirements: string,
    responsibilities: string,
    jobType: JobType,
    experienceLevel: ExperienceLevel,
    locationCity: string,
    locationState: string,
    locationCountry: string,
    remoteOption: RemoteOption,
    salaryMin: Option<nat>,
    salaryMax: Option<nat>,
    benefits: seq<string>,
    deadline: Option<Date>)

  const DefaultDraft: JobDraft :=
    JobDraft(NotProvided, NotProvided, NotProvided, NotProvided, FullTime, Entry,
             NotProvided, "", "中国", OnSite, None, None, [], None)

  // ---------------------------------------------------------------------------
  // Header lines.
  // ---------------------------------------------------------------------------

  datatype Header =
    | TitleHeader | DescriptionHeader | RequirementsHeader | ResponsibilitiesHeader | BenefitsHeader
    | JobTypeHeader | ExperienceHeader | LocationHeader | RemoteHeader
    | SalaryMinHeader | SalaryMaxHeader | DeadlineHeader

  /** The header a stripped line starts with, tried in the order of the `elif` chain. */
  function HeaderOf(line: string): Option<Header> {
    if AnyPrefix(line, ["Job Title:", "Position:", "Title:"]) then Some(TitleHeader)
    else if AnyPrefix(line, ["Job Description:", "Description:"]) then Some(DescriptionHeader)
    else if AnyPrefix(line, ["Requirements:", "Job Requirements:"]) then Some(RequirementsHeader)
    else if AnyPrefix(line, ["Responsibilities:", "Job Responsibilities:"]) then Some(ResponsibilitiesHeader)
    else if AnyPrefix(line, ["Benefits:", "Job Benefits:"]) then Some(BenefitsHeader)
    else if AnyPrefix(line, ["Job Type:", "Employment Type:"]) then Some(JobTypeHeader)
    else if AnyPrefix(line, ["Experience Level:", "Experience:"]) then Some(ExperienceHeader)
    else if AnyPrefix(line, ["Location:", "City:"]) then Some(LocationHeader)
    else if AnyPrefix(line, ["Remote:", "Work Mode:"]) then Some(RemoteHeader)
    else if AnyPrefix(line, ["Salary Min:", "Minimum Salary:"]) then Some(SalaryMinHeader)
    else if AnyPrefix(line, ["Salary Max:", "Maximum Salary:"]) then Some(SalaryMaxHeader)
    else if AnyPrefix(line, ["Application Deadline:", "Deadline:", "Apply By:"]) then Some(DeadlineHeader)
    else None
  }

  // ---------------------------------------------------------------------------
  // Field values.
  // ---------------------------------------------------------------------------

  /** `any(k in v for k in keywords)`. */
  predicate AnyContains(v: string, keywords: seq<string>)
    decreases |keywords|
  {
    |keywords| > 0 && (Contains(v, keywords[0]) || AnyContains(v, keywords[1..]))
  }

  /** The first row of a keyword table one of whose keywords occurs in `v`. */
  function FirstMatch<T>(v: string, table: seq<(seq<string>, T)>): (r: Option<nat>)
    ensures r.Some? ==> r.value < |table| && AnyContains(v, table[r.value].0)
    ensures r.Some? ==> forall j :: 0 <= j < r.value ==> !AnyContains(v, table[j].0)
    ensures r.None? ==> forall j :: 0 <= j < |table| ==> !AnyContains(v, table[j].0)
    decreases |table|
  {
    if |table| == 0 then None
    else if AnyContains(v, table[0].0) then Some(0)
    else match FirstMatch(v, table[1..])
      case None => None
      case Some(k) => Some(k + 1)
  }

  /** The keyword table of `Job Type:`, in the order the source tries it. */
  const JobTypeTable: seq<(seq<string>, JobType)> :=
    [(["full", "permanent"], FullTime), (["part"], PartTime), (["contract"], Contract),
     (["intern"], Internship), (["freelance"], Freelance)]

  /** The keyword table of `Experience Level:`; "lead" reads as senior. */
  const ExperienceTable: seq<(seq<string>, ExperienceLevel)> :=
    [(["senior", "lead"], Senior), (["mid", "intermediate"], Mid), (["junior"], Junior),
     (["entry", "graduate"], Entry), (["executive", "manager"], Executive)]

  /** A keyword-mapped field: the value of the first matching row, else the field unchanged. */
  function Mapped<T>(v: string, table: seq<(seq<string>, T)>, current: T): (r: T)
    ensures FirstMatch(v, table).None? ==> r == current
    ensures FirstMatch(v, table).Some? ==> r == table[FirstMatch(v, table).value].1
  {
    match FirstMatch(v, table)
    case None => current
    case Some(k) => table[k].1
  }

  /** `Remote:` always sets the option: remote without hybrid, hybrid, else on site. */
  function RemoteOf(v: string): (r: RemoteOption)
    ensures r == Remote <==> Contains(v, "remote") && !Contains(v, "hybrid")
    ensures r == Hybrid <==> Contains(v, "hybrid")
    ensures r == OnSite <==> !Contains(v, "remote") && !Contains(v, "hybrid")
  {
    if Contains(v, "remote") && !Contains(v, "hybrid") then Remote
    else if Contains(v, "hybrid") then Hybrid
    else OnSite
  }

  /** A salary bound: the first run of digits, unless there is none or the value says "not provided". */
  function SalaryOf(v: string): (r: Option<nat>)
    ensures r.None? <==> NoDigits(v) || Lower(v) == Lower(NotProvided)
    ensures r.Some? ==> r == FirstDigitRun(v)
  {
    if !NoDigits(v) && Lower(v) != Lower(NotProvided) then FirstDigitRun(v) else None
  }

  /** A number written after some non-digit text is read back as that number. */
  lemma SalaryOfNumber(pre: string, run: string, post: string)
    requires NoDigits(pre) && |run| > 0 && AllDigits(run)
    requires post == [] || !IsDigit(post[0])
    ensures SalaryOf(pre + run + post) == Some(DigitsValue(run))
  {
    var v := pre + run + post;
    FirstDigitRunIsFirstRun(pre, run, post);
    assert IsDigit(v[|pre|]);
    DigitsAreNotPlaceholder(v);
  }

  /** The deadline field: a value other than the placeholder is parsed as YYYY-MM-DD (None on failure). */
  function DeadlineOf(v: string, current: Option<Date>): (r: Option<Date>)
    ensures v == NotProvided ==> r == current
    ensures v != NotProvided && v != [] ==> r == ParseIsoDate(v)
    ensures r != current ==> r.None? || ValidDate(r.value)
  {
    if v != [] && v != NotProvided then ParseIsoDate(v) else current
  }

  /** A date written as YYYY-MM-DD is read back as that date. */
  lemma DeadlineRoundTrip(d: Date, current: Option<Date>)
    requires ValidDate(d)
    ensures DeadlineOf(FormatIsoDate(d), current) == Some(d)
  {
    ParseFormatIsoDate(d);
    assert |FormatIsoDate(d)| != |NotProvided|;
  }

  // ---------------------------------------------------------------------------
  // The scan.
  // ---------------------------------------------------------------------------

  /** The parser's state between lines: the record, the four flags and the four line lists. */
  datatype JobScan = JobScan(
    draft: JobDraft,
    collectingDescription: bool,
    collectingRequirements: bool,
    collectingResponsibilities: bool,
    collectingBenefits: bool,
    descriptionLines: seq<string>,
    requirementsLines: seq<string>,
    responsibilitiesLines: seq<string>,
    benefitsLines: seq<string>)

  const InitialScan: JobScan := JobScan(DefaultDraft, false, false, false, false, [], [], [], [])

  function Count(b: bool): nat { if b then 1 else 0 }

  /** At most one section is being collected. */
  predicate AtMostOneCollecting(st: JobScan) {
    Count(st.collectingDescription) + Count(st.collectingRequirements)
    + Count(st.collectingResponsibilities) + Count(st.collectingBenefits) <= 1
  }

  /** A section's first line: its value, unless it is the placeholder. */
  function Appended(lines: seq<string>, v: string): seq<string> {
    if v != [] && v != NotProvided then lines + [v] else lines
  }

  const DescriptionStops: seq<string> :=
    ["Job Title:", "Position:", "Title:", "Requirements:", "Responsibilities:", "Benefits:",
     "Job Type:", "Experience:", "Location:", "Remote:", "Salary"]
  const RequirementsStops: seq<string> :=
    ["Job Title:", "Position:", "Title:", "Job Description:", "Description:", "Responsibilities:",
     "Benefits:", "Job Type:", "Experience:", "Location:", "Remote:", "Salary"]
  const ResponsibilitiesStops: seq<string> :=
    ["Job Title:", "Position:", "Title:", "Job Description:", "Description:", "Requirements:",
     "Benefits:", "Job Type:", "Experience:", "Location:", "Remote:", "Salary"]
  const BenefitsStops: seq<string> :=
    ["Job Title:", "Position:", "Title:", "Job Description:", "Description:", "Requirements:",
     "Responsibilities:", "Job Type:", "Experience:", "Location:", "Remote:", "Salary"]

  /** A continuation line is kept when it is a bullet or does not start with one of the section's stop prefixes. */
  predicate Kept(line: string, stops: seq<string>) {
    StartsWith(line, "*") || StartsWith(line, "-") || !AnyPrefix(line, stops)
  }

  /** A continuation line appended to a section when it is kept. */
  function Collected(lines: seq<string>, line: string, stops: seq<string>): (r: seq<string>)
    ensures r == lines || r == lines + [line]
    ensures r == lines + [line] <==> Kept(line, stops)
  {
    if Kept(line, stops) then lines + [line] else lines
  }

  /** A non-header line goes to the section being collected, if any. */
  function Continue(st: JobScan, line: string): (r: JobScan)
    ensures r.draft == st.draft
    ensures r.collectingDescription == st.collectingDescription && r.collectingRequirements == st.collectingRequirements
    ensures r.collectingResponsibilities == st.collectingResponsibilities && r.collectingBenefits == st.collectingBenefits
  {
    if st.collectingDescription then st.(descriptionLines := Collected(st.descriptionLines, line, DescriptionStops))
    else if st.collectingRequirements then st.(requirementsLines := Collected(st.requirementsLines, line, RequirementsStops))
    else if st.collectingResponsibilities then
      st.(responsibilitiesLines := Collected(st.responsibilitiesLines, line, ResponsibilitiesStops))
    else if st.collectingBenefits then st.(benefitsLines := Collected(st.benefitsLines, line, BenefitsStops))
    else st
  }

  /** The headers whose value starts a section rather than setting a field. */
  predicate OpensSection(h: Header) {
    h.DescriptionHeader? || h.RequirementsHeader? || h.ResponsibilitiesHeader? || h.BenefitsHeader?
  }

  /** The field a header line sets; the four flags are handled by `HeaderStep`. */
  function HeaderField(st: JobScan, h: Header, value: string): JobScan {
    var d := st.draft;
    match h
    case TitleHeader => st.(draft := d.(title := value))
    case DescriptionHeader => st.(descriptionLines := Appended(st.descriptionLines, value))
    case RequirementsHeader => st.(requirementsLines := Appended(st.requirementsLines, value))
    case ResponsibilitiesHeader => st.(responsibilitiesLines := Appended(st.responsibilitiesLines, value))
    case BenefitsHeader => st.(benefitsLines := Appended(st.benefitsLines, value))
    case JobTypeHeader => st.(draft := d.(jobType := Mapped(Lower(value), JobTypeTable, d.jobType)))
    case ExperienceHeader => st.(draft := d.(experienceLevel := Mapped(Lower(value), ExperienceTable, d.experienceLevel)))
    case LocationHeader => st.(draft := d.(locationCity := value))
    case RemoteHeader => st.(draft := d.(remoteOption := RemoteOf(Lower(value))))
    case SalaryMinHeader => st.(draft := d.(salaryMin := SalaryOf(value)))
    case SalaryMaxHeader => st.(draft := d.(salaryMax := SalaryOf(value)))
    case DeadlineHeader => st.(draft := d.(deadline := DeadlineOf(value, d.deadline)))
  }

  /** A header line: its field, then its own flag set and the other three cleared. */
  function HeaderStep(st: JobScan, h: Header, line: string): (r: JobScan)
    ensures r.collectingDescription <==> h == DescriptionHeader
    ensures r.collectingRequirements <==> h == RequirementsHeader
    ensures r.collectingResponsibilities <==> h == ResponsibilitiesHeader
    ensures r.collectingBenefits <==> h == BenefitsHeader
    ensures AtMostOneCollecting(r)
  {
    HeaderField(st, h, ExtractJobValue(line)).(
      collectingDescription := h == DescriptionHeader,
      collectingRequirements := h == RequirementsHeader,
      collectingResponsibilities := h == ResponsibilitiesHeader,
      collectingBenefits := h == BenefitsHeader)
  }

  /** One line of the reply: blank lines are skipped, headers and continuation lines as above. */
  function Step(st: JobScan, raw: string): (r: JobScan)
    ensures AllSpace(raw) ==> r == st
    ensures AtMostOneCollecting(st) ==> AtMostOneCollecting(r)
  {
    var line := Strip(raw);
    if line == [] then st
    else match HeaderOf(line)
      case None => Continue(st, line)
      case Some(h) => HeaderStep(st, h, line)
  }

  /** The state after the given lines, in order. */
  function ScanLines(lines: seq<string>): JobScan
    decreases |lines|
  {
    if |lines| == 0 then InitialScan else Step(ScanLines(lines[..|lines| - 1]), lines[|lines| - 1])
  }

  /** However the reply is laid out, no two sections are collected at once. */
  lemma {:induction false} ScanAtMostOne(lines: seq<string>)
    ensures AtMostOneCollecting(ScanLines(lines))
    decreases |lines|
  {
    if |lines| > 0 {
      ScanAtMostOne(lines[..|lines| - 1]);
    }
  }

  /** The collected lines of a section joined with single spaces, or the field unchanged when there are none. */
  function Joined(lines: seq<string>, current: string): string {
    if |lines| > 0 then Join(" ", lines) else current
  }

  /** Benefits: the comma-separated pieces of the joined lines, trimmed, empty ones dropped. */
  function BenefitsOf(lines: seq<string>, current: seq<string>): (r: seq<string>)
    ensures |lines| == 0 ==> r == current
    ensures |lines| > 0 ==> forall i :: 0 <= i < |r| ==> r[i] != [] && Strip(r[i]) == r[i]
  {
    if |lines| == 0 then current
    else
      var text := Join(" ", lines);
      if text != [] && text != NotProvided then StrippedNonEmpty(Split(text, ',')) else []
  }

  /** The record after the last line: the collected sections are joined into their fields. */
  function Finish(st: JobScan): JobDraft {
    st.draft.(
      description := Joined(st.descriptionLines, st.draft.description),
      requirements := Joined(st.requirementsLines, st.draft.requirements),
      responsibilities := Joined(st.responsibilitiesLines, st.draft.responsibilities),
      benefits := BenefitsOf(st.benefitsLines, st.draft.benefits))
  }

  /** `_parse_job_ai_response`; None stands for a missing reply. */
  function ParseJobReply(reply: Option<string>): (r: JobDraft)
    ensures reply.None? || reply.value == [] ==> r == DefaultDraft
  {
    if reply.None? || reply.value == [] then DefaultDraft
    else Finish(ScanLines(Split(reply.value, '\n')))
  }

  /** The parser's locals: the record, the four collecting flags and the four line lists, updated line by line. */
  class JobReplyScanner {
    var draft: JobDraft
    var collectingDescription: bool
    var collectingRequirements: bool
    var collectingResponsibilities: bool
    var collectingBenefits: bool
    var descriptionLines: seq<string>
    var requirementsLines: seq<string>
    var responsibilitiesLines: seq<string>
    var benefitsLines: seq<string>

    function State(): JobScan
      reads this
    {
      JobScan(draft, collectingDescription, collectingRequirements, collectingResponsibilities,
              collectingBenefits, descriptionLines, requirementsLines, responsibilitiesLines, benefitsLines)
    }

    constructor ()
      ensures State() == InitialScan
    {
      draft := DefaultDraft;
      collectingDescription, collectingRequirements, collectingResponsibilities, collectingBenefits := false, false, false, false;
      descriptionLines, requirementsLines, responsibilitiesLines, benefitsLines := [], [], [], [];
    }

    /** A continuation line joins the section being collected, if it is kept. */
    method ReadContinuation(line: string)
      modifies this
      ensures State() == Continue(old(State()), line)
    {
      if collectingDescription {
        descriptionLines := Collected(descriptionLines, line, DescriptionStops);
      } else if collectingRequirements {
        requirementsLines := Collected(requirementsLines, line, RequirementsStops);
      } else if collectingResponsibilities {
        responsibilitiesLines := Collected(responsibilitiesLines, line, ResponsibilitiesStops);
      } else if collectingBenefits {
        benefitsLines := Collected(benefitsLines, line, BenefitsStops);
      }
    }

    /** A header line sets its field, then its own flag, clearing the other three. */
    method ReadHeader(h: Header, line: string)
      modifies this
      ensures State() == HeaderStep(old(State()), h, line)
    {
      var value := ExtractJobValue(line);
      SetField(h, value);
      SetFlags(h == DescriptionHeader, h == RequirementsHeader, h == ResponsibilitiesHeader, h == BenefitsHeader);
    }

    /** The branch of the header chain: the field or the section line the header sets. */
    method SetField(h: Header, value: string)
      modifies this
      ensures State() == HeaderField(old(State()), h, value)
    {
      if OpensSection(h) {
        OpenSection(h, value);
      } else {
        SetDraftField(h, value);
      }
    }

    /** A section header: its value is the section's first line. */
    method OpenSection(h: Header, value: string)
      requires OpensSection(h)
      modifies this
      ensures State() == HeaderField(old(State()), h, value)
    {
      match h {
        case DescriptionHeader => descriptionLines := Appended(descriptionLines, value);
        case RequirementsHeader => requirementsLines := Appended(requirementsLines, value);
        case ResponsibilitiesHeader => responsibilitiesLines := Appended(responsibilitiesLines, value);
        case BenefitsHeader => benefitsLines := Appended(benefitsLines, value);
      }
    }

    /** Any other header: its value sets one field of the draft. */
    method SetDraftField(h: Header, value: string)
      requires !OpensSection(h)
      modifies this
      ensures State() == HeaderField(old(State()), h, value)
    {
      match h {
        case TitleHeader => draft := draft.(title := value);
        case JobTypeHeader => draft := draft.(jobType := Mapped(Lower(value), JobTypeTable, draft.jobType));
        case ExperienceHeader =>
          draft := draft.(experienceLevel := Mapped(Lower(value), ExperienceTable, draft.experienceLevel));
        case LocationHeader => draft := draft.(locationCity := value);
        case RemoteHeader => draft := draft.(remoteOption := RemoteOf(Lower(value)));
        case SalaryMinHeader => draft := draft.(salaryMin := SalaryOf(value));
        case SalaryMaxHeader => draft := draft.(salaryMax := SalaryOf(value));
        case DeadlineHeader => draft := draft.(deadline := DeadlineOf(value, draft.deadline));
      }
    }

    /** The four flags, all set at once. */
    method SetFlags(d: bool, q: bool, r: bool, b: bool)
      modifies this
      ensures State() == old(State()).(collectingDescription := d, collectingRequirements := q,
                                       collectingResponsibilities := r, collectingBenefits := b)
    {
      collectingDescription, collectingRequirements, collectingResponsibilities, collectingBenefits := d, q, r, b;
    }

    /** One line of the reply; blank lines are skipped. */
    method ReadLine(raw: string)
      modifies this
      ensures State() == Step(old(State()), raw)
    {
      var line := Strip(raw);
      if line != [] {
        match HeaderOf(line)
        case None => ReadContinuation(line);
        case Some(h) => ReadHeader(h, line);
      }
    }

    /** The collected sections joined into their fields. */
    /** The `for line in lines` loop, from the initial state. */
    method ReadLines(lines: seq<string>)
      requires State() == InitialScan
      modifies this
      ensures State() == ScanLines(lines)
    {
      for i := 0 to |lines|
        invariant State() == ScanLines(lines[..i])
      {
        assert lines[..i + 1][..i] == lines[..i];
        assert ScanLines(lines[..i + 1]) == Step(ScanLines(lines[..i]), lines[i]);
        ReadLine(lines[i]);
      }
      assert lines[..|lines|] == lines;
    }

    method Finished() returns (r: JobDraft)
      ensures r == Finish(State())
    {
      r := draft;
      if |descriptionLines| > 0 { r := r.(description := Join(" ", descriptionLines)); }
      if |requirementsLines| > 0 { r := r.(requirements := Join(" ", requirementsLines)); }
      if |responsibilitiesLines| > 0 { r := r.(responsibilities := Join(" ", responsibilitiesLines)); }
      if |benefitsLines| > 0 {
        var text := Join(" ", benefitsLines);
        if text != [] && text != NotProvided {
          r := r.(benefits := StrippedNonEmpty(Split(text, ',')));
        } else {
          r := r.(benefits := []);
        }
      }
    }
  }

  /** `_parse_job_ai_response`: the lines of the reply read in order, then the sections joined. */
  method ParseJobAiResponse(reply: Option<string>) returns (draft: JobDraft)
    ensures draft == ParseJobReply(reply)
  {
    if reply.None? || reply.value == [] {
      return DefaultDraft;
    }
    var lines := Split(reply.value, '\n');
    var scanner := new JobReplyScanner();
    scanner.ReadLines(lines);
    draft := scanner.Finished();
  }

  // ---------------------------------------------------------------------------
  // Properties of the whole parse.
  // ---------------------------------------------------------------------------

  /** A reply without line breaks is one line. */
  lemma SplitOneLine(s: string)
    requires '\n' !in s
    ensures Split(s, '\n') == [s]
  {
  }

  /** A reply of one non-empty line is that line read into the initial state. */
  lemma OneLineReply(s: string)
    requires s != [] && '\n' !in s
    ensures ParseJobReply(Some(s)) == Finish(Step(InitialScan, s))
  {
    SplitOneLine(s);
    var lines := [s];
    assert lines[..|lines| - 1] == [];
    assert ScanLines(lines) == Step(ScanLines([]), s);
  }

  /** A title line sets the title to its value and stops every section. */
  lemma TitleLineStep(st: JobScan, s: string)
    requires Trimmed(s) && StartsWith(s, "Job Title:")
    ensures Step(st, s) == st.(draft := st.draft.(title := ExtractJobValue(s)),
                               collectingDescription := false, collectingRequirements := false,
                               collectingResponsibilities := false, collectingBenefits := false)
  {
    assert HeaderOf(s) == Some(TitleHeader);
    StripOfStripped(s);
  }

  /** A description header starts the description section with its value, unless that is the placeholder. */
  lemma DescriptionLineStep(st: JobScan, s: string)
    requires Trimmed(s) && StartsWith(s, "Description:")
    ensures Step(st, s) == st.(descriptionLines := Appended(st.descriptionLines, ExtractJobValue(s)),
                               collectingDescription := true, collectingRequirements := false,
                               collectingResponsibilities := false, collectingBenefits := false)
  {
    assert s[0] == 'D';
    assert HeaderOf(s) == Some(DescriptionHeader);
    StripOfStripped(s);
  }

  lemma SalaryMinHeaderOf(s: string)
    requires StartsWith(s, "Salary Min:")
    ensures HeaderOf(s) == Some(SalaryMinHeader)
  {
    assert s[0] == 'S';
    AnyPrefixFirstChar(s, ["Job Title:", "Position:", "Title:"]);
    AnyPrefixFirstChar(s, ["Job Description:", "Description:"]);
    AnyPrefixFirstChar(s, ["Requirements:", "Job Requirements:"]);
    AnyPrefixFirstChar(s, ["Responsibilities:", "Job Responsibilities:"]);
    AnyPrefixFirstChar(s, ["Benefits:", "Job Benefits:"]);
    AnyPrefixFirstChar(s, ["Job Type:", "Employment Type:"]);
    AnyPrefixFirstChar(s, ["Experience Level:", "Experience:"]);
    AnyPrefixFirstChar(s, ["Location:", "City:"]);
    AnyPrefixFirstChar(s, ["Remote:", "Work Mode:"]);
    assert StartsWith(s, ["Salary Min:", "Minimum Salary:"][0]);
  }

  /** A stripped line that starts with a header is handled as that header. */
  lemma HeaderLineStep(st: JobScan, s: string, h: Header)
    requires s != [] && Strip(s) == s && HeaderOf(s) == Some(h)
    ensures Step(st, s) == HeaderStep(st, h, s)
  {
  }

  /** A minimum-salary line sets the lower bound from its value and stops every section. */
  lemma SalaryMinLineStep(st: JobScan, s: string)
    requires Trimmed(s) && StartsWith(s, "Salary Min:")
    ensures Step(st, s) == st.(draft := st.draft.(salaryMin := SalaryOf(ExtractJobValue(s))),
                               collectingDescription := false, collectingRequirements := false,
                               collectingResponsibilities := false, collectingBenefits := false)
  {
    SalaryMinHeaderOf(s);
    StripOfStripped(s);
    HeaderLineStep(st, s, SalaryMinHeader);
    var v := ExtractJobValue(s);
    assert HeaderField(st, SalaryMinHeader, v) == st.(draft := st.draft.(salaryMin := SalaryOf(v)));
  }

  /** A one-line reply naming the title yields exactly that title, every other field at its default. */
  lemma TitleReply(s: string)
    requires Trimmed(s) && StartsWith(s, "Job Title:") && '\n' !in s
    ensures ParseJobReply(Some(s)) == DefaultDraft.(title := ExtractJobValue(s))
  {
    OneLineReply(s);
    TitleLineStep(InitialScan, s);
  }
}
