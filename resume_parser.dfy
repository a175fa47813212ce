// The resume service: the failure paths of `parse_resume` and
// `extract_text_from_file`, and the parser that turns the AI's "Label: value"
// reading of a resume into a record (`ResumeAIService._parse_ai_response`).
//
// Name, e-mail and phone lines set their field and leave the sections alone.
// Degree, major, technical skills, work history and projects are multi-line
// sections with a collecting flag each; every one of them starts its own
// section and stops the others.  "Years of Experience" stops only the
// degree and major sections, "Self Introduction" stops them all.
module ResumeParser {
  import opened Common
  import opened Strings
  import opened LineValues

  datatype ResumeRecord = ResumeRecord(
    name: string,
    email: string,
    phone: string,
    education: string,
    major: string,
    experienceYears: nat,
    skills: string,
    workExperience: string,
    projectExperience: string,
    selfIntroduction: string)

  const DefaultResume: ResumeRecord :=
    ResumeRecord(NotProvided, NotProvided, NotProvided, NotProvided, NotProvided, 0,
                 NotProvided, NotProvided, NotProvided, NotProvided)

  /** `_get_mock_data`: the record returned whenever parsing fails. */
  const MockResume: ResumeRecord :=
    ResumeRecord("Mock User", "mock@example.com", "123-456-7890", "Bachelor's Degree", "Computer Science", 3,
                 "Python, JavaScript, React, Django", "Software Developer at Tech Company (2021-2024)",
                 "E-commerce Platform Development, AI Chatbot Implementation",
                 "Experienced software developer with expertise in full-stack development and AI technologies.")

  // ---------------------------------------------------------------------------
  // Field values.
  // ---------------------------------------------------------------------------

  /** `_extract_years`: the first run of digits, else 0. */
  function ExtractYears(text: string): (r: nat)
    ensures NoDigits(text) ==> r == 0
    ensures !NoDigits(text) ==> Some(r) == FirstDigitRun(text)
  {
    match FirstDigitRun(text)
    case None => 0
    case Some(n) => n
  }

  /** "5 years", "about 12 years": the number written first is the one read. */
  lemma ExtractYearsOfNumber(pre: string, n: nat, post: string)
    requires NoDigits(pre) && (post == [] || !IsDigit(post[0]))
    ensures ExtractYears(pre + NatToString(n) + post) == n
  {
    FirstDigitRunIsFirstRun(pre, NatToString(n), post);
    NatToStringRoundTrip(n);
  }

  // ---------------------------------------------------------------------------
  // The scan.
  // ---------------------------------------------------------------------------

  datatype Header =
    | NameHeader | EmailHeader | PhoneHeader | DegreeHeader | MajorHeader | YearsHeader
    | SkillsHeader | WorkHeader | ProjectsHeader | SelfIntroHeader

  /** The header a stripped line starts with, tried in the order of the `elif` chain. */
  function HeaderOf(line: string): Option<Header> {
    if StartsWith(line, "Name:") then Some(NameHeader)
    else if StartsWith(line, "Email:") then Some(EmailHeader)
    else if StartsWith(line, "Phone:") then Some(PhoneHeader)
    else if StartsWith(line, "Degree:") then Some(DegreeHeader)
    else if StartsWith(line, "Major:") then Some(MajorHeader)
    else if StartsWith(line, "Years of Experience:") then Some(YearsHeader)
    else if StartsWith(line, "Technical Skills:") then Some(SkillsHeader)
    else if StartsWith(line, "Main Work History:") then Some(WorkHeader)
    else if StartsWith(line, "Main Projects:") then Some(ProjectsHeader)
    else if StartsWith(line, "Self Introduction:") then Some(SelfIntroHeader)
    else None
  }

  const EducationStops: seq<string> :=
    ["Name:", "Email:", "Phone:", "Major:", "Years of Experience:", "Technical Skills:",
     "Main Work History:", "Main Projects:", "Self Introduction:"]
  const MajorStops: seq<string> :=
    ["Name:", "Email:", "Phone:", "Degree:", "Years of Experience:", "Technical Skills:",
     "Main Work History:", "Main Projects:", "Self Introduction:"]
  const WorkStops: seq<string> :=
    ["Name:", "Email:", "Phone:", "Degree:", "Major:", "Technical Skills:", "Main Projects:", "Self Introduction:"]
  const ProjectStops: seq<string> :=
    ["Name:", "Email:", "Phone:", "Degree:", "Major:", "Technical Skills:", "Main Work History:", "Self Introduction:"]
  const SkillStops: seq<string> :=
    ["Name:", "Email:", "Phone:", "Degree:", "Major:", "Main Work History:", "Main Projects:", "Self Introduction:"]

  /** The parser's state between lines: the record, the five flags and the five line lists. */
  datatype ResumeScan = ResumeScan(
    record: ResumeRecord,
    collectingEducation: bool,
    collectingMajor: bool,
    collectingWork: bool,
    collectingProjects: bool,
    collectingSkills: bool,
    educationLines: seq<string>,
    majorLines: seq<string>,
    workLines: seq<string>,
    projectLines: seq<string>,
    skillLines: seq<string>)

  const InitialScan: ResumeScan := ResumeScan(DefaultResume, false, false, false, false, false, [], [], [], [], [])

  function Count(b: bool): nat { if b then 1 else 0 }

  /** At most one section is being collected. */
  predicate AtMostOneCollecting(st: ResumeScan) {
    Count(st.collectingEducation) + Count(st.collectingMajor) + Count(st.collectingWork)
    + Count(st.collectingProjects) + Count(st.collectingSkills) <= 1
  }

  predicate NoneCollecting(st: ResumeScan) {
    !st.collectingEducation && !st.collectingMajor && !st.collectingWork && !st.collectingProjects && !st.collectingSkills
  }

  /** A section's first line: its value, unless it is the placeholder. */
  function Appended(lines: seq<string>, v: string): seq<string> {
    if v != NotProvided then lines + [v] else lines
  }

  /** A continuation line of the degree or major section loses one leading `*`. */
  function Unstarred(line: string): string {
    if StartsWith(line, "*") then Strip(line[1..]) else line
  }

  /** Sets the five flags. */
  function Collecting(st: ResumeScan, e: bool, m: bool, w: bool, p: bool, k: bool): ResumeScan {
    st.(collectingEducation := e, collectingMajor := m, collectingWork := w,
        collectingProjects := p, collectingSkills := k)
  }

  /** A header line: its field or its section's first line, and the flags as the header demands. */
  function HeaderStep(st: ResumeScan, h: Header, line: string): ResumeScan {
    HeaderStepWith(st, h, ExtractResumeValue(line))
  }

  /** The headers whose value starts a section rather than setting a field. */
  predicate OpensSection(h: Header) {
    h.DegreeHeader? || h.MajorHeader? || h.SkillsHeader? || h.WorkHeader? || h.ProjectsHeader?
  }

  /** The header step once the line's value `v` is known. */
  function HeaderStepWith(st: ResumeScan, h: Header, v: string): ResumeScan
  {
    var rec := st.record;
    match h
    case NameHeader => st.(record := rec.(name := v))
    case EmailHeader => st.(record := rec.(email := v))
    case PhoneHeader => st.(record := rec.(phone := v))
    case DegreeHeader => Collecting(st.(educationLines := Appended(st.educationLines, v)), true, false, false, false, false)
    case MajorHeader => Collecting(st.(majorLines := Appended(st.majorLines, v)), false, true, false, false, false)
    case YearsHeader =>
      st.(record := rec.(experienceYears := ExtractYears(v)), collectingEducation := false, collectingMajor := false)
    case SkillsHeader => Collecting(st.(skillLines := Appended(st.skillLines, v)), false, false, false, false, true)
    case WorkHeader => Collecting(st.(workLines := Appended(st.workLines, v)), false, false, true, false, false)
    case ProjectsHeader => Collecting(st.(projectLines := Appended(st.projectLines, v)), false, false, false, true, false)
    case SelfIntroHeader => Collecting(st.(record := rec.(selfIntroduction := v)), false, false, false, false, false)
  }

  /** Which sections a header opens and closes, and which it leaves as they were. */
  lemma {:induction false} HeaderStepFlags(st: ResumeScan, h: Header, v: string)
    ensures h in {NameHeader, EmailHeader, PhoneHeader} ==>
      HeaderStepWith(st, h, v).collectingEducation == st.collectingEducation && HeaderStepWith(st, h, v).collectingMajor == st.collectingMajor
      && HeaderStepWith(st, h, v).collectingWork == st.collectingWork && HeaderStepWith(st, h, v).collectingProjects == st.collectingProjects
      && HeaderStepWith(st, h, v).collectingSkills == st.collectingSkills
    ensures h == DegreeHeader ==> HeaderStepWith(st, h, v).collectingEducation && !HeaderStepWith(st, h, v).collectingMajor && !HeaderStepWith(st, h, v).collectingWork && !HeaderStepWith(st, h, v).collectingProjects && !HeaderStepWith(st, h, v).collectingSkills
    ensures h == MajorHeader ==> HeaderStepWith(st, h, v).collectingMajor && !HeaderStepWith(st, h, v).collectingEducation && !HeaderStepWith(st, h, v).collectingWork && !HeaderStepWith(st, h, v).collectingProjects && !HeaderStepWith(st, h, v).collectingSkills
    ensures h == SkillsHeader ==> HeaderStepWith(st, h, v).collectingSkills && !HeaderStepWith(st, h, v).collectingEducation && !HeaderStepWith(st, h, v).collectingMajor && !HeaderStepWith(st, h, v).collectingWork && !HeaderStepWith(st, h, v).collectingProjects
    ensures h == WorkHeader ==> HeaderStepWith(st, h, v).collectingWork && !HeaderStepWith(st, h, v).collectingEducation && !HeaderStepWith(st, h, v).collectingMajor && !HeaderStepWith(st, h, v).collectingProjects && !HeaderStepWith(st, h, v).collectingSkills
    ensures h == ProjectsHeader ==> HeaderStepWith(st, h, v).collectingProjects && !HeaderStepWith(st, h, v).collectingEducation && !HeaderStepWith(st, h, v).collectingMajor && !HeaderStepWith(st, h, v).collectingWork && !HeaderStepWith(st, h, v).collectingSkills
    ensures h == YearsHeader ==>
      !HeaderStepWith(st, h, v).collectingEducation && !HeaderStepWith(st, h, v).collectingMajor && HeaderStepWith(st, h, v).collectingWork == st.collectingWork
      && HeaderStepWith(st, h, v).collectingProjects == st.collectingProjects && HeaderStepWith(st, h, v).collectingSkills == st.collectingSkills
    ensures h == SelfIntroHeader ==> NoneCollecting(HeaderStepWith(st, h, v))
  {
  }

  /** One branch of the continuation chain: its section is being collected and the line does not stop it. */
  predicate Takes(collecting: bool, line: string, stops: seq<string>) {
    collecting && !AnyPrefix(line, stops)
  }

  /**
   * The continuation chain, given which of its five branches would take the
   * line: the first one that does appends it to its section.
   */
  function ContinueWith(st: ResumeScan, line: string, e: bool, m: bool, w: bool, p: bool, k: bool): (r: ResumeScan)
    ensures r.record == st.record
    ensures r.collectingEducation == st.collectingEducation && r.collectingMajor == st.collectingMajor
    ensures r.collectingWork == st.collectingWork && r.collectingProjects == st.collectingProjects
    ensures r.collectingSkills == st.collectingSkills
  {
    if e then st.(educationLines := st.educationLines + [Unstarred(line)])
    else if m then st.(majorLines := st.majorLines + [Unstarred(line)])
    else if w then st.(workLines := st.workLines + [line])
    else if p then st.(projectLines := st.projectLines + [line])
    else if k then st.(skillLines := st.skillLines + [line])
    else st
  }

  /** A non-header line joins the first section that is being collected and does not stop at it. */
  function Continue(st: ResumeScan, line: string): (r: ResumeScan)
    ensures r.record == st.record
    ensures r.collectingEducation == st.collectingEducation && r.collectingMajor == st.collectingMajor
    ensures r.collectingWork == st.collectingWork && r.collectingProjects == st.collectingProjects
    ensures r.collectingSkills == st.collectingSkills
  {
    ContinueWith(st, line,
      Takes(st.collectingEducation, line, EducationStops), Takes(st.collectingMajor, line, MajorStops),
      Takes(st.collectingWork, line, WorkStops), Takes(st.collectingProjects, line, ProjectStops),
      Takes(st.collectingSkills, line, SkillStops))
  }

  /** A non-blank line, once the header it starts with, if any, is known. */
  function Dispatch(st: ResumeScan, line: string, h: Option<Header>): (r: ResumeScan)
    ensures AtMostOneCollecting(st) ==> AtMostOneCollecting(r)
  {
    match h
    case None => Continue(st, line)
    case Some(h) => HeaderStepFlags(st, h, ExtractResumeValue(line)); HeaderStep(st, h, line)
  }

  /** One line of the reply; blank lines are skipped. */
  function Step(st: ResumeScan, raw: string): (r: ResumeScan)
    ensures AllSpace(raw) ==> r == st
    ensures AtMostOneCollecting(st) ==> AtMostOneCollecting(r)
  {
    var line := Strip(raw);
    if line == [] then st else Dispatch(st, line, HeaderOf(line))
  }

  function ScanLines(lines: seq<string>): ResumeScan
    decreases |lines|
  {
    if |lines| == 0 then InitialScan else Step(ScanLines(lines[..|lines| - 1]), lines[|lines| - 1])
  }

  /** However the reply is laid out, no two sections are collected at once. */
  lemma {:induction false} ScanAtMostOne(lines: seq<string>)
    ensures AtMostOneCollecting(ScanLines(lines))
    decreases |lines|
  {
    if |lines| > 0 {
      ScanAtMostOne(lines[..|lines| - 1]);
    }
  }

  function Joined(lines: seq<string>, current: string): string {
    if |lines| > 0 then Join(" ", lines) else current
  }

  /** The record after the last line: each collected section joined with single spaces. */
  function Finish(st: ResumeScan): ResumeRecord {
    st.record.(
      education := Joined(st.educationLines, st.record.education),
      major := Joined(st.majorLines, st.record.major),
      workExperience := Joined(st.workLines, st.record.workExperience),
      projectExperience := Joined(st.projectLines, st.record.projectExperience),
      skills := Joined(st.skillLines, st.record.skills))
  }

  /** `_parse_ai_response`; a missing reply raises inside the `try` and gives the mock record. */
  function ParseResumeReply(reply: Option<string>): (r: ResumeRecord)
    ensures reply.None? ==> r == MockResume
  {
    if reply.None? then MockResume else Finish(ScanLines(Split(reply.value, '\n')))
  }

  /** The parser's locals: the record, the five flags and the five line lists. */
  class ResumeReplyScanner {
    var record: ResumeRecord
    var collectingEducation: bool
    var collectingMajor: bool
    var collectingWork: bool
    var collectingProjects: bool
    var collectingSkills: bool
    var educationLines: seq<string>
    var majorLines: seq<string>
    var workLines: seq<string>
    var projectLines: seq<string>
    var skillLines: seq<string>

    function State(): ResumeScan
      reads this
    {
      ResumeScan(record, collectingEducation, collectingMajor, collectingWork, collectingProjects, collectingSkills,
                 educationLines, majorLines, workLines, projectLines, skillLines)
    }

    constructor ()
      ensures State() == InitialScan
    {
      record := DefaultResume;
      collectingEducation, collectingMajor, collectingWork, collectingProjects, collectingSkills := false, false, false, false, false;
      educationLines, majorLines, workLines, projectLines, skillLines := [], [], [], [], [];
    }

    /** A continuation line, appended to the first section collecting it. */
    method ReadContinuation(line: string)
      modifies this
      ensures State() == Continue(old(State()), line)
    {
      var e := Takes(collectingEducation, line, EducationStops);
      var m := Takes(collectingMajor, line, MajorStops);
      var w := Takes(collectingWork, line, WorkStops);
      var p := Takes(collectingProjects, line, ProjectStops);
      var k := Takes(collectingSkills, line, SkillStops);
      AppendContinuation(line, e, m, w, p, k);
    }

    /** The chain itself, once each branch's condition is known. */
    method AppendContinuation(line: string, e: bool, m: bool, w: bool, p: bool, k: bool)
      modifies this
      ensures State() == ContinueWith(old(State()), line, e, m, w, p, k)
    {
      if e {
        educationLines := educationLines + [Unstarred(line)];
      } else if m {
        majorLines := majorLines + [Unstarred(line)];
      } else if w {
        workLines := workLines + [line];
      } else if p {
        projectLines := projectLines + [line];
      } else if k {
        skillLines := skillLines + [line];
      }
    }

    /** A header line: its value, then the field or section it sets. */
    method ReadHeader(h: Header, line: string)
      modifies this
      ensures State() == HeaderStep(old(State()), h, line)
    {
      var value := ExtractResumeValue(line);
      SetHeader(h, value);
    }

    /** The branch of the header chain, with the flag updates it makes. */
    method SetHeader(h: Header, value: string)
      modifies this
      ensures State() == HeaderStepWith(old(State()), h, value)
    {
      if OpensSection(h) {
        OpenSection(h, value);
      } else {
        SetField(h, value);
      }
    }

    /** A header whose value is a field of the record. */
    method SetField(h: Header, value: string)
      requires !OpensSection(h)
      modifies this
      ensures State() == HeaderStepWith(old(State()), h, value)
    {
      match h {
        case NameHeader => record := record.(name := value);
        case EmailHeader => record := record.(email := value);
        case PhoneHeader => record := record.(phone := value);
        case YearsHeader =>
          record := record.(experienceYears := ExtractYears(value));
          SetFlags(false, false, collectingWork, collectingProjects, collectingSkills);
        case SelfIntroHeader =>
          record := record.(selfIntroduction := value);
          SetFlags(false, false, false, false, false);
      }
    }

    /** A header that opens a section, whose value is the section's first line. */
    method OpenSection(h: Header, value: string)
      requires OpensSection(h)
      modifies this
      ensures State() == HeaderStepWith(old(State()), h, value)
    {
      match h {
        case DegreeHeader =>
          educationLines := Appended(educationLines, value);
          SetFlags(true, false, false, false, false);
        case MajorHeader =>
          majorLines := Appended(majorLines, value);
          SetFlags(false, true, false, false, false);
        case SkillsHeader =>
          skillLines := Appended(skillLines, value);
          SetFlags(false, false, false, false, true);
        case WorkHeader =>
          workLines := Appended(workLines, value);
          SetFlags(false, false, true, false, false);
        case ProjectsHeader =>
          projectLines := Appended(projectLines, value);
          SetFlags(false, false, false, true, false);
      }
    }

    /** Which of the five sections is being collected, all set at once. */
    method SetFlags(e: bool, m: bool, w: bool, p: bool, k: bool)
      modifies this
      ensures State() == Collecting(old(State()), e, m, w, p, k)
    {
      collectingEducation, collectingMajor, collectingWork, collectingProjects, collectingSkills := e, m, w, p, k;
    }

    method ReadLine(raw: string)
      modifies this
      ensures State() == Step(old(State()), raw)
    {
      var line := Strip(raw);
      if line != [] {
        var h := HeaderOf(line);
        match h
        case None => ReadContinuation(line);
        case Some(h) => ReadHeader(h, line);
      }
    }

    /** The `for line in lines` loop, from the initial state. */
    method ReadLines(lines: seq<string>)
      requires State() == InitialScan
      modifies this
      ensures State() == ScanLines(lines)
    {
      for i := 0 to |lines|
        invariant State() == ScanLines(lines[..i])
      {
        assert lines[..i + 1][..i] == lines[..i];
        assert ScanLines(lines[..i + 1]) == Step(ScanLines(lines[..i]), lines[i]);
        ReadLine(lines[i]);
      }
      assert lines[..|lines|] == lines;
    }

    method Finished() returns (r: ResumeRecord)
      ensures r == Finish(State())
    {
      r := record;
      if |educationLines| > 0 { r := r.(education := Join(" ", educationLines)); }
      if |majorLines| > 0 { r := r.(major := Join(" ", majorLines)); }
      if |workLines| > 0 { r := r.(workExperience := Join(" ", workLines)); }
      if |projectLines| > 0 { r := r.(projectExperience := Join(" ", projectLines)); }
      if |skillLines| > 0 { r := r.(skills := Join(" ", skillLines)); }
    }
  }

  /** `_parse_ai_response`: the lines of the reply read in order, then the sections joined. */
  method ParseAiResponse(reply: Option<string>) returns (r: ResumeRecord)
    ensures r == ParseResumeReply(reply)
  {
    if reply.None? {
      return MockResume;
    }
    var lines := Split(reply.value, '\n');
    var scanner := new ResumeReplyScanner();
    scanner.ReadLines(lines);
    r := scanner.Finished();
  }

  // ---------------------------------------------------------------------------
  // Properties of single lines.
  // ---------------------------------------------------------------------------

  /** A name line sets the name to its value and leaves every section as it was. */
  lemma NameLineStep(st: ResumeScan, s: string)
    requires Trimmed(s) && StartsWith(s, "Name:")
    ensures Step(st, s) == st.(record := st.record.(name := ExtractResumeValue(s)))
  {
    StripOfStripped(s);
  }

  /** A years line sets the years and stops only the degree and major sections. */
  lemma YearsLineStep(st: ResumeScan, s: string)
    requires Trimmed(s) && StartsWith(s, "Years of Experience:")
    ensures Step(st, s) == st.(record := st.record.(experienceYears := ExtractYears(ExtractResumeValue(s))),
                               collectingEducation := false, collectingMajor := false)
  {
    assert s[0] == 'Y';
    assert HeaderOf(s) == Some(YearsHeader);
    StripOfStripped(s);
  }

  /** No header starts with '*'. */
  lemma StarredIsNoHeader(s: string)
    requires s != [] && s[0] == '*'
    ensures HeaderOf(s) == None
  {
    var headers := ["Name:", "Email:", "Phone:", "Degree:", "Major:", "Years of Experience:",
                    "Technical Skills:", "Main Work History:", "Main Projects:", "Self Introduction:"];
    forall i | 0 <= i < |headers| ensures !StartsWith(s, headers[i]) {
      FirstCharNotPrefix(s, headers[i]);
    }
    assert !StartsWith(s, headers[0]) && !StartsWith(s, headers[1]) && !StartsWith(s, headers[2]);
    assert !StartsWith(s, headers[3]) && !StartsWith(s, headers[4]) && !StartsWith(s, headers[5]);
    assert !StartsWith(s, headers[6]) && !StartsWith(s, headers[7]) && !StartsWith(s, headers[8]);
    assert !StartsWith(s, headers[9]);
  }

  /** A starred continuation of the degree section is added without its star. */
  lemma DegreeContinuation(st: ResumeScan, s: string)
    requires Trimmed(s) && s[0] == '*' && st.collectingEducation
    ensures Step(st, s) == st.(educationLines := st.educationLines + [Strip(s[1..])])
  {
    StripOfStripped(s);
    StarredIsNoHeader(s);
    AnyPrefixFirstChar(s, EducationStops);
    assert Step(st, s) == Continue(st, s);
    assert StartsWith(s, "*");
  }

  // ---------------------------------------------------------------------------
  // `parse_resume` and `extract_text_from_file`.
  // ---------------------------------------------------------------------------

  predicate AllDots(s: string) { forall i :: 0 <= i < |s| ==> s[i] == '.' }

  /**
   * `os.path.splitext(name)[1]` of a file name without directories: from the
   * last dot on, unless everything before that dot is dots (a hidden file).
   */
  function Extension(name: string): (r: string)
    ensures r == [] || (r[0] == '.' && '.' !in r[1..] && |r| <= |name| && r == name[|name| - |r|..])
  {
    match LastIndexOf(name, '.')
    case None => []
    case Some(i) => if AllDots(name[..i]) then [] else name[i..]
  }

  /** Extensions with an extractor: PDF, Word and plain text, in any letter case. */
  predicate Extractable(ext: string) { Lower(ext) in {".pdf", ".doc", ".docx", ".txt"} }

  /**
   * `extract_text_from_file`: `contents` stands for what the format's reader
   * returns (its own failures give ""); an unsupported extension gives "".
   */
  function ExtractText(ext: string, contents: string): (r: string)
    ensures !Extractable(ext) ==> r == []
    ensures Extractable(ext) ==> r == contents
  {
    if Extractable(ext) then contents else []
  }

  datatype ParseOutcome = ParseOutcome(success: bool, error: string, aiResponse: string, data: ResumeRecord)

  /**
   * `parse_resume`.  `enabled` is whether the AI service was configured, and
   * `reply` is the model's text, or the message of the exception it raised.
   */
  function ParseResume(enabled: bool, filename: string, contents: string, reply: Result<string, string>): (r: ParseOutcome)
    ensures r.success <==> enabled && Strip(ExtractText(Extension(filename), contents)) != [] && reply.Ok?
    ensures !r.success ==> r.data == MockResume
    ensures r.success ==> r.data == ParseResumeReply(Some(reply.value)) && r.aiResponse == reply.value
    ensures !enabled ==> r.error == "AI service not available"
  {
    if !enabled then ParseOutcome(false, "AI service not available", "AI服务未配置或不可用", MockResume)
    else
      var text := ExtractText(Extension(filename), contents);
      if Strip(text) == [] then
        ParseOutcome(false, "Failed to extract text from file", "无法从文件中提取文本内容", MockResume)
      else match reply
        case Err(e) => ParseOutcome(false, e, "AI解析失败: " + e, MockResume)
        case Ok(t) => ParseOutcome(true, "", t, ParseResumeReply(Some(t)))
  }

  /** An upload whose extension has no reader never reaches the model and yields the mock record. */
  lemma UnsupportedUploadFails(filename: string, contents: string, reply: Result<string, string>)
    requires !Extractable(Extension(filename))
    ensures !ParseResume(true, filename, contents, reply).success
    ensures ParseResume(true, filename, contents, reply).error == "Failed to extract text from file"
  {
  }

  /** `report.PDF` has the extension `.PDF`, which has a reader. */
  lemma PdfExtension(stem: string)
    requires '.' !in stem && stem != []
    ensures Extension(stem + ".PDF") == ".PDF" && Extractable(".PDF")
  {
    var name := stem + ".PDF";
    assert name[|stem|] == '.';
    assert name[|stem| + 1..] == "PDF";
    assert LastIndexOf(name, '.') == Some(|stem|);
    assert name[..|stem|] == stem;
    assert !AllDots(stem) by {
      assert stem[0] != '.';
    }
    assert Lower(".PDF") == ".pdf";
  }
}
