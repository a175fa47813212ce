// The analyses the log analyzer runs over the parsed entries: the summary
// report, the processing-step durations, the error patterns and the AI
// statistics, and the choice of log files to read.  What the analyses print
// is left out; each analysis is modelled by the numbers and lists it prints.
module LogReports {
  import opened Common
  import opened Strings
  import opened Dates
  import opened Sequences
  import opened Counters
  import opened LogAnalysis

  /** Where a timestamp lies on the time line, in microseconds; 0 for a time that does not exist. */
  function Moment(t: DateTime): real { if ValidDateTime(t) then Instant(t) as real else 0.0 }

  function EntryMoment(e: LogEntry): real { Moment(e.timestamp) }

  /** `(b - a).total_seconds()`. */
  function Seconds(a: DateTime, b: DateTime): real { (Moment(b) - Moment(a)) / 1000000.0 }

  // ---------------------------------------------------------------------------
  // `analyze_error_patterns`.
  // ---------------------------------------------------------------------------

  predicate IsError(e: LogEntry) { e.level == "ERROR" }

  function ErrorEntries(es: seq<LogEntry>): seq<LogEntry> { Filter(es, IsError) }

  const UnknownError: string := "未知错误"

  /** The error type of a message: the stripped text before the first ':', or "未知错误" without one. */
  function ErrorTypeOf(message: string): (r: string)
    ensures ':' !in message ==> r == UnknownError
    ensures ':' in message ==> r == Strip(Split(message, ':')[0])
  {
    match IndexOf(message, ':')
    case None => UnknownError
    case Some(i) => Strip(message[..i])
  }

  function EntryErrorType(e: LogEntry): string { ErrorTypeOf(e.message) }

  function EntryHour(e: LogEntry): int { e.timestamp.hour }

  /** A message written as a type, ':' and a text has that type. */
  lemma ErrorTypeOfJoined(kind: string, text: string)
    requires ':' !in kind
    ensures ErrorTypeOf(kind + ":" + text) == Strip(kind)
  {
    var m := kind + ":" + text;
    assert m[|kind|] == ':';
    assert m[..|kind|] == kind;
    assert IndexOf(m, ':') == Some(|kind|);
  }

  const RecentErrorCount := 5

  /** `sorted(error_entries, key=timestamp, reverse=True)[:5]`. */
  function RecentErrors(es: seq<LogEntry>): seq<LogEntry> {
    Take(SortDesc(ErrorEntries(es), EntryMoment), RecentErrorCount)
  }

  datatype ErrorPatterns = ErrorPatterns(types: map<string, nat>, recent: seq<LogEntry>, hours: map<int, nat>)

  /**
   * `analyze_error_patterns`: nothing when there is no ERROR entry; otherwise
   * the count per error type, the newest errors and the count per hour.
   */
  method AnalyzeErrorPatterns(entries: seq<LogEntry>) returns (r: Option<ErrorPatterns>)
    ensures r.None? <==> forall e :: e in entries ==> !IsError(e)
    ensures r.Some? ==> r.value == ErrorPatterns(Tally(ErrorEntries(entries), EntryErrorType),
                                                 RecentErrors(entries),
                                                 Tally(ErrorEntries(entries), EntryHour))
  {
    var errors := ErrorEntries(entries);
    if errors == [] {
      return None;
    }
    var types := CountBy(errors, EntryErrorType);
    var hours := CountBy(errors, EntryHour);
    r := Some(ErrorPatterns(types, RecentErrors(entries), hours));
  }

  /**
   * The error types partition the ERROR entries: each type's count is its
   * number of occurrences, and the counts add up to the number of ERROR
   * entries; the same holds of the hours.
   */
  lemma ErrorTypeCounts(entries: seq<LogEntry>)
    ensures var errors := ErrorEntries(entries);
      && (forall t :: Get(Tally(errors, EntryErrorType), t) == Occurrences(errors, EntryErrorType, t))
      && Total(KeyOrder(errors, EntryErrorType), Tally(errors, EntryErrorType)) == |errors|
      && Total(KeyOrder(errors, EntryHour), Tally(errors, EntryHour)) == |errors|
  {
    var errors := ErrorEntries(entries);
    TallyCounts(errors, EntryErrorType);
    TallyTotal(errors, EntryErrorType);
    TallyTotal(errors, EntryHour);
  }

  /**
   * The recent errors are at most five ERROR entries, newest first; all of
   * them when there are at most five, and no ERROR entry left out is newer
   * than one listed.
   */
  lemma RecentErrorsNewest(entries: seq<LogEntry>)
    ensures var r := RecentErrors(entries);
      var errors := ErrorEntries(entries);
      && |r| == (if |errors| <= RecentErrorCount then |errors| else RecentErrorCount)
      && SortedDesc(r, EntryMoment)
      && (forall e :: e in r ==> e in entries && IsError(e))
      && (|errors| <= RecentErrorCount ==> multiset(r) == multiset(errors))
      && (forall x, y :: x in multiset(errors) - multiset(r) && y in r ==> EntryMoment(y) >= EntryMoment(x))
  {
    var errors := ErrorEntries(entries);
    var r := RecentErrors(entries);
    TopEntries(errors, EntryMoment, RecentErrorCount);
    forall e | e in r
      ensures e in entries && IsError(e)
    {
      assert e in multiset(r);
      assert e in multiset(errors);
    }
  }

  // ---------------------------------------------------------------------------
  // `analyze_ai_performance`.
  // ---------------------------------------------------------------------------

  const AiCompleted: string := "AI解析完成"
  const AiFailed: string := "AI解析失败"
  const AiRawResponse: string := "AI原始响应:"

  /** Which branch of the chain of `in` tests a message takes. */
  datatype AiEvent = AiSuccess | AiFailure | AiResponse | AiOther

  function AiEventOf(message: string): AiEvent {
    if Contains(message, AiCompleted) then AiSuccess
    else if Contains(message, AiFailed) then AiFailure
    else if Contains(message, AiRawResponse) then AiResponse
    else AiOther
  }

  function EntryAiEvent(e: LogEntry): AiEvent { AiEventOf(e.message) }

  /** `message.split('AI原始响应:')[1].strip()`: the text between the first marker and the next one, stripped. */
  function ResponseText(message: string): string
    requires Contains(message, AiRawResponse)
  {
    var i := FindSub(message, AiRawResponse).value;
    var after := message[i + |AiRawResponse|..];
    match FindSub(after, AiRawResponse)
    case None => Strip(after)
    case Some(j) => Strip(after[..j])
  }

  /** A message that is the marker followed by a response is read back as the stripped response. */
  lemma ResponseTextOfJoined(text: string)
    requires !Contains(text, AiRawResponse)
    ensures Contains(AiRawResponse + text, AiRawResponse)
    ensures ResponseText(AiRawResponse + text) == Strip(text)
  {
    var m := AiRawResponse + text;
    assert m[..|AiRawResponse|] == AiRawResponse;
    assert m[|AiRawResponse|..] == text;
  }

  datatype AiStats = AiStats(success: nat, failure: nat, lengths: seq<nat>)

  function AiStep(st: AiStats, e: LogEntry): AiStats {
    match AiEventOf(e.message)
    case AiSuccess => st.(success := st.success + 1)
    case AiFailure => st.(failure := st.failure + 1)
    case AiResponse => st.(lengths := st.lengths + [|ResponseText(e.message)|])
    case AiOther => st
  }

  /** The counters after the loop over the entries. */
  function AiTally(es: seq<LogEntry>): AiStats
    decreases |es|
  {
    if |es| == 0 then AiStats(0, 0, [])
    else AiStep(AiTally(es[..|es| - 1]), es[|es| - 1])
  }

  /** The success rate in percent, when there was an AI call at all. */
  function SuccessRate(st: AiStats): (r: Option<real>)
    ensures r.Some? <==> st.success + st.failure > 0
    ensures r.Some? ==> 0.0 <= r.value <= 100.0
    ensures r.Some? ==> (r.value == 100.0 <==> st.failure == 0)
  {
    var total := st.success + st.failure;
    if total > 0 then
      var q := st.success as real / total as real;
      assert q <= 1.0 && (q == 1.0 <==> st.failure == 0) by {
        assert q * total as real == st.success as real;
      }
      Some(q * 100.0)
    else None
  }

  /** `analyze_ai_performance`: the counters of the loop, and the success rate computed from them. */
  method AnalyzeAiPerformance(entries: seq<LogEntry>) returns (st: AiStats, rate: Option<real>)
    ensures st == AiTally(entries) && rate == SuccessRate(st)
  {
    var success, failure, lengths: seq<nat> := 0, 0, [];
    for i := 0 to |entries|
      invariant AiStats(success, failure, lengths) == AiTally(entries[..i])
    {
      assert entries[..i + 1][..i] == entries[..i];
      var message := entries[i].message;
      if Contains(message, AiCompleted) {
        success := success + 1;
      } else if Contains(message, AiFailed) {
        failure := failure + 1;
      } else if Contains(message, AiRawResponse) {
        lengths := lengths + [|ResponseText(message)|];
      }
    }
    assert entries[..|entries|] == entries;
    st := AiStats(success, failure, lengths);
    var total := success + failure;
    if total > 0 {
      rate := Some(success as real / total as real * 100.0);
    } else {
      rate := None;
    }
  }

  /**
   * Each entry counts in at most one place: the successes are the entries
   * mentioning "AI解析完成", the failures those mentioning "AI解析失败" but
   * not the former, and one response length is kept per remaining entry
   * with "AI原始响应:".
   */
  lemma {:induction false} AiCounts(es: seq<LogEntry>)
    ensures AiTally(es).success == Occurrences(es, EntryAiEvent, AiSuccess)
    ensures AiTally(es).failure == Occurrences(es, EntryAiEvent, AiFailure)
    ensures |AiTally(es).lengths| == Occurrences(es, EntryAiEvent, AiResponse)
    decreases |es|
  {
    if |es| > 0 {
      AiCounts(es[..|es| - 1]);
    }
  }

  // ---------------------------------------------------------------------------
  // `generate_summary_report`.
  // ---------------------------------------------------------------------------

  const FileStarted: string := "开始处理文件:"
  const FileCompleted: string := "文件处理完成"
  const FileFailed: string := "文件处理失败:"

  /** `len([e for e in entries if marker in e['message']])`. */
  function Mentioning(es: seq<LogEntry>, marker: string): nat {
    |Filter(es, (e: LogEntry) => Contains(e.message, marker))|
  }

  function EntryLevel(e: LogEntry): string { e.level }

  /** `min(e['timestamp'] for e in entries)`. */
  function EarliestTime(es: seq<LogEntry>): (r: DateTime)
    requires |es| > 0
    ensures exists i :: 0 <= i < |es| && es[i].timestamp == r
    ensures forall i :: 0 <= i < |es| ==> Moment(r) <= Moment(es[i].timestamp)
  {
    var e := Least(es, EntryMoment);
    assert forall i :: 0 <= i < |es| ==> EntryMoment(es[i]) == Moment(es[i].timestamp);
    e.timestamp
  }

  /** `max(e['timestamp'] for e in entries)`. */
  function LatestTime(es: seq<LogEntry>): (r: DateTime)
    requires |es| > 0
    ensures exists i :: 0 <= i < |es| && es[i].timestamp == r
    ensures forall i :: 0 <= i < |es| ==> Moment(es[i].timestamp) <= Moment(r)
  {
    var e := Greatest(es, EntryMoment);
    assert forall i :: 0 <= i < |es| ==> EntryMoment(es[i]) == Moment(es[i].timestamp);
    e.timestamp
  }

  /** The first entry with the smallest key. */
  function Least<T>(s: seq<T>, key: T -> real): (r: T)
    requires |s| > 0
    ensures r in s
    ensures forall i :: 0 <= i < |s| ==> key(r) <= key(s[i])
    decreases |s|
  {
    if |s| == 1 then s[0]
    else
      var init := s[..|s| - 1];
      var r := Least(init, key);
      assert forall i :: 0 <= i < |init| ==> init[i] == s[i];
      if key(s[|s| - 1]) < key(r) then s[|s| - 1] else r
  }

  /** The first entry with the largest key. */
  function Greatest<T>(s: seq<T>, key: T -> real): (r: T)
    requires |s| > 0
    ensures r in s
    ensures forall i :: 0 <= i < |s| ==> key(s[i]) <= key(r)
    decreases |s|
  {
    if |s| == 1 then s[0]
    else
      var init := s[..|s| - 1];
      var r := Greatest(init, key);
      assert forall i :: 0 <= i < |init| ==> init[i] == s[i];
      if key(s[|s| - 1]) > key(r) then s[|s| - 1] else r
  }

  /** The file success rate in percent, only when some file processing was started. */
  function FileSuccessRate(processed: nat, completed: nat): (r: Option<real>)
    ensures r.Some? <==> processed > 0
    ensures r.Some? ==> r.value >= 0.0
    ensures r.Some? && completed <= processed ==> r.value <= 100.0
  {
    if processed > 0 then
      var q := completed as real / processed as real;
      assert completed <= processed ==> q <= 1.0 by {
        assert q * processed as real == completed as real;
      }
      Some(q * 100.0)
    else None
  }

  datatype SummaryReport = SummaryReport(start: DateTime, end: DateTime, total: nat, levels: map<string, nat>,
                                         processed: nat, completed: nat, failed: nat, successRate: Option<real>)

  /** `generate_summary_report`: nothing without entries, otherwise the figures it prints. */
  function Summarize(es: seq<LogEntry>): (r: Option<SummaryReport>)
    ensures r.None? <==> es == []
    ensures r.Some? ==> Moment(r.value.start) <= Moment(r.value.end) && r.value.total == |es|
    ensures r.Some? ==> r.value.processed <= |es| && r.value.completed <= |es| && r.value.failed <= |es|
    ensures r.Some? ==> (r.value.successRate.Some? <==> r.value.processed > 0)
  {
    if es == [] then None
    else
      var processed := Mentioning(es, FileStarted);
      var completed := Mentioning(es, FileCompleted);
      Some(SummaryReport(EarliestTime(es), LatestTime(es), |es|, Tally(es, EntryLevel),
                         processed, completed, Mentioning(es, FileFailed),
                         FileSuccessRate(processed, completed)))
  }

  /** The level counts are occurrence counts and add up to the number of entries. */
  lemma SummaryLevels(es: seq<LogEntry>)
    requires es != []
    ensures var levels := Summarize(es).value.levels;
      && (forall l :: Get(levels, l) == Occurrences(es, EntryLevel, l))
      && Total(KeyOrder(es, EntryLevel), levels) == |es|
  {
    assert Summarize(es).value.levels == Tally(es, EntryLevel);
    TallyCounts(es, EntryLevel);
    TallyTotal(es, EntryLevel);
  }

  // ---------------------------------------------------------------------------
  // `analyze_processing_performance`.
  // ---------------------------------------------------------------------------

  /** The timed steps, one per key of `step_times`. */
  datatype Step = Extraction | AiParsing | Saving | Whole

  /** What a message marks, by the first marker of the chain it contains. */
  datatype StepEvent = Begin(step: Step) | End(step: Step) | NoStep

  function StepEventOf(message: string): StepEvent {
    if Contains(message, FileStarted) then Begin(Whole)
    else if Contains(message, "步骤1: 提取文档内容") then Begin(Extraction)
    else if Contains(message, "成功提取文本内容") then End(Extraction)
    else if Contains(message, "步骤2: AI解析职位描述") then Begin(AiParsing)
    else if Contains(message, AiCompleted) then End(AiParsing)
    else if Contains(message, "步骤3: 保存到数据库") then Begin(Saving)
    else if Contains(message, "成功保存职位到数据库") then End(Saving)
    else if Contains(message, FileCompleted) then End(Whole)
    else NoStep
  }

  function EntryStepEvent(e: LogEntry): StepEvent { StepEventOf(e.message) }

  /** `current_process`: when each step of the file in progress began; `step_times`: the durations in seconds. */
  datatype Perf = Perf(current: map<Step, DateTime>, times: map<Step, seq<real>>)

  function Durations(times: map<Step, seq<real>>, s: Step): seq<real> { if s in times then times[s] else [] }

  /**
   * One event at time `t`: a start marker records its time; an end marker
   * records the time since its step's start, when that start was seen; the
   * end of a file forgets every start.
   */
  function Apply(p: Perf, ev: StepEvent, t: DateTime): Perf {
    match ev
    case NoStep => p
    case Begin(s) => p.(current := p.current[s := t])
    case End(s) =>
      var times := if s in p.current then p.times[s := Durations(p.times, s) + [Seconds(p.current[s], t)]]
                   else p.times;
      Perf(if s == Whole then map[] else p.current, times)
  }

  function PerfStep(p: Perf, e: LogEntry): Perf { Apply(p, StepEventOf(e.message), e.timestamp) }

  function PerfOf(es: seq<LogEntry>): Perf
    decreases |es|
  {
    if |es| == 0 then Perf(map[], map[])
    else PerfStep(PerfOf(es[..|es| - 1]), es[|es| - 1])
  }

  /** `analyze_processing_performance`: the durations per step. */
  method AnalyzeProcessingPerformance(entries: seq<LogEntry>) returns (times: map<Step, seq<real>>)
    ensures times == PerfOf(entries).times
  {
    var current: map<Step, DateTime> := map[];
    times := map[];
    for i := 0 to |entries|
      invariant Perf(current, times) == PerfOf(entries[..i])
    {
      assert entries[..i + 1][..i] == entries[..i];
      current, times := Record(current, times, entries[i]);
    }
    assert entries[..|entries|] == entries;
  }

  /** The body of the loop, for one entry. */
  method Record(current: map<Step, DateTime>, times: map<Step, seq<real>>, e: LogEntry)
    returns (current': map<Step, DateTime>, times': map<Step, seq<real>>)
    ensures Perf(current', times') == PerfStep(Perf(current, times), e)
  {
    current', times' := current, times;
    match StepEventOf(e.message)
    case NoStep =>
    case Begin(s) =>
      current' := current[s := e.timestamp];
    case End(s) =>
      if s in current {
        times' := times[s := Durations(times, s) + [Seconds(current[s], e.timestamp)]];
      }
      if s == Whole {
        current' := map[];
      }
  }

  /**
   * Since the last end of a file (or the first entry), as long as no entry
   * marks the start of step `s`, the step has no start time and no duration
   * of it is recorded.
   */
  lemma {:induction false} NoStartNoDuration(es: seq<LogEntry>, from: nat, s: Step)
    requires from <= |es|
    requires from == 0 || EntryStepEvent(es[from - 1]) == End(Whole)
    requires forall k :: from <= k < |es| ==> EntryStepEvent(es[k]) != Begin(s)
    ensures s !in PerfOf(es).current
    ensures Durations(PerfOf(es).times, s) == Durations(PerfOf(es[..from]).times, s)
    decreases |es|
  {
    if |es| > from {
      var init := es[..|es| - 1];
      assert init[..from] == es[..from];
      forall k | from <= k < |init|
        ensures EntryStepEvent(init[k]) != Begin(s)
      {
        assert init[k] == es[k];
      }
      if from > 0 {
        assert init[from - 1] == es[from - 1];
      }
      NoStartNoDuration(init, from, s);
    } else {
      assert es[..from] == es;
      if from > 0 {
        assert es[..from - 1] + [es[from - 1]] == es;
        assert es[..|es| - 1] == es[..from - 1];
      }
    }
  }

  /** Entries in time order: no entry is earlier than the one before it. */
  predicate Chronological(es: seq<LogEntry>) {
    forall i :: 0 < i < |es| ==> EntryMoment(es[i - 1]) <= EntryMoment(es[i])
  }

  /** The start times held are no later than the last entry, and every duration so far is non-negative. */
  predicate PerfInOrder(es: seq<LogEntry>, p: Perf) {
    && (es == [] ==> p.current == map[])
    && (es != [] ==> forall s :: s in p.current ==> Moment(p.current[s]) <= EntryMoment(es[|es| - 1]))
    && (forall s, i :: s in p.times && 0 <= i < |p.times[s]| ==> p.times[s][i] >= 0.0)
  }

  lemma ApplyInOrder(es: seq<LogEntry>, p: Perf, e: LogEntry, ev: StepEvent)
    requires PerfInOrder(es, p)
    requires es != [] ==> EntryMoment(es[|es| - 1]) <= EntryMoment(e)
    ensures PerfInOrder(es + [e], Apply(p, ev, e.timestamp))
  {
    var q := Apply(p, ev, e.timestamp);
    assert (es + [e])[|es|] == e;
    match ev
    case NoStep =>
    case Begin(s) =>
    case End(s) =>
      if s in p.current {
        var d := Seconds(p.current[s], e.timestamp);
        assert d >= 0.0;
        assert q.times == p.times[s := Durations(p.times, s) + [d]];
      }
  }

  /** In a chronological log every recorded duration is non-negative. */
  lemma {:induction false} DurationsNonNegative(es: seq<LogEntry>)
    requires Chronological(es)
    ensures forall s, i :: s in PerfOf(es).times && 0 <= i < |PerfOf(es).times[s]| ==> PerfOf(es).times[s][i] >= 0.0
    ensures PerfInOrder(es, PerfOf(es))
    decreases |es|
  {
    if |es| > 0 {
      var init := es[..|es| - 1];
      assert Chronological(init) by {
        forall i | 0 < i < |init|
          ensures EntryMoment(init[i - 1]) <= EntryMoment(init[i])
        {
          assert init[i - 1] == es[i - 1] && init[i] == es[i];
        }
      }
      DurationsNonNegative(init);
      assert init + [es[|es| - 1]] == es;
      ApplyInOrder(init, PerfOf(init), es[|es| - 1], EntryStepEvent(es[|es| - 1]));
    }
  }

  // ---------------------------------------------------------------------------
  // `analyze_logs`.
  // ---------------------------------------------------------------------------

  const LogPrefix: string := "auto_upload_"
  const LogSuffix: string := ".log"
  const ErrorsSuffix: string := "_errors.log"

  /** `glob(f"auto_upload_{date}*.log")`; the empty `date` stands for no date filter. */
  predicate MatchesPattern(name: string, date: string) {
    var prefix := LogPrefix + date;
    StartsWith(name, prefix) && EndsWith(name, LogSuffix) && |prefix| + |LogSuffix| <= |name|
  }

  /** A log file: its name and its lines. */
  datatype LogFile = LogFile(name: string, lines: seq<string>)

  predicate Wanted(f: LogFile, date: string) { MatchesPattern(f.name, date) && !EndsWith(f.name, ErrorsSuffix) }

  /** The files `analyze_logs` reads: the matching ones, except the error-only logs. */
  function SelectLogFiles(files: seq<LogFile>, date: string): (r: seq<LogFile>)
    ensures forall f :: f in r <==> f in files && MatchesPattern(f.name, date) && !EndsWith(f.name, ErrorsSuffix)
  {
    Filter(files, (f: LogFile) => Wanted(f, date))
  }

  /** The entries of the files, file after file. */
  function EntriesOf(files: seq<LogFile>): seq<LogEntry>
    decreases |files|
  {
    if |files| == 0 then []
    else EntriesOf(files[..|files| - 1]) + ParseLogFileLines(files[|files| - 1].name, files[|files| - 1].lines)
  }

  /** Every entry comes from one of the files and carries its name. */
  lemma {:induction false} EntriesFromFiles(files: seq<LogFile>)
    ensures forall e :: e in EntriesOf(files) ==> exists f :: f in files && e.file == f.name
    decreases |files|
  {
    if |files| > 0 {
      var init := files[..|files| - 1];
      var last := files[|files| - 1];
      EntriesFromFiles(init);
      ParsedEntries(last.name, last.lines);
      forall e | e in EntriesOf(files)
        ensures exists f :: f in files && e.file == f.name
      {
        if e in EntriesOf(init) {
          var f :| f in init && e.file == f.name;
          assert f in files;
        } else {
          var es := ParseLogFileLines(last.name, last.lines);
          var i :| 0 <= i < |es| && es[i] == e;
          assert StartsAt(es[i], last.name, last.lines, ParseLogLine);
        }
      }
    }
  }

  /** No entry analysed comes from an error-only log or from a file the pattern does not match. */
  lemma AnalysedFiles(files: seq<LogFile>, date: string)
    ensures forall e :: e in EntriesOf(SelectLogFiles(files, date)) ==>
      MatchesPattern(e.file, date) && !EndsWith(e.file, ErrorsSuffix)
  {
    var chosen := SelectLogFiles(files, date);
    EntriesFromFiles(chosen);
    forall e | e in EntriesOf(chosen)
      ensures MatchesPattern(e.file, date) && !EndsWith(e.file, ErrorsSuffix)
    {
      var f :| f in chosen && e.file == f.name;
    }
  }

  datatype Analysis = Analysis(summary: SummaryReport, durations: map<Step, seq<real>>,
                               errors: Option<ErrorPatterns>, ai: AiStats, aiRate: Option<real>)

  /** The entries of each chosen file, file after file. */
  method ReadLogFiles(chosen: seq<LogFile>) returns (all: seq<LogEntry>)
    ensures all == EntriesOf(chosen)
  {
    all := [];
    for i := 0 to |chosen|
      invariant all == EntriesOf(chosen[..i])
    {
      assert chosen[..i + 1][..i] == chosen[..i];
      var entries := ParseLogFile(chosen[i].name, chosen[i].lines);
      all := all + entries;
    }
    assert chosen[..|chosen|] == chosen;
  }

  /**
   * `analyze_logs`: nothing when no file matches or no entry is found;
   * otherwise the analyses of all entries of the chosen files.
   */
  method AnalyzeLogs(files: seq<LogFile>, date: string) returns (r: Option<Analysis>)
    ensures var entries := EntriesOf(SelectLogFiles(files, date));
      && (r.None? <==> entries == [])
      && (r.Some? ==> r.value.summary == Summarize(entries).value && r.value.durations == PerfOf(entries).times
                      && r.value.ai == AiTally(entries) && r.value.aiRate == SuccessRate(AiTally(entries)))
      && (r.Some? ==> (r.value.errors.None? <==> forall e :: e in entries ==> !IsError(e)))
      && (r.Some? && r.value.errors.Some? ==>
            r.value.errors.value == ErrorPatterns(Tally(ErrorEntries(entries), EntryErrorType), RecentErrors(entries),
                                                  Tally(ErrorEntries(entries), EntryHour)))
  {
    var chosen := SelectLogFiles(files, date);
    if chosen == [] {
      return None;
    }
    var all := ReadLogFiles(chosen);
    if all == [] {
      return None;
    }
    var durations := AnalyzeProcessingPerformance(all);
    var errors := AnalyzeErrorPatterns(all);
    var ai, rate := AnalyzeAiPerformance(all);
    r := Some(Analysis(Summarize(all).value, durations, errors, ai, rate));
  }
}
