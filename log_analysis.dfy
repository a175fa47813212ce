// The log analyzer of the upload program: reading log lines of the form
// "2025-09-30 01:26:11,112 - logger - LEVEL - message", grouping
// continuation lines into the entry above them, and the statistics the
// analyses compute from the entries.  The file system and the printed
// report are not modelled: a file is its name and its lines.
module LogAnalysis {
  import opened Common
  import opened Strings
  import opened Dates
  import opened Sequences
  import opened Counters

  // ---------------------------------------------------------------------------
  // One line: `parse_log_line`.
  // ---------------------------------------------------------------------------

  /** The shape `\d{4}-\d{2}-\d{2} \d{2}:\d{2}:\d{2},\d{3}`, with `d` for a digit. */
  const TimestampPattern: string := "dddd-dd-dd dd:dd:dd,ddd"

  predicate TimestampShape(s: string) {
    |s| == |TimestampPattern|
    && forall i :: 0 <= i < |s| ==> if TimestampPattern[i] == 'd' then IsDigit(s[i]) else s[i] == TimestampPattern[i]
  }

  function Digits(s: string, from: nat, n: nat): nat
    requires TimestampShape(s) && from + n <= |s|
    requires forall i :: from <= i < from + n ==> TimestampPattern[i] == 'd'
  {
    assert AllDigits(s[from..from + n]) by {
      var d := s[from..from + n];
      forall i | 0 <= i < n
        ensures IsDigit(d[i])
      {
        assert d[i] == s[from + i];
      }
    }
    DigitsValue(s[from..from + n])
  }

  /** The fields `strptime(.., '%Y-%m-%d %H:%M:%S.%f')` reads; three fraction digits are milliseconds. */
  function TimestampOf(s: string): DateTime
    requires TimestampShape(s)
  {
    DateTime(Date(Digits(s, 0, 4), Digits(s, 5, 2), Digits(s, 8, 2)),
             Digits(s, 11, 2), Digits(s, 14, 2), Digits(s, 17, 2), Digits(s, 20, 3) * 1000)
  }

  predicate IsWordChar(c: char) { 'a' <= c <= 'z' || 'A' <= c <= 'Z' || IsDigit(c) || c == '_' }
  predicate NonSpace(c: char) { !IsSpace(c) }

  /** The longest prefix of `s` whose characters all satisfy `p`. */
  function Run(s: string, p: char -> bool): (r: string)
    ensures |r| <= |s| && r == s[..|r|]
    ensures forall i :: 0 <= i < |r| ==> p(r[i])
    ensures |r| < |s| ==> !p(s[|r|])
    decreases |s|
  {
    if |s| == 0 || !p(s[0]) then []
    else
      var rest := Run(s[1..], p);
      assert s[1..][..|rest|] == s[1..|rest| + 1];
      [s[0]] + rest
  }

  /** A run followed by a character outside it is read back exactly. */
  lemma {:induction false} RunOfJoined(x: string, rest: string, p: char -> bool)
    requires forall i :: 0 <= i < |x| ==> p(x[i])
    requires rest != [] && !p(rest[0])
    ensures Run(x + rest, p) == x
    decreases |x|
  {
    if |x| == 0 {
      assert x + rest == rest;
    } else {
      assert (x + rest)[1..] == x[1..] + rest;
      RunOfJoined(x[1..], rest, p);
    }
  }

  const Separator: string := " - "

  /** What `parse_log_line` returns: the dictionary of one header line. */
  datatype LogLine = LogLine(timestamp: DateTime, logger: string, level: string, message: string, rawLine: string)

  /** After the logger: ` - `, a level of word characters, ` - ` and a non-empty message. */
  function LevelAndMessage(s: string): (r: Option<(string, string)>)
    ensures r.Some? ==> r.value.0 != [] && r.value.1 != []
  {
    if !StartsWith(s, Separator) then None
    else
      var level := Run(s[3..], IsWordChar);
      var afterLevel := s[3 + |level|..];
      if level == [] || !StartsWith(afterLevel, Separator) || |afterLevel| == 3 then None
      else Some((level, afterLevel[3..]))
  }

  /**
   * The part after the timestamp: ` - `, a logger name of non-space
   * characters, then the level and the message; each run is the longest
   * one, as the greedy pattern takes it.
   */
  function HeaderFields(rest: string): (r: Option<(string, string, string)>)
    ensures r.Some? ==> r.value.0 != [] && r.value.1 != [] && r.value.2 != []
  {
    if !StartsWith(rest, Separator) then None
    else
      var logger := Run(rest[3..], NonSpace);
      if logger == [] then None
      else match LevelAndMessage(rest[3 + |logger|..])
        case None => None
        case Some(lm) => Some((logger, lm.0, lm.1))
  }

  /**
   * `parse_log_line`: None unless the stripped line has the header shape and
   * its timestamp is a real date and time.
   */
  function ParseLogLine(line: string): (r: Option<LogLine>)
    ensures r.Some? ==> ValidDateTime(r.value.timestamp) && r.value.rawLine == Strip(line)
    ensures r.Some? ==> r.value.logger != [] && r.value.level != [] && r.value.message != []
    ensures Strip(line) == [] ==> r.None?
  {
    var l := Strip(line);
    if |l| < |TimestampPattern| || !TimestampShape(l[..|TimestampPattern|]) then None
    else
      var t := TimestampOf(l[..|TimestampPattern|]);
      match HeaderFields(l[|TimestampPattern|..])
      case None => None
      case Some(fields) =>
        if ValidDateTime(t) then Some(LogLine(t, fields.0, fields.1, fields.2, l)) else None
  }

  lemma LevelAndMessageOfJoined(level: string, message: string)
    requires level != [] && forall i :: 0 <= i < |level| ==> IsWordChar(level[i])
    requires message != []
    ensures LevelAndMessage(Separator + level + (Separator + message)) == Some((level, message))
  {
    var afterLevel := Separator + message;
    var s := Separator + level + afterLevel;
    assert s[3..] == level + afterLevel;
    RunOfJoined(level, afterLevel, IsWordChar);
    assert s[3 + |level|..] == afterLevel;
    assert afterLevel[3..] == message;
  }

  lemma HeaderFieldsOfLogger(logger: string, after: string)
    requires logger != [] && forall i :: 0 <= i < |logger| ==> NonSpace(logger[i])
    requires after != [] && IsSpace(after[0])
    ensures HeaderFields(Separator + logger + after)
      == match LevelAndMessage(after) case None => None case Some(lm) => Some((logger, lm.0, lm.1))
  {
    var rest := Separator + logger + after;
    assert rest[3..] == logger + after;
    RunOfJoined(logger, after, NonSpace);
    assert rest[3 + |logger|..] == after;
  }

  /** The logger, level and message written between separators are read back. */
  lemma HeaderFieldsOfJoined(logger: string, level: string, message: string)
    requires logger != [] && forall i :: 0 <= i < |logger| ==> NonSpace(logger[i])
    requires level != [] && forall i :: 0 <= i < |level| ==> IsWordChar(level[i])
    requires message != []
    ensures HeaderFields(Separator + logger + Separator + level + Separator + message) == Some((logger, level, message))
  {
    var after := Separator + level + (Separator + message);
    assert Separator + logger + Separator + level + Separator + message == Separator + logger + after;
    HeaderFieldsOfLogger(logger, after);
    LevelAndMessageOfJoined(level, message);
  }

  /**
   * A line written as timestamp, logger, level and message is read back
   * field for field, when its timestamp is valid and it has no surrounding
   * blanks to strip.
   */
  lemma ParseLogLineRoundTrip(ts: string, logger: string, level: string, message: string)
    requires TimestampShape(ts) && ValidDateTime(TimestampOf(ts))
    requires logger != [] && forall i :: 0 <= i < |logger| ==> NonSpace(logger[i])
    requires level != [] && forall i :: 0 <= i < |level| ==> IsWordChar(level[i])
    requires message != [] && !IsSpace(message[|message| - 1])
    ensures var line := ts + (Separator + logger + Separator + level + Separator + message);
      ParseLogLine(line) == Some(LogLine(TimestampOf(ts), logger, level, message, line))
  {
    var tail := Separator + logger + Separator + level + Separator + message;
    var line := ts + tail;
    assert line[0] == ts[0] && IsDigit(ts[0]);
    assert line[|line| - 1] == message[|message| - 1];
    StripOfStripped(line);
    assert line[..|TimestampPattern|] == ts;
    assert line[|TimestampPattern|..] == tail;
    HeaderFieldsOfJoined(logger, level, message);
  }

  // ---------------------------------------------------------------------------
  // A file: `parse_log_file`.
  // ---------------------------------------------------------------------------

  /** An entry of a log file: a header line, its continuation lines, its line number and file. */
  datatype LogEntry = LogEntry(timestamp: DateTime, logger: string, level: string, message: string,
                               rawLine: string, lineNumber: nat, file: string)

  /** The entries completed so far and the one still collecting continuation lines. */
  datatype Grouping = Grouping(entries: seq<LogEntry>, current: Option<LogEntry>)

  function EntryOf(h: LogLine, lineNumber: nat, file: string): LogEntry {
    LogEntry(h.timestamp, h.logger, h.level, h.message, h.rawLine, lineNumber, file)
  }

  function Flushed(g: Grouping): seq<LogEntry> {
    match g.current
    case None => g.entries
    case Some(e) => g.entries + [e]
  }

  // The grouping is stated for any line reader `parse`; the file parser uses
  // `ParseLogLine`.

  /**
   * Line `n` (from 1): a blank line is skipped, a header line closes the
   * current entry and opens a new one, and any other line is added to the
   * current entry's message after a newline, or dropped before the first entry.
   */
  function GroupStep(g: Grouping, file: string, n: nat, raw: string, parse: string -> Option<LogLine>): Grouping {
    var line := Strip(raw);
    if line == [] then g
    else match parse(line)
      case Some(h) => Grouping(Flushed(g), Some(EntryOf(h, n, file)))
      case None =>
        match g.current
        case None => g
        case Some(e) => g.(current := Some(e.(message := e.message + "\n" + line)))
  }

  function GroupLines(file: string, lines: seq<string>, parse: string -> Option<LogLine>): Grouping
    decreases |lines|
  {
    if |lines| == 0 then Grouping([], None)
    else GroupStep(GroupLines(file, lines[..|lines| - 1], parse), file, |lines|, lines[|lines| - 1], parse)
  }

  /** `parse_log_file` on a file read without error: the entries in file order, the last one flushed. */
  function ParseLogFileLines(file: string, lines: seq<string>): seq<LogEntry> {
    Flushed(GroupLines(file, lines, ParseLogLine))
  }

  /** Whether a line is a header line: not blank, and read by `parse`. */
  predicate IsHeader(raw: string, parse: string -> Option<LogLine>) {
    Strip(raw) != [] && parse(Strip(raw)).Some?
  }

  /** How many of the lines are header lines. */
  function HeaderCount(lines: seq<string>, parse: string -> Option<LogLine>): nat
    decreases |lines|
  {
    if |lines| == 0 then 0
    else HeaderCount(lines[..|lines| - 1], parse) + (if IsHeader(lines[|lines| - 1], parse) then 1 else 0)
  }

  /** The entry began at a header line of `lines`, whose fields it carries; its message begins with that line's. */
  predicate StartsAt(e: LogEntry, file: string, lines: seq<string>, parse: string -> Option<LogLine>) {
    && 1 <= e.lineNumber <= |lines|
    && IsHeader(lines[e.lineNumber - 1], parse)
    && var h := parse(Strip(lines[e.lineNumber - 1])).value;
    && e.timestamp == h.timestamp && e.logger == h.logger && e.level == h.level
    && e.rawLine == h.rawLine && StartsWith(e.message, h.message) && e.file == file
  }

  predicate Increasing(es: seq<LogEntry>) {
    forall i, j :: 0 <= i < j < |es| ==> es[i].lineNumber < es[j].lineNumber
  }

  /** What holds of the grouping after the first lines: every entry so far, in line order, one per header line. */
  predicate GroupedWell(g: Grouping, file: string, lines: seq<string>, parse: string -> Option<LogLine>) {
    var es := Flushed(g);
    && |es| == HeaderCount(lines, parse)
    && Increasing(es)
    && (forall i :: 0 <= i < |es| ==> es[i].lineNumber <= |lines| && StartsAt(es[i], file, lines, parse))
  }

  lemma StartsAtExtends(e: LogEntry, file: string, lines: seq<string>, raw: string, parse: string -> Option<LogLine>)
    requires StartsAt(e, file, lines, parse)
    ensures StartsAt(e, file, lines + [raw], parse)
  {
    assert (lines + [raw])[e.lineNumber - 1] == lines[e.lineNumber - 1];
  }

  lemma EarlierEntriesExtend(es: seq<LogEntry>, file: string, lines: seq<string>, raw: string,
                             parse: string -> Option<LogLine>)
    requires forall i :: 0 <= i < |es| ==> es[i].lineNumber <= |lines| && StartsAt(es[i], file, lines, parse)
    ensures forall i :: 0 <= i < |es| ==> es[i].lineNumber <= |lines| && StartsAt(es[i], file, lines + [raw], parse)
  {
    forall i | 0 <= i < |es|
      ensures StartsAt(es[i], file, lines + [raw], parse)
    {
      StartsAtExtends(es[i], file, lines, raw, parse);
    }
  }

  /** A header line adds one entry, numbered after all the others. */
  lemma HeaderStepWell(g: Grouping, file: string, lines: seq<string>, raw: string, parse: string -> Option<LogLine>)
    requires GroupedWell(g, file, lines, parse) && IsHeader(raw, parse)
    ensures GroupedWell(GroupStep(g, file, |lines| + 1, raw, parse), file, lines + [raw], parse)
  {
    var all := lines + [raw];
    assert all[..|lines|] == lines;
    var es := Flushed(g);
    EarlierEntriesExtend(es, file, lines, raw, parse);
    var e := EntryOf(parse(Strip(raw)).value, |lines| + 1, file);
    assert Flushed(GroupStep(g, file, |lines| + 1, raw, parse)) == es + [e];
    assert StartsAt(e, file, all, parse);
  }

  /** A continuation line only lengthens the current entry's message. */
  lemma ContinuationStepWell(g: Grouping, file: string, lines: seq<string>, raw: string, parse: string -> Option<LogLine>)
    requires GroupedWell(g, file, lines, parse) && !IsHeader(raw, parse)
    ensures GroupedWell(GroupStep(g, file, |lines| + 1, raw, parse), file, lines + [raw], parse)
  {
    var all := lines + [raw];
    assert all[..|lines|] == lines;
    assert HeaderCount(all, parse) == HeaderCount(lines, parse);
    var line := Strip(raw);
    GroupedWellExtends(g, file, lines, raw, parse);
    if line != [] && g.current.Some? {
      var e := g.current.value;
      assert e.message + "\n" + line == e.message + ("\n" + line);
      assert GroupStep(g, file, |lines| + 1, raw, parse) == Grouping(g.entries, Some(e.(message := e.message + ("\n" + line))));
      ExtendedMessageWell(g, file, all, parse, "\n" + line);
    } else {
      assert GroupStep(g, file, |lines| + 1, raw, parse) == g;
    }
  }

  /** Lengthening an entry's message keeps it starting at its header line. */
  lemma StartsAtLonger(e: LogEntry, file: string, lines: seq<string>, parse: string -> Option<LogLine>, tail: string)
    requires StartsAt(e, file, lines, parse)
    ensures StartsAt(e.(message := e.message + tail), file, lines, parse)
  {
    var h := parse(Strip(lines[e.lineNumber - 1])).value;
    assert (e.message + tail)[..|h.message|] == e.message[..|h.message|];
  }

  /** Replacing the last entry by one from the same header line keeps the entries in order and at their lines. */
  lemma LastReplaced(init: seq<LogEntry>, e: LogEntry, e': LogEntry, file: string, lines: seq<string>,
                     parse: string -> Option<LogLine>)
    requires Increasing(init + [e])
    requires forall i :: 0 <= i < |init| ==> init[i].lineNumber <= |lines| && StartsAt(init[i], file, lines, parse)
    requires e'.lineNumber == e.lineNumber <= |lines| && StartsAt(e', file, lines, parse)
    ensures Increasing(init + [e'])
    ensures forall i :: 0 <= i < |init + [e']| ==>
      (init + [e'])[i].lineNumber <= |lines| && StartsAt((init + [e'])[i], file, lines, parse)
  {
    var es := init + [e];
    var es' := init + [e'];
    forall i, j | 0 <= i < j < |es'|
      ensures es'[i].lineNumber < es'[j].lineNumber
    {
      assert es[i].lineNumber < es[j].lineNumber;
    }
    forall i | 0 <= i < |es'|
      ensures es'[i].lineNumber <= |lines| && StartsAt(es'[i], file, lines, parse)
    {
      if i < |init| { assert es'[i] == init[i]; }
    }
  }

  /** A line that is not a header keeps a grouping well formed for the longer file. */
  lemma GroupedWellExtends(g: Grouping, file: string, lines: seq<string>, raw: string, parse: string -> Option<LogLine>)
    requires GroupedWell(g, file, lines, parse)
    requires HeaderCount(lines + [raw], parse) == HeaderCount(lines, parse)
    ensures GroupedWell(g, file, lines + [raw], parse)
  {
    EarlierEntriesExtend(Flushed(g), file, lines, raw, parse);
  }

  /** Lengthening the current entry's message keeps the grouping well formed. */
  lemma ExtendedMessageWell(g: Grouping, file: string, lines: seq<string>, parse: string -> Option<LogLine>, tail: string)
    requires GroupedWell(g, file, lines, parse) && g.current.Some?
    ensures var e := g.current.value;
      GroupedWell(Grouping(g.entries, Some(e.(message := e.message + tail))), file, lines, parse)
  {
    var es := Flushed(g);
    var e := g.current.value;
    assert es == g.entries + [e];
    assert es[|es| - 1] == e;
    assert forall i :: 0 <= i < |g.entries| ==> g.entries[i] == es[i];
    StartsAtLonger(e, file, lines, parse, tail);
    var e' := e.(message := e.message + tail);
    LastReplaced(g.entries, e, e', file, lines, parse);
    assert Flushed(Grouping(g.entries, Some(e'))) == g.entries + [e'];
  }

  /** Every header line gives exactly one entry, in file order, carrying that line's number and fields. */
  lemma {:induction false} GroupLinesWell(file: string, lines: seq<string>, parse: string -> Option<LogLine>)
    ensures GroupedWell(GroupLines(file, lines, parse), file, lines, parse)
    decreases |lines|
  {
    if |lines| > 0 {
      var init := lines[..|lines| - 1];
      var raw := lines[|lines| - 1];
      GroupLinesWell(file, init, parse);
      assert init + [raw] == lines;
      if IsHeader(raw, parse) {
        HeaderStepWell(GroupLines(file, init, parse), file, init, raw, parse);
      } else {
        ContinuationStepWell(GroupLines(file, init, parse), file, init, raw, parse);
      }
    }
  }

  /** The entries of a file: one per header line, in order, each starting at its header line. */
  lemma ParsedEntries(file: string, lines: seq<string>)
    ensures var es := ParseLogFileLines(file, lines);
      && |es| == HeaderCount(lines, ParseLogLine)
      && Increasing(es)
      && forall i :: 0 <= i < |es| ==> StartsAt(es[i], file, lines, ParseLogLine)
  {
    GroupLinesWell(file, lines, ParseLogLine);
  }

  /** `parse_log_file`: the loop over the numbered lines with the current entry. */
  method ParseLogFile(file: string, lines: seq<string>) returns (entries: seq<LogEntry>)
    ensures entries == ParseLogFileLines(file, lines)
  {
    entries := GroupFile(file, lines, ParseLogLine);
  }

  /** The loop of `parse_log_file`, for the line reader `parse`. */
  method GroupFile(file: string, lines: seq<string>, parse: string -> Option<LogLine>) returns (entries: seq<LogEntry>)
    ensures entries == Flushed(GroupLines(file, lines, parse))
  {
    entries := [];
    var current: Option<LogEntry> := None;
    for i := 0 to |lines|
      invariant Grouping(entries, current) == GroupLines(file, lines[..i], parse)
    {
      assert lines[..i + 1][..i] == lines[..i];
      var line := Strip(lines[i]);
      if line != [] {
        var entry := parse(line);
        if entry.Some? {
          if current.Some? {
            entries := entries + [current.value];
          }
          current := Some(EntryOf(entry.value, i + 1, file));
        } else if current.Some? {
          current := Some(current.value.(message := current.value.message + "\n" + line));
        }
      }
    }
    assert lines[..|lines|] == lines;
    if current.Some? {
      entries := entries + [current.value];
    }
  }
}
