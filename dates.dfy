// Calendar dates and timestamps, and the `strptime(value, '%Y-%m-%d')` reading
// of ISO dates that the job parsers and the job serializer rely on.
module Dates {
  import opened Common
  import opened Strings

  datatype Date = Date(year: int, month: int, day: int)

  /** A calendar time with microsecond precision (Python `datetime`). */
  datatype DateTime = DateTime(date: Date, hour: int, minute: int, second: int, micro: int)

  predicate IsLeap(y: int) { (y % 4 == 0 && y % 100 != 0) || y % 400 == 0 }

  function DaysInMonth(y: int, m: int): int
    requires 1 <= m <= 12
  {
    if m == 2 then (if IsLeap(y) then 29 else 28)
    else if m == 4 || m == 6 || m == 9 || m == 11 then 30
    else 31
  }

  /** The dates Python's `date` constructor accepts (years 1 to 9999). */
  predicate ValidDate(d: Date) {
    1 <= d.year <= 9999 && 1 <= d.month <= 12 && 1 <= d.day <= DaysInMonth(d.year, d.month)
  }

  predicate ValidDateTime(t: DateTime) {
    ValidDate(t.date) && 0 <= t.hour <= 23 && 0 <= t.minute <= 59 && 0 <= t.second <= 59
    && 0 <= t.micro < 1000000
  }

  /** Chronological order on dates (field by field). */
  predicate DateBefore(a: Date, b: Date) {
    a.year < b.year
    || (a.year == b.year && (a.month < b.month || (a.month == b.month && a.day < b.day)))
  }

  predicate DateAtMost(a: Date, b: Date) { a == b || DateBefore(a, b) }

  lemma DateOrderTotal(a: Date, b: Date)
    ensures DateAtMost(a, b) <==> !DateBefore(b, a)
  {
  }

  /** Chronological order on timestamps: by date, then by time of day. */
  predicate DateTimeBefore(a: DateTime, b: DateTime) {
    DateBefore(a.date, b.date)
    || (a.date == b.date
        && (a.hour < b.hour
            || (a.hour == b.hour
                && (a.minute < b.minute
                    || (a.minute == b.minute
                        && (a.second < b.second || (a.second == b.second && a.micro < b.micro)))))))
  }

  /** Of two timestamps, exactly one comes first or they are equal. */
  lemma DateTimeOrderTotal(a: DateTime, b: DateTime)
    ensures !DateTimeBefore(a, a)
    ensures DateTimeBefore(a, b) ==> !DateTimeBefore(b, a)
    ensures DateTimeBefore(a, b) || a == b || DateTimeBefore(b, a)
  {
  }

  /** Midnight on the first day of the timestamp's month. */
  function MonthStart(t: DateTime): (r: DateTime)
    ensures r.date.year == t.date.year && r.date.month == t.date.month
    ensures ValidDateTime(t) ==> ValidDateTime(r) && !DateTimeBefore(t, r)
  {
    DateTime(Date(t.date.year, t.date.month, 1), 0, 0, 0, 0)
  }

  /** A timestamp up to `now` is at or after the month's start exactly when it falls in the same month. */
  lemma InMonthOf(t: DateTime, now: DateTime)
    requires ValidDateTime(t) && !DateTimeBefore(now, t)
    ensures !DateTimeBefore(t, MonthStart(now)) <==> t.date.year == now.date.year && t.date.month == now.date.month
  {
  }

  function DaysBeforeMonth(y: int, m: int): int
    requires 1 <= m <= 12
    decreases m
  {
    if m == 1 then 0 else DaysBeforeMonth(y, m - 1) + DaysInMonth(y, m - 1)
  }

  /** Days elapsed since 0001-01-01 (the proleptic Gregorian ordinal minus one). */
  function DayNumber(d: Date): int
    requires ValidDate(d)
  {
    var y := d.year - 1;
    365 * y + y / 4 - y / 100 + y / 400 + DaysBeforeMonth(d.year, d.month) + d.day - 1
  }

  /** Microseconds since 0001-01-01 00:00:00, used to order and subtract timestamps. */
  function Instant(t: DateTime): int
    requires ValidDateTime(t)
  {
    (((DayNumber(t.date) * 24 + t.hour) * 60 + t.minute) * 60 + t.second) * 1000000 + t.micro
  }

  // ---------------------------------------------------------------------------
  // `datetime.strptime(s, '%Y-%m-%d')`.  `%Y` takes exactly four digits; `%m`
  // takes one of `1[0-2]`, `0[1-9]`, `[1-9]`; `%d` one of `3[01]`, `[12]\d`,
  // `0[1-9]`, `[1-9]`, ` [1-9]`; the whole text must be consumed and the date
  // must exist.
  // ---------------------------------------------------------------------------

  function DigitOf(c: char): int { c as int - '0' as int }

  function MonthToken(t: string): (r: Option<int>)
    ensures r.Some? ==> 1 <= r.value <= 12
  {
    if |t| == 2 && t[0] == '1' && '0' <= t[1] <= '2' then Some(10 + DigitOf(t[1]))
    else if |t| == 2 && t[0] == '0' && '1' <= t[1] <= '9' then Some(DigitOf(t[1]))
    else if |t| == 1 && '1' <= t[0] <= '9' then Some(DigitOf(t[0]))
    else None
  }

  function DayToken(t: string): (r: Option<int>)
    ensures r.Some? ==> 1 <= r.value <= 31
  {
    if |t| == 2 && t[0] == '3' && '0' <= t[1] <= '1' then Some(30 + DigitOf(t[1]))
    else if |t| == 2 && '1' <= t[0] <= '2' && IsDigit(t[1]) then Some(10 * DigitOf(t[0]) + DigitOf(t[1]))
    else if |t| == 2 && t[0] == '0' && '1' <= t[1] <= '9' then Some(DigitOf(t[1]))
    else if |t| == 1 && '1' <= t[0] <= '9' then Some(DigitOf(t[0]))
    else if |t| == 2 && t[0] == ' ' && '1' <= t[1] <= '9' then Some(DigitOf(t[1]))
    else None
  }

  /** `strptime(s, '%Y-%m-%d')`, with `None` for the `ValueError` cases. */
  function ParseIsoDate(s: string): (r: Option<Date>)
    ensures r.Some? ==> ValidDate(r.value)
    ensures r.Some? ==> |Split(s, '-')| == 3
  {
    var parts := Split(s, '-');
    if |parts| != 3 || |parts[0]| != 4 || !AllDigits(parts[0]) then None
    else
      var y := DigitsValue(parts[0]);
      DigitsValueOf4(parts[0]);
      match (MonthToken(parts[1]), DayToken(parts[2]))
      case (Some(m), Some(d)) =>
        if 1 <= y && d <= DaysInMonth(y, m) then Some(Date(y, m, d)) else None
      case _ => None
  }

  function DigitChar(n: int): char
    requires 0 <= n <= 9
  {
    ('0' as int + n) as char
  }

  /** Two-digit zero-padded rendering, as `%02d`. */
  function Pad2(n: int): (r: string)
    requires 0 <= n <= 99
    ensures |r| == 2 && AllDigits(r)
  {
    [DigitChar(n / 10), DigitChar(n % 10)]
  }

  /** Four-digit zero-padded rendering, as `%04d`. */
  function Pad4(n: int): (r: string)
    requires 0 <= n <= 9999
    ensures |r| == 4 && AllDigits(r)
  {
    [DigitChar(n / 1000), DigitChar(n / 100 % 10), DigitChar(n / 10 % 10), DigitChar(n % 10)]
  }

  /** `date.isoformat()`: the text `YYYY-MM-DD`. */
  function FormatIsoDate(d: Date): (r: string)
    requires ValidDate(d)
    ensures |r| == 10
  {
    Pad4(d.year) + "-" + Pad2(d.month) + "-" + Pad2(d.day)
  }

  lemma SplitAtFirst(s: string, sep: char, i: nat)
    requires i < |s| && s[i] == sep && sep !in s[..i]
    ensures Split(s, sep) == [s[..i]] + Split(s[i + 1..], sep)
  {
    assert IndexOf(s, sep) == Some(i);
  }

  lemma SplitJoined(a: string, rest: string, sep: char)
    requires sep !in a
    ensures Split(a + [sep] + rest, sep) == [a] + Split(rest, sep)
  {
    var s := a + [sep] + rest;
    assert s[..|a|] == a && s[|a| + 1..] == rest;
    SplitAtFirst(s, sep, |a|);
  }

  lemma SplitThree(a: string, b: string, c: string, sep: char)
    requires sep !in a && sep !in b && sep !in c
    ensures Split(a + [sep] + b + [sep] + c, sep) == [a, b, c]
  {
    var t := b + [sep] + c;
    assert a + [sep] + b + [sep] + c == a + [sep] + t;
    SplitJoined(a, t, sep);
    SplitJoined(b, c, sep);
    assert Split(c, sep) == [c];
  }

  lemma DigitsValueOf4(s: string)
    requires |s| == 4 && AllDigits(s)
    ensures DigitsValue(s) == 1000 * DigitOf(s[0]) + 100 * DigitOf(s[1]) + 10 * DigitOf(s[2]) + DigitOf(s[3])
    ensures DigitsValue(s) <= 9999
  {
    var s3, s2, s1 := s[..3], s[..2], s[..1];
    assert s3[..2] == s2 && s2[..1] == s1 && s1[..0] == [];
    assert DigitsValue(s1) == DigitOf(s[0]);
    assert DigitsValue(s2) == 10 * DigitOf(s[0]) + DigitOf(s[1]);
    assert DigitsValue(s3) == 100 * DigitOf(s[0]) + 10 * DigitOf(s[1]) + DigitOf(s[2]);
  }

  lemma Pad4Value(n: int)
    requires 0 <= n <= 9999
    ensures DigitsValue(Pad4(n)) == n
  {
    var p := Pad4(n);
    DigitsValueOf4(p);
    assert DigitOf(p[0]) == n / 1000 && DigitOf(p[1]) == n / 100 % 10;
    assert DigitOf(p[2]) == n / 10 % 10 && DigitOf(p[3]) == n % 10;
    FourDigits(n);
  }

  /** A number below 10000 from its four decimal digits. */
  lemma FourDigits(n: int)
    requires 0 <= n <= 9999
    ensures n == 1000 * (n / 1000) + 100 * (n / 100 % 10) + 10 * (n / 10 % 10) + n % 10
  {
    var q := n / 10;
    var h := q / 10;
    assert n == 10 * q + n % 10;
    assert q == 10 * h + q % 10;
    assert h == 10 * (h / 10) + h % 10 && h < 100;
    assert n / 100 == h && n / 1000 == h / 10;
  }

  lemma MonthTokenOfPad2(m: int)
    requires 1 <= m <= 12
    ensures MonthToken(Pad2(m)) == Some(m)
  {
  }

  lemma DayTokenOfPad2(d: int)
    requires 1 <= d <= 31
    ensures DayToken(Pad2(d)) == Some(d)
  {
  }

  /** Reading back a rendered valid date gives the same date. */
  lemma ParseFormatIsoDate(d: Date)
    requires ValidDate(d)
    ensures ParseIsoDate(FormatIsoDate(d)) == Some(d)
  {
    var y, m, dd := Pad4(d.year), Pad2(d.month), Pad2(d.day);
    assert FormatIsoDate(d) == y + ['-'] + m + ['-'] + dd;
    assert '-' !in y && '-' !in m && '-' !in dd;
    SplitThree(y, m, dd, '-');
    Pad4Value(d.year);
    MonthTokenOfPad2(d.month);
    DayTokenOfPad2(d.day);
  }
}
