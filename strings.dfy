// Text helpers standing in for the Python string methods the parsers use:
// `str.strip`, `str.lower`, `startswith`, `endswith`, `in`, `str.split`,
// `str.join`, and the regular expression `\d+` used to read numbers.
module Strings {
  import opened Common

  /** The characters `str.strip()` removes (ASCII whitespace). */
  predicate IsSpace(c: char) {
    c == ' ' || c == '\t' || c == '\n' || c == '\r' || c == '\U{000B}' || c == '\U{000C}'
  }

  predicate IsDigit(c: char) { '0' <= c <= '9' }

  predicate AllDigits(s: string) { forall i :: 0 <= i < |s| ==> IsDigit(s[i]) }

  predicate NoDigits(s: string) { forall i :: 0 <= i < |s| ==> !IsDigit(s[i]) }

  predicate AllSpace(s: string) { forall i :: 0 <= i < |s| ==> IsSpace(s[i]) }

  function LowerChar(c: char): char {
    if 'A' <= c <= 'Z' then (c as int + 32) as char else c
  }

  /** `str.lower()` on ASCII letters. */
  function Lower(s: string): (r: string)
    ensures |r| == |s|
    ensures forall i :: 0 <= i < |s| ==> r[i] == LowerChar(s[i])
  {
    if |s| == 0 then [] else [LowerChar(s[0])] + Lower(s[1..])
  }

  /** `str.lstrip()`: the longest suffix that does not start with whitespace. */
  function StripLeft(s: string): (r: string)
    ensures |r| <= |s| && r == s[|s| - |r|..]
    ensures AllSpace(s[..|s| - |r|])
    ensures r == [] || !IsSpace(r[0])
  {
    if |s| > 0 && IsSpace(s[0]) then StripLeft(s[1..]) else s
  }

  /** `str.rstrip()`: the longest prefix that does not end with whitespace. */
  function StripRight(s: string): (r: string)
    ensures |r| <= |s| && r == s[..|r|]
    ensures AllSpace(s[|r|..])
    ensures r == [] || !IsSpace(r[|r| - 1])
  {
    if |s| > 0 && IsSpace(s[|s| - 1]) then StripRight(s[..|s| - 1]) else s
  }

  /** `str.strip()`: whitespace removed from both ends. */
  function Strip(s: string): (r: string)
    ensures |r| <= |s|
    ensures r == [] || (!IsSpace(r[0]) && !IsSpace(r[|r| - 1]))
    ensures r == [] <==> AllSpace(s)
  {
    var l := StripLeft(s);
    assert l == [] ==> AllSpace(s) by {
      if l == [] {
        assert s[..|s| - |l|] == s;
      }
    }
    StripRight(l)
  }

  /** A string with no surrounding whitespace is left unchanged by `strip()`. */
  lemma StripOfStripped(s: string)
    requires s == [] || (!IsSpace(s[0]) && !IsSpace(s[|s| - 1]))
    ensures Strip(s) == s
  {
  }

  /** `strip()` is idempotent. */
  lemma StripIdempotent(s: string)
    ensures Strip(Strip(s)) == Strip(s)
  {
    StripOfStripped(Strip(s));
  }

  lemma {:induction false} StripLeftPadded(ws: string, v: string)
    requires AllSpace(ws)
    requires v == [] || !IsSpace(v[0])
    ensures StripLeft(ws + v) == v
    decreases |ws|
  {
    if |ws| == 0 {
      assert ws + v == v;
    } else {
      assert (ws + v)[1..] == ws[1..] + v;
      StripLeftPadded(ws[1..], v);
    }
  }

  /** Leading whitespace before a stripped text is removed and nothing else. */
  lemma StripPadded(ws: string, v: string)
    requires AllSpace(ws)
    requires v != [] && !IsSpace(v[0]) && !IsSpace(v[|v| - 1])
    ensures Strip(ws + v) == v
  {
    StripLeftPadded(ws, v);
  }

  predicate StartsWith(s: string, prefix: string) {
    |prefix| <= |s| && s[..|prefix|] == prefix
  }

  /** `s.startswith(prefixes)` for a tuple of prefixes. */
  predicate AnyPrefix(s: string, prefixes: seq<string>)
    decreases |prefixes|
  {
    |prefixes| > 0 && (StartsWith(s, prefixes[0]) || AnyPrefix(s, prefixes[1..]))
  }

  /** A prefix beginning with another character is not a prefix. */
  lemma FirstCharNotPrefix(s: string, prefix: string)
    requires s != [] && prefix != [] && prefix[0] != s[0]
    ensures !StartsWith(s, prefix)
  {
    if |prefix| <= |s| {
      assert s[..|prefix|][0] == s[0];
    }
  }

  /** No prefix in the tuple begins with the string's first character. */
  lemma {:induction false} AnyPrefixFirstChar(s: string, prefixes: seq<string>)
    requires s != []
    requires forall i :: 0 <= i < |prefixes| ==> prefixes[i] != [] && prefixes[i][0] != s[0]
    ensures !AnyPrefix(s, prefixes)
    decreases |prefixes|
  {
    if |prefixes| > 0 {
      AnyPrefixFirstChar(s, prefixes[1..]);
    }
  }

  predicate EndsWith(s: string, suffix: string) {
    |suffix| <= |s| && s[|s| - |suffix|..] == suffix
  }

  /** Python's `sub in s`. */
  predicate Contains(s: string, sub: string)
    decreases |s|
  {
    StartsWith(s, sub) || (|s| > 0 && Contains(s[1..], sub))
  }

  /** `s.find(sub)` as an option: where the first occurrence of `sub` starts. */
  function FindSub(s: string, sub: string): (r: Option<nat>)
    ensures r.None? <==> !Contains(s, sub)
    ensures r.Some? ==> r.value + |sub| <= |s| && StartsWith(s[r.value..], sub)
    decreases |s|
  {
    if StartsWith(s, sub) then Some(0)
    else if |s| == 0 then None
    else match FindSub(s[1..], sub)
      case None => None
      case Some(i) => assert s[i + 1..] == s[1..][i..]; Some(i + 1)
  }

  /** `s.find(c)` for a single character, as an option. */
  function IndexOf(s: string, c: char): (r: Option<nat>)
    ensures r.None? <==> c !in s
    ensures r.Some? ==> r.value < |s| && s[r.value] == c && c !in s[..r.value]
  {
    if |s| == 0 then None
    else if s[0] == c then Some(0)
    else match IndexOf(s[1..], c)
      case None => None
      case Some(i) => assert s[1..][..i] == s[1..i + 1]; Some(i + 1)
  }

  /** `s.rfind(c)` for a single character, as an option. */
  function LastIndexOf(s: string, c: char): (r: Option<nat>)
    ensures r.None? <==> c !in s
    ensures r.Some? ==> r.value < |s| && s[r.value] == c && c !in s[r.value + 1..]
    decreases |s|
  {
    if |s| == 0 then None
    else if s[|s| - 1] == c then Some(|s| - 1)
    else
      var r := LastIndexOf(s[..|s| - 1], c);
      assert r.Some? ==> s[r.value + 1..] == s[..|s| - 1][r.value + 1..] + [s[|s| - 1]];
      r
  }

  /** `s.split(c)`: the pieces between occurrences of `c`; never empty. */
  function Split(s: string, c: char): (r: seq<string>)
    ensures |r| >= 1
    ensures forall i :: 0 <= i < |r| ==> c !in r[i]
    decreases |s|
  {
    match IndexOf(s, c)
    case None => [s]
    case Some(i) => [s[..i]] + Split(s[i + 1..], c)
  }

  /** `sep.join(parts)`. */
  function Join(sep: string, parts: seq<string>): string
  {
    if |parts| == 0 then []
    else if |parts| == 1 then parts[0]
    else parts[0] + sep + Join(sep, parts[1..])
  }

  /** Splitting on a character and joining with it gives the original text back. */
  lemma {:induction false} JoinSplit(s: string, c: char)
    ensures Join([c], Split(s, c)) == s
    decreases |s|
  {
    match IndexOf(s, c)
    case None =>
    case Some(i) =>
      var rest := Split(s[i + 1..], c);
      JoinSplit(s[i + 1..], c);
      assert Split(s, c) == [s[..i]] + rest;
      assert s == s[..i] + [c] + s[i + 1..];
  }

  /** Appending one more part adds one separator and the part. */
  lemma {:induction false} JoinAppend(sep: string, parts: seq<string>, x: string)
    requires |parts| >= 1
    ensures Join(sep, parts + [x]) == Join(sep, parts) + sep + x
    decreases |parts|
  {
    if |parts| == 1 {
      assert parts + [x] == [parts[0], x];
    } else {
      assert (parts + [x])[1..] == parts[1..] + [x];
      JoinAppend(sep, parts[1..], x);
    }
  }

  /** The numeric value of a run of decimal digits (`int("042") == 42`). */
  function DigitsValue(d: string): nat
    requires AllDigits(d)
  {
    if |d| == 0 then 0 else DigitsValue(d[..|d| - 1]) * 10 + (d[|d| - 1] as int - '0' as int)
  }

  lemma NoDigitsCons(c: char, t: string)
    requires !IsDigit(c) && NoDigits(t)
    ensures NoDigits([c] + t)
  {
    assert forall i :: 0 < i < |[c] + t| ==> ([c] + t)[i] == t[i - 1];
  }

  /** The text from the first digit onwards. */
  function DropNonDigits(s: string): (r: string)
    ensures |r| <= |s| && r == s[|s| - |r|..]
    ensures NoDigits(s[..|s| - |r|])
    ensures r == [] || IsDigit(r[0])
  {
    if |s| > 0 && !IsDigit(s[0]) then
      var r := DropNonDigits(s[1..]);
      var skipped := s[1..][..|s| - 1 - |r|];
      assert s[..|s| - |r|] == [s[0]] + skipped;
      assert s[1..][|s| - 1 - |r|..] == s[|s| - |r|..];
      NoDigitsCons(s[0], skipped);
      r
    else s
  }

  /** The longest all-digit prefix. */
  function DigitPrefix(s: string): (r: string)
    ensures |r| <= |s| && r == s[..|r|]
    ensures AllDigits(r)
    ensures |r| == |s| || !IsDigit(s[|r|])
  {
    if |s| > 0 && IsDigit(s[0]) then [s[0]] + DigitPrefix(s[1..]) else []
  }

  /** `int(re.findall(r'\d+', s)[0])`, or None when `s` holds no digit. */
  function FirstDigitRun(s: string): (r: Option<nat>)
    ensures r.None? <==> NoDigits(s)
  {
    var t := DropNonDigits(s);
    if t == [] then None else Some(DigitsValue(DigitPrefix(t)))
  }

  lemma {:induction false} DigitPrefixOfRun(run: string, post: string)
    requires AllDigits(run)
    requires post == [] || !IsDigit(post[0])
    ensures DigitPrefix(run + post) == run
    decreases |run|
  {
    if |run| > 0 {
      assert (run + post)[1..] == run[1..] + post;
      DigitPrefixOfRun(run[1..], post);
      assert run == [run[0]] + run[1..];
    } else {
      assert run + post == post;
    }
  }

  lemma {:induction false} DropNonDigitsOfPrefix(pre: string, rest: string)
    requires NoDigits(pre)
    requires rest != [] && IsDigit(rest[0])
    ensures DropNonDigits(pre + rest) == rest
    decreases |pre|
  {
    if |pre| > 0 {
      assert (pre + rest)[1..] == pre[1..] + rest;
      DropNonDigitsOfPrefix(pre[1..], rest);
    } else {
      assert pre + rest == rest;
    }
  }

  /** The value read is exactly the first maximal run of digits. */
  lemma FirstDigitRunIsFirstRun(pre: string, run: string, post: string)
    requires NoDigits(pre)
    requires |run| > 0 && AllDigits(run)
    requires post == [] || !IsDigit(post[0])
    ensures FirstDigitRun(pre + run + post) == Some(DigitsValue(run))
  {
    var rest := run + post;
    assert rest[0] == run[0];
    assert pre + run + post == pre + rest;
    DropNonDigitsOfPrefix(pre, rest);
    DigitPrefixOfRun(run, post);
    assert DropNonDigits(pre + rest) == rest != [];
  }

  /** `[p.strip() for p in parts if p.strip()]`. */
  function StrippedNonEmpty(parts: seq<string>): (r: seq<string>)
    ensures |r| <= |parts|
    ensures forall i :: 0 <= i < |r| ==> r[i] != [] && Strip(r[i]) == r[i]
  {
    if |parts| == 0 then []
    else
      var p := Strip(parts[0]);
      var rest := StrippedNonEmpty(parts[1..]);
      if p == [] then rest
      else
        StripIdempotent(parts[0]);
        assert forall i :: 0 < i < |[p] + rest| ==> ([p] + rest)[i] == rest[i - 1];
        [p] + rest
  }

  /** Decimal rendering of a natural number, most significant digit first. */
  function NatToString(n: nat): (r: string)
    ensures |r| >= 1 && AllDigits(r)
  {
    if n < 10 then [('0' as int + n) as char]
    else NatToString(n / 10) + [('0' as int + n % 10) as char]
  }

  /** Reading back a rendered number gives the number. */
  lemma {:induction false} NatToStringRoundTrip(n: nat)
    ensures DigitsValue(NatToString(n)) == n
  {
    if n >= 10 {
      NatToStringRoundTrip(n / 10);
      var s := NatToString(n);
      assert s[..|s| - 1] == NatToString(n / 10);
    }
  }
}
