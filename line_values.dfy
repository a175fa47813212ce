// Reading the value of a "Label: value" line of an AI reply, as the job and
// resume parsers do: the text after the first colon, stripped, with one
// enclosing pair of square brackets removed.
module LineValues {
  import opened Common
  import opened Strings

  const NotProvided: string := "Not Provided"

  /** `line.split(':', 1)[1]`, or None when the line has no colon. */
  function AfterColon(line: string): (r: Option<string>)
    ensures r.None? <==> ':' !in line
    ensures r.Some? ==> |r.value| < |line| && r.value == line[|line| - |r.value|..]
    ensures r.Some? ==> line[|line| - |r.value| - 1] == ':' && ':' !in line[..|line| - |r.value| - 1]
  {
    match IndexOf(line, ':')
    case None => None
    case Some(i) => Some(line[i + 1..])
  }

  /** The colon after a colon-free key is the first one. */
  lemma AfterColonOfKey(key: string, rest: string)
    requires ':' !in key
    ensures AfterColon(key + ":" + rest) == Some(rest)
  {
    var line := key + ":" + rest;
    assert line[..|key|] == key;
    assert line[|key|] == ':';
    assert line[|key| + 1..] == rest;
  }

  predicate Bracketed(v: string) { |v| >= 2 && v[0] == '[' && v[|v| - 1] == ']' }

  /** The stripped text, with one enclosing `[` `]` pair removed and the inside re-stripped. */
  function Unbracketed(rest: string): string {
    var v := Strip(rest);
    if Bracketed(v) then Strip(v[1..|v| - 1]) else v
  }

  predicate Trimmed(v: string) { v != [] && !IsSpace(v[0]) && !IsSpace(v[|v| - 1]) }

  /** `_extract_value_after_colon` of the job parser: "Not Provided" is matched case-insensitively. */
  function ExtractJobValue(line: string): (r: string)
    ensures r != []
    ensures ':' !in line ==> r == NotProvided
    ensures r == NotProvided || Lower(r) != Lower(NotProvided)
  {
    match AfterColon(line)
    case None => NotProvided
    case Some(rest) =>
      var v := Unbracketed(rest);
      if v != [] && Lower(v) != Lower(NotProvided) then v else NotProvided
  }

  /** `_extract_value_after_colon` of the resume parser: "Not Provided" is matched exactly. */
  function ExtractResumeValue(line: string): (r: string)
    ensures r != []
    ensures ':' !in line ==> r == NotProvided
  {
    match AfterColon(line)
    case None => NotProvided
    case Some(rest) =>
      var v := Unbracketed(rest);
      if v != [] && v != NotProvided then v else NotProvided
  }

  /** The value written after a key, past any padding, is what gets read back. */
  lemma UnbracketedOfField(key: string, ws: string, v: string)
    requires ':' !in key && AllSpace(ws) && Trimmed(v) && !Bracketed(v)
    ensures AfterColon(key + ":" + ws + v) == Some(ws + v)
    ensures Unbracketed(ws + v) == v
  {
    assert key + ":" + ws + v == key + ":" + (ws + v);
    AfterColonOfKey(key, ws + v);
    StripPadded(ws, v);
  }

  lemma UnbracketedOfBrackets(ws: string, v: string)
    requires AllSpace(ws) && Trimmed(v)
    ensures Unbracketed(ws + "[" + v + "]") == v
  {
    var b := "[" + v + "]";
    assert ws + "[" + v + "]" == ws + b;
    StripPadded(ws, b);
    assert Bracketed(b);
    assert b[1..|b| - 1] == v;
    StripOfStripped(v);
  }

  /** A value written in brackets is read back without them. */
  lemma UnbracketedOfBracketedField(key: string, ws: string, v: string)
    requires ':' !in key && AllSpace(ws) && Trimmed(v)
    ensures AfterColon(key + ":" + ws + "[" + v + "]") == Some(ws + "[" + v + "]")
    ensures Unbracketed(ws + "[" + v + "]") == v
  {
    var rest := ws + "[" + v + "]";
    assert key + ":" + ws + "[" + v + "]" == key + ":" + rest;
    AfterColonOfKey(key, rest);
    UnbracketedOfBrackets(ws, v);
  }

  /** Round trip for the resume parser: a written field value is read back unchanged. */
  lemma ResumeValueRoundTrip(key: string, ws: string, v: string)
    requires ':' !in key && AllSpace(ws) && Trimmed(v) && !Bracketed(v)
    ensures ExtractResumeValue(key + ":" + ws + v) == v
  {
    UnbracketedOfField(key, ws, v);
  }

  /** Round trip for the job parser; a spelling of "not provided" reads as the placeholder. */
  lemma JobValueRoundTrip(key: string, ws: string, v: string)
    requires ':' !in key && AllSpace(ws) && Trimmed(v) && !Bracketed(v)
    ensures ExtractJobValue(key + ":" + ws + v) == if Lower(v) == Lower(NotProvided) then NotProvided else v
  {
    UnbracketedOfField(key, ws, v);
  }

  /** The brackets of a placeholder such as `[Extract the title]` are removed for both parsers. */
  lemma BracketedValueRoundTrip(key: string, ws: string, v: string)
    requires ':' !in key && AllSpace(ws) && Trimmed(v)
    ensures ExtractResumeValue(key + ":" + ws + "[" + v + "]") == v
    ensures ExtractJobValue(key + ":" + ws + "[" + v + "]") == if Lower(v) == Lower(NotProvided) then NotProvided else v
  {
    var line := key + ":" + ws + "[" + v + "]";
    UnbracketedOfBracketedField(key, ws, v);
    assert AfterColon(line) == Some(ws + "[" + v + "]");
    ResumeValueOfRest(line, ws + "[" + v + "]", v);
    JobValueOfRest(line, ws + "[" + v + "]", v);
  }

  lemma ResumeValueOfRest(line: string, rest: string, v: string)
    requires AfterColon(line) == Some(rest) && Unbracketed(rest) == v && v != []
    ensures ExtractResumeValue(line) == v
  {
  }

  lemma JobValueOfRest(line: string, rest: string, v: string)
    requires AfterColon(line) == Some(rest) && Unbracketed(rest) == v && v != []
    ensures ExtractJobValue(line) == if Lower(v) == Lower(NotProvided) then NotProvided else v
  {
  }

  lemma LowerKeepsNoDigits(s: string)
    requires NoDigits(s)
    ensures NoDigits(Lower(s))
  {
    var l := Lower(s);
    forall i | 0 <= i < |l|
      ensures !IsDigit(l[i])
    {
      assert l[i] == LowerChar(s[i]);
    }
  }

  lemma PlaceholderHasNoDigit()
    ensures NoDigits(Lower(NotProvided))
  {
    assert NoDigits(NotProvided);
    LowerKeepsNoDigits(NotProvided);
  }

  /** A value holding a digit is never a spelling of the placeholder. */
  lemma DigitsAreNotPlaceholder(v: string)
    requires !NoDigits(v)
    ensures Lower(v) != Lower(NotProvided)
  {
    var k :| 0 <= k < |v| && IsDigit(v[k]);
    assert Lower(v)[k] == v[k];
    PlaceholderHasNoDigit();
  }

  /** `value.lower() in [...]` for a fixed list of lower-case words. */
  predicate LowerIn(v: string, words: seq<string>) { Lower(v) in words }
}
