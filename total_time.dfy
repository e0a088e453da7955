/** Extraction of the total cooking time from the instructions text the
    model returns (cooking_planner.py:482-490): the search for
    `\*\*Total time\*\*: (.*?)(?:\r|\n|$)` followed by `strip()`. */
module TotalTime {
  import opened Base
  import opened Text

  /** The marker the regular expression looks for, trailing space included. */
  const Marker: string := "**Total time**: "

  /** The value stored when the marker is absent. */
  const Unknown: string := "Unknown"

  predicate IsLineBreak(c: char)
  {
    c == '\r' || c == '\n'
  }

  /** What the lazy group `(.*?)` captures before `(?:\r|\n|$)`: the text up
      to the first carriage return or line feed, or all of it. */
  function LineValue(s: string): (r: string)
    ensures |r| <= |s| && r == s[..|r|]
    ensures forall i :: 0 <= i < |r| ==> !IsLineBreak(r[i])
    ensures |r| < |s| ==> IsLineBreak(s[|r|])
    decreases |s|
  {
    if s == [] || IsLineBreak(s[0]) then [] else [s[0]] + LineValue(s[1..])
  }

  /** The total time recorded for a set of cooking instructions: the
      stripped rest of the line after the first marker, or `Unknown`. */
  function ExtractTotalTime(text: string): (r: string)
    ensures IndexOf(text, Marker).None? ==> r == Unknown
    ensures r != [] ==> !IsSpace(r[0]) && !IsSpace(r[|r| - 1])
  {
    match IndexOf(text, Marker)
    case None => Unknown
    case Some(i) => Strip(LineValue(text[i + |Marker|..]))
  }

  /** The total time never spans a line break. */
  lemma ExtractHasNoLineBreak(text: string)
    ensures forall i :: 0 <= i < |ExtractTotalTime(text)| ==> !IsLineBreak(ExtractTotalTime(text)[i])
  {
    if IndexOf(text, Marker).Some? {
      StripSlice(LineValue(text[IndexOf(text, Marker).value + |Marker|..]));
    }
  }

  /** When the marker occurs, the result is exactly the stripped text that
      follows its first occurrence up to the end of that line. */
  lemma ExtractAfterFirstMarker(text: string, i: nat)
    requires OccursAt(text, Marker, i)
    requires forall j :: 0 <= j < i ==> !OccursAt(text, Marker, j)
    ensures ExtractTotalTime(text) == Strip(LineValue(text[i + |Marker|..]))
  {
    var found := IndexOf(text, Marker);
    assert found.Some? && found.value == i;
  }

  /** The line value of a line that is followed by a line break. */
  lemma {:induction false} LineValueOfLine(line: string, rest: string)
    requires forall i :: 0 <= i < |line| ==> !IsLineBreak(line[i])
    ensures LineValue(line + "\n" + rest) == line
    decreases |line|
  {
    if line != [] {
      LineValueOfLine(line[1..], rest);
      assert (line + "\n" + rest)[1..] == line[1..] + "\n" + rest;
    }
  }

  /** Instructions that begin with the marker line yield its value: the
      model's answer in the requested format carries its total time into
      the stored record. */
  lemma ExtractFromLeadingMarkerLine(value: string, rest: string)
    requires forall i :: 0 <= i < |value| ==> !IsLineBreak(value[i])
    requires value != [] ==> !IsSpace(value[0]) && !IsSpace(value[|value| - 1])
    ensures ExtractTotalTime(Marker + value + "\n" + rest) == value
  {
    var tail := value + "\n" + rest;
    var text := Marker + tail;
    assert text == Marker + value + "\n" + rest;
    assert text[..|Marker|] == Marker && text[|Marker|..] == tail;
    ExtractAfterFirstMarker(text, 0);
    LineValueOfLine(value, rest);
    StripUnchanged(value);
  }

  /** The worked example: a reply opening with
      `**Total time**: 3 hours 15 minutes` is recorded as `3 hours 15 minutes`. */
  lemma ExtractExample()
    ensures ExtractTotalTime("**Total time**: 3 hours 15 minutes\n**Steps**\n- ...")
      == "3 hours 15 minutes"
  {
    var value := "3 hours 15 minutes";
    assert "**Total time**: 3 hours 15 minutes\n**Steps**\n- ..."
      == Marker + value + "\n" + "**Steps**\n- ...";
    ExtractFromLeadingMarkerLine(value, "**Steps**\n- ...");
  }
}
