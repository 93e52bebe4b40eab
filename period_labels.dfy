/** The readable labels the time-of-use calculation reports for a period key: `onPeak`
    becomes `On Peak`. */
module PeriodLabels {

  predicate IsAsciiUpper(c: char) { 'A' <= c <= 'Z' }
  predicate IsAsciiLower(c: char) { 'a' <= c <= 'z' }

  function ToUpper(c: char): char {
    if IsAsciiLower(c) then (c as int - 32) as char else c
  }

  function ToLower(c: char): char {
    if IsAsciiUpper(c) then (c as int + 32) as char else c
  }

  /** `s.replace(/([A-Z])/g, ' $1')`: a space before every capital letter. */
  function SpaceBeforeCapitals(s: string): string
    decreases |s|
  {
    if s == [] then []
    else (if IsAsciiUpper(s[0]) then [' ', s[0]] else [s[0]]) + SpaceBeforeCapitals(s[1..])
  }

  /** `s.replace(/^./, c => c.toUpperCase())`; `.` does not match a line terminator. */
  function CapitalizeFirst(s: string): string {
    if s == [] || s[0] in "\n\r\U{2028}\U{2029}" then s else [ToUpper(s[0])] + s[1..]
  }

  /** The human-readable form of a period key: `onPeak` becomes `On Peak`. */
  function PeriodLabel(period: string): string {
    CapitalizeFirst(SpaceBeforeCapitals(period))
  }

  function RemoveSpaces(s: string): string
    decreases |s|
  {
    if s == [] then [] else (if s[0] == ' ' then [] else [s[0]]) + RemoveSpaces(s[1..])
  }

  /** A camel-case period key: starts with a lower-case letter and has no spaces. */
  predicate IsCamelKey(s: string) {
    s != [] && IsAsciiLower(s[0]) && ' ' !in s
  }

  /** The label's inverse: lower the first letter and drop the spaces. */
  function UnLabel(text: string): string {
    RemoveSpaces(if text == [] then [] else [ToLower(text[0])] + text[1..])
  }

  lemma {:induction false} RemoveSpacesOfSpaced(s: string)
    requires ' ' !in s
    ensures RemoveSpaces(SpaceBeforeCapitals(s)) == s
    decreases |s|
  {
    if s != [] {
      RemoveSpacesOfSpaced(s[1..]);
      var head := if IsAsciiUpper(s[0]) then [' ', s[0]] else [s[0]];
      RemoveSpacesAppend(head, SpaceBeforeCapitals(s[1..]));
      assert [s[0]] + s[1..] == s;
    }
  }

  lemma {:induction false} RemoveSpacesAppend(a: string, b: string)
    ensures RemoveSpaces(a + b) == RemoveSpaces(a) + RemoveSpaces(b)
    decreases |a|
  {
    if a == [] {
      assert a + b == b;
    } else {
      assert (a + b)[0] == a[0];
      assert (a + b)[1..] == a[1..] + b;
      RemoveSpacesAppend(a[1..], b);
    }
  }

  /** Labels lose nothing: a camel-case key is recovered from its label, so two distinct
      period keys never share a label. */
  lemma {:induction false} PeriodLabelRoundTrip(period: string)
    requires IsCamelKey(period)
    ensures UnLabel(PeriodLabel(period)) == period
  {
    var spaced := SpaceBeforeCapitals(period);
    assert spaced[0] == period[0];
    assert PeriodLabel(period) == [ToUpper(period[0])] + spaced[1..];
    assert [ToLower(ToUpper(period[0]))] + spaced[1..] == spaced;
    RemoveSpacesOfSpaced(period);
  }

  lemma {:induction false} SpaceBeforeCapitalsAppend(a: string, b: string)
    ensures SpaceBeforeCapitals(a + b) == SpaceBeforeCapitals(a) + SpaceBeforeCapitals(b)
    decreases |a|
  {
    if a == [] {
      assert a + b == b;
    } else {
      assert (a + b)[0] == a[0];
      assert (a + b)[1..] == a[1..] + b;
      SpaceBeforeCapitalsAppend(a[1..], b);
    }
  }

  /** A word with no capital letter is left as it is. */
  lemma {:induction false} SpaceBeforeCapitalsLower(s: string)
    requires forall i :: 0 <= i < |s| ==> !IsAsciiUpper(s[i])
    ensures SpaceBeforeCapitals(s) == s
    decreases |s|
  {
    if s != [] {
      SpaceBeforeCapitalsLower(s[1..]);
      assert [s[0]] + s[1..] == s;
    }
  }

  /** A capitalised word gains one leading space. */
  lemma SpaceBeforeCapitalsWord(s: string)
    requires s != [] && IsAsciiUpper(s[0])
    requires forall i :: 1 <= i < |s| ==> !IsAsciiUpper(s[i])
    ensures SpaceBeforeCapitals(s) == [' '] + s
  {
    SpaceBeforeCapitalsLower(s[1..]);
    assert [' ', s[0]] + s[1..] == [' '] + s;
  }

  lemma OnPeakLabel()
    ensures PeriodLabel("onPeak") == "On Peak"
  {
    assert SpaceBeforeCapitals("onPeak") == "on Peak";
  }

  lemma OffPeakLabel()
    ensures PeriodLabel("offPeak") == "Off Peak"
  {
    assert SpaceBeforeCapitals("offPeak") == "off Peak";
  }

  /** A key of a lower-case word followed by capitalised words gets a space before each of
      those words and a capital first letter. */
  lemma {:induction false} ThreeWordLabel(first: string, second: string, third: string)
    requires first != [] && IsAsciiLower(first[0])
    requires forall i :: 0 <= i < |first| ==> !IsAsciiUpper(first[i])
    requires second != [] && IsAsciiUpper(second[0]) && forall i :: 1 <= i < |second| ==> !IsAsciiUpper(second[i])
    requires third != [] && IsAsciiUpper(third[0]) && forall i :: 1 <= i < |third| ==> !IsAsciiUpper(third[i])
    ensures PeriodLabel(first + second + third) == [ToUpper(first[0])] + first[1..] + " " + second + " " + third
  {
    SpaceBeforeCapitalsLower(first);
    SpaceBeforeCapitalsWord(second);
    SpaceBeforeCapitalsWord(third);
    SpaceBeforeCapitalsAppend(first + second, third);
    SpaceBeforeCapitalsAppend(first, second);
    var spaced := first + " " + second + " " + third;
    assert SpaceBeforeCapitals(first + second + third) == spaced;
    assert spaced[0] == first[0] && spaced[1..] == first[1..] + " " + second + " " + third;
  }

  lemma SuperOffPeakLabel(key: string)
    requires key == "superOffPeak"
    ensures PeriodLabel(key) == "Super Off Peak"
  {
    ThreeWordLabel("super", "Off", "Peak");
    assert "super" + "Off" + "Peak" == key;
  }
}
