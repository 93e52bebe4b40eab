/** The Green Button header check of the CSV reader (`csvParser`): the first fourteen lines of
    an export must start with fixed words, and the first line that does not is reported. The
    CSV library that parses the rest of the file and the browser's file reader are not part of
    this model. */
module CsvHeaders {
  import opened Wrappers
  import opened Text

  /** The word each of the fourteen header lines of a usage export starts with. */
  const ExpectedHeaderPrefixes: seq<string> :=
    ["Name", "Address", "Account", "Disclaimer", "Title", "Resource", "Meter", "Interval",
     "Reading", "Reading", "Total", "Total", "UOM", "Meter"]

  /** `csvText.split("\n").slice(0, 14)`: the lines the check looks at. */
  function HeaderLines(csvText: string): (lines: seq<string>)
    ensures var all := Split(csvText, '\n');
            |lines| == (if |all| < 14 then |all| else 14) && lines == all[..|lines|]
  {
    var all := Split(csvText, '\n');
    if |all| < 14 then all else all[..14]
  }

  /** `line.split(",")[0].trim().split(" ")[0].trim()`: the first cell, trimmed, up to its first
      space. */
  function FirstWord(line: string): string {
    Trim(Split(Trim(Split(line, ',')[0]), ' ')[0])
  }

  /** Line `i` starts with the word expected there: `expected[i].trim()`. */
  predicate LineMatches(lines: seq<string>, expected: seq<string>, i: nat)
    requires i < |lines| && i < |expected|
  {
    FirstWord(lines[i]) == Trim(expected[i])
  }

  /** The first line that does not start with its expected word: the word expected, the word
      found, and the 1-based line number. */
  datatype Mismatch = Mismatch(expected: string, found: string, line: nat)

  /** `errorMessage` for a mismatch. */
  function MismatchMessage(m: Mismatch): string {
    "The CSV file does not match the expected Green Button format. Expected \"" + m.expected
    + "\" but found \"" + m.found + "\" at line " + NatToString(m.line) + "."
  }

  /** The first mismatching line among `lines[i..]` that has an expected word, if any. */
  function FirstMismatchFrom(lines: seq<string>, expected: seq<string>, i: nat): (r: Option<Mismatch>)
    requires i <= |lines|
    ensures r.Some? ==> i < r.value.line <= |lines| && r.value.line <= |expected|
    decreases |lines| - i
  {
    if i == |lines| || i >= |expected| then None
    else if !LineMatches(lines, expected, i) then Some(Mismatch(Trim(expected[i]), FirstWord(lines[i]), i + 1))
    else FirstMismatchFrom(lines, expected, i + 1)
  }

  /** What the check reports for a text: the first mismatching header line, if any. */
  function FirstMismatch(csvText: string): Option<Mismatch> {
    FirstMismatchFrom(HeaderLines(csvText), ExpectedHeaderPrefixes, 0)
  }

  /** Every examined line starts with its expected word. */
  predicate AllMatch(lines: seq<string>, expected: seq<string>)
    requires |lines| <= |expected|
  {
    forall i :: 0 <= i < |lines| ==> LineMatches(lines, expected, i)
  }

  /** The search finds nothing exactly when every examined line matches, and what it finds is
      the first line that does not: the lines before it match, and the expected and found
      words it names differ. */
  lemma {:induction false} FirstMismatchSpec(lines: seq<string>, expected: seq<string>, i: nat)
    requires i <= |lines| <= |expected|
    requires forall j :: 0 <= j < i ==> LineMatches(lines, expected, j)
    ensures FirstMismatchFrom(lines, expected, i).None? <==> AllMatch(lines, expected)
    ensures FirstMismatchFrom(lines, expected, i).Some? ==>
              var m := FirstMismatchFrom(lines, expected, i).value;
              && m.expected == Trim(expected[m.line - 1])
              && m.found == FirstWord(lines[m.line - 1])
              && m.expected != m.found
              && forall j :: 0 <= j < m.line - 1 ==> LineMatches(lines, expected, j)
    decreases |lines| - i
  {
    if i < |lines| {
      if LineMatches(lines, expected, i) {
        FirstMismatchSpec(lines, expected, i + 1);
      } else {
        assert !AllMatch(lines, expected);
      }
    }
  }

  /** `{ isValid, errorMessage }`; the message is kept as the mismatch it describes (see
      `MismatchMessage`). */
  datatype Validation = Validation(isValid: bool, mismatch: Option<Mismatch>)

  /** `validateCsvHeaders`: walk the first fourteen lines and stop at the first whose first word
      is not the expected one. */
  method ValidateCsvHeaders(csvText: string) returns (v: Validation)
    ensures v.mismatch == FirstMismatch(csvText)
    ensures v.isValid <==> v.mismatch.None?
  {
    v := CheckLines(HeaderLines(csvText), ExpectedHeaderPrefixes);
  }

  /** The loop of `validateCsvHeaders` over the lines and the expected words: on the first line
      whose first word differs, record the mismatch and stop. */
  method CheckLines(lines: seq<string>, expected: seq<string>) returns (v: Validation)
    ensures v.mismatch == FirstMismatchFrom(lines, expected, 0)
    ensures v.isValid <==> v.mismatch.None?
  {
    var isValidFormat := true;
    var mismatch: Option<Mismatch> := None;
    var n := if |lines| < |expected| then |lines| else |expected|;
    var i := 0;
    while i < n
      invariant 0 <= i <= n
      invariant isValidFormat && mismatch.None?
      invariant FirstMismatchFrom(lines, expected, i) == FirstMismatchFrom(lines, expected, 0)
    {
      var expectedWord := Trim(expected[i]);
      var firstWord := FirstWord(lines[i]);
      if firstWord != expectedWord {
        isValidFormat := false;
        mismatch := Some(Mismatch(expectedWord, firstWord, i + 1));
        break;
      }
      i := i + 1;
    }
    v := Validation(isValidFormat, mismatch);
  }

  /** What `parseGreenButtonCsv` does with a text: reject it with the check's message, or hand
      it to the CSV library. */
  datatype CsvOutcome = Rejected(message: string) | HandedToParser(csvText: string)

  /** `parseGreenButtonCsv`: a text whose header check fails is rejected with the check's
      message before any parsing. */
  method ParseGreenButtonCsv(csvText: string) returns (r: CsvOutcome)
    ensures FirstMismatch(csvText).Some? ==> r == Rejected(MismatchMessage(FirstMismatch(csvText).value))
    ensures FirstMismatch(csvText).None? ==> r == HandedToParser(csvText)
  {
    var v := ValidateCsvHeaders(csvText);
    if !v.isValid {
      return Rejected(MismatchMessage(v.mismatch.value));
    }
    return HandedToParser(csvText);
  }

  /** Why `parseGreenButtonFile` refuses a file before reading it. */
  datatype FileRejection = NoFile | NotCsv

  function FileRejectionMessage(e: FileRejection): string {
    match e
    case NoFile => "No file provided"
    case NotCsv => "Please select a CSV file only. See instructions."
  }

  /** The checks `parseGreenButtonFile` makes before reading: a file must be given (its name is
      all that is looked at) and its name must end in `.csv`; None means the file is read. */
  function FileCheck(fileName: Option<string>): (r: Option<FileRejection>)
    ensures r == Some(NoFile) <==> fileName.None?
    ensures r == Some(NotCsv) <==> fileName.Some? && !EndsWith(fileName.value, ".csv")
    ensures r.None? <==> fileName.Some? && EndsWith(fileName.value, ".csv")
  {
    if fileName.None? then Some(NoFile)
    else if !EndsWith(fileName.value, ".csv") then Some(NotCsv)
    else None
  }

  // ---------------------------------------------------------------------------------------
  // properties

  /** A word with no whitespace and no comma. */
  predicate Plain(w: string) {
    forall i :: 0 <= i < |w| ==> !IsJsWhitespace(w[i]) && w[i] != ','
  }

  /** The first piece of a split is the text before the first separator. */
  lemma {:induction false} SplitHead(a: string, b: string, sep: char)
    requires sep !in a
    ensures Split(a + [sep] + b, sep)[0] == a
    decreases |a|
  {
    var s := a + [sep] + b;
    if a == [] {
      assert s[0] == sep && s[1..] == b;
    } else {
      assert s[0] == a[0] && s[1..] == a[1..] + [sep] + b;
      SplitHead(a[1..], b, sep);
      assert [a[0]] + a[1..] == a;
    }
  }

  lemma TrimPlain(w: string)
    requires Plain(w)
    ensures Trim(w) == w
  {
  }

  /** A line whose first cell is a plain word yields that word, whatever follows the comma; so
      does a line holding just the word. */
  lemma FirstWordOfCell(w: string, rest: string)
    requires Plain(w)
    ensures FirstWord(w + "," + rest) == w
    ensures FirstWord(w) == w
  {
    assert ',' !in w by {
      forall i | 0 <= i < |w| ensures w[i] != ',' { }
    }
    assert ' ' !in w by {
      forall i | 0 <= i < |w| ensures w[i] != ' ' { assert !IsJsWhitespace(w[i]); }
    }
    SplitHead(w, rest, ',');
    SplitNoSep(w, ',');
    TrimPlain(w);
    SplitNoSep(w, ' ');
  }

  /** The expected words carry no whitespace, so trimming them changes nothing. */
  lemma ExpectedWordsPlain()
    ensures forall i :: 0 <= i < |ExpectedHeaderPrefixes| ==> Plain(ExpectedHeaderPrefixes[i])
    ensures forall i :: 0 <= i < |ExpectedHeaderPrefixes| ==> Trim(ExpectedHeaderPrefixes[i]) == ExpectedHeaderPrefixes[i]
  {
    forall i | 0 <= i < |ExpectedHeaderPrefixes| ensures Plain(ExpectedHeaderPrefixes[i]) { }
    forall i | 0 <= i < |ExpectedHeaderPrefixes| ensures Trim(ExpectedHeaderPrefixes[i]) == ExpectedHeaderPrefixes[i] {
      TrimPlain(ExpectedHeaderPrefixes[i]);
    }
  }

  /** A text of fewer than fourteen lines each of which starts with the expected word, followed
      by a comma and any cells, passes the check: the missing lines are not asked for. */
  lemma {:induction false} ShortHeaderAccepted(csvText: string, cells: seq<string>)
    requires |Split(csvText, '\n')| < 14
    requires |cells| == |Split(csvText, '\n')|
    requires forall i :: 0 <= i < |cells| ==> Split(csvText, '\n')[i] == ExpectedHeaderPrefixes[i] + "," + cells[i]
    ensures FirstMismatch(csvText).None?
  {
    var lines := HeaderLines(csvText);
    ExpectedWordsPlain();
    forall i | 0 <= i < |lines| ensures LineMatches(lines, ExpectedHeaderPrefixes, i) {
      FirstWordOfCell(ExpectedHeaderPrefixes[i], cells[i]);
    }
    FirstMismatchSpec(lines, ExpectedHeaderPrefixes, 0);
  }

  /** Only the first fourteen lines count: texts that agree on them get the same verdict. */
  lemma OnlyHeaderLinesCount(a: string, b: string)
    requires |Split(a, '\n')| >= 14 && |Split(b, '\n')| >= 14
    requires Split(a, '\n')[..14] == Split(b, '\n')[..14]
    ensures FirstMismatch(a) == FirstMismatch(b)
  {
  }

  /** An empty text is refused at line 1: its only line has the empty word where `Name` is
      expected. */
  lemma EmptyTextRejected()
    ensures FirstMismatch("") == Some(Mismatch("Name", "", 1))
  {
    assert HeaderLines("") == [""];
    assert FirstWord("") == "";
    ExpectedWordsPlain();
  }
}
