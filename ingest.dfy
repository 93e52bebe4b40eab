/** Reading the rows of a Green Button usage export: which rows survive, how their date and time
    are put together for the date library, and the month and day keys derived from the parsed
    instant. Both calculators use this step. The numeric parse (`parseFloat`) and the date-library
    parse are parameters: `parseNumber` answers None where `parseFloat` gives NaN, and
    `parseDateTime` answers None where the parsed date is not valid. */
module Ingest {
  import opened Wrappers
  import opened Text

  /** One CSV row as the CSV library hands it over: column name to cell text. */
  type RawRow = map<string, string>

  /** The calendar fields the calculators read from a parsed instant: `getFullYear`,
      `getMonth` (0-based), `getDate`, `getHours`, `getDay` (0 = Sunday). */
  datatype DateTime = DateTime(year: nat, month: nat, day: nat, hour: nat, weekday: nat)

  /** A row that passed the filter, with its parsed instant and consumption. */
  datatype ParsedRow = ParsedRow(raw: RawRow, datetime: DateTime, consumption: real)

  /** `row[name]` where it is truthy: the cell is present and not empty. */
  function Cell(row: RawRow, name: string): (r: Option<string>)
    ensures r.Some? <==> name in row && row[name] != ""
    ensures r.Some? ==> r.value == row[name]
  {
    if name in row && row[name] != "" then Some(row[name]) else None
  }

  /** `String(x).padStart(2, "0")`. */
  function PadStart2(s: string): (r: string)
    ensures |s| >= 2 ==> r == s
    ensures |s| < 2 ==> |r| == 2 && r[2 - |s|..] == s && forall i :: 0 <= i < 2 - |s| ==> r[i] == '0'
  {
    if |s| >= 2 then s else seq(2 - |s|, _ => '0') + s
  }

  /** The i-th piece of a destructured split; a missing piece is `undefined`, which prints as
      the word itself in a template string. */
  function PieceOr(pieces: seq<string>, i: nat): string {
    if i < |pieces| then pieces[i] else "undefined"
  }

  /** The string `parseAndAdjustDate` hands to the date library: the `M/D/YYYY` date turned
      into `YYYY-MM-DD`, a space, then the time as given. */
  function CombinedDateString(dateStr: string, timeStr: string): string {
    var pieces := Split(dateStr, '/');
    PieceOr(pieces, 2) + "-" + PadStart2(PieceOr(pieces, 0)) + "-" + PadStart2(PieceOr(pieces, 1)) + " " + timeStr
  }

  /** A well-formed `M/D/YYYY` date is rearranged to `YYYY-MM-DD`, month and day padded to two
      digits. */
  lemma {:induction false} CombinedDateOfSlashDate(m: string, d: string, y: string, timeStr: string)
    requires '/' !in m && '/' !in d && '/' !in y
    ensures CombinedDateString(Join([m, d, y], '/'), timeStr)
            == y + "-" + PadStart2(m) + "-" + PadStart2(d) + " " + timeStr
  {
    SplitJoin([m, d, y], '/');
  }

  /** `parseAndAdjustDate`: the instant the date library reads from the combined string, or
      null (None) where it cannot. */
  function ParseAndAdjustDate(dateStr: string, timeStr: string,
                              parseDateTime: string -> Option<DateTime>): Option<DateTime>
  {
    parseDateTime(CombinedDateString(dateStr, timeStr))
  }

  /** The per-row step of the `map` in `processData`: the row is skipped (None) when its date
      or time cell is missing or empty, its consumption is not a number, or its date does not
      parse. Negative consumption is kept. */
  function ParseRow(row: RawRow, parseNumber: string -> Option<real>,
                    parseDateTime: string -> Option<DateTime>): Option<ParsedRow>
  {
    var dateStr := Cell(row, "Date");
    var timeStr := Cell(row, "Start Time");
    var consumption := if "Consumption" in row then parseNumber(row["Consumption"]) else None;
    if dateStr.None? || timeStr.None? || consumption.None? then None
    else
      var dt := ParseAndAdjustDate(dateStr.value, timeStr.value, parseDateTime);
      if dt.None? then None
      else Some(ParsedRow(row, dt.value, consumption.value))
  }

  /** When a row survives: exactly when both cells are non-empty and both parses succeed. */
  lemma RowSurvival(row: RawRow, parseNumber: string -> Option<real>,
                    parseDateTime: string -> Option<DateTime>)
    ensures ParseRow(row, parseNumber, parseDateTime).Some? <==>
              && "Date" in row && row["Date"] != ""
              && "Start Time" in row && row["Start Time"] != ""
              && "Consumption" in row && parseNumber(row["Consumption"]).Some?
              && parseDateTime(CombinedDateString(row["Date"], row["Start Time"])).Some?
    ensures ParseRow(row, parseNumber, parseDateTime).Some? ==>
              var p := ParseRow(row, parseNumber, parseDateTime).value;
              && p.raw == row
              && Some(p.consumption) == parseNumber(row["Consumption"])
              && Some(p.datetime) == parseDateTime(CombinedDateString(row["Date"], row["Start Time"]))
  {
  }

  /** `rawData.map(...).filter(row => row !== null)`. */
  function ParseRows(rows: seq<RawRow>, parseNumber: string -> Option<real>,
                     parseDateTime: string -> Option<DateTime>): (r: seq<ParsedRow>)
    ensures |r| <= |rows|
    decreases |rows|
  {
    if rows == [] then []
    else
      var rest := ParseRows(rows[1..], parseNumber, parseDateTime);
      match ParseRow(rows[0], parseNumber, parseDateTime)
      case Some(p) => [p] + rest
      case None => rest
  }

  /** The filter keeps input order: the surviving rows of a concatenation are the surviving
      rows of each part, in turn. */
  lemma {:induction false} ParseRowsAppend(a: seq<RawRow>, b: seq<RawRow>, parseNumber: string -> Option<real>,
                                           parseDateTime: string -> Option<DateTime>)
    ensures ParseRows(a + b, parseNumber, parseDateTime)
            == ParseRows(a, parseNumber, parseDateTime) + ParseRows(b, parseNumber, parseDateTime)
    decreases |a|
  {
    if a == [] {
      assert a + b == b;
    } else {
      assert (a + b)[0] == a[0];
      assert (a + b)[1..] == a[1..] + b;
      ParseRowsAppend(a[1..], b, parseNumber, parseDateTime);
    }
  }

  /** Every surviving row comes from an input row that passes the per-row step, and every
      input row that passes it survives. */
  lemma {:induction false} ParseRowsMembers(rows: seq<RawRow>, parseNumber: string -> Option<real>,
                                            parseDateTime: string -> Option<DateTime>)
    ensures forall p :: p in ParseRows(rows, parseNumber, parseDateTime) <==>
              exists i :: 0 <= i < |rows| && ParseRow(rows[i], parseNumber, parseDateTime) == Some(p)
    decreases |rows|
  {
    if rows != [] {
      ParseRowsMembers(rows[1..], parseNumber, parseDateTime);
      forall p ensures p in ParseRows(rows, parseNumber, parseDateTime) <==>
                       exists i :: 0 <= i < |rows| && ParseRow(rows[i], parseNumber, parseDateTime) == Some(p)
      {
        if exists i :: 0 <= i < |rows| && ParseRow(rows[i], parseNumber, parseDateTime) == Some(p) {
          var i :| 0 <= i < |rows| && ParseRow(rows[i], parseNumber, parseDateTime) == Some(p);
          if i > 0 { assert rows[1..][i - 1] == rows[i]; }
        }
        if p in ParseRows(rows[1..], parseNumber, parseDateTime) {
          var i :| 0 <= i < |rows[1..]| && ParseRow(rows[1..][i], parseNumber, parseDateTime) == Some(p);
          assert rows[i + 1] == rows[1..][i];
        }
      }
    }
  }

  /** `format(dateTime, "yyyy-MM")`. */
  function MonthKey(dt: DateTime): string {
    PadNat(dt.year, 4) + "-" + PadNat(dt.month + 1, 2)
  }

  /** `format(dateTime, "yyyy-MM-dd")`. */
  function DateKey(dt: DateTime): string {
    MonthKey(dt) + "-" + PadNat(dt.day, 2)
  }

  /** A day's key starts with its month's key, so instants in different months never share a
      date key: the days group inside the months. */
  lemma DateKeyWithinMonth(a: DateTime, b: DateTime)
    requires DateKey(a) == DateKey(b)
    ensures MonthKey(a) == MonthKey(b)
  {
    PadNatDigits(a.year, 4);
    PadNatDigits(b.year, 4);
    PadNatDigits(a.month + 1, 2);
    PadNatDigits(b.month + 1, 2);
    DashedKeyPrefix(PadNat(a.year, 4), PadNat(a.month + 1, 2), PadNat(a.day, 2),
                    PadNat(b.year, 4), PadNat(b.month + 1, 2), PadNat(b.day, 2));
  }

  lemma DashedKeyPrefix(ya: string, ma: string, da: string, yb: string, mb: string, db: string)
    requires AllDigits(ya) && AllDigits(ma) && AllDigits(yb) && AllDigits(mb)
    requires ya + "-" + ma + "-" + da == yb + "-" + mb + "-" + db
    ensures ya == yb && ma == mb
  {
    assert ya + "-" + ma + "-" + da == ya + ("-" + (ma + ("-" + da)));
    assert yb + "-" + mb + "-" + db == yb + ("-" + (mb + ("-" + db)));
    DigitsThenDash(ya, yb, "-" + (ma + ("-" + da)), "-" + (mb + ("-" + db)));
    assert ma + ("-" + da) == ("-" + (ma + ("-" + da)))[1..];
    assert mb + ("-" + db) == ("-" + (mb + ("-" + db)))[1..];
    DigitsThenDash(ma, mb, "-" + da, "-" + db);
  }

  predicate AllDigits(s: string) {
    forall i :: 0 <= i < |s| ==> '0' <= s[i] <= '9'
  }

  lemma PadNatDigits(n: nat, width: nat)
    ensures AllDigits(PadNat(n, width))
  {
  }

  /** The position of the first dash, or the length when there is none. */
  function DashIndex(s: string): (r: nat)
    ensures r <= |s|
    decreases |s|
  {
    if s == [] || s[0] == '-' then 0 else 1 + DashIndex(s[1..])
  }

  lemma {:induction false} DashIndexAfterDigits(p: string, a: string)
    requires AllDigits(p) && a != [] && a[0] == '-'
    ensures DashIndex(p + a) == |p|
    decreases |p|
  {
    if p == [] {
      assert p + a == a;
    } else {
      assert (p + a)[0] == p[0];
      assert (p + a)[1..] == p[1..] + a;
      DashIndexAfterDigits(p[1..], a);
    }
  }

  /** Two digit strings each followed by a dash-led remainder are split identically. */
  lemma DigitsThenDash(p: string, q: string, a: string, b: string)
    requires AllDigits(p) && AllDigits(q)
    requires a != [] && a[0] == '-' && b != [] && b[0] == '-'
    requires p + a == q + b
    ensures p == q && a == b
  {
    DashIndexAfterDigits(p, a);
    DashIndexAfterDigits(q, b);
    assert p == (p + a)[..|p|] && q == (q + b)[..|q|];
    assert a == (p + a)[|p|..] && b == (q + b)[|q|..];
  }
}
