/**
 * The CSV route loader: the file is read line by line into track points, grouped by
 * date, sorted and numbered within each date, and every date becomes a route. The
 * store keeps the parsed points by date and the routes in the order they were created.
 */
module DataModule {
  import opened Wrappers
  import opened Text
  import opened JsNumbers
  import opened DateTimes
  import Sorting

  // ---- records ----

  /** The instant kept with a point: none, an invalid `Date` (a `NaN` field), or a date and time. */
  datatype Stamp = NoStamp | InvalidDate | At(dt: DateTime)

  /** `{ latitude, longitude, time, datetime, observation, originalIndex, number }`; `number` is 0 until numbered. */
  datatype TrackPoint = TrackPoint(latitude: real, longitude: real, time: string, datetime: Stamp,
                                   observation: string, originalIndex: Option<int>, number: nat)

  /** One entry of `pointsByDate`, in the order the dates first appear. */
  datatype DateGroup = DateGroup(date: string, points: seq<TrackPoint>)

  datatype Route = Route(id: string, date: string, fileName: string, color: string, points: seq<TrackPoint>, visible: bool)

  /** The sort key `a.datetime - b.datetime` compares: `None` (NaN) unless there is a valid date. */
  function StampKey(p: TrackPoint): Option<int>
  {
    if p.datetime.At? then Some(Timestamp(p.datetime.dt)) else None
  }

  /** The palette `getRandomColor` draws from. */
  const RANDOM_COLORS: seq<string> := ["#3388FF", "#33A02C", "#FB9A99", "#E31A1C", "#FF7F00", "#6A3D9A", "#CAB2D6",
    "#FFFF99", "#B15928", "#1F78B4", "#FF5733", "#C70039", "#900C3F", "#581845", "#FFC300"]

  // ---- delimiter and lines ----

  function Min(a: int, b: int): int { if a < b then a else b }

  /** The first five `\n`-separated lines, joined again. */
  function SampleLines(content: string): string
  {
    var lines := Split(content, '\n');
    Join(lines[..Min(5, |lines|)], '\n')
  }

  /** `detectDelimiter`: `;` when the sample holds a semicolon, `,` otherwise. */
  function DetectDelimiter(content: string): char
  {
    if ';' in SampleLines(content) then ';' else ','
  }

  /** A character other than the separator occurs in a join exactly when it occurs in one of the parts. */
  lemma {:induction false} CharInJoin(parts: seq<string>, sep: char, c: char)
    requires c != sep
    ensures c in Join(parts, sep) <==> exists i :: 0 <= i < |parts| && c in parts[i]
  {
    if |parts| > 1 {
      CharInJoin(parts[1..], sep, c);
      var j := Join(parts, sep);
      assert j == parts[0] + ([sep] + Join(parts[1..], sep));
      if c in j && c !in parts[0] {
        assert c in Join(parts[1..], sep);
      }
      if exists i :: 0 <= i < |parts| && c in parts[i] {
        var i :| 0 <= i < |parts| && c in parts[i];
        if i > 0 {
          assert c in parts[1..][i - 1];
        }
      }
    }
  }

  predicate SemicolonInFirstLines(lines: seq<string>)
  {
    exists i :: 0 <= i < Min(5, |lines|) && ';' in lines[i]
  }

  /** The delimiter is `;` exactly when one of the first five lines holds a semicolon, and `,` otherwise. */
  lemma DetectDelimiterMeaning(content: string)
    ensures DetectDelimiter(content) == ';' <==> SemicolonInFirstLines(Split(content, '\n'))
    ensures DetectDelimiter(content) == ';' || DetectDelimiter(content) == ','

  {
    var lines := Split(content, '\n');
    var sample := lines[..Min(5, |lines|)];
    assert SampleLines(content) == Join(sample, '\n');
    CharInJoin(sample, '\n', ';');
    if ';' in SampleLines(content) {
      var i :| 0 <= i < |sample| && ';' in sample[i];
      assert 0 <= i < Min(5, |lines|) && ';' in lines[i];
    } else {
      forall i | 0 <= i < Min(5, |lines|) ensures ';' !in lines[i] {
        assert sample[i] == lines[i];
      }
    }
  }

  /** `content.split(/\r\n|\n/)`: split at `\n`, dropping a `\r` just before each `\n`. */
  function SplitLines(content: string): (lines: seq<string>)
    ensures |lines| == |Split(content, '\n')| >= 1
    ensures forall i :: 0 <= i < |lines| ==> '\n' !in lines[i]
  {
    var parts := Split(content, '\n');
    var lines := seq(|parts|, i requires 0 <= i < |parts| =>
      if i < |parts| - 1 && EndsWith(parts[i], "\r") then parts[i][..|parts[i]| - 1] else parts[i]);
    assert forall i :: 0 <= i < |lines| ==> '\n' !in lines[i] by {
      forall i | 0 <= i < |lines| ensures '\n' !in lines[i] {
        if lines[i] != parts[i] {
          forall j | 0 <= j < |lines[i]| ensures lines[i][j] != '\n' {
            assert lines[i][j] == parts[i][j];
          }
        }
      }
    }
    lines
  }

  /** The first line is a header, and skipped, when lower-cased it holds "data", "hora" or "coordenada". */
  function HeaderStart(lines: seq<string>): (start: nat)
    requires |lines| >= 1
    ensures start <= 1
  {
    var first := ToLower(lines[0]);
    if Contains(first, "data") || Contains(first, "hora") || Contains(first, "coordenada") then 1 else 0
  }

  // ---- one line ----

  /** `line.split(delimiter).map(col => col.trim())`. */
  function ColumnsOf(line: string, delim: char): (columns: seq<string>)
    ensures |columns| == |Split(line, delim)|
  {
    var parts := Split(line, delim);
    seq(|parts|, i requires 0 <= i < |parts| => Trim(parts[i]))
  }

  /** The characters `.` does not match in a regular expression. */
  predicate IsLineTerminator(c: char)
  {
    c == '\n' || c == '\r' || c == '\U{2028}' || c == '\U{2029}'
  }

  /** The lazy `(.*?)\]` from index `j`: the first `]`, provided no line terminator comes before it. */
  function CloseAt(s: string, j: nat): (k: Option<nat>)
    ensures k.Some? ==> j <= k.value < |s| && s[k.value] == ']'
    ensures k.Some? ==> forall i :: j <= i < k.value ==> s[i] != ']' && !IsLineTerminator(s[i])
    decreases |s| - j
  {
    if j >= |s| then None
    else if s[j] == ']' then Some(j)
    else if IsLineTerminator(s[j]) then None
    else CloseAt(s, j + 1)
  }

  /** `s.match(/\[(.*?)\]/)[1]`: the text after the leftmost `[` that a `]` closes, up to that `]`. */
  function BracketFrom(s: string, p: nat): Option<string>
    decreases |s| - p
  {
    if p >= |s| then None
    else if s[p] == '[' && CloseAt(s, p + 1).Some? then Some(s[p + 1..CloseAt(s, p + 1).value])
    else BracketFrom(s, p + 1)
  }

  /** `s.replace(/['"]/g, "")`. */
  function RemoveQuotes(s: string): (r: string)
    ensures '\'' !in r && '"' !in r
  {
    if s == [] then []
    else (if s[0] == '\'' || s[0] == '"' then [] else [s[0]]) + RemoveQuotes(s[1..])
  }

  /** The first two comma-separated parts, trimmed and read as numbers; `None` when either is missing or not a number. */
  function FirstTwoNumbers(s: string): Option<(real, real)>
  {
    var parts := Split(s, ',');
    if |parts| >= 2 then
      var lat, lng := ParseFloat(Trim(parts[0])), ParseFloat(Trim(parts[1]));
      if lat.Some? && lng.Some? then Some((lat.value, lng.value)) else None
    else None
  }

  /** Coordinates read from a line, with its columns as they stand afterwards and whether the plain form was used. */
  datatype Reading = Reading(lat: real, lng: real, columns: seq<string>, plain: bool)

  /**
   * The three coordinate forms: `[lat, lng]` inside the third column; a plain latitude in
   * the third column and longitude in the fourth (the rest of the line is joined back into
   * a fifth column); otherwise `lat,lng` in the third column with quotes removed.
   */
  function ReadCoordinates(columns: seq<string>, delim: char): (r: Option<Reading>)
    requires |columns| >= 3
    ensures r.Some? && r.value.plain ==> |columns| >= 4 && |r.value.columns| == 5 && r.value.columns[3] == columns[3]
  {
    var cell := columns[2];
    if Contains(cell, "[") && Contains(cell, "]") then
      var inner := BracketFrom(cell, 0);
      if inner.Some? && inner.value != "" then
        var pair := FirstTwoNumbers(inner.value);
        if pair.Some? then Some(Reading(pair.value.0, pair.value.1, columns, false)) else None
      else None
    else if ParseFloat(cell).Some? && |columns| > 3 && ParseFloat(columns[3]).Some? then
      Some(Reading(ParseFloat(cell).value, ParseFloat(columns[3]).value, columns[..4] + [Join(columns[4..], delim)], true))
    else
      var pair := FirstTwoNumbers(RemoveQuotes(cell));
      if pair.Some? then Some(Reading(pair.value.0, pair.value.1, columns, false)) else None
  }

  /** The observation as the code reads it: the fourth column whenever there is one. */
  function ObservationAsWritten(r: Reading): string
  {
    if |r.columns| >= 4 then r.columns[3] else ""
  }

  /** The observation as intended: in the plain form, the text after the longitude column. */
  function Observation(r: Reading): string
  {
    if r.plain && |r.columns| == 5 then r.columns[4] else ObservationAsWritten(r)
  }

  /** In the plain form the code takes the longitude column as the observation; the intended reading takes the text after it. */
  lemma PlainFormObservation(date: string, time: string, lat: string, lng: string, obs: string, delim: char)
    requires ParseFloat(lat).Some? && ParseFloat(lng).Some? && '[' !in lat
    ensures var r := ReadCoordinates([date, time, lat, lng, obs], delim);
      r.Some? && r.value.plain && ObservationAsWritten(r.value) == lng && Observation(r.value) == obs
  {
    var columns := [date, time, lat, lng, obs];
    NotContainsByChar(lat, "[", '[');
    assert columns[4..] == [obs];
    assert columns[..4] + [Join(columns[4..], delim)] == columns;
  }

  /** `parseInt(x) || 0` for the hour and the minute of `time`, with the first `h` read as `:`. */
  function ClockOf(time: string): (int, int)
  {
    var parts := Split(ReplaceFirst(time, 'h', ":"), ':');
    (ParseIntOrZero(parts[0]), if |parts| > 1 then ParseIntOrZero(parts[1]) else 0)
  }

  /** The datetime built from a `DD/MM/YYYY` date and a time: none unless the date has three `/` parts. */
  function StampOf(date: string, time: string): Stamp
  {
    var parts := Split(date, '/');
    if |parts| != 3 then NoStamp
    else
      var day, month, year := ParseInt(parts[0]), ParseInt(parts[1]), ParseInt(parts[2]);
      if day.None? || month.None? || year.None? then InvalidDate
      else At(DateTime(JsYear(year.value), month.value - 1, day.value, ClockOf(time).0, ClockOf(time).1))
  }

  /** One CSV line: `None` when it is skipped, otherwise its date and the point it gives. */
  function ParseLine(line: string, delim: char, originalIndex: int): Option<(string, TrackPoint)>
  {
    var trimmed := Trim(line);
    if trimmed == "" then None
    else
      var columns := ColumnsOf(trimmed, delim);
      if |columns| < 3 then None
      else
        var reading := ReadCoordinates(columns, delim);
        if reading.None? then None
        else
          var date, time := columns[0], columns[1];
          if |Split(date, '/')| != 3 then None
          else
            Some((date, TrackPoint(reading.value.lat, reading.value.lng, time, StampOf(date, time),
                                   ObservationAsWritten(reading.value), Some(originalIndex), 0)))
  }

  /**
   * A parsed point stores the observation as the code reads it, the fourth column; outside
   * the plain coordinate form that is also the intended observation (`PlainFormObservation`
   * shows where the two part).
   */
  lemma ParseLineObservation(line: string, delim: char, originalIndex: int)
    ensures var r := ParseLine(line, delim, originalIndex);
      var columns := ColumnsOf(Trim(line), delim);
      r.Some? ==>
        |columns| >= 3 && ReadCoordinates(columns, delim).Some?
        && r.value.1.observation == ObservationAsWritten(ReadCoordinates(columns, delim).value)
        && (!ReadCoordinates(columns, delim).value.plain ==> r.value.1.observation == Observation(ReadCoordinates(columns, delim).value))
  {
  }

  /** Blank lines, lines of fewer than three columns, unreadable coordinates and dates without three parts give no point. */
  lemma SkippedLines(line: string, delim: char, originalIndex: int)
    ensures Trim(line) == "" ==> ParseLine(line, delim, originalIndex).None?
    ensures |ColumnsOf(Trim(line), delim)| < 3 ==> ParseLine(line, delim, originalIndex).None?
    ensures var columns := ColumnsOf(Trim(line), delim);
      |columns| >= 3 && (ReadCoordinates(columns, delim).None? || |Split(columns[0], '/')| != 3) ==>
      ParseLine(line, delim, originalIndex).None?
  {
  }

  /** A parsed point carries the line's time text, a datetime and a line index, and has not been numbered yet. */
  lemma ParsedPointShape(line: string, delim: char, originalIndex: int)
    ensures var r := ParseLine(line, delim, originalIndex);
      r.Some? ==>
        r.value.1.datetime != NoStamp && r.value.1.originalIndex == Some(originalIndex)
        && r.value.1.number == 0 && r.value.1.datetime == StampOf(r.value.0, r.value.1.time)
        && |Split(r.value.0, '/')| == 3
  {
  }

  /** `[lat, lng]` written from two integers is read as that latitude and longitude. */
  lemma BracketedIntegers(columns: seq<string>, delim: char, lat: int, lng: int)
    requires |columns| >= 3 && columns[2] == "[" + IntToString(lat) + ", " + IntToString(lng) + "]"
    ensures ReadCoordinates(columns, delim) == Some(Reading(lat as real, lng as real, columns, false))
  {
    var inner := IntToString(lat) + ", " + IntToString(lng);
    IntegerPairText(lat, lng);
    Regroup("[", IntToString(lat), ", ", IntToString(lng), "]");
    BracketedCell(columns, delim, inner);
  }

  /** A third column that is text without `]` or line terminators in brackets is read from that text. */
  lemma BracketedCell(columns: seq<string>, delim: char, inner: string)
    requires |columns| >= 3 && columns[2] == "[" + inner + "]" && inner != ""
    requires forall i :: 0 <= i < |inner| ==> inner[i] != ']' && !IsLineTerminator(inner[i])
    ensures FirstTwoNumbers(inner).Some? ==>
      ReadCoordinates(columns, delim) == Some(Reading(FirstTwoNumbers(inner).value.0, FirstTwoNumbers(inner).value.1, columns, false))
  {
    var cell := columns[2];
    BracketAround(inner);
    assert OccursAt(cell, "[", 0);
    assert OccursAt(cell, "]", |cell| - 1);
    ReadBracketed(columns, delim, inner);
  }

  lemma Regroup(x: string, a: string, y: string, b: string, z: string)
    ensures x + a + y + b + z == x + (a + y + b) + z
  {
  }

  /** A third column holding both brackets is read from the text the bracket pattern captures. */
  lemma ReadBracketed(columns: seq<string>, delim: char, inner: string)
    requires |columns| >= 3 && Contains(columns[2], "[") && Contains(columns[2], "]")
    requires BracketFrom(columns[2], 0) == Some(inner) && inner != ""
    ensures FirstTwoNumbers(inner).Some? ==>
      ReadCoordinates(columns, delim) == Some(Reading(FirstTwoNumbers(inner).value.0, FirstTwoNumbers(inner).value.1, columns, false))
  {
  }

  /** The text `lat, lng` of two integers has no `]` or line terminator and reads back as the pair. */
  lemma IntegerPairText(lat: int, lng: int)
    ensures var inner := IntToString(lat) + ", " + IntToString(lng);
      inner != "" && FirstTwoNumbers(inner) == Some((lat as real, lng as real))
      && forall i :: 0 <= i < |inner| ==> inner[i] != ']' && !IsLineTerminator(inner[i])
  {
    IntegerPairChars(lat, lng);
    IntegerPairReads(lat, lng);
  }

  lemma IntegerPairChars(lat: int, lng: int)
    ensures var inner := IntToString(lat) + ", " + IntToString(lng);
      forall i :: 0 <= i < |inner| ==> inner[i] != ']' && !IsLineTerminator(inner[i])
  {
    var a, b := IntToString(lat), IntToString(lng);
    var inner := a + ", " + b;
    IntToStringChars(lat);
    IntToStringChars(lng);
    forall i | 0 <= i < |inner| ensures inner[i] != ']' && !IsLineTerminator(inner[i]) {
      if i < |a| {
        assert inner[i] == a[i];
      } else if i > |a| + 1 {
        assert inner[i] == b[i - |a| - 2];
      }
    }
  }

  lemma IntegerPairReads(lat: int, lng: int)
    ensures FirstTwoNumbers(IntToString(lat) + ", " + IntToString(lng)) == Some((lat as real, lng as real))
  {
    var a, b := IntToString(lat), IntToString(lng);
    IntToStringChars(lat);
    IntToStringChars(lng);
    CommaSpacePair(a, b);
    ParseFloatOfIntToString(lat);
    ParseFloatOfIntToString(lng);
  }

  /** `a, b` splits at the comma into `a` and ` b`, which trim to `a` and `b`, so the pair read is that of `a` and `b`. */
  lemma CommaSpacePair(a: string, b: string)
    requires ',' !in a && a != [] && !IsWhitespace(a[0]) && !IsWhitespace(a[|a| - 1])
    requires ',' !in b && b != [] && !IsWhitespace(b[0]) && !IsWhitespace(b[|b| - 1])
    ensures Split(a + ", " + b, ',') == [a, " " + b] && Trim(a) == a && Trim(" " + b) == b
    ensures ParseFloat(a).Some? && ParseFloat(b).Some? ==>
      FirstTwoNumbers(a + ", " + b) == Some((ParseFloat(a).value, ParseFloat(b).value))
  {
    assert ',' !in " " + b;
    assert a + ", " + b == a + [','] + (" " + b);
    SplitTwo(a, " " + b, ',');
    TrimOfNoOuterSpace(a);
    TrimLeadingSpace(b);
  }

  /** Text without `]` or line terminators, put in brackets, is what the bracket pattern captures. */
  lemma BracketAround(inner: string)
    requires forall i :: 0 <= i < |inner| ==> inner[i] != ']' && !IsLineTerminator(inner[i])
    ensures BracketFrom("[" + inner + "]", 0) == Some(inner)
  {
    var cell := "[" + inner + "]";
    CloseScan(cell, 1, |inner| + 1);
    assert cell[1..|inner| + 1] == inner;
  }

  /** `CloseAt` finds the bracket at `k` when the text from `j` to it holds no `]` and no line terminator. */
  lemma {:induction false} CloseScan(s: string, j: nat, k: nat)
    requires j <= k < |s| && s[k] == ']'
    requires forall i :: j <= i < k ==> s[i] != ']' && !IsLineTerminator(s[i])
    ensures CloseAt(s, j) == Some(k)
    decreases k - j
  {
    if j < k {
      CloseScan(s, j + 1, k);
    }
  }

  /** The first `h` of `a + "h" + b` is the one between them when `a` has none. */
  lemma ReplaceSeparatingH(a: string, b: string)
    requires 'h' !in a
    ensures ReplaceFirst(a + "h" + b, 'h', ":") == a + ":" + b
  {
    var t := a + "h" + b;
    assert t[..|a|] == a && t[|a| + 1..] == b;
    IndexOfFirst(t, 'h', |a|);
  }

  /** `a:b` of two digit runs splits into `a` and `b`, which read as their values. */
  lemma ClockOfDigits(h: nat, m: nat)
    ensures ClockOf(NatToString(h) + ":" + NatToString(m)) == (h, m)
  {
    var a, b := NatToString(h), NatToString(m);
    assert 'h' !in a + ":" + b;
    assert ':' !in a && ':' !in b;
    SplitTwo(a, b, ':');
    ParseIntOfNat(h);
    ParseIntOfNat(m);
  }

  /** `HHhMM` and `HH:MM` written from natural numbers give that hour and minute. */
  lemma ClockOfHourMinute(h: nat, m: nat, sep: char)
    requires sep == 'h' || sep == ':'
    ensures ClockOf(NatToString(h) + [sep] + NatToString(m)) == (h, m)
  {
    ClockOfDigits(h, m);
    if sep == 'h' {
      assert 'h' !in NatToString(h);
      ReplaceSeparatingH(NatToString(h), NatToString(m));
    }
  }

  /** An hour on its own gives minute 0. */
  lemma ClockOfHourOnly(h: nat)
    ensures ClockOf(NatToString(h)) == (h, 0)
  {
    var a := NatToString(h);
    assert 'h' !in a && ':' !in a;
    SplitPlain(a, ':');
    ParseIntOfNat(h);
  }

  /** A time whose hour part is not a number reads as hour 0, and a missing or unreadable minute as 0. */
  lemma ClockDefaults(time: string)
    ensures var parts := Split(ReplaceFirst(time, 'h', ":"), ':');
      (ParseInt(parts[0]).None? ==> ClockOf(time).0 == 0)
      && ((|parts| < 2 || ParseInt(parts[1]).None?) ==> ClockOf(time).1 == 0)
  {
  }

  /** A date written from three natural numbers splits at `/` into their digits, which read back as them. */
  lemma DateParts(d: nat, mo: nat, y: nat)
    ensures Split(NatToString(d) + "/" + NatToString(mo) + "/" + NatToString(y), '/')
      == [NatToString(d), NatToString(mo), NatToString(y)]
    ensures ParseInt(NatToString(d)) == Some(d) && ParseInt(NatToString(mo)) == Some(mo)
      && ParseInt(NatToString(y)) == Some(y)
  {
    ParseIntOfNat(d);
    ParseIntOfNat(mo);
    ParseIntOfNat(y);
    SlashedParts(NatToString(d), NatToString(mo), NatToString(y));
  }

  lemma SlashedParts(a: string, b: string, c: string)
    requires forall i :: 0 <= i < |a| ==> IsDigit(a[i])
    requires forall i :: 0 <= i < |b| ==> IsDigit(b[i])
    requires forall i :: 0 <= i < |c| ==> IsDigit(c[i])
    ensures Split(a + "/" + b + "/" + c, '/') == [a, b, c]
  {
    assert '/' !in a && '/' !in b && '/' !in c;
    SplitThree(a, b, c, '/');
  }

  /** A date of three `/` parts that read as numbers gives the datetime of those numbers. */
  lemma StampOfParts(date: string, time: string, a: string, b: string, c: string, d: int, mo: int, y: int)
    requires Split(date, '/') == [a, b, c]
    requires ParseInt(a) == Some(d) && ParseInt(b) == Some(mo) && ParseInt(c) == Some(y)
    ensures StampOf(date, time) == At(DateTime(JsYear(y), mo - 1, d, ClockOf(time).0, ClockOf(time).1))
  {
  }

  /** A `D/M/YYYY` date with a year past 99 is that day, month (0-based) and year, at the time's hour and minute. */
  lemma StampOfDate(d: nat, mo: nat, y: nat, time: string)
    requires y > 99
    ensures StampOf(NatToString(d) + "/" + NatToString(mo) + "/" + NatToString(y), time)
      == At(DateTime(y, mo - 1, d, ClockOf(time).0, ClockOf(time).1))
  {
    DateParts(d, mo, y);
    StampOfParts(NatToString(d) + "/" + NatToString(mo) + "/" + NatToString(y), time,
                 NatToString(d), NatToString(mo), NatToString(y), d, mo, y);
  }

  // ---- the whole file ----

  /** The `(date, point)` pairs the lines `lines[start..upTo]` give, in line order; indices count from `start`. */
  function LinePoints(lines: seq<string>, start: nat, upTo: nat, delim: char): seq<(string, TrackPoint)>
    requires start <= upTo <= |lines|
    decreases upTo
  {
    if upTo == start then []
    else
      var r := ParseLine(lines[upTo - 1], delim, upTo - 1 - start);
      LinePoints(lines, start, upTo - 1, delim) + (if r.Some? then [r.value] else [])
  }

  lemma LinePointsStep(lines: seq<string>, start: nat, i: nat, delim: char)
    requires start <= i < |lines|
    ensures var r := ParseLine(lines[i], delim, i - start);
      LinePoints(lines, start, i + 1, delim) == LinePoints(lines, start, i, delim) + (if r.Some? then [r.value] else [])
  {
  }

  function GroupIndex(groups: seq<DateGroup>, date: string): (k: int)
    ensures -1 <= k < |groups|
    ensures k >= 0 ==> groups[k].date == date
    ensures k == -1 ==> forall i :: 0 <= i < |groups| ==> groups[i].date != date
  {
    if groups == [] then -1
    else
      var k := GroupIndex(groups[..|groups| - 1], date);
      if k >= 0 then k else if groups[|groups| - 1].date == date then |groups| - 1 else -1
  }

  /** `pointsByDate[date].push(point)`, creating the entry for a new date at the end. */
  function AddToGroup(groups: seq<DateGroup>, date: string, p: TrackPoint): seq<DateGroup>
  {
    var k := GroupIndex(groups, date);
    if k < 0 then groups + [DateGroup(date, [p])]
    else groups[k := DateGroup(date, groups[k].points + [p])]
  }

  /** `pointsByDate` after the line loop. */
  function Grouped(pairs: seq<(string, TrackPoint)>): seq<DateGroup>
  {
    if pairs == [] then []
    else
      var last := pairs[|pairs| - 1];
      AddToGroup(Grouped(pairs[..|pairs| - 1]), last.0, last.1)
  }

  lemma GroupedSnoc(pairs: seq<(string, TrackPoint)>, last: (string, TrackPoint))
    ensures Grouped(pairs + [last]) == AddToGroup(Grouped(pairs), last.0, last.1)
  {
    assert (pairs + [last])[..|pairs|] == pairs;
  }

  /** One more line: its point, if any, is added to the groups of the lines before it. */
  lemma GroupLinesStep(lines: seq<string>, start: nat, i: nat, delim: char)
    requires start <= i < |lines|
    ensures var r := ParseLine(lines[i], delim, i - start);
      var before := Grouped(LinePoints(lines, start, i, delim));
      Grouped(LinePoints(lines, start, i + 1, delim)) == if r.Some? then AddToGroup(before, r.value.0, r.value.1) else before
  {
    var r := ParseLine(lines[i], delim, i - start);
    var pairs := LinePoints(lines, start, i, delim);
    LinePointsStep(lines, start, i, delim);
    if r.Some? {
      GroupedSnoc(pairs, r.value);
    } else {
      assert pairs + [] == pairs;
    }
  }

  /** The points of the pairs with the given date, in order. */
  function PointsOn(pairs: seq<(string, TrackPoint)>, date: string): seq<TrackPoint>
  {
    if pairs == [] then []
    else
      var last := pairs[|pairs| - 1];
      PointsOn(pairs[..|pairs| - 1], date) + (if last.0 == date then [last.1] else [])
  }

  function GroupDates(groups: seq<DateGroup>): set<string>
  {
    set i | 0 <= i < |groups| :: groups[i].date
  }

  function PairDates(pairs: seq<(string, TrackPoint)>): set<string>
  {
    set i | 0 <= i < |pairs| :: pairs[i].0
  }

  predicate DistinctDates(groups: seq<DateGroup>)
  {
    forall i, j :: 0 <= i < j < |groups| ==> groups[i].date != groups[j].date
  }

  /** `g` groups `pairs`: one entry per date, holding exactly that date's points in line order. */
  predicate GroupsOf(g: seq<DateGroup>, pairs: seq<(string, TrackPoint)>)
  {
    DistinctDates(g) && GroupDates(g) == PairDates(pairs)
    && forall i :: 0 <= i < |g| ==> g[i].points == PointsOn(pairs, g[i].date) && g[i].points != []
  }

  /** Grouping gives one entry per date, holding exactly that date's points in line order. */
  lemma {:induction false} GroupedMeaning(pairs: seq<(string, TrackPoint)>)
    ensures GroupsOf(Grouped(pairs), pairs)
  {
    if pairs != [] {
      var init, last := pairs[..|pairs| - 1], pairs[|pairs| - 1];
      GroupedMeaning(init);
      assert pairs == init + [last];
      var g0 := Grouped(init);
      var k := GroupIndex(g0, last.0);
      if k < 0 {
        AddNewDate(g0, init, last);
      } else {
        AddKnownDate(g0, init, last, k);
      }
    }
  }

  lemma PairDatesSnoc(init: seq<(string, TrackPoint)>, last: (string, TrackPoint))
    ensures PairDates(init + [last]) == PairDates(init) + {last.0}
  {
    var pairs := init + [last];
    forall d | d in PairDates(pairs) ensures d in PairDates(init) + {last.0} {
      var i :| 0 <= i < |pairs| && pairs[i].0 == d;
      if i < |init| {
        assert init[i] == pairs[i];
      }
    }
    forall d | d in PairDates(init) ensures d in PairDates(pairs) {
      var i :| 0 <= i < |init| && init[i].0 == d;
      assert pairs[i] == init[i];
    }
    assert pairs[|init|].0 == last.0;
  }

  lemma PointsOnSnoc(init: seq<(string, TrackPoint)>, last: (string, TrackPoint), date: string)
    ensures PointsOn(init + [last], date) == PointsOn(init, date) + (if last.0 == date then [last.1] else [])
  {
    assert (init + [last])[..|init|] == init;
  }

  /** A pair with a date not seen before opens a new group at the end. */
  lemma AddNewDate(g0: seq<DateGroup>, init: seq<(string, TrackPoint)>, last: (string, TrackPoint))
    requires GroupsOf(g0, init) && GroupIndex(g0, last.0) < 0
    ensures GroupsOf(g0 + [DateGroup(last.0, [last.1])], init + [last])
  {
    var g := g0 + [DateGroup(last.0, [last.1])];
    var pairs := init + [last];
    PairDatesSnoc(init, last);
    assert last.0 !in GroupDates(g0);
    PointsOnAbsent(init, last.0);
    assert GroupDates(g) == GroupDates(g0) + {last.0} by {
      forall d | d in GroupDates(g) ensures d in GroupDates(g0) + {last.0} {
        var i :| 0 <= i < |g| && g[i].date == d;
        if i < |g0| {
          assert g0[i] == g[i];
        }
      }
      forall d | d in GroupDates(g0) ensures d in GroupDates(g) {
        var i :| 0 <= i < |g0| && g0[i].date == d;
        assert g[i] == g0[i];
      }
      assert g[|g0|].date == last.0;
    }
    forall i | 0 <= i < |g| ensures g[i].points == PointsOn(pairs, g[i].date) && g[i].points != [] {
      PointsOnSnoc(init, last, g[i].date);
      if i < |g0| {
        assert g[i] == g0[i];
      }
    }
  }

  /** A pair with a date already seen joins the end of that date's group. */
  lemma AddKnownDate(g0: seq<DateGroup>, init: seq<(string, TrackPoint)>, last: (string, TrackPoint), k: int)
    requires GroupsOf(g0, init) && k == GroupIndex(g0, last.0) && k >= 0
    ensures GroupsOf(g0[k := DateGroup(last.0, g0[k].points + [last.1])], init + [last])
  {
    var g := g0[k := DateGroup(last.0, g0[k].points + [last.1])];
    var pairs := init + [last];
    PairDatesSnoc(init, last);
    assert last.0 in GroupDates(g0);
    assert GroupDates(g) == GroupDates(g0) by {
      forall d | d in GroupDates(g) ensures d in GroupDates(g0) {
        var i :| 0 <= i < |g| && g[i].date == d;
        assert g0[i].date == d;
      }
      forall d | d in GroupDates(g0) ensures d in GroupDates(g) {
        var i :| 0 <= i < |g0| && g0[i].date == d;
        assert g[i].date == d;
      }
    }
    forall i | 0 <= i < |g| ensures g[i].points == PointsOn(pairs, g[i].date) && g[i].points != [] {
      PointsOnSnoc(init, last, g[i].date);
    }
  }

  /** A date that no pair has collects no points. */
  lemma {:induction false} PointsOnAbsent(pairs: seq<(string, TrackPoint)>, date: string)
    requires date !in PairDates(pairs)
    ensures PointsOn(pairs, date) == []
  {
    if pairs != [] {
      var init := pairs[..|pairs| - 1];
      assert PairDates(init) <= PairDates(pairs) by {
        forall d | d in PairDates(init) ensures d in PairDates(pairs) {
          var i :| 0 <= i < |init| && init[i].0 == d;
          assert pairs[i] == init[i];
        }
      }
      assert pairs[|pairs| - 1].0 in PairDates(pairs);
      PointsOnAbsent(init, date);
    }
  }

  function TotalPoints(groups: seq<DateGroup>): nat
  {
    if groups == [] then 0 else TotalPoints(groups[..|groups| - 1]) + |groups[|groups| - 1].points|
  }

  lemma {:induction false} TotalAppend(groups: seq<DateGroup>, g: DateGroup)
    ensures TotalPoints(groups + [g]) == TotalPoints(groups) + |g.points|
  {
    assert (groups + [g])[..|groups|] == groups;
  }

  lemma {:induction false} TotalUpdate(groups: seq<DateGroup>, k: nat, g: DateGroup)
    requires k < |groups|
    ensures TotalPoints(groups[k := g]) == TotalPoints(groups) - |groups[k].points| + |g.points|
    decreases |groups|
  {
    var n := |groups| - 1;
    var u := groups[k := g];
    if k < n {
      assert u[..n] == groups[..n][k := g];
      TotalUpdate(groups[..n], k, g);
    } else {
      assert u[..n] == groups[..n];
    }
  }

  /** Every pair lands in exactly one group: the group sizes add up to the number of points. */
  lemma {:induction false} GroupedTotal(pairs: seq<(string, TrackPoint)>)
    ensures TotalPoints(Grouped(pairs)) == |pairs|
  {
    if pairs != [] {
      var init, last := pairs[..|pairs| - 1], pairs[|pairs| - 1];
      GroupedTotal(init);
      var g0 := Grouped(init);
      var k := GroupIndex(g0, last.0);
      if k < 0 {
        TotalAppend(g0, DateGroup(last.0, [last.1]));
      } else {
        TotalUpdate(g0, k, DateGroup(last.0, g0[k].points + [last.1]));
      }
    }
  }

  /** `forEach((point, index) => point.number = index + 1)` as a value. */
  function Numbered(points: seq<TrackPoint>): seq<TrackPoint>
  {
    seq(|points|, i requires 0 <= i < |points| => points[i].(number := i + 1))
  }

  function Unnumbered(points: seq<TrackPoint>): seq<TrackPoint>
  {
    seq(|points|, i requires 0 <= i < |points| => points[i].(number := 0))
  }

  /** A group after the second loop: sorted by datetime, then numbered. */
  function Finished(g: DateGroup): DateGroup
  {
    DateGroup(g.date, Numbered(Sorting.SortByKey(g.points, StampKey)))
  }

  function FinishAll(groups: seq<DateGroup>): (r: seq<DateGroup>)
    ensures |r| == |groups|
  {
    seq(|groups|, k requires 0 <= k < |groups| => Finished(groups[k]))
  }

  predicate Unnumbered0(points: seq<TrackPoint>)
  {
    forall i :: 0 <= i < |points| ==> points[i].number == 0
  }

  /**
   * A finished group holds the same points (numbers aside), numbered 1 to n in order, and
   * in non-decreasing datetime order when every point has a valid date.
   */
  lemma FinishedMeaning(g: DateGroup)
    requires Unnumbered0(g.points)
    ensures var f := Finished(g);
      f.date == g.date && |f.points| == |g.points|
      && multiset(Unnumbered(f.points)) == multiset(g.points)
      && (forall i :: 0 <= i < |f.points| ==> f.points[i].number == i + 1)
      && (Sorting.AllKeyed(g.points, StampKey) ==> Sorting.SortedByKey(f.points, StampKey))
  {
    var s := Sorting.SortByKey(g.points, StampKey);
    var f := Finished(g);
    assert Unnumbered(f.points) == s by {
      forall i | 0 <= i < |s| ensures Unnumbered(f.points)[i] == s[i] {
        assert s[i] in multiset(g.points);
      }
    }
    if Sorting.AllKeyed(g.points, StampKey) {
      Sorting.SortIsSorted(g.points, StampKey);
      assert forall i :: 0 <= i < |s| ==> StampKey(f.points[i]) == StampKey(s[i]);
    }
  }

  predicate PairsUnnumbered(pairs: seq<(string, TrackPoint)>)
  {
    forall i :: 0 <= i < |pairs| ==> pairs[i].1.number == 0
  }

  /** Parsed points are not numbered yet. */
  lemma {:induction false} LinePointsUnnumbered(lines: seq<string>, start: nat, upTo: nat, delim: char)
    requires start <= upTo <= |lines|
    ensures PairsUnnumbered(LinePoints(lines, start, upTo, delim))
    decreases upTo
  {
    if upTo > start {
      LinePointsUnnumbered(lines, start, upTo - 1, delim);
      LinePointsStep(lines, start, upTo - 1, delim);
      ParsedPointShape(lines[upTo - 1], delim, upTo - 1 - start);
    }
  }

  lemma {:induction false} PointsOnUnnumbered(pairs: seq<(string, TrackPoint)>, date: string)
    requires PairsUnnumbered(pairs)
    ensures Unnumbered0(PointsOn(pairs, date))
  {
    if pairs != [] {
      var init, last := pairs[..|pairs| - 1], pairs[|pairs| - 1];
      assert PairsUnnumbered(init) by {
        forall i | 0 <= i < |init| ensures init[i].1.number == 0 {
          assert init[i] == pairs[i];
        }
      }
      PointsOnUnnumbered(init, date);
    }
  }

  /** The pairs the whole file gives. */
  function ParsedPairs(content: string): seq<(string, TrackPoint)>
  {
    var lines := SplitLines(content);
    LinePoints(lines, HeaderStart(lines), |lines|, DetectDelimiter(content))
  }

  /** `parseCSVData` as a value. */
  function ParsedGroups(content: string): seq<DateGroup>
  {
    FinishAll(Grouped(ParsedPairs(content)))
  }

  /**
   * A parsed file has one group per date of its points; each holds exactly that date's
   * points (numbers aside), numbered 1 to n, in datetime order when the dates are valid;
   * the group sizes add up to the number of points.
   */
  lemma ParsedGroupsMeaning(content: string)
    ensures var pairs, groups := ParsedPairs(content), ParsedGroups(content);
      DistinctDates(groups) && GroupDates(groups) == PairDates(pairs) && TotalPoints(groups) == |pairs|
      && forall k :: 0 <= k < |groups| ==> FinishedGroupOf(groups[k], pairs)
  {
    var lines := SplitLines(content);
    LinePointsUnnumbered(lines, HeaderStart(lines), |lines|, DetectDelimiter(content));
    FinishedGroupsMeaning(ParsedPairs(content));
  }

  /**
   * The group for one date after the second loop: exactly that date's points (numbers
   * aside), numbered 1 to n, in datetime order when all of them have a valid date.
   */
  predicate FinishedGroupOf(group: DateGroup, pairs: seq<(string, TrackPoint)>)
  {
    var ps, own := group.points, PointsOn(pairs, group.date);
    multiset(Unnumbered(ps)) == multiset(own)
    && (forall i :: 0 <= i < |ps| ==> ps[i].number == i + 1)
    && (Sorting.AllKeyed(own, StampKey) ==> Sorting.SortedByKey(ps, StampKey))
  }

  lemma FinishedGroupsMeaning(pairs: seq<(string, TrackPoint)>)
    requires PairsUnnumbered(pairs)
    ensures var groups := FinishAll(Grouped(pairs));
      DistinctDates(groups) && GroupDates(groups) == PairDates(pairs) && TotalPoints(groups) == |pairs|
      && forall k :: 0 <= k < |groups| ==> FinishedGroupOf(groups[k], pairs)
  {
    var g := Grouped(pairs);
    var groups := FinishAll(g);
    GroupedMeaning(pairs);
    GroupedTotal(pairs);
    FinishedTotal(g);
    FinishAllDates(g);
    forall k | 0 <= k < |groups| ensures FinishedGroupOf(groups[k], pairs) {
      PointsOnUnnumbered(pairs, g[k].date);
      FinishedOne(g[k], pairs);
    }
  }

  /** Finishing keeps each group's date, so the set of dates and their distinctness too. */
  lemma FinishAllDates(g: seq<DateGroup>)
    ensures GroupDates(FinishAll(g)) == GroupDates(g)
    ensures DistinctDates(g) ==> DistinctDates(FinishAll(g))
  {
    var groups := FinishAll(g);
    assert forall k :: 0 <= k < |g| ==> groups[k].date == g[k].date;
  }

  lemma FinishedOne(g: DateGroup, pairs: seq<(string, TrackPoint)>)
    requires g.points == PointsOn(pairs, g.date) && Unnumbered0(g.points)
    ensures FinishedGroupOf(Finished(g), pairs)
  {
    FinishedMeaning(g);
  }

  lemma {:induction false} FinishedTotal(groups: seq<DateGroup>)
    ensures TotalPoints(FinishAll(groups)) == TotalPoints(groups)
  {
    if groups != [] {
      var n := |groups| - 1;
      FinishedTotal(groups[..n]);
      assert FinishAll(groups)[..n] == FinishAll(groups[..n]);
    }
  }

  /**
   * `parseCSVData`: the delimiter is detected, the lines after any header are grouped by
   * date, and each group is sorted by datetime and numbered.
   */
  method ParseCSVData(content: string) returns (groups: seq<DateGroup>)
    ensures groups == ParsedGroups(content)
  {
    var delimiter := DetectDelimiter(content);
    var lines := SplitLines(content);
    var startIndex := HeaderStart(lines);
    var pointsByDate := GroupLines(lines, startIndex, delimiter);
    groups := SortAndNumber(pointsByDate);
  }

  /** The line loop: each line that gives a point adds it to its date's group. */
  method GroupLines(lines: seq<string>, startIndex: nat, delimiter: char) returns (pointsByDate: seq<DateGroup>)
    requires startIndex <= |lines|
    ensures pointsByDate == Grouped(LinePoints(lines, startIndex, |lines|, delimiter))
  {
    pointsByDate := [];
    var i := startIndex;
    while i < |lines|
      invariant startIndex <= i <= |lines|
      invariant pointsByDate == Grouped(LinePoints(lines, startIndex, i, delimiter))
    {
      GroupLinesStep(lines, startIndex, i, delimiter);
      match ParseLine(lines[i], delimiter, i - startIndex) {
        case Some((date, point)) => pointsByDate := AddToGroup(pointsByDate, date, point);
        case None =>
      }
      i := i + 1;
    }
  }

  /** The group loop: each group is sorted by datetime and its points numbered. */
  method SortAndNumber(pointsByDate: seq<DateGroup>) returns (groups: seq<DateGroup>)
    ensures groups == FinishAll(pointsByDate)
  {
    groups := pointsByDate;
    var k := 0;
    while k < |groups|
      invariant 0 <= k <= |groups| == |pointsByDate|
      invariant forall j :: 0 <= j < k ==> groups[j] == Finished(pointsByDate[j])
      invariant forall j :: k <= j < |groups| ==> groups[j] == pointsByDate[j]
    {
      var sorted := Sorting.SortByKey(groups[k].points, StampKey);
      var numbered := NumberPoints(sorted);
      var finished := DateGroup(groups[k].date, numbered);
      assert finished == Finished(pointsByDate[k]);
      groups := groups[k := finished];
      k := k + 1;
    }
  }

  /** Gives each point its position, counting from 1. */
  method NumberPoints(points: seq<TrackPoint>) returns (r: seq<TrackPoint>)
    ensures r == Numbered(points)
    ensures |r| == |points| && forall i :: 0 <= i < |r| ==> r[i].number == i + 1 && r[i].(number := 0) == points[i].(number := 0)
  {
    r := [];
    var index := 0;
    while index < |points|
      invariant 0 <= index <= |points| && |r| == index
      invariant forall i :: 0 <= i < index ==> r[i] == points[i].(number := i + 1)
    {
      r := r + [points[index].(number := index + 1)];
      index := index + 1;
    }
  }

  // ---- the store ----

  /** The route id: file name, date and clock reading joined by `-`. */
  function RouteId(fileName: string, date: string, now: int): string
  {
    fileName + "-" + date + "-" + IntToString(now)
  }

  /** The route made for a group with points. */
  function NewRoute(g: DateGroup, fileName: string, now: int, pick: string -> nat): Route
  {
    Route(RouteId(fileName, g.date, now), g.date, fileName, RANDOM_COLORS[pick(g.date) % 15], g.points, true)
  }

  /** The routes `createRoutes` makes, in group order: one per date with points, visible, in a drawn colour. */
  function NewRoutes(groups: seq<DateGroup>, fileName: string, now: int, pick: string -> nat): seq<Route>
  {
    if groups == [] then []
    else
      var g := groups[|groups| - 1];
      NewRoutes(groups[..|groups| - 1], fileName, now, pick)
      + (if g.points == [] then []
         else [NewRoute(g, fileName, now, pick)])
  }

  lemma NewRoutesStep(groups: seq<DateGroup>, k: nat, fileName: string, now: int, pick: string -> nat)
    requires k < |groups|
    ensures var g := groups[k];
      NewRoutes(groups[..k + 1], fileName, now, pick) == NewRoutes(groups[..k], fileName, now, pick)
        + (if g.points == [] then []
           else [NewRoute(g, fileName, now, pick)])
  {
    assert groups[..k + 1][..k] == groups[..k];
  }

  /** One more group: a route is set for it when it has points, and nothing changes otherwise. */
  lemma CreatedStep(start: seq<Route>, current: seq<Route>, groups: seq<DateGroup>, k: nat, fileName: string, now: int,
                    pick: string -> nat)
    requires k < |groups|
    requires current == WithRoutes(start, NewRoutes(groups[..k], fileName, now, pick))
    ensures var g, after := groups[k], NewRoutes(groups[..k + 1], fileName, now, pick);
      |after| == |NewRoutes(groups[..k], fileName, now, pick)| + (if g.points == [] then 0 else 1)
      && WithRoutes(start, after) == if g.points == [] then current else SetRoute(current, NewRoute(g, fileName, now, pick))
  {
    var before := NewRoutes(groups[..k], fileName, now, pick);
    NewRoutesStep(groups, k, fileName, now, pick);
    if groups[k].points == [] {
      assert before + [] == before;
    } else {
      WithRoutesStep(start, before, NewRoute(groups[k], fileName, now, pick));
    }
  }

  lemma WithRoutesStep(routes: seq<Route>, added: seq<Route>, r: Route)
    ensures WithRoutes(routes, added + [r]) == SetRoute(WithRoutes(routes, added), r)
  {
    assert (added + [r])[..|added|] == added;
  }

  /** Each new route belongs to a date with points, is visible and takes its colour from the palette. */
  lemma {:induction false} NewRoutesMeaning(groups: seq<DateGroup>, fileName: string, now: int, pick: string -> nat)
    ensures var rs := NewRoutes(groups, fileName, now, pick);
      |rs| <= |groups|
      && forall i :: 0 <= i < |rs| ==>
        rs[i].visible && rs[i].color in RANDOM_COLORS && rs[i].points != [] && rs[i].fileName == fileName
        && rs[i].id == RouteId(fileName, rs[i].date, now)
        && exists k :: 0 <= k < |groups| && groups[k] == DateGroup(rs[i].date, rs[i].points)
  {
    if groups != [] {
      var init := groups[..|groups| - 1];
      NewRoutesMeaning(init, fileName, now, pick);
      var rs := NewRoutes(groups, fileName, now, pick);
      var r0 := NewRoutes(init, fileName, now, pick);
      forall i | 0 <= i < |rs|
        ensures exists k :: 0 <= k < |groups| && groups[k] == DateGroup(rs[i].date, rs[i].points)
      {
        if i < |r0| {
          var k :| 0 <= k < |init| && init[k] == DateGroup(r0[i].date, r0[i].points);
          assert groups[k] == init[k];
        } else {
          assert groups[|groups| - 1] == DateGroup(rs[i].date, rs[i].points);
        }
      }
    }
  }

  /** Position of the first route with that id, or -1. */
  function RouteIndex(routes: seq<Route>, id: string): (k: int)
    ensures -1 <= k < |routes|
    ensures k >= 0 ==> routes[k].id == id
    ensures forall i :: 0 <= i < |routes| && (k == -1 || i < k) ==> routes[i].id != id
  {
    if routes == [] then -1
    else if routes[0].id == id then 0
    else
      var k := RouteIndex(routes[1..], id);
      if k < 0 then -1 else k + 1
  }

  predicate UniqueIds(routes: seq<Route>)
  {
    forall i, j :: 0 <= i < j < |routes| ==> routes[i].id != routes[j].id
  }

  /** `routes[id] = route` on an object keyed by id: a known id keeps its place, a new one goes last. */
  function SetRoute(routes: seq<Route>, r: Route): seq<Route>
  {
    if routes == [] then [r]
    else if routes[0].id == r.id then [r] + routes[1..]
    else [routes[0]] + SetRoute(routes[1..], r)
  }

  /** Setting a route replaces the first route with its id, or appends it when the id is new. */
  lemma {:induction false} SetRouteShape(routes: seq<Route>, r: Route)
    ensures var k := RouteIndex(routes, r.id);
      SetRoute(routes, r) == if k < 0 then routes + [r] else routes[k := r]
  {
    if routes != [] && routes[0].id != r.id {
      var x, t := routes[0], routes[1..];
      SetRouteShape(t, r);
      var k := RouteIndex(t, r.id);
      assert RouteIndex(routes, r.id) == if k < 0 then -1 else k + 1;
      assert SetRoute(routes, r) == [x] + SetRoute(t, r);
      assert routes == [x] + t;
      if k < 0 {
        ConsAppend(x, t, r);
      } else {
        ConsUpdate(x, t, k, r);
      }
    }
  }

  lemma ConsAppend<T>(x: T, t: seq<T>, r: T)
    ensures [x] + (t + [r]) == ([x] + t) + [r]
  {
  }

  lemma ConsUpdate<T>(x: T, t: seq<T>, k: nat, r: T)
    requires k < |t|
    ensures [x] + t[k := r] == ([x] + t)[k + 1 := r]
  {
  }

  /** Setting a route stores it under its id, keeps the ids unique and leaves every other id's route where it was. */
  lemma SetRouteMeaning(routes: seq<Route>, r: Route)
    requires UniqueIds(routes)
    ensures var s := SetRoute(routes, r);
      UniqueIds(s) && RouteIndex(s, r.id) >= 0 && s[RouteIndex(s, r.id)] == r
      && |s| == (if RouteIndex(routes, r.id) < 0 then |routes| + 1 else |routes|)
      && forall i :: 0 <= i < |routes| && routes[i].id != r.id ==> s[i] == routes[i]
  {
    SetRouteShape(routes, r);
    var s := SetRoute(routes, r);
    var k := RouteIndex(routes, r.id);
    UniqueIndex(s, r.id, if k < 0 then |routes| else k);
  }

  /** With unique ids, the route found for an id is the one at its position. */
  lemma UniqueIndex(routes: seq<Route>, id: string, k: int)
    requires UniqueIds(routes) && 0 <= k < |routes| && routes[k].id == id
    ensures RouteIndex(routes, id) == k
  {
  }

  /** The routes after setting each new route in turn. */
  function WithRoutes(routes: seq<Route>, added: seq<Route>): seq<Route>
  {
    if added == [] then routes
    else SetRoute(WithRoutes(routes, added[..|added| - 1]), added[|added| - 1])
  }

  lemma {:induction false} WithRoutesUnique(routes: seq<Route>, added: seq<Route>)
    requires UniqueIds(routes)
    ensures UniqueIds(WithRoutes(routes, added))
  {
    if added != [] {
      WithRoutesUnique(routes, added[..|added| - 1]);
      SetRouteMeaning(WithRoutes(routes, added[..|added| - 1]), added[|added| - 1]);
    }
  }

  /**
   * After setting routes with distinct ids, each is found under its id, and a route whose
   * id none of them has stays where it was.
   */
  lemma WithRoutesMeaning(routes: seq<Route>, added: seq<Route>)
    requires UniqueIds(routes) && UniqueIds(added)
    ensures var s := WithRoutes(routes, added);
      |s| >= |routes|
      && (forall k :: 0 <= k < |added| ==> RouteIndex(s, added[k].id) >= 0 && s[RouteIndex(s, added[k].id)] == added[k])
      && (forall i :: 0 <= i < |routes| && (forall k :: 0 <= k < |added| ==> added[k].id != routes[i].id) ==>
            s[i] == routes[i])
  {
    WithRoutesFound(routes, added);
    WithRoutesKeeps(routes, added);
  }

  lemma {:induction false} WithRoutesFound(routes: seq<Route>, added: seq<Route>)
    requires UniqueIds(routes) && UniqueIds(added)
    ensures var s := WithRoutes(routes, added);
      forall k :: 0 <= k < |added| ==> RouteIndex(s, added[k].id) >= 0 && s[RouteIndex(s, added[k].id)] == added[k]
  {
    if added != [] {
      var init, last := added[..|added| - 1], added[|added| - 1];
      WithRoutesFound(routes, init);
      WithRoutesUnique(routes, init);
      var w := WithRoutes(routes, init);
      SetRouteMeaning(w, last);
      var s := SetRoute(w, last);
      forall k | 0 <= k < |added| - 1
        ensures RouteIndex(s, added[k].id) >= 0 && s[RouteIndex(s, added[k].id)] == added[k]
      {
        assert added[k] == init[k];
        assert added[k].id != last.id;
        UniqueIndex(s, added[k].id, RouteIndex(w, added[k].id));
      }
    }
  }

  lemma {:induction false} WithRoutesKeeps(routes: seq<Route>, added: seq<Route>)
    requires UniqueIds(routes)
    ensures var s := WithRoutes(routes, added);
      |s| >= |routes|
      && forall i :: 0 <= i < |routes| && (forall k :: 0 <= k < |added| ==> added[k].id != routes[i].id) ==>
           s[i] == routes[i]
  {
    if added != [] {
      var init, last := added[..|added| - 1], added[|added| - 1];
      WithRoutesKeeps(routes, init);
      WithRoutesUnique(routes, init);
      var w := WithRoutes(routes, init);
      SetRouteMeaning(w, last);
      forall i | 0 <= i < |routes| && (forall k :: 0 <= k < |added| ==> added[k].id != routes[i].id)
        ensures SetRoute(w, last)[i] == routes[i]
      {
        assert forall k :: 0 <= k < |init| ==> init[k] == added[k];
        assert last.id != routes[i].id;
      }
    }
  }

  /** `out[date] = points` for each group in turn (`{ ...trackPoints, ...parsedPoints }`). */
  function GroupsMap(groups: seq<DateGroup>): map<string, seq<TrackPoint>>
  {
    if groups == [] then map[]
    else GroupsMap(groups[..|groups| - 1])[groups[|groups| - 1].date := groups[|groups| - 1].points]
  }

  /** Routes without the one with that id, in order. */
  function WithoutRoute(routes: seq<Route>, id: string): (r: seq<Route>)
    ensures |r| <= |routes|
    ensures forall x :: x in r <==> x in routes && x.id != id
  {
    if routes == [] then []
    else if routes[0].id == id then WithoutRoute(routes[1..], id)
    else [routes[0]] + WithoutRoute(routes[1..], id)
  }

  lemma {:induction false} WithoutRouteUnique(routes: seq<Route>, id: string)
    requires UniqueIds(routes)
    ensures UniqueIds(WithoutRoute(routes, id))
  {
    if routes != [] {
      WithoutRouteUnique(routes[1..], id);
      var rest := WithoutRoute(routes[1..], id);
      if routes[0].id != id {
        forall j | 0 < j < |[routes[0]] + rest| ensures ([routes[0]] + rest)[j].id != routes[0].id {
          assert rest[j - 1] in routes[1..];
        }
      }
    }
  }

  lemma WholePrefix<T>(s: seq<T>)
    ensures s[..|s|] == s
  {
  }

  /** The loop of `createRoutes`: a route is set for each group with points, in order, and counted. */
  method SetNewRoutes(start: seq<Route>, pointsByDate: seq<DateGroup>, fileName: string, now: int, pick: string -> nat)
    returns (current: seq<Route>, routesCreated: nat)
    ensures current == WithRoutes(start, NewRoutes(pointsByDate, fileName, now, pick))
    ensures routesCreated == |NewRoutes(pointsByDate, fileName, now, pick)|
  {
    current, routesCreated := start, 0;
    var k := 0;
    while k < |pointsByDate|
      invariant 0 <= k <= |pointsByDate|
      invariant current == WithRoutes(start, NewRoutes(pointsByDate[..k], fileName, now, pick))
      invariant routesCreated == |NewRoutes(pointsByDate[..k], fileName, now, pick)|
    {
      var g := pointsByDate[k];
      CreatedStep(start, current, pointsByDate, k, fileName, now, pick);
      if g.points != [] {
        current := SetRoute(current, NewRoute(g, fileName, now, pick));
        routesCreated := routesCreated + 1;
      }
      k := k + 1;
    }
    WholePrefix(pointsByDate);
  }

  /** The counting loop of `processCSVFile`: the sizes of the groups added up. */
  method CountPoints(groups: seq<DateGroup>) returns (total: nat)
    ensures total == TotalPoints(groups)
  {
    total := 0;
    var k := 0;
    while k < |groups|
      invariant 0 <= k <= |groups|
      invariant total == TotalPoints(groups[..k])
    {
      assert groups[..k + 1][..k] == groups[..k];
      total := total + |groups[k].points|;
      k := k + 1;
    }
    WholePrefix(groups);
  }

  class DataStore {
    var trackPoints: map<string, seq<TrackPoint>>
    var routes: seq<Route>
    var lastUpdate: Option<int>

    /** Route ids are keys: no two routes share one. */
    predicate Valid()
      reads this
    {
      UniqueIds(routes)
    }

    constructor()
      ensures Valid() && trackPoints == map[] && routes == [] && lastUpdate == None
    {
      trackPoints := map[];
      routes := [];
      lastUpdate := None;
    }

    /**
     * `processCSVFile`: the parsed groups are merged into the stored points, a route is set
     * for each, the update time is recorded and the number of points is returned. `now`
     * stands for the clock and `pick` for the random colour draw of each date.
     */
    method ProcessCSVFile(content: string, fileName: string, now: int, pick: string -> nat) returns (totalPoints: nat)
      requires Valid()
      modifies this
      ensures Valid()
      ensures trackPoints == old(trackPoints) + GroupsMap(ParsedGroups(content))
      ensures routes == WithRoutes(old(routes), NewRoutes(ParsedGroups(content), fileName, now, pick))
      ensures lastUpdate == Some(now)
      ensures totalPoints == |ParsedPairs(content)|
    {
      var parsedPoints := ParseCSVData(content);
      trackPoints := trackPoints + GroupsMap(parsedPoints);
      var routesCreated := CreateRoutes(parsedPoints, fileName, now, pick);
      lastUpdate := Some(now);
      totalPoints := CountPoints(parsedPoints);
      ParsedGroupsMeaning(content);
    }

    /** `createRoutes`: one visible route per date with points, set under its id; returns how many. */
    method CreateRoutes(pointsByDate: seq<DateGroup>, fileName: string, now: int, pick: string -> nat) returns (routesCreated: nat)
      requires Valid()
      modifies this
      ensures Valid()
      ensures routes == WithRoutes(old(routes), NewRoutes(pointsByDate, fileName, now, pick))
      ensures routesCreated == |NewRoutes(pointsByDate, fileName, now, pick)|
      ensures trackPoints == old(trackPoints) && lastUpdate == old(lastUpdate)
    {
      WithRoutesUnique(routes, NewRoutes(pointsByDate, fileName, now, pick));
      routes, routesCreated := SetNewRoutes(routes, pointsByDate, fileName, now, pick);
    }

    /** `deleteRoute`: `false` for an unknown id; otherwise only that route goes and the answer is `true`. */
    method DeleteRoute(routeId: string) returns (deleted: bool)
      requires Valid()
      modifies this
      ensures Valid()
      ensures deleted <==> RouteIndex(old(routes), routeId) >= 0
      ensures routes == WithoutRoute(old(routes), routeId)
      ensures RouteIndex(routes, routeId) == -1
      ensures !deleted ==> routes == old(routes)
      ensures trackPoints == old(trackPoints) && lastUpdate == old(lastUpdate)
    {
      if RouteIndex(routes, routeId) >= 0 {
        WithoutRouteUnique(routes, routeId);
        routes := WithoutRoute(routes, routeId);
        deleted := true;
      } else {
        WithoutRouteAbsent(routes, routeId);
        deleted := false;
      }
      assert forall i :: 0 <= i < |routes| ==> routes[i] in routes;
    }

    /**
     * `toggleRouteVisibility`: `false` and no change for an unknown id; otherwise that
     * route's `visible` flips and the new value is returned.
     */
    method ToggleRouteVisibility(routeId: string) returns (visible: bool)
      requires Valid()
      modifies this
      ensures Valid()
      ensures var k := RouteIndex(old(routes), routeId);
        if k < 0 then routes == old(routes) && !visible
        else routes == old(routes)[k := old(routes)[k].(visible := !old(routes)[k].visible)] && visible == routes[k].visible
      ensures trackPoints == old(trackPoints) && lastUpdate == old(lastUpdate)
    {
      var k := RouteIndex(routes, routeId);
      if k < 0 {
        return false;
      }
      routes := routes[k := routes[k].(visible := !routes[k].visible)];
      visible := routes[k].visible;
    }
  }

  lemma {:induction false} WithoutRouteAbsent(routes: seq<Route>, id: string)
    requires forall i :: 0 <= i < |routes| ==> routes[i].id != id
    ensures WithoutRoute(routes, id) == routes
  {
    if routes != [] {
      WithoutRouteAbsent(routes[1..], id);
    }
  }
}
