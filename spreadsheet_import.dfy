/**
 * Turning spreadsheet rows into sightings: header-role classification with positional
 * fall-backs, per-row decoding of coordinates, notes and date/time, and the final
 * merge with the existing sightings, sorted by timestamp.
 */
module SpreadsheetImport {
  import opened Wrappers
  import opened Text
  import opened JsNumbers
  import opened DateTimes
  import opened Config
  import opened Sightings

  datatype Role = DateRole | TimeRole | CoordsRole | LatRole | LngRole | NotesRole | NoRole

  /** `String(h).toLowerCase().trim()` */
  function Normalize(header: string): string
  {
    Trim(ToLower(header))
  }

  /** The roles in the order the header tests are tried. */
  const TestedRoles: seq<Role> := [DateRole, TimeRole, CoordsRole, LatRole, LngRole, NotesRole]

  /** Test number `k` of the role chain on a normalised header name. */
  predicate PassesTest(header: string, k: nat)
  {
    match k
    case 0 => Contains(header, "data") || Contains(header, "date") || Contains(header, "dia")
    case 1 => Contains(header, "hora") || Contains(header, "time") || Contains(header, "horario") || Contains(header, "horário")
    case 2 => Contains(header, "coord") || Contains(header, "location")
    case 3 => Contains(header, "lat") || header == "y"
    case 4 => Contains(header, "lon") || Contains(header, "lng") || header == "x"
    case 5 => Contains(header, "obs") || Contains(header, "note") || Contains(header, "coment") || Contains(header, "comment") || Contains(header, "desc")
    case _ => false
  }

  /** The role of the first test, from number `k` on, that the header passes. */
  function RoleFrom(header: string, k: nat): Role
    decreases 6 - k
  {
    if k >= 6 then NoRole
    else if PassesTest(header, k) then TestedRoles[k]
    else RoleFrom(header, k + 1)
  }

  /** The role a normalised header name suggests. */
  function RoleOf(header: string): Role
  {
    RoleFrom(header, 0)
  }

  function HeaderRole(header: string): Role
  {
    RoleOf(Normalize(header))
  }

  lemma EmptyHeaderHasNoRole()
    ensures HeaderRole("") == NoRole
  {
    assert Normalize("") == "";
  }

  /** The role of every header, in header order. */
  function Roles(headers: seq<string>): (roles: seq<Role>)
    ensures |roles| == |headers|
    ensures forall i :: 0 <= i < |headers| ==> roles[i] == HeaderRole(headers[i])
  {
    seq(|headers|, i requires 0 <= i < |headers| => HeaderRole(headers[i]))
  }

  /** The last position holding `role`, or -1. */
  function LastIndexOf(roles: seq<Role>, role: Role): (i: int)
    ensures -1 <= i < |roles|
  {
    if roles == [] then -1
    else if roles[|roles| - 1] == role then |roles| - 1
    else LastIndexOf(roles[..|roles| - 1], role)
  }

  /** -1 exactly when no position holds `role`; otherwise a position holding it with none after it. */
  lemma {:induction false} LastIndexOfMeaning(roles: seq<Role>, role: Role)
    ensures var i := LastIndexOf(roles, role);
      (i == -1 <==> forall j :: 0 <= j < |roles| ==> roles[j] != role)
      && (0 <= i ==> roles[i] == role && forall j :: i < j < |roles| ==> roles[j] != role)
  {
    if roles != [] && roles[|roles| - 1] != role {
      var init := roles[..|roles| - 1];
      LastIndexOfMeaning(init, role);
      assert forall j :: 0 <= j < |init| ==> init[j] == roles[j];
    }
  }

  /**
   * The column a role is given by name: the last header with that role (later headers
   * overwrite earlier ones), or "" (JavaScript `null`) when none has it.
   */
  function NamedColumn(headers: seq<string>, role: Role): string
  {
    var i := LastIndexOf(Roles(headers), role);
    if i < 0 then "" else headers[i]
  }

  /** A role found by name is never the falsy empty string. */
  lemma NamedColumnFound(headers: seq<string>, role: Role)
    requires role != NoRole
    ensures NamedColumn(headers, role) == "" <==> forall i :: 0 <= i < |headers| ==> HeaderRole(headers[i]) != role
  {
    var roles := Roles(headers);
    var i := LastIndexOf(roles, role);
    LastIndexOfMeaning(roles, role);
    if 0 <= i {
      EmptyHeaderHasNoRole();
    } else {
      forall j | 0 <= j < |headers| ensures HeaderRole(headers[j]) != role {
      }
    }
  }

  lemma LastIndexStep(roles: seq<Role>, i: int, role: Role)
    requires 0 <= i < |roles|
    ensures LastIndexOf(roles[..i + 1], role) == if roles[i] == role then i else LastIndexOf(roles[..i], role)
  {
    assert roles[..i + 1][..i] == roles[..i];
  }

  /** `headers[i]`, or "" when `i` is -1. */
  function Pick(headers: seq<string>, i: int): string
    requires -1 <= i < |headers|
  {
    if i < 0 then "" else headers[i]
  }

  /** The six column variables; "" stands for `null` (both are falsy). */
  datatype Columns = Columns(date: string, time: string, coords: string, lat: string, lng: string, notes: string)

  /** A header equal to "obs" already carries the notes role, so the explicit "obs" look-up never changes anything. */
  lemma ObsHeaderIsNotes(headers: seq<string>, k: int)
    requires 0 <= k < |headers| && Normalize(headers[k]) == "obs"
    ensures NamedColumn(headers, NotesRole) != ""
  {
    ObsIsNotesRole(Normalize(headers[k]));
    NamedColumnFound(headers, NotesRole);
  }

  /** The role loop: each column variable ends up naming the last header that has its role. */
  method AssignRoles(headers: seq<string>, roles: seq<Role>) returns (c: Columns)
    requires |roles| == |headers|
    ensures c.date == Pick(headers, LastIndexOf(roles, DateRole))
    ensures c.time == Pick(headers, LastIndexOf(roles, TimeRole))
    ensures c.coords == Pick(headers, LastIndexOf(roles, CoordsRole))
    ensures c.lat == Pick(headers, LastIndexOf(roles, LatRole))
    ensures c.lng == Pick(headers, LastIndexOf(roles, LngRole))
    ensures c.notes == Pick(headers, LastIndexOf(roles, NotesRole))
  {
    var dateColumn, timeColumn, coordsColumn, latColumn, lngColumn, notesColumn := "", "", "", "", "", "";
    var i := 0;
    while i < |headers|
      invariant 0 <= i <= |headers|
      invariant dateColumn == Pick(headers, LastIndexOf(roles[..i], DateRole))
      invariant timeColumn == Pick(headers, LastIndexOf(roles[..i], TimeRole))
      invariant coordsColumn == Pick(headers, LastIndexOf(roles[..i], CoordsRole))
      invariant latColumn == Pick(headers, LastIndexOf(roles[..i], LatRole))
      invariant lngColumn == Pick(headers, LastIndexOf(roles[..i], LngRole))
      invariant notesColumn == Pick(headers, LastIndexOf(roles[..i], NotesRole))
    {
      var originalHeader := headers[i];
      LastIndexStep(roles, i, DateRole);
      LastIndexStep(roles, i, TimeRole);
      LastIndexStep(roles, i, CoordsRole);
      LastIndexStep(roles, i, LatRole);
      LastIndexStep(roles, i, LngRole);
      LastIndexStep(roles, i, NotesRole);
      match roles[i] {
        case DateRole => dateColumn := originalHeader;
        case TimeRole => timeColumn := originalHeader;
        case CoordsRole => coordsColumn := originalHeader;
        case LatRole => latColumn := originalHeader;
        case LngRole => lngColumn := originalHeader;
        case NotesRole => notesColumn := originalHeader;
        case NoRole =>
      }
      i := i + 1;
    }
    assert roles[..|headers|] == roles;
    c := Columns(dateColumn, timeColumn, coordsColumn, latColumn, lngColumn, notesColumn);
  }

  /**
   * The role loop, the "obs" look-up and the positional fall-backs: a role found by name wins;
   * otherwise date is column 0, time column 1, coordinates column 2 (only when no latitude
   * column was found either) and notes column 3, when the table is that wide.
   */
  method ClassifyColumns(headers: seq<string>) returns (c: Columns)
    ensures var d := NamedColumn(headers, DateRole);
      c.date == if d != "" then d else if |headers| >= 1 then headers[0] else ""
    ensures var t := NamedColumn(headers, TimeRole);
      c.time == if t != "" then t else if |headers| >= 2 then headers[1] else ""
    ensures var k := NamedColumn(headers, CoordsRole);
      c.coords == if k != "" then k else if NamedColumn(headers, LatRole) == "" && |headers| >= 3 then headers[2] else ""
    ensures c.lat == NamedColumn(headers, LatRole)
    ensures c.lng == NamedColumn(headers, LngRole)
    ensures var n := NamedColumn(headers, NotesRole);
      c.notes == if n != "" then n else if |headers| >= 4 then headers[3] else ""
  {
    var named := AssignRoles(headers, Roles(headers));
    var dateColumn, timeColumn, coordsColumn, latColumn, lngColumn, notesColumn := named.date, named.time, named.coords, named.lat, named.lng, named.notes;
    var obsIndex := 0;
    while obsIndex < |headers| && Normalize(headers[obsIndex]) != "obs"
      invariant 0 <= obsIndex <= |headers|
    {
      obsIndex := obsIndex + 1;
    }
    if obsIndex < |headers| && notesColumn == "" {
      // the source assigns `headers[obsIndex]` here, but a header equal to "obs" already has the notes role
      ObsHeaderIsNotes(headers, obsIndex);
      assert false;
    }
    if dateColumn == "" && |headers| >= 1 {
      dateColumn := headers[0];
    }
    if timeColumn == "" && |headers| >= 2 {
      timeColumn := headers[1];
    }
    if coordsColumn == "" && latColumn == "" && |headers| >= 3 {
      coordsColumn := headers[2];
    }
    if notesColumn == "" && |headers| >= 4 {
      notesColumn := headers[3];
    }
    c := Columns(dateColumn, timeColumn, coordsColumn, latColumn, lngColumn, notesColumn);
  }

  /** Rows are accepted only with a date and a time column and either a coordinates column or both latitude and longitude columns. */
  predicate HasValidFormat(c: Columns)
  {
    c.date != "" && c.time != "" && (c.coords != "" || (c.lat != "" && c.lng != ""))
  }

  /** The default header names normalise to plain lower-case words. */
  lemma NormalizeData()
    ensures Normalize("Data") == "data"
  {
    assert ToLower("Data") == "data";
    TrimOfNoOuterSpace("data");
  }

  lemma NormalizeHorario()
    ensures Normalize("Horário") == "horário"
  {
    assert ToLower("Horário") == "horário";
    TrimOfNoOuterSpace("horário");
  }

  lemma NormalizeCoordenadas(h: string)
    requires h == "Coordenadas"
    ensures Normalize(h) == "coordenadas"
  {
    ToLowerByChar(h, "coordenadas");
    TrimOfNoOuterSpace("coordenadas");
  }

  lemma NormalizeObs()
    ensures Normalize("Obs") == "obs"
  {
    assert ToLower("Obs") == "obs";
    TrimOfNoOuterSpace("obs");
  }

  lemma DataIsDateRole(h: string)
    requires h == "data"
    ensures RoleOf(h) == DateRole
  {
    ContainsPrefix(h, "data");
    assert PassesTest(h, 0);
  }

  lemma HorarioIsTimeRole(h: string)
    requires h == "horário"
    ensures RoleOf(h) == TimeRole
  {
    NotContainsByChar(h, "data", 'd');
    NotContainsByChar(h, "date", 'd');
    NotContainsByChar(h, "dia", 'd');
    ContainsPrefix(h, "horário");
    assert !PassesTest(h, 0) && PassesTest(h, 1);
    assert RoleFrom(h, 0) == RoleFrom(h, 1);
  }

  lemma CoordenadasIsCoordsRole(h: string)
    requires h == "coordenadas"
    ensures RoleOf(h) == CoordsRole
  {
    NotContainsByChar(h, "data", 't');
    NotContainsByChar(h, "date", 't');
    NotContainsByChar(h, "dia", 'i');
    NotContainsByChar(h, "hora", 'h');
    NotContainsByChar(h, "time", 't');
    NotContainsByChar(h, "horario", 'h');
    NotContainsByChar(h, "horário", 'h');
    ContainsPrefix(h, "coord");
    assert !PassesTest(h, 0) && !PassesTest(h, 1) && PassesTest(h, 2);
    assert RoleFrom(h, 0) == RoleFrom(h, 1) == RoleFrom(h, 2);
  }

  lemma ObsIsNotesRole(h: string)
    requires h == "obs"
    ensures RoleOf(h) == NotesRole
  {
    NotContainsByChar(h, "data", 'd');
    NotContainsByChar(h, "date", 'd');
    NotContainsByChar(h, "dia", 'd');
    NotContainsByChar(h, "hora", 'h');
    NotContainsByChar(h, "time", 't');
    NotContainsByChar(h, "horario", 'h');
    NotContainsByChar(h, "horário", 'h');
    NotContainsByChar(h, "coord", 'c');
    NotContainsByChar(h, "location", 'l');
    NotContainsByChar(h, "lat", 'l');
    NotContainsByChar(h, "lon", 'l');
    NotContainsByChar(h, "lng", 'l');
    ContainsPrefix(h, "obs");
    assert !PassesTest(h, 0) && !PassesTest(h, 1) && !PassesTest(h, 2);
    assert !PassesTest(h, 3) && !PassesTest(h, 4) && PassesTest(h, 5);
    assert RoleFrom(h, 0) == RoleFrom(h, 1) == RoleFrom(h, 2) == RoleFrom(h, 3) == RoleFrom(h, 4) == RoleFrom(h, 5);
  }

  /** Four headers with those normalised names carry the date, time, coordinates and notes roles. */
  lemma RolesOfDefaultNames(headers: seq<string>)
    requires |headers| == 4
    requires Normalize(headers[0]) == "data" && Normalize(headers[1]) == "horário"
    requires Normalize(headers[2]) == "coordenadas" && Normalize(headers[3]) == "obs"
    ensures Roles(headers) == [DateRole, TimeRole, CoordsRole, NotesRole]
  {
    DataIsDateRole(Normalize(headers[0]));
    HorarioIsTimeRole(Normalize(headers[1]));
    CoordenadasIsCoordsRole(Normalize(headers[2]));
    ObsIsNotesRole(Normalize(headers[3]));
  }

  /** Each default header carries the role its name suggests. */
  lemma DefaultHeaderRoles(headers: seq<string>)
    requires headers == DEFAULT_HEADERS
    ensures Roles(headers) == [DateRole, TimeRole, CoordsRole, NotesRole]
  {
    NormalizeData();
    NormalizeHorario();
    NormalizeCoordenadas(headers[2]);
    NormalizeObs();
    RolesOfDefaultNames(headers);
  }

  /** With the default headers, date, time, coordinates and notes are all found by name, and latitude and longitude are not. */
  lemma DefaultHeadersColumns(headers: seq<string>)
    requires headers == DEFAULT_HEADERS
    ensures NamedColumn(headers, DateRole) == "Data"
    ensures NamedColumn(headers, TimeRole) == "Horário"
    ensures NamedColumn(headers, CoordsRole) == "Coordenadas"
    ensures NamedColumn(headers, NotesRole) == "Obs"
    ensures NamedColumn(headers, LatRole) == "" && NamedColumn(headers, LngRole) == ""
  {
    DefaultHeaderRoles(headers);
    DefaultRolePositions();
  }

  lemma DefaultRolePositions()
    ensures var roles := [DateRole, TimeRole, CoordsRole, NotesRole];
      LastIndexOf(roles, DateRole) == 0 && LastIndexOf(roles, TimeRole) == 1
      && LastIndexOf(roles, CoordsRole) == 2 && LastIndexOf(roles, NotesRole) == 3
      && LastIndexOf(roles, LatRole) == -1 && LastIndexOf(roles, LngRole) == -1
  {
    var r4 := [DateRole, TimeRole, CoordsRole, NotesRole];
    var r3, r2, r1 := r4[..3], r4[..2], r4[..1];
    assert r3 == [DateRole, TimeRole, CoordsRole] && r3[..2] == r2 && r2[..1] == r1 && r1[..0] == [];
    assert LastIndexOf(r4, DateRole) == LastIndexOf(r3, DateRole) == LastIndexOf(r2, DateRole) == LastIndexOf(r1, DateRole) == 0;
    assert LastIndexOf(r4, TimeRole) == LastIndexOf(r3, TimeRole) == 1;
    assert LastIndexOf(r4, LatRole) == LastIndexOf(r3, LatRole) == LastIndexOf(r2, LatRole) == LastIndexOf(r1, LatRole) == -1;
    assert LastIndexOf(r4, LngRole) == LastIndexOf(r3, LngRole) == LastIndexOf(r2, LngRole) == LastIndexOf(r1, LngRole) == -1;
  }

  // ---- date and time decoding (the structured branches of parseDateTime) ----

  datatype HourMinute = HourMinute(hour: int, minute: int)

  /** `^(\d{1,2})[^\d]*(\d{1,2})?`: the last-resort reading of an unrecognised time. */
  function LeadingNumbers(t: string): Option<HourMinute>
  {
    var d := LeadingDigits(t);
    if d == 0 then None
    else
      var h := if d >= 2 then 2 else 1;
      var rest := t[h..];
      var skip := NonDigits(rest);
      var m := LeadingDigits(rest[skip..]);
      var mm := if m >= 2 then 2 else m;
      Some(HourMinute(ParseIntOrZero(t[..h]), if mm == 0 then 0 else ParseIntOrZero(rest[skip..][..mm])))
  }

  function NonDigits(s: string): (k: nat)
    ensures k <= |s| && (k == |s| || IsDigit(s[k]))
  {
    if s != [] && !IsDigit(s[0]) then 1 + NonDigits(s[1..]) else 0
  }

  /**
   * The time rules, in order: "manhã"/"manha" is 08:00, then `HhMM`/`HHhMM`, `HH:MM`
   * and `Hh`/`HHh`; otherwise the engine's reading of `2000-01-01T<time>` (a parameter),
   * then the leading numbers, then noon.
   */
  function DecodeTime(timeStr: string, engineTime: string -> Option<HourMinute>): (r: HourMinute)
    ensures ((timeStr == [] || !IsDigit(timeStr[0])) && ToLower(timeStr) != "manhã" && ToLower(timeStr) != "manha"
             && engineTime(timeStr).None?) ==> r == HourMinute(12, 0)
  {
    var lower := ToLower(timeStr);
    if lower == "manhã" || lower == "manha" then HourMinute(8, 0)
    else if IsHourHMinute(timeStr) then
      var parts := Split(timeStr, 'h');
      HourMinute(ParseIntOrZero(parts[0]), ParseIntOrZero(if |parts| > 1 then parts[1] else ""))
    else if IsHourColonMinute(timeStr) then
      var parts := Split(timeStr, ':');
      HourMinute(ParseIntOrZero(parts[0]), ParseIntOrZero(if |parts| > 1 then parts[1] else ""))
    else if IsHourH(timeStr) then HourMinute(ParseIntOrZero(ReplaceFirst(timeStr, 'h', "")), 0)
    else
      var engine := engineTime(timeStr);
      if engine.Some? then engine.value
      else
        var numbers := LeadingNumbers(timeStr);
        if numbers.Some? then numbers.value else HourMinute(12, 0)
  }

  /** A year read from a date: below 100 it is taken as 2000+y when y < 50 and 1900+y otherwise. */
  function AdjustYear(year: int): (r: int)
    ensures year < 0 ==> r == year + 2000
    ensures 0 <= year < 50 ==> r == 2000 + year
    ensures 50 <= year < 100 ==> r == 1900 + year
    ensures year >= 100 ==> r == year
  {
    if year < 100 then (if year < 50 then year + 2000 else year + 1900) else year
  }

  /**
   * `parseDateTime(dateValue, timeValue)`: `DD/MM/YYYY` and `DD/MM/YY` (with year adjustment),
   * `DD-MM-YYYY` and `YYYY-MM-DD`, each built with `new Date(year, month - 1, day, …)`, so a
   * year of 0 to 99 becomes 1900 to 1999; any other date shape goes to the engine's free-form
   * parse of `"<date> <time>"` or the current time (the parameter `freeForm`).
   */
  function DecodeDateTime(dateValue: string, timeValue: string,
                          engineTime: string -> Option<HourMinute>, freeForm: string -> DateTime): (r: DateTime)
    ensures var d := Trim(dateValue);
      IsSlashDate4(d) || IsSlashDate2(d) || IsDashDate(d) || IsIsoDate(d) ==>
        HourMinute(r.hour, r.minute) == DecodeTime(Trim(timeValue), engineTime)
    ensures var d := Trim(dateValue);
      !(IsSlashDate4(d) || IsSlashDate2(d) || IsDashDate(d) || IsIsoDate(d)) ==> r == freeForm(d + " " + Trim(timeValue))
  {
    var dateStr := Trim(dateValue);
    var timeStr := Trim(timeValue);
    if IsSlashDate4(dateStr) || IsSlashDate2(dateStr) then
      var parts := Split(dateStr, '/');
      var year := AdjustYear(ParseIntOrZero(if |parts| > 2 then parts[2] else ""));
      var hm := DecodeTime(timeStr, engineTime);
      DateTime(JsYear(year), ParseIntOrZero(if |parts| > 1 then parts[1] else "") - 1, ParseIntOrZero(parts[0]), hm.hour, hm.minute)
    else if IsDashDate(dateStr) || IsIsoDate(dateStr) then
      var parts := Split(dateStr, '-');
      var p0, p1, p2 := ParseIntOrZero(parts[0]), ParseIntOrZero(if |parts| > 1 then parts[1] else ""), ParseIntOrZero(if |parts| > 2 then parts[2] else "");
      var hm := DecodeTime(timeStr, engineTime);
      if IsDashDate(dateStr) then DateTime(JsYear(p2), p1 - 1, p0, hm.hour, hm.minute)
      else DateTime(JsYear(p0), p1 - 1, p2, hm.hour, hm.minute)
    else freeForm(dateStr + " " + timeStr)
  }

  /** Two digits for `0 <= n < 100`, with a leading zero when needed. */
  function Pad2(n: int): string
    requires 0 <= n < 100
  {
    [(n / 10 + '0' as int) as char, (n % 10 + '0' as int) as char]
  }

  lemma ParseIntOfDigits(d: string, tail: string)
    requires |d| >= 1 && AllDigits(d)
    requires tail == [] || !IsDigit(tail[0])
    ensures ParseInt(d + tail) == Some(DigitsValue(d) as int)
  {
    TrimStartNoSpace(d + tail);
    LeadingDigitsOfDigits(d, tail);
    assert (d + tail)[..|d|] == d;
    assert Signed(d + tail) == (1, d + tail);
  }

  lemma Pad2Value(n: int)
    requires 0 <= n < 100
    ensures AllDigits(Pad2(n)) && ParseInt(Pad2(n)) == Some(n)
  {
    var p := Pad2(n);
    assert AllDigits(p);
    assert p[..1][..0] == [];
    assert DigitsValue(p[..1]) == n / 10;
    assert DigitsValue(p) == 10 * (n / 10) + n % 10;
    ParseIntOfDigits(p, "");
    assert p + "" == p;
  }

  /** Four digits for `0 <= n < 10000`, with leading zeros when needed. */
  function Pad4(n: int): string
    requires 0 <= n < 10000
  {
    Pad2(n / 100) + Pad2(n % 100)
  }

  lemma Pad4Digits(n: int)
    requires 0 <= n < 10000
    ensures |Pad4(n)| == 4 && AllDigits(Pad4(n)) && DigitsValue(Pad4(n)) == n
  {
    var p := Pad4(n);
    var hi := Pad2(n / 100);
    Pad2Value(n / 100);
    Pad2Value(n % 100);
    assert AllDigits(p);
    assert p[..3][..2] == hi && p[..2] == hi;
    assert DigitsValue(hi) == n / 100 by { ParseIntOfDigits(hi, ""); assert hi + "" == hi; }
    assert DigitsValue(p[..3]) == 10 * (n / 100) + (n % 100) / 10;
  }

  lemma Pad4Value(n: int)
    requires 0 <= n < 10000
    ensures |Pad4(n)| == 4 && AllDigits(Pad4(n)) && ParseInt(Pad4(n)) == Some(n)
  {
    var p := Pad4(n);
    Pad4Digits(n);
    ParseIntOfDigits(p, "");
    assert p + "" == p;
  }

  /** "manhã" and "manha", in any letter case, are read as 08:00. */
  lemma MorningWordIsEight(timeStr: string, engineTime: string -> Option<HourMinute>)
    requires ToLower(timeStr) == "manhã" || ToLower(timeStr) == "manha"
    ensures DecodeTime(timeStr, engineTime) == HourMinute(8, 0)
  {
  }

  /** A time starting with a digit is not one of the morning words. */
  lemma NotMorningWord(t: string)
    requires t != [] && IsDigit(t[0])
    ensures ToLower(t) != "manhã" && ToLower(t) != "manha"
  {
    ToLowerMeaning(t);
    assert ToLower(t)[0] == t[0];
  }

  /** `HHhMM` is read back as that hour and minute. */
  lemma HourHMinuteRoundTrip(h: int, m: int, engineTime: string -> Option<HourMinute>)
    requires 0 <= h < 100 && 0 <= m < 100
    ensures DecodeTime(Pad2(h) + "h" + Pad2(m), engineTime) == HourMinute(h, m)
  {
    Pad2Value(h);
    Pad2Value(m);
    var a, b := Pad2(h), Pad2(m);
    var t := a + "h" + b;
    NotMorningWord(t);
    assert IsHourHMinute(t);
    assert Join([a, b], 'h') == t;
    SplitJoin([a, b], 'h');
  }

  /** `HH:MM` is read back as that hour and minute. */
  lemma HourColonMinuteRoundTrip(h: int, m: int, engineTime: string -> Option<HourMinute>)
    requires 0 <= h < 100 && 0 <= m < 100
    ensures DecodeTime(Pad2(h) + ":" + Pad2(m), engineTime) == HourMinute(h, m)
  {
    Pad2Value(h);
    Pad2Value(m);
    var a, b := Pad2(h), Pad2(m);
    var t := a + ":" + b;
    NotMorningWord(t);
    assert !IsHourHMinute(t) && IsHourColonMinute(t);
    assert Join([a, b], ':') == t;
    SplitJoin([a, b], ':');
  }

  /** `HHh` is read back as that hour, minute 0. */
  lemma HourOnlyRoundTrip(h: int, engineTime: string -> Option<HourMinute>)
    requires 0 <= h < 100
    ensures DecodeTime(Pad2(h) + "h", engineTime) == HourMinute(h, 0)
  {
    Pad2Value(h);
    var a := Pad2(h);
    var t := a + "h";
    NotMorningWord(t);
    assert !IsHourHMinute(t) && !IsHourColonMinute(t) && IsHourH(t);
    assert IndexOf(t, 'h') == 2;
    assert ReplaceFirst(t, 'h', "") == a;
  }

  /** `DD/MM/YY` written with two-digit fields is its own trim, has the two-digit-year shape and splits into its fields. */
  lemma SlashDate2Shape(d: int, mo: int, y: int)
    requires 0 <= d < 100 && 0 <= mo < 100 && 0 <= y < 100
    ensures var s := Pad2(d) + "/" + Pad2(mo) + "/" + Pad2(y);
      Trim(s) == s && IsSlashDate2(s) && !IsSlashDate4(s) && Split(s, '/') == [Pad2(d), Pad2(mo), Pad2(y)]
  {
    var s := Pad2(d) + "/" + Pad2(mo) + "/" + Pad2(y);
    SplitThree(Pad2(d), Pad2(mo), Pad2(y), '/');
    assert s == [Pad2(d)[0], Pad2(d)[1], '/', Pad2(mo)[0], Pad2(mo)[1], '/', Pad2(y)[0], Pad2(y)[1]];
    TrimOfNoOuterSpace(s);
  }

  /** `DD/MM/YY` dates: day and month as written (month 0-based), year 2000+YY below 50 and 1900+YY from 50. */
  lemma TwoDigitYearDate(d: int, mo: int, y: int, timeStr: string, engineTime: string -> Option<HourMinute>, freeForm: string -> DateTime)
    requires 0 <= d < 100 && 0 <= mo < 100 && 0 <= y < 100
    requires Trim(timeStr) == timeStr
    ensures var dt := DecodeDateTime(Pad2(d) + "/" + Pad2(mo) + "/" + Pad2(y), timeStr, engineTime, freeForm);
      dt.day == d && dt.month == mo - 1 && dt.year == (if y < 50 then 2000 + y else 1900 + y)
      && HourMinute(dt.hour, dt.minute) == DecodeTime(timeStr, engineTime)
  {
    Pad2Value(d);
    Pad2Value(mo);
    Pad2Value(y);
    SlashDate2Shape(d, mo, y);
  }
  /** A padded `DD/MM/YYYY` is trimmed, matches the four-digit-year shape and splits into its three fields. */
  lemma SlashDate4Shape(d: int, mo: int, y: int)
    requires 0 <= d < 100 && 0 <= mo < 100 && 0 <= y < 10000
    ensures var s := Pad2(d) + "/" + Pad2(mo) + "/" + Pad4(y);
      Trim(s) == s && IsSlashDate4(s) && Split(s, '/') == [Pad2(d), Pad2(mo), Pad4(y)]
  {
    var a, b, c := Pad2(d), Pad2(mo), Pad4(y);
    var s := a + "/" + b + "/" + c;
    Pad4Value(y);
    SplitThree(a, b, c, '/');
    assert s == [a[0], a[1], '/', b[0], b[1], '/', c[0], c[1], c[2], c[3]];
    TrimOfNoOuterSpace(s);
  }

  /** A padded `DD-MM-YYYY` is trimmed, matches only the dashed day-first shape and splits into its three fields. */
  lemma DashDateShape(d: int, mo: int, y: int)
    requires 0 <= d < 100 && 0 <= mo < 100 && 0 <= y < 10000
    ensures var s := Pad2(d) + "-" + Pad2(mo) + "-" + Pad4(y);
      Trim(s) == s && IsDashDate(s) && !IsSlashDate4(s) && !IsSlashDate2(s)
      && Split(s, '-') == [Pad2(d), Pad2(mo), Pad4(y)]
  {
    var a, b, c := Pad2(d), Pad2(mo), Pad4(y);
    var s := a + "-" + b + "-" + c;
    Pad4Value(y);
    SplitThree(a, b, c, '-');
    assert s == [a[0], a[1], '-', b[0], b[1], '-', c[0], c[1], c[2], c[3]];
    TrimOfNoOuterSpace(s);
  }

  /** A padded `YYYY-MM-DD` is trimmed, matches only the year-first shape and splits into its three fields. */
  lemma IsoDateShape(y: int, mo: int, d: int)
    requires 0 <= d < 100 && 0 <= mo < 100 && 0 <= y < 10000
    ensures var s := Pad4(y) + "-" + Pad2(mo) + "-" + Pad2(d);
      Trim(s) == s && IsIsoDate(s) && !IsDashDate(s) && !IsSlashDate4(s) && !IsSlashDate2(s)
      && Split(s, '-') == [Pad4(y), Pad2(mo), Pad2(d)]
  {
    var a, b, c := Pad4(y), Pad2(mo), Pad2(d);
    var s := a + "-" + b + "-" + c;
    Pad4Value(y);
    SplitThree(a, b, c, '-');
    assert s == [a[0], a[1], a[2], a[3], '-', b[0], b[1], '-', c[0], c[1]];
    assert IsDigit(s[2]);
    TrimOfNoOuterSpace(s);
  }

  /**
   * `DD/MM/YYYY` keeps the day and the 0-based month; a year written as 0 to 49 becomes
   * 2000 to 2049 and 50 to 99 becomes 1950 to 1999, and other years stay; the time is
   * decoded as `DecodeTime` reads it.
   */
  lemma FourDigitYearDate(d: int, mo: int, y: int, timeStr: string, engineTime: string -> Option<HourMinute>, freeForm: string -> DateTime)
    requires 0 <= d < 100 && 0 <= mo < 100 && 0 <= y < 10000
    requires Trim(timeStr) == timeStr
    ensures var hm := DecodeTime(timeStr, engineTime);
      DecodeDateTime(Pad2(d) + "/" + Pad2(mo) + "/" + Pad4(y), timeStr, engineTime, freeForm)
        == DateTime(if y < 50 then 2000 + y else if y < 100 then 1900 + y else y, mo - 1, d, hm.hour, hm.minute)
  {
    Pad2Value(d);
    Pad2Value(mo);
    Pad4Value(y);
    SlashDate4Shape(d, mo, y);
  }

  /** `DD-MM-YYYY` keeps the day and the 0-based month, and a year written as 0 to 99 becomes 1900 to 1999. */
  lemma DashDayFirstDate(d: int, mo: int, y: int, timeStr: string, engineTime: string -> Option<HourMinute>, freeForm: string -> DateTime)
    requires 0 <= d < 100 && 0 <= mo < 100 && 0 <= y < 10000
    requires Trim(timeStr) == timeStr
    ensures var hm := DecodeTime(timeStr, engineTime);
      DecodeDateTime(Pad2(d) + "-" + Pad2(mo) + "-" + Pad4(y), timeStr, engineTime, freeForm)
        == DateTime(if y < 100 then 1900 + y else y, mo - 1, d, hm.hour, hm.minute)
  {
    Pad2Value(d);
    Pad2Value(mo);
    Pad4Value(y);
    DashDateShape(d, mo, y);
  }

  /** `YYYY-MM-DD` keeps the day and the 0-based month, and a year written as 0 to 99 becomes 1900 to 1999. */
  lemma YearFirstDate(y: int, mo: int, d: int, timeStr: string, engineTime: string -> Option<HourMinute>, freeForm: string -> DateTime)
    requires 0 <= d < 100 && 0 <= mo < 100 && 0 <= y < 10000
    requires Trim(timeStr) == timeStr
    ensures var hm := DecodeTime(timeStr, engineTime);
      DecodeDateTime(Pad4(y) + "-" + Pad2(mo) + "-" + Pad2(d), timeStr, engineTime, freeForm)
        == DateTime(if y < 100 then 1900 + y else y, mo - 1, d, hm.hour, hm.minute)
  {
    Pad2Value(d);
    Pad2Value(mo);
    Pad4Value(y);
    IsoDateShape(y, mo, d);
  }


  // ---- rows ----

  /** A spreadsheet row: cell text by header; a missing cell reads as "". */
  function Cell(row: map<string, string>, column: string): string
  {
    if column in row then row[column] else ""
  }

  datatype RowResult = ImportedRow(sighting: Sighting) | RowError

  /** The combined coordinate cell, trimmed, in the `"lat, lng"` form. */
  function CombinedCoordinates(cell: string): (r: Option<(real, real)>)
    ensures r.Some? ==> |Split(Trim(cell), ',')| == 2
  {
    LatLngPair(Trim(cell))
  }

  /** The `forEach` callback for one row: an error, or a sighting whose id is `now + index`. */
  function ProcessRow(row: map<string, string>, index: nat, c: Columns, now: int,
                      engineTime: string -> Option<HourMinute>, freeForm: string -> DateTime): RowResult
  {
    var dateValue, timeValue := Cell(row, c.date), Cell(row, c.time);
    if dateValue == "" || timeValue == "" then RowError
    else
      var coords :=
        if c.coords != "" then CombinedCoordinates(Cell(row, c.coords))
        else if c.lat != "" && c.lng != "" then
          var lat, lng := ParseFloat(Cell(row, c.lat)), ParseFloat(Cell(row, c.lng));
          if lat.Some? && lng.Some? then Some((lat.value, lng.value)) else None
        else None;
      if coords.None? then RowError
      else
        var notes := if c.notes != "" then Trim(Cell(row, c.notes)) else "";
        var dt := DecodeDateTime(dateValue, timeValue, engineTime, freeForm);
        ImportedRow(Sighting(now + index, dt, coords.value.0, coords.value.1, notes))
  }

  /** Empty date or time cells make a row an error, whatever else it holds. */
  lemma EmptyDateOrTimeIsError(row: map<string, string>, index: nat, c: Columns, now: int,
                               engineTime: string -> Option<HourMinute>, freeForm: string -> DateTime)
    requires Cell(row, c.date) == "" || Cell(row, c.time) == ""
    ensures ProcessRow(row, index, c, now, engineTime, freeForm) == RowError
  {
  }

  /** A combined coordinate cell written as `lat,lng` from two integers is read as latitude then longitude. */
  lemma CombinedCoordinatesOfIntegers(lat: int, lng: int)
    ensures CombinedCoordinates(IntToString(lat) + "," + IntToString(lng)) == Some((lat as real, lng as real))
  {
    var a, b := IntToString(lat), IntToString(lng);
    var s := a + "," + b;
    IntToStringChars(lat);
    IntToStringChars(lng);
    assert s[0] == a[0] && s[|s| - 1] == b[|b| - 1];
    TrimOfNoOuterSpace(s);
    LatLngPairOfIntegers(lat, lng);
  }

  /** The `forEach` callback for the given columns, clock reading and date decoders. */
  function RowStep(c: Columns, now: int, engineTime: string -> Option<HourMinute>, freeForm: string -> DateTime)
    : (step: (map<string, string>, nat) -> RowResult)
    ensures forall row, index :: step(row, index) == ProcessRow(row, index, c, now, engineTime, freeForm)
  {
    (row: map<string, string>, index: nat) => ProcessRow(row, index, c, now, engineTime, freeForm)
  }

  /** The sightings the rows produce through `step`, in row order; rows that are errors produce none. */
  function ImportedRows(data: seq<map<string, string>>, step: (map<string, string>, nat) -> RowResult): (r: seq<Sighting>)
    ensures |r| <= |data|
  {
    if data == [] then []
    else
      var k := |data| - 1;
      var outcome := step(data[k], k);
      ImportedRows(data[..k], step) + (if outcome.ImportedRow? then [outcome.sighting] else [])
  }

  datatype ImportOutcome =
    | NoData
    | UnrecognisedFormat
    | NothingImported(errorsCount: nat)
    | Completed(sightings: seq<Sighting>, importedCount: nat, errorsCount: nat)

  /** The `forEach` over the rows: each row is imported or counted as an error. */
  method ImportRows(data: seq<map<string, string>>, step: (map<string, string>, nat) -> RowResult)
    returns (importedSightings: seq<Sighting>, errorsCount: nat)
    ensures importedSightings == ImportedRows(data, step)
    ensures |importedSightings| + errorsCount == |data|
  {
    importedSightings := [];
    errorsCount := 0;
    var index := 0;
    while index < |data|
      invariant 0 <= index <= |data|
      invariant importedSightings == ImportedRows(data[..index], step)
      invariant |importedSightings| + errorsCount == index
    {
      assert data[..index + 1][..index] == data[..index];
      var r := step(data[index], index);
      if r.ImportedRow? {
        importedSightings := importedSightings + [r.sighting];
      } else {
        errorsCount := errorsCount + 1;
      }
      index := index + 1;
    }
    assert data[..|data|] == data;
  }

  /**
   * `processImportedData`: empty data and an unrecognised layout stop early; otherwise every
   * row is imported or counted as an error, and when something was imported the result is
   * the existing sightings followed by the imported ones, sorted by timestamp.
   */
  method ProcessImportedData(data: seq<map<string, string>>, headers: seq<string>, sightings: seq<Sighting>, now: int,
                             engineTime: string -> Option<HourMinute>, freeForm: string -> DateTime)
    returns (outcome: ImportOutcome, columns: Columns)
    ensures data == [] ==> outcome == NoData
    ensures data != [] && !HasValidFormat(columns) ==> outcome == UnrecognisedFormat
    ensures data != [] && HasValidFormat(columns) ==>
      var imported := ImportedRows(data, RowStep(columns, now, engineTime, freeForm));
      if imported == [] then outcome == NothingImported(|data|)
      else outcome == Completed(SortByTimestamp(sightings + imported), |imported|, |data| - |imported|)
    ensures outcome.Completed? ==> outcome.importedCount + outcome.errorsCount == |data| && outcome.importedCount > 0
    ensures outcome.NothingImported? ==> outcome.errorsCount == |data|
  {
    columns := ClassifyColumns(headers);
    outcome := ImportClassified(data, columns, sightings, RowStep(columns, now, engineTime, freeForm));
  }

  /** The part of `processImportedData` after the columns are known; `step` handles one row. */
  method ImportClassified(data: seq<map<string, string>>, columns: Columns, sightings: seq<Sighting>,
                          step: (map<string, string>, nat) -> RowResult)
    returns (outcome: ImportOutcome)
    ensures data == [] ==> outcome == NoData
    ensures data != [] && !HasValidFormat(columns) ==> outcome == UnrecognisedFormat
    ensures data != [] && HasValidFormat(columns) ==>
      var imported := ImportedRows(data, step);
      if imported == [] then outcome == NothingImported(|data|)
      else outcome == Completed(SortByTimestamp(sightings + imported), |imported|, |data| - |imported|)
    ensures outcome.Completed? ==> outcome.importedCount + outcome.errorsCount == |data| && outcome.importedCount > 0
    ensures outcome.NothingImported? ==> outcome.errorsCount == |data|
  {
    if data == [] {
      return NoData;
    }
    if !HasValidFormat(columns) {
      return UnrecognisedFormat;
    }
    var importedSightings, errorsCount := ImportRows(data, step);
    if importedSightings != [] {
      outcome := Completed(SortByTimestamp(sightings + importedSightings), |importedSightings|, errorsCount);
    } else {
      outcome := NothingImported(errorsCount);
    }
  }

  /** The merged list holds exactly the existing and the imported sightings, in ascending timestamp order. */
  lemma MergedListIsSortedUnion(existing: seq<Sighting>, imported: seq<Sighting>)
    ensures multiset(SortByTimestamp(existing + imported)) == multiset(existing) + multiset(imported)
    ensures SortedByTimestamp(SortByTimestamp(existing + imported))
  {
    SortedMeaning(SortByTimestamp(existing + imported));
  }
}
