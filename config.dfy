/** The application constants: the preset time-of-day windows and the file-processing defaults. */
module Config {
  import opened Text

  /** A preset window as configured: it starts on the hour and ends at `endHour:endMinute`. */
  datatype TimeFilter = TimeFilter(startHour: int, endHour: int, endMinute: int, crossesMidnight: bool)

  const MORNING := TimeFilter(6, 11, 59, false)
  const AFTERNOON := TimeFilter(12, 17, 59, false)
  const EVENING := TimeFilter(18, 22, 59, false)
  const NIGHT := TimeFilter(23, 5, 59, true)

  /** Column names used when a spreadsheet has no header row. */
  const DEFAULT_HEADERS: seq<string> := ["Data", "Horário", "Coordenadas", "Obs"]

  const CSV_PREVIEW_ROWS := 5

  /** `s[i..i+n]` consists of decimal digits. */
  predicate DigitsAt(s: string, i: nat, n: nat)
  {
    i + n <= |s| && forall k :: i <= k < i + n ==> IsDigit(s[k])
  }

  /** `^\d{2}/\d{2}/\d{4}$` */
  predicate IsSlashDate4(s: string)
  {
    |s| == 10 && DigitsAt(s, 0, 2) && s[2] == '/' && DigitsAt(s, 3, 2) && s[5] == '/' && DigitsAt(s, 6, 4)
  }

  /** `^\d{2}/\d{2}/\d{2}$` */
  predicate IsSlashDate2(s: string)
  {
    |s| == 8 && DigitsAt(s, 0, 2) && s[2] == '/' && DigitsAt(s, 3, 2) && s[5] == '/' && DigitsAt(s, 6, 2)
  }

  /** `^\d{2}-\d{2}-\d{4}$` */
  predicate IsDashDate(s: string)
  {
    |s| == 10 && DigitsAt(s, 0, 2) && s[2] == '-' && DigitsAt(s, 3, 2) && s[5] == '-' && DigitsAt(s, 6, 4)
  }

  /** `^\d{4}-\d{2}-\d{2}$` */
  predicate IsIsoDate(s: string)
  {
    |s| == 10 && DigitsAt(s, 0, 4) && s[4] == '-' && DigitsAt(s, 5, 2) && s[7] == '-' && DigitsAt(s, 8, 2)
  }

  /** `DATE_PATTERNS[index].test(s)`, for the four patterns in their configured order. */
  predicate MatchesDatePattern(index: nat, s: string)
  {
    match index
    case 0 => IsSlashDate4(s)
    case 1 => IsSlashDate2(s)
    case 2 => IsDashDate(s)
    case 3 => IsIsoDate(s)
    case _ => false
  }

  /** `^\d{1,2}h\d{2}$` */
  predicate IsHourHMinute(s: string)
  {
    (|s| == 4 && DigitsAt(s, 0, 1) && s[1] == 'h' && DigitsAt(s, 2, 2))
    || (|s| == 5 && DigitsAt(s, 0, 2) && s[2] == 'h' && DigitsAt(s, 3, 2))
  }

  /** `^\d{1,2}h$` */
  predicate IsHourH(s: string)
  {
    (|s| == 2 && DigitsAt(s, 0, 1) && s[1] == 'h') || (|s| == 3 && DigitsAt(s, 0, 2) && s[2] == 'h')
  }

  /** `^\d{2}:\d{2}$` */
  predicate IsHourColonMinute(s: string)
  {
    |s| == 5 && DigitsAt(s, 0, 2) && s[2] == ':' && DigitsAt(s, 3, 2)
  }

  /** A string matches at most one of the four date shapes. */
  lemma DatePatternsExclusive(s: string, i: nat, j: nat)
    requires MatchesDatePattern(i, s) && MatchesDatePattern(j, s)
    ensures i == j
  {
  }

  /** A string matches at most one of the three time shapes. */
  lemma TimePatternsExclusive(s: string)
    ensures !(IsHourHMinute(s) && IsHourH(s))
    ensures !(IsHourHMinute(s) && IsHourColonMinute(s))
    ensures !(IsHourH(s) && IsHourColonMinute(s))
  {
  }
}
