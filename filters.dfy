/**
 * Date-range and time-of-day filtering of sightings. `ApplyFilters` is the list filter
 * behind the "apply" button; `FilterState.CheckIfPassesCurrentFilters` re-implements the
 * same rule for one new sighting while filters are active.
 */
module Filters {
  import opened Wrappers
  import opened DateTimes
  import opened Config
  import opened Sightings

  /** A value of an `<input type="time">`, already read as hour and minute. */
  datatype Clock = Clock(hour: int, minute: int)

  predicate ValidClock(c: Clock)
  {
    0 <= c.hour < 24 && 0 <= c.minute < 60
  }

  /** The five filter inputs; `None` is an empty field. */
  datatype FilterForm = FilterForm(
    dateStart: Option<Day>,
    dateEnd: Option<Day>,
    timeType: string,
    timeStart: Option<Clock>,
    timeEnd: Option<Clock>)

  const EmptyForm := FilterForm(None, None, "all", None, None)

  predicate FormClocksValid(form: FilterForm)
  {
    (form.timeStart.Some? ==> ValidClock(form.timeStart.value))
    && (form.timeEnd.Some? ==> ValidClock(form.timeEnd.value))
  }

  datatype FilterResult = FilterResult(filteredSightings: seq<Sighting>, activeFilters: bool)

  /** The time window `applyFilters` derives from the form. */
  datatype Window = Window(startHour: int, startMinute: int, endHour: int, endMinute: int, crossesMidnight: bool)

  /** Nothing to filter by: no dates and the type "all". */
  predicate NoFilter(form: FilterForm)
  {
    form.dateStart.None? && form.dateEnd.None? && form.timeType == "all"
  }

  predicate IsCustomWithTimes(form: FilterForm)
  {
    form.timeType == "custom" && form.timeStart.Some? && form.timeEnd.Some?
  }

  /** Lexicographic order on (hour, minute). */
  predicate ClockBefore(a: Clock, b: Clock)
  {
    a.hour < b.hour || (a.hour == b.hour && a.minute < b.minute)
  }

  function WindowFor(form: FilterForm): Window
  {
    if form.timeType == "morning" then Window(MORNING.startHour, 0, MORNING.endHour, MORNING.endMinute, false)
    else if form.timeType == "afternoon" then Window(AFTERNOON.startHour, 0, AFTERNOON.endHour, AFTERNOON.endMinute, false)
    else if form.timeType == "evening" then Window(EVENING.startHour, 0, EVENING.endHour, EVENING.endMinute, false)
    else if form.timeType == "night" then Window(NIGHT.startHour, 0, NIGHT.endHour, NIGHT.endMinute, NIGHT.crossesMidnight)
    else if IsCustomWithTimes(form) then
      var s, e := form.timeStart.value, form.timeEnd.value;
      Window(s.hour, s.minute, e.hour, e.minute, ClockBefore(e, s))
    else Window(0, 0, 23, 59, false)
  }

  /** The hour/minute test of the `filter` callback. */
  predicate KeepsTime(w: Window, hour: int, minute: int)
  {
    if w.crossesMidnight then
      hour < w.endHour || (hour == w.endHour && minute <= w.endMinute)
      || hour > w.startHour || (hour == w.startHour && minute >= w.startMinute)
    else
      w.startHour * 60 + w.startMinute <= hour * 60 + minute <= w.endHour * 60 + w.endMinute
  }

  /** The date bounds: not before the start day's midnight, not after the end day's 23:59:59.999. */
  predicate WithinDates(form: FilterForm, dt: DateTime)
  {
    (form.dateStart.Some? ==> !(Timestamp(dt) < Timestamp(StartOfDay(form.dateStart.value))))
    && (form.dateEnd.Some? ==> !(Timestamp(dt) > Timestamp(EndOfDay(form.dateEnd.value))))
  }

  /** Whether `applyFilters` keeps a sighting. */
  predicate Keeps(form: FilterForm, s: Sighting)
  {
    WithinDates(form, s.dateTime)
    && (form.timeType == "all" || KeepsTime(WindowFor(form), s.dateTime.hour, s.dateTime.minute))
  }

  /** `sightings.filter(...)` with the callback `Keeps(form, _)`. */
  function FilterSightings(sightings: seq<Sighting>, form: FilterForm): (r: seq<Sighting>)
    ensures |r| <= |sightings|
    ensures forall s :: s in r <==> s in sightings && Keeps(form, s)
  {
    if sightings == [] then []
    else if Keeps(form, sightings[0]) then [sightings[0]] + FilterSightings(sightings[1..], form)
    else FilterSightings(sightings[1..], form)
  }

  function ApplyFilters(sightings: seq<Sighting>, form: FilterForm): (r: FilterResult)
    ensures NoFilter(form) ==> r == FilterResult(sightings, false)
    ensures !NoFilter(form) ==> r.activeFilters
    ensures forall s :: s in r.filteredSightings <==> s in sightings && (NoFilter(form) || Keeps(form, s))
  {
    if NoFilter(form) then FilterResult(sightings, false)
    else FilterResult(FilterSightings(sightings, form), true)
  }

  /** Filtering keeps the input order: it distributes over concatenation. */
  lemma {:induction false} FilterPreservesOrder(a: seq<Sighting>, b: seq<Sighting>, form: FilterForm)
    ensures FilterSightings(a + b, form) == FilterSightings(a, form) + FilterSightings(b, form)
  {
    if a == [] {
      assert a + b == b;
    } else {
      assert (a + b)[0] == a[0] && (a + b)[1..] == a[1..] + b;
      FilterPreservesOrder(a[1..], b, form);
    }
  }

  /** `filteredSightings` is a subsequence of the input: one of its elements is dropped or kept at each position. */
  lemma {:induction false} FilterIsSubsequence(sightings: seq<Sighting>, form: FilterForm)
    ensures IsSubsequence(FilterSightings(sightings, form), sightings)
  {
    if sightings != [] {
      FilterIsSubsequence(sightings[1..], form);
    }
  }

  predicate IsSubsequence(sub: seq<Sighting>, s: seq<Sighting>)
  {
    if sub == [] then true
    else if s == [] then false
    else if sub[0] == s[0] then IsSubsequence(sub[1..], s[1..])
    else IsSubsequence(sub, s[1..])
  }

  /** With the type "all" only the date bounds are applied. */
  lemma {:induction false} AllTypeFiltersByDateOnly(sightings: seq<Sighting>, form: FilterForm)
    requires form.timeType == "all"
    ensures forall s :: s in ApplyFilters(sightings, form).filteredSightings <==> s in sightings && WithinDates(form, s.dateTime)
  {
  }

  /** The end date bound covers the whole end day: an in-range instant passes it iff its day is not after the end day. */
  lemma EndDateIncludesWholeDay(dt: DateTime, end: Day)
    requires InRange(dt) && InRange(EndOfDay(end))
    ensures !(Timestamp(dt) > Timestamp(EndOfDay(end))) <==>
      dt.year < end.year || (dt.year == end.year && (dt.month < end.month || (dt.month == end.month && dt.day <= end.day)))
  {
    TimestampOrder(EndOfDay(end), dt);
  }

  /** The start date bound begins at midnight: an in-range instant passes it iff its day is not before the start day. */
  lemma StartDateFromMidnight(dt: DateTime, start: Day)
    requires InRange(dt) && InRange(StartOfDay(start))
    ensures !(Timestamp(dt) < Timestamp(StartOfDay(start))) <==>
      dt.year > start.year || (dt.year == start.year && (dt.month > start.month || (dt.month == start.month && dt.day >= start.day)))
  {
    TimestampOrder(dt, StartOfDay(start));
  }

  // ---- the date bounds as the code builds them, at a UTC offset ----

  /** The UTC time value of a sighting's local date and time, `offset` minutes east of UTC. */
  function SightingInstant(offset: int, dt: DateTime): int
  {
    EpochMillis(dt) - offset * MS_PER_MINUTE
  }

  /** `new Date("YYYY-MM-DD")`: a date-only string is read as UTC midnight. */
  function StartBoundAsWritten(d: Day): int
  {
    MakeDay(d.year, d.month, d.day) * MS_PER_DAY
  }

  /**
   * `setHours(23, 59, 59, 999)` on that UTC midnight: the last millisecond of the local day the
   * instant falls on, which west of UTC is the day before.
   */
  function EndBoundAsWritten(offset: int, d: Day): int
  {
    var localDay := (MakeDay(d.year, d.month, d.day) * 1440 + offset) / 1440;
    (localDay + 1) * MS_PER_DAY - 1 - offset * MS_PER_MINUTE
  }

  /** The date test of `applyFilters` as written, with its bounds and the sighting compared as UTC instants. */
  predicate WithinDatesAsWritten(offset: int, form: FilterForm, dt: DateTime)
  {
    (form.dateStart.Some? ==> !(SightingInstant(offset, dt) < StartBoundAsWritten(form.dateStart.value)))
    && (form.dateEnd.Some? ==> !(SightingInstant(offset, dt) > EndBoundAsWritten(offset, form.dateEnd.value)))
  }

  /** At UTC the bounds as written are exactly the whole-day bounds of `WithinDates`. */
  lemma AsWrittenAtUtc(form: FilterForm, dt: DateTime)
    requires ValidDate(dt)
    requires form.dateStart.Some? ==> ValidDate(StartOfDay(form.dateStart.value))
    requires form.dateEnd.Some? ==> ValidDate(EndOfDay(form.dateEnd.value))
    ensures WithinDatesAsWritten(0, form, dt) <==> WithinDates(form, dt)
  {
    if form.dateStart.Some? {
      var d := form.dateStart.value;
      assert StartBoundAsWritten(d) == EpochMillis(StartOfDay(d));
      TimestampAgreesWithEpoch(dt, StartOfDay(d));
    }
    if form.dateEnd.Some? {
      var d := form.dateEnd.value;
      var e := EndOfDay(d);
      DivModUnique(MakeDay(d.year, d.month, d.day) * 1440, 1440, MakeDay(d.year, d.month, d.day), 0);
      assert EndBoundAsWritten(0, d) == EpochMillis(e) + MS_PER_MINUTE - 1;
      assert EpochMillis(dt) > EpochMillis(e) + MS_PER_MINUTE - 1 <==> EpochMinutes(dt) > EpochMinutes(e);
      TimestampAgreesWithEpoch(e, dt);
    }
  }

  /** In Porto Alegre (UTC-3) a sighting at 10:00 on the end date fails the end bound as written. */
  lemma EndDayDroppedWestOfUtc()
    ensures var form := FilterForm(None, Some(Day(2024, 4, 10)), "all", None, None);
      var dt := DateTime(2024, 4, 10, 10, 0);
      WithinDates(form, dt) && !WithinDatesAsWritten(-180, form, dt)
  {
    var d := Day(2024, 4, 10);
    var k := MakeDay(d.year, d.month, d.day);
    DivModUnique(k * 1440 - 180, 1440, k - 1, 1260);
    assert EndBoundAsWritten(-180, d) == k * MS_PER_DAY - 1 + 180 * MS_PER_MINUTE;
  }

  /** In Porto Alegre (UTC-3) a sighting at 22:00 the evening before the start date passes the start bound as written. */
  lemma EveningBeforeStartKeptWestOfUtc()
    ensures var form := FilterForm(Some(Day(2024, 4, 10)), None, "all", None, None);
      var dt := DateTime(2024, 4, 9, 22, 0);
      !WithinDates(form, dt) && WithinDatesAsWritten(-180, form, dt)
  {
  }

  /** Without a recognised type, or a custom type missing a time, the window is 00:00-23:59 and lets every clock time through. */
  lemma DefaultWindowKeepsEveryTime(form: FilterForm, hour: int, minute: int)
    requires form.timeType !in {"morning", "afternoon", "evening", "night"} && !IsCustomWithTimes(form)
    requires ValidClock(Clock(hour, minute))
    ensures WindowFor(form) == Window(0, 0, 23, 59, false)
    ensures KeepsTime(WindowFor(form), hour, minute)
  {
  }

  /** A custom window crosses midnight iff its end is before its start. */
  lemma CustomCrossesMidnight(form: FilterForm)
    requires IsCustomWithTimes(form)
    ensures WindowFor(form).crossesMidnight <==>
      var s, e := form.timeStart.value, form.timeEnd.value;
      e.hour < s.hour || (e.hour == s.hour && e.minute < s.minute)
  {
  }

  function MinuteOfDay(hour: int, minute: int): int
  {
    hour * 60 + minute
  }

  /** `hour < h || (hour == h && minute <= m)` is `hour:minute <= h:m` on minutes of the day. */
  lemma ClockCompare(hour: int, minute: int, h: int, m: int)
    requires 0 <= minute < 60 && 0 <= m < 60
    ensures (hour < h || (hour == h && minute <= m)) <==> MinuteOfDay(hour, minute) <= MinuteOfDay(h, m)
    ensures (hour > h || (hour == h && minute >= m)) <==> MinuteOfDay(hour, minute) >= MinuteOfDay(h, m)
  {
    MixedRadix(hour, minute, h, m, 60);
    MixedRadix(h, m, hour, minute, 60);
  }

  /**
   * What a window keeps, on minutes of the day: the range from start to end, or, for a
   * window that crosses midnight, everything from the start onwards and up to the end.
   */
  lemma {:induction false} KeepsTimeMeaning(w: Window, hour: int, minute: int)
    requires 0 <= minute < 60 && 0 <= w.startMinute < 60 && 0 <= w.endMinute < 60
    ensures var t, s, e := MinuteOfDay(hour, minute), MinuteOfDay(w.startHour, w.startMinute), MinuteOfDay(w.endHour, w.endMinute);
      KeepsTime(w, hour, minute) <==> if w.crossesMidnight then t >= s || t <= e else s <= t <= e
  {
    ClockCompare(hour, minute, w.endHour, w.endMinute);
    ClockCompare(hour, minute, w.startHour, w.startMinute);
  }

  function PresetForm(timeType: string): FilterForm
  {
    FilterForm(None, None, timeType, None, None)
  }

  /** The four presets on minutes of the day: morning 06:00-11:59, afternoon 12:00-17:59, evening 18:00-22:59, night 23:00-05:59. */
  lemma {:induction false} PresetWindows(hour: int, minute: int)
    requires ValidClock(Clock(hour, minute))
    ensures var t := MinuteOfDay(hour, minute);
      && (KeepsTime(WindowFor(PresetForm("morning")), hour, minute) <==> 360 <= t <= 719)
      && (KeepsTime(WindowFor(PresetForm("afternoon")), hour, minute) <==> 720 <= t <= 1079)
      && (KeepsTime(WindowFor(PresetForm("evening")), hour, minute) <==> 1080 <= t <= 1379)
      && (KeepsTime(WindowFor(PresetForm("night")), hour, minute) <==> t >= 1380 || t <= 359)
      && WindowFor(PresetForm("night")).crossesMidnight
  {
    KeepsTimeMeaning(WindowFor(PresetForm("morning")), hour, minute);
    KeepsTimeMeaning(WindowFor(PresetForm("afternoon")), hour, minute);
    KeepsTimeMeaning(WindowFor(PresetForm("evening")), hour, minute);
    KeepsTimeMeaning(WindowFor(PresetForm("night")), hour, minute);
  }

  /** Each minute of the day lies in exactly one of the four preset windows. */
  lemma {:induction false} PresetsPartitionDay(hour: int, minute: int)
    requires ValidClock(Clock(hour, minute))
    ensures var m, a, e, n :=
        KeepsTime(WindowFor(PresetForm("morning")), hour, minute),
        KeepsTime(WindowFor(PresetForm("afternoon")), hour, minute),
        KeepsTime(WindowFor(PresetForm("evening")), hour, minute),
        KeepsTime(WindowFor(PresetForm("night")), hour, minute);
      (m || a || e || n) && !(m && a) && !(m && e) && !(m && n) && !(a && e) && !(a && n) && !(e && n)
  {
    PresetWindows(hour, minute);
  }

  /** Clearing resets the form; applying the cleared form then returns the list unchanged, with filters inactive. */
  function ClearFilters(sightings: seq<Sighting>): (r: (FilterForm, FilterResult))
    ensures NoFilter(r.0)
    ensures r.1 == ApplyFilters(sightings, r.0)
    ensures r.1 == FilterResult(sightings, false)
  {
    (EmptyForm, FilterResult(sightings, false))
  }

  /** The module-level `activeFilters` flag and the one-sighting check that reads it. */
  class FilterState {
    var activeFilters: bool

    constructor()
      ensures !activeFilters
    {
      activeFilters := false;
    }

    method SetActiveFilters(state: bool)
      modifies this
      ensures activeFilters == state
    {
      activeFilters := state;
    }

    function GetActiveFilters(): (r: bool)
      reads this
      ensures r == activeFilters
    {
      activeFilters
    }

    /**
     * `checkIfPassesCurrentFilters`: true while filters are inactive or empty; otherwise, for a
     * real clock time and valid time inputs, it agrees with the `applyFilters` callback.
     */
    method CheckIfPassesCurrentFilters(form: FilterForm, s: Sighting) returns (passes: bool)
      ensures !activeFilters ==> passes
      ensures NoFilter(form) ==> passes
      ensures activeFilters && !NoFilter(form) && ValidClock(Clock(s.dateTime.hour, s.dateTime.minute)) && FormClocksValid(form) ==>
        (passes <==> Keeps(form, s))
    {
      if !activeFilters {
        return true;
      }
      if NoFilter(form) {
        return true;
      }
      var dt := s.dateTime;
      var passesFilter := true;
      if form.dateStart.Some? || form.dateEnd.Some? {
        if form.dateStart.Some? {
          if Timestamp(dt) < Timestamp(StartOfDay(form.dateStart.value)) {
            passesFilter := false;
          }
        }
        if form.dateEnd.Some? && passesFilter {
          if Timestamp(dt) > Timestamp(EndOfDay(form.dateEnd.value)) {
            passesFilter := false;
          }
        }
      }
      assert passesFilter == WithinDates(form, dt);
      if passesFilter && form.timeType != "all" {
        passesFilter := PassesTimeOfDay(form, dt.hour, dt.minute);
      }
      return passesFilter;
    }
  }

  /** The time-of-day part of `checkIfPassesCurrentFilters`, for a type other than "all". */
  method PassesTimeOfDay(form: FilterForm, hour: int, minute: int) returns (passesFilter: bool)
    requires form.timeType != "all"
    ensures ValidClock(Clock(hour, minute)) && FormClocksValid(form) ==>
      (passesFilter <==> KeepsTime(WindowFor(form), hour, minute))
  {
    passesFilter := true;
    if form.timeType == "morning" {
      if hour < MORNING.startHour || hour > MORNING.endHour || (hour == MORNING.endHour && minute > MORNING.endMinute) {
        passesFilter := false;
      }
    } else if form.timeType == "afternoon" {
      if hour < AFTERNOON.startHour || hour > AFTERNOON.endHour || (hour == AFTERNOON.endHour && minute > AFTERNOON.endMinute) {
        passesFilter := false;
      }
    } else if form.timeType == "evening" {
      if hour < EVENING.startHour || hour > EVENING.endHour || (hour == EVENING.endHour && minute > EVENING.endMinute) {
        passesFilter := false;
      }
    } else if form.timeType == "night" {
      if NIGHT.crossesMidnight {
        if hour > NIGHT.endHour && hour < NIGHT.startHour {
          passesFilter := false;
        } else if hour == NIGHT.endHour && minute > NIGHT.endMinute {
          passesFilter := false;
        }
      } else {
        if hour < NIGHT.startHour || hour > NIGHT.endHour || (hour == NIGHT.endHour && minute > NIGHT.endMinute) {
          passesFilter := false;
        }
      }
    } else if form.timeType == "custom" {
      if form.timeStart.Some? && form.timeEnd.Some? {
        var st, en := form.timeStart.value, form.timeEnd.value;
        var timeValue := hour * 60 + minute;
        var startValue := st.hour * 60 + st.minute;
        var endValue := en.hour * 60 + en.minute;
        var crossesMidnight := en.hour < st.hour || (en.hour == st.hour && en.minute < st.minute);
        if crossesMidnight {
          if !(timeValue >= startValue || timeValue <= endValue) {
            passesFilter := false;
          }
        } else if timeValue < startValue || timeValue > endValue {
          passesFilter := false;
        }
        if ValidClock(Clock(hour, minute)) && FormClocksValid(form) {
          KeepsTimeMeaning(WindowFor(form), hour, minute);
        }
      }
    }
  }
}
