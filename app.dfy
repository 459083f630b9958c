/**
 * The application's state: every sighting, the filtered mirror the map and the timeline
 * show, and whether filters are active. Each handler reassigns the two lists and then
 * refreshes the views, which passes the flag on to the filter panel.
 */
module App {
  import opened Wrappers
  import opened Text
  import opened DateTimes
  import opened Sightings
  import opened Filters
  import opened SpreadsheetImport

  /** What the sighting form's submit handler did. */
  datatype SubmitOutcome =
    | MissingFields
    | NotCoordinates
    | InvalidCoordinates
    | Added(passesFilter: bool)

  /**
   * The location field: text with a comma, read in the `"lat, lng"` form. `None` when it
   * has no comma or is not two numbers.
   */
  function LocationCoordinates(location: string): (r: Option<(real, real)>)
    ensures r.Some? ==> Contains(location, ",")
  {
    if Contains(location, ",") then LatLngPair(location) else None
  }

  /** A location with no comma is never read as coordinates. */
  lemma NoCommaNoCoordinates(location: string)
    requires ',' !in location
    ensures LocationCoordinates(location) == None
  {
    NotContainsByChar(location, ",", ',');
  }

  /** A location typed as two integers separated by a comma is read as latitude then longitude. */
  lemma IntegerLocation(lat: int, lng: int)
    ensures LocationCoordinates(IntToString(lat) + "," + IntToString(lng)) == Some((lat as real, lng as real))
  {
    var s := IntToString(lat) + "," + IntToString(lng);
    assert OccursAt(s, ",", |IntToString(lat)|);
    LatLngPairOfIntegers(lat, lng);
  }

  /** Adding a sighting to the list, and to the mirror or not, keeps the mirror inside the list. */
  lemma MirrorInsideAfterAdd(f0: seq<Sighting>, s0: seq<Sighting>, f: seq<Sighting>, s: seq<Sighting>, added: Sighting)
    requires forall x :: x in f0 ==> x in s0
    requires multiset(s) == multiset(s0) + multiset{added}
    requires f == f0 || f == s || multiset(f) == multiset(f0) + multiset{added}
    ensures forall x :: x in f ==> x in s
  {
    forall x | x in f ensures x in s {
      if f != s {
        assert x in multiset(f);
        assert x in f0 || x == added;
        assert x in multiset(s0) || x == added;
        assert x in multiset(s);
      }
    }
  }

  class AppState {
    var sightings: seq<Sighting>
    var filteredSightings: seq<Sighting>
    var activeFilters: bool
    const filters: FilterState

    /**
     * The filter panel knows whether filters are active; without filters the mirror is the
     * whole list; the mirror never holds a sighting the list does not.
     */
    predicate Valid()
      reads this, filters
    {
      filters.activeFilters == activeFilters
      && (!activeFilters ==> filteredSightings == sightings)
      && forall s :: s in filteredSightings ==> s in sightings
    }

    /** `loadData` at start-up: the stored sightings, all shown, no filters. */
    constructor(stored: seq<Sighting>)
      ensures Valid()
      ensures sightings == stored && filteredSightings == stored && !activeFilters
    {
      sightings := stored;
      filteredSightings := stored;
      activeFilters := false;
      filters := new FilterState();
    }

    /** `updateVisualizations`: the views are redrawn and the filter panel is told the flag. */
    method UpdateVisualizations()
      modifies filters
      ensures filters.activeFilters == activeFilters
    {
      filters.SetActiveFilters(activeFilters);
    }

    /**
     * The part of `handleSightingFormSubmit` after the form is read: the sighting joins the
     * list, which is kept in timestamp order; with filters active it joins the mirror only if
     * it passes them (kept in order too), and without filters the mirror becomes a copy of
     * the list.
     */
    method AddSighting(added: Sighting, form: FilterForm) returns (passesFilter: bool)
      requires Valid()
      modifies this, filters
      ensures Valid()
      ensures activeFilters == old(activeFilters)
      ensures multiset(sightings) == multiset(old(sightings)) + multiset{added}
      ensures SortedByTimestamp(sightings)
      ensures activeFilters && passesFilter ==>
        multiset(filteredSightings) == multiset(old(filteredSightings)) + multiset{added}
        && SortedByTimestamp(filteredSightings)
      ensures activeFilters && !passesFilter ==> filteredSightings == old(filteredSightings)
      ensures (activeFilters && !NoFilter(form) && ValidClock(Clock(added.dateTime.hour, added.dateTime.minute))
               && FormClocksValid(form)) ==> (passesFilter <==> Keeps(form, added))
      ensures !activeFilters ==> filteredSightings == sightings && passesFilter
    {
      sightings := SortByTimestamp(sightings + [added]);
      SortedMeaning(sightings);
      passesFilter := true;
      if activeFilters {
        passesFilter := filters.CheckIfPassesCurrentFilters(form, added);
        if passesFilter {
          filteredSightings := SortByTimestamp(filteredSightings + [added]);
          SortedMeaning(filteredSightings);
        }
      } else {
        filteredSightings := sightings;
      }
      MirrorInsideAfterAdd(old(filteredSightings), old(sightings), filteredSightings, sightings, added);
      UpdateVisualizations();
    }

    /**
     * `handleSightingFormSubmit`. `dateTime` is the date-time field (`None` when empty) and
     * `now` the clock reading that becomes the new id. Empty fields and a location that is
     * not `"lat, lng"` change nothing; otherwise the sighting read from the form is added.
     */
    method HandleSightingFormSubmit(dateTime: Option<DateTime>, location: string, notes: string, now: int, form: FilterForm)
      returns (outcome: SubmitOutcome, added: Sighting)
      requires Valid()
      modifies this, filters
      ensures Valid()
      ensures activeFilters == old(activeFilters)
      ensures dateTime.None? || location == "" ==> outcome == MissingFields
      ensures dateTime.Some? && location != "" && !Contains(location, ",") ==> outcome == NotCoordinates
      ensures dateTime.Some? && location != "" && Contains(location, ",") && LocationCoordinates(location).None? ==>
        outcome == InvalidCoordinates
      ensures dateTime.Some? && location != "" && LocationCoordinates(location).Some? ==> outcome.Added?
      ensures !outcome.Added? ==> sightings == old(sightings) && filteredSightings == old(filteredSightings)
      ensures outcome.Added? ==>
        dateTime.Some? && LocationCoordinates(location).Some?
        && added == Sighting(now, dateTime.value, LocationCoordinates(location).value.0,
                             LocationCoordinates(location).value.1, notes)
      ensures outcome.Added? ==>
        multiset(sightings) == multiset(old(sightings)) + multiset{added} && SortedByTimestamp(sightings)
      ensures outcome.Added? && activeFilters && outcome.passesFilter ==>
        multiset(filteredSightings) == multiset(old(filteredSightings)) + multiset{added}
        && SortedByTimestamp(filteredSightings)
      ensures outcome.Added? && activeFilters && !outcome.passesFilter ==> filteredSightings == old(filteredSightings)
      ensures (outcome.Added? && activeFilters && !NoFilter(form)
               && ValidClock(Clock(added.dateTime.hour, added.dateTime.minute)) && FormClocksValid(form)) ==>
        (outcome.passesFilter <==> Keeps(form, added))
      ensures outcome.Added? && !activeFilters ==> filteredSightings == sightings && outcome.passesFilter
    {
      added := Sighting(now, DateTime(0, 0, 0, 0, 0), 0.0, 0.0, notes);
      if dateTime.None? || location == "" {
        return MissingFields, added;
      }
      if !Contains(location, ",") {
        return NotCoordinates, added;
      }
      var coords := LocationCoordinates(location);
      if coords.None? {
        return InvalidCoordinates, added;
      }
      added := Sighting(now, dateTime.value, coords.value.0, coords.value.1, notes);
      var passesFilter := AddSighting(added, form);
      outcome := Added(passesFilter);
    }

    /**
     * `handleImportComplete`: only a completed import reaches it. The list becomes the
     * merged list and the mirror is refiltered, or is a copy of the list when filters are off.
     */
    method HandleImportComplete(result: ImportOutcome, form: FilterForm)
      requires Valid()
      modifies this, filters
      ensures Valid()
      ensures activeFilters == old(activeFilters)
      ensures !result.Completed? ==> sightings == old(sightings) && filteredSightings == old(filteredSightings)
      ensures result.Completed? ==> sightings == result.sightings
      ensures result.Completed? && activeFilters ==>
        filteredSightings == ApplyFilters(result.sightings, form).filteredSightings
      ensures result.Completed? && !activeFilters ==> filteredSightings == result.sightings
    {
      if !result.Completed? {
        return;
      }
      sightings := result.sightings;
      if activeFilters {
        var filterResult := ApplyFilters(sightings, form);
        filteredSightings := filterResult.filteredSightings;
      } else {
        filteredSightings := sightings;
      }
      UpdateVisualizations();
    }

    /** `handleDeleteSighting`: once confirmed, the id leaves both lists and nothing else changes. */
    method HandleDeleteSighting(id: int, confirmed: bool)
      requires Valid()
      modifies this, filters
      ensures Valid()
      ensures activeFilters == old(activeFilters)
      ensures !confirmed ==> sightings == old(sightings) && filteredSightings == old(filteredSightings)
      ensures confirmed ==> sightings == WithoutId(old(sightings), id)
      ensures confirmed ==> filteredSightings == WithoutId(old(filteredSightings), id)
      ensures confirmed ==> forall s :: s in sightings <==> s in old(sightings) && s.id != id
    {
      if confirmed {
        sightings := WithoutId(sightings, id);
        filteredSightings := WithoutId(filteredSightings, id);
        UpdateVisualizations();
      }
    }

    /** `handleResetData`: once confirmed, both lists are emptied and the filters are cleared. */
    method HandleResetData(confirmed: bool)
      requires Valid()
      modifies this, filters
      ensures Valid()
      ensures !confirmed ==>
        sightings == old(sightings) && filteredSightings == old(filteredSightings) && activeFilters == old(activeFilters)
      ensures confirmed ==> sightings == [] && filteredSightings == [] && !activeFilters
    {
      if confirmed {
        sightings := [];
        filteredSightings := [];
        var result := ClearFilters([]);
        activeFilters := result.1.activeFilters;
        UpdateVisualizations();
      }
    }

    /** The "apply filters" button: the mirror and the flag come from filtering the whole list. */
    method ApplyFilterButton(form: FilterForm)
      requires Valid()
      modifies this, filters
      ensures Valid()
      ensures sightings == old(sightings)
      ensures var r := ApplyFilters(old(sightings), form);
        filteredSightings == r.filteredSightings && activeFilters == r.activeFilters
      ensures activeFilters <==> !NoFilter(form)
      ensures forall s :: s in filteredSightings <==> s in sightings && (NoFilter(form) || Keeps(form, s))
    {
      var result := ApplyFilters(sightings, form);
      filteredSightings := result.filteredSightings;
      activeFilters := result.activeFilters;
      UpdateVisualizations();
    }

    /** The "clear filters" button: everything is shown and the flag is off. */
    method ClearFilterButton()
      requires Valid()
      modifies this, filters
      ensures Valid()
      ensures sightings == old(sightings)
      ensures filteredSightings == sightings && !activeFilters
    {
      var result := ClearFilters(sightings);
      filteredSightings := result.1.filteredSightings;
      activeFilters := result.1.activeFilters;
      UpdateVisualizations();
    }
  }
}
