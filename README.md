# findTheDog, modelled in Dafny

findTheDog is a set of browser map applications built to help find a lost dog in Porto
Alegre. Volunteers record sightings (date, time, place, notes) and import them from
spreadsheets and CSV files. The apps filter the sightings by date and time of day, draw them
as routes, and suggest a search area from the route. Further layers can be drawn over the
map: KML and GeoJSON files, "pontos específicos" (geofences) and circular buffers.

This project models the deterministic rules under the DOM and Leaflet calls, one Dafny
module per source file, and proves what those rules promise:

- `filters.dfy`, `config.dfy`: the preset time windows (they partition the day), the
  date and time-of-day filter as an order-preserving subsequence, windows that cross
  midnight, and the agreement of the two filter implementations.
- `spreadsheet_import.dfy`, `data_module.dfy`, `route_manager.dfy`: header roles, date and time
  decoding, coordinate cells, the row accounting and the merged sorted list, CSV delimiter
  and header detection, grouping by date with 1..n numbering, the route dictionary, and the
  save and load projections of routes.
- `utilities.dfy`, `sightings.dfy`, `app.dfy`: column lookup, the stored-sighting filter,
  and the sighting list with its filtered mirror.
- `old_script.dfy`, `script.dfy`, `addresses.dfy`, `search_area.dfy`: the two versions of the
  sighting map. The first keeps exactly one initial sighting. Both build the route order,
  the address labels, the search radius, the general direction and the route length.
- `kml_loader.dfy`, `import_module.dfy`, `geofence.dfy`, `buffer.dfy`, `route_renderer.dfy`:
  the layer tables and their file checks, per-item visibility, the two-click buffer tool,
  and the colour cycling of rendered routes.
- `wrappers.dfy`, `text.dfy`, `js_numbers.dfy`, `sorting.dfy`, `datetimes.dfy`, `json.dfy`: the
  JavaScript built-ins the rules rely on. These are `split`/`join`/`trim`/`toLowerCase` (ASCII and Latin-1 letters),
  `parseInt`/`parseFloat` (with `None` for `NaN`), the stable `Array.prototype.sort`
  (`NaN` comparisons count as ties), a date as a (year, month, day, hour, minute) tuple
  with the time value `Date` gives it (ECMAScript's `DayFromYear`/`MakeDay` day count),
  and a parsed JSON value (a repeated key keeps its last value).

Objects the source changes in place are classes with `modifies` clauses: the filter state,
the app's lists, the CSV route store, the sighting logs and the layer tables. Each method
states its whole new state. Loops in the source are `while` loops proved against a
specification function. Leaflet layers and GeoJSON geometries are integer handles. Map
distances, the `atan2` angle, `Date.now`, `Math.random`, `JSON.stringify`/`JSON.parse` of
geometries, `confirm` dialogs and the presence of the map are all parameters.

## Model

| member | source | states |
|---|---|---|
| Config.DatePatternsExclusive | js/config.js:70-75 | a date text matches at most one of the four configured date shapes (DD/MM/YYYY, DD/MM/YY, DD-MM-YYYY, YYYY-MM-DD) |
| Config.TimePatternsExclusive | js/config.js:76-80 | the three time shapes `HHhMM`, `HHh` and `HH:MM` exclude one another |
| Filters.PresetWindows | js/config.js:29-55 | on minutes of the day, morning keeps 06:00-11:59, afternoon 12:00-17:59, evening 18:00-22:59 and night 23:00-05:59, and night is flagged as crossing midnight |
| Filters.PresetsPartitionDay | js/config.js:29-55 | every minute of the day lies in exactly one of the four preset windows |
| Filters.FilterSightings | js/filters.js:196-226 | the filtered list holds exactly the input sightings the callback keeps, and is no longer than the input |
| Filters.ApplyFilters | js/filters.js:106-256 | with no dates and type "all" the input comes back unchanged with filters inactive; otherwise filters are active and the list holds exactly the sightings that pass the date bounds and the time window |
| Filters.FilterPreservesOrder | js/filters.js:196-226 | filtering distributes over concatenation, so the input order is kept |
| Filters.FilterIsSubsequence | js/filters.js:196-226 | the filtered list is a subsequence of the input |
| Filters.AllTypeFiltersByDateOnly | js/filters.js:199-204 | with type "all" a sighting is kept iff it lies within the date bounds |
| Filters.EndDateIncludesWholeDay | js/filters.js:150-153 | after the end date is moved to 23:59:59.999, an instant passes the end bound iff its day is not after the end day |
| Filters.StartDateFromMidnight | js/filters.js:147-200 | an instant passes the start bound iff its day is not before the start day |
| Filters.AsWrittenAtUtc | js/filters.js:147-201 | at a UTC offset of zero, the bounds as the code builds them (a date-only string read as UTC midnight, then `setHours` in local time) accept exactly the sightings of the whole-day bounds |
| Filters.EndDayDroppedWestOfUtc | js/filters.js:148-201 | in UTC-3 a sighting at 10:00 on the end date passes the whole-day end bound but fails the end bound as written |
| Filters.EveningBeforeStartKeptWestOfUtc | js/filters.js:147-200 | in UTC-3 a sighting at 22:00 the evening before the start date fails the whole-day start bound but passes the start bound as written |
| Filters.DefaultWindowKeepsEveryTime | js/filters.js:155-193 | without a recognised type, or a custom type missing a time, the window is 00:00-23:59 and keeps every clock time |
| Filters.CustomCrossesMidnight | js/filters.js:180-193 | a custom window crosses midnight iff its end (hour, minute) is lexicographically before its start |
| Filters.ClockCompare | js/filters.js:210-217 | the hour-then-minute comparisons of the wrapping test are comparisons of minutes of the day |
| Filters.KeepsTimeMeaning | js/filters.js:209-225 | a window keeps minute t iff start <= t <= end, or, when it crosses midnight, iff t >= start or t <= end |
| Filters.ClearFilters | js/filters.js:263-322 | clearing gives the empty form, applying that form gives the input unchanged, and filters are inactive |
| Filters.FilterState.constructor | js/filters.js:6 | filters start inactive |
| Filters.FilterState.SetActiveFilters | js/filters.js:501-503 | the flag becomes the given state |
| Filters.FilterState.GetActiveFilters | js/filters.js:509-511 | returns the flag |
| Filters.FilterState.CheckIfPassesCurrentFilters | js/filters.js:352-495 | true while filters are inactive or the form is empty; otherwise, for a valid clock time and valid time inputs, true iff the `applyFilters` callback keeps the sighting |
| Filters.PassesTimeOfDay | js/filters.js:401-488 | for a type other than "all", a valid clock time and valid time inputs, the sighting passes iff its hour and minute lie in the preset or custom window the form names (both directions) |
| DateTimes.TimestampOrder | js/app.js:221 | for in-range dates and times, the minute timestamp orders them as the calendar does |
| DateTimes.YearLength | old/script.js:839-840 | January 1 of the next year is 366 days later after a leap year (divisible by 4, and by 400 when divisible by 100) and 365 days otherwise, as `new Date` counts days |
| DateTimes.MonthTable | old/script.js:839-840 | the days before each month add up the month lengths (February 29 days in a leap year, 28 otherwise), and the twelve months fill the year |
| DateTimes.DayNumberOrder | old/script.js:836-838 | for dates that exist in the calendar, day numbers are ordered by year, month and day, and equal exactly for the same day |
| DateTimes.NextDayIsOneDayLater | old/script.js:839-840 | the same clock time on the next calendar day, across month and year ends, is a valid date exactly 86 400 000 ms later |
| DateTimes.EpochOrder | old/script.js:836-838 | for dates that exist in the calendar, one time value is smaller than another iff its date and time come first in calendar order |
| DateTimes.TimestampAgreesWithEpoch | js/app.js:221 | for dates that exist in the calendar, comparing minute ranks gives the same answer as comparing `Date` time values |
| Utilities.FindColumn | js/utilities.js:115-126 | `None` iff no lower-cased header contains any candidate; otherwise the header returned contains the first candidate found in any header, and it is the first header containing it |
| Utilities.ValidItems | js/utilities.js:162-175 | the kept items are exactly the stored items that are objects with `lat`, `lng`, `dateTime` and `id` |
| Utilities.ValidItemsConcat | js/utilities.js:164-175 | the validation filter distributes over concatenation, so items keep their stored order |
| Utilities.LoadData | js/utilities.js:149-182 | [] when nothing is stored, when the text does not parse or when it is not an array; otherwise the valid items in order |
| Sightings.SortByTimestamp | js/app.js:228 | the sorted list is a permutation of the input, in ascending timestamp order |
| Sightings.SortedMeaning | js/app.js:228 | ascending by the sort key is ascending by timestamp between every pair of positions |
| Sightings.WithoutId | js/app.js:332 | the result holds exactly the sightings whose id differs |
| Sightings.LatLngPair | js/app.js:192-199 | a pair is read only from text of exactly two comma-separated parts, both numeric once trimmed, latitude first |
| Sightings.LatLngPairOfIntegers | js/app.js:192-198 | `"lat,lng"` written from two integers reads back as latitude then longitude |
| Sightings.LatLngPairRejects | js/app.js:196-205 | a location with other than two parts, or a part that is not a number, gives no pair |
| App.LocationCoordinates | js/app.js:192-212 | coordinates are read only from text containing a comma, in the `"lat, lng"` form |
| App.NoCommaNoCoordinates | js/app.js:206-212 | a location without a comma is never read as coordinates |
| App.IntegerLocation | js/app.js:192-198 | two integers separated by a comma read back as latitude then longitude |
| App.MirrorInsideAfterAdd | js/app.js:225-245 | every way the submit handler updates the mirror keeps it inside the list |
| App.AppState.constructor | js/app.js:131-133 | starts with the stored sightings, all of them shown, filters inactive |
| App.AppState.UpdateVisualizations | js/app.js:148-166 | the filter panel's flag becomes the application's flag |
| App.AppState.AddSighting | js/app.js:224-245 | the list gains the sighting and stays sorted by timestamp; with filters it joins the sorted mirror exactly when it passes them (agreeing with `applyFilters`), otherwise the mirror is the list |
| App.AppState.HandleSightingFormSubmit | js/app.js:172-272 | empty fields and a location that is not `"lat, lng"` change nothing and say why; otherwise the sighting with id `now` joins the list as `AddSighting` states; a form with a date and time and a readable `"lat, lng"` location is always added |
| App.AppState.HandleImportComplete | js/app.js:278-298 | no result changes nothing; otherwise the list is the imported list and the mirror is it refiltered, or a copy when filters are off |
| App.AppState.HandleDeleteSighting | js/app.js:329-345 | once confirmed, the id leaves both lists and every other sighting stays |
| App.AppState.HandleResetData | js/app.js:350-366 | once confirmed, both lists are empty and filters are inactive |
| App.AppState.ApplyFilterButton | js/app.js:104-111 | the list is unchanged; the mirror and the flag are those `applyFilters` gives for the list |
| App.AppState.ClearFilterButton | js/app.js:113-120 | the list is unchanged, the mirror is all of it and filters are inactive |
| SpreadsheetImport.EmptyHeaderHasNoRole | js/import.js:385-421 | an empty header matches none of the role tests |
| SpreadsheetImport.Roles | js/import.js:385-421 | each header gets the role of the first test in the chain date, time, coords, lat, lng, notes that its normalised name passes |
| SpreadsheetImport.LastIndexOfMeaning | js/import.js:385-421 | the column given a role is at a position holding that role with none after it (a later header overwrites), and there is none iff no header holds it |
| SpreadsheetImport.NamedColumnFound | js/import.js:385-421 | a role found by name is never the falsy empty value, and it is empty iff no header has that role |
| SpreadsheetImport.ObsHeaderIsNotes | js/import.js:423-427 | a header equal to "obs" already gives the notes column, so the explicit `obs` look-up never changes it |
| SpreadsheetImport.AssignRoles | js/import.js:385-421 | after the loop each column variable names the last header holding its role, or is null |
| SpreadsheetImport.ClassifyColumns | js/import.js:371-441 | a role found by name wins; otherwise date is header 0, time header 1, coordinates header 2 (only when no latitude column was found either) and notes header 3, when the table is that wide |
| SpreadsheetImport.RolesOfDefaultNames | js/import.js:389-419 | headers normalised to "data", "horário", "coordenadas" and "obs" have the date, time, coordinates and notes roles |
| SpreadsheetImport.DefaultHeaderRoles | js/config.js:68 | the default headers carry the date, time, coordinates and notes roles in that order |
| SpreadsheetImport.DefaultHeadersColumns | js/import.js:385-427 | with the default headers, "Data", "Horário", "Coordenadas" and "Obs" are found by name and no latitude or longitude column is |
| SpreadsheetImport.AdjustYear | js/import.js:666-669 | a year y below 50 becomes 2000+y, from 50 to 99 it becomes 1900+y, and from 100 on it is kept |
| SpreadsheetImport.MorningWordIsEight | js/import.js:678-682 | "manhã" or "manha", in any letter case, is read as 08:00 |
| SpreadsheetImport.NotMorningWord | js/import.js:678-683 | a time starting with a digit is not a morning word, so it reaches the digit shapes |
| SpreadsheetImport.HourHMinuteRoundTrip | js/import.js:683-687 | `HHhMM` is read back as that hour and minute |
| SpreadsheetImport.HourColonMinuteRoundTrip | js/import.js:688-692 | `HH:MM` is read back as that hour and minute |
| SpreadsheetImport.HourOnlyRoundTrip | js/import.js:693-695 | `HHh` is read back as that hour with minute 0 |
| SpreadsheetImport.SlashDate2Shape | js/import.js:659-663 | a `DD/MM/YY` date written with two-digit fields is already trimmed, has only the two-digit-year shape and splits into its three fields |
| SpreadsheetImport.SlashDate4Shape | js/import.js:659-663 | a `DD/MM/YYYY` date written with padded fields is already trimmed, has the four-digit-year shape and splits into its three fields |
| SpreadsheetImport.DashDateShape | js/import.js:720-729 | a `DD-MM-YYYY` date written with padded fields is already trimmed, has only the day-first dashed shape and splits at the dashes into its three fields |
| SpreadsheetImport.IsoDateShape | js/import.js:720-735 | a `YYYY-MM-DD` date written with padded fields is already trimmed, has only the year-first shape and splits at the dashes into its three fields |
| SpreadsheetImport.DecodeTime | js/import.js:674-716 | a time that starts with no digit, is not the morning word and that the engine cannot read is taken as noon |
| SpreadsheetImport.DecodeDateTime | js/import.js:651-809 | for the four structured date shapes the hour and minute are those the time rules give; any other date shape is the engine's free-form reading of `"<date> <time>"` |
| SpreadsheetImport.FourDigitYearDate | js/import.js:659-719 | `DD/MM/YYYY` keeps day and month (0-based), takes 2000+y below 50, 1900+y from 50 to 99 and y from 100 on, with the time decoded as the time rules say |
| SpreadsheetImport.DashDayFirstDate | js/import.js:720-780 | `DD-MM-YYYY` keeps day and month (0-based), and `new Date` reads a year of 0 to 99 as 1900 to 1999 |
| SpreadsheetImport.YearFirstDate | js/import.js:720-780 | `YYYY-MM-DD` keeps day and month (0-based), and `new Date` reads a year of 0 to 99 as 1900 to 1999 |
| DateTimes.JsYear | js/import.js:780 | `new Date(year, …)` reads a year of 0 to 99 as 1900 to 1999 and keeps every other year |
| SpreadsheetImport.TwoDigitYearDate | js/import.js:659-780 | a `DD/MM/YY` date keeps day and month (0-based), takes 2000+YY below 50 and 1900+YY from 50, with the time decoded as the time rules say |
| SpreadsheetImport.CombinedCoordinates | js/import.js:480-497 | a combined cell gives coordinates only when, trimmed, it splits at commas into exactly two parts |
| SpreadsheetImport.EmptyDateOrTimeIsError | js/import.js:472-475 | a row whose date or time cell is empty is an error, whatever else it holds |
| SpreadsheetImport.CombinedCoordinatesOfIntegers | js/import.js:480-493 | a cell written as `lat,lng` from two integers is read as latitude then longitude |
| SpreadsheetImport.ImportedRows | js/import.js:465-543 | rows produce at most one sighting each |
| SpreadsheetImport.ImportRows | js/import.js:462-543 | the imported sightings are those of the rows that are not errors, in row order, and imported plus errors equals the number of rows |
| SpreadsheetImport.ProcessImportedData | js/import.js:351-573 | no data and an unrecognised layout stop early; otherwise every row is imported or counted, and when something was imported the result is the existing and imported sightings sorted by timestamp, with the counts adding up to the number of rows |
| SpreadsheetImport.MergedListIsSortedUnion | js/import.js:549-551 | the merged list holds exactly the existing and the imported sightings, in ascending timestamp order |
| DataModule.DetectDelimiterMeaning | dataModule.js:28-42 | the delimiter is `;` iff one of the first five lines holds a semicolon, and `,` otherwise |
| DataModule.SplitLines | dataModule.js:58 | the lines are as many as the `\n`-separated parts and none holds a `\n` |
| DataModule.HeaderStart | dataModule.js:63-71 | at most the first line is skipped as a header |
| DataModule.ColumnsOf | dataModule.js:82 | a line has one column per delimiter-separated part |
| DataModule.CloseAt | dataModule.js:108 | the lazy bracket match ends at the first `]`, with no line terminator before it |
| DataModule.RemoveQuotes | dataModule.js:139 | no single or double quote is left |
| DataModule.ReadCoordinates | dataModule.js:120-135 | the plain form needs a fourth column and rebuilds the line as five columns, keeping the longitude column fourth |
| DataModule.BracketedIntegers | dataModule.js:105-118 | a third column `[lat, lng]` of two integers is read as that latitude and longitude, columns unchanged |
| DataModule.ReadBracketed | dataModule.js:106-117 | a third column holding both brackets is read from the text the bracket pattern captures |
| DataModule.SkippedLines | dataModule.js:78-179 | blank lines, lines of fewer than three columns, unreadable coordinates and dates without three `/` parts give no point |
| DataModule.ParsedPointShape | dataModule.js:175-214 | a parsed point keeps the line's time text and its index from the start line, has the datetime of its date and time, is unnumbered, and its date has three `/` parts |
| DataModule.ClockOfHourMinute | dataModule.js:181-190 | `HHhMM` and `HH:MM` give that hour and minute |
| DataModule.ClockOfHourOnly | dataModule.js:189-190 | an hour on its own gives minute 0 |
| DataModule.ClockDefaults | dataModule.js:189-190 | an unreadable hour reads as 0, and a missing or unreadable minute as 0 |
| DataModule.StampOfDate | dataModule.js:175-192 | a `D/M/YYYY` date with a year past 99 is that day, that month 0-based and that year, at the time's hour and minute |
| DataModule.GroupedMeaning | dataModule.js:201-215 | grouping gives one entry per date, holding exactly that date's points in line order |
| DataModule.AddNewDate | dataModule.js:202-204 | a point with a date not seen before opens a new group at the end |
| DataModule.AddKnownDate | dataModule.js:206-214 | a point with a known date joins the end of that date's group |
| DataModule.GroupedTotal | dataModule.js:201-215 | every point lands in exactly one group: the group sizes add up to the number of points |
| DataModule.FinishAll | dataModule.js:227-245 | the second loop keeps the number of groups |
| DataModule.FinishedMeaning | dataModule.js:227-235 | a finished group has the same points (numbers aside), numbered 1 to n in order, in datetime order when every point has a valid date |
| DataModule.FinishedGroupsMeaning | dataModule.js:201-245 | after both loops each group holds exactly its date's points, numbered and sorted as above |
| DataModule.ParsedGroupsMeaning | dataModule.js:45-252 | a parsed file has one group per date of its points, each finished as above, and the group sizes add up to the number of points |
| DataModule.ParseCSVData | dataModule.js:45-252 | the method gives the groups of its specification |
| DataModule.GroupLines | dataModule.js:77-215 | the line loop gives the grouping of the points of the lines after the header |
| DataModule.SortAndNumber | dataModule.js:227-245 | the group loop sorts and numbers every group |
| DataModule.NumberPoints | dataModule.js:232-234 | point i gets number i+1 and is otherwise unchanged |
| DataModule.NewRoutesMeaning | dataModule.js:302-331 | each new route belongs to a date with points, is visible, has a palette colour, the file name and the id `fileName-date-now`; there are at most as many as dates |
| DataModule.RouteIndex | dataModule.js:357 | the position found holds the id and no earlier route does; -1 means no route does |
| DataModule.SetRouteShape | dataModule.js:318-325 | setting a route replaces the route with its id in place, or appends it when the id is new |
| DataModule.SetRouteMeaning | dataModule.js:318-325 | after setting, the route is found under its id, ids stay unique, the count grows only for a new id, and every other id's route stays where it was |
| DataModule.WithRoutesMeaning | dataModule.js:305-328 | after setting routes of distinct ids, each is found under its id and a route whose id none of them has stays where it was |
| DataModule.WithoutRoute | dataModule.js:358 | the result holds exactly the routes whose id differs |
| DataModule.WithoutRouteAbsent | dataModule.js:357-369 | deleting an id no route has changes nothing |
| DataModule.SetNewRoutes | dataModule.js:302-331 | the loop sets a route for each group with points, in order, and counts them |
| DataModule.DataStore.constructor | dataModule.js:2-4 | no points, no routes and no update time |
| DataModule.DataStore.ProcessCSVFile | dataModule.js:255-299 | the parsed groups are merged over the stored points, a route is set per date, the update time is `now` and the number of parsed points is returned |
| DataModule.DataStore.CreateRoutes | dataModule.js:302-331 | routes are set for every group with points and their number returned; points and update time are unchanged |
| DataModule.DataStore.DeleteRoute | dataModule.js:356-370 | true iff the id was known; only that route goes, and an unknown id changes nothing |
| DataModule.DataStore.ToggleRouteVisibility | dataModule.js:373-387 | an unknown id gives false and changes nothing; otherwise only that route's `visible` flips and the new value is returned |
| DataModule.PlainFormObservation | dataModule.js:120-172 | in the plain form the observation as written is the longitude column, while the intended observation is the text after it |
| DataModule.ParseLineObservation | dataModule.js:168-172 | a parsed point stores the fourth column as its observation, which outside the plain coordinate form is also the intended observation |
| RouteManager.SavePoints | routeManager.js:221-227 | one simplified point per point, in order |
| RouteManager.SaveRoutesToLocalStorage | routeManager.js:209-243 | one saved route per route, in the routes' order |
| RouteManager.SaveRouteKeeps | routeManager.js:221-236 | a saved route keeps id, date, file name, colour, visibility and its points in order, and of each point its coordinates, time, number and observation |
| RouteManager.ParsedRoute | routeManager.js:252 | a parsed route keeps its id and one point per saved point |
| RouteManager.RebuiltPoints | routeManager.js:260-281 | each point is rebuilt by the per-point rule, in order |
| RouteManager.RebuiltRoutes | routeManager.js:255-283 | each route is rebuilt, in order |
| RouteManager.RebuiltRouteKeeps | routeManager.js:255-283 | loading changes only datetimes: every other point field and every route field stays |
| RouteManager.KeepsExistingDatetime | routeManager.js:262 | a point that already has a datetime is left as it is |
| RouteManager.NoDatetimeWithoutThreeParts | routeManager.js:265-271 | a route date without exactly three `/` parts gives the point no datetime |
| RouteManager.RebuiltFromDateAndTime | routeManager.js:265-280 | a point with no datetime on a `D/M/Y` route at `H:M` or `HhM` gets (year, month − 1, day, hour, minute) |
| RouteManager.RebuiltFromHourOnly | routeManager.js:266-280 | a time without minutes reads as that hour and minute 0 |
| RouteManager.RebuildPoints | routeManager.js:260-281 | the loop gives the points of its specification |
| RouteManager.ReconstructDatetimes | routeManager.js:255-283 | the loop gives the routes of its specification |
| RouteManager.LoadSavedRoutes | routeManager.js:245-310 | nothing stored changes nothing; otherwise the rebuilt routes are set into the store under their ids, and points and update time stay |
| RouteManager.RebuiltUnique | routeManager.js:255-292 | rebuilding keeps ids, so distinct saved ids load as distinct ids |
| RouteManager.LoadedRoutesStored | routeManager.js:285-293 | after a load each saved route is found under its id with its datetimes rebuilt, and a stored route whose id was not saved keeps its place |
| RouteManager.Forgotten | routeManager.js:221-227 | one point per point, each with its datetime and original position cleared and every other field kept |
| RouteManager.SavedPointsForgotten | routeManager.js:221-252 | a route saved and parsed back has exactly its points with the datetimes and original positions forgotten |
| RouteManager.SaveLoadRoundTrip | routeManager.js:209-283 | saving then loading gives the same route less the points' file positions, when every datetime is the one its date and time give |
| RouteManager.ParsedDatetimeRebuilds | dataModule.js:175-192 | every point a CSV line gives has the datetime the load rule rebuilds, so the round trip applies to them |
| RouteManager.ClearAllRoutes | routeManager.js:345-352 | deleting each route id present leaves no route; points and update time stay |
| RouteManager.DeleteFirst | routeManager.js:350-352 | with unique ids, deleting the first route's id leaves exactly the others |
| RouteManager.RouteLayerSwitch.constructor | routeManager.js:3 | the route layer starts on |
| RouteManager.RouteLayerSwitch.ToggleRouteLayer | routeManager.js:33-47 | the layer is on unless the box is unchecked, and routes are redrawn exactly when it is on |
| RouteRenderer.ShownMembers | routeRenderer.js:68-73 | the drawn routes are exactly the visible routes with points |
| RouteRenderer.ColorAt | routeRenderer.js:76 | every drawing colour is a palette colour |
| RouteRenderer.ShownAppend | routeRenderer.js:65-73 | the drawn routes of a concatenation are those of each part, in order |
| RouteRenderer.DrawStep | routeRenderer.js:65-119 | a drawn route adds its line and markers in the next colour; a skipped one adds nothing |
| RouteRenderer.SkippedRouteNeutral | routeRenderer.js:64-77 | a route that is not drawn changes nothing, and the routes after it keep their colours |
| RouteRenderer.DrawnRouteColor | routeRenderer.js:64-91 | a drawn route is the line numbered by the drawn routes before it, in that number's colour mod 10 |
| RouteRenderer.ColorCycle | routeRenderer.js:76-77 | line k has colour k mod 10 and colours repeat every ten drawn routes |
| RouteRenderer.LineFollowsPoints | routeRenderer.js:80-83 | a line is its route's `[latitude, longitude]` pairs in point order |
| RouteRenderer.MarkersCount | routeRenderer.js:94-117 | one marker per point of the drawn routes, each in a palette colour |
| RouteRenderer.Renderer.constructor | routeRenderer.js:2-5 | no layers yet, the renderer active and points shown |
| RouteRenderer.Renderer.Initialize | routeRenderer.js:21-52 | without a map nothing happens and the answer is false; otherwise two empty layer groups are on the map |
| RouteRenderer.Renderer.RenderRoutes | routeRenderer.js:54-120 | nothing happens while inactive or without layers; otherwise both layers are cleared and hold the drawn routes' lines, and their markers only when points are shown |
| RouteRenderer.Renderer.AddMarkers | routeRenderer.js:95-117 | one numbered marker per point of the route is appended, in its colour |
| RouteRenderer.Renderer.PointsVisibilityChanged | routeRenderer.js:40-47 | the flag is set and the routes are drawn again as `RenderRoutes` states |
| RouteRenderer.Renderer.ToggleRouteLayer | routeRenderer.js:131-148 | the renderer is active unless the box is unchecked; with layers and a map the layers go on the map and are redrawn, or come off |
| Addresses.Present | script.js:218-233 | never more parts are kept than were offered |
| Addresses.PresentMembers | script.js:218-233 | a text is kept iff it is one of the parts that are present |
| Addresses.JoinTwo | script.js:228 | two parts join with one separator between them |
| Addresses.JoinThree | script.js:252 | three parts join with a separator between each two |
| Addresses.FormatAddressCases | script.js:213-229 | the short label holds street and district with " - " between them, whichever one is present on its own, or nothing |
| Addresses.FormatCompleteAddressCases | old/script.js:218-238 | the full label holds the present parts among street, district and city in that order with ", " between them, and is empty exactly when none is present |
| Addresses.JoinNonEmpty | script.js:252 | a join of non-empty parts is non-empty |
| Addresses.RoadBeforeStreet | old/script.js:203-204 | the road is used whenever there is one; the street only stands in for a missing road |
| Addresses.NumberNeedsStreet | old/script.js:203-207 | a house number without a road or street appears in neither label |
| Addresses.ShortLabelIgnoresCity | old/script.js:199-215 | the city never affects the short label |
| Addresses.ComposedAddressShape | script.js:387-393 | the composed address is empty exactly when no street was typed, and otherwise starts with the street and ends with ", Porto Alegre" |
| Addresses.ComposedAddressFull | old/script.js:373-379 | with street, number and district all typed the address is "street, number - district, Porto Alegre" |
| Addresses.StoredAddress | old/script.js:392-393 | the stored address is never the empty string, and is missing exactly when neither the composed nor the typed address has text |
| SearchArea.BaseRadius | old/script.js:842 | the base radius lies in [500, 5000]: half the distance between 1 and 10 km, 500 below and 5000 above |
| SearchArea.TimeFactor | old/script.js:843-845 | the elapsed time scales the radius by a factor between 1 and 3.6 |
| SearchArea.RadiusLadder | old/script.js:828-848 | from two points on, the radius is the clamped base times the time factor, between 500 and 18000 metres |
| SearchArea.RadiusMonotone | script.js:661-682 | a longer distance or a longer elapsed time never gives a smaller radius |
| SearchArea.Earliest | old/script.js:836-838 | the earliest sighting is one of the sightings and no sighting has a smaller time value |
| SearchArea.ElapsedOneDay | script.js:672-673 | a sighting at the same clock time on the previous calendar day, across month and year ends, is 24 hours old |
| SearchArea.ElapsedAcrossMonthEnd | old/script.js:839-840 | a sighting on January 31 at 20:00, measured on February 1 at 10:00, is 14 hours old |
| SearchArea.TotalDistance | old/script.js:874-882 | the loop total equals the sum of the distances between consecutive points |
| SearchArea.PathLengthAppend | script.js:707-716 | the length of two joined routes is the two lengths plus the hop between them |
| SearchArea.PathLengthCoversHop | script.js:707-716 | with non-negative distances the route length is at least any single hop and never negative |
| SearchArea.SectorNearest | old/script.js:860-870 | with the corrected labels, every angle is named by a compass point at most 22.5 degrees away |
| SearchArea.NorthwardReadsAsEast | old/script.js:857-868 | a route straight north has angle 90, which the table as written names east, 90 degrees off; the corrected table names it north |
| SearchArea.EastwardReadsAsNorth | script.js:690-699 | a route straight east has angle 0, which the table as written names north; the corrected table names it east |
| SearchArea.GeneralDirection | script.js:684-704 | the direction is "Indeterminada" exactly when there are fewer points than the version's minimum (2 in the first map, 3 in the second); otherwise it is a compass point |
| SearchArea.SectorAsWrittenReadsBearing | old/script.js:862-870 | the table names the compass point nearest the bearing 90 minus the angle, i.e. it reads the angle as measured clockwise from north |
| SearchArea.GeneralDirectionBearing | old/script.js:851-871 | with enough points, the direction shown is the compass point nearest 90 degrees minus the first-to-last `atan2` angle |
| SearchArea.IntendedDirection | old/script.js:851-871 | the corrected direction is "Indeterminada" exactly when there are too few points, otherwise a compass point |
| SearchArea.IntendedDirectionNearest | old/script.js:857-870 | with the corrected table and enough points, the direction named is the compass point nearest the first-to-last angle |
| OldScript.WithoutInitial | old/script.js:406 | every sighting is kept in place with its initial flag cleared |
| OldScript.ClearInitialFlags | old/script.js:405-406 | the loop over the sightings gives the list with every initial flag cleared |
| OldScript.WithoutInitialCount | old/script.js:405-406 | after the flags are cleared no sighting is initial |
| OldScript.InitialCountAppend | old/script.js:448 | appending a sighting adds one initial sighting exactly when the new one is initial |
| OldScript.AppendKeepsValid | old/script.js:381-448 | pushing a sighting with a newer id, after the flags are cleared when it is initial, leaves exactly one initial sighting and distinct ids |
| OldScript.WithoutId | old/script.js:639 | the sightings kept are exactly those of the list whose id differs, never more than before |
| OldScript.IndexOfId | old/script.js:614 | the position found holds the id; no position means no sighting has it |
| OldScript.RemoveCount | old/script.js:614-639 | with distinct ids, removing an id loses an initial sighting exactly when the one found under the id was initial |
| OldScript.WithoutIdDistinct | old/script.js:639 | removing an id keeps the ids distinct |
| OldScript.PromoteFirst | old/script.js:664-666 | promoting the first remaining sighting of a list with none initial leaves exactly one initial |
| OldScript.InitialFound | old/script.js:743 | a list with an initial sighting has a position holding one |
| OldScript.IndexOfInitial | old/script.js:743 | the position found is the first initial sighting; none means no sighting is initial |
| OldScript.SortedWithout | old/script.js:745 | taking one sighting out of a date-sorted list leaves it sorted |
| OldScript.MoveToFront | old/script.js:744-747 | moving a sighting to the front keeps the same sightings, with the rest in their order |
| OldScript.InitialFirstMeaning | old/script.js:743-747 | the reordered list starts with the first initial sighting and then holds the other sightings in their sorted order, none gained or lost |
| OldScript.InitialInSorted | old/script.js:738-743 | with one initial sighting, sorting by date keeps it findable |
| OldScript.RouteOrderMeaning | old/script.js:738-750 | with one initial sighting the route visits every sighting once, starts at the initial one and then goes by date |
| OldScript.CalcularRota | old/script.js:721-825 | no sightings give no route; otherwise one route point per sighting in route order, the radius between the first and last points, and a direction and a distance from two sightings on |
| OldScript.SightingLog.constructor | old/script.js:9 | the log starts empty |
| OldScript.SightingLog.SubmitSighting | old/script.js:343-468 | unreadable coordinates are refused, unconfirmed coordinates outside Porto Alegre are declined, and otherwise (readable coordinates inside Porto Alegre, or confirmed outside it) the sighting is always appended, with the clock as id and the initial flag when it is the first or has the initial description, which then clears every other flag; ids stay distinct and exactly one sighting stays initial |
| OldScript.SightingLog.RemoveSighting | old/script.js:611-716 | once confirmed, every sighting with the id goes and, if the initial one went and others remain, the first remaining becomes initial; exactly one stays initial |
| Script.WithoutId | script.js:549 | the sightings kept are exactly those of the list whose id differs |
| Script.WithoutIdKeepsOrder | script.js:549 | no sighting left has the id, and a list without the id is unchanged |
| Script.WithoutIdDistinct | script.js:549 | removing an id keeps the ids distinct |
| Script.DateOrderMeaning | script.js:598-600 | the sightings by date are the same sightings, earliest first |
| Script.RoutePoints | script.js:602-605 | the route is the pet shop followed by each sighting's coordinates by date |
| Script.CalcularRota | script.js:582-657 | no sightings give no route; otherwise the route from the pet shop, the radius from the pet shop to the latest sighting, the direction and the distance |
| Script.RouteFigures | script.js:661-686 | with the pet shop counted, one sighting already gives a distance-based radius while the direction stays "Indeterminada" until there are two |
| Script.SightingLog.constructor | script.js:23 | the log starts empty |
| Script.SightingLog.SubmitSighting | script.js:357-427 | unreadable coordinates are refused, unconfirmed coordinates outside Porto Alegre are declined, and otherwise (readable coordinates inside Porto Alegre, or confirmed outside it) the sighting is always appended, with the clock as id; ids stay distinct |
| Script.SightingLog.RemoveSighting | script.js:544-577 | once confirmed, every sighting with the id goes; ids stay distinct |
| KmlLoader.PointOfCoordinates | js/kml-loader.js:254-275 | coordinates reading "lng,lat[,alt]" with both numbers readable give the point [lng, lat] with the trimmed name and description; the altitude is ignored |
| KmlLoader.NoPointFromOnePart | js/kml-loader.js:258-259 | coordinate text without a comma gives no point |
| KmlLoader.Found | js/kml-loader.js:265 | exactly the points that were found are kept, never more than there were placemarks |
| KmlLoader.PointsOf | js/kml-loader.js:236-238 | one reading per placemark, in document order |
| KmlLoader.ExtractedPointsMeaning | js/kml-loader.js:229-287 | every extracted point comes from some placemark and every point a placemark yields is extracted, at most one per placemark |
| KmlLoader.ExtractedPointsSnoc | js/kml-loader.js:237-281 | one more placemark adds its point at the end when it has one, and nothing otherwise |
| KmlLoader.ExtractPointsFromKml | js/kml-loader.js:229-289 | the loop over the placemarks pushes exactly the extracted points, in document order |
| KmlLoader.MergedFeatures | js/kml-loader.js:320-337 | the converted features come first and unchanged, followed by one Point feature per extracted point |
| KmlLoader.DistinctTypes | js/kml-loader.js:370-381 | each geometry type present appears once, and only types present appear |
| KmlLoader.GeometryTypesOf | js/kml-loader.js:372-378 | the loop adding each feature's type to a set gives the distinct types in order of first appearance |
| KmlLoader.PointTypeAlwaysPresent | js/kml-loader.js:455-498 | with any extracted point the types include Point, so the " (Ponto)" fallback and the manual point drawing are never reached |
| KmlLoader.KmlLayerTable.constructor | js/kml-loader.js:6 | the table starts empty |
| KmlLoader.KmlLayerTable.LoadKml | js/kml-loader.js:314-549 | a non-KML name, a missing map, unparsable XML or a file without features adds nothing; otherwise the layer is appended at the next index with that index's palette colour, its types, its points and its friendly name |
| KmlLoader.KmlLayerTable.ToggleVisibility | js/kml-loader.js:692-723 | an index out of range, a removed slot or a missing map changes nothing; otherwise only that layer leaves or rejoins the map |
| KmlLoader.KmlLayerTable.RemoveLayer | js/kml-loader.js:729-763 | an index out of range, a removed slot or a missing map changes nothing; otherwise the slot becomes null and the table is emptied once every slot is null |
| KmlLoader.KmlLayerTable.ClearAll | js/kml-loader.js:769-799 | with a map the table is emptied; without one nothing changes |
| KmlLoader.RemoveKeepsOtherSlots | js/kml-loader.js:743-756 | removing one layer keeps every other layer at its index, so the table is not emptied while another layer remains |
| ImportModule.SplitLastPart | importModule.js:69 | splitting at the last separator leaves the separator-free tail as the last part |
| ImportModule.ExtensionOfName | importModule.js:69 | a name ending in ".ext", with no dot in ext, has the extension ext in lower case |
| ImportModule.ExtensionWithoutDot | importModule.js:69 | a name without a dot is its own extension, in lower case |
| ImportModule.HandlerOfName | importModule.js:67-80 | a name ending in ".ext" is read as KML for "kml", as GeoJSON for "geojson" or "json", and ignored otherwise, ignoring case |
| ImportModule.UpperCaseKml | importModule.js:69-74 | a ".KML" file is read as KML |
| ImportModule.CheckGeoJson | importModule.js:117-131 | text that does not parse is an error, a value without a truthy type and features is invalid, and only the remaining values are accepted as they are |
| ImportModule.NonObjectRejected | importModule.js:123-125 | a document that is not an object is never accepted |
| ImportModule.PopupEntriesMembers | importModule.js:163-167 | the popup shows exactly the properties whose value is neither null nor empty |
| ImportModule.PopupEntriesKeepsShown | importModule.js:163-167 | when every value is shown, the popup lists every property in order |
| ImportModule.PopupOnlyForShownValue | importModule.js:160-175 | a feature gets a popup exactly when it has properties and one of them has a value worth showing |
| ImportModule.IndexOfLayer | importModule.js:236 | the position found is the first layer with the id; none means no layer has it |
| ImportModule.ImportedLayers.constructor | importModule.js:6 | the layer list starts empty |
| ImportModule.ImportedLayers.AddGeoJsonToMap | importModule.js:144-200 | the layer is appended with the file name, the colour its position picks and an id from the clock and the random reading |
| ImportModule.ImportedLayers.SelectFile | importModule.js:60-142 | an unsupported extension is ignored, a GeoJSON file without a truthy type and features is rejected, and otherwise exactly one layer is appended |
| ImportModule.ImportedLayers.RemoveLayer | importModule.js:234-248 | an unknown id changes nothing; otherwise only the first layer with the id is taken out |
| ImportModule.ImportedLayers.ClearAllLayers | importModule.js:251-259 | the list is emptied |
| ImportModule.RemovalMeaning | importModule.js:244 | a removal takes out exactly the one layer found, the others keep their order, and with distinct ids no layer with the id remains |
| Geofence.Layers | geofenceManager.js:55 | the layers of the list are exactly those some geofence holds |
| Geofence.IndexOfId | geofenceManager.js:181 | the position found is the first geofence with the id; none means no geofence has it |
| Geofence.WithoutId | geofenceManager.js:242 | the geofences kept are exactly those whose id differs |
| Geofence.WithoutIdDistinct | geofenceManager.js:242 | removing an id keeps the layers distinct |
| Geofence.SyncedMeaning | geofenceManager.js:52-66 | after the walk a geofence's layer is in the group exactly when it is visible, and every other layer is where it was |
| Geofence.SyncGroup | geofenceManager.js:55-65 | the loop over the geofences brings the group to the synced state |
| Geofence.SavedAll | geofenceManager.js:248-255 | one stored record per geofence, in order |
| Geofence.Restored | geofenceManager.js:318-322 | a restored geofence is visible unless its record says visible is false |
| Geofence.RestoreSaved | geofenceManager.js:246-322 | saving a geofence and restoring it with its own layer gives it back unchanged |
| Geofence.RestoredAll | geofenceManager.js:272-327 | at most one geofence per stored record |
| Geofence.RestoreSavedAll | geofenceManager.js:246-327 | saving a list and restoring it, with each record readable and its own layer, gives the list back in order |
| Geofence.RestoredLayers | geofenceManager.js:272-325 | with distinct new layers the restored geofences have distinct layers, all drawn from the new ones |
| Geofence.ShownAtLoadSnoc | geofenceManager.js:313-315 | one more restored geofence adds its layer to the group exactly when the group is on and the geofence visible |
| Geofence.RestoreGeofences | geofenceManager.js:266-336 | the loop over the records restores the readable ones in order and adds the visible ones' layers while the group is on |
| Geofence.GeofenceManager.constructor | geofenceManager.js:7-34 | the manager starts with no geofences, an empty group on the map, switched on |
| Geofence.GeofenceManager.AddGeofenceToMap | geofenceManager.js:106-146 | the new geofence is appended visible, with its file name, a palette colour, the file's extension as kind and an id from the clock, and its layer joins the group |
| Geofence.GeofenceManager.ToggleItemVisibility | geofenceManager.js:176-207 | an unknown id changes nothing; otherwise only the first geofence with the id flips its flag, and while the group is on its layer joins or leaves the group to match |
| Geofence.GeofenceManager.UpdateGeofencesVisibility | geofenceManager.js:52-66 | afterwards each geofence's layer is in the group exactly when it is visible; the list and the switch are unchanged |
| Geofence.GeofenceManager.ToggleGeofenceLayer | geofenceManager.js:36-50 | the switch reads on unless unchecked; with a map, on puts the group on the map and syncs it and off takes it away; no geofence's flag changes |
| Geofence.GeofenceManager.RemoveGeofence | geofenceManager.js:236-244 | every geofence with the id leaves the list and the first one's layer leaves the group |
| Geofence.GeofenceManager.LoadSavedGeofences | geofenceManager.js:266-336 | nothing stored changes nothing; otherwise the readable records are appended as geofences with new layers and the visible ones join the group while it is on |
| Geofence.GeofenceManager.ClearAll | geofenceManager.js:392-397 | the list and the group are emptied |
| Buffer.IndexOfId | bufferModule.js:287 | the position found is the first buffer with the id; none means no buffer has it |
| Buffer.WithoutId | bufferModule.js:301 | the buffers kept are exactly those whose id differs |
| Buffer.WithoutIdDistinct | bufferModule.js:301 | removing an id keeps the ids distinct |
| Buffer.SavedAll | bufferModule.js:311-326 | one stored record per buffer, in order |
| Buffer.RestoreSaved | bufferModule.js:311-374 | saving a buffer and restoring it keeps its id, distance, centre and colour; only the centre marker comes back, so a drawn buffer loses its rim marker |
| Buffer.RestoredAll | bufferModule.js:336-377 | at most one buffer per stored record, each carrying a stored id |
| Buffer.RestoredAllParsed | bufferModule.js:336-377 | when every stored geometry parses, there is one buffer per record, in record order, each the record restored with its own layer and parsed geometry |
| Buffer.RestoreBuffers | bufferModule.js:336-377 | the loop over the records restores, in order, those whose geometry text parses |
| Buffer.RestoredDistinct | bufferModule.js:336-377 | records with distinct ids restore to buffers with distinct ids |
| Buffer.BufferModule.constructor | bufferModule.js:11-50 | the module starts not drawing, with no points, no buffers, no current polygon and its layer on the map |
| Buffer.BufferModule.StartDrawing | bufferModule.js:113-130 | drawing starts with no points unless it is already on or there is no map; the buffers are untouched |
| Buffer.BufferModule.CreateBuffer | bufferModule.js:172-234 | anything but exactly two points changes nothing; otherwise the buffer centred on the first point with the distance to the second as radius is appended and its geometry becomes the current polygon |
| Buffer.BufferModule.HandleMapClick | bufferModule.js:132-170 | a click while not drawing changes nothing; otherwise the point is recorded, and the second point with a map ends the drawing and appends its buffer |
| Buffer.BufferModule.CancelDrawing | bufferModule.js:390-422 | drawing stops and the pending points are dropped; the buffers are untouched |
| Buffer.BufferModule.RemoveBuffer | bufferModule.js:286-309 | an unknown id changes nothing; otherwise every buffer with the id goes and the current polygon is cleared when it was that buffer's |
| Buffer.BufferModule.ClearBuffers | bufferModule.js:424-430 | no buffers and no current polygon remain |
| Buffer.BufferModule.ToggleBufferLayer | bufferModule.js:52-63 | with a map the layer is shown unless unchecked; without one nothing changes |
| Buffer.BufferModule.LoadSavedBuffers | bufferModule.js:328-382 | nothing stored changes nothing; otherwise the records whose geometry parses are appended in order and the current polygon stays |
| Buffer.TwoClicksMakeOneBuffer | bufferModule.js:113-234 | starting the tool and clicking twice from a fresh start ends the drawing with exactly one buffer, centred on the first click, as the current polygon |
| Json.Lookup | importModule.js:120-123 | a member is found exactly when the object has the key, and the value found is that of the last member with it, as JSON.parse keeps it |
| Sorting.SortByKey | js/app.js:228 | the sort returns the same elements, none gained or lost |
| Sorting.SortIsSorted | js/app.js:240 | when every key is a number the sorted sequence is in non-decreasing key order |
| Sorting.SortOfSortedAppend | js/app.js:228 | sorting a sorted list with one more element at the end only inserts that element after the ones it ties with |
| Sorting.SortOfSorted | dataModule.js:229 | sorting an already sorted list changes nothing |
| Text.JoinSplit | importModule.js:69 | splitting at a separator and joining again gives back the text |
| Text.SplitJoin | js/kml-loader.js:258 | joining separator-free pieces and splitting again gives back the pieces |
| JsNumbers.ParseFloatDefined | old/script.js:348-351 | parseFloat gives a finite number exactly when, after white space and a sign, a digit comes first or a dot followed by a digit |

## Left out

- DOM rendering, toasts, status messages, modals, popup text and icon HTML. They carry no rule beyond the state that is modelled.
- Leaflet, Turf, PapaParse, SheetJS, toGeoJSON and DOMParser calls. Layers and geometries are integer handles, a KML document is its list of placemarks, and a GeoJSON document is a parsed JSON value.
- `localStorage` and FileReader. Stored data arrives pre-parsed as an `Option` (`None` for nothing stored), and read errors are not modelled. The `removeItem` calls in `clearAllRoutes` and `clearAll` are storage effects and are left out with it.
- Floating-point geodesy: `map.distance`, `turf.distance`, `turf.buffer` and the haversine in `js/utilities.js`. Distances are function parameters and reals are exact.
- The `atan2` angle. It is a function parameter in degrees, taken to lie in [-180, 180] where a lemma needs that.
- Nominatim `fetch`, browser geolocation and `setTimeout`. They are I/O.
- `Date.now`, `Math.random` and `new Date()`. They are parameters (`now`, `random`, `suffix`, `pick`, `colorPick`). Inside one `createRoutes` call the clock is one reading, so its ids differ only by file name and date.
- JavaScript `Date` time zones. A datetime is a (year, month, day, hour, minute) tuple, and its time value (`DateTimes.EpochMillis`, the ECMAScript day count) takes local time as UTC, so time-zone offsets and daylight-saving shifts do not enter elapsed hours. `toISOString`/`toLocaleString` and the seconds and milliseconds of stored dates are not modelled either. The date filter keeps whole local days (`Filters.WithinDates`, used by `Filters.ApplyFilters`); the bounds as the code builds them at a given UTC offset are `Filters.WithinDatesAsWritten`, and how they differ west of UTC is under Findings.
- DateTimes.Timestamp: sorts and filters compare a minute rank, not the time value. `DateTimes.TimestampAgreesWithEpoch` proves the two agree on dates that exist in the calendar; on an overflowing date such as February 31, which `Date` rolls into March, they can differ.
- The free-form `new Date(...)` fallbacks of `parseDateTime` (js/import.js:697-715, 782-805) and the `datetime-local` reading of the app form. They are function parameters.
- The `NaN` ordering of invalid dates in `sort`. `NaN` counts as a tie, and the sortedness lemmas require every key to be a number.
- `identifyColumnsByContent` (js/import.js:445). Its result is discarded, so it does not affect the roles.
- The exact-`obs` header step (js/import.js:424-427). It cannot be reached, because the loop before it already gives such a header the notes role; `SpreadsheetImport.ObsHeaderIsNotes` proves this.
- The `null` result of `parseCSVData` from its `catch` (dataModule.js:247-250). The model throws no exceptions, so that path is never taken.
- Text.LowerChar: lower-cases only ASCII letters and the Latin-1 capitals. `toLowerCase` also lower-cases other Unicode capitals (Greek, Cyrillic, Latin Extended), which the model keeps as they are; the headers and extensions it is applied to are expected in Portuguese or ASCII.
- JsNumbers.ParseFloatDefined: `parseFloat` also reads `Infinity`, `+Infinity` and `-Infinity` (as a prefix) as a number. Reals have no infinity, so the model gives `None` for them, and the "exactly when" of the lemma is about finite numbers only.
- JsNumbers.ParseInt: radix-less `parseInt` reads a `0x`/`0X` prefix as hexadecimal. The model reads decimal digits only, so `"0x1A"` gives 0, not 26; the dates, times and ids it reads are decimal.
- SheetJS cell types. `sheet_to_json` gives numeric cells as numbers, and a numeric 0 date or time cell is falsy, so js/import.js:472 counts it as an error. The model's cells are strings, so a cell `"0"` is not empty and is read on.
- `checkFocosInImportedLayers` (importModule.js:263-325). It is Turf point-in-polygon work on opaque geometry.
- `addPointsManually` and the `" (Ponto)"` fallback of the KML name. `KmlLoader.PointTypeAlwaysPresent` proves neither can be reached.
- `map.hasLayer`, `addTo` and `remove` of whole layer groups. They become booleans and sets (`onMap`, `inGroup`, `groupOnMap`, `layerOnMap`).
- The buffer tool's temporary markers, cursor changes and key handler. Only the points, the drawing flag, the buffer list and the current polygon are state.
- Wrapper-only files: `js/map.js`, `js/timeline.js`, `main.js`, `mapModule.js`, `heatFilter.js` and `pointsVisibility.js`. They only wire Leaflet and the DOM.
- OldScript.SightingLog.SubmitSighting: requires every stored id to be below `now`. The source trusts `Date.now()` to give a new id for each submission, and the exactly-one-initial invariant needs distinct ids.
- Script.SightingLog.SubmitSighting: requires every stored id to be below `now`, for the same reason.
- Buffer.BufferModule.CreateBuffer: requires the new id to be unused. The source draws it from the clock and nine random base-36 digits, and treats it as unique.
- Buffer.BufferModule.HandleMapClick: requires the id the second click would make to be unused, as for `CreateBuffer`. When the second point arrives without a map, `finishDrawing` returns early; drawing then stays on with both points, as in the source, and no later click can make a buffer.
- Buffer.BufferModule.LoadSavedBuffers: requires the stored ids to be distinct and unused. The source trusts the records it wrote itself.
- Geofence.GeofenceManager.AddGeofenceToMap: requires the layer handle to be new and the colour draw to be below 15. Leaflet makes a fresh layer, and `Math.floor(Math.random() * 15)` stays in range.
- Geofence.GeofenceManager.LoadSavedGeofences: requires the new layer handles to be distinct and new, as Leaflet makes them.
- Geofence.RestoredAll: its own contract bounds only the length. What it restores is stated by `Geofence.RestoreSavedAll` and `Geofence.RestoredLayers`.
- DataModule.StampOf: `new Date(y, m, d, h, mi)` is an Invalid Date once its time value passes ±8.64e15 ms (years beyond about ±275 760); the model still gives `At(...)` for such years, and so does `RouteManager.WithDatetime` through it.

## Findings

| source | as written | input that shows it | evidently intended | confidence | as-written member | corrected member |
|---|---|---|---|---|---|---|
| dataModule.js:128-134, 169-172 | in the plain coordinate form (latitude and longitude in separate columns) the columns are rebuilt with the rest joined at index 4, but the observation is still read from index 3, the longitude | the line `d;t;-30.1;-51.2;obs` gives the observation `-51.2` instead of `obs` | the observation is the text after the longitude, `columns[4]`, in the plain form | high, not executed | DataModule.PlainFormObservation | DataModule.Observation |
| js/filters.js:147-153, 200-201, 390-397 | `new Date("YYYY-MM-DD")` reads the date as UTC midnight, but `setHours(23, 59, 59, 999)` and the sighting's own date are local time, so west of UTC both bounds move back by a day | in Porto Alegre (UTC-3), an end date of 2024-05-10 drops a sighting at 10:00 that day, and a start date of 2024-05-10 keeps one at 22:00 on 2024-05-09 | the bounds are whole local days: from local midnight of the start date to 23:59:59.999 local of the end date | high, not executed | Filters.EndDayDroppedWestOfUtc | Filters.EndDateIncludesWholeDay |
| old/script.js:857-870, script.js:690-703 | the angle is `atan2(dy, dx)` with `dy` the latitude change and `dx` the longitude change, so it is counter-clockwise from east; the sector table labels it as a bearing clockwise from north | a route straight north (angle 90) is shown as "Leste", and a route straight east (angle 0) as "Norte" | each sector is labelled with the compass point it points to: 90 is "Norte" and 0 is "Leste" | high, not executed | SearchArea.NorthwardReadsAsEast | SearchArea.IntendedDirection |
