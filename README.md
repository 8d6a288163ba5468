# Sailing-log track engine

A Dafny model of the track engine inside `dashboard.py`, a Streamlit dashboard
for SailGP boat logs. The model covers these parts:

- **Ingestion.** One CSV log is uploaded per boat. The boat's name comes from
  the file name: every `data_` is removed, then every `.csv`, then surrounding
  whitespace. Every row is tagged with that name and with its tack (Starboard
  when the apparent wind angle is positive, Port otherwise). The files are
  concatenated in upload order.
- **Filter chain.** The rows pass through an inclusive time window, the tack
  selection, the boat selection, optional race and leg selections, and an
  inclusive speed range. An empty boat selection halts the dashboard.
- **Current position.** For each boat, the position is the last row in table
  order whose timestamp is at or before the scrub time. There is none when
  every row is later.
- **Course boundary.** The boundary polygon is closed by repeating its first
  vertex.
- **Play/pause state.** The button toggles playback. While playing, each run
  of the script moves the scrub time on by 10 seconds, until the time slider
  shows the end of the window.

Rows are already-parsed records. `DATETIME` is an integer number of seconds.
The numeric channels are `real`. A missing cell (pandas' NaN) is `None`, and
the model keeps the comparisons pandas makes with it:

- `NaN > 0` is false, so a row with no wind angle is on Port.
- A row with no speed fails the speed range.
- `isin` matches a missing value only when the selection lists one.

Modules: `Wrappers` (Option, Result), `Selection` (order-preserving selection,
the model of `df[mask]`), `BoatNames`, `Telemetry` (records, rows, tack),
`Ingestion`, `Filters`, `Resolver`, `Course`, `Playback`.

The model follows the code as written, including where it departs from a conventional track engine:

- The code never sorts a boat's rows. The resolver takes the last qualifying
  row in file order, so the monotonicity-in-time lemma assumes an ascending
  track.
- The play tick does not clamp to the end of the window, so the time can pass
  it by less than one step.
- The tick compares the value the slider returned on this run, not the
  session's time, with the end of the window.

## Model

| member | source | states |
|---|---|---|
| `BoatNames.RemoveAll` | dashboard.py:53 | removing every occurrence of a non-empty token never makes the name longer (the removal itself is left to right without overlap, as in Python's `str.replace`; `RemoveAllAbsent` and `RemoveAllTrailing` state what it deletes) |
| `BoatNames.RemoveAllAbsent` | dashboard.py:53 | a name in which the token does not occur is left unchanged by the replace |
| `BoatNames.RemoveAllTrailing` | dashboard.py:53 | when the token occurs only at the end, the replace deletes exactly that trailing token |
| `BoatNames.LeadingSpacesSpec` | dashboard.py:53 | the leading run counted for `strip()` is all whitespace and is followed by a non-space or the end |
| `BoatNames.TrailingSpacesSpec` | dashboard.py:53 | the trailing run counted for `strip()` is all whitespace and is preceded by a non-space or the start |
| `BoatNames.StripSpec` | dashboard.py:53 | `strip()` leaves no whitespace at either end, and its result is the slice whose outside is all whitespace |
| `BoatNames.StripTrimmed` | dashboard.py:53 | a string with no edge whitespace is its own strip |
| `BoatNames.StripIdempotent` | dashboard.py:53 | stripping twice equals stripping once |
| `BoatNames.PrefixAbsentBeforeExtension` | dashboard.py:53 | if a name does not contain `data_`, then neither does the name followed by `.csv` |
| `BoatNames.ExtensionOnlyAtEnd` | dashboard.py:53 | if a name does not contain `.csv`, then in the name followed by `.csv` the token occurs only at the end |
| `BoatNames.BoatNameOfConventionalFile` | dashboard.py:53 | a boat uploaded as `data_<name>.csv` gets the name `<name>`, when the name contains neither token and has no edge whitespace |
| `BoatNames.BoatNameUnchanged` | dashboard.py:53 | a file name with neither token and no edge whitespace is the boat name unchanged |
| `BoatNames.BoatNameAlpha` | dashboard.py:53 | `data_Alpha.csv` gives the boat `Alpha` |
| `Telemetry.TackOf` | dashboard.py:59 | a row is Starboard exactly when its wind angle is present and greater than 0; otherwise Port |
| `Telemetry.TackExamples` | dashboard.py:59 | an angle of 5 gives Starboard; 0 and -5 give Port |
| `Selection.Keep` | dashboard.py:81 | boolean-mask row selection never returns more rows than its input |
| `Selection.KeepMembers` | dashboard.py:81 | a row is selected exactly when it is in the input and passes the mask |
| `Selection.KeepCounts` | dashboard.py:81 | a row passing the mask is kept as many times as it occurs; any other row is never kept |
| `Selection.KeepSubsequence` | dashboard.py:81 | the selected rows are a subsequence of the input, in the input's order |
| `Selection.KeepAll` | dashboard.py:85-86 | a mask that every row passes leaves the rows unchanged |
| `Selection.KeepNone` | dashboard.py:81 | a mask that no row passes leaves nothing |
| `Selection.KeepConcat` | dashboard.py:58 | selecting from a concatenation equals concatenating the selections |
| `Selection.KeepKeep` | dashboard.py:81-114 | two successive masks select the same rows as their conjunction |
| `Selection.KeepCommutes` | dashboard.py:81-114 | two masks may be applied in either order |
| `Selection.KeepCongruent` | dashboard.py:81-114 | masks that agree on every input row select the same rows |
| `Ingestion.TagRecord` | dashboard.py:55-59 | a tagged row carries the given boat name and the record, and is Starboard exactly when the angle is present and positive |
| `Ingestion.TagFile` | dashboard.py:53-56 | a file contributes exactly one row per record |
| `Ingestion.TagFileAt` | dashboard.py:53-56 | record j of a file becomes row j of its part, tagged with the boat name derived from the file name |
| `Ingestion.Ingest` | dashboard.py:47-58 | the upload loop: with no file it halts with an error; otherwise the table is every file's tagged rows in upload order, with the union of the files' columns |
| `Ingestion.TaggedLength` | dashboard.py:58 | the unified table has exactly as many rows as all files have records |
| `Ingestion.TaggedAtPart` | dashboard.py:58 | row j of file k sits at offset (records in files before k) + j of the table |
| `Ingestion.TaggedAt` | dashboard.py:50-58 | that row is record j of file k, tagged with file k's boat name |
| `Ingestion.TaggedSnoc` | dashboard.py:56 | appending a file appends its tagged rows |
| `Ingestion.TagFileBoat` | dashboard.py:55 | a file's rows all belong to the boat its name gives |
| `Ingestion.TaggedBoatTrack` | dashboard.py:50-58 | a boat's rows are exactly the rows of the files whose names give that boat, in upload order, so two files with the same boat name merge into one track |
| `Ingestion.TaggedWellFormed` | dashboard.py:58 | when no file has a value in a column its header lacks, no row of the concatenated table has a value in a column outside the union of the headers (pandas fills the gaps with NaN) |
| `Ingestion.TaggedBoatsNamed` | dashboard.py:50-58 | every row belongs to a boat named by some uploaded file |
| `Filters.ApplyFilters` | dashboard.py:81-114 | the chain as written, step by step: halts exactly when the boat selection is empty; otherwise the columns are unchanged and the rows are the single conjunctive selection of every step that runs |
| `Filters.FilteredRows` | dashboard.py:81-114 | a row survives exactly when it is in the input and every running step accepts it, as many times as it occurs, in the input's order |
| `Filters.InvertedWindowEmpty` | dashboard.py:81 | the window step on its own keeps no row when the start is after the end |
| `Filters.InvertedWindowHalts` | dashboard.py:81-96 | with the start after the end the boat multiselect offers no boat, so a selection made from its options is empty and the chain halts |
| `Filters.ApplyStep` | dashboard.py:81-114 | one filter step halts exactly on an empty boat selection; otherwise it keeps the columns and returns, in input order, exactly the rows its mask accepts, each as often as in the input (every row when the source skips the step) |
| `Filters.AcceptsUnfolded` | dashboard.py:81-114 | a row passes the chain exactly when it is inside the window, has the chosen tack unless "All" is chosen, belongs to a selected boat, and, whenever the race, leg and speed steps run, is in their selections and range |
| `Filters.ChainInSourceOrder` | dashboard.py:81-114 | the six steps applied one after another in source order halt exactly on an empty boat selection and otherwise return the single conjunctive selection that `ApplyFilters` returns |
| `Filters.StepsCommute` | dashboard.py:81-114 | for fixed selections, any two filter steps give the same result in either order |
| `Filters.SkippedStepsKeepEverything` | dashboard.py:85-114 | tack "All", an empty race or leg selection, or a missing race, leg or speed column leaves the rows as they are |
| `Filters.MinTime` | dashboard.py:67 | the default start is a timestamp of the table and is at or before every row |
| `Filters.MaxTime` | dashboard.py:68 | the default end is a timestamp of the table and is at or after every row |
| `Filters.DefaultWindowKeepsAll` | dashboard.py:67-81 | a window from the table's first to its last timestamp (the inputs' defaults, taken at full precision) keeps every row |
| `Filters.Speeds` | dashboard.py:110-112 | the speeds the slider bounds are taken from are exactly the recorded (non-missing) speeds |
| `Filters.MinOf` | dashboard.py:110 | the slider minimum is one of the speeds and is at most every speed |
| `Filters.MaxOf` | dashboard.py:111 | the slider maximum is one of the speeds and is at least every speed |
| `Filters.DefaultSpeedRangeKeepsMeasured` | dashboard.py:107-114 | left at its defaults, the speed range keeps exactly the rows that have a speed, so every row when none is missing |
| `Resolver.LastAtOrBefore` | dashboard.py:170-172 | reference search from the end of the track: the index found is at or before t and no later row is; there is none exactly when every row is after t |
| `Resolver.ResolveIsLastAtOrBefore` | dashboard.py:170-172 | filtering `DATETIME <= t` then taking the last row finds the row at the reference index |
| `Resolver.ResolveSpec` | dashboard.py:170-172 | the position is a row of the track at or before t with no later row at or before t; there is none exactly when every row is after t |
| `Resolver.LastAtOrBeforeMonotone` | dashboard.py:170-172 | a later query time never gives an earlier row of the track, sorted or not |
| `Resolver.ResolveMonotoneOnAscending` | dashboard.py:170-172 | on an ascending track, a later query time never gives an earlier timestamp |
| `Resolver.ResolveAtSampleTime` | dashboard.py:170-172 | with strictly increasing timestamps, querying a sample's own time returns that sample |
| `Resolver.CurrentRecord` | dashboard.py:229-235 | the dashboard record for a boat is one of its rows at or before t, and no later row of that boat, in table order, is at or before t; there is none exactly when all its rows are after t |
| `Resolver.MissingColour` | dashboard.py:157-165 | the first selected boat that has no row left in the filtered table (and so no colour), if any: every boat before it has a row, and there is none exactly when every selected boat has one |
| `Resolver.AssembleMapAsWritten` | dashboard.py:157-182 | the map loop as written: it fails on the first selected boat without a colour exactly when there is one; otherwise each boat's track is its rows of the table in order (never empty) and its marker is its current record |
| `Resolver.MissingColourExample` | dashboard.py:157-165 | with Alpha and Bravo selected and only an Alpha row left, the loop fails on Bravo |
| `Resolver.AssembleMap` | dashboard.py:157-182 | for each selected boat, the full track (not cut at t) is exactly that boat's rows of the table, in table order, and the marker is the boat's current record, which lies on the track at or before t; a boat with no row gets an empty track and no marker |
| `Course.Close` | dashboard.py:203-204 | closing adds one point; the original points are kept in order and the last point equals the first |
| `Course.CloseCommutesWithUnzip` | dashboard.py:199-204 | closing each coordinate list separately equals closing the polygon and then splitting it |
| `Course.BoundaryTraceAsWritten` | dashboard.py:198-204 | the boundary as drawn by the code; an empty boundary draws nothing |
| `Course.BoundaryTrace` | dashboard.py:198-204 | the boundary drawn with each vertex's own latitude and longitude: the closed polygon's points in order, ending where they began; an empty boundary draws nothing |
| `Course.AsWrittenIsTransposed` | dashboard.py:30 | the boundary as written is the correct boundary with latitude and longitude exchanged |
| `Course.AsWrittenMisplacesVertex` | dashboard.py:199 | a vertex at longitude 174.75, latitude -36.85 is drawn at latitude 174.75 |
| `Course.CloseThree` | dashboard.py:203-204 | [A, B, C] is drawn as [A, B, C, A] |
| `Playback.Toggle` | dashboard.py:144-145 | the button flips the play flag and leaves the time |
| `Playback.Tick` | dashboard.py:148-152 | when not playing nothing changes; when playing and the slider is before the end, time grows by exactly 10 s and play stays on; otherwise play stops and time is unchanged |
| `Playback.PlayAtEndIsNoOp` | dashboard.py:144-152 | pressing play while the slider shows the end turns play on and off in the same run |
| `Playback.PlayAdvancesByStep` | dashboard.py:148-150 | while still playing after n refreshes, the time has grown by exactly 10·n seconds |
| `Playback.PlayStopped` | dashboard.py:148 | once paused, refreshes change nothing |
| `Playback.PlayOvershootBound` | dashboard.py:149-150 | without a clamp the time can pass the end, but by less than one step |
| `Playback.PlayEventuallyStops` | dashboard.py:148-152 | playback stops by itself once enough refreshes have carried the time to the end |
| `Playback.FiveTicks` | dashboard.py:148-150 | five refreshes from 00:00:00 reach 00:00:50 |
| `Playback.OvershootExample` | dashboard.py:148-152 | with the window ending at 00:00:15, the time reaches 00:00:20 before play stops |
| `Playback.PlaySession.constructor` | dashboard.py:127-130 | a new session starts paused at the start of the window |
| `Playback.PlaySession.PressButton` | dashboard.py:144-145 | the session state becomes the toggled state |
| `Playback.PlaySession.Refresh` | dashboard.py:148-152 | the session state becomes the ticked state |

## Findings

| source | as written | input that shows it | evidently intended | confidence | as-written member | corrected member |
|---|---|---|---|---|---|---|
| dashboard.py:199 | The course parser returns boundary vertices as (Lon, Lat) pairs (dashboard.py:30). Line 199 unzips them as `lats, lons`, so longitudes are drawn as latitudes. | a boundary vertex with Lon 174.75, Lat -36.85 is drawn at latitude 174.75 | draw each vertex at its own latitude and longitude | high; not executed | `Course.BoundaryTraceAsWritten` (shown by `Course.AsWrittenMisplacesVertex`, `Course.AsWrittenIsTransposed`) | `Course.BoundaryTrace` |
| dashboard.py:165 | The colours (line 117) are given only to boats with a row left after every filter. The map loop (line 157) runs over the boats selected at line 91, before the race, leg and speed filters. `boat_colors[boat]` then raises `KeyError` for a selected boat whose rows those filters removed. | Alpha and Bravo selected, and the speed range removes every Bravo row | draw nothing for a boat with no row left | high; not executed | `Resolver.AssembleMapAsWritten` (shown by `Resolver.MissingColourExample`) | `Resolver.AssembleMap` |

## Left out

- Streamlit widgets, page layout, `st.stop` and `st.warning` (dashboard.py:35-48, 70-79, 122-126, 131-143) are not modelled. The widget values become parameters: the filter selections in `Filters.Criteria`, the slider's returned time `shown`, the button click. The empty-upload and empty-boat halts become error results.
- Plotly figures, the colour values and map centring (dashboard.py:116-117, 155-222, 256-298) are left out. They are presentation, and centring is a floating-point mean. Which boats get a colour at line 117 is modelled (`Resolver.MissingColour`), and so is the data the map loop (157-182) hands to the figure.
- `pd.read_csv` and `pd.to_datetime` (dashboard.py:54, 66) are library I/O and parsing. Records arrive already parsed, with integer-second timestamps. The source raises when no uploaded file has a `DATETIME` column (line 66) or when a time cannot be parsed. The model has no such upload.
- A row with no timestamp is not modelled: every `Record` has a time. In the source such rows exist when one file lacks the `DATETIME` column that another has, or has an empty time cell. `pd.concat` (58) fills them with NaN, `pd.to_datetime` (66) turns that into NaT, `min`/`max` (67-68) skip it, and the window (81) drops every such row because NaT compares false. So a file without times silently contributes no row after the window step.
- When no uploaded file has an `AWA_SGP_deg` column, the source raises at line 59. The model gives every record an optional angle, so it treats that case as missing values, which are Port.
- `parse_course_xml` (dashboard.py:16-31) is left out. It does file I/O through BeautifulSoup and averages mark points with `np.mean` over floats. Only the boundary's (longitude, latitude) order from line 30 is kept, as `Course.Vertex`.
- Summary statistics (dashboard.py:311-350: mean, median, standard deviation, `describe`) are floating-point numerics and are left out.
- The dashboard variable panel (dashboard.py:237-251) only displays fields of the current record, and is left out.
- The date and time inputs combine into `datetime` values at the inputs' own resolution. The model takes the window bounds as integer seconds.
- `Filters.DefaultWindowKeepsAll` assumes the inputs' defaults are the table's exact first and last timestamps. The time input keeps its own (coarser) resolution, so the real default window can cut off the last seconds.
- `Filters.ApplyFilters` takes the selections as free parameters. It does not restrict them to the options the widgets offer (dashboard.py:90, 100, 104). `Filters.InvertedWindowHalts` states the one consequence proved here: with an inverted window, a selection made from the options is empty, so the run halts.
- Streamlit keeps widget values across runs. Whether the slider shows the session's time or a dragged value is taken as the `shown` parameter, not modelled.
- The code does no sorting, binary search or clamping of the play time, so the model adds none. `Resolver.ResolveMonotoneOnAscending` assumes an ascending track; `Resolver.LastAtOrBeforeMonotone` needs no sorting.
