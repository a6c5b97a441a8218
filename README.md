# Stormglass weather lookup: a Dafny model

The application is a small Streamlit app. It takes points (a timestamp, a
latitude and a longitude), typed in or uploaded as a table. For each point
it asks the Stormglass point API for wind, wave, swell, current and
water-temperature readings. It shows the readings as a table, with wind
speed in knots. This project models the logic behind that table and proves
properties of it:

- `Stormglass` (`stormglass_client.py`):
  - truncating the requested instant to its UTC hour;
  - the request window one hour either side of it;
  - the request and the reply wrapper;
  - choosing the sample nearest in time to the requested instant;
  - resolving each variable from a plain number or from a map of data sources, with a priority chain;
  - filling the record of one point.
- `Utils` (`utils.py`):
  - the conversion from metres per second to knots;
  - the wind colour bands;
  - the normalisation of an uploaded table: matching the `timestamp`, `lat` and `lon` headers, renaming them on a copy, parsing the timestamps and dropping the rows that do not parse.
- `App` (`app.py`):
  - `_fetch_one`: parse the timestamp, fetch, stamp the request fields, convert the speeds, or give an error record;
  - `enrich_df`: a record per row, the table of the records, the renaming of the columns, and their reordering.
- `Python` and `Frames`: the slice of Python's data model and of pandas that the code relies on.
  - Python: insertion-ordered dicts, `float()`, datetimes with optional offsets, exceptions as a `Result`.
  - pandas: tables with labelled columns, renaming, selection, building a table from records, boolean masks.

Library calls the model does not define are fields of a `Runtime` value
passed in: `float()` on text, `dateutil`'s `isoparse`, `isoformat`,
`pd.to_datetime` and `safe_parse_dt`. The HTTP call is a `Transport`
function, from query parameters to the decoded body, or None when the call
raises. Code that loops is modelled as a method. Each method is proved equal
to a specification function, and the properties are proved as lemmas about
that function.

A failed HTTP call does not produce an error record. `fetch_point` catches
the exception and goes on with an empty reply.
`extract_values` then fills every variable with None, and `_fetch_one`
returns that record with the request fields stamped and no `error` field
(`App.TransportFailureRecord`).

## Model

| member | source | states |
|---|---|---|
| Stormglass.NearestHour | stormglass_client.py:22-27 | the result is an aware UTC datetime on a whole hour, and the requested instant lies within that hour; a naive input is read as UTC |
| Stormglass.NearestHourUnique | stormglass_client.py:22-27 | no other whole hour contains the instant, so the truncated hour is determined by those properties |
| Stormglass.NearestHourIdempotent | stormglass_client.py:22-27 | truncating an already truncated hour gives it back unchanged |
| Stormglass.NearestHourNaiveIsUtc | stormglass_client.py:23-24 | a naive datetime is truncated exactly as the same wall-clock reading in UTC |
| Stormglass.Window | stormglass_client.py:98-102 | start and end are aware UTC datetimes one hour before and one hour after the truncated hour, so the requested instant lies strictly inside the window |
| Stormglass.Request | stormglass_client.py:104-118 | the query carries the point's latitude and longitude, the eleven variables in the client's order, and the window's ends as ISO text |
| Stormglass.FetchPoint | stormglass_client.py:97-131 | the reply is the transport's body, or `{}` when the call raised; the requested time is the truncated hour as text; the units are metres per second for wind and current |
| Stormglass.StormglassClient.constructor | stormglass_client.py:15-20 | key, timeout and debug flag are stored as given; a missing or empty preferred source becomes the blended source `sg` |
| Stormglass.StormglassClient.ParseTime | stormglass_client.py:56-64 | a sample's time is None when it is falsy, not text, or not parseable; otherwise it is the parsed instant, with a naive time read as UTC |
| Stormglass.StormglassClient.PickIndex | stormglass_client.py:42-67 | returns `NearestIndex` for every input, including the raised error; the lemmas below state what that index is |
| Stormglass.StormglassClient.Scan | stormglass_client.py:54-67 | the loop's result is `Scanned`: the error of the first sample that is not a dict, else the best index kept by the strict-improvement rule |
| Stormglass.BestIsNearest | stormglass_client.py:54-66 | the loop invariant: after n samples the kept sample, if any, is nearest to the request among those seen, and the earliest of equally near ones; none is kept exactly when no time has parsed |
| Stormglass.PickIndexFallbacks | stormglass_client.py:43-50 | an empty or falsy sample list, and an absent, empty or unparseable requested time, each give index 0 |
| Stormglass.NearestIndexIsNearest | stormglass_client.py:54-67 | on a non-empty list of dicts with a parsed requested time, the index is in range; it is 0 when no time parses; otherwise the sample there has a parsed time no farther than any other, and strictly nearer than every earlier one |
| Stormglass.ExactMatchIsPicked | stormglass_client.py:54-67 | when some sample's time equals the requested instant, the first such sample is the one picked |
| Stormglass.PickIndexRaises | stormglass_client.py:43-67 | `_pick_index` raises exactly when the list is truthy, the requested time parses, and the list is not a list or holds a non-dict |
| Stormglass.TimesAt | stormglass_client.py:55-64 | entry i of the parsed times is the parsed time of sample i |
| Stormglass.FirstNonDict | stormglass_client.py:55-56 | finds the first sample that is not a dict, where `h.get` raises; every sample before it is a dict, and no such sample exists when it finds none |
| Stormglass.Best | stormglass_client.py:54-66 | the kept pair is `(0, None)` until a time parses; afterwards the index is a seen sample whose parsed time is the kept time |
| Stormglass.StormglassClient.GetValue | stormglass_client.py:69-88 | returns `ValueOf`: the blended source, then the preferred source, then the first numeric entry of a source map, else the value itself if `float()` accepts it |
| Stormglass.ResolvePriority | stormglass_client.py:75-86 | on a source map, a numeric `sg` entry wins; failing that a numeric preferred entry wins; failing both, the result is None exactly when no entry is numeric, and otherwise it is the first numeric entry in map order |
| Stormglass.FirstNumberIsFirst | stormglass_client.py:83-86 | the fallback finds a number exactly when some entry is numeric, and then it is the first numeric entry |
| Stormglass.ResolveIsSomeEntry | stormglass_client.py:75-86 | any value resolved from a source map is the number of one of its entries |
| Stormglass.ValueOfPlain | stormglass_client.py:74-95 | for anything but a dict, the value is `float(v)` when `float` accepts it and None otherwise; a missing key gives None |
| Stormglass.SamplesPreferHours | stormglass_client.py:137-141 | samples come from `hours`, and from `data` only when `hours` is empty or absent |
| Stormglass.StormglassClient.ExtractValues | stormglass_client.py:133-166 | returns `Extracted` for every payload and requested time, including the errors raised while picking or reading the sample |
| Stormglass.StormglassClient.FillFromSample | stormglass_client.py:146-156 | the filled record is `iso_time` (the sample's time), then each of the eleven variables resolved from the sample, in order |
| Stormglass.StormglassClient.FillBlank | stormglass_client.py:157-164 | without samples the record is `iso_time` and every variable, each None |
| Stormglass.ExtractedKeys | stormglass_client.py:135-164 | every extracted record has exactly the keys `iso_time` and the eleven variables, in that order, each once |
| Stormglass.ExtractedFromSample | stormglass_client.py:143-156 | with samples, the picked index is in range and holds a dict; `iso_time` is that sample's time, and each variable is `_get_value` of that sample |
| Stormglass.ExtractedBlank | stormglass_client.py:137-164 | a reply without samples gives the blank record |
| Stormglass.BlankRecordAt | stormglass_client.py:135-164 | the blank record holds None under `iso_time` and under each variable, and has no other key |
| Stormglass.ExtractedNumeric | stormglass_client.py:149-164 | every variable of an extracted record is present and is a number or None |
| Stormglass.TransportFailureGivesBlankRecord | stormglass_client.py:120-164 | when the HTTP call fails, the record is the blank record, not an error |
| Stormglass.NearestIndex | stormglass_client.py:42-67 | `_pick_index` as a function: it raises only when the list is truthy and the requested time parses, and on a non-empty list the index is in range |
| Stormglass.Scanned | stormglass_client.py:54-67 | the scan over a list raises exactly when some sample is not a dict, and otherwise gives an index in range of a non-empty list |
| Stormglass.SampleTime | stormglass_client.py:56-64 | a sample has a time only when it is a dict with a `time` key |
| Stormglass.IterFailure | stormglass_client.py:55-56 | definition without a contract of its own: iterating a str or a dict yields strs, which have no `get`; any other non-list is not iterable; `PickIndexRaises` states when it is raised |
| Stormglass.Number | stormglass_client.py:90-95 | `_is_number` holds exactly when `float()` accepts the value, and the number is then `float(v)` |
| Stormglass.FirstNumber | stormglass_client.py:83-86 | definition without a contract of its own: the loop over the source map's values; `FirstNumberIsFirst` states that it is the first numeric entry |
| Stormglass.FromSource | stormglass_client.py:77-81 | a source's number exists only when the map has that source |
| Stormglass.Resolve | stormglass_client.py:75-88 | definition without a contract of its own: the priority chain; `ResolvePriority` and `ResolveIsSomeEntry` state its properties |
| Stormglass.ValueOf | stormglass_client.py:69-88 | a key the sample lacks resolves to None |
| Stormglass.Samples | stormglass_client.py:137-141 | a reply that is not a non-empty dict has no samples |
| Stormglass.SampleAt | stormglass_client.py:145 | indexing a list, or a str, never raises: an index past the end gives `{}` |
| Stormglass.Extracted | stormglass_client.py:133-166 | `extract_values` as a function: it can raise only when the reply has samples |
| Stormglass.BlankRecord | stormglass_client.py:157-164 | the blank record has twelve entries, each None |
| Utils.ToKnots | utils.py:7-13 | None for None and for anything `float()` rejects; a number exactly when `float()` accepts the input |
| Utils.ToKnotsScales | utils.py:5-13 | an accepted input is multiplied by 1.9438444924574 knots per m/s; 1 m/s gives the factor, and dividing by the factor gives the input back |
| Utils.ToKnotsMonotone | utils.py:7-13 | the conversion keeps the order of speeds |
| Utils.WindColor | utils.py:49-56 | gray exactly for a missing speed; otherwise green below 16 kt, orange from 16 to 24 kt inclusive, red above 24 kt, each as an if-and-only-if |
| Utils.WindColorMatchesLegend | utils.py:52-56 | every known speed lies in exactly one band of the legend, and the colour is that band's |
| Utils.FirstAlt | utils.py:38-40 | the alternative found is a key whose space-removed form is the need; when none is found, no key has that form |
| Utils.LastWithKey | utils.py:32 | reference definition: the last header whose stripped, lower-cased key is k |
| Utils.FirstAltHeader | utils.py:38-40 | reference definition: the first header, in column order, whose key equals the need once spaces are removed |
| Utils.HeaderIndexGet | utils.py:32 | with duplicate keys the header dict keeps the last header for each key |
| Utils.HeaderIndexFirstAlt | utils.py:32-38 | the dict's keys come in order of first appearance, so the first space-free match among keys is the key of the first such header |
| Utils.MatchHeaderIsReference | utils.py:32-40 | the header chosen for a required name equals the positional reference: an exact key match wins over a space-removed one; the alternative is the first such key in column order; a key shared by several headers stands for the last of them |
| Utils.MatchHeaderIsAColumn | utils.py:32-40 | the chosen header is one of the table's headers |
| Utils.MatchHeaderKey | utils.py:32-40 | a header chosen for a space-free name has that name as its key once spaces are removed |
| Utils.ChosenHeaders | utils.py:33-44 | the headers chosen for `timestamp`, `lat` and `lon` are three distinct columns of the table |
| Utils.Matched | utils.py:33-42 | when the lookup succeeds, every required name has a header |
| Utils.MatchedStopsAtError | utils.py:41-42 | once a required name is missing, later names are not looked at |
| Utils.MatchedRequired | utils.py:33-42 | `timestamp`, `lat` and `lon` are looked up in that order; the first with no header is the one the error names; otherwise each maps to its chosen header |
| Utils.NormalizeInputDf | utils.py:31-47 | returns `Normalized` for every table: the lookup loop with its early raise, the renaming on a copy, and the parsing and masking |
| Utils.RenameThree | utils.py:44 | renaming the three chosen headers gives labels `timestamp`, `lat` and `lon`, and keeps every other label |
| Utils.NormalizedErrors | utils.py:33-46 | the only errors are the one naming the first missing required column, or pandas' ambiguity error when the renaming leaves two `timestamp` columns; otherwise the table is produced and `timestamp` is present |
| Utils.WithParsedRows | utils.py:45-47 | the rows kept are exactly those whose timestamp parses, in their original order, each with its parsed time under `parsed_ts`; the labels are kept, with `parsed_ts` added at the right |
| Utils.IsSpace | utils.py:32 | definition: the characters `str.isspace()` accepts, which `strip()` removes |
| Utils.HeaderKey | utils.py:32 | definition without a contract of its own: `c.strip().lower()`; `HeaderKeyShape` states its shape |
| Utils.HeaderKeyShape | utils.py:32 | a key has no whitespace at either end and no upper-case ASCII letter |
| Utils.HeaderIndex | utils.py:32 | the header dict has distinct keys, and each key maps to a header of the table whose key it is |
| Utils.MatchHeader | utils.py:33-40 | definition without a contract of its own: the exact key, else the first space-free alternative; `MatchHeaderIsReference` states which header that is |
| Utils.Relabeling | utils.py:44 | the renaming maps exactly the three chosen headers, each to one of `timestamp`, `lat`, `lon` |
| Utils.WithParsed | utils.py:45-47 | parsing succeeds exactly when one column is labelled `timestamp`; otherwise the error is a KeyError for `timestamp` or pandas' ambiguity error; the result is well formed and has `timestamp` and `parsed_ts` |
| Utils.Normalized | utils.py:31-47 | a normalised table is well formed and has `timestamp` and `parsed_ts` columns |
| Frames.Rename | app.py:113 | renaming keeps the length; a mapped label becomes its image, and every other label and every cell stays |
| Frames.Select | app.py:125 | the selection has the requested labels, in order, with one row per input row; each cell comes from the first column with that label |
| Frames.WithColumn | utils.py:45 | a new column is added at the right, or an existing one is overwritten in place; the row count is kept |
| Frames.Mask | utils.py:46 | the kept rows are the rows whose mask entry is true, in order |
| Frames.Kept | utils.py:46 | the kept positions are increasing, all true, and include every true position |
| Frames.FromRecords | app.py:100 | one row per record; the labels are `LabelsOf` the records; every row has one cell per label |
| Frames.LabelsOfKeys | app.py:100 | the labels are distinct, and a label exists exactly when some record has that key |
| Frames.LabelsOfPrefix | app.py:100 | the labels of the first n records come first, in their order |
| Frames.AddNewExtends | app.py:100 | adding a record's keys keeps the labels already there, in front, adds exactly the missing ones, and repeats none |
| Frames.FromRecordsCell | app.py:100 | a row holds its record's value under each of the record's keys, and None under labels that only other records have |
| Python.UpdateGet | app.py:93-98 | after `d.update(e)`, a key holds `e`'s value if `e` has it and `d`'s otherwise |
| Python.UpdateKeysPrefix | app.py:93-98 | after `d.update(e)`, `d`'s keys come first, in their order |
| Python.Set | app.py:69-71 | `d[k] = v` stores v under k, leaves others alone, and appends k only when it is new |
| Python.Update | app.py:98 | definition without a contract of its own: `d.update(e)` stores each entry of `e` in order; `UpdateGet` and `UpdateKeysPrefix` state its effect |
| Python.FloatOf | app.py:65 | `float(v)` succeeds exactly for a number, a bool, or text the parser accepts, and gives a number back unchanged |
| Python.Truthy | stormglass_client.py:137-143 | definition: Python truthiness, so None, zero, `""`, `{}` and `[]` are false |
| App.FetchOne | app.py:59-84 | returns `FetchedRecord`: None for an unparseable timestamp, the error record when the `try` raises, else the completed values |
| App.TryFetch | app.py:64-82 | the `try` block reads latitude and longitude as floats, in that order, then fetches and completes the record |
| App.FetchAt | app.py:65-81 | fetch, extract for the payload's requested hour, stamp and convert |
| App.StampRequest | app.py:69-71 | the record with `requested_iso`, `req_lat` and `req_lon` stored into it, in that order |
| App.ConvertUnits | app.py:73-81 | returns `Converted`: the wind speed, then the current speed, each stored in knots or copied as the unit says |
| App.ConvertedRules | app.py:73-81 | `windSpeed_kt` is stored exactly when `windSpeed` is a number: converted unless the wind unit is `kn`; `currentSpeed_kt` likewise, but converted only when the current unit is exactly `mps`; missing units count as `mps`; no other field changes and nothing raises |
| App.WithSpeedAt | app.py:77-81 | one speed rule: the knots field is set only for a number, and every other field is unchanged |
| App.SiUnitsConvertBoth | app.py:73-75 | with the units a payload reports (metres per second for both), wind and current are both converted to knots |
| App.StampedAt | app.py:69-71 | stamping sets the three request fields and changes nothing else |
| App.AttemptAtRecord | app.py:65-82 | a successful fetch, field by field: the truncated hour as text, the position, both speeds in knots where they are numbers, and every other field as extracted |
| App.ReadingShape | app.py:67 | the extracted record has `iso_time` and the eleven variables, each once, with both speeds a number or None |
| App.FetchedOutcomes | app.py:59-84 | None exactly when the timestamp does not parse; otherwise the first exception (latitude, then longitude, then extraction) gives the error record carrying it, and without one the record has no `error` field |
| App.TransportFailureRecord | app.py:65-82 | when the HTTP call fails, the record has no `error` field and no knots fields, and `iso_time` and each variable are None |
| App.BlankCompleted | app.py:69-81 | completing the blank record adds no error and no knots field, and leaves the tracked fields None |
| App.FetchedKeys | app.py:59-84 | a record from `_fetch_one` has distinct keys, all among the extracted fields, the three request fields, the two knots fields and `error` |
| App.ErrorRecordKeys | app.py:84 | the error record has the keys `error`, `requested_iso`, `req_lat`, `req_lon`, each once |
| App.OrderedMembers | app.py:123-125 | the new column order holds the table's columns and no others |
| App.OrderedLayout | app.py:115-125 | the preferred columns the table has come first, in preferred order; every other column follows, in table order |
| App.OrderedIsPermutation | app.py:123-125 | for distinct columns the reordering is a permutation: none lost, none repeated |
| App.WhereMembers | app.py:123-124 | a comprehension keeps exactly the names that pass its test, and none twice |
| App.WhereOrder | app.py:123-124 | a comprehension keeps the order of its list |
| App.WhereSplit | app.py:123-124 | the names that pass and the names that fail together make up the list |
| App.RenameKeepsDistinct | app.py:103-113 | no two row fields get the same name after the renaming |
| App.RenameTargetIsNew | app.py:103-113 | no new name is itself a row field or a renamed name |
| App.RowRecordFields | app.py:88-99 | a row whose timestamp does not parse gives `{}`; any other row has `timestamp_utc`, `lat` and `lon` from the input first and in that order, and every fetched field merged over them |
| App.RowRecordKeys | app.py:88-99 | every row record has distinct keys, all of them row fields |
| App.CollectRows | app.py:87-99 | one record per row, in row order, exactly when no row raises; otherwise the exception of the first row that raises |
| App.CollectStopsAtError | app.py:88-99 | once a row raises, the rows after it are not looked at |
| App.EnrichRow | app.py:89-99 | returns `RowRecord`: `lat`, `lon` and `parsed_ts` read in that order from the row, then `{}` or the base fields updated by the fetched record |
| App.EnrichDf | app.py:86-126 | returns `Enriched`: the row loop with its early raise, the table of the records, the renaming and the reordering |
| App.RecordLabels | app.py:100-113 | the records' labels, and the renamed labels, are distinct |
| App.EnrichedColumns | app.py:86-126 | one output row per input row; the columns are the renamed labels, each once, none lost, in the order described above |
| App.EnrichedCell | app.py:100-125 | each output row holds its record: under a field's new name, the record's value, or None when the record lacks it |
| App.FetchedRecord | app.py:59-84 | `_fetch_one` as a function: None exactly when the timestamp does not parse |
| App.Attempt | app.py:64-82 | the `try` succeeds only when both latitude and longitude are accepted by `float()` |
| App.AttemptAt | app.py:65-81 | definition without a contract of its own: fetch, extract, stamp, convert; `AttemptAtRecord` and `AttemptAtHasNoError` state the result |
| App.Reading | app.py:65-67 | definition without a contract of its own: `extract_values` of the fetched payload for its own requested hour; `ReadingShape` states its keys |
| App.Stamped | app.py:69-71 | definition without a contract of its own: the three request fields stored in order; `StampedAt` states the result |
| App.Converted | app.py:73-81 | definition without a contract of its own: the unit flags, defaulting to `mps`; `ConvertedRules` states the result |
| App.WithSpeed | app.py:77-81 | definition without a contract of its own: one speed rule; `WithSpeedAt` and `WithSpeedOther` state the result |
| App.KnotsOf | app.py:77-81 | a knots field exists exactly when the speed is a number, and without conversion it is the speed itself |
| App.ErrorRecord | app.py:84 | definition without a contract of its own: the record `_fetch_one` returns from its `except`; `ErrorRecordKeys` states its keys |
| App.Cell | app.py:89 | reading a cell of a row raises exactly when the table lacks that column |
| App.IsoOf | app.py:89 | `isoformat()` succeeds exactly on a datetime |
| App.Base | app.py:93-97 | definition without a contract of its own: the three fields taken from the input; `BaseGet` states their values |
| App.RowRecord | app.py:88-99 | a row raises exactly when `lat`, `lon` or `parsed_ts` is missing or the timestamp cell is not a datetime; `_fetch_one` itself never raises |
| App.RowResults | app.py:87-99 | one outcome per input row |
| App.Collect | app.py:87-99 | a collection that succeeds has one record per outcome |
| App.Where | app.py:123-124 | a comprehension is never longer than its list |
| App.Existing | app.py:123 | definition without a contract of its own: `existing`; `OrderedLayout` states its members and order |
| App.Others | app.py:124 | definition without a contract of its own: `others`; `OrderedLayout` states its members and order |
| App.Ordered | app.py:125 | definition without a contract of its own: `existing + others`; `OrderedMembers` and `OrderedIsPermutation` state its properties |
| App.Enriched | app.py:86-126 | definition without a contract of its own: the whole of `enrich_df`; `EnrichedColumns` and `EnrichedCell` state its result |

## Left out

- The HTTP call `_get` (stormglass_client.py:29-40): headers, requests, status check and JSON decoding are the `Transport` parameter; the debug printouts are output only.
- The Streamlit user interface, `make_map`, file upload and rendering: presentation, not logic.
- `_safe_client`'s fallback on `TypeError` (app.py:34-38): it only matters for an older client class; the model always builds the client with its defaults and the debug flag.
- The API key, timeout and debug flag only reach the transport, so they are stored but have no effect in the model.
- `safe_parse_dt` (utils.py:15-29) and `pd.to_datetime` are abstract functions of the `Runtime`; their parsing rules are not modelled.
- `float()` on text, `isoparse` and `isoformat` are abstract; NaN and infinities are outside the model (a parse gives a real or nothing).
- Utils.ToKnots: the factor is written out as a literal rather than through `KTS_PER_MPS`. `Utils.ToKnotsScales` proves the two equal. Floating-point rounding is not modelled; arithmetic is exact.
- Utils.WindColor: takes an optional real, so NaN and None are both the missing case; a non-float value is not modelled.
- Utils.HeaderKey: `strip` removes every character `str.isspace()` accepts, but `lower` is modelled for the ASCII letters only; headers are strings, not arbitrary labels.
- Frames.FromRecords: a cell a record lacks is None where pandas writes NaN; `iterrows`' upcasting of row dtypes is not modelled.
- Frames.Select: with duplicate labels pandas returns every column of that label; the model takes the first. In `enrich_df` the labels are proved distinct, so this never arises there.
- App.Cell: reads the first column with the label. Two headers such as `lat` and `LAT` make the renaming produce two `lat` columns. pandas then gives a Series for `r["lat"]`, and `float()` of it raises, so every row becomes an error record. The model reads the first column's value instead.
- App.IsoOf: any cell that is not a datetime, pandas' NaT included, is treated as lacking `isoformat`.
- Failure wording: exception texts are representative of CPython's and pandas', not exact copies.
- Stormglass.Extracted: the no-samples branch of `extract_values` (stormglass_client.py:157-164) is not valid Python as written; the model takes its evident intent, every variable set to None.
- Tables are values: `df.copy()`, `inplace=True` renaming and aliasing between frames are not modelled, and the caller's table is never changed.
- Utils.WithParsed: a `timestamp` label that occurs twice after renaming raises pandas' ambiguity error; pandas' exact behaviour on duplicate labels is otherwise not modelled.
