# Flood dataset builder — a Dafny model

This project models the decision and bookkeeping logic of a flood-dataset builder. The builder:

- downloads a list of stream-gauge stations for up to 14 US states;
- fetches historical flood alerts per year and month from weather offices;
- locates each alert;
- turns each located alert into one positive sample and one displaced, later-dated negative sample;
- enriches every sample with precipitation, elevation, the nearest station and that station's gage height. Each value comes from a read-through cache that is backed by a web service.

The command-line validator is modelled as well.

Every web request is a value of type `Http.Exchange`: the first reply and, for a 429 status, the reply to the single retry. A reply is a status with an optional decoded body, or a request exception. Each service is a function from its request parameters to such an exchange. Cache files and the station list are fields of classes. Their methods update those fields and are proved against pure specification functions. The properties the program promises are proved about those functions.

Modules, one per file:

- `Wrappers` (wrappers.dfy): `Option` and `Result`.
- `Text` (text.dfy): Python string predicates, substring search and prefixes.
- `Calendar` (calendar.dfy): the proleptic Gregorian calendar; `strptime("%Y-%m-%d")` and `strftime` for that format; day addition with the year-9999 overflow.
- `ArgParser` (arg_parser.dfy): argument validation and the result of `parse_arguments`.
- `Http` (http.dfy): replies, exchanges, `raise_for_status`, and JSON numbers.
- `Stations` (stations.dfy): choosing the states, parsing features, the download loop and its fatal exit, the station list, and the nearest-station scan.
- `Enrichment` (enrichment.dfy): the three read-through caches and how each response becomes a value.
- `Alerts` (alerts.dfy): choosing the offices, filtering events, the alert shape, the per-month alert files, the county-name regex and the alert centroid.
- `Dataset` (dataset.dfy): `build_dataset` and its year, month and alert loops.

Two behaviours of the code are easy to miss, and the model follows them:

- A failed enrichment request is not always cached. A request exception, a failed retry, an undecodable body and a non-numeric reading return `None` without writing the cache. So does an elevation reply of 200 that has neither `value` nor `elevation`. `None` is stored only in these cases:
  - precipitation: the deciding reply (the retry, after a 429) has a status other than 200;
  - elevation: the deciding reply has a status other than 200, or it is a 200 whose `value` is `null`, or a 200 without `value` whose `elevation` is `null`;
  - gage height: a reply below 400 (the first one, or the retry after a 429) that has no features, or whose first feature has no `value` or a `null` one. A 4xx or 5xx other than 429 returns `None` without storing anything.
- Zero results for a state are fatal only on the first reply. The zero-results check runs only there, so a body with `numberReturned == 0` that arrives on the retry after a 429 is accepted.

## Model

| member | source | states |
|---|---|---|
| Text.Contains | app/flood_dataset.py:454 | Python's `t in s` (used here and at line 533): true exactly when `t` occurs at some position of `s` |
| Text.Prefix | app/flood_dataset.py:435 | `s[:n]`: the first `min(n, len(s))` characters, a prefix of `s` |
| Calendar.DaysInMonth | app/flood_dataset.py:435 | month lengths of the Gregorian calendar: 28 to 31 days, and 28 exactly for February of a common year |
| Calendar.ParseIsoDate | app/flood_dataset.py:435 | `strptime(s, "%Y-%m-%d")` succeeds only when `s` starts with a four-digit year and `-`, and it then yields a valid date with that year, at most 9999 |
| Calendar.IsoDate | app/flood_dataset.py:169 | `strftime("%Y-%m-%d")` gives a 10-character text |
| Calendar.ParseFormatRoundTrip | app/flood_dataset.py:169 | parsing the formatted text of any valid date gives back that date |
| Calendar.IsoDateInjective | app/flood_dataset.py:169 | distinct valid dates format to distinct texts |
| Calendar.NextDay | app/flood_dataset.py:592 | the day after a valid date is a valid date and strictly later |
| Calendar.AddDays | app/flood_dataset.py:592 | adding days to a valid date gives a valid date |
| Calendar.ShortShift | app/flood_dataset.py:592 | adding 1 to 28 days lands later in the same month or in the next month, at the computed day |
| Calendar.ShiftDate | app/flood_dataset.py:592 | `date + timedelta(days=n)` is the civil-calendar sum, or no date when the year would pass 9999 |
| ArgParser.ValidateArguments | app/arg_parser.py:6-18 | the first failing check, in the order county-needs-state, months in 1..12, years in 1..3, or none when all three hold |
| ArgParser.DefaultArguments | app/arg_parser.py:23-26 | defaults are no county, no state, 12 months, 3 years, and they pass validation |
| ArgParser.ParseArguments | app/arg_parser.py:28-36 | succeeds exactly when validation passes; the result equals the arguments; a failure carries the validation error |
| Http.RaisesForStatus | app/stations.py:45 | `raise_for_status()` raises exactly for statuses 400 to 599; the fetch rows below state what each caller does then |
| Stations.StateCodes | app/stations.py:14-28 | a known target state selects its own code only; otherwise all 14 codes are used in table order |
| Stations.FeatureStation | app/stations.py:70-87 | a feature gives a station exactly when its geometry is a Point with at least two numeric coordinates and it has a `monitoring_location_number` member; the station's id is that member, `None` when it is `null`; lon is `coordinates[0]` and lat is `coordinates[1]` |
| Stations.FeatureStations | app/stations.py:70-87 | the stations of a feature list number at most the features |
| Stations.FeatureStationsAppend | app/stations.py:70-87 | the stations of concatenated feature lists are the concatenation of their stations |
| Stations.FeatureStationsSound | app/stations.py:77-87 | every station comes from an accepted feature, and every accepted feature contributes its station; bad features add nothing |
| Stations.StateDownload | app/stations.py:43-68 | a state is fatal exactly when its first reply succeeds with `numberReturned == 0`; any other successful first reply gives its body's features, and skips the state when the body does not decode; a request exception or a non-429 HTTP error skips it; after a 429 the retry decides |
| Stations.Download | app/stations.py:30-91 | the specification of the state loop: states in order, each one's features appended, stopping at the first fatal state; DownloadStep, ExitIsFinal, DownloadExits and DownloadAppend state its properties |
| Stations.DownloadStep | app/stations.py:30-91 | the download of a prefix of states extends the download of the shorter prefix by one state |
| Stations.ExitIsFinal | app/stations.py:48-51 | once a state is fatal, later states do not change the outcome |
| Stations.DownloadExits | app/stations.py:30-51 | the run stops exactly when some state is fatal, and it stops at the first such state |
| Stations.DownloadAppend | app/stations.py:30-91 | completed downloads compose: the stations of `a + b` are those of `a` followed by those of `b` |
| Stations.Scan | app/flood_dataset.py:154-162 | the loop's pair of candidate id and bound after each station: a station strictly closer than the bound replaces both; ScanBound and ScanWitness state what the pair means |
| Stations.Nearest | app/flood_dataset.py:154-162 | the candidate id after the last station; NearestIsFirstNearest characterises it |
| Stations.FirstNearestUnique | app/flood_dataset.py:154-162 | at most one station is the first at the minimum distance |
| Stations.ScanBound | app/flood_dataset.py:154-162 | the scan's bound never exceeds 25 km and is at most every distance seen; it is below 25 km exactly when some station is closer than 25 km, and a bound of 25 km leaves the candidate `None` (a candidate can also be `None` below 25 km, for an in-range station whose id was `null`) |
| Stations.ScanWitness | app/flood_dataset.py:154-162 | a bound below 25 km is the distance of the first station at the minimum distance, and the candidate is that station's id |
| Stations.NearestIsFirstNearest | app/flood_dataset.py:154-162 | when no station is closer than 25 km the answer is `None`; otherwise it is the id of the first station at the minimum distance, which is `None` for a station whose id was `null` |
| Stations.StationDirectory.constructor | app/stations.py:5 | the station list starts empty and no cache file has been written |
| Stations.StationDirectory.Load | app/stations.py:7-95 | the list is reset and then holds exactly this run's stations, in state order and then feature order; a fatal state stops the run and leaves the cache file unwritten; a completed run writes the list to the cache file |
| Stations.StationDirectory.AppendStations | app/stations.py:70-87 | appends the stations of one state's features, in feature order |
| Stations.StationDirectory.FindNearest | app/flood_dataset.py:154-162 | the loop's answer equals the scan specification and meets the first-nearest characterisation |
| Enrichment.Lookup | app/flood_dataset.py:266-313 | on a hit, returns the stored value, `None` included, and changes nothing; on a miss, adds only its own key when the fetch stores, or returns `None` and leaves the cache as it was |
| Enrichment.SecondLookupHits | app/flood_dataset.py:271-272 | a key that was found or stored is answered from the cache the next time, whatever the service would reply |
| Enrichment.GageReading | app/flood_dataset.py:203-212 | the first feature's value, or `None` without features or value; a non-numeric value gives up |
| Enrichment.GageFetch | app/flood_dataset.py:185-238 | request exceptions, non-429 HTTP errors and failed retries give up without caching; a 429 is decided by the retry |
| Enrichment.GageKey | app/flood_dataset.py:169 | the key starts with the station id and is 11 characters longer, room for `,` and the 10-character date; GageKeyInjective states what the format guarantees |
| Enrichment.GageKeyInjective | app/flood_dataset.py:169 | distinct (station, day) pairs never share a cache entry |
| Enrichment.SumReadings | app/flood_dataset.py:299-301 | the sum is defined exactly when every reading is a number, and an empty result list sums to 0, not `None` |
| Enrichment.SumReadingsAppend | app/flood_dataset.py:301 | the sum of concatenated readings is the sum of the sums |
| Enrichment.PrecipitationFetch | app/flood_dataset.py:286-307 | the reply after at most one 429 retry decides: 200 stores the sum, and any other status, a second 429 included, stores `None`; exceptions give up without caching |
| Enrichment.ElevationFetch | app/flood_dataset.py:328-355 | a 200 stores `value` if present, else `elevation`; with neither it gives up without caching; other statuses store `None` |
| Enrichment.GageHeight | app/flood_dataset.py:164-244 | without a station id it answers `None` and does not touch the cache; a cached station-and-day key answers the stored value; on a miss, a fetch that stores answers its value and adds it under that key, and a fetch that gives up answers `None` and leaves the cache |
| Enrichment.WindowOverflows | app/flood_dataset.py:278 | the precipitation request's start day, `date - timedelta(days=1)`, leaves the calendar |
| Enrichment.WindowOverflowsExactly | app/flood_dataset.py:278 | the start day leaves the calendar exactly when no valid day precedes `date` |
| Enrichment.EnrichmentCaches.constructor | app/flood_dataset.py:247-254 | the caches start as loaded |
| Enrichment.EnrichmentCaches.GetPrecipitation | app/flood_dataset.py:266-313 | the new cache and the answer are the read-through lookup; on a miss for 1 January of year 1, the request window overflows and raises without changing the cache |
| Enrichment.EnrichmentCaches.GetElevation | app/flood_dataset.py:316-361 | the new cache and the answer are the read-through lookup of the elevation fetch |
| Enrichment.EnrichmentCaches.GetGageHeight | app/flood_dataset.py:164-244 | the new cache and the answer are those of the gage-height specification |
| Alerts.OfficesOf | app/flood_dataset.py:371-386 | the office list of a state present in the table, or nothing when the state is absent |
| Alerts.OfficesAreNationwide | app/flood_dataset.py:393-395 | every state's offices are in the nationwide list |
| Alerts.Offices | app/flood_dataset.py:389-395 | a known target state selects its own offices; otherwise every office of every state is used; in both cases each office is in the nationwide list |
| Alerts.ToAlert | app/flood_dataset.py:458-470 | the fixed shape: `"Observed"`, `"Past"`, no geometry, event `ph_name sig_name` with defaults `Flood` and `Warning`, and onset equal to the issue time |
| Alerts.EventAlertsExact | app/flood_dataset.py:432-476 | the alerts are exactly the shapes of the kept events; each has a parsable issue date in the month and matches the target state |
| Alerts.OfficeEvents | app/flood_dataset.py:398-427 | a successful first reply gives its events, or skips the office when its body does not decode; request exceptions, non-429 HTTP errors and failed retries skip the office; a 429 is decided by the retry |
| Alerts.IssueDate | app/flood_dataset.py:435 | `strptime(event["issue"][:10], "%Y-%m-%d")`: a date only when `issue` is present, and then a valid date no later than year 9999 |
| Alerts.StateMatches | app/flood_dataset.py:444-455 | without a target state every event matches; otherwise `locations` must contain `[abbr]` or the target's own text |
| Alerts.EventAlerts | app/flood_dataset.py:432-476 | the specification of the event loop: the shapes of the kept events, in event order; EventAlertsExact characterises it |
| Alerts.CollectAlerts | app/flood_dataset.py:397-479 | the specification of the office loop: each office's kept alerts, in office order; CollectedAlertsAdmitted and Collect state its properties |
| Alerts.FreshAlerts | app/flood_dataset.py:389-483 | the alerts of a month that is not cached: the collection over the offices of the target state |
| Alerts.CollectedAlertsAdmitted | app/flood_dataset.py:397-476 | every freshly collected alert is in the requested month and matches the target state by `[abbr]` or by name |
| Alerts.KeptAlerts | app/flood_dataset.py:432-476 | the event loop appends exactly the shapes of the kept events, in event order |
| Alerts.Collect | app/flood_dataset.py:397-476 | the office loop appends each office's kept alerts in office order, as the collection specification does |
| Alerts.AlertArchive.constructor | app/flood_dataset.py:365-368 | the archive starts with the given cache files |
| Alerts.AlertArchive.Fetch | app/flood_dataset.py:364-483 | an existing month file is returned unchanged; otherwise the alerts, in office order and then event order, are returned and written to that month's file, even when empty |
| Alerts.LowerRunEnd | app/flood_dataset.py:526 | the greedy end of a run of lower-case letters |
| Alerts.SpaceRunEnd | app/flood_dataset.py:526 | the greedy end of a run of whitespace |
| Alerts.LowerRunEndExact | app/flood_dataset.py:526 | a lower-case run that is followed by a non-lower-case character ends exactly there |
| Alerts.SpaceRunEndExact | app/flood_dataset.py:526 | a whitespace run that is followed by a non-space character ends exactly there |
| Alerts.GroupAt | app/flood_dataset.py:526 | the group `([A-Z][a-z]+)\s*\[` captures at one position; GroupAtMatchesPattern characterises it |
| Alerts.CountyName | app/flood_dataset.py:526-528 | `re.search(...).group(1)`: the leftmost capture; SearchFrom and CountyNameShape characterise it |
| Alerts.GroupAtMatchesPattern | app/flood_dataset.py:526 | the scan captures at a position exactly when `([A-Z][a-z]+)\s*\[` matches there, and it captures the regex's group |
| Alerts.SearchFrom | app/flood_dataset.py:526 | `re.search` returns the group at the leftmost matching position, or nothing when no position matches |
| Alerts.CountyNameShape | app/flood_dataset.py:526-528 | a captured county is one capital followed only by lower-case letters |
| Alerts.LocationCoordinates | app/flood_dataset.py:504-536 | the table entry of the first captured county; otherwise the centre of Texas for text containing `[TX]`; otherwise nothing |
| Alerts.UnreachableCounties | app/flood_dataset.py:507-530 | the regex never captures `DeWitt` or `Val Verde`, so those two table entries are never looked up |
| Alerts.FayetteExample | app/flood_dataset.py:504-530 | `"Fayette [TX]"` maps to its table entry |
| Alerts.LeftmostNameOnly | app/flood_dataset.py:526-534 | only the leftmost name is looked up: an unknown first county falls back to `[TX]` even when a known county follows |
| Alerts.SumBounds | app/flood_dataset.py:494-495 | a sum of values within bounds lies within the count times those bounds |
| Alerts.MeanBounds | app/flood_dataset.py:494-495 | a polygon's vertex mean lies within the range of its vertices |
| Alerts.Column | app/flood_dataset.py:492-493 | `[c[n] for c in ring]`: one entry per vertex, in order |
| Alerts.AlertCentroid | app/flood_dataset.py:485-502 | a Point gives `(coordinates[1], coordinates[0])`, and raises with fewer than two coordinates; a Polygon raises exactly when its first ring is missing or empty or has a vertex shorter than two; without geometry, the area text is looked up; an empty area text gives no location |
| Dataset.PositiveRecord | app/flood_dataset.py:563-578 | the positive row: the loop's year and month, the alert's position and text fields, the four measurements and `flood_occurred=1` |
| Dataset.NegativeRecord | app/flood_dataset.py:602-617 | the negative row: the shifted date's year and month, the displaced position, `"None"` text fields, the four measurements and `flood_occurred=0` |
| Dataset.Measure | app/flood_dataset.py:555-560 | the sample is dropped exactly when precipitation raises; otherwise the precipitation and elevation columns, and their new caches, are those of the read-through lookups under their keys; the station column answers the nearest-station question; the gage column and its new cache are those of the gage-height lookup for that station and day; the caches only gain entries |
| Dataset.Locate | app/flood_dataset.py:551-554 | an alert is used exactly when its centroid has a latitude and its onset parses, and then its date is valid |
| Dataset.FreshAlertLocated | app/flood_dataset.py:551-554 | a freshly fetched alert is located exactly when its area text is, and then it is dated in the fetched month |
| Dataset.PositiveStep | app/flood_dataset.py:549-582 | an alert gives a row exactly when it is located and its precipitation call does not raise; the row is then the positive sample of the alert, its measurements and the new caches are those of the measurement at the alert's position and day; without a row the caches are unchanged |
| Dataset.NegativeStep | app/flood_dataset.py:584-617 | an alert gives a row exactly when it is located, its shifted date exists and the precipitation call for the displaced position does not raise; the row is then the negative sample of the alert under its draws, its measurements and the new caches are those of the measurement at the displaced position and shifted day; without a row the caches are unchanged |
| Dataset.Positives | app/flood_dataset.py:549-582 | at most one row per alert; every row has `flood_occurred=1` and the loop's year and month; the caches only gain entries |
| Dataset.Negatives | app/flood_dataset.py:584-617 | at most one row per alert; every row has `flood_occurred=0` and is measured; the caches only gain entries |
| Dataset.PositivesFromAlerts | app/flood_dataset.py:549-582 | the rows are, in order, the positive samples of distinct alerts taken in increasing position, each with that alert's text fields; every located alert not dated 1 January of year 1 has its row |
| Dataset.NegativesFromAlerts | app/flood_dataset.py:584-617 | the rows are, in order, the negative samples of distinct alerts in increasing position, each under that alert's draws; every located alert whose shifted date exists and is not 1 January of year 1 has its row |
| Dataset.NegativeSampleableInRange | app/flood_dataset.py:590-594 | with draws in range, a located alert's negative sample can only be lost to the year-9999 overflow of the shifted date |
| Dataset.NegativeNearAlert | app/flood_dataset.py:590-592 | with draws in range, a negative row lies within 0.5 degrees of its alert on each axis and is dated in the alert's month or the next |
| Dataset.FetchAlerts | app/flood_dataset.py:364-368 | a stored month is returned as it is; otherwise the fresh alerts are returned and stored |
| Dataset.LabelledBlocks | app/flood_dataset.py:549-617 | a block of rows labelled 1 followed by a block labelled 0 has no negative row before a positive one |
| Dataset.MonthRecords | app/flood_dataset.py:545-617 | the month's alerts are fetched and its file holds them afterwards; at most two rows per alert; positive rows carry the month; all positive rows come before all negative rows |
| Dataset.MonthRows | app/flood_dataset.py:545-617 | a month's rows split into the positive samples of its fetched alerts followed by their negative samples, each block complete in the sense of PositivesFromAlerts and NegativesFromAlerts |
| Dataset.OneMonthInOrder | app/flood_dataset.py:549-582 | positive rows that all carry one year and month are in (year, month) order |
| Dataset.InOrderAppend | app/flood_dataset.py:543-544 | blocks of ordered positive rows separated by a (year, month) stay in order when concatenated |
| Dataset.YearsCover | app/flood_dataset.py:543-545 | kept files for earlier years plus files for every month of the last year cover every year |
| Dataset.Months | app/flood_dataset.py:544 | every month from 1 to the month limit is fetched and has its file; positive rows carry the year and a month in that range, in month order; the stores only gain entries |
| Dataset.Years | app/flood_dataset.py:543 | every month of every year from the first year up to, not including, the end year is fetched and has its file; positive rows fall in that range and in months 1 to the month limit, in (year, month) order; the stores only gain entries |
| Dataset.Build | app/flood_dataset.py:539-624 | the run stops exactly when the station download exits; otherwise every row is measured against the downloaded stations, positive rows lie between `current - years_back` and `current` and in months 1 to the month limit, in (year, month) order, and every such (year, month) has been fetched and has its file |
| Dataset.MeasureAt | app/flood_dataset.py:555-560 | the four enrichment calls, in source order, match the measurement specification |
| Dataset.PositiveSample | app/flood_dataset.py:550-582 | the body of the positive loop matches the positive step |
| Dataset.NegativeSample | app/flood_dataset.py:585-617 | the body of the negative loop matches the negative step |
| Dataset.SamplePositives | app/flood_dataset.py:549-582 | the positive loop gives the positive rows and caches of the specification |
| Dataset.SampleNegatives | app/flood_dataset.py:584-617 | the negative loop gives the negative rows and caches of the specification |
| Dataset.SampleMonth | app/flood_dataset.py:545-617 | one month of the loop matches the month specification |
| Dataset.SampleYear | app/flood_dataset.py:544-617 | one year of the loop matches the months specification |
| Dataset.SampleYears | app/flood_dataset.py:543-617 | the year loop matches the years specification |
| Dataset.BuildDataset | app/flood_dataset.py:539-624 | the whole run, and the stores it leaves, match the build specification; the station list is the downloaded one; the station cache file holds that list when the run completes and is unchanged when it stops |

## Left out

- HTTP, back-off sleeps, rate-limit header logging and all printed output. Each request is an `Exchange` value chosen by a function of the request's parameters. So the same parameters always get the same replies, and a timeout is a request exception.
- `"429" in str(e)` is modelled as "the status is 429". The real message also contains the request URL, which could contain `429` in another error's message.
- File I/O is not modelled: `load_cache`, `save_cache`, `json.load` and `json.dump`. The caches are maps that are loaded once and saved after each write. The alert files are a map keyed by (year, month). The station cache file is written and never read. A failure to load a cache (which gives an empty cache) and a failure to save one are not modelled.
- The `haversine` trigonometry is not modelled. Distances come from a function the caller supplies.
- The `:.4f` rounding in the precipitation and elevation cache keys is not modelled. The key formats are functions the caller supplies.
- Floating point is not modelled. Coordinates, sums and means are exact reals.
- The random draws `uniform(-0.5, 0.5)` and `randint(1, 28)` are inputs. They are indexed by year, month and the alert's position, and their ranges are a precondition of the lemma that uses them.
- pandas, the CSV output and `tqdm` are not modelled. `build_dataset` returns the rows.
- Module-level configuration is not modelled: the API configuration, directory creation, and the call to `print_filter_settings`. That call passes three arguments to a function that takes four, so it raises before any work is done.
- The `--help` branch and argparse itself are not modelled. `print_filter_settings` is not part of this model.
- `USGSStationRepo` in app/stations.py is not modelled. That file also uses names it never defines (`config`, `requests`, `sys`, `time`, `json`, `USGS_CACHE_FILE`). The model follows the intended logic, which `load_usgs_stations` in app/flood_dataset.py spells out, with the target state as a parameter.
- app/api_config.py and app/main.py are not part of this model.
- JSON values of unexpected types are reduced to the cases the code distinguishes:
  - A member read with `.get` and no default is `None` when it is missing or `null`.
  - A member read with `.get` and a default takes the default when it is missing. A missing `locations` is `""`. A missing `events`, `features` or `results` is an empty list, so a missing `results` sums to 0.0, which is stored.
  - A `null` list member is represented by the outcome the code reaches with it. Where the code only tests the list for truth, it is an empty list. Where the code iterates or sums it, which raises, it is a body that does not decode. For example, a `null` `results` makes `sum` raise, and nothing is stored.
  - A member read by subscript keeps missing and `null` apart. A missing `monitoring_location_number` skips the feature, while a `null` one gives a station with id `None`.
  - A value read as a number is `Num` or `NotANumber`. For `float()` (gage height), a numeric string or a boolean is the number it converts to. For `sum` (precipitation), a boolean is 0 or 1, and a string or a missing `value` is `NotANumber`. `NotANumber` makes `float()` or `sum` raise.
  - A `ph_name` or `sig_name` stored as `null` would print as `"None"`; the model treats it as missing. A non-string `locations` is not represented.
- Enrichment.ElevationFetch: the `value` or `elevation` member is stored as it is in the source. The model only represents numbers and `null`.
- Calendar.ParseIsoDate: `strptime`'s `\d` also accepts non-ASCII Unicode digits. The model accepts ASCII digits only.
- Calendar.IsoDate: `strftime("%Y")` on some platforms does not pad years below 1000. The model always pads to four digits.
- Alerts.AlertCentroid: its contract does not state the value of the Polygon branch, only when that branch raises. The value is the mean of the first ring's coordinates, and `MeanBounds` bounds it.
- The `print` of the first three alerts and the sleep between offices have no effect on the result.
