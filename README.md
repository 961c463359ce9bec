# Dynamometer core, modelled in Dafny

Dynamometer is an iOS app for logging hand-grip strength readings. It
classifies each reading against a personal baseline corridor, shows the
readings on a scrollable chart, derives training guidance from the recent
trend, and imports and exports readings as CSV. This project models the
deterministic core of the app and proves what that code promises.

- **The chart's time axis** (`ChartScaling`): the visible width of each
  period token, the padded date range, and the scroll domain before and
  after the first positioning.
- **Visible data and the Y domain** (`ChartConfiguration`): which points
  count as on screen around the scroll position, with the nearest point as
  a fallback. The Y-axis domain stays frozen while the hash of the visible
  data is unchanged.
- **The chart's session state** (`ChartStates.ChartState`): a class with
  the four fields of the Swift `ChartState`. Blocks that the app hands to
  `DispatchQueue.main.async` are kept in an explicit `pending` queue, and
  `RunNextBlock`/`Drain` run them later. This makes the order of resets and
  deferred writes something the model can state.
- **Guidance**: `classify` and its label and colour tables, the automatic
  baseline (median ± 5%), the trend of the last readings (a 5% threshold),
  and the feedback message tables.
- **Validation**:
  - the reading checks (`Reading` and the data-entry form's duplicate
    `InputValidation`);
  - the `AppSettings` initializer clamp;
  - `ValidationLogic.validateAndUpdate` on the settings object;
  - the SMA-window clamp.
- **CSV**:
  - `CSVImport.parse`, including its line loop, header skip, separator
    split, column-order fallback and final sort;
  - `CSVExport.makeCSV`;
  - the de-duplicating insert loop of `DataImportExport.importCSV`.

  The Foundation string operations these use (`components(separatedBy:)`,
  `split`, `trimmingCharacters`, `joined`) are modelled in `CsvText`. Export
  followed by import is proved to give every reading back, sorted by date,
  whenever the formatters and parsers undo each other.

## Modelling choices

- **Numbers and dates.** Dates and time intervals are reals (seconds).
  `Double` is a real, and `Int` is an unbounded integer.
- **Library calls** the core relies on but does not define become
  parameters:
  - the calendar (`Calendar.date(byAdding:value:to:)`, `None` when it
    fails);
  - the hash of the visible data;
  - the date and number parsers;
  - the letter test;
  - the date and value formatters;
  - `keyFor`;
  - the decimal rendering of a count;
  - the content of the chosen file.

  "Now" is a parameter as well.
- **Sorting.** `sorted(by:)` is a stable insertion sort. Its contract
  says the result is ordered and is a permutation of the input. The model
  also relies on stability: `Sorting.SortSortedIsIdentity` (sorting an
  already ordered sequence changes nothing) holds only for a stable sort,
  and `CsvExport.ExportThenImport` uses it to get the exact sequence back,
  so two readings with the same date keep their order. Swift's
  `sorted(by:)` has had a stable implementation since Swift 5.
- **Force unwraps.** The force-unwrap of the calendar's answer in
  `visibleWidth` becomes a precondition: the calendar must succeed.
- **Import state.** The import's store is the sequence of inserted
  readings. The reading list the section was shown with is a constant,
  because the Swift view receives it as a `let`.

### Behaviour of the code worth knowing

The model follows the code in each case below.

- **Resets do not cancel queued writes.** A period or scale change leaves
  a queued domain write in the queue, so a domain computed before the
  change is stored after it (`ChartStates.StaleWriteAfterPeriodChange`).
  Nothing marks a queued write as stale.
- **The lookup window is half the day count on each side.** The visible
  window is `scroll ± days·86400/2`, `days·86400` seconds wide in all.
- **"All" uses a fixed 90-day window.** The Y-domain lookup under "All" is
  90 days wide, while the horizontal domain under "All" covers the full
  data span.
- **The decimal comma never reaches `parseDouble`.** `parseDouble` turns a
  decimal comma into a point, but `splitCSV` has already split the line at
  every comma. So "1,5" arrives as two fields, and the rewrite never has
  anything to do (`CsvImport.DecimalCommaNeverReachesParser`).
- **The first non-blank line can be a data line.** It is skipped whenever
  it contains a letter, so an ISO 8601 data line such as
  `2024-01-01T00:00:00Z,40` as the first line is lost.

## Model

| member | source | states |
|---|---|---|
| ChartScaling.VisibleWidth | Dynamometer/ChartScaling.swift:4-24 | "All" is the data span × 1.04; each calendar period is the calendar step from `maxDate` minus `maxDate` (1W week, 1M/3M/6M months, 1Y year) |
| ChartScaling.UnknownPeriodIsThreeMonths | Dynamometer/ChartScaling.swift:21-22 | any unrecognised token is exactly as wide as "3M" |
| ChartScaling.CalendarWidthIgnoresMinDate | Dynamometer/ChartScaling.swift:7-16 | for every period except "All" the width does not depend on `minDate` |
| ChartScaling.PaddedRange | Dynamometer/ChartScaling.swift:26-32 | the padding is `max(span,1)·max(percent,0)` and equal on both sides; a non-positive percent gives `[min,max]`; an ordered span is contained; a zero span with positive percent still gives a proper range |
| ChartScaling.ScrollDomain | Dynamometer/ChartScaling.swift:34-44 | "All" is the 2%-padded range; otherwise the upper bound is `maxDate`, the lower bound is `minDate` once initialised, and `max(maxDate − width, minDate)` before, so it is never below `minDate` |
| ChartScaling.AllScrollDomainIgnoresInitialization | Dynamometer/ChartScaling.swift:35-37 | under "All" the initialisation flag makes no difference |
| ChartScaling.ScrollDomainWithinData | Dynamometer/ChartScaling.swift:38-43 | for an ordered span and a forward-moving calendar the domain is a proper range inside `[minDate, maxDate]` |
| ChartConfiguration.VisibleDaysForPeriod | Dynamometer/Dashboard/Chart/ChartConfiguration.swift:136-145 | 30/90/180/365 days for 1M/3M/6M/1Y and 90 for "All", "1W" and any other token |
| ChartConfiguration.VisibleDateRange | Dynamometer/Dashboard/Chart/ChartConfiguration.swift:122-134 | the window is `days·86400` wide and centred on the scroll position |
| ChartConfiguration.FilterPointsInRange | Dynamometer/Dashboard/Chart/ChartConfiguration.swift:147-154 | keeps exactly the points inside the window, both ends inclusive |
| ChartConfiguration.FilterKeepsOrder | Dynamometer/Dashboard/Chart/ChartConfiguration.swift:151-153 | the filter distributes over concatenation, so the original order is kept |
| ChartConfiguration.NearestIndex | Dynamometer/Dashboard/Chart/ChartConfiguration.swift:160-162 | the chosen point has minimal distance to the scroll position, and every earlier point is strictly farther (the first of ties) |
| ChartConfiguration.FindNearestPoint | Dynamometer/Dashboard/Chart/ChartConfiguration.swift:156-167 | empty for no data, otherwise exactly the nearest point |
| ChartConfiguration.VisibleChartData | Dynamometer/Dashboard/Chart/ChartConfiguration.swift:106-120 | empty data gives nothing; when a point is in the window the result is the in-window subsequence; otherwise the single nearest point; non-empty data never gives an empty result |
| ChartConfiguration.ExtractAllValues | Dynamometer/Dashboard/Chart/ChartConfiguration.swift:62-66 | contains every value and every present moving average, and nothing else |
| ChartConfiguration.PointValues | Dynamometer/Dashboard/Chart/ChartConfiguration.swift:63 | the value of each point, in order |
| ChartConfiguration.SmaValues | Dynamometer/Dashboard/Chart/ChartConfiguration.swift:64 | exactly the present moving averages |
| ChartConfiguration.DomainFromValues | Dynamometer/Dashboard/Chart/ChartConfiguration.swift:84-102 | `[min(dataMin, bMin) − 1, max(dataMax, bMax) + 1]`, strictly containing every value and the baseline |
| ChartConfiguration.EmptyDataDomain | Dynamometer/Dashboard/Chart/ChartConfiguration.swift:77-79 | `[min(bMin,bMax) − 5, max(bMin,bMax) + 5]`, strictly containing both baseline bounds |
| ChartConfiguration.CreateDataHash | Dynamometer/Dashboard/Chart/ChartConfiguration.swift:185-189 | the hash of no points is the hash of the empty key list, and of one point the hash of its date and value alone |
| ChartConfiguration.HashIgnoresMovingAverage | Dynamometer/Dashboard/Chart/ChartConfiguration.swift:185-189 | the data hash depends only on the dates and values of the visible points |
| ChartConfiguration.ResolveYDomain | Dynamometer/Dashboard/Chart/ChartConfiguration.swift:14-101 | a stored domain with an unchanged hash is returned with nothing scheduled; otherwise the recomputed domain, or the stored one when nothing is visible, or the baseline fallback; every recomputed domain is scheduled for storage with its own hash |
| ChartConfiguration.ResolvedDomainIsStable | Dynamometer/Dashboard/Chart/ChartConfiguration.swift:36-45 | once the scheduled write has run, the same request returns the same domain and schedules nothing |
| ChartConfiguration.RecomputedDomainContainsVisible | Dynamometer/Dashboard/Chart/ChartConfiguration.swift:90-99 | a recomputed domain strictly contains every visible value, every visible moving average and the baseline |
| ChartConfiguration.CalculateYDomain | Dynamometer/Dashboard/Chart/ChartConfiguration.swift:14-34 | answers `ResolveYDomain` for the visible data and state, appends only the scheduled write to the queue and changes no field at call time |
| ChartConfiguration.BaselineColor | Dynamometer/Dashboard/Chart/ChartConfiguration.swift:171-175 | red iff below min, green iff at least min and above max, gray iff within |
| ChartConfiguration.BaselineColorMatchesClassification | Dynamometer/Dashboard/Chart/ChartConfiguration.swift:171-175 | the chart colour agrees with `classify`: red/below, green/above, gray/within |
| ChartStates.RunNext | Dynamometer/Dashboard/Chart/ChartState.swift:48-53 | running the oldest queued block removes exactly it from the queue; an empty queue changes nothing |
| ChartStates.RunAll | Dynamometer/Dashboard/Chart/ChartState.swift:48-53 | running every queued block empties the queue and never moves the scroll position |
| ChartStates.LastQueuedDomainWins | Dynamometer/Dashboard/Chart/ChartState.swift:48-53 | the last domain write queued decides the stored domain and hash |
| ChartStates.LaterBlocksKeepDomain | Dynamometer/Dashboard/Chart/ChartState.swift:23-25 | blocks that are not domain writes leave domain and hash alone |
| ChartStates.QueuedInitializationTakesEffect | Dynamometer/Dashboard/Chart/ChartState.swift:43-45 | a queued `hasInitialized = true` leaves the state initialised once the queue has run |
| ChartStates.InitializedStaysSet | Dynamometer/Dashboard/Chart/ChartState.swift:23-25 | no queued block clears the initialisation flag |
| ChartStates.ChartState.constructor | Dynamometer/Dashboard/Chart/ChartState.swift:12-15 | a fresh state is uninitialised, with no domain, hash 0 and nothing queued |
| ChartStates.ChartState.ResetForPeriodChange | Dynamometer/Dashboard/Chart/ChartState.swift:17-26 | clears the flag, domain and hash, sets the scroll position, and queues `hasInitialized = true` |
| ChartStates.ChartState.ResetForNewData | Dynamometer/Dashboard/Chart/ChartState.swift:28-32 | clears domain and hash and sets the scroll position; flag and queue unchanged |
| ChartStates.ChartState.ResetForScaleChange | Dynamometer/Dashboard/Chart/ChartState.swift:34-37 | clears only domain and hash |
| ChartStates.ChartState.InitializeScrollPosition | Dynamometer/Dashboard/Chart/ChartState.swift:39-46 | a no-op once initialised; otherwise sets the scroll position and queues `hasInitialized = true` |
| ChartStates.ChartState.UpdateStableDomain | Dynamometer/Dashboard/Chart/ChartState.swift:48-53 | only queues the write of domain and hash together; no field changes at call time |
| ChartStates.ChartState.RunNextBlock | Dynamometer/Dashboard/Chart/ChartState.swift:23-25 | the main queue runs its oldest block, as `RunNext` says |
| ChartStates.ChartState.Drain | Dynamometer/Dashboard/Chart/ChartState.swift:49-52 | the main queue runs to empty, as `RunAll` says |
| ChartStates.StaleWriteAfterPeriodChange | Dynamometer/Dashboard/Chart/ChartState.swift:17-26 | a domain write queued before a period change overwrites the cleared domain and hash after it |
| GuidanceLogic.Classify | Dynamometer/Features/Guidance/GuidanceLogic.swift:54-58 | below iff `value < min`; above iff `value ≥ min` and `value > max`; within iff `min ≤ value ≤ max` |
| GuidanceLogic.ClassifyIsMonotone | Dynamometer/Features/Guidance/GuidanceLogic.swift:54-58 | with `min ≤ max` a larger value never gets a lower category |
| GuidanceLogic.ListTag | Dynamometer/Features/Guidance/GuidanceLogic.swift:61-65 | below min: "Below" in the below colour; within `[min, max]`: "Baseline" in the within colour; at least min and above max: "Above" in the above colour |
| GuidanceLogic.TrainingGuidance | Dynamometer/Features/Guidance/GuidanceLogic.swift:67-70 | below min: "Take Rest"; within `[min, max]`: "Train Normally"; at least min and above max: "Go Hard"; each in its category's colour |
| GuidanceLogic.TrendGuidance | Dynamometer/Features/Guidance/GuidanceLogic.swift:72-75 | below min: "Take deload"; within `[min, max]`: "Train Normally"; at least min and above max: "Fully recovered"; each in its category's colour |
| GuidanceLogic.TagsShareColor | Dynamometer/Features/Guidance/GuidanceLogic.swift:61-75 | the three helpers always give the same colour |
| GuidanceLogic.ListColorIsGuidanceColor | Dynamometer/Features/Guidance/GuidanceLogic.swift:25-41 | the list colour table is the guidance colour table |
| GuidanceLogic.LabelTablesAreInjective | Dynamometer/Features/Guidance/GuidanceLogic.swift:9-50 | each label table, and the colour table, tells the three categories apart |
| AutoCalculation.DefaultsAreOrdered | Dynamometer/Settings/BaselineConfiguration/AutoCalculation.swift:13-14 | the default minimum 35 is at most the default maximum 45 |
| AutoCalculation.Median | Dynamometer/Settings/BaselineConfiguration/AutoCalculation.swift:19-26 | the median of an ascending sequence lies between its first and last element |
| AutoCalculation.MedianSplitsInHalf | Dynamometer/Settings/BaselineConfiguration/AutoCalculation.swift:19-26 | for ascending input of length n, at least ⌈n/2⌉ elements are at most the median and at least ⌈n/2⌉ are at least it; for odd n it is the middle element, for even n it lies between the two middle ones |
| AutoCalculation.CalculateBaseline | Dynamometer/Settings/BaselineConfiguration/AutoCalculation.swift:15-33 | nil iff there are no readings; otherwise min is `max(0, 0.95·median)` (never negative) and max is `1.05·median` |
| AutoCalculation.MedianWithinReadings | Dynamometer/Settings/BaselineConfiguration/AutoCalculation.swift:18-26 | the median lies between the smallest and the largest reading |
| AutoCalculation.BaselineIsOrderIndependent | Dynamometer/Settings/BaselineConfiguration/AutoCalculation.swift:18 | reordering the readings does not change the baseline |
| AutoCalculation.CorridorBracketsMedian | Dynamometer/Settings/BaselineConfiguration/AutoCalculation.swift:29-32 | for a non-negative median, `min ≤ median ≤ max` |
| BaselineValidation.Validate | Dynamometer/Settings/BaselineConfiguration/ValidationLogic.swift:11-47 | nothing parses: nothing changes and `(nil,false)`; a parsed min is stored; once anything parses `min ≤ max`; a parsed max ends as `max(maxVal, newMin)`; the flag is raised iff a value is reported, which happens iff max was pushed up to the new min or the max text was clamped |
| BaselineValidation.ReportedMaxCanDifferFromStored | Dynamometer/Settings/BaselineConfiguration/ValidationLogic.swift:28-43 | a new min above the old max with a parsed max at or above it reports the min but stores the typed max |
| BaselineValidation.ValidateAndUpdate | Dynamometer/Settings/BaselineConfiguration/ValidationLogic.swift:11-47 | writes `Validate`'s baseline into the settings, returns its report, and leaves the other settings alone |
| TrendAnalysis.CalculateTrend | Dynamometer/Dashboard/GuidanceSystem/TrendAnalysis.swift:10-29 | stable with fewer than 2·window readings; otherwise improving iff `recent − previous > 0.05·previous`, declining iff `< −0.05·previous`, stable otherwise |
| TrendAnalysis.TrendDirection.Description | Dynamometer/Dashboard/GuidanceSystem/TrendAnalysis.swift:37-43 | "Improving", "Declining" and "Stable", each naming exactly its own direction |
| TrendAnalysis.OnlyLeadingReadingsMatter | Dynamometer/Dashboard/GuidanceSystem/TrendAnalysis.swift:13-14 | only the first 2·window readings affect the result |
| TrendAnalysis.DecliningMeansFivePercentDrop | Dynamometer/Dashboard/GuidanceSystem/TrendAnalysis.swift:24-25 | with a non-negative previous mean, declining iff the recent mean is below 95% of it |
| TrendAnalysis.EqualAveragesAreStable | Dynamometer/Dashboard/GuidanceSystem/TrendAnalysis.swift:22-28 | equal means with a non-negative previous mean give stable |
| PerformanceFeedback.Message | Dynamometer/Dashboard/GuidanceSystem/PerformanceFeedback.swift:10-31 | the healthcare-provider message comes from (below, declining) and only from it |
| PerformanceFeedback.MessagesAreDistinct | Dynamometer/Dashboard/GuidanceSystem/PerformanceFeedback.swift:11-30 | distinct (category, trend) pairs get distinct messages |
| PerformanceFeedback.ActionSuggestion | Dynamometer/Dashboard/GuidanceSystem/PerformanceFeedback.swift:33-42 | above: "Maintain your current routine"; within: "Consider progressive overload"; below: "Focus on consistent training" |
| PerformanceFeedback.SuggestionsAreDistinct | Dynamometer/Dashboard/GuidanceSystem/PerformanceFeedback.swift:33-42 | the three categories get three distinct suggestions |
| Readings.IsValidGripStrength | Dynamometer/Models/Reading.swift:16-19 | holds iff a value is present and `0 < v ≤ 200` |
| Readings.OneYearAgo | Dynamometer/Models/Reading.swift:23 | one calendar year before now, or the distant past when the calendar fails |
| Readings.IsValidDate | Dynamometer/Models/Reading.swift:21-25 | holds iff `oneYearAgo ≤ date ≤ now`, both ends inclusive |
| Readings.IsValid | Dynamometer/Models/Reading.swift:27-29 | the conjunction of the value and date checks |
| Readings.Create | Dynamometer/Models/Reading.swift:31-36 | nil iff either check fails; otherwise a valid reading with exactly the given date and value |
| Readings.GripStrengthBounds | Dynamometer/Models/Reading.swift:16-19 | 0 and nil are rejected, 200 is accepted |
| InputValidation.IsValidGripStrength | Dynamometer/Dashboard/DataEntry/InputValidation.swift:10-13 | holds iff a value is present and `0 < v ≤ 200` |
| InputValidation.IsValidDate | Dynamometer/Dashboard/DataEntry/InputValidation.swift:15-19 | holds iff the date is within one calendar year before now (or after the distant past) and not after now |
| InputValidation.AgreesWithReading | Dynamometer/Dashboard/DataEntry/InputValidation.swift:10-19 | both form checks agree with the `Reading` checks on every input |
| Settings.AppSettings.constructor | Dynamometer/Models/AppSettings.swift:12-23 | min is stored as given, max is raised to min when below it, so `min ≤ max`; period, scale and SMA window are stored verbatim |
| Settings.AppSettings.WithDefaults | Dynamometer/Models/AppSettings.swift:13-17 | the defaults 35, 55, "3M", "D", 7 |
| SmaConfiguration.ClampSmaWindow | Dynamometer/Settings/ChartPreferences/SMAConfiguration.swift:23 | the window is in `[1, 30]`, values in range are kept, below 1 gives 1, above 30 gives 30 |
| SmaConfiguration.ClampIsIdempotentAndMonotone | Dynamometer/Settings/ChartPreferences/SMAConfiguration.swift:23 | clamping twice is clamping once, and the clamp is monotone |
| SmaConfiguration.SetSmaWindow | Dynamometer/Settings/ChartPreferences/SMAConfiguration.swift:22-25 | stores the clamped window and changes no other setting |
| Sorting.SortBy | Dynamometer/Settings/DataManagement/CSVImport.swift:42 | the result is ordered by the key and is a permutation of the input |
| Sorting.SortByKeepsElements | Dynamometer/Settings/DataManagement/CSVExport.swift:20 | sorting neither adds nor loses a reading |
| Sorting.SortSortedIsIdentity | Dynamometer/Settings/DataManagement/CSVImport.swift:42 | sorting an ordered sequence changes nothing |
| Sorting.SortRealsIsOrderIndependent | Dynamometer/Settings/BaselineConfiguration/AutoCalculation.swift:18 | sorted values do not depend on the input order |
| CsvText.TrimStartKeepsSuffix | Dynamometer/Settings/DataManagement/CSVImport.swift:18 | drops exactly the leading whitespace: the result is a suffix, what was dropped is whitespace, and it does not start with whitespace |
| CsvText.TrimEndKeepsPrefix | Dynamometer/Settings/DataManagement/CSVImport.swift:18 | drops exactly the trailing whitespace, symmetrically |
| CsvText.TrimLeavesNoOuterWhitespace | Dynamometer/Settings/DataManagement/CSVImport.swift:18 | a trimmed string neither starts nor ends with whitespace |
| CsvText.TrimIsEmptyIffBlank | Dynamometer/Settings/DataManagement/CSVImport.swift:18-19 | a line trims to empty iff every character is whitespace or a newline |
| CsvText.TrimOfTrimmed | Dynamometer/Settings/DataManagement/CSVImport.swift:18 | a string with no whitespace at either end is its own trim |
| CsvText.ComponentsHaveNoSeparator | Dynamometer/Settings/DataManagement/CSVImport.swift:12 | no line contains a newline character |
| CsvText.ComponentsOfJoin | Dynamometer/Settings/DataManagement/CSVExport.swift:26 | splitting a join of separator-free parts gives the parts back |
| CsvText.NonEmptyKeepsPieces | Dynamometer/Settings/DataManagement/CSVImport.swift:48-50 | only empty pieces are dropped, and the rest are kept in order |
| CsvText.SplitPieces | Dynamometer/Settings/DataManagement/CSVImport.swift:48-50 | every piece of `split` is non-empty and free of separators |
| CsvText.SeparatorRunsCollapse | Dynamometer/Settings/DataManagement/CSVImport.swift:45-51 | a run of two separators splits like a single one |
| CsvImport.SplitCsv | Dynamometer/Settings/DataManagement/CSVImport.swift:45-51 | an empty line has no fields, and a clean line without separators is its own single field |
| CsvImport.SplitCsvOfTwoFields | Dynamometer/Settings/DataManagement/CSVImport.swift:45-51 | two clean fields joined by a comma, semicolon or tab split back into exactly those two |
| CsvImport.SplitCsvFields | Dynamometer/Settings/DataManagement/CSVImport.swift:45-51 | every field is trimmed and contains no ',', ';' or tab |
| CsvImport.ParseDouble | Dynamometer/Settings/DataManagement/CSVImport.swift:53-56 | a text without a comma is read by the number parser unchanged |
| CsvImport.CommaReadsAsPoint | Dynamometer/Settings/DataManagement/CSVImport.swift:53-56 | texts that differ only in comma versus point read as the same number |
| CsvImport.ParseColumns | Dynamometer/Settings/DataManagement/CSVImport.swift:34-40 | (date, value) is tried first; only when it fails is (value, date) tried; nothing is read iff neither order parses |
| CsvImport.DecimalCommaNeverReachesParser | Dynamometer/Settings/DataManagement/CSVImport.swift:53-56 | on fields from `splitCSV`, `parseDouble` is the plain number parser |
| CsvImport.SwappedColumnsAgree | Dynamometer/Settings/DataManagement/CSVImport.swift:34-40 | a line that does not read as (date, value) reads the same as its swapped columns |
| CsvImport.ParseText | Dynamometer/Settings/DataManagement/CSVImport.swift:42 | the result is sorted by date and is a permutation of the collected pairs |
| CsvImport.Parse | Dynamometer/Settings/DataManagement/CSVImport.swift:11-43 | the loop then the sort compute `ParseText` |
| CsvImport.CollectLines | Dynamometer/Settings/DataManagement/CSVImport.swift:16-41 | the line loop appends exactly the pairs `Collect` reads, in file order |
| CsvImport.ReadRawLine | Dynamometer/Settings/DataManagement/CSVImport.swift:18-40 | one iteration: the pair it appends, if any, and the new first-line flag |
| CsvImport.ParsedPairsAtMostNonBlankLines | Dynamometer/Settings/DataManagement/CSVImport.swift:17-41 | there are no more pairs than non-blank lines |
| CsvImport.LeadingBlankLinesAreIgnored | Dynamometer/Settings/DataManagement/CSVImport.swift:18-19 | blank lines before the first non-blank one do not count as the first line |
| CsvImport.FirstLineWithLetterIsSkipped | Dynamometer/Settings/DataManagement/CSVImport.swift:22-25 | the first non-blank line is dropped whenever it contains a letter |
| CsvImport.LaterLinesIgnoreLetters | Dynamometer/Settings/DataManagement/CSVImport.swift:22-26 | after the first non-blank line, no line is treated as a header |
| CsvExport.DataLines | Dynamometer/Settings/DataManagement/CSVExport.swift:21-25 | one line per reading, each `fmtDate(date) + "," + fmtValue(value)` |
| CsvExport.MakeCsv | Dynamometer/Settings/DataManagement/CSVExport.swift:13-27 | the loop builds the header, the date-sorted data lines, newline-joined with a final newline |
| CsvExport.ExportOfNothing | Dynamometer/Settings/DataManagement/CSVExport.swift:14 | no readings give exactly "date,value\n" |
| CsvExport.ExportedLines | Dynamometer/Settings/DataManagement/CSVExport.swift:14-26 | the exported text's lines are the header, one line per reading in date order, and the empty piece after the final newline |
| CsvExport.ExportedHeaderIsSkipped | Dynamometer/Settings/DataManagement/CSVExport.swift:14 | the exported header contains a letter, so the import skips it |
| CsvExport.DataLineReadsBack | Dynamometer/Settings/DataManagement/CSVExport.swift:24 | a data line with clean, invertible fields reads back as its reading |
| CsvExport.DataLinesReadBack | Dynamometer/Settings/DataManagement/CSVExport.swift:21-26 | the data lines and the final empty piece read back as the readings, in order |
| CsvExport.ExportThenImport | Dynamometer/Settings/DataManagement/CSVExport.swift:13-27 | importing an exported file gives back every reading, sorted by date |
| DataImport.MessageText | Dynamometer/Settings/DataManagement/ErrorManagement.swift:36-49 | "No readings found in file" comes from that message and only from it; a count reads "Imported <count> readings"; a failure reads "Import failed: " followed by its reason |
| DataImport.MessageKindsAreDistinct | Dynamometer/Settings/DataManagement/ErrorManagement.swift:36-49 | the three kinds of import message always have different texts |
| DataImport.KeySet | Dynamometer/Settings/DataManagement/DataImportExport.swift:71 | exactly the keys of the existing readings |
| DataImport.NewReadings | Dynamometer/Settings/DataManagement/DataImportExport.swift:73-79 | no more insertions than pairs |
| DataImport.NewReadingsOfConcat | Dynamometer/Settings/DataManagement/DataImportExport.swift:73-79 | insertions follow file order: two stretches of the file insert one after the other |
| DataImport.InsertedCount | Dynamometer/Settings/DataManagement/DataImportExport.swift:71-79 | a pair with an existing key is never inserted; a pair with a free key is inserted once per occurrence, so duplicates within one file all go in |
| DataImport.InsertedComeFromFreePairs | Dynamometer/Settings/DataManagement/DataImportExport.swift:73-78 | every inserted reading has a pair's date and value and a free key |
| DataImport.NothingTakenInsertsAll | Dynamometer/Settings/DataManagement/DataImportExport.swift:73-79 | with no key taken every pair is inserted, in order |
| DataImport.AllTakenInsertsNothing | Dynamometer/Settings/DataManagement/DataImportExport.swift:74-75 | with every key taken nothing is inserted |
| DataImport.ReimportInsertsNothing | Dynamometer/Settings/DataManagement/DataImportExport.swift:71-79 | once the inserted readings are in the store, importing the same pairs again inserts nothing |
| DataImport.ImportResult | Dynamometer/Settings/DataManagement/DataImportExport.swift:60-85 | an unreadable file inserts nothing and reports the failure; no pairs insert nothing and report "no readings"; otherwise the reported count is the number inserted, at most the number of pairs |
| DataImport.DataImportExport.constructor | Dynamometer/Settings/DataManagement/DataImportExport.swift:13-16 | nothing inserted and no message |
| DataImport.DataImportExport.ImportCsv | Dynamometer/Settings/DataManagement/DataImportExport.swift:60-85 | appends `ImportResult`'s readings to the store and sets its message |
| DataImport.DataImportExport.InsertNew | Dynamometer/Settings/DataManagement/DataImportExport.swift:71-79 | the loop inserts `NewReadings` in order and counts exactly those |

## Left out

- **User interface and persistence.** SwiftUI views, alerts and layout are
  not modelled. Neither are SwiftData persistence (`modelContext.save`,
  whose `try?` failure is ignored), the file pickers, CloudKit and the
  migrations.
- **Chart data.** The bucketing and moving-average computation that
  produces the chart points (`filteredByPeriod`) is not part of this model.
  Chart points are given as dates, values and optional moving averages.
- **The views that drive `ChartState`** (appear, period, count and scale
  changes) are not modelled. The call to `scrollDomain` in
  `ChartContentView.swift` (lines 129-133) omits the `hasInitialized`
  argument, which `ChartScaling.scrollDomain` declares without a default
  value, so that part of the source does not type-check as given.
- **Floating point.** Every `Double` is a real, with no rounding or NaN.
  `TrendAnalysis` with a window of 0 divides 0 by 0 in Swift, and every
  comparison with NaN is false. The model returns stable directly, which
  is the same outcome.
- **Text.** Strings are sequences of Unicode scalars. Swift `Character`
  grapheme clusters are not modelled, so "\r\n" counts as two newline
  characters. The model uses the same scalar sets as `CharacterSet`.
- **Runtime traps.** A `ClosedRange` whose lower bound exceeds its upper
  bound traps at run time; the model keeps such a pair and states
  well-formedness in lemmas instead. The calendar force-unwrap in
  `visibleWidth` is a precondition. `calculateTrend` takes `window: Int`
  and traps in `prefix` for a negative window; the model's window is a
  `nat`, so that case is excluded rather than modelled.
- **Library calls are parameters** (the calendar, the hash, the date and
  number parsers, the letter set, the formatters, `keyFor`, the file read).
  Their own behaviour (the date formats, `%.3f` rounding, UTF-8 decoding)
  is not modelled.
- **CsvExport.ExportThenImport** assumes the formatters and parsers are
  exact inverses on the exported readings (`RoundTrips`). With the real
  "yyyy-MM-dd" and "%.3f" formatters, time of day and digits beyond the
  third decimal are lost.
- **ChartConfiguration.CreateDataHash**: the string rendering of each
  point and Swift's `hashValue` are the `hasher` parameter, so the contract
  says only which fields of the points are hashed, not the hash itself.
- **Alert text.** The text of the import messages is modelled
  (`DataImport.MessageText`) with the decimal rendering of the count as a
  parameter. The export alert is not modelled.
- **Sort stability.** The model's sort is stable and the export/import
  round trip relies on it (see "Modelling choices"). A Swift runtime whose
  `sorted(by:)` were not stable could return two readings with the same
  date in the other order.
