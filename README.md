# Utilization report core, modelled in Dafny

The Utilization application produces the weekly utilization report of one cost centre
(504686) from a timesheet workbook. It stores one report record per consultant and report
date, lets managers override the figures afterwards, and charts who is under-utilized.
This project models that core in Dafny and proves properties of the model.

- **The report generator** (`util/util_report/new_main.py`, class `UtilizationReportGenerator`)
  - The file name gives the report date, the week number and the days required so far.
    Weeks are 7-day buckets of the month; each week requires 5 more days.
  - The workbook engine follows from the file extension.
  - A header row is looked for in the first 20 rows of a sheet, and it must hold every
    column the generator reads.
  - The WTD and MTD sheets are kept to the cost centre and turned into days.
  - The MTD days are pivoted per resource and work type, and a Grand Total is added.
    Rows with a blank email or work type are dropped by the pivot.
  - The pivot is merged with the WTD actuals and with the reference data (RDM, track, billing).
  - Last week's logged days are carried forward from the store.
  - The additional days owed are computed from the billing type.
    Billing owes up to the week's required days; Partial owes up to half of them.
  - Each resource gets a status, open or close, from its billing type and the days logged.
  - Excluded resources are closed.
  - One record per row with an email is built for the report date, with the week's utilization figures.
  - `ReportGenerator` is a class whose fields are the generator's attributes. Each method
    states the new attributes as specification functions of the old ones.
- **The earlier generator** (`util/util_report/main.py`), as class `LegacyGenerator`.
  It differs in several ways:
  - It reads the date from the last word of the file name.
  - It scans every row for the header.
  - Its Grand Total runs over the work-type columns between Administrative and Vacation.
  - It carries last week forward by exact email match.
  - It truncates the days owed differently.
- **The report store** (`UtilizationReportModel` and `UtilizationHistoryModel`).
  - Records are held under their database ids.
  - The table invariant is that (email, date) is unique.
  - Deletion by date, bulk creation and `.first()` are modelled.
- **The overrides** of `util/util_report/views.py`:
  - closing cases;
  - editing comments;
  - editing billable hours, which re-derives the additional days and status;
  - editing additional days, which recomputes the capable utilization of the week.
- **The low-utilization view** (`get_low_utilization_resources`):
  - the most recent month-end report;
  - reports grouped per resource;
  - lists of resources below 35% and below 50%;
  - range counts, tallies and averages.
- **The direct import** (`util/util_report/push_direct_report.py`):
  - `safe_float`;
  - the import of a list of dictionaries;
  - the import of a data frame that derives Total Logged and Additional Days.
- **The staffing save rules**:
  - `Resource.save`, which sets the status and availability from the joining date;
  - `Allocation.save`, which makes the allocation status follow the billing type;
  - `Requirement.is_fulfilled`.

Inputs from outside become parameters:
- the workbook's sheets, as rows of cells;
- the stored reference data and exclusion list;
- the database tables, as maps;
- today's date;
- the request payloads.

Numbers are `real`. Text is `seq<char>`, compared and lower-cased on the ASCII range.

## Model

| member | source | states |
|---|---|---|
| Calendar.DaysInMonth | util/util_report/new_main.py:53 | A month has 28 to 31 days, and 29 exactly for February of a leap year, as `strptime` checks the day against the month |
| Calendar.MonthStep | util/util_report/new_main.py:56 | Day counting: the days before a month are those before the previous month plus its length, which makes the ordinal used by `- timedelta(days=7)` well defined |
| Calendar.YearIsTwelveMonths | util/util_report/new_main.py:56 | The twelve months add up to the days of the year, so stepping back across a year boundary lands on 31 December |
| Calendar.MinusWeek | util/util_report/new_main.py:56 | `date - timedelta(days=7)`, with `OverflowError` before 0001-01-01; its meaning is stated by `MinusWeekIsSevenDaysEarlier` and `MinusWeekIsBefore` |
| Calendar.MinusWeekIsSevenDaysEarlier | util/util_report/new_main.py:56 | `date - timedelta(days=7)` gives a valid date exactly seven days earlier, across month and year boundaries; it overflows exactly in the first week of year 1 |
| Calendar.MinusWeekIsBefore | util/util_report/new_main.py:56 | The previous-week date comes strictly before the report date |
| Calendar.WeekNumber | util/util_report/new_main.py:57 | `(day - 1) // 7 + 1`; its range is stated by `WeekBounds` and its order by `RequiredDaysMonotone` |
| Calendar.RequiredDays | util/util_report/new_main.py:58-59 | `week_number * 5`, the working days required so far; bounded by `WeekBounds` |
| Calendar.WeekBounds | util/util_report/new_main.py:57-59 | The week number `(day - 1) // 7 + 1` is 1 to 5, and 5 exactly from the 29th; the total days are a multiple of 5 between 5 and 25 |
| Calendar.RequiredDaysMonotone | util/util_report/new_main.py:57-59 | A later day of the same month never has a lower week number or fewer required days |
| Calendar.PreviousWeekSameMonth | util/util_report/new_main.py:56-57 | From week 2 on, the previous-week date is in the same month, seven days earlier, with a week number one lower; this is the date the carry-forward looks up |
| Calendar.MonthFromAbbrev | util/util_report/new_main.py:53 | `%b` reads a month exactly when the text equals that month's abbreviation ignoring case, and no month otherwise |
| Calendar.FindMonth | util/util_report/new_main.py:53 | Searching the abbreviations from a position finds the first matching month after it, or shows that none matches |
| Calendar.MonthFromAbbrevOwn | util/util_report/new_main.py:53 | Every abbreviation, in any mix of cases, reads as its own month |
| Calendar.DistinctAbbrevs | util/util_report/new_main.py:53 | No two months share an abbreviation, so `%b` is unambiguous |
| Calendar.LowerOfAbbrev | util/util_report/new_main.py:53 | The abbreviations that `%b` writes lower-case to the forms it reads |
| Calendar.Pad2 | util/util_report/new_main.py:55 | `%d` and `%m` write exactly two digits |
| Calendar.Pad4 | util/util_report/new_main.py:55 | `%Y` writes exactly four digits |
| Calendar.DigitRoundTrip | util/util_report/new_main.py:55 | A digit written is read back as the same value |
| Calendar.Pad2Value | util/util_report/new_main.py:55 | A two-digit field reads back as the number written |
| Calendar.Pad4Value | util/util_report/new_main.py:55 | A four-digit year reads back as the year written |
| Calendar.DecimalValueAppend | util/util_report/new_main.py:53 | Reading digits followed by two more digits shifts the first part two places left |
| Calendar.MakeDate | util/util_report/new_main.py:53 | Building a date succeeds exactly for a real calendar date (else `ValueError`) and then holds exactly the given year, month and day |
| Calendar.ParseDayMonYear | util/util_report/new_main.py:53 | `strptime(t, "%d%b%Y")` only ever yields real calendar dates |
| Calendar.ParseFormatDayMonYear | util/util_report/new_main.py:52-53 | A date written as "10Apr2025" parses back to the same date |
| Calendar.ParseIsoDate | util/dataextract/models/resource.py:59-61 | `strptime(s, '%Y-%m-%d')` only ever yields real calendar dates |
| Calendar.ParseFormatIso | util/util_report/new_main.py:55 | A date written by `strftime('%Y-%m-%d')` (the stored `file_date`) parses back to the same date |
| Text.Strip | util/util_report/new_main.py:481 | `strip()` leaves no whitespace at either end and never lengthens the text |
| Text.StripIdempotent | util/util_report/new_main.py:481 | Stripping twice is stripping once |
| Text.StripEmptyIffBlank | util/util_report/new_main.py:481 | A value strips to the empty string exactly when it is all whitespace |
| Text.StripOfStripped | util/util_report/new_main.py:137 | A value with no whitespace at either end, such as "504686", is left unchanged by `strip()` |
| Text.Lower | util/util_report/new_main.py:66 | `lower()` keeps the length and lower-cases each ASCII capital, leaving every other character alone |
| Text.LowerIdempotent | util/util_report/new_main.py:308-315 | Lower-casing twice is lower-casing once, so an email lower-cased as a map key is found again when the lookup lower-cases it |
| Text.Split | util/util_report/main.py:37 | `split()` yields non-empty words without whitespace |
| Text.SplitEmptyIffBlank | util/util_report/main.py:37 | `split()` is empty exactly for a blank name, which is when `[-1]` raises |
| Text.SplitOfToken | util/util_report/main.py:37 | A single word splits into itself alone |
| Text.SplitKeepsCharacters | util/util_report/main.py:37 | The words of `split()`, joined, are the non-whitespace characters of the text in order: nothing but whitespace is dropped |
| Text.SplitOfJoinSpaced | util/util_report/main.py:37 | Non-empty words without whitespace, joined by single spaces, split back into exactly those words |
| Text.Basename | util/util_report/new_main.py:48 | `os.path.basename` is a suffix of the path |
| Text.BasenameHasNoSlash | util/util_report/new_main.py:48 | A base name holds no '/' |
| Text.SplitExt | util/util_report/new_main.py:66 | `os.path.splitext` splits the path into a root and an extension that concatenate back to it; a non-empty extension starts with '.' |
| Text.SplitExtSound | util/util_report/new_main.py:66 | An extension holds no further '.' and no '/' |
| Text.LastIndexOfLast | util/util_report/new_main.py:48 | The position found for a character is its last occurrence, and none is found only when it does not occur |
| FileNames.MatchAt | util/util_report/new_main.py:48 | A match of `\d{1,2}[A-Za-z]{3}\d{4}` is 8 or 9 characters long and lies inside the name |
| FileNames.SearchFrom | util/util_report/new_main.py:48 | `re.search` returns the leftmost position where a match starts; no match starts before it |
| FileNames.SearchSkips | util/util_report/new_main.py:48 | The search passes over every position where no match starts and stops at the first one that matches |
| FileNames.ParseFileDate | util/util_report/new_main.py:45-61 | `parse_date_from_filename`: the first date-shaped token of the base name read with `%d%b%Y`, then the previous-week date, week number, month name and total days; stated by `ParseFileDateSound`, `ParseFileDateNeedsToken` and `ParseFileDateFindsToken` |
| FileNames.ParseFileDateSound | util/util_report/new_main.py:45-61 | After a successful parse, every date is real. The previous week is 7 days earlier. The week number is 1 to 5 and total days are 5 times it (at most 25). The month name is the date's month. |
| FileNames.ParseFileDateNeedsToken | util/util_report/new_main.py:48-50 | A base name without a date-shaped token is refused with `ValueError` |
| FileNames.ParseFileDateFindsToken | util/util_report/new_main.py:48-53 | The date is read from the first date-shaped token of the file name, whatever follows it in the name |
| FileNames.TokenShape | util/util_report/new_main.py:48 | A date written as "10Apr2025" has the shape the regex looks for: two digits, three letters, four digits |
| FileNames.SplitAppendToken | util/util_report/main.py:37 | A name ending in a space and a word splits with that word last |
| FileNames.ParseFileDateLegacy | util/util_report/main.py:35-45 | The earlier `parse_date_from_filename`: the last word of the path without its extension read with `%d%b%Y`, `IndexError` without a word; stated by `ParseFileDateLegacyLastToken` and `LegacySameContext` |
| FileNames.ParseFileDateLegacyLastToken | util/util_report/main.py:35-38 | The earlier generator reads the date from the last word of the path without its extension |
| FileNames.LegacySameContext | util/util_report/main.py:42-45 | The earlier generator derives the same week number, total days and previous-week date from a parsed date |
| FileNames.EngineFor | util/util_report/new_main.py:63-84 | `read_excel_file`'s engine for the lower-cased extension, `ValueError` for any other; stated by `EngineForAccepts` |
| FileNames.EngineForAccepts | util/util_report/new_main.py:65-72 | Exactly the extensions .xlsb, .xlsx, .xlsm and .xls are accepted, in any letter case, and .xlsx and .xlsm map to openpyxl; a path without an extension is refused with `ValueError` |
| FileNames.SplitExtOfName | util/util_report/new_main.py:66 | A plain name plus a plain extension splits back into those two parts |
| Sheets.RowHasLabel | util/util_report/new_main.py:93 | `target in row.values` is true exactly when some cell of the row is the label |
| Sheets.FindHeaderRow | util/util_report/new_main.py:86-99 | Returns the first of the first 20 rows holding the label. It fails with the "Header containing … not found" message exactly when none of those 20 rows holds it, even if a later row does |
| Sheets.FindHeaderRowAnywhere | util/util_report/main.py:62-70 | The earlier generator returns the first row anywhere that holds the label, and fails exactly when no row does |
| Sheets.RowHasLabels | util/util_report/new_main.py:124-157 | The `usecols` check: true exactly when every listed column is a cell of the header row |
| Sheets.ReadableAt | util/util_report/new_main.py:117-157 | Once the header row is found, `read_excel(skiprows=…, usecols=…)` gets through exactly when that row holds every listed column |
| Extract.WtdInCostCentre | util/util_report/new_main.py:142-143 | The WTD filter keeps exactly the rows whose stripped cost centre is the text "504686", and never adds rows |
| Extract.WtdInCostCentreCounts | util/util_report/new_main.py:142-143 | Every row of the cost centre is kept as often as it occurs in the sheet, and no other row is kept |
| Extract.KeepWtd | util/util_report/new_main.py:142-166 | Each kept WTD row gains WTD Actuals = Billable Hours / 8 and Utl % multiplied by 100, row for row |
| Extract.MtdKept | util/util_report/new_main.py:161-169 | The MTD filter keeps exactly the rows that are in the cost centre and have a value in the month column |
| Extract.MtdKeptCounts | util/util_report/new_main.py:161-169 | Every surviving MTD row is kept as often as it occurs, so repeated rows all reach the pivot's sums; no other row is kept |
| Extract.KeepMtd | util/util_report/new_main.py:161-172 | Each kept MTD row gains Days = month hours / 8, row for row |
| Extract.HoursToDays | util/util_report/new_main.py:165-172 | Eight times the actuals or days gives the hours back |
| Extract.MtdKeptAllKept | util/util_report/new_main.py:169 | A table already in the cost centre without empty month cells is left unchanged |
| Extract.MtdKeptIdempotent | util/util_report/new_main.py:162-169 | Filtering twice is filtering once |
| Pivot.Dedup | util/util_report/new_main.py:241-247 | The pivot index lists no resource more often than the rows do |
| Pivot.DedupMembers | util/util_report/new_main.py:241-247 | The pivot index holds exactly the resources that appear in the MTD rows |
| Pivot.DedupDistinct | util/util_report/new_main.py:241-247 | No resource appears twice in the pivot index |
| Pivot.Columns | util/util_report/new_main.py:252-257 | The pivot always has `Administrative` and `Vacation` columns, added when the month has no such work type |
| Pivot.ColumnsMembers | util/util_report/new_main.py:241-257 | The columns are exactly the month's work types plus `Administrative` and `Vacation` |
| Pivot.ColumnsDistinct | util/util_report/new_main.py:241-257 | No column appears twice |
| Pivot.ColumnSums | util/util_report/new_main.py:244-246 | A pivot row has one cell per column |
| Pivot.ColumnSumsAt | util/util_report/new_main.py:244-246 | Each cell is the sum of that resource's days under that column's work type |
| Pivot.KeyedRows | util/util_report/new_main.py:241-247 | `pivot_table` keeps exactly the rows whose email and work type are both present (`dropna=True`) |
| Pivot.KeyedCellSum | util/util_report/new_main.py:241-247 | Dropping the rows with a blank key leaves every named resource's sum under a named work type unchanged |
| Pivot.KeyedEmailSum | util/util_report/new_main.py:241-247 | Dropping the rows with a blank key loses exactly a resource's days with a blank work type |
| Pivot.PivotOf | util/util_report/new_main.py:238-263 | The initial report has the `Administrative` and `Vacation` columns and one row per distinct resource with both keys present |
| Pivot.PivotHasNoBlankKeys | util/util_report/new_main.py:241-247 | No pivot row has a blank email and no pivot column a blank work type |
| Pivot.PivotRowShape | util/util_report/new_main.py:241-247 | Row `i` belongs to the `i`-th distinct resource and has one cell per column |
| Pivot.IndexOf | util/util_report/new_main.py:255 | A column is found exactly when the table has it, and at its own position |
| Pivot.CellOf | util/util_report/new_main.py:484-485 | `row.get(column)` yields a value exactly when the column exists |
| Pivot.PivotCoversResources | util/util_report/new_main.py:241-247 | Every resource with an MTD row whose email and work type are present gets a pivot row |
| Pivot.PivotRowsAreResources | util/util_report/new_main.py:241-247 | Every pivot row belongs to a resource with an MTD row whose keys are both present, and no resource has two rows |
| Pivot.PivotCells | util/util_report/new_main.py:241-247 | Each cell is the `sum` of the resource's days under that work type; a pair nobody logged is 0 (`fill_value=0`) |
| Pivot.CellSumAbsent | util/util_report/new_main.py:246 | A pair nobody logged sums to 0 |
| Pivot.PivotGrandTotal | util/util_report/new_main.py:241-263 | A resource's Grand Total is all the days it logged in the month, less the days it logged with a blank work type, which the pivot drops |
| Pivot.PivotGrandTotalAllTyped | util/util_report/new_main.py:241-263 | A resource that never left the work type blank has all of its days in the Grand Total |
| Pivot.SumOfColumnsIsEmailSum | util/util_report/new_main.py:262-263 | Summing a row's cells over distinct columns that cover every work type counts each logged day exactly once |
| Joins.Matches | util/util_report/new_main.py:275-281 | The rows a key joins to are no more than the right table's rows |
| Joins.MatchesSound | util/util_report/new_main.py:275-281 | Every row a key joins to is a right row with that key |
| Joins.JoinOne | util/util_report/new_main.py:275-281 | A left row always yields at least one output row |
| Joins.LeftJoin | util/util_report/new_main.py:275-281 | A left merge never has fewer rows than its left table |
| Joins.LeftJoinSound | util/util_report/new_main.py:275-281 | Every output row carries a left row, and a joined right row has the same key |
| Joins.LeftJoinKeepsLeft | util/util_report/new_main.py:275-281 | A left merge keeps every left row |
| Joins.MatchesNone | util/util_report/new_main.py:275-281 | A key no right row has joins to nothing |
| Joins.MatchesUnique | util/util_report/new_main.py:275-281 | With unique right keys a key joins to at most one row |
| Joins.LeftJoinRowForRow | util/util_report/new_main.py:275-281 | With unique right keys the merge is row for row: the same left rows in the same order |
| Joins.MergeWtd | util/util_report/new_main.py:270-281 | The WTD merge never loses a pivot row |
| Joins.MergeWtdRows | util/util_report/new_main.py:270-281 | Every row of the WTD merge is a pivot row |
| Joins.MergeWtdKeepsResources | util/util_report/new_main.py:270-281 | Every pivot row survives the WTD merge; with one WTD row per consultant the merge is row for row and only adds WTD Actuals |
| Joins.MergeWtdActuals | util/util_report/new_main.py:270-281 | A row's WTD Actuals, when present, are those of a WTD row of the same consultant |
| Joins.NoneToTbd | util/util_report/new_main.py:438 | Billing is never left as the text "None", and any other text is kept |
| Joins.Enrich | util/util_report/new_main.py:418-444 | One reference-merged row: the partner's RDM, track and billing (`None` read as TBD), or Adam, '' and TBD without one; stated by `MergeReferenceRows` and `MergeReferenceKeepsResources` |
| Joins.MergeReference | util/util_report/new_main.py:401-447 | The reference merge never loses a row |
| Joins.MergeReferenceRows | util/util_report/new_main.py:401-447 | Every merged row comes from an initial row, with its pivot values and actuals. No billing type is left as "None". With no reference data, the rows stay as they are and get empty rdm, track and billing |
| Joins.MergeReferenceKeepsResources | util/util_report/new_main.py:418-447 | Every resource survives the merge; a resource missing from non-empty reference data gets rdm `Adam`, track `''` and billing `TBD` |
| Joins.MergeReferenceRowForRow | util/util_report/new_main.py:418-424 | With one reference row per resource the merge is row for row |
| Rules.SanitizeBilling | util/util_report/new_main.py:359-367 | A cleaned billing type is never empty and never "None", and has no outer whitespace |
| Rules.SanitizeBillingIdempotent | util/util_report/new_main.py:359-367 | Cleaning a cleaned billing type changes nothing |
| Rules.SanitizeBillingCases | util/util_report/new_main.py:359-367 | A blank billing type becomes TBD; any other type except "None" keeps its text without outer whitespace |
| Rules.ExclusionSet | util/util_report/new_main.py:513-518 | The exclusion set holds exactly the stripped non-empty entries |
| Rules.LastWeekMap | util/util_report/new_main.py:307-309 | The carry-forward map has a lower-cased key for exactly the records with an email |
| Rules.LastWeek | util/util_report/new_main.py:300-319 | The `Last Week` column: the lower-cased email looked up in last week's map from week 2 on, else 0; stated by `LastWeekFirstWeek`, `LastWeekIgnoresCase`, `LastWeekIsLastMatch` and `LastWeekAbsent` |
| Rules.LastWeekFirstWeek | util/util_report/new_main.py:299-300 | Week 1 carries nothing forward |
| Rules.LastWeekIgnoresCase | util/util_report/new_main.py:313-316 | The carry-forward lookup ignores letter case |
| Rules.LastWeekIsLastMatch | util/util_report/new_main.py:300-316 | From week 2 on, a resource carries the `addtnl_days` of the last of last week's records with its email, in any letter case |
| Rules.LastWeekAbsent | util/util_report/new_main.py:313-316 | A resource none of last week's records names carries 0 |
| Rules.Shortfall | util/util_report/new_main.py:383-385 | The clipped, truncated shortfall is never negative |
| Rules.AdditionalDays | util/util_report/new_main.py:349-399 | Only a non-excluded `Billing` or `Partial` row ever owes additional days, and nobody owes a negative number |
| Rules.ShortfallBounds | util/util_report/new_main.py:383-392 | The days owed are the largest whole number not above the missing days, and 0 once less than one day is missing |
| Rules.AdditionalDaysNonIncreasing | util/util_report/new_main.py:377-392 | Logging more never raises the days owed |
| Rules.AdditionalDaysAtMostRequired | util/util_report/new_main.py:377-392 | With nothing negative logged, a `Billing` row owes at most the required days and a `Partial` row at most half of them |
| Rules.StatusRule | util/util_report/new_main.py:489-499 | `On Bench`, `Non Billable` and `Released` are always closed. `Billing`, `Next` and `TBD` close exactly once the required days are logged, and `Partial` once half are |
| Rules.DetermineStatus | util/util_report/new_main.py:468-502 | A billing type that strips to `On Bench`, `Non Billable` or `Released` is always closed |
| Rules.DetermineStatusOfStripped | util/util_report/new_main.py:481-486 | On a billing type without outer whitespace, the status is the rule applied to billable hours plus vacation |
| Rules.DetermineStatusMonotone | util/util_report/new_main.py:486-499 | Logging more never reopens a case |
| Rules.DetermineStatusThresholds | util/util_report/new_main.py:489-499 | An unknown billing type stays open whatever is logged; `Billing`, `Next` and `TBD` stay open exactly while short of the required days |
| Rules.ClosedOwesNothing | util/util_report/new_main.py:377-392 | A `Billing` or `Partial` case that the status rule closes owes no additional days, when last week's carried days are not negative |
| Rules.ClosedRuleOwesNothing | util/util_report/new_main.py:489-492 | The same, for a billing type that is already stripped |
| Rules.OpenButOwesNothing | util/util_report/new_main.py:383-385 | The converse fails: a shortfall of less than a day is truncated to 0 while the case stays open |
| Rules.AgainstTarget | util/util_report/views.py:1139-1145 | Against a target, a case is closed exactly when it owes nothing, and it never owes a negative amount |
| Rules.OverrideRule | util/util_report/views.py:1139-1164 | In the override table a case is closed exactly when it owes nothing, and never owes a negative amount |
| Rules.OverrideOwesExactShortfall | util/util_report/views.py:1139-1164 | The override owes exactly `max(0, target - logged)`, untruncated. The target is half the required days for `Partial` and all of them for every other owing type, including TBD and a missing type |
| Rules.GeneratorTruncatesOverride | util/util_report/new_main.py:381-392 | For a non-excluded `Billing` or `Partial` row, the generator's days owed are the override's rounded down |
| Rules.OverrideDiffersFromGenerator | util/util_report/views.py:1154-1164 | The two tables disagree: `TBD` owes days only in the override, and `Next` is always closed only in the override |
| Rules.CapableUtilization | util/util_report/views.py:1660-1670 | Capable utilization is the utilized hours plus eight hours per additional day, as a percentage of capacity, and 0 without capacity |
| Rules.CapableUtilizationMonotone | util/util_report/new_main.py:217-231 | More additional days never lower capable utilization |
| Rules.AppendTagEndsWithTag | util/util_report/views.py:1167-1169 | After a closing, the comments end with the `[Closed: …]` tag and so contain `[Closed:` |
| Rules.ClosedTagShape | util/util_report/views.py:1168 | A closing tag starts with `[Closed:` and ends with `]` |
| Rules.StripKeepsTail | util/util_report/views.py:1169 | Stripping the joined comments never cuts into the tag at their end |
| ReportModel.NewRecord | util/util_report/models/UtilizationReportModel.py:5-30 | A new record has the given email and date |
| ReportModel.NewRecordDefaults | util/util_report/models/UtilizationReportModel.py:5-30 | Every numeric field defaults to 0, the status to open, and every nullable text field to null |
| ReportModel.ClosedEntry | util/util_report/views.py:1172-1180 | A closing history entry records the status field going from open to close, for the record's email and date |
| Generator.LoggedBillable | util/util_report/new_main.py:322 | Without a `Billable Hours` column, the billable part of Total Logged is the WTD Actuals, and 0 when those are missing |
| Generator.AddAdditionalDays | util/util_report/new_main.py:288-347 | `add_additional_days_column` over the merged rows, one `WithDays` row per merged row in order; stated by `FinalRowsAt` and `StepsAreRowByRow` |
| Generator.WithDays | util/util_report/new_main.py:313-339 | A row with its new columns keeps the merged row and a cleaned billing type, and owes no negative days. Only a non-excluded `Billing` or `Partial` row can owe any |
| Generator.StatusOf | util/util_report/new_main.py:468-502 | `determine_status` on a report row, from the Billable Hours and Vacation cells; stated by `StatusOfIsDetermineStatus` and, through `Rules.StatusRule`, by `Rules.DetermineStatusThresholds` |
| Generator.ApplyStatus | util/util_report/new_main.py:504-511 | `apply_status`: every row with its status, in order; stated by `StepsAreRowByRow` and `ReportGenerator.ApplyStatusColumn` |
| Generator.StatusOfIsDetermineStatus | util/util_report/new_main.py:481-499 | On a row with a cleaned billing type, the row status is `determine_status`'s, strip included |
| Generator.CloseIfExcluded | util/util_report/new_main.py:531-537 | `filter_exclusions` on one row: an open row of an excluded resource closes; stated by `CloseExcludedRows` |
| Generator.CloseExcluded | util/util_report/new_main.py:524-542 | `filter_exclusions` over the table; stated by `CloseExcludedRows`, `CloseExcludedIdempotent` and `CloseExcludedNothing` |
| Generator.CloseExcludedRows | util/util_report/new_main.py:524-539 | `filter_exclusions` changes only the status. It changes exactly the open rows of excluded resources, which become closed |
| Generator.CloseExcludedIdempotent | util/util_report/new_main.py:524-539 | Filtering exclusions twice is filtering them once |
| Generator.CloseExcludedNothing | util/util_report/new_main.py:527-528 | With an empty exclusion set nothing changes |
| Generator.FinalRow | util/util_report/new_main.py:558-567 | One merged row through the days, status and exclusion steps; stated by `FinalRowExcluded`, `FinalRowOwing` and `FinalRowClosedOwesNothing` |
| Generator.FinalRows | util/util_report/new_main.py:558-567 | `FinalRow` on every merged row, in order; stated by `FinalRowsAt` and `StepsAreRowByRow` |
| Generator.FinalRowsAt | util/util_report/new_main.py:558-567 | The run keeps one row per merged row, in order, each computed from its own merged row |
| Generator.StepsAreRowByRow | util/util_report/new_main.py:558-567 | The days, status and exclusion steps applied table by table give the same rows as applying them row by row |
| Generator.FinalReport | util/util_report/new_main.py:544-587 | `generate_final_report` as a function of the date context and the input tables: pivot, both merges, then the row steps; stated by `FinalReportOfSteps` and the `FinalReport…` lemmas below |
| Generator.FinalReportOfSteps | util/util_report/new_main.py:544-571 | The tables the generator builds step by step give the final report as a function of its inputs |
| Generator.FinalRowExcluded | util/util_report/new_main.py:377-392 | An excluded resource ends closed and owes no days |
| Generator.FinalRowOwing | util/util_report/new_main.py:558-567 | Every final row has a status and a cleaned billing type and owes no negative days. Only a non-excluded `Billing` or `Partial` resource can owe any |
| Generator.FinalRowClosedOwesNothing | util/util_report/new_main.py:322-392 | With a `Billable Hours` column and last week's carried days not negative, a closed `Billing` or `Partial` row owes nothing |
| Generator.FinalReportRows | util/util_report/new_main.py:544-571 | The final report has one row per merged row, in order |
| Generator.FinalReportPivotRows | util/util_report/new_main.py:544-571 | Every row of the final report carries a pivot row of the month, with one cell per column |
| Generator.FinalReportCoversResources | util/util_report/new_main.py:544-571 | Every resource with days under a named work type in the month has a row in the final report |
| Generator.MergedKeepsPivotRow | util/util_report/new_main.py:275-281 | Every pivot row has a place in the merged report |
| Generator.FinalReportGrandTotal | util/util_report/new_main.py:241-263 | Every final row belongs to a named resource, and its Grand Total is all the days the resource logged in the month under a named work type |
| Generator.FinalReportExcludedClosed | util/util_report/new_main.py:564-567 | In the final report, an excluded resource is closed and owes nothing |
| Generator.FinalReportOwingTypes | util/util_report/new_main.py:377-392 | In the final report, only a non-excluded `Billing` or `Partial` resource owes days |
| Generator.FinalReportClosedOwesNothing | util/util_report/new_main.py:322-392 | In the final report, a closed `Billing` or `Partial` resource owes nothing, given a `Billable Hours` column and non-negative carried days |
| Generator.LastWeekNonNegative | util/util_report/new_main.py:313-319 | Carried days are never negative when last week's records are not |
| Generator.LastWeekMapNonNegative | util/util_report/new_main.py:307-309 | Every carried value comes from a record, so none is negative when no record is |
| Generator.TotalCapacity | util/util_report/new_main.py:207 | `WTD Capacity.sum()` over the kept WTD rows; used by `DamsUtilization` and `FiguresOf` |
| Generator.TotalBillable | util/util_report/new_main.py:208 | `Billable Hours.sum()` over the kept WTD rows; used by `DamsUtilization` |
| Generator.TotalAdditionalDays | util/util_report/new_main.py:222 | `Additional Days.sum()` over the report; `FiguresOf` states that with none, capable equals DAMS utilization |
| Generator.DamsUtilization | util/util_report/new_main.py:204-215 | DAMS utilization is billable hours as a percentage of capacity, and 0 without capacity |
| Generator.IndividualUtilization | util/util_report/new_main.py:146 | Individual utilization is the resource's billable hours as a percentage of its capacity |
| Generator.IndividualMap | util/util_report/new_main.py:628-631 | Every consultant has an entry, and every entry is the individual utilization of a WTD row of that consultant |
| Generator.FiguresOf | util/util_report/new_main.py:595-599 | The figures carry the report date and total capacity. With no additional days, capable utilization equals DAMS utilization; without capacity it is 0 |
| Generator.OrDefault | util/util_report/new_main.py:673-675 | `x or default` is never empty unless the default is |
| Generator.RecordsOf | util/util_report/new_main.py:637-684 | No more records than report rows |
| Generator.RecordOf | util/util_report/new_main.py:637-684 | The record `save_to_model` builds for a row with an email; each field is stated by `RecordsWellFormed` |
| Generator.RecordsWellFormed | util/util_report/new_main.py:637-684 | Each record comes from a row with an email: lower-cased email, the row's status, days, last week and Grand Total. It has the run's date and figures, an RDM that is also the SPOC, a billing type, empty comments, and Total Logged = billable hours + vacation + last week |
| Generator.RecordsCount | util/util_report/new_main.py:637-641 | Exactly the rows with an email become records |
| Generator.EmailIndicesSnoc | util/util_report/new_main.py:639-641 | A row adds one record exactly when it has an email |
| Generator.ReportGenerator.constructor | util/util_report/new_main.py:25-43 | A new generator holds the path and no tables, date, engine or exclusion set |
| Generator.ReportGenerator.ParseDateFromFilename | util/util_report/new_main.py:45-61 | Returns the parse of the file name and stores its date context only on success |
| Generator.ReportGenerator.ReadExcelFile | util/util_report/new_main.py:63-84 | Returns the engine for the extension and stores it only on success |
| Generator.ReportGenerator.CreateDataframes | util/util_report/new_main.py:100-177 | Succeeds exactly when both headers are among the first 20 rows of their sheets and each header row holds every mapped column, the month's among them (`usecols`); then it stores the kept WTD and MTD tables, and on failure leaves them |
| Generator.ReportGenerator.GenerateReport | util/util_report/new_main.py:233-286 | Stores the pivot columns and the pivot merged with the WTD actuals |
| Generator.ReportGenerator.MergeFromModels | util/util_report/new_main.py:401-466 | Stores the initial report merged with the reference data |
| Generator.ReportGenerator.GetExclusionList | util/util_report/new_main.py:513-522 | Stores the stripped non-empty exclusion entries |
| Generator.ReportGenerator.AddAdditionalDaysColumn | util/util_report/new_main.py:288-347 | Does nothing on an empty merged report. Otherwise it fetches the exclusion list if none is held yet and adds the carried, logged and additional days to every row |
| Generator.ReportGenerator.ApplyStatusColumn | util/util_report/new_main.py:504-511 | Gives every row its status |
| Generator.ReportGenerator.FilterExclusions | util/util_report/new_main.py:524-542 | Closes the open rows of excluded resources; without an exclusion set nothing changes |
| Generator.ReportGenerator.ReadDateAndEngine | util/util_report/new_main.py:183-186 | Succeeds exactly when the file name has a date and a workbook extension, and stores both |
| Generator.Processable | util/util_report/new_main.py:179-202 | When `process_report` gets through: a date token, a workbook extension, and both header rows found and holding their columns; it is the success condition of `ReportGenerator.ProcessReport` and `ReportGenerator.GenerateFinalReport` |
| Generator.ReportGenerator.ProcessReport | util/util_report/new_main.py:179-202 | Succeeds exactly when the file name has a date, the extension is a workbook's, both headers are found and their rows hold every mapped column; then it stores the date, engine and kept tables |
| Generator.ReportGenerator.CompleteRows | util/util_report/new_main.py:558-567 | Stores the exclusion set; on a generator without one yet, the report is the row-by-row run |
| Generator.ReportGenerator.BuildTables | util/util_report/new_main.py:552-556 | Stores the pivot, the WTD merge and the reference merge |
| Generator.ReportGenerator.BuildReport | util/util_report/new_main.py:552-567 | Every table after `process_report` is the step function of the one before. On a fresh generator the report is the row-by-row run |
| Generator.ReportGenerator.GenerateFinalReport | util/util_report/new_main.py:544-587 | Succeeds exactly when `process_report` does. Every stored table is then its step function of the inputs, and on a fresh generator the report is the final report of the inputs |
| Generator.ReportGenerator.SaveToModel | util/util_report/new_main.py:589-700 | Returns the records to insert, one per row with an email, in row order, computed with the week's figures |
| Store.DateIds | util/util_report/views.py:1653 | `filter(date=d)` finds every stored record of the date and nothing outside the table |
| Store.WithoutDate | util/util_report/push_direct_report.py:73 | After deleting a date, exactly the records of other dates remain, unchanged |
| Store.IdOf | util/util_report/views.py:1124-1127 | A record found by (email, date) has that key, and none is found exactly when no record has it |
| Store.IdOfUnique | util/util_report/models/UtilizationReportModel.py:39 | Under `unique_together`, the record found for a key is the only one with it |
| Store.ReplaceKeepsConsistent | util/util_report/models/UtilizationReportModel.py:39 | Saving a record under its own key keeps keys unique |
| Store.SumDaysRemove | util/util_report/views.py:1661 | The sum of a date's additional days does not depend on the order the records are visited in |
| Store.FirstId | util/util_report/views.py:1656 | `.first()` picks a record of the query with the lowest id |
| Store.NewEntries | util/util_report/push_direct_report.py:117-118 | The records of a bulk creation under consecutive new ids; stated by `NewEntriesAt` and `NewEntriesKeys` |
| Store.NewEntriesAt | util/util_report/push_direct_report.py:117-118 | Bulk-created record `i` is stored under the `i`-th new id |
| Store.NewEntriesKeys | util/util_report/push_direct_report.py:117-118 | Bulk creation uses no ids but the new ones |
| Store.UnionConsistent | util/util_report/models/UtilizationReportModel.py:39 | Storing records whose keys are new and distinct keeps keys unique and every id below the next one |
| Store.Insertable | util/util_report/models/UtilizationReportModel.py:39 | When `bulk_create` succeeds under `unique_together`: no key shared among the new records or with a stored one; the condition of `ReportStore.BulkCreate` |
| Store.UnionPairDistinct | util/util_report/models/UtilizationReportModel.py:39 | After bulk creation, no two records share an (email, date) key |
| Store.ReportStore.constructor | util/util_report/models/UtilizationReportModel.py:4-39 | An empty table with an empty history satisfies the table invariant |
| Store.ReportStore.FindByKey | util/util_report/views.py:1124-1127 | Returns the id of the record with the (email, date) key, or none when there is none |
| Store.ReportStore.FirstOfDate | util/util_report/views.py:1656 | Returns none exactly when the date has no record, and otherwise the lowest id of the date |
| Store.ReportStore.SumOfDate | util/util_report/views.py:1661 | Returns the sum of the additional days of the date's records |
| Store.ReportStore.DeleteDate | util/util_report/push_direct_report.py:73-74 | Removes exactly the date's records, keeps the invariant and returns how many there were |
| Store.ReportStore.BulkCreate | util/util_report/push_direct_report.py:117-118 | Stores the records under fresh consecutive ids exactly when their keys are new and distinct; otherwise (`IntegrityError`) nothing changes |
| Store.BulkCreateFindsEach | util/util_report/push_direct_report.py:117-118 | Each bulk-created record is then found by its own key, under its own new id |
| Overrides.ClosedComments | util/util_report/views.py:548 | A closed case's comments end with `[Closed: reason]` and contain `[Closed:` |
| Overrides.ClosingMovesCase | util/util_report/views.py:1192-1203 | Closing an open case with a tag moves it from the date's open count to its handled count; no other date's counts move |
| Overrides.ReopeningAddsOpen | util/util_report/views.py:1192-1197 | Reopening a case adds one to the date's open count |
| Overrides.CloseStep | util/util_report/views.py:533-550 | One selected id: an open case is closed, logged and counted; anything else is skipped; stated by `CloseAllAt`, `CloseAllCount` and `CloseAllHistory` |
| Overrides.CloseAll | util/util_report/views.py:531-552 | The loop over the selected ids, one `CloseStep` each; stated by `CloseAllSnoc`, `CloseAllAt`, `CloseAllConsistent`, `CloseAllCount`, `CloseAllHistory`, `CloseAllNoOpen` and `CloseAllIdempotent` |
| Overrides.CloseRecord | util/util_report/views.py:547-548 | A closed record has status close and `[Closed: reason]` at the end of its comments; nothing else changes |
| Overrides.CloseAllSnoc | util/util_report/views.py:531-552 | Closing a list of ids is closing all but the last, then the last |
| Overrides.CloseAllAt | util/util_report/views.py:531-552 | A record is closed with the reason exactly when it was selected and open; every other record is as it was, and none appears or disappears |
| Overrides.CloseAllConsistent | util/util_report/views.py:531-552 | Closing keeps the same ids and keeps keys unique |
| Overrides.CloseAllCount | util/util_report/views.py:531-552 | The count returned is the number of distinct selected cases that were open. An id given twice, a closed case and an unknown id count nothing. One history entry is logged per case closed |
| Overrides.CloseAllHistory | util/util_report/views.py:537-545 | Every entry logged is a closing with the reason, from open to close |
| Overrides.ClosingEntriesAppend | util/util_report/views.py:537-545 | Appending a closing entry keeps the log made of closing entries |
| Overrides.CloseAllNoOpen | util/util_report/views.py:535 | When none of the selected cases is open, nothing changes and nothing is logged |
| Overrides.CloseAllIdempotent | util/util_report/views.py:531-552 | Closing the same cases again closes nothing, logs nothing and changes nothing |
| Overrides.CloseCases | util/util_report/views.py:509-572 | An empty selection is refused with "No cases selected" and changes nothing. Otherwise the table and history are those of closing each selected open case, and the count closed is returned |
| Overrides.SetCommentField | util/util_report/views.py:601 | Writing a comment field sets exactly that field to the value; the other field and the rest of the record stay |
| Overrides.SetCommentFieldLaws | util/util_report/views.py:601 | Writing the same value twice is writing it once, writes to the two fields commute, and writing back the old value changes nothing |
| Overrides.CommentEntry | util/util_report/views.py:589-599 | The edit entry records the field, its old value and the new one, for the record's email and date |
| Overrides.UpdateComments | util/util_report/views.py:574-608 | A field other than `comments` and `spoc_comments` is refused with "Invalid field", and an unknown id with "Report not found"; neither changes anything. Otherwise the edit is logged and only that field is written |
| Overrides.LastWeekOfAfterEdit | util/util_report/views.py:1120-1130 | Editing a record never changes its own last-week lookup, which reads the record a week earlier |
| Overrides.LastWeekOf | util/util_report/views.py:1120-1130 | The additional days of the resource's record a week earlier from week 2 on, else 0; `LastWeekFor` computes it and `LastWeekOfAfterEdit` states it is unaffected by the edit |
| Overrides.LastWeekFor | util/util_report/views.py:1120-1130 | Returns the additional days of the same resource's record a week earlier, from week 2 on; 0 in week 1 or when there is none |
| Overrides.TagIfClosing | util/util_report/views.py:1166-1169 | The comments get a `[Closed:` tag exactly when an open case closes, and stay as they were otherwise |
| Overrides.BillableUpdate | util/util_report/views.py:1103-1169 | The new hours are stored, and the Grand Total is those hours plus administrative, training, unassigned and vacation. The status and days owed come from the override table for hours + vacation + last week against the date's required days; the case is closed exactly when it owes nothing. An open case that closes is tagged. Nothing else changes |
| Overrides.BillableUpdateIdempotent | util/util_report/views.py:1103-1169 | Re-entering the same hours with the same last week changes nothing more |
| Overrides.BillableHistory | util/util_report/views.py:1092-1180 | An edit entry with the old and new hours is logged first, and a closing entry follows exactly when an open case closes |
| Overrides.UpdateBillableHours | util/util_report/views.py:1077-1218 | An unknown id is refused with "Report not found" and changes nothing. Otherwise only that record changes, re-derived from the new hours and last week's record. The history is extended, and the date's open and handled counts are returned exactly when the status moved |
| Overrides.BillableHoursTwice | util/util_report/views.py:1077-1182 | Re-entering the same hours a second time leaves the record as the first time did, since the edit does not change its own last-week lookup |
| Overrides.DaysUpdate | util/util_report/views.py:1600-1635 | The days are stored and the case is closed exactly when they are 0. An open case that closes is tagged. Nothing else changes |
| Overrides.DaysUpdateIdempotent | util/util_report/views.py:1600-1635 | Setting the same days again changes nothing more |
| Overrides.DaysHistory | util/util_report/views.py:1589-1646 | An edit entry with the old and new days is logged first, and a closing entry follows exactly when an open case closes |
| Overrides.CapableFor | util/util_report/views.py:1653-1670 | A date without capacity has capable utilization 0 |
| Overrides.SetCapable | util/util_report/views.py:1668 | Writing the figure keeps the same records |
| Overrides.SetCapableAt | util/util_report/views.py:1668 | Every record of the date gets the figure; no other field and no other date's records change |
| Overrides.SetCapableConsistent | util/util_report/views.py:1668 | Writing the figure keeps keys unique |
| Overrides.SumDaysAgree | util/util_report/views.py:1661 | Sums over the same records agree when the records agree on their additional days |
| Overrides.CapableForAfterSet | util/util_report/views.py:1653-1670 | Recomputing after the figure is written gives the same figure and capacity |
| Overrides.RecomputeCapable | util/util_report/views.py:1651-1670 | Returns the date's capable utilization and writes it to every record of the date exactly when the date has capacity |
| Overrides.UpdateAdditionalDays | util/util_report/views.py:1574-1706 | An unknown id is refused with "Report not found" and changes nothing. Otherwise the days are set and the status re-derived, the history extended and the date's capable utilization recomputed and written. The date's counts are returned exactly when the status moved |
| Overrides.SetCapableKeepsCounts | util/util_report/views.py:1668-1697 | Writing the capable figure never moves any date's open or handled counts |
| LowUtil.NotBeforeTransitive | util/util_report/views.py:1387 | Calendar order is transitive, so the first of the dates sorted newest first is on or after all of them |
| LowUtil.DatesOf | util/util_report/views.py:1366 | One report date per report |
| LowUtil.LatestMonthEnds | util/util_report/views.py:1372-1384 | There is one entry per year-month that occurs. Each entry is a date of that month, and no report date of that month has a later day |
| LowUtil.MostRecent | util/util_report/views.py:1386-1390 | With no month ends there is none. Otherwise the result is one of the month ends and is on or after all of them |
| LowUtil.MonthEndIsLatest | util/util_report/views.py:1373-1390 | The most recent month end is on or after every report date |
| LowUtil.MonthRows | util/util_report/views.py:1400-1404 | The month filter keeps only reports of that year and month |
| LowUtil.OrNA | util/util_report/views.py:1417-1418 | `x or 'N/A'` is never empty |
| LowUtil.EmailsOf | util/util_report/views.py:1407 | One email per report |
| LowUtil.FirstFor | util/util_report/views.py:1413-1419 | A resource's first report is one of its reports |
| LowUtil.AppearsHasReports | util/util_report/views.py:1410-1422 | A resource of the month has a first report and a positive count |
| LowUtil.AccFor | util/util_report/views.py:1410-1422 | Every resource's count is positive, so the average is always defined |
| LowUtil.AccForSnoc | util/util_report/views.py:1411-1422 | A report adds its utilization and one to its own resource's totals only. A resource's first report opens them, with its billing and RDM or `N/A` |
| LowUtil.FirstForSnoc | util/util_report/views.py:1413-1419 | A later report never changes a resource's first report |
| LowUtil.NoReportsNoCount | util/util_report/views.py:1410-1422 | A resource without reports has no count, no sum and no first report |
| LowUtil.DedupSnoc | util/util_report/views.py:1413 | A resource joins the key order at its first report only |
| LowUtil.AddReport | util/util_report/views.py:1411-1422 | One loop step adds the report's resource to the keys and no other |
| LowUtil.GroupStep | util/util_report/views.py:1411-1422 | The first loop keeps its invariant: the totals are those of the reports seen, keyed in order of first appearance |
| LowUtil.GroupByResource | util/util_report/views.py:1409-1422 | Returns the month's resources in order of first appearance. Each has the sum and count of its reports and the billing and RDM of its first report |
| LowUtil.Grouped | util/util_report/views.py:1409-1422 | The grouping has exactly the month's resources as keys |
| LowUtil.EntriesOfAll | util/util_report/views.py:1440-1442 | Every grouped resource has reports, so each gets its entry with its average, in key order |
| LowUtil.MonthEntriesAt | util/util_report/views.py:1440-1471 | The month's resources appear once each, each with the average of its own reports |
| LowUtil.RangeOf | util/util_report/views.py:1453-1462 | Every average falls in one of the five chart ranges |
| LowUtil.RangeOfExactlyOne | util/util_report/views.py:1453-1462 | An average is in a range's interval exactly when that range is chosen: below 15, 15 to 25, 25 to 35, 35 to 50, 50 and up |
| LowUtil.Tally | util/util_report/views.py:1447-1450 | The `dict.get(k, 0) + 1` tally of a list of labels; stated by `TallyCounts` |
| LowUtil.TallyCounts | util/util_report/views.py:1447-1450 | The tally has exactly the values seen, each counted as often as it occurs |
| LowUtil.BelowMembers | util/util_report/views.py:1473-1476 | A resource is in `below_35` exactly when its average is under 35, and in `below_50` exactly when it is from 35 up to 50 |
| LowUtil.BelowListsDisjoint | util/util_report/views.py:1473-1476 | No resource is in both lists, and one in neither is at least 50 |
| LowUtil.RangeCountsTotal | util/util_report/views.py:1452-1462 | The five range counts add up to the number of resources |
| LowUtil.InsertByUtil | util/util_report/views.py:1479-1481 | Inserting keeps every entry and adds exactly the new one |
| LowUtil.SortByUtil | util/util_report/views.py:1479-1481 | Sorting keeps exactly the same entries |
| LowUtil.InsertByUtilSorted | util/util_report/views.py:1479-1481 | Inserting into a sorted list keeps it sorted |
| LowUtil.SortByUtilSorted | util/util_report/views.py:1479-1481 | The sorted list is ascending by utilization and a permutation of the input |
| LowUtil.InsertByUtilStable | util/util_report/views.py:1479-1481 | Inserting into a sorted list puts the new entry after every entry of equal utilization |
| LowUtil.SortByUtilStable | util/util_report/views.py:1479-1481 | Sorting is stable: the entries of any one utilization keep their input order |
| LowUtil.Mean | util/util_report/views.py:1489-1491 | `sum(...) / len(...)` of the utilizations, 0 for an empty list; bounded by `MeanBelow` and `MeanAtLeast` |
| LowUtil.MeanBelow | util/util_report/views.py:1489-1490 | The average of a non-empty list is below any bound all its entries are below |
| LowUtil.MeanAtLeast | util/util_report/views.py:1490 | The average of a non-empty list reaches any bound all its entries reach |
| LowUtil.ListsStep | util/util_report/views.py:1473-1476 | One entry is appended to `below_35` if under 35, to `below_50` if from 35 up to 50, and to neither otherwise |
| LowUtil.RangesStep | util/util_report/views.py:1452-1462 | One entry adds one to exactly its own range |
| LowUtil.TalliesStep | util/util_report/views.py:1446-1450 | One entry adds one to its billing type and to its RDM |
| LowUtil.AddEntry | util/util_report/views.py:1440-1476 | The loop body keeps the five range counters |
| LowUtil.ChartsOf | util/util_report/views.py:1440-1476 | The second loop always has five range counters |
| LowUtil.ChartsOfStats | util/util_report/views.py:1440-1476 | After the second loop, the lists are the entries under 35 and from 35 up to 50, in order. The counters are the range counts, and the tallies count billing types and RDMs |
| LowUtil.Classify | util/util_report/views.py:1424-1476 | Returns every resource's entry, in key order, and the lists, range counts and tallies built from them |
| LowUtil.GroupedIsFirstLoop | util/util_report/views.py:1409-1422 | What the first loop returns is the month's grouping |
| LowUtil.SecondLoopIsSummary | util/util_report/views.py:1424-1491 | The second loop's results, sorted and averaged, are the month's summary |
| LowUtil.MostRecentMonthEnd | util/util_report/views.py:1365-1390 | With at least one report, the chosen month end is a report date on or after every report date |
| LowUtil.LowUtilization | util/util_report/views.py:1359-1513 | With no reports the view falls back to placeholder data. Otherwise it summarizes exactly the reports in the month of the latest report date, and that month end is a report date on or after all of them |
| LowUtil.DistinctCard | util/util_report/views.py:1407 | A list without repeats has as many members as elements |
| LowUtil.Summary | util/util_report/views.py:1407-1491 | The view's response for one month: both sorted lists, the resource count, the tallies, the range counts and the averages; stated by `SummaryLists`, `SummaryCounts`, `SummaryAverages`, `SummaryTallies` and `SecondLoopIsSummary` |
| LowUtil.SummaryLists | util/util_report/views.py:1473-1481 | Both lists are sorted ascending. They hold exactly the month's resources averaging under 35, and from 35 up to 50 |
| LowUtil.SummaryCounts | util/util_report/views.py:1407 | `total_resources` counts each resource of the month once, and the five range counts add up to it |
| LowUtil.SummaryAverages | util/util_report/views.py:1489-1490 | The average of `below_35` is under 35 and that of `below_50` is from 35 up to 50. Each is 0 for an empty list |
| LowUtil.SummaryTallies | util/util_report/views.py:1446-1450 | The billing and RDM charts count each value over the month's resources |
| Legacy.LexLessAsymmetric | util/util_report/main.py:138-144 | Python's string order, which sorts the pivot columns, is irreflexive and asymmetric |
| Legacy.PositionalSum | util/util_report/main.py:146-154 | The `iloc` sum from the `lo` column through the `hi` column by position; fails (`KeyError`) exactly when either label is missing |
| Legacy.GrandTotalByPosition | util/util_report/main.py:146-154 | The positional Grand Total fails (`KeyError`) exactly when `Administrative` or `Vacation` is not a column |
| Legacy.SumWithinSlice | util/util_report/main.py:154 | When the columns within the bounds are exactly a slice of positions, their sum is that slice's |
| Legacy.SortedWithin | util/util_report/main.py:150-154 | On sorted columns, the columns from `get_loc(lo)` through `get_loc(hi)` are exactly those whose labels sort between the two |
| Legacy.WithinAt | util/util_report/main.py:150-154 | On sorted columns, a label sorts between two present bounds exactly when its position lies between theirs |
| Legacy.AdministrativeBeforeVacation | util/util_report/main.py:146-147 | `Administrative` sorts before `Vacation`, so the slice is never empty |
| Legacy.GrandTotalByPositionIsBetween | util/util_report/main.py:137-154 | On pandas' sorted pivot columns, the earlier Grand Total is the sum over the work types that sort from `Administrative` through `Vacation` |
| Legacy.PositionalSumIsWithin | util/util_report/main.py:150-154 | On sorted labels, the cells from one present column through a later one by position are the cells whose labels sort between the two |
| Legacy.GrandTotalByPositionIsAll | util/util_report/main.py:146-154 | When every work type sorts between the two, the earlier Grand Total is the whole row, as in the current generator |
| Legacy.SumWithinAll | util/util_report/main.py:154 | When every column lies within the bounds, the sum is the whole row |
| Legacy.GrandTotalByPositionSkipsLaterTypes | util/util_report/main.py:146-154 | A work type sorting after `Vacation` is left out of the earlier Grand Total, where the current one counts it |
| Legacy.ExactLastWeek | util/util_report/main.py:166-175 | The earlier `Last Week` column: the email looked up exactly as given, from week 2 on, else 0; stated by `ExactLastWeekAbsent`, `ExactLastWeekIsLastMatch` and `ExactLastWeekIsCaseSensitive` |
| Legacy.ExactLastWeekMap | util/util_report/main.py:166-173 | Every one of last week's records has an entry under its email exactly as stored |
| Legacy.ExactLastWeekAbsent | util/util_report/main.py:166-175 | Week 1 carries nothing, and a resource no record names exactly carries 0 (`fillna(0)`) |
| Legacy.ExactLastWeekIsLastMatch | util/util_report/main.py:166-175 | From week 2 on, a resource carries the `addtnl_days` of the last record with exactly its email |
| Legacy.ExactLastWeekIsCaseSensitive | util/util_report/main.py:171-175 | Unlike the current generator, the earlier one does not match an email that differs only in letter case |
| Legacy.Clip | util/util_report/main.py:195 | `clip(lower=0)` is never negative and never below its input |
| Legacy.LegacyAdditionalDays | util/util_report/main.py:184-202 | Days owed are never negative, and only a `Billing` or `Partial` type (after cleaning) owes any |
| Legacy.LegacyAdditionalDaysExact | util/util_report/main.py:190-200 | A `Billing` row owes nothing exactly when the required days are logged, and otherwise exactly the missing days. For `Partial` the same holds against half of them. Nothing is rounded |
| Legacy.LegacyAdditionalDaysNonIncreasing | util/util_report/main.py:194-200 | Logging more never raises the days owed |
| Legacy.CurrentTruncatesLegacy | util/util_report/main.py:194-200 | For a resource that is not excluded, the current generator owes the whole days of the earlier one's amount; for an excluded one it owes nothing |
| Legacy.WithLegacyDays | util/util_report/main.py:164-207 | A row keeps its email, hours, vacation and status. Total Logged is billable hours + vacation + last week, and the days owed are never negative |
| Legacy.CloseIfExcludedLegacy | util/util_report/main.py:265-274 | The earlier `filter_exclusions` on one row; stated by `CloseIfExcludedLegacyLaws` |
| Legacy.CloseIfExcludedLegacyLaws | util/util_report/main.py:265-274 | Only the status changes, and exactly for open rows of excluded resources, which close. A second pass, or an empty set, changes nothing |
| Legacy.LegacyGenerator.constructor | util/util_report/main.py:43-45 | The generator holds the week number, total days 5 times it, the pivot rows and no exclusions |
| Legacy.LegacyGenerator.AddAdditionalDaysColumn | util/util_report/main.py:164-207 | Every row, in place and in order, gets its carry-forward, logged days and days owed |
| Legacy.LegacyGenerator.ApplyStatus | util/util_report/main.py:231-257 | Every row gets the status rule's verdict for its billing type, hours and vacation, and nothing else changes |
| Legacy.LegacyGenerator.GetExclusionList | util/util_report/main.py:259-263 | Stores the stripped non-empty exclusion entries |
| Legacy.LegacyGenerator.FilterExclusions | util/util_report/main.py:265-274 | Open rows of excluded resources close and nothing else changes |
| PushDirect.ParseFloat | util/util_report/push_direct_report.py:61 | Blank text never parses as a number |
| PushDirect.ParseSigned | util/util_report/push_direct_report.py:61 | Empty text never parses as a number |
| PushDirect.SafeFloat | util/util_report/push_direct_report.py:56-63 | A number is returned as it is. NaN comes only from a NaN or from text |
| PushDirect.AsValue | util/util_report/push_direct_report.py:61 | A float handed back is a number or NaN |
| PushDirect.DecimalText | util/util_report/push_direct_report.py:61 | `str(n)` of a natural number is non-empty digits |
| PushDirect.DecimalTextValue | util/util_report/push_direct_report.py:61 | The digits `str(n)` writes read back as `n` |
| PushDirect.ParseFloatPlain | util/util_report/push_direct_report.py:61 | Text without outer whitespace is read as it stands |
| PushDirect.ParseDigits | util/util_report/push_direct_report.py:61 | Plain digits read as their decimal value |
| PushDirect.ParseNegativeDigits | util/util_report/push_direct_report.py:61 | Digits after a minus sign read as the negated value |
| PushDirect.SafeFloatOfParsed | util/util_report/push_direct_report.py:58-61 | `safe_float` of non-empty text that `float` reads is what `float` reads |
| PushDirect.SafeFloatReadsWholeNumbers | util/util_report/push_direct_report.py:56-63 | `safe_float(str(n)) == n` for every whole number |
| PushDirect.SafeFloatReadsNegatives | util/util_report/push_direct_report.py:56-63 | `safe_float('-' + str(n)) == -n` |
| PushDirect.DecimalBodyPoint | util/util_report/push_direct_report.py:61 | Digits, a point and digits read as the whole part plus the fraction |
| PushDirect.ParsePointed | util/util_report/push_direct_report.py:61 | `float('12.5')`-style text reads as its decimal value |
| PushDirect.SafeFloatReadsCents | util/util_report/push_direct_report.py:56-63 | An amount written with two decimals reads back as `n + k/100` |
| PushDirect.CentsValue | util/util_report/push_direct_report.py:61 | Two decimals add `k/100` to the whole part |
| PushDirect.SafeFloatFallsBack | util/util_report/push_direct_report.py:58-63 | `None`, the empty string and text that `float` rejects give the default |
| PushDirect.NoDigitsNoNumber | util/util_report/push_direct_report.py:61-62 | Text without a digit is rejected by `float`, unless it spells `nan` |
| PushDirect.WordsDoNotParse | util/util_report/push_direct_report.py:61-62 | A word without a digit or outer white space that is not `nan` is rejected by `float`, and so is blank text |
| PushDirect.SafeFloatRejectsWords | util/util_report/push_direct_report.py:58-63 | `safe_float` of a word or of blank text is the default, whatever it is |
| PushDirect.SafeFloatIdempotent | util/util_report/push_direct_report.py:56-63 | `safe_float` of its own result changes nothing, whatever the second default |
| PushDirect.OrZero | util/util_report/push_direct_report.py:93-106 | A finite float is stored as it is, and NaN as 0 |
| PushDirect.TextOr | util/util_report/push_direct_report.py:107-110 | `value or fallback` is the non-empty text given, or else the fallback |
| PushDirect.EmailOf | util/util_report/push_direct_report.py:81-88 | A record is kept exactly when its email is non-empty text, and it is stored lower-cased |
| PushDirect.StatusOf | util/util_report/push_direct_report.py:104 | The stored status is close exactly when "close" is given (a `None` status refuses the batch, see `PushDirectData`) |
| PushDirect.NullableText | util/util_report/push_direct_report.py:111-112 | A comment field is stored exactly when it is text |
| PushDirect.InsertableAfterDelete | util/util_report/push_direct_report.py:73-118 | Once the date is cleared, records of that date can all be stored exactly when no two of them share an email |
| PushDirect.FlatMapStep | util/util_report/push_direct_report.py:79-114 | One more input appends what it contributes |
| PushDirect.FlatMapFrom | util/util_report/push_direct_report.py:79-114 | Every collected output comes from some input |
| PushDirect.FlatMapHas | util/util_report/push_direct_report.py:79-114 | Every output of every input is collected |
| PushDirect.DirectRecord | util/util_report/push_direct_report.py:91-114 | The stored record has the email and the target date, and always has rdm, track, billing and spoc text |
| PushDirect.DirectOne | util/util_report/push_direct_report.py:79-114 | An input contributes one record exactly when its email is non-empty, and none otherwise |
| PushDirect.DirectRecords | util/util_report/push_direct_report.py:77-114 | The records `push_direct_data` collects, in input order; stated by `DirectRecordsFrom`, `DirectRecordsKeep` and `DirectRecordsDated`, and computed by `CollectDirect` |
| PushDirect.DirectRecordsFrom | util/util_report/push_direct_report.py:79-114 | Every collected record is the stored form of an input with a non-empty email |
| PushDirect.DirectRecordsKeep | util/util_report/push_direct_report.py:79-114 | A record is collected for every input with a non-empty email |
| PushDirect.DirectRecordsDated | util/util_report/push_direct_report.py:86-113 | Every collected record is dated the target date under a non-empty lower-case email |
| PushDirect.DirectRecordDefaults | util/util_report/push_direct_report.py:104-112 | An input with only an email gets rdm and spoc `Adam`, empty track, billing `TBD`, status open and empty comments |
| PushDirect.AbsentNumber | util/util_report/push_direct_report.py:93-106 | A number the input does not give is stored as 0 |
| PushDirect.DirectRecordDefaultsStored | util/util_report/push_direct_report.py:79-114 | That input is collected once, under its lower-cased email |
| PushDirect.DirectSpoc | util/util_report/push_direct_report.py:110 | The spoc falls back to the given rdm only when no spoc is given at all; an empty spoc becomes `Adam`, whatever the rdm |
| PushDirect.CollectDirect | util/util_report/push_direct_report.py:77-114 | The loop returns the records collected from the inputs, in input order, and says whether one of them was given a `None` status |
| PushDirect.SomeNullStatusStep | util/util_report/push_direct_report.py:77-104 | One more input adds a `None` status exactly when it yields a record and gives `None` as its status |
| PushDirect.PushDirectData | util/util_report/push_direct_report.py:65-127 | With no input nothing is deleted and the answer is no. Otherwise the date's records are deleted and the collected ones stored. The answer is yes exactly when no two of them share an email and none has a `None` status (the status column is NOT NULL, util/util_report/models/UtilizationReportModel.py line 16); otherwise the batch is refused and the date stays empty |
| PushDirect.AsNumber | util/util_report/push_direct_report.py:166 | A cell takes part in column arithmetic exactly when it is not text |
| PushDirect.Prepare | util/util_report/push_direct_report.py:146-183 | The column work fails exactly when the email column is missing, when both Billable Hours and WTD Actuals are missing, or when a summed cell is text. Otherwise it adds the derived columns and keeps every row |
| PushDirect.FrameRecord | util/util_report/push_direct_report.py:214-237 | The stored record of a row has the email and the target date |
| PushDirect.RowOne | util/util_report/push_direct_report.py:188-237 | A row contributes one record exactly when its email is non-empty text |
| PushDirect.Pushed | util/util_report/push_direct_report.py:141-237 | The import yields records exactly when the column work succeeds |
| PushDirect.FrameRecords | util/util_report/push_direct_report.py:186-237 | The records of the prepared frame's rows, in row order; stated by `FrameRecordsFrom` and `PushedRecords`, and computed by `CollectFrame` |
| PushDirect.FrameRecordsFrom | util/util_report/push_direct_report.py:188-237 | Every record is the stored form of a row with a non-empty email, dated the target date |
| PushDirect.SafeFloatOfNumber | util/util_report/push_direct_report.py:216-229 | `safe_float` of a cell that arithmetic accepts is that cell, with NaN stored as 0 |
| PushDirect.BillingText | util/util_report/push_direct_report.py:170 | `fillna('TBD').astype(str)` on a Billing cell; stated by `PreparedCells` |
| PushDirect.TotalLogged | util/util_report/push_direct_report.py:166 | `Billable Hours.fillna(0) + Vacation.fillna(0)`; stated by `PreparedCells` and `PreparedRecord` |
| PushDirect.PrepareRow | util/util_report/push_direct_report.py:155-183 | One row with Billing, Last Week, Billable Hours, Vacation, Total Logged and Additional Days set; stated by `PreparedRow` and `PreparedCells` |
| PushDirect.PreparedRow | util/util_report/push_direct_report.py:155-183 | Each prepared row is the same row with its derived cells |
| PushDirect.PreparedCells | util/util_report/push_direct_report.py:155-183 | A prepared row holds the billing text (TBD when missing or null) and Total Logged = billable hours + vacation. Additional Days follow the shortfall rule. Vacation and WTD Actuals stay, and Billable Hours is the column or eight times WTD Actuals |
| PushDirect.PreparedRecord | util/util_report/push_direct_report.py:155-237 | The record of a prepared row is open, with last week 0, spoc = rdm and empty comments. Total Logged is billable hours + vacation and Additional Days follow the shortfall rule. Billable Hours is eight times WTD Actuals when that column is missing, vacation is 0 without a Vacation column, and billing is TBD without a Billing column |
| PushDirect.PushedRecords | util/util_report/push_direct_report.py:141-237 | Every imported record has the target date and a lower-case email, and is open with last week 0 and spoc = rdm. Total Logged is billable hours + vacation, and Additional Days follow the shortfall rule, with the missing-column defaults |
| PushDirect.PushedDaysOwed | util/util_report/push_direct_report.py:168-183 | Imported days owed are never negative, and only Billing and Partial rows owe any |
| PushDirect.CollectFrame | util/util_report/push_direct_report.py:186-237 | The loop returns the records of the rows with an email, in row order, all dated the target date |
| PushDirect.CalculateAndPush | util/util_report/push_direct_report.py:129-250 | The date's records are deleted first. The answer is yes exactly when the frame prepares, yields at least one record and no two records share an email, and then exactly those records are stored |
| Staffing.JoinDate | util/dataextract/models/resource.py:59-61 | A join date is read only from a `YYYY-MM-DD` field holding a real date; an unset field is an error |
| Staffing.ResourceSave | util/dataextract/models/resource.py:53-79 | The status and availability `Resource.save()` leaves, and whether it gets to the write; stated by the `Save…` lemmas below |
| Staffing.SaveInactive | util/dataextract/models/resource.py:53-79 | An inactive resource stays inactive, loses its availability and is saved |
| Staffing.SaveOnLeave | util/dataextract/models/resource.py:63-70 | A resource on leave keeps its status and its availability, whatever its join date |
| Staffing.SaveClearsOnlyInactive | util/dataextract/models/resource.py:54-56 | A save clears the availability exactly when the status is `Inactive` |
| Staffing.SaveUnparseable | util/dataextract/models/resource.py:75-77 | A missing or malformed join date changes no status, and the record is still saved |
| Staffing.SaveFutureJoin | util/dataextract/models/resource.py:64-67 | Any other status becomes `To-join` while the join date is ahead, availability untouched |
| Staffing.SaveJoined | util/dataextract/models/resource.py:68-74 | Any other status becomes `Active` once the join date has come. The availability becomes `On Bench` exactly when the record is new or the table holds it as `To-join`. A key the table lacks stops the save |
| Staffing.SaveStatusIsChoice | util/dataextract/models/resource.py:53-79 | A save starting from one of the four status choices leaves one of them |
| Staffing.SaveStable | util/dataextract/models/resource.py:53-79 | Saving again, once the table holds what the first save wrote, on the same day, changes nothing |
| Staffing.SaveOnJoinDay | util/dataextract/models/resource.py:68-74 | On the join day, a stored `To-join` resource saved again becomes `Active` and `On Bench` |
| Staffing.Resource.constructor | util/dataextract/models/resource.py:47-48 | A new resource is `To-join` and `Available` and has no primary key |
| Staffing.Resource.Save | util/dataextract/models/resource.py:53-79 | The fields after `save()` are the save rules' outcome; the save fails exactly when the table lacks the record's key |
| Staffing.AllocationStatus | util/util_report/models/allocation.py:14-19 | The status an allocation save leaves: on project full- or part-time by billing type, else unchanged; stated by `AllocationSaveMatches`, `AllocationSaveIdempotent` and `AllocationStatusOfChoice` |
| Staffing.AllocationSaveMatches | util/util_report/models/allocation.py:14-19 | After a save the status matches the billing type, and a save changes the status exactly when it did not match |
| Staffing.AllocationSaveIdempotent | util/util_report/models/allocation.py:14-21 | Saving twice gives the status that saving once gives |
| Staffing.AllocationStatusOfChoice | util/util_report/models/allocation.py:16-19 | A full-time or part-time billing type decides the status whatever it was before, and the result is an on-project status |
| Staffing.Allocation.constructor | util/util_report/models/allocation.py:11-12 | A new allocation holds the billing type and status it is given |
| Staffing.Allocation.Save | util/util_report/models/allocation.py:14-21 | `save()` brings the status in line with the billing type and leaves the billing type alone |
| Staffing.NewRequirement | util/util_report/models/requirement.py:15 | A new requirement has the number asked for and nothing fulfilled yet |
| Staffing.Outstanding | util/util_report/models/requirement.py:18-21 | The positions still to fill are exactly the ones that make it fulfilled |
| Staffing.Requirement.IsFulfilled | util/util_report/models/requirement.py:18-21 | `fulfilled_quantity >= number_required`; stated by `FulfilledIffNoneOutstanding`, `NewRequirementFulfilment` and `FulfilmentMonotone` |
| Staffing.FulfilledIffNoneOutstanding | util/util_report/models/requirement.py:18-21 | `is_fulfilled` holds exactly when no position is outstanding |
| Staffing.NewRequirementFulfilment | util/util_report/models/requirement.py:15-21 | A new requirement is fulfilled exactly when it asks for no position |
| Staffing.FulfilmentMonotone | util/util_report/models/requirement.py:18-21 | Filling more positions never undoes fulfilment |

## Left out

- Reading workbooks (`pd.read_excel`, `pd.ExcelFile`, the in-memory copy of the file) is I/O; sheets are given as rows of cells, and the header scan and cost-centre filter are modelled on them.
- Logging, `print` and the temporary-file clean-up thread are left out; they do not change any record.
- The Django ORM is a map from database ids to records plus an appended audit list. Transactions, `batch_size` and the database's own choice validation are not modelled.
- `date.today()`, the uploaded file's name, the stored previous-week records, the reference table and the exclusion list are parameters.
- The HTTP side of `util/util_report/views.py` is left out: request parsing, JSON bodies, messages, redirects, templates and HTML decoration. The overrides take the already-parsed id and value; a value `float()` rejects is not modelled.
- The dummy chart data and the chart averages of `get_utilization_data` are random or aggregate filler and are not modelled; the low-utilization view's dummy branch is `None` in the model.
- Floating point is `real`. The `.round(2)` and `round(…, 2)` calls of `new_main.py` (lines 146, 210, 226 and 580-581) and of `util/util_report/views.py` (line 1666), and the `float32` reads of the sheets' numeric columns, are not modelled; values are exact.
- Overrides.CapableFor: the figure is the exact value, where the view rounds it to two decimals before storing and returning it (`util/util_report/views.py`:1666).
- Overrides.RecomputeCapable: writes and returns the exact figure, not the two-decimal rounding of `util/util_report/views.py`:1666.
- Overrides.UpdateAdditionalDays: the capable utilization it stores and returns is the exact figure, not the two-decimal rounding of `util/util_report/views.py`:1666.
- Generator.DamsUtilization: a total capacity of zero gives 0. pandas divides anyway and gives an infinite or NaN percentage without raising.
- Generator.IndividualUtilization: a resource with zero capacity gets 0, where pandas gives an infinite or NaN percentage.
- The `except` branches of `calculate_dams_utilization` and `calculate_capable_utilization` that return 0 are not modelled. They are only reached by a failure inside pandas.
- Generator.ReportGenerator.SaveToModel returns the records it builds; storing them is `Store.ReportStore.BulkCreate`, whose refusal is the `IntegrityError` the source re-raises.
- The NaN-to-`None` column rewrite at the start of `save_to_model` is not modelled separately; a missing number is 0 and missing text is the empty string in `RecordOf`.
- `initialize_column_mapping` is modelled as the column lists `Generator.WtdColumns` and `Generator.MtdColumns`, the latter naming the month column; the stored mapping object is not a field.
- A sheet cell that pandas cannot convert to `float32`, or that `read_excel` reads with a type other than the one the row datatypes give it, is not modelled: rows are given already typed.
- A blank cell is the empty string. `pivot_table` drops rows whose email or work type is blank (NaN), and so does `Pivot.PivotOf`. A cell holding only whitespace is not blank to pandas and is kept as a label in both.
- Generator.ReportGenerator.ParseDateFromFilename: the date context is stored whole or not at all. Where the week-earlier date does not exist (the first week of year 1), the source has already set `parsed_date` and `file_date` before raising `OverflowError`, and the model leaves the old context in place.
- The billing and RDM tallies of the low-utilization view (`LowUtil.Tally`, `LowUtil.Bump`) are maps, so the order in which labels first appear, which orders the chart labels of the JSON response, is not modelled.
- The pivot keeps row and column labels in order of first appearance, where pandas sorts them; only the earlier generator's positional Grand Total depends on the order, and it is stated over sorted labels.
- `list.sort` in the low-utilization view is modelled as a stable insertion sort on a sequence (its stability is `LowUtil.SortByUtilStable`), not as an in-place sort.
- The view's second "no month-end" fallback cannot be reached once there is a stored report, so it is not a branch of the model.
- Python's `str.strip`, `str.lower`, `str.isspace` and `\d` are modelled on ASCII only.
- Paths follow POSIX `os.path` (`Text.Basename`, `Text.SplitExt`): '/' is the only separator. The Windows `ntpath` rules, with '\\' as a separator and drive prefixes, are not modelled.
- The earlier generator (`util/util_report/main.py`) cannot run end to end. `generate_report` merges on a column the WTD table lacks. `add_additional_days_column` (through `compute_additional_days_vec`, line 186) reads `Billing` before `merge_from_models` adds it (lines 279-280). No `RDM` column exists. So its per-row rules and field updates are modelled, and these steps are not: `create_dataframes`, `process_report`, `merge_from_models`, `generate_final_report`, `calculate_dams_utilization` (lines 131-135) and `save_to_model` (lines 287-319). The lines that run the script and its broken package import are left out too.
- The earlier generator's `read_excel_file` (lines 49-60) uses the same extension table as the current one, so `FileNames.EngineFor` stands for both.
- PushDirect.ParseFloat: exponents, digit-group underscores and the infinity spellings are treated as text `float` rejects, so `safe_float` gives the default for them.
- PushDirect.OrZero: a NaN that reaches a float field is stored as 0; the database would reject or store NaN depending on the backend.
- PushDirect.TextOr: a non-text value in a text field is treated like a missing one and gets the fallback; Python would store its `str`.
- PushDirect.EmailOf: a non-empty email that is not text (a number, say) is skipped; the source stores it unchanged and the database turns it into text.
- PushDirect.StatusOf: a status that is neither `None` nor text, or text other than `open` and `close`, is stored as `open`, where the source stores the text as given (or its `str`) because the field's choices are not enforced. A `None` status is modelled: it refuses the batch in `PushDirect.PushDirectData`.
- PushDirect.NullableText: a comment that is neither text nor `None` (a number, say) is stored as null, where the text field would store its `str`.
- PushDirect.BillingText: a numeric Billing cell becomes `TBD`, where `astype(str)` would give its decimal text.
- PushDirect.Prepare: text in a summed column is an error, where pandas may concatenate strings instead of raising.
- PushDirect.CalculateAndPush: the data frame is a value, and the columns the source adds to the caller's frame in place are not visible to the caller. Exceptions other than the modelled ones are left out, and `week_number` is unused as in the source.
- Staffing.Resource.Save: the write done by `super().save()` is not modelled; `stored` stands for the statuses the table already holds by primary key.
- Staffing.Allocation.Save: the database write and the choice validation of the two fields are left out; only the status rule is modelled.
- The other models (projects, deals, history listings, skills) hold no logic of the core. `util/util_report/models/choices.py` is not part of this model beyond the choice strings it names.
