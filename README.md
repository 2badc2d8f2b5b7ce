# NFL transactions automation — a verified model

This Dafny project models the record pipeline of the NFL transactions
automation. Each day the system does four things:

- It fetches the ESPN transactions response for a date.
- It turns every item into a seven-column transaction record: date, type, team, player, description, transaction id, scrape stamp.
  - Empty values become `Unknown`.
  - The date becomes `YYYY-MM-DD`, and the processing date when it does not read.
- It drops repeated transaction ids, keeping the first, and sorts by date.
- It saves a CSV backup and appends the records whose ids are not yet stored to an append-only Google worksheet.

A historical backfill repeats the daily run for every calendar date of a range and adds up what was found.

The modules follow the program:

| module | file | what it holds |
|---|---|---|
| `Common` | `common.dfy` | `Option`, `Result`, and Python truthiness of an optional string |
| `Calendar` | `calendar.dfy` | Dates from year 1 to 9999, the one-day step, the date range, `strftime('%Y-%m-%d')`, the date part `fromisoformat` reads, and `strptime(s, '%Y-%m-%d')` |
| `TextOrder` | `text_order.dfy` | The order `sort_values` uses on date strings, proved to be a total order |
| `IsoTimestamp` | `iso_timestamp.dfy` | The `Z` → `+00:00` replacement, the timestamps `fromisoformat` accepts, and the date normalisation |
| `TransactionScraper` | `transaction_scraper.dfy` | `parse_transactions`, `clean_transaction_data`, `get_daily_transactions` and the default name of `save_to_csv` |
| `GoogleSheets` | `google_sheets_updater.dfy` | The constructor check, a `GoogleSheetsUpdater` class over an in-memory spreadsheet, and the read-ids / filter / append cycle with its idempotence |
| `Automation` | `main.dfy` | An `NFLTransactionAutomation` class whose `RunDailyAutomation` fills the result record step by step and whose `RunHistoricalBackfill` loops over the dates |

How the code is modelled:

- **Transformations:** each is a function, specified by what it means.
- **Loops and state changes in the source:** these are methods. Examples are the cleaning loop, the parse loop, the row-building loop of the append, and the backfill `while` loop. Each method is proved equal to the specifying function, or to a fold over the dates.
- **Outside inputs:** the network fetch and the wall clock are parameters.
  - `fetch` maps a date string to a payload or an error.
  - A `Clock` carries the processing date and the `isoformat()` stamp.
- **Sheet reads:** whether a read of the id column fails is a boolean parameter.

## Model

| member | source | states |
|---|---|---|
| Calendar.DaysInMonth | src/main.py:247 | A month has 28 to 31 days, and 29 exactly for February of a leap year (the calendar `timedelta` steps through) |
| Calendar.NextDay | src/main.py:247 | `d + timedelta(days=1)` is strictly later than `d`, and raises (None) exactly on 9999-12-31 |
| Calendar.NoDateSkipped | src/main.py:247 | The one-day step skips no date: any date after `d` is at or after the next day |
| Calendar.DateRange | src/main.py:232-247 | The dates the `while current_date <= end` loop visits: empty exactly when start is after end, first is start, last is end, every element lies between them |
| Calendar.DateRangeStep | src/main.py:232-247 | Unfolding one loop pass: the range is the current date followed by the range from the next day (or just the current date at 9999-12-31) |
| Calendar.DateRangeAdvance | src/main.py:232-247 | The loop's bookkeeping: visited dates plus the remaining range stay equal to the whole range after one more date |
| Calendar.DateRangeComplete | src/main.py:232-247 | Every date between start and end is visited |
| Calendar.DateRangeIncreasing | src/main.py:232-247 | Visited dates are strictly increasing, so each is visited once |
| Calendar.DateRangeExactly | src/main.py:232-247 | A date is visited if and only if it lies between start and end; visits are strictly increasing; none when start > end |
| Calendar.ParseFullDate | src/transaction_scraper.py:128 | The date part `fromisoformat` reads has the `YYYY-MM-DD` shape and names a real date |
| Calendar.Format | src/transaction_scraper.py:129 | `strftime('%Y-%m-%d')` writes the `YYYY-MM-DD` shape, and reading it back gives the same date |
| Calendar.FormatOfParse | src/transaction_scraper.py:128-129 | Writing back a date that was read reproduces the text exactly, so the normalised date equals the input's leading ten characters |
| Calendar.FormatInjective | src/transaction_scraper.py:179 | Different dates are written differently |
| Calendar.Strptime | src/main.py:227-228 | `strptime(s, '%Y-%m-%d')` accepts only texts of 8 to 10 characters |
| Calendar.StrptimeOfFormat | src/main.py:227-233 | `strptime` reads back every date `strftime` wrote, so the backfill's date strings round-trip |
| TextOrder.LexLeReflexive | src/transaction_scraper.py:158 | The date-string order relates every string to itself |
| TextOrder.LexLeTotal | src/transaction_scraper.py:158 | Any two date strings are comparable |
| TextOrder.LexLeTransitive | src/transaction_scraper.py:158 | The order is transitive |
| TextOrder.LexLeAntisymmetric | src/transaction_scraper.py:158 | Strings that are ordered both ways are equal |
| IsoTimestamp.ReplaceZ | src/transaction_scraper.py:128 | `replace('Z', '+00:00')` leaves no `Z`, changes nothing in a text without `Z`, and never shortens |
| IsoTimestamp.ReplaceZAppend | src/transaction_scraper.py:128 | The replacement works piecewise over a concatenation |
| IsoTimestamp.ReplaceZKeepsPrefix | src/transaction_scraper.py:128 | A leading part of the result without `+` is unchanged from the input |
| IsoTimestamp.NormalizeDate | src/transaction_scraper.py:124-131 | The cleaned date always reads as a real `YYYY-MM-DD` date. An accepted timestamp keeps its own leading ten characters (no time-zone conversion). Anything else gives the processing date |
| IsoTimestamp.UtcReplaceZ | src/transaction_scraper.py:128 | For a UTC timestamp ending in `Z`, only that trailing `Z` is rewritten to `+00:00` |
| IsoTimestamp.UtcAccepted | src/transaction_scraper.py:128 | The rewritten UTC timestamp, with or without a 3-digit fraction, is accepted by `fromisoformat` |
| IsoTimestamp.NormalizeUtcTimestamp | src/transaction_scraper.py:124-131 | Every `YYYY-MM-DDTHH:MM:SS[.fff]Z` timestamp normalises to its own date |
| IsoTimestamp.NormalizeZulu | src/transaction_scraper.py:124-131 | `2024-01-15T14:30:00Z` becomes `2024-01-15` |
| IsoTimestamp.NormalizeZuluMillis | src/transaction_scraper.py:124-131 | `2024-01-15T14:30:00.000Z` becomes `2024-01-15` |
| IsoTimestamp.NormalizeFullDate | src/transaction_scraper.py:124-131 | A bare valid `YYYY-MM-DD` date is kept as it is |
| IsoTimestamp.NormalizeBareDate | src/transaction_scraper.py:124-131 | `2024-01-15` stays `2024-01-15` |
| IsoTimestamp.NormalizeUnreadable | src/transaction_scraper.py:119-131 | The `Unknown` an empty date became, and the `Jul 03, 2025` form, both give the processing date, never `Unknown` |
| TransactionScraper.Scrub | src/transaction_scraper.py:120-122 | A scrubbed value is a non-empty string, and a non-empty string is kept |
| TransactionScraper.Scrubbed | src/transaction_scraper.py:119-122 | The scrubbing loop keeps the keys and leaves no `None` or empty value |
| TransactionScraper.Cleaned | src/transaction_scraper.py:109-133 | Cleaning succeeds exactly when the dict has a `date` key. It keeps the keys, leaves no empty or `None` value, and makes the date a real `YYYY-MM-DD` date |
| TransactionScraper.CleanTransaction | src/transaction_scraper.py:109-133 | The in-place loop over the dict's items, then the date rewrite under its truth-test guard, computes `Cleaned` |
| TransactionScraper.CleanedKeepsOtherFields | src/transaction_scraper.py:119-122 | Every non-date field is kept when it is a non-empty string and is `Unknown` otherwise |
| TransactionScraper.CleanedDate | src/transaction_scraper.py:124-131 | The cleaned date is the first ten characters of a readable timestamp, otherwise the processing date, also for an empty or `None` date |
| TransactionScraper.CleanedExample | src/transaction_scraper.py:119-122 | A `None` type and an empty player become `Unknown`; the team `Team A` is kept |
| TransactionScraper.CleanedField | src/transaction_scraper.py:119-122 | Each non-date field of the cleaned dict is its scrubbed input |
| TransactionScraper.RawTransaction | src/transaction_scraper.py:87-95 | A dict that is built has exactly the seven keys |
| TransactionScraper.RawTransactionFields | src/transaction_scraper.py:87-95 | The built dict holds the item's date, description and id (default `''`), the nested `displayName`s (default `Unknown`) and the clock stamp |
| TransactionScraper.RawTransactionFails | src/transaction_scraper.py:84-103 | Building the dict raises exactly on an item that is not an object or whose `type`/`team`/`player` is present but not an object |
| TransactionScraper.RecordFor | src/transaction_scraper.py:84-103 | An item is skipped exactly when it is malformed; otherwise its row has no empty field and a valid date |
| TransactionScraper.CleanRow | src/transaction_scraper.py:98-99 | Every cleaned dict gives a row with no empty field and a valid date |
| TransactionScraper.CleanRowFields | src/transaction_scraper.py:98-99 | The row's non-date columns are the dict's values scrubbed |
| TransactionScraper.ToRecordWellFormed | src/transaction_scraper.py:98-99 | A cleaned dict with a valid date makes a well-formed row |
| TransactionScraper.RecordForNames | src/transaction_scraper.py:89-91 | Type, team and player are the nested `displayName`s, or `Unknown` when the object or name is absent, `null` or empty |
| TransactionScraper.RecordForTexts | src/transaction_scraper.py:92-94 | Description and id are the item's own texts or `Unknown`; the stamp is the clock text |
| TransactionScraper.RecordForDate | src/transaction_scraper.py:88-131 | The row's date is the item's date text normalised |
| TransactionScraper.KeepSome | src/transaction_scraper.py:84-103 | A loop that skips the elements that raise yields at most one result per element |
| TransactionScraper.KeepSomeOfTotal | src/transaction_scraper.py:84-103 | With nothing skipped, the i-th result comes from the i-th element |
| TransactionScraper.KeepSomeMembers | src/transaction_scraper.py:84-103 | Every result comes from some element, and every element that is not skipped contributes |
| TransactionScraper.KeepSomeOfNone | src/transaction_scraper.py:84-103 | When every element is skipped nothing is kept |
| TransactionScraper.KeepSomeAppend | src/transaction_scraper.py:84-103 | The results of two stretches of elements are the first stretch's results followed by the second's, so results keep element order |
| TransactionScraper.KeepSomeOne | src/transaction_scraper.py:84-103 | One element gives exactly its own result, or none when it is skipped |
| TransactionScraper.ParsedItems | src/transaction_scraper.py:84-105 | At most one row per item, and every row is well-formed (no empty field, valid date) |
| TransactionScraper.ParsedItemsAppend | src/transaction_scraper.py:84-105 | The rows of two runs of items are the first run's rows followed by the second's: rows come in item order, malformed items or not |
| TransactionScraper.ParsedItemsOne | src/transaction_scraper.py:84-105 | A single item gives exactly its own row, or no row when it is malformed; with `ParsedItemsAppend` this fixes the table row for row |
| TransactionScraper.ParseTransactions | src/transaction_scraper.py:70-107 | The item loop with its `try`/`except continue` computes the parsed table: one row per well-formed item, in item order (`ParsedItemsAppend`, `ParsedItemsOne`). A missing `items` gives no rows, and a non-iterable `items` raises |
| TransactionScraper.ParsedAllWellFormed | src/transaction_scraper.py:84-105 | With no malformed item, row i is item i's row, one per item, in item order |
| TransactionScraper.ParsedExactlyTheWellFormed | src/transaction_scraper.py:84-105 | No row is invented and no well-formed item's row is lost |
| TransactionScraper.AllMalformedIsEmpty | src/transaction_scraper.py:84-105 | A response whose items all raise parses to no rows |
| TransactionScraper.FirstWithId | src/transaction_scraper.py:155 | The first row carrying an id is in the table and carries that id |
| TransactionScraper.KeepFirst | src/transaction_scraper.py:155 | The first-occurrence filter yields an order-preserving subsequence with unique ids, covering every id not already seen |
| TransactionScraper.KeepFirstTakesFirst | src/transaction_scraper.py:155 | Each kept row is the first row with its id |
| TransactionScraper.DropDuplicateIdsKeepsFirst | src/transaction_scraper.py:155 | `drop_duplicates(subset=['transaction_id'], keep='first')` leaves unique ids, keeps order, loses no id, and keeps the first row of each id |
| TransactionScraper.KeepFirstOfUnique | src/transaction_scraper.py:155 | Rows with unique, unseen ids pass through unchanged |
| TransactionScraper.DropDuplicateIdsSnoc | src/transaction_scraper.py:155 | One more row at the end is kept exactly when its id did not occur before, after the rows kept so far; this fixes the order of the kept rows |
| TransactionScraper.KeepFirstSnoc | src/transaction_scraper.py:155 | The same scan with ids already seen: a last row is kept exactly when its id is neither seen nor earlier |
| TransactionScraper.DropDuplicateIdsIdempotent | src/transaction_scraper.py:155 | Removing duplicates twice is the same as once |
| TransactionScraper.DropDuplicateIdsExample | src/transaction_scraper.py:155 | Two rows with the same id collapse to the first, as the `Unknown` ids of id-less items do |
| TransactionScraper.SortedByDateAllPairs | src/transaction_scraper.py:158 | A table sorted by neighbours is ordered by date between every pair of rows |
| TransactionScraper.InsertByDate | src/transaction_scraper.py:158 | Inserting a row into a sorted table keeps it sorted and adds exactly that row |
| TransactionScraper.SortByDate | src/transaction_scraper.py:158 | `sort_values('date')` yields rows in non-decreasing date order that are a permutation of its input |
| TransactionScraper.InsertByDateKeepsUnique | src/transaction_scraper.py:155-158 | Inserting a row with a new id keeps ids unique |
| TransactionScraper.SortByDateKeepsIds | src/transaction_scraper.py:155-158 | Sorting keeps the set of ids, and keeps them unique |
| TransactionScraper.DedupeThenSort | src/transaction_scraper.py:155-158 | Dropping duplicates then sorting gives well-formed rows with unique ids, in date order, a permutation of the first-occurrence rows, covering every id |
| TransactionScraper.DailyTransactions | src/transaction_scraper.py:135-165 | The day's table exists exactly when the fetch and the parse succeed; their errors are re-raised |
| TransactionScraper.DailyTransactionsProperties | src/transaction_scraper.py:147-161 | A day's table has well-formed rows and unique ids, is sorted by date, and is a permutation of the first row of each parsed id |
| TransactionScraper.DailyTransactionsAsWritten | src/transaction_scraper.py:152-158 | As written, a day that returns always has at least one row: an empty parse raises `KeyError: 'date'` at the sort |
| TransactionScraper.EmptyDayRaisesAsWritten | src/transaction_scraper.py:152-158 | A response without `items` raises as written but gives the empty table in the corrected model |
| TransactionScraper.AsWrittenAgreesOnNonEmptyDays | src/transaction_scraper.py:152-158 | On every day with at least one row the written and the corrected collections agree |
| TransactionScraper.GetDailyTransactions | src/transaction_scraper.py:135-165 | The collection step by step (fetch result, parse, de-duplicate, sort) computes the corrected `DailyTransactions`: an empty day gives the empty table (see Findings) |
| TransactionScraper.CsvFilename | src/transaction_scraper.py:178-179 | A given non-empty file name is used as it is |
| TransactionScraper.CsvFilenamePerDay | src/transaction_scraper.py:179 | Default file names of two processing dates are equal exactly when the dates are |
| GoogleSheets.ResolveConfig | src/google_sheets_updater.py:43-47 | Construction succeeds exactly when a credentials path and a sheet id are each available from the argument or the environment. Both are then non-empty, and an argument wins over the environment |
| GoogleSheets.RowOf | src/google_sheets_updater.py:175-185 | Each record gives a row as wide as the header |
| GoogleSheets.RowsOf | src/google_sheets_updater.py:175-185 | One row per record, in order, each the record's row |
| GoogleSheets.IdList | src/google_sheets_updater.py:183 | The ids of a batch, in order |
| GoogleSheets.NonBlankColumn | src/google_sheets_updater.py:123-126 | The non-blank cells of a column are exactly the column's non-empty values |
| GoogleSheets.NonBlankColumnAppend | src/google_sheets_updater.py:123-126 | The column of appended rows is the old column followed by the new cells |
| GoogleSheets.NonBlankColumnOfRows | src/google_sheets_updater.py:175-185 | The id column of the written rows is the batch's id list: the column written is the column read |
| GoogleSheets.StoredIdsAfterAppend | src/google_sheets_updater.py:123-126 | After appending below a first row, the stored ids are the old ones followed by the batch's ids |
| GoogleSheets.NewWorksheetStoresNoIds | src/google_sheets_updater.py:100-104 | A new worksheet holds only the header, whose sixth cell is `Transaction ID`, and stores no ids |
| GoogleSheets.WithoutIds | src/google_sheets_updater.py:152 | The `isin` mask keeps, in order, exactly the rows whose id is not among the existing ids, each kept row as many times as it occurs in the batch |
| GoogleSheets.WithoutNoIds | src/google_sheets_updater.py:147-152 | With no existing ids the batch is returned unchanged, internal duplicates included |
| GoogleSheets.KeepNewSelects | src/google_sheets_updater.py:145-157 | `filter_new_transactions` returns an order-preserving subsequence holding exactly the rows whose ids are not stored, each as many times as in the batch (none for a stored id) |
| GoogleSheets.SubsequenceLength | src/google_sheets_updater.py:255 | A filtered batch is no longer than the batch, so the duplicate count is never negative |
| GoogleSheets.WithWorksheet | src/google_sheets_updater.py:85-104 | Setup leaves an existing worksheet and the rest of the spreadsheet untouched, and creates a missing one holding just the header |
| GoogleSheets.DailyUpdateCounts | src/google_sheets_updater.py:251-256 | New plus duplicate transactions equals the total, which is the batch size; duplicates are non-negative |
| GoogleSheets.DailyUpdateOnlyAppends | src/google_sheets_updater.py:240-246 | Apart from the `Metadata` worksheet (left out), the update touches only its own worksheet, and there only adds rows below the existing ones |
| GoogleSheets.DailyUpdateStoresBatch | src/google_sheets_updater.py:240-246 | After an update, every id of the batch is stored in the worksheet, provided it starts with a first row |
| GoogleSheets.DailyUpdateOfStoredBatch | src/google_sheets_updater.py:243-246 | A batch whose ids are all stored adds nothing, changes nothing and counts all as duplicates |
| GoogleSheets.DailyUpdateIdempotent | src/google_sheets_updater.py:225-265 | Running the update again on the same batch adds nothing and leaves the spreadsheet unchanged apart from the `Metadata` worksheet (left out), whether or not the first read failed |
| GoogleSheets.HeaderlessWorksheetReappends | src/google_sheets_updater.py:123-126 | On an existing worksheet with no rows the first appended row is taken for the header, so a second run appends the record again |
| GoogleSheets.GoogleSheetsUpdater.constructor | src/google_sheets_updater.py:28-53 | The updater keeps the resolved credentials path and sheet id and the opened spreadsheet, with no worksheet selected |
| GoogleSheets.GoogleSheetsUpdater.SetupWorksheet | src/google_sheets_updater.py:78-112 | Selects the named worksheet, which afterwards exists; an existing one is untouched, a missing one is created holding the header |
| GoogleSheets.GoogleSheetsUpdater.ExistingTransactionIds | src/google_sheets_updater.py:114-133 | The ids are column 6 without its first row and without blank cells, in order; a failed read, or no worksheet selected, gives none |
| GoogleSheets.GoogleSheetsUpdater.FilterNewTransactions | src/google_sheets_updater.py:135-157 | An order-preserving subsequence of the batch holding exactly the rows whose id is not stored, each as many times as in the batch |
| GoogleSheets.GoogleSheetsUpdater.AppendTransactions | src/google_sheets_updater.py:159-195 | An empty batch returns 0 and changes nothing. Otherwise one 7-cell row per record, in order, goes below the existing rows, and the count is returned. Without a worksheet it raises |
| GoogleSheets.GoogleSheetsUpdater.ProcessDailyUpdate | src/google_sheets_updater.py:225-265 | Setup, filter and append leave the spreadsheet and return the result that `DailyUpdate` describes, so the counts and idempotence lemmas apply to the method |
| Automation.RequestedDate | src/main.py:74 | The reported and fetched date is the given one, or else the processing date as a valid `YYYY-MM-DD` |
| Automation.DailyRunDateProcessed | src/main.py:74 | Every run reports the requested date, or the processing date when none was given |
| Automation.DailyRunRaises | src/main.py:117-121 | The run raises exactly when the corrected collection raises (a failed fetch or an `items` that cannot be iterated). The error is then the only entry in `errors`, `success` stays false, and the spreadsheet is untouched |
| Automation.DailyRunReturns | src/main.py:85-112 | A run that returns succeeds with no error and reports what the scrape found. An empty day (reachable once the collection is corrected) saves no CSV and updates no sheet. Otherwise the CSV holds all found rows under the processing date's name |
| Automation.DailyRunSheets | src/main.py:101-107 | Without an updater nothing is added and no duplicate count appears. With one, added plus duplicates equals found, and the spreadsheet is the one the update leaves |
| Automation.CsvFileIgnoresRequestedDate | src/main.py:96-97 | Two runs on one processing day write the same CSV file whatever dates they asked for |
| Automation.DailyRunFound | src/main.py:237-238 | A backfill date contributes what its run found if the run returned, and 0 if it raised |
| Automation.BackfillDayRun | src/main.py:233-238 | The run of a backfill date asks for that date's text; its count and its spreadsheet are the date's contribution |
| Automation.AddDay | src/main.py:232-247 | One more date adds its contribution to the running total and its update to the spreadsheet |
| Automation.BackfillOfDates | src/main.py:227-247 | When both dates read, the backfill runs their range and totals it. It ends in the OverflowError exactly when the range ends at 9999-12-31 |
| Automation.BackfillVisitsRange | src/main.py:227-247 | The backfill visits exactly the dates from start to end, in increasing order, each once, and none when start is after end |
| Automation.BackfillOverflows | src/main.py:247 | The backfill raises an OverflowError exactly when its end is 9999-12-31 and the range is not empty |
| Automation.SumFoundSplit | src/main.py:236-245 | The backfill total over consecutive stretches of dates is the sum of their totals |
| Automation.FailingDayAddsNothing | src/main.py:244-245 | A date whose scrape raises adds nothing to the total, and the dates after it still count |
| Automation.NFLTransactionAutomation.constructor | src/main.py:47-56 | The automation has a sheets updater exactly when the environment supplies both settings and the connection succeeds |
| Automation.NFLTransactionAutomation.RunDailyAutomation | src/main.py:58-123 | Filling the result field by field returns or raises the outcome `DailyRun` describes, on the corrected collection, and leaves the spreadsheet it describes |
| Automation.NFLTransactionAutomation.RunDay | src/main.py:233-247 | One loop pass runs the date with that run's own clock reading and id-read outcome, adds its contribution to the running total and folds its update into the spreadsheet |
| Automation.NFLTransactionAutomation.RunDates | src/main.py:230-247 | The `while` loop visits exactly the range from start to end. Its total is the sum over the visited dates, each day run with its own clock reading and id-read outcome, and the spreadsheet is every day's update applied in order |
| Automation.NFLTransactionAutomation.RunHistoricalBackfill | src/main.py:215-249 | The backfill ends as `Backfill` describes: ValueError on an unreadable date, otherwise the range run and totalled |

## Left out

- Fetching over the network: the ESPN request and its retry decorator are the `fetch` parameter. An HTTP failure after the retries is an `Err`.
- The wall clock within one daily run: one `Clock` reading serves the whole run. The source reads the clock several times per run, and across midnight those readings can differ. A backfill gives each date's run its own reading (`Clocks`), and its own id-read outcome (`ReadFailures`).
  - The `start_time`, `end_time` and `updated_at` texts are not produced; `updated_at` is the caller's `now`.
- JSON numbers, booleans and lists as item members: only strings, `null` and absent members are modelled, for example a numeric `id`. A response that is not an object is also not modelled.
- `datetime.fromisoformat`: only the RFC 3339 section 5.6 full-date and date-time forms are modelled, with `Z` written `+00:00`. A fraction has three or six digits. Other texts Python accepts fall back to the processing date in the model; they include week dates, a space separator and other fraction widths.
- `strptime`: only ASCII digits are modelled; Python's `\d` also matches other Unicode decimal digits.
- Calendar.Format: writes the year as four zero-padded digits. For years 1 to 999 `strftime('%Y')` depends on the platform's C library (glibc writes `999`, not `0999`), so there the source's date text can be shorter; the model follows the four-digit form.
- TransactionScraper.SortByDate: does not say which of several rows with the same date comes first, because `sort_values` does not promise a stable order.
- The cleaning guard `if transaction['date']`: it always holds after the scrubbing loop. `Cleaned` omits it, and `CleanTransaction` keeps it.
- The CSV file itself and `os.makedirs`: only the file name is modelled.
- Google plumbing:
  - `connect`, that is OAuth and opening the spreadsheet, is the `connects` flag and the `spreadsheet` parameter.
  - Header styling via `worksheet.format` is not modelled.
  - `update_metadata` is left out; it only clears and rewrites a separate `Metadata` worksheet and swallows its errors.
  - The `USER_ENTERED` interpretation of cell text is not modelled: a written cell is stored as its text.
  - The worksheet's 1000-row and 10-column size is not modelled.
- Network failures inside `setup_worksheet`, `append_rows` and `process_daily_update`: only the read failure of the id column is a parameter. Any other sheet failure is not modelled.
- `generate_summary_report`, `test_system_connectivity`, logging, `time.sleep(1)` in the backfill, the module-level `main()` functions and `run.py`: these only print, wait or drive the command line.
- The backfill total: the source only logs it. The model returns it in `BackfillOutcome`.
- A daily run without a date: the source fetches for its own `datetime.now()` date. The model fetches for the processing date of the same `Clock`.
- Date parsing of `Jul 03, 2025`, a keyword classifier for transaction types, a team abbreviation table, hashed identity keys and partial-append reporting: the code has none of these.
  - Following the code, `Jul 03, 2025` falls back to the processing date (`NormalizeUnreadable`).
- TransactionScraper.GetDailyTransactions: computes the corrected collection, so an empty day gives the empty table where `get_daily_transactions` as written raises `KeyError: 'date'` (see Findings; the as-written half is `DailyTransactionsAsWritten`).
- Automation.DailyRunRaises: the daily run is modelled on the corrected collection, so it does not raise on an empty day, where `run_daily_automation` as written records the `KeyError` and re-raises.
- Automation.DailyRunReturns: its empty-day clause describes the corrected run; as written that branch (src/main.py:89-92) is never reached.
- Automation.NFLTransactionAutomation.RunDailyAutomation: runs the corrected collection, so an empty day returns success with 0 found where the source as written raises; the backfill members built on it count such a day as 0 found rather than as a raising day, which also adds 0.
- GoogleSheets.DailyUpdateIdempotent: requires that an existing worksheet has at least one row. The source reads ids below row 1, so without a header the guarantee fails (`HeaderlessWorksheetReappends`).

## Findings

| source | as written | input that shows it | evidently intended | confidence | as-written member | corrected member |
|---|---|---|---|---|---|---|
| src/transaction_scraper.py:158 | A day whose parse yields no rows builds `pd.DataFrame([])` with no columns. `drop_duplicates` returns that empty frame as it is, and `sort_values('date')` then raises `KeyError: 'date'`, so the daily run raises, and its "no transactions found" branch (src/main.py:89-92) is unreachable | A response without `items`, or whose items are all malformed | An empty table, so the run reports success with 0 transactions found | high, not executed | TransactionScraper.EmptyDayRaisesAsWritten | TransactionScraper.DailyTransactions |
