/** The orchestration in `main.py`: one daily run fills a result record step
    by step (scrape, save the CSV backup, update the spreadsheet), and the
    historical backfill runs the daily step for every date of a range. The
    clock and the network are parameters: `clock` is the one reading of
    `datetime.now()` a run uses, `fetch` is the ESPN request for a date. */
module Automation {
  import opened Common
  import opened Calendar
  import opened TransactionScraper
  import opened GoogleSheets

  /** The clock reading a run uses: the processing date and the
      `isoformat()` text stamped on records and on the update result. */
  datatype Clock = Clock(today: CalendarDate, stamp: string)

  /** The fetch of one date: the payload the ESPN endpoint returned, or the
      error it raised once its retries were spent. */
  type Fetch = string -> Result<Payload>

  /** The clock reading of the daily run for each backfill date: every run
      reads `datetime.now()` afresh. */
  type Clocks = CalendarDate -> Clock

  /** Whether the id read of the daily run for each backfill date fails. */
  type ReadFailures = CalendarDate -> bool

  /** The worksheet `process_daily_update` writes by default. */
  const WorksheetName := "NFL_Transactions"

  /** The `results` dictionary of `run_daily_automation`, without its
      `start_time` and `end_time` clock texts. `duplicateTransactions` is
      `None` while the key is absent. */
  datatype RunResult = RunResult(
    success: bool,
    dateProcessed: string,
    transactionsFound: nat,
    transactionsSavedCsv: nat,
    transactionsAddedSheets: nat,
    csvFile: Option<string>,
    duplicateTransactions: Option<int>,
    errors: seq<string>)

  /** A daily run either returns its results or re-raises the error after
      recording it in the results. */
  datatype RunOutcome = Returned(results: RunResult) | Raised(error: string, results: RunResult)

  /** `date or datetime.now().strftime('%Y-%m-%d')`: the date the run
      reports and the date the scraper fetches. */
  function RequestedDate(date: Option<string>, today: CalendarDate): (d: string)
    ensures Truthy(date) ==> d == date.value
    ensures !Truthy(date) ==> d == Format(today) && ParseFullDate(d).Some?
  {
    if Truthy(date) then date.value else Format(today)
  }

  /** The results before the first step. */
  function InitialResults(date: Option<string>, today: CalendarDate): RunResult {
    RunResult(false, RequestedDate(date, today), 0, 0, 0, None, None, [])
  }

  /** One daily run as a function: the outcome, and the spreadsheet
      afterwards when there is an updater (`sheets` is its spreadsheet
      before the run). */
  function DailyRun(date: Option<string>, fetched: Result<Payload>, clock: Clock,
                    sheets: Option<Spreadsheet>, readFails: bool)
    : (RunOutcome, Option<Spreadsheet>)
  {
    var results := InitialResults(date, clock.today);
    match DailyTransactions(fetched, clock.stamp, clock.today)
    case Err(e) => (Raised(e, results.(errors := results.errors + [e])), sheets)
    case Ok(batch) =>
      var found := results.(transactionsFound := |batch|);
      if batch == [] then (Returned(found.(success := true)), sheets)
      else
        var saved := found.(csvFile := Some(CsvFilename(None, clock.today)), transactionsSavedCsv := |batch|);
        match sheets
        case None => (Returned(saved.(success := true)), None)
        case Some(ws) =>
          var (after, update) := DailyUpdate(ws, WorksheetName, batch, readFails, clock.stamp);
          (Returned(saved.(transactionsAddedSheets := update.newTransactions,
                           duplicateTransactions := Some(update.duplicateTransactions),
                           success := true)),
           Some(after))
  }

  // ---------------------------------------------------------------------
  // What a daily run promises
  // ---------------------------------------------------------------------

  /** The run raises exactly when the scrape raises; it then records the
      error, reports no success and nothing found, and leaves the
      spreadsheet alone. */
  lemma DailyRunRaises(date: Option<string>, fetched: Result<Payload>, clock: Clock,
                       sheets: Option<Spreadsheet>, readFails: bool)
    ensures var (outcome, after) := DailyRun(date, fetched, clock, sheets, readFails);
      && (outcome.Raised? <==> DailyTransactions(fetched, clock.stamp, clock.today).Err?)
      && (outcome.Raised? ==>
            && outcome.error == DailyTransactions(fetched, clock.stamp, clock.today).error
            && outcome.results == InitialResults(date, clock.today).(errors := [outcome.error])
            && !outcome.results.success
            && after == sheets)
  {
  }

  /** Every run reports the requested date, or the processing date when none
      was given. */
  lemma DailyRunDateProcessed(date: Option<string>, fetched: Result<Payload>, clock: Clock,
                              sheets: Option<Spreadsheet>, readFails: bool)
    ensures var outcome := DailyRun(date, fetched, clock, sheets, readFails).0;
      && (Truthy(date) ==> outcome.results.dateProcessed == date.value)
      && (!Truthy(date) ==> outcome.results.dateProcessed == Format(clock.today))
  {
  }

  /** A run that returns succeeded, with no error, and found as many
      transactions as the scrape produced. An empty day saves no CSV and
      touches no spreadsheet; any other day saves all it found to the file
      named after the processing date. */
  lemma DailyRunReturns(date: Option<string>, fetched: Result<Payload>, clock: Clock,
                        sheets: Option<Spreadsheet>, readFails: bool)
    requires DailyTransactions(fetched, clock.stamp, clock.today).Ok?
    ensures var (outcome, after) := DailyRun(date, fetched, clock, sheets, readFails);
      var batch := DailyTransactions(fetched, clock.stamp, clock.today).value;
      && outcome.Returned?
      && outcome.results.success && outcome.results.errors == []
      && outcome.results.transactionsFound == |batch|
      && (batch == [] ==>
            && outcome.results.csvFile == None && outcome.results.transactionsSavedCsv == 0
            && outcome.results.transactionsAddedSheets == 0
            && outcome.results.duplicateTransactions == None
            && after == sheets)
      && (batch != [] ==>
            && outcome.results.csvFile == Some("data/nfl_transactions_" + Format(clock.today) + ".csv")
            && outcome.results.transactionsSavedCsv == outcome.results.transactionsFound)
  {
  }

  /** Without an updater nothing is added and no duplicate count appears;
      with one, added and duplicates make up what was found, and the
      spreadsheet is the one the daily update leaves. */
  lemma DailyRunSheets(date: Option<string>, fetched: Result<Payload>, clock: Clock,
                       sheets: Option<Spreadsheet>, readFails: bool)
    requires DailyTransactions(fetched, clock.stamp, clock.today).Ok?
    ensures var (outcome, after) := DailyRun(date, fetched, clock, sheets, readFails);
      var batch := DailyTransactions(fetched, clock.stamp, clock.today).value;
      && (sheets.None? ==>
            && outcome.results.transactionsAddedSheets == 0
            && outcome.results.duplicateTransactions == None
            && after == None)
      && (sheets.Some? && batch != [] ==>
            && outcome.results.duplicateTransactions.Some?
            && outcome.results.transactionsAddedSheets + outcome.results.duplicateTransactions.value
               == outcome.results.transactionsFound
            && outcome.results.duplicateTransactions.value >= 0
            && after == Some(DailyUpdate(sheets.value, WorksheetName, batch, readFails, clock.stamp).0))
  {
    var batch := DailyTransactions(fetched, clock.stamp, clock.today).value;
    if sheets.Some? {
      DailyUpdateCounts(sheets.value, WorksheetName, batch, readFails, clock.stamp);
    }
  }

  /** The CSV file is named after the processing date, not the requested
      one: two runs on the same day for different dates write the same
      file. */
  lemma CsvFileIgnoresRequestedDate(a: Option<string>, b: Option<string>,
                                    fetchedA: Result<Payload>, fetchedB: Result<Payload>, clock: Clock,
                                    sheets: Option<Spreadsheet>, readFails: bool)
    requires DailyRun(a, fetchedA, clock, sheets, readFails).0.results.csvFile.Some?
    requires DailyRun(b, fetchedB, clock, sheets, readFails).0.results.csvFile.Some?
    ensures DailyRun(a, fetchedA, clock, sheets, readFails).0.results.csvFile
            == DailyRun(b, fetchedB, clock, sheets, readFails).0.results.csvFile
  {
  }

  /** What the backfill adds up for one date: what that day's scrape found,
      or nothing when it raised. */
  function FoundOn(fetch: Fetch, clock: Clock, d: CalendarDate): nat {
    match DailyTransactions(fetch(Format(d)), clock.stamp, clock.today)
    case Ok(batch) => |batch|
    case Err(_) => 0
  }

  /** The count a daily run contributes to the backfill total. */
  lemma DailyRunFound(fetch: Fetch, clock: Clock, d: CalendarDate,
                      sheets: Option<Spreadsheet>, readFails: bool)
    ensures var outcome := DailyRun(Some(Format(d)), fetch(Format(d)), clock, sheets, readFails).0;
      FoundOn(fetch, clock, d) == (if outcome.Returned? then outcome.results.transactionsFound else 0)
  {
  }

  /** The daily run of a backfill date asks for that date; what it found
      is what the backfill counts. */
  lemma BackfillDayRun(fetch: Fetch, clock: Clock, d: CalendarDate, sheets: Option<Spreadsheet>,
                       readFails: bool, outcome: RunOutcome, after: Option<Spreadsheet>)
    requires (outcome, after) == DailyRun(Some(Format(d)), fetch(RequestedDate(Some(Format(d)), clock.today)),
                                          clock, sheets, readFails)
    ensures FoundOn(fetch, clock, d) == (if outcome.Returned? then outcome.results.transactionsFound else 0)
    ensures after == SheetsAfterDay(fetch, clock, sheets, d, readFails)
  {
    DailyRunFound(fetch, clock, d, sheets, readFails);
  }

  /** The spreadsheet after the daily step on date `d`. */
  function SheetsAfterDay(fetch: Fetch, clock: Clock, before: Option<Spreadsheet>, d: CalendarDate,
                          readFails: bool): Option<Spreadsheet>
  {
    DailyRun(Some(Format(d)), fetch(Format(d)), clock, before, readFails).1
  }

  /** The backfill total over `days`, each day counted with the clock
      reading of its own run. */
  function SumFound(fetch: Fetch, clocks: Clocks, days: seq<CalendarDate>): nat {
    if days == [] then 0
    else SumFound(fetch, clocks, days[..|days| - 1]) + FoundOn(fetch, clocks(days[|days| - 1]), days[|days| - 1])
  }

  /** The spreadsheet after running the daily step on each of `days` in
      turn, starting from `sheets`. */
  function SheetsAfterDays(fetch: Fetch, clocks: Clocks, sheets: Option<Spreadsheet>,
                           days: seq<CalendarDate>, readFails: ReadFailures)
    : Option<Spreadsheet>
  {
    if days == [] then sheets
    else
      var d := days[|days| - 1];
      SheetsAfterDay(fetch, clocks(d), SheetsAfterDays(fetch, clocks, sheets, days[..|days| - 1], readFails),
                     d, readFails(d))
  }

  /** Running one more day adds what it found to the total and its update
      to the spreadsheet. */
  lemma AddDay(fetch: Fetch, clocks: Clocks, sheets: Option<Spreadsheet>, days: seq<CalendarDate>,
               d: CalendarDate, readFails: ReadFailures)
    ensures SumFound(fetch, clocks, days + [d]) == SumFound(fetch, clocks, days) + FoundOn(fetch, clocks(d), d)
    ensures SheetsAfterDays(fetch, clocks, sheets, days + [d], readFails)
            == SheetsAfterDay(fetch, clocks(d), SheetsAfterDays(fetch, clocks, sheets, days, readFails), d, readFails(d))
  {
    assert (days + [d])[..|days|] == days;
  }

  // ---------------------------------------------------------------------
  // The historical backfill
  // ---------------------------------------------------------------------

  /** How `run_historical_backfill` ends: it completes with the total it
      logs, or raises. `visited` lists the dates whose daily step ran. */
  datatype BackfillOutcome =
    | Completed(total: nat, visited: seq<CalendarDate>)
    | Aborted(error: string, total: nat, visited: seq<CalendarDate>)

  /** The dates the backfill runs: `None` when either date does not read
      with `strptime` (the ValueError), otherwise every date from start to
      end. */
  function BackfillDays(start: string, end: string): Option<seq<CalendarDate>> {
    match (Strptime(start), Strptime(end))
    case (Some(s), Some(e)) => Some(DateRange(s, e))
    case _ => None
  }

  /** The backfill as a function: a range that reaches 9999-12-31 ends in
      the OverflowError of the step past it, after running that date. */
  function Backfill(start: string, end: string, fetch: Fetch, clocks: Clocks): BackfillOutcome {
    match BackfillDays(start, end)
    case None => Aborted("ValueError: time data does not match format '%Y-%m-%d'", 0, [])
    case Some(days) =>
      if days != [] && days[|days| - 1] == LastDate then
        Aborted("OverflowError: date value out of range", SumFound(fetch, clocks, days), days)
      else Completed(SumFound(fetch, clocks, days), days)
  }

  /** When both dates read, the backfill runs their range. */
  lemma BackfillOfDates(start: string, end: string, fetch: Fetch, clocks: Clocks, s: CalendarDate, e: CalendarDate)
    requires Strptime(start) == Some(s) && Strptime(end) == Some(e)
    ensures var days := DateRange(s, e);
      Backfill(start, end, fetch, clocks)
      == if days != [] && days[|days| - 1] == LastDate
         then Aborted("OverflowError: date value out of range", SumFound(fetch, clocks, days), days)
         else Completed(SumFound(fetch, clocks, days), days)
  {
  }

  /** The dates run are exactly those from start to end inclusive, each
      once and in increasing order, and none when start is after end. */
  lemma BackfillVisitsRange(start: string, end: string)
    requires BackfillDays(start, end).Some?
    ensures var s, e, days := Strptime(start).value, Strptime(end).value, BackfillDays(start, end).value;
      && (forall x: CalendarDate :: x in days <==> AtOrBefore(s, x) && AtOrBefore(x, e))
      && (forall i, j :: 0 <= i < j < |days| ==> Before(days[i], days[j]))
      && (days == [] <==> Before(e, s))
  {
    var s, e := Strptime(start).value, Strptime(end).value;
    assert BackfillDays(start, end).value == DateRange(s, e);
    DateRangeExactly(s, e);
  }

  /** The backfill raises an OverflowError exactly when its range is not
      empty and ends at the last date Python represents. */
  lemma BackfillOverflows(start: string, end: string, fetch: Fetch, clocks: Clocks)
    requires BackfillDays(start, end).Some?
    ensures Backfill(start, end, fetch, clocks).Aborted?
            <==> Strptime(end).value == LastDate && AtOrBefore(Strptime(start).value, LastDate)
  {
    var s, e := Strptime(start).value, Strptime(end).value;
    assert BackfillDays(start, end).value == DateRange(s, e);
  }

  /** A day that raises adds nothing, but the days after it still run: the
      total is the sum over the whole range of what each day found. */
  lemma {:induction false} SumFoundSplit(fetch: Fetch, clocks: Clocks, a: seq<CalendarDate>, b: seq<CalendarDate>)
    ensures SumFound(fetch, clocks, a + b) == SumFound(fetch, clocks, a) + SumFound(fetch, clocks, b)
    decreases |b|
  {
    if b == [] {
      assert a + b == a;
    } else {
      var init := b[..|b| - 1];
      assert (a + b)[..|a + b| - 1] == a + init;
      SumFoundSplit(fetch, clocks, a, init);
    }
  }

  /** A date whose scrape raises changes the total by nothing. */
  lemma FailingDayAddsNothing(fetch: Fetch, clocks: Clocks, a: seq<CalendarDate>, d: CalendarDate, b: seq<CalendarDate>)
    requires DailyTransactions(fetch(Format(d)), clocks(d).stamp, clocks(d).today).Err?
    ensures SumFound(fetch, clocks, a + [d] + b) == SumFound(fetch, clocks, a + b)
  {
    SumFoundSplit(fetch, clocks, a + [d], b);
    SumFoundSplit(fetch, clocks, a, b);
    assert (a + [d])[..|a + [d]| - 1] == a;
  }

  // ---------------------------------------------------------------------
  // The automation object
  // ---------------------------------------------------------------------

  class NFLTransactionAutomation {
    /** `self.sheets_updater`: `None` when the updater could not be built. */
    const sheetsUpdater: GoogleSheetsUpdater?

    /** The constructor: the updater is built from the environment (no
        arguments are passed), and any failure of its check or of the
        connection leaves the automation without one. */
    constructor(credentialsEnv: Option<string>, sheetEnv: Option<string>, connects: bool, spreadsheet: Spreadsheet)
      ensures sheetsUpdater != null <==> ResolveConfig(None, None, credentialsEnv, sheetEnv).Ok? && connects
      ensures sheetsUpdater != null ==> fresh(sheetsUpdater) && sheetsUpdater.worksheets == spreadsheet
    {
      var config := ResolveConfig(None, None, credentialsEnv, sheetEnv);
      if config.Ok? && connects {
        sheetsUpdater := new GoogleSheetsUpdater(config.value, spreadsheet);
      } else {
        sheetsUpdater := null;
      }
    }

    /** `run_daily_automation`, filling the results step by step. */
    method RunDailyAutomation(date: Option<string>, fetch: Fetch, clock: Clock, readFails: bool)
      returns (outcome: RunOutcome)
      modifies sheetsUpdater
      ensures var (o, after) := DailyRun(date, fetch(RequestedDate(date, clock.today)), clock,
                                         if sheetsUpdater == null then None else Some(old(sheetsUpdater.worksheets)),
                                         readFails);
        && outcome == o
        && (sheetsUpdater != null ==> after == Some(sheetsUpdater.worksheets))
    {
      var results := RunResult(false, if Truthy(date) then date.value else Format(clock.today), 0, 0, 0, None, None, []);
      var day := GetDailyTransactions(fetch(RequestedDate(date, clock.today)), clock.stamp, clock.today);
      if day.Err? {
        results := results.(errors := results.errors + [day.error]);
        return Raised(day.error, results);
      }
      var transactions := day.value;
      results := results.(transactionsFound := |transactions|);
      if transactions == [] {
        results := results.(success := true);
        return Returned(results);
      }
      var csvFile := CsvFilename(None, clock.today);
      results := results.(csvFile := Some(csvFile));
      results := results.(transactionsSavedCsv := |transactions|);
      if sheetsUpdater != null {
        var update := sheetsUpdater.ProcessDailyUpdate(transactions, WorksheetName, readFails, clock.stamp);
        results := results.(transactionsAddedSheets := update.newTransactions);
        results := results.(duplicateTransactions := Some(update.duplicateTransactions));
      }
      results := results.(success := true);
      outcome := Returned(results);
    }

    /** One pass of the backfill loop: run the date, and add what it found
        to the running total when the run returns; an exception is caught
        and adds nothing. `done` are the dates already run. */
    method RunDay(d: CalendarDate, fetch: Fetch, clocks: Clocks, readFails: ReadFailures,
                  total: nat, ghost done: seq<CalendarDate>, ghost sheets: Option<Spreadsheet>)
      returns (newTotal: nat)
      requires total == SumFound(fetch, clocks, done)
      requires sheetsUpdater != null ==> Some(sheetsUpdater.worksheets) == SheetsAfterDays(fetch, clocks, sheets, done, readFails)
      modifies sheetsUpdater
      ensures newTotal == SumFound(fetch, clocks, done + [d])
      ensures sheetsUpdater != null ==>
        Some(sheetsUpdater.worksheets) == SheetsAfterDays(fetch, clocks, sheets, done + [d], readFails)
    {
      ghost var before := if sheetsUpdater == null then None else Some(sheetsUpdater.worksheets);
      var clock, fails := clocks(d), readFails(d);
      var result := RunDailyAutomation(Some(Format(d)), fetch, clock, fails);
      BackfillDayRun(fetch, clock, d, before, fails, result,
                     DailyRun(Some(Format(d)), fetch(RequestedDate(Some(Format(d)), clock.today)), clock, before, fails).1);
      AddDay(fetch, clocks, sheets, done, d, readFails);
      newTotal := total;
      if result.Returned? {
        newTotal := total + result.results.transactionsFound;
      }
    }

    /** The loop of `run_historical_backfill`: run every date from `from`
        to `to`, adding up what the days that returned found; a day that
        raises is logged and skipped. The step past 9999-12-31 raises after
        that date has run. */
    method RunDates(from: CalendarDate, to: CalendarDate, fetch: Fetch, clocks: Clocks, readFails: ReadFailures)
      returns (total: nat, visited: seq<CalendarDate>)
      modifies sheetsUpdater
      ensures visited == DateRange(from, to)
      ensures total == SumFound(fetch, clocks, visited)
      ensures sheetsUpdater != null ==>
        Some(sheetsUpdater.worksheets)
        == SheetsAfterDays(fetch, clocks, Some(old(sheetsUpdater.worksheets)), visited, readFails)
    {
      var current := from;
      ghost var sheets := if sheetsUpdater == null then None else Some(sheetsUpdater.worksheets);
      total := 0;
      visited := [];
      while AtOrBefore(current, to)
        invariant visited + DateRange(current, to) == DateRange(from, to)
        invariant total == SumFound(fetch, clocks, visited)
        invariant sheetsUpdater != null ==>
          Some(sheetsUpdater.worksheets) == SheetsAfterDays(fetch, clocks, sheets, visited, readFails)
        decreases |DateRange(current, to)|
      {
        total := RunDay(current, fetch, clocks, readFails, total, visited, sheets);
        DateRangeAdvance(visited, from, current, to);
        var next := NextDay(current);
        if next.None? {
          visited := visited + [current];
          return;
        }
        visited := visited + [current];
        current := next.value;
      }
    }

    /** `run_historical_backfill`: both dates are read with `strptime`, then
        every date of the range is run. */
    method RunHistoricalBackfill(start: string, end: string, fetch: Fetch, clocks: Clocks, readFails: ReadFailures)
      returns (outcome: BackfillOutcome)
      modifies sheetsUpdater
      ensures outcome == Backfill(start, end, fetch, clocks)
      ensures sheetsUpdater != null ==>
        Some(sheetsUpdater.worksheets)
        == SheetsAfterDays(fetch, clocks, Some(old(sheetsUpdater.worksheets)), outcome.visited, readFails)
    {
      var first := Strptime(start);
      var last := Strptime(end);
      if first.None? || last.None? {
        return Aborted("ValueError: time data does not match format '%Y-%m-%d'", 0, []);
      }
      var total, visited := RunDates(first.value, last.value, fetch, clocks, readFails);
      BackfillOfDates(start, end, fetch, clocks, first.value, last.value);
      if visited != [] && visited[|visited| - 1] == LastDate {
        outcome := Aborted("OverflowError: date value out of range", total, visited);
      } else {
        outcome := Completed(total, visited);
      }
    }
  }
}
