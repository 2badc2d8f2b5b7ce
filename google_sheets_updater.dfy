/** The Google Sheets side: the constructor's configuration check, the
    worksheet with its header row, reading back the ids already stored,
    keeping only the new transactions, appending them as rows, and the daily
    update that strings these together. The spreadsheet is modelled as a map
    from worksheet title to the worksheet's non-empty rows, top to bottom;
    OAuth, the network and cell formatting are outside the model. */
module GoogleSheets {
  import opened Common
  import opened TransactionScraper

  // ---------------------------------------------------------------------
  // Configuration
  // ---------------------------------------------------------------------

  /** What the constructor keeps once its check passes. */
  datatype Config = Config(credentialsPath: string, sheetId: string)

  /** Python's `a or b` on two optional strings. */
  function Or(a: Option<string>, b: Option<string>): Option<string> {
    if Truthy(a) then a else b
  }

  /** The constructor's check: each argument falls back to its environment
      variable, and a missing or empty result raises `ValueError`. */
  function ResolveConfig(credentialsArg: Option<string>, sheetArg: Option<string>,
                         credentialsEnv: Option<string>, sheetEnv: Option<string>)
    : (r: Result<Config>)
    ensures r.Ok? <==> (Truthy(credentialsArg) || Truthy(credentialsEnv))
                       && (Truthy(sheetArg) || Truthy(sheetEnv))
    ensures r.Ok? ==> r.value.credentialsPath != "" && r.value.sheetId != ""
    ensures r.Ok? && Truthy(credentialsArg) ==> r.value.credentialsPath == credentialsArg.value
    ensures r.Ok? && Truthy(sheetArg) ==> r.value.sheetId == sheetArg.value
  {
    var credentials, sheet := Or(credentialsArg, credentialsEnv), Or(sheetArg, sheetEnv);
    if !Truthy(credentials) || !Truthy(sheet) then
      Err("ValueError: Google credentials path and sheet ID are required")
    else
      Ok(Config(credentials.value, sheet.value))
  }

  // ---------------------------------------------------------------------
  // Rows and the id column
  // ---------------------------------------------------------------------

  type Row = seq<string>

  /** The header row of a new worksheet. */
  const Header: Row := ["Date", "Type", "Team", "Player", "Description", "Transaction ID", "Scraped At"]

  /** `col_values(6)` counts from 1, so the ids sit at index 5 of a row. */
  const IdColumn: nat := 5

  /** The cell of a row in a column; cells past the row's end are blank. */
  function CellAt(row: Row, i: nat): string {
    if i < |row| then row[i] else ""
  }

  /** The row `append_transactions` writes for one record: seven cells in
      the header's order. */
  function RowOf(r: Record): (row: Row)
    ensures |row| == |Header|
  {
    [r.date, r.kind, r.team, r.player, r.description, r.transactionId, r.scrapedAt]
  }

  /** The rows for a batch, one per record, in order. */
  function RowsOf(batch: seq<Record>): (rows: seq<Row>)
    ensures |rows| == |batch|
    ensures forall k :: 0 <= k < |batch| ==> rows[k] == RowOf(batch[k])
  {
    if batch == [] then [] else [RowOf(batch[0])] + RowsOf(batch[1..])
  }

  /** The ids of a batch, in order. */
  function IdList(batch: seq<Record>): (ids: seq<string>)
    ensures |ids| == |batch|
    ensures forall k :: 0 <= k < |batch| ==> ids[k] == batch[k].transactionId
  {
    if batch == [] then [] else [batch[0].transactionId] + IdList(batch[1..])
  }

  /** The non-blank cells of column `i`, top to bottom. */
  function NonBlankColumn(rows: seq<Row>, i: nat): (cells: seq<string>)
    ensures forall c :: c in cells ==> c != ""
    ensures forall c :: c in cells <==> exists k :: 0 <= k < |rows| && CellAt(rows[k], i) == c && c != ""
  {
    if rows == [] then []
    else
      var rest := NonBlankColumn(rows[1..], i);
      assert forall k :: 0 < k < |rows| ==> rows[k] == rows[1..][k - 1];
      var head := CellAt(rows[0], i);
      if head == "" then rest else [head] + rest
  }

  /** `[val for val in col_values(6)[1:] if val]`: the id column without the
      first row and without blank cells. */
  function StoredIds(rows: seq<Row>): seq<string> {
    if rows == [] then [] else NonBlankColumn(rows[1..], IdColumn)
  }

  lemma {:induction false} NonBlankColumnAppend(a: seq<Row>, b: seq<Row>, i: nat)
    ensures NonBlankColumn(a + b, i) == NonBlankColumn(a, i) + NonBlankColumn(b, i)
    decreases |a|
  {
    if a == [] {
      assert a + b == b;
    } else {
      assert (a + b)[1..] == a[1..] + b;
      NonBlankColumnAppend(a[1..], b, i);
    }
  }

  lemma {:induction false} NonBlankColumnOfRows(batch: seq<Record>)
    requires forall r :: r in batch ==> r.transactionId != ""
    ensures NonBlankColumn(RowsOf(batch), IdColumn) == IdList(batch)
    decreases |batch|
  {
    if batch != [] {
      NonBlankColumnOfRows(batch[1..]);
      assert RowsOf(batch)[1..] == RowsOf(batch[1..]);
    }
  }

  /** The round trip: the column the appended rows carry their ids in is the
      column the ids are read back from, so after appending a batch below a
      first row the stored ids are the old ones followed by the batch's. */
  lemma StoredIdsAfterAppend(rows: seq<Row>, batch: seq<Record>)
    requires |rows| >= 1
    requires forall r :: r in batch ==> r.transactionId != ""
    ensures StoredIds(rows + RowsOf(batch)) == StoredIds(rows) + IdList(batch)
  {
    assert (rows + RowsOf(batch))[1..] == rows[1..] + RowsOf(batch);
    NonBlankColumnAppend(rows[1..], RowsOf(batch), IdColumn);
    NonBlankColumnOfRows(batch);
  }

  /** A freshly created worksheet stores no id: its only row is the header,
      whose sixth cell names the id column. */
  lemma NewWorksheetStoresNoIds()
    ensures StoredIds([Header]) == []
    ensures CellAt(Header, IdColumn) == "Transaction ID"
  {
    assert [Header][1..] == [];
  }

  // ---------------------------------------------------------------------
  // Keeping the new transactions
  // ---------------------------------------------------------------------

  /** `df[~df['transaction_id'].isin(existing)]`: the rows whose id is not
      among `existing`, in order, each as often as it occurs in the batch. */
  function WithoutIds(batch: seq<Record>, existing: seq<string>): (r: seq<Record>)
    ensures IsSubsequence(r, batch)
    ensures forall x :: x in r <==> x in batch && x.transactionId !in existing
    ensures forall x :: multiset(r)[x] == if x.transactionId in existing then 0 else multiset(batch)[x]
  {
    if batch == [] then []
    else
      var rest := WithoutIds(batch[1..], existing);
      assert forall x :: x in batch <==> x == batch[0] || x in batch[1..];
      assert batch == [batch[0]] + batch[1..];
      assert multiset(batch) == multiset{batch[0]} + multiset(batch[1..]);
      if batch[0].transactionId in existing then rest else [batch[0]] + rest
  }

  /** `filter_new_transactions` once the ids are read: with no stored id the
      batch is returned as it is, duplicates and all. */
  function KeepNew(batch: seq<Record>, existing: seq<string>): seq<Record> {
    if existing == [] then batch else WithoutIds(batch, existing)
  }

  /** The shortcut for no stored ids changes nothing: filtering by no ids
      keeps every row. */
  lemma {:induction false} WithoutNoIds(batch: seq<Record>)
    ensures WithoutIds(batch, []) == batch
    decreases |batch|
  {
    if batch != [] {
      WithoutNoIds(batch[1..]);
    }
  }

  /** What the filter keeps, whichever branch it takes: an order-preserving
      selection of exactly the rows whose id is not stored. */
  lemma KeepNewSelects(batch: seq<Record>, existing: seq<string>)
    ensures IsSubsequence(KeepNew(batch, existing), batch)
    ensures forall x :: x in KeepNew(batch, existing) <==> x in batch && x.transactionId !in existing
    ensures forall x :: multiset(KeepNew(batch, existing))[x]
                        == if x.transactionId in existing then 0 else multiset(batch)[x]
  {
    if existing == [] {
      WithoutNoIds(batch);
    }
  }

  lemma {:induction false} SubsequenceLength<T>(a: seq<T>, b: seq<T>)
    requires IsSubsequence(a, b)
    ensures |a| <= |b|
    decreases |b|
  {
    if a != [] {
      if a[0] == b[0] && IsSubsequence(a[1..], b[1..]) {
        SubsequenceLength(a[1..], b[1..]);
      } else {
        SubsequenceLength(a, b[1..]);
      }
    }
  }

  // ---------------------------------------------------------------------
  // The daily update as a function of the spreadsheet
  // ---------------------------------------------------------------------

  /** The dictionary `process_daily_update` returns. */
  datatype UpdateResult = UpdateResult(
    success: bool, totalTransactions: nat, newTransactions: nat,
    duplicateTransactions: int, worksheetName: string, updatedAt: string)

  type Spreadsheet = map<string, seq<Row>>

  /** `setup_worksheet` on the spreadsheet: an existing worksheet stays as
      it is, a missing one is created holding the header. */
  function WithWorksheet(ws: Spreadsheet, name: string): (out: Spreadsheet)
    ensures name in out
    ensures name in ws ==> out == ws
    ensures name !in ws ==> out[name] == [Header]
  {
    if name in ws then ws else ws[name := [Header]]
  }

  /** The ids `get_existing_transaction_ids` returns for a worksheet; a
      failed read gives none. */
  function ReadIds(rows: seq<Row>, readFails: bool): seq<string> {
    if readFails then [] else StoredIds(rows)
  }

  /** Rows appended below a worksheet's rows; an empty batch writes
      nothing. */
  function Appended(rows: seq<Row>, batch: seq<Record>): seq<Row> {
    if batch == [] then rows else rows + RowsOf(batch)
  }

  /** `process_daily_update`: the spreadsheet afterwards and the result. */
  function DailyUpdate(ws: Spreadsheet, name: string, batch: seq<Record>, readFails: bool, now: string)
    : (Spreadsheet, UpdateResult)
  {
    var ws1 := WithWorksheet(ws, name);
    var unseen := KeepNew(batch, ReadIds(ws1[name], readFails));
    (ws1[name := Appended(ws1[name], unseen)],
     UpdateResult(true, |batch|, |unseen|, |batch| - |unseen|, name, now))
  }

  /** The counts add up: new plus duplicates is the batch size, and neither
      is negative. */
  lemma DailyUpdateCounts(ws: Spreadsheet, name: string, batch: seq<Record>, readFails: bool, now: string)
    ensures var res := DailyUpdate(ws, name, batch, readFails, now).1;
      && res.newTransactions + res.duplicateTransactions == res.totalTransactions == |batch|
      && res.duplicateTransactions >= 0
  {
    var ws1 := WithWorksheet(ws, name);
    var existing := ReadIds(ws1[name], readFails);
    KeepNewSelects(batch, existing);
    SubsequenceLength(KeepNew(batch, existing), batch);
  }

  /** The daily update changes only its own worksheet, and there it only
      adds rows below the existing ones. */
  lemma DailyUpdateOnlyAppends(ws: Spreadsheet, name: string, batch: seq<Record>, readFails: bool, now: string)
    requires name in ws
    ensures var out := DailyUpdate(ws, name, batch, readFails, now).0;
      && out.Keys == ws.Keys
      && (forall other :: other in ws && other != name ==> out[other] == ws[other])
      && |out[name]| >= |ws[name]| && out[name][..|ws[name]|] == ws[name]
  {
  }

  /** After one daily update, every id of the batch is stored in the
      worksheet, provided the worksheet starts with a first row. */
  lemma DailyUpdateStoresBatch(ws: Spreadsheet, name: string, batch: seq<Record>, readFails: bool, now: string)
    requires name !in ws || |ws[name]| >= 1
    requires forall r :: r in batch ==> r.transactionId != ""
    ensures var ws2 := DailyUpdate(ws, name, batch, readFails, now).0;
      name in ws2 && forall x :: x in batch ==> x.transactionId in StoredIds(ws2[name])
  {
    var ws1 := WithWorksheet(ws, name);
    var rows := ws1[name];
    var existing := ReadIds(rows, readFails);
    var unseen := KeepNew(batch, existing);
    KeepNewSelects(batch, existing);
    var after := Appended(rows, unseen);
    assert DailyUpdate(ws, name, batch, readFails, now).0[name] == after;
    if unseen != [] {
      StoredIdsAfterAppend(rows, unseen);
    }
    forall x | x in batch ensures x.transactionId in StoredIds(after) {
      if x in unseen {
        var k :| 0 <= k < |unseen| && unseen[k] == x;
        assert IdList(unseen)[k] == x.transactionId;
      }
    }
  }

  /** A batch whose ids are all stored adds nothing and changes nothing. */
  lemma DailyUpdateOfStoredBatch(ws: Spreadsheet, name: string, batch: seq<Record>, now: string)
    requires name in ws
    requires forall x :: x in batch ==> x.transactionId in StoredIds(ws[name])
    ensures var (out, res) := DailyUpdate(ws, name, batch, false, now);
      out == ws && res.newTransactions == 0 && res.duplicateTransactions == |batch|
  {
    var existing := StoredIds(ws[name]);
    var unseen := KeepNew(batch, existing);
    KeepNewSelects(batch, existing);
    assert forall x :: multiset(unseen)[x] == 0;
    assert multiset(unseen) == multiset{};
    assert |unseen| == |multiset(unseen)| == 0;
    assert ws[name := ws[name]] == ws;
  }

  /** Running the daily update a second time on the same batch adds nothing
      and leaves the spreadsheet as it was, provided the ids read back and
      the worksheet starts with a first row (its header). */
  lemma DailyUpdateIdempotent(ws: Spreadsheet, name: string, batch: seq<Record>,
                              firstReadFails: bool, now: string, later: string)
    requires name !in ws || |ws[name]| >= 1
    requires forall r :: r in batch ==> r.transactionId != ""
    ensures var ws2 := DailyUpdate(ws, name, batch, firstReadFails, now).0;
      var (ws3, res) := DailyUpdate(ws2, name, batch, false, later);
      ws3 == ws2 && res.newTransactions == 0 && res.duplicateTransactions == |batch|
  {
    DailyUpdateStoresBatch(ws, name, batch, firstReadFails, now);
    var ws2 := DailyUpdate(ws, name, batch, firstReadFails, now).0;
    DailyUpdateOfStoredBatch(ws2, name, batch, later);
  }

  /** Without the first row the guarantee fails: on an existing worksheet
      with no rows at all, the first appended row is taken for the header,
      and a second run appends that record again. */
  lemma HeaderlessWorksheetReappends(name: string, r: Record, now: string)
    requires r.transactionId != ""
    ensures var ws := map[name := []];
      var (ws2, first) := DailyUpdate(ws, name, [r], false, now);
      var (_, second) := DailyUpdate(ws2, name, [r], false, now);
      first.newTransactions == 1 && second.newTransactions == 1
  {
    var ws: Spreadsheet := map[name := []];
    assert StoredIds([]) == [];
    var ws2 := DailyUpdate(ws, name, [r], false, now).0;
    assert ws2[name] == RowsOf([r]);
    assert StoredIds(RowsOf([r])) == [] by {
      assert RowsOf([r])[1..] == [];
    }
    assert KeepNew([r], []) == [r];
  }

  // ---------------------------------------------------------------------
  // The updater object
  // ---------------------------------------------------------------------

  class GoogleSheetsUpdater {
    const credentialsPath: string
    const sheetId: string
    /** The spreadsheet opened by `connect`. */
    var worksheets: Spreadsheet
    /** `self.worksheet`: the title of the worksheet in use, if one is set
        up. */
    var worksheet: Option<string>

    ghost predicate Valid()
      reads this
    {
      worksheet.Some? ==> worksheet.value in worksheets
    }

    /** A configuration that passed `ResolveConfig`, and the spreadsheet the
        connection opened. */
    constructor(config: Config, spreadsheet: Spreadsheet)
      ensures credentialsPath == config.credentialsPath && sheetId == config.sheetId
      ensures worksheets == spreadsheet && worksheet == None
      ensures Valid()
    {
      credentialsPath := config.credentialsPath;
      sheetId := config.sheetId;
      worksheets := spreadsheet;
      worksheet := None;
    }

    /** `setup_worksheet`: use the named worksheet, creating it with the
        header row when it does not exist. */
    method SetupWorksheet(name: string)
      modifies this
      ensures worksheet == Some(name)
      ensures worksheets == WithWorksheet(old(worksheets), name)
      ensures Valid()
    {
      if name !in worksheets {
        worksheets := worksheets[name := [Header]];
      }
      worksheet := Some(name);
    }

    /** `get_existing_transaction_ids`: no worksheet set up, or a failed
        read, gives no ids. */
    function ExistingTransactionIds(readFails: bool): (ids: seq<string>)
      reads this
      ensures forall id :: id in ids ==> id != ""
      ensures readFails || worksheet.None? ==> ids == []
      ensures !readFails && worksheet.Some? && worksheet.value in worksheets
              ==> ids == StoredIds(worksheets[worksheet.value])
    {
      if readFails || worksheet.None? || worksheet.value !in worksheets then []
      else StoredIds(worksheets[worksheet.value])
    }

    /** `filter_new_transactions`. */
    function FilterNewTransactions(batch: seq<Record>, readFails: bool): (r: seq<Record>)
      reads this
      ensures IsSubsequence(r, batch)
      ensures forall x :: x in r <==> x in batch && x.transactionId !in ExistingTransactionIds(readFails)
      ensures forall x :: multiset(r)[x]
                          == if x.transactionId in ExistingTransactionIds(readFails) then 0 else multiset(batch)[x]
    {
      KeepNewSelects(batch, ExistingTransactionIds(readFails));
      KeepNew(batch, ExistingTransactionIds(readFails))
    }

    /** `append_transactions`: an empty batch adds nothing; otherwise one row
        per record goes below the worksheet's rows, and the count is
        returned. With no worksheet set up the append raises. */
    method AppendTransactions(batch: seq<Record>) returns (r: Result<nat>)
      requires Valid()
      modifies this
      ensures Valid() && worksheet == old(worksheet)
      ensures batch == [] ==> r == Ok(0) && worksheets == old(worksheets)
      ensures batch != [] && worksheet.None? ==> r.Err? && worksheets == old(worksheets)
      ensures batch != [] && worksheet.Some? ==>
        && r == Ok(|batch|)
        && worksheets == old(worksheets)[worksheet.value := old(worksheets)[worksheet.value] + RowsOf(batch)]
    {
      if batch == [] {
        return Ok(0);
      }
      var data: seq<Row> := [];
      for i := 0 to |batch|
        invariant |data| == i
        invariant forall k :: 0 <= k < i ==> data[k] == RowOf(batch[k])
      {
        data := data + [RowOf(batch[i])];
      }
      assert data == RowsOf(batch);
      if worksheet.None? {
        return Err("AttributeError: 'NoneType' object has no attribute 'append_rows'");
      }
      worksheets := worksheets[worksheet.value := worksheets[worksheet.value] + data];
      r := Ok(|data|);
    }

    /** `process_daily_update`: set up the worksheet, keep the new
        transactions, append them, and report the counts. */
    method ProcessDailyUpdate(batch: seq<Record>, name: string, readFails: bool, now: string)
      returns (result: UpdateResult)
      modifies this
      ensures worksheet == Some(name) && Valid()
      ensures (worksheets, result) == DailyUpdate(old(worksheets), name, batch, readFails, now)
    {
      SetupWorksheet(name);
      assert ExistingTransactionIds(readFails) == ReadIds(worksheets[name], readFails);
      var unseen := FilterNewTransactions(batch, readFails);
      ghost var before := worksheets;
      var added := AppendTransactions(unseen);
      assert worksheets == before[name := Appended(before[name], unseen)];
      result := UpdateResult(true, |batch|, added.value, |batch| - added.value, name, now);
    }
  }
}
