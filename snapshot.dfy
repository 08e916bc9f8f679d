/**
 * The snapshot cache in front of the accounting database: the freshness
 * check over the stored high-water mark (`check_cache_upto_date`), the
 * read-or-fetch of one named table (`get_dataframe_sage_odbc_query`) and the
 * loading of the three tables into the interface object (`Sage.load_data`).
 *
 * The JSON files are an abstract store: one optional check file and a map
 * from file name to snapshot. The database is a `Source` value handed in by
 * the caller: its current maximum transaction number and the rows each of
 * the three queries returns.
 */
module Snapshot {

  import opened Base
  import opened Strings
  import opened Ledger

  /** A row of the invoice-header query (INVOICE). */
  datatype Invoice = Invoice(
    invoiceNumber: int,
    delName: string,
    delAddress: seq<string>,
    carrNet: int,
    carrTax: int,
    carrGross: int,
    settlementDueDays: int,
    orderNumber: string,
    custOrderNumber: string)

  /** A row of the invoice-item query (INVOICE_ITEM). */
  datatype InvoiceLine = InvoiceLine(
    invoiceNumber: int,
    itemNumber: int,
    description: string,
    stockCode: string,
    quantity: int,
    unitPrice: int,
    taxCode: int,
    netAmount: int,
    taxAmount: int,
    grossAmount: int)

  /** The three tables the interface loads. Only the journal has identifier columns. */
  datatype Table =
    | Journal(entries: seq<Entry>)
    | Invoices(invoices: seq<Invoice>)
    | InvoiceLines(lines: seq<InvoiceLine>)

  /** A snapshot file: JSON a reader can parse, or a file it cannot. */
  datatype Snapshot = Json(table: Table) | Corrupt

  /** The check file that holds the high-water mark. */
  datatype CheckFile =
    | MarkFile(maxTransactionStored: int) // JSON with the key
    | WithoutMark                         // valid JSON without the key
    | Unparseable                         // not JSON at all

  const MarkKey: string := "max_transaction_stored"

  /** What the database currently holds. */
  datatype Source = Source(
    maxTransaction: int,
    journal: seq<Entry>,
    invoices: seq<Invoice>,
    invoiceLines: seq<InvoiceLine>)

  /** The files in the working directory that the cache uses. */
  class Store {
    var checkFile: Option<CheckFile>
    var snapshots: map<string, Snapshot>

    constructor (checkFile: Option<CheckFile>, snapshots: map<string, Snapshot>)
      ensures this.checkFile == checkFile && this.snapshots == snapshots
    {
      this.checkFile := checkFile;
      this.snapshots := snapshots;
    }
  }

  // ---------------------------------------------------------------------
  // Freshness check
  // ---------------------------------------------------------------------

  /**
   * The verdict of the freshness check: true means the cache must be
   * refreshed. A missing or unparseable check file reads as mark 0; a
   * readable file without the key raises KeyError.
   */
  function CacheNeedsUpdate(f: Option<CheckFile>, maxInSage: int): (r: Result<bool>)
    ensures r.Failure? <==> f == Some(WithoutMark)
    ensures r.Failure? ==> r.error == KeyError(MarkKey)
    ensures f.None? || f == Some(Unparseable) ==> r == Success(true)
    ensures f.Some? && f.value.MarkFile? ==>
      (r == Success(false) <==> f.value.maxTransactionStored == maxInSage && maxInSage != 0)
  {
    match f
    case None => Success(true)
    case Some(Unparseable) => Success(true)
    case Some(WithoutMark) => Failure(KeyError(MarkKey))
    case Some(MarkFile(stored)) => Success(stored == 0 || stored != maxInSage)
  }

  /**
   * Reads the stored mark, writes the database's current maximum back and
   * reports whether the cache needs refreshing.
   */
  method CheckCacheUpToDate(store: Store, maxInSage: int) returns (updateCache: Result<bool>)
    modifies store`checkFile
    ensures updateCache == CacheNeedsUpdate(old(store.checkFile), maxInSage)
    ensures store.checkFile == if updateCache.Success? then Some(MarkFile(maxInSage)) else old(store.checkFile)
  {
    var stored: int;
    match store.checkFile {
      case None =>
        stored := 0;
      case Some(Unparseable) =>
        stored := 0;
      case Some(WithoutMark) =>
        return Failure(KeyError(MarkKey));
      case Some(MarkFile(m)) =>
        stored := m;
    }
    store.checkFile := Some(MarkFile(maxInSage));
    updateCache := Success(stored == 0 || stored != maxInSage);
  }

  /** Whatever a successful check read, the next check against an unchanged nonzero maximum finds the cache current. */
  lemma CheckAfterWriteBack(maxInSage: int)
    requires maxInSage != 0
    ensures CacheNeedsUpdate(Some(MarkFile(maxInSage)), maxInSage) == Success(false)
  {
  }

  /** Two checks in a row: the second one sees the mark the first one wrote. */
  method CheckTwice(store: Store, maxInSage: int) returns (first: Result<bool>, second: Result<bool>)
    modifies store`checkFile
    ensures first.Success? && maxInSage != 0 ==> second == Success(false)
    ensures first.Success? && maxInSage == 0 ==> second == Success(true)
    ensures first.Failure? ==> second == first && store.checkFile == old(store.checkFile)
  {
    first := CheckCacheUpToDate(store, maxInSage);
    second := CheckCacheUpToDate(store, maxInSage);
  }

  // ---------------------------------------------------------------------
  // Reading and restoring a snapshot
  // ---------------------------------------------------------------------

  /** A cell a JSON reader can read as a number: a number already, or a string of digits. */
  predicate Numeric(c: Cell)
  {
    c.Num? || IsDigits(c.s)
  }

  /** One cell of a column that a JSON reader has converted to numbers. */
  function Narrow(c: Cell): (r: Cell)
    ensures r.Num? <==> Numeric(c)
  {
    match c
    case Str(s) => if IsDigits(s) then Num(DigitsValue(s)) else c
    case Num(_) => c
  }

  /** `astype('str')` on one cell. */
  function AsStr(c: Cell): (r: Cell)
    ensures r.Str?
    ensures c.Str? ==> r == c
  {
    match c
    case Str(_) => c
    case Num(n) => Str(Decimal(n))
  }

  /** The cell of a row in one of the two identifier columns. */
  function Ident(e: Entry, column: string): Cell
  {
    if column == "ACCOUNT_REF" then e.accountRef else e.invRef
  }

  /**
   * A JSON reader infers the type of a whole column: it converts an
   * identifier column to numbers only when every cell of it reads as one,
   * and otherwise leaves the column as text.
   */
  predicate ColumnConverts(es: seq<Entry>, column: string)
  {
    forall k :: 0 <= k < |es| ==> Numeric(Ident(es[k], column))
  }

  function NarrowIf(converts: bool, c: Cell): Cell
  {
    if converts then Narrow(c) else c
  }

  /** The table a JSON reader gives back for a table written with `to_json`. */
  function Narrowed(t: Table): (r: Table)
    ensures r.Journal? <==> t.Journal?
    ensures !t.Journal? ==> r == t
    ensures t.Journal? ==> |r.entries| == |t.entries|
    ensures t.Journal? ==> forall k :: 0 <= k < |t.entries| ==>
      r.entries[k].(accountRef := t.entries[k].accountRef, invRef := t.entries[k].invRef) == t.entries[k]
    ensures t.Journal? ==> forall column :: IsIdentifierColumn(column) ==>
      if ColumnConverts(t.entries, column) then forall k :: 0 <= k < |t.entries| ==> Ident(r.entries[k], column).Num?
      else forall k :: 0 <= k < |t.entries| ==> Ident(r.entries[k], column) == Ident(t.entries[k], column)
  {
    match t
    case Journal(es) =>
      var (ca, ci) := (ColumnConverts(es, "ACCOUNT_REF"), ColumnConverts(es, "INV_REF"));
      Journal(seq(|es|, k requires 0 <= k < |es| =>
        es[k].(accountRef := NarrowIf(ca, es[k].accountRef), invRef := NarrowIf(ci, es[k].invRef))))
    case _ => t
  }

  /** The identifier columns that are converted back to strings after reading. */
  const IdentifierColumns: seq<string> := ["ACCOUNT_REF", "INV_REF"]

  predicate IsIdentifierColumn(column: string)
  {
    column == "ACCOUNT_REF" || column == "INV_REF"
  }

  /** `df[column] = df[column].astype('str')`; a table without the column raises KeyError. */
  function CoerceColumn(t: Table, column: string): (r: Result<Table>)
    requires IsIdentifierColumn(column)
    ensures r.Failure? <==> !t.Journal?
    ensures r.Failure? ==> r.error == KeyError(column)
    ensures r.Success? ==> r.value.Journal? && |r.value.entries| == |t.entries| && forall k :: 0 <= k < |t.entries| ==>
      var (e, e') := (t.entries[k], r.value.entries[k]);
      if column == "ACCOUNT_REF" then e' == e.(accountRef := AsStr(e.accountRef))
      else e' == e.(invRef := AsStr(e.invRef))
  {
    match t
    case Journal(es) =>
      Success(Journal(seq(|es|, k requires 0 <= k < |es| =>
        if column == "ACCOUNT_REF" then es[k].(accountRef := AsStr(es[k].accountRef))
        else es[k].(invRef := AsStr(es[k].invRef)))))
    case _ => Failure(KeyError(column))
  }

  /** The coercion loop over a list of identifier columns, stopping at the first failure. */
  function CoerceColumns(t: Table, columns: seq<string>): Result<Table>
    requires forall k :: 0 <= k < |columns| ==> IsIdentifierColumn(columns[k])
    decreases |columns|
  {
    if columns == [] then Success(t)
    else
      match CoerceColumn(t, columns[0])
      case Failure(e) => Failure(e)
      case Success(t') => CoerceColumns(t', columns[1..])
  }

  /** Every identifier cell of a journal holds text. */
  predicate IdentifiersAreText(t: Table)
  {
    t.Journal? ==> forall k :: 0 <= k < |t.entries| ==> t.entries[k].accountRef.Str? && t.entries[k].invRef.Str?
  }

  /** Coercing both identifier columns leaves text everywhere and touches nothing else. */
  lemma CoercionRestoresText(t: Table)
    ensures var r := CoerceColumns(t, IdentifierColumns);
      (r.Failure? <==> !t.Journal?)
      && (r.Failure? ==> r.error == KeyError("ACCOUNT_REF"))
      && (r.Success? ==>
            IdentifiersAreText(r.value) && |r.value.entries| == |t.entries|
            && forall k :: 0 <= k < |t.entries| ==>
                 r.value.entries[k] == t.entries[k].(accountRef := AsStr(t.entries[k].accountRef),
                                                      invRef := AsStr(t.entries[k].invRef)))
  {
    var c1 := CoerceColumn(t, "ACCOUNT_REF");
    assert IdentifierColumns[1..] == ["INV_REF"];
    if c1.Success? {
      var c2 := CoerceColumn(c1.value, "INV_REF");
      assert CoerceColumns(c1.value, ["INV_REF"]) == CoerceColumns(c2.value, []) == c2;
    }
  }

  /** Reading a snapshot file: a missing file or one that is not JSON fails. */
  function ReadSnapshot(snapshots: map<string, Snapshot>, file: string): (r: Result<Table>)
    ensures r.Success? <==> file in snapshots && snapshots[file].Json?
    ensures r.Success? ==> r.value == Narrowed(snapshots[file].table)
    ensures r.Failure? ==> r.error.FileNotFound? || r.error.ValueError?
  {
    if file !in snapshots then Failure(FileNotFound(file))
    else match snapshots[file]
      case Corrupt => Failure(ValueError(file))
      case Json(t) => Success(Narrowed(t))
  }

  function JsonFileName(name: string): string
  {
    name + ".json"
  }

  /** The outcome of one query: the table (or the exception) and the snapshot files afterwards. */
  datatype QueryResult = QueryResult(df: Result<Table>, snapshots: map<string, Snapshot>)

  /**
   * The specification of one read-or-fetch. With `cacheUpToDate` set and a
   * readable snapshot, the snapshot is used and the files are left alone;
   * otherwise the source's table is returned and written to the snapshot.
   */
  function Query(snapshots: map<string, Snapshot>, fetched: Table, name: string, cacheUpToDate: bool): (q: QueryResult)
    ensures var file := JsonFileName(name);
      if cacheUpToDate && ReadSnapshot(snapshots, file).Success? then
        q.snapshots == snapshots
        && (q.df.Success? <==> snapshots[file].table.Journal?)
        && (q.df.Failure? ==> q.df.error == KeyError("ACCOUNT_REF"))
        && (q.df.Success? ==> q.df.value.Journal? && IdentifiersAreText(q.df.value)
                              && |q.df.value.entries| == |snapshots[file].table.entries|)
      else
        q.df == Success(fetched)
        && file in q.snapshots && q.snapshots[file] == Json(fetched)
        && q.snapshots.Keys == snapshots.Keys + {file}
        && forall other :: other != file && other in snapshots ==> q.snapshots[other] == snapshots[other]
  {
    var file := JsonFileName(name);
    var read := ReadSnapshot(snapshots, file);
    if cacheUpToDate && read.Success? then
      CoercionRestoresText(read.value);
      QueryResult(CoerceColumns(read.value, IdentifierColumns), snapshots)
    else
      QueryResult(Success(fetched), snapshots[file := Json(fetched)])
  }

  /** Reads the named snapshot when told the cache is current and it is readable; otherwise fetches and stores. */
  method GetDataframeSageOdbcQuery(store: Store, fetched: Table, name: string, cacheUpToDate: bool)
    returns (df: Result<Table>)
    modifies store`snapshots
    ensures QueryResult(df, store.snapshots) == Query(old(store.snapshots), fetched, name, cacheUpToDate)
  {
    var jsonFileName := JsonFileName(name);
    var upToDate := cacheUpToDate;
    if upToDate {
      var read := ReadSnapshot(store.snapshots, jsonFileName);
      if read.Failure? {
        upToDate := false;
      } else {
        var t := read.value;
        for k := 0 to |IdentifierColumns|
          invariant CoerceColumns(read.value, IdentifierColumns) == CoerceColumns(t, IdentifierColumns[k..])
        {
          var coerced := CoerceColumn(t, IdentifierColumns[k]);
          if coerced.Failure? {
            return coerced;
          }
          t := coerced.value;
        }
        df := Success(t);
      }
    }
    if !upToDate {
      df := Success(fetched);
      store.snapshots := store.snapshots[jsonFileName := Json(fetched)];
    }
  }

  // ---------------------------------------------------------------------
  // Round trip of identifiers through a snapshot
  // ---------------------------------------------------------------------

  /** A text cell of a converted column that comes back exactly as it was written. */
  predicate SurvivesSnapshot(c: Cell)
  {
    c.Str? && (!IsDigits(c.s) || Canonical(c.s))
  }

  /**
   * In a column the reader converted, a text identifier survives the
   * narrowing and the restoration exactly when it is not a digit string
   * with a leading zero.
   */
  lemma RestoreCell(c: Cell)
    requires c.Str?
    ensures AsStr(Narrow(c)) == c <==> SurvivesSnapshot(c)
  {
    if IsDigits(c.s) {
      var v := DigitsValue(c.s);
      assert AsStr(Narrow(c)) == Str(Natural(v));
      if Canonical(c.s) {
        NaturalOfValue(c.s);
      }
    }
  }

  /** An identifier column comes back unchanged: the reader left it as text, or none of its cells loses a leading zero. */
  predicate ColumnSurvivesSnapshot(es: seq<Entry>, column: string)
  {
    ColumnConverts(es, column) ==> forall k :: 0 <= k < |es| ==> SurvivesSnapshot(Ident(es[k], column))
  }

  predicate JournalSurvivesSnapshot(es: seq<Entry>)
  {
    ColumnSurvivesSnapshot(es, "ACCOUNT_REF") && ColumnSurvivesSnapshot(es, "INV_REF")
  }

  /**
   * Writing a journal to its snapshot and reading it back on the cache path
   * returns the journal unchanged exactly when both identifier columns survive.
   */
  lemma SnapshotRoundTrip(snapshots: map<string, Snapshot>, es: seq<Entry>, other: Table)
    requires forall k :: 0 <= k < |es| ==> es[k].accountRef.Str? && es[k].invRef.Str?
    ensures var written := Query(snapshots, Journal(es), "SageODBC", false).snapshots;
      Query(written, other, "SageODBC", true).df == Success(Journal(es)) <==> JournalSurvivesSnapshot(es)
  {
    var written := Query(snapshots, Journal(es), "SageODBC", false).snapshots;
    var file := JsonFileName("SageODBC");
    assert ReadSnapshot(written, file) == Success(Narrowed(Journal(es)));
    var n := Narrowed(Journal(es));
    CoercionRestoresText(n);
    var r := CoerceColumns(n, IdentifierColumns);
    assert Query(written, other, "SageODBC", true).df == r;
    var (ca, ci) := (ColumnConverts(es, "ACCOUNT_REF"), ColumnConverts(es, "INV_REF"));
    forall k | 0 <= k < |es|
      ensures r.value.entries[k] == es[k] <==>
        (ca ==> SurvivesSnapshot(es[k].accountRef)) && (ci ==> SurvivesSnapshot(es[k].invRef))
    {
      assert n.entries[k] == es[k].(accountRef := NarrowIf(ca, es[k].accountRef), invRef := NarrowIf(ci, es[k].invRef));
      RestoreCell(es[k].accountRef);
      RestoreCell(es[k].invRef);
    }
    if JournalSurvivesSnapshot(es) {
      assert r.value.entries == es;
    } else if !ColumnSurvivesSnapshot(es, "ACCOUNT_REF") {
      var k :| 0 <= k < |es| && !SurvivesSnapshot(Ident(es[k], "ACCOUNT_REF"));
      assert r.value.entries[k] != es[k];
    } else {
      var k :| 0 <= k < |es| && !SurvivesSnapshot(Ident(es[k], "INV_REF"));
      assert r.value.entries[k] != es[k];
    }
  }

  /** The cell "00123" of a converted column is read as 123 and restored as "123". */
  lemma ZerosDropped()
    ensures AsStr(Narrow(Str("00123"))) == Str("123")
  {
    assert IsDigits("00123");
    assert "00123"[..4] == "0012" && "0012"[..3] == "001" && "001"[..2] == "00" && "00"[..1] == "0" && "0"[..0] == "";
    assert DigitsValue("00123") == 123;
    assert Natural(1) == "1" && Natural(12) == "12" && Natural(123) == "123";
  }

  /** A journal whose every INV_REF is a digit string loses the leading zeros of "00123" on the cache path. */
  lemma LeadingZerosLost(snapshots: map<string, Snapshot>, e: Entry, other: Table)
    requires e.accountRef == Str("1100") && e.invRef == Str("00123")
    ensures var written := Query(snapshots, Journal([e]), "SageODBC", false).snapshots;
      Query(written, other, "SageODBC", true).df == Success(Journal([e.(invRef := Str("123"))]))
  {
    var written := Query(snapshots, Journal([e]), "SageODBC", false).snapshots;
    assert ReadSnapshot(written, JsonFileName("SageODBC")) == Success(Narrowed(Journal([e])));
    assert IsDigits("1100") && IsDigits("00123");
    assert Ident([e][0], "ACCOUNT_REF") == e.accountRef && Ident([e][0], "INV_REF") == e.invRef;
    assert ColumnConverts([e], "ACCOUNT_REF") && ColumnConverts([e], "INV_REF");
    var n := Narrowed(Journal([e]));
    assert n.entries[0] == e.(accountRef := Narrow(e.accountRef), invRef := Narrow(e.invRef));
    assert Canonical("1100");
    RestoreCell(e.accountRef);
    ZerosDropped();
    CoercionRestoresText(n);
    var r := CoerceColumns(n, IdentifierColumns);
    assert r.value.entries[0] == e.(invRef := Str("123"));
    assert r.value.entries == [e.(invRef := Str("123"))];
  }

  /** The same "00123" beside a reference that is not a number keeps its leading zeros: the reader leaves the column as text. */
  lemma TextColumnKeepsLeadingZeros(snapshots: map<string, Snapshot>, e1: Entry, e2: Entry, other: Table)
    requires e1.accountRef == Str("1100") && e1.invRef == Str("00123")
    requires e2.accountRef == Str("1100") && e2.invRef == Str("BACS")
    ensures var written := Query(snapshots, Journal([e1, e2]), "SageODBC", false).snapshots;
      Query(written, other, "SageODBC", true).df == Success(Journal([e1, e2]))
  {
    assert Canonical("1100");
    assert "INV_REF"[0] != "ACCOUNT_REF"[0];
    assert !IsDigit("BACS"[0]);
    assert Ident([e1, e2][1], "INV_REF") == Str("BACS");
    assert !ColumnConverts([e1, e2], "INV_REF");
    SnapshotRoundTrip(snapshots, [e1, e2], other);
  }

  // ---------------------------------------------------------------------
  // Loading the three tables
  // ---------------------------------------------------------------------

  /** What `load_data` leaves behind: its outcome, the tables it assigned (in order) and the snapshot files. */
  datatype Loaded = Loaded(
    outcome: Result<()>,
    sqldata: Option<Table>,
    invoices: Option<Table>,
    invoiceLines: Option<Table>,
    snapshots: map<string, Snapshot>)

  /**
   * The three queries in the order `load_data` issues them, each told the
   * same `cacheFlag` and each choosing cache or source on its own. An
   * exception stops the sequence; tables assigned before it stay assigned.
   */
  function Load(snapshots: map<string, Snapshot>, source: Source, cacheFlag: bool): (l: Loaded)
    ensures l.outcome.Success? <==> l.sqldata.Some? && l.invoices.Some? && l.invoiceLines.Some?
    ensures l.invoices.Some? ==> l.sqldata.Some?
    ensures l.invoiceLines.Some? ==> l.invoices.Some?
    ensures !cacheFlag ==> l == Loaded(Success(()), Some(Journal(source.journal)), Some(Invoices(source.invoices)),
                                      Some(InvoiceLines(source.invoiceLines)),
                                      snapshots[JsonFileName("SageODBC") := Json(Journal(source.journal))]
                                               [JsonFileName("SageInvoices") := Json(Invoices(source.invoices))]
                                               [JsonFileName("SageInvoiceLines") := Json(InvoiceLines(source.invoiceLines))])
  {
    var q1 := Query(snapshots, Journal(source.journal), "SageODBC", cacheFlag);
    if q1.df.Failure? then Loaded(Failure(q1.df.error), None, None, None, q1.snapshots)
    else
      var q2 := Query(q1.snapshots, Invoices(source.invoices), "SageInvoices", cacheFlag);
      if q2.df.Failure? then Loaded(Failure(q2.df.error), Some(q1.df.value), None, None, q2.snapshots)
      else
        var q3 := Query(q2.snapshots, InvoiceLines(source.invoiceLines), "SageInvoiceLines", cacheFlag);
        if q3.df.Failure? then Loaded(Failure(q3.df.error), Some(q1.df.value), Some(q2.df.value), None, q3.snapshots)
        else Loaded(Success(()), Some(q1.df.value), Some(q2.df.value), Some(q3.df.value), q3.snapshots)
  }

  /** The flag `load_data` passes to the queries: false when forced, else the freshness verdict (true = stale). */
  function CacheFlag(updateCache: bool, checkFile: Option<CheckFile>, maxInSage: int): (r: Result<bool>)
    ensures r.Failure? <==> !updateCache && checkFile == Some(WithoutMark)
    ensures r == Success(true) <==>
      !updateCache && (checkFile.None? || checkFile == Some(Unparseable)
                       || (checkFile.Some? && checkFile.value.MarkFile?
                           && (checkFile.value.maxTransactionStored == 0 || checkFile.value.maxTransactionStored != maxInSage)))
  {
    if updateCache then Success(false) else CacheNeedsUpdate(checkFile, maxInSage)
  }

  /** The interface object and the three tables it holds. */
  class Sage {
    var sqldata: Table
    var invoices: Table
    var invoiceLines: Table

    /** Construction always refreshes every table from the source. */
    constructor (store: Store, source: Source)
      modifies store
      ensures sqldata == Journal(source.journal)
      ensures invoices == Invoices(source.invoices)
      ensures invoiceLines == InvoiceLines(source.invoiceLines)
      ensures store.snapshots == Load(old(store.snapshots), source, false).snapshots
      ensures store.checkFile == old(store.checkFile)
    {
      new;
      var r := LoadData(store, source, true);
    }

    method UpdateCache(store: Store, source: Source)
      modifies this, store
      ensures sqldata == Journal(source.journal)
      ensures invoices == Invoices(source.invoices)
      ensures invoiceLines == InvoiceLines(source.invoiceLines)
      ensures store.snapshots == Load(old(store.snapshots), source, false).snapshots
      ensures store.checkFile == old(store.checkFile)
    {
      var r := LoadData(store, source, true);
    }

    method LoadData(store: Store, source: Source, updateCache: bool) returns (r: Result<()>)
      modifies this, store
      ensures var flag := CacheFlag(updateCache, old(store.checkFile), source.maxTransaction);
        if flag.Failure? then
          r == Failure(flag.error) && store.snapshots == old(store.snapshots)
          && store.checkFile == old(store.checkFile)
          && sqldata == old(sqldata) && invoices == old(invoices) && invoiceLines == old(invoiceLines)
        else
          var l := Load(old(store.snapshots), source, flag.value);
          r == l.outcome && store.snapshots == l.snapshots
          && store.checkFile == (if updateCache then old(store.checkFile) else Some(MarkFile(source.maxTransaction)))
          && sqldata == (if l.sqldata.Some? then l.sqldata.value else old(sqldata))
          && invoices == (if l.invoices.Some? then l.invoices.value else old(invoices))
          && invoiceLines == (if l.invoiceLines.Some? then l.invoiceLines.value else old(invoiceLines))
    {
      var cacheIsUpToDate: bool;
      if !updateCache {
        var check := CheckCacheUpToDate(store, source.maxTransaction);
        if check.Failure? {
          return Failure(check.error);
        }
        cacheIsUpToDate := check.value;
      } else {
        cacheIsUpToDate := false;
      }
      var df := GetDataframeSageOdbcQuery(store, Journal(source.journal), "SageODBC", cacheIsUpToDate);
      if df.Failure? {
        return Failure(df.error);
      }
      sqldata := df.value;
      df := GetDataframeSageOdbcQuery(store, Invoices(source.invoices), "SageInvoices", cacheIsUpToDate);
      if df.Failure? {
        return Failure(df.error);
      }
      invoices := df.value;
      df := GetDataframeSageOdbcQuery(store, InvoiceLines(source.invoiceLines), "SageInvoiceLines", cacheIsUpToDate);
      if df.Failure? {
        return Failure(df.error);
      }
      invoiceLines := df.value;
      r := Success(());
    }
  }

  // ---------------------------------------------------------------------
  // Consequences of the load sequence
  // ---------------------------------------------------------------------

  /** A check file that says the cache is current makes `load_data` fetch everything from the source. */
  lemma CurrentMarkRefetches(snapshots: map<string, Snapshot>, source: Source)
    requires source.maxTransaction != 0
    ensures var flag := CacheFlag(false, Some(MarkFile(source.maxTransaction)), source.maxTransaction);
      flag == Success(false)
      && Load(snapshots, source, flag.value).sqldata == Some(Journal(source.journal))
      && Load(snapshots, source, flag.value).outcome.Success?
  {
  }

  /**
   * A stale verdict sends every query to the snapshot files. With a readable
   * journal snapshot the journal comes from the snapshot (identifiers as
   * text), and a readable invoice snapshot makes the load raise KeyError,
   * because that table has no ACCOUNT_REF column.
   */
  lemma StaleVerdictReadsSnapshots(snapshots: map<string, Snapshot>, source: Source, es: seq<Entry>, inv: Table)
    requires JsonFileName("SageODBC") in snapshots && snapshots[JsonFileName("SageODBC")] == Json(Journal(es))
    requires JsonFileName("SageInvoices") in snapshots && snapshots[JsonFileName("SageInvoices")] == Json(inv)
    requires !inv.Journal?
    ensures var l := Load(snapshots, source, true);
      l.outcome == Failure(KeyError("ACCOUNT_REF"))
      && l.sqldata.Some? && IdentifiersAreText(l.sqldata.value) && |l.sqldata.value.entries| == |es|
      && l.invoices.None?
      && l.snapshots == snapshots
  {
    var q1 := Query(snapshots, Journal(source.journal), "SageODBC", true);
    assert ReadSnapshot(snapshots, JsonFileName("SageODBC")).Success?;
    assert q1.snapshots == snapshots;
    assert ReadSnapshot(snapshots, JsonFileName("SageInvoices")).Success?;
  }

  /**
   * The tables need not come from one generation: with only the journal
   * snapshot present, a stale verdict takes the journal from the snapshot
   * and the invoice tables from the source, and the load succeeds.
   */
  lemma MixedGenerations(source: Source, es: seq<Entry>)
    requires es != source.journal
    requires forall k :: 0 <= k < |es| ==> es[k].accountRef.Str? && es[k].invRef.Str?
    requires JournalSurvivesSnapshot(es)
    ensures var l := Load(map[JsonFileName("SageODBC") := Json(Journal(es))], source, true);
      l.outcome.Success?
      && l.sqldata == Some(Journal(es))
      && l.invoices == Some(Invoices(source.invoices))
      && l.invoiceLines == Some(InvoiceLines(source.invoiceLines))
  {
    var snapshots := map[JsonFileName("SageODBC") := Json(Journal(es))];
    SnapshotRoundTrip(map[], es, Journal(source.journal));
    assert map[][JsonFileName("SageODBC") := Json(Journal(es))] == snapshots;
    var q1 := Query(snapshots, Journal(source.journal), "SageODBC", true);
    assert q1.df == Success(Journal(es));
    assert JsonFileName("SageInvoices") !in q1.snapshots;
    var q2 := Query(q1.snapshots, Invoices(source.invoices), "SageInvoices", true);
    assert JsonFileName("SageInvoiceLines") !in q2.snapshots;
  }
}
