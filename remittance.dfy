/**
 * Enrichment of a remittance document with ledger figures
 * (`Sage.get_field` and `Sage.enrich_remittance_doc`).
 *
 * A remittance document lists the invoices and credit notes a customer says
 * it is paying. Each row is looked up in the journal by its "Your Ref"; five
 * derived columns are added to the document in place, and two whole-document
 * checks then decide whether the figures reconcile.
 */
module Remittance {

  import opened Base
  import opened Ledger

  /** The three columns of a remittance row that the enrichment reads. */
  datatype RemRow = RemRow(
    yourRef: Cell,        // "Your Ref": our invoice number
    documentType: string, // "Document Type"
    memberCode: Cell)     // "Member Code"

  /** Member codes whose rows are never enriched (discount and own-invoice rows). */
  const DiscountMember: Cell := Str("4552")
  const InvoiceMember: Cell := Str("4424")

  predicate Skipped(row: RemRow)
  {
    row.memberCode == DiscountMember || row.memberCode == InvoiceMember
      || (row.documentType != "Invoice" && row.documentType != "Credit Note")
  }

  function Lift(r: Result<Value>): (o: Result<Option<Value>>)
    ensures o.Success? <==> r.Success?
    ensures o.Success? ==> o.value == Some(r.value)
    ensures o.Failure? ==> o.error == r.error
  {
    match r
    case Success(v) => Success(Some(v))
    case Failure(e) => Failure(e)
  }

  /**
   * The value of `field` for one remittance row: nothing for skipped rows,
   * the sales-invoice lookup for an invoice, and for a credit note the
   * sales-credit lookup, retried as a sales invoice when it raises one of the
   * package's own errors.
   */
  function GetField(journal: seq<Entry>, row: RemRow, field: Field): (r: Result<Option<Value>>)
    ensures r == Success(None) <==> Skipped(row)
    ensures !Skipped(row) && row.documentType == "Invoice" ==>
      r == Lift(UsingReferenceGet(journal, row.yourRef, field, DefaultNumChars, ["SI"]))
    ensures !Skipped(row) && row.documentType == "Credit Note" && Debtors(journal, row.yourRef, ["SC"]) != []
            && !field.Other? ==>
      r == Lift(UsingReferenceGet(journal, row.yourRef, field, DefaultNumChars, ["SC"]))
    ensures !Skipped(row) && row.documentType == "Credit Note" && Debtors(journal, row.yourRef, ["SC"]) == [] ==>
      r == Lift(UsingReferenceGet(journal, row.yourRef, field, DefaultNumChars, ["SI"]))
  {
    if row.memberCode == DiscountMember || row.memberCode == InvoiceMember then Success(None)
    else if row.documentType == "Invoice" then
      Lift(UsingReferenceGet(journal, row.yourRef, field, DefaultNumChars, ["SI"]))
    else if row.documentType == "Credit Note" then
      var credit := UsingReferenceGet(journal, row.yourRef, field, DefaultNumChars, ["SC"]);
      if credit.Failure? && IsPySageError(credit.error) then
        Lift(UsingReferenceGet(journal, row.yourRef, field, DefaultNumChars, ["SI"]))
      else
        Lift(credit)
    else Success(None)
  }

  /**
   * `df.apply(f, axis=1)`: `f` applied row by row; the first row that
   * raises stops the whole application.
   */
  function Apply(rows: seq<RemRow>, f: RemRow -> Result<Option<Value>>): (r: Result<seq<Option<Value>>>)
    ensures r.Success? ==> |r.value| == |rows|
    decreases |rows|
  {
    if rows == [] then Success([])
    else
      match f(rows[0])
      case Failure(e) => Failure(e)
      case Success(v) =>
        match Apply(rows[1..], f)
        case Failure(e) => Failure(e)
        case Success(vs) => Success([v] + vs)
  }

  /**
   * The application holds `f` of every row, and it fails exactly when a row
   * raises, with the exception of the first such row.
   */
  lemma {:induction false} ApplyIsRowwise(rows: seq<RemRow>, f: RemRow -> Result<Option<Value>>)
    ensures var r := Apply(rows, f);
      && (r.Success? <==> forall k :: 0 <= k < |rows| ==> f(rows[k]).Success?)
      && (r.Success? ==> forall k :: 0 <= k < |rows| ==> r.value[k] == f(rows[k]).value)
      && (r.Failure? ==>
            exists k :: 0 <= k < |rows| && f(rows[k]) == Failure(r.error)
              && forall j :: 0 <= j < k ==> f(rows[j]).Success?)
    decreases |rows|
  {
    if rows != [] {
      var tailRows := rows[1..];
      ApplyIsRowwise(tailRows, f);
      var tail := Apply(tailRows, f);
      assert forall k :: 0 < k < |rows| ==> rows[k] == tailRows[k - 1];
      if f(rows[0]).Success? && tail.Failure? {
        var k :| 0 <= k < |tailRows| && f(tailRows[k]) == Failure(tail.error)
                 && forall j :: 0 <= j < k ==> f(tailRows[j]).Success?;
        assert f(rows[k + 1]) == Failure(tail.error);
      }
    }
  }

  /** `get_series(field)`: `get_field` of every row of the document. */
  function Series(journal: seq<Entry>, rows: seq<RemRow>, field: Field): (r: Result<seq<Option<Value>>>)
    ensures r.Success? ==> |r.value| == |rows|
  {
    Apply(rows, row => GetField(journal, row, field))
  }

  lemma SeriesIsRowwise(journal: seq<Entry>, rows: seq<RemRow>, field: Field)
    ensures var r := Series(journal, rows, field);
      && (r.Success? <==> forall k :: 0 <= k < |rows| ==> GetField(journal, rows[k], field).Success?)
      && (r.Success? ==> forall k :: 0 <= k < |rows| ==> r.value[k] == GetField(journal, rows[k], field).value)
      && (r.Failure? ==> exists k :: 0 <= k < |rows| && GetField(journal, rows[k], field) == Failure(r.error))
  {
    ApplyIsRowwise(rows, row => GetField(journal, row, field));
  }

  function PenceOf(v: Option<Value>): int
  {
    if v.Some? && v.value.Money? then v.value.pence else 0
  }

  /** The sum of a money column; an empty cell counts 0. */
  function Total(column: seq<Option<Value>>): int
  {
    if column == [] then 0 else PenceOf(column[0]) + Total(column[1..])
  }

  /** The sum of a money column over the rows whose member code is not `code`. */
  function TotalExcept(rows: seq<RemRow>, column: seq<Option<Value>>, code: Cell): (r: int)
    requires |rows| == |column|
    ensures (forall k :: 0 <= k < |rows| ==> rows[k].memberCode != code) ==> r == Total(column)
    ensures (forall k :: 0 <= k < |rows| ==> rows[k].memberCode == code) ==> r == 0
  {
    if rows == [] then 0
    else (if rows[0].memberCode != code then PenceOf(column[0]) else 0) + TotalExcept(rows[1..], column[1..], code)
  }

  /** `/ 100` on the tax-rate series. */
  function Scaled(v: Option<Value>): (r: Option<Value>)
    ensures r.None? <==> v.None?
  {
    if v.Some? && v.value.Rate? then Some(Rate(v.value.r / 100.0)) else v
  }

  function ScaledColumn(column: seq<Option<Value>>): (r: seq<Option<Value>>)
    ensures |r| == |column| && forall k :: 0 <= k < |column| ==> r[k] == Scaled(column[k])
  {
    seq(|column|, k requires 0 <= k < |column| => Scaled(column[k]))
  }

  const AccountRefColumn := "Account_Ref"
  const NetColumn := "Sage_Net_Amount"
  const GrossColumn := "Sage_Gross_Amount"
  const VatColumn := "Sage_VAT_Amount"
  const TaxRateColumn := "Sage_Tax_Rate"

  type Columns = map<string, seq<Option<Value>>>

  /** A remittance document: its rows, the columns added to it, and whether it has been checked. */
  class RemittanceDoc {
    var rows: seq<RemRow>
    var columns: Columns
    var checked: bool

    constructor (rows: seq<RemRow>, checked: bool)
      ensures this.rows == rows && this.columns == map[] && this.checked == checked
    {
      this.rows := rows;
      this.columns := map[];
      this.checked := checked;
    }
  }

  /** The document after an enrichment: the outcome, its columns and its `checked` flag. */
  datatype Outcome = Outcome(result: Result<()>, columns: Columns, checked: bool)

  /**
   * The specification of the enrichment. The five columns are added one
   * after the other, so an exception in a later series leaves the earlier
   * columns in place; the two checks run only after all five are written,
   * and a failed check clears `checked`.
   */
  function Enrich(journal: seq<Entry>, rows: seq<RemRow>, columns: Columns, checked: bool): (o: Outcome)
    ensures o.result.Success? ==> o.checked == checked
    ensures o.checked != checked ==> !o.checked && o.result.Failure?
                                     && (o.result.error.Reconciliation? || o.result.error.GrossMismatch?)
    ensures forall name :: name in columns && name !in {AccountRefColumn, NetColumn, GrossColumn, VatColumn, TaxRateColumn} ==>
      name in o.columns && o.columns[name] == columns[name]
  {
    var account := Series(journal, rows, AltRef);
    if account.Failure? then Outcome(Failure(account.error), columns, checked)
    else
      var c1 := columns[AccountRefColumn := account.value];
      var net := Series(journal, rows, NetAmount);
      if net.Failure? then Outcome(Failure(net.error), c1, checked)
      else
        var c2 := c1[NetColumn := net.value];
        var gross := Series(journal, rows, GrossAmount);
        if gross.Failure? then Outcome(Failure(gross.error), c2, checked)
        else
          var c3 := c2[GrossColumn := gross.value];
          var vat := Series(journal, rows, TaxAmount);
          if vat.Failure? then Outcome(Failure(vat.error), c3, checked)
          else
            var c4 := c3[VatColumn := vat.value];
            var rate := Series(journal, rows, TaxRate);
            if rate.Failure? then Outcome(Failure(rate.error), c4, checked)
            else
              var c5 := c4[TaxRateColumn := ScaledColumn(rate.value)];
              var (n, v, g) := (Total(net.value), Total(vat.value), Total(gross.value));
              if P(n + v) != P(g) then Outcome(Failure(Reconciliation(n, v, g)), c5, false)
              else
                var grossExDiscount := TotalExcept(rows, gross.value, DiscountMember);
                if g != grossExDiscount then Outcome(Failure(GrossMismatch(grossExDiscount, g)), c5, false)
                else Outcome(Success(()), c5, checked)
  }

  /** `Sage.enrich_remittance_doc` over the journal rows the interface holds. */
  method EnrichRemittanceDoc(journal: seq<Entry>, doc: RemittanceDoc) returns (r: Result<()>)
    modifies doc`columns, doc`checked
    ensures Outcome(r, doc.columns, doc.checked) == Enrich(journal, doc.rows, old(doc.columns), old(doc.checked))
  {
    var account := Series(journal, doc.rows, AltRef);
    if account.Failure? {
      return Failure(account.error);
    }
    doc.columns := doc.columns[AccountRefColumn := account.value];
    var net := Series(journal, doc.rows, NetAmount);
    if net.Failure? {
      return Failure(net.error);
    }
    doc.columns := doc.columns[NetColumn := net.value];
    var gross := Series(journal, doc.rows, GrossAmount);
    if gross.Failure? {
      return Failure(gross.error);
    }
    doc.columns := doc.columns[GrossColumn := gross.value];
    var vat := Series(journal, doc.rows, TaxAmount);
    if vat.Failure? {
      return Failure(vat.error);
    }
    doc.columns := doc.columns[VatColumn := vat.value];
    var rate := Series(journal, doc.rows, TaxRate);
    if rate.Failure? {
      return Failure(rate.error);
    }
    doc.columns := doc.columns[TaxRateColumn := ScaledColumn(rate.value)];
    var netTotal := Total(doc.columns[NetColumn]);
    var vatTotal := Total(doc.columns[VatColumn]);
    var grossTotal := Total(doc.columns[GrossColumn]);
    if P(netTotal + vatTotal) != P(grossTotal) {
      doc.checked := false;
      return Failure(Reconciliation(netTotal, vatTotal, grossTotal));
    }
    var grossExDiscount := TotalExcept(doc.rows, doc.columns[GrossColumn], DiscountMember);
    if grossTotal != grossExDiscount {
      doc.checked := false;
      return Failure(GrossMismatch(grossExDiscount, grossTotal));
    }
    r := Success(());
  }

  // ---------------------------------------------------------------------
  // Why the two checks cannot fail
  // ---------------------------------------------------------------------

  /**
   * For one row, the net, VAT and gross lookups use the same record type, so
   * they succeed or fail together, and net + VAT == gross.
   */
  lemma RowSplits(journal: seq<Entry>, row: RemRow)
    ensures var (n, v, g) := (GetField(journal, row, NetAmount), GetField(journal, row, TaxAmount),
                              GetField(journal, row, GrossAmount));
      && (n.Success? <==> g.Success?) && (v.Success? <==> g.Success?)
      && (g.Success? ==> PenceOf(n.value) + PenceOf(v.value) == PenceOf(g.value))
      && (g.Success? && g.value.None? ==> n.value.None? && v.value.None?)
  {
    if !Skipped(row) {
      var rt: seq<string> :=
        if row.documentType == "Credit Note" && Debtors(journal, row.yourRef, ["SC"]) != [] then ["SC"] else ["SI"];
      NetPlusTaxIsGross(journal, row.yourRef, DefaultNumChars, rt);
    }
  }

  /** The total of a column split in two is the sum of the totals of the parts. */
  lemma {:induction false} TotalAppend(a: seq<Option<Value>>, b: seq<Option<Value>>)
    ensures Total(a + b) == Total(a) + Total(b)
    decreases |a|
  {
    if a == [] {
      assert a + b == b;
    } else {
      TotalAppend(a[1..], b);
      assert (a + b)[1..] == a[1..] + b;
    }
  }

  /** Where every row's net and VAT add up to its gross, so do the column totals. */
  lemma {:induction false} TotalsAdd(net: seq<Option<Value>>, vat: seq<Option<Value>>, gross: seq<Option<Value>>)
    requires |net| == |vat| == |gross|
    requires forall k :: 0 <= k < |gross| ==> PenceOf(net[k]) + PenceOf(vat[k]) == PenceOf(gross[k])
    ensures Total(net) + Total(vat) == Total(gross)
    decreases |gross|
  {
    if gross != [] {
      TotalsAdd(net[1..], vat[1..], gross[1..]);
    }
  }

  /** Leaving out rows whose cells count nothing does not change a column total. */
  lemma {:induction false} TotalExceptEmptyRows(rows: seq<RemRow>, column: seq<Option<Value>>, code: Cell)
    requires |rows| == |column|
    requires forall k :: 0 <= k < |rows| && rows[k].memberCode == code ==> PenceOf(column[k]) == 0
    ensures TotalExcept(rows, column, code) == Total(column)
    decreases |rows|
  {
    if rows != [] {
      TotalExceptEmptyRows(rows[1..], column[1..], code);
    }
  }

  /** For any known field a row raises only "no data" or a zero division. */
  lemma GetFieldErrors(journal: seq<Entry>, row: RemRow, field: Field)
    requires !field.Other?
    ensures GetField(journal, row, field).Failure? ==>
      GetField(journal, row, field).error.NoData? || GetField(journal, row, field).error.ZeroDivision?
  {
  }

  /**
   * Once the gross series is there, the net and VAT series are too, and both
   * whole-document checks pass.
   */
  lemma ChecksPass(journal: seq<Entry>, rows: seq<RemRow>)
    requires Series(journal, rows, GrossAmount).Success?
    ensures Series(journal, rows, NetAmount).Success? && Series(journal, rows, TaxAmount).Success?
    ensures var (n, v, g) := (Series(journal, rows, NetAmount).value, Series(journal, rows, TaxAmount).value,
                              Series(journal, rows, GrossAmount).value);
      P(Total(n) + Total(v)) == P(Total(g)) && TotalExcept(rows, g, DiscountMember) == Total(g)
  {
    SeriesIsRowwise(journal, rows, NetAmount);
    SeriesIsRowwise(journal, rows, GrossAmount);
    SeriesIsRowwise(journal, rows, TaxAmount);
    forall k | 0 <= k < |rows| {
      RowSplits(journal, rows[k]);
    }
    var (net, vat, gross) := (Series(journal, rows, NetAmount), Series(journal, rows, TaxAmount),
                              Series(journal, rows, GrossAmount));
    TotalsAdd(net.value, vat.value, gross.value);
    forall k | 0 <= k < |rows| && rows[k].memberCode == DiscountMember
      ensures PenceOf(gross.value[k]) == 0
    {
      assert Skipped(rows[k]);
    }
    TotalExceptEmptyRows(rows, gross.value, DiscountMember);
  }

  /** A series of a known field fails only with "no data" or a zero division. */
  lemma SeriesErrors(journal: seq<Entry>, rows: seq<RemRow>, field: Field)
    requires !field.Other?
    ensures var r := Series(journal, rows, field);
      r.Failure? ==> r.error.NoData? || r.error.ZeroDivision?
  {
    SeriesIsRowwise(journal, rows, field);
    var r := Series(journal, rows, field);
    if r.Failure? {
      var k :| 0 <= k < |rows| && GetField(journal, rows[k], field) == Failure(r.error);
      GetFieldErrors(journal, rows[k], field);
    }
  }

  /**
   * With money in whole pence, the enrichment never fails its own checks:
   * it fails only when a lookup raises (no ledger rows for a reference, or a
   * tax rate over a zero sales total), and `checked` is never cleared.
   */
  lemma ReconciliationNeverFails(journal: seq<Entry>, rows: seq<RemRow>, columns: Columns, checked: bool)
    ensures var o := Enrich(journal, rows, columns, checked);
      && o.checked == checked
      && (o.result.Failure? ==> o.result.error.NoData? || o.result.error.ZeroDivision?)
      && (o.result.Success? <==>
            Series(journal, rows, AltRef).Success? && Series(journal, rows, GrossAmount).Success?
            && Series(journal, rows, TaxRate).Success?)
  {
    SeriesErrors(journal, rows, AltRef);
    SeriesErrors(journal, rows, NetAmount);
    SeriesErrors(journal, rows, GrossAmount);
    SeriesErrors(journal, rows, TaxAmount);
    SeriesErrors(journal, rows, TaxRate);
    if Series(journal, rows, GrossAmount).Success? {
      ChecksPass(journal, rows);
    } else {
      SeriesIsRowwise(journal, rows, NetAmount);
      SeriesIsRowwise(journal, rows, GrossAmount);
      forall k | 0 <= k < |rows| {
        RowSplits(journal, rows[k]);
      }
    }
  }

  /**
   * When every series is there, the enrichment writes all five into the
   * document before either check runs (the tax rate divided by 100), and
   * leaves every other column as it was.
   */
  lemma EnrichWritesSeries(journal: seq<Entry>, rows: seq<RemRow>, columns: Columns, checked: bool)
    requires Series(journal, rows, AltRef).Success? && Series(journal, rows, GrossAmount).Success?
    requires Series(journal, rows, TaxRate).Success?
    ensures Series(journal, rows, NetAmount).Success? && Series(journal, rows, TaxAmount).Success?
    ensures Enrich(journal, rows, columns, checked).columns
         == columns[AccountRefColumn := Series(journal, rows, AltRef).value]
                   [NetColumn := Series(journal, rows, NetAmount).value]
                   [GrossColumn := Series(journal, rows, GrossAmount).value]
                   [VatColumn := Series(journal, rows, TaxAmount).value]
                   [TaxRateColumn := ScaledColumn(Series(journal, rows, TaxRate).value)]
  {
    ChecksPass(journal, rows);
  }
}
