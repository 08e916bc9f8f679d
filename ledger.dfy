/**
 * The ledger repository: journal entries of the audit trail and the lookup
 * `using_reference_get` that aggregates the debtors-control lines of one
 * invoice reference into a single figure.
 */
module Ledger {

  import opened Base
  import opened Strings

  /** Nominal account codes the lookup filters on. */
  const DebtorsControl := "1100"
  const VatControl := "2200"
  const NetSales := "4000"

  /** Number of characters the text fields are cut to when the caller gives none. */
  const DefaultNumChars := 30

  /**
   * One row of the journal query. The two identifier columns are cells,
   * because a cached copy may hold them as numbers; every other column has
   * its database type. Amounts are in pence.
   */
  datatype Entry = Entry(
    tranNumber: int,
    tranType: string,
    date: Date,
    accountRef: Cell,        // nominal account (ACCOUNT_REF)
    altRef: string,          // customer account (ALT_REF)
    invRef: Cell,            // invoice reference (INV_REF)
    details: string,
    taxCode: string,
    amount: int,
    foreignAmount: int,
    bankFlag: string,
    dateBankReconciled: Option<Date>,
    extraRef: string,
    paidFlag: string,
    outstanding: int)

  /** The values a lookup can return. */
  datatype Value =
    | IntValue(i: int)
    | DateValue(d: Date)
    | TextValue(s: string)
    | CellValue(c: Cell)
    | OptionalDate(od: Option<Date>)
    | Money(pence: int)
    | Rate(r: real)

  datatype MoneyColumn = AmountColumn | ForeignAmountColumn
  datatype TextColumn = DetailsColumn | ExtraRefColumn

  /** Python's `str(i)` of the reference the caller passes. */
  function RefText(i: Cell): string
  {
    match i
    case Str(s) => s
    case Num(n) => Decimal(n)
  }

  /** The row filter of the lookup: one of the record types, one account, one invoice reference. */
  predicate Selected(e: Entry, recordType: seq<string>, account: string, ref: string)
  {
    e.tranType in recordType && e.accountRef == Str(account) && e.invRef == Str(ref)
  }

  /** The selected rows, in table order. */
  function Matching(es: seq<Entry>, recordType: seq<string>, account: string, ref: string): (m: seq<Entry>)
    ensures forall e :: e in m ==> e in es && Selected(e, recordType, account, ref)
    ensures m == [] <==> forall e :: e in es ==> !Selected(e, recordType, account, ref)
    ensures m != [] ==> exists k :: 0 <= k < |es| && es[k] == m[0]
                                   && forall j :: 0 <= j < k ==> !Selected(es[j], recordType, account, ref)
  {
    if es == [] then []
    else
      if Selected(es[0], recordType, account, ref) then [es[0]] + Matching(es[1..], recordType, account, ref)
      else
        var rest := Matching(es[1..], recordType, account, ref);
        assert rest != [] ==> exists k :: 0 <= k < |es| && es[k] == rest[0]
                                          && forall j :: 0 <= j < k ==> !Selected(es[j], recordType, account, ref) by {
          if rest != [] {
            var k :| 0 <= k < |es[1..]| && es[1..][k] == rest[0]
                     && forall j :: 0 <= j < k ==> !Selected(es[1..][j], recordType, account, ref);
            assert forall j :: 0 <= j < k + 1 ==> !Selected(es[j], recordType, account, ref) by {
              forall j | 0 <= j < k + 1 ensures !Selected(es[j], recordType, account, ref) {
                if j > 0 { assert es[j] == es[1..][j - 1]; }
              }
            }
          }
        }
        rest
  }

  /** The filter keeps every selected row as often as the journal holds it, and no other row. */
  lemma {:induction false} MatchingCounts(es: seq<Entry>, recordType: seq<string>, account: string, ref: string)
    ensures var m := Matching(es, recordType, account, ref);
      forall e :: multiset(m)[e] == if Selected(e, recordType, account, ref) then multiset(es)[e] else 0
    decreases |es|
  {
    if es != [] {
      MatchingCounts(es[1..], recordType, account, ref);
      assert es == [es[0]] + es[1..];
    }
  }

  function MoneyOf(e: Entry, col: MoneyColumn): int
  {
    match col
    case AmountColumn => e.amount
    case ForeignAmountColumn => e.foreignAmount
  }

  /** Column sum, as `df[col].sum()`. */
  function Sum(es: seq<Entry>, col: MoneyColumn): int
  {
    if es == [] then 0 else MoneyOf(es[0], col) + Sum(es[1..], col)
  }

  function TextOf(e: Entry, col: TextColumn): string
  {
    match col
    case DetailsColumn => e.details
    case ExtraRefColumn => e.extraRef
  }

  /** Concatenation of a text column, as `df[col].str.cat()`. */
  function Cat(es: seq<Entry>, col: TextColumn): (r: string)
    ensures r == [] <==> forall k :: 0 <= k < |es| ==> TextOf(es[k], col) == []
    ensures es != [] ==> TextOf(es[0], col) <= r
  {
    if es == [] then [] else TextOf(es[0], col) + Cat(es[1..], col)
  }

  function Min(a: int, b: int): int { if a <= b then a else b }

  /** Python's slice `s[:n]`: a prefix, counted from the end when n is negative. */
  function PySlice(s: string, n: int): (r: string)
    ensures r <= s
    ensures n >= 0 ==> |r| == Min(n, |s|)
    ensures n < 0 ==> |r| == if |s| + n >= 0 then |s| + n else 0
  {
    if n >= 0 then (if n <= |s| then s[..n] else s)
    else if |s| + n >= 0 then s[..|s| + n]
    else []
  }

  /**
   * The tax rate in percent that a gross amount and a net amount imply,
   * computed in floating point by the source.
   */
  function RatePercent(gross: int, net: int): (r: real)
    requires net != 0
    ensures r * (net as real) == 100.0 * ((gross - net) as real)
    ensures r == 0.0 <==> gross == net
    ensures net > 0 ==> (r > 0.0 <==> gross > net)
  {
    var q := (gross as real) / (net as real);
    assert q * (net as real) == gross as real;
    100.0 * (q - 1.0)
  }

  /**
   * The field names the lookup dispatches on. `Other(name)` stands for any
   * name that is none of the others.
   */
  datatype Field =
    | TranNumber | TranDate | TranType | AccountRef | AltRef | InvRef | TaxCode | BankFlag | DateBankReconciled
    | Outstanding | Amount | ForeignAmount | GrossAmount | NetAmount | TaxAmount | TaxRate | Details | ExtraRef
    | Other(name: string)

  /** The column name the source uses for each field. */
  function Name(f: Field): string
  {
    match f
    case TranNumber => "TRAN_NUMBER"
    case TranDate => "DATE"
    case TranType => "TYPE"
    case AccountRef => "ACCOUNT_REF"
    case AltRef => "ALT_REF"
    case InvRef => "INV_REF"
    case TaxCode => "TAX_CODE"
    case BankFlag => "BANK_FLAG"
    case DateBankReconciled => "DATE_BANK_RECONCILED"
    case Outstanding => "OUTSTANDING"
    case Amount => "AMOUNT"
    case ForeignAmount => "FOREIGN_AMOUNT"
    case GrossAmount => "GROSS_AMOUNT"
    case NetAmount => "NET_AMOUNT"
    case TaxAmount => "TAX_AMOUNT"
    case TaxRate => "TAX_RATE"
    case Details => "DETAILS"
    case ExtraRef => "EXTRA_REF"
    case Other(name) => name
  }

  const KnownFields: seq<Field> :=
    [TranNumber, TranDate, TranType, AccountRef, AltRef, InvRef, TaxCode, BankFlag, DateBankReconciled,
     Outstanding, Amount, ForeignAmount, GrossAmount, NetAmount, TaxAmount, TaxRate, Details, ExtraRef]

  /** The field a name passed by a caller denotes. */
  function FieldNamed(name: string): (f: Field)
    ensures Name(f) == name
    ensures f.Other? <==> forall k :: 0 <= k < |KnownFields| ==> Name(KnownFields[k]) != name
  {
    FieldIn(name, KnownFields)
  }

  function FieldIn(name: string, known: seq<Field>): (f: Field)
    requires forall k :: 0 <= k < |known| ==> !known[k].Other?
    ensures Name(f) == name
    ensures f.Other? <==> forall k :: 0 <= k < |known| ==> Name(known[k]) != name
  {
    if known == [] then Other(name)
    else if Name(known[0]) == name then known[0]
    else
      var f := FieldIn(name, known[1..]);
      assert forall k :: 1 <= k < |known| ==> known[k] == known[1..][k - 1];
      f
  }

  /** The debtors-control rows of invoice `i` with one of the record types. */
  function Debtors(journal: seq<Entry>, i: Cell, recordType: seq<string>): (r: seq<Entry>)
    ensures forall e :: e in r <==> e in journal && Selected(e, recordType, DebtorsControl, RefText(i))
  {
    MatchingCounts(journal, recordType, DebtorsControl, RefText(i));
    Matching(journal, recordType, DebtorsControl, RefText(i))
  }

  /** The VAT-control rows of invoice `i`. */
  function Vat(journal: seq<Entry>, i: Cell, recordType: seq<string>): (r: seq<Entry>)
    ensures forall e :: e in r <==> e in journal && Selected(e, recordType, VatControl, RefText(i))
  {
    MatchingCounts(journal, recordType, VatControl, RefText(i));
    Matching(journal, recordType, VatControl, RefText(i))
  }

  /** The net-sales rows of invoice `i`. */
  function Sales(journal: seq<Entry>, i: Cell, recordType: seq<string>): (r: seq<Entry>)
    ensures forall e :: e in r <==> e in journal && Selected(e, recordType, NetSales, RefText(i))
  {
    MatchingCounts(journal, recordType, NetSales, RefText(i));
    Matching(journal, recordType, NetSales, RefText(i))
  }

  /**
   * `Sage.using_reference_get(i, field, numchars, record_type)` over the
   * journal table. The lookup fails with NoData before it looks at the field
   * name; the text fields are cut to `numchars` characters.
   */
  function UsingReferenceGet(journal: seq<Entry>, i: Cell, field: Field, numchars: int,
                             recordType: seq<string>): (r: Result<Value>)
    ensures var m := Debtors(journal, i, recordType);
      && ((r.Failure? && r.error.NoData?) <==> m == [])
      && (m == [] ==> r == Failure(NoData(RefText(i))))
      && ((r.Failure? && r.error.UnmatchedField?) <==> m != [] && field.Other?)
      && ((r.Failure? && r.error.ZeroDivision?) <==>
            m != [] && field == TaxRate && Sum(Sales(journal, i, recordType), AmountColumn) == 0)
      && (r.Failure? ==> r.error.NoData? || r.error.UnmatchedField? || r.error.ZeroDivision?)
  {
    Lookup(Debtors(journal, i, recordType), Sum(Vat(journal, i, recordType), AmountColumn),
           Sum(Sales(journal, i, recordType), AmountColumn), RefText(i), field, numchars)
  }

  /**
   * The field dispatch of the lookup, given the debtors-control rows of the
   * reference and the AMOUNT totals of its VAT-control and net-sales rows.
   */
  function Lookup(df: seq<Entry>, vat: int, sales: int, ref: string, field: Field,
                  numchars: int): (r: Result<Value>)
    ensures df == [] ==> r == Failure(NoData(ref))
    ensures df != [] && field.Other? ==> r == Failure(UnmatchedField(field.name))
    ensures df != [] && field == TaxRate && sales == 0 ==> r == Failure(ZeroDivision)
    ensures df != [] && !field.Other? && !(field == TaxRate && sales == 0) ==> r.Success?
  {
    if |df| == 0 then Failure(NoData(ref))
    else
      match field
      case TranNumber => Success(IntValue(df[0].tranNumber))
      case TranDate => Success(DateValue(df[0].date))
      case TranType => Success(TextValue(df[0].tranType))
      case AccountRef => Success(CellValue(df[0].accountRef))
      case AltRef => Success(TextValue(df[0].altRef))
      case InvRef => Success(CellValue(df[0].invRef))
      case TaxCode => Success(TextValue(df[0].taxCode))
      case BankFlag => Success(TextValue(df[0].bankFlag))
      case DateBankReconciled => Success(OptionalDate(df[0].dateBankReconciled))
      case Outstanding => Success(Money(P(df[0].outstanding)))
      case Amount => Success(Money(P(Sum(df, AmountColumn))))
      case ForeignAmount => Success(Money(P(Sum(df, ForeignAmountColumn))))
      case GrossAmount => Success(Money(P(Sum(df, AmountColumn))))
      case NetAmount => Success(Money(P(Sum(df, AmountColumn) + vat)))
      case TaxAmount => Success(Money(P(- vat)))
      case TaxRate =>
        var denominator := - sales;
        if denominator == 0 then Failure(ZeroDivision)
        else Success(Rate(RatePercent(Sum(df, AmountColumn), denominator)))
      case Details => Success(TextValue(PySlice(Cat(df, DetailsColumn), numchars)))
      case ExtraRef => Success(TextValue(PySlice(Cat(df, ExtraRefColumn), numchars)))
      case Other(name) => Failure(UnmatchedField(name))
  }

  // ---------------------------------------------------------------------
  // Properties of the aggregation

  lemma {:induction false} MatchingAppend(a: seq<Entry>, b: seq<Entry>, recordType: seq<string>, account: string, ref: string)
    ensures Matching(a + b, recordType, account, ref)
         == Matching(a, recordType, account, ref) + Matching(b, recordType, account, ref)
  {
    if a == [] {
      assert a + b == b;
    } else {
      assert (a + b)[1..] == a[1..] + b;
      MatchingAppend(a[1..], b, recordType, account, ref);
    }
  }

  /** A permutation of a non-empty table holds its first row somewhere; the rest is a permutation too. */
  lemma PermutationRest<T>(a: seq<T>, b: seq<T>) returns (k: nat)
    requires multiset(a) == multiset(b) && a != []
    ensures k < |b| && b[k] == a[0]
    ensures multiset(a[1..]) == multiset(b[..k] + b[k + 1..])
  {
    assert a[0] in multiset(a);
    k :| 0 <= k < |b| && b[k] == a[0];
    RemoveOne(a, 0);
    RemoveOne(b, k);
    assert a[..0] + a[1..] == a[1..];
  }

  /** Dropping the row at `k` takes one copy of it out of the table's multiset. */
  lemma RemoveOne<T>(s: seq<T>, k: nat)
    requires k < |s|
    ensures multiset(s[..k] + s[k + 1..]) == multiset(s) - multiset{s[k]}
  {
    assert s == s[..k] + [s[k]] + s[k + 1..];
  }

  /** The sum of a weight over the rows of a table. */
  function Weight(es: seq<Entry>, w: Entry -> int): int
  {
    if es == [] then 0 else w(es[0]) + Weight(es[1..], w)
  }

  lemma {:induction false} WeightAppend(a: seq<Entry>, b: seq<Entry>, w: Entry -> int)
    ensures Weight(a + b, w) == Weight(a, w) + Weight(b, w)
  {
    if a == [] {
      assert a + b == b;
    } else {
      assert (a + b)[1..] == a[1..] + b;
      WeightAppend(a[1..], b, w);
    }
  }

  /** A total weight depends only on which rows the table holds, not on their order. */
  lemma {:induction false} WeightIgnoresOrder(a: seq<Entry>, b: seq<Entry>, w: Entry -> int)
    requires multiset(a) == multiset(b)
    ensures Weight(a, w) == Weight(b, w)
    decreases |a|
  {
    if a == [] {
      assert |b| == |multiset(b)| == 0;
    } else {
      var k := PermutationRest(a, b);
      var front, back := b[..k], b[k + 1..];
      assert b == front + ([a[0]] + back);
      WeightIgnoresOrder(a[1..], front + back, w);
      WeightAppend(front, [a[0]] + back, w);
      WeightAppend([a[0]], back, w);
      WeightAppend(front, back, w);
      assert Weight([a[0]], w) == w(a[0]);
    }
  }

  /** The sum over the selected rows is the total of a weight that is zero on the other rows. */
  lemma {:induction false} SelectedSumIsWeight(es: seq<Entry>, recordType: seq<string>, account: string, ref: string,
                                               col: MoneyColumn, w: Entry -> int)
    requires forall e :: w(e) == if Selected(e, recordType, account, ref) then MoneyOf(e, col) else 0
    ensures Sum(Matching(es, recordType, account, ref), col) == Weight(es, w)
    decreases |es|
  {
    if es != [] {
      SelectedSumIsWeight(es[1..], recordType, account, ref, col, w);
    }
  }

  /** The sum over the selected rows depends only on which rows the table holds, not on their order. */
  lemma SelectedSumIgnoresOrder(a: seq<Entry>, b: seq<Entry>, recordType: seq<string>,
                                account: string, ref: string, col: MoneyColumn)
    requires multiset(a) == multiset(b)
    ensures Sum(Matching(a, recordType, account, ref), col) == Sum(Matching(b, recordType, account, ref), col)
  {
    var w := e => if Selected(e, recordType, account, ref) then MoneyOf(e, col) else 0;
    SelectedSumIsWeight(a, recordType, account, ref, col, w);
    SelectedSumIsWeight(b, recordType, account, ref, col, w);
    WeightIgnoresOrder(a, b, w);
  }

  /** The amount-based fields read the row sets only through their sums and whether they are empty. */
  lemma LookupReadsOnlySums(d1: seq<Entry>, d2: seq<Entry>, vat: int, sales: int, ref: string, field: Field,
                            numchars: int)
    requires field.Amount? || field.ForeignAmount? || field.GrossAmount? || field.NetAmount? || field.TaxAmount? || field.TaxRate?
    requires (d1 == []) == (d2 == [])
    requires Sum(d1, AmountColumn) == Sum(d2, AmountColumn) && Sum(d1, ForeignAmountColumn) == Sum(d2, ForeignAmountColumn)
    ensures Lookup(d1, vat, sales, ref, field, numchars) == Lookup(d2, vat, sales, ref, field, numchars)
  {
    if d1 == [] {
      assert |d2| == 0;
    } else if field.Amount? {
      assert field == Amount;
      assert Lookup(d1, vat, sales, ref, Amount, numchars) == Lookup(d2, vat, sales, ref, Amount, numchars);
    } else if field.ForeignAmount? {
      assert field == ForeignAmount;
      assert Lookup(d1, vat, sales, ref, ForeignAmount, numchars) == Lookup(d2, vat, sales, ref, ForeignAmount, numchars);
    } else if field.GrossAmount? {
      assert field == GrossAmount;
      assert Lookup(d1, vat, sales, ref, GrossAmount, numchars) == Lookup(d2, vat, sales, ref, GrossAmount, numchars);
    } else if field.NetAmount? {
      assert field == NetAmount;
      assert Lookup(d1, vat, sales, ref, NetAmount, numchars) == Lookup(d2, vat, sales, ref, NetAmount, numchars);
    } else if field.TaxAmount? {
      assert field == TaxAmount;
      assert Lookup(d1, vat, sales, ref, TaxAmount, numchars) == Lookup(d2, vat, sales, ref, TaxAmount, numchars);
    } else {
      assert field == TaxRate;
      assert Lookup(d1, vat, sales, ref, TaxRate, numchars) == Lookup(d2, vat, sales, ref, TaxRate, numchars);
    }
  }

  /** The amount-based fields give the same answer however the journal rows are ordered. */
  lemma AggregatesIgnoreRowOrder(j1: seq<Entry>, j2: seq<Entry>, i: Cell, field: Field, numchars: int,
                                 recordType: seq<string>)
    requires multiset(j1) == multiset(j2)
    requires field.Amount? || field.ForeignAmount? || field.GrossAmount? || field.NetAmount? || field.TaxAmount? || field.TaxRate?
    ensures UsingReferenceGet(j1, i, field, numchars, recordType) == UsingReferenceGet(j2, i, field, numchars, recordType)
  {
    var ref := RefText(i);
    var d1, d2 := Debtors(j1, i, recordType), Debtors(j2, i, recordType);
    assert (d1 == []) == (d2 == []) by {
      forall e | e in j1 ensures e in j2 { assert e in multiset(j1); }
      forall e | e in j2 ensures e in j1 { assert e in multiset(j2); }
    }
    SelectedSumIgnoresOrder(j1, j2, recordType, DebtorsControl, ref, AmountColumn);
    SelectedSumIgnoresOrder(j1, j2, recordType, DebtorsControl, ref, ForeignAmountColumn);
    SelectedSumIgnoresOrder(j1, j2, recordType, VatControl, ref, AmountColumn);
    SelectedSumIgnoresOrder(j1, j2, recordType, NetSales, ref, AmountColumn);
    LookupReadsOnlySums(d1, d2, Sum(Vat(j1, i, recordType), AmountColumn), Sum(Sales(j1, i, recordType), AmountColumn),
                        ref, field, numchars);
  }

  /** GROSS_AMOUNT is the AMOUNT sum under another name. */
  lemma GrossIsAmount(journal: seq<Entry>, i: Cell, numchars: int, recordType: seq<string>)
    ensures UsingReferenceGet(journal, i, GrossAmount, numchars, recordType)
         == UsingReferenceGet(journal, i, Amount, numchars, recordType)
  {
  }

  /**
   * NET_AMOUNT and TAX_AMOUNT split GROSS_AMOUNT exactly: the three succeed
   * or fail together, and net + tax == gross.
   */
  lemma NetPlusTaxIsGross(journal: seq<Entry>, i: Cell, numchars: int, recordType: seq<string>)
    ensures var gross := UsingReferenceGet(journal, i, GrossAmount, numchars, recordType);
            var net := UsingReferenceGet(journal, i, NetAmount, numchars, recordType);
            var tax := UsingReferenceGet(journal, i, TaxAmount, numchars, recordType);
      && (gross.Failure? <==> net.Failure?) && (gross.Failure? <==> tax.Failure?)
      && (gross.Success? ==> gross.value.Money? && net.value.Money? && tax.value.Money?
                             && net.value.pence + tax.value.pence == gross.value.pence)
  {
  }

  /** A row of another invoice, added before or after the table, changes no lookup of invoice `i`. */
  lemma UnrelatedRowIgnored(journal: seq<Entry>, e: Entry, i: Cell, field: Field, numchars: int,
                            recordType: seq<string>)
    requires e.invRef != Str(RefText(i))
    ensures UsingReferenceGet(journal + [e], i, field, numchars, recordType)
         == UsingReferenceGet(journal, i, field, numchars, recordType)
    ensures UsingReferenceGet([e] + journal, i, field, numchars, recordType)
         == UsingReferenceGet(journal, i, field, numchars, recordType)
  {
    var ref := RefText(i);
    UnrelatedRowNotSelected(journal, e, recordType, DebtorsControl, ref);
    UnrelatedRowNotSelected(journal, e, recordType, VatControl, ref);
    UnrelatedRowNotSelected(journal, e, recordType, NetSales, ref);
  }

  lemma UnrelatedRowNotSelected(journal: seq<Entry>, e: Entry, recordType: seq<string>, account: string, ref: string)
    requires e.invRef != Str(ref)
    ensures Matching(journal + [e], recordType, account, ref) == Matching(journal, recordType, account, ref)
    ensures Matching([e] + journal, recordType, account, ref) == Matching(journal, recordType, account, ref)
  {
    MatchingAppend(journal, [e], recordType, account, ref);
    MatchingAppend([e], journal, recordType, account, ref);
    assert Matching([e], recordType, account, ref) == [];
    assert Matching(journal, recordType, account, ref) + [] == Matching(journal, recordType, account, ref);
  }

  /**
   * DETAILS and EXTRA_REF give a prefix of the matching rows' text joined in
   * table order, never longer than `numchars`.
   */
  lemma TruncatedConcatenation(journal: seq<Entry>, i: Cell, field: Field, numchars: int, recordType: seq<string>)
    requires field == Details || field == ExtraRef
    requires Debtors(journal, i, recordType) != []
    ensures var r := UsingReferenceGet(journal, i, field, numchars, recordType);
            var all := Cat(Debtors(journal, i, recordType), if field == Details then DetailsColumn else ExtraRefColumn);
      && r.Success? && r.value.TextValue?
      && r.value.s <= all
      && (numchars >= 0 ==> |r.value.s| == Min(numchars, |all|) && |r.value.s| <= numchars)
  {
  }

  /**
   * The single-valued fields come from the first row of the match in table
   * order; OUTSTANDING is rounded.
   */
  lemma FirstRowFields(journal: seq<Entry>, i: Cell, numchars: int, recordType: seq<string>)
    requires Debtors(journal, i, recordType) != []
    ensures var d := Debtors(journal, i, recordType)[0];
      && (exists k :: 0 <= k < |journal| && journal[k] == d
                      && forall j :: 0 <= j < k ==> !Selected(journal[j], recordType, DebtorsControl, RefText(i)))
      && UsingReferenceGet(journal, i, TranNumber, numchars, recordType) == Success(IntValue(d.tranNumber))
      && UsingReferenceGet(journal, i, TranDate, numchars, recordType) == Success(DateValue(d.date))
      && UsingReferenceGet(journal, i, TranType, numchars, recordType) == Success(TextValue(d.tranType))
      && UsingReferenceGet(journal, i, AccountRef, numchars, recordType) == Success(CellValue(d.accountRef))
      && UsingReferenceGet(journal, i, AltRef, numchars, recordType) == Success(TextValue(d.altRef))
      && UsingReferenceGet(journal, i, InvRef, numchars, recordType) == Success(CellValue(d.invRef))
      && UsingReferenceGet(journal, i, TaxCode, numchars, recordType) == Success(TextValue(d.taxCode))
      && UsingReferenceGet(journal, i, BankFlag, numchars, recordType) == Success(TextValue(d.bankFlag))
      && UsingReferenceGet(journal, i, DateBankReconciled, numchars, recordType)
           == Success(OptionalDate(d.dateBankReconciled))
      && UsingReferenceGet(journal, i, Outstanding, numchars, recordType) == Success(Money(P(d.outstanding)))
  {
    var df := Debtors(journal, i, recordType);
    var vat := Sum(Vat(journal, i, recordType), AmountColumn);
    var sales := Sum(Sales(journal, i, recordType), AmountColumn);
    LookupFirstRow(df, vat, sales, RefText(i), numchars);
  }

  lemma LookupFirstRow(df: seq<Entry>, vat: int, sales: int, ref: string, numchars: int)
    requires df != []
    ensures && Lookup(df, vat, sales, ref, TranNumber, numchars) == Success(IntValue(df[0].tranNumber))
            && Lookup(df, vat, sales, ref, TranDate, numchars) == Success(DateValue(df[0].date))
            && Lookup(df, vat, sales, ref, TranType, numchars) == Success(TextValue(df[0].tranType))
            && Lookup(df, vat, sales, ref, AccountRef, numchars) == Success(CellValue(df[0].accountRef))
            && Lookup(df, vat, sales, ref, AltRef, numchars) == Success(TextValue(df[0].altRef))
            && Lookup(df, vat, sales, ref, InvRef, numchars) == Success(CellValue(df[0].invRef))
            && Lookup(df, vat, sales, ref, TaxCode, numchars) == Success(TextValue(df[0].taxCode))
            && Lookup(df, vat, sales, ref, BankFlag, numchars) == Success(TextValue(df[0].bankFlag))
            && Lookup(df, vat, sales, ref, DateBankReconciled, numchars) == Success(OptionalDate(df[0].dateBankReconciled))
            && Lookup(df, vat, sales, ref, Outstanding, numchars) == Success(Money(P(df[0].outstanding)))
  {
  }

  /** Three debtors lines of 100.00, 50.00 and -10.00 on invoice "500" add up to 140.00. */
  lemma AmountOfThreeLines(base: Entry)
    ensures var e1 := base.(tranType := "SI", accountRef := Str("1100"), invRef := Str("500"), amount := 10000);
            var e2 := e1.(amount := 5000);
            var e3 := e1.(amount := -1000);
            UsingReferenceGet([e1, e2, e3], Str("500"), Amount, DefaultNumChars, ["SI"]) == Success(Money(14000))
  {
    var e1 := base.(tranType := "SI", accountRef := Str("1100"), invRef := Str("500"), amount := 10000);
    var e2 := e1.(amount := 5000);
    var e3 := e1.(amount := -1000);
    assert [e1, e2, e3][1..] == [e2, e3] && [e2, e3][1..] == [e3] && [e3][1..] == [];
    var si: seq<string> := ["SI"];
    assert Matching([e3], si, DebtorsControl, "500") == [e3];
    assert Matching([e2, e3], si, DebtorsControl, "500") == [e2, e3];
    var df := Debtors([e1, e2, e3], Str("500"), si);
    assert df == [e1, e2, e3];
    assert Sum([e3], AmountColumn) == -1000;
    assert Sum([e2, e3], AmountColumn) == 4000;
    assert Sum(df, AmountColumn) == 14000;
    var vat := Sum(Vat([e1, e2, e3], Str("500"), si), AmountColumn);
    var sales := Sum(Sales([e1, e2, e3], Str("500"), si), AmountColumn);
    assert UsingReferenceGet([e1, e2, e3], Str("500"), Amount, DefaultNumChars, si)
        == Lookup(df, vat, sales, "500", Amount, DefaultNumChars);
  }
}
