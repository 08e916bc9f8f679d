/**
 * The audit queries over the journal: the customer accounts with
 * unallocated receipts (`list_of_accounts_with_unmatched_receipts`) and the
 * checks for transactions on a day or within a month
 * (`check_for_transactions_on_this_day`, `check_for_transactions_in_the_month`,
 * `detailed_check_for_transactions_in_the_month`).
 *
 * The checks return what their message is built from (whether anything was
 * found, the reserved code 0, the number of rows and the first row) rather
 * than the formatted sentence. Month windows are given as their first and
 * last day.
 */
module Audit {

  import opened Base
  import opened Strings
  import opened Ledger

  // ---------------------------------------------------------------------
  // Unmatched receipts
  // ---------------------------------------------------------------------

  /** A sales receipt that has not been allocated to an invoice. */
  predicate UnmatchedReceipt(e: Entry)
  {
    e.tranType == "SA" && e.paidFlag == "N"
  }

  /**
   * The customer accounts (ALT_REF) of the unallocated receipts, without
   * duplicates and in ascending order.
   */
  function UnmatchedReceiptAccounts(journal: seq<Entry>): (r: seq<string>)
    ensures StrictlySorted(r)
    ensures forall a :: a in r <==> exists e :: e in journal && UnmatchedReceipt(e) && e.altRef == a
  {
    if journal == [] then []
    else
      var init := journal[..|journal| - 1];
      var last := journal[|journal| - 1];
      assert journal == init + [last];
      var accounts := UnmatchedReceiptAccounts(init);
      if UnmatchedReceipt(last) then Insert(last.altRef, accounts) else accounts
  }

  /** Which rows come first does not change the list. */
  lemma UnmatchedAccountsIgnoreOrder(j1: seq<Entry>, j2: seq<Entry>)
    requires multiset(j1) == multiset(j2)
    ensures UnmatchedReceiptAccounts(j1) == UnmatchedReceiptAccounts(j2)
  {
    var (a, b) := (UnmatchedReceiptAccounts(j1), UnmatchedReceiptAccounts(j2));
    forall x ensures x in a <==> x in b {
      if x in a {
        var e :| e in j1 && UnmatchedReceipt(e) && e.altRef == x;
        assert e in multiset(j2);
      }
      if x in b {
        var e :| e in j2 && UnmatchedReceipt(e) && e.altRef == x;
        assert e in multiset(j1);
      }
    }
    SortedWithSameElements(a, b);
  }

  /** Every element of a non-empty strictly sorted list is its head or above it. */
  lemma HeadIsLeast(a: seq<string>, x: string)
    requires StrictlySorted(a) && x in a
    ensures x == a[0] || Less(a[0], x)
  {
  }

  lemma BothEmptyOrNeither(a: seq<string>, b: seq<string>)
    requires forall x :: x in a <==> x in b
    ensures a == [] <==> b == []
  {
    if a != [] {
      assert a[0] in b;
    }
    if b != [] {
      assert b[0] in a;
    }
  }

  /** Two strictly sorted lists with the same elements are equal. */
  lemma {:induction false} SortedWithSameElements(a: seq<string>, b: seq<string>)
    requires StrictlySorted(a) && StrictlySorted(b)
    requires forall x :: x in a <==> x in b
    ensures a == b
    decreases |a|
  {
    BothEmptyOrNeither(a, b);
    if a != [] && b != [] {
      if a[0] == b[0] {
        forall x ensures x in a[1..] <==> x in b[1..] {
          if x in a[1..] {
            var i :| 1 <= i < |a| && a[i] == x;
            if x == b[0] {
              LessIrreflexive(x);
            }
            assert x in b && b == [b[0]] + b[1..];
          }
          if x in b[1..] {
            var j :| 1 <= j < |b| && b[j] == x;
            if x == a[0] {
              LessIrreflexive(x);
            }
            assert x in a && a == [a[0]] + a[1..];
          }
        }
        SortedWithSameElements(a[1..], b[1..]);
        assert a == [a[0]] + a[1..] && b == [b[0]] + b[1..];
      } else {
        LessTotal(a[0], b[0]);
        if Less(a[0], b[0]) {
          assert a[0] in b;
          var j :| 0 <= j < |b| && b[j] == a[0];
          if j > 0 {
            LessTransitive(a[0], b[0], b[j]);
          }
          LessIrreflexive(a[0]);
        } else {
          HeadIsLeast(a, b[0]);
          assert false;
        }
      }
    }
  }

  // ---------------------------------------------------------------------
  // Day and month checks
  // ---------------------------------------------------------------------

  /** The row conditions of the checks. */
  datatype Criterion =
    | OnDay(tranType: string, account: string, date: Date)
    | InMonth(accountRef: Cell, start: Date, end: Date)
    | InMonthWithDetails(accountRef: Cell, start: Date, end: Date, details: string)

  predicate Meets(e: Entry, c: Criterion)
  {
    match c
    case OnDay(t, a, d) => e.tranType == t && e.altRef == a && e.date == d
    case InMonth(r, st, en) => e.accountRef == r && st <= e.date <= en
    case InMonthWithDetails(r, st, en, d) => e.accountRef == r && st <= e.date <= en && e.details == d
  }

  /** The rows that meet a condition, in table order. */
  function Select(es: seq<Entry>, c: Criterion): (r: seq<Entry>)
    ensures |r| <= |es|
    ensures forall e :: e in r <==> e in es && Meets(e, c)
    ensures r != [] ==> exists k :: 0 <= k < |es| && es[k] == r[0] && forall j :: 0 <= j < k ==> !Meets(es[j], c)
  {
    if es == [] then []
    else
      var rest := Select(es[1..], c);
      if Meets(es[0], c) then [es[0]] + rest
      else
        assert rest != [] ==> exists k :: 1 <= k < |es| && es[k] == rest[0] && forall j :: 0 <= j < k ==> !Meets(es[j], c) by {
          if rest != [] {
            var k :| 0 <= k < |es[1..]| && es[1..][k] == rest[0] && forall j :: 0 <= j < k ==> !Meets(es[1..][j], c);
            assert forall j :: 1 <= j < k + 1 ==> es[j] == es[1..][j - 1];
          }
        }
        rest
  }

  /** The selection keeps every row meeting the condition as often as the journal holds it, and no other row. */
  lemma {:induction false} SelectCounts(es: seq<Entry>, c: Criterion)
    ensures forall e :: multiset(Select(es, c))[e] == if Meets(e, c) then multiset(es)[e] else 0
    decreases |es|
  {
    if es != [] {
      SelectCounts(es[1..], c);
      assert es == [es[0]] + es[1..];
    }
  }

  /** What a check reports: found or not, the reserved code, the number of rows and the first row. */
  datatype Report = Report(found: bool, code: int, count: nat, first: Option<Entry>)

  /** The report over the rows that met a check's condition. */
  function Summarise(rows: seq<Entry>): (r: Report)
    ensures r.code == 0 && r.count == |rows|
    ensures r.found <==> rows != []
    ensures r.first.Some? <==> r.found
    ensures r.found ==> r.first.value == rows[0]
  {
    if |rows| == 0 then Report(false, 0, 0, None) else Report(true, 0, |rows|, Some(rows[0]))
  }

  /** The first row of the table that meets `c`. */
  predicate FirstMeeting(journal: seq<Entry>, e: Entry, c: Criterion)
  {
    Meets(e, c) && exists k :: 0 <= k < |journal| && journal[k] == e && forall j :: 0 <= j < k ==> !Meets(journal[j], c)
  }

  /** A report is the one for condition `c` over the journal. */
  predicate Reports(journal: seq<Entry>, c: Criterion, r: Report)
  {
    && r.code == 0
    && r.count == |Select(journal, c)|
    && (r.found <==> exists e :: e in journal && Meets(e, c))
    && (r.found ==> r.count > 0 && r.first.Some? && FirstMeeting(journal, r.first.value, c))
    && (!r.found ==> r.count == 0 && r.first.None?)
  }

  /** `check_for_transactions_on_this_day`: rows of one type for one customer account on one day. */
  function CheckForTransactionsOnThisDay(journal: seq<Entry>, tranType: string, account: string, date: Date): (r: Report)
    ensures Reports(journal, OnDay(tranType, account, date), r)
  {
    Summarise(Select(journal, OnDay(tranType, account, date)))
  }

  /**
   * `check_for_transactions_in_the_month` as written: the nominal account
   * column is compared with `int(account)`, so `account` must read as a
   * number and only rows holding that number can match.
   */
  function CheckForTransactionsInTheMonth(journal: seq<Entry>, account: string, start: Date, end: Date): (r: Result<Report>)
    ensures r.Failure? <==> !IsDigits(account)
    ensures r.Failure? ==> r.error == ValueError(account)
    ensures r.Success? ==> Reports(journal, InMonth(Num(DigitsValue(account)), start, end), r.value)
  {
    match ParseInt(account)
    case None => Failure(ValueError(account))
    case Some(n) => Success(Summarise(Select(journal, InMonth(Num(n), start, end))))
  }

  /** `detailed_check_for_transactions_in_the_month` as written: the month check narrowed to one DETAILS text. */
  function DetailedCheckForTransactionsInTheMonth(journal: seq<Entry>, account: string, start: Date, end: Date,
                                                  details: string): (r: Result<Report>)
    ensures r.Failure? <==> !IsDigits(account)
    ensures r.Failure? ==> r.error == ValueError(account)
    ensures r.Success? ==> Reports(journal, InMonthWithDetails(Num(DigitsValue(account)), start, end, details), r.value)
  {
    match ParseInt(account)
    case None => Failure(ValueError(account))
    case Some(n) => Success(Summarise(Select(journal, InMonthWithDetails(Num(n), start, end, details))))
  }

  /**
   * The journal's nominal account column holds text, both as fetched and as
   * restored from a snapshot, so the month checks as written never find a
   * row.
   */
  lemma MonthChecksNeverFind(journal: seq<Entry>, account: string, start: Date, end: Date, details: string)
    requires forall k :: 0 <= k < |journal| ==> journal[k].accountRef.Str?
    ensures var r := CheckForTransactionsInTheMonth(journal, account, start, end);
      r.Failure? || !r.value.found
    ensures var r := DetailedCheckForTransactionsInTheMonth(journal, account, start, end, details);
      r.Failure? || !r.value.found
  {
  }

  /** The month check as evidently intended: the account compared as text. */
  function CheckForTransactionsInTheMonthByText(journal: seq<Entry>, account: string, start: Date, end: Date): (r: Report)
    ensures Reports(journal, InMonth(Str(account), start, end), r)
  {
    Summarise(Select(journal, InMonth(Str(account), start, end)))
  }

  /** The detailed month check as evidently intended. */
  function DetailedCheckForTransactionsInTheMonthByText(journal: seq<Entry>, account: string, start: Date, end: Date,
                                                        details: string): (r: Report)
    ensures Reports(journal, InMonthWithDetails(Str(account), start, end, details), r)
  {
    Summarise(Select(journal, InMonthWithDetails(Str(account), start, end, details)))
  }

  /**
   * One bank-account row dated inside the window: the check as written
   * reports nothing, the corrected check finds it.
   */
  lemma MonthCheckMissesRow(e: Entry)
    requires e.accountRef == Str("1200") && e.date == 15
    ensures CheckForTransactionsInTheMonth([e], "1200", 1, 31).Success?
    ensures !CheckForTransactionsInTheMonth([e], "1200", 1, 31).value.found
    ensures CheckForTransactionsInTheMonthByText([e], "1200", 1, 31).found
    ensures CheckForTransactionsInTheMonthByText([e], "1200", 1, 31).first == Some(e)
  {
    assert IsDigits("1200");
    assert e in [e] && Meets(e, InMonth(Str("1200"), 1, 31));
  }

  /** The same row with its DETAILS: the detailed check as written misses it, the corrected one finds it. */
  lemma DetailedMonthCheckMissesRow(e: Entry)
    requires e.accountRef == Str("1200") && e.date == 15 && e.details == "Bank charges"
    ensures DetailedCheckForTransactionsInTheMonth([e], "1200", 1, 31, "Bank charges").Success?
    ensures !DetailedCheckForTransactionsInTheMonth([e], "1200", 1, 31, "Bank charges").value.found
    ensures DetailedCheckForTransactionsInTheMonthByText([e], "1200", 1, 31, "Bank charges").found
    ensures DetailedCheckForTransactionsInTheMonthByText([e], "1200", 1, 31, "Bank charges").first == Some(e)
  {
    assert IsDigits("1200");
    assert e in [e] && Meets(e, InMonthWithDetails(Str("1200"), 1, 31, "Bank charges"));
  }
}
