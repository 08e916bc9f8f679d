# pySage50 core in Dafny

pySage50 puts a small interface in front of a Sage Line 50 accounting
database. It copies three tables (the audit journal, the invoice headers and
the invoice lines) into memory. It keeps JSON snapshots of those tables,
which are meant to be reused while a stored high-water mark (the highest
transaction number) still matches the database; as written, the code reuses
them when the mark is missing, 0 or different, and refetches when it matches.
It answers per-invoice questions by
filtering and summing journal rows. It also enriches a customer's remittance
document with those figures and checks that the totals reconcile.

The model has six modules:

- `Base` (`base.dfy`) holds the shared types:
  - `Result` values for the exceptions the code raises;
  - identifier `Cell`s, which are text as fetched but may come back from a snapshot as numbers;
  - the money rounding function `P`.
- `Strings` (`strings.dfy`) covers the pieces of Python the code relies on:
  - `str(n)`;
  - how a JSON reader reads digit strings;
  - `int(s)`;
  - the code-point order used by `list.sort()`.
- `Ledger` (`ledger.dfy`) models `Sage.using_reference_get` over the journal rows.
- `Snapshot` (`snapshot.dfy`) has four parts:
  - the freshness check `check_cache_upto_date`;
  - the read-or-fetch `get_dataframe_sage_odbc_query`, with its loop that coerces columns back to strings;
  - a `Store` class for the snapshot files;
  - the `Sage` class with its three table fields, its constructor, `update_cache` and `load_data`.
- `Remittance` (`remittance.dfy`) models `Sage.get_field` and `Sage.enrich_remittance_doc`:
  - a `RemittanceDoc` class that is changed in place;
  - its specification function `Enrich`.
- `Audit` (`audit.dfy`) covers the rest:
  - the sorted list of accounts with unallocated receipts;
  - the day check;
  - both month checks.

Money is a whole number of pence and `P` (the rounding function `p` the
package imports) is the identity. The database is a `Source` value that
holds its current maximum transaction number and the rows of each query.
The JSON files are a `Store` object that holds an optional check file and
a map from file name to snapshot. The lookups, `get_field` and the audit
queries read `self.sqldata`, so they take the journal rows as a parameter.

## Behaviour of the code

The model follows the code. In two places the code does something other
than its own comments and names suggest:

- **Identifiers through a snapshot.** The comment at pysage50/sage.py:82-83 says that the loop at :84-85 turns identifiers that the JSON reader made into integers back into strings.
  - A JSON reader converts an identifier column only when every cell in it reads as a number (`Snapshot.ColumnConverts`).
  - The loop prints those numbers back as text, so a converted column loses its leading zeros: `"00123"` comes back as `"123"` (`Snapshot.LeadingZerosLost`).
  - In a column that also holds text that is not a number, nothing is converted and `"00123"` survives (`Snapshot.TextColumnKeepsLeadingZeros`).
  - `Snapshot.SnapshotRoundTrip` states exactly when a journal comes back unchanged, with the numbers read as exact integers (see `Snapshot.RestoreCell` under "## Left out" for identifiers of 2^53 and above).
- **Which verdict reads the snapshot.** `check_cache_upto_date` returns `update_cache`, which is true when the cache must be refreshed (:68-69).
  - `load_data` stores that verdict as `cache_is_upto_date` (:150) and passes it on as `cache_upto_date`, which at :79 selects the snapshot.
  - So a stale verdict reads the snapshots and a current one refetches. The model keeps this as written (`Snapshot.StaleVerdictReadsSnapshots`, `Snapshot.CurrentMarkRefetches`).

Other consequences of the code that the model proves:

- **Invoice snapshots.** On the cache path every table has its `ACCOUNT_REF` and `INV_REF` columns converted (:84-85), but the invoice tables have no such columns. The KeyError is not caught, because :86 catches only FileNotFoundError and ValueError. Once the invoice snapshot exists and parses as JSON, `load_data` raises on every stale verdict (a corrupt file raises ValueError, which :86 catches, and the table is refetched) (`Snapshot.StaleVerdictReadsSnapshots`).
- **Tables from different generations.** Each query falls back to the database on its own (:79-91), so the journal can come from a snapshot while the invoice tables come from the database (`Snapshot.MixedGenerations`).
- **Second freshness check.** A second check in a row reports the cache current only when the database's maximum is nonzero (:68, `Snapshot.CheckTwice`).
- **Reconciliation checks.** The checks at :243 and :250 never fail:
  - rows with member code `'4552'` are never enriched (:211), so they add nothing to the gross total;
  - with exact pence, net + VAT equals gross row by row (:179-194).

  This is `Remittance.ReconciliationNeverFails`.
- **Zero tax-rate denominator.** When the net-sales total is zero, the tax-rate formula at :200 divides by zero. The code raises ZeroDivisionError, and the model returns `Failure(ZeroDivision)`.

## Model

| member | source | states |
|---|---|---|
| Strings.Natural | pysage50/sage.py:168 | `str` of a natural number is a non-empty digit string without a leading zero, ending in the last decimal digit |
| Strings.Decimal | pysage50/sage.py:168 | `str(i)` of an integer: canonical digits, with a minus sign in front for negative numbers |
| Strings.ValueOfNatural | pysage50/sage.py:81-85 | reading the digits `str` printed gives back the same number |
| Strings.NaturalOfValue | pysage50/sage.py:81-85 | a canonical digit string read as a number and printed again is the same string |
| Strings.ParseInt | pysage50/sage.py:265 | `int(s)` succeeds exactly on digit strings, and on canonical ones it inverts `str` |
| Strings.Insert | pysage50/sage.py:326-327 | adding to a strictly sorted list keeps it strictly sorted, and its elements are the old ones plus the new one |
| Ledger.Matching | pysage50/sage.py:166-169 | every filtered row is a journal row of the record types, account and reference; the result is empty iff no such row exists; its first row is the first such row in table order |
| Ledger.MatchingCounts | pysage50/sage.py:166-169 | the filter keeps each selected row exactly as many times as the journal holds it, and no other row |
| Ledger.Debtors | pysage50/sage.py:166-169 | a row is in the result iff it is a journal row of the record types on the debtors-control account (1100) with INV_REF `str(i)`; how many times each appears is stated by `Ledger.MatchingCounts` |
| Ledger.Vat | pysage50/sage.py:184-187 | a row is in the result iff it is a journal row of the record types on the VAT-control account (2200) with INV_REF `str(i)`; how many times each appears is stated by `Ledger.MatchingCounts` |
| Ledger.Sales | pysage50/sage.py:196-199 | a row is in the result iff it is a journal row of the record types on the net-sales account (4000) with INV_REF `str(i)`; how many times each appears is stated by `Ledger.MatchingCounts` |
| Ledger.RatePercent | pysage50/sage.py:200 | the rate r satisfies r × net == 100 × (gross − net); it is 0 iff gross == net, and for a positive net it is positive iff gross > net |
| Ledger.Cat | pysage50/sage.py:202 | `str.cat()` is empty iff every row's text is empty, and starts with the first row's text |
| Ledger.PySlice | pysage50/sage.py:202 | `s[:n]` is a prefix of `s` of length min(n, \|s\|), or \|s\|+n for negative n |
| Ledger.FieldNamed | pysage50/sage.py:172-204 | a field name denotes the dispatched field with that column name, and denotes `Other` iff it is none of the known names |
| Ledger.UsingReferenceGet | pysage50/sage.py:161-204 | fails with "no data" for reference i iff no debtors-control row matches, whatever the field; fails as an unmatched field iff rows match and the field is unknown; fails with a zero division iff rows match, the field is TAX_RATE and the net-sales total is 0; nothing else fails |
| Ledger.Lookup | pysage50/sage.py:170-204 | the field dispatch: the empty match set reports "no data" first; an unknown field is an unmatched-field error; TAX_RATE over a zero sales total raises; every other case succeeds |
| Ledger.SelectedSumIgnoresOrder | pysage50/sage.py:179-180 | the sum over the selected rows depends only on the multiset of journal rows |
| Ledger.AggregatesIgnoreRowOrder | pysage50/sage.py:179-200 | AMOUNT, FOREIGN_AMOUNT, GROSS_AMOUNT, NET_AMOUNT, TAX_AMOUNT and TAX_RATE are the same for any reordering of the journal |
| Ledger.GrossIsAmount | pysage50/sage.py:179-182 | GROSS_AMOUNT equals AMOUNT for every journal, reference and record type |
| Ledger.NetPlusTaxIsGross | pysage50/sage.py:179-194 | NET_AMOUNT, TAX_AMOUNT and GROSS_AMOUNT fail together, and on success net + tax == gross |
| Ledger.UnrelatedRowIgnored | pysage50/sage.py:166-169 | a row with another invoice reference, appended or prepended, changes no lookup |
| Ledger.TruncatedConcatenation | pysage50/sage.py:201-202 | DETAILS/EXTRA_REF is a prefix of the matched rows' text joined in table order, of length min(numchars, total) and never longer than numchars |
| Ledger.FirstRowFields | pysage50/sage.py:172-178 | the single-valued fields are those of the first matching row in table order, OUTSTANDING rounded |
| Ledger.AmountOfThreeLines | pysage50/sage.py:179-180 | three lines of 100.00, 50.00 and -10.00 on invoice "500" give AMOUNT 140.00 |
| Snapshot.CacheNeedsUpdate | pysage50/sage.py:57-68 | a missing or unparseable check file reads as mark 0 and means stale; a file without the key raises KeyError; otherwise the answer is "not stale" iff the stored mark equals a nonzero current maximum |
| Snapshot.CheckCacheUpToDate | pysage50/sage.py:48-69 | returns the freshness verdict for the stored mark and writes the current maximum back whenever the read did not raise |
| Snapshot.CheckAfterWriteBack | pysage50/sage.py:64-68 | after the write-back, a check against the same nonzero maximum reports the cache current |
| Snapshot.CheckTwice | pysage50/sage.py:48-69 | of two checks in a row, the second reports current when the maximum is nonzero and stale when it is 0; if the first raises, so does the second, and the file is unchanged |
| Snapshot.Narrow | pysage50/sage.py:81 | in a column the JSON reader converts, a cell becomes a number exactly when it is a number or a digit string |
| Snapshot.AsStr | pysage50/sage.py:85 | `astype('str')` always yields text and leaves text alone |
| Snapshot.Narrowed | pysage50/sage.py:81 | reading a snapshot keeps the kind of table, the number of journal rows and every non-identifier field; an identifier column becomes all numbers when every cell of it reads as one, and is otherwise left exactly as written |
| Snapshot.CoerceColumn | pysage50/sage.py:84-85 | converting one identifier column touches only that column of every journal row and raises KeyError on a table without it |
| Snapshot.CoercionRestoresText | pysage50/sage.py:84-85 | after the coercion loop every identifier is text, nothing else changed, and a table other than the journal raises KeyError on ACCOUNT_REF |
| Snapshot.ReadSnapshot | pysage50/sage.py:80-87 | reading succeeds iff the file exists and is JSON, giving the narrowed table; a failure is FileNotFoundError or ValueError |
| Snapshot.Query | pysage50/sage.py:72-93 | with the flag set and a readable snapshot, the files are unchanged and the result is a journal with text identifiers or a KeyError; otherwise the fetched table is returned and stored under `name + '.json'`, all other files unchanged |
| Snapshot.GetDataframeSageOdbcQuery | pysage50/sage.py:72-93 | the method, with its coercion loop, returns the table and leaves the files that `Query` specifies |
| Snapshot.RestoreCell | pysage50/sage.py:81-85 | in a converted column, a text identifier comes back unchanged iff it is not all digits or has no leading zero, numbers being read as exact integers |
| Snapshot.LeadingZerosLost | pysage50/sage.py:81-92 | a one-row journal with ACCOUNT_REF "1100" and INV_REF "00123", written and read back on the cache path, comes back with INV_REF "123" |
| Snapshot.TextColumnKeepsLeadingZeros | pysage50/sage.py:81-92 | the same "00123" beside an INV_REF "BACS" comes back unchanged, because the reader leaves that column as text |
| Snapshot.SnapshotRoundTrip | pysage50/sage.py:81-92 | a journal written to its snapshot and read back on the cache path is unchanged iff each identifier column either is not converted or has no digit string with a leading zero, numbers being read as exact integers |
| Snapshot.CacheFlag | pysage50/sage.py:148-152 | the flag `load_data` passes on: false when forced; otherwise the check's KeyError for a check file without the mark, and true (read the snapshots) iff the check finds the cache stale |
| Snapshot.Load | pysage50/sage.py:153-159 | the three queries in order; tables are assigned in order up to the first exception; with the flag false all three come from the source and all three files are overwritten |
| Snapshot.Sage.LoadData | pysage50/sage.py:148-159 | a forced refresh skips the check; otherwise a raising check changes nothing, and a successful one writes the mark; then the tables and files are those of `Load` under that flag |
| Snapshot.Sage.UpdateCache | pysage50/sage.py:145-146 | all three tables come from the source, the snapshot files are overwritten and the check file is untouched |
| Snapshot.Sage.constructor | pysage50/sage.py:138-146 | construction takes the forced-refresh path |
| Snapshot.CurrentMarkRefetches | pysage50/sage.py:148-159 | when the check file holds the current nonzero maximum, `load_data` fetches everything from the source |
| Snapshot.StaleVerdictReadsSnapshots | pysage50/sage.py:148-159 | on a stale verdict the journal comes from its snapshot with text identifiers, and a readable invoice snapshot makes the load raise KeyError, leaving the files unchanged |
| Snapshot.MixedGenerations | pysage50/sage.py:153-159 | with only the journal snapshot present, a stale verdict loads the journal from the snapshot and the invoice tables from the source |
| Remittance.GetField | pysage50/sage.py:206-220 | nothing iff the member code is '4552'/'4424' or the type is neither Invoice nor Credit Note; an invoice looks up SI; a credit note looks up SC when SC rows match (known field), and SI when none do |
| Remittance.GetFieldErrors | pysage50/sage.py:209-220 | for a known field, a row raises only "no data" or a zero division |
| Remittance.Series | pysage50/sage.py:229-230 | a series that exists has one cell per document row |
| Remittance.ApplyIsRowwise | pysage50/sage.py:229-230 | applying a function to every row holds its value for each row, and fails iff some row raises, with the first such row's exception |
| Remittance.SeriesIsRowwise | pysage50/sage.py:229-230 | `get_series(field)` holds `get_field` of every row, or the exception of a row that raised |
| Remittance.Scaled | pysage50/sage.py:236 | dividing the tax-rate series by 100 keeps empty cells empty |
| Remittance.ScaledColumn | pysage50/sage.py:236 | the scaled column has one scaled cell per row |
| Remittance.Enrich | pysage50/sage.py:222-254 | `checked` changes only when one of the two checks fails, and then becomes false; columns other than the five derived ones are kept |
| Remittance.EnrichRemittanceDoc | pysage50/sage.py:222-254 | the method leaves the outcome, columns and flag that `Enrich` specifies |
| Remittance.EnrichWritesSeries | pysage50/sage.py:232-236 | once every series exists, all five columns are written (tax rate / 100) before the checks, whatever they decide |
| Remittance.RowSplits | pysage50/sage.py:232-235 | for one row, net, VAT and gross succeed together and net + VAT == gross |
| Remittance.TotalAppend | pysage50/sage.py:237-239 | `sum()` of a column split in two is the sum of the two parts' sums |
| Remittance.TotalExcept | pysage50/sage.py:249 | the gross total over the rows whose member code is not `code`: the whole total when no row has that code, 0 when every row has it |
| Remittance.TotalsAdd | pysage50/sage.py:237-243 | if every row's net and VAT add up to its gross, so do the column totals |
| Remittance.TotalExceptEmptyRows | pysage50/sage.py:249-250 | leaving out rows whose cells count nothing leaves the total unchanged |
| Remittance.ChecksPass | pysage50/sage.py:237-254 | whenever the gross series exists, p(net + vat) == p(gross) and the gross without discount rows equals the gross |
| Remittance.SeriesErrors | pysage50/sage.py:229-236 | a series of a known field raises only "no data" or a zero division |
| Remittance.ReconciliationNeverFails | pysage50/sage.py:237-254 | the enrichment never clears `checked`, fails only when a lookup raises, and succeeds iff the account, gross and tax-rate series exist |
| Audit.UnmatchedReceiptAccounts | pysage50/sage.py:323-327 | strictly sorted (sorted, no duplicates), and holds exactly the ALT_REFs of rows with TYPE 'SA' and PAID_FLAG 'N' |
| Audit.UnmatchedAccountsIgnoreOrder | pysage50/sage.py:323-327 | the list is the same for any reordering of the journal |
| Audit.Select | pysage50/sage.py:306-308 | a row is selected iff it is in the journal and meets the condition, and the first is the first such row in table order |
| Audit.SelectCounts | pysage50/sage.py:306-309 | the selection holds each row meeting the condition exactly as many times as the journal does, and no other row |
| Audit.Summarise | pysage50/sage.py:309-321 | code 0, `l` is the number of rows, found iff there is a row, and the first row is `test[:1]` |
| Audit.CheckForTransactionsOnThisDay | pysage50/sage.py:304-321 | code 0; the count is the number of rows with the type, customer account and date; found iff there is one; the first row is the first such row in table order |
| Audit.CheckForTransactionsInTheMonth | pysage50/sage.py:257-281 | raises ValueError iff the account is not a digit string; otherwise reports (found, count and first row, as the day check) the rows whose nominal account is the number `int(account)`, dated in the window |
| Audit.DetailedCheckForTransactionsInTheMonth | pysage50/sage.py:283-302 | the same, restricted to rows with exactly the given DETAILS |
| Audit.MonthChecksNeverFind | pysage50/sage.py:265 | over a journal whose nominal accounts are text, neither month check ever reports a row |
| Audit.CheckForTransactionsInTheMonthByText | pysage50/sage.py:257-281 | the month check with the account compared as text: the count is the number of rows with that nominal account in the window, found iff there is one, first row in table order |
| Audit.DetailedCheckForTransactionsInTheMonthByText | pysage50/sage.py:283-302 | the detailed month check with the account compared as text: count, found and first row over the rows with that account and DETAILS in the window |
| Audit.MonthCheckMissesRow | pysage50/sage.py:265 | a row for account "1200" inside the window is missed by the check as written and found by the corrected one |
| Audit.DetailedMonthCheckMissesRow | pysage50/sage.py:286-289 | the same for the detailed check |

## Left out

- Connection settings: the environment and `.env` lookup, the connection-string error and `pyodbc.connect` (pysage50/sage.py:23-35, 140-142) are configuration and I/O.
- Database queries: the SQL text, `pd.read_sql` and `get_max_transaction_in_sage` (pysage50/sage.py:38-46, 90, 96-123) are foreign calls. The database is the `Source` parameter.
- JSON files: `open`, `json.load`, `json.dump`, `read_json` and `to_json` are file I/O. They are an abstract `Store` whose reads can fail.
- Check-file contents: a check file whose JSON is not an object, or whose mark is not an integer, is not modelled.
- Singleton metaclass: the metaclass that returns one shared `Sage` instance (pysage50/sage.py:126-135) is process-wide construction machinery and is not modelled.
- DATE column: the dtype conversion of DATE (pysage50/sage.py:154-155) is pandas plumbing, and dates are abstract ordered numbers.
- Month windows: the window computation with `MonthEnd`/`MonthBegin` is not modelled, and its bounds are inputs.
- Report text: the `strftime` text of the reports is not modelled. A report carries its parts: found, code, count and first row.
- Other snapshot columns: snapshot narrowing is modelled only on ACCOUNT_REF and INV_REF. What a JSON reader does to other text or date columns (ALT_REF, DETAILS, dates) is not modelled.
- Snapshot.RestoreCell: the JSON reader reads a column of digit strings through 64-bit floating point before narrowing it to integers. A digit string whose value is 2^53 (9007199254740992) or more may come back rounded ("9007199254740993" as "9007199254740992"), and one beyond the 64-bit integer range stays a float and prints in exponent form. The model reads digit strings as exact integers, so it promises survival for such identifiers where the code does not keep them.
- Snapshot.SnapshotRoundTrip: for the same reason, its "if" direction holds in the code only when every digit string in a converted identifier column has a value below 2^53.
- Snapshot.Narrow: a cell counts as numeric only when it is a non-empty string of ASCII digits. The JSON reader also reads signs, decimal points, exponents and surrounding spaces as numbers, so the model converts fewer columns than it does, and it does not model how such numbers print back.
- Strings.ParseInt: Python's `int()` also accepts surrounding spaces, a sign and underscores, and this model accepts only ASCII digits.
- Ledger.Lookup: TAX_RATE is computed over exact reals rather than binary floating point.
- Base.P: the rounding function is the identity on whole pence, so no fractional pence are modelled.
- Remittance.Total: pandas sums skip None and NaN. The model counts an empty cell as 0 and does not reproduce pandas' column types. Nor does it model how pandas types a column that holds only None cells.
- Remittance.EnrichRemittanceDoc: `enrich_remittance_doc` is modelled as a module-level method that takes the journal rows instead of reading `self.sqldata`. The document's rows are the three columns the enrichment reads.
- Invoice rows: the invoice and invoice-line rows carry a subset of their query's columns. Nothing in the core reads their values.

## Findings

| source | as written | input that shows it | evidently intended | confidence | as-written member | corrected member |
|---|---|---|---|---|---|---|
| pysage50/sage.py:265 | the nominal-account column, which holds text, is compared with `int(account)`, so no row ever matches | account "1200", window days 1-31, one journal row with ACCOUNT_REF "1200" on day 15: reported as not found | compare the column with the account text and report the row | not executed | Audit.MonthCheckMissesRow | Audit.CheckForTransactionsInTheMonthByText |
| pysage50/sage.py:286 | the same comparison in the detailed month check | the same row with DETAILS "Bank charges", searched with that text: reported as not found | compare the column with the account text and report the row | not executed | Audit.DetailedMonthCheckMissesRow | Audit.DetailedCheckForTransactionsInTheMonthByText |
