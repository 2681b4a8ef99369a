# NSM Cash Register — a verified model of the ledger core

The cash register keeps a list of money movements. A movement is cash in (a sale, paid by Cash,
UPI or Card) or cash out (an expense, always Cash). From that list it derives several summaries:

- lifetime totals;
- the totals of the current day and the current calendar month;
- a per-mode breakdown of the money coming in;
- per-day and per-month buckets of `{in, out, net}`.

Three views are built from the list and its summaries: the on-screen table, a spreadsheet export
and a document export.

This project models that core in Dafny and proves what it promises:

- `records.dfy` (`Records`): the stored record, the data the entry form hands over, and the two
  record invariants. Every amount is positive, and money going out is always cash.
- `text.dfy` (`Text`): `String.prototype.trim` over the ECMAScript white-space set. It also holds
  the two ways a timestamp is cut into a calendar key: `split('T')[0]` for the day and
  `slice(0, 7)` for the month.
- `store.dfy` (`Store`): the in-memory store, a `Ledger` class whose `transactions` field is a
  sequence.
  - `AddTransaction` validates the form, then appends one record or rejects and changes nothing.
  - `DeleteTransaction` keeps the records with a different id, in order.
  - The pure creation rule (`NewRecord`) and the filter (`Remaining`) are the specifications both
    methods are proved against.
- `aggregator.dfy` (`Aggregator`): `calculateStatistics` as an imperative single pass.
  - The method `CalculateStatistics` runs a loop whose invariant ties the running state to
    `Tally` of the records seen so far.
  - `Tally` and `Statistics` are defined independently of the loop. They use sums over windows
    (`Sum`), one bucket per key carried by some record (`Totals`), and the keys in first-insertion
    order (`KeyOrder`).
  - The lemmas cover these properties:
    - the summary and bucket nets;
    - the mode partition;
    - the daily and monthly partitions of the totals;
    - today ⊆ month ⊆ all time;
    - the empty ledger;
    - first-seen key order.
- `report.dfy` (`Report`): the rows each view receives, with their properties:
  - labels and signs;
  - order (newest first, or insertion order);
  - the empty-ledger refusal;
  - the document's tables adding up to its summary.
- `scenarios.dfy` (`Scenarios`): small concrete ledgers, proved on the model:
  - a single receipt;
  - a receipt and an expense on the same day;
  - records in two months;
  - a blank description and a zero amount.

Modelling conventions:

- Amounts are integers in paise (hundredths of a rupee).
- A record's type is `In` or `Out`. Every branch of the code tests `type === 'in'`, so any other
  stored type behaves as `Out`.
- The clock is a parameter:
  - `Date.now()` becomes the `id` argument;
  - `new Date().toISOString()` becomes the `date` argument and `nowIso`.

Where the intended behaviour of the register and its code differ, the model follows the code:

- The spreadsheet export (script.js:342-348) lists the records in insertion order. Only the
  on-screen table (script.js:201) and the document's transaction listing (script.js:439-445)
  reverse them.
- Only the on-screen table puts a `+`/`-` sign before the amount (script.js:216). The two exports
  carry the plain amount.
- `deleteTransaction` reports nothing back to its caller (script.js:174-179). Deleting an id that
  no record carries changes nothing (`Store.RemainingAbsent`).
- The document's daily and monthly tables are not sorted by date. They list the keys in the
  reverse of the order in which the loop first met them (script.js:408-414). When records were
  not added in date order, that is not newest date first (`Report.PdfPeriodsNewestFirst`).

## Model

| member | source | states |
|---|---|---|
| Text.Trim | script.js:130 | the trimmed description is no longer than the input, and it neither starts nor ends with ECMAScript white space |
| Text.TrimSlice | script.js:130 | the trimmed description is a contiguous slice of the input, and everything cut off on either side is white space |
| Text.TrimEmptyIff | script.js:130-131 | the trimmed description is empty exactly when the input is all white space, the empty input included |
| Text.TrimIdempotent | script.js:130 | trimming an already trimmed description changes nothing |
| Text.DayKey | script.js:258 | the day key `split('T')[0]` is the longest prefix without a 'T': a prefix, 'T'-free, and followed by a 'T' unless it is the whole timestamp |
| Text.MonthKey | script.js:259 | the month key `slice(0, 7)` is a prefix of the timestamp, seven characters long or the whole of a shorter one |
| Text.SameDaySameMonth | script.js:276-277 | two timestamps with the same day key (of at least seven characters) have the same month key |
| Text.DayKeyAt | script.js:276 | a timestamp whose first 'T' is at position n has the first n characters as its day key |
| Text.IsoKeys | script.js:257-259 | on a `toISOString` instant, today's key is `YYYY-MM-DD`, this month's key is `YYYY-MM`, and the month key is a prefix of the day key |
| Store.Describe | script.js:130-133 | the stored description is "No description" when only white space was typed, otherwise the trimmed input; it is never empty |
| Store.NewRecord | script.js:135-150 | a record exists exactly when the amount parsed and is positive. It carries the given id, date, amount and type. Its mode is the chosen one for money in and Cash for money out. It satisfies both record invariants |
| Store.Remaining | script.js:175 | the filter keeps exactly the records whose id differs, and never lengthens the list |
| Store.RemainingConcat | script.js:175 | the filter distributes over concatenation, so the records kept stay in their original order |
| Store.RemainingAbsent | script.js:175 | deleting an id no record carries leaves the list unchanged |
| Store.RemainingIdempotent | script.js:174-179 | deleting the same id twice gives the list of deleting it once |
| Store.RemainingValid | script.js:175 | the records kept still satisfy the record invariants |
| Store.Ledger.constructor | script.js:34 | the store starts with the records the persistence layer handed back |
| Store.Ledger.AddTransaction | script.js:126-152 | rejected with "Please enter a valid amount." and the store unchanged exactly when the amount is missing or not positive. Otherwise exactly the record `NewRecord` describes is appended at the end. The record invariants are preserved |
| Store.Ledger.DeleteTransaction | script.js:174-179 | the new list is the old list filtered by id; the record invariants are preserved |
| Aggregator.SumAppend | script.js:275-286 | one more record adds exactly its share to a window's total |
| Aggregator.SumConcat | script.js:275-286 | the total over two lists joined is the sum of their totals |
| Aggregator.SumOutside | script.js:288-296 | records outside a window add nothing to its total |
| Aggregator.SumWithin | script.js:288-296 | with non-negative amounts, a window contained in another has the smaller total |
| Aggregator.ModesPartitionIn | script.js:279-283 | when every incoming record is Cash, UPI or Card, the three mode totals add up to the total in |
| Aggregator.KeysAppend | script.js:298-306 | one more record adds its key, and only its key, to the set of keys |
| Aggregator.BucketAppend | script.js:298-306 | one more record credits its own key's bucket and leaves the other buckets alone |
| Aggregator.BucketAbsent | script.js:298 | the bucket of a key no record carries is zero |
| Aggregator.TotalsAppend | script.js:298-306 | one more record creates its key's bucket at zero when new, credits it, and leaves every other bucket unchanged |
| Aggregator.KeyOrderKeys | script.js:298-306 | the list of keys in insertion order names exactly the keys of the buckets, each once |
| Aggregator.FirstIndexSpec | script.js:298-306 | the first index of a key carries that key, and no earlier record does |
| Aggregator.FirstIndexFound | script.js:298-306 | a key has a first record exactly when it is one of the bucket keys |
| Aggregator.FirstIndexAppend | script.js:298-306 | one more record keeps every key's first index, and gives only a new key a first index, at the end |
| Aggregator.KeyOrderFirstSeen | script.js:298-306 | the keys are listed in the order their first records appear in the ledger |
| Aggregator.SumOverKeysAppend | script.js:298-306 | one more record moves the per-key sum over a key list by its share exactly when its key is listed |
| Aggregator.BucketsPartition | script.js:298-306 | the per-key sums over a duplicate-free list of all keys add up to the lifetime total: every record lands in exactly one bucket |
| Aggregator.SumOverKeysZero | script.js:298-306 | with no records, every per-key sum is zero |
| Aggregator.ColumnSumOfTotals | script.js:298-306 | summing a column of the bucket map over a key list is the per-key sum of that direction |
| Aggregator.GroupingPartition | script.js:298-306 | the daily (or monthly) buckets' in and out columns add up to the lifetime in and out totals |
| Aggregator.StatisticsBalanced | script.js:301-311 | the summary nets, and every bucket's net, are in minus out |
| Aggregator.StatisticsIndexed | script.js:298-306 | the key order lists name every bucket of their map exactly once |
| Aggregator.StatisticsEmpty | script.js:261-273 | an empty ledger gives all-zero figures and no buckets |
| Aggregator.TallyEmpty | script.js:261-273 | the loop starts with every counter at zero and empty maps |
| Aggregator.StatisticsBucketKeys | script.js:298-306 | a key has a daily (monthly) bucket exactly when some record carries that day (month) key |
| Aggregator.StatisticsModes | script.js:279-283 | with only known modes, Cash + UPI + Card equals the total cash in |
| Aggregator.StatisticsBuckets | script.js:298-306 | every listed key has a bucket, and the daily and the monthly buckets each add up to the lifetime in and out totals |
| Aggregator.StatisticsWindows | script.js:288-296 | with positive amounts: today's in and out are at most this month's, and those are at most the lifetime totals |
| Aggregator.CountFlow | script.js:279-286 | one record adds its amount to the lifetime total of its direction and, for money in, to its mode's total |
| Aggregator.CountPeriods | script.js:288-296 | one record dated today (this month) adds its amount to today's (this month's) total of its direction |
| Aggregator.Accumulate | script.js:298-301 | a new key gets a zero bucket and joins the key order, then its bucket is credited and its net recomputed |
| Aggregator.Visit | script.js:275-307 | one pass of the loop body takes the state one `Advance` step further |
| Aggregator.CalculateStatistics | script.js:256-314 | the single loop computes exactly `Statistics` of the records at the given instant, with every net in minus out |
| Aggregator.TallyAppend | script.js:275-307 | the tally of the records with one more appended is the loop step applied to the tally before |
| Report.ScreenRowOf | script.js:212-223 | a row says "Cash In" with "+" exactly for money in, "Cash Out" with "-" exactly for money out, and carries the record's date, description, amount, mode and id |
| Report.ScreenRows | script.js:201-225 | one row per record, the newest record first |
| Report.RenderTransactions | script.js:191-201 | an empty ledger shows the empty state; otherwise the table holds the rows newest first |
| Report.TxRowOf | script.js:342-348 | an export row's label is "Cash In" exactly for money in and "Cash Out" exactly for money out, and it carries the record's date, description, amount and mode |
| Report.SheetRows | script.js:342-348 | one spreadsheet row per record, in insertion order |
| Report.ListingRows | script.js:439-445 | one listing row per record, the newest record first |
| Report.ExportToExcel | script.js:337-348 | refused with "No transactions to export." exactly when the ledger is empty, otherwise the sheet rows |
| Report.PeriodRows | script.js:408-414 | one row per bucket key, the last key inserted first, each with that bucket's in, out and net |
| Report.SummaryRows | script.js:380-384 | three rows captioned "Total Cash In:", "Total Cash Out (Expenses):" and "Net Total:", carrying the total in, the total out and the net total |
| Report.ModeRows | script.js:401-405 | three rows captioned "Cash", "UPI" and "Card", carrying the total cash in through each mode |
| Report.DocumentOf | script.js:377-445 | the summary rows carry the captions "Total Cash In:", "Total Cash Out (Expenses):" and "Net Total:" with the total in, total out and net total. The mode rows are "Cash", "UPI" and "Card" with each mode's cash in. The daily and monthly tables have one row per key, in reverse key order, each with its key and that bucket's in, out and net. The listing has one row per record, newest first |
| Report.ExportToPdf | script.js:355-453 | refused with "No transactions to export." exactly when the ledger is empty. Otherwise the summary rows are the lifetime in, out and net under their captions, the mode rows the cash in per mode, the daily and monthly tables the rows of the day and month buckets over their keys in reverse first-insertion order, and the listing one row per record, newest first |
| Report.PdfSummaryOf | script.js:380-384 | the summary rows of the statistics are the sums of all money in, all money out, and their difference |
| Report.PdfSummaryBalances | script.js:380-384 | the "Net Total" row is the "Total Cash In" row minus the "Total Cash Out" row |
| Report.PdfModesPartition | script.js:401-405 | with only known modes, the three mode rows add up to the "Total Cash In" row |
| Report.NetColumnBalanced | script.js:408-414 | when every row's net is its in minus its out, the net column is the in column minus the out column |
| Report.PeriodRowsColumns | script.js:408-414 | the in and out columns of the period rows are the column sums of the buckets listed |
| Report.PeriodRowsNets | script.js:408-414 | over balanced buckets, the net column of the period rows is in minus out summed over the buckets listed |
| Report.PdfPeriodsPartition | script.js:408-432 | the daily and the monthly tables each add up to the summary's total in and total out |
| Report.PdfPeriodNets | script.js:408-432 | the nets of the daily and of the monthly table add up to the summary's net total |
| Report.PeriodRowsNewestFirst | script.js:408-414 | rows listing, in reverse, keys in first-seen order come newest key first |
| Report.PdfPeriodsNewestFirst | script.js:408-414 | in the daily and monthly tables, a row above another belongs to a key whose first record came later |
| Report.ExportListings | script.js:439-445 | the document's listing row i is the record i places from the end. The spreadsheet row i is record i. Each listing is the other reversed |
| Scenarios.SingleStep | script.js:275-307 | one loop step from the initial state over a UPI receipt of 500.00 gives total in and UPI 500.00, total out 0, and the single day bucket {500, 0, 500} |
| Scenarios.SingleReceipt | script.js:256-314 | a ledger of one UPI receipt of 500.00 (any id, date and description) gives total in and UPI 500.00, total out 0, net 500.00, and a single day bucket {500, 0, 500} |
| Scenarios.TallyOfTwo | script.js:275-307 | a two-record ledger's tally is two loop steps from the empty state |
| Scenarios.SameDaySteps | script.js:288-301 | two loop steps over a receipt of 500.00 and an expense of 200.00 dated today give today's 500/200 and the bucket {500, 200, 300} |
| Scenarios.SameDayInAndOut | script.js:256-314 | a Cash receipt of 500.00 and an expense of 200.00 today give today's net 300.00 and one day bucket {500, 200, 300} |
| Scenarios.TwoMonthSteps | script.js:293-306 | two loop steps over receipts in two months give two month buckets, first-seen order, and this month's figure from the second alone |
| Scenarios.TwoMonths | script.js:256-314 | records in two months give two month buckets with independent sums, and this month's in total counts only the current month |
| Scenarios.SubmissionRules | script.js:130-150 | a blank description is stored as "No description" (and money out as Cash); a zero amount creates no record |

## Left out

- The DOM is not modelled: the form, the toggles, the confirmation modal, the dashboard text and
  the form reset after a submission. The model receives the form's values and returns rows.
- Persistence is not modelled (`localStorage` with `JSON.stringify`/`JSON.parse`, script.js:34 and
  184-186). The `Ledger` constructor starts from whatever records were loaded. The fallback to an
  empty list for a missing blob is outside the model.
- The clock is a parameter. `Date.now()` and `new Date().toISOString()` are passed in as `id`,
  `date` and `nowIso`. Nothing checks that ids are unique or increasing (the code does not either).
- Floating point is not modelled: amounts are whole paise. The model covers neither `parseFloat`
  nor the rounding it can cause, nor `NaN`, `Infinity` or fractional paise. A field that does not
  parse is `None`.
- Text formatting is not modelled: `toFixed(2)`, the rupee sign and the locale date formatting
  (`toLocaleString('en-IN')`) belong to the renderers. Rows carry the amount in paise and the
  record's ISO timestamp.
- The calls into the spreadsheet and PDF libraries are not modelled: `XLSX.utils.*` and
  `XLSX.writeFile`, and jsPDF's `text`, `autoTable`, `addPage` and `save`. Neither are the
  document title, section headings, column headers or styling. The model stops at the rows
  handed to those calls.
- `Report.PeriodRows`: `Object.entries` lists integer-like keys in numeric order before the
  others. No day or month key of an ISO timestamp is integer-like, so the model uses pure
  insertion order. The model also ignores keys such as `__proto__` that clash with
  `Object.prototype`.
- `Text.Trim`, `Text.DayKey`, `Text.MonthKey`: characters are Dafny's Unicode scalar values, not
  UTF-16 code units, so `slice(0, 7)` and `s[..7]` count differently on characters outside the
  Basic Multilingual Plane. The two agree on every character in the white-space set and on all
  `toISOString` output.
- `Text.IsoKeys`: covers only `toISOString` output for years 0000-9999. Extended years
  (`+YYYYYY-…`) are left out.
- `today` and `thisMonth` are taken from the UTC ISO string, as they are in the code. The model
  does not relate them to the local date shown on screen.
