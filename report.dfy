/**
 * The report projector: the rows the on-screen table, the spreadsheet export and the
 * document export receive. Only the structure of the rows is modelled; turning an amount into
 * text (`toFixed(2)`, the rupee sign) and a timestamp into a local date is the renderers' job,
 * so rows carry the amount in paise and the record's ISO timestamp.
 */
module Report {
  import opened Text
  import opened Records
  import opened Aggregator

  const CASH_IN_LABEL: string := "Cash In"
  const CASH_OUT_LABEL: string := "Cash Out"
  const NO_TRANSACTIONS: string := "No transactions to export."

  /** An export either hands its rows to the renderer or is refused with a notice. */
  datatype Export<T> = Exported(rows: T) | Refused(notice: string)

  function TypeLabel(t: TxType): string {
    if t == In then CASH_IN_LABEL else CASH_OUT_LABEL
  }

  // ---- The on-screen table ----

  /** A row of the on-screen table: date, description, type label, signed amount, mode, and
      the id the delete button carries. */
  datatype ScreenRow = ScreenRow(date: string, description: string, typeLabel: string, sign: string,
                                 amount: Money, mode: string, id: int)

  function ScreenRowOf(t: Tx): (r: ScreenRow)
    ensures r.typeLabel == CASH_IN_LABEL && r.sign == "+" <==> t.txType == In
    ensures r.typeLabel == CASH_OUT_LABEL && r.sign == "-" <==> t.txType == Out
    ensures r.amount == t.amount && r.id == t.id && r.date == t.date
    ensures r.description == t.description && r.mode == t.mode
  {
    ScreenRow(t.date, t.description, TypeLabel(t.txType), if t.txType == In then "+" else "-",
              t.amount, t.mode, t.id)
  }

  /** One row per record, newest first. */
  function ScreenRows(txs: seq<Tx>): (rows: seq<ScreenRow>)
    ensures |rows| == |txs|
    ensures forall i :: 0 <= i < |txs| ==> rows[i] == ScreenRowOf(txs[|txs| - 1 - i])
  {
    if txs == [] then [] else [ScreenRowOf(txs[|txs| - 1])] + ScreenRows(txs[..|txs| - 1])
  }

  datatype Screen = EmptyState | Table(rows: seq<ScreenRow>)

  /** `renderTransactions`: the empty-state notice for an empty ledger, otherwise the table. */
  function RenderTransactions(txs: seq<Tx>): (v: Screen)
    ensures v.EmptyState? <==> txs == []
    ensures v.Table? ==> v.rows == ScreenRows(txs)
  {
    if |txs| == 0 then EmptyState else Table(ScreenRows(txs))
  }

  // ---- Transaction rows of the two exports ----

  /** A transaction row of an export: date, description, type label, amount, mode. */
  datatype TxRow = TxRow(date: string, description: string, typeLabel: string, amount: Money, mode: string)

  function TxRowOf(t: Tx): (r: TxRow)
    ensures r.typeLabel == CASH_IN_LABEL <==> t.txType == In
    ensures r.typeLabel == CASH_OUT_LABEL <==> t.txType == Out
    ensures r.amount == t.amount && r.date == t.date && r.description == t.description && r.mode == t.mode
  {
    TxRow(t.date, t.description, TypeLabel(t.txType), t.amount, t.mode)
  }

  /** `transactions.map(...)`: one row per record, in insertion order. */
  function SheetRows(txs: seq<Tx>): (rows: seq<TxRow>)
    ensures |rows| == |txs|
    ensures forall i :: 0 <= i < |txs| ==> rows[i] == TxRowOf(txs[i])
  {
    if txs == [] then [] else SheetRows(txs[..|txs| - 1]) + [TxRowOf(txs[|txs| - 1])]
  }

  /** `transactions.map(...).reverse()`: one row per record, newest first. */
  function ListingRows(txs: seq<Tx>): (rows: seq<TxRow>)
    ensures |rows| == |txs|
    ensures forall i :: 0 <= i < |txs| ==> rows[i] == TxRowOf(txs[|txs| - 1 - i])
  {
    if txs == [] then [] else [TxRowOf(txs[|txs| - 1])] + ListingRows(txs[..|txs| - 1])
  }

  /** `exportToExcel`: refused on an empty ledger, otherwise one sheet row per record. */
  function ExportToExcel(txs: seq<Tx>): (r: Export<seq<TxRow>>)
    ensures r.Refused? <==> txs == []
    ensures r.Refused? ==> r.notice == NO_TRANSACTIONS
    ensures r.Exported? ==> r.rows == SheetRows(txs)
  {
    if |txs| == 0 then Refused(NO_TRANSACTIONS) else Exported(SheetRows(txs))
  }

  // ---- The document export ----

  datatype AmountRow = AmountRow(caption: string, amount: Money)

  /** A daily or monthly summary row: key, in, out, net. */
  datatype PeriodRow = PeriodRow(key: string, inSum: Money, outSum: Money, net: Money)

  const TOTAL_IN_CAPTION: string := "Total Cash In:"
  const TOTAL_OUT_CAPTION: string := "Total Cash Out (Expenses):"
  const NET_TOTAL_CAPTION: string := "Net Total:"

  /** The "Overall Summary" table: lifetime in, lifetime out and net total, each under its caption. */
  function SummaryRows(s: Stats): (rows: seq<AmountRow>)
    ensures |rows| == 3
    ensures rows[0].caption == TOTAL_IN_CAPTION && rows[0].amount == s.totalIn
    ensures rows[1].caption == TOTAL_OUT_CAPTION && rows[1].amount == s.totalOut
    ensures rows[2].caption == NET_TOTAL_CAPTION && rows[2].amount == s.netTotal
  {
    [AmountRow(TOTAL_IN_CAPTION, s.totalIn),
     AmountRow(TOTAL_OUT_CAPTION, s.totalOut),
     AmountRow(NET_TOTAL_CAPTION, s.netTotal)]
  }

  /** The "Cash In by Payment Mode" table: one row per mode, captioned by the mode, with that
      mode's lifetime cash in. */
  function ModeRows(s: Stats): (rows: seq<AmountRow>)
    ensures |rows| == 3
    ensures rows[0].caption == CASH && rows[0].amount == s.totalInCash
    ensures rows[1].caption == UPI && rows[1].amount == s.totalInUpi
    ensures rows[2].caption == CARD && rows[2].amount == s.totalInCard
  {
    [AmountRow(CASH, s.totalInCash), AmountRow(UPI, s.totalInUpi), AmountRow(CARD, s.totalInCard)]
  }

  function PeriodRowOf(key: string, b: Bucket): PeriodRow {
    PeriodRow(key, b.inSum, b.outSum, b.net)
  }

  /** `Object.entries(totals).map(...).reverse()`: one row per key, the last key inserted first. */
  function PeriodRows(keys: seq<string>, totals: map<string, Bucket>): (rows: seq<PeriodRow>)
    requires forall i :: 0 <= i < |keys| ==> keys[i] in totals
    ensures |rows| == |keys|
    ensures forall i :: 0 <= i < |keys| ==>
      rows[i] == PeriodRowOf(keys[|keys| - 1 - i], totals[keys[|keys| - 1 - i]])
  {
    if keys == [] then []
    else [PeriodRowOf(keys[|keys| - 1], totals[keys[|keys| - 1]])] + PeriodRows(keys[..|keys| - 1], totals)
  }

  datatype Document = Document(summary: seq<AmountRow>, modes: seq<AmountRow>,
                               daily: seq<PeriodRow>, monthly: seq<PeriodRow>,
                               listing: seq<TxRow>)

  /** The five sections of the document, in order, for the statistics `s` of `txs`. */
  function DocumentOf(s: Stats, txs: seq<Tx>): (r: Document)
    requires forall i :: 0 <= i < |s.dailyOrder| ==> s.dailyOrder[i] in s.dailyTotals
    requires forall i :: 0 <= i < |s.monthlyOrder| ==> s.monthlyOrder[i] in s.monthlyTotals
    ensures |r.summary| == |r.modes| == 3
    ensures r.summary[0] == AmountRow(TOTAL_IN_CAPTION, s.totalIn)
    ensures r.summary[1] == AmountRow(TOTAL_OUT_CAPTION, s.totalOut)
    ensures r.summary[2] == AmountRow(NET_TOTAL_CAPTION, s.netTotal)
    ensures r.modes[0] == AmountRow(CASH, s.totalInCash)
    ensures r.modes[1] == AmountRow(UPI, s.totalInUpi)
    ensures r.modes[2] == AmountRow(CARD, s.totalInCard)
    ensures |r.daily| == |s.dailyOrder| && |r.monthly| == |s.monthlyOrder| && |r.listing| == |txs|
    ensures forall i :: 0 <= i < |r.daily| ==>
      var k := s.dailyOrder[|s.dailyOrder| - 1 - i];
      r.daily[i] == PeriodRow(k, s.dailyTotals[k].inSum, s.dailyTotals[k].outSum, s.dailyTotals[k].net)
    ensures forall i :: 0 <= i < |r.monthly| ==>
      var k := s.monthlyOrder[|s.monthlyOrder| - 1 - i];
      r.monthly[i] == PeriodRow(k, s.monthlyTotals[k].inSum, s.monthlyTotals[k].outSum, s.monthlyTotals[k].net)
    ensures forall i :: 0 <= i < |txs| ==> r.listing[i] == TxRowOf(txs[|txs| - 1 - i])
  {
    Document(SummaryRows(s), ModeRows(s),
             PeriodRows(s.dailyOrder, s.dailyTotals), PeriodRows(s.monthlyOrder, s.monthlyTotals),
             ListingRows(txs))
  }

  /** `exportToPDF`: refused on an empty ledger, otherwise the document built from the statistics
      at `nowIso`. */
  function ExportToPdf(txs: seq<Tx>, nowIso: string): (r: Export<Document>)
    ensures r.Refused? <==> txs == []
    ensures r.Refused? ==> r.notice == NO_TRANSACTIONS
    ensures r.Exported? ==>
      r.rows.summary == [AmountRow(TOTAL_IN_CAPTION, Sum(txs, In, All)), AmountRow(TOTAL_OUT_CAPTION, Sum(txs, Out, All)),
       AmountRow(NET_TOTAL_CAPTION, Sum(txs, In, All) - Sum(txs, Out, All))]
    ensures r.Exported? ==>
      r.rows.modes == [AmountRow(CASH, Sum(txs, In, ByMode(CASH))), AmountRow(UPI, Sum(txs, In, ByMode(UPI))),
       AmountRow(CARD, Sum(txs, In, ByMode(CARD)))]
    ensures r.Exported? ==>
      && (forall i :: 0 <= i < |KeyOrder(txs, Daily)| ==> KeyOrder(txs, Daily)[i] in Totals(txs, Daily))
      && r.rows.daily == PeriodRows(KeyOrder(txs, Daily), Totals(txs, Daily))
    ensures r.Exported? ==>
      && (forall i :: 0 <= i < |KeyOrder(txs, Monthly)| ==> KeyOrder(txs, Monthly)[i] in Totals(txs, Monthly))
      && r.rows.monthly == PeriodRows(KeyOrder(txs, Monthly), Totals(txs, Monthly))
    ensures r.Exported? ==> r.rows.listing == ListingRows(txs)
  {
    if |txs| == 0 then Refused(NO_TRANSACTIONS)
    else
      var s := Statistics(txs, nowIso);
      StatisticsBuckets(txs, nowIso);
      PdfSummaryOf(txs, nowIso);
      Exported(DocumentOf(s, txs))
  }

  /** The summary rows of the statistics are the lifetime sums under their captions. */
  lemma PdfSummaryOf(txs: seq<Tx>, nowIso: string)
    ensures SummaryRows(Statistics(txs, nowIso)) ==
      [AmountRow(TOTAL_IN_CAPTION, Sum(txs, In, All)), AmountRow(TOTAL_OUT_CAPTION, Sum(txs, Out, All)),
       AmountRow(NET_TOTAL_CAPTION, Sum(txs, In, All) - Sum(txs, Out, All))]
  {
  }

  /** The net row of the summary is the in row minus the out row. */
  lemma PdfSummaryBalances(txs: seq<Tx>, nowIso: string)
    requires txs != []
    ensures var d := ExportToPdf(txs, nowIso).rows;
      d.summary[2].amount == d.summary[0].amount - d.summary[1].amount
  {
  }

  /** When every `In` record is paid by Cash, UPI or Card, the mode table adds up to the total cash in. */
  lemma PdfModesPartition(txs: seq<Tx>, nowIso: string)
    requires txs != []
    requires KnownModes(txs)
    ensures var d := ExportToPdf(txs, nowIso).rows;
      d.modes[0].amount + d.modes[1].amount + d.modes[2].amount == d.summary[0].amount
  {
    StatisticsModes(txs, nowIso);
  }

  /** Column totals of a list of period rows. */
  function InColumn(rows: seq<PeriodRow>): Money {
    if rows == [] then 0 else rows[0].inSum + InColumn(rows[1..])
  }

  function OutColumn(rows: seq<PeriodRow>): Money {
    if rows == [] then 0 else rows[0].outSum + OutColumn(rows[1..])
  }

  function NetColumn(rows: seq<PeriodRow>): Money {
    if rows == [] then 0 else rows[0].net + NetColumn(rows[1..])
  }

  /** When every row's net is its in minus its out, so is the column of nets. */
  lemma {:induction false} NetColumnBalanced(rows: seq<PeriodRow>)
    requires forall i :: 0 <= i < |rows| ==> rows[i].net == rows[i].inSum - rows[i].outSum
    ensures NetColumn(rows) == InColumn(rows) - OutColumn(rows)
  {
    if rows != [] {
      NetColumnBalanced(rows[1..]);
    }
  }

  lemma {:induction false} PeriodRowsColumns(keys: seq<string>, totals: map<string, Bucket>)
    requires forall i :: 0 <= i < |keys| ==> keys[i] in totals
    ensures InColumn(PeriodRows(keys, totals)) == ColumnSum(keys, totals, In)
    ensures OutColumn(PeriodRows(keys, totals)) == ColumnSum(keys, totals, Out)
  {
    if keys != [] {
      var rows := PeriodRows(keys, totals);
      assert rows[1..] == PeriodRows(keys[..|keys| - 1], totals);
      PeriodRowsColumns(keys[..|keys| - 1], totals);
    }
  }

  /** The daily table, and the monthly table, add up to the summary's total in and total out. */
  lemma PdfPeriodsPartition(txs: seq<Tx>, nowIso: string)
    requires txs != []
    ensures var d := ExportToPdf(txs, nowIso).rows;
      && InColumn(d.daily) == d.summary[0].amount && OutColumn(d.daily) == d.summary[1].amount
      && InColumn(d.monthly) == d.summary[0].amount && OutColumn(d.monthly) == d.summary[1].amount
  {
    var s := Statistics(txs, nowIso);
    StatisticsBuckets(txs, nowIso);
    PeriodRowsColumns(s.dailyOrder, s.dailyTotals);
    PeriodRowsColumns(s.monthlyOrder, s.monthlyTotals);
  }

  /** Over buckets whose nets are in minus out, the column of nets is the in column minus the out column. */
  lemma PeriodRowsNets(keys: seq<string>, totals: map<string, Bucket>)
    requires forall i :: 0 <= i < |keys| ==> keys[i] in totals
    requires forall k :: k in totals ==> totals[k].net == totals[k].inSum - totals[k].outSum
    ensures NetColumn(PeriodRows(keys, totals)) == ColumnSum(keys, totals, In) - ColumnSum(keys, totals, Out)
  {
    var rows := PeriodRows(keys, totals);
    forall i | 0 <= i < |rows| ensures rows[i].net == rows[i].inSum - rows[i].outSum {
      assert keys[|keys| - 1 - i] in totals;
    }
    NetColumnBalanced(rows);
    PeriodRowsColumns(keys, totals);
  }

  /** The nets of the daily table, and of the monthly table, add up to the summary's net total. */
  lemma PdfPeriodNets(txs: seq<Tx>, nowIso: string)
    requires txs != []
    ensures var d := ExportToPdf(txs, nowIso).rows;
      NetColumn(d.daily) == d.summary[2].amount && NetColumn(d.monthly) == d.summary[2].amount
  {
    var s := Statistics(txs, nowIso);
    StatisticsBalanced(txs, nowIso);
    StatisticsBuckets(txs, nowIso);
    PeriodRowsNets(s.dailyOrder, s.dailyTotals);
    PeriodRowsNets(s.monthlyOrder, s.monthlyTotals);
  }

  /** Rows listing keys in reverse, over keys whose first records come in increasing order, come
      newest key first: a row above another belongs to a key whose first record came later. */
  lemma PeriodRowsNewestFirst(txs: seq<Tx>, g: Grouping, keys: seq<string>, rows: seq<PeriodRow>)
    requires |rows| == |keys|
    requires forall i :: 0 <= i < |rows| ==> rows[i].key == keys[|keys| - 1 - i]
    requires forall i :: 0 <= i < |keys| ==> FirstIndex(txs, g, keys[i]) < |txs|
    requires forall i, j :: 0 <= i < j < |keys| ==> FirstIndex(txs, g, keys[i]) < FirstIndex(txs, g, keys[j])
    ensures forall i, j :: 0 <= i < j < |rows| ==> FirstIndex(txs, g, rows[j].key) < FirstIndex(txs, g, rows[i].key) < |txs|
  {
    forall i, j | 0 <= i < j < |rows|
      ensures FirstIndex(txs, g, rows[j].key) < FirstIndex(txs, g, rows[i].key) < |txs|
    {
      var a, b := |keys| - 1 - j, |keys| - 1 - i;
      assert rows[i].key == keys[b] && rows[j].key == keys[a];
    }
  }

  /** The daily and monthly tables list each key once, the key first seen most recently first. */
  lemma PdfPeriodsNewestFirst(txs: seq<Tx>, nowIso: string)
    requires txs != []
    ensures var d := ExportToPdf(txs, nowIso).rows;
      && (forall i, j :: 0 <= i < j < |d.daily| ==>
            FirstIndex(txs, Daily, d.daily[j].key) < FirstIndex(txs, Daily, d.daily[i].key) < |txs|)
      && (forall i, j :: 0 <= i < j < |d.monthly| ==>
            FirstIndex(txs, Monthly, d.monthly[j].key) < FirstIndex(txs, Monthly, d.monthly[i].key) < |txs|)
  {
    var d := ExportToPdf(txs, nowIso).rows;
    KeyOrderFirstSeen(txs, Daily);
    KeyOrderFirstSeen(txs, Monthly);
    PeriodRowsNewestFirst(txs, Daily, KeyOrder(txs, Daily), d.daily);
    PeriodRowsNewestFirst(txs, Monthly, KeyOrder(txs, Monthly), d.monthly);
  }

  /** Every row of the document's listing and of the spreadsheet is one record's row: the
      listing newest first, the spreadsheet in insertion order. */
  lemma ExportListings(txs: seq<Tx>, nowIso: string)
    requires txs != []
    ensures var d := ExportToPdf(txs, nowIso).rows; var sheet := ExportToExcel(txs).rows;
      forall i :: 0 <= i < |txs| ==>
        d.listing[i] == TxRowOf(txs[|txs| - 1 - i]) && sheet[i] == TxRowOf(txs[i]) && d.listing[i] == sheet[|txs| - 1 - i]
  {
  }
}
