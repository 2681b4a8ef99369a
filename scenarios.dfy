/**
 * Concrete ledgers, proved on the model: a single receipt, a receipt and an expense on the
 * same day, records in two months, and a rejected or defaulted submission. Amounts are in paise.
 */
module Scenarios {
  import opened Text
  import opened Records
  import opened Store
  import opened Aggregator

  /** One step of the loop from the initial state over a UPI receipt of 500.00. */
  lemma SingleStep(t: Tx, today: string, thisMonth: string)
    requires t.amount == 50000 && t.txType == In && t.mode == UPI
    ensures var s := Advance(Initial, t, today, thisMonth);
      && s.totalIn == 50000 && s.totalInUpi == 50000 && s.totalOut == 0
      && s.dailyOrder == [KeyOf(t, Daily)] && s.dailyTotals == map[KeyOf(t, Daily) := Bucket(50000, 0, 50000)]
  {
    assert Credit(Zero, t) == Bucket(50000, 0, 50000);
  }

  /** A ledger of one UPI receipt of 500.00, whatever its id, date and description: the receipt
      is the whole of the lifetime, UPI and daily totals, and the only bucket. */
  lemma SingleReceipt(txs: seq<Tx>, nowIso: string)
    requires |txs| == 1 && txs[0].amount == 50000 && txs[0].txType == In && txs[0].mode == UPI
    ensures var s := Statistics(txs, nowIso);
      && s.totalIn == 50000 && s.totalInUpi == 50000 && s.totalOut == 0 && s.netTotal == 50000
      && s.dailyOrder == [DayKey(txs[0].date)] && s.dailyTotals == map[DayKey(txs[0].date) := Bucket(50000, 0, 50000)]
  {
    var today, thisMonth := DayKey(nowIso), MonthKey(nowIso);
    assert txs == [] + [txs[0]];
    TallyEmpty(today, thisMonth);
    TallyAppend([], txs[0], today, thisMonth);
    SingleStep(txs[0], today, thisMonth);
  }

  /** The tally of a two-record ledger is two steps of the loop from the empty state. */
  lemma TallyOfTwo(t1: Tx, t2: Tx, today: string, thisMonth: string)
    ensures Tally([t1, t2], today, thisMonth) == Advance(Advance(Initial, t1, today, thisMonth), t2, today, thisMonth)
  {
    assert [] + [t1] == [t1] && [t1] + [t2] == [t1, t2];
    TallyEmpty(today, thisMonth);
    TallyAppend([], t1, today, thisMonth);
    TallyAppend([t1], t2, today, thisMonth);
  }

  /** Two steps of the loop over a receipt of 500.00 and an expense of 200.00 dated today. */
  lemma SameDaySteps(t1: Tx, t2: Tx, today: string, thisMonth: string)
    requires t1.amount == 50000 && t1.txType == In && KeyOf(t1, Daily) == today
    requires t2.amount == 20000 && t2.txType == Out && KeyOf(t2, Daily) == today
    ensures var s := Advance(Advance(Initial, t1, today, thisMonth), t2, today, thisMonth);
      && s.todayIn == 50000 && s.todayOut == 20000
      && s.dailyOrder == [today] && s.dailyTotals == map[today := Bucket(50000, 20000, 30000)]
  {
    var s1 := Advance(Initial, t1, today, thisMonth);
    assert s1.dailyOrder == [today] && s1.dailyTotals == map[today := Bucket(50000, 0, 50000)];
    assert Credit(Bucket(50000, 0, 50000), t2) == Bucket(50000, 20000, 30000);
  }

  /** A cash receipt of 500.00 and an expense of 200.00 on the day the clock reads: today's net
      is 300.00, and the day has the one bucket holding both. */
  lemma SameDayInAndOut(morning: string, evening: string, nowIso: string)
    requires DayKey(morning) == DayKey(nowIso) && DayKey(evening) == DayKey(nowIso)
    ensures var s := Statistics([Tx(1, morning, "Sale", 50000, In, CASH), Tx(2, evening, "Tea", 20000, Out, CASH)], nowIso);
      && s.todayIn == 50000 && s.todayOut == 20000 && s.todayNet == 30000
      && s.dailyOrder == [DayKey(nowIso)] && s.dailyTotals == map[DayKey(nowIso) := Bucket(50000, 20000, 30000)]
  {
    var t1, t2 := Tx(1, morning, "Sale", 50000, In, CASH), Tx(2, evening, "Tea", 20000, Out, CASH);
    var today, thisMonth := DayKey(nowIso), MonthKey(nowIso);
    SameDaySteps(t1, t2, today, thisMonth);
    TallyOfTwo(t1, t2, today, thisMonth);
  }

  /** Two steps of the loop over a receipt of 900.00 in an earlier month and one of 500.00 this month. */
  lemma TwoMonthSteps(t1: Tx, t2: Tx, today: string, thisMonth: string)
    requires t1.amount == 90000 && t1.txType == In && t2.amount == 50000 && t2.txType == In
    requires KeyOf(t1, Monthly) != thisMonth && KeyOf(t2, Monthly) == thisMonth
    ensures var s := Advance(Advance(Initial, t1, today, thisMonth), t2, today, thisMonth);
      && s.monthIn == 50000 && s.totalIn == 140000
      && s.monthlyOrder == [KeyOf(t1, Monthly), thisMonth]
      && s.monthlyTotals == map[KeyOf(t1, Monthly) := Bucket(90000, 0, 90000), thisMonth := Bucket(50000, 0, 50000)]
  {
    var s1 := Advance(Initial, t1, today, thisMonth);
    assert s1.monthlyOrder == [KeyOf(t1, Monthly)] && s1.monthlyTotals == map[KeyOf(t1, Monthly) := Bucket(90000, 0, 90000)];
    assert thisMonth !in s1.monthlyTotals;
  }

  /** A receipt last month and one this month fall into two monthly buckets, listed in the
      order they were first seen, and this month's figure counts only the second. */
  lemma TwoMonths(earlier: string, later: string, nowIso: string)
    requires MonthKey(earlier) != MonthKey(later) && MonthKey(later) == MonthKey(nowIso)
    ensures var s := Statistics([Tx(1, earlier, "Rent", 90000, In, CARD), Tx(2, later, "Sale", 50000, In, CASH)], nowIso);
      && s.monthlyOrder == [MonthKey(earlier), MonthKey(later)]
      && s.monthlyTotals == map[MonthKey(earlier) := Bucket(90000, 0, 90000), MonthKey(later) := Bucket(50000, 0, 50000)]
      && s.monthIn == 50000 && s.totalIn == 140000
  {
    var t1, t2 := Tx(1, earlier, "Rent", 90000, In, CARD), Tx(2, later, "Sale", 50000, In, CASH);
    var today, thisMonth := DayKey(nowIso), MonthKey(nowIso);
    TwoMonthSteps(t1, t2, today, thisMonth);
    TallyOfTwo(t1, t2, today, thisMonth);
  }

  /** A blank description is stored as the placeholder; a zero amount is refused. */
  lemma SubmissionRules(date: string)
    ensures NewRecord(Form("   ", Some(12550), Out, UPI), 7, date)
      == Some(Tx(7, date, NO_DESCRIPTION, 12550, Out, CASH))
    ensures NewRecord(Form("Milk", Some(0), In, CASH), 8, date) == None
  {
    assert AllSpace("   ");
  }
}
