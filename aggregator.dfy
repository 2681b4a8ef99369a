/**
 * The statistics aggregator: one pass over the records that sums the lifetime, today's and
 * this month's in and out totals, the lifetime `In` total per payment mode, and one
 * `{in, out, net}` bucket per calendar day and per calendar month.
 *
 * The specification is `Sum`: the total of the amounts flowing in one direction inside one
 * window. Daily and monthly buckets are `Totals`, a map built from `Sum`; the order in which
 * the JavaScript `dailyTotals` and `monthlyTotals` objects receive their keys is `KeyOrder`.
 */
module Aggregator {
  import opened Text
  import opened Records

  /** Which records a total is restricted to. */
  datatype Window = All | OnDay(day: string) | InMonth(month: string) | ByMode(mode: string)

  predicate InWindow(t: Tx, w: Window) {
    match w
    case All => true
    case OnDay(d) => DayKey(t.date) == d
    case InMonth(m) => MonthKey(t.date) == m
    case ByMode(m) => t.mode == m
  }

  /** What one record adds to the total of direction `dir` over window `w`. */
  function Share(t: Tx, dir: TxType, w: Window): Money {
    if t.txType == dir && InWindow(t, w) then t.amount else 0
  }

  /** The total of the amounts of the records of direction `dir` inside window `w`. */
  function Sum(txs: seq<Tx>, dir: TxType, w: Window): Money {
    if txs == [] then 0 else Sum(txs[..|txs| - 1], dir, w) + Share(txs[|txs| - 1], dir, w)
  }

  lemma SumAppend(txs: seq<Tx>, t: Tx, dir: TxType, w: Window)
    ensures Sum(txs + [t], dir, w) == Sum(txs, dir, w) + Share(t, dir, w)
  {
    assert (txs + [t])[..|txs|] == txs;
  }

  /** Totals add up over concatenation, so they do not depend on the order of the records. */
  lemma {:induction false} SumConcat(a: seq<Tx>, b: seq<Tx>, dir: TxType, w: Window)
    ensures Sum(a + b, dir, w) == Sum(a, dir, w) + Sum(b, dir, w)
  {
    if b == [] {
      assert a + b == a;
    } else {
      var b', t := b[..|b| - 1], b[|b| - 1];
      assert b == b' + [t];
      assert a + b == (a + b') + [t];
      SumConcat(a, b', dir, w);
      SumAppend(a + b', t, dir, w);
    }
  }

  /** No record in the window: the total is zero. */
  lemma {:induction false} SumOutside(txs: seq<Tx>, dir: TxType, w: Window)
    requires forall i :: 0 <= i < |txs| ==> !InWindow(txs[i], w)
    ensures Sum(txs, dir, w) == 0
  {
    if txs != [] {
      SumOutside(txs[..|txs| - 1], dir, w);
    }
  }

  /** With non-negative amounts, a window contained in another has the smaller total. */
  lemma {:induction false} SumWithin(txs: seq<Tx>, dir: TxType, v: Window, w: Window)
    requires forall i :: 0 <= i < |txs| ==> txs[i].amount >= 0
    requires forall i :: 0 <= i < |txs| ==> InWindow(txs[i], v) ==> InWindow(txs[i], w)
    ensures Sum(txs, dir, v) <= Sum(txs, dir, w)
  {
    if txs != [] {
      SumWithin(txs[..|txs| - 1], dir, v, w);
    }
  }

  /** When every `In` record is paid by Cash, UPI or Card, the three mode totals partition the `In` total. */
  lemma {:induction false} ModesPartitionIn(txs: seq<Tx>)
    requires KnownModes(txs)
    ensures Sum(txs, In, ByMode(CASH)) + Sum(txs, In, ByMode(UPI)) + Sum(txs, In, ByMode(CARD)) == Sum(txs, In, All)
  {
    if txs != [] {
      ModesPartitionIn(txs[..|txs| - 1]);
    }
  }

  // ---- Daily and monthly buckets ----

  datatype Grouping = Daily | Monthly

  /** `tx.date.split('T')[0]` for days, `tx.date.slice(0, 7)` for months. */
  function KeyOf(t: Tx, g: Grouping): string {
    match g
    case Daily => DayKey(t.date)
    case Monthly => MonthKey(t.date)
  }

  function WindowOf(g: Grouping, k: string): Window {
    match g
    case Daily => OnDay(k)
    case Monthly => InMonth(k)
  }

  datatype Bucket = Bucket(inSum: Money, outSum: Money, net: Money)

  const Zero: Bucket := Bucket(0, 0, 0)

  /** A bucket after one more record: its amount goes to `in` or `out`, and `net` is recomputed. */
  function Credit(b: Bucket, t: Tx): Bucket {
    var b' := if t.txType == In then b.(inSum := b.inSum + t.amount) else b.(outSum := b.outSum + t.amount);
    b'.(net := b'.inSum - b'.outSum)
  }

  /** The bucket of key `k`: the in and out totals of the records carrying that key. */
  function BucketOf(txs: seq<Tx>, g: Grouping, k: string): Bucket {
    var i := Sum(txs, In, WindowOf(g, k));
    var o := Sum(txs, Out, WindowOf(g, k));
    Bucket(i, o, i - o)
  }

  function Keys(txs: seq<Tx>, g: Grouping): set<string> {
    set i | 0 <= i < |txs| :: KeyOf(txs[i], g)
  }

  /** One bucket for each key some record carries, and no other. */
  function Totals(txs: seq<Tx>, g: Grouping): map<string, Bucket> {
    map k | k in Keys(txs, g) :: BucketOf(txs, g, k)
  }

  /** The keys in the order the JavaScript `dailyTotals` or `monthlyTotals` object first receives them. */
  function KeyOrder(txs: seq<Tx>, g: Grouping): seq<string> {
    if txs == [] then []
    else
      var p := KeyOrder(txs[..|txs| - 1], g);
      var k := KeyOf(txs[|txs| - 1], g);
      if k in p then p else p + [k]
  }

  lemma KeysAppend(txs: seq<Tx>, t: Tx, g: Grouping)
    ensures Keys(txs + [t], g) == Keys(txs, g) + {KeyOf(t, g)}
  {
    var s := txs + [t];
    forall k | k in Keys(s, g) ensures k in Keys(txs, g) + {KeyOf(t, g)} {
      var i :| 0 <= i < |s| && KeyOf(s[i], g) == k;
      if i < |txs| { assert s[i] == txs[i]; }
    }
    forall k | k in Keys(txs, g) ensures k in Keys(s, g) {
      var i :| 0 <= i < |txs| && KeyOf(txs[i], g) == k;
      assert s[i] == txs[i];
    }
    assert s[|txs|] == t;
  }

  /** A record changes only the bucket of its own key, and that one by `Credit`. */
  lemma BucketAppend(txs: seq<Tx>, t: Tx, g: Grouping, k: string)
    ensures BucketOf(txs + [t], g, k) == if k == KeyOf(t, g) then Credit(BucketOf(txs, g, k), t) else BucketOf(txs, g, k)
  {
    SumAppend(txs, t, In, WindowOf(g, k));
    SumAppend(txs, t, Out, WindowOf(g, k));
  }

  /** A key no record carries has an all-zero bucket. */
  lemma BucketAbsent(txs: seq<Tx>, g: Grouping, k: string)
    requires k !in Keys(txs, g)
    ensures BucketOf(txs, g, k) == Zero
  {
    forall i | 0 <= i < |txs| ensures !InWindow(txs[i], WindowOf(g, k)) {
      assert KeyOf(txs[i], g) in Keys(txs, g);
    }
    SumOutside(txs, In, WindowOf(g, k));
    SumOutside(txs, Out, WindowOf(g, k));
  }

  /** Appending a record credits exactly the bucket of its key, creating that bucket at zero first if new. */
  lemma TotalsAppend(txs: seq<Tx>, t: Tx, g: Grouping)
    ensures var before := Totals(txs, g); var k := KeyOf(t, g);
      Totals(txs + [t], g) == before[k := Credit(if k in before then before[k] else Zero, t)]
  {
    var before, after, k := Totals(txs, g), Totals(txs + [t], g), KeyOf(t, g);
    var expected := before[k := Credit(if k in before then before[k] else Zero, t)];
    KeysAppend(txs, t, g);
    assert after.Keys == expected.Keys;
    forall k' | k' in after.Keys ensures after[k'] == expected[k'] {
      BucketAppend(txs, t, g, k');
      if k' == k && k !in before {
        BucketAbsent(txs, g, k);
      }
    }
  }

  /** The key order lists every key exactly once. */
  lemma {:induction false} KeyOrderKeys(txs: seq<Tx>, g: Grouping)
    ensures forall k :: k in KeyOrder(txs, g) <==> k in Keys(txs, g)
    ensures forall i, j :: 0 <= i < j < |KeyOrder(txs, g)| ==> KeyOrder(txs, g)[i] != KeyOrder(txs, g)[j]
  {
    if txs != [] {
      var s, t := txs[..|txs| - 1], txs[|txs| - 1];
      assert txs == s + [t];
      KeyOrderKeys(s, g);
      KeysAppend(s, t, g);
    }
  }

  /** The index of the first record carrying key `k`, or `|txs|` when none does. */
  ghost function FirstIndex(txs: seq<Tx>, g: Grouping, k: string): (n: nat)
    ensures n <= |txs|
  {
    if txs == [] then 0
    else if KeyOf(txs[0], g) == k then 0
    else 1 + FirstIndex(txs[1..], g, k)
  }

  /** The first index carries the key, and no earlier record does. */
  lemma {:induction false} FirstIndexSpec(txs: seq<Tx>, g: Grouping, k: string)
    ensures FirstIndex(txs, g, k) < |txs| ==> KeyOf(txs[FirstIndex(txs, g, k)], g) == k
    ensures forall p :: 0 <= p < FirstIndex(txs, g, k) ==> KeyOf(txs[p], g) != k
  {
    if txs != [] && KeyOf(txs[0], g) != k {
      FirstIndexSpec(txs[1..], g, k);
      forall p | 0 < p < FirstIndex(txs, g, k) ensures KeyOf(txs[p], g) != k {
        assert txs[p] == txs[1..][p - 1];
      }
    }
  }

  /** The first index is a real position exactly when some record carries the key. */
  lemma FirstIndexFound(txs: seq<Tx>, g: Grouping, k: string)
    ensures FirstIndex(txs, g, k) < |txs| <==> k in Keys(txs, g)
  {
    var n := FirstIndex(txs, g, k);
    FirstIndexSpec(txs, g, k);
    if n < |txs| {
      assert KeyOf(txs[n], g) in Keys(txs, g);
    }
  }

  lemma FirstIndexAppend(txs: seq<Tx>, t: Tx, g: Grouping, k: string)
    ensures FirstIndex(txs + [t], g, k) ==
      if FirstIndex(txs, g, k) < |txs| then FirstIndex(txs, g, k)
      else if KeyOf(t, g) == k then |txs| else |txs| + 1
  {
    var s := txs + [t];
    FirstIndexSpec(txs, g, k);
    FirstIndexSpec(s, g, k);
    assert forall p :: 0 <= p < |txs| ==> s[p] == txs[p];
    assert s[|txs|] == t;
  }

  /** First-insertion order: a key listed earlier first occurs at an earlier record. */
  lemma {:induction false} KeyOrderFirstSeen(txs: seq<Tx>, g: Grouping)
    ensures forall i :: 0 <= i < |KeyOrder(txs, g)| ==> FirstIndex(txs, g, KeyOrder(txs, g)[i]) < |txs|
    ensures forall i, j :: 0 <= i < j < |KeyOrder(txs, g)| ==>
      FirstIndex(txs, g, KeyOrder(txs, g)[i]) < FirstIndex(txs, g, KeyOrder(txs, g)[j])
  {
    if txs != [] {
      var s, t := txs[..|txs| - 1], txs[|txs| - 1];
      assert txs == s + [t];
      KeyOrderFirstSeen(s, g);
      KeyOrderKeys(s, g);
      var p, o := KeyOrder(s, g), KeyOrder(txs, g);
      forall i | 0 <= i < |o| ensures FirstIndex(txs, g, o[i]) == if i < |p| then FirstIndex(s, g, o[i]) else |s| {
        FirstIndexAppend(s, t, g, o[i]);
        FirstIndexFound(s, g, o[i]);
      }
    }
  }

  /** The sum, over a list of keys, of the totals inside each key's window. */
  ghost function SumOverKeys(keys: seq<string>, txs: seq<Tx>, g: Grouping, dir: TxType): Money {
    if keys == [] then 0
    else SumOverKeys(keys[..|keys| - 1], txs, g, dir) + Sum(txs, dir, WindowOf(g, keys[|keys| - 1]))
  }

  predicate Distinct(keys: seq<string>) {
    forall i, j :: 0 <= i < j < |keys| ==> keys[i] != keys[j]
  }

  lemma {:induction false} SumOverKeysAppend(keys: seq<string>, txs: seq<Tx>, t: Tx, g: Grouping, dir: TxType)
    requires Distinct(keys)
    ensures SumOverKeys(keys, txs + [t], g, dir)
         == SumOverKeys(keys, txs, g, dir) + (if KeyOf(t, g) in keys then Share(t, dir, All) else 0)
  {
    if keys != [] {
      var ks, k := keys[..|keys| - 1], keys[|keys| - 1];
      assert keys == ks + [k];
      SumOverKeysAppend(ks, txs, t, g, dir);
      SumAppend(txs, t, dir, WindowOf(g, k));
    }
  }

  /** Each record lands in exactly one bucket, so the buckets partition the lifetime total. */
  lemma {:induction false} BucketsPartition(keys: seq<string>, txs: seq<Tx>, g: Grouping, dir: TxType)
    requires Distinct(keys)
    requires forall i :: 0 <= i < |txs| ==> KeyOf(txs[i], g) in keys
    ensures SumOverKeys(keys, txs, g, dir) == Sum(txs, dir, All)
  {
    if txs == [] {
      SumOverKeysZero(keys, g, dir);
    } else {
      var s, t := txs[..|txs| - 1], txs[|txs| - 1];
      assert txs == s + [t];
      BucketsPartition(keys, s, g, dir);
      SumOverKeysAppend(keys, s, t, g, dir);
    }
  }

  lemma {:induction false} SumOverKeysZero(keys: seq<string>, g: Grouping, dir: TxType)
    ensures SumOverKeys(keys, [], g, dir) == 0
  {
    if keys != [] {
      SumOverKeysZero(keys[..|keys| - 1], g, dir);
    }
  }

  /** The `in` (or `out`) column of a list of buckets, added up. */
  function ColumnSum(keys: seq<string>, totals: map<string, Bucket>, dir: TxType): Money
    requires forall i :: 0 <= i < |keys| ==> keys[i] in totals
  {
    if keys == [] then 0
    else
      var b := totals[keys[|keys| - 1]];
      ColumnSum(keys[..|keys| - 1], totals, dir) + (if dir == In then b.inSum else b.outSum)
  }

  lemma {:induction false} ColumnSumOfTotals(keys: seq<string>, txs: seq<Tx>, g: Grouping, dir: TxType)
    requires forall i :: 0 <= i < |keys| ==> keys[i] in Totals(txs, g)
    ensures ColumnSum(keys, Totals(txs, g), dir) == SumOverKeys(keys, txs, g, dir)
  {
    if keys != [] {
      ColumnSumOfTotals(keys[..|keys| - 1], txs, g, dir);
    }
  }

  // ---- The statistics record ----

  /** The result of `calculateStatistics`. `dailyOrder` and `monthlyOrder` are the insertion
      order of the keys of `dailyTotals` and `monthlyTotals`. */
  datatype Stats = Stats(
    totalIn: Money, totalOut: Money,
    totalInCash: Money, totalInUpi: Money, totalInCard: Money,
    todayIn: Money, todayOut: Money, monthIn: Money, monthOut: Money,
    dailyTotals: map<string, Bucket>, dailyOrder: seq<string>,
    monthlyTotals: map<string, Bucket>, monthlyOrder: seq<string>,
    netTotal: Money, todayNet: Money, monthNet: Money)

  /** The counters and maps of the loop (script.js:261-307) after the records `txs`, with the
      nets not yet derived. */
  function Tally(txs: seq<Tx>, today: string, thisMonth: string): Stats {
    Stats(Sum(txs, In, All), Sum(txs, Out, All),
          Sum(txs, In, ByMode(CASH)), Sum(txs, In, ByMode(UPI)), Sum(txs, In, ByMode(CARD)),
          Sum(txs, In, OnDay(today)), Sum(txs, Out, OnDay(today)),
          Sum(txs, In, InMonth(thisMonth)), Sum(txs, Out, InMonth(thisMonth)),
          Totals(txs, Daily), KeyOrder(txs, Daily),
          Totals(txs, Monthly), KeyOrder(txs, Monthly),
          0, 0, 0)
  }

  /** The statistics of `txs` when the clock reads `nowIso` (an ISO-8601 instant): the tally
      against today's and this month's keys, then the three nets (script.js:309-311). */
  function Statistics(txs: seq<Tx>, nowIso: string): Stats {
    var s := Tally(txs, DayKey(nowIso), MonthKey(nowIso));
    s.(netTotal := s.totalIn - s.totalOut, todayNet := s.todayIn - s.todayOut, monthNet := s.monthIn - s.monthOut)
  }

  /** The state before the loop (script.js:261-273): every counter zero, both maps empty. */
  const Initial: Stats := Stats(0, 0, 0, 0, 0, 0, 0, 0, 0, map[], [], map[], [], 0, 0, 0)

  /** Every net is in minus out: the three summary nets and the net of every bucket. */
  predicate Balanced(s: Stats) {
    && s.netTotal == s.totalIn - s.totalOut
    && s.todayNet == s.todayIn - s.todayOut
    && s.monthNet == s.monthIn - s.monthOut
    && (forall k :: k in s.dailyTotals ==> s.dailyTotals[k].net == s.dailyTotals[k].inSum - s.dailyTotals[k].outSum)
    && (forall k :: k in s.monthlyTotals ==> s.monthlyTotals[k].net == s.monthlyTotals[k].inSum - s.monthlyTotals[k].outSum)
  }

  /** Each key list names every bucket of its map exactly once. */
  ghost predicate Indexed(s: Stats) {
    && (forall k :: k in s.dailyOrder <==> k in s.dailyTotals)
    && (forall k :: k in s.monthlyOrder <==> k in s.monthlyTotals)
    && Distinct(s.dailyOrder) && Distinct(s.monthlyOrder)
  }

  lemma StatisticsBalanced(txs: seq<Tx>, nowIso: string)
    ensures Balanced(Statistics(txs, nowIso))
  {
  }

  lemma StatisticsIndexed(txs: seq<Tx>, nowIso: string)
    ensures Indexed(Statistics(txs, nowIso))
  {
    KeyOrderKeys(txs, Daily);
    KeyOrderKeys(txs, Monthly);
  }

  /** An empty ledger: every figure zero, no buckets. */
  lemma StatisticsEmpty(nowIso: string)
    ensures var s := Statistics([], nowIso);
      && s.totalIn == s.totalOut == s.netTotal == 0
      && s.totalInCash == s.totalInUpi == s.totalInCard == 0
      && s.todayIn == s.todayOut == s.todayNet == 0
      && s.monthIn == s.monthOut == s.monthNet == 0
      && s.dailyTotals == map[] && s.monthlyTotals == map[]
      && s.dailyOrder == [] && s.monthlyOrder == []
  {
    TallyEmpty(DayKey(nowIso), MonthKey(nowIso));
  }

  lemma TallyEmpty(today: string, thisMonth: string)
    ensures Tally([], today, thisMonth) == Initial
  {
    assert Keys([], Daily) == {} && Keys([], Monthly) == {};
    assert Totals([], Daily) == map[] && Totals([], Monthly) == map[];
  }

  /** A day or month key is in the map exactly when some record carries it. */
  lemma StatisticsBucketKeys(txs: seq<Tx>, nowIso: string, k: string)
    ensures k in Statistics(txs, nowIso).dailyTotals <==> exists i :: 0 <= i < |txs| && DayKey(txs[i].date) == k
    ensures k in Statistics(txs, nowIso).monthlyTotals <==> exists i :: 0 <= i < |txs| && MonthKey(txs[i].date) == k
  {
    if exists i :: 0 <= i < |txs| && DayKey(txs[i].date) == k {
      var i :| 0 <= i < |txs| && DayKey(txs[i].date) == k;
      assert KeyOf(txs[i], Daily) == k;
    }
    if exists i :: 0 <= i < |txs| && MonthKey(txs[i].date) == k {
      var i :| 0 <= i < |txs| && MonthKey(txs[i].date) == k;
      assert KeyOf(txs[i], Monthly) == k;
    }
  }

  /** When every `In` record is paid by Cash, UPI or Card, the mode totals add up to the `In` total. */
  lemma StatisticsModes(txs: seq<Tx>, nowIso: string)
    requires KnownModes(txs)
    ensures var s := Statistics(txs, nowIso); s.totalInCash + s.totalInUpi + s.totalInCard == s.totalIn
  {
    ModesPartitionIn(txs);
  }

  /** The daily buckets, and likewise the monthly buckets, partition the lifetime in and out totals. */
  lemma StatisticsBuckets(txs: seq<Tx>, nowIso: string)
    ensures var s := Statistics(txs, nowIso);
      && (forall i :: 0 <= i < |s.dailyOrder| ==> s.dailyOrder[i] in s.dailyTotals)
      && (forall i :: 0 <= i < |s.monthlyOrder| ==> s.monthlyOrder[i] in s.monthlyTotals)
      && ColumnSum(s.dailyOrder, s.dailyTotals, In) == s.totalIn
      && ColumnSum(s.dailyOrder, s.dailyTotals, Out) == s.totalOut
      && ColumnSum(s.monthlyOrder, s.monthlyTotals, In) == s.totalIn
      && ColumnSum(s.monthlyOrder, s.monthlyTotals, Out) == s.totalOut
  {
    GroupingPartition(txs, Daily, In);
    GroupingPartition(txs, Daily, Out);
    GroupingPartition(txs, Monthly, In);
    GroupingPartition(txs, Monthly, Out);
  }

  lemma GroupingPartition(txs: seq<Tx>, g: Grouping, dir: TxType)
    ensures forall i :: 0 <= i < |KeyOrder(txs, g)| ==> KeyOrder(txs, g)[i] in Totals(txs, g)
    ensures ColumnSum(KeyOrder(txs, g), Totals(txs, g), dir) == Sum(txs, dir, All)
  {
    var keys := KeyOrder(txs, g);
    KeyOrderKeys(txs, g);
    forall i | 0 <= i < |txs| ensures KeyOf(txs[i], g) in keys {
      assert KeyOf(txs[i], g) in Keys(txs, g);
    }
    ColumnSumOfTotals(keys, txs, g, dir);
    BucketsPartition(keys, txs, g, dir);
  }

  /** Today lies inside this month, which lies inside all time: with positive amounts the three
      in totals (and the three out totals) are ordered. Needs a day key at least as long as a
      month key, which every ISO instant has. */
  lemma StatisticsWindows(txs: seq<Tx>, nowIso: string)
    requires AllPositive(txs)
    requires |DayKey(nowIso)| >= 7
    ensures var s := Statistics(txs, nowIso);
      s.todayIn <= s.monthIn <= s.totalIn && s.todayOut <= s.monthOut <= s.totalOut
  {
    var today, thisMonth := DayKey(nowIso), MonthKey(nowIso);
    forall i | 0 <= i < |txs| ensures InWindow(txs[i], OnDay(today)) ==> InWindow(txs[i], InMonth(thisMonth)) {
      if DayKey(txs[i].date) == today { SameDaySameMonth(txs[i].date, nowIso); }
    }
    SumWithin(txs, In, OnDay(today), InMonth(thisMonth));
    SumWithin(txs, Out, OnDay(today), InMonth(thisMonth));
    SumWithin(txs, In, InMonth(thisMonth), All);
    SumWithin(txs, Out, InMonth(thisMonth), All);
  }

  // ---- The single pass ----

  /** script.js:279-286: a record's amount goes to the lifetime total of its direction and, for
      money coming in, to the total of its mode. */
  method CountFlow(stats: Stats, tx: Tx) returns (stats': Stats)
    ensures stats' == stats.(totalIn := stats.totalIn + Share(tx, In, All),
                             totalOut := stats.totalOut + Share(tx, Out, All),
                             totalInCash := stats.totalInCash + Share(tx, In, ByMode(CASH)),
                             totalInUpi := stats.totalInUpi + Share(tx, In, ByMode(UPI)),
                             totalInCard := stats.totalInCard + Share(tx, In, ByMode(CARD)))
  {
    stats' := stats;
    if tx.txType == In {
      stats' := stats'.(totalIn := stats'.totalIn + tx.amount);
      if tx.mode == CASH { stats' := stats'.(totalInCash := stats'.totalInCash + tx.amount); }
      if tx.mode == UPI { stats' := stats'.(totalInUpi := stats'.totalInUpi + tx.amount); }
      if tx.mode == CARD { stats' := stats'.(totalInCard := stats'.totalInCard + tx.amount); }
    } else {
      stats' := stats'.(totalOut := stats'.totalOut + tx.amount);
    }
  }

  /** script.js:288-296: a record dated today, or this month, also counts towards that period. */
  method CountPeriods(stats: Stats, tx: Tx, today: string, thisMonth: string) returns (stats': Stats)
    ensures stats' == stats.(todayIn := stats.todayIn + Share(tx, In, OnDay(today)),
                             todayOut := stats.todayOut + Share(tx, Out, OnDay(today)),
                             monthIn := stats.monthIn + Share(tx, In, InMonth(thisMonth)),
                             monthOut := stats.monthOut + Share(tx, Out, InMonth(thisMonth)))
  {
    stats' := stats;
    var txDate := DayKey(tx.date);
    var txMonth := MonthKey(tx.date);
    if txDate == today {
      if tx.txType == In { stats' := stats'.(todayIn := stats'.todayIn + tx.amount); }
      else { stats' := stats'.(todayOut := stats'.todayOut + tx.amount); }
    }
    if txMonth == thisMonth {
      if tx.txType == In { stats' := stats'.(monthIn := stats'.monthIn + tx.amount); }
      else { stats' := stats'.(monthOut := stats'.monthOut + tx.amount); }
    }
  }

  /** script.js:298-301 (and 303-306): create the key's bucket at zero if it is new, then credit it. */
  method Accumulate(totals: map<string, Bucket>, order: seq<string>, key: string, tx: Tx)
    returns (totals': map<string, Bucket>, order': seq<string>)
    ensures totals' == totals[key := Credit(if key in totals then totals[key] else Zero, tx)]
    ensures order' == if key in totals then order else order + [key]
  {
    totals', order' := totals, order;
    if key !in totals' {
      totals' := totals'[key := Zero];
      order' := order' + [key];
    }
    var b := totals'[key];
    if tx.txType == In {
      b := b.(inSum := b.inSum + tx.amount);
    } else {
      b := b.(outSum := b.outSum + tx.amount);
    }
    totals' := totals'[key := b.(net := b.inSum - b.outSum)];
  }

  /** The effect of one record on the loop's state: every total grows by the record's share, and
      the record's day and month buckets are credited (created, and their keys listed, when new). */
  function Advance(s: Stats, t: Tx, today: string, thisMonth: string): Stats {
    var d, m := KeyOf(t, Daily), KeyOf(t, Monthly);
    s.(totalIn := s.totalIn + Share(t, In, All), totalOut := s.totalOut + Share(t, Out, All),
       totalInCash := s.totalInCash + Share(t, In, ByMode(CASH)),
       totalInUpi := s.totalInUpi + Share(t, In, ByMode(UPI)),
       totalInCard := s.totalInCard + Share(t, In, ByMode(CARD)),
       todayIn := s.todayIn + Share(t, In, OnDay(today)), todayOut := s.todayOut + Share(t, Out, OnDay(today)),
       monthIn := s.monthIn + Share(t, In, InMonth(thisMonth)), monthOut := s.monthOut + Share(t, Out, InMonth(thisMonth)),
       dailyTotals := s.dailyTotals[d := Credit(if d in s.dailyTotals then s.dailyTotals[d] else Zero, t)],
       dailyOrder := if d in s.dailyTotals then s.dailyOrder else s.dailyOrder + [d],
       monthlyTotals := s.monthlyTotals[m := Credit(if m in s.monthlyTotals then s.monthlyTotals[m] else Zero, t)],
       monthlyOrder := if m in s.monthlyTotals then s.monthlyOrder else s.monthlyOrder + [m])
  }

  /** The body of the loop (script.js:276-306) for one record. */
  method Visit(stats: Stats, tx: Tx, today: string, thisMonth: string) returns (stats': Stats)
    ensures stats' == Advance(stats, tx, today, thisMonth)
  {
    stats' := CountFlow(stats, tx);
    stats' := CountPeriods(stats', tx, today, thisMonth);
    var daily, dailyOrder := Accumulate(stats'.dailyTotals, stats'.dailyOrder, DayKey(tx.date), tx);
    var monthly, monthlyOrder := Accumulate(stats'.monthlyTotals, stats'.monthlyOrder, MonthKey(tx.date), tx);
    stats' := stats'.(dailyTotals := daily, dailyOrder := dailyOrder,
                      monthlyTotals := monthly, monthlyOrder := monthlyOrder);
  }

  /** `calculateStatistics`: one loop over the records, updating every counter and both maps,
      then the nets. */
  method CalculateStatistics(txs: seq<Tx>, nowIso: string) returns (stats: Stats)
    ensures stats == Statistics(txs, nowIso)
    ensures Balanced(stats)
  {
    var today := DayKey(nowIso);
    var thisMonth := MonthKey(nowIso);
    stats := Initial;
    TallyEmpty(today, thisMonth);
    assert txs[..0] == [];
    for i := 0 to |txs|
      invariant stats == Tally(txs[..i], today, thisMonth)
    {
      stats := Visit(stats, txs[i], today, thisMonth);
      assert txs[..i + 1] == txs[..i] + [txs[i]];
      TallyAppend(txs[..i], txs[i], today, thisMonth);
    }
    assert txs[..|txs|] == txs;
    stats := stats.(netTotal := stats.totalIn - stats.totalOut,
                    todayNet := stats.todayIn - stats.todayOut,
                    monthNet := stats.monthIn - stats.monthOut);
    StatisticsBalanced(txs, nowIso);
  }

  /** One more record takes the tally of the records before it one step of the loop further. */
  lemma TallyAppend(txs: seq<Tx>, t: Tx, today: string, thisMonth: string)
    ensures Tally(txs + [t], today, thisMonth) == Advance(Tally(txs, today, thisMonth), t, today, thisMonth)
  {
    assert (txs + [t])[..|txs|] == txs;
    TotalsAppend(txs, t, Daily);
    TotalsAppend(txs, t, Monthly);
    KeyOrderKeys(txs, Daily);
    KeyOrderKeys(txs, Monthly);
  }
}
