/**
  The shares of the monthly history, read off a report: a month's entries have shares exactly
  when the month's listed totals of their currency are positive, and then the shares add up.
 */
module StatisticsMonths {
  import opened Prelude
  import opened ReceiptModel
  import opened Months
  import opened Sorting
  import opened Statistics
  import opened StatisticsLaws

  /** The entries of one month and currency, in the order listed. */
  function InMonth(entries: seq<MonthEntry>, month: Date, currency: string): seq<MonthEntry>
  {
    if entries == [] then []
    else
      var e := entries[|entries| - 1];
      InMonth(entries[..|entries| - 1], month, currency) + if e.month == month && e.currency == currency then [e] else []
  }

  lemma {:induction false} InMonthPicks(entries: seq<MonthEntry>, month: Date, currency: string)
    ensures forall e :: e in InMonth(entries, month, currency) ==> e in entries && e.month == month
  {
    if entries != [] {
      InMonthPicks(entries[..|entries| - 1], month, currency);
    }
  }

  function TotalOf(entries: seq<MonthEntry>): real
  {
    if entries == [] then 0.0 else TotalOf(entries[..|entries| - 1]) + entries[|entries| - 1].total
  }

  function SharesOf(entries: seq<MonthEntry>): real
  {
    if entries == [] then 0.0
    else
      var share := entries[|entries| - 1].share;
      SharesOf(entries[..|entries| - 1]) + if share.Some? then share.value else 0.0
  }

  lemma {:induction false} InMonthConcat(a: seq<MonthEntry>, b: seq<MonthEntry>, month: Date, currency: string)
    ensures InMonth(a + b, month, currency) == InMonth(a, month, currency) + InMonth(b, month, currency)
  {
    if b == [] {
      assert a + b == a;
    } else {
      InMonthConcat(a, b[..|b| - 1], month, currency);
      assert (a + b)[..|a + b| - 1] == a + b[..|b| - 1];
    }
  }

  lemma {:induction false} InMonthOfEntries(rows: seq<Row>, m: Date, keys: seq<Key>, month: Date, currency: string)
    ensures InMonth(MonthEntries(rows, m, keys), month, currency)
         == if m == month then MonthEntries(rows, month, KeysIn(keys, currency)) else []
  {
    hide MonthEntries, KeysIn, InMonth, Sum, Percentage;
    if keys == [] {
      NoEntries(rows, m, month, currency);
    } else {
      var rest, k := keys[..|keys| - 1], keys[|keys| - 1];
      InMonthOfEntries(rows, m, rest, month, currency);
      EntriesStep(rows, keys, m);
      KeysInStep(keys, currency);
      InMonthConcat(MonthEntries(rows, m, rest), [MonthEntryOf(rows, m, k)], month, currency);
      InMonthOfOne(MonthEntryOf(rows, m, k), month, currency);
      if k.1 == currency {
        EntriesExtend(rows, month, KeysIn(rest, currency), k);
      } else {
        assert KeysIn(keys, currency) == KeysIn(rest, currency);
      }
    }
  }

  lemma NoEntries(rows: seq<Row>, m: Date, month: Date, currency: string)
    ensures InMonth(MonthEntries(rows, m, []), month, currency) == []
    ensures MonthEntries(rows, month, KeysIn([], currency)) == []
  {
  }

  lemma InMonthOfOne(e: MonthEntry, month: Date, currency: string)
    ensures InMonth([e], month, currency) == if e.month == month && e.currency == currency then [e] else []
  {
    assert [e][..0] == [];
  }

  lemma EntriesExtend(rows: seq<Row>, month: Date, keys: seq<Key>, k: Key)
    ensures MonthEntries(rows, month, keys + [k]) == MonthEntries(rows, month, keys) + [MonthEntryOf(rows, month, k)]
  {
    hide MonthEntries;
    EntriesStep(rows, keys + [k], month);
    assert (keys + [k])[..|keys|] == keys;
  }

  /** The history lists each month of the window in one stretch, with every category. */
  lemma {:induction false} InMonthOfHistory(
    rows: seq<Row>, window: seq<Date>, keys: seq<Key>, month: Date, currency: string)
    requires Distinct(window)
    ensures InMonth(History(rows, window, keys), month, currency)
         == if month in window then MonthEntries(rows, month, KeysIn(keys, currency)) else []
  {
    hide MonthEntries, KeysIn;
    if window != [] {
      var rest, m := window[..|window| - 1], window[|window| - 1];
      assert window == rest + [m] && m !in rest;
      InMonthOfHistory(rows, rest, keys, month, currency);
      InMonthConcat(History(rows, rest, keys), MonthEntries(rows, m, keys), month, currency);
      InMonthOfEntries(rows, m, keys, month, currency);
      hide InMonth;
    }
  }

  lemma {:induction false} TotalOfEntries(rows: seq<Row>, month: Date, keys: seq<Key>)
    ensures TotalOf(MonthEntries(rows, month, keys)) == SumOf(rows, MonthlyBuckets(month, keys))
  {
    hide MonthEntries, Sum, Percentage;
    if keys == [] {
      assert MonthEntries(rows, month, keys) == [];
    } else {
      var rest, k := keys[..|keys| - 1], keys[|keys| - 1];
      TotalOfEntries(rows, month, rest);
      EntriesStep(rows, keys, month);
      assert MonthEntries(rows, month, keys)[..|rest|] == MonthEntries(rows, month, rest);
      assert MonthlyBuckets(month, keys)[..|rest|] == MonthlyBuckets(month, rest);
    }
  }

  lemma {:induction false} SharesOfEntries(rows: seq<Row>, month: Date, keys: seq<Key>, currency: string)
    requires Sum(rows, MonthSpending(month, currency)) > 0.0
    requires forall k :: k in keys ==> k.1 == currency
    ensures SharesOf(MonthEntries(rows, month, keys))
         == ShareSum(Amounts(rows, MonthlyBuckets(month, keys)), Sum(rows, MonthSpending(month, currency)))
  {
    hide MonthEntries, Sum, Quantize, Percent, Amounts, MonthlyBuckets, ShareSum;
    var total := Sum(rows, MonthSpending(month, currency));
    if keys == [] {
      assert ShareSum(Amounts(rows, MonthlyBuckets(month, keys)), total) == 0.0 by { NoShares(total); }
    } else {
      var rest, k := keys[..|keys| - 1], keys[|keys| - 1];
      assert keys == rest + [k];
      SharesOfEntries(rows, month, rest, currency);
      EntriesStep(rows, keys, month);
      assert MonthEntries(rows, month, keys)[..|rest|] == MonthEntries(rows, month, rest);
      AmountsStep(rows, rest, k, month);
      ShareSumStep(Amounts(rows, MonthlyBuckets(month, rest)), Sum(rows, Monthly(month, k.0, k.1)), total);
    }
  }

  lemma NoShares(total: real)
    requires total > 0.0
    ensures ShareSum([], total) == 0.0
  {
  }

  // ----- read off a report

  /** The entries a report lists for one month and currency, and their sum. */
  lemma MonthIsListed(
    report: Report, rows: seq<Row>, months: nat, today: Date, month: Date, currency: string) returns (keys: seq<Key>)
    requires IsReport(report, rows, months, today) && month in Window(today, months)
    ensures forall k :: k in keys ==> k.1 == currency
    ensures InMonth(report.monthly, month, currency) == MonthEntries(rows, month, keys)
    ensures TotalOf(InMonth(report.monthly, month, currency)) == SumOf(rows, MonthlyBuckets(month, keys))
    ensures SumOf(rows, MonthlyBuckets(month, keys)) == Sum(rows, MonthSpending(month, currency))
  {
    hide Sum, SumOf, Lists, History, MonthEntries, KeysIn, InMonth, SpendingKeys, Covers, Distinct, Window, MonthlyBuckets;
    hide IsCategoryList, IsReconciliation, TotalOf;
    var listed :| Lists(listed, SpendingKeys(rows), ByName) && report.monthly == History(rows, Window(today, months), listed);
    keys := KeysIn(listed, currency);
    WindowIsDistinct(today, months);
    InMonthOfHistory(rows, Window(today, months), listed, month, currency);
    TotalOfEntries(rows, month, keys);
    ListedKeysCover(listed, rows, ByName);
    MonthIsSumOfCategories(rows, listed, month, currency);
  }

  lemma {:induction false} HistoryMonths(rows: seq<Row>, window: seq<Date>, keys: seq<Key>)
    ensures forall e :: e in History(rows, window, keys) ==>
              e.month in window && e.share == Percentage(e.total, Sum(rows, MonthSpending(e.month, e.currency)))
  {
    hide Sum, Percentage;
    if window != [] {
      HistoryMonths(rows, window[..|window| - 1], keys);
    }
  }

  /** A report gives an entry of its history a share exactly when the totals it lists for that
      month and currency add up to more than zero. */
  lemma MonthSharesNeedSpending(report: Report, rows: seq<Row>, months: nat, today: Date, i: nat)
    requires IsReport(report, rows, months, today) && i < |report.monthly|
    ensures var e := report.monthly[i];
            e.share.Some? <==> TotalOf(InMonth(report.monthly, e.month, e.currency)) > 0.0
  {
    hide Sum, SumOf, Lists, History, InMonth, TotalOf, Window, SpendingKeys, IsCategoryList, IsReconciliation, MonthEntries;
    var listed :| Lists(listed, SpendingKeys(rows), ByName) && report.monthly == History(rows, Window(today, months), listed);
    HistoryMonths(rows, Window(today, months), listed);
    var e := report.monthly[i];
    assert e in report.monthly;
    var _ := MonthIsListed(report, rows, months, today, e.month, e.currency);
  }

  /** And those shares add up to 100 within 0.005 times their number. */
  lemma MonthSharesAddUp(report: Report, rows: seq<Row>, months: nat, today: Date, month: Date, currency: string)
    requires IsReport(report, rows, months, today)
    requires TotalOf(InMonth(report.monthly, month, currency)) > 0.0
    ensures var listed := InMonth(report.monthly, month, currency);
            Abs(SharesOf(listed) - 100.0) <= 0.005 * |listed| as real
  {
    hide *;
    OnlyWindowMonths(report, rows, months, today, month, currency);
    var keys := MonthIsListed(report, rows, months, today, month, currency);
    EntrySharesAddUp(rows, month, keys, currency);
  }

  lemma EntrySharesAddUp(rows: seq<Row>, month: Date, keys: seq<Key>, currency: string)
    requires forall k :: k in keys ==> k.1 == currency
    requires SumOf(rows, MonthlyBuckets(month, keys)) == Sum(rows, MonthSpending(month, currency)) > 0.0
    ensures Abs(SharesOf(MonthEntries(rows, month, keys)) - 100.0) <= 0.005 * |MonthEntries(rows, month, keys)| as real
  {
    hide *;
    var bs := MonthlyBuckets(month, keys);
    AmountsSum(rows, bs);
    SharesOfEntries(rows, month, keys, currency);
    SharesAddUp(Amounts(rows, bs), Sum(rows, MonthSpending(month, currency)));
  }

  lemma OnlyWindowMonths(report: Report, rows: seq<Row>, months: nat, today: Date, month: Date, currency: string)
    requires IsReport(report, rows, months, today) && TotalOf(InMonth(report.monthly, month, currency)) > 0.0
    ensures month in Window(today, months)
  {
    hide Sum, Lists, History, Window, SpendingKeys, IsCategoryList, IsReconciliation, Percentage;
    var listed :| Lists(listed, SpendingKeys(rows), ByName) && report.monthly == History(rows, Window(today, months), listed);
    HistoryMonths(rows, Window(today, months), listed);
    var es := InMonth(report.monthly, month, currency);
    InMonthPicks(report.monthly, month, currency);
    assert es != [];
    assert es[0] in es;
  }
}
