/**
  The accounting laws of the item statistics: totals reconcile, months add up to
  categories, rounded shares add up to 100 within half a cent each, and aggregating rows
  beforehand does not change the report.
 */
module StatisticsLaws {
  import opened Prelude
  import opened ReceiptModel
  import opened Months
  import opened Sorting
  import opened Statistics

  // ----- sums over the parts of a bucket

  lemma SumAppend(rows: seq<Row>, row: Row, b: Bucket)
    ensures Sum(rows + [row], b) == Sum(rows, b) + if Counts(row, b) then row.total else 0.0
    ensures Occurs(rows + [row], b) <==> Occurs(rows, b) || Counts(row, b)
  {
    hide InBucket, KeyOf;
    assert (rows + [row])[..|rows|] == rows;
    if Occurs(rows, b) {
      var i :| 0 <= i < |rows| && Counts(rows[i], b);
      assert Counts((rows + [row])[i], b);
    }
    assert (rows + [row])[|rows|] == row;
  }

  /** The sums of the buckets `bs`, added up. */
  function SumOf(rows: seq<Row>, bs: seq<Bucket>): real
  {
    if bs == [] then 0.0 else SumOf(rows, bs[..|bs| - 1]) + Sum(rows, bs[|bs| - 1])
  }

  /** Each key counts towards exactly one of the parts if it counts towards `b`, and
      towards none otherwise. */
  ghost predicate PartOnce(key: GroupKey, b: Bucket, bs: seq<Bucket>)
  {
    && (InBucket(key, b) ==> exists i :: 0 <= i < |bs| && InBucket(key, bs[i]))
    && (forall i :: 0 <= i < |bs| && InBucket(key, bs[i]) ==> InBucket(key, b))
    && (forall i, j :: 0 <= i < j < |bs| ==> !(InBucket(key, bs[i]) && InBucket(key, bs[j])))
  }

  lemma {:induction false} OneMoreRow(rows: seq<Row>, row: Row, bs: seq<Bucket>)
    requires forall i, j :: 0 <= i < j < |bs| ==> !(Counts(row, bs[i]) && Counts(row, bs[j]))
    ensures SumOf(rows + [row], bs)
         == SumOf(rows, bs) + if exists i :: 0 <= i < |bs| && Counts(row, bs[i]) then row.total else 0.0
  {
    if bs != [] {
      var last, rest := |bs| - 1, bs[..|bs| - 1];
      OneMoreRow(rows, row, rest);
      assert (rows + [row])[..|rows|] == rows;
      hide Counts;
      assert forall i :: 0 <= i < last ==> rest[i] == bs[i];
      if Counts(row, bs[last]) {
        assert !exists i :: 0 <= i < |rest| && Counts(row, rest[i]);
      } else if i :| 0 <= i < |bs| && Counts(row, bs[i]) {
        assert Counts(row, rest[i]);
      } else {
        assert !exists i :: 0 <= i < |rest| && Counts(row, rest[i]);
      }
    }
  }

  /** A bucket is the sum of its parts. */
  lemma {:induction false} SumOfParts(rows: seq<Row>, b: Bucket, bs: seq<Bucket>)
    requires forall i :: 0 <= i < |rows| ==> PartOnce(KeyOf(rows[i]), b, bs)
    ensures SumOf(rows, bs) == Sum(rows, b)
  {
    if rows == [] {
      NoRows(bs);
    } else {
      var rest, row := rows[..|rows| - 1], rows[|rows| - 1];
      assert rows == rest + [row];
      SumOfParts(rest, b, bs);
      assert PartOnce(KeyOf(row), b, bs);
      hide InBucket;
      OneMoreRow(rest, row, bs);
    }
  }

  lemma {:induction false} NoRows(bs: seq<Bucket>)
    ensures SumOf([], bs) == 0.0
  {
    if bs != [] {
      NoRows(bs[..|bs| - 1]);
    }
  }

  // ----- reconciliation

  /** The listed categories of one currency. */
  function KeysIn(keys: seq<Key>, currency: string): (r: seq<Key>)
    ensures forall k :: k in r <==> k in keys && k.1 == currency
  {
    if keys == [] then []
    else KeysIn(keys[..|keys| - 1], currency)
         + if keys[|keys| - 1].1 == currency then [keys[|keys| - 1]] else []
  }

  lemma {:induction false} KeysInAreDistinct(keys: seq<Key>, currency: string)
    requires Distinct(keys)
    ensures Distinct(KeysIn(keys, currency))
  {
    if keys != [] {
      KeysInAreDistinct(keys[..|keys| - 1], currency);
    }
  }

  function SpendingBuckets(keys: seq<Key>): (r: seq<Bucket>)
    ensures |r| == |keys|
    ensures forall i :: 0 <= i < |keys| ==> r[i] == Spending(keys[i].0, keys[i].1)
  {
    seq(|keys|, i requires 0 <= i < |keys| => Spending(keys[i].0, keys[i].1))
  }

  function MonthlyBuckets(month: Date, keys: seq<Key>): (r: seq<Bucket>)
    ensures |r| == |keys|
    ensures forall i :: 0 <= i < |keys| ==> r[i] == Monthly(month, keys[i].0, keys[i].1)
  {
    seq(|keys|, i requires 0 <= i < |keys| => Monthly(month, keys[i].0, keys[i].1))
  }

  function MonthsOf(window: seq<Date>, k: Key): (r: seq<Bucket>)
    ensures |r| == |window|
    ensures forall i :: 0 <= i < |window| ==> r[i] == Monthly(window[i], k.0, k.1)
  {
    seq(|window|, i requires 0 <= i < |window| => Monthly(window[i], k.0, k.1))
  }

  /** The list covers the categories of the rows. */
  predicate Covers(keys: seq<Key>, rows: seq<Row>)
  {
    forall i :: 0 <= i < |rows| && rows[i].ItemRow? && CategoryOf(rows[i].rawCategory) != DEPOSIT ==>
      (CategoryOf(rows[i].rawCategory), rows[i].currency) in keys
  }

  lemma SpendingIsSumOfCategories(rows: seq<Row>, keys: seq<Key>, currency: string)
    requires Distinct(keys) && Covers(keys, rows)
    ensures SumOf(rows, SpendingBuckets(KeysIn(keys, currency))) == Sum(rows, AllSpending(currency))
  {
    KeysInAreDistinct(keys, currency);
    var own := KeysIn(keys, currency);
    var bs := SpendingBuckets(own);
    forall i | 0 <= i < |rows| ensures PartOnce(KeyOf(rows[i]), AllSpending(currency), bs) {
      var key := KeyOf(rows[i]);
      if InBucket(key, AllSpending(currency)) {
        var j :| 0 <= j < |own| && own[j] == (CategoryOf(key.rawCategory), currency);
        assert InBucket(key, bs[j]);
      }
      forall m | 0 <= m < |bs| && InBucket(key, bs[m]) ensures InBucket(key, AllSpending(currency)) {
        assert own[m] in own;
      }
    }
    SumOfParts(rows, AllSpending(currency), bs);
  }

  lemma MonthIsSumOfCategories(rows: seq<Row>, keys: seq<Key>, month: Date, currency: string)
    requires Distinct(keys) && Covers(keys, rows)
    ensures SumOf(rows, MonthlyBuckets(month, KeysIn(keys, currency))) == Sum(rows, MonthSpending(month, currency))
  {
    KeysInAreDistinct(keys, currency);
    var own := KeysIn(keys, currency);
    var bs := MonthlyBuckets(month, own);
    forall i | 0 <= i < |rows| ensures PartOnce(KeyOf(rows[i]), MonthSpending(month, currency), bs) {
      var key := KeyOf(rows[i]);
      if InBucket(key, MonthSpending(month, currency)) {
        var j :| 0 <= j < |own| && own[j] == (CategoryOf(key.rawCategory), currency);
        assert InBucket(key, bs[j]);
      }
      forall m | 0 <= m < |bs| && InBucket(key, bs[m]) ensures InBucket(key, MonthSpending(month, currency)) {
        assert own[m] in own;
      }
    }
    SumOfParts(rows, MonthSpending(month, currency), bs);
  }

  lemma CategoryIsSumOfMonths(rows: seq<Row>, window: seq<Date>, k: Key)
    requires Distinct(window)
    requires forall i :: 0 <= i < |rows| && rows[i].ItemRow? ==> rows[i].month in window
    ensures SumOf(rows, MonthsOf(window, k)) == Sum(rows, Spending(k.0, k.1))
  {
    var bs := MonthsOf(window, k);
    forall i | 0 <= i < |rows| ensures PartOnce(KeyOf(rows[i]), Spending(k.0, k.1), bs) {
      var key := KeyOf(rows[i]);
      if InBucket(key, Spending(k.0, k.1)) {
        var j :| 0 <= j < |window| && window[j] == key.month;
        assert InBucket(key, bs[j]);
      }
    }
    SumOfParts(rows, Spending(k.0, k.1), bs);
  }

  lemma ItemsAreDepositsAndSpending(rows: seq<Row>, currency: string)
    ensures Sum(rows, Items(currency)) == Sum(rows, Deposits(currency)) + Sum(rows, AllSpending(currency))
  {
    var bs := [Deposits(currency), AllSpending(currency)];
    forall i | 0 <= i < |rows| ensures PartOnce(KeyOf(rows[i]), Items(currency), bs) {
      var key := KeyOf(rows[i]);
      assert InBucket(key, bs[0]) || InBucket(key, bs[1]) <==> InBucket(key, Items(currency));
    }
    SumOfParts(rows, Items(currency), bs);
    assert bs[..1] == [Deposits(currency)] && [Deposits(currency)][..0] == [];
    assert SumOf(rows, []) == 0.0;
    assert SumOf(rows, [Deposits(currency)]) == Sum(rows, Deposits(currency));
  }

  // ----- the same, read off a report

  lemma ListedOnce<T(!new)>(keys: seq<T>, s: set<T>, less: (T, T) -> bool)
    requires Lists(keys, s, less)
    ensures Distinct(keys) && forall k :: k in keys <==> k in s
  {
    forall k ensures k in keys <==> k in s {
      assert k in keys <==> k in multiset(keys);
    }
    forall i, j | 0 <= i < j < |keys| ensures keys[i] != keys[j] {
      var k := keys[i];
      assert multiset(s)[k] <= 1;
      if k == keys[j] {
        TwiceListed(keys, i, j);
      }
    }
  }

  lemma TwiceListed<T>(keys: seq<T>, i: nat, j: nat)
    requires i < j < |keys| && keys[i] == keys[j]
    ensures multiset(keys)[keys[i]] >= 2
  {
    assert keys == keys[..i] + [keys[i]] + keys[i + 1..j] + [keys[j]] + keys[j + 1..];
  }

  lemma ListedKeysCover(keys: seq<Key>, rows: seq<Row>, less: (Key, Key) -> bool)
    requires Lists(keys, SpendingKeys(rows), less)
    ensures Distinct(keys) && Covers(keys, rows)
  {
    ListedOnce(keys, SpendingKeys(rows), less);
  }

  /** The totals of a currency's categories in the report's list, added up. */
  function CategoryTotal(entries: seq<CategoryEntry>, currency: string): real
  {
    if entries == [] then 0.0
    else CategoryTotal(entries[..|entries| - 1], currency)
         + if entries[|entries| - 1].currency == currency then entries[|entries| - 1].total else 0.0
  }

  lemma CategoryTotalStep(entries: seq<CategoryEntry>, e: CategoryEntry, currency: string)
    ensures CategoryTotal(entries + [e], currency)
         == CategoryTotal(entries, currency) + if e.currency == currency then e.total else 0.0
  {
    assert (entries + [e])[..|entries|] == entries;
  }

  lemma {:induction false} CategoryTotalIs(rows: seq<Row>, keys: seq<Key>, currency: string)
    ensures CategoryTotal(CategoryEntries(rows, keys), currency) == SumOf(rows, SpendingBuckets(KeysIn(keys, currency)))
  {
    if keys != [] {
      hide Sum, Percentage, CategoryEntries, KeysIn, CategoryTotal, SumOf;
      var rest, k := keys[..|keys| - 1], keys[|keys| - 1];
      CategoryTotalIs(rows, rest, currency);
      KeysInStep(keys, currency);
      EntriesStep(rows, keys, Date(0, 0, 0));
      CategoryTotalStep(CategoryEntries(rows, rest), CategoryEntryOf(rows, k), currency);
      if k.1 == currency {
        assert SpendingBuckets(KeysIn(keys, currency))
            == SpendingBuckets(KeysIn(rest, currency)) + [Spending(k.0, k.1)];
        SumOfOneMore(rows, SpendingBuckets(KeysIn(rest, currency)), Spending(k.0, k.1));
      } else {
        assert KeysIn(keys, currency) == KeysIn(rest, currency);
      }
    }
  }

  /** Per currency of any report: items are deposits plus all categories, and items plus the
      unallocated amount are the receipts. */
  lemma TotalsReconcile(report: Report, rows: seq<Row>, months: nat, today: Date, i: nat)
    requires IsReport(report, rows, months, today) && i < |report.reconciliation|
    ensures var r := report.reconciliation[i];
            && r.itemTotal == r.depositTotal + CategoryTotal(report.categories, r.currency)
            && r.itemTotal + r.unallocatedTotal == r.receiptTotal
  {
    var less := ByTotal(SpendingOf(rows));
    var keys :| Lists(keys, SpendingKeys(rows), less) && report.categories == CategoryEntries(rows, keys);
    var currency := report.reconciliation[i].currency;
    ListedKeysCover(keys, rows, less);
    SpendingIsSumOfCategories(rows, keys, currency);
    CategoryTotalIs(rows, keys, currency);
    ItemsAreDepositsAndSpending(rows, currency);
    hide Sum, SumOf, CategoryTotal, Lists, Percentage;
  }

  /** The amounts of one category in the monthly history, added up. */
  function HistoryTotal(entries: seq<MonthEntry>, k: Key): real
  {
    if entries == [] then 0.0
    else HistoryTotal(entries[..|entries| - 1], k)
         + var e := entries[|entries| - 1]; if (e.category, e.currency) == k then e.total else 0.0
  }

  lemma {:induction false} HistoryTotalConcat(a: seq<MonthEntry>, b: seq<MonthEntry>, k: Key)
    ensures HistoryTotal(a + b, k) == HistoryTotal(a, k) + HistoryTotal(b, k)
  {
    if b == [] {
      assert a + b == a;
    } else {
      HistoryTotalConcat(a, b[..|b| - 1], k);
      assert (a + b)[..|a + b| - 1] == a + b[..|b| - 1];
    }
  }

  lemma {:induction false} MonthTotalIs(rows: seq<Row>, month: Date, keys: seq<Key>, k: Key)
    requires Distinct(keys)
    ensures HistoryTotal(MonthEntries(rows, month, keys), k)
         == if k in keys then Sum(rows, Monthly(month, k.0, k.1)) else 0.0
  {
    if keys != [] {
      var rest, last := keys[..|keys| - 1], keys[|keys| - 1];
      MonthTotalIs(rows, month, rest, k);
      var entries := MonthEntries(rows, month, keys);
      assert entries[..|entries| - 1] == MonthEntries(rows, month, rest);
      assert last !in rest;
      hide Sum, Percentage;
    }
  }

  lemma {:induction false} HistoryTotalIs(rows: seq<Row>, window: seq<Date>, keys: seq<Key>, k: Key)
    requires Distinct(keys) && k in keys
    ensures HistoryTotal(History(rows, window, keys), k) == SumOf(rows, MonthsOf(window, k))
  {
    if window != [] {
      var rest, month := window[..|window| - 1], window[|window| - 1];
      HistoryTotalIs(rows, rest, keys, k);
      HistoryTotalConcat(History(rows, rest, keys), MonthEntries(rows, month, keys), k);
      MonthTotalIs(rows, month, keys, k);
      var bs := MonthsOf(window, k);
      assert bs[..|bs| - 1] == MonthsOf(rest, k);
      hide Sum, HistoryTotal, MonthEntries;
    }
  }

  lemma WindowIsDistinct(today: Date, months: nat)
    ensures Distinct(Window(today, months))
  {
    forall i, j | 0 <= i < j < months ensures Window(today, months)[i] != Window(today, months)[j] {
      WindowIsAscending(today, months, i, j);
    }
  }

  /** If every item lies in the window, the months of each category add up to its total. */
  lemma MonthsAddUp(report: Report, rows: seq<Row>, months: nat, today: Date, i: nat)
    requires IsReport(report, rows, months, today) && i < |report.categories|
    requires forall j :: 0 <= j < |rows| && rows[j].ItemRow? ==> rows[j].month in Window(today, months)
    ensures var c := report.categories[i];
            HistoryTotal(report.monthly, (c.category, c.currency)) == c.total
  {
    var less := ByTotal(SpendingOf(rows));
    var listed :| Lists(listed, SpendingKeys(rows), less) && report.categories == CategoryEntries(rows, listed);
    var keys :| Lists(keys, SpendingKeys(rows), ByName) && report.monthly == History(rows, Window(today, months), keys);
    var k := listed[i];
    ListedOnce(listed, SpendingKeys(rows), less);
    ListedOnce(keys, SpendingKeys(rows), ByName);
    assert k in listed && k in keys;
    WindowIsDistinct(today, months);
    HistoryTotalIs(rows, Window(today, months), keys, k);
    CategoryIsSumOfMonths(rows, Window(today, months), k);
    hide Sum, SumOf, HistoryTotal, Lists, Percentage, Window, History;
  }

  /** Entry `i` of the history belongs to month `i / n` and category `i % n` of the list: every
      month of the window is visited once, with every category. */
  lemma {:induction false} HistoryVisitsEachMonth(rows: seq<Row>, window: seq<Date>, keys: seq<Key>, m: nat, n: nat)
    requires m < |window| && n < |keys|
    ensures |History(rows, window, keys)| == |window| * |keys|
    ensures m * |keys| + n < |window| * |keys|
    ensures History(rows, window, keys)[m * |keys| + n] == MonthEntryOf(rows, window[m], keys[n])
  {
    hide MonthEntryOf;
    var rest := window[..|window| - 1];
    HistoryLength(rows, window, keys);
    HistoryLength(rows, rest, keys);
    Index(m, n, |window|, |keys|);
    if m < |rest| {
      HistoryVisitsEachMonth(rows, rest, keys, m, n);
    } else {
      assert m == |rest|;
    }
  }

  lemma Index(m: nat, n: nat, window: nat, keys: nat)
    requires m < window && n < keys
    ensures m * keys + n < window * keys
  {
    assert (m + 1) * keys <= window * keys;
  }

  lemma {:induction false} HistoryLength(rows: seq<Row>, window: seq<Date>, keys: seq<Key>)
    ensures |History(rows, window, keys)| == |window| * |keys|
  {
    hide MonthEntryOf;
    if window != [] {
      HistoryLength(rows, window[..|window| - 1], keys);
      OneMoreTimes(|window| - 1, |keys|);
    }
  }

  // ----- shares

  lemma QuantizeError(x: real)
    ensures -0.005 <= Quantize(x) - x <= 0.005
  {
  }

  /** A report gives a category a share exactly when the totals it lists in that currency add
      up to more than zero. */
  lemma SharesNeedSpending(report: Report, rows: seq<Row>, months: nat, today: Date, i: nat)
    requires IsReport(report, rows, months, today) && i < |report.categories|
    ensures var c := report.categories[i];
            c.share.Some? <==> CategoryTotal(report.categories, c.currency) > 0.0
  {
    hide Sum, SumOf, CategoryTotal, Lists, SpendingKeys, IsHistory, IsReconciliation, KeysIn, Covers, Distinct;
    var less := ByTotal(SpendingOf(rows));
    var keys :| Lists(keys, SpendingKeys(rows), less) && report.categories == CategoryEntries(rows, keys);
    var currency := report.categories[i].currency;
    ListedKeysCover(keys, rows, less);
    SpendingIsSumOfCategories(rows, keys, currency);
    CategoryTotalIs(rows, keys, currency);
  }

  function Amounts(rows: seq<Row>, bs: seq<Bucket>): (r: seq<real>)
    ensures |r| == |bs|
  {
    seq(|bs|, i requires 0 <= i < |bs| => Sum(rows, bs[i]))
  }

  function RealSum(xs: seq<real>): real
  {
    if xs == [] then 0.0 else RealSum(xs[..|xs| - 1]) + xs[|xs| - 1]
  }

  lemma {:induction false} AmountsSum(rows: seq<Row>, bs: seq<Bucket>)
    ensures RealSum(Amounts(rows, bs)) == SumOf(rows, bs)
  {
    if bs != [] {
      AmountsSum(rows, bs[..|bs| - 1]);
      assert Amounts(rows, bs)[..|bs| - 1] == Amounts(rows, bs[..|bs| - 1]);
    }
  }

  /** The rounded percentages of `amounts` in `total`, added up. */
  function ShareSum(amounts: seq<real>, total: real): real
    requires total > 0.0
  {
    if amounts == [] then 0.0
    else ShareSum(amounts[..|amounts| - 1], total) + Quantize(Percent(amounts[|amounts| - 1], total))
  }

  lemma SplitQuotient(x: real, y: real, total: real)
    requires total > 0.0
    ensures Percent(x + y, total) == Percent(x, total) + Percent(y, total)
  {
    assert (x + y) / total == x / total + y / total;
  }

  lemma {:induction false} SharesDeviate(amounts: seq<real>, total: real)
    requires total > 0.0
    ensures Abs(ShareSum(amounts, total) - Percent(RealSum(amounts), total)) <= 0.005 * |amounts| as real
  {
    hide Quantize, Percent;
    if amounts == [] {
      NothingIsNone(total);
    } else {
      var rest, last := amounts[..|amounts| - 1], amounts[|amounts| - 1];
      SharesDeviate(rest, total);
      QuantizeError(Percent(last, total));
      SplitQuotient(RealSum(rest), last, total);
    }
  }

  lemma NothingIsNone(total: real)
    requires total > 0.0
    ensures Percent(0.0, total) == 0.0 && Percent(total, total) == 100.0
  {
  }

  /** Rounded shares of a positive total add up to 100 within half a hundredth each, whatever
      the signs of the amounts. */
  lemma SharesAddUp(amounts: seq<real>, total: real)
    requires total > 0.0 && RealSum(amounts) == total
    ensures Abs(ShareSum(amounts, total) - 100.0) <= 0.005 * |amounts| as real
  {
    SharesDeviate(amounts, total);
    NothingIsNone(total);
  }

  /** The shares of one currency in a list of categories, added up. */
  function ReportedShares(entries: seq<CategoryEntry>, currency: string): real
  {
    if entries == [] then 0.0
    else ReportedShares(entries[..|entries| - 1], currency)
         + var e := entries[|entries| - 1];
           if e.currency == currency && e.share.Some? then e.share.value else 0.0
  }

  lemma KeysInStep(keys: seq<Key>, currency: string)
    requires keys != []
    ensures KeysIn(keys, currency)
         == KeysIn(keys[..|keys| - 1], currency) + if keys[|keys| - 1].1 == currency then [keys[|keys| - 1]] else []
  {
  }

  lemma EntriesStep(rows: seq<Row>, keys: seq<Key>, month: Date)
    requires keys != []
    ensures CategoryEntries(rows, keys)
         == CategoryEntries(rows, keys[..|keys| - 1]) + [CategoryEntryOf(rows, keys[|keys| - 1])]
    ensures MonthEntries(rows, month, keys)
         == MonthEntries(rows, month, keys[..|keys| - 1]) + [MonthEntryOf(rows, month, keys[|keys| - 1])]
  {
    hide Sum, Percentage;
  }

  lemma AmountsStep(rows: seq<Row>, keys: seq<Key>, k: Key, month: Date)
    ensures Amounts(rows, SpendingBuckets(keys + [k]))
         == Amounts(rows, SpendingBuckets(keys)) + [Sum(rows, Spending(k.0, k.1))]
    ensures Amounts(rows, MonthlyBuckets(month, keys + [k]))
         == Amounts(rows, MonthlyBuckets(month, keys)) + [Sum(rows, Monthly(month, k.0, k.1))]
  {
    hide Sum;
  }

  lemma ShareSumStep(amounts: seq<real>, x: real, total: real)
    requires total > 0.0
    ensures ShareSum(amounts + [x], total) == ShareSum(amounts, total) + Quantize(Percent(x, total))
  {
    hide Quantize, Percent;
    assert (amounts + [x])[..|amounts|] == amounts;
  }

  lemma ReportedStep(entries: seq<CategoryEntry>, e: CategoryEntry, currency: string)
    ensures ReportedShares(entries + [e], currency)
         == ReportedShares(entries, currency) + if e.currency == currency && e.share.Some? then e.share.value else 0.0
  {
    assert (entries + [e])[..|entries|] == entries;
  }

  lemma {:induction false} ReportedSharesAre(rows: seq<Row>, keys: seq<Key>, currency: string)
    requires Sum(rows, AllSpending(currency)) > 0.0
    ensures ReportedShares(CategoryEntries(rows, keys), currency)
         == ShareSum(Amounts(rows, SpendingBuckets(KeysIn(keys, currency))), Sum(rows, AllSpending(currency)))
  {
    if keys != [] {
      var rest, k := keys[..|keys| - 1], keys[|keys| - 1];
      var total := Sum(rows, AllSpending(currency));
      ReportedSharesAre(rows, rest, currency);
      KeysInStep(keys, currency);
      EntriesStep(rows, keys, Date(0, 0, 0));
      ReportedStep(CategoryEntries(rows, rest), CategoryEntryOf(rows, k), currency);
      hide Sum, Quantize, Percent, KeysIn, CategoryEntries, ReportedShares, ShareSum, Amounts, SpendingBuckets;
      if k.1 == currency {
        AmountsStep(rows, KeysIn(rest, currency), k, Date(0, 0, 0));
        ShareSumStep(Amounts(rows, SpendingBuckets(KeysIn(rest, currency))), Sum(rows, Spending(k.0, k.1)), total);
      } else {
        assert KeysIn(keys, currency) == KeysIn(rest, currency);
      }
    }
  }

  lemma ListedSharesAddUp(rows: seq<Row>, keys: seq<Key>, less: (Key, Key) -> bool, currency: string)
    requires Lists(keys, SpendingKeys(rows), less) && Sum(rows, AllSpending(currency)) > 0.0
    ensures Abs(ReportedShares(CategoryEntries(rows, keys), currency) - 100.0)
            <= 0.005 * |KeysIn(keys, currency)| as real
  {
    hide Sum, SumOf, ShareSum, ReportedShares, RealSum, Lists, KeysIn, Covers, Distinct, SpendingKeys;
    ListedKeysCover(keys, rows, less);
    var bs := SpendingBuckets(KeysIn(keys, currency));
    SpendingIsSumOfCategories(rows, keys, currency);
    AmountsSum(rows, bs);
    ReportedSharesAre(rows, keys, currency);
    SharesAddUp(Amounts(rows, bs), Sum(rows, AllSpending(currency)));
  }

  /** Per currency with spending, the shares of a report's k categories add up to 100 within
      0.005 times k. */
  lemma CategorySharesAddUp(report: Report, rows: seq<Row>, months: nat, today: Date, currency: string)
    requires IsReport(report, rows, months, today) && Sum(rows, AllSpending(currency)) > 0.0
    ensures Abs(ReportedShares(report.categories, currency) - 100.0)
            <= 0.005 * EntriesOf(report.categories, currency) as real
  {
    hide Sum, ReportedShares, Lists, EntriesOf, KeysIn, IsHistory, IsReconciliation, CategoryEntries, SpendingKeys;
    var less := ByTotal(SpendingOf(rows));
    var keys :| Lists(keys, SpendingKeys(rows), less) && report.categories == CategoryEntries(rows, keys);
    ListedSharesAddUp(rows, keys, less, currency);
    EntriesOfCurrency(rows, keys, currency);
  }

  function EntriesOf(entries: seq<CategoryEntry>, currency: string): nat
  {
    if entries == [] then 0
    else EntriesOf(entries[..|entries| - 1], currency) + if entries[|entries| - 1].currency == currency then 1 else 0
  }

  lemma {:induction false} EntriesOfCurrency(rows: seq<Row>, keys: seq<Key>, currency: string)
    ensures EntriesOf(CategoryEntries(rows, keys), currency) == |KeysIn(keys, currency)|
  {
    if keys != [] {
      var rest := keys[..|keys| - 1];
      EntriesOfCurrency(rows, rest, currency);
      var entries := CategoryEntries(rows, keys);
      assert entries[..|entries| - 1] == CategoryEntries(rows, rest);
      hide Sum, Percentage;
    }
  }

  // ----- aggregation

  function KeySet(rows: seq<Row>): set<GroupKey>
  {
    set i | 0 <= i < |rows| :: KeyOf(rows[i])
  }

  /** `groups` is the result of grouping `rows`: one row per key, with the sum of its amounts. */
  ghost predicate IsGrouping(groups: seq<Row>, rows: seq<Row>)
  {
    && (forall i, j :: 0 <= i < j < |groups| ==> KeyOf(groups[i]) != KeyOf(groups[j]))
    && KeySet(groups) == KeySet(rows)
    && (forall g :: 0 <= g < |groups| ==> groups[g].total == Sum(rows, Group(KeyOf(groups[g]))))
  }

  /** The groups that count towards `b`, as buckets. */
  function GroupsIn(groups: seq<Row>, b: Bucket): seq<Bucket>
  {
    if groups == [] then []
    else
      var last := |groups| - 1;
      GroupsIn(groups[..last], b) + if Counts(groups[last], b) then [Group(KeyOf(groups[last]))] else []
  }

  lemma {:induction false} GroupsInAre(groups: seq<Row>, b: Bucket)
    ensures forall x :: x in GroupsIn(groups, b) <==> x.Group? && InBucket(x.key, b) && x.key in KeySet(groups)
  {
    hide InBucket, KeyOf;
    if groups != [] {
      var rest, last := groups[..|groups| - 1], groups[|groups| - 1];
      GroupsInAre(rest, b);
      assert KeySet(groups) == KeySet(rest) + {KeyOf(last)} by {
        assert forall i :: 0 <= i < |rest| ==> groups[i] == rest[i];
      }
      hide KeySet;
      assert GroupsIn(groups, b) == GroupsIn(rest, b) + if Counts(last, b) then [Group(KeyOf(last))] else [];
    }
  }

  lemma {:induction false} GroupsAreDistinct(groups: seq<Row>, b: Bucket)
    requires forall i, j :: 0 <= i < j < |groups| ==> KeyOf(groups[i]) != KeyOf(groups[j])
    ensures Distinct(GroupsIn(groups, b))
  {
    hide InBucket, KeyOf;
    if groups != [] {
      GroupsAreDistinct(groups[..|groups| - 1], b);
      GroupsInAre(groups[..|groups| - 1], b);
    }
  }

  lemma {:induction false} SumOfGroups(groups: seq<Row>, rows: seq<Row>, b: Bucket)
    requires forall g :: 0 <= g < |groups| ==> groups[g].total == Sum(rows, Group(KeyOf(groups[g])))
    ensures Sum(groups, b) == SumOf(rows, GroupsIn(groups, b))
  {
    hide InBucket, KeyOf;
    if groups != [] {
      var rest, last := groups[..|groups| - 1], groups[|groups| - 1];
      SumOfGroups(rest, rows, b);
      assert last.total == Sum(rows, Group(KeyOf(last)));
      if Counts(last, b) {
        SumOfOneMore(rows, GroupsIn(rest, b), Group(KeyOf(last)));
      } else {
        assert GroupsIn(groups, b) == GroupsIn(rest, b);
      }
    }
  }

  lemma SumOfOneMore(rows: seq<Row>, bs: seq<Bucket>, b: Bucket)
    ensures SumOf(rows, bs + [b]) == SumOf(rows, bs) + Sum(rows, b)
  {
    hide Sum;
    assert (bs + [b])[..|bs|] == bs;
  }

  lemma GroupPartsOnce(groups: seq<Row>, b: Bucket, key: GroupKey)
    requires key in KeySet(groups) && Distinct(GroupsIn(groups, b))
    ensures PartOnce(key, b, GroupsIn(groups, b))
  {
    var bs := GroupsIn(groups, b);
    GroupsInAre(groups, b);
    hide GroupsIn, KeySet;
    if InBucket(key, b) {
      assert Group(key) in bs;
      var j :| 0 <= j < |bs| && bs[j] == Group(key);
      assert InBucket(key, bs[j]);
    }
    forall m | 0 <= m < |bs| && InBucket(key, bs[m]) ensures bs[m] == Group(key) && InBucket(key, b) {
      assert bs[m] in bs;
    }
  }

  lemma OccursByKey(rows: seq<Row>, b: Bucket)
    ensures Occurs(rows, b) <==> exists key :: key in KeySet(rows) && InBucket(key, b)
  {
    hide InBucket, KeyOf;
    if Occurs(rows, b) {
      var i :| 0 <= i < |rows| && Counts(rows[i], b);
      assert KeyOf(rows[i]) in KeySet(rows);
    }
  }

  /** Grouping changes no sum and no occurrence. */
  lemma GroupingKeepsSums(groups: seq<Row>, rows: seq<Row>, b: Bucket)
    requires IsGrouping(groups, rows)
    ensures Sum(groups, b) == Sum(rows, b)
    ensures Occurs(groups, b) <==> Occurs(rows, b)
  {
    SumOfGroups(groups, rows, b);
    GroupsAreDistinct(groups, b);
    OccursByKey(groups, b);
    OccursByKey(rows, b);
    hide Sum, SumOf, GroupsIn, InBucket, KeyOf, Occurs;
    forall i | 0 <= i < |rows| ensures PartOnce(KeyOf(rows[i]), b, GroupsIn(groups, b)) {
      assert KeyOf(rows[i]) in KeySet(rows);
      GroupPartsOnce(groups, b, KeyOf(rows[i]));
    }
    SumOfParts(rows, b, GroupsIn(groups, b));
  }

  // ----- the report is determined, and aggregation does not change it

  lemma SpendingKeysByBucket(rows: seq<Row>, k: Key)
    ensures k in SpendingKeys(rows) <==> Occurs(rows, Spending(k.0, k.1))
  {
    if Occurs(rows, Spending(k.0, k.1)) {
      var i :| 0 <= i < |rows| && Counts(rows[i], Spending(k.0, k.1));
      assert rows[i].ItemRow?;
    }
    if k in SpendingKeys(rows) {
      var i :| 0 <= i < |rows| && rows[i].ItemRow? && CategoryOf(rows[i].rawCategory) != DEPOSIT
               && (CategoryOf(rows[i].rawCategory), rows[i].currency) == k;
      assert Counts(rows[i], Spending(k.0, k.1));
    }
  }

  lemma CurrenciesByBucket(rows: seq<Row>, currency: string)
    ensures currency in Currencies(rows) <==> Occurs(rows, Receipts(currency)) || Occurs(rows, Items(currency))
  {
    if currency in Currencies(rows) {
      var i :| 0 <= i < |rows| && rows[i].currency == currency;
      assert Counts(rows[i], Receipts(currency)) || Counts(rows[i], Items(currency));
    }
  }

  /** Rows with the same sums and occurrences have the same report. */
  ghost predicate SameTotals(a: seq<Row>, b: seq<Row>)
  {
    forall x: Bucket :: Sum(a, x) == Sum(b, x) && (Occurs(a, x) <==> Occurs(b, x))
  }

  lemma SameLists<T(!new)>(a: seq<T>, b: seq<T>, s: set<T>, less: (T, T) -> bool, less': (T, T) -> bool)
    requires StrictTotal(less) && (forall x, y :: less(x, y) == less'(x, y))
    requires Lists(a, s, less) && Lists(b, s, less')
    ensures a == b
  {
    assert Sorted(b, less);
    SortedIsUnique(a, b, less);
  }

  lemma {:induction false} SameHistory(a: seq<Row>, b: seq<Row>, window: seq<Date>, keys: seq<Key>)
    requires SameTotals(a, b)
    ensures History(a, window, keys) == History(b, window, keys)
  {
    hide Sum, Occurs, Percentage;
    if window != [] {
      SameHistory(a, b, window[..|window| - 1], keys);
      assert MonthEntries(a, window[|window| - 1], keys) == MonthEntries(b, window[|window| - 1], keys);
    }
  }

  lemma SameKeys(a: seq<Row>, b: seq<Row>)
    requires SameTotals(a, b)
    ensures SpendingKeys(a) == SpendingKeys(b) && Currencies(a) == Currencies(b)
  {
    forall k: Key ensures k in SpendingKeys(a) <==> k in SpendingKeys(b) {
      SpendingKeysByBucket(a, k);
      SpendingKeysByBucket(b, k);
    }
    forall c: string ensures c in Currencies(a) <==> c in Currencies(b) {
      CurrenciesByBucket(a, c);
      CurrenciesByBucket(b, c);
    }
    hide Occurs, Sum, SpendingKeys, Currencies;
    assert SpendingKeys(a) == SpendingKeys(b);
  }

  lemma SameListing<T(!new)>(keys: seq<T>, s: set<T>, less: (T, T) -> bool, less': (T, T) -> bool)
    requires Lists(keys, s, less) && (forall x, y :: less(x, y) == less'(x, y))
    ensures Lists(keys, s, less')
  {
  }

  lemma SameCategoryList(list: seq<CategoryEntry>, a: seq<Row>, b: seq<Row>)
    requires IsCategoryList(list, a) && SameTotals(a, b)
    ensures IsCategoryList(list, b)
  {
    SameKeys(a, b);
    hide Sum, Occurs, SpendingKeys, Currencies, Percentage, LexLess, Sorted, StrictTotal;
    var byA, byB := ByTotal(SpendingOf(a)), ByTotal(SpendingOf(b));
    var keys :| Lists(keys, SpendingKeys(a), byA) && list == CategoryEntries(a, keys);
    SameListing(keys, SpendingKeys(a), byA, byB);
    assert CategoryEntries(a, keys) == CategoryEntries(b, keys);
  }

  lemma SameMonthlyList(list: seq<MonthEntry>, a: seq<Row>, b: seq<Row>, window: seq<Date>)
    requires IsHistory(list, a, window) && SameTotals(a, b)
    ensures IsHistory(list, b, window)
  {
    SameKeys(a, b);
    hide Sum, Occurs, SpendingKeys, Currencies, Lists, History, SameTotals, ByName;
    var keys :| Lists(keys, SpendingKeys(a), ByName) && list == History(a, window, keys);
    SameHistory(a, b, window, keys);
  }

  lemma SameReconciliations(a: seq<Row>, b: seq<Row>, currencies: seq<string>)
    requires SameTotals(a, b)
    ensures Reconciliations(a, currencies) == Reconciliations(b, currencies)
  {
    hide Sum, Occurs;
    forall i | 0 <= i < |currencies|
      ensures ReconciliationOf(a, currencies[i]) == ReconciliationOf(b, currencies[i])
    {
      assert Sum(a, Receipts(currencies[i])) == Sum(b, Receipts(currencies[i]));
      assert Sum(a, Items(currencies[i])) == Sum(b, Items(currencies[i]));
      assert Sum(a, Deposits(currencies[i])) == Sum(b, Deposits(currencies[i]));
    }
  }

  lemma SameReconciliation(list: seq<Reconciliation>, a: seq<Row>, b: seq<Row>)
    requires IsReconciliation(list, a) && SameTotals(a, b)
    ensures IsReconciliation(list, b)
  {
    SameKeys(a, b);
    hide Sum, Occurs, SpendingKeys, Currencies, Lists, LexLess, Reconciliations, SameTotals;
    var currencies :| Lists(currencies, Currencies(a), LexLess) && list == Reconciliations(a, currencies);
    SameReconciliations(a, b, currencies);
    assert Lists(currencies, Currencies(b), LexLess);
  }

  /** Only the totals matter: rows with the same totals have the same reports. */
  lemma SameTotalsSameReport(r: Report, a: seq<Row>, b: seq<Row>, months: nat, today: Date)
    requires IsReport(r, a, months, today) && SameTotals(a, b)
    ensures IsReport(r, b, months, today)
  {
    hide IsCategoryList, IsHistory, IsReconciliation, SameTotals;
    SameCategoryList(r.categories, a, b);
    SameMonthlyList(r.monthly, a, b, Window(today, months));
    SameReconciliation(r.reconciliation, a, b);
  }

  /** The report of some rows is unique: every list has one possible order. */
  lemma ReportIsUnique(r: Report, s: Report, rows: seq<Row>, months: nat, today: Date)
    requires IsReport(r, rows, months, today) && IsReport(s, rows, months, today)
    ensures r == s
  {
    hide Sum, Occurs, SpendingKeys, Currencies, Percentage, LexLess, Sorted, StrictTotal, CategoryEntries, History, Reconciliations;
    var less := ByTotal(SpendingOf(rows));
    var ka :| Lists(ka, SpendingKeys(rows), less) && r.categories == CategoryEntries(rows, ka);
    var kb :| Lists(kb, SpendingKeys(rows), less) && s.categories == CategoryEntries(rows, kb);
    ByTotalIsAnOrder(SpendingOf(rows));
    SameLists(ka, kb, SpendingKeys(rows), less, less);
    var ma :| Lists(ma, SpendingKeys(rows), ByName) && r.monthly == History(rows, Window(today, months), ma);
    var mb :| Lists(mb, SpendingKeys(rows), ByName) && s.monthly == History(rows, Window(today, months), mb);
    ByNameIsAnOrder();
    SameLists(ma, mb, SpendingKeys(rows), ByName, ByName);
    var ca :| Lists(ca, Currencies(rows), LexLess) && r.reconciliation == Reconciliations(rows, ca);
    var cb :| Lists(cb, Currencies(rows), LexLess) && s.reconciliation == Reconciliations(rows, cb);
    LexIsAnOrder();
    SameLists(ca, cb, Currencies(rows), LexLess, LexLess);
  }

  /** Grouping the rows before building the report gives the same report. */
  lemma PreAggregationKeepsTheReport(r: Report, groups: seq<Row>, rows: seq<Row>, months: nat, today: Date)
    requires IsGrouping(groups, rows)
    ensures IsReport(r, groups, months, today) <==> IsReport(r, rows, months, today)
  {
    forall b: Bucket ensures Sum(groups, b) == Sum(rows, b) && (Occurs(groups, b) <==> Occurs(rows, b)) {
      GroupingKeepsSums(groups, rows, b);
    }
    hide IsReport, Sum, Occurs;
    if IsReport(r, groups, months, today) {
      SameTotalsSameReport(r, groups, rows, months, today);
    }
    if IsReport(r, rows, months, today) {
      SameTotalsSameReport(r, rows, groups, months, today);
    }
  }
}
