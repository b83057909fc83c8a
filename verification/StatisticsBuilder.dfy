/**
  `build_item_statistics` as the accumulating loop it is: seven dictionaries in one pass,
  then three sorted lists.
 */
module StatisticsBuilder {
  import opened Prelude
  import opened ReceiptModel
  import opened Months
  import opened Sorting
  import opened Statistics
  import StatisticsLaws

  // ----- dictionaries with default zero

  function Get<K>(d: map<K, real>, k: K): real
  {
    if k in d then d[k] else 0.0
  }

  /** The dictionary holds the sum of bucket `bucket(k)` under every key that occurred. */
  ghost predicate Tallies<K(!new)>(d: map<K, real>, rows: seq<Row>, bucket: K -> Bucket)
  {
    forall k :: (k in d <==> Occurs(rows, bucket(k))) && Get(d, k) == Sum(rows, bucket(k))
  }

  lemma NothingTallied<K(!new)>(bucket: K -> Bucket)
    ensures Tallies(map[], [], bucket)
  {
  }

  /** `d[k] += row.total`, when `k` is the one key whose bucket the row counts towards. */
  lemma Tally<K(!new)>(d: map<K, real>, rows: seq<Row>, bucket: K -> Bucket, row: Row, k: K)
    requires Tallies(d, rows, bucket)
    requires forall x :: Counts(row, bucket(x)) <==> x == k
    ensures Tallies(d[k := Get(d, k) + row.total], rows + [row], bucket)
  {
    hide Sum, Occurs, Counts;
    forall x ensures Sum(rows + [row], bucket(x)) == Sum(rows, bucket(x)) + (if x == k then row.total else 0.0)
                     && (Occurs(rows + [row], bucket(x)) <==> Occurs(rows, bucket(x)) || x == k)
    {
      StatisticsLaws.SumAppend(rows, row, bucket(x));
    }
  }

  lemma TallyNothing<K(!new)>(d: map<K, real>, rows: seq<Row>, bucket: K -> Bucket, row: Row)
    requires Tallies(d, rows, bucket)
    requires forall x :: !Counts(row, bucket(x))
    ensures Tallies(d, rows + [row], bucket)
  {
    hide Sum, Occurs, Counts;
    forall x ensures Sum(rows + [row], bucket(x)) == Sum(rows, bucket(x))
                     && (Occurs(rows + [row], bucket(x)) <==> Occurs(rows, bucket(x)))
    {
      StatisticsLaws.SumAppend(rows, row, bucket(x));
    }
  }

  function TotalsBucket(k: Key): Bucket { Spending(k.0, k.1) }

  function MonthlyBucket(k: (Date, string, string)): Bucket { Monthly(k.0, k.1, k.2) }

  function CurrencyBucket(c: string): Bucket { AllSpending(c) }

  function MonthBucket(k: (Date, string)): Bucket { MonthSpending(k.0, k.1) }

  function ReceiptBucket(c: string): Bucket { Receipts(c) }

  function DepositBucket(c: string): Bucket { Deposits(c) }

  function ItemBucket(c: string): Bucket { Items(c) }

  /** The seven dictionaries of the loop. */
  datatype Dicts = Dicts(
    totals: map<Key, real>, monthly: map<(Date, string, string), real>, currencyTotals: map<string, real>,
    monthTotals: map<(Date, string), real>, receiptTotals: map<string, real>, deposits: map<string, real>,
    itemTotals: map<string, real>)

  ghost predicate AllTally(d: Dicts, rows: seq<Row>)
  {
    && Tallies(d.totals, rows, TotalsBucket) && Tallies(d.monthly, rows, MonthlyBucket)
    && Tallies(d.currencyTotals, rows, CurrencyBucket) && Tallies(d.monthTotals, rows, MonthBucket)
    && Tallies(d.receiptTotals, rows, ReceiptBucket) && Tallies(d.deposits, rows, DepositBucket)
    && Tallies(d.itemTotals, rows, ItemBucket)
  }

  lemma StartTally()
    ensures AllTally(Dicts(map[], map[], map[], map[], map[], map[], map[]), [])
  {
    NothingTallied(TotalsBucket);
    NothingTallied(MonthlyBucket);
    NothingTallied(CurrencyBucket);
    NothingTallied(MonthBucket);
    NothingTallied(ReceiptBucket);
    NothingTallied(DepositBucket);
    NothingTallied(ItemBucket);
  }

  lemma TallyReceipt(d: Dicts, rows: seq<Row>, row: Row)
    requires AllTally(d, rows) && row.ReceiptRow?
    ensures AllTally(d.(receiptTotals := d.receiptTotals[row.currency := Get(d.receiptTotals, row.currency) + row.total]),
                     rows + [row])
  {
    hide Tallies;
    TallyNothing(d.totals, rows, TotalsBucket, row);
    TallyNothing(d.monthly, rows, MonthlyBucket, row);
    TallyNothing(d.currencyTotals, rows, CurrencyBucket, row);
    TallyNothing(d.monthTotals, rows, MonthBucket, row);
    Tally(d.receiptTotals, rows, ReceiptBucket, row, row.currency);
    TallyNothing(d.deposits, rows, DepositBucket, row);
    TallyNothing(d.itemTotals, rows, ItemBucket, row);
  }

  lemma TallyDeposit(d: Dicts, rows: seq<Row>, row: Row)
    requires AllTally(d, rows) && row.ItemRow? && CategoryOf(row.rawCategory) == DEPOSIT
    ensures AllTally(d.(itemTotals := d.itemTotals[row.currency := Get(d.itemTotals, row.currency) + row.total],
                        deposits := d.deposits[row.currency := Get(d.deposits, row.currency) + row.total]),
                     rows + [row])
  {
    hide Tallies;
    TallyNothing(d.totals, rows, TotalsBucket, row);
    TallyNothing(d.monthly, rows, MonthlyBucket, row);
    TallyNothing(d.currencyTotals, rows, CurrencyBucket, row);
    TallyNothing(d.monthTotals, rows, MonthBucket, row);
    TallyNothing(d.receiptTotals, rows, ReceiptBucket, row);
    Tally(d.deposits, rows, DepositBucket, row, row.currency);
    Tally(d.itemTotals, rows, ItemBucket, row, row.currency);
  }

  lemma TallyItem(d: Dicts, rows: seq<Row>, row: Row)
    requires AllTally(d, rows) && row.ItemRow? && CategoryOf(row.rawCategory) != DEPOSIT
    ensures var k := (CategoryOf(row.rawCategory), row.currency);
            var mk := (row.month, k.0, k.1);
            var m := (row.month, row.currency);
            AllTally(d.(itemTotals := d.itemTotals[row.currency := Get(d.itemTotals, row.currency) + row.total],
                        totals := d.totals[k := Get(d.totals, k) + row.total],
                        monthly := d.monthly[mk := Get(d.monthly, mk) + row.total],
                        currencyTotals := d.currencyTotals[row.currency := Get(d.currencyTotals, row.currency) + row.total],
                        monthTotals := d.monthTotals[m := Get(d.monthTotals, m) + row.total]),
                     rows + [row])
  {
    hide Tallies;
    var k := (CategoryOf(row.rawCategory), row.currency);
    Tally(d.totals, rows, TotalsBucket, row, k);
    Tally(d.monthly, rows, MonthlyBucket, row, (row.month, k.0, k.1));
    Tally(d.currencyTotals, rows, CurrencyBucket, row, row.currency);
    Tally(d.monthTotals, rows, MonthBucket, row, (row.month, row.currency));
    TallyNothing(d.receiptTotals, rows, ReceiptBucket, row);
    TallyNothing(d.deposits, rows, DepositBucket, row);
    Tally(d.itemTotals, rows, ItemBucket, row, row.currency);
  }

  method Accumulate(rows: seq<Row>) returns (d: Dicts)
    ensures AllTally(d, rows)
  {
    hide AllTally;
    var totals: map<Key, real> := map[];
    var monthly: map<(Date, string, string), real> := map[];
    var currencyTotals: map<string, real> := map[];
    var monthTotals: map<(Date, string), real> := map[];
    var receiptTotals: map<string, real> := map[];
    var deposits: map<string, real> := map[];
    var itemTotals: map<string, real> := map[];
    StartTally();
    for i := 0 to |rows|
      invariant AllTally(Dicts(totals, monthly, currencyTotals, monthTotals, receiptTotals, deposits, itemTotals), rows[..i])
    {
      var row := rows[i];
      var currency := row.currency;
      ghost var before := Dicts(totals, monthly, currencyTotals, monthTotals, receiptTotals, deposits, itemTotals);
      assert rows[..i + 1] == rows[..i] + [row];
      if row.ReceiptRow? {
        TallyReceipt(before, rows[..i], row);
        receiptTotals := receiptTotals[currency := Get(receiptTotals, currency) + row.total];
        continue;
      }
      var category := CategoryOf(row.rawCategory);
      itemTotals := itemTotals[currency := Get(itemTotals, currency) + row.total];
      if category == DEPOSIT {
        TallyDeposit(before, rows[..i], row);
        deposits := deposits[currency := Get(deposits, currency) + row.total];
        continue;
      }
      TallyItem(before, rows[..i], row);
      totals := totals[(category, currency) := Get(totals, (category, currency)) + row.total];
      monthly := monthly[(row.month, category, currency) := Get(monthly, (row.month, category, currency)) + row.total];
      currencyTotals := currencyTotals[currency := Get(currencyTotals, currency) + row.total];
      monthTotals := monthTotals[(row.month, currency) := Get(monthTotals, (row.month, currency)) + row.total];
    }
    assert rows[..|rows|] == rows;
    d := Dicts(totals, monthly, currencyTotals, monthTotals, receiptTotals, deposits, itemTotals);
  }

  /** The keys of a dictionary in the given order. */
  method SortedKeys<K(==, !new)>(s: set<K>, less: (K, K) -> bool) returns (keys: seq<K>)
    requires StrictTotal(less)
    ensures Lists(keys, s, less)
  {
    var todo, listed := s, [];
    while todo != {}
      invariant multiset(listed) + multiset(todo) == multiset(s)
      decreases todo
    {
      var k :| k in todo;
      assert multiset(todo) == multiset(todo - {k}) + multiset{k};
      todo := todo - {k};
      listed := listed + [k];
    }
    keys := Sort(listed, less);
    SortSorts(listed, less);
    SortPermutes(listed, less);
  }

  lemma KeysAreSpendingKeys(d: Dicts, rows: seq<Row>)
    requires AllTally(d, rows)
    ensures d.totals.Keys == SpendingKeys(rows)
    ensures d.receiptTotals.Keys + d.itemTotals.Keys == Currencies(rows)
  {
    hide Occurs, Sum, SpendingKeys, Currencies;
    forall k: Key ensures k in d.totals <==> k in SpendingKeys(rows) {
      StatisticsLaws.SpendingKeysByBucket(rows, k);
      assert k in d.totals <==> Occurs(rows, TotalsBucket(k));
    }
    assert d.totals.Keys == SpendingKeys(rows);
    forall c: string ensures c in d.receiptTotals || c in d.itemTotals <==> c in Currencies(rows) {
      StatisticsLaws.CurrenciesByBucket(rows, c);
      assert c in d.receiptTotals <==> Occurs(rows, ReceiptBucket(c));
      assert c in d.itemTotals <==> Occurs(rows, ItemBucket(c));
    }
    assert d.receiptTotals.Keys + d.itemTotals.Keys == Currencies(rows);
  }

  /** `build_item_statistics`: whatever the order of the rows, their report. */
  method BuildItemStatistics(rows: seq<Row>, months: nat, today: Date) returns (report: Report)
    ensures IsReport(report, rows, months, today)
  {
    hide AllTally, Sum, Occurs, SpendingKeys, Currencies, LexLess, ByName, StrictTotal, Sorted;
    var start := MonthStart(today, 1 - months);
    var d := Accumulate(rows);
    KeysAreSpendingKeys(d, rows);

    ByTotalIsAnOrder(k => Get(d.totals, k));
    var byTotal := SortedKeys(d.totals.Keys, ByTotal(k => Get(d.totals, k)));
    var categories := ListCategories(d, byTotal, rows);
    SameOrder(d, rows, byTotal);

    ByNameIsAnOrder();
    var byName := SortedKeys(d.totals.Keys, ByName);
    var history := ListHistory(d, byName, start, months, today, rows);

    LexIsAnOrder();
    var currencies := SortedKeys(d.receiptTotals.Keys + d.itemTotals.Keys, LexLess);
    var reconciliation := ListReconciliation(d, currencies, rows);
    report := Report(months, start, today, categories, history, reconciliation);
    assert Lists(byName, SpendingKeys(rows), ByName);
    assert Lists(currencies, Currencies(rows), LexLess);
  }

  lemma SameOrder(d: Dicts, rows: seq<Row>, keys: seq<Key>)
    requires AllTally(d, rows)
    requires Lists(keys, SpendingKeys(rows), ByTotal(k => Get(d.totals, k)))
    ensures Lists(keys, SpendingKeys(rows), ByTotal(SpendingOf(rows)))
  {
    hide LexLess, Sum, Occurs, SpendingKeys;
    forall k: Key ensures Get(d.totals, k) == SpendingOf(rows)(k) {
      assert TotalsBucket(k) == Spending(k.0, k.1);
    }
    var less, less' := ByTotal(k => Get(d.totals, k)), ByTotal(SpendingOf(rows));
    assert forall a: Key, b: Key :: less(a, b) == less'(a, b);
  }

  method ListCategories(d: Dicts, keys: seq<Key>, ghost rows: seq<Row>) returns (r: seq<CategoryEntry>)
    requires AllTally(d, rows)
    ensures r == CategoryEntries(rows, keys)
  {
    hide Sum, Occurs, Percentage;
    r := [];
    for i := 0 to |keys|
      invariant r == CategoryEntries(rows, keys)[..i]
    {
      var k := keys[i];
      assert TotalsBucket(k) == Spending(k.0, k.1) && CurrencyBucket(k.1) == AllSpending(k.1);
      var total := Get(d.totals, k);
      r := r + [CategoryEntry(k.0, k.1, total, Percentage(total, Get(d.currencyTotals, k.1)))];
    }
  }

  method ListMonth(d: Dicts, keys: seq<Key>, month: Date, ghost rows: seq<Row>) returns (r: seq<MonthEntry>)
    requires AllTally(d, rows)
    ensures r == MonthEntries(rows, month, keys)
  {
    hide Sum, Occurs, Percentage;
    r := [];
    for i := 0 to |keys|
      invariant r == MonthEntries(rows, month, keys)[..i]
    {
      var k := keys[i];
      assert MonthlyBucket((month, k.0, k.1)) == Monthly(month, k.0, k.1);
      assert MonthBucket((month, k.1)) == MonthSpending(month, k.1);
      var total := Get(d.monthly, (month, k.0, k.1));
      r := r + [MonthEntry(month, k.0, k.1, total, Percentage(total, Get(d.monthTotals, (month, k.1))))];
    }
  }

  method ListHistory(d: Dicts, keys: seq<Key>, start: Date, months: nat, today: Date, ghost rows: seq<Row>)
    returns (r: seq<MonthEntry>)
    requires AllTally(d, rows) && start == MonthStart(today, 1 - months)
    ensures r == History(rows, Window(today, months), keys)
  {
    hide AllTally, MonthEntries, MonthStart;
    ghost var window := Window(today, months);
    r := [];
    for offset := 0 to months
      invariant r == History(rows, window[..offset], keys)
    {
      var month := MonthStart(start, offset);
      var entries := ListMonth(d, keys, month, rows);
      r := r + entries;
      assert window[..offset + 1][..offset] == window[..offset];
    }
    assert window[..months] == window;
  }

  method ListReconciliation(d: Dicts, currencies: seq<string>, ghost rows: seq<Row>) returns (r: seq<Reconciliation>)
    requires AllTally(d, rows)
    ensures r == Reconciliations(rows, currencies)
  {
    hide Sum, Occurs;
    r := [];
    for i := 0 to |currencies|
      invariant r == Reconciliations(rows, currencies)[..i]
    {
      var c := currencies[i];
      assert ReceiptBucket(c) == Receipts(c) && ItemBucket(c) == Items(c) && DepositBucket(c) == Deposits(c);
      r := r + [Reconciliation(c, Get(d.receiptTotals, c), Get(d.itemTotals, c), Get(d.deposits, c),
                               Get(d.receiptTotals, c) - Get(d.itemTotals, c))];
    }
  }
}
