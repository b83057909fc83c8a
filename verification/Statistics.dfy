/**
  The item statistics report as a function of the rows it is built from: sums over
  buckets, and lists in the program's sort orders.
 */
module Statistics {
  import opened Prelude
  import opened ReceiptModel
  import opened Months
  import opened Sorting

  /** A row of the query: an item amount with its month and category, or a receipt total. */
  datatype Row =
    | ItemRow(month: Date, rawCategory: Option<string>, currency: string, total: real)
    | ReceiptRow(currency: string, total: real)

  /** `row["category"] or "unknown"` */
  function CategoryOf(raw: Option<string>): string
  {
    if raw.None? || raw.value == "" then "unknown" else raw.value
  }

  const DEPOSIT: string := "deposit"

  datatype GroupKey = ItemGroup(month: Date, rawCategory: Option<string>, currency: string) | ReceiptGroup(currency: string)

  function KeyOf(row: Row): GroupKey
  {
    match row
    case ItemRow(month, raw, currency, _) => ItemGroup(month, raw, currency)
    case ReceiptRow(currency, _) => ReceiptGroup(currency)
  }

  /** The totals that a report is made of. */
  datatype Bucket =
    | Spending(category: string, currency: string)
    | Monthly(month: Date, category: string, currency: string)
    | AllSpending(currency: string)
    | MonthSpending(month: Date, currency: string)
    | Receipts(currency: string)
    | Deposits(currency: string)
    | Items(currency: string)
    | Group(key: GroupKey)

  /** Whether rows with key `key` count towards bucket `b`. */
  predicate InBucket(key: GroupKey, b: Bucket)
  {
    match b
    case Receipts(currency) => key == ReceiptGroup(currency)
    case Group(k) => key == k
    case Items(currency) => key.ItemGroup? && key.currency == currency
    case Deposits(currency) => key.ItemGroup? && key.currency == currency && CategoryOf(key.rawCategory) == DEPOSIT
    case AllSpending(currency) =>
      key.ItemGroup? && key.currency == currency && CategoryOf(key.rawCategory) != DEPOSIT
    case MonthSpending(month, currency) =>
      key.ItemGroup? && key.currency == currency && CategoryOf(key.rawCategory) != DEPOSIT && key.month == month
    case Spending(category, currency) =>
      key.ItemGroup? && key.currency == currency && CategoryOf(key.rawCategory) == category && category != DEPOSIT
    case Monthly(month, category, currency) =>
      key.ItemGroup? && key.currency == currency && CategoryOf(key.rawCategory) == category && category != DEPOSIT
      && key.month == month
  }

  predicate Counts(row: Row, b: Bucket)
  {
    InBucket(KeyOf(row), b)
  }

  function Sum(rows: seq<Row>, b: Bucket): real
  {
    if rows == [] then 0.0
    else Sum(rows[..|rows| - 1], b) + if Counts(rows[|rows| - 1], b) then rows[|rows| - 1].total else 0.0
  }

  predicate Occurs(rows: seq<Row>, b: Bucket)
  {
    exists i :: 0 <= i < |rows| && Counts(rows[i], b)
  }

  // ----- shares

  /** `Decimal.quantize(0.01)` with the default rounding: ties to even. */
  function Quantize(x: real): real
  {
    var n := (x * 100.0).Floor;
    var rest := x * 100.0 - n as real;
    var m := if rest < 0.5 then n else if rest > 0.5 then n + 1 else if n % 2 == 0 then n else n + 1;
    m as real / 100.0
  }

  /** A percentage before and after rounding. */
  function Percent(amount: real, total: real): real
    requires total > 0.0
  {
    amount / total * 100.0
  }

  function Percentage(amount: real, total: real): Option<real>
  {
    if total > 0.0 then Some(Quantize(Percent(amount, total))) else None
  }

  // ----- sort orders

  predicate LexLess(a: string, b: string)
  {
    b != "" && (a == "" || a[0] < b[0] || (a[0] == b[0] && LexLess(a[1..], b[1..])))
  }

  type Key = (string, string)

  /** `sorted(totals)`: by category, then currency */
  predicate ByName(a: Key, b: Key)
  {
    LexLess(a.0, b.0) || (a.0 == b.0 && LexLess(a.1, b.1))
  }

  /** The order of the category list: by currency, then falling total, then category. */
  function ByTotal(totals: Key -> real): (Key, Key) -> bool
  {
    (a: Key, b: Key) =>
      LexLess(a.1, b.1)
      || (a.1 == b.1 && (totals(a) > totals(b) || (totals(a) == totals(b) && LexLess(a.0, b.0))))
  }

  function SpendingOf(rows: seq<Row>): Key -> real
  {
    (k: Key) => Sum(rows, Spending(k.0, k.1))
  }

  lemma {:induction false} LexIsTransitive(a: string, b: string, c: string)
    requires LexLess(a, b) && LexLess(b, c)
    ensures LexLess(a, c)
  {
    if a != "" && a[0] == b[0] && b[0] == c[0] {
      LexIsTransitive(a[1..], b[1..], c[1..]);
    }
  }

  lemma {:induction false} LexIsTotal(a: string, b: string)
    ensures LexLess(a, b) || LexLess(b, a) || a == b
    ensures !(LexLess(a, b) && LexLess(b, a)) && !LexLess(a, a)
  {
    if a != "" {
      LexIsIrreflexive(a);
    }
    if a != "" && b != "" && a[0] == b[0] {
      LexIsTotal(a[1..], b[1..]);
      assert a == [a[0]] + a[1..] && b == [b[0]] + b[1..];
    }
  }

  lemma {:induction false} LexIsIrreflexive(a: string)
    ensures !LexLess(a, a)
  {
    if a != "" {
      LexIsIrreflexive(a[1..]);
    }
  }

  lemma LexIsAnOrder()
    ensures StrictTotal(LexLess)
  {
    forall a, b ensures (LexLess(a, b) || LexLess(b, a) || a == b) && !LexLess(a, a) {
      LexIsTotal(a, b);
    }
    forall a, b, c | LexLess(a, b) && LexLess(b, c) ensures LexLess(a, c) {
      LexIsTransitive(a, b, c);
    }
  }

  lemma LexPair(x: string, y: string)
    ensures LexLess(x, y) || LexLess(y, x) || x == y
    ensures !(LexLess(x, y) && LexLess(y, x)) && !LexLess(x, x)
  {
    LexIsTotal(x, y);
  }

  lemma LexTriple(x: string, y: string, z: string)
    ensures LexLess(x, y) && LexLess(y, z) ==> LexLess(x, z)
  {
    if LexLess(x, y) && LexLess(y, z) {
      LexIsTransitive(x, y, z);
    }
  }

  lemma ByNameIsAnOrder()
    ensures StrictTotal(ByName)
  {
    hide LexLess;
    forall a: Key, b: Key ensures (ByName(a, b) || ByName(b, a) || a == b) && !ByName(a, a) {
      LexPair(a.0, b.0);
      LexPair(a.1, b.1);
    }
    forall a: Key, b: Key, c: Key | ByName(a, b) && ByName(b, c) ensures ByName(a, c) {
      LexTriple(a.0, b.0, c.0);
      LexTriple(a.1, b.1, c.1);
    }
  }

  lemma ByTotalIsAnOrder(totals: Key -> real)
    ensures StrictTotal(ByTotal(totals))
  {
    hide LexLess;
    var less := ByTotal(totals);
    forall a: Key, b: Key ensures (less(a, b) || less(b, a) || a == b) && !less(a, a) {
      LexPair(a.0, b.0);
      LexPair(a.1, b.1);
    }
    forall a: Key, b: Key, c: Key | less(a, b) && less(b, c) ensures less(a, c) {
      LexTriple(a.0, b.0, c.0);
      LexTriple(a.1, b.1, c.1);
    }
  }

  /** `keys` lists the set `s` once, in the given order. */
  ghost predicate Lists<T(!new)>(keys: seq<T>, s: set<T>, less: (T, T) -> bool)
  {
    Sorted(keys, less) && multiset(keys) == multiset(s)
  }

  // ----- the report

  function SpendingKeys(rows: seq<Row>): set<Key>
  {
    set i | 0 <= i < |rows| && rows[i].ItemRow? && CategoryOf(rows[i].rawCategory) != DEPOSIT
      :: (CategoryOf(rows[i].rawCategory), rows[i].currency)
  }

  function Currencies(rows: seq<Row>): set<string>
  {
    set i | 0 <= i < |rows| :: rows[i].currency
  }

  datatype CategoryEntry = CategoryEntry(category: string, currency: string, total: real, share: Option<real>)

  datatype MonthEntry = MonthEntry(month: Date, category: string, currency: string, total: real, share: Option<real>)

  datatype Reconciliation = Reconciliation(
    currency: string, receiptTotal: real, itemTotal: real, depositTotal: real, unallocatedTotal: real)

  datatype Report = Report(
    months: nat, dateFrom: Date, dateTo: Date,
    categories: seq<CategoryEntry>, monthly: seq<MonthEntry>, reconciliation: seq<Reconciliation>)

  function CategoryEntryOf(rows: seq<Row>, k: Key): CategoryEntry
  {
    var total := Sum(rows, Spending(k.0, k.1));
    CategoryEntry(k.0, k.1, total, Percentage(total, Sum(rows, AllSpending(k.1))))
  }

  function MonthEntryOf(rows: seq<Row>, month: Date, k: Key): MonthEntry
  {
    var total := Sum(rows, Monthly(month, k.0, k.1));
    MonthEntry(month, k.0, k.1, total, Percentage(total, Sum(rows, MonthSpending(month, k.1))))
  }

  function ReconciliationOf(rows: seq<Row>, currency: string): Reconciliation
  {
    Reconciliation(currency, Sum(rows, Receipts(currency)), Sum(rows, Items(currency)), Sum(rows, Deposits(currency)),
                   Sum(rows, Receipts(currency)) - Sum(rows, Items(currency)))
  }

  function CategoryEntries(rows: seq<Row>, keys: seq<Key>): (r: seq<CategoryEntry>)
    ensures |r| == |keys|
  {
    seq(|keys|, i requires 0 <= i < |keys| => CategoryEntryOf(rows, keys[i]))
  }

  function MonthEntries(rows: seq<Row>, month: Date, keys: seq<Key>): (r: seq<MonthEntry>)
    ensures |r| == |keys|
  {
    seq(|keys|, i requires 0 <= i < |keys| => MonthEntryOf(rows, month, keys[i]))
  }

  /** The months in order, each with every category. */
  function History(rows: seq<Row>, window: seq<Date>, keys: seq<Key>): seq<MonthEntry>
  {
    if window == [] then []
    else History(rows, window[..|window| - 1], keys) + MonthEntries(rows, window[|window| - 1], keys)
  }

  function Reconciliations(rows: seq<Row>, currencies: seq<string>): (r: seq<Reconciliation>)
    ensures |r| == |currencies|
  {
    seq(|currencies|, i requires 0 <= i < |currencies| => ReconciliationOf(rows, currencies[i]))
  }

  /** Every category, the largest spending first. */
  ghost predicate IsCategoryList(list: seq<CategoryEntry>, rows: seq<Row>)
  {
    exists keys :: Lists(keys, SpendingKeys(rows), ByTotal(SpendingOf(rows))) && list == CategoryEntries(rows, keys)
  }

  ghost predicate IsHistory(list: seq<MonthEntry>, rows: seq<Row>, window: seq<Date>)
  {
    exists keys :: Lists(keys, SpendingKeys(rows), ByName) && list == History(rows, window, keys)
  }

  ghost predicate IsReconciliation(list: seq<Reconciliation>, rows: seq<Row>)
  {
    exists currencies :: Lists(currencies, Currencies(rows), LexLess) && list == Reconciliations(rows, currencies)
  }

  /** `report` is the report of `rows`: its three lists, in their orders. */
  ghost predicate IsReport(report: Report, rows: seq<Row>, months: nat, today: Date)
  {
    && report.months == months
    && report.dateFrom == MonthStart(today, 1 - months)
    && report.dateTo == today
    && IsCategoryList(report.categories, rows)
    && IsHistory(report.monthly, rows, Window(today, months))
    && IsReconciliation(report.reconciliation, rows)
  }
}
