/** Calendar months: `month_start` as arithmetic on the number of months since year 0. */
module Months {
  import opened ReceiptModel

  predicate IsDate(d: Date)
  {
    1 <= d.month <= 12 && 1 <= d.day <= 31
  }

  predicate NotLater(a: Date, b: Date)
  {
    a.year < b.year || (a.year == b.year && (a.month < b.month || (a.month == b.month && a.day <= b.day)))
  }

  /** `month_start`; `divmod` floors, which for the divisor 12 is Dafny's division. */
  function MonthStart(value: Date, offset: int): Date
  {
    var months := value.year * 12 + value.month - 1 + offset;
    Date(months / 12, months % 12 + 1, 1)
  }

  function MonthIndex(d: Date): int
  {
    d.year * 12 + d.month - 1
  }

  lemma MonthStartIsDate(d: Date, offset: int)
    ensures IsDate(MonthStart(d, offset)) && MonthIndex(MonthStart(d, offset)) == MonthIndex(d) + offset
  {
  }

  /** Offsets add up, so the months of a window can be counted from either end. */
  lemma MonthStartIsAdditive(d: Date, a: int, b: int)
    ensures MonthStart(MonthStart(d, a), b) == MonthStart(d, a + b)
  {
    MonthStartIsDate(d, a);
  }

  /** Later offsets give later months; in particular different ones. */
  lemma MonthStartIsIncreasing(d: Date, a: int, b: int)
    ensures a < b <==> NotLater(MonthStart(d, a), MonthStart(d, b)) && MonthStart(d, a) != MonthStart(d, b)
  {
    MonthStartIsDate(d, a);
    MonthStartIsDate(d, b);
  }

  lemma MonthOfIndex(a: Date, b: Date)
    requires IsDate(a) && IsDate(b)
    ensures MonthIndex(a) == MonthIndex(b) <==> a.year == b.year && a.month == b.month
    ensures NotLater(a, b) ==> MonthIndex(a) <= MonthIndex(b)
  {
  }

  /** The months of a report, the current one last. */
  function Window(today: Date, months: nat): (w: seq<Date>)
    ensures |w| == months
  {
    seq(months, i requires 0 <= i < months => MonthStart(MonthStart(today, 1 - months), i))
  }

  /** The window visits each of its months once, in order, and ends with today's. */
  lemma WindowIsAscending(today: Date, months: nat, i: nat, j: nat)
    requires i < j < months
    ensures var w := Window(today, months);
            NotLater(w[i], w[j]) && w[i] != w[j] && w[months - 1] == MonthStart(today, 0)
  {
    MonthStartIsIncreasing(MonthStart(today, 1 - months), i, j);
    MonthStartIsAdditive(today, 1 - months, months - 1);
  }

  /** A date in the reporting period has its month in the window, exactly. */
  lemma PeriodIsWindow(today: Date, months: nat, d: Date)
    requires IsDate(today) && IsDate(d) && NotLater(d, today) && months > 0
    ensures NotLater(MonthStart(today, 1 - months), d) <==> MonthStart(d, 0) in Window(today, months)
  {
    var start := MonthStart(today, 1 - months);
    MonthStartIsDate(today, 1 - months);
    MonthStartIsDate(d, 0);
    var w := Window(today, months);
    MonthOfIndex(d, today);
    MonthOfIndex(start, d);
    var k := MonthIndex(d) - MonthIndex(start);
    if NotLater(start, d) {
      assert 0 <= k < months;
      MonthStartIsDate(start, k);
      MonthOfIndex(w[k], MonthStart(d, 0));
      assert w[k] == MonthStart(d, 0);
    } else {
      MonthOfIndex(d, start);
      forall i | 0 <= i < months ensures w[i] != MonthStart(d, 0) {
        MonthStartIsDate(start, i);
        FirstOfMonth(start, d);
      }
    }
  }

  lemma FirstOfMonth(start: Date, d: Date)
    requires IsDate(start) && IsDate(d) && start.day == 1
    ensures NotLater(start, d) <==> MonthIndex(start) <= MonthIndex(d)
  {
  }
}
