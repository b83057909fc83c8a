/**
  The statistics query: verified receipts of the period in the caller's scope, joined with
  their line items and grouped. The service's report is the report of the ungrouped rows.
 */
module StatisticsQuery {
  import opened Prelude
  import opened ReceiptModel
  import opened Months
  import opened Statistics
  import opened StatisticsLaws
  import StatisticsBuilder

  type ReceiptId = nat
  type UserId = nat
  type CollectionId = nat

  datatype ReceiptRecord = ReceiptRecord(
    id: ReceiptId, owner: Option<UserId>, statusVerified: bool, verified: bool, date: Date, currency: string, total: real)

  datatype LineRecord = LineRecord(receipt: ReceiptId, category: string, total: real)

  datatype Database = Database(
    receipts: seq<ReceiptRecord>, lines: seq<LineRecord>, links: seq<(ReceiptId, CollectionId)>)

  datatype Query = Query(dateFrom: Date, dateTo: Date, seeAll: bool, user: UserId, collection: Option<CollectionId>)

  /** The collection filter asks whether a link row exists; it joins none. */
  predicate InScope(r: ReceiptRecord, q: Query, links: seq<(ReceiptId, CollectionId)>)
  {
    && r.statusVerified && r.verified
    && NotLater(q.dateFrom, r.date) && NotLater(r.date, q.dateTo)
    && (q.seeAll || r.owner == Some(q.user))
    && (q.collection.None? || exists k :: 0 <= k < |links| && links[k] == (r.id, q.collection.value))
  }

  /** The join of one receipt with its line items. */
  function ItemRows(r: ReceiptRecord, lines: seq<LineRecord>): seq<Row>
  {
    if lines == [] then []
    else
      var l := lines[|lines| - 1];
      ItemRows(r, lines[..|lines| - 1])
      + if l.receipt == r.id then [ItemRow(MonthStart(r.date, 0), Some(l.category), r.currency, l.total)] else []
  }

  /** The rows before grouping: per scoped receipt its total and its items. */
  function RawRows(receipts: seq<ReceiptRecord>, db: Database, q: Query): seq<Row>
  {
    if receipts == [] then []
    else
      var r := receipts[|receipts| - 1];
      RawRows(receipts[..|receipts| - 1], db, q)
      + if InScope(r, q, db.links) then [ReceiptRow(r.currency, r.total)] + ItemRows(r, db.lines) else []
  }

  // ----- grouping

  /** One row added to the groups: to its group if there is one, as a new group otherwise. */
  function AddToGroup(groups: seq<Row>, row: Row): (r: seq<Row>)
    ensures |groups| <= |r|
  {
    if groups == [] then [row]
    else
      var last := |groups| - 1;
      if KeyOf(groups[last]) == KeyOf(row) then groups[last := groups[last].(total := groups[last].total + row.total)]
      else AddToGroup(groups[..last], row) + [groups[last]]
  }

  function GroupRows(rows: seq<Row>): seq<Row>
  {
    if rows == [] then [] else AddToGroup(GroupRows(rows[..|rows| - 1]), rows[|rows| - 1])
  }

  predicate KeysDiffer(groups: seq<Row>)
  {
    forall i, j :: 0 <= i < j < |groups| ==> KeyOf(groups[i]) != KeyOf(groups[j])
  }

  lemma {:induction false} AddToGroupIs(groups: seq<Row>, row: Row)
    requires KeysDiffer(groups)
    ensures KeysDiffer(AddToGroup(groups, row))
    ensures KeySet(AddToGroup(groups, row)) == KeySet(groups) + {KeyOf(row)}
    ensures forall b: Bucket ::
              Sum(AddToGroup(groups, row), b) == Sum(groups, b) + if Counts(row, b) then row.total else 0.0
  {
    hide InBucket, Sum, KeySet;
    if groups == [] {
      KeySetStep([], row);
      NoKeys();
      NoSums();
      assert [] + [row] == [row];
      forall b: Bucket ensures Sum([row], b) == if Counts(row, b) then row.total else 0.0 {
        SumAppend([], row, b);
      }
    } else {
      var rest, g := groups[..|groups| - 1], groups[|groups| - 1];
      assert groups == rest + [g];
      KeySetStep(rest, g);
      if KeyOf(g) == KeyOf(row) {
        var g' := g.(total := g.total + row.total);
        assert AddToGroup(groups, row) == rest + [g'];
        KeySetStep(rest, g');
        forall b: Bucket ensures Sum(rest + [g'], b) == Sum(groups, b) + if Counts(row, b) then row.total else 0.0 {
          SumAppend(rest, g, b);
          SumAppend(rest, g', b);
        }
      } else {
        AddToGroupIs(rest, row);
        var added := AddToGroup(rest, row);
        KeySetStep(added, g);
        KeysDifferStep(rest, added, g, row);
        forall b: Bucket ensures Sum(added + [g], b) == Sum(groups, b) + if Counts(row, b) then row.total else 0.0 {
          SumAppend(rest, g, b);
          SumAppend(added, g, b);
        }
      }
    }
  }

  lemma NoKeys()
    ensures KeySet([]) == {}
  {
  }

  lemma NoSums()
    ensures forall b: Bucket :: Sum([], b) == 0.0
  {
  }

  lemma KeySetStep(rest: seq<Row>, g: Row)
    ensures KeySet(rest + [g]) == KeySet(rest) + {KeyOf(g)}
  {
    hide KeyOf;
    var all := rest + [g];
    assert forall i :: 0 <= i < |rest| ==> all[i] == rest[i];
    assert all[|rest|] == g;
  }

  lemma KeysDifferStep(rest: seq<Row>, added: seq<Row>, g: Row, row: Row)
    requires KeysDiffer(rest + [g]) && KeysDiffer(added) && KeyOf(g) != KeyOf(row)
    requires KeySet(added) == KeySet(rest) + {KeyOf(row)}
    ensures KeysDiffer(added + [g])
  {
    hide KeyOf;
    forall i | 0 <= i < |added| ensures KeyOf(added[i]) != KeyOf(g) {
      assert KeyOf(added[i]) in KeySet(added);
      if KeyOf(added[i]) in KeySet(rest) {
        var j :| 0 <= j < |rest| && KeyOf(rest[j]) == KeyOf(added[i]);
        assert (rest + [g])[j] == rest[j] && (rest + [g])[|rest|] == g;
      }
    }
  }

  lemma {:induction false} GroupRowsIs(rows: seq<Row>)
    ensures KeysDiffer(GroupRows(rows)) && KeySet(GroupRows(rows)) == KeySet(rows)
    ensures forall b: Bucket :: Sum(GroupRows(rows), b) == Sum(rows, b)
  {
    if rows != [] {
      var rest, row := rows[..|rows| - 1], rows[|rows| - 1];
      GroupRowsIs(rest);
      AddToGroupIs(GroupRows(rest), row);
      KeySetStep(rest, row);
      assert rows == rest + [row];
      hide AddToGroup, KeySet, InBucket, KeyOf, KeysDiffer;
    }
  }

  lemma {:induction false} OwnGroupSum(groups: seq<Row>, g: nat)
    requires KeysDiffer(groups) && g < |groups|
    ensures Sum(groups, Group(KeyOf(groups[g]))) == groups[g].total
  {
    hide KeyOf;
    var rest, last := groups[..|groups| - 1], groups[|groups| - 1];
    if g < |rest| {
      OwnGroupSum(rest, g);
    } else {
      NoGroupSum(rest, KeyOf(last));
    }
  }

  lemma {:induction false} NoGroupSum(groups: seq<Row>, key: GroupKey)
    requires forall i :: 0 <= i < |groups| ==> KeyOf(groups[i]) != key
    ensures Sum(groups, Group(key)) == 0.0
  {
    hide KeyOf;
    if groups != [] {
      NoGroupSum(groups[..|groups| - 1], key);
    }
  }

  /** Adding rows up group by group is a grouping. */
  lemma GroupRowsGroup(rows: seq<Row>)
    ensures IsGrouping(GroupRows(rows), rows)
  {
    GroupRowsIs(rows);
    hide GroupRows, KeyOf, Sum, KeySet;
    var groups := GroupRows(rows);
    forall g | 0 <= g < |groups| ensures groups[g].total == Sum(rows, Group(KeyOf(groups[g]))) {
      OwnGroupSum(groups, g);
    }
  }

  // ----- the service

  lemma {:induction false} ItemMonths(r: ReceiptRecord, lines: seq<LineRecord>)
    ensures forall i :: 0 <= i < |ItemRows(r, lines)| ==>
              ItemRows(r, lines)[i].ItemRow? && ItemRows(r, lines)[i].month == MonthStart(r.date, 0)
  {
    hide MonthStart;
    if lines != [] {
      ItemMonths(r, lines[..|lines| - 1]);
    }
  }

  lemma {:induction false} RawMonths(receipts: seq<ReceiptRecord>, db: Database, q: Query, months: nat)
    requires q.dateFrom == MonthStart(q.dateTo, 1 - months) && IsDate(q.dateTo) && months > 0
    requires forall r :: r in receipts ==> IsDate(r.date)
    ensures forall i :: 0 <= i < |RawRows(receipts, db, q)| && RawRows(receipts, db, q)[i].ItemRow? ==>
              RawRows(receipts, db, q)[i].month in Window(q.dateTo, months)
  {
    if receipts != [] {
      var rest, r := receipts[..|receipts| - 1], receipts[|receipts| - 1];
      RawMonths(rest, db, q, months);
      ItemMonths(r, db.lines);
      if InScope(r, q, db.links) {
        PeriodIsWindow(q.dateTo, months, r.date);
      }
      hide MonthStart, Window, ItemRows, NotLater;
    }
  }

  /** `get_statistics` with the query's grouping: the report of the ungrouped rows. */
  method ItemStatistics(db: Database, q: Query, months: nat) returns (report: Report)
    ensures IsReport(report, RawRows(db.receipts, db, q), months, q.dateTo)
  {
    hide IsReport, RawRows, GroupRows, IsGrouping;
    var rows := RawRows(db.receipts, db, q);
    var groups := GroupRows(rows);
    GroupRowsGroup(rows);
    report := StatisticsBuilder.BuildItemStatistics(groups, months, q.dateTo);
    PreAggregationKeepsTheReport(report, groups, rows, months, q.dateTo);
  }

  /** What `get_statistics` promises of a database and its report, for any result `groups` of the query:
      the report is that of the ungrouped rows, its totals reconcile, and the months of every
      category add up to its total. */
  lemma StatisticsOfDatabase(
    db: Database, q: Query, months: nat, groups: seq<Row>, report: Report, c: nat, r: nat)
    requires q.dateFrom == MonthStart(q.dateTo, 1 - months) && IsDate(q.dateTo) && months > 0
    requires forall x :: x in db.receipts ==> IsDate(x.date)
    requires IsGrouping(groups, RawRows(db.receipts, db, q)) && IsReport(report, groups, months, q.dateTo)
    ensures IsReport(report, RawRows(db.receipts, db, q), months, q.dateTo)
    ensures c < |report.categories| ==>
              HistoryTotal(report.monthly, (report.categories[c].category, report.categories[c].currency))
              == report.categories[c].total
    ensures r < |report.reconciliation| ==>
              var x := report.reconciliation[r];
              && x.itemTotal == x.depositTotal + CategoryTotal(report.categories, x.currency)
              && x.itemTotal + x.unallocatedTotal == x.receiptTotal
  {
    var rows := RawRows(db.receipts, db, q);
    PreAggregationKeepsTheReport(report, groups, rows, months, q.dateTo);
    RawMonths(db.receipts, db, q, months);
    hide IsReport, RawRows, Window, IsGrouping;
    if c < |report.categories| {
      MonthsAddUp(report, rows, months, q.dateTo, c);
    }
    if r < |report.reconciliation| {
      TotalsReconcile(report, rows, months, q.dateTo, r);
    }
  }

  /** Only the existence of a link to the requested collection matters: more link rows of a
      receipt, to this collection or to others, change no row. */
  lemma {:induction false} CollectionsCountOnce(
    receipts: seq<ReceiptRecord>, db: Database, links: seq<(ReceiptId, CollectionId)>, q: Query)
    requires q.collection.Some? ==>
               forall r :: r in receipts ==> ((r.id, q.collection.value) in links <==> (r.id, q.collection.value) in db.links)
    ensures RawRows(receipts, db.(links := links), q) == RawRows(receipts, db, q)
  {
    if receipts != [] {
      CollectionsCountOnce(receipts[..|receipts| - 1], db, links, q);
      hide ItemRows;
      var r := receipts[|receipts| - 1];
      assert r in receipts;
      assert InScope(r, q, links) <==> InScope(r, q, db.links);
    }
  }

  /** The receipts in scope, and the receipt rows of a row list */
  function Scoped(receipts: seq<ReceiptRecord>, q: Query, links: seq<(ReceiptId, CollectionId)>): seq<ReceiptRecord>
  {
    if receipts == [] then []
    else
      var r := receipts[|receipts| - 1];
      Scoped(receipts[..|receipts| - 1], q, links) + if InScope(r, q, links) then [r] else []
  }

  function ReceiptRows(rows: seq<Row>): seq<Row>
  {
    if rows == [] then []
    else ReceiptRows(rows[..|rows| - 1]) + if rows[|rows| - 1].ReceiptRow? then [rows[|rows| - 1]] else []
  }

  lemma {:induction false} ReceiptRowsConcat(a: seq<Row>, b: seq<Row>)
    ensures ReceiptRows(a + b) == ReceiptRows(a) + ReceiptRows(b)
  {
    if b == [] {
      assert a + b == a;
    } else {
      ReceiptRowsConcat(a, b[..|b| - 1]);
      assert (a + b)[..|a + b| - 1] == a + b[..|b| - 1];
    }
  }

  lemma OneRow(row: Row)
    ensures ReceiptRows([row]) == if row.ReceiptRow? then [row] else []
  {
    assert [row][..0] == [];
  }

  lemma {:induction false} ItemsAreNoReceipts(r: ReceiptRecord, lines: seq<LineRecord>)
    ensures ReceiptRows(ItemRows(r, lines)) == []
  {
    if lines != [] {
      var rest, l := lines[..|lines| - 1], lines[|lines| - 1];
      ItemsAreNoReceipts(r, rest);
      hide ReceiptRows, MonthStart;
      if l.receipt == r.id {
        var row := ItemRow(MonthStart(r.date, 0), Some(l.category), r.currency, l.total);
        ReceiptRowsConcat(ItemRows(r, rest), [row]);
        OneRow(row);
        assert ItemRows(r, lines) == ItemRows(r, rest) + [row];
      } else {
        assert ItemRows(r, lines) == ItemRows(r, rest);
      }
    }
  }

  function TotalRows(receipts: seq<ReceiptRecord>): (r: seq<Row>)
    ensures |r| == |receipts|
  {
    seq(|receipts|, i requires 0 <= i < |receipts| => ReceiptRow(receipts[i].currency, receipts[i].total))
  }

  lemma RowsStep(receipts: seq<ReceiptRecord>, db: Database, q: Query)
    requires receipts != []
    ensures var rest, r := receipts[..|receipts| - 1], receipts[|receipts| - 1];
            if InScope(r, q, db.links) then
              && RawRows(receipts, db, q) == RawRows(rest, db, q) + ([ReceiptRow(r.currency, r.total)] + ItemRows(r, db.lines))
              && TotalRows(Scoped(receipts, q, db.links))
                 == TotalRows(Scoped(rest, q, db.links)) + [ReceiptRow(r.currency, r.total)]
            else
              && RawRows(receipts, db, q) == RawRows(rest, db, q)
              && Scoped(receipts, q, db.links) == Scoped(rest, q, db.links)
  {
    hide InScope, ItemRows;
  }

  /** Each receipt in scope contributes its total exactly once, however many items and link
      rows it has. */
  lemma {:induction false} ReceiptsCountOnce(receipts: seq<ReceiptRecord>, db: Database, q: Query)
    ensures ReceiptRows(RawRows(receipts, db, q)) == TotalRows(Scoped(receipts, q, db.links))
  {
    if receipts != [] {
      hide *;
      var rest, r := receipts[..|receipts| - 1], receipts[|receipts| - 1];
      ReceiptsCountOnce(rest, db, q);
      RowsStep(receipts, db, q);
      if InScope(r, q, db.links) {
        var own := ReceiptRow(r.currency, r.total);
        ItemsAreNoReceipts(r, db.lines);
        OneRow(own);
        ReceiptRowsConcat([own], ItemRows(r, db.lines));
        ReceiptRowsConcat(RawRows(rest, db, q), [own] + ItemRows(r, db.lines));
      }
    }
  }
}
