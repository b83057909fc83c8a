/**
  The identity of line items over time: an id that was issued once stays with its receipt and
  its original description in every run and never comes back after it is gone; and an update
  without ids does what the same update with ids does.
 */
module ReceiptIdentity {
  import opened Prelude
  import opened ReceiptModel
  import opened TextKeys
  import opened ReceiptTables
  import opened ReceiptMemory

  // ----- ids over every run

  /** Wherever the id `l` occurs, it is in receipt `r`, and with the original description `o`
      if that is not empty. */
  ghost predicate BelongsTo(t: Tables, l: LineId, r: ReceiptId, o: string)
  {
    forall q, i | q in t.receipts && 0 <= i < |t.receipts[q].lines| ::
      t.receipts[q].lines[i].id == l ==> q == r && (o != "" ==> t.receipts[q].lines[i].original == o)
  }

  /** The id `l` occurs nowhere. */
  ghost predicate Gone(t: Tables, l: LineId)
  {
    forall q, i | q in t.receipts && 0 <= i < |t.receipts[q].lines| :: t.receipts[q].lines[i].id != l
  }

  /** Every line after an operation is a line from before, of the same receipt and with the
      same non-empty original description, or has an id that was not issued before. */
  ghost predicate LineComesFrom(t: Tables, q: ReceiptId, line: Line)
  {
    || t.nextLine <= line.id
    || (q in t.receipts && exists j :: 0 <= j < |t.receipts[q].lines| && Keeps(line, t.receipts[q].lines[j]))
  }

  predicate Keeps(line: Line, prior: Line)
  {
    line.id == prior.id && (prior.original != "" ==> line.original == prior.original)
  }

  lemma UpdateCarriesLines(t: Tables, op: Op, q: ReceiptId, i: nat)
    requires Good(t) && op.UpdateOp? && Update(t, op.id, op.header, op.items, op.user, op.canSeeAll).Updated?
    requires var after := Update(t, op.id, op.header, op.items, op.user, op.canSeeAll).tables;
             q in after.receipts && i < |after.receipts[q].lines|
    ensures LineComesFrom(t, q, Update(t, op.id, op.header, op.items, op.user, op.canSeeAll).tables.receipts[q].lines[i])
  {
    UpdateTouchesOne(t, op.id, op.header, op.items, op.user, op.canSeeAll);
    UpdateKeepsIdentity(t, op.id, op.header, op.items, op.user, op.canSeeAll);
    hide Update, Good, GoodLines;
    var after := Update(t, op.id, op.header, op.items, op.user, op.canSeeAll).tables;
    var line := after.receipts[q].lines[i];
    if q != op.id {
      assert Keeps(line, t.receipts[q].lines[i]);
    } else if line.id < t.nextLine {
      var j :| 0 <= j < |t.receipts[q].lines| && Continues(line, t.receipts[q].lines[j]);
      assert Keeps(line, t.receipts[q].lines[j]);
    }
  }

  lemma PersistCarriesLines(t: Tables, op: Op, q: ReceiptId, i: nat)
    requires Good(t) && op.PersistOp? && Possible(t, op)
    requires q in Apply(t, op).receipts && i < |Apply(t, op).receipts[q].lines|
    ensures LineComesFrom(t, q, Apply(t, op).receipts[q].lines[i])
  {
    PersistedLinesAreGood(t.aliases, op.receipt, op.user, t.nextLine);
    hide NewLines, History, DecideAll, AsUpdates, Descriptions, GoodLines, Good, Update;
    var id := if op.found.Some? then op.found.value else t.nextReceipt;
    var line := Apply(t, op).receipts[q].lines[i];
    if q != id {
      assert Keeps(line, t.receipts[q].lines[i]);
    }
  }

  lemma OpCarriesLines(t: Tables, op: Op, q: ReceiptId, i: nat)
    requires Good(t) && Possible(t, op)
    requires q in Apply(t, op).receipts && i < |Apply(t, op).receipts[q].lines|
    ensures LineComesFrom(t, q, Apply(t, op).receipts[q].lines[i])
  {
    hide Update, Persist, Good, Possible;
    if op.PersistOp? {
      PersistCarriesLines(t, op, q, i);
    } else if op.UpdateOp? && Update(t, op.id, op.header, op.items, op.user, op.canSeeAll).Updated? {
      UpdateCarriesLines(t, op, q, i);
    } else {
      assert Keeps(Apply(t, op).receipts[q].lines[i], t.receipts[q].lines[i]);
    }
  }

  lemma IdsOnlyGrow(t: Tables, op: Op)
    requires Possible(t, op)
    ensures t.nextLine <= Apply(t, op).nextLine
  {
    hide ProcessItems, History, IsReceiptOf;
  }

  lemma OpKeepsBelonging(t: Tables, op: Op, l: LineId, r: ReceiptId, o: string)
    requires Good(t) && Possible(t, op) && l < t.nextLine
    ensures BelongsTo(t, l, r, o) ==> BelongsTo(Apply(t, op), l, r, o)
    ensures Gone(t, l) ==> Gone(Apply(t, op), l)
  {
    hide Apply, Good, Possible;
    var after := Apply(t, op);
    forall q, i | q in after.receipts && 0 <= i < |after.receipts[q].lines| && after.receipts[q].lines[i].id == l
      ensures !Gone(t, l)
      ensures BelongsTo(t, l, r, o) ==> q == r && (o != "" ==> after.receipts[q].lines[i].original == o)
    {
      OpCarriesLines(t, op, q, i);
      var j :| 0 <= j < |t.receipts[q].lines| && Keeps(after.receipts[q].lines[i], t.receipts[q].lines[j]);
    }
  }

  /** Over every sequence of persists, updates, verifications and deletions, an issued line id
      stays with its receipt and keeps its non-empty original description, and once it is gone
      it never comes back. */
  lemma {:induction false} IdsStay(t: Tables, ops: seq<Op>, l: LineId, r: ReceiptId, o: string)
    requires Good(t) && Run(t, ops) && l < t.nextLine
    ensures BelongsTo(t, l, r, o) ==> BelongsTo(After(t, ops), l, r, o)
    ensures Gone(t, l) ==> Gone(After(t, ops), l)
    decreases |ops|
  {
    hide Apply, Possible, Good, BelongsTo, Gone;
    if ops != [] {
      OpKeepsGood(t, ops[0]);
      IdsOnlyGrow(t, ops[0]);
      OpKeepsBelonging(t, ops[0], l, r, o);
      IdsStay(Apply(t, ops[0]), ops[1..], l, r, o);
    }
  }

  /** Read off two moments of a run from a fresh database: lines with one id are lines of one
      receipt, and the later has the earlier's original description unless that was empty. */
  lemma SameIdSameLine(before: seq<Op>, ops: seq<Op>, q: ReceiptId, i: nat, r: ReceiptId, j: nat)
    requires Run(EMPTY, before) && Run(After(EMPTY, before), ops)
    requires var t := After(EMPTY, before); q in t.receipts && i < |t.receipts[q].lines|
    requires var u := After(After(EMPTY, before), ops); r in u.receipts && j < |u.receipts[r].lines|
    requires After(EMPTY, before).receipts[q].lines[i].id == After(After(EMPTY, before), ops).receipts[r].lines[j].id
    ensures q == r
    ensures After(EMPTY, before).receipts[q].lines[i].original != "" ==>
              After(After(EMPTY, before), ops).receipts[r].lines[j].original
              == After(EMPTY, before).receipts[q].lines[i].original
  {
    RunKeepsGood(EMPTY, before);
    var t := After(EMPTY, before);
    var line := t.receipts[q].lines[i];
    assert GoodLines(t.receipts[q].lines, t.nextLine);
    assert line.id < t.nextLine;
    GoodBelongs(t, q, i);
    IdsStay(t, ops, line.id, q, line.original);
    hide Run, After, Good;
  }

  lemma GoodBelongs(t: Tables, q: ReceiptId, i: nat)
    requires Good(t) && q in t.receipts && i < |t.receipts[q].lines|
    ensures BelongsTo(t, t.receipts[q].lines[i].id, q, t.receipts[q].lines[i].original)
  {
    var l := t.receipts[q].lines[i].id;
    hide Dense, HonestLines, Below, KnownAliases;
    forall r, j | r in t.receipts && 0 <= j < |t.receipts[r].lines| && t.receipts[r].lines[j].id == l
      ensures r == q && j == i
    {
      assert GoodLines(t.receipts[q].lines, t.nextLine);
      assert q != r ==> Disjoint(t.receipts[q].lines, t.receipts[r].lines);
    }
  }

  // ----- the form without ids

  /** The update with the ids of the rows at the same positions filled in. */
  function WithIds(rows: seq<Line>, items: seq<ItemUpdate>): (r: seq<ItemUpdate>)
    requires |items| == |rows|
    ensures |r| == |items|
  {
    seq(|items|, i requires 0 <= i < |items| => items[i].(id := Some(rows[i].id)))
  }

  /** An update without ids of as many items as there are rows, with unchanged descriptions. */
  predicate Matches(rows: seq<Line>, items: seq<ItemUpdate>)
  {
    Legacy(items) && |items| == |rows|
    && forall i :: 0 <= i < |rows| ==> items[i].description == rows[i].description
  }

  lemma MatchingLengths(rows: seq<Line>, items: seq<ItemUpdate>)
    requires Matches(rows, items)
    ensures |items| == |rows|
  {
  }

  lemma SameOldRow(rows: seq<Line>, items: seq<ItemUpdate>, n: nat)
    requires Dense(rows) && DistinctIds(rows) && Matches(rows, items) && n < |rows|
    ensures OldRow(rows, items, n) == Some(rows[n]) == OldRow(rows, WithIds(rows, items), n)
  {
    FindsById(rows, n);
    FindsByPosition(rows, n);
    hide ById, ByPosition;
  }

  lemma SameAdvance(p: Progress, rows: seq<Line>, items: seq<ItemUpdate>, n: nat, owner: Option<UserId>, merchant: string)
    requires Dense(rows) && DistinctIds(rows) && Matches(rows, items) && n < |rows|
    ensures Advance(p, rows, items, n, owner, merchant) == Advance(p, rows, WithIds(rows, items), n, owner, merchant)
  {
    SameOldRow(rows, items, n);
    hide OldRow, Dense, DistinctIds, NormalizeHistoryKey, Teach;
    assert Decide(Some(rows[n]), items[n]) == Decide(Some(rows[n]), WithIds(rows, items)[n]);
  }

  lemma ProcessStep(
    aliases: Aliases, rows: seq<Line>, items: seq<ItemUpdate>, n: nat, owner: Option<UserId>, merchant: string)
    requires n <= |items|
    ensures n == 0 ==> ProcessItems(aliases, rows, items, n, owner, merchant) == Ok(Progress({}, [], aliases))
    ensures n > 0 ==>
              var before := ProcessItems(aliases, rows, items, n - 1, owner, merchant);
              ProcessItems(aliases, rows, items, n, owner, merchant)
              == if before.Err? then before else Advance(before.value, rows, items, n - 1, owner, merchant)
  {
    hide Advance;
  }

  lemma {:induction false} SameProgress(
    aliases: Aliases, rows: seq<Line>, items: seq<ItemUpdate>, n: nat, owner: Option<UserId>, merchant: string)
    requires Dense(rows) && DistinctIds(rows) && Matches(rows, items) && n <= |rows|
    ensures ProcessItems(aliases, rows, items, n, owner, merchant)
         == ProcessItems(aliases, rows, WithIds(rows, items), n, owner, merchant)
  {
    hide *;
    MatchingLengths(rows, items);
    ProcessStep(aliases, rows, items, n, owner, merchant);
    ProcessStep(aliases, rows, WithIds(rows, items), n, owner, merchant);
    if n > 0 {
      SameProgress(aliases, rows, items, n - 1, owner, merchant);
      var before := ProcessItems(aliases, rows, items, n - 1, owner, merchant);
      if before.Ok? {
        SameAdvance(before.value, rows, items, n - 1, owner, merchant);
      }
    }
  }

  lemma {:induction false} SameNewLines(
    rows: seq<Line>, items: seq<ItemUpdate>, decisions: seq<Decision>, n: nat, next: LineId)
    requires n <= |items| == |rows| == |decisions|
    ensures NewLines(items, decisions, n, next) == NewLines(WithIds(rows, items), decisions, n, next)
  {
    if n > 0 {
      SameNewLines(rows, items, decisions, n - 1, next);
    }
  }

  /** The form without ids gives the same result as the form with ids when count, order and
      descriptions match, whatever else it changes or remembers, and also when it is refused
      for its scope. */
  lemma LegacyAgrees(
    t: Tables, id: ReceiptId, header: Receipt, items: seq<ItemUpdate>, user: Option<UserId>, canSeeAll: bool)
    requires Good(t) && id in t.receipts && Matches(t.receipts[id].lines, items)
    ensures Update(t, id, header, items, user, canSeeAll)
         == Update(t, id, header, WithIds(t.receipts[id].lines, items), user, canSeeAll)
  {
    var row := t.receipts[id];
    assert GoodLines(row.lines, t.nextLine);
    SameProgress(t.aliases, row.lines, items, |items|, row.owner, header.merchantName);
    hide ProcessItems, NewLines, WithIds, Matches, Good, GoodLines;
    var p := ProcessItems(t.aliases, row.lines, items, |items|, row.owner, header.merchantName);
    if p.Ok? {
      SameNewLines(row.lines, items, p.value.decisions, |items|, t.nextLine);
    }
  }
}
