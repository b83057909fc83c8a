/**
  What the receipt tables keep over every sequence of persists, updates and deletions, and
  what a user gets back from them: stable line identities, honest provenance, reading and
  writing back without loss, and categories that are recalled as they were taught.
 */
module ReceiptMemory {
  import opened Prelude
  import opened ReceiptModel
  import opened TextKeys
  import opened ReceiptTables

  // ----- invariants of the tables

  predicate Dense(lines: seq<Line>)
  {
    forall i :: 0 <= i < |lines| ==> lines[i].position == i
  }

  predicate DistinctIds(lines: seq<Line>)
  {
    forall i, j :: 0 <= i < j < |lines| ==> lines[i].id != lines[j].id
  }

  /** A category has a source, and a source other than the user has a category. */
  predicate Honest(category: SpendingCategory, source: Source)
  {
    && (source == FromNowhere ==> category == Unknown)
    && (source == FromLlm || source == FromHistory ==> category != Unknown)
  }

  predicate HonestLines(lines: seq<Line>)
  {
    forall i :: 0 <= i < |lines| ==> Honest(lines[i].category, lines[i].source)
  }

  predicate Below(lines: seq<Line>, next: LineId)
  {
    forall i :: 0 <= i < |lines| ==> lines[i].id < next
  }

  ghost predicate Disjoint(a: seq<Line>, b: seq<Line>)
  {
    forall i, j :: 0 <= i < |a| && 0 <= j < |b| ==> a[i].id != b[j].id
  }

  predicate GoodLines(lines: seq<Line>, next: LineId)
  {
    Dense(lines) && DistinctIds(lines) && HonestLines(lines) && Below(lines, next)
  }

  predicate KnownAliases(aliases: Aliases)
  {
    forall k :: k in aliases ==> aliases[k] != Unknown
  }

  ghost predicate Good(t: Tables)
  {
    && (forall r :: r in t.receipts ==>
          r < t.nextReceipt && t.receipts[r].header.lineItems == [] && GoodLines(t.receipts[r].lines, t.nextLine))
    && (forall q, r :: q in t.receipts && r in t.receipts && q != r ==>
          Disjoint(t.receipts[q].lines, t.receipts[r].lines))
    && KnownAliases(t.aliases)
  }

  // ----- the rows that an insert produces

  /** Decisions whose reused ids are distinct and already issued. */
  ghost predicate SoundDecisions(decisions: seq<Decision>, next: LineId)
  {
    && (forall i :: 0 <= i < |decisions| && decisions[i].id.Some? ==> decisions[i].id.value < next)
    && (forall i, j :: 0 <= i < j < |decisions| && decisions[i].id.Some? ==> decisions[i].id != decisions[j].id)
  }

  lemma {:induction false} NewLinesCopy(items: seq<ItemUpdate>, decisions: seq<Decision>, n: nat, next: LineId)
    requires n <= |items| == |decisions|
    ensures var lines := NewLines(items, decisions, n, next).0;
            && Dense(lines)
            && forall i :: 0 <= i < n ==>
                 && lines[i].description == items[i].description && lines[i].detail == items[i].detail
                 && lines[i].original == decisions[i].original
                 && lines[i].category == decisions[i].category && lines[i].source == decisions[i].source
  {
    if n > 0 {
      NewLinesCopy(items, decisions, n - 1, next);
    }
  }

  lemma {:induction false} NewLinesIds(items: seq<ItemUpdate>, decisions: seq<Decision>, n: nat, next: LineId)
    requires n <= |items| == |decisions| && SoundDecisions(decisions, next)
    ensures var (lines, after) := NewLines(items, decisions, n, next);
            && Below(lines, after)
            && forall i :: 0 <= i < n ==>
                 if decisions[i].id.Some? then lines[i].id == decisions[i].id.value else lines[i].id >= next
  {
    if n > 0 {
      NewLinesIds(items, decisions, n - 1, next);
    }
  }

  lemma {:induction false} NewLinesDiffer(items: seq<ItemUpdate>, decisions: seq<Decision>, n: nat, next: LineId)
    requires n <= |items| == |decisions| && SoundDecisions(decisions, next)
    ensures DistinctIds(NewLines(items, decisions, n, next).0)
  {
    if n > 0 {
      NewLinesDiffer(items, decisions, n - 1, next);
      NewLinesIds(items, decisions, n - 1, next);
    }
  }

  lemma NewLinesAre(items: seq<ItemUpdate>, decisions: seq<Decision>, n: nat, next: LineId)
    requires n <= |items| == |decisions| && SoundDecisions(decisions, next)
    ensures var (lines, after) := NewLines(items, decisions, n, next);
            && Dense(lines) && DistinctIds(lines) && Below(lines, after)
            && (forall i :: 0 <= i < n ==>
                  if decisions[i].id.Some? then lines[i].id == decisions[i].id.value else lines[i].id >= next)
            && (forall i :: 0 <= i < n ==>
                  && lines[i].description == items[i].description && lines[i].detail == items[i].detail
                  && lines[i].original == decisions[i].original
                  && lines[i].category == decisions[i].category && lines[i].source == decisions[i].source)
  {
    NewLinesCopy(items, decisions, n, next);
    NewLinesIds(items, decisions, n, next);
    NewLinesDiffer(items, decisions, n, next);
    hide NewLines, SoundDecisions, Dense, DistinctIds, Below;
  }

  lemma HonestNewLines(items: seq<ItemUpdate>, decisions: seq<Decision>, next: LineId)
    requires |items| == |decisions| && SoundDecisions(decisions, next)
    requires forall i :: 0 <= i < |decisions| ==> Honest(decisions[i].category, decisions[i].source)
    ensures GoodLines(NewLines(items, decisions, |items|, next).0, NewLines(items, decisions, |items|, next).1)
  {
    NewLinesAre(items, decisions, |items|, next);
    hide NewLines, SoundDecisions;
  }

  // ----- the decisions of an accepted update

  lemma DecisionReusesRow(rows: seq<Line>, items: seq<ItemUpdate>, n: nat)
    requires n < |items|
    ensures var prior := OldRow(rows, items, n);
            var d := Decide(prior, items[n]);
            && (d.id.Some? <==> prior.Some?)
            && (prior.Some? ==> prior.value in rows && prior.value.id == d.id.value)
            && (prior.Some? && prior.value.original != "" ==> d.original == prior.value.original)
            && (prior.Some? && prior.value.original == "" ==> d.original == prior.value.description)
  {
  }

  lemma AdvanceAppends(
    p: Progress, rows: seq<Line>, items: seq<ItemUpdate>, n: nat, owner: Option<UserId>, merchant: string)
    requires n < |items| && Advance(p, rows, items, n, owner, merchant).Ok?
    ensures Advance(p, rows, items, n, owner, merchant).value.decisions
         == p.decisions + [Decide(OldRow(rows, items, n), items[n])]
    ensures items[n].id.Some? ==> OldRow(rows, items, n).Some?
  {
  }

  lemma {:induction false} ProcessedDecisions(
    aliases: Aliases, rows: seq<Line>, items: seq<ItemUpdate>, n: nat, owner: Option<UserId>, merchant: string)
    requires n <= |items|
    requires ProcessItems(aliases, rows, items, n, owner, merchant).Ok?
    ensures var p := ProcessItems(aliases, rows, items, n, owner, merchant).value;
            && (forall i :: 0 <= i < n ==> p.decisions[i] == Decide(OldRow(rows, items, i), items[i]))
            && (forall i :: 0 <= i < n && items[i].id.Some? ==> OldRow(rows, items, i).Some?)
  {
    hide OldRow, Decide, Advance;
    if n > 0 {
      ProcessedDecisions(aliases, rows, items, n - 1, owner, merchant);
      var before := ProcessItems(aliases, rows, items, n - 1, owner, merchant).value;
      AdvanceAppends(before, rows, items, n - 1, owner, merchant);
    }
  }

  lemma {:induction false} ProcessedIds(
    aliases: Aliases, rows: seq<Line>, items: seq<ItemUpdate>, n: nat, owner: Option<UserId>, merchant: string)
    requires n <= |items|
    requires ProcessItems(aliases, rows, items, n, owner, merchant).Ok?
    ensures var p := ProcessItems(aliases, rows, items, n, owner, merchant).value;
            && (forall i :: 0 <= i < n && p.decisions[i].id.Some? ==> p.decisions[i].id.value in p.used)
            && (forall i, j :: 0 <= i < j < n && p.decisions[i].id.Some? ==> p.decisions[i].id != p.decisions[j].id)
  {
    hide OldRow, Decide, Teach, Taught;
    if n > 0 {
      ProcessedIds(aliases, rows, items, n - 1, owner, merchant);
      DecisionReusesRow(rows, items, n - 1);
    }
  }

  lemma DecisionIsHonest(prior: Option<Line>, item: ItemUpdate)
    requires prior.Some? ==> Honest(prior.value.category, prior.value.source)
    ensures Honest(Decide(prior, item).category, Decide(prior, item).source)
  {
  }

  lemma AcceptedDecisions(
    aliases: Aliases, rows: seq<Line>, items: seq<ItemUpdate>, owner: Option<UserId>, merchant: string, next: LineId)
    requires GoodLines(rows, next)
    requires ProcessItems(aliases, rows, items, |items|, owner, merchant).Ok?
    ensures var p := ProcessItems(aliases, rows, items, |items|, owner, merchant).value;
            && SoundDecisions(p.decisions, next)
            && forall i :: 0 <= i < |p.decisions| ==> Honest(p.decisions[i].category, p.decisions[i].source)
  {
    ProcessedDecisions(aliases, rows, items, |items|, owner, merchant);
    ProcessedIds(aliases, rows, items, |items|, owner, merchant);
    var p := ProcessItems(aliases, rows, items, |items|, owner, merchant).value;
    hide ProcessItems, OldRow, Decide, Dense, DistinctIds, Honest;
    forall i | 0 <= i < |p.decisions|
      ensures Honest(p.decisions[i].category, p.decisions[i].source)
      ensures p.decisions[i].id.Some? ==> p.decisions[i].id.value < next
    {
      DecisionReusesRow(rows, items, i);
      DecisionIsHonest(OldRow(rows, items, i), items[i]);
    }
  }

  lemma {:induction false} TeachingKeepsKnown(
    aliases: Aliases, rows: seq<Line>, items: seq<ItemUpdate>, n: nat, owner: Option<UserId>, merchant: string)
    requires n <= |items| && KnownAliases(aliases)
    requires ProcessItems(aliases, rows, items, n, owner, merchant).Ok?
    ensures KnownAliases(ProcessItems(aliases, rows, items, n, owner, merchant).value.aliases)
  {
    hide OldRow, Decide, Taught;
    if n > 0 {
      TeachingKeepsKnown(aliases, rows, items, n - 1, owner, merchant);
    }
  }

  // ----- one operation

  /** Every line of an accepted update continues a different row of the same receipt, whose
      non-empty original description it keeps, or is new. */
  lemma UpdateKeepsIdentity(
    t: Tables, id: ReceiptId, header: Receipt, items: seq<ItemUpdate>, user: Option<UserId>, canSeeAll: bool)
    requires Good(t) && Update(t, id, header, items, user, canSeeAll).Updated?
    ensures id in t.receipts
    ensures var after := Update(t, id, header, items, user, canSeeAll).tables;
            && id in after.receipts
            && (var before, lines := t.receipts[id].lines, after.receipts[id].lines;
               && |lines| == |items| && GoodLines(lines, after.nextLine)
               && forall i :: 0 <= i < |lines| ==>
                    || t.nextLine <= lines[i].id
                    || exists j :: 0 <= j < |before| && Continues(lines[i], before[j]))
  {
    var row := t.receipts[id];
    var r := ProcessItems(t.aliases, row.lines, items, |items|, row.owner, header.merchantName);
    AcceptedDecisions(t.aliases, row.lines, items, row.owner, header.merchantName, t.nextLine);
    ProcessedDecisions(t.aliases, row.lines, items, |items|, row.owner, header.merchantName);
    HonestNewLines(items, r.value.decisions, t.nextLine);
    NewLinesAre(items, r.value.decisions, |items|, t.nextLine);
    var lines := NewLines(items, r.value.decisions, |items|, t.nextLine).0;
    hide ProcessItems, NewLines, Decide, OldRow, GoodLines, SoundDecisions;
    forall i | 0 <= i < |lines|
      ensures t.nextLine <= lines[i].id || exists j :: 0 <= j < |row.lines| && Continues(lines[i], row.lines[j])
    {
      DecisionReusesRow(row.lines, items, i);
    }
  }

  predicate Continues(line: Line, prior: Line)
  {
    line.id == prior.id && line.original == if prior.original != "" then prior.original else prior.description
  }

  lemma UpdateKeepsGood(
    t: Tables, id: ReceiptId, header: Receipt, items: seq<ItemUpdate>, user: Option<UserId>, canSeeAll: bool)
    requires Good(t) && Update(t, id, header, items, user, canSeeAll).Updated?
    ensures Good(Update(t, id, header, items, user, canSeeAll).tables)
  {
    UpdateKeepsIdentity(t, id, header, items, user, canSeeAll);
    var row := t.receipts[id];
    TeachingKeepsKnown(t.aliases, row.lines, items, |items|, row.owner, header.merchantName);
    var after := Update(t, id, header, items, user, canSeeAll).tables;
    assert t.nextLine <= after.nextLine && after.receipts.Keys == t.receipts.Keys;
    hide ProcessItems, NewLines, Update, KnownAliases, Dense, DistinctIds, HonestLines;
    assert forall q :: q in t.receipts && q != id ==> after.receipts[q] == t.receipts[q] by {
      UpdateTouchesOne(t, id, header, items, user, canSeeAll);
    }
    UpdateTouchesOne(t, id, header, items, user, canSeeAll);
    forall q | q in t.receipts && q != id
      ensures Disjoint(after.receipts[q].lines, after.receipts[id].lines)
      ensures Disjoint(after.receipts[id].lines, after.receipts[q].lines)
    {
    }
  }

  lemma UpdateTouchesOne(
    t: Tables, id: ReceiptId, header: Receipt, items: seq<ItemUpdate>, user: Option<UserId>, canSeeAll: bool)
    requires Update(t, id, header, items, user, canSeeAll).Updated?
    ensures var after := Update(t, id, header, items, user, canSeeAll).tables;
            && id in t.receipts && id in after.receipts
            && (forall q :: q in t.receipts && q != id ==> q in after.receipts && after.receipts[q] == t.receipts[q])
            && after.receipts.Keys == t.receipts.Keys
            && after.receipts[id].header.lineItems == []
            && after.receipts[id].owner == t.receipts[id].owner
            && after.nextReceipt == t.nextReceipt
            && after.aliases == ProcessItems(t.aliases, t.receipts[id].lines, items, |items|,
                                             t.receipts[id].owner, header.merchantName).value.aliases
  {
    hide ProcessItems, NewLines;
  }

  lemma ExtractedDecisionIsHonest(aliases: Aliases, user: Option<UserId>, merchant: string, ds: seq<string>, item: LineItem)
    requires KnownAliases(aliases)
    ensures var d := DecideExtracted(History(aliases, user, merchant, ds), item);
            d.id.None? && Honest(d.category, d.source)
  {
    hide NormalizeHistoryKey;
  }

  lemma PersistedLinesAreGood(aliases: Aliases, receipt: Receipt, user: Option<UserId>, next: LineId)
    requires KnownAliases(aliases)
    ensures var history := History(aliases, user, receipt.merchantName, Descriptions(receipt.lineItems));
            var r := NewLines(AsUpdates(receipt.lineItems), DecideAll(history, receipt.lineItems),
                              |receipt.lineItems|, next);
            && GoodLines(r.0, r.1) && next <= r.1
            && forall i :: 0 <= i < |r.0| ==> r.0[i].id >= next
  {
    var ds := Descriptions(receipt.lineItems);
    var history := History(aliases, user, receipt.merchantName, ds);
    var decisions := DecideAll(history, receipt.lineItems);
    hide History, DecideExtracted, Honest;
    forall i | 0 <= i < |decisions|
      ensures decisions[i].id.None? && Honest(decisions[i].category, decisions[i].source)
    {
      ExtractedDecisionIsHonest(aliases, user, receipt.merchantName, ds, receipt.lineItems[i]);
    }
    HonestNewLines(AsUpdates(receipt.lineItems), decisions, next);
    NewLinesAre(AsUpdates(receipt.lineItems), decisions, |receipt.lineItems|, next);
  }

  lemma PersistKeepsGood(
    t: Tables, receipt: Receipt, imageId: Option<ImageId>, verified: bool, user: Option<UserId>, found: Option<ReceiptId>)
    requires Good(t) && IsReceiptOf(t.receipts, imageId, found)
    ensures Good(Persist(t, receipt, imageId, verified, user, found))
  {
    PersistedLinesAreGood(t.aliases, receipt, user, t.nextLine);
    hide NewLines, KnownAliases, Dense, DistinctIds, HonestLines, History, DecideAll, AsUpdates, Descriptions;
  }

  // ----- sequences of operations

  datatype Op =
    | PersistOp(receipt: Receipt, imageId: Option<ImageId>, verified: bool, user: Option<UserId>, found: Option<ReceiptId>)
    | UpdateOp(id: ReceiptId, header: Receipt, items: seq<ItemUpdate>, user: Option<UserId>, canSeeAll: bool)
    | VerifyOp(id: ReceiptId)
    | DeleteOp(id: ReceiptId)

  predicate Possible(t: Tables, op: Op)
  {
    op.PersistOp? ==> IsReceiptOf(t.receipts, op.imageId, op.found)
  }

  function Apply(t: Tables, op: Op): Tables
    requires Possible(t, op)
  {
    match op
    case PersistOp(receipt, imageId, verified, user, found) => Persist(t, receipt, imageId, verified, user, found)
    case UpdateOp(id, header, items, user, canSeeAll) =>
      var r := Update(t, id, header, items, user, canSeeAll);
      if r.Updated? then r.tables else t
    case VerifyOp(id) =>
      if id in t.receipts then t.(receipts := t.receipts[id := t.receipts[id].(verified := true)]) else t
    case DeleteOp(id) => t.(receipts := t.receipts - {id})
  }

  ghost predicate Run(t: Tables, ops: seq<Op>)
    decreases |ops|
  {
    ops == [] || (Possible(t, ops[0]) && Run(Apply(t, ops[0]), ops[1..]))
  }

  ghost function After(t: Tables, ops: seq<Op>): Tables
    requires Run(t, ops)
    decreases |ops|
  {
    if ops == [] then t else After(Apply(t, ops[0]), ops[1..])
  }

  lemma OpKeepsGood(t: Tables, op: Op)
    requires Good(t) && Possible(t, op)
    ensures Good(Apply(t, op))
  {
    hide Update, Persist, GoodLines, KnownAliases, Disjoint;
    match op {
      case PersistOp(receipt, imageId, verified, user, found) =>
        PersistKeepsGood(t, receipt, imageId, verified, user, found);
      case UpdateOp(id, header, items, user, canSeeAll) =>
        if Update(t, id, header, items, user, canSeeAll).Updated? {
          UpdateKeepsGood(t, id, header, items, user, canSeeAll);
        }
      case VerifyOp(_) =>
      case DeleteOp(_) =>
    }
  }

  lemma {:induction false} RunKeepsGood(t: Tables, ops: seq<Op>)
    requires Good(t) && Run(t, ops)
    ensures Good(After(t, ops))
    decreases |ops|
  {
    hide Apply, Possible, Good;
    if ops != [] {
      OpKeepsGood(t, ops[0]);
      RunKeepsGood(Apply(t, ops[0]), ops[1..]);
    }
  }

  /** From a fresh database: positions are exactly 0..n-1, no line id occurs twice anywhere,
      and every line has an honest source. */
  lemma EveryReachableReceiptIsGood(ops: seq<Op>, q: ReceiptId, r: ReceiptId)
    requires Run(EMPTY, ops)
    requires q in After(EMPTY, ops).receipts && r in After(EMPTY, ops).receipts
    ensures var a, b := After(EMPTY, ops).receipts[q].lines, After(EMPTY, ops).receipts[r].lines;
            && (forall i :: 0 <= i < |a| ==> a[i].position == i && Honest(a[i].category, a[i].source))
            && (forall i, j :: 0 <= i < |a| && 0 <= j < |b| && a[i].id == b[j].id ==> q == r && i == j)
  {
    RunKeepsGood(EMPTY, ops);
    var t := After(EMPTY, ops);
    hide Run, After, KnownAliases, Honest;
    assert GoodLines(t.receipts[q].lines, t.nextLine);
    assert q != r ==> Disjoint(t.receipts[q].lines, t.receipts[r].lines);
  }

  // ----- read, then write back

  /** The update a client sends back for the rows it has just read. */
  function ReadBack(lines: seq<Line>, withIds: bool): (items: seq<ItemUpdate>)
    ensures |items| == |lines|
  {
    seq(|lines|, i requires 0 <= i < |lines| =>
      ItemUpdate(if withIds then Some(lines[i].id) else None, lines[i].description,
                 Some(lines[i].category), false, lines[i].detail))
  }

  lemma {:induction false} FindsById(rows: seq<Line>, i: nat)
    requires DistinctIds(rows) && i < |rows|
    ensures ById(rows, rows[i].id) == Some(rows[i])
  {
    var found := ById(rows, rows[i].id).value;
    var j :| 0 <= j < |rows| && rows[j] == found;
  }

  lemma {:induction false} FindsByPosition(rows: seq<Line>, i: nat)
    requires Dense(rows) && i < |rows|
    ensures ByPosition(rows, i) == Some(rows[i])
  {
    assert rows[i].position == i;
    var found := ByPosition(rows, i).value;
    var j :| 0 <= j < |rows| && rows[j] == found;
  }

  lemma ReadBackFindsRows(rows: seq<Line>, withIds: bool, i: nat)
    requires Dense(rows) && DistinctIds(rows) && i < |rows|
    ensures OldRow(rows, ReadBack(rows, withIds), i) == Some(rows[i])
  {
    hide ById, ByPosition;
    if withIds {
      FindsById(rows, i);
    } else {
      FindsByPosition(rows, i);
    }
  }

  function Kept(line: Line): Decision
  {
    Decision(Some(line.id), if line.original != "" then line.original else line.description, line.category, line.source)
  }

  lemma ReadBackAdvances(
    p: Progress, rows: seq<Line>, withIds: bool, n: nat, owner: Option<UserId>, merchant: string)
    requires Dense(rows) && DistinctIds(rows) && n < |rows| && rows[n].id !in p.used
    ensures Advance(p, rows, ReadBack(rows, withIds), n, owner, merchant)
         == Ok(Progress(p.used + {rows[n].id}, p.decisions + [Kept(rows[n])], p.aliases))
  {
    var items := ReadBack(rows, withIds);
    ReadBackFindsRows(rows, withIds, n);
    hide OldRow, NormalizeHistoryKey, Dense, DistinctIds;
    assert Decide(Some(rows[n]), items[n]) == Kept(rows[n]);
    assert Taught(owner, merchant, Kept(rows[n]), items[n]) == {};
    TeachNothing(p.aliases, rows[n].category);
  }

  lemma TeachNothing(aliases: Aliases, category: SpendingCategory)
    ensures Teach(aliases, {}, category) == aliases
  {
  }

  lemma {:induction false} ReadBackProcess(
    aliases: Aliases, rows: seq<Line>, withIds: bool, n: nat, owner: Option<UserId>, merchant: string)
    requires Dense(rows) && DistinctIds(rows) && n <= |rows|
    ensures var r := ProcessItems(aliases, rows, ReadBack(rows, withIds), n, owner, merchant);
            && r.Ok? && r.value.aliases == aliases
            && (forall i :: 0 <= i < n ==> r.value.decisions[i] == Kept(rows[i]))
            && (forall i :: n <= i < |rows| ==> rows[i].id !in r.value.used)
  {
    hide Advance, Kept, ReadBack, Dense;
    if n > 0 {
      ReadBackProcess(aliases, rows, withIds, n - 1, owner, merchant);
      var before := ProcessItems(aliases, rows, ReadBack(rows, withIds), n - 1, owner, merchant).value;
      ReadBackAdvances(before, rows, withIds, n - 1, owner, merchant);
    }
  }

  /** What writing back does to a row: a missing original description is filled in. */
  function Refilled(lines: seq<Line>): (r: seq<Line>)
    ensures |r| == |lines|
  {
    seq(|lines|, i requires 0 <= i < |lines| =>
      if lines[i].original != "" then lines[i] else lines[i].(original := lines[i].description))
  }

  lemma {:induction false} KeptLines(rows: seq<Line>, items: seq<ItemUpdate>, decisions: seq<Decision>, n: nat, next: LineId)
    requires Dense(rows) && n <= |rows| == |items| == |decisions|
    requires forall i :: 0 <= i < n ==>
               decisions[i] == Kept(rows[i]) && items[i].description == rows[i].description
               && items[i].detail == rows[i].detail
    ensures NewLines(items, decisions, n, next) == (Refilled(rows)[..n], next)
  {
    if n > 0 {
      KeptLines(rows, items, decisions, n - 1, next);
      assert Refilled(rows)[..n] == Refilled(rows)[..n - 1] + [Refilled(rows)[n - 1]];
    }
  }

  /** Writing back what was read, with or without the ids, is always accepted, keeps every id,
      category and source, teaches nothing, and fills in missing original descriptions. */
  lemma WriteBack(t: Tables, id: ReceiptId, withIds: bool, user: Option<UserId>, canSeeAll: bool)
    requires Good(t) && id in t.receipts && InScope(t.receipts[id], user, canSeeAll)
    ensures var row := t.receipts[id];
            Update(t, id, row.header, ReadBack(row.lines, withIds), user, canSeeAll)
            == Updated(t.(receipts := t.receipts[id := row.(lines := Refilled(row.lines))]))
  {
    var row := t.receipts[id];
    assert GoodLines(row.lines, t.nextLine);
    var items := ReadBack(row.lines, withIds);
    ReadBackProcess(t.aliases, row.lines, withIds, |items|, row.owner, row.header.merchantName);
    var p := ProcessItems(t.aliases, row.lines, items, |items|, row.owner, row.header.merchantName).value;
    hide ProcessItems, NewLines;
    KeptLines(row.lines, items, p.decisions, |items|, t.nextLine);
    assert Refilled(row.lines)[..|items|] == Refilled(row.lines);
  }

  /** So it is the identity exactly when every line that has a description has an original one. */
  lemma WriteBackIsIdentity(t: Tables, id: ReceiptId, withIds: bool, user: Option<UserId>, canSeeAll: bool)
    requires Good(t) && id in t.receipts && InScope(t.receipts[id], user, canSeeAll)
    ensures var row := t.receipts[id];
            Update(t, id, row.header, ReadBack(row.lines, withIds), user, canSeeAll) == Updated(t)
            <==> forall i :: 0 <= i < |row.lines| ==> row.lines[i].original != "" || row.lines[i].description == ""
  {
    WriteBack(t, id, withIds, user, canSeeAll);
    var row := t.receipts[id];
    hide Update, Good;
    var refilled := Refilled(row.lines);
    assert refilled == row.lines <==>
           forall i :: 0 <= i < |row.lines| ==> row.lines[i].original != "" || row.lines[i].description == "" by {
      SameLines(row.lines, refilled);
    }
    var after := t.(receipts := t.receipts[id := row.(lines := refilled)]);
    assert after.receipts[id].lines == refilled;
    if refilled == row.lines {
      assert after.receipts == t.receipts;
    }
  }

  lemma SameLines(a: seq<Line>, b: seq<Line>)
    requires b == Refilled(a)
    ensures a == b <==> forall i :: 0 <= i < |a| ==> a[i].original != "" || a[i].description == ""
  {
    if a == b {
      assert forall i :: 0 <= i < |a| ==> a[i] == b[i];
    }
  }

  const UNNAMED: Line := Line(0, "", "", Unknown, FromNowhere, 0, Detail(1.0, 1.0, 1.0, []))

  const NAMED: Line := UNNAMED.(description := "Milk")

  const SHOP: Receipt := Receipt(
    0, "Shop", None, None, Date(2026, 1, 1), None, "EUR", "other",
    [LineItem("", Unknown, 1.0, 1.0, 1.0, [])], [], 1.0, 0.0, 0.0, None, 1.0, "cash")

  lemma PersistUnnamed()
    ensures Persist(EMPTY, SHOP, None, false, None, None)
         == Tables(map[0 := Row(SHOP.(lineItems := []), None, None, false, [UNNAMED])], map[], 1, 1)
  {
    var history := History(map[], None, SHOP.merchantName, Descriptions(SHOP.lineItems));
    var items, decisions := AsUpdates(SHOP.lineItems), DecideAll(history, SHOP.lineItems);
    assert decisions[0] == Decision(None, "", Unknown, FromNowhere);
    assert NewLines(items, decisions, 0, 0) == ([], 0);
    var lines := NewLines(items, decisions, 1, 0);
    assert lines.0 == [UNNAMED] && lines.1 == 1;
  }

  lemma NameIt(t: Tables)
    requires 0 in t.receipts && t.receipts[0].lines == [UNNAMED] && t.receipts[0].header == SHOP.(lineItems := [])
    ensures Update(t, 0, SHOP, ReadBack([NAMED], true), None, false)
         == Updated(t.(receipts := t.receipts[0 := t.receipts[0].(lines := [NAMED])]))
  {
    var rows, items := [UNNAMED], ReadBack([NAMED], true);
    var row := t.receipts[0];
    FindsById(rows, 0);
    assert OldRow(rows, items, 0) == Some(UNNAMED);
    var d := Decide(Some(UNNAMED), items[0]);
    assert d == Decision(Some(0), "", Unknown, FromNowhere);
    hide NormalizeHistoryKey, OldRow, Decide;
    assert Taught(row.owner, SHOP.merchantName, d, items[0]) == {};
    assert ProcessItems(t.aliases, rows, items, 0, row.owner, SHOP.merchantName) == Ok(Progress({}, [], t.aliases));
    var p := ProcessItems(t.aliases, rows, items, 1, row.owner, SHOP.merchantName);
    assert p.Ok? && p.value.decisions == [d] && p.value.aliases == t.aliases;
    assert NewLines(items, [d], 0, t.nextLine) == ([], t.nextLine);
    var lines := NewLines(items, [d], 1, t.nextLine);
    assert lines.0 == [NAMED] && lines.1 == t.nextLine;
  }

  /** An item extracted without text and named later is such a line: merely reading and
      saving it again changes its original description from empty to the name. */
  lemma NamedLaterIsRefilled()
    ensures var t := Persist(EMPTY, SHOP, None, false, None, None);
            var r := Update(t, 0, SHOP, ReadBack([NAMED], true), None, false);
            && Good(t) && r.Updated? && Good(r.tables) && 0 in r.tables.receipts
            && r.tables.receipts[0].lines == [NAMED]
            && Update(r.tables, 0, r.tables.receipts[0].header, ReadBack([NAMED], true), None, false) != r
  {
    var t := Persist(EMPTY, SHOP, None, false, None, None);
    PersistKeepsGood(EMPTY, SHOP, None, false, None, None);
    PersistUnnamed();
    NameIt(t);
    UpdateKeepsGood(t, 0, SHOP, ReadBack([NAMED], true), None, false);
    var u := Update(t, 0, SHOP, ReadBack([NAMED], true), None, false).tables;
    hide Persist, Update, Good;
    WriteBackIsIdentity(u, 0, true, None, false);
    assert u.receipts[0].lines[0] == NAMED;
  }

  // ----- teach and recall

  function Lookup(aliases: Aliases, key: AliasKey): Option<SpendingCategory>
  {
    if key in aliases then Some(aliases[key]) else None
  }

  /** What remembering a category leaves under a taught key. */
  function Lesson(category: SpendingCategory): Option<SpendingCategory>
  {
    if category == Unknown then None else Some(category)
  }

  /** Item `n` of the update teaches `key`. */
  predicate Teaches(rows: seq<Line>, items: seq<ItemUpdate>, n: nat, owner: Option<UserId>, merchant: string, key: AliasKey)
    requires n < |items|
  {
    key in Taught(owner, merchant, Decide(OldRow(rows, items, n), items[n]), items[n])
  }

  /** The last item before `n` that teaches `key`. */
  function LastTeacher(
    rows: seq<Line>, items: seq<ItemUpdate>, n: nat, owner: Option<UserId>, merchant: string, key: AliasKey): (r: Option<nat>)
    requires n <= |items|
    ensures r.Some? ==> r.value < n && Teaches(rows, items, r.value, owner, merchant, key)
    ensures forall j: nat :: j < n && (r.None? || r.value < j) ==> !Teaches(rows, items, j, owner, merchant, key)
  {
    if n == 0 then None
    else if Teaches(rows, items, n - 1, owner, merchant, key) then Some(n - 1)
    else LastTeacher(rows, items, n - 1, owner, merchant, key)
  }

  lemma TeachLookup(aliases: Aliases, keys: set<AliasKey>, category: SpendingCategory, key: AliasKey)
    ensures Lookup(Teach(aliases, keys, category), key) == if key in keys then Lesson(category) else Lookup(aliases, key)
  {
  }

  /** An accepted update changes exactly the taught keys, and the last teacher of a key wins. */
  lemma {:induction false} LastTeacherWins(
    aliases: Aliases, rows: seq<Line>, items: seq<ItemUpdate>, n: nat, owner: Option<UserId>, merchant: string, key: AliasKey)
    requires n <= |items|
    requires ProcessItems(aliases, rows, items, n, owner, merchant).Ok?
    ensures var last := LastTeacher(rows, items, n, owner, merchant, key);
            Lookup(ProcessItems(aliases, rows, items, n, owner, merchant).value.aliases, key)
            == if last.None? then Lookup(aliases, key)
               else Lesson(Decide(OldRow(rows, items, last.value), items[last.value]).category)
  {
    hide OldRow, Decide, Taught, Teach, Lookup, Lesson;
    if n > 0 {
      LastTeacherWins(aliases, rows, items, n - 1, owner, merchant, key);
      var before := ProcessItems(aliases, rows, items, n - 1, owner, merchant).value;
      var d := Decide(OldRow(rows, items, n - 1), items[n - 1]);
      TeachLookup(before.aliases, Taught(owner, merchant, d, items[n - 1]), d.category, key);
    }
  }

  /** What the program recalls for an item: the owner's alias for its merchant and description. */
  function Recall(aliases: Aliases, user: Option<UserId>, merchant: string, description: string): Option<SpendingCategory>
  {
    var m, d := NormalizeHistoryKey(merchant), NormalizeHistoryKey(description);
    if user.None? || m == "" || d == "" then None
    else
      var found := Lookup(aliases, AliasKey(user.value, m, d));
      if found == Some(Unknown) then None else found
  }

  lemma HistoryRecalls(aliases: Aliases, user: Option<UserId>, merchant: string, ds: seq<string>, d: string)
    requires d in ds
    ensures var history := History(aliases, user, merchant, ds);
            Recall(aliases, user, merchant, d)
            == if NormalizeHistoryKey(d) in history then Some(history[NormalizeHistoryKey(d)]) else None
  {
    EmptyKeyIsBlank(d);
    forall x | x in ds && NormalizeHistoryKey(x) == NormalizeHistoryKey(d) ensures Blank(x) <==> Blank(d) {
      EmptyKeyIsBlank(x);
    }
    hide NormalizeHistoryKey, Blank;
  }

  /** Each persisted line takes the recalled category, or else the model's own. */
  lemma PersistRecalls(
    t: Tables, receipt: Receipt, imageId: Option<ImageId>, verified: bool, user: Option<UserId>, found: Option<ReceiptId>, i: nat)
    requires i < |receipt.lineItems|
    ensures var id := if found.Some? then found.value else t.nextReceipt;
            var after := Persist(t, receipt, imageId, verified, user, found);
            var item := receipt.lineItems[i];
            var recalled := Recall(t.aliases, user, receipt.merchantName, item.description);
            && id in after.receipts && |after.receipts[id].lines| == |receipt.lineItems|
            && var line := after.receipts[id].lines[i];
               && line.description == item.description && line.original == item.description
               && (recalled.Some? ==> line.category == recalled.value && line.source == FromHistory)
               && (recalled.None? ==>
                     line.category == item.spendingCategory
                     && line.source == if item.spendingCategory != Unknown then FromLlm else FromNowhere)
  {
    var ds := Descriptions(receipt.lineItems);
    var history := History(t.aliases, user, receipt.merchantName, ds);
    var decisions := DecideAll(history, receipt.lineItems);
    assert ds[i] == receipt.lineItems[i].description && ds[i] in ds;
    HistoryRecalls(t.aliases, user, receipt.merchantName, ds, ds[i]);
    assert SoundDecisions(decisions, t.nextLine);
    NewLinesAre(AsUpdates(receipt.lineItems), decisions, |receipt.lineItems|, t.nextLine);
    hide History, Recall, NewLines, NormalizeHistoryKey, SoundDecisions;
  }

  /** The operation leaves the alias `key` alone: it is no accepted update that teaches it. */
  ghost predicate LeavesAlone(t: Tables, op: Op, key: AliasKey)
  {
    op.UpdateOp? && op.id in t.receipts && Update(t, op.id, op.header, op.items, op.user, op.canSeeAll).Updated? ==>
      forall n: nat :: n < |op.items| ==>
        !Teaches(t.receipts[op.id].lines, op.items, n, t.receipts[op.id].owner, op.header.merchantName, key)
  }

  lemma OpKeepsAlias(t: Tables, op: Op, key: AliasKey)
    requires Possible(t, op) && LeavesAlone(t, op, key)
    ensures Lookup(Apply(t, op).aliases, key) == Lookup(t.aliases, key)
  {
    hide Persist, Update, Teaches, LastTeacher;
    match op {
      case UpdateOp(id, header, items, user, canSeeAll) =>
        if Update(t, id, header, items, user, canSeeAll).Updated? {
          UpdateTouchesOne(t, id, header, items, user, canSeeAll);
          UpdateMeansProcessed(t, id, header, items, user, canSeeAll);
          var row := t.receipts[id];
          LastTeacherWins(t.aliases, row.lines, items, |items|, row.owner, header.merchantName, key);
          var last := LastTeacher(row.lines, items, |items|, row.owner, header.merchantName, key);
          assert last.None?;
        }
      case PersistOp(_, _, _, _, _) =>
        assert Apply(t, op).aliases == t.aliases by { PersistTeachesNothing(t, op); }
      case _ =>
    }
  }

  lemma PersistTeachesNothing(t: Tables, op: Op)
    requires Possible(t, op) && op.PersistOp?
    ensures Apply(t, op).aliases == t.aliases
  {
    hide NewLines, History;
  }

  lemma UpdateMeansProcessed(
    t: Tables, id: ReceiptId, header: Receipt, items: seq<ItemUpdate>, user: Option<UserId>, canSeeAll: bool)
    requires Update(t, id, header, items, user, canSeeAll).Updated?
    ensures id in t.receipts
    ensures ProcessItems(t.aliases, t.receipts[id].lines, items, |items|, t.receipts[id].owner, header.merchantName).Ok?
  {
  }

  /** No operation of the run teaches `key`. */
  ghost predicate AllLeaveAlone(t: Tables, ops: seq<Op>, key: AliasKey)
    requires Run(t, ops)
    decreases |ops|
  {
    ops == [] || (LeavesAlone(t, ops[0], key) && AllLeaveAlone(Apply(t, ops[0]), ops[1..], key))
  }

  lemma {:induction false} RunKeepsAlias(t: Tables, ops: seq<Op>, key: AliasKey)
    requires Run(t, ops) && AllLeaveAlone(t, ops, key)
    ensures Lookup(After(t, ops).aliases, key) == Lookup(t.aliases, key)
    decreases |ops|
  {
    hide Apply, Possible, LeavesAlone;
    if ops != [] {
      OpKeepsAlias(t, ops[0], key);
      RunKeepsAlias(Apply(t, ops[0]), ops[1..], key);
    }
  }

  /** Teach, then recall: after an accepted update whose item `j` is the last to teach a key,
      and any operations that leave that key alone, a receipt the same user persists for an
      equally normalised merchant takes the taught category for every item with that key,
      or the model's own category if `unknown` was taught. */
  lemma TeachThenRecall(
    t: Tables, update: Op, j: nat, between: seq<Op>, key: AliasKey, persist: Op, i: nat)
    requires update.UpdateOp? && Update(t, update.id, update.header, update.items, update.user, update.canSeeAll).Updated?
    requires update.id in t.receipts && j < |update.items|
    requires LastTeacher(t.receipts[update.id].lines, update.items, |update.items|,
                         t.receipts[update.id].owner, update.header.merchantName, key) == Some(j)
    requires Run(Apply(t, update), between) && AllLeaveAlone(Apply(t, update), between, key)
    requires persist.PersistOp? && Possible(After(Apply(t, update), between), persist)
    requires i < |persist.receipt.lineItems| && persist.user == Some(key.user)
    requires NormalizeHistoryKey(persist.receipt.merchantName) == key.merchant
    requires NormalizeHistoryKey(persist.receipt.lineItems[i].description) == key.description
    ensures var s := After(Apply(t, update), between);
            var id := if persist.found.Some? then persist.found.value else s.nextReceipt;
            var after := Apply(s, persist);
            var item := persist.receipt.lineItems[i];
            var taught := Decide(OldRow(t.receipts[update.id].lines, update.items, j), update.items[j]).category;
            && id in after.receipts && i < |after.receipts[id].lines|
            && var line := after.receipts[id].lines[i];
               if taught != Unknown then line.category == taught && line.source == FromHistory
               else line.category == item.spendingCategory
                    && line.source == if item.spendingCategory != Unknown then FromLlm else FromNowhere
  {
    var row := t.receipts[update.id];
    var merchant := update.header.merchantName;
    UpdateTouchesOne(t, update.id, update.header, update.items, update.user, update.canSeeAll);
    UpdateMeansProcessed(t, update.id, update.header, update.items, update.user, update.canSeeAll);
    LastTeacherWins(t.aliases, row.lines, update.items, |update.items|, row.owner, merchant, key);
    RunKeepsAlias(Apply(t, update), between, key);
    var s := After(Apply(t, update), between);
    PersistRecalls(s, persist.receipt, persist.imageId, persist.verified, persist.user, persist.found, i);
    TaughtKeysAreUsable(row.owner, merchant, Decide(OldRow(row.lines, update.items, j), update.items[j]),
                        update.items[j], key);
    hide Update, Persist, Run, After, AllLeaveAlone, OldRow, Decide, NormalizeHistoryKey, LastTeacher, ProcessItems;
  }

  lemma TaughtKeysAreUsable(owner: Option<UserId>, merchant: string, d: Decision, item: ItemUpdate, key: AliasKey)
    requires key in Taught(owner, merchant, d, item)
    ensures owner == Some(key.user) && key.merchant == NormalizeHistoryKey(merchant)
    ensures key.merchant != "" && key.description != "" && item.remember
    ensures key.description == NormalizeHistoryKey(d.original) || key.description == NormalizeHistoryKey(item.description)
  {
    hide NormalizeHistoryKey;
  }

  /** A remembered item teaches both its original and its edited description, unless blank. */
  lemma RememberedItemsTeach(
    rows: seq<Line>, items: seq<ItemUpdate>, n: nat, owner: Option<UserId>, merchant: string, key: AliasKey)
    requires n < |items| && items[n].remember && owner == Some(key.user)
    requires key.merchant == NormalizeHistoryKey(merchant) && key.merchant != "" && key.description != ""
    requires key.description == NormalizeHistoryKey(items[n].description)
             || key.description == NormalizeHistoryKey(Decide(OldRow(rows, items, n), items[n]).original)
    ensures Teaches(rows, items, n, owner, merchant, key)
  {
    hide NormalizeHistoryKey, OldRow, Decide;
  }

  /** The aliases of other users and other merchants are out of an update's reach. */
  lemma OthersAreLeftAlone(t: Tables, op: Op, key: AliasKey)
    requires op.UpdateOp? && op.id in t.receipts
    requires t.receipts[op.id].owner != Some(key.user) || NormalizeHistoryKey(op.header.merchantName) != key.merchant
    ensures LeavesAlone(t, op, key)
  {
    hide NormalizeHistoryKey, OldRow, Decide;
  }
}
