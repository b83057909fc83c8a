/**
  `ReceiptDB` as code over its tables: the loops of `_history_for_items`,
  `persist_receipt`, `update_receipt` and `_insert_children`, with the aliases written
  inside the update's loop and taken back when a later item is refused.
 */
module ReceiptDB {
  import opened Prelude
  import opened ReceiptModel
  import opened TextKeys
  import opened ReceiptTables
  import ReceiptMemory

  datatype UpdateOutcome = Missing | Refused(error: UpdateError) | Done

  class ReceiptDB {
    var receipts: map<ReceiptId, Row>
    var aliases: Aliases
    var nextReceipt: ReceiptId
    var nextLine: LineId

    constructor ()
      ensures State() == EMPTY
    {
      receipts, aliases, nextReceipt, nextLine := map[], map[], 0, 0;
    }

    function State(): Tables
      reads this
    {
      Tables(receipts, aliases, nextReceipt, nextLine)
    }

    method HistoryForItems(user: Option<UserId>, merchant: string, descriptions: seq<string>)
      returns (history: map<string, SpendingCategory>)
      ensures history == History(aliases, user, merchant, descriptions)
    {
      hide NormalizeHistoryKey, Blank;
      history := map[];
      var merchantKey := NormalizeHistoryKey(merchant);
      if user.None? || descriptions == [] || merchantKey == "" {
        return;
      }
      var keys := set d | d in descriptions && !Blank(d) :: NormalizeHistoryKey(d);
      var todo := keys;
      while todo != {}
        invariant todo <= keys
        invariant history == map k | k in keys - todo
                                    && AliasKey(user.value, merchantKey, k) in aliases
                                    && aliases[AliasKey(user.value, merchantKey, k)] != Unknown
                               :: aliases[AliasKey(user.value, merchantKey, k)]
        decreases todo
      {
        var k :| k in todo;
        todo := todo - {k};
        var key := AliasKey(user.value, merchantKey, k);
        if key in aliases && aliases[key] != Unknown {
          history := history[k := aliases[key]];
        }
      }
    }

    method InsertChildren(items: seq<ItemUpdate>, decisions: seq<Decision>) returns (lines: seq<Line>)
      requires |items| == |decisions|
      modifies this`nextLine
      ensures (lines, nextLine) == NewLines(items, decisions, |items|, old(nextLine))
    {
      lines := [];
      for i := 0 to |items|
        invariant (lines, nextLine) == NewLines(items, decisions, i, old(nextLine))
      {
        var d, item := decisions[i], items[i];
        var id := nextLine;
        if d.id.Some? {
          id := d.id.value;
        } else {
          nextLine := nextLine + 1;
        }
        lines := lines + [Line(id, item.description, d.original, d.category, d.source, i, item.detail)];
      }
    }

    method FindReceiptOf(imageId: Option<ImageId>) returns (found: Option<ReceiptId>)
      ensures IsReceiptOf(receipts, imageId, found)
    {
      if imageId.None? {
        return None;
      }
      var todo := receipts.Keys;
      while todo != {}
        invariant todo <= receipts.Keys
        invariant forall r :: r in receipts && r !in todo ==> receipts[r].imageId != imageId
        decreases todo
      {
        var r :| r in todo;
        if receipts[r].imageId == imageId {
          return Some(r);
        }
        todo := todo - {r};
      }
      return None;
    }

    method PersistReceipt(receipt: Receipt, imageId: Option<ImageId>, verified: bool, user: Option<UserId>)
      returns (id: ReceiptId, found: Option<ReceiptId>)
      modifies this
      ensures IsReceiptOf(old(receipts), imageId, found)
      ensures id == if found.Some? then found.value else old(nextReceipt)
      ensures State() == Persist(old(State()), receipt, imageId, verified, user, found)
    {
      hide History, NewLines;
      found := FindReceiptOf(imageId);
      if found.Some? {
        id := found.value;
      } else {
        id := nextReceipt;
        nextReceipt := nextReceipt + 1;
      }
      var history := HistoryForItems(user, receipt.merchantName, Descriptions(receipt.lineItems));
      var decisions := [];
      for i := 0 to |receipt.lineItems|
        invariant |decisions| == i
        invariant decisions == DecideAll(history, receipt.lineItems)[..i]
      {
        decisions := decisions + [DecideExtracted(history, receipt.lineItems[i])];
      }
      assert decisions == DecideAll(history, receipt.lineItems);
      var lines := InsertChildren(AsUpdates(receipt.lineItems), decisions);
      receipts := receipts[id := Row(receipt.(lineItems := []), imageId, user, verified, lines)];
    }

    /** Remembering one item: its keys are visited in any order. */
    method Remember(keys: set<AliasKey>, category: SpendingCategory)
      modifies this`aliases
      ensures aliases == Teach(old(aliases), keys, category)
    {
      hide Teach, TeachOne;
      var todo := keys;
      ghost var done: set<AliasKey> := {};
      ReceiptMemory.TeachNothing(aliases, category);
      while todo != {}
        invariant todo + done == keys
        invariant aliases == Teach(old(aliases), done, category)
        decreases todo
      {
        var key :| key in todo;
        TeachOneMore(old(aliases), done, key, category);
        aliases := TeachOne(aliases, key, category);
        todo, done := todo - {key}, done + {key};
      }
      assert done == keys;
    }

    method UpdateReceipt(
      id: ReceiptId, header: Receipt, items: seq<ItemUpdate>, user: Option<UserId>, canSeeAll: bool)
      returns (outcome: UpdateOutcome)
      modifies this
      ensures match Update(old(State()), id, header, items, user, canSeeAll)
              case NotFound => outcome == Missing && State() == old(State())
              case Rejected(e) => outcome == Refused(e) && State() == old(State())
              case Updated(t) => outcome == Done && State() == t
    {
      hide OldRow, Decide, Taught, Teach, NewLines;
      var saved, savedAliases := receipts, aliases;
      if id !in receipts || !InScope(receipts[id], user, canSeeAll) {
        return Missing;
      }
      var row := receipts[id];
      receipts := receipts[id := row.(header := header.(lineItems := []))];
      var used: set<LineId>, decisions: seq<Decision> := {}, [];
      for n := 0 to |items|
        invariant receipts == saved[id := row.(header := header.(lineItems := []))]
        invariant nextReceipt == old(nextReceipt) && nextLine == old(nextLine)
        invariant |decisions| == n
        invariant ProcessItems(savedAliases, row.lines, items, n, row.owner, header.merchantName)
               == Ok(Progress(used, decisions, aliases))
      {
        var item, prior := items[n], OldRow(row.lines, items, n);
        if item.id.Some? && prior.None? {
          RefusedForGood(savedAliases, row.lines, items, n + 1, row.owner, header.merchantName, ForeignLine);
          receipts, aliases := saved, savedAliases;
          return Refused(ForeignLine);
        }
        if prior.Some? && prior.value.id in used {
          RefusedForGood(savedAliases, row.lines, items, n + 1, row.owner, header.merchantName, DuplicateLine);
          receipts, aliases := saved, savedAliases;
          return Refused(DuplicateLine);
        }
        if prior.Some? {
          used := used + {prior.value.id};
        }
        var decision := Decide(prior, item);
        decisions := decisions + [decision];
        Remember(Taught(row.owner, header.merchantName, decision, item), decision.category);
      }
      var lines := InsertChildren(items, decisions);
      receipts := receipts[id := row.(header := header.(lineItems := []), lines := lines)];
      return Done;
    }
  }

  lemma TeachOneMore(aliases: Aliases, keys: set<AliasKey>, key: AliasKey, category: SpendingCategory)
    ensures TeachOne(Teach(aliases, keys, category), key, category) == Teach(aliases, keys + {key}, category)
  {
  }

  /** Once an item is refused the whole update is. */
  lemma {:induction false} RefusedForGood(
    aliases: Aliases, rows: seq<Line>, items: seq<ItemUpdate>, n: nat, owner: Option<UserId>, merchant: string, e: UpdateError)
    requires n <= |items| && ProcessItems(aliases, rows, items, n, owner, merchant) == Err(e)
    ensures ProcessItems(aliases, rows, items, |items|, owner, merchant) == Err(e)
    decreases |items| - n
  {
    if n < |items| {
      hide Advance;
      RefusedForGood(aliases, rows, items, n + 1, owner, merchant, e);
    }
  }
}
