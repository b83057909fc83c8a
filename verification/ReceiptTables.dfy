/**
  Stored receipts and the item-category memory: what `persist_receipt` and
  `update_receipt` do to the rows of a receipt and to the aliases a user has taught,
  as functions of the tables.
 */
module ReceiptTables {
  import opened Prelude
  import opened ReceiptModel
  import opened TextKeys

  type ReceiptId = nat
  type LineId = nat
  type UserId = nat
  type ImageId = nat

  datatype Source = FromLlm | FromHistory | FromUser | FromNowhere

  /** The columns of a line item that are copied through. */
  datatype Detail = Detail(quantity: real, unitPrice: real, totalPrice: real, tags: seq<string>)

  datatype Line = Line(
    id: LineId, description: string, original: string,
    category: SpendingCategory, source: Source, position: nat, detail: Detail)

  datatype Row = Row(
    header: Receipt, imageId: Option<ImageId>, owner: Option<UserId>, verified: bool, lines: seq<Line>)

  datatype AliasKey = AliasKey(user: UserId, merchant: string, description: string)

  type Aliases = map<AliasKey, SpendingCategory>

  datatype Tables = Tables(
    receipts: map<ReceiptId, Row>, aliases: Aliases, nextReceipt: ReceiptId, nextLine: LineId)

  const EMPTY := Tables(map[], map[], 0, 0)

  /** One item of an update; `category` is absent when the client did not send the field. */
  datatype ItemUpdate = ItemUpdate(
    id: Option<LineId>, description: string, category: Option<SpendingCategory>, remember: bool, detail: Detail)
  {
    function Category(): SpendingCategory
    {
      if category.Some? then category.value else Unknown
    }
  }

  datatype UpdateError = ForeignLine | DuplicateLine

  datatype Decision = Decision(id: Option<LineId>, original: string, category: SpendingCategory, source: Source)

  // ----- identity and category of one item

  /** `{row["id"]: row}` */
  function ById(rows: seq<Line>, id: LineId): (r: Option<Line>)
    ensures r.Some? ==> r.value in rows && r.value.id == id
    ensures r.None? <==> forall l :: l in rows ==> l.id != id
  {
    if rows == [] then None
    else if rows[|rows| - 1].id == id then Some(rows[|rows| - 1])
    else ById(rows[..|rows| - 1], id)
  }

  /** `{row["position"]: row}` */
  function ByPosition(rows: seq<Line>, position: nat): (r: Option<Line>)
    ensures r.Some? ==> r.value in rows && r.value.position == position
    ensures r.None? <==> forall l :: l in rows ==> l.position != position
  {
    if rows == [] then None
    else if rows[|rows| - 1].position == position then Some(rows[|rows| - 1])
    else ByPosition(rows[..|rows| - 1], position)
  }

  predicate Legacy(items: seq<ItemUpdate>)
  {
    forall i :: 0 <= i < |items| ==> items[i].id.None?
  }

  /** The stored row an item continues: by id, or in an update without any ids by an
      unchanged description at the same position of an equally long receipt. */
  function OldRow(rows: seq<Line>, items: seq<ItemUpdate>, n: nat): Option<Line>
    requires n < |items|
  {
    if items[n].id.Some? then ById(rows, items[n].id.value)
    else if Legacy(items) && |rows| == |items| then
      var candidate := ByPosition(rows, n);
      if candidate.Some? && candidate.value.description == items[n].description then candidate else None
    else None
  }

  function Decide(prior: Option<Line>, item: ItemUpdate): Decision
  {
    var original :=
      if prior.None? then item.description
      else if prior.value.original != "" then prior.value.original
      else prior.value.description;
    var oldCategory := if prior.Some? then prior.value.category else Unknown;
    var oldSource := if prior.Some? then prior.value.source else FromNowhere;
    var changed := item.category.Some? && item.category.value != oldCategory;
    var category := if changed || prior.None? then item.Category() else oldCategory;
    var source :=
      if prior.None? && item.category.Some? && category != Unknown then FromUser
      else if changed || item.remember then FromUser
      else oldSource;
    Decision(if prior.Some? then Some(prior.value.id) else None, original, category, source)
  }

  // ----- aliases

  /** The non-empty keys under which a remembered category is taught. */
  function TaughtKeys(original: string, description: string): set<string>
  {
    {NormalizeHistoryKey(original), NormalizeHistoryKey(description)} - {""}
  }

  /** Upsert, or delete for `unknown`, one alias. */
  function TeachOne(aliases: Aliases, key: AliasKey, category: SpendingCategory): Aliases
  {
    if category == Unknown then aliases - {key} else aliases[key := category]
  }

  /** The alias keys that item `n` of an update teaches. */
  function Taught(owner: Option<UserId>, merchant: string, decision: Decision, item: ItemUpdate): set<AliasKey>
  {
    if item.remember && owner.Some? && NormalizeHistoryKey(merchant) != "" then
      set k | k in TaughtKeys(decision.original, item.description)
        :: AliasKey(owner.value, NormalizeHistoryKey(merchant), k)
    else {}
  }

  function Teach(aliases: Aliases, keys: set<AliasKey>, category: SpendingCategory): Aliases
  {
    if category == Unknown then aliases - keys else aliases + map k | k in keys :: category
  }

  // ----- the loop of an update

  datatype Progress = Progress(used: set<LineId>, decisions: seq<Decision>, aliases: Aliases)

  function Advance(
    p: Progress, rows: seq<Line>, items: seq<ItemUpdate>, n: nat, owner: Option<UserId>, merchant: string)
    : Result<Progress, UpdateError>
    requires n < |items|
  {
    var item := items[n];
    var prior := OldRow(rows, items, n);
    if item.id.Some? && prior.None? then Err(ForeignLine)
    else if prior.Some? && prior.value.id in p.used then Err(DuplicateLine)
    else
      var decision := Decide(prior, item);
      Ok(Progress(
           if prior.Some? then p.used + {prior.value.id} else p.used,
           p.decisions + [decision],
           Teach(p.aliases, Taught(owner, merchant, decision, item), decision.category)))
  }

  function ProcessItems(
    aliases: Aliases, rows: seq<Line>, items: seq<ItemUpdate>, n: nat, owner: Option<UserId>, merchant: string)
    : (r: Result<Progress, UpdateError>)
    requires n <= |items|
    ensures r.Ok? ==> |r.value.decisions| == n
  {
    if n == 0 then Ok(Progress({}, [], aliases))
    else
      var before := ProcessItems(aliases, rows, items, n - 1, owner, merchant);
      if before.Err? then before else Advance(before.value, rows, items, n - 1, owner, merchant)
  }

  // ----- rows

  /** `_insert_children`: the first `n` rows, in order; a decision without an id gets a fresh one. */
  function NewLines(items: seq<ItemUpdate>, decisions: seq<Decision>, n: nat, next: LineId): (r: (seq<Line>, LineId))
    requires n <= |items| == |decisions|
    ensures |r.0| == n && next <= r.1
  {
    if n == 0 then ([], next)
    else
      var (lines, after) := NewLines(items, decisions, n - 1, next);
      var d, item := decisions[n - 1], items[n - 1];
      var id := if d.id.Some? then d.id.value else after;
      (lines + [Line(id, item.description, d.original, d.category, d.source, n - 1, item.detail)],
       if d.id.Some? then after else after + 1)
  }

  predicate InScope(row: Row, user: Option<UserId>, canSeeAll: bool)
  {
    canSeeAll || user.None? || row.owner == user
  }

  datatype UpdateResult = NotFound | Rejected(error: UpdateError) | Updated(tables: Tables)

  /** `update_receipt`. A rejected update is rolled back, so it has no tables of its own. */
  function Update(
    t: Tables, id: ReceiptId, header: Receipt, items: seq<ItemUpdate>, user: Option<UserId>, canSeeAll: bool)
    : UpdateResult
  {
    if id !in t.receipts || !InScope(t.receipts[id], user, canSeeAll) then NotFound
    else
      var row := t.receipts[id];
      match ProcessItems(t.aliases, row.lines, items, |items|, row.owner, header.merchantName)
      case Err(e) => Rejected(e)
      case Ok(p) =>
        var (lines, next) := NewLines(items, p.decisions, |items|, t.nextLine);
        Updated(t.(receipts := t.receipts[id := row.(header := header.(lineItems := []), lines := lines)],
                   aliases := p.aliases, nextLine := next))
  }

  // ----- persisting an extraction

  /** `_history_for_items` */
  function History(aliases: Aliases, user: Option<UserId>, merchant: string, descriptions: seq<string>)
    : map<string, SpendingCategory>
  {
    var merchantKey := NormalizeHistoryKey(merchant);
    if user.None? || descriptions == [] || merchantKey == "" then map[]
    else
      map k | k in (set d | d in descriptions && !Blank(d) :: NormalizeHistoryKey(d))
              && AliasKey(user.value, merchantKey, k) in aliases
              && aliases[AliasKey(user.value, merchantKey, k)] != Unknown
        :: aliases[AliasKey(user.value, merchantKey, k)]
  }

  function DecideExtracted(history: map<string, SpendingCategory>, item: LineItem): Decision
  {
    var key := NormalizeHistoryKey(item.description);
    if key in history then Decision(None, item.description, history[key], FromHistory)
    else Decision(None, item.description, item.spendingCategory,
                  if item.spendingCategory != Unknown then FromLlm else FromNowhere)
  }

  function Descriptions(items: seq<LineItem>): (r: seq<string>)
    ensures |r| == |items|
  {
    seq(|items|, i requires 0 <= i < |items| => items[i].description)
  }

  function AsUpdate(item: LineItem): ItemUpdate
  {
    ItemUpdate(None, item.description, Some(item.spendingCategory), false,
               Detail(item.quantity, item.unitPrice, item.totalPrice, item.tags))
  }

  function AsUpdates(items: seq<LineItem>): (r: seq<ItemUpdate>)
    ensures |r| == |items|
  {
    seq(|items|, i requires 0 <= i < |items| => AsUpdate(items[i]))
  }

  function DecideAll(history: map<string, SpendingCategory>, items: seq<LineItem>): (r: seq<Decision>)
    ensures |r| == |items|
  {
    seq(|items|, i requires 0 <= i < |items| => DecideExtracted(history, items[i]))
  }

  /** `r` is the receipt of the image, if the image has one. */
  predicate IsReceiptOf(receipts: map<ReceiptId, Row>, imageId: Option<ImageId>, r: Option<ReceiptId>)
  {
    match r
    case Some(id) => imageId.Some? && id in receipts && receipts[id].imageId == imageId
    case None => imageId.None? || forall id :: id in receipts ==> receipts[id].imageId != imageId
  }

  /** `persist_receipt`, given the answer `found` to the query for the image's receipt. */
  function Persist(
    t: Tables, receipt: Receipt, imageId: Option<ImageId>, verified: bool, user: Option<UserId>, found: Option<ReceiptId>)
    : Tables
  {
    var id := if found.Some? then found.value else t.nextReceipt;
    var history := History(t.aliases, user, receipt.merchantName, Descriptions(receipt.lineItems));
    var (lines, next) :=
      NewLines(AsUpdates(receipt.lineItems), DecideAll(history, receipt.lineItems), |receipt.lineItems|, t.nextLine);
    t.(receipts := t.receipts[id := Row(receipt.(lineItems := []), imageId, user, verified, lines)],
       nextReceipt := if found.Some? then t.nextReceipt else t.nextReceipt + 1,
       nextLine := next)
  }
}
