/**
  The collection operations as one caller runs them: the database class with its separately
  committed statements, and the service with its ownership guards on top.
 */
module CollectionService {
  import opened Prelude
  import opened CollectionTables

  datatype Error = NotFound | UniqueViolation | ForeignKeyViolation

  class CollectionDB {
    var receipts: Receipts
    var collections: Collections
    var links: set<Link>
    var nextCollection: CollectionId

    /** Ids are issued once, and the constraints of the tables hold. */
    ghost predicate Valid()
      reads this
    {
      && (forall c :: c in collections ==> c < nextCollection)
      && OneActive(collections)
      && (forall l :: l in links ==> l.0 in receipts && l.1 in collections)
    }

    constructor ()
      ensures Valid() && receipts == map[] && collections == map[] && links == {}
    {
      receipts, collections, links, nextCollection := map[], map[], {}, 0;
    }

    /** A new active collection becomes the only active one of its user. */
    method Create(user: UserId, active: bool) returns (c: CollectionId)
      requires Valid()
      modifies this`collections, this`nextCollection
      ensures Valid() && c !in old(collections) && collections.Keys == old(collections).Keys + {c}
      ensures collections[c] == Collection(user, active)
      ensures collections == Created(old(collections), user, active, c)
      ensures forall d :: d in old(collections) ==>
                collections[d].owner == old(collections)[d].owner
                && collections[d].active == (old(collections)[d].active && !(active && collections[d].owner == user))
    {
      if active {
        collections := Deactivated(collections, user);
        DeactivatedIsAllowed(old(collections), user, nextCollection);
      }
      IndexKeepsOneActive(collections, nextCollection, Collection(user, active));
      c, nextCollection := nextCollection, nextCollection + 1;
      collections := collections[c := Collection(user, active)];
    }

    /** For an owner: a foreign collection is left alone, an own one becomes the user's only
        active one. A caller who sees all rows deactivates nothing, so that the index refuses
        while another collection of the owner is active. */
    method Activate(c: CollectionId, caller: Caller) returns (r: Result<Option<Collection>, Error>)
      requires Valid()
      modifies this`collections
      ensures Valid() && collections.Keys == old(collections).Keys
      ensures r == Ok(None) <==> !Sees(caller, c, old(collections))
      ensures r.Err? <==> caller.SeesAll? && c in old(collections)
                          && exists d :: d in old(collections) && d != c
                                         && old(collections)[d] == Collection(old(collections)[c].owner, true)
      ensures r.Err? ==> r.error == UniqueViolation
      ensures r.Err? || r == Ok(None) ==> collections == old(collections)
      ensures caller.Owner? ==> collections == Activated(old(collections), caller.user, c)
      ensures r.Ok? && r.value.Some? ==>
                && r.value.value == collections[c]
                && (forall d :: d in collections && collections[d].owner == collections[c].owner ==>
                      (collections[d].active <==> d == c))
                && (forall d :: d in collections ==>
                      collections[d].owner == old(collections)[d].owner
                      && (collections[d].owner != collections[c].owner ==> collections[d] == old(collections)[d]))
    {
      if caller.Owner? {
        if !Sees(caller, c, collections) {
          return Ok(None);
        }
        collections := Deactivated(collections, caller.user);
        DeactivatedIsAllowed(old(collections), caller.user, c);
      }
      if !Sees(caller, c, collections) {
        return Ok(None);
      }
      if !IndexAllows(collections, c, collections[c].owner) {
        return Err(UniqueViolation);
      }
      IndexKeepsOneActive(collections, c, collections[c].(active := true));
      collections := WithActive(collections, c, true);
      return Ok(Some(collections[c]));
    }

    method Deactivate(c: CollectionId, caller: Caller) returns (r: Option<Collection>)
      requires Valid()
      modifies this`collections
      ensures Valid()
      ensures r.Some? <==> Sees(caller, c, old(collections))
      ensures r.None? ==> collections == old(collections)
      ensures r.Some? ==> collections == old(collections)[c := Collection(old(collections)[c].owner, false)]
    {
      if !Sees(caller, c, collections) {
        return None;
      }
      collections := WithActive(collections, c, false);
      return Some(collections[c]);
    }

    method Assign(c: CollectionId, r: ReceiptId) returns (result: Result<(), Error>)
      requires Valid()
      modifies this`links
      ensures Valid()
      ensures result.Ok? <==> r in receipts && c in collections
      ensures links == if result.Ok? then old(links) + {(r, c)} else old(links)
    {
      if r !in receipts || c !in collections {
        return Err(ForeignKeyViolation);
      }
      links := links + {(r, c)};
      return Ok(());
    }

    method Unassign(c: CollectionId, r: ReceiptId) returns (found: bool)
      requires Valid()
      modifies this`links
      ensures Valid() && links == old(links) - {(r, c)}
      ensures found <==> (r, c) in old(links)
    {
      found := (r, c) in links;
      links := links - {(r, c)};
    }

    /** Replaces the links of one receipt. The statements commit one by one, so a missing
        target leaves the receipt with the links before it. */
    method SetReceiptCollections(r: ReceiptId, targets: seq<CollectionId>) returns (result: Result<(), Error>)
      requires Valid()
      modifies this`links
      ensures Valid()
      ensures result.Ok? <==>
              targets == [] || (r in receipts && forall i :: 0 <= i < |targets| ==> targets[i] in collections)
      ensures result.Ok? ==> links == LinksWithout(old(links), r) + LinksTo(r, targets)
      ensures result.Err? ==>
                exists k :: 0 <= k < |targets| && (r !in receipts || targets[k] !in collections)
                            && links == LinksWithout(old(links), r) + LinksTo(r, targets[..k])
    {
      links := LinksWithout(links, r);
      for k := 0 to |targets|
        invariant Valid()
        invariant links == LinksWithout(old(links), r) + LinksTo(r, targets[..k])
        invariant k == 0 || (r in receipts && forall i :: 0 <= i < k ==> targets[i] in collections)
      {
        assert targets[..k + 1] == targets[..k] + [targets[k]];
        if r !in receipts || targets[k] !in collections {
          return Err(ForeignKeyViolation);
        }
        links := links + {(r, targets[k])};
      }
      assert targets[..|targets|] == targets;
      return Ok(());
    }

    /** `_capture_to_active`: a persisted receipt joins its owner's active collection, and no
        failure reaches the caller. */
    method CaptureToActive(r: ReceiptId, user: Option<UserId>)
      requires Valid()
      modifies this`links
      ensures Valid()
      ensures user.Some? && r in receipts ==>
                forall c :: c in collections && collections[c] == Collection(user.value, true) ==>
                  links == old(links) + {(r, c)}
      ensures (|| user.None? || r !in receipts
               || forall c :: c in collections ==> collections[c] != Collection(user.value, true))
              ==> links == old(links)
    {
      if user.None? || forall c :: c in collections ==> collections[c] != Collection(user.value, true) {
        return;
      }
      var active :| active in collections && collections[active] == Collection(user.value, true);
      var _ := Assign(active, r);
    }
  }

  // ----- the service

  method ActivateCollection(db: CollectionDB, c: CollectionId, caller: Caller) returns (r: Result<Collection, Error>)
    requires db.Valid()
    modifies db`collections
    ensures db.Valid()
    ensures r == Err(NotFound) <==> !Sees(caller, c, old(db.collections))
    ensures r.Err? ==> db.collections == old(db.collections)
    ensures r.Ok? ==> c in db.collections && db.collections[c].active && r.value == db.collections[c]
    ensures caller.Owner? ==> r != Err(UniqueViolation)
  {
    var result := db.Activate(c, caller);
    match result {
      case Err(e) => return Err(e);
      case Ok(None) => return Err(NotFound);
      case Ok(Some(collection)) => return Ok(collection);
    }
  }

  /** Collection and receipt must both be visible to the caller; then no foreign key fails. */
  method AssignReceipt(db: CollectionDB, c: CollectionId, r: ReceiptId, caller: Caller) returns (result: Result<(), Error>)
    requires db.Valid()
    modifies db`links
    ensures db.Valid()
    ensures result.Ok? <==> Sees(caller, c, db.collections) && SeesReceipt(caller, r, db.receipts)
    ensures result.Err? ==> result == Err(NotFound)
    ensures db.links == if result.Ok? then old(db.links) + {(r, c)} else old(db.links)
  {
    if !Sees(caller, c, db.collections) {
      return Err(NotFound);
    }
    if !SeesReceipt(caller, r, db.receipts) {
      return Err(NotFound);
    }
    result := db.Assign(c, r);
  }

  method UnassignReceipt(db: CollectionDB, c: CollectionId, r: ReceiptId, caller: Caller)
    returns (result: Result<bool, Error>)
    requires db.Valid()
    modifies db`links
    ensures db.Valid()
    ensures result.Ok? <==> Sees(caller, c, db.collections)
    ensures result.Ok? ==> result.value == ((r, c) in old(db.links))
    ensures db.links == if result.Ok? then old(db.links) - {(r, c)} else old(db.links)
  {
    if !Sees(caller, c, db.collections) {
      return Err(NotFound);
    }
    var found := db.Unassign(c, r);
    return Ok(found);
  }

  /** Afterwards the receipt is in exactly the given collections, or nothing has changed. */
  method SetCollections(db: CollectionDB, r: ReceiptId, targets: seq<CollectionId>, caller: Caller)
    returns (result: Result<(), Error>)
    requires db.Valid()
    modifies db`links
    ensures db.Valid()
    ensures result.Ok? <==> SeesReceipt(caller, r, db.receipts)
                            && forall i :: 0 <= i < |targets| ==> Sees(caller, targets[i], db.collections)
    ensures result.Err? ==> result == Err(NotFound) && db.links == old(db.links)
    ensures result.Ok? ==> forall l :: l in db.links <==> if l.0 == r then l.1 in targets else l in old(db.links)
  {
    if !SeesReceipt(caller, r, db.receipts) {
      return Err(NotFound);
    }
    for k := 0 to |targets|
      invariant forall i :: 0 <= i < k ==> Sees(caller, targets[i], db.collections)
    {
      if !Sees(caller, targets[k], db.collections) {
        return Err(NotFound);
      }
    }
    result := db.SetReceiptCollections(r, targets);
  }
}
