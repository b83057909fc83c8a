/**
  The tables behind collections and the statements that change them. A collection belongs
  to one user, a link puts a receipt into a collection, and a partial unique index allows
  each user one active collection. A statement that a constraint forbids changes nothing.
 */
module CollectionTables {
  import opened Prelude

  type UserId = nat
  type ImageId = nat
  type ReceiptId = nat
  type CollectionId = nat
  type Link = (ReceiptId, CollectionId)

  /** A caller is confined to their own rows, or sees all rows. */
  datatype Caller = Owner(user: UserId) | SeesAll

  datatype Collection = Collection(owner: UserId, active: bool)

  datatype Receipt = Receipt(owner: Option<UserId>, imageId: Option<ImageId>)

  type Collections = map<CollectionId, Collection>

  type Receipts = map<ReceiptId, Receipt>

  predicate Sees(caller: Caller, c: CollectionId, collections: Collections)
  {
    c in collections && (caller.SeesAll? || collections[c].owner == caller.user)
  }

  predicate SeesReceipt(caller: Caller, r: ReceiptId, receipts: Receipts)
  {
    r in receipts && (caller.SeesAll? || receipts[r].owner == Some(caller.user))
  }

  /** `found` is an answer of the query for an active collection of `user`. */
  predicate IsActiveOf(collections: Collections, user: UserId, found: Option<CollectionId>)
  {
    match found
    case Some(c) => c in collections && collections[c] == Collection(user, true)
    case None => forall c :: c in collections ==> collections[c] != Collection(user, true)
  }

  /** The unique index on the owners of active collections */
  ghost predicate OneActive(collections: Collections)
  {
    forall c, d | c in collections && d in collections ::
      collections[c].active && collections[d].active && collections[c].owner == collections[d].owner ==> c == d
  }

  /** What the index demands of a statement that makes `c` an active collection of `owner`. */
  predicate IndexAllows(collections: Collections, c: CollectionId, owner: UserId)
  {
    forall d :: d in collections && d != c ==> collections[d] != Collection(owner, true)
  }

  function Deactivated(collections: Collections, user: UserId): Collections
  {
    map c | c in collections ::
      if collections[c].owner == user then collections[c].(active := false) else collections[c]
  }

  function WithActive(collections: Collections, c: CollectionId, active: bool): Collections
    requires c in collections
  {
    collections[c := collections[c].(active := active)]
  }

  function LinksWithout(links: set<Link>, r: ReceiptId): set<Link>
  {
    set l | l in links && l.0 != r
  }

  /** What creation leaves: the new collection, as its owner's only active one if it is active. */
  function Created(collections: Collections, user: UserId, active: bool, c: CollectionId): Collections
  {
    (if active then Deactivated(collections, user) else collections)[c := Collection(user, active)]
  }

  /** What the activation by an owner leaves: nothing changed for a foreign collection, and
      otherwise the collection as the owner's only active one. */
  function Activated(collections: Collections, user: UserId, c: CollectionId): Collections
  {
    if Sees(Owner(user), c, collections) then
      map d | d in collections ::
        if collections[d].owner == user then collections[d].(active := d == c) else collections[d]
    else collections
  }

  /** The links of one receipt to the given collections */
  function LinksTo(r: ReceiptId, targets: seq<CollectionId>): set<Link>
  {
    set c | c in targets :: (r, c)
  }

  function LinksOutside(links: set<Link>, c: CollectionId): set<Link>
  {
    set l | l in links && l.1 != c
  }

  lemma IndexKeepsOneActive(collections: Collections, c: CollectionId, collection: Collection)
    requires OneActive(collections) && (collection.active ==> IndexAllows(collections, c, collection.owner))
    ensures OneActive(collections[c := collection])
  {
    if collection.active {
      assert forall d :: d in collections && d != c && collections[d].active ==>
                collections[d] != Collection(collection.owner, true);
      assert forall d :: d in collections && d != c && collections[d].active ==> collections[d].owner != collection.owner;
    }
  }

  lemma DeactivatedIsAllowed(collections: Collections, user: UserId, c: CollectionId)
    ensures IndexAllows(Deactivated(collections, user), c, user)
  {
  }
}
