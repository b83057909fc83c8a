/**
  Collections under concurrency. Every operation of the service is a job that runs one
  separately committed statement at a time; jobs of any number of users interleave, and a
  job may be cut off anywhere. The unique index is a parameter, so that its part in the
  guarantees can be stated.
 */
module CollectionProtocol {
  import opened Prelude
  import opened CollectionTables

  type JobId = nat

  datatype Job =
    // create
    | ClearThenInsert(user: UserId)
    | InsertNew(user: UserId, active: bool)
    // activate
    | CheckOwner(user: UserId, collection: CollectionId)
    | ClearThenSet(user: UserId, collection: CollectionId)
    | SetActive(caller: Caller, collection: CollectionId)
    // assign, unassign
    | CheckCollection(caller: Caller, collection: CollectionId, receipt: ReceiptId)
    | CheckReceipt(caller: Caller, collection: CollectionId, receipt: ReceiptId)
    | CheckBeforeUnlink(caller: Caller, collection: CollectionId, receipt: ReceiptId)
    | Unlink(collection: CollectionId, receipt: ReceiptId)
    // set_receipt_collections
    | CheckOwnReceipt(caller: Caller, receipt: ReceiptId, targets: seq<CollectionId>)
    | CheckTargets(caller: Caller, receipt: ReceiptId, targets: seq<CollectionId>, checked: nat)
    | ClearLinks(caller: Caller, receipt: ReceiptId, targets: seq<CollectionId>)
    // auto-capture
    | ReadActive(user: UserId, receipt: ReceiptId)
    // the inserts of assign, set_receipt_collections and auto-capture
    | LinkAll(caller: Caller, receipt: ReceiptId, targets: seq<CollectionId>)

  datatype State = State(
    images: map<ImageId, Option<UserId>>,
    receipts: Receipts,
    collections: Collections,
    links: set<Link>,
    jobs: map<JobId, Job>,
    nextImage: ImageId,
    nextReceipt: ReceiptId,
    nextCollection: CollectionId)

  datatype Step =
    | Begin(id: JobId, job: Job)
    | Go(id: JobId)                                          // the next statement of a job
    | Insert(id: JobId, collection: CollectionId)            // the insert of create, with its new id
    | Capture(id: JobId, found: Option<CollectionId>)        // the query of auto-capture, with its answer
    | CutOff(id: JobId)
    | Deactivate(caller: Caller, collection: CollectionId)
    | DeleteCollection(caller: Caller, collection: CollectionId)
    | StoreImage(image: ImageId, owner: Option<UserId>)
    | Persist(id: JobId, source: Option<ImageId>, owner: Option<UserId>, found: Option<ReceiptId>, receipt: ReceiptId)
    | DeleteReceipt(receipt: ReceiptId)
    | DeleteImage(image: ImageId)

  const EMPTY := State(map[], map[], map[], {}, map[], 0, 0, 0)

  /** How the operations of the service start. A caller who sees all rows activates without
      the owner check and without clearing. */
  predicate Initial(job: Job)
  {
    || job.ClearThenInsert?
    || (job.InsertNew? && !job.active)
    || job.CheckOwner?
    || (job.SetActive? && job.caller.SeesAll?)
    || job.CheckCollection?
    || job.CheckBeforeUnlink?
    || job.CheckOwnReceipt?
  }

  /** `found` is the receipt of the image, if there is one. */
  predicate IsReceiptOf(receipts: Receipts, image: Option<ImageId>, found: Option<ReceiptId>)
  {
    match found
    case Some(r) => image.Some? && r in receipts && receipts[r].imageId == image
    case None => image.None? || forall r :: r in receipts ==> receipts[r].imageId != image
  }

  predicate Enabled(s: State, step: Step)
  {
    match step
    case Begin(id, job) => id !in s.jobs && Initial(job)
    case Go(id) => id in s.jobs && !s.jobs[id].InsertNew? && !s.jobs[id].ReadActive?
    case Insert(id, c) => id in s.jobs && s.jobs[id].InsertNew? && c >= s.nextCollection
    case Capture(id, found) =>
      id in s.jobs && s.jobs[id].ReadActive? && IsActiveOf(s.collections, s.jobs[id].user, found)
    case CutOff(id) => id in s.jobs
    case Deactivate(_, _) => true
    case DeleteCollection(_, _) => true
    case StoreImage(i, _) => i >= s.nextImage
    case Persist(id, image, owner, found, r) =>
      && id !in s.jobs && r >= s.nextReceipt
      && (image.Some? ==> image.value in s.images && owner == s.images[image.value])
      && IsReceiptOf(s.receipts, image, found)
    case DeleteReceipt(r) => r in s.receipts
    case DeleteImage(i) => i in s.images
  }

  function Next(s: State, id: JobId, job: Job): State
  {
    s.(jobs := s.jobs[id := job])
  }

  function End(s: State, id: JobId): State
  {
    s.(jobs := s.jobs - {id})
  }

  /** What a job's next statement does to the tables. */
  function Execute(s: State, job: Job, indexed: bool): State
  {
    match job
    case ClearThenInsert(u) => s.(collections := Deactivated(s.collections, u))
    case ClearThenSet(u, _) => s.(collections := Deactivated(s.collections, u))
    case SetActive(caller, c) =>
      if Sees(caller, c, s.collections) && (indexed ==> IndexAllows(s.collections, c, s.collections[c].owner)) then
        s.(collections := WithActive(s.collections, c, true))
      else s
    case Unlink(c, r) => s.(links := s.links - {(r, c)})
    case ClearLinks(_, r, _) => s.(links := LinksWithout(s.links, r))
    case LinkAll(_, r, targets) => if CanLink(s, r, targets) then s.(links := s.links + {(r, targets[0])}) else s
    case _ => s
  }

  /** There is a target left and both foreign keys hold. */
  predicate CanLink(s: State, r: ReceiptId, targets: seq<CollectionId>)
  {
    targets != [] && r in s.receipts && targets[0] in s.collections
  }

  /** Where the job is after that statement; nowhere if it is done, not allowed or failed. */
  function Successor(s: State, job: Job): Option<Job>
  {
    match job
    case ClearThenInsert(u) => Some(InsertNew(u, true))
    case CheckOwner(u, c) => if Sees(Owner(u), c, s.collections) then Some(ClearThenSet(u, c)) else None
    case ClearThenSet(u, c) => Some(SetActive(Owner(u), c))
    case CheckCollection(caller, c, r) =>
      if Sees(caller, c, s.collections) then Some(CheckReceipt(caller, c, r)) else None
    case CheckReceipt(caller, c, r) =>
      if SeesReceipt(caller, r, s.receipts) then Some(LinkAll(caller, r, [c])) else None
    case CheckBeforeUnlink(caller, c, r) => if Sees(caller, c, s.collections) then Some(Unlink(c, r)) else None
    case CheckOwnReceipt(caller, r, targets) =>
      if SeesReceipt(caller, r, s.receipts) then Some(CheckTargets(caller, r, targets, 0)) else None
    case CheckTargets(caller, r, targets, k) =>
      if k >= |targets| then Some(ClearLinks(caller, r, targets))
      else if Sees(caller, targets[k], s.collections) then Some(CheckTargets(caller, r, targets, k + 1))
      else None
    case ClearLinks(caller, r, targets) => Some(LinkAll(caller, r, targets))
    case LinkAll(caller, r, targets) => if CanLink(s, r, targets) then Some(LinkAll(caller, r, targets[1..])) else None
    case _ => None
  }

  /** The next statement of a job. */
  function GoOn(s: State, id: JobId, indexed: bool): State
    requires id in s.jobs
  {
    var s', next := Execute(s, s.jobs[id], indexed), Successor(s, s.jobs[id]);
    if next.Some? then Next(s', id, next.value) else End(s', id)
  }

  function Apply(s: State, step: Step, indexed: bool): State
    requires Enabled(s, step)
  {
    match step
    case Begin(id, job) => Next(s, id, job)
    case Go(id) => GoOn(s, id, indexed)
    case Insert(id, c) =>
      var job := s.jobs[id];
      if indexed && job.active && !IndexAllows(s.collections, c, job.user) then End(s, id)
      else
        End(s.(collections := s.collections[c := Collection(job.user, job.active)], nextCollection := c + 1), id)
    case Capture(id, found) =>
      if found.Some? then Next(s, id, LinkAll(Owner(s.jobs[id].user), s.jobs[id].receipt, [found.value]))
      else End(s, id)
    case CutOff(id) => End(s, id)
    case Deactivate(caller, c) =>
      if Sees(caller, c, s.collections) then s.(collections := WithActive(s.collections, c, false)) else s
    case DeleteCollection(caller, c) =>
      if Sees(caller, c, s.collections) then
        s.(collections := s.collections - {c}, links := LinksOutside(s.links, c))
      else s
    case StoreImage(i, owner) => s.(images := s.images[i := owner], nextImage := i + 1)
    case Persist(id, image, owner, found, r) =>
      var stored := if found.Some? then found.value else r;
      var s' := s.(receipts := s.receipts[stored := Receipt(owner, image)],
                   nextReceipt := if found.Some? then s.nextReceipt else r + 1);
      if owner.Some? then Next(s', id, ReadActive(owner.value, stored)) else s'
    case DeleteReceipt(r) => s.(receipts := s.receipts - {r}, links := LinksWithout(s.links, r))
    case DeleteImage(i) =>
      s.(images := s.images - {i},
         receipts := map r | r in s.receipts ::
                       if s.receipts[r].imageId == Some(i) then s.receipts[r].(imageId := None) else s.receipts[r])
  }

  ghost predicate Run(s: State, steps: seq<Step>, indexed: bool)
    decreases |steps|
  {
    steps == [] || (Enabled(s, steps[0]) && Run(Apply(s, steps[0], indexed), steps[1..], indexed))
  }

  ghost function After(s: State, steps: seq<Step>, indexed: bool): State
    requires Run(s, steps, indexed)
    decreases |steps|
  {
    if steps == [] then s else After(Apply(s, steps[0], indexed), steps[1..], indexed)
  }
}
