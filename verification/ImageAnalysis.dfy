/**
  The image analysis protocol: uploads, scheduler workers and in-request analyses that
  share the `images` and `receipts` tables. Every SQL statement is one atomic step, a
  worker's position between two statements is its phase, and a crash may come anywhere.
  Identifiers are numbered in the order in which they are issued and never issued twice.
 */
module ImageAnalysis {
  import opened Prelude

  type ImageId = nat
  type ReceiptId = nat
  type WorkerId = nat

  /** The claim: 15 minutes, in seconds. */
  const LEASE: int := 900

  datatype ImageStatus = Pending | Processing | Analyzed | Failed | TimedOut | Unreadable

  datatype Image = Image(
    status: ImageStatus, processingAt: Option<int>, receiptId: Option<ReceiptId>, bypassReview: bool)

  datatype Receipt = Receipt(imageId: Option<ImageId>, verified: bool, content: nat)

  /** A background worker checks for an existing receipt; an in-request analysis does not. */
  datatype Kind = Scheduler | Upload

  datatype Phase =
    | Claimed(linked: Option<ReceiptId>)
    | Linking(receipt: ReceiptId)
    | Extracting
    | Extracted(content: nat)
    | Inserting(content: nat)
    | Persisted(receipt: ReceiptId)
    | Failing
    | Ending(status: ImageStatus)

  datatype Job = Job(kind: Kind, image: ImageId, claimedAt: int, bypass: bool, phase: Phase)

  datatype State = State(
    now: int,
    images: map<ImageId, Image>,
    receipts: map<ReceiptId, Receipt>,
    jobs: map<WorkerId, Job>,
    nextImage: nat,
    nextReceipt: nat)

  datatype Outcome = Content(content: nat) | DeadlineMissed | NotReadable | ProviderError

  datatype Step =
    | Tick(seconds: nat)
    | Store(image: ImageId, bypass: bool)
    | Claim(worker: WorkerId, image: ImageId, kind: Kind)
    | Check(worker: WorkerId, found: Option<ReceiptId>, fileExists: bool)
    | Extract(worker: WorkerId, outcome: Outcome)
    | Update(worker: WorkerId, found: Option<ReceiptId>)
    | Insert(worker: WorkerId, receipt: ReceiptId)
    | PersistError(worker: WorkerId)
    | MarkAnalyzed(worker: WorkerId)
    | MarkError(worker: WorkerId)
    | MarkFailed(worker: WorkerId)
    | MarkTerminal(worker: WorkerId)
    | Crash(worker: WorkerId)
    | Verify(receipt: ReceiptId)
    | Edit(receipt: ReceiptId, content: nat)
    | DeleteReceipt(receipt: ReceiptId)
    | DeleteImage(image: ImageId)

  // ----- the statements

  predicate Claimable(image: Image, now: int)
  {
    || image.status == Pending
    || image.status == Failed
    || (image.status == Processing && (image.processingAt.None? || image.processingAt.value < now - LEASE))
  }

  function ClaimImage(images: map<ImageId, Image>, i: ImageId, now: int): map<ImageId, Image>
    requires i in images
  {
    images[i := images[i].(status := Processing, processingAt := Some(now))]
  }

  function LinkImage(images: map<ImageId, Image>, i: ImageId, r: ReceiptId): map<ImageId, Image>
  {
    if i in images then images[i := images[i].(status := Analyzed, receiptId := Some(r), processingAt := None)]
    else images
  }

  function EndImage(images: map<ImageId, Image>, i: ImageId, status: ImageStatus): map<ImageId, Image>
  {
    if i in images then images[i := images[i].(status := status, processingAt := None)] else images
  }

  /** `ON DELETE SET NULL` on `images.receipt_id` */
  function Unlink(images: map<ImageId, Image>, r: ReceiptId): map<ImageId, Image>
  {
    map i | i in images ::
      if images[i].receiptId == Some(r) then images[i].(receiptId := None) else images[i]
  }

  /** `ON DELETE SET NULL` on `receipts.image_id` */
  function Orphan(receipts: map<ReceiptId, Receipt>, i: ImageId): map<ReceiptId, Receipt>
  {
    map r | r in receipts ::
      if receipts[r].imageId == Some(i) then receipts[r].(imageId := None) else receipts[r]
  }

  predicate NoReceiptFor(receipts: map<ReceiptId, Receipt>, i: ImageId)
  {
    forall r :: r in receipts ==> receipts[r].imageId != Some(i)
  }

  /** `found` is an answer of the query for the receipt of image `i`. */
  predicate Answers(receipts: map<ReceiptId, Receipt>, i: ImageId, found: Option<ReceiptId>)
  {
    match found
    case None => NoReceiptFor(receipts, i)
    case Some(r) => r in receipts && receipts[r].imageId == Some(i)
  }

  // ----- steps

  predicate Enabled(s: State, step: Step)
  {
    match step
    case Tick(_) => true
    case Store(i, _) => i >= s.nextImage
    case Claim(w, i, _) => w !in s.jobs && i in s.images && Claimable(s.images[i], s.now)
    case Check(w, found, _) =>
      w in s.jobs && s.jobs[w].phase.Claimed? && Answers(s.receipts, s.jobs[w].image, found)
    case Extract(w, _) => w in s.jobs && s.jobs[w].phase.Extracting?
    case Update(w, found) =>
      w in s.jobs && s.jobs[w].phase.Extracted? && Answers(s.receipts, s.jobs[w].image, found)
    case Insert(w, r) =>
      && w in s.jobs && s.jobs[w].phase.Inserting? && r >= s.nextReceipt
      && s.jobs[w].image in s.images                   // foreign key
      && NoReceiptFor(s.receipts, s.jobs[w].image)     // unique index and trigger
    case PersistError(w) => w in s.jobs && (s.jobs[w].phase.Extracted? || s.jobs[w].phase.Inserting?)
    case MarkAnalyzed(w) =>
      && w in s.jobs && (s.jobs[w].phase.Linking? || s.jobs[w].phase.Persisted?)
      && (s.jobs[w].image in s.images ==> s.jobs[w].phase.receipt in s.receipts)    // foreign key
    case MarkError(w) => w in s.jobs && (s.jobs[w].phase.Linking? || s.jobs[w].phase.Persisted?)
    case MarkFailed(w) => w in s.jobs && s.jobs[w].phase.Failing?
    case MarkTerminal(w) => w in s.jobs && s.jobs[w].phase.Ending?
    case Crash(w) => w in s.jobs
    case Verify(r) => r in s.receipts
    case Edit(r, _) => r in s.receipts
    case DeleteReceipt(r) => r in s.receipts
    case DeleteImage(i) => i in s.images
  }

  function Goto(s: State, w: WorkerId, phase: Phase): State
    requires w in s.jobs
  {
    s.(jobs := s.jobs[w := s.jobs[w].(phase := phase)])
  }

  function Leave(s: State, w: WorkerId): State
  {
    s.(jobs := s.jobs - {w})
  }

  /** After a failed statement a worker records the failure; a request just raises. */
  function Raise(s: State, w: WorkerId): State
    requires w in s.jobs
  {
    if s.jobs[w].kind == Scheduler then Goto(s, w, Failing) else Leave(s, w)
  }

  function Apply(s: State, step: Step): State
    requires Enabled(s, step)
  {
    match step
    case Tick(d) => s.(now := s.now + d)
    case Store(i, bypass) =>
      s.(images := s.images[i := Image(Pending, None, None, bypass)], nextImage := i + 1)
    case Claim(w, i, kind) =>
      var image := s.images[i];
      s.(images := ClaimImage(s.images, i, s.now),
         jobs := s.jobs[w := Job(kind, i, s.now, image.bypassReview,
                                 if kind == Scheduler then Claimed(image.receiptId) else Extracting)])
    case Check(w, found, fileExists) =>
      Goto(s, w, AfterCheck(s.jobs[w].phase.linked, found, fileExists))
    case Extract(w, outcome) => Goto(s, w, AfterExtract(outcome))
    case Update(w, found) =>
      if found.Some? then
        var r := found.value;
        var row := s.receipts[r].(content := s.jobs[w].phase.content, verified := s.jobs[w].bypass);
        Goto(s.(receipts := s.receipts[r := row]), w, Persisted(r))
      else
        Goto(s, w, Inserting(s.jobs[w].phase.content))
    case Insert(w, r) =>
      var row := Receipt(Some(s.jobs[w].image), s.jobs[w].bypass, s.jobs[w].phase.content);
      Goto(s.(receipts := s.receipts[r := row], nextReceipt := r + 1), w, Persisted(r))
    case PersistError(w) => Raise(s, w)
    case MarkAnalyzed(w) =>
      Leave(s.(images := LinkImage(s.images, s.jobs[w].image, s.jobs[w].phase.receipt)), w)
    case MarkError(w) => if s.jobs[w].phase.Persisted? then Raise(s, w) else Leave(s, w)
    case MarkFailed(w) => Leave(s.(images := EndImage(s.images, s.jobs[w].image, Failed)), w)
    case MarkTerminal(w) => Leave(s.(images := EndImage(s.images, s.jobs[w].image, s.jobs[w].phase.status)), w)
    case Crash(w) => Leave(s, w)
    case Verify(r) => s.(receipts := s.receipts[r := s.receipts[r].(verified := true)])
    case Edit(r, content) => s.(receipts := s.receipts[r := s.receipts[r].(content := content)])
    case DeleteReceipt(r) => s.(receipts := s.receipts - {r}, images := Unlink(s.images, r))
    case DeleteImage(i) => s.(images := s.images - {i}, receipts := Orphan(s.receipts, i))
  }

  function AfterCheck(linked: Option<ReceiptId>, found: Option<ReceiptId>, fileExists: bool): Phase
  {
    if linked.Some? then Linking(linked.value)
    else if found.Some? then Linking(found.value)
    else if fileExists then Extracting
    else Failing
  }

  function AfterExtract(outcome: Outcome): Phase
  {
    match outcome
    case Content(c) => Extracted(c)
    case DeadlineMissed => Ending(TimedOut)
    case NotReadable => Ending(Unreadable)
    case ProviderError => Failing
  }

  const EMPTY := State(0, map[], map[], map[], 0, 0)

  // ----- runs

  ghost predicate Run(s: State, steps: seq<Step>)
    decreases |steps|
  {
    steps == [] || (Enabled(s, steps[0]) && Run(Apply(s, steps[0]), steps[1..]))
  }

  ghost function After(s: State, steps: seq<Step>): State
    requires Run(s, steps)
    decreases |steps|
  {
    if steps == [] then s else After(Apply(s, steps[0]), steps[1..])
  }

  // ----- what every interleaving keeps

  ghost predicate IdsIssued(s: State)
  {
    && (forall i :: i in s.images ==> i < s.nextImage)
    && (forall r :: r in s.receipts ==> r < s.nextReceipt)
    && (forall w :: w in s.jobs ==> s.jobs[w].image < s.nextImage)
  }

  ghost predicate ForeignKeys(s: State)
  {
    forall r :: r in s.receipts && s.receipts[r].imageId.Some? ==> s.receipts[r].imageId.value in s.images
  }

  ghost predicate OneReceiptPerImage(s: State)
  {
    forall q, r | q in s.receipts && r in s.receipts ::
      s.receipts[q].imageId.Some? && s.receipts[q].imageId == s.receipts[r].imageId ==> q == r
  }

  /** An image names a receipt only if that receipt names the image. */
  ghost predicate LinksAreMutual(s: State)
  {
    forall i :: i in s.images && s.images[i].receiptId.Some? ==>
      s.images[i].receiptId.value in s.receipts && s.receipts[s.images[i].receiptId.value].imageId == Some(i)
  }

  function ReceiptOf(phase: Phase): Option<ReceiptId>
  {
    match phase
    case Claimed(linked) => linked
    case Linking(r) => Some(r)
    case Persisted(r) => Some(r)
    case _ => None
  }

  /** The receipt a worker remembers, while it and the image exist, is the image's receipt. */
  ghost predicate Remembers(s: State, job: Job)
  {
    ReceiptOf(job.phase).Some? ==>
      var r := ReceiptOf(job.phase).value;
      r < s.nextReceipt
      && (r in s.receipts && job.image in s.images ==> s.receipts[r].imageId == Some(job.image))
  }

  ghost predicate JobsRemember(s: State)
  {
    forall w :: w in s.jobs ==> Remembers(s, s.jobs[w])
  }

  ghost predicate Consistent(s: State)
  {
    IdsIssued(s) && ForeignKeys(s) && OneReceiptPerImage(s) && LinksAreMutual(s) && JobsRemember(s)
  }

  lemma StepKeepsIds(s: State, step: Step)
    requires IdsIssued(s) && Enabled(s, step)
    ensures IdsIssued(Apply(s, step))
  {
  }

  lemma StepKeepsForeignKeys(s: State, step: Step)
    requires IdsIssued(s) && ForeignKeys(s) && Enabled(s, step)
    ensures ForeignKeys(Apply(s, step))
  {
  }

  lemma StepKeepsOneReceipt(s: State, step: Step)
    requires IdsIssued(s) && OneReceiptPerImage(s) && Enabled(s, step)
    ensures OneReceiptPerImage(Apply(s, step))
  {
  }

  lemma StepKeepsLinks(s: State, step: Step)
    requires IdsIssued(s) && ForeignKeys(s) && LinksAreMutual(s) && JobsRemember(s) && Enabled(s, step)
    ensures LinksAreMutual(Apply(s, step))
  {
    if step.MarkAnalyzed? {
      assert Remembers(s, s.jobs[step.worker]);
    }
  }

  lemma StepKeepsMemoryOf(s: State, step: Step, w: WorkerId)
    requires IdsIssued(s) && LinksAreMutual(s) && JobsRemember(s) && Enabled(s, step)
    requires w in Apply(s, step).jobs
    ensures Remembers(Apply(s, step), Apply(s, step).jobs[w])
  {
    hide NoReceiptFor, Claimable;
    assert w in s.jobs ==> Remembers(s, s.jobs[w]);
  }

  lemma StepKeepsMemory(s: State, step: Step)
    requires IdsIssued(s) && LinksAreMutual(s) && JobsRemember(s) && Enabled(s, step)
    ensures JobsRemember(Apply(s, step))
  {
    hide Apply, Enabled, IdsIssued, LinksAreMutual, Remembers;
    forall w | w in Apply(s, step).jobs ensures Remembers(Apply(s, step), Apply(s, step).jobs[w]) {
      StepKeepsMemoryOf(s, step, w);
    }
  }

  lemma StepKeepsConsistent(s: State, step: Step)
    requires Consistent(s) && Enabled(s, step)
    ensures Consistent(Apply(s, step))
  {
    hide Apply, Enabled;
    StepKeepsIds(s, step);
    StepKeepsForeignKeys(s, step);
    StepKeepsOneReceipt(s, step);
    StepKeepsLinks(s, step);
    StepKeepsMemory(s, step);
  }

  lemma {:induction false} RunKeepsConsistent(s: State, steps: seq<Step>)
    requires Consistent(s) && Run(s, steps)
    ensures Consistent(After(s, steps))
    decreases |steps|
  {
    hide Apply, Enabled, Consistent;
    if steps != [] {
      StepKeepsConsistent(s, steps[0]);
      RunKeepsConsistent(Apply(s, steps[0]), steps[1..]);
    }
  }

  /** From a fresh database, in every interleaving of uploads, workers, crashes, expired
      claims, retries and deletions: an image has at most one receipt, and the receipt an
      image names exists and belongs to that image. */
  lemma EveryInterleavingIsConsistent(steps: seq<Step>)
    requires Run(EMPTY, steps)
    ensures var s := After(EMPTY, steps);
            && (forall q, r | q in s.receipts && r in s.receipts ::
                  s.receipts[q].imageId.Some? && s.receipts[q].imageId == s.receipts[r].imageId ==> q == r)
            && (forall i :: i in s.images && s.images[i].receiptId.Some? ==>
                  var r := s.images[i].receiptId.value; r in s.receipts && s.receipts[r].imageId == Some(i))
  {
    RunKeepsConsistent(EMPTY, steps);
    hide Run, After;
  }
}
