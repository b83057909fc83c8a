/**
  What the interleavings of collection jobs keep: one active collection per user, and links
  within one owner unless a caller who sees all rows made them.
 */
module CollectionOwnership {
  import opened Prelude
  import opened CollectionTables
  import opened CollectionProtocol

  // ----- one active collection

  /** The statements of jobs change no job, receipt, image or owner. */
  lemma ExecuteKeepsOwners(s: State, job: Job, indexed: bool)
    ensures var s' := Execute(s, job, indexed);
            && s'.jobs == s.jobs && s'.images == s.images && s'.receipts == s.receipts
            && s'.nextImage == s.nextImage && s'.nextReceipt == s.nextReceipt && s'.nextCollection == s.nextCollection
            && s'.collections.Keys == s.collections.Keys
            && (forall c :: c in s.collections ==> s'.collections[c].owner == s.collections[c].owner)
  {
    hide IndexAllows, CanLink, LinksWithout;
  }

  lemma StepKeepsOneActive(s: State, step: Step)
    requires OneActive(s.collections) && Enabled(s, step)
    ensures OneActive(Apply(s, step, true).collections)
  {
    hide IndexAllows, LinksWithout, LinksOutside;
    match step {
      case Go(id) =>
        var job := s.jobs[id];
        if job.SetActive? && Sees(job.caller, job.collection, s.collections)
          && IndexAllows(s.collections, job.collection, s.collections[job.collection].owner)
        {
          IndexKeepsOneActive(s.collections, job.collection, s.collections[job.collection].(active := true));
        }
      case Insert(id, c) =>
        IndexKeepsOneActive(s.collections, c, Collection(s.jobs[id].user, false));
        if IndexAllows(s.collections, c, s.jobs[id].user) {
          IndexKeepsOneActive(s.collections, c, Collection(s.jobs[id].user, true));
        }
      case _ =>
    }
  }

  lemma {:induction false} RunKeepsOneActive(s: State, steps: seq<Step>)
    requires OneActive(s.collections) && Run(s, steps, true)
    ensures OneActive(After(s, steps, true).collections)
    decreases |steps|
  {
    hide Apply, Enabled, OneActive;
    if steps != [] {
      StepKeepsOneActive(s, steps[0]);
      RunKeepsOneActive(Apply(s, steps[0], true), steps[1..]);
    }
  }

  /** With the index, in every interleaving of all callers' statements, each user has at most
      one active collection. */
  lemma OneActivePerUser(steps: seq<Step>, c: CollectionId, d: CollectionId)
    requires Run(EMPTY, steps, true)
    ensures var s := After(EMPTY, steps, true);
            c in s.collections && d in s.collections && s.collections[c].active && s.collections[d].active
              && s.collections[c].owner == s.collections[d].owner
            ==> c == d
  {
    RunKeepsOneActive(EMPTY, steps);
  }

  // ----- what the index is needed for

  /** The user whose active collection a job is about to replace. */
  function Activates(job: Job): Option<UserId>
  {
    match job
    case ClearThenInsert(u) => Some(u)
    case InsertNew(u, active) => if active then Some(u) else None
    case CheckOwner(u, _) => Some(u)
    case ClearThenSet(u, _) => Some(u)
    case SetActive(Owner(u), _) => Some(u)
    case _ => None
  }

  /** Activations of one user do not overlap, and no caller who sees all rows activates. */
  predicate OneAtATime(s: State, step: Step)
  {
    step.Begin? ==>
      && !step.job.SetActive?
      && (Activates(step.job).Some? ==>
            forall id :: id in s.jobs ==> Activates(s.jobs[id]) != Activates(step.job))
  }

  ghost predicate SerialRun(s: State, steps: seq<Step>)
    decreases |steps|
  {
    steps == []
    || (Enabled(s, steps[0]) && OneAtATime(s, steps[0]) && SerialRun(Apply(s, steps[0], false), steps[1..]))
  }

  /** At most one job per user is on its way to an active collection. */
  ghost predicate Serial(jobs: map<JobId, Job>)
  {
    && (forall id :: id in jobs && jobs[id].SetActive? ==> jobs[id].caller.Owner?)
    && (forall a, b | a in jobs && b in jobs ::
          Activates(jobs[a]).Some? && Activates(jobs[a]) == Activates(jobs[b]) ==> a == b)
  }

  /** Between clearing and setting, the user has no active collection. */
  ghost predicate Cleared(s: State)
  {
    forall id, c | id in s.jobs && c in s.collections ::
      (s.jobs[id].SetActive? || s.jobs[id].InsertNew?) && Activates(s.jobs[id]) == Some(s.collections[c].owner)
      ==> !s.collections[c].active
  }

  /** A job that goes on activates for the user it has been activating for, or for none. */
  lemma JobMoves(s: State, job: Job)
    requires Successor(s, job).Some?
    ensures var next := Successor(s, job).value;
            && Activates(next) == Activates(job)
            && (next.SetActive? ==> next.caller.Owner?)
  {
    hide Sees, SeesReceipt, CanLink;
  }

  lemma SerialUpdate(jobs: map<JobId, Job>, id: JobId, job: Job)
    requires Serial(jobs) && (job.SetActive? ==> job.caller.Owner?)
    requires Activates(job).Some? ==>
               || (id in jobs && Activates(job) == Activates(jobs[id]))
               || (forall other :: other in jobs ==> Activates(jobs[other]) != Activates(job))
    ensures Serial(jobs[id := job])
  {
    hide Activates;
  }

  lemma StepKeepsSerial(s: State, step: Step)
    requires Serial(s.jobs) && Enabled(s, step) && OneAtATime(s, step)
    ensures Serial(Apply(s, step, false).jobs)
  {
    hide Deactivated, WithActive, LinksWithout, LinksOutside, IsReceiptOf, IsActiveOf, Sees, SeesReceipt, Execute, Successor;
    var after := Apply(s, step, false).jobs;
    match step {
      case Go(id) =>
        ExecuteKeepsOwners(s, s.jobs[id], false);
        if id in after {
          JobMoves(s, s.jobs[id]);
          SerialUpdate(s.jobs, id, after[id]);
        }
      case Begin(id, job) => SerialUpdate(s.jobs, id, job);
      case Capture(id, _) =>
        if id in after {
          SerialUpdate(s.jobs, id, after[id]);
        }
      case Persist(id, _, _, _, _) =>
        if id in after {
          SerialUpdate(s.jobs, id, after[id]);
        }
      case _ =>
    }
  }

  lemma GoKeepsCleared(s: State, id: JobId)
    requires Serial(s.jobs) && Cleared(s) && id in s.jobs
    ensures Cleared(GoOn(s, id, false))
  {
    hide LinksWithout, CanLink, SeesReceipt;
  }

  lemma StepKeepsCleared(s: State, step: Step)
    requires Serial(s.jobs) && Cleared(s) && Enabled(s, step) && OneAtATime(s, step)
    ensures Cleared(Apply(s, step, false))
  {
    hide LinksWithout, LinksOutside, IsReceiptOf, IsActiveOf, SeesReceipt, GoOn, Deactivated;
    if step.Go? {
      GoKeepsCleared(s, step.id);
    }
  }

  /** So the statement that activates satisfies the index by itself. */
  lemma ClearedAllows(s: State, id: JobId, c: CollectionId, u: UserId)
    requires Cleared(s) && id in s.jobs && (s.jobs[id].SetActive? || s.jobs[id].InsertNew?)
    requires Activates(s.jobs[id]) == Some(u)
    ensures IndexAllows(s.collections, c, u)
  {
  }

  lemma SerialStepKeepsOneActive(s: State, step: Step)
    requires Serial(s.jobs) && Cleared(s) && OneActive(s.collections) && Enabled(s, step)
    ensures OneActive(Apply(s, step, false).collections)
  {
    hide LinksWithout, LinksOutside, IsReceiptOf, IsActiveOf, SeesReceipt, Cleared, IndexAllows, Successor;
    match step {
      case Go(id) =>
        var job := s.jobs[id];
        if job.SetActive? && Sees(job.caller, job.collection, s.collections) {
          ClearedAllows(s, id, job.collection, job.caller.user);
          IndexKeepsOneActive(s.collections, job.collection, s.collections[job.collection].(active := true));
        }
      case Insert(id, c) =>
        var job := s.jobs[id];
        if job.active {
          ClearedAllows(s, id, c, job.user);
        }
        IndexKeepsOneActive(s.collections, c, Collection(job.user, job.active));
      case _ =>
    }
  }

  lemma {:induction false} SerialRunIsRun(s: State, steps: seq<Step>)
    requires Serial(s.jobs) && Cleared(s) && OneActive(s.collections) && SerialRun(s, steps)
    ensures Run(s, steps, false) && OneActive(After(s, steps, false).collections)
    decreases |steps|
  {
    hide Apply, Enabled, OneAtATime, Serial, Cleared, OneActive;
    if steps != [] {
      StepKeepsSerial(s, steps[0]);
      StepKeepsCleared(s, steps[0]);
      SerialStepKeepsOneActive(s, steps[0]);
      SerialRunIsRun(Apply(s, steps[0], false), steps[1..]);
    }
  }

  /** Without the index the code itself keeps one active collection per user as long as
      activations of one user do not overlap. */
  lemma SerialActivationsNeedNoIndex(steps: seq<Step>)
    requires SerialRun(EMPTY, steps)
    ensures Run(EMPTY, steps, false) && OneActive(After(EMPTY, steps, false).collections)
  {
    SerialRunIsRun(EMPTY, steps);
  }

  /** Two creations of user 7 whose clearing statements both come before the inserts. */
  const OVERLAP: seq<Step> := [
    Begin(0, ClearThenInsert(7)), Begin(1, ClearThenInsert(7)),
    Go(0), Go(1), Insert(0, 0), Insert(1, 1)]

  lemma {:induction false} RunOn(s: State, steps: seq<Step>, indexed: bool)
    requires steps != [] && Enabled(s, steps[0]) && Run(Apply(s, steps[0], indexed), steps[1..], indexed)
    ensures Run(s, steps, indexed) && After(s, steps, indexed) == After(Apply(s, steps[0], indexed), steps[1..], indexed)
  {
  }

  /** Without the index overlapping activations leave two active collections. */
  lemma OverlapNeedsTheIndex()
    ensures Run(EMPTY, OVERLAP, false) && !OneActive(After(EMPTY, OVERLAP, false).collections)
  {
    var s1 := Apply(EMPTY, OVERLAP[0], false);
    var s2 := Apply(s1, OVERLAP[1], false);
    var s3 := Apply(s2, OVERLAP[2], false);
    var s4 := Apply(s3, OVERLAP[3], false);
    var s5 := Apply(s4, OVERLAP[4], false);
    var s6 := Apply(s5, OVERLAP[5], false);
    assert s6.collections[0] == Collection(7, true) && s6.collections[1] == Collection(7, true);
    hide Apply, Enabled, Run, After;
    assert OVERLAP[5..][1..] == [];
    RunOn(s5, OVERLAP[5..], false);
    RunOn(s4, OVERLAP[4..], false);
    RunOn(s3, OVERLAP[3..], false);
    RunOn(s2, OVERLAP[2..], false);
    RunOn(s1, OVERLAP[1..], false);
    RunOn(EMPTY, OVERLAP, false);
  }

  // ----- what the index refuses

  /** A user creates an active and an inactive collection; a caller who sees all rows then
      activates the inactive one. */
  const SECOND_ACTIVE: seq<Step> := [
    Begin(0, ClearThenInsert(7)), Go(0), Insert(0, 0), Begin(0, InsertNew(7, false)), Insert(0, 1),
    Begin(0, SetActive(SeesAll, 1)), Go(0)]

  /** The index refuses: the user's active collection is not deactivated first, and nothing
      changes. */
  lemma SeeAllActivationIsRefused()
    ensures Run(EMPTY, SECOND_ACTIVE, true)
    ensures var s := After(EMPTY, SECOND_ACTIVE, true);
            s.jobs == map[] && s.collections == map[0 := Collection(7, true), 1 := Collection(7, false)]
  {
    var s1 := Apply(EMPTY, SECOND_ACTIVE[0], true);
    var s2 := Apply(s1, SECOND_ACTIVE[1], true);
    var s3 := Apply(s2, SECOND_ACTIVE[2], true);
    var s4 := Apply(s3, SECOND_ACTIVE[3], true);
    var s5 := Apply(s4, SECOND_ACTIVE[4], true);
    var s6 := Apply(s5, SECOND_ACTIVE[5], true);
    var s7 := Apply(s6, SECOND_ACTIVE[6], true);
    assert s2.collections == map[];
    assert s5.collections == map[0 := Collection(7, true), 1 := Collection(7, false)];
    assert s6.collections[0] == Collection(7, true);
    assert s7.collections == s5.collections && s7.jobs == map[];
    hide Apply, Enabled, Run, After;
    assert SECOND_ACTIVE[6..][1..] == [];
    assert Run(s7, [], true) && After(s7, [], true) == s7 by { NoMore(s7); }
    RunOn(s6, SECOND_ACTIVE[6..], true);
    RunOn(s5, SECOND_ACTIVE[5..], true);
    RunOn(s4, SECOND_ACTIVE[4..], true);
    RunOn(s3, SECOND_ACTIVE[3..], true);
    RunOn(s2, SECOND_ACTIVE[2..], true);
    RunOn(s1, SECOND_ACTIVE[1..], true);
    RunOn(EMPTY, SECOND_ACTIVE, true);
  }

  lemma NoMore(s: State)
    ensures Run(s, [], true) && After(s, [], true) == s
  {
  }

  // ----- links within one owner

  ghost predicate IdsIssued(s: State)
  {
    && (forall i :: i in s.images ==> i < s.nextImage)
    && (forall r :: r in s.receipts ==> r < s.nextReceipt)
    && (forall c :: c in s.collections ==> c < s.nextCollection)
    && (forall l :: l in s.links ==> l.0 in s.receipts && l.1 in s.collections)
  }

  /** A receipt has the owner of its image. */
  ghost predicate FollowImages(s: State)
  {
    forall r :: r in s.receipts && s.receipts[r].imageId.Some? ==>
      s.receipts[r].imageId.value in s.images && s.images[s.receipts[r].imageId.value] == s.receipts[r].owner
  }

  predicate ReceiptOf(s: State, r: ReceiptId, u: UserId)
  {
    r < s.nextReceipt && (r in s.receipts ==> s.receipts[r].owner == Some(u))
  }

  predicate CollectionOf(s: State, c: CollectionId, u: UserId)
  {
    c < s.nextCollection && (c in s.collections ==> s.collections[c].owner == u)
  }

  predicate CollectionsOf(s: State, cs: seq<CollectionId>, u: UserId)
  {
    forall i :: 0 <= i < |cs| ==> CollectionOf(s, cs[i], u)
  }

  /** What a confined caller's job has checked stays true while the rows exist. */
  predicate Checked(s: State, job: Job)
  {
    match job
    case CheckReceipt(Owner(u), c, _) => CollectionOf(s, c, u)
    case CheckTargets(Owner(u), r, targets, k) => ReceiptOf(s, r, u) && k <= |targets| && CollectionsOf(s, targets[..k], u)
    case ClearLinks(Owner(u), r, targets) => ReceiptOf(s, r, u) && CollectionsOf(s, targets, u)
    case LinkAll(Owner(u), r, targets) => ReceiptOf(s, r, u) && CollectionsOf(s, targets, u)
    case ReadActive(u, r) => ReceiptOf(s, r, u)
    case _ => true
  }

  ghost predicate JobsChecked(s: State)
  {
    forall id :: id in s.jobs ==> Checked(s, s.jobs[id])
  }

  ghost predicate Sound(s: State)
  {
    IdsIssued(s) && FollowImages(s) && JobsChecked(s)
  }

  /** A link between a receipt and a collection of different owners. */
  predicate Crosses(s: State, l: Link)
  {
    l in s.links && !(l.0 in s.receipts && l.1 in s.collections && s.receipts[l.0].owner == Some(s.collections[l.1].owner))
  }

  lemma GoKeepsIds(s: State, id: JobId, indexed: bool)
    requires IdsIssued(s) && id in s.jobs
    ensures IdsIssued(GoOn(s, id, indexed))
  {
    hide IndexAllows, Successor;
    ExecuteKeepsOwners(s, s.jobs[id], indexed);
  }

  lemma StepKeepsIds(s: State, step: Step, indexed: bool)
    requires IdsIssued(s) && Enabled(s, step)
    ensures IdsIssued(Apply(s, step, indexed))
  {
    hide IndexAllows, IsActiveOf, SeesReceipt, GoOn;
    if step.Go? {
      GoKeepsIds(s, step.id, indexed);
    }
  }

  lemma StepKeepsFollowImages(s: State, step: Step, indexed: bool)
    requires IdsIssued(s) && FollowImages(s) && Enabled(s, step)
    ensures FollowImages(Apply(s, step, indexed))
  {
    hide IndexAllows, IsActiveOf, SeesReceipt, Deactivated, WithActive, LinksWithout, LinksOutside, Execute, Successor;
    if step.Go? {
      ExecuteKeepsOwners(s, s.jobs[step.id], indexed);
    }
  }

  /** A receipt or a collection keeps its owner, and a deleted one does not come back. */
  lemma OwnersStay(s: State, step: Step, indexed: bool, r: ReceiptId, c: CollectionId, u: UserId)
    requires IdsIssued(s) && FollowImages(s) && Enabled(s, step)
    ensures ReceiptOf(s, r, u) ==> ReceiptOf(Apply(s, step, indexed), r, u)
    ensures CollectionOf(s, c, u) ==> CollectionOf(Apply(s, step, indexed), c, u)
  {
    hide IndexAllows, IsActiveOf, SeesReceipt, LinksWithout, LinksOutside, Execute, Successor;
    if step.Go? {
      ExecuteKeepsOwners(s, s.jobs[step.id], indexed);
    }
  }

  lemma CollectionsStay(s: State, step: Step, indexed: bool, cs: seq<CollectionId>, u: UserId)
    requires IdsIssued(s) && FollowImages(s) && Enabled(s, step) && CollectionsOf(s, cs, u)
    ensures CollectionsOf(Apply(s, step, indexed), cs, u)
  {
    hide Apply, Enabled, IdsIssued, FollowImages, CollectionOf;
    forall i | 0 <= i < |cs| ensures CollectionOf(Apply(s, step, indexed), cs[i], u) {
      OwnersStay(s, step, indexed, 0, cs[i], u);
    }
  }

  /** A job that does not move keeps what it has checked. */
  lemma CheckedStays(s: State, step: Step, indexed: bool, job: Job)
    requires IdsIssued(s) && FollowImages(s) && Enabled(s, step) && Checked(s, job)
    ensures Checked(Apply(s, step, indexed), job)
  {
    hide Apply, Enabled, IdsIssued, FollowImages, CollectionOf, CollectionsOf, ReceiptOf;
    match job {
      case CheckReceipt(Owner(u), c, _) => OwnersStay(s, step, indexed, 0, c, u);
      case CheckTargets(Owner(u), r, targets, k) =>
        OwnersStay(s, step, indexed, r, 0, u);
        CollectionsStay(s, step, indexed, targets[..k], u);
      case ClearLinks(Owner(u), r, targets) =>
        OwnersStay(s, step, indexed, r, 0, u);
        CollectionsStay(s, step, indexed, targets, u);
      case LinkAll(Owner(u), r, targets) =>
        OwnersStay(s, step, indexed, r, 0, u);
        CollectionsStay(s, step, indexed, targets, u);
      case ReadActive(u, r) => OwnersStay(s, step, indexed, r, 0, u);
      case _ =>
    }
  }

  lemma MoreTargets(s: State, targets: seq<CollectionId>, k: nat, u: UserId)
    requires k < |targets| && CollectionsOf(s, targets[..k], u) && CollectionOf(s, targets[k], u)
    ensures CollectionsOf(s, targets[..k + 1], u)
  {
    hide CollectionOf;
    assert targets[..k + 1] == targets[..k] + [targets[k]];
  }

  /** A job that goes on has checked what its next statement relies on. */
  lemma SuccessorIsChecked(s: State, job: Job)
    requires IdsIssued(s) && Checked(s, job) && Successor(s, job).Some?
    ensures Checked(s, Successor(s, job).value)
  {
    match job {
      case CheckTargets(Owner(u), r, targets, k) =>
        if k < |targets| {
          if Sees(Owner(u), targets[k], s.collections) {
            MoreTargets(s, targets, k, u);
          }
        } else {
          assert targets[..k] == targets;
        }
      case _ =>
    }
  }

  lemma GoIsChecked(s: State, id: JobId, indexed: bool)
    requires IdsIssued(s) && id in s.jobs && Checked(s, s.jobs[id]) && id in GoOn(s, id, indexed).jobs
    ensures Checked(GoOn(s, id, indexed), GoOn(s, id, indexed).jobs[id])
  {
    hide IdsIssued, Execute, Successor;
    ExecuteKeepsOwners(s, s.jobs[id], indexed);
    SuccessorIsChecked(s, s.jobs[id]);
  }

  /** So has a job that a step has just started. */
  lemma NewIsChecked(s: State, step: Step, indexed: bool, id: JobId)
    requires IdsIssued(s) && FollowImages(s) && JobsChecked(s) && Enabled(s, step) && !step.Go?
    requires id in Apply(s, step, indexed).jobs && !(id in s.jobs && s.jobs[id] == Apply(s, step, indexed).jobs[id])
    ensures Checked(Apply(s, step, indexed), Apply(s, step, indexed).jobs[id])
  {
    hide IndexAllows, LinksWithout, LinksOutside, Deactivated, WithActive, GoOn;
    assert id in s.jobs ==> Checked(s, s.jobs[id]);
  }

  lemma StepKeepsCheckedOf(s: State, step: Step, indexed: bool, id: JobId)
    requires Sound(s) && Enabled(s, step) && id in Apply(s, step, indexed).jobs
    ensures Checked(Apply(s, step, indexed), Apply(s, step, indexed).jobs[id])
  {
    var s' := Apply(s, step, indexed);
    assert id in s.jobs ==> Checked(s, s.jobs[id]);
    hide Checked, Execute, Successor, IdsIssued, FollowImages;
    if id in s.jobs && s.jobs[id] == s'.jobs[id] {
      CheckedStays(s, step, indexed, s.jobs[id]);
    } else if step.Go? {
      ExecuteKeepsOwners(s, s.jobs[step.id], indexed);
      GoIsChecked(s, id, indexed);
    } else {
      NewIsChecked(s, step, indexed, id);
    }
  }

  lemma StepKeepsSound(s: State, step: Step, indexed: bool)
    requires Sound(s) && Enabled(s, step)
    ensures Sound(Apply(s, step, indexed))
  {
    hide Apply, Enabled, IdsIssued, FollowImages, Checked;
    StepKeepsIds(s, step, indexed);
    StepKeepsFollowImages(s, step, indexed);
    forall id | id in Apply(s, step, indexed).jobs
      ensures Checked(Apply(s, step, indexed), Apply(s, step, indexed).jobs[id])
    {
      StepKeepsCheckedOf(s, step, indexed, id);
    }
  }

  predicate SameOwner(s: State, l: Link)
    requires l.0 in s.receipts && l.1 in s.collections
  {
    s.receipts[l.0].owner == Some(s.collections[l.1].owner)
  }

  /** The step inserts the link `l`, between rows of different owners, for a caller who sees
      all rows. */
  predicate InsertsAcross(s: State, step: Step, l: Link)
  {
    && step.Go? && step.id in s.jobs && s.jobs[step.id].LinkAll? && s.jobs[step.id].caller.SeesAll?
    && CanLink(s, s.jobs[step.id].receipt, s.jobs[step.id].targets)
    && l == (s.jobs[step.id].receipt, s.jobs[step.id].targets[0])
    && !SameOwner(s, l)
  }

  lemma GoCrosses(s: State, id: JobId, indexed: bool, l: Link)
    requires Sound(s) && id in s.jobs
    ensures Crosses(GoOn(s, id, indexed), l) && l !in s.links <==> InsertsAcross(s, Go(id), l) && l !in s.links
    ensures Crosses(GoOn(s, id, indexed), l) && l in s.links ==> Crosses(s, l)
  {
    hide IndexAllows, FollowImages, Successor;
    ExecuteKeepsOwners(s, s.jobs[id], indexed);
    assert Checked(s, s.jobs[id]);
  }

  /** A step makes a link across owners exactly when it is the insert of a caller who sees all
      rows, of an existing receipt into an existing collection of another owner. */
  lemma StepCrosses(s: State, step: Step, indexed: bool, l: Link)
    requires Sound(s) && Enabled(s, step)
    ensures l !in s.links && Crosses(Apply(s, step, indexed), l) <==> l !in s.links && InsertsAcross(s, step, l)
    ensures l in s.links && Crosses(Apply(s, step, indexed), l) ==> Crosses(s, l)
  {
    hide IndexAllows, Checked, GoOn;
    if step.Go? {
      GoCrosses(s, step.id, indexed, l);
    }
  }

  /** Some step of the run inserts `l` across owners for a caller who sees all rows. */
  ghost predicate SeeAllLinked(s: State, steps: seq<Step>, indexed: bool, l: Link)
    requires Run(s, steps, indexed)
    decreases |steps|
  {
    steps != []
    && (InsertsAcross(s, steps[0], l) || SeeAllLinked(Apply(s, steps[0], indexed), steps[1..], indexed, l))
  }

  lemma {:induction false} RunCrosses(s: State, steps: seq<Step>, indexed: bool, l: Link)
    requires Sound(s) && Run(s, steps, indexed) && Crosses(After(s, steps, indexed), l)
    ensures Crosses(s, l) || SeeAllLinked(s, steps, indexed, l)
    decreases |steps|
  {
    hide Apply, Enabled, Sound, Crosses, InsertsAcross;
    if steps != [] {
      StepKeepsSound(s, steps[0], indexed);
      RunCrosses(Apply(s, steps[0], indexed), steps[1..], indexed, l);
      StepCrosses(s, steps[0], indexed, l);
    }
  }

  /** Receipt and collection have, or if one is gone had, different owners. */
  predicate Apart(s: State, l: Link)
  {
    && l.0 < s.nextReceipt && l.1 < s.nextCollection
    && (l.0 in s.receipts && l.1 in s.collections ==> !SameOwner(s, l))
  }

  lemma StepKeepsApart(s: State, step: Step, indexed: bool, l: Link)
    requires IdsIssued(s) && FollowImages(s) && Enabled(s, step) && Apart(s, l)
    ensures Apart(Apply(s, step, indexed), l)
  {
    hide IndexAllows, IsActiveOf, SeesReceipt, LinksWithout, LinksOutside, Execute, Successor;
    if step.Go? {
      ExecuteKeepsOwners(s, s.jobs[step.id], indexed);
    }
  }

  lemma LinksAreOfExistingRows(s: State, l: Link)
    requires IdsIssued(s)
    ensures l in s.links ==> (Apart(s, l) <==> Crosses(s, l))
    ensures forall step :: Enabled(s, step) && InsertsAcross(s, step, l) ==> Apart(s, l)
  {
  }

  lemma {:induction false} RunKeepsApart(s: State, steps: seq<Step>, indexed: bool, l: Link)
    requires Sound(s) && Run(s, steps, indexed)
    requires Apart(s, l) || SeeAllLinked(s, steps, indexed, l)
    ensures Apart(After(s, steps, indexed), l)
    decreases |steps|
  {
    hide Apply, Enabled, Apart, InsertsAcross, IdsIssued, FollowImages, JobsChecked;
    if steps != [] {
      LinksAreOfExistingRows(s, l);
      StepKeepsSound(s, steps[0], indexed);
      if Apart(s, l) {
        StepKeepsApart(s, steps[0], indexed, l);
      }
      RunKeepsApart(Apply(s, steps[0], indexed), steps[1..], indexed, l);
    }
  }

  lemma {:induction false} RunKeepsSound(s: State, steps: seq<Step>, indexed: bool)
    requires Sound(s) && Run(s, steps, indexed)
    ensures Sound(After(s, steps, indexed))
    decreases |steps|
  {
    hide Apply, Enabled, Sound;
    if steps != [] {
      StepKeepsSound(s, steps[0], indexed);
      RunKeepsSound(Apply(s, steps[0], indexed), steps[1..], indexed);
    }
  }

  /** In every run, the existing links that join a receipt and a collection of different
      owners are exactly those that the run inserted across owners for a caller who sees all
      rows. */
  lemma LinksStayWithinOwners(steps: seq<Step>, indexed: bool, l: Link)
    requires Run(EMPTY, steps, indexed) && l in After(EMPTY, steps, indexed).links
    ensures var s := After(EMPTY, steps, indexed);
            && l.0 in s.receipts && l.1 in s.collections
            && (!SameOwner(s, l) <==> SeeAllLinked(EMPTY, steps, indexed, l))
  {
    var s := After(EMPTY, steps, indexed);
    RunKeepsSound(EMPTY, steps, indexed);
    hide Run, After, SeeAllLinked, FollowImages, JobsChecked;
    LinksAreOfExistingRows(s, l);
    if Crosses(s, l) {
      RunCrosses(EMPTY, steps, indexed, l);
    }
    if SeeAllLinked(EMPTY, steps, indexed, l) {
      RunKeepsApart(EMPTY, steps, indexed, l);
    }
  }

  /** No job of the run belongs to a caller who sees all rows. */
  predicate Confined(job: Job)
  {
    match job
    case SetActive(caller, _) => caller.Owner?
    case CheckCollection(caller, _, _) => caller.Owner?
    case CheckReceipt(caller, _, _) => caller.Owner?
    case CheckBeforeUnlink(caller, _, _) => caller.Owner?
    case CheckOwnReceipt(caller, _, _) => caller.Owner?
    case CheckTargets(caller, _, _, _) => caller.Owner?
    case ClearLinks(caller, _, _) => caller.Owner?
    case LinkAll(caller, _, _) => caller.Owner?
    case _ => true
  }

  ghost predicate JobsConfined(s: State)
  {
    forall id :: id in s.jobs ==> Confined(s.jobs[id])
  }

  lemma SuccessorIsConfined(s: State, job: Job)
    requires Confined(job) && Successor(s, job).Some?
    ensures Confined(Successor(s, job).value)
  {
    hide Sees, SeesReceipt, CanLink;
  }

  lemma StepKeepsConfined(s: State, step: Step, indexed: bool)
    requires JobsConfined(s) && Enabled(s, step) && (step.Begin? ==> Confined(step.job))
    ensures JobsConfined(Apply(s, step, indexed))
  {
    hide IndexAllows, LinksWithout, LinksOutside, Deactivated, WithActive, Sees, SeesReceipt, Execute, Successor;
    if step.Go? {
      ExecuteKeepsOwners(s, s.jobs[step.id], indexed);
      if Successor(s, s.jobs[step.id]).Some? {
        SuccessorIsConfined(s, s.jobs[step.id]);
      }
    }
  }

  lemma {:induction false} ConfinedRunLinksNothing(s: State, steps: seq<Step>, indexed: bool, l: Link)
    requires JobsConfined(s) && Run(s, steps, indexed)
    requires forall k :: 0 <= k < |steps| && steps[k].Begin? ==> Confined(steps[k].job)
    ensures !SeeAllLinked(s, steps, indexed, l)
    decreases |steps|
  {
    if steps != [] {
      StepKeepsConfined(s, steps[0], indexed);
      hide Apply, Enabled;
      ConfinedRunLinksNothing(Apply(s, steps[0], indexed), steps[1..], indexed, l);
    }
  }

  /** When no caller sees all rows, every link, also one that auto-capture made, joins a
      receipt and a collection of the same owner. */
  lemma ConfinedLinksStayWithinOwners(steps: seq<Step>, indexed: bool, l: Link)
    requires Run(EMPTY, steps, indexed) && l in After(EMPTY, steps, indexed).links
    requires forall k :: 0 <= k < |steps| && steps[k].Begin? ==> Confined(steps[k].job)
    ensures var s := After(EMPTY, steps, indexed);
            l.0 in s.receipts && l.1 in s.collections && s.receipts[l.0].owner == Some(s.collections[l.1].owner)
  {
    hide Run, After, SeeAllLinked;
    LinksStayWithinOwners(steps, indexed, l);
    ConfinedRunLinksNothing(EMPTY, steps, indexed, l);
  }

  /** User 1 owns the receipt, user 2 the collection, and a caller who sees all assigns. */
  const ACROSS: seq<Step> := [
    Persist(0, None, Some(1), None, 0), CutOff(0),
    Begin(0, InsertNew(2, false)), Insert(0, 0),
    Begin(0, CheckCollection(SeesAll, 0, 0)), Go(0), Go(0), Go(0)]

  /** Such a link does arise. */
  lemma SeeAllLinksAcrossOwners()
    ensures Run(EMPTY, ACROSS, true) && Crosses(After(EMPTY, ACROSS, true), (0, 0))
  {
    var s1 := Apply(EMPTY, ACROSS[0], true);
    var s2 := Apply(s1, ACROSS[1], true);
    var s3 := Apply(s2, ACROSS[2], true);
    var s4 := Apply(s3, ACROSS[3], true);
    var s5 := Apply(s4, ACROSS[4], true);
    var s6 := Apply(s5, ACROSS[5], true);
    var s7 := Apply(s6, ACROSS[6], true);
    var s8 := Apply(s7, ACROSS[7], true);
    assert s7.jobs[0] == LinkAll(SeesAll, 0, [0]);
    assert (0, 0) in s8.links;
    hide Apply, Enabled, Run, After;
    assert ACROSS[7..][1..] == [];
    RunOn(s7, ACROSS[7..], true);
    RunOn(s6, ACROSS[6..], true);
    RunOn(s5, ACROSS[5..], true);
    RunOn(s4, ACROSS[4..], true);
    RunOn(s3, ACROSS[3..], true);
    RunOn(s2, ACROSS[2..], true);
    RunOn(s1, ACROSS[1..], true);
    RunOn(EMPTY, ACROSS, true);
  }
}
