/**
  The scheduler itself, as code over the tables: `ImageDB`'s and `ReceiptDB`'s statements,
  `_analyze_one` and one analysis cycle. The clock runs while the model extracts. Because
  the configured deadline stays below the claim, every cycle is proved to be a timely run of
  the protocol, so what holds of all runs holds of it; its outcome is stated image by image.
 */
module ImageScheduler {
  import opened Prelude
  import opened ImageAnalysis
  import opened ImageClaims

  /** The images that `list_pending_images` selects, oldest first. */
  function PendingIds(images: map<ImageId, Image>, now: int, n: nat): seq<ImageId>
  {
    if n == 0 then []
    else PendingIds(images, now, n - 1) + if n - 1 in images && Claimable(images[n - 1], now) then [n - 1] else []
  }

  /** They are exactly the claimable ones, once each and in order. */
  lemma {:induction false} PendingAreClaimable(images: map<ImageId, Image>, now: int, n: nat)
    ensures var ids := PendingIds(images, now, n);
            && (forall i :: i in ids <==> i < n && i in images && Claimable(images[i], now))
            && (forall j, k :: 0 <= j < k < |ids| ==> ids[j] < ids[k])
  {
    hide Claimable;
    if n > 0 {
      PendingAreClaimable(images, now, n - 1);
      var rest := PendingIds(images, now, n - 1);
      forall j | 0 <= j < |rest| ensures rest[j] < n - 1 {
        assert rest[j] in rest;
      }
    }
  }

  /** The two tables, as one connection sees them. */
  class Database {
    var now: int
    var images: map<ImageId, Image>
    var receipts: map<ReceiptId, Receipt>
    var nextImage: nat
    var nextReceipt: nat

    constructor ()
      ensures View(map[]) == EMPTY
    {
      now, images, receipts, nextImage, nextReceipt := 0, map[], map[], 0, 0;
    }

    function View(jobs: map<WorkerId, Job>): State
      reads this
    {
      State(now, images, receipts, jobs, nextImage, nextReceipt)
    }

    /** Time passes. */
    method Wait(seconds: nat)
      modifies this`now
      ensures now == old(now) + seconds
    {
      now := now + seconds;
    }

    method StoreImage(bypass: bool) returns (i: ImageId)
      modifies this
      ensures i == old(nextImage)
      ensures forall jobs :: View(jobs) == Apply(old(View(jobs)), Store(i, bypass))
    {
      i := nextImage;
      images := images[i := Image(Pending, None, None, bypass)];
      nextImage := i + 1;
    }

    method ListPendingImages() returns (ids: seq<ImageId>)
      ensures ids == PendingIds(images, now, nextImage)
    {
      hide Claimable;
      ids := [];
      for n := 0 to nextImage
        invariant ids == PendingIds(images, now, n)
      {
        if n in images && Claimable(images[n], now) {
          ids := ids + [n];
        }
      }
    }

    method ClaimForAnalysis(i: ImageId) returns (row: Option<Image>)
      modifies this`images
      ensures row.Some? <==> i in old(images) && Claimable(old(images)[i], now)
      ensures row.Some? ==> images == ClaimImage(old(images), i, now) && row.value == images[i]
      ensures row.None? ==> images == old(images)
    {
      if i in images && Claimable(images[i], now) {
        images := ClaimImage(images, i, now);
        row := Some(images[i]);
      } else {
        row := None;
      }
    }

    method GetReceiptByImageId(i: ImageId) returns (found: Option<ReceiptId>)
      requires IdsIssued(View(map[]))
      ensures Answers(receipts, i, found)
    {
      for r := 0 to nextReceipt
        invariant forall q :: q in receipts && q < r ==> receipts[q].imageId != Some(i)
      {
        if r in receipts && receipts[r].imageId == Some(i) {
          return Some(r);
        }
      }
      return None;
    }

    /** `persist_receipt`: update the image's receipt or insert one; a failed transaction
        changes nothing. */
    method PersistReceipt(i: ImageId, content: nat, verified: bool, fails: bool)
      returns (row: Option<ReceiptId>, ghost updated: bool)
      requires IdsIssued(View(map[]))
      modifies this`receipts, this`nextReceipt
      ensures row.None? <==> fails || (i !in images && NoReceiptFor(old(receipts), i))
      ensures row.None? ==> receipts == old(receipts) && nextReceipt == old(nextReceipt)
      ensures row.Some? && updated ==>
        && Answers(old(receipts), i, row) && nextReceipt == old(nextReceipt)
        && receipts == old(receipts)[row.value := old(receipts)[row.value].(content := content, verified := verified)]
      ensures row.Some? && !updated ==>
        && NoReceiptFor(old(receipts), i) && i in images
        && row.value == old(nextReceipt) && nextReceipt == old(nextReceipt) + 1
        && receipts == old(receipts)[row.value := Receipt(Some(i), verified, content)]
    {
      updated := false;
      row := GetReceiptByImageId(i);
      if fails {
        row := None;
      } else if row.Some? {
        updated := true;
        receipts := receipts[row.value := receipts[row.value].(content := content, verified := verified)];
      } else if i in images {
        receipts := receipts[nextReceipt := Receipt(Some(i), verified, content)];
        row := Some(nextReceipt);
        nextReceipt := nextReceipt + 1;
      }
    }

    method MarkImageAnalyzed(i: ImageId, r: ReceiptId)
      modifies this`images
      ensures images == LinkImage(old(images), i, r)
    {
      if i in images {
        images := images[i := images[i].(status := Analyzed, receiptId := Some(r), processingAt := None)];
      }
    }

    method MarkImage(i: ImageId, status: ImageStatus)
      modifies this`images
      ensures images == EndImage(old(images), i, status)
    {
      if i in images {
        images := images[i := images[i].(status := status, processingAt := None)];
      }
    }
  }

  /** The configured extraction deadline: more than zero and at most 600 seconds. */
  const MAX_DEADLINE: int := 600

  type Deadline = d: int | 0 < d <= MAX_DEADLINE witness MAX_DEADLINE

  /** What the outside world does with one image: whether another worker claims it first, and
      what the model would answer after how many seconds. */
  datatype Environment = Environment(
    claimedElsewhere: bool, fileExists: bool, duration: nat, outcome: Outcome, persistFails: bool)

  /** How long the extraction takes and how it ends, cut off at the deadline. */
  function Elapsed(env: Environment, deadline: Deadline): nat
  {
    if env.duration <= deadline then env.duration else deadline
  }

  function Answer(env: Environment, deadline: Deadline): Outcome
  {
    if env.duration <= deadline then env.outcome else DeadlineMissed
  }

  datatype PendingImageResult = PendingImageResult(
    imageId: ImageId, status: ImageStatus, receiptId: Option<ReceiptId>)

  /** The status a claimed image ends in. */
  function Expected(hasReceipt: bool, env: Environment, deadline: Deadline): ImageStatus
  {
    if hasReceipt then Analyzed
    else if !env.fileExists then Failed
    else match Answer(env, deadline)
      case Content(_) => if env.persistFails then Failed else Analyzed
      case DeadlineMissed => TimedOut
      case NotReadable => Unreadable
      case ProviderError => Failed
  }

  /** The seconds this takes. */
  function TimeFor(hasReceipt: bool, env: Environment, deadline: Deadline): nat
  {
    if hasReceipt || !env.fileExists then 0 else Elapsed(env, deadline)
  }

  /** The tables after image `i` was analysed: only its row and, at most, a new receipt differ. */
  ghost predicate Settled(before: State, after: State, i: ImageId, result: PendingImageResult)
    requires i in before.images
  {
    && before.now <= after.now && after.nextImage == before.nextImage
    && after.images.Keys == before.images.Keys
    && (forall j :: j in before.images && j != i ==> after.images[j] == before.images[j])
    && (forall r :: r in before.receipts ==> r in after.receipts && after.receipts[r] == before.receipts[r])
    && (forall r :: r in after.receipts && r !in before.receipts ==> after.receipts[r].imageId == Some(i))
    && result.imageId == i
    && after.images[i].status == result.status
    && (result.receiptId.Some? <==> result.status == Analyzed)
    && (result.status == Analyzed ==>
          after.images[i].receiptId == result.receiptId
          && result.receiptId.value in after.receipts
          && after.receipts[result.receiptId.value].imageId == Some(i))
  }

  /** What a receipt that was not there before holds: it was stored for an image without one
      that ended analysed, with the extracted content, verified exactly if the image bypasses
      review. */
  ghost predicate Stored(before: State, after: State, i: ImageId, bypass: bool, answer: Outcome, status: ImageStatus)
  {
    forall r :: r in after.receipts && r !in before.receipts ==>
      && NoReceiptFor(before.receipts, i) && status == Analyzed
      && answer.Content? && after.receipts[r] == Receipt(Some(i), bypass, answer.content)
  }

  class AnalysisScheduler {
    const db: Database
    const deadline: Deadline

    constructor (db: Database, deadline: Deadline)
      ensures this.db == db && this.deadline == deadline
    {
      this.db, this.deadline := db, deadline;
    }

    /** `_analyze_one` for the image `i` that this worker has just claimed. */
    method AnalyzeOne(i: ImageId, image: Image, env: Environment, ghost w: WorkerId)
      returns (result: PendingImageResult, ghost steps: seq<Step>)
      requires Consistent(db.View(map[])) && i in db.images && db.images[i] == image
      modifies db
      ensures var s := old(db.View(map[w := ClaimedJob(i, image, db.now)]));
              TimelyRun(s, steps) && Run(s, steps) && After(s, steps) == db.View(map[])
      ensures Settled(old(db.View(map[])), db.View(map[]), i, result)
      ensures Stored(old(db.View(map[])), db.View(map[]), i, image.bypassReview, Answer(env, deadline), result.status)
      ensures result.status == Expected(!NoReceiptFor(old(db.receipts), i), env, deadline)
      ensures db.now == old(db.now) + TimeFor(!NoReceiptFor(old(db.receipts), i), env, deadline)
    {
      hide Run, TimelyRun, After;
      if image.receiptId.Some? {
        LinkedReceipt(db.View(map[]), i);
        result, steps := LinkExisting(i, image, image.receiptId, env, w);
        return;
      }
      var existing := db.GetReceiptByImageId(i);
      if existing.Some? {
        result, steps := LinkExisting(i, image, existing, env, w);
        return;
      }
      result, steps := AnalyzeFile(i, image, env, w);
    }

    /** The image's receipt exists already: mark the image, extract nothing. */
    method LinkExisting(
      i: ImageId, image: Image, existing: Option<ReceiptId>, env: Environment, ghost w: WorkerId)
      returns (result: PendingImageResult, ghost steps: seq<Step>)
      requires i in db.images && db.images[i] == image
      requires existing.Some? && Answers(db.receipts, i, existing)
      requires image.receiptId.Some? ==> image.receiptId == existing
      modifies db`images
      ensures var s := old(db.View(map[w := ClaimedJob(i, image, db.now)]));
              TimelyRun(s, steps) && Run(s, steps) && After(s, steps) == db.View(map[])
      ensures forall n :: 0 <= n < |steps| ==> !steps[n].Extract?
      ensures Settled(old(db.View(map[])), db.View(map[]), i, result)
      ensures result == PendingImageResult(i, Analyzed, existing)
    {
      hide Run, TimelyRun, After;
      ghost var s := db.View(map[w := ClaimedJob(i, image, db.now)]);
      steps := TwoSteps(s, Check(w, existing, env.fileExists), MarkAnalyzed(w));
      db.MarkImageAnalyzed(i, existing.value);
      assert After(s, steps).jobs == map[];
      return PendingImageResult(i, Analyzed, existing), steps;
    }

    /** The extraction: it takes its time, at most the deadline, and is therefore timely. */
    method AnalyzeFile(i: ImageId, image: Image, env: Environment, ghost w: WorkerId)
      returns (result: PendingImageResult, ghost steps: seq<Step>)
      requires IdsIssued(db.View(map[])) && i in db.images && db.images[i] == image
      requires image.receiptId.None? && NoReceiptFor(db.receipts, i)
      modifies db
      ensures var s := old(db.View(map[w := ClaimedJob(i, image, db.now)]));
              TimelyRun(s, steps) && Run(s, steps) && After(s, steps) == db.View(map[])
      ensures Settled(old(db.View(map[])), db.View(map[]), i, result)
      ensures Stored(old(db.View(map[])), db.View(map[]), i, image.bypassReview, Answer(env, deadline), result.status)
      ensures result.status == Expected(false, env, deadline)
      ensures db.now == old(db.now) + TimeFor(false, env, deadline)
    {
      hide Run, TimelyRun, After, Settled;
      ghost var job := ClaimedJob(i, image, db.now);
      ghost var s := db.View(map[w := job]);
      if !env.fileExists {
        steps := MissingFile(s, w);
        SettledByMark(db.View(map[]), db.now, i, Failed);
        db.MarkImage(i, Failed);
        return PendingImageResult(i, Failed, None), steps;
      }
      var answer := Answer(env, deadline);
      steps := ExtractWithin(s, w, Elapsed(env, deadline), answer);
      ghost var start := db.View(map[]);
      db.Wait(Elapsed(env, deadline));
      ghost var moved := job.(phase := AfterExtract(answer));
      assert After(s, steps) == db.View(map[w := moved]);
      if answer.Content? {
        result, steps := PersistAndMark(i, image, answer.content, env.persistFails, w, s, moved, steps);
        SettledLater(start, start.(now := old(db.now) + Elapsed(env, deadline)), db.View(map[]), i, result);
        return;
      }
      var status := Expected(false, env, deadline);
      SettledByMark(start, db.now, i, status);
      steps := MarkWithoutReceipt(s, steps, w, status);
      db.MarkImage(i, status);
      return PendingImageResult(i, status, None), steps;
    }

    method PersistAndMark(
      i: ImageId, image: Image, content: nat, fails: bool, ghost w: WorkerId, ghost s: State, ghost job: Job,
      ghost before: seq<Step>)
      returns (result: PendingImageResult, ghost steps: seq<Step>)
      requires IdsIssued(db.View(map[])) && i in db.images && NoReceiptFor(db.receipts, i)
      requires job.kind == Scheduler && job.image == i && job.bypass == image.bypassReview && job.phase == Extracted(content)
      requires db.now <= job.claimedAt + LEASE
      requires TimelyRun(s, before) && Run(s, before) && After(s, before) == db.View(map[w := job])
      modifies db`images, db`receipts, db`nextReceipt
      ensures TimelyRun(s, steps) && Run(s, steps) && After(s, steps) == db.View(map[])
      ensures Settled(old(db.View(map[])), db.View(map[]), i, result)
      ensures Stored(old(db.View(map[])), db.View(map[]), i, image.bypassReview, Content(content), result.status)
      ensures result.status == if fails then Failed else Analyzed
    {
      hide Run, TimelyRun, After, Settled;
      ghost var start := db.View(map[]);
      var row, updated := db.PersistReceipt(i, content, image.bypassReview, fails);
      if row.None? {
        steps := FailedPersist(s, before, w);
        SettledByMark(start, db.now, i, Failed);
        db.MarkImage(i, Failed);
        return PendingImageResult(i, Failed, None), steps;
      }
      steps := SuccessfulPersist(s, before, w, row.value);
      SettledByPersist(start, i, row.value, Receipt(Some(i), image.bypassReview, content));
      db.MarkImageAnalyzed(i, row.value);
      return PendingImageResult(i, Analyzed, row), steps;
    }

    /** One analysis cycle: every image queued at its start is claimed and settled, oldest
        first, unless another worker claims it meanwhile; nothing else changes. */
    method ProcessPending(providerReachable: bool, env: ImageId -> Environment, ghost w: WorkerId)
      returns (results: seq<PendingImageResult>, ghost steps: seq<Step>)
      requires Consistent(db.View(map[]))
      modifies db
      ensures TimelyRun(old(db.View(map[])), steps) && Run(old(db.View(map[])), steps)
      ensures After(old(db.View(map[])), steps) == db.View(map[])
      ensures !providerReachable ==> results == [] && db.View(map[]) == old(db.View(map[]))
      ensures providerReachable ==>
        Cycle(old(db.View(map[])), db.View(map[]), old(PendingIds(db.images, db.now, db.nextImage)), env, deadline, results)
    {
      hide Run, TimelyRun, After, Settled, Consistent, Cycle, PendingIds, Claimable;
      ghost var before := db.View(map[]);
      results, steps := [], [];
      StartOfRun(before);
      if !providerReachable {
        return;
      }
      var pending := db.ListPendingImages();
      CycleStart(before, env, deadline);
      assert pending[..0] == [];
      for n := 0 to |pending|
        invariant TimelyRun(before, steps) && Run(before, steps) && After(before, steps) == db.View(map[])
        invariant Consistent(db.View(map[]))
        invariant Cycle(before, db.View(map[]), pending[..n], env, deadline, results)
      {
        var i := pending[n];
        ghost var s := db.View(map[]);
        ghost var more;
        StillPending(before, s, pending, n, env, deadline, results);
        if env(i).claimedElsewhere {
          var _ := db.ClaimForAnalysis(i);
          more := ClaimedByAnother(s, i, w + 1);
          CycleSkip(before, s, pending[..n], i, env, deadline, results);
        }
        var claimed := db.ClaimForAnalysis(i);
        if claimed.None? {
          assert env(i).claimedElsewhere;
        } else {
          JustClaimed(s.images, i, s.now);
          assert !env(i).claimedElsewhere;
          ghost var t := db.View(map[]);
          ClaimStarts(s, t, i, w);
          assert db.View(map[w := ClaimedJob(i, claimed.value, db.now)])
              == t.(jobs := map[w := ClaimedJob(i, claimed.value, t.now)]);
          var result;
          result, more := AnalyzeOne(i, claimed.value, env(i), w);
          CycleStep(before, s, t, db.View(map[]), pending[..n], i, env, deadline, results, result);
          more := StartWith(s, Claim(w, i, Scheduler), more);
          results := results + [result];
        }
        JustClaimed(s.images, i, s.now);
        Concatenate(before, steps, more);
        RunKeepsConsistent(s, more);
        steps := steps + more;
        assert pending[..n + 1] == pending[..n] + [i];
      }
      assert pending[..|pending|] == pending;
    }
  }

  /** The images of a cycle that no other worker claims first. */
  function Served(ids: seq<ImageId>, env: ImageId -> Environment): (r: seq<ImageId>)
    ensures forall i :: i in r <==> i in ids && !env(i).claimedElsewhere
  {
    if ids == [] then []
    else
      var last := |ids| - 1;
      Served(ids[..last], env) + if env(ids[last]).claimedElsewhere then [] else [ids[last]]
  }

  /** The result for one image of a cycle. */
  ghost predicate Delivers(
    before: State, after: State, i: ImageId, env: Environment, deadline: Deadline, result: PendingImageResult)
    requires i in before.images && i in after.images
  {
    && result.imageId == i
    && result.status == Expected(!NoReceiptFor(before.receipts, i), env, deadline)
    && after.images[i].status == result.status
    && (result.status == Analyzed ==>
          && after.images[i].receiptId == result.receiptId
          && result.receiptId.Some? && result.receiptId.value in after.receipts
          && after.receipts[result.receiptId.value].imageId == Some(i))
  }

  /** What a cycle over `ids` leaves alone: all other images, and all receipts; and it adds
      receipts only for the images it served. */
  ghost predicate Framed(before: State, after: State, ids: seq<ImageId>, served: seq<ImageId>)
  {
    && before.now <= after.now && after.nextImage == before.nextImage
    && after.images.Keys == before.images.Keys
    && (forall k :: 0 <= k < |ids| ==> ids[k] in before.images)
    && (forall j :: j in before.images && j !in ids ==> after.images[j] == before.images[j])
    && (forall r :: r in before.receipts ==> r in after.receipts && after.receipts[r] == before.receipts[r])
    && (forall r :: r in after.receipts && r !in before.receipts ==>
          after.receipts[r].imageId.Some? && after.receipts[r].imageId.value in served)
  }

  /** The tables after the images `ids` were visited in this order. */
  ghost predicate Cycle(
    before: State, after: State, ids: seq<ImageId>, env: ImageId -> Environment, deadline: Deadline,
    results: seq<PendingImageResult>)
  {
    var served := Served(ids, env);
    && Framed(before, after, ids, served)
    && |results| == |served|
    && (forall k :: 0 <= k < |served| ==>
          served[k] in before.images && Delivers(before, after, served[k], env(served[k]), deadline, results[k]))
    && (forall i :: i in ids && env(i).claimedElsewhere ==> HeldElsewhere(before, after, i))
    && AllStored(before, after, env, deadline)
  }

  /** Every new receipt holds what was extracted from its image. */
  ghost predicate AllStored(before: State, after: State, env: ImageId -> Environment, deadline: Deadline)
  {
    forall r :: r in after.receipts && r !in before.receipts ==> StoredFor(before, after.receipts[r], env, deadline)
  }

  ghost predicate StoredFor(before: State, row: Receipt, env: ImageId -> Environment, deadline: Deadline)
  {
    && row.imageId.Some? && row.imageId.value in before.images
    && Expected(false, env(row.imageId.value), deadline) == Analyzed
    && Answer(env(row.imageId.value), deadline) == Content(row.content)
    && row.verified == before.images[row.imageId.value].bypassReview
  }

  predicate HeldElsewhere(before: State, after: State, i: ImageId)
  {
    && i in before.images && i in after.images
    && after.images[i].status == Processing && after.images[i].receiptId == before.images[i].receiptId
  }

  lemma CycleStart(s: State, env: ImageId -> Environment, deadline: Deadline)
    ensures Cycle(s, s, [], env, deadline, [])
  {
  }

  /** The earlier images of a cycle leave the later ones in the queue. */
  lemma StillPending(
    before: State, s: State, pending: seq<ImageId>, n: nat, env: ImageId -> Environment, deadline: Deadline,
    results: seq<PendingImageResult>)
    requires pending == PendingIds(before.images, before.now, before.nextImage) && n < |pending|
    requires Cycle(before, s, pending[..n], env, deadline, results)
    ensures pending[n] in s.images && Claimable(s.images[pending[n]], s.now)
    ensures pending[n] !in pending[..n]
  {
    hide Delivers, Served;
    PendingAreClaimable(before.images, before.now, before.nextImage);
    assert pending[n] in pending;
  }

  /** A claimed image cannot be claimed again at once. */
  lemma JustClaimed(images: map<ImageId, Image>, i: ImageId, now: int)
    requires i in images
    ensures !Claimable(ClaimImage(images, i, now)[i], now)
  {
  }

  lemma ClaimStarts(s: State, t: State, i: ImageId, w: WorkerId)
    requires Consistent(s) && s.jobs == map[] && i in s.images && Claimable(s.images[i], s.now)
    requires t == s.(images := ClaimImage(s.images, i, s.now))
    ensures Consistent(t)
    ensures Enabled(s, Claim(w, i, Scheduler)) && Timely(s, Claim(w, i, Scheduler))
    ensures Apply(s, Claim(w, i, Scheduler)) == t.(jobs := map[w := ClaimedJob(i, t.images[i], t.now)])
  {
  }

  /** Another worker claims the image and does nothing more during the cycle. */
  lemma ClaimedByAnother(s: State, i: ImageId, v: WorkerId) returns (steps: seq<Step>)
    requires Consistent(s) && s.jobs == map[] && i in s.images && Claimable(s.images[i], s.now)
    ensures TimelyRun(s, steps) && Run(s, steps)
    ensures After(s, steps) == s.(images := ClaimImage(s.images, i, s.now))
  {
    hide Run, TimelyRun, After;
    ClaimStarts(s, s.(images := ClaimImage(s.images, i, s.now)), i, v);
    steps := TwoSteps(s, Claim(v, i, Scheduler), Crash(v));
    assert After(s, steps).jobs == map[];
  }

  lemma FrameSkip(before: State, s: State, ids: seq<ImageId>, served: seq<ImageId>, i: ImageId)
    requires Framed(before, s, ids, served) && i in s.images && i !in ids
    ensures var after := s.(images := ClaimImage(s.images, i, s.now));
            Framed(before, after, ids + [i], served) && HeldElsewhere(before, after, i)
  {
  }

  lemma SkipKeeps(before: State, s: State, i: ImageId, j: ImageId, env: Environment, deadline: Deadline, result: PendingImageResult)
    requires i in s.images && j != i && s.images.Keys == before.images.Keys
    ensures var after := s.(images := ClaimImage(s.images, i, s.now));
            && (j in before.images && Delivers(before, s, j, env, deadline, result) ==>
                  j in after.images && Delivers(before, after, j, env, deadline, result))
            && (HeldElsewhere(before, s, j) ==> HeldElsewhere(before, after, j))
  {
    hide Expected;
  }

  lemma CycleSkip(
    before: State, s: State, ids: seq<ImageId>, i: ImageId, env: ImageId -> Environment, deadline: Deadline,
    results: seq<PendingImageResult>)
    requires Cycle(before, s, ids, env, deadline, results)
    requires i in s.images && i !in ids && env(i).claimedElsewhere
    ensures Cycle(before, s.(images := ClaimImage(s.images, i, s.now)), ids + [i], env, deadline, results)
  {
    var served, after := Served(ids, env), s.(images := ClaimImage(s.images, i, s.now));
    assert Served(ids + [i], env) == served by { SkipServed(ids, i, env); }
    FrameSkip(before, s, ids, served, i);
    assert s.images.Keys == before.images.Keys;
    hide Expected, Delivers, Served, Framed, HeldElsewhere, ClaimImage;
    forall k | 0 <= k < |served| ensures Delivers(before, after, served[k], env(served[k]), deadline, results[k]) {
      assert served[k] in served;
      SkipKeeps(before, s, i, served[k], env(served[k]), deadline, results[k]);
    }
    forall j | j in ids && env(j).claimedElsewhere ensures HeldElsewhere(before, after, j) {
      SkipKeeps(before, s, i, j, env(j), deadline, PendingImageResult(j, Failed, None));
    }
  }

  lemma SkipServed(ids: seq<ImageId>, i: ImageId, env: ImageId -> Environment)
    requires env(i).claimedElsewhere
    ensures Served(ids + [i], env) == Served(ids, env)
  {
    assert (ids + [i])[..|ids|] == ids;
  }

  /** Settling one image leaves what was delivered for the others. */
  lemma StillDelivers(
    before: State, s: State, t: State, after: State, i: ImageId, result: PendingImageResult,
    j: ImageId, env: Environment, deadline: Deadline, earlier: PendingImageResult)
    requires i in s.images && t == s.(images := ClaimImage(s.images, i, s.now)) && Settled(t, after, i, result)
    requires j != i && j in before.images && s.images.Keys == before.images.Keys
    requires Delivers(before, s, j, env, deadline, earlier)
    ensures j in after.images && Delivers(before, after, j, env, deadline, earlier)
  {
    hide Expected;
  }

  lemma FrameStep(
    before: State, s: State, t: State, after: State, ids: seq<ImageId>, served: seq<ImageId>, i: ImageId,
    result: PendingImageResult)
    requires Framed(before, s, ids, served)
    requires i in s.images && i !in ids && (forall j :: j in served ==> j in ids)
    requires t == s.(images := ClaimImage(s.images, i, s.now)) && Settled(t, after, i, result)
    ensures Framed(before, after, ids + [i], served + [i])
    ensures i in before.images && s.images[i] == before.images[i]
    ensures NoReceiptFor(s.receipts, i) <==> NoReceiptFor(before.receipts, i)
  {
  }

  lemma CycleStep(
    before: State, s: State, t: State, after: State, ids: seq<ImageId>, i: ImageId,
    env: ImageId -> Environment, deadline: Deadline, results: seq<PendingImageResult>, result: PendingImageResult)
    requires Cycle(before, s, ids, env, deadline, results)
    requires i in s.images && i !in ids && !env(i).claimedElsewhere && t == s.(images := ClaimImage(s.images, i, s.now))
    requires Settled(t, after, i, result)
    requires Stored(t, after, i, t.images[i].bypassReview, Answer(env(i), deadline), result.status)
    requires result.status == Expected(!NoReceiptFor(t.receipts, i), env(i), deadline)
    ensures Cycle(before, after, ids + [i], env, deadline, results + [result])
  {
    var served := Served(ids, env);
    StoreStep(before, s, t, after, ids, served, i, env, deadline, result);
    ServedStep(ids, i, env);
    FrameStep(before, s, t, after, ids, served, i, result);
    LastDelivers(before, s, t, after, i, env(i), deadline, result);
    hide Expected, Delivers, Served, Framed, Settled, Stored, StoredFor, AllStored, ClaimImage, NoReceiptFor;
    forall k | 0 <= k < |served|
      ensures Delivers(before, after, served[k], env(served[k]), deadline, results[k])
    {
      assert served[k] in served;
      StillDelivers(before, s, t, after, i, result, served[k], env(served[k]), deadline, results[k]);
    }
    forall j | j in ids && env(j).claimedElsewhere ensures HeldElsewhere(before, after, j) {
      StillHeld(before, s, t, after, i, result, j);
    }
  }

  /** A new receipt means that the image had none. */
  lemma StoreStep(
    before: State, s: State, t: State, after: State, ids: seq<ImageId>, served: seq<ImageId>, i: ImageId,
    env: ImageId -> Environment, deadline: Deadline, result: PendingImageResult)
    requires Framed(before, s, ids, served) && AllStored(before, s, env, deadline)
    requires i in s.images && i !in ids && t == s.(images := ClaimImage(s.images, i, s.now))
    requires Settled(t, after, i, result)
    requires Stored(t, after, i, t.images[i].bypassReview, Answer(env(i), deadline), result.status)
    requires result.status == Expected(!NoReceiptFor(t.receipts, i), env(i), deadline)
    ensures AllStored(before, after, env, deadline)
  {
  }

  lemma StillHeld(
    before: State, s: State, t: State, after: State, i: ImageId, result: PendingImageResult, j: ImageId)
    requires i in s.images && t == s.(images := ClaimImage(s.images, i, s.now)) && Settled(t, after, i, result)
    requires j != i && HeldElsewhere(before, s, j)
    ensures HeldElsewhere(before, after, j)
  {
  }

  lemma ServedStep(ids: seq<ImageId>, i: ImageId, env: ImageId -> Environment)
    requires !env(i).claimedElsewhere
    ensures Served(ids + [i], env) == Served(ids, env) + [i]
  {
    assert (ids + [i])[..|ids|] == ids;
  }

  lemma LastDelivers(
    before: State, s: State, t: State, after: State, i: ImageId, env: Environment, deadline: Deadline,
    result: PendingImageResult)
    requires i in s.images && i in before.images && t == s.(images := ClaimImage(s.images, i, s.now))
    requires Settled(t, after, i, result)
    requires NoReceiptFor(s.receipts, i) <==> NoReceiptFor(before.receipts, i)
    requires result.status == Expected(!NoReceiptFor(t.receipts, i), env, deadline)
    ensures i in after.images && Delivers(before, after, i, env, deadline, result)
  {
    hide Expected;
  }

  lemma StartWith(s: State, step: Step, rest: seq<Step>) returns (steps: seq<Step>)
    requires Enabled(s, step) && Timely(s, step) && TimelyRun(Apply(s, step), rest) && Run(Apply(s, step), rest)
    ensures TimelyRun(s, steps) && Run(s, steps) && After(s, steps) == After(Apply(s, step), rest)
  {
    hide Apply, Enabled, Timely;
    steps := [step] + rest;
    assert steps[1..] == rest;
  }

  lemma {:induction false} Concatenate(s: State, a: seq<Step>, b: seq<Step>)
    requires TimelyRun(s, a) && Run(s, a) && TimelyRun(After(s, a), b) && Run(After(s, a), b)
    ensures TimelyRun(s, a + b)
    ensures Run(s, a + b) && After(s, a + b) == After(After(s, a), b)
    decreases |a|
  {
    hide Apply, Enabled, Timely;
    if a == [] {
      assert a + b == b;
    } else {
      Concatenate(Apply(s, a[0]), a[1..], b);
      assert (a + b)[0] == a[0] && (a + b)[1..] == a[1..] + b;
    }
  }

  lemma MissingFile(s: State, w: WorkerId) returns (steps: seq<Step>)
    requires s.jobs.Keys == {w} && s.jobs[w].phase == Claimed(None) && Live(s, s.jobs[w])
    requires NoReceiptFor(s.receipts, s.jobs[w].image)
    ensures TimelyRun(s, steps) && Run(s, steps)
    ensures After(s, steps) == s.(images := EndImage(s.images, s.jobs[w].image, Failed), jobs := map[])
  {
    hide Run, TimelyRun, After;
    steps := TwoSteps(s, Check(w, None, false), MarkFailed(w));
    assert After(s, steps).jobs == map[];
  }

  /** An extraction is timely exactly when it ends within the claim; so one that the deadline
      cuts off always is. */
  lemma TimelyWithinTheClaim(s: State, w: WorkerId, elapsed: nat, answer: Outcome)
    requires w in s.jobs && s.jobs[w].phase.Extracting? && s.jobs[w].claimedAt == s.now
    ensures Run(s, [Tick(elapsed), Extract(w, answer)])
    ensures TimelyRun(s, [Tick(elapsed), Extract(w, answer)]) <==> elapsed <= LEASE
    ensures elapsed <= MAX_DEADLINE ==> TimelyRun(s, [Tick(elapsed), Extract(w, answer)])
  {
    var steps := [Tick(elapsed), Extract(w, answer)];
    var t := Apply(s, steps[0]);
    var u := Apply(t, steps[1]);
    assert steps[1..] == [steps[1]] && [steps[1]][1..] == [];
    assert Run(u, []) && TimelyRun(u, []);
    assert Run(t, [steps[1]]);
    assert TimelyRun(t, [steps[1]]) <==> Timely(t, steps[1]);
    assert TimelyRun(s, steps) <==> TimelyRun(t, [steps[1]]);
  }

  lemma ExtractWithin(s: State, w: WorkerId, elapsed: nat, answer: Outcome) returns (steps: seq<Step>)
    requires s.jobs.Keys == {w} && s.jobs[w].phase == Claimed(None) && s.jobs[w].claimedAt == s.now
    requires NoReceiptFor(s.receipts, s.jobs[w].image) && elapsed <= MAX_DEADLINE
    ensures TimelyRun(s, steps) && Run(s, steps)
    ensures After(s, steps)
         == s.(now := s.now + elapsed, jobs := map[w := s.jobs[w].(phase := AfterExtract(answer))])
  {
    hide Run, TimelyRun, After;
    steps := ThreeSteps(s, Check(w, None, true), Tick(elapsed), Extract(w, answer));
    assert After(s, steps).jobs == map[w := s.jobs[w].(phase := AfterExtract(answer))];
  }

  lemma MarkWithoutReceipt(s: State, before: seq<Step>, w: WorkerId, status: ImageStatus) returns (steps: seq<Step>)
    requires TimelyRun(s, before) && Run(s, before)
    requires var cur := After(s, before);
             && cur.jobs.Keys == {w} && Live(cur, cur.jobs[w])
             && ((cur.jobs[w].phase.Failing? && status == Failed) || cur.jobs[w].phase == Ending(status))
    ensures TimelyRun(s, steps) && Run(s, steps)
    ensures var cur := After(s, before);
            After(s, steps) == cur.(images := EndImage(cur.images, cur.jobs[w].image, status), jobs := map[])
  {
    hide Run, TimelyRun, After;
    var step := if After(s, before).jobs[w].phase.Failing? then MarkFailed(w) else MarkTerminal(w);
    Extend(s, before, step);
    steps := before + [step];
    assert After(s, steps).jobs == map[];
  }

  lemma FailedPersist(s: State, before: seq<Step>, w: WorkerId) returns (steps: seq<Step>)
    requires TimelyRun(s, before) && Run(s, before)
    requires var cur := After(s, before);
             cur.jobs.Keys == {w} && cur.jobs[w].phase.Extracted? && cur.jobs[w].kind == Scheduler && Live(cur, cur.jobs[w])
    ensures TimelyRun(s, steps) && Run(s, steps)
    ensures var cur := After(s, before);
            After(s, steps) == cur.(images := EndImage(cur.images, cur.jobs[w].image, Failed), jobs := map[])
  {
    hide Run, TimelyRun, After;
    steps := MoreSteps(s, before, PersistError(w), MarkFailed(w));
    assert After(s, steps).jobs == map[];
  }

  lemma SuccessfulPersist(s: State, before: seq<Step>, w: WorkerId, r: ReceiptId) returns (steps: seq<Step>)
    requires TimelyRun(s, before) && Run(s, before)
    requires var cur := After(s, before);
             && cur.jobs.Keys == {w} && cur.jobs[w].phase.Extracted? && Live(cur, cur.jobs[w])
             && cur.jobs[w].image in cur.images && NoReceiptFor(cur.receipts, cur.jobs[w].image)
             && r >= cur.nextReceipt
    ensures TimelyRun(s, steps) && Run(s, steps)
    ensures var cur := After(s, before);
            var job := cur.jobs[w];
            After(s, steps) == cur.(images := LinkImage(cur.images, job.image, r),
                                    receipts := cur.receipts[r := Receipt(Some(job.image), job.bypass, job.phase.content)],
                                    nextReceipt := r + 1, jobs := map[])
  {
    hide Run, TimelyRun, After;
    Extend(s, before, Update(w, None));
    steps := MoreSteps(s, before + [Update(w, None)], Insert(w, r), MarkAnalyzed(w));
    assert After(s, steps).jobs == map[];
  }

  lemma SettledByMark(before: State, now: int, i: ImageId, status: ImageStatus)
    requires i in before.images && status != Analyzed && before.now <= now
    ensures Settled(before, before.(now := now, images := EndImage(before.images, i, status)), i,
                    PendingImageResult(i, status, None))
  {
  }

  /** It does not matter how much earlier the analysis began. */
  lemma SettledLater(start: State, before: State, after: State, i: ImageId, result: PendingImageResult)
    requires i in start.images && before == start.(now := before.now) && start.now <= before.now
    requires Settled(before, after, i, result)
    ensures Settled(start, after, i, result)
  {
  }

  lemma SettledByPersist(before: State, i: ImageId, r: ReceiptId, row: Receipt)
    requires i in before.images && IdsIssued(before) && r == before.nextReceipt && row.imageId == Some(i)
    ensures var after := before.(images := LinkImage(before.images, i, r),
                                 receipts := before.receipts[r := row], nextReceipt := r + 1);
            Settled(before, after, i, PendingImageResult(i, Analyzed, Some(r)))
  {
  }

  function ClaimedJob(i: ImageId, image: Image, now: int): Job
  {
    Job(Scheduler, i, now, image.bypassReview, Claimed(image.receiptId))
  }

  lemma StartOfRun(s: State)
    ensures TimelyRun(s, []) && Run(s, []) && After(s, []) == s
  {
  }

  lemma TwoSteps(s: State, a: Step, b: Step) returns (steps: seq<Step>)
    requires Enabled(s, a) && Timely(s, a)
    requires Enabled(Apply(s, a), b) && Timely(Apply(s, a), b)
    ensures steps == [a, b] && TimelyRun(s, steps) && Run(s, steps)
    ensures After(s, steps) == Apply(Apply(s, a), b)
  {
    hide Apply, Enabled, Timely;
    StartOfRun(s);
    Extend(s, [], a);
    assert [] + [a] == [a];
    Extend(s, [a], b);
    steps := [a] + [b];
  }

  lemma MoreSteps(s: State, before: seq<Step>, a: Step, b: Step) returns (steps: seq<Step>)
    requires TimelyRun(s, before) && Run(s, before)
    requires Enabled(After(s, before), a) && Timely(After(s, before), a)
    requires Enabled(Apply(After(s, before), a), b) && Timely(Apply(After(s, before), a), b)
    ensures steps == before + [a, b] && TimelyRun(s, steps) && Run(s, steps)
    ensures After(s, steps) == Apply(Apply(After(s, before), a), b)
  {
    hide Apply, Enabled, Timely, Run, TimelyRun, After;
    Extend(s, before, a);
    Extend(s, before + [a], b);
    steps := before + [a, b];
    assert steps == (before + [a]) + [b];
  }

  lemma ThreeSteps(s: State, a: Step, b: Step, c: Step) returns (steps: seq<Step>)
    requires Enabled(s, a) && Timely(s, a)
    requires Enabled(Apply(s, a), b) && Timely(Apply(s, a), b)
    requires Enabled(Apply(Apply(s, a), b), c) && Timely(Apply(Apply(s, a), b), c)
    ensures steps == [a, b, c] && TimelyRun(s, steps) && Run(s, steps)
    ensures After(s, steps) == Apply(Apply(Apply(s, a), b), c)
  {
    hide Apply, Enabled, Timely;
    steps := TwoSteps(s, a, b);
    Extend(s, steps, c);
    steps := steps + [c];
  }

  lemma LinkedReceipt(s: State, i: ImageId)
    requires Consistent(s) && i in s.images && s.images[i].receiptId.Some?
    ensures Answers(s.receipts, i, s.images[i].receiptId)
  {
  }
}
