/**
  What the 15-minute claim buys. A worker is timely when it acts within its claim (the
  extraction deadline is configured to stay below it). If all workers are timely, claims
  are exclusive and a scheduler worker never overwrites a receipt; so without in-request
  analyses a verified receipt stays verified. An in-request analysis, which does not look
  for an existing receipt, is the one way in which a verified receipt is lost.
 */
module ImageClaims {
  import opened Prelude
  import opened ImageAnalysis

  predicate Live(s: State, job: Job)
  {
    s.now <= job.claimedAt + LEASE
  }

  /** The worker that a step belongs to; a crash is not an action of the worker. */
  function Actor(step: Step): Option<WorkerId>
  {
    match step
    case Check(w, _, _) => Some(w)
    case Extract(w, _) => Some(w)
    case Update(w, _) => Some(w)
    case Insert(w, _) => Some(w)
    case PersistError(w) => Some(w)
    case MarkAnalyzed(w) => Some(w)
    case MarkError(w) => Some(w)
    case MarkFailed(w) => Some(w)
    case MarkTerminal(w) => Some(w)
    case _ => None
  }

  predicate Timely(s: State, step: Step)
  {
    Actor(step).Some? && Actor(step).value in s.jobs ==> Live(s, s.jobs[Actor(step).value])
  }

  ghost predicate TimelyRun(s: State, steps: seq<Step>)
    decreases |steps|
  {
    steps == [] ||
    (Enabled(s, steps[0]) && Timely(s, steps[0]) && TimelyRun(Apply(s, steps[0]), steps[1..]))
  }

  lemma {:induction false} TimelyRunsRun(s: State, steps: seq<Step>)
    requires TimelyRun(s, steps)
    ensures Run(s, steps)
    decreases |steps|
  {
    hide Apply, Enabled;
    if steps != [] {
      TimelyRunsRun(Apply(s, steps[0]), steps[1..]);
    }
  }

  // ----- the invariant of timely workers

  predicate PastCheck(phase: Phase)
  {
    phase.Extracting? || phase.Extracted? || phase.Inserting?
  }

  /** A live worker's claim is the one in the row, and once a scheduler worker is past its
      check there is no receipt. */
  ghost predicate Holds(s: State, job: Job)
  {
    && job.claimedAt <= s.now
    && (Live(s, job) && job.image in s.images ==>
          && s.images[job.image].status == Processing
          && s.images[job.image].processingAt == Some(job.claimedAt)
          && (PastCheck(job.phase) && job.kind == Scheduler ==> NoReceiptFor(s.receipts, job.image)))
  }

  ghost predicate Exclusive(s: State)
  {
    && (forall w :: w in s.jobs ==> Holds(s, s.jobs[w]))
    && (forall v, w | v in s.jobs && w in s.jobs && v != w ::
          s.jobs[v].image == s.jobs[w].image && s.jobs[v].image in s.images ==>
          !(Live(s, s.jobs[v]) && Live(s, s.jobs[w])))
  }

  /** A receipt cannot name an image that is gone, so the check settles both cases. */
  lemma NoReceiptOnceChecked(s: State, w: WorkerId)
    requires Consistent(s) && Exclusive(s)
    requires w in s.jobs && Live(s, s.jobs[w])
    requires s.jobs[w].kind == Scheduler && PastCheck(s.jobs[w].phase)
    ensures NoReceiptFor(s.receipts, s.jobs[w].image)
  {
    assert Holds(s, s.jobs[w]);
  }

  lemma OwnStepKeepsHold(s: State, step: Step, w: WorkerId)
    requires Consistent(s) && Exclusive(s)
    requires Enabled(s, step) && Timely(s, step)
    requires Actor(step) == Some(w) && w in Apply(s, step).jobs
    ensures Holds(Apply(s, step), Apply(s, step).jobs[w])
  {
    assert Holds(s, s.jobs[w]);
  }

  lemma OtherStepKeepsHold(s: State, step: Step, w: WorkerId)
    requires Consistent(s) && Exclusive(s)
    requires Enabled(s, step) && Timely(s, step)
    requires Actor(step) != Some(w) && w in Apply(s, step).jobs
    ensures Holds(Apply(s, step), Apply(s, step).jobs[w])
  {
    hide OneReceiptPerImage, LinksAreMutual, JobsRemember, AfterCheck, AfterExtract;
    assert w in s.jobs ==> Holds(s, s.jobs[w]);
    if Actor(step).Some? {
      assert Holds(s, s.jobs[Actor(step).value]);
    }
  }

  lemma StepKeepsHold(s: State, step: Step, w: WorkerId)
    requires Consistent(s) && Exclusive(s)
    requires Enabled(s, step) && Timely(s, step)
    requires w in Apply(s, step).jobs
    ensures Holds(Apply(s, step), Apply(s, step).jobs[w])
  {
    hide Consistent, Exclusive, Enabled, Timely, Apply, Holds;
    if Actor(step) == Some(w) {
      OwnStepKeepsHold(s, step, w);
    } else {
      OtherStepKeepsHold(s, step, w);
    }
  }

  lemma ClaimKeepsPairExclusive(s: State, step: Step, v: WorkerId, w: WorkerId)
    requires Consistent(s) && Exclusive(s)
    requires Enabled(s, step) && step.Claim?
    ensures var t := Apply(s, step);
            && v in t.jobs && w in t.jobs && v != w
            && t.jobs[v].image == t.jobs[w].image && t.jobs[v].image in t.images
            ==> !(Live(t, t.jobs[v]) && Live(t, t.jobs[w]))
  {
    hide OneReceiptPerImage, LinksAreMutual, JobsRemember, NoReceiptFor;
    assert v in s.jobs ==> Holds(s, s.jobs[v]);
    assert w in s.jobs ==> Holds(s, s.jobs[w]);
  }

  lemma StepKeepsPairExclusive(s: State, step: Step, v: WorkerId, w: WorkerId)
    requires Consistent(s) && Exclusive(s)
    requires Enabled(s, step)
    ensures var t := Apply(s, step);
            && v in t.jobs && w in t.jobs && v != w
            && t.jobs[v].image == t.jobs[w].image && t.jobs[v].image in t.images
            ==> !(Live(t, t.jobs[v]) && Live(t, t.jobs[w]))
  {
    if step.Claim? {
      ClaimKeepsPairExclusive(s, step, v, w);
    } else {
      hide OneReceiptPerImage, LinksAreMutual, JobsRemember, Answers, AfterCheck, AfterExtract, NoReceiptFor, Holds;
    }
  }

  lemma StepKeepsExclusive(s: State, step: Step)
    requires Consistent(s) && Exclusive(s)
    requires Enabled(s, step) && Timely(s, step)
    ensures Exclusive(Apply(s, step))
  {
    var t := Apply(s, step);
    hide Apply, Enabled, Holds, Live, Timely, Consistent;
    forall w | w in t.jobs ensures Holds(t, t.jobs[w]) {
      StepKeepsHold(s, step, w);
    }
    forall v, w | v in t.jobs && w in t.jobs && v != w
      ensures t.jobs[v].image == t.jobs[w].image && t.jobs[v].image in t.images ==>
              !(Live(t, t.jobs[v]) && Live(t, t.jobs[w]))
    {
      StepKeepsPairExclusive(s, step, v, w);
    }
  }

  lemma {:induction false} TimelyRunKeepsExclusive(s: State, steps: seq<Step>)
    requires Consistent(s) && Exclusive(s) && TimelyRun(s, steps)
    ensures Run(s, steps)
    ensures Consistent(After(s, steps)) && Exclusive(After(s, steps))
    decreases |steps|
  {
    hide Apply, Enabled, Consistent, Exclusive, Timely;
    if steps != [] {
      StepKeepsConsistent(s, steps[0]);
      StepKeepsExclusive(s, steps[0]);
      TimelyRunKeepsExclusive(Apply(s, steps[0]), steps[1..]);
    }
  }

  /** At most one live worker holds an image. */
  lemma ClaimsAreExclusive(steps: seq<Step>, v: WorkerId, w: WorkerId)
    requires TimelyRun(EMPTY, steps)
    ensures Run(EMPTY, steps)
    ensures var s := After(EMPTY, steps);
            && v in s.jobs && w in s.jobs && Live(s, s.jobs[v]) && Live(s, s.jobs[w])
            && s.jobs[v].image == s.jobs[w].image && s.jobs[v].image in s.images
            ==> v == w
  {
    TimelyRunKeepsExclusive(EMPTY, steps);
    hide Run, After, TimelyRun, Live;
  }

  // ----- receipts

  /** A timely scheduler worker changes no existing receipt, whatever it does. */
  lemma WorkerKeepsReceipts(s: State, step: Step)
    requires Consistent(s) && Exclusive(s) && Enabled(s, step) && Timely(s, step)
    requires Actor(step).Some? && s.jobs[Actor(step).value].kind == Scheduler
    ensures forall r :: r in s.receipts ==> r in Apply(s, step).receipts && Apply(s, step).receipts[r] == s.receipts[r]
  {
    if step.Update? || step.Insert? {
      NoReceiptOnceChecked(s, step.worker);
    }
  }

  lemma PersistNeverOverwrites(steps: seq<Step>, step: Step)
    requires TimelyRun(EMPTY, steps)
    requires Run(EMPTY, steps)
    requires var s := After(EMPTY, steps);
             Enabled(s, step) && Timely(s, step) && Actor(step).Some? && s.jobs[Actor(step).value].kind == Scheduler
    ensures var s := After(EMPTY, steps);
            && (step.Update? ==> step.found.None?)
            && forall r :: r in s.receipts ==>
                 r in Apply(s, step).receipts && Apply(s, step).receipts[r] == s.receipts[r]
  {
    TimelyRunKeepsExclusive(EMPTY, steps);
    var s := After(EMPTY, steps);
    hide Run, After, TimelyRun;
    WorkerKeepsReceipts(s, step);
    if step.Update? {
      NoReceiptOnceChecked(s, step.worker);
    }
  }

  /** In a system of timely workers of both kinds, a verified receipt loses its
      verification exactly when an in-request analysis without review bypass updates it. */
  lemma VerifiedIsLostOnlyToUploads(s: State, step: Step, r: ReceiptId)
    requires Consistent(s) && Exclusive(s) && Enabled(s, step) && Timely(s, step)
    requires r in s.receipts && s.receipts[r].verified && r in Apply(s, step).receipts
    ensures !Apply(s, step).receipts[r].verified <==>
            (step.Update? && step.found == Some(r)
             && s.jobs[step.worker].kind == Upload && !s.jobs[step.worker].bypass)
  {
    if step.Update? && s.jobs[step.worker].kind == Scheduler {
      NoReceiptOnceChecked(s, step.worker);
    }
  }

  predicate NoUploads(steps: seq<Step>)
  {
    forall n :: 0 <= n < |steps| && steps[n].Claim? ==> steps[n].kind == Scheduler
  }

  predicate AllSchedulers(s: State)
  {
    forall w :: w in s.jobs ==> s.jobs[w].kind == Scheduler
  }

  lemma StepKeepsSchedulers(s: State, step: Step)
    requires AllSchedulers(s) && Enabled(s, step) && (step.Claim? ==> step.kind == Scheduler)
    ensures AllSchedulers(Apply(s, step))
  {
  }

  /** Identifiers are not reused: a deleted receipt does not come back, and a receipt that
      was detached from its image stays detached. */
  lemma GoneStaysGone(s: State, step: Step, r: ReceiptId)
    requires Consistent(s) && Enabled(s, step) && r < s.nextReceipt
    ensures r < Apply(s, step).nextReceipt
    ensures r in Apply(s, step).receipts ==>
              r in s.receipts && (Apply(s, step).receipts[r].imageId.Some? ==>
                                    Apply(s, step).receipts[r].imageId == s.receipts[r].imageId)
  {
  }

  lemma {:induction false} RunGoneStaysGone(s: State, steps: seq<Step>, r: ReceiptId)
    requires Consistent(s) && Run(s, steps) && r < s.nextReceipt
    ensures r in After(s, steps).receipts ==>
              r in s.receipts && (After(s, steps).receipts[r].imageId.Some? ==>
                                    After(s, steps).receipts[r].imageId == s.receipts[r].imageId)
    decreases |steps|
  {
    hide Apply, Enabled, Consistent;
    if steps != [] {
      GoneStaysGone(s, steps[0], r);
      StepKeepsConsistent(s, steps[0]);
      RunGoneStaysGone(Apply(s, steps[0]), steps[1..], r);
    }
  }

  lemma VerifiedStep(s: State, step: Step, r: ReceiptId)
    requires Consistent(s) && Exclusive(s) && AllSchedulers(s) && Enabled(s, step) && Timely(s, step)
    requires r in s.receipts && s.receipts[r].verified
    ensures r in Apply(s, step).receipts ==> Apply(s, step).receipts[r].verified
  {
    if r in Apply(s, step).receipts {
      VerifiedIsLostOnlyToUploads(s, step, r);
    }
  }

  lemma {:induction false} VerifiedAlongRun(s: State, steps: seq<Step>, r: ReceiptId)
    requires Consistent(s) && Exclusive(s) && AllSchedulers(s)
    requires TimelyRun(s, steps) && NoUploads(steps) && Run(s, steps)
    requires r in s.receipts && s.receipts[r].verified && r < s.nextReceipt
    requires r in After(s, steps).receipts
    ensures After(s, steps).receipts[r].verified
    decreases |steps|
  {
    hide Apply, Enabled, Consistent, Exclusive, AllSchedulers, Timely;
    if steps != [] {
      var step, t := steps[0], Apply(s, steps[0]);
      StepKeepsConsistent(s, step);
      StepKeepsExclusive(s, step);
      StepKeepsSchedulers(s, step);
      GoneStaysGone(s, step, r);
      RunGoneStaysGone(t, steps[1..], r);
      VerifiedStep(s, step, r);
      VerifiedAlongRun(t, steps[1..], r);
    }
  }

  lemma {:induction false} RunKeepsSchedulers(s: State, steps: seq<Step>)
    requires AllSchedulers(s) && Run(s, steps) && NoUploads(steps)
    ensures AllSchedulers(After(s, steps))
    decreases |steps|
  {
    hide Apply, Enabled, AllSchedulers;
    if steps != [] {
      StepKeepsSchedulers(s, steps[0]);
      RunKeepsSchedulers(Apply(s, steps[0]), steps[1..]);
    }
  }

  /** In a scheduler-only system a verified receipt stays verified for as long as it exists. */
  lemma VerifiedStaysVerified(before: seq<Step>, after: seq<Step>, r: ReceiptId)
    requires TimelyRun(EMPTY, before) && NoUploads(before) && Run(EMPTY, before)
    requires TimelyRun(After(EMPTY, before), after) && NoUploads(after)
    requires r in After(EMPTY, before).receipts && After(EMPTY, before).receipts[r].verified
    ensures Run(After(EMPTY, before), after)
    ensures r in After(After(EMPTY, before), after).receipts ==> After(After(EMPTY, before), after).receipts[r].verified
  {
    var s := After(EMPTY, before);
    TimelyRunKeepsExclusive(EMPTY, before);
    RunKeepsSchedulers(EMPTY, before);
    TimelyRunsRun(s, after);
    hide Run, After, TimelyRun, Exclusive, AllSchedulers;
    if r in After(s, after).receipts {
      VerifiedAlongRun(s, after, r);
    }
  }

  // ----- recovery

  /** No step of the run extracts image `i`. */
  ghost predicate NoExtractionOf(s: State, steps: seq<Step>, i: ImageId)
    requires Run(s, steps)
    decreases |steps|
  {
    steps == [] ||
    ((steps[0].Extract? ==> s.jobs[steps[0].worker].image != i) && NoExtractionOf(Apply(s, steps[0]), steps[1..], i))
  }

  lemma ExtractMeansNoReceipt(s: State, step: Step)
    requires Consistent(s) && Exclusive(s) && AllSchedulers(s) && Enabled(s, step) && Timely(s, step)
    ensures step.Extract? ==> NoReceiptFor(s.receipts, s.jobs[step.worker].image)
  {
    if step.Extract? {
      NoReceiptOnceChecked(s, step.worker);
    }
  }

  /** Once an image has a receipt, however its worker ended, no worker extracts the image
      again while the receipt exists. */
  lemma {:induction false} RecoveryNeverExtracts(s: State, steps: seq<Step>, i: ImageId, r: ReceiptId)
    requires Consistent(s) && Exclusive(s) && AllSchedulers(s)
    requires TimelyRun(s, steps) && NoUploads(steps) && Run(s, steps)
    requires r in s.receipts && s.receipts[r].imageId == Some(i) && r < s.nextReceipt
    requires r in After(s, steps).receipts && After(s, steps).receipts[r].imageId == Some(i)
    ensures NoExtractionOf(s, steps, i)
    decreases |steps|
  {
    hide Apply, Enabled, Consistent, Exclusive, AllSchedulers, Timely;
    if steps != [] {
      var step, t := steps[0], Apply(s, steps[0]);
      ExtractMeansNoReceipt(s, step);
      StepKeepsConsistent(s, step);
      StepKeepsExclusive(s, step);
      StepKeepsSchedulers(s, step);
      GoneStaysGone(s, step, r);
      RunGoneStaysGone(t, steps[1..], r);
      RecoveryNeverExtracts(t, steps[1..], i, r);
    }
  }

  /** The next claim of an image whose worker crashed between persist and mark finds the
      receipt, links it and changes no receipt. */
  lemma RecoveryLinks(s: State, w: WorkerId, i: ImageId, r: ReceiptId, fileExists: bool)
    requires Consistent(s)
    requires w !in s.jobs && i in s.images && Claimable(s.images[i], s.now)
    requires r in s.receipts && s.receipts[r].imageId == Some(i)
    ensures var steps := [Claim(w, i, Scheduler), Check(w, Some(r), fileExists), MarkAnalyzed(w)];
            && TimelyRun(s, steps) && Run(s, steps)
            && After(s, steps).receipts == s.receipts
            && After(s, steps).images
               == s.images[i := s.images[i].(status := Analyzed, receiptId := Some(r), processingAt := None)]
  {
    var a, b, c := Claim(w, i, Scheduler), Check(w, Some(r), fileExists), MarkAnalyzed(w);
    var t := Apply(s, a);
    var u := Apply(t, b);
    var v := Apply(u, c);
    assert [a, b, c][1..] == [b, c] && [b, c][1..] == [c] && [c][1..] == [];
    assert TimelyRun(u, [c]) && Run(u, [c]) && After(u, [c]) == v by {
      assert TimelyRun(v, []) && Run(v, []) && After(v, []) == v;
    }
    assert TimelyRun(t, [b, c]) && Run(t, [b, c]) && After(t, [b, c]) == v;
  }

  // ----- longer runs

  lemma {:induction false} Extend(s: State, steps: seq<Step>, step: Step)
    requires TimelyRun(s, steps) && Run(s, steps)
    requires Enabled(After(s, steps), step) && Timely(After(s, steps), step)
    ensures TimelyRun(s, steps + [step]) && Run(s, steps + [step])
    ensures After(s, steps + [step]) == Apply(After(s, steps), step)
    decreases |steps|
  {
    hide Apply, Enabled, Timely;
    if steps == [] {
      var t := Apply(s, step);
      assert [] + [step] == [step] && [step][1..] == [];
      assert TimelyRun(t, []) && Run(t, []) && After(t, []) == t;
    } else {
      Extend(Apply(s, steps[0]), steps[1..], step);
      assert (steps + [step])[0] == steps[0] && (steps + [step])[1..] == steps[1..] + [step];
    }
  }
}
