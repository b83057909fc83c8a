/**
  The two ways in which a verified receipt is lost, as runs from an empty database: an
  in-request analysis, which does not look for an existing receipt, and a scheduler worker
  that acts after its claim has expired.
 */
module ImageRaces {
  import opened Prelude
  import opened ImageAnalysis
  import opened ImageClaims

  // ----- the in-request analysis

  /** A request stores image 0; a scheduler worker claims it first, persists receipt 0 but
      fails to mark the image; the user verifies the receipt; the request then claims the
      failed image and extracts it again. */
  const UPLOAD_RACE: seq<Step> := [
    Store(0, false), Claim(1, 0, Scheduler), Check(1, None, true), Extract(1, Content(7)), Update(1, None),
    Insert(1, 0), MarkError(1), MarkFailed(1), Verify(0),
    Claim(2, 0, Upload), Extract(2, Content(8)), Update(2, Some(0))]

  /** The state after the first `n` steps of that run. */
  function RaceState(n: nat): State
  {
    var image := Image(Pending, None, None, false);
    var claimed := image.(status := Processing, processingAt := Some(0));
    var failed := image.(status := Failed);
    var job := Job(Scheduler, 0, 0, false, Claimed(None));
    var row := Receipt(Some(0), false, 7);
    var verified := row.(verified := true);
    var upload := Job(Upload, 0, 0, false, Extracting);
    match n
    case 0 => EMPTY
    case 1 => State(0, map[0 := image], map[], map[], 1, 0)
    case 2 => State(0, map[0 := claimed], map[], map[1 := job], 1, 0)
    case 3 => State(0, map[0 := claimed], map[], map[1 := job.(phase := Extracting)], 1, 0)
    case 4 => State(0, map[0 := claimed], map[], map[1 := job.(phase := Extracted(7))], 1, 0)
    case 5 => State(0, map[0 := claimed], map[], map[1 := job.(phase := Inserting(7))], 1, 0)
    case 6 => State(0, map[0 := claimed], map[0 := row], map[1 := job.(phase := Persisted(0))], 1, 1)
    case 7 => State(0, map[0 := claimed], map[0 := row], map[1 := job.(phase := Failing)], 1, 1)
    case 8 => State(0, map[0 := failed], map[0 := row], map[], 1, 1)
    case 9 => State(0, map[0 := failed], map[0 := verified], map[], 1, 1)
    case 10 => State(0, map[0 := claimed], map[0 := verified], map[2 := upload], 1, 1)
    case _ => State(0, map[0 := claimed], map[0 := verified], map[2 := upload.(phase := Extracted(8))], 1, 1)
  }

  lemma RaceStart()
    ensures RaceState(0) == EMPTY
  {
  }

  lemma RaceStepEarly(n: nat)
    requires n < 6
    ensures Enabled(RaceState(n), UPLOAD_RACE[n]) && Timely(RaceState(n), UPLOAD_RACE[n])
    ensures Apply(RaceState(n), UPLOAD_RACE[n]) == RaceState(n + 1)
  {
    var s, t := Apply(RaceState(n), UPLOAD_RACE[n]), RaceState(n + 1);
    assert s.images == t.images && s.receipts == t.receipts && s.jobs == t.jobs;
  }

  lemma RaceStepLate(n: nat)
    requires 6 <= n < 11
    ensures Enabled(RaceState(n), UPLOAD_RACE[n]) && Timely(RaceState(n), UPLOAD_RACE[n])
    ensures Apply(RaceState(n), UPLOAD_RACE[n]) == RaceState(n + 1)
  {
    var s, t := Apply(RaceState(n), UPLOAD_RACE[n]), RaceState(n + 1);
    assert s.images == t.images && s.receipts == t.receipts && s.jobs == t.jobs;
  }

  lemma {:induction false} RaceRun(n: nat)
    requires n <= 11
    ensures TimelyRun(EMPTY, UPLOAD_RACE[..n]) && Run(EMPTY, UPLOAD_RACE[..n])
    ensures After(EMPTY, UPLOAD_RACE[..n]) == RaceState(n)
  {
    hide Apply, Enabled, Timely, RaceState;
    if n == 0 {
      assert RaceState(0) == EMPTY by { RaceStart(); }
      assert UPLOAD_RACE[..0] == [];
    } else {
      RaceRun(n - 1);
      if n <= 6 {
        RaceStepEarly(n - 1);
      } else {
        RaceStepLate(n - 1);
      }
      Extend(EMPTY, UPLOAD_RACE[..n - 1], UPLOAD_RACE[n - 1]);
      assert UPLOAD_RACE[..n] == UPLOAD_RACE[..n - 1] + [UPLOAD_RACE[n - 1]];
    }
  }

  /** The run is timely, and its last step takes the verification away. */
  lemma UploadsLoseVerification()
    ensures TimelyRun(EMPTY, UPLOAD_RACE[..11]) && Run(EMPTY, UPLOAD_RACE[..11])
    ensures var s := After(EMPTY, UPLOAD_RACE[..11]);
            && Enabled(s, UPLOAD_RACE[11]) && Timely(s, UPLOAD_RACE[11])
            && 0 in s.receipts && s.receipts[0].verified
            && 0 in Apply(s, UPLOAD_RACE[11]).receipts && !Apply(s, UPLOAD_RACE[11]).receipts[0].verified
  {
    hide Run, TimelyRun, After;
    RaceRun(11);
  }

  // ----- the late worker

  /** Worker 1 claims image 0 and extracts it, but comes back after its claim has expired;
      worker 2 has claimed the image, extracted it again and persisted receipt 0, and the
      user has verified it. */
  const LATE_RACE: seq<Step> := [
    Store(0, false), Claim(1, 0, Scheduler), Check(1, None, true), Extract(1, Content(7)), Tick(LEASE + 1),
    Claim(2, 0, Scheduler), Check(2, None, true), Extract(2, Content(8)), Update(2, None), Insert(2, 0),
    MarkAnalyzed(2), Verify(0), Update(1, Some(0))]

  /** The state after the first `n` steps of that run. */
  function LateState(n: nat): State
  {
    var image := Image(Pending, None, None, false);
    var claimed := image.(status := Processing, processingAt := Some(0));
    var again := image.(status := Processing, processingAt := Some(LEASE + 1));
    var linked := image.(status := Analyzed, receiptId := Some(0));
    var job := Job(Scheduler, 0, 0, false, Claimed(None));
    var late := job.(phase := Extracted(7));
    var other := Job(Scheduler, 0, LEASE + 1, false, Claimed(None));
    var row := Receipt(Some(0), false, 8);
    match n
    case 0 => EMPTY
    case 1 => State(0, map[0 := image], map[], map[], 1, 0)
    case 2 => State(0, map[0 := claimed], map[], map[1 := job], 1, 0)
    case 3 => State(0, map[0 := claimed], map[], map[1 := job.(phase := Extracting)], 1, 0)
    case 4 => State(0, map[0 := claimed], map[], map[1 := late], 1, 0)
    case 5 => State(LEASE + 1, map[0 := claimed], map[], map[1 := late], 1, 0)
    case 6 => State(LEASE + 1, map[0 := again], map[], map[1 := late, 2 := other], 1, 0)
    case 7 => State(LEASE + 1, map[0 := again], map[], map[1 := late, 2 := other.(phase := Extracting)], 1, 0)
    case 8 => State(LEASE + 1, map[0 := again], map[], map[1 := late, 2 := other.(phase := Extracted(8))], 1, 0)
    case 9 => State(LEASE + 1, map[0 := again], map[], map[1 := late, 2 := other.(phase := Inserting(8))], 1, 0)
    case 10 => State(LEASE + 1, map[0 := again], map[0 := row], map[1 := late, 2 := other.(phase := Persisted(0))], 1, 1)
    case 11 => State(LEASE + 1, map[0 := linked], map[0 := row], map[1 := late], 1, 1)
    case _ => State(LEASE + 1, map[0 := linked], map[0 := row.(verified := true)], map[1 := late], 1, 1)
  }

  lemma LateStart()
    ensures LateState(0) == EMPTY
  {
  }

  lemma LateStepFirst(n: nat)
    requires n < 5
    ensures Enabled(LateState(n), LATE_RACE[n]) && Timely(LateState(n), LATE_RACE[n])
    ensures Apply(LateState(n), LATE_RACE[n]) == LateState(n + 1)
  {
    var s, t := Apply(LateState(n), LATE_RACE[n]), LateState(n + 1);
    assert s.images == t.images && s.receipts == t.receipts && s.jobs == t.jobs;
  }

  lemma LateStepSecond(n: nat)
    requires 5 <= n < 9
    ensures Enabled(LateState(n), LATE_RACE[n]) && Timely(LateState(n), LATE_RACE[n])
    ensures Apply(LateState(n), LATE_RACE[n]) == LateState(n + 1)
  {
    var s, t := Apply(LateState(n), LATE_RACE[n]), LateState(n + 1);
    assert s.images == t.images && s.receipts == t.receipts && s.jobs == t.jobs;
  }

  lemma LateStepThird(n: nat)
    requires 9 <= n < 12
    ensures Enabled(LateState(n), LATE_RACE[n]) && Timely(LateState(n), LATE_RACE[n])
    ensures Apply(LateState(n), LATE_RACE[n]) == LateState(n + 1)
  {
    var s, t := Apply(LateState(n), LATE_RACE[n]), LateState(n + 1);
    assert s.images == t.images && s.receipts == t.receipts && s.jobs == t.jobs;
  }

  lemma {:induction false} LateRun(n: nat)
    requires n <= 12
    ensures TimelyRun(EMPTY, LATE_RACE[..n]) && Run(EMPTY, LATE_RACE[..n])
    ensures After(EMPTY, LATE_RACE[..n]) == LateState(n)
  {
    hide Apply, Enabled, Timely, LateState;
    if n == 0 {
      assert LateState(0) == EMPTY by { LateStart(); }
      assert LATE_RACE[..0] == [];
    } else {
      LateRun(n - 1);
      if n <= 5 {
        LateStepFirst(n - 1);
      } else if n <= 9 {
        LateStepSecond(n - 1);
      } else {
        LateStepThird(n - 1);
      }
      Extend(EMPTY, LATE_RACE[..n - 1], LATE_RACE[n - 1]);
      assert LATE_RACE[..n] == LATE_RACE[..n - 1] + [LATE_RACE[n - 1]];
    }
  }

  /** The run has schedulers only, and its last step, the one that is not timely, takes the
      verification away. */
  lemma LateWorkersLoseVerification()
    ensures NoUploads(LATE_RACE) && Run(EMPTY, LATE_RACE[..12])
    ensures var s := After(EMPTY, LATE_RACE[..12]);
            && Enabled(s, LATE_RACE[12]) && !Timely(s, LATE_RACE[12])
            && 0 in s.receipts && s.receipts[0].verified
            && 0 in Apply(s, LATE_RACE[12]).receipts && !Apply(s, LATE_RACE[12]).receipts[0].verified
  {
    hide Run, TimelyRun, After;
    LateRun(12);
  }
}
