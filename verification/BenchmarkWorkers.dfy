/**
  Runs of the benchmark queue under the two disciplines, and what they guarantee: tasks
  are held by one worker, averages stay in range, and retries wait out their backoff.
 */
module BenchmarkWorkers {
  import opened Prelude
  import opened BenchmarkQueue
  import opened BenchmarkLedger

  /** One worker at a time, whatever expires; or many workers that act before their lease ends. */
  datatype Discipline = OneWorker | ActsInTime

  predicate Live(s: State, lease: Lease)
  {
    s.now <= lease.until
  }

  predicate Obeys(d: Discipline, s: State, step: Step)
  {
    match d
    case OneWorker => step.LeaseTask? ==> s.workers == map[]
    case ActsInTime => Acts(step) && step.worker in s.workers ==> Live(s, s.workers[step.worker])
  }

  ghost predicate Disciplined(d: Discipline, s: State, steps: seq<Step>)
    decreases |steps|
  {
    steps == [] ||
    (Enabled(s, steps[0]) && Obeys(d, s, steps[0]) && Disciplined(d, Apply(s, steps[0]), steps[1..]))
  }

  lemma {:induction false} DisciplinedRuns(d: Discipline, s: State, steps: seq<Step>)
    requires Disciplined(d, s, steps)
    ensures Run(s, steps)
    decreases |steps|
  {
    hide Apply, Enabled, Obeys;
    if steps != [] {
      DisciplinedRuns(d, Apply(s, steps[0]), steps[1..]);
    }
  }

  // ----- ownership

  ghost predicate OwnersAct(d: Discipline, s: State)
  {
    match d
    case OneWorker =>
      && (forall w :: w in s.workers ==> Owns(s, s.workers[w]))
      && (forall v, w :: v in s.workers && w in s.workers ==> v == w)
    case ActsInTime =>
      && (forall w :: w in s.workers && Live(s, s.workers[w]) ==> Owns(s, s.workers[w]))
      && (forall v, w | v in s.workers && w in s.workers && v != w ::
            s.workers[v].key == s.workers[w].key ==> !(Live(s, s.workers[v]) && Live(s, s.workers[w])))
  }

  lemma ActorsOwn(d: Discipline, s: State, step: Step)
    requires OwnersAct(d, s) && Obeys(d, s, step)
    ensures ActorOwns(s, step)
  {
  }

  lemma LiveWorkerStillOwns(s: State, step: Step, w: WorkerId)
    requires TaskRows(s) && OwnersAct(ActsInTime, s) && Enabled(s, step) && Obeys(ActsInTime, s, step)
    requires w in Apply(s, step).workers && Live(Apply(s, step), Apply(s, step).workers[w])
    ensures Owns(Apply(s, step), Apply(s, step).workers[w])
  {
    hide Distinct, RecordedIn, CompletedIf;
    assert w in s.workers ==> Live(s, s.workers[w]);
  }

  lemma LiveWorkersStillDiffer(s: State, step: Step, v: WorkerId, w: WorkerId)
    requires TaskRows(s) && OwnersAct(ActsInTime, s) && Enabled(s, step)
    ensures var t := Apply(s, step);
            v in t.workers && w in t.workers && v != w && t.workers[v].key == t.workers[w].key ==>
            !(Live(t, t.workers[v]) && Live(t, t.workers[w]))
  {
    hide Distinct, RecordedIn, CompletedIf;
  }

  lemma StepKeepsOwnersInTime(s: State, step: Step)
    requires TaskRows(s) && OwnersAct(ActsInTime, s) && Enabled(s, step) && Obeys(ActsInTime, s, step)
    ensures OwnersAct(ActsInTime, Apply(s, step))
  {
    var t := Apply(s, step);
    hide Apply, Enabled, Obeys, Live, Owns, TaskRows;
    forall w | w in t.workers && Live(t, t.workers[w]) ensures Owns(t, t.workers[w]) {
      LiveWorkerStillOwns(s, step, w);
    }
    forall v, w | v in t.workers && w in t.workers && v != w
      ensures t.workers[v].key == t.workers[w].key ==> !(Live(t, t.workers[v]) && Live(t, t.workers[w]))
    {
      LiveWorkersStillDiffer(s, step, v, w);
    }
  }

  lemma StepKeepsOneOwner(s: State, step: Step)
    requires TaskRows(s) && OwnersAct(OneWorker, s) && Enabled(s, step) && Obeys(OneWorker, s, step)
    ensures OwnersAct(OneWorker, Apply(s, step))
  {
    hide Distinct, RecordedIn, CompletedIf;
  }

  // ----- backoff

  /** `sum(min(5 * 2 ** (i - 1), 300) for i in 1..k)` */
  function TotalDelay(k: nat): nat
  {
    if k == 0 then 0 else TotalDelay(k - 1) + Delay(k - 1)
  }

  lemma PowersOfTwo()
    ensures Pow2(0) == 1 && Pow2(1) == 2 && Pow2(2) == 4 && Pow2(3) == 8 && Pow2(4) == 16 && Pow2(5) == 32
    ensures Pow2(6) == 64
  {
    assert Pow2(2) == 4;
    assert Pow2(4) == 16;
  }

  lemma {:induction false} Pow2Grows(m: nat, n: nat)
    requires m <= n
    ensures 1 <= Pow2(m) <= Pow2(n)
  {
    if m < n {
      Pow2Grows(m, n - 1);
    } else if m > 0 {
      Pow2Grows(m - 1, n - 1);
    }
  }

  lemma DelayGrows(m: nat, n: nat)
    requires m <= n
    ensures Delay(m) <= Delay(n)
  {
    Pow2Grows(m, n);
  }

  /** The backoff doubles from 5 seconds six times and then stays at 300. */
  lemma {:induction false} TotalDelayClosedForm(k: nat)
    ensures TotalDelay(k) == if k <= 6 then 5 * (Pow2(k) - 1) else 315 + 300 * (k - 6)
  {
    PowersOfTwo();
    if k > 0 {
      TotalDelayClosedForm(k - 1);
      if k <= 6 {
        Pow2Grows(k - 1, 5);
      } else {
        Pow2Grows(6, k - 1);
      }
    }
  }

  /** The delays a task has been through: it is not leased before they have passed. */
  ghost predicate Waited(task: Task, now: int)
  {
    var due := task.createdAt + TotalDelay(task.retries);
    && task.attempts >= task.retries
    && (task.status == Running ==> now >= due && task.attempts >= task.retries + 1)
    && (task.status == Queued ==> task.retries == 0 && task.createdAt <= now)
    && (task.status == Retrying ==> task.retryAt.Some? && task.retryAt.value >= due)
  }

  ghost predicate AllWaited(s: State)
  {
    forall k :: k in s.tasks ==> Waited(s.tasks[k], s.now)
  }

  lemma LeaseWaits(task: Task, now: int)
    requires Waited(task, now) && Eligible(task, now)
    ensures Waited(Leased(task, now), now)
  {
  }

  lemma PutBackWaits(task: Task, attempts: nat, now: int, waiting: bool)
    requires Waited(task, now) && task.status == Running && task.attempts == attempts + 1
    ensures Waited(PutBack(task, attempts, now, waiting), now)
  {
    DelayGrows(task.retries, attempts);
  }

  lemma StepKeepsWaits(s: State, step: Step)
    requires AllWaited(s) && Enabled(s, step) && ActorOwns(s, step)
    ensures AllWaited(Apply(s, step))
  {
    hide TotalDelay, PutBack, Leased, Delay, Distinct;
    var t := Apply(s, step);
    if step.LeaseTask? {
      LeaseWaits(s.tasks[step.key], s.now);
    } else if step.Retry? {
      var lease := s.workers[step.worker];
      PutBackWaits(s.tasks[lease.key], lease.attempts, s.now, step.waiting);
    } else if step.InsertTasks? {
      NewTasksWait(s.now);
    }
  }

  lemma NewTasksWait(now: int)
    ensures Waited(Task(Queued, 0, None, None, now, 0), now)
  {
  }

  // ----- runs

  ghost predicate Healthy(d: Discipline, s: State)
  {
    Ledger(s) && OwnersAct(d, s) && AllWaited(s)
  }

  lemma StepKeepsHealthy(d: Discipline, s: State, step: Step)
    requires Healthy(d, s) && Enabled(s, step) && Obeys(d, s, step)
    ensures Healthy(d, Apply(s, step))
  {
    assert TaskRows(s);
    hide Apply, Enabled, Obeys, OwnersAct, AllWaited, TaskRows, SummaryRows, Balances, SaneSummaries, CompletionIsExact;
    ActorsOwn(d, s, step);
    StepKeepsLedger(s, step);
    StepKeepsWaits(s, step);
    match d {
      case OneWorker => StepKeepsOneOwner(s, step);
      case ActsInTime => StepKeepsOwnersInTime(s, step);
    }
  }

  lemma {:induction false} RunKeepsHealthy(d: Discipline, s: State, steps: seq<Step>)
    requires Healthy(d, s) && Disciplined(d, s, steps)
    ensures Run(s, steps) && Healthy(d, After(s, steps))
    decreases |steps|
  {
    hide Apply, Enabled, Obeys, Healthy;
    if steps != [] {
      StepKeepsHealthy(d, s, steps[0]);
      RunKeepsHealthy(d, Apply(s, steps[0]), steps[1..]);
    }
  }

  lemma EmptyIsHealthy(d: Discipline)
    ensures Healthy(d, EMPTY)
  {
  }

  /** No two workers within their lease hold the same task. */
  lemma TasksHaveOneHolder(steps: seq<Step>, v: WorkerId, w: WorkerId)
    requires Disciplined(ActsInTime, EMPTY, steps)
    ensures Run(EMPTY, steps)
    ensures var s := After(EMPTY, steps);
            && v in s.workers && w in s.workers && s.workers[v].key == s.workers[w].key
            && Live(s, s.workers[v]) && Live(s, s.workers[w])
            ==> v == w
  {
    EmptyIsHealthy(ActsInTime);
    RunKeepsHealthy(ActsInTime, EMPTY, steps);
    hide Run, After, Disciplined, Ledger, AllWaited, Live, Owns;
  }

  /** The averages a summary reports are in range. */
  lemma AveragesAreInRange(d: Discipline, steps: seq<Step>, run: RunId, model: ModelId)
    requires Disciplined(d, EMPTY, steps)
    ensures Run(EMPTY, steps)
    ensures var s := After(EMPTY, steps);
            (run, model) in s.summaries ==>
              var x := s.summaries[(run, model)];
              && (x.succeeded > 0 ==> 0.0 <= x.totalScore / x.succeeded as real <= 1.0
                                      && 0.0 <= x.totalConfidence / x.succeeded as real <= 100.0)
              && (x.completed > 0 ==> x.totalAttempts as real / x.completed as real >= 1.0)
  {
    EmptyIsHealthy(d);
    RunKeepsHealthy(d, EMPTY, steps);
    var s := After(EMPTY, steps);
    hide Run, After, Disciplined, OwnersAct, AllWaited;
    if (run, model) in s.summaries {
      var x := s.summaries[(run, model)];
      assert SaneSummary(x);
      if x.succeeded > 0 {
        QuotientInRange(x.totalScore, x.succeeded as real, 1.0);
        QuotientInRange(x.totalConfidence, x.succeeded as real, 100.0);
      }
      if x.completed > 0 {
        QuotientAtLeast(x.totalAttempts as real, x.completed as real);
      }
    }
  }

  lemma NonNegativeFactor(a: real, n: real)
    requires n > 0.0 && a * n >= 0.0
    ensures a >= 0.0
  {
  }

  lemma QuotientInRange(x: real, n: real, bound: real)
    requires n > 0.0 && 0.0 <= x <= bound * n
    ensures 0.0 <= x / n <= bound
  {
    var q := x / n;
    assert q * n == x;
    assert (bound - q) * n == bound * n - q * n;
    NonNegativeFactor(q, n);
    NonNegativeFactor(bound - q, n);
  }

  lemma QuotientAtLeast(x: real, n: real)
    requires n > 0.0 && x >= n
    ensures x / n >= 1.0
  {
    var q := x / n;
    assert q * n == x;
  }

  /** A running task has waited out every delay of its retries since it was created. */
  lemma RetriesBackOff(d: Discipline, steps: seq<Step>, key: TaskKey)
    requires Disciplined(d, EMPTY, steps)
    ensures Run(EMPTY, steps)
    ensures var s := After(EMPTY, steps);
            key in s.tasks && s.tasks[key].status == Running ==>
              var k := s.tasks[key].retries;
              s.now - s.tasks[key].createdAt >= if k <= 6 then 5 * (Pow2(k) - 1) else 315 + 300 * (k - 6)
  {
    EmptyIsHealthy(d);
    RunKeepsHealthy(d, EMPTY, steps);
    var s := After(EMPTY, steps);
    hide Run, After, Disciplined, OwnersAct, Ledger;
    if key in s.tasks && s.tasks[key].status == Running {
      assert Waited(s.tasks[key], s.now);
      TotalDelayClosedForm(s.tasks[key].retries);
    }
  }
}
