/**
  The queue as code: `BenchmarkDB`'s statements over its three tables and the worker's
  `_execute`. Each is proved to be the corresponding step of the protocol, so the
  theorems about its runs apply to any sequence of these calls.
 */
module BenchmarkService {
  import opened Prelude
  import opened ReceiptModel
  import opened BenchmarkQueue
  import opened BenchmarkWorkers
  import opened BenchmarkCounts
  import BenchmarkLedger

  /** `ORDER BY run_id, receipt_id` */
  predicate NotAfter(a: TaskKey, b: TaskKey)
  {
    a.run < b.run || (a.run == b.run && a.receipt <= b.receipt)
  }

  predicate IdsBelow(runs: map<RunId, RunRow>, n: nat)
  {
    forall r :: r in runs ==> r < n
  }

  /** Equal but for the history of unrecorded finishes. */
  predicate SameTables(a: State, b: State)
  {
    a == b.(unrecorded := a.unrecorded)
  }

  lemma MoreTasks(tasks: map<TaskKey, Task>, a: set<TaskKey>, b: set<TaskKey>, now: int)
    ensures tasks + NewTasks(a, now) + NewTasks(b, now) == tasks + NewTasks(a + b, now)
  {
  }

  lemma NoTasks(tasks: map<TaskKey, Task>, run: RunId, model: ModelId, now: int)
    ensures tasks + NewTasks(KeysOfRun(run, [model], []), now) == tasks
  {
    assert KeysOfRun(run, [model], []) == {};
  }

  lemma OneMoreTask(tasks: map<TaskKey, Task>, keys: set<TaskKey>, key: TaskKey, now: int)
    ensures (tasks + NewTasks(keys, now))[key := Task(Queued, 0, None, None, now, 0)]
         == tasks + NewTasks(keys + {key}, now)
  {
  }

  lemma OneMoreKey(run: RunId, model: ModelId, receipts: seq<ReceiptId>, receipt: ReceiptId)
    ensures KeysOfRun(run, [model], receipts + [receipt]) == KeysOfRun(run, [model], receipts) + {TaskKey(run, model, receipt)}
  {
  }

  class BenchmarkDB {
    var now: int
    var nextRun: RunId
    var runs: map<RunId, RunRow>
    var tasks: map<TaskKey, Task>
    var summaries: map<(RunId, ModelId), Summary>

    constructor ()
      ensures Tables() == EMPTY
      ensures IdsBelow(runs, nextRun)
    {
      now, nextRun, runs, tasks, summaries := 0, 0, map[], map[], map[];
    }

    /** The tables; workers and history are not the database's to keep. */
    function Tables(): State
      reads this
    {
      State(now, runs, tasks, summaries, map[], map[])
    }

    /** `create_run`: three statements. A repeated model or receipt makes the second one fail
        after the run row is already stored. */
    method CreateRun(models: seq<ModelId>, receipts: seq<ReceiptId>) returns (run: RunId, ok: bool)
      requires models != [] && receipts != []
      requires IdsBelow(runs, nextRun)
      modifies this
      ensures run == old(nextRun) && IdsBelow(runs, nextRun)
      ensures ok <==> Distinct(models) && Distinct(receipts)
      ensures Run(old(Tables()), CreateSteps(run, models, receipts))
      ensures Tables() == After(old(Tables()), CreateSteps(run, models, receipts))
    {
      hide Run, After, CreateSteps, Apply, Enabled, NewTasks, NewSummaries, KeysOfRun, SummaryKeys;
      run := nextRun;
      nextRun := run + 1;
      runs := runs[run := RunRow(models, receipts, false, NeedsTasks)];
      ok := Distinct(models) && Distinct(receipts);
      if ok {
        InsertTaskRows(run, models, receipts);
        runs := runs[run := runs[run].(phase := NeedsSummaries)];
        InsertSummaryRows(run, models);
        runs := runs[run := runs[run].(phase := Created)];
      }
      CreateIsARun(old(Tables()), run, models, receipts);
    }

    method InsertTaskRows(run: RunId, models: seq<ModelId>, receipts: seq<ReceiptId>)
      modifies this`tasks
      ensures tasks == old(tasks) + NewTasks(KeysOfRun(run, models, receipts), now)
    {
      for i := 0 to |models|
        invariant tasks == old(tasks) + NewTasks(KeysOfRun(run, models[..i], receipts), now)
      {
        InsertTaskRowsFor(run, models[i], receipts);
        MoreTasks(old(tasks), KeysOfRun(run, models[..i], receipts), KeysOfRun(run, [models[i]], receipts), now);
        assert models[..i + 1] == models[..i] + [models[i]];
        assert KeysOfRun(run, models[..i + 1], receipts)
            == KeysOfRun(run, models[..i], receipts) + KeysOfRun(run, [models[i]], receipts);
      }
      assert models[..|models|] == models;
    }

    method InsertTaskRowsFor(run: RunId, model: ModelId, receipts: seq<ReceiptId>)
      modifies this`tasks
      ensures tasks == old(tasks) + NewTasks(KeysOfRun(run, [model], receipts), now)
    {
      hide NewTasks, KeysOfRun;
      assert receipts[..0] == [];
      NoTasks(old(tasks), run, model, now);
      for j := 0 to |receipts|
        invariant tasks == old(tasks) + NewTasks(KeysOfRun(run, [model], receipts[..j]), now)
      {
        var key := TaskKey(run, model, receipts[j]);
        OneMoreTask(old(tasks), KeysOfRun(run, [model], receipts[..j]), key, now);
        OneMoreKey(run, model, receipts[..j], receipts[j]);
        tasks := tasks[key := Task(Queued, 0, None, None, now, 0)];
        assert receipts[..j + 1] == receipts[..j] + [receipts[j]];
      }
      assert receipts[..|receipts|] == receipts;
    }

    method InsertSummaryRows(run: RunId, models: seq<ModelId>)
      modifies this`summaries
      ensures summaries == old(summaries) + NewSummaries(SummaryKeys(run, models))
    {
      for i := 0 to |models|
        invariant summaries == old(summaries) + NewSummaries(SummaryKeys(run, models[..i]))
      {
        summaries := summaries[(run, models[i]) := Summary(0, 0, 0, 0.0, 0.0, 0)];
        assert models[..i + 1] == models[..i] + [models[i]];
        assert SummaryKeys(run, models[..i + 1]) == SummaryKeys(run, models[..i]) + {(run, models[i])};
      }
      assert models[..|models|] == models;
    }

    /** The first task that may be leased, and its lease. */
    method LeaseTask() returns (lease: Option<Lease>)
      modifies this`tasks
      ensures lease.None? ==> tasks == old(tasks) && forall k :: k in tasks ==> !Eligible(tasks[k], now)
      ensures lease.Some? ==>
        var key := lease.value.key;
        && key in old(tasks) && Eligible(old(tasks)[key], now)
        && (forall k :: k in old(tasks) && Eligible(old(tasks)[k], now) ==> NotAfter(key, k))
        && forall w :: Tables().(workers := map[w := lease.value])
                       == Apply(old(Tables()), BenchmarkQueue.LeaseTask(w, key))
    {
      var todo := tasks.Keys;
      var first: Option<TaskKey> := None;
      while todo != {}
        invariant todo <= tasks.Keys
        invariant first.Some? ==> first.value in tasks && Eligible(tasks[first.value], now)
        invariant forall k :: k in tasks && k !in todo && Eligible(tasks[k], now) ==>
                    first.Some? && NotAfter(first.value, k)
        decreases todo
      {
        var k :| k in todo;
        todo := todo - {k};
        if Eligible(tasks[k], now) && (first.None? || !NotAfter(first.value, k)) {
          first := Some(k);
        }
      }
      if first.None? {
        return None;
      }
      var key := first.value;
      lease := Some(Lease(key, tasks[key].attempts, now + LEASE));
      tasks := tasks[key := Leased(tasks[key], now)];
    }

    method RetryTask(lease: Lease, waiting: bool)
      modifies this`tasks
      ensures forall w :: Tables() == Apply(old(Tables()).(workers := map[w := lease]), Retry(w, waiting))
    {
      if lease.key in tasks {
        tasks := tasks[lease.key := PutBack(tasks[lease.key], lease.attempts, now, waiting)];
      }
      forall w: WorkerId ensures map[w := lease] - {w} == map[] {
      }
    }

    /** One transaction: delete the task, count it, and complete the run if it was the last. */
    method FinishTask(lease: Lease, outcome: Outcome)
      requires outcome.Success? ==> 0 <= outcome.actual.confidence <= 100 && outcome.attempts >= 1
      modifies this`tasks, this`summaries, this`runs
      ensures forall w ::
        SameTables(Tables(), Apply(old(Tables()).(workers := map[w := lease]), Finish(w, outcome)))
    {
      hide Recorded, TasksOf;
      tasks := tasks - {lease.key};
      var p := (lease.key.run, lease.key.model);
      if p in summaries {
        summaries := summaries[p := Recorded(summaries[p], outcome)];
      }
      if lease.key.run in runs && TasksOf(tasks, lease.key.run) == {} {
        runs := runs[lease.key.run := runs[lease.key.run].(completed := true)];
      }
      forall w: WorkerId ensures map[w := lease] - {w} == map[] {
      }
    }

    /** The first statement of `task_counts`: one pass over the tasks, grouped by status. */
    method CountByStatus(run: RunId) returns (counts: Counts)
      ensures counts.Total() == |TasksOf(tasks, run)|
      ensures forall status :: counts.Of(status) == |WithStatus(tasks, run, status)|
    {
      hide CountedIn, WithStatus, TasksOf;
      counts := Counts(0, 0, 0, 0);
      var todo, done: set<TaskKey> := tasks.Keys, {};
      forall status {
        AllCounted(tasks, run, status);
      }
      while todo != {}
        invariant todo + done == tasks.Keys && todo !! done
        invariant forall status :: counts.Of(status) == |CountedIn(tasks, run, done, status)|
        decreases todo
      {
        var k :| k in todo;
        CountedStep(tasks, run, done, k);
        ghost var was := done;
        if k.run == run {
          counts := counts.Count(tasks[k].status);
        }
        todo, done := todo - {k}, done + {k};
        forall status ensures counts.Of(status) == |CountedIn(tasks, run, done, status)| {
          assert CountsOneMore(tasks, run, was, k, status);
        }
      }
      assert done == tasks.Keys;
      StatusesPartition(tasks, run);
    }

    /** The second statement: `sum(completed)` over the run's summary rows. */
    method SumCompleted(run: RunId) returns (terminal: nat)
      ensures terminal == Terminal(Tables(), run)
    {
      hide CompletedIn;
      var rows := set p | p in summaries && p.0 == run;
      assert rows == SummaryRowsOf(summaries, run);
      terminal := 0;
      while rows != {}
        invariant rows <= summaries.Keys
        invariant terminal + CompletedIn(summaries, rows) == Terminal(Tables(), run)
        decreases rows
      {
        var p :| p in rows;
        CompletedInAnyOrder(summaries, rows, p);
        terminal := terminal + summaries[p].completed;
        rows := rows - {p};
      }
      assert CompletedIn(summaries, {}) == 0 by { NothingCompleted(summaries); }
    }

    /** `task_counts`, with no other statement in between: it counts every remaining task once
        and, for a created run whose ledger balances, adds up to models times receipts. */
    method TaskCounts(run: RunId) returns (counts: Counts, terminal: nat)
      ensures counts.Total() == |TasksOf(tasks, run)|
      ensures forall status :: counts.Of(status) == |WithStatus(tasks, run, status)|
      ensures terminal == Terminal(Tables(), run)
      ensures BenchmarkLedger.Ledger(Tables()) && run in runs && runs[run].phase == Created ==>
                counts.Total() + terminal == |runs[run].models| * |runs[run].receipts|
    {
      hide Terminal, BenchmarkLedger.Ledger;
      counts := CountByStatus(run);
      terminal := SumCompleted(run);
      if BenchmarkLedger.Ledger(Tables()) && run in runs && runs[run].phase == Created {
        CountsOfOneState(Tables(), run);
        UnrecordedOfNone(Tables(), run, runs[run].models);
      }
    }
  }

  lemma NothingCompleted(summaries: map<(RunId, ModelId), Summary>)
    ensures CompletedIn(summaries, {}) == 0
  {
  }

  /** The counters that `task_counts` reports for the remaining tasks. */
  datatype Counts = Counts(queued: nat, running: nat, waitingForModel: nat, retrying: nat)
  {
    function Of(status: TaskStatus): nat
    {
      match status
      case Queued => queued
      case Running => running
      case WaitingForModel => waitingForModel
      case Retrying => retrying
    }

    function Count(status: TaskStatus): Counts
    {
      match status
      case Queued => this.(queued := queued + 1)
      case Running => this.(running := running + 1)
      case WaitingForModel => this.(waitingForModel := waitingForModel + 1)
      case Retrying => this.(retrying := retrying + 1)
    }

    function Total(): nat
    {
      queued + running + waitingForModel + retrying
    }
  }

  /** The tasks of the run with this status among the rows read so far. */
  function CountedIn(tasks: map<TaskKey, Task>, run: RunId, done: set<TaskKey>, status: TaskStatus): set<TaskKey>
  {
    set k | k in done && k in tasks && k.run == run && tasks[k].status == status
  }

  lemma CountedStep(tasks: map<TaskKey, Task>, run: RunId, done: set<TaskKey>, k: TaskKey)
    requires k in tasks && k !in done
    ensures forall status :: CountsOneMore(tasks, run, done, k, status)
  {
    forall status ensures CountsOneMore(tasks, run, done, k, status) {
      var before := CountedIn(tasks, run, done, status);
      if k.run == run && tasks[k].status == status {
        assert CountedIn(tasks, run, done + {k}, status) == before + {k};
      } else {
        assert CountedIn(tasks, run, done + {k}, status) == before;
      }
    }
  }

  predicate CountsOneMore(tasks: map<TaskKey, Task>, run: RunId, done: set<TaskKey>, k: TaskKey, status: TaskStatus)
    requires k in tasks
  {
    |CountedIn(tasks, run, done + {k}, status)|
    == |CountedIn(tasks, run, done, status)| + if k.run == run && tasks[k].status == status then 1 else 0
  }

  lemma AllCounted(tasks: map<TaskKey, Task>, run: RunId, status: TaskStatus)
    ensures CountedIn(tasks, run, {}, status) == {}
    ensures CountedIn(tasks, run, tasks.Keys, status) == WithStatus(tasks, run, status)
  {
  }

  function CreateSteps(run: RunId, models: seq<ModelId>, receipts: seq<ReceiptId>): seq<Step>
  {
    if Distinct(models) && Distinct(receipts) then
      [InsertRun(run, models, receipts), InsertTasks(run), InsertSummaries(run)]
    else
      [InsertRun(run, models, receipts)]
  }

  lemma CreateIsARun(s: State, run: RunId, models: seq<ModelId>, receipts: seq<ReceiptId>)
    requires run !in s.runs && models != [] && receipts != []
    ensures Run(s, CreateSteps(run, models, receipts))
    ensures After(s, CreateSteps(run, models, receipts))
         == if Distinct(models) && Distinct(receipts)
            then s.(runs := s.runs[run := RunRow(models, receipts, false, Created)],
                    tasks := s.tasks + NewTasks(KeysOfRun(run, models, receipts), s.now),
                    summaries := s.summaries + NewSummaries(SummaryKeys(run, models)))
            else s.(runs := s.runs[run := RunRow(models, receipts, false, NeedsTasks)])
  {
    hide Run, After, NewTasks, NewSummaries, KeysOfRun, SummaryKeys, Distinct;
    var insert := InsertRun(run, models, receipts);
    var t := Apply(s, insert);
    if Distinct(models) && Distinct(receipts) {
      var u := Apply(t, InsertTasks(run));
      var v := Apply(u, InsertSummaries(run));
      assert v.runs == s.runs[run := RunRow(models, receipts, false, Created)];
      ThreeStepRun(s, insert, InsertTasks(run), InsertSummaries(run));
    } else {
      OneStepRun(s, insert);
    }
  }

  lemma OneStepRun(s: State, step: Step)
    requires Enabled(s, step)
    ensures Run(s, [step]) && After(s, [step]) == Apply(s, step)
  {
    hide Apply, Enabled;
    assert [step][1..] == [];
    assert Run(Apply(s, step), []) && After(Apply(s, step), []) == Apply(s, step);
  }

  lemma ThreeStepRun(s: State, a: Step, b: Step, c: Step)
    requires Enabled(s, a) && Enabled(Apply(s, a), b) && Enabled(Apply(Apply(s, a), b), c)
    ensures Run(s, [a, b, c]) && After(s, [a, b, c]) == Apply(Apply(Apply(s, a), b), c)
  {
    hide Apply, Enabled;
    var t, u := Apply(s, a), Apply(Apply(s, a), b);
    var v := Apply(u, c);
    assert [a, b, c][1..] == [b, c] && [b, c][1..] == [c] && [c][1..] == [];
    assert Run(v, []) && After(v, []) == v;
    assert Run(u, [c]) && After(u, [c]) == v;
    assert Run(t, [b, c]) && After(t, [b, c]) == v;
  }

  // ----- the worker

  /** What happens around one execution, in the order in which `_execute` meets it. A read or
      a final statement that fails raises. */
  datatype Environment = Environment(
    providerReachable: bool, runReadable: bool, digestsReadable: bool, modelAvailable: bool, digestsMatch: bool,
    receiptReadable: bool, receiptVerified: bool, imageExists: bool, expected: Receipt, extraction: Extraction,
    lastStatementFails: bool, retryFailsToo: bool)

  datatype Extraction = Extracted(actual: Receipt, attempts: nat) | Invalid | Transient

  predicate PlausibleExtraction(env: Environment)
  {
    env.extraction.Extracted? ==> 0 <= env.extraction.actual.confidence <= 100 && env.extraction.attempts >= 1
  }

  /** The step that an execution is heading for. */
  function Intended(w: WorkerId, env: Environment, runExists: bool): Step
  {
    if !env.providerReachable then Retry(w, false)
    else if !env.runReadable || !runExists || !env.digestsReadable then Abandon(w)
    else if !env.modelAvailable || !env.digestsMatch then Retry(w, true)
    else if !env.receiptReadable then Retry(w, false)
    else if !env.receiptVerified || !env.imageExists || env.extraction.Invalid? then Finish(w, Failure)
    else if env.extraction.Transient? then Retry(w, false)
    else Finish(w, Success(env.expected, env.extraction.actual, env.extraction.attempts))
  }

  /** The step that ends it: a success that cannot be stored is put back, and any other
      statement that fails, also that one, leaves the task leased. */
  function Verdict(w: WorkerId, env: Environment, runExists: bool): Step
  {
    var step := Intended(w, env, runExists);
    if !env.lastStatementFails then step
    else if step.Finish? && step.outcome.Success? && !env.retryFailsToo then Retry(w, false)
    else Abandon(w)
  }

  /** `_execute`: exactly one step of the queue for every leased task. */
  method Execute(db: BenchmarkDB, lease: Lease, env: Environment)
    requires PlausibleExtraction(env)
    modifies db
    ensures forall w ::
      var s := old(db.Tables()).(workers := map[w := lease]);
      var verdict := Verdict(w, env, lease.key.run in s.runs);
      Enabled(s, verdict) && SameTables(db.Tables(), Apply(s, verdict))
  {
    forall w: WorkerId ensures map[w := lease] - {w} == map[] {
    }
    if !env.providerReachable {
      TryRetry(db, lease, false, env.lastStatementFails);
    } else if !env.runReadable || lease.key.run !in db.runs || !env.digestsReadable {
      return;
    } else if !env.modelAvailable {
      TryRetry(db, lease, true, env.lastStatementFails);
    } else if !env.digestsMatch {
      TryRetry(db, lease, true, env.lastStatementFails);
    } else if !env.receiptReadable {
      TryRetry(db, lease, false, env.lastStatementFails);
    } else if !env.receiptVerified || !env.imageExists {
      TryFail(db, lease, env.lastStatementFails);
    } else {
      match env.extraction
      case Extracted(actual, attempts) =>
        if env.lastStatementFails {
          TryRetry(db, lease, false, env.retryFailsToo);
        } else {
          db.FinishTask(lease, Success(env.expected, actual, attempts));
        }
      case Invalid => TryFail(db, lease, env.lastStatementFails);
      case Transient => TryRetry(db, lease, false, env.lastStatementFails);
    }
  }

  method TryRetry(db: BenchmarkDB, lease: Lease, waiting: bool, fails: bool)
    modifies db`tasks
    ensures fails ==> db.Tables() == old(db.Tables())
    ensures !fails ==>
      forall w :: db.Tables() == Apply(old(db.Tables()).(workers := map[w := lease]), Retry(w, waiting))
  {
    if !fails {
      db.RetryTask(lease, waiting);
    }
  }

  method TryFail(db: BenchmarkDB, lease: Lease, fails: bool)
    modifies db`tasks, db`summaries, db`runs
    ensures fails ==> db.Tables() == old(db.Tables())
    ensures !fails ==>
      forall w :: SameTables(db.Tables(), Apply(old(db.Tables()).(workers := map[w := lease]), Finish(w, Failure)))
  {
    if !fails {
      db.FinishTask(lease, Failure);
    }
  }
}
