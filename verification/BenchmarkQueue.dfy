/**
  The benchmark task queue: `create_run`'s three statements, leases, retries with backoff
  and the atomic finish, as steps of many workers over the `benchmark_runs`,
  `benchmark_tasks` and `benchmark_summaries` tables.
 */
module BenchmarkQueue {
  import opened Prelude
  import opened ReceiptModel
  import Scoring

  type RunId = nat
  type ModelId = string
  type ReceiptId = nat
  type WorkerId = nat

  /** Six minutes, in seconds. */
  const LEASE: int := 360

  datatype TaskKey = TaskKey(run: RunId, model: ModelId, receipt: ReceiptId)

  datatype TaskStatus = Queued | Running | WaitingForModel | Retrying

  /** A task row. `createdAt` and `retries` are history: when the row was inserted and how
      often it was put back. */
  datatype Task = Task(
    status: TaskStatus, attempts: nat, leasedUntil: Option<int>, retryAt: Option<int>,
    createdAt: int, retries: nat)

  datatype RunRow = RunRow(models: seq<ModelId>, receipts: seq<ReceiptId>, completed: bool, phase: CreatePhase)

  /** How far `create_run` got; it is not one transaction. */
  datatype CreatePhase = NeedsTasks | NeedsSummaries | Created

  datatype Summary = Summary(
    completed: nat, succeeded: nat, failed: nat,
    totalScore: real, totalConfidence: real, totalAttempts: nat)

  /** What a worker keeps of the row it leased: the attempts before the lease, and its end. */
  datatype Lease = Lease(key: TaskKey, attempts: nat, until: int)

  datatype Outcome =
    | Success(expected: Receipt, actual: Receipt, attempts: nat)
    | Failure

  /** `unrecorded` is history: finished tasks whose summary row did not exist yet. */
  datatype State = State(
    now: int,
    runs: map<RunId, RunRow>,
    tasks: map<TaskKey, Task>,
    summaries: map<(RunId, ModelId), Summary>,
    workers: map<WorkerId, Lease>,
    unrecorded: map<(RunId, ModelId), nat>)

  datatype Step =
    | Tick(seconds: nat)
    | InsertRun(run: RunId, models: seq<ModelId>, receipts: seq<ReceiptId>)
    | InsertTasks(run: RunId)
    | InsertSummaries(run: RunId)
    | LeaseTask(worker: WorkerId, key: TaskKey)
    | Retry(worker: WorkerId, waiting: bool)
    | Finish(worker: WorkerId, outcome: Outcome)
    | Abandon(worker: WorkerId)

  // ----- the statements

  predicate Eligible(task: Task, now: int)
  {
    || ((task.status == Queued || task.status == Retrying) && (task.retryAt.None? || task.retryAt.value <= now))
    || (task.status == Running && task.leasedUntil.Some? && task.leasedUntil.value < now)
  }

  function Leased(task: Task, now: int): Task
  {
    task.(status := Running, attempts := task.attempts + 1, leasedUntil := Some(now + LEASE))
  }

  function Pow2(n: nat): nat
  {
    if n == 0 then 1 else 2 * Pow2(n - 1)
  }

  /** `min(5 * 2 ** max(0, attempts), 300)` */
  function Delay(attempts: nat): nat
  {
    if 5 * Pow2(attempts) < 300 then 5 * Pow2(attempts) else 300
  }

  function PutBack(task: Task, attempts: nat, now: int, waiting: bool): Task
  {
    task.(status := if waiting then WaitingForModel else Retrying, leasedUntil := None,
          retryAt := Some(now + Delay(attempts)), retries := task.retries + 1)
  }

  function Recorded(summary: Summary, outcome: Outcome): Summary
  {
    match outcome
    case Success(expected, actual, attempts) =>
      Summary(summary.completed + 1, summary.succeeded + 1, summary.failed,
              summary.totalScore + Scoring.Score(expected, actual).overall,
              summary.totalConfidence + actual.confidence as real,
              summary.totalAttempts + attempts)
    case Failure =>
      summary.(completed := summary.completed + 1, failed := summary.failed + 1,
               totalAttempts := summary.totalAttempts + 1)
  }

  /** The keys inserted for a run: every model with every receipt. */
  function KeysOfRun(run: RunId, models: seq<ModelId>, receipts: seq<ReceiptId>): set<TaskKey>
  {
    set m, r | m in models && r in receipts :: TaskKey(run, m, r)
  }

  function SummaryKeys(run: RunId, models: seq<ModelId>): set<(RunId, ModelId)>
  {
    set m | m in models :: (run, m)
  }

  function NewTasks(keys: set<TaskKey>, now: int): map<TaskKey, Task>
  {
    map k | k in keys :: Task(Queued, 0, None, None, now, 0)
  }

  function NewSummaries(keys: set<(RunId, ModelId)>): map<(RunId, ModelId), Summary>
  {
    map p | p in keys :: Summary(0, 0, 0, 0.0, 0.0, 0)
  }

  function TasksOf(tasks: map<TaskKey, Task>, run: RunId): set<TaskKey>
  {
    set k | k in tasks && k.run == run
  }

  function Remaining(tasks: map<TaskKey, Task>, run: RunId, model: ModelId): set<TaskKey>
  {
    set k | k in tasks && k.run == run && k.model == model
  }

  /** The summary row after a finish, if there is one to update. */
  function RecordedIn(summaries: map<(RunId, ModelId), Summary>, key: TaskKey, outcome: Outcome)
    : map<(RunId, ModelId), Summary>
  {
    if (key.run, key.model) in summaries then
      summaries[(key.run, key.model) := Recorded(summaries[(key.run, key.model)], outcome)]
    else summaries
  }

  /** `status='completed'` if no task of the run is left */
  function CompletedIf(runs: map<RunId, RunRow>, tasks: map<TaskKey, Task>, run: RunId): map<RunId, RunRow>
  {
    if run in runs && TasksOf(tasks, run) == {} then runs[run := runs[run].(completed := true)] else runs
  }

  // ----- steps

  predicate Enabled(s: State, step: Step)
  {
    match step
    case Tick(_) => true
    case InsertRun(run, models, receipts) => run !in s.runs && models != [] && receipts != []
    case InsertTasks(run) =>
      // a repeated model or receipt violates the primary key and inserts nothing
      && run in s.runs && s.runs[run].phase == NeedsTasks
      && Distinct(s.runs[run].models) && Distinct(s.runs[run].receipts)
    case InsertSummaries(run) => run in s.runs && s.runs[run].phase == NeedsSummaries
    case LeaseTask(w, key) => w !in s.workers && key in s.tasks && Eligible(s.tasks[key], s.now)
    case Retry(w, _) => w in s.workers
    case Finish(w, outcome) =>
      w in s.workers && (outcome.Success? ==> 0 <= outcome.actual.confidence <= 100 && outcome.attempts >= 1)
    case Abandon(w) => w in s.workers
  }

  function Apply(s: State, step: Step): State
    requires Enabled(s, step)
  {
    match step
    case Tick(d) => s.(now := s.now + d)
    case InsertRun(run, models, receipts) =>
      s.(runs := s.runs[run := RunRow(models, receipts, false, NeedsTasks)])
    case InsertTasks(run) =>
      var row := s.runs[run];
      s.(tasks := s.tasks + NewTasks(KeysOfRun(run, row.models, row.receipts), s.now),
         runs := s.runs[run := row.(phase := NeedsSummaries)])
    case InsertSummaries(run) =>
      var row := s.runs[run];
      s.(summaries := s.summaries + NewSummaries(SummaryKeys(run, row.models)),
         runs := s.runs[run := row.(phase := Created)])
    case LeaseTask(w, key) =>
      s.(tasks := s.tasks[key := Leased(s.tasks[key], s.now)],
         workers := s.workers[w := Lease(key, s.tasks[key].attempts, s.now + LEASE)])
    case Retry(w, waiting) =>
      var lease := s.workers[w];
      s.(tasks := if lease.key in s.tasks
                  then s.tasks[lease.key := PutBack(s.tasks[lease.key], lease.attempts, s.now, waiting)]
                  else s.tasks,
         workers := s.workers - {w})
    case Finish(w, outcome) =>
      var key := s.workers[w].key;
      var tasks := s.tasks - {key};
      s.(tasks := tasks,
         summaries := RecordedIn(s.summaries, key, outcome),
         runs := CompletedIf(s.runs, tasks, key.run),
         workers := s.workers - {w},
         unrecorded := if (key.run, key.model) in s.summaries then s.unrecorded
                       else s.unrecorded[(key.run, key.model) := Unrecorded(s, key.run, key.model) + 1])
    case Abandon(w) => s.(workers := s.workers - {w})
  }

  function Unrecorded(s: State, run: RunId, model: ModelId): nat
  {
    if (run, model) in s.unrecorded then s.unrecorded[(run, model)] else 0
  }

  const EMPTY := State(0, map[], map[], map[], map[], map[])

  ghost predicate Run(s: State, steps: seq<Step>)
    decreases |steps|
  {
    steps == [] || (Enabled(s, steps[0]) && Run(Apply(s, steps[0]), steps[1..]))
  }

  ghost function After(s: State, steps: seq<Step>): State
    requires Run(s, steps)
    decreases |steps|
  {
    if steps == [] then s else After(Apply(s, steps[0]), steps[1..])
  }
}
