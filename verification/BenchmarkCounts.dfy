/**
  The counts of a benchmark run: when they agree with its tasks, step by step of the run.
  They do unless a task finishes between the statements of `create_run`; and what
  `task_counts` reports from two reads is right unless a task finishes between them.
 */
module BenchmarkCounts {
  import opened Prelude
  import opened BenchmarkQueue
  import opened BenchmarkLedger
  import opened BenchmarkWorkers

  // ----- finishes that go uncounted

  /** The step finishes a task of this run and model before the run's summary rows exist. */
  predicate FinishesEarly(s: State, step: Step, run: RunId, model: ModelId)
  {
    && step.Finish? && step.worker in s.workers
    && s.workers[step.worker].key.run == run && s.workers[step.worker].key.model == model
    && run in s.runs && s.runs[run].phase == NeedsSummaries
  }

  /** A finish goes uncounted exactly when the run's summary rows are not inserted yet. */
  lemma WhenAFinishIsUnrecorded(s: State, step: Step, run: RunId, model: ModelId)
    requires RowsOfRuns(s) && Enabled(s, step) && ActorOwns(s, step)
    ensures Unrecorded(Apply(s, step), run, model) != Unrecorded(s, run, model) <==>
            FinishesEarly(s, step, run, model)
    ensures Unrecorded(Apply(s, step), run, model) >= Unrecorded(s, run, model)
  {
    hide Distinct, RecordedIn, CompletedIf;
  }

  /** No step of the run does. */
  ghost predicate NoEarlyFinish(s: State, steps: seq<Step>, run: RunId, model: ModelId)
    requires Run(s, steps)
    decreases |steps|
  {
    steps == []
    || (!FinishesEarly(s, steps[0], run, model) && NoEarlyFinish(Apply(s, steps[0]), steps[1..], run, model))
  }

  lemma {:induction false} UnrecordedByEarlyFinishes(
    d: Discipline, s: State, steps: seq<Step>, run: RunId, model: ModelId)
    requires Healthy(d, s) && Disciplined(d, s, steps) && Run(s, steps)
    ensures Unrecorded(After(s, steps), run, model) >= Unrecorded(s, run, model)
    ensures Unrecorded(After(s, steps), run, model) == Unrecorded(s, run, model) <==> NoEarlyFinish(s, steps, run, model)
    decreases |steps|
  {
    if steps != [] {
      ActorsOwn(d, s, steps[0]);
      WhenAFinishIsUnrecorded(s, steps[0], run, model);
      StepKeepsHealthy(d, s, steps[0]);
      hide Apply, Enabled, Obeys, Healthy, FinishesEarly, Unrecorded;
      UnrecordedByEarlyFinishes(d, Apply(s, steps[0]), steps[1..], run, model);
    }
  }

  /** Once a run is created, its counters agree with its tasks if and only if no task of the
      model finished between the task and the summary inserts; and the run is `completed`
      exactly when no task is left. */
  lemma CountersAgree(d: Discipline, steps: seq<Step>, run: RunId, model: ModelId)
    requires Disciplined(d, EMPTY, steps)
    ensures Run(EMPTY, steps)
    ensures var s := After(EMPTY, steps);
            run in s.runs && s.runs[run].phase == Created && model in s.runs[run].models ==>
              && (run, model) in s.summaries
              && s.summaries[(run, model)].completed
                 == s.summaries[(run, model)].succeeded + s.summaries[(run, model)].failed
              && s.summaries[(run, model)].completed + |Remaining(s.tasks, run, model)| <= |s.runs[run].receipts|
              && (s.summaries[(run, model)].completed + |Remaining(s.tasks, run, model)| == |s.runs[run].receipts|
                  <==> NoEarlyFinish(EMPTY, steps, run, model))
              && (s.runs[run].completed <==> TasksOf(s.tasks, run) == {})
  {
    EmptyIsHealthy(d);
    RunKeepsHealthy(d, EMPTY, steps);
    UnrecordedByEarlyFinishes(d, EMPTY, steps, run, model);
    var s := After(EMPTY, steps);
    hide Run, After, Disciplined, OwnersAct, AllWaited, NoEarlyFinish;
    if run in s.runs && s.runs[run].phase == Created && model in s.runs[run].models {
      assert Balanced(s, run, model);
      assert ExactlyCompleted(s, run);
    }
  }

  // ----- a creation that nothing interrupts

  /** Nothing comes between the task and the summary inserts of the run. */
  predicate CreatedAtOnce(steps: seq<Step>, run: RunId)
  {
    forall n :: 0 <= n && n + 1 < |steps| && steps[n] == InsertTasks(run) ==> steps[n + 1] == InsertSummaries(run)
  }

  lemma OnlyInsertTasksNeedsSummaries(s: State, step: Step, run: RunId)
    requires Enabled(s, step)
    requires run in Apply(s, step).runs && Apply(s, step).runs[run].phase == NeedsSummaries
    ensures step == InsertTasks(run) || (run in s.runs && s.runs[run].phase == NeedsSummaries && step != InsertSummaries(run))
  {
  }

  lemma {:induction false} NothingFinishesEarly(s: State, steps: seq<Step>, run: RunId, model: ModelId)
    requires Run(s, steps) && CreatedAtOnce(steps, run)
    requires run in s.runs && s.runs[run].phase == NeedsSummaries ==> steps == [] || steps[0] == InsertSummaries(run)
    ensures NoEarlyFinish(s, steps, run, model)
    decreases |steps|
  {
    hide Apply, Enabled;
    if steps != [] {
      var t, rest := Apply(s, steps[0]), steps[1..];
      assert CreatedAtOnce(rest, run) by {
        assert forall n :: 0 <= n < |rest| ==> rest[n] == steps[n + 1];
      }
      if run in t.runs && t.runs[run].phase == NeedsSummaries {
        OnlyInsertTasksNeedsSummaries(s, steps[0], run);
      }
      NothingFinishesEarly(t, rest, run, model);
    }
  }

  /** If the inserts of `create_run` come without interruption, the counters agree exactly. */
  lemma CountersAgreeIfCreatedAtOnce(d: Discipline, steps: seq<Step>, run: RunId, model: ModelId)
    requires Disciplined(d, EMPTY, steps) && CreatedAtOnce(steps, run)
    ensures Run(EMPTY, steps)
    ensures var s := After(EMPTY, steps);
            run in s.runs && s.runs[run].phase == Created && model in s.runs[run].models ==>
              && (run, model) in s.summaries
              && s.summaries[(run, model)].completed + |Remaining(s.tasks, run, model)| == |s.runs[run].receipts|
  {
    CountersAgree(d, steps, run, model);
    NothingFinishesEarly(EMPTY, steps, run, model);
    hide Run, After, NoEarlyFinish, Disciplined, CreatedAtOnce;
  }

  // ----- the reported counts

  function WithStatus(tasks: map<TaskKey, Task>, run: RunId, status: TaskStatus): set<TaskKey>
  {
    set k | k in tasks && k.run == run && tasks[k].status == status
  }

  /** The tasks that `task_counts` reports, all four statuses together. */
  function TasksCounted(tasks: map<TaskKey, Task>, run: RunId): nat
  {
    |WithStatus(tasks, run, Queued)| + |WithStatus(tasks, run, Running)|
    + |WithStatus(tasks, run, WaitingForModel)| + |WithStatus(tasks, run, Retrying)|
  }

  /** The run's summary rows, and `sum(completed)` over summary rows, in any order */
  function SummaryRowsOf(summaries: map<(RunId, ModelId), Summary>, run: RunId): set<(RunId, ModelId)>
  {
    set p | p in summaries && p.0 == run
  }

  ghost function CompletedIn(summaries: map<(RunId, ModelId), Summary>, rows: set<(RunId, ModelId)>): nat
    requires rows <= summaries.Keys
  {
    if rows == {} then 0
    else
      var p :| p in rows;
      summaries[p].completed + CompletedIn(summaries, rows - {p})
  }

  lemma {:induction false} CompletedInAnyOrder(
    summaries: map<(RunId, ModelId), Summary>, rows: set<(RunId, ModelId)>, p: (RunId, ModelId))
    requires p in rows && rows <= summaries.Keys
    ensures CompletedIn(summaries, rows) == summaries[p].completed + CompletedIn(summaries, rows - {p})
    decreases rows
  {
    var q :| q in rows && CompletedIn(summaries, rows) == summaries[q].completed + CompletedIn(summaries, rows - {q});
    if q != p {
      CompletedInAnyOrder(summaries, rows - {q}, p);
      CompletedInAnyOrder(summaries, rows - {p}, q);
      assert rows - {q} - {p} == rows - {p} - {q};
    }
  }

  /** What the second statement of `task_counts` reads */
  ghost function Terminal(s: State, run: RunId): nat
  {
    CompletedIn(s.summaries, SummaryRowsOf(s.summaries, run))
  }

  /** Finished tasks of the listed models that no summary row counts */
  function UnrecordedOf(s: State, run: RunId, models: seq<ModelId>): nat
  {
    if models == [] then 0
    else UnrecordedOf(s, run, models[..|models| - 1]) + Unrecorded(s, run, models[|models| - 1])
  }

  lemma {:induction false} UnrecordedOfNone(s: State, run: RunId, models: seq<ModelId>)
    ensures UnrecordedOf(s, run, models) == 0 <==> forall m :: m in models ==> Unrecorded(s, run, m) == 0
  {
    hide Unrecorded;
    if models != [] {
      var rest, m := models[..|models| - 1], models[|models| - 1];
      UnrecordedOfNone(s, run, rest);
      assert models == rest + [m];
    }
  }

  lemma StatusesPartition(tasks: map<TaskKey, Task>, run: RunId)
    ensures TasksCounted(tasks, run) == |TasksOf(tasks, run)|
  {
    hide WithStatus, TasksOf;
    var q, r := WithStatus(tasks, run, Queued), WithStatus(tasks, run, Running);
    var w, y := WithStatus(tasks, run, WaitingForModel), WithStatus(tasks, run, Retrying);
    StatusesCover(tasks, run);
    DisjointSizes(q, r);
    DisjointSizes(w, y);
    DisjointSizes(q + r, w + y);
  }

  lemma StatusesCover(tasks: map<TaskKey, Task>, run: RunId)
    ensures var q, r := WithStatus(tasks, run, Queued), WithStatus(tasks, run, Running);
            var w, y := WithStatus(tasks, run, WaitingForModel), WithStatus(tasks, run, Retrying);
            TasksOf(tasks, run) == (q + r) + (w + y) && q !! r && w !! y && (q + r) !! (w + y)
  {
  }

  lemma DisjointSizes(a: set<TaskKey>, b: set<TaskKey>)
    requires a !! b
    ensures |a + b| == |a| + |b|
  {
  }

  function TasksOfModels(tasks: map<TaskKey, Task>, run: RunId, models: seq<ModelId>): set<TaskKey>
  {
    set k | k in tasks && k.run == run && k.model in models
  }

  lemma SplitOffModel(tasks: map<TaskKey, Task>, run: RunId, rest: seq<ModelId>, m: ModelId)
    requires m !in rest
    ensures |TasksOfModels(tasks, run, rest + [m])| == |TasksOfModels(tasks, run, rest)| + |Remaining(tasks, run, m)|
  {
    var before, more := TasksOfModels(tasks, run, rest), Remaining(tasks, run, m);
    assert TasksOfModels(tasks, run, rest + [m]) == before + more;
    assert before !! more;
  }

  lemma {:induction false} ModelsPartition(s: State, run: RunId, models: seq<ModelId>)
    requires run in s.runs && Distinct(models)
    requires forall m :: m in models ==> Balanced(s, run, m) && (run, m) in s.summaries
    ensures SummaryKeys(run, models) <= s.summaries.Keys
    ensures |TasksOfModels(s.tasks, run, models)| + CompletedIn(s.summaries, SummaryKeys(run, models))
            + UnrecordedOf(s, run, models)
         == |models| * |s.runs[run].receipts|
  {
    hide Remaining, Unrecorded;
    if models == [] {
      assert TasksOfModels(s.tasks, run, models) == {};
      assert SummaryKeys(run, models) == {};
    } else {
      var rest, m := models[..|models| - 1], models[|models| - 1];
      assert models == rest + [m];
      assert m !in rest && m in models;
      ModelsPartition(s, run, rest);
      hide TasksOfModels, CompletedIn;
      SplitOffModel(s.tasks, run, rest, m);
      assert SummaryKeys(run, models) - {(run, m)} == SummaryKeys(run, rest);
      CompletedInAnyOrder(s.summaries, SummaryKeys(run, models), (run, m));
      assert Balanced(s, run, m);
      OneMoreTimes(|rest|, |s.runs[run].receipts|);
    }
  }

  lemma CountsOfOneState(s: State, run: RunId)
    requires Ledger(s) && run in s.runs && s.runs[run].phase == Created
    ensures |TasksOf(s.tasks, run)| + Terminal(s, run) + UnrecordedOf(s, run, s.runs[run].models)
         == |s.runs[run].models| * |s.runs[run].receipts|
  {
    var models := s.runs[run].models;
    assert TasksOf(s.tasks, run) == TasksOfModels(s.tasks, run, models);
    hide CompletedIn, UnrecordedOf;
    assert SummaryRowsOf(s.summaries, run) == SummaryKeys(run, models);
    ModelsPartition(s, run, models);
  }

  /** No task of the run, of any of its models, finishes before its summary rows exist. */
  ghost predicate NoneFinishesEarly(steps: seq<Step>, run: RunId)
    requires Run(EMPTY, steps) && run in After(EMPTY, steps).runs
  {
    forall m :: m in After(EMPTY, steps).runs[run].models ==> NoEarlyFinish(EMPTY, steps, run, m)
  }

  lemma NoneUnrecorded(d: Discipline, steps: seq<Step>, run: RunId)
    requires Disciplined(d, EMPTY, steps) && Run(EMPTY, steps) && run in After(EMPTY, steps).runs
    ensures var s := After(EMPTY, steps);
            UnrecordedOf(s, run, s.runs[run].models) == 0 <==> NoneFinishesEarly(steps, run)
  {
    EmptyIsHealthy(d);
    var s := After(EMPTY, steps);
    hide Run, After, Disciplined, Healthy, NoEarlyFinish;
    forall m ensures Unrecorded(s, run, m) == 0 <==> NoEarlyFinish(EMPTY, steps, run, m) {
      UnrecordedByEarlyFinishes(d, EMPTY, steps, run, m);
    }
    UnrecordedOfNone(s, run, s.runs[run].models);
  }

  /** A snapshot of the counts of a created run adds up to models times receipts if and only
      if no task finished before the run's summary rows existed; it never adds up to more. */
  lemma SnapshotAddsUp(d: Discipline, steps: seq<Step>, run: RunId)
    requires Disciplined(d, EMPTY, steps) && Run(EMPTY, steps)
    requires run in After(EMPTY, steps).runs && After(EMPTY, steps).runs[run].phase == Created
    ensures var s := After(EMPTY, steps);
            var total := |s.runs[run].models| * |s.runs[run].receipts|;
            && TasksCounted(s.tasks, run) + Terminal(s, run) <= total
            && (TasksCounted(s.tasks, run) + Terminal(s, run) == total <==> NoneFinishesEarly(steps, run))
  {
    EmptyIsHealthy(d);
    RunKeepsHealthy(d, EMPTY, steps);
    NoneUnrecorded(d, steps, run);
    var s := After(EMPTY, steps);
    hide Run, After, Disciplined, OwnersAct, AllWaited, NoneFinishesEarly, UnrecordedOf, Terminal;
    StatusesPartition(s.tasks, run);
    CountsOfOneState(s, run);
  }

  /** So it always does when the run was created without interruption. */
  lemma SnapshotAddsUpIfCreatedAtOnce(d: Discipline, steps: seq<Step>, run: RunId)
    requires Disciplined(d, EMPTY, steps) && Run(EMPTY, steps) && CreatedAtOnce(steps, run)
    requires run in After(EMPTY, steps).runs && After(EMPTY, steps).runs[run].phase == Created
    ensures var s := After(EMPTY, steps);
            TasksCounted(s.tasks, run) + Terminal(s, run) == |s.runs[run].models| * |s.runs[run].receipts|
  {
    SnapshotAddsUp(d, steps, run);
    hide Run, After, NoEarlyFinish, Disciplined, CreatedAtOnce, TasksCounted, Terminal;
    forall m | m in After(EMPTY, steps).runs[run].models ensures NoEarlyFinish(EMPTY, steps, run, m) {
      NothingFinishesEarly(EMPTY, steps, run, m);
    }
  }

  // ----- two reads

  /** Some step finishes a task of the run. */
  ghost predicate SomeFinish(s: State, steps: seq<Step>, run: RunId)
    requires Run(s, steps)
    decreases |steps|
  {
    steps != []
    && ((steps[0].Finish? && s.workers[steps[0].worker].key.run == run) || SomeFinish(Apply(s, steps[0]), steps[1..], run))
  }

  /** A created run keeps its models and receipts, loses tasks only by finishing them, and
      every later finish is recorded. */
  lemma CreatedRunStep(s: State, step: Step, run: RunId)
    requires Ledger(s) && Enabled(s, step) && ActorOwns(s, step)
    requires run in s.runs && s.runs[run].phase == Created
    ensures var t := Apply(s, step);
            && run in t.runs && t.runs[run].(completed := false) == s.runs[run].(completed := false)
            && TasksOf(t.tasks, run) <= TasksOf(s.tasks, run)
            && (TasksOf(t.tasks, run) == TasksOf(s.tasks, run) <==>
                !(step.Finish? && s.workers[step.worker].key.run == run))
            && forall m :: Unrecorded(t, run, m) == Unrecorded(s, run, m)
  {
    hide Distinct, Balances, SaneSummaries, CompletionIsExact;
    if step.Finish? {
      var key := s.workers[step.worker].key;
      assert key in s.tasks && key !in Apply(s, step).tasks;
      assert key.run == run ==> key in TasksOf(s.tasks, run);
    }
  }

  lemma HealthyParts(d: Discipline, s: State)
    requires Healthy(d, s)
    ensures Ledger(s) && OwnersAct(d, s)
  {
  }

  lemma {:induction false} CreatedRunStays(d: Discipline, s: State, steps: seq<Step>, run: RunId)
    requires Healthy(d, s) && Disciplined(d, s, steps) && Run(s, steps)
    requires run in s.runs && s.runs[run].phase == Created
    ensures var t := After(s, steps);
            && run in t.runs && t.runs[run].(completed := false) == s.runs[run].(completed := false)
            && TasksOf(t.tasks, run) <= TasksOf(s.tasks, run)
            && (TasksOf(t.tasks, run) == TasksOf(s.tasks, run) <==> !SomeFinish(s, steps, run))
            && forall m :: Unrecorded(t, run, m) == Unrecorded(s, run, m)
    decreases |steps|
  {
    hide Apply, Enabled, Obeys, Healthy, TasksOf, Unrecorded;
    if steps != [] {
      HealthyParts(d, s);
      StepKeepsHealthy(d, s, steps[0]);
      ActorsOwn(d, s, steps[0]);
      CreatedRunStep(s, steps[0], run);
      CreatedRunStays(d, Apply(s, steps[0]), steps[1..], run);
    }
  }

  lemma {:induction false} UnrecordedStays(s: State, t: State, run: RunId, models: seq<ModelId>)
    requires forall m :: Unrecorded(t, run, m) == Unrecorded(s, run, m)
    ensures UnrecordedOf(t, run, models) == UnrecordedOf(s, run, models)
  {
    if models != [] {
      UnrecordedStays(s, t, run, models[..|models| - 1]);
    }
  }

  lemma SubsetSize(a: set<TaskKey>, b: set<TaskKey>)
    requires a <= b
    ensures |a| <= |b| && (|a| == |b| <==> a == b)
  {
    assert b == a + (b - a);
    assert |b| == |a| + |b - a|;
  }

  /** `task_counts` reads the tasks and the totals in two statements. Of a created run whose
      counters agree, what it reports is never too low, and is right if and only if no task
      of the run finishes in between. */
  lemma TwoReadsOvercount(d: Discipline, before: seq<Step>, between: seq<Step>, run: RunId)
    requires Disciplined(d, EMPTY, before) && Run(EMPTY, before)
    requires run in After(EMPTY, before).runs && After(EMPTY, before).runs[run].phase == Created
    requires NoneFinishesEarly(before, run)
    requires Disciplined(d, After(EMPTY, before), between) && Run(After(EMPTY, before), between)
    ensures var s := After(EMPTY, before);
            var total := |s.runs[run].models| * |s.runs[run].receipts|;
            var reported := TasksCounted(s.tasks, run) + Terminal(After(s, between), run);
            && reported >= total
            && (reported == total <==> !SomeFinish(s, between, run))
  {
    EmptyIsHealthy(d);
    RunKeepsHealthy(d, EMPTY, before);
    NoneUnrecorded(d, before, run);
    var s := After(EMPTY, before);
    TwoReadsFrom(d, s, between, run);
  }

  lemma TwoReadsFrom(d: Discipline, s: State, steps: seq<Step>, run: RunId)
    requires Healthy(d, s) && Disciplined(d, s, steps) && Run(s, steps)
    requires run in s.runs && s.runs[run].phase == Created && UnrecordedOf(s, run, s.runs[run].models) == 0
    ensures var total := |s.runs[run].models| * |s.runs[run].receipts|;
            var reported := TasksCounted(s.tasks, run) + Terminal(After(s, steps), run);
            && reported >= total
            && (reported == total <==> !SomeFinish(s, steps, run))
  {
    CreatedRunStays(d, s, steps, run);
    RunKeepsHealthy(d, s, steps);
    var t := After(s, steps);
    hide Run, After, Disciplined, OwnersAct, AllWaited, SomeFinish, UnrecordedOf, Unrecorded, Terminal;
    StatusesPartition(s.tasks, run);
    CountsOfOneState(t, run);
    UnrecordedStays(s, t, run, s.runs[run].models);
    SubsetSize(TasksOf(t.tasks, run), TasksOf(s.tasks, run));
  }

  // ----- a finish before the summaries exist

  lemma {:induction false} Extend(d: Discipline, s: State, steps: seq<Step>, step: Step)
    requires Disciplined(d, s, steps) && Run(s, steps)
    requires Enabled(After(s, steps), step) && Obeys(d, After(s, steps), step)
    ensures Disciplined(d, s, steps + [step]) && Run(s, steps + [step])
    ensures After(s, steps + [step]) == Apply(After(s, steps), step)
    decreases |steps|
  {
    hide Apply, Enabled, Obeys;
    if steps == [] {
      var t := Apply(s, step);
      assert [] + [step] == [step] && [step][1..] == [];
      assert Disciplined(d, t, []) && Run(t, []) && After(t, []) == t;
    } else {
      Extend(d, Apply(s, steps[0]), steps[1..], step);
      assert (steps + [step])[0] == steps[0] && (steps + [step])[1..] == steps[1..] + [step];
    }
  }

  /** The worker takes and fails the only task before the summary row is inserted. */
  const EARLY_FINISH: seq<Step> := [
    InsertRun(0, ["m"], [0]), InsertTasks(0), LeaseTask(0, TaskKey(0, "m", 0)), Finish(0, Failure), InsertSummaries(0)]

  function EarlyState(n: nat): State
  {
    var key := TaskKey(0, "m", 0);
    var row := RunRow(["m"], [0], false, NeedsTasks);
    var task := Task(Queued, 0, None, None, 0, 0);
    match n
    case 0 => EMPTY
    case 1 => EMPTY.(runs := map[0 := row])
    case 2 => EMPTY.(runs := map[0 := row.(phase := NeedsSummaries)], tasks := map[key := task])
    case 3 => EMPTY.(runs := map[0 := row.(phase := NeedsSummaries)], tasks := map[key := Leased(task, 0)],
                     workers := map[0 := Lease(key, 0, LEASE)])
    case 4 => EMPTY.(runs := map[0 := row.(phase := NeedsSummaries, completed := true)],
                     unrecorded := map[(0, "m") := 1])
    case _ => EMPTY.(runs := map[0 := row.(phase := Created, completed := true)],
                     summaries := map[(0, "m") := Summary(0, 0, 0, 0.0, 0.0, 0)],
                     unrecorded := map[(0, "m") := 1])
  }

  lemma EarlyStepOfCreate(n: nat)
    requires n < 2
    ensures Enabled(EarlyState(n), EARLY_FINISH[n]) && Obeys(OneWorker, EarlyState(n), EARLY_FINISH[n])
    ensures Apply(EarlyState(n), EARLY_FINISH[n]) == EarlyState(n + 1)
  {
    hide NewSummaries, SummaryKeys, Leased;
    var s, t := Apply(EarlyState(n), EARLY_FINISH[n]), EarlyState(n + 1);
    assert s.runs == t.runs && s.tasks == t.tasks;
  }

  lemma EarlyStepOfSummaries()
    ensures Enabled(EarlyState(4), EARLY_FINISH[4]) && Obeys(OneWorker, EarlyState(4), EARLY_FINISH[4])
    ensures Apply(EarlyState(4), EARLY_FINISH[4]) == EarlyState(5)
  {
    hide NewTasks, KeysOfRun, Leased;
    var s, t := Apply(EarlyState(4), EARLY_FINISH[4]), EarlyState(5);
    assert s.runs == t.runs && s.summaries == t.summaries;
  }

  lemma EarlyStepOfWorker(n: nat)
    requires n == 2 || n == 3
    ensures Enabled(EarlyState(n), EARLY_FINISH[n]) && Obeys(OneWorker, EarlyState(n), EARLY_FINISH[n])
    ensures Apply(EarlyState(n), EARLY_FINISH[n]) == EarlyState(n + 1)
  {
    var s, t := Apply(EarlyState(n), EARLY_FINISH[n]), EarlyState(n + 1);
    assert s.tasks == t.tasks && s.workers == t.workers && s.runs == t.runs && s.unrecorded == t.unrecorded;
  }

  lemma {:induction false} EarlyRun(n: nat)
    requires n <= 5
    ensures Disciplined(OneWorker, EMPTY, EARLY_FINISH[..n]) && Run(EMPTY, EARLY_FINISH[..n])
    ensures After(EMPTY, EARLY_FINISH[..n]) == EarlyState(n)
  {
    if n == 0 {
      assert EARLY_FINISH[..0] == [];
    } else {
      hide Apply, Enabled, Obeys, EarlyState;
      EarlyRun(n - 1);
      if n == 3 || n == 4 {
        EarlyStepOfWorker(n - 1);
      } else if n == 5 {
        EarlyStepOfSummaries();
      } else {
        EarlyStepOfCreate(n - 1);
      }
      Extend(OneWorker, EMPTY, EARLY_FINISH[..n - 1], EARLY_FINISH[n - 1]);
      assert EARLY_FINISH[..n] == EARLY_FINISH[..n - 1] + [EARLY_FINISH[n - 1]];
    }
  }

  /** Then the run is completed with a summary that counts nothing. */
  lemma EarlyFinishIsLost()
    ensures Disciplined(OneWorker, EMPTY, EARLY_FINISH) && Run(EMPTY, EARLY_FINISH)
    ensures var s := After(EMPTY, EARLY_FINISH);
            && 0 in s.runs && s.runs[0].completed && s.runs[0].phase == Created && |s.runs[0].receipts| == 1
            && (0, "m") in s.summaries && s.summaries[(0, "m")].completed == 0
            && Remaining(s.tasks, 0, "m") == {}
  {
    hide Run, Disciplined, After;
    EarlyRun(5);
    assert EARLY_FINISH[..5] == EARLY_FINISH;
  }

  // ----- a finish between the two reads

  /** A created run whose only task finishes after it was counted and before the totals are. */
  const LATE_FINISH: seq<Step> := [
    InsertRun(0, ["m"], [0]), InsertTasks(0), InsertSummaries(0), LeaseTask(0, TaskKey(0, "m", 0)), Finish(0, Failure)]

  function LateState(n: nat): State
  {
    var key := TaskKey(0, "m", 0);
    var row := RunRow(["m"], [0], false, NeedsTasks);
    var created := EMPTY.(runs := map[0 := row.(phase := Created)],
                          summaries := map[(0, "m") := Summary(0, 0, 0, 0.0, 0.0, 0)]);
    var task := Task(Queued, 0, None, None, 0, 0);
    match n
    case 0 => EMPTY
    case 1 => EMPTY.(runs := map[0 := row])
    case 2 => EMPTY.(runs := map[0 := row.(phase := NeedsSummaries)], tasks := map[key := task])
    case 3 => created.(tasks := map[key := task])
    case 4 => created.(tasks := map[key := Leased(task, 0)], workers := map[0 := Lease(key, 0, LEASE)])
    case _ => created.(runs := map[0 := row.(phase := Created, completed := true)],
                       summaries := map[(0, "m") := Summary(1, 0, 1, 0.0, 0.0, 1)])
  }

  lemma LateStepOfCreate(n: nat)
    requires n < 2
    ensures Enabled(LateState(n), LATE_FINISH[n]) && Obeys(OneWorker, LateState(n), LATE_FINISH[n])
    ensures Apply(LateState(n), LATE_FINISH[n]) == LateState(n + 1)
  {
    hide NewSummaries, SummaryKeys, Leased;
    var s, t := Apply(LateState(n), LATE_FINISH[n]), LateState(n + 1);
    assert s.runs == t.runs && s.tasks == t.tasks;
  }

  lemma LateStepOfSummaries()
    ensures Enabled(LateState(2), LATE_FINISH[2]) && Obeys(OneWorker, LateState(2), LATE_FINISH[2])
    ensures Apply(LateState(2), LATE_FINISH[2]) == LateState(3)
  {
    hide NewTasks, KeysOfRun, Leased;
    var s, t := Apply(LateState(2), LATE_FINISH[2]), LateState(3);
    assert s.runs == t.runs && s.summaries == t.summaries;
  }

  lemma LateStepOfWorker(n: nat)
    requires n == 3 || n == 4
    ensures Enabled(LateState(n), LATE_FINISH[n]) && Obeys(OneWorker, LateState(n), LATE_FINISH[n])
    ensures Apply(LateState(n), LATE_FINISH[n]) == LateState(n + 1)
  {
    var s, t := Apply(LateState(n), LATE_FINISH[n]), LateState(n + 1);
    assert s.tasks == t.tasks && s.workers == t.workers && s.runs == t.runs && s.summaries == t.summaries;
  }

  lemma {:induction false} LateRun(n: nat)
    requires n <= 5
    ensures Disciplined(OneWorker, EMPTY, LATE_FINISH[..n]) && Run(EMPTY, LATE_FINISH[..n])
    ensures After(EMPTY, LATE_FINISH[..n]) == LateState(n)
  {
    if n == 0 {
      assert LATE_FINISH[..0] == [];
    } else {
      hide Apply, Enabled, Obeys, LateState;
      LateRun(n - 1);
      if n <= 2 {
        LateStepOfCreate(n - 1);
      } else if n == 3 {
        LateStepOfSummaries();
      } else {
        LateStepOfWorker(n - 1);
      }
      Extend(OneWorker, EMPTY, LATE_FINISH[..n - 1], LATE_FINISH[n - 1]);
      assert LATE_FINISH[..n] == LATE_FINISH[..n - 1] + [LATE_FINISH[n - 1]];
    }
  }

  lemma LateCounts()
    ensures TasksCounted(LateState(4).tasks, 0) == 1
    ensures Terminal(LateState(5), 0) == 1
  {
    var key := TaskKey(0, "m", 0);
    StatusesPartition(LateState(4).tasks, 0);
    assert TasksOf(LateState(4).tasks, 0) == {key};
    var t, p := LateState(5), (0, "m");
    assert SummaryRowsOf(t.summaries, 0) == {p};
    CompletedInAnyOrder(t.summaries, {p}, p);
    assert {p} - {p} == {};
  }

  /** Read in two statements, the one task of this run is reported twice. */
  lemma OvercountHappens()
    ensures var before, finish := LATE_FINISH[..4], LATE_FINISH[4];
            && Disciplined(OneWorker, EMPTY, before) && Run(EMPTY, before)
            && Enabled(After(EMPTY, before), finish) && Obeys(OneWorker, After(EMPTY, before), finish)
            && var s := After(EMPTY, before);
               && 0 in s.runs && s.runs[0].phase == Created && |s.runs[0].models| * |s.runs[0].receipts| == 1
               && TasksCounted(s.tasks, 0) + Terminal(Apply(s, finish), 0) == 2
  {
    hide Run, Disciplined, After, Terminal, TasksCounted;
    LateRun(4);
    LateStepOfWorker(4);
    LateCounts();
  }
}
