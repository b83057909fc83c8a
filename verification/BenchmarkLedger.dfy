/**
  The counters of a benchmark run. Two disciplines keep a worker the owner of the task it
  acts on: one worker at a time, whatever crashes and expires, or many workers that each
  act before their lease ends. Under either, nothing is counted twice or lost once the
  run is created, and a task put back k times has waited out its k backoff delays.
 */
module BenchmarkLedger {
  import opened Prelude
  import opened BenchmarkQueue
  import Scoring

  // ----- the tables

  ghost predicate TaskRows(s: State)
  {
    && (forall k :: k in s.tasks ==>
          k.run in s.runs && s.runs[k.run].phase != NeedsTasks
          && k.model in s.runs[k.run].models && k.receipt in s.runs[k.run].receipts)
    && (forall r :: r in s.runs && s.runs[r].phase != NeedsTasks ==>
          Distinct(s.runs[r].models) && Distinct(s.runs[r].receipts))
    && (forall r :: r in s.runs ==> s.runs[r].models != [] && s.runs[r].receipts != [])
  }

  ghost predicate SummaryRows(s: State)
  {
    && (forall r, m :: (r, m) in s.summaries ==> r in s.runs && s.runs[r].phase == Created && m in s.runs[r].models)
    && (forall r :: r in s.runs && s.runs[r].phase == Created ==>
          forall m :: m in s.runs[r].models ==> (r, m) in s.summaries)
    && (forall r, m :: (r, m) in s.unrecorded ==> r in s.runs && s.runs[r].phase != NeedsTasks)
  }

  ghost predicate RowsOfRuns(s: State)
  {
    TaskRows(s) && SummaryRows(s)
  }

  function Completed(s: State, run: RunId, model: ModelId): nat
  {
    if (run, model) in s.summaries then s.summaries[(run, model)].completed else 0
  }

  /** Every selected receipt is a remaining task, a completed one, or one that finished
      before there was a summary row to count it in. */
  ghost predicate Balanced(s: State, run: RunId, model: ModelId)
    requires run in s.runs
  {
    Completed(s, run, model) + |Remaining(s.tasks, run, model)| + Unrecorded(s, run, model)
    == |s.runs[run].receipts|
  }

  ghost predicate Balances(s: State)
  {
    forall r, m :: r in s.runs && s.runs[r].phase != NeedsTasks && m in s.runs[r].models ==> Balanced(s, r, m)
  }

  predicate SaneSummary(x: Summary)
  {
    && x.completed == x.succeeded + x.failed
    && 0.0 <= x.totalScore <= x.succeeded as real
    && 0.0 <= x.totalConfidence <= 100.0 * x.succeeded as real
    && x.totalAttempts >= x.completed
  }

  ghost predicate SaneSummaries(s: State)
  {
    forall p :: p in s.summaries ==> SaneSummary(s.summaries[p])
  }

  /** A run whose tasks were inserted is `completed` exactly when none is left. */
  ghost predicate ExactlyCompleted(s: State, r: RunId)
    requires r in s.runs
  {
    s.runs[r].completed <==> s.runs[r].phase != NeedsTasks && TasksOf(s.tasks, r) == {}
  }

  ghost predicate CompletionIsExact(s: State)
  {
    forall r :: r in s.runs ==> ExactlyCompleted(s, r)
  }

  ghost predicate Ledger(s: State)
  {
    RowsOfRuns(s) && Balances(s) && SaneSummaries(s) && CompletionIsExact(s)
  }

  // ----- ownership

  ghost predicate Owns(s: State, lease: Lease)
  {
    && lease.key in s.tasks
    && s.tasks[lease.key].status == Running
    && s.tasks[lease.key].leasedUntil == Some(lease.until)
    && s.tasks[lease.key].attempts == lease.attempts + 1
  }

  predicate Acts(step: Step)
  {
    step.Retry? || step.Finish?
  }

  ghost predicate ActorOwns(s: State, step: Step)
  {
    Acts(step) && step.worker in s.workers ==> Owns(s, s.workers[step.worker])
  }

  // ----- one step of an owner keeps the ledger

  lemma InsertingKeepsTaskRows(s: State, step: Step)
    requires TaskRows(s) && Enabled(s, step) && step.InsertTasks?
    ensures TaskRows(Apply(s, step))
  {
  }

  lemma StepKeepsTaskRows(s: State, step: Step)
    requires TaskRows(s) && Enabled(s, step)
    ensures TaskRows(Apply(s, step))
  {
    if step.InsertTasks? {
      InsertingKeepsTaskRows(s, step);
    } else {
      hide Distinct, NewTasks, NewSummaries, Recorded, Leased, PutBack;
    }
  }

  lemma StepKeepsSummaryRows(s: State, step: Step)
    requires TaskRows(s) && SummaryRows(s) && Enabled(s, step) && ActorOwns(s, step)
    ensures SummaryRows(Apply(s, step))
  {
    hide Distinct, RecordedIn, CompletedIf;
    if step.Finish? {
      FinishKeepsSummaryRows(s, step);
    }
  }

  lemma FinishKeepsSummaryRows(s: State, step: Step)
    requires TaskRows(s) && SummaryRows(s) && Enabled(s, step) && ActorOwns(s, step) && step.Finish?
    ensures SummaryRows(Apply(s, step))
  {
    hide Distinct, Recorded, TasksOf, NewTasks, NewSummaries, KeysOfRun, SummaryKeys, PutBack, Leased, Eligible;
    assert s.workers[step.worker].key in s.tasks;
  }

  lemma StepKeepsRows(s: State, step: Step)
    requires RowsOfRuns(s) && Enabled(s, step) && ActorOwns(s, step)
    ensures RowsOfRuns(Apply(s, step))
  {
    hide Apply, Enabled, ActorOwns, TaskRows, SummaryRows;
    StepKeepsTaskRows(s, step);
    StepKeepsSummaryRows(s, step);
  }

  lemma StepKeepsSummaries(s: State, step: Step)
    requires SaneSummaries(s) && Enabled(s, step)
    ensures SaneSummaries(Apply(s, step))
  {
    if step.Finish? {
      var key := s.workers[step.worker].key;
      if (key.run, key.model) in s.summaries {
        RecordingStaysSane(s.summaries[(key.run, key.model)], step.outcome);
      }
    }
  }

  lemma RecordingStaysSane(x: Summary, outcome: Outcome)
    requires SaneSummary(x)
    requires outcome.Success? ==> 0 <= outcome.actual.confidence <= 100 && outcome.attempts >= 1
    ensures SaneSummary(Recorded(x, outcome))
  {
    if outcome.Success? {
      Scoring.ScoresAreFractions(outcome.expected, outcome.actual);
      hide Scoring.Score;
    }
  }

  lemma {:induction false} KeysOfModel(run: RunId, model: ModelId, receipts: seq<ReceiptId>)
    requires Distinct(receipts)
    ensures |set r | r in receipts :: TaskKey(run, model, r)| == |receipts|
  {
    if receipts == [] {
      assert (set r | r in receipts :: TaskKey(run, model, r)) == {};
    } else {
      var last := |receipts| - 1;
      var rest := receipts[..last];
      KeysOfModel(run, model, rest);
      assert receipts[last] !in rest;
      assert (set r | r in receipts :: TaskKey(run, model, r))
          == (set r | r in rest :: TaskKey(run, model, r)) + {TaskKey(run, model, receipts[last])};
    }
  }

  lemma FinishTakesOne(tasks: map<TaskKey, Task>, key: TaskKey, run: RunId, model: ModelId)
    requires key in tasks
    ensures |Remaining(tasks - {key}, run, model)|
         == |Remaining(tasks, run, model)| - if key.run == run && key.model == model then 1 else 0
  {
    var rest := Remaining(tasks - {key}, run, model);
    if key.run == run && key.model == model {
      assert Remaining(tasks, run, model) == rest + {key};
    } else {
      assert Remaining(tasks, run, model) == rest;
    }
  }

  lemma FinishKeepsBalance(s: State, step: Step, run: RunId, model: ModelId)
    requires RowsOfRuns(s) && step.Finish? && Enabled(s, step) && ActorOwns(s, step)
    requires run in s.runs && Balanced(s, run, model)
    ensures run in Apply(s, step).runs && Balanced(Apply(s, step), run, model)
  {
    var key := s.workers[step.worker].key;
    FinishTakesOne(s.tasks, key, run, model);
  }

  lemma InsertedTasksBalance(s: State, run: RunId, m: ModelId)
    requires RowsOfRuns(s) && Enabled(s, InsertTasks(run)) && m in s.runs[run].models
    ensures Balanced(Apply(s, InsertTasks(run)), run, m)
  {
    var t := Apply(s, InsertTasks(run));
    var receipts := s.runs[run].receipts;
    KeysOfModel(run, m, receipts);
    assert Remaining(t.tasks, run, m) == set x | x in receipts :: TaskKey(run, m, x);
  }

  lemma InsertTasksElsewhere(s: State, run: RunId, r: RunId, m: ModelId)
    requires Enabled(s, InsertTasks(run)) && r != run && r in s.runs && Balanced(s, r, m)
    ensures Balanced(Apply(s, InsertTasks(run)), r, m)
  {
    assert Remaining(Apply(s, InsertTasks(run)).tasks, r, m) == Remaining(s.tasks, r, m);
  }

  lemma OtherStepsKeepBalance(s: State, step: Step, r: RunId, m: ModelId)
    requires RowsOfRuns(s) && Enabled(s, step) && !step.Finish? && !step.InsertTasks?
    requires r in s.runs && s.runs[r].phase != NeedsTasks && m in s.runs[r].models && Balanced(s, r, m)
    ensures r in Apply(s, step).runs && Balanced(Apply(s, step), r, m)
  {
    assert Remaining(Apply(s, step).tasks, r, m) == Remaining(s.tasks, r, m);
  }

  lemma PhasesProgress(s: State, step: Step, r: RunId)
    requires Enabled(s, step) && r in Apply(s, step).runs && Apply(s, step).runs[r].phase != NeedsTasks
    ensures r in s.runs && Apply(s, step).runs[r].models == s.runs[r].models
    ensures s.runs[r].phase != NeedsTasks || step == InsertTasks(r)
  {
  }

  lemma StepKeepsBalances(s: State, step: Step)
    requires RowsOfRuns(s) && Balances(s) && Enabled(s, step) && ActorOwns(s, step)
    ensures Balances(Apply(s, step))
  {
    var t := Apply(s, step);
    hide Apply, Enabled, RowsOfRuns, ActorOwns, Balanced;
    forall r, m | r in t.runs && t.runs[r].phase != NeedsTasks && m in t.runs[r].models
      ensures Balanced(t, r, m)
    {
      PhasesProgress(s, step, r);
      if step.Finish? {
        FinishKeepsBalance(s, step, r, m);
      } else if step.InsertTasks? {
        if r == step.run {
          InsertedTasksBalance(s, r, m);
        } else {
          InsertTasksElsewhere(s, step.run, r, m);
        }
      } else {
        OtherStepsKeepBalance(s, step, r, m);
      }
    }
  }

  lemma StepKeepsCompletionOf(s: State, step: Step, r: RunId)
    requires RowsOfRuns(s) && Enabled(s, step) && ActorOwns(s, step)
    requires r in s.runs ==> ExactlyCompleted(s, r)
    requires r in Apply(s, step).runs
    ensures ExactlyCompleted(Apply(s, step), r)
  {
    hide Distinct, RecordedIn, SummaryRows;
    var t := Apply(s, step);
    if step.Finish? {
      assert TasksOf(t.tasks, r) == TasksOf(s.tasks, r) - {s.workers[step.worker].key};
    } else if step == InsertTasks(r) {
      var row := s.runs[r];
      assert TaskKey(r, row.models[0], row.receipts[0]) in TasksOf(t.tasks, r);
    } else {
      assert TasksOf(t.tasks, r) == TasksOf(s.tasks, r);
    }
  }

  lemma StepKeepsCompletion(s: State, step: Step)
    requires RowsOfRuns(s) && CompletionIsExact(s) && Enabled(s, step) && ActorOwns(s, step)
    ensures CompletionIsExact(Apply(s, step))
  {
    hide Apply, Enabled, RowsOfRuns, ActorOwns;
    forall r | r in Apply(s, step).runs ensures ExactlyCompleted(Apply(s, step), r) {
      StepKeepsCompletionOf(s, step, r);
    }
  }

  lemma StepKeepsLedger(s: State, step: Step)
    requires Ledger(s) && Enabled(s, step) && ActorOwns(s, step)
    ensures Ledger(Apply(s, step))
  {
    hide Apply, Enabled, RowsOfRuns, Balances, SaneSummaries, CompletionIsExact, ActorOwns;
    StepKeepsRows(s, step);
    StepKeepsBalances(s, step);
    StepKeepsSummaries(s, step);
    StepKeepsCompletion(s, step);
  }
}
