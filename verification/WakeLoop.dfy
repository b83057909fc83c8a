/**
  The scheduler's background loop: it waits for the wake event or the interval, clears the
  event and runs a cycle under a lock that manual cycles share. Triggers, manual cycles,
  start and stop may come between any two steps of the loop.
 */
module WakeLoop {
  type TriggerId = nat

  /** Where the loop is: stopped, in `wait`, between `wait` and `clear`, between `clear` and
      the start of its cycle, or in its cycle. */
  datatype LoopPhase = Stopped | Waiting | Woken | Cleared | Cycling

  datatype Lock = Free | HeldByLoop | HeldByManual

  /** `unserved` are the triggers after which no cycle has begun yet. */
  datatype State = State(wake: bool, loop: LoopPhase, lock: Lock, unserved: set<TriggerId>)

  datatype Step =
    | Start
    | Stop
    | Trigger(id: TriggerId)
    | WaitReturns(timedOut: bool)
    | ClearWake
    | LoopBegins
    | LoopEnds
    | ManualBegins
    | ManualEnds

  const INITIAL := State(false, Stopped, Free, {})

  predicate Enabled(s: State, step: Step)
  {
    match step
    case Start => true
    case Stop => true
    case Trigger(_) => true
    case WaitReturns(timedOut) => s.loop == Waiting && (timedOut || s.wake)
    case ClearWake => s.loop == Woken
    case LoopBegins => s.loop == Cleared && s.lock == Free
    case LoopEnds => s.loop == Cycling
    case ManualBegins => s.lock == Free
    case ManualEnds => s.lock == HeldByManual
  }

  function Apply(s: State, step: Step): State
    requires Enabled(s, step)
  {
    match step
    case Start => if s.loop == Stopped then s.(wake := true, loop := Waiting) else s
    case Stop => s.(loop := Stopped, lock := if s.loop == Cycling then Free else s.lock)
    case Trigger(id) => s.(wake := true, unserved := s.unserved + {id})
    case WaitReturns(_) => s.(loop := Woken)
    case ClearWake => s.(wake := false, loop := Cleared)
    case LoopBegins => s.(loop := Cycling, lock := HeldByLoop, unserved := {})
    case LoopEnds => s.(loop := Waiting, lock := Free)
    case ManualBegins => s.(lock := HeldByManual, unserved := {})
    case ManualEnds => s.(lock := Free)
  }

  ghost predicate Run(s: State, steps: seq<Step>)
    decreases |steps|
  {
    steps == [] || (Enabled(s, steps[0]) && Run(Apply(s, steps[0]), steps[1..]))
  }

  ghost function After(s: State, steps: seq<Step>): State
    requires Run(s, steps)
    decreases |steps|
  {
    if steps == [] then s else After(Apply(s, steps[0]), steps[1..])
  }

  /** While a trigger is unserved the event is set, or the loop is past its clear and before
      its cycle; a stopped loop sets the event when it is started. */
  predicate NoLostTrigger(s: State)
  {
    && (s.unserved != {} ==> s.wake || s.loop == Cleared || s.loop == Stopped)
    && (s.lock == HeldByLoop <==> s.loop == Cycling)
  }

  lemma StepKeepsTriggers(s: State, step: Step)
    requires NoLostTrigger(s) && Enabled(s, step)
    ensures NoLostTrigger(Apply(s, step))
  {
  }

  lemma {:induction false} RunKeepsTriggers(s: State, steps: seq<Step>)
    requires NoLostTrigger(s) && Run(s, steps)
    ensures NoLostTrigger(After(s, steps))
    decreases |steps|
  {
    if steps != [] {
      StepKeepsTriggers(s, steps[0]);
      RunKeepsTriggers(Apply(s, steps[0]), steps[1..]);
    }
  }

  /** No trigger is lost, in any interleaving. */
  lemma TriggersAreNeverLost(steps: seq<Step>)
    requires Run(INITIAL, steps)
    ensures NoLostTrigger(After(INITIAL, steps))
  {
    RunKeepsTriggers(INITIAL, steps);
  }

  // ----- and it is served by the loop's own next steps, without any timeout

  predicate IsLoopStep(step: Step)
  {
    step.WaitReturns? || step.ClearWake? || step.LoopBegins? || step.LoopEnds?
  }

  predicate BeginsCycle(step: Step)
  {
    step.LoopBegins? || step.ManualBegins?
  }

  /** How many steps of the loop remain before a cycle begins. */
  function Distance(loop: LoopPhase): nat
    requires loop != Stopped
  {
    match loop
    case Cycling => 4
    case Waiting => 3
    case Woken => 2
    case Cleared => 1
  }

  function LoopSteps(steps: seq<Step>): nat
  {
    if steps == [] then 0 else (if IsLoopStep(steps[0]) then 1 else 0) + LoopSteps(steps[1..])
  }

  predicate NeverStops(steps: seq<Step>)
  {
    forall n :: 0 <= n < |steps| ==> steps[n] != Stop
  }

  /** No wait ends because the interval ran out. */
  predicate OnlyWoken(steps: seq<Step>)
  {
    forall n :: 0 <= n < |steps| ==> steps[n] != WaitReturns(true)
  }

  /** What a started loop with an unserved trigger does next. */
  function NextLoopStep(s: State): Step
    requires s.loop != Stopped
  {
    match s.loop
    case Waiting => WaitReturns(false)
    case Woken => ClearWake
    case Cleared => if s.lock == HeldByManual then ManualEnds else LoopBegins
    case Cycling => LoopEnds
  }

  /** A trigger wakes the loop: with an unserved trigger a started loop has a step that needs
      no timeout, unless it waits for a manual cycle, which can end. */
  lemma LoopIsNeverStuck(steps: seq<Step>)
    requires Run(INITIAL, steps)
    requires After(INITIAL, steps).loop != Stopped && After(INITIAL, steps).unserved != {}
    ensures var s := After(INITIAL, steps);
            && Enabled(s, NextLoopStep(s))
            && NextLoopStep(s) != WaitReturns(true)
            && (IsLoopStep(NextLoopStep(s)) || (s.loop == Cleared && s.lock == HeldByManual && NextLoopStep(s) == ManualEnds))
  {
    RunKeepsTriggers(INITIAL, steps);
    hide Run, After;
  }

  /** Bounded response: whatever else happens meanwhile, once a loop that is not stopped has
      taken as many steps as its distance, a cycle has begun that serves the trigger. */
  lemma {:induction false} TriggerIsServed(s: State, steps: seq<Step>, id: TriggerId)
    requires Run(s, steps) && NeverStops(steps)
    requires s.loop != Stopped && id in s.unserved
    requires LoopSteps(steps) >= Distance(s.loop)
    ensures exists n :: 0 <= n < |steps| && ServesAt(s, steps, n, id)
    decreases |steps|
  {
    var step := steps[0];
    var t := Apply(s, step);
    if BeginsCycle(step) {
      assert steps[..1] == [step] && [step][1..] == [];
      assert Run(t, []) && After(t, []) == t;
      assert ServesAt(s, steps, 0, id);
    } else {
      assert NeverStops(steps[1..]);
      TriggerIsServed(t, steps[1..], id);
      var n :| 0 <= n < |steps[1..]| && ServesAt(t, steps[1..], n, id);
      ServesLater(s, steps, n, id);
    }
  }

  /** Step `n` begins a cycle, after which the trigger is served. */
  ghost predicate ServesAt(s: State, steps: seq<Step>, n: nat, id: TriggerId)
  {
    && n < |steps| && BeginsCycle(steps[n])
    && Run(s, steps[..n + 1]) && id !in After(s, steps[..n + 1]).unserved
  }

  lemma ServesLater(s: State, steps: seq<Step>, n: nat, id: TriggerId)
    requires steps != [] && Enabled(s, steps[0]) && ServesAt(Apply(s, steps[0]), steps[1..], n, id)
    ensures ServesAt(s, steps, n + 1, id)
  {
    hide Apply, Enabled;
    assert steps[..n + 2][1..] == steps[1..][..n + 1];
  }

  /** And such a run exists from every reachable state: the loop, once a manual cycle that
      holds the lock has ended, serves the trigger by itself and never needs the interval. */
  lemma TriggerAloneSuffices(before: seq<Step>, id: TriggerId) returns (steps: seq<Step>)
    requires Run(INITIAL, before)
    requires After(INITIAL, before).loop != Stopped && id in After(INITIAL, before).unserved
    ensures |steps| <= 5 && OnlyWoken(steps)
    ensures forall n :: 0 <= n < |steps| ==> IsLoopStep(steps[n]) || steps[n] == ManualEnds
    ensures Run(After(INITIAL, before), steps)
    ensures id !in After(After(INITIAL, before), steps).unserved
  {
    RunKeepsTriggers(INITIAL, before);
    var s := After(INITIAL, before);
    steps := ServeFrom(s, id, Distance(s.loop) + if s.lock == HeldByManual then 1 else 0);
  }

  lemma {:induction false} ServeFrom(s: State, id: TriggerId, fuel: nat) returns (steps: seq<Step>)
    requires NoLostTrigger(s) && s.loop != Stopped && id in s.unserved
    requires fuel == Distance(s.loop) + if s.lock == HeldByManual then 1 else 0
    ensures |steps| <= fuel && OnlyWoken(steps)
    ensures forall n :: 0 <= n < |steps| ==> IsLoopStep(steps[n]) || steps[n] == ManualEnds
    ensures Run(s, steps) && id !in After(s, steps).unserved
    decreases fuel
  {
    var step := NextLoopStep(s);
    var t := Apply(s, step);
    StepKeepsTriggers(s, step);
    var rest: seq<Step> := [];
    if step.LoopBegins? {
      assert Run(t, []) && After(t, []) == t;
    } else {
      rest := ServeFrom(t, id, fuel - 1);
    }
    steps := [step] + rest;
    assert steps[1..] == rest;
  }
}
