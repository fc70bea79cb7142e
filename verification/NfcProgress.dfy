/** Budgets of the step loop: how they may be sliced, and how much finishes everything. */
module NfcProgress {
  import opened NfcTypes
  import opened NfcModel
  import opened NfcTimeline
  import opened NfcInvariant
  import opened NfcRuns

  // ---------------------------------------------------------------- slicing

  /** An idle loop stays idle whatever the providers would answer. */
  lemma IdleStays(s: Model, answer: MediaAnswer, answer': MediaAnswer)
    requires Shaped(s) && StepUnit(s, answer).1.Idle?
    ensures StepUnit(s, answer') == (s, Idle)
  {
    var next := NextOperation(s.ops, |s.ops|);
    if next.Some? && s.ops[next.value].nextTick <= s.now {
      ServeNotIdle(s, next.value, answer);
    }
  }

  lemma ServeNotIdle(s: Model, i: nat, answer: MediaAnswer)
    requires Shaped(s) && i < |s.ops| && Candidate(s.ops[i])
    ensures !Serve(s, i, answer).1.Idle?
  {
  }

  lemma {:induction false} LoopSlices(s: Model, first: seq<MediaAnswer>, second: seq<MediaAnswer>)
    requires Working(s) && !StepLoop(s, first).0.phase.Faulted?
    ensures StepLoop(s, first + second) == StepLoop(StepLoop(s, first).0, second)
    decreases |first|
  {
    if first == [] {
      assert first + second == second;
    } else {
      var (t, progress) := StepUnit(s, first[0]);
      assert (first + second)[0] == first[0] && (first + second)[1..] == first[1..] + second;
      StepUnitInv(s, first[0]);
      if progress.Used? {
        LoopSlices(t, first[1..], second);
      } else if second != [] {
        IdleStays(s, first[0], second[0]);
      }
    }
  }

  /** Without a fault, stepping by a and then by b is stepping by a + b. */
  lemma StepSlices(s: Model, first: seq<MediaAnswer>, second: seq<MediaAnswer>)
    requires Inv(s) && first != [] && second != [] && !Step(s, first).0.phase.Faulted?
    ensures Step(s, first + second) == Step(Step(s, first).0, second)
  {
    if s.phase.Ready? || s.phase.ResetDrain? {
      LoopSlices(s, first, second);
      LoopKeepsPhase(s, first);
    }
  }

  lemma {:induction false} LoopKeepsPhase(s: Model, answers: seq<MediaAnswer>)
    requires Shaped(s)
    ensures StepLoop(s, answers).0.phase == s.phase || StepLoop(s, answers).0.phase.Faulted?
    decreases |answers|
  {
    if answers != [] {
      StepUnitFrame(s, answers[0]);
      if StepUnit(s, answers[0]).1.Used? {
        LoopKeepsPhase(StepUnit(s, answers[0]).0, answers[1..]);
      }
    }
  }

  // ---------------------------------------------------------------- bounded work

  /** Transitions the operation still has to make, counting the most units it can have. */
  function WorkLeft(cfg: Config, op: Op): int
  {
    match op.state
    case Queued => UnitCount(cfg, op.request, 0) + 2
    case Scheduled => UnitCount(cfg, op.request, 0) + 1
    case Running => op.unitCount - op.unitIndex
    case _ => 0
  }

  function TotalWork(cfg: Config, ops: seq<Op>): int
  {
    if ops == [] then 0 else TotalWork(cfg, ops[..|ops| - 1]) + WorkLeft(cfg, ops[|ops| - 1])
  }

  lemma {:induction false} TotalUpdate(cfg: Config, ops: seq<Op>, i: nat, op: Op)
    requires i < |ops|
    ensures TotalWork(cfg, ops[i := op]) == TotalWork(cfg, ops) - WorkLeft(cfg, ops[i]) + WorkLeft(cfg, op)
  {
    var n := |ops| - 1;
    if i == n {
      assert ops[i := op][..n] == ops[..n];
    } else {
      assert ops[i := op][..n] == ops[..n][i := op];
      TotalUpdate(cfg, ops[..n], i, op);
    }
  }

  /** Whether the next iteration only moves the clock. */
  function Lag(s: Model): int
    requires Shaped(s)
  {
    var next := NextOperation(s.ops, |s.ops|);
    if next.Some? && s.ops[next.value].nextTick > s.now then 1 else 0
  }

  /** Units that bring every live operation to its completion. */
  function Bound(s: Model): int
    requires Shaped(s)
  {
    2 * TotalWork(s.cfg, s.ops) + Lag(s)
  }

  lemma {:induction false} WorkPositive(s: Model, n: nat)
    requires UnitsLeft(s) && n <= |s.ops|
    ensures TotalWork(s.cfg, s.ops[..n]) >= 0
    ensures TotalWork(s.cfg, s.ops[..n]) == 0 ==> forall i :: 0 <= i < n ==> !Candidate(s.ops[i])
  {
    if n > 0 {
      WorkPositive(s, n - 1);
      assert s.ops[..n][..n - 1] == s.ops[..n - 1];
      assert s.ops[n - 1].state.Running? ==> s.ops[n - 1].unitIndex < s.ops[n - 1].unitCount;
    }
  }

  lemma BeginWork(s: Model, i: nat, answer: MediaAnswer)
    requires Shaped(s) && i < |s.ops| && s.ops[i].state.Scheduled? && Begin(s, i, answer).ops[i].state.Running?
    ensures var t := Begin(s, i, answer);
            SlotOnly(s, t, i) && t.cfg == s.cfg && WorkLeft(t.cfg, t.ops[i]) < WorkLeft(s.cfg, s.ops[i])
  {
    BeginSlot(s, i, answer);
  }

  lemma EndWork(s: Model, i: nat, answer: MediaAnswer)
    requires Shaped(s) && i < |s.ops| && s.ops[i].state.Running? && s.ops[i].unitIndex + 1 == s.ops[i].unitCount
    ensures var t := RunUnit(s, i, answer).0;
            SlotOnly(s, t, i) && t.cfg == s.cfg && WorkLeft(t.cfg, t.ops[i]) < WorkLeft(s.cfg, s.ops[i])
  {
    LastUnitRelates(s, i, answer);
    FinishRelates(AfterUnit(s, i), i, answer);
    var t := RunUnit(s, i, answer).0;
    assert t.ops == s.ops[i := t.ops[i]];
    assert t.ops[i].state.Running? ==> t.ops[i].unitIndex == t.ops[i].unitCount;
  }

  lemma UnitWork(s: Model, i: nat, answer: MediaAnswer)
    requires Shaped(s) && i < |s.ops| && s.ops[i].state.Running? && s.ops[i].unitIndex + 1 < s.ops[i].unitCount
    ensures var t := RunUnit(s, i, answer).0;
            SlotOnly(s, t, i) && t.cfg == s.cfg && WorkLeft(t.cfg, t.ops[i]) < WorkLeft(s.cfg, s.ops[i])
  {
    UnitRelates(s, i, answer);
  }

  lemma ServeWork(s: Model, i: nat, answer: MediaAnswer)
    requires Shaped(s) && i < |s.ops| && Candidate(s.ops[i]) && Serve(s, i, answer).1.Used?
    ensures var t := Serve(s, i, answer).0;
            SlotOnly(s, t, i) && t.cfg == s.cfg && WorkLeft(t.cfg, t.ops[i]) < WorkLeft(s.cfg, s.ops[i])
  {
    if s.ops[i].state.Queued? {
      ScheduleSlot(s, i);
    } else if s.ops[i].state.Scheduled? {
      BeginWork(s, i, answer);
    } else if s.ops[i].unitIndex + 1 < s.ops[i].unitCount {
      UnitWork(s, i, answer);
    } else {
      EndWork(s, i, answer);
    }
  }

  /** Every unit of work brings the bound down. */
  lemma UnitDecreases(s: Model, answer: MediaAnswer)
    requires Shaped(s) && StepUnit(s, answer).1.Used?
    ensures Bound(StepUnit(s, answer).0) < Bound(s)
  {
    var next := NextOperation(s.ops, |s.ops|);
    var i := next.value;
    var t := StepUnit(s, answer).0;
    if s.ops[i].nextTick <= s.now {
      ServeWork(s, i, answer);
      TotalUpdate(s.cfg, s.ops, i, t.ops[i]);
    }
  }

  ghost predicate AllDone(s: Model)
  {
    forall i :: 0 <= i < |s.ops| ==> !Candidate(s.ops[i])
  }

  lemma BoundReached(s: Model)
    requires Shaped(s) && UnitsLeft(s)
    ensures Bound(s) <= 0 ==> AllDone(s)
  {
    assert s.ops[..|s.ops|] == s.ops;
    WorkPositive(s, |s.ops|);
  }

  lemma IdleDone(s: Model, answer: MediaAnswer)
    requires Shaped(s) && StepUnit(s, answer).1.Idle?
    ensures AllDone(s)
  {
    var next := NextOperation(s.ops, |s.ops|);
    if next.Some? && s.ops[next.value].nextTick <= s.now {
      ServeNotIdle(s, next.value, answer);
    }
  }

  /** A budget of the bound leaves nothing but completions to collect, unless the model faults. */
  lemma {:induction false} LoopFinishes(s: Model, answers: seq<MediaAnswer>)
    requires Working(s) && |answers| >= Bound(s)
    ensures StepLoop(s, answers).0.phase.Faulted? || AllDone(StepLoop(s, answers).0)
    decreases |answers|
  {
    BoundReached(s);
    if answers != [] {
      var (t, progress) := StepUnit(s, answers[0]);
      StepUnitInv(s, answers[0]);
      if progress.Used? {
        UnitDecreases(s, answers[0]);
        LoopFinishes(t, answers[1..]);
      } else if progress.Idle? {
        IdleDone(s, answers[0]);
      }
    }
  }

  lemma StepFinishes(s: Model, answers: seq<MediaAnswer>)
    requires Inv(s) && (s.phase.Ready? || s.phase.ResetDrain?) && answers != [] && |answers| >= Bound(s)
    ensures Step(s, answers).0.phase.Faulted? || AllDone(Step(s, answers).0)
  {
    LoopFinishes(s, answers);
  }
}
