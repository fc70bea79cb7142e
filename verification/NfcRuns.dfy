/** Whole runs of the controller: every state a run reaches satisfies the invariants. */
module NfcRuns {
  import opened NfcTypes
  import opened NfcModel
  import opened NfcTimeline
  import opened NfcLedger
  import opened NfcExclusion
  import opened NfcData
  import opened NfcInvariant

  // ---------------------------------------------------------------- stepping

  /** What no unit of work changes. */
  ghost predicate StepFrame(s: Model, t: Model)
  {
    && BooksKept(s, t) && t.epoch == s.epoch && t.cfg == s.cfg && t.nonce == s.nonce
    && (t.phase == s.phase || t.phase.Faulted?)
  }

  lemma BeginStepFrame(s: Model, i: nat, answer: MediaAnswer)
    requires Shaped(s) && i < |s.ops| && s.ops[i].state.Scheduled?
    ensures StepFrame(s, Begin(s, i, answer))
  {
  }

  lemma LastUnitFrame(s: Model, i: nat, answer: MediaAnswer)
    requires Shaped(s) && i < |s.ops| && s.ops[i].state.Running? && s.ops[i].unitIndex + 1 == s.ops[i].unitCount
    ensures StepFrame(s, RunUnit(s, i, answer).0)
  {
    LastUnitRelates(s, i, answer);
    FinishRelates(AfterUnit(s, i), i, answer);
  }

  lemma UnitFrame(s: Model, i: nat, answer: MediaAnswer)
    requires Shaped(s) && i < |s.ops| && s.ops[i].state.Running? && s.ops[i].unitIndex + 1 < s.ops[i].unitCount
    ensures StepFrame(s, RunUnit(s, i, answer).0)
  {
    UnitRelates(s, i, answer);
  }

  lemma ServeFrame(s: Model, i: nat, answer: MediaAnswer)
    requires Shaped(s) && i < |s.ops| && Candidate(s.ops[i])
    ensures StepFrame(s, Serve(s, i, answer).0)
  {
    if s.ops[i].state.Queued? {
    } else if s.ops[i].state.Scheduled? {
      BeginStepFrame(s, i, answer);
    } else if s.ops[i].unitIndex + 1 < s.ops[i].unitCount {
      UnitFrame(s, i, answer);
    } else if s.ops[i].unitIndex + 1 == s.ops[i].unitCount {
      LastUnitFrame(s, i, answer);
    }
  }

  lemma StepUnitFrame(s: Model, answer: MediaAnswer)
    requires Shaped(s)
    ensures StepFrame(s, StepUnit(s, answer).0)
  {
    var next := NextOperation(s.ops, |s.ops|);
    if next.Some? && s.ops[next.value].nextTick <= s.now {
      ServeFrame(s, next.value, answer);
    }
  }

  lemma EpochsFollow(s: Model, t: Model)
    requires EpochsAgree(s) && StepFrame(s, t)
    ensures EpochsAgree(t)
  {
    forall i | 0 <= i < |t.ops| && Live(t.ops[i]) ensures Live(s.ops[i]) && EpochOf(t.ops[i]) == EpochOf(s.ops[i]) {
    }
  }

  lemma {:induction false} StepLoopInv(s: Model, answers: seq<MediaAnswer>)
    requires Working(s) && EpochsAgree(s)
    ensures Inv(StepLoop(s, answers).0)
    decreases |answers|
  {
    if answers != [] {
      var (t, progress) := StepUnit(s, answers[0]);
      StepUnitInv(s, answers[0]);
      StepUnitFrame(s, answers[0]);
      EpochsFollow(s, t);
      if progress.Used? {
        StepLoopInv(t, answers[1..]);
      }
    }
  }

  lemma StepKeeps(s: Model, answers: seq<MediaAnswer>)
    requires Inv(s)
    ensures Inv(Step(s, answers).0)
  {
    if answers != [] && (s.phase.Ready? || s.phase.ResetDrain?) {
      StepLoopInv(s, answers);
    }
  }

  // ---------------------------------------------------------------- polling

  lemma ReportRelates(s: Model, i: nat)
    requires Shaped(s) && NextEvent(s.ops, |s.ops|) == Some(i)
    requires SlotTimed(s.ops[i], s.now, s.nextSubmit) && SlotReserved(s, s.ops[i])
    ensures var t := Report(s, i);
            && Reports(s, t, i) && BooksReported(s, t, i) && PlanKept(s, t) && DataMoves(s, t)
            && SameTails(s, t) && t.caches == s.caches && t.epoch == s.epoch && t.hist.effects == s.hist.effects
            && t.hist.reserved == s.hist.reserved && t.hist.accepted == s.hist.accepted
            && t.eventCount == s.eventCount - 1 && t.cfg == s.cfg && (t.phase == s.phase || t.phase.Faulted?)
  {
  }

  lemma ReportInv(s: Model, i: nat)
    requires Inv(s) && NextEvent(s.ops, |s.ops|) == Some(i)
    ensures Inv(Report(s, i))
  {
    assert SlotTimed(s.ops[i], s.now, s.nextSubmit) && SlotReserved(s, s.ops[i]);
    ReportRelates(s, i);
    ReportedInv(s, Report(s, i), i);
  }

  lemma ReportedInv(s: Model, t: Model, i: nat)
    requires Inv(s) && Shaped(t) && Reports(s, t, i) && BooksReported(s, t, i) && PlanKept(s, t) && DataMoves(s, t)
    requires SameTails(s, t) && t.caches == s.caches && t.epoch == s.epoch && t.hist.effects == s.hist.effects
    requires t.hist.reserved == s.hist.reserved && t.hist.accepted == s.hist.accepted
    requires t.eventCount == s.eventCount - 1 && (t.phase == s.phase || t.phase.Faulted?)
    ensures Inv(t)
  {
    ReportedCore(s, t, i);
    EmptiedEpochs(s, t, i);
    if s.phase.Ready? || s.phase.ResetDrain? {
      EmptiedSteady(s, t, i);
    }
  }

  lemma ReportedCore(s: Model, t: Model, i: nat)
    requires Core(s) && Shaped(t) && Reports(s, t, i) && BooksReported(s, t, i) && PlanKept(s, t) && DataMoves(s, t)
    requires t.hist.effects == s.hist.effects && t.eventCount == s.eventCount - 1
    ensures Core(t)
    ensures Counted(s) ==> Counted(t)
  {
    ReportKeeps(s, t, i);
    ReportedKeeps(s, t, i);
    PlanKeptKeeps(s, t);
    MovesKeep(s, t);
    PendingUpdate(s.ops, i, t.ops[i]);
  }

  lemma EmptiedEpochs(s: Model, t: Model, i: nat)
    requires EpochsAgree(s) && SlotOnly(s, t, i) && t.ops[i].state.Free? && t.epoch == s.epoch
    requires t.phase == s.phase || t.phase.Faulted?
    ensures EpochsAgree(t)
  {
  }

  lemma EmptiedSteady(s: Model, t: Model, i: nat)
    requires Steady(s) && SlotOnly(s, t, i) && t.ops[i].state.Free?
    requires SameTails(s, t) && t.caches == s.caches && t.epoch == s.epoch && t.hist.effects == s.hist.effects
    requires t.hist.reserved == s.hist.reserved && t.hist.accepted == s.hist.accepted
    ensures Steady(t)
  {
    CoveredKeeps(s, t);
    SpentKeeps(s, t);
    forall j | 0 <= j < |t.ops| ensures SlotFresh(t, t.ops[j]) {
      assert SlotFresh(s, s.ops[j]);
    }
  }

  lemma PollOneKeeps(s: Model)
    requires Inv(s)
    ensures Inv(PollOne(s))
  {
    var next := NextEvent(s.ops, |s.ops|);
    if next.Some? {
      ReportInv(s, next.value);
    }
  }

  lemma {:induction false} PollKeeps(s: Model, budget: nat)
    requires Inv(s)
    ensures Inv(Poll(s, budget))
    decreases budget
  {
    if budget != 0 {
      PollOneKeeps(s);
      PollKeeps(PollOne(s), budget - 1);
    }
  }

  // ---------------------------------------------------------------- reset

  /** The caches of a reset: emptied and moved on up to the first exhausted one. */
  ghost predicate CachesReset(s: Model, t: Model)
  {
    && |t.caches| == |s.caches|
    && forall p :: 0 <= p < |s.caches| ==>
         t.caches[p] == s.caches[p] || t.caches[p] == ResetCache(s.caches[p], t.epoch)
  }

  ghost predicate ResetRelates(s: Model, t: Model)
  {
    && t == s.(phase := t.phase, epoch := s.epoch + 1, caches := t.caches, ops := t.ops, traceCount := t.traceCount)
    && CachesReset(s, t) && |t.ops| == |s.ops|
    && forall i :: 0 <= i < |s.ops| ==> t.ops[i] == s.ops[i] || t.ops[i] == ResetOp(s.ops[i])
  }

  lemma ResetCore(s: Model, t: Model)
    requires Core(s) && Shaped(t) && ResetRelates(s, t)
    ensures Core(t)
    ensures Counted(s) ==> Counted(t)
  {
    ResetAlike(s, t);
    QuietKeeps(s, t);
    KeptKeeps(s, t);
    PlanKeptKeeps(s, t);
    MovesKeep(s, t);
    PendingAlike(s.ops, t.ops);
  }

  lemma ResetAlike(s: Model, t: Model)
    requires ResetRelates(s, t)
    ensures Quiet(s, t) && BooksKept(s, t) && PlanKept(s, t) && DataMoves(s, t)
    ensures forall i :: 0 <= i < |s.ops| ==> Pending(s.ops[i]) == Pending(t.ops[i])
  {
    forall i | 0 <= i < |s.ops|
      ensures BothFree(s.ops[i], t.ops[i]) || TimedAlike(s.ops[i], t.ops[i])
      ensures IntervalKept(s.ops[i], t.ops[i]) && DataAlike(s.ops[i], t.ops[i])
      ensures Pending(s.ops[i]) == Pending(t.ops[i])
    {
      assert t.ops[i] == s.ops[i] || t.ops[i] == ResetOp(s.ops[i]);
    }
    forall p | 0 <= p < |s.caches| ensures CacheQuiet(s.caches[p], t.caches[p]) {
      assert t.caches[p] == s.caches[p] || t.caches[p] == ResetCache(s.caches[p], t.epoch);
    }
  }

  lemma ResetSteady(s: Model, t: Model)
    requires Steady(s) && ResetRelates(s, t)
    requires forall i :: 0 <= i < |s.ops| ==> t.ops[i] == ResetOp(s.ops[i])
    ensures Steady(t)
  {
    CoveredKeeps(s, t);
    forall p | 0 <= p < |s.caches| ensures CacheAdvances(s.caches[p], t.caches[p]) {
      assert t.caches[p] == s.caches[p] || t.caches[p] == ResetCache(s.caches[p], t.epoch);
    }
    SpentKeeps(s, t);
    forall i | 0 <= i < |t.ops| ensures SlotFresh(t, t.ops[i]) {
      assert SlotFresh(s, s.ops[i]) && t.ops[i] == ResetOp(s.ops[i]);
    }
    forall i | 0 <= i < |t.ops| && t.ops[i].state.Running? ensures t.ops[i].unitIndex < t.ops[i].unitCount {
      assert t.ops[i] == ResetOp(s.ops[i]);
    }
  }

  lemma ResetShape(s: Model, nonce: nat, oldEpoch: nat)
    requires Shaped(s)
    ensures var (t, result) := ResetBegin(s, nonce, oldEpoch);
            && (result.InvalidContract? ==> t == s)
            && (!result.InvalidContract? ==> s.phase.Ready? && ResetRelates(s, t))
            && (result.CounterExhausted? ==> t.phase.Faulted?)
            && (result.Ok? ==> (t.phase.ResetDrain? || t.phase.Faulted?)
                               && forall i :: 0 <= i < |s.ops| ==> t.ops[i] == ResetOp(s.ops[i]))
            && (result.Ok? || result.InvalidContract? || result.CounterExhausted?)
  {
  }

  lemma ResetEpochs(s: Model, t: Model)
    requires EpochHeld(s, s.epoch) && ResetRelates(s, t)
    ensures EpochHeld(t, t.epoch - 1)
  {
    forall i | 0 <= i < |t.ops| && Live(t.ops[i]) ensures EpochOf(t.ops[i]) == t.epoch - 1 {
      assert t.ops[i] == s.ops[i] || t.ops[i] == ResetOp(s.ops[i]);
    }
  }

  lemma ResetKeeps(s: Model, nonce: nat, oldEpoch: nat)
    requires Inv(s)
    ensures Inv(ResetBegin(s, nonce, oldEpoch).0)
  {
    var (t, result) := ResetBegin(s, nonce, oldEpoch);
    ResetShape(s, nonce, oldEpoch);
    if !result.InvalidContract? {
      ResetCore(s, t);
      ResetEpochs(s, t);
      if result.Ok? {
        ResetSteady(s, t);
      }
    }
  }

  lemma QuiescentKeeps(s: Model, nonce: nat, oldEpoch: nat)
    requires Inv(s)
    ensures Inv(Quiescent(s, nonce, oldEpoch).0)
  {
    var (t, result, over) := Quiescent(s, nonce, oldEpoch);
    if t != s {
      CalmCore(s, t);
      CalmSteady(s, t);
      forall i | 0 <= i < |t.ops| ensures !Live(t.ops[i]) {
        assert Live(s.ops[i]) ==> EpochOf(s.ops[i]) == oldEpoch;
      }
    }
  }

  // ---------------------------------------------------------------- power loss

  lemma PowerPrefixSound(s: Model, op: Op, k: nat)
    requires Data(s) && RequestPlaced(s.cfg, op.request) && op.state.Running? && SlotData(s, op)
    requires k < |PowerPrefix(s.cfg, op)|
    ensures EffectSound(s, PowerPrefix(s.cfg, op)[k])
    ensures !PowerPrefix(s.cfg, op)[k].Delivered?
  {
  }

  lemma PowerClearRelates(s: Model, i: nat)
    requires Shaped(s) && Data(s) && i < |s.ops| && Live(s.ops[i])
    ensures var t := PowerClear(s, i);
            && Frees(s, t, i) && BooksLost(s, t, i) && PlanKept(s, t) && DataMoves(s, t)
            && t.eventCount == s.eventCount && t.phase == s.phase && t.ops[i].state.Free?
            && t.ops == s.ops[i := FREE_OP]
            && (forall k :: |s.hist.effects| <= k < |t.hist.effects| ==> !t.hist.effects[k].Delivered?)
            && s.hist.effects <= t.hist.effects
  {
    var t := PowerClear(s, i);
    var op := s.ops[i];
    assert SlotData(s, op);
    forall k | |s.hist.effects| <= k < |t.hist.effects|
      ensures EffectSound(s, t.hist.effects[k]) && !t.hist.effects[k].Delivered?
    {
      PowerPrefixSound(s, op, k - |s.hist.effects|);
    }
    SlotPlan(s, t, i);
  }

  lemma PowerClearCore(s: Model, i: nat)
    requires Core(s) && i < |s.ops|
    ensures Core(PowerClear(s, i))
  {
    if Live(s.ops[i]) {
      PowerClearedCore(s, i);
    }
  }

  lemma PowerClearedCore(s: Model, i: nat)
    requires Core(s) && i < |s.ops| && Live(s.ops[i])
    ensures Core(PowerClear(s, i))
  {
    var t := PowerClear(s, i);
    PowerClearRelates(s, i);
    FreeKeeps(s, t, i);
    LostKeeps(s, t, i);
    PlanKeptKeeps(s, t);
    MovesKeep(s, t);
    PendingUpdate(s.ops, i, t.ops[i]);
  }

  lemma {:induction false} PowerClearAllCore(s: Model, i: nat, mediaOk: seq<bool>)
    requires Core(s) && i <= |s.ops| && forall j :: 0 <= j < i ==> s.ops[j].state.Free?
    ensures var (t, ok) := PowerClearAll(s, i, mediaOk);
            Core(t) && (ok ==> forall j :: 0 <= j < |t.ops| ==> t.ops[j].state.Free?)
    decreases |s.ops| - i
  {
    if i < |s.ops| && !PowerRefused(s, i, mediaOk) {
      PowerClearCore(s, i);
      PowerClearAllCore(PowerClear(s, i), i + 1, mediaOk);
    }
  }

  lemma PowerDownInv(s: Model)
    requires Core(s) && forall j :: 0 <= j < |s.ops| ==> s.ops[j].state.Free?
    ensures Inv(PowerDown(s))
  {
    var t := PowerDown(s);
    NonePending(t.ops);
    PowerDownRelates(s);
    QuietKeeps(s, t);
    KeptKeeps(s, t);
    PlanKeptKeeps(s, t);
    MovesKeep(s, t);
  }

  lemma PowerDownRelates(s: Model)
    requires Shaped(s) && forall j :: 0 <= j < |s.ops| ==> s.ops[j].state.Free?
    ensures var t := PowerDown(s);
            && Quiet(s, t) && BooksKept(s, t) && PlanKept(s, t) && DataMoves(s, t)
            && t.eventCount == 0 && t.ops == s.ops && t.hist == s.hist
            && (t.phase.PoweredOff? || t.phase.Faulted?)
  {
  }

  lemma PowerLossKeeps(s: Model, mediaOk: seq<bool>)
    requires Inv(s)
    ensures Inv(PowerLoss(s, mediaOk).0)
  {
    var (t, ok) := PowerClearAll(s, 0, mediaOk);
    PowerClearAllCore(s, 0, mediaOk);
    if ok {
      PowerDownInv(t);
    } else {
      CalmCore(t, t.(phase := Faulted));
    }
  }
}
