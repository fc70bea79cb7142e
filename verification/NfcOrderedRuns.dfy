/** Cache tokens in runs whose priorities do not invert submission order between related operations. */
module NfcOrderedRuns {
  import opened NfcTypes
  import opened NfcModel
  import opened NfcTimeline
  import opened NfcLedger
  import opened NfcExclusion
  import opened NfcData
  import opened NfcInOrder
  import opened NfcInvariant
  import opened NfcRuns

  ghost predicate Ordered(s: Model, all: bool) { Sorted(s, all) && Once(s) }

  /** Nothing becomes queued or starts to run, and no effect is added. */
  ghost predicate OrderQuiet(s: Model, t: Model) { SortedQuiet(s, t) && OnceQuiet(s, t) }

  lemma QuietOrdered(s: Model, t: Model, all: bool)
    requires Ordered(s, all) && OrderQuiet(s, t)
    ensures Ordered(t, all)
  {
    SortedQuietKeeps(s, t, all);
    OnceQuietKeeps(s, t);
  }

  // ---------------------------------------------------------------- units of work

  lemma ScheduleOrdered(s: Model, i: nat, all: bool)
    requires Working(s) && Ordered(s, all) && Foremost(s.ops, |s.ops|, i) && s.ops[i].state.Queued?
    requires !Unschedulable(s, s.ops[i].request)
    ensures Ordered(Schedule(s, i), all)
  {
    var t, v := Schedule(s, i), ReservationOf(s, s.ops[i]);
    assert SlotTimed(s.ops[i], s.now, s.nextSubmit);
    ScheduleRelates(s, i);
    SortedReserveKeeps(s, t, i, v, all);
    OnceQuietKeeps(s, t);
  }

  lemma BeginOrdered(s: Model, i: nat, answer: MediaAnswer, all: bool)
    requires Working(s) && Ordered(s, all) && i < |s.ops| && s.ops[i].state.Scheduled? && s.ops[i].nextTick <= s.now
    ensures Ordered(Begin(s, i, answer), all)
  {
    var t := Begin(s, i, answer);
    assert SlotTimed(s.ops[i], s.now, s.nextSubmit) && SlotFresh(s, s.ops[i]);
    BeginSlot(s, i, answer);
    BegunOrdered(s, i, answer, t, all);
  }

  lemma BegunOrdered(s: Model, i: nat, answer: MediaAnswer, t: Model, all: bool)
    requires Shaped(s) && Ordered(s, all) && AllSpent(s) && i < |s.ops| && s.ops[i].state.Scheduled?
    requires s.ops[i].nextTick <= s.now
    requires SlotTimed(s.ops[i], s.now, s.nextSubmit) && SlotFresh(s, s.ops[i])
    requires t == Begin(s, i, answer) && SlotOnly(s, t, i) && SameSetting(s, t) && t.hist.reserved == s.hist.reserved
    ensures Ordered(t, all)
  {
    assert !t.ops[i].state.Queued?;
    SortedQuietKeeps(s, t, all);
    if t.ops[i].state.Running? {
      BeginRelates(s, i, answer);
      OnceBeginKeeps(s, t, i);
    } else {
      OnceQuietKeeps(s, t);
    }
  }

  lemma UnitOrdered(s: Model, i: nat, answer: MediaAnswer, all: bool)
    requires Shaped(s) && Ordered(s, all) && i < |s.ops| && s.ops[i].state.Running?
    requires s.ops[i].unitIndex + 1 < s.ops[i].unitCount
    ensures Ordered(RunUnit(s, i, answer).0, all)
  {
    var t := RunUnit(s, i, answer).0;
    UnitRelates(s, i, answer);
    QuietOrdered(s, t, all);
  }

  lemma EndOrdered(s: Model, i: nat, answer: MediaAnswer, all: bool)
    requires Working(s) && Ordered(s, all) && i < |s.ops| && s.ops[i].state.Running?
    requires s.ops[i].unitIndex + 1 == s.ops[i].unitCount
    ensures Ordered(RunUnit(s, i, answer).0, all)
  {
    var m := AfterUnit(s, i);
    var t := RunUnit(s, i, answer).0;
    InOrderRunApart(s, all);
    LastUnitRelates(s, i, answer);
    FinishRelates(m, i, answer);
    ConcludeCases(m, m.ops[i], answer);
    PendingUpdate(s.ops, i, m.ops[i]);
    PendingBound(m.ops, i);
    EndedOrdered(s, m, t, i, Conclude(m, m.ops[i], answer), all);
  }

  lemma EndedOrdered(s: Model, m: Model, t: Model, i: nat, out: Outcome, all: bool)
    requires Shaped(s) && Data(s) && AllSpent(s) && Ordered(s, all) && RunApart(s, all)
    requires Shaped(m) && i < |s.ops| && s.ops[i].state.Running? && UnitCounted(s, m, i)
    requires FinishFrame(m, t, i, out) && (FinishRefused(m, out) <==> !out.ok)
    requires ConcludesQuietly(m, m.ops[i], out) || ConcludesMinting(m, m.ops[i], out)
    ensures Ordered(t, all)
  {
    assert t.ops == s.ops[i := t.ops[i]];
    assert SortedQuiet(s, t);
    SortedQuietKeeps(s, t, all);
    if out.effects == [] {
      OnceQuietKeeps(s, t);
    } else {
      EndedOnce(s, m, t, i, out.effects[0], all);
    }
  }

  lemma EndedOnce(s: Model, m: Model, t: Model, i: nat, e: Effect, all: bool)
    requires Shaped(s) && Data(s) && Once(s) && AllSpent(s) && RunApart(s, all)
    requires Shaped(m) && i < |s.ops| && s.ops[i].state.Running? && UnitCounted(s, m, i)
    requires SlotOnly(s, t, i) && t.cfg == s.cfg && t.hist.effects == s.hist.effects + [e]
    requires t.ops[i].state.EventPending?
    requires EffectOf(m, m.ops[i], e)
    ensures Once(t)
  {
    if e.Delivered? {
      assert CacheBacked(s, e.plane);
      forall k | 0 <= k < |s.hist.effects| ensures !Uses(s.hist.effects[k], e.plane, e.generation) {
        assert SpentAt(s.caches, s.hist.effects[k]);
      }
    }
    OnceEffectKeeps(s, t, i, e, all);
  }

  lemma ServeOrdered(s: Model, i: nat, answer: MediaAnswer, all: bool)
    requires Working(s) && Ordered(s, all) && Foremost(s.ops, |s.ops|, i) && s.ops[i].nextTick <= s.now
    ensures Ordered(Serve(s, i, answer).0, all)
  {
    if s.ops[i].state.Queued? {
      if Unschedulable(s, s.ops[i].request) {
        QuietOrdered(s, s.(phase := Faulted), all);
      } else {
        ScheduleOrdered(s, i, all);
      }
    } else if s.ops[i].state.Scheduled? {
      BeginOrdered(s, i, answer, all);
    } else if s.ops[i].unitIndex + 1 < s.ops[i].unitCount {
      UnitOrdered(s, i, answer, all);
    } else {
      EndOrdered(s, i, answer, all);
    }
  }

  ghost predicate Due(s: Model)
  {
    var next := NextOperation(s.ops, |s.ops|); next.Some? && s.ops[next.value].nextTick <= s.now
  }

  /** Nothing is due: the clock moves, or nothing does. */
  lemma TickOrdered(s: Model, answer: MediaAnswer, all: bool)
    requires Shaped(s) && Ordered(s, all) && !Due(s)
    ensures Ordered(StepUnit(s, answer).0, all)
  {
    QuietOrdered(s, StepUnit(s, answer).0, all);
  }

  lemma DueOrdered(s: Model, answer: MediaAnswer, all: bool)
    requires Working(s) && Ordered(s, all) && Due(s)
    ensures Ordered(StepUnit(s, answer).0, all)
  {
    ServeOrdered(s, NextOperation(s.ops, |s.ops|).value, answer, all);
  }

  lemma StepUnitOrdered(s: Model, answer: MediaAnswer, all: bool)
    requires Working(s) && Ordered(s, all)
    ensures Ordered(StepUnit(s, answer).0, all)
  {
    if Due(s) { DueOrdered(s, answer, all); } else { TickOrdered(s, answer, all); }
  }

  lemma {:induction false} StepLoopOrdered(s: Model, answers: seq<MediaAnswer>, all: bool)
    requires Working(s) && Ordered(s, all)
    ensures Ordered(StepLoop(s, answers).0, all)
    decreases |answers|
  {
    if answers != [] {
      StepUnitInv(s, answers[0]);
      StepUnitOrdered(s, answers[0], all);
      if StepUnit(s, answers[0]).1.Used? {
        StepLoopOrdered(StepUnit(s, answers[0]).0, answers[1..], all);
      }
    }
  }

  lemma StepOrdered(s: Model, answers: seq<MediaAnswer>, all: bool)
    requires Inv(s) && Ordered(s, all)
    ensures Ordered(Step(s, answers).0, all)
  {
    if answers != [] && (s.phase.Ready? || s.phase.ResetDrain?) {
      StepLoopOrdered(s, answers, all);
    }
  }

  // ---------------------------------------------------------------- the other entries

  lemma SubmitOrdered(s: Model, r: Request, buffers: BufferAnswer, all: bool)
    requires Shaped(s) && Exclusion(s) && SlotsTimed(s) && Ordered(s, all)
    requires TrySubmit(s, r, buffers).1.Accepted? ==> NotInverting(s, all, r)
    ensures Ordered(TrySubmit(s, r, buffers).0, all)
  {
    var (t, result) := TrySubmit(s, r, buffers);
    if t != s {
      var i := FreeOperation(s.ops, 0).value;
      OnceQuietKeeps(s, t);
      if result.Accepted? {
        assert PlanAccepts(s, t, i);
        SortedAcceptKeeps(s, t, i, all, Acceptance(r, CapturedPage(s.cfg, r, buffers)));
      } else {
        SortedQuietKeeps(s, t, all);
      }
    }
  }

  lemma CancelOrdered(s: Model, token: OperationToken, all: bool)
    requires Shaped(s) && Ordered(s, all)
    ensures Ordered(Cancel(s, token).0, all)
  {
    QuietOrdered(s, Cancel(s, token).0, all);
  }

  lemma PollOneOrdered(s: Model, all: bool)
    requires Shaped(s) && Ordered(s, all)
    ensures Ordered(PollOne(s), all)
  {
    QuietOrdered(s, PollOne(s), all);
  }

  lemma {:induction false} PollOrdered(s: Model, budget: nat, all: bool)
    requires Shaped(s) && Ordered(s, all)
    ensures Ordered(Poll(s, budget), all)
    decreases budget
  {
    if budget != 0 {
      PollOneOrdered(s, all);
      PollOrdered(PollOne(s), budget - 1, all);
    }
  }

  lemma ResetOrdered(s: Model, nonce: nat, oldEpoch: nat, all: bool)
    requires Shaped(s) && Ordered(s, all)
    ensures Ordered(ResetBegin(s, nonce, oldEpoch).0, all)
  {
    var (t, result) := ResetBegin(s, nonce, oldEpoch);
    ResetShape(s, nonce, oldEpoch);
    if !result.InvalidContract? {
      QuietOrdered(s, t, all);
    }
  }

  lemma QuiescentOrdered(s: Model, nonce: nat, oldEpoch: nat, all: bool)
    requires Shaped(s) && Ordered(s, all)
    ensures Ordered(Quiescent(s, nonce, oldEpoch).0, all)
  {
    QuietOrdered(s, Quiescent(s, nonce, oldEpoch).0, all);
  }

  lemma PowerClearOrdered(s: Model, i: nat, all: bool)
    requires Core(s) && Ordered(s, all) && i < |s.ops|
    ensures Ordered(PowerClear(s, i), all)
  {
    var t := PowerClear(s, i);
    if Live(s.ops[i]) {
      SortedQuietKeeps(s, t, all);
      if t.hist.effects == s.hist.effects {
        OnceQuietKeeps(s, t);
      } else {
        InOrderRunApart(s, all);
        OnceEffectKeeps(s, t, i, PowerPrefix(s.cfg, s.ops[i])[0], all);
      }
    }
  }

  lemma {:induction false} PowerClearAllOrdered(s: Model, i: nat, mediaOk: seq<bool>, all: bool)
    requires Core(s) && Ordered(s, all) && i <= |s.ops|
    ensures Ordered(PowerClearAll(s, i, mediaOk).0, all)
    decreases |s.ops| - i
  {
    if i < |s.ops| && !PowerRefused(s, i, mediaOk) {
      PowerClearCore(s, i);
      PowerClearOrdered(s, i, all);
      PowerClearAllOrdered(PowerClear(s, i), i + 1, mediaOk, all);
    }
  }

  lemma PowerLossOrdered(s: Model, mediaOk: seq<bool>, all: bool)
    requires Inv(s) && Ordered(s, all)
    ensures Ordered(PowerLoss(s, mediaOk).0, all)
  {
    var (t, ok) := PowerClearAll(s, 0, mediaOk);
    PowerClearAllOrdered(s, 0, mediaOk, all);
    QuietOrdered(t, PowerLoss(s, mediaOk).0, all);
  }
}
