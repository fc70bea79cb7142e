/** Which completions of the controller its own codec accepts: all but those of successful erases. */
module NfcEncodable {
  import opened NfcTypes
  import opened NfcModel
  import opened NfcTimeline
  import opened NfcLedger
  import opened NfcExclusion
  import opened NfcData
  import opened NfcInvariant
  import opened NfcRuns
  import opened NfcTheorems
  import C = NfcCodec

  /** The media and the cache answer within the enumerations of their contracts. */
  predicate MediaRanged(answer: MediaAnswer)
  {
    && answer.physicalOutcome <= PHYS_APPLIED && answer.integrity <= INTEGRITY_TORN && answer.appliedRegionMask < 4
    && answer.blockHealth <= BLOCK_RUNTIME_BAD && answer.health <= BLOCK_RUNTIME_BAD && answer.reason <= REASON_INTERNAL
  }

  /** A completion the codec accepts as far as it does not depend on the regions found valid. */
  predicate Sound(c: Completion, mask: nat, kind: nat)
  {
    && c.version == CONTRACT_VERSION && c.size == COMPLETION_SIZE
    && c.reserved0 == c.reserved1 == c.reserved20 == c.reserved21 == 0 && c.ppa.reserved == 0 && c.cache.reserved == 0
    && C.OperationValid(c.operation) && c.terminal <= TERMINAL_FAILED && c.physicalOutcome <= PHYS_APPLIED
    && c.integrity <= INTEGRITY_TORN && c.reason <= REASON_INTERNAL && c.eccStatus <= ECC_UNCORRECTABLE
    && c.requestedRegionMask == mask < 4 && c.appliedRegionMask < 4
    && c.blockHealth <= BLOCK_RUNTIME_BAD && c.operationKind == kind <= STATUS
  }

  /** What an operation's completion holds from acceptance until the operation ends. */
  predicate Prepared(op: Op)
  {
    && Sound(op.completion, op.request.regionMask, op.request.kind) && op.completion.validRegionMask == 0
    && (op.request.kind == ERASE ==> op.request.regionMask == 0) && op.legality <= REASON_INTERNAL
  }

  lemma AcceptPrepares(cfg: Config, nonce: nat, epoch: nat, now: nat, sequence: nat, r: Request, buffers: BufferAnswer)
    requires nonce > 0 && epoch > 0 && RequestShapeValid(cfg, nonce, epoch, r)
    ensures Prepared(AcceptedOp(cfg, now, sequence, r, buffers))
  {
  }

  lemma BeginPrepares(at: Site, op: Op, answer: MediaAnswer)
    requires Prepared(op) && MediaRanged(answer) && at.cache.eccStatus <= ECC_UNCORRECTABLE
    ensures Prepared(PreflightAt(at, op, answer))
  {
    var o := op.(completion := op.completion.(beginTick := at.now, statusTick := op.finishTick,
                                              outcomeTick := op.finishTick));
    assert Prepared(o);
    ReadsPrepare(at, o, answer);
    ProgramPrepares(at, o, answer);
  }

  lemma ReadsPrepare(at: Site, op: Op, answer: MediaAnswer)
    requires Prepared(op) && MediaRanged(answer) && at.cache.eccStatus <= ECC_UNCORRECTABLE
    ensures Prepared(BeginReadTrigger(at.cfg, op, answer)) && Prepared(BeginReadTransfer(at, op))
  {
  }

  lemma ProgramPrepares(at: Site, op: Op, answer: MediaAnswer)
    requires Prepared(op) && MediaRanged(answer)
    ensures Prepared(BeginProgramExecute(at, op, answer)) && Prepared(BeginErase(at.cfg, op, answer))
  {
  }

  /** The operation's completion can be encoded, but for the regions of a successful erase. */
  predicate EndsWell(op: Op, o: Op)
  {
    && Sound(o.completion, op.request.regionMask, op.request.kind)
    && o.completion.validRegionMask ==
         (if op.request.kind == ERASE && o.completion.terminal == TERMINAL_SUCCESS then 3
          else if o.completion.terminal == TERMINAL_SUCCESS && op.request.kind != STATUS then op.request.regionMask
          else 0)
  }

  lemma TransfersEnd(at: Site, op: Op, answer: MediaAnswer)
    requires RequestPlaced(at.cfg, op.request) && Prepared(op) && MediaRanged(answer)
    requires at.cache.eccStatus <= ECC_UNCORRECTABLE
    ensures op.request.kind == READ_TRIGGER && FinishReadTrigger(at, op).ok ==>
      EndsWell(op, FinishReadTrigger(at, op).op)
    ensures op.request.kind == PROGRAM_TRANSFER && FinishProgramTransfer(at, op).ok ==>
              EndsWell(op, FinishProgramTransfer(at, op).op)
    ensures op.request.kind == READ_TRANSFER && FinishReadTransfer(at, op, answer).ok ==>
              EndsWell(op, FinishReadTransfer(at, op, answer).op)
  {
  }

  lemma MediaEnds(op: Op, answer: MediaAnswer, complete: bool, validMask: nat, otherwise: nat)
    requires Prepared(op) && MediaRanged(answer) && otherwise <= REASON_INTERNAL
    requires validMask == if op.request.kind == ERASE then 3 else op.request.regionMask
    requires op.request.kind == ERASE || op.request.kind == PROGRAM_EXECUTE
    ensures EndsWell(op, ApplyMediaResult(op, answer, complete, validMask, otherwise))
  {
  }

  lemma ProgramEnds(at: Site, op: Op, answer: MediaAnswer)
    requires RequestPlaced(at.cfg, op.request) && Prepared(op) && MediaRanged(answer)
    requires op.request.kind == PROGRAM_EXECUTE && FinishProgramExecute(at, op, answer).ok
    ensures EndsWell(op, FinishProgramExecute(at, op, answer).op)
  {
    MediaEnds(op, answer, op.faultClass.Clean?, op.request.regionMask, REASON_PROGRAM_FAILURE);
  }

  lemma EraseEnds(at: Site, op: Op, answer: MediaAnswer)
    requires Prepared(op) && MediaRanged(answer) && op.request.kind == ERASE && FinishErase(at, op, answer).ok
    ensures EndsWell(op, FinishErase(at, op, answer).op)
  {
    MediaEnds(op, answer, op.faultClass.Clean?, 3, REASON_ERASE_FAILURE);
  }

  lemma PlainEnds(op: Op, reason: nat)
    requires Prepared(op) && reason <= REASON_INTERNAL
    ensures EndsWell(op, Fail(op, reason)) && EndsWell(op, Cancelled(op))
    ensures op.request.kind == STATUS ==> EndsWell(op, Succeed(op))
  {
  }

  lemma ConcludeEndsWell(at: Site, op: Op, answer: MediaAnswer)
    requires RequestPlaced(at.cfg, op.request) && Prepared(op) && MediaRanged(answer)
    requires at.cache.eccStatus <= ECC_UNCORRECTABLE && ConcludeAt(at, op, answer).ok
    ensures EndsWell(op, ConcludeAt(at, op, answer).op)
  {
    PlainEnds(op, REASON_RESET);
    PlainEnds(op, op.legality);
    if op.legality == 0 && op.request.kind == PROGRAM_EXECUTE { ProgramEnds(at, op, answer); }
    else if op.legality == 0 && op.request.kind == ERASE { EraseEnds(at, op, answer); }
    else { TransfersEnd(at, op, answer); }
  }

  /** The codec accepts the completion exactly when it is not that of a successful erase. */
  predicate EncodesUnlessErased(c: Completion)
  {
    C.CompletionValid(c) == C.Ok <==> !(c.operationKind == ERASE && c.terminal == TERMINAL_SUCCESS)
  }

  lemma ConclusionEncodes(at: Site, op: Op, answer: MediaAnswer, now: nat)
    requires RequestPlaced(at.cfg, op.request) && Prepared(op) && MediaRanged(answer)
    requires at.cache.eccStatus <= ECC_UNCORRECTABLE && ConcludeAt(at, op, answer).ok
    ensures EncodesUnlessErased(FinishedOp(ConcludeAt(at, op, answer).op, now).completion)
  {
    ConcludeEndsWell(at, op, answer);
    WellIsEncodable(op, ConcludeAt(at, op, answer).op, now);
  }

  lemma WellIsEncodable(op: Op, o: Op, now: nat)
    requires Prepared(op) && EndsWell(op, o)
    ensures EncodesUnlessErased(FinishedOp(o, now).completion)
  {
  }

  // ---------------------------------------------------------------- runs

  predicate SlotFit(op: Op)
  {
    && (Live(op) && !op.state.EventPending? ==> Prepared(op))
    && (op.state.EventPending? ==> EncodesUnlessErased(op.completion))
  }

  predicate CachesFit(caches: seq<PlaneCache>)
  {
    forall p :: 0 <= p < |caches| ==> caches[p].eccStatus <= ECC_UNCORRECTABLE
  }

  predicate ReportsFit(reports: seq<Completion>)
  {
    forall k :: 0 <= k < |reports| ==> EncodesUnlessErased(reports[k])
  }

  predicate Fit(s: Model)
  {
    && s.nonce > 0 && s.epoch > 0 && CachesFit(s.caches) && ReportsFit(s.hist.reports)
    && forall i :: 0 <= i < |s.ops| ==> SlotFit(s.ops[i])
  }

  /** What is neither begun nor ended keeps its completion. */
  predicate FitAlike(a: Op, b: Op)
  {
    || b.state.Free?
    || (&& Live(a) && b.completion == a.completion && b.request == a.request && b.legality == a.legality
        && b.state.EventPending? == a.state.EventPending?)
  }

  lemma AlikeFit(s: Model, t: Model)
    requires Fit(s) && t.nonce == s.nonce && t.epoch >= s.epoch && t.hist.reports == s.hist.reports
    requires |t.ops| == |s.ops|
    requires |t.caches| == |s.caches|
    requires forall p :: 0 <= p < |s.caches| ==> t.caches[p].eccStatus == s.caches[p].eccStatus
    requires forall i :: 0 <= i < |s.ops| ==> FitAlike(s.ops[i], t.ops[i]) || t.ops[i] == s.ops[i]
    ensures Fit(t)
  {
    forall i | 0 <= i < |t.ops| ensures SlotFit(t.ops[i]) {
      assert SlotFit(s.ops[i]) && (FitAlike(s.ops[i], t.ops[i]) || t.ops[i] == s.ops[i]);
    }
  }

  lemma SlotKeepsFit(s: Model, t: Model, i: nat)
    requires Fit(s) && SlotOnly(s, t, i) && SlotFit(t.ops[i]) && t.nonce == s.nonce && t.epoch == s.epoch
    requires CachesFit(t.caches) && ReportsFit(t.hist.reports)
    ensures Fit(t)
  {
    forall j | 0 <= j < |t.ops| ensures SlotFit(t.ops[j]) { assert SlotFit(s.ops[j]); }
  }

  lemma SubmitFit(s: Model, r: Request, buffers: BufferAnswer)
    requires Shaped(s) && Fit(s)
    ensures Fit(TrySubmit(s, r, buffers).0)
  {
    var (t, result) := TrySubmit(s, r, buffers);
    if t != s {
      var i := FreeOperation(s.ops, 0).value;
      if result.Accepted? { AcceptPrepares(s.cfg, s.nonce, s.epoch, s.now, s.nextSubmit, r, buffers); }
      SlotKeepsFit(s, t, i);
    }
  }

  lemma BegunFit(cfg: Config, nextArray: nat, o: Op)
    requires Prepared(o) && o.startTick <= o.finishTick
    ensures Prepared(BegunOp(cfg, nextArray, o))
  {
  }

  lemma BeginFit(s: Model, i: nat, answer: MediaAnswer)
    requires Shaped(s) && Fit(s) && i < |s.ops| && s.ops[i].state.Scheduled? && MediaRanged(answer)
    ensures Fit(Begin(s, i, answer))
  {
    var t := Begin(s, i, answer);
    var o := Preflight(s, s.ops[i], answer);
    assert SlotFit(s.ops[i]);
    BeginPrepares(SiteOf(s, s.ops[i].request), s.ops[i], answer);
    BegunFit(s.cfg, s.nextArray, o);
    assert t.ops[i] == o || t.ops[i] == BegunOp(s.cfg, s.nextArray, o);
    SlotKeepsFit(s, t, i);
  }

  /** What a conclusion leaves in the cache, and in the operation when it fails. */
  lemma ConcludeCache(at: Site, op: Op, answer: MediaAnswer)
    requires RequestPlaced(at.cfg, op.request) && Prepared(op) && at.cache.eccStatus <= ECC_UNCORRECTABLE
    ensures ConcludeAt(at, op, answer).cache.eccStatus <= ECC_UNCORRECTABLE
    ensures !ConcludeAt(at, op, answer).ok ==> ConcludeAt(at, op, answer).op == op
  {
  }

  lemma FinishFit(s: Model, i: nat, answer: MediaAnswer)
    requires Shaped(s) && Fit(s) && i < |s.ops| && s.ops[i].state.Running? && MediaRanged(answer)
    requires s.eventCount < s.cfg.capacity.terminalEvents
    ensures Fit(Finish(s, i, answer))
  {
    var op, at := s.ops[i], SiteOf(s, s.ops[i].request);
    assert SlotFit(op);
    ConcludeCache(at, op, answer);
    if ConcludeAt(at, op, answer).ok { ConclusionEncodes(at, op, answer, s.now); }
    FinishedFit(s, i, ConcludeAt(at, op, answer));
  }

  lemma FinishedFit(s: Model, i: nat, out: Outcome)
    requires Shaped(s) && Fit(s) && i < |s.ops| && s.ops[i].state.Running? && ConcludeFrame(s.ops[i], out.op)
    requires out.cache.eccStatus <= ECC_UNCORRECTABLE && (!out.ok ==> out.op == s.ops[i])
    requires out.ok ==> EncodesUnlessErased(FinishedOp(out.op, s.now).completion)
    requires s.eventCount < s.cfg.capacity.terminalEvents
    ensures Fit(FinishWith(s, i, out))
  {
    assert SlotFit(s.ops[i]);
    SlotKeepsFit(s, FinishWith(s, i, out), i);
  }

  lemma RunUnitFit(s: Model, i: nat, answer: MediaAnswer)
    requires Working(s) && Fit(s) && i < |s.ops| && s.ops[i].state.Running? && MediaRanged(answer)
    ensures Fit(RunUnit(s, i, answer).0)
  {
    if s.ops[i].unitIndex + 1 == s.ops[i].unitCount {
      var m := AfterUnit(s, i);
      LastUnitRelates(s, i, answer);
      PendingUpdate(s.ops, i, m.ops[i]);
      PendingBound(m.ops, i);
      AfterUnitFit(s, i);
      FinishFit(m, i, answer);
    } else {
      UnitGoesOnFit(s, i, answer);
    }
  }

  lemma AfterUnitFit(s: Model, i: nat)
    requires Fit(s) && i < |s.ops| && s.ops[i].state.Running?
    ensures Fit(AfterUnit(s, i))
  {
    AlikeFit(s, AfterUnit(s, i));
  }

  lemma UnitGoesOnFit(s: Model, i: nat, answer: MediaAnswer)
    requires Shaped(s) && Fit(s) && i < |s.ops| && s.ops[i].state.Running?
    requires s.ops[i].unitIndex + 1 < s.ops[i].unitCount
    ensures Fit(RunUnit(s, i, answer).0)
  {
    var t := RunUnit(s, i, answer).0;
    assert t.ops == s.ops[i := t.ops[i]];
    AlikeFit(s, t);
  }

  lemma ScheduleFit(s: Model, i: nat)
    requires Shaped(s) && Fit(s) && i < |s.ops| && s.ops[i].state.Queued?
    ensures Fit(Schedule(s, i)) && Fit(s.(phase := Faulted))
  {
    AlikeFit(s, Schedule(s, i));
    AlikeFit(s, s.(phase := Faulted));
  }

  lemma TickFit(s: Model, now: nat)
    requires Fit(s)
    ensures Fit(s.(now := now))
  {
    AlikeFit(s, s.(now := now));
  }

  lemma StepUnitFit(s: Model, answer: MediaAnswer)
    requires Working(s) && Fit(s) && MediaRanged(answer)
    ensures Fit(StepUnit(s, answer).0)
  {
    var next := NextOperation(s.ops, |s.ops|);
    if next.Some? {
      var i := next.value;
      if s.ops[i].nextTick > s.now { TickFit(s, s.ops[i].nextTick); }
      else if s.ops[i].state.Queued? { ScheduleFit(s, i); }
      else if s.ops[i].state.Scheduled? { BeginFit(s, i, answer); }
      else { RunUnitFit(s, i, answer); }
    }
  }

  predicate AnswersRanged(answers: seq<MediaAnswer>) { forall k :: 0 <= k < |answers| ==> MediaRanged(answers[k]) }

  lemma {:induction false} StepLoopFit(s: Model, answers: seq<MediaAnswer>)
    requires Working(s) && Fit(s) && AnswersRanged(answers)
    ensures Fit(StepLoop(s, answers).0)
    decreases |answers|
  {
    if answers != [] {
      StepUnitInv(s, answers[0]);
      StepUnitFit(s, answers[0]);
      if StepUnit(s, answers[0]).1.Used? {
        StepLoopFit(StepUnit(s, answers[0]).0, answers[1..]);
      }
    }
  }

  lemma PollOneFit(s: Model)
    requires Shaped(s) && Fit(s)
    ensures Fit(PollOne(s))
  {
    var next := NextEvent(s.ops, |s.ops|);
    if next.Some? {
      assert SlotFit(s.ops[next.value]);
      SlotKeepsFit(s, PollOne(s), next.value);
    }
  }

  lemma {:induction false} PollFit(s: Model, budget: nat)
    requires Shaped(s) && Fit(s)
    ensures Fit(Poll(s, budget))
    decreases budget
  {
    if budget != 0 {
      PollOneFit(s);
      PollFit(PollOne(s), budget - 1);
    }
  }

  lemma {:induction false} PowerClearAllFit(s: Model, i: nat, mediaOk: seq<bool>)
    requires Shaped(s) && Fit(s) && i <= |s.ops|
    ensures Fit(PowerClearAll(s, i, mediaOk).0)
    decreases |s.ops| - i
  {
    if i < |s.ops| && !PowerRefused(s, i, mediaOk) {
      AlikeFit(s, PowerClear(s, i));
      PowerClearAllFit(PowerClear(s, i), i + 1, mediaOk);
    }
  }

  lemma PowerLossFit(s: Model, mediaOk: seq<bool>)
    requires Shaped(s) && Fit(s)
    ensures Fit(PowerLoss(s, mediaOk).0)
  {
    PowerClearAllFit(s, 0, mediaOk);
    AlikeFit(PowerClearAll(s, 0, mediaOk).0, PowerLoss(s, mediaOk).0);
  }

  lemma ResetFit(s: Model, nonce: nat, oldEpoch: nat)
    requires Shaped(s) && Fit(s)
    ensures Fit(ResetBegin(s, nonce, oldEpoch).0)
  {
    var (t, result) := ResetBegin(s, nonce, oldEpoch);
    ResetShape(s, nonce, oldEpoch);
    if !result.InvalidContract? { AlikeFit(s, t); }
  }

  lemma CancelFit(s: Model, token: OperationToken)
    requires Shaped(s) && Fit(s)
    ensures Fit(Cancel(s, token).0)
  {
    AlikeFit(s, Cancel(s, token).0);
  }

  lemma QuiescentFit(s: Model, nonce: nat, oldEpoch: nat)
    requires Shaped(s) && Fit(s)
    ensures Fit(Quiescent(s, nonce, oldEpoch).0)
  {
    AlikeFit(s, Quiescent(s, nonce, oldEpoch).0);
  }

  lemma StepFit(s: Model, answers: seq<MediaAnswer>)
    requires Inv(s) && Fit(s) && AnswersRanged(answers)
    ensures Fit(Step(s, answers).0)
  {
    if answers != [] && (s.phase.Ready? || s.phase.ResetDrain?) { StepLoopFit(s, answers); }
  }

  predicate ActionRanged(a: Action) { a.Advance? ==> AnswersRanged(a.answers) }

  lemma ActFit(s: Model, a: Action)
    requires Inv(s) && Fit(s) && ActionRanged(a)
    ensures Fit(Act(s, a))
  {
    match a
    case Submit(r, buffers) => SubmitFit(s, r, buffers);
    case CancelOp(token) => CancelFit(s, token);
    case Advance(answers) => StepFit(s, answers);
    case Collect(budget) => PollFit(s, budget);
    case Reset(nonce, oldEpoch) => ResetFit(s, nonce, oldEpoch);
    case CheckQuiescent(nonce, oldEpoch) => QuiescentFit(s, nonce, oldEpoch);
    case CutPower(mediaOk) => PowerLossFit(s, mediaOk);
  }

  lemma {:induction false} RunFit(s: Model, run: seq<Action>)
    requires Inv(s) && Fit(s) && forall k :: 0 <= k < |run| ==> ActionRanged(run[k])
    ensures Fit(Exec(s, run))
    decreases |run|
  {
    if run != [] {
      ActKeeps(s, run[0]);
      ActFit(s, run[0]);
      RunFit(Act(s, run[0]), run[1..]);
    }
  }

  /**
   In every run whose media answers inside its enumerations, every completion that is reported or
   waits to be reported passes the codec exactly when it is not that of a successful erase.
   */
  lemma CompletionsEncode(cfg: Config, nonce: nat, run: seq<Action>)
    requires ConfigValid(cfg) && nonce > 0 && forall k :: 0 <= k < |run| ==> ActionRanged(run[k])
    ensures var s := Exec(Initial(cfg, nonce), run);
      && ReportsFit(s.hist.reports)
      && forall i :: 0 <= i < |s.ops| && s.ops[i].state.EventPending? ==> EncodesUnlessErased(s.ops[i].completion)
  {
    InitialInv(cfg, nonce);
    RunFit(Initial(cfg, nonce), run);
    var s := Exec(Initial(cfg, nonce), run);
    forall i | 0 <= i < |s.ops| ensures SlotFit(s.ops[i]) { }
  }
}
