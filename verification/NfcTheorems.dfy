/** What the controller promises about whole runs, for every provider and every interleaving. */
module NfcTheorems {
  import opened NfcTypes
  import opened NfcModel
  import opened NfcTimeline
  import opened NfcLedger
  import opened NfcExclusion
  import opened NfcData
  import opened NfcInOrder
  import opened NfcInvariant
  import opened NfcRuns
  import opened NfcOrderedRuns
  import opened NfcProgress
  import opened NfcEffects

  // ---------------------------------------------------------------- runs

  datatype Action =
    | Submit(request: Request, buffers: BufferAnswer)
    | CancelOp(token: OperationToken)
    | Advance(answers: seq<MediaAnswer>)
    | Collect(budget: nat)
    | Reset(nonce: nat, oldEpoch: nat)
    | CheckQuiescent(nonce: nat, oldEpoch: nat)
    | CutPower(mediaOk: seq<bool>)

  ghost function Act(s: Model, a: Action): (t: Model)
    requires Shaped(s)
    ensures Shaped(t)
  {
    match a
    case Submit(r, buffers) => TrySubmit(s, r, buffers).0
    case CancelOp(token) => Cancel(s, token).0
    case Advance(answers) => Step(s, answers).0
    case Collect(budget) => Poll(s, budget)
    case Reset(nonce, oldEpoch) => ResetBegin(s, nonce, oldEpoch).0
    case CheckQuiescent(nonce, oldEpoch) => Quiescent(s, nonce, oldEpoch).0
    case CutPower(mediaOk) => PowerLoss(s, mediaOk).0
  }

  ghost function Exec(s: Model, run: seq<Action>): (t: Model)
    requires Shaped(s)
    ensures Shaped(t)
    decreases |run|
  {
    if run == [] then s else Exec(Act(s, run[0]), run[1..])
  }

  lemma InitialInv(cfg: Config, nonce: nat)
    requires ConfigValid(cfg)
    ensures Inv(Initial(cfg, nonce))
  {
    NonePending(Initial(cfg, nonce).ops);
  }

  lemma InitialOrdered(cfg: Config, nonce: nat, all: bool)
    requires ConfigValid(cfg)
    ensures Ordered(Initial(cfg, nonce), all)
  {
  }

  lemma ActKeeps(s: Model, a: Action)
    requires Inv(s)
    ensures Inv(Act(s, a))
  {
    match a
    case Submit(r, buffers) => SubmitKeeps(s, r, buffers);
    case CancelOp(token) => CancelKeeps(s, token);
    case Advance(answers) => StepKeeps(s, answers);
    case Collect(budget) => PollKeeps(s, budget);
    case Reset(nonce, oldEpoch) => ResetKeeps(s, nonce, oldEpoch);
    case CheckQuiescent(nonce, oldEpoch) => QuiescentKeeps(s, nonce, oldEpoch);
    case CutPower(mediaOk) => PowerLossKeeps(s, mediaOk);
  }

  lemma {:induction false} RunKeeps(s: Model, run: seq<Action>)
    requires Inv(s)
    ensures Inv(Exec(s, run))
    decreases |run|
  {
    if run != [] {
      ActKeeps(s, run[0]);
      RunKeeps(Act(s, run[0]), run[1..]);
    }
  }

  ghost predicate Reachable(s: Model)
  {
    exists cfg, nonce, run :: ConfigValid(cfg) && s == Exec(Initial(cfg, nonce), run)
  }

  lemma {:induction false} ExecOn(s: Model, run: seq<Action>, a: Action)
    requires Shaped(s)
    ensures Exec(s, run + [a]) == Act(Exec(s, run), a)
    decreases |run|
  {
    if run == [] {
      assert (run + [a])[1..] == [];
    } else {
      assert (run + [a])[0] == run[0] && (run + [a])[1..] == run[1..] + [a];
      ExecOn(Act(s, run[0]), run[1..], a);
    }
  }

  lemma InitialReached(cfg: Config, nonce: nat)
    requires ConfigValid(cfg)
    ensures Reachable(Initial(cfg, nonce))
  {
    assert Exec(Initial(cfg, nonce), []) == Initial(cfg, nonce);
  }

  /** One more call leads from a reachable state to a reachable one. */
  lemma ReachesOn(s: Model, a: Action)
    requires Shaped(s) && Reachable(s)
    ensures Reachable(Act(s, a))
  {
    var cfg, nonce, run :| ConfigValid(cfg) && s == Exec(Initial(cfg, nonce), run);
    ExecOn(Initial(cfg, nonce), run, a);
  }

  lemma ReachableInv(s: Model)
    requires Reachable(s)
    ensures Inv(s)
  {
    var cfg, nonce, run :| ConfigValid(cfg) && s == Exec(Initial(cfg, nonce), run);
    InitialInv(cfg, nonce);
    RunKeeps(Initial(cfg, nonce), run);
  }

  // ---------------------------------------------------------------- time

  /** No busy operation is due in the past, and each ran exactly over its reservation. */
  lemma ClockTheorem(s: Model)
    requires Reachable(s)
    ensures forall i :: 0 <= i < |s.ops| && Busy(s.ops[i]) ==> s.now <= s.ops[i].nextTick <= s.ops[i].finishTick
    ensures forall i :: 0 <= i < |s.ops| && s.ops[i].state.Running? ==>
      s.ops[i].completion.beginTick == s.ops[i].startTick
    ensures forall k :: 0 <= k < |s.hist.reports| ==> ReportPlaced(s, s.hist.reports[k])
    ensures forall a :: a in s.hist.reserved && LimitHolds(s.cfg) ==>
                        s.hist.reserved[a].finish <= s.cfg.capacity.virtualTickLimit
  {
    ReachableInv(s);
    forall i | 0 <= i < |s.ops| && Busy(s.ops[i]) ensures s.now <= s.ops[i].nextTick <= s.ops[i].finishTick {
      BusyDue(s, i);
    }
    forall i | 0 <= i < |s.ops| && s.ops[i].state.Running?
      ensures s.ops[i].completion.beginTick == s.ops[i].startTick
    {
      BusyDue(s, i);
    }
    forall a | a in s.hist.reserved && LimitHolds(s.cfg)
      ensures s.hist.reserved[a].finish <= s.cfg.capacity.virtualTickLimit
    {
      assert WellPlaced(s, s.hist.reserved[a]);
    }
  }

  lemma BusyDue(s: Model, i: nat)
    requires Timeline(s) && i < |s.ops| && Busy(s.ops[i])
    ensures s.now <= s.ops[i].nextTick <= s.ops[i].finishTick
    ensures s.ops[i].state.Running? ==> s.ops[i].completion.beginTick == s.ops[i].startTick
  {
    var op := s.ops[i];
    assert SlotTimed(op, s.now, s.nextSubmit);
    if op.state.Running? {
      UnitTickBounds(op.startTick, op.finishTick, DueIndex(op), op.unitCount);
    }
  }

  // ---------------------------------------------------------------- reports

  /** The completions poll has returned so far are strictly increasing in (status tick, sequence). */
  lemma ReportOrderTheorem(s: Model)
    requires Reachable(s)
    ensures ReportsIncreasing(s.hist.reports)
  {
    ReachableInv(s);
  }

  /** A later state of a run: the clock and the epoch have not gone back and no record is lost. */
  ghost predicate Later(s: Model, t: Model)
  {
    && s.now <= t.now && s.epoch <= t.epoch && s.cfg == t.cfg
    && s.hist.reports <= t.hist.reports && s.hist.lost <= t.hist.lost
    && forall a :: a in s.hist.accepted ==> a in t.hist.accepted && t.hist.accepted[a] == s.hist.accepted[a]
  }

  lemma ServeClock(s: Model, i: nat, answer: MediaAnswer)
    requires Shaped(s) && i < |s.ops| && Candidate(s.ops[i]) && SlotTimed(s.ops[i], s.now, s.nextSubmit)
    requires s.ops[i].nextTick <= s.now
    ensures Serve(s, i, answer).0.now == s.now
  {
    var op := s.ops[i];
    if op.state.Scheduled? {
      BeginSlot(s, i, answer);
    } else if op.state.Running? && op.unitIndex + 1 < op.unitCount {
      UnitRelates(s, i, answer);
    } else if op.state.Running? && op.unitIndex + 1 == op.unitCount {
      UnitTickBounds(op.startTick, op.finishTick, op.unitIndex, op.unitCount);
      LastUnitRelates(s, i, answer);
      FinishRelates(AfterUnit(s, i), i, answer);
    }
  }

  lemma StepUnitLater(s: Model, answer: MediaAnswer)
    requires Shaped(s) && SlotsTimed(s)
    ensures Later(s, StepUnit(s, answer).0)
  {
    var next := NextOperation(s.ops, |s.ops|);
    StepUnitFrame(s, answer);
    if next.Some? && s.ops[next.value].nextTick <= s.now {
      ServeClock(s, next.value, answer);
    }
  }

  lemma {:induction false} StepLoopLater(s: Model, answers: seq<MediaAnswer>)
    requires Working(s)
    ensures Later(s, StepLoop(s, answers).0)
    decreases |answers|
  {
    if answers != [] {
      StepUnitInv(s, answers[0]);
      StepUnitLater(s, answers[0]);
      if StepUnit(s, answers[0]).1.Used? {
        StepLoopLater(StepUnit(s, answers[0]).0, answers[1..]);
      }
    }
  }

  lemma SubmitLater(s: Model, r: Request, buffers: BufferAnswer)
    requires Shaped(s) && forall a :: a in s.hist.accepted ==> a < s.nextSubmit
    ensures Later(s, TrySubmit(s, r, buffers).0)
  {
  }

  lemma {:induction false} PollLater(s: Model, budget: nat)
    requires Shaped(s)
    ensures Later(s, Poll(s, budget))
    decreases budget
  {
    if budget != 0 {
      PollLater(PollOne(s), budget - 1);
    }
  }

  lemma {:induction false} PowerClearLater(s: Model, i: nat, mediaOk: seq<bool>)
    requires Shaped(s) && i <= |s.ops|
    ensures Later(s, PowerClearAll(s, i, mediaOk).0)
    decreases |s.ops| - i
  {
    if i < |s.ops| && !PowerRefused(s, i, mediaOk) {
      PowerClearLater(PowerClear(s, i), i + 1, mediaOk);
    }
  }

  lemma CancelLater(s: Model, token: OperationToken)
    requires Shaped(s)
    ensures Later(s, Cancel(s, token).0)
  {
  }

  lemma QuiescentLater(s: Model, nonce: nat, oldEpoch: nat)
    requires Shaped(s)
    ensures Later(s, Quiescent(s, nonce, oldEpoch).0)
  {
  }

  lemma StepLater(s: Model, answers: seq<MediaAnswer>)
    requires Inv(s)
    ensures Later(s, Step(s, answers).0)
  {
    if answers != [] && (s.phase.Ready? || s.phase.ResetDrain?) { StepLoopLater(s, answers); }
  }

  lemma ActLater(s: Model, a: Action)
    requires Inv(s)
    ensures Later(s, Act(s, a))
  {
    match a
    case Submit(r, buffers) => SubmitLater(s, r, buffers);
    case CancelOp(token) => CancelLater(s, token);
    case Advance(answers) => StepLater(s, answers);
    case Collect(budget) => PollLater(s, budget);
    case Reset(nonce, oldEpoch) => ResetLater(s, nonce, oldEpoch);
    case CheckQuiescent(nonce, oldEpoch) => QuiescentLater(s, nonce, oldEpoch);
    case CutPower(mediaOk) => PowerLater(s, mediaOk);
  }

  lemma PowerLater(s: Model, mediaOk: seq<bool>)
    requires Shaped(s)
    ensures Later(s, PowerLoss(s, mediaOk).0)
  {
    PowerClearLater(s, 0, mediaOk);
  }

  lemma ResetLater(s: Model, nonce: nat, oldEpoch: nat)
    requires Shaped(s)
    ensures Later(s, ResetBegin(s, nonce, oldEpoch).0)
  {
    ResetShape(s, nonce, oldEpoch);
  }

  /** Along a run the clock never goes back and the reported stream only grows at its end. */
  lemma {:induction false} RunLater(s: Model, run: seq<Action>)
    requires Inv(s)
    ensures Later(s, Exec(s, run))
    decreases |run|
  {
    if run != [] {
      ActLater(s, run[0]);
      ActKeeps(s, run[0]);
      RunLater(Act(s, run[0]), run[1..]);
    }
  }

  // ---------------------------------------------------------------- work

  /** While the model works, every running operation has a unit left: each turn of the loop uses one. */
  lemma UnitsTheorem(s: Model)
    requires Reachable(s) && (s.phase.Ready? || s.phase.ResetDrain?)
    ensures UnitsLeft(s)
    ensures forall answer :: !StepUnit(s, answer).1.Stuck?
    ensures forall answer :: StepUnit(s, answer).1.Used? ==> Bound(StepUnit(s, answer).0) < Bound(s)
  {
    ReachableInv(s);
    forall answer ensures !StepUnit(s, answer).1.Stuck? {
      NeverStuck(s, answer);
    }
    forall answer | StepUnit(s, answer).1.Used? ensures Bound(StepUnit(s, answer).0) < Bound(s) {
      UnitDecreases(s, answer);
    }
  }

  lemma NeverStuck(s: Model, answer: MediaAnswer)
    requires Shaped(s) && UnitsLeft(s)
    ensures !StepUnit(s, answer).1.Stuck?
  {
  }

  /** A step of as many units as the bound leaves only completions to collect, unless the model faults. */
  lemma FinishTheorem(s: Model, answers: seq<MediaAnswer>)
    requires Reachable(s) && (s.phase.Ready? || s.phase.ResetDrain?) && answers != [] && |answers| >= Bound(s)
    ensures Step(s, answers).0.phase.Faulted? || AllDone(Step(s, answers).0)
  {
    ReachableInv(s);
    StepFinishes(s, answers);
  }

  // ---------------------------------------------------------------- conservation

  /** Exactly one of three things became of every accepted operation. */
  lemma ConservationTheorem(s: Model, a: nat)
    requires Reachable(s) && a in s.hist.accepted
    ensures Accounted(s, a)
    ensures InSlot(s.ops, a) ==> !WasReported(s.hist.reports, a) && a !in s.hist.lost
    ensures WasReported(s.hist.reports, a) ==> a !in s.hist.lost
    ensures forall i, j :: 0 <= i < |s.ops| && 0 <= j < |s.ops| && Holds(s.ops[i], a) && Holds(s.ops[j], a) ==> i == j
    ensures forall k, l :: 0 <= k < l < |s.hist.reports| ==>
                           !(ReportOf(s.hist.reports[k], a) && ReportOf(s.hist.reports[l], a))
  {
    ReachableLedger(s);
    forall i | 0 <= i < |s.ops| && Holds(s.ops[i], a)
      ensures a !in s.hist.lost && !WasReported(s.hist.reports, a)
    {
      assert SlotLedger(s, s.ops[i]);
    }
    forall k | 0 <= k < |s.hist.reports| && ReportOf(s.hist.reports[k], a) ensures a !in s.hist.lost {
      assert ReportLedger(s, s.hist.reports[k]);
    }
    forall i, j | 0 <= i < |s.ops| && 0 <= j < |s.ops| && Holds(s.ops[i], a) && Holds(s.ops[j], a) ensures i == j {
      assert PairOrdered(s.ops[i], s.ops[j]) || i == j;
    }
    assert ReportsDistinct(s.hist.reports);
  }

  /** A later acceptance has a larger uid; a report carries the token of the request it answers. */
  lemma IdentityTheorem(s: Model)
    requires Reachable(s)
    ensures forall a, b :: a in s.hist.accepted && b in s.hist.accepted && a < b ==> Uid(s, a) < Uid(s, b)
    ensures forall k :: 0 <= k < |s.hist.reports| ==> ReportLedger(s, s.hist.reports[k])
  {
    ReachableLedger(s);
  }

  lemma ReachableLedger(s: Model)
    requires Reachable(s)
    ensures Ledger(s) && PairsOrdered(s)
  {
    ReachableInv(s);
  }

  ghost predicate WithoutCut(run: seq<Action>) { forall k :: 0 <= k < |run| ==> !run[k].CutPower? }

  /** Without a power cut every accepted operation is in one slot or was reported once, and not both. */
  lemma NothingLost(cfg: Config, nonce: nat, run: seq<Action>, a: nat)
    requires ConfigValid(cfg) && WithoutCut(run) && a in Exec(Initial(cfg, nonce), run).hist.accepted
    ensures var s := Exec(Initial(cfg, nonce), run);
      && s.hist.lost == {} && (InSlot(s.ops, a) <==> !WasReported(s.hist.reports, a))
      && (forall k, l :: 0 <= k < l < |s.hist.reports| ==>
                         !(ReportOf(s.hist.reports[k], a) && ReportOf(s.hist.reports[l], a)))
  {
    var s := Exec(Initial(cfg, nonce), run);
    InitialInv(cfg, nonce);
    LostUnchanged(Initial(cfg, nonce), run);
    assert Reachable(s);
    ConservationTheorem(s, a);
  }

  lemma {:induction false} LostUnchanged(s: Model, run: seq<Action>)
    requires Inv(s) && WithoutCut(run)
    ensures Exec(s, run).hist.lost == s.hist.lost
    decreases |run|
  {
    if run != [] {
      ActKeeps(s, run[0]);
      ActKeepsLost(s, run[0]);
      LostUnchanged(Act(s, run[0]), run[1..]);
    }
  }

  lemma ActKeepsLost(s: Model, a: Action)
    requires Shaped(s) && !a.CutPower?
    ensures Act(s, a).hist.lost == s.hist.lost
  {
    match a
    case Advance(answers) => LoopKeepsLost(s, answers);
    case Collect(budget) => PollKeepsLost(s, budget);
    case _ =>
  }

  lemma {:induction false} LoopKeepsLost(s: Model, answers: seq<MediaAnswer>)
    requires Shaped(s)
    ensures StepLoop(s, answers).0.hist.lost == s.hist.lost
    decreases |answers|
  {
    if answers != [] {
      StepUnitFrame(s, answers[0]);
      if StepUnit(s, answers[0]).1.Used? {
        LoopKeepsLost(StepUnit(s, answers[0]).0, answers[1..]);
      }
    }
  }

  lemma {:induction false} PollKeepsLost(s: Model, budget: nat)
    requires Shaped(s)
    ensures Poll(s, budget).hist.lost == s.hist.lost
    decreases budget
  {
    if budget != 0 {
      PollKeepsLost(PollOne(s), budget - 1);
    }
  }

  /** Unless the model faulted, the counter counts the pending slots; while an operation runs the table has room. */
  lemma EventCountTheorem(s: Model)
    requires Reachable(s) && !s.phase.Faulted?
    ensures s.eventCount == PendingCount(s.ops)
    ensures forall i :: 0 <= i < |s.ops| && s.ops[i].state.Running? ==> s.eventCount < s.cfg.capacity.terminalEvents
  {
    ReachableInv(s);
    forall i | 0 <= i < |s.ops| && s.ops[i].state.Running? ensures s.eventCount < s.cfg.capacity.terminalEvents {
      PendingBound(s.ops, i);
    }
  }

  // ---------------------------------------------------------------- exclusion

  /** Busy intervals that share a plane, a channel or a lane are disjoint; a LUN keeps its parallelism. */
  lemma ExclusionTheorem(s: Model, lun: nat, tick: nat)
    requires Reachable(s)
    ensures NoConflict(s.hist.reserved)
    ensures |ActiveInLun(s.hist.reserved, lun, tick)| <= s.cfg.geometry.parallelism
  {
    ReachableInv(s);
    LunParallelism(s, lun, tick);
  }

  /** Two operations run on one plane only at the tick where one ends and an older one starts. */
  lemma OverlapTheorem(s: Model, i: nat, j: nat)
    requires Reachable(s) && i < |s.ops| && j < |s.ops| && i != j
    requires s.ops[i].state.Running? && s.ops[j].state.Running? && SamePlane(s, s.ops[i], s.ops[j])
    ensures || (s.ops[i].finishTick == s.now == s.ops[j].startTick && s.ops[j].submitSequence < s.ops[i].submitSequence)
            || (s.ops[j].finishTick == s.now == s.ops[i].startTick && s.ops[i].submitSequence < s.ops[j].submitSequence)
  {
    ReachableInv(s);
    OverlapAtBoundary(s, i, j);
  }

  // ---------------------------------------------------------------- epochs and bytes

  /** A ready model holds only operations of its epoch, a draining one only of the epoch before. */
  lemma EpochTheorem(s: Model)
    requires Reachable(s)
    ensures s.phase.Ready? ==> EpochHeld(s, s.epoch)
    ensures s.phase.ResetDrain? ==> s.epoch > 0 && EpochHeld(s, s.epoch - 1)
  {
    ReachableInv(s);
  }

  /** A token that is accepted was minted in the current epoch, for the kind it is used as. */
  lemma TokenTheorem(s: Model, r: Request, kind: CacheKind)
    requires Reachable(s) && Shaped(s) && RequestPlaced(s.cfg, r) && kind != NoCache && CacheTokenValid(s, r, kind)
    ensures var key := (PlaneIndex(s.cfg.geometry, r.ppa), r.cache.generation);
            key in s.hist.mints && s.hist.mints[key].epoch == s.epoch && s.hist.mints[key].kind == kind
  {
    ReachableInv(s);
    assert CacheBacked(s, PlaneIndex(s.cfg.geometry, r.ppa));
  }

  /** Every media call comes from a program or erase that began, legally, before any reset touched it. */
  lemma MediaTheorem(s: Model, k: nat)
    requires Reachable(s) && k < |s.hist.effects| && !s.hist.effects[k].Delivered?
    ensures var n := s.hist.effects[k].sequence;
      && BegunInEpoch(s, n) && s.hist.effects[k].ppa == s.hist.accepted[n].request.ppa
      && (s.hist.accepted[n].request.kind == PROGRAM_EXECUTE || s.hist.accepted[n].request.kind == ERASE)
  {
    ReachableEffect(s, k);
  }

  lemma ReachableEffect(s: Model, k: nat)
    requires Reachable(s) && k < |s.hist.effects|
    ensures EffectSound(s, s.hist.effects[k])
  {
    ReachableInv(s);
  }

  lemma ReachableMint(s: Model, key: (nat, nat))
    requires Reachable(s) && key in s.hist.mints
    ensures MintSound(s, key)
  {
    ReachableInv(s);
  }

  /**
   A program writes to its own page the bytes captured at submission by a program transfer to that
   page and for the same regions, as frozen when the program began; that transfer is the only
   operation whose completion hands out the token the program carries.  A complete program writes the
   whole page and had no fault.
   */
  lemma ProgramTheorem(s: Model, k: nat)
    requires Reachable(s) && k < |s.hist.effects| && s.hist.effects[k].Programmed?
    ensures var e := s.hist.effects[k];
      && CallOfKind(s, e.sequence, PROGRAM_EXECUTE) && (e.plane, e.generation) in s.hist.mints
      && var r, m := s.hist.accepted[e.sequence].request, s.hist.mints[(e.plane, e.generation)];
         && e.ppa == r.ppa && Names(s, r, e.plane, e.generation) && m.sequence in s.hist.accepted
         && var from := s.hist.accepted[m.sequence];
            && from.request.kind == PROGRAM_TRANSFER && from.request.ppa == r.ppa
            && from.request.regionMask == r.regionMask
            && from.request.operation.controllerEpoch == r.operation.controllerEpoch
            && e.page == from.page == s.hist.begun[e.sequence].page
            && (e.integrity == INTEGRITY_COMPLETE ==>
                  s.hist.begun[e.sequence].faultClass.Clean?
                  && e.mainApplied == s.cfg.geometry.mainBytes && e.oobApplied == s.cfg.geometry.oobBytes)
            && HandedBy(s, r.cache, m.sequence)
  {
    var e := s.hist.effects[k];
    ReachableEffect(s, k);
    ReachableMint(s, (e.plane, e.generation));
    TokenHandedBy(s, s.hist.accepted[e.sequence].request, e.plane, e.generation);
  }

  /**
   Of all successful read triggers and program transfers only this one's completion carries the token,
   and unless a power cut took it away it does.
   */
  ghost predicate HandedBy(s: Model, token: CacheToken, n: nat)
  {
    && (forall c :: Minter(s, c) ==> (c.cache == token <==> c.submitSequence == n))
    && (n in s.hist.lost || exists c :: Minter(s, c) && c.submitSequence == n)
  }

  /** What minted a token has ended: it completed with success unless a power cut took it away. */
  lemma MinterCompleted(s: Model, key: (nat, nat))
    requires Reachable(s) && key in s.hist.mints && s.hist.mints[key].sequence !in s.hist.lost
    ensures exists c :: Minter(s, c) && c.submitSequence == s.hist.mints[key].sequence
  {
    var n := s.hist.mints[key].sequence;
    ReachableMint(s, key);
    ConservationTheorem(s, n);
    var c := CompletionOf(s, n);
    CompletedEnded(s, c);
    assert Minter(s, c);
  }

  lemma CompletionOf(s: Model, n: nat) returns (c: Completion)
    requires Reachable(s) && Accounted(s, n) && n !in s.hist.lost && Minted(s.hist.mints, n)
    ensures Completed(s, c) && c.submitSequence == n
  {
    if WasReported(s.hist.reports, n) {
      var k :| 0 <= k < |s.hist.reports| && ReportOf(s.hist.reports[k], n);
      c := s.hist.reports[k];
    } else {
      var i :| 0 <= i < |s.ops| && Holds(s.ops[i], n);
      ReachableSettled(s);
      assert SlotSettled(s, s.ops[i]);
      SlotCompletion(s, i);
      c := s.ops[i].completion;
    }
  }

  lemma TokenHandedBy(s: Model, r: Request, plane: nat, generation: nat)
    requires Reachable(s) && Names(s, r, plane, generation) && (plane, generation) in s.hist.mints
    requires var m := s.hist.mints[(plane, generation)];
      && m.sequence in s.hist.accepted
      && s.hist.accepted[m.sequence].request.operation.controllerEpoch == r.operation.controllerEpoch
      && s.hist.accepted[m.sequence].request.ppa == r.ppa
    ensures HandedBy(s, r.cache, s.hist.mints[(plane, generation)].sequence)
  {
    forall c | Minter(s, c)
      ensures c.cache == r.cache <==> c.submitSequence == s.hist.mints[(plane, generation)].sequence
    {
      HandedNames(s, c, r, plane, generation);
    }
    if s.hist.mints[(plane, generation)].sequence !in s.hist.lost { MinterCompleted(s, (plane, generation)); }
  }

  /**
   A delivery is by a read transfer that began legally, and moves the bytes that a read trigger read,
   when it began, from the same page with the same retry step; that trigger is the only operation
   whose completion hands out the token the transfer carries.
   */
  lemma DeliveryTheorem(s: Model, k: nat)
    requires Reachable(s) && k < |s.hist.effects| && s.hist.effects[k].Delivered?
    ensures var e := s.hist.effects[k];
      && CallOfKind(s, e.sequence, READ_TRANSFER) && (e.plane, e.generation) in s.hist.mints
      && var r, m := s.hist.accepted[e.sequence].request, s.hist.mints[(e.plane, e.generation)];
         && Names(s, r, e.plane, e.generation) && m.sequence in s.hist.accepted
         && var from := s.hist.accepted[m.sequence].request;
            && from.kind == READ_TRIGGER && from.ppa == r.ppa && RegionWithin(r.regionMask, from.regionMask)
            && from.retryStep == r.retryStep && from.operation.controllerEpoch == r.operation.controllerEpoch
            && m.sequence in s.hist.begun && s.hist.begun[m.sequence].legality == 0
            && e.page == s.hist.begun[m.sequence].page && HandedBy(s, r.cache, m.sequence)
  {
    var e := s.hist.effects[k];
    ReachableEffect(s, k);
    ReachableMint(s, (e.plane, e.generation));
    TokenHandedBy(s, s.hist.accepted[e.sequence].request, e.plane, e.generation);
  }

  lemma ActSettled(s: Model, a: Action)
    requires Inv(s) && Settled(s)
    ensures Settled(Act(s, a))
  {
    match a
    case Submit(r, buffers) => SubmitSettled(s, r, buffers);
    case CancelOp(token) => CancelSettled(s, token);
    case Advance(answers) => StepSettled(s, answers);
    case Collect(budget) => PollSettled(s, budget);
    case Reset(nonce, oldEpoch) => ResetSettled(s, nonce, oldEpoch);
    case CheckQuiescent(nonce, oldEpoch) => QuiescentSettled(s, nonce, oldEpoch);
    case CutPower(mediaOk) => PowerLossSettled(s, mediaOk);
  }

  lemma {:induction false} RunSettled(s: Model, run: seq<Action>)
    requires Inv(s) && Settled(s)
    ensures Settled(Exec(s, run))
    decreases |run|
  {
    if run != [] {
      ActKeeps(s, run[0]);
      ActSettled(s, run[0]);
      RunSettled(Act(s, run[0]), run[1..]);
    }
  }

  /**
   An operation that waits or runs has made no call.  One that ended, reported or not, has made
   exactly the media call its beginning fixed, even if a reset came between, or exactly the one
   delivery of its token if it is a read transfer that succeeded.  No operation makes two calls.
   */
  lemma CallTheorem(s: Model)
    requires Reachable(s)
    ensures forall i :: 0 <= i < |s.ops| && (Waiting(s.ops[i]) || s.ops[i].state.Running?) ==>
                        EffectsOf(s.hist.effects, s.ops[i].submitSequence) == []
    ensures forall i :: 0 <= i < |s.ops| && s.ops[i].state.EventPending? ==>
                        EndedWith(s, s.ops[i].submitSequence, s.ops[i].completion)
    ensures forall k :: 0 <= k < |s.hist.reports| ==>
                        EndedWith(s, s.hist.reports[k].submitSequence, s.hist.reports[k])
    ensures forall n: nat :: |EffectsOf(s.hist.effects, n)| <= 1
  {
    ReachableSettled(s);
    forall i | 0 <= i < |s.ops| ensures SlotSettled(s, s.ops[i]) { }
  }

  /** The completion was reported or waits to be reported. */
  ghost predicate Completed(s: Model, c: Completion)
  {
    c in s.hist.reports || exists i :: 0 <= i < |s.ops| && s.ops[i].state.EventPending? && s.ops[i].completion == c
  }

  /** It is that of a successful read trigger or program transfer. */
  ghost predicate Minter(s: Model, c: Completion)
  {
    && Completed(s, c) && Success(c) && c.submitSequence in s.hist.accepted
    && MintingKind(s.hist.accepted[c.submitSequence].request.kind)
  }

  lemma CompletedEnded(s: Model, c: Completion)
    requires Reachable(s) && Completed(s, c)
    ensures EndedWith(s, c.submitSequence, c)
  {
    ReachableSettled(s);
    if c in s.hist.reports {
      assert ReportsSettled(s);
    } else {
      var i :| 0 <= i < |s.ops| && s.ops[i].state.EventPending? && s.ops[i].completion == c;
      SlotCompletion(s, i);
      assert SlotSettled(s, s.ops[i]);
    }
  }

  lemma SlotCompletion(s: Model, i: nat)
    requires Reachable(s) && i < |s.ops| && s.ops[i].state.EventPending?
    ensures s.ops[i].completion.submitSequence == s.ops[i].submitSequence
  {
    ReachableInv(s);
    assert SlotTimed(s.ops[i], s.now, s.nextSubmit);
  }

  /**
   The completion of a successful read trigger or program transfer hands out the token that this very
   operation minted on its own plane in its own epoch, and no two operations hand out the same token.
   Every other completion repeats the token of its request.
   */
  lemma HandedTheorem(s: Model, c: Completion, d: Completion)
    requires Reachable(s) && Completed(s, c) && Completed(s, d)
    ensures EndedWith(s, c.submitSequence, c)
    ensures Minter(s, c) ==> HandedOut(s, c.submitSequence, s.hist.accepted[c.submitSequence].request, c.cache)
    ensures !Minter(s, c) ==> c.cache == s.hist.accepted[c.submitSequence].request.cache
    ensures Minter(s, c) && Minter(s, d) ==> (c.cache == d.cache <==> c.submitSequence == d.submitSequence)
  {
    CompletedEnded(s, c);
    CompletedEnded(s, d);
    if Minter(s, c) && Minter(s, d) {
      ReachableSettled(s);
      SameHanded(s, s.hist.accepted[c.submitSequence].request, s.hist.accepted[d.submitSequence].request, c, d);
    }
  }

  lemma SameHanded(s: Model, r: Request, q: Request, c: Completion, d: Completion)
    requires PpaValid(s.cfg.geometry, r.ppa) && PpaValid(s.cfg.geometry, q.ppa) && MintsOnce(s.hist.mints)
    requires HandedOut(s, c.submitSequence, r, c.cache) && HandedOut(s, d.submitSequence, q, d.cache)
    requires c.submitSequence == d.submitSequence ==> r == q
    ensures c.cache == d.cache <==> c.submitSequence == d.submitSequence
  {
  }

  /** A completion handed out the token of this name exactly when its operation minted that name. */
  lemma HandedNames(s: Model, c: Completion, r: Request, plane: nat, generation: nat)
    requires Reachable(s) && Minter(s, c) && Names(s, r, plane, generation) && (plane, generation) in s.hist.mints
    requires var m := s.hist.mints[(plane, generation)];
      && m.sequence in s.hist.accepted
      && s.hist.accepted[m.sequence].request.operation.controllerEpoch == r.operation.controllerEpoch
      && s.hist.accepted[m.sequence].request.ppa == r.ppa
    ensures c.cache == r.cache <==> c.submitSequence == s.hist.mints[(plane, generation)].sequence
  {
    CompletedEnded(s, c);
    ReachableSettled(s);
    var q := s.hist.accepted[c.submitSequence].request;
    assert HandedOut(s, c.submitSequence, q, c.cache);
    if c.submitSequence == s.hist.mints[(plane, generation)].sequence {
      assert (PlaneIndex(s.cfg.geometry, q.ppa), c.cache.generation) == (plane, generation);
    }
  }

  lemma ReachableSettled(s: Model)
    requires Reachable(s)
    ensures Settled(s)
  {
    var cfg, nonce, run :| ConfigValid(cfg) && s == Exec(Initial(cfg, nonce), run);
    InitialInv(cfg, nonce);
    RunSettled(Initial(cfg, nonce), run);
  }

  /** No cache token is delivered twice, in any run. */
  lemma DeliveredOnceTheorem(s: Model)
    requires Reachable(s)
    ensures DeliveriesOnce(s.hist.effects)
  {
    ReachableInv(s);
  }

  // ---------------------------------------------------------------- runs in submission order

  /** A submission that is accepted leaves no related queued operation behind that has a larger priority number. */
  ghost predicate KeepsOrder(s: Model, all: bool, a: Action)
    requires Shaped(s)
  {
    a.Submit? && TrySubmit(s, a.request, a.buffers).1.Accepted? ==> NotInverting(s, all, a.request)
  }

  ghost predicate InOrder(s: Model, all: bool, run: seq<Action>)
    requires Shaped(s)
    decreases |run|
  {
    run == [] || (KeepsOrder(s, all, run[0]) && InOrder(Act(s, run[0]), all, run[1..]))
  }

  lemma ActOrdered(s: Model, a: Action, all: bool)
    requires Inv(s) && Ordered(s, all) && KeepsOrder(s, all, a)
    ensures Ordered(Act(s, a), all)
  {
    match a
    case Submit(r, buffers) => SubmitOrdered(s, r, buffers, all);
    case CancelOp(token) => CancelOrdered(s, token, all);
    case Advance(answers) => StepOrdered(s, answers, all);
    case Collect(budget) => PollOrdered(s, budget, all);
    case Reset(nonce, oldEpoch) => ResetOrdered(s, nonce, oldEpoch, all);
    case CheckQuiescent(nonce, oldEpoch) => QuiescentOrdered(s, nonce, oldEpoch, all);
    case CutPower(mediaOk) => PowerLossOrdered(s, mediaOk, all);
  }

  lemma {:induction false} RunOrdered(s: Model, run: seq<Action>, all: bool)
    requires Inv(s) && Ordered(s, all) && InOrder(s, all, run)
    ensures Inv(Exec(s, run)) && Ordered(Exec(s, run), all)
    decreases |run|
  {
    if run != [] {
      ActKeeps(s, run[0]);
      ActOrdered(s, run[0], all);
      RunOrdered(Act(s, run[0]), run[1..], all);
    }
  }

  /**
   No cache token is used twice in any run in which no program is accepted while a queued program of
   the same token has a larger priority number, whatever the priorities of all other operations.
   */
  lemma TokenOnceTheorem(cfg: Config, nonce: nat, run: seq<Action>)
    requires ConfigValid(cfg) && InOrder(Initial(cfg, nonce), false, run)
    ensures TokensOnce(Exec(Initial(cfg, nonce), run).hist.effects)
  {
    InitialInv(cfg, nonce);
    InitialOrdered(cfg, nonce, false);
    RunOrdered(Initial(cfg, nonce), run, false);
  }

  /** In runs that keep submission order altogether a plane runs one operation at a time. */
  lemma OneRunningTheorem(cfg: Config, nonce: nat, run: seq<Action>)
    requires ConfigValid(cfg) && InOrder(Initial(cfg, nonce), true, run)
    ensures RunApart(Exec(Initial(cfg, nonce), run), true)
  {
    InitialInv(cfg, nonce);
    InitialOrdered(cfg, nonce, true);
    RunOrdered(Initial(cfg, nonce), run, true);
    InOrderRunApart(Exec(Initial(cfg, nonce), run), true);
  }
}
