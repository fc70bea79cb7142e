/** Every transition of the controller keeps the invariants of the other modules. */
module NfcInvariant {
  import opened NfcTypes
  import opened NfcModel
  import opened NfcTimeline
  import opened NfcLedger
  import opened NfcExclusion
  import opened NfcData

  /** True in every reachable state, faulted or not. */
  ghost predicate Core(s: Model)
  {
    && Shaped(s) && Timeline(s) && Ledger(s) && Exclusion(s) && Data(s)
    && DeliveriesOnce(s.hist.effects)
    && PendingCount(s.ops) <= s.eventCount
  }

  /** No running operation has used up its units. */
  ghost predicate UnitsLeft(s: Model)
  {
    forall i :: 0 <= i < |s.ops| && s.ops[i].state.Running? ==> s.ops[i].unitIndex < s.ops[i].unitCount
  }

  /** What the step loop relies on; lost only with the halt of the model or its power. */
  ghost predicate Steady(s: Model)
  {
    UnitsLeft(s) && Covered(s) && Fresh(s) && AllSpent(s)
  }

  ghost predicate Counted(s: Model) { s.eventCount == PendingCount(s.ops) }

  ghost predicate Working(s: Model) { Core(s) && Steady(s) && Counted(s) }

  ghost predicate EpochHeld(s: Model, epoch: nat)
  {
    forall i :: 0 <= i < |s.ops| && Live(s.ops[i]) ==> EpochOf(s.ops[i]) == epoch
  }

  /** Ready: every live operation has the current epoch.  Draining: the previous one. */
  ghost predicate EpochsAgree(s: Model)
  {
    && (s.phase.Ready? ==> EpochHeld(s, s.epoch))
    && (s.phase.ResetDrain? ==> 0 < s.epoch && EpochHeld(s, s.epoch - 1))
  }

  ghost predicate Inv(s: Model)
  {
    && Core(s) && EpochsAgree(s)
    && (s.phase.Ready? || s.phase.ResetDrain? ==> Steady(s))
    && (!s.phase.Faulted? ==> Counted(s))
  }

  // ---------------------------------------------------------------- calm transitions

  /** At most the slot becomes marked for cancellation. */
  predicate CalmSlot(a: Op, b: Op)
  {
    BothFree(a, b) || b == a || b == a.(cancelRequested := true)
  }

  ghost predicate Calm(s: Model, t: Model)
  {
    && t == s.(phase := t.phase, traceCount := t.traceCount, ops := t.ops, nextSubmit := t.nextSubmit)
    && t.nextSubmit >= s.nextSubmit && |t.ops| == |s.ops|
    && forall i :: 0 <= i < |s.ops| ==> CalmSlot(s.ops[i], t.ops[i])
  }

  lemma CalmRelates(s: Model, t: Model)
    requires Calm(s, t)
    ensures Quiet(s, t) && BooksKept(s, t) && PlanKept(s, t) && DataMoves(s, t)
    ensures forall i :: 0 <= i < |s.ops| ==> Pending(s.ops[i]) == Pending(t.ops[i])
  {
    forall i | 0 <= i < |s.ops|
      ensures BothFree(s.ops[i], t.ops[i]) || TimedAlike(s.ops[i], t.ops[i])
      ensures IntervalKept(s.ops[i], t.ops[i]) && DataAlike(s.ops[i], t.ops[i])
      ensures Pending(s.ops[i]) == Pending(t.ops[i])
    {
      assert CalmSlot(s.ops[i], t.ops[i]);
    }
  }

  lemma CalmCore(s: Model, t: Model)
    requires Core(s) && Shaped(t) && Calm(s, t)
    ensures Core(t)
    ensures Counted(s) ==> Counted(t)
  {
    CalmRelates(s, t);
    QuietKeeps(s, t);
    KeptKeeps(s, t);
    PlanKeptKeeps(s, t);
    MovesKeep(s, t);
    PendingAlike(s.ops, t.ops);
  }

  lemma CalmSteady(s: Model, t: Model)
    requires Steady(s) && Calm(s, t)
    ensures Steady(t)
  {
    CoveredKeeps(s, t);
    SpentKeeps(s, t);
    forall i | 0 <= i < |t.ops| ensures SlotFresh(t, t.ops[i]) {
      assert SlotFresh(s, s.ops[i]) && CalmSlot(s.ops[i], t.ops[i]);
    }
    forall i | 0 <= i < |t.ops| && t.ops[i].state.Running? ensures t.ops[i].unitIndex < t.ops[i].unitCount {
      assert CalmSlot(s.ops[i], t.ops[i]);
    }
  }

  /** A calm transition keeps the invariant, in the same phase or a faulted one. */
  lemma CalmKeeps(s: Model, t: Model)
    requires Inv(s) && Shaped(t) && Calm(s, t) && (t.phase == s.phase || t.phase.Faulted?)
    ensures Inv(t)
  {
    CalmCore(s, t);
    if s.phase.Ready? || s.phase.ResetDrain? {
      CalmSteady(s, t);
    }
    forall i | 0 <= i < |t.ops| && Live(t.ops[i]) ensures EpochOf(t.ops[i]) == EpochOf(s.ops[i]) && Live(s.ops[i]) {
      assert CalmSlot(s.ops[i], t.ops[i]);
    }
  }

  // ---------------------------------------------------------------- submission

  lemma AcceptCore(s: Model, i: nat, r: Request, buffers: BufferAnswer)
    requires Core(s) && i < |s.ops| && s.ops[i].state.Free? && RequestPlaced(s.cfg, r)
    requires s.nextUid <= r.operation.operationUid && RequestShapeValid(s.cfg, s.nonce, r.operation.controllerEpoch, r)
    ensures Core(Accept(s, i, r, buffers))
    ensures Counted(s) ==> Counted(Accept(s, i, r, buffers))
  {
    var t := Accept(s, i, r, buffers);
    var entry := Acceptance(r, CapturedPage(s.cfg, r, buffers));
    assert Accepts(s, t, i);
    AcceptKeeps(s, t, i);
    assert BooksEntered(s, t, i, entry);
    EnteredKeeps(s, t, i, entry);
    assert PlanAccepts(s, t, i);
    PlanAcceptKeeps(s, t, i);
    assert DataAccepts(s, t, i, entry);
    AcceptsKeep(s, t, i, entry);
    PendingUpdate(s.ops, i, t.ops[i]);
  }

  lemma AcceptSteady(s: Model, i: nat, r: Request, buffers: BufferAnswer)
    requires Core(s) && Steady(s) && i < |s.ops| && s.ops[i].state.Free? && RequestPlaced(s.cfg, r)
    requires r.operation.controllerEpoch == s.epoch
    ensures Steady(Accept(s, i, r, buffers))
  {
    var t := Accept(s, i, r, buffers);
    CoveredKeeps(s, t);
    SpentKeeps(s, t);
    forall j | 0 <= j < |t.ops| ensures SlotFresh(t, t.ops[j]) {
      assert SlotFresh(s, s.ops[j]) && SlotData(s, s.ops[j]);
      if j != i && Live(s.ops[j]) {
        assert s.ops[j].submitSequence in s.hist.accepted && s.ops[j].submitSequence < s.nextSubmit;
      }
    }
  }

  lemma AcceptInv(s: Model, i: nat, r: Request, buffers: BufferAnswer)
    requires Inv(s) && s.phase.Ready? && i < |s.ops| && s.ops[i].state.Free? && RequestPlaced(s.cfg, r)
    requires s.nextUid <= r.operation.operationUid && r.operation.controllerEpoch == s.epoch
    requires RequestShapeValid(s.cfg, s.nonce, s.epoch, r)
    ensures Inv(Accept(s, i, r, buffers))
  {
    AcceptCore(s, i, r, buffers);
    AcceptSteady(s, i, r, buffers);
  }

  lemma SubmitKeeps(s: Model, r: Request, buffers: BufferAnswer)
    requires Inv(s)
    ensures Inv(TrySubmit(s, r, buffers).0)
  {
    var (t, result) := TrySubmit(s, r, buffers);
    if t != s {
      var i := FreeOperation(s.ops, 0).value;
      if result.Accepted? {
        AcceptInv(s, i, r, buffers);
      } else {
        assert Calm(s, t);
        CalmKeeps(s, t);
      }
    }
  }

  lemma CancelKeeps(s: Model, token: OperationToken)
    requires Inv(s)
    ensures Inv(Cancel(s, token).0)
  {
    var t := Cancel(s, token).0;
    assert Calm(s, t);
    CalmKeeps(s, t);
  }

  // ---------------------------------------------------------------- transitions of one slot

  ghost predicate SameSetting(s: Model, t: Model)
  {
    && SameStore(s, t) && t.epoch == s.epoch && t.nextSubmit == s.nextSubmit
    && t.hist.accepted == s.hist.accepted
  }

  lemma SlotMoves(s: Model, t: Model, i: nat)
    requires SlotOnly(s, t, i) && SameSetting(s, t) && t.hist.begun == s.hist.begun
    requires DataAlike(s.ops[i], t.ops[i])
    ensures DataMoves(s, t)
  {
  }

  lemma SlotPlan(s: Model, t: Model, i: nat)
    requires SlotOnly(s, t, i) && SameFrame(s, t) && t.hist.reserved == s.hist.reserved && SameReports(s, t)
    requires IntervalKept(s.ops[i], t.ops[i])
    ensures PlanKept(s, t)
  {
  }

  lemma SlotSteady(s: Model, t: Model, i: nat)
    requires UnitsLeft(s) && Fresh(s) && AllSpent(s) && SlotOnly(s, t, i) && SameSetting(s, t)
    requires SlotFresh(t, t.ops[i])
    requires t.ops[i].state.Running? ==> t.ops[i].unitIndex < t.ops[i].unitCount
    ensures UnitsLeft(t) && Fresh(t) && AllSpent(t)
  {
    SpentKeeps(s, t);
    forall j | 0 <= j < |t.ops| ensures SlotFresh(t, t.ops[j]) {
      assert SlotFresh(s, s.ops[j]);
    }
  }

  // ---------------------------------------------------------------- the clock and the scheduler

  lemma TickInv(s: Model, t: Model, i: nat)
    requires Working(s) && Shaped(t) && Ticks(s, t, i) && t == s.(now := t.now)
    ensures Working(t)
  {
    TickKeeps(s, t, i);
    KeptKeeps(s, t);
    SlotPlan(s, t, i);
    PlanKeptKeeps(s, t);
    SlotMoves(s, t, i);
    MovesKeep(s, t);
    TickSteady(s, t, i);
  }

  lemma TickSteady(s: Model, t: Model, i: nat)
    requires Steady(s) && t == s.(now := t.now) && i < |s.ops|
    ensures Steady(t)
  {
    CoveredKeeps(s, t);
    assert SlotFresh(s, s.ops[i]);
    SlotSteady(s, t, i);
  }

  /** The scheduler's choice starts no earlier than now and the tails, and is exclusive. */
  lemma ScheduleRelates(s: Model, i: nat)
    requires Shaped(s) && i < |s.ops| && s.ops[i].state.Queued? && s.ops[i].submitSequence < s.nextSubmit
    requires !Unschedulable(s, s.ops[i].request)
    ensures var t, v := Schedule(s, i), ReservationOf(s, s.ops[i]);
            Schedules(s, t, i) && PlanReserves(s, t, i, v) && TailsReserve(s, t, v)
  {
    var r := s.ops[i].request;
    var g := s.cfg.geometry;
    var v := ReservationOf(s, s.ops[i]);
    assert WellPlaced(s, v) by {
      assert v.lane == LunIndex(g, r.ppa) * g.parallelism + r.ppa.plane % g.parallelism;
      assert (v.lun + 1) * g.parallelism == v.lun * g.parallelism + g.parallelism;
      if LimitHolds(s.cfg) {
        assert Duration(s.cfg, r) <= s.cfg.capacity.virtualTickLimit;
      }
      RadixBound(r.ppa.channel, g.channels, r.ppa.lun, g.lunsPerChannel);
    }
  }

  lemma ScheduleSlot(s: Model, i: nat)
    requires Shaped(s) && i < |s.ops| && s.ops[i].state.Queued?
    ensures var t := Schedule(s, i);
            SlotOnly(s, t, i) && SameSetting(s, t) && t.hist.begun == s.hist.begun && BooksKept(s, t)
            && DataAlike(s.ops[i], t.ops[i]) && t.eventCount == s.eventCount
            && (SlotFresh(s, s.ops[i]) ==> SlotFresh(t, t.ops[i])) && t.ops[i].state.Scheduled?
            && t.ops[i].completion == s.ops[i].completion
  {
  }

  lemma ScheduleInv(s: Model, i: nat)
    requires Working(s) && Foremost(s.ops, |s.ops|, i) && s.ops[i].state.Queued?
    requires !Unschedulable(s, s.ops[i].request)
    ensures Working(Schedule(s, i))
  {
    var t, v := Schedule(s, i), ReservationOf(s, s.ops[i]);
    assert SlotTimed(s.ops[i], s.now, s.nextSubmit) && SlotFresh(s, s.ops[i]);
    ScheduleRelates(s, i);
    ScheduleSlot(s, i);
    ReserveInv(s, t, i, v);
  }

  lemma ReserveInv(s: Model, t: Model, i: nat, v: Reservation)
    requires Working(s) && Shaped(t) && Schedules(s, t, i) && PlanReserves(s, t, i, v) && TailsReserve(s, t, v)
    requires SameSetting(s, t) && t.hist.begun == s.hist.begun && BooksKept(s, t) && DataAlike(s.ops[i], t.ops[i])
    requires SlotFresh(t, t.ops[i]) && t.eventCount == s.eventCount
    ensures Working(t)
  {
    ScheduleKeeps(s, t, i);
    PlanReserveKeeps(s, t, i, v);
    KeptKeeps(s, t);
    SlotMoves(s, t, i);
    MovesKeep(s, t);
    SlotSteady(s, t, i);
    PendingUpdate(s.ops, i, t.ops[i]);
  }

  // ---------------------------------------------------------------- beginning

  /** What legality after the preflight says about the token, the bytes and cancellation. */
  lemma PreflightLegal(s: Model, op: Op, answer: MediaAnswer)
    requires Shaped(s) && RequestPlaced(s.cfg, op.request) && op.state.Scheduled? && op.legality == 0
    ensures var o := Preflight(s, op, answer);
            && (o.legality == 0 ==> !op.cancelRequested)
            && (op.request.kind == PROGRAM_TRANSFER ==> o.page == op.page)
            && (o.legality == 0 && op.request.kind == PROGRAM_EXECUTE ==>
                  CacheTokenValid(s, op.request, ProgramCache)
                  && o.page == s.caches[PlaneIndex(s.cfg.geometry, op.request.ppa)].page)
  {
  }

  lemma BeginRelates(s: Model, i: nat, answer: MediaAnswer)
    requires Shaped(s) && i < |s.ops| && s.ops[i].state.Scheduled? && s.ops[i].nextTick <= s.now
    requires SlotTimed(s.ops[i], s.now, s.nextSubmit) && SlotFresh(s, s.ops[i])
    requires Begin(s, i, answer).ops[i].state.Running?
    ensures var t := Begin(s, i, answer);
            Begins(s, t, i) && DataBegins(s, t, i)
  {
    PreflightLegal(s, s.ops[i], answer);
  }

  lemma BeginSlot(s: Model, i: nat, answer: MediaAnswer)
    requires Shaped(s) && i < |s.ops| && s.ops[i].state.Scheduled?
    ensures var t := Begin(s, i, answer);
            SlotOnly(s, t, i) && SameSetting(s, t) && BooksKept(s, t) && SameFrame(s, t) && SameTails(s, t)
            && t.hist.reserved == s.hist.reserved && t.eventCount == s.eventCount && t.now == s.now
            && BeginFrame(s.ops[i], Preflight(s, s.ops[i], answer))
            && (t.ops[i].state.Running? ==> t.ops[i].unitIndex < t.ops[i].unitCount)
            && t.ops[i].resetOwned == s.ops[i].resetOwned
            && t.ops[i].completion.cache == s.ops[i].completion.cache
            && (!t.ops[i].state.Running? ==>
                  t.hist.begun == s.hist.begun && TimedAlike(s.ops[i], t.ops[i])
                  && IntervalKept(s.ops[i], t.ops[i]) && DataAlike(s.ops[i], t.ops[i]))
  {
  }

  lemma BeginInv(s: Model, i: nat, answer: MediaAnswer)
    requires Working(s) && Foremost(s.ops, |s.ops|, i) && s.ops[i].state.Scheduled? && s.ops[i].nextTick <= s.now
    ensures var t := Begin(s, i, answer);
            Core(t) && Counted(t) && (t.ops[i].state.Running? ==> Working(t))
  {
    var t := Begin(s, i, answer);
    assert SlotTimed(s.ops[i], s.now, s.nextSubmit) && SlotFresh(s, s.ops[i]);
    BeginSlot(s, i, answer);
    if t.ops[i].state.Running? {
      BeginRelates(s, i, answer);
      BeganInv(s, t, i);
    } else {
      AlikeInv(s, t, i);
    }
  }

  lemma BeganInv(s: Model, t: Model, i: nat)
    requires Working(s) && Shaped(t) && Foremost(s.ops, |s.ops|, i) && Begins(s, t, i) && DataBegins(s, t, i)
    requires SameSetting(s, t) && BooksKept(s, t) && SameFrame(s, t) && SameTails(s, t)
    requires t.hist.reserved == s.hist.reserved && t.eventCount == s.eventCount
    requires t.ops[i].unitIndex < t.ops[i].unitCount && t.ops[i].resetOwned == s.ops[i].resetOwned
    ensures Working(t)
  {
    assert SlotTimed(s.ops[i], s.now, s.nextSubmit) && SlotFresh(s, s.ops[i]);
    BeginKeeps(s, t, i);
    KeptKeeps(s, t);
    PlanBeginKeeps(s, t, i);
    BeginsKeep(s, t, i);
    CoveredKeeps(s, t);
    SlotSteady(s, t, i);
    PendingUpdate(s.ops, i, t.ops[i]);
  }

  /** A slot that changes nothing the invariants look at. */
  lemma AlikeInv(s: Model, t: Model, i: nat)
    requires Core(s) && Shaped(t) && SlotOnly(s, t, i) && SameSetting(s, t) && BooksKept(s, t) && SameFrame(s, t)
    requires t.hist.reserved == s.hist.reserved && t.hist.begun == s.hist.begun && t.eventCount == s.eventCount
    requires t.now == s.now
    requires TimedAlike(s.ops[i], t.ops[i]) && IntervalKept(s.ops[i], t.ops[i]) && DataAlike(s.ops[i], t.ops[i])
    ensures Core(t)
    ensures Counted(s) ==> Counted(t)
  {
    QuietKeeps(s, t);
    KeptKeeps(s, t);
    SlotPlan(s, t, i);
    PlanKeptKeeps(s, t);
    SlotMoves(s, t, i);
    MovesKeep(s, t);
    PendingUpdate(s.ops, i, t.ops[i]);
  }

  // ---------------------------------------------------------------- running and finishing

  /** What finishing may do to the media, the buffers and the plane's cache. */
  ghost predicate EffectOf(s: Model, op: Op, e: Effect)
    requires Shaped(s) && RequestPlaced(s.cfg, op.request)
  {
    var p := PlaneIndex(s.cfg.geometry, op.request.ppa);
    && op.legality == 0
    && match e
       case Delivered(n, plane, generation, page) =>
         && n == op.submitSequence && op.request.kind == READ_TRANSFER && !op.resetOwned
         && plane == p && generation == s.caches[p].generation && page == s.caches[p].page
         && TokenMatches(SiteOf(s, op.request), op.request, ReadCache)
       case Programmed(_, _, _, _, _, _, _, _) =>
         op.request.kind == PROGRAM_EXECUTE && e == ProgramEffect(s.cfg, op)
         && (op.faultClass.Clean? || op.faultClass.Torn?)
       case Erased(_, _, _, _) =>
         op.request.kind == ERASE && e == EraseEffect(s.cfg, op) && (op.faultClass.Clean? || op.faultClass.Torn?)
       case MarkedBad(n, ppa) =>
         && n == op.submitSequence && ppa == op.request.ppa && op.faultClass.GrownBad?
         && (op.request.kind == PROGRAM_EXECUTE || op.request.kind == ERASE)
  }

  ghost predicate ConcludesQuietly(s: Model, op: Op, out: Outcome)
    requires Shaped(s) && RequestPlaced(s.cfg, op.request)
  {
    var c := s.caches[PlaneIndex(s.cfg.geometry, op.request.ppa)];
    && !out.minted && CacheQuiet(c, out.cache) && CacheAdvances(c, out.cache)
    && (out.effects == [] || (out.effects == [out.effects[0]] && EffectOf(s, op, out.effects[0])))
    && (out.effects != [] && UsesToken(out.effects[0]) ==>
          out.cache.kind.NoCache? && out.cache.generation == c.generation)
    && (!out.ok ==> out.effects == [] && out.cache == c)
  }

  ghost predicate ConcludesMinting(s: Model, op: Op, out: Outcome)
    requires Shaped(s) && RequestPlaced(s.cfg, op.request)
  {
    var c := s.caches[PlaneIndex(s.cfg.geometry, op.request.ppa)];
    && out.minted && out.ok && op.legality == 0 && !op.resetOwned && out.effects == []
    && out.cache.generation == c.generation + 1 && out.cache.controllerEpoch == s.epoch && out.cache.page == op.page
    && CacheHolds(out.cache, op.request)
    && ((out.cache.kind.ReadCache? && op.request.kind == READ_TRIGGER)
        || (out.cache.kind.ProgramCache? && op.request.kind == PROGRAM_TRANSFER))
  }

  lemma ConcludeCases(s: Model, op: Op, answer: MediaAnswer)
    requires Shaped(s) && RequestPlaced(s.cfg, op.request)
    ensures var out := Conclude(s, op, answer);
            ConcludesQuietly(s, op, out) || ConcludesMinting(s, op, out)
  {
  }

  /** Where an effect comes from a slot that satisfies the data invariant, it is sound. */
  lemma EffectOfSound(s: Model, op: Op, e: Effect)
    requires Data(s) && Shaped(s) && RequestPlaced(s.cfg, op.request) && op.state.Running? && SlotData(s, op)
    requires EffectOf(s, op, e)
    ensures EffectSound(s, e)
  {
    if e.Delivered? {
      assert CacheBacked(s, e.plane);
    }
  }

  lemma EffectOfSpent(s: Model, op: Op, e: Effect, caches: seq<PlaneCache>)
    requires Shaped(s) && RequestPlaced(s.cfg, op.request) && op.state.Running? && SlotData(s, op)
    requires EffectOf(s, op, e) && UsesToken(e)
    requires var p := PlaneIndex(s.cfg.geometry, op.request.ppa);
             |caches| == |s.caches| && caches[p].kind.NoCache? && caches[p].generation == s.caches[p].generation
    ensures SpentAt(caches, e)
  {
  }

  /** What finishing slot `i` with the given outcome does to the state. */
  ghost predicate FinishFrame(s: Model, t: Model, i: nat, out: Outcome)
    requires Shaped(s) && i < |s.ops| && s.ops[i].state.Running?
  {
    var a := s.ops[i];
    var p := PlaneIndex(s.cfg.geometry, a.request.ppa);
    && SlotOnly(s, t, i) && BooksKept(s, t) && SameFrame(s, t) && SameTails(s, t) && t.nonce == s.nonce
    && t.now == s.now && t.epoch == s.epoch && t.nextSubmit == s.nextSubmit
    && t.hist.reserved == s.hist.reserved && t.hist.accepted == s.hist.accepted && t.hist.begun == s.hist.begun
    && t.caches == s.caches[p := out.cache] && t.hist.effects == s.hist.effects + out.effects
    && t.hist.mints == (if out.minted then
         s.hist.mints[(p, out.cache.generation) := Mint(a.submitSequence, s.epoch, out.cache.kind, out.cache.page)]
       else s.hist.mints)
    && SameRun(a, t.ops[i]) && DataAlike(a, t.ops[i]) && IntervalKept(a, t.ops[i])
    && t.ops[i].completion.cache == out.op.completion.cache
    && (if FinishRefused(s, out) then
          t.ops[i].state.Running? && t.ops[i].unitIndex == a.unitIndex && t.ops[i].nextTick == a.nextTick
          && t.eventCount == s.eventCount && t.phase.Faulted?
        else
          t.ops[i].state.EventPending? && t.eventCount == s.eventCount + 1
          && t.ops[i].completion.terminal == out.op.completion.terminal
          && t.ops[i].completion.statusTick == t.ops[i].completion.outcomeTick == s.now)
  }

  lemma FinishRelates(s: Model, i: nat, answer: MediaAnswer)
    requires Shaped(s) && i < |s.ops| && s.ops[i].state.Running?
    ensures FinishFrame(s, Finish(s, i, answer), i, Conclude(s, s.ops[i], answer))
  {
  }

  lemma FinishData(s: Model, t: Model, i: nat, out: Outcome)
    requires Shaped(s) && Data(s) && Fresh(s) && i < |s.ops| && s.ops[i].state.Running?
    requires FinishFrame(s, t, i, out)
    requires ConcludesQuietly(s, s.ops[i], out) || ConcludesMinting(s, s.ops[i], out)
    ensures Data(t)
  {
    var p := PlaneIndex(s.cfg.geometry, s.ops[i].request.ppa);
    assert SlotData(s, s.ops[i]) && SlotFresh(s, s.ops[i]);
    if out.minted {
      assert DataMints(s, t, i, p);
      MintsKeep(s, t, i, p);
    } else {
      FinishMoves(s, t, i, out);
      MovesKeep(s, t);
    }
  }

  lemma FinishMoves(s: Model, t: Model, i: nat, out: Outcome)
    requires Shaped(s) && Data(s) && i < |s.ops| && s.ops[i].state.Running?
    requires FinishFrame(s, t, i, out) && ConcludesQuietly(s, s.ops[i], out)
    ensures DataMoves(s, t)
  {
    assert SlotData(s, s.ops[i]);
    forall k | |s.hist.effects| <= k < |t.hist.effects| ensures EffectSound(s, t.hist.effects[k]) {
      EffectOfSound(s, s.ops[i], out.effects[0]);
    }
  }

  lemma FinishSpent(s: Model, t: Model, i: nat, out: Outcome)
    requires Shaped(s) && AllSpent(s) && DeliveriesOnce(s.hist.effects) && i < |s.ops| && s.ops[i].state.Running?
    requires SlotData(s, s.ops[i])
    requires FinishFrame(s, t, i, out)
    requires ConcludesQuietly(s, s.ops[i], out) || ConcludesMinting(s, s.ops[i], out)
    ensures AllSpent(t) && DeliveriesOnce(t.hist.effects)
  {
    if out.effects != [] {
      var e := out.effects[0];
      if UsesToken(e) {
        EffectOfSpent(s, s.ops[i], e, t.caches);
      }
      DeliveredOnce(s, t, e);
    } else {
      assert t.hist.effects == s.hist.effects;
    }
    SpentKeeps(s, t);
  }

  lemma FinishSteady(s: Model, t: Model, i: nat, out: Outcome)
    requires Fresh(s) && Covered(s) && Shaped(s) && i < |s.ops| && s.ops[i].state.Running?
    requires FinishFrame(s, t, i, out) && !FinishRefused(s, out)
    requires forall j :: 0 <= j < |s.ops| && j != i && s.ops[j].state.Running? ==>
      s.ops[j].unitIndex < s.ops[j].unitCount
    ensures Fresh(t) && Covered(t) && UnitsLeft(t)
  {
    CoveredKeeps(s, t);
    forall j | 0 <= j < |t.ops| ensures SlotFresh(t, t.ops[j]) {
      assert SlotFresh(s, s.ops[j]);
    }
  }

  /** The loop may go on, or the model has halted. */
  ghost predicate GoesOn(t: Model, progress: Progress)
  {
    && Core(t) && Counted(t) && (progress.Used? ==> Working(t))
    && (progress.Used? || (progress.Halted? && t.phase.Faulted?))
  }

  /** The slot one unit further on, before anything else follows from it. */
  ghost function AfterUnit(s: Model, i: nat): Model
    requires i < |s.ops|
  {
    var op := s.ops[i].(unitIndex := s.ops[i].unitIndex + 1);
    Trace(s.(ops := s.ops[i := op])).(now := op.finishTick)
  }

  ghost predicate UnitCounted(s: Model, m: Model, i: nat)
  {
    && SlotOnly(s, m, i)
    && m == s.(ops := m.ops, now := s.ops[i].finishTick, phase := m.phase, traceCount := m.traceCount)
    && m.ops[i] == s.ops[i].(unitIndex := s.ops[i].unitIndex + 1)
  }

  function EndProgress(t: Model, i: nat): Progress
    requires i < |t.ops|
  {
    if t.ops[i].state.EventPending? then Used else Halted(InvariantFailure)
  }

  lemma LastUnitRelates(s: Model, i: nat, answer: MediaAnswer)
    requires Shaped(s) && i < |s.ops| && s.ops[i].state.Running?
    requires s.ops[i].unitIndex + 1 == s.ops[i].unitCount
    ensures var m := AfterUnit(s, i);
            && Shaped(m) && UnitCounted(s, m, i) && RunUnit(s, i, answer).0 == Finish(m, i, answer)
            && RunUnit(s, i, answer).1 == EndProgress(Finish(m, i, answer), i)
  {
  }

  lemma LastUnitInv(s: Model, i: nat, answer: MediaAnswer)
    requires Working(s) && Foremost(s.ops, |s.ops|, i) && s.ops[i].state.Running? && s.ops[i].nextTick <= s.now
    requires s.ops[i].unitIndex + 1 == s.ops[i].unitCount
    ensures GoesOn(RunUnit(s, i, answer).0, RunUnit(s, i, answer).1)
  {
    var m := AfterUnit(s, i);
    var t := RunUnit(s, i, answer).0;
    LastUnitRelates(s, i, answer);
    var out := Conclude(m, m.ops[i], answer);
    FinishRelates(m, i, answer);
    ConcludeCases(m, m.ops[i], answer);
    PendingUpdate(s.ops, i, m.ops[i]);
    PendingBound(m.ops, i);
    LastUnitEnds(s, m, t, i, out);
  }

  lemma LastUnitTimed(s: Model, m: Model, t: Model, i: nat, out: Outcome)
    requires Shaped(s) && Shaped(m) && Foremost(s.ops, |s.ops|, i) && s.ops[i].state.Running?
    requires s.ops[i].unitIndex + 1 == s.ops[i].unitCount && s.ops[i].nextTick <= s.now
    requires SlotTimed(s.ops[i], s.now, s.nextSubmit)
    requires UnitCounted(s, m, i) && FinishFrame(m, t, i, out)
    ensures Ends(s, t, i) && BooksKept(s, t) && PlanKept(s, t) && m.now == s.now
  {
    var a := s.ops[i];
    UnitTickBounds(a.startTick, a.finishTick, a.unitIndex, a.unitCount);
    assert t.ops == s.ops[i := t.ops[i]];
    SlotPlan(s, t, i);
  }

  /** Another slot is not pending while this one finishes, so the event table has room. */
  lemma LastUnitEnds(s: Model, m: Model, t: Model, i: nat, out: Outcome)
    requires Working(s) && Shaped(m) && Shaped(t) && Foremost(s.ops, |s.ops|, i) && s.ops[i].state.Running?
    requires s.ops[i].unitIndex + 1 == s.ops[i].unitCount && s.ops[i].nextTick <= s.now
    requires UnitCounted(s, m, i) && FinishFrame(m, t, i, out) && (FinishRefused(m, out) <==> !out.ok)
    requires ConcludesQuietly(m, m.ops[i], out) || ConcludesMinting(m, m.ops[i], out)
    ensures GoesOn(t, EndProgress(t, i))
  {
    assert SlotTimed(s.ops[i], s.now, s.nextSubmit);
    LastUnitTimed(s, m, t, i, out);
    EndKeeps(s, t, i);
    KeptKeeps(s, t);
    PlanKeptKeeps(s, t);
    LastUnitData(s, m, t, i, out);
    PendingUpdate(s.ops, i, t.ops[i]);
  }

  lemma LastUnitData(s: Model, m: Model, t: Model, i: nat, out: Outcome)
    requires Data(s) && Steady(s) && DeliveriesOnce(s.hist.effects) && Shaped(m) && i < |s.ops|
    requires s.ops[i].state.Running?
    requires UnitCounted(s, m, i) && FinishFrame(m, t, i, out) && (FinishRefused(m, out) <==> !out.ok)
    requires ConcludesQuietly(m, m.ops[i], out) || ConcludesMinting(m, m.ops[i], out)
    ensures Data(t) && DeliveriesOnce(t.hist.effects) && (out.ok ==> Steady(t))
  {
    SlotMoves(s, m, i);
    MovesKeep(s, m);
    LastUnitFresh(s, m, i);
    FinishData(m, t, i, out);
    FinishSpent(m, t, i, out);
    if out.ok {
      FinishSteady(m, t, i, out);
    }
  }

  lemma LastUnitFresh(s: Model, m: Model, i: nat)
    requires Steady(s) && SlotOnly(s, m, i) && SameSetting(s, m) && SameTails(s, m)
    requires m.hist.reserved == s.hist.reserved && m.ops[i] == s.ops[i].(unitIndex := s.ops[i].unitIndex + 1)
    ensures Fresh(m) && Covered(m) && AllSpent(m)
  {
    CoveredKeeps(s, m);
    SpentKeeps(s, m);
    forall j | 0 <= j < |m.ops| ensures SlotFresh(m, m.ops[j]) {
      assert SlotFresh(s, s.ops[j]);
    }
  }

  lemma UnitRelates(s: Model, i: nat, answer: MediaAnswer)
    requires Shaped(s) && i < |s.ops| && s.ops[i].state.Running?
    requires s.ops[i].unitIndex + 1 < s.ops[i].unitCount
    ensures var t := RunUnit(s, i, answer).0;
            && RunUnit(s, i, answer).1.Used? && Continues(s, t, i) && SameSetting(s, t) && BooksKept(s, t)
            && SameFrame(s, t) && SameTails(s, t) && t.eventCount == s.eventCount
            && t.hist.reserved == s.hist.reserved && t.hist.begun == s.hist.begun
            && IntervalKept(s.ops[i], t.ops[i]) && DataAlike(s.ops[i], t.ops[i])
            && t.ops[i].resetOwned == s.ops[i].resetOwned
            && t.ops[i].completion == s.ops[i].completion
  {
    var t := RunUnit(s, i, answer).0;
    assert t.ops == s.ops[i := t.ops[i]];
  }

  lemma UnitInv(s: Model, i: nat, answer: MediaAnswer)
    requires Working(s) && i < |s.ops| && s.ops[i].state.Running?
    requires s.ops[i].unitIndex + 1 < s.ops[i].unitCount
    ensures GoesOn(RunUnit(s, i, answer).0, RunUnit(s, i, answer).1)
  {
    UnitRelates(s, i, answer);
    ContinuesInv(s, RunUnit(s, i, answer).0, i);
  }

  lemma ContinuesInv(s: Model, t: Model, i: nat)
    requires Working(s) && Shaped(t) && Continues(s, t, i) && SameSetting(s, t) && BooksKept(s, t)
    requires SameFrame(s, t) && SameTails(s, t) && t.eventCount == s.eventCount
    requires t.hist.reserved == s.hist.reserved && t.hist.begun == s.hist.begun
    requires IntervalKept(s.ops[i], t.ops[i]) && DataAlike(s.ops[i], t.ops[i])
    requires t.ops[i].resetOwned == s.ops[i].resetOwned
    ensures Working(t)
  {
    assert SlotFresh(s, s.ops[i]);
    ContinueKeeps(s, t, i);
    KeptKeeps(s, t);
    SlotPlan(s, t, i);
    PlanKeptKeeps(s, t);
    SlotMoves(s, t, i);
    MovesKeep(s, t);
    CoveredKeeps(s, t);
    SlotSteady(s, t, i);
    PendingUpdate(s.ops, i, t.ops[i]);
  }

  lemma ServeQueued(s: Model, i: nat)
    requires Working(s) && Foremost(s.ops, |s.ops|, i) && s.ops[i].state.Queued?
    ensures if Unschedulable(s, s.ops[i].request) then GoesOn(s.(phase := Faulted), Halted(CounterExhausted))
            else GoesOn(Schedule(s, i), Used)
  {
    if Unschedulable(s, s.ops[i].request) {
      CalmCore(s, s.(phase := Faulted));
    } else {
      ScheduleInv(s, i);
    }
  }

  lemma ServeScheduled(s: Model, i: nat, answer: MediaAnswer)
    requires Working(s) && Foremost(s.ops, |s.ops|, i) && s.ops[i].state.Scheduled? && s.ops[i].nextTick <= s.now
    ensures var t := Begin(s, i, answer);
            GoesOn(t, if t.ops[i].state.Running? then Used else Halted(InvariantFailure))
  {
    BeginInv(s, i, answer);
  }

  lemma ServeRunning(s: Model, i: nat, answer: MediaAnswer)
    requires Working(s) && Foremost(s.ops, |s.ops|, i) && s.ops[i].state.Running? && s.ops[i].nextTick <= s.now
    requires s.ops[i].unitIndex < s.ops[i].unitCount
    ensures GoesOn(RunUnit(s, i, answer).0, RunUnit(s, i, answer).1)
  {
    if s.ops[i].unitIndex + 1 < s.ops[i].unitCount {
      UnitInv(s, i, answer);
    } else {
      LastUnitInv(s, i, answer);
    }
  }

  lemma ServeInv(s: Model, i: nat, answer: MediaAnswer)
    requires Working(s) && Foremost(s.ops, |s.ops|, i) && s.ops[i].nextTick <= s.now
    ensures GoesOn(Serve(s, i, answer).0, Serve(s, i, answer).1)
  {
    if s.ops[i].state.Queued? {
      ServeQueued(s, i);
    } else if s.ops[i].state.Scheduled? {
      ServeScheduled(s, i, answer);
    } else {
      ServeRunning(s, i, answer);
    }
  }

  /** One iteration of the step loop: a unit is used, or nothing is left to do, or the model halts. */
  lemma StepUnitInv(s: Model, answer: MediaAnswer)
    requires Working(s)
    ensures var (t, progress) := StepUnit(s, answer);
            GoesOn(t, progress) || (progress.Idle? && t == s)
  {
    var next := NextOperation(s.ops, |s.ops|);
    if next.Some? {
      var i := next.value;
      if s.ops[i].nextTick > s.now {
        assert Ticks(s, StepUnit(s, answer).0, i);
        TickInv(s, StepUnit(s, answer).0, i);
      } else {
        ServeInv(s, i, answer);
      }
    }
  }
}
