/**
 The controller as the program keeps it: slot, cache and tail tables updated in place.
 Each method changes the tables the way the pure transition of the same name says.
 */
module NfcController {
  import opened NfcTypes
  import opened NfcModel
  import opened NfcInvariant
  import M = NfcModel
  import T = NfcTheorems

  /** Once nothing is pending, polling changes nothing. */
  lemma {:induction false} PollIdle(s: Model, budget: nat)
    requires Shaped(s) && M.NextEvent(s.ops, |s.ops|).None?
    ensures M.Poll(s, budget) == s
  {
    if budget != 0 {
      PollIdle(s, budget - 1);
    }
  }

  lemma ReachableWorks(s: Model)
    requires T.Reachable(s) && (s.phase.Ready? || s.phase.ResetDrain?)
    ensures Working(s)
  {
    T.ReachableInv(s);
  }

  // ---------------------------------------------------------------- each call leads to a reachable state

  lemma SubmitReaches(s: Model, r: Request, buffers: BufferAnswer)
    requires Shaped(s) && T.Reachable(s)
    ensures T.Reachable(M.TrySubmit(s, r, buffers).0)
  {
    T.ReachesOn(s, T.Submit(r, buffers));
  }

  lemma CancelReaches(s: Model, token: OperationToken)
    requires Shaped(s) && T.Reachable(s)
    ensures T.Reachable(M.Cancel(s, token).0)
  {
    T.ReachesOn(s, T.CancelOp(token));
  }

  lemma StepReaches(s: Model, answers: seq<MediaAnswer>)
    requires Shaped(s) && T.Reachable(s)
    ensures T.Reachable(M.Step(s, answers).0)
  {
    T.ReachesOn(s, T.Advance(answers));
  }

  lemma PollReaches(s: Model, budget: nat)
    requires Shaped(s) && T.Reachable(s)
    ensures T.Reachable(M.Poll(s, budget))
  {
    T.ReachesOn(s, T.Collect(budget));
  }

  lemma ResetReaches(s: Model, nonce: nat, oldEpoch: nat)
    requires Shaped(s) && T.Reachable(s)
    ensures T.Reachable(M.ResetBegin(s, nonce, oldEpoch).0)
  {
    T.ReachesOn(s, T.Reset(nonce, oldEpoch));
  }

  lemma QuiescentReaches(s: Model, nonce: nat, oldEpoch: nat)
    requires Shaped(s) && T.Reachable(s)
    ensures T.Reachable(M.Quiescent(s, nonce, oldEpoch).0)
  {
    T.ReachesOn(s, T.CheckQuiescent(nonce, oldEpoch));
  }

  lemma PowerLossReaches(s: Model, mediaOk: seq<bool>)
    requires Shaped(s) && T.Reachable(s)
    ensures T.Reachable(M.PowerLoss(s, mediaOk).0)
  {
    T.ReachesOn(s, T.CutPower(mediaOk));
  }

  class Controller {
    const cfg: Config
    const nonce: nat
    var now: nat
    var nextUid: nat
    var epoch: nat
    var nextSubmit: nat
    var nextArray: nat
    var phase: Phase
    var traceCount: nat
    var eventCount: int
    const ops: array<Op>
    const caches: array<PlaneCache>
    const channelTail: array<nat>
    const arrayTail: array<nat>
    const cacheTail: array<nat>
    ghost var hist: History

    ghost function View(): Model
      reads this, ops, caches, channelTail, arrayTail, cacheTail
    {
      Model(cfg, nonce, now, nextUid, epoch, nextSubmit, nextArray, phase, traceCount, eventCount,
            ops[..], caches[..], channelTail[..], arrayTail[..], cacheTail[..], hist)
    }

    /** The tables have their sizes and no two tails share an array. */
    ghost predicate Framed()
      reads this, ops, caches, channelTail, arrayTail, cacheTail
    {
      && Shaped(View())
      && channelTail != arrayTail && channelTail != cacheTail && arrayTail != cacheTail
    }

    /**
     What every call of the controller's table relies on and keeps: the tables are those of a state that a
     run of the model reaches.  The invariant, and whatever else holds over all runs, holds of them.
     */
    ghost predicate Valid()
      reads this, ops, caches, channelTail, arrayTail, cacheTail
    {
      Framed() && T.Reachable(View())
    }

    lemma InitialValid()
      requires ConfigValid(cfg) && Framed() && View() == Initial(cfg, nonce)
      ensures Valid()
    {
      T.InitialReached(cfg, nonce);
    }

    /** The scan of the step loop. */
    method NextOperation() returns (best: Option<nat>)
      ensures best == M.NextOperation(ops[..], ops.Length)
    {
      best := None;
      for n := 0 to ops.Length
        invariant best == M.NextOperation(ops[..], n)
      {
        if Candidate(ops[n]) && (best.None? || OperationLess(ops[n], n, ops[best.value], best.value)) {
          best := Some(n);
        }
      }
    }

    /** The scan of poll. */
    method NextEvent() returns (best: Option<nat>)
      ensures best == M.NextEvent(ops[..], ops.Length)
    {
      best := None;
      for n := 0 to ops.Length
        invariant best == M.NextEvent(ops[..], n)
      {
        if ops[n].state.EventPending? && (best.None? || EventLess(ops[n], n, ops[best.value], best.value)) {
          best := Some(n);
        }
      }
    }

    method FindOperation(token: OperationToken) returns (found: Option<nat>)
      ensures found == M.FindOperation(ops[..], token, 0)
    {
      for i := 0 to ops.Length
        invariant M.FindOperation(ops[..], token, 0) == M.FindOperation(ops[..], token, i)
      {
        if !ops[i].state.Free? && ops[i].request.operation == token {
          return Some(i);
        }
      }
      return None;
    }

    method FreeOperation() returns (found: Option<nat>)
      ensures found == M.FreeOperation(ops[..], 0)
    {
      for i := 0 to ops.Length
        invariant M.FreeOperation(ops[..], 0) == M.FreeOperation(ops[..], i)
      {
        if ops[i].state.Free? {
          return Some(i);
        }
      }
      return None;
    }

    method Trace()
      modifies this`phase, this`traceCount
      ensures View() == M.Trace(old(View()))
    {
      if traceCount >= cfg.capacity.traceEntries {
        phase := Faulted;
      } else {
        traceCount := traceCount + 1;
      }
    }

    method TrySubmit(r: Request, buffers: BufferAnswer) returns (result: SubmitResult)
      requires Valid()
      modifies this, ops
      ensures Valid()
      ensures (View(), result) == M.TrySubmit(old(View()), r, buffers)
    {
      SubmitReaches(View(), r, buffers);
      result := Enter(r, buffers);
    }

    method Enter(r: Request, buffers: BufferAnswer) returns (result: SubmitResult)
      requires Framed()
      modifies this, ops
      ensures Framed()
      ensures (View(), result) == M.TrySubmit(old(View()), r, buffers)
    {
      if phase != Ready {
        return Backpressure(REASON_RESET);
      }
      if !RequestShapeValid(cfg, nonce, epoch, r) {
        return Rejected(REASON_RANGE);
      }
      var known := FindOperation(r.operation);
      if known.Some? || r.operation.operationUid < nextUid {
        return Rejected(REASON_STALE);
      }
      var slot := FreeOperation();
      if slot.None? {
        return Backpressure(REASON_NONE);
      }
      if nextSubmit > cfg.capacity.submitSequenceLimit {
        return Rejected(REASON_INTERNAL);
      }
      var i := slot.value;
      var sequence := nextSubmit;
      nextSubmit := nextSubmit + 1;
      if CaptureFails(r, buffers) {
        ops[i] := FREE_OP;
        assert ops[..] == old(ops[..])[i := FREE_OP];
        return Rejected(REASON_RANGE);
      }
      Accept(i, sequence, r, buffers);
      return SubmitResult.Accepted;
    }

    /** Fills the free slot; the sequence number has been taken already. */
    method Accept(i: nat, sequence: nat, r: Request, buffers: BufferAnswer)
      requires Framed() && i < ops.Length && RequestPlaced(cfg, r) && nextSubmit == sequence + 1
      modifies this`phase, this`traceCount, this`hist, this`nextUid, ops
      ensures Framed()
      ensures View() == M.Accept(old(View()).(nextSubmit := sequence), i, r, buffers)
    {
      ops[i] := AcceptedOp(cfg, now, sequence, r, buffers);
      assert ops[..] == old(ops[..])[i := ops[i]];
      hist := hist.(accepted := hist.accepted[sequence := Acceptance(r, CapturedPage(cfg, r, buffers))]);
      Trace();
      nextUid := r.operation.operationUid + 1;
    }

    method Cancel(token: OperationToken) returns (result: ApiResult)
      requires Valid()
      modifies this, ops
      ensures Valid()
      ensures (View(), result) == M.Cancel(old(View()), token)
    {
      CancelReaches(View(), token);
      var slot := FindOperation(token);
      if slot.None? {
        return NotFound;
      }
      var i := slot.value;
      ops[i] := ops[i].(cancelRequested := true);
      assert ops[..] == old(ops[..])[i := ops[i]];
      Trace();
      return Ok;
    }

    /** Reserves the operation's resources; refuses what would pass the tick limit. */
    method ScheduleOperation(i: nat) returns (ok: bool)
      requires Framed() && i < ops.Length && ops[i].state.Queued?
      modifies this`phase, this`traceCount, this`hist, ops, channelTail, arrayTail, cacheTail
      ensures Framed()
      ensures ok <==> !Unschedulable(old(View()), old(ops[i]).request)
      ensures View() == if ok then Schedule(old(View()), i) else old(View())
    {
      var op := ops[i];
      var r := op.request;
      var g := cfg.geometry;
      assert SlotShaped(cfg, op);
      var plane := PlaneIndex(g, r.ppa);
      var lane := LaneIndex(g, r.ppa);
      var duration := Duration(cfg, r);
      var start := Max(now, cacheTail[plane]);
      if UsesChannel(r) {
        start := Max(start, channelTail[r.ppa.channel]);
      } else {
        start := Max(start, arrayTail[lane]);
      }
      assert start == StartTick(View(), r);
      if duration == 0 || start > SubU64(cfg.capacity.virtualTickLimit, duration) {
        return false;
      }
      Reserve(i, plane, lane, start, start + duration);
      return true;
    }

    method Reserve(i: nat, plane: nat, lane: nat, start: nat, finish: nat)
      requires Framed() && i < ops.Length && ops[i].state.Queued?
      requires ReservationOf(View(), ops[i]).start == start && ReservationOf(View(), ops[i]).finish == finish
      requires ReservationOf(View(), ops[i]).plane == plane && ReservationOf(View(), ops[i]).lane == lane
      modifies this`phase, this`traceCount, this`hist, ops, channelTail, arrayTail, cacheTail
      ensures Framed()
      ensures View() == Schedule(old(View()), i)
    {
      var op := ops[i];
      var r := op.request;
      ghost var v := ReservationOf(View(), op);
      ops[i] := op.(state := Scheduled, startTick := start, nextTick := start, finishTick := finish);
      cacheTail[plane] := finish;
      if UsesChannel(r) {
        channelTail[r.ppa.channel] := finish;
      } else {
        arrayTail[lane] := finish;
      }
      hist := hist.(reserved := hist.reserved[op.submitSequence := v]);
      assert ops[..] == old(ops[..])[i := ops[i]] && cacheTail[..] == old(cacheTail[..])[plane := finish];
      Trace();
    }

    /** Fixes what the operation will do, by its kind, and starts its units. */
    method BeginOperation(i: nat, answer: MediaAnswer) returns (ok: bool)
      requires Framed() && i < ops.Length && ops[i].state.Scheduled?
      modifies this`phase, this`traceCount, this`hist, this`nextArray, ops
      ensures Framed()
      ensures View() == Begin(old(View()), i, answer)
      ensures ok <==> ops[i].state.Running?
    {
      assert SlotShaped(cfg, ops[i]);
      var at := Site(cfg, nonce, epoch, now, caches[PlaneIndex(cfg.geometry, ops[i].request.ppa)]);
      var o := PreflightAt(at, ops[i], answer);
      if UsesArray(o.request) && nextArray > cfg.capacity.submitSequenceLimit {
        ops[i] := o;
        assert ops[..] == old(ops[..])[i := o];
        phase := Faulted;
        return false;
      }
      ops[i] := BegunOp(cfg, nextArray, o);
      assert ops[..] == old(ops[..])[i := ops[i]];
      if UsesArray(o.request) {
        nextArray := nextArray + 1;
      }
      hist := hist.(begun := hist.begun[o.submitSequence := Beginning(now, epoch, o.legality, o.faultClass, o.page)]);
      Trace();
      return true;
    }

    /** Ends the operation: its effect, its completion and the plane's cache. */
    method FinishOperation(i: nat, answer: MediaAnswer) returns (ok: bool)
      requires Framed() && i < ops.Length && ops[i].state.Running?
      modifies this`phase, this`traceCount, this`hist, this`eventCount, ops, caches
      ensures Framed()
      ensures View() == Finish(old(View()), i, answer)
      ensures ok <==> ops[i].state.EventPending?
    {
      assert SlotShaped(cfg, ops[i]);
      var plane := PlaneIndex(cfg.geometry, ops[i].request.ppa);
      var out := ConcludeAt(Site(cfg, nonce, epoch, now, caches[plane]), ops[i], answer);
      ok := StoreOutcome(i, plane, out);
    }

    method StoreOutcome(i: nat, plane: nat, out: Outcome) returns (ok: bool)
      requires Framed() && i < ops.Length && ops[i].state.Running? && ConcludeFrame(ops[i], out.op)
      requires SlotShaped(cfg, ops[i]) && plane == PlaneIndex(cfg.geometry, ops[i].request.ppa)
      modifies this`phase, this`traceCount, this`hist, this`eventCount, ops, caches
      ensures Framed()
      ensures View() == FinishWith(old(View()), i, out)
      ensures ok <==> ops[i].state.EventPending?
    {
      caches[plane] := out.cache;
      assert caches[..] == old(caches[..])[plane := out.cache];
      ghost var mint := Mint(ops[i].submitSequence, epoch, out.cache.kind, out.cache.page);
      hist := hist.(effects := hist.effects + out.effects,
                    mints := if out.minted then hist.mints[(plane, out.cache.generation) := mint] else hist.mints);
      if !out.ok || eventCount >= cfg.capacity.terminalEvents {
        ops[i] := out.op;
        assert ops[..] == old(ops[..])[i := out.op];
        phase := Faulted;
        return false;
      }
      ops[i] := FinishedOp(out.op, now);
      assert ops[..] == old(ops[..])[i := ops[i]];
      eventCount := eventCount + 1;
      Trace();
      return true;
    }

    /** One more unit of a running operation. */
    method RunUnit(i: nat, answer: MediaAnswer) returns (ok: bool)
      requires Framed() && i < ops.Length && ops[i].state.Running? && ops[i].unitIndex < ops[i].unitCount
      modifies this`phase, this`traceCount, this`hist, this`eventCount, this`now, ops, caches
      ensures Framed()
      ensures (View(), if ok then Used else Halted(InvariantFailure)) == M.RunUnit(old(View()), i, answer)
    {
      assert SlotShaped(cfg, ops[i]);
      var op := ops[i].(unitIndex := ops[i].unitIndex + 1);
      ops[i] := op;
      assert ops[..] == old(ops[..])[i := op];
      Trace();
      if op.unitIndex == op.unitCount {
        now := op.finishTick;
        ok := FinishOperation(i, answer);
      } else {
        ghost var before := ops[..];
        ops[i] := op.(nextTick := UnitDeadline(op));
        assert ops[..] == before[i := ops[i]];
        ok := true;
      }
    }

    method Serve(i: nat, answer: MediaAnswer) returns (progress: Progress)
      requires Framed() && i < ops.Length && Candidate(ops[i])
      modifies this, ops, caches, channelTail, arrayTail, cacheTail
      ensures Framed()
      ensures (View(), progress) == M.Serve(old(View()), i, answer)
    {
      var ok;
      if ops[i].state.Queued? {
        ok := ScheduleOperation(i);
        if !ok {
          phase := Faulted;
          return Halted(CounterExhausted);
        }
        return Used;
      }
      if ops[i].state.Scheduled? {
        ok := BeginOperation(i, answer);
      } else if ops[i].unitIndex < ops[i].unitCount {
        ok := RunUnit(i, answer);
      } else {
        return Stuck;
      }
      return if ok then Used else Halted(InvariantFailure);
    }

    /** One iteration of the step loop. */
    method StepUnit(answer: MediaAnswer) returns (progress: Progress)
      requires Framed()
      modifies this, ops, caches, channelTail, arrayTail, cacheTail
      ensures Framed()
      ensures (View(), progress) == M.StepUnit(old(View()), answer)
    {
      var next := NextOperation();
      if next.None? {
        return Idle;
      }
      if ops[next.value].nextTick > now {
        now := ops[next.value].nextTick;
        return Used;
      }
      progress := Serve(next.value, answer);
    }

    /** The step loop: one unit for each answer, until nothing is due or the model halts. */
    method Step(answers: seq<MediaAnswer>) returns (result: ApiResult, used: nat)
      requires Valid()
      modifies this, ops, caches, channelTail, arrayTail, cacheTail
      ensures Valid() && used <= |answers|
      ensures (View(), result) == M.Step(old(View()), answers)
    {
      if answers == [] || phase == PoweredOff || phase == Faulted {
        return InvalidContract, 0;
      }
      StepReaches(View(), answers);
      ReachableWorks(View());
      result, used := UseUnits(answers);
    }

    method UseUnits(answers: seq<MediaAnswer>) returns (result: ApiResult, used: nat)
      requires Framed() && Working(View())
      modifies this, ops, caches, channelTail, arrayTail, cacheTail
      ensures Framed() && used <= |answers|
      ensures (View(), result) == StepLoop(old(View()), answers)
    {
      used := 0;
      ghost var s := View();
      while used < |answers|
        invariant used <= |answers| && Framed() && Working(View())
        invariant StepLoop(s, answers) == StepLoop(View(), answers[used..])
        decreases |answers| - used
      {
        StepUnitInv(View(), answers[used]);
        assert answers[used..][0] == answers[used] && answers[used..][1..] == answers[used + 1..];
        var progress := StepUnit(answers[used]);
        match progress {
          case Used => used := used + 1;
          case Idle => return Ok, used;
          case Halted(reason) => return reason, used;
          case Stuck => assert false;
        }
      }
      return Ok, used;
    }

    method Report(i: nat) returns (event: Completion)
      requires Framed() && i < ops.Length && ops[i].state.EventPending?
      modifies this`phase, this`traceCount, this`eventCount, this`hist, ops
      ensures Framed() && event == old(ops[i]).completion
      ensures View() == M.Report(old(View()), i)
    {
      event := ops[i].completion;
      Trace();
      ops[i] := FREE_OP;
      assert ops[..] == old(ops[..])[i := FREE_OP];
      eventCount := eventCount - 1;
      hist := hist.(reports := hist.reports + [event]);
    }

    /** Collects pending completions in order, as many as the budget and the table allow. */
    method Poll(budget: nat, capacity: nat) returns (result: ApiResult, events: seq<Completion>)
      requires Valid()
      modifies this, ops
      ensures Valid()
      ensures result.InvalidContract? <==> budget == 0 || capacity == 0
      ensures View() == M.Poll(old(View()), if budget < capacity then budget else capacity)
      ensures hist.reports == old(hist.reports) + events
    {
      if budget == 0 || capacity == 0 {
        return InvalidContract, [];
      }
      var limit := if budget < capacity then budget else capacity;
      PollReaches(View(), limit);
      events := CollectEvents(limit);
      result := Ok;
    }

    /** Takes the next completion, if one is pending; the rest of the budget then collects the rest. */
    method CollectNext(ghost left: nat) returns (event: Option<Completion>)
      requires Framed()
      modifies this, ops
      ensures Framed()
      ensures M.Poll(old(View()), left + 1) == if event.Some? then M.Poll(View(), left) else View()
      ensures hist.reports == old(hist.reports) + if event.Some? then [event.value] else []
    {
      var next := NextEvent();
      if next.None? {
        PollIdle(View(), left + 1);
        return None;
      }
      var taken := Report(next.value);
      return Some(taken);
    }

    method CollectEvents(limit: nat) returns (events: seq<Completion>)
      requires Framed()
      modifies this, ops
      ensures Framed()
      ensures View() == M.Poll(old(View()), limit)
      ensures hist.reports == old(hist.reports) + events
    {
      events := [];
      ghost var s := View();
      while |events| < limit
        invariant Framed() && |events| <= limit
        invariant M.Poll(s, limit) == M.Poll(View(), limit - |events|)
        invariant hist.reports == s.hist.reports + events
        decreases limit - |events|
      {
        var event := CollectNext(limit - |events| - 1);
        if event.None? {
          break;
        }
        events := events + [event.value];
      }
    }

    /** Empties the plane caches one by one; stops at one whose generation is used up. */
    method ResetCaches() returns (stop: nat)
      requires Framed()
      modifies caches
      ensures stop == ExhaustedCache(old(caches[..]), cfg.capacity.cacheGenerationLimit, 0)
      ensures forall p :: 0 <= p < caches.Length ==>
        caches[p] == if p < stop then ResetCache(old(caches[p]), epoch) else old(caches[p])
    {
      ghost var was := caches[..];
      for p := 0 to caches.Length
        invariant ExhaustedCache(was, cfg.capacity.cacheGenerationLimit, 0)
               == ExhaustedCache(was, cfg.capacity.cacheGenerationLimit, p)
        invariant forall q :: 0 <= q < p ==> caches[q] == ResetCache(was[q], epoch)
        invariant forall q :: p <= q < caches.Length ==> caches[q] == was[q]
      {
        if caches[p].generation >= cfg.capacity.cacheGenerationLimit {
          return p;
        }
        caches[p] := ResetCache(caches[p], epoch);
      }
      return caches.Length;
    }

    /** Hands every operation that has not finished over to the reset. */
    method MarkOps()
      modifies ops
      ensures ops[..] == ResetOps(old(ops[..]))
    {
      for i := 0 to ops.Length
        invariant forall j :: 0 <= j < i ==> ops[j] == ResetOp(old(ops[j]))
        invariant forall j :: i <= j < ops.Length ==> ops[j] == old(ops[j])
      {
        ops[i] := ResetOp(ops[i]);
      }
    }

    method ResetBegin(instanceNonce: nat, oldEpoch: nat) returns (result: ApiResult)
      requires Valid()
      modifies this, ops, caches
      ensures Valid()
      ensures (View(), result) == M.ResetBegin(old(View()), instanceNonce, oldEpoch)
    {
      ResetReaches(View(), instanceNonce, oldEpoch);
      result := EnterReset(instanceNonce, oldEpoch);
    }

    method EnterReset(instanceNonce: nat, oldEpoch: nat) returns (result: ApiResult)
      requires Framed()
      modifies this, ops, caches
      ensures Framed()
      ensures (View(), result) == M.ResetBegin(old(View()), instanceNonce, oldEpoch)
    {
      if instanceNonce != nonce || oldEpoch != epoch || phase != Ready
         || oldEpoch >= cfg.capacity.controllerEpochLimit {
        return InvalidContract;
      }
      phase := ResetDrain;
      epoch := epoch + 1;
      ghost var was := caches[..];
      var stop := ResetCaches();
      assert caches[..] == M.ResetCaches(was, stop, epoch);
      if stop < caches.Length {
        phase := Faulted;
        return CounterExhausted;
      }
      MarkOps();
      assert View() == old(View()).(phase := ResetDrain, epoch := epoch, caches := M.ResetCaches(was, stop, epoch),
                                    ops := ResetOps(old(ops[..])));
      Trace();
      return Ok;
    }

    /** Whether the drain is over; if it is, the controller is ready again. */
    method Quiescent(instanceNonce: nat, oldEpoch: nat) returns (result: ApiResult, over: bool)
      requires Valid()
      modifies this`phase
      ensures Valid()
      ensures (View(), result, over) == M.Quiescent(old(View()), instanceNonce, oldEpoch)
    {
      QuiescentReaches(View(), instanceNonce, oldEpoch);
      result, over := CheckDrained(instanceNonce, oldEpoch);
    }

    method CheckDrained(instanceNonce: nat, oldEpoch: nat) returns (result: ApiResult, over: bool)
      requires Framed()
      modifies this`phase
      ensures Framed()
      ensures (View(), result, over) == M.Quiescent(old(View()), instanceNonce, oldEpoch)
    {
      if instanceNonce != nonce || oldEpoch + 1 != epoch || phase != ResetDrain {
        return InvalidContract, false;
      }
      over := true;
      var i := 0;
      while i < ops.Length && over
        invariant 0 <= i <= ops.Length
        invariant over ==> forall j :: 0 <= j < i ==>
          ops[j].state.Free? || ops[j].request.operation.controllerEpoch != oldEpoch
        invariant !over ==> LiveWithEpoch(ops[..], oldEpoch)
        decreases ops.Length - i, over
      {
        if !ops[i].state.Free? && ops[i].request.operation.controllerEpoch == oldEpoch {
          assert !ops[..][i].state.Free? && ops[..][i].request.operation.controllerEpoch == oldEpoch;
          over := false;
        } else {
          i := i + 1;
        }
      }
      if over {
        phase := Ready;
      }
      result := Ok;
    }

    /** Clears slot `i` in a power cut, leaving the torn prefix of a running operation on the media. */
    method PowerClear(i: nat)
      requires Framed() && i < ops.Length
      modifies this`hist, ops
      ensures Framed()
      ensures View() == M.PowerClear(old(View()), i)
    {
      if !ops[i].state.Free? {
        ghost var op := ops[i];
        assert SlotShaped(cfg, op);
        ops[i] := FREE_OP;
        assert ops[..] == old(ops[..])[i := FREE_OP];
        hist := hist.(lost := hist.lost + {op.submitSequence},
                      effects := hist.effects + if op.state.Running? then PowerPrefix(cfg, op) else []);
      }
    }

    method ClearTails()
      requires Framed()
      modifies channelTail, arrayTail, cacheTail
      ensures channelTail[..] == seq(channelTail.Length, _ => 0)
      ensures arrayTail[..] == seq(arrayTail.Length, _ => 0)
      ensures cacheTail[..] == seq(cacheTail.Length, _ => 0)
    {
      forall c | 0 <= c < channelTail.Length { channelTail[c] := 0; }
      forall c | 0 <= c < arrayTail.Length { arrayTail[c] := 0; }
      forall c | 0 <= c < cacheTail.Length { cacheTail[c] := 0; }
    }

    method PowerDown()
      requires Framed()
      modifies this`phase, this`eventCount, this`traceCount, caches, channelTail, arrayTail, cacheTail
      ensures Framed()
      ensures View() == M.PowerDown(old(View()))
    {
      ClearTails();
      forall p | 0 <= p < caches.Length {
        caches[p] := caches[p].(kind := NoCache, validRegionMask := 0);
      }
      assert caches[..] == ClearCaches(old(caches[..]));
      eventCount := 0;
      phase := PoweredOff;
      Trace();
    }

    /** A cut of the drive's power. */
    method InjectPowerLoss(mediaOk: seq<bool>) returns (result: ApiResult)
      requires Valid()
      modifies this, ops, caches, channelTail, arrayTail, cacheTail
      ensures Valid()
      ensures (View(), result) == PowerLoss(old(View()), mediaOk)
    {
      PowerLossReaches(View(), mediaOk);
      result := CutPower(mediaOk);
    }

    method CutPower(mediaOk: seq<bool>) returns (result: ApiResult)
      requires Framed()
      modifies this, ops, caches, channelTail, arrayTail, cacheTail
      ensures Framed()
      ensures (View(), result) == PowerLoss(old(View()), mediaOk)
    {
      ghost var s := View();
      for i := 0 to ops.Length
        invariant Framed()
        invariant PowerClearAll(s, 0, mediaOk) == PowerClearAll(View(), i, mediaOk)
      {
        assert SlotShaped(cfg, ops[i]);
        if ops[i].state.Running? && PowerPrefix(cfg, ops[i]) != [] && i < |mediaOk| && !mediaOk[i] {
          assert PowerRefused(View(), i, mediaOk);
          phase := Faulted;
          return InvariantFailure;
        }
        PowerClear(i);
      }
      PowerDown();
      return Ok;
    }

    constructor (config: Config, instanceNonce: nat)
      requires ConfigValid(config)
      ensures Valid() && View() == Initial(config, instanceNonce)
      ensures fresh(ops) && fresh(caches) && fresh(channelTail) && fresh(arrayTail) && fresh(cacheTail)
    {
      cfg, nonce := config, instanceNonce;
      now, nextUid, epoch, nextSubmit, nextArray := 0, 1, 1, 1, 1;
      phase, traceCount, eventCount := Ready, 1, 0;
      ops := new Op[config.capacity.operations](_ => FREE_OP);
      caches := new PlaneCache[Planes(config.geometry)](_ => EMPTY_CACHE);
      channelTail := new nat[config.geometry.channels](_ => 0);
      arrayTail := new nat[Lanes(config.geometry)](_ => 0);
      cacheTail := new nat[Planes(config.geometry)](_ => 0);
      hist := History(map[], map[], map[], map[], [], [], {});
      new;
      InitialValid();
    }
  }
}
