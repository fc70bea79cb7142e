/**
 How long reservations are, and in which order: a program that began legally starts no earlier than the
 transfer that minted its token ended.  Two programs of one token therefore need room for all three.
 */
module NfcSpans {
  import opened NfcTypes
  import opened NfcModel
  import opened NfcTimeline
  import opened NfcLedger
  import opened NfcExclusion
  import opened NfcData
  import opened NfcInvariant
  import opened NfcRuns
  import opened NfcEffects
  import opened NfcTheorems

  // ---------------------------------------------------------------- the invariant

  /** The reservation is on the request's plane, lasts its duration and, if that fits below the limit, ends by it. */
  ghost predicate Spans(cfg: Config, r: Request, v: Reservation)
  {
    && PpaValid(cfg.geometry, r.ppa) && v.plane == PlaneIndex(cfg.geometry, r.ppa)
    && v.finish == v.start + Duration(cfg, r)
    && (Duration(cfg, r) <= cfg.capacity.virtualTickLimit ==> v.finish <= cfg.capacity.virtualTickLimit)
  }

  /** The operation that minted the token has ended by now. */
  ghost predicate MintPast(s: Model, key: (nat, nat), now: nat)
    requires key in s.hist.mints
  {
    var n := s.hist.mints[key].sequence;
    n in s.hist.reserved && s.hist.reserved[n].finish <= now
  }

  /** What began had a reservation, and a legal program starts after its token was minted. */
  ghost predicate BegunAfter(s: Model, n: nat)
    requires n in s.hist.begun
  {
    && n in s.hist.reserved && n in s.hist.accepted
    && var r := s.hist.accepted[n].request;
       (s.hist.begun[n].legality == 0 && r.kind == PROGRAM_EXECUTE ==>
          && PpaValid(s.cfg.geometry, r.ppa)
          && var key := (PlaneIndex(s.cfg.geometry, r.ppa), r.cache.generation);
             key in s.hist.mints && MintPast(s, key, s.hist.reserved[n].start))
  }

  ghost predicate Numbered(s: Model)
  {
    && 0 < s.nextSubmit
    && forall a :: a in s.hist.accepted ==> 0 < a <= s.cfg.capacity.submitSequenceLimit
  }

  ghost predicate Spanned(s: Model)
  {
    && Numbered(s)
    && (forall a :: a in s.hist.reserved ==>
          a in s.hist.accepted && Spans(s.cfg, s.hist.accepted[a].request, s.hist.reserved[a]))
    && (forall key :: key in s.hist.mints ==> MintPast(s, key, s.now))
    && (forall n :: n in s.hist.begun ==> BegunAfter(s, n))
  }

  // ---------------------------------------------------------------- preservation

  /** The clock does not go back and no record is rewritten. */
  ghost predicate SpansOn(s: Model, t: Model)
  {
    && RecordsGrow(s, t) && s.now <= t.now && s.nextSubmit <= t.nextSubmit
    && (forall a :: a in s.hist.reserved ==> a in t.hist.reserved && t.hist.reserved[a] == s.hist.reserved[a])
  }

  ghost predicate SameBooks(s: Model, t: Model)
  {
    && t.cfg == s.cfg && t.nonce == s.nonce && t.now == s.now && s.nextSubmit <= t.nextSubmit
    && t.hist.accepted == s.hist.accepted && t.hist.reserved == s.hist.reserved
    && t.hist.begun == s.hist.begun && t.hist.mints == s.hist.mints
  }

  lemma PastKept(s: Model, t: Model, key: (nat, nat), now: nat, later: nat)
    requires SpansOn(s, t) && key in s.hist.mints && MintPast(s, key, now) && now <= later
    ensures key in t.hist.mints && MintPast(t, key, later)
  {
  }

  lemma BegunKept(s: Model, t: Model, n: nat)
    requires SpansOn(s, t) && n in s.hist.begun && BegunAfter(s, n)
    ensures n in t.hist.begun && BegunAfter(t, n)
  {
  }

  /** New entries have what the invariant asks of them. */
  lemma SpansOnKeeps(s: Model, t: Model)
    requires Spanned(s) && SpansOn(s, t) && Numbered(t)
    requires forall a :: a in t.hist.reserved && a !in s.hist.reserved ==>
      a in t.hist.accepted && Spans(t.cfg, t.hist.accepted[a].request, t.hist.reserved[a])
    requires forall key :: key in t.hist.mints && key !in s.hist.mints ==> MintPast(t, key, t.now)
    requires forall n :: n in t.hist.begun && n !in s.hist.begun ==> BegunAfter(t, n)
    ensures Spanned(t)
  {
    forall key | key in t.hist.mints ensures MintPast(t, key, t.now) {
      if key in s.hist.mints { PastKept(s, t, key, s.now, t.now); }
    }
    forall n | n in t.hist.begun ensures BegunAfter(t, n) {
      if n in s.hist.begun { BegunKept(s, t, n); }
    }
  }

  lemma SameBooksKeeps(s: Model, t: Model)
    requires Spanned(s) && SameBooks(s, t)
    ensures Spanned(t)
  {
    SpansOnKeeps(s, t);
  }

  // ---------------------------------------------------------------- units of work

  lemma TickSpanned(s: Model, now: nat)
    requires Spanned(s) && s.now <= now
    ensures Spanned(s.(now := now))
  {
    SpansOnKeeps(s, s.(now := now));
  }

  lemma ScheduleSpans(s: Model, i: nat)
    requires Shaped(s) && i < |s.ops| && s.ops[i].state.Queued? && !Unschedulable(s, s.ops[i].request)
    ensures Spans(s.cfg, s.ops[i].request, ReservationOf(s, s.ops[i]))
  {
  }

  lemma ScheduleSpanned(s: Model, i: nat)
    requires Shaped(s) && Data(s) && Exclusion(s) && Spanned(s) && i < |s.ops| && s.ops[i].state.Queued?
    requires s.ops[i].submitSequence < s.nextSubmit && !Unschedulable(s, s.ops[i].request)
    ensures Spanned(Schedule(s, i))
  {
    ScheduleRelates(s, i);
    ScheduleSlot(s, i);
    ScheduleSpans(s, i);
    ReservedSpanned(s, Schedule(s, i), i, ReservationOf(s, s.ops[i]));
  }

  lemma ReservedSpanned(s: Model, t: Model, i: nat, v: Reservation)
    requires Spanned(s) && PlanReserves(s, t, i, v) && SameSetting(s, t) && t.hist.begun == s.hist.begun
    requires t.now == s.now && SlotData(s, s.ops[i]) && SlotReserved(s, s.ops[i])
    requires Spans(s.cfg, s.ops[i].request, v)
    ensures Spanned(t)
  {
    SpansOnKeeps(s, t);
  }

  lemma BeginSpanned(s: Model, i: nat, answer: MediaAnswer)
    requires Shaped(s) && Data(s) && Exclusion(s) && Spanned(s) && i < |s.ops| && s.ops[i].state.Scheduled?
    requires s.ops[i].nextTick <= s.now && SlotTimed(s.ops[i], s.now, s.nextSubmit) && SlotFresh(s, s.ops[i])
    ensures Spanned(Begin(s, i, answer))
  {
    var t := Begin(s, i, answer);
    BeginSlot(s, i, answer);
    if t.ops[i].state.Running? {
      BeginRelates(s, i, answer);
      BegunSpanned(s, t, i);
    } else {
      SameBooksKeeps(s, t);
    }
  }

  lemma BegunSpanned(s: Model, t: Model, i: nat)
    requires Data(s) && Spanned(s) && DataBegins(s, t, i) && Begins(s, t, i) && SlotReserved(s, s.ops[i])
    requires t.hist.reserved == s.hist.reserved
    ensures Spanned(t)
  {
    assert SlotData(s, s.ops[i]);
    BeginsAfter(s, t, i);
    OneBegunSpanned(s, t, s.ops[i].submitSequence);
  }

  lemma OneBegunSpanned(s: Model, t: Model, n: nat)
    requires Spanned(s) && SpansOn(s, t) && t.hist.reserved == s.hist.reserved && t.hist.accepted == s.hist.accepted
    requires t.hist.mints == s.hist.mints && BegunAt(s, t, n) && BegunAfter(t, n)
    ensures Spanned(t)
  {
    SpansOnKeeps(s, t);
  }

  ghost predicate BegunAt(s: Model, t: Model, n: nat)
  {
    n in t.hist.begun && t.hist.begun == s.hist.begun[n := t.hist.begun[n]]
  }

  lemma BeginsAfter(s: Model, t: Model, i: nat)
    requires Data(s) && Spanned(s) && DataBegins(s, t, i) && Begins(s, t, i) && SlotReserved(s, s.ops[i])
    requires t.hist.reserved == s.hist.reserved
    ensures BegunAfter(t, s.ops[i].submitSequence)
  {
    var b := t.ops[i];
    assert SlotData(s, s.ops[i]);
    if LegalProgram(b) {
      var p := PlaneIndex(s.cfg.geometry, b.request.ppa);
      assert CacheBacked(s, p) && MintPast(s, (p, b.request.cache.generation), s.now);
    }
  }

  lemma EndSpanned(s: Model, i: nat, answer: MediaAnswer)
    requires Shaped(s) && Data(s) && Exclusion(s) && Spanned(s) && i < |s.ops| && s.ops[i].state.Running?
    requires s.ops[i].unitIndex + 1 == s.ops[i].unitCount && SlotTimed(s.ops[i], s.now, s.nextSubmit)
    ensures Spanned(RunUnit(s, i, answer).0)
  {
    var m := AfterUnit(s, i);
    LastUnitRelates(s, i, answer);
    FinishRelates(m, i, answer);
    ConcludeCases(m, m.ops[i], answer);
    EndedSpanned(s, m, RunUnit(s, i, answer).0, i, Conclude(m, m.ops[i], answer));
  }

  lemma EndedSpanned(s: Model, m: Model, t: Model, i: nat, out: Outcome)
    requires Data(s) && Spanned(s) && Shaped(m) && i < |s.ops| && s.ops[i].state.Running?
    requires SlotTimed(s.ops[i], s.now, s.nextSubmit) && SlotReserved(s, s.ops[i])
    requires UnitCounted(s, m, i) && FinishFrame(m, t, i, out)
    requires ConcludesQuietly(m, m.ops[i], out) || ConcludesMinting(m, m.ops[i], out)
    ensures Spanned(t)
  {
    EndedData(s, m, i);
    MintsGrow(m, t, i, out);
    EndOn(s, m, t, i, out);
    MintedSpanned(s, t, s.ops[i].submitSequence);
  }

  lemma EndOn(s: Model, m: Model, t: Model, i: nat, out: Outcome)
    requires Shaped(m) && i < |s.ops| && s.ops[i].state.Running? && SlotTimed(s.ops[i], s.now, s.nextSubmit)
    requires UnitCounted(s, m, i) && FinishFrame(m, t, i, out) && RecordsGrow(m, t)
    ensures SpansOn(s, t) && t.now == s.ops[i].finishTick && t.hist.reserved == s.hist.reserved
  {
    var op := s.ops[i];
    UnitTickBounds(op.startTick, op.finishTick, DueIndex(op), op.unitCount);
  }

  /** A token is minted at the tick at which the reservation of its operation ends. */
  lemma MintedSpanned(s: Model, t: Model, n: nat)
    requires Spanned(s) && SpansOn(s, t) && t.hist.reserved == s.hist.reserved && t.hist.accepted == s.hist.accepted
    requires t.hist.begun == s.hist.begun && n in t.hist.reserved && t.hist.reserved[n].finish == t.now
    requires forall key :: key in t.hist.mints && key !in s.hist.mints ==> t.hist.mints[key].sequence == n
    ensures Spanned(t)
  {
    SpansOnKeeps(s, t);
  }

  lemma UnitSpanned(s: Model, i: nat, answer: MediaAnswer)
    requires Shaped(s) && Spanned(s) && i < |s.ops| && s.ops[i].state.Running?
    requires s.ops[i].unitIndex + 1 < s.ops[i].unitCount
    ensures Spanned(RunUnit(s, i, answer).0)
  {
    UnitRelates(s, i, answer);
    SameBooksKeeps(s, RunUnit(s, i, answer).0);
  }

  lemma ServeSpanned(s: Model, i: nat, answer: MediaAnswer)
    requires Shaped(s) && Data(s) && Exclusion(s) && Spanned(s) && i < |s.ops| && Candidate(s.ops[i])
    requires SlotTimed(s.ops[i], s.now, s.nextSubmit) && SlotFresh(s, s.ops[i]) && s.ops[i].nextTick <= s.now
    ensures Spanned(Serve(s, i, answer).0)
  {
    if s.ops[i].state.Queued? {
      if Unschedulable(s, s.ops[i].request) { SameBooksKeeps(s, s.(phase := Faulted)); } else { ScheduleSpanned(s, i); }
    } else if s.ops[i].state.Scheduled? {
      BeginSpanned(s, i, answer);
    } else if s.ops[i].unitIndex < s.ops[i].unitCount {
      RunUnitSpanned(s, i, answer);
    }
  }

  lemma RunUnitSpanned(s: Model, i: nat, answer: MediaAnswer)
    requires Shaped(s) && Data(s) && Exclusion(s) && Spanned(s) && i < |s.ops| && s.ops[i].state.Running?
    requires SlotTimed(s.ops[i], s.now, s.nextSubmit) && s.ops[i].unitIndex < s.ops[i].unitCount
    ensures Spanned(RunUnit(s, i, answer).0)
  {
    if s.ops[i].unitIndex + 1 < s.ops[i].unitCount {
      UnitSpanned(s, i, answer);
    } else {
      EndSpanned(s, i, answer);
    }
  }

  lemma StepUnitSpanned(s: Model, answer: MediaAnswer)
    requires Shaped(s) && Data(s) && Exclusion(s) && SlotsTimed(s) && Fresh(s) && Spanned(s)
    ensures Spanned(StepUnit(s, answer).0)
  {
    var next := NextOperation(s.ops, |s.ops|);
    if next.Some? {
      if s.ops[next.value].nextTick > s.now {
        TickSpanned(s, s.ops[next.value].nextTick);
      } else {
        assert SlotTimed(s.ops[next.value], s.now, s.nextSubmit) && SlotFresh(s, s.ops[next.value]);
        ServeSpanned(s, next.value, answer);
      }
    }
  }

  lemma {:induction false} StepLoopSpanned(s: Model, answers: seq<MediaAnswer>)
    requires Working(s) && Spanned(s)
    ensures Spanned(StepLoop(s, answers).0)
    decreases |answers|
  {
    if answers != [] {
      StepUnitInv(s, answers[0]);
      StepUnitSpanned(s, answers[0]);
      if StepUnit(s, answers[0]).1.Used? {
        StepLoopSpanned(StepUnit(s, answers[0]).0, answers[1..]);
      }
    }
  }

  // ---------------------------------------------------------------- the other entries

  lemma SubmitSpanned(s: Model, r: Request, buffers: BufferAnswer)
    requires Shaped(s) && Data(s) && Spanned(s)
    ensures Spanned(TrySubmit(s, r, buffers).0)
  {
    var t := TrySubmit(s, r, buffers).0;
    SubmitBooks(s, r, buffers);
    if SameBooks(s, t) { SameBooksKeeps(s, t); } else { AcceptedSpanned(s, t); }
  }

  ghost predicate BooksOne(s: Model, t: Model)
  {
    && t.cfg == s.cfg && t.nonce == s.nonce && t.now == s.now && t.nextSubmit == s.nextSubmit + 1
    && s.nextSubmit in t.hist.accepted
    && t.hist.accepted == s.hist.accepted[s.nextSubmit := t.hist.accepted[s.nextSubmit]]
    && s.nextSubmit <= s.cfg.capacity.submitSequenceLimit && t.hist.reserved == s.hist.reserved
    && t.hist.begun == s.hist.begun && t.hist.mints == s.hist.mints
  }

  lemma SubmitBooks(s: Model, r: Request, buffers: BufferAnswer)
    requires Shaped(s)
    ensures SameBooks(s, TrySubmit(s, r, buffers).0) || BooksOne(s, TrySubmit(s, r, buffers).0)
  {
  }

  lemma AcceptedSpanned(s: Model, t: Model)
    requires Spanned(s) && BooksOne(s, t) && forall a :: a in s.hist.accepted ==> a < s.nextSubmit
    ensures Spanned(t)
  {
    SpansOnKeeps(s, t);
  }

  lemma CancelSpanned(s: Model, token: OperationToken)
    requires Shaped(s) && Spanned(s)
    ensures Spanned(Cancel(s, token).0)
  {
    SameBooksKeeps(s, Cancel(s, token).0);
  }

  lemma QuiescentSpanned(s: Model, nonce: nat, oldEpoch: nat)
    requires Shaped(s) && Spanned(s)
    ensures Spanned(Quiescent(s, nonce, oldEpoch).0)
  {
    SameBooksKeeps(s, Quiescent(s, nonce, oldEpoch).0);
  }

  lemma StepSpanned(s: Model, answers: seq<MediaAnswer>)
    requires Inv(s) && Spanned(s)
    ensures Spanned(Step(s, answers).0)
  {
    if answers != [] && (s.phase.Ready? || s.phase.ResetDrain?) { StepLoopSpanned(s, answers); }
  }

  lemma {:induction false} PollSpanned(s: Model, budget: nat)
    requires Shaped(s) && Spanned(s)
    ensures Spanned(Poll(s, budget))
    decreases budget
  {
    if budget != 0 {
      SameBooksKeeps(s, PollOne(s));
      PollSpanned(PollOne(s), budget - 1);
    }
  }

  lemma {:induction false} PowerClearAllSpanned(s: Model, i: nat, mediaOk: seq<bool>)
    requires Shaped(s) && Spanned(s) && i <= |s.ops|
    ensures Spanned(PowerClearAll(s, i, mediaOk).0)
    decreases |s.ops| - i
  {
    if i < |s.ops| && !PowerRefused(s, i, mediaOk) {
      SameBooksKeeps(s, PowerClear(s, i));
      PowerClearAllSpanned(PowerClear(s, i), i + 1, mediaOk);
    }
  }

  lemma PowerLossSpanned(s: Model, mediaOk: seq<bool>)
    requires Shaped(s) && Spanned(s)
    ensures Spanned(PowerLoss(s, mediaOk).0)
  {
    PowerClearAllSpanned(s, 0, mediaOk);
    SameBooksKeeps(PowerClearAll(s, 0, mediaOk).0, PowerLoss(s, mediaOk).0);
  }

  lemma ResetSpanned(s: Model, nonce: nat, oldEpoch: nat)
    requires Shaped(s) && Spanned(s)
    ensures Spanned(ResetBegin(s, nonce, oldEpoch).0)
  {
    SameBooksKeeps(s, ResetBegin(s, nonce, oldEpoch).0);
  }

  lemma ActSpanned(s: Model, a: Action)
    requires Inv(s) && Spanned(s)
    ensures Spanned(Act(s, a))
  {
    match a
    case Submit(r, buffers) => SubmitSpanned(s, r, buffers);
    case CancelOp(token) => CancelSpanned(s, token);
    case Advance(answers) => StepSpanned(s, answers);
    case Collect(budget) => PollSpanned(s, budget);
    case Reset(nonce, oldEpoch) => ResetSpanned(s, nonce, oldEpoch);
    case CheckQuiescent(nonce, oldEpoch) => QuiescentSpanned(s, nonce, oldEpoch);
    case CutPower(mediaOk) => PowerLossSpanned(s, mediaOk);
  }

  lemma {:induction false} RunSpanned(s: Model, run: seq<Action>)
    requires Inv(s) && Spanned(s)
    ensures Spanned(Exec(s, run))
    decreases |run|
  {
    if run != [] {
      ActKeeps(s, run[0]);
      ActSpanned(s, run[0]);
      RunSpanned(Act(s, run[0]), run[1..]);
    }
  }

  lemma ReachableSpanned(s: Model)
    requires Reachable(s)
    ensures Spanned(s)
  {
    var cfg, nonce, run :| ConfigValid(cfg) && s == Exec(Initial(cfg, nonce), run);
    InitialInv(cfg, nonce);
    RunSpanned(Initial(cfg, nonce), run);
  }

  // ---------------------------------------------------------------- what two uses take

  function TransferTicks(cfg: Config, units: nat): nat { cfg.timing.command + units * cfg.timing.transferPerUnit }

  function ProgramTicks(cfg: Config, units: nat): nat
  {
    cfg.timing.programSetup + units * cfg.timing.programPerUnit + cfg.timing.programStatus
  }

  /**
   Numbers for three operations, and time for a transfer and two programs of one region, unless a program
   of two regions is longer than the tick limit: then the unsigned test of the limit lets it through.
   */
  predicate Roomy(cfg: Config)
  {
    && 3 <= cfg.capacity.submitSequenceLimit && 3 <= cfg.capacity.operationUidLimit
    && (|| TransferTicks(cfg, 1) + 2 * ProgramTicks(cfg, 1) <= cfg.capacity.virtualTickLimit
        || ProgramTicks(cfg, 2) > cfg.capacity.virtualTickLimit)
  }

  /** An operation that makes two calls has two in the list of its own. */
  lemma {:induction false} CallListed(effects: seq<Effect>, k: nat)
    requires k < |effects|
    ensures |EffectsOf(effects, effects[k].sequence)| >= 1
  {
    var last := |effects| - 1;
    if k < last { CallListed(effects[..last], k); }
  }

  lemma {:induction false} CallsListed(effects: seq<Effect>, k: nat, l: nat)
    requires k < l < |effects| && effects[k].sequence == effects[l].sequence
    ensures |EffectsOf(effects, effects[k].sequence)| >= 2
  {
    var last := |effects| - 1;
    if l < last { CallsListed(effects[..last], k, l); } else { CallListed(effects[..last], k); }
  }

  /** Two calls that use one token are programs of two operations. */
  lemma UsesAreProgramsOfTwo(s: Model, k: nat, l: nat)
    requires Reachable(s) && k < l < |s.hist.effects|
    requires UsesToken(s.hist.effects[k]) && UsesToken(s.hist.effects[l])
    requires Uses(s.hist.effects[k], s.hist.effects[l].plane, s.hist.effects[l].generation)
    ensures s.hist.effects[k].Programmed? && s.hist.effects[l].Programmed?
    ensures s.hist.effects[k].sequence != s.hist.effects[l].sequence
  {
    DeliveredOnceTheorem(s);
    CallTheorem(s);
    ReachableEffect(s, k);
    ReachableEffect(s, l);
    if s.hist.effects[k].sequence == s.hist.effects[l].sequence { CallsListed(s.hist.effects, k, l); }
  }

  /** A program that used a token of that name, and the transfer that minted it. */
  ghost predicate UsedBy(s: Model, n: nat, plane: nat, generation: nat)
  {
    && n in s.hist.begun && s.hist.begun[n].legality == 0 && n in s.hist.accepted && n in s.hist.reserved
    && (plane, generation) in s.hist.mints && s.hist.mints[(plane, generation)].kind.ProgramCache?
    && var r := s.hist.accepted[n].request;
       && r.kind == PROGRAM_EXECUTE && Names(s, r, plane, generation)
       && 1 <= RegionCount(r.regionMask) <= 2
  }

  lemma ProgramUses(s: Model, k: nat)
    requires Reachable(s) && k < |s.hist.effects| && s.hist.effects[k].Programmed?
    ensures UsedBy(s, s.hist.effects[k].sequence, s.hist.effects[k].plane, s.hist.effects[k].generation)
  {
    var e := s.hist.effects[k];
    ReachableEffect(s, k);
    ReachableSpanned(s);
    assert BegunAfter(s, e.sequence);
    ShapedMask(s, e.sequence);
  }

  lemma ShapedMask(s: Model, n: nat)
    requires Reachable(s) && n in s.hist.accepted
    ensures var r := s.hist.accepted[n].request;
      && (r.kind == PROGRAM_EXECUTE || r.kind == PROGRAM_TRANSFER ==> 1 <= RegionCount(r.regionMask) <= 2)
      && 0 < r.operation.operationUid <= s.cfg.capacity.operationUidLimit
  {
    ReachableInv(s);
    var r := s.hist.accepted[n].request;
    assert RequestShapeValid(s.cfg, s.nonce, r.operation.controllerEpoch, r);
  }

  /** The reservation of such a program follows that of the transfer, which takes its own time first. */
  lemma ProgramSpan(s: Model, n: nat, plane: nat, generation: nat)
    requires Reachable(s) && UsedBy(s, n, plane, generation)
    ensures var v := s.hist.reserved[n];
      && v.plane == plane && TransferTicks(s.cfg, 1) <= v.start && v.start + ProgramTicks(s.cfg, 1) <= v.finish
      && (ProgramTicks(s.cfg, 2) <= s.cfg.capacity.virtualTickLimit ==> v.finish <= s.cfg.capacity.virtualTickLimit)
  {
    ReachableSpanned(s);
    MinterSpan(s, plane, generation);
    assert BegunAfter(s, n) && Spans(s.cfg, s.hist.accepted[n].request, s.hist.reserved[n]);
    ProgramLonger(s.cfg, s.hist.accepted[n].request);
  }

  lemma MinterSpan(s: Model, plane: nat, generation: nat)
    requires Reachable(s) && Spanned(s)
    requires (plane, generation) in s.hist.mints && s.hist.mints[(plane, generation)].kind.ProgramCache?
    ensures var m := s.hist.mints[(plane, generation)].sequence;
      && m in s.hist.accepted && s.hist.accepted[m].request.kind == PROGRAM_TRANSFER
      && m in s.hist.reserved && TransferTicks(s.cfg, 1) <= s.hist.reserved[m].finish
  {
    var m := s.hist.mints[(plane, generation)].sequence;
    ReachableMint(s, (plane, generation));
    ShapedMask(s, m);
    assert MintPast(s, (plane, generation), s.now);
    TransferLonger(s.cfg, s.hist.accepted[m].request);
  }

  lemma TransferLonger(cfg: Config, r: Request)
    requires r.kind == PROGRAM_TRANSFER && 1 <= RegionCount(r.regionMask)
    ensures TransferTicks(cfg, 1) <= Duration(cfg, r)
  {
    assert cfg.timing.transferPerUnit <= RegionCount(r.regionMask) * cfg.timing.transferPerUnit;
  }

  lemma ProgramLonger(cfg: Config, r: Request)
    requires r.kind == PROGRAM_EXECUTE && 1 <= RegionCount(r.regionMask) <= 2
    ensures ProgramTicks(cfg, 1) <= Duration(cfg, r) <= ProgramTicks(cfg, 2)
  {
    var units, each := RegionCount(r.regionMask), cfg.timing.programPerUnit;
    assert each <= units * each <= 2 * each;
  }

  /** Three operations have three numbers and three uids. */
  lemma ThreeNumbers(s: Model, a: nat, b: nat, c: nat)
    requires Reachable(s) && a in s.hist.accepted && b in s.hist.accepted && c in s.hist.accepted
    requires a != b && b != c && a != c
    ensures 3 <= s.cfg.capacity.submitSequenceLimit && 3 <= s.cfg.capacity.operationUidLimit
  {
    ReachableSpanned(s);
    IdentityTheorem(s);
    ShapedMask(s, a);
    ShapedMask(s, b);
    ShapedMask(s, c);
    assert Uid(s, a) != Uid(s, b) && Uid(s, b) != Uid(s, c) && Uid(s, a) != Uid(s, c);
  }

  /** Two programs of one token have disjoint reservations behind that of the transfer. */
  lemma TwoProgramsFit(s: Model, a: nat, b: nat, plane: nat, generation: nat)
    requires Reachable(s) && a != b && UsedBy(s, a, plane, generation) && UsedBy(s, b, plane, generation)
    ensures Roomy(s.cfg)
  {
    ReachableSpanned(s);
    MinterSpan(s, plane, generation);
    ThreeNumbers(s, a, b, s.hist.mints[(plane, generation)].sequence);
    ProgramSpan(s, a, plane, generation);
    ProgramSpan(s, b, plane, generation);
    ExclusionTheorem(s, 0, 0);
    assert Compatible(s.hist.reserved[a], s.hist.reserved[b]);
  }

  /** Where there is no room for them, no token is used twice. */
  lemma CrampedOnce(s: Model)
    requires Reachable(s) && !Roomy(s.cfg)
    ensures TokensOnce(s.hist.effects)
  {
    forall k, l | 0 <= k < l < |s.hist.effects| && UsesToken(s.hist.effects[k]) && UsesToken(s.hist.effects[l])
      ensures !Uses(s.hist.effects[k], s.hist.effects[l].plane, s.hist.effects[l].generation)
    {
      var e, f := s.hist.effects[k], s.hist.effects[l];
      if Uses(e, f.plane, f.generation) {
        UsesAreProgramsOfTwo(s, k, l);
        ProgramUses(s, k);
        ProgramUses(s, l);
        TwoProgramsFit(s, e.sequence, f.sequence, f.plane, f.generation);
      }
    }
  }
}
