/**
 Which calls an operation made once it has ended: exactly the media call fixed when it began, or the
 one delivery of a successful read transfer, and none before.  And which token its completion hands to
 the host: the one it minted, if it minted one, and the token of its own request otherwise.
 */
module NfcEffects {
  import opened NfcTypes
  import opened NfcModel
  import opened NfcTimeline
  import opened NfcLedger
  import opened NfcExclusion
  import opened NfcData
  import opened NfcInvariant
  import opened NfcRuns

  // ---------------------------------------------------------------- the calls of one operation

  /** The calls made for one operation, in order. */
  function EffectsOf(effects: seq<Effect>, n: nat): seq<Effect>
  {
    if effects == [] then []
    else EffectsOf(effects[..|effects| - 1], n) + Mine(effects[|effects| - 1], n)
  }

  function Mine(e: Effect, n: nat): seq<Effect> { if e.sequence == n then [e] else [] }

  lemma EffectsAppend(effects: seq<Effect>, e: Effect, n: nat)
    ensures EffectsOf(effects + [e], n) == EffectsOf(effects, n) + Mine(e, n)
  {
    assert (effects + [e])[..|effects|] == effects;
  }

  lemma {:induction false} NoneOf(effects: seq<Effect>, n: nat)
    requires forall k :: 0 <= k < |effects| ==> effects[k].sequence != n
    ensures EffectsOf(effects, n) == []
  {
    if effects != [] { NoneOf(effects[..|effects| - 1], n); }
  }

  /** The media call that the beginning of a program or erase fixes: complete, torn, a bad-block mark or none. */
  function MediaCall(cfg: Config, n: nat, r: Request, b: Beginning): seq<Effect>
    requires PpaValid(cfg.geometry, r.ppa)
  {
    var g := cfg.geometry;
    if b.legality != 0 || (r.kind != PROGRAM_EXECUTE && r.kind != ERASE) || b.faultClass.NoEffect? then []
    else if b.faultClass.GrownBad? then [MarkedBad(n, r.ppa)]
    else if r.kind == PROGRAM_EXECUTE then
      var plane := PlaneIndex(g, r.ppa);
      [if b.faultClass.Clean? then
         Programmed(n, r.ppa, plane, r.cache.generation, b.page, g.mainBytes, g.oobBytes, INTEGRITY_COMPLETE)
       else
         Programmed(n, r.ppa, plane, r.cache.generation, b.page, Half(g.mainBytes), 0, INTEGRITY_TORN)]
    else
      [if b.faultClass.Clean? then Erased(n, r.ppa, g.pagesPerBlock, INTEGRITY_COMPLETE)
       else Erased(n, r.ppa, Half(g.pagesPerBlock), INTEGRITY_TORN)]
  }

  function Half(n: nat): nat { if n > 1 then n / 2 else 1 }

  /** The delivery of a read transfer: the bytes of the token it carries. */
  ghost function Delivery(s: Model, n: nat, r: Request): seq<Effect>
    requires PpaValid(s.cfg.geometry, r.ppa)
  {
    var key := (PlaneIndex(s.cfg.geometry, r.ppa), r.cache.generation);
    if key in s.hist.mints then [Delivered(n, key.0, key.1, s.hist.mints[key].page)] else []
  }

  ghost predicate Minted(mints: map<(nat, nat), Mint>, n: nat)
  {
    exists key :: key in mints && mints[key].sequence == n
  }

  predicate Success(c: Completion) { c.terminal == TERMINAL_SUCCESS }

  /** The kinds whose success mints a token. */
  predicate MintingKind(kind: nat) { kind == READ_TRIGGER || kind == PROGRAM_TRANSFER }

  /** The token of the request's own plane and epoch, minted under this generation by this very operation. */
  ghost predicate HandedOut(s: Model, n: nat, r: Request, token: CacheToken)
    requires PpaValid(s.cfg.geometry, r.ppa)
  {
    var key := (PlaneIndex(s.cfg.geometry, r.ppa), token.generation);
    && token == CacheToken(s.nonce, r.operation.controllerEpoch, token.generation,
                           r.ppa.channel, r.ppa.lun, r.ppa.plane, 0)
    && key in s.hist.mints && s.hist.mints[key].sequence == n
  }

  /**
   The operation ended with this completion, made exactly the calls that go with its result, and hands
   out the token it minted; if it minted none the completion repeats the token of the request.
   */
  ghost predicate EndedWith(s: Model, n: nat, c: Completion)
  {
    && n in s.hist.accepted && n in s.hist.begun
    && var r, b := s.hist.accepted[n].request, s.hist.begun[n];
       && PpaValid(s.cfg.geometry, r.ppa)
       && EffectsOf(s.hist.effects, n) ==
            (if r.kind == READ_TRANSFER && Success(c) then Delivery(s, n, r) else MediaCall(s.cfg, n, r, b))
       && (Success(c) ==> b.legality == 0)
       && (Success(c) && (r.kind == PROGRAM_EXECUTE || r.kind == ERASE) ==> b.faultClass.Clean?)
       && (Success(c) && r.kind == READ_TRANSFER ==>
             (PlaneIndex(s.cfg.geometry, r.ppa), r.cache.generation) in s.hist.mints)
       && (if Success(c) && MintingKind(r.kind) then HandedOut(s, n, r, c.cache)
           else c.cache == r.cache && !Minted(s.hist.mints, n))
  }

  /** What has not ended has made no call and minted no token, and its completion repeats its request's. */
  ghost predicate Unsettled(s: Model, op: Op)
  {
    && EffectsOf(s.hist.effects, op.submitSequence) == [] && !Minted(s.hist.mints, op.submitSequence)
    && op.completion.cache == op.request.cache
  }

  ghost predicate SlotSettled(s: Model, op: Op)
  {
    && (Waiting(op) || op.state.Running? ==> Unsettled(s, op))
    && (op.state.EventPending? ==> EndedWith(s, op.submitSequence, op.completion))
  }

  /** No operation mints two tokens. */
  ghost predicate MintsOnce(mints: map<(nat, nat), Mint>)
  {
    forall a, b :: a in mints && b in mints && mints[a].sequence == mints[b].sequence ==> a == b
  }

  /** No operation makes two calls. */
  ghost predicate OneCallEach(effects: seq<Effect>) { forall n: nat :: |EffectsOf(effects, n)| <= 1 }

  ghost predicate ReportsSettled(s: Model)
  {
    forall k :: 0 <= k < |s.hist.reports| ==>
      EndedWith(s, s.hist.reports[k].submitSequence, s.hist.reports[k])
  }

  ghost predicate Settled(s: Model)
  {
    && (forall i :: 0 <= i < |s.ops| ==> SlotSettled(s, s.ops[i]))
    && ReportsSettled(s) && MintsOnce(s.hist.mints) && OneCallEach(s.hist.effects)
  }

  // ---------------------------------------------------------------- transitions that make no call

  /** The operation makes no call and mints no token. */
  ghost predicate Untouched(s: Model, t: Model, n: nat)
  {
    && EffectsOf(t.hist.effects, n) == EffectsOf(s.hist.effects, n)
    && (Minted(t.hist.mints, n) ==> Minted(s.hist.mints, n))
  }

  lemma EndedKept(s: Model, t: Model, n: nat, c: Completion)
    requires RecordsGrow(s, t) && EndedWith(s, n, c)
    requires Untouched(s, t, n)
    ensures EndedWith(t, n, c)
  {
  }

  lemma ReportsKept(s: Model, t: Model)
    requires ReportsSettled(s) && RecordsGrow(s, t) && t.hist.reports == s.hist.reports
    requires forall k :: 0 <= k < |s.hist.reports| ==> Untouched(s, t, s.hist.reports[k].submitSequence)
    ensures ReportsSettled(t)
  {
    forall k | 0 <= k < |t.hist.reports|
      ensures EndedWith(t, t.hist.reports[k].submitSequence, t.hist.reports[k])
    {
      EndedKept(s, t, s.hist.reports[k].submitSequence, s.hist.reports[k]);
    }
  }

  /** The slot is emptied, or stays on its way, or stays ended. */
  predicate SettledAlike(a: Op, b: Op)
  {
    || b.state.Free?
    || (&& b.submitSequence == a.submitSequence && b.request == a.request
        && (|| (&& (Waiting(a) || a.state.Running?) && (Waiting(b) || b.state.Running?)
                && b.completion.cache == a.completion.cache)
            || (a.state.EventPending? && b.state.EventPending? && b.completion == a.completion)))
  }

  /** No record is rewritten, no token minted, no call made and nothing reported. */
  ghost predicate Silent(s: Model, t: Model)
  {
    && RecordsGrow(s, t) && |t.ops| == |s.ops| && t.hist.mints == s.hist.mints
    && t.hist.effects == s.hist.effects && t.hist.reports == s.hist.reports
  }

  lemma SilentKeeps(s: Model, t: Model)
    requires Settled(s) && Silent(s, t) && forall i :: 0 <= i < |s.ops| ==> SettledAlike(s.ops[i], t.ops[i])
    ensures Settled(t)
  {
    forall i | 0 <= i < |t.ops| ensures SlotSettled(t, t.ops[i]) {
      assert SlotSettled(s, s.ops[i]) && SettledAlike(s.ops[i], t.ops[i]);
      if t.ops[i].state.EventPending? { EndedKept(s, t, t.ops[i].submitSequence, t.ops[i].completion); }
    }
    ReportsKept(s, t);
  }

  /** An operation that was just accepted has made no call and minted no token. */
  lemma AcceptSettled(s: Model, t: Model, i: nat)
    requires Settled(s) && Data(s) && Silent(s, t) && SlotOnly(s, t, i)
    requires t.ops[i].state.Queued? && t.ops[i].submitSequence == s.nextSubmit
    requires t.ops[i].completion.cache == t.ops[i].request.cache
    ensures Settled(t)
  {
    NewNumber(s);
    var u := t.(ops := t.ops[i := FREE_OP]);
    SilentKeeps(s, u);
    forall j | 0 <= j < |t.ops| ensures SlotSettled(t, t.ops[j]) {
      assert SlotSettled(u, u.ops[j]);
      if t.ops[j].state.EventPending? { EndedKept(u, t, t.ops[j].submitSequence, t.ops[j].completion); }
    }
    ReportsKept(u, t);
  }

  lemma NewNumber(s: Model)
    requires Data(s)
    ensures EffectsOf(s.hist.effects, s.nextSubmit) == [] && !Minted(s.hist.mints, s.nextSubmit)
  {
    forall k | 0 <= k < |s.hist.effects| ensures s.hist.effects[k].sequence != s.nextSubmit {
      assert EffectSound(s, s.hist.effects[k]);
    }
    NoneOf(s.hist.effects, s.nextSubmit);
    forall key | key in s.hist.mints ensures s.hist.mints[key].sequence != s.nextSubmit {
      assert MintSound(s, key);
    }
  }

  // ---------------------------------------------------------------- the end of an operation

  /** The slot's operation makes at most one call and mints at most one token, under its own number. */
  ghost predicate CallsOnce(s: Model, t: Model, i: nat, e: seq<Effect>)
  {
    && RecordsGrow(s, t) && SlotOnly(s, t, i) && t.hist.reports == s.hist.reports
    && t.hist.effects == s.hist.effects + e && |e| <= 1 && Live(s.ops[i])
    && (forall k :: 0 <= k < |e| ==> e[k].sequence == s.ops[i].submitSequence)
    && MintsOneMore(s.hist.mints, t.hist.mints, s.ops[i].submitSequence)
    && (s.ops[i].state.EventPending? ==> e == [] && t.hist.mints == s.hist.mints)
  }

  ghost predicate MintsOneMore(before: map<(nat, nat), Mint>, mints: map<(nat, nat), Mint>, n: nat)
  {
    && (forall key :: key in mints && key !in before ==> mints[key].sequence == n)
    && (forall a, b :: a in mints && b in mints && a !in before && b !in before ==> a == b)
  }

  lemma MintsStayOnce(s: Model, t: Model, i: nat, e: seq<Effect>)
    requires CallsOnce(s, t, i, e) && MintsOnce(s.hist.mints) && SlotSettled(s, s.ops[i])
    ensures MintsOnce(t.hist.mints)
  {
  }

  lemma OthersSilent(s: Model, t: Model, i: nat, e: seq<Effect>, n: nat)
    requires CallsOnce(s, t, i, e)
    ensures EffectsOf(t.hist.effects, n)
         == EffectsOf(s.hist.effects, n) + if n == s.ops[i].submitSequence then e else []
  {
    if e == [] {
      assert t.hist.effects == s.hist.effects;
    } else {
      assert e == [e[0]];
      EffectsAppend(s.hist.effects, e[0], n);
    }
  }

  /** All other operations, and all reports, are as settled as before. */
  lemma CallKeeps(s: Model, t: Model, i: nat, e: seq<Effect>)
    requires Settled(s) && PairsOrdered(s) && Ledger(s) && CallsOnce(s, t, i, e) && SlotSettled(t, t.ops[i])
    ensures Settled(t)
  {
    assert SlotSettled(s, s.ops[i]) && SlotLedger(s, s.ops[i]);
    MintsStayOnce(s, t, i, e);
    forall n: nat ensures |EffectsOf(t.hist.effects, n)| <= 1 {
      OthersSilent(s, t, i, e, n);
      assert |EffectsOf(s.hist.effects, n)| <= 1;
    }
    forall j | 0 <= j < |t.ops| ensures SlotSettled(t, t.ops[j]) {
      if j != i && Live(s.ops[j]) {
        assert PairOrdered(s.ops[i], s.ops[j]);
        OtherSettled(s, t, i, j, e);
      }
    }
    forall k | 0 <= k < |s.hist.reports| ensures Untouched(s, t, s.hist.reports[k].submitSequence) {
      assert !ReportOf(s.hist.reports[k], s.ops[i].submitSequence);
      OthersSilent(s, t, i, e, s.hist.reports[k].submitSequence);
    }
    ReportsKept(s, t);
  }

  lemma OtherSettled(s: Model, t: Model, i: nat, j: nat, e: seq<Effect>)
    requires CallsOnce(s, t, i, e) && j < |s.ops| && j != i && SlotSettled(s, s.ops[j])
    requires s.ops[j].submitSequence != s.ops[i].submitSequence
    ensures SlotSettled(t, t.ops[j])
  {
    var op := s.ops[j];
    OthersSilent(s, t, i, e, op.submitSequence);
    if op.state.EventPending? { EndedKept(s, t, op.submitSequence, op.completion); }
  }

  /** What ends a running operation makes the calls that its beginning and its result call for. */
  ghost predicate CallsFit(s: Model, op: Op, out: Outcome)
    requires RequestPlaced(s.cfg, op.request)
  {
    var b := Beginning(op.startTick, 0, op.legality, op.faultClass, op.page);
    var success := Success(out.op.completion);
    && |out.effects| <= 1 && (forall k :: 0 <= k < |out.effects| ==> out.effects[k].sequence == op.submitSequence)
    && (if !out.ok then out.effects == []
        else
          && (success ==> op.legality == 0)
          && (success && (op.request.kind == PROGRAM_EXECUTE || op.request.kind == ERASE) ==> op.faultClass.Clean?)
          && (if op.request.kind == READ_TRANSFER && success then
                var p := PlaneIndex(s.cfg.geometry, op.request.ppa);
                && p < |s.caches| && s.caches[p].kind.ReadCache?
                && s.caches[p].generation == op.request.cache.generation
                && out.effects == [Delivered(op.submitSequence, p, op.request.cache.generation, s.caches[p].page)]
              else out.effects == MediaCall(s.cfg, op.submitSequence, op.request, b)))
  }

  /** A success of a minting kind mints, and its completion names what it minted; nothing else does either. */
  predicate TokenFits(s: Model, op: Op, out: Outcome)
  {
    if out.ok && Success(out.op.completion) && MintingKind(op.request.kind) then
      && out.minted
      && out.op.completion.cache ==
           CacheToken(s.nonce, s.epoch, out.cache.generation, op.request.ppa.channel, op.request.ppa.lun,
                      op.request.ppa.plane, op.completion.cache.reserved)
    else !out.minted && out.op.completion.cache == op.completion.cache
  }

  lemma MediaEndFits(at: Site, op: Op, answer: MediaAnswer)
    requires RequestPlaced(at.cfg, op.request) && op.legality == 0
    ensures op.request.kind == PROGRAM_EXECUTE ==> MediaFits(at, op, FinishProgramExecute(at, op, answer))
    ensures op.request.kind == ERASE ==> MediaFits(at, op, FinishErase(at, op, answer))
  {
  }

  ghost predicate MediaFits(at: Site, op: Op, out: Outcome)
    requires RequestPlaced(at.cfg, op.request)
  {
    var b := Beginning(op.startTick, 0, op.legality, op.faultClass, op.page);
    && out.effects == (if out.ok then MediaCall(at.cfg, op.submitSequence, op.request, b) else [])
    && (out.ok && Success(out.op.completion) ==> op.faultClass.Clean?)
    && !out.minted && out.op.completion.cache == op.completion.cache
  }

  lemma ConcludeFits(s: Model, op: Op, answer: MediaAnswer)
    requires Shaped(s) && RequestPlaced(s.cfg, op.request)
    ensures CallsFit(s, op, Conclude(s, op, answer)) && TokenFits(s, op, Conclude(s, op, answer))
  {
    if op.legality == 0 { MediaEndFits(SiteOf(s, op.request), op, answer); }
  }

  lemma FinishSettles(s: Model, t: Model, i: nat, out: Outcome)
    requires Shaped(s) && Data(s) && i < |s.ops| && s.ops[i].state.Running? && SlotFresh(s, s.ops[i])
    requires Unsettled(s, s.ops[i]) && FinishFrame(s, t, i, out) && !FinishRefused(s, out)
    requires ConcludesQuietly(s, s.ops[i], out) || ConcludesMinting(s, s.ops[i], out)
    requires CallsOnce(s, t, i, out.effects) && CallsFit(s, s.ops[i], out) && TokenFits(s, s.ops[i], out)
    ensures SlotSettled(t, t.ops[i])
  {
    assert SlotData(s, s.ops[i]);
    OthersSilent(s, t, i, out.effects, s.ops[i].submitSequence);
    assert CacheBacked(s, PlaneIndex(s.cfg.geometry, s.ops[i].request.ppa));
    TokenHanded(s, t, i, out);
    EndsWith(s, t, s.ops[i], out, t.ops[i].completion);
  }

  /** A completion hands out the token that its operation minted, or repeats the one of the request. */
  lemma TokenHanded(s: Model, t: Model, i: nat, out: Outcome)
    requires Shaped(s) && RequestsShaped(s) && i < |s.ops| && s.ops[i].state.Running? && Entered(s, s.ops[i])
    requires SlotFresh(s, s.ops[i]) && s.ops[i].completion.cache == s.ops[i].request.cache
    requires FinishFrame(s, t, i, out) && out.ok && TokenFits(s, s.ops[i], out)
    requires ConcludesQuietly(s, s.ops[i], out) || ConcludesMinting(s, s.ops[i], out)
    ensures var r := s.ops[i].request;
      if Success(out.op.completion) && MintingKind(r.kind) then
        HandedOut(t, s.ops[i].submitSequence, r, t.ops[i].completion.cache)
      else t.ops[i].completion.cache == r.cache && t.hist.mints == s.hist.mints
  {
    var r := s.hist.accepted[s.ops[i].submitSequence].request;
    assert RequestShapeValid(s.cfg, s.nonce, r.operation.controllerEpoch, r);
  }

  /** The calls fit the beginning on record, which is what the operation was when it ended. */
  lemma EndsWith(s: Model, t: Model, op: Op, out: Outcome, c: Completion)
    requires RequestPlaced(s.cfg, op.request) && op.state.Running? && Entered(s, op) && Frozen(s, op)
    requires PlaneIndex(s.cfg.geometry, op.request.ppa) < |s.caches|
    requires CacheBacked(s, PlaneIndex(s.cfg.geometry, op.request.ppa))
    requires CallsFit(s, op, out) && out.ok && RecordsGrow(s, t) && c.terminal == out.op.completion.terminal
    requires EffectsOf(t.hist.effects, op.submitSequence) == out.effects
    requires if Success(c) && MintingKind(op.request.kind) then HandedOut(t, op.submitSequence, op.request, c.cache)
             else c.cache == op.request.cache && !Minted(t.hist.mints, op.submitSequence)
    ensures EndedWith(t, op.submitSequence, c)
  {
    var r, b := s.hist.accepted[op.submitSequence].request, s.hist.begun[op.submitSequence];
    assert MediaCall(s.cfg, op.submitSequence, r, b)
        == MediaCall(s.cfg, op.submitSequence, r, Beginning(op.startTick, 0, op.legality, op.faultClass, op.page));
  }

  // ---------------------------------------------------------------- units of work

  lemma SlotSilent(s: Model, t: Model, i: nat)
    requires Settled(s) && Silent(s, t) && SlotOnly(s, t, i) && SettledAlike(s.ops[i], t.ops[i])
    ensures Settled(t)
  {
    assert forall j :: 0 <= j < |s.ops| && j != i ==> t.ops[j] == s.ops[j];
    forall j | 0 <= j < |s.ops| ensures SettledAlike(s.ops[j], t.ops[j]) || s.ops[j] == t.ops[j] { }
    StillKeeps(s, t);
  }

  lemma StillKeeps(s: Model, t: Model)
    requires Settled(s) && Silent(s, t)
    requires forall i :: 0 <= i < |s.ops| ==> SettledAlike(s.ops[i], t.ops[i]) || s.ops[i] == t.ops[i]
    ensures Settled(t)
  {
    forall i | 0 <= i < |s.ops| ensures SettledAlike(s.ops[i], t.ops[i]) {
      assert SettledAlike(s.ops[i], t.ops[i]) || s.ops[i] == t.ops[i];
    }
    SilentKeeps(s, t);
  }

  lemma ScheduleSettled(s: Model, i: nat)
    requires Shaped(s) && Settled(s) && i < |s.ops| && s.ops[i].state.Queued?
    ensures Settled(Schedule(s, i))
  {
    ScheduleSlot(s, i);
    SlotSilent(s, Schedule(s, i), i);
  }

  lemma BeginSettled(s: Model, i: nat, answer: MediaAnswer)
    requires Shaped(s) && Data(s) && Settled(s) && i < |s.ops| && s.ops[i].state.Scheduled?
    requires s.ops[i].nextTick <= s.now
    requires SlotTimed(s.ops[i], s.now, s.nextSubmit) && SlotFresh(s, s.ops[i])
    ensures Settled(Begin(s, i, answer))
  {
    var t := Begin(s, i, answer);
    assert SlotData(s, s.ops[i]);
    BeginSlot(s, i, answer);
    if t.ops[i].state.Running? { BeginRelates(s, i, answer); }
    SlotSilent(s, t, i);
  }

  lemma UnitSettled(s: Model, i: nat, answer: MediaAnswer)
    requires Shaped(s) && Settled(s) && i < |s.ops| && s.ops[i].state.Running?
    requires s.ops[i].unitIndex + 1 < s.ops[i].unitCount
    ensures Settled(RunUnit(s, i, answer).0)
  {
    UnitRelates(s, i, answer);
    SlotSilent(s, RunUnit(s, i, answer).0, i);
  }

  lemma EndSettled(s: Model, i: nat, answer: MediaAnswer)
    requires Working(s) && Settled(s) && i < |s.ops| && s.ops[i].state.Running?
    requires s.ops[i].unitIndex + 1 == s.ops[i].unitCount
    ensures Settled(RunUnit(s, i, answer).0)
  {
    var m := AfterUnit(s, i);
    var t := RunUnit(s, i, answer).0;
    LastUnitRelates(s, i, answer);
    FinishRelates(m, i, answer);
    ConcludeFits(m, m.ops[i], answer);
    ConcludeCases(m, m.ops[i], answer);
    PendingUpdate(s.ops, i, m.ops[i]);
    PendingBound(m.ops, i);
    EndedSettled(s, m, t, i, Conclude(m, m.ops[i], answer));
  }

  lemma EndedSettled(s: Model, m: Model, t: Model, i: nat, out: Outcome)
    requires Data(s) && Settled(s) && PairsOrdered(s) && Ledger(s) && Shaped(m) && i < |s.ops|
    requires s.ops[i].state.Running? && SlotFresh(s, s.ops[i])
    requires UnitCounted(s, m, i) && FinishFrame(m, t, i, out) && (FinishRefused(m, out) <==> !out.ok)
    requires ConcludesQuietly(m, m.ops[i], out) || ConcludesMinting(m, m.ops[i], out)
    requires CallsFit(m, m.ops[i], out) && TokenFits(m, m.ops[i], out)
    ensures Settled(t)
  {
    EndedData(s, m, i);
    EndedCalls(s, m, t, i, out);
    assert SlotSettled(s, s.ops[i]);
    if out.ok {
      FinishSettles(m, t, i, out);
    } else {
      OthersSilent(s, t, i, out.effects, s.ops[i].submitSequence);
    }
    CallKeeps(s, t, i, out.effects);
  }

  lemma EndedData(s: Model, m: Model, i: nat)
    requires Data(s) && i < |s.ops| && s.ops[i].state.Running? && UnitCounted(s, m, i)
    ensures Data(m) && SlotData(m, m.ops[i])
  {
    SlotMoves(s, m, i);
    MovesKeep(s, m);
  }

  lemma EndedCalls(s: Model, m: Model, t: Model, i: nat, out: Outcome)
    requires Data(m) && Shaped(m) && i < |s.ops| && s.ops[i].state.Running?
    requires UnitCounted(s, m, i) && FinishFrame(m, t, i, out) && CallsFit(m, m.ops[i], out)
    requires ConcludesQuietly(m, m.ops[i], out) || ConcludesMinting(m, m.ops[i], out)
    ensures CallsOnce(s, t, i, out.effects) && CallsOnce(m, t, i, out.effects)
  {
    assert t.ops == s.ops[i := t.ops[i]];
    MintsGrow(m, t, i, out);
  }

  /** A token that is minted has a new name. */
  lemma MintsGrow(m: Model, t: Model, i: nat, out: Outcome)
    requires Shaped(m) && Data(m) && i < |m.ops| && m.ops[i].state.Running? && FinishFrame(m, t, i, out)
    requires out.minted ==> out.cache.generation > m.caches[PlaneIndex(m.cfg.geometry, m.ops[i].request.ppa)].generation
    ensures RecordsGrow(m, t)
  {
    forall key | key in m.hist.mints ensures key in t.hist.mints && t.hist.mints[key] == m.hist.mints[key] {
      assert MintSound(m, key);
    }
  }

  lemma HaltSettled(s: Model)
    requires Settled(s)
    ensures Settled(s.(phase := Faulted))
  {
    StillKeeps(s, s.(phase := Faulted));
  }

  lemma ServeSettled(s: Model, i: nat, answer: MediaAnswer)
    requires Working(s) && Settled(s) && i < |s.ops| && Candidate(s.ops[i]) && s.ops[i].nextTick <= s.now
    ensures Settled(Serve(s, i, answer).0)
  {
    assert SlotTimed(s.ops[i], s.now, s.nextSubmit) && SlotFresh(s, s.ops[i]);
    if s.ops[i].state.Queued? {
      if Unschedulable(s, s.ops[i].request) { HaltSettled(s); } else { ScheduleSettled(s, i); }
    } else if s.ops[i].state.Scheduled? {
      BeginSettled(s, i, answer);
    } else if s.ops[i].unitIndex + 1 < s.ops[i].unitCount {
      UnitSettled(s, i, answer);
    } else {
      EndSettled(s, i, answer);
    }
  }

  lemma TickSettled(s: Model, now: nat)
    requires Settled(s)
    ensures Settled(s.(now := now))
  {
    StillKeeps(s, s.(now := now));
  }

  lemma StepUnitSettled(s: Model, answer: MediaAnswer)
    requires Working(s) && Settled(s)
    ensures Settled(StepUnit(s, answer).0)
  {
    var next := NextOperation(s.ops, |s.ops|);
    if next.Some? {
      if s.ops[next.value].nextTick > s.now {
        TickSettled(s, s.ops[next.value].nextTick);
      } else {
        ServeSettled(s, next.value, answer);
      }
    }
  }

  lemma {:induction false} StepLoopSettled(s: Model, answers: seq<MediaAnswer>)
    requires Working(s) && Settled(s)
    ensures Settled(StepLoop(s, answers).0)
    decreases |answers|
  {
    if answers != [] {
      StepUnitInv(s, answers[0]);
      StepUnitSettled(s, answers[0]);
      if StepUnit(s, answers[0]).1.Used? {
        StepLoopSettled(StepUnit(s, answers[0]).0, answers[1..]);
      }
    }
  }

  lemma StepSettled(s: Model, answers: seq<MediaAnswer>)
    requires Inv(s) && Settled(s)
    ensures Settled(Step(s, answers).0)
  {
    if answers != [] && (s.phase.Ready? || s.phase.ResetDrain?) { StepLoopSettled(s, answers); }
  }

  // ---------------------------------------------------------------- the other entries

  lemma AcceptedSettled(s: Model, i: nat, r: Request, buffers: BufferAnswer)
    requires Shaped(s) && Data(s) && Settled(s) && i < |s.ops| && RequestPlaced(s.cfg, r)
    ensures Settled(Accept(s, i, r, buffers))
  {
    assert s.nextSubmit !in s.hist.accepted;
    AcceptSettled(s, Accept(s, i, r, buffers), i);
  }

  lemma SubmitSettled(s: Model, r: Request, buffers: BufferAnswer)
    requires Shaped(s) && Data(s) && Settled(s)
    ensures Settled(TrySubmit(s, r, buffers).0)
  {
    var (t, result) := TrySubmit(s, r, buffers);
    if t != s {
      var i := FreeOperation(s.ops, 0).value;
      if result.Accepted? { AcceptedSettled(s, i, r, buffers); } else { StillKeeps(s, t); }
    }
  }

  lemma CancelSettled(s: Model, token: OperationToken)
    requires Shaped(s) && Settled(s)
    ensures Settled(Cancel(s, token).0)
  {
    StillKeeps(s, Cancel(s, token).0);
  }

  /** A report carries the ending of its slot. */
  lemma ReportSettled(s: Model, i: nat)
    requires Shaped(s) && Settled(s) && i < |s.ops| && s.ops[i].state.EventPending?
    requires SlotTimed(s.ops[i], s.now, s.nextSubmit)
    ensures Settled(Report(s, i))
  {
    var t := Report(s, i);
    var u := t.(hist := s.hist);
    assert SlotSettled(s, s.ops[i]);
    StillKeeps(s, u);
    ReportedSettled(s, u, t, i);
  }

  lemma ReportedSettled(s: Model, u: Model, t: Model, i: nat)
    requires Settled(u) && RecordsGrow(s, u) && i < |s.ops|
    requires s.ops[i].completion.submitSequence == s.ops[i].submitSequence
    requires EndedWith(s, s.ops[i].submitSequence, s.ops[i].completion)
    requires u.hist == s.hist && t == u.(hist := s.hist.(reports := s.hist.reports + [s.ops[i].completion]))
    ensures Settled(t)
  {
    forall j | 0 <= j < |t.ops| ensures SlotSettled(t, t.ops[j]) {
      assert SlotSettled(u, u.ops[j]);
      if u.ops[j].state.EventPending? { EndedKept(u, t, u.ops[j].submitSequence, u.ops[j].completion); }
    }
    forall k | 0 <= k < |t.hist.reports|
      ensures EndedWith(t, t.hist.reports[k].submitSequence, t.hist.reports[k])
    {
      if k < |s.hist.reports| {
        EndedKept(u, t, u.hist.reports[k].submitSequence, u.hist.reports[k]);
      } else {
        EndedKept(s, t, s.ops[i].submitSequence, s.ops[i].completion);
      }
    }
  }

  lemma PollOneSettled(s: Model)
    requires Shaped(s) && SlotsTimed(s) && Settled(s)
    ensures Settled(PollOne(s))
  {
    var next := NextEvent(s.ops, |s.ops|);
    if next.Some? {
      assert SlotTimed(s.ops[next.value], s.now, s.nextSubmit);
      ReportSettled(s, next.value);
    }
  }

  lemma {:induction false} PollSettled(s: Model, budget: nat)
    requires Inv(s) && Settled(s)
    ensures Settled(Poll(s, budget))
    decreases budget
  {
    if budget != 0 {
      PollOneSettled(s);
      PollOneKeeps(s);
      PollSettled(PollOne(s), budget - 1);
    }
  }

  lemma ResetSettled(s: Model, nonce: nat, oldEpoch: nat)
    requires Shaped(s) && Settled(s)
    ensures Settled(ResetBegin(s, nonce, oldEpoch).0)
  {
    var (t, result) := ResetBegin(s, nonce, oldEpoch);
    ResetShape(s, nonce, oldEpoch);
    if !result.InvalidContract? { StillKeeps(s, t); }
  }

  lemma QuiescentSettled(s: Model, nonce: nat, oldEpoch: nat)
    requires Shaped(s) && Settled(s)
    ensures Settled(Quiescent(s, nonce, oldEpoch).0)
  {
    StillKeeps(s, Quiescent(s, nonce, oldEpoch).0);
  }

  lemma PowerClearSettled(s: Model, i: nat)
    requires Shaped(s) && PairsOrdered(s) && Ledger(s) && Settled(s) && i < |s.ops|
    ensures Settled(PowerClear(s, i))
  {
    var op := s.ops[i];
    if Live(op) {
      CallKeeps(s, PowerClear(s, i), i, if op.state.Running? then PowerPrefix(s.cfg, op) else []);
    }
  }

  lemma PowerClearOne(s: Model, i: nat)
    requires Core(s) && Settled(s) && i < |s.ops|
    ensures Settled(PowerClear(s, i))
  {
    PowerClearSettled(s, i);
  }

  lemma {:induction false} PowerClearAllSettled(s: Model, i: nat, mediaOk: seq<bool>)
    requires Core(s) && Settled(s) && i <= |s.ops|
    ensures Settled(PowerClearAll(s, i, mediaOk).0)
    decreases |s.ops| - i
  {
    if i < |s.ops| && !PowerRefused(s, i, mediaOk) {
      PowerClearCore(s, i);
      PowerClearOne(s, i);
      PowerClearAllSettled(PowerClear(s, i), i + 1, mediaOk);
    }
  }

  lemma PowerLossSettled(s: Model, mediaOk: seq<bool>)
    requires Inv(s) && Settled(s)
    ensures Settled(PowerLoss(s, mediaOk).0)
  {
    var (t, ok) := PowerClearAll(s, 0, mediaOk);
    PowerClearAllSettled(s, 0, mediaOk);
    StillKeeps(t, PowerLoss(s, mediaOk).0);
  }
}
