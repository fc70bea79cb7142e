/**
 Why single use of program tokens needs its condition: a run from the initial state in which a
 program of larger priority number is overtaken by a younger one of the same token.  The younger
 ends at the tick at which the older starts, the older begins first, while their token still
 stands, and both reach the media.  Such a run exists exactly where there is room for it.
 */
module NfcInversion {
  import opened NfcTypes
  import opened NfcModel
  import opened NfcTimeline
  import opened NfcData
  import opened NfcInOrder
  import opened NfcInvariant
  import opened NfcTheorems
  import opened NfcSpans
  import opened NfcReach

  // ---------------------------------------------------------------- the requests

  /** A controller, and the regions its operations are for: the main region, or both. */
  datatype Setting = Setting(cfg: Config, nonce: nat, mask: nat)

  /** A request for the first page. */
  function Asked(c: Setting, uid: nat, kind: nat, priority: nat, main: BufferRef, oob: BufferRef,
                 cache: CacheToken): Request
  {
    Request(CONTRACT_VERSION, REQUEST_SIZE, 0, OperationToken(c.nonce, uid, 1, 1), HOME, main, oob, cache,
            0, 0, 0, priority, kind, c.mask, 0, 0, 0, 0, 0, 0)
  }

  function Transfer(c: Setting): Request
  {
    Asked(c, 1, PROGRAM_TRANSFER, 0, BufferRef(1, 0, c.cfg.geometry.mainBytes, 0),
          if c.mask == 3 then BufferRef(1, 0, c.cfg.geometry.oobBytes, 0) else ZERO_BUFFER, ZERO_CACHE_TOKEN)
  }

  function Program(c: Setting, uid: nat, priority: nat): Request
  {
    Asked(c, uid, PROGRAM_EXECUTE, priority, ZERO_BUFFER, ZERO_BUFFER, CacheToken(c.nonce, 1, 1, 0, 0, 0, 0))
  }

  function Units(c: Setting): nat { if c.mask == 3 then 2 else 1 }
  function TransferTime(c: Setting): nat { TransferTicks(c.cfg, Units(c)) }
  function ProgramTime(c: Setting): nat { ProgramTicks(c.cfg, Units(c)) }

  lemma Times(c: Setting, r: Request)
    requires c.mask == 1 || c.mask == 3
    requires r == Transfer(c) || r == Program(c, r.operation.operationUid, r.priority)
    ensures RegionCount(c.mask) == Units(c)
    ensures Duration(c.cfg, r) == if r.kind == PROGRAM_TRANSFER then TransferTime(c) else ProgramTime(c)
  {
    assert RegionCount(1) == 1 && RegionCount(3) == 2;
  }

  /** Whether the scheduler lets an operation of that duration start at the tick. */
  predicate FitsAt(cfg: Config, start: nat, duration: nat)
  {
    duration > 0 && start <= SubU64(cfg.capacity.virtualTickLimit, duration)
  }

  /** Two slots, numbers for three operations, and the scheduler accepts them one behind the other. */
  predicate Suits(c: Setting)
  {
    && ConfigValid(c.cfg) && 2 <= c.cfg.capacity.operations && (c.mask == 1 || c.mask == 3)
    && 3 <= c.cfg.capacity.submitSequenceLimit && 3 <= c.cfg.capacity.operationUidLimit
    && 2 <= TransferTime(c) && 2 <= ProgramTime(c) && FitsAt(c.cfg, 0, TransferTime(c))
    && FitsAt(c.cfg, TransferTime(c), ProgramTime(c)) && FitsAt(c.cfg, TransferTime(c) + ProgramTime(c), ProgramTime(c))
  }

  // ---------------------------------------------------------------- choosing

  /** All slots but these two are free. */
  predicate Others(ops: seq<Op>, i: nat, j: nat)
  {
    forall k :: 0 <= k < |ops| && k != i && k != j ==> ops[k].state.Free?
  }

  // ---------------------------------------------------------------- the bench

  /** A ready controller in its first epoch, with time and trace left, and the calls made so far. */
  ghost predicate Bench(s: Model, c: Setting, now: nat, trace: nat, calls: nat)
  {
    && Shaped(s) && s.cfg == c.cfg && s.nonce == c.nonce && s.epoch == 1 && s.phase.Ready? && s.now == now
    && s.traceCount <= trace && s.nextArray <= 3 && s.eventCount <= 1 && |s.hist.effects| == calls
  }

  /** An operation on its way. */
  predicate OnWay(op: Op, r: Request, sequence: nat, state: OpState, start: nat, next: nat, finish: nat)
  {
    && op.request == r && op.submitSequence == sequence && op.state == state && op.nextTick == next
    && op.legality == 0 && !op.cancelRequested && !op.resetOwned && op.faultClass.Clean?
    && (state.Scheduled? || state.Running? ==> op.startTick == start && op.finishTick == finish)
  }

  /** How many of its units are done. */
  predicate Done(op: Op, done: nat, units: nat) { op.unitIndex == done && op.unitCount == units }

  /** When the first unit is due. */
  function FirstDue(c: Setting, start: nat, finish: nat): nat
    requires start <= finish
  {
    if c.mask == 3 then start + (finish - start + 1) / 2 else finish
  }

  lemma FirstDueIs(c: Setting, start: nat, finish: nat)
    requires start + 2 <= finish
    ensures UnitTick(start, finish, 0, Units(c)) == FirstDue(c, start, finish)
    ensures c.mask == 3 ==> start < FirstDue(c, start, finish) < finish
    ensures c.mask == 3 ==> UnitTick(start, finish, 1, 2) == finish
  {
    UnitTickBounds(start, finish, Units(c) - 1, Units(c));
  }

  predicate Standing(s: Model, mask: nat)
  {
    && |s.caches| > 0 && s.caches[0].generation == 1 && s.caches[0].controllerEpoch == 1
    && s.caches[0].kind.ProgramCache? && s.caches[0].validRegionMask == mask && s.caches[0].ppa == HOME
  }

  predicate Calls(s: Model, k: nat)
  {
    k < |s.hist.effects| && UsesToken(s.hist.effects[k]) && Uses(s.hist.effects[k], 0, 1)
  }

  /** Only the slot, the clock, the trace and the tails differ. */
  ghost predicate Quietly(s: Model, t: Model, i: nat)
  {
    && i < |s.ops| == |t.ops| && t.ops == s.ops[i := t.ops[i]] && t.caches == s.caches
    && t.nextUid == s.nextUid && t.nextSubmit == s.nextSubmit && t.hist.effects == s.hist.effects
    && t.eventCount == s.eventCount
  }

  predicate Tails(s: Model, plane: nat, channel: nat, lane: nat)
  {
    && |s.cacheTail| > 0 && |s.channelTail| > 0 && |s.arrayTail| > 0
    && s.cacheTail[0] == plane && s.channelTail[0] == channel && s.arrayTail[0] == lane
  }

  predicate TailsStay(s: Model, t: Model)
  {
    t.cacheTail == s.cacheTail && t.channelTail == s.channelTail && t.arrayTail == s.arrayTail
  }

  // ---------------------------------------------------------------- single units

  function Answer(c: Setting): MediaAnswer { SoundAnswer(c.cfg.geometry) }

  /** The chosen queued operation is scheduled behind the tails of its plane and lane. */
  lemma Scheduling(s: Model, c: Setting, i: nat, r: Request, n: nat, now: nat, trace: nat, calls: nat,
                   plane: nat, channel: nat, lane: nat, start: nat)
    requires ConfigValid(c.cfg) && Bench(s, c, now, trace, calls) && trace < c.cfg.capacity.traceEntries
    requires NextOperation(s.ops, |s.ops|) == Some(i) && OnWay(s.ops[i], r, n, Queued, 0, 0, 0) && r.ppa == HOME
    requires Tails(s, plane, channel, lane) && r.kind <= STATUS && r.regionMask < 4
    requires start == Max(Max(now, plane), if UsesChannel(r) then channel else lane)
    requires FitsAt(c.cfg, start, Duration(c.cfg, r))
    ensures var (t, progress) := StepUnit(s, Answer(c));
      && progress.Used? && Bench(t, c, now, trace + 1, calls) && Quietly(s, t, i)
      && OnWay(t.ops[i], r, n, Scheduled, start, start, start + Duration(c.cfg, r)) && t.nextArray == s.nextArray
      && Tails(t, start + Duration(c.cfg, r), if UsesChannel(r) then start + Duration(c.cfg, r) else channel,
               if UsesChannel(r) then lane else start + Duration(c.cfg, r))
  {
    Home(c.cfg);
  }

  /** The chosen operation is not due: the clock moves to it. */
  lemma Ticking(s: Model, c: Setting, i: nat, now: nat, trace: nat, calls: nat)
    requires Bench(s, c, now, trace, calls) && NextOperation(s.ops, |s.ops|) == Some(i) && s.ops[i].nextTick > now
    ensures var (t, progress) := StepUnit(s, Answer(c));
      progress.Used? && t == s.(now := s.ops[i].nextTick) && Bench(t, c, s.ops[i].nextTick, trace, calls)
  {
  }

  /** A transfer, or a program whose token stands, begins legally. */
  lemma Beginning(s: Model, c: Setting, i: nat, r: Request, n: nat, now: nat, finish: nat, trace: nat, calls: nat)
    requires ConfigValid(c.cfg) && Bench(s, c, now, trace, calls) && trace < c.cfg.capacity.traceEntries
    requires NextOperation(s.ops, |s.ops|) == Some(i) && OnWay(s.ops[i], r, n, Scheduled, now, now, finish)
    requires now + 2 <= finish && s.nextArray < 3 && s.nextArray <= c.cfg.capacity.submitSequenceLimit
    requires (c.mask == 1 || c.mask == 3) && RegionCount(c.mask) == Units(c)
    requires r == Transfer(c) || (Standing(s, c.mask) && r == Program(c, r.operation.operationUid, r.priority))
    ensures var (t, progress) := StepUnit(s, Answer(c));
      && progress.Used? && Bench(t, c, now, trace + 1, calls) && Quietly(s, t, i)
      && OnWay(t.ops[i], r, n, Running, now, FirstDue(c, now, finish), finish) && Done(t.ops[i], 0, Units(c))
      && t.nextArray <= s.nextArray + 1 && (r.kind == PROGRAM_TRANSFER ==> t.nextArray == s.nextArray)
      && TailsStay(s, t)
  {
    Home(c.cfg);
    FirstDueIs(c, now, finish);
  }

  /** The first of two units. */
  lemma FirstUnit(s: Model, c: Setting, i: nat, r: Request, n: nat, now: nat, start: nat, finish: nat, trace: nat,
                  calls: nat)
    requires Bench(s, c, now, trace, calls) && trace < c.cfg.capacity.traceEntries && c.mask == 3
    requires NextOperation(s.ops, |s.ops|) == Some(i) && OnWay(s.ops[i], r, n, Running, start, now, finish)
    requires Done(s.ops[i], 0, 2) && start + 2 <= finish
    ensures var (t, progress) := StepUnit(s, Answer(c));
      && progress.Used? && Bench(t, c, now, trace + 1, calls) && Quietly(s, t, i)
      && OnWay(t.ops[i], r, n, Running, start, finish, finish) && Done(t.ops[i], 1, 2)
      && t.nextArray == s.nextArray && TailsStay(s, t)
  {
    FirstDueIs(c, start, finish);
    var t := StepUnit(s, Answer(c)).0;
    assert t.ops == s.ops[i := t.ops[i]];
  }

  /** What ends leaves its slot pending, whatever else it changes. */
  ghost predicate Ended(s: Model, t: Model, i: nat)
  {
    && i < |s.ops| == |t.ops| && t.ops == s.ops[i := t.ops[i]] && t.ops[i].state.EventPending?
    && t.nextUid == s.nextUid && t.nextSubmit == s.nextSubmit && t.nextArray == s.nextArray
    && TailsStay(s, t) && t.eventCount == s.eventCount + 1
  }

  /** The last unit of the chosen operation, counted but not yet concluded. */
  ghost function Counted(s: Model, i: nat): Model
    requires i < |s.ops|
  {
    Trace(s.(ops := s.ops[i := s.ops[i].(unitIndex := s.ops[i].unitIndex + 1)]))
  }

  lemma LastUnit(s: Model, c: Setting, i: nat, r: Request, n: nat, now: nat, start: nat, trace: nat, calls: nat)
    requires Bench(s, c, now, trace, calls) && trace < c.cfg.capacity.traceEntries
    requires NextOperation(s.ops, |s.ops|) == Some(i) && OnWay(s.ops[i], r, n, Running, start, now, now)
    requires Done(s.ops[i], Units(c) - 1, Units(c))
    ensures var m := Counted(s, i);
      && Bench(m, c, now, trace + 1, calls) && i < |m.ops| && m.ops[i].(unitIndex := 0) == s.ops[i].(unitIndex := 0)
      && m == s.(ops := s.ops[i := m.ops[i]], traceCount := m.traceCount)
      && StepUnit(s, Answer(c)) ==
           (Finish(m, i, Answer(c)),
            if Finish(m, i, Answer(c)).ops[i].state.EventPending? then Used else Halted(InvariantFailure))
  {
    var m := Counted(s, i);
    assert m == m.(now := now);
  }

  /** The end of the transfer mints the plane's first token. */
  lemma TransferEnds(s: Model, c: Setting, i: nat, now: nat, start: nat, n: nat, trace: nat)
    requires ConfigValid(c.cfg) && 2 <= c.cfg.capacity.operations && Bench(s, c, now, trace, 0)
    requires trace + 1 < c.cfg.capacity.traceEntries && s.eventCount == 0
    requires NextOperation(s.ops, |s.ops|) == Some(i) && OnWay(s.ops[i], Transfer(c), n, Running, start, now, now)
    requires Done(s.ops[i], Units(c) - 1, Units(c)) && |s.caches| > 0 && s.caches[0].generation == 0
    ensures var (t, progress) := StepUnit(s, Answer(c));
      progress.Used? && Bench(t, c, now, trace + 2, 0) && Ended(s, t, i) && Standing(t, c.mask)
  {
    LastUnit(s, c, i, Transfer(c), n, now, start, trace, 0);
    TransferConcludes(Counted(s, i), c, i, now, trace + 1);
  }

  lemma TransferConcludes(m: Model, c: Setting, i: nat, now: nat, trace: nat)
    requires ConfigValid(c.cfg) && 2 <= c.cfg.capacity.operations && Bench(m, c, now, trace, 0)
    requires trace < c.cfg.capacity.traceEntries && m.eventCount == 0 && i < |m.ops| && m.ops[i].state.Running?
    requires m.ops[i].request == Transfer(c) && m.ops[i].legality == 0 && !m.ops[i].resetOwned
    requires |m.caches| > 0 && m.caches[0].generation == 0
    ensures var t := Finish(m, i, Answer(c)); Bench(t, c, now, trace + 1, 0) && Ended(m, t, i) && Standing(t, c.mask)
  {
    Home(c.cfg);
    var op := m.ops[i];
    assert Conclude(m, op, Answer(c)) == FinishProgramTransfer(SiteOf(m, op.request), op);
  }

  /** How a program that began legally and without a fault ends does not depend on the cache it finds. */
  lemma EndIgnoresToken(at: Site, op: Op)
    requires RequestPlaced(at.cfg, op.request) && op.request.kind == PROGRAM_EXECUTE && op.legality == 0
    requires op.faultClass.Clean?
    ensures var out := ConcludeAt(at, op, SoundAnswer(at.cfg.geometry));
      && out.ok && !out.minted && out.effects == [ProgramEffect(at.cfg, op)]
      && out.cache == at.cache.(kind := NoCache)
  {
  }

  lemma ProgramEnds(s: Model, c: Setting, i: nat, r: Request, n: nat, now: nat, start: nat, trace: nat, calls: nat)
    requires ConfigValid(c.cfg) && 2 <= c.cfg.capacity.operations && Bench(s, c, now, trace, calls)
    requires trace + 1 < c.cfg.capacity.traceEntries && s.eventCount <= 1
    requires NextOperation(s.ops, |s.ops|) == Some(i) && OnWay(s.ops[i], r, n, Running, start, now, now)
    requires Done(s.ops[i], Units(c) - 1, Units(c)) && r == Program(c, r.operation.operationUid, r.priority)
    ensures var (t, progress) := StepUnit(s, Answer(c));
      && progress.Used? && Ended(s, t, i) && t.hist.effects == s.hist.effects + [t.hist.effects[calls]]
      && Calls(t, calls) && (s.eventCount == 0 ==> Bench(t, c, now, trace + 2, calls + 1))
  {
    LastUnit(s, c, i, r, n, now, start, trace, calls);
    ProgramConcludes(Counted(s, i), c, i, now, trace + 1, calls);
  }

  lemma ProgramConcludes(m: Model, c: Setting, i: nat, now: nat, trace: nat, calls: nat)
    requires ConfigValid(c.cfg) && 2 <= c.cfg.capacity.operations && Bench(m, c, now, trace, calls)
    requires trace < c.cfg.capacity.traceEntries && m.eventCount <= 1 && i < |m.ops| && m.ops[i].state.Running?
    requires m.ops[i].request == Program(c, m.ops[i].request.operation.operationUid, m.ops[i].request.priority)
    requires m.ops[i].legality == 0 && m.ops[i].faultClass.Clean?
    ensures var t := Finish(m, i, Answer(c));
      && Ended(m, t, i) && |t.hist.effects| == calls + 1 && t.hist.effects == m.hist.effects + [t.hist.effects[calls]]
      && Calls(t, calls) && (m.eventCount == 0 ==> Bench(t, c, now, trace + 1, calls + 1))
  {
    Home(c.cfg);
    EndIgnoresToken(SiteOf(m, m.ops[i].request), m.ops[i]);
  }

  // ---------------------------------------------------------------- single units of a run

  lemma ScheduleNext(o: Model, s: Model, c: Setting, i: nat, r: Request, n: nat, now: nat, trace: nat, calls: nat,
                     plane: nat, channel: nat, lane: nat, start: nat, d: nat) returns (t: Model)
    requires Shaped(o) && Leads(o, s)
    requires ConfigValid(c.cfg) && Bench(s, c, now, trace, calls) && trace < c.cfg.capacity.traceEntries
    requires NextOperation(s.ops, |s.ops|) == Some(i) && OnWay(s.ops[i], r, n, Queued, 0, 0, 0) && r.ppa == HOME
    requires Tails(s, plane, channel, lane) && r.kind <= STATUS && r.regionMask < 4
    requires start == Max(Max(now, plane), if UsesChannel(r) then channel else lane)
    requires d == Duration(c.cfg, r) && FitsAt(c.cfg, start, d)
    ensures Leads(o, t) && Bench(t, c, now, trace + 1, calls) && Quietly(s, t, i)
    ensures OnWay(t.ops[i], r, n, Scheduled, start, start, start + d) && t.nextArray == s.nextArray
    ensures Tails(t, start + d, if UsesChannel(r) then start + d else channel,
                  if UsesChannel(r) then lane else start + d)
  {
    Scheduling(s, c, i, r, n, now, trace, calls, plane, channel, lane, start);
    UnitLeads(o, s, Answer(c));
    t := StepUnit(s, Answer(c)).0;
  }

  lemma TickNext(o: Model, s: Model, c: Setting, i: nat, now: nat, trace: nat, calls: nat) returns (t: Model)
    requires Shaped(o) && Leads(o, s)
    requires Bench(s, c, now, trace, calls) && NextOperation(s.ops, |s.ops|) == Some(i) && s.ops[i].nextTick > now
    ensures Leads(o, t) && t == s.(now := s.ops[i].nextTick) && Bench(t, c, s.ops[i].nextTick, trace, calls)
  {
    Ticking(s, c, i, now, trace, calls);
    UnitLeads(o, s, Answer(c));
    t := StepUnit(s, Answer(c)).0;
  }

  lemma BeginNext(o: Model, s: Model, c: Setting, i: nat, r: Request, n: nat, now: nat, finish: nat,
                  trace: nat, calls: nat) returns (t: Model)
    requires Shaped(o) && Leads(o, s) && Suits(c)
    requires Bench(s, c, now, trace, calls) && trace < c.cfg.capacity.traceEntries
    requires NextOperation(s.ops, |s.ops|) == Some(i) && OnWay(s.ops[i], r, n, Scheduled, now, now, finish)
    requires now + 2 <= finish && s.nextArray < 3
    requires r == Transfer(c) || (Standing(s, c.mask) && r == Program(c, r.operation.operationUid, r.priority))
    ensures Leads(o, t) && Bench(t, c, now, trace + 1, calls) && Quietly(s, t, i)
    ensures OnWay(t.ops[i], r, n, Running, now, FirstDue(c, now, finish), finish) && Done(t.ops[i], 0, Units(c))
    ensures t.nextArray <= s.nextArray + 1 && (r.kind == PROGRAM_TRANSFER ==> t.nextArray == s.nextArray)
    ensures TailsStay(s, t)
  {
    Times(c, r);
    Beginning(s, c, i, r, n, now, finish, trace, calls);
    UnitLeads(o, s, Answer(c));
    t := StepUnit(s, Answer(c)).0;
  }

  lemma FirstUnitNext(o: Model, s: Model, c: Setting, i: nat, r: Request, n: nat, now: nat, start: nat, finish: nat,
                      trace: nat, calls: nat) returns (t: Model)
    requires Shaped(o) && Leads(o, s) && Bench(s, c, now, trace, calls) && trace < c.cfg.capacity.traceEntries
    requires NextOperation(s.ops, |s.ops|) == Some(i) && OnWay(s.ops[i], r, n, Running, start, now, finish)
    requires Done(s.ops[i], 0, 2) && start + 2 <= finish && c.mask == 3
    ensures Leads(o, t) && Bench(t, c, now, trace + 1, calls) && Quietly(s, t, i)
    ensures OnWay(t.ops[i], r, n, Running, start, finish, finish) && Done(t.ops[i], 1, 2)
    ensures t.nextArray == s.nextArray && TailsStay(s, t)
  {
    FirstUnit(s, c, i, r, n, now, start, finish, trace, calls);
    UnitLeads(o, s, Answer(c));
    t := StepUnit(s, Answer(c)).0;
  }

  /** An operation that has just begun comes to its last unit. */
  lemma ToLastUnit(o: Model, s: Model, c: Setting, i: nat, r: Request, n: nat, start: nat, finish: nat,
                   trace: nat, calls: nat) returns (t: Model)
    requires Shaped(o) && Leads(o, s) && Bench(s, c, start, trace, calls) && trace < c.cfg.capacity.traceEntries
    requires start + 2 <= finish && NextOperation(s.ops, |s.ops|) == Some(i)
    requires OnWay(s.ops[i], r, n, Running, start, FirstDue(c, start, finish), finish) && Done(s.ops[i], 0, Units(c))
    ensures Leads(o, t) && start <= t.now < finish && Bench(t, c, t.now, trace + 1, calls) && Quietly(s, t, i)
    ensures OnWay(t.ops[i], r, n, Running, start, finish, finish) && Done(t.ops[i], Units(c) - 1, Units(c))
    ensures t.nextArray == s.nextArray && TailsStay(s, t)
  {
    FirstDueIs(c, start, finish);
    if c.mask == 3 {
      var u := TickNext(o, s, c, i, start, trace, calls);
      t := FirstUnitNext(o, u, c, i, r, n, FirstDue(c, start, finish), start, finish, trace, calls);
    } else {
      t := s;
    }
  }

  lemma TransferEndsNext(o: Model, s: Model, c: Setting, i: nat, now: nat, start: nat, n: nat, trace: nat)
    returns (t: Model)
    requires Shaped(o) && Leads(o, s)
    requires ConfigValid(c.cfg) && 2 <= c.cfg.capacity.operations && Bench(s, c, now, trace, 0)
    requires trace + 1 < c.cfg.capacity.traceEntries && s.eventCount == 0
    requires NextOperation(s.ops, |s.ops|) == Some(i) && OnWay(s.ops[i], Transfer(c), n, Running, start, now, now)
    requires Done(s.ops[i], Units(c) - 1, Units(c)) && |s.caches| > 0 && s.caches[0].generation == 0
    ensures Leads(o, t) && Bench(t, c, now, trace + 2, 0) && Ended(s, t, i) && Standing(t, c.mask)
  {
    TransferEnds(s, c, i, now, start, n, trace);
    UnitLeads(o, s, Answer(c));
    t := StepUnit(s, Answer(c)).0;
  }

  lemma ProgramEndsNext(o: Model, s: Model, c: Setting, i: nat, r: Request, n: nat, now: nat, start: nat,
                        trace: nat, calls: nat) returns (t: Model)
    requires Shaped(o) && Leads(o, s)
    requires ConfigValid(c.cfg) && 2 <= c.cfg.capacity.operations && Bench(s, c, now, trace, calls)
    requires trace + 1 < c.cfg.capacity.traceEntries && s.eventCount <= 1
    requires NextOperation(s.ops, |s.ops|) == Some(i) && OnWay(s.ops[i], r, n, Running, start, now, now)
    requires Done(s.ops[i], Units(c) - 1, Units(c)) && r == Program(c, r.operation.operationUid, r.priority)
    ensures Leads(o, t) && Ended(s, t, i) && calls < |t.hist.effects| && Calls(t, calls)
    ensures t.hist.effects == s.hist.effects + [t.hist.effects[calls]]
    ensures s.eventCount == 0 ==> Bench(t, c, now, trace + 2, calls + 1)
  {
    ProgramEnds(s, c, i, r, n, now, start, trace, calls);
    UnitLeads(o, s, Answer(c));
    t := StepUnit(s, Answer(c)).0;
  }

  // ---------------------------------------------------------------- the token

  function Start(c: Setting): Model
    requires ConfigValid(c.cfg)
  {
    Initial(c.cfg, c.nonce)
  }

  function Buffers(c: Setting): BufferAnswer { FullBuffers(c.cfg.geometry) }

  lemma TransferSubmitted(c: Setting)
    requires Suits(c)
    ensures Transferring(TrySubmit(Start(c), Transfer(c), Buffers(c)).0, c, Queued, 2, 0)
  {
    Home(c.cfg);
    assert RequestShapeValid(c.cfg, c.nonce, 1, Transfer(c));
    FirstSubmitted(c.cfg, c.nonce, Transfer(c), Buffers(c));
  }

  /** After the transfer has run and was collected, its token stands and every slot is free. */
  ghost predicate Loaded(s: Model, c: Setting, now: nat)
  {
    && Bench(s, c, now, 8, 0) && (forall k :: 0 <= k < |s.ops| ==> s.ops[k].state.Free?) && Standing(s, c.mask)
    && Tails(s, now, now, 0) && s.nextUid == 2 && s.nextSubmit == 2 && s.nextArray == 1 && s.eventCount == 0
  }

  /** The transfer, queued or scheduled, alone in the first slot of a fresh controller. */
  ghost predicate Transferring(s: Model, c: Setting, state: OpState, trace: nat, tail: nat)
  {
    && Bench(s, c, 0, trace, 0) && 2 <= |s.ops| && Others(s.ops, 0, 0)
    && OnWay(s.ops[0], Transfer(c), 1, state, 0, 0, tail)
    && Tails(s, tail, tail, 0) && |s.caches| > 0 && s.caches[0].generation == 0
    && s.nextUid == 2 && s.nextSubmit == 2 && s.nextArray == 1 && s.eventCount == 0
  }

  lemma Load(c: Setting) returns (s: Model)
    requires Suits(c)
    ensures Leads(Start(c), s) && Loaded(s, c, TransferTime(c))
  {
    var o := Start(c);
    assert Exec(o, []) == o;
    TransferSubmitted(c);
    LeadsOn(o, o, Submit(Transfer(c), Buffers(c)));
    s := TransferScheduled(o, TrySubmit(o, Transfer(c), Buffers(c)).0, c);
    s := TransferRun(o, s, c);
  }

  lemma TransferScheduled(o: Model, s: Model, c: Setting) returns (t: Model)
    requires Suits(c) && Shaped(o) && Leads(o, s) && Transferring(s, c, Queued, 2, 0)
    ensures Leads(o, t) && Transferring(t, c, Scheduled, 3, TransferTime(c))
  {
    Times(c, Transfer(c));
    Chosen(s.ops, 0);
    t := ScheduleNext(o, s, c, 0, Transfer(c), 1, 0, 2, 0, 0, 0, 0, 0, TransferTime(c));
  }

  lemma TransferRun(o: Model, s: Model, c: Setting) returns (t: Model)
    requires Suits(c) && Shaped(o) && Leads(o, s) && Transferring(s, c, Scheduled, 3, TransferTime(c))
    ensures Leads(o, t) && Loaded(t, c, TransferTime(c))
  {
    var d := TransferTime(c);
    var u := TransferDue(o, s, c, d);
    Chosen(u.ops, 0);
    var v := TransferEndsNext(o, u, c, 0, d, 0, 1, 5);
    t := CollectNext(o, v, c, d);
  }

  /** The transfer runs, alone in the first slot. */
  ghost predicate TransferRuns(s: Model, c: Setting, now: nat, trace: nat, next: nat, done: nat, d: nat)
  {
    && Bench(s, c, now, trace, 0) && Others(s.ops, 0, 0) && Tails(s, d, d, 0) && 2 <= |s.ops|
    && OnWay(s.ops[0], Transfer(c), 1, Running, 0, next, d) && Done(s.ops[0], done, Units(c))
    && |s.caches| > 0 && s.caches[0].generation == 0
    && s.nextUid == 2 && s.nextSubmit == 2 && s.nextArray == 1 && s.eventCount == 0
  }

  lemma TransferBegins(o: Model, s: Model, c: Setting, d: nat) returns (t: Model)
    requires Suits(c) && Shaped(o) && Leads(o, s) && Transferring(s, c, Scheduled, 3, d) && 2 <= d
    ensures Leads(o, t) && TransferRuns(t, c, 0, 4, FirstDue(c, 0, d), 0, d)
  {
    Chosen(s.ops, 0);
    t := BeginNext(o, s, c, 0, Transfer(c), 1, 0, d, 3, 0);
  }

  lemma TransferDue(o: Model, s: Model, c: Setting, d: nat) returns (t: Model)
    requires Suits(c) && Shaped(o) && Leads(o, s) && Transferring(s, c, Scheduled, 3, d) && 2 <= d
    ensures Leads(o, t) && TransferRuns(t, c, d, 5, d, Units(c) - 1, d)
  {
    var u := TransferBegins(o, s, c, d);
    Chosen(u.ops, 0);
    var v := ToLastUnit(o, u, c, 0, Transfer(c), 1, 0, d, 4, 0);
    Chosen(v.ops, 0);
    t := TickNext(o, v, c, 0, v.now, 5, 0);
  }

  lemma CollectNext(o: Model, s: Model, c: Setting, now: nat) returns (t: Model)
    requires Shaped(o) && Leads(o, s)
    requires ConfigValid(c.cfg) && 2 <= c.cfg.capacity.operations && Bench(s, c, now, 7, 0) && Standing(s, c.mask)
    requires s.ops[0].state.EventPending? && Others(s.ops, 0, 0) && Tails(s, now, now, 0)
    requires s.nextUid == 2 && s.nextSubmit == 2 && s.nextArray == 1 && s.eventCount == 1
    ensures Leads(o, t) && Loaded(t, c, now)
  {
    LeadsOn(o, s, Collect(1));
    CollectedOne(s, c, now);
    t := Poll(s, 1);
  }

  lemma CollectedOne(s: Model, c: Setting, now: nat)
    requires ConfigValid(c.cfg) && 2 <= c.cfg.capacity.operations && Bench(s, c, now, 7, 0) && Standing(s, c.mask)
    requires s.ops[0].state.EventPending? && Others(s.ops, 0, 0) && Tails(s, now, now, 0)
    requires s.nextUid == 2 && s.nextSubmit == 2 && s.nextArray == 1 && s.eventCount == 1
    ensures Loaded(Poll(s, 1), c, now)
  {
    var next := NextEvent(s.ops, |s.ops|);
    assert next == Some(0);
    assert Poll(s, 1) == Poll(Report(s, 0), 0);
  }

  // ---------------------------------------------------------------- the two programs

  function Older(c: Setting): Request { Program(c, 2, 1) }
  function Younger(c: Setting): Request { Program(c, 3, 0) }

  /** Two queued programs of the standing token; the older has the larger priority number. */
  ghost predicate Inverted(s: Model, c: Setting, now: nat)
  {
    && Bench(s, c, now, 10, 0) && Standing(s, c.mask) && Tails(s, now, now, 0) && s.nextArray == 1 && s.eventCount == 0
    && 2 <= |s.ops| && OnWay(s.ops[0], Older(c), 2, Queued, 0, 0, 0) && OnWay(s.ops[1], Younger(c), 3, Queued, 0, 0, 0)
    && Others(s.ops, 0, 1)
  }

  lemma OneSubmitted(s: Model, c: Setting, i: nat, uid: nat, priority: nat, now: nat, trace: nat)
    requires Suits(c) && Bench(s, c, now, trace, 0) && trace < c.cfg.capacity.traceEntries
    requires i <= 1 && (forall k :: i <= k < |s.ops| ==> s.ops[k].state.Free?) && (i == 1 ==> Live(s.ops[0]))
    requires i == 1 ==> s.ops[0].request.operation.operationUid != uid
    requires s.nextUid == uid == s.nextSubmit <= 3 && uid > 0
    ensures var (t, result) := TrySubmit(s, Program(c, uid, priority), Buffers(c));
      && result.Accepted? && Bench(t, c, now, trace + 1, 0)
      && Quietly(s, t.(nextUid := s.nextUid, nextSubmit := s.nextSubmit), i)
      && OnWay(t.ops[i], Program(c, uid, priority), uid, Queued, 0, 0, 0)
      && t.nextUid == uid + 1 == t.nextSubmit && t.nextArray == s.nextArray && TailsStay(s, t)
  {
    Home(c.cfg);
    var r := Program(c, uid, priority);
    assert RequestShapeValid(c.cfg, c.nonce, 1, r);
    assert FindOperation(s.ops, r.operation, 0).None?;
    assert FreeOperation(s.ops, 0) == Some(i) by {
      if i == 1 { assert FreeOperation(s.ops, 0) == FreeOperation(s.ops, 1); }
    }
  }

  lemma Queue(s: Model, c: Setting, now: nat) returns (t: Model)
    requires Suits(c) && Leads(Start(c), s) && Loaded(s, c, now)
    ensures Leads(Start(c), t) && Inverted(t, c, now)
  {
    var o := Start(c);
    OneSubmitted(s, c, 0, 2, 1, now, 8);
    LeadsOn(o, s, Submit(Older(c), Buffers(c)));
    var u := TrySubmit(s, Older(c), Buffers(c)).0;
    OneSubmitted(u, c, 1, 3, 0, now, 9);
    LeadsOn(o, u, Submit(Younger(c), Buffers(c)));
    t := TrySubmit(u, Younger(c), Buffers(c)).0;
  }

  /** Both are scheduled, the older behind the younger, and the token stands. */
  ghost predicate Meeting(s: Model, c: Setting, now: nat, d: nat)
  {
    && 2 <= d && Bench(s, c, now, 12, 0) && Standing(s, c.mask) && s.nextArray == 1 && s.eventCount == 0
    && 2 <= |s.ops| && OnWay(s.ops[0], Older(c), 2, Scheduled, now + d, now + d, now + d + d)
    && OnWay(s.ops[1], Younger(c), 3, Scheduled, now, now, now + d) && Others(s.ops, 0, 1)
  }

  /** The younger is served first, so the older starts at the tick at which the younger ends. */
  lemma Meet(o: Model, s: Model, c: Setting, now: nat, d: nat) returns (t: Model)
    requires Suits(c) && Shaped(o) && Leads(o, s) && Inverted(s, c, now)
    requires now == TransferTime(c) && d == ProgramTime(c)
    ensures Leads(o, t) && Meeting(t, c, now, d)
  {
    Times(c, Younger(c));
    Times(c, Older(c));
    t := MeetFrom(o, s, c, now, d);
  }

  lemma MeetFrom(o: Model, s: Model, c: Setting, now: nat, d: nat) returns (t: Model)
    requires ConfigValid(c.cfg) && Shaped(o) && Leads(o, s) && Inverted(s, c, now) && c.mask < 4 && 2 <= d
    requires d == Duration(c.cfg, Younger(c)) == Duration(c.cfg, Older(c))
    requires 2 <= c.cfg.capacity.operations && FitsAt(c.cfg, now, d) && FitsAt(c.cfg, now + d, d)
    ensures Leads(o, t) && Meeting(t, c, now, d)
  {
    Chosen(s.ops, 1);
    var u := ScheduleNext(o, s, c, 1, Younger(c), 3, now, 10, 0, now, now, 0, now, d);
    Chosen(u.ops, 0);
    t := ScheduleNext(o, u, c, 0, Older(c), 2, now, 11, 0, now + d, now, now + d, now + d, d);
  }

  /** The younger runs and waits for its last unit only. */
  ghost predicate Underway(s: Model, c: Setting, now: nat, d: nat)
  {
    && 2 <= d && now <= s.now < now + d && Bench(s, c, s.now, 14, 0) && Standing(s, c.mask) && s.nextArray <= 2
    && s.eventCount == 0 && 2 <= |s.ops| && OnWay(s.ops[0], Older(c), 2, Scheduled, now + d, now + d, now + d + d)
    && OnWay(s.ops[1], Younger(c), 3, Running, now, now + d, now + d) && Done(s.ops[1], Units(c) - 1, Units(c))
    && Others(s.ops, 0, 1)
  }

  lemma GetUnderway(o: Model, s: Model, c: Setting, now: nat, d: nat) returns (t: Model)
    requires Suits(c) && Shaped(o) && Leads(o, s) && Meeting(s, c, now, d)
    ensures Leads(o, t) && Underway(t, c, now, d)
  {
    Chosen(s.ops, 1);
    var u := BeginNext(o, s, c, 1, Younger(c), 3, now, now + d, 12, 0);
    FirstDueIs(c, now, now + d);
    if c.mask == 3 {
      Chosen(u.ops, 1);
      t := ToLastUnit(o, u, c, 1, Younger(c), 3, now, now + d, 13, 0);
    } else {
      t := u;
    }
  }

  /** At the common tick the older begins although the younger has not ended. */
  ghost predicate Overlapping(s: Model, c: Setting, now: nat, d: nat)
  {
    && 2 <= d && Bench(s, c, now + d, 15, 0) && s.eventCount == 0 && 2 <= |s.ops|
    && OnWay(s.ops[0], Older(c), 2, Running, now + d, FirstDue(c, now + d, now + d + d), now + d + d)
    && OnWay(s.ops[1], Younger(c), 3, Running, now, now + d, now + d)
    && Done(s.ops[0], 0, Units(c)) && Done(s.ops[1], Units(c) - 1, Units(c)) && Others(s.ops, 0, 1)
  }

  lemma Overlap(o: Model, s: Model, c: Setting, now: nat, d: nat) returns (t: Model)
    requires Suits(c) && Shaped(o) && Leads(o, s) && Underway(s, c, now, d)
    ensures Leads(o, t) && Overlapping(t, c, now, d)
  {
    Chosen(s.ops, 0);
    var u := TickNext(o, s, c, 0, s.now, 14, 0);
    t := OverlapAt(o, u, c, now, now + d, now + d + d);
  }

  lemma OverlapAt(o: Model, s: Model, c: Setting, now: nat, start: nat, finish: nat) returns (t: Model)
    requires Suits(c) && Shaped(o) && Leads(o, s) && Bench(s, c, start, 14, 0) && Standing(s, c.mask)
    requires s.nextArray <= 2
    requires s.eventCount == 0 && 2 <= |s.ops| && OnWay(s.ops[0], Older(c), 2, Scheduled, start, start, finish)
    requires OnWay(s.ops[1], Younger(c), 3, Running, now, start, start) && Done(s.ops[1], Units(c) - 1, Units(c))
    requires Others(s.ops, 0, 1) && start + 2 <= finish
    ensures Leads(o, t) && Bench(t, c, start, 15, 0) && t.eventCount == 0 && 2 <= |t.ops|
    ensures OnWay(t.ops[0], Older(c), 2, Running, start, FirstDue(c, start, finish), finish)
    ensures Done(t.ops[0], 0, Units(c)) && Others(t.ops, 0, 1) && t.ops[1] == s.ops[1]
  {
    Chosen(s.ops, 0);
    t := BeginNext(o, s, c, 0, Older(c), 2, start, finish, 14, 0);
  }

  /** The younger has made its call; the older has its first unit before it. */
  ghost predicate Alone(s: Model, c: Setting, start: nat, finish: nat)
  {
    && start + 2 <= finish && Bench(s, c, start, 17, 1) && s.eventCount == 1 && 2 <= |s.ops| && Calls(s, 0)
    && OnWay(s.ops[0], Older(c), 2, Running, start, FirstDue(c, start, finish), finish) && Done(s.ops[0], 0, Units(c))
    && s.ops[1].state.EventPending? && Others(s.ops, 0, 1)
  }

  lemma YoungerEnds(o: Model, s: Model, c: Setting, now: nat, d: nat) returns (t: Model)
    requires Suits(c) && Shaped(o) && Leads(o, s) && Overlapping(s, c, now, d)
    ensures Leads(o, t) && Alone(t, c, now + d, now + d + d)
  {
    FirstDueIs(c, now + d, now + d + d);
    Chosen(s.ops, 1);
    t := ProgramEndsNext(o, s, c, 1, Younger(c), 3, now + d, now, 15, 0);
  }

  lemma OlderEnds(o: Model, s: Model, c: Setting, start: nat, finish: nat) returns (t: Model)
    requires Suits(c) && Shaped(o) && Leads(o, s) && Alone(s, c, start, finish)
    ensures Leads(o, t) && Calls(t, 0) && Calls(t, 1)
  {
    Chosen(s.ops, 0);
    var u := ToLastUnit(o, s, c, 0, Older(c), 2, start, finish, 17, 1);
    Chosen(u.ops, 0);
    var v := TickNext(o, u, c, 0, u.now, 18, 1);
    Chosen(v.ops, 0);
    t := ProgramEndsNext(o, v, c, 0, Older(c), 2, finish, start, 18, 1);
  }

  lemma Collide(c: Setting) returns (s: Model)
    requires Suits(c)
    ensures Leads(Start(c), s) && Calls(s, 0) && Calls(s, 1)
  {
    var now := TransferTime(c);
    s := Load(c);
    s := Queue(s, c, now);
    s := CollideFrom(Start(c), s, c, now, ProgramTime(c));
  }

  lemma CollideFrom(o: Model, r: Model, c: Setting, now: nat, d: nat) returns (s: Model)
    requires Suits(c) && Shaped(o) && Leads(o, r) && Inverted(r, c, now)
    requires now == TransferTime(c) && d == ProgramTime(c)
    ensures Leads(o, s) && Calls(s, 0) && Calls(s, 1)
  {
    s := Meet(o, r, c, now, d);
    s := GetUnderway(o, s, c, now, d);
    s := BothEnd(o, s, c, now, d);
  }

  lemma BothEnd(o: Model, r: Model, c: Setting, now: nat, d: nat) returns (s: Model)
    requires Suits(c) && Shaped(o) && Leads(o, r) && Underway(r, c, now, d)
    ensures Leads(o, s) && Calls(s, 0) && Calls(s, 1)
  {
    s := Overlap(o, r, c, now, d);
    s := YoungerEnds(o, s, c, now, d);
    s := OlderEnds(o, s, c, now + d, now + d + d);
  }

  /** A run in which the main region alone is programmed if that fits, and both regions if that wraps around. */
  lemma RoomySuits(cfg: Config, nonce: nat) returns (c: Setting)
    requires ConfigValid(cfg) && Roomy(cfg) && 2 <= cfg.capacity.operations
    ensures Suits(c) && c.cfg == cfg && c.nonce == nonce
  {
    c := Setting(cfg, nonce, if ProgramTicks(cfg, 2) > cfg.capacity.virtualTickLimit then 3 else 1);
  }

  /** With two slots and room for three operations there is a run that uses a token twice. */
  lemma TokenUsedTwice(cfg: Config, nonce: nat)
    requires ConfigValid(cfg) && Roomy(cfg) && 2 <= cfg.capacity.operations
    ensures exists run :: !TokensOnce(Exec(Initial(cfg, nonce), run).hist.effects)
  {
    var c := RoomySuits(cfg, nonce);
    var s := Collide(c);
    UsedTwice(s);
    var run :| s == Exec(Initial(cfg, nonce), run);
    assert !TokensOnce(Exec(Initial(cfg, nonce), run).hist.effects);
  }

  lemma UsedTwice(s: Model)
    requires Calls(s, 0) && Calls(s, 1)
    ensures !TokensOnce(s.hist.effects)
  {
    var e := s.hist.effects;
    assert UsesToken(e[0]) && UsesToken(e[1]) && Uses(e[0], e[1].plane, e[1].generation);
  }

  // ---------------------------------------------------------------- when no run does

  /** With one slot nothing is queued when a submission is accepted. */
  lemma OneSlotKeepsOrder(s: Model, a: Action)
    requires Shaped(s) && |s.ops| == 1
    ensures KeepsOrder(s, false, a)
  {
  }

  lemma {:induction false} OneSlotInOrder(s: Model, run: seq<Action>)
    requires Inv(s) && |s.ops| == 1
    ensures InOrder(s, false, run)
    decreases |run|
  {
    if run != [] {
      ActKeeps(s, run[0]);
      ActLater(s, run[0]);
      OneSlotKeepsOrder(s, run[0]);
      OneSlotInOrder(Act(s, run[0]), run[1..]);
    }
  }

  lemma CfgStays(cfg: Config, nonce: nat, run: seq<Action>)
    requires ConfigValid(cfg)
    ensures Exec(Initial(cfg, nonce), run).cfg == cfg
  {
    InitialInv(cfg, nonce);
    RunLater(Initial(cfg, nonce), run);
  }

  /** No run uses a token twice exactly when there is one slot or no room for the three operations. */
  lemma TokensOnceExactly(cfg: Config, nonce: nat)
    requires ConfigValid(cfg)
    ensures (forall run :: TokensOnce(Exec(Initial(cfg, nonce), run).hist.effects))
       <==> cfg.capacity.operations == 1 || !Roomy(cfg)
  {
    if cfg.capacity.operations == 1 {
      forall run ensures TokensOnce(Exec(Initial(cfg, nonce), run).hist.effects) {
        InitialInv(cfg, nonce);
        OneSlotInOrder(Initial(cfg, nonce), run);
        TokenOnceTheorem(cfg, nonce, run);
      }
    } else if !Roomy(cfg) {
      forall run ensures TokensOnce(Exec(Initial(cfg, nonce), run).hist.effects) {
        CfgStays(cfg, nonce, run);
        CrampedOnce(Exec(Initial(cfg, nonce), run));
      }
    } else {
      TokenUsedTwice(cfg, nonce);
    }
  }
}
