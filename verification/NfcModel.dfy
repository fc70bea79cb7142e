/**
 The NAND flash controller as a pure state machine: one function for each entry of
 its provider table and one for each helper that changes state.  What the media and
 buffer providers answer is an argument, so every lemma about these functions holds
 for every provider.
 */
module NfcModel {
  import opened NfcTypes
  import NfcFault

  datatype OpState = Free | Queued | Scheduled | Running | EventPending
  datatype FaultClass = Clean | NoEffect | Torn | GrownBad
  datatype CacheKind = NoCache | ReadCache | ProgramCache
  datatype Phase = Ready | ResetDrain | PoweredOff | Faulted
  datatype ApiResult = Ok | InvalidContract | CounterExhausted | InvariantFailure | NotFound
  datatype SubmitResult = Accepted | Backpressure(reason: nat) | Rejected(reason: nat)

  // ---------------------------------------------------------------- configuration

  datatype Geometry = Geometry(
    channels: nat, lunsPerChannel: nat, planesPerLun: nat, blocksPerPlane: nat, pagesPerBlock: nat,
    parallelism: nat, mainBytes: nat, oobBytes: nat, ascendingProgram: bool)

  datatype Timing = Timing(
    command: nat, transferPerUnit: nat, readArray: nat,
    programSetup: nat, programPerUnit: nat, programStatus: nat,
    eraseSetup: nat, erasePerPage: nat, eraseStatus: nat, status: nat)

  datatype Capacity = Capacity(
    operations: nat, terminalEvents: nat, traceEntries: nat,
    operationGenerationLimit: nat, cacheGenerationLimit: nat, controllerEpochLimit: nat,
    submitSequenceLimit: nat, operationUidLimit: nat, virtualTickLimit: nat)

  datatype Config = Config(
    geometry: Geometry, timing: Timing, capacity: Capacity,
    maxRetryStep: nat, mainStrengthBits: nat, oobStrengthBits: nat, successfulEraseLimit: nat)

  predicate GeometryValid(g: Geometry)
  {
    && 0 < g.channels <= 4 && 0 < g.lunsPerChannel <= 4 && 0 < g.planesPerLun <= 4
    && 0 < g.blocksPerPlane <= 32 && 0 < g.pagesPerBlock <= 64
    && 0 < g.parallelism <= g.planesPerLun
    && 0 < g.mainBytes <= 16384 && 0 < g.oobBytes <= 2048
    && TotalPages(g) <= MAX_TOTAL_PAGES && MediaBytes(g) <= MAX_MEDIA_BYTES
  }

  function TotalPages(g: Geometry): nat { Planes(g) * g.blocksPerPlane * g.pagesPerBlock }
  function MediaBytes(g: Geometry): nat { TotalPages(g) * (g.mainBytes + g.oobBytes) }

  predicate DurationValid(ticks: nat) { 0 < ticks <= MAX_DURATION_TICKS }

  predicate TimingValid(t: Timing)
  {
    && DurationValid(t.command) && DurationValid(t.transferPerUnit) && DurationValid(t.readArray)
    && DurationValid(t.programSetup) && DurationValid(t.programPerUnit) && DurationValid(t.programStatus)
    && DurationValid(t.eraseSetup) && DurationValid(t.erasePerPage) && DurationValid(t.eraseStatus)
    && DurationValid(t.status)
  }

  predicate CapacityValid(c: Capacity)
  {
    && 0 < c.operations <= MAX_OPERATIONS
    && c.operations <= c.terminalEvents <= MAX_OPERATIONS
    && c.operations * 16 + 1 <= c.traceEntries
    && 0 < c.operationGenerationLimit && 0 < c.cacheGenerationLimit && 0 < c.controllerEpochLimit
    && 0 < c.submitSequenceLimit < 0x1_0000_0000
    && 0 < c.operationUidLimit < U64
    && 0 < c.virtualTickLimit < U64
  }

  predicate ConfigValid(cfg: Config)
  {
    GeometryValid(cfg.geometry) && TimingValid(cfg.timing) && CapacityValid(cfg.capacity)
    && cfg.mainStrengthBits <= 255 && cfg.oobStrengthBits <= 255
    && cfg.maxRetryStep <= MAX_RETRY_STEP && 0 < cfg.successfulEraseLimit
  }

  // ---------------------------------------------------------------- addressing

  predicate PpaValid(g: Geometry, ppa: Ppa)
  {
    && ppa.reserved == 0 && ppa.channel < g.channels && ppa.lun < g.lunsPerChannel
    && ppa.plane < g.planesPerLun && ppa.block < g.blocksPerPlane && ppa.page < g.pagesPerBlock
  }

  function Planes(g: Geometry): nat { g.channels * g.lunsPerChannel * g.planesPerLun }
  function Lanes(g: Geometry): nat { g.channels * g.lunsPerChannel * g.parallelism }

  lemma RadixBound(high: nat, bound: nat, low: nat, radix: nat)
    requires high < bound && low < radix
    ensures high * radix + low < bound * radix
  {
    assert (high + 1) * radix <= bound * radix;
  }

  function PlaneIndex(g: Geometry, ppa: Ppa): (index: nat)
    requires PpaValid(g, ppa)
    ensures index < Planes(g)
  {
    RadixBound(ppa.channel, g.channels, ppa.lun, g.lunsPerChannel);
    RadixBound(ppa.channel * g.lunsPerChannel + ppa.lun, g.channels * g.lunsPerChannel, ppa.plane, g.planesPerLun);
    (ppa.channel * g.lunsPerChannel + ppa.lun) * g.planesPerLun + ppa.plane
  }

  function LunIndex(g: Geometry, ppa: Ppa): nat { ppa.channel * g.lunsPerChannel + ppa.lun }

  function LaneIndex(g: Geometry, ppa: Ppa): (index: nat)
    requires PpaValid(g, ppa) && 0 < g.parallelism
    ensures index < Lanes(g)
  {
    RadixBound(ppa.channel, g.channels, ppa.lun, g.lunsPerChannel);
    RadixBound(LunIndex(g, ppa), g.channels * g.lunsPerChannel, ppa.plane % g.parallelism, g.parallelism);
    LunIndex(g, ppa) * g.parallelism + ppa.plane % g.parallelism
  }

  // ---------------------------------------------------------------- state

  datatype Op = Op(
    state: OpState, cancelRequested: bool, resetOwned: bool, faultClass: FaultClass, legality: nat,
    unitIndex: nat, unitCount: nat, submitSequence: nat, arraySequence: nat,
    startTick: nat, nextTick: nat, finishTick: nat, faultWord: nat,
    request: Request, completion: Completion, page: Page)

  datatype PlaneCache = PlaneCache(
    kind: CacheKind, validRegionMask: nat, eccStatus: nat, retryStep: nat,
    correctedMainBits: nat, correctedOobBits: nat, eraseGeneration: nat,
    generation: nat, controllerEpoch: nat, ppa: Ppa, faultWord: nat, page: Page)

  // What happened so far, by submit sequence where an operation is meant.  Kept beside the
  // state: no transition reads it.

  datatype Acceptance = Acceptance(request: Request, page: Page)
  datatype Reservation = Reservation(
    plane: nat, channel: nat, lun: nat, lane: nat, transfer: bool, start: nat, finish: nat)
  datatype Beginning = Beginning(tick: nat, epoch: nat, legality: nat, faultClass: FaultClass, page: Page)
  datatype Mint = Mint(sequence: nat, epoch: nat, kind: CacheKind, page: Page)
  datatype Effect =
    | Delivered(sequence: nat, plane: nat, generation: nat, page: Page)
    | Programmed(sequence: nat, ppa: Ppa, plane: nat, generation: nat, page: Page,
                 mainApplied: nat, oobApplied: nat, integrity: nat)
    | Erased(sequence: nat, ppa: Ppa, pages: nat, integrity: nat)
    | MarkedBad(sequence: nat, ppa: Ppa)

  datatype History = History(
    accepted: map<nat, Acceptance>, reserved: map<nat, Reservation>, begun: map<nat, Beginning>,
    mints: map<(nat, nat), Mint>, effects: seq<Effect>, reports: seq<Completion>, lost: set<nat>)

  datatype Model = Model(
    cfg: Config, nonce: nat, now: nat, nextUid: nat, epoch: nat, nextSubmit: nat, nextArray: nat,
    phase: Phase, traceCount: nat, eventCount: int,
    ops: seq<Op>, caches: seq<PlaneCache>,
    channelTail: seq<nat>, arrayTail: seq<nat>, cacheTail: seq<nat>,
    hist: History)

  // ---------------------------------------------------------------- provider answers

  /** What the buffer provider reads when a program transfer is captured. */
  datatype BufferAnswer = BufferAnswer(mainOk: bool, main: seq<Byte>, oobOk: bool, oob: seq<Byte>)

  /** What the media, the buffers and the fault profile answer during one unit of work. */
  datatype MediaAnswer = MediaAnswer(
    readOk: bool, page: Page, pageErased: bool, pageTorn: bool, programCount: nat,
    eraseGeneration: nat, health: nat, eraseTorn: bool, nextProgramPage: nat, successfulErases: nat,
    faultWord: nat, faultClass: FaultClass, mainErrors: nat, oobErrors: nat,
    callOk: bool, physicalOutcome: nat, integrity: nat, appliedRegionMask: nat,
    baseEraseGeneration: nat, finalEraseGeneration: nat, blockHealth: nat, reason: nat)

  const ZERO_TOKEN: OperationToken := OperationToken(0, 0, 0, 0)
  const ZERO_PPA: Ppa := Ppa(0, 0, 0, 0, 0, 0)
  const ZERO_BUFFER: BufferRef := BufferRef(0, 0, 0, 0)
  const ZERO_CACHE_TOKEN: CacheToken := CacheToken(0, 0, 0, 0, 0, 0, 0)
  const EMPTY_PAGE: Page := Page([], [])
  const ZERO_REQUEST: Request := Request(
    0, 0, 0, ZERO_TOKEN, ZERO_PPA, ZERO_BUFFER, ZERO_BUFFER, ZERO_CACHE_TOKEN,
    0, 0, 0, 0, 0, 0, 0, 0, 0, 0, 0, 0)
  const ZERO_COMPLETION: Completion := Completion(
    0, 0, 0, ZERO_TOKEN, ZERO_PPA, ZERO_CACHE_TOKEN, 0, 0, 0, 0, 0, 0, 0, 0, 0, 0, 0, 0, 0,
    0, 0, 0, 0, 0, 0, 0, 0, 0, 0, 0, 0, 0, 0)
  const FREE_OP: Op := Op(
    Free, false, false, Clean, 0, 0, 0, 0, 0, 0, 0, 0, 0, ZERO_REQUEST, ZERO_COMPLETION, EMPTY_PAGE)
  const EMPTY_CACHE: PlaneCache := PlaneCache(NoCache, 0, 0, 0, 0, 0, 0, 0, 0, ZERO_PPA, 0, EMPTY_PAGE)

  /** The tables have their configured sizes and every live operation addresses the geometry. */
  ghost predicate Shaped(s: Model)
  {
    && ConfigValid(s.cfg)
    && |s.ops| == s.cfg.capacity.operations
    && |s.caches| == |s.cacheTail| == Planes(s.cfg.geometry)
    && |s.channelTail| == s.cfg.geometry.channels
    && |s.arrayTail| == Lanes(s.cfg.geometry)
    && forall i :: 0 <= i < |s.ops| ==> SlotShaped(s.cfg, s.ops[i])
  }

  predicate SlotShaped(cfg: Config, op: Op)
  {
    && (!op.state.Free? ==> RequestPlaced(cfg, op.request))
    && op.startTick <= op.finishTick
    && (op.state.Running? ==> 0 < op.unitCount)
  }

  /** What submission establishes of a request and the later stages rely on. */
  predicate RequestPlaced(cfg: Config, request: Request)
  {
    PpaValid(cfg.geometry, request.ppa) && request.kind <= STATUS && request.regionMask < 4
  }

  function Initial(cfg: Config, nonce: nat): (s: Model)
    requires ConfigValid(cfg)
    ensures Shaped(s)
  {
    var g := cfg.geometry;
    Model(cfg, nonce, 0, 1, 1, 1, 1, Ready, 1, 0,
          seq(cfg.capacity.operations, _ => FREE_OP), seq(Planes(g), _ => EMPTY_CACHE),
          seq(g.channels, _ => 0), seq(Lanes(g), _ => 0), seq(Planes(g), _ => 0),
          History(map[], map[], map[], map[], [], [], {}))
  }

  /** One trace entry: the trace is not a ring, and a full one faults the model. */
  function Trace(s: Model): (r: Model)
    ensures r == s.(phase := r.phase, traceCount := r.traceCount)
    ensures r.phase == s.phase || r.phase == Faulted
  {
    if s.traceCount >= s.cfg.capacity.traceEntries then s.(phase := Faulted)
    else s.(traceCount := s.traceCount + 1)
  }

  // ---------------------------------------------------------------- submission

  predicate BufferSelected(buffer: BufferRef, expected: nat, selected: bool)
  {
    if !selected then buffer == ZERO_BUFFER
    else buffer.controllerRegion != 0 && buffer.length == expected && buffer.reserved == 0
         && buffer.offset + buffer.length <= 0xffff_ffff
  }

  predicate CacheTokenPlausible(cfg: Config, nonce: nat, epoch: nat, token: CacheToken)
  {
    && token.instanceNonce == nonce && token.controllerEpoch == epoch
    && 0 < token.generation <= cfg.capacity.cacheGenerationLimit && token.reserved == 0
  }

  predicate RequestShapeValid(cfg: Config, nonce: nat, epoch: nat, r: Request)
  {
    var g := cfg.geometry;
    var c := cfg.capacity;
    && r.version == CONTRACT_VERSION && r.size == REQUEST_SIZE && r.reserved0 == 0
    && r.reserved10 == r.reserved11 == r.reserved12 == 0 && r.reserved20 == r.reserved21 == 0
    && r.kind <= STATUS && r.regionMask < 4
    && r.operation.instanceNonce == nonce && r.operation.controllerEpoch == epoch
    && 0 < r.operation.operationUid <= c.operationUidLimit
    && 0 < r.operation.generation <= c.operationGenerationLimit
    && r.retryStep <= cfg.maxRetryStep
    && PpaValid(g, r.ppa)
    && (if r.kind == READ_TRIGGER then
          r.regionMask != 0 && r.main == ZERO_BUFFER && r.oob == ZERO_BUFFER && r.cache == ZERO_CACHE_TOKEN
        else if r.kind == READ_TRANSFER then
          r.regionMask != 0
          && BufferSelected(r.main, g.mainBytes, MainSelected(r.regionMask))
          && BufferSelected(r.oob, g.oobBytes, OobSelected(r.regionMask))
          && CacheTokenPlausible(cfg, nonce, epoch, r.cache)
        else if r.kind == PROGRAM_TRANSFER then
          MainSelected(r.regionMask)
          && BufferSelected(r.main, g.mainBytes, true)
          && BufferSelected(r.oob, g.oobBytes, OobSelected(r.regionMask))
          && r.cache == ZERO_CACHE_TOKEN && r.retryStep == 0
        else if r.kind == PROGRAM_EXECUTE then
          MainSelected(r.regionMask) && r.main == ZERO_BUFFER && r.oob == ZERO_BUFFER
          && CacheTokenPlausible(cfg, nonce, epoch, r.cache) && r.retryStep == 0
        else
          r.regionMask == 0 && r.main == ZERO_BUFFER && r.oob == ZERO_BUFFER
          && r.cache == ZERO_CACHE_TOKEN && r.retryStep == 0
          && (r.kind != ERASE || r.ppa.page == 0))
  }

  /** The first live slot at or after `from` that carries the token. */
  function FindOperation(ops: seq<Op>, token: OperationToken, from: nat): (r: Option<nat>)
    requires from <= |ops|
    ensures r.Some? ==> from <= r.value < |ops| && !ops[r.value].state.Free?
                        && ops[r.value].request.operation == token
    ensures r.None? ==> forall i :: from <= i < |ops| && !ops[i].state.Free? ==>
                                    ops[i].request.operation != token
    decreases |ops| - from
  {
    if from == |ops| then None
    else if !ops[from].state.Free? && ops[from].request.operation == token then Some(from)
    else FindOperation(ops, token, from + 1)
  }

  /** The first free slot at or after `from`. */
  function FreeOperation(ops: seq<Op>, from: nat): (r: Option<nat>)
    requires from <= |ops|
    ensures r.Some? ==> from <= r.value < |ops| && ops[r.value].state.Free?
    ensures r.None? ==> forall i :: from <= i < |ops| ==> !ops[i].state.Free?
    decreases |ops| - from
  {
    if from == |ops| then None
    else if ops[from].state.Free? then Some(from)
    else FreeOperation(ops, from + 1)
  }

  predicate CaptureFails(r: Request, buffers: BufferAnswer)
  {
    r.kind == PROGRAM_TRANSFER && (!buffers.mainOk || (OobSelected(r.regionMask) && !buffers.oobOk))
  }

  /** The bytes a program transfer holds from submission on; nothing for the other kinds. */
  function CapturedPage(cfg: Config, r: Request, buffers: BufferAnswer): Page
  {
    if r.kind != PROGRAM_TRANSFER then EMPTY_PAGE
    else Page(buffers.main,
              if OobSelected(r.regionMask) then buffers.oob else seq(cfg.geometry.oobBytes, _ => 0xff))
  }

  function AcceptedOp(cfg: Config, now: nat, sequence: nat, r: Request, buffers: BufferAnswer): Op
  {
    FREE_OP.(state := Queued, submitSequence := sequence, request := r,
             page := CapturedPage(cfg, r, buffers),
             completion := ZERO_COMPLETION.(
               version := CONTRACT_VERSION, size := COMPLETION_SIZE, operation := r.operation, ppa := r.ppa,
               cache := r.cache, cookie := r.cookie, acceptedTick := now,
               submitSequence := sequence, requestedRegionMask := r.regionMask,
               retryStep := r.retryStep, operationKind := r.kind))
  }

  function Accept(s: Model, i: nat, r: Request, buffers: BufferAnswer): (t: Model)
    requires Shaped(s) && i < |s.ops| && RequestPlaced(s.cfg, r)
    ensures Shaped(t)
  {
    var t := s.(ops := s.ops[i := AcceptedOp(s.cfg, s.now, s.nextSubmit, r, buffers)], nextSubmit := s.nextSubmit + 1,
                hist := s.hist.(accepted := s.hist.accepted[s.nextSubmit :=
                  Acceptance(r, CapturedPage(s.cfg, r, buffers))]));
    Trace(t).(nextUid := r.operation.operationUid + 1)
  }

  function TrySubmit(s: Model, r: Request, buffers: BufferAnswer): (out: (Model, SubmitResult))
    requires Shaped(s)
    ensures Shaped(out.0)
  {
    if s.phase != Ready then (s, Backpressure(REASON_RESET))
    else if !RequestShapeValid(s.cfg, s.nonce, s.epoch, r) then (s, Rejected(REASON_RANGE))
    else if FindOperation(s.ops, r.operation, 0).Some? then (s, Rejected(REASON_STALE))
    else if r.operation.operationUid < s.nextUid then (s, Rejected(REASON_STALE))
    else
      var slot := FreeOperation(s.ops, 0);
      if slot.None? then (s, Backpressure(REASON_NONE))
      else if s.nextSubmit > s.cfg.capacity.submitSequenceLimit then (s, Rejected(REASON_INTERNAL))
      else if CaptureFails(r, buffers) then
        (s.(ops := s.ops[slot.value := FREE_OP], nextSubmit := s.nextSubmit + 1), Rejected(REASON_RANGE))
      else (Accept(s, slot.value, r, buffers), SubmitResult.Accepted)
  }

  function Cancel(s: Model, token: OperationToken): (out: (Model, ApiResult))
    requires Shaped(s)
    ensures Shaped(out.0)
  {
    var slot := FindOperation(s.ops, token, 0);
    if slot.None? then (s, NotFound)
    else (Trace(s.(ops := s.ops[slot.value := s.ops[slot.value].(cancelRequested := true)])), Ok)
  }

  // ---------------------------------------------------------------- selection

  predicate Candidate(op: Op) { op.state.Queued? || op.state.Scheduled? || op.state.Running? }

  /** The order in which the step loop serves two live operations. */
  predicate OperationLess(left: Op, leftSlot: nat, right: Op, rightSlot: nat)
  {
    if left.state.Queued? != right.state.Queued? then left.state.Queued?
    else if left.state.Queued? && left.request.priority != right.request.priority then
      left.request.priority < right.request.priority
    else if left.state.Queued? && left.submitSequence != right.submitSequence then
      left.submitSequence < right.submitSequence
    else if left.nextTick != right.nextTick then left.nextTick < right.nextTick
    else if left.submitSequence != right.submitSequence then left.submitSequence < right.submitSequence
    else if left.request.operation.operationUid != right.request.operation.operationUid then
      left.request.operation.operationUid < right.request.operation.operationUid
    else leftSlot < rightSlot
  }

  lemma OperationLessTransitive(a: Op, i: nat, b: Op, j: nat, c: Op, k: nat)
    requires OperationLess(a, i, b, j) && OperationLess(b, j, c, k)
    ensures OperationLess(a, i, c, k)
  {
  }

  /** Slot `i` precedes every other candidate among the first `n` slots. */
  ghost predicate Foremost(ops: seq<Op>, n: nat, i: nat)
  {
    && i < n <= |ops| && Candidate(ops[i])
    && forall j :: 0 <= j < n && j != i && Candidate(ops[j]) ==> OperationLess(ops[i], i, ops[j], j)
  }

  /** The candidate the scan of the first `n` slots selects. */
  function NextOperation(ops: seq<Op>, n: nat): (r: Option<nat>)
    requires n <= |ops|
    ensures r.Some? ==> Foremost(ops, n, r.value)
    ensures r.None? ==> forall j :: 0 <= j < n ==> !Candidate(ops[j])
  {
    if n == 0 then None
    else
      var best := NextOperation(ops, n - 1);
      if !Candidate(ops[n - 1]) then best
      else if best.None? then Some(n - 1)
      else if OperationLess(ops[n - 1], n - 1, ops[best.value], best.value) then
        assert Foremost(ops, n, n - 1) by {
          forall j | 0 <= j < n && j != n - 1 && Candidate(ops[j])
            ensures OperationLess(ops[n - 1], n - 1, ops[j], j)
          {
            if j != best.value {
              OperationLessTransitive(ops[n - 1], n - 1, ops[best.value], best.value, ops[j], j);
            }
          }
        }
        Some(n - 1)
      else best
  }

  // ---------------------------------------------------------------- scheduling

  function Duration(cfg: Config, r: Request): nat
  {
    var t := cfg.timing;
    var units := RegionCount(r.regionMask);
    if r.kind == READ_TRIGGER then t.command + t.readArray
    else if r.kind == READ_TRANSFER || r.kind == PROGRAM_TRANSFER then t.command + units * t.transferPerUnit
    else if r.kind == PROGRAM_EXECUTE then t.programSetup + units * t.programPerUnit + t.programStatus
    else if r.kind == ERASE then t.eraseSetup + cfg.geometry.pagesPerBlock * t.erasePerPage + t.eraseStatus
    else if r.kind == STATUS then t.status
    else 0
  }

  predicate UsesChannel(r: Request)
  {
    r.kind == READ_TRANSFER || r.kind == PROGRAM_TRANSFER || r.kind == STATUS
  }

  function Max(a: nat, b: nat): nat { if a > b then a else b }

  /** Unsigned 64-bit subtraction, as the tick-limit test performs it. */
  function SubU64(a: nat, b: nat): int { if b <= a then a - b else a - b + U64 }

  function StartTick(s: Model, r: Request): (start: nat)
    requires Shaped(s) && RequestPlaced(s.cfg, r)
  {
    var g := s.cfg.geometry;
    var start := Max(s.now, s.cacheTail[PlaneIndex(g, r.ppa)]);
    if UsesChannel(r) then Max(start, s.channelTail[r.ppa.channel])
    else Max(start, s.arrayTail[LaneIndex(g, r.ppa)])
  }

  /** Whether the scheduler refuses the request: no duration, or past the tick limit. */
  predicate Unschedulable(s: Model, r: Request)
    requires Shaped(s) && RequestPlaced(s.cfg, r)
  {
    var duration := Duration(s.cfg, r);
    duration == 0 || StartTick(s, r) > SubU64(s.cfg.capacity.virtualTickLimit, duration)
  }

  function ReservationOf(s: Model, op: Op): Reservation
    requires Shaped(s) && RequestPlaced(s.cfg, op.request)
  {
    var g := s.cfg.geometry;
    var r := op.request;
    var start := StartTick(s, r);
    Reservation(PlaneIndex(g, r.ppa), r.ppa.channel, LunIndex(g, r.ppa), LaneIndex(g, r.ppa),
                UsesChannel(r), start, start + Duration(s.cfg, r))
  }

  function Schedule(s: Model, i: nat): (t: Model)
    requires Shaped(s) && i < |s.ops| && s.ops[i].state.Queued?
    ensures Shaped(t)
  {
    var op := s.ops[i];
    var v := ReservationOf(s, op);
    Trace(s.(ops := s.ops[i := op.(state := Scheduled, startTick := v.start, nextTick := v.start,
                                   finishTick := v.finish)],
             cacheTail := s.cacheTail[v.plane := v.finish],
             channelTail := if v.transfer then s.channelTail[v.channel := v.finish] else s.channelTail,
             arrayTail := if v.transfer then s.arrayTail else s.arrayTail[v.lane := v.finish],
             hist := s.hist.(reserved := s.hist.reserved[op.submitSequence := v])))
  }

  // ---------------------------------------------------------------- beginning

  /** What an operation sees of the model when it begins or finishes. */
  datatype Site = Site(cfg: Config, nonce: nat, epoch: nat, now: nat, cache: PlaneCache)

  function SiteOf(s: Model, r: Request): Site
    requires Shaped(s) && RequestPlaced(s.cfg, r)
  {
    Site(s.cfg, s.nonce, s.epoch, s.now, s.caches[PlaneIndex(s.cfg.geometry, r.ppa)])
  }

  predicate TokenMatches(at: Site, r: Request, expected: CacheKind)
  {
    && r.cache.instanceNonce == at.nonce && r.cache.controllerEpoch == at.epoch
    && r.cache.channel == r.ppa.channel && r.cache.lun == r.ppa.lun && r.cache.plane == r.ppa.plane
    && r.cache.generation == at.cache.generation
    && at.cache.kind == expected && at.cache.controllerEpoch == at.epoch
    && RegionWithin(r.regionMask, at.cache.validRegionMask)
    && (expected == ReadCache ==> r.retryStep == at.cache.retryStep)
    && (expected == ProgramCache ==> r.regionMask == at.cache.validRegionMask)
    && at.cache.ppa.(reserved := 0) == r.ppa.(reserved := 0)
  }

  predicate CacheTokenValid(s: Model, r: Request, expected: CacheKind)
    requires Shaped(s) && RequestPlaced(s.cfg, r)
  {
    TokenMatches(SiteOf(s, r), r, expected)
  }

  /** Beginning an operation decides its legality, faults, bytes and completion, nothing else. */
  predicate BeginFrame(op: Op, o: Op)
  {
    o == op.(legality := o.legality, faultClass := o.faultClass, faultWord := o.faultWord,
             page := o.page, completion := o.completion)
    && o.completion.operation == op.completion.operation && o.completion.cache == op.completion.cache
    && o.completion.submitSequence == op.completion.submitSequence
  }

  function ReadMediaState(op: Op, answer: MediaAnswer): Op
  {
    op.(page := answer.page,
        legality := if answer.readOk then op.legality else REASON_INTERNAL,
        completion := op.completion.(baseEraseGeneration := answer.eraseGeneration,
                                     finalEraseGeneration := answer.eraseGeneration,
                                     blockHealth := answer.health))
  }

  function ReadEcc(cfg: Config, mask: nat, answer: MediaAnswer): nat
  {
    if (MainSelected(mask) && answer.mainErrors > cfg.mainStrengthBits)
       || (OobSelected(mask) && answer.oobErrors > cfg.oobStrengthBits) then ECC_UNCORRECTABLE
    else if answer.mainErrors != 0 || answer.oobErrors != 0 then ECC_CORRECTED
    else ECC_CLEAN
  }

  function BeginReadTrigger(cfg: Config, op: Op, answer: MediaAnswer): (o: Op)
    ensures BeginFrame(op, o) && o.completion.beginTick == op.completion.beginTick
  {
    var o := ReadMediaState(op, answer);
    if o.legality != 0 then o
    else if answer.health != BLOCK_GOOD then o.(legality := REASON_BAD_BLOCK)
    else if answer.eraseTorn || answer.pageTorn then
      o.(faultWord := answer.faultWord,
         completion := o.completion.(correctedMainBits := cfg.mainStrengthBits + 1,
                                     correctedOobBits := cfg.oobStrengthBits + 1,
                                     eccStatus := ECC_UNCORRECTABLE))
    else
      o.(faultWord := answer.faultWord,
         completion := o.completion.(correctedMainBits := answer.mainErrors,
                                     correctedOobBits := answer.oobErrors,
                                     eccStatus := ReadEcc(cfg, o.request.regionMask, answer)))
  }

  function BeginReadTransfer(at: Site, op: Op): (o: Op)
    ensures BeginFrame(op, o) && o.completion.beginTick == op.completion.beginTick
  {
    if !TokenMatches(at, op.request, ReadCache) then op.(legality := REASON_STALE)
    else
      op.(faultWord := at.cache.faultWord,
          completion := op.completion.(eccStatus := at.cache.eccStatus,
                                       correctedMainBits := at.cache.correctedMainBits,
                                       correctedOobBits := at.cache.correctedOobBits))
  }

  function BeginProgramExecute(at: Site, op: Op, answer: MediaAnswer): (o: Op)
    ensures BeginFrame(op, o) && o.completion.beginTick == op.completion.beginTick
  {
    if !TokenMatches(at, op.request, ProgramCache) then op.(legality := REASON_STALE)
    else
      var o := ReadMediaState(op, answer);
      if o.legality != 0 then o
      else if answer.health != BLOCK_GOOD then o.(legality := REASON_BAD_BLOCK)
      else if answer.eraseTorn || !answer.pageErased || answer.programCount != 0 then
        o.(legality := REASON_NOT_ERASED)
      else if at.cfg.geometry.ascendingProgram && o.request.ppa.page != answer.nextProgramPage then
        o.(legality := REASON_PROGRAM_ORDER)
      else
        o.(page := at.cache.page, faultWord := answer.faultWord, faultClass := answer.faultClass,
           completion := o.completion.(
             payloadDigest := NfcFault.PayloadDigest(at.cache.page, o.request.regionMask)))
  }

  function BeginErase(cfg: Config, op: Op, answer: MediaAnswer): (o: Op)
    ensures BeginFrame(op, o) && o.completion.beginTick == op.completion.beginTick
  {
    var o := ReadMediaState(op, answer);
    if o.legality != 0 then o
    else if answer.health != BLOCK_GOOD then o.(legality := REASON_BAD_BLOCK)
    else if answer.successfulErases >= cfg.successfulEraseLimit then o.(faultClass := GrownBad)
    else o.(faultWord := answer.faultWord, faultClass := answer.faultClass)
  }

  /** The kind-specific part of beginning an operation: legality, frozen faults and bytes. */
  function PreflightAt(at: Site, op: Op, answer: MediaAnswer): (o: Op)
    ensures BeginFrame(op, o)
    ensures o.completion.beginTick == at.now
  {
    var o := op.(completion := op.completion.(beginTick := at.now, statusTick := op.finishTick,
                                              outcomeTick := op.finishTick));
    if o.cancelRequested && o.state.Scheduled? then o.(legality := REASON_CANCELLED)
    else if o.request.kind == READ_TRIGGER then BeginReadTrigger(at.cfg, o, answer)
    else if o.request.kind == READ_TRANSFER then BeginReadTransfer(at, o)
    else if o.request.kind == PROGRAM_EXECUTE then BeginProgramExecute(at, o, answer)
    else if o.request.kind == ERASE then BeginErase(at.cfg, o, answer)
    else o
  }

  function Preflight(s: Model, op: Op, answer: MediaAnswer): (o: Op)
    requires Shaped(s) && RequestPlaced(s.cfg, op.request)
    ensures BeginFrame(op, o)
    ensures o.completion.beginTick == s.now
  {
    PreflightAt(SiteOf(s, op.request), op, answer)
  }

  predicate UsesArray(r: Request)
  {
    r.kind == READ_TRIGGER || r.kind == PROGRAM_EXECUTE || r.kind == ERASE
  }

  function UnitCount(cfg: Config, r: Request, legality: nat): nat
  {
    var units := if r.kind == ERASE then cfg.geometry.pagesPerBlock else RegionCount(r.regionMask);
    if units == 0 || legality != 0 then 1 else units
  }

  /** The tick at which unit `index` of an operation is due: its share of the duration, rounded up. */
  function UnitTick(start: nat, finish: nat, index: nat, count: nat): (tick: nat)
    requires start <= finish && 0 < count
  {
    assert 0 <= (finish - start) * (index + 1);
    start + ((finish - start) * (index + 1) + count - 1) / count
  }

  function BegunOp(cfg: Config, nextArray: nat, o: Op): Op
    requires o.startTick <= o.finishTick
  {
    var count := UnitCount(cfg, o.request, o.legality);
    o.(state := Running, unitIndex := 0, unitCount := count,
       nextTick := UnitTick(o.startTick, o.finishTick, 0, count),
       arraySequence := if UsesArray(o.request) then nextArray else o.arraySequence,
       completion := o.completion.(
         frozenFaultWord := o.faultWord,
         arraySequence := if UsesArray(o.request) then nextArray else o.completion.arraySequence))
  }

  predicate ArrayExhausted(s: Model, r: Request)
  {
    UsesArray(r) && s.nextArray > s.cfg.capacity.submitSequenceLimit
  }

  function Begin(s: Model, i: nat, answer: MediaAnswer): (t: Model)
    requires Shaped(s) && i < |s.ops| && s.ops[i].state.Scheduled?
    ensures Shaped(t) && |t.ops| == |s.ops|
  {
    var o := Preflight(s, s.ops[i], answer);
    if ArrayExhausted(s, o.request) then s.(ops := s.ops[i := o], phase := Faulted)
    else
      Trace(s.(ops := s.ops[i := BegunOp(s.cfg, s.nextArray, o)],
               nextArray := if UsesArray(o.request) then s.nextArray + 1 else s.nextArray,
               hist := s.hist.(begun := s.hist.begun[o.submitSequence :=
                 Beginning(s.now, s.epoch, o.legality, o.faultClass, o.page)])))
  }

  // ---------------------------------------------------------------- finishing

  /** Finishing an operation writes its completion only, and never the completion's identity. */
  predicate ConcludeFrame(op: Op, o: Op)
  {
    && o == op.(completion := o.completion)
    && o.completion.operation == op.completion.operation
    && o.completion.submitSequence == op.completion.submitSequence
    && o.completion.beginTick == op.completion.beginTick
  }

  function Fail(op: Op, reason: nat): Op
  {
    op.(completion := op.completion.(terminal := TERMINAL_FAILED, physicalOutcome := PHYS_NO_EFFECT,
                                     integrity := INTEGRITY_NOT_APPLICABLE, reason := reason,
                                     eccStatus := ECC_NOT_APPLICABLE))
  }

  function Succeed(op: Op): Op
  {
    op.(completion := op.completion.(terminal := TERMINAL_SUCCESS, physicalOutcome := PHYS_NO_EFFECT,
                                     integrity := INTEGRITY_NOT_APPLICABLE, reason := REASON_NONE))
  }

  function Cancelled(op: Op): Op
  {
    op.(completion := op.completion.(terminal := TERMINAL_CANCELLED, physicalOutcome := PHYS_NO_EFFECT,
                                     integrity := INTEGRITY_NOT_APPLICABLE, reason := REASON_CANCELLED))
  }

  /** What finishing changes besides the clock, the slot's state and the event count. */
  datatype Outcome = Outcome(ok: bool, op: Op, cache: PlaneCache, effects: seq<Effect>, minted: bool)

  function TokenOf(at: Site, cache: PlaneCache): CacheToken
  {
    CacheToken(at.nonce, at.epoch, cache.generation, cache.ppa.channel, cache.ppa.lun, cache.ppa.plane, 0)
  }

  function FinishProgramTransfer(at: Site, op: Op): (out: Outcome)
    ensures ConcludeFrame(op, out.op)
  {
    if at.cache.generation >= at.cfg.capacity.cacheGenerationLimit then Outcome(false, op, at.cache, [], false)
    else
      var c := at.cache.(generation := at.cache.generation + 1, controllerEpoch := at.epoch, kind := ProgramCache,
                      validRegionMask := op.request.regionMask, ppa := op.request.ppa, page := op.page);
      var o := Succeed(op.(completion := op.completion.(
        cache := TokenOf(at, c).(reserved := op.completion.cache.reserved),
        payloadDigest := NfcFault.PayloadDigest(op.page, op.request.regionMask),
        validRegionMask := op.request.regionMask)));
      Outcome(true, o, c, [], true)
  }

  function FinishReadTrigger(at: Site, op: Op): (out: Outcome)
    ensures ConcludeFrame(op, out.op)
  {
    if at.cache.generation >= at.cfg.capacity.cacheGenerationLimit then Outcome(false, op, at.cache, [], false)
    else
      var c := at.cache.(generation := at.cache.generation + 1, controllerEpoch := at.epoch, kind := ReadCache,
                      validRegionMask := op.request.regionMask, ppa := op.request.ppa,
                      faultWord := op.faultWord, eccStatus := op.completion.eccStatus,
                      retryStep := op.request.retryStep,
                      correctedMainBits := op.completion.correctedMainBits,
                      correctedOobBits := op.completion.correctedOobBits,
                      eraseGeneration := op.completion.baseEraseGeneration, page := op.page);
      var o := Succeed(op.(completion := op.completion.(
        cache := TokenOf(at, c).(reserved := op.completion.cache.reserved),
        validRegionMask := op.request.regionMask)));
      Outcome(true, o, c, [], true)
  }

  function FinishReadTransfer(at: Site, op: Op, answer: MediaAnswer): (out: Outcome)
    requires RequestPlaced(at.cfg, op.request)
    ensures ConcludeFrame(op, out.op)
  {
    if !TokenMatches(at, op.request, ReadCache) then
      Outcome(true, Fail(op, REASON_STALE), at.cache, [], false)
    else if at.cache.eccStatus == ECC_UNCORRECTABLE then
      var o := Fail(op, REASON_ECC_UNCORRECTABLE);
      Outcome(true, o.(completion := o.completion.(eccStatus := ECC_UNCORRECTABLE)), at.cache, [], false)
    else if !answer.callOk then Outcome(false, op, at.cache, [], false)
    else
      var o := Succeed(op.(completion := op.completion.(
        eccStatus := at.cache.eccStatus, correctedMainBits := at.cache.correctedMainBits,
        correctedOobBits := at.cache.correctedOobBits, validRegionMask := op.request.regionMask)));
      Outcome(true, o, at.cache.(kind := NoCache, validRegionMask := 0),
              [Delivered(op.submitSequence, PlaneIndex(at.cfg.geometry, op.request.ppa), at.cache.generation,
                         at.cache.page)], false)
  }

  function ApplyMediaResult(op: Op, answer: MediaAnswer, complete: bool, validMask: nat, otherwise: nat): (o: Op)
    ensures ConcludeFrame(op, o)
  {
    var c := op.completion.(physicalOutcome := answer.physicalOutcome, integrity := answer.integrity,
                            appliedRegionMask := answer.appliedRegionMask,
                            baseEraseGeneration := answer.baseEraseGeneration,
                            finalEraseGeneration := answer.finalEraseGeneration,
                            blockHealth := answer.blockHealth);
    if complete && answer.physicalOutcome == PHYS_APPLIED && answer.integrity == INTEGRITY_COMPLETE then
      op.(completion := c.(terminal := TERMINAL_SUCCESS, reason := REASON_NONE, validRegionMask := validMask))
    else
      op.(completion := c.(terminal := TERMINAL_FAILED,
                           reason := if answer.reason != 0 then answer.reason else otherwise))
  }

  /** The media call a running program is committed to by the class frozen when it began. */
  function ProgramEffect(cfg: Config, op: Op): Effect
    requires RequestPlaced(cfg, op.request)
  {
    var g := cfg.geometry;
    if op.faultClass.Torn? then
      Programmed(op.submitSequence, op.request.ppa, PlaneIndex(g, op.request.ppa), op.request.cache.generation, op.page,
                 if g.mainBytes > 1 then g.mainBytes / 2 else 1, 0, INTEGRITY_TORN)
    else
      Programmed(op.submitSequence, op.request.ppa, PlaneIndex(g, op.request.ppa), op.request.cache.generation, op.page,
                 g.mainBytes, g.oobBytes, INTEGRITY_COMPLETE)
  }

  function FinishProgramExecute(at: Site, op: Op, answer: MediaAnswer): (out: Outcome)
    requires RequestPlaced(at.cfg, op.request)
    ensures ConcludeFrame(op, out.op)
  {
    if op.faultClass.GrownBad? then
      if !answer.callOk then Outcome(false, op, at.cache, [], false)
      else
        var o := Fail(op, REASON_PROGRAM_FAILURE);
        Outcome(true, o.(completion := o.completion.(blockHealth := BLOCK_RUNTIME_BAD)),
                at.cache.(kind := NoCache), [MarkedBad(op.submitSequence, op.request.ppa)], false)
    else if op.faultClass.NoEffect? then
      Outcome(true, Fail(op, REASON_PROGRAM_FAILURE), at.cache.(kind := NoCache), [], false)
    else if !answer.callOk then Outcome(false, op, at.cache, [], false)
    else
      Outcome(true,
              ApplyMediaResult(op, answer, op.faultClass.Clean?, op.request.regionMask, REASON_PROGRAM_FAILURE),
              at.cache.(kind := NoCache), [ProgramEffect(at.cfg, op)], false)
  }

  function EraseEffect(cfg: Config, op: Op): Effect
  {
    var pages := cfg.geometry.pagesPerBlock;
    if op.faultClass.Torn? then
      Erased(op.submitSequence, op.request.ppa, if pages > 1 then pages / 2 else 1, INTEGRITY_TORN)
    else Erased(op.submitSequence, op.request.ppa, pages, INTEGRITY_COMPLETE)
  }

  function FinishErase(at: Site, op: Op, answer: MediaAnswer): (out: Outcome)
    ensures ConcludeFrame(op, out.op)
  {
    if op.faultClass.GrownBad? then
      if !answer.callOk then Outcome(false, op, at.cache, [], false)
      else
        var o := Fail(op, REASON_WEAR_OUT);
        Outcome(true, o.(completion := o.completion.(blockHealth := BLOCK_RUNTIME_BAD)),
                at.cache, [MarkedBad(op.submitSequence, op.request.ppa)], false)
    else if op.faultClass.NoEffect? then Outcome(true, Fail(op, REASON_ERASE_FAILURE), at.cache, [], false)
    else if !answer.callOk then Outcome(false, op, at.cache, [], false)
    else
      Outcome(true, ApplyMediaResult(op, answer, op.faultClass.Clean?, 3, REASON_ERASE_FAILURE),
              at.cache, [EraseEffect(at.cfg, op)], false)
  }

  /** What the end of an operation does, by its kind, its legality and whether a reset owns it. */
  function ConcludeAt(at: Site, op: Op, answer: MediaAnswer): (out: Outcome)
    requires RequestPlaced(at.cfg, op.request)
    ensures ConcludeFrame(op, out.op)
  {
    if op.resetOwned && op.request.kind != PROGRAM_EXECUTE && op.request.kind != ERASE then
      Outcome(true, Fail(op, REASON_RESET), at.cache, [], false)
    else if op.legality == REASON_CANCELLED then Outcome(true, Cancelled(op), at.cache, [], false)
    else if op.legality != 0 then Outcome(true, Fail(op, op.legality), at.cache, [], false)
    else if op.request.kind == READ_TRIGGER then FinishReadTrigger(at, op)
    else if op.request.kind == READ_TRANSFER then FinishReadTransfer(at, op, answer)
    else if op.request.kind == PROGRAM_TRANSFER then FinishProgramTransfer(at, op)
    else if op.request.kind == PROGRAM_EXECUTE then FinishProgramExecute(at, op, answer)
    else if op.request.kind == ERASE then FinishErase(at, op, answer)
    else Outcome(true, Succeed(op), at.cache, [], false)
  }

  function Conclude(s: Model, op: Op, answer: MediaAnswer): (out: Outcome)
    requires Shaped(s) && RequestPlaced(s.cfg, op.request)
    ensures ConcludeFrame(op, out.op)
  {
    ConcludeAt(SiteOf(s, op.request), op, answer)
  }

  function FinishedOp(op: Op, now: nat): Op
  {
    op.(state := EventPending,
        completion := op.completion.(outcomeTick := now, statusTick := now, frozenFaultWord := op.faultWord))
  }

  predicate FinishRefused(s: Model, out: Outcome)
  {
    !out.ok || s.eventCount >= s.cfg.capacity.terminalEvents
  }

  /** The state after slot `i` finishes with the given outcome. */
  function FinishWith(s: Model, i: nat, out: Outcome): (t: Model)
    requires Shaped(s) && i < |s.ops| && s.ops[i].state.Running? && ConcludeFrame(s.ops[i], out.op)
    ensures Shaped(t) && |t.ops| == |s.ops|
  {
    var op := s.ops[i];
    var plane := PlaneIndex(s.cfg.geometry, op.request.ppa);
    var mints := if out.minted then
        s.hist.mints[(plane, out.cache.generation) := Mint(op.submitSequence, s.epoch, out.cache.kind, out.cache.page)]
      else s.hist.mints;
    var t := s.(caches := s.caches[plane := out.cache],
                hist := s.hist.(mints := mints, effects := s.hist.effects + out.effects));
    if FinishRefused(s, out) then t.(ops := s.ops[i := out.op], phase := Faulted)
    else
      Trace(t.(ops := s.ops[i := FinishedOp(out.op, s.now)], eventCount := s.eventCount + 1))
  }

  function Finish(s: Model, i: nat, answer: MediaAnswer): (t: Model)
    requires Shaped(s) && i < |s.ops| && s.ops[i].state.Running?
    ensures Shaped(t) && |t.ops| == |s.ops|
  {
    FinishWith(s, i, Conclude(s, s.ops[i], answer))
  }

  // ---------------------------------------------------------------- stepping

  datatype Progress = Idle | Used | Stuck | Halted(result: ApiResult)

  function UnitDeadline(op: Op): nat
    requires op.startTick <= op.finishTick && 0 < op.unitCount
  {
    var deadline := UnitTick(op.startTick, op.finishTick, op.unitIndex, op.unitCount);
    if deadline > op.finishTick then op.finishTick else deadline
  }

  /** One more unit of a running operation; the last one finishes it. */
  function RunUnit(s: Model, i: nat, answer: MediaAnswer): (out: (Model, Progress))
    requires Shaped(s) && i < |s.ops| && s.ops[i].state.Running? && s.ops[i].unitIndex < s.ops[i].unitCount
    ensures Shaped(out.0) && |out.0.ops| == |s.ops|
  {
    var op := s.ops[i].(unitIndex := s.ops[i].unitIndex + 1);
    var t := Trace(s.(ops := s.ops[i := op]));
    if op.unitIndex == op.unitCount then
      var u := Finish(t.(now := op.finishTick), i, answer);
      (u, if u.ops[i].state.EventPending? then Used else Halted(InvariantFailure))
    else (t.(ops := t.ops[i := op.(nextTick := UnitDeadline(op))]), Used)
  }

  /** The transition a due operation takes next. */
  function Serve(s: Model, i: nat, answer: MediaAnswer): (out: (Model, Progress))
    requires Shaped(s) && i < |s.ops| && Candidate(s.ops[i])
    ensures Shaped(out.0)
  {
    var op := s.ops[i];
    if op.state.Queued? then
      if Unschedulable(s, op.request) then (s.(phase := Faulted), Halted(CounterExhausted))
      else (Schedule(s, i), Used)
    else if op.state.Scheduled? then
      var t := Begin(s, i, answer);
      (t, if t.ops[i].state.Running? then Used else Halted(InvariantFailure))
    else if op.unitIndex < op.unitCount then RunUnit(s, i, answer)
    else (s, Stuck)
  }

  /** One iteration of the step loop. */
  function StepUnit(s: Model, answer: MediaAnswer): (out: (Model, Progress))
    requires Shaped(s)
    ensures Shaped(out.0)
  {
    var next := NextOperation(s.ops, |s.ops|);
    if next.None? then (s, Idle)
    else
      var i := next.value;
      if s.ops[i].nextTick > s.now then (s.(now := s.ops[i].nextTick), Used)
      else Serve(s, i, answer)
  }

  /** The step loop: one answer for each unit of budget. */
  function StepLoop(s: Model, answers: seq<MediaAnswer>): (out: (Model, ApiResult))
    requires Shaped(s)
    ensures Shaped(out.0)
    decreases |answers|
  {
    if answers == [] then (s, Ok)
    else
      var (t, progress) := StepUnit(s, answers[0]);
      match progress
      case Idle => (t, Ok)
      case Used => StepLoop(t, answers[1..])
      case Stuck => (t, Ok)
      case Halted(result) => (t, result)
  }

  function Step(s: Model, answers: seq<MediaAnswer>): (out: (Model, ApiResult))
    requires Shaped(s)
    ensures Shaped(out.0)
  {
    if answers == [] || s.phase == PoweredOff || s.phase == Faulted then (s, InvalidContract)
    else StepLoop(s, answers)
  }

  // ---------------------------------------------------------------- polling

  /** The order in which poll reports two pending completions. */
  predicate EventLess(left: Op, leftSlot: nat, right: Op, rightSlot: nat)
  {
    if left.completion.statusTick != right.completion.statusTick then
      left.completion.statusTick < right.completion.statusTick
    else if left.submitSequence != right.submitSequence then left.submitSequence < right.submitSequence
    else if left.request.operation.generation != right.request.operation.generation then
      left.request.operation.generation < right.request.operation.generation
    else leftSlot < rightSlot
  }

  /** The pending slot among the first `n` that the scan selects. */
  function NextEvent(ops: seq<Op>, n: nat): (r: Option<nat>)
    requires n <= |ops|
    ensures r.Some? ==>
      && r.value < n && ops[r.value].state.EventPending?
      && forall j :: 0 <= j < n && j != r.value && ops[j].state.EventPending? ==>
                     EventLess(ops[r.value], r.value, ops[j], j)
    ensures r.None? ==> forall j :: 0 <= j < n ==> !ops[j].state.EventPending?
  {
    if n == 0 then None
    else
      var best := NextEvent(ops, n - 1);
      if !ops[n - 1].state.EventPending? then best
      else if best.None? || EventLess(ops[n - 1], n - 1, ops[best.value], best.value) then Some(n - 1)
      else best
  }

  /** Report and clear the pending completion in slot `i`. */
  function Report(s: Model, i: nat): (t: Model)
    requires Shaped(s) && i < |s.ops| && s.ops[i].state.EventPending?
    ensures Shaped(t)
  {
    Trace(s).(ops := s.ops[i := FREE_OP], eventCount := s.eventCount - 1,
              hist := s.hist.(reports := s.hist.reports + [s.ops[i].completion]))
  }

  /** Report the next pending completion, if there is one. */
  function PollOne(s: Model): (t: Model)
    requires Shaped(s)
    ensures Shaped(t)
  {
    var next := NextEvent(s.ops, |s.ops|);
    if next.None? then s else Report(s, next.value)
  }

  function Poll(s: Model, budget: nat): (t: Model)
    requires Shaped(s)
    ensures Shaped(t)
    decreases budget
  {
    if budget == 0 then s else Poll(PollOne(s), budget - 1)
  }

  // ---------------------------------------------------------------- reset and power loss

  /** The first cache at or after `from` whose generation counter is used up. */
  function ExhaustedCache(caches: seq<PlaneCache>, limit: nat, from: nat): (r: nat)
    requires from <= |caches|
    ensures from <= r <= |caches|
    ensures r < |caches| ==> caches[r].generation >= limit
    ensures forall i :: from <= i < r ==> caches[i].generation < limit
    decreases |caches| - from
  {
    if from == |caches| || caches[from].generation >= limit then from
    else ExhaustedCache(caches, limit, from + 1)
  }

  function ResetCache(cache: PlaneCache, epoch: nat): PlaneCache
  {
    cache.(generation := cache.generation + 1, kind := NoCache, validRegionMask := 0, controllerEpoch := epoch)
  }

  function ResetOp(op: Op): Op
  {
    if op.state.Queued? || op.state.Scheduled? then op.(cancelRequested := true, resetOwned := true)
    else if op.state.Running? then op.(resetOwned := true)
    else op
  }

  function ResetCaches(caches: seq<PlaneCache>, stop: nat, epoch: nat): (r: seq<PlaneCache>)
    ensures |r| == |caches|
    ensures forall i :: 0 <= i < |r| ==> r[i] == if i < stop then ResetCache(caches[i], epoch) else caches[i]
  {
    seq(|caches|, i requires 0 <= i < |caches| => if i < stop then ResetCache(caches[i], epoch) else caches[i])
  }

  function ResetOps(ops: seq<Op>): (r: seq<Op>)
    ensures |r| == |ops|
    ensures forall i :: 0 <= i < |r| ==> r[i] == ResetOp(ops[i])
  {
    seq(|ops|, i requires 0 <= i < |ops| => ResetOp(ops[i]))
  }

  function ResetBegin(s: Model, nonce: nat, oldEpoch: nat): (out: (Model, ApiResult))
    requires Shaped(s)
    ensures Shaped(out.0)
  {
    if nonce != s.nonce || oldEpoch != s.epoch || s.phase != Ready
       || oldEpoch >= s.cfg.capacity.controllerEpochLimit then (s, InvalidContract)
    else
      var epoch := s.epoch + 1;
      var stop := ExhaustedCache(s.caches, s.cfg.capacity.cacheGenerationLimit, 0);
      var t := s.(phase := ResetDrain, epoch := epoch,
                  caches := ResetCaches(s.caches, stop, epoch));
      if stop < |s.caches| then (t.(phase := Faulted), CounterExhausted)
      else
        (Trace(t.(ops := ResetOps(s.ops))), Ok)
  }

  ghost predicate LiveWithEpoch(ops: seq<Op>, epoch: nat)
  {
    exists i :: 0 <= i < |ops| && !ops[i].state.Free? && ops[i].request.operation.controllerEpoch == epoch
  }

  /** Whether the drain is over; if it is, the controller is ready again. */
  ghost function Quiescent(s: Model, nonce: nat, oldEpoch: nat): (out: (Model, ApiResult, bool))
    requires Shaped(s)
    ensures Shaped(out.0)
  {
    if nonce != s.nonce || oldEpoch + 1 != s.epoch || s.phase != ResetDrain then (s, InvalidContract, false)
    else if LiveWithEpoch(s.ops, oldEpoch) then (s, Ok, false)
    else (s.(phase := Ready), Ok, true)
  }

  /** The media calls a power cut makes for the part of a running operation already done. */
  function PowerPrefix(cfg: Config, op: Op): seq<Effect>
    requires RequestPlaced(cfg, op.request)
  {
    var g := cfg.geometry;
    if op.unitIndex == 0 || op.legality != 0 then []
    else if op.request.kind == PROGRAM_EXECUTE then
      [Programmed(op.submitSequence, op.request.ppa, PlaneIndex(g, op.request.ppa), op.request.cache.generation,
                  op.page, g.mainBytes, if op.unitIndex > 1 then g.oobBytes else 0, INTEGRITY_TORN)]
    else if op.request.kind == ERASE then
      [Erased(op.submitSequence, op.request.ppa,
              if op.unitIndex > g.pagesPerBlock then g.pagesPerBlock else op.unitIndex, INTEGRITY_TORN)]
    else []
  }

  /** Clears a live slot; a running operation first leaves its torn prefix on the media. */
  function PowerClear(s: Model, i: nat): (t: Model)
    requires Shaped(s) && i < |s.ops|
    ensures Shaped(t) && |t.ops| == |s.ops|
  {
    var op := s.ops[i];
    if op.state.Free? then s
    else
      s.(ops := s.ops[i := FREE_OP],
         hist := s.hist.(lost := s.hist.lost + {op.submitSequence},
                         effects := s.hist.effects + if op.state.Running? then PowerPrefix(s.cfg, op) else []))
  }

  /** Whether the media refuses the torn prefix of slot `i`. */
  predicate PowerRefused(s: Model, i: nat, mediaOk: seq<bool>)
    requires Shaped(s) && i < |s.ops|
  {
    s.ops[i].state.Running? && PowerPrefix(s.cfg, s.ops[i]) != [] && i < |mediaOk| && !mediaOk[i]
  }

  /** The slots from `i` on, cleared in order until the media refuses one. */
  function PowerClearAll(s: Model, i: nat, mediaOk: seq<bool>): (out: (Model, bool))
    requires Shaped(s) && i <= |s.ops|
    ensures Shaped(out.0)
    ensures |out.0.ops| == |s.ops|
    decreases |s.ops| - i
  {
    if i == |s.ops| then (s, true)
    else if PowerRefused(s, i, mediaOk) then (s, false)
    else PowerClearAll(PowerClear(s, i), i + 1, mediaOk)
  }

  function ClearCaches(caches: seq<PlaneCache>): (r: seq<PlaneCache>)
    ensures |r| == |caches|
    ensures forall i :: 0 <= i < |r| ==> r[i] == caches[i].(kind := NoCache, validRegionMask := 0)
  {
    seq(|caches|, i requires 0 <= i < |caches| => caches[i].(kind := NoCache, validRegionMask := 0))
  }

  function PowerDown(s: Model): (t: Model)
    requires Shaped(s)
    ensures Shaped(t)
  {
    Trace(s.(caches := ClearCaches(s.caches),
             channelTail := seq(|s.channelTail|, _ => 0),
             arrayTail := seq(|s.arrayTail|, _ => 0),
             cacheTail := seq(|s.cacheTail|, _ => 0),
             eventCount := 0, phase := PoweredOff))
  }

  function PowerLoss(s: Model, mediaOk: seq<bool>): (out: (Model, ApiResult))
    requires Shaped(s)
    ensures Shaped(out.0)
  {
    var (t, ok) := PowerClearAll(s, 0, mediaOk);
    if ok then (PowerDown(t), Ok) else (t.(phase := Faulted), InvariantFailure)
  }
}
