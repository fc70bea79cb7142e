/**
 The controller's byte codec: requests, completions and trace entries as fixed-width records with
 a four-byte magic, little-endian fields and zero padding up to the wire size.
 */
module NfcCodec {
  import opened Bytes
  import opened Wire
  import opened NfcTypes

  datatype Status = Ok | InvalidContract | UnsupportedVersion

  datatype Decoded<T> = Decoded(value: T) | Refused(status: Status)

  const REQUEST_WIRE_SIZE: nat := 160
  const COMPLETION_WIRE_SIZE: nat := 256
  const TRACE_WIRE_SIZE: nat := 112

  // The magics "NFR1", "NFC1" and "NFT1", read lowest byte first.
  const REQUEST_MAGIC: nat := 0x3152_464e
  const COMPLETION_MAGIC: nat := 0x3143_464e
  const TRACE_MAGIC: nat := 0x3154_464e

  const TRACE_INIT: nat := 1
  const TRACE_RESET: nat := 8
  const TRACE_POWER: nat := 9
  const TRACE_FAULT: nat := 10

  // ---------------------------------------------------------------- layouts

  const OPERATION_LAYOUT: seq<nat> := [8, 8, 4, 4]
  const PPA_LAYOUT: seq<nat> := [2, 2, 2, 2, 2, 2]
  const BUFFER_LAYOUT: seq<nat> := [4, 4, 4, 4]
  const CACHE_LAYOUT: seq<nat> := [8, 4, 4, 2, 2, 2, 2]

  const REQUEST_LAYOUT: seq<nat> :=
    [4, 2, 2, 4] + OPERATION_LAYOUT + PPA_LAYOUT + BUFFER_LAYOUT + BUFFER_LAYOUT + CACHE_LAYOUT
    + [8, 8, 4, 2, 1, 1] + [1, 1, 1, 1, 4, 4]

  const COMPLETION_LAYOUT: seq<nat> :=
    [4, 2, 2, 4] + OPERATION_LAYOUT + PPA_LAYOUT + CACHE_LAYOUT
    + [8, 8, 8, 8, 8, 8, 8] + [4, 4, 2, 2, 2, 2] + [1, 1, 1, 1, 1, 1] + [1, 1, 1, 1, 1, 1] + [4, 4]

  const TRACE_LAYOUT: seq<nat> :=
    [4, 2, 2, 4] + [8, 8] + OPERATION_LAYOUT + PPA_LAYOUT + [4, 4, 4, 4]

  lemma GroupTotals()
    ensures Total([4, 2, 2, 4]) == 12 && Total(OPERATION_LAYOUT) == 24 && Total(PPA_LAYOUT) == 12
    ensures Total(BUFFER_LAYOUT) == 16 && Total(CACHE_LAYOUT) == 24
  {
    TotalFour(4, 2, 2, 4);
    TotalFour(8, 8, 4, 4);
    TotalSix(2, 2, 2, 2, 2, 2);
    TotalFour(4, 4, 4, 4);
    TotalSeven(8, 4, 4, 2, 2, 2, 2);
  }

  /** The records fill 140, 164 and 80 bytes: the wire sizes suffice. */
  lemma RequestTotal()
    ensures Total(REQUEST_LAYOUT) == 140 && |REQUEST_LAYOUT| == 41
  {
    GroupTotals();
    TotalSix(8, 8, 4, 2, 1, 1);
    TotalSix(1, 1, 1, 1, 4, 4);
    var l := [4, 2, 2, 4];
    TotalAppend(l, OPERATION_LAYOUT);
    TotalAppend(l + OPERATION_LAYOUT, PPA_LAYOUT);
    TotalAppend(l + OPERATION_LAYOUT + PPA_LAYOUT, BUFFER_LAYOUT);
    TotalAppend(l + OPERATION_LAYOUT + PPA_LAYOUT + BUFFER_LAYOUT, BUFFER_LAYOUT);
    l := l + OPERATION_LAYOUT + PPA_LAYOUT + BUFFER_LAYOUT + BUFFER_LAYOUT;
    TotalAppend(l, CACHE_LAYOUT);
    TotalAppend(l + CACHE_LAYOUT, [8, 8, 4, 2, 1, 1]);
    TotalAppend(l + CACHE_LAYOUT + [8, 8, 4, 2, 1, 1], [1, 1, 1, 1, 4, 4]);
  }

  lemma CompletionTotal()
    ensures Total(COMPLETION_LAYOUT) == 164 && |COMPLETION_LAYOUT| == 48
  {
    GroupTotals();
    TotalSeven(8, 8, 8, 8, 8, 8, 8);
    TotalSix(4, 4, 2, 2, 2, 2);
    TotalSix(1, 1, 1, 1, 1, 1);
    TotalTwo(4, 4);
    var l := [4, 2, 2, 4];
    TotalAppend(l, OPERATION_LAYOUT);
    TotalAppend(l + OPERATION_LAYOUT, PPA_LAYOUT);
    TotalAppend(l + OPERATION_LAYOUT + PPA_LAYOUT, CACHE_LAYOUT);
    l := l + OPERATION_LAYOUT + PPA_LAYOUT + CACHE_LAYOUT;
    TotalAppend(l, [8, 8, 8, 8, 8, 8, 8]);
    TotalAppend(l + [8, 8, 8, 8, 8, 8, 8], [4, 4, 2, 2, 2, 2]);
    l := l + [8, 8, 8, 8, 8, 8, 8] + [4, 4, 2, 2, 2, 2];
    TotalAppend(l, [1, 1, 1, 1, 1, 1]);
    TotalAppend(l + [1, 1, 1, 1, 1, 1], [1, 1, 1, 1, 1, 1]);
    TotalAppend(l + [1, 1, 1, 1, 1, 1] + [1, 1, 1, 1, 1, 1], [4, 4]);
  }

  lemma TraceTotal()
    ensures Total(TRACE_LAYOUT) == 80 && |TRACE_LAYOUT| == 20
  {
    GroupTotals();
    TotalTwo(8, 8);
    TotalFour(4, 4, 4, 4);
    var l := [4, 2, 2, 4];
    TotalAppend(l, [8, 8]);
    TotalAppend(l + [8, 8], OPERATION_LAYOUT);
    TotalAppend(l + [8, 8] + OPERATION_LAYOUT, PPA_LAYOUT);
    TotalAppend(l + [8, 8] + OPERATION_LAYOUT + PPA_LAYOUT, [4, 4, 4, 4]);
  }

  // ---------------------------------------------------------------- records as lists of values

  function OperationValues(o: OperationToken): (v: seq<nat>)
    ensures |v| == 4
  {
    [o.instanceNonce, o.operationUid, o.controllerEpoch, o.generation]
  }

  function OperationAt(v: seq<nat>, i: nat): OperationToken
    requires i + 4 <= |v|
  {
    OperationToken(v[i], v[i + 1], v[i + 2], v[i + 3])
  }

  function PpaValues(p: Ppa): (v: seq<nat>)
    ensures |v| == 6
  {
    [p.channel, p.lun, p.plane, p.block, p.page, p.reserved]
  }

  function PpaAt(v: seq<nat>, i: nat): Ppa
    requires i + 6 <= |v|
  {
    Ppa(v[i], v[i + 1], v[i + 2], v[i + 3], v[i + 4], v[i + 5])
  }

  function BufferValues(b: BufferRef): (v: seq<nat>)
    ensures |v| == 4
  {
    [b.controllerRegion, b.offset, b.length, b.reserved]
  }

  function BufferAt(v: seq<nat>, i: nat): BufferRef
    requires i + 4 <= |v|
  {
    BufferRef(v[i], v[i + 1], v[i + 2], v[i + 3])
  }

  function CacheValues(c: CacheToken): (v: seq<nat>)
    ensures |v| == 7
  {
    [c.instanceNonce, c.controllerEpoch, c.generation, c.channel, c.lun, c.plane, c.reserved]
  }

  function CacheAt(v: seq<nat>, i: nat): CacheToken
    requires i + 7 <= |v|
  {
    CacheToken(v[i], v[i + 1], v[i + 2], v[i + 3], v[i + 4], v[i + 5], v[i + 6])
  }

  function RequestValues(r: Request): (v: seq<nat>)
    ensures |v| == 41
  {
    [REQUEST_MAGIC, r.version, r.size, r.reserved0]
    + OperationValues(r.operation) + PpaValues(r.ppa) + BufferValues(r.main) + BufferValues(r.oob)
    + CacheValues(r.cache)
    + [r.cookie, r.faultTag, r.schedulingGroup, r.priority, r.kind, r.regionMask]
    + [r.retryStep, r.reserved10, r.reserved11, r.reserved12, r.reserved20, r.reserved21]
  }

  function RequestOf(v: seq<nat>): Request
    requires |v| == 41
  {
    Request(v[1], v[2], v[3], OperationAt(v, 4), PpaAt(v, 8), BufferAt(v, 14), BufferAt(v, 18), CacheAt(v, 22),
            v[29], v[30], v[31], v[32], v[33], v[34], v[35], v[36], v[37], v[38], v[39], v[40])
  }

  function CompletionValues(c: Completion): (v: seq<nat>)
    ensures |v| == 48
  {
    [COMPLETION_MAGIC, c.version, c.size, c.reserved0]
    + OperationValues(c.operation) + PpaValues(c.ppa) + CacheValues(c.cache)
    + [c.cookie, c.frozenFaultWord, c.payloadDigest, c.acceptedTick, c.beginTick, c.outcomeTick, c.statusTick]
    + [c.submitSequence, c.arraySequence, c.baseEraseGeneration, c.finalEraseGeneration,
       c.correctedMainBits, c.correctedOobBits]
    + [c.terminal, c.physicalOutcome, c.integrity, c.reason, c.eccStatus, c.requestedRegionMask]
    + [c.validRegionMask, c.appliedRegionMask, c.retryStep, c.blockHealth, c.operationKind, c.reserved1]
    + [c.reserved20, c.reserved21]
  }

  function CompletionOf(v: seq<nat>): Completion
    requires |v| == 48
  {
    Completion(v[1], v[2], v[3], OperationAt(v, 4), PpaAt(v, 8), CacheAt(v, 14),
               v[21], v[22], v[23], v[24], v[25], v[26], v[27], v[28], v[29], v[30], v[31], v[32], v[33],
               v[34], v[35], v[36], v[37], v[38], v[39], v[40], v[41], v[42], v[43], v[44], v[45], v[46], v[47])
  }

  function TraceValues(e: TraceEntry): (v: seq<nat>)
    ensures |v| == 20
  {
    [TRACE_MAGIC, e.version, e.size, e.kind] + [e.sequence, e.virtualTick]
    + OperationValues(e.operation) + PpaValues(e.ppa) + [e.fromState, e.toState, e.detail, e.reserved]
  }

  function TraceOf(v: seq<nat>): TraceEntry
    requires |v| == 20
  {
    TraceEntry(v[1], v[2], v[3], v[4], v[5], OperationAt(v, 6), PpaAt(v, 10), v[16], v[17], v[18], v[19])
  }

  lemma RequestOfValues(r: Request)
    ensures RequestOf(RequestValues(r)) == r
  {
  }

  lemma RequestValuesOf(v: seq<nat>)
    requires |v| == 41 && v[0] == REQUEST_MAGIC
    ensures RequestValues(RequestOf(v)) == v
  {
  }

  lemma CompletionOfValues(c: Completion)
    ensures CompletionOf(CompletionValues(c)) == c
  {
  }

  lemma CompletionValuesOf(v: seq<nat>)
    requires |v| == 48 && v[0] == COMPLETION_MAGIC
    ensures CompletionValues(CompletionOf(v)) == v
  {
  }

  lemma TraceOfValues(e: TraceEntry)
    ensures TraceOf(TraceValues(e)) == e
  {
  }

  lemma TraceValuesOf(v: seq<nat>)
    requires |v| == 20 && v[0] == TRACE_MAGIC
    ensures TraceValues(TraceOf(v)) == v
  {
  }

  // ---------------------------------------------------------------- validity

  predicate OperationValid(o: OperationToken)
  {
    o.instanceNonce != 0 && o.operationUid != 0 && o.controllerEpoch != 0 && o.generation != 0
  }

  function RequestValid(r: Request): Status
  {
    if r.version != CONTRACT_VERSION then UnsupportedVersion
    else if r.size != REQUEST_SIZE || r.reserved0 != 0 || r.reserved10 != 0 || r.reserved11 != 0 || r.reserved12 != 0
            || r.reserved20 != 0 || r.reserved21 != 0 || r.ppa.reserved != 0 || !OperationValid(r.operation)
            || r.main.reserved != 0 || r.oob.reserved != 0 || r.cache.reserved != 0
            || r.kind > STATUS || r.regionMask > 3 || r.retryStep > MAX_RETRY_STEP then InvalidContract
    else Ok
  }

  function CompletionValid(c: Completion): Status
  {
    if c.version != CONTRACT_VERSION then UnsupportedVersion
    else if c.size != COMPLETION_SIZE || c.reserved0 != 0 || c.reserved1 != 0 || c.reserved20 != 0 || c.reserved21 != 0
            || c.ppa.reserved != 0 || !OperationValid(c.operation) || c.cache.reserved != 0
            || c.terminal > TERMINAL_FAILED || c.physicalOutcome > PHYS_APPLIED || c.integrity > INTEGRITY_TORN
            || c.reason > REASON_INTERNAL || c.eccStatus > ECC_UNCORRECTABLE || c.requestedRegionMask > 3
            || !RegionWithin(c.validRegionMask, c.requestedRegionMask) || c.appliedRegionMask > 3
            || c.blockHealth > BLOCK_RUNTIME_BAD || c.operationKind > STATUS then InvalidContract
    else Ok
  }

  function TraceValid(e: TraceEntry): Status
  {
    if e.version != CONTRACT_VERSION then UnsupportedVersion
    else if e.size != TRACE_SIZE || e.reserved != 0 || e.ppa.reserved != 0 || e.kind < TRACE_INIT
            || e.kind > TRACE_FAULT
      then InvalidContract
    else if e.kind != TRACE_INIT && e.kind != TRACE_RESET && e.kind != TRACE_POWER && !OperationValid(e.operation)
      then InvalidContract
    else Ok
  }

  // ---------------------------------------------------------------- requests

  /** Every field is in the range of its C type. */
  predicate RequestRanged(r: Request) { Fits(REQUEST_LAYOUT, RequestValues(r)) }

  function RequestWire(r: Request, size: nat): (b: seq<Byte>)
    requires Total(REQUEST_LAYOUT) <= size
    ensures |b| == size
  {
    RequestTotal();
    Frame(REQUEST_LAYOUT, RequestValues(r), size)
  }

  function RequestRead(wire: seq<Byte>, size: nat): Decoded<Request>
  {
    RequestTotal();
    var v := Unframe(REQUEST_LAYOUT, wire);
    if |wire| != size || v == [] || v[0] != REQUEST_MAGIC then Refused(InvalidContract)
    else if RequestValid(RequestOf(v)) == Ok then Decoded(RequestOf(v))
    else Refused(RequestValid(RequestOf(v)))
  }

  /** Decoding undoes encoding, at every wire size that holds the record. */
  lemma RequestRoundTrip(r: Request, size: nat)
    requires RequestRanged(r) && RequestValid(r) == Ok && Total(REQUEST_LAYOUT) <= size
    ensures RequestRead(RequestWire(r, size), size) == Decoded(r)
  {
    RequestTotal();
    UnframeFrame(REQUEST_LAYOUT, RequestValues(r), size);
    RequestOfValues(r);
  }

  /** A wire that is accepted is the encoding of what it is read as, byte for byte. */
  lemma RequestCanonical(wire: seq<Byte>, size: nat)
    requires RequestRead(wire, size).Decoded?
    ensures var r := RequestRead(wire, size).value;
      RequestRanged(r) && RequestValid(r) == Ok && Total(REQUEST_LAYOUT) <= size && RequestWire(r, size) == wire
  {
    RequestTotal();
    FrameUnframe(REQUEST_LAYOUT, wire);
    RequestValuesOf(Unframe(REQUEST_LAYOUT, wire));
  }

  // ---------------------------------------------------------------- completions

  /** Every field is in the range of its C type. */
  predicate CompletionRanged(c: Completion) { Fits(COMPLETION_LAYOUT, CompletionValues(c)) }

  function CompletionWire(c: Completion, size: nat): (b: seq<Byte>)
    requires Total(COMPLETION_LAYOUT) <= size
    ensures |b| == size
  {
    CompletionTotal();
    Frame(COMPLETION_LAYOUT, CompletionValues(c), size)
  }

  function CompletionRead(wire: seq<Byte>, size: nat): Decoded<Completion>
  {
    CompletionTotal();
    var v := Unframe(COMPLETION_LAYOUT, wire);
    if |wire| != size || v == [] || v[0] != COMPLETION_MAGIC then Refused(InvalidContract)
    else if CompletionValid(CompletionOf(v)) == Ok then Decoded(CompletionOf(v))
    else Refused(CompletionValid(CompletionOf(v)))
  }

  /** Decoding undoes encoding, at every wire size that holds the record. */
  lemma CompletionRoundTrip(c: Completion, size: nat)
    requires CompletionRanged(c) && CompletionValid(c) == Ok && Total(COMPLETION_LAYOUT) <= size
    ensures CompletionRead(CompletionWire(c, size), size) == Decoded(c)
  {
    CompletionTotal();
    UnframeFrame(COMPLETION_LAYOUT, CompletionValues(c), size);
    CompletionOfValues(c);
  }

  /** A wire that is accepted is the encoding of what it is read as, byte for byte. */
  lemma CompletionCanonical(wire: seq<Byte>, size: nat)
    requires CompletionRead(wire, size).Decoded?
    ensures var c := CompletionRead(wire, size).value;
      CompletionRanged(c) && CompletionValid(c) == Ok && Total(COMPLETION_LAYOUT) <= size
      && CompletionWire(c, size) == wire
  {
    CompletionTotal();
    FrameUnframe(COMPLETION_LAYOUT, wire);
    CompletionValuesOf(Unframe(COMPLETION_LAYOUT, wire));
  }

  // ---------------------------------------------------------------- trace entries

  /** Every field is in the range of its C type. */
  predicate TraceRanged(e: TraceEntry) { Fits(TRACE_LAYOUT, TraceValues(e)) }

  function TraceWire(e: TraceEntry, size: nat): (b: seq<Byte>)
    requires Total(TRACE_LAYOUT) <= size
    ensures |b| == size
  {
    TraceTotal();
    Frame(TRACE_LAYOUT, TraceValues(e), size)
  }

  function TraceRead(wire: seq<Byte>, size: nat): Decoded<TraceEntry>
  {
    TraceTotal();
    var v := Unframe(TRACE_LAYOUT, wire);
    if |wire| != size || v == [] || v[0] != TRACE_MAGIC then Refused(InvalidContract)
    else if TraceValid(TraceOf(v)) == Ok then Decoded(TraceOf(v))
    else Refused(TraceValid(TraceOf(v)))
  }

  /** Decoding undoes encoding, at every wire size that holds the record. */
  lemma TraceRoundTrip(e: TraceEntry, size: nat)
    requires TraceRanged(e) && TraceValid(e) == Ok && Total(TRACE_LAYOUT) <= size
    ensures TraceRead(TraceWire(e, size), size) == Decoded(e)
  {
    TraceTotal();
    UnframeFrame(TRACE_LAYOUT, TraceValues(e), size);
    TraceOfValues(e);
  }

  /** A wire that is accepted is the encoding of what it is read as, byte for byte. */
  lemma TraceCanonical(wire: seq<Byte>, size: nat)
    requires TraceRead(wire, size).Decoded?
    ensures var e := TraceRead(wire, size).value;
      TraceRanged(e) && TraceValid(e) == Ok && Total(TRACE_LAYOUT) <= size && TraceWire(e, size) == wire
  {
    TraceTotal();
    FrameUnframe(TRACE_LAYOUT, wire);
    TraceValuesOf(Unframe(TRACE_LAYOUT, wire));
  }
}
