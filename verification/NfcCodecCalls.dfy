/** The codec's encode and decode calls, field by field over the wire cursors. */
module NfcCodecCalls {
  import opened Bytes
  import opened Wire
  import opened NfcTypes
  import opened NfcCodec

  // ---------------------------------------------------------------- groups of fields

  method PutOperation(e: Encoder, o: OperationToken)
    requires e.Valid()
    modifies e, e.wire
    ensures e.Valid() && e.layout == old(e.layout) + OPERATION_LAYOUT && e.values == old(e.values) + OperationValues(o)
    ensures e.failed <==> old(e.failed) || old(e.offset) + 24 > e.wire.Length
    ensures !e.failed ==> e.offset == old(e.offset) + 24
  {
    e.Put(o.instanceNonce, 8);
    e.Put(o.operationUid, 8);
    e.Put(o.controllerEpoch, 4);
    e.Put(o.generation, 4);
  }

  method GetOperation(d: Decoder) returns (v: seq<nat>)
    requires d.Valid()
    modifies d
    ensures |v| == 4 && d.Valid() && d.layout == old(d.layout) + OPERATION_LAYOUT && d.values == old(d.values) + v
    ensures d.failed <==> old(d.failed) || old(d.offset) + 24 > d.wire.Length
    ensures !d.failed ==> d.offset == old(d.offset) + 24
  {
    var instanceNonce := d.Get(8);
    var operationUid := d.Get(8);
    var controllerEpoch := d.Get(4);
    var generation := d.Get(4);
    v := [instanceNonce, operationUid, controllerEpoch, generation];
  }

  method PutPpa(e: Encoder, p: Ppa)
    requires e.Valid()
    modifies e, e.wire
    ensures e.Valid() && e.layout == old(e.layout) + PPA_LAYOUT && e.values == old(e.values) + PpaValues(p)
    ensures e.failed <==> old(e.failed) || old(e.offset) + 12 > e.wire.Length
    ensures !e.failed ==> e.offset == old(e.offset) + 12
  {
    e.Put(p.channel, 2);
    e.Put(p.lun, 2);
    e.Put(p.plane, 2);
    e.Put(p.block, 2);
    e.Put(p.page, 2);
    e.Put(p.reserved, 2);
  }

  method GetPpa(d: Decoder) returns (v: seq<nat>)
    requires d.Valid()
    modifies d
    ensures |v| == 6 && d.Valid() && d.layout == old(d.layout) + PPA_LAYOUT && d.values == old(d.values) + v
    ensures d.failed <==> old(d.failed) || old(d.offset) + 12 > d.wire.Length
    ensures !d.failed ==> d.offset == old(d.offset) + 12
  {
    var channel := d.Get(2);
    var lun := d.Get(2);
    var plane := d.Get(2);
    var block := d.Get(2);
    var page := d.Get(2);
    var reserved := d.Get(2);
    v := [channel, lun, plane, block, page, reserved];
  }

  method PutBuffer(e: Encoder, b: BufferRef)
    requires e.Valid()
    modifies e, e.wire
    ensures e.Valid() && e.layout == old(e.layout) + BUFFER_LAYOUT && e.values == old(e.values) + BufferValues(b)
    ensures e.failed <==> old(e.failed) || old(e.offset) + 16 > e.wire.Length
    ensures !e.failed ==> e.offset == old(e.offset) + 16
  {
    e.Put(b.controllerRegion, 4);
    e.Put(b.offset, 4);
    e.Put(b.length, 4);
    e.Put(b.reserved, 4);
  }

  method GetBuffer(d: Decoder) returns (v: seq<nat>)
    requires d.Valid()
    modifies d
    ensures |v| == 4 && d.Valid() && d.layout == old(d.layout) + BUFFER_LAYOUT && d.values == old(d.values) + v
    ensures d.failed <==> old(d.failed) || old(d.offset) + 16 > d.wire.Length
    ensures !d.failed ==> d.offset == old(d.offset) + 16
  {
    var controllerRegion := d.Get(4);
    var at := d.Get(4);
    var length := d.Get(4);
    var reserved := d.Get(4);
    v := [controllerRegion, at, length, reserved];
  }

  method PutCache(e: Encoder, c: CacheToken)
    requires e.Valid()
    modifies e, e.wire
    ensures e.Valid() && e.layout == old(e.layout) + CACHE_LAYOUT && e.values == old(e.values) + CacheValues(c)
    ensures e.failed <==> old(e.failed) || old(e.offset) + 24 > e.wire.Length
    ensures !e.failed ==> e.offset == old(e.offset) + 24
  {
    e.Put(c.instanceNonce, 8);
    e.Put(c.controllerEpoch, 4);
    e.Put(c.generation, 4);
    e.Put(c.channel, 2);
    e.Put(c.lun, 2);
    e.Put(c.plane, 2);
    e.Put(c.reserved, 2);
  }

  method GetCache(d: Decoder) returns (v: seq<nat>)
    requires d.Valid()
    modifies d
    ensures |v| == 7 && d.Valid() && d.layout == old(d.layout) + CACHE_LAYOUT && d.values == old(d.values) + v
    ensures d.failed <==> old(d.failed) || old(d.offset) + 24 > d.wire.Length
    ensures !d.failed ==> d.offset == old(d.offset) + 24
  {
    var instanceNonce := d.Get(8);
    var controllerEpoch := d.Get(4);
    var generation := d.Get(4);
    var channel := d.Get(2);
    var lun := d.Get(2);
    var plane := d.Get(2);
    var reserved := d.Get(2);
    v := [instanceNonce, controllerEpoch, generation, channel, lun, plane, reserved];
  }

  /** The magic, the version, the size and the word behind them. */
  method PutHead(e: Encoder, magic: nat, version: nat, size: nat, word: nat)
    requires e.Valid()
    modifies e, e.wire
    ensures e.Valid() && e.layout == old(e.layout) + [4, 2, 2, 4]
    ensures e.values == old(e.values) + [magic, version, size, word]
    ensures e.failed <==> old(e.failed) || old(e.offset) + 12 > e.wire.Length
    ensures !e.failed ==> e.offset == old(e.offset) + 12
  {
    e.Put(magic, 4);
    e.Put(version, 2);
    e.Put(size, 2);
    e.Put(word, 4);
  }

  method GetHead(d: Decoder) returns (v: seq<nat>)
    requires d.Valid()
    modifies d
    ensures |v| == 4 && d.Valid() && d.layout == old(d.layout) + [4, 2, 2, 4] && d.values == old(d.values) + v
    ensures d.failed <==> old(d.failed) || old(d.offset) + 12 > d.wire.Length
    ensures !d.failed ==> d.offset == old(d.offset) + 12
  {
    var magic := d.Get(4);
    var version := d.Get(2);
    var size := d.Get(2);
    var word := d.Get(4);
    v := [magic, version, size, word];
  }

  // ---------------------------------------------------------------- request

  method PutRequestTags(e: Encoder, r: Request)
    requires e.Valid()
    modifies e, e.wire
    ensures e.Valid() && e.layout == old(e.layout) + [8, 8, 4, 2, 1, 1]
    ensures e.values == old(e.values) + [r.cookie, r.faultTag, r.schedulingGroup, r.priority, r.kind, r.regionMask]
    ensures e.failed <==> old(e.failed) || old(e.offset) + 24 > e.wire.Length
    ensures !e.failed ==> e.offset == old(e.offset) + 24
  {
    e.Put(r.cookie, 8);
    e.Put(r.faultTag, 8);
    e.Put(r.schedulingGroup, 4);
    e.Put(r.priority, 2);
    e.Put(r.kind, 1);
    e.Put(r.regionMask, 1);
  }

  method GetRequestTags(d: Decoder) returns (v: seq<nat>)
    requires d.Valid()
    modifies d
    ensures |v| == 6 && d.Valid() && d.layout == old(d.layout) + [8, 8, 4, 2, 1, 1] && d.values == old(d.values) + v
    ensures d.failed <==> old(d.failed) || old(d.offset) + 24 > d.wire.Length
    ensures !d.failed ==> d.offset == old(d.offset) + 24
  {
    var cookie := d.Get(8);
    var faultTag := d.Get(8);
    var schedulingGroup := d.Get(4);
    var priority := d.Get(2);
    var kind := d.Get(1);
    var regionMask := d.Get(1);
    v := [cookie, faultTag, schedulingGroup, priority, kind, regionMask];
  }

  method PutRequestTail(e: Encoder, r: Request)
    requires e.Valid()
    modifies e, e.wire
    ensures e.Valid() && e.layout == old(e.layout) + [1, 1, 1, 1, 4, 4]
    ensures e.values == old(e.values)
      + [r.retryStep, r.reserved10, r.reserved11, r.reserved12, r.reserved20, r.reserved21]
    ensures e.failed <==> old(e.failed) || old(e.offset) + 12 > e.wire.Length
    ensures !e.failed ==> e.offset == old(e.offset) + 12
  {
    e.Put(r.retryStep, 1);
    e.Put(r.reserved10, 1);
    e.Put(r.reserved11, 1);
    e.Put(r.reserved12, 1);
    e.Put(r.reserved20, 4);
    e.Put(r.reserved21, 4);
  }

  method GetRequestTail(d: Decoder) returns (v: seq<nat>)
    requires d.Valid()
    modifies d
    ensures |v| == 6 && d.Valid() && d.layout == old(d.layout) + [1, 1, 1, 1, 4, 4] && d.values == old(d.values) + v
    ensures d.failed <==> old(d.failed) || old(d.offset) + 12 > d.wire.Length
    ensures !d.failed ==> d.offset == old(d.offset) + 12
  {
    var retryStep := d.Get(1);
    var reserved10 := d.Get(1);
    var reserved11 := d.Get(1);
    var reserved12 := d.Get(1);
    var reserved20 := d.Get(4);
    var reserved21 := d.Get(4);
    v := [retryStep, reserved10, reserved11, reserved12, reserved20, reserved21];
  }

  method PutRequestFront(e: Encoder, r: Request)
    requires e.Valid() && e.layout == [] && e.values == [] && !e.failed && e.offset == 0
    requires e.wire.Length == REQUEST_WIRE_SIZE
    modifies e, e.wire
    ensures e.Valid() && !e.failed && e.offset == 80
    ensures e.layout == [4, 2, 2, 4] + OPERATION_LAYOUT + PPA_LAYOUT + BUFFER_LAYOUT + BUFFER_LAYOUT
    ensures e.values == [REQUEST_MAGIC, r.version, r.size, r.reserved0] + OperationValues(r.operation)
      + PpaValues(r.ppa)
                        + BufferValues(r.main) + BufferValues(r.oob)
  {
    PutHead(e, REQUEST_MAGIC, r.version, r.size, r.reserved0);
    PutOperation(e, r.operation);
    PutPpa(e, r.ppa);
    assert e.offset == 48;
    PutBuffer(e, r.main);
    PutBuffer(e, r.oob);
  }

  method PutRequestBack(e: Encoder, r: Request)
    requires e.Valid() && !e.failed && e.offset == 80 && e.wire.Length == REQUEST_WIRE_SIZE
    modifies e, e.wire
    ensures e.Valid() && !e.failed && e.offset == 140
    ensures e.layout == old(e.layout) + CACHE_LAYOUT + [8, 8, 4, 2, 1, 1] + [1, 1, 1, 1, 4, 4]
    ensures e.values == old(e.values) + CacheValues(r.cache)
                        + [r.cookie, r.faultTag, r.schedulingGroup, r.priority, r.kind, r.regionMask]
                        + [r.retryStep, r.reserved10, r.reserved11, r.reserved12, r.reserved20, r.reserved21]
  {
    PutCache(e, r.cache);
    assert e.offset == 104;
    PutRequestTags(e, r);
    PutRequestTail(e, r);
  }

  method PutRequest(e: Encoder, r: Request)
    requires e.Valid() && e.layout == [] && e.values == [] && !e.failed && e.offset == 0
    requires e.wire.Length == REQUEST_WIRE_SIZE
    modifies e, e.wire
    ensures e.Valid() && e.layout == REQUEST_LAYOUT && e.values == RequestValues(r) && !e.failed
  {
    PutRequestFront(e, r);
    PutRequestBack(e, r);
  }

  /** The values of the record's fields, in order. */
  method GetRequest(d: Decoder) returns (v: seq<nat>)
    requires d.Valid() && d.layout == [] && d.values == [] && !d.failed && d.offset == 0
    requires d.wire.Length == REQUEST_WIRE_SIZE
    modifies d
    ensures d.Valid() && d.layout == REQUEST_LAYOUT && d.values == v && !d.failed
  {
    var head := GetHead(d);
    var operation := GetOperation(d);
    var ppa := GetPpa(d);
    var main := GetBuffer(d);
    var oob := GetBuffer(d);
    var cache := GetCache(d);
    var requestTags := GetRequestTags(d);
    var requestTail := GetRequestTail(d);
    v := head + operation + ppa + main + oob + cache + requestTags + requestTail;
  }

  method EncodeRequest(r: Request, wire: array<Byte>) returns (status: Status)
    modifies wire
    ensures status == if wire.Length != REQUEST_WIRE_SIZE then InvalidContract else RequestValid(r)
    ensures Total(REQUEST_LAYOUT) <= REQUEST_WIRE_SIZE
    ensures wire[..] == if status == Ok then RequestWire(r, REQUEST_WIRE_SIZE) else old(wire[..])
  {
    RequestTotal();
    if wire.Length != REQUEST_WIRE_SIZE { return InvalidContract; }
    status := RequestValid(r);
    if status != Ok { return; }
    var e := new Encoder(wire);
    PutRequest(e, r);
    status := if e.failed then InvalidContract else Ok;
  }

  method DecodeRequest(wire: array<Byte>) returns (result: Decoded<Request>)
    ensures result == RequestRead(wire[..], REQUEST_WIRE_SIZE)
  {
    RequestTotal();
    if wire.Length != REQUEST_WIRE_SIZE { return Refused(InvalidContract); }
    var d := new Decoder(wire);
    var v := GetRequest(d);
    var padded := d.PaddingZero();
    assert wire[..][d.offset..] == wire[d.offset..];
    if v[0] != REQUEST_MAGIC || !padded { return Refused(InvalidContract); }
    var r := RequestOf(v);
    var status := RequestValid(r);
    result := if status == Ok then Decoded(r) else Refused(status);
  }

  // ---------------------------------------------------------------- completion

  method PutCompletionTicks(e: Encoder, c: Completion)
    requires e.Valid()
    modifies e, e.wire
    ensures e.Valid() && e.layout == old(e.layout) + [8, 8, 8, 8, 8, 8, 8]
    ensures e.values == old(e.values)
      + [c.cookie, c.frozenFaultWord, c.payloadDigest, c.acceptedTick, c.beginTick, c.outcomeTick, c.statusTick]
    ensures e.failed <==> old(e.failed) || old(e.offset) + 56 > e.wire.Length
    ensures !e.failed ==> e.offset == old(e.offset) + 56
  {
    e.Put(c.cookie, 8);
    e.Put(c.frozenFaultWord, 8);
    e.Put(c.payloadDigest, 8);
    e.Put(c.acceptedTick, 8);
    e.Put(c.beginTick, 8);
    e.Put(c.outcomeTick, 8);
    e.Put(c.statusTick, 8);
  }

  method GetCompletionTicks(d: Decoder) returns (v: seq<nat>)
    requires d.Valid()
    modifies d
    ensures |v| == 7 && d.Valid() && d.layout == old(d.layout) + [8, 8, 8, 8, 8, 8, 8] && d.values == old(d.values) + v
    ensures d.failed <==> old(d.failed) || old(d.offset) + 56 > d.wire.Length
    ensures !d.failed ==> d.offset == old(d.offset) + 56
  {
    var cookie := d.Get(8);
    var frozenFaultWord := d.Get(8);
    var payloadDigest := d.Get(8);
    var acceptedTick := d.Get(8);
    var beginTick := d.Get(8);
    var outcomeTick := d.Get(8);
    var statusTick := d.Get(8);
    v := [cookie, frozenFaultWord, payloadDigest, acceptedTick, beginTick, outcomeTick, statusTick];
  }

  method PutCompletionCounts(e: Encoder, c: Completion)
    requires e.Valid()
    modifies e, e.wire
    ensures e.Valid() && e.layout == old(e.layout) + [4, 4, 2, 2, 2, 2]
    ensures e.values == old(e.values)
      + [c.submitSequence, c.arraySequence, c.baseEraseGeneration, c.finalEraseGeneration,
         c.correctedMainBits, c.correctedOobBits]
    ensures e.failed <==> old(e.failed) || old(e.offset) + 16 > e.wire.Length
    ensures !e.failed ==> e.offset == old(e.offset) + 16
  {
    e.Put(c.submitSequence, 4);
    e.Put(c.arraySequence, 4);
    e.Put(c.baseEraseGeneration, 2);
    e.Put(c.finalEraseGeneration, 2);
    e.Put(c.correctedMainBits, 2);
    e.Put(c.correctedOobBits, 2);
  }

  method GetCompletionCounts(d: Decoder) returns (v: seq<nat>)
    requires d.Valid()
    modifies d
    ensures |v| == 6 && d.Valid() && d.layout == old(d.layout) + [4, 4, 2, 2, 2, 2] && d.values == old(d.values) + v
    ensures d.failed <==> old(d.failed) || old(d.offset) + 16 > d.wire.Length
    ensures !d.failed ==> d.offset == old(d.offset) + 16
  {
    var submitSequence := d.Get(4);
    var arraySequence := d.Get(4);
    var baseEraseGeneration := d.Get(2);
    var finalEraseGeneration := d.Get(2);
    var correctedMainBits := d.Get(2);
    var correctedOobBits := d.Get(2);
    v := [submitSequence, arraySequence, baseEraseGeneration, finalEraseGeneration, correctedMainBits,
          correctedOobBits];
  }

  method PutCompletionResults(e: Encoder, c: Completion)
    requires e.Valid()
    modifies e, e.wire
    ensures e.Valid() && e.layout == old(e.layout) + [1, 1, 1, 1, 1, 1]
    ensures e.values == old(e.values)
      + [c.terminal, c.physicalOutcome, c.integrity, c.reason, c.eccStatus, c.requestedRegionMask]
    ensures e.failed <==> old(e.failed) || old(e.offset) + 6 > e.wire.Length
    ensures !e.failed ==> e.offset == old(e.offset) + 6
  {
    e.Put(c.terminal, 1);
    e.Put(c.physicalOutcome, 1);
    e.Put(c.integrity, 1);
    e.Put(c.reason, 1);
    e.Put(c.eccStatus, 1);
    e.Put(c.requestedRegionMask, 1);
  }

  method GetCompletionResults(d: Decoder) returns (v: seq<nat>)
    requires d.Valid()
    modifies d
    ensures |v| == 6 && d.Valid() && d.layout == old(d.layout) + [1, 1, 1, 1, 1, 1] && d.values == old(d.values) + v
    ensures d.failed <==> old(d.failed) || old(d.offset) + 6 > d.wire.Length
    ensures !d.failed ==> d.offset == old(d.offset) + 6
  {
    var terminal := d.Get(1);
    var physicalOutcome := d.Get(1);
    var integrity := d.Get(1);
    var reason := d.Get(1);
    var eccStatus := d.Get(1);
    var requestedRegionMask := d.Get(1);
    v := [terminal, physicalOutcome, integrity, reason, eccStatus, requestedRegionMask];
  }

  method PutCompletionMasks(e: Encoder, c: Completion)
    requires e.Valid()
    modifies e, e.wire
    ensures e.Valid() && e.layout == old(e.layout) + [1, 1, 1, 1, 1, 1]
    ensures e.values == old(e.values)
      + [c.validRegionMask, c.appliedRegionMask, c.retryStep, c.blockHealth, c.operationKind, c.reserved1]
    ensures e.failed <==> old(e.failed) || old(e.offset) + 6 > e.wire.Length
    ensures !e.failed ==> e.offset == old(e.offset) + 6
  {
    e.Put(c.validRegionMask, 1);
    e.Put(c.appliedRegionMask, 1);
    e.Put(c.retryStep, 1);
    e.Put(c.blockHealth, 1);
    e.Put(c.operationKind, 1);
    e.Put(c.reserved1, 1);
  }

  method GetCompletionMasks(d: Decoder) returns (v: seq<nat>)
    requires d.Valid()
    modifies d
    ensures |v| == 6 && d.Valid() && d.layout == old(d.layout) + [1, 1, 1, 1, 1, 1] && d.values == old(d.values) + v
    ensures d.failed <==> old(d.failed) || old(d.offset) + 6 > d.wire.Length
    ensures !d.failed ==> d.offset == old(d.offset) + 6
  {
    var validRegionMask := d.Get(1);
    var appliedRegionMask := d.Get(1);
    var retryStep := d.Get(1);
    var blockHealth := d.Get(1);
    var operationKind := d.Get(1);
    var reserved1 := d.Get(1);
    v := [validRegionMask, appliedRegionMask, retryStep, blockHealth, operationKind, reserved1];
  }

  method PutCompletionTail(e: Encoder, c: Completion)
    requires e.Valid()
    modifies e, e.wire
    ensures e.Valid() && e.layout == old(e.layout) + [4, 4]
    ensures e.values == old(e.values) + [c.reserved20, c.reserved21]
    ensures e.failed <==> old(e.failed) || old(e.offset) + 8 > e.wire.Length
    ensures !e.failed ==> e.offset == old(e.offset) + 8
  {
    e.Put(c.reserved20, 4);
    e.Put(c.reserved21, 4);
  }

  method GetCompletionTail(d: Decoder) returns (v: seq<nat>)
    requires d.Valid()
    modifies d
    ensures |v| == 2 && d.Valid() && d.layout == old(d.layout) + [4, 4] && d.values == old(d.values) + v
    ensures d.failed <==> old(d.failed) || old(d.offset) + 8 > d.wire.Length
    ensures !d.failed ==> d.offset == old(d.offset) + 8
  {
    var reserved20 := d.Get(4);
    var reserved21 := d.Get(4);
    v := [reserved20, reserved21];
  }

  method PutCompletionFront(e: Encoder, c: Completion)
    requires e.Valid() && e.layout == [] && e.values == [] && !e.failed && e.offset == 0
    requires e.wire.Length == COMPLETION_WIRE_SIZE
    modifies e, e.wire
    ensures e.Valid() && !e.failed && e.offset == 128
    ensures e.layout == [4, 2, 2, 4] + OPERATION_LAYOUT + PPA_LAYOUT + CACHE_LAYOUT + [8, 8, 8, 8, 8, 8, 8]
    ensures e.values == [COMPLETION_MAGIC, c.version, c.size, c.reserved0] + OperationValues(c.operation)
      + PpaValues(c.ppa)
                        + CacheValues(c.cache)
                        + [c.cookie, c.frozenFaultWord, c.payloadDigest, c.acceptedTick, c.beginTick, c.outcomeTick,
                           c.statusTick]
  {
    PutHead(e, COMPLETION_MAGIC, c.version, c.size, c.reserved0);
    PutOperation(e, c.operation);
    PutPpa(e, c.ppa);
    assert e.offset == 48;
    PutCache(e, c.cache);
    PutCompletionTicks(e, c);
  }

  method PutCompletionBack(e: Encoder, c: Completion)
    requires e.Valid() && !e.failed && e.offset == 128 && e.wire.Length == COMPLETION_WIRE_SIZE
    modifies e, e.wire
    ensures e.Valid() && !e.failed && e.offset == 164
    ensures e.layout == old(e.layout) + [4, 4, 2, 2, 2, 2] + [1, 1, 1, 1, 1, 1] + [1, 1, 1, 1, 1, 1] + [4, 4]
    ensures e.values == old(e.values)
                        + [c.submitSequence, c.arraySequence, c.baseEraseGeneration, c.finalEraseGeneration,
                           c.correctedMainBits, c.correctedOobBits]
                        + [c.terminal, c.physicalOutcome, c.integrity, c.reason, c.eccStatus, c.requestedRegionMask]
                        + [c.validRegionMask, c.appliedRegionMask, c.retryStep, c.blockHealth, c.operationKind,
                           c.reserved1]
                        + [c.reserved20, c.reserved21]
  {
    PutCompletionCounts(e, c);
    PutCompletionResults(e, c);
    assert e.offset == 150;
    PutCompletionMasks(e, c);
    PutCompletionTail(e, c);
  }

  method PutCompletion(e: Encoder, c: Completion)
    requires e.Valid() && e.layout == [] && e.values == [] && !e.failed && e.offset == 0
    requires e.wire.Length == COMPLETION_WIRE_SIZE
    modifies e, e.wire
    ensures e.Valid() && e.layout == COMPLETION_LAYOUT && e.values == CompletionValues(c) && !e.failed
  {
    PutCompletionFront(e, c);
    PutCompletionBack(e, c);
  }

  /** The values of the record's fields, in order. */
  method GetCompletion(d: Decoder) returns (v: seq<nat>)
    requires d.Valid() && d.layout == [] && d.values == [] && !d.failed && d.offset == 0
    requires d.wire.Length == COMPLETION_WIRE_SIZE
    modifies d
    ensures d.Valid() && d.layout == COMPLETION_LAYOUT && d.values == v && !d.failed
  {
    var front := GetCompletionFront(d);
    var back := GetCompletionBack(d);
    v := front + back;
  }

  method GetCompletionFront(d: Decoder) returns (v: seq<nat>)
    requires d.Valid() && d.layout == [] && d.values == [] && !d.failed && d.offset == 0
    requires d.wire.Length == COMPLETION_WIRE_SIZE
    modifies d
    ensures d.Valid() && !d.failed && d.offset == 128 && d.values == v
    ensures d.layout == [4, 2, 2, 4] + OPERATION_LAYOUT + PPA_LAYOUT + CACHE_LAYOUT + [8, 8, 8, 8, 8, 8, 8]
  {
    var head := GetHead(d);
    var operation := GetOperation(d);
    var ppa := GetPpa(d);
    var cache := GetCache(d);
    var ticks := GetCompletionTicks(d);
    v := head + operation + ppa + cache + ticks;
  }

  method GetCompletionBack(d: Decoder) returns (v: seq<nat>)
    requires d.Valid() && !d.failed && d.offset == 128 && d.wire.Length == COMPLETION_WIRE_SIZE
    modifies d
    ensures d.Valid() && !d.failed && d.offset == 164 && d.values == old(d.values) + v
    ensures d.layout == old(d.layout) + [4, 4, 2, 2, 2, 2] + [1, 1, 1, 1, 1, 1] + [1, 1, 1, 1, 1, 1] + [4, 4]
  {
    var counts := GetCompletionCounts(d);
    var results := GetCompletionResults(d);
    var masks := GetCompletionMasks(d);
    var tail := GetCompletionTail(d);
    v := counts + results + masks + tail;
  }

  method EncodeCompletion(c: Completion, wire: array<Byte>) returns (status: Status)
    modifies wire
    ensures status == if wire.Length != COMPLETION_WIRE_SIZE then InvalidContract else CompletionValid(c)
    ensures Total(COMPLETION_LAYOUT) <= COMPLETION_WIRE_SIZE
    ensures wire[..] == if status == Ok then CompletionWire(c, COMPLETION_WIRE_SIZE) else old(wire[..])
  {
    CompletionTotal();
    if wire.Length != COMPLETION_WIRE_SIZE { return InvalidContract; }
    status := CompletionValid(c);
    if status != Ok { return; }
    var e := new Encoder(wire);
    PutCompletion(e, c);
    status := if e.failed then InvalidContract else Ok;
  }

  method DecodeCompletion(wire: array<Byte>) returns (result: Decoded<Completion>)
    ensures result == CompletionRead(wire[..], COMPLETION_WIRE_SIZE)
  {
    CompletionTotal();
    if wire.Length != COMPLETION_WIRE_SIZE { return Refused(InvalidContract); }
    var d := new Decoder(wire);
    var v := GetCompletion(d);
    var padded := d.PaddingZero();
    assert wire[..][d.offset..] == wire[d.offset..];
    if v[0] != COMPLETION_MAGIC || !padded { return Refused(InvalidContract); }
    var c := CompletionOf(v);
    var status := CompletionValid(c);
    result := if status == Ok then Decoded(c) else Refused(status);
  }

  // ---------------------------------------------------------------- trace

  method PutTraceTime(e: Encoder, t: TraceEntry)
    requires e.Valid()
    modifies e, e.wire
    ensures e.Valid() && e.layout == old(e.layout) + [8, 8]
    ensures e.values == old(e.values) + [t.sequence, t.virtualTick]
    ensures e.failed <==> old(e.failed) || old(e.offset) + 16 > e.wire.Length
    ensures !e.failed ==> e.offset == old(e.offset) + 16
  {
    e.Put(t.sequence, 8);
    e.Put(t.virtualTick, 8);
  }

  method GetTraceTime(d: Decoder) returns (v: seq<nat>)
    requires d.Valid()
    modifies d
    ensures |v| == 2 && d.Valid() && d.layout == old(d.layout) + [8, 8] && d.values == old(d.values) + v
    ensures d.failed <==> old(d.failed) || old(d.offset) + 16 > d.wire.Length
    ensures !d.failed ==> d.offset == old(d.offset) + 16
  {
    var sequence := d.Get(8);
    var virtualTick := d.Get(8);
    v := [sequence, virtualTick];
  }

  method PutTraceTail(e: Encoder, t: TraceEntry)
    requires e.Valid()
    modifies e, e.wire
    ensures e.Valid() && e.layout == old(e.layout) + [4, 4, 4, 4]
    ensures e.values == old(e.values) + [t.fromState, t.toState, t.detail, t.reserved]
    ensures e.failed <==> old(e.failed) || old(e.offset) + 16 > e.wire.Length
    ensures !e.failed ==> e.offset == old(e.offset) + 16
  {
    e.Put(t.fromState, 4);
    e.Put(t.toState, 4);
    e.Put(t.detail, 4);
    e.Put(t.reserved, 4);
  }

  method GetTraceTail(d: Decoder) returns (v: seq<nat>)
    requires d.Valid()
    modifies d
    ensures |v| == 4 && d.Valid() && d.layout == old(d.layout) + [4, 4, 4, 4] && d.values == old(d.values) + v
    ensures d.failed <==> old(d.failed) || old(d.offset) + 16 > d.wire.Length
    ensures !d.failed ==> d.offset == old(d.offset) + 16
  {
    var fromState := d.Get(4);
    var toState := d.Get(4);
    var detail := d.Get(4);
    var reserved := d.Get(4);
    v := [fromState, toState, detail, reserved];
  }

  method PutTrace(e: Encoder, t: TraceEntry)
    requires e.Valid() && e.layout == [] && e.values == [] && !e.failed && e.offset == 0
    requires e.wire.Length == TRACE_WIRE_SIZE
    modifies e, e.wire
    ensures e.Valid() && e.layout == TRACE_LAYOUT && e.values == TraceValues(t) && !e.failed
  {
    PutHead(e, TRACE_MAGIC, t.version, t.size, t.kind);
    PutTraceTime(e, t);
    PutOperation(e, t.operation);
    PutPpa(e, t.ppa);
    PutTraceTail(e, t);
  }

  /** The values of the record's fields, in order. */
  method GetTrace(d: Decoder) returns (v: seq<nat>)
    requires d.Valid() && d.layout == [] && d.values == [] && !d.failed && d.offset == 0
    requires d.wire.Length == TRACE_WIRE_SIZE
    modifies d
    ensures d.Valid() && d.layout == TRACE_LAYOUT && d.values == v && !d.failed
  {
    var head := GetHead(d);
    var traceTime := GetTraceTime(d);
    var operation := GetOperation(d);
    var ppa := GetPpa(d);
    var traceTail := GetTraceTail(d);
    v := head + traceTime + operation + ppa + traceTail;
  }

  method EncodeTrace(t: TraceEntry, wire: array<Byte>) returns (status: Status)
    modifies wire
    ensures status == if wire.Length != TRACE_WIRE_SIZE then InvalidContract else TraceValid(t)
    ensures Total(TRACE_LAYOUT) <= TRACE_WIRE_SIZE
    ensures wire[..] == if status == Ok then TraceWire(t, TRACE_WIRE_SIZE) else old(wire[..])
  {
    TraceTotal();
    if wire.Length != TRACE_WIRE_SIZE { return InvalidContract; }
    status := TraceValid(t);
    if status != Ok { return; }
    var e := new Encoder(wire);
    PutTrace(e, t);
    status := if e.failed then InvalidContract else Ok;
  }

  method DecodeTrace(wire: array<Byte>) returns (result: Decoded<TraceEntry>)
    ensures result == TraceRead(wire[..], TRACE_WIRE_SIZE)
  {
    TraceTotal();
    if wire.Length != TRACE_WIRE_SIZE { return Refused(InvalidContract); }
    var d := new Decoder(wire);
    var v := GetTrace(d);
    var padded := d.PaddingZero();
    assert wire[..][d.offset..] == wire[d.offset..];
    if v[0] != TRACE_MAGIC || !padded { return Refused(InvalidContract); }
    var t := TraceOf(v);
    var status := TraceValid(t);
    result := if status == Ok then Decoded(t) else Refused(status);
  }
}
