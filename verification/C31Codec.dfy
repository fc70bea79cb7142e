/** The 96-byte wire form of a command descriptor. */
module C31Codec {
  import opened Bytes
  import opened Wire
  import opened C31Types

  datatype Decoded = Decoded(value: Descriptor) | Refused(error: ApiResult)

  const WIRE_SIZE: nat := 96

  // The magic "C31D", read lowest byte first.
  const MAGIC: nat := 0x4431_3343

  // Offsets of some fields in the wire form.
  const WIRE_PROVIDER: nat := 12
  const WIRE_ORIGIN: nat := 16
  const WIRE_REQUEST: nat := 40
  const WIRE_CAPABILITY_OFFSET: nat := 72
  const WIRE_RESERVED1: nat := 88

  const LAYOUT: seq<nat> := [4, 2, 2, 4] + [1, 1, 2] + [8, 8, 8] + [8, 8, 8, 8] + [4, 4, 4, 4]

  lemma LayoutTotal()
    ensures Total(LAYOUT) == WIRE_RESERVED1 && |LAYOUT| == 18
  {
    TotalFour(4, 2, 2, 4);
    TotalTwo(1, 1);
    TotalOne(2);
    TotalAppend([1, 1], [2]);
    assert [1, 1] + [2] == [1, 1, 2];
    TotalTwo(8, 8);
    TotalOne(8);
    TotalAppend([8, 8], [8]);
    assert [8, 8] + [8] == [8, 8, 8];
    TotalFour(8, 8, 8, 8);
    TotalFour(4, 4, 4, 4);
    var l := [4, 2, 2, 4];
    TotalAppend(l, [1, 1, 2]);
    TotalAppend(l + [1, 1, 2], [8, 8, 8]);
    TotalAppend(l + [1, 1, 2] + [8, 8, 8], [8, 8, 8, 8]);
    TotalAppend(l + [1, 1, 2] + [8, 8, 8] + [8, 8, 8, 8], [4, 4, 4, 4]);
  }

  /** What is written: the wire's own size stands for the record's, and the reserved words are not taken from it. */
  function Values(d: Descriptor): (v: seq<nat>)
    ensures |v| == 18
  {
    [MAGIC, d.version, WIRE_SIZE, 0]
    + [d.providerKind, d.dmaDirection, d.orderingFlags]
    + [d.origin.word0, d.origin.word1, d.traceCookie]
    + [d.providerRequest.word0, d.providerRequest.word1, d.capability.word0, d.capability.word1]
    + [d.capabilityOffset, d.controllerRegion, d.controllerOffset, d.length]
  }

  function DescriptorOf(v: seq<nat>): Descriptor
    requires |v| == 18
  {
    Descriptor(v[1], DESCRIPTOR_SIZE, 0, Words(v[7], v[8]), v[9], Words(v[10], v[11]), Words(v[12], v[13]),
               v[14], v[15], v[16], v[17], v[4], v[5], v[6], 0, 0)
  }

  predicate Ranged(d: Descriptor) { Fits(LAYOUT, Values(d)) }

  function DescriptorWire(d: Descriptor): (b: seq<Byte>)
    ensures |b| == WIRE_SIZE
  {
    LayoutTotal();
    Frame(LAYOUT, Values(d), WIRE_SIZE)
  }

  /** Why the wire form is refused before the descriptor's own rules are looked at. */
  function HeaderRefusal(v: seq<nat>, padded: bool): ApiResult
    requires |v| == 18
  {
    if v[0] != MAGIC then InvalidContract
    else if v[1] != CONTRACT_VERSION then UnsupportedVersion
    else if v[2] != WIRE_SIZE || v[3] != 0 || !padded then InvalidContract
    else Ok
  }

  function DescriptorRead(wire: seq<Byte>): Decoded
  {
    LayoutTotal();
    if |wire| != WIRE_SIZE then Refused(InvalidContract)
    else
      var v := Unpack(LAYOUT, wire);
      var refusal := HeaderRefusal(v, wire[WIRE_RESERVED1..] == Zeros(WIRE_SIZE - WIRE_RESERVED1));
      if refusal != Ok then Refused(refusal)
      else if ValidateDescriptor(DescriptorOf(v)) != Ok then Refused(ValidateDescriptor(DescriptorOf(v)))
      else Decoded(DescriptorOf(v))
  }

  /** Decoding undoes encoding. */
  lemma DescriptorRoundTrip(d: Descriptor)
    requires Ranged(d) && ValidateDescriptor(d) == Ok
    ensures DescriptorRead(DescriptorWire(d)) == Decoded(d)
  {
    LayoutTotal();
    UnpackPack(LAYOUT, Values(d), Zeros(WIRE_SIZE - WIRE_RESERVED1));
    assert DescriptorWire(d)[WIRE_RESERVED1..] == Zeros(WIRE_SIZE - WIRE_RESERVED1);
  }

  /** An accepted wire form is the encoding of what it is read as, byte for byte. */
  lemma DescriptorCanonical(wire: seq<Byte>)
    requires DescriptorRead(wire).Decoded?
    ensures var d := DescriptorRead(wire).value;
      Ranged(d) && ValidateDescriptor(d) == Ok && DescriptorWire(d) == wire
  {
    LayoutTotal();
    PackUnpack(LAYOUT, wire);
    var v := Unpack(LAYOUT, wire);
    assert Values(DescriptorOf(v)) == v;
    assert wire == wire[..WIRE_RESERVED1] + wire[WIRE_RESERVED1..];
  }

  // ---------------------------------------------------------------- the calls

  method PutHeader(e: Encoder, d: Descriptor)
    requires e.Valid()
    modifies e, e.wire
    ensures e.Valid() && e.layout == old(e.layout) + [4, 2, 2, 4]
    ensures e.values == old(e.values) + [MAGIC, d.version, WIRE_SIZE, 0]
    ensures e.failed <==> old(e.failed) || old(e.offset) + 12 > e.wire.Length
    ensures !e.failed ==> e.offset == old(e.offset) + 12
  {
    e.Put(MAGIC, 4);
    e.Put(d.version, 2);
    e.Put(WIRE_SIZE, 2);
    e.Put(0, 4);
  }

  method PutProvider(e: Encoder, d: Descriptor)
    requires e.Valid()
    modifies e, e.wire
    ensures e.Valid() && e.layout == old(e.layout) + [1, 1, 2]
    ensures e.values == old(e.values) + [d.providerKind, d.dmaDirection, d.orderingFlags]
    ensures e.failed <==> old(e.failed) || old(e.offset) + 4 > e.wire.Length
    ensures !e.failed ==> e.offset == old(e.offset) + 4
  {
    e.Put(d.providerKind, 1);
    e.Put(d.dmaDirection, 1);
    e.Put(d.orderingFlags, 2);
  }

  method PutOrigin(e: Encoder, d: Descriptor)
    requires e.Valid()
    modifies e, e.wire
    ensures e.Valid() && e.layout == old(e.layout) + [8, 8, 8]
    ensures e.values == old(e.values) + [d.origin.word0, d.origin.word1, d.traceCookie]
    ensures e.failed <==> old(e.failed) || old(e.offset) + 24 > e.wire.Length
    ensures !e.failed ==> e.offset == old(e.offset) + 24
  {
    e.Put(d.origin.word0, 8);
    e.Put(d.origin.word1, 8);
    e.Put(d.traceCookie, 8);
  }

  method PutTokens(e: Encoder, d: Descriptor)
    requires e.Valid()
    modifies e, e.wire
    ensures e.Valid() && e.layout == old(e.layout) + [8, 8, 8, 8]
    ensures e.values == old(e.values)
      + [d.providerRequest.word0, d.providerRequest.word1, d.capability.word0, d.capability.word1]
    ensures e.failed <==> old(e.failed) || old(e.offset) + 32 > e.wire.Length
    ensures !e.failed ==> e.offset == old(e.offset) + 32
  {
    e.Put(d.providerRequest.word0, 8);
    e.Put(d.providerRequest.word1, 8);
    e.Put(d.capability.word0, 8);
    e.Put(d.capability.word1, 8);
  }

  method PutTransfer(e: Encoder, d: Descriptor)
    requires e.Valid()
    modifies e, e.wire
    ensures e.Valid() && e.layout == old(e.layout) + [4, 4, 4, 4]
    ensures e.values == old(e.values) + [d.capabilityOffset, d.controllerRegion, d.controllerOffset, d.length]
    ensures e.failed <==> old(e.failed) || old(e.offset) + 16 > e.wire.Length
    ensures !e.failed ==> e.offset == old(e.offset) + 16
  {
    e.Put(d.capabilityOffset, 4);
    e.Put(d.controllerRegion, 4);
    e.Put(d.controllerOffset, 4);
    e.Put(d.length, 4);
  }

  /** Every field at its offset. */
  method PutDescriptor(e: Encoder, d: Descriptor)
    requires e.Valid() && e.layout == [] && e.values == [] && !e.failed && e.offset == 0 && e.wire.Length == WIRE_SIZE
    modifies e, e.wire
    ensures e.Valid() && e.layout == LAYOUT && e.values == Values(d) && !e.failed
  {
    PutHeader(e, d);
    assert e.offset == WIRE_PROVIDER;
    PutProvider(e, d);
    assert e.offset == WIRE_ORIGIN;
    PutOrigin(e, d);
    assert e.offset == WIRE_REQUEST;
    PutTokens(e, d);
    assert e.offset == WIRE_CAPABILITY_OFFSET;
    PutTransfer(e, d);
    assert e.offset == WIRE_RESERVED1;
  }

  method EncodeDescriptor(d: Descriptor, wire: array<Byte>) returns (result: ApiResult)
    modifies wire
    ensures result == if ValidateDescriptor(d) != Ok then ValidateDescriptor(d)
                      else if wire.Length != WIRE_SIZE then InvalidContract else Ok
    ensures wire[..] == if result == Ok then DescriptorWire(d) else old(wire[..])
  {
    result := ValidateDescriptor(d);
    if result != Ok { return; }
    if wire.Length != WIRE_SIZE { return InvalidContract; }
    LayoutTotal();
    var e := new Encoder(wire);
    PutDescriptor(e, d);
  }

  method GetHeader(g: Decoder) returns (v: seq<nat>)
    requires g.Valid()
    modifies g
    ensures |v| == 4 && g.Valid() && g.layout == old(g.layout) + [4, 2, 2, 4] && g.values == old(g.values) + v
    ensures g.failed <==> old(g.failed) || old(g.offset) + 12 > g.wire.Length
    ensures !g.failed ==> g.offset == old(g.offset) + 12
  {
    var magic := g.Get(4);
    var version := g.Get(2);
    var size := g.Get(2);
    var reserved0 := g.Get(4);
    v := [magic, version, size, reserved0];
  }

  method GetProvider(g: Decoder) returns (v: seq<nat>)
    requires g.Valid()
    modifies g
    ensures |v| == 3 && g.Valid() && g.layout == old(g.layout) + [1, 1, 2] && g.values == old(g.values) + v
    ensures g.failed <==> old(g.failed) || old(g.offset) + 4 > g.wire.Length
    ensures !g.failed ==> g.offset == old(g.offset) + 4
  {
    var kind := g.Get(1);
    var direction := g.Get(1);
    var ordering := g.Get(2);
    v := [kind, direction, ordering];
  }

  method GetOrigin(g: Decoder) returns (v: seq<nat>)
    requires g.Valid()
    modifies g
    ensures |v| == 3 && g.Valid() && g.layout == old(g.layout) + [8, 8, 8] && g.values == old(g.values) + v
    ensures g.failed <==> old(g.failed) || old(g.offset) + 24 > g.wire.Length
    ensures !g.failed ==> g.offset == old(g.offset) + 24
  {
    var origin0 := g.Get(8);
    var origin1 := g.Get(8);
    var cookie := g.Get(8);
    v := [origin0, origin1, cookie];
  }

  method GetTokens(g: Decoder) returns (v: seq<nat>)
    requires g.Valid()
    modifies g
    ensures |v| == 4 && g.Valid() && g.layout == old(g.layout) + [8, 8, 8, 8] && g.values == old(g.values) + v
    ensures g.failed <==> old(g.failed) || old(g.offset) + 32 > g.wire.Length
    ensures !g.failed ==> g.offset == old(g.offset) + 32
  {
    var request0 := g.Get(8);
    var request1 := g.Get(8);
    var capability0 := g.Get(8);
    var capability1 := g.Get(8);
    v := [request0, request1, capability0, capability1];
  }

  method GetTransfer(g: Decoder) returns (v: seq<nat>)
    requires g.Valid()
    modifies g
    ensures |v| == 4 && g.Valid() && g.layout == old(g.layout) + [4, 4, 4, 4] && g.values == old(g.values) + v
    ensures g.failed <==> old(g.failed) || old(g.offset) + 16 > g.wire.Length
    ensures !g.failed ==> g.offset == old(g.offset) + 16
  {
    var offset := g.Get(4);
    var region := g.Get(4);
    var controllerOffset := g.Get(4);
    var length := g.Get(4);
    v := [offset, region, controllerOffset, length];
  }

  method GetDescriptor(g: Decoder) returns (v: seq<nat>)
    requires g.Valid() && g.layout == [] && g.values == [] && !g.failed && g.offset == 0 && g.wire.Length == WIRE_SIZE
    modifies g
    ensures g.Valid() && g.layout == LAYOUT && g.values == v && !g.failed
  {
    var header := GetHeader(g);
    var provider := GetProvider(g);
    var origin := GetOrigin(g);
    var tokens := GetTokens(g);
    var transfer := GetTransfer(g);
    v := header + provider + origin + tokens + transfer;
  }

  method DecodeDescriptor(wire: array<Byte>) returns (result: Decoded)
    ensures result == DescriptorRead(wire[..])
  {
    LayoutTotal();
    if wire.Length != WIRE_SIZE { return Refused(InvalidContract); }
    var g := new Decoder(wire);
    var v := GetDescriptor(g);
    var padded := g.PaddingZero();
    assert wire[..][WIRE_RESERVED1..] == wire[WIRE_RESERVED1..];
    var refusal := HeaderRefusal(v, padded);
    if refusal != Ok { return Refused(refusal); }
    var d := DescriptorOf(v);
    if ValidateDescriptor(d) != Ok { return Refused(ValidateDescriptor(d)); }
    return Decoded(d);
  }
}
