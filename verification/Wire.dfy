/**
 Fixed-width records on the wire: fields in order, each lowest byte first, then zero padding.
 A layout lists the widths of the fields; the cursors below write and read one field at a time.
 */
module Wire {
  import opened Bytes

  function Total(layout: seq<nat>): (n: nat)
  {
    if layout == [] then 0 else Total(layout[..|layout| - 1]) + layout[|layout| - 1]
  }

  /** Every value fits the width of its field. */
  predicate Fits(layout: seq<nat>, values: seq<nat>)
  {
    && |values| == |layout|
    && (layout == []
        || (var n := |layout| - 1; Fits(layout[..n], values[..n]) && FitsField(layout[n], values[n])))
  }

  predicate FitsField(width: nat, value: nat) { value < Pow256(width) }

  function Pack(layout: seq<nat>, values: seq<nat>): (b: seq<Byte>)
    requires |values| == |layout|
    ensures |b| == Total(layout)
  {
    if layout == [] then []
    else
      var n := |layout| - 1;
      Pack(layout[..n], values[..n]) + LittleEndian(values[n], layout[n])
  }

  function Unpack(layout: seq<nat>, bytes: seq<Byte>): (values: seq<nat>)
    requires Total(layout) <= |bytes|
    ensures |values| == |layout|
  {
    if layout == [] then []
    else
      var n := |layout| - 1;
      Unpack(layout[..n], bytes) + [FieldAt(bytes, Total(layout[..n]), layout[n])]
  }

  function FieldAt(bytes: seq<Byte>, start: nat, width: nat): (value: nat)
    requires start + width <= |bytes|
  {
    Number(bytes[start..start + width])
  }

  function Zeros(n: nat): (b: seq<Byte>)
    ensures |b| == n && forall k :: 0 <= k < n ==> b[k] == 0
  {
    seq(n, _ => 0)
  }

  // ---------------------------------------------------------------- packing and unpacking are inverse

  lemma NumberOfField(width: nat, value: nat)
    requires FitsField(width, value)
    ensures Number(LittleEndian(value, width)) == value
  {
    NumberOfBytes(value, width);
  }

  lemma FieldOfNumber(b: seq<Byte>)
    ensures FitsField(|b|, Number(b)) && LittleEndian(Number(b), |b|) == b
  {
    NumberBelow(b);
    BytesOfNumber(b);
  }

  /** The field between two stretches of bytes. */
  lemma FieldBetween(front: seq<Byte>, value: nat, width: nat, rest: seq<Byte>)
    requires FitsField(width, value)
    ensures FieldAt(front + LittleEndian(value, width) + rest, |front|, width) == value
  {
    var last := LittleEndian(value, width);
    assert (front + last + rest)[|front|..|front| + width] == last;
    NumberOfField(width, value);
  }

  lemma FieldAfter(bytes: seq<Byte>, start: nat, width: nat)
    requires start + width <= |bytes|
    ensures FitsField(width, FieldAt(bytes, start, width))
    ensures bytes[..start] + LittleEndian(FieldAt(bytes, start, width), width) == bytes[..start + width]
  {
    FieldOfNumber(bytes[start..start + width]);
    assert bytes[..start] + bytes[start..start + width] == bytes[..start + width];
  }

  lemma {:induction false} UnpackPack(layout: seq<nat>, values: seq<nat>, rest: seq<Byte>)
    requires Fits(layout, values)
    ensures Unpack(layout, Pack(layout, values) + rest) == values
  {
    if layout != [] {
      var n := |layout| - 1;
      var front, last := Pack(layout[..n], values[..n]), LittleEndian(values[n], layout[n]);
      UnpackPack(layout[..n], values[..n], last + rest);
      FieldBetween(front, values[n], layout[n], rest);
      assert front + (last + rest) == front + last + rest;
      assert Unpack(layout, front + last + rest) == values[..n] + [values[n]];
    }
  }

  lemma {:induction false} PackUnpack(layout: seq<nat>, bytes: seq<Byte>)
    requires Total(layout) <= |bytes|
    ensures Fits(layout, Unpack(layout, bytes))
    ensures Pack(layout, Unpack(layout, bytes)) == bytes[..Total(layout)]
  {
    if layout != [] {
      var n := |layout| - 1;
      var start := Total(layout[..n]);
      var front, value := Unpack(layout[..n], bytes), FieldAt(bytes, start, layout[n]);
      PackUnpack(layout[..n], bytes);
      FieldAfter(bytes, start, layout[n]);
      assert (front + [value])[..n] == front && (front + [value])[n] == value;
    }
  }

  lemma PackOnward(layout: seq<nat>, values: seq<nat>, width: nat, value: nat)
    requires |values| == |layout|
    ensures Total(layout + [width]) == Total(layout) + width
    ensures Pack(layout + [width], values + [value]) == Pack(layout, values) + LittleEndian(value, width)
  {
    assert (layout + [width])[..|layout|] == layout && (values + [value])[..|values|] == values;
  }

  lemma UnpackOnward(layout: seq<nat>, width: nat, bytes: seq<Byte>)
    requires Total(layout) + width <= |bytes|
    ensures Total(layout + [width]) == Total(layout) + width
    ensures Unpack(layout + [width], bytes)
         == Unpack(layout, bytes) + [FieldAt(bytes, Total(layout), width)]
  {
    var longer := layout + [width];
    assert longer[..|longer| - 1] == layout && longer[|longer| - 1] == width;
  }

  // ---------------------------------------------------------------- sizes of short layouts

  lemma {:induction false} TotalAppend(a: seq<nat>, b: seq<nat>)
    ensures Total(a + b) == Total(a) + Total(b)
  {
    if b == [] {
      assert a + b == a;
    } else {
      assert (a + b)[..|a + b| - 1] == a + b[..|b| - 1];
      TotalAppend(a, b[..|b| - 1]);
    }
  }

  lemma TotalOne(a: nat)
    ensures Total([a]) == a
  {
    assert [a][..0] == [];
  }

  lemma TotalTwo(a: nat, b: nat)
    ensures Total([a, b]) == a + b
  {
    TotalOne(a);
    assert [a, b][..1] == [a];
  }

  lemma TotalFour(a: nat, b: nat, c: nat, d: nat)
    ensures Total([a, b, c, d]) == a + b + c + d
  {
    TotalTwo(a, b);
    TotalTwo(c, d);
    TotalAppend([a, b], [c, d]);
    assert [a, b] + [c, d] == [a, b, c, d];
  }

  lemma TotalSix(a: nat, b: nat, c: nat, d: nat, e: nat, f: nat)
    ensures Total([a, b, c, d, e, f]) == a + b + c + d + e + f
  {
    TotalFour(a, b, c, d);
    TotalTwo(e, f);
    TotalAppend([a, b, c, d], [e, f]);
    assert [a, b, c, d] + [e, f] == [a, b, c, d, e, f];
  }

  lemma TotalSeven(a: nat, b: nat, c: nat, d: nat, e: nat, f: nat, g: nat)
    ensures Total([a, b, c, d, e, f, g]) == a + b + c + d + e + f + g
  {
    TotalSix(a, b, c, d, e, f);
    TotalOne(g);
    TotalAppend([a, b, c, d, e, f], [g]);
    assert [a, b, c, d, e, f] + [g] == [a, b, c, d, e, f, g];
  }

  // ---------------------------------------------------------------- frames

  /** The record in a wire buffer of the given size. */
  function Frame(layout: seq<nat>, values: seq<nat>, size: nat): (b: seq<Byte>)
    requires |values| == |layout| && Total(layout) <= size
    ensures |b| == size
  {
    Pack(layout, values) + Zeros(size - Total(layout))
  }

  /** The values in a wire buffer; none when the padding is not zero. */
  function Unframe(layout: seq<nat>, wire: seq<Byte>): (values: seq<nat>)
    ensures values == [] || |values| == |layout|
  {
    if Total(layout) <= |wire| && wire[Total(layout)..] == Zeros(|wire| - Total(layout)) then Unpack(layout, wire)
    else []
  }

  lemma UnframeFrame(layout: seq<nat>, values: seq<nat>, size: nat)
    requires Fits(layout, values) && Total(layout) <= size
    ensures Unframe(layout, Frame(layout, values, size)) == values
  {
    UnpackPack(layout, values, Zeros(size - Total(layout)));
  }

  lemma FrameUnframe(layout: seq<nat>, wire: seq<Byte>)
    requires layout != [] && Unframe(layout, wire) != []
    ensures Total(layout) <= |wire| && Fits(layout, Unframe(layout, wire))
    ensures Frame(layout, Unframe(layout, wire), |wire|) == wire
  {
    PackUnpack(layout, wire);
    assert wire == wire[..Total(layout)] + wire[Total(layout)..];
  }

  // ---------------------------------------------------------------- the write cursor

  class Encoder {
    const wire: array<Byte>
    var offset: nat
    var failed: bool
    ghost var layout: seq<nat>
    ghost var values: seq<nat>

    /** What was put so far stands at the front, and zeros behind it, unless a put did not fit. */
    ghost predicate Valid()
      reads this, wire
    {
      && offset <= wire.Length && |values| == |layout|
      && (!failed ==> offset == Total(layout) && wire[..] == Pack(layout, values) + Zeros(wire.Length - offset))
    }

    /** Clears the buffer and starts at its front. */
    constructor (wire: array<Byte>)
      modifies wire
      ensures this.wire == wire && Valid() && !failed && offset == 0 && layout == [] && values == []
    {
      this.wire, offset, failed := wire, 0, false;
      layout, values := [], [];
      new;
      for i := 0 to wire.Length
        modifies wire
        invariant forall j :: 0 <= j < i ==> wire[j] == 0
      {
        wire[i] := 0;
      }
      assert wire[..] == Zeros(wire.Length);
    }

    /** One byte, or a failure that sticks. */
    method PutByte(value: Byte)
      requires offset <= wire.Length
      modifies this`offset, this`failed, wire
      ensures offset <= wire.Length && (old(failed) ==> failed)
      ensures old(offset) < wire.Length ==>
                && offset == old(offset) + 1 && failed == old(failed)
                && wire[..] == old(wire[..])[old(offset) := value]
      ensures old(offset) >= wire.Length ==> failed && offset == old(offset)
    {
      if offset >= wire.Length {
        failed := true;
        return;
      }
      wire[offset] := value;
      offset := offset + 1;
    }

    /** The bytes of a value, lowest first, one after the other. */
    method PutBytes(value: nat, width: nat)
      requires offset <= wire.Length
      modifies this`offset, this`failed, wire
      ensures offset <= wire.Length && (old(failed) ==> failed)
      ensures old(offset) + width <= wire.Length ==>
                && offset == old(offset) + width && failed == old(failed)
                && wire[..] == old(wire[..offset]) + LittleEndian(value, width) + old(wire[..])[old(offset) + width..]
      ensures old(offset) + width > wire.Length ==> failed
      decreases width
    {
      if width == 0 {
        assert wire[..] == wire[..offset] + [] + wire[..][offset..];
        return;
      }
      PutByte(value % 256);
      PutBytes(value / 256, width - 1);
    }

    method Put(value: nat, width: nat)
      requires Valid()
      modifies this, wire
      ensures Valid() && layout == old(layout) + [width] && values == old(values) + [value]
      ensures failed <==> old(failed) || old(offset) + width > wire.Length
      ensures !failed ==> offset == old(offset) + width
    {
      PackOnward(layout, values, width, value);
      PutBytes(value, width);
      layout, values := layout + [width], values + [value];
    }
  }

  // ---------------------------------------------------------------- the read cursor

  class Decoder {
    const wire: array<Byte>
    var offset: nat
    var failed: bool
    ghost var layout: seq<nat>
    ghost var values: seq<nat>

    /** What was read so far is what stands at the front, unless a read ran past the end. */
    ghost predicate Valid()
      reads this, wire
    {
      && offset <= wire.Length && |values| == |layout|
      && (!failed ==> offset == Total(layout) && values == Unpack(layout, wire[..]))
    }

    constructor (wire: array<Byte>)
      ensures this.wire == wire && Valid() && !failed && offset == 0 && layout == [] && values == []
    {
      this.wire, offset, failed := wire, 0, false;
      layout, values := [], [];
    }

    method GetByte() returns (value: Byte)
      requires offset <= wire.Length
      modifies this`offset, this`failed
      ensures offset <= wire.Length && (old(failed) ==> failed)
      ensures old(offset) < wire.Length ==>
                offset == old(offset) + 1 && failed == old(failed) && value == wire[old(offset)]
      ensures old(offset) >= wire.Length ==> failed && offset == old(offset)
    {
      if offset >= wire.Length {
        failed := true;
        return 0;
      }
      value := wire[offset];
      offset := offset + 1;
    }

    method GetBytes(width: nat) returns (value: nat)
      requires offset <= wire.Length
      modifies this`offset, this`failed
      ensures offset <= wire.Length && (old(failed) ==> failed)
      ensures old(offset) + width <= wire.Length ==>
                && offset == old(offset) + width && failed == old(failed)
                && value == Number(wire[old(offset)..old(offset) + width])
      ensures old(offset) + width > wire.Length ==> failed
      decreases width
    {
      if width == 0 { return 0; }
      var low := GetByte();
      ghost var at := offset;
      var high := GetBytes(width - 1);
      value := low + 256 * high;
    }

    method Get(width: nat) returns (value: nat)
      requires Valid()
      modifies this
      ensures Valid() && layout == old(layout) + [width] && values == old(values) + [value]
      ensures failed <==> old(failed) || old(offset) + width > wire.Length
      ensures !failed ==> offset == old(offset) + width
    {
      value := GetBytes(width);
      if !failed {
        UnpackOnward(layout, width, wire[..]);
        assert wire[..][old(offset)..offset] == wire[old(offset)..offset];
      }
      layout, values := layout + [width], values + [value];
    }

    /** Whether everything behind the cursor is zero. */
    method PaddingZero() returns (ok: bool)
      requires Valid()
      ensures ok <==> !failed && wire[offset..] == Zeros(wire.Length - offset)
    {
      if failed { return false; }
      for i := offset to wire.Length
        invariant forall j :: offset <= j < i ==> wire[j] == 0
      {
        if wire[i] != 0 {
          assert wire[offset..][i - offset] != 0;
          return false;
        }
      }
      return true;
    }
  }
}
