/**
 The byte-fold hash of the controller: exclusive or with a byte, then multiplication by an odd
 constant modulo 2^64.  It makes payload digests and the words that select injected faults.
 */
module NfcFault {
  import opened Bytes
  import opened NfcTypes

  const OFFSET: nat := 1469598103934665603
  const PRIME: nat := 1099511628211

  // The constant's inverse modulo 2^64.
  const INVERSE: nat := 14886173955864302971
  const INVERSE_CARRY: nat := 887285111055

  // ---------------------------------------------------------------- the fold

  function Scramble(x: nat): (r: nat)
    ensures r < U64
  {
    (x * PRIME) % U64
  }

  function Fold(hash: nat, b: Byte): (r: nat)
    ensures r < U64
  {
    Scramble(Xor64(hash, b))
  }

  function HashFrom(hash: nat, bytes: seq<Byte>): (r: nat)
    ensures hash < U64 ==> r < U64
  {
    if bytes == [] then hash else Fold(HashFrom(hash, bytes[..|bytes| - 1]), bytes[|bytes| - 1])
  }

  function Hash(bytes: seq<Byte>): (r: nat)
    ensures r < U64
  {
    HashFrom(OFFSET, bytes)
  }

  lemma WordRange()
    ensures Pow2(64) == U64 && Pow256(8) == U64
  {
    assert Pow2(4) == 16;
    Pow2Sum(4, 4);
    Pow2Sum(8, 8);
    Pow2Sum(16, 16);
    Pow2Sum(32, 32);
    assert Pow256(4) == 0x1_0000_0000;
  }

  function Unscramble(y: nat): (r: nat)
    ensures r < U64
  {
    (y * INVERSE) % U64
  }

  /** Multiplying by the odd constant loses nothing: its inverse undoes it. */
  lemma ScrambleInverts(x: nat)
    requires x < U64
    ensures Unscramble(Scramble(x)) == x
  {
    var q, r := x * PRIME / U64, Scramble(x);
    var k := x * INVERSE_CARRY - q * INVERSE;
    assert r * INVERSE == x * (PRIME * INVERSE) - q * U64 * INVERSE;
    assert PRIME * INVERSE == 1 + INVERSE_CARRY * U64;
    assert r * INVERSE == k * U64 + x;
    UniqueRemainder(r * INVERSE, U64, k, x);
  }

  /** One step is injective in the running hash. */
  lemma FoldHashInjective(h: nat, g: nat, b: Byte)
    requires h < U64 && g < U64 && h != g
    ensures Fold(h, b) != Fold(g, b)
  {
    WordRange();
    XorInjective(h, g, b, 64);
    ScrambleInverts(Xor64(h, b));
    ScrambleInverts(Xor64(g, b));
  }

  /** One step is injective in the byte. */
  lemma FoldByteInjective(h: nat, a: Byte, b: Byte)
    requires a != b
    ensures Fold(h, a) != Fold(h, b)
  {
    WordRange();
    XorInjective(a, b, h, 64);
    ScrambleInverts(Xor64(h, a));
    ScrambleInverts(Xor64(h, b));
  }

  lemma {:induction false} HashFromInjective(h: nat, g: nat, bytes: seq<Byte>)
    requires h < U64 && g < U64 && h != g
    ensures HashFrom(h, bytes) != HashFrom(g, bytes)
  {
    if bytes != [] {
      var init := bytes[..|bytes| - 1];
      HashFromInjective(h, g, init);
      FoldHashInjective(HashFrom(h, init), HashFrom(g, init), bytes[|bytes| - 1]);
    }
  }

  lemma {:induction false} HashFromAppend(h: nat, a: seq<Byte>, b: seq<Byte>)
    ensures HashFrom(h, a + b) == HashFrom(HashFrom(h, a), b)
  {
    if b == [] {
      assert a + b == a;
    } else {
      assert (a + b)[..|a + b| - 1] == a + b[..|b| - 1];
      HashFromAppend(h, a, b[..|b| - 1]);
    }
  }

  /** The two strings differ at position `k` and nowhere else. */
  ghost predicate DifferOnlyAt(u: seq<Byte>, v: seq<Byte>, k: nat)
  {
    && |u| == |v| && k < |u| && u[k] != v[k]
    && forall j :: 0 <= j < |u| && j != k ==> u[j] == v[j]
  }

  /** Changing one byte always changes the hash. */
  lemma {:induction false} OneByteChangesHash(h: nat, u: seq<Byte>, v: seq<Byte>, k: nat)
    requires h < U64 && DifferOnlyAt(u, v, k)
    ensures HashFrom(h, u) != HashFrom(h, v)
  {
    var n := |u| - 1;
    if k == n {
      assert u[..n] == v[..n];
      FoldByteInjective(HashFrom(h, u[..n]), u[n], v[n]);
    } else {
      OneByteChangesHash(h, u[..n], v[..n], k);
      FoldHashInjective(HashFrom(h, u[..n]), HashFrom(h, v[..n]), u[n]);
    }
  }

  /** The hash of a buffer; a missing buffer of positive length hashes to zero. */
  method HashBytes(bytes: array?<Byte>, length: nat) returns (hash: nat)
    requires bytes != null ==> length <= bytes.Length
    ensures hash == if bytes == null && length != 0 then 0
                    else Hash(if bytes == null then [] else bytes[..length])
  {
    hash := OFFSET;
    if bytes == null { if length != 0 { hash := 0; } return; }
    var index := 0;
    while index < length
      invariant index <= length
      invariant hash == Hash(bytes[..index])
    {
      assert bytes[..index + 1][..index] == bytes[..index];
      hash := Xor64(hash, bytes[index]);
      hash := (hash * PRIME) % U64;
      index := index + 1;
    }
  }

  // ---------------------------------------------------------------- payload digests

  /** The digest a program or read reports: the main bytes, and the out-of-band bytes when selected. */
  function PayloadDigest(page: Page, mask: nat): (r: nat)
    ensures r < U64
  {
    if OobSelected(mask) then
      WordRange();
      Xor64(Hash(page.main), Hash(LittleEndian(Hash(page.oob), 8)))
    else Hash(page.main)
  }

  /** Pages whose main bytes differ in one place never share a digest. */
  lemma DigestSeparates(p: Page, q: Page, mask: nat, k: nat)
    requires p.oob == q.oob && DifferOnlyAt(p.main, q.main, k)
    ensures PayloadDigest(p, mask) != PayloadDigest(q, mask)
  {
    OneByteChangesHash(OFFSET, p.main, q.main, k);
    WordRange();
    XorInjective(Hash(p.main), Hash(q.main), Hash(LittleEndian(Hash(p.oob), 8)), 64);
  }

  /** With the out-of-band region selected, digests of pages with the same main bytes agree only
      when the digests of the out-of-band hashes do. */
  lemma DigestOfOob(p: Page, q: Page, mask: nat)
    requires p.main == q.main && OobSelected(mask)
    ensures PayloadDigest(p, mask) == PayloadDigest(q, mask)
            <==> Hash(LittleEndian(Hash(p.oob), 8)) == Hash(LittleEndian(Hash(q.oob), 8))
  {
    WordRange();
    var a, b := Hash(LittleEndian(Hash(p.oob), 8)), Hash(LittleEndian(Hash(q.oob), 8));
    if a != b { XorInjective(a, b, Hash(p.main), 64); }
  }

  // ---------------------------------------------------------------- fault words

  /** The bytes of a list of 64-bit fields, in order, each lowest byte first. */
  function FieldBytes(fields: seq<nat>): (b: seq<Byte>)
    ensures |b| == 8 * |fields|
  {
    if fields == [] then [] else FieldBytes(fields[..|fields| - 1]) + LittleEndian(fields[|fields| - 1], 8)
  }

  /** The fields that select an injected fault, in the order they are mixed. */
  function FaultFields(
    seed: nat, profileVersion: nat, nonce: nat, submitSequence: nat, r: Request,
    eraseGeneration: nat, programCount: nat, readOrdinal: nat): (f: seq<nat>)
    ensures |f| == 18
  {
    [seed, profileVersion, nonce, submitSequence, r.operation.operationUid, r.operation.generation, r.kind,
     r.ppa.channel, r.ppa.lun, r.ppa.plane, r.ppa.block, r.ppa.page,
     eraseGeneration, programCount, readOrdinal, r.retryStep, r.cookie, r.faultTag]
  }

  method MixU64(hash0: nat, value: nat) returns (hash: nat)
    ensures hash == HashFrom(hash0, LittleEndian(value, 8))
  {
    hash := hash0;
    ghost var bytes := LittleEndian(value, 8);
    for byte := 0 to 8
      invariant hash == HashFrom(hash0, bytes[..byte])
    {
      assert bytes[..byte + 1][..byte] == bytes[..byte];
      LittleEndianAt(value, 8, byte);
      hash := Xor64(hash, (value / Pow256(byte)) % 256);
      hash := (hash * PRIME) % U64;
    }
    assert bytes[..8] == bytes;
  }

  /** The fault word: the hash of the bytes of its fields. */
  method FaultWord(
    seed: nat, profileVersion: nat, nonce: nat, submitSequence: nat, r: Request,
    eraseGeneration: nat, programCount: nat, readOrdinal: nat) returns (hash: nat)
    ensures hash == Hash(FieldBytes(FaultFields(
                      seed, profileVersion, nonce, submitSequence, r, eraseGeneration, programCount, readOrdinal)))
  {
    var fields := FaultFields(seed, profileVersion, nonce, submitSequence, r, eraseGeneration, programCount,
                              readOrdinal);
    hash := OFFSET;
    for k := 0 to |fields|
      invariant hash == Hash(FieldBytes(fields[..k]))
    {
      assert fields[..k + 1][..k] == fields[..k];
      HashFromAppend(OFFSET, FieldBytes(fields[..k]), LittleEndian(fields[k], 8));
      hash := MixU64(hash, fields[k]);
    }
    assert fields[..|fields|] == fields;
  }

  lemma {:induction false} FieldBytesDiffer(f: seq<nat>, g: seq<nat>, k: nat, j: nat)
    requires |f| == |g| && k < |f| && j < 8
    requires forall i :: 0 <= i < |f| && i != k ==> f[i] == g[i]
    requires DifferOnlyAt(LittleEndian(f[k], 8), LittleEndian(g[k], 8), j)
    ensures DifferOnlyAt(FieldBytes(f), FieldBytes(g), 8 * k + j)
  {
    var n := |f| - 1;
    if k < n { FieldBytesDiffer(f[..n], g[..n], k, j); } else { assert f[..n] == g[..n]; }
  }

  /** Changing one byte of one field, and nothing else, always changes the fault word. */
  lemma FaultWordSeparates(f: seq<nat>, g: seq<nat>, k: nat, j: nat)
    requires |f| == |g| && k < |f| && j < 8
    requires forall i :: 0 <= i < |f| && i != k ==> f[i] == g[i]
    requires DifferOnlyAt(LittleEndian(f[k], 8), LittleEndian(g[k], 8), j)
    ensures Hash(FieldBytes(f)) != Hash(FieldBytes(g))
  {
    FieldBytesDiffer(f, g, k, j);
    OneByteChangesHash(OFFSET, FieldBytes(f), FieldBytes(g), 8 * k + j);
  }

  /** A field that fits one byte changes the word whenever it changes. */
  lemma NarrowFieldSeparates(f: seq<nat>, k: nat, value: nat)
    requires k < |f| && f[k] < 256 && value < 256 && value != f[k]
    ensures Hash(FieldBytes(f)) != Hash(FieldBytes(f[k := value]))
  {
    var g := f[k := value];
    NarrowBytes(f[k], 8);
    NarrowBytes(value, 8);
    FaultWordSeparates(f, g, k, 0);
  }

  lemma {:induction false} NarrowBytes(value: nat, width: nat)
    requires value < 256 && width > 0
    ensures LittleEndian(value, width)[0] == value
    ensures forall j :: 0 < j < width ==> LittleEndian(value, width)[j] == 0
  {
    assert value / 256 == 0;
    if width > 1 { NarrowBytes(0, width - 1); }
  }
}
