/** Bytes, little-endian words and the exclusive or of words, as the codecs and the hashes use them. */
module Bytes {

  type Byte = b: int | 0 <= b < 256

  function Pow256(n: nat): (p: nat)
    ensures p > 0
  {
    if n == 0 then 1 else 256 * Pow256(n - 1)
  }

  function Pow2(n: nat): (p: nat)
    ensures p > 0
  {
    if n == 0 then 1 else 2 * Pow2(n - 1)
  }

  lemma {:induction false} Pow2Sum(m: nat, n: nat)
    ensures Pow2(m + n) == Pow2(m) * Pow2(n)
  {
    if m > 0 { Pow2Sum(m - 1, n); }
  }

  /** The low `width` bytes of a value, lowest first. */
  function LittleEndian(value: nat, width: nat): (b: seq<Byte>)
    ensures |b| == width
  {
    if width == 0 then [] else [value % 256] + LittleEndian(value / 256, width - 1)
  }

  /** The value whose bytes, lowest first, are `b`. */
  function Number(b: seq<Byte>): (v: nat)
  {
    if b == [] then 0 else b[0] + 256 * Number(b[1..])
  }

  lemma {:induction false} NumberBelow(b: seq<Byte>)
    ensures Number(b) < Pow256(|b|)
  {
    if b != [] { NumberBelow(b[1..]); }
  }

  lemma {:induction false} NumberOfBytes(value: nat, width: nat)
    ensures Number(LittleEndian(value, width)) == value % Pow256(width)
    ensures value < Pow256(width) ==> Number(LittleEndian(value, width)) == value
  {
    if width > 0 {
      NumberOfBytes(value / 256, width - 1);
      assert LittleEndian(value, width)[1..] == LittleEndian(value / 256, width - 1);
      SplitRemainder(value, Pow256(width - 1));
    }
  }

  lemma SplitRemainder(value: nat, p: nat)
    requires p > 0
    ensures value % (256 * p) == value % 256 + 256 * ((value / 256) % p)
    ensures value < 256 * p ==> value / 256 < p
  {
    var q := (value / 256) / p;
    var r := (value / 256) % p;
    assert value == 256 * (q * p + r) + value % 256;
    assert value == q * (256 * p) + (256 * r + value % 256);
    UniqueRemainder(value, 256 * p, q, 256 * r + value % 256);
  }

  lemma UniqueRemainder(a: nat, m: nat, q: nat, r: nat)
    requires m > 0 && r < m && a == q * m + r
    ensures a % m == r && a / m == q
  {
    var d := a / m - q;
    assert a % m - r == -(d * m);
    assert d >= 1 ==> d * m >= m;
    assert d <= -1 ==> d * m + m <= 0;
  }

  lemma {:induction false} BytesOfNumber(b: seq<Byte>)
    ensures LittleEndian(Number(b), |b|) == b
  {
    if b != [] {
      BytesOfNumber(b[1..]);
      UniqueRemainder(Number(b), 256, Number(b[1..]), b[0]);
      assert b == [b[0]] + b[1..];
    }
  }

  lemma {:induction false} LittleEndianAt(value: nat, width: nat, k: nat)
    requires k < width
    ensures LittleEndian(value, width)[k] == (value / Pow256(k)) % 256
  {
    if k > 0 {
      LittleEndianAt(value / 256, width - 1, k - 1);
      DivideTwice(value, Pow256(k - 1));
    }
  }

  lemma DivideTwice(a: nat, n: nat)
    requires n > 0
    ensures (a / 256) / n == a / (256 * n)
  {
    var d := a / 256;
    var q, r := d / n, d % n;
    assert d == q * n + r;
    assert q * (256 * n) == 256 * (q * n);
    UniqueRemainder(a, 256 * n, q, 256 * r + a % 256);
  }

  /** The exclusive or of the low `bits` bits. */
  function Xor(a: nat, b: nat, bits: nat): (r: nat)
    ensures r < Pow2(bits)
  {
    if bits == 0 then 0 else 2 * Xor(a / 2, b / 2, bits - 1) + (if a % 2 != b % 2 then 1 else 0)
  }

  lemma {:induction false} XorCancels(a: nat, b: nat, bits: nat)
    requires a < Pow2(bits)
    ensures Xor(Xor(a, b, bits), b, bits) == a
  {
    if bits > 0 { XorCancels(a / 2, b / 2, bits - 1); }
  }

  lemma {:induction false} XorCommutes(a: nat, b: nat, bits: nat)
    ensures Xor(a, b, bits) == Xor(b, a, bits)
  {
    if bits > 0 { XorCommutes(a / 2, b / 2, bits - 1); }
  }

  /** The exclusive or, with either side fixed, loses nothing of the other. */
  lemma XorInjective(a: nat, b: nat, c: nat, bits: nat)
    requires a < Pow2(bits) && b < Pow2(bits) && a != b
    ensures Xor(a, c, bits) != Xor(b, c, bits)
    ensures Xor(c, a, bits) != Xor(c, b, bits)
  {
    XorCancels(a, c, bits);
    XorCancels(b, c, bits);
    XorCommutes(a, c, bits);
    XorCommutes(b, c, bits);
  }

  /** 64-bit exclusive or. */
  function Xor64(a: nat, b: nat): (r: nat) { Xor(a, b, 64) }
}
