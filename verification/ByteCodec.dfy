/** Bytes, fixed-width numbers, and the order buffers compare in. */
module ByteCodec {
  type Byte = x: int | 0 <= x < 256
  type Bytes = seq<Byte>

  // ----- little-endian numbers

  function Pow256(w: nat): nat {
    if w == 0 then 1 else 256 * Pow256(w - 1)
  }

  /** The `w` low bytes of `n`, lowest first. */
  function LE(n: nat, w: nat): (r: Bytes)
    ensures |r| == w
  {
    if w == 0 then [] else [n % 256] + LE(n / 256, w - 1)
  }

  function FromLE(b: Bytes): nat {
    if b == [] then 0 else b[0] + 256 * FromLE(b[1..])
  }

  lemma {:induction false} FromLEBound(b: Bytes)
    ensures FromLE(b) < Pow256(|b|)
  {
    if b != [] {
      FromLEBound(b[1..]);
    }
  }

  lemma {:induction false} LERoundTrip(n: nat, w: nat)
    requires n < Pow256(w)
    ensures FromLE(LE(n, w)) == n
  {
    if w > 0 {
      LERoundTrip(n / 256, w - 1);
      assert LE(n, w)[1..] == LE(n / 256, w - 1);
    }
  }

  // ----- reading at an offset

  /** The bytes stand at this offset. */
  predicate At(buf: Bytes, o: nat, b: Bytes) {
    o + |b| <= |buf| && buf[o..o + |b|] == b
  }

  lemma AtSplit(buf: Bytes, o: nat, a: Bytes, b: Bytes)
    ensures At(buf, o, a + b) <==> At(buf, o, a) && At(buf, o + |a|, b)
  {
    if At(buf, o, a + b) {
      assert buf[o..o + |a|] == (a + b)[..|a|] == a;
      assert buf[o + |a|..o + |a| + |b|] == (a + b)[|a|..] == b;
    }
    if At(buf, o, a) && At(buf, o + |a|, b) {
      assert buf[o..o + |a| + |b|] == buf[o..o + |a|] + buf[o + |a|..o + |a| + |b|];
    }
  }

  lemma AtFits(buf: Bytes, o: nat, b: Bytes)
    requires At(buf, o, b)
    ensures o + |b| <= |buf| && buf[o..o + |b|] == b
  {
  }

  // ----- numbers byte by byte

  /** Two bytes as a number, the lower one first. */
  function Half(b: Bytes, o: nat): nat
    requires o + 2 <= |b|
  {
    var low: nat, high: nat := b[o], b[o + 1];
    low + 0x100 * high
  }

  /** Four bytes as a number, the lowest one first. */
  function Word(b: Bytes, o: nat): nat
    requires o + 4 <= |b|
  {
    Half(b, o) + 0x1_0000 * Half(b, o + 2)
  }

  lemma FromLEHalf(b: Bytes)
    requires |b| == 2
    ensures FromLE(b) == Half(b, 0)
  {
    var rest := b[1..];
    assert rest[1..] == [] && FromLE(rest[1..]) == 0;
    assert FromLE(rest) == b[1];
  }

  lemma FromLEWord(b: Bytes)
    requires |b| == 4
    ensures FromLE(b) == Word(b, 0)
  {
    FromLEHalf(b[2..]);
    var rest := b[1..];
    assert rest[1..] == b[2..];
    assert FromLE(b) == b[0] + 256 * FromLE(rest) && FromLE(rest) == b[1] + 256 * FromLE(b[2..]);
  }

  lemma FromLELong(b: Bytes, o: nat)
    requires o + 8 <= |b|
    ensures FromLE(b[o..o + 8]) == Word(b, o) + 0x1_0000_0000 * Word(b, o + 4)
  {
    var c := b[o..o + 8];
    FromLEWord(c[4..]);
    FromLEHalf(c[..2]);
    var c1, c2, c3 := c[1..], c[2..], c[3..];
    assert c1[1..] == c2 && c2[1..] == c3 && c3[1..] == c[4..];
    assert FromLE(c) == c[0] + 256 * FromLE(c1) && FromLE(c1) == c[1] + 256 * FromLE(c2);
    assert FromLE(c2) == c[2] + 256 * FromLE(c3) && FromLE(c3) == c[3] + 256 * FromLE(c[4..]);
  }

  /** A written word reads as its number. */
  lemma WordBack(b: Bytes, o: nat, n: nat)
    requires n < 0x1_0000_0000 && o + 4 <= |b| && b[o..o + 4] == LE(n, 4)
    ensures Word(b, o) == n
  {
    assert Pow256(4) == 0x1_0000_0000;
    LERoundTrip(n, 4);
    FromLEWord(b[o..o + 4]);
  }

  // ----- byte order

  function Compare(a: Bytes, b: Bytes): int {
    if a == [] then (if b == [] then 0 else -1)
    else if b == [] then 1
    else if a[0] < b[0] then -1
    else if b[0] < a[0] then 1
    else Compare(a[1..], b[1..])
  }

  lemma {:induction false} CompareTotal(a: Bytes, b: Bytes)
    ensures Compare(a, b) == 0 <==> a == b
    ensures Compare(a, b) == -Compare(b, a)
  {
    if a != [] && b != [] {
      CompareTotal(a[1..], b[1..]);
      assert a == [a[0]] + a[1..] && b == [b[0]] + b[1..];
    }
  }

  lemma {:induction false} CompareTrans(a: Bytes, b: Bytes, c: Bytes)
    requires Compare(a, b) < 0 && Compare(b, c) < 0
    ensures Compare(a, c) < 0
  {
    if a != [] && b != [] && c != [] && a[0] == b[0] == c[0] {
      CompareTrans(a[1..], b[1..], c[1..]);
    }
  }
}
