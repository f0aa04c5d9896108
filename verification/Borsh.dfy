/** Little-endian integers and the Borsh encodings of the values that are hashed. */
module Borsh {
  import opened Numbers

  type Bytes = seq<u8>

  function Pow256(k: nat): (r: nat)
    ensures r > 0
  {
    if k == 0 then 1 else 256 * Pow256(k - 1)
  }

  /** The low `k` bytes of `n`, lowest first. */
  function LittleEndian(n: nat, k: nat): (r: Bytes)
    ensures |r| == k
    decreases k
  {
    if k == 0 then [] else [n % 256] + LittleEndian(n / 256, k - 1)
  }

  function FromLittleEndian(b: Bytes): (n: nat) {
    if b == [] then 0 else b[0] + 256 * FromLittleEndian(b[1..])
  }

  lemma {:induction false} ReadBack(n: nat, k: nat)
    requires n < Pow256(k)
    ensures FromLittleEndian(LittleEndian(n, k)) == n
    decreases k
  {
    if k > 0 {
      ReadBack(n / 256, k - 1);
      assert LittleEndian(n, k)[1..] == LittleEndian(n / 256, k - 1);
    }
  }

  lemma {:induction false} WriteBack(b: Bytes)
    ensures FromLittleEndian(b) < Pow256(|b|)
    ensures LittleEndian(FromLittleEndian(b), |b|) == b
  {
    if b != [] {
      WriteBack(b[1..]);
      var rest := FromLittleEndian(b[1..]);
      assert (b[0] + 256 * rest) % 256 == b[0] && (b[0] + 256 * rest) / 256 == rest;
    }
  }

  lemma Widths()
    ensures Pow256(1) == 0x100 && Pow256(2) == 0x1_0000 && Pow256(4) == 0x1_0000_0000
    ensures Pow256(8) == 0x1_0000_0000_0000_0000
  {
    assert Pow256(2) == 256 * Pow256(1);
    assert Pow256(4) == 256 * Pow256(3) && Pow256(3) == 256 * Pow256(2);
    assert Pow256(8) == 256 * Pow256(7) && Pow256(7) == 256 * Pow256(6);
    assert Pow256(6) == 256 * Pow256(5) && Pow256(5) == 256 * Pow256(4);
  }

  /** Two's complement in `k` bytes. */
  function Signed(x: int, k: nat): (r: Bytes)
    requires 0 < x + Pow256(k)
    ensures |r| == k
  {
    LittleEndian(if x < 0 then x + Pow256(k) else x, k)
  }

  function U32(x: u32): (r: Bytes) ensures |r| == 4 { LittleEndian(x, 4) }
  function I32(x: i32): (r: Bytes) ensures |r| == 4 { Widths(); Signed(x, 4) }
  function I64(x: i64): (r: Bytes) ensures |r| == 8 { Widths(); Signed(x, 8) }

  lemma U32Injective(x: u32, y: u32)
    requires U32(x) == U32(y)
    ensures x == y
  {
    Widths();
    ReadBack(x, 4);
    ReadBack(y, 4);
  }

  lemma I32Injective(x: i32, y: i32)
    requires I32(x) == I32(y)
    ensures x == y
  {
    Widths();
    ReadBack(if x < 0 then x + Pow256(4) else x, 4);
    ReadBack(if y < 0 then y + Pow256(4) else y, 4);
  }

  lemma I64Injective(x: i64, y: i64)
    requires I64(x) == I64(y)
    ensures x == y
  {
    Widths();
    ReadBack(if x < 0 then x + Pow256(8) else x, 8);
    ReadBack(if y < 0 then y + Pow256(8) else y, 8);
  }

  /** Concatenations whose first parts have one length are equal part by part. */
  lemma SplitEqual<T>(a: seq<T>, x: seq<T>, b: seq<T>, y: seq<T>)
    requires a + x == b + y && |a| == |b|
    ensures a == b && x == y
  {
    assert a == (a + x)[..|a|] && b == (b + y)[..|b|];
    assert x == (a + x)[|a|..] && y == (b + y)[|b|..];
  }

  datatype ScoreStat = ScoreStat(key: u32, value: i32, period: i32)

  function EncodeStat(s: ScoreStat): (r: Bytes)
    ensures |r| == 12
  {
    U32(s.key) + (I32(s.value) + I32(s.period))
  }

  lemma EncodeStatInjective(s: ScoreStat, t: ScoreStat)
    requires EncodeStat(s) == EncodeStat(t)
    ensures s == t
  {
    SplitEqual(U32(s.key), I32(s.value) + I32(s.period), U32(t.key), I32(t.value) + I32(t.period));
    SplitEqual(I32(s.value), I32(s.period), I32(t.value), I32(t.period));
    U32Injective(s.key, t.key);
    I32Injective(s.value, t.value);
    I32Injective(s.period, t.period);
  }

  datatype BatchSummary<D> = BatchSummary(
    fixtureId: i64, updateCount: i32, minTimestamp: i64, maxTimestamp: i64, eventsSubTreeRoot: D)

  /** `digest` gives the bytes of a hash value. */
  function EncodeSummary<D>(digest: D -> Bytes, s: BatchSummary<D>): Bytes {
    I64(s.fixtureId) + (I32(s.updateCount)
                        + (I64(s.minTimestamp) + (I64(s.maxTimestamp) + digest(s.eventsSubTreeRoot))))
  }

  lemma EncodeSummaryInjective<D>(digest: D -> Bytes, s: BatchSummary<D>, t: BatchSummary<D>)
    requires EncodeSummary(digest, s) == EncodeSummary(digest, t)
    ensures s.fixtureId == t.fixtureId && s.updateCount == t.updateCount
    ensures s.minTimestamp == t.minTimestamp && s.maxTimestamp == t.maxTimestamp
    ensures digest(s.eventsSubTreeRoot) == digest(t.eventsSubTreeRoot)
  {
    var s4, t4 := digest(s.eventsSubTreeRoot), digest(t.eventsSubTreeRoot);
    var s3, t3 := I64(s.maxTimestamp) + s4, I64(t.maxTimestamp) + t4;
    var s2, t2 := I64(s.minTimestamp) + s3, I64(t.minTimestamp) + t3;
    var s1, t1 := I32(s.updateCount) + s2, I32(t.updateCount) + t2;
    SplitEqual(I64(s.fixtureId), s1, I64(t.fixtureId), t1);
    SplitEqual(I32(s.updateCount), s2, I32(t.updateCount), t2);
    SplitEqual(I64(s.minTimestamp), s3, I64(t.minTimestamp), t3);
    SplitEqual(I64(s.maxTimestamp), s4, I64(t.maxTimestamp), t4);
    I64Injective(s.fixtureId, t.fixtureId);
    I32Injective(s.updateCount, t.updateCount);
    I64Injective(s.minTimestamp, t.minTimestamp);
    I64Injective(s.maxTimestamp, t.maxTimestamp);
  }
}
