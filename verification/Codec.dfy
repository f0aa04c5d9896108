/**
 * Borsh over a small schema language, with the space Anchor reserves for a schema.
 * Proved once for every schema: decoding undoes encoding and stops where the encoding
 * stops, the encoding fits the reserved space, and maximum lengths leave no trace in
 * the bytes.
 */
module Codec {
  import opened Wrappers
  import opened Numbers
  import opened Borsh

  datatype Schema =
    | Nothing
    | UInt(width: nat)
    | SInt(width: nat)
    | Raw(size: nat)                        // a fixed array of bytes
    | Pair(first: Schema, second: Schema)   // the next field of a struct, then the others
    | Vec(item: Schema, maxLen: nat)        // `#[max_len(..)]`
    | Enum(cases: seq<Schema>)              // also `bool` and `Option`

  datatype Value =
    | Unit
    | Int(x: int)
    | Blob(bytes: Bytes)
    | Both(first: Value, second: Value)
    | Items(items: seq<Value>)
    | Case(tag: nat, payload: Value)

  /** The values of a schema, whatever its maximum lengths. */
  ghost predicate Fits(s: Schema, v: Value)
    decreases s
  {
    match s
    case Nothing => v == Unit
    case UInt(k) => v.Int? && 0 <= v.x < Pow256(k)
    case SInt(k) => v.Int? && 0 - Pow256(k) <= 2 * v.x < Pow256(k)
    case Raw(n) => v.Blob? && |v.bytes| == n
    case Pair(a, b) => v.Both? && Fits(a, v.first) && Fits(b, v.second)
    case Vec(item, _) =>
      v.Items? && |v.items| < Pow256(4) && forall i :: 0 <= i < |v.items| ==> Fits(item, v.items[i])
    case Enum(cases) => v.Case? && v.tag < |cases| <= 256 && Fits(cases[v.tag], v.payload)
  }

  /** Nor longer anywhere than the maximum lengths allow. */
  ghost predicate WithinMax(s: Schema, v: Value)
    requires Fits(s, v)
    decreases s
  {
    match s
    case Pair(a, b) => WithinMax(a, v.first) && WithinMax(b, v.second)
    case Vec(item, maxLen) =>
      |v.items| <= maxLen && forall i :: 0 <= i < |v.items| ==> WithinMax(item, v.items[i])
    case Enum(cases) => WithinMax(cases[v.tag], v.payload)
    case _ => true
  }

  // --- encoding and decoding ------------------------------------------------------------------

  ghost function Encode(s: Schema, v: Value): Bytes
    requires Fits(s, v)
    decreases s, 0
  {
    match s
    case Nothing => []
    case UInt(k) => LittleEndian(v.x, k)
    case SInt(k) => Signed(v.x, k)
    case Raw(_) => v.bytes
    case Pair(a, b) => Encode(a, v.first) + Encode(b, v.second)
    case Vec(item, _) => LittleEndian(|v.items|, 4) + EncodeItems(item, v.items)
    case Enum(cases) => [v.tag] + Encode(cases[v.tag], v.payload)
  }

  ghost function EncodeItems(item: Schema, vs: seq<Value>): Bytes
    requires forall i :: 0 <= i < |vs| ==> Fits(item, vs[i])
    decreases item, |vs| + 1
  {
    if vs == [] then [] else Encode(item, vs[0]) + EncodeItems(item, vs[1..])
  }

  function Unsigned(b: Bytes, k: nat): Option<(int, Bytes)> {
    if |b| < k then None else Some((FromLittleEndian(b[..k]), b[k..]))
  }

  /** A value read off the front of `b`, and what follows it. */
  function Decode(s: Schema, b: Bytes): Option<(Value, Bytes)>
    decreases s, 0
  {
    match s
    case Nothing => Some((Unit, b))
    case UInt(k) =>
      (match Unsigned(b, k)
       case None => None
       case Some((x, rest)) => Some((Int(x), rest)))
    case SInt(k) =>
      (match Unsigned(b, k)
       case None => None
       case Some((x, rest)) => Some((Int(if 2 * x < Pow256(k) then x else x - Pow256(k)), rest)))
    case Raw(n) => if |b| < n then None else Some((Blob(b[..n]), b[n..]))
    case Pair(first, second) =>
      (match Decode(first, b)
       case None => None
       case Some((x, more)) =>
         match Decode(second, more)
         case None => None
         case Some((y, rest)) => Some((Both(x, y), rest)))
    case Vec(item, _) =>
      (match Unsigned(b, 4)
       case None => None
       case Some((n, more)) =>
         if n < 0 then None
         else
           match DecodeItems(item, n, more)
           case None => None
           case Some((vs, rest)) => Some((Items(vs), rest)))
    case Enum(cases) =>
      if b == [] || b[0] >= |cases| then None
      else
        match Decode(cases[b[0]], b[1..])
        case None => None
        case Some((x, rest)) => Some((Case(b[0], x), rest))
  }

  function DecodeItems(item: Schema, n: nat, b: Bytes): Option<(seq<Value>, Bytes)>
    decreases item, n + 1
  {
    if n == 0 then Some(([], b))
    else
      match Decode(item, b)
      case None => None
      case Some((x, more)) =>
        match DecodeItems(item, n - 1, more)
        case None => None
        case Some((xs, rest)) => Some(([x] + xs, rest))
  }

  // --- decoding undoes encoding ------------------------------------------------------------------

  lemma FrontAndRest(a: Bytes, rest: Bytes)
    ensures (a + rest)[..|a|] == a && (a + rest)[|a|..] == rest
  {
  }

  lemma UnsignedReadsBack(x: nat, k: nat, rest: Bytes)
    requires x < Pow256(k)
    ensures Unsigned(LittleEndian(x, k) + rest, k) == Some((x, rest))
  {
    FrontAndRest(LittleEndian(x, k), rest);
    ReadBack(x, k);
  }

  lemma IntegersRoundTrip(s: Schema, v: Value, rest: Bytes)
    requires (s.UInt? || s.SInt?) && Fits(s, v)
    ensures Decode(s, Encode(s, v) + rest) == Some((v, rest))
  {
    hide LittleEndian, FromLittleEndian, Pow256;
    UnsignedReadsBack(if v.x < 0 then v.x + Pow256(s.width) else v.x, s.width, rest);
  }

  lemma PairRoundTrips(s: Schema, v: Value, rest: Bytes)
    requires s.Pair? && Fits(s, v)
    requires var more := Encode(s.second, v.second) + rest;
             Decode(s.first, Encode(s.first, v.first) + more) == Some((v.first, more))
    requires Decode(s.second, Encode(s.second, v.second) + rest) == Some((v.second, rest))
    ensures Decode(s, Encode(s, v) + rest) == Some((v, rest))
  {
    hide LittleEndian, FromLittleEndian, Pow256;
    var a, b := Encode(s.first, v.first), Encode(s.second, v.second);
    assert a + b + rest == a + (b + rest);
  }

  lemma VecRoundTrips(s: Schema, v: Value, rest: Bytes)
    requires s.Vec? && Fits(s, v)
    requires DecodeItems(s.item, |v.items|, EncodeItems(s.item, v.items) + rest) == Some((v.items, rest))
    ensures Decode(s, Encode(s, v) + rest) == Some((v, rest))
  {
    hide LittleEndian, FromLittleEndian, Pow256, EncodeItems, DecodeItems, Unsigned;
    var n, items := LittleEndian(|v.items|, 4), EncodeItems(s.item, v.items);
    UnsignedReadsBack(|v.items|, 4, items + rest);
    assert n + items + rest == n + (items + rest);
  }

  lemma EnumRoundTrips(s: Schema, v: Value, rest: Bytes)
    requires s.Enum? && Fits(s, v)
    requires Decode(s.cases[v.tag], Encode(s.cases[v.tag], v.payload) + rest) == Some((v.payload, rest))
    ensures Decode(s, Encode(s, v) + rest) == Some((v, rest))
  {
    hide LittleEndian, FromLittleEndian, Pow256;
    var tag: Bytes := [v.tag];
    var payload := Encode(s.cases[v.tag], v.payload);
    assert (tag + payload + rest)[1..] == payload + rest;
  }

  /** Decoding gives the value back and stops exactly where its encoding stops. */
  lemma {:induction false} RoundTrip(s: Schema, v: Value, rest: Bytes)
    requires Fits(s, v)
    ensures Decode(s, Encode(s, v) + rest) == Some((v, rest))
    decreases s, 0
  {
    hide Encode, Decode;
    match s
    case Nothing => EmptyRoundTrips(s, v, rest);
    case Raw(_) => EmptyRoundTrips(s, v, rest);
    case UInt(_) => IntegersRoundTrip(s, v, rest);
    case SInt(_) => IntegersRoundTrip(s, v, rest);
    case Pair(a, b) =>
      RoundTrip(a, v.first, Encode(b, v.second) + rest);
      RoundTrip(b, v.second, rest);
      PairRoundTrips(s, v, rest);
    case Vec(item, _) =>
      ItemsRoundTrip(item, v.items, rest);
      VecRoundTrips(s, v, rest);
    case Enum(cases) =>
      RoundTrip(cases[v.tag], v.payload, rest);
      EnumRoundTrips(s, v, rest);
  }

  lemma EmptyRoundTrips(s: Schema, v: Value, rest: Bytes)
    requires (s.Nothing? || s.Raw?) && Fits(s, v)
    ensures Decode(s, Encode(s, v) + rest) == Some((v, rest))
  {
    var b := Encode(s, v);
    FrontAndRest(b, rest);
    assert s.Nothing? ==> b + rest == rest;
  }

  lemma {:induction false} ItemsRoundTrip(item: Schema, vs: seq<Value>, rest: Bytes)
    requires forall i :: 0 <= i < |vs| ==> Fits(item, vs[i])
    ensures DecodeItems(item, |vs|, EncodeItems(item, vs) + rest) == Some((vs, rest))
    decreases item, |vs| + 1
  {
    hide Encode, Decode, Fits;
    if vs == [] {
      assert EncodeItems(item, vs) + rest == rest;
    } else {
      var head, tail := Encode(item, vs[0]), EncodeItems(item, vs[1..]);
      RoundTrip(item, vs[0], tail + rest);
      ItemsRoundTrip(item, vs[1..], rest);
      assert head + tail + rest == head + (tail + rest);
      assert [vs[0]] + vs[1..] == vs;
    }
  }

  // --- reserved space -----------------------------------------------------------------------------

  /** Anchor's `InitSpace`. */
  function InitSpace(s: Schema): nat
    decreases s, 1, 0
  {
    match s
    case Nothing => 0
    case UInt(k) => k
    case SInt(k) => k
    case Raw(n) => n
    case Pair(a, b) => InitSpace(a) + InitSpace(b)
    case Vec(item, maxLen) => 4 + maxLen * InitSpace(item)
    case Enum(cases) => 1 + LargestCase(s, |cases|)
  }

  /** Over the first `k` cases of an enum. */
  function LargestCase(s: Schema, k: nat): nat
    requires s.Enum? && k <= |s.cases|
    decreases s, 0, k
  {
    if k == 0 then 0
    else
      var before, last := LargestCase(s, k - 1), InitSpace(s.cases[k - 1]);
      if before < last then last else before
  }

  lemma {:induction false} CaseFits(s: Schema, k: nat, tag: nat)
    requires s.Enum? && tag < k <= |s.cases|
    ensures InitSpace(s.cases[tag]) <= LargestCase(s, k)
    decreases k
  {
    if tag < k - 1 {
      CaseFits(s, k - 1, tag);
    }
  }

  lemma OneMore(n: nat, a: nat)
    ensures (n + 1) * a == a + n * a
  {
  }

  lemma NoMore(n: nat, m: nat, a: nat)
    requires n <= m
    ensures n * a <= m * a
  {
  }

  /** What is within the maximum lengths fits the reserved space. */
  lemma {:induction false} FitsReservedSpace(s: Schema, v: Value)
    requires Fits(s, v) && WithinMax(s, v)
    ensures |Encode(s, v)| <= InitSpace(s)
    decreases s, 0
  {
    hide LittleEndian, Pow256, Signed, LargestCase, EncodeItems;
    match s
    case Pair(a, b) =>
      FitsReservedSpace(a, v.first);
      FitsReservedSpace(b, v.second);
    case Vec(item, maxLen) =>
      ItemsFit(item, v.items);
      NoMore(|v.items|, maxLen, InitSpace(item));
    case Enum(cases) =>
      FitsReservedSpace(cases[v.tag], v.payload);
      CaseFits(s, |cases|, v.tag);
    case _ =>
  }

  lemma {:induction false} ItemsFit(item: Schema, vs: seq<Value>)
    requires forall i :: 0 <= i < |vs| ==> Fits(item, vs[i]) && WithinMax(item, vs[i])
    ensures |EncodeItems(item, vs)| <= |vs| * InitSpace(item)
    decreases item, |vs| + 1
  {
    hide Encode, Fits, WithinMax, InitSpace;
    if vs != [] {
      FitsReservedSpace(item, vs[0]);
      ItemsFit(item, vs[1..]);
      OneMore(|vs[1..]|, InitSpace(item));
    }
  }

  // --- maximum lengths are not in the bytes --------------------------------------------------------

  /** The schemas differ at most in their maximum lengths. */
  ghost predicate SameLayout(s: Schema, t: Schema)
    decreases s
  {
    match s
    case Pair(a, b) => t.Pair? && SameLayout(a, t.first) && SameLayout(b, t.second)
    case Vec(item, _) => t.Vec? && SameLayout(item, t.item)
    case Enum(cases) =>
      t.Enum? && |t.cases| == |cases| && forall i :: 0 <= i < |cases| ==> SameLayout(cases[i], t.cases[i])
    case _ => s == t
  }

  lemma {:induction false} MaxLensLeaveNoTrace(s: Schema, t: Schema, v: Value)
    requires SameLayout(s, t) && Fits(s, v)
    ensures Fits(t, v) && Encode(t, v) == Encode(s, v)
    decreases s, 0
  {
    match s
    case Pair(a, b) =>
      MaxLensLeaveNoTrace(a, t.first, v.first);
      MaxLensLeaveNoTrace(b, t.second, v.second);
    case Vec(item, _) => ItemsLeaveNoTrace(item, t.item, v.items);
    case Enum(cases) => MaxLensLeaveNoTrace(cases[v.tag], t.cases[v.tag], v.payload);
    case _ =>
  }

  lemma {:induction false} ItemsLeaveNoTrace(item: Schema, other: Schema, vs: seq<Value>)
    requires SameLayout(item, other) && forall i :: 0 <= i < |vs| ==> Fits(item, vs[i])
    ensures forall i :: 0 <= i < |vs| ==> Fits(other, vs[i])
    ensures EncodeItems(other, vs) == EncodeItems(item, vs)
    decreases item, |vs| + 1
  {
    if vs != [] {
      MaxLensLeaveNoTrace(item, other, vs[0]);
      ItemsLeaveNoTrace(item, other, vs[1..]);
      forall i | 0 <= i < |vs| ensures Fits(other, vs[i]) {
        if i > 0 {
          assert vs[i] == vs[1..][i - 1];
        }
      }
    }
  }

  /** Bytes written under one schema read back under any other of the same layout. */
  lemma ReadsUnderOtherMaxLens(s: Schema, t: Schema, v: Value, rest: Bytes)
    requires SameLayout(s, t) && Fits(s, v)
    ensures Decode(t, Encode(s, v) + rest) == Some((v, rest))
  {
    MaxLensLeaveNoTrace(s, t, v);
    RoundTrip(t, v, rest);
  }
}
