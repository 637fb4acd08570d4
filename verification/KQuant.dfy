/** Q4_K and Q6_K rows against Q8_K activations: the scalar reference and the AVX2 kernels, with
    their 16-bit and 32-bit lanes. Both compute the same integers per super-block, without
    overflow, and so the dot product of the weights with the activation. */
module KQuant {
  import opened Arithmetic
  import opened Quants

  // ---- Q8_K activations ----------------------------------------------------------

  /** A super-block of 256 activations: a scale, the codes, and the sum of every 16 codes. */
  datatype Q8Block = Q8Block(d: real, qs: seq<int>, bsums: seq<int>)

  ghost predicate Q8Valid(y: Q8Block) {
    && |y.qs| == 256 && Codes8(y.qs) && |y.bsums| == 16
    && forall j: nat | j < 16 :: y.bsums[j] == Total(y.qs[16 * j..16 * j + 16])
  }

  ghost predicate Q8Row(y: seq<Q8Block>) {
    forall i | 0 <= i < |y| :: Q8Valid(y[i])
  }

  /** The codes and scales of a row, flat. */
  ghost function FlatCodes(y: seq<Q8Block>): (xq: seq<int>)
    requires Q8Row(y)
    ensures |xq| == 256 * |y| && Codes8(xq)
  {
    seq(256 * |y|, i requires 0 <= i < 256 * |y| => Q8At(y, i / 256); y[i / 256].qs[i % 256])
  }

  lemma {:induction false} Q8At(y: seq<Q8Block>, i: nat)
    requires Q8Row(y) && i < |y|
    ensures |y[i].qs| == 256 && Codes8(y[i].qs)
  {
  }

  ghost function FlatScales(y: seq<Q8Block>): (xs: seq<real>)
    ensures |xs| == 8 * |y|
  {
    seq(8 * |y|, b requires 0 <= b < 8 * |y| => y[b / 8].d)
  }

  lemma {:induction false} FlatBlock(y: seq<Q8Block>, k: nat)
    requires Q8Row(y) && k < |y|
    ensures FlatCodes(y)[256 * k..256 * k + 256] == y[k].qs
  {
    Q8At(y, k);
    forall i | 0 <= i < 256
      ensures FlatCodes(y)[256 * k + i] == y[k].qs[i]
    {
      assert (256 * k + i) / 256 == k && (256 * k + i) % 256 == i;
    }
  }

  // ---- the packed scales ---------------------------------------------------------

  const KMASK1: bv32 := 0x3f3f3f3f
  const KMASK2: bv32 := 0x0f0f0f0f
  const KMASK3: bv32 := 0x03030303

  /** Four bytes as a little-endian word, and back. */
  function Word(b0: Byte, b1: Byte, b2: Byte, b3: Byte): bv32 {
    (b0 as bv32) | ((b1 as bv32) << 8) | ((b2 as bv32) << 16) | ((b3 as bv32) << 24)
  }

  function ByteOf(w: bv32, i: nat): Byte
    requires i < 4
  {
    if i == 0 then (w & 0xff) as Byte else if i == 1 then ((w >> 8) & 0xff) as Byte
    else if i == 2 then ((w >> 16) & 0xff) as Byte else ((w >> 24) & 0xff) as Byte
  }

  function LowMask(w: bv32): bv32 {
    w & KMASK1
  }

  function ScaleMask(w8: bv32, w0: bv32): bv32 {
    (w8 & KMASK2) | (((w0 >> 6) & KMASK3) << 4)
  }

  function MinMask(w8: bv32, w4: bv32): bv32 {
    ((w8 >> 4) & KMASK2) | (((w4 >> 6) & KMASK3) << 4)
  }

  /** The same on one byte of each word. */
  function LowByte(b: Byte): Byte {
    b & 63
  }

  function ScaleByte(b8: Byte, b0: Byte): Byte {
    (b8 & 15) | ((b0 >> 6) << 4)
  }

  function MinByte(b8: Byte, b4: Byte): Byte {
    (b8 >> 4) | ((b4 >> 6) << 4)
  }

  lemma {:induction false} LowBytes4(w: bv32)
    ensures ByteOf(LowMask(w), 0) == LowByte(ByteOf(w, 0))
    ensures ByteOf(LowMask(w), 1) == LowByte(ByteOf(w, 1))
    ensures ByteOf(LowMask(w), 2) == LowByte(ByteOf(w, 2))
    ensures ByteOf(LowMask(w), 3) == LowByte(ByteOf(w, 3))
  {
  }

  lemma {:induction false} LowBytes(w: bv32, i: nat)
    requires i < 4
    ensures ByteOf(LowMask(w), i) == LowByte(ByteOf(w, i))
  {
    hide ByteOf, LowMask, LowByte;
    LowBytes4(w);
    assert i == 0 || i == 1 || i == 2 || i == 3;
  }

  lemma {:induction false} ScaleBytes4(w8: bv32, w0: bv32)
    ensures ByteOf(ScaleMask(w8, w0), 0) == ScaleByte(ByteOf(w8, 0), ByteOf(w0, 0))
    ensures ByteOf(ScaleMask(w8, w0), 1) == ScaleByte(ByteOf(w8, 1), ByteOf(w0, 1))
    ensures ByteOf(ScaleMask(w8, w0), 2) == ScaleByte(ByteOf(w8, 2), ByteOf(w0, 2))
    ensures ByteOf(ScaleMask(w8, w0), 3) == ScaleByte(ByteOf(w8, 3), ByteOf(w0, 3))
  {
  }

  lemma {:induction false} ScaleBytes(w8: bv32, w0: bv32, i: nat)
    requires i < 4
    ensures ByteOf(ScaleMask(w8, w0), i) == ScaleByte(ByteOf(w8, i), ByteOf(w0, i))
  {
    hide ByteOf, ScaleMask, ScaleByte;
    ScaleBytes4(w8, w0);
    assert i == 0 || i == 1 || i == 2 || i == 3;
  }

  lemma {:induction false} MinBytes4(w8: bv32, w4: bv32)
    ensures ByteOf(MinMask(w8, w4), 0) == MinByte(ByteOf(w8, 0), ByteOf(w4, 0))
    ensures ByteOf(MinMask(w8, w4), 1) == MinByte(ByteOf(w8, 1), ByteOf(w4, 1))
    ensures ByteOf(MinMask(w8, w4), 2) == MinByte(ByteOf(w8, 2), ByteOf(w4, 2))
    ensures ByteOf(MinMask(w8, w4), 3) == MinByte(ByteOf(w8, 3), ByteOf(w4, 3))
  {
  }

  lemma {:induction false} MinBytes(w8: bv32, w4: bv32, i: nat)
    requires i < 4
    ensures ByteOf(MinMask(w8, w4), i) == MinByte(ByteOf(w8, i), ByteOf(w4, i))
  {
    hide ByteOf, MinMask, MinByte;
    MinBytes4(w8, w4);
    assert i == 0 || i == 1 || i == 2 || i == 3;
  }

  lemma {:induction false} Bytes(b0: Byte, b1: Byte, b2: Byte, b3: Byte)
    ensures ByteOf(Word(b0, b1, b2, b3), 0) == b0 && ByteOf(Word(b0, b1, b2, b3), 1) == b1
    ensures ByteOf(Word(b0, b1, b2, b3), 2) == b2 && ByteOf(Word(b0, b1, b2, b3), 3) == b3
  {
  }

  /** A word of four bytes of `q`. */
  ghost predicate WordAt(w: bv32, q: seq<Byte>, at: nat)
    requires at + 4 <= |q|
  {
    forall i: nat {:trigger ByteOf(w, i)} | i < 4 :: ByteOf(w, i) == q[at + i]
  }

  lemma {:induction false} WordIs(q: seq<Byte>, at: nat)
    requires at + 4 <= |q|
    ensures WordAt(Word(q[at], q[at + 1], q[at + 2], q[at + 3]), q, at)
  {
    hide Word, ByteOf;
    Bytes(q[at], q[at + 1], q[at + 2], q[at + 3]);
    var w := Word(q[at], q[at + 1], q[at + 2], q[at + 3]);
    forall i: nat {:trigger ByteOf(w, i)} | i < 4
      ensures ByteOf(w, i) == q[at + i]
    {
      assert i == 0 || i == 1 || i == 2 || i == 3;
    }
  }

  lemma {:induction false} ScaleMinBytes(q: seq<Byte>, j: nat)
    requires |q| == 12 && j < 8
    ensures ScaleMin(q, j).0 == if j < 4 then LowByte(q[j]) else ScaleByte(q[8 + (j - 4)], q[j - 4])
    ensures ScaleMin(q, j).1 == if j < 4 then LowByte(q[4 + j]) else MinByte(q[8 + (j - 4)], q[4 + (j - 4)])
  {
  }

  /** Unpacks twelve bytes in place into eight scales (words 0 and 1) and eight minimums (2 and 3). */
  method UnpackScalesMins(packed: seq<Byte>, utmp: array<bv32>)
    requires |packed| == 12 && utmp.Length == 4
    modifies utmp
    ensures forall j: nat | j < 8 :: ByteOf(utmp[j / 4], j % 4) == ScaleMin(packed, j).0
    ensures forall j: nat | j < 8 :: ByteOf(utmp[2 + j / 4], j % 4) == ScaleMin(packed, j).1
  {
    hide ByteOf, Word, ScaleMin, LowMask, ScaleMask, MinMask;
    var q := packed;
    utmp[0], utmp[1], utmp[2] := Word(q[0], q[1], q[2], q[3]), Word(q[4], q[5], q[6], q[7]), Word(q[8], q[9], q[10], q[11]);
    ghost var w0, w4, w8 := utmp[0], utmp[1], utmp[2];
    WordIs(q, 0);
    WordIs(q, 4);
    WordIs(q, 8);
    utmp[3] := MinMask(utmp[2], utmp[1]);
    var uaux := LowMask(utmp[1]);
    utmp[1] := ScaleMask(utmp[2], utmp[0]);
    utmp[2] := uaux;
    utmp[0] := LowMask(utmp[0]);
    forall j: nat | j < 8
      ensures ByteOf(utmp[j / 4], j % 4) == ScaleMin(packed, j).0 && ByteOf(utmp[2 + j / 4], j % 4) == ScaleMin(packed, j).1
    {
      UnpackedByte(q, w0, w4, w8, j);
      assert j / 4 == if j < 4 then 0 else 1;
    }
  }

  lemma {:induction false} UnpackedByte(q: seq<Byte>, w0: bv32, w4: bv32, w8: bv32, j: nat)
    requires |q| == 12 && j < 8 && WordAt(w0, q, 0) && WordAt(w4, q, 4) && WordAt(w8, q, 8)
    ensures ByteOf(if j < 4 then LowMask(w0) else ScaleMask(w8, w0), j % 4) == ScaleMin(q, j).0
    ensures ByteOf(if j < 4 then LowMask(w4) else MinMask(w8, w4), j % 4) == ScaleMin(q, j).1
  {
    hide ByteOf, ScaleMin, LowMask, ScaleMask, MinMask, LowByte, ScaleByte, MinByte;
    ScaleMinBytes(q, j);
    var i := j % 4;
    LowBytes(w0, i);
    LowBytes(w4, i);
    ScaleBytes(w8, w0, i);
    MinBytes(w8, w4, i);
    assert i == if j < 4 then j else j - 4;
    assert ByteOf(w0, i) == q[0 + i] && ByteOf(w4, i) == q[4 + i] && ByteOf(w8, i) == q[8 + i];
  }

  // ---- lanes ---------------------------------------------------------------------

  function Add32(a: seq<int>, b: seq<int>): (v: seq<int>)
    requires |a| == |b|
    ensures |v| == |a|
  {
    seq(|a|, i requires 0 <= i < |a| => Wrap32(a[i] + b[i]))
  }

  function Sub32(a: seq<int>, b: seq<int>): (v: seq<int>)
    requires |a| == |b|
    ensures |v| == |a|
  {
    seq(|a|, i requires 0 <= i < |a| => Wrap32(a[i] - b[i]))
  }

  function Saturate16(x: int): int {
    if x < -0x8000 then -0x8000 else if x > 0x7fff then 0x7fff else x
  }

  /** Products of unsigned and signed bytes, added in pairs into saturating 16-bit lanes. */
  function Maddubs(a: seq<int>, b: seq<int>): (v: seq<int>)
    requires |a| == |b| == 32
    ensures |v| == 16
  {
    seq(16, i requires 0 <= i < 16 => Saturate16(a[2 * i] * b[2 * i] + a[2 * i + 1] * b[2 * i + 1]))
  }

  /** Products of 16-bit lanes, added in pairs into 32-bit lanes. */
  function Madd(a: seq<int>, b: seq<int>): (v: seq<int>)
    requires |a| == |b| && |a| % 2 == 0
    ensures |v| == |a| / 2
  {
    seq(|a| / 2, i requires 0 <= i < |a| / 2 => Wrap32(a[2 * i] * b[2 * i] + a[2 * i + 1] * b[2 * i + 1]))
  }

  /** Neighbours of eight and eight 16-bit lanes, added. */
  function Hadd16(a: seq<int>, b: seq<int>): (v: seq<int>)
    requires |a| == |b| == 8
    ensures |v| == 8
  {
    seq(8, i requires 0 <= i < 8 => if i < 4 then Wrap16(a[2 * i] + a[2 * i + 1]) else Wrap16(b[2 * (i - 4)] + b[2 * (i - 4) + 1]))
  }

  predicate Within(v: seq<int>, bound: int) {
    forall i | 0 <= i < |v| :: -bound <= v[i] <= bound
  }

  lemma {:induction false} SumOfSums(a: seq<int>, b: seq<int>, v: seq<int>, n: nat, sign: int)
    requires |a| == |b| == |v| && n <= |v| && (sign == 1 || sign == -1)
    requires forall i | 0 <= i < |v| :: v[i] == a[i] + (if sign == 1 then b[i] else -b[i])
    ensures Sum(v, n) == Sum(a, n) + (if sign == 1 then Sum(b, n) else -Sum(b, n))
  {
    if n > 0 {
      SumOfSums(a, b, v, n - 1, sign);
    }
  }

  lemma {:induction false} AddTotal(a: seq<int>, b: seq<int>, m: int, n: int)
    requires |a| == |b| && Within(a, m) && Within(b, n) && 0 <= m && 0 <= n && m + n < 0x8000_0000
    ensures Total(Add32(a, b)) == Total(a) + Total(b) && Within(Add32(a, b), m + n)
  {
    SumOfSums(a, b, Add32(a, b), |a|, 1);
  }

  lemma {:induction false} SubTotal(a: seq<int>, b: seq<int>, m: int, n: int)
    requires |a| == |b| && Within(a, m) && Within(b, n) && 0 <= m && 0 <= n && m + n < 0x8000_0000
    ensures Total(Sub32(a, b)) == Total(a) - Total(b) && Within(Sub32(a, b), m + n)
  {
    SumOfSums(a, b, Sub32(a, b), |a|, -1);
  }

  // ---- scaled dots in lanes ------------------------------------------------------

  /** A 16-bit lane pair: no saturation for 6-bit codes. */
  lemma {:induction false} PairLane(c: seq<int>, x: seq<int>, i: nat)
    requires |c| == 32 && |x| == 32 && Codes6(c) && Codes8(x) && i < 16
    ensures Maddubs(c, x)[i] == c[2 * i] * x[2 * i] + c[2 * i + 1] * x[2 * i + 1]
    ensures -16002 <= Maddubs(c, x)[i] <= 16002
  {
    ProductBound(c[2 * i], x[2 * i]);
    ProductBound(c[2 * i + 1], x[2 * i + 1]);
  }

  lemma {:induction false} ScaledPair(s: int, a: int, b: int)
    requires -128 <= s < 128 && -16002 <= a <= 16002 && -16002 <= b <= 16002
    ensures s * a + s * b == s * (a + b) && -LANE <= s * a + s * b <= LANE
  {
    ScaleBound(a + b, s);
  }

  /** A bound on a scaled lane; 64 of them still fit a 32-bit lane. */
  const LANE := 25_600_000

  /** Scales for the sixteen 16-bit lanes: `s0` for the first eight, `s1` for the rest. */
  function Scales16(s0: int, s1: int): (v: seq<int>)
    ensures |v| == 16
  {
    seq(16, i requires 0 <= i < 16 => if i < 8 then s0 else s1)
  }

  /** Lane `i` of the scaled pairs is the scale times four terms of the dot product. */
  lemma {:induction false} ScaledLane(s0: int, s1: int, c: seq<int>, x: seq<int>, i: nat)
    requires |c| == 32 && |x| == 32 && Codes6(c) && Codes8(x) && i < 8 && -128 <= s0 < 128 && -128 <= s1 < 128
    ensures Madd(Scales16(s0, s1), Maddubs(c, x))[i] == (if i < 4 then s0 else s1) * Quad(c, x, i)
    ensures -LANE <= Madd(Scales16(s0, s1), Maddubs(c, x))[i] <= LANE
  {
    hide Maddubs;
    PairLane(c, x, 2 * i);
    PairLane(c, x, 2 * i + 1);
    var s := if i < 4 then s0 else s1;
    assert Scales16(s0, s1)[2 * i] == s && Scales16(s0, s1)[2 * i + 1] == s;
    ScaledPair(s, Maddubs(c, x)[2 * i], Maddubs(c, x)[2 * i + 1]);
  }

  /** `n` scaled groups of four terms, the first four by `s0` and the others by `s1`. */
  function TwoScales(s0: int, s1: int, c: seq<int>, x: seq<int>, n: nat): int
    requires |c| == |x| && 4 * n <= |x|
  {
    if n == 0 then 0 else TwoScales(s0, s1, c, x, n - 1) + (if n <= 4 then s0 else s1) * Quad(c, x, n - 1)
  }

  lemma {:induction false} LanesAreScaled(s0: int, s1: int, c: seq<int>, x: seq<int>, n: nat)
    requires |c| == 32 && |x| == 32 && Codes6(c) && Codes8(x) && n <= 8 && -128 <= s0 < 128 && -128 <= s1 < 128
    ensures Sum(Madd(Scales16(s0, s1), Maddubs(c, x)), n) == TwoScales(s0, s1, c, x, n)
  {
    hide Madd, Maddubs, Quad;
    if n > 0 {
      LanesAreScaled(s0, s1, c, x, n - 1);
      ScaledLane(s0, s1, c, x, n - 1);
    }
  }

  lemma {:induction false} FirstScale(s0: int, s1: int, c: seq<int>, x: seq<int>, n: nat)
    requires |c| == |x| && 4 * n <= |x| && n <= 4
    ensures TwoScales(s0, s1, c, x, n) == s0 * Dot(c, x, 4 * n)
  {
    hide Quad;
    if n > 0 {
      FirstScale(s0, s1, c, x, n - 1);
      QuadStep(c, x, n - 1);
      Distribute(Dot(c, x, 4 * (n - 1)), Quad(c, x, n - 1), s0);
    }
  }

  lemma {:induction false} SecondScale(s0: int, s1: int, c: seq<int>, x: seq<int>, n: nat)
    requires |c| == |x| && 4 * n <= |x| && 4 <= n
    ensures TwoScales(s0, s1, c, x, n) == TwoScales(s0, s1, c, x, 4) + s1 * (Dot(c, x, 4 * n) - Dot(c, x, 16))
  {
    hide Quad;
    if n > 4 {
      SecondScale(s0, s1, c, x, n - 1);
      QuadStep(c, x, n - 1);
      Distribute(Dot(c, x, 4 * (n - 1)) - Dot(c, x, 16), Quad(c, x, n - 1), s1);
    }
  }

  /** One scaled vector of 32 weights: each half has its own scale. */
  lemma {:induction false} ScaledVector(s0: int, s1: int, c: seq<int>, x: seq<int>)
    requires |c| == 32 && |x| == 32 && Codes6(c) && Codes8(x) && -128 <= s0 < 128 && -128 <= s1 < 128
    ensures Total(Madd(Scales16(s0, s1), Maddubs(c, x))) == s0 * Inner(c[..16], x[..16]) + s1 * Inner(c[16..], x[16..])
    ensures s0 == s1 ==> Total(Madd(Scales16(s0, s1), Maddubs(c, x))) == s0 * Inner(c, x)
    ensures Within(Madd(Scales16(s0, s1), Maddubs(c, x)), LANE)
  {
    var v := Madd(Scales16(s0, s1), Maddubs(c, x));
    assert Within(v, LANE) by {
      forall i | 0 <= i < 8
        ensures -LANE <= v[i] <= LANE
      {
        ScaledLane(s0, s1, c, x, i);
      }
    }
    hide Madd, Maddubs, Within, TwoScales;
    LanesAreScaled(s0, s1, c, x, |v|);
    FirstScale(s0, s1, c, x, 4);
    SecondScale(s0, s1, c, x, 8);
    DotSplit(c, x, 16, |x| - 16);
    DotPrefix(c, x, 16, 16);
    assert Inner(c[..16], x[..16]) == Dot(c, x, 16);
    assert Inner(c[16..], x[16..]) == Dot(c, x, |x|) - Dot(c, x, 16);
    Distribute(Dot(c, x, 16), Dot(c, x, |x|) - Dot(c, x, 16), s0);
  }

  // ---- the integers of a super-block ---------------------------------------------

  /** Scaled dots of the first `n` Q4_K sub-blocks. */
  function Dots4(p: seq<Byte>, qs: seq<int>, n: nat): int
    requires |p| == 144 && |qs| == 256 && n <= 8
  {
    if n == 0 then 0
    else Dots4(p, qs, n - 1)
         + ScaleMin(p[4..16], n - 1).0 as int * Inner(Codes(Q4K, p, 32 * (n - 1), 32), qs[32 * (n - 1)..32 * (n - 1) + 32])
  }

  /** Scaled sums for the minimums of the first `n` Q4_K sub-blocks. */
  function Mins4(p: seq<Byte>, qs: seq<int>, n: nat): int
    requires |p| == 144 && |qs| == 256 && n <= 8
  {
    if n == 0 then 0
    else Mins4(p, qs, n - 1) + ScaleMin(p[4..16], n - 1).1 as int * Total(qs[32 * (n - 1)..32 * (n - 1) + 32])
  }

  /** Scaled dots of the first `n` Q6_K sub-blocks, codes less 32. */
  function Dots6(p: seq<Byte>, qs: seq<int>, n: nat): int
    requires |p| == 210 && |qs| == 256 && n <= 16
  {
    if n == 0 then 0 else Dots6(p, qs, n - 1) + Part6(p, qs, n - 1)
  }

  function Part6(p: seq<Byte>, qs: seq<int>, g: nat): int
    requires |p| == 210 && |qs| == 256 && g < 16
  {
    var x := qs[16 * g..16 * g + 16];
    Int8(p[192 + g]) * (Inner(Codes(Q6K, p, 16 * g, 16), x) - 32 * Total(x))
  }

  /** What the integers of a super-block stand for. */
  function Value4(half: Half, p: seq<Byte>, d: real, dots: int, mins: int): real
    requires |p| == 144
  {
    Value(half(p[0], p[1]), half(p[2], p[3]), d, dots, mins)
  }

  function Value(dw: real, dm: real, d: real, dots: int, mins: int): real {
    dw * d * dots as real - dm * d * mins as real
  }

  lemma {:induction false} Value4Step(half: Half, p: seq<Byte>, d: real, dots: int, mins: int, s: nat, x: seq<int>, sc: int, m: int, dot: int, sum: int)
    requires |p| == 144 && s < 8 && |x| == 32 && sc == ScaleMin(p[4..16], s).0 as int && m == ScaleMin(p[4..16], s).1 as int
    requires dot == Inner(Codes(Q4K, p, 32 * s, 32), x) && sum == Total(x)
    ensures Value4(half, p, d, dots + sc * dot, mins + m * sum) == Value4(half, p, d, dots, mins) + Share4(half, p, s, d, x)
  {
    hide Code, ScaleMin, Inner, Total, Share, Value;
    assert 32 * s / 32 == s;
    var gain, offset := Gain(Q4K, half, p, 32 * s), Offset(Q4K, half, p, 32 * s);
    Spread(half(p[0], p[1]), half(p[2], p[3]), d, dots, mins, sc, m, dot, sum, gain, offset);
  }

  lemma {:induction false} Spread(dw: real, dm: real, d: real, dots: int, mins: int, sc: int, m: int, dot: int, sum: int, gain: real, offset: real)
    requires gain == dw * sc as real && offset == dm * m as real
    ensures Value(dw, dm, d, dots + sc * dot, mins + m * sum) == Value(dw, dm, d, dots, mins) + Share(gain, offset, d, dot, sum)
  {
    Term(dw, d, dots, sc, dot);
    Term(dm, d, mins, m, sum);
    var a, b := gain * dot as real, offset * sum as real;
    assert d * (a - b) == d * a - d * b;
  }

  lemma {:induction false} Term(w: real, d: real, acc: int, s: int, t: int)
    ensures w * d * (acc + s * t) as real == w * d * acc as real + d * (w * s as real * t as real)
  {
    var wd, a, st := w * d, acc as real, s as real * t as real;
    assert (acc + s * t) as real == a + st;
    assert wd * (a + st) == wd * a + wd * st;
    assert wd * st == d * (w * s as real * t as real);
  }

  /** After `n` sub-blocks of super-block `k` the integers stand for the row dot so far. */
  lemma {:induction false} Prefix4(half: Half, row: seq<seq<Byte>>, y: seq<Q8Block>, k: nat, n: nat)
    requires Row(Q4K, row) && Q8Row(y) && |y| == |row| && k < |row| && n <= 8
    ensures |y[k].qs| == 256
    ensures var w, xq, xs := Weights(Q4K, half, row), FlatCodes(y), FlatScales(y);
            RealDot(w, xq, xs, 256 * k + 32 * n) == RealDot(w, xq, xs, 256 * k)
              + Value4(half, row[k], y[k].d, Dots4(row[k], y[k].qs, n), Mins4(row[k], y[k].qs, n))
  {
    hide RealDot, Weights, FlatCodes, FlatScales, Value, Share4, ScaleMin, Inner, Total, Code;
    FlatBlock(y, k);
    Q8At(y, k);
    if n == 0 {
      ValueNone(half(row[k][0], row[k][1]), half(row[k][2], row[k][3]), y[k].d);
    } else {
      Prefix4(half, row, y, k, n - 1);
      var s, p, qs := n - 1, row[k], y[k].qs;
      SubBlock4(half, row, FlatCodes(y), FlatScales(y), k, s);
      FlatScale(y, k, s);
      var x := qs[32 * s..32 * s + 32];
      SubSlice(FlatCodes(y), 256 * k, 32 * s, 32);
      Value4Step(half, p, y[k].d, Dots4(p, qs, s), Mins4(p, qs, s), s, x,
                 ScaleMin(p[4..16], s).0 as int, ScaleMin(p[4..16], s).1 as int, Inner(Codes(Q4K, p, 32 * s, 32), x), Total(x));
    }
  }

  lemma {:induction false} SubSlice(s: seq<int>, at: nat, lo: nat, n: nat)
    requires at + 256 <= |s| && lo + n <= 256
    ensures s[at + lo..at + lo + n] == s[at..at + 256][lo..lo + n]
  {
    var a, b := s[at + lo..at + lo + n], s[at..at + 256][lo..lo + n];
    forall i | 0 <= i < n
      ensures a[i] == b[i]
    {
      assert s[at..at + 256][lo + i] == s[at + lo + i];
    }
  }

  lemma {:induction false} ValueNone(dw: real, dm: real, d: real)
    ensures Value(dw, dm, d, 0, 0) == 0.0
  {
  }

  lemma {:induction false} FlatScale(y: seq<Q8Block>, k: nat, s: nat)
    requires k < |y| && s < 8
    ensures FlatScales(y)[8 * k + s] == y[k].d
  {
    assert (8 * k + s) / 8 == k;
  }

  function Value6(half: Half, p: seq<Byte>, d: real, dots: int): real
    requires |p| == 210
  {
    d * half(p[208], p[209]) * dots as real
  }

  lemma {:induction false} Value6Step(half: Half, p: seq<Byte>, d: real, dots: int, g: nat, x: seq<int>, sc: int, dot: int, sum: int)
    requires |p| == 210 && g < 16 && |x| == 16 && sc == Int8(p[192 + g])
    requires dot == Inner(Codes(Q6K, p, 16 * g, 16), x) && sum == Total(x)
    ensures Value6(half, p, d, dots + sc * (dot - 32 * sum)) == Value6(half, p, d, dots) + Share6(half, p, g, d, x)
  {
    hide Code, Int8, Inner, Total, Share;
    assert 16 * g / 16 == g;
    var gain, offset := Gain(Q6K, half, p, 16 * g), Offset(Q6K, half, p, 16 * g);
    Spread6(half(p[208], p[209]), d, dots, sc, dot, sum, gain, offset);
  }

  lemma {:induction false} Spread6(dw: real, d: real, dots: int, sc: int, dot: int, sum: int, gain: real, offset: real)
    requires gain == dw * sc as real && offset == gain * 32.0
    ensures d * dw * (dots + sc * (dot - 32 * sum)) as real == d * dw * dots as real + Share(gain, offset, d, dot, sum)
  {
    var f := dot - 32 * sum;
    Term(dw, d, dots, sc, f);
    assert dw * d == d * dw;
    assert f as real == dot as real - 32.0 * sum as real;
    assert gain * f as real == gain * dot as real - offset * sum as real;
  }

  lemma {:induction false} Prefix6(half: Half, row: seq<seq<Byte>>, y: seq<Q8Block>, k: nat, n: nat)
    requires Row(Q6K, row) && Q8Row(y) && |y| == |row| && k < |row| && n <= 16
    ensures |y[k].qs| == 256
    ensures var w, xq, xs := Weights(Q6K, half, row), FlatCodes(y), FlatScales(y);
            RealDot(w, xq, xs, 256 * k + 16 * n) == RealDot(w, xq, xs, 256 * k)
              + Value6(half, row[k], y[k].d, Dots6(row[k], y[k].qs, n))
  {
    hide RealDot, Weights, FlatCodes, FlatScales, Value6, Share6, Int8, Inner, Total, Code;
    FlatBlock(y, k);
    Q8At(y, k);
    if n == 0 {
      Value6None(half, row[k], y[k].d);
    } else {
      Prefix6(half, row, y, k, n - 1);
      var g, p, qs := n - 1, row[k], y[k].qs;
      SubBlock6(half, row, FlatCodes(y), FlatScales(y), k, g);
      FlatScale(y, k, g / 2);
      var x := qs[16 * g..16 * g + 16];
      SubSlice(FlatCodes(y), 256 * k, 16 * g, 16);
      Value6Step(half, p, y[k].d, Dots6(p, qs, g), g, x, Int8(p[192 + g]), Inner(Codes(Q6K, p, 16 * g, 16), x), Total(x));
    }
  }

  lemma {:induction false} Value6None(half: Half, p: seq<Byte>, d: real)
    requires |p| == 210
    ensures Value6(half, p, d, 0) == 0.0
  {
  }

  // ---- float lanes ---------------------------------------------------------------

  function RSum(v: seq<real>, n: nat): real
    requires n <= |v|
  {
    if n == 0 then 0.0 else RSum(v, n - 1) + v[n - 1]
  }

  /** Horizontal sum. */
  function Across(v: seq<real>): real {
    RSum(v, |v|)
  }

  function FmaAll(acc: seq<real>, d: real, v: seq<int>): (w: seq<real>)
    requires |acc| == |v|
    ensures |w| == |acc|
  {
    seq(|acc|, i requires 0 <= i < |acc| => acc[i] + d * v[i] as real)
  }

  lemma {:induction false} FmaSum(acc: seq<real>, d: real, v: seq<int>, n: nat)
    requires |acc| == |v| && n <= |v|
    ensures RSum(FmaAll(acc, d, v), n) == RSum(acc, n) + d * Sum(v, n) as real
  {
    if n > 0 {
      FmaSum(acc, d, v, n - 1);
      var s, t := Sum(v, n - 1) as real, v[n - 1] as real;
      assert Sum(v, n) as real == s + t;
      assert d * (s + t) == d * s + d * t;
    }
  }

  lemma {:induction false} FmaAcross(acc: seq<real>, d: real, v: seq<int>)
    requires |acc| == |v|
    ensures Across(FmaAll(acc, d, v)) == Across(acc) + Times(d, Total(v))
  {
    FmaSum(acc, d, v, |v|);
  }
}
