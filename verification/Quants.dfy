/** Q4_K and Q6_K weight rows: what their bytes mean, and the dot product of the weights they
    stand for with a quantized activation. Every integer kernel is proved against it. */
module Quants {
  import opened Arithmetic

  type Byte = bv8

  datatype Format = Q4K | Q6K

  /** A super-block of 256 weights. */
  function BlockBytes(f: Format): nat {
    if f.Q4K? then 144 else 210
  }

  /** How an fp16 value's two bytes are read. */
  type Half = (Byte, Byte) -> real

  // ---- the bytes of a block ------------------------------------------------------

  function Low(b: Byte): (n: int)
    ensures 0 <= n < 16
  {
    (b & 15) as int
  }

  function High(b: Byte): (n: int)
    ensures 0 <= n < 16
  {
    (b >> 4) as int
  }

  function Int8(b: Byte): (n: int)
    ensures -128 <= n < 128
  {
    if b < 128 then b as int else b as int - 256
  }

  /** The 6-bit scale and minimum of sub-block `j`, packed into 12 bytes. */
  function ScaleMin(q: seq<Byte>, j: nat): (Byte, Byte)
    requires |q| == 12 && j < 8
  {
    if j < 4 then (q[j] & 63, q[j + 4] & 63)
    else ((q[j + 4] & 15) | ((q[j - 4] >> 6) << 4), (q[j + 4] >> 4) | ((q[j] >> 6) << 4))
  }

  /** The two high bits of weight `quarter` of four that share a byte. */
  function HighBits(b: Byte, quarter: nat): Byte
    requires quarter < 4
  {
    if quarter == 0 then b & 3 else if quarter == 1 then (b >> 2) & 3
    else if quarter == 2 then (b >> 4) & 3 else (b >> 6) & 3
  }

  function SixBits(lo: Byte, hi: Byte, quarter: nat): Byte
    requires quarter < 4
  {
    (if quarter < 2 then lo & 15 else lo >> 4) | (HighBits(hi, quarter) << 4)
  }

  lemma {:induction false} SixBitsBelow64(lo: Byte, hi: Byte, quarter: nat)
    requires quarter < 4
    ensures SixBits(lo, hi, quarter) as int < 64
  {
    assert SixBits(lo, hi, quarter) < 64;
  }

  /** The unsigned code of weight `e` of a block. */
  function Code(f: Format, p: seq<Byte>, e: nat): (c: int)
    requires |p| == BlockBytes(f) && e < 256
    ensures 0 <= c < 64
  {
    match f
    case Q4K =>
      var b := p[16 + 32 * (e / 64) + e % 32];
      if e % 64 < 32 then Low(b) else High(b)
    case Q6K =>
      var h, quarter, l := e / 128, e % 128 / 32, e % 32;
      var lo, hi := p[64 * h + 32 * (quarter % 2) + l], p[128 + 32 * h + l];
      SixBitsBelow64(lo, hi, quarter);
      SixBits(lo, hi, quarter) as int
  }

  function Times(d: real, n: int): real {
    d * n as real
  }

  /** The factor of a code and the offset that is subtracted: a weight is gain * code - offset. */
  function Gain(f: Format, half: Half, p: seq<Byte>, e: nat): real
    requires |p| == BlockBytes(f) && e < 256
  {
    match f
    case Q4K => Times(half(p[0], p[1]), ScaleMin(p[4..16], e / 32).0 as int)
    case Q6K => Times(half(p[208], p[209]), Int8(p[192 + e / 16]))
  }

  function Offset(f: Format, half: Half, p: seq<Byte>, e: nat): real
    requires |p| == BlockBytes(f) && e < 256
  {
    match f
    case Q4K => Times(half(p[2], p[3]), ScaleMin(p[4..16], e / 32).1 as int)
    case Q6K => Gain(f, half, p, e) * 32.0
  }

  function Weight(f: Format, half: Half, p: seq<Byte>, e: nat): real
    requires |p| == BlockBytes(f) && e < 256
  {
    Affine(Gain(f, half, p, e), Offset(f, half, p, e), Code(f, p, e))
  }

  function Affine(gain: real, offset: real, c: int): real {
    gain * c as real - offset
  }

  // ---- a row ---------------------------------------------------------------------

  /** A weight row is its super-blocks. */
  predicate Row(f: Format, row: seq<seq<Byte>>) {
    forall k | 0 <= k < |row| :: |row[k]| == BlockBytes(f)
  }

  /** An activation row: a code per value and a scale per 32 values. */
  predicate Activation(xq: seq<int>, xs: seq<real>, nsb: nat) {
    |xq| == 256 * nsb && |xs| == 8 * nsb && Codes8(xq)
  }

  predicate Codes8(x: seq<int>) {
    forall e | 0 <= e < |x| :: -127 <= x[e] <= 127
  }

  /** The weights a row stands for. */
  function Weights(f: Format, half: Half, row: seq<seq<Byte>>): (w: seq<real>)
    requires Row(f, row)
    ensures |w| == 256 * |row|
  {
    seq(256 * |row|, e requires 0 <= e < 256 * |row| => Weight(f, half, row[e / 256], e % 256))
  }

  /** Dot product of the first `n` weights of `w` with an activation. */
  function RealDot(w: seq<real>, xq: seq<int>, xs: seq<real>, n: nat): real
    requires n <= |w| && n <= |xq| <= 32 * |xs|
  {
    if n == 0 then 0.0 else RealDot(w, xq, xs, n - 1) + Term(w[n - 1], xs[(n - 1) / 32], xq[n - 1])
  }

  function Term(w: real, scale: real, x: int): real {
    w * (scale * x as real)
  }

  // ---- integer dots --------------------------------------------------------------

  function Dot(c: seq<int>, x: seq<int>, n: nat): int
    requires n <= |c| && n <= |x|
  {
    if n == 0 then 0 else Dot(c, x, n - 1) + c[n - 1] * x[n - 1]
  }

  function Sum(x: seq<int>, n: nat): int
    requires n <= |x|
  {
    if n == 0 then 0 else Sum(x, n - 1) + x[n - 1]
  }

  /** The whole dot product, and the whole sum. */
  function Inner(c: seq<int>, x: seq<int>): int
    requires |c| == |x|
  {
    Dot(c, x, |x|)
  }

  function Total(x: seq<int>): int {
    Sum(x, |x|)
  }

  /** Codes [e, e + n) of a block. */
  function Codes(f: Format, p: seq<Byte>, e: nat, n: nat): (c: seq<int>)
    requires |p| == BlockBytes(f) && e + n <= 256
    ensures |c| == n && forall l | 0 <= l < n :: c[l] == Code(f, p, e + l)
  {
    seq(n, l requires 0 <= l < n => Code(f, p, e + l))
  }

  predicate Codes6(c: seq<int>) {
    forall l | 0 <= l < |c| :: 0 <= c[l] < 64
  }

  /** Four consecutive terms of a dot product. */
  function Quad(c: seq<int>, x: seq<int>, v: nat): int
    requires 4 * v + 4 <= |c| && 4 * v + 4 <= |x|
  {
    c[4 * v] * x[4 * v] + c[4 * v + 1] * x[4 * v + 1] + c[4 * v + 2] * x[4 * v + 2] + c[4 * v + 3] * x[4 * v + 3]
  }

  lemma {:induction false} QuadStep(c: seq<int>, x: seq<int>, v: nat)
    requires 4 * v + 4 <= |c| && 4 * v + 4 <= |x|
    ensures Dot(c, x, 4 * v + 4) == Dot(c, x, 4 * v) + Quad(c, x, v)
  {
    assert Dot(c, x, 4 * v + 3) == Dot(c, x, 4 * v + 2) + c[4 * v + 2] * x[4 * v + 2];
    assert Dot(c, x, 4 * v + 2) == Dot(c, x, 4 * v + 1) + c[4 * v + 1] * x[4 * v + 1];
  }

  lemma {:induction false} ProductBound(c: int, x: int)
    requires 0 <= c < 64 && -127 <= x <= 127
    ensures -8001 <= c * x <= 8001
  {
    if x >= 0 {
      assert c * x <= 63 * x;
    } else {
      assert c * -x <= 63 * -x;
    }
  }

  /** A scale keeps a partial dot far inside 32 bits. */
  lemma {:induction false} ScaleBound(d: int, s: int)
    requires -200_000 <= d <= 200_000 && -128 <= s < 128
    ensures -25_600_000 <= d * s <= 25_600_000 && d * s == s * d
  {
    if s >= 0 {
      MulMonotone(-200_000, d, s);
      MulMonotone(d, 200_000, s);
    } else {
      MulMonotone(-200_000, d, -s);
      MulMonotone(d, 200_000, -s);
    }
  }

  lemma {:induction false} DotBound(c: seq<int>, x: seq<int>, n: nat)
    requires n <= |c| && n <= |x| && Codes6(c) && Codes8(x)
    ensures -8001 * n <= Dot(c, x, n) <= 8001 * n
  {
    if n > 0 {
      DotBound(c, x, n - 1);
      ProductBound(c[n - 1], x[n - 1]);
    }
  }

  lemma {:induction false} SumBound(x: seq<int>, n: nat)
    requires n <= |x| && Codes8(x)
    ensures -127 * n <= Sum(x, n) <= 127 * n
  {
    if n > 0 {
      SumBound(x, n - 1);
    }
  }

  /** A prefix of a dot product does not see what follows. */
  lemma {:induction false} DotSplit(c: seq<int>, x: seq<int>, m: nat, n: nat)
    requires m + n <= |c| && m + n <= |x|
    ensures Dot(c, x, m + n) == Dot(c, x, m) + Dot(c[m..], x[m..], n)
    ensures Sum(x, m + n) == Sum(x, m) + Sum(x[m..], n)
    decreases n
  {
    if n > 0 {
      DotSplit(c, x, m, n - 1);
      assert c[m..][n - 1] == c[m + n - 1] && x[m..][n - 1] == x[m + n - 1];
    }
  }

  /** A prefix of the operands is enough for a prefix of the product. */
  lemma {:induction false} DotPrefix(c: seq<int>, x: seq<int>, m: nat, n: nat)
    requires n <= m <= |c| && m <= |x|
    ensures Dot(c[..m], x[..m], n) == Dot(c, x, n)
    ensures Sum(x[..m], n) == Sum(x, n)
  {
    if n > 0 {
      DotPrefix(c, x, m, n - 1);
    }
  }

  // ---- from codes to weights -----------------------------------------------------

  /** What `n` weights from `e` on, which share gain, offset and activation scale, add to a row
      dot, computed from the integer dot and the sum of the activation codes. */
  function Share(gain: real, offset: real, scale: real, dot: int, sum: int): real {
    scale * (gain * dot as real - offset * sum as real)
  }

  lemma {:induction false} ShareStep(gain: real, offset: real, scale: real, dot: int, sum: int, c: int, x: int)
    ensures Share(gain, offset, scale, dot + c * x, sum + x)
         == Share(gain, offset, scale, dot, sum) + Term(Affine(gain, offset, c), scale, x)
  {
    var s, d, cr, xr := sum as real, dot as real, c as real, x as real;
    assert (dot + c * x) as real == d + cr * xr && (sum + x) as real == s + xr;
    Expand(gain, offset, scale, d, s, cr, xr);
  }

  lemma {:induction false} Expand(g: real, o: real, t: real, d: real, s: real, c: real, x: real)
    ensures t * (g * (d + c * x) - o * (s + x)) == t * (g * d - o * s) + (g * c - o) * (t * x)
  {
    var gc := g * c;
    assert g * (d + c * x) == g * d + gc * x;
    assert o * (s + x) == o * s + o * x;
    var left, right := g * d - o * s, gc * x - o * x;
    assert right == (gc - o) * x;
    assert t * (left + right) == t * left + t * right;
    assert t * ((gc - o) * x) == (gc - o) * (t * x);
  }

  /** Weights [at, at + |c|) are affine in their codes. */
  predicate Run(w: seq<real>, at: nat, gain: real, offset: real, c: seq<int>) {
    at + |c| <= |w| && forall i | at <= i < at + |c| :: w[i] == Affine(gain, offset, c[i - at])
  }

  lemma {:induction false} RunDot(w: seq<real>, xq: seq<int>, xs: seq<real>, at: nat, gain: real, offset: real,
                                  c: seq<int>, x: seq<int>, scale: real, n: nat)
    requires |xq| <= 32 * |xs| && 0 < |c| && at + |c| <= |xq| && n <= |c| && Run(w, at, gain, offset, c)
    requires x == xq[at..at + |c|] && at / 32 == (at + |c| - 1) / 32 && scale == xs[at / 32]
    ensures RealDot(w, xq, xs, at + n) == RealDot(w, xq, xs, at) + Share(gain, offset, scale, Dot(c, x, n), Sum(x, n))
    decreases n
  {
    if n > 0 {
      RunDot(w, xq, xs, at, gain, offset, c, x, scale, n - 1);
      assert w[at + n - 1] == Affine(gain, offset, c[n - 1]) && (at + n - 1) / 32 == at / 32;
      ShareStep(gain, offset, scale, Dot(c, x, n - 1), Sum(x, n - 1), c[n - 1], x[n - 1]);
    } else {
      ShareNone(gain, offset, scale);
    }
  }

  lemma {:induction false} ShareNone(gain: real, offset: real, scale: real)
    ensures Share(gain, offset, scale, 0, 0) == 0.0
  {
    assert gain * 0.0 - offset * 0.0 == 0.0;
  }

  function Share4(half: Half, p: seq<Byte>, s: nat, scale: real, x: seq<int>): real
    requires |p| == 144 && s < 8 && |x| == 32
  {
    Share(Gain(Q4K, half, p, 32 * s), Offset(Q4K, half, p, 32 * s), scale, Inner(Codes(Q4K, p, 32 * s, 32), x), Total(x))
  }

  function Share6(half: Half, p: seq<Byte>, g: nat, scale: real, x: seq<int>): real
    requires |p| == 210 && g < 16 && |x| == 16
  {
    Share(Gain(Q6K, half, p, 16 * g), Offset(Q6K, half, p, 16 * g), scale, Inner(Codes(Q6K, p, 16 * g, 16), x), Total(x))
  }

  lemma {:induction false} BlockRun(f: Format, half: Half, row: seq<seq<Byte>>, k: nat, e: nat, n: nat)
    requires Row(f, row) && k < |row| && 0 < n && e + n <= 256
    requires if f.Q4K? then e / 32 == (e + n - 1) / 32 else e / 16 == (e + n - 1) / 16
    ensures Run(Weights(f, half, row), 256 * k + e, Gain(f, half, row[k], e), Offset(f, half, row[k], e), Codes(f, row[k], e, n))
  {
    hide Gain, Offset, Code, Affine, Weights;
    forall i | 256 * k + e <= i < 256 * k + e + n
      ensures Weights(f, half, row)[i]
           == Affine(Gain(f, half, row[k], e), Offset(f, half, row[k], e), Codes(f, row[k], e, n)[i - (256 * k + e)])
    {
      WeightAt(f, half, row, k, i - 256 * k);
      SameRun(f, half, row[k], e, i - 256 * k);
    }
  }

  lemma {:induction false} WeightAt(f: Format, half: Half, row: seq<seq<Byte>>, k: nat, e: nat)
    requires Row(f, row) && k < |row| && e < 256
    ensures Weights(f, half, row)[256 * k + e] == Weight(f, half, row[k], e)
  {
    hide Weight;
    assert (256 * k + e) / 256 == k && (256 * k + e) % 256 == e;
  }

  lemma {:induction false} SameRun(f: Format, half: Half, p: seq<Byte>, e: nat, i: nat)
    requires |p| == BlockBytes(f) && e < 256 && i < 256
    requires if f.Q4K? then e / 32 == i / 32 else e / 16 == i / 16
    ensures Gain(f, half, p, i) == Gain(f, half, p, e) && Offset(f, half, p, i) == Offset(f, half, p, e)
  {
    hide ScaleMin, Int8, Times;
  }

  /** A Q4_K sub-block: 32 weights with one 6-bit scale and one 6-bit minimum. */
  lemma {:induction false} SubBlock4(half: Half, row: seq<seq<Byte>>, xq: seq<int>, xs: seq<real>, k: nat, s: nat)
    requires Row(Q4K, row) && Activation(xq, xs, |row|) && k < |row| && s < 8
    ensures RealDot(Weights(Q4K, half, row), xq, xs, 256 * k + 32 * s + 32)
         == RealDot(Weights(Q4K, half, row), xq, xs, 256 * k + 32 * s)
            + Share4(half, row[k], s, xs[8 * k + s], xq[256 * k + 32 * s..256 * k + 32 * s + 32])
  {
    hide Gain, Offset, Code, RealDot, Weights;
    assert (256 * k + 32 * s) / 32 == 8 * k + s;
    BlockRun(Q4K, half, row, k, 32 * s, 32);
    var x := xq[256 * k + 32 * s..256 * k + 32 * s + 32];
    RunDot(Weights(Q4K, half, row), xq, xs, 256 * k + 32 * s, Gain(Q4K, half, row[k], 32 * s), Offset(Q4K, half, row[k], 32 * s),
           Codes(Q4K, row[k], 32 * s, 32), x, xs[8 * k + s], |x|);
  }

  /** A Q6_K sub-block: 16 weights with one signed scale. */
  lemma {:induction false} SubBlock6(half: Half, row: seq<seq<Byte>>, xq: seq<int>, xs: seq<real>, k: nat, g: nat)
    requires Row(Q6K, row) && Activation(xq, xs, |row|) && k < |row| && g < 16
    ensures RealDot(Weights(Q6K, half, row), xq, xs, 256 * k + 16 * g + 16)
         == RealDot(Weights(Q6K, half, row), xq, xs, 256 * k + 16 * g)
            + Share6(half, row[k], g, xs[8 * k + g / 2], xq[256 * k + 16 * g..256 * k + 16 * g + 16])
  {
    hide Gain, Offset, Code, RealDot, Weights;
    BlockRun(Q6K, half, row, k, 16 * g, 16);
    var x := xq[256 * k + 16 * g..256 * k + 16 * g + 16];
    assert (256 * k + 16 * g) / 32 == 8 * k + g / 2;
    RunDot(Weights(Q6K, half, row), xq, xs, 256 * k + 16 * g, Gain(Q6K, half, row[k], 16 * g), Offset(Q6K, half, row[k], 16 * g),
           Codes(Q6K, row[k], 16 * g, 16), x, xs[8 * k + g / 2], |x|);
  }

  // ---- machine words -------------------------------------------------------------

  function Wrap32(x: int): int {
    if -0x8000_0000 <= x < 0x8000_0000 then x else (x + 0x8000_0000) % 0x1_0000_0000 - 0x8000_0000
  }

  function Wrap16(x: int): int {
    if -0x8000 <= x < 0x8000 then x else (x + 0x8000) % 0x1_0000 - 0x8000
  }
}
