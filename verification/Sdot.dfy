/** The SDOT kernels: rows of Q4_K and Q6_K weights against int8 activations, row by row and on
    weights interleaved four rows at a time. Float arithmetic is over the reals; integer
    arithmetic is 32-bit and wraps. Both forms compute the dot product of the weights the rows
    stand for with the activation, so they compute the same. */
module Sdot {
  import opened Quants
  import opened Interleaving

  // ---- vectors -------------------------------------------------------------------

  /** `v` has four 32-bit lanes. */
  type Int4 = v: seq<int> | |v| == 4 witness [0, 0, 0, 0]
  type Real4 = v: seq<real> | |v| == 4 witness [0.0, 0.0, 0.0, 0.0]

  const ZERO: Int4 := [0, 0, 0, 0]

  function QuadAt(a: seq<int>, i: nat, b: seq<int>, j: nat): int
    requires i + 4 <= |a| && j + 4 <= |b|
  {
    a[i] * b[j] + a[i + 1] * b[j + 1] + a[i + 2] * b[j + 2] + a[i + 3] * b[j + 3]
  }

  /** Lane `r` gains the dot product of bytes [4r, 4r + 4) of the operands. */
  function VDot(acc: Int4, a: seq<int>, b: seq<int>): (v: Int4)
    requires |a| == 16 && |b| == 16
  {
    [Wrap32(acc[0] + QuadAt(a, 0, b, 0)), Wrap32(acc[1] + QuadAt(a, 4, b, 4)),
     Wrap32(acc[2] + QuadAt(a, 8, b, 8)), Wrap32(acc[3] + QuadAt(a, 12, b, 12))]
  }

  /** As VDot, with bytes [4 * lane, 4 * lane + 4) of `b` in every lane. */
  function VDotLane(acc: Int4, a: seq<int>, b: seq<int>, lane: nat): (v: Int4)
    requires |a| == 16 && |b| == 16 && lane < 4
  {
    [Wrap32(acc[0] + QuadAt(a, 0, b, 4 * lane)), Wrap32(acc[1] + QuadAt(a, 4, b, 4 * lane)),
     Wrap32(acc[2] + QuadAt(a, 8, b, 4 * lane)), Wrap32(acc[3] + QuadAt(a, 12, b, 4 * lane))]
  }

  function VAdd(a: Int4, b: Int4): Int4 {
    [Wrap32(a[0] + b[0]), Wrap32(a[1] + b[1]), Wrap32(a[2] + b[2]), Wrap32(a[3] + b[3])]
  }

  function VMul(a: Int4, b: Int4): Int4 {
    [Wrap32(a[0] * b[0]), Wrap32(a[1] * b[1]), Wrap32(a[2] * b[2]), Wrap32(a[3] * b[3])]
  }

  function VDup(x: int): Int4 {
    [x, x, x, x]
  }

  function VToReal(a: Int4): Real4 {
    [a[0] as real, a[1] as real, a[2] as real, a[3] as real]
  }

  function VScale(a: Real4, s: real): Real4 {
    [a[0] * s, a[1] * s, a[2] * s, a[3] * s]
  }

  function VFma(acc: Real4, a: Real4, b: Real4): Real4 {
    [acc[0] + a[0] * b[0], acc[1] + a[1] * b[1], acc[2] + a[2] * b[2], acc[3] + a[3] * b[3]]
  }

  function VFmaN(acc: Real4, a: Real4, s: real): Real4 {
    [acc[0] + a[0] * s, acc[1] + a[1] * s, acc[2] + a[2] * s, acc[3] + a[3] * s]
  }

  function VAddAcross(a: Real4): real {
    a[0] + a[1] + a[2] + a[3]
  }

  function LowNibbles(b: seq<Byte>): (c: seq<int>)
    ensures |c| == |b| && forall i | 0 <= i < |c| :: c[i] == Low(b[i])
  {
    seq(|b|, i requires 0 <= i < |b| => Low(b[i]))
  }

  function HighNibbles(b: seq<Byte>): (c: seq<int>)
    ensures |c| == |b| && forall i | 0 <= i < |c| :: c[i] == High(b[i])
  {
    seq(|b|, i requires 0 <= i < |b| => High(b[i]))
  }

  // ---- bounds --------------------------------------------------------------------

  lemma {:induction false} QuadBound(a: seq<int>, i: nat, b: seq<int>, j: nat)
    requires i + 4 <= |a| && j + 4 <= |b| && Codes6(a) && Codes8(b)
    ensures -32004 <= QuadAt(a, i, b, j) <= 32004
  {
    ProductBound(a[i], b[j]);
    ProductBound(a[i + 1], b[j + 1]);
    ProductBound(a[i + 2], b[j + 2]);
    ProductBound(a[i + 3], b[j + 3]);
  }

  // ---- four lanes, one row -------------------------------------------------------

  lemma {:induction false} DotQuads(c: seq<int>, x: seq<int>)
    requires |c| == 16 && |x| == 16
    ensures Inner(c, x) == QuadAt(c, 0, x, 0) + QuadAt(c, 4, x, 4) + QuadAt(c, 8, x, 8) + QuadAt(c, 12, x, 12)
  {
    QuadStep(c, x, 0);
    QuadStep(c, x, 1);
    QuadStep(c, x, 2);
    QuadStep(c, x, 3);
  }

  /** The lanes of one SDOT over 16 weights add up to their dot product. */
  lemma {:induction false} Dot16(c: seq<int>, x: seq<int>)
    requires |c| == 16 && |x| == 16 && Codes6(c) && Codes8(x)
    ensures var v := VDot(ZERO, c, x); v[0] + v[1] + v[2] + v[3] == Inner(c, x)
  {
    DotQuads(c, x);
    QuadBound(c, 0, x, 0);
    QuadBound(c, 4, x, 4);
    QuadBound(c, 8, x, 8);
    QuadBound(c, 12, x, 12);
  }

  /** The lanes of two chained SDOTs over 32 weights add up to their dot product. */
  lemma {:induction false} Dot32(c: seq<int>, x: seq<int>)
    requires |c| == 32 && |x| == 32 && Codes6(c) && Codes8(x)
    ensures var v := VDot(VDot(ZERO, c[..16], x[..16]), c[16..], x[16..]);
            v[0] + v[1] + v[2] + v[3] == Inner(c, x)
  {
    var c0, c1, x0, x1 := c[..16], c[16..], x[..16], x[16..];
    DotSplit(c, x, 16, 16);
    DotPrefix(c, x, 16, 16);
    Dot16(c0, x0);
    Dot16(c1, x1);
    QuadBound(c0, 0, x0, 0);
    QuadBound(c0, 4, x0, 4);
    QuadBound(c0, 8, x0, 8);
    QuadBound(c0, 12, x0, 12);
    QuadBound(c1, 0, x1, 0);
    QuadBound(c1, 4, x1, 4);
    QuadBound(c1, 8, x1, 8);
    QuadBound(c1, 12, x1, 12);
  }

  /** Scaling four lanes and adding them is scaling their sum. */
  lemma {:induction false} AcrossFma(acc: Real4, v: Int4, s: real)
    ensures VAddAcross(VFmaN(acc, VToReal(v), s)) == VAddAcross(acc) + (v[0] + v[1] + v[2] + v[3]) as real * s
  {
    var a, b, c, d := v[0] as real, v[1] as real, v[2] as real, v[3] as real;
    assert (v[0] + v[1] + v[2] + v[3]) as real == a + b + c + d;
    assert (a + b + c + d) * s == a * s + b * s + c * s + d * s;
  }

  // ---- sums of activation codes --------------------------------------------------

  method BlockSums(xq: seq<int>, width: nat) returns (s: seq<int>)
    requires (width == 16 || width == 32) && |xq| % 32 == 0
    ensures |s| == |xq| / width
    ensures forall b: nat | b < |s| :: width * b + width <= |xq| && s[b] == Total(xq[width * b..width * b + width])
  {
    s := [];
    while |s| < |xq| / width
      invariant |s| <= |xq| / width
      invariant forall b: nat | b < |s| :: width * b + width <= |xq| && s[b] == Total(xq[width * b..width * b + width])
    {
      var at := width * |s|;
      var sum, i := 0, 0;
      while i < width
        invariant i <= width && sum == Sum(xq[at..at + width], i)
      {
        sum := sum + xq[at + i];
        i := i + 1;
      }
      s := s + [sum];
    }
  }

  // ---- row-major rows ------------------------------------------------------------

  /** The kernels scale the dot and the sum apart. */
  lemma {:induction false} ShareParts(gain: real, offset: real, scale: real, dot: int, sum: int)
    ensures Share(gain, offset, scale, dot, sum) == dot as real * (gain * scale) - offset * scale * sum as real
  {
    var d, s := dot as real, sum as real;
    assert scale * (gain * d - offset * s) == scale * (gain * d) - scale * (offset * s);
    assert scale * (gain * d) == d * (gain * scale);
    assert scale * (offset * s) == offset * scale * s;
  }

  lemma {:induction false} NibbleCode(p: seq<Byte>, j: nat, l: nat)
    requires |p| == 144 && j < 4 && l < 32
    ensures Code(Q4K, p, 64 * j + l) == Low(p[16 + 32 * j + l])
    ensures Code(Q4K, p, 64 * j + 32 + l) == High(p[16 + 32 * j + l])
  {
    assert (64 * j + l) / 64 == j && (64 * j + l) % 32 == l && (64 * j + l) % 64 == l;
    assert (64 * j + 32 + l) / 64 == j && (64 * j + 32 + l) % 32 == l && (64 * j + 32 + l) % 64 == 32 + l;
  }

  lemma {:induction false} NibbleCodes(p: seq<Byte>, j: nat, at: nat, q: seq<Byte>)
    requires |p| == 144 && j < 4 && (at == 0 || at == 16) && q == p[16 + 32 * j + at..32 + 32 * j + at]
    ensures LowNibbles(q) == Codes(Q4K, p, 64 * j, 32)[at..at + 16]
    ensures HighNibbles(q) == Codes(Q4K, p, 64 * j + 32, 32)[at..at + 16]
  {
    hide Code, Low, High;
    forall i | 0 <= i < 16
      ensures LowNibbles(q)[i] == Codes(Q4K, p, 64 * j, 32)[at..at + 16][i]
      ensures HighNibbles(q)[i] == Codes(Q4K, p, 64 * j + 32, 32)[at..at + 16][i]
    {
      NibbleCode(p, j, at + i);
    }
  }

  /** The lanes of the 64 weights of chunk `j`: sub-block 2j is in the low nibbles, 2j + 1 in the high. */
  method DotsQ4(p: seq<Byte>, j: nat, x: seq<int>) returns (plo: Int4, phi: Int4)
    requires |p| == 144 && j < 4 && |x| == 64 && Codes8(x)
    ensures plo[0] + plo[1] + plo[2] + plo[3] == Inner(Codes(Q4K, p, 64 * j, 32), x[..32])
    ensures phi[0] + phi[1] + phi[2] + phi[3] == Inner(Codes(Q4K, p, 64 * j + 32, 32), x[32..])
  {
    hide Code, Inner, Wrap32, QuadAt, Low, High;
    var q := 16 + 32 * j;
    var q0, q1 := p[q..q + 16], p[q + 16..q + 32];
    plo := VDot(VDot(ZERO, LowNibbles(q0), x[..16]), LowNibbles(q1), x[16..32]);
    phi := VDot(VDot(ZERO, HighNibbles(q0), x[32..48]), HighNibbles(q1), x[48..]);
    NibbleCodes(p, j, 0, q0);
    NibbleCodes(p, j, 16, q1);
    ChainedDot(Codes(Q4K, p, 64 * j, 32), x[..32], LowNibbles(q0), LowNibbles(q1), x[..16], x[16..32]);
    ChainedDot(Codes(Q4K, p, 64 * j + 32, 32), x[32..], HighNibbles(q0), HighNibbles(q1), x[32..48], x[48..]);
  }

  lemma {:induction false} Share4Parts(half: Half, p: seq<Byte>, s: nat, scale: real, x: seq<int>, gain: real, offset: real, dot: int, sum: int)
    requires |p| == 144 && s < 8 && |x| == 32
    requires gain == Times(half(p[0], p[1]), ScaleMin(p[4..16], s).0 as int)
    requires offset == Times(half(p[2], p[3]), ScaleMin(p[4..16], s).1 as int)
    requires dot == Inner(Codes(Q4K, p, 32 * s, 32), x) && sum == Total(x)
    ensures Share4(half, p, s, scale, x) == Share(gain, offset, scale, dot, sum)
  {
    hide Share, Code, ScaleMin, Inner, Total, Times;
    assert 32 * s / 32 == s;
  }

  /** Sub-block `s`: scales and adds its lanes and its minimum. */
  method ScaleQ4(half: Half, p: seq<Byte>, s: nat, v: Int4, scale: real, sum: int, accv: Real4, accm: real, ghost x: seq<int>)
    returns (accv': Real4, accm': real)
    requires |p| == 144 && s < 8 && |x| == 32 && sum == Total(x)
    requires v[0] + v[1] + v[2] + v[3] == Inner(Codes(Q4K, p, 32 * s, 32), x)
    ensures VAddAcross(accv') - accm' == VAddAcross(accv) - accm + Share4(half, p, s, scale, x)
  {
    hide Share4, Share, Code, ScaleMin, VAddAcross, Inner, Total, Times;
    var d, dmin := half(p[0], p[1]), half(p[2], p[3]);
    var scm := ScaleMin(p[4..16], s);
    var gain, offset := Times(d, scm.0 as int), Times(dmin, scm.1 as int);
    ghost var dot := v[0] + v[1] + v[2] + v[3];
    Share4Parts(half, p, s, scale, x, gain, offset, dot, sum);
    accv', accm' := Accumulate(accv, accm, v, gain, offset, scale, sum, dot);
  }

  method ChunkQ4(half: Half, p: seq<Byte>, j: nat, x: seq<int>, scale0: real, scale1: real, sum0: int, sum1: int,
                 accv: Real4, accm: real)
    returns (accv': Real4, accm': real)
    requires |p| == 144 && j < 4 && |x| == 64 && Codes8(x) && sum0 == Total(x[..32]) && sum1 == Total(x[32..])
    ensures VAddAcross(accv') - accm' == VAddAcross(accv) - accm
              + Share4(half, p, 2 * j, scale0, x[..32]) + Share4(half, p, 2 * j + 1, scale1, x[32..])
  {
    hide Share4, Code, VAddAcross, Inner, Total;
    var plo, phi := DotsQ4(p, j, x);
    assert 32 * (2 * j) == 64 * j && 32 * (2 * j + 1) == 64 * j + 32;
    accv', accm' := ScaleQ4(half, p, 2 * j, plo, scale0, sum0, accv, accm, x[..32]);
    accv', accm' := ScaleQ4(half, p, 2 * j + 1, phi, scale1, sum1, accv', accm', x[32..]);
  }

  lemma {:induction false} ChainedDot(c: seq<int>, x: seq<int>, c0: seq<int>, c1: seq<int>, x0: seq<int>, x1: seq<int>)
    requires |c| == 32 && |x| == 32 && Codes6(c) && Codes8(x)
    requires c0 == c[0..16] && c1 == c[16..32] && x0 == x[..16] && x1 == x[16..32]
    ensures var v := VDot(VDot(ZERO, c0, x0), c1, x1); v[0] + v[1] + v[2] + v[3] == Inner(c, x)
  {
    assert c0 == c[..16] && c1 == c[16..] && x1 == x[16..];
    Dot32(c, x);
  }

  method Accumulate(accv: Real4, accm: real, v: Int4, gain: real, offset: real, scale: real, sum: int, ghost dot: int)
    returns (accv': Real4, accm': real)
    requires v[0] + v[1] + v[2] + v[3] == dot
    ensures VAddAcross(accv') - accm' == VAddAcross(accv) - accm + Share(gain, offset, scale, dot, sum)
  {
    accv' := VFmaN(accv, VToReal(v), gain * scale);
    accm' := accm + offset * scale * sum as real;
    AcrossFma(accv, v, gain * scale);
    ShareParts(gain, offset, scale, dot, sum);
  }

  lemma {:induction false} NoDot(w: seq<real>, xq: seq<int>, xs: seq<real>)
    requires |xq| <= 32 * |xs|
    ensures VAddAcross([0.0, 0.0, 0.0, 0.0]) - 0.0 == RealDot(w, xq, xs, 0)
  {
  }

  lemma {:induction false} ChunkStep(half: Half, row: seq<seq<Byte>>, xq: seq<int>, xs: seq<real>, k: nat, j: nat)
    requires Row(Q4K, row) && Activation(xq, xs, |row|) && k < |row| && j < 4
    ensures var w, x := Weights(Q4K, half, row), xq[256 * k + 64 * j..256 * k + 64 * j + 64];
            RealDot(w, xq, xs, 256 * k + 64 * (j + 1)) == RealDot(w, xq, xs, 256 * k + 64 * j)
              + Share4(half, row[k], 2 * j, xs[8 * k + 2 * j], x[..32]) + Share4(half, row[k], 2 * j + 1, xs[8 * k + 2 * j + 1], x[32..])
  {
    hide Share4, RealDot, Weights;
    SubBlock4(half, row, xq, xs, k, 2 * j);
    SubBlock4(half, row, xq, xs, k, 2 * j + 1);
    var at := 256 * k + 64 * j;
    assert xq[at..at + 64][..32] == xq[at..at + 32] && xq[at..at + 64][32..] == xq[at + 32..at + 64];
  }

  method RowQ4(half: Half, row: seq<seq<Byte>>, xq: seq<int>, xs: seq<real>) returns (y: real)
    requires Row(Q4K, row) && Activation(xq, xs, |row|)
    ensures y == RealDot(Weights(Q4K, half, row), xq, xs, 256 * |row|)
  {
    hide Share4, RealDot, Weights, Total, VAddAcross;
    var xsum := BlockSums(xq, 32);
    var accv: Real4, accm := [0.0, 0.0, 0.0, 0.0], 0.0;
    ghost var w := Weights(Q4K, half, row);
    NoDot(w, xq, xs);
    var k := 0;
    while k < |row|
      invariant k <= |row| && VAddAcross(accv) - accm == RealDot(w, xq, xs, 256 * k)
    {
      var j := 0;
      while j < 4
        invariant j <= 4 && VAddAcross(accv) - accm == RealDot(w, xq, xs, 256 * k + 64 * j)
      {
        var b0, x := 8 * k + 2 * j, xq[256 * k + 64 * j..256 * k + 64 * j + 64];
        assert x[..32] == xq[32 * b0..32 * b0 + 32] && x[32..] == xq[32 * (b0 + 1)..32 * (b0 + 1) + 32];
        ChunkStep(half, row, xq, xs, k, j);
        accv, accm := ChunkQ4(half, row[k], j, x, xs[b0], xs[b0 + 1], xsum[b0], xsum[b0 + 1], accv, accm);
        j := j + 1;
      }
      k := k + 1;
    }
    y := VAddAcross(accv) - accm;
  }

  // ---- row-major Q6_K ------------------------------------------------------------

  /** Sixteen 6-bit codes from low nibbles and pairs of high bits. */
  function SixVec(lo: seq<Byte>, hi: seq<Byte>, quarter: nat): (c: seq<int>)
    requires |lo| == 16 && |hi| == 16 && quarter < 4
    ensures |c| == 16
  {
    seq(16, i requires 0 <= i < 16 => SixBits(lo[i], hi[i], quarter) as int)
  }

  lemma {:induction false} SixCode(p: seq<Byte>, h: nat, quarter: nat, l: nat)
    requires |p| == 210 && h < 2 && quarter < 4 && l < 32
    ensures Code(Q6K, p, 128 * h + 32 * quarter + l)
         == SixBits(p[64 * h + 32 * (quarter % 2) + l], p[128 + 32 * h + l], quarter) as int
  {
    hide SixBits;
    var e := 128 * h + 32 * quarter + l;
    assert e / 128 == h && e % 128 / 32 == quarter && e % 32 == l;
  }

  lemma {:induction false} SixCodes(p: seq<Byte>, h: nat, quarter: nat, off: nat, lo: seq<Byte>, hi: seq<Byte>)
    requires |p| == 210 && h < 2 && quarter < 4 && (off == 0 || off == 16)
    requires lo == p[64 * h + 32 * (quarter % 2) + off..64 * h + 32 * (quarter % 2) + off + 16]
    requires hi == p[128 + 32 * h + off..128 + 32 * h + off + 16]
    ensures SixVec(lo, hi, quarter) == Codes(Q6K, p, 128 * h + 32 * quarter + off, 16)
  {
    hide SixBits, Code;
    forall i | 0 <= i < 16
      ensures SixVec(lo, hi, quarter)[i] == Codes(Q6K, p, 128 * h + 32 * quarter + off, 16)[i]
    {
      SixCode(p, h, quarter, off + i);
    }
  }

  lemma {:induction false} Share6Parts(half: Half, p: seq<Byte>, g: nat, scale: real, x: seq<int>, gain: real, dot: int, sum: int)
    requires |p| == 210 && g < 16 && |x| == 16
    requires gain == Times(half(p[208], p[209]), Int8(p[192 + g]))
    requires dot == Inner(Codes(Q6K, p, 16 * g, 16), x) && sum == Total(x)
    ensures Share6(half, p, g, scale, x) == dot as real * (gain * scale) - gain * scale * 32.0 * sum as real
  {
    hide Share, Code, Inner, Total, Times, Int8;
    assert 16 * g / 16 == g;
    assert Gain(Q6K, half, p, 16 * g) == gain && Offset(Q6K, half, p, 16 * g) == gain * 32.0;
    ShareParts(gain, gain * 32.0, scale, dot, sum);
    assert gain * 32.0 * scale * sum as real == gain * scale * 32.0 * sum as real;
  }

  /** Sub-block `g`: scales and adds its lanes and its folded offset. */
  method ScaleQ6(half: Half, p: seq<Byte>, g: nat, v: Int4, scale: real, sum: int, accv: Real4, accm: real, ghost x: seq<int>)
    returns (accv': Real4, accm': real)
    requires |p| == 210 && g < 16 && |x| == 16 && sum == Total(x)
    requires v[0] + v[1] + v[2] + v[3] == Inner(Codes(Q6K, p, 16 * g, 16), x)
    ensures VAddAcross(accv') - accm' == VAddAcross(accv) - accm + Share6(half, p, g, scale, x)
  {
    hide Share6, Code, Inner, Total, VAddAcross, Times, Int8, VFmaN, VToReal;
    var gain := Times(half(p[208], p[209]), Int8(p[192 + g]));
    ghost var dot := v[0] + v[1] + v[2] + v[3];
    accv' := VFmaN(accv, VToReal(v), gain * scale);
    accm' := accm + gain * scale * 32.0 * sum as real;
    AcrossFma(accv, v, gain * scale);
    Share6Parts(half, p, g, scale, x, gain, dot, sum);
  }

  /** What sub-block `g` of block `k` adds to a row dot. */
  function Part6(half: Half, row: seq<seq<Byte>>, xq: seq<int>, xs: seq<real>, k: nat, g: nat): real
    requires Row(Q6K, row) && Activation(xq, xs, |row|) && k < |row| && g < 16
  {
    Share6(half, row[k], g, xs[8 * k + g / 2], xq[256 * k + 16 * g..256 * k + 16 * g + 16])
  }

  /** What sub-blocks g, g + 2, ..., g + 2n - 2 add. */
  function EverySecond(half: Half, row: seq<seq<Byte>>, xq: seq<int>, xs: seq<real>, k: nat, g: nat, n: nat): real
    requires Row(Q6K, row) && Activation(xq, xs, |row|) && k < |row| && g + 2 * n <= 17
  {
    if n == 0 then 0.0
    else EverySecond(half, row, xq, xs, k, g, n - 1) + Part6(half, row, xq, xs, k, g + 2 * (n - 1))
  }

  lemma {:induction false} PairsStep(half: Half, row: seq<seq<Byte>>, xq: seq<int>, xs: seq<real>, k: nat, g: nat, n: nat)
    requires Row(Q6K, row) && Activation(xq, xs, |row|) && k < |row| && g + 2 * n <= 16
    ensures var w := Weights(Q6K, half, row);
            RealDot(w, xq, xs, 256 * k + 16 * (g + 2 * n)) == RealDot(w, xq, xs, 256 * k + 16 * g)
              + EverySecond(half, row, xq, xs, k, g, n) + EverySecond(half, row, xq, xs, k, g + 1, n)
  {
    hide Share6, Weights, RealDot;
    if n > 0 {
      PairsStep(half, row, xq, xs, k, g, n - 1);
      var at := g + 2 * (n - 1);
      SubBlock6(half, row, xq, xs, k, at);
      SubBlock6(half, row, xq, xs, k, at + 1);
      assert 256 * k + 16 * at + 16 == 256 * k + 16 * (at + 1) && 16 * (at + 1) + 16 == 16 * (g + 2 * n);
    }
  }

  /** The sixteen codes of each quarter at offset `off` of half `h`, from one load per plane. */
  method VectorsQ6(p: seq<Byte>, h: nat, off: nat) returns (q: seq<seq<int>>)
    requires |p| == 210 && h < 2 && (off == 0 || off == 16)
    ensures |q| == 4 && forall quarter: nat | quarter < 4 :: q[quarter] == Codes(Q6K, p, 128 * h + 32 * quarter + off, 16)
  {
    hide SixBits, Code;
    var ql, qh := 64 * h, 128 + 32 * h;
    var qlv, qlv2, qhv := p[ql + off..ql + off + 16], p[ql + off + 32..ql + off + 48], p[qh + off..qh + off + 16];
    q := [SixVec(qlv, qhv, 0), SixVec(qlv2, qhv, 1), SixVec(qlv, qhv, 2), SixVec(qlv2, qhv, 3)];
    SixCodes(p, h, 0, off, qlv, qhv);
    SixCodes(p, h, 1, off, qlv2, qhv);
    SixCodes(p, h, 2, off, qlv, qhv);
    SixCodes(p, h, 3, off, qlv2, qhv);
  }

  method RowQ6(half: Half, row: seq<seq<Byte>>, xq: seq<int>, xs: seq<real>) returns (y: real)
    requires Row(Q6K, row) && Activation(xq, xs, |row|)
    ensures y == RealDot(Weights(Q6K, half, row), xq, xs, 256 * |row|)
  {
    hide Share6, Weights, RealDot, Total, VAddAcross;
    var xsum := BlockSums(xq, 16);
    var accv: Real4, accm := [0.0, 0.0, 0.0, 0.0], 0.0;
    ghost var w := Weights(Q6K, half, row);
    NoDot(w, xq, xs);
    var k := 0;
    while k < |row|
      invariant k <= |row| && VAddAcross(accv) - accm == RealDot(w, xq, xs, 256 * k)
    {
      var h := 0;
      while h < 2
        invariant h <= 2 && VAddAcross(accv) - accm == RealDot(w, xq, xs, 256 * k + 128 * h)
      {
        PairsStep(half, row, xq, xs, k, 8 * h, 4);
        accv, accm := HalfOffset(half, row, xq, xs, xsum, k, h, 0, accv, accm);
        accv, accm := HalfOffset(half, row, xq, xs, xsum, k, h, 16, accv, accm);
        h := h + 1;
      }
      k := k + 1;
    }
    y := VAddAcross(accv) - accm;
  }

  /** One 16-wide group of each quarter of half `h`. */
  method HalfOffset(half: Half, row: seq<seq<Byte>>, xq: seq<int>, xs: seq<real>, xsum: seq<int>, k: nat, h: nat, off: nat,
                    accv: Real4, accm: real)
    returns (accv': Real4, accm': real)
    requires Row(Q6K, row) && Activation(xq, xs, |row|) && k < |row| && h < 2 && (off == 0 || off == 16)
    requires |xsum| == 16 * |row| && forall b: nat | b < |xsum| :: xsum[b] == Total(xq[16 * b..16 * b + 16])
    ensures VAddAcross(accv') - accm'
         == VAddAcross(accv) - accm + EverySecond(half, row, xq, xs, k, 8 * h + off / 16, 4)
  {
    hide Part6, Code, Total, VAddAcross;
    var q := VectorsQ6(row[k], h, off);
    var s, quarter := off / 16, 0;
    accv', accm' := accv, accm;
    while quarter < 4
      invariant quarter <= 4
      invariant VAddAcross(accv') - accm'
             == VAddAcross(accv) - accm + EverySecond(half, row, xq, xs, k, 8 * h + s, quarter)
    {
      var g := 8 * h + s + 2 * quarter;
      assert 16 * g == 128 * h + 32 * quarter + off;
      accv', accm' := GroupQ6(half, row, xq, xs, xsum, k, g, q[quarter], accv', accm');
      quarter := quarter + 1;
    }
  }

  method GroupQ6(half: Half, row: seq<seq<Byte>>, xq: seq<int>, xs: seq<real>, xsum: seq<int>, k: nat, g: nat, q: seq<int>,
                 accv: Real4, accm: real)
    returns (accv': Real4, accm': real)
    requires Row(Q6K, row) && Activation(xq, xs, |row|) && k < |row| && g < 16 && q == Codes(Q6K, row[k], 16 * g, 16)
    requires |xsum| == 16 * |row| && forall b: nat | b < |xsum| :: xsum[b] == Total(xq[16 * b..16 * b + 16])
    ensures VAddAcross(accv') - accm' == VAddAcross(accv) - accm + Part6(half, row, xq, xs, k, g)
  {
    hide Share6, Code, Inner, Total, VAddAcross;
    var e := 256 * k + 16 * g;
    var x := xq[e..e + 16];
    assert e / 16 == 16 * k + g && e / 32 == 8 * k + g / 2;
    LanesOf(row[k], g, q, x);
    accv', accm' := ScaleQ6(half, row[k], g, VDot(ZERO, q, x), xs[e / 32], xsum[e / 16], accv, accm, x);
  }

  lemma {:induction false} LanesOf(p: seq<Byte>, g: nat, c: seq<int>, x: seq<int>)
    requires |p| == 210 && g < 16 && |x| == 16 && Codes8(x) && c == Codes(Q6K, p, 16 * g, 16)
    ensures var v := VDot(ZERO, c, x); v[0] + v[1] + v[2] + v[3] == Inner(Codes(Q6K, p, 16 * g, 16), x)
  {
    hide Code;
    Dot16(c, x);
  }
}
