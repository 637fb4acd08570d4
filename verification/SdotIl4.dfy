/** The SDOT kernels on weights interleaved four rows at a time: lane `r` of every accumulator
    belongs to row `r` of a group, and every token gets the dot product with the original row. */
module SdotInterleaved {
  import opened Quants
  import opened Interleaving
  import opened Sdot

  // ---- chains of lane dots -------------------------------------------------------

  /** Lane `r` of vector `v` holds codes [4v, 4v + 4) of row `r`. */
  ghost predicate Lanes(q: seq<int>, c: seq<seq<int>>, v: nat) {
    |q| == 16 && |c| == 4 && forall r: nat | r < 4 :: Lane(q, c[r], r, v)
  }

  predicate Lane(q: seq<int>, c: seq<int>, r: nat, v: nat) {
    && 4 * r + 4 <= |q| && 4 * v + 4 <= |c|
    && q[4 * r] == c[4 * v] && q[4 * r + 1] == c[4 * v + 1] && q[4 * r + 2] == c[4 * v + 2] && q[4 * r + 3] == c[4 * v + 3]
  }

  /** The codes of four rows over one run of activations. */
  ghost predicate Rows(c: seq<seq<int>>, a: seq<int>) {
    |c| == 4 && Codes8(a) && forall r | 0 <= r < 4 :: |c[r]| == |a| && Codes6(c[r])
  }

  lemma {:induction false} LaneStep(acc: Int4, q: seq<int>, c: seq<seq<int>>, a: seq<int>, v: nat, r: nat)
    requires Rows(c, a) && 4 * v + 4 <= |a| && |a| % 16 == 0 && Lanes(q, c, v) && r < 4
    requires -1_000_000 <= acc[r] <= 1_000_000
    ensures VDotLane(acc, q, a[16 * (v / 4)..16 * (v / 4) + 16], v % 4)[r] == acc[r] + Quad(c[r], a, v)
    ensures -32004 <= Quad(c[r], a, v) <= 32004
  {
    var x := a[16 * (v / 4)..16 * (v / 4) + 16];
    QuadBound(c[r], 4 * v, a, 4 * v);
    assert Lane(q, c[r], r, v);
    assert 4 * (v % 4) + 16 * (v / 4) == 4 * v;
    assert QuadAt(q, 4 * r, x, 4 * (v % 4)) == Quad(c[r], a, v);
    assert r == 0 || r == 1 || r == 2 || r == 3;
  }

  /** After `v` vectors two accumulators together hold the dot products so far. */
  ghost predicate Chained(acc0: Int4, acc1: Int4, start: int, c: seq<seq<int>>, a: seq<int>, v: nat) {
    && Rows(c, a) && 4 * v <= |a|
    && forall r | 0 <= r < 4 ::
         && acc0[r] + acc1[r] == start + Dot(c[r], a, 4 * v)
         && -100_000 - 32004 * v <= acc0[r] <= 100_000 + 32004 * v && -32004 * v <= acc1[r] <= 32004 * v
  }

  lemma {:induction false} ChainStep(acc0: Int4, acc1: Int4, start: int, q: seq<int>, c: seq<seq<int>>, a: seq<int>, v: nat)
    requires Chained(acc0, acc1, start, c, a, v) && 4 * v + 4 <= |a| && |a| % 16 == 0 && Lanes(q, c, v) && v < 8
    ensures Chained(VDotLane(acc0, q, a[16 * (v / 4)..16 * (v / 4) + 16], v % 4), acc1, start, c, a, v + 1)
    ensures Chained(acc0, VDotLane(acc1, q, a[16 * (v / 4)..16 * (v / 4) + 16], v % 4), start, c, a, v + 1)
  {
    hide VDotLane, Quad;
    forall r: nat | r < 4
      ensures VDotLane(acc0, q, a[16 * (v / 4)..16 * (v / 4) + 16], v % 4)[r] == acc0[r] + Quad(c[r], a, v)
      ensures VDotLane(acc1, q, a[16 * (v / 4)..16 * (v / 4) + 16], v % 4)[r] == acc1[r] + Quad(c[r], a, v)
      ensures -32004 <= Quad(c[r], a, v) <= 32004
      ensures Dot(c[r], a, 4 * (v + 1)) == Dot(c[r], a, 4 * v) + Quad(c[r], a, v)
    {
      LaneStep(acc0, q, c, a, v, r);
      LaneStep(acc1, q, c, a, v, r);
      QuadStep(c[r], a, v);
    }
  }

  /** Adds the dot products of `a` with the vectors `q`, in one chain or in two. */
  method Chain(q: seq<seq<int>>, a: seq<int>, start: int, split: bool, ghost c: seq<seq<int>>) returns (acc: Int4)
    requires |a| == 4 * |q| && |a| % 16 == 0 && |q| <= 8 && Rows(c, a) && -100_000 <= start <= 100_000
    requires forall v | 0 <= v < |q| :: Lanes(q[v], c, v)
    ensures forall r | 0 <= r < 4 :: acc[r] == start + Inner(c[r], a)
  {
    hide VDotLane, Lanes;
    var acc0: Int4, acc1: Int4 := VDup(start), ZERO;
    var v := 0;
    while v < |q|
      invariant v <= |q| && Chained(acc0, acc1, start, c, a, v) && (!split ==> acc1 == ZERO)
    {
      ChainStep(acc0, acc1, start, q[v], c, a, v);
      assert |q[v]| == 16 by {
        VectorSize(q[v], c, v);
      }
      var x := a[16 * (v / 4)..16 * (v / 4) + 16];
      if split && v % 2 == 1 {
        acc1 := VDotLane(acc1, q[v], x, v % 4);
      } else {
        acc0 := VDotLane(acc0, q[v], x, v % 4);
      }
      v := v + 1;
    }
    acc := if split then VAdd(acc0, acc1) else acc0;
    forall r | 0 <= r < 4
      ensures acc[r] == start + Inner(c[r], a)
    {
      assert acc0[r] + acc1[r] == start + Dot(c[r], a, 4 * v);
      assert r == 0 || r == 1 || r == 2 || r == 3;
    }
  }

  lemma {:induction false} VectorSize(q: seq<int>, c: seq<seq<int>>, v: nat)
    requires Lanes(q, c, v)
    ensures |q| == 16
  {
  }

  // ---- tokens and rows -----------------------------------------------------------

  /** A quantized activation row. */
  datatype Token = Token(xq: seq<int>, xs: seq<real>)

  ghost predicate Tokens(toks: seq<Token>, nsb: nat) {
    forall t | 0 <= t < |toks| :: Activation(toks[t].xq, toks[t].xs, nsb)
  }

  /** Four rows of `nsb` super-blocks. */
  ghost predicate Group(f: Format, rows: seq<seq<seq<Byte>>>, nsb: nat) {
    |rows| == 4 && forall r | 0 <= r < 4 :: |rows[r]| == nsb && Row(f, rows[r])
  }

  /** The dot product of row `r` with a token, up to weight `n`. */
  ghost function Upto(f: Format, half: Half, rows: seq<seq<seq<Byte>>>, r: nat, tok: Token, nsb: nat, n: nat): real
    requires Group(f, rows, nsb) && Activation(tok.xq, tok.xs, nsb) && r < 4 && n <= 256 * nsb
  {
    RealDot(Weights(f, half, rows[r]), tok.xq, tok.xs, n)
  }

  /** The four lanes have reached weight `n`. */
  ghost predicate Reached(f: Format, half: Half, rows: seq<seq<seq<Byte>>>, tok: Token, nsb: nat, n: nat, accv: Real4, accm: Real4)
    requires Group(f, rows, nsb) && Activation(tok.xq, tok.xs, nsb) && n <= 256 * nsb
  {
    forall r: nat | r < 4 :: accv[r] - accm[r] == Upto(f, half, rows, r, tok, nsb, n)
  }

  /** The codes of weights [e, e + n) of super-block `k` of the four rows. */
  ghost function RowCodes(f: Format, p: seq<seq<Byte>>, e: nat, n: nat): (c: seq<seq<int>>)
    requires |p| == 4 && Row(f, p) && e + n <= 256
    ensures |c| == 4 && forall r | 0 <= r < 4 :: c[r] == Codes(f, p[r], e, n)
  {
    [Codes(f, p[0], e, n), Codes(f, p[1], e, n), Codes(f, p[2], e, n), Codes(f, p[3], e, n)]
  }

  // ---- Q4_K ----------------------------------------------------------------------

  lemma {:induction false} NibbleAt(il: seq<Byte>, p: seq<seq<Byte>>, j: nat, v: nat, r: nat, x: nat)
    requires Holds(Q4K, il, p) && j < 4 && v < 8 && r < 4 && x < 4
    ensures Low(il[64 + 128 * j + 16 * v + 4 * r + x]) == Code(Q4K, p[r], 64 * j + (4 * v + x))
    ensures High(il[64 + 128 * j + 16 * v + 4 * r + x]) == Code(Q4K, p[r], 64 * j + 32 + (4 * v + x))
  {
    hide Code, At, Low, High;
    AtQuads(Q4K, r, 16 + 32 * j + 4 * v, 64, 16, x);
    assert il[At(Q4K, r, 16 + 32 * j + 4 * v + x)] == p[r][16 + 32 * j + 4 * v + x];
    NibbleCode(p[r], j, 4 * v + x);
  }

  lemma {:induction false} NibbleCell(il: seq<Byte>, p: seq<seq<Byte>>, j: nat, v: nat, w: seq<Byte>, r: nat, x: nat)
    requires Holds(Q4K, il, p) && j < 4 && v < 8 && w == il[64 + 128 * j + 16 * v..80 + 128 * j + 16 * v] && r < 4 && x < 4
    ensures LowNibbles(w)[4 * r + x] == Codes(Q4K, p[r], 64 * j, 32)[4 * v + x]
    ensures HighNibbles(w)[4 * r + x] == Codes(Q4K, p[r], 64 * j + 32, 32)[4 * v + x]
  {
    hide Code, Low, High;
    NibbleAt(il, p, j, v, r, x);
    assert w[4 * r + x] == il[64 + 128 * j + 16 * v + 4 * r + x];
  }

  lemma {:induction false} LaneQ4(il: seq<Byte>, p: seq<seq<Byte>>, j: nat, v: nat, w: seq<Byte>, r: nat)
    requires Holds(Q4K, il, p) && j < 4 && v < 8 && w == il[64 + 128 * j + 16 * v..80 + 128 * j + 16 * v] && r < 4
    ensures Lane(LowNibbles(w), Codes(Q4K, p[r], 64 * j, 32), r, v)
    ensures Lane(HighNibbles(w), Codes(Q4K, p[r], 64 * j + 32, 32), r, v)
  {
    hide Code, Codes, LowNibbles, HighNibbles;
    NibbleCell(il, p, j, v, w, r, 0);
    NibbleCell(il, p, j, v, w, r, 1);
    NibbleCell(il, p, j, v, w, r, 2);
    NibbleCell(il, p, j, v, w, r, 3);
  }

  /** Vector `v` of chunk `j` carries the nibbles of weights 64j + 4v and 64j + 32 + 4v on. */
  lemma {:induction false} VectorQ4(il: seq<Byte>, p: seq<seq<Byte>>, j: nat, v: nat, w: seq<Byte>)
    requires Holds(Q4K, il, p) && j < 4 && v < 8 && w == il[64 + 128 * j + 16 * v..80 + 128 * j + 16 * v]
    ensures Lanes(LowNibbles(w), RowCodes(Q4K, p, 64 * j, 32), v)
    ensures Lanes(HighNibbles(w), RowCodes(Q4K, p, 64 * j + 32, 32), v)
  {
    hide Code, Low, High, Lane;
    forall r: nat | r < 4
      ensures Lane(LowNibbles(w), RowCodes(Q4K, p, 64 * j, 32)[r], r, v)
      ensures Lane(HighNibbles(w), RowCodes(Q4K, p, 64 * j + 32, 32)[r], r, v)
    {
      LaneQ4(il, p, j, v, w, r);
    }
  }

  /** The eight vectors of chunk `j`, split into nibbles. */
  method LoadQ4(il: seq<Byte>, j: nat, ghost p: seq<seq<Byte>>) returns (lo: seq<seq<int>>, hi: seq<seq<int>>)
    requires Holds(Q4K, il, p) && j < 4
    ensures |lo| == 8 && |hi| == 8
    ensures forall v | 0 <= v < 8 :: Lanes(lo[v], RowCodes(Q4K, p, 64 * j, 32), v)
    ensures forall v | 0 <= v < 8 :: Lanes(hi[v], RowCodes(Q4K, p, 64 * j + 32, 32), v)
  {
    hide Lanes, RowCodes;
    lo, hi := [], [];
    while |lo| < 8
      invariant |lo| == |hi| <= 8
      invariant forall v | 0 <= v < |lo| :: Lanes(lo[v], RowCodes(Q4K, p, 64 * j, 32), v)
      invariant forall v | 0 <= v < |lo| :: Lanes(hi[v], RowCodes(Q4K, p, 64 * j + 32, 32), v)
    {
      var v := |lo|;
      var w := il[64 + 128 * j + 16 * v..80 + 128 * j + 16 * v];
      VectorQ4(il, p, j, v, w);
      lo, hi := lo + [LowNibbles(w)], hi + [HighNibbles(w)];
    }
  }

  /** The scale and the minimum of sub-block `i` of row `r`, from the bytes interleaved by row. */
  function LaneScaleMin(il: seq<Byte>, i: nat, r: nat): (Byte, Byte)
    requires |il| == 576 && i < 8 && r < 4
  {
    if i < 4 then (il[16 + 4 * i + r] & 63, il[32 + 4 * i + r] & 63)
    else ((il[48 + 4 * (i - 4) + r] & 15) | ((il[16 + 4 * (i - 4) + r] >> 6) << 4),
          (il[48 + 4 * (i - 4) + r] >> 4) | ((il[32 + 4 * (i - 4) + r] >> 6) << 4))
  }

  lemma {:induction false} PackedScaleAt(il: seq<Byte>, p: seq<seq<Byte>>, i: nat, r: nat)
    requires Holds(Q4K, il, p) && i < 12 && r < 4
    ensures il[16 + 4 * i + r] == p[r][4..16][i]
  {
    assert il[At(Q4K, r, 4 + i)] == p[r][4 + i];
  }

  lemma {:induction false} LaneScaleMinIs(il: seq<Byte>, p: seq<seq<Byte>>, i: nat, r: nat)
    requires Holds(Q4K, il, p) && i < 8 && r < 4
    ensures LaneScaleMin(il, i, r) == ScaleMin(p[r][4..16], i)
  {
    PackedScaleAt(il, p, i, r);
    PackedScaleAt(il, p, i + 4, r);
    PackedScaleAt(il, p, if i < 4 then 0 else i - 4, r);
    hide Holds;
  }

  /** Factor vector `i` of a block: a gain for i < 8, else an offset, one row per lane. */
  ghost predicate Factor(half: Half, s: Real4, p: seq<seq<Byte>>, i: nat)
    requires |p| == 4 && Row(Q4K, p) && i < 16
  {
    forall r: nat | r < 4 ::
      s[r] == if i < 8 then Times(half(p[r][0], p[r][1]), ScaleMin(p[r][4..16], i).0 as int)
              else Times(half(p[r][2], p[r][3]), ScaleMin(p[r][4..16], i - 8).1 as int)
  }

  ghost predicate Factors(half: Half, s: seq<Real4>, p: seq<seq<Byte>>) {
    |s| == 16 && |p| == 4 && Row(Q4K, p) && forall i | 0 <= i < 16 :: Factor(half, s[i], p, i)
  }

  function LaneGains(d: Real4, il: seq<Byte>, i: nat): Real4
    requires |il| == 576 && i < 8
  {
    [Times(d[0], LaneScaleMin(il, i, 0).0 as int), Times(d[1], LaneScaleMin(il, i, 1).0 as int),
     Times(d[2], LaneScaleMin(il, i, 2).0 as int), Times(d[3], LaneScaleMin(il, i, 3).0 as int)]
  }

  function LaneOffsets(d: Real4, il: seq<Byte>, i: nat): Real4
    requires |il| == 576 && i < 8
  {
    [Times(d[0], LaneScaleMin(il, i, 0).1 as int), Times(d[1], LaneScaleMin(il, i, 1).1 as int),
     Times(d[2], LaneScaleMin(il, i, 2).1 as int), Times(d[3], LaneScaleMin(il, i, 3).1 as int)]
  }

  lemma {:induction false} FactorIs(half: Half, il: seq<Byte>, p: seq<seq<Byte>>, d4: Real4, dm4: Real4, i: nat)
    requires Holds(Q4K, il, p) && i < 8
    requires forall r | 0 <= r < 4 :: d4[r] == half(p[r][0], p[r][1]) && dm4[r] == half(p[r][2], p[r][3])
    ensures Factor(half, LaneGains(d4, il, i), p, i) && Factor(half, LaneOffsets(dm4, il, i), p, 8 + i)
  {
    hide ScaleMin, LaneScaleMin, Times;
    LaneScaleMinIs(il, p, i, 0);
    LaneScaleMinIs(il, p, i, 1);
    LaneScaleMinIs(il, p, i, 2);
    LaneScaleMinIs(il, p, i, 3);
  }

  /** Decodes the scales and minimums of a block, all rows at once. */
  method DecodeQ4(half: Half, il: seq<Byte>, ghost p: seq<seq<Byte>>) returns (s: seq<Real4>)
    requires Holds(Q4K, il, p)
    ensures Factors(half, s, p)
  {
    hide LaneGains, LaneOffsets, Factor;
    var d4: Real4 := [half(il[0], il[1]), half(il[2], il[3]), half(il[4], il[5]), half(il[6], il[7])];
    var dm4: Real4 := [half(il[8], il[9]), half(il[10], il[11]), half(il[12], il[13]), half(il[14], il[15])];
    HalvesQ4(half, il, p, d4, dm4);
    var gains: seq<Real4>, offsets: seq<Real4> := [], [];
    while |gains| < 8
      invariant |gains| == |offsets| <= 8
      invariant forall i | 0 <= i < |gains| :: Factor(half, gains[i], p, i)
      invariant forall i | 0 <= i < |gains| :: Factor(half, offsets[i], p, 8 + i)
    {
      var i := |gains|;
      FactorIs(half, il, p, d4, dm4, i);
      gains, offsets := gains + [LaneGains(d4, il, i)], offsets + [LaneOffsets(dm4, il, i)];
    }
    s := gains + offsets;
  }

  lemma {:induction false} HalvesQ4(half: Half, il: seq<Byte>, p: seq<seq<Byte>>, d4: Real4, dm4: Real4)
    requires Holds(Q4K, il, p)
    requires d4 == [half(il[0], il[1]), half(il[2], il[3]), half(il[4], il[5]), half(il[6], il[7])]
    requires dm4 == [half(il[8], il[9]), half(il[10], il[11]), half(il[12], il[13]), half(il[14], il[15])]
    ensures forall r | 0 <= r < 4 :: d4[r] == half(p[r][0], p[r][1]) && dm4[r] == half(p[r][2], p[r][3])
  {
    forall r: nat | r < 4
      ensures d4[r] == half(p[r][0], p[r][1]) && dm4[r] == half(p[r][2], p[r][3])
    {
      assert il[At(Q4K, r, 0)] == p[r][0] && il[At(Q4K, r, 1)] == p[r][1];
      assert il[At(Q4K, r, 2)] == p[r][2] && il[At(Q4K, r, 3)] == p[r][3];
    }
  }

  /** Adds the dots of one sub-block, and subtracts its minimums, in one lane. */
  lemma {:induction false} LaneShare4(half: Half, p: seq<Byte>, s: nat, scale: real, x: seq<int>, gain: real, offset: real, dot: int, xm: real,
                   accv: real, accm: real)
    requires |p| == 144 && s < 8 && |x| == 32
    requires gain == Times(half(p[0], p[1]), ScaleMin(p[4..16], s).0 as int)
    requires offset == Times(half(p[2], p[3]), ScaleMin(p[4..16], s).1 as int)
    requires dot == Inner(Codes(Q4K, p, 32 * s, 32), x) && xm == scale * Total(x) as real
    ensures (accv + dot as real * (gain * scale)) - (accm + offset * xm) == accv - accm + Share4(half, p, s, scale, x)
  {
    hide ScaleMin, Code, Inner, Total, Times, Share4;
    var sum := Total(x);
    Share4Parts(half, p, s, scale, x, gain, offset, dot, sum);
    ShareParts(gain, offset, scale, dot, sum);
    var t := sum as real;
    assert offset * (scale * t) == offset * scale * t;
  }

  /** One sub-block of one token, four rows at once. */
  method SubQ4(half: Half, v: Int4, gain: Real4, offset: Real4, scale: real, xm: real, accv: Real4, accm: Real4,
               ghost p: seq<seq<Byte>>, ghost s: nat, ghost x: seq<int>)
    returns (accv': Real4, accm': Real4)
    requires |p| == 4 && Row(Q4K, p) && s < 8 && |x| == 32 && xm == scale * Total(x) as real
    requires Factor(half, gain, p, s) && Factor(half, offset, p, 8 + s)
    requires forall r | 0 <= r < 4 :: v[r] == Inner(Codes(Q4K, p[r], 32 * s, 32), x)
    ensures forall r | 0 <= r < 4 :: accv'[r] - accm'[r] == accv[r] - accm[r] + Share4(half, p[r], s, scale, x)
  {
    hide ScaleMin, Code, Inner, Total, Share4, Times;
    accv' := VFma(accv, VToReal(v), VScale(gain, scale));
    accm' := VFmaN(accm, offset, xm);
    forall r: nat | r < 4
      ensures accv'[r] - accm'[r] == accv[r] - accm[r] + Share4(half, p[r], s, scale, x)
    {
      LaneShare4(half, p[r], s, scale, x, gain[r], offset[r], v[r], xm, accv[r], accm[r]);
      assert r == 0 || r == 1 || r == 2 || r == 3;
    }
  }

  /** Chunk `j` of super-block `k` for one token. */
  method TokenQ4(half: Half, lo: seq<seq<int>>, hi: seq<seq<int>>, s: seq<Real4>, tok: Token, xm: seq<real>, nsb: nat, k: nat, j: nat,
                 split: bool, accv: Real4, accm: Real4, ghost rows: seq<seq<seq<Byte>>>, ghost p: seq<seq<Byte>>)
    returns (accv': Real4, accm': Real4)
    requires Group(Q4K, rows, nsb) && Activation(tok.xq, tok.xs, nsb) && k < nsb && j < 4 && p == Column(rows, k)
    requires |lo| == 8 && |hi| == 8 && Factors(half, s, p) && Minimums(xm, tok, nsb)
    requires forall v | 0 <= v < 8 :: Lanes(lo[v], RowCodes(Q4K, p, 64 * j, 32), v)
    requires forall v | 0 <= v < 8 :: Lanes(hi[v], RowCodes(Q4K, p, 64 * j + 32, 32), v)
    requires Reached(Q4K, half, rows, tok, nsb, 256 * k + 64 * j, accv, accm)
    ensures Reached(Q4K, half, rows, tok, nsb, 256 * k + 64 * (j + 1), accv', accm')
  {
    hide Lanes, Code, Inner, Total, Share4, Weights, RealDot, Factor;
    var at, b := 256 * k + 64 * j, 8 * k + 2 * j;
    var x := tok.xq[at..at + 64];
    var x0, x1 := x[..32], x[32..];
    assert x0 == tok.xq[32 * b..32 * b + 32] && x1 == tok.xq[32 * (b + 1)..32 * (b + 1) + 32];
    CodesFit(p, 64 * j, 32, x0);
    CodesFit(p, 64 * j + 32, 32, x1);
    var dlo := Chain(lo, x0, 0, split, RowCodes(Q4K, p, 64 * j, 32));
    var dhi := Chain(hi, x1, 0, split, RowCodes(Q4K, p, 64 * j + 32, 32));
    assert 32 * (2 * j) == 64 * j && 32 * (2 * j + 1) == 64 * j + 32;
    accv', accm' := SubQ4(half, dlo, s[2 * j], s[8 + 2 * j], tok.xs[b], xm[b], accv, accm, p, 2 * j, x0);
    accv', accm' := SubQ4(half, dhi, s[2 * j + 1], s[8 + 2 * j + 1], tok.xs[b + 1], xm[b + 1], accv', accm', p, 2 * j + 1, x1);
    ChunkReached(half, rows, tok, nsb, k, j, accv, accm, accv', accm', p, x);
  }

  lemma {:induction false} ChunkReached(half: Half, rows: seq<seq<seq<Byte>>>, tok: Token, nsb: nat, k: nat, j: nat, accv: Real4, accm: Real4,
                     accv': Real4, accm': Real4, p: seq<seq<Byte>>, x: seq<int>)
    requires Group(Q4K, rows, nsb) && Activation(tok.xq, tok.xs, nsb) && k < nsb && j < 4 && p == Column(rows, k)
    requires x == tok.xq[256 * k + 64 * j..256 * k + 64 * j + 64]
    requires Reached(Q4K, half, rows, tok, nsb, 256 * k + 64 * j, accv, accm)
    requires forall r: nat | r < 4 ::
               accv'[r] - accm'[r] == accv[r] - accm[r] + Share4(half, p[r], 2 * j, tok.xs[8 * k + 2 * j], x[..32])
                                      + Share4(half, p[r], 2 * j + 1, tok.xs[8 * k + 2 * j + 1], x[32..])
    ensures Reached(Q4K, half, rows, tok, nsb, 256 * k + 64 * (j + 1), accv', accm')
  {
    hide Share4, Weights, RealDot;
    forall r: nat | r < 4
      ensures accv'[r] - accm'[r] == Upto(Q4K, half, rows, r, tok, nsb, 256 * k + 64 * (j + 1))
    {
      ChunkStep(half, rows[r], tok.xq, tok.xs, k, j);
      assert accv[r] - accm[r] == Upto(Q4K, half, rows, r, tok, nsb, 256 * k + 64 * j);
    }
  }

  /** Scale times sum of the codes, per 32 activations. */
  ghost predicate Minimums(xm: seq<real>, tok: Token, nsb: nat)
    requires Activation(tok.xq, tok.xs, nsb)
  {
    |xm| == 8 * nsb && forall b: nat | b < |xm| :: xm[b] == tok.xs[b] * Total(tok.xq[32 * b..32 * b + 32]) as real
  }

  lemma {:induction false} CodesFit(p: seq<seq<Byte>>, e: nat, n: nat, x: seq<int>)
    requires |p| == 4 && Row(Q4K, p) && e + n <= 256 && |x| == n && Codes8(x)
    ensures Rows(RowCodes(Q4K, p, e, n), x)
  {
    hide Low, High;
  }

  /** The tokens before `t` have reached weight `next`, the others weight `n`. */
  ghost predicate TileAt(f: Format, half: Half, rows: seq<seq<seq<Byte>>>, toks: seq<Token>, nsb: nat, n: nat, next: nat, t: nat,
                         accv: seq<Real4>, accm: seq<Real4>)
    requires Group(f, rows, nsb) && Tokens(toks, nsb) && n <= next <= 256 * nsb
  {
    && |accv| == |accm| == |toks|
    && forall i | 0 <= i < |toks| :: Reached(f, half, rows, toks[i], nsb, if i < t then next else n, accv[i], accm[i])
  }

  lemma {:induction false} TileStart(f: Format, half: Half, rows: seq<seq<seq<Byte>>>, toks: seq<Token>, nsb: nat, zeros: seq<Real4>)
    requires Group(f, rows, nsb) && Tokens(toks, nsb)
    requires |zeros| == |toks| && forall i | 0 <= i < |zeros| :: zeros[i] == [0.0, 0.0, 0.0, 0.0]
    ensures TileAt(f, half, rows, toks, nsb, 0, 0, 0, zeros, zeros)
  {
  }

  /** A tile is done: every token has its dot product with every row. */
  ghost predicate TileDone(f: Format, half: Half, rows: seq<seq<seq<Byte>>>, toks: seq<Token>, nsb: nat, y: seq<Real4>)
    requires Group(f, rows, nsb) && Tokens(toks, nsb)
  {
    |y| == |toks| && forall i, r: nat | 0 <= i < |toks| && r < 4 :: y[i][r] == Upto(f, half, rows, r, toks[i], nsb, 256 * nsb)
  }

  /** A tile of tokens against one group of rows. */
  method TileQ4(half: Half, il: seq<seq<Byte>>, scl: seq<seq<Real4>>, toks: seq<Token>, xm: seq<seq<real>>,
                ghost rows: seq<seq<seq<Byte>>>)
    returns (y: seq<Real4>)
    requires Group(Q4K, rows, |il|) && Interleaved(Q4K, il, rows) && Tokens(toks, |il|)
    requires |scl| == |il| && forall k | 0 <= k < |il| :: Factors(half, scl[k], Column(rows, k))
    requires |xm| == |toks| && forall t | 0 <= t < |toks| :: Minimums(xm[t], toks[t], |il|)
    ensures TileDone(Q4K, half, rows, toks, |il|, y)
  {
    hide Lanes, Upto, Factors, Holds, Minimums;
    var nsb, nt := |il|, |toks|;
    var zeros: seq<Real4> := seq(nt, t => [0.0, 0.0, 0.0, 0.0]);
    var accv, accm := zeros, zeros;
    TileStart(Q4K, half, rows, toks, nsb, zeros);
    var k := 0;
    while k < nsb
      invariant k <= nsb && TileAt(Q4K, half, rows, toks, nsb, 256 * k, 256 * k, 0, accv, accm)
    {
      var j := 0;
      while j < 4
        invariant j <= 4 && TileAt(Q4K, half, rows, toks, nsb, 256 * k + 64 * j, 256 * k + 64 * j, 0, accv, accm)
      {
        var lo, hi := LoadQ4(il[k], j, Column(rows, k));
        var t := 0;
        while t < nt
          invariant t <= nt && TileAt(Q4K, half, rows, toks, nsb, 256 * k + 64 * j, 256 * k + 64 * (j + 1), t, accv, accm)
        {
          var v, m := TokenQ4(half, lo, hi, scl[k], toks[t], xm[t], nsb, k, j, nt == 1, accv[t], accm[t], rows, Column(rows, k));
          accv, accm := accv[t := v], accm[t := m];
          t := t + 1;
        }
        j := j + 1;
      }
      k := k + 1;
    }
    y := Subtracted(accv, accm);
  }

  method Subtracted(accv: seq<Real4>, accm: seq<Real4>) returns (y: seq<Real4>)
    requires |accv| == |accm|
    ensures |y| == |accv| && forall i, r: nat | 0 <= i < |y| && r < 4 :: y[i][r] == accv[i][r] - accm[i][r]
  {
    y := [];
    while |y| < |accv|
      invariant |y| <= |accv| && forall i, r: nat | 0 <= i < |y| && r < 4 :: y[i][r] == accv[i][r] - accm[i][r]
    {
      var a, m := accv[|y|], accm[|y|];
      y := y + [[a[0] - m[0], a[1] - m[1], a[2] - m[2], a[3] - m[3]]];
    }
  }

  // ---- Q6_K ----------------------------------------------------------------------

  /** Shift left by four and insert: the low nibble of `a` stays. */
  function Sli4(a: Byte, b: Byte): Byte {
    (b << 4) | (a & 15)
  }

  /** Shift right by four and insert: the high nibble of `a` stays. */
  function Sri4(a: Byte, b: Byte): Byte {
    (b >> 4) | (a & 240)
  }

  function LaneSix(lo: Byte, hi: Byte, quarter: nat): Byte
    requires quarter < 4
  {
    if quarter == 0 then Sli4(lo, hi & 3) else if quarter == 1 then Sli4(lo, (hi >> 2) & 3)
    else if quarter == 2 then Sri4(hi & 48, lo) else Sri4(hi >> 2, lo)
  }

  lemma {:induction false} ThirdQuarter(lo: Byte, hi: Byte)
    ensures Sri4(hi & 48, lo) == (lo >> 4) | (((hi >> 4) & 3) << 4)
  {
  }

  lemma {:induction false} FourthQuarter(lo: Byte, hi: Byte)
    ensures Sri4(hi >> 2, lo) == (lo >> 4) | (((hi >> 6) & 3) << 4)
  {
  }

  lemma {:induction false} LowQuarters(lo: Byte, hi: Byte)
    ensures Sli4(lo, hi) == (lo & 15) | (hi << 4)
  {
  }

  lemma {:induction false} LaneSixIs(lo: Byte, hi: Byte, quarter: nat)
    requires quarter < 4
    ensures LaneSix(lo, hi, quarter) == SixBits(lo, hi, quarter)
  {
    hide Sli4, Sri4;
    if quarter == 0 {
      LowQuarters(lo, hi & 3);
    } else if quarter == 1 {
      LowQuarters(lo, (hi >> 2) & 3);
    } else if quarter == 2 {
      ThirdQuarter(lo, hi);
    } else {
      FourthQuarter(lo, hi);
    }
  }

  function SixLanes(lo: seq<Byte>, hi: seq<Byte>, quarter: nat): (q: seq<int>)
    requires |lo| == 16 && |hi| == 16 && quarter < 4
    ensures |q| == 16
  {
    seq(16, i requires 0 <= i < 16 => LaneSix(lo[i], hi[i], quarter) as int)
  }

  /** Where the vectors of half `h` start: low nibbles of vector `v` of a plane, high bits of vector `v`. */
  function LowAt(h: nat, quarter: nat, v: nat): (at: nat)
    requires h < 2 && v < 8
    ensures at + 16 <= 840
  {
    72 + 256 * h + 16 * (v + 8 * (quarter % 2))
  }

  function HighAt(h: nat, v: nat): (at: nat)
    requires h < 2 && v < 8
    ensures at + 16 <= 840
  {
    584 + 128 * h + 16 * v
  }

  lemma {:induction false} SixAt(il: seq<Byte>, p: seq<seq<Byte>>, h: nat, quarter: nat, v: nat, r: nat, x: nat)
    requires Holds(Q6K, il, p) && h < 2 && quarter < 4 && v < 8 && r < 4 && x < 4
    ensures LaneSix(il[LowAt(h, quarter, v) + 4 * r + x], il[HighAt(h, v) + 4 * r + x], quarter) as int
         == Code(Q6K, p[r], 128 * h + 32 * quarter + (4 * v + x))
  {
    hide Code, At, LaneSix, SixBits;
    var i, j := 64 * h + 4 * (v + 8 * (quarter % 2)), 128 + 32 * h + 4 * v;
    AtQuads(Q6K, r, i, 72, 0, x);
    AtQuads(Q6K, r, j, 584, 128, x);
    assert il[At(Q6K, r, i + x)] == p[r][i + x] && il[At(Q6K, r, j + x)] == p[r][j + x];
    LaneSixIs(p[r][i + x], p[r][j + x], quarter);
    SixCode(p[r], h, quarter, 4 * v + x);
    assert i + x == 64 * h + 32 * (quarter % 2) + (4 * v + x) && j + x == 128 + 32 * h + (4 * v + x);
  }

  lemma {:induction false} LaneCode(il: seq<Byte>, p: seq<seq<Byte>>, h: nat, quarter: nat, b: nat, u: nat, lo: seq<Byte>, hi: seq<Byte>, g: nat,
                 r: nat, x: nat)
    requires Holds(Q6K, il, p) && h < 2 && quarter < 4 && b < 2 && u < 4 && r < 4 && x < 4 && g == 8 * h + 2 * quarter + b
    requires lo == il[LowAt(h, quarter, 4 * b + u)..LowAt(h, quarter, 4 * b + u) + 16]
    requires hi == il[HighAt(h, 4 * b + u)..HighAt(h, 4 * b + u) + 16]
    ensures SixLanes(lo, hi, quarter)[4 * r + x] == Codes(Q6K, p[r], 16 * g, 16)[4 * u + x]
  {
    hide Code, LaneSix, LowAt, HighAt;
    SixAt(il, p, h, quarter, 4 * b + u, r, x);
    assert 16 * g + (4 * u + x) == 128 * h + 32 * quarter + (4 * (4 * b + u) + x);
    assert lo[4 * r + x] == il[LowAt(h, quarter, 4 * b + u) + 4 * r + x] && hi[4 * r + x] == il[HighAt(h, 4 * b + u) + 4 * r + x];
  }

  /** Vector `u` of four of sub-block `b` of a quarter carries weights 4u on of the sub-block. */
  lemma {:induction false} LaneQ6(il: seq<Byte>, p: seq<seq<Byte>>, h: nat, quarter: nat, b: nat, u: nat, lo: seq<Byte>, hi: seq<Byte>, g: nat, r: nat)
    requires Holds(Q6K, il, p) && h < 2 && quarter < 4 && b < 2 && u < 4 && r < 4 && g == 8 * h + 2 * quarter + b
    requires lo == il[LowAt(h, quarter, 4 * b + u)..LowAt(h, quarter, 4 * b + u) + 16]
    requires hi == il[HighAt(h, 4 * b + u)..HighAt(h, 4 * b + u) + 16]
    ensures Lane(SixLanes(lo, hi, quarter), Codes(Q6K, p[r], 16 * g, 16), r, u)
  {
    hide Code, SixLanes, Codes, LowAt, HighAt;
    LaneCode(il, p, h, quarter, b, u, lo, hi, g, r, 0);
    LaneCode(il, p, h, quarter, b, u, lo, hi, g, r, 1);
    LaneCode(il, p, h, quarter, b, u, lo, hi, g, r, 2);
    LaneCode(il, p, h, quarter, b, u, lo, hi, g, r, 3);
  }

  lemma {:induction false} VectorQ6(il: seq<Byte>, p: seq<seq<Byte>>, h: nat, quarter: nat, b: nat, u: nat, lo: seq<Byte>, hi: seq<Byte>, g: nat)
    requires Holds(Q6K, il, p) && h < 2 && quarter < 4 && b < 2 && u < 4 && g == 8 * h + 2 * quarter + b
    requires lo == il[LowAt(h, quarter, 4 * b + u)..LowAt(h, quarter, 4 * b + u) + 16]
    requires hi == il[HighAt(h, 4 * b + u)..HighAt(h, 4 * b + u) + 16]
    ensures Lanes(SixLanes(lo, hi, quarter), RowCodes(Q6K, p, 16 * g, 16), u)
  {
    hide Code, LaneSix, Lane, LowAt, HighAt;
    var q := SixLanes(lo, hi, quarter);
    forall r: nat | r < 4
      ensures Lane(q, RowCodes(Q6K, p, 16 * g, 16)[r], r, u)
    {
      LaneQ6(il, p, h, quarter, b, u, lo, hi, g, r);
    }
  }

  /** The sub-block scales of a block, one row per lane. */
  ghost predicate ScalesQ6(sc: seq<Int4>, p: seq<seq<Byte>>) {
    |sc| == 16 && |p| == 4 && Row(Q6K, p) && forall i: nat, r: nat | i < 16 && r < 4 :: sc[i][r] == Int8(p[r][192 + i])
  }

  method DecodeQ6(half: Half, il: seq<Byte>, ghost p: seq<seq<Byte>>) returns (sc: seq<Int4>, d4: Real4)
    requires Holds(Q6K, il, p)
    ensures ScalesQ6(sc, p)
    ensures forall r | 0 <= r < 4 :: d4[r] == half(p[r][208], p[r][209])
  {
    d4 := [half(il[0], il[1]), half(il[2], il[3]), half(il[4], il[5]), half(il[6], il[7])];
    FactorQ6(half, il, p, d4);
    hide Int8, At;
    sc := [];
    while |sc| < 16
      invariant |sc| <= 16
      invariant forall i: nat, r: nat | i < |sc| && r < 4 :: sc[i][r] == Int8(p[r][192 + i])
    {
      var i := |sc|;
      ScaleAt(il, p, i);
      var at := 8 + 4 * i;
      sc := sc + [[Int8(il[at]), Int8(il[at + 1]), Int8(il[at + 2]), Int8(il[at + 3])]];
    }
  }

  lemma {:induction false} ScaleAt(il: seq<Byte>, p: seq<seq<Byte>>, i: nat)
    requires Holds(Q6K, il, p) && i < 16
    ensures forall r | 0 <= r < 4 :: il[8 + 4 * i + r] == p[r][192 + i]
  {
    forall r: nat | r < 4
      ensures il[8 + 4 * i + r] == p[r][192 + i]
    {
      assert il[At(Q6K, r, 192 + i)] == p[r][192 + i];
    }
  }

  lemma {:induction false} FactorQ6(half: Half, il: seq<Byte>, p: seq<seq<Byte>>, d4: Real4)
    requires Holds(Q6K, il, p)
    requires d4 == [half(il[0], il[1]), half(il[2], il[3]), half(il[4], il[5]), half(il[6], il[7])]
    ensures forall r | 0 <= r < 4 :: d4[r] == half(p[r][208], p[r][209])
  {
    forall r: nat | r < 4
      ensures d4[r] == half(p[r][208], p[r][209])
    {
      assert il[At(Q6K, r, 208)] == p[r][208] && il[At(Q6K, r, 209)] == p[r][209];
    }
  }

  /** The integer dot of sub-block `g` with the -32 of every code folded in. */
  ghost function Folded(p: seq<Byte>, g: nat, x: seq<int>): int
    requires |p| == 210 && g < 16 && |x| == 16
  {
    Inner(Codes(Q6K, p, 16 * g, 16), x) - 32 * Total(x)
  }

  lemma {:induction false} FoldedBound(p: seq<Byte>, g: nat, x: seq<int>)
    requires |p| == 210 && g < 16 && |x| == 16 && Codes8(x)
    ensures -200_000 <= Folded(p, g, x) <= 200_000
    ensures -2032 <= Total(x) <= 2032
  {
    hide Code;
    DotBound(Codes(Q6K, p, 16 * g, 16), x, |x|);
    SumBound(x, |x|);
  }

  /** Lane `r` of `v` is the folded dot of row `r`. */
  ghost predicate FoldedLanes(v: Int4, p: seq<seq<Byte>>, g: nat, x: seq<int>)
    requires |p| == 4 && Row(Q6K, p) && g < 16 && |x| == 16
  {
    forall r: nat | r < 4 :: v[r] == Folded(p[r], g, x)
  }

  /** Both sub-blocks of a quarter, scaled in integers. */
  ghost predicate QuarterLanes(v: Int4, p: seq<seq<Byte>>, g: nat, x: seq<int>)
    requires |p| == 4 && Row(Q6K, p) && g < 15 && |x| == 32
  {
    forall r: nat | r < 4 ::
      v[r] == Folded(p[r], g, x[..16]) * Int8(p[r][192 + g]) + Folded(p[r], g + 1, x[16..]) * Int8(p[r][192 + (g + 1)])
  }

  function Scaled(dA: Int4, dB: Int4, sA: Int4, sB: Int4): Int4 {
    VAdd(VMul(dA, sA), VMul(dB, sB))
  }

  lemma {:induction false} ScaledIs(dA: Int4, dB: Int4, sc: seq<Int4>, p: seq<seq<Byte>>, g: nat, x: seq<int>)
    requires ScalesQ6(sc, p) && g < 15 && |x| == 32 && Codes8(x)
    requires FoldedLanes(dA, p, g, x[..16]) && FoldedLanes(dB, p, g + 1, x[16..])
    ensures QuarterLanes(Scaled(dA, dB, sc[g], sc[g + 1]), p, g, x)
  {
    hide Folded, Int8;
    forall r: nat | r < 4
      ensures Scaled(dA, dB, sc[g], sc[g + 1])[r]
           == Folded(p[r], g, x[..16]) * Int8(p[r][192 + g]) + Folded(p[r], g + 1, x[16..]) * Int8(p[r][192 + (g + 1)])
    {
      FoldedBound(p[r], g, x[..16]);
      FoldedBound(p[r], g + 1, x[16..]);
      ScaleBound(dA[r], sc[g][r]);
      ScaleBound(dB[r], sc[g + 1][r]);
      assert r == 0 || r == 1 || r == 2 || r == 3;
    }
  }

  /** The vectors of one quarter of half `h`. */
  method LoadQ6(il: seq<Byte>, h: nat, quarter: nat, ghost p: seq<seq<Byte>>) returns (q: seq<seq<int>>)
    requires Holds(Q6K, il, p) && h < 2 && quarter < 4
    ensures |q| == 8
    ensures forall u | 0 <= u < 4 :: Lanes(q[u], RowCodes(Q6K, p, 16 * (8 * h + 2 * quarter), 16), u)
    ensures forall u | 4 <= u < 8 :: Lanes(q[u], RowCodes(Q6K, p, 16 * (8 * h + 2 * quarter + 1), 16), u - 4)
  {
    hide Lanes, RowCodes, SixLanes, LowAt, HighAt;
    q := [];
    while |q| < 8
      invariant |q| <= 8
      invariant forall u | 0 <= u < |q| && u < 4 :: Lanes(q[u], RowCodes(Q6K, p, 16 * (8 * h + 2 * quarter), 16), u)
      invariant forall u | 4 <= u < |q| :: Lanes(q[u], RowCodes(Q6K, p, 16 * (8 * h + 2 * quarter + 1), 16), u - 4)
    {
      var v := |q|;
      var lo, hi := il[LowAt(h, quarter, v)..LowAt(h, quarter, v) + 16], il[HighAt(h, v)..HighAt(h, v) + 16];
      VectorQ6(il, p, h, quarter, v / 4, v % 4, lo, hi, 8 * h + 2 * quarter + v / 4);
      q := q + [SixLanes(lo, hi, quarter)];
    }
  }

  lemma {:induction false} CodesFit6(p: seq<seq<Byte>>, g: nat, x: seq<int>)
    requires |p| == 4 && Row(Q6K, p) && g < 16 && |x| == 16 && Codes8(x)
    ensures Rows(RowCodes(Q6K, p, 16 * g, 16), x)
  {
    hide SixBits;
  }

  /** One quarter for one token: two chains that start at -32 times the sums of their activations. */
  method QuarterQ6(q: seq<seq<int>>, x: seq<int>, startA: int, startB: int, sc: seq<Int4>, g: nat, ghost p: seq<seq<Byte>>)
    returns (v: Int4)
    requires |q| == 8 && |x| == 32 && Codes8(x) && g < 15 && ScalesQ6(sc, p)
    requires startA == -32 * Total(x[..16]) && startB == -32 * Total(x[16..])
    requires forall u | 0 <= u < 4 :: Lanes(q[u], RowCodes(Q6K, p, 16 * g, 16), u)
    requires forall u | 4 <= u < 8 :: Lanes(q[u], RowCodes(Q6K, p, 16 * (g + 1), 16), u - 4)
    ensures QuarterLanes(v, p, g, x)
  {
    hide Lanes, Code, Inner, Total, Scaled, Int8;
    CodesFit6(p, g, x[..16]);
    CodesFit6(p, g + 1, x[16..]);
    FoldedBound(p[0], g, x[..16]);
    FoldedBound(p[0], g + 1, x[16..]);
    var dA := Chain(q[..4], x[..16], startA, false, RowCodes(Q6K, p, 16 * g, 16));
    var dB := Chain(q[4..], x[16..], startB, false, RowCodes(Q6K, p, 16 * (g + 1), 16));
    ScaledIs(dA, dB, sc, p, g, x);
    v := Scaled(dA, dB, sc[g], sc[g + 1]);
  }

  /** -32 times the sum of the codes, per 16 activations. */
  ghost predicate Starts(x32: seq<int>, tok: Token, nsb: nat)
    requires Activation(tok.xq, tok.xs, nsb)
  {
    |x32| == 16 * nsb && forall i: nat | i < |x32| :: x32[i] == -32 * Total(tok.xq[16 * i..16 * i + 16])
  }

  /** Four steps of a pass: vectors 4b on of a plane serve quarter `pass` with their low nibbles and
      quarter `pass + 2` with their high ones; each vector is read once for both. */
  method PassHalf(il: seq<Byte>, h: nat, pass: nat, b: nat, xa: seq<int>, xb: seq<int>, startA: int, startB: int,
                  ghost p: seq<seq<Byte>>)
    returns (dA: Int4, dB: Int4)
    requires Holds(Q6K, il, p) && h < 2 && pass < 2 && b < 2
    requires |xa| == 16 && |xb| == 16 && Codes8(xa) && Codes8(xb) && startA == -32 * Total(xa) && startB == -32 * Total(xb)
    ensures FoldedLanes(dA, p, 8 * h + 2 * pass + b, xa)
    ensures FoldedLanes(dB, p, 8 * h + 2 * (pass + 2) + b, xb)
  {
    hide Lanes, Code, Total, SixLanes, LowAt, HighAt, VDotLane, Chained;
    var ga, gb := 8 * h + 2 * pass + b, 8 * h + 2 * (pass + 2) + b;
    ghost var ca, cb := RowCodes(Q6K, p, 16 * ga, 16), RowCodes(Q6K, p, 16 * gb, 16);
    dA, dB := VDup(startA), VDup(startB);
    ChainStart(p, ga, xa, startA);
    ChainStart(p, gb, xb, startB);
    var u := 0;
    while u < 4
      invariant u <= 4 && Chained(dA, ZERO, startA, ca, xa, u) && Chained(dB, ZERO, startB, cb, xb, u)
    {
      var v := 4 * b + u;
      var lo, hi := il[LowAt(h, pass, v)..LowAt(h, pass, v) + 16], il[HighAt(h, v)..HighAt(h, v) + 16];
      SamePlane(h, pass, v);
      VectorQ6(il, p, h, pass, b, u, lo, hi, ga);
      VectorQ6(il, p, h, pass + 2, b, u, lo, hi, gb);
      var qa, qb := SixLanes(lo, hi, pass), SixLanes(lo, hi, pass + 2);
      OneVector(dA, startA, qa, ca, xa, u);
      OneVector(dB, startB, qb, cb, xb, u);
      dA, dB := VDotLane(dA, qa, xa, u), VDotLane(dB, qb, xb, u);
      u := u + 1;
    }
    ChainEnd(dA, p, ga, xa, startA);
    ChainEnd(dB, p, gb, xb, startB);
  }

  lemma {:induction false} SamePlane(h: nat, pass: nat, v: nat)
    requires h < 2 && pass < 2 && v < 8
    ensures LowAt(h, pass, v) == LowAt(h, pass + 2, v)
  {
  }

  lemma {:induction false} ChainStart(p: seq<seq<Byte>>, g: nat, x: seq<int>, start: int)
    requires |p| == 4 && Row(Q6K, p) && g < 16 && |x| == 16 && Codes8(x) && start == -32 * Total(x)
    ensures Chained(VDup(start), ZERO, start, RowCodes(Q6K, p, 16 * g, 16), x, 0)
  {
    hide Code, Total;
    CodesFit6(p, g, x);
    FoldedBound(p[0], g, x);
  }

  lemma {:induction false} OneVector(acc: Int4, start: int, q: seq<int>, c: seq<seq<int>>, x: seq<int>, u: nat)
    requires u < 4 && |x| == 16 && |q| == 16 && Chained(acc, ZERO, start, c, x, u) && Lanes(q, c, u)
    ensures Chained(VDotLane(acc, q, x, u), ZERO, start, c, x, u + 1)
  {
    hide Chained, VDotLane, Lanes;
    assert x[16 * (u / 4)..16 * (u / 4) + 16] == x && u % 4 == u;
    ChainStep(acc, ZERO, start, q, c, x, u);
  }

  lemma {:induction false} ChainEnd(acc: Int4, p: seq<seq<Byte>>, g: nat, x: seq<int>, start: int)
    requires |p| == 4 && Row(Q6K, p) && g < 16 && |x| == 16 && start == -32 * Total(x)
    requires Chained(acc, ZERO, start, RowCodes(Q6K, p, 16 * g, 16), x, 4)
    ensures FoldedLanes(acc, p, g, x)
  {
    hide Code, Total;
    forall r: nat | r < 4
      ensures acc[r] == Folded(p[r], g, x)
    {
      assert acc[r] + ZERO[r] == start + Dot(RowCodes(Q6K, p, 16 * g, 16)[r], x, 4 * 4);
    }
  }

  /** One token alone: a pass for quarters 0 and 2, or for quarters 1 and 3. */
  method PassQ6(il: seq<Byte>, h: nat, pass: nat, xa: seq<int>, xb: seq<int>, a0: int, a1: int, b0: int, b1: int, sc: seq<Int4>,
                ghost p: seq<seq<Byte>>)
    returns (va: Int4, vb: Int4)
    requires Holds(Q6K, il, p) && h < 2 && pass < 2 && ScalesQ6(sc, p)
    requires |xa| == 32 && |xb| == 32 && Codes8(xa) && Codes8(xb)
    requires a0 == -32 * Total(xa[..16]) && a1 == -32 * Total(xa[16..])
    requires b0 == -32 * Total(xb[..16]) && b1 == -32 * Total(xb[16..])
    ensures QuarterLanes(va, p, 8 * h + 2 * pass, xa) && QuarterLanes(vb, p, 8 * h + 2 * (pass + 2), xb)
  {
    hide Code, Inner, Total, Scaled, Int8, Folded;
    var ga, gb := 8 * h + 2 * pass, 8 * h + 2 * (pass + 2);
    var dA0, dB0 := PassHalf(il, h, pass, 0, xa[..16], xb[..16], a0, b0, p);
    var dA1, dB1 := PassHalf(il, h, pass, 1, xa[16..], xb[16..], a1, b1, p);
    ScaledIs(dA0, dA1, sc, p, ga, xa);
    ScaledIs(dB0, dB1, sc, p, gb, xb);
    va, vb := Scaled(dA0, dA1, sc[ga], sc[ga + 1]), Scaled(dB0, dB1, sc[gb], sc[gb + 1]);
  }

  // ---- from quarters to rows -----------------------------------------------------

  lemma {:induction false} LaneShare6(half: Half, p: seq<Byte>, g: nat, scale: real, x: seq<int>, d: real, v: int, acc: real)
    requires |p| == 210 && g < 15 && |x| == 32 && d == half(p[208], p[209])
    requires v == Folded(p, g, x[..16]) * Int8(p[192 + g]) + Folded(p, g + 1, x[16..]) * Int8(p[192 + (g + 1)])
    ensures acc + v as real * (d * scale) == acc + Share6(half, p, g, scale, x[..16]) + Share6(half, p, g + 1, scale, x[16..])
  {
    hide Share6, Code, Inner, Total, Int8, Folded;
    FoldedShare(half, p, g, scale, x[..16], d);
    FoldedShare(half, p, g + 1, scale, x[16..], d);
    var a, b := Folded(p, g, x[..16]) * Int8(p[192 + g]), Folded(p, g + 1, x[16..]) * Int8(p[192 + (g + 1)]);
    var t := d * scale;
    assert (a + b) as real == a as real + b as real;
    assert (a as real + b as real) * t == a as real * t + b as real * t;
  }

  lemma {:induction false} FoldedShare(half: Half, p: seq<Byte>, g: nat, scale: real, x: seq<int>, d: real)
    requires |p| == 210 && g < 16 && |x| == 16 && d == half(p[208], p[209])
    ensures (Folded(p, g, x) * Int8(p[192 + g])) as real * (d * scale) == Share6(half, p, g, scale, x)
  {
    hide Share6, Code, Inner, Total, Int8;
    var dot, sum, sc := Inner(Codes(Q6K, p, 16 * g, 16), x), Total(x), Int8(p[192 + g]);
    Share6Parts(half, p, g, scale, x, Times(d, sc), dot, sum);
    FoldAlgebra(d, scale, sc, dot, sum);
  }

  lemma {:induction false} FoldAlgebra(d: real, scale: real, sc: int, dot: int, sum: int)
    ensures ((dot - 32 * sum) * sc) as real * (d * scale)
         == dot as real * (d * sc as real * scale) - d * sc as real * scale * 32.0 * sum as real
  {
    var f, t := dot as real - 32.0 * sum as real, d * sc as real * scale;
    assert (dot - 32 * sum) as real == f;
    assert ((dot - 32 * sum) * sc) as real == f * sc as real;
    assert f * sc as real * (d * scale) == f * t;
    assert f * t == dot as real * t - 32.0 * sum as real * t;
  }

  const NO_MINIMUMS: Real4 := [0.0, 0.0, 0.0, 0.0]

  /** Scales and adds quarter `quarter` of half `h` of super-block `k` for one token. */
  method AddQuarter(half: Half, v: Int4, d4: Real4, tok: Token, nsb: nat, k: nat, h: nat, quarter: nat, acc: Real4,
                    ghost rows: seq<seq<seq<Byte>>>, ghost p: seq<seq<Byte>>, ghost x: seq<int>)
    returns (acc': Real4)
    requires Group(Q6K, rows, nsb) && Activation(tok.xq, tok.xs, nsb) && k < nsb && h < 2 && quarter < 4 && p == Column(rows, k)
    requires forall r | 0 <= r < 4 :: d4[r] == half(p[r][208], p[r][209])
    requires var b := 8 * k + 4 * h + quarter; x == tok.xq[32 * b..32 * b + 32]
    requires QuarterLanes(v, p, 8 * h + 2 * quarter, x)
    requires Reached(Q6K, half, rows, tok, nsb, 256 * k + 128 * h + 32 * quarter, acc, NO_MINIMUMS)
    ensures Reached(Q6K, half, rows, tok, nsb, 256 * k + 128 * h + 32 * (quarter + 1), acc', NO_MINIMUMS)
  {
    hide Share6, Folded, Int8, RealDot, Weights, VFma, VToReal, VScale;
    var b, g := 8 * k + 4 * h + quarter, 8 * h + 2 * quarter;
    acc' := VFma(acc, VToReal(v), VScale(d4, tok.xs[b]));
    assert b == 8 * k + g / 2 && 32 * b == 256 * k + 16 * g;
    forall r: nat | r < 4
      ensures acc'[r] - NO_MINIMUMS[r] == Upto(Q6K, half, rows, r, tok, nsb, 256 * k + 128 * h + 32 * (quarter + 1))
    {
      QuarterStep(half, rows[r], tok.xq, tok.xs, k, g, x);
      LaneShare6(half, p[r], g, tok.xs[b], x, d4[r], v[r], acc[r]);
      LaneFma(acc, v, d4, tok.xs[b], r);
      assert acc[r] - NO_MINIMUMS[r] == Upto(Q6K, half, rows, r, tok, nsb, 256 * k + 128 * h + 32 * quarter);
    }
  }

  lemma {:induction false} LaneFma(acc: Real4, v: Int4, d: Real4, scale: real, r: nat)
    requires r < 4
    ensures VFma(acc, VToReal(v), VScale(d, scale))[r] == acc[r] + v[r] as real * (d[r] * scale)
    ensures NO_MINIMUMS[r] == 0.0
  {
    assert r == 0 || r == 1 || r == 2 || r == 3;
  }

  lemma {:induction false} QuarterStep(half: Half, row: seq<seq<Byte>>, xq: seq<int>, xs: seq<real>, k: nat, g: nat, x: seq<int>)
    requires Row(Q6K, row) && Activation(xq, xs, |row|) && k < |row| && g < 15 && g % 2 == 0
    requires x == xq[256 * k + 16 * g..256 * k + 16 * g + 32]
    ensures var w := Weights(Q6K, half, row);
            RealDot(w, xq, xs, 256 * k + 16 * g + 32) == RealDot(w, xq, xs, 256 * k + 16 * g)
              + Share6(half, row[k], g, xs[8 * k + g / 2], x[..16]) + Share6(half, row[k], g + 1, xs[8 * k + g / 2], x[16..])
  {
    hide Share6, RealDot, Weights;
    SubBlock6(half, row, xq, xs, k, g);
    SubBlock6(half, row, xq, xs, k, g + 1);
    var at := 256 * k + 16 * g;
    assert x[..16] == xq[at..at + 16] && x[16..] == xq[at + 16..at + 32];
    assert (g + 1) / 2 == g / 2;
  }

  /** Half `h` of super-block `k` for one token alone: quarters 0 and 2, then 1 and 3, added in order. */
  method HalfAlone(half: Half, il: seq<Byte>, sc: seq<Int4>, d4: Real4, tok: Token, x32: seq<int>, nsb: nat, k: nat, h: nat,
                   acc: Real4, ghost rows: seq<seq<seq<Byte>>>, ghost p: seq<seq<Byte>>)
    returns (acc': Real4)
    requires Group(Q6K, rows, nsb) && Activation(tok.xq, tok.xs, nsb) && k < nsb && h < 2 && p == Column(rows, k)
    requires Holds(Q6K, il, p) && ScalesQ6(sc, p) && forall r | 0 <= r < 4 :: d4[r] == half(p[r][208], p[r][209])
    requires Starts(x32, tok, nsb)
    requires Reached(Q6K, half, rows, tok, nsb, 256 * k + 128 * h, acc, NO_MINIMUMS)
    ensures Reached(Q6K, half, rows, tok, nsb, 256 * k + 128 * (h + 1), acc', NO_MINIMUMS)
  {
    hide Reached, QuarterLanes, Total, Int8, Holds;
    var b := 8 * k + 4 * h;
    var x := [Slice32(tok.xq, b), Slice32(tok.xq, b + 1), Slice32(tok.xq, b + 2), Slice32(tok.xq, b + 3)];
    StartsAt(x32, tok, nsb, b);
    StartsAt(x32, tok, nsb, b + 1);
    StartsAt(x32, tok, nsb, b + 2);
    StartsAt(x32, tok, nsb, b + 3);
    var v0, v2 := PassQ6(il, h, 0, x[0], x[2], x32[2 * b], x32[2 * b + 1], x32[2 * (b + 2)], x32[2 * (b + 2) + 1], sc, p);
    var v1, v3 := PassQ6(il, h, 1, x[1], x[3], x32[2 * (b + 1)], x32[2 * (b + 1) + 1], x32[2 * (b + 3)], x32[2 * (b + 3) + 1], sc, p);
    acc' := AddQuarter(half, v0, d4, tok, nsb, k, h, 0, acc, rows, p, x[0]);
    acc' := AddQuarter(half, v1, d4, tok, nsb, k, h, 1, acc', rows, p, x[1]);
    acc' := AddQuarter(half, v2, d4, tok, nsb, k, h, 2, acc', rows, p, x[2]);
    acc' := AddQuarter(half, v3, d4, tok, nsb, k, h, 3, acc', rows, p, x[3]);
  }

  function Slice32(xq: seq<int>, b: nat): (x: seq<int>)
    requires 32 * b + 32 <= |xq|
    ensures |x| == 32 && (Codes8(xq) ==> Codes8(x))
  {
    xq[32 * b..32 * b + 32]
  }

  lemma {:induction false} StartsAt(x32: seq<int>, tok: Token, nsb: nat, b: nat)
    requires Activation(tok.xq, tok.xs, nsb) && Starts(x32, tok, nsb) && b < 8 * nsb
    ensures x32[2 * b] == -32 * Total(Slice32(tok.xq, b)[..16]) && x32[2 * b + 1] == -32 * Total(Slice32(tok.xq, b)[16..])
  {
    hide Total;
    assert Slice32(tok.xq, b)[..16] == tok.xq[16 * (2 * b)..16 * (2 * b) + 16];
    assert Slice32(tok.xq, b)[16..] == tok.xq[16 * (2 * b + 1)..16 * (2 * b + 1) + 16];
  }

  /** What the decoder of one block leaves for the tiles. */
  ghost predicate Decoded6(half: Half, sc: seq<Int4>, d4: Real4, p: seq<seq<Byte>>) {
    ScalesQ6(sc, p) && forall r | 0 <= r < 4 :: d4[r] == half(p[r][208], p[r][209])
  }

  /** A tile of tokens against one group of rows. */
  method TileQ6(half: Half, il: seq<seq<Byte>>, scl: seq<seq<Int4>>, dl: seq<Real4>, toks: seq<Token>, x32: seq<seq<int>>,
                ghost rows: seq<seq<seq<Byte>>>)
    returns (y: seq<Real4>)
    requires Group(Q6K, rows, |il|) && Interleaved(Q6K, il, rows) && Tokens(toks, |il|)
    requires |scl| == |dl| == |il| && forall k | 0 <= k < |il| :: Decoded6(half, scl[k], dl[k], Column(rows, k))
    requires |x32| == |toks| && forall t | 0 <= t < |toks| :: Starts(x32[t], toks[t], |il|)
    ensures TileDone(Q6K, half, rows, toks, |il|, y)
  {
    hide Upto, Holds, Starts, Lanes;
    var nsb, nt := |il|, |toks|;
    var zeros: seq<Real4> := seq(nt, t => NO_MINIMUMS);
    var acc := zeros;
    TileStart(Q6K, half, rows, toks, nsb, zeros);
    var k := 0;
    while k < nsb
      invariant k <= nsb && TileAt(Q6K, half, rows, toks, nsb, 256 * k, 256 * k, 0, acc, zeros)
    {
      var h := 0;
      while h < 2
        invariant h <= 2 && TileAt(Q6K, half, rows, toks, nsb, 256 * k + 128 * h, 256 * k + 128 * h, 0, acc, zeros)
      {
        assert Decoded6(half, scl[k], dl[k], Column(rows, k));
        if nt == 1 {
          var a := HalfAlone(half, il[k], scl[k], dl[k], toks[0], x32[0], nsb, k, h, acc[0], rows, Column(rows, k));
          acc := [a];
        } else {
          acc := HalfTile(half, il[k], scl[k], dl[k], toks, x32, nsb, k, h, acc, zeros, rows, Column(rows, k));
        }
        h := h + 1;
      }
      k := k + 1;
    }
    y := acc;
  }

  /** Half `h` of super-block `k` for a tile: quarter by quarter, each for every token. */
  method HalfTile(half: Half, il: seq<Byte>, sc: seq<Int4>, d4: Real4, toks: seq<Token>, x32: seq<seq<int>>, nsb: nat, k: nat, h: nat,
                  acc0: seq<Real4>, ghost zeros: seq<Real4>, ghost rows: seq<seq<seq<Byte>>>, ghost p: seq<seq<Byte>>)
    returns (acc: seq<Real4>)
    requires Group(Q6K, rows, nsb) && Tokens(toks, nsb) && k < nsb && h < 2 && p == Column(rows, k) && Holds(Q6K, il, p)
    requires Decoded6(half, sc, d4, p) && |x32| == |toks| && forall t | 0 <= t < |toks| :: Starts(x32[t], toks[t], nsb)
    requires |zeros| == |toks| && forall i | 0 <= i < |zeros| :: zeros[i] == NO_MINIMUMS
    requires TileAt(Q6K, half, rows, toks, nsb, 256 * k + 128 * h, 256 * k + 128 * h, 0, acc0, zeros)
    ensures TileAt(Q6K, half, rows, toks, nsb, 256 * k + 128 * (h + 1), 256 * k + 128 * (h + 1), 0, acc, zeros)
  {
    hide Reached, Holds, Starts, Lanes, ScalesQ6, QuarterLanes, Total, RowCodes;
    acc := acc0;
    var quarter := 0;
    while quarter < 4
      invariant quarter <= 4
      invariant TileAt(Q6K, half, rows, toks, nsb, 256 * k + 128 * h + 32 * quarter, 256 * k + 128 * h + 32 * quarter, 0, acc, zeros)
    {
      var q := LoadQ6(il, h, quarter, p);
      var b := 8 * k + 4 * h + quarter;
      var t := 0;
      while t < |toks|
        invariant t <= |toks|
        invariant TileAt(Q6K, half, rows, toks, nsb, 256 * k + 128 * h + 32 * quarter, 256 * k + 128 * h + 32 * (quarter + 1), t, acc, zeros)
      {
        var x := Slice32(toks[t].xq, b);
        StartsAt(x32[t], toks[t], nsb, b);
        StartsSize(x32[t], toks[t], nsb);
        DecodedScales(half, sc, d4, p);
        var v := QuarterQ6(q, x, x32[t][2 * b], x32[t][2 * b + 1], sc, 8 * h + 2 * quarter, p);
        var a := AddQuarter(half, v, d4, toks[t], nsb, k, h, quarter, acc[t], rows, p, x);
        acc := acc[t := a];
        t := t + 1;
      }
      quarter := quarter + 1;
    }
  }

  lemma {:induction false} StartsSize(x32: seq<int>, tok: Token, nsb: nat)
    requires Activation(tok.xq, tok.xs, nsb) && Starts(x32, tok, nsb)
    ensures |x32| == 16 * nsb
  {
  }

  lemma {:induction false} DecodedScales(half: Half, sc: seq<Int4>, d4: Real4, p: seq<seq<Byte>>)
    requires Decoded6(half, sc, d4, p)
    ensures |sc| == 16 && |p| == 4 && Row(Q6K, p)
  {
  }

  // ---- the whole matrix ----------------------------------------------------------

  const TILE := 4

  function Scaled32(xs: seq<real>, sums: seq<int>): (m: seq<real>)
    requires |xs| == |sums|
    ensures |m| == |xs| && forall b | 0 <= b < |m| :: m[b] == xs[b] * sums[b] as real
  {
    seq(|xs|, b requires 0 <= b < |xs| => xs[b] * sums[b] as real)
  }

  function Times32(sums: seq<int>): (s: seq<int>)
    ensures |s| == |sums| && forall b | 0 <= b < |s| :: s[b] == -32 * sums[b]
  {
    seq(|sums|, b requires 0 <= b < |sums| => -32 * sums[b])
  }

  method MinimumsFor(tok: Token, nsb: nat) returns (xm: seq<real>)
    requires Activation(tok.xq, tok.xs, nsb)
    ensures Minimums(xm, tok, nsb)
  {
    hide Total, Scaled32, Codes8;
    var sums := BlockSums(tok.xq, 32);
    assert 256 * nsb / 32 == 8 * nsb;
    xm := Scaled32(tok.xs, sums);
  }

  method StartsFor(tok: Token, nsb: nat) returns (x32: seq<int>)
    requires Activation(tok.xq, tok.xs, nsb)
    ensures Starts(x32, tok, nsb)
  {
    hide Total, Times32, Codes8;
    var sums := BlockSums(tok.xq, 16);
    assert 256 * nsb / 16 == 16 * nsb;
    x32 := Times32(sums);
  }

  method AllMinimums(toks: seq<Token>, nsb: nat) returns (xm: seq<seq<real>>)
    requires Tokens(toks, nsb)
    ensures |xm| == |toks| && forall t | 0 <= t < |toks| :: Minimums(xm[t], toks[t], nsb)
  {
    hide Minimums, Activation;
    xm := [];
    while |xm| < |toks|
      invariant |xm| <= |toks| && forall t | 0 <= t < |xm| :: Minimums(xm[t], toks[t], nsb)
    {
      var one := MinimumsFor(toks[|xm|], nsb);
      xm := xm + [one];
    }
  }

  method AllStarts(toks: seq<Token>, nsb: nat) returns (x32: seq<seq<int>>)
    requires Tokens(toks, nsb)
    ensures |x32| == |toks| && forall t | 0 <= t < |toks| :: Starts(x32[t], toks[t], nsb)
  {
    hide Starts, Activation;
    x32 := [];
    while |x32| < |toks|
      invariant |x32| <= |toks| && forall t | 0 <= t < |x32| :: Starts(x32[t], toks[t], nsb)
    {
      var one := StartsFor(toks[|x32|], nsb);
      x32 := x32 + [one];
    }
  }

  method DecodeGroupQ4(half: Half, il: seq<seq<Byte>>, ghost rows: seq<seq<seq<Byte>>>) returns (scl: seq<seq<Real4>>)
    requires Group(Q4K, rows, |il|) && Interleaved(Q4K, il, rows)
    ensures |scl| == |il| && forall k | 0 <= k < |il| :: Factors(half, scl[k], Column(rows, k))
  {
    hide Factors, Holds;
    scl := [];
    while |scl| < |il|
      invariant |scl| <= |il| && forall k | 0 <= k < |scl| :: Factors(half, scl[k], Column(rows, k))
    {
      var s := DecodeQ4(half, il[|scl|], Column(rows, |scl|));
      scl := scl + [s];
    }
  }

  method DecodeGroupQ6(half: Half, il: seq<seq<Byte>>, ghost rows: seq<seq<seq<Byte>>>) returns (scl: seq<seq<Int4>>, dl: seq<Real4>)
    requires Group(Q6K, rows, |il|) && Interleaved(Q6K, il, rows)
    ensures |scl| == |dl| == |il| && forall k | 0 <= k < |il| :: Decoded6(half, scl[k], dl[k], Column(rows, k))
  {
    hide ScalesQ6, Holds;
    scl, dl := [], [];
    while |scl| < |il|
      invariant |scl| == |dl| <= |il| && forall k | 0 <= k < |scl| :: Decoded6(half, scl[k], dl[k], Column(rows, k))
    {
      var s, d := DecodeQ6(half, il[|scl|], Column(rows, |scl|));
      scl, dl := scl + [s], dl + [d];
    }
  }

  /** Weights in groups of four interleaved rows. */
  ghost predicate Packed(f: Format, groups: seq<seq<seq<Byte>>>, rows: seq<seq<seq<Byte>>>, nsb: nat) {
    && |rows| == 4 * |groups| && (forall o | 0 <= o < |rows| :: |rows[o]| == nsb && Row(f, rows[o]))
    && forall g | 0 <= g < |groups| :: |groups[g]| == nsb && Interleaved(f, groups[g], rows[4 * g..4 * g + 4])
  }

  /** Output `o` of token `t`: the dot product of row `o` with the token. */
  ghost function Output(f: Format, half: Half, rows: seq<seq<seq<Byte>>>, toks: seq<Token>, nsb: nat, t: nat, o: nat): real
    requires t < |toks| && o < |rows| && Tokens(toks, nsb) && |rows[o]| == nsb && Row(f, rows[o])
  {
    RealDot(Weights(f, half, rows[o]), toks[t].xq, toks[t].xs, 256 * nsb)
  }

  /** Writes a tile's results for rows 4g .. 4g + 3. */
  method Store(Y: array2<real>, y: seq<Real4>, t0: nat, g: nat)
    requires t0 + |y| <= Y.Length0 && 4 * g + 4 <= Y.Length1
    modifies Y
    ensures forall t: nat, o: nat | t < Y.Length0 && o < Y.Length1 ::
              Y[t, o] == if t0 <= t < t0 + |y| && 4 * g <= o < 4 * g + 4 then y[t - t0][o - 4 * g] else old(Y[t, o])
  {
    var t := 0;
    while t < |y|
      invariant t <= |y|
      invariant forall u: nat, o: nat | u < Y.Length0 && o < Y.Length1 ::
                  Y[u, o] == if t0 <= u < t0 + t && 4 * g <= o < 4 * g + 4 then y[u - t0][o - 4 * g] else old(Y[u, o])
    {
      Y[t0 + t, 4 * g], Y[t0 + t, 4 * g + 1], Y[t0 + t, 4 * g + 2], Y[t0 + t, 4 * g + 3] := y[t][0], y[t][1], y[t][2], y[t][3];
      t := t + 1;
    }
  }

  /** The outputs of rows before 4g, and of the next four rows for tokens before t0, are written. */
  ghost predicate Written(f: Format, half: Half, Y: array2<real>, rows: seq<seq<seq<Byte>>>, toks: seq<Token>, nsb: nat, g: nat, t0: nat)
    requires Tokens(toks, nsb) && forall o | 0 <= o < |rows| :: |rows[o]| == nsb && Row(f, rows[o])
    requires Y.Length0 == |toks| && Y.Length1 == |rows|
    reads Y
  {
    forall t: nat, o: nat | t < |toks| && o < |rows| && (o < 4 * g || (o < 4 * g + 4 && t < t0)) ::
      Y[t, o] == Output(f, half, rows, toks, nsb, t, o)
  }

  /** Y = X * transpose(W) for weights repacked in groups of four rows, any number of tokens. */
  method Matmul(f: Format, half: Half, Y: array2<real>, groups: seq<seq<seq<Byte>>>, toks: seq<Token>, nsb: nat,
                ghost rows: seq<seq<seq<Byte>>>)
    requires Packed(f, groups, rows, nsb) && Tokens(toks, nsb) && Y.Length0 == |toks| && Y.Length1 == |rows|
    modifies Y
    ensures forall t: nat, o: nat | t < |toks| && o < |rows| :: Y[t, o] == Output(f, half, rows, toks, nsb, t, o)
  {
    hide Output, Upto, Interleaved, Row;
    var xm: seq<seq<real>>, x32: seq<seq<int>> := [], [];
    if f.Q4K? {
      xm := AllMinimums(toks, nsb);
    } else {
      x32 := AllStarts(toks, nsb);
    }
    var g := 0;
    while g < |groups|
      invariant g <= |groups| && Written(f, half, Y, rows, toks, nsb, g, 0)
    {
      GroupRows(f, rows, nsb, g);
      var t0 := 0;
      var scl4: seq<seq<Real4>>, scl6: seq<seq<Int4>>, dl: seq<Real4> := [], [], [];
      if f.Q4K? {
        scl4 := DecodeGroupQ4(half, groups[g], rows[4 * g..4 * g + 4]);
      } else {
        scl6, dl := DecodeGroupQ6(half, groups[g], rows[4 * g..4 * g + 4]);
      }
      while t0 < |toks|
        invariant t0 <= |toks| && Written(f, half, Y, rows, toks, nsb, g, t0)
      {
        var n := if t0 + TILE <= |toks| then TILE else |toks| - t0;
        var y: seq<Real4>;
        if f.Q4K? {
          y := TileQ4(half, groups[g], scl4, toks[t0..t0 + n], xm[t0..t0 + n], rows[4 * g..4 * g + 4]);
        } else {
          y := TileQ6(half, groups[g], scl6, dl, toks[t0..t0 + n], x32[t0..t0 + n], rows[4 * g..4 * g + 4]);
        }
        TileOutputs(f, half, rows, toks, nsb, g, t0, n, y);
        Store(Y, y, t0, g);
        t0 := t0 + n;
      }
      g := g + 1;
    }
  }

  lemma {:induction false} GroupRows(f: Format, rows: seq<seq<seq<Byte>>>, nsb: nat, g: nat)
    requires 4 * g + 4 <= |rows| && forall o | 0 <= o < |rows| :: |rows[o]| == nsb && Row(f, rows[o])
    ensures Group(f, rows[4 * g..4 * g + 4], nsb)
  {
    hide Row;
  }

  lemma {:induction false} TileOutputs(f: Format, half: Half, rows: seq<seq<seq<Byte>>>, toks: seq<Token>, nsb: nat, g: nat, t0: nat, n: nat, y: seq<Real4>)
    requires 4 * g + 4 <= |rows| && forall o | 0 <= o < |rows| :: |rows[o]| == nsb && Row(f, rows[o])
    requires Tokens(toks, nsb) && t0 + n <= |toks| && Group(f, rows[4 * g..4 * g + 4], nsb)
    requires TileDone(f, half, rows[4 * g..4 * g + 4], toks[t0..t0 + n], nsb, y)
    ensures |y| == n
    ensures forall t: nat, o: nat | t0 <= t < t0 + n && 4 * g <= o < 4 * g + 4 ::
              y[t - t0][o - 4 * g] == Output(f, half, rows, toks, nsb, t, o)
  {
    hide Row, RealDot, Weights;
    forall t: nat, o: nat | t0 <= t < t0 + n && 4 * g <= o < 4 * g + 4
      ensures y[t - t0][o - 4 * g] == Output(f, half, rows, toks, nsb, t, o)
    {
      var i, r: nat := t - t0, o - 4 * g;
      assert y[i][r] == Upto(f, half, rows[4 * g..4 * g + 4], r, toks[t0..t0 + n][i], nsb, 256 * nsb);
    }
  }

  // ---- from the in-place repack to the kernels -----------------------------------

  /** The groups the kernel reads from a repacked buffer. */
  function GroupsOf(f: Format, data: seq<Byte>, nsb: nat, groups: nat): (il: seq<seq<seq<Byte>>>)
    requires groups * (4 * Stride(f, nsb)) <= |data|
    ensures |il| == groups
  {
    seq(groups, g requires 0 <= g < groups => GroupFits(f, nsb, groups, g); GroupAt(f, data, g * (4 * Stride(f, nsb)), nsb))
  }

  lemma {:induction false} GroupFits(f: Format, nsb: nat, groups: nat, g: nat)
    requires g < groups
    ensures g * (4 * Stride(f, nsb)) + 4 * Stride(f, nsb) <= groups * (4 * Stride(f, nsb))
  {
    GroupsFit(g, groups, 4 * Stride(f, nsb));
  }

  /** The rows the buffer held before. */
  function RowsOf(f: Format, data: seq<Byte>, nsb: nat, groups: nat): (rows: seq<seq<seq<Byte>>>)
    requires groups * (4 * Stride(f, nsb)) <= |data|
    ensures |rows| == 4 * groups && forall o | 0 <= o < |rows| :: |rows[o]| == nsb && Row(f, rows[o])
  {
    seq(4 * groups, o requires 0 <= o < 4 * groups =>
      GroupFits(f, nsb, groups, o / 4); RowsAt(f, data, o / 4 * (4 * Stride(f, nsb)), nsb)[o % 4])
  }

  lemma {:induction false} FourRows(f: Format, was: seq<Byte>, nsb: nat, groups: nat, g: nat)
    requires g < groups && groups * (4 * Stride(f, nsb)) <= |was|
    ensures g * (4 * Stride(f, nsb)) + 4 * Stride(f, nsb) <= |was|
    ensures RowsOf(f, was, nsb, groups)[4 * g..4 * g + 4] == RowsAt(f, was, g * (4 * Stride(f, nsb)), nsb)
  {
    hide RowsAt, Row, Stride;
    GroupFits(f, nsb, groups, g);
    var all, four := RowsOf(f, was, nsb, groups), RowsAt(f, was, g * (4 * Stride(f, nsb)), nsb);
    forall r | 0 <= r < 4
      ensures all[4 * g + r] == four[r]
    {
      assert (4 * g + r) / 4 == g && (4 * g + r) % 4 == r;
    }
    assert all[4 * g..4 * g + 4] == four;
  }

  /** A repacked buffer is what the kernel asks for, with the original rows. */
  lemma {:induction false} RepackPacks(f: Format, now: seq<Byte>, was: seq<Byte>, nsb: nat, groups: nat)
    requires |now| == |was| && groups * (4 * Stride(f, nsb)) <= |now| && GroupsDone(f, now, was, nsb, groups)
    ensures Packed(f, GroupsOf(f, now, nsb, groups), RowsOf(f, was, nsb, groups), nsb)
  {
    hide Interleaved, RowsAt, GroupAt, Row, RowsOf, Stride;
    forall g | 0 <= g < groups
      ensures Interleaved(f, GroupsOf(f, now, nsb, groups)[g], RowsOf(f, was, nsb, groups)[4 * g..4 * g + 4])
    {
      assert GroupDone(f, now, was, g * (4 * Stride(f, nsb)), nsb);
      FourRows(f, was, nsb, groups, g);
    }
  }
}
