/** The in-place repack of Q4_K and Q6_K weights that interleaves four rows at a time: block `k`
    of a group of four rows holds the bytes of the rows' super-blocks `k`, rearranged. */
module Interleaving {
  import opened Quants

  // ---- the layout of an interleaved block ----------------------------------------

  /** Byte `j` of a region that carries four consecutive bytes of each row per 16-byte vector. */
  function Quads(r: nat, j: nat): nat {
    16 * (j / 4) + 4 * r + j % 4
  }

  function FromQuads(t: nat): (nat, nat) {
    (t % 16 / 4, 4 * (t / 16) + t % 4)
  }

  lemma {:induction false} QuadsInvert(r: nat, j: nat)
    requires r < 4
    ensures FromQuads(Quads(r, j)) == (r, j)
  {
    var v, x := j / 4, j % 4;
    assert Quads(r, j) == 16 * v + (4 * r + x) && (4 * r + x) / 4 == r && (4 * r + x) % 4 == x;
    assert Quads(r, j) / 16 == v && Quads(r, j) % 16 == 4 * r + x;
    assert Quads(r, j) == 4 * (4 * v + r) + x;
    assert Quads(r, j) % 4 == x;
  }

  lemma {:induction false} FromQuadsInverts(t: nat)
    ensures var (r, j) := FromQuads(t); r < 4 && Quads(r, j) == t
  {
    var v, y := t / 16, t % 16;
    assert t == 16 * v + y && y == 4 * (y / 4) + y % 4;
    assert t == 4 * (4 * v + y / 4) + y % 4;
    assert t % 4 == y % 4;
    assert (4 * v + y % 4) / 4 == v && (4 * v + y % 4) % 4 == y % 4;
  }

  /** Where byte `i` of row `r`'s super-block goes. */
  function At(f: Format, r: nat, i: nat): (t: nat)
    requires r < 4 && i < BlockBytes(f)
    ensures t < 4 * BlockBytes(f)
  {
    match f
    case Q4K =>
      if i < 2 then 2 * r + i
      else if i < 4 then 8 + 2 * r + (i - 2)
      else if i < 16 then 16 + 4 * (i - 4) + r
      else 64 + Quads(r, i - 16)
    case Q6K =>
      if i < 128 then 72 + Quads(r, i)
      else if i < 192 then 584 + Quads(r, i - 128)
      else if i < 208 then 8 + 4 * (i - 192) + r
      else 2 * r + (i - 208)
  }

  /** The row and the byte that position `t` of an interleaved block comes from. */
  function Origin(f: Format, t: nat): (c: (nat, nat))
    requires t < 4 * BlockBytes(f)
    ensures c.0 < 4 && c.1 < BlockBytes(f)
  {
    match f
    case Q4K =>
      if t < 8 then (t / 2, t % 2)
      else if t < 16 then ((t - 8) / 2, 2 + t % 2)
      else if t < 64 then (t % 4, 4 + (t - 16) / 4)
      else (FromQuads(t - 64).0, 16 + FromQuads(t - 64).1)
    case Q6K =>
      if t < 8 then (t / 2, 208 + t % 2)
      else if t < 72 then (t % 4, 192 + (t - 8) / 4)
      else if t < 584 then FromQuads(t - 72)
      else (FromQuads(t - 584).0, 128 + FromQuads(t - 584).1)
  }

  lemma {:induction false} AtOrigin4(r: nat, i: nat)
    requires r < 4 && i < 144
    ensures Origin(Q4K, At(Q4K, r, i)) == (r, i)
  {
    if i >= 16 {
      QuadsInvert(r, i - 16);
    }
  }

  lemma {:induction false} AtOrigin6(r: nat, i: nat)
    requires r < 4 && i < 210
    ensures Origin(Q6K, At(Q6K, r, i)) == (r, i)
  {
    if i < 128 {
      QuadsInvert(r, i);
      var q := Quads(r, i);
      assert q < 512;
    } else if i < 192 {
      QuadsInvert(r, i - 128);
      var q := Quads(r, i - 128);
      assert At(Q6K, r, i) == 584 + q;
    } else if i < 208 {
      assert (8 + 4 * (i - 192) + r) % 4 == r;
    }
  }

  /** The rearrangement of the bytes of four super-blocks is a bijection. */
  lemma {:induction false} AtOrigin(f: Format, r: nat, i: nat)
    requires r < 4 && i < BlockBytes(f)
    ensures Origin(f, At(f, r, i)) == (r, i)
  {
    if f.Q4K? {
      AtOrigin4(r, i);
    } else {
      AtOrigin6(r, i);
    }
  }

  lemma {:induction false} OriginAt(f: Format, t: nat)
    requires t < 4 * BlockBytes(f)
    ensures At(f, Origin(f, t).0, Origin(f, t).1) == t
  {
    if f.Q4K? && t >= 64 {
      FromQuadsInverts(t - 64);
    } else if f.Q6K? && 72 <= t < 584 {
      FromQuadsInverts(t - 72);
    } else if f.Q6K? && 584 <= t {
      FromQuadsInverts(t - 584);
    }
  }

  /** `b` is the interleaving of the super-blocks `p`. */
  ghost predicate Holds(f: Format, b: seq<Byte>, p: seq<seq<Byte>>) {
    && |b| == 4 * BlockBytes(f) && |p| == 4 && Row(f, p)
    && forall r: nat, i: nat | r < 4 && i < BlockBytes(f) :: b[At(f, r, i)] == p[r][i]
  }

  /** Interleaving loses nothing and invents nothing. */
  lemma {:induction false} HoldsUnique(f: Format, b: seq<Byte>, p: seq<seq<Byte>>, b': seq<Byte>, p': seq<seq<Byte>>)
    requires Holds(f, b, p) && Holds(f, b', p')
    ensures b == b' <==> p == p'
  {
    if p == p' {
      forall t: nat | t < 4 * BlockBytes(f)
        ensures b[t] == b'[t]
      {
        OriginAt(f, t);
        var (r, i) := Origin(f, t);
        assert b[At(f, r, i)] == p[r][i];
      }
    }
    if b == b' {
      forall r: nat | r < 4
        ensures p[r] == p'[r]
      {
        forall i: nat | i < BlockBytes(f)
          ensures p[r][i] == p'[r][i]
        {
          assert b[At(f, r, i)] == p[r][i];
        }
      }
    }
  }

  function Deinterleaved(f: Format, b: seq<Byte>): (p: seq<seq<Byte>>)
    requires |b| == 4 * BlockBytes(f)
    ensures |p| == 4 && Row(f, p)
  {
    seq(4, r requires 0 <= r < 4 => seq(BlockBytes(f), i requires 0 <= i < BlockBytes(f) => b[At(f, r, i)]))
  }

  lemma {:induction false} HoldsSomething(f: Format, b: seq<Byte>)
    requires |b| == 4 * BlockBytes(f)
    ensures Holds(f, b, Deinterleaved(f, b))
  {
  }

  // ---- building one interleaved block --------------------------------------------

  predicate Within(x: nat, i: nat, n: nat) {
    i <= x < i + n
  }

  ghost function Span(i: nat, n: nat): iset<nat> {
    iset x: nat | Within(x, i, n)
  }

  /** The origins of the positions of an interleaved block. */
  function Origins(f: Format): (o: seq<(nat, nat)>)
    ensures |o| == 4 * BlockBytes(f)
  {
    seq(4 * BlockBytes(f), t requires 0 <= t < 4 * BlockBytes(f) => Origin(f, t))
  }

  lemma {:induction false} OriginsDistinct(f: Format)
    ensures Distinct(Origins(f))
  {
    var o := Origins(f);
    forall t, u | 0 <= t < |o| && 0 <= u < |o| && o[t] == o[u]
      ensures t == u
    {
      OriginAt(f, t);
      OriginAt(f, u);
    }
  }

  predicate Distinct(o: seq<(nat, nat)>) {
    forall t, u | 0 <= t < |o| && 0 <= u < |o| :: o[t] == o[u] ==> t == u
  }

  /** `now` is `was`, except that the bytes `done` of row `r` come from its super-block `p`. */
  ghost predicate Filled(o: seq<(nat, nat)>, now: seq<Byte>, was: seq<Byte>, p: seq<Byte>, r: nat, done: iset<nat>) {
    && |now| == |was| == |o| && (forall i | i in done :: i < |p|)
    && forall t: nat | t < |now| :: now[t] == if o[t].0 == r && o[t].1 in done then p[o[t].1] else was[t]
  }

  lemma {:induction false} FilledMore(o: seq<(nat, nat)>, now: seq<Byte>, mid: seq<Byte>, was: seq<Byte>, p: seq<Byte>, r: nat,
                   done: iset<nat>, more: iset<nat>)
    requires Filled(o, mid, was, p, r, done) && Filled(o, now, mid, p, r, more)
    ensures Filled(o, now, was, p, r, done + more)
  {
  }

  /** Positions [dst, dst + n) come from bytes [i, i + n) of row `r`, in order. */
  predicate InOrder(o: seq<(nat, nat)>, dst: nat, r: nat, i: nat, n: nat) {
    dst + n <= |o| && forall t: nat | dst <= t < dst + n :: o[t] == (r, i + (t - dst))
  }

  lemma {:induction false} WrittenFilled(o: seq<(nat, nat)>, now: seq<Byte>, was: seq<Byte>, p: seq<Byte>, dst: nat, r: nat, i: nat, n: nat)
    requires Distinct(o) && InOrder(o, dst, r, i, n) && |now| == |was| == |o| && i + n <= |p|
    requires forall t: nat | t < |now| :: now[t] == if dst <= t < dst + n then p[i + (t - dst)] else was[t]
    ensures Filled(o, now, was, p, r, Span(i, n))
  {
    forall t: nat | t < |now|
      ensures now[t] == if o[t].0 == r && o[t].1 in Span(i, n) then p[o[t].1] else was[t]
    {
      if o[t].0 == r && o[t].1 in Span(i, n) {
        assert o[dst + (o[t].1 - i)] == o[t];
      }
    }
  }

  /** memcpy of `n` bytes of row `r`'s super-block, which starts at tmp[src], from byte `i` on. */
  method Copy(b: array<Byte>, dst: nat, tmp: array<Byte>, src: nat, r: nat, i: nat, n: nat,
              ghost o: seq<(nat, nat)>, ghost was: seq<Byte>, ghost p: seq<Byte>, ghost done: iset<nat>)
    requires b != tmp && src + |p| <= tmp.Length && p == tmp[src..src + |p|] && i + n <= |p| && |o| == b.Length
    requires Distinct(o) && InOrder(o, dst, r, i, n) && Filled(o, b[..], was, p, r, done)
    modifies b
    ensures Filled(o, b[..], was, p, r, done + Span(i, n))
  {
    var x := 0;
    while x < n
      invariant x <= n
      invariant forall t: nat | t < b.Length :: b[t] == if dst <= t < dst + x then p[i + (t - dst)] else old(b[t])
    {
      assert p[i + x] == tmp[src + i + x];
      b[dst + x] := tmp[src + i + x];
      x := x + 1;
    }
    WrittenFilled(o, b[..], old(b[..]), p, dst, r, i, n);
    FilledMore(o, b[..], old(b[..]), was, p, r, done, Span(i, n));
  }

  /** Byte `i + x` of a row is byte `x` of the row's quarter of a vector. */
  lemma {:induction false} AtQuads(f: Format, r: nat, i: nat, base: nat, start: nat, x: nat)
    requires r < 4 && x < 4 && i % 4 == 0 && start <= i && i + x < BlockBytes(f)
    requires if f.Q4K? then base == 64 && start == 16
             else (base == 72 && start == 0 && i < 128) || (base == 584 && start == 128 && 128 <= i < 192)
    ensures At(f, r, i + x) == base + 4 * (i - start) + 4 * r + x
  {
    var j := i - start + x;
    assert j / 4 == (i - start) / 4 && j % 4 == x;
    assert Quads(r, j) == 4 * (i - start) + 4 * r + x;
  }

  lemma {:induction false} OriginQuads(f: Format, r: nat, i: nat, base: nat, start: nat, x: nat)
    requires r < 4 && x < 4 && i % 4 == 0 && start <= i && i + x < BlockBytes(f)
    requires if f.Q4K? then base == 64 && start == 16
             else (base == 72 && start == 0 && i < 128) || (base == 584 && start == 128 && 128 <= i < 192)
    ensures base + 4 * (i - start) + 4 * r + x < 4 * BlockBytes(f)
    ensures Origin(f, base + 4 * (i - start) + 4 * r + x) == (r, i + x)
  {
    AtQuads(f, r, i, base, start, x);
    AtOrigin(f, r, i + x);
  }

  lemma {:induction false} QuadInOrder(f: Format, base: nat, start: nat, r: nat, i: nat)
    requires r < 4 && i % 4 == 0 && start <= i && i + 4 <= BlockBytes(f)
    requires if f.Q4K? then base == 64 && start == 16
             else (base == 72 && start == 0 && i < 128) || (base == 584 && start == 128 && 128 <= i < 192)
    ensures InOrder(Origins(f), base + 4 * (i - start) + 4 * r, r, i, 4)
  {
    hide Origin;
    OriginQuads(f, r, i, base, start, 0);
    OriginQuads(f, r, i, base, start, 1);
    OriginQuads(f, r, i, base, start, 2);
    OriginQuads(f, r, i, base, start, 3);
  }

  lemma {:induction false} OneInOrder(f: Format, r: nat, i: nat)
    requires r < 4 && i < BlockBytes(f)
    ensures InOrder(Origins(f), At(f, r, i), r, i, 1)
  {
    AtOrigin(f, r, i);
  }

  lemma {:induction false} PairInOrder(f: Format, r: nat, i: nat)
    requires r < 4 && if f.Q4K? then i == 0 || i == 2 else i == 208
    ensures InOrder(Origins(f), At(f, r, i), r, i, 2)
  {
    AtOrigin(f, r, i);
    AtOrigin(f, r, i + 1);
  }

  /** The 32 quant bytes of chunk `j`. */
  method FillChunkQ4(b: array<Byte>, tmp: array<Byte>, src: nat, r: nat, j: nat,
                     ghost o: seq<(nat, nat)>, ghost was: seq<Byte>, ghost p: seq<Byte>)
    requires b != tmp && src + 144 <= tmp.Length && p == tmp[src..src + 144] && r < 4 && j < 4
    requires o == Origins(Q4K) && Distinct(o) && Filled(o, b[..], was, p, r, Span(0, 16 + 32 * j))
    modifies b
    ensures Filled(o, b[..], was, p, r, Span(0, 16 + 32 * (j + 1)))
  {
    var v := 0;
    while v < 8
      invariant v <= 8
      invariant Filled(o, b[..], was, p, r, Span(0, 16 + 32 * j + 4 * v))
    {
      QuadInOrder(Q4K, 64, 16, r, 16 + 32 * j + 4 * v);
      Copy(b, 64 + 128 * j + 16 * v + 4 * r, tmp, src, r, 16 + 32 * j + 4 * v, 4, o, was, p, Span(0, 16 + 32 * j + 4 * v));
      SpanGrows(16 + 32 * j + 4 * v, 4);
      v := v + 1;
    }
  }

  lemma {:induction false} SpanGrows(i: nat, n: nat)
    ensures Span(0, i) + Span(i, n) == Span(0, i + n)
  {
  }

  /** Factors and packed scales. */
  method FillHeadQ4(b: array<Byte>, tmp: array<Byte>, src: nat, r: nat,
                    ghost o: seq<(nat, nat)>, ghost was: seq<Byte>, ghost p: seq<Byte>)
    requires b != tmp && src + 144 <= tmp.Length && p == tmp[src..src + 144] && r < 4
    requires o == Origins(Q4K) && Distinct(o) && |o| == b.Length && was == b[..]
    modifies b
    ensures Filled(o, b[..], was, p, r, Span(0, 16))
  {
    PairInOrder(Q4K, r, 0);
    Copy(b, 2 * r, tmp, src, r, 0, 2, o, was, p, Span(0, 0));
    SpanGrows(0, 2);
    PairInOrder(Q4K, r, 2);
    Copy(b, 8 + 2 * r, tmp, src, r, 2, 2, o, was, p, Span(0, 2));
    SpanGrows(2, 2);
    var i := 0;
    while i < 12
      invariant i <= 12
      invariant Filled(o, b[..], was, p, r, Span(0, 4 + i))
    {
      OneInOrder(Q4K, r, 4 + i);
      Copy(b, 16 + 4 * i + r, tmp, src, r, 4 + i, 1, o, was, p, Span(0, 4 + i));
      SpanGrows(4 + i, 1);
      i := i + 1;
    }
  }

  method FillQ4(b: array<Byte>, tmp: array<Byte>, src: nat, r: nat)
    requires b.Length == 576 && b != tmp && src + 144 <= tmp.Length && r < 4
    modifies b
    ensures Filled(Origins(Q4K), b[..], old(b[..]), tmp[src..src + 144], r, Span(0, 144))
  {
    ghost var o, was, p := Origins(Q4K), b[..], tmp[src..src + 144];
    OriginsDistinct(Q4K);
    FillHeadQ4(b, tmp, src, r, o, was, p);
    var j := 0;
    while j < 4
      invariant j <= 4
      invariant Filled(o, b[..], was, p, r, Span(0, 16 + 32 * j))
    {
      FillChunkQ4(b, tmp, src, r, j, o, was, p);
      j := j + 1;
    }
  }

  /** Scales and factor, the first `h` halves, and vectors of the next half. */
  ghost function Halves(h: nat, ql: nat, qh: nat): iset<nat> {
    Span(0, 64 * h + 4 * ql) + Span(128, 32 * h + 4 * qh) + Span(192, 18)
  }

  lemma {:induction false} HalvesGrow(h: nat, ql: nat, qh: nat)
    ensures Halves(h, ql, qh) + Span(64 * h + 4 * ql, 4) == Halves(h, ql + 1, qh)
    ensures Halves(h, ql, qh) + Span(128 + 32 * h + 4 * qh, 4) == Halves(h, ql, qh + 1)
    ensures Halves(h, 16, 8) == Halves(h + 1, 0, 0)
    ensures Halves(2, 0, 0) == Span(0, 210)
  {
  }

  /** The low nibbles of half `h`. */
  method FillLowQ6(b: array<Byte>, tmp: array<Byte>, src: nat, r: nat, h: nat,
                   ghost o: seq<(nat, nat)>, ghost was: seq<Byte>, ghost p: seq<Byte>)
    requires b != tmp && src + 210 <= tmp.Length && p == tmp[src..src + 210] && r < 4 && h < 2
    requires o == Origins(Q6K) && Distinct(o) && Filled(o, b[..], was, p, r, Halves(h, 0, 0))
    modifies b
    ensures Filled(o, b[..], was, p, r, Halves(h, 16, 0))
  {
    var v := 0;
    while v < 16
      invariant v <= 16
      invariant Filled(o, b[..], was, p, r, Halves(h, v, 0))
    {
      QuadInOrder(Q6K, 72, 0, r, 64 * h + 4 * v);
      Copy(b, 72 + 256 * h + 16 * v + 4 * r, tmp, src, r, 64 * h + 4 * v, 4, o, was, p, Halves(h, v, 0));
      HalvesGrow(h, v, 0);
      v := v + 1;
    }
  }

  /** The high bits of half `h`. */
  method FillHighQ6(b: array<Byte>, tmp: array<Byte>, src: nat, r: nat, h: nat,
                    ghost o: seq<(nat, nat)>, ghost was: seq<Byte>, ghost p: seq<Byte>)
    requires b != tmp && src + 210 <= tmp.Length && p == tmp[src..src + 210] && r < 4 && h < 2
    requires o == Origins(Q6K) && Distinct(o) && Filled(o, b[..], was, p, r, Halves(h, 16, 0))
    modifies b
    ensures Filled(o, b[..], was, p, r, Halves(h, 16, 8))
  {
    var v := 0;
    while v < 8
      invariant v <= 8
      invariant Filled(o, b[..], was, p, r, Halves(h, 16, v))
    {
      QuadInOrder(Q6K, 584, 128, r, 128 + 32 * h + 4 * v);
      Copy(b, 584 + 128 * h + 16 * v + 4 * r, tmp, src, r, 128 + 32 * h + 4 * v, 4, o, was, p, Halves(h, 16, v));
      HalvesGrow(h, 16, v);
      v := v + 1;
    }
  }

  method FillQ6(b: array<Byte>, tmp: array<Byte>, src: nat, r: nat)
    requires b.Length == 840 && b != tmp && src + 210 <= tmp.Length && r < 4
    modifies b
    ensures Filled(Origins(Q6K), b[..], old(b[..]), tmp[src..src + 210], r, Span(0, 210))
  {
    ghost var o, was, p := Origins(Q6K), b[..], tmp[src..src + 210];
    OriginsDistinct(Q6K);
    PairInOrder(Q6K, r, 208);
    Copy(b, 2 * r, tmp, src, r, 208, 2, o, was, p, Span(0, 0));
    assert Span(0, 0) + Span(208, 2) == Span(208, 2) + Span(192, 0);
    var i := 0;
    while i < 16
      invariant i <= 16
      invariant Filled(o, b[..], was, p, r, Span(208, 2) + Span(192, i))
    {
      OneInOrder(Q6K, r, 192 + i);
      Copy(b, 8 + 4 * i + r, tmp, src, r, 192 + i, 1, o, was, p, Span(208, 2) + Span(192, i));
      assert Span(208, 2) + Span(192, i) + Span(192 + i, 1) == Span(208, 2) + Span(192, i + 1);
      i := i + 1;
    }
    assert Span(208, 2) + Span(192, 16) == Halves(0, 0, 0);
    var h := 0;
    while h < 2
      invariant h <= 2
      invariant Filled(o, b[..], was, p, r, Halves(h, 0, 0))
    {
      FillLowQ6(b, tmp, src, r, h, o, was, p);
      FillHighQ6(b, tmp, src, r, h, o, was, p);
      HalvesGrow(h, 16, 8);
      h := h + 1;
    }
    HalvesGrow(2, 0, 0);
  }

  // ---- repacking in place --------------------------------------------------------

  /** Bytes of `k` super-blocks. */
  function Stride(f: Format, k: nat): nat {
    if f.Q4K? then 144 * k else 210 * k
  }

  /** The row of `nsb` super-blocks that starts at `start`. */
  function RowAt(f: Format, data: seq<Byte>, start: nat, nsb: nat): (row: seq<seq<Byte>>)
    requires start + Stride(f, nsb) <= |data|
    ensures |row| == nsb && Row(f, row)
  {
    seq(nsb, k requires 0 <= k < nsb => data[start + Stride(f, k)..start + Stride(f, k + 1)])
  }

  /** The four rows of the group that starts at `start`. */
  function RowsAt(f: Format, data: seq<Byte>, start: nat, nsb: nat): (rows: seq<seq<seq<Byte>>>)
    requires start + 4 * Stride(f, nsb) <= |data|
    ensures |rows| == 4 && forall r | 0 <= r < 4 :: |rows[r]| == nsb && Row(f, rows[r])
  {
    var n := Stride(f, nsb);
    [RowAt(f, data, start, nsb), RowAt(f, data, start + n, nsb), RowAt(f, data, start + 2 * n, nsb), RowAt(f, data, start + 3 * n, nsb)]
  }

  /** The interleaved group of `nsb` blocks that starts at `start`. */
  function GroupAt(f: Format, data: seq<Byte>, start: nat, nsb: nat): (il: seq<seq<Byte>>)
    requires start + 4 * Stride(f, nsb) <= |data|
    ensures |il| == nsb
  {
    seq(nsb, k requires 0 <= k < nsb => data[start + 4 * Stride(f, k)..start + 4 * Stride(f, k + 1)])
  }

  /** Super-block `k` of each of the rows. */
  function Column(rows: seq<seq<seq<Byte>>>, k: nat): seq<seq<Byte>>
    requires |rows| == 4 && forall r | 0 <= r < 4 :: k < |rows[r]|
  {
    [rows[0][k], rows[1][k], rows[2][k], rows[3][k]]
  }

  /** `il` is the interleaving of four rows. */
  ghost predicate Interleaved(f: Format, il: seq<seq<Byte>>, rows: seq<seq<seq<Byte>>>) {
    && |rows| == 4 && (forall r | 0 <= r < 4 :: |rows[r]| == |il|)
    && forall k | 0 <= k < |il| :: Holds(f, il[k], Column(rows, k))
  }

  /** The rows before `r` are in place. */
  ghost predicate RowsIn(o: seq<(nat, nat)>, b: seq<Byte>, p: seq<seq<Byte>>, r: nat) {
    |b| == |o| && forall t | 0 <= t < |b| && o[t].0 < r :: o[t].0 < |p| && o[t].1 < |p[o[t].0]| && b[t] == p[o[t].0][o[t].1]
  }

  lemma {:induction false} RowsInMore(f: Format, b: seq<Byte>, was: seq<Byte>, p: seq<seq<Byte>>, r: nat)
    requires |p| == 4 && Row(f, p) && r < 4
    requires RowsIn(Origins(f), was, p, r) && Filled(Origins(f), b, was, p[r], r, Span(0, BlockBytes(f)))
    ensures RowsIn(Origins(f), b, p, r + 1)
  {
    var o := Origins(f);
    forall t | 0 <= t < |b| && o[t].0 < r + 1
      ensures o[t].1 < |p[o[t].0]| && b[t] == p[o[t].0][o[t].1]
    {
      assert o[t].1 < BlockBytes(f);
      assert Within(o[t].1, 0, BlockBytes(f));
    }
  }

  lemma {:induction false} AllRowsIn(f: Format, b: seq<Byte>, p: seq<seq<Byte>>)
    requires |p| == 4 && Row(f, p) && RowsIn(Origins(f), b, p, 4)
    ensures Holds(f, b, p)
  {
    var o := Origins(f);
    forall r: nat, i: nat | r < 4 && i < BlockBytes(f)
      ensures b[At(f, r, i)] == p[r][i]
    {
      AtOrigin(f, r, i);
      assert o[At(f, r, i)] == (r, i);
    }
  }

  method Fill(f: Format, b: array<Byte>, tmp: array<Byte>, src: nat, r: nat)
    requires b.Length == 4 * BlockBytes(f) && b != tmp && src + BlockBytes(f) <= tmp.Length && r < 4
    modifies b
    ensures Filled(Origins(f), b[..], old(b[..]), tmp[src..src + BlockBytes(f)], r, Span(0, BlockBytes(f)))
  {
    if f.Q4K? {
      FillQ4(b, tmp, src, r);
    } else {
      FillQ6(b, tmp, src, r);
    }
  }

  /** Where row `r` of a group starts. */
  function RowStart(f: Format, nsb: nat, r: nat): nat {
    var n := Stride(f, nsb);
    if r == 0 then 0 else if r == 1 then n else if r == 2 then 2 * n else 3 * n
  }

  lemma {:induction false} ColumnAt(f: Format, tmp: seq<Byte>, nsb: nat, k: nat, r: nat)
    requires |tmp| == 4 * Stride(f, nsb) && k < nsb && r < 4
    ensures var src := RowStart(f, nsb, r) + Stride(f, k);
            src + BlockBytes(f) <= |tmp| && Column(RowsAt(f, tmp, 0, nsb), k)[r] == tmp[src..src + BlockBytes(f)]
  {
    var src := RowStart(f, nsb, r) + Stride(f, k);
    assert Stride(f, k + 1) == Stride(f, k) + BlockBytes(f) && Stride(f, k + 1) <= Stride(f, nsb);
    assert RowAt(f, tmp, RowStart(f, nsb, r), nsb)[k] == tmp[src..src + BlockBytes(f)];
  }

  /** Builds interleaved block `k` from a copy of its group. */
  method Build(f: Format, b: array<Byte>, tmp: array<Byte>, nsb: nat, k: nat)
    requires b.Length == 4 * BlockBytes(f) && b != tmp && tmp.Length == 4 * Stride(f, nsb) && k < nsb
    modifies b
    ensures Holds(f, b[..], Column(RowsAt(f, tmp[..], 0, nsb), k))
  {
    hide Holds, Filled;
    ghost var p := Column(RowsAt(f, tmp[..], 0, nsb), k);
    var r := 0;
    while r < 4
      invariant r <= 4
      invariant RowsIn(Origins(f), b[..], p, r)
    {
      ColumnAt(f, tmp[..], nsb, k, r);
      var src := RowStart(f, nsb, r) + Stride(f, k);
      ghost var was := b[..];
      Fill(f, b, tmp, src, r);
      assert tmp[src..src + BlockBytes(f)] == tmp[..][src..src + BlockBytes(f)];
      RowsInMore(f, b[..], was, p, r);
      r := r + 1;
    }
    AllRowsIn(f, b[..], p);
  }

  /** memcpy over arrays. */
  method Memcpy(dst: array<Byte>, at: nat, src: array<Byte>, start: nat, n: nat)
    requires dst != src && at + n <= dst.Length && start + n <= src.Length
    modifies dst
    ensures dst[..] == old(dst[..at]) + src[start..start + n] + old(dst[at + n..])
  {
    forall x | 0 <= x < n {
      dst[at + x] := src[start + x];
    }
  }

  /** Replaces block `k` of a group whose first `k` blocks are done; `tmp` is a copy of the group. */
  method RepackBlock(f: Format, data: array<Byte>, at: nat, nsb: nat, tmp: array<Byte>, k: nat, ghost was: seq<Byte>)
    requires data != tmp && tmp.Length == 4 * Stride(f, nsb) && at + 4 * Stride(f, nsb) <= |was| && k < nsb
    requires tmp[..] == was[at..at + 4 * Stride(f, nsb)]
    requires Untouched(data[..], was, at, 4 * Stride(f, nsb))
    requires BlocksDone(f, GroupAt(f, data[..], at, nsb), RowsAt(f, was, at, nsb), k)
    modifies data
    ensures Untouched(data[..], was, at, 4 * Stride(f, nsb))
    ensures BlocksDone(f, GroupAt(f, data[..], at, nsb), RowsAt(f, was, at, nsb), k + 1)
  {
    var b := new Byte[4 * BlockBytes(f)];
    Build(f, b, tmp, nsb, k);
    ghost var before, block := data[..], b[..];
    SameRows(f, tmp[..], was, at, nsb);
    StrideGrows(f, k, nsb);
    Memcpy(data, at + 4 * Stride(f, k), b, 0, b.Length);
    BlockWritten(f, data[..], before, was, block, at, nsb, k);
  }

  lemma {:induction false} StrideGrows(f: Format, k: nat, nsb: nat)
    requires k < nsb
    ensures Stride(f, k) + BlockBytes(f) == Stride(f, k + 1) <= Stride(f, nsb)
  {
  }

  lemma {:induction false} BlockWritten(f: Format, now: seq<Byte>, before: seq<Byte>, was: seq<Byte>, b: seq<Byte>, at: nat, nsb: nat, k: nat)
    requires at + 4 * Stride(f, nsb) <= |was| && k < nsb && |b| == 4 * BlockBytes(f)
    requires Untouched(before, was, at, 4 * Stride(f, nsb))
    requires now == before[..at + 4 * Stride(f, k)] + b[0..|b|] + before[at + 4 * Stride(f, k) + |b|..]
    requires BlocksDone(f, GroupAt(f, before, at, nsb), RowsAt(f, was, at, nsb), k)
    requires Holds(f, b, Column(RowsAt(f, was, at, nsb), k))
    ensures Untouched(now, was, at, 4 * Stride(f, nsb))
    ensures BlocksDone(f, GroupAt(f, now, at, nsb), RowsAt(f, was, at, nsb), k + 1)
  {
    assert b[0..|b|] == b;
    StrideGrows(f, k, nsb);
    WroteBlock(f, now, before, b, at, nsb, k);
    UntouchedMore(now, before, was, at, 4 * Stride(f, nsb), at + 4 * Stride(f, k), b);
    forall j | 0 <= j < k + 1
      ensures Holds(f, GroupAt(f, now, at, nsb)[j], Column(RowsAt(f, was, at, nsb), j))
    {
    }
  }

  /** Rewrites one group of rows from a copy of itself. */
  method RepackGroup(f: Format, data: array<Byte>, at: nat, nsb: nat, tmp: array<Byte>)
    requires data != tmp && tmp.Length == 4 * Stride(f, nsb) && at + 4 * Stride(f, nsb) <= data.Length
    modifies data, tmp
    ensures Interleaved(f, GroupAt(f, data[..], at, nsb), RowsAt(f, old(data[..]), at, nsb))
    ensures Untouched(data[..], old(data[..]), at, 4 * Stride(f, nsb))
  {
    Memcpy(tmp, 0, data, at, tmp.Length);
    ghost var was := data[..];
    assert tmp[..] == was[at..at + 4 * Stride(f, nsb)];
    var k := 0;
    while k < nsb
      invariant k <= nsb
      invariant tmp[..] == was[at..at + 4 * Stride(f, nsb)]
      invariant Untouched(data[..], was, at, 4 * Stride(f, nsb))
      invariant BlocksDone(f, GroupAt(f, data[..], at, nsb), RowsAt(f, was, at, nsb), k)
    {
      RepackBlock(f, data, at, nsb, tmp, k, was);
      k := k + 1;
    }
  }

  ghost predicate BlocksDone(f: Format, il: seq<seq<Byte>>, rows: seq<seq<seq<Byte>>>, k: nat)
    requires |rows| == 4 && k <= |il| && forall r | 0 <= r < 4 :: |rows[r]| == |il|
  {
    forall j | 0 <= j < k :: Holds(f, il[j], Column(rows, j))
  }

  /** Nothing outside [at, at + n) has changed. */
  predicate Untouched(now: seq<Byte>, was: seq<Byte>, at: nat, n: nat) {
    |now| == |was| && forall x | 0 <= x < |now| && !(at <= x < at + n) :: now[x] == was[x]
  }

  lemma {:induction false} UntouchedMore(now: seq<Byte>, before: seq<Byte>, was: seq<Byte>, at: nat, n: nat, dst: nat, b: seq<Byte>)
    requires Untouched(before, was, at, n) && at <= dst && dst + |b| <= at + n <= |was|
    requires now == before[..dst] + b + before[dst + |b|..]
    ensures Untouched(now, was, at, n)
  {
  }

  lemma {:induction false} SameRows(f: Format, tmp: seq<Byte>, was: seq<Byte>, at: nat, nsb: nat)
    requires at + 4 * Stride(f, nsb) <= |was| && tmp == was[at..at + 4 * Stride(f, nsb)]
    ensures RowsAt(f, tmp, 0, nsb) == RowsAt(f, was, at, nsb)
  {
    var n := Stride(f, nsb);
    SameRow(f, tmp, was, at, 0, nsb);
    SameRow(f, tmp, was, at, n, nsb);
    SameRow(f, tmp, was, at, 2 * n, nsb);
    SameRow(f, tmp, was, at, 3 * n, nsb);
  }

  lemma {:induction false} SameRow(f: Format, tmp: seq<Byte>, was: seq<Byte>, at: nat, start: nat, nsb: nat)
    requires at + |tmp| <= |was| && tmp == was[at..at + |tmp|] && start + Stride(f, nsb) <= |tmp|
    ensures RowAt(f, tmp, start, nsb) == RowAt(f, was, at + start, nsb)
  {
    forall k | 0 <= k < nsb
      ensures RowAt(f, tmp, start, nsb)[k] == RowAt(f, was, at + start, nsb)[k]
    {
      var lo, hi := start + Stride(f, k), start + Stride(f, k + 1);
      assert Stride(f, k + 1) <= Stride(f, nsb) && lo <= hi <= |tmp|;
      SliceOfSlice(was, at, |tmp|, lo, hi);
    }
  }

  lemma {:induction false} SliceOfSlice(s: seq<Byte>, at: nat, n: nat, lo: nat, hi: nat)
    requires at + n <= |s| && lo <= hi <= n
    ensures s[at..at + n][lo..hi] == s[at + lo..at + hi]
  {
    var t := s[at..at + n];
    forall x | 0 <= x < hi - lo
      ensures t[lo..hi][x] == s[at + lo..at + hi][x]
    {
      assert t[lo + x] == s[at + (lo + x)];
    }
  }

  lemma {:induction false} WroteBlock(f: Format, now: seq<Byte>, before: seq<Byte>, b: seq<Byte>, at: nat, nsb: nat, k: nat)
    requires k < nsb && at + 4 * Stride(f, nsb) <= |before| && |b| == 4 * BlockBytes(f)
    requires now == before[..at + 4 * Stride(f, k)] + b + before[at + 4 * Stride(f, k) + |b|..]
    ensures |now| == |before| && GroupAt(f, now, at, nsb)[k] == b
    ensures forall j | 0 <= j < k :: GroupAt(f, now, at, nsb)[j] == GroupAt(f, before, at, nsb)[j]
  {
    forall j | 0 <= j < k
      ensures GroupAt(f, now, at, nsb)[j] == GroupAt(f, before, at, nsb)[j]
    {
      assert Stride(f, j + 1) <= Stride(f, k);
    }
  }

  // ---- the whole matrix ----------------------------------------------------------

  /** The group that starts at `at` holds the interleaving of the rows that were there. */
  ghost predicate GroupDone(f: Format, now: seq<Byte>, was: seq<Byte>, at: nat, nsb: nat) {
    && at + 4 * Stride(f, nsb) <= |now| && at + 4 * Stride(f, nsb) <= |was|
    && Interleaved(f, GroupAt(f, now, at, nsb), RowsAt(f, was, at, nsb))
  }

  lemma {:induction false} SameGroup(f: Format, now: seq<Byte>, now': seq<Byte>, at: nat, nsb: nat)
    requires at + 4 * Stride(f, nsb) <= |now| == |now'|
    requires now'[at..at + 4 * Stride(f, nsb)] == now[at..at + 4 * Stride(f, nsb)]
    ensures GroupAt(f, now, at, nsb) == GroupAt(f, now', at, nsb)
  {
    forall k | 0 <= k < nsb
      ensures GroupAt(f, now, at, nsb)[k] == GroupAt(f, now', at, nsb)[k]
    {
      StrideGrows(f, k, nsb);
      SliceOfSlice(now, at, 4 * Stride(f, nsb), 4 * Stride(f, k), 4 * Stride(f, k + 1));
      SliceOfSlice(now', at, 4 * Stride(f, nsb), 4 * Stride(f, k), 4 * Stride(f, k + 1));
    }
  }

  /** A group depends on its own bytes only. */
  lemma {:induction false} GroupDoneKept(f: Format, now: seq<Byte>, was: seq<Byte>, now': seq<Byte>, was': seq<Byte>, at: nat, nsb: nat)
    requires GroupDone(f, now, was, at, nsb) && |now'| == |now| && |was'| == |was|
    requires now'[at..at + 4 * Stride(f, nsb)] == now[at..at + 4 * Stride(f, nsb)]
    requires was'[at..at + 4 * Stride(f, nsb)] == was[at..at + 4 * Stride(f, nsb)]
    ensures GroupDone(f, now', was', at, nsb)
  {
    SameRows(f, was[at..at + 4 * Stride(f, nsb)], was, at, nsb);
    SameRows(f, was[at..at + 4 * Stride(f, nsb)], was', at, nsb);
    SameGroup(f, now, now', at, nsb);
  }

  lemma {:induction false} GroupsFit(g: nat, groups: nat, n: nat)
    requires g < groups
    ensures g * n + n == (g + 1) * n <= groups * n
  {
    var rest: nat := groups - (g + 1);
    assert groups * n == (g + 1) * n + rest * n;
  }

  ghost predicate GroupsDone(f: Format, now: seq<Byte>, was: seq<Byte>, nsb: nat, groups: nat) {
    forall g: nat | g < groups :: GroupDone(f, now, was, g * (4 * Stride(f, nsb)), nsb)
  }

  lemma {:induction false} GroupAdded(f: Format, now: seq<Byte>, before: seq<Byte>, was: seq<Byte>, nsb: nat, g: nat)
    requires GroupsDone(f, before, was, nsb, g) && Untouched(before, was, 0, g * (4 * Stride(f, nsb)))
    requires Untouched(now, before, g * (4 * Stride(f, nsb)), 4 * Stride(f, nsb))
    requires GroupDone(f, now, before, g * (4 * Stride(f, nsb)), nsb)
    ensures GroupsDone(f, now, was, nsb, g + 1)
    ensures Untouched(now, was, 0, (g + 1) * (4 * Stride(f, nsb)))
  {
    var n := 4 * Stride(f, nsb);
    GroupsFit(g, g + 1, n);
    forall j: nat | j < g + 1
      ensures GroupDone(f, now, was, j * n, nsb)
    {
      GroupsFit(j, g + 1, n);
      if j < g {
        GroupsFit(j, g, n);
        assert GroupDone(f, before, was, j * n, nsb);
        GroupDoneKept(f, before, was, now, was, j * n, nsb);
      } else {
        GroupDoneKept(f, now, before, now, was, j * n, nsb);
      }
    }
  }

  /** Repacks a weight matrix of `nOut` rows of `nIn` weights in place, or refuses the shape. */
  method Repack(f: Format, data: array<Byte>, nOut: nat, nIn: nat) returns (ok: bool)
    requires nOut % 4 == 0 && nIn % 256 == 0 ==> nOut / 4 * (4 * Stride(f, nIn / 256)) <= data.Length
    modifies data
    ensures ok <==> nOut % 4 == 0 && nIn % 256 == 0
    ensures !ok ==> data[..] == old(data[..])
    ensures ok ==> GroupsDone(f, data[..], old(data[..]), nIn / 256, nOut / 4)
    ensures ok ==> Untouched(data[..], old(data[..]), 0, nOut / 4 * (4 * Stride(f, nIn / 256)))
  {
    ok := nOut % 4 == 0 && nIn % 256 == 0;
    if !ok {
      return;
    }
    ghost var was := data[..];
    var nsb, groups := nIn / 256, nOut / 4;
    var n := 4 * Stride(f, nsb);
    var tmp := new Byte[n];
    var g: nat := 0;
    while g < groups
      invariant g <= groups
      invariant GroupsDone(f, data[..], was, nsb, g) && Untouched(data[..], was, 0, g * n)
    {
      ghost var before := data[..];
      GroupsFit(g, groups, n);
      RepackGroup(f, data, g * n, nsb, tmp);
      GroupAdded(f, data[..], before, was, nsb, g);
      g := g + 1;
    }
  }
}
