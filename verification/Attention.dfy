/** Softmax attention of one query head over its span, over the reals: in one pass, in chunks
    merged by log-sum-exp rescaling, and tiled over the queries of a batch. `exp` is any
    positive function that turns sums into products. */
module Attention {
  import opened Arithmetic
  import opened Network

  ghost predicate Exponential(exp: real -> real) {
    && (forall a: real, b: real {:trigger SumToProduct(exp, a, b)} :: SumToProduct(exp, a, b))
    && forall a: real :: exp(a) > 0.0
  }

  predicate SumToProduct(exp: real -> real, a: real, b: real) {
    exp(a + b) == exp(a) * exp(b)
  }

  /** Sum of the weights exp(s[t] - m) over [lo, hi). */
  ghost function Mass(exp: real -> real, s: seq<real>, m: real, lo: nat, hi: nat): real
    requires hi <= |s|
  {
    if hi <= lo then 0.0 else Mass(exp, s, m, lo, hi - 1) + exp(s[hi - 1] - m)
  }

  /** Sum of the weighted values, in dimension `d`. */
  ghost function Blend(exp: real -> real, s: seq<real>, v: seq<Vec>, d: nat, m: real, lo: nat, hi: nat): real
    requires hi <= |s| && hi <= |v|
  {
    if hi <= lo then 0.0 else Blend(exp, s, v, d, m, lo, hi - 1) + exp(s[hi - 1] - m) * At(v[hi - 1], d)
  }

  function At(x: Vec, d: nat): real {
    if d < |x| then x[d] else 0.0
  }

  /** `x` is the mean of the values in dimension `d`, weighted by exp(s[t] - m). */
  ghost predicate Mean(x: real, exp: real -> real, s: seq<real>, v: seq<Vec>, d: nat, m: real)
    requires |s| <= |v|
  {
    x * Mass(exp, s, m, 0, |s|) == Blend(exp, s, v, d, m, 0, |s|)
  }

  /** The reference: the softmax-weighted mean of the values, with no maximum subtracted. */
  ghost predicate IsAttention(out: Vec, exp: real -> real, s: seq<real>, v: seq<Vec>, hd: nat)
    requires |s| <= |v|
  {
    |out| == hd && forall d: nat | d < hd :: Mean(out[d], exp, s, v, d, 0.0)
  }

  // ---- weights under another maximum ---------------------------------------------

  lemma {:induction false} MassRescaled(exp: real -> real, s: seq<real>, m: real, to: real, lo: nat, hi: nat)
    requires Exponential(exp) && hi <= |s|
    ensures exp(m - to) * Mass(exp, s, m, lo, hi) == Mass(exp, s, to, lo, hi)
  {
    if lo < hi {
      MassRescaled(exp, s, m, to, lo, hi - 1);
      var x := s[hi - 1];
      assert (m - to) + (x - m) == x - to;
      assert SumToProduct(exp, m - to, x - m);
      DistributeReal(exp(m - to), Mass(exp, s, m, lo, hi - 1), exp(x - m));
    }
  }

  lemma {:induction false} BlendRescaled(exp: real -> real, s: seq<real>, v: seq<Vec>, d: nat, m: real, to: real, lo: nat, hi: nat)
    requires Exponential(exp) && hi <= |s| && hi <= |v|
    ensures exp(m - to) * Blend(exp, s, v, d, m, lo, hi) == Blend(exp, s, v, d, to, lo, hi)
  {
    if lo < hi {
      BlendRescaled(exp, s, v, d, m, to, lo, hi - 1);
      var x, y := s[hi - 1], At(v[hi - 1], d);
      assert (m - to) + (x - m) == x - to;
      assert SumToProduct(exp, m - to, x - m);
      DistributeReal(exp(m - to), Blend(exp, s, v, d, m, lo, hi - 1), exp(x - m) * y);
      Regroup(exp(m - to), exp(x - m), y);
    }
  }

  lemma {:induction false} Regroup(a: real, b: real, c: real)
    ensures a * (b * c) == (a * b) * c
  {
  }

  lemma {:induction false} MassSplit(exp: real -> real, s: seq<real>, m: real, lo: nat, mid: nat, hi: nat)
    requires lo <= mid <= hi <= |s|
    ensures Mass(exp, s, m, lo, hi) == Mass(exp, s, m, lo, mid) + Mass(exp, s, m, mid, hi)
  {
    if mid < hi {
      MassSplit(exp, s, m, lo, mid, hi - 1);
    }
  }

  lemma {:induction false} BlendSplit(exp: real -> real, s: seq<real>, v: seq<Vec>, d: nat, m: real, lo: nat, mid: nat, hi: nat)
    requires lo <= mid <= hi <= |s| && hi <= |v|
    ensures Blend(exp, s, v, d, m, lo, hi) == Blend(exp, s, v, d, m, lo, mid) + Blend(exp, s, v, d, m, mid, hi)
  {
    if mid < hi {
      BlendSplit(exp, s, v, d, m, lo, mid, hi - 1);
    }
  }

  lemma {:induction false} MassPositive(exp: real -> real, s: seq<real>, m: real, lo: nat, hi: nat)
    requires Exponential(exp) && hi <= |s|
    ensures Mass(exp, s, m, lo, hi) >= 0.0 && (lo < hi ==> Mass(exp, s, m, lo, hi) > 0.0)
  {
    if lo < hi {
      MassPositive(exp, s, m, lo, hi - 1);
    }
  }

  /** Whatever maximum is subtracted, mass and blend give the same mean. */
  lemma {:induction false} MeanIsAttention(exp: real -> real, s: seq<real>, v: seq<Vec>, d: nat, m: real, x: real)
    requires Exponential(exp) && |s| <= |v|
    requires Mean(x, exp, s, v, d, m)
    ensures Mean(x, exp, s, v, d, 0.0)
  {
    MassRescaled(exp, s, m, 0.0, 0, |s|);
    BlendRescaled(exp, s, v, d, m, 0.0, 0, |s|);
    var e := exp(m - 0.0);
    Regroup(e, x, Mass(exp, s, m, 0, |s|));
    Regroup(x, e, Mass(exp, s, m, 0, |s|));
  }

  // ---- loops over a head's vector ------------------------------------------------

  /** out := out + a * x */
  function Axpy(out: Vec, x: Vec, a: real): (r: Vec)
    ensures |r| == |out| && forall d: nat | d < |out| :: r[d] == out[d] + a * At(x, d)
  {
    seq(|out|, d requires 0 <= d < |out| => out[d] + a * At(x, d))
  }

  function Scale(x: Vec, a: real): (r: Vec)
    ensures |r| == |x| && forall d: nat | d < |x| :: r[d] == x[d] * a
  {
    seq(|x|, d requires 0 <= d < |x| => x[d] * a)
  }

  function Zeros(hd: nat): (r: Vec)
    ensures |r| == hd && forall d: nat | d < hd :: r[d] == 0.0
  {
    seq(hd, _ => 0.0)
  }

  // ---- one chunk -----------------------------------------------------------------

  /** What a chunk leaves for the merge: its maximum, its mass and its blend under that. */
  datatype Part = Part(m: real, l: real, out: Vec)

  ghost predicate PartOf(p: Part, exp: real -> real, s: seq<real>, v: seq<Vec>, hd: nat, lo: nat, hi: nat)
    requires hi <= |s| && hi <= |v|
  {
    && p.l == Mass(exp, s, p.m, lo, hi) && |p.out| == hd
    && forall d: nat | d < hd :: p.out[d] == Blend(exp, s, v, d, p.m, lo, hi)
  }

  /** The maximum of a non-empty range. */
  method RangeMax(s: seq<real>, lo: nat, hi: nat) returns (mx: real)
    requires lo < hi <= |s|
    ensures exists t: nat :: lo <= t < hi && s[t] == mx
    ensures forall t: nat | lo <= t < hi :: s[t] <= mx
  {
    mx := s[lo];
    for t := lo + 1 to hi
      invariant exists t': nat :: lo <= t' < t && s[t'] == mx
      invariant forall t': nat | lo <= t' < t :: s[t'] <= mx
    {
      mx := if s[t] > mx then s[t] else mx;
    }
  }

  /** Weights of a chunk and their sum. */
  method Weigh(exp: real -> real, s: seq<real>, mx: real, lo: nat, hi: nat) returns (e: seq<real>, sum: real)
    requires lo <= hi <= |s|
    ensures |e| == hi - lo && forall t: nat | t < hi - lo :: e[t] == exp(s[lo + t] - mx)
    ensures sum == Mass(exp, s, mx, lo, hi)
  {
    e, sum := [], 0.0;
    for t := lo to hi
      invariant |e| == t - lo && forall t': nat | t' < t - lo :: e[t'] == exp(s[lo + t'] - mx)
      invariant sum == Mass(exp, s, mx, lo, t)
    {
      e := e + [exp(s[t] - mx)];
      sum := sum + exp(s[t] - mx);
    }
  }

  /** Sum of weight times value over the first `k` rows from `lo`. */
  ghost function Weighted(w: seq<real>, v: seq<Vec>, d: nat, lo: nat, k: nat): real
    requires k <= |w| && lo + k <= |v|
  {
    if k == 0 then 0.0 else Weighted(w, v, d, lo, k - 1) + w[k - 1] * At(v[lo + k - 1], d)
  }

  method Accumulate(w: seq<real>, v: seq<Vec>, lo: nat, hd: nat) returns (out: Vec)
    requires lo + |w| <= |v|
    ensures |out| == hd && forall d: nat | d < hd :: out[d] == Weighted(w, v, d, lo, |w|)
  {
    out := Zeros(hd);
    for t := 0 to |w|
      invariant |out| == hd && forall d: nat | d < hd :: out[d] == Weighted(w, v, d, lo, t)
    {
      out := Axpy(out, v[lo + t], w[t]);
    }
  }

  lemma {:induction false} WeightedIsBlend(exp: real -> real, s: seq<real>, v: seq<Vec>, d: nat, m: real, lo: nat,
                                           e: seq<real>, k: nat)
    requires k <= |e| && lo + k <= |s| && lo + k <= |v|
    requires forall t: nat | t < k :: e[t] == exp(s[lo + t] - m)
    ensures Weighted(e, v, d, lo, k) == Blend(exp, s, v, d, m, lo, lo + k)
  {
    if k > 0 {
      WeightedIsBlend(exp, s, v, d, m, lo, e, k - 1);
    }
  }

  lemma {:induction false} WeightedScaled(e: seq<real>, inv: real, v: seq<Vec>, d: nat, k: nat)
    requires k <= |e| <= |v|
    ensures Weighted(Scale(e, inv), v, d, 0, k) == Weighted(e, v, d, 0, k) * inv
  {
    if k > 0 {
      WeightedScaled(e, inv, v, d, k - 1);
      var w, y := e[k - 1], At(v[k - 1], d);
      assert (w * inv) * y == (w * y) * inv;
      DistributeReal(inv, Weighted(e, v, d, 0, k - 1), w * y);
    }
  }

  /** One chunk of a longer span. */
  method AttendChunk(exp: real -> real, s: seq<real>, v: seq<Vec>, hd: nat, lo: nat, hi: nat) returns (p: Part)
    requires lo < hi <= |s| && hi <= |v|
    ensures PartOf(p, exp, s, v, hd, lo, hi)
  {
    var mx := RangeMax(s, lo, hi);
    var e, sum := Weigh(exp, s, mx, lo, hi);
    var out := Accumulate(e, v, lo, hd);
    forall d: nat | d < hd
      ensures out[d] == Blend(exp, s, v, d, mx, lo, hi)
    {
      WeightedIsBlend(exp, s, v, d, mx, lo, e, hi - lo);
    }
    p := Part(mx, sum, out);
  }

  /** A span of one chunk: normalise the weights first, then accumulate. */
  method AttendWhole(exp: real -> real, s: seq<real>, v: seq<Vec>, hd: nat) returns (out: Vec)
    requires Exponential(exp) && 0 < |s| <= |v|
    ensures IsAttention(out, exp, s, v, hd)
  {
    var mx := RangeMax(s, 0, |s|);
    var e, sum := Weigh(exp, s, mx, 0, |s|);
    MassPositive(exp, s, mx, 0, |s|);
    var inv := if sum > 0.0 then 1.0 / sum else 0.0;
    var w := Scale(e, inv);
    out := Accumulate(w, v, 0, hd);
    NormalisedIsAttention(exp, s, v, hd, mx, e, inv, out);
  }

  lemma {:induction false} NormalisedIsAttention(exp: real -> real, s: seq<real>, v: seq<Vec>, hd: nat, mx: real, e: seq<real>, inv: real, out: Vec)
    requires Exponential(exp) && |s| <= |v| && |e| == |s| && forall t: nat | t < |s| :: e[t] == exp(s[t] - mx)
    requires Mass(exp, s, mx, 0, |s|) > 0.0 && inv == 1.0 / Mass(exp, s, mx, 0, |s|)
    requires |out| == hd && forall d: nat | d < hd :: out[d] == Weighted(Scale(e, inv), v, d, 0, |s|)
    ensures IsAttention(out, exp, s, v, hd)
  {
    var blend := seq(hd, d requires 0 <= d => Blend(exp, s, v, d, mx, 0, |s|));
    forall d: nat | d < hd
      ensures out[d] == Scale(blend, inv)[d]
    {
      ScaledBlend(exp, s, v, d, mx, e, inv);
    }
    assert out == Scale(blend, inv);
    DividedIsAttention(blend, exp, s, v, hd, mx, inv);
  }

  lemma {:induction false} ScaledBlend(exp: real -> real, s: seq<real>, v: seq<Vec>, d: nat, mx: real, e: seq<real>, inv: real)
    requires |s| <= |v| && |e| == |s| && forall t: nat | t < |s| :: e[t] == exp(s[t] - mx)
    ensures Weighted(Scale(e, inv), v, d, 0, |s|) == Blend(exp, s, v, d, mx, 0, |s|) * inv
  {
    hide Blend, Weighted, Scale;
    WeightedScaled(e, inv, v, d, |s|);
    WeightedIsBlend(exp, s, v, d, mx, 0, e, |s|);
  }

  /** Dividing by the mass and multiplying with it again. */
  lemma {:induction false} Undo(x: real, inv: real, sum: real, b: real)
    requires sum > 0.0 && inv == 1.0 / sum && (x == inv * b || x == b * inv)
    ensures x * sum == b
  {
    assert inv * sum == 1.0;
    assert x * sum == b * (inv * sum);
  }

  // ---- merging chunks ------------------------------------------------------------

  /** Where chunk `c` of a span of `len` positions begins: c * chunk, but not past the end. */
  function Cut(len: nat, chunk: nat, c: nat): (r: nat)
    ensures r <= len
  {
    if c == 0 then 0
    else if Cut(len, chunk, c - 1) + chunk < len then Cut(len, chunk, c - 1) + chunk else len
  }

  lemma {:induction false} CutIs(len: nat, chunk: nat, c: nat)
    ensures Cut(len, chunk, c) == if c * chunk < len then c * chunk else len
  {
    if c > 0 {
      CutIs(len, chunk, c - 1);
      assert c * chunk == (c - 1) * chunk + chunk;
    }
  }

  function Chunks(len: nat, chunk: nat): nat
    requires chunk > 0
  {
    (len + chunk - 1) / chunk
  }

  lemma {:induction false} ChunkCount(len: nat, chunk: nat)
    requires chunk > 0 && len > 0
    ensures var n := Chunks(len, chunk); n >= 1 && (n - 1) * chunk < len <= n * chunk
  {
    var n, r := Chunks(len, chunk), (len + chunk - 1) % chunk;
    assert len + chunk - 1 == chunk * n + r;
    assert (n - 1) * chunk == n * chunk - chunk;
  }

  /** `n` chunks cover the span and none is empty. */
  ghost predicate Covers(len: nat, chunk: nat, n: nat) {
    && n >= 1 && Cut(len, chunk, n) == len
    && forall c: nat | c < n :: Cut(len, chunk, c) < Cut(len, chunk, c + 1)
  }

  lemma {:induction false} ChunksCover(len: nat, chunk: nat)
    requires chunk > 0 && len > 0
    ensures Covers(len, chunk, Chunks(len, chunk))
  {
    var n := Chunks(len, chunk);
    ChunkCount(len, chunk);
    CutIs(len, chunk, n);
    forall c: nat | c < n
      ensures Cut(len, chunk, c) < Cut(len, chunk, c + 1)
    {
      CutIs(len, chunk, c);
      MulMonotone(c, n - 1, chunk);
    }
  }

  ghost predicate PartsOf(parts: seq<Part>, exp: real -> real, s: seq<real>, v: seq<Vec>, hd: nat, chunk: nat)
    requires |s| <= |v|
  {
    forall c: nat | c < |parts| :: PartOf(parts[c], exp, s, v, hd, Cut(|s|, chunk, c), Cut(|s|, chunk, c + 1))
  }

  /** The largest of the chunks' maxima. */
  method PartsMax(parts: seq<Part>) returns (found: bool, mx: real)
    ensures found <==> exists c: nat :: c < |parts| && parts[c].l > 0.0
    ensures forall c: nat | c < |parts| && parts[c].l > 0.0 :: parts[c].m <= mx
  {
    found, mx := false, 0.0;
    for c := 0 to |parts|
      invariant found <==> exists k: nat :: k < c && parts[k].l > 0.0
      invariant forall k: nat | k < c && parts[k].l > 0.0 :: parts[k].m <= mx
    {
      if parts[c].l > 0.0 && (!found || parts[c].m > mx) {
        found, mx := true, parts[c].m;
      }
    }
  }

  /** Adding a rescaled chunk to the merged mass. */
  lemma {:induction false} MergeMass(p: Part, exp: real -> real, s: seq<real>, v: seq<Vec>, hd: nat, mx: real, lo: nat, hi: nat)
    requires Exponential(exp) && lo <= hi <= |s| <= |v| && PartOf(p, exp, s, v, hd, lo, hi)
    ensures Mass(exp, s, mx, 0, lo) + exp(p.m - mx) * p.l == Mass(exp, s, mx, 0, hi)
  {
    MassRescaled(exp, s, p.m, mx, lo, hi);
    MassSplit(exp, s, mx, 0, lo, hi);
  }

  /** And to the merged blend, in one dimension. */
  lemma {:induction false} MergeDim(p: Part, exp: real -> real, s: seq<real>, v: seq<Vec>, hd: nat, mx: real, lo: nat, hi: nat, d: nat)
    requires Exponential(exp) && lo <= hi <= |s| <= |v| && PartOf(p, exp, s, v, hd, lo, hi) && d < hd
    ensures Blend(exp, s, v, d, mx, 0, lo) + exp(p.m - mx) * At(p.out, d) == Blend(exp, s, v, d, mx, 0, hi)
  {
    BlendRescaled(exp, s, v, d, p.m, mx, lo, hi);
    BlendSplit(exp, s, v, d, mx, 0, lo, hi);
  }

  ghost predicate BlendTo(out: Vec, exp: real -> real, s: seq<real>, v: seq<Vec>, hd: nat, mx: real, hi: nat)
    requires hi <= |s| && hi <= |v|
  {
    |out| == hd && forall d: nat | d < hd :: out[d] == Blend(exp, s, v, d, mx, 0, hi)
  }

  lemma {:induction false} MergeBlend(p: Part, exp: real -> real, s: seq<real>, v: seq<Vec>, hd: nat, mx: real, lo: nat, hi: nat, out: Vec, w: real)
    requires Exponential(exp) && lo <= hi <= |s| <= |v| && PartOf(p, exp, s, v, hd, lo, hi)
    requires BlendTo(out, exp, s, v, hd, mx, lo) && w == exp(p.m - mx)
    ensures BlendTo(Axpy(out, p.out, w), exp, s, v, hd, mx, hi)
  {
    forall d: nat | d < hd
      ensures Axpy(out, p.out, w)[d] == Blend(exp, s, v, d, mx, 0, hi)
    {
      MergeDim(p, exp, s, v, hd, mx, lo, hi, d);
    }
  }

  /** Dividing the blend by the mass, under any maximum, is attention. */
  lemma {:induction false} DividedIsAttention(out: Vec, exp: real -> real, s: seq<real>, v: seq<Vec>, hd: nat, mx: real, inv: real)
    requires Exponential(exp) && 0 < |s| <= |v| && BlendTo(out, exp, s, v, hd, mx, |s|)
    requires Mass(exp, s, mx, 0, |s|) > 0.0 && inv == 1.0 / Mass(exp, s, mx, 0, |s|)
    ensures IsAttention(Scale(out, inv), exp, s, v, hd)
  {
    forall d: nat | d < hd
      ensures Mean(Scale(out, inv)[d], exp, s, v, d, 0.0)
    {
      DividedMean(Scale(out, inv)[d], exp, s, v, d, mx, inv, out[d]);
    }
  }

  lemma {:induction false} DividedMean(x: real, exp: real -> real, s: seq<real>, v: seq<Vec>, d: nat, mx: real, inv: real, b: real)
    requires Exponential(exp) && |s| <= |v| && b == Blend(exp, s, v, d, mx, 0, |s|)
    requires Mass(exp, s, mx, 0, |s|) > 0.0 && inv == 1.0 / Mass(exp, s, mx, 0, |s|) && x == b * inv
    ensures Mean(x, exp, s, v, d, 0.0)
  {
    Undo(x, inv, Mass(exp, s, mx, 0, |s|), b);
    MeanIsAttention(exp, s, v, d, mx, x);
  }

  /** Rescales every chunk to the maximum `mx` and adds it up. */
  method MergeSum(exp: real -> real, parts: seq<Part>, mx: real, ghost s: seq<real>, ghost v: seq<Vec>, hd: nat, ghost chunk: nat)
    returns (mass: real, out: Vec)
    requires Exponential(exp) && 0 < |s| <= |v| && Covers(|s|, chunk, |parts|)
    requires PartsOf(parts, exp, s, v, hd, chunk)
    ensures mass == Mass(exp, s, mx, 0, |s|) && BlendTo(out, exp, s, v, hd, mx, |s|)
  {
    out, mass := Zeros(hd), 0.0;
    ghost var lo := 0;
    for c := 0 to |parts|
      invariant lo == Cut(|s|, chunk, c) && mass == Mass(exp, s, mx, 0, lo)
      invariant BlendTo(out, exp, s, v, hd, mx, lo)
    {
      ghost var hi := Cut(|s|, chunk, c + 1);
      MassPositive(exp, s, parts[c].m, lo, hi);
      if !(parts[c].l > 0.0) {
        continue;
      }
      var w := exp(parts[c].m - mx);
      MergeMass(parts[c], exp, s, v, hd, mx, lo, hi);
      MergeBlend(parts[c], exp, s, v, hd, mx, lo, hi, out, w);
      mass, out, lo := mass + w * parts[c].l, Axpy(out, parts[c].out, w), hi;
    }
  }

  /** The log-sum-exp merge. */
  method Merge(exp: real -> real, parts: seq<Part>, ghost s: seq<real>, ghost v: seq<Vec>, hd: nat, ghost chunk: nat) returns (out: Vec)
    requires Exponential(exp) && 0 < |s| <= |v| && Covers(|s|, chunk, |parts|)
    requires PartsOf(parts, exp, s, v, hd, chunk)
    ensures IsAttention(out, exp, s, v, hd)
  {
    var found, mx := PartsMax(parts);
    var mass, sum := MergeSum(exp, parts, mx, s, v, hd, chunk);
    MassPositive(exp, s, mx, 0, |s|);
    var inv := if mass > 0.0 then 1.0 / mass else 0.0;
    DividedIsAttention(sum, exp, s, v, hd, mx, inv);
    out := Scale(sum, inv);
  }

  /** The partial results of all chunks. */
  method AttendChunks(exp: real -> real, s: seq<real>, v: seq<Vec>, hd: nat, chunk: nat, nc: nat) returns (parts: seq<Part>)
    requires 0 < |s| <= |v| && Covers(|s|, chunk, nc)
    ensures |parts| == nc && PartsOf(parts, exp, s, v, hd, chunk)
  {
    parts := [];
    for c := 0 to nc
      invariant |parts| == c && PartsOf(parts, exp, s, v, hd, chunk)
    {
      var p := AttendChunk(exp, s, v, hd, Cut(|s|, chunk, c), Cut(|s|, chunk, c + 1));
      parts := parts + [p];
    }
  }

  /** Attention of one head: in one chunk, or chunk by chunk and merged. */
  method Attend(exp: real -> real, s: seq<real>, v: seq<Vec>, hd: nat, chunk: nat) returns (out: Vec)
    requires Exponential(exp) && chunk > 0 && 0 < |s| <= |v|
    ensures IsAttention(out, exp, s, v, hd)
  {
    var nc := Chunks(|s|, chunk);
    if nc == 1 {
      out := AttendWhole(exp, s, v, hd);
      return;
    }
    ChunksCover(|s|, chunk);
    var parts := AttendChunks(exp, s, v, hd, chunk, nc);
    out := Merge(exp, parts, s, v, hd, chunk);
  }

  lemma {:induction false} MeanUnique(x: real, y: real, m: real, b: real)
    requires m > 0.0 && x * m == b && y * m == b
    ensures x == y
  {
    assert (x - y) * m == 0.0;
  }

  /** The reference pins the result down, so every form that meets it gives the same vector. */
  lemma {:induction false} AttentionUnique(a: Vec, b: Vec, exp: real -> real, s: seq<real>, v: seq<Vec>, hd: nat)
    requires Exponential(exp) && 0 < |s| <= |v| && IsAttention(a, exp, s, v, hd) && IsAttention(b, exp, s, v, hd)
    ensures a == b
  {
    MassPositive(exp, s, 0.0, 0, |s|);
    forall d: nat | d < hd
      ensures a[d] == b[d]
    {
      assert Mean(a[d], exp, s, v, d, 0.0) && Mean(b[d], exp, s, v, d, 0.0);
      MeanUnique(a[d], b[d], Mass(exp, s, 0.0, 0, |s|), Blend(exp, s, v, d, 0.0, 0, |s|));
    }
  }
}
