/** Query-tiled attention: every K row and every V row of a tile is visited once and used for
    all of the tile's queries. Per query the result is that of the chunk-by-chunk form. */
module TiledAttention {
  import opened Arithmetic
  import opened Network
  import opened Attention

  /** One query of a tile: its span, its scores, then weights, and its chunks' partials. */
  datatype Query = Query(q: Vec, t0: nat, len: nat, s: seq<real>, e: seq<real>, ml: seq<(real, real)>, o: seq<Vec>)

  /** The scores of a query against the keys of its span. */
  ghost function Scores(q: Query, key: nat -> Vec, score: (Vec, Vec) -> real): seq<real> {
    seq(q.len, x requires 0 <= x => score(q.q, key(q.t0 + x)))
  }

  /** The values of its span. */
  ghost function Values(q: Query, val: nat -> Vec): seq<Vec> {
    seq(q.len, x requires 0 <= x => val(q.t0 + x))
  }

  function Clamp(x: int, lo: int, hi: int): int {
    if x < lo then lo else if x > hi then hi else x
  }

  // ---- pass 1: scores ------------------------------------------------------------

  /** Rows before `t` have been scored. */
  ghost predicate Scored(q: Query, key: nat -> Vec, score: (Vec, Vec) -> real, t: nat) {
    |q.s| == q.len && forall x: nat | x < q.len && q.t0 + x < t :: q.s[x] == score(q.q, key(q.t0 + x))
  }

  /** Row `t` against every query of the tile whose span contains it. */
  method ScoreRow(tile: seq<Query>, key: nat -> Vec, score: (Vec, Vec) -> real, t: nat) returns (r: seq<Query>)
    requires forall j | 0 <= j < |tile| :: Scored(tile[j], key, score, t)
    ensures |r| == |tile|
    ensures forall j | 0 <= j < |tile| :: Scored(r[j], key, score, t + 1) && r[j] == tile[j].(s := r[j].s)
  {
    r := tile;
    for j := 0 to |tile|
      invariant |r| == |tile| && forall k | j <= k < |tile| :: r[k] == tile[k]
      invariant forall k | 0 <= k < j :: Scored(r[k], key, score, t + 1) && r[k] == tile[k].(s := r[k].s)
    {
      if t < r[j].t0 || t >= r[j].t0 + r[j].len {
        continue;
      }
      r := r[j := r[j].(s := r[j].s[t - r[j].t0 := score(r[j].q, key(t))])];
    }
  }

  method ScoreTile(tile: seq<Query>, key: nat -> Vec, score: (Vec, Vec) -> real, ta: nat, tb: nat) returns (r: seq<Query>)
    requires ta <= tb && forall j | 0 <= j < |tile| :: ta <= tile[j].t0 && tile[j].t0 + tile[j].len <= tb && |tile[j].s| == tile[j].len
    ensures |r| == |tile|
    ensures forall j | 0 <= j < |tile| :: r[j] == tile[j].(s := Scores(tile[j], key, score))
  {
    r := tile;
    for t := ta to tb
      invariant |r| == |tile|
      invariant forall j | 0 <= j < |tile| :: Scored(r[j], key, score, t) && r[j] == tile[j].(s := r[j].s)
    {
      r := ScoreRow(r, key, score, t);
    }
    forall j | 0 <= j < |tile|
      ensures r[j].s == Scores(tile[j], key, score)
    {
      assert Scored(r[j], key, score, tb);
    }
  }

  // ---- softmax per chunk ---------------------------------------------------------

  /** The weights of chunk `c`, each under its own chunk's maximum. */
  ghost predicate Weights(e: seq<real>, exp: real -> real, s: seq<real>, m: real, lo: nat, hi: nat) {
    hi <= |e| && hi <= |s| && forall x: nat | lo <= x < hi :: e[x] == exp(s[x] - m)
  }

  /** Chunk `c` has its weights, under its maximum, and their sum. */
  ghost predicate ChunkWeighed(e: seq<real>, m: (real, real), exp: real -> real, s: seq<real>, chunk: nat, c: nat) {
    && Weights(e, exp, s, m.0, Cut(|s|, chunk, c), Cut(|s|, chunk, c + 1))
    && m.1 == Mass(exp, s, m.0, Cut(|s|, chunk, c), Cut(|s|, chunk, c + 1))
  }

  ghost predicate Softmaxed(e: seq<real>, ml: seq<(real, real)>, exp: real -> real, s: seq<real>, chunk: nat) {
    forall c: nat | c < |ml| :: ChunkWeighed(e, ml[c], exp, s, chunk, c)
  }

  lemma {:induction false} WeighedKept(e: seq<real>, w: seq<real>, m: (real, real), exp: real -> real, s: seq<real>, chunk: nat, c: nat)
    requires ChunkWeighed(e, m, exp, s, chunk, c)
    ensures ChunkWeighed(e + w, m, exp, s, chunk, c)
  {
    hide Mass, Cut;
  }

  lemma {:induction false} WeighedNew(e: seq<real>, w: seq<real>, exp: real -> real, s: seq<real>, chunk: nat, mx: real, sum: real, c: nat)
    requires Cut(|s|, chunk, c) == |e| && |e| + |w| == Cut(|s|, chunk, c + 1)
    requires forall t: nat | t < |w| :: w[t] == exp(s[|e| + t] - mx)
    requires sum == Mass(exp, s, mx, |e|, |e| + |w|)
    ensures ChunkWeighed(e + w, (mx, sum), exp, s, chunk, c)
  {
    hide Mass, Cut;
    forall x: nat | |e| <= x < |e| + |w|
      ensures (e + w)[x] == exp(s[x] - mx)
    {
      assert (e + w)[x] == w[x - |e|] && s[|e| + (x - |e|)] == s[x];
    }
  }

  lemma {:induction false} SoftmaxedExtends(e: seq<real>, ml: seq<(real, real)>, exp: real -> real, s: seq<real>, chunk: nat,
                         w: seq<real>, mx: real, sum: real, lo: nat, hi: nat)
    requires Softmaxed(e, ml, exp, s, chunk) && lo == Cut(|s|, chunk, |ml|) == |e| && hi == Cut(|s|, chunk, |ml| + 1) <= |s|
    requires |w| == hi - lo >= 0 && forall t: nat | t < hi - lo :: w[t] == exp(s[lo + t] - mx)
    requires sum == Mass(exp, s, mx, lo, hi)
    ensures Softmaxed(e + w, ml + [(mx, sum)], exp, s, chunk)
  {
    hide ChunkWeighed, Mass, Cut;
    var ml' := ml + [(mx, sum)];
    forall c: nat | c < |ml'|
      ensures ChunkWeighed(e + w, ml'[c], exp, s, chunk, c)
    {
      if c < |ml| {
        WeighedKept(e, w, ml[c], exp, s, chunk, c);
      } else {
        WeighedNew(e, w, exp, s, chunk, mx, sum, c);
      }
    }
  }

  method Softmax(exp: real -> real, s: seq<real>, chunk: nat, nc: nat) returns (e: seq<real>, ml: seq<(real, real)>)
    requires Covers(|s|, chunk, nc)
    ensures |ml| == nc && |e| == |s| && Softmaxed(e, ml, exp, s, chunk)
  {
    e, ml := [], [];
    for c := 0 to nc
      invariant |ml| == c && |e| == Cut(|s|, chunk, c) && Softmaxed(e, ml, exp, s, chunk)
    {
      var lo, hi := Cut(|s|, chunk, c), Cut(|s|, chunk, c + 1);
      var mx := RangeMax(s, lo, hi);
      var w, sum := Weigh(exp, s, mx, lo, hi);
      SoftmaxedExtends(e, ml, exp, s, chunk, w, mx, sum, lo, hi);
      e := e + w;
      ml := ml + [(mx, sum)];
    }
  }

  // ---- pass 2: weighted values ---------------------------------------------------

  /** Weighted values of rows [lo, hi) of a span. */
  ghost function Sum(w: seq<real>, v: seq<Vec>, d: nat, lo: nat, hi: nat): real
    requires hi <= |w| && hi <= |v|
  {
    if hi <= lo then 0.0 else Sum(w, v, d, lo, hi - 1) + w[hi - 1] * At(v[hi - 1], d)
  }

  lemma {:induction false} SumIsBlend(exp: real -> real, s: seq<real>, v: seq<Vec>, d: nat, m: real, w: seq<real>, lo: nat, hi: nat)
    requires hi <= |w| && hi <= |v| && hi <= |s| && forall x: nat | lo <= x < hi :: w[x] == exp(s[x] - m)
    ensures Sum(w, v, d, lo, hi) == Blend(exp, s, v, d, m, lo, hi)
  {
    if lo < hi {
      SumIsBlend(exp, s, v, d, m, w, lo, hi - 1);
    }
  }

  lemma {:induction false} SumIsWeighted(w: seq<real>, v: seq<Vec>, d: nat, hi: nat)
    requires hi <= |w| && hi <= |v|
    ensures Sum(w, v, d, 0, hi) == Weighted(w, v, d, 0, hi)
  {
    if hi > 0 {
      SumIsWeighted(w, v, d, hi - 1);
    }
  }

  /** Every chunk has taken the rows of its span before position `t`. */
  ghost predicate Taken(q: Query, v: seq<Vec>, hd: nat, chunk: nat, t: nat)
    requires |q.e| == q.len == |v|
  {
    forall c: nat | c < |q.o| ::
      Partial(q.o[c], q.e, v, hd, Cut(q.len, chunk, c), Clamp(t - q.t0, Cut(q.len, chunk, c), Cut(q.len, chunk, c + 1)))
  }

  ghost predicate Partial(o: Vec, w: seq<real>, v: seq<Vec>, hd: nat, lo: nat, hi: int) {
    && |o| == hd && 0 <= hi <= |w| && hi <= |v|
    && forall d: nat | d < hd :: o[d] == Sum(w, v, d, lo, hi)
  }

  lemma {:induction false} DivBounds(x: nat, chunk: nat)
    requires chunk > 0
    ensures var k := x / chunk; k * chunk <= x < (k + 1) * chunk
  {
    assert x == chunk * (x / chunk) + x % chunk;
    assert (x / chunk + 1) * chunk == chunk * (x / chunk) + chunk;
  }

  /** A row lies between the cuts of its own chunk `k` and of no other. */
  lemma {:induction false} ChunkOnly(len: nat, chunk: nat, x: nat, k: nat, c: nat)
    requires x < len && k * chunk <= x < (k + 1) * chunk
    ensures Cut(len, chunk, c) <= x < Cut(len, chunk, c + 1) <==> c == k
  {
    CutIs(len, chunk, c);
    CutIs(len, chunk, c + 1);
    if c < k {
      MulMonotone(c + 1, k, chunk);
    } else if c > k {
      MulMonotone(k + 1, c, chunk);
    }
  }

  /** The chunk `k` a row of the span belongs to. */
  lemma {:induction false} ChunkOf(len: nat, chunk: nat, x: nat, k: nat)
    requires chunk > 0 && x < len && k == x / chunk
    ensures k < Chunks(len, chunk) && k * chunk <= x < (k + 1) * chunk
  {
    DivBounds(x, chunk);
    ChunkCount(len, chunk);
    if Chunks(len, chunk) <= k {
      MulMonotone(Chunks(len, chunk), k, chunk);
    }
  }

  /** One row into the chunk it belongs to. */
  lemma {:induction false} TakeStep(q: Query, v: seq<Vec>, hd: nat, chunk: nat, t: nat, c: nat)
    requires chunk > 0 && |q.e| == q.len == |v| && Taken(q, v, hd, chunk, t)
    requires q.t0 <= t < q.t0 + q.len && c == (t - q.t0) / chunk && |q.o| == Chunks(q.len, chunk)
    ensures c < |q.o|
    ensures Taken(q.(o := q.o[c := Axpy(q.o[c], v[t - q.t0], q.e[t - q.t0])]), v, hd, chunk, t + 1)
  {
    ChunkOf(q.len, chunk, t - q.t0, c);
    var q' := q.(o := q.o[c := Axpy(q.o[c], v[t - q.t0], q.e[t - q.t0])]);
    forall k: nat | k < |q.o|
      ensures Partial(q'.o[k], q.e, v, hd, Cut(q.len, chunk, k), Clamp(t + 1 - q.t0, Cut(q.len, chunk, k), Cut(q.len, chunk, k + 1)))
    {
      ChunkOnly(q.len, chunk, t - q.t0, c, k);
      assert Partial(q.o[k], q.e, v, hd, Cut(q.len, chunk, k), Clamp(t - q.t0, Cut(q.len, chunk, k), Cut(q.len, chunk, k + 1)));
    }
  }

  /** A row outside the span changes nothing. */
  lemma {:induction false} SkipStep(q: Query, v: seq<Vec>, hd: nat, chunk: nat, t: nat)
    requires |q.e| == q.len == |v| && Taken(q, v, hd, chunk, t)
    requires t < q.t0 || t >= q.t0 + q.len
    ensures Taken(q, v, hd, chunk, t + 1)
  {
    forall k: nat | k < |q.o|
      ensures Partial(q.o[k], q.e, v, hd, Cut(q.len, chunk, k), Clamp(t + 1 - q.t0, Cut(q.len, chunk, k), Cut(q.len, chunk, k + 1)))
    {
      assert Partial(q.o[k], q.e, v, hd, Cut(q.len, chunk, k), Clamp(t - q.t0, Cut(q.len, chunk, k), Cut(q.len, chunk, k + 1)));
    }
  }

  /** The scored query `q` with its weights and empty partials. */
  ghost predicate Weighed(q: Query, exp: real -> real, chunk: nat, hd: nat) {
    && |q.s| == |q.e| == q.len && |q.ml| == |q.o| && Covers(q.len, chunk, |q.ml|)
    && (if |q.ml| == 1
        then q.ml[0].1 > 0.0 && q.ml[0].1 == Mass(exp, q.s, q.ml[0].0, 0, q.len)
             && q.e == Scale(Raw(exp, q.s, q.ml[0].0), 1.0 / q.ml[0].1)
        else Softmaxed(q.e, q.ml, exp, q.s, chunk))
  }

  ghost function Raw(exp: real -> real, s: seq<real>, m: real): (e: seq<real>)
    ensures |e| == |s| && forall x: nat | x < |s| :: e[x] == exp(s[x] - m)
  {
    seq(|s|, x requires 0 <= x < |s| => exp(s[x] - m))
  }

  method WeighQuery(q: Query, exp: real -> real, chunk: nat, hd: nat) returns (r: Query)
    requires Exponential(exp) && chunk > 0 && |q.s| == q.len > 0
    ensures Weighed(r, exp, chunk, hd) && r == q.(e := r.e, ml := r.ml, o := r.o)
    ensures |r.o| == Chunks(q.len, chunk) && forall c: nat | c < |r.o| :: r.o[c] == Zeros(hd)
  {
    var nc := Chunks(q.len, chunk);
    ChunksCover(q.len, chunk);
    var e, ml := Softmax(exp, q.s, chunk, nc);
    if nc == 1 {
      assert Cut(q.len, chunk, 0) == 0 && Cut(q.len, chunk, 1) == q.len;
      assert Weights(e, exp, q.s, ml[0].0, 0, q.len);
      assert e == Raw(exp, q.s, ml[0].0);
      MassPositive(exp, q.s, ml[0].0, 0, q.len);
      var inv := if ml[0].1 > 0.0 then 1.0 / ml[0].1 else 0.0;
      e := Scale(e, inv);
    }
    r := q.(e := e, ml := ml, o := seq(nc, _ => Zeros(hd)));
  }

  /** Row `t` into every query of the tile whose span contains it. */
  method TakeRow(tile: seq<Query>, val: nat -> Vec, hd: nat, chunk: nat, t: nat) returns (r: seq<Query>)
    requires chunk > 0
    requires forall j | 0 <= j < |tile| ::
               |tile[j].e| == tile[j].len && |tile[j].o| == Chunks(tile[j].len, chunk) && Taken(tile[j], Values(tile[j], val), hd, chunk, t)
    ensures |r| == |tile|
    ensures forall j | 0 <= j < |tile| ::
              && r[j] == tile[j].(o := r[j].o) && |r[j].o| == |tile[j].o|
              && Taken(r[j], Values(tile[j], val), hd, chunk, t + 1)
  {
    hide Taken, Chunks, Axpy;
    r := tile;
    for j := 0 to |tile|
      invariant |r| == |tile| && forall k | j <= k < |tile| :: r[k] == tile[k]
      invariant forall k | 0 <= k < j ::
        && r[k] == tile[k].(o := r[k].o) && |r[k].o| == |tile[k].o|
        && Taken(r[k], Values(tile[k], val), hd, chunk, t + 1)
    {
      var q := r[j];
      if t < q.t0 || t >= q.t0 + q.len {
        SkipStep(q, Values(q, val), hd, chunk, t);
        continue;
      }
      var c := (t - q.t0) / chunk;
      TakeStep(q, Values(q, val), hd, chunk, t, c);
      r := r[j := q.(o := q.o[c := Axpy(q.o[c], val(t), q.e[t - q.t0])])];
    }
  }

  /** After all rows every chunk is complete. */
  ghost predicate Complete(q: Query, v: seq<Vec>, hd: nat, chunk: nat)
    requires |q.e| == q.len == |v|
  {
    forall c: nat | c < |q.o| ::
      Partial(q.o[c], q.e, v, hd, Cut(q.len, chunk, c), Cut(q.len, chunk, c + 1))
  }

  lemma {:induction false} TakenAll(q: Query, v: seq<Vec>, hd: nat, chunk: nat, t: nat)
    requires |q.e| == q.len == |v| && Taken(q, v, hd, chunk, t) && q.t0 + q.len <= t && Covers(q.len, chunk, |q.o|)
    ensures Complete(q, v, hd, chunk)
  {
    forall c: nat | c < |q.o|
      ensures Partial(q.o[c], q.e, v, hd, Cut(q.len, chunk, c), Cut(q.len, chunk, c + 1))
    {
      assert Partial(q.o[c], q.e, v, hd, Cut(q.len, chunk, c), Clamp(t - q.t0, Cut(q.len, chunk, c), Cut(q.len, chunk, c + 1)));
    }
  }

  lemma {:induction false} TakenNone(q: Query, v: seq<Vec>, hd: nat, chunk: nat, t: nat)
    requires |q.e| == q.len == |v| && t <= q.t0 && Covers(q.len, chunk, |q.o|) && forall c: nat | c < |q.o| :: q.o[c] == Zeros(hd)
    ensures Taken(q, v, hd, chunk, t)
  {
  }

  /** The finished query: its normalised single chunk, or its chunks merged. */
  method FinishQuery(q: Query, exp: real -> real, ghost v: seq<Vec>, hd: nat, chunk: nat) returns (out: Vec)
    requires Exponential(exp) && q.len > 0 && |v| == q.len && Weighed(q, exp, chunk, hd) && Complete(q, v, hd, chunk)
    ensures IsAttention(out, exp, q.s, v, hd)
  {
    if |q.ml| == 1 {
      assert Partial(q.o[0], q.e, v, hd, Cut(q.len, chunk, 0), Cut(q.len, chunk, 1));
      forall d: nat | d < hd
        ensures q.o[0][d] == Weighted(q.e, v, d, 0, q.len)
      {
        SumIsWeighted(q.e, v, d, q.len);
      }
      NormalisedIsAttention(exp, q.s, v, hd, q.ml[0].0, Raw(exp, q.s, q.ml[0].0), 1.0 / q.ml[0].1, q.o[0]);
      return q.o[0];
    }
    var parts := seq(|q.ml|, c requires 0 <= c < |q.ml| => Part(q.ml[c].0, q.ml[c].1, q.o[c]));
    forall c: nat | c < |parts|
      ensures PartOf(parts[c], exp, q.s, v, hd, Cut(q.len, chunk, c), Cut(q.len, chunk, c + 1))
    {
      CompletePart(q, exp, v, hd, chunk, c);
    }
    out := Merge(exp, parts, q.s, v, hd, chunk);
  }

  lemma {:induction false} CompletePart(q: Query, exp: real -> real, v: seq<Vec>, hd: nat, chunk: nat, c: nat)
    requires |v| == q.len && |q.s| == |q.e| == q.len && c < |q.ml| == |q.o|
    requires Softmaxed(q.e, q.ml, exp, q.s, chunk) && Complete(q, v, hd, chunk)
    ensures PartOf(Part(q.ml[c].0, q.ml[c].1, q.o[c]), exp, q.s, v, hd, Cut(q.len, chunk, c), Cut(q.len, chunk, c + 1))
  {
    var lo, hi := Cut(q.len, chunk, c), Cut(q.len, chunk, c + 1);
    assert Partial(q.o[c], q.e, v, hd, lo, hi) && Weights(q.e, exp, q.s, q.ml[c].0, lo, hi);
    forall d: nat | d < hd
      ensures q.o[c][d] == Blend(exp, q.s, v, d, q.ml[c].0, lo, hi)
    {
      SumIsBlend(exp, q.s, v, d, q.ml[c].0, q.e, lo, hi);
    }
  }

  // ---- a whole tile --------------------------------------------------------------

  method WeighTile(tile: seq<Query>, exp: real -> real, chunk: nat, hd: nat) returns (r: seq<Query>)
    requires Exponential(exp) && chunk > 0 && forall j | 0 <= j < |tile| :: |tile[j].s| == tile[j].len > 0
    ensures |r| == |tile|
    ensures forall j | 0 <= j < |tile| ::
              && Weighed(r[j], exp, chunk, hd) && r[j] == tile[j].(e := r[j].e, ml := r[j].ml, o := r[j].o)
              && |r[j].o| == Chunks(tile[j].len, chunk) && forall c: nat | c < |r[j].o| :: r[j].o[c] == Zeros(hd)
  {
    r := [];
    for j := 0 to |tile|
      invariant |r| == j
      invariant forall k | 0 <= k < j ::
        && Weighed(r[k], exp, chunk, hd) && r[k] == tile[k].(e := r[k].e, ml := r[k].ml, o := r[k].o)
        && |r[k].o| == Chunks(tile[k].len, chunk) && forall c: nat | c < |r[k].o| :: r[k].o[c] == Zeros(hd)
    {
      var q := WeighQuery(tile[j], exp, chunk, hd);
      r := r + [q];
    }
  }

  method TakeTile(tile: seq<Query>, val: nat -> Vec, hd: nat, chunk: nat, ta: nat, tb: nat) returns (r: seq<Query>)
    requires chunk > 0 && ta <= tb
    requires forall j | 0 <= j < |tile| ::
               && |tile[j].e| == tile[j].len && |tile[j].o| == Chunks(tile[j].len, chunk)
               && ta <= tile[j].t0 && tile[j].t0 + tile[j].len <= tb && Covers(tile[j].len, chunk, |tile[j].o|)
               && forall c: nat | c < |tile[j].o| :: tile[j].o[c] == Zeros(hd)
    ensures |r| == |tile|
    ensures forall j | 0 <= j < |tile| ::
              r[j] == tile[j].(o := r[j].o) && |r[j].o| == |tile[j].o| && Complete(r[j], Values(tile[j], val), hd, chunk)
  {
    r := tile;
    forall j | 0 <= j < |tile|
      ensures Taken(tile[j], Values(tile[j], val), hd, chunk, ta)
    {
      TakenNone(tile[j], Values(tile[j], val), hd, chunk, ta);
    }
    for t := ta to tb
      invariant |r| == |tile|
      invariant forall j | 0 <= j < |tile| ::
        && r[j] == tile[j].(o := r[j].o) && |r[j].o| == |tile[j].o|
        && Taken(r[j], Values(tile[j], val), hd, chunk, t)
    {
      assert forall j | 0 <= j < |tile| :: Values(r[j], val) == Values(tile[j], val);
      r := TakeRow(r, val, hd, chunk, t);
    }
    forall j | 0 <= j < |tile|
      ensures Complete(r[j], Values(tile[j], val), hd, chunk)
    {
      TakenAll(r[j], Values(tile[j], val), hd, chunk, tb);
    }
  }

  /** The query at position `p`, with its span and nothing computed yet. */
  function QueryAt(q: Vec, p: nat, win: nat): (r: Query)
    ensures r.t0 + r.len == p + 1 && |r.s| == r.len > 0
  {
    var t0 := WindowStart(win, p);
    Query(q, t0, p + 1 - t0, seq(p + 1 - t0, _ => 0.0), [], [], [])
  }

  /** The queries of a tile: positions p0, p0 + 1, ... */
  method OpenTile(qs: seq<Vec>, p0: nat, win: nat) returns (tile: seq<Query>)
    ensures |tile| == |qs| && forall j: nat | j < |qs| :: tile[j] == QueryAt(qs[j], p0 + j, win)
  {
    tile := [];
    for j := 0 to |qs|
      invariant |tile| == j && forall k: nat | k < j :: tile[k] == QueryAt(qs[k], p0 + k, win)
    {
      tile := tile + [QueryAt(qs[j], p0 + j, win)];
    }
  }

  lemma {:induction false} WindowsGrow(qs: seq<Vec>, p0: nat, win: nat, j: nat)
    requires j < |qs|
    ensures QueryAt(qs[0], p0, win).t0 <= QueryAt(qs[j], p0 + j, win).t0
  {
  }

  /** One work item: the queries `qs` at positions p0.. attend with every row visited once.
      Each gets the attention of its own span. */
  method AttendTile(exp: real -> real, qs: seq<Vec>, p0: nat, win: nat, key: nat -> Vec, val: nat -> Vec,
                    score: (Vec, Vec) -> real, hd: nat, chunk: nat)
    returns (outs: seq<Vec>)
    requires Exponential(exp) && chunk > 0 && qs != []
    ensures |outs| == |qs|
    ensures forall j: nat | j < |qs| ::
              var span := QueryAt(qs[j], p0 + j, win);
              IsAttention(outs[j], exp, Scores(span, key, score), Values(span, val), hd)
  {
    var tile := OpenTile(qs, p0, win);
    ghost var spans := tile;
    var ta, tb := tile[0].t0, p0 + |qs|;
    forall j: nat | j < |tile|
      ensures ta <= tile[j].t0
    {
      WindowsGrow(qs, p0, win, j);
    }
    hide QueryAt;
    tile := ScoreTile(tile, key, score, ta, tb);
    tile := WeighTile(tile, exp, chunk, hd);
    tile := TakeTile(tile, val, hd, chunk, ta, tb);
    outs := [];
    for j := 0 to |tile|
      invariant |outs| == j
      invariant forall k: nat | k < j :: IsAttention(outs[k], exp, Scores(spans[k], key, score), Values(spans[k], val), hd)
    {
      var out := FinishQuery(tile[j], exp, Values(spans[j], val), hd, chunk);
      outs := outs + [out];
    }
  }
}
