/** The attention of a layer as softmax over its heads. Whatever a node attends over, the chunked
    and the tiled form compute exactly the attention its reference speaks of. */
module NodeAttention {
  import opened Network
  import opened KvCaching
  import opened Nodes
  import Attention
  import TiledAttention

  /** How a layer's attention splits into heads: what a head looks for, and the parts of a row it
      scores and takes up. Heads that share a row's parts are grouped-query attention. */
  datatype Heads = Heads(
    count: nat, hd: nat, exp: real -> real,
    query: (nat, nat, Vec, nat) -> Vec,   // layer, position, residual, head
    key: (nat, Row, nat) -> Vec,          // layer, row, head
    value: (nat, Row, nat) -> Vec,
    score: (nat, Vec, Vec) -> real)       // layer, query, key

  function HeadScores(h: Heads, l: nat, p: nat, x: Vec, rows: seq<Row>, k: nat): seq<real> {
    var q := h.query(l, p, x, k);
    seq(|rows|, i requires 0 <= i < |rows| => h.score(l, q, h.key(l, rows[i], k)))
  }

  function HeadValues(h: Heads, l: nat, rows: seq<Row>, k: nat): seq<Vec> {
    seq(|rows|, i requires 0 <= i < |rows| => h.value(l, rows[i], k))
  }

  /** One vector per head: its softmax attention over the rows. */
  ghost predicate HeadsAre(hs: seq<Vec>, h: Heads, l: nat, p: nat, x: Vec, rows: seq<Row>) {
    |hs| == h.count && forall k: nat | k < h.count :: HeadIs(hs[k], h, l, p, x, rows, k)
  }

  ghost predicate HeadIs(out: Vec, h: Heads, l: nat, p: nat, x: Vec, rows: seq<Row>, k: nat) {
    Attention.IsAttention(out, h.exp, HeadScores(h, l, p, x, rows, k), HeadValues(h, l, rows, k), h.hd)
  }

  function Concat(hs: seq<Vec>): Vec {
    if hs == [] then [] else hs[0] + Concat(hs[1..])
  }

  /** Head `k` has the places from k * hd on. */
  lemma {:induction false} ConcatAt(hs: seq<Vec>, hd: nat, k: nat, d: nat)
    requires (forall i | 0 <= i < |hs| :: |hs[i]| == hd) && k < |hs| && d < hd
    ensures |Concat(hs)| == |hs| * hd && k * hd + d < |hs| * hd && Concat(hs)[k * hd + d] == hs[k][d]
  {
    var rest := hs[1..];
    ConcatLength(rest, hd);
    Places(|rest|, k, hd);
    if k > 0 {
      ConcatAt(rest, hd, k - 1, d);
    }
  }

  lemma {:induction false} ConcatLength(hs: seq<Vec>, hd: nat)
    requires forall i | 0 <= i < |hs| :: |hs[i]| == hd
    ensures |Concat(hs)| == |hs| * hd
  {
    if hs != [] {
      ConcatLength(hs[1..], hd);
      Places(|hs| - 1, 0, hd);
    }
  }

  lemma {:induction false} Places(n: nat, k: nat, hd: nat)
    ensures (n + 1) * hd == hd + n * hd && (k > 0 ==> k * hd == hd + (k - 1) * hd)
  {
  }

  /** The network's attention is the heads' results side by side. */
  ghost predicate Softmaxes(net: Net, h: Heads) {
    && Attention.Exponential(h.exp)
    && forall l: nat, p: nat, x: Vec, rows: seq<Row> | rows != [] :: Splits(net, h, l, p, x, rows)
  }

  ghost predicate Splits(net: Net, h: Heads, l: nat, p: nat, x: Vec, rows: seq<Row>) {
    exists hs :: HeadsAre(hs, h, l, p, x, rows) && net.attend(l, p, x, rows) == Concat(hs)
  }

  lemma {:induction false} HeadUnique(a: Vec, b: Vec, h: Heads, l: nat, p: nat, x: Vec, rows: seq<Row>, k: nat)
    requires Attention.Exponential(h.exp) && rows != [] && HeadIs(a, h, l, p, x, rows, k) && HeadIs(b, h, l, p, x, rows, k)
    ensures a == b
  {
    hide Attention.IsAttention;
    Attention.AttentionUnique(a, b, h.exp, HeadScores(h, l, p, x, rows, k), HeadValues(h, l, rows, k), h.hd);
  }

  /** Whoever computes each head's attention has the network's. */
  lemma {:induction false} HeadsAttend(hs: seq<Vec>, net: Net, h: Heads, l: nat, p: nat, x: Vec, rows: seq<Row>)
    requires Softmaxes(net, h) && rows != [] && HeadsAre(hs, h, l, p, x, rows)
    ensures Concat(hs) == net.attend(l, p, x, rows)
  {
    hide HeadIs, Attention.Exponential;
    assert Splits(net, h, l, p, x, rows);
    var their :| HeadsAre(their, h, l, p, x, rows) && net.attend(l, p, x, rows) == Concat(their);
    forall k: nat | k < h.count
      ensures hs[k] == their[k]
    {
      HeadUnique(hs[k], their[k], h, l, p, x, rows, k);
    }
    assert hs == their;
  }

  /** The one vector that is a head's attention. */
  ghost function HeadOf(h: Heads, l: nat, p: nat, x: Vec, rows: seq<Row>, k: nat): Vec {
    var s, v := HeadScores(h, l, p, x, rows, k), HeadValues(h, l, rows, k);
    var mass := Attention.Mass(h.exp, s, 0.0, 0, |s|);
    seq(h.hd, d requires 0 <= d => if mass == 0.0 then 0.0 else Attention.Blend(h.exp, s, v, d, 0.0, 0, |s|) / mass)
  }

  /** The same network with its attention computed by these heads. */
  ghost function WithHeads(net: Net, h: Heads): Net {
    net.(attend := (l: nat, p: nat, x: Vec, rows: seq<Row>) => Concat(seq(h.count, k requires 0 <= k => HeadOf(h, l, p, x, rows, k))))
  }

  lemma {:induction false} HeadOfIs(h: Heads, l: nat, p: nat, x: Vec, rows: seq<Row>, k: nat)
    requires Attention.Exponential(h.exp) && rows != []
    ensures HeadIs(HeadOf(h, l, p, x, rows, k), h, l, p, x, rows, k)
  {
    var s, v, out := HeadScores(h, l, p, x, rows, k), HeadValues(h, l, rows, k), HeadOf(h, l, p, x, rows, k);
    Attention.MassPositive(h.exp, s, 0.0, 0, |s|);
    hide Attention.Mass, Attention.Blend, Attention.Exponential;
    forall d: nat | d < h.hd
      ensures Attention.Mean(out[d], h.exp, s, v, d, 0.0)
    {
    }
  }

  /** Any heads do for any network. */
  lemma {:induction false} WithHeadsSoftmaxes(net: Net, h: Heads)
    requires Attention.Exponential(h.exp)
    ensures Softmaxes(WithHeads(net, h), h)
  {
    hide HeadOf, HeadIs, Attention.Exponential;
    forall l: nat, p: nat, x: Vec, rows: seq<Row> | rows != []
      ensures Splits(WithHeads(net, h), h, l, p, x, rows)
    {
      var hs := seq(h.count, k requires 0 <= k => HeadOf(h, l, p, x, rows, k));
      forall k: nat | k < h.count
        ensures HeadIs(hs[k], h, l, p, x, rows, k)
      {
        HeadOfIs(h, l, p, x, rows, k);
      }
      assert HeadsAre(hs, h, l, p, x, rows);
    }
  }

  /** Read by place: dimension `d` of head `k` is the softmax-weighted mean of the values' dimension `d`. */
  lemma {:induction false} AttendAt(net: Net, h: Heads, l: nat, p: nat, x: Vec, rows: seq<Row>, k: nat, d: nat)
    requires Softmaxes(net, h) && rows != [] && k < h.count && d < h.hd
    ensures k * h.hd + d < |net.attend(l, p, x, rows)|
    ensures Attention.Mean(net.attend(l, p, x, rows)[k * h.hd + d], h.exp, HeadScores(h, l, p, x, rows, k), HeadValues(h, l, rows, k), d, 0.0)
  {
    hide Attention.Exponential, Attention.Mean;
    assert Splits(net, h, l, p, x, rows);
    var hs :| HeadsAre(hs, h, l, p, x, rows) && net.attend(l, p, x, rows) == Concat(hs);
    assert forall i: nat | i < h.count :: HeadIs(hs[i], h, l, p, x, rows, i);
    ConcatAt(hs, h.hd, k, d);
  }

  // ---- one query, in chunks ------------------------------------------------------

  /** Every head in chunks, merged. */
  method ChunkedHeads(net: Net, h: Heads, l: nat, p: nat, x: Vec, rows: seq<Row>, chunk: nat) returns (o: Vec)
    requires Softmaxes(net, h) && rows != [] && chunk > 0
    ensures o == net.attend(l, p, x, rows)
  {
    var hs := [];
    for k := 0 to h.count
      invariant |hs| == k && forall j: nat | j < k :: HeadIs(hs[j], h, l, p, x, rows, j)
    {
      var out := Attention.Attend(h.exp, HeadScores(h, l, p, x, rows, k), HeadValues(h, l, rows, k), h.hd, chunk);
      hs := hs + [out];
    }
    HeadsAttend(hs, net, h, l, p, x, rows);
    o := Concat(hs);
  }

  /** A query of a node, over the rows its cache returns: what `Node.Attend` takes for granted. */
  method AttendChunked(m: Node, h: Heads, l: nat, p: nat, x: Vec, chunk: nat, ghost toks: seq<Token>) returns (o: Vec)
    requires m.Valid() && m.kv.Owns(l) && p < |toks| && Softmaxes(m.net, h) && chunk > 0
    ensures o == m.net.attend(l, p, x, m.Fetched(l, p))
    ensures Holds(m.kv.Layer(l), m.net, toks, l, SpanStart(m.net, l, p), p + 1) ==>
              o == m.net.attend(l, p, x, SpanRows(m.net, toks, l, p))
  {
    hide Softmaxes;
    var t0, rows := SpanStart(m.net, l, p), [];
    for t := t0 to p + 1
      invariant rows == m.Fetched(l, p)[..t - t0]
    {
      assert m.kv.Read(l, t) == m.Fetched(l, p)[t - t0];
      rows := rows + [m.kv.Read(l, t)];
    }
    assert rows == m.Fetched(l, p);
    if Holds(m.kv.Layer(l), m.net, toks, l, t0, p + 1) {
      assert rows == SpanRows(m.net, toks, l, p);
    }
    o := ChunkedHeads(m.net, h, l, p, x, rows, chunk);
  }

  // ---- a batch, tiled over its queries -------------------------------------------

  /** The rows of a query's span. */
  function RowsOf(net: Net, l: nat, p: nat, rowAt: nat -> Row): seq<Row> {
    var t0 := SpanStart(net, l, p);
    seq(p + 1 - t0, i requires 0 <= i => rowAt(t0 + i))
  }

  /** Head `k` of every query of the batch. */
  ghost predicate TileIs(outs: seq<Vec>, net: Net, h: Heads, l: nat, pos: nat, xs: seq<Vec>, rowAt: nat -> Row, k: nat) {
    |outs| == |xs| && forall j: nat | j < |xs| :: HeadIs(outs[j], h, l, pos + j, xs[j], RowsOf(net, l, pos + j, rowAt), k)
  }

  method TiledHead(net: Net, h: Heads, l: nat, pos: nat, xs: seq<Vec>, rowAt: nat -> Row, chunk: nat, k: nat) returns (outs: seq<Vec>)
    requires Attention.Exponential(h.exp) && xs != [] && chunk > 0
    ensures TileIs(outs, net, h, l, pos, xs, rowAt, k)
  {
    var qs := seq(|xs|, j requires 0 <= j < |xs| => h.query(l, pos + j, xs[j], k));
    var key, val := (t: nat) => h.key(l, rowAt(t), k), (t: nat) => h.value(l, rowAt(t), k);
    var score := (q: Vec, row: Vec) => h.score(l, q, row);
    outs := TiledAttention.AttendTile(h.exp, qs, pos, net.window(l), key, val, score, h.hd, chunk);
    forall j: nat | j < |xs|
      ensures HeadIs(outs[j], h, l, pos + j, xs[j], RowsOf(net, l, pos + j, rowAt), k)
    {
      var span, rows := TiledAttention.QueryAt(qs[j], pos + j, net.window(l)), RowsOf(net, l, pos + j, rowAt);
      assert TiledAttention.Scores(span, key, score) == HeadScores(h, l, pos + j, xs[j], rows, k);
      assert TiledAttention.Values(span, val) == HeadValues(h, l, rows, k);
    }
  }

  /** The heads of one query of the batch. */
  function HeadsOf(tiles: seq<seq<Vec>>, j: nat): seq<Vec>
    requires forall k | 0 <= k < |tiles| :: j < |tiles[k]|
  {
    seq(|tiles|, k requires 0 <= k < |tiles| => tiles[k][j])
  }

  method TiledHeads(net: Net, h: Heads, l: nat, pos: nat, xs: seq<Vec>, rowAt: nat -> Row, chunk: nat) returns (outs: seq<Vec>)
    requires Softmaxes(net, h) && xs != [] && chunk > 0
    ensures |outs| == |xs|
    ensures forall j: nat | j < |xs| :: outs[j] == net.attend(l, pos + j, xs[j], RowsOf(net, l, pos + j, rowAt))
  {
    var tiles := [];
    for k := 0 to h.count
      invariant |tiles| == k && forall i: nat | i < k :: TileIs(tiles[i], net, h, l, pos, xs, rowAt, i)
    {
      var tile := TiledHead(net, h, l, pos, xs, rowAt, chunk, k);
      tiles := tiles + [tile];
    }
    outs := [];
    for j := 0 to |xs|
      invariant |outs| == j
      invariant forall i: nat | i < j :: outs[i] == net.attend(l, pos + i, xs[i], RowsOf(net, l, pos + i, rowAt))
    {
      var hs := HeadsOf(tiles, j);
      HeadsAttend(hs, net, h, l, pos + j, xs[j], RowsOf(net, l, pos + j, rowAt));
      outs := outs + [Concat(hs)];
    }
  }

  /** A batch of a node, rows from `pos` on taken from the batch itself: what `Node.AttendTiled`
      takes for granted. */
  method AttendTiles(m: Node, h: Heads, l: nat, pos: nat, xs: seq<Vec>, batch: seq<Row>, chunk: nat, ghost toks: seq<Token>)
    returns (attn: seq<Vec>)
    requires m.Valid() && m.kv.Owns(l) && 0 < |batch| == |xs| && pos + |batch| <= |toks|
    requires LayerServes(m.kv, m.net, toks, l, pos) && Softmaxes(m.net, h) && chunk > 0
    requires forall j: nat | j < |batch| :: batch[j] == RowAt(m.net, toks, l, pos + j)
    ensures |attn| == |batch| && m.Attended(attn, xs, l, pos, toks)
  {
    hide Softmaxes;
    var rows, w := m.kv.Layer(l), m.kv.ring[l - m.kv.base];
    var rowAt := (t: nat) => if pos <= t < pos + |batch| then batch[t - pos] else Fetch(rows, w, t);
    attn := TiledHeads(m.net, h, l, pos, xs, rowAt, chunk);
    forall i: nat | i < |attn|
      ensures attn[i] == m.net.attend(l, pos + i, xs[i], SpanRows(m.net, toks, l, pos + i))
    {
      assert RowsOf(m.net, l, pos + i, rowAt) == SpanRows(m.net, toks, l, pos + i);
    }
  }
}
