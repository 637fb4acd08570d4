/** The layers of one machine: a transformer block over a batch of positions, with its three
    attention write/read orders, and the layer-by-layer sweep over a batch. Every method is
    proved against the reference residuals of `Network`. */
module Nodes {
  import opened Network
  import opened KvCaching

  /** The rows of layer `l` a query at position `n` may need are in place. */
  ghost predicate LayerServes(kv: KvCache, net: Net, toks: seq<Token>, l: nat, n: nat)
    reads kv`rows
    requires kv.Owns(l) && n <= |toks|
  {
    Holds(kv.Layer(l), net, toks, l, Needed(net.ring(l), n), n)
  }

  /** Every row of layer `l` that fits after `n` written positions is in place. */
  ghost predicate LayerStores(kv: KvCache, net: Net, toks: seq<Token>, l: nat, n: nat)
    reads kv`rows
    requires kv.Owns(l) && n <= |toks|
  {
    Holds(kv.Layer(l), net, toks, l, FirstValid(net.ring(l), n), n)
  }

  ghost predicate Serves(kv: KvCache, net: Net, toks: seq<Token>, n: nat)
    reads kv`rows
    requires n <= |toks|
  {
    forall l: nat | kv.Owns(l) :: LayerServes(kv, net, toks, l, n)
  }

  ghost predicate Stores(kv: KvCache, net: Net, toks: seq<Token>, n: nat)
    reads kv`rows
    requires n <= |toks|
  {
    forall l: nat | kv.Owns(l) :: LayerStores(kv, net, toks, l, n)
  }

  /** A cache that stores `n` positions serves the tokens up to any shorter prefix it may
      be rewound to, whatever the tokens behind that prefix are. */
  lemma {:induction false} StoresRewound(kv: KvCache, net: Net, toks: seq<Token>, toks': seq<Token>, n: nat, r: nat)
    requires r <= n <= |toks| && r <= |toks'| && toks[..r] == toks'[..r]
    requires forall l: nat | kv.Owns(l) :: kv.ring[l - kv.base] == net.ring(l)
    requires Stores(kv, net, toks, n) && (r == 0 || forall k | 0 <= k < |kv.ring| :: RowsLeft(kv.ring[k], r, n))
    ensures Serves(kv, net, toks', r)
  {
    forall l: nat, p: nat | kv.Owns(l) && Needed(net.ring(l), r) <= p < r
      ensures Fetch(kv.Layer(l), net.ring(l), p) == RowAt(net, toks', l, p)
    {
      assert LayerStores(kv, net, toks, l, n);
      assert kv.ring[l - kv.base] == net.ring(l);
      assert FirstValid(net.ring(l), n) <= p;
      assert toks[..p + 1] == toks[..r][..p + 1] == toks'[..p + 1];
      RowCausal(net, toks, toks', l, p);
    }
    assert forall l: nat | kv.Owns(l) :: LayerServes(kv, net, toks', l, r);
  }

  /** Caches never depend on tokens they have not seen. */
  lemma {:induction false} StoresExtended(kv: KvCache, net: Net, toks: seq<Token>, toks': seq<Token>, n: nat)
    requires n <= |toks| && n <= |toks'| && toks[..n] == toks'[..n]
    requires Stores(kv, net, toks, n)
    ensures Stores(kv, net, toks', n)
  {
    forall l: nat, p: nat | kv.Owns(l) && FirstValid(net.ring(l), n) <= p < n
      ensures Fetch(kv.Layer(l), net.ring(l), p) == RowAt(net, toks', l, p)
    {
      assert LayerStores(kv, net, toks, l, n);
      assert toks[..p + 1] == toks[..n][..p + 1] == toks'[..p + 1];
      RowCausal(net, toks, toks', l, p);
    }
    assert forall l: nat | kv.Owns(l) :: LayerStores(kv, net, toks', l, n);
  }

  lemma {:induction false} ServesExtended(kv: KvCache, net: Net, toks: seq<Token>, toks': seq<Token>, n: nat)
    requires n <= |toks| && n <= |toks'| && toks[..n] == toks'[..n]
    requires Serves(kv, net, toks, n)
    ensures Serves(kv, net, toks', n)
  {
    forall l: nat, p: nat | kv.Owns(l) && Needed(net.ring(l), n) <= p < n
      ensures Fetch(kv.Layer(l), net.ring(l), p) == RowAt(net, toks', l, p)
    {
      assert LayerServes(kv, net, toks, l, n);
      assert toks[..p + 1] == toks[..n][..p + 1] == toks'[..p + 1];
      RowCausal(net, toks, toks', l, p);
    }
    assert forall l: nat | kv.Owns(l) :: LayerServes(kv, net, toks', l, n);
  }

  lemma {:induction false} StoresServes(kv: KvCache, net: Net, toks: seq<Token>, n: nat)
    requires n <= |toks| && Stores(kv, net, toks, n)
    ensures Serves(kv, net, toks, n)
  {
    forall l: nat | kv.Owns(l)
      ensures LayerServes(kv, net, toks, l, n)
    {
      assert LayerStores(kv, net, toks, l, n);
    }
  }

  /** Layers below `l` have stored positions [0, start + n); the others still serve `start`. */
  ghost predicate Progress(kv: KvCache, net: Net, toks: seq<Token>, start: nat, n: nat, l: nat)
    reads kv`rows
    requires start + n <= |toks|
  {
    forall k: nat | kv.Owns(k) ::
      if k < l then LayerStores(kv, net, toks, k, start + n) else LayerServes(kv, net, toks, k, start)
  }

  /** `xs` are the residuals entering layer `l` at positions start, start + 1, ... */
  ghost predicate AtLayer(xs: seq<Vec>, net: Net, toks: seq<Token>, l: nat, start: nat)
    requires start + |xs| <= |toks|
  {
    forall a: nat | a < |xs| :: xs[a] == Resid(net, toks, l, start + a)
  }

  /** The layers of one node: its cache, and the blocks over it. */
  class Node {
    const net: Net
    const kv: KvCache
    var tiledAttn: bool   // query-tiled prefill attention

    ghost predicate Valid() {
      && WellFormed(net)
      && forall l: nat | kv.Owns(l) :: l < net.layers && kv.ring[l - kv.base] == net.ring(l)
    }

    constructor (net: Net, kv: KvCache, tiled: bool)
      ensures this.net == net && this.kv == kv && tiledAttn == tiled
    {
      this.net, this.kv, tiledAttn := net, kv, tiled;
    }

    /** The rows the cache returns for the span of a query at `p`. */
    ghost function Fetched(l: nat, p: nat): (rows: seq<Row>)
      reads kv`rows
      requires kv.Owns(l)
    {
      var t0, m, w := SpanStart(net, l, p), kv.Layer(l), kv.ring[l - kv.base];
      seq(p + 1 - t0, j requires 0 <= j => Fetch(m, w, t0 + j))
    }

    /** Attention of one query over whatever the cache returns; if that holds the span, it is
        the reference. */
    method Attend(l: nat, p: nat, x: Vec, ghost toks: seq<Token>) returns (o: Vec)
      requires Valid() && kv.Owns(l) && p < |toks|
      ensures o == net.attend(l, p, x, Fetched(l, p))
      ensures Holds(kv.Layer(l), net, toks, l, SpanStart(net, l, p), p + 1) ==> o == net.attend(l, p, x, SpanRows(net, toks, l, p))
    {
      var rows := [];
      var t0 := SpanStart(net, l, p);
      for t := t0 to p + 1
        invariant rows == Fetched(l, p)[..t - t0]
      {
        assert kv.Read(l, t) == Fetched(l, p)[t - t0];
        rows := rows + [kv.Read(l, t)];
      }
      assert rows == Fetched(l, p);
      if Holds(kv.Layer(l), net, toks, l, t0, p + 1) {
        assert rows == SpanRows(net, toks, l, p);
      }
      o := net.attend(l, p, x, rows);
    }

    /** Attention of query `i` of a batch at `pos`: rows from `pos` on are taken from the
        batch itself, which the cache does not hold yet. */
    method AttendTiled(l: nat, pos: nat, i: nat, x: Vec, batch: seq<Row>, ghost toks: seq<Token>)
      returns (o: Vec)
      requires Valid() && kv.Owns(l) && i < |batch| && pos + |batch| <= |toks|
      requires LayerServes(kv, net, toks, l, pos)
      requires forall j: nat | j < |batch| :: batch[j] == RowAt(net, toks, l, pos + j)
      ensures o == net.attend(l, pos + i, x, SpanRows(net, toks, l, pos + i))
    {
      var rows := [];
      var t0 := SpanStart(net, l, pos + i);
      for t := t0 to pos + i + 1
        invariant rows == SpanRows(net, toks, l, pos + i)[..t - t0]
      {
        rows := rows + [if t >= pos then batch[t - pos] else kv.Read(l, t)];
      }
      assert rows == SpanRows(net, toks, l, pos + i);
      o := net.attend(l, pos + i, x, rows);
    }

    /** Writes one row; the cache then stores one position more. */
    method WriteRow(l: nat, p: nat, row: Row, ghost toks: seq<Token>, ghost lo: nat)
      requires Valid() && kv.Owns(l) && p < |toks| && row == RowAt(net, toks, l, p)
      requires Holds(kv.Layer(l), net, toks, l, lo, p) && lo <= p
      modifies kv`rows
      ensures SameElsewhere(kv.rows, old(kv.rows), l)
      ensures Holds(kv.Layer(l), net, toks, l, if lo < FirstValid(net.ring(l), p + 1) then FirstValid(net.ring(l), p + 1) else lo, p + 1)
    {
      WriteKeeps(kv.Layer(l), net, toks, l, lo, p);
      kv.Write(l, p, row);
    }

    /** One transformer block over positions [pos, pos + bs), residuals at x[off..off + bs). */
    method Block(l: nat, pos: nat, bs: nat, x: array<Vec>, off: nat, ghost toks: seq<Token>)
      requires Valid() && kv.Owns(l) && 0 < bs && off + bs <= x.Length && pos + bs <= |toks|
      requires forall a | off <= a < off + bs :: x[a] == Resid(net, toks, l, pos + (a - off))
      requires LayerServes(kv, net, toks, l, pos)
      modifies x, kv`rows
      ensures SameElsewhere(kv.rows, old(kv.rows), l)
      ensures LayerStores(kv, net, toks, l, pos + bs)
      ensures forall a | off <= a < off + bs :: x[a] == Resid(net, toks, l + 1, pos + (a - off))
      ensures forall a | 0 <= a < x.Length && !(off <= a < off + bs) :: x[a] == old(x[a])
    {
      var batch := ProjectBatch(l, pos, x[off..off + bs], toks);
      var attn := BlockAttention(l, pos, batch, x[off..off + bs], toks);
      FinishBatch(l, pos, attn, x, off, toks);
    }

    /** The K/V rows of a batch, not stored yet. */
    method ProjectBatch(l: nat, pos: nat, xs: seq<Vec>, ghost toks: seq<Token>) returns (batch: seq<Row>)
      requires pos + |xs| <= |toks|
      requires forall i: nat | i < |xs| :: xs[i] == Resid(net, toks, l, pos + i)
      ensures |batch| == |xs|
      ensures forall i: nat | i < |xs| :: batch[i] == RowAt(net, toks, l, pos + i)
    {
      batch := [];
      for i := 0 to |xs|
        invariant |batch| == i
        invariant forall j: nat | j < i :: batch[j] == RowAt(net, toks, l, pos + j)
      {
        batch := batch + [net.project(l, pos + i, xs[i])];
      }
    }

    /** The rest of the block: attention outputs into residuals, in place. */
    method FinishBatch(l: nat, pos: nat, attn: seq<Vec>, x: array<Vec>, off: nat, ghost toks: seq<Token>)
      requires off + |attn| <= x.Length && pos + |attn| <= |toks|
      requires forall a | off <= a < off + |attn| :: x[a] == Resid(net, toks, l, pos + (a - off))
      requires Attended(attn, x[off..off + |attn|], l, pos, toks)
      modifies x
      ensures forall a | off <= a < off + |attn| :: x[a] == Resid(net, toks, l + 1, pos + (a - off))
      ensures forall a | 0 <= a < x.Length && !(off <= a < off + |attn|) :: x[a] == old(x[a])
    {
      for i := 0 to |attn|
        invariant forall a | off <= a < off + i :: x[a] == Resid(net, toks, l + 1, pos + (a - off))
        invariant forall a | 0 <= a < x.Length && !(off <= a < off + i) :: x[a] == old(x[a])
      {
        x[off + i] := net.finish(l, pos + i, x[off + i], attn[i]);
      }
    }

    /** The first |attn| queries of a batch at `pos` attended over their true spans. */
    ghost predicate Attended(attn: seq<Vec>, xs: seq<Vec>, l: nat, pos: nat, toks: seq<Token>)
      requires |attn| <= |xs| && pos + |attn| <= |toks|
    {
      forall i: nat | i < |attn| :: attn[i] == net.attend(l, pos + i, xs[i], SpanRows(net, toks, l, pos + i))
    }

    /** Chooses between the three write/read orders. */
    method BlockAttention(l: nat, pos: nat, batch: seq<Row>, xs: seq<Vec>, ghost toks: seq<Token>)
      returns (attn: seq<Vec>)
      requires Valid() && kv.Owns(l) && 0 < |batch| == |xs| && pos + |batch| <= |toks|
      requires forall j: nat | j < |batch| :: batch[j] == RowAt(net, toks, l, pos + j)
      requires LayerServes(kv, net, toks, l, pos)
      modifies kv`rows
      ensures SameElsewhere(kv.rows, old(kv.rows), l)
      ensures LayerStores(kv, net, toks, l, pos + |batch|)
      ensures |attn| == |batch| && Attended(attn, xs, l, pos, toks)
    {
      var bs, w, win := |batch|, kv.ring[l - kv.base], net.window(l);
      if tiledAttn && bs > 1 && bs <= 1024 && (w == 0 || (bs <= w && win > 0 && win <= w)) {
        attn := AttendThenWrite(l, pos, batch, xs, toks);
      } else if w > 0 {
        attn := WriteAttendEach(l, pos, batch, xs, toks);
      } else {
        attn := WriteThenAttend(l, pos, batch, xs, toks);
      }
    }

    /** Tiled order: the whole batch attends before any of it is written. */
    method AttendThenWrite(l: nat, pos: nat, batch: seq<Row>, xs: seq<Vec>, ghost toks: seq<Token>)
      returns (attn: seq<Vec>)
      requires Valid() && kv.Owns(l) && 0 < |batch| == |xs| && pos + |batch| <= |toks|
      requires forall j: nat | j < |batch| :: batch[j] == RowAt(net, toks, l, pos + j)
      requires LayerServes(kv, net, toks, l, pos)
      modifies kv`rows
      ensures SameElsewhere(kv.rows, old(kv.rows), l)
      ensures LayerStores(kv, net, toks, l, pos + |batch|)
      ensures |attn| == |batch| && Attended(attn, xs, l, pos, toks)
    {
      attn := [];
      for i := 0 to |batch|
        modifies {}
        invariant |attn| == i && Attended(attn, xs, l, pos, toks)
      {
        var o := AttendTiled(l, pos, i, xs[i], batch, toks);
        attn := attn + [o];
      }
      WriteBatch(l, pos, batch, toks);
    }

    /** Ring order: each token is written and attends before the next one is written. */
    method WriteAttendEach(l: nat, pos: nat, batch: seq<Row>, xs: seq<Vec>, ghost toks: seq<Token>)
      returns (attn: seq<Vec>)
      requires Valid() && kv.Owns(l) && 0 < |batch| == |xs| && pos + |batch| <= |toks|
      requires kv.ring[l - kv.base] > 0
      requires forall j: nat | j < |batch| :: batch[j] == RowAt(net, toks, l, pos + j)
      requires LayerServes(kv, net, toks, l, pos)
      modifies kv`rows
      ensures SameElsewhere(kv.rows, old(kv.rows), l)
      ensures LayerStores(kv, net, toks, l, pos + |batch|)
      ensures |attn| == |batch| && Attended(attn, xs, l, pos, toks)
    {
      attn := [];
      for i := 0 to |batch|
        invariant SameElsewhere(kv.rows, old(kv.rows), l)
        invariant LayerServes(kv, net, toks, l, pos + i)
        invariant i > 0 ==> LayerStores(kv, net, toks, l, pos + i)
        invariant |attn| == i && Attended(attn, xs, l, pos, toks)
      {
        WriteRow(l, pos + i, batch[i], toks, Needed(net.ring(l), pos + i));
        var o := Attend(l, pos + i, xs[i], toks);
        attn := attn + [o];
      }
    }

    /** Full-cache order: the whole batch is written, then attends. */
    method WriteThenAttend(l: nat, pos: nat, batch: seq<Row>, xs: seq<Vec>, ghost toks: seq<Token>)
      returns (attn: seq<Vec>)
      requires Valid() && kv.Owns(l) && 0 < |batch| == |xs| && pos + |batch| <= |toks|
      requires kv.ring[l - kv.base] == 0
      requires forall j: nat | j < |batch| :: batch[j] == RowAt(net, toks, l, pos + j)
      requires LayerServes(kv, net, toks, l, pos)
      modifies kv`rows
      ensures SameElsewhere(kv.rows, old(kv.rows), l)
      ensures LayerStores(kv, net, toks, l, pos + |batch|)
      ensures |attn| == |batch| && Attended(attn, xs, l, pos, toks)
    {
      WriteBatch(l, pos, batch, toks);
      attn := [];
      for i := 0 to |batch|
        modifies {}
        invariant |attn| == i && Attended(attn, xs, l, pos, toks)
      {
        var o := Attend(l, pos + i, xs[i], toks);
        attn := attn + [o];
      }
    }

    method WriteBatch(l: nat, pos: nat, batch: seq<Row>, ghost toks: seq<Token>)
      requires Valid() && kv.Owns(l) && 0 < |batch| && pos + |batch| <= |toks|
      requires forall j: nat | j < |batch| :: batch[j] == RowAt(net, toks, l, pos + j)
      requires LayerServes(kv, net, toks, l, pos)
      modifies kv`rows
      ensures SameElsewhere(kv.rows, old(kv.rows), l)
      ensures LayerStores(kv, net, toks, l, pos + |batch|)
    {
      for i := 0 to |batch|
        invariant SameElsewhere(kv.rows, old(kv.rows), l)
        invariant LayerServes(kv, net, toks, l, pos + i)
        invariant i > 0 ==> LayerStores(kv, net, toks, l, pos + i)
      {
        WriteRow(l, pos + i, batch[i], toks, Needed(net.ring(l), pos + i));
      }
    }

    /** Layer `l` over positions [start, start + n), `chunk` at a time. */
    method BlockChunks(l: nat, chunk: nat, x: array<Vec>, n: nat, start: nat, ghost toks: seq<Token>)
      requires Valid() && kv.Owns(l) && 0 < chunk && 0 < n <= x.Length && start + n <= |toks|
      requires forall a | 0 <= a < n :: x[a] == Resid(net, toks, l, start + a)
      requires LayerServes(kv, net, toks, l, start)
      modifies x, kv`rows
      ensures SameElsewhere(kv.rows, old(kv.rows), l)
      ensures LayerStores(kv, net, toks, l, start + n)
      ensures forall a | 0 <= a < n :: x[a] == Resid(net, toks, l + 1, start + a)
    {
      var i := 0;
      while i < n
        invariant 0 <= i <= n
        invariant SameElsewhere(kv.rows, old(kv.rows), l)
        invariant LayerServes(kv, net, toks, l, start + i)
        invariant i > 0 ==> LayerStores(kv, net, toks, l, start + i)
        invariant forall a | 0 <= a < i :: x[a] == Resid(net, toks, l + 1, start + a)
        invariant forall a | i <= a < n :: x[a] == Resid(net, toks, l, start + a)
      {
        var bs := if chunk < n - i then chunk else n - i;
        Block(l, start + i, bs, x, i, toks);
        i := i + bs;
      }
    }

    method RunLayer(l: nat, chunk: nat, x: array<Vec>, n: nat, start: nat, ghost toks: seq<Token>)
      requires Valid() && kv.Owns(l) && 0 < chunk && 0 < n <= x.Length && start + n <= |toks|
      requires AtLayer(x[..n], net, toks, l, start)
      requires Progress(kv, net, toks, start, n, l)
      modifies x, kv`rows
      ensures Progress(kv, net, toks, start, n, l + 1)
      ensures AtLayer(x[..n], net, toks, l + 1, start)
    {
      ghost var rows0 := kv.rows;
      assert forall a: nat | a < n :: x[a] == x[..n][a];
      BlockChunks(l, chunk, x, n, start, toks);
      forall k: nat | kv.Owns(k)
        ensures if k < l + 1 then LayerStores(kv, net, toks, k, start + n) else LayerServes(kv, net, toks, k, start)
      {
        assert k in kv.rows || k !in kv.rows;
      }
    }

    /** A worker's whole range over `n` residual rows, with prefill's own chunking. */
    method RunLayers(begin: nat, end: nat, x: array<Vec>, n: nat, start: nat, ghost toks: seq<Token>)
      requires Valid() && begin == kv.base && end == kv.base + |kv.ring| && begin < end
      requires 0 < n <= x.Length && start + n <= kv.maxCtx && start + n <= |toks|
      requires AtLayer(x[..n], net, toks, begin, start)
      requires Serves(kv, net, toks, start)
      modifies x, kv`rows, kv`seqLen
      ensures Stores(kv, net, toks, start + n) && kv.seqLen == start + n
      ensures AtLayer(x[..n], net, toks, end, start)
    {
      for l := begin to end
        invariant Progress(kv, net, toks, start, n, l)
        invariant AtLayer(x[..n], net, toks, l, start)
      {
        RunLayer(l, 32, x, n, start, toks);
      }
      kv.SetSeqLen(start + n);
    }
  }
}
