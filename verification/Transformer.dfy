/** The whole model: this machine's leading layers, then the segments other machines run.
    All entry points compute the reference logits of `Network` and leave the reference rows
    in every machine's cache, however the work was batched, chunked or split. */
module Transformers {
  import opened Network
  import opened KvCaching
  import opened Nodes
  import opened Lan

  datatype RemoteSegment = RemoteSegment(begin: nat, end: nat, exec: RemoteExecutor)

  /** Non-empty segments that cover [from, to) in order, without gap or overlap. */
  predicate Tiles(segs: seq<RemoteSegment>, from: nat, to: nat) {
    && (forall i: nat {:trigger StartOf(segs, from, i)} | i < |segs| ::
          segs[i].begin == StartOf(segs, from, i) && segs[i].begin < segs[i].end)
    && to == StartOf(segs, from, |segs|)
  }

  /** Where segment `i` has to begin: at the end of the one before it. */
  function StartOf(segs: seq<RemoteSegment>, from: nat, i: nat): nat
    requires i <= |segs|
  {
    if i == 0 then from else segs[i - 1].end
  }

  lemma {:induction false} TilesMonotone(segs: seq<RemoteSegment>, from: nat, to: nat, i: nat, j: nat)
    requires Tiles(segs, from, to) && i <= j < |segs|
    ensures from <= segs[i].begin && segs[j].end <= to
    ensures i < j ==> segs[i].end <= segs[j].begin
    decreases |segs| - i, j
  {
    TilesBelow(segs, from, to, i);
    TilesAbove(segs, from, to, j);
    assert segs[j].begin == StartOf(segs, from, j);
    if i + 1 < j {
      TilesMonotone(segs, from, to, i, j - 1);
      assert segs[j - 1].begin == StartOf(segs, from, j - 1);
    }
  }

  lemma {:induction false} TilesBelow(segs: seq<RemoteSegment>, from: nat, to: nat, i: nat)
    requires Tiles(segs, from, to) && i < |segs|
    ensures from <= segs[i].begin
  {
    assert segs[i].begin == StartOf(segs, from, i);
    if i > 0 {
      TilesBelow(segs, from, to, i - 1);
      assert segs[i - 1].begin == StartOf(segs, from, i - 1);
    }
  }

  lemma {:induction false} TilesAbove(segs: seq<RemoteSegment>, from: nat, to: nat, i: nat)
    requires Tiles(segs, from, to) && i < |segs|
    ensures segs[i].end <= to
    decreases |segs| - i
  {
    if i + 1 < |segs| {
      TilesAbove(segs, from, to, i + 1);
      assert segs[i + 1].begin == StartOf(segs, from, i + 1);
    }
  }

  /** Accepted segments give every remote layer to exactly one machine. */
  lemma {:induction false} TilesCover(segs: seq<RemoteSegment>, from: nat, to: nat, l: nat)
    requires Tiles(segs, from, to) && from <= l < to
    ensures exists i :: 0 <= i < |segs| && segs[i].begin <= l < segs[i].end
                        && forall j | 0 <= j < |segs| && segs[j].begin <= l < segs[j].end :: j == i
    decreases |segs|
  {
    var last := |segs| - 1;
    if segs[last].begin <= l {
      forall j | 0 <= j < |segs| && segs[j].begin <= l < segs[j].end
        ensures j == last
      {
        if j < last {
          TilesMonotone(segs, from, to, j, last);
        }
      }
    } else {
      var init := segs[..last];
      assert forall i: nat | i <= |init| :: StartOf(init, from, i) == StartOf(segs, from, i);
      assert Tiles(init, from, segs[last].begin);
      TilesCover(init, from, segs[last].begin, l);
      var i :| 0 <= i < |init| && init[i].begin <= l < init[i].end
               && forall j | 0 <= j < |init| && init[j].begin <= l < init[j].end :: j == i;
      assert segs[i] == init[i];
      forall j | 0 <= j < |segs| && segs[j].begin <= l < segs[j].end
        ensures j == i
      {
        assert j != last;
        assert segs[j] == init[j];
      }
    }
  }

  /** One segment per entry of an accepted list of workers. */
  ghost predicate BuiltFrom(segs: seq<RemoteSegment>, specs: seq<NodeSpec>) {
    |segs| == |specs| && forall i | 0 <= i < |segs| :: segs[i].begin == specs[i].begin && segs[i].end == specs[i].end
  }

  /** An accepted list tiles exactly the layers between its ends. */
  lemma {:induction false} AcceptedTiles(specs: seq<NodeSpec>, segs: seq<RemoteSegment>, from: nat, to: nat)
    requires specs != [] && (forall n :: n in specs ==> EntryOk(n)) && Contiguous(specs) && BuiltFrom(segs, specs)
    ensures Tiles(segs, from, to) <==> specs[0].begin == from && specs[|specs| - 1].end == to
  {
    var last := |segs| - 1;
    assert segs[0].begin == specs[0].begin && segs[last].end == specs[last].end;
    assert StartOf(segs, from, 0) == from;
    if specs[0].begin == from {
      forall i: nat | i < |segs|
        ensures segs[i].begin == StartOf(segs, from, i) && segs[i].begin < segs[i].end
      {
        assert specs[i] in specs && EntryOk(specs[i]);
        assert i > 0 ==> specs[(i - 1) + 1].begin == specs[i - 1].end;
      }
    }
  }

  class Transformer {
    const node: Node
    var prefillBatch: nat
    var remote: seq<RemoteSegment>
    ghost var caches: set<KvCache>   // this machine's and the workers'

    /** Every segment's executor talks to a distinct machine that owns exactly its layers
        of the same network. */
    ghost predicate Wired()
      reads this
    {
      && node.kv in caches && (forall i | 0 <= i < |remote| :: remote[i].exec.worker.kv in caches)
      && node.Valid() && node.kv.base == 0
      && 1 <= prefillBatch <= 1024
      && Tiles(remote, |node.kv.ring|, node.net.layers)
      && (forall i | 0 <= i < |remote| ::
            var w := remote[i].exec.worker;
            && remote[i].exec.begin == remote[i].begin && remote[i].exec.end == remote[i].end
            && w.Valid() && w.net == node.net && w.kv.maxCtx == node.kv.maxCtx
            && w.kv.base == remote[i].begin && |w.kv.ring| == remote[i].end - remote[i].begin)
      && (forall i | 0 <= i < |remote| :: remote[i].exec.worker.kv != node.kv)
      && (forall i, j | 0 <= i < j < |remote| :: remote[i].exec.worker.kv != remote[j].exec.worker.kv)
    }

    /** Together the machines hold what a single one would: layer by layer, the rows of
        positions [0, n). */
    ghost predicate AllStore(toks: seq<Token>, n: nat)
      reads this, caches`rows
      requires Wired() && n <= |toks|
    {
      && Stores(node.kv, node.net, toks, n)
      && forall i | 0 <= i < |remote| :: Stores(remote[i].exec.worker.kv, node.net, toks, n)
    }

    ghost predicate AllServe(toks: seq<Token>, n: nat)
      reads this, caches`rows
      requires Wired() && n <= |toks|
    {
      && Serves(node.kv, node.net, toks, n)
      && forall i | 0 <= i < |remote| :: Serves(remote[i].exec.worker.kv, node.net, toks, n)
    }

    lemma {:induction false} AllStoreServes(toks: seq<Token>, n: nat)
      requires Wired() && n <= |toks| && AllStore(toks, n)
      ensures AllServe(toks, n)
    {
      StoresServes(node.kv, node.net, toks, n);
      forall i | 0 <= i < |remote|
        ensures Serves(remote[i].exec.worker.kv, node.net, toks, n)
      {
        StoresServes(remote[i].exec.worker.kv, node.net, toks, n);
      }
    }

    /** Every machine still holds what the query at `pos` needs, after `written` positions. */
    predicate RingsAllow(pos: nat, written: nat) {
      forall l: nat | l < node.net.layers :: RowsLeft(node.net.ring(l), pos, written)
    }

    /** Every ring of the model, in the order of its layers. */
    function Rings(): seq<nat> {
      var ring := node.net.ring;
      seq(node.net.layers, l requires 0 <= l => ring(l))
    }

    /** No ring has wrapped after `n` positions. */
    predicate Unwrapped(n: int) {
      forall l: nat | l < node.net.layers :: node.net.ring(l) == 0 || n <= node.net.ring(l)
    }

    /** No ring that looks back has. */
    predicate NeverLoses(n: int) {
      forall l: nat | l < node.net.layers :: node.net.ring(l) <= 1 || n <= node.net.ring(l)
    }

    /** Cutting the tokens back to a common prefix. */
    lemma {:induction false} AllStoreRewound(toks: seq<Token>, toks': seq<Token>, n: nat, r: nat)
      requires Wired() && r <= n <= |toks| && r <= |toks'| && toks[..r] == toks'[..r]
      requires AllStore(toks, n) && (r == 0 || RingsAllow(r, n))
      ensures AllServe(toks', r)
    {
      MachineRewound(node, toks, toks', n, r);
      forall i | 0 <= i < |remote|
        ensures Serves(remote[i].exec.worker.kv, node.net, toks', r)
      {
        MachineRewound(remote[i].exec.worker, toks, toks', n, r);
      }
    }

    lemma {:induction false} MachineRewound(m: Node, toks: seq<Token>, toks': seq<Token>, n: nat, r: nat)
      requires m.Valid() && m.net == node.net && r <= n <= |toks| && r <= |toks'| && toks[..r] == toks'[..r]
      requires Stores(m.kv, m.net, toks, n) && (r == 0 || RingsAllow(r, n))
      ensures Serves(m.kv, m.net, toks', r)
    {
      forall k: nat | k < |m.kv.ring|
        ensures m.kv.base + k < m.net.layers && m.kv.ring[k] == m.net.ring(m.kv.base + k)
      {
        assert m.kv.Owns(m.kv.base + k);
      }
      StoresRewound(m.kv, m.net, toks, toks', n, r);
    }

    lemma {:induction false} AllStoreNothing(toks: seq<Token>)
      requires Wired()
      ensures AllStore(toks, 0)
    {
      assert forall l: nat | node.kv.Owns(l) :: LayerStores(node.kv, node.net, toks, l, 0);
      forall i, l: nat | 0 <= i < |remote| && remote[i].exec.worker.kv.Owns(l)
        ensures LayerStores(remote[i].exec.worker.kv, node.net, toks, l, 0)
      {
      }
    }

    lemma {:induction false} AllStoreExtended(toks: seq<Token>, toks': seq<Token>, n: nat)
      requires Wired() && n <= |toks| && n <= |toks'| && toks[..n] == toks'[..n] && AllStore(toks, n)
      ensures AllStore(toks', n)
    {
      StoresExtended(node.kv, node.net, toks, toks', n);
      forall i | 0 <= i < |remote|
        ensures Stores(remote[i].exec.worker.kv, node.net, toks', n)
      {
        StoresExtended(remote[i].exec.worker.kv, node.net, toks, toks', n);
      }
    }

    lemma {:induction false} AllServeExtended(toks: seq<Token>, toks': seq<Token>, n: nat)
      requires Wired() && n <= |toks| && n <= |toks'| && toks[..n] == toks'[..n] && AllServe(toks, n)
      ensures AllServe(toks', n)
    {
      ServesExtended(node.kv, node.net, toks, toks', n);
      forall i | 0 <= i < |remote|
        ensures Serves(remote[i].exec.worker.kv, node.net, toks', n)
      {
        ServesExtended(remote[i].exec.worker.kv, node.net, toks, toks', n);
      }
    }

    constructor (node: Node)
      requires node.Valid() && node.kv.base == 0
      ensures this.node == node && remote == [] && prefillBatch == 32 && caches == {node.kv}
      ensures |node.kv.ring| == node.net.layers ==> Wired()
    {
      this.node, prefillBatch, remote := node, 32, [];
      caches := {node.kv};
    }

    /** The runtime's check of the `--nodes` segments: accepted exactly when they tile the
        layers this machine does not own. */
    method SetRemoteSegments(segs: seq<RemoteSegment>) returns (ok: bool)
      modifies this`remote, this`caches
      ensures ok <==> node.kv.base == 0 && Tiles(segs, |node.kv.ring|, node.net.layers)
      ensures remote == if ok then segs else old(remote)
      ensures caches == if ok then {node.kv} + set i | 0 <= i < |segs| :: segs[i].exec.worker.kv else old(caches)
    {
      if node.kv.base != 0 {
        return false;
      }
      var upto := |node.kv.ring|;
      for i := 0 to |segs|
        modifies {}
        invariant forall j: nat {:trigger StartOf(segs, |node.kv.ring|, j)} | j < i ::
                    segs[j].begin == StartOf(segs, |node.kv.ring|, j) && segs[j].begin < segs[j].end
        invariant upto == StartOf(segs, |node.kv.ring|, i)
      {
        if segs[i].begin != upto || segs[i].begin >= segs[i].end {
          return false;
        }
        upto := segs[i].end;
      }
      if upto != node.net.layers {
        return false;
      }
      remote := segs;
      caches := {node.kv} + set i | 0 <= i < |segs| :: segs[i].exec.worker.kv;
      ok := true;
    }

    /** The machine behind an entry, as the handshake has checked it: the same model, the same
        context, and exactly the entry's layers. */
    ghost predicate Backs(e: RemoteExecutor, n: NodeSpec) {
      && e.begin == n.begin && e.end == n.end
      && e.worker.Valid() && e.worker.net == node.net && e.worker.kv.maxCtx == node.kv.maxCtx
      && e.worker.kv.base == n.begin && e.worker.kv.base + |e.worker.kv.ring| == n.end && e.worker.kv != node.kv
    }

    /** What the entries must be, given which layers this machine owns. */
    ghost predicate Acceptable(items: seq<NodeSpec>) {
      var sorted := SortByBegin(items);
      && items != [] && (forall n :: n in items ==> EntryOk(n)) && Contiguous(sorted)
      && |sorted| == |items| && sorted[0].begin == |node.kv.ring| && sorted[|items| - 1].end == node.net.layers
    }

    /** Every entry has its machine, no two the same one. */
    ghost predicate Connected(items: seq<NodeSpec>, executors: map<NodeSpec, RemoteExecutor>) {
      && (forall n | n in items && EntryOk(n) :: n in executors && Backs(executors[n], n))
      && forall m, n | m in items && n in items && m != n && EntryOk(m) && EntryOk(n) ::
           m in executors && n in executors && executors[m].worker.kv != executors[n].worker.kv
    }

    lemma {:induction false} StillConnected(items: seq<NodeSpec>, executors: map<NodeSpec, RemoteExecutor>)
      requires Connected(items, executors)
      ensures Connected(SortByBegin(items), executors)
    {
      hide SortByBegin, EntryOk, Backs;
      SortedItems(items);
    }

    method Connect(specs: seq<NodeSpec>, executors: map<NodeSpec, RemoteExecutor>) returns (segs: seq<RemoteSegment>)
      requires (forall n :: n in specs ==> EntryOk(n)) && Connected(specs, executors)
      ensures BuiltFrom(segs, specs) && forall i | 0 <= i < |segs| :: specs[i] in executors && segs[i].exec == executors[specs[i]]
    {
      segs := [];
      for i := 0 to |specs|
        invariant |segs| == i
        invariant forall j | 0 <= j < i :: segs[j].begin == specs[j].begin && segs[j].end == specs[j].end
        invariant forall j | 0 <= j < i :: specs[j] in executors && segs[j].exec == executors[specs[j]]
      {
        var n := specs[i];
        assert n in specs && EntryOk(n);
        segs := segs + [RemoteSegment(n.begin, n.end, executors[n])];
      }
    }

    /** The machines of an accepted chain are distinct, and each owns its segment. */
    lemma {:induction false} ChainWired(specs: seq<NodeSpec>, executors: map<NodeSpec, RemoteExecutor>)
      requires (forall n :: n in specs ==> EntryOk(n)) && Connected(specs, executors) && Contiguous(specs)
      requires BuiltFrom(remote, specs) && forall i | 0 <= i < |remote| :: specs[i] in executors && remote[i].exec == executors[specs[i]]
      requires node.Valid() && node.kv.base == 0 && 1 <= prefillBatch <= 1024
      requires Tiles(remote, |node.kv.ring|, node.net.layers)
      requires node.kv in caches && forall i | 0 <= i < |remote| :: remote[i].exec.worker.kv in caches
      ensures Wired()
    {
      hide Tiles, Contiguous;
      ChainDistinct(specs);
      forall i | 0 <= i < |remote|
        ensures Backs(remote[i].exec, specs[i])
      {
        assert specs[i] in specs && EntryOk(specs[i]);
      }
      forall i, j | 0 <= i < j < |remote|
        ensures remote[i].exec.worker.kv != remote[j].exec.worker.kv
      {
        assert specs[i] in specs && specs[j] in specs && specs[i] != specs[j];
      }
    }

    /** From the `--nodes` entries to a wired model: parsed, sorted, connected and checked. They
        are accepted exactly when they are a chain that covers the layers this machine does not
        own, and then every layer has exactly one machine. */
    method UseNodes(items: seq<NodeSpec>, executors: map<NodeSpec, RemoteExecutor>) returns (ok: bool)
      requires node.Valid() && node.kv.base == 0 && 1 <= prefillBatch <= 1024
      requires Connected(items, executors)
      modifies this`remote, this`caches
      ensures ok <==> Acceptable(items)
      ensures ok ==> Wired() && BuiltFrom(remote, SortByBegin(items))
      ensures !ok ==> remote == old(remote) && caches == old(caches)
    {
      hide Tiles, Contiguous, SortByBegin, BuiltFrom, Backs, EntryOk, Connected, Wired;
      SortedItems(items);
      StillConnected(items, executors);
      var specs := ParseNodes(items);
      if specs.None? {
        return false;
      }
      var segs := Connect(specs.value, executors);
      AcceptedTiles(specs.value, segs, |node.kv.ring|, node.net.layers);
      ok := SetRemoteSegments(segs);
      if ok {
        ChainWired(specs.value, executors);
      }
    }

    lemma {:induction false} SortedItems(items: seq<NodeSpec>)
      ensures |SortByBegin(items)| == |items| && forall n :: n in SortByBegin(items) <==> n in items
    {
      var sorted := SortByBegin(items);
      assert |multiset(sorted)| == |sorted| && |multiset(items)| == |items|;
      assert forall n :: n in sorted <==> n in multiset(sorted);
      assert forall n :: n in items <==> n in multiset(items);
    }

    lemma {:induction false} ChainDistinct(ns: seq<NodeSpec>)
      requires Contiguous(ns) && forall n :: n in ns ==> EntryOk(n)
      ensures forall i, j | 0 <= i < j < |ns| :: ns[i] != ns[j]
    {
      forall i, j | 0 <= i < j < |ns|
        ensures ns[i] != ns[j]
      {
        ChainIncreases(ns, i, j);
        assert ns[i] in ns;
      }
    }

    /** The segment that starts at layer `l`, if any. */
    method RemoteAt(l: nat) returns (i: nat)
      ensures i <= |remote|
      ensures i < |remote| ==> remote[i].begin == l
      ensures forall j | 0 <= j < i :: remote[j].begin != l
    {
      i := 0;
      while i < |remote| && remote[i].begin != l
        invariant i <= |remote|
        invariant forall j | 0 <= j < i :: remote[j].begin != l
      {
        i := i + 1;
      }
    }

    /** How far a sweep has come: layers below `l` are done, on this machine and on the
        first `done` others. */
    ghost predicate SweptTo(l: nat, done: nat, toks: seq<Token>, start: nat, n: nat)
      reads this, caches`rows
      requires Wired() && start + n <= |toks|
    {
      && done <= |remote|
      && (if done == 0 then l <= |node.kv.ring| else l == StartOf(remote, |node.kv.ring|, done))
      && Progress(node.kv, node.net, toks, start, n, l)
      && (forall j | 0 <= j < done :: Stores(remote[j].exec.worker.kv, node.net, toks, start + n))
      && (forall j | done <= j < |remote| :: Serves(remote[j].exec.worker.kv, node.net, toks, start))
    }

    lemma {:induction false} SweptLocal(l: nat, done: nat, toks: seq<Token>, start: nat, n: nat)
      requires Wired() && start + n <= |toks| && SweptTo(l, done, toks, start, n) && l < node.net.layers
      ensures done < |remote| && remote[done].begin == l <==> l >= |node.kv.ring|
      ensures l >= |node.kv.ring| ==> forall j | 0 <= j < done :: remote[j].begin < l
      ensures l < |node.kv.ring| ==> done == 0 && forall j | 0 <= j < |remote| :: remote[j].begin != l
    {
      if done > 0 {
        TilesMonotone(remote, |node.kv.ring|, node.net.layers, 0, done - 1);
        forall j | 0 <= j < done
          ensures remote[j].begin < l
        {
          TilesMonotone(remote, |node.kv.ring|, node.net.layers, j, done - 1);
          assert remote[j].begin == StartOf(remote, |node.kv.ring|, j);
          assert remote[done - 1].begin == StartOf(remote, |node.kv.ring|, done - 1);
        }
      }
      forall j | 0 <= j < |remote|
        ensures |node.kv.ring| <= remote[j].begin
      {
        TilesMonotone(remote, |node.kv.ring|, node.net.layers, j, j);
      }
    }

    /** A sweep that has reached `l` goes on with the next segment or a local layer. */
    method NextSegment(l: nat, ghost done: nat, ghost toks: seq<Token>, ghost start: nat, ghost n: nat)
      returns (i: nat)
      requires Wired() && start + n <= |toks| && SweptTo(l, done, toks, start, n) && l < node.net.layers
      ensures if i < |remote| then i == done && remote[i].begin == l && l < remote[i].end <= node.net.layers
              else done == 0 && l < |node.kv.ring|
    {
      i := RemoteAt(l);
      SweptLocal(l, done, toks, start, n);
      if i < |remote| {
        TilesMonotone(remote, |node.kv.ring|, node.net.layers, i, i);
        assert remote[i].begin == StartOf(remote, |node.kv.ring|, i);
      }
    }

    /** One local layer of the sweep. */
    method RunLocal(l: nat, chunk: nat, x: array<Vec>, n: nat, start: nat, ghost toks: seq<Token>)
      requires Wired() && 0 < chunk && 0 < n <= x.Length && start + n <= |toks|
      requires l < |node.kv.ring| && SweptTo(l, 0, toks, start, n)
      requires AtLayer(x[..n], node.net, toks, l, start)
      modifies x, node.kv`rows, node.kv`seqLen
      ensures SweptTo(l + 1, 0, toks, start, n)
      ensures AtLayer(x[..n], node.net, toks, l + 1, start)
    {
      node.RunLayer(l, chunk, x, n, start, toks);
    }

    /** One remote segment of the sweep: request, reply, residuals overwritten. */
    method RunSegment(i: nat, l: nat, x: array<Vec>, n: nat, start: nat, ghost toks: seq<Token>)
      requires Wired() && 0 < n <= x.Length && start + n <= node.kv.maxCtx && start + n <= |toks|
      requires i < |remote| && remote[i].begin == l && SweptTo(l, i, toks, start, n)
      requires AtLayer(x[..n], node.net, toks, l, start)
      modifies x, remote[i].exec.worker.kv`rows, remote[i].exec.worker.kv`seqLen
      ensures SweptTo(remote[i].end, i + 1, toks, start, n)
      ensures AtLayer(x[..n], node.net, toks, remote[i].end, start)
    {
      assert forall j | 0 <= j < |remote| && j != i :: remote[j].exec.worker.kv != remote[i].exec.worker.kv;
      TilesMonotone(remote, |node.kv.ring|, node.net.layers, i, i);
      assert remote[i].begin == StartOf(remote, |node.kv.ring|, i);
      var ok := remote[i].exec.Run(remote[i].begin, remote[i].end, x, n, start, toks);
      assert ok;
    }

    /** One turn of the sweep: a remote segment if one starts at `l`, else the local layer. */
    method SweepStep(l: nat, ghost done: nat, chunk: nat, x: array<Vec>, n: nat, start: nat, ghost toks: seq<Token>)
      returns (l': nat, ghost done': nat)
      requires Wired() && 0 < chunk && 0 < n <= x.Length && l < node.net.layers
      requires start + n <= node.kv.maxCtx && start + n <= |toks|
      requires SweptTo(l, done, toks, start, n) && AtLayer(x[..n], node.net, toks, l, start)
      modifies x, caches`rows, caches`seqLen
      ensures l < l' <= node.net.layers
      ensures SweptTo(l', done', toks, start, n) && AtLayer(x[..n], node.net, toks, l', start)
    {
      hide AtLayer;
      var i := NextSegment(l, done, toks, start, n);
      if i < |remote| {
        RunSegment(i, l, x, n, start, toks);
        l', done' := remote[i].end, i + 1;
      } else {
        RunLocal(l, chunk, x, n, start, toks);
        l', done' := l + 1, 0;
      }
    }

    lemma {:induction false} SweptAll(done: nat, toks: seq<Token>, start: nat, n: nat)
      requires Wired() && start + n <= |toks| && SweptTo(node.net.layers, done, toks, start, n)
      ensures AllStore(toks, start + n)
    {
      if done < |remote| {
        TilesMonotone(remote, |node.kv.ring|, node.net.layers, done, done);
      }
    }

    /** All layers over the residuals `x` of positions [start, start + n). */
    method Sweep(chunk: nat, x: array<Vec>, n: nat, start: nat, ghost toks: seq<Token>)
      requires Wired() && 0 < chunk && 0 < n <= x.Length
      requires start + n <= node.kv.maxCtx && start + n <= |toks|
      requires AtLayer(x[..n], node.net, toks, 0, start)
      requires AllServe(toks, start)
      modifies x, caches`rows, caches`seqLen
      ensures AllStore(toks, start + n) && node.kv.seqLen == start + n
      ensures AtLayer(x[..n], node.net, toks, node.net.layers, start)
    {
      var l := 0;
      ghost var done := 0;
      while l < node.net.layers
        invariant l <= node.net.layers && SweptTo(l, done, toks, start, n)
        invariant AtLayer(x[..n], node.net, toks, l, start)
      {
        l, done := SweepStep(l, done, chunk, x, n, start, toks);
      }
      SweptAll(done, toks, start, n);
      node.kv.SetSeqLen(start + n);
    }

    /** Embeds `tokens` as the residual streams of a batch at `start`. */
    method Embed(tokens: seq<Token>, start: nat, ghost toks: seq<Token>) returns (x: array<Vec>)
      requires start + |tokens| <= |toks| && toks[start..start + |tokens|] == tokens
      ensures fresh(x) && x.Length == |tokens| && AtLayer(x[..|tokens|], node.net, toks, 0, start)
    {
      x := new Vec[|tokens|];
      for i := 0 to |tokens|
        invariant forall j | 0 <= j < i :: x[j] == node.net.embed(tokens[j], start + j)
      {
        x[i] := node.net.embed(tokens[i], start + i);
      }
      forall a: nat | a < |tokens|
        ensures x[a] == Resid(node.net, toks, 0, start + a)
      {
        assert toks[start + a] == toks[start..start + |tokens|][a];
      }
    }

    lemma {:induction false} HeadOfLast(xs: seq<Vec>, toks: seq<Token>, start: nat)
      requires xs != [] && |toks| == start + |xs| && AtLayer(xs, node.net, toks, node.net.layers, start)
      ensures node.net.head(xs[|xs| - 1]) == Logits(node.net, toks)
    {
    }

    /** One token at position `pos`: every layer in turn. */
    method Forward(token: Token, pos: nat, ghost toks: seq<Token>) returns (logits: Vec)
      requires Wired() && pos < node.kv.maxCtx && |toks| == pos + 1 && toks[pos] == token
      requires AllServe(toks, pos)
      modifies caches`rows, caches`seqLen
      ensures AllStore(toks, pos + 1) && node.kv.seqLen == pos + 1
      ensures logits == Logits(node.net, toks)
    {
      assert toks[pos..pos + 1] == [token];
      var x := Embed([token], pos, toks);
      Sweep(1, x, 1, pos, toks);
      logits := node.net.head(x[..1][0]);
    }

    /** A whole batch, each layer streamed once; the logits of the last position. */
    method Prefill(tokens: seq<Token>, start: nat, ghost toks: seq<Token>) returns (logits: Vec)
      requires Wired() && 0 < |tokens| && start + |tokens| <= node.kv.maxCtx
      requires |toks| == start + |tokens| && toks[start..] == tokens
      requires AllServe(toks, start)
      modifies caches`rows, caches`seqLen
      ensures AllStore(toks, |toks|) && node.kv.seqLen == |toks|
      ensures logits == Logits(node.net, toks)
    {
      hide AllStore, AllServe, AtLayer, Logits;
      assert toks[start..start + |tokens|] == toks[start..];
      var x := Embed(tokens, start, toks);
      Sweep(prefillBatch, x, |tokens|, start, toks);
      HeadOfLast(x[..|tokens|], toks, start);
      logits := node.net.head(x[..|tokens|][|tokens| - 1]);
    }

    /** The LM head at every position of a batch. */
    method HeadEach(x: array<Vec>, n: nat, start: nat, ghost toks: seq<Token>) returns (logits: seq<Vec>)
      requires n <= x.Length && start + n <= |toks| && AtLayer(x[..n], node.net, toks, node.net.layers, start)
      ensures |logits| == n
      ensures forall i: nat | i < n :: logits[i] == Logits(node.net, toks[..start + i + 1])
    {
      logits := [];
      for i := 0 to n
        invariant |logits| == i
        invariant forall j: nat | j < i :: logits[j] == Logits(node.net, toks[..start + j + 1])
      {
        assert x[i] == x[..n][i];
        ResidCausal(node.net, toks, toks[..start + i + 1], node.net.layers, start + i);
        logits := logits + [node.net.head(x[i])];
      }
    }

    /** A batch verified at once: the logits of every position. */
    method SpecForward(tokens: seq<Token>, start: nat, ghost toks: seq<Token>) returns (logits: seq<Vec>)
      requires Wired() && remote == [] && 0 < |tokens| && start + |tokens| <= node.kv.maxCtx
      requires |toks| == start + |tokens| && toks[start..] == tokens
      requires AllServe(toks, start)
      modifies caches`rows, caches`seqLen
      ensures AllStore(toks, |toks|) && node.kv.seqLen == |toks|
      ensures |logits| == |tokens|
      ensures forall i: nat | i < |tokens| :: logits[i] == Logits(node.net, toks[..start + i + 1])
    {
      assert toks[start..start + |tokens|] == toks[start..];
      var x := Embed(tokens, start, toks);
      Sweep(32, x, |tokens|, start, toks);
      logits := HeadEach(x, |tokens|, start, toks);
    }
  }
}
