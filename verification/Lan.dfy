/** Splitting the layers of one model over several machines. */
module Lan {
  import opened Network
  import opened KvCaching
  import opened Nodes

  // ---- the list of workers ------------------------------------------------------

  /** One `host:port:A-B` entry; the worker runs layers [begin, end). */
  datatype NodeSpec = NodeSpec(port: int, begin: int, end: int)

  datatype Option<T> = None | Some(value: T)

  predicate EntryOk(n: NodeSpec) {
    0 < n.port < 65536 && 0 <= n.begin < n.end
  }

  /** Each range starts where the one before it ends. */
  predicate Contiguous(ns: seq<NodeSpec>) {
    forall i | 0 <= i < |ns| - 1 :: ns[i + 1].begin == ns[i].end
  }

  function InsertByBegin(n: NodeSpec, ns: seq<NodeSpec>): (r: seq<NodeSpec>)
    ensures multiset(r) == multiset(ns) + multiset{n}
  {
    if ns == [] || n.begin <= ns[0].begin then [n] + ns
    else
      assert ns == [ns[0]] + ns[1..];
      [ns[0]] + InsertByBegin(n, ns[1..])
  }

  function SortByBegin(ns: seq<NodeSpec>): (r: seq<NodeSpec>)
    ensures multiset(r) == multiset(ns)
  {
    if ns == [] then []
    else
      assert ns == [ns[0]] + ns[1..];
      InsertByBegin(ns[0], SortByBegin(ns[1..]))
  }

  /** The checks of the `--nodes` parser over its already split entries. */
  method ParseNodes(items: seq<NodeSpec>) returns (out: Option<seq<NodeSpec>>)
    ensures out.Some? <==> items != [] && (forall n :: n in items ==> EntryOk(n)) && Contiguous(SortByBegin(items))
    ensures out.Some? ==> out.value == SortByBegin(items)
  {
    for i := 0 to |items|
      invariant forall n :: n in items[..i] ==> EntryOk(n)
    {
      if !EntryOk(items[i]) {
        assert items[i] in items;
        return None;
      }
    }
    assert items[..|items|] == items;
    if items == [] {
      return None;
    }
    var sorted := SortByBegin(items);
    for i := 1 to |sorted|
      invariant forall j | 0 <= j < i - 1 :: sorted[j + 1].begin == sorted[j].end
    {
      if sorted[i].begin != sorted[i - 1].end {
        assert sorted[(i - 1) + 1].begin != sorted[i - 1].end;
        return None;
      }
    }
    out := Some(sorted);
  }

  predicate Ascending(ns: seq<NodeSpec>) {
    forall i, j | 0 <= i < j < |ns| :: ns[i].begin <= ns[j].begin
  }

  lemma {:induction false} InsertSorts(n: NodeSpec, ns: seq<NodeSpec>)
    requires Ascending(ns)
    ensures Ascending(InsertByBegin(n, ns))
  {
    var r := InsertByBegin(n, ns);
    if ns == [] || n.begin <= ns[0].begin {
      assert r == [n] + ns;
      assert forall j | 0 < j < |r| :: r[j] == ns[j - 1];
    } else {
      InsertSorts(n, ns[1..]);
      var t := InsertByBegin(n, ns[1..]);
      assert r == [ns[0]] + t;
      forall j | 0 <= j < |t|
        ensures ns[0].begin <= t[j].begin
      {
        assert t[j] in multiset(t);
        assert t[j] == n || t[j] in ns[1..];
      }
      assert forall j | 0 < j < |r| :: r[j] == t[j - 1];
    }
  }

  lemma {:induction false} SortSorts(ns: seq<NodeSpec>)
    ensures Ascending(SortByBegin(ns))
  {
    if ns != [] {
      SortSorts(ns[1..]);
      InsertSorts(ns[0], SortByBegin(ns[1..]));
    }
  }

  /** A chain of non-empty ranges is strictly increasing. */
  lemma {:induction false} ChainIncreases(ns: seq<NodeSpec>, i: nat, j: nat)
    requires Contiguous(ns) && (forall n :: n in ns ==> EntryOk(n)) && i < j < |ns|
    ensures ns[i].end <= ns[j].begin
    decreases j
  {
    assert ns[(j - 1) + 1].begin == ns[j - 1].end;
    if i < j - 1 {
      assert ns[j - 1] in ns;
      ChainIncreases(ns, i, j - 1);
    }
  }

  /** The entries are accepted in whatever order they are written, and exactly when some
      order of them is a chain of ranges. */
  lemma {:induction false} AcceptedIffChain(items: seq<NodeSpec>, chain: seq<NodeSpec>)
    requires multiset(chain) == multiset(items) && (forall n :: n in items ==> EntryOk(n))
    requires Contiguous(chain)
    ensures SortByBegin(items) == chain
  {
    SortSorts(items);
    forall n | n in chain
      ensures EntryOk(n)
    {
      assert n in multiset(chain);
      assert n in items;
    }
    forall i, j | 0 <= i < j < |chain|
      ensures chain[i].begin < chain[j].begin
    {
      ChainIncreases(chain, i, j);
      assert chain[i] in chain;
    }
    SameWhenSorted(SortByBegin(items), chain);
  }

  /** The first of an ascending list is the first of any strict arrangement of it. */
  lemma {:induction false} SameFirst(a: seq<NodeSpec>, b: seq<NodeSpec>)
    requires a != [] && b != [] && multiset(a) == multiset(b) && Ascending(a)
    requires forall i, j | 0 <= i < j < |b| :: b[i].begin < b[j].begin
    ensures a[0] == b[0]
  {
    assert a[0] in multiset(b) && b[0] in multiset(a);
    var i :| 0 <= i < |b| && b[i] == a[0];
    var j :| 0 <= j < |a| && a[j] == b[0];
    assert j == 0 || a[0].begin <= a[j].begin;
  }

  lemma {:induction false} AscendingTail(a: seq<NodeSpec>)
    requires Ascending(a) && a != []
    ensures Ascending(a[1..])
  {
    var t := a[1..];
    forall i, j | 0 <= i < j < |t|
      ensures t[i].begin <= t[j].begin
    {
      assert a[i + 1].begin <= a[j + 1].begin;
    }
  }

  /** One multiset has only one strictly increasing arrangement. */
  lemma {:induction false} SameWhenSorted(a: seq<NodeSpec>, b: seq<NodeSpec>)
    requires multiset(a) == multiset(b) && Ascending(a)
    requires forall i, j | 0 <= i < j < |b| :: b[i].begin < b[j].begin
    ensures a == b
  {
    hide Ascending;
    assert |multiset(a)| == |a| && |multiset(b)| == |b|;
    if a != [] {
      SameFirst(a, b);
      var ta, tb := a[1..], b[1..];
      assert a == [a[0]] + ta && b == [b[0]] + tb;
      assert multiset(ta) == multiset(a) - multiset{a[0]};
      assert multiset(tb) == multiset(b) - multiset{b[0]};
      AscendingTail(a);
      forall i, j | 0 <= i < j < |tb|
        ensures tb[i].begin < tb[j].begin
      {
        assert b[i + 1].begin < b[j + 1].begin;
      }
      SameWhenSorted(ta, tb);
    }
  }

  // ---- request and reply ---------------------------------------------------------

  /** A worker's answer to RUN: refused unless it asks for exactly this worker's layers and
      for at least one position, all inside the context window. */
  method ServeRun(node: Node, begin: nat, end: nat, start: nat, body: seq<Vec>, ghost toks: seq<Token>)
    returns (reply: Option<seq<Vec>>)
    requires node.Valid() && 0 < |node.kv.ring| && start + |body| <= |toks|
    requires begin == node.kv.base ==> AtLayer(body, node.net, toks, begin, start)
    requires Serves(node.kv, node.net, toks, start)
    modifies node.kv`rows, node.kv`seqLen
    ensures reply.Some? <==> begin == node.kv.base && end == node.kv.base + |node.kv.ring| && |body| > 0
                             && start + |body| <= node.kv.maxCtx
    ensures reply.Some? ==> |reply.value| == |body| && AtLayer(reply.value, node.net, toks, end, start)
                            && Stores(node.kv, node.net, toks, start + |body|)
    ensures reply.None? ==> unchanged(node.kv)
  {
    if begin != node.kv.base || end != node.kv.base + |node.kv.ring| || |body| == 0 || start + |body| > node.kv.maxCtx {
      return None;
    }
    var resid := new Vec[|body|];
    for i := 0 to |body|
      modifies resid
      invariant resid[..i] == body[..i]
    {
      resid[i] := body[i];
    }
    assert resid[..|body|] == body;
    node.RunLayers(begin, end, resid, |body|, start, toks);
    reply := Some(resid[..|body|]);
  }

  /** The coordinator's side of one worker. */
  class RemoteExecutor {
    const begin: nat
    const end: nat
    const worker: Node

    constructor (begin: nat, end: nat, worker: Node)
      ensures this.begin == begin && this.end == end && this.worker == worker
    {
      this.begin, this.end, this.worker := begin, end, worker;
    }

    /** Sends the residuals, stores the reply over them. */
    method Run(begin: nat, end: nat, x: array<Vec>, n: nat, start: nat, ghost toks: seq<Token>)
      returns (ok: bool)
      requires worker.Valid() && 0 < |worker.kv.ring| && 0 < n <= x.Length && start + n <= |toks|
      requires this.begin == worker.kv.base && this.end == worker.kv.base + |worker.kv.ring|
      requires begin == this.begin ==> AtLayer(x[..n], worker.net, toks, begin, start)
      requires Serves(worker.kv, worker.net, toks, start)
      modifies x, worker.kv`rows, worker.kv`seqLen
      ensures ok <==> begin == this.begin && end == this.end && start + n <= worker.kv.maxCtx
      ensures ok ==> AtLayer(x[..n], worker.net, toks, end, start) && Stores(worker.kv, worker.net, toks, start + n)
      ensures !ok ==> unchanged(x) && unchanged(worker.kv)
    {
      if begin != this.begin || end != this.end {
        return false;
      }
      var reply := ServeRun(worker, begin, end, start, x[..n], toks);
      if reply.None? {
        return false;
      }
      for i := 0 to n
        modifies x
        invariant x[..i] == reply.value[..i]
      {
        x[i] := reply.value[i];
      }
      assert x[..n] == reply.value;
      ok := true;
    }
  }
}
