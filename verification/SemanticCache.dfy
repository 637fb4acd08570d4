/** The semantic cache: a radix tree of KV blocks with an LRU list and a byte budget. */
module SemanticCaching {
  import opened Arithmetic
  import opened Network
  import opened KvBlocks

  /** Which half of a row a block stores. */
  datatype Side = Key | Value

  function Half(r: Row, s: Side): Vec {
    if s == Key then r.k else r.v
  }

  /** The last `len` tokens of `path` have their vectors in `blk`, for every layer: cell
      (layer, j) belongs to the prefix that ends with the j-th of them. */
  ghost predicate Agrees(blk: seq<Vec>, layers: nat, path: seq<Token>, len: nat,
                         rowOf: (seq<Token>, nat) -> Row, s: Side)
    requires len <= |path|
  {
    && |blk| == layers * len
    && forall l: nat, j: nat | l < layers && j < len ::
         Cell(blk, len, l, j) == Half(rowOf(path[..|path| - len + j + 1], l), s)
  }

  /** The head of a split edge keeps the vectors of its positions. */
  lemma {:induction false} HeadAgrees(blk: seq<Vec>, layers: nat, path: seq<Token>, len: nat, m: nat,
                   rowOf: (seq<Token>, nat) -> Row, s: Side)
    requires m <= len <= |path| && Agrees(blk, layers, path, len, rowOf, s)
    ensures Agrees(Columns(blk, layers, len, 0, m), layers, path[..|path| - len + m], m, rowOf, s)
  {
    var p' := path[..|path| - len + m];
    forall l: nat, j: nat | l < layers && j < m
      ensures Cell(Columns(blk, layers, len, 0, m), m, l, j) == Half(rowOf(p'[..|p'| - m + j + 1], l), s)
    {
      ColumnsCell(blk, layers, len, 0, m, l, j);
      assert p'[..|p'| - m + j + 1] == path[..|path| - len + j + 1];
    }
  }

  /** So does its tail. */
  lemma {:induction false} TailAgrees(blk: seq<Vec>, layers: nat, path: seq<Token>, len: nat, m: nat,
                   rowOf: (seq<Token>, nat) -> Row, s: Side)
    requires m <= len <= |path| && Agrees(blk, layers, path, len, rowOf, s)
    ensures Agrees(Columns(blk, layers, len, m, len), layers, path, len - m, rowOf, s)
  {
    var d := len - m;
    forall l: nat, j: nat | l < layers && j < d
      ensures Cell(Columns(blk, layers, len, m, len), d, l, j) == Half(rowOf(path[..|path| - d + j + 1], l), s)
    {
      ColumnsCell(blk, layers, len, m, len, l, j);
    }
  }

  /** The vector cached for position `p` of `toks`: it depends on the tokens up to and
      including `p`. */
  function Wanted(rowOf: (seq<Token>, nat) -> Row, toks: seq<Token>, p: nat, l: nat, s: Side): Vec
    requires p < |toks|
  {
    Half(rowOf(toks[..p + 1], l), s)
  }

  /** One layer of a staging block of `len` positions holds the rows of the first `upto`
      prefixes of `toks`. */
  ghost predicate LayerStaged(blk: seq<Vec>, len: nat, l: nat, toks: seq<Token>, upto: nat,
                              rowOf: (seq<Token>, nat) -> Row, s: Side)
    requires upto <= |toks|
  {
    forall p: nat | p < upto :: Cell(blk, len, l, p) == Wanted(rowOf, toks, p, l, s)
  }

  /** A staging block in which `done` layers have been extended from `lo` to `hi` positions. */
  ghost predicate LayersStaged(blk: seq<Vec>, len: nat, layers: nat, toks: seq<Token>, done: nat, lo: nat, hi: nat,
                               rowOf: (seq<Token>, nat) -> Row, s: Side)
    requires lo <= hi <= |toks|
  {
    && (forall l: nat | l < layers && l < done :: LayerStaged(blk, len, l, toks, hi, rowOf, s))
    && (forall l: nat | done <= l < layers :: LayerStaged(blk, len, l, toks, lo, rowOf, s))
  }

  /** Pasting an edge's vectors behind the staged ones extends that layer and keeps the others. */
  lemma {:induction false} PasteStages(blk: seq<Vec>, layers: nat, len: nat, layer: nat, from: nat, src: seq<Vec>,
                    toks: seq<Token>, rowOf: (seq<Token>, nat) -> Row, s: Side)
    requires |blk| == layers * len && layer < layers && from + |src| <= len <= |toks|
    requires layer * len + from + |src| <= |blk|
    requires LayersStaged(blk, len, layers, toks, layer, from, from + |src|, rowOf, s)
    requires forall p: nat | from <= p < from + |src| :: src[p - from] == Wanted(rowOf, toks, p, layer, s)
    ensures LayersStaged(Paste(blk, layer * len + from, src), len, layers, toks, layer + 1, from, from + |src|, rowOf, s)
  {
    var r := Paste(blk, layer * len + from, src);
    forall l: nat, p: nat | l < layers && p < if l <= layer then from + |src| else from
      ensures Cell(r, len, l, p) == Wanted(rowOf, toks, p, l, s)
    {
      if l < layer {
        assert LayerStaged(blk, len, l, toks, from + |src|, rowOf, s);
      } else {
        assert LayerStaged(blk, len, l, toks, from, rowOf, s);
      }
      PasteCell(blk, layers, len, layer, from, src, l, p);
    }
  }

  /** A block staged to its full length agrees with the prompt. */
  lemma {:induction false} StagedAgrees(blk: seq<Vec>, layers: nat, toks: seq<Token>, len: nat,
                     rowOf: (seq<Token>, nat) -> Row, s: Side)
    requires len <= |toks| && |blk| == layers * len
    requires LayersStaged(blk, len, layers, toks, 0, len, len, rowOf, s)
    ensures Agrees(blk, layers, toks[..len], len, rowOf, s)
  {
    forall l: nat, j: nat | l < layers && j < len
      ensures Cell(blk, len, l, j) == Half(rowOf(toks[..len][..j + 1], l), s)
    {
      assert toks[..len][..j + 1] == toks[..j + 1];
      assert LayerStaged(blk, len, l, toks, len, rowOf, s);
      assert Cell(blk, len, l, j) == Wanted(rowOf, toks, j, l, s);
    }
  }

  class RadixNode {
    var prefix: seq<Token>
    var children: map<Token, RadixNode>
    var kBlock: seq<Vec>
    var vBlock: seq<Vec>
    var inLru: bool
    var parent: RadixNode?
    ghost var path: seq<Token>   // the tokens from the root to the end of this edge

    constructor (prefix: seq<Token>, kBlock: seq<Vec>, vBlock: seq<Vec>, parent: RadixNode?,
                 children: map<Token, RadixNode>, ghost path: seq<Token>)
      ensures this.prefix == prefix && this.kBlock == kBlock && this.vBlock == vBlock
      ensures this.parent == parent && this.children == children && this.path == path && !inLru
    {
      this.prefix, this.kBlock, this.vBlock, this.parent := prefix, kBlock, vBlock, parent;
      this.children, this.path, inLru := children, path, false;
    }

    function Bytes(kvDim: nat): nat
      reads this`prefix, this`kBlock, this`vBlock
    {
      (|kBlock| + |vBlock|) * kvDim * 4 + |prefix| * 8
    }
  }

  /** One matched edge of a lookup: the prompt position it starts at and how many of its
      tokens matched. */
  datatype Visit = Visit(node: RadixNode, start: nat, slice: nat)

  /** Where the `k`-th visit starts: at the end of the one before it. */
  ghost function TrailEnd(visits: seq<Visit>, k: nat): nat
    requires k <= |visits|
  {
    if k == 0 then 0 else visits[k - 1].start + visits[k - 1].slice
  }

  /** The list without its element `i`. */
  function Drop<T>(s: seq<T>, i: nat): seq<T>
    requires i < |s|
  {
    s[..i] + s[i + 1..]
  }

  lemma {:induction false} MultisetDrop<T>(s: seq<T>, i: nat)
    requires i < |s|
    ensures multiset(s) == multiset(Drop(s, i)) + multiset{s[i]}
  {
    assert s == s[..i] + ([s[i]] + s[i + 1..]);
  }

  predicate Distinct<T(==)>(s: seq<T>) {
    forall i, j | 0 <= i < j < |s| :: s[i] != s[j]
  }

  lemma {:induction false} SetListed<T>(s: seq<T>, t: set<T>)
    requires multiset(s) == multiset(t)
    ensures Distinct(s)
  {
    forall i, j | 0 <= i < j < |s|
      ensures s[i] != s[j]
    {
      assert s == s[..j] + s[j..];
      assert s[i] in multiset(s[..j]) && s[j] in multiset(s[j..]);
      assert multiset(s)[s[j]] <= 1;
    }
  }

  /** `s` is `t` without some of its elements; `at` says where the others were. */
  ghost predicate Picks<T>(s: seq<T>, t: seq<T>, at: seq<nat>) {
    && |at| == |s| && (forall i, j | 0 <= i < j < |at| :: at[i] < at[j])
    && forall i | 0 <= i < |s| :: at[i] < |t| && s[i] == t[at[i]]
  }

  /** The list without the elements of `u`, in its order. */
  function Others<T(==)>(s: seq<T>, u: seq<T>): seq<T> {
    if s == [] then [] else Unless(s[0], u) + Others(s[1..], u)
  }

  function Unless<T(==)>(e: T, u: seq<T>): seq<T> {
    if e in u then [] else [e]
  }

  lemma {:induction false} Associate<T>(a: seq<T>, b: seq<T>, c: seq<T>)
    ensures (a + b) + c == a + (b + c)
  {
  }

  lemma {:induction false} OthersJoin<T>(a: seq<T>, b: seq<T>, u: seq<T>)
    ensures Others(a + b, u) == Others(a, u) + Others(b, u)
  {
    if a == [] {
      assert a + b == b;
    } else {
      OthersJoin(a[1..], b, u);
      assert (a + b)[0] == a[0] && (a + b)[1..] == a[1..] + b;
      Associate(Unless(a[0], u), Others(a[1..], u), Others(b, u));
    }
  }

  lemma {:induction false} OthersAll<T>(s: seq<T>, u: seq<T>)
    requires forall e | e in s :: e !in u
    ensures Others(s, u) == s
  {
    if s != [] {
      OthersAll(s[1..], u);
      assert s == [s[0]] + s[1..];
    }
  }

  lemma {:induction false} OthersOne<T>(x: T, u: seq<T>, e: T)
    ensures Others(Unless(x, u), [e]) == Unless(x, [e] + u)
  {
    assert x in [e] + u <==> x == e || x in u;
    assert x !in u ==> [x][1..] == [] && Others([x][1..], [e]) == [];
  }

  lemma {:induction false} OthersTwice<T>(s: seq<T>, u: seq<T>, e: T)
    ensures Others(Others(s, u), [e]) == Others(s, [e] + u)
  {
    if s != [] {
      OthersTwice(s[1..], u, e);
      OthersJoin(Unless(s[0], u), Others(s[1..], u), [e]);
      OthersOne(s[0], u, e);
    }
  }

  lemma {:induction false} OthersFirst<T>(e: T, b: seq<T>)
    requires e !in b
    ensures Others([e] + b, [e]) == b
  {
    assert ([e] + b)[0] == e && ([e] + b)[1..] == b;
    OthersAll(b, [e]);
  }

  lemma {:induction false} OthersBut<T>(a: seq<T>, e: T, b: seq<T>)
    requires e !in a && e !in b
    ensures Others(a + ([e] + b), [e]) == a + b
  {
    hide Others;
    OthersJoin(a, [e] + b, [e]);
    OthersAll(a, [e]);
    OthersFirst(e, b);
  }

  lemma {:induction false} DropIsOthers<T>(s: seq<T>, i: nat)
    requires Distinct(s) && i < |s|
    ensures Drop(s, i) == Others(s, [s[i]])
  {
    var e, a, b := s[i], s[..i], s[i + 1..];
    assert e !in a && e !in b;
    hide Distinct, Others;
    assert s == a + ([e] + b);
    OthersBut(a, e, b);
  }

  /** Bringing one more element to the front. */
  lemma {:induction false} FrontOneMore<T>(was: seq<T>, used: seq<T>, e: T)
    requires e !in used
    ensures [e] + Others(used + Others(was, used), [e]) == ([e] + used) + Others(was, [e] + used)
  {
    OthersJoin(used, Others(was, used), [e]);
    OthersAll(used, [e]);
    OthersTwice(was, used, e);
  }

  /** Putting a new element to the front. */
  lemma {:induction false} FrontNew<T>(was: seq<T>, used: seq<T>, e: T)
    requires e !in was
    ensures [e] + (used + Others(was, used)) == ([e] + used) + Others(was, [e] + used)
  {
    OthersTwice(was, used, e);
    OthersWithin(was, used);
    OthersAll(Others(was, used), [e]);
  }

  lemma {:induction false} OthersWithin<T>(s: seq<T>, u: seq<T>)
    ensures forall e | e in Others(s, u) :: e in s
  {
    if s != [] {
      OthersWithin(s[1..], u);
    }
  }

  /** The edges in which the prefixes of `q` end, the deepest first and each once. */
  ghost function Edges(c: map<seq<Token>, RadixNode>, q: seq<Token>): (r: seq<RadixNode>)
    ensures forall n | n in r :: exists j: nat :: 0 < j <= |q| && q[..j] in c && c[q[..j]] == n
  {
    if q == [] then []
    else
      var init := q[..|q| - 1];
      var up := Edges(c, init);
      assert q[..|q|] == q && forall j: nat | j <= |init| :: init[..j] == q[..j];
      if q !in c || (up != [] && up[0] == c[q]) then up else [c[q]] + up
  }

  /** The edges of `toks` in front, the deepest first, and the others in their order. */
  ghost function Fronted(was: seq<RadixNode>, c: map<seq<Token>, RadixNode>, toks: seq<Token>): seq<RadixNode> {
    Edges(c, toks) + Others(was, Edges(c, toks))
  }

  /** Further prefixes that all end in one more edge. */
  lemma {:induction false} EdgesGrow(c: map<seq<Token>, RadixNode>, toks: seq<Token>, i: nat, m: nat, e: RadixNode)
    requires 0 < m && i + m <= |toks|
    requires forall j: nat | i < j <= i + m :: toks[..j] in c && c[toks[..j]] == e
    requires forall j: nat | 0 < j <= i && toks[..j] in c :: c[toks[..j]] != e
    ensures Edges(c, toks[..i + m]) == [e] + Edges(c, toks[..i])
    ensures e !in Edges(c, toks[..i])
  {
    var q := toks[..i + m];
    assert q[..|q| - 1] == toks[..i + m - 1];
    assert forall j: nat | j <= i :: toks[..i][..j] == toks[..j];
    if m > 1 {
      EdgesGrow(c, toks, i, m - 1, e);
    } else {
      assert q in c && c[q] == e && e !in Edges(c, toks[..i]);
    }
  }

  /** The edges depend on where the prefixes of `q` end only. */
  lemma {:induction false} EdgesSame(c: map<seq<Token>, RadixNode>, d: map<seq<Token>, RadixNode>, q: seq<Token>)
    requires forall j: nat | 0 < j <= |q| :: (q[..j] in c <==> q[..j] in d) && (q[..j] in c ==> c[q[..j]] == d[q[..j]])
    ensures Edges(c, q) == Edges(d, q)
  {
    if q != [] {
      var init := q[..|q| - 1];
      assert q[..|q|] == q && forall j: nat | j <= |init| :: init[..j] == q[..j];
      EdgesSame(c, d, init);
    }
  }

  /** The prefixes of `path` that are longer than `from` and at most `to` tokens long. */
  ghost function Ends(path: seq<Token>, from: nat, to: nat): set<seq<Token>>
    requires from <= to <= |path|
  {
    set j: nat | from < j <= to :: path[..j]
  }

  lemma {:induction false} EndsCount(path: seq<Token>, from: nat, to: nat)
    requires from <= to <= |path|
    ensures |Ends(path, from, to)| == to - from
  {
    if from == to {
      assert Ends(path, from, to) == {};
    } else {
      EndsCount(path, from, to - 1);
      assert Ends(path, from, to) == Ends(path, from, to - 1) + {path[..to]};
      assert forall j: nat | j < to :: |path[..j]| != |path[..to]|;
    }
  }

  lemma {:induction false} SubsetCount<T>(s: set<T>, t: set<T>)
    requires s <= t
    ensures |t - s| == |t| - |s|
  {
    assert t == s + (t - s);
  }

  /** What the nodes of a list cost together. */
  ghost function SumBytes(s: seq<RadixNode>, kvDim: nat): nat
    reads s`prefix, s`kBlock, s`vBlock
  {
    if s == [] then 0 else s[0].Bytes(kvDim) + SumBytes(s[1..], kvDim)
  }

  /** An edge that stores `len` tokens costs `len` times the same number of bytes. */
  lemma {:induction false} EdgeBytes(node: RadixNode, layers: nat, kvDim: nat)
    requires |node.kBlock| == layers * |node.prefix| && |node.vBlock| == layers * |node.prefix|
    ensures node.Bytes(kvDim) == |node.prefix| * (layers * kvDim * 8 + 8)
  {
    var len := |node.prefix|;
    assert (layers * len + layers * len) * kvDim * 4 == len * (layers * kvDim * 8);
  }

  class SemanticCache {
    const maxBytes: nat
    const nLayers: nat
    const kvDim: nat
    const root: RadixNode
    var lru: seq<RadixNode>            // front = most recently used
    var currentBytes: nat
    ghost const rowOf: (seq<Token>, nat) -> Row
    ghost var nodes: set<RadixNode>
    ghost var cover: map<seq<Token>, RadixNode>   // every stored prefix, and the edge it ends in

    /** The node hangs below its parent under the first token of its edge. */
    ghost predicate Hangs(n: RadixNode)
      reads this`nodes, nodes`prefix, nodes`children, nodes`parent, nodes`path
    {
      && n in nodes
      && n.prefix != [] && n.parent != null && n.parent in nodes
      && n.path == n.parent.path + n.prefix
      && n.prefix[0] in n.parent.children && n.parent.children[n.prefix[0]] == n
    }

    /** The node's child under `t` is a node whose edge starts with `t`. */
    ghost predicate Holds(n: RadixNode, t: Token)
      reads this`nodes, nodes`prefix, nodes`children, nodes`parent
    {
      && n in nodes && t in n.children
      && n.children[t] in nodes && n.children[t] != root
      && n.children[t].parent == n && n.children[t].prefix != [] && n.children[t].prefix[0] == t
    }

    ghost predicate Linked()
      reads this`nodes, nodes`prefix, nodes`children, nodes`parent, nodes`path
    {
      && root in nodes && root.prefix == [] && root.path == [] && root.parent == null
      && (forall n {:trigger Hangs(n)} | n in nodes && n != root :: Hangs(n))
      && (forall n, t {:trigger Holds(n, t)} | n in nodes && t in n.children :: Holds(n, t))
    }

    /** The stored prefix `q` ends inside the edge recorded for it. */
    ghost predicate EndsIn(q: seq<Token>)
      reads this`nodes, this`cover, nodes`prefix, nodes`path
    {
      && q in cover && cover[q] in nodes && cover[q] != root
      && var n := cover[q];
      && |n.path| - |n.prefix| < |q| <= |n.path| && q == n.path[..|q|]
    }

    /** The prefix that ends at position `m` of the edge `n` is stored there. */
    ghost predicate Stores(n: RadixNode, m: nat)
      reads this`nodes, this`cover, nodes`prefix, nodes`path
    {
      n in nodes && m <= |n.path| && n.path[..m] in cover && cover[n.path[..m]] == n
    }

    /** The stored prefixes are exactly the ends of positions inside edges. */
    ghost predicate Covered()
      reads this`nodes, this`cover, nodes`prefix, nodes`path
    {
      && (forall q {:trigger EndsIn(q)} | q in cover :: EndsIn(q))
      && (forall n, m: nat {:trigger Stores(n, m)}
            | n in nodes && n != root && |n.path| < |n.prefix| + m && m <= |n.path| :: Stores(n, m))
    }

    /** The node's blocks hold the rows of its positions. */
    ghost predicate Stocks(n: RadixNode)
      reads n`prefix, n`path, n`kBlock, n`vBlock
    {
      && |n.prefix| <= |n.path|
      && Agrees(n.kBlock, nLayers, n.path, |n.prefix|, rowOf, Key)
      && Agrees(n.vBlock, nLayers, n.path, |n.prefix|, rowOf, Value)
    }

    ghost predicate Stocked()
      reads this`nodes, nodes`prefix, nodes`path, nodes`kBlock, nodes`vBlock
    {
      forall n {:trigger Stocks(n)} | n in nodes :: Stocks(n)
    }

    /** What one stored token costs: its vectors in every layer, and its id. */
    function TokenBytes(): nat {
      nLayers * kvDim * 8 + 8
    }

    /** The use list holds every node once, except the root and `x`. */
    ghost predicate ListedBut(x: RadixNode)
      reads this`lru, this`nodes, nodes`inLru
    {
      && (forall n | n in lru :: n in nodes)
      && multiset(lru) == multiset(nodes - {root, x})
      && (forall n | n in nodes :: n.inLru <==> n != root && n != x)
    }

    ghost predicate Listed()
      reads this`lru, this`nodes, nodes`inLru
    {
      ListedBut(root)
    }

    /** The byte count is what the stored prefixes cost. */
    ghost predicate Counted()
      reads this`currentBytes, this`cover
    {
      currentBytes == |cover| * TokenBytes()
    }

    /** Everything a lookup leaves untouched. */
    ghost predicate Intact()
      reads this`nodes, this`cover, this`currentBytes
      reads nodes`prefix, nodes`children, nodes`parent, nodes`path, nodes`kBlock, nodes`vBlock
    {
      Linked() && Covered() && Stocked() && Counted()
    }

    ghost predicate Valid()
      reads this`lru, this`nodes, this`cover, this`currentBytes
      reads nodes`prefix, nodes`children, nodes`parent, nodes`path, nodes`kBlock, nodes`vBlock, nodes`inLru
    {
      Intact() && Listed()
    }

    constructor (maxBytes: nat, nLayers: nat, kvDim: nat, ghost rowOf: (seq<Token>, nat) -> Row)
      ensures Valid() && fresh(nodes)
      ensures this.maxBytes == maxBytes && this.nLayers == nLayers && this.kvDim == kvDim
      ensures this.rowOf == rowOf && cover == map[] && currentBytes == 0
    {
      this.maxBytes, this.nLayers, this.kvDim, this.rowOf := maxBytes, nLayers, kvDim, rowOf;
      var r := new RadixNode([], [], [], null, map[], []);
      root, lru, currentBytes := r, [], 0;
      nodes, cover := {r}, map[];
      new;
      Blank();
    }

    lemma {:induction false} Blank()
      requires nodes == {root} && lru == [] && cover == map[] && currentBytes == 0
      requires root.prefix == root.path == [] && root.parent == null && root.children == map[] && !root.inLru
      requires root.kBlock == root.vBlock == []
      ensures Valid()
    {
    }

    // ---- what the links say about the stored prefixes ------------------------------

    lemma {:induction false} EmptyPathIsRoot(n: RadixNode)
      requires Linked() && n in nodes && n.path == []
      ensures n == root
    {
      assert n != root ==> Hangs(n);
    }

    /** A node whose path is a stored prefix is the edge that prefix ends in. */
    lemma {:induction false} CoverOfPath(n: RadixNode)
      requires Linked() && Covered() && n in nodes && n != root
      ensures n.path in cover && cover[n.path] == n
    {
      assert Hangs(n) && Stores(n, |n.path|) && n.path[..|n.path|] == n.path;
    }

    /** The edge a stored prefix one longer than `n`'s path ends in is a child of `n`. */
    lemma {:induction false} NextStored(n: RadixNode, q: seq<Token>)
      requires Linked() && Covered() && n in nodes && q in cover
      requires |q| == |n.path| + 1 && q[..|n.path|] == n.path
      ensures q[|n.path|] in n.children
    {
      var i := |n.path|;
      assert EndsIn(q);
      var d := cover[q];
      var start := |d.path| - |d.prefix|;
      if n != root {
        CoverOfPath(n);
      }
      assert Hangs(d);
      assert d.path[..i] == n.path;
      assert start < i ==> Stores(d, i);
      assert start == i;
      assert d.parent.path == d.path[..i] == n.path;
      if d.parent.path == [] {
        EmptyPathIsRoot(d.parent);
        EmptyPathIsRoot(n);
      } else {
        CoverOfPath(d.parent);
      }
      assert d.parent == n && d.prefix[0] == q[i];
    }

    /** Inside an edge the only stored continuation is the edge's own. */
    lemma {:induction false} InsideEdge(c: RadixNode, m: nat, q: seq<Token>)
      requires Linked() && Covered() && c in nodes && c != root && q in cover
      requires |c.path| - |c.prefix| < m < |c.path| && |q| == m + 1 && q[..m] == c.path[..m]
      ensures q == c.path[..m + 1]
    {
      assert EndsIn(q);
      var d := cover[q];
      var start := |d.path| - |d.prefix|;
      assert Hangs(d) && Hangs(c) && Stores(c, m);
      if start < m {
        assert d.path[..m] == q[..m];
        assert Stores(d, m);
      } else {
        assert d.parent.path == d.path[..m] == c.path[..m];
        CoverOfPath(d.parent);
      }
    }

    lemma {:induction false} ValidIs()
      requires Valid()
      ensures Intact() && Linked() && Covered() && Stocked() && Counted() && Listed()
      ensures forall n | n in lru :: n in nodes
    {
    }

    lemma {:induction false} IsValid()
      requires Intact() && Listed()
      ensures Valid()
    {
    }

    // ---- use order -----------------------------------------------------------------

    /** The list `now` is `was` without one occurrence of the node. */
    static ghost predicate Without(was: seq<RadixNode>, now: seq<RadixNode>, node: RadixNode) {
      exists i: nat :: i < |was| && was[i] == node && now == Drop(was, i)
    }

    /** Takes a node out of the list. */
    method Erase(node: RadixNode)
      requires node in lru
      modifies this`lru
      ensures Without(old(lru), lru, node)
      ensures old(multiset(lru)) == multiset(lru) + multiset{node}
    {
      var i := 0;
      while lru[i] != node
        invariant i < |lru| && node !in lru[..i]
        decreases |lru| - i
      {
        i := i + 1;
      }
      MultisetDrop(lru, i);
      lru := Drop(lru, i);
    }

    /** Moves a node to the front of the list, or puts it there. */
    method MarkUsed(node: RadixNode)
      requires node != root && (node.inLru ==> node in lru)
      modifies this`lru, node`inLru
      ensures node.inLru && lru != [] && lru[0] == node
      ensures if old(node.inLru) then Without(old(lru), lru[1..], node)
              else lru[1..] == old(lru)
      ensures multiset(lru) == old(multiset(lru)) + if old(node.inLru) then multiset{} else multiset{node}
    {
      if node.inLru {
        Erase(node);
      }
      lru := [node] + lru;
      node.inLru := true;
    }

    // ---- lookup --------------------------------------------------------------------

    /** How many tokens of `child`'s edge agree with toks[i..]. */
    method MatchEdge(child: RadixNode, toks: seq<Token>, i: nat) returns (m: nat)
      requires i < |toks| && child.prefix != [] && child.prefix[0] == toks[i]
      ensures 0 < m <= |child.prefix| && i + m <= |toks| && child.prefix[..m] == toks[i..i + m]
      ensures m == |child.prefix| || i + m == |toks| || child.prefix[m] != toks[i + m]
    {
      m := 0;
      while m < |child.prefix| && i + m < |toks| && child.prefix[m] == toks[i + m]
        invariant m <= |child.prefix| && i + m <= |toks|
        invariant child.prefix[..m] == toks[i..i + m]
      {
        m := m + 1;
      }
    }

    /** The visit reads `slice` tokens of `toks` from the head of a stored edge. */
    ghost predicate VisitOk(v: Visit, toks: seq<Token>)
      reads this`nodes, nodes`prefix, nodes`path
    {
      && v.node in nodes && v.node != root
      && 0 < v.slice <= |v.node.prefix| && |v.node.path| == v.start + |v.node.prefix|
      && v.start + v.slice <= |toks|
      && v.node.path[..v.start + v.slice] == toks[..v.start + v.slice]
    }

    /** The visits are consecutive and cover the first `upto` tokens of `toks`. */
    ghost predicate Trail(visits: seq<Visit>, toks: seq<Token>, upto: nat)
      reads this`nodes, nodes`prefix, nodes`path
    {
      && (forall v | v in visits :: VisitOk(v, toks))
      && (forall k: nat {:trigger TrailEnd(visits, k)} | k < |visits| :: visits[k].start == TrailEnd(visits, k))
      && upto == TrailEnd(visits, |visits|)
    }

    lemma {:induction false} TrailExtends(visits: seq<Visit>, v: Visit, toks: seq<Token>)
      requires Trail(visits, toks, v.start) && VisitOk(v, toks)
      ensures Trail(visits + [v], toks, v.start + v.slice)
    {
      var w := visits + [v];
      forall k: nat | k < |w|
        ensures w[k].start == TrailEnd(w, k)
      {
        assert k < |visits| ==> visits[k].start == TrailEnd(visits, k);
      }
    }

    /** Each visit ends where the next one starts. */
    lemma {:induction false} TrailEndsBelow(visits: seq<Visit>, toks: seq<Token>, k: nat, upto: nat)
      requires Trail(visits, toks, upto) && k <= |visits|
      ensures TrailEnd(visits, k) <= upto
      decreases |visits| - k
    {
      if k < |visits| {
        TrailEndsBelow(visits, toks, k + 1, upto);
        assert visits[k].start == TrailEnd(visits, k);
      }
    }

    /** Every prefix of `toks` up to `m` tokens is stored, and no longer one. */
    ghost predicate LongestStored(toks: seq<Token>, m: nat)
      reads this`cover
    {
      m <= |toks| && forall j: nat | 0 < j <= |toks| :: toks[..j] in cover <==> j <= m
    }

    /** With a prefix its own prefixes are stored. */
    lemma {:induction false} PrefixStored(q: seq<Token>, j: nat)
      requires Linked() && Covered() && q in cover && 0 < j <= |q|
      ensures q[..j] in cover
      decreases |q|
    {
      assert EndsIn(q);
      var n := cover[q];
      assert Hangs(n);
      if |n.path| - |n.prefix| < j {
        assert Stores(n, j) && q[..j] == n.path[..j];
      } else {
        CoverOfPath(n.parent);
        assert n.parent.path == n.path[..|n.path| - |n.prefix|];
        PrefixStored(n.parent.path, j);
        assert n.parent.path[..j] == q[..j];
      }
    }

    /** A lookup that reached the end of an edge without a child for the next token. */
    lemma {:induction false} StoppedAtNode(n: RadixNode, toks: seq<Token>, i: nat)
      requires Linked() && Covered() && n in nodes && i <= |toks| && n.path == toks[..i]
      requires i < |toks| ==> toks[i] !in n.children
      requires forall j: nat | 0 < j <= i :: toks[..j] in cover
      ensures LongestStored(toks, i)
    {
      forall j: nat | i < j <= |toks|
        ensures toks[..j] !in cover
      {
        var q := toks[..i + 1];
        assert toks[..j][..i + 1] == q;
        if q in cover {
          NextStored(n, q);
        }
        if toks[..j] in cover {
          PrefixStored(toks[..j], i + 1);
        }
      }
    }

    /** A lookup that stopped inside an edge. */
    lemma {:induction false} StoppedInEdge(c: RadixNode, toks: seq<Token>, m: nat)
      requires Linked() && Covered() && c in nodes && c != root
      requires |c.path| - |c.prefix| < m < |c.path| && m <= |toks| && c.path[..m] == toks[..m]
      requires m < |toks| ==> c.path[m] != toks[m]
      requires forall j: nat | 0 < j <= m :: toks[..j] in cover
      ensures LongestStored(toks, m)
    {
      forall j: nat | m < j <= |toks|
        ensures toks[..j] !in cover
      {
        var q := toks[..m + 1];
        assert q[m] != c.path[..m + 1][m];
        assert toks[..j][..m + 1] == q;
        if q in cover {
          InsideEdge(c, m, q);
        }
        if toks[..j] in cover {
          PrefixStored(toks[..j], m + 1);
        }
      }
    }

    /** The visited part of an edge spells the next tokens, and all prefixes ending in it
        are stored. */
    lemma {:induction false} EdgeStored(c: RadixNode, toks: seq<Token>, i: nat, m: nat)
      requires Linked() && Covered() && c in nodes && c != root && c.parent != null
      requires 0 < m <= |c.prefix| && i + m <= |toks| && c.prefix[..m] == toks[i..i + m]
      requires c.parent.path == toks[..i]
      ensures VisitOk(Visit(c, i, m), toks)
      ensures forall j: nat | i < j <= i + m :: toks[..j] in cover && cover[toks[..j]] == c
    {
      assert Hangs(c);
      assert c.path[..i + m] == c.parent.path + c.prefix[..m] == toks[..i + m];
      forall j: nat | i < j <= i + m
        ensures toks[..j] in cover && cover[toks[..j]] == c
      {
        assert Stores(c, j) && toks[..j] == toks[..i + m][..j] == c.path[..j];
      }
    }

    /** It is one edge more than those of the prefixes before. */
    lemma {:induction false} NewEdge(c: RadixNode, toks: seq<Token>, i: nat, m: nat)
      requires Covered() && VisitOk(Visit(c, i, m), toks)
      requires forall j: nat | i < j <= i + m :: toks[..j] in cover && cover[toks[..j]] == c
      ensures c !in Edges(cover, toks[..i]) && Edges(cover, toks[..i + m]) == [c] + Edges(cover, toks[..i])
    {
      forall j: nat | 0 < j <= i && toks[..j] in cover
        ensures cover[toks[..j]] != c
      {
        assert EndsIn(toks[..j]);
      }
      EdgesGrow(cover, toks, i, m, c);
    }

    /** One edge of the descent from `curr`, whose path is toks[..i]: the child to follow and
        how much of its edge matches, or null when there is none. */
    method Descend(curr: RadixNode, toks: seq<Token>, i: nat) returns (child: RadixNode?, m: nat)
      requires Linked() && Covered() && curr in nodes && i < |toks| && curr.path == toks[..i]
      requires forall j: nat | 0 < j <= i :: toks[..j] in cover
      ensures child == null ==> m == 0
      ensures child != null ==> child.parent == curr && VisitOk(Visit(child, i, m), toks)
      ensures child != null ==> child !in Edges(cover, toks[..i])
                                && Edges(cover, toks[..i + m]) == [child] + Edges(cover, toks[..i])
      ensures child != null && m == |child.prefix| ==> child.path == toks[..i + m]
      ensures child == null ==> toks[i] !in curr.children
      ensures child != null && m < |child.prefix| && i + m < |toks| ==> child.prefix[m] != toks[i + m]
      ensures child == null || m < |child.prefix| ==> LongestStored(toks, i + m)
      ensures forall j: nat | 0 < j <= i + m :: toks[..j] in cover
    {
      if toks[i] !in curr.children {
        StoppedAtNode(curr, toks, i);
        return null, 0;
      }
      child := curr.children[toks[i]];
      assert Holds(curr, toks[i]) && Hangs(child);
      m := MatchEdge(child, toks, i);
      EdgeStored(child, toks, i, m);
      NewEdge(child, toks, i, m);
      if m < |child.prefix| {
        assert i + m < |toks| ==> child.path[i + m] == child.prefix[m];
        StoppedInEdge(child, toks, i + m);
      } else {
        assert child.path == child.path[..i + m];
      }
    }

    static lemma {:induction false} MovedOut(was: seq<RadixNode>, now: seq<RadixNode>, node: RadixNode)
      requires Distinct(was) && Without(was, now, node)
      ensures now == Others(was, [node])
    {
      var i: nat :| i < |was| && was[i] == node && now == Drop(was, i);
      DropIsOthers(was, i);
    }

    /** The edges of the first `upto` tokens were the last to be used. */
    ghost predicate UsedLast(was: seq<RadixNode>, toks: seq<Token>, upto: nat)
      reads this`lru, this`cover
      requires upto <= |toks|
    {
      lru == Fronted(was, cover, toks[..upto])
    }

    lemma {:induction false} NothingUsed(toks: seq<Token>)
      ensures UsedLast(lru, toks, 0)
    {
      OthersAll(lru, Edges(cover, toks[..0]));
    }

    /** Using a listed node changes only the order of the list. */
    method Touch(node: RadixNode)
      requires Listed() && node in nodes && node != root
      modifies this`lru, node`inLru
      ensures Listed() && lru == [node] + Others(old(lru), [node])
    {
      assert node in multiset(nodes - {root, root});
      SetListed(lru, nodes - {root, root});
      MarkUsed(node);
      MovedOut(old(lru), lru[1..], node);
      forall n | n in lru
        ensures n in nodes
      {
        assert n in multiset(lru);
      }
    }

    /** Using the next edge of `toks` behind those of its first `i` tokens. */
    method Use(child: RadixNode, ghost was: seq<RadixNode>, ghost toks: seq<Token>, ghost i: nat, ghost m: nat)
      requires Listed() && child in nodes && child != root && i + m <= |toks| && UsedLast(was, toks, i)
      requires child !in Edges(cover, toks[..i]) && Edges(cover, toks[..i + m]) == [child] + Edges(cover, toks[..i])
      modifies this`lru, nodes`inLru
      ensures Listed() && UsedLast(was, toks, i + m)
    {
      hide Edges, Others;
      FrontOneMore(was, Edges(cover, toks[..i]), child);
      Touch(child);
    }

    /** Follows `prompt` down the tree, marking every visited edge as used. */
    method Walk(prompt: seq<Token>) returns (matched: nat, visits: seq<Visit>)
      requires Linked() && Covered() && Listed()
      modifies this`lru, nodes`inLru
      ensures Listed()
      ensures LongestStored(prompt, matched) && Trail(visits, prompt, matched) && UsedLast(old(lru), prompt, matched)
    {
      hide *;
      matched, visits := 0, [];
      var curr, i := root, 0;
      AtRoot(prompt);
      while i < |prompt|
        invariant curr in nodes && i <= |prompt| && curr.path == prompt[..i]
        invariant Listed() && UsedLast(old(lru), prompt, i)
        invariant matched == i && Trail(visits, prompt, i)
        invariant forall j: nat | 0 < j <= i :: prompt[..j] in cover
      {
        var child, m := Descend(curr, prompt, i);
        if child == null {
          return;
        }
        VisitIs(child, i, m, prompt);
        TrailExtends(visits, Visit(child, i, m), prompt);
        visits := visits + [Visit(child, i, m)];
        matched := matched + m;
        Use(child, old(lru), prompt, i, m);
        i := i + m;
        if m < |child.prefix| {
          return;
        }
        curr := child;
      }
      AllStored(prompt);
    }

    lemma {:induction false} AtRoot(toks: seq<Token>)
      requires Linked()
      ensures root in nodes && root.path == toks[..0] && Trail([], toks, 0) && UsedLast(lru, toks, 0)
    {
      NothingUsed(toks);
    }

    lemma {:induction false} VisitIs(n: RadixNode, start: nat, slice: nat, toks: seq<Token>)
      requires VisitOk(Visit(n, start, slice), toks)
      ensures n in nodes && n != root && 0 < slice <= |n.prefix| && start + slice <= |toks|
    {
    }

    lemma {:induction false} AllStored(toks: seq<Token>)
      requires forall j: nat | 0 < j <= |toks| :: toks[..j] in cover
      ensures LongestStored(toks, |toks|)
    {
    }

    /** What one layer of the matched part of an edge stores. */
    lemma {:induction false} EdgeStores(v: Visit, toks: seq<Token>, l: nat, s: Side, src: seq<Vec>)
      requires VisitOk(v, toks) && Stocked() && l < nLayers
      requires var blk, nodeLen := if s == Key then v.node.kBlock else v.node.vBlock, |v.node.prefix|;
               l * nodeLen + v.slice <= |blk| && src == blk[l * nodeLen..l * nodeLen + v.slice]
      ensures forall p: nat | v.start <= p < v.start + v.slice :: src[p - v.start] == Wanted(rowOf, toks, p, l, s)
    {
      var n := v.node;
      var blk, nodeLen := if s == Key then n.kBlock else n.vBlock, |n.prefix|;
      assert Stocks(n);
      forall p: nat | v.start <= p < v.start + v.slice
        ensures src[p - v.start] == Wanted(rowOf, toks, p, l, s)
      {
        var j: nat := p - v.start;
        assert src[j] == Cell(blk, nodeLen, l, j);
        assert toks[..p + 1] == toks[..v.start + v.slice][..p + 1] == n.path[..p + 1];
      }
    }

    /** Copies the matched part of one edge, one layer of it, into a staging block. */
    method StageLayer(dst: array<Vec>, len: nat, l: nat, v: Visit, toks: seq<Token>, s: Side)
      requires dst.Length == nLayers * len && l < nLayers && len <= |toks| && v.start + v.slice <= len
      requires VisitOk(v, toks) && Stocked()
      requires LayersStaged(dst[..], len, nLayers, toks, l, v.start, v.start + v.slice, rowOf, s)
      modifies dst
      ensures LayersStaged(dst[..], len, nLayers, toks, l + 1, v.start, v.start + v.slice, rowOf, s)
    {
      ghost var was := dst[..];
      assert Stocks(v.node);
      var blk, nodeLen := if s == Key then v.node.kBlock else v.node.vBlock, |v.node.prefix|;
      CellInside(nLayers, nodeLen, l, v.slice - 1);
      CellInside(nLayers, len, l, v.start + v.slice - 1);
      var src := blk[l * nodeLen..l * nodeLen + v.slice];
      EdgeStores(v, toks, l, s, src);
      Memcpy(dst, l * len + v.start, src);
      PasteStages(was, nLayers, len, l, v.start, src, toks, rowOf, s);
    }

    /** Copies the matched part of one edge, layer by layer. */
    method StageEdge(dst: array<Vec>, len: nat, v: Visit, toks: seq<Token>, s: Side)
      requires dst.Length == nLayers * len && len <= |toks| && v.start + v.slice <= len
      requires VisitOk(v, toks) && Stocked()
      requires LayersStaged(dst[..], len, nLayers, toks, 0, v.start, v.start, rowOf, s)
      modifies dst
      ensures LayersStaged(dst[..], len, nLayers, toks, 0, v.start + v.slice, v.start + v.slice, rowOf, s)
    {
      for l := 0 to nLayers
        invariant LayersStaged(dst[..], len, nLayers, toks, l, v.start, v.start + v.slice, rowOf, s)
      {
        StageLayer(dst, len, l, v, toks, s);
      }
    }

    /** Fills a staging block, one matched edge after the other. */
    method Stage(visits: seq<Visit>, toks: seq<Token>, matched: nat, dst: array<Vec>, s: Side)
      requires Trail(visits, toks, matched) && Stocked()
      requires matched <= |toks| && dst.Length == nLayers * matched
      modifies dst
      ensures Agrees(dst[..], nLayers, toks[..matched], matched, rowOf, s)
    {
      ghost var pos := 0;
      for k := 0 to |visits|
        invariant pos == TrailEnd(visits, k) <= matched
        invariant LayersStaged(dst[..], matched, nLayers, toks, 0, pos, pos, rowOf, s)
      {
        var v := visits[k];
        TrailEndsBelow(visits, toks, k + 1, matched);
        assert v.start == TrailEnd(visits, k);
        StageEdge(dst, matched, v, toks, s);
        pos := pos + v.slice;
      }
      StagedAgrees(dst[..], nLayers, toks, matched, rowOf, s);
    }

    /** The staged keys and values of a lookup's visits. */
    method StageBlocks(visits: seq<Visit>, toks: seq<Token>, matched: nat) returns (outK: array<Vec>, outV: array<Vec>)
      requires Trail(visits, toks, matched) && Stocked() && matched <= |toks|
      ensures fresh(outK) && Agrees(outK[..], nLayers, toks[..matched], matched, rowOf, Key)
      ensures fresh(outV) && Agrees(outV[..], nLayers, toks[..matched], matched, rowOf, Value)
    {
      outK, outV := new Vec[nLayers * matched], new Vec[nLayers * matched];
      if matched > 0 {
        Stage(visits, toks, matched, outK, Key);
        Stage(visits, toks, matched, outV, Value);
      }
    }

    /** The longest stored prefix of `prompt`, with its rows staged for injection. What was matched is
        the last to be used. */
    method FindLongestPrefix(prompt: seq<Token>) returns (matched: nat, outK: array<Vec>, outV: array<Vec>)
      requires Valid()
      modifies this`lru, nodes`inLru
      ensures Valid() && fresh(outK) && fresh(outV)
      ensures LongestStored(prompt, matched) && UsedLast(old(lru), prompt, matched)
      ensures Agrees(outK[..], nLayers, prompt[..matched], matched, rowOf, Key)
      ensures Agrees(outV[..], nLayers, prompt[..matched], matched, rowOf, Value)
    {
      hide *;
      ValidIs();
      var visits;
      matched, visits := Walk(prompt);
      Bounded(prompt, matched);
      outK, outV := StageBlocks(visits, prompt, matched);
      IsValid();
    }

    lemma {:induction false} Bounded(toks: seq<Token>, m: nat)
      requires LongestStored(toks, m)
      ensures m <= |toks|
    {
    }

    // ---- splitting an edge ---------------------------------------------------------

    /** Lists a new node as just used. */
    method Register(node: RadixNode)
      requires ListedBut(node) && node in nodes && node != root
      modifies this`lru, node`inLru
      ensures Listed() && lru == [node] + old(lru)
    {
      MarkUsed(node);
      assert multiset(nodes - {root, root}) == multiset(nodes - {root, node}) + multiset{node};
    }

    /** What a split at `m` does to the links: `head` takes the first `m` tokens of the
        child's edge and the child keeps the rest below it. */
    twostate predicate SplitDone(new child: RadixNode, new head: RadixNode, m: nat)
      reads this`nodes, nodes
    {
      && child in old(nodes) && old(child != root && child.parent != null && child.parent in nodes && 0 < m < |child.prefix|)
      && var curr := old(child.parent);
      && nodes == old(nodes) + {head} && head !in old(nodes)
      && (forall n | n in old(nodes) :: n.path == old(n.path))
      && (forall n | n in old(nodes) && n != child :: n.prefix == old(n.prefix) && n.parent == old(n.parent))
      && (forall n | n in old(nodes) && n != curr :: n.children == old(n.children))
      && curr.children == old(curr.children)[old(child.prefix[0]) := head]
      && child.prefix == old(child.prefix[m..]) && child.parent == head
      && head.prefix == old(child.prefix[..m]) && head.parent == curr
      && head.path == old(curr.path + child.prefix[..m])
      && head.children == map[old(child.prefix[m]) := child]
    }

    twostate lemma {:induction false} SplitLinks(new child: RadixNode, new head: RadixNode, m: nat)
      requires old(Linked()) && SplitDone(child, head, m)
      ensures Linked()
    {
      var curr := old(child.parent);
      assert old(Hangs(child));
      forall n | n in nodes && n != root
        ensures Hangs(n)
      {
        if n == child {
          assert n.path == head.path + n.prefix;
        } else if n != head {
          assert old(Hangs(n));
        }
      }
      forall n, t | n in nodes && t in n.children
        ensures Holds(n, t)
      {
        if n != head {
          assert !(n == curr && t == old(child.prefix[0])) ==> old(Holds(n, t));
        }
      }
    }

    /** The edges stored prefixes end in after a split: those up to `at` tokens move to the head. */
    static ghost function SplitCover(c: map<seq<Token>, RadixNode>, child: RadixNode, head: RadixNode, at: nat): map<seq<Token>, RadixNode> {
      map q | q in c :: if c[q] == child && |q| <= at then head else c[q]
    }

    twostate lemma {:induction false} SplitCovers(new child: RadixNode, new head: RadixNode, m: nat)
      requires old(Linked()) && old(Covered()) && SplitDone(child, head, m)
      requires cover == SplitCover(old(cover), child, head, |head.path|)
      ensures Covered()
    {
      assert old(Hangs(child));
      assert head.path == child.path[..|head.path|];
      forall q | q in cover
        ensures EndsIn(q)
      {
        assert old(EndsIn(q));
      }
      forall n, i: nat | n in nodes && n != root && |n.path| < |n.prefix| + i && i <= |n.path|
        ensures Stores(n, i)
      {
        if n == head {
          assert old(Stores(child, i)) && n.path[..i] == child.path[..i];
        } else {
          assert old(Stores(n, i));
        }
      }
    }

    /** The blocks of a split: each layer's first `m` vectors and the others. */
    twostate predicate SplitBlocks(new child: RadixNode, new head: RadixNode, m: nat)
      reads this`nodes, nodes`kBlock, nodes`vBlock, head`kBlock, head`vBlock, child`kBlock, child`vBlock
    {
      && child in old(nodes)
      && var len := old(|child.prefix|);
      && old(m <= len && |child.kBlock| == nLayers * len && |child.vBlock| == nLayers * len)
      && head.kBlock == Columns(old(child.kBlock), nLayers, len, 0, m)
      && head.vBlock == Columns(old(child.vBlock), nLayers, len, 0, m)
      && child.kBlock == Columns(old(child.kBlock), nLayers, len, m, len)
      && child.vBlock == Columns(old(child.vBlock), nLayers, len, m, len)
      && (forall n | n in old(nodes) && n in nodes && n != child :: n.kBlock == old(n.kBlock) && n.vBlock == old(n.vBlock))
    }

    twostate lemma {:induction false} SplitStocks(new child: RadixNode, new head: RadixNode, m: nat)
      requires old(Linked()) && old(Stocked()) && SplitDone(child, head, m)
      requires SplitBlocks(child, head, m)
      ensures Stocked()
    {
      assert old(Hangs(child)) && old(Stocks(child));
      var len := old(|child.prefix|);
      assert head.path == child.path[..|child.path| - len + m];
      HeadAgrees(old(child.kBlock), nLayers, child.path, len, m, rowOf, Key);
      HeadAgrees(old(child.vBlock), nLayers, child.path, len, m, rowOf, Value);
      TailAgrees(old(child.kBlock), nLayers, child.path, len, m, rowOf, Key);
      TailAgrees(old(child.vBlock), nLayers, child.path, len, m, rowOf, Value);
      forall n | n in nodes
        ensures Stocks(n)
      {
        assert n != head ==> old(Stocks(n));
      }
    }

    /** An edge's prefixes are among the stored ones. */
    lemma {:induction false} EdgeCounted(n: RadixNode)
      requires Linked() && Covered() && n in nodes && n != root
      ensures |n.prefix| <= |n.path| && Ends(n.path, |n.path| - |n.prefix|, |n.path|) <= cover.Keys
      ensures |Ends(n.path, |n.path| - |n.prefix|, |n.path|)| == |n.prefix| <= |cover|
    {
      assert Hangs(n);
      forall j: nat | |n.path| - |n.prefix| < j <= |n.path|
        ensures n.path[..j] in cover
      {
        assert Stores(n, j);
      }
      EndsCount(n.path, |n.path| - |n.prefix|, |n.path|);
      SubsetCount(Ends(n.path, |n.path| - |n.prefix|, |n.path|), cover.Keys);
    }

    /** Cuts the child's blocks at `m` and leaves it the tails. */
    method Shorten(child: RadixNode, m: nat) returns (headK: seq<Vec>, headV: seq<Vec>)
      requires m <= |child.prefix| && child.Bytes(kvDim) <= currentBytes
      requires |child.kBlock| == nLayers * |child.prefix| && |child.vBlock| == nLayers * |child.prefix|
      modifies this`currentBytes, child`prefix, child`kBlock, child`vBlock
      ensures currentBytes == old(currentBytes) - m * TokenBytes() && child.prefix == old(child.prefix[m..])
      ensures headK == Columns(old(child.kBlock), nLayers, old(|child.prefix|), 0, m)
      ensures headV == Columns(old(child.vBlock), nLayers, old(|child.prefix|), 0, m)
      ensures child.kBlock == Columns(old(child.kBlock), nLayers, old(|child.prefix|), m, old(|child.prefix|))
      ensures child.vBlock == Columns(old(child.vBlock), nLayers, old(|child.prefix|), m, old(|child.prefix|))
    {
      var len := |child.prefix|;
      headK := CopyColumns(child.kBlock, nLayers, len, 0, m);
      headV := CopyColumns(child.vBlock, nLayers, len, 0, m);
      var tailK := CopyColumns(child.kBlock, nLayers, len, m, len);
      var tailV := CopyColumns(child.vBlock, nLayers, len, m, len);
      EdgeBytes(child, nLayers, kvDim);
      currentBytes := currentBytes - child.Bytes(kvDim);
      child.prefix, child.kBlock, child.vBlock := child.prefix[m..], tailK, tailV;
      EdgeBytes(child, nLayers, kvDim);
      currentBytes := currentBytes + child.Bytes(kvDim);
      Distribute(m, len - m, TokenBytes());
    }

    /** Links a new node between `curr` and the shortened child. */
    method Relink(curr: RadixNode, child: RadixNode, common: seq<Token>, headK: seq<Vec>, headV: seq<Vec>) returns (head: RadixNode)
      requires common != [] && child.prefix != [] && child.parent == curr && curr != child
      requires |headK| == nLayers * |common| && |headV| == nLayers * |common|
      modifies this`currentBytes, this`nodes, this`cover, curr`children, child`parent
      ensures fresh(head) && !head.inLru && head.prefix == common && head.kBlock == headK && head.vBlock == headV
      ensures head.parent == curr && head.path == curr.path + common && head.children == map[child.prefix[0] := child]
      ensures child.parent == head && curr.children == old(curr.children)[common[0] := head]
      ensures nodes == old(nodes) + {head} && cover == SplitCover(old(cover), child, head, |head.path|)
      ensures currentBytes == old(currentBytes) + |common| * TokenBytes()
    {
      head := new RadixNode(common, headK, headV, curr, map[child.prefix[0] := child], curr.path + common);
      EdgeBytes(head, nLayers, kvDim);
      child.parent := head;
      curr.children := curr.children[common[0] := head];
      currentBytes := currentBytes + head.Bytes(kvDim);
      nodes, cover := nodes + {head}, SplitCover(cover, child, head, |head.path|);
    }

    /** An edge costs no more than all of them. */
    lemma {:induction false} EdgeFits(n: RadixNode)
      requires Linked() && Covered() && Stocked() && Counted() && n in nodes && n != root
      ensures |n.kBlock| == nLayers * |n.prefix| && |n.vBlock| == nLayers * |n.prefix|
      ensures n.Bytes(kvDim) == |n.prefix| * TokenBytes() <= currentBytes
    {
      assert Stocks(n);
      EdgeCounted(n);
      EdgeBytes(n, nLayers, kvDim);
      MulMonotone(|n.prefix|, |cover|, TokenBytes());
    }

    /** The re-linked tree is a radix tree of the same prefixes and rows. */
    method Splice(curr: RadixNode, child: RadixNode, m: nat) returns (head: RadixNode)
      requires Valid() && Hangs(child) && child != root && child.parent == curr && 0 < m < |child.prefix|
      modifies this`currentBytes, this`nodes, this`cover
      modifies curr`children, child`prefix, child`kBlock, child`vBlock, child`parent
      ensures Linked() && Covered() && Stocked() && Counted()
      ensures fresh(head) && !head.inLru && nodes == old(nodes) + {head} && cover.Keys == old(cover.Keys)
      ensures cover == SplitCover(old(cover), child, head, |head.path|)
      ensures head.path == old(curr.path + child.prefix[..m]) && head.children.Keys == {old(child.prefix[m])}
    {
      EdgeFits(child);
      var common := child.prefix[..m];
      var headK, headV := Shorten(child, m);
      head := Relink(curr, child, common, headK, headV);
      SplitLinks(child, head, m);
      SplitCovers(child, head, m);
      SplitStocks(child, head, m);
      assert cover.Keys == old(cover.Keys);
    }

    /** Splits the edge of `child` after `m` tokens and returns the new node above it. */
    method Split(curr: RadixNode, child: RadixNode, m: nat) returns (head: RadixNode)
      requires Valid() && curr in nodes && child in nodes && child != root && child.parent == curr
      requires 0 < m < |child.prefix|
      modifies this`lru, this`currentBytes, this`nodes, this`cover
      modifies curr`children, child`prefix, child`kBlock, child`vBlock, child`parent
      ensures Valid() && fresh(head) && nodes == old(nodes) + {head} && lru == [head] + old(lru)
      ensures cover.Keys == old(cover.Keys) && cover == SplitCover(old(cover), child, head, |head.path|)
      ensures head.path == old(curr.path + child.prefix[..m])
      ensures head.children.Keys == {old(child.prefix[m])}
    {
      assert Hangs(child);
      head := Splice(curr, child, m);
      assert nodes - {root, head} == old(nodes) - {root, root};
      Register(head);
    }

    // ---- adding a leaf -------------------------------------------------------------

    /** What a new leaf for tokens[i..] below `curr` does to the links. */
    twostate predicate LeafDone(new curr: RadixNode, new leaf: RadixNode, new toks: seq<Token>, i: nat)
      reads this`nodes, nodes
    {
      && curr in old(nodes) && i < |toks| && old(curr.path) == toks[..i] && toks[i] !in old(curr.children)
      && nodes == old(nodes) + {leaf} && leaf !in old(nodes)
      && (forall n | n in old(nodes) :: n.path == old(n.path) && n.prefix == old(n.prefix) && n.parent == old(n.parent))
      && (forall n | n in old(nodes) && n != curr :: n.children == old(n.children))
      && curr.children == old(curr.children)[toks[i] := leaf]
      && leaf.prefix == toks[i..] && leaf.path == toks && leaf.parent == curr && leaf.children == map[]
    }

    twostate lemma {:induction false} LeafLinks(new curr: RadixNode, new leaf: RadixNode, new toks: seq<Token>, i: nat)
      requires old(Linked()) && LeafDone(curr, leaf, toks, i)
      ensures Linked()
    {
      forall n | n in nodes && n != root
        ensures Hangs(n)
      {
        assert if n == leaf then n.path == curr.path + n.prefix else old(Hangs(n));
      }
      forall n, t | n in nodes && t in n.children
        ensures Holds(n, t)
      {
        assert n != leaf && !(n == curr && t == toks[i]) ==> old(Holds(n, t));
      }
    }

    /** The new prefixes end in the new leaf. */
    static ghost function LeafCover(c: map<seq<Token>, RadixNode>, leaf: RadixNode, toks: seq<Token>, i: nat): map<seq<Token>, RadixNode>
      requires i <= |toks|
    {
      map q | q in c.Keys + Ends(toks, i, |toks|) :: if q in c then c[q] else leaf
    }

    twostate lemma {:induction false} LeafCovers(new curr: RadixNode, new leaf: RadixNode, new toks: seq<Token>, i: nat)
      requires old(Linked()) && old(Covered()) && LeafDone(curr, leaf, toks, i)
      requires old(LongestStored(toks, i)) && cover == LeafCover(old(cover), leaf, toks, i)
      ensures Covered()
    {
      forall q | q in cover
        ensures EndsIn(q)
      {
        if q in old(cover) {
          assert old(EndsIn(q));
        }
      }
      forall n, m: nat | n in nodes && n != root && |n.path| < |n.prefix| + m && m <= |n.path|
        ensures Stores(n, m)
      {
        if n == leaf {
          assert n.path[..m] == toks[..m] && toks[..m] in Ends(toks, i, |toks|);
        } else {
          assert old(Stores(n, m));
        }
      }
    }

    /** All prefixes of `toks` are those up to `i` tokens and the longer ones. */
    lemma {:induction false} EndsAbove(c: set<seq<Token>>, toks: seq<Token>, i: nat)
      requires i <= |toks| && forall j: nat | 0 < j <= |toks| :: toks[..j] in c <==> j <= i
      ensures c + Ends(toks, i, |toks|) == c + Ends(toks, 0, |toks|) && c !! Ends(toks, i, |toks|)
    {
      forall q | q in Ends(toks, 0, |toks|)
        ensures q in c + Ends(toks, i, |toks|)
      {
        assert |q| <= i || q in Ends(toks, i, |toks|);
      }
    }

    /** The leaf brings as many prefixes as it has tokens. */
    lemma {:induction false} LeafCount(c: map<seq<Token>, RadixNode>, leaf: RadixNode, toks: seq<Token>, i: nat)
      requires i <= |toks| && forall j: nat | 0 < j <= |toks| :: toks[..j] in c <==> j <= i
      ensures LeafCover(c, leaf, toks, i).Keys == c.Keys + Ends(toks, 0, |toks|)
      ensures |LeafCover(c, leaf, toks, i)| == |c| + |toks| - i
    {
      EndsCount(toks, i, |toks|);
      EndsAbove(c.Keys, toks, i);
      hide Ends;
      assert LeafCover(c, leaf, toks, i).Keys == c.Keys + Ends(toks, i, |toks|);
    }

    /** Links the leaf in and accounts for it. */
    method Attach(curr: RadixNode, toks: seq<Token>, i: nat, k: seq<Vec>, v: seq<Vec>) returns (leaf: RadixNode)
      requires i < |toks| && |k| == nLayers * (|toks| - i) && |v| == nLayers * (|toks| - i)
      modifies this`currentBytes, this`nodes, this`cover, curr`children
      ensures fresh(leaf) && !leaf.inLru && leaf.prefix == toks[i..] && leaf.path == toks && leaf.parent == curr
      ensures leaf.children == map[] && leaf.kBlock == k && leaf.vBlock == v
      ensures curr.children == old(curr.children)[toks[i] := leaf]
      ensures nodes == old(nodes) + {leaf} && cover == LeafCover(old(cover), leaf, toks, i)
      ensures currentBytes == old(currentBytes) + (|toks| - i) * TokenBytes()
    {
      leaf := new RadixNode(toks[i..], k, v, curr, map[], toks);
      curr.children := curr.children[leaf.prefix[0] := leaf];
      EdgeBytes(leaf, nLayers, kvDim);
      currentBytes := currentBytes + leaf.Bytes(kvDim);
      nodes, cover := nodes + {leaf}, LeafCover(cover, leaf, toks, i);
    }

    /** The block for toks[i..], filled from the vectors the caller hands out. */
    method RowBlock(toks: seq<Token>, i: nat, vec: (nat, nat) -> Vec, s: Side) returns (blk: seq<Vec>)
      requires i <= |toks|
      requires forall l: nat, p: nat | l < nLayers && p < |toks| :: vec(l, p) == Wanted(rowOf, toks, p, l, s)
      ensures Agrees(blk, nLayers, toks, |toks| - i, rowOf, s)
    {
      var len := |toks| - i;
      blk := FillBlock(nLayers, len, i, vec);
      forall l: nat, j: nat | l < nLayers && j < len
        ensures Cell(blk, len, l, j) == Half(rowOf(toks[..|toks| - len + j + 1], l), s)
      {
        assert vec(l, i + j) == Wanted(rowOf, toks, i + j, l, s);
      }
    }

    twostate lemma {:induction false} LeafStocks(new leaf: RadixNode)
      requires old(Stocked()) && nodes == old(nodes) + {leaf} && Stocks(leaf)
      requires forall n | n in old(nodes) :: n.path == old(n.path) && n.prefix == old(n.prefix)
      requires forall n | n in old(nodes) :: n.kBlock == old(n.kBlock) && n.vBlock == old(n.vBlock)
      ensures Stocked()
    {
      forall n | n in nodes && n != leaf
        ensures Stocks(n)
      {
        assert old(Stocks(n));
      }
    }

    /** Stores the rest of `toks` in a new leaf below the node its stored prefix ends at. */
    method Graft(curr: RadixNode, toks: seq<Token>, i: nat, k: seq<Vec>, v: seq<Vec>) returns (leaf: RadixNode)
      requires Linked() && Covered() && Stocked() && Counted()
      requires curr in nodes && i < |toks| && curr.path == toks[..i] && toks[i] !in curr.children
      requires LongestStored(toks, i)
      requires Agrees(k, nLayers, toks, |toks| - i, rowOf, Key) && Agrees(v, nLayers, toks, |toks| - i, rowOf, Value)
      modifies this`currentBytes, this`nodes, this`cover, curr`children
      ensures Linked() && Covered() && Stocked() && Counted()
      ensures fresh(leaf) && !leaf.inLru && nodes == old(nodes) + {leaf}
      ensures cover.Keys == old(cover.Keys) + Ends(toks, 0, |toks|) && cover == LeafCover(old(cover), leaf, toks, i)
    {
      assert |k| == nLayers * (|toks| - i) && |v| == nLayers * (|toks| - i);
      hide Linked, Covered, Stocked, LeafCover, Ends, Agrees;
      leaf := Attach(curr, toks, i, k, v);
      LeafLinks(curr, leaf, toks, i);
      LeafCovers(curr, leaf, toks, i);
      LeafStocks(leaf);
      LeafCount(old(cover), leaf, toks, i);
      Distribute(|old(cover)|, |toks| - i, TokenBytes());
    }

    /** Grafts the leaf and lists it. */
    method Enlist(curr: RadixNode, toks: seq<Token>, i: nat, k: seq<Vec>, v: seq<Vec>) returns (leaf: RadixNode)
      requires Valid() && curr in nodes && i < |toks| && curr.path == toks[..i] && toks[i] !in curr.children
      requires LongestStored(toks, i)
      requires Agrees(k, nLayers, toks, |toks| - i, rowOf, Key) && Agrees(v, nLayers, toks, |toks| - i, rowOf, Value)
      modifies this`lru, this`currentBytes, this`nodes, this`cover, curr`children
      ensures Valid() && fresh(leaf) && nodes == old(nodes) + {leaf} && lru == [leaf] + old(lru)
      ensures cover.Keys == old(cover.Keys) + Ends(toks, 0, |toks|) && cover == LeafCover(old(cover), leaf, toks, i)
    {
      hide Agrees, LongestStored, LeafCover;
      leaf := Graft(curr, toks, i, k, v);
      assert nodes - {root, leaf} == old(nodes) - {root, root};
      Register(leaf);
    }

    method AddLeaf(curr: RadixNode, toks: seq<Token>, i: nat, kFn: (nat, nat) -> Vec, vFn: (nat, nat) -> Vec, ghost was: seq<RadixNode>)
      requires Valid() && curr in nodes && i < |toks| && curr.path == toks[..i] && toks[i] !in curr.children
      requires LongestStored(toks, i)
      requires forall l: nat, p: nat | l < nLayers && p < |toks| :: kFn(l, p) == Wanted(rowOf, toks, p, l, Key)
      requires forall l: nat, p: nat | l < nLayers && p < |toks| :: vFn(l, p) == Wanted(rowOf, toks, p, l, Value)
      modifies this`lru, this`currentBytes, this`nodes, this`cover, curr`children
      requires UsedLast(was, toks, i) && forall n | n in was :: n in nodes
      ensures Valid() && fresh(nodes - old(nodes)) && old(nodes) <= nodes && UsedLast(was, toks, |toks|)
      ensures cover.Keys == old(cover.Keys) + Ends(toks, 0, |toks|)
    {
      hide *;
      ValidIs();
      var k := RowBlock(toks, i, kFn, Key);
      var v := RowBlock(toks, i, vFn, Value);
      EndsInNodes(toks, i);
      UsedIs(was, toks, i);
      ghost var c := cover;
      var leaf := Enlist(curr, toks, i, k, v);
      LeafEdges(c, leaf, toks, i);
      FrontNew(was, Edges(c, toks[..i]), leaf);
      assert toks[..|toks|] == toks;
      IsUsed(was, toks, |toks|);
    }

    /** The stored prefixes of `toks` up to `i` tokens are there, in edges of the tree; no longer ones are. */
    lemma {:induction false} EndsInNodes(toks: seq<Token>, i: nat)
      requires Covered() && LongestStored(toks, i)
      ensures i <= |toks| && forall j: nat | 0 < j <= i :: toks[..j] in cover && cover[toks[..j]] in nodes
      ensures forall j: nat | i < j <= |toks| :: toks[..j] !in cover
    {
      forall j: nat | 0 < j <= i
        ensures toks[..j] in cover && cover[toks[..j]] in nodes
      {
        assert EndsIn(toks[..j]);
      }
    }

    static lemma {:induction false} LeafEdges(c: map<seq<Token>, RadixNode>, leaf: RadixNode, toks: seq<Token>, i: nat)
      requires i < |toks| && forall j: nat | 0 < j <= i :: toks[..j] in c && c[toks[..j]] != leaf
      requires forall j: nat | i < j <= |toks| :: toks[..j] !in c
      ensures Edges(LeafCover(c, leaf, toks, i), toks) == [leaf] + Edges(c, toks[..i])
    {
      var d := LeafCover(c, leaf, toks, i);
      assert toks[..i + (|toks| - i)] == toks;
      forall j: nat | 0 < j <= i
        ensures toks[..i][..j] == toks[..j] && toks[..j] in d && d[toks[..j]] == c[toks[..j]]
      {
      }
      EdgesSame(d, c, toks[..i]);
      forall j: nat | i < j <= |toks|
        ensures toks[..j] in d && d[toks[..j]] == leaf
      {
        assert toks[..j] in Ends(toks, i, |toks|);
      }
      EdgesGrow(d, toks, i, |toks| - i, leaf);
    }

    // ---- eviction ------------------------------------------------------------------

    /** A child is listed too and its path is longer. */
    lemma {:induction false} ChildLonger(n: RadixNode, t: Token)
      requires Linked() && Listed() && n in nodes && t in n.children
      ensures n.children[t] in lru && |n.path| < |n.children[t].path|
    {
      assert Holds(n, t) && Hangs(n.children[t]);
      assert n.children[t] in multiset(nodes - {root, root});
    }

    /** Some listed node has no children: one with a longest path. */
    lemma {:induction false} SomeLeaf() returns (i: nat)
      requires Linked() && Listed() && lru != []
      ensures i < |lru| && lru[i].children == map[]
    {
      i := 0;
      for j := 0 to |lru|
        invariant i < |lru| && forall x: nat | x < j :: |lru[x].path| <= |lru[i].path|
      {
        if |lru[i].path| < |lru[j].path| {
          i := j;
        }
      }
      var n := lru[i];
      if t :| t in n.children {
        ChildLonger(n, t);
        assert false;
      }
    }

    /** The least recently used node without children. */
    method OldestLeaf() returns (i: nat)
      requires Linked() && Listed() && lru != []
      ensures i < |lru| && lru[i].children == map[]
      ensures forall x: nat | i < x < |lru| :: lru[x].children != map[]
    {
      ghost var w := SomeLeaf();
      i := |lru| - 1;
      while lru[i].children != map[]
        invariant w <= i < |lru|
        invariant forall x: nat | i < x < |lru| :: lru[x].children != map[]
        decreases i
      {
        i := i - 1;
      }
    }

    /** What taking out a childless node does to the links. */
    twostate predicate LeafGone(new node: RadixNode)
      reads this`nodes, nodes
    {
      && node in old(nodes) && node != root && old(node.children) == map[] && old(node.prefix != [] && node.parent != null)
      && nodes == old(nodes) - {node}
      && var p := old(node.parent);
      && (forall n | n in nodes :: n.path == old(n.path) && n.prefix == old(n.prefix) && n.parent == old(n.parent))
      && (forall n | n in nodes && n != p :: n.children == old(n.children))
      && (p in nodes ==> p.children == old(p.children) - {old(node.prefix[0])})
    }

    twostate lemma {:induction false} GoneLinks(new node: RadixNode)
      requires old(Linked()) && LeafGone(node)
      ensures Linked()
    {
      assert old(Hangs(node));
      var p := old(node.parent);
      forall n | n in nodes && n != root
        ensures Hangs(n)
      {
        assert old(Hangs(n));
        if old(n.parent) == node {
          assert false;
        }
      }
      forall n, t | n in nodes && t in n.children
        ensures Holds(n, t)
      {
        assert old(Holds(n, t));
      }
    }

    static ghost function GoneCover(c: map<seq<Token>, RadixNode>, node: RadixNode): map<seq<Token>, RadixNode> {
      map q | q in c && c[q] != node :: c[q]
    }

    twostate lemma {:induction false} GoneCovers(new node: RadixNode)
      requires old(Linked()) && old(Covered()) && LeafGone(node) && cover == GoneCover(old(cover), node)
      ensures Covered()
    {
      forall q | q in cover
        ensures EndsIn(q)
      {
        assert old(EndsIn(q));
      }
      forall n, m: nat | n in nodes && n != root && |n.path| < |n.prefix| + m && m <= |n.path|
        ensures Stores(n, m)
      {
        assert old(Stores(n, m));
      }
    }

    /** The node takes as many prefixes with it as it had tokens. */
    lemma {:induction false} GoneCount(node: RadixNode)
      requires Linked() && Covered() && node in nodes && node != root
      ensures |GoneCover(cover, node)| == |cover| - |node.prefix|
    {
      EdgeCounted(node);
      var ends := Ends(node.path, |node.path| - |node.prefix|, |node.path|);
      forall q | q in cover
        ensures cover[q] == node <==> q in ends
      {
        assert EndsIn(q);
        if q in ends {
          var j: nat :| |node.path| - |node.prefix| < j <= |node.path| && q == node.path[..j];
          assert Stores(node, j);
        }
      }
      assert GoneCover(cover, node).Keys == cover.Keys - ends;
      SubsetCount(ends, cover.Keys);
    }

    lemma {:induction false} CountDrops(was: nat, now: nat, gone: nat)
      requires was == now + gone
      ensures was * TokenBytes() - gone * TokenBytes() == now * TokenBytes()
    {
      Distribute(now, gone, TokenBytes());
    }

    twostate lemma {:induction false} GoneStocks()
      requires old(Stocked()) && nodes <= old(nodes)
      requires forall n | n in nodes :: n.path == old(n.path) && n.prefix == old(n.prefix)
      requires forall n | n in nodes :: n.kBlock == old(n.kBlock) && n.vBlock == old(n.vBlock)
      ensures Stocked()
    {
      forall n | n in nodes
        ensures Stocks(n)
      {
        assert old(Stocks(n));
      }
    }

    /** Takes a childless node out of the list, the byte count and its parent. */
    method Unlink(node: RadixNode, parent: RadixNode)
      requires node in lru && node.Bytes(kvDim) <= currentBytes && node.prefix != [] && node.parent == parent
      modifies this`lru, this`currentBytes, this`nodes, this`cover, node`inLru, parent`children
      ensures multiset(lru) == old(multiset(lru)) - multiset{node} && Without(old(lru), lru, node) && !node.inLru
      ensures currentBytes == old(currentBytes - node.Bytes(kvDim))
      ensures nodes == old(nodes) - {node} && cover == GoneCover(old(cover), node)
      ensures parent.children == old(parent.children) - {node.prefix[0]}
    {
      hide GoneCover, Without;
      Erase(node);
      node.inLru := false;
      currentBytes := currentBytes - node.Bytes(kvDim);
      parent.children := parent.children - {node.prefix[0]};
      nodes, cover := nodes - {node}, GoneCover(cover, node);
    }

    /** Takes a childless node out; the list and the byte count stay right. */
    method TakeOut(node: RadixNode)
      requires Valid() && node in nodes && node != root && node.children == map[]
      modifies this`lru, this`currentBytes, this`nodes, this`cover, nodes`inLru, nodes`children
      ensures LeafGone(node) && Listed() && Counted() && cover == GoneCover(old(cover), node) && Without(old(lru), lru, node)
      ensures currentBytes == old(currentBytes) - old(node.Bytes(kvDim))
    {
      assert Hangs(node) && node in multiset(nodes - {root, root});
      EdgeFits(node);
      GoneCount(node);
      hide GoneCover, Covered, Stocked, Linked, Without;
      Unlink(node, node.parent);
      assert nodes - {root, root} == old(nodes - {root, root}) - {node};
      ListedIn(lru, nodes - {root, root});
      CountDrops(old(|cover|), |cover|, |node.prefix|);
    }

    /** Removes a childless node and its prefixes; everything else stays. */
    method RemoveLeaf(node: RadixNode)
      requires Valid() && node in nodes && node != root && node.children == map[]
      modifies this`lru, this`currentBytes, this`nodes, this`cover, nodes`inLru, nodes`children
      ensures Valid() && nodes == old(nodes) - {node} && cover == GoneCover(old(cover), node)
      ensures Without(old(lru), lru, node) && forall n | n in nodes :: n.children.Keys <= old(n.children.Keys)
      ensures currentBytes == old(currentBytes) - old(node.Bytes(kvDim))
    {
      hide Listed, Counted, Linked, Covered, Stocked, GoneCover;
      TakeOut(node);
      GoneLinks(node);
      GoneCovers(node);
      GoneStocks();
    }

    static lemma {:induction false} ListedIn(lru: seq<RadixNode>, s: set<RadixNode>)
      requires multiset(lru) == multiset(s)
      ensures forall n | n in lru :: n in s
    {
      forall n | n in lru
        ensures n in s
      {
        assert n in multiset(lru);
      }
    }

    /** The edge of a stored prefix is listed. */
    lemma {:induction false} CoverListed(q: seq<Token>)
      requires Covered() && Listed() && q in cover
      ensures cover[q] in lru
    {
      assert EndsIn(q) && cover[q] in multiset(nodes - {root, root});
    }

    /** With nothing listed nothing is stored. */
    lemma {:induction false} NothingListed()
      requires Valid() && lru == []
      ensures cover == map[] && currentBytes == 0
    {
      if q :| q in cover {
        CoverListed(q);
        assert false;
      }
      assert cover.Keys == {};
    }

    /** Nothing used less recently than the leaf is a leaf, too. */
    twostate predicate Oldest(new leaf: RadixNode)
      reads this`lru
    {
      && leaf in old(lru) && old(leaf.children) == map[] && Without(old(lru), lru, leaf)
      && forall i, x | 0 <= i < x < |old(lru)| && old(lru)[i] == leaf :: old(lru[x].children) != map[]
    }

    /** Removes the least recently used leaf. */
    method EvictOldest() returns (ghost leaf: RadixNode)
      requires Valid() && lru != []
      modifies this`lru, this`currentBytes, this`nodes, this`cover, nodes`inLru, nodes`children
      ensures Valid() && leaf in old(nodes) && nodes == old(nodes) - {leaf} && cover == GoneCover(old(cover), leaf)
      ensures Oldest(leaf) && forall n | n in nodes :: n.children.Keys <= old(n.children.Keys)
      ensures currentBytes + leaf.Bytes(kvDim) == old(currentBytes)
    {
      var i := OldestLeaf();
      var victim := lru[i];
      leaf := victim;
      assert leaf in multiset(nodes - {root, root});
      SetListed(lru, nodes - {root, root});
      hide GoneCover, Distinct;
      RemoveLeaf(victim);
      assert Oldest(leaf) by { OldestIs(old(lru), i); }
    }

    static lemma {:induction false} OldestIs(was: seq<RadixNode>, i: nat)
      requires Distinct(was) && i < |was|
      ensures forall k | 0 <= k < |was| && was[k] == was[i] :: k == i
    {
    }

    /** Of the nodes listed before, whatever was used more recently than a leaf that is left is left. */
    static ghost predicate RecentLeft(was: seq<RadixNode>, now: seq<RadixNode>, leaves: set<RadixNode>) {
      forall x: nat, y: nat | x < y < |was| && was[y] in leaves && was[y] in now :: was[x] in now
    }

    static ghost predicate LruLeft(was: seq<RadixNode>, now: seq<RadixNode>, leaves: set<RadixNode>) {
      (exists at :: Picks(now, was, at)) && RecentLeft(was, now, leaves)
    }

    static lemma {:induction false} AllLeft(was: seq<RadixNode>, leaves: set<RadixNode>)
      ensures LruLeft(was, was, leaves)
    {
      assert Picks(was, was, seq(|was|, k requires 0 <= k => k));
    }

    static lemma {:induction false} DropStays(was: seq<RadixNode>, now: seq<RadixNode>, at: seq<nat>, i: nat, x: nat, y: nat)
      requires Distinct(was) && Picks(now, was, at) && i < |now| && x < y < |was|
      requires was[x] in now && was[y] in Drop(now, i) && forall b | i < b < |now| :: now[b] != was[y]
      ensures was[x] in Drop(now, i)
    {
      var a :| 0 <= a < |now| && now[a] == was[x];
      var b :| 0 <= b < |Drop(now, i)| && Drop(now, i)[b] == was[y];
      var c := if b < i then b else b + 1;
      assert now[c] == was[y] && at[c] == y && at[a] == x;
      assert a < c < i;
      assert Drop(now, i)[a] == was[x];
    }

    static lemma {:induction false} DropPicks(was: seq<RadixNode>, now: seq<RadixNode>, at: seq<nat>, i: nat)
      requires Picks(now, was, at) && i < |now|
      ensures Picks(Drop(now, i), was, Drop(at, i))
    {
    }

    /** Evicting a node with no leaf behind it. */
    static lemma {:induction false} StillLeft(was: seq<RadixNode>, now: seq<RadixNode>, left: seq<RadixNode>, leaves: set<RadixNode>, leaf: RadixNode)
      requires Distinct(was) && LruLeft(was, now, leaves) && Without(now, left, leaf)
      requires forall a, b | 0 <= a < b < |now| && now[a] == leaf :: now[b] !in leaves
      ensures LruLeft(was, left, leaves)
    {
      hide Distinct, Picks;
      var i: nat :| i < |now| && now[i] == leaf && left == Drop(now, i);
      var at :| Picks(now, was, at);
      DropPicks(was, now, at, i);
      assert forall e | e in Drop(now, i) :: e in now;
      forall x: nat, y: nat | x < y < |was| && was[y] in leaves && was[y] in Drop(now, i)
        ensures was[x] in Drop(now, i)
      {
        DropStays(was, now, at, i, x, y);
      }
    }

    /** Exactly the prefixes that end in the edges listed are stored still. */
    static ghost predicate LeftBy(was: map<seq<Token>, RadixNode>, c: map<seq<Token>, RadixNode>, now: seq<RadixNode>) {
      && (forall q | q in c :: q in was && c[q] == was[q])
      && forall q | q in was :: q in c <==> was[q] in now
    }

    static lemma {:induction false} LeftByLess(was: map<seq<Token>, RadixNode>, c: map<seq<Token>, RadixNode>, now: seq<RadixNode>,
                                               left: seq<RadixNode>, leaf: RadixNode)
      requires LeftBy(was, c, now) && Without(now, left, leaf) && Distinct(now)
      ensures LeftBy(was, GoneCover(c, leaf), left) && leaf in now && leaf !in left
    {
      var i: nat :| i < |now| && now[i] == leaf && left == Drop(now, i);
      assert forall e | e in now :: e in left <==> e != leaf by {
        forall e | e in now && e != leaf
          ensures e in left
        {
          var k :| 0 <= k < |now| && now[k] == e;
          assert left[if k < i then k else k - 1] == e;
        }
      }
      assert forall e | e in left :: e in now;
    }

    lemma {:induction false} AllListed()
      requires Covered() && Listed()
      ensures LeftBy(cover, cover, lru)
    {
      forall q | q in cover
        ensures cover[q] in lru
      {
        CoverListed(q);
      }
    }

    static lemma {:induction false} LeftWithin(was: seq<RadixNode>, now: seq<RadixNode>, leaves: set<RadixNode>)
      requires LruLeft(was, now, leaves)
      ensures forall n | n in now :: n in was
    {
    }

    /** Some evicted edge was still needed to get within the budget. */
    ghost predicate NoneTooMany(was: seq<RadixNode>)
      reads this`lru, this`currentBytes, was`prefix, was`kBlock, was`vBlock
    {
      exists n :: n in was && n !in lru && currentBytes + n.Bytes(kvDim) > maxBytes
    }

    /** Evicts leaves until the budget is met, and no more than needed; least recently used ones first,
        so that the list keeps its order and no leaf is left that was used before an evicted node. */
    method EvictUntilFits()
      requires Valid()
      modifies this`lru, this`currentBytes, this`nodes, this`cover, nodes`inLru, nodes`children
      ensures Valid() && currentBytes <= maxBytes
      ensures nodes <= old(nodes) && cover.Keys <= old(cover.Keys)
      ensures (cover == old(cover) && lru == old(lru)) || (old(currentBytes) > maxBytes && NoneTooMany(old(lru)))
      ensures LeftBy(old(cover), cover, lru) && LruLeft(old(lru), lru, old(Leaves()))
    {
      hide *;
      ghost var leaves := Leaves();
      ValidIs();
      LeavesAre();
      AllLeft(lru, leaves);
      AllListed();
      while currentBytes > maxBytes && lru != []
        invariant Valid()
        invariant nodes <= old(nodes) && cover.Keys <= old(cover.Keys)
        invariant (cover == old(cover) && lru == old(lru) && currentBytes == old(currentBytes))
                  || (old(currentBytes) > maxBytes && NoneTooMany(old(lru)))
        invariant (forall n | n in leaves && n in nodes :: n.children == map[]) && LruLeft(old(lru), lru, leaves)
        invariant LeftBy(old(cover), cover, lru)
        decreases nodes
      {
        ghost var now, was := lru, cover;
        LeavesAre();
        LeftWithin(old(lru), now, leaves);
        label Before:
        ghost var leaf := EvictOldest();
        NoneBehind@Before(leaves, leaf);
        StillLeft(old(lru), now, lru, leaves, leaf);
        GoneFewer(was, leaf);
        LeftByLess(old(cover), was, now, lru, leaf);
        OneTooMany(old(lru), leaf);
      }
      if lru == [] {
        NothingListed();
      }
    }

    lemma {:induction false} OneTooMany(was: seq<RadixNode>, n: RadixNode)
      requires n in was && n !in lru && currentBytes + n.Bytes(kvDim) > maxBytes
      ensures NoneTooMany(was)
    {
    }

    lemma {:induction false} LeavesAre()
      requires Valid()
      ensures Distinct(lru) && (forall n | n in lru :: n in nodes)
      ensures forall n | n in Leaves() :: n in nodes && n.children == map[]
    {
      SetListed(lru, nodes - {root, root});
    }

    twostate lemma {:induction false} NoneBehind(leaves: set<RadixNode>, new leaf: RadixNode)
      requires Oldest(leaf) && forall n | n in leaves && n in old(lru) :: old(n.children) == map[]
      ensures Without(old(lru), lru, leaf)
      ensures forall a, b | 0 <= a < b < |old(lru)| && old(lru)[a] == leaf :: old(lru)[b] !in leaves
    {
    }

    lemma {:induction false} GoneFewer(c: map<seq<Token>, RadixNode>, node: RadixNode)
      ensures GoneCover(c, node).Keys <= c.Keys
    {
    }

    ghost function Leaves(): set<RadixNode>
      reads this`nodes, nodes`children
    {
      set n | n in nodes && n.children == map[]
    }

    // ---- commit --------------------------------------------------------------------

    /** Follows whole edges of `toks` and stops at the first one that does not match to its
        end: `curr` is the node reached at position `i`, `child` the edge that matches for `m`
        tokens only. */
    method Follow(toks: seq<Token>) returns (curr: RadixNode, i: nat, child: RadixNode?, m: nat)
      requires Valid()
      modifies this`lru, nodes`inLru
      ensures Listed()
      ensures curr in nodes && i <= |toks| && curr.path == toks[..i] && UsedLast(old(lru), toks, i)
      ensures child == null ==> LongestStored(toks, i) && (i < |toks| ==> toks[i] !in curr.children)
      ensures child != null ==> child.parent == curr && VisitOk(Visit(child, i, m), toks) && m < |child.prefix|
      ensures child != null ==> LongestStored(toks, i + m) && (i + m < |toks| ==> child.prefix[m] != toks[i + m])
      ensures child != null ==> curr.path + child.prefix[..m] == toks[..i + m]
    {
      hide *;
      ValidIs();
      curr, i, child, m := root, 0, null, 0;
      AtRoot(toks);
      while i < |toks|
        invariant curr in nodes && i <= |toks| && curr.path == toks[..i]
        invariant Listed() && UsedLast(old(lru), toks, i)
        invariant forall j: nat | 0 < j <= i :: toks[..j] in cover
      {
        child, m := Descend(curr, toks, i);
        if child == null {
          return;
        }
        VisitIs(child, i, m, toks);
        if m < |child.prefix| {
          VisitSpells(child, i, m, toks);
          return;
        }
        curr := child;
        Use(curr, old(lru), toks, i, m);
        i := i + m;
      }
      AllStored(toks);
      child := null;
    }

    lemma {:induction false} VisitSpells(c: RadixNode, i: nat, m: nat, toks: seq<Token>)
      requires Linked() && VisitOk(Visit(c, i, m), toks)
      ensures c.parent != null && c.parent.path + c.prefix[..m] == toks[..i + m]
    {
      assert Hangs(c);
      assert c.parent.path + c.prefix[..m] == c.path[..i + m];
    }

    static lemma {:induction false} SplitEdges(c: map<seq<Token>, RadixNode>, child: RadixNode, head: RadixNode, toks: seq<Token>, i: nat, m: nat)
      requires 0 < m && i + m <= |toks|
      requires forall j: nat | 0 < j <= i :: toks[..j] in c && c[toks[..j]] != child && c[toks[..j]] != head
      requires forall j: nat | i < j <= i + m :: toks[..j] in c && c[toks[..j]] == child
      ensures Edges(SplitCover(c, child, head, i + m), toks[..i + m]) == [head] + Edges(c, toks[..i])
    {
      var d := SplitCover(c, child, head, i + m);
      assert forall j: nat | j <= i :: toks[..i][..j] == toks[..j];
      EdgesSame(d, c, toks[..i]);
      EdgesGrow(d, toks, i, m, head);
    }

    /** Where the prefixes of `toks` end if its last stored one ends inside the edge `c`. */
    lemma {:induction false} EndsAlong(c: RadixNode, i: nat, m: nat, toks: seq<Token>)
      requires Covered() && VisitOk(Visit(c, i, m), toks) && LongestStored(toks, i + m)
      ensures forall j: nat | 0 < j <= i :: toks[..j] in cover && cover[toks[..j]] != c && cover[toks[..j]] in nodes
      ensures forall j: nat | i < j <= i + m :: toks[..j] in cover && cover[toks[..j]] == c
      ensures i + m <= |toks| && forall j: nat | 0 < j <= |toks| :: toks[..j] in cover <==> j <= i + m
    {
      forall j: nat | 0 < j <= i + m
        ensures toks[..j] in cover && cover[toks[..j]] in nodes && (cover[toks[..j]] == c <==> j > i)
      {
        assert EndsIn(toks[..j]);
        assert toks[..j] == toks[..i + m][..j] == c.path[..j];
        if j > i {
          assert Stores(c, j);
        }
      }
    }

    /** Splits the edge in which the stored prefix of `toks` ends; the upper part is used last. */
    method SplitAt(curr: RadixNode, child: RadixNode, i: nat, m: nat, ghost toks: seq<Token>, ghost was: seq<RadixNode>)
      returns (head: RadixNode)
      requires Valid() && curr in nodes && child.parent == curr && VisitOk(Visit(child, i, m), toks) && m < |child.prefix|
      requires LongestStored(toks, i + m) && (i + m < |toks| ==> child.prefix[m] != toks[i + m])
      requires curr.path + child.prefix[..m] == toks[..i + m]
      requires UsedLast(was, toks, i) && forall n | n in was :: n in nodes
      modifies this`lru, this`currentBytes, this`nodes, this`cover
      modifies curr`children, child`prefix, child`kBlock, child`vBlock, child`parent
      ensures Valid() && fresh(head) && nodes == old(nodes) + {head} && cover.Keys == old(cover.Keys)
      ensures head.path == toks[..i + m] && UsedLast(was, toks, i + m) && LongestStored(toks, i + m)
      ensures i + m < |toks| ==> toks[i + m] !in head.children
    {
      hide *;
      ValidIs();
      VisitIs(child, i, m, toks);
      EndsAlong(child, i, m, toks);
      UsedIs(was, toks, i);
      ghost var c, next := cover, child.prefix[m];
      head := Split(curr, child, m);
      SplitEdges(c, child, head, toks, i, m);
      FrontNew(was, Edges(c, toks[..i]), head);
      IsUsed(was, toks, i + m);
      SameStored(c, toks, i + m);
      assert next in head.children.Keys && forall t | t in head.children.Keys :: t == next;
    }

    lemma {:induction false} UsedIs(was: seq<RadixNode>, toks: seq<Token>, i: nat)
      requires i <= |toks| && UsedLast(was, toks, i)
      ensures lru == Edges(cover, toks[..i]) + Others(was, Edges(cover, toks[..i]))
    {
    }

    lemma {:induction false} IsUsed(was: seq<RadixNode>, toks: seq<Token>, i: nat)
      requires i <= |toks| && lru == Edges(cover, toks[..i]) + Others(was, Edges(cover, toks[..i]))
      ensures UsedLast(was, toks, i)
    {
    }

    lemma {:induction false} SameStored(c: map<seq<Token>, RadixNode>, toks: seq<Token>, m: nat)
      requires m <= |toks| && forall j: nat | 0 < j <= |toks| :: toks[..j] in c <==> j <= m
      requires cover.Keys == c.Keys
      ensures LongestStored(toks, m)
    {
      assert forall q :: q in cover <==> q in cover.Keys;
    }

    /** The node where the stored prefix of `toks` ends, splitting an edge if it ends inside. */
    method Reach(toks: seq<Token>) returns (curr: RadixNode, i: nat)
      requires Valid()
      modifies this`lru, this`currentBytes, this`nodes, this`cover
      modifies nodes`prefix, nodes`children, nodes`parent, nodes`kBlock, nodes`vBlock, nodes`inLru
      ensures Valid() && fresh(nodes - old(nodes)) && old(nodes) <= nodes
      ensures cover.Keys == old(cover.Keys)
      ensures curr in nodes && i <= |toks| && curr.path == toks[..i] && LongestStored(toks, i) && UsedLast(old(lru), toks, i)
      ensures i < |toks| ==> toks[i] !in curr.children
    {
      hide *;
      ValidIs();
      var child, m;
      curr, i, child, m := Follow(toks);
      IsValid();
      if child != null {
        VisitIs(child, i, m, toks);
        curr := SplitAt(curr, child, i, m, toks, old(lru));
        i := i + m;
      }
    }

    lemma {:induction false} NothingNew(toks: seq<Token>)
      requires LongestStored(toks, |toks|)
      ensures cover.Keys == cover.Keys + Ends(toks, 0, |toks|)
    {
      assert forall j: nat | 0 < j <= |toks| :: toks[..j] in cover;
    }

    /** Stores every prefix of `toks`; the edges they end in are the last to be used. */
    method Insert(toks: seq<Token>, kFn: (nat, nat) -> Vec, vFn: (nat, nat) -> Vec)
      requires Valid()
      requires forall l: nat, p: nat | l < nLayers && p < |toks| :: kFn(l, p) == Wanted(rowOf, toks, p, l, Key)
      requires forall l: nat, p: nat | l < nLayers && p < |toks| :: vFn(l, p) == Wanted(rowOf, toks, p, l, Value)
      modifies this`lru, this`currentBytes, this`nodes, this`cover
      modifies nodes`prefix, nodes`children, nodes`parent, nodes`kBlock, nodes`vBlock, nodes`inLru
      ensures Valid() && fresh(nodes - old(nodes)) && UsedLast(old(lru), toks, |toks|)
      ensures cover.Keys == old(cover.Keys) + Ends(toks, 0, |toks|)
    {
      hide *;
      ValidIs();
      var curr, i := Reach(toks);
      if i < |toks| {
        AddLeaf(curr, toks, i, kFn, vFn, old(lru));
      } else {
        NothingNew(toks);
      }
    }

    /** No stored sequence goes on behind the edge. */
    static ghost predicate IsLast(c: map<seq<Token>, RadixNode>, n: RadixNode)
      reads n`path
    {
      forall q | q in c && |n.path| < |q| :: q[..|n.path|] != n.path
    }

    lemma {:induction false} LeafIff(n: RadixNode)
      requires Linked() && Covered() && n in nodes
      ensures n.children == map[] <==> IsLast(cover, n)
    {
      var k := |n.path|;
      if q :| q in cover && k < |q| && q[..k] == n.path {
        PrefixStored(q, k + 1);
        assert q[..k + 1][..k] == q[..k];
        NextStored(n, q[..k + 1]);
      }
      if t :| t in n.children {
        assert Holds(n, t) && Hangs(n.children[t]);
        CoverOfPath(n.children[t]);
        assert n.children[t].path[..k] == n.path;
      }
    }

    static ghost function LastOf(c: map<seq<Token>, RadixNode>, all: seq<RadixNode>): set<RadixNode>
      reads all`path
    {
      set n | n in all && IsLast(c, n)
    }

    /** What a commit leaves: first the edges of `toks` stand in front, `full` being all that is stored
        then; of these leaves are evicted, least recently used first and none too many. */
    ghost predicate Evicted(was: seq<RadixNode>, full: map<seq<Token>, RadixNode>, toks: seq<Token>)
      reads this`lru, this`cover, this`currentBytes, Fronted(was, full, toks)`path, Fronted(was, full, toks)`prefix
      reads Fronted(was, full, toks)`kBlock, Fronted(was, full, toks)`vBlock
    {
      var all := Fronted(was, full, toks);
      && LeftBy(full, cover, lru) && LruLeft(all, lru, LastOf(full, all))
      && if |full| * TokenBytes() <= maxBytes then cover == full && lru == all else NoneTooMany(all)
    }

    lemma {:induction false} LeavesAreLast()
      requires Linked() && Covered() && Listed()
      ensures forall n | n in lru :: n in Leaves() <==> n in LastOf(cover, lru)
    {
      forall n | n in lru
        ensures n.children == map[] <==> IsLast(cover, n)
      {
        LeafIff(n);
      }
    }

    static lemma {:induction false} SameLeaves(was: seq<RadixNode>, now: seq<RadixNode>, a: set<RadixNode>, b: set<RadixNode>)
      requires LruLeft(was, now, a) && forall n | n in was :: n in a <==> n in b
      ensures LruLeft(was, now, b)
    {
    }

    lemma {:induction false} IsEvicted(was: seq<RadixNode>, all: seq<RadixNode>, full: map<seq<Token>, RadixNode>, toks: seq<Token>)
      requires all == Fronted(was, full, toks)
      requires LeftBy(full, cover, lru) && LruLeft(all, lru, LastOf(full, all))
      requires (cover == full && lru == all) || (|full| * TokenBytes() > maxBytes && NoneTooMany(all))
      requires cover == full ==> currentBytes == |full| * TokenBytes()
      requires currentBytes <= maxBytes
      ensures Evicted(was, full, toks)
    {
    }

    /** Stores every prefix of `toks`, then evicts what does not fit the budget; `full` is all that was stored
        in between. */
    method Commit(toks: seq<Token>, kFn: (nat, nat) -> Vec, vFn: (nat, nat) -> Vec) returns (ghost full: map<seq<Token>, RadixNode>)
      requires Valid()
      requires forall l: nat, p: nat | l < nLayers && p < |toks| :: kFn(l, p) == Wanted(rowOf, toks, p, l, Key)
      requires forall l: nat, p: nat | l < nLayers && p < |toks| :: vFn(l, p) == Wanted(rowOf, toks, p, l, Value)
      modifies this`lru, this`currentBytes, this`nodes, this`cover
      modifies nodes`prefix, nodes`children, nodes`parent, nodes`kBlock, nodes`vBlock, nodes`inLru
      ensures Valid() && fresh(nodes - old(nodes))
      ensures toks == [] || maxBytes == 0 ==> cover == old(cover) && lru == old(lru) && currentBytes == old(currentBytes)
      ensures toks != [] && maxBytes != 0 ==>
                full.Keys == old(cover.Keys) + Ends(toks, 0, |toks|) && currentBytes <= maxBytes && Evicted(old(lru), full, toks)
      ensures cover.Keys <= old(cover.Keys) + Ends(toks, 0, |toks|)
      ensures toks != [] && maxBytes > 0 && |old(cover.Keys) + Ends(toks, 0, |toks|)| * TokenBytes() <= maxBytes
              ==> cover.Keys == old(cover.Keys) + Ends(toks, 0, |toks|)
    {
      full := cover;
      if toks == [] || maxBytes == 0 {
        return;
      }
      hide *;
      Insert(toks, kFn, vFn);
      full := cover;
      WholeUsed(old(lru), toks);
      Trim(old(lru), toks);
    }

    /** Evicts what does not fit once the edges of `toks` stand in front. */
    method Trim(ghost was: seq<RadixNode>, ghost toks: seq<Token>)
      requires Valid() && lru == Fronted(was, cover, toks)
      modifies this`lru, this`currentBytes, this`nodes, this`cover, nodes`inLru, nodes`children
      ensures Valid() && currentBytes <= maxBytes && nodes <= old(nodes) && cover.Keys <= old(cover.Keys)
      ensures Evicted(was, old(cover), toks) && (|old(cover.Keys)| * TokenBytes() <= maxBytes ==> cover == old(cover))
    {
      hide *;
      ValidIs();
      BytesAre();
      LeavesAreLast();
      ghost var all, leaves, last := lru, Leaves(), LastOf(cover, lru);
      EvictUntilFits();
      SameLeaves(all, lru, leaves, last);
      ValidIs();
      BytesAre();
      IsEvicted(was, all, old(cover), toks);
    }

    lemma {:induction false} WholeUsed(was: seq<RadixNode>, toks: seq<Token>)
      requires UsedLast(was, toks, |toks|)
      ensures lru == Fronted(was, cover, toks)
    {
      assert toks[..|toks|] == toks;
    }

    lemma {:induction false} BytesAre()
      requires Counted()
      ensures currentBytes == |cover| * TokenBytes() == |cover.Keys| * TokenBytes()
    {
      assert |cover| == |cover.Keys|;
    }

    // ---- the byte count is the sum over the live nodes -----------------------------

    /** The prefixes whose edge is in `s`. */
    ghost function KeysOf(s: seq<RadixNode>): set<seq<Token>>
      reads this`cover
    {
      set q | q in cover && cover[q] in s
    }

    lemma {:induction false} KeysOfEdge(n: RadixNode, rest: seq<RadixNode>)
      requires Valid() && n in nodes && n != root && n !in rest
      ensures |KeysOf([n] + rest)| == |n.prefix| + |KeysOf(rest)|
    {
      EdgeCounted(n);
      var ends := Ends(n.path, |n.path| - |n.prefix|, |n.path|);
      forall q | q in cover
        ensures cover[q] == n <==> q in ends
      {
        assert EndsIn(q);
        if q in ends {
          var j: nat :| |n.path| - |n.prefix| < j <= |n.path| && q == n.path[..j];
          assert Stores(n, j);
        }
      }
      assert KeysOf([n] + rest) == ends + KeysOf(rest);
      assert ends !! KeysOf(rest);
    }

    lemma {:induction false} SumOfKeys(s: seq<RadixNode>)
      requires Valid() && (forall n | n in s :: n in nodes && n != root && multiset(s)[n] == 1)
      ensures SumBytes(s, kvDim) == |KeysOf(s)| * TokenBytes()
    {
      if s == [] {
        assert KeysOf(s) == {};
      } else {
        var n, rest := s[0], s[1..];
        assert s == [n] + rest && multiset(s) == multiset{n} + multiset(rest);
        forall m | m in rest
          ensures m in s && multiset(rest)[m] == 1 && m != n
        {
          assert m in multiset(rest);
        }
        SumOfKeys(rest);
        KeysOfEdge(n, rest);
        EdgeFits(n);
        Distribute(|n.prefix|, |KeysOf(rest)|, TokenBytes());
      }
    }

    lemma {:induction false} BytesAreSum()
      requires Valid()
      ensures currentBytes == SumBytes(lru, kvDim) == |cover| * (nLayers * kvDim * 2 * 4 + 8)
    {
      assert nLayers * kvDim * 2 * 4 == nLayers * kvDim * 8;
      forall n | n in lru
        ensures n in nodes && n != root && multiset(lru)[n] == 1
      {
        assert n in multiset(lru);
      }
      SumOfKeys(lru);
      forall q | q in cover
        ensures q in KeysOf(lru)
      {
        CoverListed(q);
      }
      assert KeysOf(lru) == cover.Keys;
    }
  }
}
