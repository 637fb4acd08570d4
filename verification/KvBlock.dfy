/** A block of cached vectors laid out [layer][position], as the semantic cache stores and
    stages them, and the layer-by-layer copies that re-slice it. */
module KvBlocks {
  import opened Arithmetic
  import opened Network

  /** The vector of `layer` and position `p` in a block of `len` positions per layer. */
  function Cell(blk: seq<Vec>, len: nat, layer: nat, p: nat): Vec {
    if layer * len + p < |blk| then blk[layer * len + p] else []
  }

  lemma {:induction false} CellInside(layers: nat, len: nat, layer: nat, p: nat)
    requires layer < layers && p < len
    ensures layer * len + p < layers * len
  {
    assert (layer + 1) * len <= layers * len by {
      MulMonotone(layer + 1, layers, len);
    }
    assert (layer + 1) * len == layer * len + len;
  }

  /** Positions [from, to) of every layer, laid out as a block of their own. */
  function Columns(blk: seq<Vec>, layers: nat, len: nat, from: nat, to: nat): (r: seq<Vec>)
    requires |blk| == layers * len && from <= to <= len
    ensures |r| == layers * (to - from)
  {
    if layers == 0 then []
    else
      MulMonotone(layers - 1, layers, len);
      assert (layers - 1) * len + len == layers * len;
      assert (layers - 1) * (to - from) + (to - from) == layers * (to - from);
      Columns(blk[..(layers - 1) * len], layers - 1, len, from, to)
      + blk[(layers - 1) * len + from..(layers - 1) * len + to]
  }

  /** A cell of the blocks before the last layer, and a cell of the last. */
  lemma {:induction false} CellOfParts(head: seq<Vec>, tail: seq<Vec>, m: nat, width: nat, l: nat, p: nat)
    requires |head| == m * width && |tail| == width && p < width && l <= m
    ensures Cell(head + tail, width, l, p) == if l < m then Cell(head, width, l, p) else tail[p]
  {
    if l < m {
      CellInside(m, width, l, p);
    }
  }

  lemma {:induction false} ColumnsCell(blk: seq<Vec>, layers: nat, len: nat, from: nat, to: nat, l: nat, p: nat)
    requires |blk| == layers * len && from <= to <= len && l < layers && p < to - from
    ensures Cell(Columns(blk, layers, len, from, to), to - from, l, p) == Cell(blk, len, l, from + p)
    decreases layers
  {
    var m, width := layers - 1, to - from;
    MulMonotone(m, layers, len);
    assert m * len + len == layers * len;
    var mine, last := blk[..m * len], blk[m * len..];
    var head, tail := Columns(mine, m, len, from, to), blk[m * len + from..m * len + to];
    assert Columns(blk, layers, len, from, to) == head + tail;
    assert blk == mine + last;
    hide Columns, Cell;
    CellOfParts(head, tail, m, width, l, p);
    CellOfParts(mine, last, m, len, l, from + p);
    if l < m {
      ColumnsCell(mine, m, len, from, to, l, p);
    }
  }

  /** The re-slicing loop of a radix split: one copy per layer. */
  method CopyColumns(blk: seq<Vec>, layers: nat, len: nat, from: nat, to: nat) returns (r: seq<Vec>)
    requires |blk| == layers * len && from <= to <= len
    ensures r == Columns(blk, layers, len, from, to)
  {
    r := [];
    for l := 0 to layers
      invariant l * len <= layers * len
      invariant r == Columns(blk[..l * len], l, len, from, to)
    {
      MulMonotone(l + 1, layers, len);
      assert (l + 1) * len == l * len + len;
      assert blk[..(l + 1) * len][..l * len] == blk[..l * len];
      r := r + blk[l * len + from..l * len + to];
    }
    assert blk[..layers * len] == blk;
  }

  /** A block with one run of cells overwritten, as memcpy leaves it. */
  function Paste(blk: seq<Vec>, at: nat, src: seq<Vec>): (r: seq<Vec>)
    requires at + |src| <= |blk|
    ensures |r| == |blk|
  {
    blk[..at] + src + blk[at + |src|..]
  }

  lemma {:induction false} PasteAt(blk: seq<Vec>, at: nat, src: seq<Vec>, i: nat)
    requires at + |src| <= |blk| && i < |blk|
    ensures Paste(blk, at, src)[i] == if at <= i < at + |src| then src[i - at] else blk[i]
  {
  }

  /** A cell lies in a run of one layer exactly if it is of that layer and in that range. */
  lemma {:induction false} InRun(len: nat, layer: nat, from: nat, n: nat, l: nat, p: nat)
    requires from + n <= len && p < len
    ensures layer * len + from <= l * len + p < layer * len + from + n <==> l == layer && from <= p < from + n
  {
    if l < layer {
      MulMonotone(l + 1, layer, len);
      assert (l + 1) * len == l * len + len;
    } else if layer < l {
      MulMonotone(layer + 1, l, len);
      assert (layer + 1) * len == layer * len + len;
    }
  }

  /** Pasting inside one layer changes the pasted positions of that layer and nothing else. */
  lemma {:induction false} PasteCell(blk: seq<Vec>, layers: nat, len: nat, layer: nat, from: nat, src: seq<Vec>, l: nat, p: nat)
    requires |blk| == layers * len && from + |src| <= len && l < layers && p < len
    requires layer * len + from + |src| <= |blk|
    ensures Cell(Paste(blk, layer * len + from, src), len, l, p)
            == if l == layer && from <= p < from + |src| then src[p - from] else Cell(blk, len, l, p)
  {
    CellInside(layers, len, l, p);
    InRun(len, layer, from, |src|, l, p);
    PasteAt(blk, layer * len + from, src, l * len + p);
  }

  /** A new block filled cell by cell, layer after layer. */
  method FillBlock(layers: nat, len: nat, from: nat, vec: (nat, nat) -> Vec) returns (blk: seq<Vec>)
    ensures |blk| == layers * len
    ensures forall l: nat, p: nat | l < layers && p < len :: Cell(blk, len, l, p) == vec(l, from + p)
  {
    blk := seq(layers * len, _ => []);
    for l := 0 to layers
      invariant |blk| == layers * len
      invariant forall l': nat, p: nat | l' < l && p < len :: Cell(blk, len, l', p) == vec(l', from + p)
    {
      for p := 0 to len
        invariant |blk| == layers * len
        invariant forall l': nat, p': nat | l' < l && p' < len :: Cell(blk, len, l', p') == vec(l', from + p')
        invariant forall p': nat | p' < p :: Cell(blk, len, l, p') == vec(l, from + p')
      {
        CellInside(layers, len, l, p);
        var next := Paste(blk, l * len + p, [vec(l, from + p)]);
        forall l': nat, p': nat | l' <= l && p' < len
          ensures Cell(next, len, l', p') == if l' == l && p' == p then vec(l, from + p) else Cell(blk, len, l', p')
        {
          PasteCell(blk, layers, len, l, p, [vec(l, from + p)], l', p');
        }
        blk := next;
      }
    }
  }

  method Memcpy(dst: array<Vec>, at: nat, src: seq<Vec>)
    requires at + |src| <= dst.Length
    modifies dst
    ensures dst[..] == Paste(old(dst[..]), at, src)
  {
    for j := 0 to |src|
      invariant forall i: nat | i < dst.Length :: dst[i] == if at <= i < at + j then src[i - at] else old(dst[i])
    {
      dst[at + j] := src[j];
    }
    assert dst[..] == Paste(old(dst[..]), at, src);
  }
}
