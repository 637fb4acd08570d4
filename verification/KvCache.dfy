/** The KV cache: per layer either every row, or a ring of W rows in which position p
    lives in slot p % W. */
module KvCaching {
  import opened Network

  function SlotOf(w: nat, p: nat): nat {
    if w > 0 then p % w else p
  }

  /** The row a read of position `p` returns; a slot nobody wrote reads as empty. */
  function Fetch(m: map<nat, Row>, w: nat, p: nat): Row {
    if SlotOf(w, p) in m then m[SlotOf(w, p)] else Row([], [])
  }

  /** The layer after a write of position `p`. */
  function Put(m: map<nat, Row>, w: nat, p: nat, row: Row): map<nat, Row> {
    m[SlotOf(w, p) := row]
  }

  /** Oldest position a query at `n` may attend over when the window is at most `w`. */
  function Needed(w: nat, n: nat): nat {
    if w > 0 && n + 1 > w then n + 1 - w else 0
  }

  /** Oldest position still stored once `n` positions have been written. */
  function FirstValid(w: nat, n: nat): nat {
    if w > 0 && n > w then n - w else 0
  }

  /** Positions [lo, n) of layer `l` hold the rows of `toks`. */
  ghost predicate Holds(m: map<nat, Row>, net: Net, toks: seq<Token>, l: nat, lo: nat, n: nat)
    requires n <= |toks|
  {
    forall p: nat | lo <= p < n :: Fetch(m, net.ring(l), p) == RowAt(net, toks, l, p)
  }

  lemma {:induction false} MulAtLeast(w: nat, d: int)
    ensures d >= 1 ==> w * d >= w
    ensures d <= -1 ==> w * d <= -(w as int)
  {
    if d >= 1 {
      assert w * d == w + w * (d - 1);
    } else if d <= -1 {
      assert w * d == -(w as int) + w * (d + 1);
    }
  }

  lemma {:induction false} ModUnique(x: nat, w: nat, k: int, r: nat)
    requires r < w && x == w * k + r
    ensures x % w == r
  {
    var d := x / w - k;
    assert w * d == r - x % w;
    MulAtLeast(w, d);
  }

  /** Two positions less than a ring apart never share a slot. */
  lemma {:induction false} SlotsDiffer(w: nat, p: nat, q: nat)
    requires p < q && (w == 0 || q < p + w)
    ensures SlotOf(w, p) != SlotOf(w, q)
  {
    if w > 0 {
      var r := p % w + (q - p);
      if r < w {
        ModUnique(q, w, p / w, r);
      } else {
        ModUnique(q, w, p / w + 1, r - w);
      }
    }
  }

  /** Writing position `n` keeps every row the next query can need. */
  lemma {:induction false} WriteKeeps(m: map<nat, Row>, net: Net, toks: seq<Token>, l: nat, lo: nat, n: nat)
    requires n < |toks| && Holds(m, net, toks, l, lo, n)
    ensures Holds(Put(m, net.ring(l), n, RowAt(net, toks, l, n)), net, toks, l,
                  if lo < FirstValid(net.ring(l), n + 1) then FirstValid(net.ring(l), n + 1) else lo, n + 1)
  {
    var w := net.ring(l);
    forall p: nat | FirstValid(w, n + 1) <= p < n
      ensures SlotOf(w, p) != SlotOf(w, n)
    {
      SlotsDiffer(w, p, n);
    }
  }

  // ---- rewinding a ring --------------------------------------------------------

  /** After `written` positions, slot p % w still holds position `p`. */
  ghost predicate Resident(w: nat, p: nat, written: nat) {
    p < written && forall q: nat | p < q < written :: SlotOf(w, q) != SlotOf(w, p)
  }

  lemma {:induction false} ResidentExact(w: nat, p: nat, written: nat)
    requires p < written
    ensures Resident(w, p, written) <==> w == 0 || written <= p + w
  {
    if w == 0 || written <= p + w {
      forall q: nat | p < q < written
        ensures SlotOf(w, q) != SlotOf(w, p)
      {
        SlotsDiffer(w, p, q);
      }
    } else {
      ModUnique(p + w, w, p / w + 1, p % w);
      assert SlotOf(w, p + w) == SlotOf(w, p);
    }
  }

  /** May the sequence be cut back to [0, pos) after `written` positions? */
  predicate CanRewind(rings: seq<nat>, pos: nat, written: nat) {
    forall l | 0 <= l < |rings| :: rings[l] == 0 || written <= rings[l] || pos + 1 >= written
  }

  /** The guard is exact: a ring layer of more than one row passes it if and only if every
      row that the query at `pos` may attend over is still in its slot. */
  lemma {:induction false} CanRewindExact(w: nat, pos: nat, written: nat)
    requires 0 < pos <= written && w != 1
    ensures CanRewind([w], pos, written) <==>
            forall p: nat | Needed(w, pos) <= p < pos :: Resident(w, p, written)
  {
    forall p: nat | p < pos
      ensures Resident(w, p, written) <==> w == 0 || written <= p + w
    {
      ResidentExact(w, p, written);
    }
    assert CanRewind([w], pos, written) <==> w == 0 || written <= w || pos + 1 >= written by {
      assert CanRewind([w], pos, written) ==> [w][0] == 0 || written <= [w][0] || pos + 1 >= written;
    }
    if !CanRewind([w], pos, written) {
      var p := Needed(w, pos);
      assert p < pos && !Resident(w, p, written);
    }
  }

  /** Does a layer with ring `w` still hold what the query at `pos` needs, after `written`
      positions? A ring of one row never looks back. */
  predicate RowsLeft(w: nat, pos: nat, written: nat) {
    w <= 1 || written <= w || pos + 1 >= written
  }

  lemma {:induction false} RowsLeftExact(w: nat, pos: nat, written: nat)
    requires 0 < pos <= written
    ensures RowsLeft(w, pos, written) <==> forall p: nat | Needed(w, pos) <= p < pos :: Resident(w, p, written)
  {
    if w != 1 {
      CanRewindExact(w, pos, written);
      assert CanRewind([w], pos, written) <==> [w][0] == 0 || written <= [w][0] || pos + 1 >= written;
    }
  }

  /** A rejected speculative draft is a rewind too: `written` positions were stored, `pos`
      are kept. A ring then loses rows the next query needs if and only if it had already
      wrapped and at least two stale rows were stored behind `pos`. */
  lemma {:induction false} RejectedDraftLosesRows(w: nat, pos: nat, written: nat)
    requires 0 < pos <= written && w > 1
    ensures (exists p: nat :: Needed(w, pos) <= p < pos && !Resident(w, p, written))
            <==> written > w && written >= pos + 2
  {
    CanRewindExact(w, pos, written);
    assert CanRewind([w], pos, written) <==> [w][0] == 0 || written <= [w][0] || pos + 1 >= written;
  }

  /** A call that rewinds from `written` to `r1` positions and then fails leaves the guard with
      `r1` as its record of what was stored. The next rewind, to `r2`, then passes although a
      row it needs is gone if and only if the ring had wrapped over it and `r1` does not show it. */
  lemma {:induction false} FailedCallMisleadsGuard(w: nat, r2: nat, r1: nat, written: nat)
    requires 0 < r2 <= r1 <= written && w > 1
    ensures CanRewind([w], r2, r1) && (exists p: nat :: Needed(w, r2) <= p < r2 && !Resident(w, p, written))
            <==> written > w && r2 + 1 < written && (r1 <= w || r2 + 1 >= r1)
  {
    CanRewindExact(w, r2, written);
    assert CanRewind([w], r2, written) <==> [w][0] == 0 || written <= [w][0] || r2 + 1 >= written;
    assert CanRewind([w], r2, r1) <==> [w][0] == 0 || r1 <= [w][0] || r2 + 1 >= r1;
  }

  lemma {:induction false} SlotBelow(w: nat, p: nat)
    requires w == 0 || p < w
    ensures SlotOf(w, p) == p
  {
  }

  /** A ring still holds every position from 0 on exactly while it has not wrapped. */
  lemma {:induction false} AllResidentIff(w: nat, n: nat)
    ensures (forall p: nat | p < n :: Resident(w, p, n)) <==> w == 0 || n <= w
  {
    forall p: nat | p < n
      ensures Resident(w, p, n) <==> w == 0 || n <= p + w
    {
      ResidentExact(w, p, n);
    }
    if n > 0 {
      ResidentExact(w, 0, n);
    }
  }

  // ---- the cache object --------------------------------------------------------

  /** A full-cache layer after its leading positions were overwritten with `src`. */
  function Overlay(m: map<nat, Row>, src: seq<Row>): map<nat, Row> {
    if src == [] then m
    else Put(Overlay(m, src[..|src| - 1]), 0, |src| - 1, src[|src| - 1])
  }

  lemma {:induction false} OverlayAt(m: map<nat, Row>, src: seq<Row>, p: nat)
    ensures Fetch(Overlay(m, src), 0, p) == if p < |src| then src[p] else Fetch(m, 0, p)
  {
    if src != [] {
      OverlayAt(m, src[..|src| - 1], p);
    }
  }

  /** Nothing but layer `l` differs. */
  ghost predicate SameElsewhere(a: map<nat, map<nat, Row>>, b: map<nat, map<nat, Row>>, l: nat) {
    forall k: nat | k != l :: (k in a <==> k in b) && (k in a ==> a[k] == b[k])
  }

  /** One machine's cache of layers [base, base + |ring|). */
  class KvCache {
    const base: nat
    const ring: seq<nat>
    const maxCtx: nat
    var rows: map<nat, map<nat, Row>>
    var seqLen: nat

    predicate Owns(l: nat) {
      base <= l < base + |ring|
    }

    function Layer(l: nat): map<nat, Row>
      reads this`rows
    {
      if l in rows then rows[l] else map[]
    }

    constructor (base: nat, ring: seq<nat>, maxCtx: nat)
      ensures this.base == base && this.ring == ring && this.maxCtx == maxCtx
      ensures rows == map[] && seqLen == 0
    {
      this.base, this.ring, this.maxCtx := base, ring, maxCtx;
      rows, seqLen := map[], 0;
    }

    /** The position reads back as the row; positions in other slots and other layers as before. */
    method Write(l: nat, p: nat, row: Row)
      requires Owns(l)
      modifies this`rows
      ensures Read(l, p) == row
      ensures forall q: nat | SlotOf(ring[l - base], q) != SlotOf(ring[l - base], p) :: Read(l, q) == old(Read(l, q))
      ensures SameElsewhere(old(rows), rows, l)
      ensures l in rows && rows[l] == Put(old(Layer(l)), ring[l - base], p, row)
    {
      rows := rows[l := Put(Layer(l), ring[l - base], p, row)];
    }

    function Read(l: nat, p: nat): Row
      reads this`rows
      requires Owns(l)
    {
      Fetch(Layer(l), ring[l - base], p)
    }

    method SetSeqLen(n: nat)
      modifies this`seqLen
      ensures seqLen == n
    {
      seqLen := n;
    }

    /** Copies `src` over positions [0, |src|) of a layer that has as many slots. */
    method Inject(l: nat, src: seq<Row>)
      requires Owns(l) && (ring[l - base] == 0 || |src| <= ring[l - base]) && |src| <= maxCtx
      modifies this`rows, this`seqLen
      ensures forall p: nat | p < |src| :: Read(l, p) == src[p]
      ensures forall k: nat | k != l :: Layer(k) == old(Layer(k))
      ensures Layer(l) == Overlay(old(Layer(l)), src)
      ensures seqLen == if |src| > old(seqLen) then |src| else old(seqLen)
    {
      var m := Layer(l);
      for p := 0 to |src|
        invariant m == Overlay(Layer(l), src[..p])
      {
        assert src[..p + 1][..p] == src[..p];
        m := Put(m, 0, p, src[p]);
      }
      assert src[..|src|] == src;
      rows := rows[l := m];
      forall p: nat | p < |src|
        ensures Read(l, p) == src[p]
      {
        OverlayAt(old(Layer(l)), src, p);
        SlotBelow(ring[l - base], p);
      }
      if |src| > seqLen {
        seqLen := |src|;
      }
    }
  }
}
