/** The network as the runtime sees it, and what it computes.

    Weights, kernels, norms, RoPE and the LM head are opaque: a `Net` is any choice of
    the functions below. What matters to the execution orders of transformer.cpp is only
    which inputs each of them may look at. */
module Network {
  type Token = nat
  type Vec = seq<real>

  /** One layer's key and value for one position. */
  datatype Row = Row(k: Vec, v: Vec)

  datatype Net = Net(
    layers: nat,
    window: nat -> nat,                       // attention window of a layer, 0 = whole context
    ring: nat -> nat,                         // rows the layer's cache keeps, 0 = all of them
    embed: (Token, nat) -> Vec,               // token at a position -> residual entering layer 0
    project: (nat, nat, Vec) -> Row,          // layer, position, residual -> K/V row
    attend: (nat, nat, Vec, seq<Row>) -> Vec, // layer, position, residual, rows of the span
    finish: (nat, nat, Vec, Vec) -> Vec,      // layer, position, residual, attention output
    head: Vec -> Vec)                         // final norm and LM head

  /** A ring keeps at least the window its layer attends over. */
  ghost predicate WellFormed(net: Net) {
    forall l :: 0 <= l < net.layers && net.ring(l) > 0 ==> 0 < net.window(l) <= net.ring(l)
  }

  /** Oldest position a query at `p` attends over, with a window of `win` (0 = no window). */
  function WindowStart(win: nat, p: nat): (t0: nat)
    ensures t0 <= p
  {
    if win > 0 && p + 1 > win then p + 1 - win else 0
  }

  function SpanStart(net: Net, l: nat, p: nat): (t0: nat)
    ensures t0 <= p
  {
    WindowStart(net.window(l), p)
  }

  /** The residual entering layer `l` at position `p`, defined by the causal dependency
      alone: no loop order, no cache, no batch. */
  ghost function Resid(net: Net, toks: seq<Token>, l: nat, p: nat): Vec
    requires p < |toks|
    decreases l, 2
  {
    if l == 0 then net.embed(toks[p], p)
    else
      var x := Resid(net, toks, l - 1, p);
      net.finish(l - 1, p, x, net.attend(l - 1, p, x, SpanRows(net, toks, l - 1, p)))
  }

  ghost function RowAt(net: Net, toks: seq<Token>, l: nat, p: nat): Row
    requires p < |toks|
    decreases l, 3
  {
    net.project(l, p, Resid(net, toks, l, p))
  }

  ghost function SpanRows(net: Net, toks: seq<Token>, l: nat, p: nat): (rows: seq<Row>)
    requires p < |toks|
    ensures |rows| == p + 1 - SpanStart(net, l, p)
    ensures forall j :: 0 <= j < |rows| ==> rows[j] == RowAt(net, toks, l, SpanStart(net, l, p) + j)
    decreases l, 4
  {
    var t0 := SpanStart(net, l, p);
    seq(p + 1 - t0, j requires 0 <= j < p + 1 - t0 => RowAt(net, toks, l, t0 + j))
  }

  /** The logits after the last token of `toks`. */
  ghost function Logits(net: Net, toks: seq<Token>): Vec
    requires |toks| > 0
  {
    net.head(Resid(net, toks, net.layers, |toks| - 1))
  }

  /** Nothing computed at position `p` depends on a later token. */
  lemma {:induction false} ResidCausal(net: Net, a: seq<Token>, b: seq<Token>, l: nat, p: nat)
    requires p < |a| && p < |b| && a[..p + 1] == b[..p + 1]
    ensures Resid(net, a, l, p) == Resid(net, b, l, p)
    decreases l, 0
  {
    assert a[p] == a[..p + 1][p] == b[p];
    if l > 0 {
      var m := l - 1;
      ResidCausal(net, a, b, m, p);
      forall q: nat | q <= p
        ensures RowAt(net, a, m, q) == RowAt(net, b, m, q)
      {
        assert a[..q + 1] == a[..p + 1][..q + 1] == b[..q + 1];
        ResidCausal(net, a, b, m, q);
      }
      assert SpanRows(net, a, l - 1, p) == SpanRows(net, b, l - 1, p);
    }
  }

  /** A position's row, at every layer, depends only on the tokens up to it. */
  lemma {:induction false} RowCausal(net: Net, a: seq<Token>, b: seq<Token>, l: nat, p: nat)
    requires p < |a| && p < |b| && a[..p + 1] == b[..p + 1]
    ensures RowAt(net, a, l, p) == RowAt(net, b, l, p)
  {
    ResidCausal(net, a, b, l, p);
  }

  // ---- the layers' equations -------------------------------------------------------

  /** The rows of the last positions up to `p`: all of them without a window, otherwise at most as many
      as it is wide. */
  ghost predicate IsSpan(net: Net, x: (nat, nat) -> Vec, l: nat, p: nat, span: seq<Row>) {
    && |span| == (if net.window(l) == 0 || p < net.window(l) then p + 1 else net.window(l))
    && forall i | 0 <= i < |span| :: span[i] == net.project(l, p + 1 - |span| + i, x(l, p + 1 - |span| + i))
  }

  /** Layer `l` at position `p`: attention over the span's rows, finished onto the residual. */
  ghost predicate LayerAt(net: Net, x: (nat, nat) -> Vec, l: nat, p: nat) {
    forall span | IsSpan(net, x, l, p, span) :: x(l + 1, p) == net.finish(l, p, x(l, p), net.attend(l, p, x(l, p), span))
  }

  ghost predicate Solves(net: Net, toks: seq<Token>, x: (nat, nat) -> Vec) {
    && (forall p: nat | p < |toks| :: x(0, p) == net.embed(toks[p], p))
    && (forall l: nat, p: nat | p < |toks| :: LayerAt(net, x, l, p))
  }

  lemma {:induction false} SpanIs(net: Net, toks: seq<Token>, x: (nat, nat) -> Vec, l: nat, p: nat, span: seq<Row>)
    requires p < |toks| && forall q: nat | q <= p :: x(l, q) == Resid(net, toks, l, q)
    ensures IsSpan(net, x, l, p, span) <==> span == SpanRows(net, toks, l, p)
  {
    var rows := SpanRows(net, toks, l, p);
    assert |rows| == (if net.window(l) == 0 || p < net.window(l) then p + 1 else net.window(l));
    forall i | 0 <= i < |rows|
      ensures rows[i] == net.project(l, p + 1 - |rows| + i, x(l, p + 1 - |rows| + i))
    {
      var q := SpanStart(net, l, p) + i;
      assert rows[i] == RowAt(net, toks, l, q);
    }
  }

  ghost predicate AreResids(net: Net, toks: seq<Token>, x: (nat, nat) -> Vec) {
    forall l: nat, p: nat | p < |toks| :: x(l, p) == Resid(net, toks, l, p)
  }

  lemma {:induction false} ResidSolves(net: Net, toks: seq<Token>, x: (nat, nat) -> Vec)
    requires AreResids(net, toks, x)
    ensures Solves(net, toks, x)
  {
    forall l: nat, p: nat | p < |toks|
      ensures LayerAt(net, x, l, p)
    {
      forall span | IsSpan(net, x, l, p, span)
        ensures x(l + 1, p) == net.finish(l, p, x(l, p), net.attend(l, p, x(l, p), span))
      {
        SpanIs(net, toks, x, l, p, span);
      }
    }
  }

  lemma {:induction false} SolutionIs(net: Net, toks: seq<Token>, x: (nat, nat) -> Vec, l: nat, p: nat)
    requires Solves(net, toks, x) && p < |toks|
    ensures x(l, p) == Resid(net, toks, l, p)
    decreases l
  {
    if l > 0 {
      var m := l - 1;
      forall q: nat | q <= p
        ensures x(m, q) == Resid(net, toks, m, q)
      {
        SolutionIs(net, toks, x, m, q);
      }
      SpanIs(net, toks, x, m, p, SpanRows(net, toks, m, p));
      assert LayerAt(net, x, m, p);
    }
  }

  /** The residuals are the one solution of the layers' equations, and the logits are the head of the
      last layer's at the last position. */
  lemma {:induction false} ResidIff(net: Net, toks: seq<Token>, x: (nat, nat) -> Vec)
    ensures Solves(net, toks, x) <==> AreResids(net, toks, x)
    ensures Solves(net, toks, x) && toks != [] ==> Logits(net, toks) == net.head(x(net.layers, |toks| - 1))
  {
    if Solves(net, toks, x) {
      forall l: nat, p: nat | p < |toks|
        ensures x(l, p) == Resid(net, toks, l, p)
      {
        SolutionIs(net, toks, x, l, p);
      }
    } else if AreResids(net, toks, x) {
      ResidSolves(net, toks, x);
    }
  }
}
