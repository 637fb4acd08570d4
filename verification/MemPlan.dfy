/** The memory planner: a search over context, head, ring depth and pinned layers for the best
    configuration that fits a byte budget, and the itemized refusal when none does. */
module MemPlanning {
  /** Bytes of everything that counts against the budget. */
  datatype Ledger = Ledger(base: nat, scratch: nat, logits: nat, attn: nat, resid: nat, outNorm: nat, embeddings: nat,
                           lmHead: nat, kv: nat, ring: nat, pinned: nat) {
    function Total(): nat {
      base + scratch + logits + attn + resid + outNorm + embeddings + lmHead + kv + ring + pinned
    }
  }

  /** What the planner reads off the model: fixed costs, sizes, and the price of a KV cache of a
      given context at the requested and at full precision. */
  datatype Model = Model(fixed: Ledger, nLayers: nat, layerSize: nat, dim: nat, ctxLen: nat, tied: bool,
                         outResident: nat, outStreamed: nat, kv: nat -> nat, kvFull: nat -> nat)

  datatype Request = Request(budget: nat, nThreads: nat, ctxReq: nat, ctxExplicit: bool, defaultCtxCap: nat,
                             nBuffersReq: nat, async: bool, streamHeadReq: bool, force: bool)

  /** The least a process is taken to need before any weight: 24 MiB. */
  const BASE_FLOOR: nat := 24 * 1024 * 1024

  ghost predicate Priced(m: Model) {
    && m.fixed.base >= BASE_FLOOR
    && m.nLayers > 0
    && m.fixed.attn == m.fixed.resid == m.fixed.lmHead == m.fixed.kv == m.fixed.ring == m.fixed.pinned == 0
    && (m.tied ==> m.outResident == 0 && m.outStreamed == 0)
    && forall ctx: nat :: m.kv(ctx) <= m.kvFull(ctx)
  }

  // ---- configurations ------------------------------------------------------------

  /** `buffers` is 0 when every layer is pinned and nothing streams. */
  datatype Config = Config(ctx: nat, streamHead: bool, buffers: nat, pinned: nat)

  function Min(a: nat, b: nat): nat {
    if a < b then a else b
  }

  function Max(a: nat, b: nat): nat {
    if a < b then b else a
  }

  /** The context to start from: what was asked for, or as much as the model and the default allow. */
  function StartCtx(m: Model, q: Request): (r: nat)
    ensures q.ctxReq > 0 ==> r == q.ctxReq
    ensures q.ctxReq == 0 && m.ctxLen > 0 ==> r <= m.ctxLen && r <= q.defaultCtxCap && (r == m.ctxLen || r == q.defaultCtxCap)
    ensures q.ctxReq == 0 && m.ctxLen == 0 ==> r == 2048
  {
    if q.ctxReq > 0 then q.ctxReq else if m.ctxLen > 0 then Min(m.ctxLen, q.defaultCtxCap) else 2048
  }

  /** start, start - 128, ... down to 128. */
  function StepsDown(start: nat): (s: seq<nat>) {
    if start < 128 then [] else [start] + StepsDown(start - 128)
  }

  function CtxCandidates(m: Model, q: Request): seq<nat> {
    if q.ctxExplicit then [q.ctxReq] else StepsDown(StartCtx(m, q))
  }

  function HeadOptions(m: Model, q: Request): seq<bool> {
    if !q.streamHeadReq && !m.tied then [q.streamHeadReq, true] else [q.streamHeadReq]
  }

  function BufferOptions(q: Request): seq<nat> {
    if q.async then [q.nBuffersReq, 1] else [1]
  }

  function CtxLedger(m: Model, q: Request, ctx: nat, streamHead: bool): Ledger {
    m.fixed.(attn := ctx * 4 * Max(1, q.nThreads), resid := ctx * m.dim * 4, kv := m.kv(ctx),
             lmHead := if streamHead then m.outStreamed else m.outResident)
  }

  function LedgerOf(m: Model, q: Request, c: Config): Ledger {
    CtxLedger(m, q, c.ctx, c.streamHead).(ring := c.buffers * m.layerSize, pinned := c.pinned * m.layerSize)
  }

  predicate Fits(m: Model, q: Request, c: Config) {
    LedgerOf(m, q, c).Total() <= q.budget
  }

  /** The configurations there are: every layer pinned, or any number of layers short of all pinned
      beside a streaming ring. */
  predicate Allowed(m: Model, q: Request, c: Config) {
    && c.ctx in CtxCandidates(m, q) && c.streamHead in HeadOptions(m, q)
    && (AllPinned(m, c) || (c.buffers in BufferOptions(q) && c.pinned < m.nLayers))
  }

  predicate AllPinned(m: Model, c: Config) {
    c.buffers == 0 && c.pinned == m.nLayers
  }

  // ---- priorities ----------------------------------------------------------------

  /** The planner's order as numbers. */
  function Score(c: Config): nat {
    c.ctx * 1_000_000 + (if c.buffers == 0 && c.pinned > 0 then 50_000_000 else 0) + (if !c.streamHead then 5_000_000 else 0)
    + (if c.buffers > 1 then 1_000_000 else 0) + c.pinned * 1000
  }

  /** The order it stands for: more context; then every layer pinned; then a resident head; then a
      ring of two or more; then more pinned layers. */
  predicate Better(m: Model, a: Config, b: Config) {
    if a.ctx != b.ctx then a.ctx > b.ctx
    else if AllPinned(m, a) != AllPinned(m, b) then AllPinned(m, a)
    else if a.streamHead != b.streamHead then !a.streamHead
    else if (a.buffers > 1) != (b.buffers > 1) then a.buffers > 1
    else a.pinned > b.pinned
  }

  lemma {:induction false} StepsApart(start: nat, a: nat, b: nat)
    requires a in StepsDown(start) && b in StepsDown(start) && a > b
    ensures a >= b + 128
  {
    if b == start {
      StepsBelow(start, a);
    } else if a == start {
      StepsBelow(start - 128, b);
    } else {
      StepsApart(start - 128, a, b);
    }
  }

  lemma {:induction false} StepsBelow(start: nat, a: nat)
    requires a in StepsDown(start)
    ensures 128 <= a <= start
  {
    if a != start {
      StepsBelow(start - 128, a);
    }
  }

  lemma {:induction false} StepsAre(start: nat, c: nat)
    ensures c in StepsDown(start) <==> 128 <= c <= start && (start - c) % 128 == 0
  {
    if start >= 128 {
      StepsAre(start - 128, c);
      if c <= start - 128 {
        assert (start - c) % 128 == (start - 128 - c) % 128;
      }
    }
  }

  /** What may be tried: the context asked for, or any 128 steps below it down to 128; a resident head
      unless the request or the model rules it out, or a streamed one where there is one to stream;
      every layer pinned, or fewer beside a ring of one buffer or of those asked for. */
  lemma {:induction false} AllowedIff(m: Model, q: Request, c: Config)
    ensures Allowed(m, q, c) <==>
            && (if q.ctxExplicit then c.ctx == q.ctxReq
                else 128 <= c.ctx <= StartCtx(m, q) && (StartCtx(m, q) - c.ctx) % 128 == 0)
            && (c.streamHead == q.streamHeadReq || (c.streamHead && !m.tied))
            && ((c.buffers == 0 && c.pinned == m.nLayers)
                || (c.pinned < m.nLayers && (c.buffers == 1 || (q.async && c.buffers == q.nBuffersReq))))
  {
    StepsAre(StartCtx(m, q), c.ctx);
  }

  /** The last candidate is the shortest. */
  lemma {:induction false} LastIsLeast(start: nat)
    requires start >= 128
    ensures var s := StepsDown(start); s != [] && forall c | c in s :: s[|s| - 1] <= c
  {
    var s, rest := StepsDown(start), StepsDown(start - 128);
    if rest != [] {
      LastIsLeast(start - 128);
      assert s == [start] + rest && s[|s| - 1] == rest[|rest| - 1];
      StepsBelow(start - 128, rest[|rest| - 1]);
    }
  }

  predicate TwoHeads(m: Model, q: Request) { !q.streamHeadReq && !m.tied }

  predicate DeepRing(q: Request) { q.async && q.nBuffersReq > 1 }

  /** When every tier outweighs all tiers under it: a ring of two or more beats any 1000 pinned
      layers, a resident head any 5000, a step of context any 78000; and a requested ring of no
      buffers passes for all layers pinned as soon as there are two layers. */
  predicate TiersHold(m: Model, q: Request) {
    if q.async && q.nBuffersReq == 0 then m.nLayers == 1
    else
      && (DeepRing(q) ==> m.nLayers <= 1000)
      && (TwoHeads(m, q) ==> m.nLayers <= 5000)
      && (!q.ctxExplicit && StartCtx(m, q) >= 256 ==> m.nLayers < 78000)
  }

  /** Score and priorities order the two alike. */
  predicate SameOrder(m: Model, a: Config, b: Config) {
    Better(m, a, b) <==> Score(a) > Score(b)
  }

  lemma {:induction false} TiersAreStrict(m: Model, q: Request, a: Config, b: Config)
    requires Allowed(m, q, a) && Allowed(m, q, b) && m.nLayers > 0 && TiersHold(m, q)
    ensures SameOrder(m, a, b)
  {
    if !q.ctxExplicit && a.ctx != b.ctx {
      StepsBelow(StartCtx(m, q), a.ctx);
      StepsBelow(StartCtx(m, q), b.ctx);
      if a.ctx > b.ctx {
        StepsApart(StartCtx(m, q), a.ctx, b.ctx);
      } else {
        StepsApart(StartCtx(m, q), b.ctx, a.ctx);
      }
    }
  }

  /** A pair the score puts in the wrong order: pinned layers against the ring, against the head,
      or all of them against a step of context; or a ring of no buffers. */
  function Misjudged(m: Model, q: Request, ctx: nat): (Config, Config)
    requires m.nLayers > 1
  {
    var head, most := q.streamHeadReq, m.nLayers - 1;
    if q.async && q.nBuffersReq == 0 then (Config(ctx, head, 0, 1), Config(ctx, head, 1, 1))
    else if DeepRing(q) && most >= 1000 then (Config(ctx, head, q.nBuffersReq, 0), Config(ctx, head, 1, most))
    else if TwoHeads(m, q) && most >= 5000 then (Config(ctx, false, 1, 0), Config(ctx, true, 1, most))
    else (Config(ctx, head, 1, 0), Config(if ctx >= 128 then ctx - 128 else 0, head, 0, m.nLayers))
  }

  /** The score orders every two configurations by priority if and only if the tiers hold. */
  lemma {:induction false} TiersIff(m: Model, q: Request)
    requires m.nLayers > 0 && (q.ctxExplicit || 128 <= StartCtx(m, q))
    ensures TiersHold(m, q) <==>
            forall a: Config, b: Config | Allowed(m, q, a) && Allowed(m, q, b) :: SameOrder(m, a, b)
  {
    if TiersHold(m, q) {
      forall a: Config, b: Config | Allowed(m, q, a) && Allowed(m, q, b)
        ensures SameOrder(m, a, b)
      {
        TiersAreStrict(m, q, a, b);
      }
    } else {
      var ctx := if q.ctxExplicit then q.ctxReq else StartCtx(m, q);
      var (a, b) := Misjudged(m, q, ctx);
      MisjudgedAllowed(m, q, ctx);
      assert !SameOrder(m, a, b);
    }
  }

  lemma {:induction false} MisjudgedAllowed(m: Model, q: Request, ctx: nat)
    requires m.nLayers > 1 && !TiersHold(m, q) && ctx == (if q.ctxExplicit then q.ctxReq else StartCtx(m, q))
    requires q.ctxExplicit || 128 <= StartCtx(m, q)
    ensures Allowed(m, q, Misjudged(m, q, ctx).0) && Allowed(m, q, Misjudged(m, q, ctx).1)
  {
    assert ctx in CtxCandidates(m, q);
    assert 1 in BufferOptions(q) && (q.async ==> q.nBuffersReq in BufferOptions(q));
    assert q.streamHeadReq in HeadOptions(m, q) && (TwoHeads(m, q) ==> true in HeadOptions(m, q));
    assert !q.ctxExplicit && ctx >= 256 ==> ctx - 128 in StepsDown(ctx);
  }

  // ---- the search ----------------------------------------------------------------

  /** The best found so far leads `c`, if `c` fits at all. */
  predicate Leads(m: Model, q: Request, found: bool, best: Config, c: Config) {
    Fits(m, q, c) ==> found && Score(c) <= Score(best)
  }

  /** One step of the search: what was found stays found, or something better replaces it. */
  predicate Keeps(found: bool, best: Config, found': bool, best': Config) {
    found ==> found' && Score(best) <= Score(best')
  }

  ghost predicate Sound(m: Model, q: Request, found: bool, best: Config) {
    found ==> Allowed(m, q, best) && Fits(m, q, best)
  }

  method Offer(m: Model, q: Request, c: Config, found: bool, best: Config) returns (found': bool, best': Config)
    requires Sound(m, q, found, best) && Allowed(m, q, c) && Fits(m, q, c)
    ensures Sound(m, q, found', best') && Keeps(found, best, found', best') && Leads(m, q, found', best', c) && found'
  {
    found', best' := found, best;
    if !found || Score(c) > Score(best) {
      found', best' := true, c;
    }
  }

  /** The most layers that fit beside a ring: no other number of layers does better. */
  lemma {:induction false} MostPinned(m: Model, q: Request, ctx: nat, head: bool, bufs: nat, most: nat, c: Config)
    requires m.layerSize > 0 && m.nLayers > 0
    requires var base := CtxLedger(m, q, ctx, head).Total() + bufs * m.layerSize;
             base <= q.budget && most == Min((q.budget - base) / m.layerSize, m.nLayers - 1)
    requires CtxLedger(m, q, ctx, head).ring == 0 && CtxLedger(m, q, ctx, head).pinned == 0
    requires c.ctx == ctx && c.streamHead == head && c.buffers == bufs && c.pinned < m.nLayers && Fits(m, q, c)
    ensures c.pinned <= most && Score(c) <= Score(Config(ctx, head, bufs, most))
  {
    var room := q.budget - (CtxLedger(m, q, ctx, head).Total() + bufs * m.layerSize);
    FloorMost(c.pinned, room, m.layerSize);
  }

  lemma {:induction false} FloorMost(n: nat, room: nat, size: nat)
    requires size > 0 && n * size <= room
    ensures n <= room / size
  {
    var k := room / size;
    assert room == k * size + room % size;
    assert n > k ==> (k + 1) * size <= n * size;
  }

  lemma {:induction false} FloorFits(most: nat, room: nat, size: nat)
    requires size > 0 && most <= room / size
    ensures most * size <= room
  {
    assert room == room / size * size + room % size;
    assert most * size <= room / size * size;
  }

  /** The planner divides what is left by the bytes of a layer, as soon as a ring of no bytes fits. */
  ghost predicate Faults(m: Model, q: Request) {
    m.layerSize == 0 && !Hopeless(m, q)
  }

  /** No configuration fits. */
  ghost predicate Hopeless(m: Model, q: Request) {
    forall c: Config | Allowed(m, q, c) :: !Fits(m, q, c)
  }

  /** Streaming through a ring of `bufs`, with as many pinned layers as fit. */
  method TryStreaming(m: Model, q: Request, ctx: nat, head: bool, bufs: nat, found: bool, best: Config)
    returns (fault: bool, found': bool, best': Config)
    requires Priced(m) && Sound(m, q, found, best)
    requires ctx in CtxCandidates(m, q) && head in HeadOptions(m, q) && bufs in BufferOptions(q)
    ensures fault <==> m.layerSize == 0 && Fits(m, q, Config(ctx, head, bufs, 0))
    ensures m.layerSize == 0 ==> found' == found
    ensures Sound(m, q, found', best') && Keeps(found, best, found', best')
    ensures !fault ==> forall c: Config | c.ctx == ctx && c.streamHead == head && c.buffers == bufs && c.pinned < m.nLayers ::
                         Leads(m, q, found', best', c)
  {
    fault, found', best' := false, found, best;
    var base := CtxLedger(m, q, ctx, head).Total();
    var ring := bufs * m.layerSize;
    if base + ring > q.budget {
      return;
    }
    if m.layerSize == 0 {
      return true, found, best;
    }
    var most := Min((q.budget - base - ring) / m.layerSize, m.nLayers - 1);
    FloorFits(most, q.budget - base - ring, m.layerSize);
    var mine := Config(ctx, head, bufs, most);
    found', best' := Offer(m, q, mine, found, best);
    forall c: Config | c.ctx == ctx && c.streamHead == head && c.buffers == bufs && c.pinned < m.nLayers && Fits(m, q, c)
      ensures Leads(m, q, found', best', c)
    {
      MostPinned(m, q, ctx, head, bufs, most, c);
    }
  }

  lemma {:induction false} AllFits(m: Model, q: Request, ctx: nat, head: bool)
    requires Priced(m)
    ensures var all := Config(ctx, head, 0, m.nLayers);
            && (Fits(m, q, all) <==> CtxLedger(m, q, ctx, head).Total() + m.nLayers * m.layerSize <= q.budget)
            && (m.layerSize == 0 && Fits(m, q, all) ==> forall bufs: nat :: Fits(m, q, Config(ctx, head, bufs, 0)))
            && m.nLayers > 0
  {
  }

  /** Everything there is for one context and one head. */
  method TryHead(m: Model, q: Request, ctx: nat, head: bool, found: bool, best: Config)
    returns (fault: bool, found': bool, best': Config)
    requires Priced(m) && Sound(m, q, found, best) && ctx in CtxCandidates(m, q) && head in HeadOptions(m, q)
    ensures fault ==> Faults(m, q)
    ensures Sound(m, q, found', best') && Keeps(found, best, found', best')
    ensures !fault ==> forall c: Config | Allowed(m, q, c) && c.ctx == ctx && c.streamHead == head :: Leads(m, q, found', best', c)
    ensures !fault && m.layerSize == 0 ==> found' == found
  {
    hide Fits, CtxLedger, Score, Priced;
    AllFits(m, q, ctx, head);
    found', best' := found, best;
    var all := Config(ctx, head, 0, m.nLayers);
    if CtxLedger(m, q, ctx, head).Total() + m.nLayers * m.layerSize <= q.budget {
      found', best' := Offer(m, q, all, found', best');
    }
    assert Leads(m, q, found', best', all);
    var bufs := BufferOptions(q);
    var b := 0;
    while b < |bufs|
      invariant b <= |bufs| && Sound(m, q, found', best') && Keeps(found, best, found', best') && Leads(m, q, found', best', all)
      invariant forall c: Config | c.ctx == ctx && c.streamHead == head && c.buffers in bufs[..b] && c.pinned < m.nLayers ::
                  Leads(m, q, found', best', c)
      invariant m.layerSize == 0 && b > 0 ==> !Fits(m, q, Config(ctx, head, bufs[0], 0))
      invariant m.layerSize == 0 && found' && !found ==> Fits(m, q, all)
    {
      fault, found', best' := TryStreaming(m, q, ctx, head, bufs[b], found', best');
      if fault {
        assert Allowed(m, q, Config(ctx, head, bufs[b], 0));
        return;
      }
      b := b + 1;
    }
    fault := false;
    assert bufs[..b] == bufs;
  }

  /** The best configuration of all, if any fits. */
  method Search(m: Model, q: Request) returns (fault: bool, found: bool, best: Config)
    requires Priced(m)
    ensures fault <==> Faults(m, q)
    ensures !fault && found ==> Allowed(m, q, best) && Fits(m, q, best)
    ensures !fault ==> forall c: Config | Allowed(m, q, c) :: Leads(m, q, found, best, c)
  {
    found, best := false, Config(0, false, 0, 0);
    var ctxs, heads := CtxCandidates(m, q), HeadOptions(m, q);
    var i := 0;
    while i < |ctxs|
      invariant i <= |ctxs| && Sound(m, q, found, best) && (m.layerSize == 0 ==> !found)
      invariant forall c: Config | Allowed(m, q, c) && c.ctx in ctxs[..i] :: Leads(m, q, found, best, c)
    {
      var h := 0;
      while h < |heads|
        invariant h <= |heads| && Sound(m, q, found, best) && (m.layerSize == 0 ==> !found)
        invariant forall c: Config | Allowed(m, q, c) && c.ctx in ctxs[..i] :: Leads(m, q, found, best, c)
        invariant forall c: Config | Allowed(m, q, c) && c.ctx == ctxs[i] && c.streamHead in heads[..h] :: Leads(m, q, found, best, c)
      {
        fault, found, best := TryHead(m, q, ctxs[i], heads[h], found, best);
        if fault {
          return;
        }
        h := h + 1;
      }
      assert heads[..h] == heads;
      i := i + 1;
    }
    fault := false;
    assert ctxs[..i] == ctxs;
  }

  // ---- the plan ------------------------------------------------------------------

  datatype Plan = Plan(feasible: bool, overridden: bool, ctx: nat, ctxCapped: bool, streamLmHead: bool, nBuffers: nat,
                       weightCeiling: nat, pinned: nat, ledger: Ledger)

  /** What a call comes to: a plan; the last element of an empty list of contexts; or a division by
      zero. */
  datatype Result = Planned(plan: Plan) | NoContext | DividesByZero

  /** The smallest thing that could run: the last context, a streamed head, one buffer, nothing pinned. */
  function LeastLedger(m: Model, q: Request, ctx: nat): Ledger {
    m.fixed.(attn := ctx * 4 * Max(1, q.nThreads), resid := ctx * m.dim * 4, kv := m.kvFull(ctx),
             lmHead := if m.tied then 0 else m.outStreamed, ring := m.layerSize, pinned := 0)
  }

  /** No allowed configuration that fits is better than `c`. */
  ghost predicate Optimal(m: Model, q: Request, c: Config) {
    && Allowed(m, q, c) && Fits(m, q, c)
    && forall d: Config | Allowed(m, q, d) && Fits(m, q, d) :: !Better(m, d, c)
  }

  /** The weights that stay in memory: what the loader's ceiling has to leave room for. */
  function WeightBytes(l: Ledger): nat {
    l.outNorm + l.embeddings + l.lmHead + l.ring + l.pinned
  }

  /** What the process needs beside its weights. */
  function ProcessBytes(l: Ledger): nat {
    l.base + l.scratch + l.logits + l.attn + l.resid + l.kv
  }

  /** No context is long enough to try. */
  predicate NothingToTry(m: Model, q: Request) { !q.ctxExplicit && StartCtx(m, q) < 128 }

  /** What every ledger charges: what the model fixes; four bytes of scores per position and worker,
      and of residual per position and width; and the head as it is kept. */
  predicate Charged(m: Model, q: Request, l: Ledger, ctx: nat, streamHead: bool) {
    && l.base == m.fixed.base && l.scratch == m.fixed.scratch && l.logits == m.fixed.logits
    && l.outNorm == m.fixed.outNorm && l.embeddings == m.fixed.embeddings
    && l.attn == 4 * (ctx * if q.nThreads > 1 then q.nThreads else 1) && l.resid == 4 * (ctx * m.dim)
    && l.lmHead == if streamHead then m.outStreamed else m.outResident
  }

  /** The eleven entries of a ledger add up to `n`. */
  predicate AddsUpTo(l: Ledger, n: nat) {
    l.base + l.scratch + l.logits + l.attn + l.resid + l.kv
    + l.outNorm + l.embeddings + l.lmHead + l.ring + l.pinned == n
  }

  /** A configuration fits if its charges, listed one by one, are within the budget. */
  lemma {:induction false} FitsIff(m: Model, q: Request, c: Config)
    requires Priced(m)
    ensures Fits(m, q, c) <==>
            && m.fixed.base + m.fixed.scratch + m.fixed.logits + m.fixed.outNorm + m.fixed.embeddings
               + 4 * (c.ctx * if q.nThreads > 1 then q.nThreads else 1) + 4 * (c.ctx * m.dim) + m.kv(c.ctx)
               + (if c.streamHead then m.outStreamed else m.outResident)
               + c.buffers * m.layerSize + c.pinned * m.layerSize <= q.budget
  {
    ScoresCost(c.ctx, q.nThreads);
    ResidCost(c.ctx, m.dim);
  }

  /** What a plan under a budget says. */
  ghost predicate PlanFor(m: Model, q: Request, plan: Plan, chosen: Config) {
    Charged(m, q, plan.ledger, plan.ctx, plan.streamLmHead) &&
    if plan.feasible then
      && Allowed(m, q, chosen) && Fits(m, q, chosen) && Leading(m, q, chosen)
      && plan.ledger == LedgerOf(m, q, chosen) && plan.ledger.kv == m.kv(plan.ctx)
      && plan.ledger.ring == chosen.buffers * m.layerSize && plan.ledger.pinned == plan.pinned * m.layerSize
      && plan.weightCeiling + ProcessBytes(plan.ledger) == q.budget && plan.weightCeiling >= WeightBytes(plan.ledger)
      && AddsUpTo(plan.ledger, WeightBytes(plan.ledger) + ProcessBytes(plan.ledger))
      && plan.ctx == chosen.ctx && plan.streamLmHead == chosen.streamHead
      && plan.pinned == chosen.pinned && plan.nBuffers == Max(1, chosen.buffers)
      && (plan.ctxCapped <==> plan.ctx < StartCtx(m, q))
    else
      && Hopeless(m, q) && WeightBytes(plan.ledger) + ProcessBytes(plan.ledger) > q.budget
      && AddsUpTo(plan.ledger, WeightBytes(plan.ledger) + ProcessBytes(plan.ledger)) && plan.overridden == q.force
      && plan.ctx in CtxCandidates(m, q) && (forall c | c in CtxCandidates(m, q) :: plan.ctx <= c)
      && plan.ledger.kv == m.kvFull(plan.ctx) && plan.ledger.ring == m.layerSize && plan.ledger.pinned == 0
      && plan.streamLmHead && plan.nBuffers == 1 && plan.pinned == 0 && plan.weightCeiling == WeightBytes(plan.ledger)
  }

  /** Nothing that fits scores higher. */
  ghost predicate Leading(m: Model, q: Request, c: Config) {
    forall d: Config | Allowed(m, q, d) && Fits(m, q, d) :: Score(d) <= Score(c)
  }

  lemma {:induction false} ScoresCost(ctx: nat, threads: nat)
    ensures ctx * 4 * Max(1, threads) == 4 * (ctx * if threads > 1 then threads else 1)
  {
    assert (ctx * 4) * Max(1, threads) == 4 * (ctx * Max(1, threads));
  }

  lemma {:induction false} ResidCost(ctx: nat, dim: nat)
    ensures ctx * dim * 4 == 4 * (ctx * dim)
  {
  }

  /** The plan for the configuration found. */
  function ChosenPlan(m: Model, q: Request, best: Config): Plan
    requires Fits(m, q, best)
  {
    var l := LedgerOf(m, q, best);
    Plan(true, false, best.ctx, best.ctx < StartCtx(m, q), best.streamHead, if best.buffers == 0 then 1 else best.buffers,
         q.budget - ProcessBytes(l), best.pinned, l)
  }

  lemma {:induction false} ChosenIsPlan(m: Model, q: Request, best: Config)
    requires Priced(m) && Allowed(m, q, best) && Fits(m, q, best) && Leading(m, q, best)
    ensures PlanFor(m, q, ChosenPlan(m, q, best), best)
  {
    hide Leading, Allowed;
    ScoresCost(best.ctx, q.nThreads);
    ResidCost(best.ctx, m.dim);
  }

  /** The refusal at the shortest context. */
  function Refusal(m: Model, q: Request, ctx: nat): Plan {
    var least := LeastLedger(m, q, ctx);
    Plan(false, q.force, ctx, false, true, 1, least.outNorm + least.embeddings + least.lmHead + least.ring, 0, least)
  }

  lemma {:induction false} RefusalIsPlan(m: Model, q: Request, ctx: nat, none: Config)
    requires Priced(m) && Hopeless(m, q) && ctx in CtxCandidates(m, q) && forall c | c in CtxCandidates(m, q) :: ctx <= c
    ensures PlanFor(m, q, Refusal(m, q, ctx), none)
  {
    LeastDoesNotFit(m, q, ctx);
    hide Hopeless, CtxCandidates, Allowed;
    ScoresCost(ctx, q.nThreads);
    ResidCost(ctx, m.dim);
  }

  lemma {:induction false} ShortestIsLast(m: Model, q: Request)
    ensures var s := CtxCandidates(m, q); (s == [] <==> NothingToTry(m, q)) && (s != [] ==> forall c | c in s :: s[|s| - 1] <= c)
  {
    if !q.ctxExplicit && StartCtx(m, q) >= 128 {
      LastIsLeast(StartCtx(m, q));
    }
  }

  lemma {:induction false} NoneFits(m: Model, q: Request, best: Config)
    requires forall c: Config | Allowed(m, q, c) :: Leads(m, q, false, best, c)
    ensures Hopeless(m, q)
  {
    forall c: Config | Allowed(m, q, c)
      ensures !Fits(m, q, c)
    {
      assert Leads(m, q, false, best, c);
    }
  }

  /** Without a context to try nothing fits. */
  lemma {:induction false} NothingFits(m: Model, q: Request)
    ensures NothingToTry(m, q) ==> Hopeless(m, q)
    ensures !Hopeless(m, q) <==> exists c: Config :: Allowed(m, q, c) && Fits(m, q, c)
  {
  }

  /** The plan fits and, where the tiers hold, is the best there is; it is refused only if nothing
      fits. A context request below 128 that is not explicit leaves nothing to try, and then the
      refusal reads the last element of an empty list; layers of no bytes are divided by. */
  method PlanMemory(m: Model, q: Request) returns (r: Result, ghost chosen: Config)
    requires Priced(m)
    ensures r.NoContext? <==> q.budget > 0 && NothingToTry(m, q)
    ensures r.DividesByZero? <==> q.budget > 0 && Faults(m, q)
    ensures q.budget == 0 ==> r.plan.feasible && r.plan.ctx == StartCtx(m, q) && r.plan.weightCeiling == 0
    ensures q.budget == 0 ==> r.plan.streamLmHead == q.streamHeadReq && r.plan.nBuffers == (if q.async then q.nBuffersReq else 1)
    ensures q.budget > 0 && r.Planned? ==> (r.plan.feasible <==> !Hopeless(m, q)) && PlanFor(m, q, r.plan, chosen)
    ensures q.budget > 0 && r.Planned? && r.plan.feasible && TiersHold(m, q) ==> Optimal(m, q, chosen)
  {
    chosen := Config(0, false, 0, 0);
    if q.budget == 0 {
      r := Planned(Plan(true, false, StartCtx(m, q), false, q.streamHeadReq, if q.async then q.nBuffersReq else 1, 0, 0, m.fixed));
      return;
    }
    hide *;
    ShortestIsLast(m, q);
    NothingFits(m, q);
    var fault, found, best := Search(m, q);
    chosen := best;
    FaultIs(m, q);
    if fault {
      return DividesByZero, chosen;
    }
    if !found {
      NoneFits(m, q, best);
      var ctxs := CtxCandidates(m, q);
      if ctxs == [] {
        return NoContext, chosen;
      }
      var ctx := ctxs[|ctxs| - 1];
      RefusalIsPlan(m, q, ctx, chosen);
      RefusalIs(m, q, ctx);
      return Planned(Refusal(m, q, ctx)), chosen;
    }
    LeaderIsOptimal(m, q, best);
    ChosenIsPlan(m, q, best);
    ChosenIs(m, q, best);
    r := Planned(ChosenPlan(m, q, best));
  }

  lemma {:induction false} FaultIs(m: Model, q: Request)
    ensures Faults(m, q) ==> !Hopeless(m, q)
  {
  }

  lemma {:induction false} RefusalIs(m: Model, q: Request, ctx: nat)
    ensures !Refusal(m, q, ctx).feasible
  {
  }

  lemma {:induction false} ChosenIs(m: Model, q: Request, best: Config)
    requires Fits(m, q, best)
    ensures ChosenPlan(m, q, best).feasible
  {
  }

  lemma {:induction false} LeastDoesNotFit(m: Model, q: Request, ctx: nat)
    requires Priced(m) && Hopeless(m, q) && ctx in CtxCandidates(m, q)
    ensures LeastLedger(m, q, ctx).Total() > q.budget
  {
    var head := if !q.streamHeadReq && m.tied then false else true;
    var c := Config(ctx, head, 1, 0);
    assert Allowed(m, q, c) by {
      assert head in HeadOptions(m, q);
      assert 1 in BufferOptions(q);
    }
    assert LedgerOf(m, q, c).Total() > q.budget;
    assert LedgerOf(m, q, c).lmHead == LeastLedger(m, q, ctx).lmHead;
  }

  lemma {:induction false} LeaderIsOptimal(m: Model, q: Request, best: Config)
    requires Priced(m) && Allowed(m, q, best) && Fits(m, q, best)
    requires forall c: Config | Allowed(m, q, c) :: Leads(m, q, true, best, c)
    ensures Leading(m, q, best) && (TiersHold(m, q) ==> Optimal(m, q, best))
  {
    forall d: Config | Allowed(m, q, d) && Fits(m, q, d)
      ensures Score(d) <= Score(best) && (TiersHold(m, q) ==> !Better(m, d, best))
    {
      assert Leads(m, q, true, best, d);
      if TiersHold(m, q) {
        TiersAreStrict(m, q, d, best);
      }
    }
  }

  // ---- plans that are not what the priorities ask for ----------------------------

  /** A small model in 32-bit floats: width 8, a feed-forward of 16, key and value of 4, so a layer
      of 2368 bytes; its head is a table of `vocab` rows, of which at most 1024 stream at a time. */
  function Small(n: nat, vocab: nat, tied: bool): Model {
    Model(Ledger(BASE_FLOOR, 448, 4 * vocab, 0, 0, 32, if tied then 32 * vocab else 0, 0, 0, 0, 0), n, 2368, 8, 2048, tied,
          if tied then 0 else 32 * vocab, if tied then 0 else 32 * Min(1024, vocab), ctx => 32 * n * ctx, ctx => 32 * n * ctx)
  }

  /** A request for 64 positions that leaves `room` bytes beside what every configuration with this
      head needs. */
  function Ask(m: Model, head: bool, room: nat, nBuffers: nat, async: bool): (q: Request)
    ensures q.ctxReq == 64 && q.ctxExplicit && q.budget == CtxLedger(m, q, 64, head).Total() + room
  {
    var q := Request(0, 1, 64, true, 4096, nBuffers, async, false, false);
    q.(budget := CtxLedger(m, q, 64, head).Total() + room)
  }

  /** No buffers requested: the plan pins one of two layers and prices no ring, but the loader is
      given one buffer, and that does not fit the budget. */
  method ZeroBuffers() returns (m: Model, q: Request, plan: Plan)
    ensures m == Small(2, 64, true) && q == Ask(m, false, 4000, 0, true) && Priced(m)
    ensures plan.feasible && plan.pinned == 1 && plan.nBuffers == 1 && plan.ledger.ring == 0
    ensures !Fits(m, q, Config(64, false, plan.nBuffers, plan.pinned))
  {
    m := Small(2, 64, true);
    q := Ask(m, false, 4000, 0, true);
    var r;
    ghost var chosen;
    r, chosen := PlanMemory(m, q);
    var c := Config(64, false, 0, 1);
    assert Allowed(m, q, c) && Fits(m, q, c);
    assert Score(c) <= Score(chosen);
    plan := r.plan;
  }

  /** With 7000 layers pinning 6000 of them outscores a resident head that fits as well: the head's
      445024 rows cost as much as those layers and the streamed rows. */
  method HeadGivenUp() returns (m: Model, q: Request, plan: Plan)
    ensures m == Small(7000, 445024, false) && q == Ask(m, false, 2368, 1, false) && Priced(m)
    ensures plan.feasible && plan.streamLmHead
    ensures var c := Config(64, false, 1, 0);
            Allowed(m, q, c) && Fits(m, q, c) && Better(m, c, Config(plan.ctx, plan.streamLmHead, plan.nBuffers, plan.pinned))
  {
    m := Small(7000, 445024, false);
    q := Ask(m, false, 2368, 1, false);
    var r;
    ghost var chosen;
    r, chosen := PlanMemory(m, q);
    var c := Config(64, true, 1, 6000);
    assert Allowed(m, q, c) && Fits(m, q, c);
    assert Score(c) <= Score(chosen);
    plan := r.plan;
  }
}
