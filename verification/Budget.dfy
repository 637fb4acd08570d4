/** From the memory plan to the loader: what the plan's weight ceiling lets the loader pin, and when
    the process then stays within the budget it was planned for. */
module BudgetContract {
  import opened Arithmetic
  import opened Loading
  import opened Residency
  import opened ResidentPeak
  import P = MemPlanning

  /** Layers of one shape, each as large as the plan takes it to be. */
  ghost predicate SameLayers(m: P.Model, size: (int, nat) -> nat) {
    && (forall l: int, r: nat | 0 <= l < m.nLayers :: size(l, r) == size(0, r))
    && LayerBytes(0, size) == m.layerSize > 0
  }

  /** What the plan prices beside the layers: norms, embeddings, and the head or the window it
      streams through. */
  function Beside(l: P.Ledger): nat { l.outNorm + l.embeddings + l.lmHead }

  /** The whole process stays within the budget, whatever the loader has in its ring. */
  ghost predicate Contract(l: P.Ledger, v: Serving, bytes: nat, budget: nat) {
    Bounded(v, P.ProcessBytes(l) + Beside(l), bytes, budget)
  }

  /** Of what the plan prices beside the layers the loader counts at most all, with the head
      streamed or not. */
  predicate CountedBy(m: P.Model, globals: bool -> nat) {
    && globals(true) <= m.fixed.outNorm + m.fixed.embeddings + m.outStreamed
    && globals(false) <= m.fixed.outNorm + m.fixed.embeddings + m.outResident
  }

  /** Unless the plan pins every layer, the loader finds no room for one more: neither for all of
      them, nor for one beside the ring. */
  predicate NoRoomForMore(m: P.Model, plan: P.Plan, globals: nat) {
    plan.pinned == m.nLayers
    || (globals + m.nLayers * m.layerSize > plan.weightCeiling
        && (plan.pinned + 1 == m.nLayers || globals + (plan.nBuffers + plan.pinned + 1) * m.layerSize > plan.weightCeiling))
  }

  /** Bytes of the layers once `n` are pinned, the ring as full as it gets. */
  function LayersAtPeak(m: P.Model, v: Serving, n: nat): nat {
    (n + if n == m.nLayers then 0 else Usable(v)) * m.layerSize
  }

  // ---- what the plan leaves room for ---------------------------------------------

  lemma {:induction false} FloorIff(k: nat, room: nat, size: nat)
    requires size > 0
    ensures k <= room / size <==> k * size <= room
  {
    if k <= room / size {
      DivFits(room, size, k);
    }
    if k * size <= room {
      P.FloorMost(k, room, size);
    }
  }

  /** The loader aims for `k` layers at least, if there is room for all layers or for `k` beside
      the ring. */
  lemma {:induction false} TargetIff(ceiling: nat, globals: nat, nBuffers: nat, avail: nat, size: nat, k: nat)
    requires size > 0 && 0 < k <= avail
    ensures k <= Target(ceiling, globals, 0, nBuffers, avail, size) <==>
            globals + avail * size <= ceiling || globals + (nBuffers + k) * size <= ceiling
  {
    Distribute(nBuffers, k, size);
    var base := globals + nBuffers * size;
    if ceiling > base {
      FloorIff(k, ceiling - base, size);
    } else {
      MulMonotone(1, k, size);
    }
  }

  /** The plan fits, and with one more layer it would not. */
  lemma {:induction false} PlanIsMost(m: P.Model, q: P.Request, c: P.Config, ceiling: nat)
    requires P.Priced(m) && m.layerSize > 0 && P.Allowed(m, q, c) && P.Fits(m, q, c) && P.Leading(m, q, c) && (c.buffers > 0 || P.AllPinned(m, c))
    requires ceiling + P.ProcessBytes(P.LedgerOf(m, q, c)) == q.budget
    ensures var beside := Beside(P.LedgerOf(m, q, c));
            && beside + (c.buffers + c.pinned) * m.layerSize <= ceiling
            && (c.pinned < m.nLayers ==> beside + m.nLayers * m.layerSize > ceiling)
            && (c.pinned + 1 < m.nLayers ==> beside + (c.buffers + c.pinned + 1) * m.layerSize > ceiling)
  {
    Distribute(c.buffers, c.pinned, m.layerSize);
    Distribute(c.buffers, c.pinned + 1, m.layerSize);
    if c.pinned < m.nLayers {
      var all := c.(buffers := 0, pinned := m.nLayers);
      assert P.Allowed(m, q, all) && P.Score(all) > P.Score(c);
      assert !P.Fits(m, q, all);
    }
    if c.pinned + 1 < m.nLayers {
      var more := c.(pinned := c.pinned + 1);
      assert P.Allowed(m, q, more) && P.Score(more) > P.Score(c);
      assert !P.Fits(m, q, more);
    }
  }

  /** What the loader then pins: the plan's layers at least, and no others exactly if there is no
      room for one more. */
  lemma {:induction false} PinnedIs(m: P.Model, q: P.Request, c: P.Config, plan: P.Plan, globals: nat, n: nat)
    requires P.Priced(m) && m.layerSize > 0 && plan.feasible && P.PlanFor(m, q, plan, c) && (c.buffers > 0 || P.AllPinned(m, c))
    requires globals <= Beside(plan.ledger)
    requires n == Target(plan.weightCeiling, globals, 0, plan.nBuffers, m.nLayers, m.layerSize)
    ensures plan.pinned <= n <= m.nLayers && (n == plan.pinned <==> NoRoomForMore(m, plan, globals))
    ensures globals == Beside(plan.ledger) ==> n == plan.pinned
  {
    hide P.Leading, P.Fits, P.LedgerOf, Target;
    PlanIsMost(m, q, c, plan.weightCeiling);
    TargetAtMost(plan.weightCeiling, globals, plan.nBuffers, m.nLayers, m.layerSize);
    if plan.pinned > 0 {
      TargetIff(plan.weightCeiling, globals, plan.nBuffers, m.nLayers, m.layerSize, plan.pinned);
    }
    if plan.pinned < m.nLayers {
      TargetIff(plan.weightCeiling, globals, plan.nBuffers, m.nLayers, m.layerSize, plan.pinned + 1);
      MulMonotone(m.nLayers, plan.nBuffers + m.nLayers, m.layerSize);
    }
  }

  lemma {:induction false} TargetAtMost(ceiling: nat, globals: nat, nBuffers: nat, avail: nat, size: nat)
    requires size > 0
    ensures Target(ceiling, globals, 0, nBuffers, avail, size) <= avail
  {
  }

  // ---- layers of one shape -------------------------------------------------------

  lemma {:induction false} EachRole(m: P.Model, size: (int, nat) -> nat, l: int, k: nat)
    requires SameLayers(m, size) && 0 <= l < m.nLayers
    ensures RoleBytes(l, 0, k, size) == RoleBytes(0, 0, k, size)
  {
    if k > 0 {
      EachRole(m, size, l, k - 1);
    }
  }

  lemma {:induction false} EachLayer(m: P.Model, size: (int, nat) -> nat, l: int)
    requires SameLayers(m, size) && 0 <= l < m.nLayers
    ensures LayerBytes(l, size) == m.layerSize
  {
    EachRole(m, size, l, ROLES);
  }

  lemma {:induction false} SumSame(bytes: int -> nat, n: nat, b: nat)
    requires forall l: int | 0 <= l < n :: bytes(l) == b
    ensures SumLayers(bytes, 0, n) == n * b
  {
    if n > 0 {
      SumSame(bytes, n - 1, b);
      assert n * b == (n - 1) * b + b;
    }
  }

  lemma {:induction false} PerLayerIs(m: P.Model, size: (int, nat) -> nat, perLayer: nat)
    requires P.Priced(m) && SameLayers(m, size) && IsMax((l: int) => LayerBytes(l, size), 0, m.nLayers, perLayer)
    ensures perLayer == m.layerSize
  {
    var bytes := (l: int) => LayerBytes(l, size);
    assert bytes(0) <= perLayer;
    forall l: int | 0 <= l < m.nLayers
      ensures bytes(l) == m.layerSize
    {
      EachLayer(m, size, l);
    }
  }

  lemma {:induction false} SameIsUniform(m: P.Model, size: (int, nat) -> nat, v: Serving)
    requires SameLayers(m, size) && 0 <= v.mid < v.hi == m.nLayers && v.size == size
    ensures Uniform(v)
  {
    forall l: int, r: nat | Streamed(v, l)
      ensures v.size(l, r) == v.size(v.mid, r)
    {
      assert size(l, r) == size(0, r) == size(v.mid, r);
    }
  }

  lemma {:induction false} PeakOfSame(m: P.Model, size: (int, nat) -> nat, v: Serving)
    requires SameLayers(m, size) && v.n > 0 && v.lo == 0 && v.mid <= v.hi == m.nLayers && v.size == size
    ensures Peak(v) + v.mid * m.layerSize == LayersAtPeak(m, v, v.mid)
  {
    hide Peak, LayerBytes, SameLayers, Uniform, RolesPeak, Usable;
    if v.mid == m.nLayers {
      NoPeak(v);
    } else {
      SameIsUniform(m, size, v);
      UniformPeak(v);
      EachLayer(m, size, v.mid);
      Distribute(v.mid, Usable(v), m.layerSize);
    }
  }

  // ---- the contract --------------------------------------------------------------

  /** The loader's own account stays within the plan's ceiling, and the process within the budget
      exactly if the layers, at their peak, fit beside everything else the plan has priced. */
  lemma {:induction false} ContractIff(m: P.Model, plan: P.Plan, budget: nat, v: Serving, globals: nat, bytes: nat, size: (int, nat) -> nat)
    requires P.Priced(m) && SameLayers(m, size) && plan.weightCeiling + P.ProcessBytes(plan.ledger) == budget
    requires v.n > 0 && v.lo == 0 && v.mid <= v.hi == m.nLayers && v.size == size && bytes == v.mid * m.layerSize
    ensures Bounded(v, globals, bytes, plan.weightCeiling) <==> globals + LayersAtPeak(m, v, v.mid) <= plan.weightCeiling
    ensures Contract(plan.ledger, v, bytes, budget) <==> Beside(plan.ledger) + LayersAtPeak(m, v, v.mid) <= plan.weightCeiling
  {
    PeakOfSame(m, size, v);
    hide Bounded, Peak, LayersAtPeak;
    CeilingIff(v, globals, bytes, plan.weightCeiling);
    CeilingIff(v, P.ProcessBytes(plan.ledger) + Beside(plan.ledger), bytes, budget);
  }

  /** The layers the loader pins fit what it counts; with a ring of at most two they fit what the
      plan priced only if they are the plan's. */
  lemma {:induction false} PinnedFits(m: P.Model, q: P.Request, c: P.Config, plan: P.Plan, v: Serving, globals: nat)
    requires P.Priced(m) && m.layerSize > 0 && plan.feasible && P.PlanFor(m, q, plan, c) && (c.buffers > 0 || P.AllPinned(m, c))
    requires globals <= Beside(plan.ledger) && v.n == plan.nBuffers && v.mid <= v.hi == m.nLayers
    requires v.mid == Target(plan.weightCeiling, globals, 0, plan.nBuffers, m.nLayers, m.layerSize)
    ensures globals + LayersAtPeak(m, v, v.mid) <= plan.weightCeiling
    ensures v.mid == plan.pinned ==> Beside(plan.ledger) + LayersAtPeak(m, v, v.mid) <= plan.weightCeiling
    ensures plan.nBuffers <= 2 && v.mid != plan.pinned ==> Beside(plan.ledger) + LayersAtPeak(m, v, v.mid) > plan.weightCeiling
  {
    PinnedIs(m, q, c, plan, globals, v.mid);
    PlanIsMost(m, q, c, plan.weightCeiling);
    hide P.PlanFor, P.Leading, P.Fits, P.LedgerOf, P.Allowed, Target;
    var n, size, used := v.mid, m.layerSize, Usable(v);
    if n == m.nLayers {
      TargetIff(plan.weightCeiling, globals, plan.nBuffers, n, size, n);
      MulMonotone(n, plan.nBuffers + n, size);
      MulMonotone(n, c.buffers + n, size);
    } else {
      TargetIff(plan.weightCeiling, globals, plan.nBuffers, m.nLayers, size, m.nLayers);
      if n > 0 {
        TargetIff(plan.weightCeiling, globals, plan.nBuffers, m.nLayers, size, n);
      }
      MulMonotone(n + used, plan.nBuffers + n, size);
      if plan.nBuffers <= 2 && n > plan.pinned {
        MulMonotone(c.buffers + plan.pinned + 1, n + used, size);
      }
    }
  }

  predicate Starts(r: P.Result) { r.Planned? && r.plan.feasible }

  /** A run as the plan left it: at least its layers are pinned, and the loader stays within its
      ceiling. The process stays within the budget if the loader finds no room for one more layer
      than planned; with a ring of at most two buffers only then. */
  ghost predicate Carried(m: P.Model, plan: P.Plan, budget: nat, globals: nat, v: Serving, n: nat, bytes: nat, size: (int, nat) -> nat) {
    && plan.pinned <= n <= m.nLayers && bytes == n * m.layerSize && v == Serving(plan.nBuffers, 0, n, m.nLayers, size)
    && m.layerSize > 0 && n == Target(plan.weightCeiling, globals, 0, plan.nBuffers, m.nLayers, m.layerSize)
    && Bounded(v, globals, bytes, plan.weightCeiling)
    && (Contract(plan.ledger, v, bytes, budget) <==> Beside(plan.ledger) + LayersAtPeak(m, v, n) <= plan.weightCeiling)
    && (n == plan.pinned <==> NoRoomForMore(m, plan, globals))
    && (n == plan.pinned ==> Contract(plan.ledger, v, bytes, budget))
    && (plan.nBuffers <= 2 && n != plan.pinned ==> !Contract(plan.ledger, v, bytes, budget))
  }

  /** The plan's outcome handed to the loader. `globals` is what the loader counts beside its layers,
      with the head streamed or resident. If that is all the plan priced there, the budget holds. */
  method PlanAndLoad(m: P.Model, q: P.Request, globals: bool -> nat, size: (int, nat) -> nat)
    returns (r: P.Result, n: nat, bytes: nat, ghost v: Serving, ghost chosen: P.Config)
    requires P.Priced(m) && q.budget > 0 && (q.async ==> q.nBuffersReq > 0)
    requires SameLayers(m, size) && CountedBy(m, globals)
    ensures Starts(r) <==> !P.NothingToTry(m, q) && !P.Hopeless(m, q)
    ensures Starts(r) ==> Carried(m, r.plan, q.budget, globals(r.plan.streamLmHead), v, n, bytes, size)
    ensures Starts(r) && globals(r.plan.streamLmHead) == Beside(r.plan.ledger) ==> Contract(r.plan.ledger, v, bytes, q.budget)
    ensures Starts(r) ==> P.PlanFor(m, q, r.plan, chosen)
  {
    hide *;
    r, chosen := P.PlanMemory(m, q);
    n, bytes := 0, 0;
    v := Serving(0, 0, 0, 0, size);
    StartsIff(m, q, r, chosen, size);
    if r.Planned? && r.plan.feasible {
      var g := globals(r.plan.streamLmHead);
      ChosenIs(m, q, r.plan, chosen, globals, size);
      ghost var perLayer;
      n, bytes, perLayer, v := PlanAndServe(r.plan.weightCeiling, g, r.plan.nBuffers, 0, 0, m.nLayers, size, 0);
      PerLayerIs(m, size, perLayer);
      PinnedBytes(m, size, n);
      PinnedIs(m, q, chosen, r.plan, g, n);
      PinnedFits(m, q, chosen, r.plan, v, g);
      ContractIff(m, r.plan, q.budget, v, g, bytes, size);
      IsCarried(m, r.plan, q.budget, g, v, n, bytes, size);
    }
  }

  lemma {:induction false} StartsIff(m: P.Model, q: P.Request, r: P.Result, c: P.Config, size: (int, nat) -> nat)
    requires (r.NoContext? <==> P.NothingToTry(m, q)) && (r.DividesByZero? <==> P.Faults(m, q)) && SameLayers(m, size)
    requires r.Planned? ==> (r.plan.feasible <==> !P.Hopeless(m, q)) && P.PlanFor(m, q, r.plan, c)
    ensures Starts(r) <==> !P.NothingToTry(m, q) && !P.Hopeless(m, q)
    ensures Starts(r) <==> r.Planned? && r.plan.feasible
  {
  }

  lemma {:induction false} ChosenIs(m: P.Model, q: P.Request, plan: P.Plan, c: P.Config, globals: bool -> nat, size: (int, nat) -> nat)
    requires plan.feasible && P.PlanFor(m, q, plan, c) && (q.async ==> q.nBuffersReq > 0) && CountedBy(m, globals)
    requires P.Priced(m) && SameLayers(m, size)
    ensures m.nLayers > 0 && m.layerSize > 0
    ensures (c.buffers > 0 || P.AllPinned(m, c)) && plan.nBuffers > 0 && globals(plan.streamLmHead) <= Beside(plan.ledger)
    ensures plan.weightCeiling + P.ProcessBytes(plan.ledger) == q.budget
  {
  }

  lemma {:induction false} PinnedBytes(m: P.Model, size: (int, nat) -> nat, n: nat)
    requires SameLayers(m, size) && n <= m.nLayers
    ensures SumLayers((l: int) => LayerBytes(l, size), 0, 0 + n) == n * m.layerSize
  {
    var bytes := (l: int) => LayerBytes(l, size);
    forall l: int | 0 <= l < n
      ensures bytes(l) == m.layerSize
    {
      EachLayer(m, size, l);
    }
    SumSame(bytes, n, m.layerSize);
  }

  lemma {:induction false} IsCarried(m: P.Model, plan: P.Plan, budget: nat, g: nat, v: Serving, n: nat, bytes: nat, size: (int, nat) -> nat)
    requires plan.pinned <= n <= m.nLayers && bytes == n * m.layerSize && v == Serving(plan.nBuffers, 0, n, m.nLayers, size)
    requires m.layerSize > 0 && n == Target(plan.weightCeiling, g, 0, plan.nBuffers, m.nLayers, m.layerSize)
    requires Bounded(v, g, bytes, plan.weightCeiling) && (n == plan.pinned <==> NoRoomForMore(m, plan, g))
    requires Contract(plan.ledger, v, bytes, budget) <==> Beside(plan.ledger) + LayersAtPeak(m, v, n) <= plan.weightCeiling
    requires n == plan.pinned ==> Beside(plan.ledger) + LayersAtPeak(m, v, n) <= plan.weightCeiling
    requires plan.nBuffers <= 2 && n != plan.pinned ==> Beside(plan.ledger) + LayersAtPeak(m, v, n) > plan.weightCeiling
    ensures Carried(m, plan, budget, g, v, n, bytes, size)
  {
    hide Bounded, Contract, LayersAtPeak, Beside, NoRoomForMore, Target;
  }

  // ---- a window that is spent twice ----------------------------------------------

  /** The weights of a layer of `P.Small`, by role: norm, query, key, value, output, norm, gate, up, down. */
  function Parts(l: int, r: nat): nat {
    if r == 0 || r == 5 then 32
    else if r == 1 || r == 4 then 256
    else if r == 2 || r == 3 then 128
    else if r < 9 then 512
    else 0
  }

  lemma {:induction false} NoOtherParts(l: int, k: nat)
    requires k >= 9
    ensures RoleBytes(l, 0, k, Parts) == RoleBytes(l, 0, 9, Parts)
  {
    if k > 9 {
      NoOtherParts(l, k - 1);
    }
  }

  lemma {:induction false} PartsAdd(l: int)
    ensures LayerBytes(l, Parts) == 2368
  {
    NoOtherParts(l, ROLES);
    assert RoleBytes(l, 0, 3, Parts) == 416;
    assert RoleBytes(l, 0, 6, Parts) == 832;
  }

  /** The one plan for this request: nothing else that fits scores as high. */
  lemma {:induction false} FivePinned(m: P.Model, q: P.Request, plan: P.Plan, c: P.Config)
    requires m == P.Small(40, 4096, false) && q == P.Ask(m, true, 7 * 2368, 2, true)
    requires plan.feasible && P.PlanFor(m, q, plan, c)
    ensures plan.streamLmHead && plan.nBuffers == 2 && plan.pinned == 5
    ensures Beside(plan.ledger) == 32 + 32768 && plan.weightCeiling == 32 + 32768 + 7 * 2368
  {
    var five := P.Config(64, true, 2, 5);
    assert P.Allowed(m, q, five) && P.Fits(m, q, five);
    assert P.Score(five) <= P.Score(c);
  }

  lemma {:induction false} SomethingFits(m: P.Model, q: P.Request)
    requires m == P.Small(40, 4096, false) && q == P.Ask(m, true, 7 * 2368, 2, true)
    ensures !P.Hopeless(m, q) && !P.NothingToTry(m, q) && P.Priced(m)
  {
    var five := P.Config(64, true, 2, 5);
    assert P.Allowed(m, q, five) && P.Fits(m, q, five);
  }

  lemma {:induction false} EighteenPinned()
    ensures Target(32 + 32768 + 7 * 2368, 32, 0, 2, 40, 2368) == 18
  {
  }

  /** The plan streams a head of 4096 rows through a window of 1024, has two buffers and pins 5 of
      40 layers, which takes the whole budget. The loader does not count the window's 32768 bytes
      and pins 18. */
  method WindowIsSpent() returns (m: P.Model, q: P.Request, r: P.Result, n: nat, ghost v: Serving, bytes: nat)
    ensures m == P.Small(40, 4096, false) && q == P.Ask(m, true, 7 * 2368, 2, true) && P.Priced(m)
    ensures Starts(r) && r.plan.streamLmHead && r.plan.nBuffers == 2 && r.plan.pinned == 5
    ensures n == 18 && Bounded(v, 32, bytes, r.plan.weightCeiling) && !Contract(r.plan.ledger, v, bytes, q.budget)
  {
    m := P.Small(40, 4096, false);
    q := P.Ask(m, true, 7 * 2368, 2, true);
    PartsAdd(0);
    SomethingFits(m, q);
    EighteenPinned();
    assert SameLayers(m, Parts);
    var globals := (head: bool) => if head then 32 else 32 + 131072;
    assert CountedBy(m, globals);
    hide P.Hopeless, P.NothingToTry, P.PlanFor, Target, Bounded, Contract, LayerBytes, P.Priced, NoRoomForMore, SameLayers, Parts;
    ghost var chosen;
    r, n, bytes, v, chosen := PlanAndLoad(m, q, globals, Parts);
    FivePinned(m, q, r.plan, chosen);
  }
}
