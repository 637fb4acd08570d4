/** Resident weight bytes: what the ring and the pinned layers occupy, the pinning plan under
    a byte budget, and the ceiling that holds in every reachable loader state. */
module Residency {
  import opened Arithmetic
  import opened Loading

  /** `size(l, r)` is what role `r` of layer `l` takes once materialized. */
  function CellBytes(c: Cell, r: nat, size: (int, nat) -> nat): nat {
    match c
    case Blank => 0
    case Torn(l) => size(l, r)
    case Data(l) => size(l, r)
  }

  /** The first `k` buffers of a slot. */
  function SlotBytes(buf: seq<Cell>, k: nat, size: (int, nat) -> nat): nat
    requires k <= |buf|
  {
    if k == 0 then 0 else SlotBytes(buf, k - 1, size) + CellBytes(buf[k - 1], k - 1, size)
  }

  /** Roles [j, k) of a layer. */
  function RoleBytes(layer: int, j: nat, k: nat, size: (int, nat) -> nat): nat
    requires j <= k
    decreases k
  {
    if j == k then 0 else RoleBytes(layer, j, k - 1, size) + size(layer, k - 1)
  }

  function LayerBytes(layer: int, size: (int, nat) -> nat): nat {
    RoleBytes(layer, 0, ROLES, size)
  }

  function RingBytes(slots: seq<Slot>, size: (int, nat) -> nat): nat {
    if slots == [] then 0
    else RingBytes(slots[..|slots| - 1], size) + SlotBytes(slots[|slots| - 1].buf, |slots[|slots| - 1].buf|, size)
  }

  /** Layers [lo, hi). */
  function SumLayers(bytes: int -> nat, lo: nat, hi: nat): nat
    requires lo <= hi
    decreases hi
  {
    if lo == hi then 0 else SumLayers(bytes, lo, hi - 1) + bytes(hi - 1)
  }

  // ---- one slot ------------------------------------------------------------------

  /** In the middle of a refill a slot holds the new layer's first roles and the old layer's
      others. */
  lemma {:induction false} RefillBytes(buf: seq<Cell>, was: int, now: int, done: nat, k: nat, size: (int, nat) -> nat)
    requires done <= k <= |buf|
    requires forall r: nat | r < k :: buf[r] == Data(if r < done then now else was)
    ensures SlotBytes(buf, k, size) == RoleBytes(now, 0, done, size) + RoleBytes(was, done, k, size)
    decreases k
  {
    if k > done {
      RefillBytes(buf, was, now, done, k - 1, size);
    } else if k > 0 {
      RefillBytes(buf, was, now, k - 1, k - 1, size);
    }
  }

  /** Sizes per role that no layer exceeds. */
  ghost predicate Caps(size: (int, nat) -> nat, cap: nat -> nat) {
    forall l: int, r: nat :: size(l, r) <= cap(r)
  }

  function CapBytes(cap: nat -> nat, k: nat): nat {
    if k == 0 then 0 else CapBytes(cap, k - 1) + cap(k - 1)
  }

  lemma {:induction false} SlotCapped(buf: seq<Cell>, k: nat, size: (int, nat) -> nat, cap: nat -> nat)
    requires k <= |buf| && Caps(size, cap)
    ensures SlotBytes(buf, k, size) <= CapBytes(cap, k)
  {
    if k > 0 {
      SlotCapped(buf, k - 1, size, cap);
      match buf[k - 1]
      case Blank =>
      case Torn(l) => assert size(l, k - 1) <= cap(k - 1);
      case Data(l) => assert size(l, k - 1) <= cap(k - 1);
    }
  }

  lemma {:induction false} RingCapped(slots: seq<Slot>, size: (int, nat) -> nat, cap: nat -> nat)
    requires Caps(size, cap) && forall i | 0 <= i < |slots| :: |slots[i].buf| == ROLES
    ensures RingBytes(slots, size) <= CapBytes(cap, ROLES) * |slots|
  {
    if slots != [] {
      var n := |slots| - 1;
      RingCapped(slots[..n], size, cap);
      SlotCapped(slots[n].buf, ROLES, size, cap);
      var c := CapBytes(cap, ROLES);
      assert (n + 1) * c == n * c + c;
    }
  }

  // ---- the pinning plan ----------------------------------------------------------

  /** How many layers the plan aims for. */
  function Target(budget: nat, globals: nat, placed: nat, nBuffers: nat, avail: nat, perLayer: nat): nat
    requires perLayer > 0
  {
    if budget >= globals + placed + avail * perLayer then avail
    else
      var base := globals + placed + nBuffers * perLayer;
      if budget > base then if (budget - base) / perLayer < avail then (budget - base) / perLayer else avail else 0
  }

  /** All the layers if they fit; otherwise as many as fit beside the ring, and not one more. */
  lemma {:induction false} TargetIs(budget: nat, globals: nat, placed: nat, nBuffers: nat, avail: nat, perLayer: nat, t: nat)
    requires perLayer > 0
    ensures t == Target(budget, globals, placed, nBuffers, avail, perLayer) <==>
            if globals + placed + avail * perLayer <= budget then t == avail
            else && (t == 0 || globals + placed + (nBuffers + t) * perLayer <= budget)
                 && budget < globals + placed + (nBuffers + t + 1) * perLayer
  {
    var base := globals + placed + nBuffers * perLayer;
    assert (nBuffers + t) * perLayer == nBuffers * perLayer + t * perLayer;
    assert (nBuffers + t + 1) * perLayer == nBuffers * perLayer + t * perLayer + perLayer;
    if budget < globals + placed + avail * perLayer {
      if budget > base {
        FewerThan(budget - base, perLayer, avail);
        QuotientIff(budget - base, perLayer, t);
      } else if t > 0 {
        MulMonotone(1, t, perLayer);
      }
    }
  }

  lemma {:induction false} QuotientIff(x: nat, d: nat, t: nat)
    requires d > 0
    ensures t == x / d <==> t * d <= x < t * d + d
  {
    var q := x / d;
    assert x == q * d + x % d;
    if t < q {
      MulMonotone(t + 1, q, d);
      assert (t + 1) * d == t * d + d;
    } else if t > q {
      MulMonotone(q + 1, t, d);
      assert (q + 1) * d == q * d + d;
    }
  }

  lemma {:induction false} FewerThan(x: nat, d: nat, avail: nat)
    requires d > 0 && x < avail * d
    ensures x / d < avail
  {
    if x / d >= avail {
      DivFits(x, d, avail);
    }
  }

  predicate IsMax(est: int -> nat, first: nat, end: nat, m: nat) {
    && (forall l: int | first <= l < end :: est(l) <= m)
    && (first == end || m == 0 || exists l: int :: first <= l < end && est(l) == m)
  }

  lemma {:induction false} DivFits(x: nat, d: nat, k: nat)
    requires d > 0 && k <= x / d
    ensures k * d <= x
  {
    assert x == d * (x / d) + x % d;
    assert (x / d) * d == k * d + (x / d - k) * d;
  }

  lemma {:induction false} SumAtMost(bytes: int -> nat, lo: nat, hi: nat, m: nat)
    requires lo <= hi && forall l: int | lo <= l < hi :: bytes(l) <= m
    ensures SumLayers(bytes, lo, hi) <= (hi - lo) * m
    decreases hi
  {
    if lo < hi {
      SumAtMost(bytes, lo, hi - 1, m);
      assert (hi - lo) * m == (hi - 1 - lo) * m + m;
    }
  }

  /** Ring room kept free while pinning. */
  function Reserve(target: nat, avail: nat, nBuffers: nat, perLayer: nat): nat {
    if target < avail then nBuffers * perLayer else 0
  }

  /** With every layer within `perLayer`, the target and its reserve fit. */
  lemma {:induction false} TargetFits(budget: nat, globals: nat, placed: nat, nBuffers: nat, first: nat, end: nat, perLayer: nat, bytes: int -> nat, k: nat)
    requires first <= end && perLayer > 0 && forall l: int | first <= l < end :: bytes(l) <= perLayer
    requires k <= Target(budget, globals, placed, nBuffers, end - first, perLayer) && k > 0
    ensures k <= end - first
    ensures globals + placed + SumLayers(bytes, first, first + k)
            + Reserve(Target(budget, globals, placed, nBuffers, end - first, perLayer), end - first, nBuffers, perLayer) <= budget
  {
    var avail := end - first;
    SumAtMost(bytes, first, first + k, perLayer);
    if budget >= globals + placed + avail * perLayer {
      MulMonotone(k, avail, perLayer);
    } else {
      var base := globals + placed + nBuffers * perLayer;
      DivFits(budget - base, perLayer, k);
    }
  }

  method LargestLayer(est: int -> nat, first: nat, end: nat) returns (m: nat)
    requires first <= end
    ensures IsMax(est, first, end, m)
  {
    m := 0;
    ghost var at: int := first;
    for l := first to end
      invariant forall k: int | first <= k < l :: est(k) <= m
      invariant m == 0 || (first <= at < l && est(at) == m)
    {
      if est(l) > m {
        m, at := est(l), l;
      }
    }
  }

  /** Pins `target` layers, or fewer if materializing one would break the ceiling. */
  method PinWhileFits(budget: nat, globals: nat, reserve: nat, first: nat, target: nat, actual: int -> nat, placed: nat)
    returns (n: nat, bytes: nat)
    ensures n <= target && bytes == placed + SumLayers(actual, first, first + n)
    ensures n > 0 ==> globals + bytes + reserve <= budget
    ensures n < target ==> globals + bytes + actual(first + n) + reserve > budget
  {
    n, bytes := 0, placed;
    while n < target
      invariant n <= target && bytes == placed + SumLayers(actual, first, first + n)
      invariant n > 0 ==> globals + bytes + reserve <= budget
    {
      var sb := actual(first + n);
      if globals + bytes + sb + reserve > budget {
        return;
      }
      bytes, n := bytes + sb, n + 1;
    }
  }

  /** Pins leading layers of [first, end): `est` predicts a layer's bytes, `actual` is what
      materializing it takes, `placed` is pinned already. The ceiling holds for any estimate;
      with exact ones the plan is carried out in full and leaves room for the ring. */
  method PlanAndPin(budget: nat, globals: nat, nBuffers: nat, first: nat, end: nat,
                    est: int -> nat, actual: int -> nat, placed: nat)
    returns (n: nat, bytes: nat, ghost perLayer: nat)
    requires first <= end
    ensures n <= end - first && bytes == placed + SumLayers(actual, first, first + n)
    ensures IsMax(est, first, end, perLayer)
    ensures n > 0 ==> globals + bytes <= budget
    ensures perLayer == 0 ==> n == 0
    ensures perLayer > 0 ==>
              var target := Target(budget, globals, placed, nBuffers, end - first, perLayer);
              var reserve := if target < end - first then nBuffers * perLayer else 0;
              && n <= target && (n > 0 ==> globals + bytes + reserve <= budget)
              && (n < target ==> globals + bytes + actual(first + n) + reserve > budget)
    ensures (forall l: int | first <= l < end :: est(l) == actual(l)) ==>
              && n == (if perLayer == 0 then 0 else Target(budget, globals, placed, nBuffers, end - first, perLayer))
              && (0 < n < end - first ==> globals + bytes + nBuffers * perLayer <= budget)
  {
    var per := LargestLayer(est, first, end);
    perLayer := per;
    if per == 0 {
      return 0, placed, per;
    }
    var target := Target(budget, globals, placed, nBuffers, end - first, per);
    n, bytes := PinWhileFits(budget, globals, Reserve(target, end - first, nBuffers, per), first, target, actual, placed);
    ghost var exact := forall l: int | first <= l < end :: est(l) == actual(l);
    if exact && n < target {
      TargetFits(budget, globals, placed, nBuffers, first, end, per, actual, n + 1);
      assert false;
    }
  }

  // ---- the ceiling ---------------------------------------------------------------

  lemma {:induction false} SlotsStay(s: State, a: Action)
    requires Enabled(s, a)
    ensures |Apply(s, a).slots| == |s.slots|
  {
  }

  lemma {:induction false} RunSlotsStay(s: State, acts: seq<Action>)
    requires CanRun(s, acts)
    ensures |RunTo(s, acts).slots| == |s.slots|
    decreases |acts|
  {
    if acts != [] {
      SlotsStay(s, acts[0]);
      RunSlotsStay(Apply(s, acts[0]), acts[1..]);
    }
  }

  /** The ceiling: in every reachable state, in the middle of any refill, globals, pinned
      layers and ring stay within the budget, if that has room for the ring and no slot can
      outgrow the largest layer. */
  lemma {:induction false} WithinBudget(n: nat, pinned: set<int>, acts: seq<Action>, size: (int, nat) -> nat, cap: nat -> nat,
                     budget: nat, globals: nat, pinnedBytes: nat, perLayer: nat)
    requires n > 1 && CanRun(Fresh(n, pinned), acts)
    requires Caps(size, cap) && CapBytes(cap, ROLES) <= perLayer
    requires globals + pinnedBytes + n * perLayer <= budget
    ensures globals + RingBytes(RunTo(Fresh(n, pinned), acts).slots, size) + pinnedBytes <= budget
  {
    hide RunTo, CanRun, RingBytes, Caps, CapBytes;
    var s := RunTo(Fresh(n, pinned), acts);
    FreshInv(n, pinned);
    RunKeeps(Fresh(n, pinned), acts);
    RunSlotsStay(Fresh(n, pinned), acts);
    forall i | 0 <= i < |s.slots|
      ensures |s.slots[i].buf| == ROLES
    {
      assert SlotOk(s, i);
    }
    RingCapped(s.slots, size, cap);
    MulMonotone(CapBytes(cap, ROLES), perLayer, n);
  }

  /** The loader's own account: globals, every buffer of every slot, pinned layers. */
  method ResidentBytes(slots: seq<Slot>, globals: nat, pinnedBytes: nat, size: (int, nat) -> nat) returns (total: nat)
    ensures total == globals + RingBytes(slots, size) + pinnedBytes
  {
    total := globals;
    for i := 0 to |slots|
      invariant total == globals + RingBytes(slots[..i], size)
    {
      for r := 0 to |slots[i].buf|
        invariant total == globals + RingBytes(slots[..i], size) + SlotBytes(slots[i].buf, r, size)
      {
        total := total + CellBytes(slots[i].buf[r], r, size);
      }
      assert slots[..i + 1][..i] == slots[..i];
    }
    assert slots[..|slots|] == slots;
    total := total + pinnedBytes;
  }

  /** When every layer the caller loads is pinned, the ring stays empty. */
  lemma {:induction false} AllPinned(s: State, acts: seq<Action>)
    requires CanRun(s, acts) && s.jobs == [] && s.worker.Idle? && s.caller.Running?
    requires forall a | a in acts && a.LoadBegin? :: a.layer in s.pinned
    ensures RunTo(s, acts).slots == s.slots
    decreases |acts|
  {
    if acts != [] {
      AllPinned(Apply(s, acts[0]), acts[1..]);
    }
  }

  lemma {:induction false} BlankRing(slots: seq<Slot>, size: (int, nat) -> nat)
    requires forall i | 0 <= i < |slots| :: forall r | 0 <= r < |slots[i].buf| :: slots[i].buf[r] == Blank
    ensures RingBytes(slots, size) == 0
  {
    if slots != [] {
      var n := |slots| - 1;
      BlankRing(slots[..n], size);
      BlankSlot(slots[n].buf, |slots[n].buf|, size);
    }
  }

  lemma {:induction false} BlankSlot(buf: seq<Cell>, k: nat, size: (int, nat) -> nat)
    requires k <= |buf| && forall r | 0 <= r < |buf| :: buf[r] == Blank
    ensures SlotBytes(buf, k, size) == 0
  {
    if k > 0 {
      BlankSlot(buf, k - 1, size);
    }
  }

  lemma {:induction false} AllPinnedWithinBudget(n: nat, pinned: set<int>, acts: seq<Action>, size: (int, nat) -> nat,
                              budget: nat, globals: nat, pinnedBytes: nat)
    requires CanRun(Fresh(n, pinned), acts) && globals + pinnedBytes <= budget
    requires forall a | a in acts && a.LoadBegin? :: a.layer in pinned
    ensures globals + RingBytes(RunTo(Fresh(n, pinned), acts).slots, size) + pinnedBytes <= budget
  {
    AllPinned(Fresh(n, pinned), acts);
    BlankRing(Fresh(n, pinned).slots, size);
  }

  lemma {:induction false} RoleBytesSplit(layer: int, i: nat, j: nat, k: nat, size: (int, nat) -> nat)
    requires i <= j <= k
    ensures RoleBytes(layer, i, k, size) == RoleBytes(layer, i, j, size) + RoleBytes(layer, j, k, size)
    decreases k
  {
    if j < k {
      RoleBytesSplit(layer, i, j, k - 1, size);
    }
  }
}
