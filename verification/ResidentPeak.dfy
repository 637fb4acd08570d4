/** The exact ceiling of the loader's resident bytes: the most its ring can hold over every
    run, and what that means for the pinning planner's budget. */
module ResidentPeak {
  import opened Arithmetic
  import opened Loading
  import opened Residency

  /** A ring of `n` slots serving layers [lo, hi), of which [lo, mid) are pinned. */
  datatype Serving = Serving(n: nat, lo: nat, mid: nat, hi: nat, size: (int, nat) -> nat)

  predicate Streamed(v: Serving, l: int) { v.mid <= l < v.hi }

  predicate IsPinned(v: Serving, l: int) { v.lo <= l < v.mid }

  function PinnedRun(v: Serving): set<int> {
    set l: int | v.lo <= l < v.mid && IsPinned(v, l)
  }

  /** The caller loads layers of the range; the prefetch policy answers one that is not
      pinned, or none. */
  predicate Serves(v: Serving, a: Action) {
    match a
    case LoadBegin(l) => v.lo <= l < v.hi
    case LoadResume(next) => next == -1 || Streamed(v, next)
    case _ => true
  }

  ghost predicate AllServe(v: Serving, acts: seq<Action>) {
    forall a | a in acts :: Serves(v, a)
  }

  function Start(v: Serving): State { Fresh(v.n, PinnedRun(v)) }

  /** What the loader reports at the end of a run. */
  ghost function Resident(v: Serving, acts: seq<Action>, globals: nat, pinnedBytes: nat): nat
    requires CanRun(Start(v), acts)
  {
    globals + RingBytes(RunTo(Start(v), acts).slots, v.size) + pinnedBytes
  }

  // ---- the peak ------------------------------------------------------------------

  /** A layer of [mid, hi) with the largest value. */
  function Widest(bytes: int -> nat, mid: nat, hi: nat): (l: int)
    requires mid < hi
    ensures mid <= l < hi && forall k: int | mid <= k < hi :: bytes(k) <= bytes(l)
    decreases hi
  {
    if mid + 1 == hi then mid
    else
      var l := Widest(bytes, mid, hi - 1);
      if bytes(l) < bytes(hi - 1) then hi - 1 else l
  }

  /** The streamed layer that is largest in one role. */
  function Best(v: Serving, r: nat): (l: int)
    requires v.mid < v.hi
    ensures Streamed(v, l) && forall k: int | Streamed(v, k) :: v.size(k, r) <= v.size(l, r)
  {
    var bytes := (k: int) => v.size(k, r);
    var l := Widest(bytes, v.mid, v.hi);
    assert forall k: int | Streamed(v, k) :: bytes(k) <= bytes(l);
    l
  }

  /** The streamed layer that is largest as a whole. */
  function Largest(v: Serving): (l: int)
    requires v.mid < v.hi
    ensures Streamed(v, l) && forall k: int | Streamed(v, k) :: LayerBytes(k, v.size) <= LayerBytes(l, v.size)
  {
    var bytes := (k: int) => LayerBytes(k, v.size);
    var l := Widest(bytes, v.mid, v.hi);
    assert forall k: int | Streamed(v, k) :: bytes(k) <= bytes(l);
    l
  }

  /** Every role at its largest: the first `k` of them. */
  function RolesPeak(v: Serving, k: nat): nat
    requires v.mid < v.hi
  {
    if k == 0 then 0 else RolesPeak(v, k - 1) + v.size(Best(v, k - 1), k - 1)
  }

  /** A single layer is streamed. */
  predicate Lone(v: Serving) { v.mid + 1 == v.hi }

  /** The most the ring can hold: every role of every slot at its largest; but while nothing is
      pinned, one slot always holds a single layer. A single streamed layer never gets beyond
      the first two slots. */
  function Peak(v: Serving): int
  {
    if v.mid >= v.hi then 0
    else if v.n == 1 then RolesPeak(v, ROLES)
    else if Lone(v) then RolesPeak(v, ROLES) + RolesPeak(v, ROLES)
    else (v.n - 1) * RolesPeak(v, ROLES) + if v.lo < v.mid then RolesPeak(v, ROLES) else LayerBytes(Largest(v), v.size)
  }

  // ---- it is never exceeded ------------------------------------------------------

  predicate CellIn(v: Serving, c: Cell) { c.Blank? || Streamed(v, c.layer) }

  predicate BufIn(v: Serving, buf: seq<Cell>) { |buf| == ROLES && forall r | 0 <= r < |buf| :: CellIn(v, buf[r]) }

  /** Only streamed layers are in the ring or on their way to it. */
  ghost predicate InRange(v: Serving, s: State) {
    && (forall i | 0 <= i < |s.slots| :: BufIn(v, s.slots[i].buf))
    && (forall j | j in s.jobs :: Streamed(v, j.layer))
    && (s.worker.Filling? ==> Streamed(v, s.worker.job.layer))
  }

  predicate Unused(s: Slot) { s.mark == Empty && forall r | 0 <= r < |s.buf| :: s.buf[r] == Blank }

  /** Before the first layer is ready only slot 0 is in use. */
  ghost predicate OnlyFirst(s: State) {
    s.current < 0 ==>
      && (forall i | 1 <= i < |s.slots| :: Unused(s.slots[i]))
      && (forall j | j in s.jobs :: j.slot == 0)
      && (s.worker.Filling? ==> s.worker.job.slot == 0) && (s.caller.Waiting? ==> s.caller.slot == 0)
  }

  /** A single streamed layer keeps to the first two slots, and to the first one until that is
      ready. */
  ghost predicate OnlyTwo(v: Serving, s: State) {
    && |s.slots| > 1 && s.current <= 0 && (s.caller.Waiting? ==> s.caller.slot == 0)
    && (s.slots[0].mark != Empty ==> s.slots[0].layer == v.mid)
    && (forall j | j in s.jobs :: j.slot <= 1) && (s.worker.Filling? ==> s.worker.job.slot <= 1)
    && (forall i | 2 <= i < |s.slots| :: Unused(s.slots[i]))
    && (s.slots[0].mark == Ready
        || (Unused(s.slots[1]) && (forall j | j in s.jobs :: j.slot == 0) && (s.worker.Filling? ==> s.worker.job.slot == 0)))
  }

  lemma {:induction false} StepInRange(v: Serving, s: State, a: Action)
    requires Inv(s) && Enabled(s, a) && Serves(v, a) && s.pinned == PinnedRun(v) && InRange(v, s)
    ensures InRange(v, Apply(s, a)) && Apply(s, a).pinned == s.pinned
  {
    assert forall l: int | v.lo <= l < v.hi && l !in s.pinned :: Streamed(v, l);
    if a.JobPop? {
      assert s.jobs[0] in s.jobs;
    }
  }

  lemma {:induction false} StepOnlyFirst(v: Serving, s: State, a: Action)
    requires Inv(s) && Enabled(s, a) && s.pinned == {} && OnlyFirst(s)
    ensures OnlyFirst(Apply(s, a)) && Apply(s, a).pinned == {}
  {
    if a.JobPop? {
      assert s.jobs[0] in s.jobs;
    }
  }

  lemma {:induction false} HeldAt(slots: seq<Slot>, layer: int, i: nat)
    requires i <= |slots| && (i < |slots| ==> Held(slots[i], layer)) && forall k | 0 <= k < i :: !Held(slots[k], layer)
    ensures FirstHeld(slots, layer) == i
  {
  }
  lemma {:induction false} HeldFirst(v: Serving, s: State)
    requires Inv(s) && OnlyTwo(v, s)
    ensures FirstHeld(s.slots, v.mid) == if Held(s.slots[0], v.mid) then 0 else |s.slots|
    ensures s.current == 0 ==> Held(s.slots[0], v.mid)
  {
    HeldAt(s.slots, v.mid, if Held(s.slots[0], v.mid) then 0 else |s.slots|);
  }

  lemma {:induction false} BeginOnlyTwo(v: Serving, s: State, l: int)
    requires Inv(s) && s.caller.Running? && (l == v.mid || l in s.pinned) && OnlyTwo(v, s)
    ensures OnlyTwo(v, Begin(s, l))
  {
    HeldFirst(v, s);
    hide Inv, FirstHeld;
  }

  lemma {:induction false} ResumeOnlyTwo(v: Serving, s: State, next: int)
    requires Inv(s) && Released(s) && (next == -1 || next == v.mid) && OnlyTwo(v, s)
    ensures OnlyTwo(v, Resume(s, next))
  {
    assert OtherSlot(|s.slots|, 0) == 1;
    hide Inv;
  }

  lemma {:induction false} StepOnlyTwo(v: Serving, s: State, a: Action)
    requires Inv(s) && Enabled(s, a) && Serves(v, a) && s.pinned == PinnedRun(v) && Lone(v) && OnlyTwo(v, s)
    ensures OnlyTwo(v, Apply(s, a))
  {
    match a {
      case LoadBegin(l) =>
        assert l !in s.pinned ==> l == v.mid;
        BeginOnlyTwo(v, s, l);
      case LoadResume(next) =>
        ResumeOnlyTwo(v, s, next);
      case JobPop =>
        assert s.jobs[0] in s.jobs;
      case _ =>
    }
  }

  lemma {:induction false} RunInRange(v: Serving, s: State, acts: seq<Action>)
    requires Inv(s) && CanRun(s, acts) && AllServe(v, acts) && s.pinned == PinnedRun(v) && InRange(v, s)
    requires (v.lo >= v.mid ==> OnlyFirst(s)) && (Lone(v) ==> OnlyTwo(v, s))
    ensures var t := RunTo(s, acts);
            && Inv(t) && InRange(v, t) && |t.slots| == |s.slots|
            && (v.lo >= v.mid ==> OnlyFirst(t)) && (Lone(v) ==> OnlyTwo(v, t))
    decreases |acts|
  {
    hide Inv, InRange, OnlyFirst, OnlyTwo;
    if acts != [] {
      StepKeeps(s, acts[0]);
      SlotsStay(s, acts[0]);
      StepInRange(v, s, acts[0]);
      if v.lo >= v.mid {
        assert s.pinned == {};
        StepOnlyFirst(v, s, acts[0]);
      }
      if Lone(v) {
        StepOnlyTwo(v, s, acts[0]);
      }
      RunInRange(v, Apply(s, acts[0]), acts[1..]);
    }
  }

  lemma {:induction false} SlotInRange(v: Serving, buf: seq<Cell>, k: nat)
    requires v.mid < v.hi && BufIn(v, buf) && k <= ROLES
    ensures SlotBytes(buf, k, v.size) <= RolesPeak(v, k)
  {
    if k > 0 {
      SlotInRange(v, buf, k - 1);
      assert CellIn(v, buf[k - 1]);
    }
  }

  lemma {:induction false} FilledBytes(buf: seq<Cell>, layer: int, k: nat, size: (int, nat) -> nat)
    requires k <= |buf| && forall r | 0 <= r < k :: buf[r] == Data(layer)
    ensures SlotBytes(buf, k, size) == RoleBytes(layer, 0, k, size)
  {
    if k > 0 {
      FilledBytes(buf, layer, k - 1, size);
    }
  }

  /** `b` bytes in slot `c`, `m` in any other. */
  function Except(n: nat, c: int, m: nat, b: nat): int {
    n * m + if 0 <= c < n then b - m else 0
  }

  lemma {:induction false} ExceptStep(n: nat, c: int, m: nat, b: nat)
    ensures Except(n + 1, c, m, b) == Except(n, c, m, b) + if c == n then b else m
  {
    assert (n + 1) * m == n * m + m;
  }

  lemma {:induction false} RingAtMost(v: Serving, slots: seq<Slot>, c: int, m: nat, b: nat)
    requires forall i | 0 <= i < |slots| :: SlotBytes(slots[i].buf, |slots[i].buf|, v.size) <= if i == c then b else m
    ensures RingBytes(slots, v.size) <= Except(|slots|, c, m, b)
  {
    hide Except, SlotBytes;
    if slots == [] {
      assert Except(0, c, m, b) == 0 by { NoSlots(c, m, b); }
    } else {
      RingAtMost(v, slots[..|slots| - 1], c, m, b);
      ExceptStep(|slots| - 1, c, m, b);
    }
  }

  lemma {:induction false} RingAtLeast(v: Serving, slots: seq<Slot>, c: int, m: nat, b: nat)
    requires forall i | 0 <= i < |slots| :: SlotBytes(slots[i].buf, |slots[i].buf|, v.size) >= if i == c then b else m
    ensures RingBytes(slots, v.size) >= Except(|slots|, c, m, b)
  {
    hide Except, SlotBytes;
    if slots == [] {
      assert Except(0, c, m, b) == 0 by { NoSlots(c, m, b); }
    } else {
      RingAtLeast(v, slots[..|slots| - 1], c, m, b);
      ExceptStep(|slots| - 1, c, m, b);
    }
  }

  lemma {:induction false} NoSlots(c: int, m: nat, b: nat)
    ensures Except(0, c, m, b) == 0
  {
  }

  lemma {:induction false} PeakIs(v: Serving)
    requires v.n > 1 && v.mid < v.hi && !Lone(v)
    ensures Peak(v) == if v.lo < v.mid then v.n * RolesPeak(v, ROLES)
                       else Except(v.n, 0, RolesPeak(v, ROLES), LayerBytes(Largest(v), v.size))
    ensures forall c: int | 0 <= c < v.n ::
              Except(v.n, c, RolesPeak(v, ROLES), LayerBytes(Largest(v), v.size)) == Except(v.n, 0, RolesPeak(v, ROLES), LayerBytes(Largest(v), v.size))
  {
    hide RolesPeak, LayerBytes, Largest;
    var m := RolesPeak(v, ROLES);
    assert v.n * m == (v.n - 1) * m + m;
  }

  /** While a slot is being consumed it holds one layer. */
  lemma {:induction false} CurrentHoldsOne(v: Serving, s: State, c: nat)
    requires Inv(s) && InRange(v, s) && v.mid < v.hi && s.current == c
    ensures c < |s.slots| && SlotBytes(s.slots[c].buf, |s.slots[c].buf|, v.size) <= LayerBytes(Largest(v), v.size)
  {
    assert SlotOk(s, c);
    var b := s.slots[c];
    assert BufIn(v, b.buf) && CellIn(v, b.buf[0]);
    FilledBytes(b.buf, b.layer, ROLES, v.size);
  }

  lemma {:induction false} UnusedBytes(v: Serving, s: Slot)
    requires Unused(s)
    ensures SlotBytes(s.buf, |s.buf|, v.size) == 0
  {
    BlankSlot(s.buf, |s.buf|, v.size);
  }

  lemma {:induction false} StateWithinPeak(v: Serving, s: State)
    requires v.n > 1 && |s.slots| == v.n && v.mid < v.hi && !Lone(v)
    requires Inv(s) && InRange(v, s) && (v.lo >= v.mid ==> OnlyFirst(s))
    ensures RingBytes(s.slots, v.size) <= Peak(v)
  {
    var m, b := RolesPeak(v, ROLES), LayerBytes(Largest(v), v.size);
    forall i | 0 <= i < |s.slots|
      ensures |s.slots[i].buf| == ROLES && SlotBytes(s.slots[i].buf, |s.slots[i].buf|, v.size) <= m
    {
      SlotInRange(v, s.slots[i].buf, ROLES);
    }
    PeakIs(v);
    if v.lo < v.mid {
      RingAtMost(v, s.slots, -1, m, b);
    } else if s.current >= 0 {
      CurrentHoldsOne(v, s, s.current);
      RingAtMost(v, s.slots, s.current, m, b);
    } else {
      forall i | 1 <= i < |s.slots|
        ensures SlotBytes(s.slots[i].buf, |s.slots[i].buf|, v.size) == 0
      {
        UnusedBytes(v, s.slots[i]);
      }
      RingAtMost(v, s.slots, 0, 0, m);
      FirstAlone(v.n, m, b);
    }
  }

  /** `m` bytes in each of the first two slots, none behind them. */
  lemma {:induction false} TwoAtMost(v: Serving, slots: seq<Slot>, m: nat)
    requires forall i | 0 <= i < |slots| :: SlotBytes(slots[i].buf, |slots[i].buf|, v.size) <= if i < 2 then m else 0
    ensures RingBytes(slots, v.size) <= if |slots| >= 2 then m + m else |slots| * m
  {
    hide SlotBytes;
    if slots != [] {
      TwoAtMost(v, slots[..|slots| - 1], m);
    }
  }

  lemma {:induction false} TwoAtLeast(v: Serving, slots: seq<Slot>, m: nat)
    requires forall i | 0 <= i < |slots| && i < 2 :: SlotBytes(slots[i].buf, |slots[i].buf|, v.size) >= m
    ensures RingBytes(slots, v.size) >= if |slots| >= 2 then m + m else |slots| * m
  {
    hide SlotBytes;
    if slots != [] {
      TwoAtLeast(v, slots[..|slots| - 1], m);
    }
  }

  lemma {:induction false} LoneWithinPeak(v: Serving, s: State)
    requires v.n > 1 && |s.slots| == v.n && Lone(v) && InRange(v, s) && OnlyTwo(v, s)
    ensures RingBytes(s.slots, v.size) <= Peak(v)
  {
    var m := RolesPeak(v, ROLES);
    forall i | 0 <= i < |s.slots|
      ensures SlotBytes(s.slots[i].buf, |s.slots[i].buf|, v.size) <= if i < 2 then m else 0
    {
      SlotInRange(v, s.slots[i].buf, ROLES);
      if i >= 2 {
        UnusedBytes(v, s.slots[i]);
      }
    }
    TwoAtMost(v, s.slots, m);
  }

  lemma {:induction false} FirstAlone(n: nat, m: nat, b: nat)
    requires n > 1
    ensures Except(n, 0, 0, m) <= Except(n, 0, m, b)
  {
    assert n * m == (n - 2) * m + m + m;
  }

  lemma {:induction false} StartInRange(v: Serving)
    requires v.n > 1
    ensures Inv(Start(v)) && InRange(v, Start(v)) && OnlyFirst(Start(v)) && OnlyTwo(v, Start(v))
  {
    FreshInv(v.n, PinnedRun(v));
  }

  /** With every layer pinned the ring stays empty. */
  lemma {:induction false} NothingStreamed(v: Serving, acts: seq<Action>)
    requires v.n > 1 && v.mid >= v.hi && CanRun(Start(v), acts) && AllServe(v, acts)
    ensures RingBytes(RunTo(Start(v), acts).slots, v.size) == 0
  {
    assert forall a | a in acts && a.LoadBegin? :: Serves(v, a);
    AllPinned(Start(v), acts);
    BlankRing(Start(v).slots, v.size);
  }

  /** The ceiling: in every reachable state, in the middle of any refill and after any read
      error, the ring holds at most the peak. */
  lemma {:induction false} NeverAbovePeak(v: Serving, acts: seq<Action>)
    requires v.n > 1 && CanRun(Start(v), acts) && AllServe(v, acts)
    ensures RingBytes(RunTo(Start(v), acts).slots, v.size) <= Peak(v)
  {
    if v.mid >= v.hi {
      NothingStreamed(v, acts);
    } else {
      hide RunTo, CanRun, AllServe, InRange, OnlyFirst, OnlyTwo, Inv, RingBytes, Peak;
      StartInRange(v);
      RunInRange(v, Start(v), acts);
      if Lone(v) {
        LoneWithinPeak(v, RunTo(Start(v), acts));
      } else {
        StateWithinPeak(v, RunTo(Start(v), acts));
      }
    }
  }

  // ---- it is reached -------------------------------------------------------------

  /** Some run of served layers leads from `s` to `t`. */
  ghost predicate Reach(v: Serving, s: State, t: State) {
    exists acts :: CanRun(s, acts) && AllServe(v, acts) && RunTo(s, acts) == t
  }

  lemma {:induction false} RunAppend(s: State, a: seq<Action>, b: seq<Action>)
    requires CanRun(s, a) && CanRun(RunTo(s, a), b)
    ensures CanRun(s, a + b) && RunTo(s, a + b) == RunTo(RunTo(s, a), b)
    decreases |a|
  {
    hide Apply, Enabled;
    if a == [] {
      assert a + b == b;
    } else {
      RunAppend(Apply(s, a[0]), a[1..], b);
      assert (a + b)[0] == a[0] && (a + b)[1..] == a[1..] + b;
    }
  }

  lemma {:induction false} ReachStep(v: Serving, s: State, a: Action)
    requires Enabled(s, a) && Serves(v, a)
    ensures Reach(v, s, Apply(s, a))
  {
    assert [a][1..] == [];
    assert CanRun(s, [a]) && AllServe(v, [a]) && RunTo(s, [a]) == Apply(s, a);
  }

  lemma {:induction false} ReachSelf(v: Serving, s: State)
    ensures Reach(v, s, s)
  {
    assert CanRun(s, []) && AllServe(v, []);
  }

  lemma {:induction false} ReachTrans(v: Serving, s: State, t: State, u: State)
    requires Reach(v, s, t) && Reach(v, t, u)
    ensures Reach(v, s, u)
  {
    var a :| CanRun(s, a) && AllServe(v, a) && RunTo(s, a) == t;
    var b :| CanRun(t, b) && AllServe(v, b) && RunTo(t, b) == u;
    RunAppend(s, a, b);
    assert AllServe(v, a + b);
  }

  /** One step further. */
  lemma {:induction false} ReachMore(v: Serving, s: State, t: State, a: Action)
    requires Reach(v, s, t) && Enabled(t, a) && Serves(v, a)
    ensures Reach(v, s, Apply(t, a))
  {
    ReachStep(v, t, a);
    ReachTrans(v, s, t, Apply(t, a));
  }

  function StoredSlot(s: State, job: Job, j: nat): seq<Slot>
    requires job.slot < |s.slots|
  {
    s.slots[job.slot := s.slots[job.slot].(buf := Stored(s.slots[job.slot].buf, job.layer, j))]
  }

  /** The worker stores `j` roles. */
  lemma {:induction false} FillRoles(v: Serving, s: State, job: Job, j: nat)
    requires s.worker == Filling(job, 0, false) && j <= ROLES
    requires job.slot < |s.slots| && |s.slots[job.slot].buf| == ROLES
    ensures Reach(v, s, s.(slots := StoredSlot(s, job, j), worker := Filling(job, j, false)))
  {
    hide Reach;
    if j == 0 {
      assert Stored(s.slots[job.slot].buf, job.layer, 0) == s.slots[job.slot].buf;
      assert s.(slots := StoredSlot(s, job, 0), worker := Filling(job, 0, false)) == s;
      ReachSelf(v, s);
    } else {
      FillRoles(v, s, job, j - 1);
      var t := s.(slots := StoredSlot(s, job, j - 1), worker := Filling(job, j - 1, false));
      ReachMore(v, s, t, RoleTear);
      ReachMore(v, s, Tear(t), RoleWrite);
      assert Stored(s.slots[job.slot].buf, job.layer, j - 1)[j - 1 := Torn(job.layer)][j - 1 := Data(job.layer)]
          == Stored(s.slots[job.slot].buf, job.layer, j);
      assert Write(Tear(t)).slots == StoredSlot(s, job, j);
    }
  }

  /** What a fill that ends behind `j` roles leaves of a slot. */
  function Left(slot: Slot, layer: int, j: nat): Slot {
    slot.(mark := if j == ROLES then Ready else Failed, buf := Stored(slot.buf, layer, j))
  }

  /** The worker takes its one job and fills until it is done or role `j` cannot be read. */
  lemma {:induction false} FillSlot(v: Serving, s: State, job: Job, j: nat)
    requires s.worker.Idle? && s.jobs == [job] && j <= ROLES
    requires job.slot < |s.slots| && |s.slots[job.slot].buf| == ROLES && s.slots[job.slot].ticket == job.ticket
    ensures Reach(v, s, s.(jobs := [], slots := s.slots[job.slot := Left(s.slots[job.slot], job.layer, j)]))
  {
    hide Reach, Stored;
    ReachStep(v, s, JobPop);
    var t := Pop(s);
    FillRoles(v, t, job, j);
    var u := t.(slots := StoredSlot(t, job, j), worker := Filling(job, j, false));
    ReachTrans(v, s, t, u);
    ReachMore(v, s, u, JobFinish(j == ROLES));
    assert Finish(u, j == ROLES) == s.(jobs := [], slots := s.slots[job.slot := Left(s.slots[job.slot], job.layer, j)]);
  }

  /** Nothing is queued, in flight or waited for. */
  predicate Quiet(v: Serving, s: State) {
    && s.jobs == [] && s.worker.Idle? && s.caller.Running? && |s.slots| == v.n > 1 && -1 <= s.current < v.n
    && s.pinned == PinnedRun(v) && forall i | 0 <= i < |s.slots| :: |s.slots[i].buf| == ROLES
  }

  /** After loading a layer that is nowhere in the ring, with a read error behind `j` roles
      unless all are read. */
  function Missed(s: State, layer: int, j: nat): State
    requires |s.slots| > 1 && s.current < |s.slots|
  {
    var w := Victim(s);
    var slot := s.slots[w];
    if j == ROLES then
      s.(slots := s.slots[w := Slot(layer, Ready, slot.ticket + 1, Stored(slot.buf, layer, j))], current := w, active := Ring(w, layer))
    else
      s.(slots := s.slots[w := Slot(-1, Empty, slot.ticket + 1, Stored(slot.buf, layer, j))])
  }

  lemma {:induction false} LoadMiss(v: Serving, s: State, layer: int, j: nat)
    requires Quiet(v, s) && Streamed(v, layer) && v.lo <= v.mid && j <= ROLES
    requires FirstHeld(s.slots, layer) == |s.slots|
    ensures Reach(v, s, Missed(s, layer, j)) && Quiet(v, Missed(s, layer, j))
  {
    hide Reach, FirstHeld;
    var w := Victim(s);
    var job := Job(w, layer, s.slots[w].ticket + 1);
    ReachStep(v, s, LoadBegin(layer));
    var t := Begin(s, layer);
    FillSlot(v, t, job, j);
    var u := t.(jobs := [], slots := t.slots[w := Left(t.slots[w], layer, j)]);
    ReachTrans(v, s, t, u);
    ReachMore(v, s, u, LoadResume(-1));
    assert Resume(u, -1) == Missed(s, layer, j);
  }

  /** After loading the layer of slot `c` again while the policy prefetches `next`. */
  function Prefetched(s: State, c: nat, next: int, j: nat): State
    requires c + 1 < |s.slots|
  {
    var slot := s.slots[c + 1];
    s.(slots := s.slots[c + 1 := Left(Slot(next, Loading, slot.ticket + 1, slot.buf), next, j)],
       current := c, active := Ring(c, s.slots[c].layer))
  }

  lemma {:induction false} LoadHit(v: Serving, s: State, c: nat, next: int, j: nat)
    requires Quiet(v, s) && Streamed(v, next) && v.lo <= v.mid && j <= ROLES
    requires c + 1 < |s.slots| && s.slots[c].mark == Ready && Streamed(v, s.slots[c].layer)
    requires FirstHeld(s.slots, s.slots[c].layer) == c && s.slots[c + 1].layer != next
    ensures Reach(v, s, Prefetched(s, c, next, j)) && Quiet(v, Prefetched(s, c, next, j))
  {
    hide Reach, FirstHeld;
    var layer := s.slots[c].layer;
    ReachStep(v, s, LoadBegin(layer));
    var t := Begin(s, layer);
    assert t == s.(caller := Waiting(c, layer, s.slots[c].ticket));
    ReachMore(v, s, t, LoadResume(next));
    var u := Resume(t, next);
    var slot := s.slots[c + 1];
    var job := Job(c + 1, next, slot.ticket + 1);
    assert OtherSlot(|s.slots|, c) == c + 1;
    assert u == s.(slots := s.slots[c + 1 := Slot(next, Loading, slot.ticket + 1, slot.buf)], jobs := [job],
                   current := c, active := Ring(c, layer));
    FillSlot(v, u, job, j);
    var full := u.(jobs := [], slots := u.slots[c + 1 := Left(u.slots[c + 1], next, j)]);
    assert full.slots == Prefetched(s, c, next, j).slots && full == Prefetched(s, c, next, j);
    ReachTrans(v, s, u, full);
  }

  /** After loading a pinned layer no slot is being consumed. */
  lemma {:induction false} LoadPinned(v: Serving, s: State)
    requires Quiet(v, s) && v.lo < v.mid <= v.hi
    ensures Reach(v, s, s.(active := Pinned(v.lo), current := -1)) && Quiet(v, s.(active := Pinned(v.lo), current := -1))
  {
    assert IsPinned(v, v.lo);
    ReachStep(v, s, LoadBegin(v.lo));
  }

  // ---- one slot at its peak ------------------------------------------------------

  /** The roles from `r` on are at their largest; the ones before belong to the layer that is
      largest in role `r`. */
  function Mix(v: Serving, r: nat): seq<Cell>
    requires v.mid < v.hi
  {
    seq(ROLES, k requires 0 <= k => Data(Best(v, if k < r then r else k)))
  }

  /** One layer is largest in every role from `r` on. */
  predicate Same(v: Serving, r: nat)
    requires v.mid < v.hi
  {
    forall k: nat | r <= k < ROLES :: Best(v, k) == Best(v, ROLES - 1)
  }

  lemma {:induction false} MixMore(v: Serving, r: nat)
    requires v.mid < v.hi && 0 < r < ROLES
    ensures Best(v, r - 1) == Best(v, r) ==> Mix(v, r - 1) == Mix(v, r) && Same(v, r - 1) == Same(v, r)
    ensures Stored(Mix(v, r), Best(v, r - 1), r) == Mix(v, r - 1)
    ensures Best(v, r - 1) != Best(v, r) ==> !Same(v, r - 1)
  {
    hide Best;
  }

  lemma {:induction false} MixBytes(v: Serving, buf: seq<Cell>, k: nat)
    requires v.mid < v.hi && buf == Mix(v, 0) && k <= ROLES
    ensures SlotBytes(buf, k, v.size) == RolesPeak(v, k)
  {
    if k > 0 {
      MixBytes(v, buf, k - 1);
    }
  }

  /** The roles from `r` on are at their peak; a slot that could pass for a hit holds one layer. */
  ghost predicate Spoiled(v: Serving, slot: Slot, r: nat)
    requires v.mid < v.hi
  {
    && r < ROLES && slot.buf == Mix(v, r) && slot.mark != Loading
    && (slot.mark == Ready ==> Same(v, r) && slot.layer == Best(v, r))
  }

  /** Same ring, but for one slot. */
  ghost predicate OnlyDiffers(s: State, t: State, i: nat) {
    |t.slots| == |s.slots| && forall k: nat | k < |s.slots| && k != i :: t.slots[k] == s.slots[k]
  }

  predicate FullOf(slot: Slot, layer: int) {
    slot.layer == layer && slot.mark == Ready && Filled(slot, layer)
  }


  /** Slot `c` is ready and the first one held for its layer, a streamed one. */
  ghost predicate Base(v: Serving, s: State, c: nat) {
    && c + 1 < |s.slots| && s.slots[c].mark == Ready && Streamed(v, s.slots[c].layer)
    && forall k | 0 <= k < c :: !Held(s.slots[k], s.slots[c].layer)
  }

  /** A prefetch of `next` next to slot `c`. */
  lemma {:induction false} Prefetch(v: Serving, s: State, c: nat, next: int, j: nat) returns (t: State)
    requires Quiet(v, s) && Base(v, s, c) && Streamed(v, next) && v.lo <= v.mid && j <= ROLES && s.slots[c + 1].layer != next
    ensures Reach(v, s, t) && Quiet(v, t) && Base(v, t, c) && OnlyDiffers(s, t, c + 1) && t.current == c
    ensures t.slots[c + 1].layer == next && t.slots[c + 1].mark == if j == ROLES then Ready else Failed
    ensures t.slots[c + 1].buf == Stored(s.slots[c + 1].buf, next, j)
  {
    hide Reach, Stored, Quiet;
    HeldAt(s.slots, s.slots[c].layer, c);
    assert Quiet(v, s) ==> |s.slots| > 1;
    LoadHit(v, s, c, next, j);
    t := Prefetched(s, c, next, j);
  }

  lemma {:induction false} StoredSame(buf: seq<Cell>, layer: int)
    requires |buf| == ROLES && forall r | 0 <= r < ROLES :: buf[r] == Data(layer)
    ensures Stored(buf, layer, ROLES) == buf
  {
  }

  lemma {:induction false} StoredAll(buf: seq<Cell>, v: Serving)
    requires v.mid < v.hi && |buf| == ROLES
    ensures Stored(buf, Best(v, ROLES - 1), ROLES) == Mix(v, ROLES - 1)
  {
    hide Best;
  }

  /** Prefetches that end with a read error bring the slot behind `c` from role `r` down to
      its peak. */
  lemma {:induction false} SpoilDown(v: Serving, s: State, c: nat, r: nat) returns (t: State)
    requires Quiet(v, s) && Base(v, s, c) && v.lo <= v.mid < v.hi
    requires Spoiled(v, s.slots[c + 1], r) && s.slots[c + 1].layer == Best(v, r)
    ensures Reach(v, s, t) && Quiet(v, t) && Base(v, t, c) && OnlyDiffers(s, t, c + 1) && Spoiled(v, t.slots[c + 1], 0)
    decreases r
  {
    hide Reach, Quiet, Mix, Same, Best;
    if r == 0 {
      ReachSelf(v, s);
      return s;
    }
    MixMore(v, r);
    var u := s;
    if Best(v, r - 1) != Best(v, r) {
      u := Prefetch(v, s, c, Best(v, r - 1), r);
    } else {
      ReachSelf(v, s);
    }
    t := SpoilDown(v, u, c, r - 1);
    ReachTrans(v, s, u, t);
  }

  /** A streamed layer that is not `x`. */
  function Other(v: Serving, x: int): (y: int)
    requires v.mid + 1 < v.hi
    ensures Streamed(v, y) && y != x
  {
    if x == v.mid then v.mid + 1 else v.mid
  }

  /** The same, whatever the label of slot `c + 1` says: another layer is prefetched first if need be. */
  lemma {:induction false} PrefetchAny(v: Serving, s: State, c: nat, next: int, j: nat) returns (t: State)
    requires Quiet(v, s) && Base(v, s, c) && Streamed(v, next) && v.lo <= v.mid && v.mid + 1 < v.hi && j <= ROLES
    ensures Reach(v, s, t) && Quiet(v, t) && Base(v, t, c) && OnlyDiffers(s, t, c + 1)
    ensures t.slots[c + 1].layer == next && t.slots[c + 1].mark == if j == ROLES then Ready else Failed
    ensures j == ROLES ==> FullOf(t.slots[c + 1], next)
  {
    hide Reach;
    if s.slots[c + 1].layer == next {
      var u := Prefetch(v, s, c, Other(v, next), ROLES);
      t := Prefetch(v, u, c, next, j);
      ReachTrans(v, s, u, t);
    } else {
      t := Prefetch(v, s, c, next, j);
    }
  }

  /** The slot behind `c`, whatever it holds, brought to its peak. */
  lemma {:induction false} SpoilNext(v: Serving, s: State, c: nat) returns (t: State)
    requires Quiet(v, s) && Base(v, s, c) && v.lo <= v.mid && v.mid + 1 < v.hi
    ensures Reach(v, s, t) && Quiet(v, t) && Base(v, t, c) && OnlyDiffers(s, t, c + 1) && Spoiled(v, t.slots[c + 1], 0)
  {
    assert c + 1 < |s.slots|;
    hide Reach, Base;
    var top := Best(v, ROLES - 1);
    var u := PrefetchAny(v, s, c, top, ROLES);
    StoredAll(u.slots[c + 1].buf, v);
    StoredSame(u.slots[c + 1].buf, top);
    assert Same(v, ROLES - 1);
    t := SpoilDown(v, u, c, ROLES - 1);
    ReachTrans(v, s, u, t);
  }

  // ---- every slot at its peak ----------------------------------------------------

  /** Slot 0 holds `x`. */
  ghost predicate Rooted(v: Serving, s: State, x: int) {
    Quiet(v, s) && Streamed(v, x) && FullOf(s.slots[0], x)
  }

  ghost predicate SameBehind(s: State, t: State, c: nat) {
    |t.slots| == |s.slots| && forall k: nat | c < k < |s.slots| :: t.slots[k] == s.slots[k]
  }

  ghost predicate NoneHeld(s: State, c: nat) {
    c < |s.slots| && forall k: nat | 1 <= k <= c :: s.slots[k].mark == Failed
  }

  /** Two layers are enough to consume any slot but the last: the one before it is consumed to
      fill it, and then everything between is cleared again. */
  lemma {:induction false} Goto(v: Serving, s: State, x: int, c: nat) returns (t: State)
    requires Rooted(v, s, x) && c + 1 < v.n && v.lo <= v.mid && v.mid + 1 < v.hi
    ensures Reach(v, s, t) && Rooted(v, t, x) && Base(v, t, c) && SameBehind(s, t, c)
    decreases c, 1
  {
    hide Reach, Filled;
    if c == 0 {
      ReachSelf(v, s);
      return s;
    }
    var u := Goto(v, s, x, c - 1);
    var w := PrefetchAny(v, u, c - 1, Other(v, x), ROLES);
    t := Clear(v, w, x, c - 1);
    ReachTrans(v, s, u, w);
    ReachTrans(v, s, w, t);
    assert t.slots[c] == w.slots[c];
  }

  lemma {:induction false} Clear(v: Serving, s: State, x: int, c: nat) returns (t: State)
    requires Rooted(v, s, x) && c < v.n && v.lo <= v.mid && v.mid + 1 < v.hi
    ensures Reach(v, s, t) && Rooted(v, t, x) && NoneHeld(t, c) && SameBehind(s, t, c)
    decreases c, 0
  {
    hide Reach, Filled;
    if c == 0 {
      ReachSelf(v, s);
      return s;
    }
    var u := Goto(v, s, x, c - 1);
    var w := PrefetchAny(v, u, c - 1, x, 0);
    t := Clear(v, w, x, c - 1);
    ReachTrans(v, s, u, w);
    ReachTrans(v, s, w, t);
    assert t.slots[c] == w.slots[c];
  }

  ghost predicate SpoiledFrom(v: Serving, s: State, m: nat)
    requires v.mid < v.hi
  {
    forall i: nat | m <= i < |s.slots| :: Spoiled(v, s.slots[i], 0)
  }

  /** From slot `c + 1` down to slot 1, each brought to its peak while the one before it is
      consumed. */
  lemma {:induction false} SpoilAbove(v: Serving, s: State, x: int, c: nat) returns (t: State)
    requires Rooted(v, s, x) && c + 1 < v.n && v.lo <= v.mid && v.mid + 1 < v.hi && SpoiledFrom(v, s, c + 2)
    ensures Reach(v, s, t) && Rooted(v, t, x) && SpoiledFrom(v, t, 1)
    decreases c
  {
    hide Reach, Spoiled, Filled;
    var u := Goto(v, s, x, c);
    assert SpoiledFrom(v, u, c + 2);
    t := SpoilNext(v, u, c);
    ReachTrans(v, s, u, t);
    assert SpoiledFrom(v, t, c + 1) && Rooted(v, t, x);
    if c > 0 {
      var w := t;
      t := SpoilAbove(v, w, x, c - 1);
      ReachTrans(v, s, w, t);
    }
  }

  /** With no slot consumed, slot 0 too is brought down to its peak. */
  lemma {:induction false} SpoilFirst(v: Serving, s: State, r: nat) returns (t: State)
    requires Quiet(v, s) && v.lo <= v.mid < v.hi && s.current == -1
    requires SpoiledFrom(v, s, 1) && Spoiled(v, s.slots[0], r)
    ensures Reach(v, s, t) && Quiet(v, t) && SpoiledFrom(v, t, 0)
    decreases r
  {
    hide Reach, Mix, Same, Best;
    if r == 0 {
      ReachSelf(v, s);
      return s;
    }
    MixMore(v, r);
    var u := s;
    if Best(v, r - 1) != Best(v, r) {
      NothingSame(v, r - 1);
      HeldAt(s.slots, Best(v, r - 1), |s.slots|);
      LoadMiss(v, s, Best(v, r - 1), r);
      u := Missed(s, Best(v, r - 1), r);
    } else {
      ReachSelf(v, s);
    }
    t := SpoilFirst(v, u, r - 1);
    ReachTrans(v, s, u, t);
  }

  lemma {:induction false} NothingSame(v: Serving, r: nat)
    requires v.mid < v.hi && !Same(v, r)
    ensures !Same(v, 0)
  {
  }

  /** The first load of all. */
  lemma {:induction false} LoadFirst(v: Serving, x: int) returns (s: State)
    requires v.n > 1 && v.lo <= v.mid && Streamed(v, x)
    ensures Reach(v, Start(v), s) && Rooted(v, s, x) && s.slots[1].layer == -1
  {
    hide Reach;
    HeldAt(Start(v).slots, x, v.n);
    LoadMiss(v, Start(v), x, ROLES);
    s := Missed(Start(v), x, ROLES);
  }

  /** Layer `x` in slot 0, every other slot at its peak. */
  lemma {:induction false} SpoilAll(v: Serving, x: int) returns (s: State)
    requires v.n > 1 && v.lo <= v.mid && v.mid + 1 < v.hi && Streamed(v, x)
    ensures Reach(v, Start(v), s) && Rooted(v, s, x) && SpoiledFrom(v, s, 1)
  {
    hide Reach, Spoiled;
    var w := LoadFirst(v, x);
    s := SpoilAbove(v, w, x, v.n - 2);
    ReachTrans(v, Start(v), w, s);
  }

  /** The other slots at their peak, the largest layer in the one being consumed. */
  lemma {:induction false} UnpinnedPeak(v: Serving) returns (s: State)
    requires v.n > 1 && v.lo == v.mid && v.mid + 1 < v.hi
    ensures Reach(v, Start(v), s) && RingBytes(s.slots, v.size) >= Peak(v)
  {
    hide Reach, RingBytes, Peak, RolesPeak, LayerBytes;
    s := SpoilAll(v, Largest(v));
    var m, b := RolesPeak(v, ROLES), LayerBytes(Largest(v), v.size);
    forall i | 0 <= i < |s.slots|
      ensures SlotBytes(s.slots[i].buf, |s.slots[i].buf|, v.size) >= if i == 0 then b else m
    {
      if i > 0 {
        assert Spoiled(v, s.slots[i], 0);
        MixBytes(v, s.slots[i].buf, ROLES);
      } else {
        LargestBytes(v, s.slots[0].buf);
      }
    }
    RingAtLeast(v, s.slots, 0, m, b);
    PeakIs(v);
  }

  lemma {:induction false} LargestBytes(v: Serving, buf: seq<Cell>)
    requires v.mid < v.hi && |buf| == ROLES && forall r | 0 <= r < ROLES :: buf[r] == Data(Largest(v))
    ensures SlotBytes(buf, |buf|, v.size) == LayerBytes(Largest(v), v.size)
  {
    FilledBytes(buf, Largest(v), ROLES, v.size);
  }

  /** All slots at their peak: the pinned layer takes the consumer out of the ring. */
  lemma {:induction false} PinnedPeak(v: Serving) returns (s: State)
    requires v.n > 1 && v.lo < v.mid && v.mid + 1 < v.hi
    ensures Reach(v, Start(v), s) && RingBytes(s.slots, v.size) >= Peak(v)
  {
    hide Reach, RingBytes, Peak, RolesPeak, Best;
    var top := Best(v, ROLES - 1);
    var w := SpoilAll(v, top);
    LoadPinned(v, w);
    var u := w.(active := Pinned(v.lo), current := -1);
    StoredAll(w.slots[0].buf, v);
    StoredSame(w.slots[0].buf, top);
    s := SpoilFirst(v, u, ROLES - 1);
    ReachTrans(v, Start(v), w, u);
    ReachTrans(v, Start(v), u, s);
    var m := RolesPeak(v, ROLES);
    forall i | 0 <= i < |s.slots|
      ensures SlotBytes(s.slots[i].buf, |s.slots[i].buf|, v.size) >= m
    {
      assert Spoiled(v, s.slots[i], 0);
      MixBytes(v, s.slots[i].buf, ROLES);
    }
    RingAtLeast(v, s.slots, -1, m, m);
    PeakIs(v);
  }

  lemma {:induction false} LoneBytes(v: Serving, buf: seq<Cell>, k: nat)
    requires Lone(v) && k <= |buf| && forall r | 0 <= r < k :: buf[r] == Data(v.mid)
    ensures SlotBytes(buf, k, v.size) == RolesPeak(v, k)
  {
    if k > 0 {
      LoneBytes(v, buf, k - 1);
    }
  }

  /** The one streamed layer is loaded and, as the policy has no other, prefetched. */
  lemma {:induction false} LonePeak(v: Serving) returns (s: State)
    requires v.n > 1 && v.lo <= v.mid && Lone(v)
    ensures Reach(v, Start(v), s) && RingBytes(s.slots, v.size) >= Peak(v)
  {
    hide Reach, RingBytes, RolesPeak;
    var w := LoadFirst(v, v.mid);
    s := Prefetch(v, w, 0, v.mid, ROLES);
    ReachTrans(v, Start(v), w, s);
    forall i | 0 <= i < |s.slots| && i < 2
      ensures SlotBytes(s.slots[i].buf, |s.slots[i].buf|, v.size) >= RolesPeak(v, ROLES)
    {
      LoneBytes(v, s.slots[i].buf, ROLES);
    }
    TwoAtLeast(v, s.slots, RolesPeak(v, ROLES));
  }

  /** The peak is reached by a run. */
  lemma {:induction false} PeakIsReached(v: Serving) returns (acts: seq<Action>)
    requires v.n > 1 && v.lo <= v.mid
    ensures CanRun(Start(v), acts) && AllServe(v, acts) && RingBytes(RunTo(Start(v), acts).slots, v.size) == Peak(v)
  {
    hide RingBytes, Peak, RunTo, CanRun, AllServe;
    if v.mid >= v.hi {
      acts := [];
      EmptyRun(v);
      NeverAbovePeak(v, acts);
    } else {
      var s;
      if Lone(v) {
        s := LonePeak(v);
      } else if v.lo < v.mid {
        s := PinnedPeak(v);
      } else {
        s := UnpinnedPeak(v);
      }
      acts :| CanRun(Start(v), acts) && AllServe(v, acts) && RunTo(Start(v), acts) == s;
      NeverAbovePeak(v, acts);
    }
  }

  lemma {:induction false} EmptyRun(v: Serving)
    ensures CanRun(Start(v), []) && AllServe(v, []) && RunTo(Start(v), []) == Start(v)
    ensures v.mid >= v.hi ==> Peak(v) == 0 <= RingBytes(Start(v).slots, v.size)
  {
  }

  // ---- the ceiling ---------------------------------------------------------------

  /** In every reachable state the asynchronous loader stays within the budget. */
  ghost predicate AsyncBounded(v: Serving, globals: nat, pinnedBytes: nat, budget: nat) {
    forall acts | CanRun(Start(v), acts) && AllServe(v, acts) :: Resident(v, acts, globals, pinnedBytes) <= budget
  }

  lemma {:induction false} AsyncCeilingIff(v: Serving, globals: nat, pinnedBytes: nat, budget: nat)
    requires v.n > 1 && v.lo <= v.mid
    ensures AsyncBounded(v, globals, pinnedBytes, budget) <==> globals + Peak(v) + pinnedBytes <= budget
  {
    hide RingBytes, Peak, RunTo, CanRun, AllServe;
    var acts := PeakIsReached(v);
    if globals + Peak(v) + pinnedBytes <= budget {
      forall a | CanRun(Start(v), a) && AllServe(v, a)
        ensures Resident(v, a, globals, pinnedBytes) <= budget
      {
        NeverAbovePeak(v, a);
      }
    } else {
      assert Resident(v, acts, globals, pinnedBytes) > budget;
    }
  }

  // ---- without prefetch ----------------------------------------------------------

  /** One synchronous load: the read of role `failAt` throws, if there is such a role. A load that
      is still under way has the same bytes as one that has just failed. */
  datatype SyncLoad = SyncLoad(layer: int, failAt: nat, torn: bool)

  function AfterLoads(s: Slot, loads: seq<SyncLoad>): (r: Slot)
    requires |s.buf| == ROLES
    ensures |r.buf| == ROLES
    decreases |loads|
  {
    if loads == [] then s else AfterLoads(AfterSync(s, loads[0].layer, loads[0].failAt, loads[0].torn), loads[1..])
  }

  ghost predicate AllStreamed(v: Serving, loads: seq<SyncLoad>) {
    forall l | l in loads :: Streamed(v, l.layer)
  }

  function EmptySlot(): Slot { Slot(-1, Empty, 0, seq(ROLES, _ => Blank)) }

  ghost predicate SyncBounded(v: Serving, globals: nat, pinnedBytes: nat, budget: nat) {
    forall loads | AllStreamed(v, loads) ::
      globals + SlotBytes(AfterLoads(EmptySlot(), loads).buf, ROLES, v.size) + pinnedBytes <= budget
  }

  lemma {:induction false} LoadsInRange(v: Serving, s: Slot, loads: seq<SyncLoad>)
    requires BufIn(v, s.buf) && AllStreamed(v, loads)
    ensures BufIn(v, AfterLoads(s, loads).buf)
    decreases |loads|
  {
    if loads != [] {
      assert loads[0] in loads;
      LoadsInRange(v, AfterSync(s, loads[0].layer, loads[0].failAt, loads[0].torn), loads[1..]);
    }
  }

  /** Failing loads bring the one slot from role `r` down to its peak. */
  lemma {:induction false} SyncSpoil(v: Serving, s: Slot, r: nat) returns (loads: seq<SyncLoad>)
    requires v.mid < v.hi && r < ROLES && |s.buf| == ROLES && s.buf == Mix(v, r) && (s.layer == -1 || s.layer == Best(v, r))
    ensures AllStreamed(v, loads) && AfterLoads(s, loads).buf == Mix(v, 0)
    decreases r
  {
    hide Mix, Same, Best;
    if r == 0 {
      return [];
    }
    MixMore(v, r);
    var l := SyncLoad(Best(v, r - 1), r, false);
    var t := AfterSync(s, l.layer, l.failAt, l.torn);
    if Best(v, r - 1) == Best(v, r) {
      loads := SyncSpoil(v, s, r - 1);
    } else {
      var rest := SyncSpoil(v, t, r - 1);
      loads := [l] + rest;
      assert loads[1..] == rest;
    }
  }

  /** The one slot of the synchronous loader reaches every role's largest layer, and no more. */
  lemma {:induction false} SyncCeilingIff(v: Serving, globals: nat, pinnedBytes: nat, budget: nat)
    requires v.mid < v.hi
    ensures SyncBounded(v, globals, pinnedBytes, budget) <==> globals + RolesPeak(v, ROLES) + pinnedBytes <= budget
  {
    hide SlotBytes, RolesPeak, Best, Same;
    var top := SyncLoad(Best(v, ROLES - 1), ROLES, false);
    StoredAll(EmptySlot().buf, v);
    var t := AfterSync(EmptySlot(), top.layer, top.failAt, top.torn);
    var rest := SyncSpoil(v, t, ROLES - 1);
    var loads := [top] + rest;
    assert loads[1..] == rest;
    MixBytes(v, AfterLoads(EmptySlot(), loads).buf, ROLES);
    assert AllStreamed(v, loads);
    forall l | AllStreamed(v, l)
      ensures SlotBytes(AfterLoads(EmptySlot(), l).buf, ROLES, v.size) <= RolesPeak(v, ROLES)
    {
      LoadsInRange(v, EmptySlot(), l);
      SlotInRange(v, AfterLoads(EmptySlot(), l).buf, ROLES);
    }
  }

  /** With every layer pinned the one slot stays empty. */
  lemma {:induction false} SyncNothingStreamed(v: Serving, globals: nat, pinnedBytes: nat, budget: nat)
    requires v.mid >= v.hi
    ensures SyncBounded(v, globals, pinnedBytes, budget) <==> globals + pinnedBytes <= budget
  {
    var none: seq<SyncLoad> := [];
    BlankSlot(EmptySlot().buf, ROLES, v.size);
    assert AllStreamed(v, none) && AfterLoads(EmptySlot(), none) == EmptySlot();
    forall loads: seq<SyncLoad> | loads != none
      ensures !AllStreamed(v, loads)
    {
      assert loads[0] in loads && !Streamed(v, loads[0].layer);
    }
  }

  // ---- any depth -----------------------------------------------------------------

  /** In every reachable state the loader stays within the budget, however deep its ring is. */
  ghost predicate Bounded(v: Serving, globals: nat, pinnedBytes: nat, budget: nat) {
    if v.n == 1 then SyncBounded(v, globals, pinnedBytes, budget) else AsyncBounded(v, globals, pinnedBytes, budget)
  }

  /** The ceiling holds exactly when the budget has room for the peak. */
  lemma {:induction false} CeilingIff(v: Serving, globals: nat, pinnedBytes: nat, budget: nat)
    requires v.n > 0 && v.lo <= v.mid
    ensures Bounded(v, globals, pinnedBytes, budget) <==> globals + Peak(v) + pinnedBytes <= budget
  {
    hide RolesPeak, SyncBounded, AsyncBounded;
    if v.n > 1 {
      AsyncCeilingIff(v, globals, pinnedBytes, budget);
    } else if v.mid < v.hi {
      SyncCeilingIff(v, globals, pinnedBytes, budget);
    } else {
      SyncNothingStreamed(v, globals, pinnedBytes, budget);
    }
  }

  // ---- what the planner leaves behind --------------------------------------------

  /** Every streamed block has the same shape. */
  ghost predicate Uniform(v: Serving) {
    forall l: int, r: nat | Streamed(v, l) :: v.size(l, r) == v.size(v.mid, r)
  }

  lemma {:induction false} UniformRoles(v: Serving, k: nat)
    requires v.mid < v.hi && Uniform(v)
    ensures RolesPeak(v, k) == RoleBytes(v.mid, 0, k, v.size) == RoleBytes(Largest(v), 0, k, v.size)
  {
    hide Largest, Best;
    if k > 0 {
      UniformRoles(v, k - 1);
    }
  }

  /** The slots a run can ever fill. */
  function Usable(v: Serving): nat {
    if Lone(v) && v.n > 1 then 2 else v.n
  }

  lemma {:induction false} PeakOfOne(v: Serving, m: nat)
    requires v.n > 0 && v.mid < v.hi && RolesPeak(v, ROLES) == m == LayerBytes(Largest(v), v.size)
    ensures Peak(v) == Usable(v) * m
  {
    hide RolesPeak, LayerBytes, Largest;
    assert v.n * m == (v.n - 1) * m + m;
  }

  /** A uniform stack never overshoots. */
  lemma {:induction false} UniformPeak(v: Serving)
    requires v.n > 0 && v.mid < v.hi && Uniform(v)
    ensures RolesPeak(v, ROLES) == LayerBytes(v.mid, v.size) && Peak(v) == Usable(v) * LayerBytes(v.mid, v.size)
  {
    UniformRoles(v, ROLES);
    PeakOfOne(v, LayerBytes(v.mid, v.size));
  }

  lemma {:induction false} WithinTimes(n: nat, m: nat, b: nat, perLayer: nat)
    requires n > 0 && b <= m <= perLayer
    ensures (n - 1) * m + b <= (n - 1) * m + m <= n * perLayer
  {
    assert n * perLayer == (n - 1) * perLayer + perLayer;
    MulMonotone(m, perLayer, n - 1);
    assert (n - 1) * m == m * (n - 1) && (n - 1) * perLayer == perLayer * (n - 1);
  }

  lemma {:induction false} TwiceWithin(n: nat, m: nat, perLayer: nat)
    requires n > 1 && m <= perLayer
    ensures m + m <= n * perLayer
  {
    assert n * perLayer == (n - 2) * perLayer + perLayer + perLayer;
  }

  lemma {:induction false} LargestWithin(v: Serving, l: int, k: nat)
    requires v.mid < v.hi && Streamed(v, l)
    ensures RoleBytes(l, 0, k, v.size) <= RolesPeak(v, k)
  {
    if k > 0 {
      LargestWithin(v, l, k - 1);
    }
  }
  lemma {:induction false} LargestIsWithin(v: Serving)
    requires v.mid < v.hi
    ensures LayerBytes(Largest(v), v.size) <= RolesPeak(v, ROLES)
  {
    LargestWithin(v, Largest(v), ROLES);
  }

  /** If no mixture of layers outgrows the largest one, room for the ring is enough. */
  lemma {:induction false} PeakAtMost(v: Serving, perLayer: nat)
    requires v.n > 0 && v.mid < v.hi && RolesPeak(v, ROLES) <= perLayer
    ensures Peak(v) <= v.n * perLayer
  {
    hide RolesPeak, Largest, LayerBytes;
    LargestIsWithin(v);
    var m := RolesPeak(v, ROLES);
    if v.n == 1 {
    } else if Lone(v) {
      TwiceWithin(v.n, m, perLayer);
    } else if v.lo < v.mid {
      WithinTimes(v.n, m, m, perLayer);
    } else {
      WithinTimes(v.n, m, LayerBytes(Largest(v), v.size), perLayer);
    }
  }

  /** Plans with the layers' exact sizes and serves what is left: the budget then holds in
      every reachable state exactly when it has room for the peak. It has, as soon as one
      layer is pinned and no mixture of streamed layers outgrows the largest layer, as in a
      uniform stack. */
  method PlanAndServe(budget: nat, globals: nat, nBuffers: nat, lo: nat, first: nat, end: nat,
                      size: (int, nat) -> nat, placed: nat)
    returns (n: nat, bytes: nat, ghost perLayer: nat, ghost v: Serving)
    requires nBuffers > 0 && lo <= first <= end
    ensures n <= end - first && v == Serving(nBuffers, lo, first + n, end, size)
    ensures bytes == placed + SumLayers((l: int) => LayerBytes(l, size), first, first + n)
    ensures IsMax((l: int) => LayerBytes(l, size), first, end, perLayer)
    ensures n == if perLayer == 0 then 0 else Target(budget, globals, placed, nBuffers, end - first, perLayer)
    ensures Bounded(v, globals, bytes, budget) <==> globals + Peak(v) + bytes <= budget
    ensures n > 0 && (n == end - first || RolesPeak(v, ROLES) <= perLayer) ==> Bounded(v, globals, bytes, budget)
    ensures n > 0 && Uniform(v) ==> Bounded(v, globals, bytes, budget)
    ensures n == 0 && first < end && Uniform(v) ==>
              (Bounded(v, globals, bytes, budget) <==> globals + placed + Usable(v) * perLayer <= budget)
  {
    hide Peak, RolesPeak, Bounded, LayerBytes, Uniform;
    var est := (l: int) => LayerBytes(l, size);
    n, bytes, perLayer := PlanAndPin(budget, globals, nBuffers, first, end, est, est, placed);
    v := Serving(nBuffers, lo, first + n, end, size);
    CeilingIff(v, globals, bytes, budget);
    if n == end - first {
      NoPeak(v);
    } else {
      if Uniform(v) {
        UniformPeak(v);
        assert est(first + n) <= perLayer;
      }
      if RolesPeak(v, ROLES) <= perLayer {
        PeakAtMost(v, perLayer);
      }
    }
    if n == 0 && first < end && Uniform(v) {
      UniformLayers(v, est, perLayer);
    }
  }

  lemma {:induction false} NoPeak(v: Serving)
    requires v.mid >= v.hi
    ensures Peak(v) == 0
  {
  }

  lemma {:induction false} UniformLayers(v: Serving, est: int -> nat, perLayer: nat)
    requires v.mid < v.hi && Uniform(v) && IsMax(est, v.mid, v.hi, perLayer)
    requires forall l: int :: est(l) == LayerBytes(l, v.size)
    ensures perLayer == LayerBytes(v.mid, v.size)
  {
    forall l | v.mid <= l < v.hi
      ensures est(l) == LayerBytes(v.mid, v.size)
    {
      UniformSame(v, l, ROLES);
    }
    assert est(v.mid) <= perLayer;
  }

  lemma {:induction false} UniformSame(v: Serving, l: int, k: nat)
    requires v.mid < v.hi && Uniform(v) && Streamed(v, l)
    ensures RoleBytes(l, 0, k, v.size) == RoleBytes(v.mid, 0, k, v.size)
  {
    if k > 0 {
      UniformSame(v, l, k - 1);
    }
  }

  // ---- a forward pass that overshoots --------------------------------------------

  /** Layers 0 and 1 take their four bytes in one role, layer 2 in another. */
  function Lopsided(layer: int, r: nat): nat {
    if (layer == 2 && r == 0) || ((layer == 0 || layer == 1) && r == 1) then 4 else 0
  }

  const THREE: Serving := Serving(2, 0, 0, 3, Lopsided)

  /** The worker's steps for one whole layer. */
  function Fill(j: nat): seq<Action> {
    if j == 0 then [JobPop] else Fill(j - 1) + [RoleTear, RoleWrite]
  }

  /** A forward pass over three layers with two slots, the policy prefetching in order: layer 2
      begins to replace layer 0 while layer 1 is consumed. No read fails. */
  function ForwardPass(): seq<Action> {
    [LoadBegin(0)] + Fill(ROLES) + [JobFinish(true), LoadResume(1)]
    + Fill(ROLES) + [JobFinish(true), LoadBegin(1), LoadResume(2), JobPop, RoleTear, RoleWrite]
  }

  lemma {:induction false} RunFill(s: State, job: Job, j: nat)
    requires s.worker.Idle? && s.jobs == [job] && j <= ROLES
    requires job.slot < |s.slots| && |s.slots[job.slot].buf| == ROLES && s.slots[job.slot].ticket == job.ticket
    ensures CanRun(s, Fill(j))
    ensures RunTo(s, Fill(j)) == s.(jobs := [], slots := StoredSlot(s, job, j), worker := Filling(job, j, false))
  {
    if j == 0 {
      assert Stored(s.slots[job.slot].buf, job.layer, 0) == s.slots[job.slot].buf;
      assert [JobPop][1..] == [];
      assert RunTo(s, [JobPop]) == Pop(s);
    } else {
      RunFill(s, job, j - 1);
      RunPair(s, job, j);
      RunAppend(s, Fill(j - 1), [RoleTear, RoleWrite]);
    }
  }

  lemma {:induction false} RunPair(s: State, job: Job, j: nat)
    requires 0 < j <= ROLES && job.slot < |s.slots| && |s.slots[job.slot].buf| == ROLES
    ensures var t := s.(jobs := [], slots := StoredSlot(s, job, j - 1), worker := Filling(job, j - 1, false));
            CanRun(t, [RoleTear, RoleWrite])
            && RunTo(t, [RoleTear, RoleWrite]) == s.(jobs := [], slots := StoredSlot(s, job, j), worker := Filling(job, j, false))
  {
    var t := s.(jobs := [], slots := StoredSlot(s, job, j - 1), worker := Filling(job, j - 1, false));
    assert [RoleTear, RoleWrite][1..] == [RoleWrite] && [RoleWrite][1..] == [];
    assert CanRun(Tear(t), [RoleWrite]) && RunTo(Tear(t), [RoleWrite]) == Write(Tear(t));
    assert Stored(s.slots[job.slot].buf, job.layer, j - 1)[j - 1 := Torn(job.layer)][j - 1 := Data(job.layer)]
        == Stored(s.slots[job.slot].buf, job.layer, j);
    assert Write(Tear(t)).slots == StoredSlot(s, job, j);
  }

  ghost predicate Leads(s: State, acts: seq<Action>, t: State) { CanRun(s, acts) && RunTo(s, acts) == t }

  lemma {:induction false} LeadsOn(s: State, acts: seq<Action>, t: State, a: Action)
    requires Leads(s, acts, t) && Enabled(t, a)
    ensures Leads(s, acts + [a], Apply(t, a))
  {
    assert [a][1..] == [];
    assert RunTo(t, [a]) == Apply(t, a);
    RunAppend(s, acts, [a]);
  }

  /** A whole fill, then its end. */
  lemma {:induction false} LeadsFill(s: State, acts: seq<Action>, t: State, job: Job)
    requires Leads(s, acts, t) && t.worker.Idle? && t.jobs == [job]
    requires job.slot < |t.slots| && |t.slots[job.slot].buf| == ROLES && t.slots[job.slot].ticket == job.ticket
    ensures Leads(s, acts + Fill(ROLES) + [JobFinish(true)], t.(jobs := [], slots := t.slots[job.slot := Left(t.slots[job.slot], job.layer, ROLES)]))
  {
    hide Fill, Stored;
    RunFill(t, job, ROLES);
    RunAppend(s, acts, Fill(ROLES));
    var u := t.(jobs := [], slots := StoredSlot(t, job, ROLES), worker := Filling(job, ROLES, false));
    LeadsOn(s, acts + Fill(ROLES), u, JobFinish(true));
    assert Finish(u, true) == t.(jobs := [], slots := t.slots[job.slot := Left(t.slots[job.slot], job.layer, ROLES)]);
  }

  function AllOf(layer: int): seq<Cell> { seq(ROLES, _ => Data(layer)) }

  /** Layer 0 in slot 0, layer 1 in slot 1. */
  function BothReady(current: int, active: Active): State {
    State([Slot(0, Ready, 1, AllOf(0)), Slot(1, Ready, 1, AllOf(1))], [], current, active, {}, Idle, Running)
  }

  lemma {:induction false} FirstLoad()
    ensures Leads(Start(THREE), [LoadBegin(0)] + Fill(ROLES) + [JobFinish(true), LoadResume(1)],
                  State([Slot(0, Ready, 1, AllOf(0)), Slot(1, Loading, 1, seq(ROLES, _ => Blank))], [Job(1, 1, 1)], 0, Ring(0, 0), {}, Idle, Running))
  {
    hide Leads, Fill;
    var s := Start(THREE);
    var blank := seq(ROLES, _ => Blank);
    assert s.slots == [Slot(-1, Empty, 0, blank), Slot(-1, Empty, 0, blank)] && s.pinned == {};
    StartLeads(s);
    LeadsOn(s, [], s, LoadBegin(0));
    HeldAt(s.slots, 0, 2);
    var t := Begin(s, 0);
    assert t == State([Slot(0, Loading, 1, blank), Slot(-1, Empty, 0, blank)], [Job(0, 0, 1)], -1, Nothing, {}, Idle, Waiting(0, 0, 1));
    assert [] + [LoadBegin(0)] == [LoadBegin(0)];
    LeadsFill(s, [LoadBegin(0)], t, Job(0, 0, 1));
    assert Stored(blank, 0, ROLES) == AllOf(0);
    var u := t.(jobs := [], slots := [Slot(0, Ready, 1, AllOf(0)), Slot(-1, Empty, 0, blank)]);
    assert t.(jobs := [], slots := t.slots[0 := Left(t.slots[0], 0, ROLES)]) == u;
    var acts := [LoadBegin(0)] + Fill(ROLES) + [JobFinish(true)];
    LeadsOn(s, acts, u, LoadResume(1));
    assert Resume(u, 1) == State([Slot(0, Ready, 1, AllOf(0)), Slot(1, Loading, 1, blank)], [Job(1, 1, 1)], 0, Ring(0, 0), {}, Idle, Running);
    assert acts + [LoadResume(1)] == [LoadBegin(0)] + Fill(ROLES) + [JobFinish(true), LoadResume(1)];
  }

  lemma {:induction false} StartLeads(s: State)
    ensures Leads(s, [], s)
  {
  }

  /** Half-way through the refill of slot 0. */
  function Overshot(): State {
    State([Slot(2, Loading, 2, [Data(2)] + AllOf(0)[1..]), Slot(1, Ready, 1, AllOf(1))], [], 1, Ring(1, 1), {},
          Filling(Job(0, 2, 2), 1, false), Running)
  }

  lemma {:induction false} SecondLoad(s: State, acts: seq<Action>, t: State)
    requires Leads(s, acts, t)
    requires t == State([Slot(0, Ready, 1, AllOf(0)), Slot(1, Loading, 1, seq(ROLES, _ => Blank))], [Job(1, 1, 1)], 0, Ring(0, 0), {}, Idle, Running)
    ensures Leads(s, acts + Fill(ROLES) + [JobFinish(true), LoadBegin(1), LoadResume(2), JobPop, RoleTear, RoleWrite], Overshot())
  {
    hide Leads, Fill;
    LeadsFill(s, acts, t, Job(1, 1, 1));
    assert Stored(t.slots[1].buf, 1, ROLES) == AllOf(1);
    var u := BothReady(0, Ring(0, 0));
    assert t.(jobs := [], slots := t.slots[1 := Left(t.slots[1], 1, ROLES)]).slots == u.slots;
    assert t.(jobs := [], slots := t.slots[1 := Left(t.slots[1], 1, ROLES)]) == u;
    var a := acts + Fill(ROLES) + [JobFinish(true)];
    HeldAt(u.slots, 1, 1);
    LeadsOn(s, a, u, LoadBegin(1));
    var u1 := u.(caller := Waiting(1, 1, 1));
    LeadsOn(s, a + [LoadBegin(1)], u1, LoadResume(2));
    Refill(s, a + [LoadBegin(1)] + [LoadResume(2)], Resume(u1, 2));
    assert a + [LoadBegin(1)] + [LoadResume(2)] + [JobPop] + [RoleTear] + [RoleWrite]
        == acts + Fill(ROLES) + [JobFinish(true), LoadBegin(1), LoadResume(2), JobPop, RoleTear, RoleWrite];
  }

  lemma {:induction false} Refill(s: State, acts: seq<Action>, t: State)
    requires Leads(s, acts, t)
    requires t == State([Slot(2, Loading, 2, AllOf(0)), Slot(1, Ready, 1, AllOf(1))], [Job(0, 2, 2)], 1, Ring(1, 1), {}, Idle, Running)
    ensures Leads(s, acts + [JobPop] + [RoleTear] + [RoleWrite], Overshot())
  {
    hide Leads;
    LeadsOn(s, acts, t, JobPop);
    var u := Pop(t);
    LeadsOn(s, acts + [JobPop], u, RoleTear);
    LeadsOn(s, acts + [JobPop] + [RoleTear], Tear(u), RoleWrite);
    assert AllOf(0)[0 := Torn(2)][0 := Data(2)] == [Data(2)] + AllOf(0)[1..];
    assert Write(Tear(u)).slots == Overshot().slots;
  }

  lemma {:induction false} LopsidedFrom(layer: int, j: nat, k: nat)
    requires 2 <= j <= k
    ensures RoleBytes(layer, j, k, Lopsided) == 0
    decreases k
  {
    if j < k {
      LopsidedFrom(layer, j, k - 1);
    }
  }

  lemma {:induction false} LopsidedBytes(layer: int, j: nat, k: nat)
    requires j <= 2 <= k
    ensures RoleBytes(layer, j, k, Lopsided)
         == (if j == 0 then Lopsided(layer, 0) else 0) + if j <= 1 then Lopsided(layer, 1) else 0
  {
    LopsidedFrom(layer, 2, k);
    RoleBytesSplit(layer, j, 2, k, Lopsided);
    if j < 2 {
      assert RoleBytes(layer, j, 2, Lopsided) == RoleBytes(layer, j, 1, Lopsided) + Lopsided(layer, 1);
    }
  }

  /** Room for the largest layer per slot is not enough when layers peak in different roles:
      every layer takes four bytes, the two slots are budgeted eight, and a plain forward pass
      holds twelve in the middle of a refill. */
  lemma {:induction false} RefillOvershoots(globals: nat)
    ensures CanRun(Start(THREE), ForwardPass()) && AllServe(THREE, ForwardPass())
    ensures forall l | 0 <= l < 3 :: LayerBytes(l, Lopsided) == 4
    ensures Resident(THREE, ForwardPass(), globals, 0) == globals + 12 > globals + THREE.n * 4
    ensures !Bounded(THREE, globals, 0, globals + THREE.n * 4)
  {
    PassServes();
    hide Fill, AllServe;
    FirstLoad();
    var acts := [LoadBegin(0)] + Fill(ROLES) + [JobFinish(true), LoadResume(1)];
    SecondLoad(Start(THREE), acts, RunTo(Start(THREE), acts));
    assert ForwardPass() == acts + Fill(ROLES) + [JobFinish(true), LoadBegin(1), LoadResume(2), JobPop, RoleTear, RoleWrite];
    OvershotBytes();
    forall l | 0 <= l < 3
      ensures LayerBytes(l, Lopsided) == 4
    {
      LopsidedBytes(l, 0, ROLES);
    }
  }

  lemma {:induction false} FillServes(j: nat)
    ensures AllServe(THREE, Fill(j))
  {
    if j > 0 {
      FillServes(j - 1);
    }
  }

  lemma {:induction false} ServesAppend(a: seq<Action>, b: seq<Action>)
    requires AllServe(THREE, a) && AllServe(THREE, b)
    ensures AllServe(THREE, a + b)
  {
  }

  lemma {:induction false} PassServes()
    ensures AllServe(THREE, ForwardPass())
  {
    FillServes(ROLES);
    var mid, end := [JobFinish(true), LoadResume(1)], [JobFinish(true), LoadBegin(1), LoadResume(2), JobPop, RoleTear, RoleWrite];
    assert AllServe(THREE, [LoadBegin(0)]) && AllServe(THREE, mid) && AllServe(THREE, end);
    hide AllServe, Fill;
    ServesAppend([LoadBegin(0)], Fill(ROLES));
    ServesAppend([LoadBegin(0)] + Fill(ROLES), mid);
    ServesAppend([LoadBegin(0)] + Fill(ROLES) + mid, Fill(ROLES));
    ServesAppend([LoadBegin(0)] + Fill(ROLES) + mid + Fill(ROLES), end);
  }

  lemma {:induction false} OvershotBytes()
    ensures RingBytes(Overshot().slots, Lopsided) == 12
  {
    hide RingBytes, SlotBytes;
    MixedSlot();
    WholeSlot();
    TwoSlots(Overshot().slots[0], Overshot().slots[1]);
  }

  lemma {:induction false} MixedSlot()
    ensures SlotBytes(Overshot().slots[0].buf, ROLES, Lopsided) == 8
  {
    var a := Overshot().slots[0].buf;
    assert forall r: nat | r < ROLES :: a[r] == Data(if r < 1 then 2 else 0);
    RefillBytes(a, 0, 2, 1, ROLES, Lopsided);
    LopsidedBytes(0, 1, ROLES);
    assert RoleBytes(2, 0, 1, Lopsided) == RoleBytes(2, 0, 0, Lopsided) + 4;
  }

  lemma {:induction false} WholeSlot()
    ensures SlotBytes(AllOf(1), ROLES, Lopsided) == 4
  {
    FilledBytes(AllOf(1), 1, ROLES, Lopsided);
    LopsidedBytes(1, 0, ROLES);
  }

  lemma {:induction false} TwoSlots(a: Slot, b: Slot)
    ensures RingBytes([a, b], Lopsided) == SlotBytes(a.buf, |a.buf|, Lopsided) + SlotBytes(b.buf, |b.buf|, Lopsided)
  {
    hide SlotBytes;
    assert [a, b][..1] == [a] && [a][..0] == [];
    assert RingBytes([a], Lopsided) == RingBytes([], Lopsided) + SlotBytes(a.buf, |a.buf|, Lopsided);
  }
}
