/** The layer loader's asynchronous ring as a transition system: one caller thread, one worker
    thread, a job queue and the slots they share. A step is one critical section of the mutex,
    or one unlocked store of the worker into a slot's buffers; between any two steps of one
    thread the other may take any number of its own. */
module Loading {

  /** Per-block weight roles; each has its own buffer in a slot. */
  const ROLES: nat := 28

  /** One role's buffer: `Torn` while it is resized and overwritten for a layer. */
  datatype Cell = Blank | Torn(layer: int) | Data(layer: int)

  datatype Mark = Empty | Loading | Ready | Failed

  datatype Slot = Slot(layer: int, mark: Mark, ticket: nat, buf: seq<Cell>)

  datatype Job = Job(slot: nat, layer: int, ticket: nat)

  /** The worker waits for jobs, or is somewhere inside fill_slot. */
  datatype Worker = Idle | Filling(job: Job, role: nat, torn: bool)

  /** The caller runs on the active block, or waits inside loadLayer. */
  datatype Caller = Running | Waiting(slot: nat, layer: int, ticket: nat)

  /** Where getWeight reads: a pinned layer or a ring slot. */
  datatype Active = Nothing | Pinned(layer: int) | Ring(slot: nat, layer: int)

  datatype State = State(slots: seq<Slot>, jobs: seq<Job>, current: int, active: Active,
                         pinned: set<int>, worker: Worker, caller: Caller)

  /** The slot's buffers are exactly the weights of `layer`. */
  predicate Filled(s: Slot, layer: int) {
    |s.buf| == ROLES && forall r | 0 <= r < ROLES :: s.buf[r] == Data(layer)
  }

  /** A claim on its way: the slot is being filled or ready for this layer. */
  predicate Held(s: Slot, layer: int) {
    s.layer == layer && (s.mark == Ready || s.mark == Loading)
  }

  /** First slot held for `layer`, or the number of slots. */
  function FirstHeld(slots: seq<Slot>, layer: int): (i: nat)
    ensures i <= |slots| && (i < |slots| ==> Held(slots[i], layer))
    ensures forall k | 0 <= k < i :: !Held(slots[k], layer)
  {
    if slots == [] then 0
    else
      var last := |slots| - 1;
      var i := FirstHeld(slots[..last], layer);
      if i < last then i else if Held(slots[last], layer) then last else |slots|
  }

  function OtherSlot(n: nat, s: nat): (r: nat)
    requires n > 0
    ensures r < n && (n > 1 && s < n ==> r != s)
  {
    assert s + 1 < n ==> (s + 1) % n == s + 1;
    (s + 1) % n
  }

  // ---- the steps -----------------------------------------------------------------

  function Claim(s: State, slot: nat, layer: int, front: bool): State
    requires slot < |s.slots|
  {
    var old_ := s.slots[slot];
    var t := old_.ticket + 1;
    var job := Job(slot, layer, t);
    s.(slots := s.slots[slot := Slot(layer, Loading, t, old_.buf)],
       jobs := if front then [job] + s.jobs else s.jobs + [job])
  }

  function Enqueue(s: State, slot: nat, layer: int): State
    requires slot < |s.slots|
  {
    if Held(s.slots[slot], layer) then s else Claim(s, slot, layer, false)
  }

  /** The slot a layer that is nowhere in the ring will be loaded into; with two slots or
      more it is never the one being consumed. */
  function Victim(s: State): (v: nat)
    requires |s.slots| > 1 && s.current < |s.slots|
    ensures v < |s.slots| && v != s.current
  {
    if s.current >= 0 then OtherSlot(|s.slots|, s.current) else 0
  }

  function WaitOn(s: State, slot: nat, layer: int): State
    requires slot < |s.slots|
  {
    s.(caller := Waiting(slot, layer, s.slots[slot].ticket))
  }

  /** loadLayer up to its wait. */
  function Begin(s: State, layer: int): State
    requires |s.slots| > 1 && s.current < |s.slots|
  {
    if layer in s.pinned then s.(active := Pinned(layer), current := -1)
    else
      var i := FirstHeld(s.slots, layer);
      if i < |s.slots| then WaitOn(s, i, layer)
      else WaitOn(Claim(s, Victim(s), layer, true), Victim(s), layer)
  }

  predicate Released(s: State) {
    && s.caller.Waiting? && s.caller.slot < |s.slots|
    && s.slots[s.caller.slot].ticket == s.caller.ticket
    && (s.slots[s.caller.slot].mark == Ready || s.slots[s.caller.slot].mark == Failed)
  }

  /** loadLayer after its wait; `next` is what the prefetch policy answers, -1 for nothing. */
  function Resume(s: State, next: int): State
    requires Released(s) && |s.slots| > 1
  {
    var c := s.caller;
    var slot := s.slots[c.slot];
    if slot.mark == Failed then
      s.(slots := s.slots[c.slot := slot.(mark := Empty, layer := -1)], caller := Running)
    else
      var s' := s.(current := c.slot, active := Ring(c.slot, c.layer), caller := Running);
      var nb := OtherSlot(|s.slots|, c.slot);
      if next >= 0 && s.slots[nb].layer != next then Enqueue(s', nb, next) else s'
  }

  /** The worker takes the oldest job, or drops it if its slot has been claimed since. */
  function Pop(s: State): State
    requires s.worker.Idle? && s.jobs != [] && s.jobs[0].slot < |s.slots|
  {
    var job := s.jobs[0];
    s.(jobs := s.jobs[1..],
       worker := if s.slots[job.slot].ticket == job.ticket then Filling(job, 0, false) else Idle)
  }

  predicate CanTear(s: State) {
    && s.worker.Filling? && !s.worker.torn && s.worker.role < ROLES
    && s.worker.job.slot < |s.slots| && |s.slots[s.worker.job.slot].buf| == ROLES
  }

  predicate CanWrite(s: State) {
    && s.worker.Filling? && s.worker.torn && s.worker.role < ROLES
    && s.worker.job.slot < |s.slots| && |s.slots[s.worker.job.slot].buf| == ROLES
  }

  function Store(s: State, c: Cell): seq<Slot>
    requires s.worker.Filling? && s.worker.role < ROLES
    requires s.worker.job.slot < |s.slots| && |s.slots[s.worker.job.slot].buf| == ROLES
  {
    var slot := s.slots[s.worker.job.slot];
    s.slots[s.worker.job.slot := slot.(buf := slot.buf[s.worker.role := c])]
  }

  /** The worker resizes a role's buffer and starts to overwrite it. */
  function Tear(s: State): State
    requires CanTear(s)
  {
    s.(slots := Store(s, Torn(s.worker.job.layer)), worker := s.worker.(torn := true))
  }

  /** The role's data is complete. */
  function Write(s: State): State
    requires CanWrite(s)
  {
    s.(slots := Store(s, Data(s.worker.job.layer)), worker := Filling(s.worker.job, s.worker.role + 1, false))
  }

  /** The fill is over: every role is stored, or a read error ended it anywhere before that;
      only the current owner of the slot may mark it. */
  predicate CanFinish(s: State, ok: bool) {
    && s.worker.Filling? && s.worker.job.slot < |s.slots|
    && (ok <==> s.worker.role == ROLES && !s.worker.torn)
  }

  function Finish(s: State, ok: bool): State
    requires CanFinish(s, ok)
  {
    var job := s.worker.job;
    var slot := s.slots[job.slot];
    s.(slots := if slot.ticket == job.ticket then s.slots[job.slot := slot.(mark := if ok then Ready else Failed)] else s.slots,
       worker := Idle)
  }

  /** A buffer once the first `j` roles of `layer` are stored over it. */
  function Stored(buf: seq<Cell>, layer: int, j: nat): seq<Cell> {
    seq(|buf|, r requires 0 <= r < |buf| => if r < j then Data(layer) else buf[r])
  }

  /** A synchronous load into the one slot. The label goes first and returns last, so a read
      that throws, at role `failAt`, leaves no false hit; `torn` if that role was resized already. */
  function AfterSync(s: Slot, layer: int, failAt: nat, torn: bool): (r: Slot)
    requires |s.buf| == ROLES
    ensures |r.buf| == ROLES
  {
    if s.layer == layer then s
    else if failAt >= ROLES then s.(layer := layer, mark := Ready, buf := Stored(s.buf, layer, ROLES))
    else
      var buf := Stored(s.buf, layer, failAt);
      s.(layer := -1, buf := if torn then buf[failAt := Torn(layer)] else buf)
  }

  // ---- the invariant -------------------------------------------------------------

  /** The job a loading slot waits for. */
  function JobOf(s: State, i: nat): Job
    requires i < |s.slots|
  {
    Job(i, s.slots[i].layer, s.slots[i].ticket)
  }

  /** Jobs queued or in flight. */
  function Pending(s: State): multiset<Job> {
    multiset(s.jobs) + if s.worker.Filling? then multiset{s.worker.job} else multiset{}
  }

  /** A job is stale, or the one job of a loading slot. */
  predicate JobOk(s: State, j: Job) {
    && j.slot < |s.slots| && j.ticket <= s.slots[j.slot].ticket
    && (j.ticket == s.slots[j.slot].ticket ==> s.slots[j.slot].mark == Loading && j == JobOf(s, j.slot))
  }

  predicate SlotOk(s: State, i: nat)
    requires i < |s.slots|
  {
    && |s.slots[i].buf| == ROLES
    && (s.slots[i].mark == Loading ==> Pending(s)[JobOf(s, i)] == 1)
    && (s.slots[i].mark == Ready ==> Filled(s.slots[i], s.slots[i].layer))
  }

  predicate WorkerOk(s: State) {
    s.worker.Filling? ==>
      var w := s.worker;
      && w.job.slot < |s.slots| && s.slots[w.job.slot].mark == Loading && w.role <= ROLES
      && |s.slots[w.job.slot].buf| == ROLES && (w.torn ==> w.role < ROLES)
      && forall r | 0 <= r < w.role :: s.slots[w.job.slot].buf[r] == Data(w.job.layer)
  }

  predicate CallerOk(s: State) {
    && -1 <= s.current < |s.slots| && (s.current >= 0 ==> s.slots[s.current].mark == Ready)
    && (s.active.Ring? ==> s.active.slot == s.current && s.slots[s.current].layer == s.active.layer)
    && (s.active.Pinned? ==> s.active.layer in s.pinned)
    && (s.caller.Waiting? ==>
          && s.caller.slot < |s.slots| && s.slots[s.caller.slot].ticket == s.caller.ticket
          && s.slots[s.caller.slot].layer == s.caller.layer && s.slots[s.caller.slot].mark != Empty)
  }

  ghost predicate Inv(s: State) {
    && |s.slots| > 1
    && (forall j | j in Pending(s) :: JobOk(s, j))
    && (forall i: nat | i < |s.slots| :: SlotOk(s, i))
    && WorkerOk(s) && CallerOk(s)
  }

  // ---- every step keeps it -------------------------------------------------------

  /** Claiming a slot that is not being consumed, with no caller waiting. */
  lemma {:induction false} ClaimKeeps(s: State, slot: nat, layer: int, front: bool)
    requires Inv(s) && slot < |s.slots| && slot != s.current && s.caller.Running?
    ensures Inv(Claim(s, slot, layer, front))
  {
    var s' := Claim(s, slot, layer, front);
    var job := Job(slot, layer, s.slots[slot].ticket + 1);
    assert Pending(s') == Pending(s) + multiset{job};
    forall j | j in Pending(s')
      ensures JobOk(s', j)
    {
      if j != job {
        assert j in Pending(s) && JobOk(s, j);
      }
    }
    forall i: nat | i < |s'.slots|
      ensures SlotOk(s', i)
    {
      assert SlotOk(s, i);
      assert job in Pending(s) ==> JobOk(s, job);
      assert i != slot ==> JobOf(s', i) == JobOf(s, i) != job;
    }
  }

  lemma {:induction false} BeginKeeps(s: State, layer: int)
    requires Inv(s) && s.caller.Running?
    ensures Inv(Begin(s, layer))
  {
    var i := FirstHeld(s.slots, layer);
    if layer !in s.pinned {
      if i == |s.slots| {
        ClaimKeeps(s, Victim(s), layer, true);
        WaitKeeps(Claim(s, Victim(s), layer, true), Victim(s), layer);
      } else {
        WaitKeeps(s, i, layer);
      }
    } else {
      OnlyCallerChanged(s, Begin(s, layer));
    }
  }

  /** The caller's own fields do not matter to slots, jobs and worker. */
  lemma {:induction false} OnlyCallerChanged(s: State, s': State)
    requires Inv(s) && s'.slots == s.slots && s'.jobs == s.jobs && s'.worker == s.worker && CallerOk(s')
    ensures Inv(s')
  {
    assert Pending(s') == Pending(s);
    forall j | j in Pending(s')
      ensures JobOk(s', j)
    {
      assert JobOk(s, j);
    }
    forall i: nat | i < |s'.slots|
      ensures SlotOk(s', i)
    {
      assert SlotOk(s, i) && JobOf(s', i) == JobOf(s, i);
    }
  }

  lemma {:induction false} WaitKeeps(s: State, slot: nat, layer: int)
    requires Inv(s) && slot < |s.slots| && Held(s.slots[slot], layer)
    ensures Inv(WaitOn(s, slot, layer))
  {
    OnlyCallerChanged(s, WaitOn(s, slot, layer));
  }

  lemma {:induction false} ResumeKeeps(s: State, next: int)
    requires Inv(s) && Released(s)
    ensures Inv(Resume(s, next))
  {
    var c := s.caller;
    assert SlotOk(s, c.slot);
    if s.slots[c.slot].mark == Failed {
      FreeKeeps(s, c.slot);
    } else {
      var s1 := s.(current := c.slot, active := Ring(c.slot, c.layer), caller := Running);
      OnlyCallerChanged(s, s1);
      var nb := OtherSlot(|s.slots|, c.slot);
      if next >= 0 && s.slots[nb].layer != next && !Held(s.slots[nb], next) {
        ClaimKeeps(s1, nb, next, false);
      }
    }
  }

  /** Freeing a failed slot. */
  lemma {:induction false} FreeKeeps(s: State, slot: nat)
    requires Inv(s) && slot < |s.slots| && s.slots[slot].mark == Failed
    ensures Inv(s.(slots := s.slots[slot := s.slots[slot].(mark := Empty, layer := -1)], caller := Running))
  {
    var s' := s.(slots := s.slots[slot := s.slots[slot].(mark := Empty, layer := -1)], caller := Running);
    assert Pending(s') == Pending(s);
    forall j | j in Pending(s')
      ensures JobOk(s', j)
    {
      assert JobOk(s, j);
    }
    forall i: nat | i < |s'.slots|
      ensures SlotOk(s', i)
    {
      assert SlotOk(s, i);
      assert i != slot ==> JobOf(s', i) == JobOf(s, i);
    }
  }

  lemma {:induction false} PopKeeps(s: State)
    requires Inv(s) && s.worker.Idle? && s.jobs != []
    ensures s.jobs[0].slot < |s.slots| && Inv(Pop(s))
  {
    var job := s.jobs[0];
    assert s.jobs == [job] + s.jobs[1..];
    assert job in Pending(s) && JobOk(s, job);
    var s' := Pop(s);
    var live := s.slots[job.slot].ticket == job.ticket;
    assert Pending(s') == if live then Pending(s) else Pending(s) - multiset{job};
    forall j | j in Pending(s')
      ensures JobOk(s', j)
    {
      assert JobOk(s, j);
    }
    forall i: nat | i < |s'.slots|
      ensures SlotOk(s', i)
    {
      assert SlotOk(s, i) && JobOf(s', i) == JobOf(s, i);
      assert !live ==> JobOf(s, i) != job;
    }
    if live {
      assert SlotOk(s, job.slot);
    }
  }

  /** A store into the slot being filled. */
  lemma {:induction false} StoreKeeps(s: State, s': State, c: Cell)
    requires Inv(s) && s.worker.Filling? && s.worker.role < ROLES
    requires s.worker.job.slot < |s.slots| && |s.slots[s.worker.job.slot].buf| == ROLES
    requires s'.slots == Store(s, c) && s'.jobs == s.jobs && s'.current == s.current && s'.active == s.active
    requires s'.pinned == s.pinned && s'.caller == s.caller && s'.worker.Filling? && s'.worker.job == s.worker.job
    requires WorkerOk(s')
    ensures Inv(s')
  {
    assert Pending(s') == Pending(s);
    forall j | j in Pending(s')
      ensures JobOk(s', j)
    {
      assert JobOk(s, j);
    }
    forall i: nat | i < |s'.slots|
      ensures SlotOk(s', i)
    {
      assert SlotOk(s, i) && JobOf(s', i) == JobOf(s, i);
    }
  }

  lemma {:induction false} TearKeeps(s: State)
    requires Inv(s) && CanTear(s)
    ensures Inv(Tear(s))
  {
    StoreKeeps(s, Tear(s), Torn(s.worker.job.layer));
  }

  lemma {:induction false} WriteKeeps(s: State)
    requires Inv(s) && CanWrite(s)
    ensures Inv(Write(s))
  {
    StoreKeeps(s, Write(s), Data(s.worker.job.layer));
  }

  lemma {:induction false} FinishKeeps(s: State, ok: bool)
    requires Inv(s) && CanFinish(s, ok)
    ensures Inv(Finish(s, ok))
  {
    var s' := Finish(s, ok);
    var job := s.worker.job;
    assert Pending(s) == Pending(s') + multiset{job};
    assert job in Pending(s) && JobOk(s, job);
    assert SlotOk(s, job.slot);
    var live := s.slots[job.slot].ticket == job.ticket;
    forall j | j in Pending(s')
      ensures JobOk(s', j)
    {
      assert j in Pending(s) && JobOk(s, j);
      assert live && j.slot == job.slot && j.ticket == job.ticket ==> j == job && Pending(s)[job] == 1;
    }
    forall i: nat | i < |s'.slots|
      ensures SlotOk(s', i)
    {
      assert SlotOk(s, i);
      if !(live && i == job.slot) {
        assert JobOf(s', i) == JobOf(s, i) != job;
      }
    }
  }

  // ---- runs ----------------------------------------------------------------------

  datatype Action =
    | LoadBegin(layer: int) | LoadResume(next: int)                        // the caller
    | JobPop | RoleTear | RoleWrite | JobFinish(ok: bool)                  // the worker

  predicate Enabled(s: State, a: Action) {
    match a
    case LoadBegin(_) => s.caller.Running? && |s.slots| > 1 && s.current < |s.slots|
    case LoadResume(_) => Released(s) && |s.slots| > 1
    case JobPop => s.worker.Idle? && s.jobs != [] && s.jobs[0].slot < |s.slots|
    case RoleTear => CanTear(s)
    case RoleWrite => CanWrite(s)
    case JobFinish(ok) => CanFinish(s, ok)
  }

  function Apply(s: State, a: Action): State
    requires Enabled(s, a)
  {
    match a
    case LoadBegin(layer) => Begin(s, layer)
    case LoadResume(next) => Resume(s, next)
    case JobPop => Pop(s)
    case RoleTear => Tear(s)
    case RoleWrite => Write(s)
    case JobFinish(ok) => Finish(s, ok)
  }

  /** The actions can be taken one after the other. */
  predicate CanRun(s: State, acts: seq<Action>)
    decreases |acts|
  {
    acts == [] || (Enabled(s, acts[0]) && CanRun(Apply(s, acts[0]), acts[1..]))
  }

  function RunTo(s: State, acts: seq<Action>): State
    requires CanRun(s, acts)
    decreases |acts|
  {
    if acts == [] then s else RunTo(Apply(s, acts[0]), acts[1..])
  }

  /** A fresh ring of `n` slots. */
  function Fresh(n: nat, pinned: set<int>): State {
    State(seq(n, _ => Slot(-1, Empty, 0, seq(ROLES, _ => Blank))), [], -1, Nothing, pinned, Idle, Running)
  }

  lemma {:induction false} FreshInv(n: nat, pinned: set<int>)
    requires n > 1
    ensures Inv(Fresh(n, pinned))
  {
    var s := Fresh(n, pinned);
    assert forall i: nat | i < |s.slots| :: SlotOk(s, i);
  }

  lemma {:induction false} StepKeeps(s: State, a: Action)
    requires Inv(s) && Enabled(s, a)
    ensures Inv(Apply(s, a))
  {
    match a
    case LoadBegin(layer) => BeginKeeps(s, layer);
    case LoadResume(next) => ResumeKeeps(s, next);
    case JobPop => PopKeeps(s);
    case RoleTear => TearKeeps(s);
    case RoleWrite => WriteKeeps(s);
    case JobFinish(ok) => FinishKeeps(s, ok);
  }

  /** Every reachable state keeps the invariant, whatever the interleaving. */
  lemma {:induction false} RunKeeps(s: State, acts: seq<Action>)
    requires Inv(s) && CanRun(s, acts)
    ensures Inv(RunTo(s, acts))
    decreases |acts|
  {
    if acts != [] {
      StepKeeps(s, acts[0]);
      RunKeeps(Apply(s, acts[0]), acts[1..]);
    }
  }

  /** Safety: whenever the caller reads a ring slot, in any reachable state, the slot holds
      exactly the weights of the layer it loaded and the worker is not inside it. */
  lemma {:induction false} ActiveIsWhole(n: nat, pinned: set<int>, acts: seq<Action>)
    requires n > 1 && CanRun(Fresh(n, pinned), acts)
    ensures var s := RunTo(Fresh(n, pinned), acts);
            s.active.Ring? ==>
              && s.active.slot < |s.slots| && Filled(s.slots[s.active.slot], s.active.layer)
              && !(s.worker.Filling? && s.worker.job.slot == s.active.slot)
  {
    FreshInv(n, pinned);
    RunKeeps(Fresh(n, pinned), acts);
    var s := RunTo(Fresh(n, pinned), acts);
    if s.active.Ring? {
      assert SlotOk(s, s.active.slot);
    }
  }

  /** No step of either thread changes a slot that stays active. */
  lemma {:induction false} StepSparesActive(s: State, a: Action)
    requires Inv(s) && Enabled(s, a) && s.active.Ring? && Apply(s, a).active == s.active
    ensures s.active.slot < |s.slots| == |Apply(s, a).slots|
    ensures Apply(s, a).slots[s.active.slot] == s.slots[s.active.slot]
  {
    match a
    case LoadResume(next) => assert SlotOk(s, s.caller.slot);
    case _ =>
  }

  /** From one loadLayer until another replaces the active block, over any interleaving, the
      block's buffers are constant. */
  lemma {:induction false} RunSparesActive(s: State, acts: seq<Action>)
    requires Inv(s) && CanRun(s, acts) && s.active.Ring?
    requires forall k: nat | k <= |acts| :: CanRun(s, acts[..k]) && RunTo(s, acts[..k]).active == s.active
    ensures s.active.slot < |s.slots| == |RunTo(s, acts).slots|
    ensures RunTo(s, acts).slots[s.active.slot] == s.slots[s.active.slot]
    decreases |acts|
  {
    if acts != [] {
      var s1, rest := Apply(s, acts[0]), acts[1..];
      StepKeeps(s, acts[0]);
      assert acts[..1] == [acts[0]] && RunTo(s, acts[..1]) == s1;
      StepSparesActive(s, acts[0]);
      forall k: nat | k <= |rest|
        ensures CanRun(s1, rest[..k]) && RunTo(s1, rest[..k]).active == s1.active
      {
        assert acts[..k + 1][0] == acts[0] && acts[..k + 1][1..] == rest[..k];
        assert CanRun(s, acts[..k + 1]) && RunTo(s, acts[..k + 1]).active == s.active;
      }
      RunSparesActive(s1, rest);
    }
  }

  /** What loadLayer reports once it is released: the layer it was asked for, whole, or the
      read error of that layer, leaving no slot that could pass for a hit. */
  lemma {:induction false} LoadResult(s: State, next: int)
    requires Inv(s) && Released(s)
    ensures var s', c := Resume(s, next), s.caller;
            if s.slots[c.slot].mark == Ready
            then s'.active == Ring(c.slot, c.layer) && Filled(s'.slots[c.slot], c.layer)
            else s'.active == s.active && s'.current == s.current && forall l :: !Held(s'.slots[c.slot], l)
  {
    assert SlotOk(s, s.caller.slot);
  }

  // ---- the caller gets what it asked for -------------------------------------------

  /** The last loadLayer call, as its caller sees it: under way, returned, or thrown. */
  datatype Call = NoCall | Begun(layer: int) | Returned(layer: int) | Thrown(layer: int)

  /** A call returns at once or with its resume, and throws if its slot was marked failed. */
  function CallAfter(s: State, a: Action, call: Call): Call
    requires Enabled(s, a)
  {
    match a
    case LoadBegin(layer) => if Apply(s, a).caller.Running? then Returned(layer) else Begun(layer)
    case LoadResume(_) =>
      if !call.Begun? then call
      else if s.slots[s.caller.slot].mark == Failed then Thrown(call.layer) else Returned(call.layer)
    case _ => call
  }

  function LastCall(s: State, acts: seq<Action>, call: Call): Call
    requires CanRun(s, acts)
    decreases |acts|
  {
    if acts == [] then call else LastCall(Apply(s, acts[0]), acts[1..], CallAfter(s, acts[0], call))
  }

  /** Weights are read from the block of `layer`: the pinned one, or a slot that holds it whole. */
  predicate Serves(s: State, layer: int) {
    if layer in s.pinned then s.active == Pinned(layer)
    else s.active.Ring? && s.active.layer == layer && s.active.slot < |s.slots| && Filled(s.slots[s.active.slot], layer)
  }

  ghost predicate CallOk(s: State, call: Call) {
    match call
    case NoCall => s.caller.Running? && s.active == Nothing
    case Begun(layer) => s.caller.Waiting? && s.caller.layer == layer && layer !in s.pinned
    case Returned(layer) => s.caller.Running? && Serves(s, layer)
    case Thrown(layer) => s.caller.Running? && layer !in s.pinned
  }

  lemma {:induction false} CallStep(s: State, a: Action, call: Call)
    requires Inv(s) && Enabled(s, a) && CallOk(s, call)
    ensures CallOk(Apply(s, a), CallAfter(s, a, call)) && Apply(s, a).pinned == s.pinned
  {
    match a
    case LoadResume(next) => assert SlotOk(s, s.caller.slot);
    case LoadBegin(layer) =>
    case _ =>
      if call.Returned? && s.active.Ring? {
        StepSparesActive(s, a);
      }
  }

  lemma {:induction false} CallRun(s: State, acts: seq<Action>, call: Call)
    requires Inv(s) && CanRun(s, acts) && CallOk(s, call)
    ensures CallOk(RunTo(s, acts), LastCall(s, acts, call)) && RunTo(s, acts).pinned == s.pinned
    decreases |acts|
  {
    hide Inv, Enabled, Apply, CallOk, CallAfter;
    if acts != [] {
      StepKeeps(s, acts[0]);
      CallStep(s, acts[0], call);
      CallRun(Apply(s, acts[0]), acts[1..], CallAfter(s, acts[0], call));
    }
  }

  /** In every interleaving, once loadLayer(layer) has returned and until the next call, weights are
      read from the block of that layer, pinned or whole in its slot. */
  lemma {:induction false} CallerIsServed(n: nat, pinned: set<int>, acts: seq<Action>)
    requires n > 1 && CanRun(Fresh(n, pinned), acts)
    ensures var s, call := RunTo(Fresh(n, pinned), acts), LastCall(Fresh(n, pinned), acts, NoCall);
            && (call.Returned? ==> s.caller.Running? && Serves(s, call.layer))
            && (s.caller.Waiting? ==> call == Begun(s.caller.layer))
            && s.pinned == pinned
  {
    FreshInv(n, pinned);
    CallRun(Fresh(n, pinned), acts, NoCall);
    WaitingIsPending(Fresh(n, pinned), acts, NoCall);
  }

  lemma {:induction false} WaitingIsPending(s: State, acts: seq<Action>, call: Call)
    requires CanRun(s, acts) && (s.caller.Waiting? ==> call == Begun(s.caller.layer))
    ensures RunTo(s, acts).caller.Waiting? ==> LastCall(s, acts, call) == Begun(RunTo(s, acts).caller.layer)
    decreases |acts|
  {
    if acts != [] {
      WaitingIsPending(Apply(s, acts[0]), acts[1..], CallAfter(s, acts[0], call));
    }
  }

  /** A layer that is in the ring already, or on its way, costs no work. */
  lemma {:induction false} HitCostsNothing(s: State, layer: int, i: nat)
    requires |s.slots| > 1 && s.current < |s.slots| && layer !in s.pinned && i < |s.slots| && Held(s.slots[i], layer)
    ensures Begin(s, layer).slots == s.slots && Begin(s, layer).jobs == s.jobs
  {
    assert FirstHeld(s.slots, layer) <= i;
  }

  /** A read error marks the slot of the layer it belongs to, or no slot at all. */
  lemma {:induction false} ErrorStaysHome(s: State)
    requires Inv(s) && CanFinish(s, false)
    ensures forall i: nat | i < |s.slots| && Finish(s, false).slots[i] != s.slots[i] ::
              i == s.worker.job.slot && s.slots[i].layer == s.worker.job.layer && Finish(s, false).slots[i].mark == Failed
  {
    assert s.worker.job in Pending(s) && JobOk(s, s.worker.job);
  }

  // ---- progress ------------------------------------------------------------------

  predicate OfWorker(a: Action) {
    a.JobPop? || a.RoleTear? || a.RoleWrite? || a.JobFinish?
  }

  /** Worker steps left: what the fill in flight still has to do, and whole fills queued. */
  function Work(s: State): int {
    |s.jobs| * (2 * ROLES + 2)
    + if s.worker.Filling? then 2 * (ROLES - s.worker.role) + 1 - (if s.worker.torn then 1 else 0) else 0
  }

  lemma {:induction false} WorkShrinks(s: State, a: Action)
    requires Inv(s) && OfWorker(a) && Enabled(s, a)
    ensures 0 <= Work(Apply(s, a)) < Work(s)
  {
    StepKeeps(s, a);
  }

  /** Whoever waits in vain sees a worker that can move. */
  lemma {:induction false} WorkerCanMove(s: State)
    requires Inv(s) && s.caller.Waiting? && !Released(s)
    ensures exists a :: OfWorker(a) && Enabled(s, a)
  {
    var i := s.caller.slot;
    assert SlotOk(s, i) && JobOf(s, i) in Pending(s);
    match s.worker
    case Idle =>
      assert s.jobs != [];
      assert s.jobs[0] in Pending(s) && JobOk(s, s.jobs[0]);
      assert Enabled(s, JobPop);
    case Filling(job, role, torn) =>
      assert Enabled(s, if torn then RoleWrite else if role < ROLES then RoleTear else JobFinish(true));
  }

  lemma {:induction false} StepKeepsWaiting(s: State, a: Action)
    requires Inv(s) && OfWorker(a) && Enabled(s, a) && s.caller.Waiting?
    ensures Apply(s, a).caller == s.caller && (Released(s) ==> Released(Apply(s, a)))
  {
    assert s.worker.Filling? ==> s.worker.job in Pending(s) && JobOk(s, s.worker.job);
  }

  /** Progress: a waiting loadLayer is released after at most Work(s) worker steps, with or
      without read errors; and while it is not, the worker can always take one. */
  lemma {:induction false} WaitIsBounded(s: State, acts: seq<Action>)
    requires Inv(s) && s.caller.Waiting? && CanRun(s, acts) && forall a | a in acts :: OfWorker(a)
    ensures |acts| <= Work(s)
    ensures var s' := RunTo(s, acts);
            s'.caller == s.caller && (Released(s') || exists a :: OfWorker(a) && Enabled(s', a))
    decreases |acts|
  {
    if acts == [] {
      assert Work(s) >= 0;
      if !Released(s) {
        WorkerCanMove(s);
      }
    } else {
      StepKeeps(s, acts[0]);
      WorkShrinks(s, acts[0]);
      StepKeepsWaiting(s, acts[0]);
      WaitIsBounded(Apply(s, acts[0]), acts[1..]);
    }
  }

  // ---- a demanded layer goes first -------------------------------------------------

  /** The caller waits for a job that is next in the queue, or in flight. */
  predicate Urgent(s: State) {
    && s.caller.Waiting? && s.caller.slot < |s.slots| && s.slots[s.caller.slot].ticket == s.caller.ticket
    && var job := JobOf(s, s.caller.slot);
    && s.slots[s.caller.slot].mark == Loading
    && ((s.jobs != [] && s.jobs[0] == job) || (s.worker.Filling? && s.worker.job == job))
  }

  /** What the fill in flight has left, and one whole fill if the caller's job is still queued. */
  function UrgentWork(s: State): int {
    (if s.worker.Filling? then 2 * (ROLES - s.worker.role) + 1 - (if s.worker.torn then 1 else 0) else 0)
    + if s.worker.Filling? && s.caller.Waiting? && s.worker.job.ticket == s.caller.ticket && s.worker.job.slot == s.caller.slot
      then 0 else 2 * ROLES + 2
  }

  /** A layer that is nowhere in the ring is loaded before anything that is queued. */
  lemma {:induction false} MissIsUrgent(s: State, layer: int)
    requires Inv(s) && s.caller.Running? && layer !in s.pinned && forall i | 0 <= i < |s.slots| :: !Held(s.slots[i], layer)
    ensures Urgent(Begin(s, layer))
  {
  }

  lemma {:induction false} UrgentStep(s: State, a: Action)
    requires Inv(s) && OfWorker(a) && Enabled(s, a) && Urgent(s)
    ensures Released(Apply(s, a)) || (Urgent(Apply(s, a)) && UrgentWork(Apply(s, a)) < UrgentWork(s))
  {
    var job := JobOf(s, s.caller.slot);
    assert SlotOk(s, s.caller.slot);
    assert s.worker.Filling? ==> s.worker.job in Pending(s) && JobOk(s, s.worker.job);
  }

  /** So its caller waits for what is in flight and for its own load, however much is queued. */
  lemma {:induction false} UrgentIsBounded(s: State, acts: seq<Action>)
    requires Inv(s) && Urgent(s) && CanRun(s, acts) && (forall a | a in acts :: OfWorker(a)) && |acts| >= UrgentWork(s)
    ensures exists k: nat :: k <= |acts| && CanRun(s, acts[..k]) && Released(RunTo(s, acts[..k]))
    decreases |acts|
  {
    UrgentPositive(s);
    var t, rest := Apply(s, acts[0]), acts[1..];
    StepKeeps(s, acts[0]);
    UrgentStep(s, acts[0]);
    if Released(t) {
      assert acts[..1] == [acts[0]] && RunTo(s, acts[..1]) == t;
    } else {
      UrgentIsBounded(t, rest);
      var k: nat :| k <= |rest| && CanRun(t, rest[..k]) && Released(RunTo(t, rest[..k]));
      assert acts[..k + 1][0] == acts[0] && acts[..k + 1][1..] == rest[..k];
      assert CanRun(s, acts[..k + 1]);
    }
  }

  lemma {:induction false} UrgentPositive(s: State)
    requires Inv(s) && Urgent(s)
    ensures UrgentWork(s) > 0
  {
  }
}
