/** The layer loader: its critical sections and the worker's stores, each proved to be one
    step of the transition system; the synchronous path; the prefetch policy; pinning. */
module LayerLoading {
  import opened Loading

  /** Prefetch inside a node's own layers [begin, end), wrapping around. */
  class RangeWrapPolicy {
    const begin: nat
    const end: nat

    constructor (begin: nat, end: nat)
      requires begin < end
      ensures this.begin == begin && this.end == end
    {
      this.begin, this.end := begin, end;
    }

    /** The layer `i` places behind `current`, wrapping. */
    function At(current: int, i: nat): int
      requires begin < end
    {
      begin + (current - begin + i) % (end - begin)
    }

    /** The next layer that is not pinned, in cyclic order; -1 if every layer is pinned. */
    method Next(current: int, pinned: set<int>) returns (next: int)
      requires begin <= current < end
      ensures next == -1 <==> forall l | begin <= l < end :: l in pinned
      ensures next != -1 ==> begin <= next < end && next !in pinned
      ensures next != -1 ==> exists i: nat :: 1 <= i <= end - begin && next == At(current, i)
                                              && forall k: nat | 1 <= k < i :: At(current, k) in pinned
    {
      var span := end - begin;
      for i := 1 to span + 1
        invariant forall k: nat | 1 <= k < i :: At(current, k) in pinned
      {
        next := begin + (current - begin + i) % span;
        assert next == At(current, i);
        if next !in pinned {
          return;
        }
      }
      forall l | begin <= l < end
        ensures l in pinned
      {
        var i: nat := if l > current then l - current else l - current + span;
        Wraps(current - begin, i, span, l - begin);
        assert l == At(current, i);
      }
      next := -1;
    }

    lemma {:induction false} Wraps(c: nat, i: nat, span: nat, l: nat)
      requires c < span && l < span && i == if l > c then l - c else l - c + span
      ensures (c + i) % span == l
    {
    }
  }

  class LayerLoader {
    var slots: seq<Slot>
    var jobs: seq<Job>
    var current: int
    var active: Active
    var pinned: set<int>
    ghost var worker: Worker   // where the worker thread is
    ghost var caller: Caller   // where the calling thread is

    ghost function Abs(): State
      reads this
    {
      State(slots, jobs, current, active, pinned, worker, caller)
    }

    constructor (n: nat, pinned: set<int>)
      ensures Abs() == Fresh(n, pinned)
    {
      slots := seq(n, _ => Slot(-1, Empty, 0, seq(ROLES, _ => Blank)));
      jobs, current, active, this.pinned := [], -1, Nothing, pinned;
      worker, caller := Idle, Running;
    }

    // ---- critical sections -------------------------------------------------------

    method ClaimSlot(slot: nat, layer: int, front: bool)
      requires slot < |slots|
      modifies this`slots, this`jobs
      ensures Abs() == Claim(old(Abs()), slot, layer, front)
    {
      var t := slots[slot].ticket + 1;
      slots := slots[slot := slots[slot].(layer := layer, mark := Loading, ticket := t)];
      if front {
        jobs := [Job(slot, layer, t)] + jobs;
      } else {
        jobs := jobs + [Job(slot, layer, t)];
      }
    }

    method EnqueueSlot(slot: nat, layer: int)
      requires slot < |slots|
      modifies this`slots, this`jobs
      ensures Abs() == Enqueue(old(Abs()), slot, layer)
    {
      var s := slots[slot];
      if s.layer == layer && (s.mark == Loading || s.mark == Ready) {
        return;
      }
      ClaimSlot(slot, layer, false);
    }

    lemma {:induction false} FirstHeldIs(s: seq<Slot>, layer: int, i: nat)
      requires i <= |s| && (i < |s| ==> Held(s[i], layer)) && forall k | 0 <= k < i :: !Held(s[k], layer)
      ensures FirstHeld(s, layer) == i
    {
    }

    /** The search loop of loadLayer. */
    method FindHeld(layer: int) returns (i: nat)
      ensures i == FirstHeld(slots, layer)
    {
      i := 0;
      while i < |slots| && !(slots[i].layer == layer && (slots[i].mark == Ready || slots[i].mark == Loading))
        invariant i <= |slots| && forall k | 0 <= k < i :: !Held(slots[k], layer)
      {
        i := i + 1;
      }
      FirstHeldIs(slots, layer, i);
    }

    /** loadLayer up to its wait: the slot and the ticket it waits for, or done at once. */
    method LoadBegin(layer: int) returns (done: bool, slot: nat, ticket: nat)
      requires |slots| > 1 && current < |slots| && caller == Running
      modifies this`slots, this`jobs, this`current, this`active, this`caller
      ensures Abs() == Begin(old(Abs()), layer)
      ensures done <==> layer in old(pinned)
      ensures done ==> caller == Running && active == Pinned(layer) && current == -1
      ensures !done ==> caller == Waiting(slot, layer, ticket) && active == old(active) && current == old(current)
      ensures !done ==> slot < |slots| == old(|slots|) && Held(slots[slot], layer) && slots[slot].ticket == ticket
      ensures done || (exists i :: 0 <= i < old(|slots|) && Held(old(slots)[i], layer)) ==> slots == old(slots) && jobs == old(jobs)
      ensures !done && (forall i | 0 <= i < old(|slots|) :: !Held(old(slots)[i], layer)) ==>
                && slot != current && jobs == [Job(slot, layer, ticket)] + old(jobs) && ticket == old(slots)[slot].ticket + 1
                && slots == old(slots)[slot := Slot(layer, Loading, ticket, old(slots)[slot].buf)]
    {
      if layer in pinned {
        active, current := Pinned(layer), -1;
        return true, 0, 0;
      }
      done := false;
      slot := FindHeld(layer);
      if slot == |slots| {
        slot := if current >= 0 then (current + 1) % |slots| else 0;
        ClaimSlot(slot, layer, true);
      }
      ticket := slots[slot].ticket;
      caller := Waiting(slot, layer, ticket);
    }

    /** loadLayer after its wait; false when the read failed. */
    method LoadResume(slot: nat, layer: int, ticket: nat, next: int) returns (ok: bool)
      requires |slots| > 1 && caller == Waiting(slot, layer, ticket) && Released(Abs())
      modifies this`slots, this`jobs, this`current, this`active, this`caller
      ensures Abs() == Resume(old(Abs()), next)
      ensures caller == Running && (ok <==> old(slots[slot].mark) == Ready)
      ensures ok ==> active == Ring(slot, layer) && current == slot
      ensures var nb := (slot + 1) % |old(slots)|; var other := old(slots)[nb];
              && (ok && (next < 0 || other.layer == next) ==> slots == old(slots) && jobs == old(jobs))
              && (ok && next >= 0 && other.layer != next ==>
                    && nb != slot && jobs == old(jobs) + [Job(nb, next, other.ticket + 1)]
                    && slots == old(slots)[nb := Slot(next, Loading, other.ticket + 1, other.buf)])
      ensures !ok ==> active == old(active) && current == old(current) && jobs == old(jobs)
                      && slots == old(slots)[slot := old(slots[slot]).(layer := -1, mark := Empty)]
    {
      caller := Running;
      if slots[slot].mark == Failed {
        slots := slots[slot := slots[slot].(mark := Empty, layer := -1)];
        return false;
      }
      current := slot;
      active := Ring(slot, layer);
      if next >= 0 {
        var nb := OtherSlot(|slots|, slot);
        if slots[nb].layer != next {
          EnqueueSlot(nb, next);
        }
      }
      ok := true;
    }

    // ---- the worker thread -------------------------------------------------------

    /** Takes a job; `live` is false for a stale one, which is dropped. */
    method PopJob() returns (job: Job, live: bool)
      requires Enabled(Abs(), JobPop)
      modifies this`jobs, this`worker
      ensures Abs() == Pop(old(Abs())) && job == old(jobs[0])
      ensures live <==> worker == Filling(job, 0, false)
    {
      job := jobs[0];
      jobs := jobs[1..];
      live := slots[job.slot].ticket == job.ticket;
      if live {
        worker := Filling(job, 0, false);
      }
    }

    /** Resizes the next role's buffer. */
    method TearRole(job: Job, role: nat)
      requires worker == Filling(job, role, false) && CanTear(Abs())
      modifies this`slots, this`worker
      ensures Abs() == Tear(old(Abs()))
    {
      var s := slots[job.slot];
      slots := slots[job.slot := s.(buf := s.buf[role := Torn(job.layer)])];
      worker := Filling(job, role, true);
    }

    /** The role's data has arrived. */
    method WriteRole(job: Job, role: nat)
      requires worker == Filling(job, role, true) && CanWrite(Abs())
      modifies this`slots, this`worker
      ensures Abs() == Write(old(Abs()))
    {
      var s := slots[job.slot];
      slots := slots[job.slot := s.(buf := s.buf[role := Data(job.layer)])];
      worker := Filling(job, role + 1, false);
    }

    /** Marks the slot Ready or Failed, if it is still the job's. */
    method FinishJob(job: Job, ok: bool)
      requires worker.Filling? && worker.job == job && CanFinish(Abs(), ok)
      modifies this`slots, this`worker
      ensures Abs() == Finish(old(Abs()), ok)
    {
      if slots[job.slot].ticket == job.ticket {
        slots := slots[job.slot := slots[job.slot].(mark := if ok then Ready else Failed)];
      }
      worker := Idle;
    }

    // ---- the synchronous path ----------------------------------------------------

    /** A label is true: a labelled slot holds that layer, whole. */
    ghost predicate Honest()
      reads this`slots
    {
      |slots| > 0 && |slots[0].buf| == ROLES && (slots[0].layer >= 0 ==> Filled(slots[0], slots[0].layer))
    }

    /** Without prefetch: a pinned layer, or the one slot, filled in place; the read of role `failAt` throws, after
        the role's buffer was resized if `torn`. */
    method LoadSync(layer: int, failAt: nat, torn: bool) returns (ok: bool)
      requires Honest() && layer >= 0
      modifies this`slots, this`current, this`active
      ensures Honest() && (ok ==> Serves(Abs(), layer))
      ensures layer in pinned ==> ok && active == Pinned(layer) && slots == old(slots)
      ensures layer !in pinned ==> slots == old(slots)[0 := AfterSync(old(slots[0]), layer, failAt, torn)]
      ensures layer !in pinned && ok ==> active == Ring(0, layer) && slots[0].layer == layer && Filled(slots[0], layer)
      ensures ok <==> layer in pinned || old(slots[0].layer) == layer || failAt >= ROLES
      ensures !ok ==> slots[0].layer == -1 && active == old(active)
    {
      if layer in pinned {
        active, current := Pinned(layer), -1;
        return true;
      }
      if slots[0].layer != layer {
        assert Stored(slots[0].buf, layer, 0) == slots[0].buf;
        slots := slots[0 := slots[0].(layer := -1)];
        for r := 0 to ROLES
          modifies this`slots
          invariant slots == old(slots)[0 := old(slots[0]).(layer := -1, buf := Stored(old(slots[0].buf), layer, r))]
          invariant failAt >= r
        {
          var s := slots[0];
          if r == failAt {
            if torn {
              slots := slots[0 := s.(buf := s.buf[r := Torn(layer)])];
            }
            return false;
          }
          assert s.buf[r := Data(layer)] == Stored(old(slots[0].buf), layer, r + 1);
          slots := slots[0 := s.(buf := s.buf[r := Data(layer)])];
        }
        slots := slots[0 := slots[0].(layer := layer, mark := Ready)];
      }
      current, active, ok := 0, Ring(0, layer), true;
    }
  }
}
