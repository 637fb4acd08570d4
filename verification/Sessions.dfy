/** Sessions in which a later call does not answer as plain decoding over the whole
    conversation would. */
module Sessions {
  import opened Network
  import opened KvCaching
  import opened Nodes
  import opened Lan
  import opened Transformers
  import opened SpecDecoding
  import opened SemanticCaching
  import opened Reusing
  import opened Generation

  // ---- a cache hit drops the conversation ----------------------------------------

  /** A network of one layer that answers with the position it is at. */
  function PositionNet(): Net {
    Net(1, _ => 0, _ => 0, (t, p) => [p as real], (l, p, x) => Row(x, x), (l, p, x, rows) => x, (l, p, x, a) => a, x => x)
  }

  lemma {:induction false} PositionLogits(toks: seq<Token>)
    requires toks != []
    ensures Logits(PositionNet(), toks) == [(|toks| - 1) as real]
  {
    var net, p := PositionNet(), |toks| - 1;
    assert Resid(net, toks, 0, p) == [p as real];
    assert Resid(net, toks, 1, p) == net.attend(0, p, Resid(net, toks, 0, p), SpanRows(net, toks, 0, p));
  }

  /** A sampler that tells position 1 from the others. */
  function PositionWorld(): World<int> {
    World((e, v) => (e, if v == [1.0] then 1 else 2), (e, t) => e, (e, t) => (e, true), t => false)
  }

  lemma {:induction false} PositionAnswer(base: seq<Token>)
    requires |base| <= 5
    ensures var o, next := Plain(PositionWorld(), PositionNet(), 8, 0, base, [1, 2], 1), if base == [] then 1 else 2;
            o.Done? && o.out == [next] && o.committed == base + [1, 2, next]
  {
    var toks := base + [1, 2];
    PositionLogits(toks);
    var next := if base == [] then 1 else 2;
    assert Logits(PositionNet(), toks) == [1.0] <==> base == [] by {
      assert [(|toks| - 1) as real][0] == (|toks| - 1) as real;
    }
    var w, net := PositionWorld(), PositionNet();
    assert AcceptAll(w, 0, [1, 2]) == 0 by {
      assert [1, 2][..1] == [1] && [1][..0] == [];
      assert AcceptAll(w, 0, [1]) == AcceptAll(w, 0, []);
    }
    assert Plain(w, net, 8, 0, base, [1, 2], 1) == Decode(w, net, 8, 0, toks, next, 1);
    assert toks + [next] == base + [1, 2, next] && Predict(w, net, 8, 0, toks + [next], 0) == Done(0, [], toks + [next]);
  }

  /** A runtime over that network with an empty semantic cache, at the start of a conversation. */
  method Started() returns (rt: Runtime<int>)
    ensures fresh(rt) && fresh(rt.tf) && fresh(rt.tf.caches) && rt.w == PositionWorld()
    ensures rt.Net() == PositionNet() && rt.MaxCtx() == 8 && rt.tf.node.kv in rt.tf.caches && rt.tf.remote == []
    ensures rt.Held() && rt.Supported() && rt.spec == null && rt.stored == rt.committed == [] && !rt.reuse
    ensures rt.cache != null && fresh(rt.cache) && fresh(rt.cache.nodes) && rt.StoredPrefixes() == {}
    ensures rt.cache.maxBytes == 100 && rt.cache.TokenBytes() == 16
    ensures rt.TheCache() == {rt.cache} && rt.CacheNodes() == rt.cache.nodes
  {
    var kv := new KvCache(0, [0], 8);
    var node := new Node(PositionNet(), kv, false);
    var tf := new Transformer(node);
    rt := new Runtime(PositionWorld(), tf);
    rt.EnableSemanticCache(100, 1);
  }

  /** All that is stored is [1, 2, 1] and what it begins with. */
  lemma {:induction false} SecondHit()
    ensures var stored := {} + Ends([1, 2, 1], 0, 3);
            |stored| == 3 && HitOf(stored, [1, 2], 0) == 1 && ContextOf(stored, false, [1, 2, 1], [1, 2]) == []
  {
    var stored: set<seq<Token>> := {} + Ends([1, 2, 1], 0, 3);
    EndsCount([1, 2, 1], 0, 3);
    assert stored == Ends([1, 2, 1], 0, 3);
    assert [1, 2, 1][..2] == [1, 2] && [1, 2] in stored;
    assert LongestIn(stored, [1, 2]) == 2;
  }

  lemma {:induction false} NoRings(rt: Runtime<int>)
    requires rt.Net() == PositionNet()
    ensures rt.Servable([1, 2]) && rt.Roomy([1, 2], 1)
  {
    assert forall l: nat :: rt.tf.node.net.ring(l) == 0;
  }

  lemma {:induction false} CacheOf(rt: Runtime<int>)
    requires rt.cache != null
    ensures rt.TheCache() == {rt.cache} && rt.CacheNodes() == rt.cache.nodes && rt.StoredPrefixes() == rt.cache.cover.Keys
  {
  }

  lemma {:induction false} RoomForAll(c: SemanticCache, was: set<seq<Token>>, o: Outcome<int>)
    requires Runtime.Cached(c, was, o) && o.Done? && c.maxBytes == 100 && c.TokenBytes() == 16
    requires |was + Ends(o.committed, 0, |o.committed|)| <= 6
    ensures c.cover.Keys == was + Ends(o.committed, 0, |o.committed|)
  {
  }

  /** One call with the prompt [1, 2]. */
  method Ask(rt: Runtime<int>) returns (o: Outcome<int>, hit: nat)
    requires rt.w == PositionWorld() && rt.Net() == PositionNet() && rt.MaxCtx() == 8 && rt.tf.remote == [] && rt.spec == null
    requires rt.Held() && rt.Supported() && rt.stored == rt.committed && !rt.reuse
    requires rt.cache != null && rt.cache.maxBytes == 100 && rt.cache.TokenBytes() == 16
    modifies rt`pos, rt`committed, rt`stored, rt.tf.caches`rows, rt.tf.caches`seqLen
    modifies rt.TheCache()`lru, rt.TheCache()`currentBytes, rt.TheCache()`nodes, rt.TheCache()`cover
    modifies rt.CacheNodes()`prefix, rt.CacheNodes()`children, rt.CacheNodes()`parent
    modifies rt.CacheNodes()`kBlock, rt.CacheNodes()`vBlock, rt.CacheNodes()`inLru
    ensures rt.Held() && rt.Supported() && fresh(rt.cache.nodes - old(rt.cache.nodes))
    ensures o == Plain(PositionWorld(), PositionNet(), 8, 0, old(rt.Context([1, 2])), [1, 2], 1)
    ensures hit == HitOf(old(rt.StoredPrefixes()), [1, 2], 0)
    ensures o.Done? ==> rt.stored == rt.committed == o.committed
    ensures o.Done? && |old(rt.StoredPrefixes()) + Ends(o.committed, 0, |o.committed|)| <= 6 ==>
              rt.StoredPrefixes() == old(rt.StoredPrefixes()) + Ends(o.committed, 0, |o.committed|)
  {
    hide *;
    NoRings(rt);
    CacheOf(rt);
    ghost var was := rt.StoredPrefixes();
    o, hit := rt.Generate(0, _ => [1, 2], 1);
    CacheOf(rt);
    if o.Done? && |was + Ends(o.committed, 0, |o.committed|)| <= 6 {
      RoomForAll(rt.cache, was, o);
    }
  }

  /** The conversation after its first call. */
  method Opened() returns (rt: Runtime<int>, first: Outcome<int>)
    ensures fresh(rt) && fresh(rt.tf.caches) && rt.w == PositionWorld()
    ensures rt.Net() == PositionNet() && rt.MaxCtx() == 8 && rt.tf.remote == [] && rt.spec == null
    ensures rt.Held() && rt.Supported() && rt.stored == rt.committed == [1, 2, 1] && !rt.reuse
    ensures rt.cache != null && fresh(rt.cache) && fresh(rt.cache.nodes)
    ensures rt.cache.maxBytes == 100 && rt.cache.TokenBytes() == 16
    ensures rt.StoredPrefixes() == {} + Ends([1, 2, 1], 0, 3)
    ensures first == Plain(PositionWorld(), PositionNet(), 8, 0, [], [1, 2], 1)
  {
    hide *;
    rt := Started();
    FirstOutcome();
    NothingToContinue(rt);
    var none;
    first, none := Ask(rt);
  }

  lemma {:induction false} NothingToContinue(rt: Runtime<int>)
    requires rt.committed == []
    ensures rt.Context([1, 2]) == []
  {
  }

  lemma {:induction false} FirstOutcome()
    ensures var o := Plain(PositionWorld(), PositionNet(), 8, 0, [], [1, 2], 1);
            o.Done? && o.committed == [1, 2, 1] && o.out == [1] && |{} + Ends([1, 2, 1], 0, 3)| == 3
  {
    PositionAnswer([]);
    assert [] + [1, 2, 1] == [1, 2, 1];
    SecondHit();
  }

  /** The second prompt's first token is stored, so the call starts over: it answers as in a
      fresh conversation, where one that continued would answer otherwise. */
  method DroppedHistory() returns (first: Outcome<int>, second: Outcome<int>, hit: nat)
    ensures first.Done? && first.committed == [1, 2, 1] && hit == 1
    ensures second == Plain(PositionWorld(), PositionNet(), 8, 0, [], [1, 2], 1)
    ensures second != Plain(PositionWorld(), PositionNet(), 8, 0, first.committed, [1, 2], 1)
    ensures second.Done? && second.out == [1]
  {
    var rt;
    rt, first := Opened();
    FirstOutcome();
    PositionAnswer([1, 2, 1]);
    SecondHit();
    assert rt.Context([1, 2]) == [];
    hide *;
    second, hit := Ask(rt);
  }

  // ---- rows of another position --------------------------------------------------

  function Look(front: nat, l: nat, x: Vec, rows: seq<Row>): Vec {
    if l < front then x else if rows == [] then [] else rows[0].k
  }

  /** A last layer that looks back one position and answers with the token it finds there; before
      it, `front` layers that keep nothing of the tokens. */
  function LookBack(front: nat): Net {
    Net(front + 1, l => if l < front then 0 else 2, l => if l < front then 0 else 2, (t, p) => [t as real],
        (l, p, x) => if l < front then Row([], []) else Row(x, []),
        (l: nat, p, x, rows) => Look(front, l, x, rows), (l, p, x, a) => a, x => x)
  }

  lemma {:induction false} LookBackResid(front: nat, toks: seq<Token>, l: nat, p: nat)
    requires p < |toks| && l <= front
    ensures Resid(LookBack(front), toks, l, p) == [toks[p] as real]
    ensures RowAt(LookBack(front), toks, l, p) == if l < front then Row([], []) else Row([toks[p] as real], [])
    decreases l
  {
    if l > 0 {
      LookBackResid(front, toks, l - 1, p);
      var net := LookBack(front);
      var x := Resid(net, toks, l - 1, p);
      assert Resid(net, toks, l, p) == net.finish(l - 1, p, x, net.attend(l - 1, p, x, SpanRows(net, toks, l - 1, p)));
    }
  }

  /** The answer is the token before the last. */
  lemma {:induction false} LookBackAnswer(front: nat, toks: seq<Token>)
    requires |toks| >= 2
    ensures Logits(LookBack(front), toks) == [toks[|toks| - 2] as real]
  {
    var net, p := LookBack(front), |toks| - 1;
    LookBackResid(front, toks, front, p);
    LookBackResid(front, toks, front, p - 1);
    assert SpanStart(net, front, p) == p - 1;
    var x, rows := Resid(net, toks, front, p), SpanRows(net, toks, front, p);
    assert rows[0] == RowAt(net, toks, front, p - 1);
    assert net.attend(front, p, x, rows) == Look(front, front, x, rows) == rows[0].k;
    assert Resid(net, toks, front + 1, p) == net.finish(front, p, x, net.attend(front, p, x, rows));
  }

  /** Decoding never streams: each call only processes its prompt. */
  function AnyWorld(): World<int> {
    World((e, v) => (e + 1, if e == 0 then 6 else 9), (e, t) => e, (e, t) => (e, true), t => false)
  }

  /** A cache whose last layer holds at `p` the row of token `t` serves any tokens that have it there. */
  lemma {:induction false} ServesInstead(m: Node, front: nat, stored: seq<Token>, q: nat, toks: seq<Token>, p: nat)
    requires m.Valid() && m.net == LookBack(front) && Stores(m.kv, m.net, stored, |stored|)
    requires q < |stored| <= q + 2 && SlotOf(2, q) == SlotOf(2, p) && p < |toks| && toks[p] == stored[q] && p + 1 <= |stored|
    ensures Serves(m.kv, m.net, toks, p + 1)
  {
    forall l: nat | m.kv.Owns(l)
      ensures LayerServes(m.kv, m.net, toks, l, p + 1)
    {
      assert LayerStores(m.kv, m.net, stored, l, |stored|);
      if l == front {
        LookBackResid(front, stored, l, q);
        LookBackResid(front, toks, l, p);
        assert Fetch(m.kv.Layer(l), 2, q) == RowAt(m.net, stored, l, q);
      } else {
        forall i: nat | i < p + 1
          ensures Fetch(m.kv.Layer(l), 0, i) == RowAt(m.net, toks, l, i)
        {
          LookBackResid(front, stored, l, i);
          LookBackResid(front, toks, l, i);
        }
      }
    }
  }

  /** One machine with that one layer, on a ring of two rows. */
  method RingStarted(maxCtx: nat) returns (rt: Runtime<int>)
    ensures fresh(rt) && fresh(rt.tf.caches) && rt.w == AnyWorld() && rt.Net() == LookBack(0) && rt.MaxCtx() == maxCtx
    ensures rt.tf.remote == [] && rt.tf.node.kv.ring == [2] && rt.tf.node.kv.base == 0 && rt.tf.node.kv in rt.tf.caches
    ensures !rt.reuse && rt.cache == null && rt.spec == null && rt.Live() && rt.stored == []
  {
    var kv := new KvCache(0, [2], maxCtx);
    var node := new Node(LookBack(0), kv, false);
    var tf := new Transformer(node);
    rt := new Runtime(AnyWorld(), tf);
  }

  // ---- a failed call hides what a ring has lost ----------------------------------

  lemma {:induction false} FirstFits(front: nat)
    ensures var o := Plain(AnyWorld(), LookBack(front), 4, 0, [], [5, 6, 7], 0); o.Done? && o.committed == [5, 6, 7]
    ensures Plain(AnyWorld(), LookBack(front), 4, 0, [], [5, 6, 8, 8, 8], 0).Exceeded?
  {
    assert [] + [5, 6, 7] == [5, 6, 7];
  }

  lemma {:induction false} KeepsTwo()
    ensures Kept([5, 6, 7], [5, 6, 8, 8, 8]) == 2 && RewindTo([2], [5, 6, 7], [5, 6, 8, 8, 8]) == 2
  {
    assert [5, 6, 8, 8, 8][..2] == [5, 6] == [5, 6, 7][..2];
    CommonIs([5, 6, 8, 8, 8], [5, 6, 7], 2);
    hide Common;
    assert [2][0] == 2;
    assert CanRewind([2], 2, 3);
  }

  lemma {:induction false} KeepsOne(committed: seq<Token>)
    requires |committed| >= 2 && committed[0] == 5 && committed[1] != 9
    ensures Kept(committed, [5, 9]) == 1
  {
    assert [5, 9][..1] == [5] == committed[..1];
    CommonIs([5, 9], committed, 1);
  }

  lemma {:induction false} HeldPos(rt: Runtime<int>)
    requires rt.Held()
    ensures rt.pos == |rt.committed| && rt.committed == rt.stored[..rt.pos]
  {
  }

  lemma {:induction false} NothingElse(rt: Runtime<int>, prompt: seq<Token>)
    requires rt.reuse && rt.cache == null && rt.spec == null
    ensures rt.Roomy(prompt, 0) && rt.Supported() && rt.Context(prompt) == []
    ensures rt.TheCache() == {} && rt.CacheNodes() == {}
  {
  }

  lemma {:induction false} Rewinds(rt: Runtime<int>, prompt: seq<Token>)
    requires rt.reuse
    ensures rt.From(prompt) == RewindTo(rt.tf.node.kv.ring, rt.committed, prompt)
  {
  }

  /** A call that only processes its prompt, with reuse, behind a successful one. */
  method Call(rt: Runtime<int>, prompt: seq<Token>) returns (o: Outcome<int>)
    requires rt.w == AnyWorld() && rt.Held() && rt.stored == rt.committed && rt.Servable(prompt)
    requires rt.reuse && rt.cache == null && rt.spec == null && prompt != []
    modifies rt`pos, rt`committed, rt`stored, rt.tf.caches`rows, rt.tf.caches`seqLen
    ensures o == Plain(AnyWorld(), rt.Net(), rt.MaxCtx(), 0, [], prompt, 0) && rt.Held()
    ensures o.Done? ==> rt.stored == rt.committed == o.committed
    ensures o.Exceeded? ==> rt.stored == old(rt.stored) && rt.pos == old(rt.From(prompt))
  {
    hide *;
    NothingElse(rt, prompt);
    var none;
    o, none := rt.Generate(0, _ => prompt, 0);
  }

  /** A prompt that fits, then one that shares two tokens with it and does not. */
  method FailedCall() returns (rt: Runtime<int>)
    ensures fresh(rt) && fresh(rt.tf.caches) && rt.Net() == LookBack(0) && rt.reuse && rt.MaxCtx() == 4
    ensures rt.tf.remote == [] && rt.tf.node.kv.ring == [2] && rt.tf.node.kv.base == 0 && rt.tf.node.kv in rt.tf.caches
    ensures rt.Held() && rt.stored == [5, 6, 7] && rt.committed == [5, 6]
  {
    hide *;
    rt := RingStarted(4);
    rt.LiveIs();
    rt.HeldIs();
    rt.AloneIsCovered();
    rt.reuse := true;
    HeldPos(rt);
    FirstFits(0);
    KeepsTwo();
    rt.SyncedServes([5, 6, 7]);
    var o := Call(rt, [5, 6, 7]);
    HeldPos(rt);
    rt.SyncedServes([5, 6, 8, 8, 8]);
    Rewinds(rt, [5, 6, 8, 8, 8]);
    o := Call(rt, [5, 6, 8, 8, 8]);
    HeldPos(rt);
    assert [5, 6, 7][..2] == [5, 6];
  }

  /** The third prompt, [5, 9], rewinds to position 1, as the guard allows, though the next query
      cannot be served. */
  method Rewound() returns (rt: Runtime<int>)
    ensures fresh(rt) && fresh(rt.tf.caches) && rt.Net() == LookBack(0) && rt.MaxCtx() == 4
    ensures rt.tf.remote == [] && rt.tf.node.kv.ring == [2] && rt.tf.node.kv.base == 0 && rt.tf.node.kv in rt.tf.caches
    ensures rt.Held() && !rt.Live() && rt.stored == [5, 6, 7] && rt.committed == [5]
    ensures Misled([2], [5, 6], 3, [5, 9])
  {
    rt := FailedCall();
    KeepsOne([5, 6]);
    assert CanRewind([2], 1, 2) && [2][0] == 2;
    assert !RowsLeft(rt.tf.node.net.ring(0), 1, 3);
    hide LookBack, Kept;
    var r := rt.Rewind([5, 9]);
  }

  /** Its prefill then looks back to position 0 and finds the row of token 7, where plain decoding
      finds token 5. */
  method FailedCallMisleads() returns (answer: Vec)
    ensures Logits(LookBack(0), [5, 9]) == [5.0] && answer == [7.0]
  {
    var rt := Rewound();
    ServesInstead(rt.tf.node, 0, [5, 6, 7], 2, [7, 9], 0);
    LookBackAnswer(0, [7, 9]);
    LookBackAnswer(0, [5, 9]);
    hide LookBack, Logits;
    answer := rt.tf.Prefill([9], rt.pos, [7, 9]);
  }

  // ---- a ring on another machine --------------------------------------------------

  /** The first layer here, keeping all rows; the last one on a worker, in a ring of two. */
  method Split() returns (tf: Transformer, worker: Node)
    ensures fresh(tf) && fresh(tf.caches) && tf.Wired() && tf.node.net == LookBack(1) && tf.node.kv.maxCtx == 4
    ensures tf.node.kv.ring == [0] && tf.node.kv.base == 0 && tf.node.kv in tf.caches
    ensures |tf.remote| == 1 && tf.remote[0].exec.worker == worker && worker.kv.ring == [2] && worker.kv.base == 1
  {
    hide Contiguous;
    var kv := new KvCache(0, [0], 4);
    var kv' := new KvCache(1, [2], 4);
    var node := new Node(LookBack(1), kv, false);
    worker := new Node(LookBack(1), kv', false);
    var exec := new RemoteExecutor(1, 2, worker);
    tf := new Transformer(node);
    var segs := [RemoteSegment(1, 2, exec)];
    assert StartOf(segs, 1, 0) == 1 && StartOf(segs, 1, 1) == 2;
    var ok := tf.SetRemoteSegments(segs);
    assert tf.caches == {kv, kv'};
  }

  method SplitStarted() returns (rt: Runtime<int>, worker: Node)
    ensures fresh(rt) && fresh(rt.tf) && fresh(rt.tf.caches) && rt.w == AnyWorld() && rt.Net() == LookBack(1) && rt.MaxCtx() == 4
    ensures rt.tf.node.kv.ring == [0] && rt.tf.node.kv.base == 0 && rt.tf.node.kv in rt.tf.caches
    ensures |rt.tf.remote| == 1 && rt.tf.remote[0].exec.worker == worker && worker.kv.ring == [2] && worker.kv.base == 1
    ensures !rt.reuse && rt.cache == null && rt.spec == null && rt.Live() && rt.stored == []
  {
    var tf;
    tf, worker := Split();
    hide LookBack, AnyWorld;
    rt := new Runtime(AnyWorld(), tf);
  }

  /** A prompt of three tokens; then [5, 9] rewinds to position 1, as the rings here allow. */
  method SplitRewound() returns (rt: Runtime<int>, worker: Node)
    ensures fresh(rt) && fresh(rt.tf.caches) && rt.Net() == LookBack(1) && rt.MaxCtx() == 4
    ensures rt.tf.node.kv.ring == [0] && rt.tf.node.kv.base == 0 && rt.tf.node.kv in rt.tf.caches
    ensures |rt.tf.remote| == 1 && rt.tf.remote[0].exec.worker == worker && worker.kv.ring == [2] && worker.kv.base == 1
    ensures rt.Held() && !rt.Live() && rt.stored == [5, 6, 7] && rt.committed == [5]
    ensures Unguarded([0], [0, 2], [5, 6, 7], [5, 9])
  {
    hide *;
    rt, worker := SplitStarted();
    rt.LiveIs();
    rt.reuse := true;
    HeldPos(rt);
    rt.FreshServes([5, 6, 7]);
    FirstFits(1);
    var o := Call(rt, [5, 6, 7]);
    HeldPos(rt);
    SplitLoses(rt);
    var r := rt.Rewind([5, 9]);
    HeldPos(rt);
  }

  lemma {:induction false} SplitLoses(rt: Runtime<int>)
    requires rt.Net() == LookBack(1) && rt.tf.node.kv.ring == [0] && rt.reuse
    requires rt.committed == rt.stored == [5, 6, 7]
    ensures rt.From([5, 9]) == 1 && !rt.Servable([5, 9])
    ensures Unguarded([0], [0, 2], [5, 6, 7], [5, 9])
  {
    KeepsOne([5, 6, 7]);
    assert CanRewind([0], 1, 3);
    assert [0, 2][1] == 2;
    assert !RowsLeft(rt.tf.node.net.ring(1), 1, 3);
    hide Kept;
  }

  /** The worker then looks back to position 0 and finds the row of token 7. */
  method RemoteRingMisleads() returns (answer: Vec)
    ensures Logits(LookBack(1), [5, 9]) == [5.0] && answer == [7.0]
  {
    hide *;
    var rt, worker := SplitRewound();
    SplitServes(rt, worker);
    LookBackAnswer(1, [7, 9]);
    LookBackAnswer(1, [5, 9]);
    rt.HeldIs();
    assert [7, 9][1..] == [9];
    answer := rt.tf.Prefill([9], rt.pos, [7, 9]);
  }

  lemma {:induction false} SplitServes(rt: Runtime<int>, worker: Node)
    requires rt.Net() == LookBack(1) && rt.Held() && rt.stored == [5, 6, 7] && rt.committed == [5]
    requires |rt.tf.remote| == 1 && rt.tf.remote[0].exec.worker == worker
    ensures rt.MaxCtx() == rt.tf.node.kv.maxCtx && rt.Net() == rt.tf.node.net && rt.tf.Wired()
    ensures rt.tf.AllServe([7, 9], 1)
  {
    hide LookBack;
    ServesInstead(rt.tf.node, 1, [5, 6, 7], 2, [7, 9], 0);
    ServesInstead(worker, 1, [5, 6, 7], 2, [7, 9], 0);
  }

  // ---- a rejected draft ------------------------------------------------------------

  lemma {:induction false} AcceptNothing(e: int, toks: seq<Token>)
    ensures AcceptAll(AnyWorld(), e, toks) == e
  {
    if toks != [] {
      AcceptNothing(e, toks[..|toks| - 1]);
    }
  }

  /** The last two tokens also stand at the start. */
  lemma {:induction false} DraftIs(r: seq<Token>)
    requires Drafted([5, 6, 7, 8, 5, 6], 2, 5, 2, r)
    ensures r == [7, 8]
  {
    var ctx := [5, 6, 7, 8, 5, 6];
    assert ctx[0..2] == ctx[4..] == [5, 6];
    assert Recurs(ctx, 2, 0);
    forall g: nat, p: nat | 2 <= g && Recurs(ctx, g, p)
      ensures g == 2 && p == 0
    {
      assert ctx[p..p + g][0] == ctx[p] && ctx[|ctx| - g..][0] == ctx[|ctx| - g];
    }
    assert !NoRecurrence(ctx, 2);
    assert r != [];
    var g: nat, p: nat :| LongestSuffix(ctx, 2, 5, g) && LastOccurrence(ctx, g, p) && Follows(ctx, g, p, 2, r);
    assert g == 2 && p == 0;
    assert ctx[2..4] == [7, 8];
  }

  /** A prompt whose first token recurs at its end; the first token sampled makes it a pair. */
  method Repeating() returns (rt: Runtime<int>)
    ensures fresh(rt) && fresh(rt.tf.caches) && rt.w == AnyWorld() && rt.Net() == LookBack(0) && rt.MaxCtx() == 16
    ensures rt.tf.remote == [] && rt.tf.node.kv in rt.tf.caches && rt.tf.Wired()
    ensures rt.spec != null && rt.spec.minNgram == 2 && rt.spec.maxNgram == 5 && rt.maxDraft == 2
    ensures rt.pos == 5 && rt.committed == [5, 6, 7, 8, 5, 6] && rt.tf.AllServe(rt.committed, 5)
  {
    hide *;
    var prompt := [5, 6, 7, 8, 5];
    rt := RingStarted(16);
    rt.EnableSpeculativeDecoding(2);
    rt.LiveIs();
    AcceptNothing(0, prompt);
    assert prompt[0..] == prompt && [] + prompt == prompt;
    var ok, env, next := rt.PrefillPrompt(0, prompt, 0);
    rt.LiveIs();
    FirstSample(rt.Net(), rt.committed);
    rt.Push(next);
  }

  lemma {:induction false} FirstSample(net: Net, toks: seq<Token>)
    requires toks != []
    ensures AnyWorld().sample(0, Logits(net, toks)).1 == 6 && AnyWorld().sample(1, Logits(net, toks)).1 == 9
  {
  }

  /** The batch stores the two drafted tokens; the sampler agrees with neither. */
  method Rejected() returns (rt: Runtime<int>, next: int)
    ensures fresh(rt) && fresh(rt.tf.caches) && rt.Net() == LookBack(0) && rt.MaxCtx() == 16
    ensures rt.tf.remote == [] && rt.tf.node.kv in rt.tf.caches
    ensures rt.Held() && !rt.Live() && rt.stored == [5, 6, 7, 8, 5, 6, 7, 8] && rt.committed == [5, 6, 7, 8, 5, 6] && next == 9
  {
    hide *;
    rt := Repeating();
    var draft := rt.Propose(1, 8);
    DraftIs(draft);
    FirstSample(rt.Net(), rt.committed);
    var env, n, out;
    env, next, n, out := rt.SpecStep(1, draft, 1, 8, [6]);
    HeldPos(rt);
    assert rt.stored[..6] == [5, 6, 7, 8, 5, 6];
    RejectedLoses(rt);
  }

  lemma {:induction false} RejectedLoses(rt: Runtime<int>)
    requires rt.Net() == LookBack(0) && rt.pos == 6 && |rt.stored| == 8
    ensures !rt.Live()
  {
    assert !RowsLeft(rt.tf.node.net.ring(0), 6, 8);
  }

  /** The next token then looks back to position 5 and finds the row of the drafted token 8, where
      plain decoding finds token 6. */
  method RejectedDraftMisleads() returns (answer: Vec)
    ensures Logits(LookBack(0), [5, 6, 7, 8, 5, 6, 9]) == [6.0] && answer == [8.0]
  {
    hide *;
    var rt, next := Rejected();
    RejectedServes(rt);
    LookBackAnswer(0, [5, 6, 7, 8, 5, 8, 9]);
    LookBackAnswer(0, [5, 6, 7, 8, 5, 6, 9]);
    rt.HeldIs();
    answer := rt.tf.Forward(next, rt.pos, [5, 6, 7, 8, 5, 8, 9]);
  }

  lemma {:induction false} RejectedServes(rt: Runtime<int>)
    requires rt.Net() == LookBack(0) && rt.Held() && rt.tf.remote == [] && rt.stored == [5, 6, 7, 8, 5, 6, 7, 8]
    ensures rt.MaxCtx() == rt.tf.node.kv.maxCtx && rt.Net() == rt.tf.node.net && rt.tf.Wired()
    ensures rt.tf.AllServe([5, 6, 7, 8, 5, 8, 9], 6)
  {
    hide LookBack;
    ServesInstead(rt.tf.node, 0, [5, 6, 7, 8, 5, 6, 7, 8], 7, [5, 6, 7, 8, 5, 8, 9], 5);
  }
}
