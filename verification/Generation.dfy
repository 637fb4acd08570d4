/** The generation loop of the runtime: prefix reuse, cached prefixes, batched prefill, and
    plain or speculative decoding, proved equal to one plain reference. */
module Generation {
  import opened Network
  import opened KvCaching
  import opened KvBlocks
  import opened Nodes
  import opened Transformers
  import opened SpecDecoding
  import opened SemanticCaching
  import opened Reusing

  /** Everything a call talks to besides the model. One state `E` stands for the sampler
      (history, random state), the logit filter and the callback, so the order in which the
      loop uses them is part of every result. */
  datatype World<!E> = World(
    sample: (E, Vec) -> (E, Token),   // filter the logits, then sample
    accept: (E, Token) -> E,          // seed the sampler's history with a prompt token
    emit: (E, Token) -> (E, bool),    // stream a token; false asks to stop
    isEog: Token -> bool)

  datatype Outcome<E> =
    | Refused                                               // feature combination not supported
    | Exceeded                                              // the prompt does not fit the context
    | Done(env: E, out: seq<Token>, committed: seq<Token>)  // tokens streamed, tokens in the cache

  /** What a lookup in the semantic cache staged. */
  datatype Lookup = NotFound | Found(matched: nat, k: seq<Vec>, v: seq<Vec>)

  // ---- the plain reference -------------------------------------------------------

  ghost function AcceptAll<E>(w: World<E>, env: E, toks: seq<Token>): E {
    if toks == [] then env
    else w.accept(AcceptAll(w, env, toks[..|toks| - 1]), toks[|toks| - 1])
  }

  function Prepend<E>(out: seq<Token>, o: Outcome<E>): Outcome<E> {
    if o.Done? then Done(o.env, out + o.out, o.committed) else o
  }

  /** Plain decoding: `toks` are in the cache, `next` is the token sampled after them. */
  ghost function Decode<E>(w: World<E>, net: Net, maxCtx: nat, env: E, toks: seq<Token>, next: Token, left: int): Outcome<E>
    decreases left, 0
  {
    if left <= 0 || w.isEog(next) || |toks| >= maxCtx then Done(env, [], toks)
    else
      var (env', go) := w.emit(env, next);
      if go then Prepend([next], Predict(w, net, maxCtx, env', toks + [next], left - 1))
      else Done(env', [next], toks)
  }

  /** One forward pass over the last token of `toks`, then plain decoding. */
  ghost function Predict<E>(w: World<E>, net: Net, maxCtx: nat, env: E, toks: seq<Token>, left: int): Outcome<E>
    requires toks != []
    decreases left, 1
  {
    var (env', next) := w.sample(env, Logits(net, toks));
    Decode(w, net, maxCtx, env', toks, next, left)
  }

  /** A whole call: `base` is the context the prompt continues. */
  ghost function Plain<E>(w: World<E>, net: Net, maxCtx: nat, env: E, base: seq<Token>, prompt: seq<Token>, maxNew: int): Outcome<E> {
    if prompt == [] then Done(env, [], base)
    else if |base| + |prompt| > maxCtx then Exceeded
    else Predict(w, net, maxCtx, AcceptAll(w, env, prompt), base + prompt, maxNew)
  }

  /** One turn of plain decoding, seen behind the tokens `out` streamed before it. */
  lemma {:induction false} DecodeTurn<E>(w: World<E>, net: Net, maxCtx: nat, env: E, toks: seq<Token>, next: Token, left: int, out: seq<Token>)
    ensures Prepend(out, Decode(w, net, maxCtx, env, toks, next, left)) ==
            if left <= 0 || w.isEog(next) || |toks| >= maxCtx then Done(env, out, toks)
            else
              var (env', go) := w.emit(env, next);
              if go then Prepend(out + [next], Predict(w, net, maxCtx, env', toks + [next], left - 1))
              else Done(env', out + [next], toks)
  {
    var (env', go) := w.emit(env, next);
    assert out + [] == out;
    var o := Predict(w, net, maxCtx, env', toks + [next], left - 1);
    if o.Done? {
      assert out + ([next] + o.out) == out + [next] + o.out;
    }
  }

  /** What plain decoding commits: the context and the streamed tokens, without the last one
      if the callback stopped there. At most `left` tokens, none of them an end marker. */
  lemma {:induction false} DecodeShape<E>(w: World<E>, net: Net, maxCtx: nat, env: E, toks: seq<Token>, next: Token, left: int)
    requires |toks| <= maxCtx
    ensures var o := Decode(w, net, maxCtx, env, toks, next, left);
            && o.Done? && |o.out| <= (if left > 0 then left else 0)
            && (o.committed == toks + o.out || (o.out != [] && o.committed == toks + o.out[..|o.out| - 1]))
            && |o.committed| <= maxCtx
            && forall t | t in o.out :: !w.isEog(t)
    decreases left
  {
    var o := Decode(w, net, maxCtx, env, toks, next, left);
    if left <= 0 || w.isEog(next) || |toks| >= maxCtx {
      assert o.committed == toks + o.out;
    } else {
      var (env', go) := w.emit(env, next);
      if go {
        var (env'', next') := w.sample(env', Logits(net, toks + [next]));
        DecodeShape(w, net, maxCtx, env'', toks + [next], next', left - 1);
        var rest := Decode(w, net, maxCtx, env'', toks + [next], next', left - 1);
        assert o.out == [next] + rest.out;
        assert toks + [next] + rest.out == toks + o.out;
        if rest.out != [] {
          assert toks + [next] + rest.out[..|rest.out| - 1] == toks + o.out[..|o.out| - 1];
        }
      } else {
        assert o.committed == toks + o.out[..|o.out| - 1];
      }
    }
  }

  // ---- rows of a cached prefix ---------------------------------------------------

  /** The row function of the cache is the network's. */
  ghost predicate RowsOf(net: Net, rowOf: (seq<Token>, nat) -> Row) {
    forall q: seq<Token>, l: nat :: q != [] ==> rowOf(q, l) == RowAt(net, q, l, |q| - 1)
  }

  /** The first `n` staged rows of layer `l`. */
  function Staged(k: seq<Vec>, v: seq<Vec>, len: nat, l: nat, n: nat): seq<Row> {
    seq(n, p requires 0 <= p => Row(Cell(k, len, l, p), Cell(v, len, l, p)))
  }

  lemma {:induction false} StagedRow(net: Net, k: seq<Vec>, v: seq<Vec>, toks: seq<Token>, len: nat, l: nat, p: nat, rowOf: (seq<Token>, nat) -> Row)
    requires RowsOf(net, rowOf) && p < len <= |toks| && l < net.layers
    requires Agrees(k, net.layers, toks[..len], len, rowOf, Key)
    requires Agrees(v, net.layers, toks[..len], len, rowOf, Value)
    ensures Row(Cell(k, len, l, p), Cell(v, len, l, p)) == RowAt(net, toks, l, p)
  {
    var q := toks[..len][..p + 1];
    assert q == toks[..p + 1];
    assert Cell(k, len, l, p) == Half(rowOf(q, l), Key) && Cell(v, len, l, p) == Half(rowOf(q, l), Value);
    RowCausal(net, toks, q, l, p);
  }

  // ---- the runtime ---------------------------------------------------------------

  class Runtime<!E> {
    const w: World<E>
    const tf: Transformer
    var pos: nat
    var committed: seq<Token>
    var reuse: bool
    var cache: SemanticCache?
    var spec: PromptLookupDecoder?
    var maxDraft: int
    ghost var stored: seq<Token>   // the tokens whose rows the caches hold

    function Net(): Net { tf.node.net }

    function MaxCtx(): nat { tf.node.kv.maxCtx }

    /** The caches hold the rows of `stored`; the committed tokens are a prefix of it, and all of
        it unless a call failed behind its rewind or a draft was rejected. */
    ghost predicate Held()
      reads this`pos, this`committed, this`stored, tf, tf.caches`rows
    {
      && tf.Wired() && pos == |committed| <= |stored| <= MaxCtx() && committed == stored[..pos]
      && tf.AllStore(stored, |stored|)
    }

    /** The next position can be processed: no ring has lost a row it needs. */
    ghost predicate Live()
      reads this`pos, this`committed, this`stored, tf, tf.caches`rows
    {
      Held() && (pos == 0 || tf.RingsAllow(pos, |stored|))
    }

    lemma {:induction false} LiveServes(toks: seq<Token>)
      requires Live() && pos <= |toks| && toks[..pos] == committed
      ensures tf.AllServe(toks, pos)
    {
      tf.AllStoreRewound(stored, toks, |stored|, pos);
    }

    /** Everything the caches hold is committed. */
    ghost method Record()
      requires tf.Wired() && pos == |committed| <= MaxCtx() && tf.AllStore(committed, pos)
      modifies this`stored
      ensures Live() && stored == committed
    {
      stored := committed;
      assert stored[..pos] == committed;
    }

    constructor (w: World<E>, tf: Transformer)
      requires tf.Wired()
      ensures this.w == w && this.tf == tf && Live() && stored == []
      ensures pos == 0 && committed == [] && !reuse && cache == null && spec == null
    {
      this.w, this.tf := w, tf;
      pos, committed, reuse, cache, spec, maxDraft, stored := 0, [], false, null, null, 0, [];
    }

    /** Forgets the conversation, whatever state a failed call left. */
    method Reset()
      requires tf.Wired()
      modifies this`pos, this`committed, this`stored, tf.node.kv`seqLen
      ensures Live() && pos == 0 && stored == [] && tf.node.kv.seqLen == 0
    {
      tf.node.kv.SetSeqLen(0);
      pos, committed, stored := 0, [], [];
      tf.AllStoreNothing(committed);
    }

    /** A new semantic cache is one of this network's rows. */
    method EnableSemanticCache(maxBytes: nat, kvDim: nat)
      modifies this`cache
      ensures cache != null && CacheFits(cache)
      ensures old(cache) != null ==> cache == old(cache)
      ensures old(cache) == null ==> fresh(cache) && fresh(cache.nodes) && cache.cover == map[] && cache.maxBytes == maxBytes
      ensures old(cache) == null ==> cache.kvDim == kvDim
      requires cache != null ==> CacheFits(cache)
    {
      if cache == null {
        ghost var net := tf.node.net;
        cache := new SemanticCache(maxBytes, tf.node.net.layers, kvDim,
                                   (q: seq<Token>, l: nat) => if q == [] then Row([], []) else RowAt(net, q, l, |q| - 1));
      }
    }

    /** Switches prompt lookup on, for layers of any kind. */
    method EnableSpeculativeDecoding(maxDraft: int)
      modifies this`spec, this`maxDraft
      ensures spec != null && (old(spec) != null ==> spec == old(spec) && this.maxDraft == old(this.maxDraft))
      ensures old(spec) == null ==> fresh(spec) && spec.minNgram == 2 && spec.maxNgram == 5 && this.maxDraft == maxDraft
    {
      if spec == null {
        spec := new PromptLookupDecoder();
        this.maxDraft := maxDraft;
      }
    }

    // ---- plain decoding ------------------------------------------------------------

    /** One decode step: the pending token goes through every layer. */
    method PlainStep(env: E) returns (env': E, next: Token)
      requires tf.Wired() && pos + 1 == |committed| <= MaxCtx() && tf.AllServe(committed, pos)
      modifies this`pos, this`stored, tf.caches`rows, tf.caches`seqLen
      ensures Live() && stored == committed && tf.node.kv.seqLen == pos
      ensures (env', next) == w.sample(env, Logits(Net(), committed))
    {
      var logits := tf.Forward(committed[pos], pos, committed);
      pos := pos + 1;
      Record();
      var r := w.sample(env, logits);
      env', next := r.0, r.1;
    }

    // ---- speculative decoding ------------------------------------------------------

    /** What the verify pass still owes: the outcome of plain decoding from here, behind what
        has been streamed. */
    ghost function Owed(env: E, out: seq<Token>, toks: seq<Token>, left: int): Outcome<E>
      requires toks != []
    {
      Prepend(out, Predict(w, Net(), MaxCtx(), env, toks, left))
    }

    /** The same when `next` has been sampled; -1 when decoding is over. */
    ghost function OwedNext(env: E, out: seq<Token>, toks: seq<Token>, next: int, left: int): Outcome<E> {
      if next < 0 then Done(env, out, toks)
      else Prepend(out, Decode(w, Net(), MaxCtx(), env, toks, next, left))
    }

    lemma {:induction false} OwedSampled(env: E, out: seq<Token>, toks: seq<Token>, left: int)
      requires toks != []
      ensures var s := w.sample(env, Logits(Net(), toks)); OwedNext(s.0, out, toks, s.1, left) == Owed(env, out, toks, left)
    {
    }

    lemma {:induction false} OwedTurn(env: E, out: seq<Token>, toks: seq<Token>, next: Token, left: int)
      ensures OwedNext(env, out, toks, next, left) ==
              if left <= 0 || w.isEog(next) || |toks| >= MaxCtx() then Done(env, out, toks)
              else if w.emit(env, next).1 then Owed(w.emit(env, next).0, out + [next], toks + [next], left - 1)
              else Done(w.emit(env, next).0, out + [next], toks)
    {
      DecodeTurn(w, Net(), MaxCtx(), env, toks, next, left, out);
    }

    lemma {:induction false} OwedOver(env: E, out: seq<Token>, toks: seq<Token>, next: int, left: int)
      requires next < 0
      ensures OwedNext(env, out, toks, next, left) == Done(env, out, toks)
    {
    }

    /** Walks the logits of a verified batch: samples at every position, streams the draft
        tokens that the sampler agrees with, and stops at the first it does not. */
    method Verify(env: E, draft: seq<Token>, logits: seq<Vec>, n: int, maxNew: int, out: seq<Token>)
      returns (env': E, next: int, n': int, out': seq<Token>)
      requires pos + 1 == |committed| && pos + |draft| < MaxCtx() && n + |draft| <= maxNew
      requires |logits| == |draft| + 1
      requires forall i: nat | i <= |draft| :: logits[i] == Logits(Net(), (committed + draft)[..pos + i + 1])
      modifies this`pos, this`committed, tf.node.kv`seqLen
      ensures pos == |committed| && old(pos) < pos <= old(pos) + |draft| + 1
      ensures old(tf.node.kv.seqLen) == old(pos) + |draft| + 1 && next >= 0 ==> tf.node.kv.seqLen == pos
      ensures committed == (old(committed) + draft)[..pos]
      ensures n <= n' <= maxNew && pos - old(pos) - 1 == n' - n
      ensures draft != [] && w.sample(env, logits[0]).1 != draft[0] ==> pos == old(pos) + 1 && next == w.sample(env, logits[0]).1
      ensures OwedNext(env', out', committed, next, maxNew - n') == Owed(env, out, old(committed), maxNew - n)
    {
      hide *;
      ghost var full := committed + draft;
      env', n', out' := env, n, out;
      var i := 0;
      while true
        invariant i <= |draft| && pos == old(pos) + i && n' == n + i && tf.node.kv.seqLen == old(tf.node.kv.seqLen)
        invariant committed == full[..pos + 1]
        invariant if i == 0 then env' == env else w.sample(env, logits[0]).1 == draft[0]
        invariant Owed(env', out', committed, maxNew - n') == Owed(env, out, old(committed), maxNew - n)
        decreases |draft| - i
      {
        OwedSampled(env', out', committed, maxNew - n');
        var r := w.sample(env', logits[i]);
        env' := r.0;
        var sampled := r.1;
        pos := pos + 1;
        next := sampled;
        if i == |draft| {
          return;
        }
        if sampled != draft[i] {
          tf.node.kv.SetSeqLen(pos);
          return;
        }
        OwedTurn(env', out', committed, sampled, maxNew - n');
        if w.isEog(draft[i]) || n' >= maxNew {
          next := -1;
          OwedOver(env', out', committed, next, maxNew - n');
          return;
        }
        var e := w.emit(env', draft[i]);
        env' := e.0;
        out' := out' + [draft[i]];
        if !e.1 {
          next := -1;
          OwedOver(env', out', committed, next, maxNew - n');
          return;
        }
        committed := committed + [draft[i]];
        n' := n' + 1;
        i := i + 1;
      }
    }

    /** A draft of `d` tokens behind `at` positions that can be rejected anywhere. */
    ghost predicate DraftSafe(at: nat, d: nat) {
      d < 2 || tf.NeverLoses(at + 1 + d)
    }

    /** One batch: the pending token and its draft in one sweep, then the walk. On any rings it owes
        what plain decoding owes; the next position can be processed if the draft was safe. */
    method SpecStep(env: E, draft: seq<Token>, n: int, maxNew: int, out: seq<Token>)
      returns (env': E, next: int, n': int, out': seq<Token>)
      requires tf.Wired() && tf.remote == []
      requires pos + 1 == |committed| && pos + |draft| < MaxCtx() && n + |draft| <= maxNew
      requires tf.AllServe(committed, pos)
      modifies this`pos, this`committed, this`stored, tf.caches`rows, tf.caches`seqLen
      ensures Held() && stored == old(committed) + draft && old(pos) < pos && (next >= 0 ==> tf.node.kv.seqLen == pos)
      ensures n <= n' <= maxNew && |committed| - old(|committed|) == n' - n
      ensures DraftSafe(old(pos), |draft|) ==> Live()
      ensures var r := w.sample(env, Logits(Net(), old(committed))).1;
              draft != [] && r != draft[0] ==> pos == old(pos) + 1 && next == r
      ensures OwedNext(env', out', committed, next, maxNew - n') == Owed(env, out, old(committed), maxNew - n)
    {
      ghost var full := committed + draft;
      var batch := [committed[pos]] + draft;
      assert full[pos..] == batch;
      tf.AllServeExtended(committed, full, pos);
      var logits := tf.SpecForward(batch, pos, full);
      assert full[..pos + 1] == committed;
      env', next, n', out' := Verify(env, draft, logits, n, maxNew, out);
      stored := full;
      if DraftSafe(old(pos), |draft|) {
        DraftKeeps(old(pos), |draft|);
      }
    }

    lemma {:induction false} DraftKeeps(at: nat, d: nat)
      requires DraftSafe(at, d) && at < pos
      ensures tf.RingsAllow(pos, at + 1 + d)
    {
    }

    // ---- the decode loop -----------------------------------------------------------

    /** Proposes a draft, or none when speculation is off or too close to a limit. */
    method Propose(n: int, maxNew: int) returns (draft: seq<Token>)
      ensures draft != [] ==> spec != null && |draft| <= maxDraft && pos + |draft| < MaxCtx() && n + |draft| <= maxNew
      ensures spec != null && n < maxNew && pos + maxDraft < MaxCtx() ==>
                Drafted(committed, spec.minNgram, spec.maxNgram, if maxDraft < maxNew - n then maxDraft else maxNew - n, draft)
    {
      draft := [];
      if spec != null && n < maxNew && pos + maxDraft < MaxCtx() {
        draft := spec.Draft(committed, if maxDraft < maxNew - n then maxDraft else maxNew - n);
      }
    }

    /** At most `most` positions, and no more than the context has. */
    function Limit(most: int): int {
      if most < MaxCtx() then most else MaxCtx()
    }

    /** Speculation, if it is on, is safe up to `most` positions: drafts have at most one token, or no
        ring that looks back wraps before. */
    ghost predicate Speculates(most: int)
      reads this`spec, this`maxDraft, tf`remote
    {
      spec != null ==> tf.remote == [] && (maxDraft < 2 || tf.NeverLoses(Limit(most)))
    }

    /** A streamed token becomes part of the context. */
    method Push(token: Token)
      requires Live() && pos < MaxCtx()
      modifies this`committed
      ensures tf.Wired() && pos + 1 == |committed| <= MaxCtx() && tf.AllServe(committed, pos)
      ensures committed == old(committed) + [token]
    {
      LiveServes(committed + [token]);
      committed := committed + [token];
    }

    lemma {:induction false} DraftIsSafe(d: nat, most: int)
      requires Speculates(most) && spec != null && d <= maxDraft
      requires pos + d < MaxCtx() && pos + 1 + d <= most
      ensures DraftSafe(pos, d) && tf.remote == []
    {
    }

    lemma {:induction false} LimitIs(n: int, most: int)
      requires n <= most && n <= MaxCtx()
      ensures n <= Limit(most)
    {
    }

    /** A streamed token joins the context; then one plain or speculative step. */
    method Advance(env: E, token: Token, n: int, maxNew: int, out: seq<Token>, ghost most: int)
      returns (env': E, next: int, n': int, out': seq<Token>)
      requires Live() && Speculates(most) && pos < MaxCtx() && n < maxNew && pos + (maxNew - n) <= most
      modifies this`pos, this`committed, this`stored, tf.caches`rows, tf.caches`seqLen
      ensures Live() && n < n' <= maxNew && pos + (maxNew - n') <= most
      ensures |stored| <= Limit(most) && (spec == null ==> stored == committed)
      ensures OwedNext(env', out', committed, next, maxNew - n') == Owed(env, out, old(committed) + [token], maxNew - n - 1)
    {
      hide *;
      LiveIs();
      Push(token);
      n', out' := n + 1, out;
      OwedSampled(env, out, committed, maxNew - n');
      var draft := Propose(n', maxNew);
      if draft == [] {
        env', next := PlainStep(env);
      } else {
        DraftIsSafe(|draft|, most);
        env', next, n', out' := SpecStep(env, draft, n', maxNew, out);
      }
      LiveIs();
      LimitIs(|stored|, most);
    }

    lemma {:induction false} HeldIs()
      requires Held()
      ensures tf.Wired() && tf.node.kv in tf.caches && pos == |committed|
    {
    }

    lemma {:induction false} LiveIs()
      requires Live()
      ensures Held() && pos == |committed| <= |stored| <= MaxCtx()
    {
    }

    /** Nothing streamed yet. */
    lemma {:induction false} OwedFirst(env: E, toks: seq<Token>, next: Token, left: int)
      ensures OwedNext(env, [], toks, next, left) == Decode(w, Net(), MaxCtx(), env, toks, next, left)
    {
      var o := Decode(w, Net(), MaxCtx(), env, toks, next, left);
      assert o.Done? ==> [] + o.out == o.out;
    }

    /** The decode loop, plain or speculative, is plain decoding. */
    method DecodeLoop(env: E, first: Token, maxNew: int) returns (env': E, out: seq<Token>)
      requires Live() && stored == committed && Speculates(|committed| + maxNew)
      modifies this`pos, this`committed, this`stored, tf.caches`rows, tf.caches`seqLen
      ensures Live() && (spec == null ==> stored == committed)
      ensures stored == old(stored) || |stored| <= Limit(old(|committed|) + maxNew)
      ensures Done(env', out, committed) == Decode(w, Net(), MaxCtx(), env, old(committed), first, maxNew)
    {
      hide *;
      LiveIs();
      ghost var goal := Decode(w, Net(), MaxCtx(), env, committed, first, maxNew);
      ghost var most := pos + maxNew;
      OwedFirst(env, committed, first, maxNew);
      env', out := env, [];
      var next: int, n := first, 0;
      while n < maxNew
        invariant Live() && pos == |committed| && pos + (maxNew - n) <= most
        invariant (spec == null ==> stored == committed) && (stored == old(stored) || |stored| <= Limit(most))
        invariant OwedNext(env', out, committed, next, maxNew - n) == goal
        decreases maxNew - n
      {
        if next < 0 {
          break;
        }
        OwedTurn(env', out, committed, next, maxNew - n);
        if w.isEog(next) || pos >= MaxCtx() {
          break;
        }
        var e := w.emit(env', next);
        env', out := e.0, out + [next];
        if !e.1 {
          next := -1;
          OwedOver(env', out, committed, next, maxNew - n);
          break;
        }
        env', next, n, out := Advance(env', next, n, maxNew, out, most);
        LiveIs();
      }
      if next >= 0 {
        OwedTurn(env', out, committed, next, maxNew - n);
      } else {
        OwedOver(env', out, committed, next, maxNew - n);
      }
    }

    // ---- prefix reuse --------------------------------------------------------------

    /** Rings of layers that run elsewhere and can lose rows are no smaller than some ring kept here,
        so that the local check of a rewind speaks for them. */
    ghost predicate RemoteRingsCovered() {
      Covered(tf.node.kv.ring, tf.Rings(), MaxCtx())
    }

    /** The position a call with this prompt goes on from. */
    ghost function From(prompt: seq<Token>): nat
      reads this`pos, this`committed, this`reuse
    {
      if reuse then RewindTo(tf.node.kv.ring, committed, prompt) else pos
    }

    /** The caches still hold what this prompt needs. */
    ghost predicate Servable(prompt: seq<Token>)
      reads this`pos, this`committed, this`reuse, this`stored
    {
      From(prompt) == 0 || tf.RingsAllow(From(prompt), |stored|)
    }

    /** Whatever happened before, a prompt can be served exactly if no ring of any machine has lost
        a row it needs. */
    lemma {:induction false} ServableIff(prompt: seq<Token>)
      ensures Servable(prompt) <==> !Lost(tf.Rings(), From(prompt), |stored|)
    {
      RingsAre(From(prompt), |stored|);
    }

    lemma {:induction false} RingsAre(r: nat, n: nat)
      ensures tf.RingsAllow(r, n) <==> forall l | 0 <= l < |tf.Rings()| :: RowsLeft(tf.Rings()[l], r, n)
    {
      var rings := tf.Rings();
      assert forall l: nat | l < tf.node.net.layers :: rings[l] == tf.node.net.ring(l);
    }

    /** Behind a successful call with reuse a prompt cannot be served exactly if it keeps some tokens,
        at least two fewer than are committed, no ring of this machine has wrapped, and one
        elsewhere has. */
    lemma {:induction false} UnservableIff(prompt: seq<Token>)
      requires Held() && pos == |stored| && reuse
      ensures !Servable(prompt) <==> Unguarded(tf.node.kv.ring, tf.Rings(), committed, prompt)
    {
      ServableIff(prompt);
      UnguardedIff(tf.node.kv.ring, tf.Rings(), committed, prompt);
    }

    /** Behind a successful call every prompt can be served, if the local rings cover the others. */
    lemma {:induction false} SyncedServes(prompt: seq<Token>)
      requires Held() && pos == |stored| && (reuse ==> RemoteRingsCovered())
      ensures Servable(prompt)
    {
      ServableIff(prompt);
      if reuse && From(prompt) > 0 {
        assert CanRewind(tf.node.kv.ring, From(prompt), |stored|);
        GuardSpeaksIff(tf.node.kv.ring, tf.Rings(), MaxCtx());
      } else {
        RingsAre(pos, pos);
      }
    }

    /** At the start of a conversation as well. */
    lemma {:induction false} FreshServes(prompt: seq<Token>)
      requires Held() && committed == []
      ensures Servable(prompt)
    {
    }

    /** Behind a call that left every ring unwrapped, too. */
    lemma {:induction false} UnwrappedServes(prompt: seq<Token>)
      requires tf.Unwrapped(|stored|)
      ensures Servable(prompt)
    {
    }

    /** Every machine's part of a model with all layers here. */
    lemma {:induction false} AloneIsCovered()
      requires tf.Wired() && tf.remote == []
      ensures RemoteRingsCovered()
    {
      var rings := tf.Rings();
      forall l | 0 <= l < |rings| && 1 < rings[l] < MaxCtx()
        ensures NoLarger(tf.node.kv.ring, rings[l])
      {
        assert tf.node.kv.Owns(l) && tf.node.kv.ring[l] == rings[l];
      }
    }

    method CommonPrefix(prompt: seq<Token>) returns (r: nat)
      ensures r == Common(prompt, committed)
    {
      var maxr := if |prompt| < |committed| then |prompt| else |committed|;
      r := 0;
      while r < maxr && prompt[r] == committed[r]
        invariant r <= maxr && prompt[..r] == committed[..r]
      {
        r := r + 1;
      }
      CommonIs(prompt, committed, r);
    }

    /** Keeps the longest common prefix of the committed tokens and the prompt, but never the
        whole prompt, and nothing when a local ring has already lost rows it would need. */
    method Rewind(prompt: seq<Token>) returns (r: nat)
      requires Held() && reuse
      modifies this`pos, this`committed
      ensures r == old(From(prompt)) == pos == |committed| && Held() && committed == prompt[..r]
      ensures old(Servable(prompt)) <==> Live()
    {
      r := CommonPrefix(prompt);
      if r > 0 && r > |prompt| - 1 {
        r := |prompt| - 1;
      }
      assert r == Kept(committed, prompt);
      if !CanRewind(tf.node.kv.ring, r, |committed|) {
        r := 0;
      }
      assert stored[..r] == stored[..pos][..r];
      pos, committed := r, committed[..r];
    }

    // ---- the semantic cache --------------------------------------------------------

    /** The cache stores this network's rows, for every layer, of prefixes this context can hold. */
    ghost predicate CacheFits(c: SemanticCache)
      reads c`lru, c`nodes, c`cover, c`currentBytes, c.nodes`prefix, c.nodes`children, c.nodes`parent
      reads c.nodes`path, c.nodes`kBlock, c.nodes`vBlock, c.nodes`inLru
    {
      && c.Valid() && c.nLayers == tf.node.net.layers && RowsOf(tf.node.net, c.rowOf)
      && forall q | q in c.cover :: |q| <= tf.node.kv.maxCtx
    }

    /** Copies the staged rows over the leading positions, layer by layer. */
    method InjectRows(k: seq<Vec>, v: seq<Vec>, toks: seq<Token>, len: nat, n: nat, ghost rowOf: (seq<Token>, nat) -> Row)
      requires tf.Wired() && tf.remote == [] && tf.Unwrapped(n) && n <= len <= |toks| && n <= tf.node.kv.maxCtx && RowsOf(tf.node.net, rowOf)
      requires Agrees(k, tf.node.net.layers, toks[..len], len, rowOf, Key)
      requires Agrees(v, tf.node.net.layers, toks[..len], len, rowOf, Value)
      modifies tf.node.kv`rows, tf.node.kv`seqLen
      ensures tf.AllStore(toks, n)
    {
      var kv := tf.node.kv;
      for l := 0 to tf.node.net.layers
        invariant forall l': nat | l' < l :: Holds(kv.Layer(l'), tf.node.net, toks, l', 0, n)
      {
        assert kv.Owns(l);
        InjectLayer(l, k, v, toks, len, n, rowOf);
      }
      assert forall l: nat | kv.Owns(l) :: LayerStores(kv, tf.node.net, toks, l, n);
    }

    method InjectLayer(l: nat, k: seq<Vec>, v: seq<Vec>, toks: seq<Token>, len: nat, n: nat, ghost rowOf: (seq<Token>, nat) -> Row)
      requires tf.Wired() && tf.remote == [] && tf.Unwrapped(n) && n <= len <= |toks| && n <= tf.node.kv.maxCtx && RowsOf(tf.node.net, rowOf)
      requires Agrees(k, tf.node.net.layers, toks[..len], len, rowOf, Key)
      requires Agrees(v, tf.node.net.layers, toks[..len], len, rowOf, Value)
      requires l < tf.node.net.layers
      modifies tf.node.kv`rows, tf.node.kv`seqLen
      ensures Holds(tf.node.kv.Layer(l), tf.node.net, toks, l, 0, n)
      ensures forall l': nat | l' != l :: tf.node.kv.Layer(l') == old(tf.node.kv.Layer(l'))
    {
      var kv := tf.node.kv;
      assert kv.Owns(l) && kv.ring[l] == tf.node.net.ring(l);
      var src := Staged(k, v, len, l, n);
      kv.Inject(l, src);
      forall p: nat | p < n
        ensures Fetch(kv.Layer(l), tf.node.net.ring(l), p) == RowAt(tf.node.net, toks, l, p)
      {
        assert kv.Read(l, p) == src[p];
        StagedRow(tf.node.net, k, v, toks, len, l, p, rowOf);
      }
    }

    /** The staged blocks hold the rows of the matched prefix. */
    ghost predicate Stages(f: Lookup, prompt: seq<Token>, rowOf: (seq<Token>, nat) -> Row)
      requires f.Found?
    {
      && f.matched <= |prompt| && f.matched <= tf.node.kv.maxCtx && RowsOf(tf.node.net, rowOf)
      && Agrees(f.k, tf.node.net.layers, prompt[..f.matched], f.matched, rowOf, Key)
      && Agrees(f.v, tf.node.net.layers, prompt[..f.matched], f.matched, rowOf, Value)
    }

    method LookUp(prompt: seq<Token>) returns (f: Lookup)
      requires cache != null && CacheFits(cache)
      modifies cache`lru, cache.nodes`inLru
      ensures f.Found? && CacheFits(cache) && f.matched == LongestIn(cache.cover.Keys, prompt) && Stages(f, prompt, cache.rowOf)
    {
      var matched, outK, outV := cache.FindLongestPrefix(prompt);
      LongestIs(cache.cover.Keys, prompt, matched);
      f := Found(matched, outK[..], outV[..]);
      assert matched > 0 ==> prompt[..matched] in cache.cover;
    }

    /** The longest stored prefix, less the last prompt token, if that is more than `r`. */
    static function CapHit(matched: nat, prompt: seq<Token>, r: nat): nat {
      var usable: int := if matched < |prompt| - 1 then matched else |prompt| - 1;
      if usable > r then usable else 0
    }

    /** Takes the cached prefix of the prompt, less its last token, when it is longer than
        what is already there. `hit` counts its tokens. */
    method InjectCached(prompt: seq<Token>, r: nat, f: Lookup, ghost rowOf: (seq<Token>, nat) -> Row)
      returns (r': nat, hit: nat)
      requires Live() && tf.remote == [] && f.Found? && Stages(f, prompt, rowOf) && tf.Unwrapped(Limit(|prompt|))
      modifies this`pos, this`committed, this`stored, tf.node.kv`rows, tf.node.kv`seqLen
      ensures Live() && hit == CapHit(f.matched, prompt, r)
      ensures hit == 0 ==> r' == r && pos == old(pos) && committed == old(committed) && stored == old(stored)
      ensures hit > 0 ==> hit == r' == pos < |prompt| && stored == committed == prompt[..hit]
    {
      r', hit := r, 0;
      var hitLen := if f.matched < |prompt| - 1 then f.matched else |prompt| - 1;
      if hitLen > r {
        InjectRows(f.k, f.v, prompt, f.matched, hitLen, rowOf);
        pos, committed := hitLen, prompt[..hitLen];
        r', hit := hitLen, hitLen;
        tf.AllStoreExtended(prompt, committed, hit);
        Record();
      }
    }

    // ---- a whole call --------------------------------------------------------------

    ghost function TheCache(): set<SemanticCache>
      reads this`cache
    {
      if cache == null then {} else {cache}
    }

    ghost function CacheNodes(): set<RadixNode>
      reads this`cache, TheCache()`nodes
    {
      if cache == null then {} else cache.nodes
    }

    ghost predicate Supported()
      reads this`spec, this`cache, this`reuse
      reads TheCache()`lru, TheCache()`nodes, TheCache()`cover, TheCache()`currentBytes
      reads CacheNodes()`prefix, CacheNodes()`children, CacheNodes()`parent
      reads CacheNodes()`path, CacheNodes()`kBlock, CacheNodes()`vBlock, CacheNodes()`inLru
    {
      cache != null ==> CacheFits(cache)
    }

    /** Every prefix the semantic cache holds. */
    ghost function StoredPrefixes(): set<seq<Token>>
      reads this`cache, TheCache()`cover
    {
      if cache == null then {} else cache.cover.Keys
    }

    lemma {:induction false} StoredClosed()
      requires cache != null ==> CacheFits(cache)
      ensures PrefixClosed(StoredPrefixes())
    {
      forall q: seq<Token>, j: nat | q in StoredPrefixes() && 0 < j <= |q|
        ensures q[..j] in StoredPrefixes()
      {
        cache.PrefixStored(q, j);
      }
    }

    /** Without reuse the prompt continues the context; with it, it replaces the context but
        for their common prefix. */
    method Begin(prompt: seq<Token>) returns (r: nat)
      requires Held() && Servable(prompt)
      modifies this`pos, this`committed
      ensures r == (if reuse then old(From(prompt)) else 0) && pos == old(From(prompt))
      ensures r <= |prompt| && (prompt != [] ==> r < |prompt|) && Live()
      ensures committed + prompt[r..] == (if reuse then [] else old(committed)) + prompt
    {
      if reuse {
        r := Rewind(prompt);
      } else {
        r := 0;
        assert committed + prompt[0..] == committed + prompt;
      }
    }

    /** Seeds the sampler's history with the prompt. */
    method Accept(env: E, prompt: seq<Token>) returns (env': E)
      ensures env' == AcceptAll(w, env, prompt)
    {
      env' := env;
      for i := 0 to |prompt|
        invariant env' == AcceptAll(w, env, prompt[..i])
      {
        assert prompt[..i + 1][..i] == prompt[..i];
        env' := w.accept(env', prompt[i]);
      }
      assert prompt[..|prompt|] == prompt;
    }

    /** Processes the rest of the prompt in one batch and samples the first token. */
    method PrefillPrompt(env: E, prompt: seq<Token>, r: nat) returns (ok: bool, env': E, next: Token)
      requires r < |prompt| && Live()
      modifies this`pos, this`committed, this`stored, tf.caches`rows, tf.caches`seqLen
      ensures Live() && (ok <==> |old(committed) + prompt[r..]| <= MaxCtx())
      ensures ok ==> stored == committed == old(committed) + prompt[r..] && tf.node.kv.seqLen == pos
      ensures ok ==> (env', next) == w.sample(AcceptAll(w, env, prompt), Logits(Net(), committed))
      ensures !ok ==> pos == old(pos) && committed == old(committed) && stored == old(stored)
    {
      ok, env', next := false, env, 0;
      var rest := prompt[r..];
      if pos + |rest| - 1 >= MaxCtx() {
        return;
      }
      ghost var toks := committed + rest;
      assert toks[pos..] == rest;
      LiveServes(toks);
      var logits := tf.Prefill(rest, pos, toks);
      pos := pos + |rest|;
      env' := Accept(env, prompt);
      committed := committed + rest;
      Record();
      var s := w.sample(env', logits);
      ok, env', next := true, s.0, s.1;
    }

    /** The semantic cache now stores every prefix of `toks`, if it has room for them, and
        nothing else that is new. */
    static ghost predicate Grown(c: SemanticCache, was: set<seq<Token>>, toks: seq<Token>)
      reads c`cover
    {
      var now, all := c.cover.Keys, was + Ends(toks, 0, |toks|);
      now <= all && (c.maxBytes > 0 && |all| * c.TokenBytes() <= c.maxBytes ==> now == all)
    }

    static lemma {:induction false} GrownByNothing(c: SemanticCache)
      ensures Grown(c, c.cover.Keys, [])
    {
      assert Ends([], 0, 0) == {};
    }

    /** The cache behind a call. */
    static ghost predicate Cached(c: SemanticCache, was: set<seq<Token>>, o: Outcome<E>)
      reads c`cover
    {
      if o.Done? then Grown(c, was, o.committed) else c.cover.Keys == was
    }

    /** An unwrapped cache returns the row of every committed position. */
    lemma {:induction false} CommittedRow(l: nat, p: nat)
      requires Held() && tf.remote == [] && tf.Unwrapped(|stored|) && l < tf.node.net.layers && p < |committed|
      ensures tf.node.kv.Owns(l) && tf.node.kv.Read(l, p) == RowAt(tf.node.net, committed[..p + 1], l, p)
    {
      var kv := tf.node.kv;
      assert kv.Owns(l) && LayerStores(kv, tf.node.net, stored, l, |stored|);
      assert committed[..p + 1] == stored[..p + 1];
      RowCausal(tf.node.net, stored, committed[..p + 1], l, p);
    }

    static lemma {:induction false} CachedIs(c: SemanticCache, was: set<seq<Token>>, o: Outcome<E>)
      requires if o.Done? then Grown(c, was, o.committed) else c.cover.Keys == was
      ensures Cached(c, was, o)
    {
    }

    /** The row a machine with these rings reads for position `p` of layer `l`. */
    static function StoredRow(rows: map<nat, map<nat, Row>>, rings: seq<nat>, l: nat, p: nat): Row {
      Fetch(if l in rows then rows[l] else map[], if l < |rings| then rings[l] else 0, p)
    }

    lemma {:induction false} CommittedWanted(l: nat, p: nat, s: Side)
      requires Held() && cache != null && CacheFits(cache) && tf.remote == [] && tf.Unwrapped(|stored|)
      requires l < cache.nLayers && p < |committed|
      ensures Half(StoredRow(tf.node.kv.rows, tf.node.kv.ring, l, p), s) == Wanted(cache.rowOf, committed, p, l, s)
    {
      CommittedRow(l, p);
    }

    lemma {:induction false} StillFits(was: set<seq<Token>>)
      requires Held() && cache != null && cache.Valid() && cache.nLayers == tf.node.net.layers && RowsOf(tf.node.net, cache.rowOf)
      requires (forall q | q in was :: |q| <= tf.node.kv.maxCtx) && cache.cover.Keys <= was + Ends(committed, 0, |committed|)
      ensures CacheFits(cache)
    {
    }

    lemma {:induction false} FitsIs()
      requires cache != null && CacheFits(cache)
      ensures cache.Valid() && cache.nLayers == tf.node.net.layers && RowsOf(tf.node.net, cache.rowOf)
      ensures forall q | q in cache.cover.Keys :: |q| <= tf.node.kv.maxCtx
    {
    }

    lemma {:induction false} HasGrown(was: set<seq<Token>>)
      requires cache != null && cache.cover.Keys <= was + Ends(committed, 0, |committed|)
      requires committed != [] && cache.maxBytes > 0 && |was + Ends(committed, 0, |committed|)| * cache.TokenBytes() <= cache.maxBytes
               ==> cache.cover.Keys == was + Ends(committed, 0, |committed|)
      requires committed != []
      ensures Grown(cache, was, committed)
    {
    }

    /** Hands every committed row to the semantic cache. */
    method CommitRows()
      requires Held() && cache != null && CacheFits(cache) && tf.remote == [] && pos > 0 && tf.Unwrapped(|stored|)
      modifies cache`lru, cache`currentBytes, cache`nodes, cache`cover
      modifies cache.nodes`prefix, cache.nodes`children, cache.nodes`parent, cache.nodes`kBlock, cache.nodes`vBlock, cache.nodes`inLru
      ensures CacheFits(cache) && Grown(cache, old(cache.cover.Keys), committed) && fresh(cache.nodes - old(cache.nodes))
    {
      hide *;
      HeldIs();
      FitsIs();
      var rows, rings := tf.node.kv.rows, tf.node.kv.ring;
      var kFn := (l: nat, p: nat) => Half(StoredRow(rows, rings, l, p), Key);
      var vFn := (l: nat, p: nat) => Half(StoredRow(rows, rings, l, p), Value);
      forall l: nat, p: nat | l < cache.nLayers && p < |committed|
        ensures kFn(l, p) == Wanted(cache.rowOf, committed, p, l, Key) && vFn(l, p) == Wanted(cache.rowOf, committed, p, l, Value)
      {
        CommittedWanted(l, p, Key);
        CommittedWanted(l, p, Value);
      }
      ghost var was := cache.cover.Keys;
      ghost var full := cache.Commit(committed, kFn, vFn);
      StillFits(was);
      HasGrown(was);
    }

    /** Prefill and decode: the outcome is plain, seen from what Begin left. */
    method Run(env: E, prompt: seq<Token>, r: nat, maxNew: int, ghost base: seq<Token>) returns (o: Outcome<E>)
      requires r <= |prompt| && (prompt != [] ==> r < |prompt|) && Live()
      requires base + prompt == committed + prompt[r..] && Speculates(|base| + |prompt| + maxNew)
      modifies this`pos, this`committed, this`stored, tf.caches`rows, tf.caches`seqLen
      ensures o == Plain(w, Net(), MaxCtx(), env, base, prompt, maxNew) && !o.Refused? && Live()
      ensures o.Done? ==> committed == o.committed
      ensures prompt != [] && o.Done? ==> |stored| <= Limit(|base| + |prompt| + Positive(maxNew)) && (spec == null ==> stored == committed)
      ensures prompt == [] || o.Exceeded? ==> pos == old(pos) && stored == old(stored)
    {
      assert |base| + |prompt| == |base + prompt| == |committed + prompt[r..]|;
      if |prompt| == r {
        assert base + prompt == base && committed + prompt[r..] == committed;
        return Done(env, [], committed);
      }
      var ok, env', next := PrefillPrompt(env, prompt, r);
      if !ok {
        return Exceeded;
      }
      var out;
      env', out := DecodeLoop(env', next, maxNew);
      o := Done(env', out, committed);
    }

    static function Positive(n: int): nat { if n > 0 then n else 0 }

    /** Everything but the semantic cache itself: `found` is what a lookup of the prompt staged,
        `base` the context the prompt then continues. */
    method Answer(env: E, prompt: seq<Token>, found: Lookup, maxNew: int, ghost rowOf: (seq<Token>, nat) -> Row, ghost base: seq<Token>)
      returns (o: Outcome<E>, hit: nat)
      requires Held() && Servable(prompt) && Speculates(|base| + |prompt| + maxNew)
      requires found.Found? ==> tf.remote == [] && Stages(found, prompt, rowOf) && tf.Unwrapped(Limit(|prompt|))
      requires base == if reuse || (found.Found? && CapHit(found.matched, prompt, 0) > 0) then [] else committed
      modifies this`pos, this`committed, this`stored, tf.caches`rows, tf.caches`seqLen
      ensures o == Plain(w, Net(), MaxCtx(), env, base, prompt, maxNew)
      ensures Live() && !o.Refused? && (o.Done? ==> committed == o.committed)
      ensures hit == if found.Found? then CapHit(found.matched, prompt, if reuse then old(From(prompt)) else 0) else 0
      ensures prompt != [] && o.Done? ==> |stored| <= Limit(|base| + |prompt| + Positive(maxNew)) && (spec == null ==> stored == committed)
      ensures prompt == [] ==> stored == old(stored)
      ensures o.Exceeded? && !found.Found? ==> stored == old(stored) && pos == old(From(prompt))
    {
      hide *;
      HeldIs();
      hit := 0;
      var done := Begin(prompt);
      if found.Found? {
        done, hit := InjectCached(prompt, done, found, rowOf);
        assert hit > 0 ==> committed + prompt[done..] == prompt && [] + prompt == prompt;
      }
      o := Run(env, prompt, done, maxNew, base);
    }

    /** Answers from what a lookup staged, and commits the outcome to the cache. */
    method AnswerCached(env: E, prompt: seq<Token>, found: Lookup, maxNew: int, ghost base: seq<Token>) returns (o: Outcome<E>, hit: nat)
      requires Held() && Servable(prompt) && tf.remote == [] && Speculates(|base| + |prompt| + maxNew)
      requires cache != null && CacheFits(cache) && found.Found? && Stages(found, prompt, cache.rowOf)
      requires base == if reuse || CapHit(found.matched, prompt, 0) > 0 then [] else committed
      requires tf.Unwrapped(|stored|) && tf.Unwrapped(Limit(|base| + |prompt| + Positive(maxNew)))
      modifies this`pos, this`committed, this`stored, tf.caches`rows, tf.caches`seqLen
      modifies cache`lru, cache`currentBytes, cache`nodes, cache`cover
      modifies cache.nodes`prefix, cache.nodes`children, cache.nodes`parent, cache.nodes`kBlock, cache.nodes`vBlock, cache.nodes`inLru
      ensures Live() && CacheFits(cache) && !o.Refused? && (o.Done? ==> committed == o.committed)
      ensures prompt != [] && o.Done? ==> |stored| <= Limit(|base| + |prompt| + Positive(maxNew)) && (spec == null ==> stored == committed)
      ensures o == Plain(w, Net(), MaxCtx(), env, base, prompt, maxNew)
      ensures hit == CapHit(found.matched, prompt, if reuse then old(From(prompt)) else 0)
      ensures Cached(cache, old(cache.cover.Keys), o) && fresh(cache.nodes - old(cache.nodes))
    {
      hide *;
      HeldIs();
      Shrinks(|base| + |prompt| + Positive(maxNew), |prompt|);
      o, hit := Answer(env, prompt, found, maxNew, cache.rowOf, base);
      LiveIs();
      if o.Done? && pos > 0 {
        if prompt != [] {
          Shorter(Limit(|base| + |prompt| + Positive(maxNew)), |stored|);
        }
        CommitRows();
      } else {
        GrownByNothing(cache);
      }
      CachedIs(cache, old(cache.cover.Keys), o);
    }

    lemma {:induction false} Shorter(most: int, n: int)
      requires tf.Unwrapped(most) && n <= most
      ensures tf.Unwrapped(n)
    {
    }

    lemma {:induction false} Shrinks(most: int, n: int)
      requires tf.Unwrapped(Limit(most)) && n <= most
      ensures tf.Unwrapped(Limit(n))
    {
    }

    /** A call with the semantic cache switched on. */
    method GenerateCached(env: E, prompt: seq<Token>, maxNew: int) returns (o: Outcome<E>, hit: nat)
      requires Held() && Servable(prompt) && tf.remote == [] && cache != null && CacheFits(cache)
      requires Roomy(prompt, maxNew)
      modifies this`pos, this`committed, this`stored, tf.caches`rows, tf.caches`seqLen
      modifies cache`lru, cache`currentBytes, cache`nodes, cache`cover
      modifies cache.nodes`prefix, cache.nodes`children, cache.nodes`parent, cache.nodes`kBlock, cache.nodes`vBlock, cache.nodes`inLru
      ensures Live() && CacheFits(cache) && !o.Refused? && (o.Done? ==> committed == o.committed)
      ensures prompt != [] && o.Done? ==> |stored| <= old(Most(prompt, maxNew)) && (spec == null ==> stored == committed)
      ensures o == Plain(w, Net(), MaxCtx(), env, old(Context(prompt)), prompt, maxNew)
      ensures hit == HitOf(old(cache.cover.Keys), prompt, if reuse then old(From(prompt)) else 0)
      ensures Cached(cache, old(cache.cover.Keys), o) && fresh(cache.nodes - old(cache.nodes))
    {
      hide *;
      HeldIs();
      ghost var base := Context(prompt);
      MostCovers(prompt, maxNew);
      BaseIs(prompt, maxNew);
      var found := LookUp(prompt);
      HitIs(cache.cover.Keys, prompt, 0);
      HitIs(cache.cover.Keys, prompt, if reuse then From(prompt) else 0);
      o, hit := AnswerCached(env, prompt, found, maxNew, base);
    }

    lemma {:induction false} HitIs(stored: set<seq<Token>>, prompt: seq<Token>, kept: nat)
      ensures HitOf(stored, prompt, kept) == CapHit(LongestIn(stored, prompt), prompt, kept)
    {
    }

    /** The context the prompt continues, from what the runtime is before the call. */
    ghost function Context(prompt: seq<Token>): seq<Token>
      reads this`committed, this`reuse, this`cache, TheCache()`cover
    {
      ContextOf(StoredPrefixes(), reuse, committed, prompt)
    }

    /** The most positions a call can come to. */
    ghost function Most(prompt: seq<Token>, maxNew: int): int
      reads this`committed, this`reuse, this`cache, TheCache()`cover
    {
      Limit(|Context(prompt)| + |prompt| + Positive(maxNew))
    }

    /** The rings suit what is switched on: with the semantic cache none has wrapped or will; with
        drafts of two tokens or more none that looks back will. */
    ghost predicate Roomy(prompt: seq<Token>, maxNew: int)
      reads this`committed, this`reuse, this`cache, this`spec, this`maxDraft, this`stored, TheCache()`cover, tf`remote
    {
      tf.remote == [] ==>
        && (cache != null ==> tf.Unwrapped(|stored|) && tf.Unwrapped(Most(prompt, maxNew)))
        && (spec != null ==> maxDraft < 2 || tf.NeverLoses(Most(prompt, maxNew)))
    }

    lemma {:induction false} MostCovers(prompt: seq<Token>, maxNew: int)
      requires Roomy(prompt, maxNew) && (spec != null ==> tf.remote == [])
      ensures Speculates(|Context(prompt)| + |prompt| + maxNew)
    {
    }

    lemma {:induction false} BaseIs(prompt: seq<Token>, maxNew: int)
      requires Roomy(prompt, maxNew) && cache != null && tf.remote == []
      ensures tf.Unwrapped(|stored|) && tf.Unwrapped(Most(prompt, maxNew))
      ensures Most(prompt, maxNew) == Limit(|Context(prompt)| + |prompt| + Positive(maxNew))
      ensures Context(prompt) == if reuse || HitOf(cache.cover.Keys, prompt, 0) > 0 then [] else committed
    {
    }

    /** One call of the runtime: whatever is switched on, the tokens, the final state of the
        world and the committed context are those of plain decoding; only the context a
        prompt continues depends on reuse and on what the semantic cache holds. */
    method Generate(env: E, encode: bool -> seq<Token>, maxNew: int) returns (o: Outcome<E>, hit: nat)
      requires Held() && Supported() && Servable(encode(reuse || pos == 0)) && Roomy(encode(reuse || pos == 0), maxNew)
      modifies this`pos, this`committed, this`stored, tf.caches`rows, tf.caches`seqLen
      modifies TheCache()`lru, TheCache()`currentBytes, TheCache()`nodes, TheCache()`cover
      modifies CacheNodes()`prefix, CacheNodes()`children, CacheNodes()`parent
      modifies CacheNodes()`kBlock, CacheNodes()`vBlock, CacheNodes()`inLru
      ensures Supported() && Held() && fresh(CacheNodes() - old(CacheNodes()))
      ensures o.Refused? <==> tf.remote != [] && (spec != null || cache != null)
      ensures o.Refused? ==> pos == old(pos) && committed == old(committed) && stored == old(stored)
      ensures !o.Refused? ==>
                var prompt := encode(reuse || old(pos) == 0);
                && o == Plain(w, Net(), MaxCtx(), env, old(Context(prompt)), prompt, maxNew)
                && hit == HitOf(old(StoredPrefixes()), prompt, if reuse then old(From(prompt)) else 0)
                && (prompt != [] && o.Done? ==> |stored| <= old(Most(prompt, maxNew)) && (spec == null ==> stored == committed))
                && (o.Exceeded? && cache == null ==> stored == old(stored) && pos == old(From(prompt)))
                && Live()
      ensures o.Done? ==> committed == o.committed
      ensures cache != null && !o.Refused? ==> Cached(cache, old(StoredPrefixes()), o)
    {
      hide Plain, Held, CacheFits, Cached, HitOf, From, Speculates, LongestIn, Servable;
      if tf.remote != [] && (spec != null || cache != null) {
        return Refused, 0;
      }
      var prompt := encode(reuse || pos == 0);
      if cache == null {
        NothingStored(prompt);
        MostCovers(prompt, maxNew);
        o, hit := Answer(env, prompt, NotFound, maxNew, (_, _) => Row([], []), Context(prompt));
      } else {
        o, hit := GenerateCached(env, prompt, maxNew);
      }
    }

    lemma {:induction false} NothingStored(prompt: seq<Token>)
      ensures forall kept: nat :: HitOf({}, prompt, kept) == 0
    {
    }
  }
}
