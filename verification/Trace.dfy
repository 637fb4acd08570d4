/** What a call does to the world, as a log: the prompt shown to the sampler token by token, then
    samples and streamed tokens in turn. The outcome of plain decoding is the one such a log ends in. */
module Traces {
  import opened Network
  import opened Generation

  datatype Event =
    | Accepted(token: Token)                // a prompt token enters the sampler's history
    | Sampled(logits: Vec, token: Token)
    | Emitted(token: Token, go: bool)

  predicate Happens<E>(w: World<E>, env: E, e: Event) {
    match e
    case Accepted(_) => true
    case Sampled(v, t) => w.sample(env, v).1 == t
    case Emitted(t, go) => w.emit(env, t).1 == go
  }

  function After<E>(w: World<E>, env: E, e: Event): E {
    match e
    case Accepted(t) => w.accept(env, t)
    case Sampled(v, _) => w.sample(env, v).0
    case Emitted(t, _) => w.emit(env, t).0
  }

  /** The states between the events. */
  ghost predicate Leads<E>(w: World<E>, envs: seq<E>, log: seq<Event>) {
    && |envs| == |log| + 1
    && forall i | 0 <= i < |log| :: Happens(w, envs[i], log[i]) && envs[i + 1] == After(w, envs[i], log[i])
  }

  /** Nothing but the prompt's tokens, in order. */
  ghost predicate ShowsPrompt(log: seq<Event>, prompt: seq<Token>) {
    |log| == |prompt| && forall i | 0 <= i < |prompt| :: log[i] == Accepted(prompt[i])
  }

  /** Token `i` is sampled from the logits behind the context and the tokens before it, and then
      streamed; after the last one comes one more sample, unless the callback stopped there. */
  ghost predicate Streams(log: seq<Event>, net: Net, ctx: seq<Token>, out: seq<Token>, stopped: bool)
    requires ctx != []
  {
    && |log| == 2 * |out| + (if stopped then 0 else 1)
    && (forall i | 0 <= i < |out| :: StreamsAt(log, net, ctx, out, stopped, i))
    && (if stopped then out != [] else log[2 * |out|].Sampled? && log[2 * |out|].logits == Logits(net, ctx + out))
  }

  ghost predicate StreamsAt(log: seq<Event>, net: Net, ctx: seq<Token>, out: seq<Token>, stopped: bool, i: nat)
    requires ctx != [] && i < |out| && 2 * |out| <= |log|
  {
    && log[2 * i] == Sampled(Logits(net, ctx + out[..i]), out[i])
    && log[2 * i + 1] == Emitted(out[i], !(stopped && i == |out| - 1))
  }

  /** Every streamed token was allowed, and decoding ended where it had to: the callback stopped, or the
      next token is an end marker or one too many. */
  ghost predicate EndsRight<E>(w: World<E>, log: seq<Event>, maxCtx: nat, ctx: seq<Token>, maxNew: int, out: seq<Token>,
                               committed: seq<Token>, stopped: bool)
    requires |log| == 2 * |out| + (if stopped then 0 else 1)
  {
    && (forall i | 0 <= i < |out| :: i < maxNew && !w.isEog(out[i]) && |ctx| + i < maxCtx)
    && (if stopped then out != [] && committed == ctx + out[..|out| - 1]
        else committed == ctx + out && (|out| >= maxNew || w.isEog(log[2 * |out|].token) || |ctx| + |out| >= maxCtx))
  }

  /** The decoding half of a log. */
  ghost predicate Decoding<E>(w: World<E>, net: Net, maxCtx: nat, ctx: seq<Token>, maxNew: int, o: Outcome<E>,
                              envs: seq<E>, log: seq<Event>, stopped: bool)
    requires ctx != []
  {
    && o.Done? && Leads(w, envs, log) && o.env == envs[|log|]
    && Streams(log, net, ctx, o.out, stopped) && EndsRight(w, log, maxCtx, ctx, maxNew, o.out, o.committed, stopped)
  }

  /** The log of a whole call: the prompt, whole and in order, and then its decoding. */
  ghost predicate Tells<E>(w: World<E>, net: Net, maxCtx: nat, env: E, base: seq<Token>, prompt: seq<Token>, maxNew: int,
                           o: Outcome<E>, envs: seq<E>, log: seq<Event>, stopped: bool)
    requires prompt != []
  {
    && o.Done? && Leads(w, envs, log) && |prompt| <= |log| && envs[0] == env && o.env == envs[|log|]
    && ShowsPrompt(log[..|prompt|], prompt)
    && Streams(log[|prompt|..], net, base + prompt, o.out, stopped)
    && EndsRight(w, log[|prompt|..], maxCtx, base + prompt, maxNew, o.out, o.committed, stopped)
  }

  // ---- the prompt ----------------------------------------------------------------

  lemma {:induction false} PromptShown<E>(w: World<E>, envs: seq<E>, log: seq<Event>, prompt: seq<Token>)
    requires Leads(w, envs, log) && ShowsPrompt(log, prompt)
    ensures envs[|prompt|] == AcceptAll(w, envs[0], prompt)
    decreases |prompt|
  {
    if prompt != [] {
      var n := |prompt| - 1;
      PromptShown(w, envs[..n + 1], log[..n], prompt[..n]);
      assert Happens(w, envs[n], log[n]) && log[n] == Accepted(prompt[n]);
    }
  }

  lemma {:induction false} ShowPrompt<E>(w: World<E>, env: E, prompt: seq<Token>) returns (envs: seq<E>, log: seq<Event>)
    ensures Leads(w, envs, log) && ShowsPrompt(log, prompt) && envs[0] == env
    decreases |prompt|
  {
    if prompt == [] {
      envs, log := [env], [];
    } else {
      var n := |prompt| - 1;
      var envs0, log0 := ShowPrompt(w, env, prompt[..n]);
      envs, log := envs0 + [w.accept(envs0[n], prompt[n])], log0 + [Accepted(prompt[n])];
    }
  }

  // ---- decoding ------------------------------------------------------------------

  /** One token more in front. */
  lemma {:induction false} StreamsMore(log: seq<Event>, net: Net, ctx: seq<Token>, t: Token, rest: seq<Token>, stopped: bool)
    requires ctx != [] && |log| == 2 * |rest| + 2 + (if stopped then 0 else 1) && (stopped ==> rest != [])
    requires log[0] == Sampled(Logits(net, ctx), t) && log[1] == Emitted(t, true)
    ensures Streams(log[2..], net, ctx + [t], rest, stopped) <==> Streams(log, net, ctx, [t] + rest, stopped)
  {
    var out, tail := [t] + rest, log[2..];
    assert ctx + out[..0] == ctx && ctx + [t] + rest == ctx + out;
    forall i | 0 <= i < |rest|
      ensures StreamsAt(tail, net, ctx + [t], rest, stopped, i) <==> StreamsAt(log, net, ctx, out, stopped, i + 1)
    {
      assert ctx + [t] + rest[..i] == ctx + out[..i + 1];
    }
    assert StreamsAt(log, net, ctx, out, stopped, 0);
    if Streams(log, net, ctx, out, stopped) {
      forall i | 0 <= i < |rest|
        ensures StreamsAt(tail, net, ctx + [t], rest, stopped, i)
      {
        assert StreamsAt(log, net, ctx, out, stopped, i + 1);
      }
    }
    if Streams(tail, net, ctx + [t], rest, stopped) {
      forall i | 0 <= i < |out|
        ensures StreamsAt(log, net, ctx, out, stopped, i)
      {
        assert i > 0 ==> StreamsAt(tail, net, ctx + [t], rest, stopped, i - 1);
      }
    }
  }

  lemma {:induction false} EndsMore<E>(w: World<E>, log: seq<Event>, maxCtx: nat, ctx: seq<Token>, maxNew: int, t: Token, rest: seq<Token>,
                                       committed: seq<Token>, stopped: bool)
    requires |log| == 2 * |rest| + 2 + (if stopped then 0 else 1) && (stopped ==> rest != [])
    requires 0 < maxNew && !w.isEog(t) && |ctx| < maxCtx
    ensures EndsRight(w, log[2..], maxCtx, ctx + [t], maxNew - 1, rest, committed, stopped)
            <==> EndsRight(w, log, maxCtx, ctx, maxNew, [t] + rest, committed, stopped)
  {
    var out := [t] + rest;
    assert ctx + [t] + rest == ctx + out;
    if stopped {
      assert ctx + [t] + rest[..|rest| - 1] == ctx + out[..|out| - 1];
    }
    if EndsRight(w, log, maxCtx, ctx, maxNew, out, committed, stopped) {
      forall i | 0 <= i < |rest|
        ensures i < maxNew - 1 && !w.isEog(rest[i]) && |ctx + [t]| + i < maxCtx
      {
        assert out[i + 1] == rest[i];
      }
    }
    if EndsRight(w, log[2..], maxCtx, ctx + [t], maxNew - 1, rest, committed, stopped) {
      forall i | 0 <= i < |out|
        ensures i < maxNew && !w.isEog(out[i]) && |ctx| + i < maxCtx
      {
        assert i > 0 ==> out[i] == rest[i - 1] && i - 1 < maxNew - 1;
      }
    }
  }

  lemma {:induction false} LeadsMore<E>(w: World<E>, envs: seq<E>, log: seq<Event>)
    requires |envs| == |log| + 1 && |log| >= 2
    requires Happens(w, envs[0], log[0]) && envs[1] == After(w, envs[0], log[0])
    requires Happens(w, envs[1], log[1]) && envs[2] == After(w, envs[1], log[1])
    ensures Leads(w, envs[2..], log[2..]) <==> Leads(w, envs, log)
  {
    hide Happens, After;
    if Leads(w, envs[2..], log[2..]) {
      forall i | 0 <= i < |log|
        ensures Happens(w, envs[i], log[i]) && envs[i + 1] == After(w, envs[i], log[i])
      {
        if i >= 2 {
          assert Happens(w, envs[2..][i - 2], log[2..][i - 2]);
        }
      }
    }
  }

  /** A token that is sampled and streamed in front of more decoding. */
  lemma {:induction false} DecodingMore<E>(w: World<E>, net: Net, maxCtx: nat, ctx: seq<Token>, maxNew: int, t: Token, rest: Outcome<E>,
                                           envs: seq<E>, log: seq<Event>, stopped: bool)
    requires ctx != [] && rest.Done? && |envs| == |log| + 1 && |log| == 2 * |rest.out| + 2 + (if stopped then 0 else 1) && (stopped ==> rest.out != [])
    requires log[0] == Sampled(Logits(net, ctx), t) && Happens(w, envs[0], log[0]) && envs[1] == After(w, envs[0], log[0])
    requires log[1] == Emitted(t, true) && Happens(w, envs[1], log[1]) && envs[2] == After(w, envs[1], log[1])
    requires 0 < maxNew && !w.isEog(t) && |ctx| < maxCtx
    ensures Decoding(w, net, maxCtx, ctx + [t], maxNew - 1, rest, envs[2..], log[2..], stopped)
            <==> Decoding(w, net, maxCtx, ctx, maxNew, Prepend([t], rest), envs, log, stopped)
  {
    hide Happens, After, Leads, Streams, EndsRight;
    LeadsMore(w, envs, log);
    StreamsMore(log, net, ctx, t, rest.out, stopped);
    EndsMore(w, log, maxCtx, ctx, maxNew, t, rest.out, rest.committed, stopped);
  }

  lemma {:induction false} DecodingLog<E>(w: World<E>, net: Net, maxCtx: nat, env: E, ctx: seq<Token>, maxNew: int)
    returns (envs: seq<E>, log: seq<Event>, stopped: bool)
    requires ctx != []
    ensures Decoding(w, net, maxCtx, ctx, maxNew, Predict(w, net, maxCtx, env, ctx, maxNew), envs, log, stopped) && envs[0] == env
    decreases maxNew
  {
    var (e1, t) := w.sample(env, Logits(net, ctx));
    var first := Sampled(Logits(net, ctx), t);
    if maxNew <= 0 || w.isEog(t) || |ctx| >= maxCtx {
      assert ctx + [] == ctx;
      return [env, e1], [first], false;
    }
    var (e2, go) := w.emit(e1, t);
    if !go {
      assert ctx + [t][..0] == ctx;
      return [env, e1, e2], [first, Emitted(t, false)], true;
    }
    var envs', log';
    envs', log', stopped := DecodingLog(w, net, maxCtx, e2, ctx + [t], maxNew - 1);
    envs, log := [env, e1] + envs', [first, Emitted(t, true)] + log';
    assert envs[2..] == envs' && log[2..] == log';
    DecodingMore(w, net, maxCtx, ctx, maxNew, t, Predict(w, net, maxCtx, e2, ctx + [t], maxNew - 1), envs, log, stopped);
  }

  /** The first token of a log that streams any. */
  lemma {:induction false} FirstToken<E>(w: World<E>, net: Net, maxCtx: nat, ctx: seq<Token>, maxNew: int, o: Outcome<E>,
                                         envs: seq<E>, log: seq<Event>, stopped: bool)
    requires ctx != [] && Decoding(w, net, maxCtx, ctx, maxNew, o, envs, log, stopped) && o.out != []
    ensures var t := o.out[0];
            && |envs| == |log| + 1 && |log| == 2 * |o.out| + (if stopped then 0 else 1)
            && log[0] == Sampled(Logits(net, ctx), t) && Happens(w, envs[0], log[0]) && envs[1] == After(w, envs[0], log[0])
            && log[1] == Emitted(t, !(stopped && |o.out| == 1)) && Happens(w, envs[1], log[1]) && envs[2] == After(w, envs[1], log[1])
            && 0 < maxNew && !w.isEog(t) && |ctx| < maxCtx
    ensures stopped && |o.out| == 1 ==> o == Done(envs[2], [o.out[0]], ctx)
  {
    hide Happens, After;
    assert StreamsAt(log, net, ctx, o.out, stopped, 0) && ctx + o.out[..0] == ctx;
  }

  lemma {:induction false} NoToken<E>(w: World<E>, net: Net, maxCtx: nat, ctx: seq<Token>, maxNew: int, o: Outcome<E>,
                                      envs: seq<E>, log: seq<Event>, stopped: bool)
    requires ctx != [] && Decoding(w, net, maxCtx, ctx, maxNew, o, envs, log, stopped) && o.out == []
    ensures o == Predict(w, net, maxCtx, envs[0], ctx, maxNew)
  {
    assert Happens(w, envs[0], log[0]);
    assert ctx + [] == ctx;
  }

  /** A token that is sampled and streamed, and what plain decoding makes of it. */
  lemma {:induction false} TokenDecides<E>(w: World<E>, net: Net, maxCtx: nat, ctx: seq<Token>, maxNew: int, t: Token, go: bool,
                                           e0: E, e1: E, e2: E)
    requires ctx != [] && 0 < maxNew && !w.isEog(t) && |ctx| < maxCtx
    requires var e := Sampled(Logits(net, ctx), t); Happens(w, e0, e) && e1 == After(w, e0, e)
    requires Happens(w, e1, Emitted(t, go)) && e2 == After(w, e1, Emitted(t, go))
    ensures Predict(w, net, maxCtx, e0, ctx, maxNew) ==
            if go then Prepend([t], Predict(w, net, maxCtx, e2, ctx + [t], maxNew - 1)) else Done(e2, [t], ctx)
  {
  }

  lemma {:induction false} LogDecides<E>(w: World<E>, net: Net, maxCtx: nat, ctx: seq<Token>, maxNew: int, o: Outcome<E>,
                                         envs: seq<E>, log: seq<Event>, stopped: bool)
    requires ctx != [] && Decoding(w, net, maxCtx, ctx, maxNew, o, envs, log, stopped)
    ensures envs != [] && o == Predict(w, net, maxCtx, envs[0], ctx, maxNew)
    decreases |o.out|
  {
    assert o.Done? && |envs| == |log| + 1;
    hide *;
    if o.out == [] {
      NoToken(w, net, maxCtx, ctx, maxNew, o, envs, log, stopped);
    } else {
      FirstToken(w, net, maxCtx, ctx, maxNew, o, envs, log, stopped);
      var t, rest := o.out[0], Done(o.env, o.out[1..], o.committed);
      TokenDecides(w, net, maxCtx, ctx, maxNew, t, !(stopped && |o.out| == 1), envs[0], envs[1], envs[2]);
      if !(stopped && |o.out| == 1) {
        Prepended(t, o, rest);
        DecodingMore(w, net, maxCtx, ctx, maxNew, t, rest, envs, log, stopped);
        LogDecides(w, net, maxCtx, ctx + [t], maxNew - 1, rest, envs[2..], log[2..], stopped);
      }
    }
  }

  lemma {:induction false} Prepended<E>(t: Token, o: Outcome<E>, rest: Outcome<E>)
    requires o.Done? && o.out != [] && o.out[0] == t && rest == Done(o.env, o.out[1..], o.committed)
    ensures o == Prepend([t], rest)
  {
    assert [t] + o.out[1..] == o.out;
  }

  // ---- a whole call --------------------------------------------------------------

  lemma {:induction false} LeadsJoined<E>(w: World<E>, envs: seq<E>, log: seq<Event>, n: nat)
    requires |envs| == |log| + 1 && n <= |log|
    ensures Leads(w, envs, log) <==> Leads(w, envs[..n + 1], log[..n]) && Leads(w, envs[n..], log[n..])
  {
    hide Happens, After;
    if Leads(w, envs[..n + 1], log[..n]) && Leads(w, envs[n..], log[n..]) {
      forall i | 0 <= i < |log|
        ensures Happens(w, envs[i], log[i]) && envs[i + 1] == After(w, envs[i], log[i])
      {
        if i < n {
          assert Happens(w, envs[..n + 1][i], log[..n][i]);
        } else {
          assert Happens(w, envs[n..][i - n], log[n..][i - n]);
        }
      }
    }
  }

  lemma {:induction false} PlainHasLog<E>(w: World<E>, net: Net, maxCtx: nat, env: E, base: seq<Token>, prompt: seq<Token>, maxNew: int)
    returns (envs: seq<E>, log: seq<Event>, stopped: bool)
    requires prompt != [] && |base| + |prompt| <= maxCtx
    ensures Tells(w, net, maxCtx, env, base, prompt, maxNew, Plain(w, net, maxCtx, env, base, prompt, maxNew), envs, log, stopped)
  {
    var n := |prompt|;
    var envs0, log0 := ShowPrompt(w, env, prompt);
    PromptShown(w, envs0, log0, prompt);
    var envs1, log1;
    envs1, log1, stopped := DecodingLog(w, net, maxCtx, envs0[n], base + prompt, maxNew);
    envs, log := envs0[..n] + envs1, log0 + log1;
    assert envs[..n + 1] == envs0 && envs[n..] == envs1 && log[..n] == log0 && log[n..] == log1;
    LeadsJoined(w, envs, log, n);
  }

  lemma {:induction false} LogHasPlain<E>(w: World<E>, net: Net, maxCtx: nat, env: E, base: seq<Token>, prompt: seq<Token>, maxNew: int,
                                          o: Outcome<E>, envs: seq<E>, log: seq<Event>, stopped: bool)
    requires prompt != [] && |base| + |prompt| <= maxCtx && Tells(w, net, maxCtx, env, base, prompt, maxNew, o, envs, log, stopped)
    ensures o == Plain(w, net, maxCtx, env, base, prompt, maxNew)
  {
    var n := |prompt|;
    LeadsJoined(w, envs, log, n);
    PromptShown(w, envs[..n + 1], log[..n], prompt);
    LogDecides(w, net, maxCtx, base + prompt, maxNew, o, envs[n..], log[n..], stopped);
  }

  /** The outcome of a call on a prompt that fits is the one outcome with a log: every prompt token is
      shown to the sampler, in order and before the first sample; every token is sampled from the logits
      behind the context, the prompt and the tokens before it; and each is streamed before the next. */
  lemma {:induction false} PlainIff<E(!new)>(w: World<E>, net: Net, maxCtx: nat, env: E, base: seq<Token>, prompt: seq<Token>, maxNew: int, o: Outcome<E>)
    requires prompt != [] && |base| + |prompt| <= maxCtx
    ensures o == Plain(w, net, maxCtx, env, base, prompt, maxNew) <==>
            exists envs, log, stopped :: Tells(w, net, maxCtx, env, base, prompt, maxNew, o, envs, log, stopped)
  {
    hide Tells, Plain;
    var envs0, log0, stopped0 := PlainHasLog(w, net, maxCtx, env, base, prompt, maxNew);
    if envs, log, stopped :| Tells(w, net, maxCtx, env, base, prompt, maxNew, o, envs, log, stopped) {
      LogHasPlain(w, net, maxCtx, env, base, prompt, maxNew, o, envs, log, stopped);
    }
  }

  /** A prompt that does not fit is refused, and an empty one changes nothing. */
  lemma {:induction false} PlainOtherwise<E>(w: World<E>, net: Net, maxCtx: nat, env: E, base: seq<Token>, prompt: seq<Token>, maxNew: int)
    ensures Plain(w, net, maxCtx, env, base, prompt, maxNew).Exceeded? <==> prompt != [] && |base| + |prompt| > maxCtx
    ensures prompt == [] ==> Plain(w, net, maxCtx, env, base, prompt, maxNew) == Done(env, [], base)
  {
    if prompt != [] && |base| + |prompt| <= maxCtx {
      var envs, log, stopped := PlainHasLog(w, net, maxCtx, env, base, prompt, maxNew);
    }
  }
}
