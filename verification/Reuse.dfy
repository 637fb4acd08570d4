/** What one call keeps of the conversation before it: the prefix it rewinds to, the prefix the
    semantic cache supplies, and the context its prompt continues. */
module Reusing {
  import opened Network
  import opened KvCaching

  // ---- rewinding -----------------------------------------------------------------

  /** How far two token sequences agree. */
  function Common(a: seq<Token>, b: seq<Token>): (r: nat)
    ensures r <= |a| && r <= |b| && a[..r] == b[..r] && (r < |a| && r < |b| ==> a[r] != b[r])
  {
    if a == [] || b == [] || a[0] != b[0] then 0
    else
      var n := Common(a[1..], b[1..]);
      assert a[..n + 1] == [a[0]] + a[1..][..n] && b[..n + 1] == [b[0]] + b[1..][..n];
      n + 1
  }

  lemma {:induction false} CommonIs(a: seq<Token>, b: seq<Token>, r: nat)
    requires r <= |a| && r <= |b| && a[..r] == b[..r] && (r < |a| && r < |b| ==> a[r] != b[r])
    ensures Common(a, b) == r
  {
    if r > 0 {
      assert a[0] == a[..r][0] == b[..r][0] == b[0];
      assert a[1..][..r - 1] == a[..r][1..] && b[1..][..r - 1] == b[..r][1..];
      CommonIs(a[1..], b[1..], r - 1);
    }
  }

  /** The common prefix, but never the whole prompt. */
  function Kept(committed: seq<Token>, prompt: seq<Token>): (r: nat)
    ensures r <= |committed| && r <= |prompt| && prompt[..r] == committed[..r] && (prompt != [] ==> r < |prompt|)
  {
    var n := Common(prompt, committed);
    assert forall r: nat | r <= n :: prompt[..r] == prompt[..n][..r] && committed[..r] == committed[..n][..r];
    if prompt == [] then 0 else if n < |prompt| - 1 then n else |prompt| - 1
  }

  /** It is the longest prefix they share that leaves a prompt token to process. */
  lemma {:induction false} KeptIsLongest(committed: seq<Token>, prompt: seq<Token>, r: nat)
    requires prompt != []
    ensures r < |prompt| && r <= |committed| && prompt[..r] == committed[..r] ==> r <= Kept(committed, prompt)
  {
    var n := Common(prompt, committed);
    if n < r <= |committed| && r < |prompt| {
      assert prompt[..r][n] == prompt[n] && committed[..r][n] == committed[n];
    }
  }

  /** What a call with reuse rewinds to: nothing, when a local ring forbids it. */
  function RewindTo(rings: seq<nat>, committed: seq<Token>, prompt: seq<Token>): (r: nat)
    ensures r <= |committed| && r <= |prompt| && prompt[..r] == committed[..r] && (prompt != [] ==> r < |prompt|)
  {
    if CanRewind(rings, Kept(committed, prompt), |committed|) then Kept(committed, prompt) else 0
  }

  /** Rows the query behind `r` needs are gone after `written` positions. */
  ghost predicate Lost(rings: seq<nat>, r: nat, written: nat) {
    r > 0 && exists l :: 0 <= l < |rings| && !RowsLeft(rings[l], r, written)
  }

  /** A call right behind a successful one never loses rows. */
  lemma {:induction false} RewindIsSafe(rings: seq<nat>, committed: seq<Token>, prompt: seq<Token>)
    ensures !Lost(rings, RewindTo(rings, committed, prompt), |committed|)
  {
  }

  /** What the guard takes for written once some calls have failed behind their rewinds: each
      leaves the prefix it kept of its prompt. */
  function RecordAfter(rings: seq<nat>, committed: seq<Token>, failed: seq<seq<Token>>): (r: seq<Token>)
    ensures |r| <= |committed|
    decreases |failed|
  {
    if failed == [] then committed
    else RecordAfter(rings, failed[0][..RewindTo(rings, committed, failed[0])], failed[1..])
  }

  /** The prompts that lose rows although the guard lets them: `record` is what failed calls have
      left of `written` positions. The prompt keeps some tokens, at least two fewer than were
      written; some ring has wrapped; and no ring has as far as the record shows, unless all of
      the record but one token is kept. */
  ghost predicate Misled(rings: seq<nat>, record: seq<Token>, written: nat, prompt: seq<Token>) {
    var k := Kept(record, prompt);
    && 0 < k && k + 1 < written && (exists l :: 0 <= l < |rings| && 1 < rings[l] < written)
    && (k + 1 >= |record| || forall l | 0 <= l < |rings| :: rings[l] == 0 || rings[l] >= |record|)
  }

  /** Behind any number of failed calls the next one loses rows exactly for those prompts. */
  lemma {:induction false} MisledIff(rings: seq<nat>, committed: seq<Token>, failed: seq<seq<Token>>, prompt: seq<Token>)
    ensures var record := RecordAfter(rings, committed, failed);
            Lost(rings, RewindTo(rings, record, prompt), |committed|) <==> Misled(rings, record, |committed|, prompt)
  {
    var record := RecordAfter(rings, committed, failed);
    var k := Kept(record, prompt);
    assert CanRewind(rings, k, |record|) <==>
           (k + 1 >= |record| || forall l | 0 <= l < |rings| :: rings[l] == 0 || rings[l] >= |record|);
  }

  /** After one failed call that is: its prompt kept all committed tokens but one. */
  lemma {:induction false} FailedCallMisleads(rings: seq<nat>, committed: seq<Token>, failed: seq<Token>, prompt: seq<Token>)
    requires Misled(rings, RecordAfter(rings, committed, [failed]), |committed|, prompt)
    ensures Kept(committed, failed) + 1 == |committed|
  {
    var r := RewindTo(rings, committed, failed);
    assert [failed][1..] == [];
    assert RecordAfter(rings, committed, [failed]) == failed[..r];
    assert CanRewind(rings, r, |committed|);
  }

  // ---- layers on other machines --------------------------------------------------

  predicate NoLarger(local: seq<nat>, w: nat) {
    exists k :: 0 <= k < |local| && 0 < local[k] <= w
  }

  /** Every ring elsewhere that can lose rows within the context is no smaller than some ring here. */
  predicate Covered(local: seq<nat>, all: seq<nat>, maxCtx: nat) {
    forall l | 0 <= l < |all| && 1 < all[l] < maxCtx :: NoLarger(local, all[l])
  }

  /** The guard of the rings here speaks for all rings, whatever was written and wherever the
      rewind goes, exactly if they are covered. */
  lemma {:induction false} GuardSpeaksIff(local: seq<nat>, all: seq<nat>, maxCtx: nat)
    ensures Covered(local, all, maxCtx) <==>
            forall r: nat, n: nat {:trigger CanRewind(local, r, n)} {:trigger Lost(all, r, n)} | 0 < r <= n <= maxCtx && CanRewind(local, r, n) :: !Lost(all, r, n)
  {
    if Covered(local, all, maxCtx) {
      forall r: nat, n: nat | 0 < r <= n <= maxCtx && CanRewind(local, r, n)
        ensures !Lost(all, r, n)
      {
      }
    } else {
      var l :| 0 <= l < |all| && 1 < all[l] < maxCtx && !NoLarger(local, all[l]);
      var r, n := all[l] - 1, all[l] + 1;
      assert CanRewind(local, r, n) && !RowsLeft(all[l], r, n);
    }
  }

  /** The prompts that lose rows elsewhere behind a successful call: they keep some tokens, at least
      two fewer than committed; no ring here has wrapped; and one elsewhere has. */
  ghost predicate Unguarded(local: seq<nat>, all: seq<nat>, committed: seq<Token>, prompt: seq<Token>) {
    var n, k := |committed|, Kept(committed, prompt);
    && 0 < k && k + 1 < n && (forall l | 0 <= l < |local| :: local[l] == 0 || local[l] >= n)
    && exists l :: 0 <= l < |all| && 1 < all[l] < n
  }

  lemma {:induction false} UnguardedIff(local: seq<nat>, all: seq<nat>, committed: seq<Token>, prompt: seq<Token>)
    ensures Lost(all, RewindTo(local, committed, prompt), |committed|) <==> Unguarded(local, all, committed, prompt)
  {
    var k := Kept(committed, prompt);
    assert CanRewind(local, k, |committed|) <==>
           (k + 1 >= |committed| || forall l | 0 <= l < |local| :: local[l] == 0 || local[l] >= |committed|);
  }

  // ---- drafts --------------------------------------------------------------------

  /** A verified batch that writes `written` positions: the pending token at `pos` and `d` drafted
      ones, of which any number may be rejected. The rows behind whatever is kept are there, for
      every sampler, exactly if there is at most one drafted token or no ring wraps over the batch. */
  lemma {:induction false} DraftIsSafeIff(rings: seq<nat>, pos: nat, d: nat, written: nat)
    requires written == pos + 1 + d
    ensures (forall kept: nat | pos < kept <= written :: !Lost(rings, kept, written))
            <==> d < 2 || forall l | 0 <= l < |rings| :: rings[l] <= 1 || written <= rings[l]
  {
    if d >= 2 {
      if l :| 0 <= l < |rings| && !(rings[l] <= 1 || written <= rings[l]) {
        assert !RowsLeft(rings[l], pos + 1, written);
        assert Lost(rings, pos + 1, written);
      }
    }
  }

  // ---- the semantic cache --------------------------------------------------------

  ghost predicate PrefixClosed(stored: set<seq<Token>>) {
    forall q: seq<Token>, j: nat | q in stored && 0 < j <= |q| :: q[..j] in stored
  }

  /** Length of the longest prefix of the prompt that is stored. */
  function LongestIn(stored: set<seq<Token>>, prompt: seq<Token>): (m: nat)
    ensures m <= |prompt| && (m > 0 ==> prompt[..m] in stored)
    ensures forall j: nat | m < j <= |prompt| :: prompt[..j] !in stored
  {
    if prompt == [] then 0
    else
      assert prompt[..|prompt|] == prompt;
      if prompt in stored then |prompt|
      else
        var init := prompt[..|prompt| - 1];
        assert forall j: nat | j <= |init| :: init[..j] == prompt[..j];
        LongestIn(stored, init)
  }

  lemma {:induction false} LongestIs(stored: set<seq<Token>>, prompt: seq<Token>, m: nat)
    requires m <= |prompt| && forall j: nat | 0 < j <= |prompt| :: prompt[..j] in stored <==> j <= m
    ensures LongestIn(stored, prompt) == m
  {
    var n := LongestIn(stored, prompt);
    assert n > 0 ==> prompt[..n] in stored;
    assert m > 0 ==> prompt[..m] in stored;
  }

  /** Tokens a call takes from the semantic cache: the longest stored prefix, less the last
      prompt token, if that is more than the call keeps anyway. */
  function HitOf(stored: set<seq<Token>>, prompt: seq<Token>, kept: nat): nat {
    var usable: int := if LongestIn(stored, prompt) < |prompt| - 1 then LongestIn(stored, prompt) else |prompt| - 1;
    if usable > kept then usable else 0
  }

  /** It is the longest stored prefix of the prompt that leaves a token to process, if that is longer
      than what is kept anyway. */
  lemma {:induction false} HitIsLongest(stored: set<seq<Token>>, prompt: seq<Token>, kept: nat)
    requires PrefixClosed(stored)
    ensures var h := HitOf(stored, prompt, kept);
            && (h > 0 ==> kept < h < |prompt| && prompt[..h] in stored)
            && forall j: nat | kept < j < |prompt| && prompt[..j] in stored :: j <= h
  {
    var m := LongestIn(stored, prompt);
    forall j: nat | j <= m
      ensures j == 0 || prompt[..j] in stored
    {
      assert prompt[..m][..j] == prompt[..j];
    }
  }

  /** The context a prompt continues: with reuse it brings the whole context along; without,
      it follows what is committed, unless the semantic cache replaces that. */
  function ContextOf(stored: set<seq<Token>>, reuse: bool, committed: seq<Token>, prompt: seq<Token>): seq<Token> {
    if reuse || HitOf(stored, prompt, 0) > 0 then [] else committed
  }

  /** A call without reuse continues the conversation exactly when there is none yet, or the
      prompt has a single token, or nothing stored begins with the prompt's first token. */
  lemma {:induction false} ContinuesIff(stored: set<seq<Token>>, committed: seq<Token>, prompt: seq<Token>)
    requires PrefixClosed(stored)
    ensures ContextOf(stored, false, committed, prompt) == committed
            <==> committed == [] || |prompt| < 2 || prompt[..1] !in stored
  {
    var m := LongestIn(stored, prompt);
    if |prompt| >= 2 {
      if m > 0 {
        assert prompt[..m][..1] == prompt[..1];
      } else {
        assert prompt[..1] !in stored;
      }
    }
  }
}
