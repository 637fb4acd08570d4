/** Prompt-lookup drafting: the tokens that followed the last earlier occurrence of the
    longest recurring suffix of the context. */
module SpecDecoding {
  import opened Network

  /** The last `g` tokens also stand at `p`, in front of themselves without overlap. */
  predicate Recurs(ctx: seq<Token>, g: nat, p: nat) {
    0 < g && p + 2 * g <= |ctx| && ctx[p..p + g] == ctx[|ctx| - g..]
  }

  predicate LastOccurrence(ctx: seq<Token>, g: nat, p: nat) {
    Recurs(ctx, g, p) && forall q: nat | p < q <= |ctx| :: !Recurs(ctx, g, q)
  }

  predicate NoRecurrence(ctx: seq<Token>, g: nat) {
    forall q: nat | q <= |ctx| :: !Recurs(ctx, g, q)
  }

  /** `g` is the longest recurring suffix length in [lo, hi]. */
  predicate LongestSuffix(ctx: seq<Token>, lo: nat, hi: nat, g: nat) {
    lo <= g <= hi && !NoRecurrence(ctx, g) && forall h: nat | g < h <= hi :: NoRecurrence(ctx, h)
  }

  /** `r` is what followed the occurrence at `p`: `m` tokens, or as many as there are. */
  predicate Follows(ctx: seq<Token>, g: nat, p: nat, m: int, r: seq<Token>) {
    && p + g + |r| <= |ctx| && r == ctx[p + g..p + g + |r|]
    && |r| <= m && (|r| == m || p + g + |r| == |ctx|)
  }

  /** The longest recurring suffix of `lo` to `hi` tokens is taken, where it last occurred, and at
      most `m` tokens that followed it there; nothing if no suffix recurs. */
  ghost predicate Drafted(ctx: seq<Token>, lo: nat, hi: nat, m: int, r: seq<Token>) {
    && |r| <= (if m > 0 then m else 0)
    && (r != [] <==> m > 0 && exists g: nat :: lo <= g <= hi && !NoRecurrence(ctx, g))
    && (r != [] ==> exists g: nat, p: nat ::
          LongestSuffix(ctx, lo, hi, g) && LastOccurrence(ctx, g, p) && Follows(ctx, g, p, m, r))
  }

  class PromptLookupDecoder {
    const minNgram: nat
    const maxNgram: nat

    constructor (minNgram: nat := 2, maxNgram: nat := 5)
      ensures this.minNgram == minNgram && this.maxNgram == maxNgram
    {
      this.minNgram, this.maxNgram := minNgram, maxNgram;
    }

    /** Last occurrence of the context's `g`-token suffix in front of that suffix. */
    method FindEnd(ctx: seq<Token>, g: nat) returns (found: bool, p: nat)
      requires g <= |ctx|
      ensures found ==> LastOccurrence(ctx, g, p)
      ensures !found ==> NoRecurrence(ctx, g)
    {
      found, p := false, 0;
      if g == 0 || 2 * g > |ctx| {
        return;
      }
      var q: nat := |ctx| - 2 * g + 1;
      while q > 0
        invariant q <= |ctx| - 2 * g + 1
        invariant forall r: nat | q <= r <= |ctx| :: !Recurs(ctx, g, r)
      {
        q := q - 1;
        if ctx[q..q + g] == ctx[|ctx| - g..] {
          return true, q;
        }
      }
    }

    method Draft(ctx: seq<Token>, maxDraft: int) returns (r: seq<Token>)
      ensures Drafted(ctx, minNgram, maxNgram, maxDraft, r)
    {
      assert forall g: nat | 2 * g > |ctx| :: NoRecurrence(ctx, g);
      if |ctx| < minNgram {
        return [];
      }
      var ngram: int := if maxNgram < |ctx| - 1 then maxNgram else |ctx| - 1;
      while ngram >= minNgram
        invariant ngram <= maxNgram && ngram < |ctx|
        invariant forall g: nat | ngram < g <= maxNgram :: maxDraft <= 0 || NoRecurrence(ctx, g)
        decreases ngram
      {
        var found, p := FindEnd(ctx, ngram);
        if found {
          var available := |ctx| - (p + ngram);
          var draftLen := if maxDraft < available then maxDraft else available;
          if draftLen > 0 {
            assert LongestSuffix(ctx, minNgram, maxNgram, ngram);
            return ctx[p + ngram..p + ngram + draftLen];
          }
        }
        ngram := ngram - 1;
      }
      return [];
    }
  }
}
