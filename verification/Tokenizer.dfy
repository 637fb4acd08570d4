/** The byte-level BPE tokenizer as a whole: special tokens split out first, plain stretches
    encoded by chunks, and decoding as the inverse of encoding. */
module Tokenizing {
  import opened Regex
  import opened Utf8
  import opened Chunking
  import opened BytePairs

  // ---- decoding ------------------------------------------------------------------

  function DecodeOf(v: Vocab, id: nat): seq<Byte> {
    if id < |v.idToTok| then Unsymbol(v.idToTok[id], v.u2b) else []
  }

  function DecodeAll(v: Vocab, ids: seq<nat>): seq<Byte> {
    if ids == [] then [] else DecodeAll(v, ids[..|ids| - 1]) + DecodeOf(v, ids[|ids| - 1])
  }

  method Decode(v: Vocab, ids: seq<nat>) returns (out: seq<Byte>)
    ensures out == DecodeAll(v, ids)
  {
    out := [];
    for i := 0 to |ids|
      invariant out == DecodeAll(v, ids[..i])
    {
      var t := DecodeToken(v, ids[i]);
      assert ids[..i + 1][..i] == ids[..i];
      out := out + t;
    }
    assert ids[..|ids|] == ids;
  }

  lemma {:induction false} DecodeConcat(v: Vocab, a: seq<nat>, b: seq<nat>)
    ensures DecodeAll(v, a + b) == DecodeAll(v, a) + DecodeAll(v, b)
    decreases |b|
  {
    hide DecodeOf;
    if b == [] {
      assert a + b == a;
    } else {
      var n := |b| - 1;
      DecodeConcat(v, a, b[..n]);
      assert (a + b)[..|a + b| - 1] == a + b[..n] && (a + b)[|a + b| - 1] == b[n];
    }
  }

  // ---- merged symbols are whole --------------------------------------------------

  /** The symbol is a run of byte symbols. */
  ghost predicate Whole(s: seq<Byte>) {
    exists bytes: seq<Byte> :: s == Flat(Symbols(bytes))
  }

  lemma {:induction false} WholeJoin(a: seq<Byte>, b: seq<Byte>)
    requires Whole(a) && Whole(b)
    ensures Whole(a + b)
  {
    var x: seq<Byte> :| a == Flat(Symbols(x));
    var y: seq<Byte> :| b == Flat(Symbols(y));
    assert Symbols(x + y) == Symbols(x) + Symbols(y);
    FlatConcat(Symbols(x), Symbols(y));
  }

  lemma {:induction false} MergedWhole(syms: seq<seq<Byte>>, rank: map<seq<Byte>, nat>)
    requires forall i | 0 <= i < |syms| :: Whole(syms[i])
    ensures forall i | 0 <= i < |Merged(syms, rank)| :: Whole(Merged(syms, rank)[i])
    decreases |syms|
  {
    if i: nat :| Best(syms, rank, i) {
      MergedStep(syms, rank, i);
      WholeJoin(syms[i], syms[i + 1]);
      MergedWhole(Join(syms, i), rank);
    }
  }

  lemma {:induction false} ByteWhole(b: Byte)
    ensures Whole(Symbol(b))
  {
    assert Symbols([b]) == [Symbol(b)];
    FlatOne(Symbol(b));
  }

  lemma {:induction false} DecodeSingle(v: Vocab, id: nat)
    ensures DecodeAll(v, [id]) == DecodeOf(v, id)
  {
    var none: seq<nat> := [id][..0];
    assert DecodeAll(v, none) == [] && [] + DecodeOf(v, id) == DecodeOf(v, id);
  }

  lemma {:induction false} IdsHead(v: Vocab, syms: seq<seq<Byte>>)
    requires Complete(v) && syms != [] && Known(syms, v.tokToId.Keys)
    ensures Known(syms[1..], v.tokToId.Keys)
    ensures DecodeAll(v, Ids(v, syms)) == Unsymbol(syms[0], v.u2b) + DecodeAll(v, Ids(v, syms[1..]))
  {
    var id := v.tokToId[syms[0]];
    assert Ids(v, syms) == [id] + Ids(v, syms[1..]);
    DecodeConcat(v, [id], Ids(v, syms[1..]));
    DecodeSingle(v, id);
  }

  /** Decoding the ids of whole symbols reads their bytes one after the other. */
  lemma {:induction false} DecodeIds(v: Vocab, syms: seq<seq<Byte>>)
    requires Complete(v) && Known(syms, v.tokToId.Keys) && forall i | 0 <= i < |syms| :: Whole(syms[i])
    ensures DecodeAll(v, Ids(v, syms)) == Unsymbol(Flat(syms), v.u2b)
    decreases |syms|
  {
    if syms == [] {
      assert Ids(v, syms) == [];
    } else {
      var rest := syms[1..];
      IdsHead(v, syms);
      assert forall i | 0 <= i < |rest| :: rest[i] == syms[i + 1];
      DecodeIds(v, rest);
      assert Whole(syms[0]);
      var bytes: seq<Byte> :| syms[0] == Flat(Symbols(bytes));
      UnsymbolConcat(Flat(rest), bytes, v.u2b);
    }
  }

  /** The round trip of one chunk. */
  lemma {:induction false} ChunkRoundTrip(v: Vocab, chunk: seq<Byte>)
    requires Complete(v) && Known(Merged(Symbols(chunk), v.rank), v.tokToId.Keys)
    requires Flat(Merged(Symbols(chunk), v.rank)) == Flat(Symbols(chunk))
    ensures DecodeAll(v, Ids(v, Merged(Symbols(chunk), v.rank))) == chunk
  {
    forall i | 0 <= i < |chunk|
      ensures Whole(Symbols(chunk)[i])
    {
      ByteWhole(chunk[i]);
    }
    MergedWhole(Symbols(chunk), v.rank);
    DecodeIds(v, Merged(Symbols(chunk), v.rank));
    UnsymbolFlat(chunk, v.b2u, v.u2b);
  }

  /** The ids of a chunk: those of its symbols once no pair can be merged any more. */
  ghost function ChunkIds(v: Vocab, chunk: seq<Byte>): seq<nat> {
    var syms := Merged(Symbols(chunk), v.rank);
    if Known(syms, v.tokToId.Keys) then Ids(v, syms) else []
  }

  ghost function AllIds(v: Vocab, chunks: seq<seq<Byte>>, n: nat): seq<nat>
    requires n <= |chunks|
  {
    if n == 0 then [] else AllIds(v, chunks, n - 1) + ChunkIds(v, chunks[n - 1])
  }

  /** The ids of plain text: those of its chunks, one after the other. */
  ghost predicate PlainIds(v: Vocab, text: seq<Byte>, pre: BpePre, uni: nat -> Class, ids: seq<nat>) {
    exists chunks :: Pretokenized(text, pre, uni, chunks) && ids == AllIds(v, chunks, |chunks|)
  }

  /** Plain text: pre-tokenized, each chunk merged on its own. */
  method EncodeBpe(v: Vocab, text: seq<Byte>, pre: BpePre, uni: nat -> Class) returns (out: seq<nat>)
    requires Complete(v)
    ensures DecodeAll(v, out) == text && PlainIds(v, text, pre, uni, out)
  {
    hide Pretokenized, Merged, Symbols, Complete, Flat;
    var chunks := Pretokenize(text, pre, uni);
    ChunksAreText(text, pre, uni, chunks);
    out := [];
    for i := 0 to |chunks|
      invariant DecodeAll(v, out) == Concat(chunks[..i]) && out == AllIds(v, chunks, i)
    {
      var ids := EncodeChunk(v, chunks[i]);
      NextChunk(v, chunks, i, out, ids);
      out := out + ids;
    }
    assert chunks[..|chunks|] == chunks;
  }

  lemma {:induction false} NextChunk(v: Vocab, chunks: seq<seq<Byte>>, i: nat, out: seq<nat>, ids: seq<nat>)
    requires Complete(v) && i < |chunks| && DecodeAll(v, out) == Concat(chunks[..i]) && out == AllIds(v, chunks, i)
    requires var m := Merged(Symbols(chunks[i]), v.rank);
             Known(m, v.tokToId.Keys) && ids == Ids(v, m) && Flat(m) == Flat(Symbols(chunks[i]))
    ensures DecodeAll(v, out + ids) == Concat(chunks[..i + 1]) && out + ids == AllIds(v, chunks, i + 1)
  {
    hide Merged, Symbols, Complete, Flat, DecodeAll;
    ChunkRoundTrip(v, chunks[i]);
    DecodeConcat(v, out, ids);
    assert chunks[..i + 1][..i] == chunks[..i];
  }

  lemma {:induction false} ChunksAreText(text: seq<Byte>, pre: BpePre, uni: nat -> Class, chunks: seq<seq<Byte>>)
    requires Pretokenized(text, pre, uni, chunks)
    ensures Concat(chunks) == text
  {
  }

  // ---- special tokens ------------------------------------------------------------

  /** A stretch of the text: a special token, or plain if `id` is negative. */
  datatype Frag = Frag(id: int, off: nat, len: nat)

  predicate Special(v: Vocab, id: nat) {
    id < |v.idToTok| && v.idToTok[id] != []
  }

  /** A special token with a string that decodes to itself, as any ASCII string does. */
  predicate Literal(v: Vocab, id: nat) {
    Special(v, id) && Unsymbol(v.idToTok[id], v.u2b) == v.idToTok[id]
  }

  lemma {:induction false} AsciiIsLiteral(v: Vocab, id: nat)
    requires Complete(v) && id < |v.idToTok| && v.idToTok[id] != []
    requires forall i | 0 <= i < |v.idToTok[id]| :: v.idToTok[id][i] < 128
    ensures Literal(v, id)
  {
    UnsymbolAscii(v.idToTok[id], v.b2u, v.u2b);
  }

  /** In terms of its codepoints: a special token's string decodes to itself exactly if it has none of
      those that stand for a byte, the letters from U+00A1 to U+0143 among them. */
  lemma {:induction false} LiteralIff(v: Vocab, id: nat, cps: seq<nat>)
    requires Complete(v) && Special(v, id)
    requires (forall i | 0 <= i < |cps| :: cps[i] < 0x110000) && v.idToTok[id] == Spell(cps)
    ensures Literal(v, id) <==> forall i | 0 <= i < |cps| :: !Remapped(cps[i])
  {
    ReadsAsSelfIff(cps, v.b2u, v.u2b);
  }

  predicate OccursAt(text: seq<Byte>, st: seq<Byte>, m: nat) {
    m + |st| <= |text| && text[m..m + |st|] == st
  }

  /** `st` does not occur inside [lo, hi). */
  predicate Absent(text: seq<Byte>, st: seq<Byte>, lo: nat, hi: nat) {
    forall m: nat | lo <= m && m + |st| <= hi :: !OccursAt(text, st, m)
  }

  /** First occurrence at or behind `base`; -1 if there is none. */
  method Find(text: seq<Byte>, st: seq<Byte>, base: nat) returns (m: int)
    requires base <= |text|
    ensures m < 0 ==> forall k: nat | base <= k :: !OccursAt(text, st, k)
    ensures m >= 0 ==> base <= m && OccursAt(text, st, m) && forall k: nat | base <= k < m :: !OccursAt(text, st, k)
  {
    var k := base;
    while k + |st| <= |text|
      invariant base <= k && forall x: nat | base <= x < k :: !OccursAt(text, st, x)
      decreases |text| - k
    {
      if text[k..k + |st|] == st {
        return k;
      }
      k := k + 1;
    }
    return -1;
  }

  /** The fragments cover the first `n` bytes in order; a special one is its token's string. */
  ghost predicate Tiled(frags: seq<Frag>, text: seq<Byte>, v: Vocab, n: nat)
    decreases |frags|
  {
    if frags == [] then n == 0
    else
      var f := frags[|frags| - 1];
      && f.off + f.len == n <= |text|
      && (f.id >= 0 ==> Special(v, f.id) && text[f.off..n] == v.idToTok[f.id])
      && Tiled(frags[..|frags| - 1], text, v, f.off)
  }

  /** No plain fragment contains `st`. */
  predicate Free(frags: seq<Frag>, text: seq<Byte>, st: seq<Byte>) {
    forall i | 0 <= i < |frags| && frags[i].id < 0 :: Absent(text, st, frags[i].off, frags[i].off + frags[i].len)
  }

  // ---- where a text is cut ---------------------------------------------------------

  /** No occurrence of `st` that ends by `hi` starts in [lo, n). */
  predicate NoStart(text: seq<Byte>, st: seq<Byte>, lo: nat, n: nat, hi: nat) {
    forall m: nat | lo <= m < n && m + |st| <= hi :: !OccursAt(text, st, m)
  }

  /** The pieces cover [lo, n) of a plain stretch that ends at `hi`: occurrences of `st`, the leftmost
      first and without overlap, and what is left between them. */
  ghost predicate CutTo(text: seq<Byte>, st: seq<Byte>, sid: nat, lo: nat, n: nat, hi: nat, ps: seq<Frag>)
    decreases |ps|
  {
    if ps == [] then lo == n
    else
      var f := ps[0];
      && f.off == lo && 0 < f.len && lo + f.len <= n
      && (if f.id >= 0 then f.id == sid && f.len == |st| && OccursAt(text, st, lo)
          else f.id == -1 && NoStart(text, st, lo, lo + f.len, hi) && (|ps| > 1 ==> ps[1].id >= 0))
      && CutTo(text, st, sid, lo + f.len, n, hi, ps[1..])
  }

  /** A plain stretch is cut at `st` in one way only. */
  lemma {:induction false} CutUnique(text: seq<Byte>, st: seq<Byte>, sid: nat, lo: nat, hi: nat, ps: seq<Frag>, qs: seq<Frag>)
    requires CutTo(text, st, sid, lo, hi, hi, ps) && CutTo(text, st, sid, lo, hi, hi, qs)
    ensures ps == qs
    decreases |ps|
  {
    if ps != [] && qs != [] {
      var f, g := ps[0], qs[0];
      assert OccursAt(text, st, lo) && lo + |st| <= hi ==> f.id >= 0 && g.id >= 0;
      if f.id < 0 {
        assert g.id < 0;
        CutNext(text, st, sid, lo, hi, ps);
        CutNext(text, st, sid, lo, hi, qs);
      }
      assert f == g;
      CutUnique(text, st, sid, lo + f.len, hi, ps[1..], qs[1..]);
      assert ps == [f] + ps[1..] && qs == [g] + qs[1..];
    }
  }

  /** A plain piece ends at the next occurrence, or at the end. */
  lemma {:induction false} CutNext(text: seq<Byte>, st: seq<Byte>, sid: nat, lo: nat, hi: nat, ps: seq<Frag>)
    requires CutTo(text, st, sid, lo, hi, hi, ps) && ps != [] && ps[0].id < 0
    ensures var e := lo + ps[0].len; e == hi || (OccursAt(text, st, e) && e + |st| <= hi)
  {
    if |ps| > 1 {
      assert ps[1..][0] == ps[1];
    }
  }

  /** One piece more. */
  lemma {:induction false} CutMore(text: seq<Byte>, st: seq<Byte>, sid: nat, lo: nat, n: nat, hi: nat, ps: seq<Frag>, f: Frag)
    requires CutTo(text, st, sid, lo, n, hi, ps) && f.off == n && 0 < f.len
    requires if f.id >= 0 then f.id == sid && f.len == |st| && OccursAt(text, st, n)
             else f.id == -1 && NoStart(text, st, n, n + f.len, hi) && (ps == [] || ps[|ps| - 1].id >= 0)
    ensures CutTo(text, st, sid, lo, n + f.len, hi, ps + [f])
    decreases |ps|
  {
    if ps == [] {
      assert ([] + [f])[1..] == [];
    } else {
      CutMore(text, st, sid, lo + ps[0].len, n, hi, ps[1..], f);
      assert (ps + [f])[1..] == ps[1..] + [f];
    }
  }

  /** What a pass makes of one fragment. */
  ghost predicate PartOf(text: seq<Byte>, st: seq<Byte>, sid: nat, f: Frag, ps: seq<Frag>) {
    if f.id >= 0 then ps == [f] else CutTo(text, st, sid, f.off, f.off + f.len, f.off + f.len, ps)
  }

  function Flatten(groups: seq<seq<Frag>>): seq<Frag> {
    if groups == [] then [] else Flatten(groups[..|groups| - 1]) + groups[|groups| - 1]
  }

  /** A pass cuts every plain fragment and nothing else. */
  ghost predicate PassOf(text: seq<Byte>, st: seq<Byte>, sid: nat, before: seq<Frag>, after: seq<Frag>, groups: seq<seq<Frag>>) {
    && |groups| == |before| && after == Flatten(groups)
    && forall i | 0 <= i < |before| :: PartOf(text, st, sid, before[i], groups[i])
  }

  ghost predicate Pass(text: seq<Byte>, st: seq<Byte>, sid: nat, before: seq<Frag>, after: seq<Frag>) {
    exists groups :: PassOf(text, st, sid, before, after, groups)
  }

  lemma {:induction false} PassUnique(text: seq<Byte>, st: seq<Byte>, sid: nat, before: seq<Frag>, a: seq<Frag>, b: seq<Frag>)
    requires Pass(text, st, sid, before, a) && Pass(text, st, sid, before, b)
    ensures a == b
  {
    var g :| PassOf(text, st, sid, before, a, g);
    var h :| PassOf(text, st, sid, before, b, h);
    forall i | 0 <= i < |before|
      ensures g[i] == h[i]
    {
      var f := before[i];
      assert PartOf(text, st, sid, f, g[i]) && PartOf(text, st, sid, f, h[i]);
      if f.id < 0 {
        CutUnique(text, st, sid, f.off, f.off + f.len, g[i], h[i]);
      }
    }
    assert g == h;
  }

  /** The whole text, as one plain fragment. */
  function OnePiece(text: seq<Byte>): seq<Frag> {
    if text == [] then [] else [Frag(-1, 0, |text|)]
  }

  /** The passes of the special tokens, in their order, over the whole text. */
  ghost predicate CutBy(text: seq<Byte>, v: Vocab, specials: seq<nat>, frags: seq<Frag>)
    decreases |specials|
  {
    if specials == [] then frags == OnePiece(text)
    else
      var k := |specials| - 1;
      specials[k] < |v.idToTok| && exists before :: CutBy(text, v, specials[..k], before) && Pass(text, v.idToTok[specials[k]], specials[k], before, frags)
  }

  /** So the fragments of a text are determined: which occurrences become special tokens, and that the
      text is cut nowhere else. */
  lemma {:induction false} FragmentsUnique(text: seq<Byte>, v: Vocab, specials: seq<nat>, a: seq<Frag>, b: seq<Frag>)
    requires CutBy(text, v, specials, a) && CutBy(text, v, specials, b)
    ensures a == b
    decreases |specials|
  {
    if specials != [] {
      var k := |specials| - 1;
      var x :| CutBy(text, v, specials[..k], x) && Pass(text, v.idToTok[specials[k]], specials[k], x, a);
      var y :| CutBy(text, v, specials[..k], y) && Pass(text, v.idToTok[specials[k]], specials[k], y, b);
      FragmentsUnique(text, v, specials[..k], x, y);
      PassUnique(text, v.idToTok[specials[k]], specials[k], x, a, b);
    }
  }

  // ---- cutting it ------------------------------------------------------------------

  lemma {:induction false} TiledStep(frags: seq<Frag>, text: seq<Byte>, v: Vocab, n: nat, f: Frag)
    requires Tiled(frags, text, v, n) && f.off == n && n + f.len <= |text|
    requires f.id >= 0 ==> Special(v, f.id) && text[n..n + f.len] == v.idToTok[f.id]
    ensures Tiled(frags + [f], text, v, n + f.len)
  {
    assert (frags + [f])[..|frags|] == frags;
  }

  function Plain(lo: nat, hi: nat): seq<Frag> {
    if lo < hi then [Frag(-1, lo, hi - lo)] else []
  }

  /** The fragments cover the first `n` bytes, and no plain one contains `st` or anything in `gone`. */
  ghost predicate Clean(r: seq<Frag>, text: seq<Byte>, v: Vocab, n: nat, st: seq<Byte>, gone: seq<seq<Byte>>) {
    Tiled(r, text, v, n) && Free(r, text, st) && forall g | g in gone :: Free(r, text, g)
  }

  ghost predicate AllAbsent(text: seq<Byte>, st: seq<Byte>, gone: seq<seq<Byte>>, lo: nat, hi: nat) {
    Absent(text, st, lo, hi) && forall g | g in gone :: Absent(text, g, lo, hi)
  }

  lemma {:induction false} FreeMore(r: seq<Frag>, text: seq<Byte>, g: seq<Byte>, f: Frag)
    requires Free(r, text, g) && (f.id < 0 ==> Absent(text, g, f.off, f.off + f.len))
    ensures Free(r + [f], text, g)
  {
    hide Absent;
  }

  lemma {:induction false} CleanMore(r: seq<Frag>, text: seq<Byte>, v: Vocab, n: nat, st: seq<Byte>, gone: seq<seq<Byte>>, f: Frag)
    requires Clean(r, text, v, n, st, gone) && f.off == n && n + f.len <= |text|
    requires f.id >= 0 ==> Special(v, f.id) && text[n..n + f.len] == v.idToTok[f.id]
    requires f.id < 0 ==> AllAbsent(text, st, gone, n, n + f.len)
    ensures Clean(r + [f], text, v, n + f.len, st, gone)
  {
    hide Absent, Special, Free;
    TiledStep(r, text, v, n, f);
    FreeMore(r, text, st, f);
    forall g | g in gone
      ensures Free(r + [f], text, g)
    {
      FreeMore(r, text, g, f);
    }
  }

  /** Appends a plain fragment, if it is not empty. */
  method PushPlain(text: seq<Byte>, ghost v: Vocab, r: seq<Frag>, lo: nat, hi: nat, ghost st: seq<Byte>, ghost gone: seq<seq<Byte>>)
    returns (r': seq<Frag>)
    requires lo <= hi <= |text| && Clean(r, text, v, lo, st, gone) && AllAbsent(text, st, gone, lo, hi)
    ensures Clean(r', text, v, hi, st, gone) && r' == r + Plain(lo, hi)
  {
    hide Clean, AllAbsent;
    r' := r;
    if lo < hi {
      CleanMore(r, text, v, lo, st, gone, Frag(-1, lo, hi - lo));
      r' := r + [Frag(-1, lo, hi - lo)];
    }
  }

  /** Up to the occurrence found nothing starts and nothing is contained. */
  lemma {:induction false} FoundAt(text: seq<Byte>, st: seq<Byte>, gone: seq<seq<Byte>>, lo: nat, base: nat, m: nat, end: nat)
    requires lo <= base <= m <= end && (forall g | g in gone :: Absent(text, g, lo, end)) && st != []
    requires forall k: nat | base <= k < m :: !OccursAt(text, st, k)
    ensures AllAbsent(text, st, gone, base, m) && NoStart(text, st, base, m, end)
  {
    hide OccursAt;
  }

  lemma {:induction false} FoundNone(text: seq<Byte>, st: seq<Byte>, gone: seq<seq<Byte>>, lo: nat, base: nat, m: int, end: nat)
    requires lo <= base <= end && (forall g | g in gone :: Absent(text, g, lo, end)) && (m < 0 || m + |st| > end || base == end)
    requires m < 0 ==> forall k: nat | base <= k :: !OccursAt(text, st, k)
    requires m >= 0 ==> forall k: nat | base <= k < m :: !OccursAt(text, st, k)
    requires st != []
    ensures AllAbsent(text, st, gone, base, end) && NoStart(text, st, base, end, end)
  {
    hide OccursAt;
  }

  /** The pieces so far end with a special one, if there are any. */
  ghost predicate Cutting(text: seq<Byte>, st: seq<Byte>, sid: nat, f: Frag, base: nat, ps: seq<Frag>) {
    CutTo(text, st, sid, f.off, base, f.off + f.len, ps) && (ps == [] || ps[|ps| - 1].id >= 0)
  }

  lemma {:induction false} CutPlain(text: seq<Byte>, st: seq<Byte>, sid: nat, f: Frag, base: nat, m: nat, ps: seq<Frag>)
    requires Cutting(text, st, sid, f, base, ps) && base <= m && NoStart(text, st, base, m, f.off + f.len)
    ensures CutTo(text, st, sid, f.off, m, f.off + f.len, ps + Plain(base, m))
  {
    if base < m {
      CutMore(text, st, sid, f.off, base, f.off + f.len, ps, Frag(-1, base, m - base));
    } else {
      assert ps + Plain(base, m) == ps;
    }
  }

  lemma {:induction false} CutSpecial(text: seq<Byte>, st: seq<Byte>, sid: nat, f: Frag, base: nat, m: nat, ps: seq<Frag>)
    requires Cutting(text, st, sid, f, base, ps) && base <= m && NoStart(text, st, base, m, f.off + f.len)
    requires OccursAt(text, st, m) && st != []
    ensures Cutting(text, st, sid, f, m + |st|, ps + Plain(base, m) + [Frag(sid, m, |st|)])
  {
    CutPlain(text, st, sid, f, base, m, ps);
    CutMore(text, st, sid, f.off, m, f.off + f.len, ps + Plain(base, m), Frag(sid, m, |st|));
  }

  /** The next occurrence joins the pieces, behind what is plain before it. */
  method PushFound(text: seq<Byte>, v: Vocab, r: seq<Frag>, f: Frag, sid: nat, base: nat, m: nat, ghost gone: seq<seq<Byte>>, ghost ps: seq<Frag>)
    returns (r': seq<Frag>)
    requires Special(v, sid) && f.off <= base <= m && m + |v.idToTok[sid]| <= f.off + f.len <= |text|
    requires Clean(r, text, v, base, v.idToTok[sid], gone) && forall g | g in gone :: Absent(text, g, f.off, f.off + f.len)
    requires Cutting(text, v.idToTok[sid], sid, f, base, ps)
    requires OccursAt(text, v.idToTok[sid], m) && forall k: nat | base <= k < m :: !OccursAt(text, v.idToTok[sid], k)
    ensures Clean(r', text, v, m + |v.idToTok[sid]|, v.idToTok[sid], gone)
    ensures Cutting(text, v.idToTok[sid], sid, f, m + |v.idToTok[sid]|, ps + Plain(base, m) + [Frag(sid, m, |v.idToTok[sid]|)])
    ensures r' == r + Plain(base, m) + [Frag(sid, m, |v.idToTok[sid]|)]
  {
    var st := v.idToTok[sid];
    assert st != [] && text[m..m + |st|] == st;
    hide *;
    FoundAt(text, st, gone, f.off, base, m, f.off + f.len);
    CutSpecial(text, st, sid, f, base, m, ps);
    r' := PushPlain(text, v, r, base, m, st, gone);
    CleanMore(r', text, v, m, st, gone, Frag(sid, m, |st|));
    r' := r' + [Frag(sid, m, |st|)];
  }

  lemma {:induction false} SpecialIs(v: Vocab, sid: nat)
    requires Special(v, sid)
    ensures sid < |v.idToTok| && v.idToTok[sid] != []
  {
  }

  lemma {:induction false} CutFirst(text: seq<Byte>, st: seq<Byte>, sid: nat, f: Frag)
    ensures Cutting(text, st, sid, f, f.off, [])
  {
  }

  lemma {:induction false} CutLast(text: seq<Byte>, st: seq<Byte>, sid: nat, f: Frag, base: nat, ps: seq<Frag>)
    requires f.id < 0 && base <= f.off + f.len && Cutting(text, st, sid, f, base, ps)
    requires NoStart(text, st, base, f.off + f.len, f.off + f.len)
    ensures PartOf(text, st, sid, f, ps + Plain(base, f.off + f.len))
  {
    CutPlain(text, st, sid, f, base, f.off + f.len, ps);
  }

  /** Cuts one plain fragment at the occurrences of a special token. */
  method SplitFrag(text: seq<Byte>, v: Vocab, f: Frag, sid: nat, next: seq<Frag>, ghost gone: seq<seq<Byte>>)
    returns (r: seq<Frag>, ghost ps: seq<Frag>)
    requires Special(v, sid) && f.off + f.len <= |text| && f.id < 0
    requires Clean(next, text, v, f.off, v.idToTok[sid], gone) && forall g | g in gone :: Absent(text, g, f.off, f.off + f.len)
    ensures Clean(r, text, v, f.off + f.len, v.idToTok[sid], gone)
    ensures r == next + ps && PartOf(text, v.idToTok[sid], sid, f, ps)
  {
    hide *;
    SpecialIs(v, sid);
    var st := v.idToTok[sid];
    r, ps := next, [];
    var base, end := f.off, f.off + f.len;
    CutFirst(text, st, sid, f);
    while base < end
      invariant f.off <= base <= end && Clean(r, text, v, base, st, gone)
      invariant r == next + ps && Cutting(text, st, sid, f, base, ps)
    {
      var m := Find(text, st, base);
      if m < 0 || m + |st| > end {
        FoundNone(text, st, gone, f.off, base, m, end);
        CutLast(text, st, sid, f, base, ps);
        r := PushPlain(text, v, r, base, end, st, gone);
        ps := ps + Plain(base, end);
        return;
      }
      r := PushFound(text, v, r, f, sid, base, m, gone, ps);
      ps := ps + Plain(base, m) + [Frag(sid, m, |st|)];
      base := m + |st|;
    }
    FoundNone(text, st, gone, f.off, base, base, end);
    CutLast(text, st, sid, f, base, ps);
    r := PushPlain(text, v, r, base, end, st, gone);
    ps := ps + Plain(base, end);
  }

  /** One fragment of the pass: a special one as it is, a plain one cut. */
  method SplitNext(text: seq<Byte>, v: Vocab, f: Frag, sid: nat, next: seq<Frag>, ghost gone: seq<seq<Byte>>)
    returns (r: seq<Frag>, ghost ps: seq<Frag>)
    requires Special(v, sid) && f.off + f.len <= |text|
    requires f.id >= 0 ==> Special(v, f.id) && text[f.off..f.off + f.len] == v.idToTok[f.id]
    requires Clean(next, text, v, f.off, v.idToTok[sid], gone)
    requires forall g | g in gone :: f.id < 0 ==> Absent(text, g, f.off, f.off + f.len)
    ensures Clean(r, text, v, f.off + f.len, v.idToTok[sid], gone)
    ensures r == next + ps && PartOf(text, v.idToTok[sid], sid, f, ps)
  {
    SpecialIs(v, sid);
    hide Special, Absent, CutTo, Clean;
    if f.id >= 0 {
      CleanMore(next, text, v, f.off, v.idToTok[sid], gone, f);
      r, ps := next + [f], [f];
    } else {
      r, ps := SplitFrag(text, v, f, sid, next, gone);
    }
  }

  lemma {:induction false} FreeOf(frags: seq<Frag>, text: seq<Byte>, gone: seq<seq<Byte>>, i: nat)
    requires i < |frags| && forall g | g in gone :: Free(frags, text, g)
    ensures forall g | g in gone :: frags[i].id < 0 ==> Absent(text, g, frags[i].off, frags[i].off + frags[i].len)
  {
    hide Absent;
  }

  /** A pass that has dealt with the first `i` fragments, which end at `upto`. */
  ghost predicate Passed(text: seq<Byte>, v: Vocab, frags: seq<Frag>, sid: nat, gone: seq<seq<Byte>>, next: seq<Frag>,
                         groups: seq<seq<Frag>>, i: nat, upto: nat) {
    && sid < |v.idToTok| && |groups| == i <= |frags|
    && Tiled(frags[..i], text, v, upto) && Clean(next, text, v, upto, v.idToTok[sid], gone) && next == Flatten(groups)
    && forall k | 0 <= k < i :: PartOf(text, v.idToTok[sid], sid, frags[k], groups[k])
  }

  lemma {:induction false} PassFirst(text: seq<Byte>, v: Vocab, frags: seq<Frag>, sid: nat, gone: seq<seq<Byte>>)
    requires sid < |v.idToTok|
    ensures Passed(text, v, frags, sid, gone, [], [], 0, 0)
  {
    assert frags[..0] == [];
  }

  lemma {:induction false} PassMore(text: seq<Byte>, v: Vocab, frags: seq<Frag>, sid: nat, gone: seq<seq<Byte>>, next: seq<Frag>,
                                    groups: seq<seq<Frag>>, i: nat, upto: nat, next': seq<Frag>, ps: seq<Frag>)
    requires Passed(text, v, frags, sid, gone, next, groups, i, upto) && i < |frags|
    requires Tiled(frags[..i + 1], text, v, upto + frags[i].len)
    requires next' == next + ps && PartOf(text, v.idToTok[sid], sid, frags[i], ps)
    requires Clean(next', text, v, upto + frags[i].len, v.idToTok[sid], gone)
    ensures Passed(text, v, frags, sid, gone, next', groups + [ps], i + 1, upto + frags[i].len)
  {
    hide Tiled, Clean, PartOf, Flatten;
    FlattenMore(groups, ps);
  }

  lemma {:induction false} PassLast(text: seq<Byte>, v: Vocab, frags: seq<Frag>, sid: nat, gone: seq<seq<Byte>>, next: seq<Frag>,
                                    groups: seq<seq<Frag>>, upto: nat)
    requires Passed(text, v, frags, sid, gone, next, groups, |frags|, upto) && Tiled(frags, text, v, |text|)
    ensures Clean(next, text, v, |text|, v.idToTok[sid], gone) && Pass(text, v.idToTok[sid], sid, frags, next)
  {
    hide PartOf, Flatten, Free;
    assert frags[..|frags|] == frags;
    TiledEnd(frags, text, v, |text|, upto);
    assert PassOf(text, v.idToTok[sid], sid, frags, next, groups);
  }

  lemma {:induction false} PassedIs(text: seq<Byte>, v: Vocab, frags: seq<Frag>, sid: nat, gone: seq<seq<Byte>>, next: seq<Frag>,
                                    groups: seq<seq<Frag>>, i: nat, upto: nat)
    requires Passed(text, v, frags, sid, gone, next, groups, i, upto)
    ensures sid < |v.idToTok| && i <= |frags| && Tiled(frags[..i], text, v, upto) && Clean(next, text, v, upto, v.idToTok[sid], gone)
  {
  }

  /** One pass over all fragments for one special token. */
  method SplitAll(text: seq<Byte>, v: Vocab, frags: seq<Frag>, sid: nat, ghost gone: seq<seq<Byte>>) returns (next: seq<Frag>)
    requires Special(v, sid) && Tiled(frags, text, v, |text|)
    requires forall g | g in gone :: Free(frags, text, g)
    ensures Clean(next, text, v, |text|, v.idToTok[sid], gone)
    ensures Pass(text, v.idToTok[sid], sid, frags, next)
  {
    hide *;
    SpecialIs(v, sid);
    next := [];
    ghost var upto: nat, groups: seq<seq<Frag>> := 0, [];
    PassFirst(text, v, frags, sid, gone);
    for i := 0 to |frags|
      invariant Passed(text, v, frags, sid, gone, next, groups, i, upto)
    {
      PassedIs(text, v, frags, sid, gone, next, groups, i, upto);
      TiledOnward(frags, text, v, i, upto);
      FreeOf(frags, text, gone, i);
      ghost var was, ps := next, [];
      next, ps := SplitNext(text, v, frags[i], sid, next, gone);
      PassMore(text, v, frags, sid, gone, was, groups, i, upto, next, ps);
      groups, upto := groups + [ps], upto + frags[i].len;
    }
    PassLast(text, v, frags, sid, gone, next, groups, upto);
  }

  lemma {:induction false} FlattenMore(groups: seq<seq<Frag>>, ps: seq<Frag>)
    ensures Flatten(groups + [ps]) == Flatten(groups) + ps
  {
    assert (groups + [ps])[..|groups|] == groups;
  }

  lemma {:induction false} TiledEnd(frags: seq<Frag>, text: seq<Byte>, v: Vocab, n: nat, m: nat)
    requires Tiled(frags, text, v, n) && Tiled(frags, text, v, m)
    ensures n == m
  {
  }

  /** Each fragment starts where the ones before it end, and is well-formed. */
  lemma {:induction false} TiledAt(frags: seq<Frag>, text: seq<Byte>, v: Vocab, n: nat, i: nat, upto: nat)
    requires Tiled(frags, text, v, n) && i < |frags| && Tiled(frags[..i], text, v, upto)
    ensures frags[i].off == upto && upto + frags[i].len <= |text|
    ensures frags[i].id >= 0 ==>
              Special(v, frags[i].id) && text[upto..upto + frags[i].len] == v.idToTok[frags[i].id]
    decreases |frags|
  {
    var last := |frags| - 1;
    if i < last {
      assert frags[..last][..i] == frags[..i];
      TiledAt(frags[..last], text, v, frags[last].off, i, upto);
    } else {
      TiledEnd(frags[..last], text, v, frags[last].off, upto);
    }
  }

  /** No special string is left inside a plain fragment. */
  ghost predicate AllFree(frags: seq<Frag>, text: seq<Byte>, v: Vocab, specials: seq<nat>) {
    forall k | 0 <= k < |specials| :: specials[k] < |v.idToTok| && Free(frags, text, v.idToTok[specials[k]])
  }

  predicate AllSpecial(v: Vocab, specials: seq<nat>) {
    forall k | 0 <= k < |specials| :: Special(v, specials[k])
  }

  /** A token that occurs nowhere changes nothing. */
  lemma {:induction false} IdlePass(text: seq<Byte>, v: Vocab, frags: seq<Frag>, sid: nat)
    requires sid < |v.idToTok| && Stretches(frags)
    requires forall k: nat :: !OccursAt(text, v.idToTok[sid], k)
    ensures Pass(text, v.idToTok[sid], sid, frags, frags)
  {
    hide CutTo, PartOf, OccursAt;
    var groups := seq(|frags|, i requires 0 <= i < |frags| => [frags[i]]);
    Singles(frags, |frags|, groups);
    forall i | 0 <= i < |frags|
      ensures PartOf(text, v.idToTok[sid], sid, frags[i], groups[i])
    {
      IdlePart(text, v.idToTok[sid], sid, frags[i]);
    }
    assert frags[..|frags|] == frags && groups[..|groups|] == groups;
    assert PassOf(text, v.idToTok[sid], sid, frags, frags, groups);
  }

  lemma {:induction false} IdlePart(text: seq<Byte>, st: seq<Byte>, sid: nat, f: Frag)
    requires (forall k: nat :: !OccursAt(text, st, k)) && (f.id < 0 ==> f.id == -1 && 0 < f.len)
    ensures PartOf(text, st, sid, f, [f])
  {
    hide OccursAt;
    if f.id < 0 {
      CutMore(text, st, sid, f.off, f.off, f.off + f.len, [], f);
      assert [] + [f] == [f];
    }
  }

  lemma {:induction false} Singles(frags: seq<Frag>, n: nat, groups: seq<seq<Frag>>)
    requires n <= |groups| == |frags| && forall i | 0 <= i < |frags| :: groups[i] == [frags[i]]
    ensures Flatten(groups[..n]) == frags[..n]
  {
    if n > 0 {
      Singles(frags, n - 1, groups);
      assert groups[..n][..n - 1] == groups[..n - 1] && frags[..n] == frags[..n - 1] + [frags[n - 1]];
    }
  }

  /** No plain fragment is empty. */
  predicate Stretches(frags: seq<Frag>) {
    forall i | 0 <= i < |frags| && frags[i].id < 0 :: frags[i].id == -1 && 0 < frags[i].len
  }

  lemma {:induction false} CutStretches(text: seq<Byte>, st: seq<Byte>, sid: nat, lo: nat, n: nat, hi: nat, ps: seq<Frag>)
    requires CutTo(text, st, sid, lo, n, hi, ps)
    ensures Stretches(ps)
    decreases |ps|
  {
    if ps != [] {
      CutStretches(text, st, sid, lo + ps[0].len, n, hi, ps[1..]);
      assert ps == [ps[0]] + ps[1..];
    }
  }

  lemma {:induction false} FlatStretches(groups: seq<seq<Frag>>)
    requires forall i | 0 <= i < |groups| :: Stretches(groups[i])
    ensures Stretches(Flatten(groups))
  {
    if groups != [] {
      FlatStretches(groups[..|groups| - 1]);
    }
  }

  lemma {:induction false} PassStretches(text: seq<Byte>, st: seq<Byte>, sid: nat, before: seq<Frag>, after: seq<Frag>)
    requires Pass(text, st, sid, before, after)
    ensures Stretches(after)
  {
    var groups :| PassOf(text, st, sid, before, after, groups);
    forall i | 0 <= i < |groups|
      ensures Stretches(groups[i])
    {
      var f := before[i];
      assert PartOf(text, st, sid, f, groups[i]);
      if f.id < 0 {
        CutStretches(text, st, sid, f.off, f.off + f.len, f.off + f.len, groups[i]);
      }
    }
    FlatStretches(groups);
  }

  lemma {:induction false} CutByMore(text: seq<Byte>, v: Vocab, specials: seq<nat>, i: nat, before: seq<Frag>, after: seq<Frag>)
    requires i < |specials| && specials[i] < |v.idToTok| && CutBy(text, v, specials[..i], before)
    requires Pass(text, v.idToTok[specials[i]], specials[i], before, after)
    ensures CutBy(text, v, specials[..i + 1], after)
  {
    assert specials[..i + 1][..i] == specials[..i];
  }

  /** The passes of the first `i` special tokens. */
  ghost predicate Fragmented(text: seq<Byte>, v: Vocab, specials: seq<nat>, i: nat, frags: seq<Frag>, gone: seq<seq<Byte>>) {
    && i <= |specials| && Tiled(frags, text, v, |text|) && Stretches(frags) && CutBy(text, v, specials[..i], frags)
    && |gone| == i && (forall k | 0 <= k < i :: specials[k] < |v.idToTok| && gone[k] == v.idToTok[specials[k]])
    && forall g | g in gone :: Free(frags, text, g)
  }

  lemma {:induction false} FragmentedNone(text: seq<Byte>, v: Vocab, specials: seq<nat>)
    ensures Fragmented(text, v, specials, 0, OnePiece(text), [])
  {
    assert specials[..0] == [] && OnePiece(text)[..0] == [];
  }

  lemma {:induction false} FragmentedMore(text: seq<Byte>, v: Vocab, specials: seq<nat>, i: nat, frags: seq<Frag>, gone: seq<seq<Byte>>, next: seq<Frag>)
    requires Fragmented(text, v, specials, i, frags, gone) && i < |specials| && specials[i] < |v.idToTok|
    requires Clean(next, text, v, |text|, v.idToTok[specials[i]], gone) && Pass(text, v.idToTok[specials[i]], specials[i], frags, next)
    ensures Fragmented(text, v, specials, i + 1, next, gone + [v.idToTok[specials[i]]])
  {
    hide CutBy, Pass, Stretches, Tiled, Free;
    PassStretches(text, v.idToTok[specials[i]], specials[i], frags, next);
    CutByMore(text, v, specials, i, frags, next);
  }

  lemma {:induction false} FragmentedAll(text: seq<Byte>, v: Vocab, specials: seq<nat>, frags: seq<Frag>, gone: seq<seq<Byte>>)
    requires Fragmented(text, v, specials, |specials|, frags, gone)
    ensures Tiled(frags, text, v, |text|) && AllFree(frags, text, v, specials) && CutBy(text, v, specials, frags)
  {
    hide CutBy, Tiled, Free, Stretches;
    assert specials[..|specials|] == specials;
    forall k | 0 <= k < |specials|
      ensures specials[k] < |v.idToTok| && Free(frags, text, v.idToTok[specials[k]])
    {
      assert gone[k] in gone;
    }
  }

  lemma {:induction false} Untouched(text: seq<Byte>, v: Vocab, specials: seq<nat>, i: nat, frags: seq<Frag>, gone: seq<seq<Byte>>, sid: nat)
    requires Fragmented(text, v, specials, i, frags, gone) && sid < |v.idToTok|
    requires forall k: nat :: !OccursAt(text, v.idToTok[sid], k)
    ensures Clean(frags, text, v, |text|, v.idToTok[sid], gone) && Pass(text, v.idToTok[sid], sid, frags, frags)
  {
    IdlePass(text, v, frags, sid);
    FreeOfNone(frags, text, v.idToTok[sid]);
  }

  lemma {:induction false} FragmentedIs(text: seq<Byte>, v: Vocab, specials: seq<nat>, i: nat, frags: seq<Frag>, gone: seq<seq<Byte>>)
    requires Fragmented(text, v, specials, i, frags, gone)
    ensures Tiled(frags, text, v, |text|) && forall g | g in gone :: Free(frags, text, g)
  {
  }

  lemma {:induction false} EachSpecial(v: Vocab, specials: seq<nat>, i: nat)
    requires AllSpecial(v, specials) && i < |specials|
    ensures Special(v, specials[i]) && specials[i] < |v.idToTok|
  {
  }

  /** All special tokens in turn. */
  method Fragment(text: seq<Byte>, v: Vocab, specials: seq<nat>) returns (frags: seq<Frag>)
    requires AllSpecial(v, specials)
    ensures Tiled(frags, text, v, |text|) && AllFree(frags, text, v, specials) && CutBy(text, v, specials, frags)
  {
    frags := if text == [] then [] else [Frag(-1, 0, |text|)];
    ghost var gone: seq<seq<Byte>> := [];
    assert frags == OnePiece(text);
    hide *;
    FragmentedNone(text, v, specials);
    for i := 0 to |specials|
      invariant Fragmented(text, v, specials, i, frags, gone)
    {
      EachSpecial(v, specials, i);
      FragmentedIs(text, v, specials, i, frags, gone);
      var st, sid := v.idToTok[specials[i]], specials[i];
      var m := Find(text, st, 0);
      ghost var before := frags;
      if m >= 0 {
        frags := SplitAll(text, v, frags, sid, gone);
      } else {
        Untouched(text, v, specials, i, frags, gone, sid);
      }
      FragmentedMore(text, v, specials, i, before, gone, frags);
      gone := gone + [st];
    }
    FragmentedAll(text, v, specials, frags, gone);
  }

  lemma {:induction false} FreeOfNone(frags: seq<Frag>, text: seq<Byte>, st: seq<Byte>)
    requires forall k: nat :: !OccursAt(text, st, k)
    ensures Free(frags, text, st)
  {
  }

  // ---- the whole text ------------------------------------------------------------

  /** The fragment lies in the text; a special one is its token's string. */
  ghost predicate Sound(v: Vocab, text: seq<Byte>, f: Frag) {
    && f.off + f.len <= |text|
    && (f.id >= 0 ==> Special(v, f.id) && text[f.off..f.off + f.len] == v.idToTok[f.id])
  }

  /** What the ids of a fragment decode to: plain text to itself, a special token to what its
      string reads as. */
  ghost function Back(v: Vocab, text: seq<Byte>, f: Frag): seq<Byte>
    requires f.off + f.len <= |text| && (f.id >= 0 ==> f.id < |v.idToTok|)
  {
    if f.id >= 0 then Unsymbol(v.idToTok[f.id], v.u2b) else text[f.off..f.off + f.len]
  }

  ghost function BackAll(v: Vocab, text: seq<Byte>, frags: seq<Frag>): seq<Byte>
    requires forall i | 0 <= i < |frags| :: Sound(v, text, frags[i])
  {
    if frags == [] then []
    else
      assert Sound(v, text, frags[|frags| - 1]);
      BackAll(v, text, frags[..|frags| - 1]) + Back(v, text, frags[|frags| - 1])
  }

  lemma {:induction false} TiledSound(frags: seq<Frag>, text: seq<Byte>, v: Vocab, n: nat)
    requires Tiled(frags, text, v, n)
    ensures n <= |text| && forall i | 0 <= i < |frags| :: Sound(v, text, frags[i])
    decreases |frags|
  {
    if frags != [] {
      var m := |frags| - 1;
      TiledSound(frags[..m], text, v, frags[m].off);
      assert frags == frags[..m] + [frags[m]];
    }
  }

  predicate AllLiteral(v: Vocab, frags: seq<Frag>) {
    forall i | 0 <= i < |frags| && frags[i].id >= 0 :: Literal(v, frags[i].id)
  }

  lemma {:induction false} BackShorter(v: Vocab, text: seq<Byte>, f: Frag)
    requires Sound(v, text, f)
    ensures |Back(v, text, f)| <= f.len
    ensures Back(v, text, f) == text[f.off..f.off + f.len] <==> f.id < 0 || Literal(v, f.id)
  {
    if f.id >= 0 {
      UnsymbolShorter(v.idToTok[f.id], v.u2b);
    }
  }

  lemma {:induction false} BackMore(v: Vocab, text: seq<Byte>, init: seq<Frag>, f: Frag)
    requires Sound(v, text, f) && forall i | 0 <= i < |init| :: Sound(v, text, init[i])
    requires forall i | 0 <= i <= |init| :: Sound(v, text, (init + [f])[i])
    ensures BackAll(v, text, init + [f]) == BackAll(v, text, init) + Back(v, text, f)
  {
    hide Sound, Back;
    assert (init + [f])[..|init|] == init;
  }

  lemma {:induction false} BackNone(v: Vocab, text: seq<Byte>)
    ensures BackAll(v, text, []) == [] && AllLiteral(v, [])
  {
  }

  /** Nothing grows by decoding, so the text comes back exactly if every special token in it does. */
  lemma {:induction false} BackIff(frags: seq<Frag>, text: seq<Byte>, v: Vocab, n: nat)
    requires Tiled(frags, text, v, n) && n <= |text| && forall i | 0 <= i < |frags| :: Sound(v, text, frags[i])
    ensures |BackAll(v, text, frags)| <= n
    ensures BackAll(v, text, frags) == text[..n] <==> AllLiteral(v, frags)
    decreases |frags|
  {
    if frags != [] {
      var m := |frags| - 1;
      var f, init := frags[m], frags[..m];
      assert Sound(v, text, f) && f.off + f.len <= |text| && (f.id >= 0 ==> f.id < |v.idToTok|) && forall i | 0 <= i < |init| :: init[i] == frags[i];
      TiledLast(frags, text, v, n);
      hide *;
      BackIff(init, text, v, f.off);
      BackShorter(v, text, f);
      assert frags == init + [f];
      BackMore(v, text, init, f);
      assert text[..n] == text[..f.off] + text[f.off..n];
      Pieces(BackAll(v, text, init), Back(v, text, f), text[..f.off], text[f.off..n]);
      AllLiteralMore(v, init, f);
    } else {
      BackNone(v, text);
      assert text[..n] == [];
    }
  }

  lemma {:induction false} AllLiteralMore(v: Vocab, frags: seq<Frag>, f: Frag)
    ensures AllLiteral(v, frags + [f]) <==> AllLiteral(v, frags) && (f.id < 0 || Literal(v, f.id))
  {
    hide Literal;
    if AllLiteral(v, frags + [f]) {
      forall i | 0 <= i < |frags| && frags[i].id >= 0
        ensures Literal(v, frags[i].id)
      {
        assert (frags + [f])[i] == frags[i];
      }
      assert (frags + [f])[|frags|] == f;
    }
  }

  lemma {:induction false} TiledLast(frags: seq<Frag>, text: seq<Byte>, v: Vocab, n: nat)
    requires Tiled(frags, text, v, n) && frags != []
    ensures Tiled(frags[..|frags| - 1], text, v, frags[|frags| - 1].off) && frags[|frags| - 1].off + frags[|frags| - 1].len == n
  {
  }

  lemma {:induction false} Pieces(a: seq<Byte>, b: seq<Byte>, x: seq<Byte>, y: seq<Byte>)
    requires |a| <= |x| && |b| <= |y|
    ensures a + b == x + y <==> a == x && b == y
  {
    if a + b == x + y {
      assert |a| + |b| == |x| + |y|;
      assert a == (a + b)[..|a|] == (x + y)[..|x|] == x;
      assert b == (a + b)[|a|..] == (x + y)[|x|..] == y;
    }
  }

  /** The ids of a fragment: its token, or those of its plain text. */
  ghost predicate FragIds(v: Vocab, text: seq<Byte>, pre: BpePre, uni: nat -> Class, f: Frag, ids: seq<nat>) {
    && f.off + f.len <= |text|
    && if f.id >= 0 then ids == [f.id] else PlainIds(v, text[f.off..f.off + f.len], pre, uni, ids)
  }

  method EncodeFragment(v: Vocab, text: seq<Byte>, f: Frag, pre: BpePre, uni: nat -> Class) returns (ids: seq<nat>)
    requires Complete(v) && Sound(v, text, f)
    ensures DecodeAll(v, ids) == Back(v, text, f) && FragIds(v, text, pre, uni, f, ids)
  {
    hide PlainIds;
    if f.id >= 0 {
      DecodeSingle(v, f.id);
      return [f.id];
    }
    ids := EncodeBpe(v, text[f.off..f.off + f.len], pre, uni);
  }

  function Joined(parts: seq<seq<nat>>): seq<nat> {
    if parts == [] then [] else Joined(parts[..|parts| - 1]) + parts[|parts| - 1]
  }

  /** One fragment further. */
  lemma {:induction false} TiledOnward(frags: seq<Frag>, text: seq<Byte>, v: Vocab, i: nat, upto: nat)
    requires Tiled(frags, text, v, |text|) && i < |frags| && Tiled(frags[..i], text, v, upto)
    ensures frags[i].off == upto && upto + frags[i].len <= |text|
    ensures frags[i].id >= 0 ==> Special(v, frags[i].id) && text[upto..upto + frags[i].len] == v.idToTok[frags[i].id]
    ensures Tiled(frags[..i + 1], text, v, upto + frags[i].len)
  {
    TiledAt(frags, text, v, |text|, i, upto);
    TiledStep(frags[..i], text, v, upto, frags[i]);
    assert frags[..i + 1] == frags[..i] + [frags[i]];
  }

  lemma {:induction false} NextFragment(frags: seq<Frag>, text: seq<Byte>, v: Vocab, i: nat, upto: nat)
    requires Tiled(frags, text, v, |text|) && i < |frags| && Tiled(frags[..i], text, v, upto)
    ensures frags[i].off == upto && Sound(v, text, frags[i]) && Tiled(frags[..i + 1], text, v, upto + frags[i].len)
  {
    hide Tiled, Special;
    TiledOnward(frags, text, v, i, upto);
  }

  /** The first `i` fragments are encoded: `ids` are their parts, and decode to what they read as. */
  ghost predicate Encoded(v: Vocab, text: seq<Byte>, pre: BpePre, uni: nat -> Class, frags: seq<Frag>,
                          parts: seq<seq<nat>>, ids: seq<nat>, i: nat)
    requires forall k | 0 <= k < |frags| :: Sound(v, text, frags[k])
  {
    && |parts| == i <= |frags| && DecodeAll(v, ids) == BackAll(v, text, frags[..i]) && ids == Joined(parts)
    && forall k | 0 <= k < i :: FragIds(v, text, pre, uni, frags[k], parts[k])
  }

  lemma {:induction false} EncodedMore(v: Vocab, text: seq<Byte>, pre: BpePre, uni: nat -> Class, frags: seq<Frag>,
                                       parts: seq<seq<nat>>, ids: seq<nat>, i: nat, more: seq<nat>)
    requires forall k | 0 <= k < |frags| :: Sound(v, text, frags[k])
    requires Encoded(v, text, pre, uni, frags, parts, ids, i) && i < |frags|
    requires DecodeAll(v, more) == Back(v, text, frags[i]) && FragIds(v, text, pre, uni, frags[i], more)
    ensures Encoded(v, text, pre, uni, frags, parts + [more], ids + more, i + 1)
  {
    hide FragIds, DecodeAll, Back, Sound;
    DecodeConcat(v, ids, more);
    assert frags[..i + 1][..i] == frags[..i];
    assert (parts + [more])[..i] == parts;
  }

  lemma {:induction false} EncodedNone(v: Vocab, text: seq<Byte>, pre: BpePre, uni: nat -> Class, frags: seq<Frag>)
    requires forall k | 0 <= k < |frags| :: Sound(v, text, frags[k])
    ensures Encoded(v, text, pre, uni, frags, [], [], 0)
  {
    hide FragIds;
  }

  lemma {:induction false} EncodedAll(v: Vocab, text: seq<Byte>, pre: BpePre, uni: nat -> Class, frags: seq<Frag>,
                                      parts: seq<seq<nat>>, ids: seq<nat>)
    requires forall k | 0 <= k < |frags| :: Sound(v, text, frags[k])
    requires Encoded(v, text, pre, uni, frags, parts, ids, |frags|)
    ensures DecodeAll(v, ids) == BackAll(v, text, frags) && ids == Joined(parts) && |parts| == |frags|
    ensures forall i | 0 <= i < |frags| :: FragIds(v, text, pre, uni, frags[i], parts[i])
  {
    assert frags[..|frags|] == frags;
  }

  /** The fragments one after the other. */
  method EncodeFragments(v: Vocab, text: seq<Byte>, frags: seq<Frag>, pre: BpePre, uni: nat -> Class)
    returns (ids: seq<nat>, ghost parts: seq<seq<nat>>)
    requires Complete(v) && forall k | 0 <= k < |frags| :: Sound(v, text, frags[k])
    ensures DecodeAll(v, ids) == BackAll(v, text, frags) && ids == Joined(parts) && |parts| == |frags|
    ensures forall i | 0 <= i < |frags| :: FragIds(v, text, pre, uni, frags[i], parts[i])
  {
    hide *;
    ids, parts := [], [];
    EncodedNone(v, text, pre, uni, frags);
    for i := 0 to |frags|
      invariant Encoded(v, text, pre, uni, frags, parts, ids, i)
    {
      var more := EncodeFragment(v, text, frags[i], pre, uni);
      EncodedMore(v, text, pre, uni, frags, parts, ids, i, more);
      ids, parts := ids + more, parts + [more];
    }
    EncodedAll(v, text, pre, uni, frags, parts, ids);
  }

  /** The ids of a text without a beginning-of-text token: those of its fragments, as the special
      tokens cut it. They decode to the text exactly if each special token among them does. */
  ghost predicate TextIds(v: Vocab, text: seq<Byte>, specials: seq<nat>, pre: BpePre, uni: nat -> Class, ids: seq<nat>) {
    exists frags: seq<Frag>, parts: seq<seq<nat>> :: FragmentIds(v, text, specials, pre, uni, ids, frags, parts)
  }

  ghost predicate FragmentIds(v: Vocab, text: seq<Byte>, specials: seq<nat>, pre: BpePre, uni: nat -> Class, ids: seq<nat>,
                              frags: seq<Frag>, parts: seq<seq<nat>>) {
    && Tiled(frags, text, v, |text|) && AllFree(frags, text, v, specials) && CutBy(text, v, specials, frags)
    && ids == Joined(parts) && |parts| == |frags|
    && (forall i | 0 <= i < |frags| :: FragIds(v, text, pre, uni, frags[i], parts[i]))
    && (DecodeAll(v, ids) == text <==> AllLiteral(v, frags))
  }

  lemma {:induction false} TextIdsBy(v: Vocab, text: seq<Byte>, specials: seq<nat>, pre: BpePre, uni: nat -> Class,
                                     ids: seq<nat>, frags: seq<Frag>, parts: seq<seq<nat>>)
    requires FragmentIds(v, text, specials, pre, uni, ids, frags, parts)
    ensures TextIds(v, text, specials, pre, uni, ids)
  {
    hide FragmentIds;
  }

  lemma {:induction false} FragmentIdsBy(v: Vocab, text: seq<Byte>, specials: seq<nat>, pre: BpePre, uni: nat -> Class,
                                         ids: seq<nat>, frags: seq<Frag>, parts: seq<seq<nat>>)
    requires Tiled(frags, text, v, |text|) && AllFree(frags, text, v, specials) && CutBy(text, v, specials, frags)
    requires ids == Joined(parts) && |parts| == |frags|
    requires forall i | 0 <= i < |frags| :: FragIds(v, text, pre, uni, frags[i], parts[i])
    requires forall k | 0 <= k < |frags| :: Sound(v, text, frags[k])
    requires DecodeAll(v, ids) == BackAll(v, text, frags)
    ensures FragmentIds(v, text, specials, pre, uni, ids, frags, parts)
  {
    hide Tiled, AllFree, CutBy, Joined, FragIds, AllLiteral, Sound;
    BackIff(frags, text, v, |text|);
    assert text[..|text|] == text;
  }

  method EncodeBody(v: Vocab, text: seq<Byte>, specials: seq<nat>, pre: BpePre, uni: nat -> Class) returns (ids: seq<nat>)
    requires Complete(v) && AllSpecial(v, specials)
    ensures TextIds(v, text, specials, pre, uni, ids)
  {
    hide *;
    var frags := Fragment(text, v, specials);
    TiledSound(frags, text, v, |text|);
    ghost var parts;
    ids, parts := EncodeFragments(v, text, frags, pre, uni);
    FragmentIdsBy(v, text, specials, pre, uni, ids, frags, parts);
    TextIdsBy(v, text, specials, pre, uni, ids, frags, parts);
  }

  /** The body with the beginning-of-text token in front, once, if it is wanted. */
  predicate Marked(ids: seq<nat>, body: seq<nat>, bos: bool, bosId: int) {
    if !bos || (body != [] && body[0] == bosId) then ids == body else bosId >= 0 && ids == [bosId as nat] + body
  }

  /** `ids` are those of the text, marked once if `bos`. */
  ghost predicate Encodes(v: Vocab, text: seq<Byte>, specials: seq<nat>, pre: BpePre, uni: nat -> Class,
                          bos: bool, bosId: int, ids: seq<nat>) {
    exists body: seq<nat> :: Marked(ids, body, bos, bosId) && TextIds(v, text, specials, pre, uni, body)
  }

  lemma {:induction false} EncodesBy(v: Vocab, text: seq<Byte>, specials: seq<nat>, pre: BpePre, uni: nat -> Class,
                                     bos: bool, bosId: int, ids: seq<nat>, body: seq<nat>)
    requires Marked(ids, body, bos, bosId) && TextIds(v, text, specials, pre, uni, body)
    ensures Encodes(v, text, specials, pre, uni, bos, bosId, ids)
  {
    hide Marked, TextIds;
  }

  /** The mark before `body`, less a second one. */
  method Mark(body: seq<nat>, bos: bool, bosId: int) returns (ids: seq<nat>)
    requires bos ==> bosId >= 0
    ensures Marked(ids, body, bos, bosId)
  {
    ids := [];
    if bos {
      ids := [bosId];
    }
    ids := ids + body;
    if bos && |ids| >= 2 && ids[1] == bosId {
      ids := ids[..1] + ids[2..];
      assert ids == body;
    }
  }

  /** Encoding: the ids of the text, and the beginning-of-text token once, if asked for and there
      is one, even when the text spells it out. */
  method Encode(v: Vocab, text: seq<Byte>, specials: seq<nat>, pre: BpePre, uni: nat -> Class,
                addBos: bool, bosPolicy: bool, bosId: int)
    returns (ids: seq<nat>)
    requires Complete(v) && AllSpecial(v, specials)
    ensures Encodes(v, text, specials, pre, uni, addBos && bosPolicy && bosId >= 0, bosId, ids)
  {
    hide *;
    var bos := addBos && bosPolicy && bosId >= 0;
    var body := EncodeBody(v, text, specials, pre, uni);
    ids := Mark(body, bos, bosId);
    EncodesBy(v, text, specials, pre, uni, bos, bosId, ids, body);
  }

  /** The special tokens of a cut text are among those it is cut by. */
  lemma {:induction false} SpecialIds(text: seq<Byte>, v: Vocab, specials: seq<nat>, frags: seq<Frag>)
    requires CutBy(text, v, specials, frags)
    ensures forall i | 0 <= i < |frags| && frags[i].id >= 0 :: frags[i].id in specials
    decreases |specials|
  {
    if specials != [] {
      var k := |specials| - 1;
      var before :| CutBy(text, v, specials[..k], before) && Pass(text, v.idToTok[specials[k]], specials[k], before, frags);
      hide Pass, CutBy;
      SpecialIds(text, v, specials[..k], before);
      assert IdsIn(before, specials);
      PassIds(text, v.idToTok[specials[k]], specials[k], before, frags, specials);
    }
  }

  lemma {:induction false} PassIds(text: seq<Byte>, st: seq<Byte>, sid: nat, before: seq<Frag>, after: seq<Frag>, specials: seq<nat>)
    requires Pass(text, st, sid, before, after) && IdsIn(before, specials) && sid in specials
    ensures IdsIn(after, specials)
  {
    hide CutTo;
    var groups :| PassOf(text, st, sid, before, after, groups);
    forall i | 0 <= i < |groups|
      ensures IdsIn(groups[i], specials)
    {
      var f := before[i];
      assert PartOf(text, st, sid, f, groups[i]);
      if f.id < 0 {
        CutIds(text, st, sid, f.off, f.off + f.len, f.off + f.len, groups[i], specials);
      }
    }
    FlatIds(groups, specials);
  }

  predicate IdsIn(ps: seq<Frag>, specials: seq<nat>) {
    forall i | 0 <= i < |ps| && ps[i].id >= 0 :: ps[i].id in specials
  }

  lemma {:induction false} CutIds(text: seq<Byte>, st: seq<Byte>, sid: nat, lo: nat, n: nat, hi: nat, ps: seq<Frag>, specials: seq<nat>)
    requires CutTo(text, st, sid, lo, n, hi, ps) && sid in specials
    ensures IdsIn(ps, specials)
    decreases |ps|
  {
    if ps != [] {
      CutIds(text, st, sid, lo + ps[0].len, n, hi, ps[1..], specials);
      assert ps == [ps[0]] + ps[1..];
    }
  }

  lemma {:induction false} FlatIds(groups: seq<seq<Frag>>, specials: seq<nat>)
    requires forall i | 0 <= i < |groups| :: IdsIn(groups[i], specials)
    ensures IdsIn(Flatten(groups), specials)
  {
    if groups != [] {
      FlatIds(groups[..|groups| - 1], specials);
    }
  }

  /** The text is cut in its one way, and every special token it is cut at decodes to itself. */
  ghost predicate ComesBack(v: Vocab, text: seq<Byte>, specials: seq<nat>) {
    exists frags :: CutBy(text, v, specials, frags) && AllLiteral(v, frags)
  }

  lemma {:induction false} LiteralsComeBack(v: Vocab, text: seq<Byte>, specials: seq<nat>, frags: seq<Frag>)
    requires CutBy(text, v, specials, frags) && forall k | 0 <= k < |specials| :: Literal(v, specials[k])
    ensures ComesBack(v, text, specials)
  {
    SpecialIds(text, v, specials, frags);
    hide CutBy, Literal;
    forall i | 0 <= i < |frags| && frags[i].id >= 0
      ensures Literal(v, frags[i].id)
    {
      var k :| 0 <= k < |specials| && specials[k] == frags[i].id;
    }
    assert AllLiteral(v, frags);
  }

  /** Of all the ways to describe it, there is one cut. */
  lemma {:induction false} DecodesIff(v: Vocab, text: seq<Byte>, specials: seq<nat>, pre: BpePre, uni: nat -> Class, ids: seq<nat>)
    requires TextIds(v, text, specials, pre, uni, ids)
    ensures DecodeAll(v, ids) == text <==> ComesBack(v, text, specials)
    ensures (forall k | 0 <= k < |specials| :: Literal(v, specials[k])) ==> ComesBack(v, text, specials)
  {
    hide Tiled, AllFree, CutBy, Joined, FragIds, AllLiteral, DecodeAll, Literal;
    var frags, parts :| FragmentIds(v, text, specials, pre, uni, ids, frags, parts);
    if ComesBack(v, text, specials) {
      var other :| CutBy(text, v, specials, other) && AllLiteral(v, other);
      FragmentsUnique(text, v, specials, frags, other);
    }
    if forall k | 0 <= k < |specials| :: Literal(v, specials[k]) {
      LiteralsComeBack(v, text, specials, frags);
    }
  }

  /** Decoding gives back what was encoded without the marker, exactly if every special token the text
      is cut at decodes to itself; so it does whenever all special tokens do. */
  method RoundTrip(v: Vocab, text: seq<Byte>, specials: seq<nat>, pre: BpePre, uni: nat -> Class) returns (out: seq<Byte>)
    requires Complete(v) && AllSpecial(v, specials)
    ensures out == text <==> ComesBack(v, text, specials)
    ensures (forall k | 0 <= k < |specials| :: Literal(v, specials[k])) ==> out == text
  {
    hide *;
    var ids := Encode(v, text, specials, pre, uni, false, false, -1);
    Unmarked(v, text, specials, pre, uni, ids);
    DecodesIff(v, text, specials, pre, uni, ids);
    out := Decode(v, ids);
  }

  lemma {:induction false} Unmarked(v: Vocab, text: seq<Byte>, specials: seq<nat>, pre: BpePre, uni: nat -> Class, ids: seq<nat>)
    requires Encodes(v, text, specials, pre, uni, false, -1, ids)
    ensures TextIds(v, text, specials, pre, uni, ids)
  {
    hide TextIds;
  }

  lemma {:induction false} OneSpecial(text: seq<Byte>, v: Vocab, sid: nat)
    requires Special(v, sid) && v.idToTok[sid] == text
    ensures CutBy(text, v, [sid], [Frag(sid, 0, |text|)])
  {
    var f, whole := Frag(sid, 0, |text|), OnePiece(text);
    var groups := [[f]];
    assert text[0..0 + |text|] == text && [f][1..] == [];
    assert PartOf(text, text, sid, whole[0], [f]);
    assert groups[..0] == [] && Flatten(groups) == [f];
    assert PassOf(text, text, sid, whole, [f], groups);
    assert [sid][..0] == [] && CutBy(text, v, [sid][..0], whole);
  }

  /** A special token with an accented letter, U+00E9 between angle brackets, does not come back: the
      text that is nothing but it decodes to something else. */
  method AccentedSpecial(v: Vocab, sid: nat, pre: BpePre, uni: nat -> Class) returns (out: seq<Byte>)
    requires Complete(v) && Special(v, sid) && v.idToTok[sid] == Spell([0x3C, 0xE9, 0x3E])
    ensures out != Spell([0x3C, 0xE9, 0x3E])
  {
    var text := Spell([0x3C, 0xE9, 0x3E]);
    AccentLost(v, text, sid);
    assert AllSpecial(v, [sid]);
    out := RoundTrip(v, text, [sid], pre, uni);
  }

  lemma {:induction false} AccentLost(v: Vocab, text: seq<Byte>, sid: nat)
    requires Complete(v) && Special(v, sid) && v.idToTok[sid] == text == Spell([0x3C, 0xE9, 0x3E])
    ensures !ComesBack(v, text, [sid])
  {
    LiteralIff(v, sid, [0x3C, 0xE9, 0x3E]);
    OneSpecial(text, v, sid);
    assert Remapped([0x3C, 0xE9, 0x3E][1]);
    hide CutBy, Literal, Spell;
    forall frags: seq<Frag> | CutBy(text, v, [sid], frags)
      ensures !AllLiteral(v, frags)
    {
      FragmentsUnique(text, v, [sid], frags, [Frag(sid, 0, |text|)]);
      assert frags[0].id == sid;
    }
  }
}
