/** Byte-level BPE: the byte alphabet, rank-ordered merging, and the round trip of a chunk. */
module BytePairs {
  import opened Regex
  import opened Utf8
  import opened Chunking

  // ---- the byte alphabet ---------------------------------------------------------

  predicate Printable(b: nat) { 33 <= b <= 126 || 161 <= b <= 172 || 174 <= b <= 255 }

  /** How many bytes below `b` are not printable. */
  function Rank(b: nat): nat
    requires b <= 256
  {
    if b == 0 then 0 else Rank(b - 1) + if Printable(b - 1) then 0 else 1
  }

  /** The visible codepoint of a byte. */
  function Visible(b: nat): nat
    requires b < 256
  {
    if Printable(b) then b else 256 + Rank(b)
  }

  lemma {:induction false} RankIs(b: nat)
    requires b <= 256
    ensures Rank(b) == if b <= 33 then b else if b <= 127 then 33 else if b <= 161 then b - 94 else if b <= 173 then 67 else 68
  {
    if b > 0 {
      RankIs(b - 1);
    }
  }

  /** The byte alphabet of GPT-2: 68 bytes, the controls, the space and the soft hyphen among them,
      become the codepoints from 256 on, in their order. The others stay. */
  lemma {:induction false} VisibleTable(b: nat)
    requires b < 256
    ensures Visible(b) == if b <= 32 then 256 + b else if 127 <= b <= 160 then 162 + b else if b == 173 then 323 else b
  {
    RankIs(b);
  }

  lemma {:induction false} RankGrows(a: nat, b: nat)
    requires a <= b <= 256
    ensures Rank(a) <= Rank(b) <= Rank(a) + (b - a)
    ensures a < b && !Printable(a) ==> Rank(a) < Rank(b)
    decreases b
  {
    if a < b {
      RankGrows(a, b - 1);
    }
  }

  lemma {:induction false} VisibleBound(b: nat)
    requires b < 256
    ensures Visible(b) < 512
  {
    RankGrows(0, b);
  }

  /** A byte as a symbol: UTF-8 of its visible codepoint. */
  function Symbol(b: Byte): (s: seq<Byte>)
    ensures |s| == 1 || |s| == 2
    ensures s[0] < 192 <==> |s| == 1
    ensures s[0] < 224
  {
    VisibleBound(b);
    Utf8.Utf8(Visible(b))
  }

  lemma {:induction false} VisibleInjective(a: Byte, b: Byte)
    requires a != b
    ensures Visible(a) != Visible(b)
  {
    if !Printable(a) && !Printable(b) {
      RankGrows(if a < b then a else b, if a < b then b else a);
    }
  }

  lemma {:induction false} SymbolInjective(a: Byte, b: Byte)
    requires Symbol(a) == Symbol(b)
    ensures a == b
  {
    VisibleBound(a);
    VisibleBound(b);
    var x, y := Visible(a), Visible(b);
    if |Symbol(a)| == 1 {
      assert Utf8.Utf8(x)[0] == Utf8.Utf8(y)[0];
    } else {
      assert Utf8.Utf8(x)[0] == Utf8.Utf8(y)[0] && Utf8.Utf8(x)[1] == Utf8.Utf8(y)[1];
      assert x == x / 64 * 64 + x % 64 && y == y / 64 * 64 + y % 64;
    }
    if a != b {
      VisibleInjective(a, b);
    }
  }

  /** An ASCII symbol stands for itself, and only printable ASCII has one. */
  lemma {:induction false} AsciiSymbol(b: Byte, c: Byte)
    requires c < 128 && Symbol(b) == [c]
    ensures b == c
  {
    VisibleBound(b);
    assert Utf8.Utf8(Visible(b))[0] == c;
  }

  /** Entered so far: in the first pass the printable bytes below `n`, in the second all of
      those and the others below `n`. */
  predicate Entered(b: nat, n: nat, second: bool) {
    if second then b < n || Printable(b) else b < n && Printable(b)
  }

  /** The two tables, inverse to each other, and nothing else in them. */
  ghost predicate Alphabet(b2u: seq<seq<Byte>>, u2b: map<seq<Byte>, Byte>, n: nat, second: bool) {
    && |b2u| == 256
    && (forall b: Byte | Entered(b, n, second) :: b2u[b] == Symbol(b) && Symbol(b) in u2b && u2b[Symbol(b)] == b)
    && forall s | s in u2b :: Entered(u2b[s], n, second) && s == Symbol(u2b[s])
  }

  ghost predicate WholeAlphabet(b2u: seq<seq<Byte>>, u2b: map<seq<Byte>, Byte>) {
    && |b2u| == 256
    && (forall b: Byte :: b2u[b] == Symbol(b) && Symbol(b) in u2b && u2b[Symbol(b)] == b)
    && forall s | s in u2b :: s == Symbol(u2b[s])
  }

  /** Enters a byte under its codepoint. */
  method Put(b2u: seq<seq<Byte>>, u2b: map<seq<Byte>, Byte>, b: Byte, cp: nat, ghost second: bool)
    returns (r: seq<seq<Byte>>, m: map<seq<Byte>, Byte>)
    requires Alphabet(b2u, u2b, b, second) && cp == Visible(b) && Entered(b, b + 1, second)
    ensures Alphabet(r, m, b + 1, second)
  {
    VisibleBound(b);
    var s := Utf8.Utf8(cp);
    r, m := b2u[b := s], u2b[s := b];
    forall x: Byte | Symbol(x) == s
      ensures x == b
    {
      SymbolInjective(x, b);
    }
  }

  /** The printable bytes first, then the others under codepoints from 256 on. */
  method BuildByteUnicode() returns (b2u: seq<seq<Byte>>, u2b: map<seq<Byte>, Byte>)
    ensures WholeAlphabet(b2u, u2b)
  {
    b2u, u2b := seq(256, _ => []), map[];
    for b := 0 to 256
      invariant Alphabet(b2u, u2b, b, false)
    {
      if Printable(b) {
        b2u, u2b := Put(b2u, u2b, b, b, false);
      }
    }
    var n := 0;
    for b := 0 to 256
      invariant n == Rank(b) && Alphabet(b2u, u2b, b, true)
    {
      if !Printable(b) {
        b2u, u2b := Put(b2u, u2b, b, 256 + n, true);
        n := n + 1;
      }
    }
  }

  // ---- merging -------------------------------------------------------------------

  ghost function Flat(syms: seq<seq<Byte>>): seq<Byte> {
    if syms == [] then [] else syms[0] + Flat(syms[1..])
  }

  lemma {:induction false} FlatConcat(a: seq<seq<Byte>>, b: seq<seq<Byte>>)
    ensures Flat(a + b) == Flat(a) + Flat(b)
  {
    if a == [] {
      assert a + b == b;
    } else {
      assert (a + b)[1..] == a[1..] + b;
      FlatConcat(a[1..], b);
    }
  }

  lemma {:induction false} FlatOne(x: seq<Byte>)
    ensures Flat([x]) == x
  {
    var rest: seq<seq<Byte>> := [x][1..];
    assert rest == [] && x + [] == x;
  }

  lemma {:induction false} FlatThree(a: seq<seq<Byte>>, m: seq<seq<Byte>>, z: seq<seq<Byte>>)
    ensures Flat(a + m + z) == Flat(a) + Flat(m) + Flat(z)
  {
    FlatConcat(a + m, z);
    FlatConcat(a, m);
  }

  lemma {:induction false} FlatTwo(x: seq<Byte>, y: seq<Byte>)
    ensures Flat([x, y]) == x + y == Flat([x + y])
  {
    FlatOne(x);
    FlatOne(y);
    FlatOne(x + y);
    assert [x, y] == [x] + [y];
    FlatConcat([x], [y]);
  }

  /** Symbols with `i` and its right neighbour joined. */
  function Join(syms: seq<seq<Byte>>, i: nat): seq<seq<Byte>>
    requires i + 1 < |syms|
  {
    syms[..i] + [syms[i] + syms[i + 1]] + syms[i + 2..]
  }

  lemma {:induction false} JoinFlat(syms: seq<seq<Byte>>, i: nat)
    requires i + 1 < |syms|
    ensures Flat(Join(syms, i)) == Flat(syms)
  {
    hide Flat;
    var a, x, y, z := syms[..i], syms[i], syms[i + 1], syms[i + 2..];
    assert syms == a + [x, y] + z;
    FlatThree(a, [x, y], z);
    FlatThree(a, [x + y], z);
    FlatTwo(x, y);
  }

  /** The key of a pair in the merge table: the two symbols with a space between them. */
  function Key(a: seq<Byte>, b: seq<Byte>): seq<Byte> { a + [32] + b }

  /** Pair `i` may be merged. */
  predicate Mergeable(syms: seq<seq<Byte>>, rank: map<seq<Byte>, nat>, i: nat) {
    i + 1 < |syms| && Key(syms[i], syms[i + 1]) in rank
  }

  function PairRank(syms: seq<seq<Byte>>, rank: map<seq<Byte>, nat>, i: nat): nat
    requires Mergeable(syms, rank, i)
  {
    rank[Key(syms[i], syms[i + 1])]
  }

  /** The leftmost pair of the lowest rank. */
  ghost predicate Best(syms: seq<seq<Byte>>, rank: map<seq<Byte>, nat>, i: nat) {
    && Mergeable(syms, rank, i)
    && (forall j: nat | Mergeable(syms, rank, j) :: PairRank(syms, rank, i) <= PairRank(syms, rank, j))
    && forall j: nat | j < i && Mergeable(syms, rank, j) :: PairRank(syms, rank, i) < PairRank(syms, rank, j)
  }

  lemma {:induction false} BestUnique(syms: seq<seq<Byte>>, rank: map<seq<Byte>, nat>, i: nat, j: nat)
    requires Best(syms, rank, i) && Best(syms, rank, j)
    ensures i == j
  {
  }

  /** Merging the best pair again and again until none is left. */
  ghost function Merged(syms: seq<seq<Byte>>, rank: map<seq<Byte>, nat>): seq<seq<Byte>>
    decreases |syms|
  {
    if exists i: nat :: Best(syms, rank, i) then
      var i: nat :| Best(syms, rank, i);
      Merged(Join(syms, i), rank)
    else syms
  }

  const INT32_MAX: nat := 0x7fff_ffff

  /** The scan for the pair to merge; -1 if there is none. */
  method BestPair(syms: seq<seq<Byte>>, rank: map<seq<Byte>, nat>) returns (besti: int)
    requires forall k | k in rank :: rank[k] < INT32_MAX
    ensures besti < 0 ==> forall j: nat :: !Mergeable(syms, rank, j)
    ensures besti >= 0 ==> Best(syms, rank, besti)
  {
    var best: nat := INT32_MAX;
    besti := -1;
    var i := 0;
    while i + 1 < |syms|
      invariant besti < i && (besti < 0 ==> best == INT32_MAX && forall j: nat | j < i :: !Mergeable(syms, rank, j))
      invariant besti >= 0 ==> Mergeable(syms, rank, besti) && best == PairRank(syms, rank, besti)
      invariant forall j: nat | j < i && Mergeable(syms, rank, j) ::
        best <= PairRank(syms, rank, j) && (j < besti ==> best < PairRank(syms, rank, j))
      decreases |syms| - i
    {
      var key := Key(syms[i], syms[i + 1]);
      if key in rank && rank[key] < best {
        best, besti := rank[key], i;
      }
      i := i + 1;
    }
  }

  /** The vocabulary holds every symbol and every merge result. */
  ghost predicate Closed(vocab: set<seq<Byte>>, rank: map<seq<Byte>, nat>) {
    forall a, b {:trigger Key(a, b)} | Key(a, b) in rank :: a + b in vocab
  }

  ghost predicate Known(syms: seq<seq<Byte>>, vocab: set<seq<Byte>>) {
    forall i | 0 <= i < |syms| :: syms[i] in vocab
  }

  /** Merges until no adjacent pair is in the table. */
  method MergeAll(syms: seq<seq<Byte>>, rank: map<seq<Byte>, nat>, ghost vocab: set<seq<Byte>>) returns (out: seq<seq<Byte>>)
    requires forall k | k in rank :: rank[k] < INT32_MAX
    requires Closed(vocab, rank) && Known(syms, vocab)
    ensures out == Merged(syms, rank) && Flat(out) == Flat(syms) && Known(out, vocab)
    ensures forall j: nat :: !Mergeable(out, rank, j)
  {
    out := syms;
    while true
      invariant Flat(out) == Flat(syms) && Known(out, vocab)
      invariant Merged(out, rank) == Merged(syms, rank)
      decreases |out|
    {
      var i := BestPair(out, rank);
      if i < 0 {
        return;
      }
      JoinFlat(out, i);
      MergedStep(out, rank, i);
      out := Join(out, i);
    }
  }

  lemma {:induction false} MergedStep(syms: seq<seq<Byte>>, rank: map<seq<Byte>, nat>, i: nat)
    requires Best(syms, rank, i)
    ensures Merged(syms, rank) == Merged(Join(syms, i), rank)
  {
    forall j: nat | Best(syms, rank, j)
      ensures j == i
    {
      BestUnique(syms, rank, i, j);
    }
  }

  // ---- one chunk -----------------------------------------------------------------

  function Symbols(chunk: seq<Byte>): seq<seq<Byte>> {
    seq(|chunk|, i requires 0 <= i < |chunk| => Symbol(chunk[i]))
  }

  /** The tables of a byte-level BPE tokenizer. */
  datatype Vocab = Vocab(
    idToTok: seq<seq<Byte>>, tokToId: map<seq<Byte>, nat>, rank: map<seq<Byte>, nat>,
    b2u: seq<seq<Byte>>, u2b: map<seq<Byte>, Byte>)

  /** What makes a vocabulary complete: every id is its string's, every byte has a token, every
      merge yields one. */
  ghost predicate Complete(v: Vocab) {
    && WholeAlphabet(v.b2u, v.u2b)
    && (forall s | s in v.tokToId :: v.tokToId[s] < |v.idToTok| && v.idToTok[v.tokToId[s]] == s)
    && (forall b: Byte :: Symbol(b) in v.tokToId)
    && Closed(v.tokToId.Keys, v.rank) && forall k | k in v.rank :: v.rank[k] < INT32_MAX
  }

  /** The ids of known symbols. */
  function Ids(v: Vocab, syms: seq<seq<Byte>>): seq<nat>
    requires forall i | 0 <= i < |syms| :: syms[i] in v.tokToId
  {
    seq(|syms|, i requires 0 <= i < |syms| => v.tokToId[syms[i]])
  }

  method ToSymbols(v: Vocab, chunk: seq<Byte>) returns (syms: seq<seq<Byte>>)
    requires WholeAlphabet(v.b2u, v.u2b)
    ensures syms == Symbols(chunk)
  {
    syms := [];
    for i := 0 to |chunk|
      invariant |syms| == i && forall k | 0 <= k < i :: syms[k] == Symbol(chunk[k])
    {
      syms := syms + [v.b2u[chunk[i]]];
    }
  }

  /** Looks symbols up; one the vocabulary lacks is dropped. */
  method LookUp(v: Vocab, syms: seq<seq<Byte>>) returns (ids: seq<nat>)
    ensures Known(syms, v.tokToId.Keys) ==> ids == Ids(v, syms)
  {
    ids := [];
    for i := 0 to |syms|
      invariant Known(syms, v.tokToId.Keys) ==> |ids| == i && forall k | 0 <= k < i :: ids[k] == v.tokToId[syms[k]]
    {
      if syms[i] in v.tokToId {
        ids := ids + [v.tokToId[syms[i]]];
      }
    }
  }

  /** A chunk's bytes become symbols, symbols are merged, and each is looked up. */
  method EncodeChunk(v: Vocab, chunk: seq<Byte>) returns (ids: seq<nat>)
    requires Complete(v)
    ensures Known(Merged(Symbols(chunk), v.rank), v.tokToId.Keys)
    ensures ids == Ids(v, Merged(Symbols(chunk), v.rank))
    ensures Flat(Merged(Symbols(chunk), v.rank)) == Flat(Symbols(chunk))
  {
    var syms := ToSymbols(v, chunk);
    var out := MergeAll(syms, v.rank, v.tokToId.Keys);
    ids := LookUp(v, out);
  }

  // ---- decoding ------------------------------------------------------------------

  /** Length of the symbol that starts with byte `c`. */
  function SymLen(c: Byte): nat { if c >= 224 then 3 else if c >= 192 then 2 else 1 }

  function Min(a: nat, b: nat): nat { if a < b then a else b }

  /** Reads a token's string symbol by symbol; what is no symbol stands for itself. */
  function Unsymbol(t: seq<Byte>, u2b: map<seq<Byte>, Byte>): seq<Byte> {
    if t == [] then []
    else
      var n := Min(SymLen(t[0]), |t|);
      (if t[..n] in u2b then [u2b[t[..n]]] else t[..n]) + Unsymbol(t[n..], u2b)
  }

  lemma {:induction false} UnsymbolShorter(t: seq<Byte>, u2b: map<seq<Byte>, Byte>)
    ensures |Unsymbol(t, u2b)| <= |t|
  {
    if t != [] {
      UnsymbolShorter(t[Min(SymLen(t[0]), |t|)..], u2b);
    }
  }

  lemma {:induction false} UnsymbolStep(t: seq<Byte>, u2b: map<seq<Byte>, Byte>, sym: seq<Byte>, rest: seq<Byte>)
    requires t == sym + rest && t != [] && |sym| == Min(SymLen(t[0]), |t|)
    ensures Unsymbol(t, u2b) == (if sym in u2b then [u2b[sym]] else sym) + Unsymbol(rest, u2b)
  {
    assert t[..|sym|] == sym && t[|sym|..] == rest;
  }

  lemma {:induction false} Assoc<T>(a: seq<T>, b: seq<T>, c: seq<T>)
    ensures a + (b + c) == (a + b) + c
  {
  }

  /** One symbol of a token's string. */
  method DecodeSymbol(t: seq<Byte>, i: nat, u2b: map<seq<Byte>, Byte>) returns (piece: seq<Byte>, n: nat)
    requires i < |t|
    ensures 0 < n <= |t| - i && Unsymbol(t[i..], u2b) == piece + Unsymbol(t[i + n..], u2b)
  {
    n := Min(SymLen(t[i]), |t| - i);
    var sym := t[i..i + n];
    UnsymbolStep(t[i..], u2b, sym, t[i + n..]);
    piece := if sym in u2b then [u2b[sym]] else sym;
  }

  method DecodeToken(v: Vocab, id: int) returns (out: seq<Byte>)
    ensures out == if 0 <= id < |v.idToTok| then Unsymbol(v.idToTok[id], v.u2b) else []
  {
    out := [];
    if id < 0 || id >= |v.idToTok| {
      return;
    }
    var t := v.idToTok[id];
    var i := 0;
    while i < |t|
      invariant i <= |t| && Unsymbol(t, v.u2b) == out + Unsymbol(t[i..], v.u2b)
    {
      var piece, n := DecodeSymbol(t, i, v.u2b);
      Assoc(out, piece, Unsymbol(t[i + n..], v.u2b));
      out, i := out + piece, i + n;
    }
    assert out + [] == out;
  }

  lemma {:induction false} SymbolHead(bytes: seq<Byte>)
    requires bytes != []
    ensures Flat(Symbols(bytes)) == Symbol(bytes[0]) + Flat(Symbols(bytes[1..]))
    ensures |Symbol(bytes[0])| == SymLen(Symbol(bytes[0])[0])
  {
    assert Symbols(bytes)[1..] == Symbols(bytes[1..]);
  }

  /** Decoding undoes the byte alphabet. */
  lemma {:induction false} UnsymbolFlat(bytes: seq<Byte>, b2u: seq<seq<Byte>>, u2b: map<seq<Byte>, Byte>)
    requires WholeAlphabet(b2u, u2b)
    ensures Unsymbol(Flat(Symbols(bytes)), u2b) == bytes
  {
    if bytes != [] {
      var s, rest := Symbol(bytes[0]), Flat(Symbols(bytes[1..]));
      SymbolHead(bytes);
      UnsymbolStep(s + rest, u2b, s, rest);
      UnsymbolFlat(bytes[1..], b2u, u2b);
    }
  }

  /** Decoding is compositional over whole symbols. */
  lemma {:induction false} UnsymbolConcat(b: seq<Byte>, bytes: seq<Byte>, u2b: map<seq<Byte>, Byte>)
    ensures Unsymbol(Flat(Symbols(bytes)) + b, u2b) == Unsymbol(Flat(Symbols(bytes)), u2b) + Unsymbol(b, u2b)
    decreases |bytes|
  {
    if bytes == [] {
      assert Flat(Symbols(bytes)) + b == b;
    } else {
      var s, rest := Symbol(bytes[0]), Flat(Symbols(bytes[1..]));
      SymbolHead(bytes);
      UnsymbolConcat(b, bytes[1..], u2b);
      UnsymbolStep(s + rest, u2b, s, rest);
      Assoc(s, rest, b);
      UnsymbolStep(s + (rest + b), u2b, s, rest + b);
      Assoc(if s in u2b then [u2b[s]] else s, Unsymbol(rest, u2b), Unsymbol(b, u2b));
    }
  }

  /** ASCII text stands for itself. */
  lemma {:induction false} UnsymbolAscii(t: seq<Byte>, b2u: seq<seq<Byte>>, u2b: map<seq<Byte>, Byte>)
    requires WholeAlphabet(b2u, u2b) && forall i | 0 <= i < |t| :: t[i] < 128
    ensures Unsymbol(t, u2b) == t
  {
    if t != [] {
      assert t[..1] == [t[0]];
      if t[..1] in u2b {
        AsciiSymbol(u2b[t[..1]], t[0]);
      }
      UnsymbolAscii(t[1..], b2u, u2b);
    }
  }

  // ---- strings that read as themselves ---------------------------------------------

  /** The codepoints above ASCII that stand for a byte. */
  predicate Remapped(cp: nat) { 161 <= cp <= 323 && cp != 173 }

  /** The UTF-8 of some codepoints. */
  function Spell(cps: seq<nat>): seq<Byte>
    requires forall i | 0 <= i < |cps| :: cps[i] < 0x110000
  {
    if cps == [] then [] else Utf8.Utf8(cps[0]) + Spell(cps[1..])
  }

  /** The byte whose symbol is a remapped codepoint. */
  function ByteOf(cp: nat): Byte
    requires Remapped(cp)
  {
    if cp <= 255 then cp else if cp <= 288 then cp - 256 else if cp <= 322 then cp - 162 else 173
  }

  lemma {:induction false} SymbolOfByte(cp: nat)
    requires Remapped(cp)
    ensures Symbol(ByteOf(cp)) == Utf8.Utf8(cp) && |Utf8.Utf8(cp)| == 2
  {
    VisibleTable(ByteOf(cp));
  }

  /** Two codepoints of at most two bytes with one spelling are one. */
  lemma {:induction false} OneSpelling(x: nat, cp: nat)
    requires x < 0x800 && cp < 0x110000 && Utf8.Utf8(x) == Utf8.Utf8(cp)
    ensures x == cp
  {
    if x < 0x80 {
      assert Utf8.Utf8(x)[0] == x;
    } else {
      assert Utf8.Utf8(x)[0] == Utf8.Utf8(cp)[0] && Utf8.Utf8(x)[1] == Utf8.Utf8(cp)[1];
      assert x == x / 64 * 64 + x % 64 && cp == cp / 64 * 64 + cp % 64;
    }
  }

  /** Only printable ASCII and the remapped codepoints are symbols. */
  lemma {:induction false} SymbolsAre(b: Byte, cp: nat)
    requires cp < 0x110000 && Symbol(b) == Utf8.Utf8(cp) && !Remapped(cp)
    ensures Utf8.Utf8(cp) == [b]
  {
    VisibleTable(b);
    VisibleBound(b);
    OneSpelling(Visible(b), cp);
  }

  /** No symbol has three bytes, and none is a lone continuation byte. */
  lemma {:induction false} NoSymbol(sym: seq<Byte>, b2u: seq<seq<Byte>>, u2b: map<seq<Byte>, Byte>)
    requires WholeAlphabet(b2u, u2b) && (|sym| == 3 || (|sym| == 1 && sym[0] >= 128))
    ensures sym !in u2b
  {
    if sym in u2b {
      VisibleBound(u2b[sym]);
    }
  }

  lemma {:induction false} ReadsCp(cp: nat, rest: seq<Byte>, b2u: seq<seq<Byte>>, u2b: map<seq<Byte>, Byte>)
    requires WholeAlphabet(b2u, u2b) && cp < 0x110000
    ensures Unsymbol(Utf8.Utf8(cp) + rest, u2b) == (if Remapped(cp) then [ByteOf(cp)] else Utf8.Utf8(cp)) + Unsymbol(rest, u2b)
  {
    var u := Utf8.Utf8(cp);
    if |u| == 4 {
      var a, d := u[..3], [u[3]];
      assert u + rest == a + (d + rest);
      NoSymbol(a, b2u, u2b);
      NoSymbol(d, b2u, u2b);
      UnsymbolStep(u + rest, u2b, a, d + rest);
      UnsymbolStep(d + rest, u2b, d, rest);
      Assoc(a, d, Unsymbol(rest, u2b));
    } else {
      UnsymbolStep(u + rest, u2b, u, rest);
      if |u| == 3 {
        NoSymbol(u, b2u, u2b);
      } else if Remapped(cp) {
        SymbolOfByte(cp);
      } else if u in u2b {
        SymbolsAre(u2b[u], cp);
      }
    }
  }

  /** A string reads as itself exactly if it has no remapped codepoint. */
  lemma {:induction false} ReadsAsSelfIff(cps: seq<nat>, b2u: seq<seq<Byte>>, u2b: map<seq<Byte>, Byte>)
    requires WholeAlphabet(b2u, u2b) && forall i | 0 <= i < |cps| :: cps[i] < 0x110000
    ensures Unsymbol(Spell(cps), u2b) == Spell(cps) <==> forall i | 0 <= i < |cps| :: !Remapped(cps[i])
  {
    if cps != [] {
      var cp, rest := cps[0], Spell(cps[1..]);
      ReadsCp(cp, rest, b2u, u2b);
      ReadsAsSelfIff(cps[1..], b2u, u2b);
      UnsymbolShorter(rest, u2b);
      if Remapped(cp) {
        SymbolOfByte(cp);
        assert |Unsymbol(Spell(cps), u2b)| < |Spell(cps)|;
      } else {
        SameTail(Utf8.Utf8(cp), Unsymbol(rest, u2b), rest);
        assert (forall i | 0 <= i < |cps| :: !Remapped(cps[i])) <==> forall i | 0 <= i < |cps[1..]| :: !Remapped(cps[1..][i]) by {
          if forall i | 0 <= i < |cps[1..]| :: !Remapped(cps[1..][i]) {
            forall i | 0 <= i < |cps|
              ensures !Remapped(cps[i])
            {
              assert i > 0 ==> cps[i] == cps[1..][i - 1];
            }
          }
        }
      }
    }
  }

  lemma {:induction false} SameTail(a: seq<Byte>, x: seq<Byte>, y: seq<Byte>)
    ensures a + x == a + y <==> x == y
  {
    if a + x == a + y {
      assert x == (a + x)[|a|..] == (a + y)[|a|..] == y;
    }
  }

  // ---- the keys of the merge table -------------------------------------------------

  /** No symbol holds a space, so a key tells its two parts. */
  lemma {:induction false} NoSpace(b: Byte)
    ensures 32 !in Symbol(b)
  {
    VisibleTable(b);
    VisibleBound(b);
  }

  lemma {:induction false} LongerHasSpace(a: seq<Byte>, b: seq<Byte>, c: seq<Byte>, d: seq<Byte>)
    requires Key(a, b) == Key(c, d) && |a| < |c|
    ensures 32 in c
  {
    var k := Key(a, b);
    assert k[|a|] == 32 && k[|a|] == c[|a|];
  }

  lemma {:induction false} KeyTellsParts(a: seq<Byte>, b: seq<Byte>, c: seq<Byte>, d: seq<Byte>)
    requires 32 !in a && 32 !in c && Key(a, b) == Key(c, d)
    ensures a == c && b == d
  {
    if |a| < |c| {
      LongerHasSpace(a, b, c, d);
    } else if |c| < |a| {
      LongerHasSpace(c, d, a, b);
    } else {
      var k := Key(a, b);
      assert a == k[..|a|] && c == k[..|c|] && b == k[|a| + 1..] && d == k[|c| + 1..];
    }
  }
}
