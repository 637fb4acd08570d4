/** The list of special tokens, longest first, and what that order is for: a token that contains a
    shorter one wins. */
module SpecialTokens {
  import opened Utf8
  import opened BytePairs
  import opened Tokenizing

  // ---- the list ------------------------------------------------------------------

  predicate Distinct(ids: seq<nat>) {
    forall i, j | 0 <= i < j < |ids| :: ids[i] != ids[j]
  }

  lemma {:induction false} DistinctMore(ids: seq<nat>, id: nat)
    requires Distinct(ids) && id !in ids
    ensures Distinct(ids + [id])
  {
  }

  predicate InRange(v: Vocab, ids: seq<nat>) {
    forall i | 0 <= i < |ids| :: ids[i] < |v.idToTok|
  }

  /** Declared by its type: unknown, control or user-defined, with a string. */
  predicate Typed(v: Vocab, types: seq<int>, id: nat) {
    id < |types| && id < |v.idToTok| && 2 <= types[id] <= 4 && v.idToTok[id] != []
  }

  /** The end markers: ids that are declared, if any, and ids found by their text, each once. */
  method EndMarkers(declared: seq<int>, found: seq<nat>) returns (ends: seq<nat>)
    ensures Distinct(ends) && forall id: nat :: id in ends <==> id in declared || id in found
  {
    ends := [];
    for i := 0 to |declared|
      invariant Distinct(ends) && forall id: nat :: id in ends <==> id in declared[..i]
    {
      if declared[i] >= 0 && declared[i] !in ends {
        DistinctMore(ends, declared[i]);
        ends := ends + [declared[i]];
      }
    }
    for i := 0 to |found|
      invariant Distinct(ends) && forall id: nat :: id in ends <==> id in declared || id in found[..i]
    {
      if found[i] !in ends {
        DistinctMore(ends, found[i]);
        ends := ends + [found[i]];
      }
    }
  }

  /** Tokens by type, in the order of their ids, then the end markers that are not among them. */
  method Collect(v: Vocab, types: seq<int>, ends: seq<nat>) returns (ids: seq<nat>)
    ensures Distinct(ids) && forall id: nat :: id in ids <==> Typed(v, types, id) || id in ends
  {
    ids := [];
    var n := if |types| < |v.idToTok| then |types| else |v.idToTok|;
    for id := 0 to n
      invariant Distinct(ids) && forall k: nat :: k in ids <==> k < id && Typed(v, types, k)
    {
      if (types[id] == 2 || types[id] == 3 || types[id] == 4) && v.idToTok[id] != [] {
        DistinctMore(ids, id);
        ids := ids + [id];
      }
    }
    for i := 0 to |ends|
      invariant Distinct(ids) && forall k: nat :: k in ids <==> Typed(v, types, k) || k in ends[..i]
    {
      if ends[i] !in ids {
        DistinctMore(ids, ends[i]);
        ids := ids + [ends[i]];
      }
    }
  }

  // ---- longest first -------------------------------------------------------------

  predicate LongestFirst(v: Vocab, ids: seq<nat>) {
    && InRange(v, ids)
    && forall i, j | 0 <= i < j < |ids| :: |v.idToTok[ids[i]]| >= |v.idToTok[ids[j]]|
  }

  /** The tokens of one length, in their order. */
  function OfLength(v: Vocab, ids: seq<nat>, n: nat): seq<nat>
    requires InRange(v, ids)
  {
    if ids == [] then []
    else
      var m := |ids| - 1;
      OfLength(v, ids[..m], n) + if |v.idToTok[ids[m]]| == n then [ids[m]] else []
  }

  lemma {:induction false} OfLengthJoin(v: Vocab, a: seq<nat>, b: seq<nat>, n: nat)
    requires InRange(v, a) && InRange(v, b)
    ensures InRange(v, a + b) && OfLength(v, a + b, n) == OfLength(v, a, n) + OfLength(v, b, n)
    decreases |b|
  {
    if b == [] {
      assert a + b == a;
    } else {
      var m := |b| - 1;
      OfLengthJoin(v, a, b[..m], n);
      assert (a + b)[..|a + b| - 1] == a + b[..m];
    }
  }

  lemma {:induction false} NoneOfLength(v: Vocab, ids: seq<nat>, n: nat)
    requires InRange(v, ids) && forall i | 0 <= i < |ids| :: |v.idToTok[ids[i]]| != n
    ensures OfLength(v, ids, n) == []
  {
    if ids != [] {
      NoneOfLength(v, ids[..|ids| - 1], n);
    }
  }

  /** A stable sort of these ids: longest first, and among equals in their old order. */
  ghost predicate Sorts(v: Vocab, ids: seq<nat>, s: seq<nat>) {
    && InRange(v, ids) && LongestFirst(v, s) && multiset(s) == multiset(ids)
    && forall n: nat :: OfLength(v, s, n) == OfLength(v, ids, n)
  }

  /** `x` is put behind everything that is as long. */
  predicate Fits(v: Vocab, s: seq<nat>, x: nat, k: nat) {
    && InRange(v, s) && x < |v.idToTok| && k <= |s|
    && (forall i | 0 <= i < k :: |v.idToTok[s[i]]| >= |v.idToTok[x]|)
    && forall i | k <= i < |s| :: |v.idToTok[s[i]]| < |v.idToTok[x]|
  }

  lemma {:induction false} InsertKeeps(v: Vocab, ids: seq<nat>, s: seq<nat>, x: nat, k: nat, n: nat)
    requires InRange(v, ids) && Fits(v, s, x, k) && OfLength(v, s, n) == OfLength(v, ids, n)
    ensures InRange(v, s[..k] + [x] + s[k..]) && InRange(v, ids + [x])
    ensures OfLength(v, s[..k] + [x] + s[k..], n) == OfLength(v, ids + [x], n)
  {
    hide OfLength;
    var a, b := s[..k], s[k..];
    assert s == a + b;
    OfLengthJoin(v, a, b, n);
    OfLengthJoin(v, a, [x], n);
    OfLengthJoin(v, a + [x], b, n);
    OfLengthJoin(v, ids, [x], n);
    if n == |v.idToTok[x]| {
      NoneOfLength(v, b, n);
    } else {
      NoneOfLength(v, [x], n);
    }
  }

  lemma {:induction false} InsertOrdered(v: Vocab, s: seq<nat>, x: nat, k: nat)
    requires LongestFirst(v, s) && Fits(v, s, x, k)
    ensures LongestFirst(v, s[..k] + [x] + s[k..])
  {
  }

  lemma {:induction false} FitsRange(v: Vocab, s: seq<nat>, x: nat, k: nat)
    requires Fits(v, s, x, k)
    ensures x < |v.idToTok| && k <= |s| && InRange(v, s)
  {
  }

  lemma {:induction false} InsertSorts(v: Vocab, ids: seq<nat>, s: seq<nat>, x: nat, k: nat)
    requires Sorts(v, ids, s) && Fits(v, s, x, k)
    ensures Sorts(v, ids + [x], s[..k] + [x] + s[k..])
  {
    hide OfLength, LongestFirst, Fits;
    FitsRange(v, s, x, k);
    InsertOrdered(v, s, x, k);
    assert s == s[..k] + s[k..];
    forall n: nat
      ensures OfLength(v, s[..k] + [x] + s[k..], n) == OfLength(v, ids + [x], n)
    {
      InsertKeeps(v, ids, s, x, k, n);
    }
  }

  method SortByLength(v: Vocab, ids: seq<nat>) returns (s: seq<nat>)
    requires InRange(v, ids)
    ensures Sorts(v, ids, s)
  {
    s := [];
    assert ids[..0] == [];
    for i := 0 to |ids|
      invariant Sorts(v, ids[..i], s)
    {
      var k: nat := |s|;
      while k > 0 && |v.idToTok[s[k - 1]]| < |v.idToTok[ids[i]]|
        invariant k <= |s| && InRange(v, s) && forall j | k <= j < |s| :: |v.idToTok[s[j]]| < |v.idToTok[ids[i]]|
      {
        k := k - 1;
      }
      InsertSorts(v, ids[..i], s, ids[i], k);
      assert ids[..i + 1] == ids[..i] + [ids[i]];
      s := s[..k] + [ids[i]] + s[k..];
    }
    assert ids[..|ids|] == ids;
  }

  /** The special tokens of a vocabulary, sorted. All of them have a string, as cutting a text needs, exactly
      if the end markers do. */
  method Specials(v: Vocab, types: seq<int>, declared: seq<int>, found: seq<nat>) returns (ids: seq<nat>, ghost all: seq<nat>)
    requires (forall id | id in declared :: id < |v.idToTok|) && forall id | id in found :: id < |v.idToTok|
    ensures Sorts(v, all, ids) && LongestFirst(v, ids) && Distinct(ids)
    ensures forall id: nat :: id in ids <==> Typed(v, types, id) || id in declared || id in found
    ensures AllSpecial(v, ids) <==> forall id: nat | id in declared || id in found :: v.idToTok[id] != []
  {
    var ends := EndMarkers(declared, found);
    var unsorted := Collect(v, types, ends);
    assert forall i | 0 <= i < |unsorted| :: unsorted[i] in unsorted;
    ids := SortByLength(v, unsorted);
    all := unsorted;
    SameMembers(all, ids);
    StillDistinct(all, ids);
    AllSpecialIff(v, ids);
  }

  /** At an empty string the cutting loop stands still: it is found where the search begins, and the next
      search begins there again. */
  lemma {:induction false} StandsStill(text: seq<Byte>, v: Vocab, id: nat, base: nat, end: nat)
    requires id < |v.idToTok| && v.idToTok[id] == [] && base < end <= |text|
    ensures OccursAt(text, v.idToTok[id], base) && base + |v.idToTok[id]| == base < end
  {
    assert text[base..base + 0] == [];
  }

  lemma {:induction false} SameMembers(a: seq<nat>, b: seq<nat>)
    requires multiset(a) == multiset(b)
    ensures forall id: nat :: id in a <==> id in b
  {
    forall id: nat
      ensures id in a <==> id in b
    {
      assert id in a <==> id in multiset(a);
      assert id in b <==> id in multiset(b);
    }
  }

  lemma {:induction false} StillDistinct(a: seq<nat>, b: seq<nat>)
    requires multiset(a) == multiset(b) && Distinct(a)
    ensures Distinct(b)
  {
    forall i, j | 0 <= i < j < |b|
      ensures b[i] != b[j]
    {
      if b[i] == b[j] {
        Twice(b, i, j);
        Once(a, b[i]);
      }
    }
  }

  lemma {:induction false} Once(a: seq<nat>, x: nat)
    requires Distinct(a)
    ensures multiset(a)[x] <= 1
  {
    if a != [] {
      var n := |a| - 1;
      Once(a[..n], x);
      assert a == a[..n] + [a[n]];
      if x == a[n] {
        assert x !in a[..n];
      }
    }
  }

  lemma {:induction false} Twice(b: seq<nat>, i: nat, j: nat)
    requires i < j < |b| && b[i] == b[j]
    ensures multiset(b)[b[i]] >= 2
  {
    assert b == b[..j] + b[j..] && b[i] in b[..j] && b[j] in b[j..];
    assert multiset(b) == multiset(b[..j]) + multiset(b[j..]);
  }

  lemma {:induction false} AllSpecialIff(v: Vocab, ids: seq<nat>)
    requires InRange(v, ids)
    ensures AllSpecial(v, ids) <==> forall id | id in ids :: v.idToTok[id] != []
  {
    if AllSpecial(v, ids) {
      forall id | id in ids
        ensures v.idToTok[id] != []
      {
        var i :| 0 <= i < |ids| && ids[i] == id;
        assert Special(v, ids[i]);
      }
    }
  }

  // ---- the longer one wins -------------------------------------------------------

  predicate Over(f: Frag, m: nat) {
    f.off <= m < f.off + f.len
  }

  /** Every byte has its fragment. */
  predicate Covers(frags: seq<Frag>, n: nat) {
    forall m | 0 <= m < n :: Covered(frags, m)
  }

  predicate Covered(frags: seq<Frag>, m: nat) {
    exists i :: 0 <= i < |frags| && Over(frags[i], m)
  }

  predicate SpecialFrom(frags: seq<Frag>, m: nat) {
    exists i :: 0 <= i < |frags| && frags[i].id >= 0 && frags[i].off == m
  }

  /** Plain text ends at the end or in front of a special token. */
  predicate Edged(frags: seq<Frag>, n: nat) {
    forall i | 0 <= i < |frags| && frags[i].id < 0 :: frags[i].off + frags[i].len == n || SpecialFrom(frags, frags[i].off + frags[i].len)
  }

  /** Special fragments are tokens of the list, whole. */
  ghost predicate Whole(frags: seq<Frag>, v: Vocab, specials: seq<nat>) {
    forall f | f in frags && f.id >= 0 :: f.id in specials && f.id < |v.idToTok| && f.len == |v.idToTok[f.id]|
  }

  lemma {:induction false} InFlat(groups: seq<seq<Frag>>, f: Frag)
    ensures f in Flatten(groups) <==> exists i :: 0 <= i < |groups| && f in groups[i]
  {
    if groups != [] {
      var n := |groups| - 1;
      InFlat(groups[..n], f);
      if i :| 0 <= i < |groups| && f in groups[i] {
        assert i < n ==> groups[..n][i] == groups[i];
      }
      if i :| 0 <= i < n && f in groups[..n][i] {
        assert f in groups[i];
      }
    }
  }

  /** A fragment behind a pass is one that was special before, or a piece of one that was plain, whose pieces
      are all there. */
  ghost predicate PieceOf(text: seq<Byte>, st: seq<Byte>, sid: nat, f: Frag, ps: seq<Frag>, g: Frag, after: seq<Frag>) {
    && f.id < 0 && CutTo(text, st, sid, f.off, f.off + f.len, f.off + f.len, ps) && g in ps
    && forall q | q in ps :: q in after
  }

  lemma {:induction false} FromBefore(text: seq<Byte>, st: seq<Byte>, sid: nat, before: seq<Frag>, after: seq<Frag>, g: Frag)
    requires Pass(text, st, sid, before, after) && g in after
    ensures (g in before && g.id >= 0) || exists f, ps :: f in before && PieceOf(text, st, sid, f, ps, g, after)
  {
    hide CutTo;
    var groups :| PassOf(text, st, sid, before, after, groups);
    InFlat(groups, g);
    var i :| 0 <= i < |groups| && g in groups[i];
    assert PartOf(text, st, sid, before[i], groups[i]);
    if before[i].id < 0 {
      GroupIn(groups, i);
      assert PieceOf(text, st, sid, before[i], groups[i], g, after);
    }
  }

  lemma {:induction false} GroupIn(groups: seq<seq<Frag>>, i: nat)
    requires i < |groups|
    ensures forall q | q in groups[i] :: q in Flatten(groups)
  {
    forall q | q in groups[i]
      ensures q in Flatten(groups)
    {
      InFlat(groups, q);
    }
  }

  /** Special fragments stay, and of a plain one all pieces are there. */
  lemma {:induction false} IntoAfter(text: seq<Byte>, st: seq<Byte>, sid: nat, before: seq<Frag>, after: seq<Frag>, f: Frag) returns (ps: seq<Frag>)
    requires Pass(text, st, sid, before, after) && f in before
    ensures PartOf(text, st, sid, f, ps) && forall q | q in ps :: q in after
  {
    hide CutTo, PartOf;
    var groups :| PassOf(text, st, sid, before, after, groups);
    var i :| 0 <= i < |before| && before[i] == f;
    GroupIn(groups, i);
    ps := groups[i];
  }

  // ---- pieces of a plain fragment ------------------------------------------------

  lemma {:induction false} PiecesCover(text: seq<Byte>, st: seq<Byte>, sid: nat, lo: nat, n: nat, hi: nat, ps: seq<Frag>, m: nat) returns (g: Frag)
    requires CutTo(text, st, sid, lo, n, hi, ps) && lo <= m < n
    ensures g in ps && Over(g, m)
    decreases |ps|
  {
    if Over(ps[0], m) {
      g := ps[0];
    } else {
      g := PiecesCover(text, st, sid, lo + ps[0].len, n, hi, ps[1..], m);
    }
  }

  /** A piece is the token, whole, or holds no occurrence and ends where the stretch does or the next token starts. */
  lemma {:induction false} PieceIs(text: seq<Byte>, st: seq<Byte>, sid: nat, lo: nat, hi: nat, ps: seq<Frag>, i: nat)
    requires CutTo(text, st, sid, lo, hi, hi, ps) && i < |ps| && st != []
    ensures ps[i].id >= 0 ==> ps[i].id == sid && ps[i].len == |st|
    ensures ps[i].id < 0 ==> Absent(text, st, ps[i].off, ps[i].off + ps[i].len)
    ensures ps[i].id < 0 ==> ps[i].off + ps[i].len == hi || SpecialFrom(ps, ps[i].off + ps[i].len)
    decreases |ps|
  {
    if i > 0 {
      PieceIs(text, st, sid, lo + ps[0].len, hi, ps[1..], i - 1);
      if j :| 0 <= j < |ps[1..]| && ps[1..][j].id >= 0 && ps[1..][j].off == ps[i].off + ps[i].len {
        assert ps[j + 1] == ps[1..][j];
      }
    } else if ps[0].id < 0 && |ps| > 1 {
      assert ps[1..][0] == ps[1];
      assert ps[1].id >= 0 && ps[1].off == ps[0].off + ps[0].len;
    }
  }

  // ---- the passes keep the layout ------------------------------------------------

  ghost predicate Laid(text: seq<Byte>, v: Vocab, specials: seq<nat>, frags: seq<Frag>) {
    Covers(frags, |text|) && Edged(frags, |text|) && Whole(frags, v, specials)
  }

  lemma {:induction false} PassCovers(text: seq<Byte>, st: seq<Byte>, sid: nat, before: seq<Frag>, after: seq<Frag>)
    requires Pass(text, st, sid, before, after) && Covers(before, |text|)
    ensures Covers(after, |text|)
  {
    hide Pass, CutTo;
    forall m | 0 <= m < |text|
      ensures Covered(after, m)
    {
      assert Covered(before, m);
      var i :| 0 <= i < |before| && Over(before[i], m);
      var f := before[i];
      var ps := IntoAfter(text, st, sid, before, after, f);
      if f.id < 0 {
        var g := PiecesCover(text, st, sid, f.off, f.off + f.len, f.off + f.len, ps, m);
        assert g in after;
      } else {
        assert f in ps;
      }
    }
  }

  lemma {:induction false} StillFrom(text: seq<Byte>, st: seq<Byte>, sid: nat, before: seq<Frag>, after: seq<Frag>, m: nat)
    requires Pass(text, st, sid, before, after) && SpecialFrom(before, m)
    ensures SpecialFrom(after, m)
  {
    hide Pass;
    var i :| 0 <= i < |before| && before[i].id >= 0 && before[i].off == m;
    var ps := IntoAfter(text, st, sid, before, after, before[i]);
    assert before[i] in ps && before[i] in after;
  }

  lemma {:induction false} SomeFrom(ps: seq<Frag>, after: seq<Frag>, m: nat)
    requires SpecialFrom(ps, m) && forall q | q in ps :: q in after
    ensures SpecialFrom(after, m)
  {
    var i :| 0 <= i < |ps| && ps[i].id >= 0 && ps[i].off == m;
    assert ps[i] in after;
  }

  /** What is true of a fragment behind a pass. */
  lemma {:induction false} AfterPass(text: seq<Byte>, v: Vocab, specials: seq<nat>, sid: nat, before: seq<Frag>, after: seq<Frag>, g: Frag)
    requires Special(v, sid) && Pass(text, v.idToTok[sid], sid, before, after) && g in after
    requires Edged(before, |text|) && Whole(before, v, specials)
    ensures g.id >= 0 ==> g.id in specials + [sid] && g.id < |v.idToTok| && g.len == |v.idToTok[g.id]|
    ensures g.id < 0 ==> Absent(text, v.idToTok[sid], g.off, g.off + g.len)
    ensures g.id < 0 ==> g.off + g.len == |text| || SpecialFrom(after, g.off + g.len)
  {
    var st := v.idToTok[sid];
    hide Pass, CutTo, Absent, SpecialFrom;
    FromBefore(text, st, sid, before, after, g);
    if !(g in before && g.id >= 0) {
      var f, ps :| f in before && PieceOf(text, st, sid, f, ps, g, after);
      var i :| 0 <= i < |ps| && ps[i] == g;
      PieceIs(text, st, sid, f.off, f.off + f.len, ps, i);
      if g.id < 0 {
        if SpecialFrom(ps, g.off + g.len) {
          SomeFrom(ps, after, g.off + g.len);
        } else if f.off + f.len != |text| {
          var j :| 0 <= j < |before| && before[j] == f;
          StillFrom(text, st, sid, before, after, f.off + f.len);
        }
      }
    }
  }

  lemma {:induction false} PassLaid(text: seq<Byte>, v: Vocab, specials: seq<nat>, sid: nat, before: seq<Frag>, after: seq<Frag>)
    requires Special(v, sid) && Pass(text, v.idToTok[sid], sid, before, after) && Laid(text, v, specials, before)
    ensures Laid(text, v, specials + [sid], after) && Free(after, text, v.idToTok[sid])
  {
    hide Pass, Absent, SpecialFrom;
    PassCovers(text, v.idToTok[sid], sid, before, after);
    forall g | g in after
      ensures g.id >= 0 ==> g.id in specials + [sid] && g.id < |v.idToTok| && g.len == |v.idToTok[g.id]|
      ensures g.id < 0 ==> Absent(text, v.idToTok[sid], g.off, g.off + g.len)
      ensures g.id < 0 ==> g.off + g.len == |text| || SpecialFrom(after, g.off + g.len)
    {
      AfterPass(text, v, specials, sid, before, after, g);
    }
    assert forall i | 0 <= i < |after| :: after[i] in after;
  }

  lemma {:induction false} LastPass(text: seq<Byte>, v: Vocab, specials: seq<nat>, frags: seq<Frag>) returns (before: seq<Frag>)
    requires CutBy(text, v, specials, frags) && AllSpecial(v, specials) && specials != []
    ensures var k := |specials| - 1; var sid := specials[k];
            && AllSpecial(v, specials[..k]) && Special(v, sid) && specials[..k] + [sid] == specials
            && sid < |v.idToTok| && CutBy(text, v, specials[..k], before) && Pass(text, v.idToTok[sid], sid, before, frags)
  {
    hide Pass, Special;
    var k := |specials| - 1;
    assert Special(v, specials[k]);
    before :| CutBy(text, v, specials[..k], before) && Pass(text, v.idToTok[specials[k]], specials[k], before, frags);
  }

  lemma {:induction false} CutLaid(text: seq<Byte>, v: Vocab, specials: seq<nat>, frags: seq<Frag>)
    requires CutBy(text, v, specials, frags) && AllSpecial(v, specials)
    ensures Laid(text, v, specials, frags)
    decreases |specials|
  {
    if specials == [] {
      PieceLaid(text, v);
    } else {
      hide *;
      var k := |specials| - 1;
      var before := LastPass(text, v, specials, frags);
      CutLaid(text, v, specials[..k], before);
      PassLaid(text, v, specials[..k], specials[k], before, frags);
    }
  }

  lemma {:induction false} PieceLaid(text: seq<Byte>, v: Vocab)
    ensures Laid(text, v, [], OnePiece(text))
  {
    forall m | 0 <= m < |text|
      ensures Covered(OnePiece(text), m)
    {
      assert Over(OnePiece(text)[0], m);
    }
  }

  // ---- the theorem ---------------------------------------------------------------

  /** A special fragment no shorter than `n` overlaps the `n` bytes at `m`. */
  predicate Taken(frags: seq<Frag>, m: nat, n: nat) {
    exists i :: 0 <= i < |frags| && frags[i].id >= 0 && frags[i].len >= n && frags[i].off < m + n && m < frags[i].off + frags[i].len
  }

  lemma {:induction false} TakenStays(text: seq<Byte>, st: seq<Byte>, sid: nat, before: seq<Frag>, after: seq<Frag>, m: nat, n: nat)
    requires Pass(text, st, sid, before, after) && Taken(before, m, n)
    ensures Taken(after, m, n)
  {
    hide Pass;
    var i :| 0 <= i < |before| && before[i].id >= 0 && before[i].len >= n && before[i].off < m + n && m < before[i].off + before[i].len;
    var ps := IntoAfter(text, st, sid, before, after, before[i]);
    assert before[i] in ps && before[i] in after;
  }

  /** A special fragment is no shorter than the last, shortest token of the list. */
  lemma {:induction false} NoShorter(v: Vocab, specials: seq<nat>, frags: seq<Frag>, i: nat)
    requires LongestFirst(v, specials) && specials != [] && Whole(frags, v, specials) && i < |frags| && frags[i].id >= 0
    ensures frags[i].len >= |v.idToTok[specials[|specials| - 1]]|
  {
    assert frags[i] in frags;
    var j :| 0 <= j < |specials| && specials[j] == frags[i].id;
  }

  /** Where no plain fragment holds it, an occurrence overlaps a special one. */
  lemma {:induction false} Overlapped(text: seq<Byte>, v: Vocab, specials: seq<nat>, frags: seq<Frag>, m: nat)
    requires LongestFirst(v, specials) && specials != [] && Laid(text, v, specials, frags)
    requires var st := v.idToTok[specials[|specials| - 1]]; st != [] && Free(frags, text, st) && OccursAt(text, st, m)
    ensures Taken(frags, m, |v.idToTok[specials[|specials| - 1]]|)
  {
    var st := v.idToTok[specials[|specials| - 1]];
    hide LongestFirst, Whole;
    assert Covered(frags, m);
    var i :| 0 <= i < |frags| && Over(frags[i], m);
    if frags[i].id >= 0 {
      NoShorter(v, specials, frags, i);
    } else {
      var e := frags[i].off + frags[i].len;
      assert Absent(text, st, frags[i].off, e);
      assert e < m + |st|;
      assert SpecialFrom(frags, e);
      var j :| 0 <= j < |frags| && frags[j].id >= 0 && frags[j].off == e;
      NoShorter(v, specials, frags, j);
    }
  }

  lemma {:induction false} LongestSoFar(v: Vocab, specials: seq<nat>, k: nat)
    requires LongestFirst(v, specials) && k <= |specials|
    ensures LongestFirst(v, specials[..k])
  {
  }

  /** A token that contains a shorter one wins: wherever a special token's string stands in the text, it is cut
      there, or a special token at least as long that overlaps it. */
  lemma {:induction false} LongestWins(text: seq<Byte>, v: Vocab, specials: seq<nat>, frags: seq<Frag>, k: nat, m: nat)
    requires AllSpecial(v, specials) && LongestFirst(v, specials) && CutBy(text, v, specials, frags)
    requires k < |specials| && OccursAt(text, v.idToTok[specials[k]], m)
    ensures Taken(frags, m, |v.idToTok[specials[k]]|)
    decreases |specials|
  {
    var n, len := |specials| - 1, |v.idToTok[specials[k]]|;
    hide *;
    var before := LastPass(text, v, specials, frags);
    var sid := specials[n];
    if k < n {
      LongestSoFar(v, specials, n);
      LongestWins(text, v, specials[..n], before, k, m);
      TakenStays(text, v.idToTok[sid], sid, before, frags, m, len);
    } else {
      CutLaid(text, v, specials[..n], before);
      PassLaid(text, v, specials[..n], sid, before, frags);
      HasString(v, sid);
      Overlapped(text, v, specials, frags, m);
    }
  }

  lemma {:induction false} HasString(v: Vocab, id: nat)
    requires Special(v, id)
    ensures id < |v.idToTok| && v.idToTok[id] != []
  {
  }
}
