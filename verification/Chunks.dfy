/** From text to chunks: which splitter runs, and what its spans mean in bytes. */
module Chunking {
  import opened Regex
  import opened PreTokenizing
  import opened Utf8

  datatype BpePre = Legacy | Qwen2 | Llama3Pre | SmolLM

  ghost function Concat(chunks: seq<seq<Byte>>): seq<Byte> {
    if chunks == [] then [] else Concat(chunks[..|chunks| - 1]) + chunks[|chunks| - 1]
  }

  lemma {:induction false} ConcatStep(chunks: seq<seq<Byte>>, x: seq<Byte>)
    ensures Concat(chunks + [x]) == Concat(chunks) + x
  {
    assert (chunks + [x])[..|chunks|] == chunks;
  }

  // ---- byte offsets --------------------------------------------------------------

  /** Byte offset of codepoint `k`, or the end of the text. */
  function Off(c: seq<Cp>, n: nat, k: nat): nat {
    if k < |c| then c[k].off else n
  }

  lemma {:induction false} OffStep(c: seq<Cp>, s: seq<Byte>, n: nat, uni: nat -> Class, k: nat)
    requires Decoded(c, s, n, uni) && k < |c|
    ensures Off(c, n, k) < Off(c, n, k + 1) <= n <= |s|
    decreases |c|
  {
    var m := |c| - 1;
    if k < m {
      OffStep(c[..m], s, c[m].off, uni, k);
    }
  }

  lemma {:induction false} OffStart(c: seq<Cp>, s: seq<Byte>, n: nat, uni: nat -> Class)
    requires Decoded(c, s, n, uni)
    ensures Off(c, n, 0) == 0 && n <= |s|
    decreases |c|
  {
    if c != [] {
      OffStart(c[..|c| - 1], s, c[|c| - 1].off, uni);
    }
  }

  lemma {:induction false} OffOrdered(c: seq<Cp>, s: seq<Byte>, uni: nat -> Class, i: nat, j: nat)
    requires Decoded(c, s, |s|, uni) && i <= j <= |c|
    ensures Off(c, |s|, i) <= Off(c, |s|, j) <= |s|
    decreases j - i
  {
    if i < j {
      OffStep(c, s, |s|, uni, i);
      OffOrdered(c, s, uni, i + 1, j);
    } else if i < |c| {
      OffStep(c, s, |s|, uni, i);
    }
  }

  lemma {:induction false} CutsInside(spans: seq<(nat, nat)>, b: nat, e: nat, x: nat)
    requires Cuts(spans, b, e) && x < |spans|
    ensures b <= spans[x].0 < spans[x].1 <= e
    decreases |spans|
  {
    var n := |spans| - 1;
    CutsOrdered(spans[..n], b, spans[n].0);
    if x < n {
      CutsInside(spans[..n], b, spans[n].0, x);
    }
  }

  lemma {:induction false} CutsOrdered(spans: seq<(nat, nat)>, b: nat, e: nat)
    requires Cuts(spans, b, e)
    ensures b <= e
    decreases |spans|
  {
    if spans != [] {
      CutsOrdered(spans[..|spans| - 1], b, spans[|spans| - 1].0);
    }
  }

  lemma {:induction false} CutsJoin(a: seq<(nat, nat)>, d: seq<(nat, nat)>, b: nat, m: nat, e: nat)
    requires Cuts(a, b, m) && Cuts(d, m, e)
    ensures Cuts(a + d, b, e)
    decreases |d|
  {
    if d == [] {
      assert a + d == a;
    } else {
      var n := |d| - 1;
      CutsJoin(a, d[..n], b, m, d[n].0);
      assert (a + d)[..|a + d| - 1] == a + d[..n];
    }
  }

  /** The bytes of a span. */
  function Slice(s: seq<Byte>, c: seq<Cp>, span: (nat, nat)): seq<Byte>
    requires Off(c, |s|, span.0) <= Off(c, |s|, span.1) <= |s|
  {
    s[Off(c, |s|, span.0)..Off(c, |s|, span.1)]
  }

  /** Each chunk is the slice of its span. */
  ghost predicate Sliced(s: seq<Byte>, c: seq<Cp>, spans: seq<(nat, nat)>, chunks: seq<seq<Byte>>) {
    |chunks| == |spans| && forall x | 0 <= x < |spans| ::
      Off(c, |s|, spans[x].0) < Off(c, |s|, spans[x].1) <= |s| && chunks[x] == Slice(s, c, spans[x])
  }

  /** Cuts the text at the byte offsets of the spans; together the chunks are the text. */
  method Chunks(s: seq<Byte>, c: seq<Cp>, spans: seq<(nat, nat)>, ghost uni: nat -> Class) returns (chunks: seq<seq<Byte>>)
    requires Decoded(c, s, |s|, uni) && Cuts(spans, 0, |c|)
    ensures Concat(chunks) == s && Sliced(s, c, spans, chunks) && forall x | 0 <= x < |chunks| :: chunks[x] != []
  {
    hide Decoded;
    chunks := [];
    OffStart(c, s, |s|, uni);
    ghost var upto: nat := 0;
    for x := 0 to |spans|
      invariant |chunks| == x && upto <= |c| && Cuts(spans[..x], 0, upto) && Off(c, |s|, upto) <= |s|
      invariant Concat(chunks) == s[..Off(c, |s|, upto)] && Sliced(s, c, spans[..x], chunks)
    {
      SpanBytes(s, c, spans, uni, x, upto);
      var lo := c[spans[x].0].off;
      var hi := if spans[x].1 < |c| then c[spans[x].1].off else |s|;
      ConcatStep(chunks, s[lo..hi]);
      assert s[..lo] + s[lo..hi] == s[..hi];
      SlicedMore(s, c, spans, chunks, x);
      chunks := chunks + [s[lo..hi]];
      upto := spans[x].1;
    }
    assert spans[..|spans|] == spans;
    CutsEnd(spans, 0, |c|, upto);
    NonEmpty(s, c, spans, chunks);
  }

  /** The bytes of the next span. */
  lemma {:induction false} SpanBytes(s: seq<Byte>, c: seq<Cp>, spans: seq<(nat, nat)>, uni: nat -> Class, x: nat, upto: nat)
    requires Decoded(c, s, |s|, uni) && Cuts(spans, 0, |c|) && x < |spans| && upto <= |c| && Cuts(spans[..x], 0, upto)
    ensures spans[x].0 == upto < spans[x].1 <= |c| && Off(c, |s|, spans[x].0) < Off(c, |s|, spans[x].1) <= |s|
    ensures Cuts(spans[..x + 1], 0, spans[x].1)
  {
    CutsInside(spans, 0, |c|, x);
    SpanStart(spans, 0, |c|, x, upto);
    OffStep(c, s, |s|, uni, spans[x].0);
    OffOrdered(c, s, uni, spans[x].0 + 1, spans[x].1);
    assert spans[..x + 1][..x] == spans[..x];
  }

  lemma {:induction false} SlicedMore(s: seq<Byte>, c: seq<Cp>, spans: seq<(nat, nat)>, chunks: seq<seq<Byte>>, x: nat)
    requires x < |spans| && Sliced(s, c, spans[..x], chunks)
    requires Off(c, |s|, spans[x].0) < Off(c, |s|, spans[x].1) <= |s|
    ensures Sliced(s, c, spans[..x + 1], chunks + [Slice(s, c, spans[x])])
  {
    hide Off, Slice;
  }

  lemma {:induction false} NonEmpty(s: seq<Byte>, c: seq<Cp>, spans: seq<(nat, nat)>, chunks: seq<seq<Byte>>)
    requires Sliced(s, c, spans, chunks)
    ensures forall x | 0 <= x < |chunks| :: chunks[x] != []
  {
    hide Off;
  }

  /** Each span starts where the ones before it end. */
  lemma {:induction false} SpanStart(spans: seq<(nat, nat)>, b: nat, e: nat, x: nat, upto: nat)
    requires Cuts(spans, b, e) && x < |spans| && Cuts(spans[..x], b, upto)
    ensures spans[x].0 == upto
    decreases |spans|
  {
    var n := |spans| - 1;
    if x < n {
      assert spans[..n][..x] == spans[..x];
      SpanStart(spans[..n], b, spans[n].0, x, upto);
    } else {
      CutsEnd(spans[..n], b, spans[n].0, upto);
    }
  }

  lemma {:induction false} CutsEnd(spans: seq<(nat, nat)>, b: nat, e: nat, e': nat)
    requires Cuts(spans, b, e) && Cuts(spans, b, e')
    ensures e == e'
  {
  }

  // ---- SmolLM: numbers apart, GPT-2 between them ---------------------------------

  predicate NotNumber(c: Cp) { c.cls != Number }

  /** Every number codepoint alone, and the matches of `re` in each stretch between them. */
  ghost function Isolated(re: Re, c: seq<Cp>, i: nat): seq<(nat, nat)>
    requires i <= |c|
    decreases |c| - i
  {
    if i == |c| then []
    else if c[i].cls == Number then [(i, i + 1)] + Isolated(re, c, i + 1)
    else
      var j := i + Run(NotNumber, Any, c, i);
      Scan(re, c[..j], i) + Isolated(re, c, j)
  }

  /** `piece` is what stands at `i`, up to `j`. */
  ghost predicate PieceAt(re: Re, c: seq<Cp>, i: nat, j: nat, piece: seq<(nat, nat)>)
    requires i < j <= |c|
  {
    if c[i].cls == Number then j == i + 1 && piece == [(i, j)]
    else j == i + Run(NotNumber, Any, c, i) && piece == Scan(re, c[..j], i)
  }

  lemma {:induction false} IsolatedStep(re: Re, c: seq<Cp>, i: nat, j: nat, piece: seq<(nat, nat)>)
    requires i < j <= |c| && PieceAt(re, c, i, j, piece)
    ensures Isolated(re, c, i) == piece + Isolated(re, c, j)
  {
    hide Scan, Run, Gpt2;
  }

  /** One number, or one stretch without numbers. */
  method SmolPiece(c: seq<Cp>, i: nat) returns (j: nat, piece: seq<(nat, nat)>)
    requires Classified(c) && i < |c|
    ensures i < j <= |c| && Cuts(piece, i, j) && PieceAt(Gpt2(), c, i, j, piece)
  {
    if c[i].cls == Number {
      CutsStep([], i, i, i + 1);
      assert [] + [(i, i + 1)] == [(i, i + 1)];
      return i + 1, [(i, i + 1)];
    }
    assert c[..|c|] == c;
    j := Skip(NotNumber, Any, c, i, |c|);
    piece := SplitGpt2(c, i, j);
  }

  lemma {:induction false} Joined(a: seq<(nat, nat)>, d: seq<(nat, nat)>, rest: seq<(nat, nat)>)
    ensures a + (d + rest) == (a + d) + rest
  {
  }

  method SplitSmol(c: seq<Cp>) returns (spans: seq<(nat, nat)>)
    requires Classified(c)
    ensures spans == Isolated(Gpt2(), c, 0) && Cuts(spans, 0, |c|)
  {
    spans := [];
    var i := 0;
    while i < |c|
      invariant i <= |c| && Cuts(spans, 0, i)
      invariant Isolated(Gpt2(), c, 0) == spans + Isolated(Gpt2(), c, i)
    {
      var j, piece := SmolPiece(c, i);
      CutsJoin(spans, piece, 0, i, j);
      IsolatedStep(Gpt2(), c, i, j, piece);
      Joined(spans, piece, Isolated(Gpt2(), c, j));
      spans := spans + piece;
      i := j;
    }
    assert spans + [] == spans;
  }

  // ---- the legacy ASCII splitter -------------------------------------------------

  predicate AsciiLetter(b: Byte) { 65 <= b <= 90 || 97 <= b <= 122 || b >= 128 }
  predicate AsciiDigit(b: Byte) { 48 <= b <= 57 }
  predicate AsciiSpace(b: Byte) { b == 32 || 9 <= b <= 13 }

  function ByteClass(b: Byte): Class {
    if AsciiLetter(b) then Letter else if AsciiDigit(b) then Number else if AsciiSpace(b) then Space else Other
  }

  /** The text byte by byte. */
  function BytesOf(s: seq<Byte>): (c: seq<Cp>)
    ensures |c| == |s| && forall k | 0 <= k < |s| :: c[k] == Cp(s[k], k, 1, ByteClass(s[k]))
  {
    seq(|s|, k requires 0 <= k < |s| => Cp(s[k], k, 1, ByteClass(s[k])))
  }

  /** The approximation as a pattern over bytes, the last alternatives first:
      's|'t|'re|'ve|'m|'ll|'d| ?letters+| ?digits{1,3}|spaces+|others+ */
  function RunAlts(): Re { Alt(Spaces(), Plus(IsOther)) }
  function LedDigits(): Re { Cat(Opt(IsBlank), Digits(3)) }
  function LegacyNumberAlts(): Re { Alt(LedDigits(), RunAlts()) }
  function LegacyWordAlts(): Re { Alt(Led(IsLetter), LegacyNumberAlts()) }
  function LegacyPattern(): Re { Alt(Contraction(false), LegacyWordAlts()) }

  function LedDigitsOut(t: seq<Cp>, i: nat): int
    requires i < |t|
  {
    if IsBlank(t[i]) && RunOut(IsNumber, UpTo(3), t, i + 1) >= 0 then RunOut(IsNumber, UpTo(3), t, i + 1)
    else RunOut(IsNumber, UpTo(3), t, i)
  }

  function RunsOut(t: seq<Cp>, i: nat): int
    requires i < |t|
  {
    Or(RunOut(IsSpace, Any, t, i), RunOut(IsOther, Any, t, i))
  }

  function LegacyRest(t: seq<Cp>, i: nat): int
    requires i < |t|
  {
    Or(LedOut(IsBlank, IsLetter, t, i), Or(LedDigitsOut(t, i), RunsOut(t, i)))
  }

  function LegacyOut(t: seq<Cp>, i: nat): int
    requires i < |t|
  {
    Or(ContractionOut(t, i, |t|, false), LegacyRest(t, i))
  }

  lemma {:induction false} LedDigitsOutcome(t: seq<Cp>, i: nat)
    requires i < |t|
    ensures Outcome(LedDigits(), t, i, LedDigitsOut(t, i))
  {
    DigitsOutcome(3, t, i);
    DigitsOutcome(3, t, i + 1);
    OptOutcome(IsBlank, Digits(3), t, i, RunOut(IsNumber, UpTo(3), t, i + 1), RunOut(IsNumber, UpTo(3), t, i));
  }

  lemma {:induction false} RunAltsOutcome(t: seq<Cp>, i: nat)
    requires i < |t|
    ensures Outcome(RunAlts(), t, i, RunsOut(t, i))
  {
    PlusOutcome(IsSpace, t, i);
    PlusOutcome(IsOther, t, i);
    AltOutcome(Spaces(), Plus(IsOther), t, i, RunOut(IsSpace, Any, t, i), RunOut(IsOther, Any, t, i));
  }

  lemma {:induction false} LegacyNumberAltsOutcome(t: seq<Cp>, i: nat)
    requires i < |t|
    ensures Outcome(LegacyNumberAlts(), t, i, Or(LedDigitsOut(t, i), RunsOut(t, i)))
  {
    LedDigitsOutcome(t, i);
    RunAltsOutcome(t, i);
    AltOutcome(LedDigits(), RunAlts(), t, i, LedDigitsOut(t, i), RunsOut(t, i));
  }

  lemma {:induction false} LegacyWordAltsOutcome(t: seq<Cp>, i: nat)
    requires i < |t|
    ensures Outcome(LegacyWordAlts(), t, i, LegacyRest(t, i))
  {
    LedOutcome(IsBlank, IsLetter, t, i);
    LegacyNumberAltsOutcome(t, i);
    AltOutcome(Led(IsLetter), LegacyNumberAlts(), t, i, LedOut(IsBlank, IsLetter, t, i), Or(LedDigitsOut(t, i), RunsOut(t, i)));
  }

  /** What the pattern matches, in terms of runs. */
  lemma {:induction false} LegacyOutcome(t: seq<Cp>, i: nat)
    requires i < |t|
    ensures Outcome(LegacyPattern(), t, i, LegacyOut(t, i))
  {
    assert t[..|t|] == t;
    ContractionOutcome(t, i, |t|, false);
    LegacyWordAltsOutcome(t, i);
    AltOutcome(Contraction(false), LegacyWordAlts(), t, i, ContractionOut(t, i, |t|, false), LegacyRest(t, i));
  }

  /** Where the run starts: behind a blank in front of a letter or a digit. */
  function LegacyStart(t: seq<Cp>, i: nat): (s: nat)
    requires i < |t|
    ensures s < |t|
  {
    if IsBlank(t[i]) && i + 1 < |t| && (IsLetter(t[i + 1]) || IsNumber(t[i + 1])) then i + 1 else i
  }

  lemma {:induction false} LedDigitsAt(t: seq<Cp>, i: nat)
    requires i < |t| && (IsBlank(t[i]) ==> IsSpace(t[i]))
    ensures var s := LegacyStart(t, i); LedDigitsOut(t, i) == if IsNumber(t[s]) then s + Run(IsNumber, UpTo(3), t, s) else -1
  {
    var s := LegacyStart(t, i);
    if IsNumber(t[i]) {
      SomeRun(IsNumber, UpTo(3), t, i);
    } else {
      NoRun(IsNumber, UpTo(3), t, i);
    }
    if i + 1 < |t| {
      if IsNumber(t[i + 1]) {
        SomeRun(IsNumber, UpTo(3), t, i + 1);
      } else {
        NoRun(IsNumber, UpTo(3), t, i + 1);
      }
    }
  }

  lemma {:induction false} LedLettersAt(t: seq<Cp>, i: nat)
    requires i < |t| && (IsBlank(t[i]) ==> IsSpace(t[i]))
    ensures var s := LegacyStart(t, i); LedOut(IsBlank, IsLetter, t, i) == if IsLetter(t[s]) then s + Run(IsLetter, Any, t, s) else -1
  {
    LedCases(IsBlank, IsLetter, t, i);
    if IsLetter(t[i]) {
      SomeRun(IsLetter, Any, t, i);
    } else {
      NoRun(IsLetter, Any, t, i);
    }
  }

  /** The class of the byte at the start of the run decides. */
  lemma {:induction false} LegacyCases(t: seq<Cp>, i: nat)
    requires i < |t| && (IsBlank(t[i]) ==> IsSpace(t[i]))
    ensures var s := LegacyStart(t, i);
            LegacyRest(t, i) == match t[s].cls
                                case Letter => s + Run(IsLetter, Any, t, s)
                                case Number => s + Run(IsNumber, UpTo(3), t, s)
                                case Space => i + Run(IsSpace, Any, t, i)
                                case Other => i + Run(IsOther, Any, t, i)
    ensures LegacyRest(t, i) > i
  {
    LedLettersAt(t, i);
    LedDigitsAt(t, i);
    var s := LegacyStart(t, i);
    match t[s].cls
    case Letter => SomeRun(IsLetter, Any, t, s);
    case Number => SomeRun(IsNumber, UpTo(3), t, s);
    case Space => SomeRun(IsSpace, Any, t, i);
    case Other =>
      NoRun(IsSpace, Any, t, i);
      SomeRun(IsOther, Any, t, i);
  }

  method SkipBytes(s: seq<Byte>, i: nat, q: Byte -> bool, hi: Max, ghost p: Cp -> bool) returns (j: nat)
    requires i <= |s| && forall k: nat | k < |s| :: q(s[k]) <==> p(BytesOf(s)[k])
    ensures j == i + Run(p, hi, BytesOf(s), i)
  {
    j := i;
    while j < |s| && q(s[j]) && (hi.Any? || j - i < hi.n)
      invariant i <= j <= |s| && (hi.UpTo? ==> j - i <= hi.n)
      invariant forall k: nat | i <= k < j :: p(BytesOf(s)[k])
    {
      j := j + 1;
    }
    RunIs(p, hi, BytesOf(s), i, j - i);
  }

  method LegacyContraction(s: seq<Byte>, i: nat) returns (l: nat)
    requires i < |s|
    ensures l == ContractionAt(BytesOf(s), i, false)
  {
    if s[i] != 39 || i + 1 >= |s| {
      return 0;
    }
    var a := s[i + 1];
    if a == 115 || a == 116 || a == 109 || a == 100 {
      return 2;
    }
    if i + 2 < |s| {
      var b := s[i + 2];
      if (a == 114 && b == 101) || (a == 118 && b == 101) || (a == 108 && b == 108) {
        return 3;
      }
    }
    return 0;
  }

  method LegacyTail(s: seq<Byte>, i: nat) returns (j: nat)
    requires i < |s|
    ensures i < j <= |s| && j == LegacyRest(BytesOf(s), i)
  {
    hide LegacyRest, Run;
    ghost var t := BytesOf(s);
    LegacyCases(t, i);
    if s[i] == 32 && i + 1 < |s| && (AsciiLetter(s[i + 1]) || AsciiDigit(s[i + 1])) {
      if AsciiLetter(s[i + 1]) {
        j := SkipBytes(s, i + 1, AsciiLetter, Any, IsLetter);
      } else {
        j := SkipBytes(s, i + 1, AsciiDigit, UpTo(3), IsNumber);
      }
    } else if AsciiLetter(s[i]) {
      j := SkipBytes(s, i, AsciiLetter, Any, IsLetter);
    } else if AsciiDigit(s[i]) {
      j := SkipBytes(s, i, AsciiDigit, UpTo(3), IsNumber);
    } else if AsciiSpace(s[i]) {
      j := SkipBytes(s, i, AsciiSpace, Any, IsSpace);
    } else {
      j := SkipBytes(s, i, (b: Byte) => !AsciiLetter(b) && !AsciiDigit(b) && !AsciiSpace(b), Any, IsOther);
    }
  }

  /** One cut of the legacy splitter. */
  method LegacyStep(s: seq<Byte>, i: nat) returns (j: nat)
    requires i < |s|
    ensures i < j <= |s| && j == LegacyOut(BytesOf(s), i)
  {
    var l := LegacyContraction(s, i);
    if l > 0 {
      j := i + l;
    } else {
      j := LegacyTail(s, i);
    }
  }

  lemma {:induction false} LegacyScan(spans: seq<(nat, nat)>, t: seq<Cp>)
    requires Cuts(spans, 0, |t|) && forall x | 0 <= x < |spans| :: spans[x].0 < |t| && spans[x].1 == LegacyOut(t, spans[x].0)
    ensures spans == Scan(LegacyPattern(), t, 0)
  {
    forall x | 0 <= x < |spans|
      ensures Outcome(LegacyPattern(), t, spans[x].0, spans[x].1)
    {
      LegacyOutcome(t, spans[x].0);
    }
    CutsAreScan(spans, LegacyPattern(), t, 0, |t|);
    assert spans + [] == spans;
  }

  lemma {:induction false} NoneYet(s: seq<Byte>, t: seq<Cp>)
    ensures Concat([]) == [] && Cuts([], 0, 0) && Sliced(s, t, [], [])
  {
  }

  lemma {:induction false} LegacySliced(s: seq<Byte>, spans: seq<(nat, nat)>, chunks: seq<seq<Byte>>, i: nat, j: nat)
    requires i < j <= |s| && Sliced(s, BytesOf(s), spans, chunks)
    ensures Sliced(s, BytesOf(s), spans + [(i, j)], chunks + [s[i..j]])
  {
    var all := spans + [(i, j)];
    assert all[..|spans|] == spans;
    SlicedMore(s, BytesOf(s), all, chunks, |spans|);
    assert all[..|all|] == all;
  }

  method LegacyChunks(s: seq<Byte>) returns (chunks: seq<seq<Byte>>)
    ensures Concat(chunks) == s && forall x | 0 <= x < |chunks| :: chunks[x] != []
    ensures Sliced(s, BytesOf(s), Scan(LegacyPattern(), BytesOf(s), 0), chunks)
  {
    hide *;
    chunks := [];
    var i := 0;
    ghost var t, spans: seq<(nat, nat)> := BytesOf(s), [];
    NoneYet(s, t);
    while i < |s|
      invariant i <= |s| && Concat(chunks) == s[..i] && Cuts(spans, 0, i) && Sliced(s, t, spans, chunks)
      invariant forall x | 0 <= x < |spans| :: spans[x].0 < |t| && spans[x].1 == LegacyOut(t, spans[x].0)
    {
      var j := LegacyStep(s, i);
      ConcatStep(chunks, s[i..j]);
      assert s[..i] + s[i..j] == s[..j];
      CutsStep(spans, 0, i, j);
      LegacySliced(s, spans, chunks, i, j);
      spans := spans + [(i, j)];
      chunks := chunks + [s[i..j]];
      i := j;
    }
    LegacyScan(spans, t);
    NonEmpty(s, t, spans, chunks);
  }

  // ---- all of them ---------------------------------------------------------------

  /** What a splitter's spans must be. */
  ghost function SpansOf(pre: BpePre, c: seq<Cp>): seq<(nat, nat)> {
    match pre
    case Qwen2 => Scan(Llama3(1), c, 0)
    case Llama3Pre => Scan(Llama3(3), c, 0)
    case SmolLM => Isolated(Gpt2(), c, 0)
    case Legacy => Scan(LegacyPattern(), c, 0)
  }

  /** What a splitter looks at: codepoints, or the bytes themselves. */
  ghost predicate Reads(s: seq<Byte>, pre: BpePre, uni: nat -> Class, c: seq<Cp>) {
    if pre == Legacy then c == BytesOf(s) else Decoded(c, s, |s|, uni)
  }

  /** What the chunks of a text must be. */
  ghost predicate Pretokenized(s: seq<Byte>, pre: BpePre, uni: nat -> Class, chunks: seq<seq<Byte>>) {
    && Concat(chunks) == s && (forall x | 0 <= x < |chunks| :: chunks[x] != [])
    && exists c: seq<Cp> :: Reads(s, pre, uni, c) && Sliced(s, c, SpansOf(pre, c), chunks)
  }

  /** Chunks of any text: never empty, together the text, and the byte slices of the matches of the
      family's pattern. */
  method Pretokenize(s: seq<Byte>, pre: BpePre, uni: nat -> Class) returns (chunks: seq<seq<Byte>>)
    ensures Pretokenized(s, pre, uni, chunks)
  {
    hide Decoded, Sliced, Scan, Isolated, Cuts;
    if pre == Legacy {
      chunks := LegacyChunks(s);
      assert Reads(s, pre, uni, BytesOf(s));
      return;
    }
    var c := DecodeUtf8(s, uni);
    assert c[..|c|] == c;
    var spans;
    match pre {
      case Qwen2 => spans := SplitLlama3(c, 0, |c|, 1);
      case Llama3Pre => spans := SplitLlama3(c, 0, |c|, 3);
      case SmolLM => spans := SplitSmol(c);
    }
    chunks := Chunks(s, c, spans, uni);
    assert Reads(s, pre, uni, c) && Sliced(s, c, SpansOf(pre, c), chunks);
  }
}
