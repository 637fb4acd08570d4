/** The hand-written pre-tokenizers: UTF-8 decoding and the Qwen2 / Llama-3 and GPT-2 splitters,
    each proved to cut where its regular expression does. */
module PreTokenizing {
  import opened Regex

  const APOSTROPHE: nat := 39
  const BLANK: nat := 32
  const LF: nat := 10
  const CR: nat := 13

  // ---- classes used by the patterns ----------------------------------------------

  predicate IsNl(c: Cp) { c.cp == CR || c.cp == LF }
  predicate IsLetter(c: Cp) { c.cls == Letter }
  predicate IsNumber(c: Cp) { c.cls == Number }
  predicate IsSpace(c: Cp) { c.cls == Space }
  predicate IsOther(c: Cp) { c.cls == Other }
  predicate IsBlank(c: Cp) { c.cp == BLANK }
  predicate IsApostrophe(c: Cp) { c.cp == APOSTROPHE }
  /** [^\r\n\p{L}\p{N}] */
  predicate IsLead(c: Cp) { !IsNl(c) && c.cls != Letter && c.cls != Number }

  /** ASCII lowercase, 0 for anything else. */
  function Lower(cp: nat): nat {
    if 65 <= cp <= 90 then cp + 32 else if cp < 128 then cp else 0
  }

  /** A letter of a contraction, with or without folding ASCII case. */
  function Chr(icase: bool, ch: nat): Cp -> bool {
    if icase then (c: Cp) => Lower(c.cp) == ch else (c: Cp) => c.cp == ch
  }

  function Lit1(icase: bool, a: nat): Re {
    Cat(One(IsApostrophe), One(Chr(icase, a)))
  }

  function Lit2(icase: bool, a: nat, b: nat): Re {
    Cat(One(IsApostrophe), Cat(One(Chr(icase, a)), One(Chr(icase, b))))
  }

  /** 's|'t|'re|'ve|'m|'ll|'d */
  function Contraction(icase: bool): Re {
    OneOf(Contractions(icase))
  }

  function Contractions(icase: bool): seq<Re> {
    [Lit1(icase, 115), Lit1(icase, 116), Lit2(icase, 114, 101), Lit2(icase, 118, 101), Lit1(icase, 109),
     Lit2(icase, 108, 108), Lit1(icase, 100)]
  }

  /** [^\r\n\p{L}\p{N}]?\p{L}+ */
  function Word(): Re { Cat(Opt(IsLead), Plus(IsLetter)) }
  /** \p{N}{1,K} */
  function Digits(k: nat): Re { Rep(IsNumber, 1, UpTo(k)) }
  /** ' '?[^\s\p{L}\p{N}]+[\r\n]* */
  function Punct(): Re { Cat(Opt(IsBlank), Cat(Plus(IsOther), Star(IsNl))) }
  /** \s*[\r\n]+ */
  function Newlines(): Re { Cat(Star(IsSpace), Plus(IsNl)) }
  /** \s+(?!\S) */
  function Trailing(): Re { Cat(Plus(IsSpace), NotBeforeWord) }
  /** \s+ */
  function Spaces(): Re { Plus(IsSpace) }

  /** The alternatives of the Qwen2 (k = 1) and Llama-3 (k = 3) pattern, last ones first. */
  function SpaceAlts(): Re { Alt(Trailing(), Spaces()) }
  function NewlineAlts(): Re { Alt(Newlines(), SpaceAlts()) }
  function PunctAlts(): Re { Alt(Punct(), NewlineAlts()) }
  function DigitAlts(k: nat): Re { Alt(Digits(k), PunctAlts()) }
  function WordAlts(k: nat): Re { Alt(Word(), DigitAlts(k)) }
  function Llama3(k: nat): Re { Alt(Contraction(true), WordAlts(k)) }

  /** ' '? and a run of one class. */
  function Led(p: Cp -> bool): Re { Cat(Opt(IsBlank), Plus(p)) }

  /** The GPT-2 pattern, likewise. */
  function OtherAlts(): Re { Alt(Led(IsOther), SpaceAlts()) }
  function NumberAlts(): Re { Alt(Led(IsNumber), OtherAlts()) }
  function LetterAlts(): Re { Alt(Led(IsLetter), NumberAlts()) }
  function Gpt2(): Re { Alt(Contraction(false), LetterAlts()) }

  /** What classify guarantees about the codepoints the splitters test by value. */
  predicate Classified(t: seq<Cp>) {
    forall k | 0 <= k < |t| ::
      && (IsNl(t[k]) || IsBlank(t[k]) ==> t[k].cls == Space)
      && (t[k].cp == APOSTROPHE ==> t[k].cls == Other)
  }

  // ---- contractions --------------------------------------------------------------

  lemma {:induction false} OneEnds(p: Cp -> bool, t: seq<Cp>, i: nat)
    requires i <= |t|
    ensures Ends(One(p), t, i) == if i < |t| && p(t[i]) then [i + 1] else []
  {
    RunIs(p, UpTo(1), t, i, if i < |t| && p(t[i]) then 1 else 0);
  }

  lemma {:induction false} CatOneEnds(p: Cp -> bool, b: Re, t: seq<Cp>, i: nat)
    requires i <= |t|
    ensures Ends(Cat(One(p), b), t, i) == if i < |t| && p(t[i]) then Ends(b, t, i + 1) else []
  {
    OneEnds(p, t, i);
    if i < |t| && p(t[i]) {
      assert Then([i + 1], b, t, i) == Ends(b, t, i + 1) + Then([], b, t, i);
    }
  }

  lemma {:induction false} Lit1Ends(icase: bool, a: nat, t: seq<Cp>, i: nat)
    requires i <= |t|
    ensures Ends(Lit1(icase, a), t, i) ==
            if i + 1 < |t| && t[i].cp == APOSTROPHE && Chr(icase, a)(t[i + 1]) then [i + 2] else []
  {
    CatOneEnds(IsApostrophe, One(Chr(icase, a)), t, i);
    if i < |t| {
      OneEnds(Chr(icase, a), t, i + 1);
    }
  }

  lemma {:induction false} Lit2Ends(icase: bool, a: nat, b: nat, t: seq<Cp>, i: nat)
    requires i <= |t|
    ensures Ends(Lit2(icase, a, b), t, i) ==
            if i + 2 < |t| && t[i].cp == APOSTROPHE && Chr(icase, a)(t[i + 1]) && Chr(icase, b)(t[i + 2]) then [i + 3] else []
  {
    CatOneEnds(IsApostrophe, Cat(One(Chr(icase, a)), One(Chr(icase, b))), t, i);
    if i < |t| {
      CatOneEnds(Chr(icase, a), One(Chr(icase, b)), t, i + 1);
      if i + 1 < |t| {
        OneEnds(Chr(icase, b), t, i + 2);
      }
    }
  }

  /** The byte the code compares: folded, or 0 beyond ASCII. */
  function Ch(icase: bool, c: Cp): nat {
    if icase then Lower(c.cp) else if c.cp < 128 then c.cp else 0
  }

  /** Length of a contraction at `i`, 0 for none. */
  method ContractionLen(c: seq<Cp>, i: nat, icase: bool) returns (l: nat)
    requires i < |c|
    ensures l == ContractionAt(c, i, icase)
  {
    if c[i].cp != APOSTROPHE || i + 1 >= |c| {
      return 0;
    }
    var a := Ch(icase, c[i + 1]);
    if a == 115 || a == 116 || a == 109 || a == 100 {
      return 2;
    }
    if i + 2 < |c| {
      var b := Ch(icase, c[i + 2]);
      if (a == 114 && b == 101) || (a == 118 && b == 101) || (a == 108 && b == 108) {
        return 3;
      }
    }
    return 0;
  }

  function ContractionAt(c: seq<Cp>, i: nat, icase: bool): nat
    requires i < |c|
  {
    if c[i].cp != APOSTROPHE || i + 1 >= |c| then 0
    else
      var a := Ch(icase, c[i + 1]);
      if a == 115 || a == 116 || a == 109 || a == 100 then 2
      else if i + 2 < |c| && ((a == 114 && Ch(icase, c[i + 2]) == 101) || (a == 118 && Ch(icase, c[i + 2]) == 101)
                              || (a == 108 && Ch(icase, c[i + 2]) == 108)) then 3
      else 0
  }

  /** Which alternative the letters select; 7 for none. */
  function Which(c: seq<Cp>, i: nat, icase: bool): nat
    requires i < |c|
  {
    if ContractionAt(c, i, icase) == 0 then 7
    else
      var a := Ch(icase, c[i + 1]);
      if a == 115 then 0 else if a == 116 then 1 else if a == 114 then 2 else if a == 118 then 3
      else if a == 109 then 4 else if a == 108 then 5 else 6
  }

  lemma {:induction false} ChrIsCh(icase: bool, a: nat, c: Cp)
    requires 0 < a < 128
    ensures Chr(icase, a)(c) <==> Ch(icase, c) == a
  {
  }

  lemma {:induction false} OneLetter(c: seq<Cp>, i: nat, e: nat, icase: bool, a: nat)
    requires i < e <= |c| && 0 < a < 128
    ensures Ends(Lit1(icase, a), c[..e], i) ==
            if i + 2 <= e && c[i].cp == APOSTROPHE && Ch(icase, c[i + 1]) == a then [i + 2] else []
  {
    Lit1Ends(icase, a, c[..e], i);
    if i + 2 <= e {
      ChrIsCh(icase, a, c[i + 1]);
    }
  }

  lemma {:induction false} TwoLetters(c: seq<Cp>, i: nat, e: nat, icase: bool, a: nat, b: nat)
    requires i < e <= |c| && 0 < a < 128 && 0 < b < 128
    ensures Ends(Lit2(icase, a, b), c[..e], i) ==
            if i + 3 <= e && c[i].cp == APOSTROPHE && Ch(icase, c[i + 1]) == a && Ch(icase, c[i + 2]) == b then [i + 3] else []
  {
    Lit2Ends(icase, a, b, c[..e], i);
    if i + 3 <= e {
      ChrIsCh(icase, a, c[i + 1]);
      ChrIsCh(icase, b, c[i + 2]);
    }
  }

  /** Alternative `x` matches the text up to `e` exactly if the letters select it. */
  lemma {:induction false} ContractionEach(c: seq<Cp>, i: nat, e: nat, icase: bool, x: nat)
    requires i < e <= |c| && x < 7
    ensures Ends(Contractions(icase)[x], c[..e], i) ==
            if Which(c, i, icase) == x && i + ContractionAt(c, i, icase) <= e then [i + ContractionAt(c, i, icase)] else []
  {
    var a, b := [115, 116, 114, 118, 109, 108, 100][x], [0, 0, 101, 101, 0, 108, 0][x];
    if b == 0 {
      assert Contractions(icase)[x] == Lit1(icase, a);
      OneLetter(c, i, e, icase, a);
    } else {
      assert Contractions(icase)[x] == Lit2(icase, a, b);
      TwoLetters(c, i, e, icase, a, b);
    }
  }

  /** Inside the text up to `e` the length is what the alternatives match. */
  lemma {:induction false} ContractionOutcome(c: seq<Cp>, i: nat, e: nat, icase: bool)
    requires i < e <= |c|
    ensures Outcome(Contraction(icase), c[..e], i, ContractionOut(c, i, e, icase))
  {
    var rs, w, o := Contractions(icase), Which(c, i, icase), ContractionOut(c, i, e, icase);
    var outs := seq(7, x => if w == x then o else -1);
    forall x: nat | x < 7
      ensures Outcome(rs[x], c[..e], i, outs[x])
    {
      ContractionEach(c, i, e, icase, x);
    }
    OneOfOutcome(rs, outs, c[..e], i);
    SoleOut(outs, w, o);
  }

  function ContractionOut(c: seq<Cp>, i: nat, e: nat, icase: bool): int
    requires i < |c|
  {
    var l := ContractionAt(c, i, icase);
    if l > 0 && i + l <= e then i + l else -1
  }

  lemma {:induction false} SoleOut(outs: seq<int>, w: nat, o: int)
    requires forall x: nat | x < |outs| :: outs[x] == if x == w then o else -1
    requires o >= -1
    ensures FirstOut(outs) == if w < |outs| then o else -1
    decreases |outs|
  {
    if outs != [] {
      if w == 0 {
        if o < 0 {
          SoleOut(outs[1..], |outs|, o);
        }
      } else {
        SoleOut(outs[1..], w - 1, o);
      }
    }
  }

  // ---- the other alternatives, one by one ----------------------------------------

  lemma {:induction false} OptEnds(p: Cp -> bool, t: seq<Cp>, i: nat)
    requires i < |t|
    ensures Ends(Opt(p), t, i) == if p(t[i]) then [i + 1, i] else [i]
  {
    RunIs(p, UpTo(1), t, i, if p(t[i]) then 1 else 0);
  }

  /** An optional leading codepoint, then something that must match: with it first, else
      without. */
  lemma {:induction false} OptThen(p: Cp -> bool, b: Re, t: seq<Cp>, i: nat)
    requires i < |t|
    ensures Ends(Cat(Opt(p), b), t, i) == (if p(t[i]) then Ends(b, t, i + 1) else []) + Ends(b, t, i)
  {
    OptEnds(p, t, i);
    var es := Ends(Opt(p), t, i);
    assert Then([i], b, t, i) == Ends(b, t, i) + Then([], b, t, i);
    if p(t[i]) {
      assert [i + 1, i][1..] == [i];
      assert Then([i + 1, i], b, t, i) == Ends(b, t, i + 1) + Then([i], b, t, i);
    }
  }

  /** The end of a run of `p`, -1 if it is empty. */
  function RunOut(p: Cp -> bool, hi: Max, t: seq<Cp>, i: nat): int
    requires i <= |t|
  {
    if Run(p, hi, t, i) > 0 then i + Run(p, hi, t, i) else -1
  }

  /** An optional leading codepoint in front of something with outcome `out`. */
  lemma {:induction false} OptOutcome(p: Cp -> bool, b: Re, t: seq<Cp>, i: nat, next: int, here: int)
    requires i < |t| && Outcome(b, t, i + 1, next) && Outcome(b, t, i, here)
    ensures Outcome(Cat(Opt(p), b), t, i, if p(t[i]) && next >= 0 then next else here)
  {
    OptThen(p, b, t, i);
  }

  lemma {:induction false} PlusOutcome(p: Cp -> bool, t: seq<Cp>, i: nat)
    requires i <= |t|
    ensures Outcome(Plus(p), t, i, RunOut(p, Any, t, i))
  {
  }

  function LedOut(lead: Cp -> bool, p: Cp -> bool, t: seq<Cp>, i: nat): int
    requires i < |t|
  {
    if lead(t[i]) && RunOut(p, Any, t, i + 1) >= 0 then RunOut(p, Any, t, i + 1) else RunOut(p, Any, t, i)
  }

  lemma {:induction false} LedOutcome(lead: Cp -> bool, p: Cp -> bool, t: seq<Cp>, i: nat)
    requires i < |t|
    ensures Outcome(Cat(Opt(lead), Plus(p)), t, i, LedOut(lead, p, t, i))
  {
    PlusOutcome(p, t, i);
    PlusOutcome(p, t, i + 1);
    OptOutcome(lead, Plus(p), t, i, RunOut(p, Any, t, i + 1), RunOut(p, Any, t, i));
  }

  lemma {:induction false} DigitsOutcome(k: nat, t: seq<Cp>, i: nat)
    requires i <= |t| && k >= 1
    ensures Outcome(Digits(k), t, i, RunOut(IsNumber, UpTo(k), t, i))
  {
  }

  /** A run of punctuation and the newlines behind it. */
  function PunctTail(t: seq<Cp>, i: nat): int
    requires i <= |t|
  {
    var r := i + Run(IsOther, Any, t, i);
    if r > i then r + Run(IsNl, Any, t, r) else -1
  }

  lemma {:induction false} PunctTailOutcome(t: seq<Cp>, i: nat)
    requires i <= |t|
    ensures Outcome(Cat(Plus(IsOther), Star(IsNl)), t, i, PunctTail(t, i))
  {
    var n := Run(IsOther, Any, t, i);
    if n > 0 {
      RepThenFirst(IsOther, 1, Any, Star(IsNl), t, i, i + n);
    } else {
      RepThenNone(IsOther, 1, Any, Star(IsNl), t, i);
    }
  }

  function PunctOut(t: seq<Cp>, i: nat): int
    requires i < |t|
  {
    if IsBlank(t[i]) && PunctTail(t, i + 1) >= 0 then PunctTail(t, i + 1) else PunctTail(t, i)
  }

  lemma {:induction false} PunctOutcome(t: seq<Cp>, i: nat)
    requires i < |t|
    ensures Outcome(Punct(), t, i, PunctOut(t, i))
  {
    PunctTailOutcome(t, i);
    PunctTailOutcome(t, i + 1);
    OptOutcome(IsBlank, Cat(Plus(IsOther), Star(IsNl)), t, i, PunctTail(t, i + 1), PunctTail(t, i));
  }

  /** Behind the last newline of [i, j), -1 if there is none. */
  function LastNl(t: seq<Cp>, i: nat, j: nat): (r: int)
    requires j <= |t|
    ensures r == -1 || (i < r <= j && IsNl(t[r - 1]))
    ensures forall k: nat | i <= k < j && k >= r :: !IsNl(t[k])
  {
    if j <= i then -1 else if IsNl(t[j - 1]) then j else LastNl(t, i, j - 1)
  }

  lemma {:induction false} NewlineRun(t: seq<Cp>, j: nat)
    requires j <= |t|
    ensures Matches(Plus(IsNl), t, j) <==> j < |t| && IsNl(t[j])
  {
    PlusOutcome(IsNl, t, j);
  }

  lemma {:induction false} LoneNewline(t: seq<Cp>, j: nat)
    requires j < |t| && IsNl(t[j]) && (j + 1 < |t| ==> !IsNl(t[j + 1]))
    ensures Matches(Plus(IsNl), t, j) && First(Plus(IsNl), t, j) == j + 1
  {
    PlusOutcome(IsNl, t, j);
    RunIs(IsNl, Any, t, j, 1);
  }

  /** \s*[\r\n]+ ends behind the last newline of the whitespace run. */
  lemma {:induction false} NewlinesOutcome(t: seq<Cp>, i: nat)
    requires i <= |t| && Classified(t)
    ensures Outcome(Newlines(), t, i, LastNl(t, i, i + Run(IsSpace, Any, t, i)))
  {
    hide Matches, First;
    var m := Run(IsSpace, Any, t, i);
    var r := LastNl(t, i, i + m);
    forall j: nat | i <= j <= i + m && j >= r
      ensures !Matches(Plus(IsNl), t, j)
    {
      NewlineRun(t, j);
    }
    if r >= 0 {
      LoneNewline(t, r - 1);
      RepThenFirst(IsSpace, 0, Any, Plus(IsNl), t, i, r - 1);
    } else {
      RepThenNone(IsSpace, 0, Any, Plus(IsNl), t, i);
    }
  }

  /** \s+(?!\S) leaves one space for the next word, unless the text ends here. */
  function TrailingOut(t: seq<Cp>, i: nat): int
    requires i <= |t|
  {
    var m := Run(IsSpace, Any, t, i);
    if m == 0 then -1 else if i + m == |t| then i + m else if m > 1 then i + m - 1 else -1
  }

  lemma {:induction false} TrailingOutcome(t: seq<Cp>, i: nat)
    requires i <= |t|
    ensures Outcome(Trailing(), t, i, TrailingOut(t, i))
  {
    var m := Run(IsSpace, Any, t, i);
    if TrailingOut(t, i) >= 0 {
      RepThenFirst(IsSpace, 1, Any, NotBeforeWord, t, i, TrailingOut(t, i));
    } else {
      RepThenNone(IsSpace, 1, Any, NotBeforeWord, t, i);
    }
  }

  // ---- the two patterns ----------------------------------------------------------

  /** The end of the whitespace alternatives. */
  function SpaceOut(t: seq<Cp>, i: nat, newlineRule: bool): int
    requires i <= |t|
  {
    Or(if newlineRule then LastNl(t, i, i + Run(IsSpace, Any, t, i)) else -1,
       Or(TrailingOut(t, i), RunOut(IsSpace, Any, t, i)))
  }

  /** The Qwen2 / Llama-3 alternatives behind the contractions. */
  function Llama3Rest(t: seq<Cp>, i: nat, k: nat): int
    requires i < |t|
  {
    Or(LedOut(IsLead, IsLetter, t, i), Or(RunOut(IsNumber, UpTo(k), t, i), Or(PunctOut(t, i), SpaceOut(t, i, true))))
  }

  function Llama3Out(c: seq<Cp>, i: nat, e: nat, k: nat): int
    requires i < e <= |c|
  {
    Or(ContractionOut(c, i, e, true), Llama3Rest(c[..e], i, k))
  }

  lemma {:induction false} SpaceOutcome(t: seq<Cp>, i: nat)
    requires i <= |t|
    ensures Outcome(SpaceAlts(), t, i, SpaceOut(t, i, false))
  {
    TrailingOutcome(t, i);
    PlusOutcome(IsSpace, t, i);
    AltOutcome(Trailing(), Spaces(), t, i, TrailingOut(t, i), RunOut(IsSpace, Any, t, i));
  }

  lemma {:induction false} NewlineAltsOutcome(t: seq<Cp>, i: nat)
    requires i <= |t| && Classified(t)
    ensures Outcome(NewlineAlts(), t, i, SpaceOut(t, i, true))
  {
    NewlinesOutcome(t, i);
    SpaceOutcome(t, i);
    AltOutcome(Newlines(), SpaceAlts(), t, i, LastNl(t, i, i + Run(IsSpace, Any, t, i)), SpaceOut(t, i, false));
  }

  lemma {:induction false} PunctAltsOutcome(t: seq<Cp>, i: nat)
    requires i < |t| && Classified(t)
    ensures Outcome(PunctAlts(), t, i, Or(PunctOut(t, i), SpaceOut(t, i, true)))
  {
    PunctOutcome(t, i);
    NewlineAltsOutcome(t, i);
    AltOutcome(Punct(), NewlineAlts(), t, i, PunctOut(t, i), SpaceOut(t, i, true));
  }

  lemma {:induction false} DigitAltsOutcome(t: seq<Cp>, i: nat, k: nat)
    requires i < |t| && k >= 1 && Classified(t)
    ensures Outcome(DigitAlts(k), t, i, Or(RunOut(IsNumber, UpTo(k), t, i), Or(PunctOut(t, i), SpaceOut(t, i, true))))
  {
    DigitsOutcome(k, t, i);
    PunctAltsOutcome(t, i);
    AltOutcome(Digits(k), PunctAlts(), t, i, RunOut(IsNumber, UpTo(k), t, i), Or(PunctOut(t, i), SpaceOut(t, i, true)));
  }

  lemma {:induction false} WordAltsOutcome(t: seq<Cp>, i: nat, k: nat)
    requires i < |t| && k >= 1 && Classified(t)
    ensures Outcome(WordAlts(k), t, i, Llama3Rest(t, i, k))
  {
    LedOutcome(IsLead, IsLetter, t, i);
    DigitAltsOutcome(t, i, k);
    AltOutcome(Word(), DigitAlts(k), t, i, LedOut(IsLead, IsLetter, t, i),
               Or(RunOut(IsNumber, UpTo(k), t, i), Or(PunctOut(t, i), SpaceOut(t, i, true))));
  }

  /** What the Qwen2 / Llama-3 pattern matches, in terms of runs. */
  lemma {:induction false} Llama3Outcome(c: seq<Cp>, i: nat, e: nat, k: nat)
    requires i < e <= |c| && k >= 1 && Classified(c[..e])
    ensures Outcome(Llama3(k), c[..e], i, Llama3Out(c, i, e, k))
  {
    ContractionOutcome(c, i, e, true);
    WordAltsOutcome(c[..e], i, k);
    AltOutcome(Contraction(true), WordAlts(k), c[..e], i, ContractionOut(c, i, e, true), Llama3Rest(c[..e], i, k));
  }

  /** The GPT-2 alternatives behind the contractions. */
  function Gpt2Rest(t: seq<Cp>, i: nat): int
    requires i < |t|
  {
    Or(LedOut(IsBlank, IsLetter, t, i), Or(LedOut(IsBlank, IsNumber, t, i),
       Or(LedOut(IsBlank, IsOther, t, i), SpaceOut(t, i, false))))
  }

  function Gpt2Out(c: seq<Cp>, i: nat, e: nat): int
    requires i < e <= |c|
  {
    Or(ContractionOut(c, i, e, false), Gpt2Rest(c[..e], i))
  }

  lemma {:induction false} OtherAltsOutcome(t: seq<Cp>, i: nat)
    requires i < |t|
    ensures Outcome(OtherAlts(), t, i, Or(LedOut(IsBlank, IsOther, t, i), SpaceOut(t, i, false)))
  {
    LedOutcome(IsBlank, IsOther, t, i);
    SpaceOutcome(t, i);
    AltOutcome(Led(IsOther), SpaceAlts(), t, i, LedOut(IsBlank, IsOther, t, i), SpaceOut(t, i, false));
  }

  lemma {:induction false} NumberAltsOutcome(t: seq<Cp>, i: nat)
    requires i < |t|
    ensures Outcome(NumberAlts(), t, i,
                    Or(LedOut(IsBlank, IsNumber, t, i), Or(LedOut(IsBlank, IsOther, t, i), SpaceOut(t, i, false))))
  {
    LedOutcome(IsBlank, IsNumber, t, i);
    OtherAltsOutcome(t, i);
    AltOutcome(Led(IsNumber), OtherAlts(), t, i, LedOut(IsBlank, IsNumber, t, i),
               Or(LedOut(IsBlank, IsOther, t, i), SpaceOut(t, i, false)));
  }

  lemma {:induction false} LetterAltsOutcome(t: seq<Cp>, i: nat)
    requires i < |t|
    ensures Outcome(LetterAlts(), t, i, Gpt2Rest(t, i))
  {
    LedOutcome(IsBlank, IsLetter, t, i);
    NumberAltsOutcome(t, i);
    AltOutcome(Led(IsLetter), NumberAlts(), t, i, LedOut(IsBlank, IsLetter, t, i),
               Or(LedOut(IsBlank, IsNumber, t, i), Or(LedOut(IsBlank, IsOther, t, i), SpaceOut(t, i, false))));
  }

  /** What the GPT-2 pattern matches. */
  lemma {:induction false} Gpt2Outcome(c: seq<Cp>, i: nat, e: nat)
    requires i < e <= |c|
    ensures Outcome(Gpt2(), c[..e], i, Gpt2Out(c, i, e))
  {
    ContractionOutcome(c, i, e, false);
    LetterAltsOutcome(c[..e], i);
    AltOutcome(Contraction(false), LetterAlts(), c[..e], i, ContractionOut(c, i, e, false), Gpt2Rest(c[..e], i));
  }

  // ---- what the first codepoints decide ------------------------------------------

  /** A run of another class is empty. */
  lemma {:induction false} NoRun(p: Cp -> bool, hi: Max, t: seq<Cp>, i: nat)
    requires i < |t| && !p(t[i])
    ensures RunOut(p, hi, t, i) == -1 && Run(p, hi, t, i) == 0
  {
  }

  lemma {:induction false} SomeRun(p: Cp -> bool, hi: Max, t: seq<Cp>, i: nat)
    requires i < |t| && p(t[i]) && MoreLeft(hi)
    ensures RunOut(p, hi, t, i) == i + Run(p, hi, t, i) > i
    ensures hi.Any? ==> Run(p, hi, t, i) == 1 + Run(p, hi, t, i + 1)
  {
  }

  /** An optional lead and a run: taken with the lead, without it, or not at all. */
  lemma {:induction false} LedCases(lead: Cp -> bool, p: Cp -> bool, t: seq<Cp>, i: nat)
    requires i < |t|
    ensures lead(t[i]) && i + 1 < |t| && p(t[i + 1]) ==> LedOut(lead, p, t, i) == i + 1 + Run(p, Any, t, i + 1)
    ensures !(lead(t[i]) && i + 1 < |t| && p(t[i + 1])) ==> LedOut(lead, p, t, i) == RunOut(p, Any, t, i)
  {
    if i + 1 < |t| {
      if p(t[i + 1]) {
        SomeRun(p, Any, t, i + 1);
      } else {
        NoRun(p, Any, t, i + 1);
      }
    }
  }

  lemma {:induction false} RestAtWord(t: seq<Cp>, i: nat, k: nat)
    requires i < |t| && (IsLetter(t[i]) || (IsLead(t[i]) && i + 1 < |t| && IsLetter(t[i + 1])))
    ensures Llama3Rest(t, i, k) == i + 1 + Run(IsLetter, Any, t, i + 1)
  {
    LedCases(IsLead, IsLetter, t, i);
    if IsLetter(t[i]) {
      SomeRun(IsLetter, Any, t, i);
    }
  }

  /** No word starts here. */
  lemma {:induction false} NoWord(t: seq<Cp>, i: nat)
    requires i < |t| && !IsLetter(t[i]) && !(IsLead(t[i]) && i + 1 < |t| && IsLetter(t[i + 1]))
    ensures LedOut(IsLead, IsLetter, t, i) == -1
  {
    LedCases(IsLead, IsLetter, t, i);
    NoRun(IsLetter, Any, t, i);
  }

  lemma {:induction false} RestAtNumber(t: seq<Cp>, i: nat, k: nat)
    requires i < |t| && k >= 1 && IsNumber(t[i])
    ensures Llama3Rest(t, i, k) == i + Run(IsNumber, UpTo(k), t, i) > i
  {
    NoWord(t, i);
    SomeRun(IsNumber, UpTo(k), t, i);
  }

  lemma {:induction false} PunctCases(t: seq<Cp>, i: nat)
    requires i < |t| && Classified(t)
    ensures IsOther(t[i]) ==> PunctOut(t, i) == PunctEnd(t, i) > i
    ensures IsBlank(t[i]) && i + 1 < |t| && IsOther(t[i + 1]) ==> PunctOut(t, i) == PunctEnd(t, i + 1) > i
    ensures !IsOther(t[i]) && !(IsBlank(t[i]) && i + 1 < |t| && IsOther(t[i + 1])) ==> PunctOut(t, i) == -1
  {
    if IsOther(t[i]) {
      SomeRun(IsOther, Any, t, i);
    } else {
      NoRun(IsOther, Any, t, i);
      if i + 1 < |t| && IsOther(t[i + 1]) {
        SomeRun(IsOther, Any, t, i + 1);
      } else if i + 1 < |t| {
        NoRun(IsOther, Any, t, i + 1);
      }
    }
  }

  function PunctEnd(t: seq<Cp>, i: nat): nat
    requires i <= |t|
  {
    var r := i + Run(IsOther, Any, t, i);
    r + Run(IsNl, Any, t, r)
  }

  lemma {:induction false} RestAtPunct(t: seq<Cp>, i: nat, k: nat)
    requires i < |t| && Classified(t) && !(IsLead(t[i]) && i + 1 < |t| && IsLetter(t[i + 1]))
    requires IsOther(t[i]) || (IsBlank(t[i]) && i + 1 < |t| && IsOther(t[i + 1]))
    ensures Llama3Rest(t, i, k) == PunctEnd(t, if IsBlank(t[i]) then i + 1 else i) > i
  {
    NoWord(t, i);
    NoRun(IsNumber, UpTo(k), t, i);
    PunctCases(t, i);
  }

  lemma {:induction false} RestAtSpace(t: seq<Cp>, i: nat, k: nat)
    requires i < |t| && Classified(t) && IsSpace(t[i]) && !(IsLead(t[i]) && i + 1 < |t| && IsLetter(t[i + 1]))
    requires !(IsBlank(t[i]) && i + 1 < |t| && IsOther(t[i + 1]))
    ensures Llama3Rest(t, i, k) == SpaceOut(t, i, true)
  {
    NoWord(t, i);
    NoRun(IsNumber, UpTo(k), t, i);
    PunctCases(t, i);
  }

  /** Where the run of a GPT-2 alternative starts. */
  function RunStart(t: seq<Cp>, i: nat): (s: nat)
    requires i < |t|
    ensures s < |t|
  {
    if IsBlank(t[i]) && i + 1 < |t| && !IsSpace(t[i + 1]) then i + 1 else i
  }

  lemma {:induction false} LedAt(p: Cp -> bool, t: seq<Cp>, i: nat)
    requires i < |t| && Classified(t) && forall c: Cp :: p(c) ==> !IsSpace(c)
    ensures var s := RunStart(t, i); LedOut(IsBlank, p, t, i) == if p(t[s]) then s + Run(p, Any, t, s) else -1
  {
    var s := RunStart(t, i);
    LedCases(IsBlank, p, t, i);
    if p(t[i]) {
      SomeRun(p, Any, t, i);
    } else {
      NoRun(p, Any, t, i);
    }
  }

  lemma {:induction false} Gpt2Cases(t: seq<Cp>, i: nat)
    requires i < |t| && Classified(t)
    ensures var s := RunStart(t, i);
            Gpt2Rest(t, i) == match t[s].cls
                              case Letter => s + Run(IsLetter, Any, t, s)
                              case Number => s + Run(IsNumber, Any, t, s)
                              case Other => s + Run(IsOther, Any, t, s)
                              case Space => SpaceOut(t, i, false)
  {
    LedAt(IsLetter, t, i);
    LedAt(IsNumber, t, i);
    LedAt(IsOther, t, i);
  }

  // ---- the splitters -------------------------------------------------------------

  /** Skips the codepoints that satisfy `p`, at most `hi` of them. */
  method Skip(p: Cp -> bool, hi: Max, c: seq<Cp>, i: nat, e: nat) returns (j: nat)
    requires i <= e <= |c|
    ensures j == i + Run(p, hi, c[..e], i)
  {
    j := i;
    while j < e && p(c[j]) && (hi.Any? || j - i < hi.n)
      invariant i <= j <= e && (hi.UpTo? ==> j - i <= hi.n)
      invariant forall k: nat | i <= k < j :: p(c[..e][k])
    {
      j := j + 1;
    }
    RunIs(p, hi, c[..e], i, j - i);
  }

  lemma {:induction false} LastNlIs(t: seq<Cp>, i: nat, j: nat, r: int)
    requires j <= |t| && (r == -1 || (i < r <= j && IsNl(t[r - 1])))
    requires forall k: nat | i <= k < j && k >= r :: !IsNl(t[k])
    ensures LastNl(t, i, j) == r
  {
    if j > i && !IsNl(t[j - 1]) {
      LastNlIs(t, i, j - 1, r);
    }
  }

  /** The end of the match at a whitespace codepoint. */
  method WhitespaceEnd(c: seq<Cp>, i: nat, n: nat, newlineRule: bool) returns (j: nat)
    requires i < n <= |c| && IsSpace(c[i])
    ensures i < j <= n && j == SpaceOut(c[..n], i, newlineRule)
  {
    ghost var t := c[..n];
    j := Skip(IsSpace, Any, c, i, n);
    if newlineRule {
      var k := j;
      while k > i
        invariant i <= k <= j && forall x: nat | k <= x < j :: !IsNl(t[x])
      {
        if IsNl(c[k - 1]) {
          LastNlIs(t, i, j, k);
          return k;
        }
        k := k - 1;
      }
      LastNlIs(t, i, j, -1);
    }
    if j == n {
      return j;
    }
    if j - 1 > i {
      return j - 1;
    }
  }

  method SkipPunct(c: seq<Cp>, i: nat, e: nat) returns (j: nat)
    requires i <= e <= |c|
    ensures j == PunctEnd(c[..e], i) <= e
  {
    j := Skip(IsOther, Any, c, i, e);
    j := Skip(IsNl, Any, c, j, e);
  }

  /** The branches of the Qwen2 / Llama-3 splitter behind the contractions. */
  method Llama3Tail(c: seq<Cp>, i: nat, e: nat, maxDigits: nat) returns (j: nat)
    requires i < e <= |c| && maxDigits >= 1 && Classified(c[..e])
    ensures i < j <= e && j == Llama3Rest(c[..e], i, maxDigits)
  {
    hide Llama3Rest, Run, PunctEnd, SpaceOut;
    ghost var t := c[..e];
    if IsLetter(c[i]) || (IsLead(c[i]) && i + 1 < e && IsLetter(c[i + 1])) {
      RestAtWord(t, i, maxDigits);
      j := Skip(IsLetter, Any, c, i + 1, e);
    } else if IsNumber(c[i]) {
      RestAtNumber(t, i, maxDigits);
      j := Skip(IsNumber, UpTo(maxDigits), c, i, e);
    } else if IsOther(c[i]) || (IsBlank(c[i]) && i + 1 < e && IsOther(c[i + 1])) {
      RestAtPunct(t, i, maxDigits);
      j := SkipPunct(c, if IsBlank(c[i]) then i + 1 else i, e);
    } else {
      RestAtSpace(t, i, maxDigits);
      j := WhitespaceEnd(c, i, e, true);
    }
  }

  /** One cut of the Qwen2 / Llama-3 splitter. */
  method Llama3Step(c: seq<Cp>, i: nat, e: nat, maxDigits: nat) returns (j: nat)
    requires i < e <= |c| && maxDigits >= 1 && Classified(c[..e])
    ensures i < j <= e && j == Llama3Out(c, i, e, maxDigits)
  {
    var l := ContractionLen(c, i, true);
    if l > 0 && i + l <= e {
      j := i + l;
    } else {
      j := Llama3Tail(c, i, e, maxDigits);
    }
  }

  method Gpt2Tail(c: seq<Cp>, i: nat, e: nat) returns (j: nat)
    requires i < e <= |c| && Classified(c[..e])
    ensures i < j <= e && j == Gpt2Rest(c[..e], i)
  {
    ghost var t := c[..e];
    Gpt2Cases(t, i);
    var s := if IsBlank(c[i]) && i + 1 < e && !IsSpace(c[i + 1]) then i + 1 else i;
    if !IsSpace(c[s]) {
      match c[s].cls {
        case Letter => SomeRun(IsLetter, Any, t, s); j := Skip(IsLetter, Any, c, s, e);
        case Number => SomeRun(IsNumber, Any, t, s); j := Skip(IsNumber, Any, c, s, e);
        case Other => SomeRun(IsOther, Any, t, s); j := Skip(IsOther, Any, c, s, e);
      }
    } else {
      j := WhitespaceEnd(c, i, e, false);
    }
  }

  /** One cut of the GPT-2 splitter. */
  method Gpt2Step(c: seq<Cp>, i: nat, e: nat) returns (j: nat)
    requires i < e <= |c| && Classified(c[..e])
    ensures i < j <= e && j == Gpt2Out(c, i, e)
  {
    var l := ContractionLen(c, i, false);
    if l > 0 && i + l <= e {
      j := i + l;
    } else {
      j := Gpt2Tail(c, i, e);
    }
  }

  // ---- whole texts ---------------------------------------------------------------

  /** All matches of a pattern from `i` on, as an engine finds them: the match at the current
      position, or the next position if there is none. */
  ghost function Scan(re: Re, t: seq<Cp>, i: nat): seq<(nat, nat)>
    requires i <= |t|
    decreases |t| - i
  {
    if i == |t| then []
    else if Matches(re, t, i) && First(re, t, i) > i then [(i, First(re, t, i))] + Scan(re, t, First(re, t, i))
    else Scan(re, t, i + 1)
  }

  /** Spans that cut [b, e) into non-empty pieces without gaps. */
  predicate Cuts(spans: seq<(nat, nat)>, b: nat, e: nat)
    decreases |spans|
  {
    if spans == [] then b == e
    else spans[|spans| - 1].0 < spans[|spans| - 1].1 == e && Cuts(spans[..|spans| - 1], b, spans[|spans| - 1].0)
  }

  lemma {:induction false} CutsStep(spans: seq<(nat, nat)>, b: nat, i: nat, j: nat)
    requires Cuts(spans, b, i) && i < j
    ensures Cuts(spans + [(i, j)], b, j)
  {
    assert (spans + [(i, j)])[..|spans|] == spans;
  }

  lemma {:induction false} ScanStep(re: Re, t: seq<Cp>, i: nat, j: nat)
    requires i < j <= |t| && Outcome(re, t, i, j)
    ensures Scan(re, t, i) == [(i, j)] + Scan(re, t, j)
  {
  }

  /** Every span of a cutting is a match, so the cutting is what the engine finds. */
  lemma {:induction false} CutsAreScan(spans: seq<(nat, nat)>, re: Re, t: seq<Cp>, b: nat, e: nat)
    requires Cuts(spans, b, e) && e <= |t|
    requires forall x | 0 <= x < |spans| :: spans[x].0 <= |t| && Outcome(re, t, spans[x].0, spans[x].1)
    ensures b <= e && Scan(re, t, b) == spans + Scan(re, t, e)
    decreases |spans|
  {
    if spans == [] {
      assert [] + Scan(re, t, e) == Scan(re, t, e);
    } else {
      var n := |spans| - 1;
      var init, i, j := spans[..n], spans[n].0, spans[n].1;
      forall x | 0 <= x < n
        ensures init[x].0 <= |t| && Outcome(re, t, init[x].0, init[x].1)
      {
        assert init[x] == spans[x];
      }
      CutsAreScan(init, re, t, b, i);
      ScanStep(re, t, i, j);
      Chain(spans, init, (i, j), Scan(re, t, b), Scan(re, t, i), Scan(re, t, j));
    }
  }

  lemma {:induction false} Chain<T>(s: seq<T>, init: seq<T>, x: T, all: seq<T>, mid: seq<T>, rest: seq<T>)
    requires s != [] && init == s[..|s| - 1] && x == s[|s| - 1] && all == init + mid && mid == [x] + rest
    ensures all == s + rest
  {
    assert s == init + [x];
  }

  predicate Llama3Cut(c: seq<Cp>, span: (nat, nat), e: nat, k: nat)
    requires e <= |c|
  {
    span.0 < e && span.1 == Llama3Out(c, span.0, e, k)
  }

  lemma {:induction false} Llama3Scan(spans: seq<(nat, nat)>, c: seq<Cp>, b: nat, e: nat, k: nat)
    requires b <= e <= |c| && k >= 1 && Classified(c[..e]) && Cuts(spans, b, e)
    requires forall x | 0 <= x < |spans| :: Llama3Cut(c, spans[x], e, k)
    ensures spans == Scan(Llama3(k), c[..e], b)
  {
    forall x | 0 <= x < |spans|
      ensures Outcome(Llama3(k), c[..e], spans[x].0, spans[x].1)
    {
      Llama3Outcome(c, spans[x].0, e, k);
    }
    CutsAreScan(spans, Llama3(k), c[..e], b, e);
    assert spans + [] == spans;
  }

  lemma {:induction false} Gpt2Scan(spans: seq<(nat, nat)>, c: seq<Cp>, b: nat, e: nat)
    requires b <= e <= |c| && Cuts(spans, b, e)
    requires forall x | 0 <= x < |spans| :: spans[x].0 < e && spans[x].1 == Gpt2Out(c, spans[x].0, e)
    ensures spans == Scan(Gpt2(), c[..e], b)
  {
    forall x | 0 <= x < |spans|
      ensures Outcome(Gpt2(), c[..e], spans[x].0, spans[x].1)
    {
      Gpt2Outcome(c, spans[x].0, e);
    }
    CutsAreScan(spans, Gpt2(), c[..e], b, e);
    assert spans + [] == spans;
  }

  /** Splits codepoints [b, e): the cuts are the matches of the pattern. */
  method SplitLlama3(c: seq<Cp>, b: nat, e: nat, maxDigits: nat) returns (spans: seq<(nat, nat)>)
    requires b <= e <= |c| && maxDigits >= 1 && Classified(c[..e])
    ensures spans == Scan(Llama3(maxDigits), c[..e], b)
    ensures Cuts(spans, b, e)
  {
    spans := [];
    var i := b;
    while i < e
      invariant b <= i <= e && Cuts(spans, b, i)
      invariant forall x | 0 <= x < |spans| :: Llama3Cut(c, spans[x], e, maxDigits)
    {
      var j := Llama3Step(c, i, e, maxDigits);
      CutsStep(spans, b, i, j);
      spans := spans + [(i, j)];
      i := j;
    }
    Llama3Scan(spans, c, b, e, maxDigits);
  }

  method SplitGpt2(c: seq<Cp>, b: nat, e: nat) returns (spans: seq<(nat, nat)>)
    requires b <= e <= |c| && Classified(c[..e])
    ensures spans == Scan(Gpt2(), c[..e], b)
    ensures Cuts(spans, b, e)
  {
    spans := [];
    var i := b;
    while i < e
      invariant b <= i <= e && Cuts(spans, b, i)
      invariant forall x | 0 <= x < |spans| :: spans[x].0 < e && spans[x].1 == Gpt2Out(c, spans[x].0, e)
    {
      var j := Gpt2Step(c, i, e);
      CutsStep(spans, b, i, j);
      spans := spans + [(i, j)];
      i := j;
    }
    Gpt2Scan(spans, c, b, e);
  }
}
