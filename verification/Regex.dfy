/** Ordered-alternative backtracking regular expressions over classified codepoints: the
    semantics the Hugging Face split patterns are written for. */
module Regex {

  datatype Class = Letter | Number | Space | Other

  /** A codepoint, its byte span and its class. */
  datatype Cp = Cp(cp: nat, off: nat, len: nat, cls: Class)

  datatype Max = Any | UpTo(n: nat)

  datatype Re =
    | Rep(p: Cp -> bool, lo: nat, hi: Max)   // greedy repetition of one class
    | Cat(a: Re, b: Re)
    | Alt(a: Re, b: Re)                      // a first, then b
    | NotBeforeWord                          // (?!\S)

  function One(p: Cp -> bool): Re { Rep(p, 1, UpTo(1)) }
  function Opt(p: Cp -> bool): Re { Rep(p, 0, UpTo(1)) }
  function Star(p: Cp -> bool): Re { Rep(p, 0, Any) }
  function Plus(p: Cp -> bool): Re { Rep(p, 1, Any) }

  function MoreLeft(hi: Max): bool { hi.Any? || hi.n > 0 }

  function Less(hi: Max): Max
    requires MoreLeft(hi)
  {
    if hi.Any? then Any else UpTo(hi.n - 1)
  }

  predicate Within(es: seq<nat>, lo: nat, hi: nat) {
    forall x | 0 <= x < |es| :: lo <= es[x] <= hi
  }

  /** How many codepoints from `i` on satisfy `p`, at most `hi`. */
  function Run(p: Cp -> bool, hi: Max, t: seq<Cp>, i: nat): (n: nat)
    requires i <= |t|
    ensures i + n <= |t| && (hi.UpTo? ==> n <= hi.n)
    ensures forall k: nat | i <= k < i + n :: p(t[k])
    ensures i + n < |t| && (hi.Any? || n < hi.n) ==> !p(t[i + n])
    decreases |t| - i
  {
    if MoreLeft(hi) && i < |t| && p(t[i]) then 1 + Run(p, Less(hi), t, i + 1) else 0
  }

  /** The ends a greedy repetition tries: its longest run first, then every shorter one. */
  function RepEnds(p: Cp -> bool, lo: nat, hi: Max, t: seq<Cp>, i: nat): (r: seq<nat>)
    requires i <= |t|
    ensures Within(r, i, |t|)
  {
    var n := Run(p, hi, t, i);
    if n < lo then [] else seq(n - lo + 1, x requires 0 <= x <= n => i + n - x)
  }

  /** The ends a backtracking engine tries from position `i`, in its order. */
  function Ends(re: Re, t: seq<Cp>, i: nat): (r: seq<nat>)
    requires i <= |t|
    ensures Within(r, i, |t|)
    decreases re, 0
  {
    match re
    case Rep(p, lo, hi) => RepEnds(p, lo, hi, t, i)
    case Cat(a, b) => Then(Ends(a, t, i), b, t, i)
    case Alt(a, b) => Ends(a, t, i) + Ends(b, t, i)
    case NotBeforeWord => if i == |t| || t[i].cls == Space then [i] else []
  }

  /** Continues with `b` from each end in turn. */
  function Then(es: seq<nat>, b: Re, t: seq<Cp>, i: nat): (r: seq<nat>)
    requires i <= |t| && Within(es, i, |t|)
    ensures Within(r, i, |t|)
    decreases b, 1 + |es|
  {
    if es == [] then [] else Ends(b, t, es[0]) + Then(es[1..], b, t, i)
  }

  predicate Matches(re: Re, t: seq<Cp>, i: nat)
    requires i <= |t|
  {
    Ends(re, t, i) != []
  }

  /** The match an engine reports. */
  function First(re: Re, t: seq<Cp>, i: nat): nat
    requires i <= |t| && Matches(re, t, i)
  {
    Ends(re, t, i)[0]
  }

  // ---- repetitions ---------------------------------------------------------------

  /** The run is the only length that fits. */
  lemma {:induction false} RunIs(p: Cp -> bool, hi: Max, t: seq<Cp>, i: nat, n: nat)
    requires i + n <= |t| && (hi.UpTo? ==> n <= hi.n) && forall k: nat | i <= k < i + n :: p(t[k])
    requires i + n < |t| && (hi.Any? || n < hi.n) ==> !p(t[i + n])
    ensures Run(p, hi, t, i) == n
    decreases |t| - i
  {
    if n > 0 {
      assert p(t[i]);
      RunIs(p, Less(hi), t, i + 1, n - 1);
    }
  }

  // ---- concatenations ------------------------------------------------------------

  /** The first end from which `b` matches decides. */
  lemma {:induction false} ThenFirst(es: seq<nat>, b: Re, t: seq<Cp>, i: nat, x: nat)
    requires i <= |t| && Within(es, i, |t|) && x < |es|
    requires forall y: nat | y < x :: !Matches(b, t, es[y])
    requires Matches(b, t, es[x])
    ensures Then(es, b, t, i) != [] && Then(es, b, t, i)[0] == First(b, t, es[x])
    decreases |es|
  {
    if x > 0 {
      assert !Matches(b, t, es[0]);
      assert es[1..][x - 1] == es[x];
      assert forall y: nat | y < x - 1 :: es[1..][y] == es[y + 1];
      ThenFirst(es[1..], b, t, i, x - 1);
    }
  }

  lemma {:induction false} ThenNone(es: seq<nat>, b: Re, t: seq<Cp>, i: nat)
    requires i <= |t| && Within(es, i, |t|)
    requires forall y: nat | y < |es| :: !Matches(b, t, es[y])
    ensures Then(es, b, t, i) == []
    decreases |es|
  {
    if es != [] {
      assert !Matches(b, t, es[0]);
      assert forall y: nat | y < |es| - 1 :: es[1..][y] == es[y + 1];
      ThenNone(es[1..], b, t, i);
    }
  }

  /** A greedy run followed by `b`: the longest shortening of the run from which `b` matches. */
  lemma {:induction false} RepThenFirst(p: Cp -> bool, lo: nat, hi: Max, b: Re, t: seq<Cp>, i: nat, k: nat)
    requires i <= |t| && i + lo <= k <= i + Run(p, hi, t, i) && Matches(b, t, k)
    requires forall j: nat | k < j <= i + Run(p, hi, t, i) :: !Matches(b, t, j)
    ensures Matches(Cat(Rep(p, lo, hi), b), t, i)
    ensures First(Cat(Rep(p, lo, hi), b), t, i) == First(b, t, k)
  {
    var n, es := Run(p, hi, t, i), RepEnds(p, lo, hi, t, i);
    ThenFirst(es, b, t, i, i + n - k);
  }

  lemma {:induction false} RepThenNone(p: Cp -> bool, lo: nat, hi: Max, b: Re, t: seq<Cp>, i: nat)
    requires i <= |t|
    requires forall j: nat | i + lo <= j <= i + Run(p, hi, t, i) && j <= |t| :: !Matches(b, t, j)
    ensures !Matches(Cat(Rep(p, lo, hi), b), t, i)
  {
    var n, es := Run(p, hi, t, i), RepEnds(p, lo, hi, t, i);
    assert Ends(Rep(p, lo, hi), t, i) == es;
    forall y: nat | y < |es|
      ensures !Matches(b, t, es[y])
    {
      assert es[y] == i + n - y;
    }
    ThenNone(es, b, t, i);
  }

  // ---- alternatives --------------------------------------------------------------

  /** The alternatives in order. */
  function OneOf(rs: seq<Re>): Re
    requires rs != []
  {
    if |rs| == 1 then rs[0] else Alt(rs[0], OneOf(rs[1..]))
  }

  // ---- outcomes ------------------------------------------------------------------

  /** `o` is the end of the match, or -1 if there is none. */
  ghost predicate Outcome(re: Re, t: seq<Cp>, i: nat, o: int)
    requires i <= |t|
  {
    if o < 0 then !Matches(re, t, i) else Matches(re, t, i) && First(re, t, i) == o
  }

  /** The first outcome that is a match, -1 if none is. */
  function FirstOut(outs: seq<int>): int {
    if outs == [] then -1 else if outs[0] >= 0 then outs[0] else FirstOut(outs[1..])
  }

  /** The first of two outcomes that is a match. */
  function Or(a: int, b: int): int {
    if a >= 0 then a else b
  }

  lemma {:induction false} AltOutcome(a: Re, b: Re, t: seq<Cp>, i: nat, oa: int, ob: int)
    requires i <= |t| && Outcome(a, t, i, oa) && Outcome(b, t, i, ob)
    ensures Outcome(Alt(a, b), t, i, Or(oa, ob))
  {
    assert Ends(Alt(a, b), t, i) == Ends(a, t, i) + Ends(b, t, i);
    assert [] + Ends(b, t, i) == Ends(b, t, i);
  }

  lemma {:induction false} OneOfOutcome(rs: seq<Re>, outs: seq<int>, t: seq<Cp>, i: nat)
    requires rs != [] && |outs| == |rs| && i <= |t| && forall x: nat | x < |rs| :: Outcome(rs[x], t, i, outs[x])
    ensures Outcome(OneOf(rs), t, i, FirstOut(outs))
    decreases |rs|
  {
    assert Outcome(rs[0], t, i, outs[0]);
    if |rs| > 1 {
      assert Ends(OneOf(rs), t, i) == Ends(rs[0], t, i) + Ends(OneOf(rs[1..]), t, i);
      forall x: nat | x < |rs| - 1
        ensures Outcome(rs[1..][x], t, i, outs[1..][x])
      {
        assert Outcome(rs[x + 1], t, i, outs[x + 1]);
      }
      OneOfOutcome(rs[1..], outs[1..], t, i);
      assert [] + Ends(OneOf(rs[1..]), t, i) == Ends(OneOf(rs[1..]), t, i);
    } else {
      assert FirstOut(outs) == if outs[0] >= 0 then outs[0] else FirstOut([]);
      assert outs[1..] == [];
    }
  }
}
