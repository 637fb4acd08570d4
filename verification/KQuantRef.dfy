/** The scalar reference dots of Q4_K and Q6_K rows with Q8_K rows. */
module KQuantRef {
  import opened Arithmetic
  import opened Quants
  import opened KQuant

  // ---- eight lanes at a time -----------------------------------------------------

  /** aux32[l] += scale * q8[l] * a[l] over eight codes from `at` on, in 16-bit and 32-bit words. */
  function MacOct(aux32: seq<int>, scale: int, a: seq<int>, q8: seq<int>, at: nat): (v: seq<int>)
    requires |aux32| == 8 && at + 8 <= |a| && at + 8 <= |q8|
    ensures |v| == 8
  {
    seq(8, l requires 0 <= l < 8 => Wrap32(aux32[l] + scale * Wrap16(q8[at + l] * a[at + l])))
  }

  /** Codes of either format: Q6_K's are less 32. */
  predicate Small(a: seq<int>) {
    forall l | 0 <= l < |a| :: -32 <= a[l] < 64
  }

  lemma {:induction false} SmallProduct(c: int, x: int, scale: int)
    requires -32 <= c < 64 && -127 <= x <= 127 && -128 <= scale < 128
    ensures -8001 <= x * c <= 8001 && Wrap16(x * c) == x * c
    ensures -LANE <= scale * (x * c) <= LANE
  {
    if c >= 0 {
      ProductBound(c, x);
    } else {
      ProductBound(-c, x);
    }
    ScaleBound(x * c, scale);
  }

  lemma {:induction false} MacLane(aux32: seq<int>, scale: int, a: seq<int>, q8: seq<int>, at: nat, l: nat, steps: nat)
    requires |aux32| == 8 && at + 8 <= |a| && at + 8 <= |q8| && l < 8
    requires Small(a) && Codes8(q8) && -128 <= scale < 128 && steps < 64 && Within(aux32, LANE * steps)
    ensures MacOct(aux32, scale, a, q8, at)[l] == aux32[l] + scale * (Dot(a, q8, at + l + 1) - Dot(a, q8, at + l))
    ensures -(LANE * (steps + 1)) <= MacOct(aux32, scale, a, q8, at)[l] <= LANE * (steps + 1)
  {
    hide Wrap16;
    var c, x := a[at + l], q8[at + l];
    SmallProduct(c, x, scale);
    assert Dot(a, q8, at + l + 1) - Dot(a, q8, at + l) == x * c;
  }

  lemma {:induction false} OctSum(aux32: seq<int>, scale: int, a: seq<int>, q8: seq<int>, at: nat, n: nat, steps: nat)
    requires |aux32| == 8 && at + 8 <= |a| && at + 8 <= |q8| && n <= 8
    requires Small(a) && Codes8(q8) && -128 <= scale < 128 && steps < 64 && Within(aux32, LANE * steps)
    ensures Sum(MacOct(aux32, scale, a, q8, at), n) == Sum(aux32, n) + scale * (Dot(a, q8, at + n) - Dot(a, q8, at))
  {
    hide MacOct, Small, Codes8, Within;
    if n > 0 {
      var l := n - 1;
      OctSum(aux32, scale, a, q8, at, l, steps);
      MacLane(aux32, scale, a, q8, at, l, steps);
      Distribute(Dot(a, q8, at + l) - Dot(a, q8, at), Dot(a, q8, at + l + 1) - Dot(a, q8, at + l), scale);
    }
  }

  lemma {:induction false} OctStep(aux32: seq<int>, scale: int, a: seq<int>, q8: seq<int>, at: nat, steps: nat)
    requires |aux32| == 8 && at + 8 <= |a| && at + 8 <= |q8|
    requires Small(a) && Codes8(q8) && -128 <= scale < 128 && steps < 64 && Within(aux32, LANE * steps)
    ensures Total(MacOct(aux32, scale, a, q8, at)) == Total(aux32) + scale * (Dot(a, q8, at + 8) - Dot(a, q8, at))
    ensures Within(MacOct(aux32, scale, a, q8, at), LANE * (steps + 1))
  {
    OctSum(aux32, scale, a, q8, at, |aux32|, steps);
    forall l | 0 <= l < 8
      ensures -(LANE * (steps + 1)) <= MacOct(aux32, scale, a, q8, at)[l] <= LANE * (steps + 1)
    {
      MacLane(aux32, scale, a, q8, at, l, steps);
    }
  }

  /** Scaled dots of runs of `width` codes. */
  function Scaled(a: seq<int>, q8: seq<int>, scales: seq<int>, width: nat, n: nat): int
    requires n <= |scales| && width * n <= |a| == |q8|
  {
    if n == 0 then 0
    else
      assert width * n == width * (n - 1) + width;
      Scaled(a, q8, scales, width, n - 1) + scales[n - 1] * (Dot(a, q8, width * (n - 1) + width) - Dot(a, q8, width * (n - 1)))
  }

  /** The loops over sub-blocks of `width` codes and groups of eight. */
  method Accumulate(a: seq<int>, q8: seq<int>, scales: seq<int>, width: nat) returns (aux32: seq<int>)
    requires |a| == |q8| == 256 && Small(a) && Codes8(q8)
    requires (width == 32 && |scales| == 8) || (width == 16 && |scales| == 16)
    requires forall j | 0 <= j < |scales| :: -128 <= scales[j] < 128
    ensures |aux32| == 8 && Total(aux32) == Scaled(a, q8, scales, width, |scales|)
  {
    hide MacOct, Dot, Small, Codes8;
    aux32 := [0, 0, 0, 0, 0, 0, 0, 0];
    assert Total(aux32) == 0;
    var j := 0;
    while j < |scales|
      invariant j <= |scales| && |aux32| == 8 && Within(aux32, LANE * (width / 8 * j))
      invariant Total(aux32) == Scaled(a, q8, scales, width, j)
    {
      var at := width * j;
      aux32 := AccumulateRun(a, q8, scales[j], at, width / 8, width / 8 * j, aux32);
      j := j + 1;
    }
  }

  /** One sub-block: `groups` groups of eight codes from `lo` on, after `steps` groups. */
  method AccumulateRun(a: seq<int>, q8: seq<int>, scale: int, lo: nat, groups: nat, ghost steps: nat, was: seq<int>) returns (aux32: seq<int>)
    requires |a| == |q8| == 256 && Small(a) && Codes8(q8) && -128 <= scale < 128
    requires lo + 8 * groups <= 256 && steps + groups <= 64
    requires |was| == 8 && Within(was, LANE * steps)
    ensures |aux32| == 8 && Within(aux32, LANE * (steps + groups))
    ensures Total(aux32) == Total(was) + scale * (Dot(a, q8, lo + 8 * groups) - Dot(a, q8, lo))
  {
    hide MacOct, Small, Codes8, Within, Total;
    aux32 := was;
    var k := 0;
    while k < groups
      invariant k <= groups && |aux32| == 8 && Within(aux32, LANE * (steps + k))
      invariant Total(aux32) == Total(was) + scale * (Dot(a, q8, lo + 8 * k) - Dot(a, q8, lo))
    {
      var at := lo + 8 * k;
      OctStep(aux32, scale, a, q8, at, steps + k);
      Distribute(Dot(a, q8, at) - Dot(a, q8, lo), Dot(a, q8, at + 8) - Dot(a, q8, at), scale);
      aux32 := MacOct(aux32, scale, a, q8, at);
      k := k + 1;
    }
  }

  // ---- Q4_K ----------------------------------------------------------------------

  method Unpack4(p: seq<Byte>) returns (a: seq<int>)
    requires |p| == 144
    ensures a == Codes(Q4K, p, 0, 256)
  {
    hide Low, High;
    a := [];
    var j := 0;
    while j < 4
      invariant j <= 4 && |a| == 64 * j && forall e | 0 <= e < |a| :: a[e] == Code(Q4K, p, e)
    {
      var l := 0;
      while l < 32
        invariant l <= 32 && |a| == 64 * j + l && forall e | 0 <= e < |a| :: a[e] == Code(Q4K, p, e)
      {
        NibbleOf(p, j, l);
        a := a + [Low(p[16 + 32 * j + l])];
        l := l + 1;
      }
      l := 0;
      while l < 32
        invariant l <= 32 && |a| == 64 * j + 32 + l && forall e | 0 <= e < |a| :: a[e] == Code(Q4K, p, e)
      {
        NibbleOf(p, j, l);
        a := a + [High(p[16 + 32 * j + l])];
        l := l + 1;
      }
      j := j + 1;
    }
  }

  lemma {:induction false} NibbleOf(p: seq<Byte>, j: nat, l: nat)
    requires |p| == 144 && j < 4 && l < 32
    ensures Code(Q4K, p, 64 * j + l) == Low(p[16 + 32 * j + l]) && Code(Q4K, p, 64 * j + 32 + l) == High(p[16 + 32 * j + l])
  {
    hide Low, High;
    assert (64 * j + l) / 64 == j && (64 * j + l) % 32 == l && (64 * j + l) % 64 == l;
    assert (64 * j + 32 + l) / 64 == j && (64 * j + 32 + l) % 32 == l && (64 * j + 32 + l) % 64 == 32 + l;
  }

  /** A run of a dot product is the dot product of the run. */
  lemma {:induction false} RunOf(c: seq<int>, x: seq<int>, m: nat, n: nat)
    requires |c| == |x| && m + n <= |x|
    ensures Dot(c, x, m + n) - Dot(c, x, m) == Inner(c[m..m + n], x[m..m + n])
    ensures Sum(x, m + n) - Sum(x, m) == Total(x[m..m + n])
  {
    DotSplit(c, x, m, n);
    DotPrefix(c[m..], x[m..], n, n);
    assert c[m..][..n] == c[m..m + n] && x[m..][..n] == x[m..m + n];
  }

  lemma {:induction false} ScaledIsDots4(p: seq<Byte>, qs: seq<int>, scales: seq<int>, n: nat)
    requires |p| == 144 && |qs| == 256 && |scales| == 8 && n <= 8
    requires forall s | 0 <= s < 8 :: scales[s] == ScaleMin(p[4..16], s).0 as int
    ensures Scaled(Codes(Q4K, p, 0, 256), qs, scales, 32, n) == Dots4(p, qs, n)
  {
    hide Code, ScaleMin, Inner, Dot;
    if n > 0 {
      ScaledIsDots4(p, qs, scales, n - 1);
      var at := 32 * (n - 1);
      RunOf(Codes(Q4K, p, 0, 256), qs, at, 32);
      assert Codes(Q4K, p, 0, 256)[at..at + 32] == Codes(Q4K, p, at, 32);
    }
  }

  /** The sums of every 16 codes, scaled by the minimums of their sub-blocks. */
  function ScaledSums(bsums: seq<int>, mins: seq<int>, n: nat): int
    requires |bsums| == 16 && |mins| == 8 && n <= 16
  {
    if n == 0 then 0 else ScaledSums(bsums, mins, n - 1) + bsums[n - 1] * mins[(n - 1) / 2]
  }

  /** They stay far inside 32 bits. */
  lemma {:induction false} SumsBound(y: Q8Block, mins: seq<int>, n: nat)
    requires Q8Valid(y) && |mins| == 8 && n <= 16 && forall s | 0 <= s < 8 :: 0 <= mins[s] < 64
    ensures -130048 * n <= ScaledSums(y.bsums, mins, n) <= 130048 * n
  {
    if n > 0 {
      SumsBound(y, mins, n - 1);
      var j := n - 1;
      var x, m := y.bsums[j], mins[j / 2];
      SumBound(y.qs[16 * j..16 * j + 16], 16);
      assert x == Total(y.qs[16 * j..16 * j + 16]);
      MulMonotone(-2032, x, m);
      MulMonotone(x, 2032, m);
    }
  }

  lemma {:induction false} SumsAreMins4(p: seq<Byte>, y: Q8Block, mins: seq<int>, n: nat)
    requires |p| == 144 && Q8Valid(y) && |mins| == 8 && n <= 8
    requires forall s | 0 <= s < 8 :: mins[s] == ScaleMin(p[4..16], s).1 as int
    ensures ScaledSums(y.bsums, mins, 2 * n) == Mins4(p, y.qs, n)
  {
    hide ScaleMin, Total, Sum;
    if n > 0 {
      SumsAreMins4(p, y, mins, n - 1);
      var at, s := 32 * (n - 1), n - 1;
      PairTotal(y.qs, s);
      assert y.bsums[2 * s] == Total(y.qs[16 * (2 * s)..16 * (2 * s) + 16]);
      assert y.bsums[2 * s + 1] == Total(y.qs[16 * (2 * s + 1)..16 * (2 * s + 1) + 16]);
      assert (2 * s + 1) / 2 == s && 2 * s / 2 == s;
      Distribute(y.bsums[2 * s], y.bsums[2 * s + 1], mins[s]);
    }
  }

  lemma {:induction false} PairTotal(qs: seq<int>, s: nat)
    requires |qs| == 256 && s < 8
    ensures Total(qs[32 * s..32 * s + 32])
         == Total(qs[16 * (2 * s)..16 * (2 * s) + 16]) + Total(qs[16 * (2 * s + 1)..16 * (2 * s + 1) + 16])
  {
    RunOf(qs, qs, 32 * s, 32);
    RunOf(qs, qs, 32 * s, 16);
    RunOf(qs, qs, 32 * s + 16, 16);
  }

  /** Scales and minimums as the loops read them. */
  method ReadScales(p: seq<Byte>) returns (scales: seq<int>, mins: seq<int>)
    requires |p| == 144
    ensures |scales| == |mins| == 8
    ensures forall s | 0 <= s < 8 :: scales[s] == ScaleMin(p[4..16], s).0 as int && 0 <= scales[s] < 64
    ensures forall s | 0 <= s < 8 :: mins[s] == ScaleMin(p[4..16], s).1 as int && 0 <= mins[s] < 64
  {
    var utmp := new bv32[4];
    UnpackScalesMins(p[4..16], utmp);
    hide ByteOf, ScaleMin;
    var w := utmp[..];
    scales, mins := [], [];
    assert forall j: nat | j < 8 ::
        ByteOf(w[j / 4], j % 4) == ScaleMin(p[4..16], j).0 && ByteOf(w[2 + j / 4], j % 4) == ScaleMin(p[4..16], j).1;
    while |scales| < 8
      invariant |scales| == |mins| <= 8
      invariant forall s | 0 <= s < |scales| :: scales[s] == ScaleMin(p[4..16], s).0 as int && 0 <= scales[s] < 64
      invariant forall s | 0 <= s < |scales| :: mins[s] == ScaleMin(p[4..16], s).1 as int && 0 <= mins[s] < 64
    {
      var j := |scales|;
      SixBitField(p[4..16], j);
      scales, mins := scales + [ByteOf(w[j / 4], j % 4) as int], mins + [ByteOf(w[2 + j / 4], j % 4) as int];
    }
  }

  lemma {:induction false} SixBitField(q: seq<Byte>, j: nat)
    requires |q| == 12 && j < 8
    ensures ScaleMin(q, j).0 as int < 64 && ScaleMin(q, j).1 as int < 64
  {
    assert ScaleMin(q, j).0 < 64 && ScaleMin(q, j).1 < 64;
  }

  method RefBlock4(p: seq<Byte>, y: Q8Block) returns (aux32: seq<int>, sumi: int)
    requires |p| == 144 && Q8Valid(y)
    ensures |aux32| == 8 && Total(aux32) == Dots4(p, y.qs, 8) && sumi == Mins4(p, y.qs, 8)
  {
    hide Code, ScaleMin, Inner, Dot, Total;
    var a := Unpack4(p);
    var scales, mins := ReadScales(p);
    sumi := 0;
    var j := 0;
    while j < 16
      invariant j <= 16 && sumi == ScaledSums(y.bsums, mins, j)
    {
      SumsBound(y, mins, j + 1);
      sumi := Wrap32(sumi + y.bsums[j] * mins[j / 2]);
      j := j + 1;
    }
    SumsAreMins4(p, y, mins, 8);
    assert Small(a);
    aux32 := Accumulate(a, y.qs, scales, 32);
    ScaledIsDots4(p, y.qs, scales, 8);
  }

  method VecDot4(half: Half, row: seq<seq<Byte>>, y: seq<Q8Block>) returns (sumf: real)
    requires Row(Q4K, row) && Q8Row(y) && |y| == |row|
    ensures sumf == RealDot(Weights(Q4K, half, row), FlatCodes(y), FlatScales(y), 256 * |row|)
  {
    hide Weights, FlatCodes, FlatScales, Q8Valid, Total, Dots4, Mins4, Across, FmaAll;
    var sums := [0.0, 0.0, 0.0, 0.0, 0.0, 0.0, 0.0, 0.0];
    NoneAcross(sums);
    sumf := 0.0;
    var i := 0;
    while i < |row|
      invariant i <= |row| && |sums| == 8
      invariant Across(sums) + sumf == RealDot(Weights(Q4K, half, row), FlatCodes(y), FlatScales(y), 256 * i)
    {
      var p := row[i];
      var aux32, sumi := RefBlock4(p, y[i]);
      Prefix4(half, row, y, i, 8);
      var d := half(p[0], p[1]) * y[i].d;
      FmaAcross(sums, d, aux32);
      sums := FmaAll(sums, d, aux32);
      var dmin := half(p[2], p[3]) * y[i].d;
      sumf := sumf - dmin * sumi as real;
      i := i + 1;
    }
    sumf := sumf + Across(sums);
  }

  lemma {:induction false} NoneAcross(v: seq<real>)
    requires |v| == 8 && forall i | 0 <= i < 8 :: v[i] == 0.0
    ensures Across(v) == 0.0
  {
    ZeroSum(v, |v|);
  }

  lemma {:induction false} ZeroSum(v: seq<real>, n: nat)
    requires n <= |v| && forall i | 0 <= i < |v| :: v[i] == 0.0
    ensures RSum(v, n) == 0.0
  {
    if n > 0 {
      ZeroSum(v, n - 1);
    }
  }

  // ---- Q6_K ----------------------------------------------------------------------

  /** The code of weight `e`, less 32. */
  function Centered(p: seq<Byte>, e: nat): int
    requires |p| == 210 && e < 256
  {
    Code(Q6K, p, e) - 32
  }

  lemma {:induction false} CenteredAt(p: seq<Byte>, h: nat, quarter: nat, l: nat, e: nat, c: int)
    requires |p| == 210 && h < 2 && quarter < 4 && l < 32 && e == 128 * h + 32 * quarter + l
    requires c == SixBits(p[64 * h + 32 * (quarter % 2) + l], p[128 + 32 * h + l], quarter) as int - 32
    ensures c == Centered(p, e)
  {
    hide SixBits;
    assert e / 128 == h && e % 128 / 32 == quarter && e % 32 == l;
  }

  /** Codes [lo, lo + n) are unpacked. */
  ghost predicate Centers(a: seq<int>, p: seq<Byte>, lo: nat, n: nat)
    requires |a| == 256 && |p| == 210 && lo + n <= 256
  {
    forall e | lo <= e < lo + n :: a[e] == Centered(p, e)
  }

  /** The four quarters of half `h`, up to offset `l`, are unpacked. */
  ghost predicate Quarters(a: seq<int>, p: seq<Byte>, h: nat, l: nat)
    requires |a| == 256 && |p| == 210 && h < 2 && l <= 32
  {
    && Centers(a, p, 128 * h, l) && Centers(a, p, 128 * h + 32, l)
    && Centers(a, p, 128 * h + 64, l) && Centers(a, p, 128 * h + 96, l)
  }

  lemma {:induction false} NoCenters(a: seq<int>, p: seq<Byte>, h: nat)
    requires |a| == 256 && |p| == 210
    ensures Centers(a, p, 0, 0) && (h < 2 ==> Quarters(a, p, h, 0))
  {
  }

  lemma {:induction false} HalfDone(a: seq<int>, p: seq<Byte>, h: nat)
    requires |a| == 256 && |p| == 210 && h < 2 && Centers(a, p, 0, 128 * h) && Quarters(a, p, h, 32)
    ensures Centers(a, p, 0, 128 * (h + 1))
  {
    hide Centered;
  }

  lemma {:induction false} AllCentered(a: seq<int>, p: seq<Byte>)
    requires |a| == 256 && |p| == 210 && Centers(a, p, 0, 256)
    ensures forall e | 0 <= e < 256 :: a[e] == Centered(p, e)
  {
    hide Centered;
  }

  lemma {:induction false} QuartersGrow(a: seq<int>, was: seq<int>, p: seq<Byte>, h: nat, l: nat, at: nat, c0: int, c1: int, c2: int, c3: int)
    requires |was| == 256 && |p| == 210 && h < 2 && l < 32 && at == 128 * h + l && Centers(was, p, 0, 128 * h) && Quarters(was, p, h, l)
    requires c0 == Centered(p, at) && c1 == Centered(p, at + 32) && c2 == Centered(p, at + 64) && c3 == Centered(p, at + 96)
    requires a == was[at := c0][at + 32 := c1][at + 64 := c2][at + 96 := c3]
    ensures Centers(a, p, 0, 128 * h) && Quarters(a, p, h, l + 1)
  {
    hide Centered;
  }

  /** Four codes from two low bytes and one byte of high bits. */
  method UnpackFour(a: seq<int>, p: seq<Byte>, h: nat, l: nat) returns (r: seq<int>)
    requires |a| == 256 && |p| == 210 && h < 2 && l < 32 && Centers(a, p, 0, 128 * h) && Quarters(a, p, h, l)
    ensures |r| == 256 && Centers(r, p, 0, 128 * h) && Quarters(r, p, h, l + 1)
  {
    hide Centered, SixBits, Quarters, Centers;
    var at, ql, qh := 128 * h + l, 64 * h, 128 + 32 * h;
    var c0 := SixBits(p[ql + l], p[qh + l], 0) as int - 32;
    var c1 := SixBits(p[ql + l + 32], p[qh + l], 1) as int - 32;
    var c2 := SixBits(p[ql + l], p[qh + l], 2) as int - 32;
    var c3 := SixBits(p[ql + l + 32], p[qh + l], 3) as int - 32;
    CenteredAt(p, h, 0, l, at, c0);
    CenteredAt(p, h, 1, l, at + 32, c1);
    CenteredAt(p, h, 2, l, at + 64, c2);
    CenteredAt(p, h, 3, l, at + 96, c3);
    r := a[at := c0][at + 32 := c1][at + 64 := c2][at + 96 := c3];
    QuartersGrow(r, a, p, h, l, at, c0, c1, c2, c3);
  }

  method Unpack6(p: seq<Byte>) returns (a: seq<int>)
    requires |p| == 210
    ensures |a| == 256 && forall e | 0 <= e < 256 :: a[e] == Centered(p, e)
  {
    hide Centered, SixBits, Quarters, Centers;
    a := seq(256, i => 0);
    NoCenters(a, p, 0);
    var h := 0;
    while h < 2
      invariant h <= 2 && |a| == 256 && Centers(a, p, 0, 128 * h)
    {
      var l := 0;
      NoCenters(a, p, h);
      while l < 32
        invariant l <= 32 && |a| == 256 && Centers(a, p, 0, 128 * h) && Quarters(a, p, h, l)
      {
        a := UnpackFour(a, p, h, l);
        l := l + 1;
      }
      HalfDone(a, p, h);
      h := h + 1;
    }
    AllCentered(a, p);
  }

  /** Taking 32 off every code takes 32 times the sum off the dot product. */
  lemma {:induction false} CenteredDot(c: seq<int>, a: seq<int>, x: seq<int>, n: nat)
    requires |c| == |a| == |x| && n <= |x| && forall i | 0 <= i < |a| :: a[i] == c[i] - 32
    ensures Dot(a, x, n) == Dot(c, x, n) - 32 * Sum(x, n)
  {
    if n > 0 {
      CenteredDot(c, a, x, n - 1);
    }
  }

  lemma {:induction false} ScaledIsDots6(p: seq<Byte>, a: seq<int>, qs: seq<int>, scales: seq<int>, n: nat)
    requires |p| == 210 && |a| == |qs| == 256 && |scales| == 16 && n <= 16
    requires forall e | 0 <= e < 256 :: a[e] == Centered(p, e)
    requires forall g | 0 <= g < 16 :: scales[g] == Int8(p[192 + g])
    ensures Scaled(a, qs, scales, 16, n) == Dots6(p, qs, n)
  {
    hide Code, Int8, Dot;
    if n > 0 {
      ScaledIsDots6(p, a, qs, scales, n - 1);
      var at := 16 * (n - 1);
      var x := qs[at..at + 16];
      RunOf(a, qs, at, 16);
      CenteredDot(Codes(Q6K, p, at, 16), a[at..at + 16], x, |x|);
      assert Inner(a[at..at + 16], x) == Inner(Codes(Q6K, p, at, 16), x) - 32 * Total(x);
    }
  }

  method RefBlock6(p: seq<Byte>, y: Q8Block) returns (aux32: seq<int>)
    requires |p| == 210 && Q8Valid(y)
    ensures |aux32| == 8 && Total(aux32) == Dots6(p, y.qs, 16)
  {
    hide Code, Int8, Inner, Dot, Total;
    var a := Unpack6(p);
    var scales := seq(16, g requires 0 <= g < 16 => Int8(p[192 + g]));
    assert Small(a);
    aux32 := Accumulate(a, y.qs, scales, 16);
    ScaledIsDots6(p, a, y.qs, scales, 16);
  }

  method VecDot6(half: Half, row: seq<seq<Byte>>, y: seq<Q8Block>) returns (sumf: real)
    requires Row(Q6K, row) && Q8Row(y) && |y| == |row|
    ensures sumf == RealDot(Weights(Q6K, half, row), FlatCodes(y), FlatScales(y), 256 * |row|)
  {
    hide Weights, FlatCodes, FlatScales, Q8Valid, Total, Dots6, Across, FmaAll;
    var sums := [0.0, 0.0, 0.0, 0.0, 0.0, 0.0, 0.0, 0.0];
    NoneAcross(sums);
    var i := 0;
    while i < |row|
      invariant i <= |row| && |sums| == 8
      invariant Across(sums) == RealDot(Weights(Q6K, half, row), FlatCodes(y), FlatScales(y), 256 * i)
    {
      var p := row[i];
      var aux32 := RefBlock6(p, y[i]);
      Prefix6(half, row, y, i, 16);
      var d := half(p[208], p[209]) * y[i].d;
      FmaAcross(sums, d, aux32);
      sums := FmaAll(sums, d, aux32);
      i := i + 1;
    }
    sumf := Across(sums);
  }
}
