/** The AVX2 kernels: one Q4_K or Q6_K weight row against several Q8_K rows at once, each weight
    block unpacked once, and the tiling of a whole batch. */
module KQuantAvx2 {
  import opened Quants
  import opened KQuant
  import opened KQuantRef

  // ---- byte vectors as 16-bit words ----------------------------------------------

  function Word16(lo: Byte, hi: Byte): bv16 {
    (lo as bv16) | ((hi as bv16) << 8)
  }

  function Low8(w: bv16): Byte {
    (w & 0xff) as Byte
  }

  function High8(w: bv16): Byte {
    (w >> 8) as Byte
  }

  datatype Shift = Right4 | Right2 | Left4 | Left2

  function Shift16(w: bv16, s: Shift): bv16 {
    match s
    case Right4 => w >> 4
    case Right2 => w >> 2
    case Left4 => w << 4
    case Left2 => w << 2
  }

  /** A shift of every 16-bit word of a vector of 32 bytes: bits cross from byte to byte. */
  function ShiftWords(v: seq<Byte>, s: Shift): (w: seq<Byte>)
    requires |v| == 32
    ensures |w| == 32
  {
    seq(32, i requires 0 <= i < 32 =>
      if i % 2 == 0 then Low8(Shift16(Word16(v[i], v[i + 1]), s)) else High8(Shift16(Word16(v[i - 1], v[i]), s)))
  }

  function And(v: seq<Byte>, m: Byte): (w: seq<Byte>)
    ensures |w| == |v|
  {
    seq(|v|, i requires 0 <= i < |v| => Mask(v[i], m))
  }

  function Mask(b: Byte, m: Byte): Byte {
    b & m
  }

  /** The high bits of a quarter in their place above a nibble. */
  function Raised(b: Byte, quarter: nat): Byte
    requires quarter < 4
  {
    HighBits(b, quarter) << 4
  }

  function Or(a: seq<Byte>, b: seq<Byte>): (w: seq<Byte>)
    requires |a| == |b|
    ensures |w| == |a|
  {
    seq(|a|, i requires 0 <= i < |a| => a[i] | b[i])
  }

  /** The mask after the shift keeps what crossed a byte boundary out. */
  lemma {:induction false} HighNibblePair(b0: Byte, b1: Byte)
    ensures Low8(Shift16(Word16(b0, b1), Right4)) & 15 == b0 >> 4
    ensures High8(Shift16(Word16(b0, b1), Right4)) & 15 == b1 >> 4
  {
  }

  /** The masks before the shifts keep every shifted bit inside its byte. */
  lemma {:induction false} Quarter0Pair(b0: Byte, b1: Byte)
    ensures Low8(Shift16(Word16(Mask(b0, 3), Mask(b1, 3)), Left4)) == Raised(b0, 0)
    ensures High8(Shift16(Word16(Mask(b0, 3), Mask(b1, 3)), Left4)) == Raised(b1, 0)
  {
  }

  lemma {:induction false} Quarter1Pair(b0: Byte, b1: Byte)
    ensures Low8(Shift16(Word16(Mask(b0, 12), Mask(b1, 12)), Left2)) == Raised(b0, 1)
    ensures High8(Shift16(Word16(Mask(b0, 12), Mask(b1, 12)), Left2)) == Raised(b1, 1)
  {
  }

  lemma {:induction false} Quarter2Byte(b: Byte)
    ensures Mask(b, 48) == Raised(b, 2)
  {
  }

  lemma {:induction false} Quarter3Pair(b0: Byte, b1: Byte)
    ensures Low8(Shift16(Word16(Mask(b0, 192), Mask(b1, 192)), Right2)) == Raised(b0, 3)
    ensures High8(Shift16(Word16(Mask(b0, 192), Mask(b1, 192)), Right2)) == Raised(b1, 3)
  {
  }

  lemma {:induction false} HighNibbleAt(v: seq<Byte>, i: nat)
    requires |v| == 32 && i < 32
    ensures And(ShiftWords(v, Right4), 15)[i] == v[i] >> 4
  {
    hide Low8, High8, Shift16, Word16;
    if i % 2 == 0 {
      HighNibblePair(v[i], v[i + 1]);
    } else {
      HighNibblePair(v[i - 1], v[i]);
    }
  }

  /** The high bits of quarter `quarter`, shifted into place. */
  function HighPlane(h: seq<Byte>, quarter: nat): (w: seq<Byte>)
    requires |h| == 32 && quarter < 4
    ensures |w| == 32
  {
    if quarter == 0 then ShiftWords(And(h, 3), Left4)
    else if quarter == 1 then ShiftWords(And(h, 12), Left2)
    else if quarter == 2 then And(h, 48)
    else ShiftWords(And(h, 192), Right2)
  }

  lemma {:induction false} HighPlaneAt(h: seq<Byte>, quarter: nat, i: nat)
    requires |h| == 32 && quarter < 4 && i < 32
    ensures HighPlane(h, quarter)[i] == Raised(h[i], quarter)
  {
    hide Low8, High8, Shift16, Word16, Raised, Mask;
    var j := if i % 2 == 0 then i else i - 1;
    if quarter == 0 {
      Quarter0Pair(h[j], h[j + 1]);
    } else if quarter == 1 {
      Quarter1Pair(h[j], h[j + 1]);
    } else if quarter == 2 {
      Quarter2Byte(h[i]);
    } else {
      Quarter3Pair(h[j], h[j + 1]);
    }
  }

  /** The codes of a quarter: nibbles of one plane with the high bits. */
  function QuarterVec(bits: seq<Byte>, h: seq<Byte>, quarter: nat): (w: seq<Byte>)
    requires |bits| == 32 && |h| == 32 && quarter < 4
    ensures |w| == 32
  {
    if quarter < 2 then Or(And(bits, 15), HighPlane(h, quarter)) else Or(And(ShiftWords(bits, Right4), 15), HighPlane(h, quarter))
  }

  lemma {:induction false} QuarterVecAt(bits: seq<Byte>, h: seq<Byte>, quarter: nat, i: nat)
    requires |bits| == 32 && |h| == 32 && quarter < 4 && i < 32
    ensures QuarterVec(bits, h, quarter)[i] == SixBits(bits[i], h[i], quarter)
  {
    hide HighPlane, ShiftWords, HighBits;
    HighPlaneAt(h, quarter, i);
    if quarter >= 2 {
      HighNibbleAt(bits, i);
    }
  }

  function Ints(v: seq<Byte>): (c: seq<int>)
    ensures |c| == |v| && forall i | 0 <= i < |v| :: c[i] == v[i] as int
  {
    seq(|v|, i requires 0 <= i < |v| => v[i] as int)
  }

  // ---- unpacking a weight block --------------------------------------------------

  lemma {:induction false} Unpacked4(p: seq<Byte>, j: nat, bits: seq<Byte>)
    requires |p| == 144 && j < 4 && bits == p[16 + 32 * j..48 + 32 * j]
    ensures Ints(And(bits, 15)) == Codes(Q4K, p, 64 * j, 32)
    ensures Ints(And(ShiftWords(bits, Right4), 15)) == Codes(Q4K, p, 64 * j + 32, 32)
  {
    hide ShiftWords, Code;
    var lo, hi, c0, c1 := Ints(And(bits, 15)), Ints(And(ShiftWords(bits, Right4), 15)), Codes(Q4K, p, 64 * j, 32), Codes(Q4K, p, 64 * j + 32, 32);
    forall l | 0 <= l < 32
      ensures lo[l] == c0[l] && hi[l] == c1[l]
    {
      NibbleOf(p, j, l);
      HighNibbleAt(bits, l);
    }
  }

  lemma {:induction false} Unpacked6(p: seq<Byte>, j: nat, quarter: nat, bits: seq<Byte>, h: seq<Byte>)
    requires |p| == 210 && j < 2 && quarter < 4
    requires bits == p[64 * j + 32 * (quarter % 2)..64 * j + 32 * (quarter % 2) + 32] && h == p[128 + 32 * j..160 + 32 * j]
    ensures Ints(QuarterVec(bits, h, quarter)) == Codes(Q6K, p, 128 * j + 32 * quarter, 32)
  {
    hide QuarterVec, Code, SixBits;
    var v, c := Ints(QuarterVec(bits, h, quarter)), Codes(Q6K, p, 128 * j + 32 * quarter, 32);
    forall l | 0 <= l < 32
      ensures v[l] == c[l]
    {
      QuarterVecAt(bits, h, quarter, l);
      var code := SixBits(p[64 * j + 32 * (quarter % 2) + l], p[128 + 32 * j + l], quarter) as int;
      CenteredAt(p, j, quarter, l, 128 * j + 32 * quarter + l, code - 32);
      assert Centered(p, 128 * j + 32 * quarter + l) == Code(Q6K, p, 128 * j + 32 * quarter + l) - 32;
    }
  }

  // ---- Q4_K ----------------------------------------------------------------------

  /** Row `k` of the shuffle table broadcasts 16-bit lane `k`. */
  function Broadcast(lanes: seq<int>, k: nat): (v: seq<int>)
    requires k < |lanes|
    ensures |v| == 16
  {
    Scales16(lanes[k], lanes[k])
  }

  /** The rows of a batch. */
  ghost predicate Batch(ys: seq<seq<Q8Block>>, nb: nat) {
    forall r | 0 <= r < |ys| :: |ys[r]| == nb && Q8Row(ys[r])
  }

  lemma {:induction false} BatchBlock(ys: seq<seq<Q8Block>>, nb: nat, r: nat, i: nat)
    requires Batch(ys, nb) && r < |ys| && i < nb
    ensures |ys[r]| == nb && Q8Valid(ys[r][i]) && |ys[r][i].qs| == 256 && Codes8(ys[r][i].qs)
  {
  }

  /** One scaled sub-block. */
  method Dot4(scales: seq<int>, s: nat, c: seq<int>, q8: seq<int>, ghost p: seq<Byte>) returns (v: seq<int>)
    requires |p| == 144 && |scales| == 8 && s < 8 && |q8| == 256 && Codes8(q8)
    requires forall i | 0 <= i < 8 :: scales[i] == ScaleMin(p[4..16], i).0 as int && 0 <= scales[i] < 64
    requires c == Codes(Q4K, p, 32 * s, 32)
    ensures |v| == 8 && Within(v, LANE) && Total(v) == Dots4(p, q8, s + 1) - Dots4(p, q8, s)
  {
    hide Madd, Maddubs, Within, Inner, Total, Code, ScaleMin;
    var x := q8[32 * s..32 * s + 32];
    v := Madd(Broadcast(scales, s), Maddubs(c, x));
    ScaledVector(scales[s], scales[s], c, x);
  }

  /** The scaled dots of block `i` with every row, the weight block unpacked once. */
  method Sums4(p: seq<Byte>, scales: seq<int>, ys: seq<seq<Q8Block>>, nb: nat, i: nat) returns (sumi: seq<seq<int>>)
    requires |p| == 144 && Batch(ys, nb) && i < nb && |scales| == 8
    requires forall s | 0 <= s < 8 :: scales[s] == ScaleMin(p[4..16], s).0 as int && 0 <= scales[s] < 64
    ensures |sumi| == |ys|
    ensures forall r | 0 <= r < |ys| :: |ys[r][i].qs| == 256 && |sumi[r]| == 8 && Total(sumi[r]) == Dots4(p, ys[r][i].qs, 8)
  {
    hide Inner, Total, Code, ScaleMin, ShiftWords, Dots4, Within;
    sumi := seq(|ys|, r => [0, 0, 0, 0, 0, 0, 0, 0]);
    forall r | 0 <= r < |ys|
      ensures Chunks4(sumi[r], p, ys[r], nb, i, 0)
    {
      BatchBlock(ys, nb, r, i);
      NoChunks(p, ys[r], nb, i);
    }
    var j := 0;
    while j < 4
      invariant j <= 4 && |sumi| == |ys| && forall r | 0 <= r < |ys| :: Chunks4(sumi[r], p, ys[r], nb, i, j)
    {
      var bits := p[16 + 32 * j..48 + 32 * j];
      var q4l, q4h := Ints(And(bits, 15)), Ints(And(ShiftWords(bits, Right4), 15));
      Unpacked4(p, j, bits);
      var r := 0;
      while r < |ys|
        invariant r <= |ys| && |sumi| == |ys|
        invariant forall t | 0 <= t < |ys| :: Chunks4(sumi[t], p, ys[t], nb, i, if t < r then j + 1 else j)
      {
        BatchBlock(ys, nb, r, i);
        var s := AddChunk4(p, scales, q4l, q4h, ys[r], nb, i, j, sumi[r]);
        sumi := sumi[r := s];
        r := r + 1;
      }
      j := j + 1;
    }
    forall r | 0 <= r < |ys|
      ensures |ys[r][i].qs| == 256 && |sumi[r]| == 8 && Total(sumi[r]) == Dots4(p, ys[r][i].qs, 8)
    {
      assert Chunks4(sumi[r], p, ys[r], nb, i, 4);
    }
  }

  /** The lanes hold the first `j` chunks of block `i`. */
  ghost predicate Chunks4(v: seq<int>, p: seq<Byte>, y: seq<Q8Block>, nb: nat, i: nat, j: nat)
    requires |p| == 144 && j <= 4
  {
    && |y| == nb && i < nb && |y[i].qs| == 256 && Codes8(y[i].qs)
    && |v| == 8 && Within(v, 2 * j * LANE) && Total(v) == Dots4(p, y[i].qs, 2 * j)
  }

  lemma {:induction false} NoChunks(p: seq<Byte>, y: seq<Q8Block>, nb: nat, i: nat)
    requires |p| == 144 && |y| == nb && i < nb && |y[i].qs| == 256 && Codes8(y[i].qs)
    ensures Chunks4([0, 0, 0, 0, 0, 0, 0, 0], p, y, nb, i, 0)
  {
    ZeroTotal([0, 0, 0, 0, 0, 0, 0, 0], 8);
  }

  lemma {:induction false} ZeroTotal(v: seq<int>, n: nat)
    requires n <= |v| && forall i | 0 <= i < |v| :: v[i] == 0
    ensures Sum(v, n) == 0
  {
    if n > 0 {
      ZeroTotal(v, n - 1);
    }
  }

  method AddChunk4(p: seq<Byte>, scales: seq<int>, q4l: seq<int>, q4h: seq<int>, y: seq<Q8Block>, nb: nat, i: nat, j: nat, was: seq<int>)
    returns (v: seq<int>)
    requires |p| == 144 && j < 4 && Chunks4(was, p, y, nb, i, j) && |scales| == 8
    requires forall s | 0 <= s < 8 :: scales[s] == ScaleMin(p[4..16], s).0 as int && 0 <= scales[s] < 64
    requires q4l == Codes(Q4K, p, 64 * j, 32) && q4h == Codes(Q4K, p, 64 * j + 32, 32)
    ensures Chunks4(v, p, y, nb, i, j + 1)
  {
    hide Inner, Total, Code, ScaleMin, Dots4, Within, Add32;
    assert 32 * (2 * j) == 64 * j && 32 * (2 * j + 1) == 64 * j + 32;
    var p16l := Dot4(scales, 2 * j, q4l, y[i].qs, p);
    var p16h := Dot4(scales, 2 * j + 1, q4h, y[i].qs, p);
    AddTotal(p16l, p16h, LANE, LANE);
    AddTotal(was, Add32(p16l, p16h), 2 * j * LANE, 2 * LANE);
    v := Add32(was, Add32(p16l, p16h));
  }

  /** Neighbouring sums of 16 codes make the sums of 32, with room to spare in 16 bits. */
  lemma {:induction false} PairedSums(y: Q8Block, s: nat)
    requires Q8Valid(y) && s < 8
    ensures Hadd16(y.bsums[..8], y.bsums[8..])[s] == Total(y.qs[32 * s..32 * s + 32])
    ensures -4064 <= Hadd16(y.bsums[..8], y.bsums[8..])[s] <= 4064
  {
    hide Sum;
    var a, b := 2 * s, 2 * s + 1;
    assert y.bsums[a] == Total(y.qs[16 * a..16 * a + 16]) && y.bsums[b] == Total(y.qs[16 * b..16 * b + 16]);
    SumBound(y.qs[16 * a..16 * a + 16], |y.qs[16 * a..16 * a + 16]|);
    SumBound(y.qs[16 * b..16 * b + 16], |y.qs[16 * b..16 * b + 16]|);
    PairTotal(y.qs, s);
  }

  /** The minimums of one activation block, four lanes. */
  function Prod4(mins: seq<int>, bsums: seq<int>): (v: seq<int>)
    requires |mins| == 8 && |bsums| == 16
    ensures |v| == 4
  {
    Madd(mins, Hadd16(bsums[..8], bsums[8..]))
  }

  lemma {:induction false} ProdLane(mins: seq<int>, y: Q8Block, t: nat)
    requires Q8Valid(y) && |mins| == 8 && t < 4 && forall s | 0 <= s < 8 :: 0 <= mins[s] < 64
    ensures Prod4(mins, y.bsums)[t]
         == mins[2 * t] * Total(y.qs[32 * (2 * t)..32 * (2 * t) + 32])
            + mins[2 * t + 1] * Total(y.qs[32 * (2 * t + 1)..32 * (2 * t + 1) + 32])
  {
    hide Total, Hadd16;
    var a, b, h := 2 * t, 2 * t + 1, Hadd16(y.bsums[..8], y.bsums[8..]);
    PairedSums(y, a);
    PairedSums(y, b);
    ScaleBound(h[a], mins[a]);
    ScaleBound(h[b], mins[b]);
  }

  lemma {:induction false} ProdSum(p: seq<Byte>, mins: seq<int>, y: Q8Block, n: nat)
    requires |p| == 144 && Q8Valid(y) && |mins| == 8 && n <= 4
    requires forall s | 0 <= s < 8 :: mins[s] == ScaleMin(p[4..16], s).1 as int && 0 <= mins[s] < 64
    ensures Sum(Prod4(mins, y.bsums), n) == Mins4(p, y.qs, 2 * n)
  {
    hide ScaleMin, Total, Prod4;
    if n > 0 {
      ProdSum(p, mins, y, n - 1);
      ProdLane(mins, y, n - 1);
      var s := 2 * (n - 1);
      assert Mins4(p, y.qs, s + 1) == Mins4(p, y.qs, s) + mins[s] * Total(y.qs[32 * s..32 * s + 32]);
      assert Mins4(p, y.qs, s + 2) == Mins4(p, y.qs, s + 1) + mins[s + 1] * Total(y.qs[32 * (s + 1)..32 * (s + 1) + 32]);
    }
  }

  lemma {:induction false} ProdTotal(p: seq<Byte>, mins: seq<int>, y: Q8Block)
    requires |p| == 144 && Q8Valid(y) && |mins| == 8
    requires forall s | 0 <= s < 8 :: mins[s] == ScaleMin(p[4..16], s).1 as int && 0 <= mins[s] < 64
    ensures Total(Prod4(mins, y.bsums)) == Mins4(p, y.qs, 8)
  {
    hide Prod4, ScaleMin;
    ProdSum(p, mins, y, 4);
    assert |Prod4(mins, y.bsums)| == 4;
  }

  /** Row `r`'s float lanes add up to the row dot so far. */
  ghost predicate Upto4(acc: seq<real>, accm: seq<real>, half: Half, row: seq<seq<Byte>>, y: seq<Q8Block>, i: nat)
    requires Row(Q4K, row) && i <= |row|
  {
    && Q8Row(y) && |y| == |row| && |acc| == 8 && |accm| == 4
    && Across(acc) + Across(accm) == RealDot(Weights(Q4K, half, row), FlatCodes(y), FlatScales(y), 256 * i)
  }

  lemma {:induction false} Start4(half: Half, row: seq<seq<Byte>>, y: seq<Q8Block>)
    requires Row(Q4K, row) && Q8Row(y) && |y| == |row|
    ensures Upto4([0.0, 0.0, 0.0, 0.0, 0.0, 0.0, 0.0, 0.0], [0.0, 0.0, 0.0, 0.0], half, row, y, 0)
  {
    hide RSum;
    var a, m := [0.0, 0.0, 0.0, 0.0, 0.0, 0.0, 0.0, 0.0], [0.0, 0.0, 0.0, 0.0];
    ZeroSum(a, |a|);
    ZeroSum(m, |m|);
  }

  lemma {:induction false} Step4(acc: seq<real>, accm: seq<real>, half: Half, row: seq<seq<Byte>>, y: seq<Q8Block>, i: nat, sumi: seq<int>, prod: seq<int>,
              d: real, dmin: real)
    requires Row(Q4K, row) && i < |row| && Upto4(acc, accm, half, row, y, i) && |sumi| == 8 && |prod| == 4 && |y[i].qs| == 256
    requires Total(sumi) == Dots4(row[i], y[i].qs, 8) && Total(prod) == Mins4(row[i], y[i].qs, 8)
    requires d == y[i].d * half(row[i][0], row[i][1]) && dmin == -y[i].d * half(row[i][2], row[i][3])
    ensures Upto4(FmaAll(acc, d, sumi), FmaAll(accm, dmin, prod), half, row, y, i + 1)
  {
    hide Weights, FlatCodes, FlatScales, Total, Across, FmaAll, Value, Times;
    Prefix4(half, row, y, i, 8);
    FmaAcross(acc, d, sumi);
    FmaAcross(accm, dmin, prod);
    Factors(y[i].d, half(row[i][0], row[i][1]), half(row[i][2], row[i][3]), d, dmin, Total(sumi), Total(prod));
  }

  /** The kernel's factors are the reference's. */
  lemma {:induction false} Factors(y: real, dw: real, dmw: real, d: real, dmin: real, dots: int, mins: int)
    requires d == y * dw && dmin == -y * dmw
    ensures Times(d, dots) + Times(dmin, mins) == Value(dw, dmw, y, dots, mins)
  {
    var s, t := dots as real, mins as real;
    assert d * s == dw * y * s;
    assert dmin * t == -(dmw * y * t);
  }

  /** One weight row against several activation rows. */
  method Kernel4(half: Half, row: seq<seq<Byte>>, ys: seq<seq<Q8Block>>) returns (out: seq<real>)
    requires Row(Q4K, row) && Batch(ys, |row|)
    ensures |out| == |ys|
    ensures forall r | 0 <= r < |ys| ::
              out[r] == RealDot(Weights(Q4K, half, row), FlatCodes(ys[r]), FlatScales(ys[r]), 256 * |row|)
  {
    hide Weights, FlatCodes, FlatScales, Total, Dots4, Mins4, Across, FmaAll, RealDot, ScaleMin, Prod4, Upto4;
    var acc: seq<seq<real>> := seq(|ys|, r => [0.0, 0.0, 0.0, 0.0, 0.0, 0.0, 0.0, 0.0]);
    var accm: seq<seq<real>> := seq(|ys|, r => [0.0, 0.0, 0.0, 0.0]);
    forall r | 0 <= r < |ys|
      ensures Upto4(acc[r], accm[r], half, row, ys[r], 0)
    {
      Start4(half, row, ys[r]);
    }
    var i := 0;
    while i < |row|
      invariant i <= |row| && |acc| == |accm| == |ys|
      invariant forall r | 0 <= r < |ys| :: Upto4(acc[r], accm[r], half, row, ys[r], i)
    {
      var p := row[i];
      var dw, dmw := half(p[0], p[1]), half(p[2], p[3]);
      var scales, mins := ReadScales(p);
      var sumi := Sums4(p, scales, ys, |row|, i);
      acc, accm := Add4(half, row, ys, i, sumi, mins, dw, dmw, acc, accm);
      i := i + 1;
    }
    out := AcrossBoth(acc, accm, half, row, ys);
  }

  method Add4(half: Half, row: seq<seq<Byte>>, ys: seq<seq<Q8Block>>, i: nat, sumi: seq<seq<int>>, mins: seq<int>, dw: real, dmw: real,
              acc0: seq<seq<real>>, accm0: seq<seq<real>>)
    returns (acc: seq<seq<real>>, accm: seq<seq<real>>)
    requires Row(Q4K, row) && Batch(ys, |row|) && i < |row| && |sumi| == |acc0| == |accm0| == |ys|
    requires dw == half(row[i][0], row[i][1]) && dmw == half(row[i][2], row[i][3]) && |mins| == 8
    requires forall s | 0 <= s < 8 :: mins[s] == ScaleMin(row[i][4..16], s).1 as int && 0 <= mins[s] < 64
    requires forall r | 0 <= r < |ys| ::
               |ys[r][i].qs| == 256 && |sumi[r]| == 8 && Total(sumi[r]) == Dots4(row[i], ys[r][i].qs, 8)
    requires forall r | 0 <= r < |ys| :: Upto4(acc0[r], accm0[r], half, row, ys[r], i)
    ensures |acc| == |accm| == |ys| && forall r | 0 <= r < |ys| :: Upto4(acc[r], accm[r], half, row, ys[r], i + 1)
  {
    hide Weights, FlatCodes, FlatScales, Total, Across, FmaAll, ScaleMin, Prod4, Upto4;
    acc, accm := [], [];
    while |acc| < |ys|
      invariant |acc| == |accm| <= |ys| && forall r | 0 <= r < |acc| :: Upto4(acc[r], accm[r], half, row, ys[r], i + 1)
    {
      var r := |acc|;
      var y := ys[r][i];
      BatchBlock(ys, |row|, r, i);
      ProdTotal(row[i], mins, y);
      LanesSize4(acc0[r], accm0[r], half, row, ys[r], i);
      var prod := Prod4(mins, y.bsums);
      var d, dmin := y.d * dw, -y.d * dmw;
      Step4(acc0[r], accm0[r], half, row, ys[r], i, sumi[r], prod, d, dmin);
      acc, accm := acc + [FmaAll(acc0[r], d, sumi[r])], accm + [FmaAll(accm0[r], dmin, prod)];
    }
  }

  lemma {:induction false} LanesSize4(acc: seq<real>, accm: seq<real>, half: Half, row: seq<seq<Byte>>, y: seq<Q8Block>, i: nat)
    requires Row(Q4K, row) && i <= |row| && Upto4(acc, accm, half, row, y, i)
    ensures |acc| == 8 && |accm| == 4
  {
  }

  method AcrossBoth(acc: seq<seq<real>>, accm: seq<seq<real>>, ghost half: Half, ghost row: seq<seq<Byte>>, ghost ys: seq<seq<Q8Block>>)
    returns (out: seq<real>)
    requires Row(Q4K, row) && Batch(ys, |row|) && |acc| == |accm| == |ys|
    requires forall r | 0 <= r < |ys| :: Upto4(acc[r], accm[r], half, row, ys[r], |row|)
    ensures |out| == |ys|
    ensures forall r | 0 <= r < |ys| ::
              out[r] == RealDot(Weights(Q4K, half, row), FlatCodes(ys[r]), FlatScales(ys[r]), 256 * |row|)
  {
    hide Weights, FlatCodes, FlatScales, Across, RealDot;
    out := [];
    while |out| < |acc|
      invariant |out| <= |acc| && forall r | 0 <= r < |out| ::
                  out[r] == RealDot(Weights(Q4K, half, row), FlatCodes(ys[r]), FlatScales(ys[r]), 256 * |row|)
    {
      assert Upto4(acc[|out|], accm[|out|], half, row, ys[|out|], |row|);
      out := out + [Across(acc[|out|]) + Across(accm[|out|])];
    }
  }

  // ---- Q6_K ----------------------------------------------------------------------

  /** Scaled dots of the first `n` sub-blocks, codes as they are. */
  function Raw6(p: seq<Byte>, qs: seq<int>, n: nat): int
    requires |p| == 210 && |qs| == 256 && n <= 16
  {
    if n == 0 then 0
    else Raw6(p, qs, n - 1)
         + Int8(p[192 + (n - 1)]) * Inner(Codes(Q6K, p, 16 * (n - 1), 16), qs[16 * (n - 1)..16 * (n - 1) + 16])
  }

  /** Scaled sums of every 16 activations. */
  function Bias6(p: seq<Byte>, bsums: seq<int>, n: nat): int
    requires |p| == 210 && |bsums| == 16 && n <= 16
  {
    if n == 0 then 0 else Bias6(p, bsums, n - 1) + bsums[n - 1] * Int8(p[192 + (n - 1)])
  }

  /** Taking 32 times the scaled sums away is taking 32 off every code. */
  lemma {:induction false} Unbiased(p: seq<Byte>, y: Q8Block, n: nat)
    requires |p| == 210 && Q8Valid(y) && n <= 16
    ensures Dots6(p, y.qs, n) == Raw6(p, y.qs, n) - 32 * Bias6(p, y.bsums, n)
  {
    hide Inner, Total, Code, Int8;
    if n > 0 {
      Unbiased(p, y, n - 1);
      var g := n - 1;
      var s, dot := Int8(p[192 + g]), Inner(Codes(Q6K, p, 16 * g, 16), y.qs[16 * g..16 * g + 16]);
      assert y.bsums[g] == Total(y.qs[16 * g..16 * g + 16]);
      BiasAlgebra(s, dot, y.bsums[g]);
    }
  }

  lemma {:induction false} BiasAlgebra(s: int, dot: int, sum: int)
    ensures s * (dot - 32 * sum) == s * dot - 32 * (sum * s)
  {
  }

  function Scales6(p: seq<Byte>): (v: seq<int>)
    requires |p| == 210
    ensures |v| == 16 && forall g | 0 <= g < 16 :: v[g] == Int8(p[192 + g])
  {
    seq(16, g requires 0 <= g < 16 => Int8(p[192 + g]))
  }

  function ShiftLeft5(v: seq<int>): (w: seq<int>)
    ensures |w| == |v|
  {
    seq(|v|, i requires 0 <= i < |v| => Wrap32(v[i] * 32))
  }

  /** The folded offset of one activation block, eight lanes. */
  function Sub6(p: seq<Byte>, bsums: seq<int>): (v: seq<int>)
    requires |p| == 210 && |bsums| == 16
    ensures |v| == 8
  {
    ShiftLeft5(Madd(bsums, Scales6(p)))
  }

  lemma {:induction false} SubLane(p: seq<Byte>, y: Q8Block, t: nat)
    requires |p| == 210 && Q8Valid(y) && t < 8
    ensures Sub6(p, y.bsums)[t] == 32 * (y.bsums[2 * t] * Int8(p[192 + 2 * t]) + y.bsums[2 * t + 1] * Int8(p[192 + (2 * t + 1)]))
    ensures -64 * LANE <= Sub6(p, y.bsums)[t] <= 64 * LANE
  {
    hide Total, Sum, Int8;
    var a, b := 2 * t, 2 * t + 1;
    assert y.bsums[a] == Total(y.qs[16 * a..16 * a + 16]) && y.bsums[b] == Total(y.qs[16 * b..16 * b + 16]);
    TotalBound(y.qs[16 * a..16 * a + 16]);
    TotalBound(y.qs[16 * b..16 * b + 16]);
    ScaleBound(y.bsums[a], Int8(p[192 + a]));
    ScaleBound(y.bsums[b], Int8(p[192 + b]));
  }

  lemma {:induction false} TotalBound(x: seq<int>)
    requires Codes8(x)
    ensures -127 * |x| <= Total(x) <= 127 * |x|
  {
    SumBound(x, |x|);
  }

  lemma {:induction false} SubSum(p: seq<Byte>, y: Q8Block, n: nat)
    requires |p| == 210 && Q8Valid(y) && n <= 8
    ensures Sum(Sub6(p, y.bsums), n) == 32 * Bias6(p, y.bsums, 2 * n)
  {
    hide Sub6, Int8;
    if n > 0 {
      SubSum(p, y, n - 1);
      SubLane(p, y, n - 1);
      var g := 2 * (n - 1);
      assert Bias6(p, y.bsums, g + 1) == Bias6(p, y.bsums, g) + y.bsums[g] * Int8(p[192 + g]);
      assert Bias6(p, y.bsums, g + 2) == Bias6(p, y.bsums, g + 1) + y.bsums[g + 1] * Int8(p[192 + (g + 1)]);
    }
  }

  lemma {:induction false} SubTotal6(p: seq<Byte>, y: Q8Block)
    requires |p| == 210 && Q8Valid(y)
    ensures Total(Sub6(p, y.bsums)) == 32 * Bias6(p, y.bsums, 16) && Within(Sub6(p, y.bsums), 64 * LANE)
  {
    hide Sub6, Int8;
    SubSum(p, y, |Sub6(p, y.bsums)|);
    forall t | 0 <= t < 8
      ensures -64 * LANE <= Sub6(p, y.bsums)[t] <= 64 * LANE
    {
      SubLane(p, y, t);
    }
  }

  /** Row `k` of the shuffle table: byte 2k for the first eight lanes, byte 2k + 1 for the others. */
  function Pair6(p: seq<Byte>, k: nat): (v: seq<int>)
    requires |p| == 210 && k < 8
    ensures |v| == 16
  {
    Scales16(Int8(p[192 + 2 * k]), Int8(p[192 + (2 * k + 1)]))
  }

  /** One quarter of a chunk: two scaled sub-blocks. */
  method Dot6(p: seq<Byte>, k: nat, c: seq<int>, q8: seq<int>) returns (v: seq<int>)
    requires |p| == 210 && k < 8 && |q8| == 256 && Codes8(q8) && c == Codes(Q6K, p, 32 * k, 32)
    ensures |v| == 8 && Within(v, LANE) && Total(v) == Raw6(p, q8, 2 * k + 2) - Raw6(p, q8, 2 * k)
  {
    hide Madd, Maddubs, Within, Inner, Total, Code, Int8;
    var x, g := q8[32 * k..32 * k + 32], 2 * k;
    v := Madd(Pair6(p, k), Maddubs(c, x));
    ScaledVector(Int8(p[192 + g]), Int8(p[192 + (g + 1)]), c, x);
    assert c[..16] == Codes(Q6K, p, 16 * g, 16) && c[16..] == Codes(Q6K, p, 16 * (g + 1), 16);
    assert x[..16] == q8[16 * g..16 * g + 16] && x[16..] == q8[16 * (g + 1)..16 * (g + 1) + 16];
    assert Raw6(p, q8, g + 2) == Raw6(p, q8, g + 1) + Int8(p[192 + (g + 1)]) * Inner(c[16..], x[16..]);
    assert Raw6(p, q8, g + 1) == Raw6(p, q8, g) + Int8(p[192 + g]) * Inner(c[..16], x[..16]);
  }

  /** The lanes hold the first `j` chunks of block `i`. */
  ghost predicate Chunks6(v: seq<int>, p: seq<Byte>, y: seq<Q8Block>, nb: nat, i: nat, j: nat)
    requires |p| == 210 && j <= 2
  {
    && |y| == nb && i < nb && |y[i].qs| == 256 && Codes8(y[i].qs)
    && |v| == 8 && Within(v, 4 * j * LANE) && Total(v) == Raw6(p, y[i].qs, 8 * j)
  }

  lemma {:induction false} NoChunks6(p: seq<Byte>, y: seq<Q8Block>, nb: nat, i: nat)
    requires |p| == 210 && |y| == nb && i < nb && |y[i].qs| == 256 && Codes8(y[i].qs)
    ensures Chunks6([0, 0, 0, 0, 0, 0, 0, 0], p, y, nb, i, 0)
  {
    ZeroTotal([0, 0, 0, 0, 0, 0, 0, 0], 8);
  }

  method AddChunk6(p: seq<Byte>, q: seq<seq<int>>, y: seq<Q8Block>, nb: nat, i: nat, j: nat, was: seq<int>) returns (v: seq<int>)
    requires |p| == 210 && j < 2 && Chunks6(was, p, y, nb, i, j)
    requires |q| == 4 && forall quarter: nat | quarter < 4 :: q[quarter] == Codes(Q6K, p, 32 * (4 * j + quarter), 32)
    ensures Chunks6(v, p, y, nb, i, j + 1)
  {
    hide Inner, Total, Code, Raw6, Within, Add32;
    var qs := y[i].qs;
    var p0 := Dot6(p, 4 * j, q[0], qs);
    var p1 := Dot6(p, 4 * j + 1, q[1], qs);
    var p2 := Dot6(p, 4 * j + 2, q[2], qs);
    var p3 := Dot6(p, 4 * j + 3, q[3], qs);
    AddTotal(p0, p1, LANE, LANE);
    AddTotal(p2, p3, LANE, LANE);
    AddTotal(was, Add32(p0, p1), 4 * j * LANE, 2 * LANE);
    v := Add32(was, Add32(p0, p1));
    AddTotal(v, Add32(p2, p3), 4 * j * LANE + 2 * LANE, 2 * LANE);
    v := Add32(v, Add32(p2, p3));
  }

  /** The scaled dots of block `i` with every row, the weight block unpacked once. */
  method Sums6(p: seq<Byte>, ys: seq<seq<Q8Block>>, nb: nat, i: nat) returns (sumi: seq<seq<int>>)
    requires |p| == 210 && Batch(ys, nb) && i < nb
    ensures |sumi| == |ys| && forall r | 0 <= r < |ys| :: Chunks6(sumi[r], p, ys[r], nb, i, 2)
  {
    hide Code, QuarterVec, Chunks6;
    sumi := seq(|ys|, r => [0, 0, 0, 0, 0, 0, 0, 0]);
    forall r | 0 <= r < |ys|
      ensures Chunks6(sumi[r], p, ys[r], nb, i, 0)
    {
      BatchBlock(ys, nb, r, i);
      NoChunks6(p, ys[r], nb, i);
    }
    var j := 0;
    while j < 2
      invariant j <= 2 && |sumi| == |ys| && forall r | 0 <= r < |ys| :: Chunks6(sumi[r], p, ys[r], nb, i, j)
    {
      var bits1, bits2, h := p[64 * j..64 * j + 32], p[64 * j + 32..64 * j + 64], p[128 + 32 * j..160 + 32 * j];
      var q := [Ints(QuarterVec(bits1, h, 0)), Ints(QuarterVec(bits2, h, 1)), Ints(QuarterVec(bits1, h, 2)), Ints(QuarterVec(bits2, h, 3))];
      Unpacked6(p, j, 0, bits1, h);
      Unpacked6(p, j, 1, bits2, h);
      Unpacked6(p, j, 2, bits1, h);
      Unpacked6(p, j, 3, bits2, h);
      var r := 0;
      while r < |ys|
        invariant r <= |ys| && |sumi| == |ys|
        invariant forall t | 0 <= t < |ys| :: Chunks6(sumi[t], p, ys[t], nb, i, if t < r then j + 1 else j)
      {
        var s := AddChunk6(p, q, ys[r], nb, i, j, sumi[r]);
        sumi := sumi[r := s];
        r := r + 1;
      }
      j := j + 1;
    }
  }

  /** The lanes less the folded offset: the reference's integer. */
  lemma {:induction false} Finish6(p: seq<Byte>, y: seq<Q8Block>, nb: nat, i: nat, sumi: seq<int>)
    requires |p| == 210 && Chunks6(sumi, p, y, nb, i, 2) && Q8Valid(y[i])
    ensures Total(Sub32(sumi, Sub6(p, y[i].bsums))) == Dots6(p, y[i].qs, 16)
  {
    hide Sub6, Sub32, Total, Within, Inner, Int8;
    SubTotal6(p, y[i]);
    SubTotal(sumi, Sub6(p, y[i].bsums), 8 * LANE, 64 * LANE);
    Unbiased(p, y[i], 16);
  }

  /** Row `r`'s float lanes add up to the row dot so far. */
  ghost predicate Upto6(acc: seq<real>, half: Half, row: seq<seq<Byte>>, y: seq<Q8Block>, i: nat)
    requires Row(Q6K, row) && i <= |row|
  {
    && Q8Row(y) && |y| == |row| && |acc| == 8
    && Across(acc) == RealDot(Weights(Q6K, half, row), FlatCodes(y), FlatScales(y), 256 * i)
  }

  lemma {:induction false} Start6(half: Half, row: seq<seq<Byte>>, y: seq<Q8Block>)
    requires Row(Q6K, row) && Q8Row(y) && |y| == |row|
    ensures Upto6([0.0, 0.0, 0.0, 0.0, 0.0, 0.0, 0.0, 0.0], half, row, y, 0)
  {
    hide RSum;
    var a := [0.0, 0.0, 0.0, 0.0, 0.0, 0.0, 0.0, 0.0];
    ZeroSum(a, |a|);
  }

  lemma {:induction false} Step6(acc: seq<real>, half: Half, row: seq<seq<Byte>>, y: seq<Q8Block>, i: nat, s: seq<int>, d: real)
    requires Row(Q6K, row) && i < |row| && Upto6(acc, half, row, y, i) && |s| == 8 && |y[i].qs| == 256
    requires Total(s) == Dots6(row[i], y[i].qs, 16) && d == y[i].d * half(row[i][208], row[i][209])
    ensures Upto6(FmaAll(acc, d, s), half, row, y, i + 1)
  {
    hide Weights, FlatCodes, FlatScales, Total, Across, FmaAll;
    Prefix6(half, row, y, i, 16);
    FmaAcross(acc, d, s);
  }

  /** One weight row against several activation rows. */
  method Kernel6(half: Half, row: seq<seq<Byte>>, ys: seq<seq<Q8Block>>) returns (out: seq<real>)
    requires Row(Q6K, row) && Batch(ys, |row|)
    ensures |out| == |ys|
    ensures forall r | 0 <= r < |ys| ::
              out[r] == RealDot(Weights(Q6K, half, row), FlatCodes(ys[r]), FlatScales(ys[r]), 256 * |row|)
  {
    hide Weights, FlatCodes, FlatScales, Across, FmaAll, RealDot, Upto6, Chunks6;
    var acc: seq<seq<real>> := seq(|ys|, r => [0.0, 0.0, 0.0, 0.0, 0.0, 0.0, 0.0, 0.0]);
    forall r | 0 <= r < |ys|
      ensures Upto6(acc[r], half, row, ys[r], 0)
    {
      Start6(half, row, ys[r]);
    }
    var i := 0;
    while i < |row|
      invariant i <= |row| && |acc| == |ys|
      invariant forall r | 0 <= r < |ys| :: Upto6(acc[r], half, row, ys[r], i)
    {
      var sumi := Sums6(row[i], ys, |row|, i);
      acc := Add6(half, row, ys, i, sumi, half(row[i][208], row[i][209]), acc);
      i := i + 1;
    }
    out := [];
    while |out| < |acc|
      invariant |out| <= |acc| && forall r | 0 <= r < |out| ::
                  out[r] == RealDot(Weights(Q6K, half, row), FlatCodes(ys[r]), FlatScales(ys[r]), 256 * |row|)
    {
      Done6(acc[|out|], half, row, ys[|out|]);
      out := out + [Across(acc[|out|])];
    }
  }

  lemma {:induction false} Done6(acc: seq<real>, half: Half, row: seq<seq<Byte>>, y: seq<Q8Block>)
    requires Row(Q6K, row) && Upto6(acc, half, row, y, |row|)
    ensures Q8Row(y) && |y| == |row|
    ensures Across(acc) == RealDot(Weights(Q6K, half, row), FlatCodes(y), FlatScales(y), 256 * |row|)
  {
  }

  method Add6(half: Half, row: seq<seq<Byte>>, ys: seq<seq<Q8Block>>, i: nat, sumi: seq<seq<int>>, dw: real, acc0: seq<seq<real>>)
    returns (acc: seq<seq<real>>)
    requires Row(Q6K, row) && Batch(ys, |row|) && i < |row| && |sumi| == |acc0| == |ys|
    requires dw == half(row[i][208], row[i][209])
    requires forall r | 0 <= r < |ys| :: Chunks6(sumi[r], row[i], ys[r], |row|, i, 2)
    requires forall r | 0 <= r < |ys| :: Upto6(acc0[r], half, row, ys[r], i)
    ensures |acc| == |ys| && forall r | 0 <= r < |ys| :: Upto6(acc[r], half, row, ys[r], i + 1)
  {
    hide Total, Dots6, FmaAll, Sub6, Sub32, Upto6;
    acc := [];
    while |acc| < |ys|
      invariant |acc| <= |ys| && forall r | 0 <= r < |acc| :: Upto6(acc[r], half, row, ys[r], i + 1)
    {
      var r := |acc|;
      var y := ys[r][i];
      BatchBlock(ys, |row|, r, i);
      Finish6(row[i], ys[r], |row|, i, sumi[r]);
      LanesSize6(acc0[r], half, row, ys[r], i);
      var d, s := y.d * dw, Sub32(sumi[r], Sub6(row[i], y.bsums));
      Step6(acc0[r], half, row, ys[r], i, s, d);
      acc := acc + [FmaAll(acc0[r], d, s)];
    }
  }

  lemma {:induction false} LanesSize6(acc: seq<real>, half: Half, row: seq<seq<Byte>>, y: seq<Q8Block>, i: nat)
    requires Row(Q6K, row) && i <= |row| && Upto6(acc, half, row, y, i)
    ensures |acc| == 8
  {
  }

  // ---- a batch -------------------------------------------------------------------

  const NR := 4
  const Q8_BLOCK_BYTES := 292
  const TILE_BYTES := 256 * 1024

  /** The dot product of weight row `o` with activation row `r`. */
  ghost function Entry(f: Format, half: Half, w: seq<seq<seq<Byte>>>, xq: seq<seq<Q8Block>>, nb: nat, r: nat, o: nat): real
    requires r < |xq| && o < |w| && Batch(xq, nb) && |w[o]| == nb && Row(f, w[o])
  {
    BatchRow(xq, nb, r);
    RealDot(Weights(f, half, w[o]), FlatCodes(xq[r]), FlatScales(xq[r]), 256 * nb)
  }

  lemma {:induction false} BatchRow(xq: seq<seq<Q8Block>>, nb: nat, r: nat)
    requires Batch(xq, nb) && r < |xq|
    ensures |xq[r]| == nb && Q8Row(xq[r])
  {
  }

  ghost predicate Matrix(f: Format, w: seq<seq<seq<Byte>>>, nb: nat) {
    forall o | 0 <= o < |w| :: |w[o]| == nb && Row(f, w[o])
  }

  method Kernel(f: Format, half: Half, row: seq<seq<Byte>>, ys: seq<seq<Q8Block>>) returns (out: seq<real>)
    requires Row(f, row) && Batch(ys, |row|)
    ensures |out| == |ys|
    ensures forall r | 0 <= r < |ys| ::
              out[r] == RealDot(Weights(f, half, row), FlatCodes(ys[r]), FlatScales(ys[r]), 256 * |row|)
  {
    if f.Q4K? {
      out := Kernel4(half, row, ys);
    } else {
      out := Kernel6(half, row, ys);
    }
  }

  /** The kernel on rows r .. r + n - 1 of the batch, its results stored in column `o`. */
  method StoreColumn(f: Format, half: Half, Y: array2<real>, w: seq<seq<seq<Byte>>>, xq: seq<seq<Q8Block>>, nb: nat, o: nat, r: nat, n: nat)
    requires Matrix(f, w, nb) && Batch(xq, nb) && Y.Length0 == |xq| && Y.Length1 == |w| && o < |w| && r + n <= |xq|
    modifies Y
    ensures forall i: nat, c: nat | i < |xq| && c < |w| ::
              Y[i, c] == if c == o && r <= i < r + n then Entry(f, half, w, xq, nb, i, o) else old(Y[i, c])
  {
    hide Entry;
    var ys := xq[r..r + n];
    var out := Kernel(f, half, w[o], ys);
    forall i: nat | r <= i < r + n
      ensures out[i - r] == Entry(f, half, w, xq, nb, i, o)
    {
      EntryIs(f, half, w, xq, nb, i, o);
      assert ys[i - r] == xq[i];
    }
    var k := 0;
    while k < n
      invariant k <= n
      invariant forall i: nat, c: nat | i < |xq| && c < |w| :: Y[i, c] == if c == o && r <= i < r + k then out[i - r] else old(Y[i, c])
    {
      Y[r + k, o] := out[k];
      k := k + 1;
    }
  }

  lemma {:induction false} EntryIs(f: Format, half: Half, w: seq<seq<seq<Byte>>>, xq: seq<seq<Q8Block>>, nb: nat, r: nat, o: nat)
    requires r < |xq| && o < |w| && Batch(xq, nb) && |w[o]| == nb && Row(f, w[o])
    ensures |xq[r]| == nb && Q8Row(xq[r])
    ensures Entry(f, half, w, xq, nb, r, o) == RealDot(Weights(f, half, w[o]), FlatCodes(xq[r]), FlatScales(xq[r]), 256 * nb)
  {
  }

  /** Rows before r0 are written, and rows r0 .. r1 - 1 of the columns before `o`. */
  ghost predicate Tiled(f: Format, half: Half, Y: array2<real>, w: seq<seq<seq<Byte>>>, xq: seq<seq<Q8Block>>, nb: nat, r0: nat, r1: nat, o: nat)
    requires Matrix(f, w, nb) && Batch(xq, nb) && Y.Length0 == |xq| && Y.Length1 == |w|
    reads Y
  {
    forall i: nat, c: nat | i < |xq| && c < |w| && (i < r0 || (i < r1 && c < o)) :: Y[i, c] == Entry(f, half, w, xq, nb, i, c)
  }

  /** One column of a tile: NR rows at a time, then one at a time. */
  method TileColumn(f: Format, half: Half, Y: array2<real>, w: seq<seq<seq<Byte>>>, xq: seq<seq<Q8Block>>, nb: nat, r0: nat, r1: nat, o: nat)
    requires Matrix(f, w, nb) && Batch(xq, nb) && Y.Length0 == |xq| && Y.Length1 == |w| && r0 <= r1 <= |xq| && o < |w|
    requires Tiled(f, half, Y, w, xq, nb, r0, r1, o)
    modifies Y
    ensures Tiled(f, half, Y, w, xq, nb, r0, r1, o + 1)
  {
    hide Entry;
    var r := r0;
    while r + NR <= r1
      invariant r0 <= r <= r1 && Tiled(f, half, Y, w, xq, nb, r0, r1, o) && Tiled(f, half, Y, w, xq, nb, r0, r, o + 1)
    {
      StoreColumn(f, half, Y, w, xq, nb, o, r, NR);
      r := r + NR;
    }
    while r < r1
      invariant r0 <= r <= r1 && Tiled(f, half, Y, w, xq, nb, r0, r1, o) && Tiled(f, half, Y, w, xq, nb, r0, r, o + 1)
    {
      StoreColumn(f, half, Y, w, xq, nb, o, r, 1);
      r := r + 1;
    }
  }

  /** Every activation row against every weight row, in tiles of activation rows. */
  method MatmulBatch(f: Format, half: Half, Y: array2<real>, w: seq<seq<seq<Byte>>>, xq: seq<seq<Q8Block>>, nb: nat)
    requires Matrix(f, w, nb) && Batch(xq, nb) && nb > 0 && Y.Length0 == |xq| && Y.Length1 == |w|
    modifies Y
    ensures forall r: nat, o: nat | r < |xq| && o < |w| :: Y[r, o] == Entry(f, half, w, xq, nb, r, o)
  {
    hide Entry;
    var m := |xq|;
    var fit := TILE_BYTES / (nb * Q8_BLOCK_BYTES);
    var mt := if fit < NR then NR else fit / NR * NR;
    var r0 := 0;
    while r0 < m
      invariant r0 <= m && Tiled(f, half, Y, w, xq, nb, r0, r0, 0)
    {
      var r1 := if r0 + mt < m then r0 + mt else m;
      var o := 0;
      while o < |w|
        invariant o <= |w| && Tiled(f, half, Y, w, xq, nb, r0, r1, o)
      {
        TileColumn(f, half, Y, w, xq, nb, r0, r1, o);
        o := o + 1;
      }
      r0 := r1;
    }
  }
}
