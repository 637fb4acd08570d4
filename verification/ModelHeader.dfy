/** The headers an .llmw reader accepts: exactly those that are spelled as the format says. */
module HeaderSpelling {
  import opened ModelFormat
  import opened ModelReading

  // ---- spellings -----------------------------------------------------------------

  /** `n` stands at `p` as `w` little-endian bytes. */
  predicate LeIs(h: seq<Byte>, p: nat, w: nat, n: nat) {
    n < Pow256(w) && At(h, p, Le(n, w))
  }

  predicate StrIs(h: seq<Byte>, p: nat, s: Text) {
    LeIs(h, p, 4, |s|) && At(h, p + 4, s)
  }

  /** A signed number of eight bytes. */
  predicate IntIs(h: seq<Byte>, p: nat, i: int) {
    -I63 <= i < I63 && LeIs(h, p, 8, ToWord(i, U64))
  }

  /** A value's kind, 0 or 1 or anything else, and then the value. */
  predicate ValueIs(h: seq<Byte>, p: nat, v: MetaValue) {
    match v
    case Int(i) => LeIs(h, p, 1, 0) && IntIs(h, p + 1, i)
    case Float(bits) => LeIs(h, p, 1, 1) && LeIs(h, p + 1, 8, bits)
    case Str(s) => p < |h| && h[p] >= 2 && StrIs(h, p + 1, s)
  }

  function ValueSize(v: MetaValue): nat {
    if v.Str? then 5 + |v.s| else 9
  }

  predicate EntryIs(h: seq<Byte>, p: nat, e: Entry) {
    StrIs(h, p, e.key) && ValueIs(h, p + 4 + |e.key|, e.value)
  }

  function EntrySize(e: Entry): nat {
    4 + |e.key| + ValueSize(e.value)
  }

  /** The entries from `p` to `q`, one behind the other. */
  predicate EntriesAre(h: seq<Byte>, p: nat, es: seq<Entry>, q: nat)
    decreases |es|
  {
    if es == [] then p == q else EntryIs(h, p, es[0]) && EntriesAre(h, p + EntrySize(es[0]), es[1..], q)
  }

  predicate DimsAre(h: seq<Byte>, p: nat, shape: seq<int>) {
    forall d | 0 <= d < |shape| :: IntIs(h, p + 8 * d, shape[d])
  }

  /** Name, type, dimensions, offset and size, with data inside the file as far as 64-bit sums tell. */
  predicate RecordIs(h: seq<Byte>, p: nat, size: nat, t: TensorInfo) {
    var p1 := p + 4 + |t.name|;
    && StrIs(h, p, t.name) && -0x8000_0000 <= t.dtype < 0x8000_0000 && LeIs(h, p1, 4, ToWord(t.dtype, U32))
    && LeIs(h, p1 + 4, 4, |t.shape|) && DimsAre(h, p1 + 8, t.shape)
    && LeIs(h, p1 + 8 + 8 * |t.shape|, 8, t.offset) && LeIs(h, p1 + 16 + 8 * |t.shape|, 8, t.nbytes)
    && (Inside(t, size) || Wraps(t, size))
  }

  function RecordSize(t: TensorInfo): nat {
    28 + |t.name| + 8 * |t.shape|
  }

  predicate RecordsAre(h: seq<Byte>, p: nat, size: nat, ts: seq<TensorInfo>, q: nat)
    decreases |ts|
  {
    if ts == [] then p == q else RecordIs(h, p, size, ts[0]) && RecordsAre(h, p + RecordSize(ts[0]), size, ts[1..], q)
  }

  /** Magic, version, two counts, the entries and the directory. */
  ghost predicate HeaderIs(h: seq<Byte>, size: nat, es: seq<Entry>, ts: seq<TensorInfo>) {
    && LeIs(h, 0, 4, MAGIC) && LeIs(h, 4, 4, VERSION) && LeIs(h, 8, 4, |es|) && LeIs(h, 12, 4, |ts|)
    && exists mid: nat, end: nat :: EntriesAre(h, 16, es, mid) && RecordsAre(h, mid, size, ts, end)
  }

  // ---- reads and spellings -------------------------------------------------------

  lemma {:induction false} LeBack(b: seq<Byte>)
    ensures Le(FromLe(b), |b|) == b
  {
    if b != [] {
      LeBack(b[1..]);
      LowByte(b[0], FromLe(b[1..]));
      assert b == [b[0]] + b[1..];
    }
  }

  lemma {:induction false} LowByte(b: Byte, x: nat)
    ensures (b + 256 * x) % 256 == b && (b + 256 * x) / 256 == x
  {
  }

  lemma {:induction false} LeIff(h: seq<Byte>, p: nat, w: nat, n: nat, q: nat)
    ensures GetLe(h, p, w) == Ok((n, q)) <==> q == p + w && LeIs(h, p, w, n)
  {
    if p + w <= |h| {
      var b := h[p..p + w];
      LeBack(b);
      FromLeBound(b);
      if n < Pow256(w) {
        LeRoundTrip(n, w);
      }
    }
  }

  lemma {:induction false} StrIff(h: seq<Byte>, p: nat, s: Text, q: nat)
    ensures GetStr(h, p) == Ok((s, q)) <==> q == p + 4 + |s| && StrIs(h, p, s)
  {
    hide Le, FromLe, Pow256;
    LeIff(h, p, 4, |s|, p + 4);
    if GetLe(h, p, 4).Ok? {
      var r := GetLe(h, p, 4).value;
      LeIff(h, p, 4, r.0, r.1);
    }
  }

  /** Words and signed numbers. */
  lemma {:induction false} WordIff(n: nat, m: nat, i: int)
    requires (m == U32 || m == U64) && n < m
    ensures FromWord(n, m) == i <==> -(m / 2) <= i < m / 2 && n == ToWord(i, m)
  {
    if -(m / 2) <= i < m / 2 {
      WordRoundTrip(i, m);
    }
    WordRoundTrip(FromWord(n, m), m);
  }

  /** A read of `w` bytes yields some number or runs out. */
  lemma {:induction false} LeReads(h: seq<Byte>, p: nat, w: nat)
    ensures GetLe(h, p, w).Ok? ==> LeIs(h, p, w, GetLe(h, p, w).value.0) && GetLe(h, p, w).value.1 == p + w
  {
    if GetLe(h, p, w).Ok? {
      LeIff(h, p, w, GetLe(h, p, w).value.0, GetLe(h, p, w).value.1);
    }
  }

  lemma {:induction false} StrReads(h: seq<Byte>, p: nat)
    ensures GetStr(h, p).Ok? ==> StrIs(h, p, GetStr(h, p).value.0) && GetStr(h, p).value.1 == p + 4 + |GetStr(h, p).value.0|
  {
    if GetStr(h, p).Ok? {
      StrIff(h, p, GetStr(h, p).value.0, GetStr(h, p).value.1);
    }
  }

  lemma {:induction false} ByteIff(h: seq<Byte>, p: nat)
    ensures if p < |h| then GetLe(h, p, 1) == Ok((h[p] as nat, p + 1)) else GetLe(h, p, 1).Err?
  {
    if p < |h| {
      var b := h[p..p + 1];
      assert b == [h[p]] && b[1..] == [];
      assert FromLe(b) == h[p] + 256 * FromLe([]);
    }
  }

  lemma {:induction false} SmallIs(h: seq<Byte>, p: nat, n: Byte)
    ensures LeIs(h, p, 1, n) <==> p < |h| && h[p] == n
  {
    LeIff(h, p, 1, n, p + 1);
    ByteIff(h, p);
  }

  lemma {:induction false} IntIff(h: seq<Byte>, p: nat, i: int, q: nat)
    ensures (GetLe(h, p, 8).Ok? && FromWord(GetLe(h, p, 8).value.0, U64) == i && GetLe(h, p, 8).value.1 == q) <==> q == p + 8 && IntIs(h, p, i)
  {
    hide GetLe, FromWord;
    Widths();
    LeReads(h, p, 8);
    LeIff(h, p, 8, ToWord(i, U64), p + 8);
    if GetLe(h, p, 8).Ok? {
      WordIff(GetLe(h, p, 8).value.0, U64, i);
    }
    if IntIs(h, p, i) {
      WordIff(ToWord(i, U64), U64, i);
    }
  }

  lemma {:induction false} ValueIff(h: seq<Byte>, p: nat, v: MetaValue, q: nat)
    ensures GetValue(h, p) == Ok((v, q)) <==> q == p + ValueSize(v) && ValueIs(h, p, v)
  {
    hide GetStr, Le, FromLe, IntIs, StrIs, FromWord;
    ByteIff(h, p);
    SmallIs(h, p, 0);
    SmallIs(h, p, 1);
    LeReads(h, p + 1, 8);
    StrReads(h, p + 1);
    match v
    case Int(i) => IntIff(h, p + 1, i, q);
    case Float(bits) => LeIff(h, p + 1, 8, bits, q);
    case Str(s) => StrIff(h, p + 1, s, q);
  }

  lemma {:induction false} EntryIff(h: seq<Byte>, p: nat, e: Entry, q: nat)
    ensures GetEntry(h, p) == Ok((e, q)) <==> q == p + EntrySize(e) && EntryIs(h, p, e)
  {
    hide GetStr, GetValue, StrIs, ValueIs, ValueSize;
    StrIff(h, p, e.key, p + 4 + |e.key|);
    StrReads(h, p);
    ValueIff(h, p + 4 + |e.key|, e.value, q);
  }

  /** `all` is what was read before, `acc`, and then the entries from `p` to `q`. */
  lemma {:induction false} EntriesIff(h: seq<Byte>, p: nat, n: nat, acc: seq<Entry>, all: seq<Entry>, q: nat)
    ensures GetEntries(h, p, n, acc) == Ok((all, q)) <==> |all| == |acc| + n && all[..|acc|] == acc && EntriesAre(h, p, all[|acc|..], q)
    decreases n
  {
    hide GetEntry, EntryIs, EntrySize;
    var k := |acc|;
    if n == 0 {
      assert |all| == k ==> all[..k] == all && all[k..] == [];
      assert all == acc ==> all[..k] == acc;
    } else {
      if k < |all| {
        EntryIff(h, p, all[k], p + EntrySize(all[k]));
        assert all[k..][0] == all[k] && all[k..][1..] == all[k + 1..] && all[..k + 1] == all[..k] + [all[k]];
      }
      if GetEntry(h, p).Ok? {
        var e, r := GetEntry(h, p).value.0, GetEntry(h, p).value.1;
        EntryIff(h, p, e, r);
        EntriesIff(h, r, n - 1, acc + [e], all, q);
      }
    }
  }

  lemma {:induction false} DimsFirst(h: seq<Byte>, p: nat, shape: seq<int>)
    requires shape != []
    ensures DimsAre(h, p, shape) <==> IntIs(h, p, shape[0]) && DimsAre(h, p + 8, shape[1..])
  {
    hide IntIs;
    if DimsAre(h, p, shape) {
      assert IntIs(h, p + 8 * 0, shape[0]);
      forall d | 0 <= d < |shape[1..]|
        ensures IntIs(h, p + 8 + 8 * d, shape[1..][d])
      {
        assert IntIs(h, p + 8 * (d + 1), shape[d + 1]);
      }
    }
    if IntIs(h, p, shape[0]) && DimsAre(h, p + 8, shape[1..]) {
      forall d | 0 <= d < |shape|
        ensures IntIs(h, p + 8 * d, shape[d])
      {
        assert d > 0 ==> IntIs(h, p + 8 + 8 * (d - 1), shape[1..][d - 1]);
      }
    }
  }

  lemma {:induction false} DimsIff(h: seq<Byte>, p: nat, n: nat, acc: seq<int>, all: seq<int>, q: nat)
    ensures GetDims(h, p, n, acc) == Ok((all, q)) <==> |all| == |acc| + n && all[..|acc|] == acc && q == p + 8 * n && DimsAre(h, p, all[|acc|..])
    decreases n
  {
    hide GetLe, FromWord, IntIs, DimsAre;
    var k := |acc|;
    if n == 0 {
      assert |all| == k ==> all[..k] == all && all[k..] == [];
      assert all == acc ==> all[..k] == acc;
      NoDims(h, p);
    } else {
      if k < |all| {
        DimsFirst(h, p, all[k..]);
        IntIff(h, p, all[k], p + 8);
        assert all[k..][0] == all[k] && all[k..][1..] == all[k + 1..] && all[..k + 1] == all[..k] + [all[k]];
      }
      if GetLe(h, p, 8).Ok? {
        var d := FromWord(GetLe(h, p, 8).value.0, U64);
        LeReads(h, p, 8);
        IntIff(h, p, d, p + 8);
        DimsIff(h, p + 8, n - 1, acc + [d], all, q);
      }
    }
  }

  lemma {:induction false} NoDims(h: seq<Byte>, p: nat)
    ensures DimsAre(h, p, [])
  {
  }

  lemma {:induction false} ExtentReads(h: seq<Byte>, p: nat, size: nat, name: Text, dtype: int, shape: seq<int>, t: TensorInfo, q: nat)
    requires size < U64
    ensures GetExtent(h, p, size, name, dtype, shape) == Ok((t, q)) <==>
            && t.name == name && t.dtype == dtype && t.shape == shape && q == p + 16
            && LeIs(h, p, 8, t.offset) && LeIs(h, p + 8, 8, t.nbytes) && (Inside(t, size) || Wraps(t, size))
  {
    hide GetLe, LeIs;
    LeReads(h, p, 8);
    LeReads(h, p + 8, 8);
    LeIff(h, p, 8, t.offset, p + 8);
    LeIff(h, p + 8, 8, t.nbytes, p + 16);
    if GetLe(h, p, 8).Ok? && GetLe(h, p + 8, 8).Ok? {
      var a, b := GetLe(h, p, 8).value.0, GetLe(h, p + 8, 8).value.0;
      LeBound(h, p, a);
      LeBound(h, p + 8, b);
      assert (a + b) % U64 == if a + b < U64 then a + b else a + b - U64;
    }
  }

  lemma {:induction false} LeBound(h: seq<Byte>, p: nat, n: nat)
    requires LeIs(h, p, 8, n)
    ensures n < U64
  {
    Widths();
  }

  lemma {:induction false} TypeIff(h: seq<Byte>, p: nat, i: int)
    ensures (GetLe(h, p, 4).Ok? && FromWord(GetLe(h, p, 4).value.0, U32) == i) <==>
            -0x8000_0000 <= i < 0x8000_0000 && LeIs(h, p, 4, ToWord(i, U32))
  {
    hide GetLe, FromWord;
    Widths();
    LeReads(h, p, 4);
    LeIff(h, p, 4, ToWord(i, U32), p + 4);
    if GetLe(h, p, 4).Ok? {
      WordIff(GetLe(h, p, 4).value.0, U32, i);
    }
    if -0x8000_0000 <= i < 0x8000_0000 {
      WordIff(ToWord(i, U32), U32, i);
    }
  }

  lemma {:induction false} DimsRead(h: seq<Byte>, p: nat, n: nat)
    ensures GetDims(h, p, n, []).Ok? ==> |GetDims(h, p, n, []).value.0| == n && GetDims(h, p, n, []).value.1 == p + 8 * n
  {
    hide GetDims, DimsAre;
    if GetDims(h, p, n, []).Ok? {
      DimsIff(h, p, n, [], GetDims(h, p, n, []).value.0, GetDims(h, p, n, []).value.1);
    }
  }

  lemma {:induction false} RecordIff(h: seq<Byte>, p: nat, size: nat, t: TensorInfo, q: nat)
    requires size < U64
    ensures GetRecord(h, p, size) == Ok((t, q)) <==> q == p + RecordSize(t) && RecordIs(h, p, size, t)
  {
    hide GetStr, GetLe, GetDims, GetExtent, FromWord, ToWord, StrIs, LeIs, DimsAre, Inside, Wraps;
    StrReads(h, p);
    var p1 := p + 4 + |t.name|;
    StrIff(h, p, t.name, p1);
    TypeIff(h, p1, t.dtype);
    LeReads(h, p1, 4);
    LeReads(h, p1 + 4, 4);
    LeIff(h, p1 + 4, 4, |t.shape|, p1 + 8);
    var p4 := p1 + 8 + 8 * |t.shape|;
    DimsRead(h, p1 + 8, |t.shape|);
    DimsIff(h, p1 + 8, |t.shape|, [], t.shape, p4);
    assert t.shape[..0] == [] && t.shape[0..] == t.shape;
    ExtentReads(h, p4, size, t.name, t.dtype, t.shape, t, q);
    if GetRecord(h, p, size) == Ok((t, q)) {
      RecordReads(h, p, size, t, q);
    }
  }

  /** A record that is read has the name, the type and the dimensions that are listed. */
  lemma {:induction false} RecordReads(h: seq<Byte>, p: nat, size: nat, t: TensorInfo, q: nat)
    requires size < U64 && GetRecord(h, p, size) == Ok((t, q))
    ensures var p1 := p + 4 + |t.name|;
            && GetStr(h, p) == Ok((t.name, p1)) && GetLe(h, p1, 4).Ok? && FromWord(GetLe(h, p1, 4).value.0, U32) == t.dtype
            && GetLe(h, p1 + 4, 4) == Ok((|t.shape|, p1 + 8)) && GetDims(h, p1 + 8, |t.shape|, []) == Ok((t.shape, p1 + 8 + 8 * |t.shape|))
            && GetExtent(h, p1 + 8 + 8 * |t.shape|, size, t.name, t.dtype, t.shape) == Ok((t, q))
  {
    hide GetStr, GetLe, GetDims, GetExtent, FromWord, StrIs, LeIs, Inside, Wraps;
    StrReads(h, p);
    var name, p1 := GetStr(h, p).value.0, GetStr(h, p).value.1;
    LeReads(h, p1, 4);
    LeReads(h, p1 + 4, 4);
    var n := GetLe(h, p1 + 4, 4).value.0;
    DimsRead(h, p1 + 8, n);
    var d := GetDims(h, p1 + 8, n, []).value;
    ExtentReads(h, d.1, size, name, FromWord(GetLe(h, p1, 4).value.0, U32), d.0, t, q);
  }

  lemma {:induction false} RecordsIff(h: seq<Byte>, p: nat, n: nat, size: nat, acc: seq<TensorInfo>, all: seq<TensorInfo>, q: nat)
    requires size < U64
    ensures GetRecords(h, p, n, size, acc) == Ok((all, q)) <==>
            |all| == |acc| + n && all[..|acc|] == acc && RecordsAre(h, p, size, all[|acc|..], q)
    decreases n
  {
    hide GetRecord, RecordIs, RecordSize;
    var k := |acc|;
    if n == 0 {
      assert |all| == k ==> all[..k] == all && all[k..] == [];
      assert all == acc ==> all[..k] == acc;
    } else {
      if k < |all| {
        RecordIff(h, p, size, all[k], p + RecordSize(all[k]));
        assert all[k..][0] == all[k] && all[k..][1..] == all[k + 1..] && all[..k + 1] == all[..k] + [all[k]];
      }
      if GetRecord(h, p, size).Ok? {
        var t, r := GetRecord(h, p, size).value.0, GetRecord(h, p, size).value.1;
        RecordIff(h, p, size, t, r);
        RecordsIff(h, r, n - 1, size, acc + [t], all, q);
      }
    }
  }

  lemma {:induction false} CountsIff(h: seq<Byte>, m: nat, n: nat)
    ensures GetCounts(h) == Ok((m, n)) <==> LeIs(h, 0, 4, MAGIC) && LeIs(h, 4, 4, VERSION) && LeIs(h, 8, 4, m) && LeIs(h, 12, 4, n)
  {
    hide GetLe, LeIs;
    LeReads(h, 0, 4);
    LeReads(h, 4, 4);
    LeReads(h, 8, 4);
    LeReads(h, 12, 4);
    LeIff(h, 0, 4, MAGIC, 4);
    LeIff(h, 4, 4, VERSION, 8);
    LeIff(h, 8, 4, m, 12);
    LeIff(h, 12, 4, n, 16);
  }

  /** The tables are read if and only if they are spelled out. */
  lemma {:induction false} TablesIff(h: seq<Byte>, size: nat, es: seq<Entry>, ts: seq<TensorInfo>)
    requires size < U64
    ensures GetTables(h, size) == Ok((es, ts)) <==> HeaderIs(h, size, es, ts)
  {
    hide GetCounts, GetEntries, GetRecords, LeIs, EntriesAre, RecordsAre;
    CountsIff(h, |es|, |ts|);
    if GetTables(h, size) == Ok((es, ts)) {
      var c := GetCounts(h).value;
      var mid := GetEntries(h, 16, c.0, []).value.1;
      var end := GetRecords(h, mid, c.1, size, []).value.1;
      CountsIff(h, c.0, c.1);
      EntriesIff(h, 16, c.0, [], es, mid);
      RecordsIff(h, mid, c.1, size, [], ts, end);
      assert es[0..] == es && ts[0..] == ts;
    }
    if HeaderIs(h, size, es, ts) {
      var mid: nat, end: nat :| EntriesAre(h, 16, es, mid) && RecordsAre(h, mid, size, ts, end);
      assert es[0..] == es && ts[0..] == ts && es[..0] == [] && ts[..0] == [];
      EntriesIff(h, 16, |es|, [], es, mid);
      RecordsIff(h, mid, |ts|, size, [], ts, end);
    }
  }

  // ---- lookups -------------------------------------------------------------------

  /** The first of the first `n` entries with this key is number `k`. */
  predicate FirstAt(es: seq<Entry>, n: nat, key: Text, k: nat) {
    k < n <= |es| && es[k].key == key && forall j | 0 <= j < k :: es[j].key != key
  }

  predicate LastAt(ts: seq<TensorInfo>, n: nat, name: Text, k: nat) {
    k < n <= |ts| && ts[k].name == name && forall j | k < j < n :: ts[j].name != name
  }

  /** Of several entries with one key the first is kept. */
  lemma {:induction false} MetaIs(es: seq<Entry>, n: nat, key: Text, k: nat)
    requires n <= |es|
    ensures FirstAt(es, n, key, k) ==> key in MetaMap(es, n) && MetaMap(es, n)[key] == es[k].value
    ensures (forall j | 0 <= j < n :: es[j].key != key) ==> key !in MetaMap(es, n)
  {
    if n > 0 {
      if k < n - 1 {
        MetaIs(es, n - 1, key, k);
      } else if FirstAt(es, n, key, k) || forall j | 0 <= j < n :: es[j].key != key {
        MetaIs(es, n - 1, key, k);
      }
    }
  }

  /** Of several tensors with one name the last is found. */
  lemma {:induction false} IndexIs(ts: seq<TensorInfo>, n: nat, name: Text, k: nat)
    requires n <= |ts|
    ensures LastAt(ts, n, name, k) ==> name in IndexMap(ts, n) && IndexMap(ts, n)[name] == k
    ensures (forall j | 0 <= j < n :: ts[j].name != name) ==> name !in IndexMap(ts, n)
  {
    if n > 0 {
      IndexIs(ts, n - 1, name, k);
    }
  }

  // ---- whole files ---------------------------------------------------------------

  /** The opened file holds these tables: of each key the first value, under each name the last tensor. */
  ghost predicate Holds(m: ModelFile, file: seq<Byte>, es: seq<Entry>, ts: seq<TensorInfo>) {
    && m.bytes == file && m.tensors == ts
    && (forall key :: key in m.meta <==> exists k: nat :: FirstAt(es, |es|, key, k))
    && (forall key, k: nat | FirstAt(es, |es|, key, k) :: key in m.meta && m.meta[key] == es[k].value)
    && (forall name :: Find(m, name).Some? <==> exists k: nat :: LastAt(ts, |ts|, name, k))
    && (forall name, k: nat | LastAt(ts, |ts|, name, k) :: Find(m, name) == Some(ts[k]))
  }

  lemma {:induction false} FirstOf(es: seq<Entry>, n: nat, key: Text) returns (k: nat)
    requires n <= |es| && exists j :: 0 <= j < n && es[j].key == key
    ensures FirstAt(es, n, key, k)
  {
    if j :| 0 <= j < n - 1 && es[j].key == key {
      k := FirstOf(es, n - 1, key);
    } else {
      k := n - 1;
    }
  }

  lemma {:induction false} LastOf(ts: seq<TensorInfo>, n: nat, name: Text) returns (k: nat)
    requires n <= |ts| && exists j :: 0 <= j < n && ts[j].name == name
    ensures LastAt(ts, n, name, k)
  {
    if ts[n - 1].name == name {
      k := n - 1;
    } else {
      k := LastOf(ts, n - 1, name);
    }
  }

  lemma {:induction false} KeyIff(es: seq<Entry>, key: Text)
    ensures key in MetaMap(es, |es|) <==> exists k: nat :: FirstAt(es, |es|, key, k)
  {
    hide MetaMap;
    if exists j :: 0 <= j < |es| && es[j].key == key {
      var k := FirstOf(es, |es|, key);
      MetaIs(es, |es|, key, k);
    } else {
      MetaIs(es, |es|, key, 0);
    }
  }

  lemma {:induction false} NameIff(ts: seq<TensorInfo>, name: Text)
    ensures name in IndexMap(ts, |ts|) <==> exists k: nat :: LastAt(ts, |ts|, name, k)
    ensures name in IndexMap(ts, |ts|) ==> IndexMap(ts, |ts|)[name] < |ts|
  {
    hide IndexMap;
    if exists j :: 0 <= j < |ts| && ts[j].name == name {
      var k := LastOf(ts, |ts|, name);
      IndexIs(ts, |ts|, name, k);
    } else {
      IndexIs(ts, |ts|, name, 0);
    }
  }

  lemma {:induction false} HoldsTables(file: seq<Byte>, es: seq<Entry>, ts: seq<TensorInfo>)
    ensures Holds(ModelFile(file, MetaMap(es, |es|), ts, IndexMap(ts, |ts|)), file, es, ts)
  {
    hide MetaMap, IndexMap;
    forall key {
      KeyIff(es, key);
    }
    forall key, k: nat | FirstAt(es, |es|, key, k)
      ensures key in MetaMap(es, |es|) && MetaMap(es, |es|)[key] == es[k].value
    {
      MetaIs(es, |es|, key, k);
    }
    forall name {
      NameIff(ts, name);
    }
    forall name, k: nat | LastAt(ts, |ts|, name, k)
      ensures name in IndexMap(ts, |ts|) && IndexMap(ts, |ts|)[name] == k < |ts|
    {
      IndexIs(ts, |ts|, name, k);
      NameIff(ts, name);
    }
  }

  /** A file opens if and only if the tables of a header are spelled out in its first mebibyte, and
      then it holds them. */
  lemma {:induction false} OpensIff(file: seq<Byte>)
    requires |file| < U64
    ensures Opened(file).Ok? <==> exists es, ts :: HeaderIs(Prefix(file), |file|, es, ts)
    ensures forall es, ts | HeaderIs(Prefix(file), |file|, es, ts) :: Opened(file).Ok? && Holds(Opened(file).value, file, es, ts)
  {
    hide GetTables, HeaderIs, MetaMap, IndexMap, Prefix, Holds;
    var h := Prefix(file);
    if GetTables(h, |file|).Ok? {
      TablesIff(h, |file|, GetTables(h, |file|).value.0, GetTables(h, |file|).value.1);
    }
    forall es, ts | HeaderIs(h, |file|, es, ts)
      ensures Opened(file).Ok? && Holds(Opened(file).value, file, es, ts)
    {
      TablesIff(h, |file|, es, ts);
      HoldsTables(file, es, ts);
    }
  }

  // ---- refusals ------------------------------------------------------------------

  lemma {:induction false} EntriesRunOut(h: seq<Byte>, p: nat, n: nat, acc: seq<Entry>)
    ensures GetEntries(h, p, n, acc).Err? ==> GetEntries(h, p, n, acc).error == Truncated
    decreases n
  {
    if n > 0 && GetEntry(h, p).Ok? {
      EntriesRunOut(h, GetEntry(h, p).value.1, n - 1, acc + [GetEntry(h, p).value.0]);
    }
  }

  lemma {:induction false} DimsRunOut(h: seq<Byte>, p: nat, n: nat, acc: seq<int>)
    ensures GetDims(h, p, n, acc).Err? ==> GetDims(h, p, n, acc).error == Truncated
    decreases n
  {
    if n > 0 && GetLe(h, p, 8).Ok? {
      DimsRunOut(h, GetLe(h, p, 8).value.1, n - 1, acc + [FromWord(GetLe(h, p, 8).value.0, U64)]);
    }
  }

  lemma {:induction false} RecordsRunOut(h: seq<Byte>, p: nat, n: nat, size: nat, acc: seq<TensorInfo>)
    ensures GetRecords(h, p, n, size, acc).Err? ==> GetRecords(h, p, n, size, acc).error in {Truncated, PastEof}
    decreases n
  {
    if n > 0 {
      RecordRunsOut(h, p, size);
      hide GetRecord;
      if GetRecord(h, p, size).Ok? {
        RecordsRunOut(h, GetRecord(h, p, size).value.1, n - 1, size, acc + [GetRecord(h, p, size).value.0]);
      }
    }
  }

  lemma {:induction false} RecordRunsOut(h: seq<Byte>, p: nat, size: nat)
    ensures GetRecord(h, p, size).Err? ==> GetRecord(h, p, size).error in {Truncated, PastEof}
  {
    hide GetDims, FromLe, FromWord;
    if GetStr(h, p).Ok? {
      var p1 := GetStr(h, p).value.1;
      if GetLe(h, p1, 4).Ok? && GetLe(h, p1 + 4, 4).Ok? {
        DimsRunOut(h, p1 + 8, GetLe(h, p1 + 4, 4).value.0, []);
      }
    }
  }

  /** Any other magic, or any other version behind it, is refused as such; every other refusal runs out of
      header or points past the end of the file. */
  lemma {:induction false} RefusalIff(file: seq<Byte>)
    ensures Opened(file) == Err(BadMagic) <==> |file| >= 4 && file[..4] != [0x4C, 0x4C, 0x4D, 0x57]
    ensures Opened(file) == Err(BadVersion) <==> |file| >= 8 && file[..4] == [0x4C, 0x4C, 0x4D, 0x57] && file[4..8] != [1, 0, 0, 0]
  {
    var h := Prefix(file);
    Widths();
    MagicBytes();
    LeIff(h, 0, 4, MAGIC, 4);
    LeIff(h, 4, 4, VERSION, 8);
    assert |file| >= 4 ==> h[0..4] == file[..4];
    assert |file| >= 8 ==> h[4..8] == file[4..8];
    CountsFail(h);
    hide GetCounts, GetEntries, GetRecords;
    if GetCounts(h).Ok? {
      var c := GetCounts(h).value;
      EntriesRunOut(h, 16, c.0, []);
      if GetEntries(h, 16, c.0, []).Ok? {
        RecordsRunOut(h, GetEntries(h, 16, c.0, []).value.1, c.1, |file|, []);
      }
    }
  }

  lemma {:induction false} CountsFail(h: seq<Byte>)
    ensures GetCounts(h) == Err(BadMagic) <==> |h| >= 4 && GetLe(h, 0, 4) != Ok((MAGIC as nat, 4))
    ensures GetCounts(h) == Err(BadVersion) <==> |h| >= 8 && GetLe(h, 0, 4) == Ok((MAGIC as nat, 4)) && GetLe(h, 4, 4) != Ok((VERSION as nat, 8))
  {
    hide FromLe;
  }
}
