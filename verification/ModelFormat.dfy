/** The .llmw container: a writer that lays out header, directory and aligned tensor data in two
    passes, and a reader that walks at most the first mebibyte. */
module ModelFormat {
  import opened Arithmetic

  type Byte = n: nat | n < 256
  type Text = seq<Byte>

  datatype Option<T> = None | Some(value: T)
  datatype Result<T> = Ok(value: T) | Err(error: Error)
  datatype Error = Truncated | BadMagic | BadVersion | PastEof

  const MAGIC := 0x574D_4C4C
  const VERSION := 1
  const PREFIX := 0x10_0000
  const U32 := 0x1_0000_0000
  const U64 := 0x1_0000_0000_0000_0000
  const I63 := 0x8000_0000_0000_0000

  /** A double is its 64 bits. */
  datatype MetaValue = Int(i: int) | Float(bits: nat) | Str(s: Text)

  datatype Entry = Entry(key: Text, value: MetaValue)

  /** A tensor to write. */
  datatype Tensor = Tensor(name: Text, dtype: int, shape: seq<int>, data: seq<Byte>)

  /** A tensor as the reader lists it. */
  datatype TensorInfo = TensorInfo(name: Text, dtype: int, shape: seq<int>, offset: nat, nbytes: nat)

  predicate ValueFits(v: MetaValue) {
    match v
    case Int(i) => -I63 <= i < I63
    case Float(bits) => bits < U64
    case Str(s) => |s| < U32
  }

  predicate EntryFits(e: Entry) {
    |e.key| < U32 && ValueFits(e.value)
  }

  predicate TensorFits(t: Tensor) {
    && |t.name| < U32 && -0x8000_0000 <= t.dtype < 0x8000_0000 && |t.shape| < U32 && |t.data| < U64
    && forall d | 0 <= d < |t.shape| :: -I63 <= t.shape[d] < I63
  }

  // ---- little-endian integers ----------------------------------------------------

  function Pow256(w: nat): (p: nat)
    ensures p > 0
  {
    if w == 0 then 1 else 256 * Pow256(w - 1)
  }

  function Le(n: nat, w: nat): (b: seq<Byte>)
    ensures |b| == w
  {
    if w == 0 then [] else [n % 256] + Le(n / 256, w - 1)
  }

  function FromLe(b: seq<Byte>): nat {
    if b == [] then 0 else b[0] + 256 * FromLe(b[1..])
  }

  lemma {:induction false} LeRoundTrip(n: nat, w: nat)
    requires n < Pow256(w)
    ensures FromLe(Le(n, w)) == n
  {
    if w > 0 {
      LeRoundTrip(n / 256, w - 1);
      assert Le(n, w)[1..] == Le(n / 256, w - 1);
    }
  }

  /** The lowest byte comes first. */
  lemma {:induction false} LowestFirst(n: nat, w: nat, k: nat)
    requires k < w
    ensures Le(n, w)[k] == n / Pow256(k) % 256
  {
    if k > 0 {
      LowestFirst(n / 256, w - 1, k - 1);
      DivTwice(n, Pow256(k - 1));
    }
  }

  lemma {:induction false} DivTwice(n: nat, d: nat)
    requires d > 0
    ensures n / 256 / d == n / (256 * d)
  {
    var q, r := n / 256 / d, n / 256 % d;
    assert n / 256 == q * d + r;
    assert n == 256 * (q * d + r) + n % 256;
    var e := 256 * d;
    assert n == q * e + (256 * r + n % 256) && 256 * r + n % 256 < e;
    QuotientIs(n, e, q, 256 * r + n % 256);
  }

  lemma {:induction false} QuotientIs(n: nat, e: nat, q: nat, r: nat)
    requires r < e && n == q * e + r
    ensures n / e == q
  {
    var x := n / e;
    assert n == x * e + n % e;
    if x < q {
      assert (x + 1) * e == x * e + e;
      MulMonotone(x + 1, q, e);
    } else if q < x {
      assert (q + 1) * e == q * e + e;
      MulMonotone(q + 1, x, e);
    }
  }

  lemma {:induction false} Widths()
    ensures Pow256(1) == 256 && Pow256(4) == U32 && Pow256(8) == U64
  {
    assert Pow256(2) == 0x1_0000 && Pow256(3) == 0x100_0000;
    assert Pow256(5) == 0x100_0000_0000 && Pow256(6) == 0x1_0000_0000_0000 && Pow256(7) == 0x100_0000_0000_0000;
  }

  /** Two's complement in a word of `m` values. */
  function ToWord(v: int, m: nat): nat
    requires m > 0
  {
    v % m
  }

  function FromWord(n: nat, m: nat): int {
    if 2 * n < m then n else n - m
  }

  lemma {:induction false} WordRoundTrip(v: int, m: nat)
    requires (m == U32 || m == U64) && -(m / 2) <= v < m / 2
    ensures FromWord(ToWord(v, m), m) == v && ToWord(v, m) < m
  {
  }

  // ---- the layout ----------------------------------------------------------------

  function StrBytes(s: Text): seq<Byte> {
    Le(|s|, 4) + s
  }

  function ValueBytes(v: MetaValue): seq<Byte> {
    match v
    case Int(i) => Le(0, 1) + Le(ToWord(i, U64), 8)
    case Float(bits) => Le(1, 1) + Le(bits, 8)
    case Str(s) => Le(2, 1) + StrBytes(s)
  }

  function EntryBytes(e: Entry): seq<Byte> {
    StrBytes(e.key) + ValueBytes(e.value)
  }

  /** The first `n` metadata entries. */
  function MetaBytes(meta: seq<Entry>, n: nat): seq<Byte>
    requires n <= |meta|
  {
    if n == 0 then [] else MetaBytes(meta, n - 1) + EntryBytes(meta[n - 1])
  }

  /** The first `n` dimensions. */
  function DimBytes(shape: seq<int>, n: nat): (b: seq<Byte>)
    requires n <= |shape|
    ensures |b| == 8 * n
  {
    if n == 0 then [] else DimBytes(shape, n - 1) + Le(ToWord(shape[n - 1], U64), 8)
  }

  /** A directory record up to its offset field. */
  function RecordHead(t: Tensor): seq<Byte> {
    StrBytes(t.name) + Le(ToWord(t.dtype, U32), 4) + Le(|t.shape|, 4) + DimBytes(t.shape, |t.shape|)
  }

  function RecordBytes(t: Tensor, offset: nat): seq<Byte> {
    RecordHead(t) + Le(offset, 8) + Le(|t.data|, 8)
  }

  /** The first `n` directory records. */
  function DirBytes(ts: seq<Tensor>, offsets: seq<nat>, n: nat): seq<Byte>
    requires n <= |ts| && n <= |offsets|
  {
    if n == 0 then [] else DirBytes(ts, offsets, n - 1) + RecordBytes(ts[n - 1], offsets[n - 1])
  }

  function Preamble(meta: seq<Entry>, ts: seq<Tensor>): seq<Byte> {
    Le(MAGIC, 4) + Le(VERSION, 4) + Le(|meta|, 4) + Le(|ts|, 4) + MetaBytes(meta, |meta|)
  }

  function RoundUp64(n: nat): (r: nat)
    ensures n <= r < n + 64 && r % 64 == 0
  {
    (n + 63) / 64 * 64
  }

  function Zeros(n: nat): (z: seq<Byte>)
    ensures |z| == n
  {
    seq(n, i => 0)
  }

  /** Where tensor `i`'s data goes when the data starts at `base`. */
  function OffsetAt(ts: seq<Tensor>, base: nat, i: nat): nat
    requires i <= |ts|
  {
    if i == 0 then base else OffsetAt(ts, base, i - 1) + RoundUp64(|ts[i - 1].data|)
  }

  function Offsets(ts: seq<Tensor>, base: nat): (o: seq<nat>)
    ensures |o| == |ts| && forall i | 0 <= i < |o| :: o[i] == OffsetAt(ts, base, i)
  {
    seq(|ts|, i requires 0 <= i < |ts| => OffsetAt(ts, base, i))
  }

  lemma {:induction false} OffsetAligned(ts: seq<Tensor>, base: nat, i: nat)
    requires i <= |ts| && base % 64 == 0
    ensures OffsetAt(ts, base, i) % 64 == 0
  {
    hide RoundUp64;
    if i > 0 {
      OffsetAligned(ts, base, i - 1);
      SumAligned(OffsetAt(ts, base, i - 1), RoundUp64(|ts[i - 1].data|));
    }
  }

  lemma {:induction false} SumAligned(a: nat, b: nat)
    requires a % 64 == 0 && b % 64 == 0
    ensures (a + b) % 64 == 0
  {
  }

  /** Every offset is aligned, and data ends before the next begins. */
  lemma {:induction false} OffsetsOrdered(ts: seq<Tensor>, base: nat, i: nat, j: nat)
    requires i <= j <= |ts| && base % 64 == 0
    ensures OffsetAt(ts, base, i) % 64 == 0
    ensures i < j ==> OffsetAt(ts, base, i) + |ts[i].data| <= OffsetAt(ts, base, j)
    ensures OffsetAt(ts, base, i) <= OffsetAt(ts, base, j)
    decreases j
  {
    hide RoundUp64;
    OffsetAligned(ts, base, i);
    if i < j {
      OffsetsOrdered(ts, base, i, j - 1);
    }
  }

  // ---- the file ------------------------------------------------------------------

  function DirSize(ts: seq<Tensor>, n: nat): nat
    requires n <= |ts|
  {
    if n == 0 then 0 else DirSize(ts, n - 1) + |RecordHead(ts[n - 1])| + 16
  }

  lemma {:induction false} DirLength(ts: seq<Tensor>, offsets: seq<nat>, n: nat)
    requires n <= |ts| && n <= |offsets|
    ensures |DirBytes(ts, offsets, n)| == DirSize(ts, n)
  {
    if n > 0 {
      DirLength(ts, offsets, n - 1);
    }
  }

  /** Where the directory ends. */
  function HeaderEnd(meta: seq<Entry>, ts: seq<Tensor>): nat {
    |Preamble(meta, ts)| + DirSize(ts, |ts|)
  }

  function DataStart(meta: seq<Entry>, ts: seq<Tensor>): nat {
    RoundUp64(HeaderEnd(meta, ts))
  }

  function Header(meta: seq<Entry>, ts: seq<Tensor>): (h: seq<Byte>)
    ensures |h| == DataStart(meta, ts)
  {
    var offsets := Offsets(ts, DataStart(meta, ts));
    DirLength(ts, offsets, |ts|);
    Preamble(meta, ts) + DirBytes(ts, offsets, |ts|) + Zeros(DataStart(meta, ts) - HeaderEnd(meta, ts))
  }

  /** The file once the data of the first `n` tensors is there. */
  function FileBytes(meta: seq<Entry>, ts: seq<Tensor>, n: nat): (b: seq<Byte>)
    requires n <= |ts|
    ensures |b| <= OffsetAt(ts, DataStart(meta, ts), n)
    ensures |Header(meta, ts)| <= |b| && b[..|Header(meta, ts)|] == Header(meta, ts)
    ensures n > 0 ==> |b| == OffsetAt(ts, DataStart(meta, ts), n - 1) + |ts[n - 1].data|
  {
    if n == 0 then Header(meta, ts)
    else
      var b := FileBytes(meta, ts, n - 1);
      b + Zeros(OffsetAt(ts, DataStart(meta, ts), n - 1) - |b|) + ts[n - 1].data
  }

  /** Each tensor's bytes are at its offset. */
  lemma {:induction false} DataInPlace(meta: seq<Entry>, ts: seq<Tensor>, n: nat, i: nat)
    requires i < n <= |ts|
    ensures var at := OffsetAt(ts, DataStart(meta, ts), i);
            at + |ts[i].data| <= |FileBytes(meta, ts, n)| && FileBytes(meta, ts, n)[at..at + |ts[i].data|] == ts[i].data
  {
    hide Header, DataStart;
    if i < n - 1 {
      DataInPlace(meta, ts, n - 1, i);
    }
  }

  /** A file starts with the letters LLMW, version 1, and how many entries and tensors there are. */
  lemma {:induction false} StartsWith(meta: seq<Entry>, ts: seq<Tensor>, n: nat)
    requires n <= |ts| && |meta| < U32 && |ts| < U32
    ensures |FileBytes(meta, ts, n)| >= 16 && FileBytes(meta, ts, n)[..8] == [0x4C, 0x4C, 0x4D, 0x57, 1, 0, 0, 0]
    ensures FromLe(FileBytes(meta, ts, n)[8..12]) == |meta| && FromLe(FileBytes(meta, ts, n)[12..16]) == |ts|
  {
    hide *;
    var b, h := FileBytes(meta, ts, n), Header(meta, ts);
    Starts(meta, ts);
    CountsBack(|meta|, |ts|);
    assert b[..16] == h[..16];
    assert b[..8] == b[..16][..8] && b[8..12] == b[..16][8..12] && b[12..16] == b[..16][12..16];
  }

  lemma {:induction false} CountsBack(m: nat, n: nat)
    requires m < U32 && n < U32
    ensures FromLe(Le(m, 4)) == m && FromLe(Le(n, 4)) == n
  {
    Widths();
    LeRoundTrip(m, 4);
    LeRoundTrip(n, 4);
  }

  lemma {:induction false} Starts(meta: seq<Entry>, ts: seq<Tensor>)
    ensures |Header(meta, ts)| >= 16
    ensures Header(meta, ts)[..16] == [0x4C, 0x4C, 0x4D, 0x57, 1, 0, 0, 0] + Le(|meta|, 4) + Le(|ts|, 4)
  {
    hide Le, MetaBytes, DirBytes, DataStart, HeaderEnd, Zeros, Offsets, RoundUp64, DirSize;
    MagicBytes();
    var p := Preamble(meta, ts);
    assert p[..16] == [0x4C, 0x4C, 0x4D, 0x57] + [1, 0, 0, 0] + Le(|meta|, 4) + Le(|ts|, 4);
    assert Header(meta, ts)[..16] == p[..16];
  }

  lemma {:induction false} MagicBytes()
    ensures Le(MAGIC, 4) == [0x4C, 0x4C, 0x4D, 0x57] && Le(VERSION, 4) == [1, 0, 0, 0]
  {
  }

  // ---- the writer ----------------------------------------------------------------

  class Writer {
    var buf: seq<Byte>

    constructor ()
      ensures buf == []
    {
      buf := [];
    }

    /** Appends an integer of `w` bytes. */
    method Pod(n: nat, w: nat)
      modifies this
      ensures buf == old(buf) + Le(n, w)
    {
      var rest, k := n, 0;
      while k < w
        invariant k <= w && old(buf) + Le(n, w) == buf + Le(rest, w - k)
      {
        assert Le(rest, w - k) == [rest % 256] + Le(rest / 256, w - k - 1);
        buf := buf + [rest % 256];
        rest, k := rest / 256, k + 1;
      }
    }

    method PutStr(s: Text)
      modifies this
      ensures buf == old(buf) + StrBytes(s)
    {
      Pod(|s|, 4);
      buf := buf + s;
    }

    method PutValue(v: MetaValue)
      modifies this
      ensures buf == old(buf) + ValueBytes(v)
    {
      hide Le, ToWord, StrBytes;
      match v
      case Int(i) =>
        Pod(0, 1);
        Pod(ToWord(i, U64), 8);
      case Float(bits) =>
        Pod(1, 1);
        Pod(bits, 8);
      case Str(s) =>
        Pod(2, 1);
        PutStr(s);
    }

    /** A directory record whose offset is still to come. */
    method PutRecord(t: Tensor)
      modifies this
      ensures buf == old(buf) + RecordBytes(t, 0)
    {
      hide Le, StrBytes;
      PutStr(t.name);
      Pod(ToWord(t.dtype, U32), 4);
      Pod(|t.shape|, 4);
      ghost var head := buf;
      var d := 0;
      while d < |t.shape|
        invariant d <= |t.shape| && buf == head + DimBytes(t.shape, d)
      {
        Pod(ToWord(t.shape[d], U64), 8);
        d := d + 1;
      }
      Pod(0, 8);
      Pod(|t.data|, 8);
    }

    /** Overwrites eight bytes at `pos`. */
    method PatchAt(pos: nat, n: nat)
      requires pos + 8 <= |buf|
      modifies this
      ensures buf == old(buf)[..pos] + Le(n, 8) + old(buf)[pos + 8..]
    {
      var b := new Writer();
      b.Pod(n, 8);
      buf := buf[..pos] + b.buf + buf[pos + 8..];
    }

    method PadTo64()
      modifies this
      ensures buf == old(buf) + Zeros(RoundUp64(|old(buf)|) - |old(buf)|)
    {
      ghost var n := |buf|;
      while |buf| % 64 != 0
        invariant n <= |buf| <= RoundUp64(n) && buf == old(buf) + Zeros(|buf| - n)
        decreases RoundUp64(n) - |buf|
      {
        AlignedAt(n, |buf|);
        buf := buf + [0];
      }
      AlignedAt(n, |buf|);
    }
  }

  lemma {:induction false} AlignedAt(n: nat, k: nat)
    requires n <= k <= RoundUp64(n)
    ensures k % 64 == 0 <==> k == RoundUp64(n)
  {
  }

  // ---- writing a file ------------------------------------------------------------

  /** Directory records from `i` on, their offsets still zero. */
  function Placeholders(ts: seq<Tensor>, i: nat): seq<Byte>
    requires i <= |ts|
    decreases |ts| - i
  {
    if i == |ts| then [] else RecordBytes(ts[i], 0) + Placeholders(ts, i + 1)
  }

  lemma {:induction false} PlaceholdersAre(ts: seq<Tensor>, zeros: seq<nat>, i: nat)
    requires i <= |ts| == |zeros| && forall k | 0 <= k < |zeros| :: zeros[k] == 0
    ensures DirBytes(ts, zeros, |ts|) == DirBytes(ts, zeros, i) + Placeholders(ts, i)
    decreases |ts| - i
  {
    hide RecordBytes;
    if i < |ts| {
      PlaceholdersAre(ts, zeros, i + 1);
    }
  }

  lemma {:induction false} PatchedRecord(a: seq<Byte>, t: Tensor, offset: nat, rest: seq<Byte>, buf: seq<Byte>)
    requires buf == a + (RecordBytes(t, 0) + rest)
    ensures var pos := |a| + |RecordHead(t)|;
            pos + 8 <= |buf| && buf[..pos] + Le(offset, 8) + buf[pos + 8..] == a + RecordBytes(t, offset) + rest
  {
    hide Le, RecordHead;
    var head, n := RecordHead(t), Le(|t.data|, 8);
    var pos := |a| + |head|;
    assert buf == (a + head) + Le(0, 8) + (n + rest);
    assert buf[..pos] == a + head && buf[pos + 8..] == n + rest;
  }

  /** Walks the directory again and fills in the offsets. */
  method PatchOffsets(w: Writer, ts: seq<Tensor>, offsets: seq<nat>, dirStart: nat, ghost pre: seq<Byte>, ghost pad: seq<Byte>)
    requires |offsets| == |ts| && dirStart == |pre| && w.buf == pre + Placeholders(ts, 0) + pad
    modifies w
    ensures w.buf == pre + DirBytes(ts, offsets, |ts|) + pad
  {
    hide RecordBytes, Le;
    var pos, i := dirStart, 0;
    assert w.buf == pre + DirBytes(ts, offsets, 0) + (Placeholders(ts, 0) + pad);
    while i < |ts|
      invariant i <= |ts| && pos == |pre + DirBytes(ts, offsets, i)|
      invariant w.buf == pre + DirBytes(ts, offsets, i) + (Placeholders(ts, i) + pad)
    {
      var t := ts[i];
      ghost var a, rest := pre + DirBytes(ts, offsets, i), Placeholders(ts, i + 1) + pad;
      assert Placeholders(ts, i) + pad == RecordBytes(t, 0) + rest;
      PatchedRecord(a, t, offsets[i], rest, w.buf);
      HeadSize(t);
      pos := pos + 4 + |t.name|;
      pos := pos + 4;
      pos := pos + 4;
      pos := pos + 8 * |t.shape|;
      w.PatchAt(pos, offsets[i]);
      pos := pos + 8;
      pos := pos + 8;
      RecordSize(t, offsets[i]);
      assert a + RecordBytes(t, offsets[i]) == pre + DirBytes(ts, offsets, i + 1);
      i := i + 1;
    }
  }

  lemma {:induction false} HeadSize(t: Tensor)
    ensures |RecordHead(t)| == 4 + |t.name| + 4 + 4 + 8 * |t.shape|
  {
  }

  lemma {:induction false} RecordSize(t: Tensor, offset: nat)
    ensures |RecordBytes(t, offset)| == |RecordHead(t)| + 16
  {
  }

  method WriteHeader(w: Writer, meta: seq<Entry>, ts: seq<Tensor>)
    requires w.buf == []
    modifies w
    ensures w.buf == Preamble(meta, ts)
  {
    hide Le, EntryBytes;
    w.Pod(MAGIC, 4);
    w.Pod(VERSION, 4);
    w.Pod(|meta|, 4);
    w.Pod(|ts|, 4);
    ghost var start := w.buf;
    var i := 0;
    while i < |meta|
      invariant i <= |meta| && w.buf == start + MetaBytes(meta, i)
    {
      ghost var before := w.buf;
      w.PutStr(meta[i].key);
      w.PutValue(meta[i].value);
      EntryIs(meta[i]);
      assert w.buf == before + EntryBytes(meta[i]);
      i := i + 1;
    }
  }

  lemma {:induction false} EntryIs(e: Entry)
    ensures EntryBytes(e) == StrBytes(e.key) + ValueBytes(e.value)
  {
  }

  /** First pass: records with placeholder offsets. */
  method WriteDirectory(w: Writer, ts: seq<Tensor>)
    modifies w
    ensures w.buf == old(w.buf) + Placeholders(ts, 0)
  {
    hide RecordBytes;
    ghost var pre, zeros := w.buf, seq(|ts|, i => 0);
    var i := 0;
    while i < |ts|
      invariant i <= |ts| && w.buf == pre + DirBytes(ts, zeros, i)
    {
      w.PutRecord(ts[i]);
      i := i + 1;
    }
    PlaceholdersAre(ts, zeros, 0);
  }

  method DataOffsets(ts: seq<Tensor>, base: nat) returns (offsets: seq<nat>)
    ensures offsets == Offsets(ts, base)
  {
    offsets := [];
    var cur := base;
    while |offsets| < |ts|
      invariant |offsets| <= |ts| && cur == OffsetAt(ts, base, |offsets|)
      invariant forall k | 0 <= k < |offsets| :: offsets[k] == OffsetAt(ts, base, k)
    {
      offsets, cur := offsets + [cur], cur + RoundUp64(|ts[|offsets|].data|);
    }
  }

  lemma {:induction false} PlaceholderSize(ts: seq<Tensor>, i: nat)
    requires i <= |ts|
    ensures DirSize(ts, i) + |Placeholders(ts, i)| == DirSize(ts, |ts|)
    decreases |ts| - i
  {
    hide RecordBytes, RecordHead;
    if i < |ts| {
      PlaceholderSize(ts, i + 1);
      RecordSize(ts[i], 0);
    }
  }

  /** The bytes of a file with this metadata and these tensors. */
  method Write(meta: seq<Entry>, ts: seq<Tensor>) returns (file: seq<Byte>)
    ensures file == FileBytes(meta, ts, |ts|)
  {
    hide RecordBytes, Preamble, Le, RoundUp64, Zeros, OffsetAt;
    var w := new Writer();
    WriteHeader(w, meta, ts);
    var dirStart := |w.buf|;
    WriteDirectory(w, ts);
    PlaceholderSize(ts, 0);
    w.PadTo64();
    var offsets := DataOffsets(ts, |w.buf|);
    PatchOffsets(w, ts, offsets, dirStart, Preamble(meta, ts), Zeros(DataStart(meta, ts) - HeaderEnd(meta, ts)));
    WriteData(w, meta, ts, offsets);
    file := w.buf;
  }

  method WriteData(w: Writer, meta: seq<Entry>, ts: seq<Tensor>, offsets: seq<nat>)
    requires w.buf == Header(meta, ts) && offsets == Offsets(ts, DataStart(meta, ts))
    modifies w
    ensures w.buf == FileBytes(meta, ts, |ts|)
  {
    hide Header, DataStart, OffsetAt;
    var i := 0;
    while i < |ts|
      invariant i <= |ts| && w.buf == FileBytes(meta, ts, i)
    {
      ghost var b := w.buf;
      while |w.buf| < offsets[i]
        invariant |b| <= |w.buf| <= offsets[i] && w.buf == b + Zeros(|w.buf| - |b|)
      {
        w.buf := w.buf + [0];
      }
      w.buf := w.buf + ts[i].data;
      i := i + 1;
    }
  }
}
