/** Reading an .llmw container: a cursor over at most the first mebibyte of the file. */
module ModelReading {
  import opened ModelFormat

  /** What a read yields: a value and where the cursor is then. */
  type Read<T> = Result<(T, nat)>

  // ---- what the cursor reads -----------------------------------------------------

  function GetLe(h: seq<Byte>, p: nat, w: nat): Read<nat> {
    if p + w <= |h| then Ok((FromLe(h[p..p + w]), p + w)) else Err(Truncated)
  }

  function GetText(h: seq<Byte>, p: nat, n: nat): Read<Text> {
    if p + n <= |h| then Ok((h[p..p + n], p + n)) else Err(Truncated)
  }

  function GetStr(h: seq<Byte>, p: nat): Read<Text> {
    match GetLe(h, p, 4)
    case Err(e) => Err(e)
    case Ok((n, q)) => GetText(h, q, n)
  }

  function GetValue(h: seq<Byte>, p: nat): Read<MetaValue> {
    match GetLe(h, p, 1)
    case Err(e) => Err(e)
    case Ok((kind, q)) =>
      if kind == 0 then
        match GetLe(h, q, 8)
        case Err(e) => Err(e)
        case Ok((n, r)) => Ok((Int(FromWord(n, U64)), r))
      else if kind == 1 then
        match GetLe(h, q, 8)
        case Err(e) => Err(e)
        case Ok((n, r)) => Ok((Float(n), r))
      else
        match GetStr(h, q)
        case Err(e) => Err(e)
        case Ok((s, r)) => Ok((Str(s), r))
  }

  function GetEntry(h: seq<Byte>, p: nat): Read<Entry> {
    match GetStr(h, p)
    case Err(e) => Err(e)
    case Ok((key, q)) =>
      match GetValue(h, q)
      case Err(e) => Err(e)
      case Ok((v, r)) => Ok((Entry(key, v), r))
  }

  /** `n` more entries after those in `acc`. */
  function GetEntries(h: seq<Byte>, p: nat, n: nat, acc: seq<Entry>): Read<seq<Entry>>
    decreases n
  {
    if n == 0 then Ok((acc, p))
    else
      match GetEntry(h, p)
      case Err(e) => Err(e)
      case Ok((e, q)) => GetEntries(h, q, n - 1, acc + [e])
  }

  function GetDims(h: seq<Byte>, p: nat, n: nat, acc: seq<int>): Read<seq<int>>
    decreases n
  {
    if n == 0 then Ok((acc, p))
    else
      match GetLe(h, p, 8)
      case Err(e) => Err(e)
      case Ok((d, q)) => GetDims(h, q, n - 1, acc + [FromWord(d, U64)])
  }

  /** A directory record; its data must lie inside the file, as far as 64-bit sums can tell. */
  function GetRecord(h: seq<Byte>, p: nat, size: nat): Read<TensorInfo> {
    match GetStr(h, p)
    case Err(e) => Err(e)
    case Ok((name, p1)) =>
      match GetLe(h, p1, 4)
      case Err(e) => Err(e)
      case Ok((dtype, p2)) =>
        match GetLe(h, p2, 4)
        case Err(e) => Err(e)
        case Ok((ndim, p3)) =>
          match GetDims(h, p3, ndim, [])
          case Err(e) => Err(e)
          case Ok((shape, p4)) => GetExtent(h, p4, size, name, FromWord(dtype, U32), shape)
  }

  function GetExtent(h: seq<Byte>, p: nat, size: nat, name: Text, dtype: int, shape: seq<int>): Read<TensorInfo> {
    match GetLe(h, p, 8)
    case Err(e) => Err(e)
    case Ok((offset, q)) =>
      match GetLe(h, q, 8)
      case Err(e) => Err(e)
      case Ok((nbytes, r)) =>
        if (offset + nbytes) % U64 <= size then Ok((TensorInfo(name, dtype, shape, offset, nbytes), r)) else Err(PastEof)
  }

  function GetRecords(h: seq<Byte>, p: nat, n: nat, size: nat, acc: seq<TensorInfo>): Read<seq<TensorInfo>>
    decreases n
  {
    if n == 0 then Ok((acc, p))
    else
      match GetRecord(h, p, size)
      case Err(e) => Err(e)
      case Ok((t, q)) => GetRecords(h, q, n - 1, size, acc + [t])
  }

  // ---- the opened file -----------------------------------------------------------

  datatype ModelFile = ModelFile(bytes: seq<Byte>, meta: map<Text, MetaValue>, tensors: seq<TensorInfo>, index: map<Text, nat>)

  /** Of two entries with one key the first counts. */
  function MetaMap(es: seq<Entry>, n: nat): map<Text, MetaValue>
    requires n <= |es|
  {
    if n == 0 then map[]
    else
      var m := MetaMap(es, n - 1);
      if es[n - 1].key in m then m else m[es[n - 1].key := es[n - 1].value]
  }

  /** Of two tensors with one name the last counts. */
  function IndexMap(ts: seq<TensorInfo>, n: nat): map<Text, nat>
    requires n <= |ts|
  {
    if n == 0 then map[] else IndexMap(ts, n - 1)[ts[n - 1].name := n - 1]
  }

  function Prefix(file: seq<Byte>): seq<Byte> {
    if |file| <= PREFIX then file else file[..PREFIX]
  }

  /** The two counts after magic and version. */
  function GetCounts(h: seq<Byte>): Result<(nat, nat)> {
    match GetLe(h, 0, 4)
    case Err(e) => Err(e)
    case Ok((magic, p1)) =>
      if magic != MAGIC then Err(BadMagic)
      else
        match GetLe(h, p1, 4)
        case Err(e) => Err(e)
        case Ok((version, p2)) =>
          if version != VERSION then Err(BadVersion)
          else
            match GetLe(h, p2, 4)
            case Err(e) => Err(e)
            case Ok((nMeta, p3)) =>
              match GetLe(h, p3, 4)
              case Err(e) => Err(e)
              case Ok((nTensor, p4)) => Ok((nMeta, nTensor))
  }

  /** The tables of a header. */
  function GetTables(h: seq<Byte>, size: nat): Result<(seq<Entry>, seq<TensorInfo>)> {
    match GetCounts(h)
    case Err(e) => Err(e)
    case Ok((nMeta, nTensor)) =>
      match GetEntries(h, 16, nMeta, [])
      case Err(e) => Err(e)
      case Ok((es, p)) =>
        match GetRecords(h, p, nTensor, size, [])
        case Err(e) => Err(e)
        case Ok((ts, q)) => Ok((es, ts))
  }

  function Opened(file: seq<Byte>): Result<ModelFile> {
    match GetTables(Prefix(file), |file|)
    case Err(e) => Err(e)
    case Ok((es, ts)) => Ok(ModelFile(file, MetaMap(es, |es|), ts, IndexMap(ts, |ts|)))
  }

  function Find(m: ModelFile, name: Text): Option<TensorInfo> {
    if name in m.index && m.index[name] < |m.tensors| then Some(m.tensors[m.index[name]]) else None
  }

  /** The raw bytes of a tensor, or an error past the end of the file. */
  function ReadRaw(m: ModelFile, t: TensorInfo): Result<seq<Byte>> {
    if t.offset + t.nbytes <= |m.bytes| then Ok(m.bytes[t.offset..t.offset + t.nbytes]) else Err(PastEof)
  }

  // ---- what the bounds check lets through ----------------------------------------

  /** The sum of offset and size exceeds 64 bits, and what is left of it lies in the file. */
  predicate Wraps(t: TensorInfo, size: nat) {
    U64 <= t.offset + t.nbytes <= U64 + size
  }

  predicate Inside(t: TensorInfo, size: nat) {
    t.offset + t.nbytes <= size
  }

  lemma {:induction false} FromLeBound(b: seq<Byte>)
    ensures FromLe(b) < Pow256(|b|)
  {
    if b != [] {
      FromLeBound(b[1..]);
    }
  }

  /** A record's extent is accepted if and only if its data lies inside the file or the 64-bit
      sum wraps around to a value that does. */
  lemma {:induction false} ExtentIff(h: seq<Byte>, p: nat, size: nat, name: Text, dtype: int, shape: seq<int>)
    requires size < U64 && p + 16 <= |h|
    ensures var t := TensorInfo(name, dtype, shape, FromLe(h[p..p + 8]), FromLe(h[p + 8..p + 16]));
            GetExtent(h, p, size, name, dtype, shape) == if Inside(t, size) || Wraps(t, size) then Ok((t, p + 16)) else Err(PastEof)
  {
    FromLeBound(h[p..p + 8]);
    FromLeBound(h[p + 8..p + 16]);
    Widths();
    hide FromLe, Pow256;
    var sum := FromLe(h[p..p + 8]) + FromLe(h[p + 8..p + 16]);
    assert sum % U64 == if sum < U64 then sum else sum - U64;
  }

  ghost predicate AllBounded(ts: seq<TensorInfo>, size: nat) {
    forall t | t in ts :: Inside(t, size) || Wraps(t, size)
  }

  lemma {:induction false} RecordBounded(h: seq<Byte>, p: nat, size: nat)
    requires size < U64 && GetRecord(h, p, size).Ok?
    ensures AllBounded([GetRecord(h, p, size).value.0], size)
  {
    hide FromLe, Pow256, GetStr, GetDims;
    var p1 := GetStr(h, p).value.1;
    var r := GetDims(h, p1 + 8, GetLe(h, p1 + 4, 4).value.0, []).value;
    ExtentIff(h, r.1, size, GetStr(h, p).value.0, FromWord(GetLe(h, p1, 4).value.0, U32), r.0);
  }

  lemma {:induction false} RecordsBounded(h: seq<Byte>, p: nat, n: nat, size: nat, acc: seq<TensorInfo>)
    requires size < U64 && AllBounded(acc, size) && GetRecords(h, p, n, size, acc).Ok?
    ensures AllBounded(GetRecords(h, p, n, size, acc).value.0, size)
    decreases n
  {
    hide GetRecord;
    if n > 0 {
      RecordBounded(h, p, size);
      var r := GetRecord(h, p, size).value;
      assert AllBounded([r.0], size) ==> Inside(r.0, size) || Wraps(r.0, size);
      RecordsBounded(h, r.1, n - 1, size, acc + [r.0]);
    }
  }

  /** In an opened file a tensor cannot be read if and only if its extent wraps around. */
  lemma {:induction false} UnreadableIff(file: seq<Byte>, t: TensorInfo)
    requires |file| < U64 && Opened(file).Ok? && t in Opened(file).value.tensors
    ensures ReadRaw(Opened(file).value, t).Err? <==> Wraps(t, |file|)
  {
    hide GetEntries, GetRecords, GetCounts, MetaMap, IndexMap;
    var c := GetCounts(Prefix(file)).value;
    RecordsBounded(Prefix(file), GetEntries(Prefix(file), 16, c.0, []).value.1, c.1, |file|, []);
  }

  // ---- the cursor ----------------------------------------------------------------

  /** `r` and the cursor are what the read says. */
  predicate Is<T(==)>(g: Read<T>, r: Result<T>, p: nat) {
    match g
    case Err(e) => r == Err(e)
    case Ok((v, q)) => r == Ok(v) && p == q
  }

  class Reader {
    const h: seq<Byte>
    var p: nat

    constructor (h: seq<Byte>)
      ensures this.h == h && p == 0
    {
      this.h, p := h, 0;
    }

    method Pod(w: nat) returns (r: Result<nat>)
      modifies this`p
      ensures Is(GetLe(h, old(p), w), r, p)
    {
      if p + w > |h| {
        return Err(Truncated);
      }
      var n: nat, k: nat := 0, w;
      while k > 0
        invariant k <= w && n == FromLe(h[p + k..p + w])
      {
        k := k - 1;
        assert h[p + k..p + w][1..] == h[p + k + 1..p + w];
        n := h[p + k] + 256 * n;
      }
      p := p + w;
      r := Ok(n);
    }

    method ReadStr() returns (r: Result<Text>)
      modifies this`p
      ensures Is(GetStr(h, old(p)), r, p)
    {
      var len := Pod(4);
      if len.Err? {
        return Err(len.error);
      }
      if p + len.value > |h| {
        return Err(Truncated);
      }
      r := Ok(h[p..p + len.value]);
      p := p + len.value;
    }

    method ReadValue() returns (r: Result<MetaValue>)
      modifies this`p
      ensures Is(GetValue(h, old(p)), r, p)
    {
      var kind := Pod(1);
      if kind.Err? {
        return Err(kind.error);
      }
      if kind.value == 0 {
        var n := Pod(8);
        r := if n.Err? then Err(n.error) else Ok(Int(FromWord(n.value, U64)));
      } else if kind.value == 1 {
        var n := Pod(8);
        r := if n.Err? then Err(n.error) else Ok(Float(n.value));
      } else {
        var s := ReadStr();
        r := if s.Err? then Err(s.error) else Ok(Str(s.value));
      }
    }

    method ReadEntries(n: nat) returns (r: Result<seq<Entry>>)
      modifies this`p
      ensures Is(GetEntries(h, old(p), n, []), r, p)
    {
      var acc, i := [], 0;
      while i < n
        invariant i <= n && GetEntries(h, old(p), n, []) == GetEntries(h, p, n - i, acc)
      {
        var key := ReadStr();
        if key.Err? {
          return Err(key.error);
        }
        var value := ReadValue();
        if value.Err? {
          return Err(value.error);
        }
        acc := acc + [Entry(key.value, value.value)];
        i := i + 1;
      }
      r := Ok(acc);
    }

    method ReadDims(n: nat) returns (r: Result<seq<int>>)
      modifies this`p
      ensures Is(GetDims(h, old(p), n, []), r, p)
    {
      var acc, i := [], 0;
      while i < n
        invariant i <= n && GetDims(h, old(p), n, []) == GetDims(h, p, n - i, acc)
      {
        var d := Pod(8);
        if d.Err? {
          return Err(d.error);
        }
        acc := acc + [FromWord(d.value, U64)];
        i := i + 1;
      }
      r := Ok(acc);
    }

    method ReadRecord(size: nat) returns (r: Result<TensorInfo>)
      modifies this`p
      ensures Is(GetRecord(h, old(p), size), r, p)
    {
      var name := ReadStr();
      if name.Err? {
        return Err(name.error);
      }
      var dtype := Pod(4);
      if dtype.Err? {
        return Err(dtype.error);
      }
      var ndim := Pod(4);
      if ndim.Err? {
        return Err(ndim.error);
      }
      var shape := ReadDims(ndim.value);
      if shape.Err? {
        return Err(shape.error);
      }
      var offset := Pod(8);
      if offset.Err? {
        return Err(offset.error);
      }
      var nbytes := Pod(8);
      if nbytes.Err? {
        return Err(nbytes.error);
      }
      if (offset.value + nbytes.value) % U64 > size {
        return Err(PastEof);
      }
      r := Ok(TensorInfo(name.value, FromWord(dtype.value, U32), shape.value, offset.value, nbytes.value));
    }

    method ReadRecords(n: nat, size: nat) returns (r: Result<seq<TensorInfo>>)
      modifies this`p
      ensures Is(GetRecords(h, old(p), n, size, []), r, p)
    {
      hide GetRecord;
      var acc, i := [], 0;
      while i < n
        invariant i <= n && GetRecords(h, old(p), n, size, []) == GetRecords(h, p, n - i, size, acc)
      {
        var t := ReadRecord(size);
        if t.Err? {
          return Err(t.error);
        }
        acc := acc + [t.value];
        i := i + 1;
      }
      r := Ok(acc);
    }
  }

  /** Opens a file. */
  method Open(file: seq<Byte>) returns (r: Result<ModelFile>)
    ensures r == Opened(file)
  {
    hide GetEntries, GetRecords, MetaMap, IndexMap;
    var reader := new Reader(Prefix(file));
    var magic := reader.Pod(4);
    if magic.Err? {
      return Err(magic.error);
    }
    if magic.value != MAGIC {
      return Err(BadMagic);
    }
    var version := reader.Pod(4);
    if version.Err? {
      return Err(version.error);
    }
    if version.value != VERSION {
      return Err(BadVersion);
    }
    var nMeta := reader.Pod(4);
    if nMeta.Err? {
      return Err(nMeta.error);
    }
    var nTensor := reader.Pod(4);
    if nTensor.Err? {
      return Err(nTensor.error);
    }
    var es := reader.ReadEntries(nMeta.value);
    if es.Err? {
      return Err(es.error);
    }
    var ts := reader.ReadRecords(nTensor.value, |file|);
    if ts.Err? {
      return Err(ts.error);
    }
    r := Ok(ModelFile(file, MetaMap(es.value, |es.value|), ts.value, IndexMap(ts.value, |ts.value|)));
  }

  // ---- a read within a shorter prefix --------------------------------------------

  /** On the first `l` bytes a read that ends at `e` still succeeds if it ends in time, and runs out
      of header otherwise. */
  predicate CutRead<T(==)>(full: Read<T>, cut: Read<T>, l: nat) {
    full.Ok? ==> cut == if full.value.1 <= l then full else Err(Truncated)
  }

  lemma {:induction false} CutLe(h: seq<Byte>, p: nat, w: nat, l: nat)
    requires l <= |h|
    ensures CutRead(GetLe(h, p, w), GetLe(h[..l], p, w), l)
    ensures GetLe(h, p, w).Ok? ==> p <= GetLe(h, p, w).value.1
  {
    assert p + w <= l ==> h[..l][p..p + w] == h[p..p + w];
  }

  lemma {:induction false} CutStr(h: seq<Byte>, p: nat, l: nat)
    requires l <= |h|
    ensures CutRead(GetStr(h, p), GetStr(h[..l], p), l)
    ensures GetStr(h, p).Ok? ==> p <= GetStr(h, p).value.1
  {
    CutLe(h, p, 4, l);
    match GetLe(h, p, 4)
    case Err(_) =>
    case Ok((n, q)) =>
      assert q + n <= l ==> h[..l][q..q + n] == h[q..q + n];
  }

  lemma {:induction false} CutEntry(h: seq<Byte>, p: nat, l: nat)
    requires l <= |h|
    ensures CutRead(GetEntry(h, p), GetEntry(h[..l], p), l)
    ensures GetEntry(h, p).Ok? ==> p <= GetEntry(h, p).value.1
  {
    hide GetLe, GetStr;
    CutStr(h, p, l);
    match GetStr(h, p)
    case Err(_) =>
    case Ok((key, q)) =>
      CutLe(h, q, 1, l);
      match GetLe(h, q, 1)
      case Err(_) =>
      case Ok((kind, r)) =>
        CutLe(h, r, 8, l);
        CutStr(h, r, l);
  }

  lemma {:induction false} CutEntries(h: seq<Byte>, p: nat, n: nat, acc: seq<Entry>, l: nat)
    requires l <= |h| && p <= l
    ensures CutRead(GetEntries(h, p, n, acc), GetEntries(h[..l], p, n, acc), l)
    ensures GetEntries(h, p, n, acc).Ok? ==> p <= GetEntries(h, p, n, acc).value.1
    decreases n
  {
    hide GetEntry;
    if n > 0 {
      CutEntry(h, p, l);
      match GetEntry(h, p)
      case Err(_) =>
      case Ok((e, q)) =>
        EntriesForward(h, q, n - 1, acc + [e]);
        if q <= l {
          CutEntries(h, q, n - 1, acc + [e], l);
        }
    }
  }

  lemma {:induction false} EntriesForward(h: seq<Byte>, p: nat, n: nat, acc: seq<Entry>)
    ensures GetEntries(h, p, n, acc).Ok? ==> p <= GetEntries(h, p, n, acc).value.1
    decreases n
  {
    hide GetEntry;
    if n > 0 {
      CutEntry(h, p, 0);
      match GetEntry(h, p)
      case Err(_) =>
      case Ok((e, q)) =>
        EntriesForward(h, q, n - 1, acc + [e]);
    }
  }

  lemma {:induction false} DimsForward(h: seq<Byte>, p: nat, n: nat, acc: seq<int>)
    ensures GetDims(h, p, n, acc).Ok? ==> p <= GetDims(h, p, n, acc).value.1
    decreases n
  {
    hide GetLe;
    if n > 0 {
      CutLe(h, p, 8, 0);
      match GetLe(h, p, 8)
      case Err(_) =>
      case Ok((d, q)) =>
        DimsForward(h, q, n - 1, acc + [FromWord(d, U64)]);
    }
  }

  lemma {:induction false} CutDims(h: seq<Byte>, p: nat, n: nat, acc: seq<int>, l: nat)
    requires l <= |h| && p <= l
    ensures CutRead(GetDims(h, p, n, acc), GetDims(h[..l], p, n, acc), l)
    decreases n
  {
    hide GetLe;
    if n > 0 {
      CutLe(h, p, 8, l);
      match GetLe(h, p, 8)
      case Err(_) =>
      case Ok((d, q)) =>
        DimsForward(h, q, n - 1, acc + [FromWord(d, U64)]);
        if q <= l {
          CutDims(h, q, n - 1, acc + [FromWord(d, U64)], l);
        }
    }
  }

  lemma {:induction false} CutExtent(h: seq<Byte>, p: nat, size: nat, name: Text, dtype: int, shape: seq<int>, l: nat)
    requires l <= |h|
    ensures CutRead(GetExtent(h, p, size, name, dtype, shape), GetExtent(h[..l], p, size, name, dtype, shape), l)
    ensures GetExtent(h, p, size, name, dtype, shape).Ok? ==> p <= GetExtent(h, p, size, name, dtype, shape).value.1
  {
    hide GetLe;
    CutLe(h, p, 8, l);
    match GetLe(h, p, 8)
    case Err(_) =>
    case Ok((offset, q)) =>
      CutLe(h, q, 8, l);
  }

  lemma {:induction false} CutRecord(h: seq<Byte>, p: nat, size: nat, l: nat)
    requires l <= |h|
    ensures CutRead(GetRecord(h, p, size), GetRecord(h[..l], p, size), l)
    ensures GetRecord(h, p, size).Ok? ==> p <= GetRecord(h, p, size).value.1
  {
    hide GetLe, GetStr, GetDims, GetExtent;
    CutStr(h, p, l);
    match GetStr(h, p)
    case Err(_) =>
    case Ok((name, p1)) =>
      CutLe(h, p1, 4, l);
      match GetLe(h, p1, 4)
      case Err(_) =>
      case Ok((dtype, p2)) =>
        CutLe(h, p2, 4, l);
        match GetLe(h, p2, 4)
        case Err(_) =>
        case Ok((ndim, p3)) =>
          DimsForward(h, p3, ndim, []);
          if p3 <= l {
            CutDims(h, p3, ndim, [], l);
          }
          match GetDims(h, p3, ndim, [])
          case Err(_) =>
          case Ok((shape, p4)) =>
            CutExtent(h, p4, size, name, FromWord(dtype, U32), shape, l);
  }

  lemma {:induction false} RecordsForward(h: seq<Byte>, p: nat, n: nat, size: nat, acc: seq<TensorInfo>)
    ensures GetRecords(h, p, n, size, acc).Ok? ==> p <= GetRecords(h, p, n, size, acc).value.1
    decreases n
  {
    hide GetRecord;
    if n > 0 {
      CutRecord(h, p, size, 0);
      match GetRecord(h, p, size)
      case Err(_) =>
      case Ok((t, q)) =>
        RecordsForward(h, q, n - 1, size, acc + [t]);
    }
  }

  lemma {:induction false} CutRecords(h: seq<Byte>, p: nat, n: nat, size: nat, acc: seq<TensorInfo>, l: nat)
    requires l <= |h| && p <= l
    ensures CutRead(GetRecords(h, p, n, size, acc), GetRecords(h[..l], p, n, size, acc), l)
    decreases n
  {
    hide GetRecord;
    if n > 0 {
      CutRecord(h, p, size, l);
      match GetRecord(h, p, size)
      case Err(_) =>
      case Ok((t, q)) =>
        RecordsForward(h, q, n - 1, size, acc + [t]);
        if q <= l {
          CutRecords(h, q, n - 1, size, acc + [t], l);
        }
    }
  }

  // ---- reading what was written --------------------------------------------------

  predicate At(h: seq<Byte>, p: nat, b: seq<Byte>) {
    p + |b| <= |h| && h[p..p + |b|] == b
  }

  lemma {:induction false} AtParts(h: seq<Byte>, p: nat, a: seq<Byte>, b: seq<Byte>)
    requires At(h, p, a + b)
    ensures At(h, p, a) && At(h, p + |a|, b)
  {
    var all := h[p..p + |a + b|];
    assert all == a + b;
    assert h[p..p + |a|] == all[..|a|];
    assert h[p + |a|..p + |a| + |b|] == all[|a|..];
  }

  lemma {:induction false} LeAt(h: seq<Byte>, p: nat, n: nat, w: nat)
    requires At(h, p, Le(n, w)) && n < Pow256(w)
    ensures GetLe(h, p, w) == Ok((n, p + w))
  {
    LeRoundTrip(n, w);
  }

  lemma {:induction false} StrAt(h: seq<Byte>, p: nat, s: Text)
    requires At(h, p, StrBytes(s)) && |s| < U32
    ensures GetStr(h, p) == Ok((s, p + |StrBytes(s)|))
  {
    hide GetLe, Le;
    Widths();
    AtParts(h, p, Le(|s|, 4), s);
    LeAt(h, p, |s|, 4);
  }

  lemma {:induction false} ValueAt(h: seq<Byte>, p: nat, v: MetaValue)
    requires At(h, p, ValueBytes(v)) && ValueFits(v)
    ensures GetValue(h, p) == Ok((v, p + |ValueBytes(v)|))
  {
    hide GetLe, GetStr, Le, StrBytes, ToWord, FromWord;
    Widths();
    match v
    case Int(i) =>
      AtParts(h, p, Le(0, 1), Le(ToWord(i, U64), 8));
      WordRoundTrip(i, U64);
      LeAt(h, p, 0, 1);
      LeAt(h, p + 1, ToWord(i, U64), 8);
    case Float(bits) =>
      AtParts(h, p, Le(1, 1), Le(bits, 8));
      LeAt(h, p, 1, 1);
      LeAt(h, p + 1, bits, 8);
    case Str(s) =>
      AtParts(h, p, Le(2, 1), StrBytes(s));
      LeAt(h, p, 2, 1);
      StrAt(h, p + 1, s);
  }

  lemma {:induction false} EntryAt(h: seq<Byte>, p: nat, e: Entry)
    requires At(h, p, EntryBytes(e)) && EntryFits(e)
    ensures GetEntry(h, p) == Ok((e, p + |EntryBytes(e)|))
  {
    hide GetStr, GetValue, StrBytes, ValueBytes;
    AtParts(h, p, StrBytes(e.key), ValueBytes(e.value));
    StrAt(h, p, e.key);
    ValueAt(h, p + |StrBytes(e.key)|, e.value);
  }

  lemma {:induction false} EntryPiece(h: seq<Byte>, p: nat, meta: seq<Entry>, i: nat, n: nat)
    requires i < n <= |meta| && At(h, p, MetaBytes(meta, n))
    ensures At(h, p + |MetaBytes(meta, i)|, EntryBytes(meta[i]))
    decreases n
  {
    hide EntryBytes;
    AtParts(h, p, MetaBytes(meta, n - 1), EntryBytes(meta[n - 1]));
    if i < n - 1 {
      EntryPiece(h, p, meta, i, n - 1);
    }
  }

  lemma {:induction false} EntriesAt(h: seq<Byte>, p: nat, meta: seq<Entry>, i: nat)
    requires i <= |meta| && At(h, p, MetaBytes(meta, |meta|)) && forall k | 0 <= k < |meta| :: EntryFits(meta[k])
    ensures GetEntries(h, p + |MetaBytes(meta, i)|, |meta| - i, meta[..i]) == Ok((meta, p + |MetaBytes(meta, |meta|)|))
    decreases |meta| - i
  {
    hide GetEntry, EntryBytes, EntryFits;
    if i < |meta| {
      EntryPiece(h, p, meta, i, |meta|);
      EntryAt(h, p + |MetaBytes(meta, i)|, meta[i]);
      EntriesAt(h, p, meta, i + 1);
      assert meta[..i] + [meta[i]] == meta[..i + 1];
    } else {
      assert meta[..i] == meta;
    }
  }

  lemma {:induction false} DimPiece(h: seq<Byte>, p: nat, shape: seq<int>, i: nat, n: nat)
    requires i < n <= |shape| && At(h, p, DimBytes(shape, n))
    ensures At(h, p + 8 * i, Le(ToWord(shape[i], U64), 8))
    decreases n
  {
    hide Le, ToWord;
    AtParts(h, p, DimBytes(shape, n - 1), Le(ToWord(shape[n - 1], U64), 8));
    if i < n - 1 {
      DimPiece(h, p, shape, i, n - 1);
    }
  }

  lemma {:induction false} DimsAt(h: seq<Byte>, p: nat, shape: seq<int>, i: nat)
    requires i <= |shape| && At(h, p, DimBytes(shape, |shape|)) && forall d | 0 <= d < |shape| :: -I63 <= shape[d] < I63
    ensures GetDims(h, p + 8 * i, |shape| - i, shape[..i]) == Ok((shape, p + 8 * |shape|))
    decreases |shape| - i
  {
    hide Le, ToWord, FromWord, GetLe;
    if i < |shape| {
      Widths();
      DimPiece(h, p, shape, i, |shape|);
      WordRoundTrip(shape[i], U64);
      LeAt(h, p + 8 * i, ToWord(shape[i], U64), 8);
      DimsAt(h, p, shape, i + 1);
      assert shape[..i] + [shape[i]] == shape[..i + 1];
    } else {
      assert shape[..i] == shape;
    }
  }

  /** How the reader lists tensor `t`. */
  function InfoOf(t: Tensor, offset: nat): TensorInfo {
    TensorInfo(t.name, t.dtype, t.shape, offset, |t.data|)
  }

  lemma {:induction false} RecordAt(h: seq<Byte>, p: nat, t: Tensor, offset: nat, size: nat)
    requires At(h, p, RecordBytes(t, offset)) && TensorFits(t) && offset + |t.data| <= size < U64
    ensures GetRecord(h, p, size) == Ok((InfoOf(t, offset), p + |RecordBytes(t, offset)|))
  {
    hide Le, ToWord, FromWord, GetLe, GetStr, GetDims, StrBytes, DimBytes;
    Widths();
    var name, dtype, ndim, dims := StrBytes(t.name), Le(ToWord(t.dtype, U32), 4), Le(|t.shape|, 4), DimBytes(t.shape, |t.shape|);
    AtParts(h, p, RecordHead(t) + Le(offset, 8), Le(|t.data|, 8));
    AtParts(h, p, RecordHead(t), Le(offset, 8));
    AtParts(h, p, name + dtype + ndim, dims);
    AtParts(h, p, name + dtype, ndim);
    AtParts(h, p, name, dtype);
    StrAt(h, p, t.name);
    WordRoundTrip(t.dtype, U32);
    LeAt(h, p + |name|, ToWord(t.dtype, U32), 4);
    LeAt(h, p + |name| + 4, |t.shape|, 4);
    DimsAt(h, p + |name| + 8, t.shape, 0);
    assert t.shape[..0] == [];
    LeAt(h, p + |RecordHead(t)|, offset, 8);
    LeAt(h, p + |RecordHead(t)| + 8, |t.data|, 8);
  }

  lemma {:induction false} RecordPiece(h: seq<Byte>, p: nat, ts: seq<Tensor>, offsets: seq<nat>, i: nat, n: nat)
    requires i < n <= |ts| && n <= |offsets| && At(h, p, DirBytes(ts, offsets, n))
    ensures At(h, p + |DirBytes(ts, offsets, i)|, RecordBytes(ts[i], offsets[i]))
    decreases n
  {
    hide RecordBytes;
    AtParts(h, p, DirBytes(ts, offsets, n - 1), RecordBytes(ts[n - 1], offsets[n - 1]));
    if i < n - 1 {
      RecordPiece(h, p, ts, offsets, i, n - 1);
    }
  }

  function Infos(ts: seq<Tensor>, offsets: seq<nat>): (infos: seq<TensorInfo>)
    requires |offsets| == |ts|
    ensures |infos| == |ts| && forall i | 0 <= i < |ts| :: infos[i] == InfoOf(ts[i], offsets[i])
  {
    seq(|ts|, i requires 0 <= i < |ts| => InfoOf(ts[i], offsets[i]))
  }

  lemma {:induction false} DirGrows(ts: seq<Tensor>, offsets: seq<nat>, i: nat)
    requires i < |ts| && i < |offsets|
    ensures |DirBytes(ts, offsets, i + 1)| == |DirBytes(ts, offsets, i)| + |RecordBytes(ts[i], offsets[i])|
  {
  }

  lemma {:induction false} RecordsAt(h: seq<Byte>, p: nat, ts: seq<Tensor>, offsets: seq<nat>, size: nat, i: nat)
    requires i <= |ts| == |offsets| && At(h, p, DirBytes(ts, offsets, |ts|)) && size < U64
    requires forall k | 0 <= k < |ts| :: TensorFits(ts[k]) && offsets[k] + |ts[k].data| <= size
    ensures GetRecords(h, p + |DirBytes(ts, offsets, i)|, |ts| - i, size, Infos(ts, offsets)[..i])
         == Ok((Infos(ts, offsets), p + |DirBytes(ts, offsets, |ts|)|))
    decreases |ts| - i
  {
    hide GetRecord, RecordBytes, TensorFits, InfoOf, At, DirBytes, Infos;
    var infos := Infos(ts, offsets);
    if i < |ts| {
      RecordPiece(h, p, ts, offsets, i, |ts|);
      RecordAt(h, p + |DirBytes(ts, offsets, i)|, ts[i], offsets[i], size);
      RecordsAt(h, p, ts, offsets, size, i + 1);
      DirGrows(ts, offsets, i);
      assert infos[..i] + [infos[i]] == infos[..i + 1];
    } else {
      assert infos[..i] == infos;
    }
  }

  lemma {:induction false} AtCut(h: seq<Byte>, p: nat, b: seq<Byte>, l: nat)
    requires At(h, p, b) && p + |b| <= l <= |h|
    ensures At(h[..l], p, b)
  {
    assert h[..l][p..p + |b|] == h[p..p + |b|];
  }

  /** The preconditions of the writer's casts: what fits the fields that hold it. */
  ghost predicate Writable(meta: seq<Entry>, ts: seq<Tensor>) {
    && |meta| < U32 && |ts| < U32 && |FileBytes(meta, ts, |ts|)| < U64
    && (forall k | 0 <= k < |meta| :: EntryFits(meta[k])) && forall k | 0 <= k < |ts| :: TensorFits(ts[k])
  }

  /** The parts of a written file, where they are. */
  lemma {:induction false} FileParts(meta: seq<Entry>, ts: seq<Tensor>)
    ensures var f, offsets := FileBytes(meta, ts, |ts|), Offsets(ts, DataStart(meta, ts));
            && At(f, 0, Le(MAGIC, 4)) && At(f, 4, Le(VERSION, 4)) && At(f, 8, Le(|meta|, 4)) && At(f, 12, Le(|ts|, 4))
            && At(f, 16, MetaBytes(meta, |meta|)) && At(f, |Preamble(meta, ts)|, DirBytes(ts, offsets, |ts|))
            && |Preamble(meta, ts)| == 16 + |MetaBytes(meta, |meta|)|
            && HeaderEnd(meta, ts) == |Preamble(meta, ts)| + |DirBytes(ts, offsets, |ts|)| <= |f|
  {
    hide Le, MetaBytes, DirBytes, FileBytes, RoundUp64, DirSize, Offsets;
    var f, offsets := FileBytes(meta, ts, |ts|), Offsets(ts, DataStart(meta, ts));
    DirLength(ts, offsets, |ts|);
    var h, pad := Header(meta, ts), Zeros(DataStart(meta, ts) - HeaderEnd(meta, ts));
    assert h == Preamble(meta, ts) + DirBytes(ts, offsets, |ts|) + pad;
    assert At(f, 0, h);
    AtParts(f, 0, Preamble(meta, ts) + DirBytes(ts, offsets, |ts|), pad);
    AtParts(f, 0, Preamble(meta, ts), DirBytes(ts, offsets, |ts|));
    PreambleParts(f, meta, ts);
  }

  lemma {:induction false} PreambleParts(f: seq<Byte>, meta: seq<Entry>, ts: seq<Tensor>)
    requires At(f, 0, Preamble(meta, ts))
    ensures At(f, 0, Le(MAGIC, 4)) && At(f, 4, Le(VERSION, 4)) && At(f, 8, Le(|meta|, 4)) && At(f, 12, Le(|ts|, 4))
    ensures At(f, 16, MetaBytes(meta, |meta|))
  {
    hide Le, MetaBytes;
    var a, b, c, d := Le(MAGIC, 4), Le(VERSION, 4), Le(|meta|, 4), Le(|ts|, 4);
    AtParts(f, 0, a + b + c + d, MetaBytes(meta, |meta|));
    AtParts(f, 0, a + b + c, d);
    AtParts(f, 0, a + b, c);
    AtParts(f, 0, a, b);
  }

  lemma {:induction false} CountsAt(f: seq<Byte>, meta: seq<Entry>, ts: seq<Tensor>)
    requires |meta| < U32 && |ts| < U32
    requires At(f, 0, Le(MAGIC, 4)) && At(f, 4, Le(VERSION, 4)) && At(f, 8, Le(|meta|, 4)) && At(f, 12, Le(|ts|, 4))
    ensures GetCounts(f) == Ok((|meta|, |ts|))
  {
    hide Le, GetLe;
    Widths();
    LeAt(f, 0, MAGIC, 4);
    LeAt(f, 4, VERSION, 4);
    LeAt(f, 8, |meta|, 4);
    LeAt(f, 12, |ts|, 4);
  }

  lemma {:induction false} CountsWritten(meta: seq<Entry>, ts: seq<Tensor>, l: nat)
    requires Writable(meta, ts) && 16 <= l <= |FileBytes(meta, ts, |ts|)|
    ensures GetCounts(FileBytes(meta, ts, |ts|)[..l]) == Ok((|meta|, |ts|))
  {
    hide Le, FileBytes, GetCounts;
    var f := FileBytes(meta, ts, |ts|);
    FileParts(meta, ts);
    AtCut(f, 0, Le(MAGIC, 4), l);
    AtCut(f, 4, Le(VERSION, 4), l);
    AtCut(f, 8, Le(|meta|, 4), l);
    AtCut(f, 12, Le(|ts|, 4), l);
    CountsAt(f[..l], meta, ts);
  }

  lemma {:induction false} EntriesFull(meta: seq<Entry>, ts: seq<Tensor>)
    requires Writable(meta, ts)
    ensures GetEntries(FileBytes(meta, ts, |ts|), 16, |meta|, []) == Ok((meta, |Preamble(meta, ts)|))
  {
    hide FileBytes, Preamble, GetEntries, EntryFits, TensorFits, Offsets, DataStart, HeaderEnd, DirBytes, MetaBytes, Le;
    FileParts(meta, ts);
    NothingYet(meta, ts, []);
    EntriesAt(FileBytes(meta, ts, |ts|), 16, meta, 0);
  }

  lemma {:induction false} EntriesWritten(meta: seq<Entry>, ts: seq<Tensor>, l: nat)
    requires Writable(meta, ts) && 16 <= l <= |FileBytes(meta, ts, |ts|)|
    ensures GetEntries(FileBytes(meta, ts, |ts|)[..l], 16, |meta|, [])
         == if |Preamble(meta, ts)| <= l then Ok((meta, |Preamble(meta, ts)|)) else Err(Truncated)
  {
    hide FileBytes, Preamble, GetEntries, Writable;
    EntriesFull(meta, ts);
    CutEntries(FileBytes(meta, ts, |ts|), 16, |meta|, [], l);
  }

  lemma {:induction false} TensorsFit(meta: seq<Entry>, ts: seq<Tensor>)
    requires Writable(meta, ts)
    ensures |FileBytes(meta, ts, |ts|)| < U64 && forall k | 0 <= k < |ts| :: TensorFits(ts[k])
  {
    hide FileBytes, TensorFits, EntryFits;
  }

  lemma {:induction false} RecordsFull(meta: seq<Entry>, ts: seq<Tensor>)
    requires Writable(meta, ts)
    ensures GetRecords(FileBytes(meta, ts, |ts|), |Preamble(meta, ts)|, |ts|, |FileBytes(meta, ts, |ts|)|, [])
         == Ok((Infos(ts, Offsets(ts, DataStart(meta, ts))), HeaderEnd(meta, ts)))
  {
    hide *;
    var f, offsets := FileBytes(meta, ts, |ts|), Offsets(ts, DataStart(meta, ts));
    FileParts(meta, ts);
    NothingYet(meta, ts, offsets);
    DataInside(meta, ts);
    TensorsFit(meta, ts);
    RecordsAt(f, |Preamble(meta, ts)|, ts, offsets, |f|, 0);
  }

  lemma {:induction false} RecordsWritten(meta: seq<Entry>, ts: seq<Tensor>, l: nat)
    requires Writable(meta, ts) && |Preamble(meta, ts)| <= l <= |FileBytes(meta, ts, |ts|)|
    ensures GetRecords(FileBytes(meta, ts, |ts|)[..l], |Preamble(meta, ts)|, |ts|, |FileBytes(meta, ts, |ts|)|, [])
         == if HeaderEnd(meta, ts) <= l then Ok((Infos(ts, Offsets(ts, DataStart(meta, ts))), HeaderEnd(meta, ts))) else Err(Truncated)
  {
    hide FileBytes, Preamble, HeaderEnd, DataStart, GetRecords, Writable, Offsets, Infos;
    RecordsFull(meta, ts);
    CutRecords(FileBytes(meta, ts, |ts|), |Preamble(meta, ts)|, |ts|, |FileBytes(meta, ts, |ts|)|, [], l);
  }

  /** A written file opens exactly when its header ends within the prefix that is read; then the
      tables are those that were written. */
  lemma {:induction false} OpenWritten(meta: seq<Entry>, ts: seq<Tensor>)
    requires Writable(meta, ts)
    ensures var f, infos := FileBytes(meta, ts, |ts|), Infos(ts, Offsets(ts, DataStart(meta, ts)));
            Opened(f) == if HeaderEnd(meta, ts) <= PREFIX
                         then Ok(ModelFile(f, MetaMap(meta, |meta|), infos, IndexMap(infos, |infos|)))
                         else Err(Truncated)
  {
    hide FileBytes, Preamble, HeaderEnd, DataStart, GetEntries, GetRecords, GetCounts, MetaMap, IndexMap, Offsets, Infos, Writable;
    var f := FileBytes(meta, ts, |ts|);
    var l := |Prefix(f)|;
    assert Prefix(f) == f[..l];
    FileParts(meta, ts);
    CountsWritten(meta, ts, l);
    EntriesWritten(meta, ts, l);
    if |Preamble(meta, ts)| <= l {
      RecordsWritten(meta, ts, l);
    }
  }

  lemma {:induction false} NothingYet(meta: seq<Entry>, ts: seq<Tensor>, offsets: seq<nat>)
    ensures MetaBytes(meta, 0) == [] && meta[..0] == [] && DirBytes(ts, offsets, 0) == []
    ensures |offsets| == |ts| ==> Infos(ts, offsets)[..0] == []
  {
  }

  lemma {:induction false} DataInside(meta: seq<Entry>, ts: seq<Tensor>)
    ensures var f, offsets := FileBytes(meta, ts, |ts|), Offsets(ts, DataStart(meta, ts));
            forall k | 0 <= k < |ts| :: offsets[k] + |ts[k].data| <= |f| && f[offsets[k]..offsets[k] + |ts[k].data|] == ts[k].data
  {
    hide FileBytes, OffsetAt, DataStart;
    forall k | 0 <= k < |ts|
      ensures var f, offsets := FileBytes(meta, ts, |ts|), Offsets(ts, DataStart(meta, ts));
              offsets[k] + |ts[k].data| <= |f| && f[offsets[k]..offsets[k] + |ts[k].data|] == ts[k].data
    {
      DataInPlace(meta, ts, |ts|, k);
    }
  }

  predicate DistinctKeys(meta: seq<Entry>) {
    forall j, k | 0 <= j < k < |meta| :: meta[j].key != meta[k].key
  }

  predicate DistinctNames(ts: seq<Tensor>) {
    forall j, k | 0 <= j < k < |ts| :: ts[j].name != ts[k].name
  }

  lemma {:induction false} IndexAt(infos: seq<TensorInfo>, n: nat, i: nat)
    requires i < n <= |infos| && forall j, k | 0 <= j < k < |infos| :: infos[j].name != infos[k].name
    ensures infos[i].name in IndexMap(infos, n) && IndexMap(infos, n)[infos[i].name] == i
  {
    if i < n - 1 {
      IndexAt(infos, n - 1, i);
    }
  }

  lemma {:induction false} MetaAt(meta: seq<Entry>, n: nat, i: nat)
    requires i < n <= |meta| && DistinctKeys(meta)
    ensures meta[i].key in MetaMap(meta, n) && MetaMap(meta, n)[meta[i].key] == meta[i].value
  {
    if i < n - 1 {
      MetaAt(meta, n - 1, i);
    } else {
      NotEarlier(meta, n - 1, meta[i].key);
    }
  }

  lemma {:induction false} NotEarlier(meta: seq<Entry>, n: nat, key: Text)
    requires n <= |meta| && forall k | 0 <= k < n :: meta[k].key != key
    ensures key !in MetaMap(meta, n)
  {
    if n > 0 {
      NotEarlier(meta, n - 1, key);
    }
  }

  /** `t` is found by its name, and its bytes are read back from an aligned offset. */
  ghost predicate Restored(m: ModelFile, t: Tensor) {
    match Find(m, t.name)
    case None => false
    case Some(info) =>
      && info.dtype == t.dtype && info.shape == t.shape && info.nbytes == |t.data| && info.offset % 64 == 0
      && ReadRaw(m, info) == Ok(t.data)
  }

  lemma {:induction false} TensorRestored(meta: seq<Entry>, ts: seq<Tensor>, m: ModelFile, i: nat)
    requires i < |ts| && DistinctNames(ts) && m.bytes == FileBytes(meta, ts, |ts|)
    requires m.tensors == Infos(ts, Offsets(ts, DataStart(meta, ts))) && m.index == IndexMap(m.tensors, |m.tensors|)
    ensures Restored(m, ts[i])
  {
    hide FileBytes, DataStart, IndexMap, RoundUp64, Restored, OffsetAt, Infos, Offsets;
    StartAligned(meta, ts);
    DataInPlace(meta, ts, |ts|, i);
    NamesOfInfos(ts, Offsets(ts, DataStart(meta, ts)));
    IndexAt(m.tensors, |m.tensors|, i);
    OffsetAligned(ts, DataStart(meta, ts), i);
    IsRestored(m, ts[i], i);
  }

  lemma {:induction false} NamesOfInfos(ts: seq<Tensor>, offsets: seq<nat>)
    requires |offsets| == |ts| && DistinctNames(ts)
    ensures forall j, k | 0 <= j < k < |ts| :: Infos(ts, offsets)[j].name != Infos(ts, offsets)[k].name
  {
    hide Infos;
  }

  lemma {:induction false} IsRestored(m: ModelFile, t: Tensor, i: nat)
    requires i < |m.tensors| && t.name in m.index && m.index[t.name] == i
    requires m.tensors[i] == InfoOf(t, m.tensors[i].offset) && m.tensors[i].offset % 64 == 0
    requires m.tensors[i].offset + |t.data| <= |m.bytes|
    requires m.bytes[m.tensors[i].offset..m.tensors[i].offset + |t.data|] == t.data
    ensures Restored(m, t)
  {
  }

  lemma {:induction false} StartAligned(meta: seq<Entry>, ts: seq<Tensor>)
    ensures DataStart(meta, ts) % 64 == 0
  {
    hide RoundUp64, HeaderEnd;
  }

  /** Writing and opening again gives back the metadata, and under its name every tensor with its
      type, shape and bytes. */
  lemma {:induction false} RoundTrip(meta: seq<Entry>, ts: seq<Tensor>, m: ModelFile)
    requires Writable(meta, ts) && HeaderEnd(meta, ts) <= PREFIX && Opened(FileBytes(meta, ts, |ts|)) == Ok(m)
    requires DistinctKeys(meta) && DistinctNames(ts)
    ensures forall i | 0 <= i < |meta| :: meta[i].key in m.meta && m.meta[meta[i].key] == meta[i].value
    ensures |m.tensors| == |ts| && forall i | 0 <= i < |ts| :: Restored(m, ts[i])
  {
    hide FileBytes, DataStart, HeaderEnd, Opened, Writable, MetaMap, IndexMap, Restored, Offsets, Infos, DistinctKeys, DistinctNames;
    OpenWritten(meta, ts);
    forall i | 0 <= i < |meta|
      ensures meta[i].key in m.meta && m.meta[meta[i].key] == meta[i].value
    {
      MetaAt(meta, |meta|, i);
    }
    forall i | 0 <= i < |ts|
      ensures Restored(m, ts[i])
    {
      TensorRestored(meta, ts, m, i);
    }
  }
}
