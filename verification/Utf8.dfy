/** UTF-8 decoding with stand-alone invalid bytes, and the chunks the pre-tokenizers cut. */
module Utf8 {
  import opened Regex
  import opened PreTokenizing

  type Byte = b: nat | b < 256

  /** Classes beyond ASCII are those of the Unicode tables: any function will do. */
  function Classify(uni: nat -> Class, cp: nat): Class {
    if cp < 128 then
      if 65 <= cp <= 90 || 97 <= cp <= 122 then Letter
      else if 48 <= cp <= 57 then Number
      else if cp == 32 || 9 <= cp <= 13 then Space
      else Other
    else uni(cp)
  }

  const DIGITS := "0123456789"
  const UPPER := "ABCDEFGHIJKLMNOPQRSTUVWXYZ"
  const LOWER := "abcdefghijklmnopqrstuvwxyz"
  const SPACES := " \t\n\U{00000B}\U{00000C}\r"

  /** A run of consecutive characters. */
  predicate Consecutive(s: string, first: char) {
    forall i | 0 <= i < |s| :: s[i] as int == first as int + i
  }

  lemma {:induction false} InRun(s: string, first: char, c: char)
    requires Consecutive(s, first)
    ensures c in s <==> first as int <= c as int < first as int + |s|
  {
    if first as int <= c as int < first as int + |s| {
      assert s[c as int - first as int] == c;
    }
  }

  lemma {:induction false} Runs()
    ensures Consecutive(DIGITS, '0') && |DIGITS| == 10 && Consecutive(UPPER, 'A') && |UPPER| == 26 && Consecutive(LOWER, 'a') && |LOWER| == 26
  {
  }

  lemma {:induction false} SpacesAre(c: char)
    ensures c in SPACES <==> c == ' ' || 9 <= c as int <= 13
  {
    if 9 <= c as int <= 13 {
      assert SPACES[c as int - 8] == c;
    }
  }

  /** Among the ASCII characters exactly these are numbers, letters and white space. */
  lemma {:induction false} AsciiClasses(uni: nat -> Class, cp: nat)
    requires cp < 128
    ensures Classify(uni, cp) == Number <==> cp as char in DIGITS
    ensures Classify(uni, cp) == Letter <==> cp as char in UPPER || cp as char in LOWER
    ensures Classify(uni, cp) == Space <==> cp as char in SPACES
  {
    var c := cp as char;
    Runs();
    SpacesAre(c);
    hide Consecutive;
    InRun(DIGITS, '0', c);
    InRun(UPPER, 'A', c);
    InRun(LOWER, 'a', c);
  }

  predicate Continuation(d: Byte) { 128 <= d < 192 }

  /** Length a lead byte announces; 0 if it is none. */
  function LeadLen(c: Byte): nat {
    if 192 <= c < 248 then if c >= 240 then 4 else if c >= 224 then 3 else 2 else 0
  }

  /** Payload bits of a lead byte. */
  function LeadBits(c: Byte): nat
    requires LeadLen(c) > 0
  {
    if LeadLen(c) == 2 then c % 32 else if LeadLen(c) == 3 then c % 16 else c % 8
  }

  /** The value of `k` bytes from `i`: six bits of each continuation byte. */
  function Value(s: seq<Byte>, i: nat, k: nat): nat
    requires 0 < k && i + k <= |s| && LeadLen(s[i]) > 0
  {
    if k == 1 then LeadBits(s[i]) else Value(s, i, k - 1) * 64 + s[i + k - 1] % 64
  }

  /** A whole encoded sequence stands at `i`. */
  predicate Sequence(s: seq<Byte>, i: nat)
    requires i < |s|
  {
    && LeadLen(s[i]) > 0 && i + LeadLen(s[i]) <= |s|
    && forall k | i < k < i + LeadLen(s[i]) :: Continuation(s[k])
  }

  /** The codepoint at `i`: ASCII, a whole sequence, or one invalid byte on its own. */
  function CpAt(s: seq<Byte>, i: nat, uni: nat -> Class): (r: Cp)
    requires i < |s|
    ensures r.off == i && 0 < r.len && i + r.len <= |s|
  {
    if s[i] < 128 then Cp(s[i], i, 1, Classify(uni, s[i]))
    else if Sequence(s, i) then
      Cp(Value(s, i, LeadLen(s[i])), i, LeadLen(s[i]), Classify(uni, Value(s, i, LeadLen(s[i]))))
    else Cp(s[i], i, 1, Other)
  }

  /** The codepoints cover the first `n` bytes, one behind the other. */
  ghost predicate Decoded(c: seq<Cp>, s: seq<Byte>, n: nat, uni: nat -> Class)
    decreases |c|
  {
    if c == [] then n == 0
    else
      var last := c[|c| - 1];
      last.off < |s| && last == CpAt(s, last.off, uni) && n == last.off + last.len
      && Decoded(c[..|c| - 1], s, last.off, uni)
  }

  lemma {:induction false} DecodedClassified(c: seq<Cp>, s: seq<Byte>, n: nat, uni: nat -> Class)
    requires Decoded(c, s, n, uni)
    ensures Classified(c)
    decreases |c|
  {
    if c != [] {
      var m := |c| - 1;
      DecodedClassified(c[..m], s, c[m].off, uni);
      assert c == c[..m] + [c[m]];
      assert c[m] == CpAt(s, c[m].off, uni);
    }
  }

  /** One codepoint: the loop over continuation bytes. */
  method DecodeOne(s: seq<Byte>, i: nat, uni: nat -> Class) returns (r: Cp)
    requires i < |s|
    ensures r == CpAt(s, i, uni)
  {
    var c := s[i];
    if 192 <= c < 248 {
      var len: nat := if c >= 240 then 4 else if c >= 224 then 3 else 2;
      var cp: nat := if len == 2 then c % 32 else if len == 3 then c % 16 else c % 8;
      var ok := i + len <= |s|;
      var k := 1;
      while ok && k < len
        invariant 1 <= k <= len == LeadLen(c) && (i + len <= |s| || !ok)
        invariant ok ==> cp == Value(s, i, k) && forall x | i < x < i + k :: Continuation(s[x])
        invariant !ok ==> !Sequence(s, i)
        decreases len - k, ok
      {
        var d := s[i + k];
        ok := 128 <= d < 192;
        cp := cp * 64 + d % 64;
        k := k + 1;
      }
      if !ok {
        return Cp(c, i, 1, Other);
      }
      return Cp(cp, i, len, Classify(uni, cp));
    }
    if c >= 128 {
      return Cp(c, i, 1, Other);
    }
    return Cp(c, i, 1, Classify(uni, c));
  }

  method DecodeUtf8(s: seq<Byte>, uni: nat -> Class) returns (c: seq<Cp>)
    ensures Decoded(c, s, |s|, uni) && Classified(c)
  {
    c := [];
    var i := 0;
    while i < |s|
      invariant i <= |s| && Decoded(c, s, i, uni)
    {
      var cp := DecodeOne(s, i, uni);
      assert (c + [cp])[..|c|] == c;
      c := c + [cp];
      i := i + cp.len;
    }
    DecodedClassified(c, s, |s|, uni);
  }

  // ---- well-formed text ----------------------------------------------------------

  /** UTF-8 of a codepoint (RFC 3629, section 3). */
  function Utf8(cp: nat): (r: seq<Byte>)
    requires cp < 0x110000
    ensures 0 < |r| <= 4
  {
    if cp < 0x80 then [cp]
    else if cp < 0x800 then [0xC0 + cp / 64, 0x80 + cp % 64]
    else if cp < 0x10000 then [0xE0 + cp / 4096, 0x80 + cp / 64 % 64, 0x80 + cp % 64]
    else [0xF0 + cp / 262144, 0x80 + cp / 4096 % 64, 0x80 + cp / 64 % 64, 0x80 + cp % 64]
  }

  /** The first value that no longer fits a form of `k` bytes. */
  function FormBound(k: nat): nat {
    if k == 2 then 0x800 else if k == 3 then 0x10000 else 0x200000
  }

  /** A value in a form of `k` bytes, be it longer than the shortest. */
  function Form(k: nat, v: nat): seq<Byte>
    requires 2 <= k <= 4 && v < FormBound(k)
  {
    if k == 2 then [0xC0 + v / 64, 0x80 + v % 64]
    else if k == 3 then [0xE0 + v / 4096, 0x80 + v / 64 % 64, 0x80 + v % 64]
    else [0xF0 + v / 262144, 0x80 + v / 4096 % 64, 0x80 + v / 64 % 64, 0x80 + v % 64]
  }

  predicate FormAt(s: seq<Byte>, i: nat, k: nat, v: nat) {
    2 <= k <= 4 && v < FormBound(k) && i + k <= |s| && s[i..i + k] == Form(k, v)
  }

  /** Six bits at a time. */
  function Joined(k: nat, a: nat, b: nat, c: nat, d: nat): nat {
    if k == 2 then a * 64 + b else if k == 3 then (a * 64 + b) * 64 + c else ((a * 64 + b) * 64 + c) * 64 + d
  }

  lemma {:induction false} ValueIs(s: seq<Byte>, i: nat, k: nat)
    requires 2 <= k <= 4 && i + k <= |s| && LeadLen(s[i]) > 0
    ensures Value(s, i, k) == Joined(k, LeadBits(s[i]), s[i + 1] % 64, if k > 2 then s[i + 2] % 64 else 0, if k > 3 then s[i + 3] % 64 else 0)
  {
    hide LeadBits, LeadLen;
    assert Value(s, i, 1) == LeadBits(s[i]);
    assert Value(s, i, 2) == Value(s, i, 1) * 64 + s[i + 1] % 64;
    if k > 2 {
      assert Value(s, i, 3) == Value(s, i, 2) * 64 + s[i + 2] % 64;
    }
  }

  /** A number in base 64. */
  lemma {:induction false} Digits64(v: nat)
    ensures v == v / 64 * 64 + v % 64
    ensures v / 64 == v / 4096 * 64 + v / 64 % 64
    ensures v / 4096 == v / 262144 * 64 + v / 4096 % 64
  {
  }

  lemma {:induction false} Digit(a: nat, b: nat)
    requires b < 64
    ensures (a * 64 + b) / 64 == a && (a * 64 + b) % 64 == b
  {
  }

  lemma {:induction false} DivDiv(v: nat)
    ensures v / 4096 == v / 64 / 64 && v / 262144 == v / 64 / 64 / 64
  {
  }

  /** Lead and continuation bytes, and what they carry. */
  lemma {:induction false} LeadByte(k: nat, x: nat)
    requires (k == 2 && x < 32) || (k == 3 && x < 16) || (k == 4 && x < 8)
    ensures var c := (if k == 2 then 0xC0 else if k == 3 then 0xE0 else 0xF0) + x; LeadLen(c) == k && LeadBits(c) == x
  {
  }

  lemma {:induction false} LeadFrom(c: Byte)
    requires LeadLen(c) > 0
    ensures var k := LeadLen(c);
            && 2 <= k <= 4 && LeadBits(c) < (if k == 2 then 32 else if k == 3 then 16 else 8)
            && c == (if k == 2 then 0xC0 else if k == 3 then 0xE0 else 0xF0) + LeadBits(c)
  {
  }

  lemma {:induction false} TailByte(y: nat)
    requires y < 64
    ensures Continuation(0x80 + y) && (0x80 + y) % 64 == y
  {
  }

  lemma {:induction false} TailFrom(c: Byte)
    requires Continuation(c)
    ensures c == 0x80 + c % 64
  {
  }

  lemma {:induction false} Form2(a: nat, b: nat)
    requires a < 32 && b < 64
    ensures a * 64 + b < 0x800 && Form(2, a * 64 + b) == [0xC0 + a, 0x80 + b]
  {
    Digit(a, b);
  }

  lemma {:induction false} Form3(a: nat, b: nat, c: nat)
    requires a < 16 && b < 64 && c < 64
    ensures var v := (a * 64 + b) * 64 + c; v < 0x10000 && Form(3, v) == [0xE0 + a, 0x80 + b, 0x80 + c]
  {
    Digit(a, b);
    Digit(a * 64 + b, c);
    DivDiv((a * 64 + b) * 64 + c);
  }

  lemma {:induction false} Form4(a: nat, b: nat, c: nat, d: nat)
    requires a < 8 && b < 64 && c < 64 && d < 64
    ensures var v := ((a * 64 + b) * 64 + c) * 64 + d; v < 0x200000 && Form(4, v) == [0xF0 + a, 0x80 + b, 0x80 + c, 0x80 + d]
  {
    Digit(a, b);
    Digit(a * 64 + b, c);
    Digit((a * 64 + b) * 64 + c, d);
    DivDiv(((a * 64 + b) * 64 + c) * 64 + d);
  }

  /** The lead byte of a form tells its length, and its bytes hold the value's digits. */
  lemma {:induction false} FormParts(k: nat, v: nat)
    requires 2 <= k <= 4 && v < FormBound(k)
    ensures var f := Form(k, v);
            && |f| == k && f[0] >= 128 && LeadLen(f[0]) == k && (forall j | 1 <= j < k :: Continuation(f[j]))
            && v == Joined(k, LeadBits(f[0]), f[1] % 64, if k > 2 then f[2] % 64 else 0, if k > 3 then f[3] % 64 else 0)
  {
    hide LeadLen, LeadBits, Continuation;
    Digits64(v);
    LeadByte(k, if k == 2 then v / 64 else if k == 3 then v / 4096 else v / 262144);
    TailByte(v % 64);
    TailByte(v / 64 % 64);
    TailByte(v / 4096 % 64);
  }

  /** Bytes that announce and continue a form are one. */
  lemma {:induction false} FormFrom(k: nat, f: seq<Byte>)
    requires 2 <= k <= 4 && |f| == k && LeadLen(f[0]) == k && forall j | 1 <= j < k :: Continuation(f[j])
    ensures var v := Joined(k, LeadBits(f[0]), f[1] % 64, if k > 2 then f[2] % 64 else 0, if k > 3 then f[3] % 64 else 0);
            v < FormBound(k) && f == Form(k, v)
  {
    LeadFrom(f[0]);
    hide LeadLen, LeadBits, Continuation, Form;
    var a, b := LeadBits(f[0]), f[1] % 64;
    TailFrom(f[1]);
    if k == 2 {
      Form2(a, b);
    } else {
      var c := f[2] % 64;
      TailFrom(f[2]);
      if k == 3 {
        Form3(a, b, c);
      } else {
        TailFrom(f[3]);
        Form4(a, b, c, f[3] % 64);
      }
    }
  }

  lemma {:induction false} FormIsSequence(s: seq<Byte>, i: nat, k: nat, v: nat)
    requires FormAt(s, i, k, v)
    ensures s[i] >= 128 && Sequence(s, i) && LeadLen(s[i]) == k && Value(s, i, k) == v
  {
    hide Form, FormBound, LeadLen, LeadBits, Value, Joined, Continuation;
    FormParts(k, v);
    assert forall j | i <= j < i + k :: s[j] == s[i..i + k][j - i];
    assert s[i + 1] == Form(k, v)[1] && (k > 2 ==> s[i + 2] == Form(k, v)[2]) && (k > 3 ==> s[i + 3] == Form(k, v)[3]);
    ValueIs(s, i, k);
  }

  lemma {:induction false} SequenceIsForm(s: seq<Byte>, i: nat)
    requires i < |s| && Sequence(s, i)
    ensures FormAt(s, i, LeadLen(s[i]), Value(s, i, LeadLen(s[i])))
  {
    var k := LeadLen(s[i]);
    assert 2 <= k <= 4;
    hide Form, FormBound, LeadLen, LeadBits, Value, Joined, Continuation;
    var f := s[i..i + k];
    assert f[0] == s[i] && f[1] == s[i + 1] && (k > 2 ==> f[2] == s[i + 2]) && (k > 3 ==> f[3] == s[i + 3]);
    FormFrom(k, f);
    ValueIs(s, i, k);
  }

  /** What is read at a byte beyond ASCII: a form of two to four bytes, the shortest or not, if one
      stands there, and otherwise the byte on its own. */
  lemma {:induction false} CpIff(s: seq<Byte>, i: nat, uni: nat -> Class, r: Cp)
    requires i < |s| && s[i] >= 128
    ensures r == CpAt(s, i, uni) <==>
            if exists k: nat, v: nat :: FormAt(s, i, k, v)
            then FormAt(s, i, r.len, r.cp) && r == Cp(r.cp, i, r.len, Classify(uni, r.cp))
            else r == Cp(s[i], i, 1, Other)
  {
    hide FormAt, Sequence, Value, LeadLen, Classify;
    if k: nat, v: nat :| FormAt(s, i, k, v) {
      FormIsSequence(s, i, k, v);
      SequenceIsForm(s, i);
      if FormAt(s, i, r.len, r.cp) {
        FormIsSequence(s, i, r.len, r.cp);
      }
    } else if Sequence(s, i) {
      SequenceIsForm(s, i);
    }
  }

  /** Decoding finds every encoded codepoint again, wherever it stands. */
  lemma {:induction false} DecodesUtf8(before: seq<Byte>, cp: nat, after: seq<Byte>, uni: nat -> Class)
    requires cp < 0x110000
    ensures CpAt(before + Utf8(cp) + after, |before|, uni) == Cp(cp, |before|, |Utf8(cp)|, Classify(uni, cp))
  {
    var s, i, u := before + Utf8(cp) + after, |before|, Utf8(cp);
    assert s[i..i + |u|] == u;
    if cp >= 0x80 {
      assert u == Form(|u|, cp);
      FormIsSequence(s, i, |u|, cp);
    } else {
      assert s[i] == s[i..i + 1][0] == cp;
    }
  }
}
