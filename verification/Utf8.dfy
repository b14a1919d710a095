/**
Strings by rune and by byte: the Go runtime decodes a string to runes and slices those, the C runtime
counts the bytes that start a rune and slices the bytes. The encoding is that of section 3 of RFC 3629.
*/
module Utf8 {
  import opened Wrappers
  import opened Bytes

  // A Unicode scalar value.
  type Rune = r: int | (0 <= r < 0xD800 || 0xE000 <= r <= 0x10FFFF)

  function Encode(r: Rune): Bytes {
    if r < 0x80 then [r]
    else if r < 0x800 then [0xC0 + r / 64, 0x80 + r % 64]
    else if r < 0x1_0000 then [0xE0 + r / 4096, 0x80 + r / 64 % 64, 0x80 + r % 64]
    else [0xF0 + r / 0x4_0000, 0x80 + r / 4096 % 64, 0x80 + r / 64 % 64, 0x80 + r % 64]
  }

  function EncodeAll(rs: seq<Rune>): Bytes { if rs == [] then [] else Encode(rs[0]) + EncodeAll(rs[1..]) }

  // ----- The Go runtime: decode, slice, encode -----

  const REPLACEMENT: Rune := 0xFFFD

  predicate In(s: Bytes, i: nat, lo: int, hi: int) { i < |s| && lo <= s[i] <= hi }

  predicate Cont(s: Bytes, i: nat) { In(s, i, 0x80, 0xBF) }

  // The bits of byte i above the mark.
  function Bits(s: Bytes, i: nat, mark: int): int
    requires i < |s|
  {
    var b: int := s[i];
    b - mark
  }

  // The first rune of s and its length; a byte that starts no rune counts as a replacement by itself.
  function First(s: Bytes): (Rune, nat)
    requires s != []
  {
    var b: int := s[0];
    if b < 0x80 then (b, 1)
    else if 0xC2 <= b <= 0xDF && Cont(s, 1) then (Bits(s, 0, 0xC0) * 64 + Bits(s, 1, 0x80), 2)
    else if 0xE0 <= b <= 0xEF && In(s, 1, if b == 0xE0 then 0xA0 else 0x80, if b == 0xED then 0x9F else 0xBF) && Cont(s, 2) then
      (Bits(s, 0, 0xE0) * 4096 + Bits(s, 1, 0x80) * 64 + Bits(s, 2, 0x80), 3)
    else if 0xF0 <= b <= 0xF4 && In(s, 1, if b == 0xF0 then 0x90 else 0x80, if b == 0xF4 then 0x8F else 0xBF) && Cont(s, 2) && Cont(s, 3) then
      (Bits(s, 0, 0xF0) * 0x4_0000 + Bits(s, 1, 0x80) * 4096 + Bits(s, 2, 0x80) * 64 + Bits(s, 3, 0x80), 4)
    else (REPLACEMENT, 1)
  }

  function Decode(s: Bytes): seq<Rune> {
    if s == [] then [] else
    var (r, n) := First(s);
    [r] + Decode(s[n..])
  }

  function StrSlice(s: Bytes, start: int, end: int): Option<Bytes> {
    var runes := Decode(s);
    if start < 0 || end < start || end > |runes| then None else Some(EncodeAll(runes[start..end]))
  }

  function StrGet(s: Bytes, i: int): Option<Bytes> {
    var runes := Decode(s);
    if i < 0 || i >= |runes| then None else Some(Encode(runes[i]))
  }

  // ----- Encoding and decoding -----

  lemma Digits(r: int)
    requires 0 <= r
    ensures r == r / 64 * 64 + r % 64 && r / 64 == r / 4096 * 64 + r / 64 % 64
    ensures r / 4096 == r / 0x4_0000 * 64 + r / 4096 % 64
  {
    assert r / 64 / 64 == r / 4096 && r / 4096 / 64 == r / 0x4_0000;
  }

  lemma DecodeOne(r: Rune, rest: Bytes)
    ensures First(Encode(r) + rest) == (r, |Encode(r)|)
  {
    Digits(r);
    var s := Encode(r) + rest;
    if r < 0x80 {
      assert s[0] == r;
    } else if r < 0x800 {
      assert s[0] == 0xC0 + r / 64 && s[1] == 0x80 + r % 64;
    } else if r < 0x1_0000 {
      DecodeThree(r, s);
    } else {
      DecodeFour(r, s);
    }
  }

  lemma DecodeThree(r: Rune, s: Bytes)
    requires 0x800 <= r < 0x1_0000 && |s| >= 3 && s[..3] == Encode(r)
    ensures First(s) == (r, 3)
  {
    Digits(r);
    assert s[0] == s[..3][0] == 0xE0 + r / 4096 && s[1] == s[..3][1] == 0x80 + r / 64 % 64 && s[2] == s[..3][2] == 0x80 + r % 64;
  }

  lemma DecodeFour(r: Rune, s: Bytes)
    requires 0x1_0000 <= r && |s| >= 4 && s[..4] == Encode(r)
    ensures First(s) == (r, 4)
  {
    Digits(r);
    assert s[0] == s[..4][0] == 0xF0 + r / 0x4_0000 && s[1] == s[..4][1] == 0x80 + r / 4096 % 64;
    assert s[2] == s[..4][2] == 0x80 + r / 64 % 64 && s[3] == s[..4][3] == 0x80 + r % 64;
  }

  lemma {:induction false} DecodeEncode(rs: seq<Rune>)
    ensures Decode(EncodeAll(rs)) == rs
  {
    if rs != [] {
      var rest := EncodeAll(rs[1..]);
      DecodeOne(rs[0], rest);
      DecodeEncode(rs[1..]);
      assert (Encode(rs[0]) + rest)[|Encode(rs[0])|..] == rest;
    }
  }

  lemma {:induction false} EncodeSplit(a: seq<Rune>, b: seq<Rune>)
    ensures EncodeAll(a + b) == EncodeAll(a) + EncodeAll(b)
  {
    if a == [] {
      assert a + b == b;
    } else {
      assert (a + b)[0] == a[0] && (a + b)[1..] == a[1..] + b;
      EncodeSplit(a[1..], b);
    }
  }

  // ----- The C runtime: counting the bytes that start a rune -----

  // Not a continuation byte: its two high bits are not 10.
  predicate Starts(b: byte) { b / 64 != 2 }

  function CountStarts(s: Bytes): nat {
    if s == [] then 0 else CountStarts(s[..|s| - 1]) + (if Starts(s[|s| - 1]) then 1 else 0)
  }

  // Where the rune of that index starts, or the end.
  predicate IsOffset(s: Bytes, idx: int, off: nat) {
    && off <= |s|
    && (off < |s| ==> Starts(s[off]) && CountStarts(s[..off]) == idx)
    && (forall i :: 0 <= i < off ==> !(Starts(s[i]) && CountStarts(s[..i]) == idx))
  }

  // The first such place, looked for from i on.
  function OffsetFrom(s: Bytes, idx: int, i: nat): (off: nat)
    requires i <= |s|
    ensures off <= |s|
    decreases |s| - i
  {
    if i == |s| || (Starts(s[i]) && CountStarts(s[..i]) == idx) then i else OffsetFrom(s, idx, i + 1)
  }

  function Offset(s: Bytes, idx: int): nat { OffsetFrom(s, idx, 0) }

  lemma {:induction false} OffsetFound(s: Bytes, idx: int, i: nat)
    requires i <= |s| && forall j :: 0 <= j < i ==> !(Starts(s[j]) && CountStarts(s[..j]) == idx)
    ensures IsOffset(s, idx, OffsetFrom(s, idx, i))
    decreases |s| - i
  {
    if i < |s| && !(Starts(s[i]) && CountStarts(s[..i]) == idx) { OffsetFound(s, idx, i + 1); }
  }

  method Utf8Len(s: Bytes) returns (count: int)
    ensures count == CountStarts(s)
  {
    count := 0;
    var i := 0;
    while i < |s|
      invariant 0 <= i <= |s| && count == CountStarts(s[..i])
    {
      assert s[..i + 1][..i] == s[..i];
      if Starts(s[i]) { count := count + 1; }
      i := i + 1;
    }
    assert s[..i] == s;
  }

  method RuneOffset(s: Bytes, idx: int) returns (off: nat)
    ensures off == Offset(s, idx)
  {
    var cur := 0;
    var i := 0;
    while i < |s|
      invariant 0 <= i <= |s| && cur == CountStarts(s[..i]) && Offset(s, idx) == OffsetFrom(s, idx, i)
    {
      assert s[..i + 1][..i] == s[..i];
      if Starts(s[i]) {
        if cur == idx { return i; }
        cur := cur + 1;
      }
      i := i + 1;
    }
    off := |s|;
  }

  // On an encoding, starting bytes count runes, and offsets fall between their encodings.

  lemma {:induction false} CountSplit(a: Bytes, b: Bytes)
    ensures CountStarts(a + b) == CountStarts(a) + CountStarts(b)
  {
    if b == [] {
      assert a + b == a;
    } else {
      var n := |b| - 1;
      assert (a + b)[..|a + b| - 1] == a + b[..n];
      CountSplit(a, b[..n]);
    }
  }

  lemma OneStart(r: Rune, k: nat)
    requires k <= |Encode(r)|
    ensures Starts(Encode(r)[0]) && forall i :: 0 < i < |Encode(r)| ==> !Starts(Encode(r)[i])
    ensures CountStarts(Encode(r)[..k]) == if k == 0 then 0 else 1
  {
    if k > 0 {
      assert Encode(r)[..k][..k - 1] == Encode(r)[..k - 1];
      OneStart(r, k - 1);
    }
  }

  lemma {:induction false} CountRunes(rs: seq<Rune>)
    ensures CountStarts(EncodeAll(rs)) == |rs|
  {
    if rs != [] {
      CountRunes(rs[1..]);
      CountSplit(Encode(rs[0]), EncodeAll(rs[1..]));
      OneStart(rs[0], |Encode(rs[0])|);
      assert Encode(rs[0])[..|Encode(rs[0])|] == Encode(rs[0]);
    }
  }

  // Fewer bytes hold no more starts, and one fewer than a start holds fewer.
  lemma CountMonotone(s: Bytes, i: nat, j: nat)
    requires i <= j <= |s|
    ensures CountStarts(s[..i]) <= CountStarts(s[..j])
  {
    CountSplit(s[..i], s[i..j]);
    assert s[..i] + s[i..j] == s[..j];
  }

  lemma StartCounts(s: Bytes, i: nat, j: nat)
    requires i < j <= |s| && Starts(s[i])
    ensures CountStarts(s[..i]) < CountStarts(s[..j])
  {
    assert s[..i + 1][..i] == s[..i];
    CountMonotone(s, i + 1, j);
  }

  lemma {:induction false} OffsetIs(rs: seq<Rune>, k: nat)
    requires k <= |rs|
    ensures Offset(EncodeAll(rs), k) == |EncodeAll(rs[..k])|
  {
    OffsetFound(EncodeAll(rs), k, 0);
    var off := Offset(EncodeAll(rs), k);
    var s, head, tail := EncodeAll(rs), EncodeAll(rs[..k]), EncodeAll(rs[k..]);
    var n := |head|;
    assert rs[..k] + rs[k..] == rs;
    EncodeSplit(rs[..k], rs[k..]);
    CountRunes(rs[..k]);
    assert s[..n] == head;
    if off < n { StartCounts(s, off, n); }
    if n < |s| {
      assert rs[k..] != [];
      OneStart(rs[k], 0);
      assert Starts(s[n]);
    }
  }

  // On any bytes, the offsets are ordered, so that the length of the slice is not negative.
  lemma OffsetsOrdered(s: Bytes, a: int, b: int)
    requires 0 <= a <= b
    ensures Offset(s, a) <= Offset(s, b)
  {
    OffsetFound(s, a, 0);
    OffsetFound(s, b, 0);
    if Offset(s, b) < |s| && a < b {
      var i := FirstAt(s, a, Offset(s, b));
    }
  }

  // A prefix with more starts than idx holds the start of that index.
  lemma {:induction false} FirstAt(s: Bytes, idx: nat, n: nat) returns (i: nat)
    requires n <= |s| && CountStarts(s[..n]) > idx
    ensures i < n && Starts(s[i]) && CountStarts(s[..i]) == idx
    decreases n
  {
    assert s[..n][..n - 1] == s[..n - 1];
    if CountStarts(s[..n - 1]) > idx {
      i := FirstAt(s, idx, n - 1);
    } else {
      i := n - 1;
    }
  }

  lemma {:induction false} Between(rs: seq<Rune>, a: nat, b: nat)
    requires a <= b <= |rs|
    ensures var (i, j) := (|EncodeAll(rs[..a])|, |EncodeAll(rs[..b])|);
            i <= j <= |EncodeAll(rs)| && EncodeAll(rs)[i..j] == EncodeAll(rs[a..b])
  {
    var x, y, z := EncodeAll(rs[..a]), EncodeAll(rs[a..b]), EncodeAll(rs[b..]);
    assert rs[..b] == rs[..a] + rs[a..b] && rs == rs[..b] + rs[b..];
    EncodeSplit(rs[..a], rs[a..b]);
    EncodeSplit(rs[..b], rs[b..]);
    Middle(x, y, z);
  }

  lemma Middle(x: Bytes, y: Bytes, z: Bytes)
    ensures (x + y + z)[|x|..|x + y|] == y
  {}

  // ----- Ranges of runes -----

  // The bounds by count, the bytes between two offsets.
  function CSlice(s: Bytes, a: int, b: int): Option<Bytes> {
    if a < 0 || b < a || b > CountStarts(s) then None else
    OffsetsOrdered(s, a, b);
    Some(s[Offset(s, a)..Offset(s, b)])
  }

  function CGet(s: Bytes, i: int): Option<Bytes> { if i < 0 then None else CSlice(s, i, i + 1) }

  lemma {:induction false} SliceIs(s: Bytes, a: int, b: int)
    requires 0 <= a <= b <= CountStarts(s)
    ensures Offset(s, a) <= Offset(s, b) && CSlice(s, a, b) == Some(s[Offset(s, a)..Offset(s, b)])
  {
    OffsetsOrdered(s, a, b);
  }

  // On a valid string: the encoding of the range of runes, or of the rune, as in the Go runtime.
  ghost predicate IsRange(s: Bytes, a: int, b: int, r: Option<Bytes>) {
    forall rs :: s == EncodeAll(rs) ==>
      r == StrSlice(s, a, b) == if a < 0 || b < a || b > |rs| then None else Some(EncodeAll(rs[a..b]))
  }

  ghost predicate IsRune(s: Bytes, i: int, r: Option<Bytes>) {
    forall rs :: s == EncodeAll(rs) ==> r == StrGet(s, i) == if i < 0 || i >= |rs| then None else Some(Encode(rs[i]))
  }

  method VSlice(s: Bytes, a: int, b: int) returns (r: Option<Bytes>)
    ensures r == CSlice(s, a, b) && IsRange(s, a, b, r)
  {
    ValidSlice(s, a, b);
    var total := Utf8Len(s);
    if a < 0 || b < a || b > total { return None; }
    var off1 := RuneOffset(s, a);
    var off2 := RuneOffset(s, b);
    SliceIs(s, a, b);
    r := Some(s[off1..off2]);
  }

  method VStrGet(s: Bytes, i: int) returns (r: Option<Bytes>)
    ensures r == CGet(s, i) && IsRune(s, i, r)
  {
    ValidGet(s, i);
    var total := Utf8Len(s);
    if i < 0 || i >= total { return None; }
    var off1 := RuneOffset(s, i);
    var off2 := RuneOffset(s, i + 1);
    SliceIs(s, i, i + 1);
    r := Some(s[off1..off2]);
  }

  // On every valid string both runtimes give the encoding of the range of runes.
  lemma {:induction false} SliceOfRunes(rs: seq<Rune>, a: int, b: int)
    ensures CSlice(EncodeAll(rs), a, b) == StrSlice(EncodeAll(rs), a, b) ==
            if a < 0 || b < a || b > |rs| then None else Some(EncodeAll(rs[a..b]))
  {
    DecodeEncode(rs);
    CountRunes(rs);
    if 0 <= a <= b <= |rs| {
      OffsetIs(rs, a);
      OffsetIs(rs, b);
      Between(rs, a, b);
    }
  }

  lemma ValidSlice(s: Bytes, a: int, b: int)
    ensures IsRange(s, a, b, CSlice(s, a, b))
  {
    forall rs | s == EncodeAll(rs)
      ensures CSlice(s, a, b) == StrSlice(s, a, b) == if a < 0 || b < a || b > |rs| then None else Some(EncodeAll(rs[a..b]))
    {
      SliceOfRunes(rs, a, b);
    }
  }

  lemma ValidGet(s: Bytes, i: int)
    ensures IsRune(s, i, CGet(s, i))
  {
    forall rs | s == EncodeAll(rs)
      ensures CGet(s, i) == StrGet(s, i) == if i < 0 || i >= |rs| then None else Some(Encode(rs[i]))
    {
      GetOfRunes(rs, i);
    }
  }

  lemma EncodeOne(r: Rune)
    ensures EncodeAll([r]) == Encode(r)
  {
    assert [r][1..] == [] && EncodeAll([r][1..]) == [];
  }

  lemma {:induction false} GetOfRunes(rs: seq<Rune>, i: int)
    ensures CGet(EncodeAll(rs), i) == StrGet(EncodeAll(rs), i) == if i < 0 || i >= |rs| then None else Some(Encode(rs[i]))
  {
    DecodeEncode(rs);
    SliceOfRunes(rs, i, i + 1);
    if 0 <= i < |rs| {
      EncodeOne(rs[i]);
      assert rs[i..i + 1] == [rs[i]];
    }
  }

  // ----- On any bytes -----

  // How many continuation bytes the Go runtime decodes by themselves, one replacement each.
  function Lone(s: Bytes): nat {
    if s == [] then 0 else (if Starts(s[0]) then 0 else 1) + Lone(s[First(s).1..])
  }

  lemma {:induction false} CountDecoded(s: Bytes)
    ensures |Decode(s)| == CountStarts(s) + Lone(s)
  {
    if s != [] {
      var n := First(s).1;
      CountDecoded(s[n..]);
      assert s == s[..n] + s[n..];
      CountSplit(s[..n], s[n..]);
      OneStartFirst(s, n);
    }
  }

  lemma Follows(s: Bytes, i: nat)
    requires s != [] && 0 < i < First(s).1
    ensures First(s).1 <= |s| && !Starts(s[i])
  {}

  // No byte of a decoded rune starts another one.
  lemma {:induction false} OneStartFirst(s: Bytes, k: nat)
    requires s != [] && 0 < k <= First(s).1
    ensures First(s).1 <= |s| && CountStarts(s[..k]) == if Starts(s[0]) then 1 else 0
  {
    assert s[..k][..k - 1] == s[..k - 1];
    if k > 1 {
      OneStartFirst(s, k - 1);
      Follows(s, k - 1);
    } else {
      assert s[..0] == [];
    }
  }

  // Once both runtimes count alike, the first rune starts the string and the last one ends it.
  lemma {:induction false} WholeRange(s: Bytes)
    requires |Decode(s)| == CountStarts(s)
    ensures Offset(s, 0) == 0 && Offset(s, |Decode(s)|) == |s|
  {
    CountDecoded(s);
    if s != [] { assert Starts(s[0]) && s[..0] == []; }
    var off := Offset(s, |Decode(s)|);
    OffsetFound(s, |Decode(s)|, 0);
    assert s[..|s|] == s;
    if off < |s| { StartCounts(s, off, |s|); }
  }

  predicate Utf8Valid(s: Bytes) { s == EncodeAll(Decode(s)) }

  ghost predicate SliceAlike(s: Bytes) { forall a, b :: CSlice(s, a, b) == StrSlice(s, a, b) }

  ghost predicate GetAlike(s: Bytes) { forall i :: CGet(s, i) == StrGet(s, i) }

  // The encodings are exactly the strings that come back from decoding.
  lemma ValidIsEncoded(s: Bytes)
    ensures Utf8Valid(s) <==> exists rs :: s == EncodeAll(rs)
  {
    if rs :| s == EncodeAll(rs) { DecodeEncode(rs); }
  }

  // The two runtimes take the same slices of a string, for all bounds, exactly if it is valid UTF-8.
  lemma SlicesAgreeExactly(s: Bytes)
    ensures SliceAlike(s) <==> Utf8Valid(s)
  {
    var n := |Decode(s)|;
    if Utf8Valid(s) {
      forall a, b ensures CSlice(s, a, b) == StrSlice(s, a, b) { SliceOfRunes(Decode(s), a, b); }
    }
    if SliceAlike(s) {
      CountDecoded(s);
      assert StrSlice(s, 0, n) == Some(EncodeAll(Decode(s)[0..n])) == CSlice(s, 0, n);
      WholeRange(s);
      assert Decode(s)[0..n] == Decode(s) && s[0..|s|] == s;
    }
  }

  // And the same runes by index.
  lemma GetsAgreeExactly(s: Bytes)
    ensures GetAlike(s) <==> Utf8Valid(s)
  {
    var runes := Decode(s);
    if Utf8Valid(s) {
      forall i ensures CGet(s, i) == StrGet(s, i) { GetOfRunes(runes, i); }
    }
    if GetAlike(s) {
      CountDecoded(s);
      assert CGet(s, CountStarts(s)) == StrGet(s, CountStarts(s)) == None;
      WholeRange(s);
      RestAgrees(s, 0);
      assert runes[0..] == runes && s[0..] == s;
    }
  }

  lemma {:induction false} RestAgrees(s: Bytes, i: nat)
    requires GetAlike(s) && |Decode(s)| == CountStarts(s) && i <= |Decode(s)|
    ensures Offset(s, i) <= |s| && s[Offset(s, i)..] == EncodeAll(Decode(s)[i..])
    decreases |Decode(s)| - i
  {
    var runes := Decode(s);
    if i == |runes| {
      WholeRange(s);
    } else {
      RestAgrees(s, i + 1);
      var x, y := Offset(s, i), Offset(s, i + 1);
      OffsetsOrdered(s, i, i + 1);
      assert CGet(s, i) == StrGet(s, i) == Some(Encode(runes[i]));
      assert s[x..] == s[x..y] + s[y..];
      assert runes[i..][0] == runes[i] && runes[i..][1..] == runes[i + 1..];
    }
  }
}
