/** Base64 as in section 4 of RFC 4648: the two loops and what they compute. */
module Base64 {

  // An `unsigned char`
  type Byte = x: int | 0 <= x < 256

  const UPPER := "ABCDEFGHIJKLMNOPQRSTUVWXYZ"
  const LOWER := "abcdefghijklmnopqrstuvwxyz"
  const REST := "0123456789+/"
  const CHARS := UPPER + LOWER + REST

  // ---------- the alphabet ----------

  predicate IsBase64(c: char) {
    'A' <= c <= 'Z' || 'a' <= c <= 'z' || '0' <= c <= '9' || c == '+' || c == '/'
  }

  predicate AllBase64(t: string) {
    forall i :: 0 <= i < |t| ==> IsBase64(t[i])
  }

  // The character of a six-bit value.
  function Symbol(v: int): (c: char)
    requires 0 <= v < 64
    ensures IsBase64(c)
  {
    if v < 26 then ('A' as int + v) as char
    else if v < 52 then ('a' as int + v - 26) as char
    else if v < 62 then ('0' as int + v - 52) as char
    else if v == 62 then '+'
    else '/'
  }

  // The six-bit value of a character.
  function Sextet(c: char): (v: int)
    requires IsBase64(c)
    ensures 0 <= v < 64 && Symbol(v) == c
  {
    if 'A' <= c <= 'Z' then c as int - 'A' as int
    else if 'a' <= c <= 'z' then c as int - 'a' as int + 26
    else if '0' <= c <= '9' then c as int - '0' as int + 52
    else if c == '+' then 62
    else 63
  }

  lemma SextetOfSymbol(v: int)
    requires 0 <= v < 64
    ensures Sextet(Symbol(v)) == v
  {
  }

  lemma TableIsSymbols(v: int)
    requires 0 <= v < 64
    ensures |CHARS| == 64 && CHARS[v] == Symbol(v)
  {
    assert |UPPER| == 26 && |LOWER| == 26 && |REST| == 12;
    if v < 26 {
      assert UPPER[v] == Symbol(v);
    } else if v < 52 {
      assert LOWER[v - 26] == Symbol(v);
    } else {
      assert REST[v - 52] == Symbol(v);
    }
  }

  // `base64_chars.find(c)` stored in an unsigned char: the position, or 255 for none.
  method FindChar(c: char) returns (v: Byte)
    ensures v == if IsBase64(c) then Sextet(c) else 255
  {
    var i := 0;
    while i < 64
      invariant 0 <= i <= 64
      invariant forall j :: 0 <= j < i ==> Symbol(j) != c
    {
      TableIsSymbols(i);
      if CHARS[i] == c {
        SextetOfSymbol(i);
        return i;
      }
      i := i + 1;
    }
    return 255;
  }

  // ---------- groups of 24 bits ----------

  // Six bits or eight to the digit.
  type Base = b: nat | b == 64 || b == 256 witness 64

  // The value of a sequence of digits, most significant first.
  function Number(ds: seq<nat>, base: Base): nat {
    if ds == [] then 0 else Number(ds[..|ds| - 1], base) * base + ds[|ds| - 1]
  }

  // The last k digits of a value.
  function Digits(v: nat, base: Base, k: nat): (ds: seq<nat>)
    ensures |ds| == k && Below(ds, base)
  {
    if k == 0 then [] else Digits(v / base, base, k - 1) + [v % base]
  }

  predicate Below(ds: seq<nat>, base: Base) {
    forall i :: 0 <= i < |ds| ==> ds[i] < base
  }

  lemma {:induction false} DigitsOfNumber(ds: seq<nat>, base: Base)
    requires Below(ds, base)
    ensures Digits(Number(ds, base), base, |ds|) == ds
  {
    if ds != [] {
      var front, last := ds[..|ds| - 1], ds[|ds| - 1];
      DigitsOfNumber(front, base);
      DivideOut(Number(front, base), base, last);
      assert ds == front + [last];
    }
  }

  lemma DivideOut(q: nat, base: Base, r: nat)
    requires r < base
    ensures (q * base + r) / base == q && (q * base + r) % base == r
  {
    if base == 64 {
      assert (q * 64 + r) / 64 == q;
    } else {
      assert (q * 256 + r) / 256 == q;
    }
  }

  lemma NumberSnoc(ds: seq<nat>, d: nat, base: Base)
    ensures Number(ds + [d], base) == Number(ds, base) * base + d
  {
    assert (ds + [d])[..|ds|] == ds;
  }

  lemma ThreeBytes(b0: nat, b1: nat, b2: nat)
    ensures Number([b0, b1, b2], 256) == 0x10000 * b0 + 0x100 * b1 + b2
  {
    NumberSnoc([], b0, 256);
    NumberSnoc([b0], b1, 256);
    NumberSnoc([b0, b1], b2, 256);
    assert [] + [b0] == [b0] && [b0] + [b1] == [b0, b1] && [b0, b1] + [b2] == [b0, b1, b2];
  }

  lemma FourSextets(s0: nat, s1: nat, s2: nat, s3: nat)
    ensures Number([s0, s1, s2, s3], 64) == 0x40000 * s0 + 0x1000 * s1 + 64 * s2 + s3
  {
    NumberSnoc([], s0, 64);
    NumberSnoc([s0], s1, 64);
    NumberSnoc([s0, s1], s2, 64);
    NumberSnoc([s0, s1, s2], s3, 64);
    assert [] + [s0] == [s0] && [s0] + [s1] == [s0, s1];
    assert [s0, s1] + [s2] == [s0, s1, s2] && [s0, s1, s2] + [s3] == [s0, s1, s2, s3];
  }

  function Text(ds: seq<nat>): (t: string)
    requires Below(ds, 64)
    ensures |t| == |ds| && forall i :: 0 <= i < |t| ==> t[i] == Symbol(ds[i])
  {
    if ds == [] then "" else [Symbol(ds[0])] + Text(ds[1..])
  }

  function Sextets(t: string): (ds: seq<nat>)
    requires AllBase64(t)
    ensures |ds| == |t| && Below(ds, 64) && forall i :: 0 <= i < |t| ==> ds[i] == Sextet(t[i])
  {
    if t == "" then [] else [Sextet(t[0])] + Sextets(t[1..])
  }

  lemma SextetsOfText(ds: seq<nat>)
    requires Below(ds, 64)
    ensures AllBase64(Text(ds)) && Sextets(Text(ds)) == ds
  {
    forall i | 0 <= i < |ds|
      ensures Sextet(Text(ds)[i]) == ds[i]
    {
      SextetOfSymbol(ds[i]);
    }
  }

  lemma TextOfSextets(t: string)
    requires AllBase64(t)
    ensures Text(Sextets(t)) == t
  {
  }

  // ---------- what is computed ----------

  // The four characters of three bytes.
  function Quad(bs: seq<nat>): (t: string)
    ensures |t| == 4
  {
    Text(Digits(Number(bs, 256), 64, 4))
  }

  function Encode(bs: seq<Byte>): string {
    if |bs| == 0 then ""
    else if |bs| == 1 then Quad([bs[0], 0, 0])[..2] + "=="
    else if |bs| == 2 then Quad([bs[0], bs[1], 0])[..3] + "="
    else Quad(bs[..3]) + Encode(bs[3..])
  }

  // The characters before the first that is not in the alphabet.
  function Payload(s: string): (p: string)
    ensures AllBase64(p)
    ensures |p| <= |s|
  {
    if s == "" || !IsBase64(s[0]) then "" else [s[0]] + Payload(s[1..])
  }

  // The three bytes of four sextets.
  function Triple(ds: seq<nat>): (bs: seq<Byte>)
    ensures |bs| == 3
  {
    var v := Digits(Number(ds, 64), 256, 3);
    [v[0], v[1], v[2]]
  }

  function DecodeSextets(ds: seq<nat>): seq<Byte> {
    if |ds| < 2 then []
    else if |ds| == 2 then Triple(ds + [0, 0])[..1]
    else if |ds| == 3 then Triple(ds + [0])[..2]
    else Triple(ds[..4]) + DecodeSextets(ds[4..])
  }

  function Decode(s: string): seq<Byte> {
    DecodeSextets(Sextets(Payload(s)))
  }

  // ---------- the encoder ----------

  function Packed(b0: Byte, b1: Byte, b2: Byte): (ds: seq<nat>)
    ensures |ds| == 4 && Below(ds, 64)
  {
    [b0 / 4, b0 % 4 * 16 + b1 / 16, b1 % 16 * 4 + b2 / 64, b2 % 64]
  }

  lemma PackedIsQuad(b0: Byte, b1: Byte, b2: Byte)
    ensures Number(Packed(b0, b1, b2), 64) == Number([b0, b1, b2], 256)
    ensures Quad([b0, b1, b2]) == Text(Packed(b0, b1, b2))
  {
    var ds := Packed(b0, b1, b2);
    ThreeBytes(b0, b1, b2);
    FourSextets(ds[0], ds[1], ds[2], ds[3]);
    DigitsOfNumber(ds, 64);
  }

  // `char_array_3` into `char_array_4`: the masks and shifts are divisions and remainders.
  method Pack(a3: array<Byte>, a4: array<Byte>)
    requires a3.Length == 3 && a4.Length == 4 && a3 != a4
    modifies a4
    ensures Below(a4[..], 64) && Text(a4[..]) == Quad(a3[..])
  {
    var b0, b1, b2 := a3[0], a3[1], a3[2];
    a4[0] := b0 / 4;
    a4[1] := b0 % 4 * 16 + b1 / 16;
    a4[2] := b1 % 16 * 4 + b2 / 64;
    a4[3] := b2 % 64;
    PackedIsQuad(b0, b1, b2);
    assert a3[..] == [b0, b1, b2] && a4[..] == Packed(b0, b1, b2);
  }

  method Base64Encode(bytes: seq<Byte>) returns (ret: string)
    ensures ret == Encode(bytes)
  {
    ret := "";
    var i, n := 0, 0;
    var a3, a4 := new Byte[3], new Byte[4];
    ghost var rest := bytes;
    while n < |bytes|
      invariant 0 <= i < 3 && i <= n <= |bytes| && rest == bytes[n - i..]
      invariant forall k :: 0 <= k < i ==> a3[k] == rest[k]
      invariant Encode(bytes) == ret + Encode(rest)
    {
      i, ret, rest := EncodeByte(bytes[n], a3, a4, i, ret, rest, Encode(bytes));
      n := n + 1;
    }
    ret := EncodeEnd(a3, a4, i, ret, rest, Encode(bytes));
  }

  // What follows the loop: the bytes of the last group, if there are any.
  method EncodeEnd(a3: array<Byte>, a4: array<Byte>, i: nat, ret: string, ghost rest: seq<Byte>, ghost whole: string)
    returns (text: string)
    requires a3.Length == 3 && a4.Length == 4 && a3 != a4
    requires |rest| == i < 3 && (forall k :: 0 <= k < i ==> a3[k] == rest[k]) && whole == ret + Encode(rest)
    modifies a3, a4
    ensures text == whole
  {
    text := ret;
    if i != 0 {
      var tail := EncodeTail(a3, a4, i, rest);
      text := ret + tail;
    }
  }

  // The body of the loop: one more byte, and a group when there are three.
  method EncodeByte(b: Byte, a3: array<Byte>, a4: array<Byte>, i: nat, ret: string, ghost rest: seq<Byte>, ghost whole: string)
    returns (i': nat, ret': string, ghost rest': seq<Byte>)
    requires a3.Length == 3 && a4.Length == 4 && a3 != a4
    requires i < 3 && i < |rest| && b == rest[i] && (forall k :: 0 <= k < i ==> a3[k] == rest[k]) && whole == ret + Encode(rest)
    modifies a3, a4
    ensures if i == 2 then i' == 0 && rest' == rest[3..] else i' == i + 1 && rest' == rest
    ensures (forall k :: 0 <= k < i' ==> a3[k] == rest'[k]) && whole == ret' + Encode(rest')
  {
    a3[i] := b;
    i', ret', rest' := i + 1, ret, rest;
    if i' == 3 {
      var group := EncodeGroup(a3, a4, rest);
      ret' := ret + group;
      rest' := rest[3..];
      i' := 0;
    }
  }

  method Emit(a4: array<Byte>, k: nat) returns (text: string)
    requires a4.Length == 4 && k <= 4 && Below(a4[..], 64)
    ensures text == Text(a4[..])[..k]
  {
    text := "";
    for j := 0 to k
      invariant text == Text(a4[..])[..j]
    {
      TableIsSymbols(a4[j]);
      text := text + [CHARS[a4[j]]];
    }
  }

  // A full group: `rest` are the bytes from its first on.
  method EncodeGroup(a3: array<Byte>, a4: array<Byte>, ghost rest: seq<Byte>) returns (text: string)
    requires a3.Length == 3 && a4.Length == 4 && a3 != a4
    requires |rest| >= 3 && forall k :: 0 <= k < 3 ==> a3[k] == rest[k]
    modifies a4
    ensures Encode(rest) == text + Encode(rest[3..])
  {
    Pack(a3, a4);
    text := Emit(a4, 4);
    assert a3[..] == rest[..3];
  }

  // The last bytes, which are `rest`.
  method EncodeTail(a3: array<Byte>, a4: array<Byte>, i: nat, ghost rest: seq<Byte>) returns (text: string)
    requires a3.Length == 3 && a4.Length == 4 && a3 != a4 && 0 < i < 3
    requires |rest| == i && forall k :: 0 <= k < i ==> a3[k] == rest[k]
    modifies a3, a4
    ensures text == Encode(rest)
  {
    for j := i to 3
      invariant forall k :: 0 <= k < i ==> a3[k] == rest[k]
      invariant forall k :: i <= k < j ==> a3[k] == 0
    {
      a3[j] := 0;
    }
    assert a3[..] == if i == 1 then [rest[0], 0, 0] else [rest[0], rest[1], 0];
    Pack(a3, a4);
    text := Emit(a4, i + 1);
    ghost var letters := text;
    for j := i to 3
      invariant text == letters + seq(j - i, k => '=')
    {
      text := text + "=";
    }
  }

  // ---------- the decoder ----------

  function Unpacked(s0: int, s1: int, s2: int, s3: int): seq<Byte> {
    [(s0 * 4 + s1 / 16 % 4) % 256, (s1 % 16 * 16 + s2 / 4 % 16) % 256, (s2 % 4 * 64 + s3) % 256]
  }

  lemma UnpackedIsTriple(s0: nat, s1: nat, s2: nat, s3: nat)
    requires s0 < 64 && s1 < 64 && s2 < 64 && s3 < 64
    ensures Unpacked(s0, s1, s2, s3) == Triple([s0, s1, s2, s3])
  {
    var b0, b1, b2 := s0 * 4 + s1 / 16, s1 % 16 * 16 + s2 / 4, s2 % 4 * 64 + s3;
    assert Unpacked(s0, s1, s2, s3) == [b0, b1, b2];
    ThreeBytes(b0, b1, b2);
    FourSextets(s0, s1, s2, s3);
    DigitsOfNumber([b0, b1, b2], 256);
  }

  // The bytes kept of a tail group do not depend on what fills the rest of the group.
  lemma FillerIsHarmless(s0: nat, s1: nat, s2: nat, x: int, y: int)
    requires s0 < 64 && s1 < 64 && s2 < 64
    ensures Unpacked(s0, s1, x, y)[..1] == Triple([s0, s1, 0, 0])[..1]
    ensures Unpacked(s0, s1, s2, y)[..2] == Triple([s0, s1, s2, 0])[..2]
  {
    UnpackedIsTriple(s0, s1, 0, 0);
    UnpackedIsTriple(s0, s1, s2, 0);
  }

  // `char_array_4` into `char_array_3`, each result cut to eight bits.
  method Unpack(a4: array<Byte>, a3: array<Byte>)
    requires a3.Length == 3 && a4.Length == 4 && a3 != a4
    modifies a3
    ensures a3[..] == Unpacked(a4[0], a4[1], a4[2], a4[3])
  {
    var s0: int, s1: int, s2: int, s3: int := a4[0], a4[1], a4[2], a4[3];
    a3[0] := (s0 * 4 + s1 / 16 % 4) % 256;
    a3[1] := (s1 % 16 * 16 + s2 / 4 % 16) % 256;
    a3[2] := (s2 % 4 * 64 + s3) % 256;
  }

  // Every character of a group becomes its six-bit value.
  method Lookup(a4: array<char>, v4: array<Byte>)
    requires a4.Length == 4 && v4.Length == 4
    modifies v4
    ensures forall k :: 0 <= k < 4 ==> v4[k] == if IsBase64(a4[k]) then Sextet(a4[k]) else 255
  {
    for j := 0 to 4
      invariant forall k :: 0 <= k < j ==> v4[k] == if IsBase64(a4[k]) then Sextet(a4[k]) else 255
    {
      v4[j] := FindChar(a4[j]);
    }
  }

  method Base64Decode(s: string) returns (ret: seq<Byte>)
    ensures ret == Decode(s)
  {
    ret := [];
    var i, n := 0, 0;
    var a4, v4, a3 := new char[4], new Byte[4], new Byte[3];
    ghost var rest := s;
    while n < |s| && s[n] != '=' && IsBase64(s[n])
      invariant 0 <= i < 4 && i <= n <= |s| && rest == s[n - i..]
      invariant forall k :: 0 <= k < i ==> a4[k] == rest[k] && IsBase64(a4[k])
      invariant Decode(s) == ret + Decode(rest)
      decreases |s| - n
    {
      i, ret, rest := DecodeChar(s[n], a4, v4, a3, i, ret, rest, Decode(s));
      n := n + 1;
    }
    if i != 0 {
      var tail := DecodeTail(a4, v4, a3, i, rest);
      ret := ret + tail;
    }
  }

  // The body of the loop: one more character, and a group when there are four.
  method DecodeChar(c: char, a4: array<char>, v4: array<Byte>, a3: array<Byte>, i: nat, ret: seq<Byte>, ghost rest: string, ghost whole: seq<Byte>)
    returns (i': nat, ret': seq<Byte>, ghost rest': string)
    requires a4.Length == 4 && v4.Length == 4 && a3.Length == 3 && v4 != a3
    requires i < 4 && i < |rest| && c == rest[i] && IsBase64(c) && whole == ret + Decode(rest)
    requires forall k :: 0 <= k < i ==> a4[k] == rest[k] && IsBase64(a4[k])
    modifies a4, v4, a3
    ensures if i == 3 then i' == 0 && rest' == rest[4..] else i' == i + 1 && rest' == rest
    ensures (forall k :: 0 <= k < i' ==> a4[k] == rest'[k] && IsBase64(a4[k])) && whole == ret' + Decode(rest')
  {
    a4[i] := c;
    i', ret', rest' := i + 1, ret, rest;
    if i' == 4 {
      DecodeGroup(a4, v4, a3, rest);
      ret' := ret + a3[..];
      rest' := rest[4..];
      i' := 0;
    }
  }

  // A full group: `rest` is the text from its first character on.
  method DecodeGroup(a4: array<char>, v4: array<Byte>, a3: array<Byte>, ghost rest: string)
    requires a4.Length == 4 && v4.Length == 4 && a3.Length == 3 && v4 != a3
    requires |rest| >= 4 && forall k :: 0 <= k < 4 ==> a4[k] == rest[k] && IsBase64(a4[k])
    modifies v4, a3
    ensures Decode(rest) == a3[..] + Decode(rest[4..])
  {
    Lookup(a4, v4);
    Unpack(v4, a3);
    UnpackedIsTriple(v4[0], v4[1], v4[2], v4[3]);
    assert Sextets(rest[..4]) == [v4[0], v4[1], v4[2], v4[3]];
    DecodeQuad(rest);
  }

  // The last characters: `rest` is the text from the first of them on.
  method DecodeTail(a4: array<char>, v4: array<Byte>, a3: array<Byte>, i: nat, ghost rest: string)
    returns (tail: seq<Byte>)
    requires a4.Length == 4 && v4.Length == 4 && a3.Length == 3 && v4 != a3
    requires 0 < i < 4 && i <= |rest| && (i == |rest| || !IsBase64(rest[i]))
    requires forall k :: 0 <= k < i ==> a4[k] == rest[k] && IsBase64(a4[k])
    modifies a4, v4, a3
    ensures tail == Decode(rest)
  {
    ghost var ds := Sextets(rest[..i]);
    for j := i to 4
      invariant forall k :: 0 <= k < i ==> a4[k] == rest[k]
    {
      a4[j] := '\0';
    }
    Lookup(a4, v4);
    Unpack(v4, a3);
    tail := a3[..i - 1];
    assert forall k :: 0 <= k < i ==> v4[k] == ds[k];
    if i == 2 {
      FillerIsHarmless(v4[0], v4[1], 0, v4[2], v4[3]);
      assert ds + [0, 0] == [v4[0], v4[1], 0, 0];
    } else if i == 3 {
      FillerIsHarmless(v4[0], v4[1], v4[2], v4[2], v4[3]);
      assert ds + [0] == [v4[0], v4[1], v4[2], 0];
    }
    assert rest == rest[..i] + rest[i..];
    PayloadStops(rest[..i], rest[i..]);
  }

  lemma {:induction false} PayloadStops(p: string, rest: string)
    requires AllBase64(p)
    requires rest == "" || !IsBase64(rest[0])
    ensures Payload(p + rest) == p
  {
    PayloadContinues(p, rest);
  }

  lemma {:induction false} PayloadContinues(p: string, rest: string)
    requires AllBase64(p)
    ensures Payload(p + rest) == p + Payload(rest)
  {
    if p == "" {
      assert p + rest == rest;
    } else {
      assert (p + rest)[1..] == p[1..] + rest;
      PayloadContinues(p[1..], rest);
    }
  }

  // A full group decodes on its own.
  lemma DecodeQuad(s: string)
    requires |s| >= 4 && AllBase64(s[..4])
    ensures Decode(s) == Triple(Sextets(s[..4])) + Decode(s[4..])
  {
    PayloadContinues(s[..4], s[4..]);
    assert s == s[..4] + s[4..];
    var ds := Sextets(Payload(s));
    assert ds[..4] == Sextets(s[..4]);
    assert ds[4..] == Sextets(Payload(s[4..]));
  }

  // ---------- round trips ----------

  lemma TripleOfPacked(b0: Byte, b1: Byte, b2: Byte)
    ensures Triple(Packed(b0, b1, b2)) == [b0, b1, b2]
  {
    PackedIsQuad(b0, b1, b2);
    DigitsOfNumber([b0, b1, b2], 256);
  }

  lemma PackedOfTriple(s0: nat, s1: nat, s2: nat, s3: nat)
    requires s0 < 64 && s1 < 64 && s2 < 64 && s3 < 64
    ensures var bs := Triple([s0, s1, s2, s3]); Packed(bs[0], bs[1], bs[2]) == [s0, s1, s2, s3]
  {
    UnpackedIsTriple(s0, s1, s2, s3);
    var b0, b1, b2 := s0 * 4 + s1 / 16, s1 % 16 * 16 + s2 / 4, s2 % 4 * 64 + s3;
    assert Unpacked(s0, s1, s2, s3) == [b0, b1, b2];
    assert b0 / 4 == s0 && b0 % 4 == s1 / 16 && b1 / 16 == s1 % 16;
    assert b1 % 16 == s2 / 4 && b2 / 64 == s2 % 4 && b2 % 64 == s3;
  }

  /** Decoding undoes encoding. */
  lemma {:induction false} DecodeEncode(bs: seq<Byte>)
    ensures Decode(Encode(bs)) == bs
  {
    if |bs| >= 3 {
      DecodeEncode(bs[3..]);
      PackedIsQuad(bs[0], bs[1], bs[2]);
      TripleOfPacked(bs[0], bs[1], bs[2]);
      assert bs[..3] == [bs[0], bs[1], bs[2]];
      SextetsOfText(Packed(bs[0], bs[1], bs[2]));
      assert Encode(bs)[..4] == Quad(bs[..3]) && Encode(bs)[4..] == Encode(bs[3..]);
      DecodeQuad(Encode(bs));
    } else if |bs| == 2 {
      DecodeTwo(bs[0], bs[1]);
      assert bs == [bs[0], bs[1]];
    } else if |bs| == 1 {
      DecodeOne(bs[0]);
      assert bs == [bs[0]];
    }
  }

  lemma TextPrefix(ds: seq<nat>, k: nat)
    requires Below(ds, 64) && k <= |ds|
    ensures Text(ds)[..k] == Text(ds[..k])
  {
  }

  lemma PadDigits(b0: Byte, b1: Byte)
    ensures var ds := Packed(b0, b1, 0);
            ds == ds[..3] + [0] && ds[2] % 4 == 0 && (b1 == 0 ==> ds == ds[..2] + [0, 0] && ds[1] % 16 == 0)
  {
  }

  lemma PadBytes(s0: nat, s1: nat, s2: nat)
    requires s2 % 4 == 0
    ensures Unpacked(s0, s1, s2, 0)[2] == 0
    ensures s1 % 16 == 0 && s2 == 0 ==> Unpacked(s0, s1, s2, 0)[1] == 0
  {
  }

  lemma DecodeOne(b0: Byte)
    ensures Decode(Encode([b0])) == [b0]
  {
    var ds := Packed(b0, 0, 0);
    PackedIsQuad(b0, 0, 0);
    TripleOfPacked(b0, 0, 0);
    PadDigits(b0, 0);
    TextPrefix(ds, 2);
    SextetsOfText(ds[..2]);
    PayloadStops(Text(ds[..2]), "==");
  }

  lemma DecodeTwo(b0: Byte, b1: Byte)
    ensures Decode(Encode([b0, b1])) == [b0, b1]
  {
    var ds := Packed(b0, b1, 0);
    PackedIsQuad(b0, b1, 0);
    TripleOfPacked(b0, b1, 0);
    PadDigits(b0, b1);
    TextPrefix(ds, 3);
    SextetsOfText(ds[..3]);
    PayloadStops(Text(ds[..3]), "=");
  }

  lemma QuadIs(b0: Byte, b1: Byte, b2: Byte)
    ensures Quad([b0, b1, b2]) == [Symbol(b0 / 4), Symbol(b0 % 4 * 16 + b1 / 16), Symbol(b1 % 16 * 4 + b2 / 64), Symbol(b2 % 64)]
  {
    PackedIsQuad(b0, b1, b2);
  }

  lemma OneGroup(b0: Byte, b1: Byte, b2: Byte)
    ensures Encode([b0, b1, b2]) == Quad([b0, b1, b2])
  {
    var bs: seq<Byte> := [b0, b1, b2];
    assert bs[..3] == bs && bs[3..] == [];
  }

  lemma PaddedVectors()
    ensures Encode([0x66]) == "Zg==" && Encode([0x66, 0x6f]) == "Zm8="
  {
    QuadIs(0x66, 0, 0);
    QuadIs(0x66, 0x6f, 0);
  }

  lemma FullVector(b0: Byte, b1: Byte, b2: Byte, text: string)
    requires text == [Symbol(b0 / 4), Symbol(b0 % 4 * 16 + b1 / 16), Symbol(b1 % 16 * 4 + b2 / 64), Symbol(b2 % 64)]
    ensures Encode([b0, b1, b2]) == text
  {
    QuadIs(b0, b1, b2);
    OneGroup(b0, b1, b2);
  }

  /** Bytes that the standard encodes (its section 10), and a text of the last two symbols. */
  lemma StandardVectors()
    ensures Encode([0x66]) == "Zg==" && Encode([0x66, 0x6f]) == "Zm8=" && Encode([0x66, 0x6f, 0x6f]) == "Zm9v"
    ensures Encode([0xfb, 0xff, 0xbf]) == "+/+/"
  {
    PaddedVectors();
    FullVector(0x66, 0x6f, 0x6f, "Zm9v");
    FullVector(0xfb, 0xff, 0xbf, "+/+/");
  }

  /** The encoding of n bytes has 4 * ceil(n / 3) characters. */
  lemma {:induction false} EncodedLength(bs: seq<Byte>)
    ensures |Encode(bs)| == 4 * ((|bs| + 2) / 3)
  {
    if |bs| >= 3 {
      EncodedLength(bs[3..]);
    }
  }

  /** Nothing from the first foreign character on is read. */
  lemma {:induction false} DecodeStopsAtForeign(a: string, c: char, b: string)
    requires !IsBase64(c)
    ensures Decode(a + [c] + b) == Decode(a)
  {
    PayloadEnds(a, c, b);
  }

  lemma {:induction false} PayloadEnds(a: string, c: char, b: string)
    requires !IsBase64(c)
    ensures Payload(a + [c] + b) == Payload(a)
  {
    if a != "" {
      PayloadEnds(a[1..], c, b);
      assert (a + [c] + b)[1..] == a[1..] + [c] + b;
    }
  }

  // Section 3.5 of RFC 4648: padded to full groups, with zero pad bits.
  predicate Canonical(s: string) {
    || s == ""
    || (|s| >= 4 && AllBase64(s[..4]) && Canonical(s[4..]))
    || CanonicalTail(s)
  }

  predicate CanonicalTail(s: string) {
    && |s| == 4 && IsBase64(s[0]) && IsBase64(s[1]) && s[3] == '='
    && (if s[2] == '=' then Sextet(s[1]) % 16 == 0 else IsBase64(s[2]) && Sextet(s[2]) % 4 == 0)
  }

  lemma {:induction false} EncodeIsCanonical(bs: seq<Byte>)
    ensures Canonical(Encode(bs))
  {
    if |bs| >= 3 {
      EncodeIsCanonical(bs[3..]);
      assert Encode(bs)[..4] == Quad(bs[..3]) && Encode(bs)[4..] == Encode(bs[3..]);
    } else if |bs| > 0 {
      var b1 := if |bs| == 1 then 0 else bs[1];
      PackedIsQuad(bs[0], b1, 0);
      SextetOfSymbol(Packed(bs[0], b1, 0)[|bs|]);
      PadDigits(bs[0], b1);
      assert CanonicalTail(Encode(bs));
    }
  }

  // What the last group decodes to, from the sextets it has, filled up with zeros.
  lemma LastBytes(s0: nat, s1: nat, s2: nat)
    requires s0 < 64 && s1 < 64 && s2 < 64 && s2 % 4 == 0
    ensures var bs := Triple([s0, s1, s2, 0]);
            && bs[2] == 0 && (s1 % 16 == 0 && s2 == 0 ==> bs[1] == 0)
            && Below([s0, s1, s2, 0], 64) && Quad([bs[0], bs[1], 0]) == Text([s0, s1, s2, 0])
  {
    var bs := Triple([s0, s1, s2, 0]);
    UnpackedIsTriple(s0, s1, s2, 0);
    PackedOfTriple(s0, s1, s2, 0);
    PadBytes(s0, s1, s2);
    PackedIsQuad(bs[0], bs[1], bs[2]);
  }

  lemma EncodeDecodeOne(s: string)
    requires CanonicalTail(s) && s[2] == '='
    ensures Encode(Decode(s)) == s
  {
    var ds := Sextets(s[..2]);
    LastBytes(ds[0], ds[1], 0);
    assert s == s[..2] + s[2..];
    PayloadStops(s[..2], s[2..]);
    assert ds + [0, 0] == [ds[0], ds[1], 0, 0];
  }

  lemma EncodeDecodeTwo(s: string)
    requires CanonicalTail(s) && s[2] != '='
    ensures Encode(Decode(s)) == s
  {
    var ds := Sextets(s[..3]);
    LastBytes(ds[0], ds[1], ds[2]);
    assert s == s[..3] + s[3..];
    PayloadStops(s[..3], s[3..]);
    assert ds + [0] == [ds[0], ds[1], ds[2], 0];
  }

  lemma {:induction false} EncodeDecode(s: string)
    requires Canonical(s)
    ensures Encode(Decode(s)) == s
  {
    if s == "" {
    } else if CanonicalTail(s) {
      if s[2] == '=' {
        EncodeDecodeOne(s);
      } else {
        EncodeDecodeTwo(s);
      }
    } else {
      EncodeDecode(s[4..]);
      DecodeQuad(s);
      GroupSurvives(s[..4]);
      assert Decode(s)[..3] == Triple(Sextets(s[..4])) && Decode(s)[3..] == Decode(s[4..]);
      assert s == s[..4] + s[4..];
    }
  }

  lemma GroupSurvives(t: string)
    requires |t| == 4 && AllBase64(t)
    ensures Quad(Triple(Sextets(t))) == t
  {
    var ds := Sextets(t);
    var bs := Triple(ds);
    assert ds == [ds[0], ds[1], ds[2], ds[3]] && bs == [bs[0], bs[1], bs[2]];
    PackedOfTriple(ds[0], ds[1], ds[2], ds[3]);
    PackedIsQuad(bs[0], bs[1], bs[2]);
    TextOfSextets(t);
  }

  /** Encoding undoes decoding for exactly the canonical texts. */
  lemma EncodeDecodeExactlyWhen(s: string)
    ensures Encode(Decode(s)) == s <==> Canonical(s)
  {
    EncodeIsCanonical(Decode(s));
    if Canonical(s) {
      EncodeDecode(s);
    }
  }
}
