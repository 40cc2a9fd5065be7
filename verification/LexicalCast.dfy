/**
 The integer printer of the bundled Boost `lexical_cast`: digits and the
 locale's thousands separators are written backwards into a buffer whose size
 is fixed by the type of the integer.
 */
module LexicalCast {
  import opened Decimal

  // A signed `char`
  type CChar = x: int | -128 <= x < 128

  const CHAR_MAX := 127

  // What the locale's `numpunct` says.
  datatype Punct = Punct(grouping: seq<CChar>, sep: char) {
    // The size of a group, counted from the right: the last size repeats, and a size that is not
    // positive stands for no limit.
    function Size(g: nat): (size: nat)
      ensures 1 <= size <= CHAR_MAX
    {
      if grouping == [] then CHAR_MAX
      else
        var size := if g < |grouping| then grouping[g] else grouping[|grouping| - 1];
        if size <= 0 then CHAR_MAX else size
    }
  }

  // ---------- the text ----------

  // Digits in groups from the right, starting with group number g.
  function Grouped(d: string, p: Punct, g: nat): string
    decreases |d|
  {
    var size := p.Size(g);
    if |d| <= size then d else Grouped(d[..|d| - size], p, g + 1) + [p.sep] + d[|d| - size..]
  }

  // The same when group number g takes only `left` more digits.
  function GroupedFrom(d: string, p: Punct, g: nat, left: nat): string {
    if |d| <= left then d else Grouped(d[..|d| - left], p, g + 1) + [p.sep] + d[|d| - left..]
  }

  lemma SeparatorStep(d: string, p: Punct, g: nat)
    requires d != ""
    ensures GroupedFrom(d, p, g, 0) == GroupedFrom(d, p, g + 1, p.Size(g + 1)) + [p.sep]
  {
    assert d[..|d| - 0] == d && d[|d| - 0..] == "";
  }

  lemma DigitStep(d: string, c: char, p: Punct, g: nat, left: nat)
    requires left >= 1
    ensures GroupedFrom(d + [c], p, g, left) == GroupedFrom(d, p, g, left - 1) + [c]
  {
    var e := d + [c];
    if |e| > left {
      assert e[..|e| - left] == d[..|d| - (left - 1)];
      assert e[|e| - left..] == d[|d| - (left - 1)..] + [c];
    }
  }

  // The absolute value of an integer with its separators, and the sign before it.
  function Magnitude(n: nat, p: Punct): string {
    Grouped(Numeral(n), p, 0)
  }

  function Text(n: int, p: Punct): string {
    if n < 0 then "-" + Magnitude(-n, p) else Magnitude(n, p)
  }

  // ---------- what the text says ----------

  // The groups themselves, the rightmost first.
  function Chunks(d: string, p: Punct, g: nat): (cs: seq<string>)
    ensures cs != []
    decreases |d|
  {
    var size := p.Size(g);
    if |d| <= size then [d] else [d[|d| - size..]] + Chunks(d[..|d| - size], p, g + 1)
  }

  function Join(chunks: seq<string>, between: string): string {
    if chunks == [] then "" else if |chunks| == 1 then chunks[0] else Join(chunks[1..], between) + between + chunks[0]
  }

  // What an entry of the locale's grouping allows: no limit stands for more digits than any number has.
  function Limit(size: CChar): nat {
    if size > 0 then size else CHAR_MAX
  }

  /** The text is the groups with one separator between neighbours; the groups cut up the digits. Each
      is as long as its entry in the locale's grouping says, or the last entry when there are no more,
      and only the leftmost may be shorter. */
  lemma SeparatorsAreAtGroupBoundaries(d: string, p: Punct)
    requires d != ""
    ensures var cs := Chunks(d, p, 0);
            var last := |cs| - 1;
            && Join(cs, [p.sep]) == Grouped(d, p, 0) && Join(cs, "") == d
            && (forall i :: 0 <= i < last && i < |p.grouping| ==> |cs[i]| == Limit(p.grouping[i]))
            && (forall i :: 0 <= i < last && 0 < |p.grouping| <= i ==> |cs[i]| == Limit(p.grouping[|p.grouping| - 1]))
            && (forall i :: 0 <= i < last && p.grouping == [] ==> |cs[i]| == CHAR_MAX)
            && 1 <= |cs[last]|
            && (last < |p.grouping| ==> |cs[last]| <= Limit(p.grouping[last]))
            && (0 < |p.grouping| <= last ==> |cs[last]| <= Limit(p.grouping[|p.grouping| - 1]))
            && (p.grouping == [] ==> |cs[last]| <= CHAR_MAX)
  {
    JoinedChunks(d, p, 0);
    ChunkSizes(d, p, 0);
  }

  lemma {:induction false} JoinedChunks(d: string, p: Punct, g: nat)
    ensures Join(Chunks(d, p, g), [p.sep]) == Grouped(d, p, g)
    ensures Join(Chunks(d, p, g), "") == d
    decreases |d|
  {
    var size := p.Size(g);
    if |d| > size {
      var rest := d[..|d| - size];
      JoinedChunks(rest, p, g + 1);
      assert Chunks(d, p, g)[1..] == Chunks(rest, p, g + 1);
      assert d == rest + "" + d[|d| - size..];
    }
  }

  lemma {:induction false} ChunkSizes(d: string, p: Punct, g: nat)
    requires d != ""
    ensures var cs := Chunks(d, p, g);
            && (forall i :: 0 <= i < |cs| - 1 ==> |cs[i]| == p.Size(g + i))
            && 1 <= |cs[|cs| - 1]| <= p.Size(g + |cs| - 1)
    decreases |d|
  {
    var size := p.Size(g);
    if |d| > size {
      var rest := Chunks(d[..|d| - size], p, g + 1);
      ChunkSizes(d[..|d| - size], p, g + 1);
      forall i | 0 <= i < |rest|
        ensures |Chunks(d, p, g)[i]| == p.Size(g + i)
      {
        if i > 0 {
          assert |rest[i - 1]| == p.Size(g + 1 + (i - 1));
        }
      }
    }
  }

  // The text without the separators, which never come first.
  function Without(text: string, sep: char): string {
    if text == "" then "" else Without(text[..|text| - 1], sep) + if text[|text| - 1] == sep then "" else [text[|text| - 1]]
  }

  lemma {:induction false} WithoutConcat(a: string, b: string, sep: char)
    ensures Without(a + b, sep) == Without(a, sep) + Without(b, sep)
  {
    if b == "" {
      assert a + b == a;
    } else {
      WithoutConcat(a, b[..|b| - 1], sep);
      assert (a + b)[..|a + b| - 1] == a + b[..|b| - 1];
    }
  }

  lemma {:induction false} WithoutKeeps(d: string, sep: char)
    ensures Without(d, sep) == d <==> sep !in d
    ensures |Without(d, sep)| <= |d|
  {
    if d != "" {
      WithoutKeeps(d[..|d| - 1], sep);
      assert d == d[..|d| - 1] + [d[|d| - 1]];
    }
  }

  lemma {:induction false} WithoutUngroups(d: string, p: Punct, g: nat)
    ensures Without(Grouped(d, p, g), p.sep) == Without(d, p.sep)
    decreases |d|
  {
    var size := p.Size(g);
    if |d| > size {
      var rest, group := d[..|d| - size], d[|d| - size..];
      WithoutUngroups(rest, p, g + 1);
      WithoutConcat(Grouped(rest, p, g + 1) + [p.sep], group, p.sep);
      WithoutConcat(Grouped(rest, p, g + 1), [p.sep], p.sep);
      assert [p.sep][..0] == "" && Without([p.sep], p.sep) == "";
      assert d == rest + group;
      WithoutConcat(rest, group, p.sep);
    }
  }

  // Dropping the separators, but never the first character, which is the sign or a digit.
  function Plain(text: string, sep: char): string {
    if text == "" then "" else [text[0]] + Without(text[1..], sep)
  }

  lemma PlainUngroups(d: string, p: Punct)
    requires d != ""
    ensures Plain(Grouped(d, p, 0), p.sep) == Plain(d, p.sep)
  {
    var text := Grouped(d, p, 0);
    FirstIsADigit(d, p, 0);
    WithoutUngroups(d, p, 0);
    WithoutConcat([d[0]], text[1..], p.sep);
    WithoutConcat([d[0]], d[1..], p.sep);
    assert text == [d[0]] + text[1..] && d == [d[0]] + d[1..];
    var head := Without([d[0]], p.sep);
    assert (head + Without(text[1..], p.sep))[|head|..] == (head + Without(d[1..], p.sep))[|head|..];
  }

  /** Dropping the separators gives the plain numeral back exactly when the separator is not one of
      its characters after the first; reading that gives the integer. */
  lemma ReadingBack(n: int, p: Punct)
    ensures Plain(Text(n, p), p.sep) == Print(n) <==> p.sep !in Print(n)[1..]
    ensures p.sep !in Print(n)[1..] ==> Atoi(Plain(Text(n, p), p.sep)) == n
  {
    var m := if n < 0 then -n else n;
    NumeralIsDigits(m);
    if n < 0 {
      WithoutUngroups(Numeral(m), p, 0);
      assert Text(n, p)[1..] == Magnitude(m, p) && Print(n)[1..] == Numeral(m);
    } else {
      PlainUngroups(Numeral(m), p);
    }
    var tail := Print(n)[1..];
    assert Plain(Text(n, p), p.sep) == [Print(n)[0]] + Without(tail, p.sep);
    assert Print(n) == [Print(n)[0]] + tail;
    WithoutKeeps(tail, p.sep);
    assert ([Print(n)[0]] + Without(tail, p.sep))[1..] == Without(tail, p.sep);
    AtoiPrint(n);
  }

  lemma {:induction false} FirstIsADigit(d: string, p: Punct, g: nat)
    requires d != ""
    ensures Grouped(d, p, g) != "" && Grouped(d, p, g)[0] == d[0]
    decreases |d|
  {
    var size := p.Size(g);
    if |d| > size {
      FirstIsADigit(d[..|d| - size], p, g + 1);
    }
  }

  // ---------- the length ----------

  lemma {:induction false} GroupedLength(d: string, p: Punct, g: nat)
    requires d != ""
    ensures |d| <= |Grouped(d, p, g)| <= 2 * |d| - 1
    decreases |d|
  {
    var size := p.Size(g);
    if |d| > size {
      GroupedLength(d[..|d| - size], p, g + 1);
    }
  }

  lemma {:induction false} SingletonGroups(d: string, sep: char, g: nat)
    requires d != ""
    ensures |Grouped(d, Punct([1], sep), g)| == 2 * |d| - 1
    decreases |d|
  {
    if |d| > 1 {
      SingletonGroups(d[..|d| - 1], sep, g + 1);
    }
  }

  function Pow(b: nat, k: nat): (r: int)
    requires b > 0
    ensures r > 0
  {
    if k == 0 then 1 else b * Pow(b, k - 1)
  }

  // The number of decimal digits every value below m + 1 has at most, less one.
  function Log10(m: nat): (k: nat)
    requires m > 0
    ensures Pow(10, k) <= m < Pow(10, k + 1)
  {
    if m < 10 then 0 else 1 + Log10(m / 10)
  }

  lemma {:induction false} NumeralLength(n: nat, k: nat)
    ensures n < Pow(10, k + 1) <==> |Numeral(n)| <= k + 1
  {
    if n < 10 {
      assert Pow(10, k + 1) >= 10;
    } else if k == 0 {
      NumeralIsDigits(n / 10);
      assert Pow(10, 1) == 10 * Pow(10, 0);
    } else {
      NumeralLength(n / 10, k - 1);
    }
  }

  // `numeric_limits`, of an integer type in two's complement.
  datatype IntType = IntType(bits: nat, signed: bool) {
    // The static assertion of the printer, and a bit for the value.
    predicate Valid() {
      bits >= 2 && Log10(Pow(2, bits)) < CHAR_MAX
    }

    function Magnitudes(): (m: int)
      requires bits >= 1
      ensures m > 0
    {
      Pow(2, if signed then bits - 1 else bits)
    }

    predicate Holds(n: int)
      requires bits >= 1
    {
      if signed then -Magnitudes() <= n < Magnitudes() else 0 <= n < Magnitudes()
    }

    function Digits10(): nat
      requires bits >= 1
    {
      Log10(Magnitudes())
    }

    // The buffer size `lcast_src_length_integral` reserves.
    function SrcLength(): nat
      requires bits >= 1
    {
      (if signed then 1 else 0) + 1 + 2 * Digits10()
    }
  }

  /** The reserved buffer is large enough for every value in every locale. */
  lemma BufferSuffices(t: IntType, n: int, p: Punct)
    requires t.Valid() && t.Holds(n)
    ensures |Text(n, p)| <= t.SrcLength()
  {
    var m := if n < 0 then -n else n;
    NumeralLength(m, t.Digits10());
    NumeralIsDigits(m);
    GroupedLength(Numeral(m), p, 0);
  }

  lemma {:induction false} PowersOfTwo(b: nat)
    ensures Pow(2, b) % 5 != 0
  {
    if b > 0 {
      PowersOfTwo(b - 1);
    }
  }

  lemma PowersOfTen(k: nat)
    requires k > 0
    ensures Pow(10, k) % 5 == 0
  {
    assert Pow(10, k) == 5 * (2 * Pow(10, k - 1));
  }

  // The largest power of ten that is no larger than a power of two is smaller.
  lemma LogIsStrict(b: nat)
    requires b > 0
    ensures Pow(10, Log10(Pow(2, b))) < Pow(2, b)
  {
    var k := Log10(Pow(2, b));
    if k > 0 {
      PowersOfTwo(b);
      PowersOfTen(k);
    } else {
      assert Pow(2, b) == 2 * Pow(2, b - 1);
    }
  }

  /** And not a character larger than it must be: some value fills it when the locale groups single digits. */
  lemma BufferIsTight(t: IntType, sep: char) returns (n: int)
    requires t.Valid()
    ensures t.Holds(n) && |Text(n, Punct([1], sep))| == t.SrcLength()
  {
    var k := t.Digits10();
    var m := Pow(10, k);
    LogIsStrict(if t.signed then t.bits - 1 else t.bits);
    NumeralLength(m, k);
    if k > 0 {
      NumeralLength(m, k - 1);
    }
    NumeralIsDigits(m);
    SingletonGroups(Numeral(m), sep, 0);
    n := if t.signed then -m else m;
  }

  /** No grouping, no separators: the digits alone. */
  lemma UnlimitedGroupsNeverSeparate(t: IntType, n: int, p: Punct)
    requires t.Valid() && t.Holds(n) && p.Size(0) == CHAR_MAX
    ensures Text(n, p) == Print(n)
  {
    var m := if n < 0 then -n else n;
    NumeralLength(m, t.Digits10());
    LogGrows(t.Magnitudes(), Pow(2, t.bits));
  }

  lemma {:induction false} LogGrows(m: nat, n: nat)
    requires 0 < m <= n
    ensures Log10(m) <= Log10(n)
  {
    if m >= 10 {
      LogGrows(m / 10, n / 10);
    }
  }

  // ---------- the printer ----------

  // `lcast_to_unsigned`: a conversion and a negation, both modulo 2^bits.
  function ToUnsigned(t: IntType, value: int): (u: int)
    requires t.bits >= 1 && t.signed && t.Holds(value)
    ensures u == if value < 0 then -value else value
  {
    var modulus := Pow(2, t.bits);
    assert modulus == 2 * t.Magnitudes();
    var uvalue := value % modulus;
    ModUnique(value, modulus, if value < 0 then -1 else 0, if value < 0 then value + modulus else value);
    if value < 0 then ModUnique(-uvalue, modulus, -1, modulus - uvalue); -uvalue % modulus else uvalue
  }

  lemma ModUnique(x: int, m: int, q: int, r: int)
    requires m > 0 && x == q * m + r && 0 <= r < m
    ensures x % m == r
  {
    var k := x / m - q;
    assert x == x / m * m + x % m;
    assert k * m == r - x % m;
  }

  // `--finish; Traits::assign(*finish, c)`: the last character of what is left to write of `whole`.
  method Put(c: char, buf: array<char>, place: nat, finish: nat, ghost todo: string, ghost whole: string)
    returns (start: nat)
    requires place <= finish <= buf.Length && |whole| <= finish
    requires whole == todo + [c] + buf[place..finish]
    modifies buf
    ensures start == place - 1 && whole == todo + buf[start..finish]
    ensures forall k :: 0 <= k < buf.Length && k != start ==> buf[k] == old(buf[k])
  {
    assert |whole| == |todo| + 1 + (finish - place);
    ghost var after := buf[place..finish];
    start := place - 1;
    buf[start] := c;
    assert buf[start..finish] == [c] + after;
  }

  // The text of the digits a number still has to write.
  ghost function ToWrite(n: nat, first: bool, p: Punct, g: nat, left: nat): string {
    if n == 0 && !first then "" else GroupedFrom(Numeral(n), p, g, left)
  }

  lemma WriteSeparator(n: nat, p: Punct, g: nat)
    ensures GroupedFrom(Numeral(n), p, g, 0) == GroupedFrom(Numeral(n), p, g + 1, p.Size(g + 1)) + [p.sep]
  {
    NumeralIsDigits(n);
    SeparatorStep(Numeral(n), p, g);
  }

  lemma WriteDigit(n: nat, p: Punct, g: nat, left: nat)
    requires left >= 1
    ensures GroupedFrom(Numeral(n), p, g, left) == ToWrite(n / 10, false, p, g, left - 1) + [Digit(n % 10)]
  {
    if n >= 10 {
      DigitStep(Numeral(n / 10), Digit(n % 10), p, g, left);
    }
  }

  // The end of a group: the size of the next one, and the separator.
  method NextGroup(ghost n: nat, p: Punct, group: nat, size: nat, buf: array<char>, place: nat, finish: nat, ghost whole: string)
    returns (next: nat, lastGrpSize: nat, start: nat)
    requires place <= finish <= buf.Length && |whole| <= finish && size == p.Size(group)
    requires whole == GroupedFrom(Numeral(n), p, group, 0) + buf[place..finish]
    modifies buf
    ensures next == group + 1 && lastGrpSize == p.Size(next) && start == place - 1
    ensures whole == GroupedFrom(Numeral(n), p, next, lastGrpSize) + buf[start..finish]
    ensures forall k :: 0 <= k < buf.Length && k != start ==> buf[k] == old(buf[k])
  {
    WriteSeparator(n, p, group);
    next, lastGrpSize := group + 1, size;
    if next < |p.grouping| {
      lastGrpSize := if p.grouping[next] <= 0 then CHAR_MAX else p.grouping[next];
    }
    start := Put(p.sep, buf, place, finish, GroupedFrom(Numeral(n), p, next, lastGrpSize), whole);
  }

  // `lcast_put_unsigned`: writes before `finish` and returns where the text begins.
  method PutUnsigned(value: nat, p: Punct, buf: array<char>, finish: nat) returns (start: nat)
    requires |Magnitude(value, p)| <= finish <= buf.Length
    modifies buf
    ensures start + |Magnitude(value, p)| == finish && buf[start..finish] == Magnitude(value, p)
    ensures forall k :: 0 <= k < buf.Length && !(start <= k < finish) ==> buf[k] == old(buf[k])
  {
    var n, group := value, 0;
    var lastGrpSize: int := if p.grouping == [] || p.grouping[0] <= 0 then CHAR_MAX else p.grouping[0];
    var left := lastGrpSize;
    ghost var whole := Magnitude(value, p);
    start := finish;
    var first := true;
    while first || n != 0
      invariant 0 <= start <= finish && 0 <= left <= lastGrpSize == p.Size(group)
      invariant whole == ToWrite(n, first, p, group, left) + buf[start..finish]
      invariant forall k :: 0 <= k < buf.Length && !(start <= k < finish) ==> buf[k] == old(buf[k])
      decreases first, n
    {
      if left == 0 {
        group, lastGrpSize, start := NextGroup(n, p, group, lastGrpSize, buf, start, finish, whole);
        left := lastGrpSize;
      }
      WriteDigit(n, p, group, left);
      left := left - 1;
      start := Put(Digit(n % 10), buf, start, finish, ToWrite(n / 10, false, p, group, left), whole);
      n := n / 10;
      first := false;
    }
  }

  // The stream the text is written to: `[start, finish)` of a buffer.
  class LimitedSource {
    const buf: array<char>
    var start: nat
    var finish: nat

    ghost predicate Valid()
      reads this
    {
      start <= finish <= buf.Length
    }

    constructor (buf: array<char>)
      ensures Valid() && this.buf == buf && start == 0 && finish == buf.Length
    {
      this.buf := buf;
      start, finish := 0, buf.Length;
    }

    // The text written so far.
    ghost function Contents(): string
      requires Valid()
      reads this, buf
    {
      buf[start..finish]
    }

    // `operator<<` for the signed types.
    method PutSigned(t: IntType, n: int, p: Punct)
      requires Valid() && t.Valid() && t.signed && t.Holds(n)
      requires finish - start >= t.SrcLength()
      modifies this`start, buf
      ensures Valid() && start >= old(start) && Contents() == Text(n, p)
      ensures forall k :: 0 <= k < buf.Length && !(start <= k < finish) ==> buf[k] == old(buf[k])
    {
      BufferSuffices(t, n, p);
      start := PutUnsigned(ToUnsigned(t, n), p, buf, finish);
      if n < 0 {
        start := Put('-', buf, start, finish, "", Text(n, p));
      }
    }

    // `operator<<` for the unsigned types.
    method PutNatural(t: IntType, n: int, p: Punct)
      requires Valid() && t.Valid() && !t.signed && t.Holds(n)
      requires finish - start >= t.SrcLength()
      modifies this`start, buf
      ensures Valid() && start >= old(start) && Contents() == Text(n, p)
      ensures forall k :: 0 <= k < buf.Length && !(start <= k < finish) ==> buf[k] == old(buf[k])
    {
      BufferSuffices(t, n, p);
      start := PutUnsigned(n, p, buf, finish);
    }
  }
}
