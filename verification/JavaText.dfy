/** Java strings as UTF-16 code units, and their bytes in UTF-8. */
module JavaText {
  import opened Common

  type Unit = u: int | 0 <= u < 0x1_0000

  type Text = seq<Unit>

  predicate High(u: Unit) { 0xD800 <= u < 0xDC00 }

  predicate Low(u: Unit) { 0xDC00 <= u < 0xE000 }

  /** The text starts with a surrogate pair. */
  predicate PairFirst(s: Text) { |s| >= 2 && High(s[0]) && Low(s[1]) }

  function Tail(u: int): Byte {
    0x80 + u % 64
  }

  /** The four bytes of a supplementary character: the plane is its code point divided by 2^16. */
  function FourBytes(plane: int, low: int): seq<Byte>
    requires 1 <= plane <= 16 && 0 <= low < 0x1_0000
  {
    [0xF0 + plane / 4, 0x80 + plane % 4 * 16 + low / 4096, Tail(low / 64), Tail(low)]
  }

  /** `getBytes(UTF_8)` for the first character of a text. */
  function Head(s: Text): (b: seq<Byte>)
    requires s != []
    ensures 1 <= |b| <= 4
  {
    var u := s[0];
    if u < 0x80 then [u]
    else if u < 0x800 then [0xC0 + u / 64, Tail(u)]
    else if PairFirst(s) then
      var low := (u - 0xD800) % 64 * 1024 + (s[1] - 0xDC00);
      var plane := (u - 0xD800) / 64 + 1;
      FourBytes(plane, low)
    else if High(u) || Low(u) then [0x3F]
    else [0xE0 + u / 4096, Tail(u / 64), Tail(u)]
  }

  function Width(s: Text): nat
    requires s != []
  {
    if PairFirst(s) then 2 else 1
  }

  /** `getBytes(UTF_8)`: a surrogate without its partner becomes a question mark. */
  function Utf8(s: Text): seq<Byte> {
    if s == [] then [] else Head(s) + Utf8(s[Width(s)..])
  }

  /** The text with every unpaired surrogate replaced by a question mark. */
  function Replaced(s: Text): Text {
    if s == [] then []
    else if PairFirst(s) then s[..2] + Replaced(s[2..])
    else [if High(s[0]) || Low(s[0]) then 0x3F else s[0]] + Replaced(s[1..])
  }

  predicate WellFormed(s: Text) {
    s == [] || (if PairFirst(s) then WellFormed(s[2..]) else !High(s[0]) && !Low(s[0]) && WellFormed(s[1..]))
  }

  // ---------------------------------------------------------------------------------------
  // Reading back
  // ---------------------------------------------------------------------------------------

  predicate IsTail(b: Byte) { 0x80 <= b < 0xC0 }

  /** The six bits a continuation byte carries. */
  function Bits(b: Byte): int { b - 0x80 }

  /** The first character of UTF-8 bytes and the rest. */
  function ReadChar(b: seq<Byte>): (r: Option<(Text, seq<Byte>)>)
    ensures r.Some? ==> |r.value.1| < |b|
  {
    if b == [] then None
    else
      var x: int := b[0];
      if x < 0x80 then Some(([x], b[1..]))
      else if |b| >= 2 && 0xC2 <= x < 0xE0 && IsTail(b[1]) then
        Some(([(x - 0xC0) * 64 + Bits(b[1])], b[2..]))
      else if |b| >= 3 && 0xE0 <= x < 0xF0 && IsTail(b[1]) && IsTail(b[2]) then
        Some(([(x - 0xE0) * 4096 + Bits(b[1]) * 64 + Bits(b[2])], b[3..]))
      else if |b| >= 4 && 0xF0 <= x < 0xF5 && IsTail(b[1]) && IsTail(b[2]) && IsTail(b[3]) then
        var plane := (x - 0xF0) * 4 + Bits(b[1]) / 16 - 1;
        var low := Bits(b[1]) % 16 * 4096 + Bits(b[2]) * 64 + Bits(b[3]);
        if 0 <= plane < 16 then Some(([0xD800 + plane * 64 + low / 1024, 0xDC00 + low % 1024], b[4..])) else None
      else None
  }

  function FromUtf8(b: seq<Byte>): Option<Text> {
    if b == [] then Some([])
    else
      var first := ReadChar(b);
      if first.None? then None
      else
        var rest := FromUtf8(first.value.1);
        if rest.None? then None else Some(first.value.0 + rest.value)
  }

  lemma ReadShort(s: Text, rest: seq<Byte>)
    requires s != [] && !PairFirst(s)
    ensures ReadChar(Head(s) + rest) == Some(([if High(s[0]) || Low(s[0]) then 0x3F else s[0]], rest))
  {
    var b := Head(s);
    assert (b + rest)[|b|..] == rest;
  }

  /** The 16 low bits of a supplementary character, split over three bytes and over two units. */
  lemma SplitLow(h: int, l: int)
    requires 0 <= h < 64 && 0 <= l < 1024
    ensures var low := h * 1024 + l;
      && low / 1024 == h && low % 1024 == l && 0 <= low / 4096 < 16
      && low / 4096 * 4096 + low / 64 % 64 * 64 + low % 64 == low
  {
  }

  lemma ReadPair(s: Text, rest: seq<Byte>)
    requires PairFirst(s)
    ensures ReadChar(Head(s) + rest) == Some((s[..2], rest))
  {
    var h, l := s[0] - 0xD800, s[1] - 0xDC00;
    var low, plane := h % 64 * 1024 + l, h / 64 + 1;
    SplitLow(h % 64, l);
    ReadFour(plane, low, rest);
    assert Head(s) == FourBytes(plane, low);
    assert 0xD800 + h / 64 * 64 + h % 64 == s[0];
    assert s[..2] == [s[0], s[1]];
  }

  lemma ReadFour(plane: int, low: int, rest: seq<Byte>)
    requires 1 <= plane <= 16 && 0 <= low < 0x1_0000
    ensures ReadChar(FourBytes(plane, low) + rest) == Some(([0xD800 + (plane - 1) * 64 + low / 1024, 0xDC00 + low % 1024], rest))
  {
    var b := FourBytes(plane, low) + rest;
    assert b[4..] == rest;
    assert Bits(b[1]) / 16 == plane % 4 && Bits(b[1]) % 16 == low / 4096;
    assert Bits(b[1]) % 16 * 4096 + Bits(b[2]) * 64 + Bits(b[3]) == low;
  }

  /** Decoding the bytes of any text gives it back up to unpaired surrogates. */
  lemma {:induction false} Utf8RoundTrip(s: Text)
    ensures FromUtf8(Utf8(s)) == Some(Replaced(s))
  {
    if s != [] {
      var rest := s[Width(s)..];
      Utf8RoundTrip(rest);
      if PairFirst(s) {
        ReadPair(s, Utf8(rest));
      } else {
        ReadShort(s, Utf8(rest));
      }
    }
  }

  /** The bytes depend on the replaced text only. */
  lemma {:induction false} Utf8OfReplaced(s: Text)
    ensures Utf8(Replaced(s)) == Utf8(s)
  {
    if s != [] {
      var rest := s[Width(s)..];
      Utf8OfReplaced(rest);
      var r := Replaced(s);
      if PairFirst(s) {
        assert r[2..] == Replaced(rest);
      } else {
        assert r[1..] == Replaced(rest);
      }
    }
  }

  /** Two texts have the same bytes exactly when they differ in unpaired surrogates only. */
  lemma {:induction false} Utf8Injective(a: Text, b: Text)
    ensures Utf8(a) == Utf8(b) <==> Replaced(a) == Replaced(b)
  {
    Utf8RoundTrip(a);
    Utf8RoundTrip(b);
    Utf8OfReplaced(a);
    Utf8OfReplaced(b);
  }

  /** Replacement changes exactly the texts that are not well formed. */
  lemma {:induction false} WellFormedIsKept(s: Text)
    ensures Replaced(s) == s <==> WellFormed(s)
  {
    if s != [] {
      WellFormedIsKept(s[Width(s)..]);
      if PairFirst(s) {
        assert s == s[..2] + s[2..] && Replaced(s)[2..] == Replaced(s[2..]);
      } else {
        assert s == [s[0]] + s[1..] && Replaced(s)[1..] == Replaced(s[1..]);
      }
    }
  }

  /** An unpaired surrogate and a question mark have the same bytes. */
  lemma {:induction false} SurrogateCollides(u: Unit)
    requires High(u) || Low(u)
    ensures [u] != [0x3F] && Utf8([u]) == Utf8([0x3F])
  {
    assert [u][1..] == [0x3F as Unit][1..] == [];
  }
}
