/** The NUL-separated canonical texts and byte strings that the journal hashes, and the proof
    that each of them determines the fields it was built from. */
module NulText {
  import opened Common

  const NUL := '\0'

  predicate NulFree(s: string) {
    NUL !in s
  }

  // ---------------------------------------------------------------------------------------
  // Fields separated by NUL
  // ---------------------------------------------------------------------------------------

  /** A field is either text that ends at the next NUL or a block of known width, which may
      itself contain NULs. */
  datatype Field = Word(text: string) | Fixed(text: string)

  function Render(fields: seq<Field>): string {
    if fields == [] then ""
    else if |fields| == 1 then fields[0].text
    else fields[0].text + [NUL] + Render(fields[1..])
  }

  /** Two field lists of one shape: the same kinds of field at the same places, words without
      NUL, blocks of equal width. */
  predicate SameShape(a: seq<Field>, b: seq<Field>) {
    && |a| == |b|
    && forall i :: 0 <= i < |a| ==>
        if a[i].Word? then b[i].Word? && NulFree(a[i].text) && NulFree(b[i].text)
        else b[i].Fixed? && |a[i].text| == |b[i].text|
  }

  lemma SplitAtNul(x: string, y: string, u: string, v: string)
    requires NulFree(x) && NulFree(y)
    requires x + [NUL] + u == y + [NUL] + v
    ensures x == y && u == v
  {
    var whole := x + [NUL] + u;
    assert whole[|x|] == NUL && whole[|y|] == NUL;
    assert forall i :: 0 <= i < |x| ==> whole[i] == x[i] != NUL;
    assert forall i :: 0 <= i < |y| ==> whole[i] == y[i] != NUL;
    assert |x| == |y|;
    assert x == whole[..|x|] == y;
    assert u == whole[|x| + 1..] == v;
  }

  lemma SplitAtWidth(x: string, y: string, u: string, v: string)
    requires |x| == |y|
    requires x + [NUL] + u == y + [NUL] + v
    ensures x == y && u == v
  {
    var whole := x + [NUL] + u;
    assert x == whole[..|x|] == y;
    assert u == whole[|x| + 1..] == v;
  }

  /** Rendering is injective on every shape. */
  lemma {:induction false} RenderInjective(a: seq<Field>, b: seq<Field>)
    requires SameShape(a, b)
    requires Render(a) == Render(b)
    ensures a == b
  {
    if |a| <= 1 {
    } else {
      var u, v := Render(a[1..]), Render(b[1..]);
      if a[0].Word? {
        SplitAtNul(a[0].text, b[0].text, u, v);
      } else {
        SplitAtWidth(a[0].text, b[0].text, u, v);
      }
      RenderInjective(a[1..], b[1..]);
      assert a == [a[0]] + a[1..] && b == [b[0]] + b[1..];
    }
  }

  // ---------------------------------------------------------------------------------------
  // Decimal integers
  // ---------------------------------------------------------------------------------------

  function Digit(d: int): (c: char)
    requires 0 <= d < 10
    ensures '0' <= c <= '9'
  {
    '0' + (d as char)
  }

  function Digits(n: nat): (s: string)
    ensures |s| > 0
    ensures forall i :: 0 <= i < |s| ==> '0' <= s[i] <= '9'
  {
    if n < 10 then [Digit(n)] else Digits(n / 10) + [Digit(n % 10)]
  }

  /** `i64::to_string` and `i32::to_string`. */
  function Decimal(n: int): string {
    if n < 0 then "-" + Digits(-n) else Digits(n)
  }

  function DigitsValue(s: string): int {
    if s == "" then 0 else 10 * DigitsValue(s[..|s| - 1]) + (s[|s| - 1] as int - '0' as int)
  }

  lemma {:induction false} DigitsRoundTrip(n: nat)
    ensures DigitsValue(Digits(n)) == n
  {
    var s := Digits(n);
    if n < 10 {
      assert s[..0] == "";
    } else {
      DigitsRoundTrip(n / 10);
      assert s[..|s| - 1] == Digits(n / 10);
    }
  }

  lemma DecimalInjective(m: int, n: int)
    ensures Decimal(m) == Decimal(n) <==> m == n
    ensures Decimal(m) != "" && NulFree(Decimal(m))
  {
    hide Digits;
    if Decimal(m) == Decimal(n) {
      assert Decimal(m)[0] == Decimal(n)[0];
      if m < 0 {
        assert Decimal(m)[1..] == Digits(-m) && Decimal(n)[1..] == Digits(-n);
        DigitsRoundTrip(-m);
        DigitsRoundTrip(-n);
      } else {
        DigitsRoundTrip(m);
        DigitsRoundTrip(n);
      }
    }
  }

  // ---------------------------------------------------------------------------------------
  // Hexadecimal digests
  // ---------------------------------------------------------------------------------------

  const HEX := "0123456789abcdef"

  function Hex(bytes: seq<Byte>): (s: string)
    ensures |s| == 2 * |bytes|
  {
    if bytes == [] then "" else Hex(bytes[..|bytes| - 1]) + ByteHex(bytes[|bytes| - 1])
  }

  function ByteHex(b: Byte): (s: string)
    ensures |s| == 2
  {
    [HEX[b / 16], HEX[b % 16]]
  }

  lemma ByteHexInjective(x: Byte, y: Byte)
    requires ByteHex(x) == ByteHex(y)
    ensures x == y
  {
    assert ByteHex(x)[0] == ByteHex(y)[0] && ByteHex(x)[1] == ByteHex(y)[1];
    HexDigitInjective(x / 16, y / 16);
    HexDigitInjective(x % 16, y % 16);
  }

  lemma HexDigitInjective(x: int, y: int)
    requires 0 <= x < 16 && 0 <= y < 16
    ensures HEX[x] == HEX[y] <==> x == y
    ensures HEX[x] != NUL
  {
  }

  lemma {:induction false} HexNulFree(bytes: seq<Byte>)
    ensures NulFree(Hex(bytes))
  {
    if bytes != [] {
      var last := bytes[|bytes| - 1];
      HexNulFree(bytes[..|bytes| - 1]);
      HexDigitInjective(last / 16, last / 16);
      HexDigitInjective(last % 16, last % 16);
    }
  }

  lemma {:induction false} HexInjective(a: seq<Byte>, b: seq<Byte>)
    requires Hex(a) == Hex(b)
    ensures a == b
  {
    hide ByteHex;
    if a != [] {
      var n := |a| - 1;
      var s, t := Hex(a), Hex(b);
      assert s[..2 * n] == Hex(a[..n]) && t[..2 * n] == Hex(b[..n]);
      assert s[2 * n..] == ByteHex(a[n]) && t[2 * n..] == ByteHex(b[n]);
      HexInjective(a[..n], b[..n]);
      ByteHexInjective(a[n], b[n]);
      assert a == a[..n] + [a[n]] && b == b[..n] + [b[n]];
    }
  }

  /** `checksum_hex` pushes two characters per byte. */
  method ChecksumHex(checksum: Checksum) returns (out: string)
    ensures out == Hex(checksum)
    ensures |out| == 64 && NulFree(out)
  {
    out := "";
    for i := 0 to |checksum|
      invariant out == Hex(checksum[..i])
    {
      assert checksum[..i + 1][..i] == checksum[..i];
      out := out + [HEX[checksum[i] / 16]];
      out := out + [HEX[checksum[i] % 16]];
    }
    assert checksum[..|checksum|] == checksum;
    HexNulFree(checksum);
  }

  // ---------------------------------------------------------------------------------------
  // Fixed-width big-endian integers
  // ---------------------------------------------------------------------------------------

  function Pow256(w: nat): (p: int)
    ensures p > 0
  {
    if w == 0 then 1 else 256 * Pow256(w - 1)
  }

  /** The `w` low-order bytes of a two's complement integer, most significant first. */
  function BigEndian(n: int, w: nat): (s: string)
    ensures |s| == w
    decreases w
  {
    if w == 0 then "" else BigEndian(n / 256, w - 1) + [(n % 256) as char]
  }

  lemma {:induction false} BigEndianCongruent(m: int, n: int, w: nat) returns (k: int)
    requires BigEndian(m, w) == BigEndian(n, w)
    ensures m - n == k * Pow256(w)
    decreases w
  {
    if w == 0 {
      k := m - n;
    } else {
      var s, t := BigEndian(m, w), BigEndian(n, w);
      assert s[..w - 1] == BigEndian(m / 256, w - 1) && t[..w - 1] == BigEndian(n / 256, w - 1);
      assert s[w - 1] == t[w - 1];
      k := BigEndianCongruent(m / 256, n / 256, w - 1);
      var p := Pow256(w - 1);
      assert m - n == 256 * (m / 256 - n / 256) == 256 * (k * p) == k * (256 * p);
    }
  }

  lemma MultipleOf(k: int, p: int)
    requires p > 0
    ensures k >= 1 ==> k * p >= p
    ensures k <= -1 ==> k * p <= -p
  {
    if k >= 1 {
      assert k * p == (k - 1) * p + p;
    } else if k <= -1 {
      assert k * p == (k + 1) * p - p;
    }
  }

  /** Two integers within one window of 256^w values, such as the signed `w`-byte range, that
      have the same bytes are equal. */
  lemma BigEndianInjective(m: int, n: int, low: int, w: nat)
    requires low <= m < low + Pow256(w) && low <= n < low + Pow256(w)
    requires BigEndian(m, w) == BigEndian(n, w)
    ensures m == n
  {
    var k := BigEndianCongruent(m, n, w);
    MultipleOf(k, Pow256(w));
  }
}
