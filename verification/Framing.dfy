/** What `DataOutputStream` writes: fixed-width integers and length-prefixed blocks. */
module Framing {
  import opened Common
  import opened JavaText

  const INT32 := 0x1_0000_0000
  const INT64 := 0x1_0000_0000_0000_0000

  datatype Item = Int32(n: int) | Int64(n: int) | Block(bytes: seq<Byte>)

  datatype Kind = OfInt32 | OfInt64 | OfBlock

  function KindOf(x: Item): Kind {
    match x
    case Int32(_) => OfInt32
    case Int64(_) => OfInt64
    case Block(_) => OfBlock
  }

  function KindsOf(items: seq<Item>): (k: seq<Kind>)
    ensures |k| == |items|
  {
    seq(|items|, i requires 0 <= i < |items| => KindOf(items[i]))
  }

  /** The values the Java types can hold. */
  predicate Fits(x: Item) {
    match x
    case Int32(n) => -0x8000_0000 <= n < 0x8000_0000
    case Int64(n) => -0x8000_0000_0000_0000 <= n < 0x8000_0000_0000_0000
    case Block(b) => |b| < 0x8000_0000
  }

  predicate AllFit(items: seq<Item>) {
    forall i :: 0 <= i < |items| ==> Fits(items[i])
  }

  /** `writeInt`, most significant byte first, in two's complement. */
  function WriteInt(n: int): (b: seq<Byte>)
    ensures |b| == 4
  {
    [n / 0x100_0000 % 256, n / 0x1_0000 % 256, n / 256 % 256, n % 256]
  }

  function WriteLong(n: int): (b: seq<Byte>)
    ensures |b| == 8
  {
    WriteInt(n / INT32) + WriteInt(n)
  }

  function Write(x: Item): seq<Byte> {
    match x
    case Int32(n) => WriteInt(n)
    case Int64(n) => WriteLong(n)
    case Block(b) => WriteInt(|b|) + b
  }

  function WriteItems(items: seq<Item>): seq<Byte> {
    if items == [] then [] else Write(items[0]) + WriteItems(items[1..])
  }

  // ---------------------------------------------------------------------------------------
  // Reading back
  // ---------------------------------------------------------------------------------------

  function ReadUnsigned(b: seq<Byte>): (n: int)
    requires |b| == 4
    ensures 0 <= n < INT32
  {
    b[0] as int * 0x100_0000 + b[1] as int * 0x1_0000 + b[2] as int * 256 + b[3] as int
  }

  function Signed(n: int, width: int): int {
    if n < width / 2 then n else n - width
  }

  function Read(kind: Kind, b: seq<Byte>): (r: Option<(Item, seq<Byte>)>)
    ensures r.Some? ==> |r.value.1| < |b| && KindOf(r.value.0) == kind
  {
    match kind
    case OfInt32 => if |b| < 4 then None else Some((Int32(Signed(ReadUnsigned(b[..4]), INT32)), b[4..]))
    case OfInt64 =>
      if |b| < 8 then None
      else Some((Int64(Signed(ReadUnsigned(b[..4]) * INT32 + ReadUnsigned(b[4..8]), INT64)), b[8..]))
    case OfBlock =>
      if |b| < 4 then None
      else
        var n := ReadUnsigned(b[..4]);
        if |b| < 4 + n then None else Some((Block(b[4..4 + n]), b[4 + n..]))
  }

  /** Reads items of the given kinds from the front of the bytes. */
  function ReadItems(kinds: seq<Kind>, b: seq<Byte>): (r: Option<(seq<Item>, seq<Byte>)>)
    ensures r.Some? ==> KindsOf(r.value.0) == kinds
  {
    if kinds == [] then Some(([], b))
    else
      var first := Read(kinds[0], b);
      if first.None? then None
      else
        var rest := ReadItems(kinds[1..], first.value.1);
        if rest.None? then None else Some(([first.value.0] + rest.value.0, rest.value.1))
  }

  lemma Quotients(n: int)
    ensures n / 0x1_0000 == n / 256 / 256
    ensures n / 0x100_0000 == n / 256 / 256 / 256
  {
  }

  lemma RemainderIs(n: int, q: int, r: int)
    requires n == q * INT32 + r && 0 <= r < INT32
    ensures n % INT32 == r
  {
  }

  lemma UnsignedRoundTrip(n: int)
    ensures ReadUnsigned(WriteInt(n)) == n % INT32
  {
    Quotients(n);
    var q1 := n / 256;
    var q2 := q1 / 256;
    var q3 := q2 / 256;
    var r := ReadUnsigned(WriteInt(n));
    assert r == q3 % 256 * 0x100_0000 + q2 % 256 * 0x1_0000 + q1 % 256 * 256 + n % 256;
    RemainderIs(n, q3 / 256, r);
  }

  lemma LongRoundTrip(n: int)
    requires -0x8000_0000_0000_0000 <= n < 0x8000_0000_0000_0000
    ensures Signed(ReadUnsigned(WriteInt(n / INT32)) * INT32 + ReadUnsigned(WriteInt(n)), INT64) == n
  {
    hide ReadUnsigned, WriteInt;
    UnsignedRoundTrip(n / INT32);
    UnsignedRoundTrip(n);
  }

  lemma ReadWritten(x: Item, rest: seq<Byte>)
    requires Fits(x)
    ensures Read(KindOf(x), Write(x) + rest) == Some((x, rest))
  {
    hide ReadUnsigned, WriteInt;
    var b := Write(x) + rest;
    match x
    case Int32(n) =>
      UnsignedRoundTrip(n);
      assert b[..4] == WriteInt(n) && b[4..] == rest;
    case Int64(n) =>
      LongRoundTrip(n);
      assert b[..4] == WriteInt(n / INT32) && b[4..8] == WriteInt(n) && b[8..] == rest;
    case Block(v) =>
      UnsignedRoundTrip(|v|);
      assert b[..4] == WriteInt(|v|) && b[4..4 + |v|] == v && b[4 + |v|..] == rest;
  }

  /** Items read back in their kinds are the items written, and nothing of what follows is used. */
  lemma {:induction false} ItemsRoundTrip(items: seq<Item>, rest: seq<Byte>)
    requires AllFit(items)
    ensures ReadItems(KindsOf(items), WriteItems(items) + rest) == Some((items, rest))
  {
    hide Read, Write, Fits;
    if items == [] {
      assert [] + rest == rest;
    } else {
      var more := WriteItems(items[1..]) + rest;
      assert WriteItems(items) + rest == Write(items[0]) + more;
      ReadWritten(items[0], more);
      ItemsRoundTrip(items[1..], rest);
      assert KindsOf(items)[1..] == KindsOf(items[1..]);
      assert [items[0]] + items[1..] == items;
    }
  }

  lemma {:induction false} WriteItemsAdd(a: seq<Item>, b: seq<Item>)
    ensures WriteItems(a + b) == WriteItems(a) + WriteItems(b)
  {
    hide Write;
    if a == [] {
      assert a + b == b;
    } else {
      assert (a + b)[1..] == a[1..] + b;
      WriteItemsAdd(a[1..], b);
      assert Write(a[0]) + WriteItems(a[1..]) + WriteItems(b) == Write(a[0]) + (WriteItems(a[1..]) + WriteItems(b));
    }
  }

  lemma WriteOneMore(items: seq<Item>, x: Item)
    ensures WriteItems(items + [x]) == WriteItems(items) + Write(x)
  {
    hide Write;
    WriteItemsAdd(items, [x]);
    assert [x][1..] == [];
    assert WriteItems([x]) == Write(x) + [] == Write(x);
  }

  function TextItem(t: Text): Item {
    Block(Utf8(t))
  }

  predicate IsText(x: Item) {
    x.Block? && FromUtf8(x.bytes).Some?
  }

  predicate AllTexts(items: seq<Item>) {
    forall i :: 0 <= i < |items| ==> IsText(items[i])
  }

  function TextOf(x: Item): Text
    requires IsText(x)
  {
    FromUtf8(x.bytes).value
  }

  lemma ReadsAsText(t: Text)
    ensures IsText(TextItem(t)) && TextOf(TextItem(t)) == Replaced(t)
  {
    Utf8RoundTrip(t);
  }

  /** The output buffer; `items` is what has been written so far. */
  class DataOutput {
    var bytes: seq<Byte>
    ghost var items: seq<Item>

    ghost predicate Valid()
      reads this
    {
      bytes == WriteItems(items)
    }

    constructor ()
      ensures Valid() && items == []
    {
      bytes, items := [], [];
    }

    method PutInt(n: int)
      requires Valid()
      modifies this
      ensures Valid() && items == old(items) + [Int32(n)]
    {
      hide WriteInt, WriteItems;
      WriteOneMore(items, Int32(n));
      bytes := bytes + WriteInt(n);
      items := items + [Int32(n)];
    }

    method PutLong(n: int)
      requires Valid()
      modifies this
      ensures Valid() && items == old(items) + [Int64(n)]
    {
      hide WriteLong, WriteItems;
      WriteOneMore(items, Int64(n));
      bytes := bytes + WriteLong(n);
      items := items + [Int64(n)];
    }

    method PutBytes(value: seq<Byte>)
      requires Valid()
      modifies this
      ensures Valid() && items == old(items) + [Block(value)]
    {
      hide WriteInt, WriteItems;
      WriteOneMore(items, Block(value));
      bytes := bytes + WriteInt(|value|);
      bytes := bytes + value;
      items := items + [Block(value)];
      assert old(bytes) + WriteInt(|value|) + value == old(bytes) + (WriteInt(|value|) + value);
    }

    method PutText(value: Text)
      requires Valid()
      modifies this
      ensures Valid() && items == old(items) + [TextItem(value)]
    {
      PutBytes(Utf8(value));
    }
  }
}
