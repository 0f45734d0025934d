/** Client metadata and the canonical bytes of an envelope input. */
module EnvelopeInputs {
  import opened Common
  import opened JavaText
  import opened Framing
  import opened Sorting

  const MAX_METADATA_ENTRIES := 32
  const MAX_METADATA_BYTES := 8_192
  const MAX_METADATA_KEY_BYTES := 128
  const MAX_METADATA_VALUE_BYTES := 1_024
  const MAX_PAYLOAD_BYTES := 1_048_576

  // ---------------------------------------------------------------------------------------
  // CanonicalMetadata
  // ---------------------------------------------------------------------------------------

  datatype MetadataEntry = MetadataEntry(key: Text, value: Text)

  predicate Alphanumeric(u: Unit) {
    0x61 <= u <= 0x7A || 0x30 <= u <= 0x39
  }

  /** `[a-z0-9][a-z0-9._-]*` */
  predicate KeyPattern(key: Text) {
    && key != [] && Alphanumeric(key[0])
    && forall i :: 0 <= i < |key| ==> Alphanumeric(key[i]) || key[i] == 0x2E || key[i] == 0x5F || key[i] == 0x2D
  }

  /** What the constructor of a metadata entry lets through. */
  predicate ValidEntry(e: MetadataEntry) {
    KeyPattern(e.key) && |Utf8(e.key)| <= MAX_METADATA_KEY_BYTES && |Utf8(e.value)| <= MAX_METADATA_VALUE_BYTES
  }

  predicate AllValid(entries: seq<MetadataEntry>) {
    forall i :: 0 <= i < |entries| ==> ValidEntry(entries[i])
  }

  datatype Refusal = CountExceeded | DuplicateKey(key: Text) | BytesExceeded

  datatype Metadata = Canonical(entries: seq<MetadataEntry>) | Refused(why: Refusal)

  function KeyLe(a: MetadataEntry, b: MetadataEntry): bool {
    LexLe(Utf8(a.key), Utf8(b.key))
  }

  predicate UniqueKeys(entries: seq<MetadataEntry>) {
    forall i, j :: 0 <= i < j < |entries| ==> entries[i].key != entries[j].key
  }

  /** The entry repeats the key of an earlier one. */
  predicate RepeatsKey(entries: seq<MetadataEntry>, j: nat)
    requires j < |entries|
  {
    exists i :: 0 <= i < j && entries[i].key == entries[j].key
  }

  function MetadataBytes(entries: seq<MetadataEntry>): nat {
    if entries == [] then 0
    else
      var last := entries[|entries| - 1];
      MetadataBytes(entries[..|entries| - 1]) + |Utf8(last.key)| + |Utf8(last.value)|
  }

  predicate Acceptable(entries: seq<MetadataEntry>) {
    |entries| <= MAX_METADATA_ENTRIES && UniqueKeys(entries) && MetadataBytes(entries) <= MAX_METADATA_BYTES
  }

  /** Accepts exactly the acceptable lists, and says which bound the others break. */
  method ValidateAndSort(entries: Option<seq<MetadataEntry>>) returns (r: Metadata)
    ensures r.Canonical? <==> entries.Some? && Acceptable(entries.value)
    ensures r.Canonical? ==> r.entries == Sort(entries.value, KeyLe)
    ensures r == Refused(CountExceeded) <==> entries.None? || |entries.value| > MAX_METADATA_ENTRIES
    ensures r.Refused? && r.why.DuplicateKey? ==> exists j ::
      0 <= j < |entries.value| && RepeatsKey(entries.value, j) && UniqueKeys(entries.value[..j]) && r.why.key == entries.value[j].key
    ensures r == Refused(BytesExceeded) <==>
      entries.Some? && |entries.value| <= MAX_METADATA_ENTRIES && UniqueKeys(entries.value) && MetadataBytes(entries.value) > MAX_METADATA_BYTES
  {
    hide KeyLe, Utf8, ValidEntry, Sort, UniqueKeys, RepeatsKey;
    if entries.None? || |entries.value| > MAX_METADATA_ENTRIES {
      return Refused(CountExceeded);
    }
    var list := entries.value;
    var keys: set<Text>, totalBytes, canonical := {}, 0, [];
    NoKeys();
    for i := 0 to |list|
      invariant keys == KeySet(list[..i])
      invariant UniqueKeys(list[..i])
      invariant totalBytes == MetadataBytes(list[..i])
      invariant canonical == list[..i]
    {
      var entry := list[i];
      assert list[..i + 1][..i] == list[..i];
      KeyStep(list, i);
      if entry.key in keys {
        return Refused(DuplicateKey(entry.key));
      }
      keys := keys + {entry.key};
      totalBytes := totalBytes + (|Utf8(entry.key)| + |Utf8(entry.value)|);
      canonical := canonical + [entry];
    }
    assert list[..|list|] == list;
    if totalBytes > MAX_METADATA_BYTES {
      return Refused(BytesExceeded);
    }
    canonical := Sort(canonical, KeyLe);
    return Canonical(canonical);
  }

  function KeySet(entries: seq<MetadataEntry>): set<Text> {
    set e <- entries :: e.key
  }

  lemma NoKeys()
    ensures KeySet([]) == {} && UniqueKeys([])
  {
  }

  /** The key set tells whether the next entry repeats a key. */
  lemma KeyStep(entries: seq<MetadataEntry>, i: nat)
    requires i < |entries| && UniqueKeys(entries[..i])
    ensures entries[i].key in KeySet(entries[..i]) <==> RepeatsKey(entries, i)
    ensures RepeatsKey(entries, i) ==> !UniqueKeys(entries)
    ensures !RepeatsKey(entries, i) ==> UniqueKeys(entries[..i + 1])
    ensures KeySet(entries[..i + 1]) == KeySet(entries[..i]) + {entries[i].key}
  {
    var front := entries[..i];
    assert entries[..i + 1] == front + [entries[i]];
    assert forall k :: 0 <= k < i ==> front[k] == entries[k] && front[k] in front;
  }

  lemma KeyLeIsPreorder()
    ensures Preorder(KeyLe)
  {
    hide LexLe, Utf8;
    forall a, b ensures KeyLe(a, b) || KeyLe(b, a) {
      LexOrder(Utf8(a.key), Utf8(b.key), []);
    }
    forall a, b, c | KeyLe(a, b) && KeyLe(b, c) ensures KeyLe(a, c) {
      LexOrder(Utf8(a.key), Utf8(b.key), Utf8(c.key));
    }
  }

  lemma {:induction false} AsciiIsWellFormed(s: Text)
    requires forall i :: 0 <= i < |s| ==> s[i] < 0x80
    ensures WellFormed(s)
  {
    if s != [] {
      AsciiIsWellFormed(s[1..]);
    }
  }

  /** The byte order tells unique keys apart. */
  lemma UniqueKeysAreStrict(entries: seq<MetadataEntry>)
    requires AllValid(entries) && UniqueKeys(entries)
    ensures Strict(entries, KeyLe)
  {
    hide LexLe, Utf8, Replaced, WellFormed;
    forall a, b | a in entries && b in entries && KeyLe(a, b) && KeyLe(b, a) ensures a == b {
      LexOrder(Utf8(a.key), Utf8(b.key), []);
      Utf8Injective(a.key, b.key);
      KeyIsKept(a);
      KeyIsKept(b);
    }
  }

  lemma KeyIsKept(e: MetadataEntry)
    requires ValidEntry(e)
    ensures Replaced(e.key) == e.key
  {
    AsciiIsWellFormed(e.key);
    WellFormedIsKept(e.key);
  }

  /** The canonical order depends on the entries only, not on the order they came in. */
  lemma {:induction false} CanonicalOrder(xs: seq<MetadataEntry>, ys: seq<MetadataEntry>)
    requires AllValid(xs) && UniqueKeys(xs)
    ensures Ascending(Sort(xs, KeyLe), KeyLe) && multiset(Sort(xs, KeyLe)) == multiset(xs)
    ensures Sort(xs, KeyLe) == Sort(ys, KeyLe) <==> multiset(xs) == multiset(ys)
  {
    hide KeyLe, ValidEntry;
    KeyLeIsPreorder();
    SortSorts(xs, KeyLe);
    SortSorts(ys, KeyLe);
    UniqueKeysAreStrict(xs);
    if multiset(xs) == multiset(ys) {
      SameMembers(Sort(xs, KeyLe), xs);
      OrderedIsUnique(Sort(xs, KeyLe), Sort(ys, KeyLe), KeyLe);
    }
  }

  // ---------------------------------------------------------------------------------------
  // EnvelopeInput
  // ---------------------------------------------------------------------------------------

  datatype EnvelopeInput = EnvelopeInput(
    eventId: Text, ns: Text, logicalStreamType: Text, streamKey: seq<Byte>, eventType: Text, schemaVersion: int, operationType: Text,
    operationId: Text, eventRole: Text, requestedMinimumDurability: Text, clientMetadata: seq<MetadataEntry>, typedPayload: seq<Byte>,
    canonicalizationVersion: int, eventContractHandle: Text)

  predicate BoundedText(t: Text, max: nat) {
    |Utf8(t)| <= max
  }

  predicate PositiveInt32(n: int) {
    0 < n < 0x8000_0000
  }

  /** The bounds the constructor enforces, on the metadata as given. */
  predicate ValidInput(e: EnvelopeInput) {
    && BoundedText(e.eventId, 36) && BoundedText(e.ns, 128) && BoundedText(e.logicalStreamType, 128) && BoundedText(e.eventType, 128)
    && PositiveInt32(e.schemaVersion) && BoundedText(e.operationType, 128) && BoundedText(e.operationId, 256)
    && BoundedText(e.eventRole, 64) && BoundedText(e.requestedMinimumDurability, 64) && PositiveInt32(e.canonicalizationVersion)
    && BoundedText(e.eventContractHandle, 256) && 0 < |e.streamKey| <= 1_024 && |e.typedPayload| <= MAX_PAYLOAD_BYTES
    && AllValid(e.clientMetadata) && Acceptable(e.clientMetadata)
  }

  /** The record the constructor leaves. */
  function Constructed(e: EnvelopeInput): EnvelopeInput {
    e.(clientMetadata := Sort(e.clientMetadata, KeyLe))
  }

  function HeadItems(e: EnvelopeInput): seq<Item> {
    [ TextItem(e.eventId), TextItem(e.ns), TextItem(e.logicalStreamType), Block(e.streamKey), TextItem(e.eventType), Int32(e.schemaVersion),
      TextItem(e.operationType), TextItem(e.operationId), TextItem(e.eventRole), TextItem(e.requestedMinimumDurability),
      Int32(|e.clientMetadata|) ]
  }

  function MetadataItems(entries: seq<MetadataEntry>): (items: seq<Item>)
    ensures |items| == 2 * |entries|
  {
    if entries == [] then []
    else
      var n := |entries| - 1;
      MetadataItems(entries[..n]) + [TextItem(entries[n].key)] + [TextItem(entries[n].value)]
  }

  function TailItems(e: EnvelopeInput): seq<Item> {
    [Block(e.typedPayload), Int32(e.canonicalizationVersion), TextItem(e.eventContractHandle)]
  }

  /** The bytes of a record whose metadata is in canonical order. */
  function Encoding(e: EnvelopeInput): seq<Byte> {
    WriteItems(HeadItems(e) + MetadataItems(e.clientMetadata) + TailItems(e))
  }

  method PutHead(e: EnvelopeInput, output: DataOutput)
    requires output.Valid() && output.items == []
    modifies output
    ensures output.Valid() && output.items == HeadItems(e)
  {
    hide WriteItems, TextItem;
    output.PutText(e.eventId);
    output.PutText(e.ns);
    output.PutText(e.logicalStreamType);
    output.PutBytes(e.streamKey);
    output.PutText(e.eventType);
    output.PutInt(e.schemaVersion);
    output.PutText(e.operationType);
    output.PutText(e.operationId);
    output.PutText(e.eventRole);
    output.PutText(e.requestedMinimumDurability);
    output.PutInt(|e.clientMetadata|);
  }

  method CanonicalBytes(e: EnvelopeInput) returns (bytes: seq<Byte>)
    ensures bytes == Encoding(e)
  {
    hide WriteItems, TextItem, HeadItems;
    var output := new DataOutput();
    PutHead(e, output);
    for i := 0 to |e.clientMetadata|
      invariant output.Valid() && output.items == HeadItems(e) + MetadataItems(e.clientMetadata[..i])
    {
      output.PutText(e.clientMetadata[i].key);
      output.PutText(e.clientMetadata[i].value);
      assert e.clientMetadata[..i + 1][..i] == e.clientMetadata[..i];
    }
    assert e.clientMetadata[..|e.clientMetadata|] == e.clientMetadata;
    output.PutBytes(e.typedPayload);
    output.PutInt(e.canonicalizationVersion);
    output.PutText(e.eventContractHandle);
    assert output.items == HeadItems(e) + MetadataItems(e.clientMetadata) + TailItems(e);
    return output.bytes;
  }

  // ---------------------------------------------------------------------------------------
  // Decoding
  // ---------------------------------------------------------------------------------------

  function HeadKinds(): seq<Kind> {
    [OfBlock, OfBlock, OfBlock, OfBlock, OfBlock, OfInt32, OfBlock, OfBlock, OfBlock, OfBlock, OfInt32]
  }

  function TailKinds(): seq<Kind> {
    [OfBlock, OfInt32, OfBlock]
  }

  function MetadataKinds(count: nat): seq<Kind> {
    seq(2 * count, _ => OfBlock)
  }

  function EntriesOf(items: seq<Item>): seq<MetadataEntry>
    requires AllTexts(items) && |items| % 2 == 0
  {
    if items == [] then []
    else
      var n := |items|;
      EntriesOf(items[..n - 2]) + [MetadataEntry(TextOf(items[n - 2]), TextOf(items[n - 1]))]
  }

  /** The fields that hold text, in the order they are written. */
  function HeadTexts(head: seq<Item>): seq<Item>
    requires |head| == 11
  {
    [head[0], head[1], head[2], head[4], head[6], head[7], head[8], head[9]]
  }

  function Assemble(head: seq<Item>, metadata: seq<Item>, tail: seq<Item>): Option<EnvelopeInput>
    requires KindsOf(head) == HeadKinds() && KindsOf(tail) == TailKinds() && |metadata| % 2 == 0
  {
    assert forall i :: 0 <= i < 11 ==> KindOf(head[i]) == HeadKinds()[i];
    assert forall i :: 0 <= i < 3 ==> KindOf(tail[i]) == TailKinds()[i];
    var t := HeadTexts(head) + [tail[2]];
    if !AllTexts(t) || !AllTexts(metadata) then None
    else
      Some(EnvelopeInput(TextOf(t[0]), TextOf(t[1]), TextOf(t[2]), head[3].bytes, TextOf(t[3]), head[5].n, TextOf(t[4]), TextOf(t[5]),
                         TextOf(t[6]), TextOf(t[7]), EntriesOf(metadata), tail[0].bytes, tail[1].n, TextOf(t[8])))
  }

  /** Reads an envelope input back from its canonical bytes. */
  function Decode(b: seq<Byte>): Option<EnvelopeInput> {
    var head := ReadItems(HeadKinds(), b);
    if head.None? then None
    else
      assert KindOf(head.value.0[10]) == KindsOf(head.value.0)[10] == OfInt32;
      var count := head.value.0[10].n;
      if count < 0 then None
      else
        var metadata := ReadItems(MetadataKinds(count), head.value.1);
        if metadata.None? then None
        else
          var tail := ReadItems(TailKinds(), metadata.value.1);
          if tail.None? || tail.value.1 != [] then None else Assemble(head.value.0, metadata.value.0, tail.value.0)
  }

  // ---------------------------------------------------------------------------------------
  // Round trip
  // ---------------------------------------------------------------------------------------

  function CleanEntry(e: MetadataEntry): MetadataEntry {
    MetadataEntry(Replaced(e.key), Replaced(e.value))
  }

  function CleanAll(entries: seq<MetadataEntry>): (r: seq<MetadataEntry>)
    ensures |r| == |entries| && forall i :: 0 <= i < |r| ==> r[i] == CleanEntry(entries[i])
  {
    seq(|entries|, i requires 0 <= i < |entries| => CleanEntry(entries[i]))
  }

  /** The input with unpaired surrogates replaced, which changes nothing in well-formed texts. */
  function Clean(e: EnvelopeInput): EnvelopeInput {
    EnvelopeInput(Replaced(e.eventId), Replaced(e.ns), Replaced(e.logicalStreamType), e.streamKey, Replaced(e.eventType),
                  e.schemaVersion, Replaced(e.operationType), Replaced(e.operationId), Replaced(e.eventRole),
                  Replaced(e.requestedMinimumDurability), CleanAll(e.clientMetadata), e.typedPayload, e.canonicalizationVersion,
                  Replaced(e.eventContractHandle))
  }

  lemma {:induction false} EntriesRoundTrip(entries: seq<MetadataEntry>)
    ensures AllTexts(MetadataItems(entries)) && EntriesOf(MetadataItems(entries)) == CleanAll(entries)
    ensures KindsOf(MetadataItems(entries)) == MetadataKinds(|entries|)
  {
    hide TextItem, IsText, TextOf, Replaced;
    if entries != [] {
      var n := |entries| - 1;
      EntriesRoundTrip(entries[..n]);
      ReadsAsText(entries[n].key);
      ReadsAsText(entries[n].value);
      var items := MetadataItems(entries);
      assert items[..2 * n] == MetadataItems(entries[..n]);
      TextsAreBlocks(items);
      assert CleanAll(entries) == CleanAll(entries[..n]) + [CleanEntry(entries[n])];
    }
  }

  lemma TextsAreBlocks(items: seq<Item>)
    requires AllTexts(items)
    ensures forall i :: 0 <= i < |items| ==> KindOf(items[i]) == OfBlock
  {
  }

  lemma AssembleRoundTrip(e: EnvelopeInput)
    ensures KindsOf(HeadItems(e)) == HeadKinds() && KindsOf(TailItems(e)) == TailKinds()
    ensures Assemble(HeadItems(e), MetadataItems(e.clientMetadata), TailItems(e)) == Some(Clean(e))
  {
    hide Utf8, FromUtf8, Replaced, EntriesOf, MetadataItems;
    ReadsAsText(e.eventId);
    ReadsAsText(e.ns);
    ReadsAsText(e.logicalStreamType);
    ReadsAsText(e.eventType);
    ReadsAsText(e.operationType);
    ReadsAsText(e.operationId);
    ReadsAsText(e.eventRole);
    ReadsAsText(e.requestedMinimumDurability);
    ReadsAsText(e.eventContractHandle);
    EntriesRoundTrip(e.clientMetadata);
  }

  lemma {:induction false} MetadataFits(entries: seq<MetadataEntry>)
    requires AllValid(entries)
    ensures AllFit(MetadataItems(entries))
  {
    hide Utf8;
    if entries != [] {
      MetadataFits(entries[..|entries| - 1]);
      assert ValidEntry(entries[|entries| - 1]);
    }
  }

  lemma ItemsFit(e: EnvelopeInput)
    requires ValidInput(e)
    ensures AllFit(HeadItems(e)) && AllFit(MetadataItems(e.clientMetadata)) && AllFit(TailItems(e))
    ensures HeadItems(e)[10] == Int32(|e.clientMetadata|)
  {
    hide Utf8, MetadataItems, UniqueKeys, MetadataBytes, ValidEntry;
    MetadataFits(e.clientMetadata);
  }

  /** The decoder recovers every field from the canonical bytes. */
  lemma {:induction false} EncodingRoundTrip(e: EnvelopeInput)
    requires ValidInput(e)
    ensures Decode(Encoding(e)) == Some(Clean(e))
  {
    hide ReadItems, WriteItems, Assemble, Clean, HeadItems, MetadataItems, TailItems, ValidInput, KindsOf, MetadataKinds, HeadKinds, TailKinds,
      AllFit;
    var h, m, t := HeadItems(e), MetadataItems(e.clientMetadata), TailItems(e);
    ItemsFit(e);
    AssembleRoundTrip(e);
    EntriesRoundTrip(e.clientMetadata);
    WriteItemsAdd(h + m, t);
    WriteItemsAdd(h, m);
    var more := WriteItems(t) + [];
    assert Encoding(e) == WriteItems(h) + (WriteItems(m) + more);
    ItemsRoundTrip(h, WriteItems(m) + more);
    ItemsRoundTrip(m, more);
    ItemsRoundTrip(t, []);
  }

  // ---------------------------------------------------------------------------------------
  // Equal bytes
  // ---------------------------------------------------------------------------------------

  lemma {:induction false} CleanMetadataItems(entries: seq<MetadataEntry>)
    ensures MetadataItems(CleanAll(entries)) == MetadataItems(entries)
  {
    hide Utf8, Replaced;
    if entries != [] {
      var n := |entries| - 1;
      CleanMetadataItems(entries[..n]);
      assert CleanAll(entries)[..n] == CleanAll(entries[..n]);
      Utf8OfReplaced(entries[n].key);
      Utf8OfReplaced(entries[n].value);
    }
  }

  lemma CleanHasSameBytes(e: EnvelopeInput)
    ensures Encoding(Clean(e)) == Encoding(e)
  {
    hide Utf8, Replaced, MetadataItems, WriteItems;
    CleanMetadataItems(e.clientMetadata);
    Utf8OfReplaced(e.eventId);
    Utf8OfReplaced(e.ns);
    Utf8OfReplaced(e.logicalStreamType);
    Utf8OfReplaced(e.eventType);
    Utf8OfReplaced(e.operationType);
    Utf8OfReplaced(e.operationId);
    Utf8OfReplaced(e.eventRole);
    Utf8OfReplaced(e.requestedMinimumDurability);
    Utf8OfReplaced(e.eventContractHandle);
  }

  lemma KeyLeOfClean(a: MetadataEntry, b: MetadataEntry)
    ensures KeyLe(CleanEntry(a), CleanEntry(b)) == KeyLe(a, b)
  {
    hide Utf8, Replaced, LexLe;
    Utf8OfReplaced(a.key);
    Utf8OfReplaced(b.key);
  }

  lemma {:induction false} PlaceCleans(x: MetadataEntry, xs: seq<MetadataEntry>)
    ensures Place(CleanEntry(x), CleanAll(xs), KeyLe) == CleanAll(Place(x, xs, KeyLe))
  {
    hide CleanEntry, KeyLe;
    if xs != [] {
      var n := |xs| - 1;
      KeyLeOfClean(xs[n], x);
      PlaceCleans(x, xs[..n]);
      assert CleanAll(xs)[..n] == CleanAll(xs[..n]);
    }
  }

  /** Replacing surrogates commutes with sorting. */
  lemma {:induction false} SortCleans(xs: seq<MetadataEntry>)
    ensures Sort(CleanAll(xs), KeyLe) == CleanAll(Sort(xs, KeyLe))
  {
    hide CleanEntry, KeyLe, Place;
    if xs != [] {
      var n := |xs| - 1;
      SortCleans(xs[..n]);
      PlaceCleans(xs[n], Sort(xs[..n], KeyLe));
      assert CleanAll(xs)[..n] == CleanAll(xs[..n]);
    }
  }

  lemma CleanStaysValid(xs: seq<MetadataEntry>)
    requires AllValid(xs) && UniqueKeys(xs)
    ensures AllValid(CleanAll(xs)) && UniqueKeys(CleanAll(xs))
  {
    hide Utf8, Replaced, KeyPattern;
    forall i | 0 <= i < |xs| ensures ValidEntry(CleanAll(xs)[i]) && CleanAll(xs)[i].key == xs[i].key {
      assert ValidEntry(xs[i]);
      KeyIsKept(xs[i]);
      Utf8OfReplaced(xs[i].value);
    }
  }

  lemma {:induction false} ByteTotalOfSort(xs: seq<MetadataEntry>)
    ensures MetadataBytes(Sort(xs, KeyLe)) == MetadataBytes(xs)
  {
    hide Utf8, KeyLe, Place;
    if xs != [] {
      ByteTotalOfSort(xs[..|xs| - 1]);
      ByteTotalOfPlace(xs[|xs| - 1], Sort(xs[..|xs| - 1], KeyLe));
    }
  }

  lemma {:induction false} ByteTotalOfPlace(x: MetadataEntry, xs: seq<MetadataEntry>)
    ensures MetadataBytes(Place(x, xs, KeyLe)) == MetadataBytes(xs) + |Utf8(x.key)| + |Utf8(x.value)|
  {
    hide Utf8, KeyLe;
    if xs != [] {
      var n := |xs| - 1;
      if KeyLe(xs[n], x) {
        assert (xs + [x])[..n + 1] == xs;
      } else {
        ByteTotalOfPlace(x, xs[..n]);
        var placed := Place(x, xs[..n], KeyLe);
        assert (placed + [xs[n]])[..|placed|] == placed;
      }
    } else {
      assert [x][..0] == [];
    }
  }

  lemma UniqueOfPermutation(xs: seq<MetadataEntry>, ys: seq<MetadataEntry>)
    requires multiset(xs) == multiset(ys) && UniqueKeys(xs)
    ensures UniqueKeys(ys)
  {
    forall i, j | 0 <= i < j < |ys| ensures ys[i].key != ys[j].key {
      var a, b := PairOfPermutation(xs, ys, i, j);
    }
  }

  /** The constructor's result is valid again. */
  lemma {:induction false} ConstructedIsValid(e: EnvelopeInput)
    requires ValidInput(e)
    ensures ValidInput(Constructed(e))
  {
    hide Utf8, KeyPattern, KeyLe, Sort, UniqueKeys, MetadataBytes;
    var xs := e.clientMetadata;
    CanonicalOrder(xs, xs);
    SameMembers(Sort(xs, KeyLe), xs);
    UniqueOfPermutation(xs, Sort(xs, KeyLe));
    ByteTotalOfSort(xs);
    forall i | 0 <= i < |xs| ensures ValidEntry(Sort(xs, KeyLe)[i]) {
      assert Sort(xs, KeyLe)[i] in xs;
    }
  }

  /** Two inputs have equal canonical bytes exactly when their fields are equal and their metadata
      lists are permutations of each other, texts being compared up to unpaired surrogates. */
  lemma {:induction false} EqualBytesExactlyWhen(a: EnvelopeInput, b: EnvelopeInput)
    requires ValidInput(a) && ValidInput(b)
    ensures Encoding(Constructed(a)) == Encoding(Constructed(b))
       <==> (&& Clean(a).(clientMetadata := []) == Clean(b).(clientMetadata := [])
             && multiset(CleanAll(a.clientMetadata)) == multiset(CleanAll(b.clientMetadata)))
  {
    hide Encoding, Decode, Utf8, Replaced, KeyLe, Sort, ValidEntry, UniqueKeys, MetadataBytes;
    ConstructedIsValid(a);
    ConstructedIsValid(b);
    EncodingRoundTrip(Constructed(a));
    EncodingRoundTrip(Constructed(b));
    CleanHasSameBytes(Constructed(a));
    CleanHasSameBytes(Constructed(b));
    SortCleans(a.clientMetadata);
    SortCleans(b.clientMetadata);
    CleanStaysValid(a.clientMetadata);
    CanonicalOrder(CleanAll(a.clientMetadata), CleanAll(b.clientMetadata));
  }

  ghost predicate AllWellFormed(e: EnvelopeInput) {
    && WellFormed(e.eventId) && WellFormed(e.ns) && WellFormed(e.logicalStreamType) && WellFormed(e.eventType)
    && WellFormed(e.operationType) && WellFormed(e.operationId) && WellFormed(e.eventRole) && WellFormed(e.requestedMinimumDurability)
    && WellFormed(e.eventContractHandle)
    && forall i :: 0 <= i < |e.clientMetadata| ==> WellFormed(e.clientMetadata[i].key) && WellFormed(e.clientMetadata[i].value)
  }

  lemma WellFormedIsClean(e: EnvelopeInput)
    ensures Clean(e) == e <==> AllWellFormed(e)
  {
    hide Replaced, WellFormed;
    WellFormedIsKept(e.eventId);
    WellFormedIsKept(e.ns);
    WellFormedIsKept(e.logicalStreamType);
    WellFormedIsKept(e.eventType);
    WellFormedIsKept(e.operationType);
    WellFormedIsKept(e.operationId);
    WellFormedIsKept(e.eventRole);
    WellFormedIsKept(e.requestedMinimumDurability);
    WellFormedIsKept(e.eventContractHandle);
    forall i | 0 <= i < |e.clientMetadata|
      ensures CleanEntry(e.clientMetadata[i]) == e.clientMetadata[i]
         <==> WellFormed(e.clientMetadata[i].key) && WellFormed(e.clientMetadata[i].value)
    {
      WellFormedIsKept(e.clientMetadata[i].key);
      WellFormedIsKept(e.clientMetadata[i].value);
    }
    if Clean(e) == e {
      forall i | 0 <= i < |e.clientMetadata| ensures CleanEntry(e.clientMetadata[i]) == e.clientMetadata[i] {
        assert CleanAll(e.clientMetadata)[i] == e.clientMetadata[i];
      }
    }
    if AllWellFormed(e) {
      assert CleanAll(e.clientMetadata) == e.clientMetadata;
    }
  }

  /** On well-formed texts the fields themselves decide, and the decoder returns the record. */
  lemma {:induction false} WellFormedInputs(a: EnvelopeInput, b: EnvelopeInput)
    requires ValidInput(a) && ValidInput(b) && AllWellFormed(a) && AllWellFormed(b)
    ensures Decode(Encoding(a)) == Some(a)
    ensures Encoding(Constructed(a)) == Encoding(Constructed(b))
       <==> a.(clientMetadata := []) == b.(clientMetadata := []) && multiset(a.clientMetadata) == multiset(b.clientMetadata)
  {
    hide Encoding, Decode, ValidInput, AllWellFormed, Clean, Constructed;
    EqualBytesExactlyWhen(a, b);
    EncodingRoundTrip(a);
    WellFormedIsClean(a);
    WellFormedIsClean(b);
    CleanFields(a);
    CleanFields(b);
  }

  lemma CleanFields(e: EnvelopeInput)
    ensures Clean(e).clientMetadata == CleanAll(e.clientMetadata)
  {
  }
}
