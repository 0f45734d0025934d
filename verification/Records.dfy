/** Rows of the journal's tables and the canonical texts their checksums cover. */
module Records {
  import opened Common
  import opened NulText

  /** A row of `stored_envelope`. It is written once and never updated. */
  datatype Envelope = Envelope(
    journalSequence: int,
    eventId: string,
    installationId: string,
    producerId: string,
    producerInstanceId: string,
    producerOpSeq: int,
    ns: string,
    streamType: string,
    streamKey: string,
    eventType: string,
    schemaVersion: int,
    streamSequence: int,
    payloadDigest: Checksum,
    requestFingerprint: Checksum,
    checksum: Checksum,
    payloadRefId: string,
    payloadLength: int,
    routingVersion: int,
    receivedAtMs: int)

  /** A row of `lifecycle_state`; the retention status is always PRESENT. */
  datatype Lifecycle = Lifecycle(revision: int, checksum: Checksum, status: Status, updatedAtMs: int)

  /** A row of `delivery_state`; its primary key is the event id it is filed under. */
  datatype DeliveryRow = DeliveryRow(
    status: Status,
    attemptCount: int,
    nextRetryAtMs: Option<int>,
    lastError: Option<string>,
    blockedReason: Option<string>,
    kafkaTopic: Option<string>,
    kafkaPartition: Option<int>,
    kafkaOffset: Option<int>,
    routingFingerprint: Option<Checksum>,
    profileId: Option<string>,
    profileVersion: Option<int>,
    revision: int,
    checksum: Checksum,
    confirmedAtMs: Option<int>,
    createdAtMs: int,
    updatedAtMs: int)

  // ---------------------------------------------------------------------------------------
  // Keys
  // ---------------------------------------------------------------------------------------

  function Words(texts: seq<string>): (fields: seq<Field>)
    ensures |fields| == |texts|
    ensures forall i :: 0 <= i < |texts| ==> fields[i] == Word(texts[i])
  {
    seq(|texts|, i requires 0 <= i < |texts| => Word(texts[i]))
  }

  /** The key under which stream heads are allocated. */
  function ComposedKey(installationId: string, ns: string, streamType: string, streamKey: string): string {
    installationId + [NUL] + ns + [NUL] + streamType + [NUL] + streamKey
  }

  function StreamOf(e: Envelope): string {
    ComposedKey(e.installationId, e.ns, e.streamType, e.streamKey)
  }

  function ProducerKey(installationId: string, producerId: string, instanceId: string): string {
    installationId + [NUL] + producerId + [NUL] + instanceId
  }

  function ProducerOf(e: Envelope): string {
    ProducerKey(e.installationId, e.producerId, e.producerInstanceId)
  }

  /** Without NUL inside the parts, a composed key belongs to one four-part stream identity. */
  lemma {:induction false} ComposedKeyInjective(i1: string, n1: string, t1: string, k1: string,
                             i2: string, n2: string, t2: string, k2: string)
    requires NulFree(i1) && NulFree(n1) && NulFree(t1)
    requires NulFree(i2) && NulFree(n2) && NulFree(t2)
    ensures ComposedKey(i1, n1, t1, k1) == ComposedKey(i2, n2, t2, k2)
       <==> i1 == i2 && n1 == n2 && t1 == t2 && k1 == k2
  {
    if ComposedKey(i1, n1, t1, k1) == ComposedKey(i2, n2, t2, k2) {
      var r1, r2 := t1 + [NUL] + k1, t2 + [NUL] + k2;
      assert ComposedKey(i1, n1, t1, k1) == i1 + [NUL] + (n1 + [NUL] + r1);
      assert ComposedKey(i2, n2, t2, k2) == i2 + [NUL] + (n2 + [NUL] + r2);
      SplitAtNul(i1, i2, n1 + [NUL] + r1, n2 + [NUL] + r2);
      SplitAtNul(n1, n2, r1, r2);
      SplitAtNul(t1, t2, k1, k2);
    }
  }

  // ---------------------------------------------------------------------------------------
  // Delivery checksum text
  // ---------------------------------------------------------------------------------------

  function StatusText(s: Status): string {
    match s
    case LocalAccepted => "LOCAL_ACCEPTED"
    case Pending => "DELIVERY_PENDING"
    case Retrying => "DELIVERY_RETRYING"
    case Replicated => "REPLICATED"
    case Blocked => "DELIVERY_BLOCKED"
  }

  lemma StatusTextInjective(s: Status, t: Status)
    ensures StatusText(s) == StatusText(t) <==> s == t
    ensures NulFree(StatusText(s))
  {
    assert StatusText(Pending)[9] == 'P' && StatusText(Blocked)[9] == 'B';
  }

  function TextOr(o: Option<string>): string {
    if o.Some? then o.value else ""
  }

  function NumberOr(o: Option<int>): string {
    if o.Some? then Decimal(o.value) else ""
  }

  function HexOr(o: Option<Checksum>): string {
    if o.Some? then Hex(o.value) else ""
  }

  function DeliveryTexts(id: string, r: DeliveryRow): (texts: seq<string>)
    ensures |texts| == 15
  {
    [ id,
      StatusText(r.status),
      Decimal(r.attemptCount),
      NumberOr(r.nextRetryAtMs),
      TextOr(r.lastError),
      TextOr(r.blockedReason),
      TextOr(r.kafkaTopic),
      NumberOr(r.kafkaPartition),
      NumberOr(r.kafkaOffset),
      HexOr(r.routingFingerprint),
      TextOr(r.profileId),
      NumberOr(r.profileVersion),
      Decimal(r.revision),
      NumberOr(r.confirmedAtMs),
      Decimal(r.createdAtMs) ]
  }

  /** The text `compute_delivery_checksum` hashes. */
  function DeliveryText(id: string, r: DeliveryRow): string {
    Render(Words(DeliveryTexts(id, r)))
  }

  function DeliveryChecksum(sha: Hash, id: string, r: DeliveryRow): Checksum {
    sha(DeliveryText(id, r))
  }

  function DropEmpty(o: Option<string>): Option<string> {
    if o == Some("") then None else o
  }

  /** What the text keeps of a row: everything but `updated_at_ms` and the stored checksum,
      with an empty text option read as an absent one. */
  function Covered(r: DeliveryRow): DeliveryRow {
    r.(lastError := DropEmpty(r.lastError),
       blockedReason := DropEmpty(r.blockedReason),
       kafkaTopic := DropEmpty(r.kafkaTopic),
       profileId := DropEmpty(r.profileId),
       checksum := ZeroChecksum(),
       updatedAtMs := 0)
  }

  predicate NulFreeRow(r: DeliveryRow) {
    && NulFree(TextOr(r.lastError))
    && NulFree(TextOr(r.blockedReason))
    && NulFree(TextOr(r.kafkaTopic))
    && NulFree(TextOr(r.profileId))
  }

  lemma TextOrInjective(a: Option<string>, b: Option<string>)
    ensures TextOr(a) == TextOr(b) <==> DropEmpty(a) == DropEmpty(b)
  {
  }

  lemma NumberOrInjective(a: Option<int>, b: Option<int>)
    ensures NumberOr(a) == NumberOr(b) <==> a == b
    ensures NulFree(NumberOr(a)) && NulFree(NumberOr(b))
  {
    DecimalInjective(if a.Some? then a.value else 0, if b.Some? then b.value else 0);
    DecimalInjective(if b.Some? then b.value else 0, if a.Some? then a.value else 0);
  }

  lemma HexOrInjective(a: Option<Checksum>, b: Option<Checksum>)
    ensures HexOr(a) == HexOr(b) <==> a == b
    ensures NulFree(HexOr(a)) && NulFree(HexOr(b))
  {
    if a.Some? { HexNulFree(a.value); }
    if b.Some? { HexNulFree(b.value); }
    if a.Some? && b.Some? && HexOr(a) == HexOr(b) {
      HexInjective(a.value, b.value);
    }
  }

  lemma DeliveryTextsNulFree(id: string, r: DeliveryRow)
    requires NulFree(id) && NulFreeRow(r)
    ensures forall i :: 0 <= i < 15 ==> NulFree(DeliveryTexts(id, r)[i])
  {
    hide Decimal, NumberOr, HexOr, StatusText, NulFree, TextOr;
    StatusTextInjective(r.status, r.status);
    DecimalInjective(r.attemptCount, 0);
    DecimalInjective(r.revision, 0);
    DecimalInjective(r.createdAtMs, 0);
    NumberOrInjective(r.nextRetryAtMs, None);
    NumberOrInjective(r.kafkaPartition, None);
    NumberOrInjective(r.kafkaOffset, None);
    NumberOrInjective(r.profileVersion, None);
    NumberOrInjective(r.confirmedAtMs, None);
    HexOrInjective(r.routingFingerprint, None);
  }

  lemma DeliveryTextsInjective(id1: string, r1: DeliveryRow, id2: string, r2: DeliveryRow)
    ensures DeliveryTexts(id1, r1) == DeliveryTexts(id2, r2)
       <==> id1 == id2 && Covered(r1) == Covered(r2)
  {
    hide Decimal, NumberOr, HexOr, StatusText, NulFree, TextOr, DropEmpty;
    TextOrInjective(r1.lastError, r2.lastError);
    TextOrInjective(r1.blockedReason, r2.blockedReason);
    TextOrInjective(r1.kafkaTopic, r2.kafkaTopic);
    TextOrInjective(r1.profileId, r2.profileId);
    StatusTextInjective(r1.status, r2.status);
    DecimalInjective(r1.attemptCount, r2.attemptCount);
    DecimalInjective(r1.revision, r2.revision);
    DecimalInjective(r1.createdAtMs, r2.createdAtMs);
    NumberOrInjective(r1.nextRetryAtMs, r2.nextRetryAtMs);
    NumberOrInjective(r1.kafkaPartition, r2.kafkaPartition);
    NumberOrInjective(r1.kafkaOffset, r2.kafkaOffset);
    NumberOrInjective(r1.profileVersion, r2.profileVersion);
    NumberOrInjective(r1.confirmedAtMs, r2.confirmedAtMs);
    HexOrInjective(r1.routingFingerprint, r2.routingFingerprint);
    var a, b := DeliveryTexts(id1, r1), DeliveryTexts(id2, r2);
    if a == b {
      assert a[0] == b[0] && a[1] == b[1] && a[2] == b[2] && a[3] == b[3] && a[4] == b[4];
      assert a[5] == b[5] && a[6] == b[6] && a[7] == b[7] && a[8] == b[8] && a[9] == b[9];
      assert a[10] == b[10] && a[11] == b[11] && a[12] == b[12] && a[13] == b[13] && a[14] == b[14];
    }
  }

  /** On NUL-free texts the delivery text determines the event and the covered row exactly. */
  lemma {:induction false} DeliveryTextDeterminesRow(id1: string, r1: DeliveryRow, id2: string, r2: DeliveryRow)
    requires NulFree(id1) && NulFreeRow(r1)
    requires NulFree(id2) && NulFreeRow(r2)
    ensures DeliveryText(id1, r1) == DeliveryText(id2, r2)
       <==> id1 == id2 && Covered(r1) == Covered(r2)
  {
    var a, b := DeliveryTexts(id1, r1), DeliveryTexts(id2, r2);
    DeliveryTextsNulFree(id1, r1);
    DeliveryTextsNulFree(id2, r2);
    DeliveryTextsInjective(id1, r1, id2, r2);
    if DeliveryText(id1, r1) == DeliveryText(id2, r2) {
      RenderInjective(Words(a), Words(b));
      forall i | 0 <= i < 15
        ensures a[i] == b[i]
      {
        assert Words(a)[i] == Words(b)[i];
      }
      assert a == b;
    }
  }

  /** The NUL-free hypothesis cannot be dropped: a separator inside one text moves a field
      boundary, so two different rows share one text. */
  lemma {:induction false} DeliveryTextNeedsNulFree(r: DeliveryRow)
    ensures var r1 := r.(lastError := Some([NUL]), blockedReason := None, kafkaTopic := Some("t"));
            var r2 := r.(lastError := None, blockedReason := Some([NUL]), kafkaTopic := Some("t"));
            Covered(r1) != Covered(r2) && DeliveryText("e", r1) == DeliveryText("e", r2)
  {
    var r1 := r.(lastError := Some([NUL]), blockedReason := None, kafkaTopic := Some("t"));
    var r2 := r.(lastError := None, blockedReason := Some([NUL]), kafkaTopic := Some("t"));
    var a, b := Words(DeliveryTexts("e", r1)), Words(DeliveryTexts("e", r2));
    assert a[6..] == b[6..];
    var tail := Render(a[6..]);
    RenderUnfold(a, 4);
    RenderUnfold(b, 4);
    RenderUnfold(a, 5);
    RenderUnfold(b, 5);
    assert Render(a[5..]) == "" + [NUL] + tail && Render(b[5..]) == [NUL] + [NUL] + tail;
    assert Render(a[4..]) == [NUL] + [NUL] + ("" + [NUL] + tail);
    assert Render(b[4..]) == "" + [NUL] + ([NUL] + [NUL] + tail);
    assert Render(a[4..]) == Render(b[4..]);
    RenderSamePrefix(a, b, 4);
  }

  lemma RenderUnfold(a: seq<Field>, i: nat)
    requires i + 1 < |a|
    ensures Render(a[i..]) == a[i].text + [NUL] + Render(a[i + 1..])
  {
    assert a[i..][1..] == a[i + 1..];
  }

  lemma {:induction false} RenderSamePrefix(a: seq<Field>, b: seq<Field>, i: nat)
    requires i < |a| && |a| == |b|
    requires a[..i] == b[..i]
    requires Render(a[i..]) == Render(b[i..])
    ensures Render(a) == Render(b)
  {
    if i == 0 {
      assert a[0..] == a && b[0..] == b;
    } else {
      RenderUnfold(a, i - 1);
      RenderUnfold(b, i - 1);
      assert a[i - 1] == a[..i][i - 1] == b[..i][i - 1] == b[i - 1];
      assert a[..i - 1] == a[..i][..i - 1] == b[..i][..i - 1] == b[..i - 1];
      RenderSamePrefix(a, b, i - 1);
    }
  }

  // ---------------------------------------------------------------------------------------
  // Lifecycle and envelope checksums
  // ---------------------------------------------------------------------------------------

  function LifecycleChecksum(sha: Hash, id: string, revision: int, status: Status): Checksum {
    sha(Render(Words([id, Decimal(revision), StatusText(status), "PRESENT"])))
  }

  function I64(n: int): Field { Fixed(BigEndian(n, 8)) }

  function I32(n: int): Field { Fixed(BigEndian(n, 4)) }

  function Digest(c: Checksum): Field {
    Fixed(seq(32, i requires 0 <= i < 32 => c[i] as char))
  }

  function EnvelopeFields(e: Envelope): (fields: seq<Field>)
    ensures |fields| == 17
  {
    [ I64(e.journalSequence),
      Word(e.eventId), Word(e.installationId), Word(e.producerId), Word(e.producerInstanceId),
      I64(e.producerOpSeq),
      Word(e.ns), Word(e.streamType), Word(e.streamKey), Word(e.eventType),
      I32(e.schemaVersion), I64(e.streamSequence),
      Digest(e.payloadDigest), Digest(e.requestFingerprint),
      Word(e.payloadRefId),
      I64(e.payloadLength), I64(e.routingVersion) ]
  }

  /** The bytes `compute_envelope_checksum` hashes. */
  function EnvelopeBytes(e: Envelope): string {
    Render(EnvelopeFields(e))
  }

  function EnvelopeChecksum(sha: Hash, e: Envelope): Checksum {
    sha(EnvelopeBytes(e))
  }

  predicate InI64(n: int) { -0x8000_0000_0000_0000 <= n < 0x8000_0000_0000_0000 }

  predicate InI32(n: int) { -0x8000_0000 <= n < 0x8000_0000 }

  /** An envelope whose numbers fit their columns and whose texts hold no NUL. */
  predicate PlainEnvelope(e: Envelope) {
    && InI64(e.journalSequence) && InI64(e.producerOpSeq) && InI64(e.streamSequence)
    && InI64(e.payloadLength) && InI64(e.routingVersion) && InI32(e.schemaVersion)
    && NulFree(e.eventId) && NulFree(e.installationId) && NulFree(e.producerId)
    && NulFree(e.producerInstanceId) && NulFree(e.ns) && NulFree(e.streamType)
    && NulFree(e.streamKey) && NulFree(e.eventType) && NulFree(e.payloadRefId)
  }

  lemma I64Injective(m: int, n: int)
    requires InI64(m) && InI64(n) && I64(m) == I64(n)
    ensures m == n
  {
    assert Pow256(8) == 0x1_0000_0000_0000_0000 by {
      assert Pow256(4) == 0x1_0000_0000;
    }
    BigEndianInjective(m, n, -0x8000_0000_0000_0000, 8);
  }

  lemma I32Injective(m: int, n: int)
    requires InI32(m) && InI32(n) && I32(m) == I32(n)
    ensures m == n
  {
    assert Pow256(4) == 0x1_0000_0000;
    BigEndianInjective(m, n, -0x8000_0000, 4);
  }

  lemma DigestInjective(a: Checksum, b: Checksum)
    requires Digest(a) == Digest(b)
    ensures a == b
  {
    forall i | 0 <= i < 32
      ensures a[i] == b[i]
    {
      assert Digest(a).text[i] == Digest(b).text[i];
    }
  }

  lemma EnvelopeShape(a: Envelope, b: Envelope)
    requires PlainEnvelope(a) && PlainEnvelope(b)
    ensures SameShape(EnvelopeFields(a), EnvelopeFields(b))
    ensures a == b.(checksum := a.checksum, receivedAtMs := a.receivedAtMs) ==>
              EnvelopeFields(a) == EnvelopeFields(b)
  {
    hide BigEndian, Hex, Decimal;
  }

  lemma EnvelopeFieldsInjective(a: Envelope, b: Envelope)
    requires PlainEnvelope(a) && PlainEnvelope(b)
    requires EnvelopeFields(a) == EnvelopeFields(b)
    ensures a == b.(checksum := a.checksum, receivedAtMs := a.receivedAtMs)
  {
    var x, y := EnvelopeFields(a), EnvelopeFields(b);
    assert x[0] == y[0] && x[1] == y[1] && x[2] == y[2] && x[3] == y[3] && x[4] == y[4] && x[5] == y[5];
    assert x[6] == y[6] && x[7] == y[7] && x[8] == y[8] && x[9] == y[9] && x[10] == y[10] && x[11] == y[11];
    assert x[12] == y[12] && x[13] == y[13] && x[14] == y[14] && x[15] == y[15] && x[16] == y[16];
    I64Injective(a.journalSequence, b.journalSequence);
    I64Injective(a.producerOpSeq, b.producerOpSeq);
    I32Injective(a.schemaVersion, b.schemaVersion);
    I64Injective(a.streamSequence, b.streamSequence);
    I64Injective(a.payloadLength, b.payloadLength);
    I64Injective(a.routingVersion, b.routingVersion);
    DigestInjective(a.payloadDigest, b.payloadDigest);
    DigestInjective(a.requestFingerprint, b.requestFingerprint);
  }

  /** The hashed bytes determine every envelope column except the checksum itself and the
      reception time. */
  lemma {:induction false} EnvelopeBytesDetermineEnvelope(a: Envelope, b: Envelope)
    requires PlainEnvelope(a) && PlainEnvelope(b)
    ensures EnvelopeBytes(a) == EnvelopeBytes(b)
       <==> a == b.(checksum := a.checksum, receivedAtMs := a.receivedAtMs)
  {
    EnvelopeShape(a, b);
    if EnvelopeBytes(a) == EnvelopeBytes(b) {
      RenderInjective(EnvelopeFields(a), EnvelopeFields(b));
      EnvelopeFieldsInjective(a, b);
    }
  }
}
