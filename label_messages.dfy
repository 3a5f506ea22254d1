/**
 * The protocol-buffer messages a label is made of: the label record itself
 * (`GoosciLabel.Label`), its caption, and the four payload messages whose
 * serialized form a label keeps in `protoData`. Each message comes with a
 * serializer and a parser, and with the proof that parsing undoes
 * serializing.
 */
module LabelMessages {
  import opened Wrappers
  import opened JavaLang
  import opened Wire

  /** The discriminant of a label: which payload message `protoData` holds. */
  datatype ValueType = TEXT | PICTURE | SENSOR_TRIGGER | SNAPSHOT {
    /** `getNumber()`: the enum's number on the wire. */
    function Number(): (n: int)
      ensures 0 <= n < 4
    {
      match this
      case TEXT => 0
      case PICTURE => 1
      case SENSOR_TRIGGER => 2
      case SNAPSHOT => 3
    }
  }

  /** The value type with a given wire number, if there is one. */
  function ValueTypeForNumber(n: int): (r: Option<ValueType>)
    ensures r.Some? <==> 0 <= n < 4
    ensures r.Some? ==> r.value.Number() == n
  {
    if n == 0 then Some(TEXT)
    else if n == 1 then Some(PICTURE)
    else if n == 2 then Some(SENSOR_TRIGGER)
    else if n == 3 then Some(SNAPSHOT)
    else None
  }

  /** A free-text note on a label, with the time it was last edited. */
  datatype Caption = Caption(text: string, lastEditedTimestamp: int64)

  datatype TextLabelValue = TextLabelValue(text: string)

  /** The picture itself is an external file; the label keeps its relative path. */
  datatype PictureLabelValue = PictureLabelValue(filePath: string)

  /** The sensor that fired and the trigger's own (nested, serialized) description. */
  datatype SensorTriggerLabelValue = SensorTriggerLabelValue(sensorId: string, triggerInformation: Bytes)

  /** One sensor reading; the `double` value is carried as its bit pattern. */
  datatype SensorSnapshot = SensorSnapshot(sensorId: string, value: DoubleBits, timestampMs: int64)

  datatype SnapshotLabelValue = SnapshotLabelValue(snapshots: seq<SensorSnapshot>)

  /** Any one of the four payload messages that can be stored in a label. */
  datatype LabelValue =
    | TextValue(text: TextLabelValue)
    | PictureValue(picture: PictureLabelValue)
    | SensorTriggerValue(trigger: SensorTriggerLabelValue)
    | SnapshotValue(snapshot: SnapshotLabelValue)
  {
    /** The value type whose schema this payload follows. */
    function Kind(): ValueType {
      match this
      case TextValue(_) => TEXT
      case PictureValue(_) => PICTURE
      case SensorTriggerValue(_) => SENSOR_TRIGGER
      case SnapshotValue(_) => SNAPSHOT
    }
  }

  /** The label record (`GoosciLabel.Label`). */
  datatype LabelProto = LabelProto(
    labelId: string,
    valueType: ValueType,
    creationTimeMs: int64,
    timestampMs: int64,
    protoData: Bytes,
    caption: Option<Caption>)

  const DEFAULT_TEXT := TextLabelValue("")
  const DEFAULT_PICTURE := PictureLabelValue("")
  const DEFAULT_SENSOR_TRIGGER := SensorTriggerLabelValue("", [])
  const DEFAULT_SNAPSHOT := SnapshotLabelValue([])
  const DEFAULT_LABEL := LabelProto("", TEXT, 0, 0, [], None)

  // ----- Field encodings -----

  function EncodeText(v: TextLabelValue): Bytes {
    EncodeString(v.text)
  }

  function DecodeText(w: Bytes): Option<(TextLabelValue, Bytes)> {
    var text :- DecodeString(w);
    Some((TextLabelValue(text.0), text.1))
  }

  function EncodePicture(v: PictureLabelValue): Bytes {
    EncodeString(v.filePath)
  }

  function DecodePicture(w: Bytes): Option<(PictureLabelValue, Bytes)> {
    var path :- DecodeString(w);
    Some((PictureLabelValue(path.0), path.1))
  }

  function EncodeSensorTrigger(v: SensorTriggerLabelValue): Bytes {
    EncodeString(v.sensorId) + EncodeBytes(v.triggerInformation)
  }

  function DecodeSensorTrigger(w: Bytes): Option<(SensorTriggerLabelValue, Bytes)> {
    var id :- DecodeString(w);
    var info :- DecodeBytes(id.1);
    Some((SensorTriggerLabelValue(id.0, info.0), info.1))
  }

  function EncodeSensorSnapshot(s: SensorSnapshot): Bytes {
    EncodeString(s.sensorId) + (EncodeInt(s.value) + EncodeInt(s.timestampMs))
  }

  function DecodeSensorSnapshot(w: Bytes): Option<(SensorSnapshot, Bytes)> {
    var id :- DecodeString(w);
    var value :- DecodeIntIn(id.1, 0, 0x1_0000_0000_0000_0000);
    var time :- DecodeIntIn(value.1, -0x8000_0000_0000_0000, 0x8000_0000_0000_0000);
    Some((SensorSnapshot(id.0, value.0, time.0), time.1))
  }

  function EncodeSnapshots(ss: seq<SensorSnapshot>): Bytes {
    if ss == [] then [] else EncodeSensorSnapshot(ss[0]) + EncodeSnapshots(ss[1..])
  }

  /** Reads exactly `n` snapshots. */
  function DecodeSnapshots(w: Bytes, n: nat): Option<(seq<SensorSnapshot>, Bytes)>
    decreases n
  {
    if n == 0 then Some(([], w))
    else
      var first :- DecodeSensorSnapshot(w);
      var others :- DecodeSnapshots(first.1, n - 1);
      Some(([first.0] + others.0, others.1))
  }

  function EncodeSnapshot(v: SnapshotLabelValue): Bytes {
    EncodeInt(|v.snapshots|) + EncodeSnapshots(v.snapshots)
  }

  function DecodeSnapshot(w: Bytes): Option<(SnapshotLabelValue, Bytes)> {
    var n :- DecodeNat(w);
    var ss :- DecodeSnapshots(n.1, n.0);
    Some((SnapshotLabelValue(ss.0), ss.1))
  }

  function EncodeCaption(c: Option<Caption>): Bytes {
    match c
    case None => EncodeBool(false)
    case Some(cap) => EncodeBool(true) + (EncodeString(cap.text) + EncodeInt(cap.lastEditedTimestamp))
  }

  function DecodeCaption(w: Bytes): Option<(Option<Caption>, Bytes)> {
    var present :- DecodeBool(w);
    if !present.0 then Some((None, present.1))
    else
      var text :- DecodeString(present.1);
      var time :- DecodeIntIn(text.1, -0x8000_0000_0000_0000, 0x8000_0000_0000_0000);
      Some((Some(Caption(text.0, time.0)), time.1))
  }

  function EncodeLabel(p: LabelProto): Bytes {
    EncodeString(p.labelId)
      + (EncodeInt(p.valueType.Number())
      + (EncodeInt(p.creationTimeMs)
      + (EncodeInt(p.timestampMs)
      + (EncodeBytes(p.protoData)
      + EncodeCaption(p.caption)))))
  }

  function DecodeLabel(w: Bytes): Option<(LabelProto, Bytes)> {
    var id :- DecodeString(w);
    var number :- DecodeIntIn(id.1, 0, 4);
    var valueType :- ValueTypeForNumber(number.0);
    var created :- DecodeIntIn(number.1, -0x8000_0000_0000_0000, 0x8000_0000_0000_0000);
    var time :- DecodeIntIn(created.1, -0x8000_0000_0000_0000, 0x8000_0000_0000_0000);
    var data :- DecodeBytes(time.1);
    var caption :- DecodeCaption(data.1);
    Some((LabelProto(id.0, valueType, created.0, time.0, data.0, caption.0), caption.1))
  }

  // ----- Round trips of the field encodings -----

  lemma DecodeEncodeText(v: TextLabelValue, rest: Bytes)
    ensures DecodeText(EncodeText(v) + rest) == Some((v, rest))
  {
    DecodeEncodeString(v.text, rest);
  }

  lemma DecodeEncodePicture(v: PictureLabelValue, rest: Bytes)
    ensures DecodePicture(EncodePicture(v) + rest) == Some((v, rest))
  {
    DecodeEncodeString(v.filePath, rest);
  }

  lemma DecodeEncodeSensorTrigger(v: SensorTriggerLabelValue, rest: Bytes)
    ensures DecodeSensorTrigger(EncodeSensorTrigger(v) + rest) == Some((v, rest))
  {
    var after := EncodeBytes(v.triggerInformation) + rest;
    assert EncodeSensorTrigger(v) + rest == EncodeString(v.sensorId) + after;
    DecodeEncodeString(v.sensorId, after);
    DecodeEncodeBytes(v.triggerInformation, rest);
  }

  lemma DecodeEncodeSensorSnapshot(s: SensorSnapshot, rest: Bytes)
    ensures DecodeSensorSnapshot(EncodeSensorSnapshot(s) + rest) == Some((s, rest))
  {
    var afterValue := EncodeInt(s.timestampMs) + rest;
    var afterId := EncodeInt(s.value) + afterValue;
    assert EncodeSensorSnapshot(s) + rest == EncodeString(s.sensorId) + afterId;
    DecodeEncodeString(s.sensorId, afterId);
    DecodeEncodeInt(s.value, 0, 0x1_0000_0000_0000_0000, afterValue);
    DecodeEncodeInt(s.timestampMs, -0x8000_0000_0000_0000, 0x8000_0000_0000_0000, rest);
  }

  lemma {:induction false} DecodeEncodeSnapshots(ss: seq<SensorSnapshot>, rest: Bytes)
    ensures DecodeSnapshots(EncodeSnapshots(ss) + rest, |ss|) == Some((ss, rest))
  {
    if ss == [] {
      assert EncodeSnapshots(ss) + rest == rest;
    } else {
      var after := EncodeSnapshots(ss[1..]) + rest;
      assert EncodeSnapshots(ss) + rest == EncodeSensorSnapshot(ss[0]) + after;
      DecodeEncodeSensorSnapshot(ss[0], after);
      DecodeEncodeSnapshots(ss[1..], rest);
      assert [ss[0]] + ss[1..] == ss;
    }
  }

  lemma DecodeEncodeSnapshot(v: SnapshotLabelValue, rest: Bytes)
    ensures DecodeSnapshot(EncodeSnapshot(v) + rest) == Some((v, rest))
  {
    var after := EncodeSnapshots(v.snapshots) + rest;
    assert EncodeSnapshot(v) + rest == EncodeInt(|v.snapshots|) + after;
    DecodeEncodeInt(|v.snapshots|, 0, |v.snapshots| + 1, after);
    DecodeEncodeSnapshots(v.snapshots, rest);
  }

  lemma DecodeEncodeCaption(c: Option<Caption>, rest: Bytes)
    ensures DecodeCaption(EncodeCaption(c) + rest) == Some((c, rest))
  {
    match c
    case None =>
      DecodeEncodeBool(false, rest);
    case Some(cap) =>
      var afterText := EncodeInt(cap.lastEditedTimestamp) + rest;
      var afterFlag := EncodeString(cap.text) + afterText;
      assert EncodeCaption(c) + rest == EncodeBool(true) + afterFlag;
      DecodeEncodeBool(true, afterFlag);
      DecodeEncodeString(cap.text, afterText);
      DecodeEncodeInt(cap.lastEditedTimestamp, -0x8000_0000_0000_0000, 0x8000_0000_0000_0000, rest);
  }

  lemma DecodeEncodeLabel(p: LabelProto, rest: Bytes)
    ensures DecodeLabel(EncodeLabel(p) + rest) == Some((p, rest))
  {
    var w5 := EncodeCaption(p.caption) + rest;
    var w4 := EncodeBytes(p.protoData) + w5;
    var w3 := EncodeInt(p.timestampMs) + w4;
    var w2 := EncodeInt(p.creationTimeMs) + w3;
    var w1 := EncodeInt(p.valueType.Number()) + w2;
    assert EncodeLabel(p) + rest == EncodeString(p.labelId) + w1;
    DecodeEncodeString(p.labelId, w1);
    DecodeEncodeInt(p.valueType.Number(), 0, 4, w2);
    assert ValueTypeForNumber(p.valueType.Number()) == Some(p.valueType);
    DecodeEncodeInt(p.creationTimeMs, -0x8000_0000_0000_0000, 0x8000_0000_0000_0000, w3);
    DecodeEncodeInt(p.timestampMs, -0x8000_0000_0000_0000, 0x8000_0000_0000_0000, w4);
    DecodeEncodeBytes(p.protoData, w5);
    DecodeEncodeCaption(p.caption, rest);
  }

  // ----- Whole messages: `toByteArray` and `parseFrom` -----

  function SerializeText(v: TextLabelValue): Bytes {
    Frame(v, DEFAULT_TEXT, EncodeText)
  }

  function ParseText(w: Bytes): Option<TextLabelValue> {
    Unframe(w, DEFAULT_TEXT, DecodeText)
  }

  function SerializePicture(v: PictureLabelValue): Bytes {
    Frame(v, DEFAULT_PICTURE, EncodePicture)
  }

  function ParsePicture(w: Bytes): Option<PictureLabelValue> {
    Unframe(w, DEFAULT_PICTURE, DecodePicture)
  }

  function SerializeSensorTrigger(v: SensorTriggerLabelValue): Bytes {
    Frame(v, DEFAULT_SENSOR_TRIGGER, EncodeSensorTrigger)
  }

  function ParseSensorTrigger(w: Bytes): Option<SensorTriggerLabelValue> {
    Unframe(w, DEFAULT_SENSOR_TRIGGER, DecodeSensorTrigger)
  }

  function SerializeSnapshot(v: SnapshotLabelValue): Bytes {
    Frame(v, DEFAULT_SNAPSHOT, EncodeSnapshot)
  }

  function ParseSnapshot(w: Bytes): Option<SnapshotLabelValue> {
    Unframe(w, DEFAULT_SNAPSHOT, DecodeSnapshot)
  }

  /** The serialized form of whichever payload message `v` holds. */
  function SerializeValue(v: LabelValue): Bytes {
    match v
    case TextValue(t) => SerializeText(t)
    case PictureValue(p) => SerializePicture(p)
    case SensorTriggerValue(t) => SerializeSensorTrigger(t)
    case SnapshotValue(s) => SerializeSnapshot(s)
  }

  function SerializeLabel(p: LabelProto): Bytes {
    Frame(p, DEFAULT_LABEL, EncodeLabel)
  }

  function ParseLabel(w: Bytes): Option<LabelProto> {
    Unframe(w, DEFAULT_LABEL, DecodeLabel)
  }

  /** Parsing a serialized payload of the matching schema gives the payload back. */
  lemma ParseSerializeValue(v: LabelValue)
    ensures v.TextValue? ==> ParseText(SerializeValue(v)) == Some(v.text)
    ensures v.PictureValue? ==> ParsePicture(SerializeValue(v)) == Some(v.picture)
    ensures v.SensorTriggerValue? ==> ParseSensorTrigger(SerializeValue(v)) == Some(v.trigger)
    ensures v.SnapshotValue? ==> ParseSnapshot(SerializeValue(v)) == Some(v.snapshot)
  {
    match v
    case TextValue(t) =>
      DecodeEncodeText(t, []);
      UnframeFrame(t, DEFAULT_TEXT, EncodeText, DecodeText);
    case PictureValue(p) =>
      DecodeEncodePicture(p, []);
      UnframeFrame(p, DEFAULT_PICTURE, EncodePicture, DecodePicture);
    case SensorTriggerValue(t) =>
      DecodeEncodeSensorTrigger(t, []);
      UnframeFrame(t, DEFAULT_SENSOR_TRIGGER, EncodeSensorTrigger, DecodeSensorTrigger);
    case SnapshotValue(s) =>
      DecodeEncodeSnapshot(s, []);
      UnframeFrame(s, DEFAULT_SNAPSHOT, EncodeSnapshot, DecodeSnapshot);
  }

  /** Parsing a serialized label record gives the record back, field for field. */
  lemma ParseSerializeLabel(p: LabelProto)
    ensures ParseLabel(SerializeLabel(p)) == Some(p)
  {
    DecodeEncodeLabel(p, []);
    UnframeFrame(p, DEFAULT_LABEL, EncodeLabel, DecodeLabel);
  }

  /** The empty payload of a fresh label parses to the all-defaults message of every schema. */
  lemma EmptyPayloadParsesToDefaults()
    ensures ParseText([]) == Some(DEFAULT_TEXT)
    ensures ParsePicture([]) == Some(DEFAULT_PICTURE)
    ensures ParseSensorTrigger([]) == Some(DEFAULT_SENSOR_TRIGGER)
    ensures ParseSnapshot([]) == Some(DEFAULT_SNAPSHOT)
  {
  }

  /** Parsing is partial: a stray character is not a message of any payload schema. */
  lemma MalformedPayloadDoesNotParse()
    ensures ParseText([Chr('x')]).None?
    ensures ParsePicture([Chr('x')]).None?
    ensures ParseSensorTrigger([Chr('x')]).None?
    ensures ParseSnapshot([Chr('x')]).None?
  {
  }
}
