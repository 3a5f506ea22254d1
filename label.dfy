/**
 * A label: user- or app-generated metadata tagged with a timestamp.
 *
 * `Label` wraps one label record (`LabelProto`) and changes it in place
 * through its setters. The payload is kept serialized in `protoData`; the
 * record's `valueType` says which payload schema the typed accessors decode
 * it with. Identifiers and clock readings are passed in by the caller.
 */
module Labels {
  import opened Wrappers
  import opened JavaLang
  import opened Wire
  import opened LabelMessages

  /** The `IllegalStateException` a typed accessor throws on a type mismatch. */
  datatype LabelValueException = IllegalStateException(protoToCreate: string, actualType: int)

  /**
   * `throwLabelValueException`: the exception names the payload that was
   * asked for and the label's actual type by its wire number.
   */
  function ThrowLabelValueException(protoToCreate: string, actualType: ValueType): (e: LabelValueException)
    ensures e.protoToCreate == protoToCreate
    ensures ValueTypeForNumber(e.actualType) == Some(actualType)
  {
    IllegalStateException(protoToCreate, actualType.Number())
  }

  /**
   * What `writeToParcel` leaves in a parcel: the serialized size, then the
   * serialized record as a byte array (its length, then its contents).
   */
  type Parcel = Bytes

  /**
   * What `new Label(Parcel)` recovers from a parcel: skips the size, reads
   * the byte array and parses it; `None` where the source is left without
   * a record after a parse error.
   */
  function ReadLabelFromParcel(parcel: Parcel): Option<LabelProto> {
    if |parcel| > 0 && parcel[0].Num? then
      match DecodeBytes(parcel[1..])
      case Some((serialized, _)) => ParseLabel(serialized)
      case None => None
    else None
  }

  class Label {
    /** The wrapped record (`getLabelProto()`). */
    var proto: LabelProto

    /** `Label(GoosciLabel.Label)`: wraps an existing record as it is. */
    constructor FromProto(goosciLabel: LabelProto)
      ensures proto == goosciLabel
    {
      proto := goosciLabel;
    }

    /** `Label(creationTimeMs, labelId, valueType)`: a new record filled in field by field. */
    constructor (creationTimeMs: int64, labelId: string, valueType: ValueType)
      ensures proto.labelId == labelId && proto.valueType == valueType
      ensures proto.timestampMs == creationTimeMs && proto.creationTimeMs == creationTimeMs
      ensures proto.protoData == [] && proto.caption == None
    {
      var label1 := DEFAULT_LABEL;
      label1 := label1.(timestampMs := creationTimeMs);
      label1 := label1.(creationTimeMs := creationTimeMs);
      label1 := label1.(labelId := labelId);
      label1 := label1.(valueType := valueType);
      proto := label1;
    }

    // ----- Factories -----

    /** `fromLabel`: loads an existing label from its record. */
    static method FromLabel(goosciLabel: LabelProto) returns (l: Label)
      ensures fresh(l) && l.proto == goosciLabel
    {
      l := new Label.FromProto(goosciLabel);
    }

    /** `newLabel`: a label with no content; `freshId` stands for a random UUID. */
    static method NewLabel(creationTimeMs: int64, freshId: string, valueType: ValueType) returns (l: Label)
      ensures fresh(l)
      ensures l.proto == LabelProto(freshId, valueType, creationTimeMs, creationTimeMs, [], None)
    {
      l := new Label(creationTimeMs, freshId, valueType);
    }

    /**
     * `newLabelWithValue`: a new label holding `data` and `caption`. Nothing
     * checks that `data` is of the kind `valueType` names.
     */
    static method NewLabelWithValue(creationTimeMs: int64, freshId: string, valueType: ValueType,
                                    data: LabelValue, caption: Option<Caption>) returns (l: Label)
      ensures fresh(l)
      ensures l.proto == LabelProto(freshId, valueType, creationTimeMs, creationTimeMs, SerializeValue(data), caption)
    {
      l := new Label(creationTimeMs, freshId, valueType);
      l.SetLabelProtoData(data);
      l.SetCaption(caption);
    }

    /** `fromUuidAndValue`: like `newLabelWithValue` with the caller's identifier and no caption. */
    static method FromUuidAndValue(creationTimeMs: int64, uuid: string, valueType: ValueType, data: LabelValue)
      returns (l: Label)
      ensures fresh(l)
      ensures l.proto == LabelProto(uuid, valueType, creationTimeMs, creationTimeMs, SerializeValue(data), None)
    {
      l := new Label(creationTimeMs, uuid, valueType);
      l.SetLabelProtoData(data);
    }

    /**
     * `copyOf`: a deep copy made by a parcel round trip, which then gets a
     * new identifier (`freshId`, a random UUID in the source), a new creation
     * time and, when it has a caption, a new caption edit time. The source
     * reads the clock twice, hence two readings. The original is not touched.
     */
    static method CopyOf(source: Label, freshId: string, creationNow: int64, captionNow: int64)
      returns (result: Label)
      requires freshId != source.proto.labelId
      ensures fresh(result)
      ensures result.proto.labelId == freshId && result.GetLabelId() != source.GetLabelId()
      ensures result.proto.creationTimeMs == creationNow
      ensures result.proto.timestampMs == source.proto.timestampMs
      ensures result.proto.valueType == source.proto.valueType
      ensures result.proto.protoData == source.proto.protoData
      ensures source.proto.caption.None? ==> result.proto.caption.None?
      ensures source.proto.caption.Some? ==>
                result.proto.caption == Some(source.proto.caption.value.(lastEditedTimestamp := captionNow))
      ensures result.GetCaptionText() == source.GetCaptionText()
      ensures result.GetTextLabelValue() == source.GetTextLabelValue()
      ensures result.GetPictureLabelValue() == source.GetPictureLabelValue()
      ensures result.GetSensorTriggerLabelValue() == source.GetSensorTriggerLabelValue()
      ensures result.GetSnapshotLabelValue() == source.GetSnapshotLabelValue()
    {
      var parcel := source.WriteToParcel();
      var copy := CreateFromParcel(parcel);
      result := copy;
      result.proto := result.proto.(creationTimeMs := creationNow);
      result.proto := result.proto.(labelId := freshId);
      if result.proto.caption.Some? {
        var newCaption := result.proto.caption.value.(lastEditedTimestamp := captionNow);
        result.proto := result.proto.(caption := Some(newCaption));
      }
    }

    // ----- Parcel transfer -----

    /** `writeToParcel`: whatever it writes, reading the parcel back recovers this record. */
    function WriteToParcel(): (parcel: Parcel)
      reads this
      ensures ReadLabelFromParcel(parcel) == Some(proto)
    {
      var serialized := SerializeLabel(proto);
      ParseSerializeLabel(proto);
      DecodeEncodeBytes(serialized, []);
      assert ([Num(|serialized|)] + EncodeBytes(serialized))[1..] == EncodeBytes(serialized) + [];
      [Num(|serialized|)] + EncodeBytes(serialized)
    }

    /** `CREATOR.createFromParcel`: a new label, or none where the record cannot be parsed. */
    static method CreateFromParcel(parcel: Parcel) returns (l: Label?)
      ensures ReadLabelFromParcel(parcel).None? ==> l == null
      ensures ReadLabelFromParcel(parcel).Some? ==>
                l != null && fresh(l) && l.proto == ReadLabelFromParcel(parcel).value
    {
      var read := ReadLabelFromParcel(parcel);
      if read.None? {
        return null;
      }
      l := new Label.FromProto(read.value);
    }

    // ----- Getters and setters -----

    /** `getLabelId`: the record's id. */
    function GetLabelId(): (id: string)
      reads this
      ensures id == proto.labelId
    {
      proto.labelId
    }

    /** `getTimeStamp`: the record's timestamp. */
    function GetTimeStamp(): (t: int64)
      reads this
      ensures t == proto.timestampMs
    {
      proto.timestampMs
    }

    /** `getCreationTimeMs`: the record's creation time. */
    function GetCreationTimeMs(): (t: int64)
      reads this
      ensures t == proto.creationTimeMs
    {
      proto.creationTimeMs
    }

    /** `getType`: the record's value type. */
    function GetType(): (t: ValueType)
      reads this
      ensures t == proto.valueType
    {
      proto.valueType
    }

    /**
     * `setTimestamp`: replaces the timestamp and nothing else. It does not
     * consult `CanEditTimestamp`; that rule is left to callers.
     */
    method SetTimestamp(timestampMs: int64)
      modifies this
      ensures proto == old(proto).(timestampMs := timestampMs)
      ensures GetTimeStamp() == timestampMs
    {
      proto := proto.(timestampMs := timestampMs);
    }

    /** Snapshot and trigger labels keep the time of the event that made them. */
    function CanEditTimestamp(): (r: bool)
      reads this
      ensures r <==> proto.valueType == TEXT || proto.valueType == PICTURE
    {
      proto.valueType != SNAPSHOT && proto.valueType != SENSOR_TRIGGER
    }

    /** `getCaptionText`: the caption's text, or the empty string when there is no caption. */
    function GetCaptionText(): (r: string)
      reads this
      ensures proto.caption.None? ==> r == ""
      ensures proto.caption.Some? ==> r == proto.caption.value.text
    {
      if proto.caption.None? then "" else proto.caption.value.text
    }

    /** `setCaption`: replaces the caption (`None` removes it) and nothing else. */
    method SetCaption(caption: Option<Caption>)
      modifies this
      ensures proto == old(proto).(caption := caption)
    {
      proto := proto.(caption := caption);
    }

    /**
     * `setLabelProtoData`: replaces the payload with the serialized `data`
     * and nothing else; the type is not checked against `data`.
     */
    method SetLabelProtoData(data: LabelValue)
      modifies this
      ensures proto == old(proto).(protoData := SerializeValue(data))
    {
      proto := proto.(protoData := SerializeValue(data));
    }

    // ----- Typed payload accessors -----

    /**
     * `getTextLabelValue`: throws unless the label is a TEXT label; otherwise
     * the decoded payload, `None` (null) when it does not parse.
     */
    function GetTextLabelValue(): (r: Result<Option<TextLabelValue>, LabelValueException>)
      reads this
      ensures r.Failure? <==> proto.valueType != TEXT
      ensures r.Failure? ==> r.error == ThrowLabelValueException("TextLabelValue", proto.valueType)
    {
      if proto.valueType == TEXT then Success(ParseText(proto.protoData))
      else Failure(ThrowLabelValueException("TextLabelValue", proto.valueType))
    }

    /** `getPictureLabelValue`: as `GetTextLabelValue`, for PICTURE labels. */
    function GetPictureLabelValue(): (r: Result<Option<PictureLabelValue>, LabelValueException>)
      reads this
      ensures r.Failure? <==> proto.valueType != PICTURE
      ensures r.Failure? ==> r.error == ThrowLabelValueException("PictureLabelValue", proto.valueType)
    {
      if proto.valueType == PICTURE then Success(ParsePicture(proto.protoData))
      else Failure(ThrowLabelValueException("PictureLabelValue", proto.valueType))
    }

    /** `getSensorTriggerLabelValue`: as `GetTextLabelValue`, for SENSOR_TRIGGER labels. */
    function GetSensorTriggerLabelValue(): (r: Result<Option<SensorTriggerLabelValue>, LabelValueException>)
      reads this
      ensures r.Failure? <==> proto.valueType != SENSOR_TRIGGER
      ensures r.Failure? ==> r.error == ThrowLabelValueException("SensorTriggerLabelValue", proto.valueType)
    {
      if proto.valueType == SENSOR_TRIGGER then Success(ParseSensorTrigger(proto.protoData))
      else Failure(ThrowLabelValueException("SensorTriggerLabelValue", proto.valueType))
    }

    /** `getSnapshotLabelValue`: as `GetTextLabelValue`, for SNAPSHOT labels. */
    function GetSnapshotLabelValue(): (r: Result<Option<SnapshotLabelValue>, LabelValueException>)
      reads this
      ensures r.Failure? <==> proto.valueType != SNAPSHOT
      ensures r.Failure? ==> r.error == ThrowLabelValueException("SnapshotLabelValue", proto.valueType)
    {
      if proto.valueType == SNAPSHOT then Success(ParseSnapshot(proto.protoData))
      else Failure(ThrowLabelValueException("SnapshotLabelValue", proto.valueType))
    }

    // ----- Diagnostics and ordering -----

    /** `getDebugTypeString`: a short tag naming the label's type. */
    function GetDebugTypeString(): (tag: string)
      reads this
      ensures tag == "TRIGGER" <==> proto.valueType == SENSOR_TRIGGER
      ensures tag != "???"
      ensures proto.valueType != SENSOR_TRIGGER ==> tag == DebugName(proto.valueType)
    {
      match proto.valueType
      case TEXT => "TEXT"
      case PICTURE => "PICTURE"
      case SENSOR_TRIGGER => "TRIGGER"
      case SNAPSHOT => "SNAPSHOT"
    }

    /** `COMPARATOR_BY_TIMESTAMP`: orders labels by `timestampMs` alone. */
    static function CompareByTimestamp(first: Label, second: Label): (r: int)
      reads first, second
      ensures r < 0 <==> first.proto.timestampMs < second.proto.timestampMs
      ensures r == 0 <==> first.proto.timestampMs == second.proto.timestampMs
      ensures r > 0 <==> first.proto.timestampMs > second.proto.timestampMs
    {
      LongCompare(first.GetTimeStamp(), second.GetTimeStamp())
    }
  }

  /** The enum constant's own name. */
  function DebugName(t: ValueType): string {
    match t
    case TEXT => "TEXT"
    case PICTURE => "PICTURE"
    case SENSOR_TRIGGER => "SENSOR_TRIGGER"
    case SNAPSHOT => "SNAPSHOT"
  }

  // ----- Properties of labels -----

  /**
   * The typed accessor matching the label's type returns exactly the payload
   * that was stored with `setLabelProtoData` (or a factory).
   */
  lemma TypedAccessorReturnsStoredValue(l: Label, v: LabelValue)
    requires l.proto.valueType == v.Kind() && l.proto.protoData == SerializeValue(v)
    ensures v.TextValue? ==> l.GetTextLabelValue() == Success(Some(v.text))
    ensures v.PictureValue? ==> l.GetPictureLabelValue() == Success(Some(v.picture))
    ensures v.SensorTriggerValue? ==> l.GetSensorTriggerLabelValue() == Success(Some(v.trigger))
    ensures v.SnapshotValue? ==> l.GetSnapshotLabelValue() == Success(Some(v.snapshot))
  {
    ParseSerializeValue(v);
  }

  /**
   * The accessor of the label's own type reads as null exactly when the
   * payload does not parse under that type's schema: a parse failure is not
   * an exception, which is reserved for a type mismatch.
   */
  lemma UndecodablePayloadReadsAsNull(l: Label)
    ensures l.proto.valueType == TEXT ==>
              (l.GetTextLabelValue() == Success(None) <==> ParseText(l.proto.protoData).None?)
    ensures l.proto.valueType == PICTURE ==>
              (l.GetPictureLabelValue() == Success(None) <==> ParsePicture(l.proto.protoData).None?)
    ensures l.proto.valueType == SENSOR_TRIGGER ==>
              (l.GetSensorTriggerLabelValue() == Success(None) <==> ParseSensorTrigger(l.proto.protoData).None?)
    ensures l.proto.valueType == SNAPSHOT ==>
              (l.GetSnapshotLabelValue() == Success(None) <==> ParseSnapshot(l.proto.protoData).None?)
  {
  }

  /** A label made by `newLabel` has an empty payload, which reads as the all-defaults payload. */
  lemma EmptyPayloadReadsAsDefault(l: Label)
    requires l.proto.protoData == []
    ensures l.proto.valueType == TEXT ==> l.GetTextLabelValue() == Success(Some(DEFAULT_TEXT))
    ensures l.proto.valueType == PICTURE ==> l.GetPictureLabelValue() == Success(Some(DEFAULT_PICTURE))
    ensures l.proto.valueType == SENSOR_TRIGGER ==>
              l.GetSensorTriggerLabelValue() == Success(Some(DEFAULT_SENSOR_TRIGGER))
    ensures l.proto.valueType == SNAPSHOT ==> l.GetSnapshotLabelValue() == Success(Some(DEFAULT_SNAPSHOT))
  {
    EmptyPayloadParsesToDefaults();
  }

  /** Exactly one typed accessor succeeds on any label. */
  lemma ExactlyOneAccessorSucceeds(l: Label)
    ensures l.GetTextLabelValue().Success? <==> l.proto.valueType == TEXT
    ensures (if l.GetTextLabelValue().Success? then 1 else 0)
          + (if l.GetPictureLabelValue().Success? then 1 else 0)
          + (if l.GetSensorTriggerLabelValue().Success? then 1 else 0)
          + (if l.GetSnapshotLabelValue().Success? then 1 else 0) == 1
  {
  }

  /** Labels of different types get different debug tags. */
  lemma DebugTypeStringsDistinct(a: Label, b: Label)
    ensures a.GetDebugTypeString() == b.GetDebugTypeString() <==> a.proto.valueType == b.proto.valueType
  {
  }

  /** `COMPARATOR_BY_TIMESTAMP` is a total preorder, as a `Comparator` must be. */
  lemma CompareByTimestampIsTotalPreorder(a: Label, b: Label, c: Label)
    ensures Label.CompareByTimestamp(a, a) == 0
    ensures Label.CompareByTimestamp(a, b) < 0 <==> Label.CompareByTimestamp(b, a) > 0
    ensures (Label.CompareByTimestamp(a, b) <= 0 && Label.CompareByTimestamp(b, c) <= 0)
            ==> Label.CompareByTimestamp(a, c) <= 0
  {
  }
}
