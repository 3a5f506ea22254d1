# Science Journal labels and scalar-input sensor specs in Dafny

This project models two record types of the Science Journal Android app.

- **Label** (`Label.java`): a timestamped annotation of a recording.
  It wraps one label record: an id, a value type (TEXT, PICTURE, SENSOR_TRIGGER or SNAPSHOT), a creation time, a timestamp, a serialized payload (`protoData`) and an optional caption.
  The setters change the record in place.
  The typed accessors decode the payload under the schema of the label's own type and throw on any other type.
  `copyOf` duplicates a label through a parcel round trip and then gives the copy a new id, a new creation time and a new caption edit time.
- **ScalarInputSpec** (`ScalarInputSpec.java`): the spec of a sensor served by another app.
  It holds a name and a configuration record.
  Its constructors normalise the inputs.
  It also picks a default icon by order, extracts the package id from a service id, and re-numbers the sensor before pairing.

Files:

- `wrappers.dfy`: `Option` (Java's null) and `Result` (a thrown exception).
- `java_lang.dfy`: Java's `int`/`long` ranges, `Long.compare`, the `%` operator and `String.split` on a one-character separator.
- `wire.dfy`: the serialized form, a token sequence standing in for protocol-buffer bytes, with proved round trips.
- `label_messages.dfy`: the label record, the caption and the four payload messages, with their codecs.
- `label.dfy`: the `Label` class.
- `scalar_input_config.dfy`: the sensor configuration record and its codec.
- `scalar_input_spec.dfy`: the `ScalarInputSpec` class.

The protocol-buffer runtime and Android's `Parcel` are foreign libraries.
They are replaced by a concrete codec whose laws are proved rather than assumed:

- parsing a serialized message gives it back;
- parsing can fail on malformed input;
- the all-defaults message serializes to nothing, and the empty input parses to the all-defaults message.

That last law is why a fresh label's empty payload reads as an empty payload value rather than as null.
UUID generation and `System.currentTimeMillis()` are parameters.
`copyOf` takes a fresh id and two clock readings, because the source reads the clock twice.

Three behaviours of the code that the model keeps:

- `setTimestamp` does not check `canEditTimestamp`.
- No factory or setter checks that a payload matches the label's type.
- A payload that fails to decode reads as null, not as an error.

## Model

| member | source | states |
|---|---|---|
| Labels.Label.FromProto | OpenScienceJournal/whistlepunk_library/src/main/java/com/google/android/apps/forscience/whistlepunk/filemetadata/Label.java:117-119 | wraps the given record unchanged |
| Labels.Label.constructor | OpenScienceJournal/whistlepunk_library/src/main/java/com/google/android/apps/forscience/whistlepunk/filemetadata/Label.java:121-129 | timestamp and creation time both equal the given time; keeps the given id and type; empty payload; no caption |
| Labels.Label.FromLabel | OpenScienceJournal/whistlepunk_library/src/main/java/com/google/android/apps/forscience/whistlepunk/filemetadata/Label.java:56-58 | a new label object whose record is exactly the given one |
| Labels.Label.NewLabel | OpenScienceJournal/whistlepunk_library/src/main/java/com/google/android/apps/forscience/whistlepunk/filemetadata/Label.java:61-63 | a new label with the fresh id and type, timestamp equal to creation time, empty payload, no caption |
| Labels.Label.NewLabelWithValue | OpenScienceJournal/whistlepunk_library/src/main/java/com/google/android/apps/forscience/whistlepunk/filemetadata/Label.java:67-82 | as NewLabel, but the payload is the serialization of the given value (of any kind) and the caption is the given one |
| Labels.Label.FromUuidAndValue | OpenScienceJournal/whistlepunk_library/src/main/java/com/google/android/apps/forscience/whistlepunk/filemetadata/Label.java:85-97 | keeps exactly the caller's id; the payload is the serialization of the value; no caption |
| Labels.Label.CopyOf | OpenScienceJournal/whistlepunk_library/src/main/java/com/google/android/apps/forscience/whistlepunk/filemetadata/Label.java:99-115 | a fresh object with a new id and new creation time; same timestamp, type and payload bytes; same caption text with the new edit time, or no caption; same typed accessor results; the source is not modified |
| Labels.Label.WriteToParcel | OpenScienceJournal/whistlepunk_library/src/main/java/com/google/android/apps/forscience/whistlepunk/filemetadata/Label.java:152-156 | reading the written parcel back recovers this label's record |
| Labels.Label.CreateFromParcel | OpenScienceJournal/whistlepunk_library/src/main/java/com/google/android/apps/forscience/whistlepunk/filemetadata/Label.java:131-168 | a fresh label holding the record read from the parcel, or null where the record does not parse |
| Labels.ReadLabelFromParcel | OpenScienceJournal/whistlepunk_library/src/main/java/com/google/android/apps/forscience/whistlepunk/filemetadata/Label.java:131-145 | the reading half of the parcel round trip: skips the size, reads the byte array and parses it, giving null when the record does not parse |
| Labels.Label.GetLabelId | OpenScienceJournal/whistlepunk_library/src/main/java/com/google/android/apps/forscience/whistlepunk/filemetadata/Label.java:174-176 | the id of the wrapped record |
| Labels.Label.GetTimeStamp | OpenScienceJournal/whistlepunk_library/src/main/java/com/google/android/apps/forscience/whistlepunk/filemetadata/Label.java:178-180 | the timestamp of the wrapped record |
| Labels.Label.GetCreationTimeMs | OpenScienceJournal/whistlepunk_library/src/main/java/com/google/android/apps/forscience/whistlepunk/filemetadata/Label.java:186-188 | the creation time of the wrapped record |
| Labels.Label.GetType | OpenScienceJournal/whistlepunk_library/src/main/java/com/google/android/apps/forscience/whistlepunk/filemetadata/Label.java:206-208 | the value type of the wrapped record |
| Labels.Label.SetTimestamp | OpenScienceJournal/whistlepunk_library/src/main/java/com/google/android/apps/forscience/whistlepunk/filemetadata/Label.java:182-184 | replaces only the timestamp, whatever the label's type |
| Labels.Label.CanEditTimestamp | OpenScienceJournal/whistlepunk_library/src/main/java/com/google/android/apps/forscience/whistlepunk/filemetadata/Label.java:190-193 | true exactly for TEXT and PICTURE labels, false for SNAPSHOT and SENSOR_TRIGGER |
| Labels.Label.GetCaptionText | OpenScienceJournal/whistlepunk_library/src/main/java/com/google/android/apps/forscience/whistlepunk/filemetadata/Label.java:195-200 | the empty string without a caption, the caption's text otherwise |
| Labels.Label.SetCaption | OpenScienceJournal/whistlepunk_library/src/main/java/com/google/android/apps/forscience/whistlepunk/filemetadata/Label.java:202-204 | replaces only the caption |
| Labels.Label.SetLabelProtoData | OpenScienceJournal/whistlepunk_library/src/main/java/com/google/android/apps/forscience/whistlepunk/filemetadata/Label.java:289-304 | replaces only the payload, with the serialized value, without checking it against the type |
| Labels.Label.GetTextLabelValue | OpenScienceJournal/whistlepunk_library/src/main/java/com/google/android/apps/forscience/whistlepunk/filemetadata/Label.java:210-228 | throws IllegalStateException exactly when the label is not TEXT, naming the requested payload and the actual type number |
| Labels.Label.GetPictureLabelValue | OpenScienceJournal/whistlepunk_library/src/main/java/com/google/android/apps/forscience/whistlepunk/filemetadata/Label.java:230-248 | throws exactly when the label is not PICTURE, with that exception |
| Labels.Label.GetSensorTriggerLabelValue | OpenScienceJournal/whistlepunk_library/src/main/java/com/google/android/apps/forscience/whistlepunk/filemetadata/Label.java:250-267 | throws exactly when the label is not SENSOR_TRIGGER, with that exception |
| Labels.Label.GetSnapshotLabelValue | OpenScienceJournal/whistlepunk_library/src/main/java/com/google/android/apps/forscience/whistlepunk/filemetadata/Label.java:269-287 | throws exactly when the label is not SNAPSHOT, with that exception |
| Labels.ThrowLabelValueException | OpenScienceJournal/whistlepunk_library/src/main/java/com/google/android/apps/forscience/whistlepunk/filemetadata/Label.java:361-365 | the exception carries the requested payload name and a number that identifies the actual type |
| Labels.TypedAccessorReturnsStoredValue | OpenScienceJournal/whistlepunk_library/src/main/java/com/google/android/apps/forscience/whistlepunk/filemetadata/Label.java:214-304 | on a label whose type matches the stored value, the matching accessor returns exactly that value |
| Labels.UndecodablePayloadReadsAsNull | OpenScienceJournal/whistlepunk_library/src/main/java/com/google/android/apps/forscience/whistlepunk/filemetadata/Label.java:216-227 | on every label, the accessor of its own type returns null exactly when the payload does not parse under that type's schema; a parse failure is never an exception |
| Labels.EmptyPayloadReadsAsDefault | OpenScienceJournal/whistlepunk_library/src/main/java/com/google/android/apps/forscience/whistlepunk/filemetadata/Label.java:121-129 | the empty payload of a new label reads as the all-defaults value of its type |
| Labels.ExactlyOneAccessorSucceeds | OpenScienceJournal/whistlepunk_library/src/main/java/com/google/android/apps/forscience/whistlepunk/filemetadata/Label.java:214-287 | on every label exactly one of the four accessors does not throw, the one of its type |
| Labels.Label.GetDebugTypeString | OpenScienceJournal/whistlepunk_library/src/main/java/com/google/android/apps/forscience/whistlepunk/filemetadata/Label.java:331-344 | TRIGGER exactly for sensor-trigger labels, the enum's own name for the others, never the unknown tag |
| Labels.DebugTypeStringsDistinct | OpenScienceJournal/whistlepunk_library/src/main/java/com/google/android/apps/forscience/whistlepunk/filemetadata/Label.java:331-344 | two labels have the same debug tag exactly when they have the same type |
| Labels.Label.CompareByTimestamp | OpenScienceJournal/whistlepunk_library/src/main/java/com/google/android/apps/forscience/whistlepunk/filemetadata/Label.java:49-50 | negative, zero or positive as the first label's timestamp is below, equal to or above the second's |
| Labels.CompareByTimestampIsTotalPreorder | OpenScienceJournal/whistlepunk_library/src/main/java/com/google/android/apps/forscience/whistlepunk/filemetadata/Label.java:49-50 | the comparator is reflexive, antisymmetric in sign and transitive |
| JavaLang.LongCompare | OpenScienceJournal/whistlepunk_library/src/main/java/com/google/android/apps/forscience/whistlepunk/filemetadata/Label.java:50 | Long.compare: the sign of the result matches the order of the arguments |
| LabelMessages.ValueTypeForNumber | OpenScienceJournal/whistlepunk_library/src/main/java/com/google/android/apps/forscience/whistlepunk/filemetadata/Label.java:364 | exactly the numbers 0 to 3 name a value type, and the type found has that number |
| LabelMessages.ParseSerializeLabel | OpenScienceJournal/whistlepunk_library/src/main/java/com/google/android/apps/forscience/whistlepunk/filemetadata/Label.java:137-155 | parsing a serialized label record gives the same record back |
| LabelMessages.ParseSerializeValue | OpenScienceJournal/whistlepunk_library/src/main/java/com/google/android/apps/forscience/whistlepunk/filemetadata/Label.java:214-304 | parsing a serialized payload under its own schema gives the same payload back |
| LabelMessages.EmptyPayloadParsesToDefaults | OpenScienceJournal/whistlepunk_library/src/main/java/com/google/android/apps/forscience/whistlepunk/filemetadata/Label.java:216-218 | the empty payload parses to the all-defaults message of every schema |
| LabelMessages.MalformedPayloadDoesNotParse | OpenScienceJournal/whistlepunk_library/src/main/java/com/google/android/apps/forscience/whistlepunk/filemetadata/Label.java:216-223 | parsing is partial: a lone character parses under no payload schema |
| ScalarInput.ScalarInputSpec.constructor | OpenScienceJournal/whistlepunk_library/src/main/java/com/google/android/apps/forscience/whistlepunk/api/scalarinput/ScalarInputSpec.java:42-66 | the config has the given service, address, device and order; the logging id only when the behavior supplies one; the behavior's flags; the resources through emptyIfNull; defaults elsewhere |
| ScalarInput.ScalarInputSpec.New | OpenScienceJournal/whistlepunk_library/src/main/java/com/google/android/apps/forscience/whistlepunk/api/scalarinput/ScalarInputSpec.java:42-66 | throws NullPointerException exactly when the service id is null; otherwise a fresh spec with that config |
| ScalarInput.ScalarInputSpec.NewWithoutOrder | OpenScienceJournal/whistlepunk_library/src/main/java/com/google/android/apps/forscience/whistlepunk/api/scalarinput/ScalarInputSpec.java:68-77 | the same outcome as the seven-argument constructor with order 0 |
| ScalarInput.WriteResourceIds | OpenScienceJournal/whistlepunk_library/src/main/java/com/google/android/apps/forscience/whistlepunk/api/scalarinput/ScalarInputSpec.java:79-86 | with resources, sets icon, units and description (null strings become empty); without them, changes nothing; no other field changes |
| ScalarInput.EmptyIfNull | OpenScienceJournal/whistlepunk_library/src/main/java/com/google/android/apps/forscience/whistlepunk/api/scalarinput/ScalarInputSpec.java:88-90 | null becomes the empty string, any other string is kept |
| ScalarInput.ScalarInputSpec.FromConfigBytes | OpenScienceJournal/whistlepunk_library/src/main/java/com/google/android/apps/forscience/whistlepunk/api/scalarinput/ScalarInputSpec.java:92-107 | the config is the parse of the bytes, null when they are malformed |
| ScalarInputConfigs.ParseSerializeConfig | OpenScienceJournal/whistlepunk_library/src/main/java/com/google/android/apps/forscience/whistlepunk/api/scalarinput/ScalarInputSpec.java:97-107 | parsing a serialized config gives the same config back |
| ScalarInputConfigs.MalformedConfigDoesNotParse | OpenScienceJournal/whistlepunk_library/src/main/java/com/google/android/apps/forscience/whistlepunk/api/scalarinput/ScalarInputSpec.java:98-106 | parsing is partial: a lone character does not parse as a config |
| ScalarInput.ScalarInputSpec.GetDefaultIconId | OpenScienceJournal/whistlepunk_library/src/main/java/com/google/android/apps/forscience/whistlepunk/api/scalarinput/ScalarInputSpec.java:178-192 | for a non-negative order, icon number order mod 4 plus 1; for every negative order, the first icon |
| JavaLang.JavaRem | OpenScienceJournal/whistlepunk_library/src/main/java/com/google/android/apps/forscience/whistlepunk/api/scalarinput/ScalarInputSpec.java:179 | Java's remainder: the quotient rounded toward zero times the divisor plus the remainder is the dividend; the remainder is smaller in size than the divisor and has the dividend's sign |
| ScalarInput.ScalarInputSpec.GetConfig | OpenScienceJournal/whistlepunk_library/src/main/java/com/google/android/apps/forscience/whistlepunk/api/scalarinput/ScalarInputSpec.java:213-216 | the bytes parse back to this spec's config, so a spec rebuilt from them has the same config |
| ScalarInput.ScalarInputSpec.GetName | OpenScienceJournal/whistlepunk_library/src/main/java/com/google/android/apps/forscience/whistlepunk/api/scalarinput/ScalarInputSpec.java:195-197 | the sensor's name as given |
| ScalarInput.ScalarInputSpec.GetType | OpenScienceJournal/whistlepunk_library/src/main/java/com/google/android/apps/forscience/whistlepunk/api/scalarinput/ScalarInputSpec.java:200-202 | the constant type tag ScalarInput |
| ScalarInput.ScalarInputSpec.GetAddress | OpenScienceJournal/whistlepunk_library/src/main/java/com/google/android/apps/forscience/whistlepunk/api/scalarinput/ScalarInputSpec.java:205-207 | the service id joined with the address in the service |
| ScalarInput.ScalarInputSpec.GetSensorAddressInService | OpenScienceJournal/whistlepunk_library/src/main/java/com/google/android/apps/forscience/whistlepunk/api/scalarinput/ScalarInputSpec.java:209-211 | the address stored in the config |
| ScalarInput.ScalarInputSpec.ShouldShowOptionsOnConnect | OpenScienceJournal/whistlepunk_library/src/main/java/com/google/android/apps/forscience/whistlepunk/api/scalarinput/ScalarInputSpec.java:219-221 | the options flag stored in the config |
| ScalarInput.ScalarInputSpec.GetDeviceAddress | OpenScienceJournal/whistlepunk_library/src/main/java/com/google/android/apps/forscience/whistlepunk/api/scalarinput/ScalarInputSpec.java:224-226 | the service id joined with the device id |
| ScalarInput.ScalarInputSpec.MakeApiDeviceAddress | OpenScienceJournal/whistlepunk_library/src/main/java/com/google/android/apps/forscience/whistlepunk/api/scalarinput/ScalarInputSpec.java:229-231 | the given service id joined with the given device id |
| ScalarInput.ScalarInputSpec.GetDeviceId | OpenScienceJournal/whistlepunk_library/src/main/java/com/google/android/apps/forscience/whistlepunk/api/scalarinput/ScalarInputSpec.java:233-235 | the device id stored in the config |
| ScalarInput.ScalarInputSpec.GetServiceId | OpenScienceJournal/whistlepunk_library/src/main/java/com/google/android/apps/forscience/whistlepunk/api/scalarinput/ScalarInputSpec.java:237-239 | the service id stored in the config |
| ScalarInput.ScalarInputSpec.GetLoggingId | OpenScienceJournal/whistlepunk_library/src/main/java/com/google/android/apps/forscience/whistlepunk/api/scalarinput/ScalarInputSpec.java:247-249 | the service id joined with the logging id stored in the config |
| ScalarInput.ScalarInputSpec.GetExpectedSamplesPerSecond | OpenScienceJournal/whistlepunk_library/src/main/java/com/google/android/apps/forscience/whistlepunk/api/scalarinput/ScalarInputSpec.java:251-253 | the sample rate stored in the config |
| ScalarInput.ScalarInputSpec.GetPackageId | OpenScienceJournal/whistlepunk_library/src/main/java/com/google/android/apps/forscience/whistlepunk/api/scalarinput/ScalarInputSpec.java:241-244 | the longest prefix without '/', which is all of the id when there is no '/'; throws exactly when the id is non-empty and made only of '/' |
| JavaLang.JavaSplit | OpenScienceJournal/whistlepunk_library/src/main/java/com/google/android/apps/forscience/whistlepunk/api/scalarinput/ScalarInputSpec.java:243 | no pieces exactly when the string is non-empty and made only of separators; the first piece is the text before the first separator |
| JavaLang.StripTrailingEmpty | OpenScienceJournal/whistlepunk_library/src/main/java/com/google/android/apps/forscience/whistlepunk/api/scalarinput/ScalarInputSpec.java:243 | a prefix of the pieces that ends in a non-empty piece, having dropped only empty ones |
| JavaLang.SplitAllEmptyIffSeparatorsOnly | OpenScienceJournal/whistlepunk_library/src/main/java/com/google/android/apps/forscience/whistlepunk/api/scalarinput/ScalarInputSpec.java:243 | every piece is empty exactly when the string is made only of separators |
| ScalarInput.ScalarInputSpec.MaybeAdjustBeforePairing | OpenScienceJournal/whistlepunk_library/src/main/java/com/google/android/apps/forscience/whistlepunk/api/scalarinput/ScalarInputSpec.java:255-263 | the same object when the order already matches; otherwise a fresh spec with the same name and the config with only the order changed |

## Left out

- Protocol-buffer encoding: the bytes are a token sequence, not the protocol-buffer wire format; unknown fields and field reordering are not modelled.
- Android `Parcel`: a parcel is a token sequence; `describeContents` and `CREATOR.newArray` are not modelled.
- Labels.Label.CreateFromParcel: the source leaves a Label whose record is null after a parse error; the model returns no Label (null) instead.
- Aliasing: `fromLabel` and `getLabelProto` share the record object in the source; here the record is a value, so a change made through one reference is not seen through the other.
- The `MessageNano` and `MessageLite` overloads of `newLabelWithValue`, `fromUuidAndValue` and `setLabelProtoData` behave alike; each pair is one member here.
- Payload contents are reduced to a few fields (text; file path; sensor id and serialized trigger information; sensor readings); `float` and `double` values are carried as bit patterns.
- The value type is a closed enumeration, so the "???" branch of `getDebugTypeString` cannot be reached; an unknown type number fails to parse.
- `deleteAssets`: file deletion and path resolution, which are I/O.
- `toString` and `getDebugLabelValue`: diagnostic text only. `Log` calls and the migration annotations are left out too.
- Labels.Label.CopyOf: requires the fresh id to differ from the source's id, which stands for UUID uniqueness.
- UUID generation and the clock: they are parameters.
- `getSensorAppearance`, `getServiceDrawable`, drawables, `Resources` and `PackageManager`: UI and platform glue. So is the private instance `getPackageId()`, used only there.
- `InputDeviceSpec.joinAddresses` is not part of this model; the getters that use it take it as a parameter.
- Java nulls for the sensor name, address and device id are not modelled; these are plain strings.
- ScalarInput.ScalarInputSpec.GetDefaultIconId: requires a parsed config; the source throws NullPointerException when the config is null.
- ScalarInput.ScalarInputSpec.GetConfig: requires a parsed config, for the same reason.
- ScalarInput.ScalarInputSpec.MaybeAdjustBeforePairing: requires a parsed config, for the same reason.
- ScalarInput.ScalarInputSpec.constructor: takes a non-null service id; the null check is modelled by ScalarInput.ScalarInputSpec.New.
- ScalarInput.ScalarInputSpec.GetServiceId: requires a parsed config; the source throws NullPointerException when the config is null.
- ScalarInput.ScalarInputSpec.GetSensorAddressInService: requires a parsed config; the source throws NullPointerException when the config is null.
- ScalarInput.ScalarInputSpec.GetDeviceId: requires a parsed config; the source throws NullPointerException when the config is null.
- ScalarInput.ScalarInputSpec.ShouldShowOptionsOnConnect: requires a parsed config; the source throws NullPointerException when the config is null.
- ScalarInput.ScalarInputSpec.GetExpectedSamplesPerSecond: requires a parsed config; the source throws NullPointerException when the config is null.
- ScalarInput.ScalarInputSpec.GetAddress: requires a parsed config; the source throws NullPointerException when the config is null.
- ScalarInput.ScalarInputSpec.GetDeviceAddress: requires a parsed config; the source throws NullPointerException when the config is null.
- ScalarInput.ScalarInputSpec.GetLoggingId: requires a parsed config; the source throws NullPointerException when the config is null.
- A label's payload is one of the four label-value messages; the source's factories and `setLabelProtoData` accept any `MessageNano` or `MessageLite`, so a payload of another message type is not modelled.
- Java nulls on the Label side are not modelled: a null payload (which makes `toByteArray` throw NullPointerException in the source), a null label id and a null value type cannot be expressed here.
