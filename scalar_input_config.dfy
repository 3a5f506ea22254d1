/**
 * The configuration record of a scalar-input sensor
 * (`GoosciScalarInput.ScalarInputConfig`) and its serialized form.
 */
module ScalarInputConfigs {
  import opened Wrappers
  import opened JavaLang
  import opened Wire

  datatype ScalarInputConfig = ScalarInputConfig(
    serviceId: string,
    address: string,
    deviceId: string,
    loggingId: string,
    orderInExperimentApiSensors: int32,
    shouldShowOptionsOnConnect: bool,
    expectedSamplesPerSecond: FloatBits,
    iconId: int32,
    units: string,
    shortDescription: string)

  /** A freshly made config: empty strings, zeros and false. */
  const DEFAULT_CONFIG := ScalarInputConfig("", "", "", "", 0, false, 0, 0, "", "")

  function EncodeConfig(c: ScalarInputConfig): Bytes {
    EncodeString(c.serviceId)
      + (EncodeString(c.address)
      + (EncodeString(c.deviceId)
      + (EncodeString(c.loggingId)
      + (EncodeInt(c.orderInExperimentApiSensors)
      + (EncodeBool(c.shouldShowOptionsOnConnect)
      + (EncodeInt(c.expectedSamplesPerSecond)
      + (EncodeInt(c.iconId)
      + (EncodeString(c.units)
      + EncodeString(c.shortDescription)))))))))
  }

  function DecodeConfig(w: Bytes): Option<(ScalarInputConfig, Bytes)> {
    var serviceId :- DecodeString(w);
    var address :- DecodeString(serviceId.1);
    var deviceId :- DecodeString(address.1);
    var loggingId :- DecodeString(deviceId.1);
    var order :- DecodeIntIn(loggingId.1, -0x8000_0000, 0x8000_0000);
    var show :- DecodeBool(order.1);
    var rate :- DecodeIntIn(show.1, 0, 0x1_0000_0000);
    var icon :- DecodeIntIn(rate.1, -0x8000_0000, 0x8000_0000);
    var units :- DecodeString(icon.1);
    var description :- DecodeString(units.1);
    Some((ScalarInputConfig(serviceId.0, address.0, deviceId.0, loggingId.0, order.0, show.0,
                            rate.0, icon.0, units.0, description.0), description.1))
  }

  lemma DecodeEncodeConfig(c: ScalarInputConfig, rest: Bytes)
    ensures DecodeConfig(EncodeConfig(c) + rest) == Some((c, rest))
  {
    var w9 := EncodeString(c.shortDescription) + rest;
    var w8 := EncodeString(c.units) + w9;
    var w7 := EncodeInt(c.iconId) + w8;
    var w6 := EncodeInt(c.expectedSamplesPerSecond) + w7;
    var w5 := EncodeBool(c.shouldShowOptionsOnConnect) + w6;
    var w4 := EncodeInt(c.orderInExperimentApiSensors) + w5;
    var w3 := EncodeString(c.loggingId) + w4;
    var w2 := EncodeString(c.deviceId) + w3;
    var w1 := EncodeString(c.address) + w2;
    assert EncodeConfig(c) + rest == EncodeString(c.serviceId) + w1;
    DecodeEncodeString(c.serviceId, w1);
    DecodeEncodeString(c.address, w2);
    DecodeEncodeString(c.deviceId, w3);
    DecodeEncodeString(c.loggingId, w4);
    DecodeEncodeInt(c.orderInExperimentApiSensors, -0x8000_0000, 0x8000_0000, w5);
    DecodeEncodeBool(c.shouldShowOptionsOnConnect, w6);
    DecodeEncodeInt(c.expectedSamplesPerSecond, 0, 0x1_0000_0000, w7);
    DecodeEncodeInt(c.iconId, -0x8000_0000, 0x8000_0000, w8);
    DecodeEncodeString(c.units, w9);
    DecodeEncodeString(c.shortDescription, rest);
  }

  /** `MessageNano.toByteArray(config)`. */
  function SerializeConfig(c: ScalarInputConfig): Bytes {
    Frame(c, DEFAULT_CONFIG, EncodeConfig)
  }

  /** `ScalarInputConfig.parseFrom(bytes)`; `None` where it would throw. */
  function ParseConfig(w: Bytes): Option<ScalarInputConfig> {
    Unframe(w, DEFAULT_CONFIG, DecodeConfig)
  }

  /** Parsing a serialized config gives the config back, field for field. */
  lemma ParseSerializeConfig(c: ScalarInputConfig)
    ensures ParseConfig(SerializeConfig(c)) == Some(c)
  {
    DecodeEncodeConfig(c, []);
    UnframeFrame(c, DEFAULT_CONFIG, EncodeConfig, DecodeConfig);
  }

  /** Parsing is partial: a stray character is not a config. */
  lemma MalformedConfigDoesNotParse()
    ensures ParseConfig([Chr('x')]).None?
  {
  }
}
