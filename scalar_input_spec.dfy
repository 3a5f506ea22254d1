/**
 * The sensor spec of a scalar-input sensor served by another app: a sensor
 * name plus a configuration record, with rules for the default icon, the
 * package that serves the sensor, and re-numbering before pairing.
 *
 * `InputDeviceSpec.joinAddresses` is not part of this model; the getters
 * that use it take it as the parameter `join`.
 */
module ScalarInput {
  import opened Wrappers
  import opened JavaLang
  import opened Wire
  import opened ScalarInputConfigs

  /** What a sensor app says about how its sensor behaves (`SensorBehavior`). */
  datatype SensorBehavior = SensorBehavior(
    loggingId: Option<string>,
    shouldShowSettingsOnConnect: bool,
    expectedSamplesPerSecond: FloatBits)

  /** The resource ids a sensor app supplies for display (`SensorAppearanceResources`). */
  datatype SensorAppearanceResources = SensorAppearanceResources(
    iconId: int32,
    units: Option<string>,
    shortDescription: Option<string>)

  /** Exceptions the spec's operations can throw. */
  datatype SpecException = NullPointerException | ArrayIndexOutOfBoundsException

  /** The four built-in icons (`R.drawable.ic_api_0N_white_24dp`). */
  datatype ApiIcon = IC_API_01 | IC_API_02 | IC_API_03 | IC_API_04 {
    /** The N in the icon's name. */
    function Number(): (n: int)
      ensures 1 <= n <= 4
    {
      match this
      case IC_API_01 => 1
      case IC_API_02 => 2
      case IC_API_03 => 3
      case IC_API_04 => 4
    }
  }

  /** `ScalarInputSpec.TYPE`. */
  const TYPE: string := "ScalarInput"

  /** `emptyIfNull`: a missing string becomes the empty string. */
  function EmptyIfNull(s: Option<string>): (r: string)
    ensures s.Some? ==> r == s.value
    ensures s.None? ==> r == ""
  {
    if s.None? then "" else s.value
  }

  /**
   * `writeResourceIds`: copies the icon, units and description into the
   * config when resources are given (missing strings become empty), and
   * leaves the config alone otherwise.
   */
  method WriteResourceIds(config: ScalarInputConfig, ids: Option<SensorAppearanceResources>)
    returns (written: ScalarInputConfig)
    ensures ids.None? ==> written == config
    ensures ids.Some? ==> written.iconId == ids.value.iconId
    ensures ids.Some? ==> written.units == EmptyIfNull(ids.value.units)
    ensures ids.Some? ==> written.shortDescription == EmptyIfNull(ids.value.shortDescription)
    ensures written == config.(iconId := written.iconId, units := written.units,
                               shortDescription := written.shortDescription)
  {
    written := config;
    if ids.Some? {
      written := written.(iconId := ids.value.iconId);
      written := written.(units := EmptyIfNull(ids.value.units));
      written := written.(shortDescription := EmptyIfNull(ids.value.shortDescription));
    }
  }

  /**
   * The config the full constructor builds: the given service, address,
   * device and order; the logging id only when the behavior supplies one;
   * the behavior's flags when there is a behavior; the resources, with
   * missing strings made empty, when there are resources; defaults elsewhere.
   */
  ghost predicate IsInitialConfig(c: ScalarInputConfig, serviceId: string, address: string,
                                  behavior: Option<SensorBehavior>, ids: Option<SensorAppearanceResources>,
                                  deviceId: string, order: int32)
  {
    && c.serviceId == serviceId
    && c.address == address
    && c.deviceId == deviceId
    && c.orderInExperimentApiSensors == order
    && c.loggingId == (if behavior.Some? && behavior.value.loggingId.Some? then behavior.value.loggingId.value else "")
    && c.shouldShowOptionsOnConnect == (behavior.Some? && behavior.value.shouldShowSettingsOnConnect)
    && c.expectedSamplesPerSecond == (if behavior.Some? then behavior.value.expectedSamplesPerSecond else 0)
    && c.iconId == (if ids.Some? then ids.value.iconId else 0)
    && c.units == (if ids.Some? then EmptyIfNull(ids.value.units) else "")
    && c.shortDescription == (if ids.Some? then EmptyIfNull(ids.value.shortDescription) else "")
  }

  class ScalarInputSpec {
    var name: string
    /** `None` when the spec was made from bytes that do not parse. */
    var config: Option<ScalarInputConfig>

    /** The full constructor, past its null check on `serviceId`: builds the config field by field. */
    constructor (sensorName: string, serviceId: string, address: string, behavior: Option<SensorBehavior>,
                 ids: Option<SensorAppearanceResources>, deviceId: string, orderInExperimentApiSensors: int32)
      ensures name == sensorName
      ensures config.Some? && IsInitialConfig(config.value, serviceId, address, behavior, ids, deviceId,
                                              orderInExperimentApiSensors)
    {
      name := sensorName;
      var c := DEFAULT_CONFIG;
      c := c.(serviceId := serviceId);
      c := c.(address := address);
      c := c.(orderInExperimentApiSensors := orderInExperimentApiSensors);
      c := c.(deviceId := deviceId);
      if behavior.Some? {
        if behavior.value.loggingId.Some? {
          c := c.(loggingId := behavior.value.loggingId.value);
        }
        c := c.(shouldShowOptionsOnConnect := behavior.value.shouldShowSettingsOnConnect);
        c := c.(expectedSamplesPerSecond := behavior.value.expectedSamplesPerSecond);
      }
      c := WriteResourceIds(c, ids);
      config := Some(c);
    }

    /** `ScalarInputSpec(sensorName, config)`: the config is parsed from bytes, `None` if they are malformed. */
    constructor FromConfigBytes(sensorName: string, configBytes: Bytes)
      ensures name == sensorName && config == ParseConfig(configBytes)
    {
      name := sensorName;
      config := ParseConfig(configBytes);
    }

    /**
     * `new ScalarInputSpec(...)` with seven arguments: throws on a null
     * service id (`Preconditions.checkNotNull`), builds the config otherwise.
     */
    static method New(sensorName: string, serviceId: Option<string>, address: string,
                      behavior: Option<SensorBehavior>, ids: Option<SensorAppearanceResources>,
                      deviceId: string, orderInExperimentApiSensors: int32)
      returns (r: Result<ScalarInputSpec, SpecException>)
      ensures r.Failure? <==> serviceId.None?
      ensures r.Failure? ==> r.error == NullPointerException
      ensures r.Success? ==> fresh(r.value) && r.value.name == sensorName && r.value.config.Some?
      ensures r.Success? ==> IsInitialConfig(r.value.config.value, serviceId.value, address, behavior, ids,
                                             deviceId, orderInExperimentApiSensors)
    {
      if serviceId.None? {
        return Failure(NullPointerException);
      }
      var spec := new ScalarInputSpec(sensorName, serviceId.value, address, behavior, ids, deviceId,
                                      orderInExperimentApiSensors);
      r := Success(spec);
    }

    /** The six-argument constructor: the seven-argument one with order 0. */
    static method NewWithoutOrder(sensorName: string, serviceId: Option<string>, address: string,
                                  behavior: Option<SensorBehavior>, ids: Option<SensorAppearanceResources>,
                                  deviceId: string)
      returns (r: Result<ScalarInputSpec, SpecException>)
      ensures r.Failure? <==> serviceId.None?
      ensures r.Failure? ==> r.error == NullPointerException
      ensures r.Success? ==> fresh(r.value) && r.value.name == sensorName && r.value.config.Some?
      ensures r.Success? ==> IsInitialConfig(r.value.config.value, serviceId.value, address, behavior, ids,
                                             deviceId, 0)
    {
      r := New(sensorName, serviceId, address, behavior, ids, deviceId, 0);
    }

    /**
     * `getDefaultIconId`: cycles through the four icons by the sensor's
     * order. Java's `%` keeps the sign of a negative order, so every
     * negative order ends on the first icon (through case 0 or the default).
     */
    function GetDefaultIconId(): (icon: ApiIcon)
      reads this
      requires config.Some?
      ensures config.value.orderInExperimentApiSensors >= 0 ==>
                icon.Number() == config.value.orderInExperimentApiSensors % 4 + 1
      ensures config.value.orderInExperimentApiSensors < 0 ==> icon == IC_API_01
    {
      var rem := JavaRem(config.value.orderInExperimentApiSensors, 4);
      if rem == 0 then IC_API_01
      else if rem == 1 then IC_API_02
      else if rem == 2 then IC_API_03
      else if rem == 3 then IC_API_04
      else IC_API_01
    }

    /** `getName`: the sensor's display name. */
    function GetName(): (n: string)
      reads this
      ensures n == name
    {
      name
    }

    /** `getType`: the same type tag for every scalar-input spec. */
    function GetType(): (t: string)
      ensures t == "ScalarInput"
    {
      TYPE
    }

    /** `getServiceId`: the service id stored in the config. */
    function GetServiceId(): (id: string)
      reads this
      requires config.Some?
      ensures id == config.value.serviceId
    {
      config.value.serviceId
    }

    /** `getSensorAddressInService`: the address stored in the config. */
    function GetSensorAddressInService(): (a: string)
      reads this
      requires config.Some?
      ensures a == config.value.address
    {
      config.value.address
    }

    /** `getDeviceId`: the device id stored in the config. */
    function GetDeviceId(): (id: string)
      reads this
      requires config.Some?
      ensures id == config.value.deviceId
    {
      config.value.deviceId
    }

    /** `shouldShowOptionsOnConnect`: the flag stored in the config. */
    function ShouldShowOptionsOnConnect(): (b: bool)
      reads this
      requires config.Some?
      ensures b == config.value.shouldShowOptionsOnConnect
    {
      config.value.shouldShowOptionsOnConnect
    }

    /** `getExpectedSamplesPerSecond`: the rate stored in the config. */
    function GetExpectedSamplesPerSecond(): (rate: FloatBits)
      reads this
      requires config.Some?
      ensures rate == config.value.expectedSamplesPerSecond
    {
      config.value.expectedSamplesPerSecond
    }

    /** `getAddress`: the service id joined with the address in the service. */
    function GetAddress(join: (string, string) -> string): (a: string)
      reads this
      requires config.Some?
      ensures a == join(config.value.serviceId, config.value.address)
    {
      join(GetServiceId(), GetSensorAddressInService())
    }

    /** `getDeviceAddress`: the service id joined with the device id. */
    function GetDeviceAddress(join: (string, string) -> string): (a: string)
      reads this
      requires config.Some?
      ensures a == join(config.value.serviceId, config.value.deviceId)
    {
      MakeApiDeviceAddress(join, GetServiceId(), GetDeviceId())
    }

    /** `makeApiDeviceAddress`: a device address is the service id joined with the device id. */
    static function MakeApiDeviceAddress(join: (string, string) -> string, serviceId: string, deviceId: string): (a: string)
      ensures a == join(serviceId, deviceId)
    {
      join(serviceId, deviceId)
    }

    /** `getLoggingId`: the service id joined with the logging id. */
    function GetLoggingId(join: (string, string) -> string): (id: string)
      reads this
      requires config.Some?
      ensures id == join(config.value.serviceId, config.value.loggingId)
    {
      join(GetServiceId(), config.value.loggingId)
    }

    /** `getConfig`: the serialized config, which parses back to this very config. */
    function GetConfig(): (bytes: Bytes)
      reads this
      requires config.Some?
      ensures ParseConfig(bytes) == config
    {
      ParseSerializeConfig(config.value);
      SerializeConfig(config.value)
    }

    /**
     * `getPackageId(serviceId)`: the text before the first '/', or all of it
     * when there is none; throws when the id is made of '/' only, because
     * `split` then returns no pieces at all.
     */
    static function GetPackageId(serviceId: string): (r: Result<string, SpecException>)
      ensures r.Failure? <==> |serviceId| > 0 && forall i :: 0 <= i < |serviceId| ==> serviceId[i] == '/'
      ensures r.Failure? ==> r.error == ArrayIndexOutOfBoundsException
      ensures r.Success? ==> '/' !in r.value && r.value <= serviceId
      ensures r.Success? && |r.value| < |serviceId| ==> serviceId[|r.value|] == '/'
    {
      var pieces := JavaSplit(serviceId, '/');
      if |pieces| == 0 then Failure(ArrayIndexOutOfBoundsException) else Success(pieces[0])
    }

    /**
     * `maybeAdjustBeforePairing`: the spec itself when the order already
     * matches; otherwise a new spec, made through a serialize/parse round
     * trip, that differs only in its order.
     */
    method MaybeAdjustBeforePairing(numPairedBeforeAdded: int32) returns (r: ScalarInputSpec)
      requires config.Some?
      ensures numPairedBeforeAdded == config.value.orderInExperimentApiSensors ==> r == this
      ensures numPairedBeforeAdded != config.value.orderInExperimentApiSensors ==>
                fresh(r) && r.name == name
                && r.config == Some(config.value.(orderInExperimentApiSensors := numPairedBeforeAdded))
    {
      if numPairedBeforeAdded == config.value.orderInExperimentApiSensors {
        return this;
      }
      ParseSerializeConfig(config.value);
      var copyConfig := ParseConfig(SerializeConfig(config.value)).value;
      copyConfig := copyConfig.(orderInExperimentApiSensors := numPairedBeforeAdded);
      ParseSerializeConfig(copyConfig);
      r := new ScalarInputSpec.FromConfigBytes(name, SerializeConfig(copyConfig));
    }
  }
}
