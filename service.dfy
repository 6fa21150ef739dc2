/** The measurement service object: how it is set up from a parsed
    .serviceconfig record, how the measurement function and its parameters
    are registered, and how the hosted gRPC service is started and stopped. */
module Service {
  import opened Runtime
  import opened Dicts
  import Info
  import Servicer

  // ---------------------------------------------------------------------------
  // The .serviceconfig record

  /** A JSON value of the config: a string, or anything else. */
  datatype JsonValue = JsonString(s: string) | JsonOther(value: Value)

  /** One entry of the config's "services" list. */
  datatype ServiceEntry = ServiceEntry(
    serviceClass: string,
    displayName: string,
    descriptionUrl: string,
    providedInterfaces: seq<string>,
    version: Option<string>,
    annotations: map<string, JsonValue>)

  /** Python's `str` of an optional string, as an f-string renders it. */
  function OptionalText(s: Option<string>): string {
    if s.None? then "None" else s.value
  }

  /** The entry the service uses: the first one when no service class is
      given, otherwise the first whose class matches; `configFile` is how the
      config file object renders in the error message. */
  function SelectService(services: seq<ServiceEntry>, serviceClass: Option<string>, configFile: string): (r: Result<ServiceEntry>)
    decreases |services|
  {
    if services == [] then
      Failure(RuntimeError("Service class '" + OptionalText(serviceClass) + "' not found in '" + configFile + "'"))
    else if serviceClass.None? || services[0].serviceClass == serviceClass.value then
      Success(services[0])
    else
      SelectService(services[1..], serviceClass, configFile)
  }

  /** Whether `entry` is one the given service class selects. */
  predicate Selects(serviceClass: Option<string>, entry: ServiceEntry) {
    serviceClass.None? || entry.serviceClass == serviceClass.value
  }

  /** The selection succeeds exactly when some entry matches, and then picks
      the first match: every entry before it does not match. */
  lemma {:induction false} SelectServicePicksFirstMatch(services: seq<ServiceEntry>, serviceClass: Option<string>, configFile: string)
    ensures var r := SelectService(services, serviceClass, configFile);
      && (r.Success? <==> exists i | 0 <= i < |services| :: Selects(serviceClass, services[i]))
      && (r.Failure? ==> r.error.RuntimeError?)
      && (r.Success? ==> exists i | 0 <= i < |services| ::
            && services[i] == r.value && Selects(serviceClass, services[i])
            && forall j | 0 <= j < i :: !Selects(serviceClass, services[j]))
    decreases |services|
  {
    if services != [] && !Selects(serviceClass, services[0]) {
      SelectServicePicksFirstMatch(services[1..], serviceClass, configFile);
      var r := SelectService(services, serviceClass, configFile);
      if r.Success? {
        var i :| 0 <= i < |services[1..]| && services[1..][i] == r.value && Selects(serviceClass, services[1..][i])
          && forall j | 0 <= j < i :: !Selects(serviceClass, services[1..][j]);
        assert services[i + 1] == r.value;
        forall j | 0 <= j < i + 1
          ensures !Selects(serviceClass, services[j])
        {
          if j > 0 {
            assert services[j] == services[1..][j - 1];
          }
        }
      } else {
        forall i | 0 <= i < |services|
          ensures !Selects(serviceClass, services[i])
        {
          if i > 0 {
            assert services[i] == services[1..][i - 1];
          }
        }
      }
    } else if services != [] {
      assert Selects(serviceClass, services[0]);
    }
  }

  /** The version the service reports, resolved from the deprecated
      constructor parameter and the config entry's "version". */
  method ResolveVersion(version: string, configVersion: Option<string>) returns (r: Result<string>, deprecationWarned: bool)
    ensures deprecationWarned <==> version != ""
    ensures r.Failure? <==> version != "" && configVersion.Some? && version != configVersion.value
    ensures r.Failure? ==> r.error == RuntimeError(
      "Version mismatch: .serviceconfig version is '" + configVersion.value
      + "', but version parameter is '" + version + "'.")
    ensures r.Success? ==> r.value == if configVersion.Some? then configVersion.value else ""
  {
    var resolved := version;
    deprecationWarned := resolved != "";
    if resolved != "" && configVersion.None? {
      resolved := "";
    }
    if configVersion.Some? {
      if resolved != "" && resolved != configVersion.value {
        return Failure(RuntimeError(
          "Version mismatch: .serviceconfig version is '" + configVersion.value
          + "', but version parameter is '" + resolved + "'.")), deprecationWarned;
      }
      resolved := configVersion.value;
    }
    r := Success(resolved);
  }

  /** `convert_value_to_str`: strings stay as they are, anything else is
      serialised by `dumps`, which stands for compact `json.dumps`. */
  function ConvertValueToStr(value: JsonValue, dumps: Value -> string): string {
    if value.JsonString? then value.s else dumps(value.value)
  }

  /** The service info's annotations: the config's, each value made a string. */
  function ConvertAnnotations(annotations: map<string, JsonValue>, dumps: Value -> string): (r: map<string, string>)
    ensures r.Keys == annotations.Keys
    ensures forall k | k in annotations && annotations[k].JsonString? :: r[k] == annotations[k].s
  {
    map k | k in annotations :: ConvertValueToStr(annotations[k], dumps)
  }

  /** The service info built from the selected entry and the resolved version. */
  function ServiceInfoOf(entry: ServiceEntry, version: string, dumps: Value -> string): (info: Info.ServiceInfo)
    ensures info.versions == [version]
    ensures info.serviceClass == entry.serviceClass && info.displayName == entry.displayName
    ensures info.annotations.Keys == entry.annotations.Keys
  {
    Info.ServiceInfo(entry.serviceClass, entry.descriptionUrl, entry.providedInterfaces,
                     ConvertAnnotations(entry.annotations, dumps), entry.displayName, [version])
  }

  // ---------------------------------------------------------------------------
  // Annotations of configuration parameters

  const TypeSpecializationKey := "ni/type_specialization"
  const EnumValuesKey := "ni/enum.values"
  const PinInstrumentTypeKey := "ni/pin.instrument_type"
  const IOResourceInstrumentTypeKey := "ni/ioresource.instrument_type"

  const EnumTypeRequiredMessage := "enum_type is required for enum parameters."
  const NoZeroValueMessage := "The enum does not have a value for 0."

  /** What kind of enum class an `enum_type` is. */
  datatype EnumKind = ProtobufEnum | PythonEnum | NotAnEnum

  /** An `enum_type`: its kind, its members' names and values in definition
      order, and the class object itself. */
  datatype EnumType = EnumType(kind: EnumKind, members: seq<(string, int)>, handle: Value)

  /** Whether some member has the value 0. */
  predicate HasZeroValue(members: seq<(string, int)>)
    decreases |members|
  {
    members != [] && (members[0].1 == 0 || HasZeroValue(members[1..]))
  }

  /** The name-to-value dict filled member by member. */
  function EnumValues(members: seq<(string, int)>): (d: Dict<string, int>)
    ensures UniqueKeys(d)
    decreases |members|
  {
    if members == [] then [] else Assign(EnumValues(members[..|members| - 1]), members[|members| - 1].0, members[|members| - 1].1)
  }

  /** The enum-values annotation: JSON, by `dumps`, of the members; an enum
      with no member of value 0 is refused; a type that is neither kind of
      enum gives an empty dict. */
  function EnumAnnotation(enumType: EnumType, dumps: Dict<string, int> -> string): Result<string> {
    if enumType.kind == NotAnEnum then Success(dumps([]))
    else if !HasZeroValue(enumType.members) then Failure(ValueError(NoZeroValueMessage))
    else Success(dumps(EnumValues(enumType.members)))
  }

  /** An enum is refused exactly when it has no member of value 0; when its
      member names are distinct, as they are for every enum class, `dumps`
      receives exactly its members in order. */
  lemma EnumAnnotationRules(enumType: EnumType, dumps: Dict<string, int> -> string)
    requires enumType.kind != NotAnEnum
    ensures EnumAnnotation(enumType, dumps).Failure? <==> forall i | 0 <= i < |enumType.members| :: enumType.members[i].1 != 0
    ensures UniqueKeys(enumType.members) ==> EnumValues(enumType.members) == enumType.members
  {
    ZeroValueFound(enumType.members);
    if UniqueKeys(enumType.members) {
      EnumValuesOfDistinctNames(enumType.members);
    }
  }

  lemma {:induction false} ZeroValueFound(members: seq<(string, int)>)
    ensures HasZeroValue(members) <==> exists i | 0 <= i < |members| :: members[i].1 == 0
    decreases |members|
  {
    if members != [] {
      ZeroValueFound(members[1..]);
      if exists i | 0 <= i < |members| :: members[i].1 == 0 {
        var i :| 0 <= i < |members| && members[i].1 == 0;
        if i > 0 {
          assert members[1..][i - 1].1 == 0;
        }
      }
    }
  }

  lemma {:induction false} EnumValuesOfDistinctNames(members: seq<(string, int)>)
    requires UniqueKeys(members)
    ensures EnumValues(members) == members
    decreases |members|
  {
    if members != [] {
      var init := members[..|members| - 1];
      var last := members[|members| - 1];
      DistinctNamesSplit(members);
      assert members == init + [last];
      EnumValuesOfDistinctNames(init);
      AssignNew(init, last.0, last.1);
    }
  }

  lemma DistinctNamesSplit(members: seq<(string, int)>)
    requires UniqueKeys(members) && members != []
    ensures UniqueKeys(members[..|members| - 1])
    ensures members[|members| - 1].0 !in Keys(members[..|members| - 1])
  {
  }

  /** The zero-value test, `0 in enum_type.values()` or
      `any(member.value == 0 for member in enum_type)`, scanning forward. */
  method AnyZeroValue(members: seq<(string, int)>) returns (found: bool)
    ensures found == HasZeroValue(members)
  {
    found := false;
    var i := 0;
    while i < |members|
      invariant 0 <= i <= |members|
      invariant found <==> exists j | 0 <= j < i :: members[j].1 == 0
    {
      found := found || members[i].1 == 0;
      i := i + 1;
    }
    ZeroValueFound(members);
  }

  /** `_enum_to_annotations_value` */
  method EnumToAnnotationsValue(enumType: EnumType, dumps: Dict<string, int> -> string) returns (r: Result<string>)
    ensures r == EnumAnnotation(enumType, dumps)
  {
    var enumValues: Dict<string, int> := [];
    if enumType.kind != NotAnEnum {
      var members := enumType.members;
      var found := AnyZeroValue(members);
      if !found {
        return Failure(ValueError(NoZeroValueMessage));
      }
      var i := 0;
      while i < |members|
        invariant 0 <= i <= |members|
        invariant enumValues == EnumValues(members[..i])
      {
        assert members[..i + 1][..i] == members[..i];
        enumValues := Assign(enumValues, members[i].0, members[i].1);
        i := i + 1;
      }
      assert members[..|members|] == members;
    }
    r := Success(dumps(enumValues));
  }

  /** The annotations `_make_annotations_dict` builds. The instrument type is
      recorded for a pin or an I/O resource whatever its value, since the
      guard around it holds for every string. */
  function Annotations(specialization: Info.TypeSpecialization, instrumentType: string, enumType: Option<EnumType>,
                       dumps: Dict<string, int> -> string): Result<map<string, string>> {
    if specialization == Info.TypeSpecialization.NoType then Success(map[])
    else
      var base := map[TypeSpecializationKey := Info.SpecializationValue(specialization)];
      match specialization
      case Pin => Success(base[PinInstrumentTypeKey := instrumentType])
      case IOResource => Success(base[IOResourceInstrumentTypeKey := instrumentType])
      case Enum =>
        if enumType.None? then Failure(ValueError(EnumTypeRequiredMessage))
        else
          var values := EnumAnnotation(enumType.value, dumps);
          if values.Failure? then Failure(values.error) else Success(base[EnumValuesKey := values.value])
      case _ => Success(base)
  }

  /** The annotation keys a parameter of this specialization gets. */
  function AnnotationKeys(specialization: Info.TypeSpecialization): set<string> {
    match specialization
    case NoType => {}
    case Pin => {TypeSpecializationKey, PinInstrumentTypeKey}
    case IOResource => {TypeSpecializationKey, IOResourceInstrumentTypeKey}
    case Enum => {TypeSpecializationKey, EnumValuesKey}
    case Path => {TypeSpecializationKey}
  }

  /** Only an enum parameter can be refused, and only for a missing or
      zero-less enum type; an accepted parameter gets exactly its
      specialization's keys, the specialization recorded under its key
      (from which it can be read back) and the instrument type verbatim. */
  lemma AnnotationsRules(specialization: Info.TypeSpecialization, instrumentType: string, enumType: Option<EnumType>,
                         dumps: Dict<string, int> -> string, other: Info.TypeSpecialization)
    ensures var r := Annotations(specialization, instrumentType, enumType, dumps);
      && (r.Failure? <==> specialization == Info.TypeSpecialization.Enum && (enumType.None? || EnumAnnotation(enumType.value, dumps).Failure?))
      && (r.Failure? && enumType.None? ==> r.error == ValueError(EnumTypeRequiredMessage))
      && (r.Success? ==> r.value.Keys == AnnotationKeys(specialization))
      && (r.Success? && specialization != Info.TypeSpecialization.NoType ==>
            && r.value[TypeSpecializationKey] == Info.SpecializationValue(specialization)
            && (Info.SpecializationValue(other) == r.value[TypeSpecializationKey] ==> other == specialization))
      && (r.Success? && specialization == Info.TypeSpecialization.Pin ==> r.value[PinInstrumentTypeKey] == instrumentType)
      && (r.Success? && specialization == Info.TypeSpecialization.IOResource ==> r.value[IOResourceInstrumentTypeKey] == instrumentType)
  {
    Info.SpecializationValuesDistinct(other, specialization);
  }

  /** `_make_annotations_dict` */
  method MakeAnnotationsDict(specialization: Info.TypeSpecialization, instrumentType: string, enumType: Option<EnumType>,
                             dumps: Dict<string, int> -> string) returns (r: Result<map<string, string>>)
    ensures r == Annotations(specialization, instrumentType, enumType, dumps)
  {
    var annotations: map<string, string> := map[];
    if specialization == Info.TypeSpecialization.NoType {
      return Success(annotations);
    }
    annotations := annotations[TypeSpecializationKey := Info.SpecializationValue(specialization)];
    if specialization == Info.TypeSpecialization.Pin {
      annotations := annotations[PinInstrumentTypeKey := instrumentType];
    }
    if specialization == Info.TypeSpecialization.IOResource {
      annotations := annotations[IOResourceInstrumentTypeKey := instrumentType];
    }
    if specialization == Info.TypeSpecialization.Enum {
      if enumType.Some? {
        var values := EnumToAnnotationsValue(enumType.value, dumps);
        if values.Failure? {
          return Failure(values.error);
        }
        annotations := annotations[EnumValuesKey := values.value];
      } else {
        return Failure(ValueError(EnumTypeRequiredMessage));
      }
    }
    r := Success(annotations);
  }

  // ---------------------------------------------------------------------------
  // Registration

  /** What the data type table (not part of this model) says about a type. */
  datatype TypeInfo = TypeInfo(grpcFieldType: int, repeated: bool, typeSpecialization: Info.TypeSpecialization, messageType: string)

  /** The data types a configuration parameter cannot have. */
  predicate UnsupportedForConfiguration(t: Info.DataType) {
    t in {Info.DataType.Double2DArray, Info.DataType.DoubleXYData, Info.DataType.DoubleXYDataArray1D, Info.DataType.String2DArray}
  }

  /** The `ValueError` message for a refused type: `str` of a `DataType`
      member is "DataType." and its name. */
  function UnsupportedTypeMessage(t: Info.DataType): string
    requires UnsupportedForConfiguration(t)
  {
    var name := match t
      case Double2DArray => "Double2DArray"
      case DoubleXYData => "DoubleXYData"
      case DoubleXYDataArray1D => "DoubleXYDataArray1D"
      case String2DArray => "String2DArray";
    "DataType." + name + " is not supported for configuration parameters."
  }

  const NotRegisteredMessage := "Measurement method not registered. Use the register_measurement decorator to register it."

  /** `_raise_measurement_method_not_registered`, which `__init__` stores as
      the measurement function: it takes no parameters and raises when called. */
  const NotRegisteredFunction: Servicer.MeasureFunction :=
    Servicer.MeasureFunction([], _ => Servicer.RoutineOutput([], Some(RuntimeError(NotRegisteredMessage))))

  /** A service hosting the sentinel binds no arguments, under either binder,
      and every Measure call ends with the not-registered RuntimeError. */
  lemma NotRegisteredFunctionRaises(rule: Servicer.Rule, mappingById: map<int, Value>)
    ensures Servicer.OrdinalsDecoded(rule, NotRegisteredFunction.signature, mappingById)
    ensures NotRegisteredFunction.run(Servicer.Bindings(rule, NotRegisteredFunction.signature, mappingById))
      == Servicer.RoutineOutput([], Some(RuntimeError(NotRegisteredMessage)))
  {
  }
  const AlreadyRunningMessage := "Measurement service already running."

  /** What `listen` hands to the gRPC service it starts. */
  datatype HostedService = HostedService(
    port: Option<int>,
    measurementInfo: Info.MeasurementInfo,
    serviceInfo: Info.ServiceInfo,
    configurationParameters: seq<Servicer.ParameterMetadata>,
    inputParameters: Dict<string, string>,
    outputParameters: Dict<string, string>,
    measureFunction: Servicer.MeasureFunction)

  /** The hosting state: the running service and the cached clients, and
      what was stopped or closed so far. */
  datatype Lifecycle = Lifecycle(
    grpcService: Option<HostedService>,
    channelPool: bool,
    discoveryClient: bool,
    sessionManagementClient: bool,
    stoppedServices: seq<HostedService>,
    closedPools: nat)

  /** The hosting state after `close_service`. */
  function AfterCloseService(s: Lifecycle): Lifecycle {
    Lifecycle(None, false, false, s.sessionManagementClient,
              s.stoppedServices + (if s.grpcService.Some? then [s.grpcService.value] else []),
              s.closedPools + (if s.channelPool then 1 else 0))
  }

  /** `close_service` stops at most what is running, clears the service, the
      pool and the discovery client, keeps the session management client, and
      a second call does nothing more. */
  lemma CloseServiceIsIdempotent(s: Lifecycle)
    ensures AfterCloseService(AfterCloseService(s)) == AfterCloseService(s)
    ensures var t := AfterCloseService(s);
      && t.grpcService.None? && !t.channelPool && !t.discoveryClient
      && t.sessionManagementClient == s.sessionManagementClient
      && |t.stoppedServices| == |s.stoppedServices| + (if s.grpcService.Some? then 1 else 0)
  {
  }

  class MeasurementService {
    const measurementInfo: Info.MeasurementInfo
    const serviceInfo: Info.ServiceInfo
    var configurationParameters: seq<Servicer.ParameterMetadata>
    var inputParameters: Dict<string, string>
    var outputParameters: Dict<string, string>
    /** The registered measurement function; None until one is registered. */
    var measureFunction: Option<Servicer.MeasureFunction>
    var grpcService: Option<HostedService>
    /** Whether a channel pool, discovery client or session management client is cached. */
    var channelPool: bool
    var discoveryClient: bool
    var sessionManagementClient: bool
    /** The services stopped and the number of pools closed so far. */
    var stoppedServices: seq<HostedService>
    var closedPools: nat

    /** Both parameter dicts hold each name once; a discovery client never
        outlives its channel pool, and a running service has its client. */
    ghost predicate Valid()
      reads this
    {
      && UniqueKeys(inputParameters) && UniqueKeys(outputParameters)
      && (discoveryClient ==> channelPool)
      && (grpcService.Some? ==> discoveryClient)
    }

    ghost function State(): Lifecycle
      reads this
    {
      Lifecycle(grpcService, channelPool, discoveryClient, sessionManagementClient, stoppedServices, closedPools)
    }

    /** The fields `__init__` sets once the config is read: nothing is
        registered, running or cached yet. */
    constructor(measurementInfo: Info.MeasurementInfo, serviceInfo: Info.ServiceInfo)
      ensures Valid()
      ensures this.measurementInfo == measurementInfo && this.serviceInfo == serviceInfo
      ensures configurationParameters == [] && inputParameters == [] && outputParameters == []
      ensures measureFunction.None?
      ensures State() == Lifecycle(None, false, false, false, [], 0)
    {
      this.measurementInfo := measurementInfo;
      this.serviceInfo := serviceInfo;
      configurationParameters := [];
      inputParameters := [];
      outputParameters := [];
      measureFunction := None;
      grpcService := None;
      channelPool := false;
      discoveryClient := false;
      sessionManagementClient := false;
      stoppedServices := [];
      closedPools := 0;
    }

    /** `register_measurement`: the decorator records the function and
        returns it unchanged. */
    method RegisterMeasurement(f: Servicer.MeasureFunction) returns (g: Servicer.MeasureFunction)
      requires Valid()
      modifies this
      ensures Valid() && g == f && measureFunction == Some(f)
      ensures configurationParameters == old(configurationParameters)
      ensures inputParameters == old(inputParameters) && outputParameters == old(outputParameters)
      ensures State() == old(State())
    {
      measureFunction := Some(f);
      g := f;
    }

    /** `configuration`: appends one parameter, or refuses the type or its
        annotations and leaves the list as it was. The decorator it returns
        is the identity, so only whether it was returned is modelled;
        `typeInfo` is the data type table. */
    method Configuration(displayName: string, dataType: Info.DataType, defaultValue: Value, instrumentType: string,
                         enumType: Option<EnumType>, typeInfo: Info.DataType -> TypeInfo,
                         dumps: Dict<string, int> -> string)
      returns (r: Result<()>, deprecationWarned: bool)
      requires Valid()
      modifies this
      ensures Valid()
      ensures deprecationWarned <==> dataType == Info.DataType.Pin || dataType == Info.DataType.PinArray1D
      ensures inputParameters == old(inputParameters) && outputParameters == old(outputParameters)
      ensures measureFunction == old(measureFunction) && State() == old(State())
      ensures UnsupportedForConfiguration(dataType) ==>
        && r == Failure(ValueError(UnsupportedTypeMessage(dataType)))
        && configurationParameters == old(configurationParameters)
      ensures !UnsupportedForConfiguration(dataType) ==>
        var info := typeInfo(dataType);
        var annotations := Annotations(info.typeSpecialization, instrumentType, enumType, dumps);
        && (annotations.Failure? ==> r == Failure(annotations.error) && configurationParameters == old(configurationParameters))
        && (annotations.Success? ==> r.Success? && configurationParameters == old(configurationParameters) + [
              Servicer.ParameterMetadata(displayName, info.grpcFieldType, info.repeated, defaultValue,
                                         annotations.value, info.messageType,
                                         if enumType.Some? then Some(enumType.value.handle) else None)])
    {
      deprecationWarned := dataType == Info.DataType.Pin || dataType == Info.DataType.PinArray1D;
      if UnsupportedForConfiguration(dataType) {
        return Failure(ValueError(UnsupportedTypeMessage(dataType))), deprecationWarned;
      }
      var info := typeInfo(dataType);
      var annotations := MakeAnnotationsDict(info.typeSpecialization, instrumentType, enumType, dumps);
      if annotations.Failure? {
        return Failure(annotations.error), deprecationWarned;
      }
      var parameter := Servicer.ParameterMetadata(displayName, info.grpcFieldType, info.repeated, defaultValue,
                                                  annotations.value, info.messageType,
                                                  if enumType.Some? then Some(enumType.value.handle) else None);
      configurationParameters := configurationParameters + [parameter];
      r := Success(());
    }

    /** `input`: records the moniker's type URL under the name; a name
        registered again keeps its place and takes the new URL. */
    method Input(displayName: string, monikerType: Info.MonikerType)
      requires Valid()
      modifies this
      ensures Valid()
      ensures inputParameters == Assign(old(inputParameters), displayName, Info.ToUrl(monikerType))
      ensures forall name :: Get(inputParameters, name) ==
                             if name == displayName then Some(Info.ToUrl(monikerType)) else Get(old(inputParameters), name)
      ensures configurationParameters == old(configurationParameters) && outputParameters == old(outputParameters)
      ensures measureFunction == old(measureFunction) && State() == old(State())
    {
      forall name
        ensures Get(Assign(inputParameters, displayName, Info.ToUrl(monikerType)), name) ==
          if name == displayName then Some(Info.ToUrl(monikerType)) else Get(inputParameters, name)
      {
        AssignGet(inputParameters, displayName, Info.ToUrl(monikerType), name);
      }
      inputParameters := Assign(inputParameters, displayName, Info.ToUrl(monikerType));
    }

    /** `output`: as `input`, for the outputs. */
    method Output(displayName: string, monikerType: Info.MonikerType)
      requires Valid()
      modifies this
      ensures Valid()
      ensures outputParameters == Assign(old(outputParameters), displayName, Info.ToUrl(monikerType))
      ensures forall name :: Get(outputParameters, name) ==
                             if name == displayName then Some(Info.ToUrl(monikerType)) else Get(old(outputParameters), name)
      ensures configurationParameters == old(configurationParameters) && inputParameters == old(inputParameters)
      ensures measureFunction == old(measureFunction) && State() == old(State())
    {
      forall name
        ensures Get(Assign(outputParameters, displayName, Info.ToUrl(monikerType)), name) ==
          if name == displayName then Some(Info.ToUrl(monikerType)) else Get(outputParameters, name)
      {
        AssignGet(outputParameters, displayName, Info.ToUrl(monikerType), name);
      }
      outputParameters := Assign(outputParameters, displayName, Info.ToUrl(monikerType));
    }

    /** The `channel_pool` property: created on first use. */
    method ChannelPool()
      requires Valid()
      modifies this
      ensures Valid() && channelPool
      ensures State() == old(State()).(channelPool := true)
      ensures configurationParameters == old(configurationParameters) && measureFunction == old(measureFunction)
      ensures inputParameters == old(inputParameters) && outputParameters == old(outputParameters)
    {
      if !channelPool {
        channelPool := true;
      }
    }

    /** The `discovery_client` property: created on first use, over the pool. */
    method DiscoveryClient()
      requires Valid()
      modifies this
      ensures Valid() && channelPool && discoveryClient
      ensures State() == old(State()).(channelPool := true, discoveryClient := true)
      ensures configurationParameters == old(configurationParameters) && measureFunction == old(measureFunction)
      ensures inputParameters == old(inputParameters) && outputParameters == old(outputParameters)
    {
      if !discoveryClient {
        ChannelPool();
        discoveryClient := true;
      }
    }

    /** The `session_management_client` property: created on first use, over
        the discovery client and the pool. */
    method SessionManagementClient()
      requires Valid()
      modifies this
      ensures Valid() && sessionManagementClient
      ensures old(sessionManagementClient) ==> State() == old(State())
      ensures !old(sessionManagementClient) ==>
        State() == old(State()).(channelPool := true, discoveryClient := true, sessionManagementClient := true)
      ensures configurationParameters == old(configurationParameters) && measureFunction == old(measureFunction)
      ensures inputParameters == old(inputParameters) && outputParameters == old(outputParameters)
    {
      if !sessionManagementClient {
        DiscoveryClient();
        ChannelPool();
        sessionManagementClient := true;
      }
    }

    /** `listen`: refuses when no function is registered or a service is
        already running; otherwise it records the new service and starts it
        with everything registered so far. `startError` is what starting the
        service raised, if anything: the service stays recorded then. */
    method Listen(port: Option<int>, startError: Option<Exception>) returns (r: Result<()>)
      requires Valid()
      modifies this
      ensures Valid()
      ensures configurationParameters == old(configurationParameters) && measureFunction == old(measureFunction)
      ensures inputParameters == old(inputParameters) && outputParameters == old(outputParameters)
      ensures old(measureFunction).None? ==> r == Failure(RuntimeError(NotRegisteredMessage)) && State() == old(State())
      ensures old(measureFunction).Some? && old(grpcService).Some? ==>
        r == Failure(RuntimeError(AlreadyRunningMessage)) && State() == old(State())
      ensures old(measureFunction).Some? && old(grpcService).None? ==>
        && r == (if startError.Some? then Failure(startError.value) else Success(()))
        && State() == old(State()).(
             grpcService := Some(HostedService(port, measurementInfo, serviceInfo, configurationParameters,
                                               inputParameters, outputParameters, measureFunction.value)),
             channelPool := true, discoveryClient := true)
    {
      if measureFunction.None? {
        return Failure(RuntimeError(NotRegisteredMessage));
      }
      if grpcService.Some? {
        return Failure(RuntimeError(AlreadyRunningMessage));
      }
      DiscoveryClient();
      grpcService := Some(HostedService(port, measurementInfo, serviceInfo, configurationParameters,
                                        inputParameters, outputParameters, measureFunction.value));
      if startError.Some? {
        return Failure(startError.value);
      }
      r := Success(());
    }

    /** What `self._measure_function` holds: the registered function, or the
        not-registered sentinel. */
    ghost function StoredFunction(): Servicer.MeasureFunction
      reads this
    {
      if measureFunction.Some? then measureFunction.value else NotRegisteredFunction
    }

    /** `listen` as written. Its registration test compares the stored bound
        method with the one the attribute access builds afresh; two distinct
        bound-method objects are never `is`-identical, so the test never fires
        and, with nothing registered, the service is started hosting the
        sentinel. Only a running service is refused. */
    method ListenAsWritten(port: Option<int>, startError: Option<Exception>) returns (r: Result<()>)
      requires Valid()
      modifies this
      ensures Valid()
      ensures configurationParameters == old(configurationParameters) && measureFunction == old(measureFunction)
      ensures inputParameters == old(inputParameters) && outputParameters == old(outputParameters)
      ensures old(grpcService).Some? ==> r == Failure(RuntimeError(AlreadyRunningMessage)) && State() == old(State())
      ensures old(grpcService).None? ==>
        && r == (if startError.Some? then Failure(startError.value) else Success(()))
        && State() == old(State()).(
             grpcService := Some(HostedService(port, measurementInfo, serviceInfo, configurationParameters,
                                               inputParameters, outputParameters, old(StoredFunction()))),
             channelPool := true, discoveryClient := true)
    {
      if grpcService.Some? {
        return Failure(RuntimeError(AlreadyRunningMessage));
      }
      DiscoveryClient();
      var hosted := if measureFunction.Some? then measureFunction.value else NotRegisteredFunction;
      grpcService := Some(HostedService(port, measurementInfo, serviceInfo, configurationParameters,
                                        inputParameters, outputParameters, hosted));
      if startError.Some? {
        return Failure(startError.value);
      }
      r := Success(());
    }

    /** `close_service` */
    method CloseService()
      requires Valid()
      modifies this
      ensures Valid()
      ensures State() == AfterCloseService(old(State()))
      ensures configurationParameters == old(configurationParameters) && measureFunction == old(measureFunction)
      ensures inputParameters == old(inputParameters) && outputParameters == old(outputParameters)
    {
      if grpcService.Some? {
        stoppedServices := stoppedServices + [grpcService.value];
      }
      if channelPool {
        closedPools := closedPools + 1;
      }
      grpcService := None;
      channelPool := false;
      discoveryClient := false;
    }

    /** `__exit__`: closes the service and never suppresses the exception. */
    method Exit() returns (suppress: bool)
      requires Valid()
      modifies this
      ensures Valid() && !suppress
      ensures State() == AfterCloseService(old(State()))
      ensures configurationParameters == old(configurationParameters) && measureFunction == old(measureFunction)
      ensures inputParameters == old(inputParameters) && outputParameters == old(outputParameters)
    {
      CloseService();
      suppress := false;
    }
  }

  /** `MeasurementService.__init__` on an already-parsed config: selects the
      entry, resolves the version and builds the two info records. */
  method NewMeasurementService(services: seq<ServiceEntry>, version: string, uiFilePaths: seq<string>,
                               serviceClass: Option<string>, configFile: string, dumps: Value -> string)
    returns (r: Result<MeasurementService>, deprecationWarned: bool)
    ensures deprecationWarned <==> SelectService(services, serviceClass, configFile).Success? && version != ""
    ensures SelectService(services, serviceClass, configFile).Failure? ==>
      r == Failure(SelectService(services, serviceClass, configFile).error)
    ensures SelectService(services, serviceClass, configFile).Success? ==>
      var entry := SelectService(services, serviceClass, configFile).value;
      && (r.Failure? <==> version != "" && entry.version.Some? && version != entry.version.value)
      && (r.Success? ==>
            var resolved := if entry.version.Some? then entry.version.value else "";
            && fresh(r.value) && r.value.Valid()
            && r.value.measurementInfo == Info.MeasurementInfo(entry.displayName, resolved, uiFilePaths)
            && r.value.serviceInfo == ServiceInfoOf(entry, resolved, dumps)
            && r.value.configurationParameters == [] && r.value.inputParameters == [] && r.value.outputParameters == []
            && r.value.measureFunction.None?
            && r.value.State() == Lifecycle(None, false, false, false, [], 0))
  {
    var selected := SelectService(services, serviceClass, configFile);
    if selected.Failure? {
      return Failure(selected.error), false;
    }
    var entry := selected.value;
    var resolved;
    resolved, deprecationWarned := ResolveVersion(version, entry.version);
    if resolved.Failure? {
      return Failure(resolved.error), deprecationWarned;
    }
    var measurementInfo := Info.MeasurementInfo(entry.displayName, resolved.value, uiFilePaths);
    var service := new MeasurementService(measurementInfo, ServiceInfoOf(entry, resolved.value, dumps));
    r := Success(service);
  }

  /** With nothing registered, `listen` as written starts a service that hosts
      the sentinel, where the intended `listen` refuses with the not-registered
      RuntimeError and starts nothing. */
  method UnregisteredListenStartsAsWritten(service: MeasurementService, port: Option<int>)
    returns (asWritten: Result<()>, intended: Result<()>)
    requires service.Valid() && service.measureFunction.None? && service.grpcService.None?
    modifies service
    ensures asWritten.Success?
    ensures intended == Failure(RuntimeError(NotRegisteredMessage))
    ensures service.grpcService.Some? && service.grpcService.value.measureFunction == NotRegisteredFunction
  {
    intended := service.Listen(port, None);
    asWritten := service.ListenAsWritten(port, None);
  }

  /** After `close_service` the service can be hosted again. */
  method ListenAgainAfterClose(service: MeasurementService, port: Option<int>) returns (r: Result<()>)
    requires service.Valid() && service.measureFunction.Some?
    modifies service
    ensures service.Valid() && r.Success? && service.grpcService.Some?
    ensures service.grpcService.value.measureFunction == old(service.measureFunction.value)
  {
    service.CloseService();
    r := service.Listen(port, None);
  }

  // ---------------------------------------------------------------------------
  // Session reservation

  /** The pins or relays of a reservation: one name, or a list of names. */
  datatype PinOrRelayNames = OneName(name: string) | ManyNames(names: seq<string>)

  /** Python's `not pin_or_relay_names`. */
  predicate IsEmpty(names: PinOrRelayNames) {
    match names
    case OneName(name) => name == ""
    case ManyNames(list) => list == []
  }

  const NoPinOrRelayMessage := "You must specify at least one pin or relay name."

  /** `MeasurementContext.reserve_session` and `reserve_sessions`: an empty
      name or list is refused before the session management service, given
      as `reserve`, is called. */
  function ReserveSessions(names: PinOrRelayNames, reserve: PinOrRelayNames -> Result<Value>): (r: Result<Value>)
    ensures IsEmpty(names) ==> r == Failure(ValueError(NoPinOrRelayMessage))
    ensures !IsEmpty(names) ==> r == reserve(names)
  {
    if IsEmpty(names) then Failure(ValueError(NoPinOrRelayMessage)) else reserve(names)
  }
}
