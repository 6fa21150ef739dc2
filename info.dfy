/** Measurement service metadata records and enums: the type tables of the
    measurement plug-in service. */
module Info {
  import opened Runtime

  /** Information about a measurement. */
  datatype MeasurementInfo = MeasurementInfo(displayName: string, version: string, uiFilePaths: seq<string>)

  /** Information about a registered service, as used with the discovery service. */
  datatype ServiceInfo = ServiceInfo(
    serviceClass: string,
    descriptionUrl: string,
    providedInterfaces: seq<string>,
    annotations: map<string, string>,
    displayName: string,
    versions: seq<string>)

  const MeasurementServiceV1Interface := "ni.measurementlink.measurement.v1.MeasurementService"

  /** `ServiceInfo(service_class, description_url)`: every other field takes its default. */
  function DefaultServiceInfo(serviceClass: string, descriptionUrl: string): (info: ServiceInfo)
    ensures info.serviceClass == serviceClass && info.descriptionUrl == descriptionUrl
    ensures info.providedInterfaces == ["ni.measurementlink.measurement.v1.MeasurementService"]
    ensures info.annotations == map[] && info.displayName == "" && info.versions == []
  {
    ServiceInfo(serviceClass, descriptionUrl, [MeasurementServiceV1Interface], map[], "", [])
  }

  /** The discovery service's ServiceDescriptor message. */
  datatype ServiceDescriptor = ServiceDescriptor(
    displayName: string,
    descriptionUrl: string,
    providedInterfaces: seq<string>,
    serviceClass: string,
    annotations: map<string, string>,
    versions: seq<string>)

  /** `ServiceInfo._from_grpc`: builds a ServiceInfo from a descriptor message. */
  function FromGrpc(other: ServiceDescriptor): (info: ServiceInfo)
  {
    ServiceInfo(other.serviceClass, other.descriptionUrl, other.providedInterfaces,
                other.annotations, other.displayName, other.versions)
  }

  /** `_from_grpc` copies every one of the six fields: the descriptor can be
      read back from the ServiceInfo, so distinct descriptors give distinct infos. */
  lemma FromGrpcCopiesAllFields(other: ServiceDescriptor)
    ensures var info := FromGrpc(other);
      ServiceDescriptor(info.displayName, info.descriptionUrl, info.providedInterfaces,
                        info.serviceClass, info.annotations, info.versions) == other
  {
  }

  /** The type specializations of measurement parameters. */
  datatype TypeSpecialization = NoType | Pin | Path | Enum | IOResource

  /** `TypeSpecialization.value` */
  function SpecializationValue(t: TypeSpecialization): (v: string)
    ensures v == "" <==> t == NoType
  {
    match t
    case NoType => ""
    case Pin => "pin"
    case Path => "path"
    case Enum => "enum"
    case IOResource => "ioresource"
  }

  /** No two specializations share a value. */
  lemma SpecializationValuesDistinct(a: TypeSpecialization, b: TypeSpecialization)
    ensures SpecializationValue(a) == SpecializationValue(b) ==> a == b
  {
  }

  /** The supported data types. */
  datatype DataType =
    | Int32 | Int64 | UInt32 | UInt64 | Float | Double | Boolean | String
    | Pin | Path | Enum | DoubleXYData | IOResource | Double2DArray | String2DArray
    | Int32Array1D | Int64Array1D | UInt32Array1D | UInt64Array1D | FloatArray1D
    | DoubleArray1D | BooleanArray1D | StringArray1D | PinArray1D | PathArray1D
    | EnumArray1D | DoubleXYDataArray1D | IOResourceArray1D

  /** `DataType.value` */
  function DataTypeValue(t: DataType): (v: int)
    ensures 0 <= v <= 14 || 100 <= v <= 112
  {
    match t
    case Int32 => 0
    case Int64 => 1
    case UInt32 => 2
    case UInt64 => 3
    case Float => 4
    case Double => 5
    case Boolean => 6
    case String => 7
    case Pin => 8
    case Path => 9
    case Enum => 10
    case DoubleXYData => 11
    case IOResource => 12
    case Double2DArray => 13
    case String2DArray => 14
    case Int32Array1D => 100
    case Int64Array1D => 101
    case UInt32Array1D => 102
    case UInt64Array1D => 103
    case FloatArray1D => 104
    case DoubleArray1D => 105
    case BooleanArray1D => 106
    case StringArray1D => 107
    case PinArray1D => 108
    case PathArray1D => 109
    case EnumArray1D => 110
    case DoubleXYDataArray1D => 111
    case IOResourceArray1D => 112
  }

  /** `DataType(v)`: the member with value `v`, if any. */
  function DataTypeFromValue(v: int): (t: Option<DataType>)
    ensures t.Some? ==> DataTypeValue(t.value) == v
    ensures t.None? <==> !(0 <= v <= 14 || 100 <= v <= 112)
  {
    if v == 0 then Some(DataType.Int32) else if v == 1 then Some(DataType.Int64)
    else if v == 2 then Some(DataType.UInt32) else if v == 3 then Some(DataType.UInt64)
    else if v == 4 then Some(DataType.Float) else if v == 5 then Some(DataType.Double)
    else if v == 6 then Some(DataType.Boolean) else if v == 7 then Some(DataType.String)
    else if v == 8 then Some(DataType.Pin) else if v == 9 then Some(DataType.Path)
    else if v == 10 then Some(DataType.Enum) else if v == 11 then Some(DataType.DoubleXYData)
    else if v == 12 then Some(DataType.IOResource) else if v == 13 then Some(DataType.Double2DArray)
    else if v == 14 then Some(DataType.String2DArray)
    else if v == 100 then Some(DataType.Int32Array1D) else if v == 101 then Some(DataType.Int64Array1D)
    else if v == 102 then Some(DataType.UInt32Array1D) else if v == 103 then Some(DataType.UInt64Array1D)
    else if v == 104 then Some(DataType.FloatArray1D) else if v == 105 then Some(DataType.DoubleArray1D)
    else if v == 106 then Some(DataType.BooleanArray1D) else if v == 107 then Some(DataType.StringArray1D)
    else if v == 108 then Some(DataType.PinArray1D) else if v == 109 then Some(DataType.PathArray1D)
    else if v == 110 then Some(DataType.EnumArray1D) else if v == 111 then Some(DataType.DoubleXYDataArray1D)
    else if v == 112 then Some(DataType.IOResourceArray1D)
    else None
  }

  /** Looking a member up by its value gives it back, so no two members share a value. */
  lemma DataTypeValuesDistinct(a: DataType, b: DataType)
    ensures DataTypeFromValue(DataTypeValue(a)) == Some(a)
    ensures DataTypeValue(a) == DataTypeValue(b) ==> a == b
  {
  }

  /** The element type of a one-dimensional array type, by the members' names. */
  function ElementType(t: DataType): Option<DataType>
  {
    match t
    case Int32Array1D => Some(DataType.Int32)
    case Int64Array1D => Some(DataType.Int64)
    case UInt32Array1D => Some(DataType.UInt32)
    case UInt64Array1D => Some(DataType.UInt64)
    case FloatArray1D => Some(DataType.Float)
    case DoubleArray1D => Some(DataType.Double)
    case BooleanArray1D => Some(DataType.Boolean)
    case StringArray1D => Some(DataType.String)
    case PinArray1D => Some(DataType.Pin)
    case PathArray1D => Some(DataType.Path)
    case EnumArray1D => Some(DataType.Enum)
    case DoubleXYDataArray1D => Some(DataType.DoubleXYData)
    case IOResourceArray1D => Some(DataType.IOResource)
    case _ => None
  }

  /** The one-dimensional array type of a scalar type, by the members' names. */
  function ArrayType(t: DataType): Option<DataType>
  {
    match t
    case Int32 => Some(DataType.Int32Array1D)
    case Int64 => Some(DataType.Int64Array1D)
    case UInt32 => Some(DataType.UInt32Array1D)
    case UInt64 => Some(DataType.UInt64Array1D)
    case Float => Some(DataType.FloatArray1D)
    case Double => Some(DataType.DoubleArray1D)
    case Boolean => Some(DataType.BooleanArray1D)
    case String => Some(DataType.StringArray1D)
    case Pin => Some(DataType.PinArray1D)
    case Path => Some(DataType.PathArray1D)
    case Enum => Some(DataType.EnumArray1D)
    case DoubleXYData => Some(DataType.DoubleXYDataArray1D)
    case IOResource => Some(DataType.IOResourceArray1D)
    case _ => None
  }

  /** Exactly the scalar codes 0 to 12 have a one-dimensional array type,
      numbered 100 above them, whose element type is the scalar again; the
      two 2-D array types, 13 and 14, have none. */
  lemma Array1DLayout(t: DataType)
    ensures ArrayType(t).Some? <==> 0 <= DataTypeValue(t) <= 12
    ensures ArrayType(t).Some? ==>
      && DataTypeValue(ArrayType(t).value) == DataTypeValue(t) + 100
      && ElementType(ArrayType(t).value) == Some(t)
  {
    match t
    case Int32 =>
    case Int64 =>
    case UInt32 =>
    case UInt64 =>
    case Float =>
    case Double =>
    case Boolean =>
    case String =>
    case Pin =>
    case Path =>
    case Enum =>
    case DoubleXYData =>
    case IOResource =>
    case Double2DArray =>
    case String2DArray =>
    case Int32Array1D =>
    case Int64Array1D =>
    case UInt32Array1D =>
    case UInt64Array1D =>
    case FloatArray1D =>
    case DoubleArray1D =>
    case BooleanArray1D =>
    case StringArray1D =>
    case PinArray1D =>
    case PathArray1D =>
    case EnumArray1D =>
    case DoubleXYDataArray1D =>
    case IOResourceArray1D =>
  }

  /** Exactly the codes from 100 up are array types, and each is the array
      type of its element type. */
  lemma ElementTypeLayout(t: DataType)
    ensures ElementType(t).Some? <==> DataTypeValue(t) >= 100
    ensures ElementType(t).Some? ==> ArrayType(ElementType(t).value) == Some(t)
  {
    match t
    case Int32 =>
    case Int64 =>
    case UInt32 =>
    case UInt64 =>
    case Float =>
    case Double =>
    case Boolean =>
    case String =>
    case Pin =>
    case Path =>
    case Enum =>
    case DoubleXYData =>
    case IOResource =>
    case Double2DArray =>
    case String2DArray =>
    case Int32Array1D =>
    case Int64Array1D =>
    case UInt32Array1D =>
    case UInt64Array1D =>
    case FloatArray1D =>
    case DoubleArray1D =>
    case BooleanArray1D =>
    case StringArray1D =>
    case PinArray1D =>
    case PathArray1D =>
    case EnumArray1D =>
    case DoubleXYDataArray1D =>
    case IOResourceArray1D =>
  }

  /** The moniker types of measurement inputs and outputs. */
  datatype MonikerType = ScalarData | ScalarArray | String2DArray | Double2DArray | DoubleXYData | DoubleAnalogWaveform

  const TypeUrlPrefix := "type.googleapis.com/"
  const MeasurementsDataPackage := "ni.measurements.data.v1."
  const ProtobufTypesPackage := "ni.protobuf.types."

  predicate StartsWith(s: string, prefix: string) {
    |prefix| <= |s| && s[..|prefix|] == prefix
  }

  /** The message each moniker type's URL names. */
  function MessageName(m: MonikerType): string {
    match m
    case ScalarData => "ScalarData"
    case ScalarArray => "ScalarArray"
    case String2DArray => "String2DArray"
    case Double2DArray => "Double2DArray"
    case DoubleXYData => "DoubleXYData"
    case DoubleAnalogWaveform => "DoubleAnalogWaveform"
  }

  /** The package of that message. */
  function UrlPackage(m: MonikerType): string {
    if m in {ScalarData, ScalarArray} then MeasurementsDataPackage else ProtobufTypesPackage
  }

  /** `MonikerType.to_url`: defined for all six members, so the `ValueError`
      branch cannot be reached. Each URL is spelled as its three parts, which
      concatenate to the literal the source returns (for ScalarData,
      "type.googleapis.com/ni.measurements.data.v1.ScalarData"). */
  function ToUrl(m: MonikerType): (url: string)
  {
    match m
    case ScalarData => TypeUrlPrefix + MeasurementsDataPackage + "ScalarData"
    case ScalarArray => TypeUrlPrefix + MeasurementsDataPackage + "ScalarArray"
    case String2DArray => TypeUrlPrefix + ProtobufTypesPackage + "String2DArray"
    case Double2DArray => TypeUrlPrefix + ProtobufTypesPackage + "Double2DArray"
    case DoubleXYData => TypeUrlPrefix + ProtobufTypesPackage + "DoubleXYData"
    case DoubleAnalogWaveform => TypeUrlPrefix + ProtobufTypesPackage + "DoubleAnalogWaveform"
  }

  lemma PrefixOfConcat(a: string, b: string)
    ensures StartsWith(a + b, a)
  {
    assert (a + b)[..|a|] == a;
  }

  /** Every URL is a type URL; ScalarData and ScalarArray name messages of the
      measurement data package, the other four messages of the protobuf types
      package, and the two packages exclude each other. */
  lemma ToUrlLayout(m: MonikerType)
    ensures StartsWith(ToUrl(m), TypeUrlPrefix)
    ensures StartsWith(ToUrl(m)[|TypeUrlPrefix|..], MeasurementsDataPackage) <==> m in {ScalarData, ScalarArray}
    ensures StartsWith(ToUrl(m)[|TypeUrlPrefix|..], ProtobufTypesPackage) <==> m !in {ScalarData, ScalarArray}
  {
    var other := if m in {ScalarData, ScalarArray} then ProtobufTypesPackage else MeasurementsDataPackage;
    assert ToUrl(m) == TypeUrlPrefix + (UrlPackage(m) + MessageName(m));
    UrlParts(ToUrl(m), UrlPackage(m), MessageName(m), other);
  }

  lemma UrlParts(url: string, package: string, name: string, other: string)
    requires url == TypeUrlPrefix + (package + name)
    requires |package| > 3 && |other| > 3 && package[3] != other[3]
    ensures StartsWith(url, TypeUrlPrefix)
    ensures StartsWith(url[|TypeUrlPrefix|..], package)
    ensures !StartsWith(url[|TypeUrlPrefix|..], other)
  {
    var rest := package + name;
    PrefixOfConcat(TypeUrlPrefix, rest);
    assert url[|TypeUrlPrefix|..] == rest;
    PrefixOfConcat(package, name);
  }

  /** The six URLs are pairwise distinct. */
  lemma ToUrlInjective(a: MonikerType, b: MonikerType)
    ensures ToUrl(a) == ToUrl(b) ==> a == b
  {
    if ToUrl(a) == ToUrl(b) {
      var pa, pb := UrlPackage(a), UrlPackage(b);
      assert ToUrl(a) == TypeUrlPrefix + pa + MessageName(a);
      assert ToUrl(b) == TypeUrlPrefix + pb + MessageName(b);
      assert ToUrl(a)[|TypeUrlPrefix| + 3] == pa[3];
      assert ToUrl(b)[|TypeUrlPrefix| + 3] == pb[3];
      assert pa == pb;
      assert MessageName(a) == ToUrl(a)[|TypeUrlPrefix| + |pa|..];
      assert MessageName(b) == ToUrl(b)[|TypeUrlPrefix| + |pb|..];
    }
  }
}
