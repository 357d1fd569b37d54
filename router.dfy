/** `RouterClient`: the list of devices connected to a Synology router, and
    the decoding of one device record. */
module Router {
  import opened Outcomes
  import opened Text
  import opened Json
  import opened Query
  import opened Protocol

  const DeviceApi: string := "SYNO.Core.Network.NSM.Device"
  const DevicesFailed: string := "Unable to retrieve connected devices"

  /** `Model.Device`: every property is nullable, and null is `None`. */
  datatype Device = Device(
    band: Option<string>,
    connection: Option<string>,
    currentRate: Option<Int32>,
    deviceType: Option<string>,
    hostName: Option<string>,
    ip4: Option<string>,
    ip6: Option<string>,
    isBanned: Option<bool>,
    isBeamformingOn: Option<bool>,
    isGuest: Option<bool>,
    isHighQos: Option<bool>,
    isLowQos: Option<bool>,
    isManualDeviceType: Option<bool>,
    isManualHostName: Option<bool>,
    isOnline: Option<bool>,
    isQos: Option<bool>,
    isWireless: Option<bool>,
    mac: Option<string>,
    maxRate: Option<Int32>,
    meshNodeId: Option<Int32>,
    rateQuality: Option<string>,
    signalStrength: Option<Int32>,
    transferRxRate: Option<Int32>,
    transferTxRate: Option<Int32>)
  {
    /** The value of one property, tagged with its kind. */
    function Get(f: Field): Option<Scalar> {
      match f
      case Band => Txt(band)
      case Connection => Txt(connection)
      case CurrentRate => Num(currentRate)
      case DeviceType => Txt(deviceType)
      case HostName => Txt(hostName)
      case Ip4 => Txt(ip4)
      case Ip6 => Txt(ip6)
      case IsBanned => Flag(isBanned)
      case IsBeamformingOn => Flag(isBeamformingOn)
      case IsGuest => Flag(isGuest)
      case IsHighQos => Flag(isHighQos)
      case IsLowQos => Flag(isLowQos)
      case IsManualDeviceType => Flag(isManualDeviceType)
      case IsManualHostName => Flag(isManualHostName)
      case IsOnline => Flag(isOnline)
      case IsQos => Flag(isQos)
      case IsWireless => Flag(isWireless)
      case Mac => Txt(mac)
      case MaxRate => Num(maxRate)
      case MeshNodeId => Num(meshNodeId)
      case RateQuality => Txt(rateQuality)
      case SignalStrength => Num(signalStrength)
      case TransferRxRate => Num(transferRxRate)
      case TransferTxRate => Num(transferTxRate)
    }
  }

  /** The properties of a device. */
  datatype Field =
    | Band | Connection | CurrentRate | DeviceType | HostName | Ip4 | Ip6
    | IsBanned | IsBeamformingOn | IsGuest | IsHighQos | IsLowQos
    | IsManualDeviceType | IsManualHostName | IsOnline | IsQos | IsWireless
    | Mac | MaxRate | MeshNodeId | RateQuality | SignalStrength
    | TransferRxRate | TransferTxRate

  /** A property value of any of the three kinds. */
  datatype Scalar = SText(s: string) | SNumber(n: Int32) | SFlag(b: bool)

  datatype Kind = TextKind | NumberKind | FlagKind

  function Txt(o: Option<string>): Option<Scalar> {
    if o.Some? then Some(SText(o.value)) else None
  }

  function Num(o: Option<Int32>): Option<Scalar> {
    if o.Some? then Some(SNumber(o.value)) else None
  }

  function Flag(o: Option<bool>): Option<Scalar> {
    if o.Some? then Some(SFlag(o.value)) else None
  }

  /** The kind of each property: `string`, `int?` or `bool?`. */
  function KindOf(f: Field): Kind {
    match f
    case Band | Connection | DeviceType | HostName | Ip4 | Ip6 | Mac | RateQuality => TextKind
    case CurrentRate | MaxRate | MeshNodeId | SignalStrength | TransferRxRate | TransferTxRate => NumberKind
    case _ => FlagKind
  }

  /** The wire key each property is read from; `IsQos` is read from none. */
  function WireKey(f: Field): Option<string> {
    match f
    case Band => Some("band")
    case Connection => Some("connection")
    case CurrentRate => Some("current_rate")
    case DeviceType => Some("dev_type")
    case HostName => Some("hostname")
    case Ip4 => Some("ip_addr")
    case Ip6 => Some("ip6_addr")
    case IsBanned => Some("is_baned")
    case IsBeamformingOn => Some("is_beamforming_on")
    case IsGuest => Some("is_guest")
    case IsHighQos => Some("is_high_qos")
    case IsLowQos => Some("is_low_qos")
    case IsManualDeviceType => Some("is_manual_dev_type")
    case IsManualHostName => Some("is_manual_hostname")
    case IsOnline => Some("is_online")
    case IsQos => None
    case IsWireless => Some("is_wireless")
    case Mac => Some("mac")
    case MaxRate => Some("max_rate")
    case MeshNodeId => Some("mesh_node_id")
    case RateQuality => Some("rate_quality")
    case SignalStrength => Some("signalstrength")
    case TransferRxRate => Some("transferRXRate")
    case TransferTxRate => Some("transferTXRate")
  }

  /** What one property of a record with these members should be: null when
      it has no wire key or its key is absent or null; otherwise the
      member's value when it is of the property's kind, and an error when it
      is not. */
  function Expected(m: map<string, Json>, f: Field): Result<Option<Scalar>> {
    match WireKey(f)
    case None => Success(None)
    case Some(k) => ExpectedValue(KindOf(f), if k in m then m[k] else JNull)
  }

  function ExpectedValue(kind: Kind, v: Json): Result<Option<Scalar>> {
    match (kind, v)
    case (_, JNull) => Success(None)
    case (TextKind, JString(s)) => Success(Some(SText(s)))
    case (NumberKind, JNumber(n)) =>
      if MinInt32 <= n <= MaxInt32 then Success(Some(SNumber(n))) else Failure(MalformedResponse)
    case (FlagKind, JBool(b)) => Success(Some(SFlag(b)))
    case _ => Failure(MalformedResponse)
  }

  /** `ParseDevice`: each property from its wire key, through `?.`, so that
      an absent or null member leaves it null. A record that is not an
      object, or a member of the wrong kind, raises. */
  function ParseDevice(json: Json): (r: Result<Device>)
    ensures !json.JObject? ==> r == Failure(MalformedResponse)
    ensures r.Success? ==> r.value.isQos == None
  {
    if !json.JObject? then Failure(MalformedResponse)
    else
      var m := json.fields;
      var band :- OptString(m, "band");
      var connection :- OptString(m, "connection");
      var currentRate :- OptInt32(m, "current_rate");
      var deviceType :- OptString(m, "dev_type");
      var hostName :- OptString(m, "hostname");
      var ip6 :- OptString(m, "ip6_addr");
      var ip4 :- OptString(m, "ip_addr");
      var isBanned :- OptBool(m, "is_baned");
      var isBeamformingOn :- OptBool(m, "is_beamforming_on");
      var isGuest :- OptBool(m, "is_guest");
      var isHighQos :- OptBool(m, "is_high_qos");
      var isLowQos :- OptBool(m, "is_low_qos");
      var isManualDeviceType :- OptBool(m, "is_manual_dev_type");
      var isManualHostName :- OptBool(m, "is_manual_hostname");
      var isOnline :- OptBool(m, "is_online");
      var isWireless :- OptBool(m, "is_wireless");
      var mac :- OptString(m, "mac");
      var maxRate :- OptInt32(m, "max_rate");
      var meshNodeId :- OptInt32(m, "mesh_node_id");
      var rateQuality :- OptString(m, "rate_quality");
      var signalStrength :- OptInt32(m, "signalstrength");
      var transferRxRate :- OptInt32(m, "transferRXRate");
      var transferTxRate :- OptInt32(m, "transferTXRate");
      Success(Device(band, connection, currentRate, deviceType, hostName, ip4, ip6,
                     isBanned, isBeamformingOn, isGuest, isHighQos, isLowQos,
                     isManualDeviceType, isManualHostName, isOnline, None, isWireless,
                     mac, maxRate, meshNodeId, rateQuality, signalStrength,
                     transferRxRate, transferTxRate))
  }

  /** The string reader agrees with `ExpectedValue` on any member. */
  lemma TextReaderAgrees(m: map<string, Json>, k: string)
    ensures OptString(m, k).Success? <==> ExpectedValue(TextKind, FieldOf(m, k)).Success?
    ensures OptString(m, k).Success? ==> Txt(OptString(m, k).value) == ExpectedValue(TextKind, FieldOf(m, k)).value
  {
  }

  /** The integer reader agrees with `ExpectedValue` on any member. */
  lemma NumberReaderAgrees(m: map<string, Json>, k: string)
    ensures OptInt32(m, k).Success? <==> ExpectedValue(NumberKind, FieldOf(m, k)).Success?
    ensures OptInt32(m, k).Success? ==> Num(OptInt32(m, k).value) == ExpectedValue(NumberKind, FieldOf(m, k)).value
  {
  }

  /** The boolean reader agrees with `ExpectedValue` on any member. */
  lemma FlagReaderAgrees(m: map<string, Json>, k: string)
    ensures OptBool(m, k).Success? <==> ExpectedValue(FlagKind, FieldOf(m, k)).Success?
    ensures OptBool(m, k).Success? ==> Flag(OptBool(m, k).value) == ExpectedValue(FlagKind, FieldOf(m, k)).value
  {
  }

  /** Every reader `ParseDevice` applies succeeds. */
  predicate AllReadersSucceed(m: map<string, Json>) {
    OptString(m, "band").Success? &&
    OptString(m, "connection").Success? &&
    OptInt32(m, "current_rate").Success? &&
    OptString(m, "dev_type").Success? &&
    OptString(m, "hostname").Success? &&
    OptString(m, "ip6_addr").Success? &&
    OptString(m, "ip_addr").Success? &&
    OptBool(m, "is_baned").Success? &&
    OptBool(m, "is_beamforming_on").Success? &&
    OptBool(m, "is_guest").Success? &&
    OptBool(m, "is_high_qos").Success? &&
    OptBool(m, "is_low_qos").Success? &&
    OptBool(m, "is_manual_dev_type").Success? &&
    OptBool(m, "is_manual_hostname").Success? &&
    OptBool(m, "is_online").Success? &&
    OptBool(m, "is_wireless").Success? &&
    OptString(m, "mac").Success? &&
    OptInt32(m, "max_rate").Success? &&
    OptInt32(m, "mesh_node_id").Success? &&
    OptString(m, "rate_quality").Success? &&
    OptInt32(m, "signalstrength").Success? &&
    OptInt32(m, "transferRXRate").Success? &&
    OptInt32(m, "transferTXRate").Success?
  }

  /** The record `ParseDevice` assembles when every reader succeeds. */
  function Assemble(m: map<string, Json>): Device
    requires AllReadersSucceed(m)
  {
    Device(OptString(m, "band").value, OptString(m, "connection").value, OptInt32(m, "current_rate").value,
           OptString(m, "dev_type").value, OptString(m, "hostname").value, OptString(m, "ip_addr").value,
           OptString(m, "ip6_addr").value, OptBool(m, "is_baned").value, OptBool(m, "is_beamforming_on").value,
           OptBool(m, "is_guest").value, OptBool(m, "is_high_qos").value, OptBool(m, "is_low_qos").value,
           OptBool(m, "is_manual_dev_type").value, OptBool(m, "is_manual_hostname").value,
           OptBool(m, "is_online").value, None, OptBool(m, "is_wireless").value, OptString(m, "mac").value,
           OptInt32(m, "max_rate").value, OptInt32(m, "mesh_node_id").value, OptString(m, "rate_quality").value,
           OptInt32(m, "signalstrength").value, OptInt32(m, "transferRXRate").value,
           OptInt32(m, "transferTXRate").value)
  }

  /** The sequence of raises in `ParseDevice` comes to: every reader
      succeeds and the record is assembled, or the decoding raises. */
  lemma ParseDeviceFlat(json: Json)
    requires json.JObject?
    ensures ParseDevice(json) ==
      if AllReadersSucceed(json.fields) then Success(Assemble(json.fields)) else Failure(MalformedResponse)
  {
  }

  // The link between the readers and `Expected`, a few properties at a time.
  // The grouping has no meaning of its own: one lemma over all 23 properties
  // is too large a proof for the verifier, so the work is split into groups.

  lemma LinkReadersSucceed(m: map<string, Json>)
    requires Expected(m, Band).Success? && Expected(m, Connection).Success? && Expected(m, RateQuality).Success?
    ensures OptString(m, "band").Success?
    ensures OptString(m, "connection").Success?
    ensures OptString(m, "rate_quality").Success?
  {
    TextReaderAgrees(m, "band");
    TextReaderAgrees(m, "connection");
    TextReaderAgrees(m, "rate_quality");
  }

  lemma IdentityReadersSucceed(m: map<string, Json>)
    requires Expected(m, DeviceType).Success? && Expected(m, HostName).Success? && Expected(m, Mac).Success?
    ensures OptString(m, "dev_type").Success?
    ensures OptString(m, "hostname").Success?
    ensures OptString(m, "mac").Success?
  {
    TextReaderAgrees(m, "dev_type");
    TextReaderAgrees(m, "hostname");
    TextReaderAgrees(m, "mac");
  }

  lemma AddressReadersSucceed(m: map<string, Json>)
    requires Expected(m, Ip4).Success? && Expected(m, Ip6).Success?
    ensures OptString(m, "ip_addr").Success?
    ensures OptString(m, "ip6_addr").Success?
  {
    TextReaderAgrees(m, "ip_addr");
    TextReaderAgrees(m, "ip6_addr");
  }

  lemma RateReadersSucceed(m: map<string, Json>)
    requires Expected(m, CurrentRate).Success? && Expected(m, MaxRate).Success? && Expected(m, SignalStrength).Success?
    ensures OptInt32(m, "current_rate").Success?
    ensures OptInt32(m, "max_rate").Success?
    ensures OptInt32(m, "signalstrength").Success?
  {
    NumberReaderAgrees(m, "current_rate");
    NumberReaderAgrees(m, "max_rate");
    NumberReaderAgrees(m, "signalstrength");
  }

  lemma TrafficReadersSucceed(m: map<string, Json>)
    requires Expected(m, TransferRxRate).Success? && Expected(m, TransferTxRate).Success? && Expected(m, MeshNodeId).Success?
    ensures OptInt32(m, "transferRXRate").Success?
    ensures OptInt32(m, "transferTXRate").Success?
    ensures OptInt32(m, "mesh_node_id").Success?
  {
    NumberReaderAgrees(m, "transferRXRate");
    NumberReaderAgrees(m, "transferTXRate");
    NumberReaderAgrees(m, "mesh_node_id");
  }

  lemma StateReadersSucceed(m: map<string, Json>)
    requires Expected(m, IsOnline).Success? && Expected(m, IsWireless).Success? && Expected(m, IsGuest).Success?
    ensures OptBool(m, "is_online").Success?
    ensures OptBool(m, "is_wireless").Success?
    ensures OptBool(m, "is_guest").Success?
  {
    FlagReaderAgrees(m, "is_online");
    FlagReaderAgrees(m, "is_wireless");
    FlagReaderAgrees(m, "is_guest");
  }

  lemma RadioReadersSucceed(m: map<string, Json>)
    requires Expected(m, IsHighQos).Success? && Expected(m, IsLowQos).Success? && Expected(m, IsBeamformingOn).Success?
    ensures OptBool(m, "is_high_qos").Success?
    ensures OptBool(m, "is_low_qos").Success?
    ensures OptBool(m, "is_beamforming_on").Success?
  {
    FlagReaderAgrees(m, "is_high_qos");
    FlagReaderAgrees(m, "is_low_qos");
    FlagReaderAgrees(m, "is_beamforming_on");
  }

  lemma ManualReadersSucceed(m: map<string, Json>)
    requires Expected(m, IsManualDeviceType).Success? && Expected(m, IsManualHostName).Success? && Expected(m, IsBanned).Success?
    ensures OptBool(m, "is_manual_dev_type").Success?
    ensures OptBool(m, "is_manual_hostname").Success?
    ensures OptBool(m, "is_baned").Success?
  {
    FlagReaderAgrees(m, "is_manual_dev_type");
    FlagReaderAgrees(m, "is_manual_hostname");
    FlagReaderAgrees(m, "is_baned");
  }

  lemma LinkAssembled(m: map<string, Json>)
    requires AllReadersSucceed(m)
    ensures Expected(m, Band).Success? && Assemble(m).Get(Band) == Expected(m, Band).value
    ensures Expected(m, Connection).Success? && Assemble(m).Get(Connection) == Expected(m, Connection).value
  {
    TextReaderAgrees(m, "band");
    TextReaderAgrees(m, "connection");
  }

  lemma QualityAssembled(m: map<string, Json>)
    requires AllReadersSucceed(m)
    ensures Expected(m, RateQuality).Success? && Assemble(m).Get(RateQuality) == Expected(m, RateQuality).value
    ensures Expected(m, Mac).Success? && Assemble(m).Get(Mac) == Expected(m, Mac).value
  {
    TextReaderAgrees(m, "rate_quality");
    TextReaderAgrees(m, "mac");
  }

  lemma SignalAssembled(m: map<string, Json>)
    requires AllReadersSucceed(m)
    ensures Expected(m, SignalStrength).Success? && Assemble(m).Get(SignalStrength) == Expected(m, SignalStrength).value
    ensures Expected(m, MeshNodeId).Success? && Assemble(m).Get(MeshNodeId) == Expected(m, MeshNodeId).value
  {
    NumberReaderAgrees(m, "signalstrength");
    NumberReaderAgrees(m, "mesh_node_id");
  }

  lemma IdentityAssembled(m: map<string, Json>)
    requires AllReadersSucceed(m)
    ensures Expected(m, DeviceType).Success? && Assemble(m).Get(DeviceType) == Expected(m, DeviceType).value
    ensures Expected(m, HostName).Success? && Assemble(m).Get(HostName) == Expected(m, HostName).value
  {
    TextReaderAgrees(m, "dev_type");
    TextReaderAgrees(m, "hostname");
  }

  lemma AddressAssembled(m: map<string, Json>)
    requires AllReadersSucceed(m)
    ensures Expected(m, Ip4).Success? && Assemble(m).Get(Ip4) == Expected(m, Ip4).value
    ensures Expected(m, Ip6).Success? && Assemble(m).Get(Ip6) == Expected(m, Ip6).value
  {
    TextReaderAgrees(m, "ip_addr");
    TextReaderAgrees(m, "ip6_addr");
  }

  lemma RateAssembled(m: map<string, Json>)
    requires AllReadersSucceed(m)
    ensures Expected(m, CurrentRate).Success? && Assemble(m).Get(CurrentRate) == Expected(m, CurrentRate).value
    ensures Expected(m, MaxRate).Success? && Assemble(m).Get(MaxRate) == Expected(m, MaxRate).value
  {
    NumberReaderAgrees(m, "current_rate");
    NumberReaderAgrees(m, "max_rate");
  }

  lemma TrafficAssembled(m: map<string, Json>)
    requires AllReadersSucceed(m)
    ensures Expected(m, TransferRxRate).Success? && Assemble(m).Get(TransferRxRate) == Expected(m, TransferRxRate).value
    ensures Expected(m, TransferTxRate).Success? && Assemble(m).Get(TransferTxRate) == Expected(m, TransferTxRate).value
  {
    NumberReaderAgrees(m, "transferRXRate");
    NumberReaderAgrees(m, "transferTXRate");
  }

  lemma StateAssembled(m: map<string, Json>)
    requires AllReadersSucceed(m)
    ensures Expected(m, IsOnline).Success? && Assemble(m).Get(IsOnline) == Expected(m, IsOnline).value
    ensures Expected(m, IsWireless).Success? && Assemble(m).Get(IsWireless) == Expected(m, IsWireless).value
  {
    FlagReaderAgrees(m, "is_online");
    FlagReaderAgrees(m, "is_wireless");
  }

  lemma GuestAssembled(m: map<string, Json>)
    requires AllReadersSucceed(m)
    ensures Expected(m, IsGuest).Success? && Assemble(m).Get(IsGuest) == Expected(m, IsGuest).value
    ensures Expected(m, IsBanned).Success? && Assemble(m).Get(IsBanned) == Expected(m, IsBanned).value
  {
    FlagReaderAgrees(m, "is_guest");
    FlagReaderAgrees(m, "is_baned");
  }

  lemma QosAssembled(m: map<string, Json>)
    requires AllReadersSucceed(m)
    ensures Expected(m, IsHighQos).Success? && Assemble(m).Get(IsHighQos) == Expected(m, IsHighQos).value
    ensures Expected(m, IsLowQos).Success? && Assemble(m).Get(IsLowQos) == Expected(m, IsLowQos).value
  {
    FlagReaderAgrees(m, "is_high_qos");
    FlagReaderAgrees(m, "is_low_qos");
  }

  lemma BeamformingAssembled(m: map<string, Json>)
    requires AllReadersSucceed(m)
    ensures Expected(m, IsBeamformingOn).Success? && Assemble(m).Get(IsBeamformingOn) == Expected(m, IsBeamformingOn).value
  {
    FlagReaderAgrees(m, "is_beamforming_on");
  }

  lemma ManualAssembled(m: map<string, Json>)
    requires AllReadersSucceed(m)
    ensures Expected(m, IsManualDeviceType).Success? && Assemble(m).Get(IsManualDeviceType) == Expected(m, IsManualDeviceType).value
    ensures Expected(m, IsManualHostName).Success? && Assemble(m).Get(IsManualHostName) == Expected(m, IsManualHostName).value
  {
    FlagReaderAgrees(m, "is_manual_dev_type");
    FlagReaderAgrees(m, "is_manual_hostname");
  }

  /** Each property of the assembled record is the one `Expected` describes. */
  lemma AssembledIsExpected(m: map<string, Json>)
    requires AllReadersSucceed(m)
    ensures forall f: Field :: Expected(m, f).Success? && Assemble(m).Get(f) == Expected(m, f).value
  {
    forall f: Field ensures Expected(m, f).Success? && Assemble(m).Get(f) == Expected(m, f).value {
      match f
      case Band | Connection => LinkAssembled(m);
      case RateQuality | Mac => QualityAssembled(m);
      case SignalStrength | MeshNodeId => SignalAssembled(m);
      case DeviceType | HostName => IdentityAssembled(m);
      case Ip4 | Ip6 => AddressAssembled(m);
      case CurrentRate | MaxRate => RateAssembled(m);
      case TransferRxRate | TransferTxRate => TrafficAssembled(m);
      case IsOnline | IsWireless => StateAssembled(m);
      case IsGuest | IsBanned => GuestAssembled(m);
      case IsHighQos | IsLowQos => QosAssembled(m);
      case IsBeamformingOn => BeamformingAssembled(m);
      case IsManualDeviceType | IsManualHostName => ManualAssembled(m);
      case IsQos =>
    }
  }

  /** All readers succeed exactly when every property is readable. */
  lemma AllReadersIffExpected(m: map<string, Json>)
    ensures AllReadersSucceed(m) <==> forall f: Field :: Expected(m, f).Success?
  {
    if AllReadersSucceed(m) {
      AssembledIsExpected(m);
    }
    if forall f: Field :: Expected(m, f).Success? {
      LinkReadersSucceed(m);
      IdentityReadersSucceed(m);
      AddressReadersSucceed(m);
      RateReadersSucceed(m);
      TrafficReadersSucceed(m);
      StateReadersSucceed(m);
      RadioReadersSucceed(m);
      ManualReadersSucceed(m);
    }
  }

  /** A record decodes exactly when every property is of its kind or null,
      and each property is then the one `Expected` describes. */
  lemma ParseDeviceFields(json: Json)
    requires json.JObject?
    ensures ParseDevice(json).Success? <==> forall f: Field :: Expected(json.fields, f).Success?
    ensures ParseDevice(json).Success? ==>
      forall f: Field :: ParseDevice(json).value.Get(f) == Expected(json.fields, f).value
  {
    ParseDeviceFlat(json);
    AllReadersIffExpected(json.fields);
    if AllReadersSucceed(json.fields) {
      AssembledIsExpected(json.fields);
    }
  }

  /** A property of a decoded record is null exactly when it has no wire
      key or its key is absent or null; otherwise it holds the key's value. */
  lemma NullExactlyWhenAbsent(json: Json, f: Field)
    requires ParseDevice(json).Success?
    ensures ParseDevice(json).value.Get(f) == None <==>
      WireKey(f) == None || FieldOf(json.fields, WireKey(f).value) == JNull
    ensures ParseDevice(json).value.Get(f).Some? ==>
      FieldOf(json.fields, WireKey(f).value) == ScalarJson(ParseDevice(json).value.Get(f).value)
  {
    ParseDeviceFields(json);
  }

  /** The JSON value a property value comes from. */
  function ScalarJson(v: Scalar): Json {
    match v
    case SText(s) => JString(s)
    case SNumber(n) => JNumber(n)
    case SFlag(b) => JBool(b)
  }

  /** Removing a member from a record never makes it fail to decode, and
      only the property read from that member becomes null. */
  lemma DroppingAKeyNullsOnlyItsField(json: Json, k: string)
    requires ParseDevice(json).Success?
    ensures ParseDevice(JObject(json.fields - {k})).Success?
    ensures forall f: Field ::
      ParseDevice(JObject(json.fields - {k})).value.Get(f) ==
      if WireKey(f) == Some(k) then None else ParseDevice(json).value.Get(f)
  {
    var m := json.fields;
    var m' := m - {k};
    ParseDeviceFields(json);
    forall f: Field
      ensures Expected(m', f) == if WireKey(f) == Some(k) then Success(None) else Expected(m, f)
    {
      if WireKey(f).Some? && WireKey(f).value != k {
        assert FieldOf(m', WireKey(f).value) == FieldOf(m, WireKey(f).value);
      }
    }
    ParseDeviceFields(JObject(m'));
  }

  /** Each property depends on its own wire key only: two records that agree
      on that member decode to the same value for the property. */
  lemma FieldReadsOnlyItsKey(json: Json, json': Json, f: Field)
    requires ParseDevice(json).Success? && ParseDevice(json').Success?
    requires WireKey(f).Some? ==> FieldOf(json.fields, WireKey(f).value) == FieldOf(json'.fields, WireKey(f).value)
    ensures ParseDevice(json).value.Get(f) == ParseDevice(json').value.Get(f)
  {
    ParseDeviceFields(json);
    ParseDeviceFields(json');
  }

  /** No property shares its wire key with another. */
  lemma WireKeysDistinct(f: Field, g: Field)
    requires WireKey(f).Some? && WireKey(f) == WireKey(g)
    ensures f == g
  {
  }

  /** The record with every property null. */
  const EmptyDevice: Device := Device(None, None, None, None, None, None, None, None, None, None, None, None,
                                      None, None, None, None, None, None, None, None, None, None, None, None)

  /** An empty object decodes to a record with every property null. */
  lemma EmptyRecordIsAllNull()
    ensures ParseDevice(JObject(map[])) == Success(EmptyDevice)
  {
  }

  /** A decoding that raises always raises `MalformedResponse`. */
  lemma ParseDeviceFailure(json: Json)
    requires ParseDevice(json).Failure?
    ensures ParseDevice(json) == Failure(MalformedResponse)
  {
    if json.JObject? {
      ParseDeviceFlat(json);
    }
  }

  /** A member that is no property's wire key has no effect on the decoding:
      it succeeds or fails alike, and every property decodes to the same value. */
  lemma UnknownMemberIgnored(m: map<string, Json>, k: string, v: Json)
    requires forall f: Field :: WireKey(f) != Some(k)
    ensures ParseDevice(JObject(m[k := v])).Success? <==> ParseDevice(JObject(m)).Success?
    ensures ParseDevice(JObject(m)).Success? ==>
              forall f: Field :: ParseDevice(JObject(m[k := v])).value.Get(f) == ParseDevice(JObject(m)).value.Get(f)
  {
    var m' := m[k := v];
    forall f: Field ensures Expected(m', f) == Expected(m, f) {
      if WireKey(f).Some? {
        assert FieldOf(m', WireKey(f).value) == FieldOf(m, WireKey(f).value);
      }
    }
    ParseDeviceFields(JObject(m'));
    ParseDeviceFields(JObject(m));
  }

  /** `IsBanned` is read from the member spelled `is_baned`. */
  lemma BannedIsReadFromIsBaned(json: Json)
    requires ParseDevice(json).Success?
    ensures ParseDevice(json).value.isBanned ==
      if FieldOf(json.fields, "is_baned") == JNull then None else Some(FieldOf(json.fields, "is_baned").b)
  {
    ParseDeviceFields(json);
    assert ParseDevice(json).value.Get(IsBanned) == Expected(json.fields, IsBanned).value;
  }

  /** A member spelled `is_banned` is not read at all. */
  lemma IsBannedSpelledCorrectlyIsIgnored(m: map<string, Json>, v: Json)
    ensures ParseDevice(JObject(m["is_banned" := v])).Success? <==> ParseDevice(JObject(m)).Success?
    ensures ParseDevice(JObject(m)).Success? ==>
              forall f: Field :: ParseDevice(JObject(m["is_banned" := v])).value.Get(f) == ParseDevice(JObject(m)).value.Get(f)
  {
    UnknownMemberIgnored(m, "is_banned", v);
  }

  // ---------------------------------------------------------------------
  // The connected-device list.

  /** The form fields of the device request. The token is not among them. */
  function DeviceForm(api: ApiInfo): seq<Param> {
    [("conntype", "all"), ("api", DeviceApi), ("method", "get"), ("version", IntToString(api.maxVersion))]
  }

  /** `GetConnectedDevicesAsync`: discovery of the device API, then a POST of
      the form to `host/webapi/<path>` with no query string. */
  function GetConnectedDevices(host: string, sid: string, discovery: Reply, reply: Reply): (c: Call<seq<Device>>)
    ensures IsNullOrWhiteSpace(sid) ==> c == Call(Failure(NotLoggedIn), [])
    ensures !IsNullOrWhiteSpace(sid) ==> 1 <= |c.requests| <= 2 && c.requests[0] == Get(QueryApiUri(host, DeviceApi))
    ensures c.result.Success? ==> !IsNullOrWhiteSpace(sid) && Resolve(discovery, DeviceApi).Success?
    ensures !IsNullOrWhiteSpace(sid) && Resolve(discovery, DeviceApi).Failure? ==>
      c == Call(Failure(Resolve(discovery, DeviceApi).error), [Get(QueryApiUri(host, DeviceApi))])
  {
    if IsNullOrWhiteSpace(sid) then Call(Failure(NotLoggedIn), [])
    else
      var probe := Get(QueryApiUri(host, DeviceApi));
      match Resolve(discovery, DeviceApi)
      case Failure(e) => Call(Failure(e), [probe])
      case Success(api) =>
        Call(ListResult(reply, ["data", "devices"], DevicesFailed, ParseDevice),
             [probe, Post(Endpoint(host, api.path), DeviceForm(api))])
  }

  /** Once the device API resolves, the second request posts exactly the four
      form fields; a failure envelope raises; a success envelope yields one
      device per element of `data.devices`, in order, and succeeds exactly
      when every element decodes. */
  lemma GetConnectedDevicesOutcome(host: string, sid: string, discovery: Reply, reply: Reply)
    returns (c: Call<seq<Device>>)
    requires !IsNullOrWhiteSpace(sid) && Resolve(discovery, DeviceApi).Success?
    ensures c == GetConnectedDevices(host, sid, discovery, reply)
    ensures |c.requests| == 2
    ensures c.requests[1] == Post(host + "/webapi/" + Resolve(discovery, DeviceApi).value.path,
      [("conntype", "all"), ("api", "SYNO.Core.Network.NSM.Device"), ("method", "get"),
       ("version", IntToString(Resolve(discovery, DeviceApi).value.maxVersion))])
    ensures ReadSuccess(reply) == Success(false) ==> c.result == Failure(OperationFailed("Unable to retrieve connected devices"))
    ensures c.result.Success? ==> reply.Body? && Items(reply, ["data", "devices"]).Success?
    ensures c.result.Success? ==> |c.result.value| == |Items(reply, ["data", "devices"]).value|
    ensures c.result.Success? ==> forall i | 0 <= i < |c.result.value| ::
      ParseDevice(Items(reply, ["data", "devices"]).value[i]) == Success(c.result.value[i])
    ensures ReadSuccess(reply) == Success(true) && Items(reply, ["data", "devices"]).Success? ==>
      (c.result.Success? <==> forall i | 0 <= i < |Items(reply, ["data", "devices"]).value| ::
         ParseDevice(Items(reply, ["data", "devices"]).value[i]).Success?)
  {
    c := GetConnectedDevices(host, sid, discovery, reply);
  }

  /** The token only gates the call: any two non-blank tokens issue the same
      requests and get the same result, so no part of the request carries it. */
  lemma DevicesRequestCarriesNoToken(host: string, sid: string, sid': string, discovery: Reply, reply: Reply)
    requires !IsNullOrWhiteSpace(sid) && !IsNullOrWhiteSpace(sid')
    ensures GetConnectedDevices(host, sid, discovery, reply) == GetConnectedDevices(host, sid', discovery, reply)
  {
  }
}
