/**
 * The gNMI protocol messages and enumerations the core builds and reads, reduced to
 * the fields it touches. The enumeration names are those of the gNMI protocol
 * definition (Encoding, SubscriptionList.Mode, SubscriptionMode, GetRequest.DataType);
 * a `...ByName` function is the lookup in the generated `..._value` name table.
 */
module Gnmi {
  import opened Wrappers

  newtype uint32 = x: int | 0 <= x < 0x1_0000_0000
  newtype uint64 = x: int | 0 <= x < 0x1_0000_0000_0000_0000

  /** Go's uint64(d) conversion of a signed duration in nanoseconds: two's-complement reinterpretation. */
  function ToUint64(d: int): (u: uint64)
    ensures 0 <= d < 0x1_0000_0000_0000_0000 ==> u as int == d
    ensures -0x1_0000_0000_0000_0000 <= d < 0 ==> u as int == d + 0x1_0000_0000_0000_0000
  {
    (d % 0x1_0000_0000_0000_0000) as uint64
  }

  datatype PathElem = PathElem(name: string, key: map<string, string>)
  datatype Path = Path(origin: string, elem: seq<PathElem>, target: string)

  /** A TypedValue is carried opaquely: only the collaborator that decodes it looks inside. */
  datatype TypedValue = TypedValue(kind: string, payload: seq<bv8>)

  datatype Update = Update(path: Path, val: TypedValue)
  datatype Notification = Notification(timestamp: int, prefix: Option<Path>, update: seq<Update>, delete: seq<Path>)

  /** The oneof of SubscribeResponse. */
  datatype SubscribeResponse =
    | UpdateResponse(notification: Notification)
    | SyncResponse(sync: bool)
    | ErrorResponse(message: string)

  datatype GetResponse = GetResponse(notification: seq<Notification>)

  datatype ModelData = ModelData(name: string, organization: string, version: string)

  datatype Encoding = Json | Bytes | Proto | Ascii | JsonIetf

  function EncodingName(e: Encoding): string
  {
    match e
    case Json => "JSON"
    case Bytes => "BYTES"
    case Proto => "PROTO"
    case Ascii => "ASCII"
    case JsonIetf => "JSON_IETF"
  }

  function EncodingByName(name: string): (r: Option<Encoding>)
    ensures r.Some? ==> EncodingName(r.value) == name
    ensures forall e :: EncodingName(e) == name ==> r == Some(e)
  {
    if name == "JSON" then Some(Json)
    else if name == "BYTES" then Some(Bytes)
    else if name == "PROTO" then Some(Proto)
    else if name == "ASCII" then Some(Ascii)
    else if name == "JSON_IETF" then Some(JsonIetf)
    else None
  }

  /** SubscriptionList.Mode; Stream is the zero value. */
  datatype ListMode = Stream | Once | Poll

  function ListModeName(m: ListMode): string
  {
    match m
    case Stream => "STREAM"
    case Once => "ONCE"
    case Poll => "POLL"
  }

  function ListModeByName(name: string): (r: Option<ListMode>)
    ensures r.Some? ==> ListModeName(r.value) == name
    ensures forall m :: ListModeName(m) == name ==> r == Some(m)
  {
    if name == "STREAM" then Some(Stream)
    else if name == "ONCE" then Some(Once)
    else if name == "POLL" then Some(Poll)
    else None
  }

  /** SubscriptionMode; TargetDefined is the zero value. */
  datatype SubscriptionMode = TargetDefined | OnChange | Sample

  function SubscriptionModeName(m: SubscriptionMode): string
  {
    match m
    case TargetDefined => "TARGET_DEFINED"
    case OnChange => "ON_CHANGE"
    case Sample => "SAMPLE"
  }

  function SubscriptionModeByName(name: string): (r: Option<SubscriptionMode>)
    ensures r.Some? ==> SubscriptionModeName(r.value) == name
    ensures forall m :: SubscriptionModeName(m) == name ==> r == Some(m)
  {
    if name == "TARGET_DEFINED" then Some(TargetDefined)
    else if name == "ON_CHANGE" then Some(OnChange)
    else if name == "SAMPLE" then Some(Sample)
    else None
  }

  /** GetRequest.DataType; All is the zero value. */
  datatype DataType = All | Config | State | Operational

  function DataTypeName(t: DataType): string
  {
    match t
    case All => "ALL"
    case Config => "CONFIG"
    case State => "STATE"
    case Operational => "OPERATIONAL"
  }

  function DataTypeByName(name: string): (r: Option<DataType>)
    ensures r.Some? ==> DataTypeName(r.value) == name
    ensures forall t :: DataTypeName(t) == name ==> r == Some(t)
  {
    if name == "ALL" then Some(All)
    else if name == "CONFIG" then Some(Config)
    else if name == "STATE" then Some(State)
    else if name == "OPERATIONAL" then Some(Operational)
    else None
  }

  datatype Subscription = Subscription(
    path: Option<Path>,
    mode: SubscriptionMode,
    sampleInterval: uint64,
    suppressRedundant: bool,
    heartbeatInterval: uint64)

  /** The SubscribeRequest with its `subscribe` member set. */
  datatype SubscriptionList = SubscriptionList(
    prefix: Option<Path>,
    subscription: seq<Subscription>,
    qos: uint32,
    mode: ListMode,
    useModels: seq<ModelData>,
    encoding: Encoding,
    updatesOnly: bool)

  datatype GetRequest = GetRequest(
    prefix: Option<Path>,
    path: seq<Option<Path>>,
    dataType: DataType,
    encoding: Encoding,
    useModels: seq<ModelData>)
}
