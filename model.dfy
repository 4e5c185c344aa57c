/** The objects the configuration core converts: the Java values a
    `ConfigChannel` can hold, the channels themselves and the Things that own
    them. A Thing refers to another Thing by its header (its id, alias,
    class and, for a Bridge, its devices); the channels of a Thing live in the
    Thing repository, which the encoder reads and the decoder fills. */
module ConfigModel {
  import opened Wrappers
  import opened JavaInts
  import opened Json
  import opened Inet4

  /** The declared class of a channel (`channel.type()`), closed over the
      classes the core tests for. */
  datatype TypeTag =
    | TShort
    | TInteger
    | TLong
    | TBoolean
    | TDouble
    | TString
    | TJsonObject
    | TJsonArray
    | TArray(component: TypeTag)   // `type.isArray()`; `Long[]` is TArray(TLong)
    | TThing(className: string)    // a subclass of `Thing`
    | TThingMap
    | TInet4Address
    | TOther(name: string)

  /** A Java object as the core sees it. A `Double` is integral here. */
  datatype Value =
    | VNull
    | VOptional(content: Option<Value>)
    | VShort(short: Int16)
    | VInteger(integer: Int32)
    | VLong(long: Int64)
    | VDouble(double: int)
    | VString(str: string)
    | VBoolean(boolean: bool)
    | VInet4(address: Address)
    | VJson(json: Json)
    | VLongArray(longs: seq<Int64>)  // `Long[]`
    | VThing(thing: ThingHeader)
    | VList(elems: seq<Value>)       // a `java.util.List`
    | VSet(elems: seq<Value>)        // a `java.util.Set`, in iteration order
    | VThingMap(mapId: string)
    | VOther(className: string)      // any other class

  /** What `thing.id()`, `thing.getAlias()` and `thing.getClass()` report;
      `devices` is present exactly when the Thing is a `Bridge` and lists its
      devices' ids in `getDevices()` order. */
  datatype ThingHeader = ThingHeader(id: string, alias: string, className: string, devices: Option<seq<string>>)

  /** The Java field behind a channel, as `getLongArrayFromConfig` finds it by
      reflection: missing, a plain field, or a field holding a collection. */
  datatype FieldKind = NoSuchField | PlainField | SetField | ListField | OtherCollection

  datatype Role = Admin | Installer | Owner | Guest

  /** A `ConfigChannel`: its id, declared type, whether it may stay unset, its
      current and default values, the roles allowed to read it
      (`isReadAllowed`) and the field it is declared by. */
  datatype Channel = Channel(
    id: string,
    declared: Option<TypeTag>,
    optional: bool,
    value: Option<Value>,
    default: Option<Value>,
    readers: set<Role>,
    field: FieldKind)

  datatype Thing = Thing(header: ThingHeader, channels: seq<Channel>)

  datatype ConfigFormat = File | OpenemsUi

  /** `channel.isReadAllowed(role)` */
  predicate ReadAllowed(ch: Channel, role: Role) {
    role in ch.readers
  }

  /** The content of the Thing repository: every Thing by its id. */
  type Things = map<string, Thing>

  /** `thingRepository.getConfigChannels(thing)`: empty for a Thing that was
      never registered. */
  function ChannelsOf(things: Things, id: string): seq<Channel> {
    if id in things then things[id].channels else []
  }

  /** Every Thing is registered under its own id. */
  ghost predicate Registered(things: Things) {
    forall id :: id in things ==> things[id].header.id == id
  }
}
