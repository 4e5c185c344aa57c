# OpenEMS configuration codec, modelled in Dafny

This project models the configuration core of OpenEMS (edge): the code that
turns a graph of Things into JSON and back. A Thing is a runtime entity (a
device, a bridge or a controller) that holds typed configuration channels.

- **ConfigUtils** (`ConfigEncode`, `ConfigDecode`)
  - *Encoding* writes a value, a Thing or a collection as JSON. For a file
    or for the user interface, a Thing gets:
    - its id and alias;
    - its class;
    - every channel the caller's role may read;
    - for a Bridge, its devices.
  - *Decoding* injects a JSON configuration into the channels of a Thing.
    It dispatches on each channel's declared type. It resolves nested Thing
    references through the Thing repository, which is the `Registry` class
    with a `map` from id to Thing. An unknown id creates and registers a new
    Thing.
- **JsonUtils** (`JsonUtils`, on top of the Gson element model in `Json`)
  - Typed accessors for JSON elements and their members.
  - Lenient number reading.
  - The converters between simple Java values and JSON.
  - A path matcher over JSON trees.
- **BitUtils** (`BitUtils`)
  - The bit widths of the fixed-size types.
  - Their big-endian two's-complement byte form.
  - Hexadecimal printing.

Supporting modules:
- `Wrappers`: `Option`, `Result` and `Outcome`, and the Java exceptions as
  `Error` values.
- `JavaInts`: Java's fixed-width integers and their narrowing conversions.
- `Text`: decimal printing and `Integer.parseInt`/`Long.parseLong`.
- `Inet4`: dotted-quad IPv4 literals.
- `ConfigModel`: the Java objects the core converts.

Where a piece of the core works by mutation, it is a Dafny method proved
equal to a specification function. This applies to the loops that fill
arrays and JSON arrays or objects, and to the registry updates. The
properties are then proved about the function.

The source files do not compile as they stand. Some methods read
variables they never receive, handler maps are keyed by the wrong classes,
and `returnObj`, `checkRest` and `arrOfLong` lack `return`s. The model
follows what each branch evidently does:
- A handler map that is keyed by the wrong classes is modelled as the
  dispatch on the value's class it stands for.
- `returnObj` calls `checkRest(type, j)` in its last branch without
  returning the result (JsonUtils.java:337-339). This is modelled as
  returning `checkRest`'s result. Otherwise no String, JsonObject,
  JsonArray or `Long[]` could ever be decoded.
- `checkRest` with no matching class (JsonUtils.java:344-367) and
  `arrOfLong` for a component other than `Long` or for an element that is
  not an array (JsonUtils.java:372-391) end without a `return`. Both are
  modelled as a fall-through to the `NotImplementedException` at the end
  of `getAsType`.
- `new JsonPrimitive(Inet4Address)` (JsonUtils.java:75) has no such
  constructor. It is modelled as the address's dotted-quad string.

Where the design notes of the repository and the code disagree, the model
follows the code:
- `getThingFromConfig` re-injects the configuration into a Thing it reuses
  (ConfigUtils.java:398). The design says a repeated reference is a pure
  lookup.
- A new Thing is registered *before* its channels are injected, and it
  stays registered when injection fails (ConfigUtils.java:395-398). The
  design says no half-valid Thing is registered.
- The `class` member is written in every format (ConfigUtils.java:172).
- Encoding a Thing is not cycle-aware. A Thing that reaches itself through
  its channels recurses until the stack overflows.
- A `Long[]` channel configured with a JSON array is always read by
  `getAsType`/`arrOfLong`. So `getLongArrayFromConfig`, including its
  two-dimensional path, only ever sees a value that is not an array, and it
  refuses it (`ConfigDecode.LongArrayChannel`). `getLongArrayFromConfig` is
  modelled in full all the same.

## Model

| member | source | states |
|---|---|---|
| ConfigEncode.ToJson | ConfigUtils.java:140-152 | `null` and an empty `Optional` have no JSON; a present `Optional` is unwrapped before any further dispatch |
| ConfigEncode.Unwrapped | ConfigUtils.java:153-195 | the simple converters of `JsonUtils` decide first whenever they have a converter; a value that ends without JSON only arises when the simple converters gave none |
| ConfigEncode.Composite | ConfigUtils.java:159-195 | once the simple converters refuse a value, there is no way to end with no JSON: a Thing, a collection or a ThingMap gives JSON, anything else an error |
| ConfigEncode.CollectionJson | ConfigUtils.java:198-217 | `optValue` has JSON exactly for a List or Set whose elements all convert and for a ThingMap (its id); no converter for any other value |
| ConfigEncode.ListToJson | ConfigUtils.java:286-305 | a List or Set becomes an array of the same length whose entry `i` is element `i`'s JSON (JSON null where it has none); it succeeds exactly when every element converts |
| ConfigEncode.DeviceArray | ConfigUtils.java:259-262 | the devices array has one string per device id, in `getDevices()` order |
| ConfigEncode.ChannelElement | ConfigUtils.java:237-250 | a channel without a value has no JSON; in FILE format neither has one still at its default; otherwise its value's JSON |
| ConfigEncode.GetAsJsonElement | ConfigUtils.java:140-195 | the method computes exactly `ToJson` |
| ConfigEncode.ConvertUnwrapped | ConfigUtils.java:153-195 | the method computes exactly `Unwrapped` |
| ConfigEncode.ConvertComposite | ConfigUtils.java:159-195 | the method computes exactly `Composite` |
| ConfigEncode.OptValue | ConfigUtils.java:198-217 | the method computes exactly `CollectionJson` |
| ConfigEncode.AddElement | ConfigUtils.java:286-305 | the loop appending to a `JsonArray` computes exactly `ListToJson` |
| ConfigEncode.EncodeThing | ConfigUtils.java:161-182 | `addJ`, the class, `checkChan` and `addDev` in sequence compute exactly `ThingJson`; with the nesting bound spent the method fails with a stack overflow (intended behaviour; as written, see ## Findings) |
| ConfigEncode.CheckChan | ConfigUtils.java:219-233 | the loop over the Thing's channels computes exactly `ChannelMembers` (intended behaviour; as written, see ## Findings) |
| ConfigEncode.CheckOpt | ConfigUtils.java:237-250 | the method computes exactly `ChannelElement` |
| ConfigEncode.AddDev | ConfigUtils.java:255-268 | the loop collecting device ids computes exactly `WithDevices` |
| ConfigEncode.ListSnoc | ConfigUtils.java:288-290 | one more element appends exactly its own entry, or stops with its error |
| ConfigEncode.ListPrefixError | ConfigUtils.java:288-290 | the first element that cannot be converted decides the error of the whole list |
| ConfigEncode.ChannelMembersOk | ConfigUtils.java:221-229 | `checkChan` succeeds exactly when every channel the role may read converts |
| ConfigEncode.ChannelMembersKeep | ConfigUtils.java:221-229 | `checkChan` leaves every member no channel is named after unchanged |
| ConfigEncode.ChannelMembersSet | ConfigUtils.java:221-229 | with distinct channel ids, a channel's id afterwards holds its JSON if the role may read it and it has some, and its previous member otherwise |
| ConfigEncode.HeadFacts | ConfigUtils.java:271-281 | `id` and `alias` are each written exactly in UI format or for ids not starting with "_", with the Thing's id and alias; `class` always; nothing else |
| ConfigEncode.DevicesFacts | ConfigUtils.java:255-268 | `addDev` sets `devices` to the device ids for a Bridge and changes no other member |
| ConfigEncode.ThingObjectOk | ConfigUtils.java:161-182 | building a Thing's object fails exactly when a channel the role may read cannot be converted (intended behaviour; as written, see ## Findings) |
| ConfigEncode.ThingObjectHeader | ConfigUtils.java:169-180 | a Thing's JSON has `id` iff, and `alias` iff, UI format or non-generated id, always its class, and `devices` exactly for a Bridge (intended behaviour; as written, see ## Findings) |
| ConfigEncode.ThingObjectChannels | ConfigUtils.java:219-250 | a channel appears in the Thing's JSON, under its id, exactly when the role may read it and it has JSON; no unreadable or value-less channel appears (intended behaviour; as written, see ## Findings) |
| ConfigEncode.CollectionIsArray | ConfigUtils.java:198-217 | a List or Set whose elements convert encodes to an array with one entry per element, in order |
| ConfigEncode.UnconvertibleRefused | ConfigUtils.java:192-194 | a value with no simple, Thing, List, Set or ThingMap converter raises `NotImplementedException` |
| ConfigEncode.ChannelElementAsWritten | ConfigUtils.java:185-194 | as written, a channel never yields "no JSON": `checkOpt`'s null becomes `NotImplementedException` |
| ConfigEncode.UnsetChannelRejectedAsWritten | ConfigUtils.java:185-194 | a channel without a value is rejected as written, while `checkOpt` gives it no JSON |
| ConfigEncode.UnsetChannelOmitted | ConfigUtils.java:219-250 | with the intended behaviour a Thing whose only channel is unset encodes to its header alone |
| ConfigEncode.ChannelMembersAsWrittenNeedJson | ConfigUtils.java:185-194 | as written, `checkChan` gets through only if every channel the role may read has JSON |
| ConfigEncode.ThingObjectAsWrittenNeedsJson | ConfigUtils.java:161-194 | as written, a Thing encodes only if every channel the role may read has JSON, where `checkChan` means to leave out those without |
| ConfigEncode.UnsetThingRejectedAsWritten | ConfigUtils.java:161-194 | as written, a Thing whose only channel is readable and unset fails as a whole with `NotImplementedException`, where the intended behaviour gives its header alone |
| ConfigDecode.InjectAll | ConfigUtils.java:120-131 | injecting loses no registered Thing and changes no Thing's number of channels |
| ConfigDecode.InjectAllEvolves | ConfigUtils.java:120-131 | injecting keeps every registered Thing with its header and channels, only assigns values (never removes one), and keeps every Thing registered under its own id |
| ConfigDecode.InjectOne | ConfigUtils.java:122-130 | one channel's injection loses no Thing and keeps the owner's number of channels |
| ConfigDecode.InjectOneEvolves | ConfigUtils.java:122-130 | one channel's injection keeps the registry's Things, headers and channels, changing values only |
| ConfigDecode.InjectOneFacts | ConfigUtils.java:122-130 | a channel is skipped exactly when absent from the configuration and it has a value or is optional; an absent channel otherwise fails with `getSubElement`'s "is missing" error; a present one is assigned its decoded value, or the decoding error is returned |
| ConfigDecode.InjectAllSettles | ConfigUtils.java:120-131 | after a successful injection every channel has a value, or is optional and absent from the configuration; so every configured channel has a value |
| ConfigDecode.Inet4From | ConfigUtils.java:347-355 | an IPv4 channel reads a string that is a four-part dotted-quad literal into that address; any other text fails with a ReflectionException (the other forms `getByName` takes are listed under Left out) |
| ConfigDecode.ConfigObject | ConfigUtils.java:315-375 | decoding a value loses no registered Thing and changes no Thing's number of channels |
| ConfigDecode.ConfigObjectEvolves | ConfigUtils.java:315-375 | decoding a value only adds Things and assigns channel values, and keeps every Thing registered under its own id |
| ConfigDecode.ConfigObjectDispatch | ConfigUtils.java:315-375 | no declared type fails first; the simple converter's result is final unless it has no converter; then Thing, ThingMap, IPv4 in that order; a class outside the simple converters that matches none of these is a ReflectionException |
| ConfigDecode.OtherArrayRefused | ConfigUtils.java:315-375 | an array class other than `Long[]` (such as `String[]` or `Long[][]`) gets `NotImplementedException` from `getAsType` and is refused with a ReflectionException, leaving the registry unchanged |
| ConfigDecode.LongArrayChannel | ConfigUtils.java:328-361 | a `Long[]` channel with a JSON array is read by `arrOfLong`; any other value reaches `getLongArrayFromConfig` and is refused |
| ConfigDecode.ScalarChannelRoundTrip | ConfigUtils.java:328-332 | a simple value the encoder writes decodes back to itself in a channel of its class, leaving the registry unchanged |
| ConfigDecode.Inet4ChannelRoundTrip | ConfigUtils.java:347-355 | an address written as its dotted quad decodes back to the same address |
| ConfigDecode.Resolve | ConfigUtils.java:381-396 | after resolution the id is registered and no Thing is lost |
| ConfigDecode.ResolveEvolves | ConfigUtils.java:381-396 | resolution changes no registered Thing, and a new Thing is registered under its own id |
| ConfigDecode.ThingFrom | ConfigUtils.java:377-401 | resolving a Thing reference loses no registered Thing and changes no Thing's number of channels |
| ConfigDecode.ThingFromEvolves | ConfigUtils.java:377-401 | resolving a Thing reference only adds Things and assigns channel values, and keeps every Thing registered under its own id |
| ConfigDecode.ThingFromFacts | ConfigUtils.java:377-401 | `id` must be a string member; the result is the Thing registered under it; a registered id is reused without the factory; an unknown id is built from `[id] ++ extra` and registered before its channels are injected |
| ConfigDecode.RowsOf | ConfigUtils.java:469-487 | a 2-D array decodes exactly when every row is an array of longs, one row per element |
| ConfigDecode.LongArrayFromConfig | ConfigUtils.java:403-458 | no field is a ReflectionException; a non-array is refused ("is no array") |
| ConfigDecode.PlainLongArray | ConfigUtils.java:444-452 | a plain field reads an array into a `Long[]` of the same length whose element `i` is element `i` read with `getAsLong` |
| ConfigDecode.CollectionLongArrays | ConfigUtils.java:424-443 | a collection field needs an array of arrays; a Set or List then holds exactly one `Long[]` per row (as a multiset); any other container is refused |
| ConfigDecode.GetArr | ConfigUtils.java:460-467 | `larr[i]` becomes element `i` read with `getAsLong`; the first unreadable element decides the error |
| ConfigDecode.CollectRows | ConfigUtils.java:469-487 | the loop over the rows computes exactly `RowsOf` |
| ConfigDecode.GetLongArrayFromConfig | ConfigUtils.java:403-458 | the method computes exactly `LongArrayFromConfig` |
| ConfigDecode.ConstructorArgs | ConfigUtils.java:388-392 | the constructor arguments are the id followed by the extra arguments |
| ConfigDecode.Registry.InjectConfigChannels | ConfigUtils.java:120-131 | the loop over the channels leaves the registry and outcome exactly as `InjectAll` says |
| ConfigDecode.Registry.InjectChannel | ConfigUtils.java:123-129 | one channel's injection updates the registry exactly as `InjectOne` says |
| ConfigDecode.Registry.GetConfigObject | ConfigUtils.java:315-363 | the method computes exactly `ConfigObject`, registry included |
| ConfigDecode.Registry.GetThingFromConfig | ConfigUtils.java:377-401 | the method computes exactly `ThingFrom`, registry included |
| JsonUtils.GetAsJsonArray | JsonUtils.java:105-110 | succeeds iff the element is an array, returning it unchanged; otherwise a ReflectionException |
| JsonUtils.GetAsJsonObject | JsonUtils.java:120-125 | succeeds iff the element is an object, returning it unchanged |
| JsonUtils.GetAsPrimitive | JsonUtils.java:135-140 | succeeds iff the element is a primitive, returning it unchanged |
| JsonUtils.GetSubElement | JsonUtils.java:209-215 | fails on a non-object or a missing member ("is missing"); otherwise returns exactly that member's value |
| JsonUtils.GetAsJsonArrayMember | JsonUtils.java:112-118 | the member must exist and be an array |
| JsonUtils.GetAsJsonObjectMember | JsonUtils.java:127-133 | the member must exist and be an object |
| JsonUtils.GetAsPrimitiveMember | JsonUtils.java:142-148 | the member must exist and be a primitive |
| JsonUtils.GetAsString | JsonUtils.java:150-156 | only string primitives are accepted; numbers and booleans are refused |
| JsonUtils.GetAsStringMember | JsonUtils.java:158-164 | succeeds iff the member exists and is a string, returning that string |
| JsonUtils.GetAsInt | JsonUtils.java:166-175 | a number is narrowed to `int`; a string is parsed by `Integer.parseInt`; a boolean is "not a Number" |
| JsonUtils.GetAsLong | JsonUtils.java:190-199 | a number is narrowed to `long`; a string is parsed by `Long.parseLong`; a boolean is "not a Number" |
| JsonUtils.GetAsBoolean | JsonUtils.java:201-207 | succeeds iff the member is a boolean, returning it |
| JsonUtils.LenientNumbers | JsonUtils.java:166-199 | a number and its decimal string read back as the same `int`/`long`; "4x2" fails with NumberFormatException |
| JsonUtils.GetAsZonedDateTime | JsonUtils.java:177-188 | fewer than three '-'-separated parts is an error; on success the three parts parse to year, month and day |
| JsonUtils.DateRoundTrip | JsonUtils.java:177-188 | "year-month-day" with non-negative numbers reads back as those numbers |
| JsonUtils.LongsToJson | JsonUtils.java:86-96 | a `Long[]` becomes an array of the same length and order |
| JsonUtils.LongHandler | JsonUtils.java:86-96 | the loop appending to a `JsonArray` computes exactly `LongsToJson` |
| JsonUtils.Handle | JsonUtils.java:231-269 | exactly Number, String, Boolean, Inet4Address, JsonElement and `Long[]` have a converter; a JsonElement passes through unchanged |
| JsonUtils.ScalarToJson | JsonUtils.java:217-247 | `null` and an empty `Optional` have no JSON; a present `Optional` is unwrapped; otherwise the handler's JSON, or `NotImplementedException` |
| JsonUtils.LongsOf | JsonUtils.java:384-386 | an array reads as longs exactly when every element does, with the same length and element `i` from element `i` |
| JsonUtils.LongsOfFirstError | JsonUtils.java:384-386 | the first element that cannot be read decides the error |
| JsonUtils.ArrOfLongSpec | JsonUtils.java:372-391 | only a `Long[]` from a JSON array is converted, to the longs of its elements |
| JsonUtils.ArrOfLong | JsonUtils.java:372-391 | the loop filling a `Long[]` computes exactly `ArrOfLongSpec` |
| JsonUtils.CheckRest | JsonUtils.java:344-367 | a value it returns is always of the class asked for; String reads `getAsString`; JsonObject and JsonArray accept exactly their kind, unchanged |
| JsonUtils.ReturnObj | JsonUtils.java:314-342 | a value it returns is always of the class asked for; a number becomes an Integer or Long narrowed to 32 or 64 bits, or a Double; a string is parsed as `parseInt`/`parseLong` parse it; a boolean is a Boolean and never a number; other classes go to `checkRest` |
| JsonUtils.GetAsType | JsonUtils.java:279-309 | a class outside the supported ones is `NotImplementedException`; a supported one is converted by `returnObj` |
| JsonUtils.GetAsTypeOptional | JsonUtils.java:271-277 | without a type the call fails |
| JsonUtils.ScalarRoundTrip | JsonUtils.java:217-391 | every value `getAsType` supports survives encoding and decoding |
| JsonUtils.LongArrayRoundTrip | JsonUtils.java:86-96 | a `Long[]` written by `LongHandler` reads back unchanged |
| JsonUtils.ShortIsWriteOnly | JsonUtils.java:297-309 | a Short is written as a number but no JSON decodes to Short |
| JsonUtils.CheckPrimitive | JsonUtils.java:430-440 | a primitive is added exactly when it is the string equal to the current path step |
| JsonUtils.GetMatchingElements | JsonUtils.java:397-425 | the recursive method with its loop over array elements computes exactly the matching set |
| JsonUtils.HasElement | JsonUtils.java:393-395 | holds iff some element matches |
| JsonUtils.MatchesAreWithin | JsonUtils.java:397-425 | every match lies within the searched element |
| JsonUtils.FollowIsMatched | JsonUtils.java:405-412 | the element reached by following the path through objects is matched |
| BitUtils.GetBitLength | BitUtils.java:22-39 | 16, 32, 64 bits for short, int, long; 1 for boolean; 0 for every other type, never an error |
| BitUtils.ToBytes | BitUtils.java:44-59 | exactly 2, 4 or 8 bytes for short, int, long, holding the two's-complement value big-endian; no bytes for any other type |
| BitUtils.ToObject | BitUtils.java:65-86 | `NotImplementedException` for types without a width; buffer overflow for more bytes than the width; success otherwise |
| BitUtils.ToObjectPadding | BitUtils.java:68-80 | fewer bytes than the width fill the high-order positions, the low-order rest being zero |
| BitUtils.BytesRoundTrip | BitUtils.java:44-81 | `toObject(T, toBytes(v))` is `v`, sign-extended to `long` |
| BitUtils.BitLengthOfBytes | BitUtils.java:22-54 | for short, int and long the bit length is eight times the length of the byte form; boolean is 1 bit with no bytes, so it is outside this lemma |
| BitUtils.BytesToHex | BitUtils.java:88-98 | the string has two characters per byte: the high and low nibble of the unsigned byte, upper case |
| BitUtils.HexRoundTrip | BitUtils.java:88-98 | the hex string reads back to the original bytes |
| Inet4.ParseDotted | ConfigUtils.java:352 | the four-part dotted-quad literal: a text is accepted iff it has four dot-separated decimal parts below 256, which become the octets |
| Inet4.ParseDottedRoundTrip | ConfigUtils.java:352 | an address printed as a dotted quad parses back to itself |
| Text.ParseInt | JsonUtils.java:172 | `Integer.parseInt` succeeds iff the text is a decimal number in the `int` range, and fails with NumberFormatException otherwise |
| Text.ParseLong | JsonUtils.java:196 | `Long.parseLong` succeeds iff the text is a decimal number in the `long` range |
| Text.ParseIntShow | JsonUtils.java:172 | every `int` printed in decimal parses back to itself |
| Text.JavaSplit | JsonUtils.java:179 | `String.split`: the text itself when the separator does not occur; otherwise the pieces between separators, none holding the separator, with trailing empty pieces dropped |
| Text.JoinSplit | JsonUtils.java:179 | joining the pieces of a split with the separator gives the text back |
| Json.Put | ConfigUtils.java:226 | `JsonObject.add` makes the name hold the new value, changes no other name, and replaces in place or appends |
| Json.Get | JsonUtils.java:214 | `JsonObject.get` finds a value exactly when the member exists |
| JavaInts.ToInt32 | JsonUtils.java:169 | narrowing to `int` keeps the value modulo 2^32 and in range unchanged |
| JavaInts.ToInt64 | JsonUtils.java:193 | narrowing to `long` keeps the value modulo 2^64 and in range unchanged |

## Left out

- Floating point: JSON numbers and `Double` values are integers in this model. Fractions and `getAsDouble` rounding are not modelled.
- Inet4From: `Inet4Address.getByName` is modelled on four-part dotted-quad literals only. Everything else it takes is treated as a failure: host names (which need a DNS lookup), IPv6 literals, one- to three-part numeric literals (`"127.1"`, `"10"`), the empty string (loopback), and a JSON number read through `getAsString` (`167772161`).
- ParseDotted: it accepts only the four-part decimal form, and it accepts it at any length. `getByName` also takes one- to three-part numeric literals and the empty string. It does not read a text longer than 15 characters as a literal (`"0000000001.2.3.4"` goes to DNS), which this parser accepts.
- GetAsZonedDateTime: it returns the three numbers handed to `ZonedDateTime.of`. The range checks of that library call and the time zone are not modelled.
- `prettyPrint` (JsonUtils.java:447-451) prints to the console and is not modelled.
- Logging (ConfigUtils.java:111, 394) is not modelled.
- `getAvailableClasses` and `getMembers` (ConfigUtils.java:489-524) scan the class path by reflection and are not modelled.
- LongArrayFromConfig: the reflective lookup of the channel's field and of its generic type (ConfigUtils.java:407-422) is replaced by the channel's `FieldKind`.
- `InjectionUtils.getThingInstance` and `getThingMapsFromConfig` are not part of this model. They are the `factory` and `thingMaps` functions of an `Env`, and either may fail.
- ConfigDecode.Resolve: a Thing made by the factory is registered under the requested id, standing for a Thing constructor that takes its id as its first argument.
- `channel.isReadAllowed(role)` is modelled as membership of the role in the channel's set of readers, so any rule can be expressed.
- CollectionLongArrays: a `HashSet<Long[]>` has no defined iteration order, so the model keeps the rows in input order and its lemma only states the multiset of rows.
- ChannelElement: it compares the default and current value structurally, so `Long[]` values are compared by content where Java's `equals` compares them by identity. A Set is a sequence in iteration order, so two Sets with the same elements in another order differ here, where `Set.equals` ignores order: a Set channel equal to its default as a set but in another order is written in FILE format here and left out in Java. JSON objects are compared member by member in order, where Gson's `JsonObject.equals` ignores member order: a JSON-object channel whose value differs from its default only in member order is written in FILE format here and left out in Java.
- GetMatchingElements: the result is a set of `Json` values with order-sensitive object equality. Java's `HashSet<JsonElement>` uses Gson's `equals`, which ignores member order. Two matches that differ only in member order are two elements here and one in Java.
- ToJson: JVM stack depth is a `depth` fuel. When it runs out, `StackOverflowError` is returned. Encoding a cyclic Thing graph overflows the stack in the source.
- An `Optional` holding `null` cannot occur in Java and is not modelled.
- Strings are sequences of characters. No Unicode handling is modelled.
- `updateValue(value, true)` is modelled as assigning the channel's value. Change listeners and other effects of that call are not part of this model.
- The `throw` statements after the `switch`es in BitUtils.java:41 and 61 are unreachable and are not modelled.
- ToBytes: a `null` value is excluded by its precondition. The source fails with a NullPointerException there.
- There is no concurrency in this code. The model is sequential.

## Findings

| source | as written | input that shows it | evidently intended | confidence | as-written member | corrected member |
|---|---|---|---|---|---|---|
| ConfigUtils.java:185-194 | `checkChan` encodes each channel through `getAsJsonElement(channel, …)`, which reaches `checkOpt` through `optValue`. When `checkOpt` returns null for "nothing to write", the `!= null` test falls through to `throw new NotImplementedException` | a Thing with a readable channel that has no value (or, in FILE format, still has its default value) | the channel is left out of the Thing's JSON, as `checkChan`'s null test (ConfigUtils.java:225) and `checkOpt`'s comments mean | high; not executed | ConfigEncode.UnsetThingRejectedAsWritten | ConfigEncode.UnsetChannelOmitted |
