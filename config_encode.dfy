/** The encoding half of `ConfigUtils`: a value, a Thing with its channels,
    or a collection turned into the JSON of a configuration file or of the
    user interface.

    The Thing repository is read, never changed, while encoding, so it is a
    parameter. Encoding a Thing follows the Things its channels refer to; a
    Thing that refers back to itself makes the Java code recurse until the
    stack overflows. `depth` bounds the nesting of Things and stands for the
    stack: when it runs out, the result is `StackOverflowError`. */
module ConfigEncode {
  import opened Wrappers
  import opened Text
  import opened Json
  import opened ConfigModel
  import JsonUtils

  /** `JsonArray.add(null)` stores a JSON null. */
  function OrNull(e: Option<Json>): Json {
    if e.Some? then e.value else JNull
  }

  /** The member names the encoding of a Thing itself uses. */
  const RESERVED: set<string> := {"id", "alias", "class", "devices"}

  // ---------------------------------------------------------------------
  // Specification
  // ---------------------------------------------------------------------

  /** `getAsJsonElement(value, format, role)`: no JSON for `null` and an empty
      `Optional`; a present `Optional` is unwrapped once. */
  function ToJson(things: Things, fmt: ConfigFormat, role: Role, depth: nat, v: Value): (r: Result<Option<Json>>)
    ensures v.VNull? || v == VOptional(None) ==> r == Ok(None)
    ensures v.VOptional? && v.content.Some? ==> r == Unwrapped(things, fmt, role, depth, v.content.value)
    decreases depth, 0, v, 4
  {
    if v.VNull? || v == VOptional(None) then Ok(None)
    else if v.VOptional? then Unwrapped(things, fmt, role, depth, v.content.value)
    else Unwrapped(things, fmt, role, depth, v)
  }

  /** The rest of `getAsJsonElement` once `value` is unwrapped: the simple
      converters first, then a Thing, then `optValue`; a value none of them
      converts is refused. */
  function Unwrapped(things: Things, fmt: ConfigFormat, role: Role, depth: nat, x: Value): (r: Result<Option<Json>>)
    ensures JsonUtils.ScalarToJson(x) != Err(NotImplementedError) ==> r == JsonUtils.ScalarToJson(x)
    ensures r.Ok? && r.value.None? ==> JsonUtils.ScalarToJson(x) == Ok(None)
    decreases depth, 0, x, 3
  {
    var simple := JsonUtils.ScalarToJson(x);
    if simple != Err(NotImplementedError) then simple
    else Composite(things, fmt, role, depth, x)
  }

  /** A value the simple converters refuse: a Thing becomes its object;
      anything else goes to `optValue`, and a value `optValue`
      has no converter for is refused. */
  function Composite(things: Things, fmt: ConfigFormat, role: Role, depth: nat, x: Value): (r: Result<Option<Json>>)
    ensures r.Ok? ==> r.value.Some?
    decreases depth, 0, x, 2
  {
    if x.VThing? then Present(ThingJson(things, fmt, role, depth, x.thing))
    else
      match CollectionJson(things, fmt, role, depth, x)
      case Ok(Some(j)) => Ok(Some(j))
      case Ok(None) => Err(NotImplementedError)
      case Err(e) => Err(e)
  }

  /** A converted Thing as a present value, or its error. */
  function Present(t: Result<Json>): (r: Result<Option<Json>>)
    ensures r.Ok? <==> t.Ok?
    ensures t.Ok? ==> r.value == Some(t.value)
  {
    if t.Ok? then Ok(Some(t.value)) else Err(t.error)
  }

  /** `optValue(value, format, role)` for the values that are not channels:
      a List or a Set becomes an array, a ThingMap its id; anything else has
      no converter (Java `null`). */
  function CollectionJson(things: Things, fmt: ConfigFormat, role: Role, depth: nat, x: Value): (r: Result<Option<Json>>)
    ensures r.Ok? && r.value.Some? <==> ((x.VList? || x.VSet?) && ListToJson(things, fmt, role, depth, x.elems).Ok?) || x.VThingMap?
    ensures x.VThingMap? ==> r == Ok(Some(JStr(x.mapId)))
    ensures !x.VList? && !x.VSet? && !x.VThingMap? ==> r == Ok(None)
    decreases depth, 0, x, 0
  {
    match x
    case VList(es) => (match ListToJson(things, fmt, role, depth, es) case Ok(a) => Ok(Some(a)) case Err(e) => Err(e))
    case VSet(es) => (match ListToJson(things, fmt, role, depth, es) case Ok(a) => Ok(Some(a)) case Err(e) => Err(e))
    case VThingMap(id) => Ok(Some(JStr(id)))
    case _ => Ok(None)
  }

  /** `addElement` and `addSet`: one array entry per element, in iteration
      order, a JSON null where an element has no JSON; the first element
      that cannot be converted decides the error. */
  function ListToJson(things: Things, fmt: ConfigFormat, role: Role, depth: nat, es: seq<Value>): (r: Result<Json>)
    ensures r.Ok? <==> forall i :: 0 <= i < |es| ==> ToJson(things, fmt, role, depth, es[i]).Ok?
    ensures r.Ok? ==> (r.value.JArr? && |r.value.elems| == |es| &&
      forall i :: 0 <= i < |es| ==> r.value.elems[i] == OrNull(ToJson(things, fmt, role, depth, es[i]).value))
    decreases depth, 0, es, 3
  {
    if es == [] then Ok(JArr([]))
    else
      match ListToJson(things, fmt, role, depth, es[..|es| - 1])
      case Err(e) => Err(e)
      case Ok(init) =>
        assert forall i :: 0 <= i < |es| - 1 ==> es[..|es| - 1][i] == es[i];
        match ToJson(things, fmt, role, depth, es[|es| - 1])
        case Err(e) => Err(e)
        case Ok(last) => Ok(JArr(init.elems + [OrNull(last)]))
  }

  /** `addJ(thing, j, format)`: the id and alias, unless the file format hides
      a generated id (one starting with "_"). */
  function WithIdAndAlias(h: ThingHeader, ms: seq<Member>, fmt: ConfigFormat): seq<Member> {
    if fmt == OpenemsUi || !StartsWith(h.id, "_") then
      Put(Put(ms, "id", JStr(h.id)), "alias", JStr(h.alias))
    else ms
  }

  /** `addJ` followed by the class. */
  function Head(h: ThingHeader, fmt: ConfigFormat): seq<Member> {
    Put(WithIdAndAlias(h, [], fmt), "class", JStr(h.className))
  }

  /** The `devices` array of a Bridge: one id per device, in order. */
  function DeviceArray(ids: seq<string>): (a: Json)
    ensures a.JArr? && |a.elems| == |ids|
    ensures forall i :: 0 <= i < |ids| ==> a.elems[i] == JStr(ids[i])
  {
    if ids == [] then JArr([])
    else
      var init := DeviceArray(ids[..|ids| - 1]);
      assert forall i :: 0 <= i < |ids| - 1 ==> ids[..|ids| - 1][i] == ids[i];
      JArr(init.elems + [JStr(ids[|ids| - 1])])
  }

  /** `addDev(value, j)`: a Bridge gets its `devices`; other Things are left
      as they are. */
  function WithDevices(h: ThingHeader, ms: seq<Member>): seq<Member> {
    match h.devices
    case Some(ids) => Put(ms, "devices", DeviceArray(ids))
    case None => ms
  }

  /** `checkOpt(channel, format, role)`: no JSON for a channel without a value,
      nor, in a file, for one still at its default; otherwise its value's
      JSON. */
  function ChannelElement(things: Things, fmt: ConfigFormat, role: Role, depth: nat, ch: Channel): (r: Result<Option<Json>>)
    ensures ch.value.None? ==> r == Ok(None)
    ensures fmt == File && ch.default == ch.value ==> r == Ok(None)
    ensures ch.value.Some? && !(fmt == File && ch.default == ch.value) ==> r == ToJson(things, fmt, role, depth, ch.value.value)
    decreases depth, 1, VNull, 0
  {
    if ch.value.None? then Ok(None)
    else if fmt == File && ch.default == ch.value then Ok(None)
    else ToJson(things, fmt, role, depth, ch.value.value)
  }

  /** `checkChan(thingRepository, role, j)`, from channel `i` on: each channel
      the role may read and that has JSON is added under its id. */
  function ChannelMembers(things: Things, fmt: ConfigFormat, role: Role, depth: nat, chs: seq<Channel>, i: nat, ms: seq<Member>): Result<seq<Member>>
    requires i <= |chs|
    decreases depth, 2, |chs| - i, 0
  {
    if i == |chs| then Ok(ms)
    else if !ReadAllowed(chs[i], role) then ChannelMembers(things, fmt, role, depth, chs, i + 1, ms)
    else
      match ChannelElement(things, fmt, role, depth, chs[i])
      case Err(e) => Err(e)
      case Ok(None) => ChannelMembers(things, fmt, role, depth, chs, i + 1, ms)
      case Ok(Some(j)) => ChannelMembers(things, fmt, role, depth, chs, i + 1, Put(ms, chs[i].id, j))
  }

  /** The JSON of a Thing met as a value: its object, whose channels are
      converted one level deeper; with the nesting bound spent the stack
      overflows. */
  function ThingJson(things: Things, fmt: ConfigFormat, role: Role, depth: nat, h: ThingHeader): (r: Result<Json>)
    ensures depth == 0 ==> r == Err(StackOverflowError)
    decreases depth, 0, VThing(h), 1
  {
    if depth == 0 then Err(StackOverflowError)
    else ThingObject(things, fmt, role, depth - 1, h)
  }

  /** The object of a Thing: id and alias, the class, the readable channels
      and, for a Bridge, its devices. */
  function ThingObject(things: Things, fmt: ConfigFormat, role: Role, depth: nat, h: ThingHeader): Result<Json>
    decreases depth, 3, VNull, 0
  {
    var head := Head(h, fmt);
    match ChannelMembers(things, fmt, role, depth, ChannelsOf(things, h.id), 0, head)
    case Err(e) => Err(e)
    case Ok(ms) => Ok(JObj(WithDevices(h, ms)))
  }

  // ---------------------------------------------------------------------
  // The Java methods, proved against the specification
  // ---------------------------------------------------------------------

  /** `getAsJsonElement(value, format, role)` */
  method GetAsJsonElement(things: Things, fmt: ConfigFormat, role: Role, depth: nat, v: Value) returns (r: Result<Option<Json>>)
    ensures r == ToJson(things, fmt, role, depth, v)
    decreases depth, 0, v, 4
  {
    if v.VNull? {
      return Ok(None);
    }
    var value := v;
    if v.VOptional? {
      if v.content.None? {
        return Ok(None);
      }
      value := v.content.value;
    }
    r := ConvertUnwrapped(things, fmt, role, depth, value);
  }

  /** `getAsJsonElement` after the `Optional` is unwrapped. */
  method ConvertUnwrapped(things: Things, fmt: ConfigFormat, role: Role, depth: nat, value: Value) returns (r: Result<Option<Json>>)
    ensures r == Unwrapped(things, fmt, role, depth, value)
    decreases depth, 0, value, 3
  {
    var simple := JsonUtils.ScalarToJson(value);
    if simple != Err(NotImplementedError) {
      return simple;
    }
    r := ConvertComposite(things, fmt, role, depth, value);
  }

  /** `getAsJsonElement` once the simple converters refused the value. */
  method ConvertComposite(things: Things, fmt: ConfigFormat, role: Role, depth: nat, value: Value) returns (r: Result<Option<Json>>)
    ensures r == Composite(things, fmt, role, depth, value)
    decreases depth, 0, value, 2
  {
    if value.VThing? {
      var j := EncodeThing(things, fmt, role, depth, value.thing);
      return Present(j);
    }
    var opt := OptValue(things, fmt, role, depth, value);
    match opt
    case Ok(Some(j)) => return Ok(Some(j));
    case Ok(None) => return Err(NotImplementedError);
    case Err(e) => return Err(e);
  }

  /** `optValue(value, format, role)` for a value that is not a channel. */
  method OptValue(things: Things, fmt: ConfigFormat, role: Role, depth: nat, value: Value) returns (r: Result<Option<Json>>)
    ensures r == CollectionJson(things, fmt, role, depth, value)
    decreases depth, 0, value, 0
  {
    match value
    case VList(es) =>
      var a := AddElement(things, fmt, role, depth, es);
      r := if a.Ok? then Ok(Some(a.value)) else Err(a.error);
    case VSet(es) =>
      var a := AddElement(things, fmt, role, depth, es);
      r := if a.Ok? then Ok(Some(a.value)) else Err(a.error);
    case VThingMap(id) =>
      r := Ok(Some(JStr(id)));
    case _ =>
      r := Ok(None);
  }

  /** `addElement(value, jArray)` and `addSet(value, jArray)`, appending to a
      fresh `JsonArray`. */
  method AddElement(things: Things, fmt: ConfigFormat, role: Role, depth: nat, es: seq<Value>) returns (r: Result<Json>)
    ensures r == ListToJson(things, fmt, role, depth, es)
    decreases depth, 0, es, 3
  {
    var jArray: seq<Json> := [];
    for i := 0 to |es|
      invariant ListToJson(things, fmt, role, depth, es[..i]) == Ok(JArr(jArray))
    {
      var e := GetAsJsonElement(things, fmt, role, depth, es[i]);
      ListSnoc(things, fmt, role, depth, es, i, jArray, e);
      if e.Err? {
        ListPrefixError(things, fmt, role, depth, es, i + 1);
        return Err(e.error);
      }
      jArray := jArray + [OrNull(e.value)];
    }
    assert es[..|es|] == es;
    r := Ok(JArr(jArray));
  }

  /** Converting one more element extends the array by its entry. */
  lemma ListSnoc(things: Things, fmt: ConfigFormat, role: Role, depth: nat, es: seq<Value>, i: nat, init: seq<Json>, e: Result<Option<Json>>)
    requires i < |es| && ListToJson(things, fmt, role, depth, es[..i]) == Ok(JArr(init))
    requires e == ToJson(things, fmt, role, depth, es[i])
    ensures e.Err? ==> ListToJson(things, fmt, role, depth, es[..i + 1]) == Err(e.error)
    ensures e.Ok? ==> ListToJson(things, fmt, role, depth, es[..i + 1]) == Ok(JArr(init + [OrNull(e.value)]))
  {
    assert es[..i + 1][..i] == es[..i];
    assert es[..i + 1][i] == es[i];
  }

  /** The error a prefix of the elements runs into is the error of the whole
      list. */
  lemma {:induction false} ListPrefixError(things: Things, fmt: ConfigFormat, role: Role, depth: nat, es: seq<Value>, n: nat)
    requires n <= |es| && ListToJson(things, fmt, role, depth, es[..n]).Err?
    ensures ListToJson(things, fmt, role, depth, es) == ListToJson(things, fmt, role, depth, es[..n])
    decreases |es| - n
  {
    if n < |es| {
      assert es[..n + 1][..n] == es[..n];
      ListPrefixError(things, fmt, role, depth, es, n + 1);
    } else {
      assert es[..n] == es;
    }
  }

  /** The Thing branch of `getAsJsonElement`: `addJ`, the class, `checkChan`
      and `addDev`. */
  method EncodeThing(things: Things, fmt: ConfigFormat, role: Role, depth: nat, h: ThingHeader) returns (r: Result<Json>)
    ensures r == ThingJson(things, fmt, role, depth, h)
    decreases depth, 0, VThing(h), 1
  {
    if depth == 0 {
      return Err(StackOverflowError);
    }
    var j := WithIdAndAlias(h, [], fmt);
    j := Put(j, "class", JStr(h.className));
    var checked := CheckChan(things, fmt, role, depth - 1, h, j);
    if checked.Err? {
      return Err(checked.error);
    }
    j := AddDev(h, checked.value);
    r := Ok(JObj(j));
  }

  /** `checkChan(thingRepository, role, j)` */
  method CheckChan(things: Things, fmt: ConfigFormat, role: Role, depth: nat, h: ThingHeader, j: seq<Member>) returns (r: Result<seq<Member>>)
    ensures r == ChannelMembers(things, fmt, role, depth, ChannelsOf(things, h.id), 0, j)
    decreases depth, 2, |ChannelsOf(things, h.id)|, 1
  {
    var chs := ChannelsOf(things, h.id);
    var ms := j;
    for i := 0 to |chs|
      invariant ChannelMembers(things, fmt, role, depth, chs, 0, j) == ChannelMembers(things, fmt, role, depth, chs, i, ms)
    {
      var channel := chs[i];
      if ReadAllowed(channel, role) {
        var jChannel := CheckOpt(things, fmt, role, depth, channel);
        if jChannel.Err? {
          return Err(jChannel.error);
        }
        if jChannel.value.Some? {
          ms := Put(ms, channel.id, jChannel.value.value);
        }
      }
    }
    r := Ok(ms);
  }

  /** `checkOpt(channel, format, role)` */
  method CheckOpt(things: Things, fmt: ConfigFormat, role: Role, depth: nat, channel: Channel) returns (r: Result<Option<Json>>)
    ensures r == ChannelElement(things, fmt, role, depth, channel)
    decreases depth, 1, VNull, 0
  {
    if channel.value.None? {
      return Ok(None);
    }
    if fmt == File && channel.default == channel.value {
      return Ok(None);
    }
    r := GetAsJsonElement(things, fmt, role, depth, channel.value.value);
  }

  /** `addDev(value, j)`, collecting the device ids into a fresh array. */
  method AddDev(h: ThingHeader, j: seq<Member>) returns (r: seq<Member>)
    ensures r == WithDevices(h, j)
  {
    r := j;
    if h.devices.Some? {
      var ids := h.devices.value;
      var jDevices: seq<Json> := [];
      for i := 0 to |ids|
        invariant jDevices == DeviceArray(ids[..i]).elems
      {
        assert ids[..i + 1][..i] == ids[..i];
        jDevices := jDevices + [JStr(ids[i])];
      }
      assert ids[..|ids|] == ids;
      r := Put(r, "devices", JArr(jDevices));
    }
  }

  // ---------------------------------------------------------------------
  // Properties
  // ---------------------------------------------------------------------

  /** No two channels share an id. */
  predicate DistinctIds(chs: seq<Channel>) {
    forall a, b :: 0 <= a < b < |chs| ==> chs[a].id != chs[b].id
  }

  /** The JSON a channel contributes to its Thing, if any. */
  function Contribution(things: Things, fmt: ConfigFormat, role: Role, depth: nat, ch: Channel): Option<Json>
    requires ReadAllowed(ch, role) ==> ChannelElement(things, fmt, role, depth, ch).Ok?
  {
    if ReadAllowed(ch, role) then ChannelElement(things, fmt, role, depth, ch).value else None
  }

  /** `checkChan` succeeds exactly when every channel the role may read
      converts. */
  lemma {:induction false} ChannelMembersOk(things: Things, fmt: ConfigFormat, role: Role, depth: nat, chs: seq<Channel>, i: nat, ms: seq<Member>)
    requires i <= |chs|
    ensures ChannelMembers(things, fmt, role, depth, chs, i, ms).Ok? <==>
      forall k :: i <= k < |chs| && ReadAllowed(chs[k], role) ==> ChannelElement(things, fmt, role, depth, chs[k]).Ok?
    decreases |chs| - i
  {
    if i < |chs| {
      var e := ChannelElement(things, fmt, role, depth, chs[i]);
      var next := if ReadAllowed(chs[i], role) && e.Ok? && e.value.Some? then Put(ms, chs[i].id, e.value.value) else ms;
      ChannelMembersOk(things, fmt, role, depth, chs, i + 1, next);
    }
  }

  /** `checkChan` leaves alone every member no channel is named after. */
  lemma {:induction false} ChannelMembersKeep(things: Things, fmt: ConfigFormat, role: Role, depth: nat, chs: seq<Channel>, i: nat, ms: seq<Member>, n: string)
    requires i <= |chs| && ChannelMembers(things, fmt, role, depth, chs, i, ms).Ok?
    requires forall k :: i <= k < |chs| ==> chs[k].id != n
    ensures Get(ChannelMembers(things, fmt, role, depth, chs, i, ms).value, n) == Get(ms, n)
    decreases |chs| - i
  {
    if i < |chs| {
      var e := ChannelElement(things, fmt, role, depth, chs[i]);
      var next := if ReadAllowed(chs[i], role) && e.Ok? && e.value.Some? then Put(ms, chs[i].id, e.value.value) else ms;
      ChannelMembersKeep(things, fmt, role, depth, chs, i + 1, next, n);
    }
  }

  /** After `checkChan`, a channel's id holds the channel's JSON when the
      role may read it and it has some, and what it held before otherwise. */
  lemma {:induction false} ChannelMembersSet(things: Things, fmt: ConfigFormat, role: Role, depth: nat, chs: seq<Channel>, i: nat, ms: seq<Member>, k: nat)
    requires i <= k < |chs| && DistinctIds(chs)
    requires ChannelMembers(things, fmt, role, depth, chs, i, ms).Ok?
    ensures ReadAllowed(chs[k], role) ==> ChannelElement(things, fmt, role, depth, chs[k]).Ok?
    ensures Get(ChannelMembers(things, fmt, role, depth, chs, i, ms).value, chs[k].id) ==
      (match Contribution(things, fmt, role, depth, chs[k])
       case Some(j) => Some(j)
       case None => Get(ms, chs[k].id))
    decreases |chs| - i
  {
    ChannelMembersOk(things, fmt, role, depth, chs, i, ms);
    var e := ChannelElement(things, fmt, role, depth, chs[i]);
    var next := if ReadAllowed(chs[i], role) && e.Ok? && e.value.Some? then Put(ms, chs[i].id, e.value.value) else ms;
    if k == i {
      ChannelMembersKeep(things, fmt, role, depth, chs, i + 1, next, chs[i].id);
    } else {
      ChannelMembersSet(things, fmt, role, depth, chs, i + 1, next, k);
      assert chs[i].id != chs[k].id;
    }
  }

  /** Whether `addJ` writes the id and alias. */
  predicate ShowsId(h: ThingHeader, fmt: ConfigFormat) {
    fmt == OpenemsUi || !StartsWith(h.id, "_")
  }

  /** The members a Thing's JSON holds before its channels: what `addJ`
      writes and the class. */
  lemma HeadFacts(h: ThingHeader, fmt: ConfigFormat)
    ensures var head := Head(h, fmt);
      Get(head, "class") == Some(JStr(h.className)) &&
      (Has(head, "id") <==> ShowsId(h, fmt)) &&
      (Has(head, "alias") <==> ShowsId(h, fmt)) &&
      (ShowsId(h, fmt) ==> Get(head, "id") == Some(JStr(h.id)) && Get(head, "alias") == Some(JStr(h.alias))) &&
      Get(head, "devices") == None &&
      forall n :: n !in RESERVED ==> Get(head, n) == None
  {
    var none: seq<Member> := [];
    assert forall n :: Get(none, n) == None;
    assert "id" != "alias" && "id" != "class" && "alias" != "class" && "devices" != "class";
    if ShowsId(h, fmt) {
      var withId := Put(none, "id", JStr(h.id));
      var withAlias := Put(withId, "alias", JStr(h.alias));
      assert Head(h, fmt) == Put(withAlias, "class", JStr(h.className));
      assert "devices" != "id" && "devices" != "alias";
    } else {
      assert Head(h, fmt) == Put(none, "class", JStr(h.className));
    }
  }

  /** `addDev` sets `devices` for a Bridge and nothing else. */
  lemma DevicesFacts(h: ThingHeader, ms: seq<Member>)
    ensures Get(WithDevices(h, ms), "devices") ==
      if h.devices.Some? then Some(DeviceArray(h.devices.value)) else Get(ms, "devices")
    ensures forall n :: n != "devices" ==> Get(WithDevices(h, ms), n) == Get(ms, n)
  {
  }

  /** Building a Thing's object fails exactly when a channel the role may
      read cannot be converted. */
  lemma ThingObjectOk(things: Things, fmt: ConfigFormat, role: Role, depth: nat, h: ThingHeader)
    ensures ThingObject(things, fmt, role, depth, h).Ok? <==>
      forall k :: 0 <= k < |ChannelsOf(things, h.id)| && ReadAllowed(ChannelsOf(things, h.id)[k], role) ==>
        ChannelElement(things, fmt, role, depth, ChannelsOf(things, h.id)[k]).Ok?
  {
    ChannelMembersOk(things, fmt, role, depth, ChannelsOf(things, h.id), 0, Head(h, fmt));
  }

  /** The members a Thing's JSON holds besides its channels, when no channel
      uses a reserved name: `id` and `alias` exactly when the UI format is
      asked for or the id is not generated, always the class, and `devices`
      exactly for a Bridge. */
  lemma ThingObjectHeader(things: Things, fmt: ConfigFormat, role: Role, depth: nat, h: ThingHeader)
    requires DistinctIds(ChannelsOf(things, h.id))
    requires forall k :: 0 <= k < |ChannelsOf(things, h.id)| ==> ChannelsOf(things, h.id)[k].id !in RESERVED
    requires ThingObject(things, fmt, role, depth, h).Ok?
    ensures var o := ThingObject(things, fmt, role, depth, h).value;
      o.JObj? &&
      (Has(o.members, "id") <==> ShowsId(h, fmt)) &&
      (Has(o.members, "alias") <==> ShowsId(h, fmt)) &&
      (ShowsId(h, fmt) ==> Get(o.members, "id") == Some(JStr(h.id)) && Get(o.members, "alias") == Some(JStr(h.alias))) &&
      Get(o.members, "class") == Some(JStr(h.className)) &&
      Get(o.members, "devices") == (if h.devices.Some? then Some(DeviceArray(h.devices.value)) else None)
  {
    var chs := ChannelsOf(things, h.id);
    var head := Head(h, fmt);
    var r := ChannelMembers(things, fmt, role, depth, chs, 0, head).value;
    assert ThingObject(things, fmt, role, depth, h).value == JObj(WithDevices(h, r));
    forall n | n in RESERVED ensures Get(r, n) == Get(head, n) {
      ChannelMembersKeep(things, fmt, role, depth, chs, 0, head, n);
    }
    HeadFacts(h, fmt);
    DevicesFacts(h, r);
  }

  /** In a Thing's JSON each readable channel that has JSON appears under its
      id, and no other channel does. */
  lemma ThingObjectChannels(things: Things, fmt: ConfigFormat, role: Role, depth: nat, h: ThingHeader, k: nat)
    requires DistinctIds(ChannelsOf(things, h.id))
    requires forall k :: 0 <= k < |ChannelsOf(things, h.id)| ==> ChannelsOf(things, h.id)[k].id !in RESERVED
    requires ThingObject(things, fmt, role, depth, h).Ok?
    requires k < |ChannelsOf(things, h.id)|
    ensures var ch := ChannelsOf(things, h.id)[k];
      (ReadAllowed(ch, role) ==> ChannelElement(things, fmt, role, depth, ch).Ok?) &&
      Get(ThingObject(things, fmt, role, depth, h).value.members, ch.id) == Contribution(things, fmt, role, depth, ch)
  {
    var chs := ChannelsOf(things, h.id);
    var head := Head(h, fmt);
    ChannelMembersSet(things, fmt, role, depth, chs, 0, head, k);
    var r := ChannelMembers(things, fmt, role, depth, chs, 0, head).value;
    assert ThingObject(things, fmt, role, depth, h).value == JObj(WithDevices(h, r));
    HeadFacts(h, fmt);
    DevicesFacts(h, r);
    assert chs[k].id !in RESERVED;
    assert Get(head, chs[k].id) == None;
  }

  /** A List or a Set becomes an array with one entry per element, in
      order. */
  lemma CollectionIsArray(things: Things, fmt: ConfigFormat, role: Role, depth: nat, x: Value)
    requires x.VList? || x.VSet?
    requires forall i :: 0 <= i < |x.elems| ==> ToJson(things, fmt, role, depth, x.elems[i]).Ok?
    ensures ToJson(things, fmt, role, depth, x).Ok?
    ensures var a := ToJson(things, fmt, role, depth, x).value;
      a.Some? && a.value.JArr? && |a.value.elems| == |x.elems| &&
      forall i :: 0 <= i < |x.elems| ==> a.value.elems[i] == OrNull(ToJson(things, fmt, role, depth, x.elems[i]).value)
  {
    assert ToJson(things, fmt, role, depth, x) == Unwrapped(things, fmt, role, depth, x);
    assert Unwrapped(things, fmt, role, depth, x) == CollectionJson(things, fmt, role, depth, x);
  }

  /** A value with neither a simple converter nor a Thing, List, Set or
      ThingMap form is refused. */
  lemma UnconvertibleRefused(things: Things, fmt: ConfigFormat, role: Role, depth: nat, x: Value)
    requires !JsonUtils.HasHandler(x) && !x.VNull? && !x.VOptional?
    requires !x.VThing? && !x.VList? && !x.VSet? && !x.VThingMap?
    ensures ToJson(things, fmt, role, depth, x) == Err(NotImplementedError)
  {
    assert ToJson(things, fmt, role, depth, x) == Composite(things, fmt, role, depth, x);
    assert CollectionJson(things, fmt, role, depth, x) == Ok(None);
  }

  // ---------------------------------------------------------------------
  // The channel branch as written
  // ---------------------------------------------------------------------

  /** `getAsJsonElement(channel, format, role)` as the code stands: the
      channel goes through `optValue` to `checkOpt`, but a `null` from
      `checkOpt` is taken for "no converter" and turned into
      `NotImplementedException`. */
  function ChannelElementAsWritten(things: Things, fmt: ConfigFormat, role: Role, depth: nat, ch: Channel): (r: Result<Option<Json>>)
    ensures r.Ok? ==> r.value.Some?
  {
    match ChannelElement(things, fmt, role, depth, ch)
    case Ok(None) => Err(NotImplementedError)
    case other => other
  }

  /** As written, a channel without a value is refused, while `checkOpt`
      means to give it no JSON. */
  lemma UnsetChannelRejectedAsWritten(things: Things, fmt: ConfigFormat, role: Role, depth: nat, ch: Channel)
    requires ch.value.None?
    ensures ChannelElementAsWritten(things, fmt, role, depth, ch) == Err(NotImplementedError)
    ensures ChannelElement(things, fmt, role, depth, ch) == Ok(None)
  {
  }

  /** `checkChan` as the code stands: each readable channel goes through
      `ChannelElementAsWritten`. */
  function ChannelMembersAsWritten(things: Things, fmt: ConfigFormat, role: Role, depth: nat, chs: seq<Channel>, i: nat, ms: seq<Member>): Result<seq<Member>>
    requires i <= |chs|
    decreases |chs| - i
  {
    if i == |chs| then Ok(ms)
    else if !ReadAllowed(chs[i], role) then ChannelMembersAsWritten(things, fmt, role, depth, chs, i + 1, ms)
    else
      match ChannelElementAsWritten(things, fmt, role, depth, chs[i])
      case Err(e) => Err(e)
      case Ok(o) => ChannelMembersAsWritten(things, fmt, role, depth, chs, i + 1, Put(ms, chs[i].id, o.value))
  }

  /** The object of a Thing as the code stands. */
  function ThingObjectAsWritten(things: Things, fmt: ConfigFormat, role: Role, depth: nat, h: ThingHeader): Result<Json> {
    match ChannelMembersAsWritten(things, fmt, role, depth, ChannelsOf(things, h.id), 0, Head(h, fmt))
    case Err(e) => Err(e)
    case Ok(ms) => Ok(JObj(WithDevices(h, ms)))
  }

  /** As written, `checkChan` gets through only when every channel the role
      may read has JSON: one that `checkOpt` leaves out stops it. */
  lemma {:induction false} ChannelMembersAsWrittenNeedJson(things: Things, fmt: ConfigFormat, role: Role, depth: nat, chs: seq<Channel>, i: nat, ms: seq<Member>, k: nat)
    requires i <= k < |chs| && ReadAllowed(chs[k], role)
    requires ChannelMembersAsWritten(things, fmt, role, depth, chs, i, ms).Ok?
    ensures ChannelElement(things, fmt, role, depth, chs[k]).Ok?
    ensures ChannelElement(things, fmt, role, depth, chs[k]).value.Some?
    decreases |chs| - i
  {
    if k != i {
      var e := ChannelElementAsWritten(things, fmt, role, depth, chs[i]);
      var next := if ReadAllowed(chs[i], role) then Put(ms, chs[i].id, e.value.value) else ms;
      ChannelMembersAsWrittenNeedJson(things, fmt, role, depth, chs, i + 1, next, k);
    }
  }

  /** As written, a Thing encodes only when every channel the role may read
      has JSON, where `checkChan` means to leave out those without. */
  lemma ThingObjectAsWrittenNeedsJson(things: Things, fmt: ConfigFormat, role: Role, depth: nat, h: ThingHeader, k: nat)
    requires ThingObjectAsWritten(things, fmt, role, depth, h).Ok?
    requires k < |ChannelsOf(things, h.id)| && ReadAllowed(ChannelsOf(things, h.id)[k], role)
    ensures ChannelElement(things, fmt, role, depth, ChannelsOf(things, h.id)[k]).Ok?
    ensures ChannelElement(things, fmt, role, depth, ChannelsOf(things, h.id)[k]).value.Some?
  {
    ChannelMembersAsWrittenNeedJson(things, fmt, role, depth, ChannelsOf(things, h.id), 0, Head(h, fmt), k);
  }

  /** As written, a Thing whose only channel is readable and has no value
      fails to encode as a whole; the intended behaviour gives its header
      alone. */
  lemma UnsetThingRejectedAsWritten(fmt: ConfigFormat, role: Role, depth: nat, h: ThingHeader, ch: Channel)
    requires ch.value.None? && h.devices.None? && ReadAllowed(ch, role)
    ensures ThingObjectAsWritten(map[h.id := Thing(h, [ch])], fmt, role, depth, h) == Err(NotImplementedError)
    ensures ThingObject(map[h.id := Thing(h, [ch])], fmt, role, depth, h) == Ok(JObj(Head(h, fmt)))
  {
    var things := map[h.id := Thing(h, [ch])];
    assert ChannelsOf(things, h.id) == [ch];
    UnsetChannelRejectedAsWritten(things, fmt, role, depth, ch);
    UnsetChannelOmitted(fmt, role, depth, h, ch);
  }

  /** With the intended behaviour a Thing whose only channel has no value
      encodes to its header alone. */
  lemma UnsetChannelOmitted(fmt: ConfigFormat, role: Role, depth: nat, h: ThingHeader, ch: Channel)
    requires ch.value.None? && h.devices.None? && ReadAllowed(ch, role)
    ensures ThingObject(map[h.id := Thing(h, [ch])], fmt, role, depth, h)
         == Ok(JObj(Head(h, fmt)))
  {
    var things := map[h.id := Thing(h, [ch])];
    var head := Head(h, fmt);
    assert ChannelsOf(things, h.id) == [ch];
    assert ChannelMembers(things, fmt, role, depth, [ch], 1, head) == Ok(head);
  }
}
