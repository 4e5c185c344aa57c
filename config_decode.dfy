/** The decoding half of `ConfigUtils`: a JSON configuration injected into
    the config channels of a Thing, creating and registering the Things it
    refers to on the way.

    The Thing repository is a `Registry` object whose map the methods
    update; the functions beside them say, state in and state out, what
    each method does. Creating a Thing from its class (`getThingInstance`)
    and reading a ThingMap (`getThingMapsFromConfig`) happen in code this
    model does not contain, so they are the two functions of an `Env`. */
module ConfigDecode {
  import opened Wrappers
  import opened JavaInts
  import opened Json
  import opened Inet4
  import opened ConfigModel
  import JsonUtils

  /** The calls into code outside the core: building a Thing of a class
      from constructor arguments, and decoding a ThingMap. Either may fail. */
  datatype Env = Env(
    factory: (string, seq<Value>) -> Result<Thing>,
    thingMaps: (Things, Channel, Json) -> Result<Value>)

  /** The outcome of an injection and the repository it leaves behind. */
  datatype Injected = Injected(outcome: Outcome, things: Things)

  /** A decoded value and the repository it leaves behind. */
  datatype Decoded = Decoded(result: Result<Value>, things: Things)

  // ---------------------------------------------------------------------
  // How the repository may change
  // ---------------------------------------------------------------------

  /** A channel `b` is `a` with perhaps a new value, and keeps a value once
      it has one. */
  predicate Refines(a: Channel, b: Channel) {
    b == a.(value := b.value) && (a.value.Some? ==> b.value.Some?)
  }

  /** Decoding only adds Things and assigns channel values: every registered
      Thing stays, with its header and its channels. */
  ghost predicate Evolves(a: Things, b: Things) {
    forall id :: id in a ==>
      id in b && b[id].header == a[id].header && |b[id].channels| == |a[id].channels| &&
      forall k :: 0 <= k < |a[id].channels| ==> Refines(a[id].channels[k], b[id].channels[k])
  }

  lemma EvolvesTrans(a: Things, b: Things, c: Things)
    requires Evolves(a, b) && Evolves(b, c)
    ensures Evolves(a, c)
  {
    forall id | id in a
      ensures id in c && c[id].header == a[id].header && |c[id].channels| == |a[id].channels|
      ensures forall k :: 0 <= k < |a[id].channels| ==> Refines(a[id].channels[k], c[id].channels[k])
    {
      assert id in b;
      forall k | 0 <= k < |a[id].channels|
        ensures Refines(a[id].channels[k], c[id].channels[k])
      {
        assert Refines(a[id].channels[k], b[id].channels[k]);
        assert Refines(b[id].channels[k], c[id].channels[k]);
      }
    }
  }

  lemma EvolvesRefl(a: Things)
    ensures Evolves(a, a)
  {
  }

  /** Decoding never loses a Thing nor changes how many channels one has:
      the part of `Evolves` the decoding functions need to be well-defined. */
  ghost predicate Keeps(a: Things, b: Things) {
    forall id :: id in a ==> id in b && |b[id].channels| == |a[id].channels|
  }

  lemma KeepsTrans(a: Things, b: Things, c: Things)
    requires Keeps(a, b) && Keeps(b, c)
    ensures Keeps(a, c)
  {
  }

  /** `channel.updateValue(value, true)` on the `k`-th channel of a Thing. */
  function SetValue(t: Thing, k: nat, v: Value): (u: Thing)
    requires k < |t.channels|
    ensures u.header == t.header && |u.channels| == |t.channels|
    ensures u.channels[k] == t.channels[k].(value := Some(v))
    ensures forall c :: 0 <= c < |t.channels| && c != k ==> u.channels[c] == t.channels[c]
  {
    Thing(t.header, t.channels[k := t.channels[k].(value := Some(v))])
  }

  lemma SetValueEvolves(things: Things, owner: string, k: nat, v: Value)
    requires owner in things && k < |things[owner].channels|
    ensures Evolves(things, things[owner := SetValue(things[owner], k, v)])
    ensures Registered(things) ==> Registered(things[owner := SetValue(things[owner], k, v)])
  {
    var u := things[owner := SetValue(things[owner], k, v)];
    forall id | id in things
      ensures forall c :: 0 <= c < |things[id].channels| ==> Refines(things[id].channels[c], u[id].channels[c])
    {
      if id == owner {
        forall c | 0 <= c < |things[id].channels|
          ensures Refines(things[id].channels[c], u[id].channels[c])
        {
          if c != k {
            assert u[id].channels[c] == things[id].channels[c];
          }
        }
      }
    }
  }

  // ---------------------------------------------------------------------
  // Specification
  // ---------------------------------------------------------------------

  /** The channel is left alone: it is not configured, and it has a value
      already or may stay unset. */
  predicate Skipped(ch: Channel, j: Json)
    requires j.JObj?
  {
    !Has(j.members, ch.id) && (ch.value.Some? || ch.optional)
  }

  /** `injectConfigChannels(channels, jConfig, args)` for the channels of
      `owner` from position `k` on, stopping at the first failure. */
  function InjectAll(env: Env, things: Things, owner: string, j: Json, extra: seq<Value>, k: nat): (r: Injected)
    requires owner in things && k <= |things[owner].channels| && j.JObj?
    ensures Keeps(things, r.things)
    ensures owner in r.things && |r.things[owner].channels| == |things[owner].channels|
    decreases j, 2, |things[owner].channels| - k
  {
    if k == |things[owner].channels| then Injected(Pass, things)
    else
      var r1 := InjectOne(env, things, owner, k, j, extra);
      if r1.outcome.Fail? then r1
      else
        var r2 := InjectAll(env, r1.things, owner, j, extra, k + 1);
        KeepsTrans(things, r1.things, r2.things);
        r2
  }

  /** The loop of `injectConfigChannels` goes on after a pass and stops at a
      failure. */
  lemma InjectAllStep(env: Env, things: Things, owner: string, j: Json, extra: seq<Value>, k: nat, r1: Injected)
    requires owner in things && k < |things[owner].channels| && j.JObj?
    requires r1 == InjectOne(env, things, owner, k, j, extra)
    ensures r1.outcome.Fail? ==> InjectAll(env, things, owner, j, extra, k) == r1
    ensures r1.outcome.Pass? ==> InjectAll(env, things, owner, j, extra, k) == InjectAll(env, r1.things, owner, j, extra, k + 1)
  {
  }

  /** One pass of the loop of `injectConfigChannels`: the `k`-th channel of
      `owner` is skipped, or its member is fetched with `getSubElement`,
      decoded and assigned. */
  function InjectOne(env: Env, things: Things, owner: string, k: nat, j: Json, extra: seq<Value>): (r: Injected)
    requires owner in things && k < |things[owner].channels| && j.JObj?
    ensures Keeps(things, r.things)
    ensures owner in r.things && |r.things[owner].channels| == |things[owner].channels|
    decreases j, 1, 0
  {
    var ch := things[owner].channels[k];
    if Skipped(ch, j) then Injected(Pass, things)
    else
      match Find(j.members, ch.id)
      case None => Injected(Fail(ReflectionError(Missing(ch.id))), things)
      case Some(i) =>
        var d := ConfigObject(env, things, ch, j.members[i].value, extra);
        if d.result.Err? then Injected(Fail(d.result.error), d.things)
        else
          var t := d.things[owner := SetValue(d.things[owner], k, d.result.value)];
          KeepsTrans(things, d.things, t);
          Injected(Pass, t)
  }

  /** `Inet4Address.getByName(j.getAsString())`, restricted to the
      four-part dotted-quad literal; any other text is refused here. */
  function Inet4From(e: Json): (r: Result<Value>)
    ensures r.Ok? <==> ElementAsString(e).Ok? && ParseDotted(ElementAsString(e).value).Some?
    ensures r.Ok? ==> r.value == VInet4(ParseDotted(ElementAsString(e).value).value)
    ensures ElementAsString(e).Ok? && r.Err? ==> r.error == ReflectionError(NotAnIpv4Address)
  {
    var s :- ElementAsString(e);
    match ParseDotted(s)
    case Some(a) => Ok(VInet4(a))
    case None => Err(ReflectionError(NotAnIpv4Address))
  }

  /** `getConfigObject(channel, j, args)`: the declared type must be set
      (`checkTypeOpt`); the simple converters go first, then a Thing, a
      ThingMap, an IPv4 address and `Long[]`, in that order. */
  function ConfigObject(env: Env, things: Things, ch: Channel, e: Json, extra: seq<Value>): (r: Decoded)
    ensures Keeps(things, r.things)
    decreases e, 4, 0
  {
    match ch.declared
    case None => Decoded(Err(ReflectionError(ChannelTypeNotSet)), things)
    case Some(t) =>
      var simple := JsonUtils.GetAsType(t, e);
      if simple != Err(NotImplementedError) then Decoded(simple, things)
      else if t.TThing? then ThingFrom(env, things, t.className, e, extra)
      else if t == TThingMap then Decoded(env.thingMaps(things, ch, e), things)
      else if t == TInet4Address then Decoded(Inet4From(e), things)
      else if t == TArray(TLong) then Decoded(LongArrayFromConfig(ch.field, e), things)
      else Decoded(Err(ReflectionError(NoMatchingType)), things)
  }

  /** The Thing registered under `id`, created with `[id] ++ extra` and
      registered when there is none. */
  function Resolve(env: Env, things: Things, cls: string, id: string, extra: seq<Value>): (r: Result<Things>)
    ensures r.Ok? ==> id in r.value && Keeps(things, r.value)
  {
    if id in things then Ok(things)
    else
      var t :- env.factory(cls, [VString(id)] + extra);
      Ok(things[id := Thing(t.header.(id := id), t.channels)])
  }

  /** `getThingFromConfig(type, j, args)`: the Thing named by the `id`
      member, reused or newly registered, with its channels then injected
      from `j`. */
  function ThingFrom(env: Env, things: Things, cls: string, e: Json, extra: seq<Value>): (r: Decoded)
    ensures Keeps(things, r.things)
    decreases e, 3, 0
  {
    var id := JsonUtils.GetAsStringMember(e, "id");
    if id.Err? then Decoded(Err(id.error), things)
    else
      match Resolve(env, things, cls, id.value, extra)
      case Err(err) => Decoded(Err(err), things)
      case Ok(t1) =>
        var r := InjectAll(env, t1, id.value, e, [], 0);
        KeepsTrans(things, t1, r.things);
        if r.outcome.Fail? then Decoded(Err(r.outcome.error), r.things)
        else Decoded(Ok(VThing(r.things[id.value].header)), r.things)
  }

  /** The rows of a two-dimensional array (`function`): each must be an
      array, read element by element with `getAsLong`. */
  function RowsOf(rows: seq<Json>): (r: Result<seq<seq<Int64>>>)
    ensures r.Ok? <==> forall i :: 0 <= i < |rows| ==> rows[i].JArr? && JsonUtils.LongsOf(rows[i].elems).Ok?
    ensures r.Ok? ==> (|r.value| == |rows| &&
      forall i :: 0 <= i < |rows| ==> r.value[i] == JsonUtils.LongsOf(rows[i].elems).value)
  {
    if rows == [] then Ok([])
    else
      var init :- RowsOf(rows[..|rows| - 1]);
      assert forall i :: 0 <= i < |rows| - 1 ==> rows[..|rows| - 1][i] == rows[i];
      var last := rows[|rows| - 1];
      if !last.JArr? then Err(ReflectionError(NotTwoDimensional))
      else
        var ls :- JsonUtils.LongsOf(last.elems);
        Ok(init + [ls])
  }

  function AsLongArrays(rows: seq<seq<Int64>>): (vs: seq<Value>)
    ensures |vs| == |rows| && forall i :: 0 <= i < |rows| ==> vs[i] == VLongArray(rows[i])
  {
    seq(|rows|, i requires 0 <= i < |rows| => VLongArray(rows[i]))
  }

  /** `getLongArrayFromConfig(channel, j)`: by the kind of field behind the
      channel, a `Long[]` from an array, or a Set or List of `Long[]` from an
      array of arrays. */
  function LongArrayFromConfig(field: FieldKind, e: Json): (r: Result<Value>)
    ensures field == NoSuchField ==> r == Err(ReflectionError(NoFieldForChannel))
    ensures field != NoSuchField && !e.JArr? ==> r == Err(ReflectionError(NotAnArray))
  {
    match field
    case NoSuchField => Err(ReflectionError(NoFieldForChannel))
    case PlainField =>
      if !e.JArr? then Err(ReflectionError(NotAnArray))
      else
        var ls :- JsonUtils.LongsOf(e.elems);
        Ok(VLongArray(ls))
    case _ =>
      if !e.JArr? then Err(ReflectionError(NotAnArray))
      else
        var rows :- RowsOf(e.elems);
        if field == SetField then Ok(VSet(AsLongArrays(rows)))
        else if field == ListField then Ok(VList(AsLongArrays(rows)))
        else Err(ReflectionError(ContainerNotImplemented))
  }

  // ---------------------------------------------------------------------
  // The Java methods, proved against the specification
  // ---------------------------------------------------------------------

  /** `getArr(arr, larr, sizeArr)`: `larr[i]` is element `i` read with
      `getAsLong`; the first element that cannot be read stops the loop. */
  method GetArr(arr: seq<Json>, larr: array<Int64>) returns (o: Outcome)
    requires larr.Length == |arr|
    modifies larr
    ensures o.Pass? <==> JsonUtils.LongsOf(arr).Ok?
    ensures o.Pass? ==> larr[..] == JsonUtils.LongsOf(arr).value
    ensures o.Fail? ==> JsonUtils.LongsOf(arr) == Err(o.error)
  {
    for i := 0 to |arr|
      invariant JsonUtils.LongsOf(arr[..i]) == Ok(larr[..i])
    {
      var x := ElementAsLong(arr[i]);
      JsonUtils.LongsOfStep(arr, i);
      if x.Err? {
        assert forall c :: 0 <= c < i ==> arr[..i][c] == arr[c];
        JsonUtils.LongsOfFirstError(arr, i);
        return Fail(x.error);
      }
      larr[i] := x.value;
      assert larr[..i + 1] == larr[..i] + [x.value];
    }
    assert arr[..|arr|] == arr;
    assert larr[..|arr|] == larr[..];
    o := Pass;
  }

  lemma RowsOfStep(rows: seq<Json>, i: nat)
    requires i < |rows| && RowsOf(rows[..i]).Ok?
    ensures RowsOf(rows[..i + 1]) ==
      if !rows[i].JArr? then Err(ReflectionError(NotTwoDimensional))
      else (var ls :- JsonUtils.LongsOf(rows[i].elems); Ok(RowsOf(rows[..i]).value + [ls]))
  {
    assert rows[..i + 1][..i] == rows[..i];
  }

  lemma {:induction false} RowsOfPrefixError(rows: seq<Json>, n: nat)
    requires n <= |rows| && RowsOf(rows[..n]).Err?
    ensures RowsOf(rows) == RowsOf(rows[..n])
    decreases |rows| - n
  {
    if n < |rows| {
      assert rows[..n + 1][..n] == rows[..n];
      RowsOfPrefixError(rows, n + 1);
    } else {
      assert rows[..n] == rows;
    }
  }

  /** `function(var, erg, channel)`: one `Long[]` per row, collected in
      iteration order. */
  method CollectRows(rows: seq<Json>) returns (r: Result<seq<seq<Int64>>>)
    ensures r == RowsOf(rows)
  {
    var erg: seq<seq<Int64>> := [];
    for i := 0 to |rows|
      invariant RowsOf(rows[..i]) == Ok(erg)
    {
      var e := rows[i];
      RowsOfStep(rows, i);
      if !e.JArr? {
        RowsOfPrefixError(rows, i + 1);
        return Err(ReflectionError(NotTwoDimensional));
      }
      var larr := new Int64[|e.elems|];
      var o := GetArr(e.elems, larr);
      if o.Fail? {
        RowsOfPrefixError(rows, i + 1);
        return Err(o.error);
      }
      erg := erg + [larr[..]];
    }
    assert rows[..|rows|] == rows;
    r := Ok(erg);
  }

  /** `getLongArrayFromConfig(channel, j)` */
  method GetLongArrayFromConfig(field: FieldKind, e: Json) returns (r: Result<Value>)
    ensures r == LongArrayFromConfig(field, e)
  {
    if field == NoSuchField {
      return Err(ReflectionError(NoFieldForChannel));
    }
    if !e.JArr? {
      return Err(ReflectionError(NotAnArray));
    }
    if field != PlainField {
      var erg := CollectRows(e.elems);
      if erg.Err? {
        return Err(erg.error);
      }
      if field == SetField {
        r := Ok(VSet(AsLongArrays(erg.value)));
      } else if field == ListField {
        r := Ok(VList(AsLongArrays(erg.value)));
      } else {
        r := Err(ReflectionError(ContainerNotImplemented));
      }
    } else {
      var larr := new Int64[|e.elems|];
      var o := GetArr(e.elems, larr);
      if o.Fail? {
        return Err(o.error);
      }
      r := Ok(VLongArray(larr[..]));
    }
  }

  /** The constructor arguments of `getThingFromConfig`: the id, then the
      extra arguments. */
  method ConstructorArgs(id: string, extra: seq<Value>) returns (r: seq<Value>)
    ensures |r| == |extra| + 1 && r[0] == VString(id)
    ensures forall i :: 1 <= i < |r| ==> r[i] == extra[i - 1]
  {
    var args := new Value[|extra| + 1];
    args[0] := VString(id);
    for i := 1 to |extra| + 1
      invariant args[0] == VString(id)
      invariant forall c :: 1 <= c < i ==> args[c] == extra[c - 1]
    {
      args[i] := extra[i - 1];
    }
    r := args[..];
  }

  /** The Thing repository (`ThingRepository`), mapping ids to Things. */
  class Registry {
    var things: Things

    constructor (initial: Things)
      ensures things == initial
    {
      things := initial;
    }

    /** `injectConfigChannels(channels, jConfig, args)` for the channels of
        `owner`. */
    method InjectConfigChannels(env: Env, owner: string, j: Json, extra: seq<Value>) returns (o: Outcome)
      requires owner in things && j.JObj?
      modifies this
      ensures Injected(o, things) == InjectAll(env, old(things), owner, j, extra, 0)
      decreases j, 2, 0
    {
      var n := |things[owner].channels|;
      o := Pass;
      var k := 0;
      while k < n && o.Pass?
        invariant k <= n && owner in things && |things[owner].channels| == n
        invariant o.Pass? ==> InjectAll(env, old(things), owner, j, extra, 0) == InjectAll(env, things, owner, j, extra, k)
        invariant o.Fail? ==> InjectAll(env, old(things), owner, j, extra, 0) == Injected(o, things)
      {
        ghost var before := things;
        o := InjectChannel(env, owner, k, j, extra);
        InjectAllStep(env, before, owner, j, extra, k, Injected(o, things));
        k := k + 1;
      }
    }

    /** The body of the loop of `injectConfigChannels` for the `k`-th
        channel of `owner`. */
    method InjectChannel(env: Env, owner: string, k: nat, j: Json, extra: seq<Value>) returns (o: Outcome)
      requires owner in things && k < |things[owner].channels| && j.JObj?
      modifies this
      ensures Injected(o, things) == InjectOne(env, old(things), owner, k, j, extra)
      decreases j, 1, 0
    {
      var channel := things[owner].channels[k];
      if !Has(j.members, channel.id) && (channel.value.Some? || channel.optional) {
        return Pass;
      }
      var i := Find(j.members, channel.id);
      if i.None? {
        return Fail(ReflectionError(Missing(channel.id)));
      }
      var parameter := GetConfigObject(env, channel, j.members[i.value].value, extra);
      if parameter.Err? {
        return Fail(parameter.error);
      }
      things := things[owner := SetValue(things[owner], k, parameter.value)];
      o := Pass;
    }

    /** `getConfigObject(channel, j, args)` */
    method GetConfigObject(env: Env, channel: Channel, e: Json, extra: seq<Value>) returns (r: Result<Value>)
      modifies this
      ensures Decoded(r, things) == ConfigObject(env, old(things), channel, e, extra)
      decreases e, 4, 0
    {
      if channel.declared.None? {
        return Err(ReflectionError(ChannelTypeNotSet));
      }
      var t := channel.declared.value;
      var simple := JsonUtils.GetAsType(t, e);
      if simple != Err(NotImplementedError) {
        return simple;
      }
      if t.TThing? {
        r := GetThingFromConfig(env, t.className, e, extra);
      } else if t == TThingMap {
        r := env.thingMaps(things, channel, e);
      } else if t == TInet4Address {
        r := Inet4From(e);
      } else if t == TArray(TLong) {
        r := GetLongArrayFromConfig(channel.field, e);
      } else {
        r := Err(ReflectionError(NoMatchingType));
      }
    }

    /** `getThingFromConfig(type, j, args)` */
    method GetThingFromConfig(env: Env, cls: string, e: Json, extra: seq<Value>) returns (r: Result<Value>)
      modifies this
      ensures Decoded(r, things) == ThingFrom(env, old(things), cls, e, extra)
      decreases e, 3, 0
    {
      var thingId := JsonUtils.GetAsStringMember(e, "id");
      if thingId.Err? {
        return Err(thingId.error);
      }
      var id := thingId.value;
      if id !in things {
        var args := ConstructorArgs(id, extra);
        assert args == [VString(id)] + extra;
        var thing := env.factory(cls, args);
        if thing.Err? {
          return Err(thing.error);
        }
        things := things[id := Thing(thing.value.header.(id := id), thing.value.channels)];
      }
      var o := InjectConfigChannels(env, id, e, []);
      if o.Fail? {
        return Err(o.error);
      }
      r := Ok(VThing(things[id].header));
    }
  }

  // ---------------------------------------------------------------------
  // Properties
  // ---------------------------------------------------------------------

  /** A channel is skipped exactly when it is not configured and has a value
      or may stay unset. An unconfigured channel that is not skipped fails
      with the error of `getSubElement`; a configured one gets the decoded
      value of its member, and keeps no value if decoding fails. */
  lemma InjectOneFacts(env: Env, things: Things, owner: string, k: nat, j: Json, extra: seq<Value>)
    requires owner in things && k < |things[owner].channels| && j.JObj?
    ensures var ch := things[owner].channels[k];
      Skipped(ch, j) ==> InjectOne(env, things, owner, k, j, extra) == Injected(Pass, things)
    ensures var ch := things[owner].channels[k];
      !Skipped(ch, j) && !Has(j.members, ch.id) ==>
        JsonUtils.GetSubElement(j, ch.id) == Err(ReflectionError(Missing(ch.id))) &&
        InjectOne(env, things, owner, k, j, extra) == Injected(Fail(ReflectionError(Missing(ch.id))), things)
    ensures var ch := things[owner].channels[k];
      Has(j.members, ch.id) ==>
        var d := ConfigObject(env, things, ch, JsonUtils.GetSubElement(j, ch.id).value, extra);
        var r := InjectOne(env, things, owner, k, j, extra);
        (r.outcome.Pass? <==> d.result.Ok?) &&
        (r.outcome.Fail? ==> r.outcome.error == d.result.error) &&
        (r.outcome.Pass? ==> r.things[owner].channels[k].value == Some(d.result.value))
  {
    var ch := things[owner].channels[k];
    if Has(j.members, ch.id) {
      var i := Find(j.members, ch.id).value;
      assert JsonUtils.GetSubElement(j, ch.id).value == j.members[i].value;
    }
  }

  /** Injecting only adds Things and assigns channel values, and keeps every
      Thing registered under its own id. */
  lemma {:induction false} InjectAllEvolves(env: Env, things: Things, owner: string, j: Json, extra: seq<Value>, k: nat)
    requires owner in things && k <= |things[owner].channels| && j.JObj?
    ensures var r := InjectAll(env, things, owner, j, extra, k);
      Evolves(things, r.things) && (Registered(things) ==> Registered(r.things))
    decreases j, 2, |things[owner].channels| - k, 1
  {
    if k < |things[owner].channels| {
      var r1 := InjectOne(env, things, owner, k, j, extra);
      InjectOneEvolves(env, things, owner, k, j, extra);
      InjectAllStep(env, things, owner, j, extra, k, r1);
      if r1.outcome.Pass? {
        InjectRestEvolves(env, things, owner, j, extra, k, r1);
      }
    } else {
      EvolvesRefl(things);
    }
  }

  /** After a channel that passed, the rest of the loop keeps evolving the
      repository. */
  lemma {:induction false} InjectRestEvolves(env: Env, things: Things, owner: string, j: Json, extra: seq<Value>, k: nat, r1: Injected)
    requires owner in things && k < |things[owner].channels| && j.JObj?
    requires r1 == InjectOne(env, things, owner, k, j, extra)
    requires Evolves(things, r1.things) && (Registered(things) ==> Registered(r1.things))
    ensures var r2 := InjectAll(env, r1.things, owner, j, extra, k + 1);
      Evolves(things, r2.things) && (Registered(things) ==> Registered(r2.things))
    decreases j, 2, |things[owner].channels| - k, 0
  {
    InjectAllEvolves(env, r1.things, owner, j, extra, k + 1);
    EvolvesTrans(things, r1.things, InjectAll(env, r1.things, owner, j, extra, k + 1).things);
  }

  /** One channel's injection keeps the registry's Things, headers and
      channels, and only assigns values. */
  lemma {:induction false} InjectOneEvolves(env: Env, things: Things, owner: string, k: nat, j: Json, extra: seq<Value>)
    requires owner in things && k < |things[owner].channels| && j.JObj?
    ensures var r := InjectOne(env, things, owner, k, j, extra);
      Evolves(things, r.things) && (Registered(things) ==> Registered(r.things))
    decreases j, 1, 0, 0
  {
    var ch := things[owner].channels[k];
    var found := Find(j.members, ch.id);
    if Skipped(ch, j) || found.None? {
      EvolvesRefl(things);
    } else {
      var d := ConfigObject(env, things, ch, j.members[found.value].value, extra);
      ConfigObjectEvolves(env, things, ch, j.members[found.value].value, extra);
      if d.result.Ok? {
        AssignEvolves(things, d.things, owner, k, d.result.value);
      }
    }
  }

  /** Assigning a decoded value after decoding still only adds Things and
      assigns channel values. */
  lemma AssignEvolves(things: Things, decoded: Things, owner: string, k: nat, v: Value)
    requires owner in decoded && k < |decoded[owner].channels|
    requires Evolves(things, decoded) && (Registered(things) ==> Registered(decoded))
    ensures var t := decoded[owner := SetValue(decoded[owner], k, v)];
      Evolves(things, t) && (Registered(things) ==> Registered(t))
  {
    SetValueEvolves(decoded, owner, k, v);
    EvolvesTrans(things, decoded, decoded[owner := SetValue(decoded[owner], k, v)]);
  }

  /** Decoding a value only adds Things and assigns channel values, and keeps
      every Thing registered under its own id. */
  lemma {:induction false} ConfigObjectEvolves(env: Env, things: Things, ch: Channel, e: Json, extra: seq<Value>)
    ensures var r := ConfigObject(env, things, ch, e, extra);
      Evolves(things, r.things) && (Registered(things) ==> Registered(r.things))
    decreases e, 4, 0, 0
  {
    var r := ConfigObject(env, things, ch, e, extra);
    if ch.declared.Some? && JsonUtils.GetAsType(ch.declared.value, e) == Err(NotImplementedError) && ch.declared.value.TThing? {
      assert r == ThingFrom(env, things, ch.declared.value.className, e, extra);
      ThingFromEvolves(env, things, ch.declared.value.className, e, extra);
    } else {
      assert r.things == things;
      EvolvesRefl(things);
    }
  }

  /** Resolving a Thing reference only adds Things and assigns channel
      values, and keeps every Thing registered under its own id. */
  lemma {:induction false} ThingFromEvolves(env: Env, things: Things, cls: string, e: Json, extra: seq<Value>)
    ensures var r := ThingFrom(env, things, cls, e, extra);
      Evolves(things, r.things) && (Registered(things) ==> Registered(r.things))
    decreases e, 3, 0, 0
  {
    var id := JsonUtils.GetAsStringMember(e, "id");
    var t := if id.Ok? then Resolve(env, things, cls, id.value, extra) else Err(id.error);
    if t.Ok? {
      var inj := InjectAll(env, t.value, id.value, e, [], 0);
      assert ThingFrom(env, things, cls, e, extra).things == inj.things;
      ResolveEvolves(env, things, cls, id.value, extra);
      InjectAllEvolves(env, t.value, id.value, e, [], 0);
      EvolvesTrans(things, t.value, inj.things);
    } else {
      assert ThingFrom(env, things, cls, e, extra).things == things;
      EvolvesRefl(things);
    }
  }

  /** Resolution registers the id and loses or changes no Thing; a new Thing
      is registered under its own id. */
  lemma ResolveEvolves(env: Env, things: Things, cls: string, id: string, extra: seq<Value>)
    ensures var r := Resolve(env, things, cls, id, extra);
      r.Ok? ==> Evolves(things, r.value) && (Registered(things) ==> Registered(r.value))
  {
  }

  /** Every channel is settled: it has a value, or it may stay unset and is
      not configured. */
  predicate Settled(ch: Channel, j: Json)
    requires j.JObj?
  {
    ch.value.Some? || (ch.optional && !Has(j.members, ch.id))
  }

  lemma SettledKept(a: Things, b: Things, owner: string, j: Json, n: nat)
    requires j.JObj? && Evolves(a, b) && owner in a && n <= |a[owner].channels|
    requires forall c :: 0 <= c < n ==> Settled(a[owner].channels[c], j)
    ensures forall c :: 0 <= c < n ==> Settled(b[owner].channels[c], j)
  {
    forall c | 0 <= c < n ensures Settled(b[owner].channels[c], j) {
      assert Refines(a[owner].channels[c], b[owner].channels[c]);
    }
  }

  lemma InjectOneSettles(env: Env, things: Things, owner: string, k: nat, j: Json, extra: seq<Value>)
    requires owner in things && k < |things[owner].channels| && j.JObj?
    requires InjectOne(env, things, owner, k, j, extra).outcome.Pass?
    ensures Settled(InjectOne(env, things, owner, k, j, extra).things[owner].channels[k], j)
  {
    var r := InjectOne(env, things, owner, k, j, extra);
    InjectOneFacts(env, things, owner, k, j, extra);
    InjectOneEvolves(env, things, owner, k, j, extra);
    assert Refines(things[owner].channels[k], r.things[owner].channels[k]);
  }

  /** After a successful `injectConfigChannels` every channel of the Thing
      is settled; in particular every configured channel has a value. */
  lemma {:induction false} InjectAllSettles(env: Env, things: Things, owner: string, j: Json, extra: seq<Value>, k: nat)
    requires owner in things && k <= |things[owner].channels| && j.JObj?
    requires forall c :: 0 <= c < k ==> Settled(things[owner].channels[c], j)
    ensures var r := InjectAll(env, things, owner, j, extra, k);
      r.outcome.Pass? ==>
        forall c :: 0 <= c < |r.things[owner].channels| ==> Settled(r.things[owner].channels[c], j)
    decreases |things[owner].channels| - k
  {
    if k < |things[owner].channels| {
      var r1 := InjectOne(env, things, owner, k, j, extra);
      if r1.outcome.Pass? {
        InjectOneSettles(env, things, owner, k, j, extra);
        InjectOneEvolves(env, things, owner, k, j, extra);
        SettledKept(things, r1.things, owner, j, k);
        InjectAllSettles(env, r1.things, owner, j, extra, k + 1);
        assert InjectAll(env, things, owner, j, extra, k) == InjectAll(env, r1.things, owner, j, extra, k + 1);
      }
    }
  }

  /** `getThingFromConfig` needs a string `id` member; the Thing it returns
      is the one registered under that id. An id already registered is
      reused: the factory is not asked and the Thing keeps its header. An
      unknown id is built from `[id] ++ extra` and registered before its
      channels are injected. */
  lemma ThingFromFacts(env: Env, things: Things, cls: string, e: Json, extra: seq<Value>)
    ensures JsonUtils.GetAsStringMember(e, "id").Err? ==>
      ThingFrom(env, things, cls, e, extra) == Decoded(Err(JsonUtils.GetAsStringMember(e, "id").error), things)
    ensures var r := ThingFrom(env, things, cls, e, extra);
      r.result.Ok? ==>
        var id := JsonUtils.GetAsStringMember(e, "id").value;
        id in r.things && r.result.value == VThing(r.things[id].header)
    ensures var id := JsonUtils.GetAsStringMember(e, "id");
      id.Ok? && id.value in things ==>
        ThingFrom(env, things, cls, e, extra) ==
          (var i := InjectAll(env, things, id.value, e, [], 0);
           Decoded(if i.outcome.Pass? then Ok(VThing(things[id.value].header)) else Err(i.outcome.error), i.things))
    ensures var id := JsonUtils.GetAsStringMember(e, "id");
      id.Ok? && id.value !in things ==>
        var made := env.factory(cls, [VString(id.value)] + extra);
        (made.Err? ==> ThingFrom(env, things, cls, e, extra) == Decoded(Err(made.error), things)) &&
        (made.Ok? ==> (ThingFrom(env, things, cls, e, extra).things ==
           InjectAll(env, things[id.value := Thing(made.value.header.(id := id.value), made.value.channels)], id.value, e, [], 0).things))
  {
    var id := JsonUtils.GetAsStringMember(e, "id");
    var r := ThingFrom(env, things, cls, e, extra);
    if id.Ok? {
      var t := Resolve(env, things, cls, id.value, extra);
      if t.Ok? {
        var i := InjectAll(env, t.value, id.value, e, [], 0);
        assert r == Decoded(if i.outcome.Pass? then Ok(VThing(i.things[id.value].header)) else Err(i.outcome.error), i.things);
        if id.value in things {
          assert t.value == things;
          InjectAllEvolves(env, things, id.value, e, [], 0);
        }
      }
    }
  }

  /** The order of `getConfigObject`: no declared type fails first; a
      conversion the simple converters make or refuse for a reason of their
      own is final; a class they do not know falls through to a Thing, a
      ThingMap or an address, and to an error for any other. `Long[]` is
      covered by `LongArrayChannel` and every other array class by
      `OtherArrayRefused`. */
  lemma ConfigObjectDispatch(env: Env, things: Things, ch: Channel, e: Json, extra: seq<Value>)
    ensures ch.declared.None? ==> ConfigObject(env, things, ch, e, extra) == Decoded(Err(ReflectionError(ChannelTypeNotSet)), things)
    ensures ch.declared.Some? && JsonUtils.ReturnTrue(ch.declared.value) && JsonUtils.GetAsType(ch.declared.value, e) != Err(NotImplementedError) ==>
      ConfigObject(env, things, ch, e, extra) == Decoded(JsonUtils.GetAsType(ch.declared.value, e), things)
    ensures ch.declared.Some? && !JsonUtils.ReturnTrue(ch.declared.value) ==>
      var t := ch.declared.value;
      var r := ConfigObject(env, things, ch, e, extra);
      (t.TThing? ==> r == ThingFrom(env, things, t.className, e, extra)) &&
      (t == TThingMap ==> r == Decoded(env.thingMaps(things, ch, e), things)) &&
      (t == TInet4Address ==> r == Decoded(Inet4From(e), things)) &&
      (!t.TThing? && t != TThingMap && t != TInet4Address ==> r == Decoded(Err(ReflectionError(NoMatchingType)), things))
  {
  }

  /** An array class other than `Long[]` passes `returnTrue` but has no
      converter in `arrOfLong`, so `getConfigObject` ends at its final
      `ReflectionException`. */
  lemma OtherArrayRefused(env: Env, things: Things, ch: Channel, e: Json, extra: seq<Value>)
    requires ch.declared.Some? && ch.declared.value.TArray? && ch.declared.value != TArray(TLong)
    ensures JsonUtils.GetAsType(ch.declared.value, e) == Err(NotImplementedError)
    ensures ConfigObject(env, things, ch, e, extra) == Decoded(Err(ReflectionError(NoMatchingType)), things)
  {
    var t := ch.declared.value;
    assert JsonUtils.ReturnTrue(t);
    assert JsonUtils.GetAsType(t, e) == JsonUtils.ArrOfLongSpec(t.component, e);
  }

  /** A `Long[]` channel configured with an array is read by `arrOfLong`
      already, so `getLongArrayFromConfig` only ever sees something that is
      not an array, and refuses it (or the missing field). */
  lemma LongArrayChannel(env: Env, things: Things, ch: Channel, e: Json, extra: seq<Value>)
    requires ch.declared == Some(TArray(TLong))
    ensures e.JArr? ==> (ConfigObject(env, things, ch, e, extra) ==
      Decoded(JsonUtils.ArrOfLongSpec(TLong, e), things))
    ensures !e.JArr? ==> (ConfigObject(env, things, ch, e, extra) ==
      Decoded(if ch.field == NoSuchField then Err(ReflectionError(NoFieldForChannel)) else Err(ReflectionError(NotAnArray)), things))
  {
    if e.JArr? {
      LongsOfErrors(e.elems);
      assert JsonUtils.GetAsType(TArray(TLong), e) == JsonUtils.ArrOfLongSpec(TLong, e);
    }
  }

  /** `getAsLong` never fails with `NotImplementedException`. */
  lemma {:induction false} LongErrors(j: Json)
    ensures ElementAsLong(j).Err? ==> ElementAsLong(j).error != NotImplementedError
  {
    if j.JArr? && |j.elems| == 1 {
      LongErrors(j.elems[0]);
    }
  }

  lemma {:induction false} LongsOfErrors(es: seq<Json>)
    ensures JsonUtils.LongsOf(es).Err? ==> JsonUtils.LongsOf(es).error != NotImplementedError
  {
    if es != [] {
      LongsOfErrors(es[..|es| - 1]);
      LongErrors(es[|es| - 1]);
    }
  }

  /** Every simple value the encoder writes is decoded back into a channel of
      its class, without touching the repository. */
  lemma ScalarChannelRoundTrip(env: Env, things: Things, ch: Channel, v: Value, extra: seq<Value>)
    requires JsonUtils.DecodableType(v).Some? && ch.declared == JsonUtils.DecodableType(v)
    ensures JsonUtils.ScalarToJson(v).Ok? && JsonUtils.ScalarToJson(v).value.Some?
    ensures ConfigObject(env, things, ch, JsonUtils.ScalarToJson(v).value.value, extra) == Decoded(Ok(v), things)
  {
    JsonUtils.ScalarRoundTrip(v);
  }

  /** An IPv4 channel reads back the address the encoder writes. */
  lemma Inet4ChannelRoundTrip(env: Env, things: Things, ch: Channel, a: Address, extra: seq<Value>)
    requires ch.declared == Some(TInet4Address)
    ensures JsonUtils.ScalarToJson(VInet4(a)) == Ok(Some(JStr(Dotted(a))))
    ensures ConfigObject(env, things, ch, JStr(Dotted(a)), extra) == Decoded(Ok(VInet4(a)), things)
  {
    var e := JStr(Dotted(a));
    assert JsonUtils.GetAsType(TInet4Address, e) == Err(NotImplementedError);
    ParseDottedRoundTrip(a);
    assert Inet4From(e) == Ok(VInet4(a));
  }

  /** A plain `Long[]` field reads an array into a `Long[]` of the same
      length, element `i` being element `i` read with `getAsLong`. */
  lemma PlainLongArray(e: Json)
    requires e.JArr?
    ensures var r := LongArrayFromConfig(PlainField, e);
      (r.Ok? <==> forall i :: 0 <= i < |e.elems| ==> ElementAsLong(e.elems[i]).Ok?) &&
      (r.Ok? ==> (r.value.VLongArray? && |r.value.longs| == |e.elems| &&
         forall i :: 0 <= i < |e.elems| ==> r.value.longs[i] == ElementAsLong(e.elems[i]).value))
  {
  }

  /** A collection field needs an array of arrays; a Set or a List then
      holds exactly one `Long[]` per row (in no promised order), and any
      other collection is refused. */
  lemma CollectionLongArrays(field: FieldKind, e: Json)
    requires field in {SetField, ListField, OtherCollection} && e.JArr?
    ensures (exists i :: 0 <= i < |e.elems| && !e.elems[i].JArr?) ==> LongArrayFromConfig(field, e).Err?
    ensures var r := LongArrayFromConfig(field, e);
      r.Ok? <==> field != OtherCollection && RowsOf(e.elems).Ok?
    ensures var r := LongArrayFromConfig(field, e);
      r.Ok? ==>
        (field == SetField ==> r.value.VSet?) && (field == ListField ==> r.value.VList?) &&
        multiset(r.value.elems) == multiset(AsLongArrays(RowsOf(e.elems).value))
    ensures RowsOf(e.elems).Ok? && field == OtherCollection ==>
      LongArrayFromConfig(field, e) == Err(ReflectionError(ContainerNotImplemented))
  {
  }
}
