/** `JsonUtils`: typed access to configuration JSON, the conversion of
    simple Java values to JSON and back, and the path matcher. */
module JsonUtils {
  import opened Wrappers
  import opened JavaInts
  import opened Text
  import opened Json
  import opened Inet4
  import opened ConfigModel

  // ---------------------------------------------------------------------
  // Typed accessors
  // ---------------------------------------------------------------------

  /** `getAsJsonArray(jElement)` */
  function GetAsJsonArray(j: Json): (r: Result<Json>)
    ensures r.Ok? <==> j.JArr?
    ensures r.Ok? ==> r.value == j
    ensures r.Err? ==> r.error == ReflectionError(NotAJsonArray)
  {
    if j.JArr? then Ok(j) else Err(ReflectionError(NotAJsonArray))
  }

  /** `getAsJsonObject(jElement)` */
  function GetAsJsonObject(j: Json): (r: Result<Json>)
    ensures r.Ok? <==> j.JObj?
    ensures r.Ok? ==> r.value == j
    ensures r.Err? ==> r.error == ReflectionError(NotAJsonObject)
  {
    if j.JObj? then Ok(j) else Err(ReflectionError(NotAJsonObject))
  }

  /** `getAsPrimitive(jElement)` */
  function GetAsPrimitive(j: Json): (r: Result<Json>)
    ensures r.Ok? <==> IsPrimitive(j)
    ensures r.Ok? ==> r.value == j
    ensures r.Err? ==> r.error == ReflectionError(NotAJsonPrimitive)
  {
    if IsPrimitive(j) then Ok(j) else Err(ReflectionError(NotAJsonPrimitive))
  }

  /** `getSubElement(jElement, memberName)`: the member's value, if the
      element is an object that has it. */
  function GetSubElement(j: Json, name: string): (r: Result<Json>)
    ensures r.Ok? <==> j.JObj? && Has(j.members, name)
    ensures r.Ok? ==> Get(j.members, name) == Some(r.value)
    ensures !j.JObj? ==> r == Err(ReflectionError(NotAJsonObject))
    ensures j.JObj? && !Has(j.members, name) ==> r == Err(ReflectionError(Missing(name)))
  {
    var o :- GetAsJsonObject(j);
    if !Has(o.members, name) then Err(ReflectionError(Missing(name)))
    else Ok(Get(o.members, name).value)
  }

  /** What a member accessor finds at `name`: the member's value, or the
      error `getSubElement` raises. */
  function At(j: Json, name: string): Result<Json> {
    GetSubElement(j, name)
  }

  /** `getAsJsonArray(jElement, memberName)` */
  function GetAsJsonArrayMember(j: Json, name: string): (r: Result<Json>)
    ensures r.Ok? <==> At(j, name).Ok? && At(j, name).value.JArr?
    ensures r.Ok? ==> Get(j.members, name) == Some(r.value)
    ensures At(j, name).Ok? && !At(j, name).value.JArr? ==> r == Err(ReflectionError(NotAJsonArray))
    ensures At(j, name).Err? ==> r == At(j, name)
  {
    var sub :- GetSubElement(j, name);
    GetAsJsonArray(sub)
  }

  /** `getAsJsonObject(jElement, memberName)` */
  function GetAsJsonObjectMember(j: Json, name: string): (r: Result<Json>)
    ensures r.Ok? <==> At(j, name).Ok? && At(j, name).value.JObj?
    ensures r.Ok? ==> Get(j.members, name) == Some(r.value)
    ensures At(j, name).Ok? && !At(j, name).value.JObj? ==> r == Err(ReflectionError(NotAJsonObject))
    ensures At(j, name).Err? ==> r == At(j, name)
  {
    var sub :- GetSubElement(j, name);
    GetAsJsonObject(sub)
  }

  /** `getAsPrimitive(jElement, memberName)` */
  function GetAsPrimitiveMember(j: Json, name: string): (r: Result<Json>)
    ensures r.Ok? <==> At(j, name).Ok? && IsPrimitive(At(j, name).value)
    ensures r.Ok? ==> Get(j.members, name) == Some(r.value)
    ensures At(j, name).Ok? && !IsPrimitive(At(j, name).value) ==> r == Err(ReflectionError(NotAJsonPrimitive))
    ensures At(j, name).Err? ==> r == At(j, name)
  {
    var sub :- GetSubElement(j, name);
    GetAsPrimitive(sub)
  }

  /** `getAsString(jElement)`: only a string primitive is accepted. */
  function GetAsString(j: Json): (r: Result<string>)
    ensures r.Ok? <==> j.JStr?
    ensures r.Ok? ==> r.value == j.s
    ensures (j.JNum? || j.JBool?) ==> r == Err(ReflectionError(NotAString))
    ensures !IsPrimitive(j) ==> r == Err(ReflectionError(NotAJsonPrimitive))
  {
    var p :- GetAsPrimitive(j);
    if p.JStr? then Ok(p.s) else Err(ReflectionError(NotAString))
  }

  /** `getAsString(jElement, memberName)` */
  function GetAsStringMember(j: Json, name: string): (r: Result<string>)
    ensures r.Ok? <==> At(j, name).Ok? && At(j, name).value.JStr?
    ensures r.Ok? ==> j.JObj? && Get(j.members, name) == Some(JStr(r.value))
    ensures At(j, name).Ok? && (At(j, name).value.JNum? || At(j, name).value.JBool?) ==>
      r == Err(ReflectionError(NotAString))
    ensures At(j, name).Err? ==> r.Err? && r.error == At(j, name).error
  {
    var p :- GetAsPrimitiveMember(j, name);
    if p.JStr? then Ok(p.s) else Err(ReflectionError(NotAString))
  }

  /** `getAsInt(jElement, memberName)`: a number narrowed to `int`, or a
      string parsed by `Integer.parseInt`. */
  function GetAsInt(j: Json, name: string): (r: Result<Int32>)
    ensures At(j, name).Ok? && At(j, name).value.JNum? ==> r == Ok(ToInt32(At(j, name).value.n))
    ensures At(j, name).Ok? && At(j, name).value.JStr? ==> r == ParseInt(At(j, name).value.s)
    ensures At(j, name).Ok? && At(j, name).value.JBool? ==> r == Err(ReflectionError(NotANumber))
    ensures r.Ok? ==> At(j, name).Ok? && (At(j, name).value.JNum? || At(j, name).value.JStr?)
  {
    var p :- GetAsPrimitiveMember(j, name);
    if p.JNum? then Ok(ToInt32(p.n))
    else if p.JStr? then ParseInt(p.s)
    else Err(ReflectionError(NotANumber))
  }

  /** `getAsLong(jElement, memberName)`: a number narrowed to `long`, or a
      string parsed by `Long.parseLong`. */
  function GetAsLong(j: Json, name: string): (r: Result<Int64>)
    ensures At(j, name).Ok? && At(j, name).value.JNum? ==> r == Ok(ToInt64(At(j, name).value.n))
    ensures At(j, name).Ok? && At(j, name).value.JStr? ==> r == ParseLong(At(j, name).value.s)
    ensures At(j, name).Ok? && At(j, name).value.JBool? ==> r == Err(ReflectionError(NotANumber))
    ensures r.Ok? ==> At(j, name).Ok? && (At(j, name).value.JNum? || At(j, name).value.JStr?)
  {
    var p :- GetAsPrimitiveMember(j, name);
    if p.JNum? then Ok(ToInt64(p.n))
    else if p.JStr? then ParseLong(p.s)
    else Err(ReflectionError(NotANumber))
  }

  /** `getAsBoolean(jElement, memberName)`: only a boolean primitive. */
  function GetAsBoolean(j: Json, name: string): (r: Result<bool>)
    ensures r.Ok? <==> At(j, name).Ok? && At(j, name).value.JBool?
    ensures r.Ok? ==> Get(j.members, name) == Some(JBool(r.value))
    ensures At(j, name).Ok? && (At(j, name).value.JNum? || At(j, name).value.JStr?) ==>
      r == Err(ReflectionError(NotABoolean))
  {
    var p :- GetAsPrimitiveMember(j, name);
    if p.JBool? then Ok(p.b) else Err(ReflectionError(NotABoolean))
  }

  /** A number and its decimal spelling read the same through the lenient
      accessors; a string that is not a number is refused. */
  lemma LenientNumbers(name: string, x: Int32, y: Int64)
    ensures GetAsInt(JObj([Member(name, JNum(x as int))]), name) == Ok(x)
    ensures GetAsInt(JObj([Member(name, JStr(Show(x as int)))]), name) == Ok(x)
    ensures GetAsLong(JObj([Member(name, JNum(y as int))]), name) == Ok(y)
    ensures GetAsLong(JObj([Member(name, JStr(Show(y as int)))]), name) == Ok(y)
    ensures GetAsInt(JObj([Member(name, JStr("4x2"))]), name) == Err(NumberFormatError("4x2"))
  {
    ParseIntShow(x);
    ParseLongShow(y);
    assert !AllDigits("4x2") by { assert !IsDigit("4x2"[1]); }
  }

  /** The three numbers of a date, as `ZonedDateTime.of` receives them. */
  datatype Date = Date(year: Int32, month: Int32, day: Int32)

  /** `getAsZonedDateTime(jElement, memberName, timezone)`: the string member
      split at '-', each of the first three parts read by
      `Integer.valueOf`. A missing part is reported as an unparsable date,
      but only once the parts before it were read. */
  function GetAsZonedDateTime(j: Json, name: string): (r: Result<Date>)
    ensures GetAsStringMember(j, name).Ok? && |JavaSplit(GetAsStringMember(j, name).value, '-')| < 3 ==> r.Err?
    ensures r.Ok? ==> GetAsStringMember(j, name).Ok?
    ensures r.Ok? ==>
      var parts := JavaSplit(GetAsStringMember(j, name).value, '-');
      |parts| >= 3 &&
      ParseInt(parts[0]) == Ok(r.value.year) && ParseInt(parts[1]) == Ok(r.value.month) && ParseInt(parts[2]) == Ok(r.value.day)
  {
    var s :- GetAsStringMember(j, name);
    var date := JavaSplit(s, '-');
    if |date| < 1 then Err(ReflectionError(UnparsableDate))
    else
      var year :- ParseInt(date[0]);
      if |date| < 2 then Err(ReflectionError(UnparsableDate))
      else
        var month :- ParseInt(date[1]);
        if |date| < 3 then Err(ReflectionError(UnparsableDate))
        else
          var day :- ParseInt(date[2]);
          Ok(Date(year, month, day))
  }

  /** A date written as "year-month-day" with non-negative numbers is read
      back as those three numbers. */
  lemma DateRoundTrip(name: string, year: Int32, month: Int32, day: Int32)
    requires year >= 0 && month >= 0 && day >= 0
    ensures GetAsZonedDateTime(JObj([Member(name, JStr(Show(year as int) + "-" + Show(month as int) + "-" + Show(day as int)))]), name)
         == Ok(Date(year, month, day))
  {
    var y, m, d := Show(year as int), Show(month as int), Show(day as int);
    var j := JObj([Member(name, JStr(y + "-" + m + "-" + d))]);
    assert GetAsStringMember(j, name) == Ok(y + "-" + m + "-" + d);
    DateParts(year as nat, month as nat, day as nat);
    ParseIntShow(year);
    ParseIntShow(month);
    ParseIntShow(day);
  }

  /** A non-negative number prints without a dash. */
  lemma NoDash(n: nat)
    ensures '-' !in Show(n)
  {
    assert AllDigits(Show(n));
  }

  /** The three printed parts of a date split back apart at the dashes. */
  lemma DateParts(year: nat, month: nat, day: nat)
    ensures JavaSplit(Show(year) + "-" + Show(month) + "-" + Show(day), '-') == [Show(year), Show(month), Show(day)]
  {
    var y, m, d := Show(year), Show(month), Show(day);
    NoDash(year);
    NoDash(month);
    NoDash(day);
    var parts := [y, m, d];
    assert parts[1..] == [m, d] && parts[1..][1..] == [d];
    assert Join([m, d], '-') == m + "-" + d;
    assert Join(parts, '-') == y + "-" + m + "-" + d;
    SplitJoin(parts, '-');
    assert (y + "-" + m + "-" + d)[|y|] == '-';
  }

  // ---------------------------------------------------------------------
  // Simple values to JSON
  // ---------------------------------------------------------------------

  /** `LongHandler.returnPrim`: one number per element, in order. */
  function LongsToJson(longs: seq<Int64>): (j: Json)
    ensures j.JArr? && |j.elems| == |longs|
    ensures forall i :: 0 <= i < |longs| ==> j.elems[i] == JNum(longs[i] as int)
  {
    if longs == [] then JArr([])
    else
      var init := LongsToJson(longs[..|longs| - 1]);
      assert forall i :: 0 <= i < |longs| - 1 ==> longs[..|longs| - 1][i] == longs[i];
      JArr(init.elems + [JNum(longs[|longs| - 1] as int)])
  }

  /** `LongHandler.returnPrim`, appending to a fresh `JsonArray`. */
  method LongHandler(longs: seq<Int64>) returns (j: Json)
    ensures j == LongsToJson(longs)
  {
    var js: seq<Json> := [];
    for i := 0 to |longs|
      invariant js == LongsToJson(longs[..i]).elems
    {
      assert longs[..i + 1][..i] == longs[..i];
      js := js + [JNum(longs[i] as int)];
    }
    assert longs[..|longs|] == longs;
    j := JArr(js);
  }

  /** The handler table of `getAsJsonElement`: Number, String, Boolean,
      Inet4Address, JsonElement and Long[] values have a converter. */
  predicate HasHandler(v: Value) {
    v.VShort? || v.VInteger? || v.VLong? || v.VDouble? || v.VString? || v.VBoolean? ||
    v.VInet4? || v.VJson? || v.VLongArray?
  }

  /** `returnElement(value)`: the handler's JSON for a value that has one. */
  function Handle(v: Value): (r: Result<Json>)
    ensures r.Ok? <==> HasHandler(v)
    ensures r.Err? ==> r.error == NotImplementedError
    ensures v.VJson? ==> r == Ok(v.json)
  {
    match v
    case VShort(x) => Ok(JNum(x as int))
    case VInteger(x) => Ok(JNum(x as int))
    case VLong(x) => Ok(JNum(x as int))
    case VDouble(x) => Ok(JNum(x))
    case VString(s) => Ok(JStr(s))
    case VBoolean(b) => Ok(JBool(b))
    case VInet4(a) => Ok(JStr(Dotted(a)))
    case VJson(j) => Ok(j)
    case VLongArray(ls) => Ok(LongsToJson(ls))
    case _ => Err(NotImplementedError)
  }

  /** `getAsJsonElement(value)`: no JSON (Java `null`) for `null` and an empty
      `Optional`; a present `Optional` is unwrapped once before the handler
      lookup; a value without a handler is refused. */
  function ScalarToJson(v: Value): (r: Result<Option<Json>>)
    ensures v.VNull? || v == VOptional(None) ==> r == Ok(None)
    ensures v.VOptional? && v.content.Some? ==> r.Err? == !HasHandler(v.content.value)
    ensures !v.VNull? && !v.VOptional? ==> r.Err? == !HasHandler(v)
    ensures r.Ok? && r.value.Some? ==> r.value.value == Handle(if v.VOptional? then v.content.value else v).value
    ensures r.Err? ==> r.error == NotImplementedError
  {
    if v.VNull? || v == VOptional(None) then Ok(None)
    else
      var x := if v.VOptional? then v.content.value else v;
      match Handle(x)
      case Ok(j) => Ok(Some(j))
      case Err(e) => Err(e)
  }

  // ---------------------------------------------------------------------
  // JSON to simple values
  // ---------------------------------------------------------------------

  /** `returnTrue(type)`: the classes `getAsType` converts to. */
  predicate ReturnTrue(t: TypeTag) {
    t.TInteger? || t.TLong? || t.TBoolean? || t.TDouble? || t.TString? ||
    t.TJsonObject? || t.TJsonArray? || t.TArray?
  }

  /** The elements of a JSON array read by `getAsLong`, in order; the first
      element that cannot be read decides the error. */
  function LongsOf(es: seq<Json>): (r: Result<seq<Int64>>)
    ensures r.Ok? <==> forall i :: 0 <= i < |es| ==> ElementAsLong(es[i]).Ok?
    ensures r.Ok? ==> |r.value| == |es| && forall i :: 0 <= i < |es| ==> r.value[i] == ElementAsLong(es[i]).value
  {
    if es == [] then Ok([])
    else
      var init :- LongsOf(es[..|es| - 1]);
      assert forall i :: 0 <= i < |es| - 1 ==> es[..|es| - 1][i] == es[i];
      var last :- ElementAsLong(es[|es| - 1]);
      Ok(init + [last])
  }

  /** The error of `LongsOf` is that of the first element that cannot be
      read, as the loop of `arrOfLong` stops there. */
  lemma {:induction false} LongsOfFirstError(es: seq<Json>, i: nat)
    requires i < |es| && ElementAsLong(es[i]).Err?
    requires forall k :: 0 <= k < i ==> ElementAsLong(es[k]).Ok?
    ensures LongsOf(es) == Err(ElementAsLong(es[i]).error)
    decreases |es|
  {
    var init := es[..|es| - 1];
    if i < |es| - 1 {
      assert init[i] == es[i];
      assert forall k :: 0 <= k < i ==> init[k] == es[k];
      LongsOfFirstError(init, i);
    } else {
      assert forall k :: 0 <= k < i ==> init[k] == es[k];
      assert LongsOf(init).Ok?;
    }
  }

  lemma LongsOfStep(es: seq<Json>, i: nat)
    requires i < |es| && LongsOf(es[..i]).Ok?
    ensures LongsOf(es[..i + 1]) ==
      (var x :- ElementAsLong(es[i]); Ok(LongsOf(es[..i]).value + [x]))
  {
    assert es[..i + 1][..i] == es[..i];
  }

  /** `arrOfLong(type, j)`: a `Long[]` from a JSON array; any other array
      type or element is not converted. */
  function ArrOfLongSpec(component: TypeTag, j: Json): (r: Result<Value>)
    ensures r.Ok? ==> r.value.VLongArray? && j.JArr? && LongsOf(j.elems) == Ok(r.value.longs)
    ensures component != TLong || !j.JArr? ==> r == Err(NotImplementedError)
  {
    if component == TLong && j.JArr? then
      var ls :- LongsOf(j.elems);
      Ok(VLongArray(ls))
    else Err(NotImplementedError)
  }

  /** `arrOfLong(type, j)`, filling a `Long[]` element by element. */
  method ArrOfLong(component: TypeTag, j: Json) returns (r: Result<Value>)
    ensures r == ArrOfLongSpec(component, j)
  {
    if component != TLong || !j.JArr? {
      return Err(NotImplementedError);
    }
    var js := j.elems;
    var la := new Int64[|js|];
    for i := 0 to |js|
      invariant LongsOf(js[..i]) == Ok(la[..i])
    {
      var x := ElementAsLong(js[i]);
      LongsOfStep(js, i);
      if x.Err? {
        assert forall k :: 0 <= k < i ==> js[..i][k] == js[k];
        LongsOfFirstError(js, i);
        return Err(x.error);
      }
      la[i] := x.value;
      assert la[..i + 1] == la[..i] + [x.value];
    }
    assert js[..|js|] == js;
    assert la[..|js|] == la[..];
    r := Ok(VLongArray(la[..]));
  }

  /** `checkRest(type, j)`: strings, JSON objects, JSON arrays and arrays. */
  function CheckRest(t: TypeTag, j: Json): (r: Result<Value>)
    ensures r.Ok? ==> DecodableType(r.value) == Some(t)
    ensures t == TString ==> r == (var s :- ElementAsString(j); Ok(VString(s)))
    ensures t == TJsonObject ==> r.Ok? == j.JObj? && (r.Ok? ==> r.value == VJson(j))
    ensures t == TJsonArray ==> r.Ok? == j.JArr? && (r.Ok? ==> r.value == VJson(j))
  {
    match t
    case TString => var s :- ElementAsString(j); Ok(VString(s))
    case TJsonObject => var o :- ElementAsJsonObject(j); Ok(VJson(o))
    case TJsonArray => var a :- ElementAsJsonArray(j); Ok(VJson(a))
    case TArray(c) => ArrOfLongSpec(c, j)
    case _ => Err(NotImplementedError)
  }

  /** `returnObj(type, j)`: the numeric and boolean classes, then
      `checkRest`. A value it returns is always of the class asked for; a
      number is narrowed to the class's width, a string is parsed as Java
      parses it, and a boolean is no number. */
  function ReturnObj(t: TypeTag, j: Json): (r: Result<Value>)
    ensures r.Ok? ==> DecodableType(r.value) == Some(t)
    ensures j.JNum? ==>
      (t == TInteger ==> r == Ok(VInteger(ToInt32(j.n)))) &&
      (t == TLong ==> r == Ok(VLong(ToInt64(j.n)))) &&
      (t == TDouble ==> r == Ok(VDouble(j.n)))
    ensures j.JBool? ==>
      (t == TBoolean ==> r == Ok(VBoolean(j.b))) &&
      (t == TInteger || t == TLong || t == TDouble ==> r.Err?)
    ensures j.JStr? && t == TInteger ==>
      (r.Ok? <==> ParseInt(j.s).Ok?) && (r.Ok? ==> r.value == VInteger(ParseInt(j.s).value))
    ensures j.JStr? && t == TLong ==>
      (r.Ok? <==> ParseLong(j.s).Ok?) && (r.Ok? ==> r.value == VLong(ParseLong(j.s).value))
    ensures j.JStr? && t == TBoolean ==> r == Ok(VBoolean(ParseBoolean(j.s)))
    ensures !(t == TInteger || t == TLong || t == TBoolean || t == TDouble) ==> r == CheckRest(t, j)
  {
    match t
    case TInteger => var x :- ElementAsInt(j); Ok(VInteger(x))
    case TLong => var x :- ElementAsLong(j); Ok(VLong(x))
    case TBoolean => var x :- ElementAsBoolean(j); Ok(VBoolean(x))
    case TDouble => var x :- ElementAsDouble(j); Ok(VDouble(x))
    case _ => CheckRest(t, j)
  }

  /** `getAsType(type, j)`: an unsupported class is refused with
      `NotImplementedException`; conversion errors of a supported class are
      passed on. */
  function GetAsType(t: TypeTag, j: Json): (r: Result<Value>)
    ensures !ReturnTrue(t) ==> r == Err(NotImplementedError)
    ensures ReturnTrue(t) ==> r == ReturnObj(t, j)
  {
    if ReturnTrue(t) then ReturnObj(t, j) else Err(NotImplementedError)
  }

  /** `getAsType(typeOptional, j)`: without a type the element is still
      printed for the message, which can fail first. */
  function GetAsTypeOptional(t: Option<TypeTag>, j: Json): (r: Result<Value>)
    ensures t.Some? ==> r == GetAsType(t.value, j)
    ensures t.None? ==> r.Err?
    ensures t.None? && ElementAsString(j).Ok? ==> r == Err(NotImplementedError)
  {
    match t
    case Some(ty) => GetAsType(ty, j)
    case None =>
      var _ :- ElementAsString(j);
      Err(NotImplementedError)
  }

  /** The class a simple value converts back to, where `getAsType` has one. */
  function DecodableType(v: Value): Option<TypeTag> {
    match v
    case VInteger(_) => Some(TInteger)
    case VLong(_) => Some(TLong)
    case VBoolean(_) => Some(TBoolean)
    case VDouble(_) => Some(TDouble)
    case VString(_) => Some(TString)
    case VJson(JObj(_)) => Some(TJsonObject)
    case VJson(JArr(_)) => Some(TJsonArray)
    case VLongArray(_) => Some(TArray(TLong))
    case _ => None
  }

  /** Every simple value `getAsType` handles survives the trip through
      `getAsJsonElement`. */
  lemma ScalarRoundTrip(v: Value)
    requires DecodableType(v).Some?
    ensures ScalarToJson(v).Ok? && ScalarToJson(v).value.Some?
    ensures GetAsType(DecodableType(v).value, ScalarToJson(v).value.value) == Ok(v)
  {
    match v
    case VString(s) =>
    case VBoolean(b) =>
    case VLongArray(ls) => LongArrayRoundTrip(ls);
    case _ =>
  }

  /** A `Long[]` written by `LongHandler` is read back element for element
      by `arrOfLong`. */
  lemma LongArrayRoundTrip(ls: seq<Int64>)
    ensures GetAsType(TArray(TLong), LongsToJson(ls)) == Ok(VLongArray(ls))
  {
    var es := LongsToJson(ls).elems;
    assert forall i :: 0 <= i < |es| ==> ElementAsLong(es[i]) == Ok(ls[i]);
    var r := LongsOf(es);
    assert r.Ok?;
    assert r.value == ls;
  }

  /** A `Short` has a JSON form but no way back through `getAsType`. */
  lemma ShortIsWriteOnly(x: Int16)
    ensures ScalarToJson(VShort(x)) == Ok(Some(JNum(x as int)))
    ensures forall j :: GetAsType(TShort, j) == Err(NotImplementedError)
  {
  }

  // ---------------------------------------------------------------------
  // Path matching
  // ---------------------------------------------------------------------

  /** `checkPrimitive(result, jP)`: a string primitive equal to the current
      path component is added to the result. */
  function CheckPrimitive(result: set<Json>, p: Json, path: string): (r: set<Json>)
    ensures r == result || r == result + {p}
    ensures p in r <==> p in result || p == JStr(path)
  {
    if p.JStr? && p.s == path then result + {p} else result
  }

  /** The elements `getMatchingElements(j, paths)` collects. */
  function MatchingElements(j: Json, paths: seq<string>): set<Json>
    decreases j, 1
  {
    if paths == [] then {j}
    else match j
      case JObj(ms) =>
        (match Find(ms, paths[0])
         case Some(i) => MatchingElements(ms[i].value, paths[1..])
         case None => {})
      case JArr(es) => MatchingInAll(es, paths)
      case JNull => {}
      case _ => CheckPrimitive({}, j, paths[0])
  }

  /** The union of the matches in every element of an array. */
  function MatchingInAll(es: seq<Json>, paths: seq<string>): set<Json>
    decreases es, 0
  {
    if es == [] then {} else MatchingInAll(es[..|es| - 1], paths) + MatchingElements(es[|es| - 1], paths)
  }

  /** `getMatchingElements(j, paths)`, accumulating into a result set. */
  method GetMatchingElements(j: Json, paths: seq<string>) returns (result: set<Json>)
    ensures result == MatchingElements(j, paths)
    decreases j
  {
    result := {};
    if paths == [] {
      result := result + {j};
      return;
    }
    var path := paths[0];
    match j
    case JObj(ms) =>
      var found := Find(ms, path);
      if found.Some? {
        var sub := GetMatchingElements(ms[found.value].value, paths[1..]);
        result := result + sub;
      }
    case JArr(es) =>
      for i := 0 to |es|
        invariant result == MatchingInAll(es[..i], paths)
      {
        var sub := GetMatchingElements(es[i], paths);
        assert es[..i + 1][..i] == es[..i];
        result := result + sub;
      }
      assert es[..|es|] == es;
    case JNull =>
    case _ =>
      result := CheckPrimitive(result, j, path);
  }

  /** `hasElement(j, paths)` */
  method HasElement(j: Json, paths: seq<string>) returns (b: bool)
    ensures b <==> MatchingElements(j, paths) != {}
  {
    var result := GetMatchingElements(j, paths);
    b := |result| > 0;
  }

  /** `x` is `j` or lies somewhere inside it. */
  predicate Within(x: Json, j: Json)
    decreases j, 1
  {
    x == j ||
    match j
    case JObj(ms) => WithinMembers(x, ms)
    case JArr(es) => WithinAll(x, es)
    case _ => false
  }

  predicate WithinMembers(x: Json, ms: seq<Member>)
    decreases ms, 0
  {
    ms != [] && (Within(x, ms[0].value) || WithinMembers(x, ms[1..]))
  }

  predicate WithinAll(x: Json, es: seq<Json>)
    decreases es, 0
  {
    es != [] && (Within(x, es[0]) || WithinAll(x, es[1..]))
  }

  lemma {:induction false} WithinMember(x: Json, ms: seq<Member>, i: nat)
    requires i < |ms| && Within(x, ms[i].value)
    ensures WithinMembers(x, ms)
    decreases i
  {
    if i > 0 {
      assert ms[1..][i - 1] == ms[i];
      WithinMember(x, ms[1..], i - 1);
    }
  }

  lemma {:induction false} WithinElement(x: Json, es: seq<Json>, i: nat)
    requires i < |es| && Within(x, es[i])
    ensures WithinAll(x, es)
    decreases i
  {
    if i > 0 {
      assert es[1..][i - 1] == es[i];
      WithinElement(x, es[1..], i - 1);
    }
  }

  lemma {:induction false} WithinTrans(x: Json, y: Json, z: Json)
    requires Within(x, y) && Within(y, z)
    ensures Within(x, z)
    decreases z, 1
  {
    if y != z {
      match z
      case JObj(ms) => WithinMembersTrans(x, y, ms);
      case JArr(es) => WithinAllTrans(x, y, es);
    }
  }

  lemma {:induction false} WithinMembersTrans(x: Json, y: Json, ms: seq<Member>)
    requires Within(x, y) && WithinMembers(y, ms)
    ensures WithinMembers(x, ms)
    decreases ms, 0
  {
    if Within(y, ms[0].value) {
      WithinTrans(x, y, ms[0].value);
    } else {
      WithinMembersTrans(x, y, ms[1..]);
    }
  }

  lemma {:induction false} WithinAllTrans(x: Json, y: Json, es: seq<Json>)
    requires Within(x, y) && WithinAll(y, es)
    ensures WithinAll(x, es)
    decreases es, 0
  {
    if Within(y, es[0]) {
      WithinTrans(x, y, es[0]);
    } else {
      WithinAllTrans(x, y, es[1..]);
    }
  }

  /** Every match is the element itself or one of its descendants. */
  lemma {:induction false} MatchesAreWithin(j: Json, paths: seq<string>)
    ensures forall x :: x in MatchingElements(j, paths) ==> Within(x, j)
    decreases j, 1
  {
    if paths != [] {
      match j
      case JObj(ms) =>
        var found := Find(ms, paths[0]);
        if found.Some? {
          var i := found.value;
          MatchesAreWithin(ms[i].value, paths[1..]);
          forall x | x in MatchingElements(j, paths) ensures Within(x, j) {
            WithinMember(x, ms, i);
          }
        }
      case JArr(es) =>
        MatchesInAllAreWithin(es, paths);
      case _ =>
    }
  }

  lemma {:induction false} MatchesInAllAreWithin(es: seq<Json>, paths: seq<string>)
    requires paths != []
    ensures forall x :: x in MatchingInAll(es, paths) ==> WithinAll(x, es)
    decreases es, 0
  {
    if es != [] {
      var init, last := es[..|es| - 1], es[|es| - 1];
      MatchesInAllAreWithin(init, paths);
      MatchesAreWithin(last, paths);
      forall x | x in MatchingInAll(es, paths) ensures WithinAll(x, es) {
        if x in MatchingElements(last, paths) {
          WithinElement(x, es, |es| - 1);
        } else {
          assert WithinAll(x, init);
          WithinAllPrefix(x, es, |es| - 1);
        }
      }
    }
  }

  lemma {:induction false} WithinAllPrefix(x: Json, es: seq<Json>, n: nat)
    requires n <= |es| && WithinAll(x, es[..n])
    ensures WithinAll(x, es)
    decreases n
  {
    assert es[..n][0] == es[0];
    if !Within(x, es[0]) {
      assert es[..n][1..] == es[1..][..n - 1];
      WithinAllPrefix(x, es[1..], n - 1);
    }
  }

  /** The element a path of member names leads to through nested objects. */
  function Follow(j: Json, paths: seq<string>): Option<Json>
    decreases |paths|
  {
    if paths == [] then Some(j)
    else if j.JObj? && Has(j.members, paths[0]) then Follow(Get(j.members, paths[0]).value, paths[1..])
    else None
  }

  /** Whatever a path of member names reaches is found by the matcher, and
      the matcher then reports an element. */
  lemma {:induction false} FollowIsMatched(j: Json, paths: seq<string>)
    requires Follow(j, paths).Some?
    ensures Follow(j, paths).value in MatchingElements(j, paths)
    decreases |paths|
  {
    if paths != [] {
      var i := Find(j.members, paths[0]).value;
      FollowIsMatched(j.members[i].value, paths[1..]);
    }
  }
}
