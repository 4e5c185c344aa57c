/** The JSON tree of the Gson library (`JsonElement` and its four kinds) and
    the accessors of `JsonElement` that the core calls directly.

    A `JsonObject` keeps its members in insertion order; adding a member whose
    name is already present replaces that member's value in place. JSON
    numbers are integers in this model. */
module Json {
  import opened Wrappers
  import opened JavaInts
  import opened Text

  datatype Json =
    | JNull                      // JsonNull
    | JBool(b: bool)             // JsonPrimitive holding a Boolean
    | JNum(n: int)               // JsonPrimitive holding a Number
    | JStr(s: string)            // JsonPrimitive holding a String
    | JArr(elems: seq<Json>)     // JsonArray
    | JObj(members: seq<Member>) // JsonObject

  datatype Member = Member(name: string, value: Json)

  /** `isJsonPrimitive()` */
  predicate IsPrimitive(j: Json) {
    j.JBool? || j.JNum? || j.JStr?
  }

  /** The position of the member called `name`, if there is one. */
  function Find(ms: seq<Member>, name: string): (r: Option<nat>)
    ensures r.Some? ==> r.value < |ms| && ms[r.value].name == name
    ensures r.Some? ==> forall i :: 0 <= i < r.value ==> ms[i].name != name
    ensures r.None? ==> forall i :: 0 <= i < |ms| ==> ms[i].name != name
  {
    if ms == [] then None
    else if ms[0].name == name then Some(0)
    else match Find(ms[1..], name)
      case None => None
      case Some(i) => Some(i + 1)
  }

  /** `jObject.has(name)` */
  predicate Has(ms: seq<Member>, name: string) {
    Find(ms, name).Some?
  }

  /** `jObject.get(name)` */
  function Get(ms: seq<Member>, name: string): (r: Option<Json>)
    ensures r.Some? <==> Has(ms, name)
    ensures r.Some? ==> Member(name, r.value) in ms
  {
    match Find(ms, name)
    case Some(i) => Some(ms[i].value)
    case None => None
  }

  lemma FindSameNames(ms: seq<Member>, ms': seq<Member>, name: string)
    requires |ms| == |ms'|
    requires forall i :: 0 <= i < |ms| ==> ms[i].name == ms'[i].name
    ensures Find(ms, name) == Find(ms', name)
  {
    match Find(ms, name)
    case None =>
      assert forall i :: 0 <= i < |ms'| ==> ms'[i].name != name;
    case Some(k) =>
      assert ms'[k].name == name;
  }

  /** The members after adding `name`: its value replaced where it stands,
      or a new member at the end. */
  function Replace(ms: seq<Member>, name: string, v: Json): seq<Member> {
    match Find(ms, name)
    case Some(i) => ms[i := Member(name, v)]
    case None => ms + [Member(name, v)]
  }

  lemma ReplaceFacts(ms: seq<Member>, name: string, v: Json)
    ensures Get(Replace(ms, name, v), name) == Some(v)
    ensures forall k :: k != name ==> Get(Replace(ms, name, v), k) == Get(ms, k)
    ensures Has(ms, name) ==> |Replace(ms, name, v)| == |ms|
  {
    var r := Replace(ms, name, v);
    match Find(ms, name)
    case Some(i) =>
      forall k | k != name ensures Get(r, k) == Get(ms, k) {
        FindSameNames(ms, r, k);
      }
      FindSameNames(ms, r, name);
    case None =>
      assert r[|ms|].name == name;
      assert Find(r, name) == Some(|ms|);
      forall k | k != name ensures Get(r, k) == Get(ms, k) {
        match Find(ms, k)
        case None =>
          assert forall i :: 0 <= i < |r| ==> r[i].name != k;
        case Some(p) =>
          assert r[p].name == k;
      }
  }

  /** `jObject.add(name, v)` and `jObject.addProperty(name, v)`. */
  function Put(ms: seq<Member>, name: string, v: Json): (r: seq<Member>)
    ensures Get(r, name) == Some(v)
    ensures forall k :: k != name ==> Get(r, k) == Get(ms, k)
    ensures Has(ms, name) ==> |r| == |ms|
    ensures !Has(ms, name) ==> r == ms + [Member(name, v)]
  {
    ReplaceFacts(ms, name, v);
    Replace(ms, name, v)
  }

  function BoolText(b: bool): string {
    if b then "true" else "false"
  }

  /** `JsonElement.getAsString()` */
  function ElementAsString(j: Json): Result<string> {
    match j
    case JStr(s) => Ok(s)
    case JNum(n) => Ok(Show(n))
    case JBool(b) => Ok(BoolText(b))
    case JArr(es) => if |es| == 1 then ElementAsString(es[0]) else Err(IllegalStateError)
    case _ => Err(UnsupportedOperationError)
  }

  /** `JsonElement.getAsInt()`: a number narrowed to 32 bits, anything else
      printed and parsed with `Integer.parseInt`. */
  function ElementAsInt(j: Json): (r: Result<Int32>)
    ensures j.JNum? && INT32_MIN <= j.n <= INT32_MAX ==> r == Ok(j.n as Int32)
    ensures j.JStr? ==> r == ParseInt(j.s)
    ensures j.JBool? ==> r.Err?
  {
    match j
    case JNum(n) => Ok(ToInt32(n))
    case JStr(s) => ParseInt(s)
    case JBool(b) => ParseInt(BoolText(b))
    case JArr(es) => if |es| == 1 then ElementAsInt(es[0]) else Err(IllegalStateError)
    case _ => Err(UnsupportedOperationError)
  }

  /** `JsonElement.getAsLong()`: a number narrowed to 64 bits, anything else
      printed and parsed with `Long.parseLong`. */
  function ElementAsLong(j: Json): (r: Result<Int64>)
    ensures j.JNum? && INT64_MIN <= j.n <= INT64_MAX ==> r == Ok(j.n as Int64)
    ensures j.JStr? ==> r == ParseLong(j.s)
    ensures j.JBool? ==> r.Err?
  {
    match j
    case JNum(n) => Ok(ToInt64(n))
    case JStr(s) => ParseLong(s)
    case JBool(b) => ParseLong(BoolText(b))
    case JArr(es) => if |es| == 1 then ElementAsLong(es[0]) else Err(IllegalStateError)
    case _ => Err(UnsupportedOperationError)
  }

  /** `JsonElement.getAsBoolean()`: a boolean, or `Boolean.parseBoolean` of
      the printed primitive. */
  function ElementAsBoolean(j: Json): (r: Result<bool>)
    ensures j.JBool? ==> r == Ok(j.b)
    ensures j.JStr? ==> r == Ok(ParseBoolean(j.s))
  {
    match j
    case JBool(b) => Ok(b)
    case JNum(n) => Ok(ParseBoolean(Show(n)))
    case JStr(s) => Ok(ParseBoolean(s))
    case JArr(es) => if |es| == 1 then ElementAsBoolean(es[0]) else Err(IllegalStateError)
    case _ => Err(UnsupportedOperationError)
  }

  /** `JsonElement.getAsDouble()`, for the integral values of this model: a
      number, or a printed primitive parsed as a decimal integer. */
  function ElementAsDouble(j: Json): (r: Result<int>)
    ensures j.JNum? ==> r == Ok(j.n)
  {
    match j
    case JNum(n) => Ok(n)
    case JStr(s) =>
      (match ParseInteger(s) case Some(v) => Ok(v) case None => Err(NumberFormatError(s)))
    case JBool(b) => Err(NumberFormatError(BoolText(b)))
    case JArr(es) => if |es| == 1 then ElementAsDouble(es[0]) else Err(IllegalStateError)
    case _ => Err(UnsupportedOperationError)
  }

  /** `JsonElement.getAsJsonObject()` */
  function ElementAsJsonObject(j: Json): (r: Result<Json>)
    ensures r.Ok? <==> j.JObj?
    ensures r.Ok? ==> r.value == j
    ensures r.Err? ==> r.error == IllegalStateError
  {
    if j.JObj? then Ok(j) else Err(IllegalStateError)
  }

  /** `JsonElement.getAsJsonArray()` */
  function ElementAsJsonArray(j: Json): (r: Result<Json>)
    ensures r.Ok? <==> j.JArr?
    ensures r.Ok? ==> r.value == j
    ensures r.Err? ==> r.error == IllegalStateError
  {
    if j.JArr? then Ok(j) else Err(IllegalStateError)
  }
}
