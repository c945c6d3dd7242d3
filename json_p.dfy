/** JSON values and the Jakarta JSON-P accessors the probe calls on a fetched
    key document. Each accessor returns the exception it would raise as a
    `JsonFailure` instead of throwing it. */
module JsonP {
  import opened Wrappers

  datatype Json =
    | JObject(members: map<string, Json>)
    | JArray(items: seq<Json>)
    | JString(text: string)
    | JNumber(literal: string)
    | JTrue
    | JFalse
    | JNull

  /** The runtime exceptions a JSON-P accessor raises. */
  datatype JsonFailure =
    | NotAnObject                 // ClassCastException from asJsonObject()
    | MemberMissing(name: string) // NullPointerException from getString on an absent member
    | NotAString(name: string)    // ClassCastException from getString on a non-string member
    | NotAnObjectMember(name: string) // ClassCastException from getJsonObject on a non-object member
    | NullObject(name: string)    // NullPointerException from calling a method on getJsonObject's null

  type JsonObject = map<string, Json>

  /** The object has a string member `name`. */
  predicate HasString(o: JsonObject, name: string) {
    name in o && o[name].JString?
  }

  /** What `getString(name)` raises when `name` is not a string member. */
  function StringFailure(o: JsonObject, name: string): JsonFailure {
    if name in o then NotAString(name) else MemberMissing(name)
  }

  /** `JsonValue.asJsonObject()`. */
  function AsJsonObject(v: Json): (r: Result<JsonObject, JsonFailure>)
    ensures r.Ok? <==> v.JObject?
    ensures r.Ok? ==> v == JObject(r.value)
    ensures r.Err? ==> r.error == NotAnObject
  {
    match v
    case JObject(members) => Ok(members)
    case _ => Err(NotAnObject)
  }

  /** `JsonObject.getString(name)`: never yields null; an absent member or a
      member of another type raises. */
  function GetString(o: JsonObject, name: string): (r: Result<string, JsonFailure>)
    ensures r.Ok? <==> HasString(o, name)
    ensures r.Ok? ==> o[name] == JString(r.value)
    ensures r.Err? ==> r.error == StringFailure(o, name)
  {
    if name !in o then Err(MemberMissing(name))
    else match o[name]
      case JString(text) => Ok(text)
      case _ => Err(NotAString(name))
  }

  /** `JsonObject.getJsonObject(name)`: `Ok(None)` is the null it returns for an
      absent member; a member of another type raises. */
  function GetJsonObject(o: JsonObject, name: string): (r: Result<Option<JsonObject>, JsonFailure>)
    ensures r == Ok(None) <==> name !in o
    ensures (r.Ok? && r.value.Some?) <==> name in o && o[name].JObject?
    ensures r.Ok? && r.value.Some? ==> o[name] == JObject(r.value.value)
    ensures r.Err? ==> r.error == NotAnObjectMember(name)
  {
    if name !in o then Ok(None)
    else match o[name]
      case JObject(members) => Ok(Some(members))
      case _ => Err(NotAnObjectMember(name))
  }
}
