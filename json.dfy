/** Parsed JSON values, with object members in their textual order, and JavaScript truthiness. */
module Json {
  import opened Wrappers

  datatype JsonValue =
    | JNull
    | JBool(b: bool)
    | JNumber(n: real)
    | JString(s: string)
    | JArray(items: seq<JsonValue>)
    | JObject(members: seq<(string, JsonValue)>)

  /** `obj.hasOwnProperty(key)`: only objects have own named members. */
  predicate HasMember(v: JsonValue, key: string)
  {
    v.JObject? && exists i :: 0 <= i < |v.members| && v.members[i].0 == key
  }

  /** `obj[key]`, `None` for `undefined`; with a repeated key `JSON.parse` keeps the last value. */
  function Member(v: JsonValue, key: string): Option<JsonValue>
  {
    if !v.JObject? then None else Lookup(v.members, key)
  }

  function Lookup(members: seq<(string, JsonValue)>, key: string): (r: Option<JsonValue>)
    ensures r.Some? <==> exists i :: 0 <= i < |members| && members[i].0 == key
    ensures r.Some? ==> exists i :: 0 <= i < |members| && members[i] == (key, r.value)
                                    && forall j :: i < j < |members| ==> members[j].0 != key
  {
    if members == [] then None
    else
      var last := members[|members| - 1];
      if last.0 == key then Some(last.1)
      else
        var init := members[..|members| - 1];
        var r := Lookup(init, key);
        assert forall i :: 0 <= i < |init| ==> members[i] == init[i];
        r
  }

  /** `!!v` in JavaScript. */
  predicate Truthy(v: JsonValue)
  {
    match v
    case JNull => false
    case JBool(b) => b
    case JNumber(n) => n != 0.0
    case JString(s) => s != ""
    case JArray(_) => true
    case JObject(_) => true
  }

  /** Truthiness of a possibly `undefined` member. */
  predicate TruthyMember(v: JsonValue, key: string)
  {
    var m := Member(v, key);
    m.Some? && Truthy(m.value)
  }
}
