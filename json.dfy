/**
 * JSON documents as values, the shape encoding/json produces before it is
 * turned into bytes. Object members keep the order in which Go writes the
 * fields of a struct.
 */
module Json {
  import opened Wrappers

  datatype JsonValue =
    | JString(s: string)
    | JNumber(n: int)
    | JArray(elements: seq<JsonValue>)
    | JObject(members: seq<(string, JsonValue)>)

  /** The value of the first member named `key`. */
  function Lookup(members: seq<(string, JsonValue)>, key: string): (r: Option<JsonValue>)
    ensures r.Some? <==> exists i :: 0 <= i < |members| && members[i].0 == key
  {
    if members == [] then None
    else if members[0].0 == key then Some(members[0].1)
    else
      var rest := Lookup(members[1..], key);
      assert forall i :: 0 < i < |members| ==> members[i] == members[1..][i - 1];
      rest
  }

  function Keys(members: seq<(string, JsonValue)>): (ks: seq<string>)
    ensures |ks| == |members| && forall i :: 0 <= i < |ks| ==> ks[i] == members[i].0
  {
    if members == [] then [] else [members[0].0] + Keys(members[1..])
  }

  /**
   * How a string field decodes: a missing member gives the zero value, as in
   * encoding/json; a member of another type is a decoding error.
   */
  function StringField(members: seq<(string, JsonValue)>, key: string): Option<string>
  {
    match Lookup(members, key)
    case None => Some("")
    case Some(JString(s)) => Some(s)
    case Some(_) => None
  }

  function NumberField(members: seq<(string, JsonValue)>, key: string): Option<int>
  {
    match Lookup(members, key)
    case None => Some(0)
    case Some(JNumber(n)) => Some(n)
    case Some(_) => None
  }
}
