/** The decoded create-container request body and the type-checked accessors the
    interceptor uses on it. */
module Document {

  /** A decoded JSON value. Numbers are kept only as "some other shape". */
  datatype Json =
    | JNull
    | JBool(b: bool)
    | JNum(n: int)
    | JStr(s: string)
    | JArr(items: seq<Json>)
    | JObj(fields: map<string, Json>)

  /** A JSON object: the request body itself, or a nested object such as HostConfig. */
  type Doc = map<string, Json>

  datatype Option<T> = None | Some(value: T)

  /** The errors the interceptor can return. */
  datatype Error =
    | WrongType(field: string, expected: string, got: Json)  // a field holds an incompatible shape
    | NoSuchImage(name: string)                               // image inspection said not found
    | NoCommandSpecified                                      // nothing to run
    | InspectFailed(reason: string)                           // any other image inspection failure

  datatype Result<T> = Ok(value: T) | Err(error: Error)

  /** The expected-type text of a string-or-array field. */
  const StringOrArray: string := "string or array of strings"

  predicate AllStrings(items: seq<Json>)
  {
    forall i :: 0 <= i < |items| ==> items[i].JStr?
  }

  /** The texts of a JSON array whose elements are all strings. */
  function Texts(items: seq<Json>): (r: seq<string>)
    requires AllStrings(items)
    ensures |r| == |items|
    ensures forall i :: 0 <= i < |items| ==> r[i] == items[i].s
  {
    seq(|items|, i requires 0 <= i < |items| => items[i].s)
  }

  /** A list of strings as the JSON array it is written back as. */
  function StrArr(ss: seq<string>): (j: Json)
    ensures j.JArr? && |j.items| == |ss|
    ensures forall i :: 0 <= i < |ss| ==> j.items[i] == JStr(ss[i])
  {
    JArr(seq(|ss|, i requires 0 <= i < |ss| => JStr(ss[i])))
  }

  /** The string-or-array normalisation: null is empty, a string `s` is `[s]`, an array
      of strings is its texts, anything else is a wrong-type error on `field`. */
  function StringList(field: string, v: Json): (r: Result<seq<string>>)
    ensures r.Ok? <==> v.JNull? || v.JStr? || (v.JArr? && AllStrings(v.items))
    ensures v.JNull? ==> r == Ok([])
    ensures v.JStr? ==> r == Ok([v.s])
    ensures r.Ok? && v.JArr? ==>
      |r.value| == |v.items| && forall i :: 0 <= i < |v.items| ==> v.items[i] == JStr(r.value[i])
    ensures r.Err? ==> r.error == WrongType(field, StringOrArray, v)
  {
    match v
    case JNull => Ok([])
    case JStr(s) => Ok([s])
    case JArr(items) =>
      if AllStrings(items) then Ok(Texts(items)) else Err(WrongType(field, StringOrArray, v))
    case _ => Err(WrongType(field, StringOrArray, v))
  }

  /** Reading back a written list gives the list: StrArr's partner is StringList. */
  lemma StringListOfStrArr(field: string, ss: seq<string>)
    ensures StringList(field, StrArr(ss)) == Ok(ss)
  {
    var j := StrArr(ss);
    assert AllStrings(j.items);
    assert Texts(j.items) == ss;
  }

  /** A nested object; absent or null reads as the empty object. */
  function LookupObject(m: Doc, key: string): (r: Result<Doc>)
    ensures r.Ok? <==> key !in m || m[key].JNull? || m[key].JObj?
    ensures r.Ok? && key in m && m[key].JObj? ==> r.value == m[key].fields
    ensures r.Ok? && (key !in m || m[key].JNull?) ==> r.value == map[]
    ensures r.Err? ==> r.error == WrongType(key, "object", m[key])
  {
    if key !in m then Ok(map[])
    else match m[key]
      case JNull => Ok(map[])
      case JObj(f) => Ok(f)
      case _ => Err(WrongType(key, "object", m[key]))
  }

  /** A string field; absent or null reads as "". */
  function LookupString(m: Doc, key: string): (r: Result<string>)
    ensures r.Ok? <==> key !in m || m[key].JNull? || m[key].JStr?
    ensures r.Ok? && key in m && m[key].JStr? ==> r.value == m[key].s
    ensures r.Ok? && (key !in m || m[key].JNull?) ==> r.value == ""
    ensures r.Err? ==> r.error == WrongType(key, "string", m[key])
  {
    if key !in m then Ok("")
    else match m[key]
      case JNull => Ok("")
      case JStr(s) => Ok(s)
      case _ => Err(WrongType(key, "string", m[key]))
  }

  /** A string-list field; absent reads as the empty list, a present value is normalised
      by StringList. */
  function LookupStringArray(m: Doc, key: string): (r: Result<seq<string>>)
    ensures r.Ok? <==> key !in m || m[key].JNull? || m[key].JStr? || (m[key].JArr? && AllStrings(m[key].items))
    ensures (key !in m || m[key].JNull?) ==> r == Ok([])
    ensures key in m && m[key].JStr? ==> r == Ok([m[key].s])
    ensures r.Ok? && key in m && m[key].JArr? ==>
      |r.value| == |m[key].items| && forall i :: 0 <= i < |m[key].items| ==> m[key].items[i] == JStr(r.value[i])
    ensures r.Err? ==> r.error == WrongType(key, StringOrArray, m[key])
  {
    if key !in m then Ok([]) else StringList(key, m[key])
  }

  /** Writes back a HostConfig object that was modified. Only a HostConfig that is an object in
      the body is shared with it; for an absent or null one the accessor handed out a
      detached empty object, so the writes do not reach the body. */
  function AttachHostConfig(d: Doc, hostConfig: Doc): (r: Doc)
    ensures SameExcept(d, r, {"HostConfig"})
    ensures "HostConfig" in d && d["HostConfig"].JObj? ==>
      "HostConfig" in r && r["HostConfig"].JObj? && LookupObject(r, "HostConfig") == Ok(hostConfig)
    ensures !("HostConfig" in d && d["HostConfig"].JObj?) ==> r == d
  {
    if "HostConfig" in d && d["HostConfig"].JObj? then d["HostConfig" := JObj(hostConfig)] else d
  }

  /** `a` and `b` agree on every key outside `keys`: present in both or in neither, and equal
      where present. */
  ghost predicate SameExcept(a: Doc, b: Doc, keys: set<string>)
  {
    forall k :: k !in keys ==> (k in a <==> k in b) && (k in a ==> a[k] == b[k])
  }

  /** The request body, decoded into a map that the policies update in place. */
  class Container {
    var doc: Doc

    constructor (body: Doc)
      ensures doc == body
    {
      doc := body;
    }
  }
}
