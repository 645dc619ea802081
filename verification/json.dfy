/**
 * Decoded JSON values as the client sees them after `response.json()`,
 * with Python's truthiness and the subscripting the client does on them.
 */
module Json {
  import opened Wrappers

  /** A decoded JSON document; `JNull` is Python's `None`. */
  datatype Json =
    | JNull
    | JBool(b: bool)
    | JInt(i: int)
    | JStr(s: string)
    | JArr(items: seq<Json>)
    | JObj(fields: map<string, Json>)

  /** Why subscripting a payload raised: `KeyError` or `TypeError`. */
  datatype PayloadError = MissingKey(key: string) | NotAnObject | NotAList

  /** Python's `bool(value)`. */
  predicate Truthy(j: Json) {
    match j
    case JNull => false
    case JBool(b) => b
    case JInt(i) => i != 0
    case JStr(s) => |s| > 0
    case JArr(items) => |items| > 0
    case JObj(fields) => |fields| > 0
  }

  /** `value[key]` on a decoded payload. */
  function Member(value: Json, key: string): (r: Result<Json, PayloadError>)
    ensures r.Success? <==> value.JObj? && key in value.fields
    ensures r.Success? ==> r.value == value.fields[key]
    ensures value.JObj? && key !in value.fields ==> r == Failure(MissingKey(key))
  {
    match value
    case JObj(fields) => if key in fields then Success(fields[key]) else Failure(MissingKey(key))
    case _ => Failure(NotAnObject)
  }

  /** `value[key]`, expected to be a list. */
  function ListMember(value: Json, key: string): (r: Result<seq<Json>, PayloadError>)
    ensures r.Success? <==> value.JObj? && key in value.fields && value.fields[key].JArr?
    ensures r.Success? ==> r.value == value.fields[key].items
  {
    var m :- Member(value, key);
    if m.JArr? then Success(m.items) else Failure(NotAList)
  }

  /** `dict.get(key)`: the value, or `None` when the key is absent. */
  function Get(fields: map<string, Json>, key: string): (r: Json)
    ensures key in fields ==> r == fields[key]
    ensures key !in fields ==> r == JNull
  {
    if key in fields then fields[key] else JNull
  }

  /**
   * `[item["tag"] for item in items]`: the tags of a list of objects, in list
   * order; the first item that is not an object with a "tag" aborts the
   * comprehension.
   */
  function Tags(items: seq<Json>): (r: Result<seq<Json>, PayloadError>)
    ensures r.Success? <==> forall i :: 0 <= i < |items| ==> items[i].JObj? && "tag" in items[i].fields
    ensures r.Success? ==> |r.value| == |items|
    ensures r.Success? ==> forall i :: 0 <= i < |items| ==> r.value[i] == items[i].fields["tag"]
  {
    if |items| == 0 then Success([])
    else
      var tag :- Member(items[0], "tag");
      var rest :- Tags(items[1..]);
      Success([tag] + rest)
  }
}
