/** Already-decoded JSON responses, and the handful of `System.Text.Json.Nodes`
    accessors the client applies to them, with the exceptions those accessors
    raise turned into `MalformedResponse`. */
module Json {
  import opened Outcomes

  const MinInt32: int := -0x8000_0000
  const MaxInt32: int := 0x7FFF_FFFF

  /** The values of a C# `int`. */
  type Int32 = n: int | MinInt32 <= n <= MaxInt32

  /** A parsed JSON value. `JNull` is the JSON literal `null`, which the node
      API hands back as a C# null reference; numbers are integral. */
  datatype Json =
    | JNull
    | JBool(b: bool)
    | JNumber(n: int)
    | JString(s: string)
    | JArray(items: seq<Json>)
    | JObject(fields: map<string, Json>)

  /** `node[key]`: the member's value, or null when the object lacks the key.
      On a null node this is a null dereference; on any other non-object it
      is the InvalidOperationException of `AsObject`. */
  function Member(node: Json, key: string): (r: Result<Json>)
    ensures r.Success? <==> node.JObject?
    ensures r.Success? && key !in node.fields ==> r.value == JNull
    ensures r.Success? && key in node.fields ==> r.value == node.fields[key]
  {
    if node.JObject? then Success(FieldOf(node.fields, key))
    else Failure(MalformedResponse)
  }

  /** `node[k1][k2]...` along a path of member names. */
  function Path(node: Json, keys: seq<string>): (r: Result<Json>)
    decreases |keys|
  {
    if |keys| == 0 then Success(node)
    else var child :- Member(node, keys[0]); Path(child, keys[1..])
  }

  /** `GetValue<bool>()`. */
  function GetBool(node: Json): (r: Result<bool>)
    ensures r.Success? <==> node.JBool?
    ensures r.Success? ==> r.value == node.b
  {
    if node.JBool? then Success(node.b) else Failure(MalformedResponse)
  }

  /** `GetValue<int>()`: a number that fits a C# `int`. */
  function GetInt32(node: Json): (r: Result<Int32>)
    ensures r.Success? <==> node.JNumber? && MinInt32 <= node.n <= MaxInt32
    ensures r.Success? ==> r.value == node.n
  {
    if node.JNumber? && MinInt32 <= node.n <= MaxInt32 then Success(node.n)
    else Failure(MalformedResponse)
  }

  /** `GetValue<string>()`. */
  function GetString(node: Json): (r: Result<string>)
    ensures r.Success? <==> node.JString?
    ensures r.Success? ==> r.value == node.s
  {
    if node.JString? then Success(node.s) else Failure(MalformedResponse)
  }

  /** `AsArray()`. */
  function AsArray(node: Json): (r: Result<seq<Json>>)
    ensures r.Success? <==> node.JArray?
    ensures r.Success? ==> r.value == node.items
  {
    if node.JArray? then Success(node.items) else Failure(MalformedResponse)
  }

  /** The member `key` of an object's fields, null when absent. */
  function FieldOf(fields: map<string, Json>, key: string): Json {
    if key in fields then fields[key] else JNull
  }

  /** `node[key]?.GetValue<string>()` on an object node with these fields:
      null when the member is absent or null. */
  function OptString(fields: map<string, Json>, key: string): (r: Result<Option<string>>)
    ensures r.Success? <==> FieldOf(fields, key) == JNull || FieldOf(fields, key).JString?
    ensures r.Success? ==> r.value == if FieldOf(fields, key) == JNull then None else Some(FieldOf(fields, key).s)
    ensures r.Failure? ==> r.error == MalformedResponse
  {
    var v := FieldOf(fields, key);
    if v == JNull then Success(None) else var s :- GetString(v); Success(Some(s))
  }

  /** `node[key]?.GetValue<int>()` on an object node. */
  function OptInt32(fields: map<string, Json>, key: string): (r: Result<Option<Int32>>)
    ensures r.Success? <==> FieldOf(fields, key) == JNull || (FieldOf(fields, key).JNumber? && MinInt32 <= FieldOf(fields, key).n <= MaxInt32)
    ensures r.Success? ==> r.value == if FieldOf(fields, key) == JNull then None else Some(FieldOf(fields, key).n)
    ensures r.Failure? ==> r.error == MalformedResponse
  {
    var v := FieldOf(fields, key);
    if v == JNull then Success(None) else var n :- GetInt32(v); Success(Some(n))
  }

  /** `node[key]?.GetValue<bool>()` on an object node. */
  function OptBool(fields: map<string, Json>, key: string): (r: Result<Option<bool>>)
    ensures r.Success? <==> FieldOf(fields, key) == JNull || FieldOf(fields, key).JBool?
    ensures r.Success? ==> r.value == if FieldOf(fields, key) == JNull then None else Some(FieldOf(fields, key).b)
    ensures r.Failure? ==> r.error == MalformedResponse
  {
    var v := FieldOf(fields, key);
    if v == JNull then Success(None) else var b :- GetBool(v); Success(Some(b))
  }

  /** `items.Select(parse).ToList()`: every element is decoded, in order, and
      the first element whose decoding raises makes the whole list raise. */
  function ParseAll<R>(items: seq<Json>, parse: Json -> Result<R>): (r: Result<seq<R>>)
    ensures r.Success? <==> forall i | 0 <= i < |items| :: parse(items[i]).Success?
    ensures r.Success? ==> |r.value| == |items|
    ensures r.Success? ==> forall i | 0 <= i < |items| :: parse(items[i]) == Success(r.value[i])
    ensures r.Failure? ==> exists i | 0 <= i < |items| ::
      parse(items[i]) == Failure(r.error) && forall j | 0 <= j < i :: parse(items[j]).Success?
    decreases |items|
  {
    if |items| == 0 then Success([])
    else
      var head :- parse(items[0]);
      var tail :- ParseAll(items[1..], parse);
      Success([head] + tail)
  }
}
