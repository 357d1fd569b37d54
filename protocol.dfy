/** What every call of the client shares: the requests it can issue, the
    transport's answer to them, the discovery call that resolves a symbolic
    API name to `(path, maxVersion)`, and the reading of a response envelope
    `{ "success": ..., "data": ... }`. */
module Protocol {
  import opened Outcomes
  import opened Text
  import opened Json
  import opened Query

  /** A request handed to the transport. */
  datatype Request =
    | Get(uri: string)                        // GetAsync(uri)
    | Post(uri: string, form: seq<Param>)     // PostAsync(uri, form-url-encoded fields)

  /** The transport's answer: a non-success status or a failed connection,
      or the response body, already parsed. */
  datatype Reply = HttpError | Body(doc: Json)

  /** The outcome of one pure client operation: what it returns or raises,
      and the requests it issued, in order. */
  datatype Call<T> = Call(result: Result<T>, requests: seq<Request>)

  /** What the client keeps of a discovery entry. The entry's `minVersion`
      is never read: every request is made with `maxVersion`. */
  datatype ApiInfo = ApiInfo(path: string, maxVersion: Int32)

  const InfoApi: string := "SYNO.API.Info"

  /** The fixed parameters of the discovery call. */
  const DiscoveryParams: seq<Param> := [("api", InfoApi), ("version", "1"), ("method", "query")]

  /** The parameter names every request of the API family uses hold no
      query delimiter. Facts about string literals are kept in small lemmas
      like this one so that no single proof has to reason about many. */
  lemma CommonNamesPlain()
    ensures PlainName("api") && PlainName("method") && PlainName("version") && PlainName("_sid")
  {
  }

  /** The discovery URI (`QueryApiAsync`): the fixed query, narrowed by
      `&query=<name>` when a name is given. The name is not escaped. */
  function QueryApiUri(host: string, name: string): string {
    Url(host, "query.cgi", DiscoveryQuery(name))
  }

  function DiscoveryQuery(name: string): seq<Param> {
    DiscoveryParams + if IsNullOrEmpty(name) then [] else [("query", name)]
  }

  /** A non-empty name appends `&query=<name>` to the fixed discovery URI;
      an empty one leaves it as it is. */
  lemma QueryApiUriNarrowing(host: string, name: string)
    ensures name == "" ==> QueryApiUri(host, name) == Url(host, "query.cgi", DiscoveryParams)
    ensures name != "" ==> QueryApiUri(host, name) == Url(host, "query.cgi", DiscoveryParams) + "&query=" + name
  {
    if name != "" {
      RenderAppend(DiscoveryParams, ("query", name));
      assert "&" + Pair(("query", name)) == "&query=" + name;
    } else {
      assert DiscoveryQuery(name) == DiscoveryParams;
    }
  }

  /** The receiver finds the three fixed parameters and, for a non-empty
      name, `query=<name>` last. */
  lemma QueryApiUriParams(host: string, name: string)
    requires '?' !in host && '&' !in name
    ensures ReceivedParams(QueryApiUri(host, name)) == DiscoveryQuery(name)
  {
    UrlRoundTrip(host, "query.cgi", DiscoveryQuery(name));
  }

  /** `JsonNode.Parse(response)["data"][name]`, then its `maxVersion` as an
      `int` and its `path` as a string. The discovery envelope's `success`
      flag is not consulted. A missing entry is a null dereference. */
  function Resolve(discovery: Reply, name: string): (r: Result<ApiInfo>)
    ensures discovery.HttpError? ==> r == Failure(TransportFailed)
    ensures r.Failure? ==> r.error in {TransportFailed, MalformedResponse}
    ensures discovery.Body? && r.Failure? ==> r.error == MalformedResponse
    ensures r.Success? ==> discovery.Body? && exists entry :: ListsEntry(discovery.doc, name, entry, r.value)
  {
    match discovery
    case HttpError => Failure(TransportFailed)
    case Body(doc) =>
      var data :- Member(doc, "data");
      var entry :- Member(data, name);
      var versionNode :- Member(entry, "maxVersion");
      var version :- GetInt32(versionNode);
      // `entry` is an object here, so reading its `path` member cannot fail
      var path :- GetString(Member(entry, "path").value);
      assert ListsEntry(doc, name, entry.fields, ApiInfo(path, version));
      Success(ApiInfo(path, version))
  }

  /** A discovery document that lists `name` with the given entry. */
  predicate Lists(doc: Json, name: string, entry: map<string, Json>) {
    doc.JObject? && "data" in doc.fields &&
    doc.fields["data"].JObject? && name in doc.fields["data"].fields &&
    doc.fields["data"].fields[name] == JObject(entry)
  }

  /** `doc` lists `name` with this entry, whose `path` and `maxVersion` are those of `api`. */
  predicate ListsEntry(doc: Json, name: string, entry: map<string, Json>, api: ApiInfo) {
    Lists(doc, name, entry) &&
    "path" in entry && entry["path"] == JString(api.path) &&
    "maxVersion" in entry && entry["maxVersion"] == JNumber(api.maxVersion)
  }

  /** For every API listed in the discovery payload, `Resolve` returns exactly
      that entry's `path` and `maxVersion`, whatever else the entry holds. */
  lemma ResolveListed(doc: Json, name: string, entry: map<string, Json>, path: string, version: Int32)
    requires Lists(doc, name, entry)
    requires "path" in entry && entry["path"] == JString(path)
    requires "maxVersion" in entry && entry["maxVersion"] == JNumber(version)
    ensures Resolve(Body(doc), name) == Success(ApiInfo(path, version))
  {
  }

  /** An API the payload does not list cannot be resolved. */
  lemma ResolveUnlisted(doc: Json, name: string)
    requires doc.JObject? && "data" in doc.fields && doc.fields["data"].JObject?
    requires name !in doc.fields["data"].fields
    ensures Resolve(Body(doc), name) == Failure(MalformedResponse)
  {
  }

  /** An entry's keys other than `path` and `maxVersion` (`minVersion`
      among them) have no influence on the resolved endpoint. */
  lemma ResolveReadsOnlyPathAndMaxVersion(doc: Json, name: string, entry: map<string, Json>, key: string, value: Json)
    requires Lists(doc, name, entry)
    requires key != "path" && key != "maxVersion"
    ensures Resolve(Body(doc.(fields := doc.fields["data" := JObject(doc.fields["data"].fields[name := JObject(entry[key := value])])])), name)
         == Resolve(Body(doc), name)
  {
  }

  /** The envelope's `success` flag of the discovery response is ignored. */
  lemma ResolveIgnoresSuccessFlag(fields: map<string, Json>, name: string, flag: Json)
    ensures Resolve(Body(JObject(fields["success" := flag])), name) == Resolve(Body(JObject(fields)), name)
  {
  }

  /** `response["success"].GetValue<bool>()`. */
  function ReadSuccess(reply: Reply): (r: Result<bool>)
    ensures reply.HttpError? ==> r == Failure(TransportFailed)
    ensures reply.Body? ==> (r.Success? <==> reply.doc.JObject? && "success" in reply.doc.fields && reply.doc.fields["success"].JBool?)
    ensures r.Success? ==> r.value == reply.doc.fields["success"].b
  {
    match reply
    case HttpError => Failure(TransportFailed)
    case Body(doc) =>
      var flag :- Member(doc, "success");
      GetBool(flag)
  }

  /** `response[k1][k2]...AsArray()` on a received body. */
  function Items(reply: Reply, at: seq<string>): Result<seq<Json>>
    requires reply.Body?
  {
    var node :- Path(reply.doc, at);
    AsArray(node)
  }

  /** A list operation's handling of its envelope: a failure envelope raises
      `OperationFailed(message)`; a success envelope yields one record per
      element of the array found at `at`, in order. */
  function ListResult<R>(reply: Reply, at: seq<string>, message: string, parse: Json -> Result<R>): (r: Result<seq<R>>)
    ensures ReadSuccess(reply).Failure? ==> r == Failure(ReadSuccess(reply).error)
    ensures ReadSuccess(reply) == Success(false) ==> r == Failure(OperationFailed(message))
    ensures r.Success? ==> ReadSuccess(reply) == Success(true) && Items(reply, at).Success?
    ensures r.Success? ==> |r.value| == |Items(reply, at).value|
    ensures r.Success? ==> forall i | 0 <= i < |r.value| :: parse(Items(reply, at).value[i]) == Success(r.value[i])
    ensures ReadSuccess(reply) == Success(true) && Items(reply, at).Success? ==>
      (r.Success? <==> forall i | 0 <= i < |Items(reply, at).value| :: parse(Items(reply, at).value[i]).Success?)
  {
    var ok :- ReadSuccess(reply);
    if !ok then Failure(OperationFailed(message))
    else
      var items :- Items(reply, at);
      ParseAll(items, parse)
  }

  /** The body `{ "success": success, "data": data }`. */
  function Envelope(success: bool, data: Json): Json {
    JObject(map["success" := JBool(success), "data" := data])
  }
}
