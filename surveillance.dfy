/** `SurveillanceStationClient`: camera lists, live-view paths, recording
    lists and the playback URI. Each operation only reads the client's host
    and token, so each is a function of them and of the transport's answers;
    none of them changes the token.

    The element decoders `ParseCamera`, `ParseLiveStream` and `ParseRecording`
    are reflection-based deserialisation in the source; here they are the
    parameter `parse`, and the record type is the type parameter `R`. */
module SurveillanceStation {
  import opened Outcomes
  import opened Text
  import opened Json
  import opened Query
  import opened Protocol
  import opened Session

  const CameraApi: string := "SYNO.SurveillanceStation.Camera"
  const RecordingApi: string := "SYNO.SurveillanceStation.Recording"

  /** The defaults of `offset` and `limit`. */
  const DefaultOffset: Int32 := 0
  const DefaultLimit: Int32 := 100

  /** Privilege bits selecting the cameras to list: live view and recording. */
  const LiveViewPrivilege: bv8 := 0x01
  const RecordingPrivilege: bv8 := 0x02
  const PrivCamType: int := (LiveViewPrivilege | RecordingPrivilege) as int

  /** The camera list asks for cameras with both privileges: `privCamType=3`. */
  lemma PrivCamTypeIsThree()
    ensures PrivCamType == 3 && IntToString(PrivCamType) == "3"
  {
  }

  const CameraIdsMissing: string := "Camera IDs must be specified."
  const ListFailed: string := "Unable to get cameras!"

  // ---------------------------------------------------------------------
  // Request builders.

  function CamerasParams(api: ApiInfo, offset: Int32, limit: Int32, sid: string): seq<Param> {
    [("privCamType", IntToString(PrivCamType)), ("version", IntToString(api.maxVersion)),
     ("streamInfo", "true"), ("api", CameraApi), ("limit", IntToString(limit)),
     ("offset", IntToString(offset)), ("basic", "true"), ("blFromCamList", "true"),
     ("camStm", "0"), ("method", "List"), ("_sid", sid)]
  }

  function LiveViewParams(api: ApiInfo, cameraIds: seq<Int32>, sid: string): seq<Param> {
    [("version", IntToString(api.maxVersion)), ("api", CameraApi), ("method", "GetLiveViewPath"),
     ("idList", JoinInts(cameraIds)), ("_sid", sid)]
  }

  function RecordingsParams(api: ApiInfo, cameraIds: seq<Int32>, offset: Int32, limit: Int32, sid: string): seq<Param> {
    [("version", IntToString(api.maxVersion)), ("api", RecordingApi), ("method", "List"),
     ("cameraIds", JoinInts(cameraIds)), ("offset", IntToString(offset)),
     ("limit", IntToString(limit)), ("_sid", sid)]
  }

  function StreamParams(api: ApiInfo, recordingId: Int32, sid: string): seq<Param> {
    [("version", IntToString(api.maxVersion)), ("api", RecordingApi), ("method", "Stream"),
     ("recordingId", IntToString(recordingId)), ("_sid", sid)]
  }

  // The literals of the Surveillance Station requests hold no query
  // delimiter. They are split into small lemmas so that no single proof has
  // to reason about many string literals at once.

  lemma CameraApiPlain()
    ensures '&' !in CameraApi
  {
  }

  lemma RecordingApiPlain()
    ensures '&' !in RecordingApi
  {
  }

  /** The constant parameters of the camera list request. */
  lemma CamerasConstantsPlain()
    ensures PlainName("privCamType") && PlainName("streamInfo") && PlainName("limit") && PlainName("offset")
    ensures '&' !in "true" && '&' !in "0" && '&' !in "List"
  {
  }

  lemma CameraListNamesPlain()
    ensures PlainName("basic") && PlainName("blFromCamList") && PlainName("camStm")
  {
  }

  lemma CamerasParamsUnambiguous(api: ApiInfo, offset: Int32, limit: Int32, sid: string)
    requires PlainQueryValue(sid)
    ensures Unambiguous(CamerasParams(api, offset, limit, sid))
  {
    IntToStringChars(PrivCamType);
    IntToStringChars(api.maxVersion);
    IntToStringChars(offset);
    IntToStringChars(limit);
    CommonNamesPlain();
    CameraApiPlain();
    CamerasConstantsPlain();
    CameraListNamesPlain();
  }

  lemma LiveViewParamsUnambiguous(api: ApiInfo, cameraIds: seq<Int32>, sid: string)
    requires PlainQueryValue(sid)
    ensures Unambiguous(LiveViewParams(api, cameraIds, sid))
  {
    IntToStringChars(api.maxVersion);
    JoinIntsChars(cameraIds);
    CommonNamesPlain();
    CameraApiPlain();
    assert PlainName("idList") && '&' !in "GetLiveViewPath";
  }

  lemma RecordingsParamsUnambiguous(api: ApiInfo, cameraIds: seq<Int32>, offset: Int32, limit: Int32, sid: string)
    requires PlainQueryValue(sid)
    ensures Unambiguous(RecordingsParams(api, cameraIds, offset, limit, sid))
  {
    IntToStringChars(api.maxVersion);
    IntToStringChars(offset);
    IntToStringChars(limit);
    JoinIntsChars(cameraIds);
    CommonNamesPlain();
    RecordingApiPlain();
    CamerasConstantsPlain();
    assert PlainName("cameraIds");
  }

  lemma StreamParamsUnambiguous(api: ApiInfo, recordingId: Int32, sid: string)
    requires PlainQueryValue(sid)
    ensures Unambiguous(StreamParams(api, recordingId, sid))
  {
    IntToStringChars(api.maxVersion);
    IntToStringChars(recordingId);
    CommonNamesPlain();
    RecordingApiPlain();
    assert PlainName("recordingId") && '&' !in "Stream";
  }

  // ---------------------------------------------------------------------
  // Operations.

  /** `GetCamerasAsync(offset, limit)`. */
  function GetCameras<R>(host: string, sid: string, offset: Int32, limit: Int32,
                         discovery: Reply, reply: Reply, parse: Json -> Result<R>): (c: Call<seq<R>>)
    ensures IsNullOrWhiteSpace(sid) ==> c == Call(Failure(NotLoggedIn), [])
    ensures !IsNullOrWhiteSpace(sid) ==> 1 <= |c.requests| <= 2 && c.requests[0] == Get(QueryApiUri(host, CameraApi))
    ensures !IsNullOrWhiteSpace(sid) && Resolve(discovery, CameraApi).Failure? ==>
      c == Call(Failure(Resolve(discovery, CameraApi).error), [Get(QueryApiUri(host, CameraApi))])
  {
    if IsNullOrWhiteSpace(sid) then Call(Failure(NotLoggedIn), [])
    else
      var probe := Get(QueryApiUri(host, CameraApi));
      match Resolve(discovery, CameraApi)
      case Failure(e) => Call(Failure(e), [probe])
      case Success(api) =>
        Call(ListResult(reply, ["data", "cameras"], ListFailed, parse),
             [probe, Get(Url(host, api.path, CamerasParams(api, offset, limit, sid)))])
  }

  /** `GetLiveStreamsAsync(cameraIds)`; an empty list stands also for null. */
  function GetLiveStreams<R>(host: string, sid: string, cameraIds: seq<Int32>,
                             discovery: Reply, reply: Reply, parse: Json -> Result<R>): (c: Call<seq<R>>)
    ensures IsNullOrWhiteSpace(sid) ==> c == Call(Failure(NotLoggedIn), [])
    ensures !IsNullOrWhiteSpace(sid) && cameraIds == [] ==> c == Call(Failure(ArgumentNull(CameraIdsMissing)), [])
    ensures !IsNullOrWhiteSpace(sid) && cameraIds != [] ==>
      1 <= |c.requests| <= 2 && c.requests[0] == Get(QueryApiUri(host, CameraApi))
    ensures !IsNullOrWhiteSpace(sid) && cameraIds != [] && Resolve(discovery, CameraApi).Failure? ==>
      c == Call(Failure(Resolve(discovery, CameraApi).error), [Get(QueryApiUri(host, CameraApi))])
  {
    if IsNullOrWhiteSpace(sid) then Call(Failure(NotLoggedIn), [])
    else if |cameraIds| == 0 then Call(Failure(ArgumentNull(CameraIdsMissing)), [])
    else
      var probe := Get(QueryApiUri(host, CameraApi));
      match Resolve(discovery, CameraApi)
      case Failure(e) => Call(Failure(e), [probe])
      case Success(api) =>
        Call(ListResult(reply, ["data"], ListFailed, parse),
             [probe, Get(Url(host, api.path, LiveViewParams(api, cameraIds, sid)))])
  }

  /** `GetRecordingsAsync(cameraIds, offset, limit)`. */
  function GetRecordings<R>(host: string, sid: string, cameraIds: seq<Int32>, offset: Int32, limit: Int32,
                            discovery: Reply, reply: Reply, parse: Json -> Result<R>): (c: Call<seq<R>>)
    ensures IsNullOrWhiteSpace(sid) ==> c == Call(Failure(NotLoggedIn), [])
    ensures !IsNullOrWhiteSpace(sid) && cameraIds == [] ==> c == Call(Failure(ArgumentNull(CameraIdsMissing)), [])
    ensures !IsNullOrWhiteSpace(sid) && cameraIds != [] ==>
      1 <= |c.requests| <= 2 && c.requests[0] == Get(QueryApiUri(host, RecordingApi))
    ensures !IsNullOrWhiteSpace(sid) && cameraIds != [] && Resolve(discovery, RecordingApi).Failure? ==>
      c == Call(Failure(Resolve(discovery, RecordingApi).error), [Get(QueryApiUri(host, RecordingApi))])
  {
    if IsNullOrWhiteSpace(sid) then Call(Failure(NotLoggedIn), [])
    else if |cameraIds| == 0 then Call(Failure(ArgumentNull(CameraIdsMissing)), [])
    else
      var probe := Get(QueryApiUri(host, RecordingApi));
      match Resolve(discovery, RecordingApi)
      case Failure(e) => Call(Failure(e), [probe])
      case Success(api) =>
        Call(ListResult(reply, ["data", "recordings"], ListFailed, parse),
             [probe, Get(Url(host, api.path, RecordingsParams(api, cameraIds, offset, limit, sid)))])
  }

  /** `GetLiveStreamUriAsync(recordingId)`: only the discovery request is
      made; the playback URI is returned, not requested. */
  function GetLiveStreamUri(host: string, sid: string, recordingId: Int32, discovery: Reply): (c: Call<string>)
    ensures IsNullOrWhiteSpace(sid) ==> c == Call(Failure(NotLoggedIn), [])
    ensures !IsNullOrWhiteSpace(sid) ==> c.requests == [Get(QueryApiUri(host, RecordingApi))]
    ensures c.result.Success? <==> !IsNullOrWhiteSpace(sid) && Resolve(discovery, RecordingApi).Success?
  {
    if IsNullOrWhiteSpace(sid) then Call(Failure(NotLoggedIn), [])
    else
      var probe := Get(QueryApiUri(host, RecordingApi));
      match Resolve(discovery, RecordingApi)
      case Failure(e) => Call(Failure(e), [probe])
      case Success(api) => Call(Success(Url(host, api.path, StreamParams(api, recordingId, sid))), [probe])
  }

  // ---------------------------------------------------------------------
  // Envelope handling: a failure envelope raises and returns nothing; a
  // success envelope yields one record per element, in order.

  /** The records of cameras come from `data.cameras`. */
  lemma GetCamerasOutcome<R>(host: string, sid: string, offset: Int32, limit: Int32,
                             discovery: Reply, reply: Reply, parse: Json -> Result<R>)
    returns (c: Call<seq<R>>)
    requires !IsNullOrWhiteSpace(sid) && Resolve(discovery, CameraApi).Success?
    ensures c == GetCameras(host, sid, offset, limit, discovery, reply, parse)
    ensures |c.requests| == 2
    ensures c.requests[1] == Get(Url(host, Resolve(discovery, CameraApi).value.path,
                                     CamerasParams(Resolve(discovery, CameraApi).value, offset, limit, sid)))
    ensures ReadSuccess(reply) == Success(false) ==> c.result == Failure(OperationFailed("Unable to get cameras!"))
    ensures c.result.Success? ==> reply.Body? && Items(reply, ["data", "cameras"]).Success?
    ensures c.result.Success? ==> |c.result.value| == |Items(reply, ["data", "cameras"]).value|
    ensures c.result.Success? ==> forall i | 0 <= i < |c.result.value| ::
      parse(Items(reply, ["data", "cameras"]).value[i]) == Success(c.result.value[i])
  {
    c := GetCameras(host, sid, offset, limit, discovery, reply, parse);
  }

  /** The records of live streams are the elements of `data` itself. */
  lemma GetLiveStreamsOutcome<R>(host: string, sid: string, cameraIds: seq<Int32>,
                                 discovery: Reply, reply: Reply, parse: Json -> Result<R>)
    returns (c: Call<seq<R>>)
    requires !IsNullOrWhiteSpace(sid) && cameraIds != [] && Resolve(discovery, CameraApi).Success?
    ensures c == GetLiveStreams(host, sid, cameraIds, discovery, reply, parse)
    ensures |c.requests| == 2
    ensures ReadSuccess(reply) == Success(false) ==> c.result == Failure(OperationFailed("Unable to get cameras!"))
    ensures c.result.Success? ==> reply.Body? && Items(reply, ["data"]).Success?
    ensures c.result.Success? ==> |c.result.value| == |Items(reply, ["data"]).value|
    ensures c.result.Success? ==> forall i | 0 <= i < |c.result.value| ::
      parse(Items(reply, ["data"]).value[i]) == Success(c.result.value[i])
  {
    c := GetLiveStreams(host, sid, cameraIds, discovery, reply, parse);
  }

  /** The records of recordings come from `data.recordings`. */
  lemma GetRecordingsOutcome<R>(host: string, sid: string, cameraIds: seq<Int32>, offset: Int32, limit: Int32,
                                discovery: Reply, reply: Reply, parse: Json -> Result<R>)
    returns (c: Call<seq<R>>)
    requires !IsNullOrWhiteSpace(sid) && cameraIds != [] && Resolve(discovery, RecordingApi).Success?
    ensures c == GetRecordings(host, sid, cameraIds, offset, limit, discovery, reply, parse)
    ensures |c.requests| == 2
    ensures ReadSuccess(reply) == Success(false) ==> c.result == Failure(OperationFailed("Unable to get cameras!"))
    ensures c.result.Success? ==> reply.Body? && Items(reply, ["data", "recordings"]).Success?
    ensures c.result.Success? ==> |c.result.value| == |Items(reply, ["data", "recordings"]).value|
    ensures c.result.Success? ==> forall i | 0 <= i < |c.result.value| ::
      parse(Items(reply, ["data", "recordings"]).value[i]) == Success(c.result.value[i])
  {
    c := GetRecordings(host, sid, cameraIds, offset, limit, discovery, reply, parse);
  }

  /** A camera list envelope `{"success": false}` gives no records. */
  lemma GetCamerasFailureEnvelope<R>(host: string, sid: string, discovery: Reply, parse: Json -> Result<R>)
    requires !IsNullOrWhiteSpace(sid) && Resolve(discovery, CameraApi).Success?
    ensures GetCameras(host, sid, DefaultOffset, DefaultLimit, discovery,
                       Body(JObject(map["success" := JBool(false)])), parse).result
         == Failure(OperationFailed("Unable to get cameras!"))
  {
  }

  // ---------------------------------------------------------------------
  // What the service receives.

  /** The camera list request carries the resolved `maxVersion`, the fixed
      privilege mask 3, the caller's `limit` and `offset`, and the token. */
  lemma CamerasRequestReceived<R>(host: string, sid: string, offset: Int32, limit: Int32,
                                  doc: Json, entry: map<string, Json>, path: string, version: Int32, reply: Reply, parse: Json -> Result<R>)
    requires !IsNullOrWhiteSpace(sid) && PlainQueryValue(sid)
    requires ListsEntry(doc, CameraApi, entry, ApiInfo(path, version))
    requires '?' !in host && '?' !in path
    ensures var c := GetCameras(host, sid, offset, limit, Body(doc), reply, parse);
      |c.requests| == 2 && c.requests[1].Get? &&
      ReceivedParams(c.requests[1].uri) ==
        [("privCamType", "3"), ("version", IntToString(version)), ("streamInfo", "true"),
         ("api", "SYNO.SurveillanceStation.Camera"), ("limit", IntToString(limit)),
         ("offset", IntToString(offset)), ("basic", "true"), ("blFromCamList", "true"),
         ("camStm", "0"), ("method", "List"), ("_sid", sid)]
  {
    ResolveListed(doc, CameraApi, entry, path, version);
    var ps := CamerasParams(ApiInfo(path, version), offset, limit, sid);
    PrivCamTypeIsThree();
    CamerasParamsUnambiguous(ApiInfo(path, version), offset, limit, sid);
    UrlRoundTrip(host, path, ps);
  }

  /** The live-view request carries the resolved `maxVersion`, the camera
      IDs in the caller's order joined by commas, and the token; the service
      reads the same IDs back from `idList`. */
  lemma LiveViewRequestReceived<R>(host: string, sid: string, cameraIds: seq<Int32>,
                                   doc: Json, entry: map<string, Json>, path: string, version: Int32, reply: Reply, parse: Json -> Result<R>)
    requires !IsNullOrWhiteSpace(sid) && PlainQueryValue(sid) && cameraIds != []
    requires ListsEntry(doc, CameraApi, entry, ApiInfo(path, version))
    requires '?' !in host && '?' !in path
    ensures var c := GetLiveStreams(host, sid, cameraIds, Body(doc), reply, parse);
      |c.requests| == 2 && c.requests[1].Get? &&
      ReceivedParams(c.requests[1].uri) ==
        [("version", IntToString(version)), ("api", "SYNO.SurveillanceStation.Camera"),
         ("method", "GetLiveViewPath"), ("idList", JoinInts(cameraIds)), ("_sid", sid)]
    ensures |ParseInts(JoinInts(cameraIds))| == |cameraIds|
    ensures forall i | 0 <= i < |cameraIds| :: ParseInts(JoinInts(cameraIds))[i] == Some(cameraIds[i] as int)
  {
    ResolveListed(doc, CameraApi, entry, path, version);
    LiveViewParamsUnambiguous(ApiInfo(path, version), cameraIds, sid);
    UrlRoundTrip(host, path, LiveViewParams(ApiInfo(path, version), cameraIds, sid));
    JoinIntsRoundTrip(cameraIds);
  }

  /** The recording list request carries the resolved `maxVersion`, the
      comma-joined camera IDs in order, `offset`, `limit` and the token. */
  lemma RecordingsRequestReceived<R>(host: string, sid: string, cameraIds: seq<Int32>, offset: Int32, limit: Int32,
                                     doc: Json, entry: map<string, Json>, path: string, version: Int32, reply: Reply, parse: Json -> Result<R>)
    requires !IsNullOrWhiteSpace(sid) && PlainQueryValue(sid) && cameraIds != []
    requires ListsEntry(doc, RecordingApi, entry, ApiInfo(path, version))
    requires '?' !in host && '?' !in path
    ensures var c := GetRecordings(host, sid, cameraIds, offset, limit, Body(doc), reply, parse);
      |c.requests| == 2 && c.requests[1].Get? &&
      ReceivedParams(c.requests[1].uri) ==
        [("version", IntToString(version)), ("api", "SYNO.SurveillanceStation.Recording"),
         ("method", "List"), ("cameraIds", JoinInts(cameraIds)), ("offset", IntToString(offset)),
         ("limit", IntToString(limit)), ("_sid", sid)]
  {
    ResolveListed(doc, RecordingApi, entry, path, version);
    RecordingsParamsUnambiguous(ApiInfo(path, version), cameraIds, offset, limit, sid);
    UrlRoundTrip(host, path, RecordingsParams(ApiInfo(path, version), cameraIds, offset, limit, sid));
  }

  /** The playback URI names the resolved path, `version=<maxVersion>`,
      `method=Stream`, the recording and the token; nothing but the discovery
      request is sent. */
  lemma LiveStreamUriReceived(host: string, sid: string, recordingId: Int32,
                              doc: Json, entry: map<string, Json>, path: string, version: Int32)
    requires !IsNullOrWhiteSpace(sid) && PlainQueryValue(sid)
    requires ListsEntry(doc, RecordingApi, entry, ApiInfo(path, version))
    requires '?' !in host && '?' !in path
    ensures var c := GetLiveStreamUri(host, sid, recordingId, Body(doc));
      c.requests == [Get(QueryApiUri(host, RecordingApi))] && c.result.Success? &&
      SplitFirst(c.result.value, '?').0 == host + "/webapi/" + path &&
      ReceivedParams(c.result.value) ==
        [("version", IntToString(version)), ("api", "SYNO.SurveillanceStation.Recording"),
         ("method", "Stream"), ("recordingId", IntToString(recordingId)), ("_sid", sid)]
  {
    ResolveListed(doc, RecordingApi, entry, path, version);
    var ps := StreamParams(ApiInfo(path, version), recordingId, sid);
    StreamParamsUnambiguous(ApiInfo(path, version), recordingId, sid);
    UrlParts(host, path, ps);
    UrlRoundTrip(host, path, ps);
  }

  // ---------------------------------------------------------------------
  // The session and the feature calls together.

  /** The camera list request the server receives carries `_sid=<token>` and
      `version=<maxVersion>`. */
  lemma CamerasRequestCarriesToken<R>(host: string, sid: string, offset: Int32, limit: Int32,
                                      doc: Json, entry: map<string, Json>, path: string, version: Int32, reply: Reply, parse: Json -> Result<R>)
    requires !IsNullOrWhiteSpace(sid) && PlainQueryValue(sid)
    requires ListsEntry(doc, CameraApi, entry, ApiInfo(path, version))
    requires '?' !in host && '?' !in path
    ensures var c := GetCameras(host, sid, offset, limit, Body(doc), reply, parse);
      |c.requests| == 2 && c.requests[1].Get? &&
      Lookup(ReceivedParams(c.requests[1].uri), "_sid") == Some(sid) &&
      Lookup(ReceivedParams(c.requests[1].uri), "version") == Some(IntToString(version))
  {
    CamerasRequestReceived(host, sid, offset, limit, doc, entry, path, version, reply, parse);
    CamerasQueryLookups(version, offset, limit, sid);
  }

  lemma CamerasQueryLookups(version: Int32, offset: Int32, limit: Int32, sid: string)
    ensures var ps := [("privCamType", "3"), ("version", IntToString(version)), ("streamInfo", "true"),
                       ("api", "SYNO.SurveillanceStation.Camera"), ("limit", IntToString(limit)),
                       ("offset", IntToString(offset)), ("basic", "true"), ("blFromCamList", "true"),
                       ("camStm", "0"), ("method", "List"), ("_sid", sid)];
      Lookup(ps, "_sid") == Some(sid) && Lookup(ps, "version") == Some(IntToString(version))
  {
    var ps := [("privCamType", "3"), ("version", IntToString(version)), ("streamInfo", "true"),
               ("api", "SYNO.SurveillanceStation.Camera"), ("limit", IntToString(limit)),
               ("offset", IntToString(offset)), ("basic", "true"), ("blFromCamList", "true"),
               ("camStm", "0"), ("method", "List"), ("_sid", sid)];
    LookupAt(ps, 10, "_sid");
    LookupAt(ps, 1, "version");
  }

  /** The live-view request the server receives carries `_sid=<token>` and
      `version=<maxVersion>`. */
  lemma LiveViewRequestCarriesToken<R>(host: string, sid: string, cameraIds: seq<Int32>,
                                       doc: Json, entry: map<string, Json>, path: string, version: Int32, reply: Reply, parse: Json -> Result<R>)
    requires !IsNullOrWhiteSpace(sid) && PlainQueryValue(sid) && cameraIds != []
    requires ListsEntry(doc, CameraApi, entry, ApiInfo(path, version))
    requires '?' !in host && '?' !in path
    ensures var c := GetLiveStreams(host, sid, cameraIds, Body(doc), reply, parse);
      |c.requests| == 2 && c.requests[1].Get? &&
      Lookup(ReceivedParams(c.requests[1].uri), "_sid") == Some(sid) &&
      Lookup(ReceivedParams(c.requests[1].uri), "version") == Some(IntToString(version))
  {
    LiveViewRequestReceived(host, sid, cameraIds, doc, entry, path, version, reply, parse);
    var ps := ReceivedParams(GetLiveStreams(host, sid, cameraIds, Body(doc), reply, parse).requests[1].uri);
    LookupAt(ps, 4, "_sid");
    LookupAt(ps, 0, "version");
  }

  /** The recording list request the server receives carries `_sid=<token>`
      and `version=<maxVersion>`. */
  lemma RecordingsRequestCarriesToken<R>(host: string, sid: string, cameraIds: seq<Int32>, offset: Int32, limit: Int32,
                                         doc: Json, entry: map<string, Json>, path: string, version: Int32, reply: Reply, parse: Json -> Result<R>)
    requires !IsNullOrWhiteSpace(sid) && PlainQueryValue(sid) && cameraIds != []
    requires ListsEntry(doc, RecordingApi, entry, ApiInfo(path, version))
    requires '?' !in host && '?' !in path
    ensures var c := GetRecordings(host, sid, cameraIds, offset, limit, Body(doc), reply, parse);
      |c.requests| == 2 && c.requests[1].Get? &&
      Lookup(ReceivedParams(c.requests[1].uri), "_sid") == Some(sid) &&
      Lookup(ReceivedParams(c.requests[1].uri), "version") == Some(IntToString(version))
  {
    RecordingsRequestReceived(host, sid, cameraIds, offset, limit, doc, entry, path, version, reply, parse);
    var ps := ReceivedParams(GetRecordings(host, sid, cameraIds, offset, limit, Body(doc), reply, parse).requests[1].uri);
    LookupAt(ps, 6, "_sid");
    LookupAt(ps, 0, "version");
  }

  /** The live-stream URI carries `_sid=<token>` and `version=<maxVersion>`. */
  lemma LiveStreamUriCarriesToken(host: string, sid: string, recordingId: Int32,
                                  doc: Json, entry: map<string, Json>, path: string, version: Int32)
    requires !IsNullOrWhiteSpace(sid) && PlainQueryValue(sid)
    requires ListsEntry(doc, RecordingApi, entry, ApiInfo(path, version))
    requires '?' !in host && '?' !in path
    ensures var c := GetLiveStreamUri(host, sid, recordingId, Body(doc));
      c.result.Success? &&
      Lookup(ReceivedParams(c.result.value), "_sid") == Some(sid) &&
      Lookup(ReceivedParams(c.result.value), "version") == Some(IntToString(version))
  {
    LiveStreamUriReceived(host, sid, recordingId, doc, entry, path, version);
    var ps := ReceivedParams(GetLiveStreamUri(host, sid, recordingId, Body(doc)).result.value);
    LookupAt(ps, 4, "_sid");
    LookupAt(ps, 0, "version");
  }

  /** The two tests of the token differ on a blank one: sign-in and sign-out
      treat `" "` as logged in, every feature call as logged out. */
  lemma BlankTokenIsLoggedInOnlyForTheSession<R>(host: string, userName: string, password: string, session: string,
                                                 escape: string -> string, discovery: Reply, reply: Reply,
                                                 parse: Json -> Result<R>)
    ensures SignInStep(host, " ", userName, password, session, escape, discovery, reply).result == Failure(AlreadyLoggedIn)
    ensures SignOutStep(host, " ", session, escape, discovery, reply).requests != []
    ensures GetCameras(host, " ", DefaultOffset, DefaultLimit, discovery, reply, parse) == Call(Failure(NotLoggedIn), [])
  {
    NullOrEmptyVersusWhiteSpace(" ");
  }

  /** A discovery response listing the auth API at `auth.cgi`, version 6. */
  const SampleAuthEntry: map<string, Json> := map["path" := JString("auth.cgi"), "maxVersion" := JNumber(6)]
  const SampleDiscovery: Json := JObject(map["data" := JObject(map["SYNO.API.Auth" := JObject(SampleAuthEntry)])])

  /** A login response handing out the token `abc123`. */
  const SampleLogin: Json := Envelope(true, JObject(map["sid" := JString("abc123")]))

  /** Signing in against the sample responses succeeds and stores `abc123`. */
  lemma SampleSignIn(host: string, escape: string -> string)
    ensures SignInStep(host, "", "u", "p", "", escape, Body(SampleDiscovery), Body(SampleLogin)).result == Success(())
    ensures SignInStep(host, "", "u", "p", "", escape, Body(SampleDiscovery), Body(SampleLogin)).sid == "abc123"
  {
    ResolveListed(SampleDiscovery, AuthApi, SampleAuthEntry, "auth.cgi", 6);
    assert ReadSuccess(Body(SampleLogin)) == Success(true);
    assert ReadToken(Body(SampleLogin)) == Success("abc123");
    SignInStoresToken(host, "", "u", "p", "", escape, Body(SampleDiscovery), Body(SampleLogin));
  }

  /** Signing in against the sample responses stores the token `abc123`, and
      a later camera list request carries `_sid=abc123`. */
  lemma SignInThenListCameras<R>(host: string, escape: string -> string, listDiscovery: Reply, listReply: Reply,
                                 parse: Json -> Result<R>)
    requires Resolve(listDiscovery, CameraApi).Success?
    ensures SignInStep(host, "", "u", "p", "", escape, Body(SampleDiscovery), Body(SampleLogin)).result == Success(())
    ensures SignInStep(host, "", "u", "p", "", escape, Body(SampleDiscovery), Body(SampleLogin)).sid == "abc123"
    ensures var api := Resolve(listDiscovery, CameraApi).value;
      var c := GetCameras(host, "abc123", DefaultOffset, DefaultLimit, listDiscovery, listReply, parse);
      |c.requests| == 2 && c.requests[1] == Get(Url(host, api.path, CamerasParams(api, DefaultOffset, DefaultLimit, "abc123")))
    ensures CamerasParams(Resolve(listDiscovery, CameraApi).value, DefaultOffset, DefaultLimit, "abc123")[10] == ("_sid", "abc123")
  {
    SampleSignIn(host, escape);
    assert !IsNullOrWhiteSpace("abc123") by { assert !IsWhiteSpace("abc123"[0]); }
    var _ := GetCamerasOutcome(host, "abc123", DefaultOffset, DefaultLimit, listDiscovery, listReply, parse);
  }

}
