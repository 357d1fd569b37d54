# SynologyAPI client core, modelled in Dafny

This project models the core of a C# client for the web API of Synology
devices, and proves properties of that model. The core has three parts.

- **`SynologyClient`** is the base client. It checks the host when the
  client is constructed. It keeps the session token `_sid`, signs in and out
  through the `SYNO.API.Auth` API, and finds each API's endpoint and
  version through the `SYNO.API.Info` discovery call. It releases its HTTP
  client at most once on `Dispose`.
- **`SurveillanceStationClient`** lists cameras, live-view paths and
  recordings, and builds the live-stream URI.
- **`RouterClient`** lists the devices connected to a router. It decodes
  each device record field by field.

The model is split into these modules:

- `Outcomes` (`outcomes.dfy`) holds the exceptions the client raises, as a
  `Result` error.
- `Text` (`text.dfy`) holds the string primitives the client relies on:
  - the two null-or-blank tests of `System.String`;
  - decimal rendering of `int`, with its read-back;
  - `string.Join` with its inverse, a split at one separator.
- `Json` (`json.dfy`) holds the parsed JSON node and the node operations
  the client uses: the indexer, `GetValue<T>`, `?.`, `AsArray`, and
  `Select(...).ToList()`.
- `Query` (`query.dfy`) renders request URIs
  (`host/webapi/<path>?k1=v1&...`) from an ordered parameter list. It
  proves that a receiver splitting the query at `&` and `=` reads that
  list back.
- `Protocol` (`protocol.dfy`) covers the discovery URI, the `maxVersion`
  and `path` a discovery reply resolves to, and the response-envelope
  reading shared by every list operation.
- `Session` (`session.dfy`) is the base client. It is a `class` with the
  mutable fields `sid` and `disposed`. Sign-in and sign-out are specified
  against the pure step functions `SignInStep` and `SignOutStep`, and the
  lemmas about the session state machine are stated on those functions.
- `SurveillanceStation` (`surveillance.dfy`) and `Router` (`router.dfy`)
  hold the feature operations. Each one is a function of the held token
  and of the transport's replies. It returns the operation's result
  together with the requests it issued, in order.

The transport is an input. Each HTTP exchange is a `Reply`: either
`HttpError` (a non-success status or a failed connection) or the parsed
response body. Every request the client issues is recorded. In the class
it goes into the ghost field `sent`; in the feature functions it goes into
the `requests` of the returned `Call`. A C# null string (token, user name,
password, session name) is written as `""`, because every test the code
applies treats null and empty alike. The host is an `Option<string>`,
because a null host and an ill-formed host raise different exceptions.

Two behaviours of the code are worth pointing out. The model follows the
code in both.

- The code never reads the discovery response's `success` flag. `Resolve`
  reads `data.<api>.maxVersion` and `data.<api>.path` directly
  (`Protocol.ResolveIgnoresSuccessFlag`).
- The router's POST form carries no `_sid`. It holds only `conntype`,
  `api`, `method` and `version` (src/SynologyAPI/RouterClient.cs:41-47,
  `Router.DevicesRequestCarriesNoToken`). Every authenticated GET does
  carry `_sid=<token>` (the `...CarriesToken` lemmas).

The failure messages are the code's own strings: `"Unable to get cameras!"`
for all three Surveillance Station lists, `"Unable to retrieve connected
devices"` and `"Logout failed!"`. A sign-in whose login reply reports failure raises
`UnauthorizedAccessException` (`Unauthorized`); failed guards, transport
errors and malformed replies raise other errors.

## Model

| member | source | states |
|---|---|---|
| Text.NullOrEmptyVersusWhiteSpace | src/SynologyAPI/SynologyClient.cs:44 | every null-or-empty token is null-or-blank; the two tests differ exactly on non-empty all-blank strings such as " " |
| Text.IntToStringRoundTrip | src/SynologyAPI/SurveillanceStationClient.cs:48 | the decimal text interpolated for an `int` reads back as the same integer |
| Text.IntToStringInjective | src/SynologyAPI/SurveillanceStationClient.cs:48 | two integers give the same text only when they are equal |
| Text.IntToStringChars | src/SynologyAPI/SurveillanceStationClient.cs:48 | rendered integers hold no `&`, `=`, `,` or `?`, so they never break a query or an ID list |
| Text.SplitJoin | src/SynologyAPI/SurveillanceStationClient.cs:78 | for a non-empty list of parts none of which holds the separator, splitting their `string.Join` at the separator gives back the parts |
| Text.JoinIntsRoundTrip | src/SynologyAPI/SurveillanceStationClient.cs:78 | a non-empty comma-joined ID list reads back as the same IDs, in order and of the same length |
| Text.JoinIntsChars | src/SynologyAPI/SurveillanceStationClient.cs:119 | a comma-joined ID list holds no `&`, `=` or `?` |
| Text.IntToString | src/SynologyAPI/SurveillanceStationClient.cs:48 | the text `{n}` interpolates for an `int`: non-empty, digits after an optional leading `-`; its meaning is `IntToStringRoundTrip` |
| Text.Join | src/SynologyAPI/SurveillanceStationClient.cs:78 | `string.Join` with a one-character separator; specified by its inverse in `SplitJoin` |
| Text.JoinInts | src/SynologyAPI/SurveillanceStationClient.cs:78 | `string.Join(",", cameraIds)`; specified by `JoinIntsRoundTrip` and `JoinIntsChars` |
| Json.Member | src/SynologyAPI/SynologyClient.cs:56 | indexing succeeds exactly on objects; a missing key gives null, a present one its value |
| Json.GetBool | src/SynologyAPI/SynologyClient.cs:68 | `GetValue<bool>` succeeds exactly on a JSON boolean and returns it |
| Json.GetInt32 | src/SynologyAPI/SynologyClient.cs:59 | `GetValue<int>` succeeds exactly on a number in the 32-bit range and returns it |
| Json.GetString | src/SynologyAPI/SynologyClient.cs:60 | `GetValue<string>` succeeds exactly on a JSON string and returns it |
| Json.AsArray | src/SynologyAPI/SurveillanceStationClient.cs:54 | `AsArray` succeeds exactly on an array and returns its items |
| Json.OptString | src/SynologyAPI/RouterClient.cs:63 | `node[key]?.GetValue<string>()` succeeds exactly when the member is absent, null or a string; null gives None, a string gives its text; any other kind raises |
| Json.OptInt32 | src/SynologyAPI/RouterClient.cs:65 | `node[key]?.GetValue<int>()` succeeds exactly when the member is absent, null or a 32-bit number; null gives None |
| Json.OptBool | src/SynologyAPI/RouterClient.cs:70 | `node[key]?.GetValue<bool>()` succeeds exactly when the member is absent, null or a boolean; null gives None |
| Json.ParseAll | src/SynologyAPI/SurveillanceStationClient.cs:54 | `Select(parse).ToList()` succeeds exactly when every element parses; the result keeps length and order; a failure is the first failing element's error |
| Query.RenderAppend | src/SynologyAPI/SynologyClient.cs:124-125 | appending a parameter appends `&k=v` to the query |
| Query.ParseRender | src/SynologyAPI/SynologyClient.cs:63 | a receiver splitting the query at `&` and `=` reads back exactly the rendered parameters, provided no name holds `&`/`=` and no value holds `&` |
| Query.UrlParts | src/SynologyAPI/SynologyClient.cs:63 | a request URI splits at its first `?` into `host/webapi/<path>` and the query |
| Query.UrlRoundTrip | src/SynologyAPI/SynologyClient.cs:63 | the parameters received from a built URI are exactly those it was built from |
| Protocol.QueryApiUri | src/SynologyAPI/SynologyClient.cs:122-125 | the discovery URI; specified by `QueryApiUriNarrowing` and `QueryApiUriParams` |
| Protocol.DiscoveryQuery | src/SynologyAPI/SynologyClient.cs:122-125 | the discovery parameters, with `query=<name>` appended for a non-empty name; specified by `QueryApiUriParams` |
| Protocol.QueryApiUriNarrowing | src/SynologyAPI/SynologyClient.cs:122-125 | the discovery URI is the fixed `query.cgi?api=SYNO.API.Info&version=1&method=query`, with `&query=<name>` added exactly when the name is non-empty |
| Protocol.QueryApiUriParams | src/SynologyAPI/SynologyClient.cs:122-125 | the receiver reads the three fixed parameters, then `query=<name>` when it is given |
| Protocol.Resolve | src/SynologyAPI/SynologyClient.cs:55-60 | an HTTP failure is a transport error, and every failure on a parsed body is a malformed response; every success is the `path` and `maxVersion` of the entry the reply lists under `data.<api>` |
| Protocol.ResolveListed | src/SynologyAPI/SynologyClient.cs:56-60 | for a listed API, the result is exactly the entry's `path` and `maxVersion`: the maximum version is always used |
| Protocol.ResolveUnlisted | src/SynologyAPI/SynologyClient.cs:56 | an API missing from `data` is a malformed response, a null dereference in the code |
| Protocol.ResolveReadsOnlyPathAndMaxVersion | src/SynologyAPI/SynologyClient.cs:59-60 | no other member of the entry, in particular not `minVersion`, affects the result |
| Protocol.ResolveIgnoresSuccessFlag | src/SynologyAPI/SynologyClient.cs:55-56 | the discovery reply's `success` flag has no effect on the result |
| Protocol.ReadSuccess | src/SynologyAPI/SynologyClient.cs:68 | reading `success` fails on an HTTP error and succeeds exactly on an object with a boolean `success`, giving that flag |
| Protocol.ListResult | src/SynologyAPI/RouterClient.cs:51-57 | a false flag raises the operation's message; success means a true flag, an array at the path, and each element parsed in order; with a true flag and an array, success holds exactly when every element parses |
| Session.SessionName | src/SynologyAPI/SynologyClient.cs:49 | `Default` stands in for a null or empty session name; used by `LoginRequestReceived` and `LogoutRequestReceived` |
| Session.LoginParams | src/SynologyAPI/SynologyClient.cs:63 | the login query's parameters in source order; specified by `LoginRequestReceived` |
| Session.LoginUri | src/SynologyAPI/SynologyClient.cs:63 | the login request URI; specified by `LoginRequestReceived` |
| Session.LogoutParams | src/SynologyAPI/SynologyClient.cs:100 | the logout query's parameters in source order; specified by `LogoutRequestReceived` |
| Session.LogoutUri | src/SynologyAPI/SynologyClient.cs:100 | the logout request URI; specified by `LogoutRequestReceived` and `LogoutRequestCarriesToken` |
| Session.ReadToken | src/SynologyAPI/SynologyClient.cs:70 | `data.sid` as a string; specified by `SignInStoresToken` |
| Session.SignInStep | src/SynologyAPI/SynologyClient.cs:42-76 | one sign-in from a given token and replies; specified by `SignInGuards`, `SignInStoresToken`, `SignInFailureKeepsToken`, `SignInTwice` and `SignInRequests` |
| Session.SignOutStep | src/SynologyAPI/SynologyClient.cs:82-112 | one sign-out from a given token and replies; specified by `SignOutRequiresToken`, `SignOutClearsOnlyOnSuccess` and `SignOutRetry` |
| Session.CheckHost | src/SynologyAPI/SynologyClient.cs:30-31 | a null host raises ArgumentNull("host"), an ill-formed one ArgumentInvalid("host"), and a well-formed one is kept unchanged |
| Session.SynologyClient.constructor | src/SynologyAPI/SynologyClient.cs:28-34 | a new client holds the host, no token, is not disposed and has sent nothing |
| Session.SynologyClient.Create | src/SynologyAPI/SynologyClient.cs:28-34 | construction succeeds exactly when the host checks pass, raising the check's error otherwise; the new client is logged out and has sent nothing |
| Session.SynologyClient.SignIn | src/SynologyAPI/SynologyClient.cs:42-76 | the result, the new token and the requests appended to the log are those of `SignInStep`; disposal state is unchanged |
| Session.SynologyClient.SignOut | src/SynologyAPI/SynologyClient.cs:82-112 | the result, the new token and the requests appended are those of `SignOutStep`; disposal state is unchanged |
| Session.SynologyClient.DisposeCore | src/SynologyAPI/SynologyClient.cs:155-166 | the client ends disposed; the HTTP client is released only on the first call, and only when `disposing` |
| Session.SynologyClient.Dispose | src/SynologyAPI/SynologyClient.cs:168-172 | the client ends disposed and the HTTP client is released at most once, by the first disposal; token and log are unchanged |
| Session.SignInGuards | src/SynologyAPI/SynologyClient.cs:44-48 | a held token raises AlreadyLoggedIn, then an empty user name or password raises ArgumentNull, without any request; requests are issued exactly when all three guards pass |
| Session.SignInStoresToken | src/SynologyAPI/SynologyClient.cs:66-71 | sign-in succeeds exactly when the guards pass, discovery resolves, the flag is true and `data.sid` is a string; the stored token is that string |
| Session.SignInFailureKeepsToken | src/SynologyAPI/SynologyClient.cs:68-75 | a failed sign-in leaves the token as it was; a false flag raises Unauthorized |
| Session.SignInTwice | src/SynologyAPI/SynologyClient.cs:44-45 | after a sign-in that stores a non-empty token, a second sign-in with any arguments raises AlreadyLoggedIn and issues nothing |
| Session.SignInRequests | src/SynologyAPI/SynologyClient.cs:55-64 | sign-in issues the discovery request for `SYNO.API.Auth`, then, when that resolves, the login request, and nothing else |
| Session.LoginRequestReceived | src/SynologyAPI/SynologyClient.cs:63 | the server receives `api=SYNO.API.Auth`, `method=login`, `version=<maxVersion>`, the escaped account, password and session (`Default` for an empty one) and `format=sid`, in that order |
| Session.SignOutRequiresToken | src/SynologyAPI/SynologyClient.cs:84-85 | without a token, sign-out raises NotLoggedIn and issues nothing |
| Session.SignOutClearsOnlyOnSuccess | src/SynologyAPI/SynologyClient.cs:103-111 | sign-out succeeds exactly when a token is held, discovery resolves and the flag is true; success clears the token, failure keeps it, and a false flag raises "Logout failed!" |
| Session.SignOutRetry | src/SynologyAPI/SynologyClient.cs:103-111 | after a failed sign-out, a retry against a successful server succeeds and clears the token |
| Session.LogoutRequestReceived | src/SynologyAPI/SynologyClient.cs:100 | the server receives `api`, `method=logout`, `version`, the escaped session and `_sid=<token>`, in that order |
| Session.LogoutRequestCarriesToken | src/SynologyAPI/SynologyClient.cs:100 | looking up `_sid` in the received logout query gives the held token, and `version` gives the resolved maximum version |
| SurveillanceStation.CamerasParams | src/SynologyAPI/SurveillanceStationClient.cs:48 | the eleven camera-list parameters in source order; specified by `CamerasRequestReceived` |
| SurveillanceStation.LiveViewParams | src/SynologyAPI/SurveillanceStationClient.cs:87 | the live-view parameters in source order; specified by `LiveViewRequestReceived` |
| SurveillanceStation.RecordingsParams | src/SynologyAPI/SurveillanceStationClient.cs:128 | the recording-list parameters in source order; specified by `RecordingsRequestReceived` |
| SurveillanceStation.StreamParams | src/SynologyAPI/SurveillanceStationClient.cs:162 | the live-stream URI parameters in source order; specified by `LiveStreamUriReceived` |
| SurveillanceStation.PrivCamTypeIsThree | src/SynologyAPI/SurveillanceStationClient.cs:47-48 | the live-view and recording privilege bits combine to `privCamType=3` |
| SurveillanceStation.GetCameras | src/SynologyAPI/SurveillanceStationClient.cs:32-60 | a blank token raises NotLoggedIn with no request; otherwise the first request is the discovery of `SYNO.SurveillanceStation.Camera`, and at most two are issued; a failed discovery raises its error after that one request |
| SurveillanceStation.GetCamerasOutcome | src/SynologyAPI/SurveillanceStationClient.cs:41-59 | once discovery resolves: the second request is the camera-list URI; a false flag raises "Unable to get cameras!"; a success is `data.cameras` parsed element-wise in order |
| SurveillanceStation.GetCamerasFailureEnvelope | src/SynologyAPI/SurveillanceStationClient.cs:52-58 | the envelope `{"success":false}` makes the camera list fail with "Unable to get cameras!" |
| SurveillanceStation.CamerasRequestReceived | src/SynologyAPI/SurveillanceStationClient.cs:48 | the server receives the eleven camera-list parameters in source order, with the resolved version, the limit, the offset and `_sid` |
| SurveillanceStation.GetLiveStreams | src/SynologyAPI/SurveillanceStationClient.cs:67-99 | a blank token raises NotLoggedIn, and then an empty ID list raises "Camera IDs must be specified.", neither issuing a request; otherwise discovery of the camera API comes first, and a failed discovery raises its error after that one request |
| SurveillanceStation.GetLiveStreamsOutcome | src/SynologyAPI/SurveillanceStationClient.cs:81-98 | once discovery resolves: two requests; a false flag raises "Unable to get cameras!"; a success is the `data` array parsed element-wise in order |
| SurveillanceStation.LiveViewRequestReceived | src/SynologyAPI/SurveillanceStationClient.cs:78-87 | the server receives `version`, `api`, `method=GetLiveViewPath`, `idList` and `_sid`, and `idList` reads back as the given IDs in order |
| SurveillanceStation.GetRecordings | src/SynologyAPI/SurveillanceStationClient.cs:108-140 | the same two guards as the live streams; otherwise discovery of `SYNO.SurveillanceStation.Recording` comes first, and a failed discovery raises its error after that one request |
| SurveillanceStation.GetRecordingsOutcome | src/SynologyAPI/SurveillanceStationClient.cs:122-139 | once discovery resolves: two requests; a false flag raises "Unable to get cameras!"; a success is `data.recordings` parsed element-wise in order |
| SurveillanceStation.RecordingsRequestReceived | src/SynologyAPI/SurveillanceStationClient.cs:119-128 | the server receives `version`, `api`, `method=List`, `cameraIds`, `offset`, `limit` and `_sid`, in that order |
| SurveillanceStation.GetLiveStreamUri | src/SynologyAPI/SurveillanceStationClient.cs:147-163 | a blank token raises NotLoggedIn; otherwise only the discovery request is issued, and the URI is returned exactly when discovery resolves |
| SurveillanceStation.LiveStreamUriReceived | src/SynologyAPI/SurveillanceStationClient.cs:162 | the URI is `host/webapi/<path>?` followed by `version`, `api`, `method=Stream`, `recordingId` and `_sid`, read back in that order |
| SurveillanceStation.CamerasRequestCarriesToken | src/SynologyAPI/SurveillanceStationClient.cs:48 | looking up `_sid` in the received camera-list query gives the held token, and `version` gives the resolved maximum version |
| SurveillanceStation.LiveViewRequestCarriesToken | src/SynologyAPI/SurveillanceStationClient.cs:87 | looking up `_sid` in the received live-view query gives the held token, and `version` the resolved version |
| SurveillanceStation.RecordingsRequestCarriesToken | src/SynologyAPI/SurveillanceStationClient.cs:128 | looking up `_sid` in the received recording-list query gives the held token, and `version` the resolved version |
| SurveillanceStation.LiveStreamUriCarriesToken | src/SynologyAPI/SurveillanceStationClient.cs:162 | the returned URI succeeds, and looking up `_sid` in its query gives the held token and `version` the resolved version |
| SurveillanceStation.BlankTokenIsLoggedInOnlyForTheSession | src/SynologyAPI/SurveillanceStationClient.cs:34-35 | the token " " counts as logged in for sign-in and sign-out (`IsNullOrEmpty`) but as logged out for the feature calls (`IsNullOrWhiteSpace`) |
| SurveillanceStation.SampleSignIn | src/SynologyAPI/SynologyClient.cs:55-71 | with the sample discovery entry `auth.cgi`/6 and the login reply `{"success":true,"data":{"sid":"abc123"}}`, sign-in succeeds and stores `abc123` |
| SurveillanceStation.SignInThenListCameras | src/SynologyAPI/SynologyClient.cs:68-71 | with the sample discovery and login replies, sign-in stores `abc123`, and the camera list then sends `_sid=abc123` |
| Router.ParseDevice | src/SynologyAPI/RouterClient.cs:60-87 | a record that is not an object raises; a decoded device never has `IsQOS` set |
| Router.ParseDeviceFlat | src/SynologyAPI/RouterClient.cs:62-86 | decoding an object succeeds exactly when all 23 member reads succeed, and then fills each property from its read |
| Router.ParseDeviceFields | src/SynologyAPI/RouterClient.cs:63-85 | decoding succeeds exactly when every property's member is absent, null or of its kind, and then every property equals the reference value `Expected` |
| Router.AllReadersIffExpected | src/SynologyAPI/RouterClient.cs:63-85 | the 23 reads all succeed exactly when every property's reference value is defined |
| Router.AssembledIsExpected | src/SynologyAPI/RouterClient.cs:63-85 | when the reads succeed, each property of the result equals its reference value |
| Router.TextReaderAgrees | src/SynologyAPI/RouterClient.cs:63 | a string read succeeds exactly when the reference does, and with the same value |
| Router.NumberReaderAgrees | src/SynologyAPI/RouterClient.cs:65 | an `int` read succeeds exactly when the reference does, and with the same value |
| Router.FlagReaderAgrees | src/SynologyAPI/RouterClient.cs:70 | a `bool` read succeeds exactly when the reference does, and with the same value |
| Router.NullExactlyWhenAbsent | src/SynologyAPI/RouterClient.cs:63-85 | a decoded property is null exactly when it has no wire key or its member is absent or null; otherwise the member holds that value |
| Router.DroppingAKeyNullsOnlyItsField | src/SynologyAPI/RouterClient.cs:63-85 | removing a member from a decodable record keeps it decodable and nulls only the property read from that member |
| Router.FieldReadsOnlyItsKey | src/SynologyAPI/RouterClient.cs:63-85 | a property depends only on the member under its own wire key |
| Router.WireKeysDistinct | src/SynologyAPI/RouterClient.cs:63-85 | no two properties are read from the same member |
| Router.EmptyRecordIsAllNull | src/SynologyAPI/RouterClient.cs:62-86 | `{}` decodes to a device with every property null |
| Router.ParseDeviceFailure | src/SynologyAPI/RouterClient.cs:63-85 | every decoding failure is a malformed response |
| Router.UnknownMemberIgnored | src/SynologyAPI/RouterClient.cs:63-85 | a member under no wire key changes neither whether decoding succeeds nor any decoded property |
| Router.BannedIsReadFromIsBaned | src/SynologyAPI/RouterClient.cs:70 | `IsBanned` is read from the member spelled `is_baned` |
| Router.IsBannedSpelledCorrectlyIsIgnored | src/SynologyAPI/RouterClient.cs:70 | a member spelled `is_banned` has no effect on the decoding |
| Router.DeviceForm | src/SynologyAPI/RouterClient.cs:41-47 | the four form fields of the device request; specified by `GetConnectedDevicesOutcome` and `DevicesRequestCarriesNoToken` |
| Router.GetConnectedDevices | src/SynologyAPI/RouterClient.cs:26-58 | a blank token raises NotLoggedIn with no request; otherwise discovery of `SYNO.Core.Network.NSM.Device` comes first; success implies a held token and a resolved API; a failed discovery raises its error after that one request |
| Router.GetConnectedDevicesOutcome | src/SynologyAPI/RouterClient.cs:40-57 | once discovery resolves: the second request is a POST to `host/webapi/<path>` of `conntype=all`, `api`, `method=get` and `version`; a false flag raises "Unable to retrieve connected devices"; a success is `data.devices` decoded in order, and with an array there it succeeds exactly when every record decodes |
| Router.DevicesRequestCarriesNoToken | src/SynologyAPI/RouterClient.cs:41-49 | any two held tokens give the same requests and result: the token is not sent |

## Left out

- The HTTP transport, `async`/`await` and `HttpClient` (src/SynologyAPI/SynologyClient.cs:130-149) are replaced by the `Reply` inputs. `EnsureSuccessStatusCode` and connection failures become `HttpError`.
- `new Uri(uri)` in `GetAsync`/`PostAsync` may reject a built URI. That is not modelled, and every built URI is taken as accepted.
- `FormUrlEncodedContent` encoding of the POST form is not modelled. A POST records its form fields as an ordered list.
- `JsonNode.Parse` of response text is not modelled: a reply carries the parsed document. JSON numbers are integers only, and floating point is left out.
- `ParseCamera`, `ParseLiveStream` and `ParseRecording` (src/SynologyAPI/SurveillanceStationClient.cs:165-196) are `JsonSerializer.Deserialize` calls into model classes that are not part of this model. They are a `parse` parameter of the list operations.
- `Uri.EscapeDataString` and `Uri.IsWellFormedUriString` are library functions, taken as function parameters with no assumed properties. The received-request lemmas therefore require that the escaped values hold no `&`. They also require that the token holds no `&`, because the code interpolates `_sid` unescaped (src/SynologyAPI/SynologyClient.cs:100, src/SynologyAPI/SurveillanceStationClient.cs:48, :87, :128, :162), and that neither the host nor the resolved path holds `?`, so that the receiver splits the URI at the query's own `?`.
- `GC.SuppressFinalize` and finalizers are left out.
- Operations on a disposed client are not modelled. In the code, the first `GetAsync` or `PostAsync` after `Dispose` throws `ObjectDisposedException`, because `_client` has been disposed. The model lets `SignIn`, `SignOut` and the feature calls go ahead on a disposed client.
- Culture settings are left out. An `int` renders in invariant decimal form with `-` as the sign.
- `char` is a Unicode scalar in Dafny and a UTF-16 code unit in C#. The difference is not modelled.
- Exception types are collapsed onto the `Error` datatype. For example, `InvalidOperationException("Not logged in.")` becomes `NotLoggedIn`, and a null dereference or a wrong-kind `GetValue` becomes `MalformedResponse`.
- Session.SynologyClient.constructor: receives a host already checked; the two host checks are in `Create` and `CheckHost`.
- SurveillanceStation.GetCameras: states the guard, the first request and the failed-discovery outcome. The outcome once discovery resolves is in `GetCamerasOutcome`.
- SurveillanceStation.GetLiveStreams: states the two guards, the first request and the failed-discovery outcome. The outcome once discovery resolves is in `GetLiveStreamsOutcome`.
- SurveillanceStation.GetRecordings: states the two guards, the first request and the failed-discovery outcome. The outcome once discovery resolves is in `GetRecordingsOutcome`.
- Router.GetConnectedDevices: states the guard, the first request and the failed-discovery outcome. The outcome once discovery resolves is in `GetConnectedDevicesOutcome`.
- Protocol.Resolve: its own contract says that a failure on a parsed body is `MalformedResponse`, but not which parsed bodies fail. `ResolveListed`, `ResolveUnlisted` and `ResolveReadsOnlyPathAndMaxVersion` cover those cases.
