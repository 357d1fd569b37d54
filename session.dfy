/** `SynologyClient`: the base client that owns the host, the session token
    (`_sid`) and the HTTP connection pool. Signing in and out moves the token
    between "logged out" (null or empty) and "logged in"; disposing releases
    the connection pool once.

    Each state-changing method is proved against a pure step function
    (`SignInStep`, `SignOutStep`) that gives its result, the new token and
    the requests it issues; the properties of the protocol are lemmas about
    those step functions. */
module Session {
  import opened Outcomes
  import opened Text
  import opened Json
  import opened Query
  import opened Protocol

  const AuthApi: string := "SYNO.API.Auth"
  const DefaultSession: string := "Default"

  /** The session name sent to the service: "Default" stands in for a null
      or empty one. */
  function SessionName(session: string): string {
    if IsNullOrEmpty(session) then DefaultSession else session
  }

  /** The constructor's checks on `host`: null raises ArgumentNullException,
      a string that is not a well-formed absolute URI (the library predicate
      `Uri.IsWellFormedUriString(host, UriKind.Absolute)`, a parameter here)
      raises ArgumentException; otherwise the host is kept unchanged. */
  function CheckHost(host: Option<string>, isWellFormed: string -> bool): (r: Result<string>)
    ensures r.Success? <==> host.Some? && isWellFormed(host.value)
    ensures r.Success? ==> r.value == host.value
    ensures host.None? ==> r == Failure(ArgumentNull("host"))
    ensures host.Some? && !isWellFormed(host.value) ==> r == Failure(ArgumentInvalid("host"))
  {
    match host
    case None => Failure(ArgumentNull("host"))
    case Some(h) => if isWellFormed(h) then Success(h) else Failure(ArgumentInvalid("host"))
  }

  /** The query of the login request. `escape` is `Uri.EscapeDataString`. */
  function LoginParams(api: ApiInfo, userName: string, password: string, session: string,
                       escape: string -> string): seq<Param>
  {
    [("api", AuthApi), ("method", "login"), ("version", IntToString(api.maxVersion)),
     ("account", escape(userName)), ("passwd", escape(password)),
     ("session", escape(SessionName(session))), ("format", "sid")]
  }

  function LoginUri(host: string, api: ApiInfo, userName: string, password: string, session: string,
                    escape: string -> string): string
  {
    Url(host, api.path, LoginParams(api, userName, password, session, escape))
  }

  /** The query of the logout request; the token is sent unescaped. */
  function LogoutParams(api: ApiInfo, session: string, sid: string, escape: string -> string): seq<Param> {
    [("api", AuthApi), ("method", "logout"), ("version", IntToString(api.maxVersion)),
     ("session", escape(SessionName(session))), ("_sid", sid)]
  }

  function LogoutUri(host: string, api: ApiInfo, session: string, sid: string, escape: string -> string): string {
    Url(host, api.path, LogoutParams(api, session, sid, escape))
  }

  /** `authResponse["data"]["sid"].GetValue<string>()`. */
  function ReadToken(reply: Reply): Result<string>
    requires reply.Body?
  {
    var node :- Path(reply.doc, ["data", "sid"]);
    GetString(node)
  }

  /** What a call to sign in or out does: its outcome, the token afterwards,
      and the requests it issued. */
  datatype Transition = Transition(result: Result<()>, sid: string, requests: seq<Request>)

  /** `SignInAsync` from token `sid`, given the transport's answers to the
      discovery request and to the login request. */
  function SignInStep(host: string, sid: string, userName: string, password: string, session: string,
                      escape: string -> string, discovery: Reply, reply: Reply): Transition
  {
    if !IsNullOrEmpty(sid) then Transition(Failure(AlreadyLoggedIn), sid, [])
    else if IsNullOrEmpty(userName) then Transition(Failure(ArgumentNull("userName")), sid, [])
    else if IsNullOrEmpty(password) then Transition(Failure(ArgumentNull("password")), sid, [])
    else
      var probe := Get(QueryApiUri(host, AuthApi));
      match Resolve(discovery, AuthApi)
      case Failure(e) => Transition(Failure(e), sid, [probe])
      case Success(api) =>
        var sent := [probe, Get(LoginUri(host, api, userName, password, session, escape))];
        match ReadSuccess(reply)
        case Failure(e) => Transition(Failure(e), sid, sent)
        case Success(ok) =>
          if !ok then Transition(Failure(Unauthorized), sid, sent)
          else match ReadToken(reply)
            case Failure(e) => Transition(Failure(e), sid, sent)
            case Success(token) => Transition(Success(()), token, sent)
  }

  /** `SignOutAsync` from token `sid`. */
  function SignOutStep(host: string, sid: string, session: string, escape: string -> string,
                       discovery: Reply, reply: Reply): Transition
  {
    if IsNullOrEmpty(sid) then Transition(Failure(NotLoggedIn), sid, [])
    else
      var probe := Get(QueryApiUri(host, AuthApi));
      match Resolve(discovery, AuthApi)
      case Failure(e) => Transition(Failure(e), sid, [probe])
      case Success(api) =>
        var sent := [probe, Get(LogoutUri(host, api, session, sid, escape))];
        match ReadSuccess(reply)
        case Failure(e) => Transition(Failure(e), sid, sent)
        case Success(ok) =>
          if ok then Transition(Success(()), "", sent)
          else Transition(Failure(OperationFailed("Logout failed!")), sid, sent)
  }

  class SynologyClient {
    /** `_host`, fixed at construction. */
    const host: string
    /** `_sid`; "" stands for null. */
    var sid: string
    /** `disposedValue`. */
    var disposed: bool
    /** How many times the HTTP client has been released. */
    ghost var releases: nat
    /** Every request issued so far, in order. */
    ghost var sent: seq<Request>

    ghost predicate Valid()
      reads this
    {
      releases <= 1 && (!disposed ==> releases == 0)
    }

    constructor (host: string)
      ensures Valid()
      ensures this.host == host && sid == "" && !disposed && releases == 0 && sent == []
    {
      this.host := host;
      sid := "";
      disposed := false;
      releases := 0;
      sent := [];
    }

    /** `new SynologyClient(host)`: validates the host, then builds a client
        that is logged out and has issued no request. */
    static method Create(host: Option<string>, isWellFormed: string -> bool) returns (r: Result<SynologyClient>)
      ensures r.Success? <==> CheckHost(host, isWellFormed).Success?
      ensures r.Failure? ==> r.error == CheckHost(host, isWellFormed).error
      ensures r.Success? ==> fresh(r.value) && r.value.Valid() && r.value.host == host.value
      ensures r.Success? ==> r.value.sid == "" && !r.value.disposed && r.value.sent == []
    {
      var checked := CheckHost(host, isWellFormed);
      if checked.Failure? {
        return Failure(checked.error);
      }
      var client := new SynologyClient(checked.value);
      return Success(client);
    }

    /** `SignInAsync(userName, password, session)`. */
    method SignIn(userName: string, password: string, session: string, escape: string -> string,
                  discovery: Reply, reply: Reply) returns (r: Result<()>)
      requires Valid()
      modifies this
      ensures Valid()
      ensures var t := SignInStep(host, old(sid), userName, password, session, escape, discovery, reply);
        r == t.result && sid == t.sid && sent == old(sent) + t.requests
      ensures disposed == old(disposed) && releases == old(releases)
    {
      if !IsNullOrEmpty(sid) {
        return Failure(AlreadyLoggedIn);
      }
      if IsNullOrEmpty(userName) {
        return Failure(ArgumentNull("userName"));
      }
      if IsNullOrEmpty(password) {
        return Failure(ArgumentNull("password"));
      }
      sent := sent + [Get(QueryApiUri(host, AuthApi))];
      var api := Resolve(discovery, AuthApi);
      if api.Failure? {
        return Failure(api.error);
      }
      sent := sent + [Get(LoginUri(host, api.value, userName, password, session, escape))];
      var ok := ReadSuccess(reply);
      if ok.Failure? {
        return Failure(ok.error);
      }
      if !ok.value {
        return Failure(Unauthorized);
      }
      var token := ReadToken(reply);
      if token.Failure? {
        return Failure(token.error);
      }
      sid := token.value;
      return Success(());
    }

    /** `SignOutAsync(session)`. */
    method SignOut(session: string, escape: string -> string, discovery: Reply, reply: Reply)
      returns (r: Result<()>)
      requires Valid()
      modifies this
      ensures Valid()
      ensures var t := SignOutStep(host, old(sid), session, escape, discovery, reply);
        r == t.result && sid == t.sid && sent == old(sent) + t.requests
      ensures disposed == old(disposed) && releases == old(releases)
    {
      if IsNullOrEmpty(sid) {
        return Failure(NotLoggedIn);
      }
      sent := sent + [Get(QueryApiUri(host, AuthApi))];
      var api := Resolve(discovery, AuthApi);
      if api.Failure? {
        return Failure(api.error);
      }
      sent := sent + [Get(LogoutUri(host, api.value, session, sid, escape))];
      var ok := ReadSuccess(reply);
      if ok.Failure? {
        return Failure(ok.error);
      }
      if !ok.value {
        return Failure(OperationFailed("Logout failed!"));
      }
      sid := "";
      return Success(());
    }

    /** `Dispose(bool disposing)`: the first call marks the client disposed
        and, when `disposing`, releases the HTTP client; later calls do
        nothing. */
    method DisposeCore(disposing: bool)
      requires Valid()
      modifies this
      ensures Valid() && disposed
      ensures releases == old(releases) + (if !old(disposed) && disposing then 1 else 0)
      ensures sid == old(sid) && sent == old(sent)
    {
      if !disposed {
        if disposing {
          releases := releases + 1;
        }
        disposed := true;
      }
    }

    /** `Dispose()`: releases the HTTP client unless already disposed, so it
        is released at most once however often this is called. */
    method Dispose()
      requires Valid()
      modifies this
      ensures Valid() && disposed && releases <= 1
      ensures releases == if old(disposed) then old(releases) else 1
      ensures sid == old(sid) && sent == old(sent)
    {
      DisposeCore(true);
    }
  }

  // -----------------------------------------------------------------------
  // Properties of signing in.

  /** Sign-in checks the token, then the user name, then the password, all
      before any request, and a failed check leaves the token as it was. */
  lemma SignInGuards(host: string, sid: string, userName: string, password: string, session: string,
                     escape: string -> string, discovery: Reply, reply: Reply)
    ensures var t := SignInStep(host, sid, userName, password, session, escape, discovery, reply);
      && (!IsNullOrEmpty(sid) ==> t == Transition(Failure(AlreadyLoggedIn), sid, []))
      && (IsNullOrEmpty(sid) && IsNullOrEmpty(userName) ==>
            t == Transition(Failure(ArgumentNull("userName")), sid, []))
      && (IsNullOrEmpty(sid) && !IsNullOrEmpty(userName) && IsNullOrEmpty(password) ==>
            t == Transition(Failure(ArgumentNull("password")), sid, []))
      && (t.requests != [] <==> IsNullOrEmpty(sid) && !IsNullOrEmpty(userName) && !IsNullOrEmpty(password))
  {
  }

  /** Sign-in succeeds exactly when the guards pass, the auth API resolves,
      and the login envelope reports success with a string `data.sid`; the
      token is then that `data.sid`. */
  lemma SignInStoresToken(host: string, sid: string, userName: string, password: string, session: string,
                          escape: string -> string, discovery: Reply, reply: Reply)
    ensures var t := SignInStep(host, sid, userName, password, session, escape, discovery, reply);
      t.result.Success? <==>
        IsNullOrEmpty(sid) && !IsNullOrEmpty(userName) && !IsNullOrEmpty(password) &&
        Resolve(discovery, AuthApi).Success? && ReadSuccess(reply) == Success(true) &&
        ReadToken(reply).Success?
    ensures var t := SignInStep(host, sid, userName, password, session, escape, discovery, reply);
      t.result.Success? ==> t.sid == ReadToken(reply).value
  {
  }

  /** A failed sign-in leaves the token as it was; a failure envelope raises
      `Unauthorized` and leaves the client logged out. */
  lemma SignInFailureKeepsToken(host: string, sid: string, userName: string, password: string, session: string,
                                escape: string -> string, discovery: Reply, reply: Reply)
    ensures var t := SignInStep(host, sid, userName, password, session, escape, discovery, reply);
      t.result.Failure? ==> t.sid == sid
    ensures var t := SignInStep(host, sid, userName, password, session, escape, discovery, reply);
      IsNullOrEmpty(sid) && !IsNullOrEmpty(userName) && !IsNullOrEmpty(password) &&
      Resolve(discovery, AuthApi).Success? && ReadSuccess(reply) == Success(false) ==>
        t.result == Failure(Unauthorized) && IsNullOrEmpty(t.sid)
  {
  }

  /** Once signed in with a non-empty token, signing in again fails with
      `AlreadyLoggedIn`, issues nothing and keeps the token. */
  lemma SignInTwice(host: string, userName: string, password: string, session: string,
                    escape: string -> string, discovery: Reply, reply: Reply,
                    userName': string, password': string, session': string, discovery': Reply, reply': Reply)
    requires
      var t := SignInStep(host, "", userName, password, session, escape, discovery, reply);
      t.result.Success? && !IsNullOrEmpty(t.sid)
    ensures
      var t := SignInStep(host, "", userName, password, session, escape, discovery, reply);
      SignInStep(host, t.sid, userName', password', session', escape, discovery', reply') ==
        Transition(Failure(AlreadyLoggedIn), t.sid, [])
  {
  }

  /** When the guards pass, sign-in first asks the discovery endpoint for the
      auth API, and then, only if that resolves, sends one login request to
      the resolved path. */
  lemma SignInRequests(host: string, userName: string, password: string, session: string,
                       escape: string -> string, discovery: Reply, reply: Reply)
    requires !IsNullOrEmpty(userName) && !IsNullOrEmpty(password)
    ensures var t := SignInStep(host, "", userName, password, session, escape, discovery, reply);
      match Resolve(discovery, AuthApi)
      case Failure(e) => t.requests == [Get(QueryApiUri(host, AuthApi))] && t.result == Failure(e)
      case Success(api) =>
        t.requests == [Get(QueryApiUri(host, AuthApi)), Get(LoginUri(host, api, userName, password, session, escape))]
  {
  }

  /** Values the client puts into a query unescaped or through `escape`
      carry no `&`, so the service can split each query unambiguously. */
  predicate PlainQueryValue(s: string) {
    '&' !in s
  }

  /** The literals of the auth requests hold no query delimiter (kept apart
      to keep each proof's literal reasoning small). */
  lemma AuthConstantsPlain()
    ensures '&' !in AuthApi && '&' !in "login" && '&' !in "logout" && '&' !in "sid"
    ensures PlainName("account") && PlainName("passwd") && PlainName("session") && PlainName("format")
  {
  }

  lemma LoginParamsUnambiguous(api: ApiInfo, userName: string, password: string, session: string,
                               escape: string -> string)
    requires PlainQueryValue(escape(userName)) && PlainQueryValue(escape(password))
    requires PlainQueryValue(escape(SessionName(session)))
    ensures Unambiguous(LoginParams(api, userName, password, session, escape))
  {
    CommonNamesPlain();
    AuthConstantsPlain();
    IntToStringChars(api.maxVersion);
  }

  lemma LogoutParamsUnambiguous(api: ApiInfo, session: string, sid: string, escape: string -> string)
    requires PlainQueryValue(sid) && PlainQueryValue(escape(SessionName(session)))
    ensures Unambiguous(LogoutParams(api, session, sid, escape))
  {
    CommonNamesPlain();
    AuthConstantsPlain();
    IntToStringChars(api.maxVersion);
  }

  /** What the service receives with the login request when the discovery
      entry of the auth API lists path `path` and maximum version `version`
      (and any `minVersion` or other keys): the resolved `maxVersion`, the
      escaped credentials, the escaped session name or "Default", and
      `format=sid`. */
  lemma LoginRequestReceived(host: string, userName: string, password: string, session: string,
                             escape: string -> string, doc: Json, entry: map<string, Json>,
                             path: string, version: Int32, reply: Reply)
    requires !IsNullOrEmpty(userName) && !IsNullOrEmpty(password)
    requires ListsEntry(doc, AuthApi, entry, ApiInfo(path, version))
    requires '?' !in host && '?' !in path
    requires PlainQueryValue(escape(userName)) && PlainQueryValue(escape(password))
    requires PlainQueryValue(escape(SessionName(session)))
    ensures var t := SignInStep(host, "", userName, password, session, escape, Body(doc), reply);
      |t.requests| == 2 && t.requests[1].Get? &&
      ReceivedParams(t.requests[1].uri) ==
        [("api", "SYNO.API.Auth"), ("method", "login"), ("version", IntToString(version)),
         ("account", escape(userName)), ("passwd", escape(password)),
         ("session", escape(if session == "" then "Default" else session)), ("format", "sid")]
  {
    ResolveListed(doc, AuthApi, entry, path, version);
    var api := ApiInfo(path, version);
    LoginParamsUnambiguous(api, userName, password, session, escape);
    UrlRoundTrip(host, path, LoginParams(api, userName, password, session, escape));
  }

  // -----------------------------------------------------------------------
  // Properties of signing out.

  /** Signing out with no token fails with `NotLoggedIn` and issues nothing. */
  lemma SignOutRequiresToken(host: string, session: string, escape: string -> string, discovery: Reply, reply: Reply)
    ensures SignOutStep(host, "", session, escape, discovery, reply) == Transition(Failure(NotLoggedIn), "", [])
  {
  }

  /** Sign-out clears the token exactly when the auth API resolves and the
      logout envelope reports success; any failure keeps the token, and a
      failure envelope raises `OperationFailed("Logout failed!")`. */
  lemma SignOutClearsOnlyOnSuccess(host: string, sid: string, session: string, escape: string -> string,
                                   discovery: Reply, reply: Reply)
    ensures var t := SignOutStep(host, sid, session, escape, discovery, reply);
      t.result.Success? <==>
        !IsNullOrEmpty(sid) && Resolve(discovery, AuthApi).Success? && ReadSuccess(reply) == Success(true)
    ensures var t := SignOutStep(host, sid, session, escape, discovery, reply);
      (t.result.Success? ==> t.sid == "") && (t.result.Failure? ==> t.sid == sid)
    ensures var t := SignOutStep(host, sid, session, escape, discovery, reply);
      !IsNullOrEmpty(sid) && Resolve(discovery, AuthApi).Success? && ReadSuccess(reply) == Success(false) ==>
        t.result == Failure(OperationFailed("Logout failed!"))
  {
  }

  /** A failed sign-out can be retried: the kept token passes the guard
      again, and a retry that gets a success envelope logs out. */
  lemma SignOutRetry(host: string, sid: string, session: string, escape: string -> string,
                     discovery: Reply, reply: Reply, discovery': Reply, reply': Reply)
    requires !IsNullOrEmpty(sid)
    requires SignOutStep(host, sid, session, escape, discovery, reply).result.Failure?
    requires Resolve(discovery', AuthApi).Success? && ReadSuccess(reply') == Success(true)
    ensures var t := SignOutStep(host, sid, session, escape, discovery, reply);
      SignOutStep(host, t.sid, session, escape, discovery', reply').result == Success(()) &&
      SignOutStep(host, t.sid, session, escape, discovery', reply').sid == ""
  {
  }

  /** What the service receives with the logout request: the resolved
      `maxVersion`, the escaped session name or "Default", and the token. */
  lemma LogoutRequestReceived(host: string, sid: string, session: string, escape: string -> string,
                              doc: Json, entry: map<string, Json>, path: string, version: Int32, reply: Reply)
    requires !IsNullOrEmpty(sid) && PlainQueryValue(sid)
    requires ListsEntry(doc, AuthApi, entry, ApiInfo(path, version))
    requires '?' !in host && '?' !in path
    requires PlainQueryValue(escape(SessionName(session)))
    ensures var t := SignOutStep(host, sid, session, escape, Body(doc), reply);
      |t.requests| == 2 && t.requests[1].Get? &&
      ReceivedParams(t.requests[1].uri) ==
        [("api", "SYNO.API.Auth"), ("method", "logout"), ("version", IntToString(version)),
         ("session", escape(if session == "" then "Default" else session)), ("_sid", sid)]
  {
    ResolveListed(doc, AuthApi, entry, path, version);
    var api := ApiInfo(path, version);
    LogoutParamsUnambiguous(api, session, sid, escape);
    UrlRoundTrip(host, path, LogoutParams(api, session, sid, escape));
  }
  /** The logout request the server receives carries `_sid=<token>` and
      `version=<maxVersion>`. */
  lemma LogoutRequestCarriesToken(host: string, sid: string, session: string, escape: string -> string,
                                  doc: Json, entry: map<string, Json>, path: string, version: Int32, reply: Reply)
    requires !IsNullOrEmpty(sid) && PlainQueryValue(sid)
    requires ListsEntry(doc, AuthApi, entry, ApiInfo(path, version))
    requires '?' !in host && '?' !in path
    requires PlainQueryValue(escape(SessionName(session)))
    ensures var t := SignOutStep(host, sid, session, escape, Body(doc), reply);
      |t.requests| == 2 && t.requests[1].Get? &&
      Lookup(ReceivedParams(t.requests[1].uri), "_sid") == Some(sid) &&
      Lookup(ReceivedParams(t.requests[1].uri), "version") == Some(IntToString(version))
  {
    LogoutRequestReceived(host, sid, session, escape, doc, entry, path, version, reply);
    var ps := ReceivedParams(SignOutStep(host, sid, session, escape, Body(doc), reply).requests[1].uri);
    LookupAt(ps, 4, "_sid");
    LookupAt(ps, 2, "version");
  }

}
