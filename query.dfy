/** Request targets of the web API: `host/webapi/<path>?k1=v1&k2=v2...`.
    Each request builder of the client is an interpolated string of exactly
    this shape; the model writes it as the ordered list of its parameters,
    rendered by `Url`, and proves that a receiver splitting the query at `&`
    and `=` reads back exactly that list. */
module Query {
  import opened Outcomes
  import opened Text

  type Param = (string, string)

  /** `k=v`. */
  function Pair(p: Param): string {
    p.0 + "=" + p.1
  }

  /** `k1=v1&k2=v2...` for the parameters in order. */
  function Render(ps: seq<Param>): string
    decreases |ps|
  {
    if |ps| == 0 then ""
    else if |ps| == 1 then Pair(ps[0])
    else Pair(ps[0]) + "&" + Render(ps[1..])
  }

  /** Appending one parameter appends `&k=v` to the query string. */
  lemma {:induction false} RenderAppend(ps: seq<Param>, p: Param)
    requires |ps| > 0
    ensures Render(ps + [p]) == Render(ps) + "&" + Pair(p)
    decreases |ps|
  {
    if |ps| > 1 {
      RenderAppend(ps[1..], p);
      assert (ps + [p])[1..] == ps[1..] + [p];
    }
  }

  /** `host/webapi/<path>`, the target of every call of the API family. */
  function Endpoint(host: string, path: string): string {
    host + "/webapi/" + path
  }

  /** `host/webapi/<path>?<query>`. */
  function Url(host: string, path: string, ps: seq<Param>): string {
    Endpoint(host, path) + "?" + Render(ps)
  }

  /** How the receiving web server reads a query string. */
  function ParseQuery(q: string): seq<Param> {
    var pieces := Split(q, '&');
    seq(|pieces|, i requires 0 <= i < |pieces| => SplitFirst(pieces[i], '='))
  }

  /** The value of the first parameter named `key`. */
  function Lookup(ps: seq<Param>, key: string): (r: Option<string>)
    ensures r.Some? <==> exists i | 0 <= i < |ps| :: ps[i].0 == key
    ensures r.Some? ==> exists i | 0 <= i < |ps| :: ps[i] == (key, r.value)
    decreases |ps|
  {
    if |ps| == 0 then None
    else if ps[0].0 == key then Some(ps[0].1)
    else Lookup(ps[1..], key)
  }

  /** `Lookup` finds the parameter at `i` when no earlier one has its name. */
  lemma {:induction false} LookupAt(ps: seq<Param>, i: nat, key: string)
    requires i < |ps| && ps[i].0 == key
    requires forall j | 0 <= j < i :: ps[j].0 != key
    ensures Lookup(ps, key) == Some(ps[i].1)
    decreases i
  {
    if i > 0 {
      LookupAt(ps[1..], i - 1, key);
    }
  }

  /** A parameter a query string can carry unambiguously: its name holds
      no `&` or `=`, its value no `&`. */
  predicate PlainParam(p: Param) {
    PlainName(p.0) && '&' !in p.1
  }

  predicate PlainName(k: string) {
    '&' !in k && '=' !in k
  }

  /** A parameter list a query string can carry unambiguously. */
  predicate Unambiguous(ps: seq<Param>) {
    forall i | 0 <= i < |ps| :: PlainParam(ps[i])
  }

  lemma {:induction false} SplitRender(ps: seq<Param>)
    requires |ps| > 0 && Unambiguous(ps)
    ensures Split(Render(ps), '&') == seq(|ps|, i requires 0 <= i < |ps| => Pair(ps[i]))
    decreases |ps|
  {
    assert '&' !in Pair(ps[0]);
    if |ps| == 1 {
      SplitWithout(Pair(ps[0]), '&');
    } else {
      SplitRender(ps[1..]);
      SplitAfter(Pair(ps[0]), '&', Render(ps[1..]));
    }
  }

  /** The receiver reads back exactly the parameters that were rendered. */
  lemma ParseRender(ps: seq<Param>)
    requires |ps| > 0 && Unambiguous(ps)
    ensures ParseQuery(Render(ps)) == ps
  {
    SplitRender(ps);
    forall i | 0 <= i < |ps| ensures SplitFirst(Pair(ps[i]), '=') == ps[i] {
      SplitFirstPair(ps[i].0, '=', ps[i].1);
    }
  }

  /** A URL splits at its first `?` into the endpoint and the query string,
      provided neither host nor path holds a `?`. */
  lemma UrlParts(host: string, path: string, ps: seq<Param>)
    requires '?' !in host && '?' !in path
    ensures SplitFirst(Url(host, path, ps), '?') == (Endpoint(host, path), Render(ps))
  {
    var e := Endpoint(host, path);
    forall i | 0 <= i < |e| ensures e[i] != '?' {
      if i >= |host| + |"/webapi/"| {
        assert e[i] == path[i - |host| - |"/webapi/"|];
      } else if i >= |host| {
        assert e[i] == "/webapi/"[i - |host|];
      } else {
        assert e[i] == host[i];
      }
    }
    SplitFirstPair(e, '?', Render(ps));
  }

  /** The parameters a receiver finds in a URL built by `Url`. */
  function ReceivedParams(url: string): seq<Param> {
    ParseQuery(SplitFirst(url, '?').1)
  }

  lemma UrlRoundTrip(host: string, path: string, ps: seq<Param>)
    requires '?' !in host && '?' !in path
    requires |ps| > 0 && Unambiguous(ps)
    ensures ReceivedParams(Url(host, path, ps)) == ps
  {
    UrlParts(host, path, ps);
    ParseRender(ps);
  }
}
