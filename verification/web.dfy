/** The pure request rules of web.js: the endpoint table, the choice of request
    arguments, the lookup of a request parameter, the CORS decision of the proxy
    handler, and the OAuth callback URL. */
module Web {
  import opened Wrappers
  import opened JsString

  /** A flat JavaScript object of string fields: query string, form body, route
      parameters, cookie tokens. */
  type Params = map<string, string>

  /** The parts of an Express request that the handlers read. `verb` is the HTTP method, `origin` is the
      `Origin` header, absent when the browser sent none. */
  datatype Request = Request(
    verb: string,
    params: Params,
    query: Params,
    body: Params,
    origin: Option<string>,
    cookies: Params)

  /** The configuration values web.js reads from its provider. */
  datatype Config = Config(
    consumerKey: string,
    consumerSecret: string,
    serverHostName: string,
    serverPort: nat,
    accessControlAllowOrigin: string)

  datatype Header = Header(name: string, value: string)

  const AllowOrigin := "Access-Control-Allow-Origin"
  const AllowCredentials := "Access-Control-Allow-Credentials"

  // ----- endpoint table -----

  datatype Endpoint = Main | LoginBegin | LoginEnd | Logout

  /** The path of each endpoint, without its leading slash. */
  function EndpointPath(e: Endpoint): (p: string)
    ensures p == "" <==> e == Main
    ensures e != Main ==> |p| > 5 && p[..5] == "auth/"
  {
    match e
    case Main => ""
    case LoginBegin => "auth/begin"
    case LoginEnd => "auth/end"
    case Logout => "auth/logout"
  }

  /** No two endpoints share a path. */
  lemma EndpointPathsDistinct(e1: Endpoint, e2: Endpoint)
    ensures EndpointPath(e1) == EndpointPath(e2) ==> e1 == e2
  {
  }

  /** The method name that the catch-all route `/:method` extracts from a path:
      one non-empty segment after the leading slash, or none when the route does
      not match. */
  function ProxyRouteMethod(path: string): (m: Option<string>)
    ensures m.Some? ==> path == "/" + m.value && m.value != "" && '/' !in m.value
    ensures m.None? ==> forall s :: s != "" && '/' !in s ==> path != "/" + s
  {
    if |path| >= 2 && path[0] == '/' && '/' !in path[1..] then
      assert path == "/" + path[1..];
      Some(path[1..])
    else
      NoSingleSegment(path);
      None
  }

  lemma NoSingleSegment(path: string)
    requires !(|path| >= 2 && path[0] == '/' && '/' !in path[1..])
    ensures forall s :: s != "" && '/' !in s ==> path != "/" + s
  {
    forall s | s != "" && '/' !in s ensures path != "/" + s {
      assert ("/" + s)[1..] == s;
    }
  }

  /** The catch-all proxy route never captures one of the fixed endpoints:
      `/` has no segment and the `auth/...` paths have two. */
  lemma FixedRoutesNotProxied(e: Endpoint)
    ensures ProxyRouteMethod("/" + EndpointPath(e)).None?
  {
    var path := "/" + EndpointPath(e);
    if e != Main {
      assert path[5] == '/';
      assert path[1..][4] == '/';
    }
  }

  // ----- request arguments -----

  /** `getRequestItems`: the form body of a POST, the query of a GET, and no
      arguments for any other method. The method name is compared verbatim. */
  function RequestItems(req: Request): (items: Params)
    ensures items == req.body || items == req.query || items == map[]
  {
    if req.verb == "POST" then req.body
    else if req.verb == "GET" then req.query
    else map[]
  }

  /** The arguments are drawn from one source only, chosen by the method:
      a POST never sees the query, a GET never sees the body, and any other
      method gets nothing. */
  lemma RequestItemsSource(req: Request, query': Params, body': Params)
    ensures req.verb == "POST" ==>
      RequestItems(req) == req.body && RequestItems(req.(query := query')) == req.body
    ensures req.verb == "GET" ==>
      RequestItems(req) == req.query && RequestItems(req.(body := body')) == req.query
    ensures req.verb != "POST" && req.verb != "GET" ==> RequestItems(req) == map[]
  {
  }

  /** Express's `req.param(name)` in the Express 2 line that `express.createServer`
      belongs to: a route parameter, else a query field, else a body field, else
      absent. */
  function Param(req: Request, name: string): (v: Option<string>)
    ensures v.Some? <==> name in req.params || name in req.query || name in req.body
    ensures name in req.params ==> v == Some(req.params[name])
    ensures name !in req.params && name in req.query ==> v == Some(req.query[name])
    ensures name !in req.params && name !in req.query && name in req.body ==> v == Some(req.body[name])
  {
    if name in req.params then Some(req.params[name])
    else if name in req.query then Some(req.query[name])
    else if name in req.body then Some(req.body[name])
    else None
  }

  /** JavaScript truthiness of an optional string: present and non-empty. */
  predicate Truthy(v: Option<string>)
  {
    v.Some? && v.value != ""
  }

  // ----- CORS decision of the proxy handler -----

  /** The split allowed-origins list is the lone wildcard entry. */
  predicate IsWildcard(allowed: seq<string>)
  {
    |allowed| == 1 && allowed[0] == "*"
  }

  /** The `Access-Control-Allow-*` headers the proxy adds, in the order it adds
      them, given the comma-separated allowed-origins configuration and the
      request's `Origin` header. */
  function CorsHeaders(allowOriginConfig: string, origin: Option<string>): (hs: seq<Header>)
    ensures |hs| <= 2
    ensures hs != [] ==> hs[0].name == AllowOrigin
    ensures |hs| == 2 ==> origin.Some? && hs == [Header(AllowOrigin, origin.value), Header(AllowCredentials, "true")]
  {
    var allowed := Split(allowOriginConfig, ',');
    if IsWildcard(allowed) then
      [Header(AllowOrigin, "*")]
    else if Truthy(origin) && IndexOf(allowed, origin.value) >= 0 then
      [Header(AllowOrigin, origin.value), Header(AllowCredentials, "true")]
    else
      []
  }

  /** The configuration means "any origin" exactly when it is the single
      character `*`: a list such as `*,x` or ` *` is not a wildcard. */
  lemma WildcardExactlyStar(allowOriginConfig: string)
    ensures IsWildcard(Split(allowOriginConfig, ',')) <==> allowOriginConfig == "*"
  {
    assert ',' !in "*";
    SplitIsSingle(allowOriginConfig, "*", ',');
  }

  /** With the wildcard configuration every request, whatever its origin, gets
      `Access-Control-Allow-Origin: *` and no credentials header. */
  lemma CorsWildcard(allowOriginConfig: string, origin: Option<string>)
    requires allowOriginConfig == "*"
    ensures CorsHeaders(allowOriginConfig, origin) == [Header(AllowOrigin, "*")]
    ensures forall h :: h in CorsHeaders(allowOriginConfig, origin) ==> h.name != AllowCredentials
  {
    WildcardExactlyStar(allowOriginConfig);
  }

  /** Otherwise a non-empty origin listed verbatim is echoed, with credentials. */
  lemma CorsEcho(allowOriginConfig: string, origin: string)
    requires allowOriginConfig != "*"
    requires origin != "" && origin in Split(allowOriginConfig, ',')
    ensures CorsHeaders(allowOriginConfig, Some(origin))
         == [Header(AllowOrigin, origin), Header(AllowCredentials, "true")]
  {
    WildcardExactlyStar(allowOriginConfig);
  }

  /** In every other case no CORS header is added: no origin, an empty origin,
      or an origin not in the list. */
  lemma CorsNone(allowOriginConfig: string, origin: Option<string>)
    requires allowOriginConfig != "*"
    requires !Truthy(origin) || origin.value !in Split(allowOriginConfig, ',')
    ensures CorsHeaders(allowOriginConfig, origin) == []
  {
    WildcardExactlyStar(allowOriginConfig);
  }

  /** The credentials header is sent exactly when a listed non-empty origin is
      echoed under a non-wildcard configuration, and then the allowed origin is
      that request origin. */
  lemma CorsCredentialsExactly(allowOriginConfig: string, origin: Option<string>)
    ensures Header(AllowCredentials, "true") in CorsHeaders(allowOriginConfig, origin)
        <==> allowOriginConfig != "*" && Truthy(origin)
             && origin.value in Split(allowOriginConfig, ',')
    ensures Header(AllowCredentials, "true") in CorsHeaders(allowOriginConfig, origin) ==>
              Header(AllowOrigin, origin.value) in CorsHeaders(allowOriginConfig, origin)
  {
    WildcardExactlyStar(allowOriginConfig);
  }

  /** Entries are compared verbatim: a list written with spaces after the commas
      does not admit the origins whose entries carry the space. */
  lemma CorsNoTrimming()
    ensures CorsHeaders("a, b", Some("b")) == []
    ensures CorsHeaders("*,a", Some("b")) == []
  {
    SplitJoin(["a", " b"], ',');
    assert Join(["a", " b"], ',') == "a, b";
    SplitJoin(["*", "a"], ',');
    assert Join(["*", "a"], ',') == "*,a";
  }

  // ----- OAuth callback URL -----

  /** `getCallBackUrl(path)`: the host name, then `:port` unless the port is 80,
      then `/` and the path. */
  function CallbackUrl(hostName: string, port: nat, path: string): (url: string)
    ensures |url| >= |hostName| + 1 + |path|
    ensures url[..|hostName|] == hostName
    ensures url[|url| - |path| - 1..] == "/" + path
  {
    var portPart := if port != 80 then ":" + DecimalString(port) else "";
    hostName + portPart + "/" + path
  }

  /** The callback the OAuth client is configured with: the login-end endpoint. */
  function AuthorizeCallback(config: Config): (url: string)
    ensures |url| >= 9 && url[|url| - 9..] == "/" + EndpointPath(LoginEnd)
  {
    CallbackUrl(config.serverHostName, config.serverPort, EndpointPath(LoginEnd))
  }

  /** Reads a callback URL back, given the host name it starts with: the port
      (80 when none is written) and the path. */
  function ParseCallbackUrl(hostName: string, url: string): (r: Option<(nat, string)>)
    ensures r.Some? ==> |url| > |hostName| && url[..|hostName|] == hostName
  {
    if |url| < |hostName| || url[..|hostName|] != hostName then None
    else
      var rest := url[|hostName|..];
      if |rest| > 0 && rest[0] == '/' then Some((80, rest[1..]))
      else if |rest| > 0 && rest[0] == ':' then
        var d := DigitPrefixLength(rest[1..]);
        if 0 < d && d + 1 < |rest| && rest[d + 1] == '/' then
          Some((ParseDecimal(rest[1..d + 1]), rest[d + 2..]))
        else None
      else None
  }

  /** The callback URL determines its port and path: reading it back gives the
      port it was built with and the path, and the port is written out exactly
      when it is not 80. */
  lemma CallbackUrlRoundTrip(hostName: string, port: nat, path: string)
    ensures ParseCallbackUrl(hostName, CallbackUrl(hostName, port, path)) == Some((port, path))
    ensures var url := CallbackUrl(hostName, port, path);
            url[|hostName|] == (if port == 80 then '/' else ':')
    ensures var url := CallbackUrl(hostName, port, path);
            port != 80 ==> url[|hostName| + 1..|url| - |path| - 1] == DecimalString(port)
    ensures var url := CallbackUrl(hostName, port, path);
            port == 80 ==> |url| == |hostName| + 1 + |path|
  {
    var url := CallbackUrl(hostName, port, path);
    var rest := url[|hostName|..];
    if port == 80 {
      assert rest == "/" + path;
    } else {
      var digits := DecimalString(port);
      assert rest == ":" + digits + "/" + path;
      assert rest[1..] == digits + ("/" + path);
      DigitPrefixOfDigits(digits, "/" + path);
      assert rest[1..|digits| + 1] == digits;
      assert rest[|digits| + 2..] == path;
      assert url[|hostName| + 1..|url| - |path| - 1] == digits;
      ParseDecimalString(port);
    }
  }
}
