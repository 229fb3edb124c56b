/** The request handlers of web.js as straight-line imperative code. Each handler
    receives the request, the response it writes to, the configuration, and the
    outcome of the one OAuth-client call it makes (the client's network work is
    outside the model); it creates the cookie store and the client it needs and
    returns them, so that callers can see what was (or was not) created, called
    and written. */
module Handlers {
  import opened Wrappers
  import opened Web

  /** A field of the locals object handed to a view. */
  datatype Local = Str(s: string) | Flag(b: bool)

  /** The arguments the OAuth client passed to a request's callback, relayed as
      they are. */
  datatype Reply = Reply(args: seq<string>)

  datatype Body = Text(text: string) | Relay(reply: Reply)

  /** How a response ends: a rendered view, a sent body, or a redirect. */
  datatype Action =
    | Render(view: string, locals: map<string, Local>)
    | Send(body: Body)
    | Redirect(url: string)

  /** One step taken on a response, in the order the handler takes it. A
      `SetCookie` is the directive that `store.write` attaches. */
  datatype Effect =
    | SetHeader(header: Header)
    | SetContentType(mime: string)
    | SetCookie(tokens: Params)
    | Finish(action: Action)

  /** The header steps for a list of headers, in order. */
  function HeaderEffects(hs: seq<Header>): (es: seq<Effect>)
    ensures |es| == |hs|
    ensures forall i :: 0 <= i < |hs| ==> es[i] == SetHeader(hs[i])
  {
    if hs == [] then [] else [SetHeader(hs[0])] + HeaderEffects(hs[1..])
  }

  /** Every redirect in `es` comes after a cookie write: the browser only sees
      the new session if the Set-Cookie directive went out with the redirect. */
  predicate CookieSetBeforeRedirect(es: seq<Effect>)
  {
    forall j :: 0 <= j < |es| && es[j].Finish? && es[j].action.Redirect? ==>
      exists i :: 0 <= i < j && es[i].SetCookie?
  }

  /** A cookie write followed by a redirect keeps the order. */
  lemma CookieThenRedirect(tokens: Params, url: string)
    ensures CookieSetBeforeRedirect([SetCookie(tokens), Finish(Redirect(url))])
  {
    var es := [SetCookie(tokens), Finish(Redirect(url))];
    assert es[0].SetCookie?;
  }

  /** An Express response. Its log only grows, and once a final action is in it
      nothing more may be added. */
  class Response {
    var log: seq<Effect>

    constructor ()
      ensures log == []
    {
      log := [];
    }

    predicate Finished()
      reads this
    {
      exists i :: 0 <= i < |log| && log[i].Finish?
    }

    /** `res.header(name, value)` */
    method AddHeader(name: string, value: string)
      requires !Finished()
      modifies this
      ensures log == old(log) + [SetHeader(Header(name, value))]
      ensures !Finished()
    {
      log := log + [SetHeader(Header(name, value))];
    }

    /** `res.contentType(mime)` */
    method ContentType(mime: string)
      requires !Finished()
      modifies this
      ensures log == old(log) + [SetContentType(mime)]
      ensures !Finished()
    {
      log := log + [SetContentType(mime)];
    }

    /** The cookie directive that the cookie store attaches when it writes. */
    method AttachCookie(tokens: Params)
      requires !Finished()
      modifies this
      ensures log == old(log) + [SetCookie(tokens)]
      ensures !Finished()
    {
      log := log + [SetCookie(tokens)];
    }

    /** `res.render`, `res.send` and `res.redirect`: the response ends. */
    method End(action: Action)
      requires !Finished()
      modifies this
      ensures log == old(log) + [Finish(action)]
      ensures Finished()
    {
      log := log + [Finish(action)];
      assert log[|log| - 1].Finish?;
    }
  }

  /** The per-request cookie store: the tokens read from the request's cookie,
      changed in memory, and written back to the response on `write`. */
  class CookieStore {
    var tokens: Params
    var written: bool

    /** `getStore(req)`: a new store loaded from the request's cookie. */
    constructor Load(req: Request)
      ensures tokens == req.cookies && !written
    {
      tokens := req.cookies;
      written := false;
    }

    /** What the OAuth client saves through its data store. */
    method Put(updates: Params)
      modifies this
      ensures tokens == old(tokens) + updates && written == old(written)
    {
      tokens := tokens + updates;
    }

    /** `store.removeAll()` */
    method RemoveAll()
      modifies this
      ensures tokens == map[] && written == old(written)
    {
      tokens := map[];
    }

    /** `store.write(res, k)` before its continuation `k` runs: the current
        tokens go out as a cookie directive on the response. */
    method Write(res: Response)
      requires !res.Finished()
      modifies this, res
      ensures written && tokens == old(tokens)
      ensures res.log == old(res.log) + [SetCookie(tokens)]
      ensures !res.Finished()
    {
      res.AttachCookie(tokens);
      written := true;
    }
  }

  datatype OAuthCall =
    | BeginAuthentication
    | CompleteAuthentication(verifier: string)
    | MakeRequest(name: string, args: Params)

  /** What a successful `beginAuthentication` yields: the provider's login URL
      and the request token the client keeps in its data store. */
  datatype Grant = Grant(loginUrl: string, requestTokens: Params)

  datatype User = User(firstName: string, lastName: string)

  /** The Rdio OAuth client, reduced to the calls it receives and what it saves
      in its data store. Each call is given the provider's outcome. */
  class RdioClient {
    const consumerKey: string
    const consumerSecret: string
    const authorizeCallback: string
    const store: CookieStore
    var calls: seq<OAuthCall>

    /** `getRdioClient(store)` */
    constructor (config: Config, store: CookieStore)
      ensures consumerKey == config.consumerKey && consumerSecret == config.consumerSecret
      ensures authorizeCallback == AuthorizeCallback(config)
      ensures this.store == store && calls == []
    {
      consumerKey := config.consumerKey;
      consumerSecret := config.consumerSecret;
      authorizeCallback := AuthorizeCallback(config);
      this.store := store;
      calls := [];
    }

    /** `rdio.beginAuthentication`: on success the request token is saved in the
        store and the login URL returned; on failure nothing is saved. */
    method BeginAuthentication(outcome: Result<Grant, string>) returns (r: Result<string, string>)
      modifies this, store
      ensures calls == old(calls) + [OAuthCall.BeginAuthentication]
      ensures store.written == old(store.written)
      ensures outcome.Success? ==>
        r == Success(outcome.value.loginUrl)
        && store.tokens == old(store.tokens) + outcome.value.requestTokens
      ensures outcome.Failure? ==> r == Failure(outcome.error) && store.tokens == old(store.tokens)
    {
      calls := calls + [OAuthCall.BeginAuthentication];
      match outcome
      case Success(grant) =>
        store.Put(grant.requestTokens);
        r := Success(grant.loginUrl);
      case Failure(e) =>
        r := Failure(e);
    }

    /** `rdio.completeAuthentication(verifier)`: on success the access token is
        saved in the store; on failure nothing is saved. */
    method CompleteAuthentication(verifier: string, outcome: Result<Params, string>)
      returns (r: Result<Params, string>)
      modifies this, store
      ensures calls == old(calls) + [OAuthCall.CompleteAuthentication(verifier)]
      ensures store.written == old(store.written) && r == outcome
      ensures store.tokens == old(store.tokens) + (if outcome.Success? then outcome.value else map[])
    {
      calls := calls + [OAuthCall.CompleteAuthentication(verifier)];
      if outcome.Success? {
        store.Put(outcome.value);
      } else {
        assert old(store.tokens) + map[] == store.tokens;
      }
      r := outcome;
    }

    /** `rdio.makeRequest(name, args)`: a signed API call whose reply is handed
        back as the provider gave it. */
    method MakeRequest<R>(name: string, args: Params, outcome: R) returns (r: R)
      modifies this
      ensures calls == old(calls) + [OAuthCall.MakeRequest(name, args)]
      ensures r == outcome
    {
      calls := calls + [OAuthCall.MakeRequest(name, args)];
      r := outcome;
    }
  }

  /** `handlers.main`: the page is HTML; if `currentUser` fails the anonymous
      view with the login link is shown, otherwise the user's name and the
      logout link. The session is neither changed nor written. */
  method HandleMain(req: Request, res: Response, config: Config, currentUser: Result<User, string>)
    returns (store: CookieStore, rdio: RdioClient)
    requires !res.Finished()
    modifies res
    ensures fresh(store) && fresh(rdio) && rdio.store == store
    ensures store.tokens == req.cookies && !store.written
    ensures rdio.calls == [OAuthCall.MakeRequest("currentUser", map[])]
    ensures currentUser.Failure? ==>
      res.log == old(res.log) + [SetContentType("text/html"),
        Finish(Render("main", map["authorized" := Flag(false),
                                  "loginEndpoint" := Str("auth/begin")]))]
    ensures currentUser.Success? ==>
      res.log == old(res.log) + [SetContentType("text/html"),
        Finish(Render("main", map["authorized" := Flag(true),
                                  "name" := Str(currentUser.value.firstName + " " + currentUser.value.lastName),
                                  "logoutEndpoint" := Str("auth/logout")]))]
  {
    res.ContentType("text/html");
    store := new CookieStore.Load(req);
    rdio := new RdioClient(config, store);
    var result := rdio.MakeRequest("currentUser", map[], currentUser);
    match result
    case Failure(_) =>
      res.End(Render("main", map["authorized" := Flag(false),
                                 "loginEndpoint" := Str(EndpointPath(LoginBegin))]));
    case Success(user) =>
      res.End(Render("main", map["authorized" := Flag(true),
                                 "name" := Str(user.firstName + " " + user.lastName),
                                 "logoutEndpoint" := Str(EndpointPath(Logout))]));
  }

  /** `handlers.loginBegin`: on failure a plain-text error is sent and the store
      is not written; on success the request token is saved, the store written,
      and only then the browser redirected to the login URL. */
  method HandleLoginBegin(req: Request, res: Response, config: Config, outcome: Result<Grant, string>)
    returns (store: CookieStore, rdio: RdioClient)
    requires !res.Finished()
    modifies res
    ensures fresh(store) && fresh(rdio) && rdio.store == store
    ensures rdio.calls == [OAuthCall.BeginAuthentication]
    ensures outcome.Failure? ==>
      store.tokens == req.cookies && !store.written
      && res.log == old(res.log) + [Finish(Send(Text("Error beginning request: " + outcome.error)))]
    ensures outcome.Success? ==>
      store.tokens == req.cookies + outcome.value.requestTokens && store.written
      && res.log == old(res.log) + [SetCookie(store.tokens), Finish(Redirect(outcome.value.loginUrl))]
    ensures CookieSetBeforeRedirect(res.log[|old(res.log)|..])
  {
    store := new CookieStore.Load(req);
    rdio := new RdioClient(config, store);
    var r := rdio.BeginAuthentication(outcome);
    if r.Failure? {
      res.End(Send(Text("Error beginning request: " + r.error)));
      assert res.log[|old(res.log)|..] == [Finish(Send(Text("Error beginning request: " + r.error)))];
      return;
    }
    store.Write(res);
    res.End(Redirect(r.value));
    assert res.log[|old(res.log)|..] == [SetCookie(store.tokens), Finish(Redirect(r.value))];
    CookieThenRedirect(store.tokens, r.value);
  }

  /** `handlers.loginEnd`: without a verifier the auth-error view is rendered and
      nothing else happens; with one, the verifier is exchanged, the store is
      written whatever the exchange gave, and the browser is sent to `/`. */
  method HandleLoginEnd(req: Request, res: Response, config: Config, outcome: Result<Params, string>)
    returns (store: CookieStore?, rdio: RdioClient?)
    requires !res.Finished()
    modifies res
    ensures !Truthy(Param(req, "oauth_verifier")) ==>
      store == null && rdio == null
      && res.log == old(res.log) + [Finish(Render("auth-error", map["mainEndpoint" := Str("/")]))]
    ensures Truthy(Param(req, "oauth_verifier")) ==>
      store != null && rdio != null && fresh(store) && fresh(rdio) && rdio.store == store
      && rdio.calls == [OAuthCall.CompleteAuthentication(Param(req, "oauth_verifier").value)]
      && store.tokens == req.cookies + (if outcome.Success? then outcome.value else map[])
      && store.written
      && res.log == old(res.log) + [SetCookie(store.tokens), Finish(Redirect("/"))]
    ensures CookieSetBeforeRedirect(res.log[|old(res.log)|..])
  {
    var verifier := Param(req, "oauth_verifier");
    assert "/" + EndpointPath(Main) == "/";
    if !Truthy(verifier) {
      res.End(Render("auth-error", map["mainEndpoint" := Str("/" + EndpointPath(Main))]));
      assert res.log[|old(res.log)|..] == [Finish(Render("auth-error", map["mainEndpoint" := Str("/")]))];
      store, rdio := null, null;
      return;
    }
    var s := new CookieStore.Load(req);
    var client := new RdioClient(config, s);
    var _ := client.CompleteAuthentication(Param(req, "oauth_verifier").value, outcome);
    s.Write(res);
    res.End(Redirect("/" + EndpointPath(Main)));
    assert res.log[|old(res.log)|..] == [SetCookie(s.tokens), Finish(Redirect("/"))];
    CookieThenRedirect(s.tokens, "/");
    store, rdio := s, client;
  }

  /** `handlers.logout`: the store is emptied, written, and the browser sent to
      `/`, whatever the session held. */
  method HandleLogout(req: Request, res: Response) returns (store: CookieStore)
    requires !res.Finished()
    modifies res
    ensures fresh(store) && store.tokens == map[] && store.written
    ensures res.log == old(res.log) + [SetCookie(map[]), Finish(Redirect("/"))]
    ensures CookieSetBeforeRedirect(res.log[|old(res.log)|..])
  {
    store := new CookieStore.Load(req);
    store.RemoveAll();
    store.Write(res);
    assert "/" + EndpointPath(Main) == "/";
    res.End(Redirect("/" + EndpointPath(Main)));
    assert res.log[|old(res.log)|..] == [SetCookie(map[]), Finish(Redirect("/"))];
    CookieThenRedirect(map[], "/");
  }

  /** `handlers.proxy`: the CORS headers are set, then the named API method is
      called with the request's arguments and the reply is sent back as it
      came. The session is neither changed nor written. */
  method HandleProxy(req: Request, res: Response, config: Config, reply: Reply)
    returns (store: CookieStore, rdio: RdioClient)
    requires "method" in req.params
    requires !res.Finished()
    modifies res
    ensures fresh(store) && fresh(rdio) && rdio.store == store
    ensures store.tokens == req.cookies && !store.written
    ensures rdio.calls == [OAuthCall.MakeRequest(req.params["method"], RequestItems(req))]
    ensures res.log == old(res.log)
      + HeaderEffects(CorsHeaders(config.accessControlAllowOrigin, req.origin))
      + [Finish(Send(Relay(reply)))]
  {
    var args := RequestItems(req);
    var origin := req.origin;
    var allowedOrigins := JsString.Split(config.accessControlAllowOrigin, ',');
    ghost var before := res.log;
    if IsWildcard(allowedOrigins) {
      res.AddHeader(AllowOrigin, "*");
    } else if Truthy(origin) && JsString.IndexOf(allowedOrigins, origin.value) >= 0 {
      res.AddHeader(AllowOrigin, origin.value);
      res.AddHeader(AllowCredentials, "true");
    }
    assert res.log == before + HeaderEffects(CorsHeaders(config.accessControlAllowOrigin, origin));
    store := new CookieStore.Load(req);
    rdio := new RdioClient(config, store);
    var r := rdio.MakeRequest(req.params["method"], args, reply);
    res.End(Send(Relay(r)));
  }
}
