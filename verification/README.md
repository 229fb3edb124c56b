# pandordio-node request rules, modelled in Dafny

pandordio-node is a small Express server that relays a browser's calls to the
Rdio music API through OAuth 1.0 (RFC 5849), so that the browser never holds the
consumer credentials. The session (the OAuth tokens) lives in a cookie that is
loaded into a per-request store and written back to the response.

This project models the request-handling core of `web.js`:

- the pure rules: the endpoint table, `getRequestItems`, Express's
  `req.param`, the CORS decision of the proxy handler (the `Access-Control-Allow-*`
  headers of the CORS protocol, section 3.2 of the WHATWG Fetch Standard), and
  `getCallBackUrl`; together with the JavaScript built-ins they rest on
  (`split(',')`, `indexOf`, `Number#toString`): `split` and `toString` are
  proved against their inverses, and `indexOf` is characterised by its contract
  (-1 exactly when absent, otherwise the first position);
- the five handlers (`main`, `loginBegin`, `loginEnd`, `logout`, `proxy`) as
  imperative methods over three classes: a `Response` whose log of effects only
  grows and ends with one final action (render, send or redirect), a
  `CookieStore` with a token map and a `written` flag, and an `RdioClient` that
  records the calls it receives and saves tokens into its store. Each call into
  the OAuth client is given the provider's outcome (success or failure) as a
  parameter.

Files: `wrappers.dfy` (Option, Result), `jsstring.dfy` (module `JsString`),
`web.dfy` (module `Web`), `handlers.dfy` (module `Handlers`).

Behaviours of `web.js` worth knowing before reading the model:

- `loginEnd` writes the store and redirects to `/` whatever the verifier
  exchange gave (`web.js:81-86`); a failed exchange does not reset the session.
  `Handlers.HandleLoginEnd` states exactly that.
- `web.js` has no HTTPS enforcement and sets no strict-transport header, and it
  registers no route besides the four endpoints and `/:method`.

## Model

| member | source | states |
|---|---|---|
| `JsString.Split` | web.js:103 | `split(',')` yields at least one piece and no piece contains the separator |
| `JsString.JoinSplit` | web.js:103 | joining the pieces of a split with the separator gives back the configuration string |
| `JsString.SplitJoin` | web.js:103 | splitting a join of separator-free pieces gives back the pieces, so the split is exactly the comma-separated list |
| `JsString.SplitIsSingle` | web.js:103-105 | the split is the one-element list `[w]` if and only if the string is `w` |
| `JsString.IndexOf` | web.js:108 | `indexOf` is -1 exactly when the origin is absent from the list, otherwise the first position holding it |
| `JsString.DecimalString` | web.js:156 | `toString()` of a port gives non-empty decimal digits with no leading zero (zero is exactly `"0"`) |
| `JsString.ParseDecimalString` | web.js:156 | reading the digits back gives the port |
| `Web.EndpointPath` | web.js:18-23 | only `main` has the empty path; the other endpoints lie under `auth/` |
| `Web.EndpointPathsDistinct` | web.js:18-23 | no two endpoints share a path |
| `Web.ProxyRouteMethod` | web.js:132-133 | the `/:method` route matches exactly the paths `/` + one non-empty segment without `/`, and yields that segment |
| `Web.FixedRoutesNotProxied` | web.js:127-133 | no fixed endpoint route is ever matched by the catch-all proxy route |
| `Web.RequestItems` | web.js:8-16 | the arguments are the body, the query or nothing, never a mix; which one each method gets is stated by `Web.RequestItemsSource` |
| `Web.RequestItemsSource` | web.js:8-16 | POST takes the body (the query is ignored), GET takes the query (the body is ignored), any other method gets no arguments |
| `Web.Param` | web.js:69 | `req.param` is present exactly when the name is a route parameter, query field or body field; a route parameter wins over a query field, which wins over a body field |
| `Web.CorsHeaders` | web.js:102-111 | at most two headers, the allowed origin first and, when there are two, the request origin echoed followed by `Access-Control-Allow-Credentials: true`; the full decision is stated by the `Web.Cors*` lemmas and `Web.WildcardExactlyStar` |
| `Web.WildcardExactlyStar` | web.js:103-105 | the split list is the lone `*` exactly when the configuration is the string `*`; `*,x` is no wildcard |
| `Web.CorsWildcard` | web.js:105-107 | with the wildcard every request gets `Access-Control-Allow-Origin: *` whatever its origin, and never the credentials header |
| `Web.CorsEcho` | web.js:108-110 | otherwise a non-empty origin listed verbatim is echoed exactly, followed by `Access-Control-Allow-Credentials: true` |
| `Web.CorsNone` | web.js:105-111 | otherwise (no origin, empty origin, origin not listed) no CORS header is added |
| `Web.CorsCredentialsExactly` | web.js:105-111 | the credentials header is sent if and only if the configuration is not the wildcard and a non-empty origin is listed, and then that origin is the one echoed |
| `Web.CorsNoTrimming` | web.js:103-108 | list entries are not trimmed (`a, b` does not admit `b`) and `*,a` does not admit an unlisted origin |
| `Web.CallbackUrl` | web.js:153-159 | the callback URL starts with the host name and ends with `/` + path |
| `Web.CallbackUrlRoundTrip` | web.js:153-159 | the URL determines port and path: reading it back gives them; `:port` is written exactly when the port is not 80, and its digits are exactly `port.toString()`; with port 80 the URL is the host, `/` and the path |
| `Web.AuthorizeCallback` | web.js:142 | the client's authorize callback ends with `/auth/end` |
| `Handlers.Response.ContentType` | web.js:29 | `res.contentType` appends one content-type step to a response that has not ended |
| `Handlers.Response.AddHeader` | web.js:106-110 | `res.header` appends one header step to a response that has not ended |
| `Handlers.Response.End` | web.js:36-117 | `render` (web.js:36, 43, 72), `send` (web.js:58, 116) and `redirect` (web.js:62, 84, 94) append the final action and end the response |
| `Handlers.CookieStore.Load` | web.js:147-151 | `getStore` gives a store holding the request's cookie tokens, not yet written |
| `Handlers.CookieStore.RemoveAll` | web.js:92 | `removeAll` empties the token map |
| `Handlers.CookieStore.Write` | web.js:61-63 | `write` attaches the current tokens as a cookie directive to a response that has not ended |
| `Handlers.RdioClient.constructor` | web.js:138-145 | `getRdioClient` configures the consumer key and secret, the login-end callback URL and the store |
| `Handlers.RdioClient.BeginAuthentication` | web.js:56 | the call is recorded; on success the request token is saved and the login URL returned, on failure nothing is saved |
| `Handlers.RdioClient.CompleteAuthentication` | web.js:81 | the call is recorded with the verifier; on success the access token is saved, on failure nothing is saved |
| `Handlers.RdioClient.MakeRequest` | web.js:115 | the call is recorded with its method name and arguments and the reply is handed back unchanged |
| `Handlers.HandleMain` | web.js:28-49 | content type HTML, then a failed `currentUser` renders `main` with `authorized: false` and `loginEndpoint: auth/begin`; a successful one renders `authorized: true`, `name` = first name + space + last name, `logoutEndpoint: auth/logout`; the store is never written |
| `Handlers.HandleLoginBegin` | web.js:52-65 | on failure sends `Error beginning request: ` + the error, no cookie, no redirect; on success saves the request token, writes the store, then redirects to the login URL |
| `Handlers.HandleLoginEnd` | web.js:68-87 | a missing or empty verifier renders `auth-error` with `mainEndpoint: /`, creates no store and no client, calls nothing and does not redirect; otherwise calls `completeAuthentication` with the verifier, writes the store (with the access token only if the exchange succeeded) and then redirects to `/` |
| `Handlers.HandleLogout` | web.js:90-96 | the store is emptied, the empty token map is written, then the browser is redirected to `/` |
| `Handlers.HandleProxy` | web.js:98-118 | the CORS headers decided by `CorsHeaders` are set, the route's method name is called with `getRequestItems`'s arguments, and the reply is sent back unchanged as the final action; the store is not written |

## Left out

- Server plumbing (`createServer`, `setUp`, `app.listen`, body parsing, static files, the view engine, `process.env.PORT`, `web.js:121-136`, `web.js:161-166`) is not modelled; only the shape of the `/:method` route is, to show it cannot shadow the fixed endpoints.
- The Rdio client's internals (request signing, token endpoints, network calls) are not modelled: each call takes the provider's outcome as a parameter, and what the client saves in its data store is modelled as a merge of a token map into the store.
- The `cookie-store` and `config_provider` modules are not part of this model: loading the store reads the request's cookie tokens as a map, writing it attaches those tokens as one cookie directive, and configuration values are passed in as a `Config` value.
- EJS rendering, `JSON.stringify` of the begin error (the error arrives already serialised) and the JavaScript `arguments` object (modelled as a `Reply` value relayed as it is) are not modelled further.
- The asynchronous callbacks are modelled as straight-line code in the order the callbacks run; timeouts and cancellation are not modelled.
- `res.header` is modelled as appending a header; Express overwrites an earlier header of the same name, which the handlers never set twice.
- Handlers.HandleProxy: the order between setting the CORS headers and issuing the downstream call is not stated, because the client call is recorded on the client and not in the response log; what is stated is that the headers precede the sent reply.
- Handlers.HandleMain: the user record is modelled with its two name fields. A reply whose `result` lacks a name field (JavaScript would show `undefined`) is not modelled, nor is a reply without `result` at all, on which `web.js:45` throws a TypeError and the response never ends.
- Web.Param: the lookup follows Express 2 (route parameters, then query, then body), the line that `express.createServer` at `web.js:122` belongs to; Express 3 and later look at the body before the query, which differs only when both carry `oauth_verifier`.
- Web.Request: every query, body and route field is modelled as a string. Express's query parser gives an array for a repeated key, and a JSON body can give numbers or objects; either changes the truthiness test at `web.js:71` (a JSON `0` is falsy, an empty array truthy), which the model does not capture.
- Web.CallbackUrl: the port is a non-negative integer; a string-valued port compared with `!= 80` by JavaScript's loose equality is not modelled.
- Web.CorsHeaders: a missing `accessControlAllowOrigin` setting (on which `split` would throw) is not modelled; the setting is always a string.
- Web.ProxyRouteMethod: Express's tolerance of a trailing slash and the percent-decoding of route parameters are not modelled.
