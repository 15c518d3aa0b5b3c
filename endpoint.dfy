/** The authorization endpoint's handler `login`: it dispatches on the requested
    response type and builds either a redirect carrying the token in the query of
    the client's `redirect_uri` (code mode) or a JSON token body (token mode). */
module Endpoint {
  import opened Wrappers
  import opened Pairs
  import opened Urls
  import opened Http
  import opened Auth

  const REDIRECT_URI_REQUIRED := "redirect_uri is required when code is requested"
  const PARSE_FAILURE := "Failed to parse base search url"

  /** The token material issued for one request. */
  datatype IssuedTokens = IssuedTokens(accessToken: string, refreshToken: Option<string>)

  /** What the handler issues as written: a placeholder access token and no refresh token. */
  const SOURCE_TOKENS := IssuedTokens("access_token", None)

  /** What one call of the handler does: return a result to the framework, or panic.
      `Panicked` holds the message given to `expect`; the printed panic text also
      names the parse error, which the model does not carry. */
  datatype Outcome = Handled(result: Result<HttpResponse, ServerError>) | Panicked(message: string)

  /** The pairs code mode appends to the redirect URI's query, in the order appended:
      the access token, the literal `token_type=code`, then `scope` and `refresh_token`
      for those that are present. */
  function RedirectPairs(accessToken: string, scope: Option<string>, refreshToken: Option<string>): (ps: seq<Pair>)
    ensures 2 <= |ps| <= 4
    ensures ps[0] == ("access_token", accessToken) && ps[1] == ("token_type", "code")
  {
    [("access_token", accessToken), ("token_type", "code")]
      + Optional("scope", scope) + Optional("refresh_token", refreshToken)
  }

  /** The names appended are distinct, and an optional name is there exactly when its value is. */
  lemma RedirectPairsKeys(accessToken: string, scope: Option<string>, refreshToken: Option<string>)
    ensures var ps := RedirectPairs(accessToken, scope, refreshToken);
            && DistinctKeys(ps)
            && Keys(ps) == {"access_token", "token_type"}
                           + (if scope.Some? then {"scope"} else {})
                           + (if refreshToken.Some? then {"refresh_token"} else {})
  {
    var required := [("access_token", accessToken), ("token_type", "code")];
    var s := Optional("scope", scope);
    var t := Optional("refresh_token", refreshToken);
    assert RedirectPairs(accessToken, scope, refreshToken) == required + (s + t);
    KeysConcat(s, t);
    KeysConcat(required, s + t);
  }

  /** The optional pairs carry the request's scope and the issued refresh token. */
  lemma RedirectPairsLookup(accessToken: string, scope: Option<string>, refreshToken: Option<string>)
    ensures var ps := RedirectPairs(accessToken, scope, refreshToken);
            && Lookup(ps, "scope") == scope
            && Lookup(ps, "refresh_token") == refreshToken
  {
    var required := [("access_token", accessToken), ("token_type", "code")];
    var s := Optional("scope", scope);
    var t := Optional("refresh_token", refreshToken);
    assert RedirectPairs(accessToken, scope, refreshToken) == required + (s + t);
    LookupConcat(required, s + t, "scope");
    LookupConcat(s, t, "scope");
    LookupConcat(required, s + t, "refresh_token");
    LookupConcat(s, t, "refresh_token");
  }

  /** The order is fixed: `scope` right after the two required pairs, `refresh_token` last. */
  lemma RedirectPairsOrder(accessToken: string, scope: Option<string>, refreshToken: Option<string>)
    ensures var ps := RedirectPairs(accessToken, scope, refreshToken);
            && |ps| == 2 + |Optional("scope", scope)| + |Optional("refresh_token", refreshToken)|
            && (scope.Some? ==> ps[2] == ("scope", scope.value))
            && (refreshToken.Some? ==> ps[|ps| - 1] == ("refresh_token", refreshToken.value))
  {
  }

  /** `HttpResponse::Found().header("Location", ..).body("Redirecting to " + ..)`. */
  function RedirectResponse(location: string): HttpResponse
  {
    HttpResponse(FOUND, [("Location", location)], Text("Redirecting to " + location))
  }

  /** `HttpResponse::Ok().header("Cache-Control", "no-store").json(..)`; `json` adds
      the JSON content type because none was set. */
  function TokenResponse(body: AuthResponse): HttpResponse
  {
    HttpResponse(OK, [("Cache-Control", "no-store"), ("Content-Type", "application/json")], Json(ToJson(body)))
  }

  /** The reference behaviour of the handler, for given token material, URL parser
      and query encoder. */
  function Dispatch(req: AuthRequest, tokens: IssuedTokens, parse: Parser, enc: Encoder): Outcome
  {
    match req.responseType
    case Code =>
      if req.redirectUri.None? then Handled(Err(InputError(REDIRECT_URI_REQUIRED)))
      else (match parse(req.redirectUri.value)
        case None => Panicked(PARSE_FAILURE)
        case Some(u) =>
          var location := u.(query := u.query + RedirectPairs(tokens.accessToken, req.scope, tokens.refreshToken));
          Handled(Ok(RedirectResponse(Serialize(location, enc)))))
    case Token =>
      Handled(Ok(TokenResponse(AuthResponse("Bearer", tokens.accessToken, tokens.refreshToken, req.scope))))
  }

  /** Code mode's URL assembly: the parsed redirect URI extended pair by pair. */
  method BuildLocation(parsed: Url, accessToken: string, scope: Option<string>, refreshToken: Option<string>)
    returns (location: Url)
    ensures location.base == parsed.base && location.fragment == parsed.fragment
    ensures location.query == parsed.query + RedirectPairs(accessToken, scope, refreshToken)
  {
    location := parsed;
    location := location.AppendPair("access_token", accessToken);
    location := location.AppendPair("token_type", "code");
    if scope.Some? {
      location := location.AppendPair("scope", scope.value);
    }
    if refreshToken.Some? {
      location := location.AppendPair("refresh_token", refreshToken.value);
    }
  }

  /** The handler: `Url::parse(..).expect(..)` is the one way it panics. */
  method Login(req: AuthRequest, tokens: IssuedTokens, parse: Parser, enc: Encoder) returns (outcome: Outcome)
    ensures outcome == Dispatch(req, tokens, parse, enc)
  {
    var maybeScope := req.scope;
    match req.responseType {
      case Code =>
        if req.redirectUri.None? {
          return Handled(Err(InputError(REDIRECT_URI_REQUIRED)));
        }
        var redirectUri := req.redirectUri.value;
        var parsed := parse(redirectUri);
        if parsed.None? {
          return Panicked(PARSE_FAILURE);
        }
        var location := BuildLocation(parsed.value, tokens.accessToken, maybeScope, tokens.refreshToken);
        var href := Serialize(location, enc);
        outcome := Handled(Ok(HttpResponse(FOUND, [("Location", href)], Text("Redirecting to " + href))));
      case Token =>
        var response := AuthResponse("Bearer", tokens.accessToken, tokens.refreshToken, maybeScope);
        outcome := Handled(Ok(TokenResponse(response)));
    }
  }
}
