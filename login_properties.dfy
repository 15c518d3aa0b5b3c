/** What the handler promises its clients, stated over the reference behaviour
    `Dispatch` that the handler `Endpoint.Login` is proved to follow. */
module LoginProperties {
  import opened Wrappers
  import opened Pairs
  import opened Urls
  import opened Http
  import opened Auth
  import opened Endpoint

  /** Code mode without a `redirect_uri` fails with the input error, which the
      framework sends as 400 with the message in the body; no redirect is produced. */
  lemma CodeWithoutRedirectUriFails(req: AuthRequest, tokens: IssuedTokens, parse: Parser, enc: Encoder)
    requires req.responseType == Code && req.redirectUri.None?
    ensures Dispatch(req, tokens, parse, enc) == Handled(Err(InputError(REDIRECT_URI_REQUIRED)))
    ensures var resp := Render(Dispatch(req, tokens, parse, enc).result);
            && resp.status == BAD_REQUEST
            && resp.body == Text(INPUT_ERROR_PREFIX + REDIRECT_URI_REQUIRED)
            && Header(resp, "Location").None?
  {
  }

  /** A `redirect_uri` the parser rejects makes the handler panic with the
      message given to `expect`. */
  lemma CodeWithMalformedRedirectUriPanics(req: AuthRequest, tokens: IssuedTokens, parse: Parser, enc: Encoder)
    requires req.responseType == Code && req.redirectUri.Some? && parse(req.redirectUri.value).None?
    ensures Dispatch(req, tokens, parse, enc) == Panicked("Failed to parse base search url")
  {
  }

  /** Code mode with a parsable `redirect_uri` answers 302 Found, whose `Location`
      is the extended URL and whose body names it. The URL keeps its base, its
      fragment and its own query pairs, followed by `access_token` and then
      `token_type=code`. */
  lemma CodeRedirects(req: AuthRequest, tokens: IssuedTokens, parse: Parser, enc: Encoder, u: Url)
    requires req.responseType == Code && req.redirectUri.Some? && parse(req.redirectUri.value) == Some(u)
    ensures var location := u.(query := u.query + RedirectPairs(tokens.accessToken, req.scope, tokens.refreshToken));
            && Dispatch(req, tokens, parse, enc).Handled?
            && Dispatch(req, tokens, parse, enc).result.Ok?
            && var resp := Dispatch(req, tokens, parse, enc).result.value;
            && resp.status == FOUND
            && Header(resp, "Location") == Some(Serialize(location, enc))
            && resp.body == Text("Redirecting to " + Serialize(location, enc))
            && location.base == u.base && location.fragment == u.fragment
            && location.query[..|u.query|] == u.query
            && location.query[|u.query|] == ("access_token", tokens.accessToken)
            && location.query[|u.query| + 1] == ("token_type", "code")
  {
  }

  /** The serialized redirect: the base, `?`, the URL's own pairs followed by `&`
      when it had any, the appended pairs joined by `&`, and the fragment. */
  lemma RedirectLocationText(u: Url, tokens: IssuedTokens, scope: Option<string>, enc: Encoder)
    ensures var added := RedirectPairs(tokens.accessToken, scope, tokens.refreshToken);
            Serialize(u.(query := u.query + added), enc)
            == u.base + "?" + (if u.query == [] then "" else QueryText(u.query, enc) + "&")
               + QueryText(added, enc) + FragmentText(u.fragment)
  {
    var added := RedirectPairs(tokens.accessToken, scope, tokens.refreshToken);
    if u.query == [] {
      assert u.query + added == added;
    } else {
      QueryTextConcat(u.query, added, enc);
    }
  }

  /** The query text of the worked instance below. */
  lemma ExampleQueryText(enc: Encoder)
    requires enc("access_token") == "access_token" && enc("token_type") == "token_type"
    requires enc("code") == "code" && enc("scope") == "scope" && enc("read") == "read"
    ensures QueryText(RedirectPairs("access_token", Some("read"), None), enc)
         == "access_token=access_token" + "&" + ("token_type=code" + "&" + "scope=read")
  {
  }

  /** A worked instance: a redirect URI without query, the scope `read`, no
      refresh token, and an encoder that leaves these names and values as they
      are (as form encoding does with letters and `_`). */
  lemma ExampleRedirect(parse: Parser, enc: Encoder)
    requires parse("https://example.com/cb") == Some(Url("https://example.com/cb", [], None))
    requires enc("access_token") == "access_token" && enc("token_type") == "token_type"
    requires enc("code") == "code" && enc("scope") == "scope" && enc("read") == "read"
    ensures Dispatch(AuthRequest(Code, Some("read"), Some("https://example.com/cb")), SOURCE_TOKENS, parse, enc)
         == Handled(Ok(RedirectResponse("https://example.com/cb" + "?"
                                        + ("access_token=access_token" + "&" + ("token_type=code" + "&" + "scope=read")))))
  {
    var u := Url("https://example.com/cb", [], None);
    var added := RedirectPairs("access_token", Some("read"), None);
    var req := AuthRequest(Code, Some("read"), Some("https://example.com/cb"));
    assert Dispatch(req, SOURCE_TOKENS, parse, enc) == Handled(Ok(RedirectResponse(Serialize(u.(query := u.query + added), enc))));
    assert u.(query := u.query + added) == Url(u.base, added, None);
    var text := QueryText(added, enc);
    assert Serialize(Url(u.base, added, None), enc) == u.base + "?" + text + "";
    assert u.base + "?" + text + "" == u.base + "?" + text;
    ExampleQueryText(enc);
  }

  /** Token mode never fails, and neither the `redirect_uri` nor the URL parser or
      encoder has any effect on its answer. */
  lemma TokenNeverFails(req: AuthRequest, tokens: IssuedTokens, parse: Parser, enc: Encoder,
                        otherUri: Option<string>, otherParse: Parser, otherEnc: Encoder)
    requires req.responseType == Token
    ensures Dispatch(req, tokens, parse, enc).Handled?
    ensures Dispatch(req, tokens, parse, enc).result.Ok?
    ensures Dispatch(req.(redirectUri := otherUri), tokens, otherParse, otherEnc) == Dispatch(req, tokens, parse, enc)
  {
  }

  /** Token mode answers 200 with `Cache-Control: no-store`; its JSON body reads
      back as a Bearer token with the issued access and refresh tokens and the
      request's scope, and an absent scope or refresh token has no key at all. */
  lemma TokenResponseBody(req: AuthRequest, tokens: IssuedTokens, parse: Parser, enc: Encoder)
    requires req.responseType == Token
    ensures var resp := Dispatch(req, tokens, parse, enc).result.value;
            && resp.status == OK
            && Header(resp, "Cache-Control") == Some("no-store")
            && resp.body.Json?
            && FromJson(resp.body.members) == Some(AuthResponse("Bearer", tokens.accessToken, tokens.refreshToken, req.scope))
            && ("scope" in Keys(resp.body.members) <==> req.scope.Some?)
            && ("refresh_token" in Keys(resp.body.members) <==> tokens.refreshToken.Some?)
  {
    var body := AuthResponse("Bearer", tokens.accessToken, tokens.refreshToken, req.scope);
    ToJsonMembers(body);
    AuthResponseRoundTrip(body);
  }

  /** With the material the handler issues as written, no answer carries a refresh
      token: code mode appends none, and token mode's body has no such key. */
  lemma SourceTokensNeverRefresh(req: AuthRequest, parse: Parser, enc: Encoder)
    ensures "refresh_token" !in Keys(RedirectPairs(SOURCE_TOKENS.accessToken, req.scope, SOURCE_TOKENS.refreshToken))
    ensures req.responseType == Token ==>
              var resp := Dispatch(req, SOURCE_TOKENS, parse, enc).result.value;
              resp.body.Json? && "refresh_token" !in Keys(resp.body.members)
  {
    RedirectPairsKeys(SOURCE_TOKENS.accessToken, req.scope, SOURCE_TOKENS.refreshToken);
    ToJsonMembers(AuthResponse("Bearer", SOURCE_TOKENS.accessToken, SOURCE_TOKENS.refreshToken, req.scope));
  }

  /** From submitted fields to the answer: `response_type=code` without a
      `redirect_uri` field decodes to a code request, which fails with the input error. */
  lemma CodeFieldsWithoutRedirectUriFail(fields: map<string, string>, tokens: IssuedTokens, parse: Parser, enc: Encoder)
    requires "response_type" in fields && fields["response_type"] == "code" && "redirect_uri" !in fields
    ensures DecodeAuthRequest(fields).Some?
    ensures Dispatch(DecodeAuthRequest(fields).value, tokens, parse, enc) == Handled(Err(InputError(REDIRECT_URI_REQUIRED)))
  {
  }
}
