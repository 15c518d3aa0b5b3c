/** The data of the authorization endpoint: the requested response type, the
    request, the JSON token body, and the server error with its HTTP mapping. */
module Auth {
  import opened Wrappers
  import opened Pairs
  import opened Http

  /** Which grant shape the client asks for. */
  datatype ResponseType = Code | Token

  /** The name serde's derived `Serialize` would write for a response type: the
      variant's own name. The handler never serializes a response type; this is
      the partner against which decoding is checked. */
  function EncodeResponseType(t: ResponseType): string
  {
    match t
    case Code => "Code"
    case Token => "Token"
  }

  /** serde's reading of a response type: a variant's own name or its lower-case alias. */
  function DecodeResponseType(s: string): Option<ResponseType>
  {
    if s == "Code" || s == "code" then Some(Code)
    else if s == "Token" || s == "token" then Some(Token)
    else None
  }

  /** Exactly four names are accepted, and each is read as the variant it names. */
  lemma DecodeResponseTypeAccepts(s: string)
    ensures DecodeResponseType(s) == Some(Code) <==> s in {"Code", "code"}
    ensures DecodeResponseType(s) == Some(Token) <==> s in {"Token", "token"}
    ensures DecodeResponseType(s).None? <==> s !in {"Code", "code", "Token", "token"}
  {
  }

  lemma ResponseTypeRoundTrip(t: ResponseType)
    ensures DecodeResponseType(EncodeResponseType(t)) == Some(t)
  {
  }

  /** An authorization request: a response type and two optional pass-through strings. */
  datatype AuthRequest = AuthRequest(responseType: ResponseType, scope: Option<string>, redirectUri: Option<string>)

  function Get(fields: map<string, string>, name: string): Option<string>
  {
    if name in fields then Some(fields[name]) else None
  }

  /** Decoding a request from its named fields (form or JSON): `response_type` is
      required and must name a response type, `scope` and `redirect_uri` are optional,
      any other field is ignored. No check relates the fields to each other. */
  function DecodeAuthRequest(fields: map<string, string>): Option<AuthRequest>
  {
    if "response_type" !in fields then None
    else match DecodeResponseType(fields["response_type"])
      case None => None
      case Some(t) => Some(AuthRequest(t, Get(fields, "scope"), Get(fields, "redirect_uri")))
  }

  /** The fields a client sends for a request, absent options left out. The server
      only decodes requests (`AuthRequest` derives `Deserialize` alone); this
      client-side encoder has no counterpart in it and serves as decoding's partner. */
  function EncodeAuthRequest(req: AuthRequest): map<string, string>
  {
    var fields := map["response_type" := EncodeResponseType(req.responseType)];
    var fields := if req.scope.Some? then fields["scope" := req.scope.value] else fields;
    if req.redirectUri.Some? then fields["redirect_uri" := req.redirectUri.value] else fields
  }

  lemma AuthRequestRoundTrip(req: AuthRequest)
    ensures DecodeAuthRequest(EncodeAuthRequest(req)) == Some(req)
  {
  }

  /** A request without a readable `response_type` is refused before it reaches the dispatcher. */
  lemma DecodeAuthRequestFails(fields: map<string, string>)
    ensures DecodeAuthRequest(fields).None?
        <==> "response_type" !in fields || DecodeResponseType(fields["response_type"]).None?
  {
  }

  /** A field other than the three known ones does not change the decoded request. */
  lemma DecodeIgnoresUnknownFields(fields: map<string, string>, name: string, value: string)
    requires name !in {"response_type", "scope", "redirect_uri"}
    ensures DecodeAuthRequest(fields[name := value]) == DecodeAuthRequest(fields)
  {
  }

  /** The token body of an implicit grant. */
  datatype AuthResponse = AuthResponse(tokenType: string, accessToken: string, refreshToken: Option<string>, scope: Option<string>)

  /** serde's JSON object for an `AuthResponse`: the members in declaration order,
      with an absent `refresh_token` or `scope` left out rather than written as null. */
  function ToJson(r: AuthResponse): (members: seq<Pair>)
    ensures 2 <= |members| <= 4
    ensures members[0] == ("token_type", r.tokenType) && members[1] == ("access_token", r.accessToken)
  {
    [("token_type", r.tokenType), ("access_token", r.accessToken)]
      + Optional("refresh_token", r.refreshToken) + Optional("scope", r.scope)
  }

  /** Each member of the body is found under its own name, and an absent optional
      field has no key at all. */
  lemma ToJsonMembers(r: AuthResponse)
    ensures var members := ToJson(r);
            && DistinctKeys(members)
            && Lookup(members, "token_type") == Some(r.tokenType)
            && Lookup(members, "access_token") == Some(r.accessToken)
            && Lookup(members, "refresh_token") == r.refreshToken
            && Lookup(members, "scope") == r.scope
            && Keys(members) == {"token_type", "access_token"}
                                + (if r.refreshToken.Some? then {"refresh_token"} else {})
                                + (if r.scope.Some? then {"scope"} else {})
  {
    var required := [("token_type", r.tokenType), ("access_token", r.accessToken)];
    var refresh := Optional("refresh_token", r.refreshToken);
    var scope := Optional("scope", r.scope);
    assert ToJson(r) == required + (refresh + scope);
    KeysConcat(refresh, scope);
    KeysConcat(required, refresh + scope);
    forall key | key in {"token_type", "access_token", "refresh_token", "scope"}
      ensures Lookup(ToJson(r), key) == if key in Keys(required) then Lookup(required, key)
                                        else if key in Keys(refresh) then Lookup(refresh, key)
                                        else Lookup(scope, key)
    {
      LookupConcat(required, refresh + scope, key);
      LookupConcat(refresh, scope, key);
    }
  }

  /** Reading a token body back: the two required members must be there, the
      optional ones are None exactly when their key is missing. */
  function FromJson(members: seq<Pair>): Option<AuthResponse>
  {
    match (Lookup(members, "token_type"), Lookup(members, "access_token"))
    case (Some(t), Some(a)) => Some(AuthResponse(t, a, Lookup(members, "refresh_token"), Lookup(members, "scope")))
    case _ => None
  }

  lemma AuthResponseRoundTrip(r: AuthResponse)
    ensures FromJson(ToJson(r)) == Some(r)
  {
    ToJsonMembers(r);
  }

  /** The server's error type; its only variant reports a request the client must correct. */
  datatype ServerError = InputError(message: string)

  const INPUT_ERROR_PREFIX := "Input error: "

  /** `ResponseError::error_response`: 400 Bad Request whose plain-text body is the
      message after a fixed prefix. */
  function ErrorResponse(e: ServerError): (resp: HttpResponse)
    ensures resp.status == BAD_REQUEST && resp.headers == []
    ensures resp.body.Text? && |resp.body.text| == |INPUT_ERROR_PREFIX| + |e.message|
    ensures resp.body.text[..|INPUT_ERROR_PREFIX|] == INPUT_ERROR_PREFIX
    ensures resp.body.text[|INPUT_ERROR_PREFIX|..] == e.message
  {
    match e
    case InputError(msg) => HttpResponse(BAD_REQUEST, [], Text(INPUT_ERROR_PREFIX + msg))
  }

  /** Distinct errors give distinct responses: the message is recoverable from the body. */
  lemma ErrorResponseInjective(e1: ServerError, e2: ServerError)
    requires ErrorResponse(e1) == ErrorResponse(e2)
    ensures e1 == e2
  {
  }

  /** What the framework sends for a handler's result: the response itself, or the
      error's `error_response`. */
  function Render(result: Result<HttpResponse, ServerError>): HttpResponse
  {
    match result
    case Ok(resp) => resp
    case Err(e) => ErrorResponse(e)
  }
}
