# Authorization endpoint dispatcher (actixdemo) in Dafny

This project models the authorization endpoint of a small actix-web service, written loosely after OAuth 2.0. A client posts an authorization request with a `response_type` (`code` or `token`), an optional `scope` and an optional `redirect_uri`. The handler `login` then does one of two things:

- **Code mode.** `redirect_uri` is required. The handler parses it, appends `access_token`, `token_type=code`, then `scope` and `refresh_token` if they are present, and answers `302 Found` with a `Location` header.
- **Token mode.** The handler answers `200 OK` with `Cache-Control: no-store` and a JSON body with `token_type` `Bearer`. An absent `refresh_token` or `scope` is left out of the JSON, not written as null.

The one validated error, a missing `redirect_uri` in code mode, is sent as `400 Bad Request` with the body `Input error: <message>`.

Files and modules:

- `wrappers.dfy` (`Wrappers`): `Option` and `Result`.
- `pairs.dfy` (`Pairs`): ordered name/value lists. These are used for URL queries, headers and JSON members. The module has `Keys`, `Lookup` and concatenation lemmas.
- `urls.dfy` (`Urls`): an abstract URL, made of a base plus query pairs plus an optional fragment. It has `append_pair` as `Url.AppendPair`, and `Url::as_str` as `Serialize`. Serialization takes an `Encoder` parameter, which stands for form-urlencoding.
- `http.dfy` (`Http`): an HTTP response, made of a status, headers and a body. The body is either text or a JSON object.
- `auth.dfy` (`Auth`): `ResponseType` and its serde names, `AuthRequest` and its decoding from named fields, `AuthResponse` and its JSON members, and `ServerError` with `error_response`.
- `endpoint.dfy` (`Endpoint`): the handler itself. `Login` is a method that builds the redirect URL step by step through `BuildLocation`. It is proved equal to the reference function `Dispatch`.
- `login_properties.dfy` (`LoginProperties`): what the handler promises, stated over `Dispatch`.

Parameters and modelling decisions:

- **URL parsing.** `Url::parse` is foreign code, so it is a parameter `parse: string -> Option<Url>`.
- **Query encoding.** The form-urlencoder for query names and values is also foreign. It is a parameter `enc: string -> string`.
- **Token material.** The issued tokens are a parameter `IssuedTokens`. This lets the refresh-token branches be exercised. `SOURCE_TOKENS` is what the handler issues as written: `"access_token"` and no refresh token (src/main.rs:60-61).
- **The `expect` panic.** `Url::parse(..).expect(..)` panics when the parse fails. This is modelled as an explicit outcome, `Outcome.Panicked("Failed to parse base search url")`, not as a precondition. The message held is the argument given to `expect`. It is separate from `Handled(result)`, which holds the `Result<HttpResponse, ServerError>` that the handler returns.
- **Malformed `redirect_uri`.** A malformed `redirect_uri` is not turned into an input error: `expect` panics, and the model returns `Panicked`.
- **serde aliases.** An alias adds a name and keeps the variant's own name. So `DecodeResponseType` accepts `Code`, `code`, `Token` and `token`, not only the two lower-case names.
- **Content-Type.** actix's `.json(..)` adds `Content-Type: application/json` when no content type was set, so `TokenResponse` carries that header besides `Cache-Control`. `.body(..)` adds no header. actix keeps headers in a hash map, so the order of the header list belongs to the model only; no contract depends on it.

## Model

| member | source | states |
|---|---|---|
| `Auth.DecodeResponseTypeAccepts` | src/main.rs:30-36 | Exactly `Code`/`code` read as Code and `Token`/`token` as Token; every other string is refused. |
| `Auth.ResponseTypeRoundTrip` | src/main.rs:30-36 | The serialized name of a response type reads back as the same response type. |
| `Auth.AuthRequestRoundTrip` | src/main.rs:38-46 | A request's fields decode back to the same request; absent options stay absent. |
| `Auth.DecodeAuthRequestFails` | src/main.rs:38-46 | Over inputs where no field is repeated, decoding fails if and only if `response_type` is missing or is not a known name. |
| `Auth.DecodeIgnoresUnknownFields` | src/main.rs:38-46 | A field other than `response_type`, `scope` and `redirect_uri` does not change the decoded request. |
| `Auth.ToJson` | src/main.rs:48-56 | The JSON object has 2 to 4 members; `token_type` comes first and `access_token` second. |
| `Auth.ToJsonMembers` | src/main.rs:48-56 | The member names are distinct. Each field is found under its own name. `refresh_token` and `scope` have a key exactly when they are present. |
| `Auth.AuthResponseRoundTrip` | src/main.rs:48-56 | Reading the JSON members back gives the same token body. |
| `Auth.ErrorResponse` | src/main.rs:134-143 | An input error becomes 400 with no headers; its text body is `Input error: ` followed by exactly the message. |
| `Auth.ErrorResponseInjective` | src/main.rs:137 | Two errors with the same response are the same error, so the message can be recovered from the body. |
| `Urls.QueryTextAppend` | src/main.rs:72-83 | Appending a pair extends the query text by `&` and the encoded pair, or by the pair alone when the query was empty. |
| `Urls.QueryTextConcat` | src/main.rs:72-83 | The text of two concatenated non-empty queries is their two texts joined by one `&`. |
| `Urls.AppendPairSerialize` | src/main.rs:72-75 | `append_pair` keeps the URL's base and fragment and puts the encoded pair at the end of the query, after `?` or `&`. |
| `Endpoint.RedirectPairs` | src/main.rs:72-83 | Each appended list has 2 to 4 pairs, starting with `access_token` and then `token_type=code`. |
| `Endpoint.RedirectPairsKeys` | src/main.rs:77-83 | The appended names are distinct; `scope` and `refresh_token` occur exactly when their value is present. |
| `Endpoint.RedirectPairsLookup` | src/main.rs:77-83 | The appended `scope` is the request's scope, and the appended `refresh_token` is the issued refresh token. |
| `Endpoint.RedirectPairsOrder` | src/main.rs:77-83 | `scope` comes right after the two required pairs, and `refresh_token` always comes last. |
| `Endpoint.BuildLocation` | src/main.rs:69-83 | The step-by-step URL assembly keeps the base and fragment. Its query is the parsed query followed by exactly the redirect pairs. |
| `Endpoint.Login` | src/main.rs:58-108 | The handler: error, panic, redirect or token response exactly as `Dispatch` prescribes. |
| `LoginProperties.CodeWithoutRedirectUriFails` | src/main.rs:65-67 | Code mode without `redirect_uri` gives `InputError("redirect_uri is required when code is requested")`. This is sent as 400 with `Input error: ` plus that message, and with no `Location`. |
| `LoginProperties.CodeWithMalformedRedirectUriPanics` | src/main.rs:69-70 | An unparsable `redirect_uri` makes the handler panic, with `Failed to parse base search url` as the message given to `expect`, before any pair or response is built. |
| `LoginProperties.CodeRedirects` | src/main.rs:85-89 | A parsable `redirect_uri` gives 302. `Location` is the extended URL, and the body is `Redirecting to ` plus that URL. The URL's own pairs come first, then `access_token`, then `token_type=code`. |
| `LoginProperties.RedirectLocationText` | src/main.rs:69-87 | The `Location` text is the base, `?`, the URL's own pairs and `&` if it had any, the appended pairs joined by `&`, and the fragment. |
| `LoginProperties.ExampleQueryText` | src/main.rs:72-83 | With scope `read` and no refresh token, the appended query text is `access_token=access_token&token_type=code&scope=read`. |
| `LoginProperties.ExampleRedirect` | src/main.rs:65-89 | `https://example.com/cb` with scope `read` redirects to `https://example.com/cb?access_token=access_token&token_type=code&scope=read`. |
| `LoginProperties.TokenNeverFails` | src/main.rs:92-106 | Token mode always returns a response. Changing `redirect_uri`, the parser or the encoder does not change it. |
| `LoginProperties.TokenResponseBody` | src/main.rs:94-103 | Token mode gives 200 with `Cache-Control: no-store`. The JSON reads back as a Bearer token with the issued tokens and the request's scope. There is no `scope` or `refresh_token` key when that value is absent. |
| `LoginProperties.SourceTokensNeverRefresh` | src/main.rs:60-61 | With the token material issued as written, a code redirect appends no `refresh_token`, and a token body has no `refresh_token` key. |
| `LoginProperties.CodeFieldsWithoutRedirectUriFail` | src/main.rs:58-67 | Submitted fields `response_type=code` without `redirect_uri` decode, and then fail with the input error. |

## Left out

- The server setup in `main`: routing, the content-type route guards, CORS, the logger and the environment/backtrace setup (src/main.rs:148-177). This is framework plumbing.
- `login_form` and `login_json` (src/main.rs:110-116). They only unwrap the form or JSON extractor before calling `login`. `DecodeAuthRequest` stands for both decoders.
- `ok_validator` and the bearer gate on `/secured` (src/main.rs:13-19, 156-158). The validator only prints the credential and admits the request. Header extraction is done by `actix_web_httpauth`.
- The `hello`, `echo` and `manual_hello` handlers (src/main.rs:8-28). They return fixed responses.
- The `Display` impl of `ServerError`, which always writes `Test` (src/main.rs:128-132). The response path does not use it.
- The internals of the `url` crate. WHATWG parsing is the `parse` parameter, and byte-level form-urlencoding is the `enc` parameter.
- How existing query text is kept. The crate keeps an existing query's original text and only appends to it. The model stores the query as decoded pairs and re-encodes all of them with `enc`. A query that is not a list of name=value pairs cannot be represented.
- serde's JSON and form byte encoding. A JSON object is modelled as its list of string members. Request fields are modelled as a map of strings, so a JSON `null`, non-string values and a field given twice (which serde refuses as a duplicate field) are not represented.
- `Panicked`: the text a panicking `expect` prints is its message followed by `: ` and the parse error's debug form. The parser here returns an `Option`, so the model holds the message alone.
- Header-name case-insensitivity, and the headers the framework adds later, such as Content-Length.
- Async execution and concurrency. The handler keeps no shared state. Because `Dispatch` is a function, two calls with the same inputs give the same outcome by construction, so no separate lemma states it.
