/** The part of an actix-web `HttpResponse` the dispatcher decides: status code,
    headers (their order in the list belongs to the model; actix keeps them
    in a hash map), and a body that is either plain text or
    a JSON object given by its members. */
module Http {
  import opened Wrappers
  import opened Pairs

  const OK: nat := 200
  const FOUND: nat := 302
  const BAD_REQUEST: nat := 400

  /** A JSON object is its list of members; all members of the objects built here are strings. */
  datatype Body = Text(text: string) | Json(members: seq<Pair>)

  datatype HttpResponse = HttpResponse(status: nat, headers: seq<Pair>, body: Body)

  /** The value of the header `name`, or None when the response does not carry it. */
  function Header(resp: HttpResponse, name: string): Option<string>
  {
    Lookup(resp.headers, name)
  }
}
