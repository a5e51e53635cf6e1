/** What travels between the Deribit client and the exchange: JSON-RPC request
    envelopes with their HTTP headers, the bodies the exchange answers with, the
    documents the facade hands back, and the faults a call can raise. JSON text
    itself is not modelled; envelopes and bodies are values. */
module Wire {

  /** Root that every endpoint name is appended to. */
  const BASE_URL: string := "https://test.deribit.com/api/v2/"
  const JSON_RPC_VERSION: string := "2.0"
  const AUTH_METHOD: string := "public/auth"
  /** Marker whose presence anywhere in an endpoint name makes it private. */
  const PRIVATE_MARKER: string := "private/"
  /** The exchange's error code for an invalid or expired access token. */
  const SESSION_EXPIRED_CODE: int := 13009

  /** A JSON scalar as stored in a request's params object. */
  datatype Value = Text(s: string) | Whole(n: int) | Number(x: real) | Flag(b: bool)

  /** A params object: member names with their values, in insertion order. */
  type Params = seq<(string, Value)>

  datatype Credentials = Credentials(clientId: string, clientSecret: string)

  datatype Header = Bearer(token: string) | ContentTypeJson

  /** One HTTP POST: the URL, the JSON-RPC envelope fields and the header list. */
  datatype Request = Request(
    url: string,
    jsonrpc: string,
    id: int,
    rpcMethod: string,
    params: Params,
    headers: seq<Header>)

  /** A response body as the JSON reader sees it: not parseable, a `result`
      object (only its string members are kept), or an `error` object. */
  datatype Body =
    | Garbled(raw: string)
    | Answer(result: map<string, string>)
    | Rejected(code: int, message: string)

  /** What one POST yields: a transport failure, or a body. */
  datatype Outcome = Dropped | Delivered(body: Body)

  /** The JSON value a facade operation returns to its caller. */
  datatype Doc =
    | NullDoc
    | ResultDoc(result: map<string, string>)
    | ErrorDoc(code: int, message: string)

  /** The runtime errors the core raises, one per distinct `throw`. */
  datatype Fault =
    | FailedToAuthenticate
    | TransportError
    | FailedToReAuthenticate
    | InvalidAmount

  datatype Result<T> = Ok(value: T) | Err(fault: Fault)

  /** The string member `key` of a result object; the JSON library yields the
      empty string for a missing member. */
  function Member(obj: map<string, string>, key: string): string
  {
    if key in obj then obj[key] else ""
  }

  /** Substring search: does `pat` occur anywhere in `s`? */
  predicate Contains(s: string, pat: string)
    decreases |s|
  {
    |pat| <= |s| && (s[..|pat|] == pat || (0 < |s| && Contains(s[1..], pat)))
  }

  /** `pat` occurs in `s` starting at index `i`. */
  predicate OccursAt(s: string, pat: string, i: int)
  {
    0 <= i <= |s| - |pat| && s[i..i + |pat|] == pat
  }

  /** The recursive search finds exactly the patterns that occur somewhere. */
  lemma {:induction false} ContainsOccurs(s: string, pat: string)
    ensures Contains(s, pat) <==> exists i :: OccursAt(s, pat, i)
    decreases |s|
  {
    if |pat| <= |s| && s[..|pat|] == pat {
      assert OccursAt(s, pat, 0);
    } else if |pat| <= |s| && 0 < |s| {
      var t := s[1..];
      ContainsOccurs(t, pat);
      if Contains(s, pat) {
        var j :| OccursAt(t, pat, j);
        assert s[j + 1..j + 1 + |pat|] == t[j..j + |pat|];
        assert OccursAt(s, pat, j + 1);
      } else {
        forall i | 0 < i <= |s| - |pat|
          ensures !OccursAt(s, pat, i)
        {
          assert s[i..i + |pat|] == t[i - 1..i - 1 + |pat|];
          assert !OccursAt(t, pat, i - 1);
        }
      }
    }
  }

  /** A pattern whose first character never occurs in `s` does not occur in `s`. */
  lemma {:induction false} AbsentHead(s: string, pat: string)
    requires pat != [] && pat[0] !in s
    ensures !Contains(s, pat)
    decreases |s|
  {
    if |pat| <= |s| {
      assert s[..|pat|][0] == s[0];
      AbsentHead(s[1..], pat);
    }
  }

  /** An endpoint is private when the marker occurs anywhere in its name. */
  predicate IsPrivate(endpoint: string)
  {
    Contains(endpoint, PRIVATE_MARKER)
  }

  /** The test is a substring test: the marker need not come first. */
  lemma PrivateAnywhere(prefix: string, suffix: string)
    ensures IsPrivate(prefix + PRIVATE_MARKER + suffix)
  {
    var s := prefix + PRIVATE_MARKER + suffix;
    assert OccursAt(s, PRIVATE_MARKER, |prefix|);
    ContainsOccurs(s, PRIVATE_MARKER);
  }

  predicate IsSessionExpired(body: Body)
  {
    body.Rejected? && body.code == SESSION_EXPIRED_CODE
  }

  /** The header list of an endpoint request: a bearer header first when the
      endpoint is private, then the content type. */
  function Headers(endpoint: string, token: string): (hs: seq<Header>)
    ensures ContentTypeJson in hs
    ensures Bearer(token) in hs <==> IsPrivate(endpoint)
    ensures forall h | h in hs :: h == ContentTypeJson || h == Bearer(token)
    ensures |hs| == if IsPrivate(endpoint) then 2 else 1
  {
    (if IsPrivate(endpoint) then [Bearer(token)] else []) + [ContentTypeJson]
  }

  /** The envelope of the client-credentials login. */
  function AuthRequest(id: int, creds: Credentials): Request
  {
    Request(BASE_URL + AUTH_METHOD, JSON_RPC_VERSION, id, AUTH_METHOD,
            [("grant_type", Text("client_credentials")),
             ("client_id", Text(creds.clientId)),
             ("client_secret", Text(creds.clientSecret))],
            [ContentTypeJson])
  }

  /** The envelope of a call to `endpoint`, carrying `token` if it is private. */
  function EndpointRequest(id: int, endpoint: string, params: Params, token: string): Request
  {
    Request(BASE_URL + endpoint, JSON_RPC_VERSION, id, endpoint, params, Headers(endpoint, token))
  }

  /** The JSON value the reader builds from a body; an unparseable body
      leaves it null. */
  function Parse(body: Body): (d: Doc)
    ensures d.ErrorDoc? <==> body.Rejected?
    ensures d.NullDoc? <==> body.Garbled?
    ensures d.ResultDoc? ==> d.result == body.result
    ensures d.ErrorDoc? ==> d.code == body.code && d.message == body.message
  {
    match body
    case Garbled(_) => NullDoc
    case Answer(result) => ResultDoc(result)
    case Rejected(code, message) => ErrorDoc(code, message)
  }

  /** The reader loses nothing of a body that parses: two such bodies that
      read the same are the same. */
  lemma ParseKeepsBodies(b1: Body, b2: Body)
    requires !b1.Garbled? && Parse(b1) == Parse(b2)
    ensures b1 == b2
  {
  }
}
