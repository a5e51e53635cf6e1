/** The session and dispatch logic of the client as pure functions: the token
    pair and the request-id counter are a `State`, the network is the script of
    outcomes still to come, and every call yields a `Run` recording its value,
    the new state, the script it leaves and the requests it sent. The class in
    module Client is proved to follow these functions step for step. */
module Session {
  import opened Wire
  import opened Transport

  datatype State = State(accessToken: string, refreshToken: string, requestId: int)

  datatype Run<T> = Run(value: T, state: State, rest: seq<Outcome>, sent: seq<Request>)

  /** A call must log in before it is sent: no access token yet and a
      private endpoint. */
  predicate NeedsLogin(st: State, endpoint: string)
  {
    st.accessToken == "" && IsPrivate(endpoint)
  }

  /** The request ids of `reqs` are `first`, `first + 1`, ... in order. */
  predicate IdsFrom(reqs: seq<Request>, first: int)
  {
    forall i | 0 <= i < |reqs| :: reqs[i].id == first + i
  }

  /** The client-credentials login. It always posts one envelope under the
      current id, and it replaces BOTH tokens when the reply parses and has a
      `result`; otherwise it reports failure and keeps both tokens. */
  function Authenticate(st: State, creds: Credentials, script: seq<Outcome>): (r: Run<bool>)
    ensures r.sent == [AuthRequest(st.requestId, creds)]
    ensures r.state.requestId == st.requestId + 1
    ensures r.rest == Deliver(script).1
    ensures r.value <==> script != [] && script[0].Delivered? && script[0].body.Answer?
    ensures r.value ==>
              r.state.accessToken == Member(script[0].body.result, "access_token") &&
              r.state.refreshToken == Member(script[0].body.result, "refresh_token")
    ensures !r.value ==>
              r.state.accessToken == st.accessToken && r.state.refreshToken == st.refreshToken
  {
    var (reply, rest) := Deliver(script);
    var req := AuthRequest(st.requestId, creds);
    var next := st.(requestId := st.requestId + 1);
    if reply.Delivered? && reply.body.Answer? then
      var result := reply.body.result;
      Run(true,
          next.(accessToken := Member(result, "access_token"),
                refreshToken := Member(result, "refresh_token")),
          rest, [req])
    else
      Run(false, next, rest, [req])
  }

  /** What the login gate of a call does: the login when one is needed, and
      otherwise nothing, successfully. */
  function Gate(st: State, creds: Credentials, script: seq<Outcome>, endpoint: string): Run<bool>
  {
    if NeedsLogin(st, endpoint) then Authenticate(st, creds, script) else Run(true, st, script, [])
  }

  /** `r` with `before` posted ahead of its own requests. */
  function After<T>(before: seq<Request>, r: Run<T>): Run<T>
  {
    r.(sent := before + r.sent)
  }

  /** One call of an endpoint: log in first when the session has no token and
      the endpoint is private, then make the attempt. */
  function MakeRequest(st: State, creds: Credentials, script: seq<Outcome>,
                       endpoint: string, params: Params): (r: Run<Result<Body>>)
    ensures r.sent != [] && r.state.requestId == st.requestId + |r.sent|
    ensures |r.rest| <= |script|
    decreases |script|, 2
  {
    if NeedsLogin(st, endpoint) then
      var login := Authenticate(st, creds, script);
      if !login.value then Run(Err(FailedToAuthenticate), login.state, login.rest, login.sent)
      else After(login.sent, Attempt(login.state, creds, login.rest, endpoint, params))
    else
      Attempt(st, creds, script, endpoint, params)
  }

  /** Post the envelope under the next id; a transport failure is raised, a
      session-expired error leads to a new login, anything else is returned. */
  function Attempt(st: State, creds: Credentials, script: seq<Outcome>,
                   endpoint: string, params: Params): (r: Run<Result<Body>>)
    ensures r.sent != [] && r.state.requestId == st.requestId + |r.sent|
    ensures |r.rest| <= |script|
    decreases |script|, 1
  {
    var req := EndpointRequest(st.requestId, endpoint, params, st.accessToken);
    var posted := st.(requestId := st.requestId + 1);
    var reply := Deliver(script).0;
    if reply.Dropped? then
      Run(Err(TransportError), posted, Deliver(script).1, [req])
    else if !IsSessionExpired(reply.body) then
      Run(Ok(reply.body), posted, Deliver(script).1, [req])
    else
      After([req], Reauthenticate(posted, creds, Deliver(script).1, endpoint, params))
  }

  /** Log in again after error 13009 and, if that works, make the whole call
      again with the same endpoint and params. */
  function Reauthenticate(st: State, creds: Credentials, script: seq<Outcome>,
                          endpoint: string, params: Params): (r: Run<Result<Body>>)
    ensures r.sent != [] && r.state.requestId == st.requestId + |r.sent|
    ensures |r.rest| <= |script|
    decreases |script| + 1, 0
  {
    var re := Authenticate(st, creds, script);
    if !re.value then Run(Err(FailedToReAuthenticate), re.state, re.rest, re.sent)
    else After(re.sent, MakeRequest(re.state, creds, re.rest, endpoint, params))
  }

  lemma IdsFromAppend(a: seq<Request>, b: seq<Request>, first: int)
    requires IdsFrom(a, first) && IdsFrom(b, first + |a|)
    ensures IdsFrom(a + b, first)
  {
  }

  /** Exactly `n` outcomes were taken from `script`, leaving `rest`. */
  ghost predicate Took(script: seq<Outcome>, rest: seq<Outcome>, n: int)
  {
    0 <= n == |script| - |rest| && rest == script[n..]
  }

  /** `count` posts consumed one outcome each, except that the last may have
      found the script already exhausted. */
  ghost predicate Consumed(script: seq<Outcome>, rest: seq<Outcome>, count: int)
  {
    Took(script, rest, count) || (Took(script, rest, count - 1) && rest == [])
  }

  lemma TookThenConsumed(script: seq<Outcome>, mid: seq<Outcome>, rest: seq<Outcome>, n: int, m: int)
    requires Took(script, mid, n) && Consumed(mid, rest, m)
    ensures Consumed(script, rest, n + m)
  {
    assert mid[|mid| - |rest|..] == script[n + |mid| - |rest|..];
  }

  /** `req` belongs to a call of `endpoint` with `params`: it is either a
      login envelope or that very endpoint call, with some bearer token. */
  ghost predicate PartOfCall(req: Request, creds: Credentials, endpoint: string, params: Params)
  {
    req == AuthRequest(req.id, creds) ||
    (req.url == BASE_URL + endpoint && req.jsonrpc == JSON_RPC_VERSION &&
     req.rpcMethod == endpoint && req.params == params &&
     exists token :: req.headers == Headers(endpoint, token))
  }

  /** The last envelope decides the result: a body or a transport error
      answers an envelope for the endpoint, sent with the token the session
      ends with; a login failure answers a login envelope. A session-expired
      body is never the result. */
  ghost predicate LastRequestDecides(creds: Credentials, endpoint: string, params: Params,
                                     r: Run<Result<Body>>)
  {
    var last := r.state.requestId - 1;
    && r.sent != []
    && (r.value.Ok? ==> !IsSessionExpired(r.value.value))
    && (r.value.Ok? || r.value == Err(TransportError) ==>
          r.sent[|r.sent| - 1] == EndpointRequest(last, endpoint, params, r.state.accessToken))
    && (r.value == Err(FailedToAuthenticate) || r.value == Err(FailedToReAuthenticate) ==>
          r.sent[|r.sent| - 1] == AuthRequest(last, creds))
    && r.value != Err(InvalidAmount)
  }

  /** Everything that holds of any run of a call started in `st` on `script`. */
  ghost predicate Sound(st: State, creds: Credentials, script: seq<Outcome>,
                        endpoint: string, params: Params, r: Run<Result<Body>>)
  {
    && r.sent != []
    && IdsFrom(r.sent, st.requestId)
    && r.state.requestId == st.requestId + |r.sent|
    && Consumed(script, r.rest, |r.sent|)
    && (forall i | 0 <= i < |r.sent| :: PartOfCall(r.sent[i], creds, endpoint, params))
    && LastRequestDecides(creds, endpoint, params, r)
  }

  /** Requests posted ahead of a sound run, each consuming one outcome, give
      a sound run. */
  lemma SoundAfter(st: State, mid: State, creds: Credentials, script: seq<Outcome>, left: seq<Outcome>,
                   endpoint: string, params: Params, before: seq<Request>, r: Run<Result<Body>>)
    requires IdsFrom(before, st.requestId) && mid.requestId == st.requestId + |before|
    requires Took(script, left, |before|)
    requires forall i | 0 <= i < |before| :: PartOfCall(before[i], creds, endpoint, params)
    requires Sound(mid, creds, left, endpoint, params, r)
    ensures Sound(st, creds, script, endpoint, params, After(before, r))
  {
    var all := After(before, r).sent;
    IdsFromAppend(before, r.sent, st.requestId);
    TookThenConsumed(script, left, r.rest, |before|, |r.sent|);
    forall i | 0 <= i < |all|
      ensures PartOfCall(all[i], creds, endpoint, params)
    {
      if i >= |before| {
        assert all[i] == r.sent[i - |before|];
      }
    }
    assert all[|all| - 1] == r.sent[|r.sent| - 1];
  }

  lemma {:induction false} MakeRequestSound(st: State, creds: Credentials, script: seq<Outcome>,
                                            endpoint: string, params: Params)
    ensures Sound(st, creds, script, endpoint, params, MakeRequest(st, creds, script, endpoint, params))
    decreases |script|, 2
  {
    if NeedsLogin(st, endpoint) {
      var login := Authenticate(st, creds, script);
      assert PartOfCall(login.sent[0], creds, endpoint, params);
      if login.value {
        AttemptSound(login.state, creds, login.rest, endpoint, params);
        SoundAfter(st, login.state, creds, script, login.rest, endpoint, params, login.sent,
                   Attempt(login.state, creds, login.rest, endpoint, params));
      }
    } else {
      AttemptSound(st, creds, script, endpoint, params);
    }
  }

  lemma {:induction false} AttemptSound(st: State, creds: Credentials, script: seq<Outcome>,
                                        endpoint: string, params: Params)
    ensures Sound(st, creds, script, endpoint, params, Attempt(st, creds, script, endpoint, params))
    decreases |script|, 1
  {
    var req := EndpointRequest(st.requestId, endpoint, params, st.accessToken);
    assert PartOfCall(req, creds, endpoint, params);
    var reply := Deliver(script).0;
    if reply.Delivered? && IsSessionExpired(reply.body) {
      var posted := st.(requestId := st.requestId + 1);
      ReauthenticateSound(posted, creds, Deliver(script).1, endpoint, params);
      SoundAfter(st, posted, creds, script, Deliver(script).1, endpoint, params, [req],
                 Reauthenticate(posted, creds, Deliver(script).1, endpoint, params));
    }
  }

  lemma {:induction false} ReauthenticateSound(st: State, creds: Credentials, script: seq<Outcome>,
                                               endpoint: string, params: Params)
    ensures Sound(st, creds, script, endpoint, params, Reauthenticate(st, creds, script, endpoint, params))
    decreases |script| + 1, 0
  {
    var re := Authenticate(st, creds, script);
    assert PartOfCall(re.sent[0], creds, endpoint, params);
    if re.value {
      MakeRequestSound(re.state, creds, re.rest, endpoint, params);
      SoundAfter(st, re.state, creds, script, re.rest, endpoint, params, re.sent,
                 MakeRequest(re.state, creds, re.rest, endpoint, params));
    }
  }

  /** Every envelope a call posts, logins and retries included, takes the
      current id and advances the counter by one: the ids are consecutive,
      hence strictly increasing, and the next call starts past all of them. */
  lemma IdsConsecutive(st: State, creds: Credentials, script: seq<Outcome>,
                       endpoint: string, params: Params)
    ensures var r := MakeRequest(st, creds, script, endpoint, params);
            && r.sent != []
            && (forall i | 0 <= i < |r.sent| :: r.sent[i].id == st.requestId + i)
            && r.state.requestId == st.requestId + |r.sent|
  {
    MakeRequestSound(st, creds, script, endpoint, params);
  }

  /** Each posted envelope consumes exactly one scripted outcome, in order;
      only the last envelope of a call can find the script exhausted. */
  lemma ScriptConsumption(st: State, creds: Credentials, script: seq<Outcome>,
                          endpoint: string, params: Params)
    ensures var r := MakeRequest(st, creds, script, endpoint, params);
            var used := |script| - |r.rest|;
            && 0 <= used && r.rest == script[used..]
            && (used == |r.sent| || (used == |r.sent| - 1 && r.rest == []))
  {
    MakeRequestSound(st, creds, script, endpoint, params);
  }

  /** What a call ends with is decided by the last envelope it posted: a body
      or a transport error answers an envelope for the endpoint itself, sent
      with the token the session ends with, and a login failure answers a
      login envelope. A session-expired body is never handed to the caller. */
  lemma OutcomeOfLastRequest(st: State, creds: Credentials, script: seq<Outcome>,
                             endpoint: string, params: Params)
    ensures var r := MakeRequest(st, creds, script, endpoint, params);
            var last := r.state.requestId - 1;
            && r.sent != []
            && (r.value.Ok? ==> !IsSessionExpired(r.value.value))
            && (r.value.Ok? || r.value == Err(TransportError) ==>
                  r.sent[|r.sent| - 1] == EndpointRequest(last, endpoint, params, r.state.accessToken))
            && (r.value == Err(FailedToAuthenticate) || r.value == Err(FailedToReAuthenticate) ==>
                  r.sent[|r.sent| - 1] == AuthRequest(last, creds))
            && r.value != Err(InvalidAmount)
  {
    MakeRequestSound(st, creds, script, endpoint, params);
    assert LastRequestDecides(creds, endpoint, params, MakeRequest(st, creds, script, endpoint, params));
  }

  /** A retry re-issues the same endpoint with the same params: one call posts
      nothing but logins and envelopes for that endpoint and those params. */
  lemma RetriesRepeatTheCall(st: State, creds: Credentials, script: seq<Outcome>,
                             endpoint: string, params: Params)
    ensures var r := MakeRequest(st, creds, script, endpoint, params);
            forall i | 0 <= i < |r.sent| ::
              || r.sent[i] == AuthRequest(r.sent[i].id, creds)
              || (r.sent[i].url == BASE_URL + endpoint && r.sent[i].rpcMethod == endpoint &&
                  r.sent[i].params == params)
  {
    MakeRequestSound(st, creds, script, endpoint, params);
  }

  /** Authentication gating: a call logs in first exactly when it has no
      token and the endpoint is private, and if that login fails nothing else
      is posted. A public endpoint never logs in before its first envelope. */
  lemma AuthenticationGating(st: State, creds: Credentials, script: seq<Outcome>,
                             endpoint: string, params: Params)
    ensures var r := MakeRequest(st, creds, script, endpoint, params);
            && r.sent != []
            && (NeedsLogin(st, endpoint) ==> r.sent[0] == AuthRequest(st.requestId, creds))
            && (!NeedsLogin(st, endpoint) ==>
                  r.sent[0] == EndpointRequest(st.requestId, endpoint, params, st.accessToken))
            && (!IsPrivate(endpoint) ==> r.sent[0].rpcMethod == endpoint)
            && (NeedsLogin(st, endpoint) && !Authenticate(st, creds, script).value ==>
                  r.value == Err(FailedToAuthenticate) &&
                  r.sent == [AuthRequest(st.requestId, creds)] &&
                  r.state.accessToken == "" && r.state.refreshToken == st.refreshToken)
  {
    var r := MakeRequest(st, creds, script, endpoint, params);
    if NeedsLogin(st, endpoint) {
      var login := Authenticate(st, creds, script);
      if login.value {
        MakeRequestSound(st, creds, script, endpoint, params);
        assert r == After(login.sent, Attempt(login.state, creds, login.rest, endpoint, params));
      }
    } else {
      var a := Attempt(st, creds, script, endpoint, params);
      assert r == a;
      var req := EndpointRequest(st.requestId, endpoint, params, st.accessToken);
      var reply := Deliver(script).0;
      if reply.Delivered? && IsSessionExpired(reply.body) {
        var posted := st.(requestId := st.requestId + 1);
        assert a == After([req], Reauthenticate(posted, creds, Deliver(script).1, endpoint, params));
      }
    }
  }

  /** Past a gate that lets it through, a call is its attempt, made from the
      state and the script the gate leaves, with the gate's login in front. */
  lemma PastTheGate(st: State, creds: Credentials, script: seq<Outcome>, endpoint: string, params: Params)
    ensures var g := Gate(st, creds, script, endpoint);
            g.value ==>
              MakeRequest(st, creds, script, endpoint, params)
              == After(g.sent, Attempt(g.state, creds, g.rest, endpoint, params))
  {
    var a := Attempt(st, creds, script, endpoint, params);
    if !NeedsLogin(st, endpoint) {
      assert [] + a.sent == a.sent;
    }
  }

  /** A transport failure on the endpoint envelope is raised at once: after
      the gate's login, if there was one, no further login and no retry. */
  lemma TransportFailureNotRetried(st: State, creds: Credentials, script: seq<Outcome>,
                                   endpoint: string, params: Params)
    ensures var g := Gate(st, creds, script, endpoint);
            var r := MakeRequest(st, creds, script, endpoint, params);
            g.value && (g.rest == [] || g.rest[0] == Dropped) ==>
              && r.value == Err(TransportError)
              && r.sent == g.sent + [EndpointRequest(g.state.requestId, endpoint, params, g.state.accessToken)]
              && r.state == g.state.(requestId := g.state.requestId + 1)
  {
    PastTheGate(st, creds, script, endpoint, params);
  }

  /** Any reply to the endpoint envelope other than a session-expired error
      -- a result, another error code, or text that does not parse -- is
      returned as it came, right after the gate's login if there was one,
      with the tokens the gate left and the rest of the script untouched. */
  lemma OtherRepliesPassThrough(st: State, creds: Credentials, script: seq<Outcome>,
                                endpoint: string, params: Params)
    ensures var g := Gate(st, creds, script, endpoint);
            var r := MakeRequest(st, creds, script, endpoint, params);
            g.value && g.rest != [] && g.rest[0].Delivered? && !IsSessionExpired(g.rest[0].body) ==>
              && r.value == Ok(g.rest[0].body)
              && r.sent == g.sent + [EndpointRequest(g.state.requestId, endpoint, params, g.state.accessToken)]
              && r.state == g.state.(requestId := g.state.requestId + 1)
              && r.rest == g.rest[1..]
  {
    PastTheGate(st, creds, script, endpoint, params);
  }

  /** An attempt answered with 13009 logs in again under the next id; if
      that fails it raises the re-authentication fault with the tokens it had,
      otherwise it is the whole call made again from the new session. */
  lemma AttemptReauthenticates(st: State, creds: Credentials, script: seq<Outcome>,
                               endpoint: string, params: Params)
    requires script != [] && script[0].Delivered? && IsSessionExpired(script[0].body)
    ensures var r := Attempt(st, creds, script, endpoint, params);
            var first := EndpointRequest(st.requestId, endpoint, params, st.accessToken);
            var login := AuthRequest(st.requestId + 1, creds);
            var re := Authenticate(st.(requestId := st.requestId + 1), creds, script[1..]);
            var retry := MakeRequest(re.state, creds, re.rest, endpoint, params);
            && (!re.value ==>
                  r.value == Err(FailedToReAuthenticate) &&
                  r.sent == [first, login] &&
                  r.state.accessToken == st.accessToken &&
                  r.state.refreshToken == st.refreshToken)
            && (re.value ==>
                  r.value == retry.value && r.state == retry.state && r.rest == retry.rest &&
                  r.sent == [first, login] + retry.sent)
  {
    var first := EndpointRequest(st.requestId, endpoint, params, st.accessToken);
    var posted := st.(requestId := st.requestId + 1);
    var again := Reauthenticate(posted, creds, script[1..], endpoint, params);
    assert Attempt(st, creds, script, endpoint, params) == After([first], again);
    var re := Authenticate(posted, creds, script[1..]);
    if re.value {
      var retry := MakeRequest(re.state, creds, re.rest, endpoint, params);
      assert again == After([AuthRequest(st.requestId + 1, creds)], retry);
    }
  }

  /** Error 13009 on the endpoint envelope makes the call log in again; if
      that login fails the call raises the re-authentication fault with the
      tokens the gate left, otherwise it starts over with the new tokens, the
      same endpoint and the same params. */
  lemma ExpiredSessionReauthenticates(st: State, creds: Credentials, script: seq<Outcome>,
                                      endpoint: string, params: Params)
    ensures var g := Gate(st, creds, script, endpoint);
            var r := MakeRequest(st, creds, script, endpoint, params);
            g.value && g.rest != [] && g.rest[0].Delivered? && IsSessionExpired(g.rest[0].body) ==>
              var first := EndpointRequest(g.state.requestId, endpoint, params, g.state.accessToken);
              var login := AuthRequest(g.state.requestId + 1, creds);
              var re := Authenticate(g.state.(requestId := g.state.requestId + 1), creds, g.rest[1..]);
              var retry := MakeRequest(re.state, creds, re.rest, endpoint, params);
              && (!re.value ==>
                    r.value == Err(FailedToReAuthenticate) &&
                    r.sent == g.sent + [first, login] &&
                    r.state.accessToken == g.state.accessToken &&
                    r.state.refreshToken == g.state.refreshToken)
              && (re.value ==>
                    r.value == retry.value && r.state == retry.state && r.rest == retry.rest &&
                    r.sent == g.sent + [first, login] + retry.sent)
  {
    var g := Gate(st, creds, script, endpoint);
    PastTheGate(st, creds, script, endpoint, params);
    if g.value && g.rest != [] && g.rest[0].Delivered? && IsSessionExpired(g.rest[0].body) {
      AttemptReauthenticates(g.state, creds, g.rest, endpoint, params);
      var a := Attempt(g.state, creds, g.rest, endpoint, params);
      var pair := [EndpointRequest(g.state.requestId, endpoint, params, g.state.accessToken),
                   AuthRequest(g.state.requestId + 1, creds)];
      var re := Authenticate(g.state.(requestId := g.state.requestId + 1), creds, g.rest[1..]);
      if re.value {
        var retry := MakeRequest(re.state, creds, re.rest, endpoint, params);
        assert a.sent == pair + retry.sent;
        assert g.sent + (pair + retry.sent) == g.sent + pair + retry.sent;
      }
    }
  }

  /** A login reply carrying tokens `access` and `refresh`. */
  function LoginReply(access: string, refresh: string): Outcome
  {
    Delivered(Answer(map["access_token" := access, "refresh_token" := refresh]))
  }

  /** `k` rounds of "session expired, then a successful login". */
  function ExpiryRounds(k: nat, access: string, refresh: string): (s: seq<Outcome>)
    ensures |s| == 2 * k
  {
    if k == 0 then []
    else [Delivered(Rejected(SESSION_EXPIRED_CODE, "")), LoginReply(access, refresh)]
         + ExpiryRounds(k - 1, access, refresh)
  }

  /** The retry is not bounded: as long as the exchange keeps answering
      13009 and the logins keep succeeding, the call keeps starting over.
      After `k` such rounds it posts 2k + 1 envelopes and returns the final
      body. */
  lemma {:induction false} RetryIsUnbounded(k: nat, st: State, creds: Credentials,
                                            access: string, refresh: string, body: Body,
                                            endpoint: string, params: Params)
    requires !NeedsLogin(st, endpoint) && access != ""
    requires !IsSessionExpired(body)
    ensures var r := MakeRequest(st, creds, ExpiryRounds(k, access, refresh) + [Delivered(body)],
                                 endpoint, params);
            r.value == Ok(body) && |r.sent| == 2 * k + 1 && r.rest == []
    decreases k
  {
    var script := ExpiryRounds(k, access, refresh) + [Delivered(body)];
    if k == 0 {
      assert script == [Delivered(body)];
      OtherRepliesPassThrough(st, creds, script, endpoint, params);
    } else {
      var tail := ExpiryRounds(k - 1, access, refresh) + [Delivered(body)];
      var more := [LoginReply(access, refresh)] + tail;
      assert script == [Delivered(Rejected(SESSION_EXPIRED_CODE, ""))] + more;
      ExpiredSessionReauthenticates(st, creds, script, endpoint, params);
      var re := Authenticate(st.(requestId := st.requestId + 1), creds, more);
      assert more[1..] == tail;
      assert re.value && re.state.accessToken == access && re.rest == tail;
      RetryIsUnbounded(k - 1, re.state, creds, access, refresh, body, endpoint, params);
    }
  }
}
