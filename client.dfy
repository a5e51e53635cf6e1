/** The client object: the two tokens and the request-id counter are fields
    that its methods update in place, and the connection handle is a
    `Network`. Every method is proved to do exactly what the matching function
    of module Session or Facade says, so the lemmas proved there hold of it;
    `Valid()` adds that the ids ever posted through the handle are 1, 2, 3, ...
    in order, so no id is used twice. */
module Client {
  import opened Wire
  import opened Transport
  import opened Session
  import Facade

  lemma Regroup(a: seq<Request>, b: seq<Request>, c: seq<Request>)
    ensures (a + b) + c == a + (b + c)
  {
  }

  class DeribitApi {
    var accessToken: string
    var refreshToken: string
    var requestId: int
    const clientId: string
    const clientSecret: string
    const net: Network

    ghost predicate Valid()
      reads this, net
    {
      requestId == 1 + |net.log| && IdsFrom(net.log, 1)
    }

    function State(): Session.State
      reads this
    {
      Session.State(accessToken, refreshToken, requestId)
    }

    function Creds(): Credentials
    {
      Credentials(clientId, clientSecret)
    }

    /** The client and its handle are where `run` leaves them, `log0` being
        the log before the call. */
    ghost predicate Follows<T>(run: Run<T>, log0: seq<Request>)
      reads this, net
    {
      State() == run.state && net.script == run.rest && net.log == log0 + run.sent
    }

    /** A client with no tokens whose first request will carry id 1. */
    constructor (id: string, secret: string, script: seq<Outcome>)
      ensures Valid() && fresh(net)
      ensures Creds() == Credentials(id, secret)
      ensures State() == Session.State("", "", 1)
      ensures net.script == script && net.log == []
    {
      clientId, clientSecret := id, secret;
      accessToken, refreshToken, requestId := "", "", 1;
      net := new Network(script);
    }

    /** Client-credentials login: replaces both tokens on success, neither
        on failure. */
    method Authenticate() returns (ok: bool)
      requires Valid()
      modifies this, net
      ensures Valid()
      ensures var run := Session.Authenticate(old(State()), Creds(), old(net.script));
              ok == run.value && Follows(run, old(net.log))
    {
      var req := AuthRequest(requestId, Creds());
      requestId := requestId + 1;
      var reply := net.Post(req);
      if reply.Delivered? && reply.body.Answer? {
        accessToken := Member(reply.body.result, "access_token");
        refreshToken := Member(reply.body.result, "refresh_token");
        ok := true;
      } else {
        ok := false;
      }
    }

    /** Posts a call to `endpoint`, logging in first if needed and logging in
        again and starting over whenever the exchange answers 13009. */
    method MakeRequest(endpoint: string, params: Params) returns (r: Result<Body>)
      requires Valid()
      modifies this, net
      decreases |net.script|, 1
      ensures Valid()
      ensures var run := Session.MakeRequest(old(State()), Creds(), old(net.script), endpoint, params);
              r == run.value && Follows(run, old(net.log))
    {
      ghost var log0 := net.log;
      if accessToken == "" && IsPrivate(endpoint) {
        var ok := Authenticate();
        if !ok {
          r := Err(FailedToAuthenticate);
          return;
        }
        ghost var log1 := net.log;
        r := Attempt(endpoint, params);
        Regroup(log0, log1[|log0|..], net.log[|log1|..]);
      } else {
        r := Attempt(endpoint, params);
      }
    }

    /** The body of `MakeRequest` past the login gate: post the envelope
        under the next id, raise a transport failure, return any answer but
        13009, and on 13009 log in again and start the whole call over. */
    method Attempt(endpoint: string, params: Params) returns (r: Result<Body>)
      requires Valid()
      modifies this, net
      decreases |net.script|, 0
      ensures Valid()
      ensures var run := Session.Attempt(old(State()), Creds(), old(net.script), endpoint, params);
              r == run.value && Follows(run, old(net.log))
    {
      ghost var start, script0, log0 := State(), net.script, net.log;
      var req := EndpointRequest(requestId, endpoint, params, accessToken);
      requestId := requestId + 1;
      var reply := net.Post(req);
      assert IdsFrom(net.log, 1) by { IdsFromAppend(log0, [req], 1); }
      if reply.Dropped? {
        r := Err(TransportError);
        return;
      }
      if IsSessionExpired(reply.body) {
        ghost var posted, script1 := State(), net.script;
        assert script0 != [] && |script1| == |script0| - 1;
        ghost var again := Session.Reauthenticate(posted, Creds(), script1, endpoint, params);
        assert Session.Attempt(start, Creds(), script0, endpoint, params) == After([req], again);
        var ok := Authenticate();
        if !ok {
          r := Err(FailedToReAuthenticate);
          return;
        }
        ghost var auth := AuthRequest(posted.requestId, Creds());
        ghost var rerun := Session.MakeRequest(State(), Creds(), net.script, endpoint, params);
        assert again == After([auth], rerun);
        r := MakeRequest(endpoint, params);
        Regroup(log0, [req] + [auth], rerun.sent);
        return;
      }
      r := Ok(reply.body);
    }

    method GetOrderbook(instrument: string) returns (r: Result<Doc>)
      requires Valid()
      modifies this, net
      ensures Valid()
      ensures var run := Facade.GetOrderbook(old(State()), Creds(), old(net.script), instrument);
              r == run.value && Follows(run, old(net.log))
    {
      var call := Facade.OrderbookCall(instrument);
      var response := MakeRequest(call.endpoint, call.params);
      r := if response.Ok? then Ok(Parse(response.value)) else Err(response.fault);
    }

    /** A post-only limit order. An invalid amount is raised before anything
        is posted; every later failure is reported as the null document. */
    method PlaceOrder(instrument: string, side: string, amount: real, price: real) returns (r: Result<Doc>)
      requires Valid()
      modifies this, net
      ensures Valid()
      ensures var run := Facade.PlaceOrder(old(State()), Creds(), old(net.script),
                                           instrument, side, amount, price);
              r == run.value && Follows(run, old(net.log))
    {
      var call := Facade.PlaceOrderCall(instrument, side, amount, price);
      if call.Err? {
        r := Err(call.fault);
        return;
      }
      var response := MakeRequest(call.value.endpoint, call.value.params);
      r := Ok(Facade.OrderReply(response));
    }

    method ModifyOrder(orderId: string, newPrice: real, amount: real) returns (r: Result<Doc>)
      requires Valid()
      modifies this, net
      ensures Valid()
      ensures var run := Facade.ModifyOrder(old(State()), Creds(), old(net.script), orderId, newPrice, amount);
              r == run.value && Follows(run, old(net.log))
    {
      var call := Facade.ModifyOrderCall(orderId, newPrice, amount);
      if call.Err? {
        r := Err(call.fault);
        return;
      }
      var response := MakeRequest(call.value.endpoint, call.value.params);
      r := if response.Ok? then Ok(Parse(response.value)) else Err(response.fault);
    }

    method CancelOrder(orderId: string) returns (r: Result<Doc>)
      requires Valid()
      modifies this, net
      ensures Valid()
      ensures var run := Facade.CancelOrder(old(State()), Creds(), old(net.script), orderId);
              r == run.value && Follows(run, old(net.log))
    {
      var call := Facade.CancelOrderCall(orderId);
      var response := MakeRequest(call.endpoint, call.params);
      r := if response.Ok? then Ok(Parse(response.value)) else Err(response.fault);
    }

    method GetPositions(currency: string) returns (r: Result<Doc>)
      requires Valid()
      modifies this, net
      ensures Valid()
      ensures var run := Facade.GetPositions(old(State()), Creds(), old(net.script), currency);
              r == run.value && Follows(run, old(net.log))
    {
      var call := Facade.PositionsCall(currency);
      var response := MakeRequest(call.endpoint, call.params);
      r := if response.Ok? then Ok(Parse(response.value)) else Err(response.fault);
    }
  }
}
