/** The trading operations: each one chooses an endpoint and builds its params
    (validating the amount first where there is one), then dispatches through
    the session. Their runs are given as functions of the session state and the
    outcome script, in the style of module Session. */
module Facade {
  import opened Wire
  import opened Transport
  import opened Session

  const CONTRACT_SIZE: real := 10.0
  const ORDER_BOOK_DEPTH: int := 5
  const ORDER_BOOK_ENDPOINT: string := "public/get_order_book"
  const EDIT_ENDPOINT: string := PRIVATE_MARKER + "edit"
  const CANCEL_ENDPOINT: string := PRIVATE_MARKER + "cancel"
  const POSITIONS_ENDPOINT: string := PRIVATE_MARKER + "get_positions"

  /** `k` contracts' worth of amount. */
  function Contracts(k: int): real
  {
    k as real * CONTRACT_SIZE
  }

  /** The amount is accepted when dividing it by the contract size leaves no
      remainder. */
  function ValidateAmount(amount: real): (r: Result<real>)
    ensures r.Ok? ==> r.value == amount
    ensures r.Err? ==> r.fault == InvalidAmount
  {
    if (amount / CONTRACT_SIZE).Floor as real == amount / CONTRACT_SIZE then Ok(amount)
    else Err(InvalidAmount)
  }

  /** Exactly the whole multiples of the contract size pass, negative ones and
      zero included. */
  lemma ValidateAmountAccepts(amount: real)
    ensures ValidateAmount(amount).Ok? <==> exists k :: amount == Contracts(k)
  {
    forall k | amount == Contracts(k)
      ensures ValidateAmount(amount).Ok?
    {
      assert amount / CONTRACT_SIZE == k as real;
    }
    if ValidateAmount(amount).Ok? {
      assert amount == Contracts((amount / CONTRACT_SIZE).Floor);
    }
  }

  lemma ValidationExamples()
    ensures ValidateAmount(10.0) == Ok(10.0)
    ensures ValidateAmount(0.0) == Ok(0.0)
    ensures ValidateAmount(-20.0) == Ok(-20.0)
    ensures ValidateAmount(15.0) == Err(InvalidAmount)
    ensures ValidateAmount(2.5) == Err(InvalidAmount)
  {
  }

  /** An endpoint and the params posted to it. */
  datatype Call = Call(endpoint: string, params: Params)

  function OrderbookCall(instrument: string): Call
  {
    Call(ORDER_BOOK_ENDPOINT, [("instrument_name", Text(instrument)), ("depth", Whole(ORDER_BOOK_DEPTH))])
  }

  /** A post-only limit order on the side's own endpoint; the amount is
      validated while the params are built. */
  function PlaceOrderCall(instrument: string, side: string, amount: real, price: real): Result<Call>
  {
    match ValidateAmount(amount)
    case Err(f) => Err(f)
    case Ok(valid) =>
      Ok(Call(PRIVATE_MARKER + side,
              [("instrument_name", Text(instrument)), ("amount", Number(valid)),
               ("price", Number(price)), ("type", Text("limit")), ("post_only", Flag(true))]))
  }

  function ModifyOrderCall(orderId: string, newPrice: real, amount: real): Result<Call>
  {
    match ValidateAmount(amount)
    case Err(f) => Err(f)
    case Ok(valid) =>
      Ok(Call(EDIT_ENDPOINT,
              [("order_id", Text(orderId)), ("price", Number(newPrice)), ("amount", Number(valid))]))
  }

  function CancelOrderCall(orderId: string): Call
  {
    Call(CANCEL_ENDPOINT, [("order_id", Text(orderId))])
  }

  function PositionsCall(currency: string): Call
  {
    Call(POSITIONS_ENDPOINT, [("currency", Text(currency))])
  }

  lemma MarkedPrivate(name: string)
    ensures IsPrivate(PRIVATE_MARKER + name)
  {
    PrivateAnywhere("", name);
    assert "" + PRIVATE_MARKER + name == PRIVATE_MARKER + name;
  }

  lemma PlaceOrderCallShape(instrument: string, side: string, amount: real, price: real)
    ensures var c := PlaceOrderCall(instrument, side, amount, price);
            && (c.Ok? <==> ValidateAmount(amount).Ok?)
            && (c.Err? ==> c.fault == InvalidAmount)
            && (c.Ok? ==>
                  && c.value.endpoint == "private/" + side
                  && IsPrivate(c.value.endpoint)
                  && ("instrument_name", Text(instrument)) in c.value.params
                  && ("amount", Number(amount)) in c.value.params
                  && ("price", Number(price)) in c.value.params
                  && ("type", Text("limit")) in c.value.params
                  && ("post_only", Flag(true)) in c.value.params)
  {
    MarkedPrivate(side);
  }

  /** The order book's endpoint is public: the marker does not occur in it. */
  lemma OrderbookEndpointIsPublic()
    ensures !IsPrivate(ORDER_BOOK_ENDPOINT)
  {
    var s := ORDER_BOOK_ENDPOINT;
    assert s[..|PRIVATE_MARKER|][1] != PRIVATE_MARKER[1];
    AbsentHead(s[1..], PRIVATE_MARKER);
  }

  /** Every operation but the order book goes to a private endpoint. */
  lemma PrivateOperations(instrument: string, side: string, amount: real, price: real,
                          orderId: string, currency: string)
    ensures PlaceOrderCall(instrument, side, amount, price).Ok? ==>
              IsPrivate(PlaceOrderCall(instrument, side, amount, price).value.endpoint)
    ensures ModifyOrderCall(orderId, price, amount).Ok? ==>
              IsPrivate(ModifyOrderCall(orderId, price, amount).value.endpoint)
    ensures IsPrivate(CancelOrderCall(orderId).endpoint)
    ensures IsPrivate(PositionsCall(currency).endpoint)
  {
    PlaceOrderCallShape(instrument, side, amount, price);
    MarkedPrivate("edit");
    MarkedPrivate("cancel");
    MarkedPrivate("get_positions");
  }

  /** Dispatch `call` and parse the body; faults propagate. */
  function Fetch(st: State, creds: Credentials, script: seq<Outcome>, call: Call): Run<Result<Doc>>
  {
    var run := MakeRequest(st, creds, script, call.endpoint, call.params);
    Run(match run.value
        case Ok(body) => Ok(Parse(body))
        case Err(f) => Err(f),
        run.state, run.rest, run.sent)
  }

  /** A call that fails before anything is posted. */
  function Refused<T>(st: State, script: seq<Outcome>, f: Fault): Run<Result<T>>
  {
    Run(Err(f), st, script, [])
  }

  function GetOrderbook(st: State, creds: Credentials, script: seq<Outcome>,
                        instrument: string): Run<Result<Doc>>
  {
    Fetch(st, creds, script, OrderbookCall(instrument))
  }

  /** What order placement hands back: any dispatch fault, any error
      document and any body that does not parse become the null document;
      only a result gets through. */
  function OrderReply(v: Result<Body>): (d: Doc)
    ensures !d.ErrorDoc?
    ensures v.Ok? && v.value.Answer? ==> d == ResultDoc(v.value.result)
    ensures !(v.Ok? && v.value.Answer?) ==> d == NullDoc
  {
    match v
    case Err(_) => NullDoc
    case Ok(body) => if Parse(body).ErrorDoc? then NullDoc else Parse(body)
  }

  function PlaceOrder(st: State, creds: Credentials, script: seq<Outcome>,
                      instrument: string, side: string, amount: real, price: real): Run<Result<Doc>>
  {
    match PlaceOrderCall(instrument, side, amount, price)
    case Err(f) => Refused(st, script, f)
    case Ok(call) =>
      var run := MakeRequest(st, creds, script, call.endpoint, call.params);
      Run(Ok(OrderReply(run.value)), run.state, run.rest, run.sent)
  }

  function ModifyOrder(st: State, creds: Credentials, script: seq<Outcome>,
                       orderId: string, newPrice: real, amount: real): Run<Result<Doc>>
  {
    match ModifyOrderCall(orderId, newPrice, amount)
    case Err(f) => Refused(st, script, f)
    case Ok(call) => Fetch(st, creds, script, call)
  }

  function CancelOrder(st: State, creds: Credentials, script: seq<Outcome>,
                       orderId: string): Run<Result<Doc>>
  {
    Fetch(st, creds, script, CancelOrderCall(orderId))
  }

  function GetPositions(st: State, creds: Credentials, script: seq<Outcome>,
                        currency: string): Run<Result<Doc>>
  {
    Fetch(st, creds, script, PositionsCall(currency))
  }

  /** An amount that is not a multiple of the contract size is refused before
      anything is built into an envelope: nothing is posted, no id is used,
      the session and the script are untouched. */
  lemma InvalidAmountSendsNothing(st: State, creds: Credentials, script: seq<Outcome>,
                                  instrument: string, side: string, orderId: string,
                                  amount: real, price: real)
    requires !exists k :: amount == Contracts(k)
    ensures PlaceOrder(st, creds, script, instrument, side, amount, price)
            == Run(Err(InvalidAmount), st, script, [])
    ensures ModifyOrder(st, creds, script, orderId, price, amount)
            == Run(Err(InvalidAmount), st, script, [])
  {
    ValidateAmountAccepts(amount);
  }

  /** Order placement raises only the validation fault. With a valid amount
      it always posts and returns a value: dispatch faults and error replies
      come back as the null document, a result comes back as it is. */
  lemma PlaceOrderSwallowsFailures(st: State, creds: Credentials, script: seq<Outcome>,
                                   instrument: string, side: string, amount: real, price: real)
    ensures var r := PlaceOrder(st, creds, script, instrument, side, amount, price);
            var dispatched := MakeRequest(st, creds, script, PRIVATE_MARKER + side,
                                          [("instrument_name", Text(instrument)), ("amount", Number(amount)),
                                           ("price", Number(price)), ("type", Text("limit")),
                                           ("post_only", Flag(true))]);
            && (r.value.Err? <==> !exists k :: amount == Contracts(k))
            && (r.value.Err? ==> r.value.fault == InvalidAmount)
            && (r.value.Ok? ==>
                  && r.sent == dispatched.sent && r.state == dispatched.state && r.sent != []
                  && !r.value.value.ErrorDoc?
                  && (!(dispatched.value.Ok? && dispatched.value.value.Answer?) ==>
                        r.value.value == NullDoc)
                  && (dispatched.value.Ok? && dispatched.value.value.Answer? ==>
                        r.value.value == ResultDoc(dispatched.value.value.result)))
  {
    ValidateAmountAccepts(amount);
    if ValidateAmount(amount).Ok? {
      IdsConsecutive(st, creds, script, PRIVATE_MARKER + side,
                     [("instrument_name", Text(instrument)), ("amount", Number(amount)),
                      ("price", Number(price)), ("type", Text("limit")), ("post_only", Flag(true))]);
    }
  }

  /** The order book never logs in before posting, whatever the session: its
      first envelope is for the order book itself and carries no bearer. */
  lemma OrderbookNeverLogsIn(st: State, creds: Credentials, script: seq<Outcome>, instrument: string)
    ensures var r := GetOrderbook(st, creds, script, instrument);
            && r.sent != []
            && r.sent[0].rpcMethod == ORDER_BOOK_ENDPOINT
            && r.sent[0].headers == [ContentTypeJson]
  {
    var call := OrderbookCall(instrument);
    OrderbookEndpointIsPublic();
    AuthenticationGating(st, creds, script, call.endpoint, call.params);
  }

  /** Without a token, cancelling an order first logs in, and if that login
      fails the cancel envelope is never posted. */
  lemma CancelWithoutTokenLogsInFirst(st: State, creds: Credentials, script: seq<Outcome>, orderId: string)
    requires st.accessToken == ""
    ensures var r := CancelOrder(st, creds, script, orderId);
            && r.sent != [] && r.sent[0] == AuthRequest(st.requestId, creds)
            && (!Authenticate(st, creds, script).value ==>
                  r.value == Err(FailedToAuthenticate) && |r.sent| == 1)
  {
    var call := CancelOrderCall(orderId);
    PrivateOperations("", "", 0.0, 0.0, orderId, "");
    AuthenticationGating(st, creds, script, call.endpoint, call.params);
  }

  /** A positions query made with a stale token that the exchange rejects with
      13009 once and then accepts: one login in between, three envelopes with
      consecutive ids, the second answer handed back. */
  lemma StaleTokenScenario(st: State, creds: Credentials, message: string,
                           access: string, refresh: string, positions: map<string, string>,
                           currency: string)
    requires st.accessToken != "" && access != ""
    ensures var r := GetPositions(st, creds,
                                  [Delivered(Rejected(SESSION_EXPIRED_CODE, message)),
                                   LoginReply(access, refresh),
                                   Delivered(Answer(positions))],
                                  currency);
            && r.value == Ok(ResultDoc(positions))
            && |r.sent| == 3
            && r.sent[0].id == st.requestId && r.sent[0].headers == [Bearer(st.accessToken), ContentTypeJson]
            && r.sent[1] == AuthRequest(st.requestId + 1, creds)
            && r.sent[2].id == st.requestId + 2 && r.sent[2].headers == [Bearer(access), ContentTypeJson]
            && r.state == State(access, refresh, st.requestId + 3)
  {
    var call := PositionsCall(currency);
    PrivateOperations("", "", 0.0, 0.0, "", currency);
    var tail := [Delivered(Answer(positions))];
    var more := [LoginReply(access, refresh)] + tail;
    var script := [Delivered(Rejected(SESSION_EXPIRED_CODE, message))] + more;
    assert script == [Delivered(Rejected(SESSION_EXPIRED_CODE, message)), LoginReply(access, refresh),
                      Delivered(Answer(positions))];
    ExpiredSessionReauthenticates(st, creds, script, call.endpoint, call.params);
    var re := Authenticate(st.(requestId := st.requestId + 1), creds, more);
    assert more[1..] == tail;
    assert re.value && re.rest == tail && re.state == State(access, refresh, st.requestId + 2);
    OtherRepliesPassThrough(re.state, creds, tail, call.endpoint, call.params);
    var retry := MakeRequest(re.state, creds, re.rest, call.endpoint, call.params);
    var r := MakeRequest(st, creds, script, call.endpoint, call.params);
    assert r.value == Ok(Answer(positions));
    assert r.sent == [EndpointRequest(st.requestId, call.endpoint, call.params, st.accessToken),
                      AuthRequest(st.requestId + 1, creds),
                      EndpointRequest(st.requestId + 2, call.endpoint, call.params, access)];
  }

  /** A reply that is not 13009 to a call needing no login is parsed and
      handed back; a transport failure is raised. */
  lemma FetchPassesReplies(st: State, creds: Credentials, script: seq<Outcome>, call: Call)
    requires !NeedsLogin(st, call.endpoint)
    ensures script != [] && script[0].Delivered? && !IsSessionExpired(script[0].body) ==>
              Fetch(st, creds, script, call).value == Ok(Parse(script[0].body))
    ensures script == [] || script[0] == Dropped ==>
              Fetch(st, creds, script, call).value == Err(TransportError)
  {
    OtherRepliesPassThrough(st, creds, script, call.endpoint, call.params);
    TransportFailureNotRetried(st, creds, script, call.endpoint, call.params);
  }

  /** Unlike order placement, which turns error documents and unparseable
      bodies into the null document, the other operations hand back whatever
      the reader makes of the reply -- the exchange's error document included
      -- when it is not 13009, after one envelope. */
  lemma RepliesReachTheCaller(st: State, creds: Credentials, body: Body, more: seq<Outcome>,
                              instrument: string, orderId: string, price: real, amount: real,
                              currency: string)
    requires st.accessToken != "" && !IsSessionExpired(body)
    requires ValidateAmount(amount).Ok?
    ensures var s := [Delivered(body)] + more;
            && GetOrderbook(st, creds, s, instrument).value == Ok(Parse(body))
            && ModifyOrder(st, creds, s, orderId, price, amount).value == Ok(Parse(body))
            && CancelOrder(st, creds, s, orderId).value == Ok(Parse(body))
            && GetPositions(st, creds, s, currency).value == Ok(Parse(body))
  {
    var s := [Delivered(body)] + more;
    FetchPassesReplies(st, creds, s, OrderbookCall(instrument));
    FetchPassesReplies(st, creds, s, ModifyOrderCall(orderId, price, amount).value);
    FetchPassesReplies(st, creds, s, CancelOrderCall(orderId));
    FetchPassesReplies(st, creds, s, PositionsCall(currency));
  }

  /** Unlike order placement, which reports it as the null document, the
      other operations let a transport failure -- a dropped connection or a
      network that has gone away -- propagate to the caller. */
  lemma TransportFailuresReachTheCaller(st: State, creds: Credentials, script: seq<Outcome>,
                                        instrument: string, orderId: string, price: real,
                                        amount: real, currency: string)
    requires st.accessToken != "" && (script == [] || script[0] == Dropped)
    requires ValidateAmount(amount).Ok?
    ensures && GetOrderbook(st, creds, script, instrument).value == Err(TransportError)
            && ModifyOrder(st, creds, script, orderId, price, amount).value == Err(TransportError)
            && CancelOrder(st, creds, script, orderId).value == Err(TransportError)
            && GetPositions(st, creds, script, currency).value == Err(TransportError)
  {
    FetchPassesReplies(st, creds, script, OrderbookCall(instrument));
    FetchPassesReplies(st, creds, script, ModifyOrderCall(orderId, price, amount).value);
    FetchPassesReplies(st, creds, script, CancelOrderCall(orderId));
    FetchPassesReplies(st, creds, script, PositionsCall(currency));
  }
}
