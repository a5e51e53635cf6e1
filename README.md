# Deribit client: session and dispatch core

This project models the request core of the `DeribitAPI` client class, which
talks to the Deribit test exchange over JSON-RPC. The class keeps an access
token, a refresh token and a request-id counter. For each call it decides:

- whether to log in first (no token yet and an endpoint whose name contains
  `private/`);
- which id to stamp on the envelope (the counter, incremented for every
  envelope, logins and retries included);
- whether to attach the `Authorization: Bearer` header;
- what to do with the answer: return it, raise a transport fault, or log in
  again and start the whole call over on error 13009.

On top of this sit the five trading operations. They build an endpoint and
its params, validate the amount against the contract size of 10 where there
is one, and dispatch.

The network is abstracted as a finite script of outcomes. Each outcome is a
transport failure, a body that does not parse, a `result` object, or an
`error` object with a code. Every POST consumes the next outcome, and an
exhausted script answers with a transport failure. Termination of the retry
is proved by the length of this script. JSON text is not modelled: envelopes
and bodies are datatypes.

The modules:

- `Wire`: envelopes, headers, bodies, documents and faults, plus the
  substring test behind "private".
- `Transport`: the scripted network, with `Network` standing for the curl
  handle and logging every request posted through it.
- `Session`: `authenticate` and `makeRequest` as pure functions over the
  token/counter state and the script, and the properties of one call.
- `Facade`: amount validation, the params of each operation, the operations
  as functions, and their properties.
- `Client`: the class `DeribitApi`. Its fields are updated in place, and
  every method is proved to do exactly what the matching `Session` or
  `Facade` function says. `Valid()` keeps the ids of every request ever
  posted through the handle equal to 1, 2, 3, ... in order.

`makeRequest` retries without bound. It is not limited to one
re-authentication per call: the code at main.cpp:141 calls `makeRequest`
again every time it sees 13009, with no attempt counter. The model follows
the code:
`Session.RetryIsUnbounded` shows that k rounds of "13009, then a successful
login" lead to 2k + 1 envelopes for every k.

## Model

| member | source | states |
|---|---|---|
| Wire.ContainsOccurs | main.cpp:84 | The privacy test is a substring search: the recursive search succeeds exactly when the marker occurs at some index of the endpoint name |
| Wire.PrivateAnywhere | main.cpp:111 | The marker makes an endpoint private wherever it occurs in the name, not only as a prefix |
| Wire.Headers | main.cpp:110-115 | The content-type header is always attached; `Bearer <token>` is attached if and only if the endpoint is private; no other header is attached, so the list holds two headers for a private endpoint and one otherwise |
| Wire.AuthRequest | main.cpp:26-47 | The login envelope: `public/auth` at the base URL, version 2.0, the given id, grant type `client_credentials` with the client id and secret, and only the content-type header; its properties are stated by `Session.Authenticate` and `Session.AuthenticationGating` |
| Wire.EndpointRequest | main.cpp:91-115 | The envelope of an endpoint call: the endpoint at the base URL and as method, version 2.0, the given id, the params as given, and the headers of `Wire.Headers` |
| Wire.Parse | main.cpp:186-189 | The reader yields an error document exactly for an `error` body, carrying its code and message, the null value exactly for a body that does not parse, and otherwise a document carrying the reply's `result` |
| Wire.ParseKeepsBodies | main.cpp:186-189 | The reader loses nothing of a body that parses: two parsed bodies that read the same are equal |
| Transport.Deliver | main.cpp:125-131 | A POST takes the first outcome of the script and consumes exactly that one, leaving the rest; an exhausted script fails at the transport level and stays exhausted |
| Transport.Network.Post | main.cpp:125 | Posting appends the request to the log and takes the next outcome of the script |
| Session.Authenticate | main.cpp:25-77 | Login posts one envelope under the current id and advances the counter by one; it succeeds exactly when the reply parses and has `result`, in which case both tokens are taken from it; otherwise both tokens are unchanged |
| Session.Gate | main.cpp:84-88 | The login gate of a call: the login when there is no token and the endpoint is private, otherwise nothing; its effect is stated by `Session.AuthenticationGating` and `Session.PastTheGate` |
| Session.MakeRequest | main.cpp:81-146 | A call posts at least one envelope, advances the counter by exactly the number of envelopes it posts, and never lengthens the script; the rest of its behaviour is stated by the lemmas below |
| Session.Attempt | main.cpp:90-145 | The part of a call past the gate: at least one envelope, the counter advanced by their number, the script not lengthened |
| Session.Reauthenticate | main.cpp:137-141 | The re-login after 13009 followed by the whole call again: at least one envelope, the counter advanced by their number, the script not lengthened |
| Session.PastTheGate | main.cpp:84-102 | When the gate lets a call through, the call is the gate's login (if any) followed by the attempt made from the state and script the gate leaves |
| Session.IdsConsecutive | main.cpp:100 | Every envelope of a call, logins and retries included, takes the current id and advances it: ids are consecutive, so strictly increasing, and the next call starts past them |
| Session.ScriptConsumption | main.cpp:125-131 | Each envelope consumes exactly one outcome, in order; only the last envelope of a call can find the script exhausted |
| Session.OutcomeOfLastRequest | main.cpp:129-145 | The last envelope decides the result: a body or a transport fault answers an endpoint envelope sent with the final token, a login fault answers a login envelope; 13009 is never handed back |
| Session.RetriesRepeatTheCall | main.cpp:141 | A call posts only login envelopes and envelopes for the same endpoint with the same params |
| Session.AuthenticationGating | main.cpp:84-88 | The first envelope is a login exactly when there is no token and the endpoint is private; a failed first login raises the authentication fault after that one envelope, leaving the token empty and the refresh token unchanged; a public endpoint never logs in first |
| Session.TransportFailureNotRetried | main.cpp:129-131 | A transport failure on the endpoint envelope, whether or not the gate logged in first, raises the transport fault right after that envelope: no further login, no retry, the tokens as the gate left them |
| Session.OtherRepliesPassThrough | main.cpp:133-145 | Any reply to the endpoint envelope but 13009 (a result, another error code, an unparseable body) is returned as it came, right after the gate's login if any, leaving the tokens as the gate left them and the rest of the script unconsumed |
| Session.AttemptReauthenticates | main.cpp:136-141 | An attempt answered with 13009 logs in again under the next id: a failed login raises the re-authentication fault after two envelopes with the tokens kept; otherwise the result, state and script are those of the whole call made again, after the two envelopes |
| Session.ExpiredSessionReauthenticates | main.cpp:136-142 | After 13009 on the endpoint envelope, with or without a gate login before it, the call logs in again under the next id: if that fails it raises the re-authentication fault with the tokens as they were, otherwise it is the whole call made again from the new session |
| Session.RetryIsUnbounded | main.cpp:141 | k rounds of 13009 each followed by a successful login, then a final body: the call returns that body after 2k + 1 envelopes, for every k |
| Facade.ValidateAmount | main.cpp:149-155 | A valid amount is returned unchanged; the only failure is the invalid-amount fault |
| Facade.ValidateAmountAccepts | main.cpp:149-155 | An amount passes if and only if it is a whole multiple of the contract size 10 (zero and negative multiples included) |
| Facade.ValidationExamples | main.cpp:150-152 | 10, 0 and -20 pass; 15 and 2.5 are refused |
| Facade.PlaceOrderCallShape | main.cpp:194-203 | Order params are built exactly when the amount is valid, go to `private/<side>` (a private endpoint), and carry the instrument, amount, price, type `limit` and `post_only` true |
| Facade.OrderbookCall | main.cpp:181-184 | The order-book call: `public/get_order_book` with the instrument and depth 5; its properties are stated by `Facade.OrderbookEndpointIsPublic` and `Facade.OrderbookNeverLogsIn` |
| Facade.PlaceOrderCall | main.cpp:195-203 | The order call, built only for a valid amount; stated by `Facade.PlaceOrderCallShape` |
| Facade.ModifyOrderCall | main.cpp:222-227 | The edit call to `private/edit` with order id, price and validated amount, built only for a valid amount; stated by `Facade.PrivateOperations` and `Facade.InvalidAmountSendsNothing` |
| Facade.CancelOrderCall | main.cpp:237-239 | The cancel call to `private/cancel` with the order id; stated by `Facade.PrivateOperations` and `Facade.CancelWithoutTokenLogsInFirst` |
| Facade.PositionsCall | main.cpp:249-251 | The positions call to `private/get_positions` with the currency; stated by `Facade.PrivateOperations` and `Facade.StaleTokenScenario` |
| Facade.OrderbookEndpointIsPublic | main.cpp:184 | The order-book endpoint is public |
| Facade.PrivateOperations | main.cpp:203-251 | Placing, editing and cancelling orders and reading positions all go to private endpoints |
| Facade.InvalidAmountSendsNothing | main.cpp:197-225 | An amount that is not a multiple of 10 makes placing or modifying an order fail with the invalid-amount fault: nothing is posted, no id is used, the session and the script are untouched |
| Facade.Fetch | main.cpp:184-189 | Dispatch a call and read its body, letting faults propagate; stated by `Facade.FetchPassesReplies` |
| Facade.GetOrderbook | main.cpp:180-190 | The order-book operation; stated by `Facade.OrderbookNeverLogsIn`, `Facade.RepliesReachTheCaller` and `Facade.TransportFailuresReachTheCaller` |
| Facade.PlaceOrder | main.cpp:194-218 | The order placement operation; stated by `Facade.InvalidAmountSendsNothing` and `Facade.PlaceOrderSwallowsFailures` |
| Facade.ModifyOrder | main.cpp:221-233 | The order edit operation; stated by `Facade.InvalidAmountSendsNothing`, `Facade.RepliesReachTheCaller` and `Facade.TransportFailuresReachTheCaller` |
| Facade.CancelOrder | main.cpp:236-245 | The cancel operation; stated by `Facade.CancelWithoutTokenLogsInFirst`, `Facade.RepliesReachTheCaller` and `Facade.TransportFailuresReachTheCaller` |
| Facade.GetPositions | main.cpp:248-257 | The positions operation; stated by `Facade.StaleTokenScenario`, `Facade.RepliesReachTheCaller` and `Facade.TransportFailuresReachTheCaller` |
| Facade.OrderReply | main.cpp:205-217 | Order placement hands back a result as it is and the null value for everything else: a dispatch fault, an error document, or a body that does not parse |
| Facade.PlaceOrderSwallowsFailures | main.cpp:194-218 | Order placement fails only on an invalid amount. With a valid amount it dispatches the order params and returns a value: the result when the dispatch returned one, the null value in every other case (a fault, an error reply, an unparseable body) |
| Facade.OrderbookNeverLogsIn | main.cpp:180-190 | The order book's first envelope is the order-book call itself, with only the content-type header, whatever the session |
| Facade.CancelWithoutTokenLogsInFirst | main.cpp:236-245 | Without a token, cancelling first posts a login; if it fails the cancel envelope is never posted and the authentication fault is raised |
| Facade.StaleTokenScenario | main.cpp:248-257 | Positions read with a stale token rejected once with 13009, then accepted: three envelopes (old bearer, login, new bearer) with consecutive ids, the second answer returned, the new tokens kept |
| Facade.FetchPassesReplies | main.cpp:184-189 | For a call needing no login, a first reply other than 13009 comes back parsed, and a dropped connection or an exhausted network raises the transport fault |
| Facade.RepliesReachTheCaller | main.cpp:180-257 | With a token, order book, modify, cancel and positions hand back whatever the reader makes of a non-13009 reply, error documents included |
| Facade.TransportFailuresReachTheCaller | main.cpp:180-257 | With a token, a transport failure on the first POST (a dropped connection or an exhausted network) propagates out of order book, modify, cancel and positions |
| Client.DeribitApi.constructor | main.cpp:161-170 | A new client has both tokens empty, counter 1, the given credentials and an empty request log |
| Client.DeribitApi.Authenticate | main.cpp:25-77 | The method does what `Session.Authenticate` says to the fields and the network, and keeps the log's ids consecutive from 1 |
| Client.DeribitApi.MakeRequest | main.cpp:81-146 | The method returns and leaves fields, script and log exactly as `Session.MakeRequest` says, logging in first when gated |
| Client.DeribitApi.Attempt | main.cpp:90-145 | Posting, fault, pass-through and re-login-and-recurse branches match `Session.Attempt` on fields, script and log |
| Client.DeribitApi.GetOrderbook | main.cpp:180-190 | Matches `Facade.GetOrderbook` on result, fields, script and log |
| Client.DeribitApi.PlaceOrder | main.cpp:194-218 | Matches `Facade.PlaceOrder` on result, fields, script and log |
| Client.DeribitApi.ModifyOrder | main.cpp:221-233 | Matches `Facade.ModifyOrder` on result, fields, script and log |
| Client.DeribitApi.CancelOrder | main.cpp:236-245 | Matches `Facade.CancelOrder` on result, fields, script and log |
| Client.DeribitApi.GetPositions | main.cpp:248-257 | Matches `Facade.GetPositions` on result, fields, script and log |

## Left out

- libcurl: the write callback, handle reset and options, header-list allocation, the 10-second timeout, and handle creation and cleanup in the constructor and destructor. The network is the outcome script, and a curl failure (a timeout included) is a `Dropped` outcome.
- The failure to create the curl handle in the constructor is not modelled; the constructor always succeeds.
- The curl error text carried by the transport fault's message is not kept. Faults carry no message.
- JSON text: serialising envelopes and parsing replies with jsoncpp. Envelopes are `Request` values. Params are name/value lists in the order the code assigns them; this order is the model's choice (jsoncpp serialises object members sorted by name), and no property depends on it.
- A `result` object is kept as its string members only. A member that is missing reads as the empty string, as with jsoncpp's `asString` on a null value. Other member types and their conversions are not modelled.
- A body carrying both `result` and `error`, an `error` whose code is not an integer, and an `error` member that is not an object (the lookup of its code at main.cpp:137 fails an assertion) cannot be expressed.
- A body that parses but is neither a `result` nor an `error` object (an empty object, an array, a non-null scalar) cannot be expressed. A `null` body behaves like a body that does not parse: `isMember` answers false on it (main.cpp:70, main.cpp:136, main.cpp:210), so it takes that path. For an array or a non-null scalar, jsoncpp's `isMember` (main.cpp:70, main.cpp:136, main.cpp:210) fails an assertion and raises a logic error according to its documentation; that error is not a `runtime_error` and would escape even the catch of `placeOrder` (main.cpp:214). This path is not modelled.
- Wire.Parse: a reply is kept as its `result` member, or as its error's code and message; the reply's other members (`jsonrpc`, `id`, …), which the facade operations return with it, are not modelled.
- Facade.Fetch: for a body that does not parse, jsoncpp may leave a partially filled value; the model hands back the null value.
- Facade.OrderReply: the same holds for order placement, which returns the reader's value for a body that does not parse (main.cpp:209-213); the model hands back the null value.
- Facade.ValidateAmount: amounts are exact reals and validation is exact divisibility by 10. The IEEE `fmod`, rounding, NaN and infinities are not modelled.
- Session.IdsConsecutive: the counter is an unbounded integer. The 32-bit `int` overflow after 2^31 - 1 envelopes is not modelled.
- The message printed to standard error when order placement fails is not modelled, and neither is the exception text built from an error document's message.
- The interactive command loop, console output and hard-coded credentials of `main` are not modelled.
- Client.DeribitApi.MakeRequest: the source's single recursive method is split into the login gate (`MakeRequest`) and the rest (`Attempt`), which calls `MakeRequest` again on 13009; together they run the same steps in the same order.
