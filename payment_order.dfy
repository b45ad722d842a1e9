/** The payment-order initiator: a guard-clause pipeline that, for an
    authenticated caller who owns a QR code that is not already on a paid-length
    window, asks the payment provider for an order of fixed amount and currency.
    It reads the data store and never writes it. */
module PaymentOrder {
  import opened Wrappers
  import opened JsStrings

  /** The secrets and client settings read from the environment. */
  datatype Env = Env(
    razorpayKeyId: Option<string>,
    razorpayKeySecret: Option<string>,
    supabaseUrl: Option<string>,
    serviceRoleKey: Option<string>,
    anonKey: Option<string>)

  /** The claims of a JWT payload that the handler looks at. */
  datatype Claims = Claims(sub: Option<string>)

  /** The parsed JSON request body, reduced to the field the handler reads. */
  datatype OrderBody = OrderBody(qrCodeId: Option<string>)

  /** A request: method, `Authorization` header, and the outcome of `req.json()`
      with destructuring (an `Err` carries the message of what it threw). */
  datatype Request = Request(httpMethod: string, authorization: Option<string>, body: Result<OrderBody>)

  /** A `qr_codes` row as the initiator sees it; times are epoch milliseconds. */
  datatype StoredCode = StoredCode(id: string, ownerId: string, status: string, expiresAt: Option<int>)

  /** The provider's order, as parsed from its JSON reply. */
  datatype ProviderOrder = ProviderOrder(id: string, amount: int, currency: string)

  /** What calling the provider's order endpoint comes to: an order, a non-ok
      HTTP status, or a throw carrying its message. A throw stands for every
      way the call can fail on the way: `fetch` rejecting, reading the error
      text failing, or the reply not parsing as JSON. */
  datatype ProviderReply =
    | ProviderOk(order: ProviderOrder)
    | ProviderNotOk(httpStatus: int)
    | ProviderThrew(message: string)

  datatype Notes = Notes(userId: string, qrCodeId: string)

  /** The order request sent to the provider, with the Basic-auth credentials. */
  datatype OrderRequest = OrderRequest(
    keyId: string, keySecret: string,
    amount: int, currency: string, receipt: string, notes: Notes)

  /** The JSON response bodies. */
  datatype ResponseBody =
    | PreflightOk
    | ErrorBody(error: string)
    | ErrorWithDetails(error: string, details: string)
    | OrderCreated(orderId: string, amount: int, currency: string)

  datatype Response = Response(status: int, body: ResponseBody)

  /** The response, and the provider call made on the way, if any. */
  datatype Outcome = Outcome(response: Response, providerCall: Option<OrderRequest>)

  const OrderAmount := 1000
  const OrderCurrency := "USD"
  const DayMs := 1000 * 60 * 60 * 24
  /** More days to expiry than this means the code is on a paid-length window:
      trials last 30 days, paid windows a year. */
  const PaidThresholdDays := 60

  // ---------------------------------------------------------------------------
  // Identity extraction: the `sub` claim of the bearer token, signature unchecked

  /** `authHeader.replace("Bearer", "").trim()`: the first `Bearer` anywhere is
      removed, then surrounding whitespace. */
  function BearerToken(header: string): (r: string)
    ensures |r| <= |header|
    ensures r == [] || (!IsJsSpace(r[0]) && !IsJsSpace(r[|r| - 1]))
  {
    var replaced := ReplaceFirst(header, "Bearer", "");
    assert |replaced| <= |header| by {
      if Occurs(header, "Bearer") {
        assert |replaced| == |header| - 6;
      }
    }
    Trim(replaced)
  }

  /** `JSON.parse(atob(token.split(".")[1]))?.sub ?? null`, then the falsy test.
      `decodePayload` is base64 decoding followed by JSON parsing (`None` when
      either throws). Without a second segment `atob(undefined)` throws, so the
      decoder is never asked. */
  function ExtractUserId(header: string, decodePayload: string -> Option<Claims>): (r: Option<string>)
    ensures r.Some? ==> r.value != [] && '.' in BearerToken(header)
  {
    SplitHasTwoPiecesIffSeparator(BearerToken(header), '.');
    var segments := Split(BearerToken(header), '.');
    if |segments| < 2 then None
    else
      match decodePayload(segments[1])
      case None => None
      case Some(claims) => if Truthy(claims.sub) then claims.sub else None
  }

  /** Identity extraction fails closed: an identity is a non-empty `sub` claim
      of the decoded second segment of the token, and nothing else. */
  lemma ExtractUserIdSpec(header: string, decodePayload: string -> Option<Claims>, u: string)
    ensures ExtractUserId(header, decodePayload) == Some(u) <==>
              && '.' in BearerToken(header)
              && var segments := Split(BearerToken(header), '.');
                 && |segments| >= 2
                 && u != []
                 && decodePayload(segments[1]) == Some(Claims(Some(u)))
  {
    SplitHasTwoPiecesIffSeparator(BearerToken(header), '.');
  }

  /** A token without a `.` yields no identity, whatever the decoder does. */
  lemma NoSegmentNoIdentity(header: string, decodePayload: string -> Option<Claims>)
    requires '.' !in BearerToken(header)
    ensures ExtractUserId(header, decodePayload).None?
  {
    SplitHasTwoPiecesIffSeparator(BearerToken(header), '.');
  }

  /** For the usual `Bearer <token>` header the token is recovered exactly. */
  lemma BearerTokenOfStandardHeader(t: string)
    requires t != [] ==> !IsJsSpace(t[0]) && !IsJsSpace(t[|t| - 1])
    ensures BearerToken("Bearer " + t) == t
  {
    var rest := [' '] + t;
    assert "Bearer " + t == "Bearer" + rest;
    ReplaceLeadingPattern("Bearer", rest, "");
    assert "" + rest == rest;
    TrimStartSkipsSpace(' ', t);
    TrimUnpadded(t);
    assert Trim(rest) == t;
  }

  // ---------------------------------------------------------------------------
  // Ownership-scoped lookup and eligibility

  /** The row-level-security lookup by id: the data store authenticates the
      caller from the same `Authorization` header (`verifiedSubject`, `None` when
      the token does not verify) and shows only that subject's rows, so a row
      owned by someone else and a missing row look the same. */
  function ScopedLookup(store: map<string, StoredCode>, verifiedSubject: Option<string>, id: string): Option<StoredCode> {
    if verifiedSubject.Some? && id in store && store[id].ownerId == verifiedSubject.value then Some(store[id])
    else None
  }

  /** Other callers' rows cannot influence a caller's lookup: replacing or
      deleting any row that `u` does not own, by a row `u` does not own, leaves
      every lookup by `u` as it was; without a verified subject nothing is seen. */
  lemma ScopedLookupNonInterference(
    store: map<string, StoredCode>, u: string, id: string, key: string, row: StoredCode)
    requires key !in store || store[key].ownerId != u
    requires row.ownerId != u
    ensures ScopedLookup(store[key := row], Some(u), id) == ScopedLookup(store, Some(u), id)
    ensures ScopedLookup(store - {key}, Some(u), id) == ScopedLookup(store, Some(u), id)
    ensures ScopedLookup(store, None, id).None?
  {
  }

  datatype Eligibility = Eligible | AlreadyUpgraded

  /** The already-upgraded rule, in integer milliseconds: active, with an expiry,
      and strictly more than 60 days of it left. Trial versus paid is not stored;
      it is inferred from how far away the expiry is. */
  function EligibilityOf(rec: StoredCode, now: int): (e: Eligibility)
    ensures e == AlreadyUpgraded ==> rec.status == "active" && rec.expiresAt.Some?
    ensures rec.status != "active" || rec.expiresAt.None? ==> e == Eligible
    ensures rec.expiresAt.Some? && rec.expiresAt.value - now <= PaidThresholdDays * DayMs ==> e == Eligible
    ensures rec.status == "active" && rec.expiresAt.Some? && rec.expiresAt.value - now > PaidThresholdDays * DayMs ==>
              e == AlreadyUpgraded
  {
    if rec.status == "active" && rec.expiresAt.Some? && rec.expiresAt.value - now > PaidThresholdDays * DayMs
    then AlreadyUpgraded
    else Eligible
  }

  /** The source compares `(expiry - now) / (1000 * 60 * 60 * 24) > 60` in
      floating point; over the reals that is the integer comparison used here. */
  lemma DaysComparisonIsMillisComparison(diff: int)
    ensures (diff as real) / (DayMs as real) > PaidThresholdDays as real <==> diff > PaidThresholdDays * DayMs
  {
    var d := DayMs as real;
    assert d > 0.0;
    assert (diff as real) / d * d == diff as real;
  }

  // ---------------------------------------------------------------------------
  // The pipeline

  /** Whether `createClient` builds a client: modelled as failing exactly on an
      empty or missing URL or key. */
  predicate ClientBuilds(url: Option<string>, key: Option<string>) {
    url.GetOr("") != [] && key.GetOr("") != []
  }

  function ClientError(url: Option<string>): string {
    if url.GetOr("") == [] then "supabaseUrl is required." else "supabaseKey is required."
  }

  /** The provider order request: fixed amount and currency, the QR code id as
      receipt, and caller and code as notes for later reconciliation. */
  function OrderRequestFor(env: Env, userId: string, qrCodeId: string): (r: OrderRequest)
    requires Truthy(env.razorpayKeyId) && Truthy(env.razorpayKeySecret)
    ensures r.keyId == env.razorpayKeyId.value && r.keySecret == env.razorpayKeySecret.value
    ensures r.amount == 1000 && r.currency == "USD"
    ensures r.receipt == qrCodeId && r.notes.userId == userId && r.notes.qrCodeId == qrCodeId
  {
    OrderRequest(env.razorpayKeyId.value, env.razorpayKeySecret.value,
                 OrderAmount, OrderCurrency, qrCodeId, Notes(userId, qrCodeId))
  }

  /** Every guard the request passes on the way to the provider call. */
  predicate PassesGuards(
    req: Request, env: Env, store: map<string, StoredCode>, verifiedSubject: Option<string>,
    decodePayload: string -> Option<Claims>, now: int)
  {
    && req.httpMethod != "OPTIONS"
    && Truthy(env.razorpayKeyId) && Truthy(env.razorpayKeySecret)
    && ClientBuilds(env.supabaseUrl, env.serviceRoleKey)
    && Truthy(req.authorization)
    && ClientBuilds(env.supabaseUrl, env.anonKey)
    && ExtractUserId(req.authorization.value, decodePayload).Some?
    && BodyPasses(req, store, verifiedSubject, now)
  }

  /** The guards past authentication: a readable body naming a record that the
      verified caller owns and that is eligible. */
  predicate BodyPasses(req: Request, store: map<string, StoredCode>, verifiedSubject: Option<string>, now: int) {
    && req.body.Ok? && Truthy(req.body.value.qrCodeId)
    && var id := req.body.value.qrCodeId.value;
       && verifiedSubject.Some? && id in store && store[id].ownerId == verifiedSubject.value
       && EligibilityOf(store[id], now) == Eligible
  }

  /** The guard clauses, in the source's order: the response of the first one
      that stops the request, or `None` when all pass. */
  function EarlyResponse(
    req: Request, env: Env, store: map<string, StoredCode>, verifiedSubject: Option<string>,
    decodePayload: string -> Option<Claims>, now: int): (r: Option<Response>)
    ensures r.None? <==> PassesGuards(req, env, store, verifiedSubject, decodePayload, now)
    ensures r.Some? && r.value.status == 200 ==> req.httpMethod == "OPTIONS" && r.value.body == PreflightOk
    ensures r.Some? ==> !r.value.body.OrderCreated?
  {
    if req.httpMethod == "OPTIONS" then Some(Response(200, PreflightOk))
    else if !Truthy(env.razorpayKeyId) || !Truthy(env.razorpayKeySecret) then
      Some(Response(500, ErrorBody("Razorpay credentials not configured")))
    else if !ClientBuilds(env.supabaseUrl, env.serviceRoleKey) then
      Some(Response(500, ErrorBody(ClientError(env.supabaseUrl))))
    else if !Truthy(req.authorization) then
      Some(Response(401, ErrorBody("No authorization header")))
    else if !ClientBuilds(env.supabaseUrl, env.anonKey) then
      Some(Response(500, ErrorBody(ClientError(env.supabaseUrl))))
    else if ExtractUserId(req.authorization.value, decodePayload).None? then
      Some(Response(401, ErrorWithDetails("Unauthorized", "Auth session missing!")))
    else BodyResponse(req, store, verifiedSubject, now)
  }

  /** The guard clauses past authentication, in the source's order: the body,
      the required id, the scoped lookup and the eligibility rule. None of them
      answers 200 or with an order. */
  function BodyResponse(req: Request, store: map<string, StoredCode>, verifiedSubject: Option<string>, now: int): (r: Option<Response>)
    ensures r.None? <==> BodyPasses(req, store, verifiedSubject, now)
    ensures r.Some? ==> r.value.status != 200 && !r.value.body.OrderCreated?
  {
    if req.body.Err? then
      Some(Response(500, ErrorBody(req.body.message)))
    else if !Truthy(req.body.value.qrCodeId) then
      Some(Response(400, ErrorBody("qr_code_id is required")))
    else
      var qrCodeId := req.body.value.qrCodeId.value;
      match ScopedLookup(store, verifiedSubject, qrCodeId)
      case None => Some(Response(404, ErrorBody("QR code not found or you don't have access")))
      case Some(rec) =>
        if EligibilityOf(rec, now) == AlreadyUpgraded then
          Some(Response(400, ErrorBody("This QR code is already upgraded to Pro")))
        else None
  }

  /** The response once the provider has been called: a non-ok reply throws
      (500), an ok reply gives 200 with the order's id, amount and currency only. */
  function ProviderResponse(reply: ProviderReply): (r: Response)
    ensures r.status == 200 <==> reply.ProviderOk?
    ensures !reply.ProviderOk? ==> r.status == 500
    ensures r.body.OrderCreated? <==> reply.ProviderOk?
  {
    match reply
    case ProviderNotOk(httpStatus) => Response(500, ErrorBody("Razorpay API error: " + DecimalString(httpStatus)))
    case ProviderThrew(message) => Response(500, ErrorBody(message))
    case ProviderOk(order) => Response(200, OrderCreated(order.id, order.amount, order.currency))
  }

  /** The handler as a total function of the request, the environment, the store
      snapshot, the subject the store verifies, the payload decoder, the clock
      and the provider's reply (consulted only if the provider is called). The
      provider is called exactly when every guard passes, and 200 with an order
      is answered only after a provider call that succeeded. */
  function CreateOrder(
    req: Request, env: Env, store: map<string, StoredCode>, verifiedSubject: Option<string>,
    decodePayload: string -> Option<Claims>, now: int, reply: ProviderReply): (o: Outcome)
    ensures o.providerCall.Some? <==> PassesGuards(req, env, store, verifiedSubject, decodePayload, now)
    ensures o.response.status == 200 && req.httpMethod != "OPTIONS" ==> o.providerCall.Some? && reply.ProviderOk?
    ensures o.response.body.OrderCreated? ==> o.providerCall.Some? && reply.ProviderOk?
  {
    match EarlyResponse(req, env, store, verifiedSubject, decodePayload, now)
    case Some(response) => Outcome(response, None)
    case None =>
      assert PassesGuards(req, env, store, verifiedSubject, decodePayload, now);
      var userId := ExtractUserId(req.authorization.value, decodePayload).value;
      var call := OrderRequestFor(env, userId, req.body.value.qrCodeId.value);
      Outcome(ProviderResponse(reply), Some(call))
  }

  /** `String(n)` for an integer: a `-` for a negative number, then its decimal
      digits. */
  function DecimalString(n: int): (r: string)
    ensures r != []
    ensures n < 0 <==> r[0] == '-'
    ensures forall k :: (if n < 0 then 1 else 0) <= k < |r| ==> '0' <= r[k] <= '9'
    ensures n > 0 ==> r[0] != '0'
    ensures n < 0 ==> |r| >= 2 && r[1] != '0'
    decreases if n < 0 then 1 - n else n
  {
    if n < 0 then "-" + DecimalString(-n)
    else if n < 10 then [Digit(n)]
    else DecimalString(n / 10) + [Digit(n % 10)]
  }

  function Digit(d: int): (c: char)
    requires 0 <= d < 10
    ensures '0' <= c <= '9' && c as int - '0' as int == d
  {
    ('0' as int + d) as char
  }

  /** The number a string of decimal digits, with an optional leading `-`,
      denotes, as `Number(s)` reads it. */
  function DecimalValue(s: string): int {
    if s != [] && s[0] == '-' then -DigitsValue(s[1..]) else DigitsValue(s)
  }

  function DigitsValue(s: string): int {
    if s == [] then 0 else DigitsValue(s[..|s| - 1]) * 10 + (s[|s| - 1] as int - '0' as int)
  }

  /** Reading the decimal string back gives the number: the status in the error
      message is the provider's status. */
  lemma DecimalStringRoundTrip(n: int)
    ensures DecimalValue(DecimalString(n)) == n
  {
    if n < 0 {
      NaturalRoundTrip(-n);
      assert ("-" + DecimalString(-n))[1..] == DecimalString(-n);
    } else {
      NaturalRoundTrip(n);
    }
  }

  lemma {:induction false} NaturalRoundTrip(n: nat)
    ensures DigitsValue(DecimalString(n)) == n
  {
    if n >= 10 {
      NaturalRoundTrip(n / 10);
      var s := DecimalString(n);
      assert s[..|s| - 1] == DecimalString(n / 10);
    }
  }

  /** A provider call is made only for the record's verified owner, and always
      with amount 1000, currency "USD", the QR code id as receipt, and the
      caller's claimed id and the QR code id as notes. */
  lemma OrderRequestShape(
    req: Request, env: Env, store: map<string, StoredCode>, verifiedSubject: Option<string>,
    decodePayload: string -> Option<Claims>, now: int, reply: ProviderReply)
    ensures var o := CreateOrder(req, env, store, verifiedSubject, decodePayload, now, reply);
      o.providerCall.Some? ==>
        var id := req.body.value.qrCodeId.value;
        var userId := ExtractUserId(req.authorization.value, decodePayload).value;
        && id in store && Some(store[id].ownerId) == verifiedSubject
        && o.providerCall.value
             == OrderRequest(env.razorpayKeyId.value, env.razorpayKeySecret.value,
                             1000, "USD", id, Notes(userId, id))
  {
  }

  /** The preflight is answered "ok" before anything else. */
  lemma PreflightFirst(
    req: Request, env: Env, store: map<string, StoredCode>, verifiedSubject: Option<string>,
    decodePayload: string -> Option<Claims>, now: int, reply: ProviderReply)
    requires req.httpMethod == "OPTIONS"
    ensures CreateOrder(req, env, store, verifiedSubject, decodePayload, now, reply)
              == Outcome(Response(200, PreflightOk), None)
  {
  }

  /** Missing provider credentials give 500 before any authentication, body or
      store access: the outcome does not depend on request headers, body or store. */
  lemma MissingCredentialsFirst(
    req: Request, env: Env, store: map<string, StoredCode>, verifiedSubject: Option<string>,
    decodePayload: string -> Option<Claims>, now: int, reply: ProviderReply,
    other: Request, otherStore: map<string, StoredCode>)
    requires req.httpMethod != "OPTIONS" && other.httpMethod != "OPTIONS"
    requires !Truthy(env.razorpayKeyId) || !Truthy(env.razorpayKeySecret)
    ensures CreateOrder(req, env, store, verifiedSubject, decodePayload, now, reply)
              == Outcome(Response(500, ErrorBody("Razorpay credentials not configured")), None)
    ensures CreateOrder(req, env, store, verifiedSubject, decodePayload, now, reply)
              == CreateOrder(other, env, otherStore, None, decodePayload, now, reply)
  {
  }

  /** The environment, read past the provider credentials, that lets both data
      store clients be built. */
  predicate Configured(env: Env) {
    && Truthy(env.razorpayKeyId) && Truthy(env.razorpayKeySecret)
    && ClientBuilds(env.supabaseUrl, env.serviceRoleKey)
    && ClientBuilds(env.supabaseUrl, env.anonKey)
  }

  /** A guard that answers decides the handler's outcome, with no provider call. */
  lemma GuardAnswers(
    req: Request, env: Env, store: map<string, StoredCode>, verifiedSubject: Option<string>,
    decodePayload: string -> Option<Claims>, now: int, reply: ProviderReply, r: Response)
    requires EarlyResponse(req, env, store, verifiedSubject, decodePayload, now) == Some(r)
    ensures CreateOrder(req, env, store, verifiedSubject, decodePayload, now, reply) == Outcome(r, None)
  {
  }

  /** Past authentication, the body guards alone decide whether a guard answers. */
  lemma AuthenticatedDefersToBody(
    req: Request, env: Env, store: map<string, StoredCode>, verifiedSubject: Option<string>,
    decodePayload: string -> Option<Claims>, now: int)
    requires req.httpMethod != "OPTIONS" && Configured(env) && Truthy(req.authorization)
    requires ExtractUserId(req.authorization.value, decodePayload).Some?
    ensures EarlyResponse(req, env, store, verifiedSubject, decodePayload, now) == BodyResponse(req, store, verifiedSubject, now)
  {
  }

  /** Without an `Authorization` header: 401, nothing else consulted. */
  lemma MissingHeaderUnauthorized(
    req: Request, env: Env, store: map<string, StoredCode>, verifiedSubject: Option<string>,
    decodePayload: string -> Option<Claims>, now: int, reply: ProviderReply)
    requires req.httpMethod != "OPTIONS"
    requires Truthy(env.razorpayKeyId) && Truthy(env.razorpayKeySecret)
    requires ClientBuilds(env.supabaseUrl, env.serviceRoleKey)
    requires !Truthy(req.authorization)
    ensures CreateOrder(req, env, store, verifiedSubject, decodePayload, now, reply)
              == Outcome(Response(401, ErrorBody("No authorization header")), None)
  {
  }

  /** A header from which no identity can be extracted: 401, never a guest
      identity and never a provider call. */
  lemma NoIdentityUnauthorized(
    req: Request, env: Env, store: map<string, StoredCode>, verifiedSubject: Option<string>,
    decodePayload: string -> Option<Claims>, now: int, reply: ProviderReply)
    requires req.httpMethod != "OPTIONS" && Configured(env) && Truthy(req.authorization)
    requires ExtractUserId(req.authorization.value, decodePayload).None?
    ensures CreateOrder(req, env, store, verifiedSubject, decodePayload, now, reply)
              == Outcome(Response(401, ErrorWithDetails("Unauthorized", "Auth session missing!")), None)
  {
    GuardAnswers(req, env, store, verifiedSubject, decodePayload, now, reply,
                 Response(401, ErrorWithDetails("Unauthorized", "Auth session missing!")));
  }

  /** An authenticated request whose body lacks `qr_code_id` (or has it empty):
      400, no lookup, no provider call. */
  lemma MissingIdBadRequest(
    req: Request, env: Env, store: map<string, StoredCode>, verifiedSubject: Option<string>,
    decodePayload: string -> Option<Claims>, now: int, reply: ProviderReply)
    requires req.httpMethod != "OPTIONS" && Configured(env) && Truthy(req.authorization)
    requires ExtractUserId(req.authorization.value, decodePayload).Some?
    requires req.body.Ok? && !Truthy(req.body.value.qrCodeId)
    ensures CreateOrder(req, env, store, verifiedSubject, decodePayload, now, reply)
              == Outcome(Response(400, ErrorBody("qr_code_id is required")), None)
  {
    var answer := Response(400, ErrorBody("qr_code_id is required"));
    assert BodyResponse(req, store, verifiedSubject, now) == Some(answer);
    AuthenticatedDefersToBody(req, env, store, verifiedSubject, decodePayload, now);
    GuardAnswers(req, env, store, verifiedSubject, decodePayload, now, reply, answer);
  }

  /** A request that reaches the lookup with a non-empty id. */
  predicate ReachesLookup(req: Request, env: Env, decodePayload: string -> Option<Claims>) {
    && req.httpMethod != "OPTIONS" && Configured(env) && Truthy(req.authorization)
    && ExtractUserId(req.authorization.value, decodePayload).Some?
    && req.body.Ok? && Truthy(req.body.value.qrCodeId)
  }

  /** A missing record and a record owned by someone else give the same 404, and
      no provider call: the caller cannot tell them apart. */
  lemma NotOwnedLooksLikeMissing(
    req: Request, env: Env, store: map<string, StoredCode>, verifiedSubject: Option<string>,
    decodePayload: string -> Option<Claims>, now: int, reply: ProviderReply)
    requires ReachesLookup(req, env, decodePayload)
    requires var id := req.body.value.qrCodeId.value;
      id in store && (verifiedSubject.None? || store[id].ownerId != verifiedSubject.value)
    ensures var notFound := Outcome(Response(404, ErrorBody("QR code not found or you don't have access")), None);
      && CreateOrder(req, env, store, verifiedSubject, decodePayload, now, reply) == notFound
      && CreateOrder(req, env, store - {req.body.value.qrCodeId.value}, verifiedSubject, decodePayload, now, reply)
           == notFound
  {
    var id := req.body.value.qrCodeId.value;
    ForeignRecordMisses(store, verifiedSubject, id);
    LookupMissIsNotFound(req, env, store, verifiedSubject, decodePayload, now, reply);
    LookupMissIsNotFound(req, env, store - {id}, verifiedSubject, decodePayload, now, reply);
  }

  /** A record owned by someone else, and the same store without it, both
      give an empty scoped lookup. */
  lemma ForeignRecordMisses(store: map<string, StoredCode>, verifiedSubject: Option<string>, id: string)
    requires id in store && (verifiedSubject.None? || store[id].ownerId != verifiedSubject.value)
    ensures ScopedLookup(store, verifiedSubject, id).None?
    ensures ScopedLookup(store - {id}, verifiedSubject, id).None?
  {
    assert id !in store - {id};
  }

  /** Whenever the scoped lookup finds nothing, the answer is 404 with no
      provider call. */
  lemma LookupMissIsNotFound(
    req: Request, env: Env, store: map<string, StoredCode>, verifiedSubject: Option<string>,
    decodePayload: string -> Option<Claims>, now: int, reply: ProviderReply)
    requires ReachesLookup(req, env, decodePayload)
    requires ScopedLookup(store, verifiedSubject, req.body.value.qrCodeId.value).None?
    ensures CreateOrder(req, env, store, verifiedSubject, decodePayload, now, reply)
              == Outcome(Response(404, ErrorBody("QR code not found or you don't have access")), None)
  {
    var answer := Response(404, ErrorBody("QR code not found or you don't have access"));
    assert BodyResponse(req, store, verifiedSubject, now) == Some(answer);
    AuthenticatedDefersToBody(req, env, store, verifiedSubject, decodePayload, now);
    GuardAnswers(req, env, store, verifiedSubject, decodePayload, now, reply, answer);
  }

  /** The caller the store verifies owns the record the body names. */
  predicate CallerOwnsRecord(req: Request, store: map<string, StoredCode>, verifiedSubject: Option<string>) {
    && req.body.Ok? && Truthy(req.body.value.qrCodeId)
    && verifiedSubject.Some? && req.body.value.qrCodeId.value in store
    && store[req.body.value.qrCodeId.value].ownerId == verifiedSubject.value
  }

  /** Whatever the request, the environment, the token or the provider's reply:
      unless the verified caller owns the record the body names, the provider is
      never called and no order is answered. */
  lemma NonOwnerNeverGetsOrder(
    req: Request, env: Env, store: map<string, StoredCode>, verifiedSubject: Option<string>,
    decodePayload: string -> Option<Claims>, now: int, reply: ProviderReply)
    requires !CallerOwnsRecord(req, store, verifiedSubject)
    ensures var o := CreateOrder(req, env, store, verifiedSubject, decodePayload, now, reply);
      o.providerCall.None? && !o.response.body.OrderCreated?
  {
  }

  /** No caller other than the verified owner ever gets an order. */
  lemma OnlyOwnerGetsOrder(
    req: Request, env: Env, store: map<string, StoredCode>, verifiedSubject: Option<string>,
    decodePayload: string -> Option<Claims>, now: int, reply: ProviderReply)
    requires ReachesLookup(req, env, decodePayload)
    requires var id := req.body.value.qrCodeId.value;
      id in store && verifiedSubject.Some? && store[id].ownerId != verifiedSubject.value
    ensures var o := CreateOrder(req, env, store, verifiedSubject, decodePayload, now, reply);
      o.providerCall.None? && !o.response.body.OrderCreated?
  {
  }

  /** An owned record that is active with more than 60 days left: 400 "already
      upgraded" and no provider call. */
  lemma AlreadyUpgradedRejected(
    req: Request, env: Env, store: map<string, StoredCode>, subject: string,
    decodePayload: string -> Option<Claims>, now: int, reply: ProviderReply)
    requires ReachesLookup(req, env, decodePayload)
    requires var id := req.body.value.qrCodeId.value;
      && id in store && store[id].ownerId == subject
      && store[id].status == "active" && store[id].expiresAt.Some?
      && store[id].expiresAt.value - now > PaidThresholdDays * DayMs
    ensures CreateOrder(req, env, store, Some(subject), decodePayload, now, reply)
              == Outcome(Response(400, ErrorBody("This QR code is already upgraded to Pro")), None)
  {
    var answer := Response(400, ErrorBody("This QR code is already upgraded to Pro"));
    UpgradedBodyRejected(req, store, subject, now);
    AuthenticatedDefersToBody(req, env, store, Some(subject), decodePayload, now);
    GuardAnswers(req, env, store, Some(subject), decodePayload, now, reply, answer);
  }

  /** The body guards reject an owned, active record with more than 60 days left. */
  lemma UpgradedBodyRejected(req: Request, store: map<string, StoredCode>, subject: string, now: int)
    requires req.body.Ok? && Truthy(req.body.value.qrCodeId)
    requires var id := req.body.value.qrCodeId.value;
      && id in store && store[id].ownerId == subject
      && store[id].status == "active" && store[id].expiresAt.Some?
      && store[id].expiresAt.value - now > PaidThresholdDays * DayMs
    ensures BodyResponse(req, store, Some(subject), now)
              == Some(Response(400, ErrorBody("This QR code is already upgraded to Pro")))
  {
    var id := req.body.value.qrCodeId.value;
    assert ScopedLookup(store, Some(subject), id) == Some(store[id]);
    assert EligibilityOf(store[id], now) == AlreadyUpgraded;
  }

  /** The rule never rejects an owned record that is not active, has no expiry,
      or has 60 days or less left: the provider is called. */
  lemma NotUpgradedReachesProvider(
    req: Request, env: Env, store: map<string, StoredCode>, subject: string,
    decodePayload: string -> Option<Claims>, now: int, reply: ProviderReply)
    requires ReachesLookup(req, env, decodePayload)
    requires var id := req.body.value.qrCodeId.value;
      && id in store && store[id].ownerId == subject
      && (store[id].status != "active" || store[id].expiresAt.None?
          || store[id].expiresAt.value - now <= PaidThresholdDays * DayMs)
    ensures CreateOrder(req, env, store, Some(subject), decodePayload, now, reply).providerCall.Some?
  {
  }

  /** After the provider call: a non-ok reply is 500; an ok reply is 200 with
      only the provider order's id, amount and currency, never the credentials. */
  lemma ProviderReplyShapesResponse(
    req: Request, env: Env, store: map<string, StoredCode>, verifiedSubject: Option<string>,
    decodePayload: string -> Option<Claims>, now: int, reply: ProviderReply)
    requires PassesGuards(req, env, store, verifiedSubject, decodePayload, now)
    ensures var o := CreateOrder(req, env, store, verifiedSubject, decodePayload, now, reply);
      && (reply.ProviderNotOk? ==>
            o.response == Response(500, ErrorBody("Razorpay API error: " + DecimalString(reply.httpStatus))))
      && (reply.ProviderThrew? ==> o.response == Response(500, ErrorBody(reply.message)))
      && (reply.ProviderOk? ==>
            o.response == Response(200, OrderCreated(reply.order.id, reply.order.amount, reply.order.currency)))
  {
  }

  /** When the store verifies the same subject the token claims, the notes name
      the record's owner. */
  lemma NotesNameOwner(
    req: Request, env: Env, store: map<string, StoredCode>, verifiedSubject: Option<string>,
    decodePayload: string -> Option<Claims>, now: int, reply: ProviderReply)
    requires Truthy(req.authorization)
    requires verifiedSubject == ExtractUserId(req.authorization.value, decodePayload)
    ensures var o := CreateOrder(req, env, store, verifiedSubject, decodePayload, now, reply);
      o.providerCall.Some? ==> o.providerCall.value.notes.userId == store[o.providerCall.value.receipt].ownerId
  {
    var o := CreateOrder(req, env, store, verifiedSubject, decodePayload, now, reply);
    if o.providerCall.Some? {
      OrderRequestShape(req, env, store, verifiedSubject, decodePayload, now, reply);
      var id := req.body.value.qrCodeId.value;
      var userId := ExtractUserId(req.authorization.value, decodePayload).value;
      assert o.providerCall.value.receipt == id && o.providerCall.value.notes.userId == userId;
      assert Some(store[id].ownerId) == verifiedSubject;
    }
  }
}
