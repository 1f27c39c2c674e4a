/**
 * The two rate-limited CoinGecko relays (app/api/coingecko/markets/route.ts and
 * app/api/coingecko/global/route.ts). Both GET handlers are the same early-return
 * chain and differ only in the limiter key prefix, the schema and the fallback
 * payload, which a `Route` value carries.
 */
module Proxy {
  import opened Wrappers
  import opened Json
  import opened Strings
  import opened Validation
  import opened RateLimit

  /** The inbound request headers the handler reads (`headers.get` yields null when absent). */
  datatype Request = Request(forwardedFor: Option<string>, realIp: Option<string>)

  /** The upstream fetch: it throws, or replies with `ok`, a content type, and a body
      (None when `response.json()` throws). */
  datatype Upstream =
    | UpstreamThrew
    | UpstreamReply(ok: bool, contentType: Option<string>, body: Option<Json>)

  datatype RateHeaders = RateHeaders(limit: int, remaining: int, reset: int)

  /** A JSON response: status, body and the X-RateLimit-* headers if any. */
  datatype Response = Response(status: nat, body: Json, rateHeaders: Option<RateHeaders>)

  datatype Route = Route(keyPrefix: string, schema: Shape, fallback: Json)

  const TooManyRequests: Json := JObj(map["error" := JStr("Too many requests")])

  /** `x-forwarded-for ?? x-real-ip ?? 'anonymous'`: the first header present wins, even an
      empty one. */
  function Identity(req: Request): (id: string)
    ensures req.forwardedFor.Some? ==> id == req.forwardedFor.value
    ensures req.forwardedFor.None? && req.realIp.Some? ==> id == req.realIp.value
    ensures req.forwardedFor.None? && req.realIp.None? ==> id == "anonymous"
  {
    if req.forwardedFor.Some? then req.forwardedFor.value
    else if req.realIp.Some? then req.realIp.value
    else "anonymous"
  }

  function LimiterKey(route: Route, req: Request): string {
    route.keyPrefix + Identity(req)
  }

  function HeadersOf(d: Decision): RateHeaders {
    RateHeaders(d.limit, d.remaining, d.reset)
  }

  /** `NextResponse.json(FALLBACK_DATA)`: status 200, no rate-limit headers. */
  function FallbackResponse(route: Route): Response {
    Response(200, route.fallback, None)
  }

  /** A reply the handler goes on to parse: ok, with a content type that includes application/json. */
  predicate JsonReply(u: Upstream) {
    u.UpstreamReply? && u.ok && u.contentType.Some? && Includes(u.contentType.value, "application/json")
  }

  /** The GET handler: identity, quota, then the upstream reply or the fallback. */
  function Get(route: Route, rl: RateLimiter, req: Request, now: int,
               upstash: (Limiter, string) -> Check, upstream: Upstream): (r: Response)
    ensures r.status == 200 || r.status == 429
    ensures var check := rl.CheckRateLimit(LimiterKey(route, req), now, upstash);
            r.status == 429 <==> check.Checked? && !check.decision.success
    ensures r.rateHeaders.None? ==> r == FallbackResponse(route)
  {
    match rl.CheckRateLimit(LimiterKey(route, req), now, upstash)
    case Rejected => FallbackResponse(route)
    case Checked(d) =>
      if !d.success then Response(429, TooManyRequests, Some(HeadersOf(d)))
      else if !JsonReply(upstream) || upstream.body.None? then FallbackResponse(route)
      else
        match SafeValidate(route.schema, upstream.body.value) {
          case Failure(_) => FallbackResponse(route)
          case Success(data) => Response(200, data, Some(HeadersOf(d)))
        }
  }

  // ---------------------------------------------------------------------------
  // The two routes
  // ---------------------------------------------------------------------------

  /** The fixed market records served when the upstream fails: id, symbol, price, 24h change. */
  const FallbackCoins: seq<(string, string, real, real)> := [
    ("bitcoin", "btc", 98234.0, 2.4),
    ("ethereum", "eth", 3821.0, 1.8),
    ("tether", "usdt", 1.00, 0.01),
    ("solana", "sol", 234.0, 5.2),
    ("binancecoin", "bnb", 712.0, 1.3),
    ("ripple", "xrp", 2.42, 3.1),
    ("usd-coin", "usdc", 1.00, 0.0),
    ("cardano", "ada", 1.08, 2.7),
    ("dogecoin", "doge", 0.42, 4.2),
    ("avalanche-2", "avax", 51.2, -1.2)
  ]

  function CoinJson(c: (string, string, real, real)): Json {
    JObj(map["id" := JStr(c.0), "symbol" := JStr(c.1),
             "current_price" := JNum(c.2), "price_change_percentage_24h" := JNum(c.3)])
  }

  const MarketsFallback: Json :=
    JArr(seq(|FallbackCoins|, i requires 0 <= i < |FallbackCoins| => CoinJson(FallbackCoins[i])))

  const GlobalFallback: Json :=
    JObj(map["data" := JObj(map["market_cap_percentage" := JObj(map["btc" := JNum(56.8), "eth" := JNum(12.4)])])])

  const MarketsRoute: Route := Route("coingecko-markets:", CoinGeckoMarketsSchema, MarketsFallback)
  const GlobalRoute: Route := Route("coingecko-global:", CoinGeckoGlobalSchema, GlobalFallback)

  // ---------------------------------------------------------------------------
  // Properties
  // ---------------------------------------------------------------------------

  /** The markets fallback holds ten records, each a valid market record. */
  lemma MarketsFallbackValid()
    ensures MarketsFallback.JArr? && |MarketsFallback.items| == 10
    ensures Conforms(CoinGeckoMarketsSchema, MarketsFallback)
  {
    forall i | 0 <= i < |MarketsFallback.items| ensures MarketRecordOk(MarketsFallback.items[i]) {
      assert MarketsFallback.items[i] == CoinJson(FallbackCoins[i]);
    }
    MarketsSchemaAccepts(MarketsFallback);
  }

  /** The global fallback is a valid global payload with btc 56.8 and eth 12.4. */
  lemma GlobalFallbackValid()
    ensures Conforms(CoinGeckoGlobalSchema, GlobalFallback)
    ensures GlobalFallback.fields["data"].fields["market_cap_percentage"].fields["btc"] == JNum(56.8)
    ensures GlobalFallback.fields["data"].fields["market_cap_percentage"].fields["eth"] == JNum(12.4)
  {
    GlobalSchemaAccepts(GlobalFallback);
  }

  /** A denied request is answered 429 with the quota headers, whatever the upstream would
      have said: the upstream is not consulted. */
  lemma DeniedRequestSkipsUpstream(route: Route, rl: RateLimiter, req: Request, now: int,
                                   upstash: (Limiter, string) -> Check, u1: Upstream, u2: Upstream)
    requires rl.CheckRateLimit(LimiterKey(route, req), now, upstash).Checked?
    requires !rl.CheckRateLimit(LimiterKey(route, req), now, upstash).decision.success
    ensures Get(route, rl, req, now, upstash, u1) == Get(route, rl, req, now, upstash, u2)
    ensures var d := rl.CheckRateLimit(LimiterKey(route, req), now, upstash).decision;
            Get(route, rl, req, now, upstash, u1) == Response(429, TooManyRequests, Some(HeadersOf(d)))
  {
  }

  /** The limiter is asked about one key only: the route's prefix followed by the identity. */
  lemma LimiterAskedOnlyAboutIdentityKey(route: Route, rl: RateLimiter, req: Request, now: int,
                                         f: (Limiter, string) -> Check, g: (Limiter, string) -> Check, u: Upstream)
    requires rl.limiter.Some? ==> f(rl.limiter.value, LimiterKey(route, req)) == g(rl.limiter.value, LimiterKey(route, req))
    ensures Get(route, rl, req, now, f, u) == Get(route, rl, req, now, g, u)
  {
  }

  /** Once the quota allows the request, the handler serves the validated upstream data with the
      quota headers exactly when the upstream replied ok, as JSON, with a body that validates;
      in every other case it serves the fallback without headers. */
  lemma AllowedRequestOutcome(route: Route, rl: RateLimiter, req: Request, now: int,
                              upstash: (Limiter, string) -> Check, u: Upstream)
    requires rl.CheckRateLimit(LimiterKey(route, req), now, upstash).Checked?
    requires rl.CheckRateLimit(LimiterKey(route, req), now, upstash).decision.success
    ensures var r := Get(route, rl, req, now, upstash, u);
            var d := rl.CheckRateLimit(LimiterKey(route, req), now, upstash).decision;
            if JsonReply(u) && u.body.Some? && Conforms(route.schema, u.body.value)
            then r == Response(200, SafeValidate(route.schema, u.body.value).value, Some(HeadersOf(d)))
            else r == FallbackResponse(route)
    ensures var r := Get(route, rl, req, now, upstash, u);
            WellFormed(route.schema) && JsonReply(u) && u.body.Some? && Conforms(route.schema, u.body.value) ==>
              Restricts(route.schema, r.body, u.body.value)
  {
  }

  /** A limiter call that rejects is caught like any other exception: the fallback is served. */
  lemma RejectedLimiterServesFallback(route: Route, rl: RateLimiter, req: Request, now: int,
                                      upstash: (Limiter, string) -> Check, u: Upstream)
    requires rl.CheckRateLimit(LimiterKey(route, req), now, upstash).Rejected?
    ensures Get(route, rl, req, now, upstash, u) == FallbackResponse(route)
  {
  }

  /** Quota headers are sent on a denial and on live data, never with the fallback. */
  lemma HeadersOnlyWithQuotaDecisions(route: Route, rl: RateLimiter, req: Request, now: int,
                                      upstash: (Limiter, string) -> Check, u: Upstream)
    ensures var r := Get(route, rl, req, now, upstash, u);
            r == FallbackResponse(route) ==> r.rateHeaders.None?
    ensures var r := Get(route, rl, req, now, upstash, u);
            r != FallbackResponse(route) ==> r.rateHeaders.Some?
    ensures var r := Get(route, rl, req, now, upstash, u);
            r.status == 429 ==> r.rateHeaders.Some?
  {
  }

  /** Fail-open: without a configured limiter no request is ever refused. */
  lemma UnconfiguredLimiterNeverDenies(route: Route, rl: RateLimiter, req: Request, now: int,
                                       upstash: (Limiter, string) -> Check, u: Upstream)
    requires rl.limiter.None?
    ensures Get(route, rl, req, now, upstash, u).status == 200
  {
  }

  /** On any route whose fallback is valid, every 200 response conforms to the route's schema. */
  lemma ResponsesConform(route: Route, rl: RateLimiter, req: Request, now: int,
                         upstash: (Limiter, string) -> Check, u: Upstream)
    requires WellFormed(route.schema) && Conforms(route.schema, route.fallback)
    ensures var r := Get(route, rl, req, now, upstash, u);
            r.status == 200 ==> Conforms(route.schema, r.body)
  {
  }

  /** On any route, live data (a 200 with quota headers) is the upstream's JSON payload cut
      down to the schema's keys. */
  lemma LiveDataRestrictsUpstream(route: Route, rl: RateLimiter, req: Request, now: int,
                                  upstash: (Limiter, string) -> Check, u: Upstream)
    requires WellFormed(route.schema)
    ensures var r := Get(route, rl, req, now, upstash, u);
            r.status == 200 && r.rateHeaders.Some? ==>
              JsonReply(u) && u.body.Some? && Conforms(route.schema, u.body.value) &&
              Conforms(route.schema, r.body) && Restricts(route.schema, r.body, u.body.value)
  {
  }

  /** Every 200 response of the markets route carries a valid list of market records. */
  lemma MarketsResponsesConform(rl: RateLimiter, req: Request, now: int,
                                upstash: (Limiter, string) -> Check, u: Upstream)
    ensures var r := Get(MarketsRoute, rl, req, now, upstash, u);
            r.status == 200 ==> Conforms(CoinGeckoMarketsSchema, r.body)
  {
    MarketsFallbackValid();
    MarketsSchemaWellFormed();
    ResponsesConform(MarketsRoute, rl, req, now, upstash, u);
  }

  /** Live data from the markets route is the upstream's list, record for record, each
      record cut down to the six declared keys with its values unchanged. */
  lemma LiveMarketsAreUpstreamRecords(rl: RateLimiter, req: Request, now: int,
                                      upstash: (Limiter, string) -> Check, u: Upstream)
    ensures var r := Get(MarketsRoute, rl, req, now, upstash, u);
            r.status == 200 && r.rateHeaders.Some? ==>
              && u.UpstreamReply? && u.body.Some? && u.body.value.JArr? && r.body.JArr?
              && |r.body.items| == |u.body.value.items|
              && forall i :: 0 <= i < |r.body.items| ==>
                   && r.body.items[i].JObj? && u.body.value.items[i].JObj?
                   && r.body.items[i].fields.Keys == u.body.value.items[i].fields.Keys * MarketRecordKeys
                   && forall k :: k in r.body.items[i].fields ==>
                        k in u.body.value.items[i].fields && r.body.items[i].fields[k] == u.body.value.items[i].fields[k]
  {
    var r := Get(MarketsRoute, rl, req, now, upstash, u);
    if r.status == 200 && r.rateHeaders.Some? {
      MarketsSchemaWellFormed();
      LiveDataRestrictsUpstream(MarketsRoute, rl, req, now, upstash, u);
      var v := r.body;
      var j := u.body.value;
      assert Restricts(ArrayShape(CoinGeckoMarketSchema, 0), v, j);
      forall i | 0 <= i < |v.items|
        ensures && v.items[i].JObj? && j.items[i].JObj?
                && v.items[i].fields.Keys == j.items[i].fields.Keys * MarketRecordKeys
                && forall k :: k in v.items[i].fields ==> k in j.items[i].fields && v.items[i].fields[k] == j.items[i].fields[k]
      {
        MarketRecordRestricted(v.items[i], j.items[i]);
      }
    }
  }

  /** `body.data.market_cap_percentage`. */
  function Percentages(body: Json): Json
    requires GlobalOk(body)
  {
    body.fields["data"].fields["market_cap_percentage"]
  }

  /** Every 200 response of the global route carries numeric btc and eth shares. */
  lemma GlobalResponsesConform(rl: RateLimiter, req: Request, now: int,
                               upstash: (Limiter, string) -> Check, u: Upstream)
    ensures var r := Get(GlobalRoute, rl, req, now, upstash, u);
            r.status == 200 ==> GlobalOk(r.body)
  {
    GlobalFallbackValid();
    GlobalSchemaWellFormed();
    ResponsesConform(GlobalRoute, rl, req, now, upstash, u);
    GlobalSchemaAccepts(Get(GlobalRoute, rl, req, now, upstash, u).body);
  }

  /** Live data from the global route carries the upstream's own btc and eth shares. */
  lemma LiveGlobalSharesAreUpstreamShares(rl: RateLimiter, req: Request, now: int,
                                          upstash: (Limiter, string) -> Check, u: Upstream)
    ensures var r := Get(GlobalRoute, rl, req, now, upstash, u);
            r.status == 200 && r.rateHeaders.Some? ==>
              && u.UpstreamReply? && u.body.Some? && GlobalOk(u.body.value) && GlobalOk(r.body)
              && Percentages(r.body).fields["btc"] == Percentages(u.body.value).fields["btc"]
              && Percentages(r.body).fields["eth"] == Percentages(u.body.value).fields["eth"]
  {
    var r := Get(GlobalRoute, rl, req, now, upstash, u);
    if r.status == 200 && r.rateHeaders.Some? {
      GlobalSchemaWellFormed();
      LiveDataRestrictsUpstream(GlobalRoute, rl, req, now, upstash, u);
      GlobalSchemaAccepts(r.body);
      GlobalSchemaAccepts(u.body.value);
      GlobalRestricted(r.body, u.body.value);
    }
  }
}
