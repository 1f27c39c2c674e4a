/** The market dominance widget (components/MarketDominance.tsx), fed by the global proxy route. */
module MarketDominance {
  import opened Wrappers
  import opened Json
  import opened Http
  import opened Validation
  import opened Store
  import Proxy
  import RateLimit

  const RefreshIntervalMs: nat := 5 * 60 * 1000

  /** `data?.data?.market_cap_percentage?.<key>`. */
  function Share(data: Json, key: string): Option<Json> {
    MemberOf(MemberOf(Member(data, "data"), "market_cap_percentage"), key)
  }

  /** What `fetchDominance` writes: both shares present and non-zero numbers, and the rest
      of the market as the remainder to 100. */
  function DominanceFromBody(data: Json): (r: Option<Dominance>)
    ensures r.Some? <==>
      && Share(data, "btc").Some? && Share(data, "btc").value.JNum? && Share(data, "btc").value.n != 0.0
      && Share(data, "eth").Some? && Share(data, "eth").value.JNum? && Share(data, "eth").value.n != 0.0
    ensures r.Some? ==> r.value.btc == Share(data, "btc").value.n && r.value.eth == Share(data, "eth").value.n
    ensures r.Some? ==> r.value.btc + r.value.eth + r.value.others == 100.0
  {
    var btc := Share(data, "btc");
    var eth := Share(data, "eth");
    if TruthyOpt(btc) && TruthyOpt(eth) && btc.value.JNum? && eth.value.JNum? then
      Some(Dominance(btc.value.n, eth.value.n, 100.0 - btc.value.n - eth.value.n))
    else None
  }

  function ReadDominance(reply: Reply): (r: Option<Dominance>)
    ensures OkBody(reply).None? ==> r.None?
    ensures OkBody(reply).Some? ==> r == DominanceFromBody(OkBody(reply).value)
  {
    match OkBody(reply)
    case None => None
    case Some(data) => DominanceFromBody(data)
  }

  method FetchDominance(store: MarketStore, reply: Reply)
    requires store.Valid()
    modifies store
    ensures store.Valid()
    ensures ReadDominance(reply).None? ==> store.Current() == old(store.Current())
    ensures ReadDominance(reply).Some? ==> store.Current() == old(store.Current()).(dominance := ReadDominance(reply))
  {
    var r := ReadDominance(reply);
    if r.Some? {
      store.SetDominance(r.value.btc, r.value.eth, r.value.others);
    }
  }

  /** The proxy's fallback payload gives btc 56.8 and eth 12.4, and the rest of the market as
      their remainder to 100 (30.8 in exact arithmetic; the browser's double subtraction
      stores 30.800000000000004, which the widget displays as 30.8). */
  lemma FallbackDominance()
    ensures DominanceFromBody(Proxy.GlobalFallback) == Some(Dominance(56.8, 12.4, 30.8))
  {
  }

  /** What the widget's `fetch` sees of a proxy response: `response.ok` for a 2xx status, and
      the JSON body. */
  function AsReply(r: Proxy.Response): (reply: Reply)
    ensures reply.Reply? && reply.body == Some(r.body)
    ensures reply.ok <==> 200 <= r.status <= 299
  {
    Reply(200 <= r.status <= 299, Some(r.body))
  }

  /** Through the proxy: every 200 response of the global route is written as long as both
      shares are non-zero, and a 429 response fails the `ok` check, so nothing is written. */
  lemma ProxyResponsesAccepted(rl: RateLimit.RateLimiter, req: Proxy.Request, now: int,
                               upstash: (RateLimit.Limiter, string) -> RateLimit.Check, u: Proxy.Upstream)
    ensures var r := Proxy.Get(Proxy.GlobalRoute, rl, req, now, upstash, u);
            var btc := Share(r.body, "btc");
            var eth := Share(r.body, "eth");
            r.status == 200 ==>
              && btc.Some? && btc.value.JNum? && eth.Some? && eth.value.JNum?
              && (ReadDominance(AsReply(r)).Some? <==> btc.value.n != 0.0 && eth.value.n != 0.0)
    ensures var r := Proxy.Get(Proxy.GlobalRoute, rl, req, now, upstash, u);
            r.status == 429 ==> OkBody(AsReply(r)).None? && ReadDominance(AsReply(r)).None?
  {
    Proxy.GlobalResponsesConform(rl, req, now, upstash, u);
  }
}
