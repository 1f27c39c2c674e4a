/** The long/short account ratio widget (components/LongShortRatio.tsx). The reply is read
    with optional chaining, without a schema. */
module LongShort {
  import opened Wrappers
  import opened Json
  import opened Http
  import opened Store

  const RefreshIntervalMs: nat := 5 * 60 * 1000

  /** `parseFloat(v)` on a JSON value: a string is parsed by `parse` (None for NaN), a number
      reads back as itself, and other values give NaN. */
  function ParseFloatJson(v: Json, parse: string -> Option<real>): (r: Option<real>)
    ensures v.JNum? ==> r == Some(v.n)
    ensures v.JStr? ==> r == parse(v.s)
    ensures !v.JNum? && !v.JStr? ==> r.None?
  {
    match v
    case JNum(n) => Some(n)
    case JStr(s) => parse(s)
    case _ => None
  }

  /** `data.result.list[0]` when `retCode === 0` and the list is a non-empty array. */
  function Latest(data: Json): (r: Option<Json>)
    ensures r.Some? <==>
      Member(data, "retCode") == Some(JNum(0.0)) &&
      MemberOf(Member(data, "result"), "list").Some? &&
      MemberOf(Member(data, "result"), "list").value.JArr? &&
      |MemberOf(Member(data, "result"), "list").value.items| > 0
    ensures r.Some? ==> r.value == MemberOf(Member(data, "result"), "list").value.items[0]
  {
    var list := MemberOf(Member(data, "result"), "list");
    if Member(data, "retCode") == Some(JNum(0.0)) && list.Some? && list.value.JArr? && |list.value.items| > 0
    then Some(list.value.items[0])
    else None
  }

  /** The guard chain of `fetchRatio` on a parsed body: both ratios truthy and both parse to
      numbers; the values stored are percentages. */
  function RatioFromBody(data: Json, parse: string -> Option<real>): (r: Option<Ratio>)
    ensures r.Some? <==>
      && Latest(data).Some?
      && TruthyOpt(Member(Latest(data).value, "buyRatio"))
      && TruthyOpt(Member(Latest(data).value, "sellRatio"))
      && ParseFloatJson(Member(Latest(data).value, "buyRatio").value, parse).Some?
      && ParseFloatJson(Member(Latest(data).value, "sellRatio").value, parse).Some?
    ensures r.Some? ==>
      r.value.long == ParseFloatJson(Member(Latest(data).value, "buyRatio").value, parse).value * 100.0 &&
      r.value.short == ParseFloatJson(Member(Latest(data).value, "sellRatio").value, parse).value * 100.0
  {
    match Latest(data)
    case None => None
    case Some(latest) =>
      var buy := Member(latest, "buyRatio");
      var sell := Member(latest, "sellRatio");
      if TruthyOpt(buy) && TruthyOpt(sell) then
        match (ParseFloatJson(buy.value, parse), ParseFloatJson(sell.value, parse)) {
          case (Some(b), Some(s)) => Some(Ratio(b * 100.0, s * 100.0))
          case _ => None
        }
      else None
  }

  /** The whole poll: a failed request or an unparsable body writes nothing. */
  function ReadRatio(reply: Reply, parse: string -> Option<real>): (r: Option<Ratio>)
    ensures r.Some? ==> OkBody(reply).Some? && r == RatioFromBody(OkBody(reply).value, parse)
    ensures OkBody(reply).Some? ==> r == RatioFromBody(OkBody(reply).value, parse)
  {
    match OkBody(reply)
    case None => None
    case Some(data) => RatioFromBody(data, parse)
  }

  /** A typical reply: ratios "0.65" and "0.35" are stored as 65 and 35. */
  lemma TypicalReply(parse: string -> Option<real>)
    requires parse("0.65") == Some(0.65) && parse("0.35") == Some(0.35)
    ensures var entry := JObj(map["buyRatio" := JStr("0.65"), "sellRatio" := JStr("0.35")]);
            var body := JObj(map["retCode" := JNum(0.0), "result" := JObj(map["list" := JArr([entry])])]);
            ReadRatio(Reply(true, Some(body)), parse) == Some(Ratio(65.0, 35.0))
  {
  }

  /** An error code, or an empty list, writes nothing. */
  lemma GuardRejects(code: real, entries: seq<Json>, parse: string -> Option<real>)
    ensures code != 0.0 ==>
      RatioFromBody(JObj(map["retCode" := JNum(code), "result" := JObj(map["list" := JArr(entries)])]), parse).None?
    ensures RatioFromBody(JObj(map["retCode" := JNum(0.0), "result" := JObj(map["list" := JArr([])])]), parse).None?
  {
  }

  /** `fetchRatio`: the store is written only when the guard chain passes. */
  method FetchRatio(store: MarketStore, reply: Reply, parse: string -> Option<real>)
    requires store.Valid()
    modifies store
    ensures store.Valid()
    ensures ReadRatio(reply, parse).None? ==> store.Current() == old(store.Current())
    ensures ReadRatio(reply, parse).Some? ==>
      store.Current() == old(store.Current()).(longShortRatio := ReadRatio(reply, parse))
  {
    var r := ReadRatio(reply, parse);
    if r.Some? {
      store.SetLongShortRatio(r.value.long, r.value.short);
    }
  }

  // ---------------------------------------------------------------------------
  // Display
  // ---------------------------------------------------------------------------

  /** `x || 50` for a stored percentage: no reading, or a reading of 0, shows as 50. */
  function OrFifty(x: Option<real>): (r: real)
    ensures x.None? || x.value == 0.0 ==> r == 50.0
    ensures x.Some? && x.value != 0.0 ==> r == x.value
  {
    if x.None? || x.value == 0.0 then 50.0 else x.value
  }

  /** The long and short percentages the widget displays. */
  function DisplayPercents(ratio: Option<Ratio>): (p: (real, real))
    ensures ratio.None? ==> p == (50.0, 50.0)
    ensures ratio.Some? ==> p == (OrFifty(Some(ratio.value.long)), OrFifty(Some(ratio.value.short)))
  {
    if ratio.None? then (OrFifty(None), OrFifty(None))
    else (OrFifty(Some(ratio.value.long)), OrFifty(Some(ratio.value.short)))
  }

  datatype Sentiment = StrongBullish | StrongBearish | Balanced

  /** The sentiment line: long above 60 wins over short above 60. */
  function SentimentOf(long: real, short: real): (s: Sentiment)
    ensures s == StrongBullish <==> long > 60.0
    ensures s == StrongBearish <==> long <= 60.0 && short > 60.0
    ensures s == Balanced <==> long <= 60.0 && short <= 60.0
  {
    if long > 60.0 then StrongBullish else if short > 60.0 then StrongBearish else Balanced
  }

  function SentimentText(s: Sentiment): string {
    match s
    case StrongBullish => "Strong bullish sentiment"
    case StrongBearish => "Strong bearish sentiment"
    case Balanced => "Balanced market sentiment"
  }

  /** Before any reading the widget shows 50/50 and a balanced market. */
  lemma NoReadingIsBalanced()
    ensures var p := DisplayPercents(None); SentimentOf(p.0, p.1) == Balanced
  {
  }

  /** When the two sides add up to 100, at most one of them exceeds 60, so the precedence of
      the long side never hides a strong short side. */
  lemma PrecedenceIrrelevantForSplits(long: real, short: real)
    requires long + short == 100.0
    ensures !(long > 60.0 && short > 60.0)
    ensures short > 60.0 ==> SentimentOf(long, short) == StrongBearish
  {
  }
}
