/** Perpetual funding rates for four symbols (components/FundingRates.tsx). */
module FundingRates {
  import opened Wrappers
  import opened Json
  import opened Http
  import opened Strings
  import opened Validation
  import opened Store

  /** The symbols queried, in display order. */
  const Symbols: seq<string> := ["BTCUSDT", "ETHUSDT", "SOLUSDT", "XRPUSDT"]

  const RefreshIntervalMs: nat := 8 * 60 * 60 * 1000

  datatype Bias = Bullish | Bearish | Neutral

  function BiasLabel(b: Bias): string {
    match b
    case Bullish => "BULLISH"
    case Bearish => "BEARISH"
    case Neutral => "NEUTRAL"
  }

  /** The bias of a funding rate given in percent. */
  function Classify(ratePercent: real): (b: Bias)
    ensures b == Bullish <==> ratePercent > 0.01
    ensures b == Bearish <==> ratePercent < 0.0
    ensures b == Neutral <==> 0.0 <= ratePercent <= 0.01
  {
    if ratePercent > 0.01 then Bullish else if ratePercent < 0.0 then Bearish else Neutral
  }

  function BiasRank(b: Bias): nat {
    match b
    case Bearish => 0
    case Neutral => 1
    case Bullish => 2
  }

  /** A higher rate never gives a more bearish bias. */
  lemma ClassifyMonotone(r1: real, r2: real)
    requires r1 <= r2
    ensures BiasRank(Classify(r1)) <= BiasRank(Classify(r2))
  {
  }

  /** Distinct biases are shown with distinct labels. */
  lemma BiasLabelInjective(a: Bias, b: Bias)
    ensures BiasLabel(a) == BiasLabel(b) <==> a == b
  {
  }

  /** `symbol.replace('USDT', '')`: the first "USDT" removed. */
  function SymbolLabel(symbol: string): (l: string)
    ensures (forall i: nat :: !OccursAt(symbol, "USDT", i)) ==> l == symbol
    ensures (exists i: nat :: OccursAt(symbol, "USDT", i)) ==> |l| == |symbol| - 4
  {
    ReplaceFirst(symbol, "USDT", "")
  }

  /** A base asset without the letter U followed by "USDT" is labelled by the base. */
  lemma SymbolLabelOfPair(base: string)
    requires forall i :: 0 <= i < |base| ==> base[i] != 'U'
    ensures SymbolLabel(base + "USDT") == base
  {
    var s := base + "USDT";
    forall i: nat | i < |base| ensures !OccursAt(s, "USDT", i) {
      assert s[i] == base[i];
    }
    assert OccursAt(s, "USDT", |base|);
    var k := IndexOf(s, "USDT");
    assert k == Some(|base|);
    assert s[..|base|] == base;
  }

  /** The labels shown for the four symbols. */
  const Labels: seq<string> := ["BTC", "ETH", "SOL", "XRP"]

  lemma SymbolLabels()
    ensures forall i :: 0 <= i < |Symbols| ==> SymbolLabel(Symbols[i]) == Labels[i]
  {
    forall i | 0 <= i < |Symbols| ensures SymbolLabel(Symbols[i]) == Labels[i] {
      assert Symbols[i] == Labels[i] + "USDT";
      assert forall k :: 0 <= k < |Labels[i]| ==> Labels[i][k] != 'U';
      SymbolLabelOfPair(Labels[i]);
    }
  }

  /** The first entry's raw `fundingRate` string of an ok, valid, non-empty reply. */
  predicate HasFirstRate(reply: Reply) {
    && OkBody(reply).Some?
    && Conforms(BinanceFundingRateSchema, reply.body.value)
    && |reply.body.value.items| > 0
  }

  function FirstRate(reply: Reply): string
    requires HasFirstRate(reply)
  {
    FundingRateSchemaAccepts(reply.body.value);
    reply.body.value.items[0].fields["fundingRate"].s
  }

  /** The per-symbol handler: the latest rate, in percent, with its label and bias; None
      when the request fails, the reply does not validate, it is empty, or the rate is NaN.
      `parse` stands for parseFloat (None for NaN) and `fmt` for toFixed. */
  function RateFor(symbol: string, reply: Reply, parse: string -> Option<real>,
                   fmt: (real, nat) -> string): (r: Option<FundingRate>)
    ensures r.Some? <==> HasFirstRate(reply) && parse(FirstRate(reply)).Some?
    ensures r.Some? ==>
      var pct := parse(FirstRate(reply)).value * 100.0;
      r.value == FundingRate(SymbolLabel(symbol), fmt(pct, 4) + "%", BiasLabel(Classify(pct)))
  {
    match OkBody(reply)
    case None => None
    case Some(raw) =>
      FundingRateSchemaAccepts(raw);
      match SafeValidate(BinanceFundingRateSchema, raw) {
        case Failure(_) => None
        case Success(data) =>
          if |data.items| == 0 then None
          else
            match parse(data.items[0].fields["fundingRate"].s) {
              case None => None
              case Some(x) =>
                var pct := x * 100.0;
                Some(FundingRate(SymbolLabel(symbol), fmt(pct, 4) + "%", BiasLabel(Classify(pct))))
            }
      }
  }

  /** `results.filter(r => r !== null)`: the present values, in order. */
  function Present(xs: seq<Option<FundingRate>>): (r: seq<FundingRate>)
    ensures |r| <= |xs|
    ensures forall v :: v in r <==> Some(v) in xs
  {
    if |xs| == 0 then []
    else (if xs[0].Some? then [xs[0].value] else []) + Present(xs[1..])
  }

  lemma {:induction false} PresentConcat(a: seq<Option<FundingRate>>, b: seq<Option<FundingRate>>)
    ensures Present(a + b) == Present(a) + Present(b)
    decreases |a|
  {
    if |a| == 0 {
      assert a + b == b;
    } else {
      assert (a + b)[1..] == a[1..] + b;
      PresentConcat(a[1..], b);
    }
  }

  /** When every entry is present the filter keeps all of them, in order. */
  lemma {:induction false} PresentAllSome(xs: seq<Option<FundingRate>>)
    requires forall i :: 0 <= i < |xs| ==> xs[i].Some?
    ensures |Present(xs)| == |xs|
    ensures forall i :: 0 <= i < |xs| ==> Present(xs)[i] == xs[i].value
    decreases |xs|
  {
    if |xs| > 0 {
      PresentAllSome(xs[1..]);
    }
  }

  /** One handler result per symbol, in symbol order (`Promise.all` keeps the order). */
  function Results(reply: string -> Reply, parse: string -> Option<real>, fmt: (real, nat) -> string)
    : (rs: seq<Option<FundingRate>>)
    ensures |rs| == |Symbols|
    ensures forall i :: 0 <= i < |Symbols| ==> rs[i] == RateFor(Symbols[i], reply(Symbols[i]), parse, fmt)
  {
    seq(|Symbols|, i requires 0 <= i < |Symbols| => RateFor(Symbols[i], reply(Symbols[i]), parse, fmt))
  }

  /** Missing entries at the front of a suffix are dropped. */
  lemma {:induction false} PresentSkipsNone(xs: seq<Option<FundingRate>>, lo: nat, hi: nat)
    requires lo <= hi <= |xs|
    requires forall k :: lo <= k < hi ==> xs[k].None?
    ensures Present(xs[lo..]) == Present(xs[hi..])
    decreases hi - lo
  {
    if lo < hi {
      assert xs[lo..][1..] == xs[lo + 1..];
      PresentSkipsNone(xs, lo + 1, hi);
    }
  }

  /** A present entry at the front of a suffix is kept, ahead of the rest. */
  lemma PresentKeeps(xs: seq<Option<FundingRate>>, lo: nat)
    requires lo < |xs| && xs[lo].Some?
    ensures Present(xs[lo..]) == [xs[lo].value] + Present(xs[lo + 1..])
  {
    assert xs[lo..][1..] == xs[lo + 1..];
  }

  /** With exactly the entry at `j` present from `lo` on, the filtered suffix is that entry. */
  lemma PresentOnlyOne(xs: seq<Option<FundingRate>>, lo: nat, j: nat)
    requires lo <= j < |xs| && xs[j].Some?
    requires forall k :: lo <= k < |xs| && k != j ==> xs[k].None?
    ensures Present(xs[lo..]) == [xs[j].value]
  {
    PresentSkipsNone(xs, j + 1, |xs|);
    assert xs[|xs|..] == [];
    PresentKeeps(xs, j);
    PresentSkipsNone(xs, lo, j);
  }

  /** With exactly the entries at `i < j` present, the filter keeps those two, in that order. */
  lemma PresentExactlyTwo(xs: seq<Option<FundingRate>>, i: nat, j: nat)
    requires i < j < |xs| && xs[i].Some? && xs[j].Some?
    requires forall k :: 0 <= k < |xs| && k != i && k != j ==> xs[k].None?
    ensures Present(xs) == [xs[i].value, xs[j].value]
  {
    var rest := Present(xs[i + 1..]);
    PresentOnlyOne(xs, i + 1, j);
    PresentKeeps(xs, i);
    assert Present(xs[i..]) == [xs[i].value] + rest;
    PresentSkipsNone(xs, 0, i);
    assert xs[0..] == xs;
  }

  /** The list the poll would write: the successful handlers' entries, in symbol order
      (`results.filter(r => r !== null)`); at most four, each from a symbol that succeeded. */
  function Collected(reply: string -> Reply, parse: string -> Option<real>, fmt: (real, nat) -> string)
    : (r: seq<FundingRate>)
    ensures r == Present(Results(reply, parse, fmt))
    ensures |r| <= |Symbols|
    ensures forall v :: v in r <==>
      exists i :: 0 <= i < |Symbols| && RateFor(Symbols[i], reply(Symbols[i]), parse, fmt) == Some(v)
  {
    var rs := Results(reply, parse, fmt);
    assert forall v :: Some(v) in rs <==> exists i :: 0 <= i < |rs| && rs[i] == Some(v);
    Present(rs)
  }

  /** Something is written exactly when at least one symbol succeeded. */
  lemma CollectedNonEmptyIff(reply: string -> Reply, parse: string -> Option<real>, fmt: (real, nat) -> string)
    ensures |Collected(reply, parse, fmt)| > 0 <==>
      exists i :: 0 <= i < |Symbols| && RateFor(Symbols[i], reply(Symbols[i]), parse, fmt).Some?
  {
    var r := Collected(reply, parse, fmt);
    if exists i :: 0 <= i < |Symbols| && RateFor(Symbols[i], reply(Symbols[i]), parse, fmt).Some? {
      var i :| 0 <= i < |Symbols| && RateFor(Symbols[i], reply(Symbols[i]), parse, fmt).Some?;
      assert RateFor(Symbols[i], reply(Symbols[i]), parse, fmt).value in r;
    }
    if |r| > 0 {
      assert r[0] in r;
    }
  }

  /** When all four symbols succeed, the list is BTC, ETH, SOL, XRP in that order. */
  lemma AllSymbolsInOrder(reply: string -> Reply, parse: string -> Option<real>, fmt: (real, nat) -> string)
    requires forall i :: 0 <= i < |Symbols| ==> RateFor(Symbols[i], reply(Symbols[i]), parse, fmt).Some?
    ensures var r := Collected(reply, parse, fmt);
            |r| == |Labels| && forall i :: 0 <= i < |r| ==> r[i].symbol == Labels[i]
  {
    var rs := Results(reply, parse, fmt);
    PresentAllSome(rs);
    SymbolLabels();
    forall i | 0 <= i < |rs| ensures Present(rs)[i].symbol == Labels[i] {
      var x := RateFor(Symbols[i], reply(Symbols[i]), parse, fmt);
      assert rs[i] == x;
      assert x.value.symbol == SymbolLabel(Symbols[i]);
    }
  }

  /** Two of the four symbols fail: exactly the two successful entries are written, in symbol
      order. */
  lemma TwoSucceedInOrder(reply: string -> Reply, parse: string -> Option<real>, fmt: (real, nat) -> string,
                          i: nat, j: nat)
    requires i < j < |Symbols|
    requires RateFor(Symbols[i], reply(Symbols[i]), parse, fmt).Some?
    requires RateFor(Symbols[j], reply(Symbols[j]), parse, fmt).Some?
    requires forall k :: 0 <= k < |Symbols| && k != i && k != j ==>
      RateFor(Symbols[k], reply(Symbols[k]), parse, fmt).None?
    ensures Collected(reply, parse, fmt) ==
      [RateFor(Symbols[i], reply(Symbols[i]), parse, fmt).value,
       RateFor(Symbols[j], reply(Symbols[j]), parse, fmt).value]
    ensures Collected(reply, parse, fmt)[0].symbol == Labels[i]
    ensures Collected(reply, parse, fmt)[1].symbol == Labels[j]
  {
    PresentExactlyTwo(Results(reply, parse, fmt), i, j);
    SymbolLabels();
  }

  /** `fetchFundingRates`: the store is written only when at least one symbol succeeded;
      otherwise the previous list stays. */
  method FetchFundingRates(store: MarketStore, reply: string -> Reply, parse: string -> Option<real>,
                           fmt: (real, nat) -> string)
    requires store.Valid()
    modifies store
    ensures store.Valid()
    ensures |Collected(reply, parse, fmt)| > 0 ==>
      store.Current() == old(store.Current()).(fundingRates := Collected(reply, parse, fmt))
    ensures |Collected(reply, parse, fmt)| == 0 ==> store.Current() == old(store.Current())
  {
    var validRates := Collected(reply, parse, fmt);
    if |validRates| > 0 {
      store.SetFundingRates(validRates);
    }
  }
}
