/** The shared client-side market store (store/useMarketStore.ts). */
module Store {
  import opened Wrappers
  import opened Json

  datatype Ticker = Ticker(price: string, priceChange: string, priceChangePercent: string, prevPrice: string)

  datatype Liquidation = Liquidation(id: string, symbol: string, side: string, price: string,
                                     qty: string, time: int, value: real)

  datatype Ratio = Ratio(long: real, short: real)

  datatype FundingRate = FundingRate(symbol: string, rate: string, bias: string)

  datatype Dominance = Dominance(btc: real, eth: real, others: real)

  /** The argument of `setBtcTicker`: a new ticker, or an updater applied to the current one. */
  datatype TickerUpdate =
    | Value(ticker: Ticker)
    | Updater(f: Option<Ticker> -> Ticker)
  {
    function Apply(current: Option<Ticker>): Ticker {
      match this
      case Value(t) => t
      case Updater(f) => f(current)
    }
  }

  /** All state the store holds, as one value. Market data is kept as the JSON records it
      was given: the writer stores the upstream array without checking it. */
  datatype Snapshot = Snapshot(
    btcTicker: Option<Ticker>,
    liquidations: seq<Liquidation>,
    fearGreedIndex: Option<int>,
    fearGreedValue: Option<string>,
    longShortRatio: Option<Ratio>,
    fundingRates: seq<FundingRate>,
    marketData: seq<Json>,
    dominance: Option<Dominance>)

  const Initial: Snapshot := Snapshot(None, [], None, None, None, [], [], None)

  /** The liquidation feed keeps only the most recent entries. */
  const MaxLiquidations: nat := 50

  /** `s.slice(-n)` for n > 0: the last n elements, or all of s when it is shorter. */
  function LastN<T>(s: seq<T>, n: nat): (r: seq<T>)
    requires n > 0
    ensures |r| == if |s| <= n then |s| else n
    ensures r == s[|s| - |r|..]
  {
    if |s| <= n then s else s[|s| - n..]
  }

  /** The feed after `addLiquidation(l)`. */
  function WithLiquidation(items: seq<Liquidation>, l: Liquidation): (r: seq<Liquidation>)
    ensures 1 <= |r| <= MaxLiquidations && r[|r| - 1] == l
    ensures |items| < MaxLiquidations ==> r == items + [l]
    ensures |items| >= MaxLiquidations ==> r == items[|items| - (MaxLiquidations - 1)..] + [l]
  {
    var r := LastN(items + [l], MaxLiquidations);
    assert |items| >= MaxLiquidations ==> r == (items + [l])[|items| + 1 - MaxLiquidations..];
    r
  }

  /** The feed after adding each of `ls` in turn. */
  function WithAll(items: seq<Liquidation>, ls: seq<Liquidation>): seq<Liquidation>
    decreases |ls|
  {
    if |ls| == 0 then items else WithAll(WithLiquidation(items, ls[0]), ls[1..])
  }

  lemma AppendFirst<T>(a: seq<T>, s: seq<T>)
    requires |s| > 0
    ensures (a + [s[0]]) + s[1..] == a + s
  {
    assert [s[0]] + s[1..] == s;
  }

  /** One add, then the rest. */
  lemma WithAllStep(items: seq<Liquidation>, ls: seq<Liquidation>)
    requires |ls| > 0
    ensures WithAll(items, ls) == WithAll(LastN(items + [ls[0]], MaxLiquidations), ls[1..])
  {
    assert WithLiquidation(items, ls[0]) == LastN(items + [ls[0]], MaxLiquidations);
  }

  /** However many liquidations arrive, the feed holds exactly the last fifty of everything
      added so far (or all of it), in arrival order. */
  lemma {:induction false} WithAllKeepsLatest(items: seq<Liquidation>, ls: seq<Liquidation>)
    requires |items| <= MaxLiquidations
    ensures WithAll(items, ls) == LastN(items + ls, MaxLiquidations)
    decreases |ls|
  {
    if |ls| == 0 {
      assert items + ls == items;
    } else {
      var added := items + [ls[0]];
      WithAllStep(items, ls);
      WithAllKeepsLatest(LastN(added, MaxLiquidations), ls[1..]);
      LastNSuffix(added, ls[1..], MaxLiquidations);
      AppendFirst(items, ls);
    }
  }

  /** Truncating before appending more does not change the last n of the whole. */
  lemma LastNSuffix<T>(a: seq<T>, b: seq<T>, n: nat)
    requires n > 0
    ensures LastN(LastN(a, n) + b, n) == LastN(a + b, n)
  {
    if |a| > n {
      var k := |a| - n;
      assert LastN(a, n) + b == (a + b)[k..];
      assert (a + b)[k..][|(a + b)[k..]| - (if |(a + b)[k..]| <= n then |(a + b)[k..]| else n)..]
          == (a + b)[|a + b| - n..];
    }
  }

  /** The feed after `removeLiquidation(id)`: every entry with that id dropped, order kept. */
  function WithoutId(items: seq<Liquidation>, id: string): (r: seq<Liquidation>)
    ensures forall x :: x in r <==> x in items && x.id != id
    ensures |r| <= |items|
  {
    if |items| == 0 then []
    else if items[0].id == id then WithoutId(items[1..], id)
    else [items[0]] + WithoutId(items[1..], id)
  }

  /** Removal distributes over concatenation, so the surviving entries keep their order. */
  lemma {:induction false} WithoutIdConcat(a: seq<Liquidation>, b: seq<Liquidation>, id: string)
    ensures WithoutId(a + b, id) == WithoutId(a, id) + WithoutId(b, id)
    decreases |a|
  {
    if |a| == 0 {
      assert a + b == b;
    } else {
      assert (a + b)[1..] == a[1..] + b;
      WithoutIdConcat(a[1..], b, id);
    }
  }

  /** Removing an id that no entry carries leaves the feed as it was. */
  lemma {:induction false} WithoutAbsentId(items: seq<Liquidation>, id: string)
    requires forall i :: 0 <= i < |items| ==> items[i].id != id
    ensures WithoutId(items, id) == items
    decreases |items|
  {
    if |items| > 0 {
      WithoutAbsentId(items[1..], id);
      assert [items[0]] + items[1..] == items;
    }
  }

  /** Removing the same id twice is the same as removing it once. */
  lemma WithoutIdIdempotent(items: seq<Liquidation>, id: string)
    ensures WithoutId(WithoutId(items, id), id) == WithoutId(items, id)
  {
    var r := WithoutId(items, id);
    forall i | 0 <= i < |r| ensures r[i].id != id {
      assert r[i] in r;
    }
    WithoutAbsentId(r, id);
  }

  /** The zustand store: one field per slice of state, each setter replacing its own slice. */
  class MarketStore {
    var btcTicker: Option<Ticker>
    var liquidations: seq<Liquidation>
    var fearGreedIndex: Option<int>
    var fearGreedValue: Option<string>
    var longShortRatio: Option<Ratio>
    var fundingRates: seq<FundingRate>
    var marketData: seq<Json>
    var dominance: Option<Dominance>

    function Current(): Snapshot
      reads this
    {
      Snapshot(btcTicker, liquidations, fearGreedIndex, fearGreedValue,
               longShortRatio, fundingRates, marketData, dominance)
    }

    /** The store's invariant, established on creation and kept by every setter: the feed
        never exceeds its cap. */
    ghost predicate Valid()
      reads this
    {
      |liquidations| <= MaxLiquidations
    }

    constructor ()
      ensures Current() == Initial && Valid()
    {
      btcTicker := None;
      liquidations := [];
      fearGreedIndex := None;
      fearGreedValue := None;
      longShortRatio := None;
      fundingRates := [];
      marketData := [];
      dominance := None;
    }

    method SetBtcTicker(u: TickerUpdate)
      requires Valid()
      modifies this
      ensures Current() == old(Current()).(btcTicker := Some(u.Apply(old(btcTicker))))
      ensures Valid()
    {
      btcTicker := Some(u.Apply(btcTicker));
    }

    method AddLiquidation(l: Liquidation)
      modifies this
      ensures Current() == old(Current()).(liquidations := WithLiquidation(old(liquidations), l))
      ensures Valid()
    {
      liquidations := WithLiquidation(liquidations, l);
    }

    method RemoveLiquidation(id: string)
      requires Valid()
      modifies this
      ensures Current() == old(Current()).(liquidations := WithoutId(old(liquidations), id))
      ensures Valid()
    {
      liquidations := WithoutId(liquidations, id);
    }

    method SetFearGreed(index: int, value: string)
      requires Valid()
      modifies this
      ensures Current() == old(Current()).(fearGreedIndex := Some(index), fearGreedValue := Some(value))
      ensures Valid()
    {
      fearGreedIndex := Some(index);
      fearGreedValue := Some(value);
    }

    method SetLongShortRatio(long: real, short: real)
      requires Valid()
      modifies this
      ensures Current() == old(Current()).(longShortRatio := Some(Ratio(long, short)))
      ensures Valid()
    {
      longShortRatio := Some(Ratio(long, short));
    }

    method SetFundingRates(rates: seq<FundingRate>)
      requires Valid()
      modifies this
      ensures Current() == old(Current()).(fundingRates := rates)
      ensures Valid()
    {
      fundingRates := rates;
    }

    method SetMarketData(data: seq<Json>)
      requires Valid()
      modifies this
      ensures Current() == old(Current()).(marketData := data)
      ensures Valid()
    {
      marketData := data;
    }

    method SetDominance(btc: real, eth: real, others: real)
      requires Valid()
      modifies this
      ensures Current() == old(Current()).(dominance := Some(Dominance(btc, eth, others)))
      ensures Valid()
    {
      dominance := Some(Dominance(btc, eth, others));
    }
  }
}
