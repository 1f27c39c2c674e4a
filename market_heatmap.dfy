/** The market overview grid (components/MarketHeatmap.tsx). */
module MarketHeatmap {
  import opened Wrappers
  import opened Json
  import opened Http
  import opened Store
  import LongShort

  const MarketRefreshIntervalMs: nat := 60 * 1000
  const RatioRefreshIntervalMs: nat := 5 * 60 * 1000

  /** What `fetchMarketData` writes: the parsed body when it is a non-empty array. The
      records are not checked further. */
  function MarketDataToWrite(reply: Reply): (r: Option<seq<Json>>)
    ensures r.Some? <==> OkBody(reply).Some? && OkBody(reply).value.JArr? && |OkBody(reply).value.items| > 0
    ensures r.Some? ==> r.value == reply.body.value.items && |r.value| > 0
  {
    match OkBody(reply)
    case Some(JArr(items)) => if |items| > 0 then Some(items) else None
    case _ => None
  }

  method FetchMarketData(store: MarketStore, reply: Reply)
    requires store.Valid()
    modifies store
    ensures store.Valid()
    ensures MarketDataToWrite(reply).None? ==> store.Current() == old(store.Current())
    ensures MarketDataToWrite(reply).Some? ==>
      store.Current() == old(store.Current()).(marketData := MarketDataToWrite(reply).value)
  {
    var r := MarketDataToWrite(reply);
    if r.Some? {
      store.SetMarketData(r.value);
    }
  }

  /** The grid's own copy of the long/short poll: the same guard chain, the same write. */
  method FetchRatio(store: MarketStore, reply: Reply, parse: string -> Option<real>)
    requires store.Valid()
    modifies store
    ensures store.Valid()
    ensures LongShort.ReadRatio(reply, parse).None? ==> store.Current() == old(store.Current())
    ensures LongShort.ReadRatio(reply, parse).Some? ==>
      store.Current() == old(store.Current()).(longShortRatio := LongShort.ReadRatio(reply, parse))
  {
    var r := LongShort.ReadRatio(reply, parse);
    if r.Some? {
      store.SetLongShortRatio(r.value.long, r.value.short);
    }
  }

  /** The six colour bands of a 24-hour change. */
  datatype Band = StrongGain | Gain | SlightGain | SlightLoss | Loss | StrongLoss

  function BandOf(change: real): (b: Band)
    ensures b == StrongGain <==> change > 5.0
    ensures b == Gain <==> 2.0 < change <= 5.0
    ensures b == SlightGain <==> 0.0 < change <= 2.0
    ensures b == SlightLoss <==> -2.0 < change <= 0.0
    ensures b == Loss <==> -5.0 < change <= -2.0
    ensures b == StrongLoss <==> change <= -5.0
  {
    if change > 5.0 then StrongGain
    else if change > 2.0 then Gain
    else if change > 0.0 then SlightGain
    else if change > -2.0 then SlightLoss
    else if change > -5.0 then Loss
    else StrongLoss
  }

  function BandRank(b: Band): nat {
    match b
    case StrongLoss => 0
    case Loss => 1
    case SlightLoss => 2
    case SlightGain => 3
    case Gain => 4
    case StrongGain => 5
  }

  /** A larger change never lands in a lower band. */
  lemma BandMonotone(c1: real, c2: real)
    requires c1 <= c2
    ensures BandRank(BandOf(c1)) <= BandRank(BandOf(c2))
  {
  }

  /** The background of a gaining tile (lime) and of an unchanged or losing one (red). */
  const LimeTile: string := "bg-[#c4f82e"
  const RedTile: string := "bg-[#ff4757"

  /** The classes each band adds after its background colour. */
  function BandClasses(b: Band): string {
    match b
    case StrongGain => "]/12 border-[#c4f82e]/25 text-[#c4f82e] shadow-lg shadow-[#c4f82e]/15"
    case Gain => "]/8 border-[#c4f82e]/20 text-[#c4f82e]"
    case SlightGain => "]/5 border-[#c4f82e]/12 text-[#a8e024]"
    case SlightLoss => "]/5 border-[#ff4757]/12 text-[#ff4757]/90"
    case Loss => "]/8 border-[#ff4757]/20 text-[#ff4757]"
    case StrongLoss => "]/12 border-[#ff4757]/25 text-[#ff4757] shadow-lg shadow-[#ff4757]/15"
  }

  lemma PrefixOfConcat(a: string, b: string)
    ensures (a + b)[..|a|] == a
  {
  }

  /** `getColorClass`: the tile classes of each band. Gains get a lime tile, an unchanged
      price and losses a red one. */
  function ColorClass(change: real): (c: string)
    ensures |c| >= 11
    ensures c[..11] == LimeTile <==> change > 0.0
    ensures c[..11] == RedTile <==> change <= 0.0
    ensures c[11..] == BandClasses(BandOf(change))
  {
    var tile := if change > 0.0 then LimeTile else RedTile;
    PrefixOfConcat(tile, BandClasses(BandOf(change)));
    assert LimeTile[5] != RedTile[5];
    tile + BandClasses(BandOf(change))
  }

  /** The sign shown before the change. */
  function ChangePrefix(change: real): (p: string)
    ensures p == "+" <==> change >= 0.0
    ensures p == "" <==> change < 0.0
  {
    if change >= 0.0 then "+" else ""
  }

  /** An unchanged price is drawn with a plus sign but in a red (loss) band. */
  lemma ZeroChangeIsPlusButRed()
    ensures ChangePrefix(0.0) == "+" && BandOf(0.0) == SlightLoss
  {
  }
}
