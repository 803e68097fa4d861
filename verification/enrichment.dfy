/** `enrich` in routes/momentum.js: each provider quote becomes a ranked
    item with relative volume, gap, a single-bar true range reported as
    "atr" and the typical price reported as "vwap". Every numeric field goes
    through `Number(…) || default`, so a missing or zero field falls back. */
module Enrichment {
  import opened Wrappers
  import opened JsValues

  /** A provider quote; every numeric field may be missing. */
  datatype Quote = Quote(
    symbol: string, open: Option<real>, previousClose: Option<real>,
    dayHigh: Option<real>, dayLow: Option<real>, close: Option<real>,
    volume: Option<real>, avgVolume: Option<real>,
    floatShares: Option<real>, sharesOutstanding: Option<real>)

  /** An enriched item. `vwap` is `None` where the source computes NaN
      (a quote without a close). */
  datatype Item = Item(
    ticker: string, price: real, float: real, rvol: real,
    changeFromOpen: real, gapPct: real, atr: real, vwap: Option<real>, volume: real)

  function Open(q: Quote): real { Or(q.open, 0.0) }
  /** The previous close, falling back to the open. */
  function PrevClose(q: Quote): real { Or(q.previousClose, Open(q)) }
  function High(q: Quote): real { Or(q.dayHigh, Open(q)) }
  function Low(q: Quote): real { Or(q.dayLow, Open(q)) }
  function Volume(q: Quote): real { Or(q.volume, 0.0) }
  /** The average volume, falling back to today's volume and then to 1. */
  function AvgVolume(q: Quote): real { Or(q.avgVolume, Or(q.volume, 1.0)) }

  /** `Math.max(high - low, |high - prevC|, |prevC - low|)`: the largest of
      the three ranges, hence never negative. */
  function TrueRange(high: real, low: real, prevC: real): (tr: real)
    ensures tr >= high - low && tr >= Abs(high - prevC) && tr >= Abs(prevC - low)
    ensures tr == high - low || tr == Abs(high - prevC) || tr == Abs(prevC - low)
    ensures tr >= 0.0
  {
    var a := high - low;
    var b := Abs(high - prevC);
    var c := Abs(prevC - low);
    if a >= b && a >= c then a else if b >= c then b else c
  }

  /** `avgV > 0 ? vol / avgV : 0`: today's volume as a multiple of the
      average, 0 when the average is not positive. */
  function RelativeVolume(vol: real, avgV: real): (rvol: real)
    ensures avgV > 0.0 ==> rvol * avgV == vol
    ensures avgV <= 0.0 ==> rvol == 0.0
    ensures vol == 0.0 ==> rvol == 0.0
    ensures vol >= 0.0 ==> rvol >= 0.0
  {
    if avgV > 0.0 then vol / avgV else 0.0
  }

  /** `prevC > 0 ? (open - prevC) / prevC * 100 : 0`: the open's percent gap
      over the previous close, 0 when the previous close is not positive. */
  function GapPercent(open: real, prevC: real): (gap: real)
    ensures prevC > 0.0 ==> gap * prevC == (open - prevC) * 100.0
    ensures prevC <= 0.0 ==> gap == 0.0
    ensures open == prevC ==> gap == 0.0
    ensures prevC > 0.0 ==> (gap > 0.0 <==> open > prevC)
  {
    if prevC > 0.0 then (open - prevC) / prevC * 100.0 else 0.0
  }

  /** One quote's item. */
  function EnrichQuote(q: Quote): (it: Item)
    ensures it.ticker == q.symbol
    ensures it.price == q.open.GetOr(0.0) && it.volume == q.volume.GetOr(0.0)
    ensures it.float == (if Truthy(q.floatShares) then q.floatShares.value else q.sharesOutstanding.GetOr(0.0))
    // change from open and gap are one number, and need a previous close
    ensures it.changeFromOpen == it.gapPct == GapPercent(it.price, PrevClose(q))
    ensures !Truthy(q.previousClose) ==> it.gapPct == 0.0
    // relative volume, against a defaulted average
    ensures it.rvol == RelativeVolume(it.volume, AvgVolume(q))
    ensures it.volume == 0.0 ==> it.rvol == 0.0
    // single-bar true range and typical price, high and low defaulting to the open
    ensures it.atr == TrueRange(High(q), Low(q), PrevClose(q)) && it.atr >= 0.0
    ensures q.close.Some? ==> it.vwap == Some((High(q) + Low(q) + q.close.value) / 3.0)
    ensures q.close.None? ==> it.vwap.None?
    ensures !Truthy(q.dayHigh) && !Truthy(q.dayLow) && q.close.Some? ==>
      it.vwap == Some((2.0 * it.price + q.close.value) / 3.0)
  {
    var open := Open(q);
    var prevC := PrevClose(q);
    var high := High(q);
    var low := Low(q);
    var vol := Volume(q);
    var avgV := AvgVolume(q);
    var rvol := RelativeVolume(vol, avgV);
    var change := GapPercent(open, prevC);
    var atr := TrueRange(high, low, prevC);
    var vwap := if q.close.Some? then Some((high + low + q.close.value) / 3.0) else None;
    var float := Or(q.floatShares, Or(q.sharesOutstanding, 0.0));
    Item(q.symbol, open, float, rvol, change, change, atr, vwap, vol)
  }

  /** Without an average volume the average falls back to today's volume,
      so any positive volume has relative volume 1, and no volume has 0. */
  lemma MissingAverageVolume(q: Quote)
    requires !Truthy(q.avgVolume)
    ensures EnrichQuote(q).volume > 0.0 ==> EnrichQuote(q).rvol == 1.0
    ensures EnrichQuote(q).volume == 0.0 ==> EnrichQuote(q).rvol == 0.0
    ensures EnrichQuote(q).volume < 0.0 ==> EnrichQuote(q).rvol == 0.0
  {
    var vol := Volume(q);
    if vol > 0.0 {
      assert AvgVolume(q) == vol;
      SelfQuotient(vol);
    }
  }

  lemma SelfQuotient(x: real)
    requires x > 0.0
    ensures x / x == 1.0
  {
  }

  /** `enrich(quotes)`: one item per quote, in the same order. */
  function Enrich(quotes: seq<Quote>): (items: seq<Item>)
    ensures |items| == |quotes|
    ensures forall i :: 0 <= i < |quotes| ==> items[i] == EnrichQuote(quotes[i])
  {
    seq(|quotes|, i requires 0 <= i < |quotes| => EnrichQuote(quotes[i]))
  }

  /** Worked examples: a missing previous close gives no gap, a missing
      average volume gives rvol 1 when there is volume, and 0 without. */
  lemma WorkedEnrich()
    ensures EnrichQuote(Quote("A", Some(5.0), None, None, None, Some(5.0), Some(100.0), None, None, None)).gapPct == 0.0
    ensures EnrichQuote(Quote("A", Some(5.0), None, None, None, Some(5.0), Some(100.0), None, None, None)).rvol == 1.0
    ensures EnrichQuote(Quote("A", Some(5.0), None, None, None, Some(5.0), None, None, None, None)).rvol == 0.0
    ensures EnrichQuote(Quote("A", Some(11.0), Some(10.0), None, None, None, None, None, None, None)).gapPct == 10.0
  {
  }
}
