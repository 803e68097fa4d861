/** One row of the widget's table (`buildTable` in momentum-widget.js): the
    fields derived from a backend record, the open/close and VWAP/time
    lookups, the entry signal and the colour of each coloured cell. Cell
    formatting and the DOM are left out. */
module WidgetRow {
  import opened Wrappers
  import opened JsValues
  import opened Signals
  import opened Colors
  import opened SessionVwap

  /** A record as the widget receives it from the backend; every field may
      be missing. `rvolValue` is the alternative `rvol_value` field. */
  datatype Record = Record(
    ticker: Option<string>, strategy: Option<string>, price: Option<real>,
    volume: Option<real>, float: Option<real>, gapPct: Option<real>, atr: Option<real>,
    changeFromOpen: Option<real>, rvol: Option<real>, rvolValue: Option<real>)

  datatype OpenClose = OpenClose(open: Option<real>, close: Option<real>)

  /** The values of one table row, and the colour of cells 5 to 9. */
  datatype Row = Row(
    strategy: string, time: Stamp, arrow: Arrow, ticker: string, price: real,
    change: Option<real>, gapPct: real, volume: real, floatPct: Option<real>,
    atr: Option<real>, vwap: Option<real>, signal: Signal,
    changeColor: string, gapColor: string, volumeColor: string,
    floatColor: string, atrColor: string)

  /** The table for one bucket, or its "No … data" placeholder. */
  datatype Section = NoData | Table(rows: seq<Row>)

  /** `fetchOpenClose` once the end-of-day request has answered: the first
      row's open and close, or nulls. */
  function FetchOpenClose(eod: Reply<EodRow>): (oc: OpenClose)
    ensures eod.Rows? && |eod.rows| > 0 ==> oc.open == eod.rows[0].open && oc.close == eod.rows[0].close
    ensures !(eod.Rows? && |eod.rows| > 0) ==> oc.open.None? && oc.close.None?
  {
    if eod.Rows? && |eod.rows| > 0 then OpenClose(eod.rows[0].open, eod.rows[0].close)
    else OpenClose(None, None)
  }

  /** Volume as a percent of the float, null unless the float is positive. */
  function FloatPercent(volume: real, float: real): (p: Option<real>)
    ensures p.Some? <==> float > 0.0
    ensures p.Some? ==> p.value * float == volume * 100.0
    ensures p.Some? && volume >= 0.0 ==> p.value >= 0.0
  {
    if float > 0.0 then Some(volume / float * 100.0) else None
  }

  /** Percent change from the open: a numeric `change_from_open` wins;
      otherwise it is computed from the open, and is null without one. The
      code divides by the open unguarded, so a zero open is excluded. */
  function ChangePercent(changeFromOpen: Option<real>, price: real, open: Option<real>): (c: Option<real>)
    requires changeFromOpen.None? && open.Some? ==> open.value != 0.0
    ensures changeFromOpen.Some? ==> c == changeFromOpen
    ensures changeFromOpen.None? && open.None? ==> c.None?
    ensures changeFromOpen.None? && open.Some? ==>
      c.Some? && c.value * open.value == (price - open.value) * 100.0
  {
    if changeFromOpen.Some? then changeFromOpen
    else if open.Some? then Some((price - open.value) / open.value * 100.0)
    else None
  }

  /** `r.price ?? close ?? 0` */
  function RowPrice(rec: Record, oc: OpenClose): (p: real)
    ensures rec.price.Some? ==> p == rec.price.value
    ensures rec.price.None? && oc.close.Some? ==> p == oc.close.value
    ensures rec.price.None? && oc.close.None? ==> p == 0.0
  {
    Coalesce(rec.price, oc.close).GetOr(0.0)
  }

  /** `r.rvol ?? r.rvol_value ?? 0` */
  function RowRvol(rec: Record): (v: real)
    ensures rec.rvol.Some? ==> v == rec.rvol.value
    ensures rec.rvol.None? && rec.rvolValue.Some? ==> v == rec.rvolValue.value
    ensures rec.rvol.None? && rec.rvolValue.None? ==> v == 0.0
  {
    Coalesce(rec.rvol, rec.rvolValue).GetOr(0.0)
  }

  /** The inputs on which the row's two divisions are defined. */
  predicate Computable(rec: Record, oc: OpenClose, vt: VwapTime) {
    && (rec.changeFromOpen.None? && oc.open.Some? ==> oc.open.value != 0.0)
    && (vt.vwap.Some? ==> vt.vwap.value != 0.0)
  }

  /** One row of `buildTable`, given the record, the table's strategy label
      and the answers of the two lookups made for the row's ticker. */
  function BuildRow(rec: Record, strategyLabel: string, oc: OpenClose, vt: VwapTime): (row: Row)
    requires Computable(rec, oc, vt)
    ensures row.ticker == (if rec.ticker.Some? && rec.ticker.value != "" then rec.ticker.value else "—")
    ensures row.strategy == (if rec.strategy.Some? && rec.strategy.value != "" then rec.strategy.value else strategyLabel)
    ensures row.price == RowPrice(rec, oc)
    ensures row.change == ChangePercent(rec.changeFromOpen, row.price, oc.open)
    ensures row.volume == rec.volume.GetOr(0.0)
    ensures row.floatPct.Some? <==> rec.float.Some? && rec.float.value > 0.0
    ensures row.floatPct.Some? ==> row.floatPct.value * rec.float.value == row.volume * 100.0
    ensures row.atr.None? <==> rec.atr.None? || rec.atr.value == 0.0
    ensures row.atr.Some? ==> row.atr == rec.atr
    ensures row.gapPct == rec.gapPct.GetOr(0.0)
    ensures row.vwap == vt.vwap && row.time == vt.time
    ensures row.arrow == ArrowOf(row.change)
    ensures row.arrow == Up <==> row.change.Some? && row.change.value > 0.0
    ensures row.arrow == Down <==> row.change.Some? && row.change.value < 0.0
    ensures row.vwap.None? ==> row.signal == NoSignal
    ensures row.signal == EntrySignal(row.price, row.vwap, RowRvol(rec))
    ensures row.changeColor == GetColor(row.change, "change")
    ensures row.gapColor == GetColor(Some(row.gapPct), "gap_pct")
    ensures row.volumeColor == GetColor(Some(row.volume), "volume")
    ensures row.floatColor == GetColor(row.floatPct, "float_pct")
    ensures row.atrColor == GetColor(row.atr, "atr")
  {
    var ticker := OrText(rec.ticker, "—");
    var strategy := OrText(rec.strategy, strategyLabel);
    var vol := Or(rec.volume, 0.0);
    var flt := Or(rec.float, 0.0);
    var floatPct := FloatPercent(vol, flt);
    var gapPct := Or(rec.gapPct, 0.0);
    var atr := OrNull(rec.atr);
    var price := RowPrice(rec, oc);
    var change := ChangePercent(rec.changeFromOpen, price, oc.open);
    var signal := EntrySignal(price, vt.vwap, RowRvol(rec));
    Row(strategy, vt.time, ArrowOf(change), ticker, price, change, gapPct, vol, floatPct,
        atr, vt.vwap, signal,
        GetColor(change, "change"), GetColor(Some(gapPct), "gap_pct"),
        GetColor(Some(vol), "volume"), GetColor(floatPct, "float_pct"), GetColor(atr, "atr"))
  }

  /** `buildTable` for one bucket: the placeholder for an empty list, else one
      row per record in order; `ocs[i]` and `vts[i]` answer record `i`. */
  function BuildTable(data: seq<Record>, strategyLabel: string, ocs: seq<OpenClose>, vts: seq<VwapTime>): (t: Section)
    requires |ocs| == |data| && |vts| == |data|
    requires forall i :: 0 <= i < |data| ==> Computable(data[i], ocs[i], vts[i])
    ensures t.NoData? <==> data == []
    ensures t.Table? ==> |t.rows| == |data|
    ensures t.Table? ==> forall i :: 0 <= i < |data| ==> t.rows[i] == BuildRow(data[i], strategyLabel, ocs[i], vts[i])
  {
    if data == [] then NoData
    else Section.Table(seq(|data|, i requires 0 <= i < |data| => BuildRow(data[i], strategyLabel, ocs[i], vts[i])))
  }

  /** A ticker whose lookups all failed still gets a row: no VWAP, no time,
      no change unless the record carries one, and no signal. */
  lemma FailedLookupsDegrade(rec: Record, strategyLabel: string)
    ensures var row := BuildRow(rec, strategyLabel, FetchOpenClose(Failed), VwapTime(None, Unavailable));
      && row.vwap.None? && row.time == Unavailable && row.signal == NoSignal
      && (rec.changeFromOpen.None? ==> row.change.None? && row.arrow == Flat)
  {
  }

  /** Worked example: open 10, price 10.5 and VWAP 10.2 with rvol 1.5 give a
      change of 5 percent and a short reversion. */
  lemma WorkedRow()
    ensures var rec := Record(Some("ABC"), None, Some(10.5), None, None, None, None, None, Some(1.5), None);
      var row := BuildRow(rec, "LOW", OpenClose(Some(10.0), None), VwapTime(Some(10.2), Unavailable));
      row.change == Some(5.0) && row.signal == ShortReversion && row.arrow == Up
  {
    var rec := Record(Some("ABC"), None, Some(10.5), None, None, None, None, None, Some(1.5), None);
    var row := BuildRow(rec, "LOW", OpenClose(Some(10.0), None), VwapTime(Some(10.2), Unavailable));
    assert row.price == 10.5;
  }
}
