/** The entry-signal classifier, the VWAP deviation it reads and the change
    arrow of the momentum widget (momentum-widget.js, `arrow` and the
    `signal` block of `buildTable`). */
module Signals {
  import opened Wrappers
  import opened JsValues

  /** The entry signals the widget shows in its last column. */
  datatype Signal = NoSignal | ShortReversion | LongReversion | LongBias | ShortBias | BounceZone
  {
    /** The text of the table cell. */
    function Label(): string {
      match this
      case NoSignal => "—"
      case ShortReversion => "Short Reversion"
      case LongReversion => "Long Reversion"
      case LongBias => "Long Bias"
      case ShortBias => "Short Bias"
      case BounceZone => "Bounce Zone"
    }
  }

  /** The direction glyph of the "Type" column. */
  datatype Arrow = Up | Down | Flat
  {
    function Glyph(): string {
      match this
      case Up => "↑"
      case Down => "↓"
      case Flat => "→"
    }
  }

  /** Deviation beyond which price is expected to revert to VWAP (percent). */
  const ReversionBand: real := 2.0
  /** Relative volume above which the side of VWAP sets a bias. */
  const BiasRvol: real := 2.0
  /** Deviation under which price is said to hug VWAP (percent). */
  const BounceBand: real := 0.2

  /** `arrow(v)`: a null argument compares like 0 in both tests, so it gives
      the flat arrow. */
  function ArrowOf(v: Option<real>): (a: Arrow)
    ensures a == Up <==> v.Some? && v.value > 0.0
    ensures a == Down <==> v.Some? && v.value < 0.0
    ensures a == Flat <==> v.None? || v.value == 0.0
  {
    var x := v.GetOr(0.0);
    if x > 0.0 then Up else if x < 0.0 then Down else Flat
  }

  /** Percent deviation of price from VWAP, null when VWAP is null. The code
      divides by VWAP unguarded, so a zero VWAP is excluded. */
  function Deviation(price: real, vwap: Option<real>): (d: Option<real>)
    requires vwap.Some? ==> vwap.value != 0.0
    ensures d.Some? <==> vwap.Some?
    ensures d.Some? ==> d.value * vwap.value == (price - vwap.value) * 100.0
    ensures d.Some? && vwap.value > 0.0 ==> (d.value > 0.0 <==> price > vwap.value)
  {
    if vwap.Some? then Some((price - vwap.value) / vwap.value * 100.0) else None
  }

  /** The first-match entry rule: reversion far from VWAP, else a bias under
      heavy relative volume, else a bounce zone close to VWAP. Each signal is
      characterised below by the exact region of inputs that yields it. */
  function EntrySignal(price: real, vwap: Option<real>, rvol: real): (s: Signal)
    requires vwap.Some? ==> vwap.value != 0.0
    ensures var d := Deviation(price, vwap);
      s == ShortReversion <==> d.Some? && d.value > 2.0
    ensures var d := Deviation(price, vwap);
      s == LongReversion <==> d.Some? && d.value < -2.0
    ensures var d := Deviation(price, vwap);
      s == LongBias <==> d.Some? && -2.0 <= d.value <= 2.0 && rvol > 2.0 && price > vwap.value
    ensures var d := Deviation(price, vwap);
      s == ShortBias <==> d.Some? && -2.0 <= d.value <= 2.0 && rvol > 2.0 && price <= vwap.value
    ensures var d := Deviation(price, vwap);
      s == BounceZone <==> d.Some? && -0.2 < d.value < 0.2 && rvol <= 2.0
    ensures var d := Deviation(price, vwap);
      s == NoSignal <==> d.None? || (rvol <= 2.0 && (0.2 <= d.value <= 2.0 || -2.0 <= d.value <= -0.2))
  {
    var deviation := Deviation(price, vwap);
    if deviation.None? then NoSignal
    else if Abs(deviation.value) > ReversionBand then
      (if deviation.value > 0.0 then ShortReversion else LongReversion)
    else if rvol > BiasRvol then
      (if price > vwap.value then LongBias else ShortBias)
    else if Abs(deviation.value) < BounceBand then BounceZone
    else NoSignal
  }

  /** Far from VWAP the reversion rule wins whatever the relative volume is. */
  lemma ReversionIgnoresRvol(price: real, vwap: real, rvol1: real, rvol2: real)
    requires vwap != 0.0
    requires Abs(Deviation(price, Some(vwap)).value) > 2.0
    ensures EntrySignal(price, Some(vwap), rvol1) == EntrySignal(price, Some(vwap), rvol2)
    ensures EntrySignal(price, Some(vwap), rvol1) in {ShortReversion, LongReversion}
  {
  }

  /** Under heavy volume a price exactly at VWAP is read as a short bias: the
      bias test is a strict `price > vwap` with no equal case. */
  lemma AtVwapHeavyVolumeIsShortBias(vwap: real, rvol: real)
    requires vwap != 0.0 && rvol > 2.0
    ensures EntrySignal(vwap, Some(vwap), rvol) == ShortBias
  {
    assert Deviation(vwap, Some(vwap)).value == 0.0;
  }

  /** Worked examples: deviation 3 with rvol 5, deviation 0.1 and 1.0 with
      rvol 1, and price 10.5 against VWAP 10.2 with rvol 1.5. */
  lemma WorkedSignals()
    ensures EntrySignal(103.0, Some(100.0), 5.0) == ShortReversion
    ensures EntrySignal(100.1, Some(100.0), 1.0) == BounceZone
    ensures EntrySignal(101.0, Some(100.0), 1.0) == NoSignal
    ensures EntrySignal(10.5, Some(10.2), 1.5) == ShortReversion
    ensures EntrySignal(10.5, None, 9.0) == NoSignal
  {
  }
}
