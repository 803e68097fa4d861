/** The pure part of `fetchVWAPandTime` in momentum-widget.js: the session
    VWAP of intraday one-minute bars, with the end-of-day fallback. The two
    provider requests are inputs; a timestamp is kept as the provider's date
    string, and its formatting as a clock time is left out. */
module SessionVwap {
  import opened Wrappers

  /** One intraday bar; `date` reads like "2024-05-01 15:59:00". */
  datatype Bar = Bar(date: string, high: real, low: real, close: real, volume: real)

  /** The first row of the end-of-day series; absent fields are `None`. */
  datatype EodRow = EodRow(date: string, open: Option<real>, close: Option<real>, vwap: Option<real>)

  /** What a provider request gave: it threw (network or JSON error), its JSON
      was not an array, or it was an array of rows. */
  datatype Reply<T> = Failed | NotArray | Rows(rows: seq<T>)

  /** The time cell: the clock time of a bar's date, `EOD <date>`, or `—`. */
  datatype Stamp = Clock(date: string) | EndOfDay(date: string) | Unavailable

  datatype VwapTime = VwapTime(vwap: Option<real>, time: Stamp)

  /** Intraday bars are used only when there are more than this many. */
  const MinIntradayBars: nat := 20

  /** `date.split(' ')[0]`: the longest prefix without a space. */
  function DayPart(date: string): (day: string)
    ensures day <= date
    ensures forall i :: 0 <= i < |day| ==> day[i] != ' '
    ensures |day| < |date| ==> date[|day|] == ' '
  {
    if |date| == 0 || date[0] == ' ' then ""
    else [date[0]] + DayPart(date[1..])
  }

  /** Typical price of a bar. */
  function Tp(b: Bar): real {
    (b.high + b.low + b.close) / 3.0
  }

  /** The bars whose date starts with `today`, in order. */
  function Session(bars: seq<Bar>, today: string): seq<Bar> {
    if bars == [] then []
    else
      var rest := Session(bars[..|bars| - 1], today);
      var b := bars[|bars| - 1];
      if today <= b.date then rest + [b] else rest
  }

  /** A bar is counted exactly when it is one of the bars and its date starts
      with `today`; none is added and none of the day is dropped. */
  lemma {:induction false} SessionMembers(bars: seq<Bar>, today: string)
    ensures |Session(bars, today)| <= |bars|
    ensures forall b :: b in Session(bars, today) <==> b in bars && today <= b.date
  {
    if bars != [] {
      var init := bars[..|bars| - 1];
      SessionMembers(init, today);
      assert bars == init + [bars[|bars| - 1]];
    }
  }

  function TotalVolume(s: seq<Bar>): real {
    if s == [] then 0.0 else TotalVolume(s[..|s| - 1]) + s[|s| - 1].volume
  }

  /** Typical price times volume: a bar's share of the VWAP numerator. */
  function Weight(b: Bar): real {
    Tp(b) * b.volume
  }

  /** Sum of typical price times volume. */
  function TotalTpv(s: seq<Bar>): real {
    if s == [] then 0.0 else TotalTpv(s[..|s| - 1]) + Weight(s[|s| - 1])
  }

  /** Σ(tp·v)/Σv over a session, null when the volume sums to 0. */
  function Vwap(s: seq<Bar>): (v: Option<real>)
    ensures v.None? <==> TotalVolume(s) == 0.0
  {
    var vol := TotalVolume(s);
    if vol == 0.0 then None else Some(TotalTpv(s) / vol)
  }

  /** The VWAP times the session's volume gives back Σ(tp·v): it is the
      volume-weighted mean of the typical prices. */
  lemma VwapIsWeightedMean(s: seq<Bar>)
    ensures Vwap(s).Some? ==> Vwap(s).value * TotalVolume(s) == TotalTpv(s)
  {
  }

  lemma SessionStep(bars: seq<Bar>, i: nat, today: string)
    requires i < |bars|
    ensures today <= bars[i].date ==> Session(bars[..i + 1], today) == Session(bars[..i], today) + [bars[i]]
    ensures !(today <= bars[i].date) ==> Session(bars[..i + 1], today) == Session(bars[..i], today)
  {
    assert bars[..i + 1][..i] == bars[..i];
  }

  lemma TotalsStep(s: seq<Bar>, b: Bar)
    ensures TotalVolume(s + [b]) == TotalVolume(s) + b.volume
    ensures TotalTpv(s + [b]) == TotalTpv(s) + Weight(b)
  {
    assert (s + [b])[..|s|] == s;
  }

  /** The loop of the source: one pass adding up the bars of `today`. */
  method AccumulateSession(bars: seq<Bar>, today: string) returns (tpv: real, vol: real)
    ensures tpv == TotalTpv(Session(bars, today))
    ensures vol == TotalVolume(Session(bars, today))
  {
    tpv, vol := 0.0, 0.0;
    var i := 0;
    while i < |bars|
      invariant 0 <= i <= |bars|
      invariant tpv == TotalTpv(Session(bars[..i], today))
      invariant vol == TotalVolume(Session(bars[..i], today))
    {
      var b := bars[i];
      SessionStep(bars, i, today);
      if today <= b.date {
        TotalsStep(Session(bars[..i], today), b);
        tpv := tpv + Weight(b);
        vol := vol + b.volume;
      }
      i := i + 1;
    }
    assert bars[..|bars|] == bars;
  }

  /** `fetchVWAPandTime` once both requests have answered. With more than 20
      bars the VWAP is taken over the bars sharing the first bar's day and the
      time is that of the last bar of the whole array; otherwise the first
      end-of-day row is used; a failed intraday request skips the fallback. */
  method FetchVwapAndTime(intraday: Reply<Bar>, eod: Reply<EodRow>) returns (r: VwapTime)
    ensures intraday.Failed? ==> r == VwapTime(None, Unavailable)
    ensures intraday.Rows? && |intraday.rows| > MinIntradayBars ==>
      var bars := intraday.rows;
      r.vwap == Vwap(Session(bars, DayPart(bars[0].date))) && r.time == Clock(bars[|bars| - 1].date)
    ensures !intraday.Failed? && !(intraday.Rows? && |intraday.rows| > MinIntradayBars) ==>
      if eod.Rows? && |eod.rows| > 0 then r == VwapTime(eod.rows[0].vwap, EndOfDay(eod.rows[0].date))
      else r == VwapTime(None, Unavailable)
  {
    if intraday.Failed? {
      return VwapTime(None, Unavailable);
    }
    if intraday.Rows? && |intraday.rows| > MinIntradayBars {
      var bars := intraday.rows;
      var today := DayPart(bars[0].date);
      var tpv, vol := AccumulateSession(bars, today);
      var last := bars[|bars| - 1];
      return VwapTime(if vol != 0.0 then Some(tpv / vol) else None, Clock(last.date));
    }
    if eod.Rows? && |eod.rows| > 0 {
      return VwapTime(eod.rows[0].vwap, EndOfDay(eod.rows[0].date));
    }
    return VwapTime(None, Unavailable);
  }

  /** The first bar always belongs to its own session. */
  lemma FirstBarCounted(bars: seq<Bar>)
    requires |bars| > 0
    ensures bars[0] in Session(bars, DayPart(bars[0].date))
  {
    SessionMembers(bars, DayPart(bars[0].date));
  }

  lemma {:induction false} WeightedSumBounds(s: seq<Bar>, lo: real, hi: real)
    requires forall i :: 0 <= i < |s| ==> s[i].volume >= 0.0 && lo <= Tp(s[i]) <= hi
    ensures TotalVolume(s) >= 0.0
    ensures lo * TotalVolume(s) <= TotalTpv(s) <= hi * TotalVolume(s)
  {
    if s != [] {
      var init := s[..|s| - 1];
      var b := s[|s| - 1];
      assert forall i :: 0 <= i < |init| ==> init[i] == s[i];
      WeightedSumBounds(init, lo, hi);
      ScaleBounds(lo, Tp(b), hi, b.volume);
      assert TotalVolume(s) == TotalVolume(init) + b.volume;
      assert TotalTpv(s) == TotalTpv(init) + Weight(b);
    }
  }

  lemma ScaleBounds(lo: real, x: real, hi: real, v: real)
    requires lo <= x <= hi && v >= 0.0
    ensures lo * v <= x * v <= hi * v
  {
  }

  /** With non-negative volumes, the VWAP lies within any bounds on the
      typical prices of the bars it averages. */
  lemma VwapWithinBounds(s: seq<Bar>, lo: real, hi: real)
    requires forall i :: 0 <= i < |s| ==> s[i].volume >= 0.0 && lo <= Tp(s[i]) <= hi
    requires TotalVolume(s) != 0.0
    ensures Vwap(s).Some? && lo <= Vwap(s).value <= hi
  {
    WeightedSumBounds(s, lo, hi);
    QuotientBetween(TotalTpv(s), TotalVolume(s), lo, hi);
  }

  lemma QuotientBetween(t: real, vol: real, lo: real, hi: real)
    requires vol > 0.0 && lo * vol <= t <= hi * vol
    ensures lo <= t / vol <= hi
  {
    var q := t / vol;
    assert q * vol == t;
    assert (q - lo) * vol >= 0.0 && (hi - q) * vol >= 0.0;
  }

  /** Smallest typical price of a non-empty sequence of bars. */
  function MinTp(s: seq<Bar>): (m: real)
    requires |s| > 0
    ensures forall i :: 0 <= i < |s| ==> m <= Tp(s[i])
    ensures exists i :: 0 <= i < |s| && m == Tp(s[i])
  {
    if |s| == 1 then Tp(s[0])
    else
      var m := MinTp(s[1..]);
      assert forall i :: 1 <= i < |s| ==> s[1..][i - 1] == s[i];
      if Tp(s[0]) <= m then Tp(s[0]) else m
  }

  /** Largest typical price of a non-empty sequence of bars. */
  function MaxTp(s: seq<Bar>): (m: real)
    requires |s| > 0
    ensures forall i :: 0 <= i < |s| ==> Tp(s[i]) <= m
    ensures exists i :: 0 <= i < |s| && m == Tp(s[i])
  {
    if |s| == 1 then Tp(s[0])
    else
      var m := MaxTp(s[1..]);
      assert forall i :: 1 <= i < |s| ==> s[1..][i - 1] == s[i];
      if Tp(s[0]) >= m then Tp(s[0]) else m
  }

  lemma {:induction false} VolumeNonNegative(s: seq<Bar>)
    requires forall i :: 0 <= i < |s| ==> s[i].volume >= 0.0
    ensures TotalVolume(s) >= 0.0
  {
    if s != [] {
      VolumeNonNegative(s[..|s| - 1]);
    }
  }

  lemma {:induction false} VolumeOfMember(s: seq<Bar>, k: nat)
    requires forall i :: 0 <= i < |s| ==> s[i].volume >= 0.0
    requires k < |s|
    ensures TotalVolume(s) >= s[k].volume
  {
    var init := s[..|s| - 1];
    if k < |init| {
      VolumeOfMember(init, k);
    } else {
      VolumeNonNegative(init);
    }
  }

  lemma SessionVolumesNonNegative(bars: seq<Bar>, today: string)
    requires forall i :: 0 <= i < |bars| ==> bars[i].volume >= 0.0
    ensures var s := Session(bars, today);
      forall i :: 0 <= i < |s| ==> s[i].volume >= 0.0
  {
    SessionMembers(bars, today);
    var s := Session(bars, today);
    forall i | 0 <= i < |s| ensures s[i].volume >= 0.0 {
      assert s[i] in s;
      var j :| 0 <= j < |bars| && bars[j] == s[i];
    }
  }

  /** The intraday VWAP lies between the smallest and largest typical price
      of the bars it counts, when volumes are non-negative and not all 0. */
  lemma SessionVwapBetweenExtremes(bars: seq<Bar>)
    requires |bars| > MinIntradayBars
    requires forall i :: 0 <= i < |bars| ==> bars[i].volume >= 0.0
    requires TotalVolume(Session(bars, DayPart(bars[0].date))) != 0.0
    ensures var s := Session(bars, DayPart(bars[0].date));
      |s| > 0 && Vwap(s).Some? && MinTp(s) <= Vwap(s).value <= MaxTp(s)
  {
    var s := Session(bars, DayPart(bars[0].date));
    FirstBarCounted(bars);
    SessionVolumesNonNegative(bars, DayPart(bars[0].date));
    VwapWithinBounds(s, MinTp(s), MaxTp(s));
  }

  /** A first bar with positive volume, and no negative volumes, always give
      an intraday VWAP. */
  lemma PositiveFirstBarGivesVwap(bars: seq<Bar>)
    requires |bars| > 0 && bars[0].volume > 0.0
    requires forall i :: 0 <= i < |bars| ==> bars[i].volume >= 0.0
    ensures Vwap(Session(bars, DayPart(bars[0].date))).Some?
  {
    var s := Session(bars, DayPart(bars[0].date));
    FirstBarCounted(bars);
    var k :| 0 <= k < |s| && s[k] == bars[0];
    SessionVolumesNonNegative(bars, DayPart(bars[0].date));
    VolumeOfMember(s, k);
  }

  /** Worked example: bars (10,8,9,100) and (11,9,10,200) have typical
      prices 9 and 10 and VWAP 29/3; a session without volume has none. */
  lemma WorkedVwap()
    ensures Vwap([Bar("d", 10.0, 8.0, 9.0, 100.0), Bar("d", 11.0, 9.0, 10.0, 200.0)]) == Some(29.0 / 3.0)
    ensures Vwap([Bar("d", 10.0, 8.0, 9.0, 0.0)]) == None
  {
    var s := [Bar("d", 10.0, 8.0, 9.0, 100.0), Bar("d", 11.0, 9.0, 10.0, 200.0)];
    assert s[..1] == [s[0]];
    assert [s[0]][..0] == [];
    assert TotalVolume(s) == 300.0;
    assert TotalTpv(s) == 2900.0;
  }
}
