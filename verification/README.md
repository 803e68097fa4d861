# Momentum widget and momentum routes: a Dafny model

This project models the two decision layers of a market-momentum widget and
its backend:

- **The widget** (`momentum-widget.js`). For each backend record,
  `buildTable` derives the row's values. These are the price, the percent
  change from the open, the volume as a percent of the float, the deviation
  from VWAP and the arrow. From the deviation and the relative volume it picks
  an entry signal, and `getColor` maps five of the cells to a colour bin.
  Before that, `fetchVWAPandTime` computes the session VWAP from one-minute
  bars. It falls back to the end-of-day record when there are 20 bars or
  fewer.
- **The backend** (`routes/momentum.js`). `enrich` turns provider quotes into
  items. It computes relative volume, gap, a single-bar true range reported as
  "atr" and the typical price reported as "vwap". `pickTop` keeps the items
  priced at 1 or more whose float passes the bucket's test (low float or high
  float), sorts them by relative volume and keeps fifteen.

Everything is modelled as pure functions over `real` and `seq`. There are two
exceptions, both methods: the VWAP accumulation loop, which carries loop
invariants, and `FetchVwapAndTime`, which takes the two replies. A
JavaScript `null`/`undefined` is `None` of an `Option`. The `||` and `??`
defaulting rules are written out in `JsValues`, so `||` also falls through on
0. A row needs up to three network requests: the intraday bars and, as a
fallback, the end-of-day record in `fetchVWAPandTime`, plus the end-of-day
record again in `fetchOpenClose`. Their answers are inputs of type `Reply`. A
`Reply` is `Failed` when the request threw, `NotArray` when its JSON was not an
array, and `Rows` otherwise.

Modules, one per component:

| file | module | source |
|---|---|---|
| wrappers.dfy | `Wrappers` | `Option` |
| js_values.dfy | `JsValues` | JavaScript `\|\|` and `??` on nullable values |
| signals.dfy | `Signals` | `arrow`, VWAP deviation, the entry-signal block |
| colors.dfy | `Colors` | `getColor` and its threshold tables |
| vwap.dfy | `SessionVwap` | `fetchVWAPandTime` without the requests |
| widget_row.dfy | `WidgetRow` | `fetchOpenClose` and `buildTable` |
| enrichment.dfy | `Enrichment` | `enrich` |
| ranking.dfy | `Ranking` | `pickTop`, the float tests, the `/all` lists |

Points where the code's behaviour is easy to misread:

- With relative volume above 2 and the price exactly at VWAP, the code shows
  `Short Bias`. The bias test is a strict `price > vwap`.
- `getColor` has no `rvol` table, so relative volume is never coloured.
- The change from the open divides by the open without a zero guard.
- The session is the day of the **first** bar (`bars[0].date`), and the time
  shown is that of the **last** bar of the whole array, filtered or not.
- A null value reaching `getColor` compares like 0 in `<` and `<=` but fails
  `=== 0`. So a null change is coloured `light-green`. A null
  float percent is `gray` and a null ATR is `light-gray`.
- A failed intraday request goes straight to the catch block. It gives no
  VWAP and the time `—` without trying the end-of-day fallback.

## Model

| member | source | states |
|---|---|---|
| Signals.ArrowOf | momentum-widget.js:54 | The arrow is up exactly for a positive value, down exactly for a negative one, and flat for 0 or null. |
| Signals.Deviation | momentum-widget.js:127 | The deviation is null exactly when VWAP is null. Otherwise the deviation times VWAP is 100·(price − VWAP). Above a positive VWAP, the deviation is positive exactly when the price is above VWAP. |
| Signals.EntrySignal | momentum-widget.js:130-138 | Each signal is characterised by the exact region of inputs that gives it. Short reversion iff deviation > 2 and long reversion iff deviation < −2. Long bias iff \|dev\| ≤ 2, rvol > 2 and price > VWAP. Short bias is the same with price ≤ VWAP. Bounce zone iff \|dev\| < 0.2 and rvol ≤ 2. No signal iff VWAP is null, or rvol ≤ 2 and 0.2 ≤ \|dev\| ≤ 2. |
| Signals.ReversionIgnoresRvol | momentum-widget.js:132-133 | When \|deviation\| > 2 the signal is a reversion and does not depend on relative volume. |
| Signals.AtVwapHeavyVolumeIsShortBias | momentum-widget.js:134-135 | With rvol > 2 and the price equal to VWAP, the signal is Short Bias. |
| Signals.WorkedSignals | momentum-widget.js:130-138 | Deviation 3 with rvol 5 gives Short Reversion. Deviation 0.1 with rvol 1 gives Bounce Zone, and 1.0 with rvol 1 gives no signal. 10.5 against a VWAP of 10.2 gives Short Reversion. A null VWAP gives no signal. |
| Colors.FirstMatch | momentum-widget.js:56-80 | The index returned is that of a rule that holds, and no earlier rule holds. When no rule holds it is the table's length. |
| Colors.GetColor | momentum-widget.js:56-82 | Any field other than change, gap_pct, volume, float_pct and atr (rvol included) gets the empty colour. |
| Colors.GetColorFollowsTables | momentum-widget.js:56-82 | For each of the five fields, the `getColor` threshold chain gives the bin of the first rule of the field's table that holds, or the table's last bin. |
| Colors.RankMonotone | momentum-widget.js:56-80 | In a table of downward-closed thresholds, a smaller value never gets a later bin than a larger value. An exact-value rule may only follow a strict threshold at the same bound. |
| Colors.ColorRankMonotone | momentum-widget.js:56-80 | For each coloured field, the bin index never decreases as the value increases. |
| Colors.NullColor | momentum-widget.js:57-81 | A null value is coloured like 0 in every field but change. A null change is light-green while a change of 0 is white. |
| Colors.WorkedColors | momentum-widget.js:68-72 | A volume of 400,000 is gray, 600,000 light-green and 60,000,000 highlight-blue. rvol gets no colour. |
| SessionVwap.DayPart | momentum-widget.js:16 | `split(' ')[0]` gives the longest prefix of the date that contains no space. |
| SessionVwap.SessionMembers | momentum-widget.js:18-19 | A bar is counted iff it is one of the bars and its date starts with the first bar's day. |
| SessionVwap.FirstBarCounted | momentum-widget.js:16-19 | The first bar always belongs to the counted session. |
| SessionVwap.Vwap | momentum-widget.js:26 | The VWAP is null exactly when the counted volume sums to 0. |
| SessionVwap.AccumulateSession | momentum-widget.js:17-23 | The single pass returns Σ(tp·v) and Σv over exactly the bars of the day. |
| SessionVwap.FetchVwapAndTime | momentum-widget.js:12-40 | With more than 20 bars, the result is the session VWAP and the clock time of the last bar of the whole array. Otherwise it is the first end-of-day row's VWAP and `EOD <date>`, or null and `—`. A failed intraday request gives null and `—`. |
| SessionVwap.VwapWithinBounds | momentum-widget.js:17-26 | With non-negative volumes and a non-zero total, the VWAP lies within any bounds on the typical prices it averages. |
| SessionVwap.SessionVwapBetweenExtremes | momentum-widget.js:15-26 | With more than 20 bars, non-negative volumes and positive session volume, the VWAP lies between the smallest and largest typical price of the counted bars. |
| SessionVwap.PositiveFirstBarGivesVwap | momentum-widget.js:16-26 | If the first bar has positive volume and no volume is negative, the intraday VWAP is not null. |
| SessionVwap.VwapIsWeightedMean | momentum-widget.js:20-26 | The VWAP times the counted volume equals Σ(tp·v). |
| SessionVwap.WorkedVwap | momentum-widget.js:20-26 | Bars (10,8,9,100) and (11,9,10,200) have VWAP 29/3. A session without volume has none. |
| WidgetRow.FetchOpenClose | momentum-widget.js:42-50 | The open and close come from the first end-of-day row. They are both null when the request failed, gave no array or gave an empty one. |
| WidgetRow.FloatPercent | momentum-widget.js:115 | The float percent is defined exactly when the float is positive. It then times the float equals 100·volume, and it is non-negative for non-negative volume. |
| WidgetRow.ChangePercent | momentum-widget.js:124-126 | A supplied `change_from_open` is used as is. Otherwise, with an open, the change times the open equals 100·(price − open). With neither it is null. |
| WidgetRow.RowPrice | momentum-widget.js:123 | The price is the record's price, else the end-of-day close, else 0. |
| WidgetRow.RowRvol | momentum-widget.js:128 | Relative volume is `rvol`, else `rvol_value`, else 0. |
| WidgetRow.BuildRow | momentum-widget.js:109-172 | The ticker falls back to `—`, the strategy to the table's label, and the volume and gap to 0. The price is `r.price ?? close ?? 0` and the change is the record's own or the one computed from that price and the open. The float percent is defined iff the float is positive. The ATR is null iff missing or 0, and otherwise the record's value. VWAP and time are those of the lookup. The arrow is that of the change: up iff it is positive, down iff it is negative. A null VWAP gives no signal, and the signal follows the row's price, VWAP and relative volume. Each coloured cell gets the colour of its own value. |
| WidgetRow.BuildTable | momentum-widget.js:90-177 | An empty list gives the placeholder. Otherwise there is one row per record, in order. |
| WidgetRow.FailedLookupsDegrade | momentum-widget.js:119-138 | A ticker whose lookups both failed still gets a row, with no VWAP, time `—` and no signal. Without a supplied change it has no change and a flat arrow. |
| WidgetRow.WorkedRow | momentum-widget.js:123-138 | Open 10, price 10.5, VWAP 10.2 and rvol 1.5 give a change of 5%, an up arrow and Short Reversion. |
| Enrichment.TrueRange | routes/momentum.js:72-77 | The true range is at least each of high − low, \|high − prevC\| and \|prevC − low\|. It equals one of them and is never negative. |
| Enrichment.RelativeVolume | routes/momentum.js:70 | With a positive average, rvol times the average is the volume. Otherwise rvol is 0. No volume gives 0, and non-negative volume gives non-negative rvol. |
| Enrichment.GapPercent | routes/momentum.js:71 | With a positive previous close, the gap times it is 100·(open − prevC), and the gap is positive iff the open is above it. Otherwise the gap is 0. Equal prices give 0. |
| Enrichment.EnrichQuote | routes/momentum.js:61-91 | The ticker is the symbol and the price is the open, else 0. Change and gap are one number, 0 when the previous close is missing. rvol is against the defaulted average, and 0 without volume. The ATR is the non-negative true range with high and low defaulting to the open. The VWAP is (high + low + close)/3, and null without a close. |
| Enrichment.MissingAverageVolume | routes/momentum.js:67-70 | Without an average volume, a positive volume gives rvol 1, and a zero or negative volume gives 0. |
| Enrichment.Enrich | routes/momentum.js:61-92 | There is one item per quote, in the same order. |
| Enrichment.WorkedEnrich | routes/momentum.js:63-71 | A missing previous close gives gap 0. A missing average gives rvol 1 with volume and 0 without. Open 11 over a previous close of 10 gives gap 10. |
| Ranking.LowFloat | routes/momentum.js:108 | The `/low` test accepts 0 < float < 50M. A low float is never a high float, and a float of 0 or less is never low. |
| Ranking.HighFloat | routes/momentum.js:121 | The `/high` test accepts float ≥ 100M, which is always positive and at least twice the low-float cap. |
| Ranking.Eligible | routes/momentum.js:97 | An item is kept iff it is in the input, its price is at least 1 and its float passes the test. Each passing item is kept as many times as it occurs in the input, and each failing one not at all. |
| Ranking.EligibleAppend | routes/momentum.js:97 | Filtering a concatenation gives the filtered front followed by the filtered back, so the input order is kept. |
| Ranking.InsertByRvol | routes/momentum.js:98 | Inserting keeps the sequence ordered by rvol, highest first, and adds exactly the one item. |
| Ranking.SortByRvol | routes/momentum.js:98 | The result is ordered by rvol, highest first, and is a permutation of the input. |
| Ranking.PickTop | routes/momentum.js:95-100 | At most 15 items are kept: all the eligible ones when fewer than 15, else 15. Each kept item is from the input, priced at least 1 and passes the float test. They are ordered by rvol, highest first, and form a sub-multiset of the eligible items. No eligible item left out has a higher rvol than any item kept. |
| Ranking.Cut | routes/momentum.js:99 | The result is the first 15 items of the sorted sequence, or all of them when there are fewer. It stays sorted, and nothing left out has a higher rvol than an item kept. |
| Ranking.PrefixKeepsRank | routes/momentum.js:98-99 | Cutting a sorted sequence leaves out only items whose rvol is at most that of every item kept. |
| Ranking.FloatListsDisjoint | routes/momentum.js:133-136 | Every low-float item has a smaller float than every high-float item, so no item is in both lists. |
| Ranking.MidAndMissingFloatsExcluded | routes/momentum.js:134-135 | Items with a float of at most 0, or in [50M, 100M), are in neither list. |
| Ranking.TickerInOneList | routes/momentum.js:133-136 | When each ticker comes with a single float, no ticker is in both lists. |
| Ranking.AllLists | routes/momentum.js:129-140 | Each list holds at most 15 items. Low-float items are priced at least 1 with 0 < float < 50M, and high-float items are priced at least 1 with float ≥ 100M. Every item is an enriched quote, and every low-float float is below every high-float float. |

## Left out

- The HTTP requests, `async`/`await`, `Promise.all`, `refresh` and the
  60-second `setInterval` are not modelled. The answers of the provider
  requests are inputs, and a thrown request is the `Failed` reply.
- `getAllSymbols` and `getQuotes` are not modelled. This covers the
  5,000-symbol cut, batching by 100 and the historical-price fallback: they
  are request plumbing, and the quotes are the model's input.
- The route handlers' error path (status 500 with the error message) is not
  modelled. It only wraps a thrown request.
- The DOM and formatting are not modelled: `renderHeader`, `renderWidget`'s
  bucket choice, table construction, the CSS class of cells 0 to 3, `fmt`,
  `abbrMil` and `toLocaleTimeString`. A bar's time is kept as its provider
  date string (`Clock(date)`) rather than a formatted clock time.
- IEEE-754 behaviour is not modelled: NaN, Infinity and rounding. The two
  divisions the widget leaves unguarded (by the open in the change, by VWAP in
  the deviation) require a non-zero divisor instead.
- Malformed provider JSON is not modelled. This covers bars without a `date`,
  non-numeric strings passed to `Number` and `undefined` versus `null`. A quote
  without a close gives `vwap = None`, standing for the NaN of
  `Number(undefined)`; a `null` close, which `Number` turns into 0, is not
  distinguished from a missing one.
- `server.js`, `utils/fmpService.js`, `build-widget.js`,
  `services/rawMomentumService.js`, `scanner/runScanner.js`,
  `scanner/loadSnapshot.js` and `scanner.js` are not modelled. They are
  routing, fetch wrappers, bundling and random or hard-coded stub data, with no
  decision logic.
- Ranking.PickTop: JavaScript's sort is stable, and `InsertByRvol` keeps items
  of equal rvol in input order. The contract does not state this stability.
