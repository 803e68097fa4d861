/** `pickTop` and the float predicates of the `/low`, `/high` and `/all`
    handlers in routes/momentum.js: keep the items priced at 1 or more whose
    float passes the bucket's test, order them by relative volume, highest
    first, and keep the first fifteen. */
module Ranking {
  import opened Enrichment

  const TopCount: nat := 15
  const MinPrice: real := 1.0
  const LowFloatCap: real := 50000000.0
  const HighFloatFloor: real := 100000000.0

  /** The `/low` float test: a positive float under 50 million shares. A
      low float is never a high float, and a missing float (0) is neither. */
  predicate LowFloat(f: real)
    ensures LowFloat(f) ==> !HighFloat(f)
    ensures f <= 0.0 ==> !LowFloat(f)
  {
    0.0 < f < LowFloatCap
  }

  /** The `/high` float test: a float of at least 100 million shares, which
      is always positive and at least double the low-float cap. */
  predicate HighFloat(f: real)
    ensures HighFloat(f) ==> f > 0.0 && f >= 2.0 * LowFloatCap
  {
    f >= HighFloatFloor
  }

  predicate Passes(x: Item, floatTest: real -> bool) {
    x.price >= MinPrice && floatTest(x.float)
  }

  /** How many times `x` occurs in `s`. */
  function Count(s: seq<Item>, x: Item): nat {
    multiset(s)[x]
  }

  /** The `filter` step: every occurrence of a passing item is kept, and
      nothing else; `EligibleAppend` states that the input order is kept. */
  function Eligible(data: seq<Item>, floatTest: real -> bool): (e: seq<Item>)
    ensures |e| <= |data|
    ensures forall x :: x in e <==> x in data && Passes(x, floatTest)
    ensures forall x :: Count(e, x) == if Passes(x, floatTest) then Count(data, x) else 0
  {
    if data == [] then []
    else
      assert data == [data[0]] + data[1..];
      (if Passes(data[0], floatTest) then [data[0]] else []) + Eligible(data[1..], floatTest)
  }

  /** Filtering distributes over concatenation: the kept items of a front
      part come before those of a back part, each in input order. */
  lemma {:induction false} EligibleAppend(a: seq<Item>, b: seq<Item>, floatTest: real -> bool)
    ensures Eligible(a + b, floatTest) == Eligible(a, floatTest) + Eligible(b, floatTest)
  {
    if a == [] {
      assert a + b == b;
    } else {
      assert (a + b)[1..] == a[1..] + b;
      EligibleAppend(a[1..], b, floatTest);
    }
  }

  /** Relative volume never increases along the sequence. */
  predicate ByRvolDescending(s: seq<Item>) {
    forall i, j :: 0 <= i < j < |s| ==> s[i].rvol >= s[j].rvol
  }

  /** Inserts `x` before the first item whose rvol is not above its own, so
      items of equal rvol keep their order of arrival. */
  function InsertByRvol(x: Item, s: seq<Item>): (r: seq<Item>)
    requires ByRvolDescending(s)
    ensures ByRvolDescending(r)
    ensures multiset(r) == multiset(s) + multiset{x}
    ensures |r| == |s| + 1 && (r[0] == x || (|s| > 0 && r[0] == s[0]))
  {
    if s == [] || s[0].rvol <= x.rvol then [x] + s
    else
      assert s == [s[0]] + s[1..];
      [s[0]] + InsertByRvol(x, s[1..])
  }

  /** The `sort((a, b) => b.rvol - a.rvol)` step: a stable sort by
      relative volume, highest first. */
  function SortByRvol(s: seq<Item>): (r: seq<Item>)
    ensures ByRvolDescending(r)
    ensures multiset(r) == multiset(s)
  {
    if s == [] then []
    else
      assert s == [s[0]] + s[1..];
      InsertByRvol(s[0], SortByRvol(s[1..]))
  }

  /** `pickTop(data, floatTest)`: at most fifteen eligible items of the input,
      highest relative volume first, and none left out that beats one kept. */
  function PickTop(data: seq<Item>, floatTest: real -> bool): (top: seq<Item>)
    ensures |top| <= TopCount
    ensures |top| == if |Eligible(data, floatTest)| < TopCount then |Eligible(data, floatTest)| else TopCount
    ensures forall x :: x in top ==> x in data && x.price >= MinPrice && floatTest(x.float)
    ensures ByRvolDescending(top)
    ensures multiset(top) <= multiset(Eligible(data, floatTest))
    ensures forall x :: x in multiset(Eligible(data, floatTest)) - multiset(top) ==> RvolAtMostAll(x, top)
  {
    var sorted := SortByRvol(Eligible(data, floatTest));
    SortedMembers(data, floatTest);
    Cut(sorted)
  }

  /** The `slice(0, 15)` step on a sorted sequence: its first fifteen items,
      or all of them when there are fewer. */
  function Cut(sorted: seq<Item>): (top: seq<Item>)
    requires ByRvolDescending(sorted)
    ensures |top| == if |sorted| < TopCount then |sorted| else TopCount
    ensures top == sorted[..|top|]
    ensures ByRvolDescending(top)
    ensures multiset(top) <= multiset(sorted)
    ensures forall x :: x in top ==> x in sorted
    ensures forall x :: x in multiset(sorted) - multiset(top) ==> RvolAtMostAll(x, top)
  {
    var top := if |sorted| <= TopCount then sorted else sorted[..TopCount];
    PrefixKeepsRank(sorted, |top|);
    assert top == sorted[..|top|];
    top
  }

  /** Sorting the eligible items brings in nothing new. */
  lemma SortedMembers(data: seq<Item>, floatTest: real -> bool)
    ensures forall x :: x in SortByRvol(Eligible(data, floatTest)) ==> x in data && Passes(x, floatTest)
  {
    var eligible := Eligible(data, floatTest);
    forall x | x in SortByRvol(eligible) ensures x in data && Passes(x, floatTest) {
      assert x in multiset(SortByRvol(eligible));
      assert x in multiset(eligible);
    }
  }

  predicate RvolAtMostAll(x: Item, s: seq<Item>) {
    forall j :: 0 <= j < |s| ==> x.rvol <= s[j].rvol
  }

  /** Cutting a sorted sequence after `k` items leaves behind only items
      whose rvol is at most that of every item kept. */
  lemma PrefixKeepsRank(sorted: seq<Item>, k: nat)
    requires ByRvolDescending(sorted) && k <= |sorted|
    ensures multiset(sorted[..k]) <= multiset(sorted)
    ensures forall x :: x in sorted[..k] ==> x in sorted
    ensures forall x :: x in multiset(sorted) - multiset(sorted[..k]) ==> RvolAtMostAll(x, sorted[..k])
  {
    assert sorted == sorted[..k] + sorted[k..];
    var kept, dropped := sorted[..k], sorted[k..];
    assert multiset(sorted) - multiset(kept) == multiset(dropped);
    forall x | x in multiset(sorted) - multiset(kept) ensures RvolAtMostAll(x, kept) {
      assert x in dropped;
      var i :| 0 <= i < |dropped| && dropped[i] == x;
      assert sorted[k + i] == x;
    }
  }

  /** The two lists of `/all`: a low-float item always has a smaller float
      than a high-float one, so no item is in both. */
  lemma FloatListsDisjoint(items: seq<Item>)
    ensures forall x, y :: x in PickTop(items, LowFloat) && y in PickTop(items, HighFloat) ==> x.float < y.float
    ensures forall x :: x in PickTop(items, LowFloat) ==> x !in PickTop(items, HighFloat)
  {
  }

  /** Items with a float of at most 0, or between 50 and 100 million shares,
      are in neither list. */
  lemma MidAndMissingFloatsExcluded(items: seq<Item>, x: Item)
    requires x.float <= 0.0 || LowFloatCap <= x.float < HighFloatFloor
    ensures x !in PickTop(items, LowFloat) && x !in PickTop(items, HighFloat)
  {
  }

  /** When a ticker always comes with the same float, no ticker is in both
      lists of `/all`. */
  lemma TickerInOneList(items: seq<Item>)
    requires forall i, j :: 0 <= i < |items| && 0 <= j < |items| && items[i].ticker == items[j].ticker ==>
      items[i].float == items[j].float
    ensures forall x, y :: x in PickTop(items, LowFloat) && y in PickTop(items, HighFloat) ==> x.ticker != y.ticker
  {
    forall x, y | x in PickTop(items, LowFloat) && y in PickTop(items, HighFloat)
      ensures x.ticker != y.ticker
    {
      var i :| 0 <= i < |items| && items[i] == x;
      var j :| 0 <= j < |items| && items[j] == y;
    }
  }

  /** The `/all` response once the quotes are in. */
  datatype FloatLists = FloatLists(lowFloat: seq<Item>, highFloat: seq<Item>)

  /** `/low`, `/high` and `/all` after the symbol and quote requests: enrich
      the quotes, then pick the top of each bucket. */
  function AllLists(quotes: seq<Quote>): (r: FloatLists)
    ensures |r.lowFloat| <= TopCount && |r.highFloat| <= TopCount
    ensures forall x :: x in r.lowFloat ==> x.price >= MinPrice && 0.0 < x.float < LowFloatCap
    ensures forall x :: x in r.highFloat ==> x.price >= MinPrice && x.float >= HighFloatFloor
    ensures forall x :: x in r.lowFloat || x in r.highFloat ==> x in Enrich(quotes)
    ensures forall x, y :: x in r.lowFloat && y in r.highFloat ==> x.float < y.float
  {
    var items := Enrich(quotes);
    FloatLists(PickTop(items, LowFloat), PickTop(items, HighFloat))
  }
}
