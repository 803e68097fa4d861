/** The colour-bin mapper of the momentum widget (`getColor` in
    momentum-widget.js). The source is a chain of threshold tests per field;
    this module also states each chain as a table of ordered rules, proves the
    chain equal to the table, and proves that a table's bin index never
    decreases as the value grows. */
module Colors {
  import opened Wrappers

  /** One threshold test, with JavaScript's semantics for a null value:
      relational comparisons read null as 0, strict equality never holds. */
  datatype Test = AtMost(bound: real) | Below(bound: real) | Exactly(bound: real)

  datatype Rule = Rule(test: Test, bin: string)

  /** Rules tried in order; `otherwise` is the label when none holds. */
  datatype Table = Table(rules: seq<Rule>, otherwise: string)

  predicate Holds(t: Test, v: Option<real>) {
    match t
    case AtMost(b) => v.GetOr(0.0) <= b
    case Below(b) => v.GetOr(0.0) < b
    case Exactly(b) => v == Some(b)
  }

  /** Index of the first rule that holds of `v`, or `|rules|` when none does. */
  function FirstMatch(rules: seq<Rule>, v: Option<real>): (i: nat)
    ensures i <= |rules|
    ensures i < |rules| ==> Holds(rules[i].test, v)
    ensures forall k :: 0 <= k < i ==> !Holds(rules[k].test, v)
  {
    if rules == [] then 0
    else if Holds(rules[0].test, v) then 0
    else 1 + FirstMatch(rules[1..], v)
  }

  function Classify(t: Table, v: Option<real>): string {
    var i := FirstMatch(t.rules, v);
    if i < |t.rules| then t.rules[i].bin else t.otherwise
  }

  const ChangeTable := Table([
    Rule(AtMost(-50.0), "dark-red"), Rule(AtMost(-10.0), "medium-red"),
    Rule(Below(0.0), "light-red"), Rule(Exactly(0.0), "white"),
    Rule(Below(5.0), "light-green"), Rule(Below(15.0), "medium-green"),
    Rule(Below(30.0), "bright-green")], "dark-green")

  const GapTable := Table([
    Rule(Below(0.0), "light-red"), Rule(Below(5.0), "white"),
    Rule(Below(15.0), "light-yellow"), Rule(Below(30.0), "yellow"),
    Rule(Below(50.0), "orange"), Rule(Below(100.0), "dark-orange")], "red-orange")

  const VolumeTable := Table([
    Rule(Below(500000.0), "gray"), Rule(Below(2000000.0), "light-green"),
    Rule(Below(5000000.0), "medium-green"), Rule(Below(10000000.0), "bright-green"),
    Rule(Below(50000000.0), "dark-green")], "highlight-blue")

  const FloatPctTable := Table([
    Rule(Below(5.0), "gray"), Rule(Below(10.0), "light-blue"),
    Rule(Below(20.0), "medium-blue"), Rule(Below(50.0), "bright-blue")], "dark-blue")

  const AtrTable := Table([
    Rule(Below(0.5), "light-gray"), Rule(Below(1.0), "yellow"),
    Rule(Below(2.0), "orange")], "red")

  /** The table of a field name; there is none for any other name, `rvol`
      included. */
  function TableFor(fld: string): Option<Table> {
    if fld == "change" then Some(ChangeTable)
    else if fld == "gap_pct" then Some(GapTable)
    else if fld == "volume" then Some(VolumeTable)
    else if fld == "float_pct" then Some(FloatPctTable)
    else if fld == "atr" then Some(AtrTable)
    else None
  }

  /** `getColor(val, fld)`: the label of the first threshold the value meets,
      read from the field's table, and `""` for a field without one. */
  function GetColor(val: Option<real>, fld: string): (colour: string)
    ensures TableFor(fld).None? ==> colour == ""
  {
    var x := val.GetOr(0.0);
    if fld == "change" then
      if x <= -50.0 then "dark-red" else if x <= -10.0 then "medium-red"
      else if x < 0.0 then "light-red" else if val == Some(0.0) then "white"
      else if x < 5.0 then "light-green" else if x < 15.0 then "medium-green"
      else if x < 30.0 then "bright-green" else "dark-green"
    else if fld == "gap_pct" then
      if x < 0.0 then "light-red" else if x < 5.0 then "white"
      else if x < 15.0 then "light-yellow" else if x < 30.0 then "yellow"
      else if x < 50.0 then "orange" else if x < 100.0 then "dark-orange" else "red-orange"
    else if fld == "volume" then
      if x < 500000.0 then "gray" else if x < 2000000.0 then "light-green"
      else if x < 5000000.0 then "medium-green" else if x < 10000000.0 then "bright-green"
      else if x < 50000000.0 then "dark-green" else "highlight-blue"
    else if fld == "float_pct" then
      if x < 5.0 then "gray" else if x < 10.0 then "light-blue"
      else if x < 20.0 then "medium-blue" else if x < 50.0 then "bright-blue" else "dark-blue"
    else if fld == "atr" then
      if x < 0.5 then "light-gray" else if x < 1.0 then "yellow"
      else if x < 2.0 then "orange" else "red"
    else ""
  }

  /** The threshold chain of `getColor` is the first-match reading of the
      field's table: the first rule that holds gives the bin. */
  lemma GetColorFollowsTables(val: Option<real>, fld: string)
    ensures TableFor(fld).Some? ==> GetColor(val, fld) == Classify(TableFor(fld).value, val)
  {
    if fld == "change" {
      ChangeFollowsTable(val);
    } else if fld == "gap_pct" {
      GapFollowsTable(val);
    } else if fld == "volume" {
      VolumeFollowsTable(val);
    } else if fld == "float_pct" {
      FloatPctFollowsTable(val);
    } else if fld == "atr" {
      AtrFollowsTable(val);
    }
  }

  // Naming every rule of a table lets the first-match contract speak about
  // each of them; the bounds happen to ascend in every table.

  lemma ChangeFollowsTable(val: Option<real>)
    ensures GetColor(val, "change") == Classify(ChangeTable, val)
  {
    var r := ChangeTable.rules;
    assert r[0].test.bound <= r[1].test.bound <= r[2].test.bound <= r[3].test.bound
      <= r[4].test.bound <= r[5].test.bound <= r[6].test.bound;
  }

  lemma GapFollowsTable(val: Option<real>)
    ensures GetColor(val, "gap_pct") == Classify(GapTable, val)
  {
    var r := GapTable.rules;
    assert r[0].test.bound <= r[1].test.bound <= r[2].test.bound <= r[3].test.bound
      <= r[4].test.bound <= r[5].test.bound;
  }

  lemma VolumeFollowsTable(val: Option<real>)
    ensures GetColor(val, "volume") == Classify(VolumeTable, val)
  {
    var r := VolumeTable.rules;
    assert r[0].test.bound <= r[1].test.bound <= r[2].test.bound <= r[3].test.bound
      <= r[4].test.bound;
  }

  lemma FloatPctFollowsTable(val: Option<real>)
    ensures GetColor(val, "float_pct") == Classify(FloatPctTable, val)
  {
    var r := FloatPctTable.rules;
    assert r[0].test.bound <= r[1].test.bound <= r[2].test.bound <= r[3].test.bound;
  }

  lemma AtrFollowsTable(val: Option<real>)
    ensures GetColor(val, "atr") == Classify(AtrTable, val)
  {
    var r := AtrTable.rules;
    assert r[0].test.bound <= r[1].test.bound <= r[2].test.bound;
  }

  /** Every rule is a downward-closed threshold, except an exact-value rule,
      which must come straight after a strict threshold at the same bound. */
  predicate Graded(rules: seq<Rule>) {
    forall i :: 0 <= i < |rules| && rules[i].test.Exactly? ==>
      i > 0 && rules[i - 1].test == Below(rules[i].test.bound)
  }

  /** In a graded table a smaller value never lands in a later bin. */
  lemma RankMonotone(rules: seq<Rule>, v: real, w: real)
    requires Graded(rules)
    requires v <= w
    ensures FirstMatch(rules, Some(v)) <= FirstMatch(rules, Some(w))
  {
    var i := FirstMatch(rules, Some(w));
    if i < |rules| {
      if rules[i].test.Exactly? && v != w {
        assert Holds(rules[i - 1].test, Some(v));
      } else {
        assert Holds(rules[i].test, Some(v));
      }
    }
  }

  lemma TablesGraded()
    ensures Graded(ChangeTable.rules) && Graded(GapTable.rules) && Graded(VolumeTable.rules)
    ensures Graded(FloatPctTable.rules) && Graded(AtrTable.rules)
  {
  }

  /** For every coloured field, as the value increases the bin it falls in
      moves towards the table's last (most extreme) bin, never back. */
  lemma ColorRankMonotone(fld: string, v: real, w: real)
    requires TableFor(fld).Some?
    requires v <= w
    ensures FirstMatch(TableFor(fld).value.rules, Some(v)) <= FirstMatch(TableFor(fld).value.rules, Some(w))
  {
    TablesGraded();
    RankMonotone(TableFor(fld).value.rules, v, w);
  }

  /** A null value is coloured like 0, except for `change`, where the
      `=== 0` test fails and the next bin applies. */
  lemma NullColor(fld: string)
    ensures fld != "change" ==> GetColor(None, fld) == GetColor(Some(0.0), fld)
    ensures GetColor(None, "change") == "light-green"
    ensures GetColor(Some(0.0), "change") == "white"
  {
  }

  /** The worked volume examples: 400,000 is low, 600,000 mild and
      60,000,000 the extreme bin; `rvol` has no colour. */
  lemma WorkedColors()
    ensures GetColor(Some(400000.0), "volume") == "gray"
    ensures GetColor(Some(600000.0), "volume") == "light-green"
    ensures GetColor(Some(60000000.0), "volume") == "highlight-blue"
    ensures GetColor(Some(7.0), "rvol") == ""
  {
  }
}
