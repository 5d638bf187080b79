/** Manual override of one summary value, and the fixed threshold table that
    infers the other two values from the one entered. */
module Overrides {
  import opened Records

  /** The field name an override carries. The three column names select a row
      of the table; any other name selects none. */
  datatype Field = Column(metric: Metric) | Other(name: string)

  /** The name under which the form reports an edit of column `m` */
  function ColumnName(m: Metric): string {
    match m
    case Time => "time"
    case Complexity => "complexity"
    case Cost => "cost"
  }

  /** Classifies a field name by exact string comparison with the three column names. */
  function ParseField(name: string): (f: Field)
    ensures f.Column? <==> name in {"time", "complexity", "cost"}
    ensures f.Column? ==> ColumnName(f.metric) == name
    ensures f.Other? ==> f.name == name
  {
    if name == "time" then Column(Time)
    else if name == "complexity" then Column(Complexity)
    else if name == "cost" then Column(Cost)
    else Other(name)
  }

  /** The name a field was parsed from */
  function FieldName(f: Field): string {
    match f
    case Column(m) => ColumnName(m)
    case Other(n) => n
  }

  /** A field is well formed when an `Other` name is not one of the column names. */
  predicate WellFormed(f: Field) {
    f.Other? ==> f.name !in {"time", "complexity", "cost"}
  }

  /** Parsing and naming are inverse to each other on well-formed fields. */
  lemma ParseFieldRoundTrip(name: string, f: Field)
    ensures WellFormed(ParseField(name)) && FieldName(ParseField(name)) == name
    ensures WellFormed(f) ==> ParseField(FieldName(f)) == f
  {
  }

  /** The summary after the user enters `v` for field `f`: the entered column takes
      `v` unrounded and the other two columns are chosen from `v` alone by the
      threshold table; an unrecognised field leaves the summary as it was. */
  function Override(b: Summary, f: Field, v: real): (r: Summary)
    ensures f.Column? ==> r.Get(f.metric) == v
    ensures f.Other? ==> r == b
  {
    match f
    case Column(Time) =>
      Summary(v, if v <= 5.0 then 3.0 else 8.0, if v <= 5.0 then 1000.0 else 500.0)
    case Column(Complexity) =>
      Summary(if v >= 7.0 then 10.0 else 3.0, v, if v >= 7.0 then 2000.0 else 800.0)
    case Column(Cost) =>
      Summary(if v >= 2000.0 then 10.0 else 4.0, if v >= 2000.0 then 8.0 else 2.0, v)
    case Other(_) => b
  }

  // The threshold table as data, an independent statement of the override rules.

  /** The condition on the entered value under which a row applies */
  datatype Condition = AtMost(bound: real) | Above(bound: real) | AtLeast(bound: real) | Below(bound: real) {
    predicate Holds(v: real) {
      match this
      case AtMost(b) => v <= b
      case Above(b) => v > b
      case AtLeast(b) => v >= b
      case Below(b) => v < b
    }
  }

  /** A cell of the table: the entered value itself, or a constant */
  datatype Cell = Entered | Fixed(value: real) {
    function Eval(v: real): real {
      match this
      case Entered => v
      case Fixed(c) => c
    }
  }

  /** One row: which column was edited, when the row applies, and the resulting summary */
  datatype Rule = Rule(edited: Metric, when: Condition, time: Cell, complexity: Cell, cost: Cell) {
    predicate Applies(m: Metric, v: real) {
      edited == m && when.Holds(v)
    }

    function Fill(v: real): Summary {
      Summary(time.Eval(v), complexity.Eval(v), cost.Eval(v))
    }

    function CellFor(m: Metric): Cell {
      match m
      case Time => time
      case Complexity => complexity
      case Cost => cost
    }
  }

  const Rules: seq<Rule> := [
    Rule(Time,       AtMost(5.0),     Entered,     Fixed(3.0), Fixed(1000.0)),
    Rule(Time,       Above(5.0),      Entered,     Fixed(8.0), Fixed(500.0)),
    Rule(Complexity, AtLeast(7.0),    Fixed(10.0), Entered,    Fixed(2000.0)),
    Rule(Complexity, Below(7.0),      Fixed(3.0),  Entered,    Fixed(800.0)),
    Rule(Cost,       AtLeast(2000.0), Fixed(10.0), Fixed(8.0), Entered),
    Rule(Cost,       Below(2000.0),   Fixed(4.0),  Fixed(2.0), Entered)
  ]

  /** In every row the entered value goes to the edited column and only there. */
  lemma RulesEnterOnlyTheEditedColumn()
    ensures forall i, m :: 0 <= i < |Rules| ==> (Rules[i].CellFor(m) == Entered <==> m == Rules[i].edited)
  {
  }

  /** For every column and every entered value exactly one row of the table applies. */
  lemma RulesPartition(m: Metric, v: real)
    ensures exists i :: 0 <= i < |Rules| && Rules[i].Applies(m, v)
    ensures forall i, j :: 0 <= i < |Rules| && 0 <= j < |Rules| && Rules[i].Applies(m, v) && Rules[j].Applies(m, v) ==> i == j
  {
    var i := match m
      case Time => if v <= 5.0 then 0 else 1
      case Complexity => if v >= 7.0 then 2 else 3
      case Cost => if v >= 2000.0 then 4 else 5;
    assert Rules[i].Applies(m, v);
  }

  /** Overriding a column yields exactly the summary of the table row that applies. */
  lemma OverrideMatchesRules(b: Summary, m: Metric, v: real)
    ensures forall i :: 0 <= i < |Rules| && Rules[i].Applies(m, v) ==> Override(b, Column(m), v) == Rules[i].Fill(v)
  {
  }

  /** Entering a time: up to 5 infers complexity 3 and cost 1000, above 5 infers
      complexity 8 and cost 500. */
  lemma OverrideTimeRule(b: Summary, v: real)
    ensures v <= 5.0 ==> Override(b, Column(Time), v) == Summary(v, 3.0, 1000.0)
    ensures v > 5.0 ==> Override(b, Column(Time), v) == Summary(v, 8.0, 500.0)
  {
  }

  /** Entering a complexity: 7 or more infers time 10 and cost 2000, below 7 infers
      time 3 and cost 800. */
  lemma OverrideComplexityRule(b: Summary, v: real)
    ensures v >= 7.0 ==> Override(b, Column(Complexity), v) == Summary(10.0, v, 2000.0)
    ensures v < 7.0 ==> Override(b, Column(Complexity), v) == Summary(3.0, v, 800.0)
  {
  }

  /** Entering a cost: 2000 or more infers time 10 and complexity 8, below 2000
      infers time 4 and complexity 2. */
  lemma OverrideCostRule(b: Summary, v: real)
    ensures v >= 2000.0 ==> Override(b, Column(Cost), v) == Summary(10.0, 8.0, v)
    ensures v < 2000.0 ==> Override(b, Column(Cost), v) == Summary(4.0, 2.0, v)
  {
  }

  /** Overriding a column does not depend on the summary it replaces. */
  lemma OverrideIgnoresPrevious(b1: Summary, b2: Summary, m: Metric, v: real)
    ensures Override(b1, Column(m), v) == Override(b2, Column(m), v)
  {
  }

  /** Of two overrides in a row only the second matters, unless the second names
      no column; entering the same value twice is the same as entering it once. */
  lemma OverrideLastWins(b: Summary, f: Field, v: real, g: Field, w: real)
    ensures g.Column? ==> Override(Override(b, f, v), g, w) == Override(b, g, w)
    ensures g.Other? ==> Override(Override(b, f, v), g, w) == Override(b, f, v)
    ensures Override(Override(b, f, v), f, v) == Override(b, f, v)
  {
  }

  /** The rows of the table at their boundaries and on either side of them. */
  lemma OverrideExamples(b: Summary)
    ensures Override(b, Column(Time), 3.0) == Summary(3.0, 3.0, 1000.0)
    ensures Override(b, Column(Time), 5.0) == Summary(5.0, 3.0, 1000.0)
    ensures Override(b, Column(Time), 7.0) == Summary(7.0, 8.0, 500.0)
    ensures Override(b, Column(Complexity), 7.0) == Summary(10.0, 7.0, 2000.0)
    ensures Override(b, Column(Complexity), 6.0) == Summary(3.0, 6.0, 800.0)
    ensures Override(b, Column(Cost), 2000.0) == Summary(10.0, 8.0, 2000.0)
    ensures Override(b, Column(Cost), 1999.0) == Summary(4.0, 2.0, 1999.0)
    ensures Override(b, ParseField("budget"), 1.0) == b
  {
  }
}
