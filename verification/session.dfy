/** The in-memory state of one budgeting session and the transitions the form's
    controls trigger on it. Every transition is a pure function from the state
    before the event to the state after it. */
module BudgetApp {
  import opened Wrappers
  import opened Records
  import opened Ledger
  import opened Overrides

  /** The ledger, the draft item being typed, the summary (absent until first
      computed) and whether the summary is shown as editable inputs. */
  datatype Session = Session(items: seq<Item>, draft: Item, budget: Option<Summary>, editing: bool)

  /** The state a session starts in */
  const Initial: Session := Session([], EmptyDraft, None, false)

  /** Fixed-decimal rounding of a value to a number of decimal places. The form
      formats averages with binary floating point; the model takes that rounding
      as a parameter and assumes nothing about it. */
  type Rounding = (real, nat) -> real

  /** Decimal places each average is rounded to: one for time and complexity,
      two for cost. */
  function Places(m: Metric): nat {
    match m
    case Time => 1
    case Complexity => 1
    case Cost => 2
  }

  /** A rounding that leaves whole numbers alone, as any fixed-decimal formatting does */
  ghost predicate KeepsWholeNumbers(round: Rounding) {
    forall x: real, p: nat :: x.Floor as real == x ==> round(x, p) == x
  }

  /** Adds the draft to the end of the ledger and clears the draft; a draft with
      an empty name is refused and nothing changes. */
  function AddItem(s: Session): (r: Session)
    ensures s.draft.name == "" ==> r == s
    ensures s.draft.name != "" ==>
      && |r.items| == |s.items| + 1
      && r.items[..|s.items|] == s.items
      && r.items[|s.items|] == s.draft
      && r.draft == EmptyDraft
      && r.budget == s.budget
      && r.editing == s.editing
  {
    if s.draft.name == "" then s
    else s.(items := s.items + [s.draft], draft := EmptyDraft)
  }

  /** Replaces the summary by the per-column averages of the ledger, rounded, and
      leaves edit mode; on an empty ledger nothing changes. */
  function CalculateBudget(s: Session, round: Rounding): (r: Session)
    ensures |s.items| == 0 ==> r == s
    ensures |s.items| > 0 ==>
      && r.items == s.items
      && r.draft == s.draft
      && !r.editing
      && r.budget.Some?
      && forall m :: r.budget.value.Get(m) == round(Total(s.items, m) / (|s.items| as real), Places(m))
  {
    if |s.items| == 0 then s
    else
      var avg := Summary(round(Mean(s.items, Time), Places(Time)),
                         round(Mean(s.items, Complexity), Places(Complexity)),
                         round(Mean(s.items, Cost), Places(Cost)));
      s.(budget := Some(avg), editing := false)
  }

  /** Applies a manual override to the shown summary; nothing but the summary changes. */
  function UpdateBudget(s: Session, f: Field, v: real): (r: Session)
    requires s.budget.Some?
    ensures r.items == s.items && r.draft == s.draft && r.editing == s.editing
    ensures r.budget.Some?
    ensures f.Column? ==> r.budget.value.Get(f.metric) == v
    ensures f.Other? ==> r == s
  {
    s.(budget := Some(Override(s.budget.value, f, v)))
  }

  /** Switches between showing the summary and editing it. */
  function ToggleEditing(s: Session): (r: Session)
    ensures r.editing != s.editing
    ensures r.items == s.items && r.draft == s.draft && r.budget == s.budget
  {
    s.(editing := !s.editing)
  }

  /** A keystroke in one of the draft's four inputs */
  datatype DraftEdit = Rename(name: string) | SetColumn(metric: Metric, value: real)

  /** Replaces one input of the draft; nothing else changes. */
  function EditDraft(s: Session, e: DraftEdit): (r: Session)
    ensures r.items == s.items && r.budget == s.budget && r.editing == s.editing
    ensures e.Rename? ==> r.draft.name == e.name && forall m :: r.draft.Get(m) == s.draft.Get(m)
    ensures e.SetColumn? ==> r.draft == s.draft.With(e.metric, e.value)
  {
    match e
    case Rename(n) => s.(draft := s.draft.(name := n))
    case SetColumn(m, v) => s.(draft := s.draft.With(m, v))
  }

  /** The events the form can raise */
  datatype Action = Edit(edit: DraftEdit) | Add | Calculate | Update(field: Field, value: real) | Toggle

  /** Whether the form offers the control for `a` in state `s`: the override inputs
      exist only while a summary is shown in edit mode, the edit toggle only while
      a summary is shown. */
  predicate Enabled(s: Session, a: Action) {
    match a
    case Update(_, _) => s.budget.Some? && s.editing
    case Toggle => s.budget.Some?
    case _ => true
  }

  /** The state after event `a` */
  function Step(s: Session, a: Action, round: Rounding): Session
    requires Enabled(s, a)
  {
    match a
    case Edit(e) => EditDraft(s, e)
    case Add => AddItem(s)
    case Calculate => CalculateBudget(s, round)
    case Update(f, v) => UpdateBudget(s, f, v)
    case Toggle => ToggleEditing(s)
  }

  /** The state after a sequence of events, or None when some event is not offered
      by the form at the point it occurs. */
  function Run(s: Session, actions: seq<Action>, round: Rounding): Option<Session>
    decreases |actions|
  {
    if |actions| == 0 then Some(s)
    else if !Enabled(s, actions[0]) then None
    else Run(Step(s, actions[0], round), actions[1..], round)
  }

  /** What holds of every state the form can reach: every ledger item has a name,
      a summary exists only once the ledger is non-empty, and edit mode is only
      on while a summary exists. */
  predicate Valid(s: Session) {
    && (forall i :: 0 <= i < |s.items| ==> s.items[i].name != "")
    && (s.budget.Some? ==> |s.items| > 0)
    && (s.editing ==> s.budget.Some?)
  }

  /** Every offered event keeps the state valid, and never removes a summary or an item. */
  lemma StepPreservesValid(s: Session, a: Action, round: Rounding)
    requires Valid(s) && Enabled(s, a)
    ensures Valid(Step(s, a, round))
    ensures s.items <= Step(s, a, round).items
    ensures s.budget.Some? ==> Step(s, a, round).budget.Some?
  {
  }

  /** A run from a valid state that the form accepts ends in a valid state whose
      ledger extends the starting one. */
  lemma {:induction false} RunPreservesValid(s: Session, actions: seq<Action>, round: Rounding)
    requires Valid(s)
    ensures Run(s, actions, round).Some? ==> Valid(Run(s, actions, round).value)
    ensures Run(s, actions, round).Some? ==> s.items <= Run(s, actions, round).value.items
    decreases |actions|
  {
    if |actions| > 0 && Enabled(s, actions[0]) {
      StepPreservesValid(s, actions[0], round);
      RunPreservesValid(Step(s, actions[0], round), actions[1..], round);
    }
  }

  /** Every state reachable from the initial one is valid. */
  lemma ReachableIsValid(actions: seq<Action>, round: Rounding)
    ensures Run(Initial, actions, round).Some? ==> Valid(Run(Initial, actions, round).value)
  {
    RunPreservesValid(Initial, actions, round);
  }

  /** Toggling edit mode twice restores the session. */
  lemma ToggleTwice(s: Session)
    ensures ToggleEditing(ToggleEditing(s)) == s
  {
  }

  /** Computing the summary twice in a row is the same as computing it once. */
  lemma CalculateIdempotent(s: Session, round: Rounding)
    ensures CalculateBudget(CalculateBudget(s, round), round) == CalculateBudget(s, round)
  {
  }

  /** Recomputing after a manual override discards the override: the result is what
      computing would have given without it. */
  lemma CalculateDiscardsOverride(s: Session, f: Field, v: real, round: Rounding)
    requires s.budget.Some? && |s.items| > 0
    ensures CalculateBudget(UpdateBudget(s, f, v), round) == CalculateBudget(s, round)
  {
  }

  /** Adding an item and recomputing moves each unrounded average to the old sum
      plus the draft's value, over the grown count. */
  lemma AddThenCalculate(s: Session, round: Rounding)
    requires s.draft.name != ""
    ensures forall m ::
      CalculateBudget(AddItem(s), round).budget.value.Get(m)
        == round((Total(s.items, m) + s.draft.Get(m)) / ((|s.items| + 1) as real), Places(m))
  {
    forall m {
      MeanAfterAppend(s.items, s.draft, m);
    }
  }

  /** Every average stays within the range of the ledger's values before rounding:
      if all items' column `m` lies in [lo, hi], so does the unrounded average. */
  lemma CalculateWithinRange(s: Session, m: Metric, lo: real, hi: real)
    requires |s.items| > 0
    requires forall i :: 0 <= i < |s.items| ==> lo <= s.items[i].Get(m) <= hi
    ensures CalculateBudget(s, (x, p) => x).budget.value.Get(m) == Mean(s.items, m)
    ensures lo <= CalculateBudget(s, (x, p) => x).budget.value.Get(m) <= hi
  {
    MeanBounds(s.items, m, lo, hi);
  }

  /** Two items averaging to time 5, complexity 3 and cost 1000. */
  lemma AveragingExample(round: Rounding)
    requires KeepsWholeNumbers(round)
    ensures
      var s := Session([Item("a", 4.0, 2.0, 800.0), Item("b", 6.0, 4.0, 1200.0)], EmptyDraft, None, false);
      CalculateBudget(s, round).budget == Some(Summary(5.0, 3.0, 1000.0))
  {
    var items := [Item("a", 4.0, 2.0, 800.0), Item("b", 6.0, 4.0, 1200.0)];
    assert items[..1] == [items[0]];
    assert items[..1][..0] == [];
    assert Total(items, Time) == 10.0;
    assert Total(items, Complexity) == 6.0;
    assert Total(items, Cost) == 2000.0;
    assert (5.0).Floor as real == 5.0;
    assert (3.0).Floor as real == 3.0;
    assert (1000.0).Floor as real == 1000.0;
  }
}
