/** The filter widgets: a select with an "All" option, checkboxes that
    toggle a value in a selection, and a pair of price inputs. */
module FilterComponents {
  import opened Base

  // ---------------------------------------------------------------------
  // SelectFilter

  datatype SelectOption = SelectOption(value: string, text: string)

  const ALL_TEXT := "All"

  /** The rendered options: the empty value labelled "All", then one per option. */
  function SelectOptions(options: seq<string>): (r: seq<SelectOption>)
    ensures |r| == |options| + 1
    ensures r[0] == SelectOption("", ALL_TEXT)
    ensures forall i :: 0 <= i < |options| ==> r[i + 1] == SelectOption(options[i], options[i])
  {
    [SelectOption("", ALL_TEXT)] + seq(|options|, i requires 0 <= i < |options| => SelectOption(options[i], options[i]))
  }

  // ---------------------------------------------------------------------
  // CheckboxFilter

  function Other(v: string): string -> bool
  {
    (x: string) => x != v
  }

  /** `toggle`: drop every occurrence of a selected value, or append an
      unselected one. */
  function Toggle(selected: seq<string>, v: string): seq<string>
  {
    if v in selected then Filter(selected, Other(v)) else selected + [v]
  }

  /** A toggle flips the value's membership and leaves every other value's
      membership alone; an unselected value goes to the end, and a selected
      one is removed with the others kept in order. */
  lemma ToggleSpec(selected: seq<string>, v: string)
    ensures v in Toggle(selected, v) <==> v !in selected
    ensures forall x :: x != v ==> (x in Toggle(selected, v) <==> x in selected)
    ensures v !in selected ==> Toggle(selected, v) == selected + [v]
    ensures v in selected ==> Subsequence(Toggle(selected, v), selected)
  {
    FilterIsSubsequence(selected, Other(v));
  }

  /** Toggling an unselected value twice restores the selection. */
  lemma ToggleTwice(selected: seq<string>, v: string)
    requires v !in selected
    ensures Toggle(Toggle(selected, v), v) == selected
  {
    FilterAppend(selected, [v], Other(v));
    FilterAll(selected, Other(v));
    assert Filter([v], Other(v)) == [];
  }

  datatype Checkbox = Checkbox(option: string, checked: bool)

  /** One checkbox per option, in order, checked when selected. */
  function Checkboxes(options: seq<string>, selected: seq<string>): (r: seq<Checkbox>)
    ensures |r| == |options|
    ensures forall i :: 0 <= i < |options| ==> r[i].option == options[i] && (r[i].checked <==> options[i] in selected)
  {
    seq(|options|, i requires 0 <= i < |options| => Checkbox(options[i], options[i] in selected))
  }

  /** Clicking a box flips that box and no other. */
  lemma ClickFlipsOneBox(options: seq<string>, selected: seq<string>, k: nat)
    requires k < |options|
    requires forall i, j :: 0 <= i < j < |options| ==> options[i] != options[j]
    ensures var before := Checkboxes(options, selected);
      var after := Checkboxes(options, Toggle(selected, options[k]));
      after[k].checked == !before[k].checked &&
      forall i :: 0 <= i < |options| && i != k ==> after[i] == before[i]
  {
    ToggleSpec(selected, options[k]);
  }

  // ---------------------------------------------------------------------
  // PriceRangeFilter

  /** The min input's change: the new minimum with the current maximum. */
  function EditMin(value: (int, int), min: int): (int, int)
  {
    (min, value.1)
  }

  /** The max input's change. */
  function EditMax(value: (int, int), max: int): (int, int)
  {
    (value.0, max)
  }
}
