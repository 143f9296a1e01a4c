/**
 * The range column's checkbox filter (src/components/filters/range-filter/range-filter.tsx)
 * with its JSX and React lifecycle stripped: the selection it keeps and the
 * grid's filter-plugin operations over it.
 */
module RangeFilters {
  import opened Wrappers
  import opened Spells
  import NumberBasedFilter

  /** The argument of `createDisabledFilterArray`: the number of range options. */
  const RangeOptionCount: nat := 25

  /** What the grid passes to `doesFilterPass`: a row whose data may be absent. */
  datatype FilterProps = FilterProps(data: Option<Spell>)

  /** `numberBasedFilterDoesFilterPass` (not part of this model): from a row's range and the selection to a verdict. */
  type PassHelper = (Option<RangeValue>, seq<int>) -> bool

  /**
   * `numberBasedFilterHandleCheck` (not part of this model): from the selection
   * and a checkbox's `data-range` attribute to the new selection.
   * ASSUMPTION: it builds a new selection and never changes the one it is
   * given in place (which may be the shared "all" array).
   */
  type CheckHelper = (seq<int>, Option<string>) -> seq<int>

  /** `props?.data?.range`: the range of the row's data, absent when the props, the data or the range are. */
  function RangeOf(props: Option<FilterProps>): (r: Option<RangeValue>)
    ensures r.Some? <==> props.Some? && props.value.data.Some? && props.value.data.value.range.Some?
    ensures r.Some? ==> r == props.value.data.value.range
  {
    if props.Some? && props.value.data.Some? then props.value.data.value.range else None
  }

  /** `model?.value ?? []`: the selection that `setModel` installs. */
  function SelectionFromModel(model: Option<NumberBasedFilter.FilterModel>): (r: seq<int>)
    ensures model.Some? && model.value.value.Some? ==> r == model.value.value.value
    ensures model.None? || model.value.value.None? ==> r == []
  {
    if model.Some? && model.value.value.Some? then model.value.value.value else []
  }

  class RangeFilter {
    /** The module-level `filterDisabledArray`, the "every range selected" selection. */
    const filterDisabledArray: seq<int>
    /** The component's `selectedRanges` state. */
    var selectedRanges: seq<int>

    /** ASSUMPTION (createDisabledFilterArray): the "all" array has one entry per range option. */
    ghost predicate Valid() {
      |filterDisabledArray| == RangeOptionCount
    }

    /** A fresh filter starts with every range selected, so it is inactive and reports no model. */
    constructor (filterDisabledArray: seq<int>)
      requires |filterDisabledArray| == RangeOptionCount
      ensures Valid()
      ensures this.filterDisabledArray == filterDisabledArray
      ensures selectedRanges == filterDisabledArray
      ensures !IsFilterActive() && GetModel().None?
    {
      this.filterDisabledArray := filterDisabledArray;
      selectedRanges := filterDisabledArray;
    }

    /** Active exactly when the selection does not have 25 entries, whatever they are. */
    function IsFilterActive(): (active: bool)
      requires Valid()
      reads this
      ensures active <==> |selectedRanges| != RangeOptionCount
    {
      NumberBasedFilter.IsFilterActive(|selectedRanges|, |filterDisabledArray|)
    }

    /** No model exactly when the filter is inactive; otherwise the model carries the current selection. */
    function GetModel(): (model: Option<NumberBasedFilter.FilterModel>)
      requires Valid()
      reads this
      ensures model.None? <==> !IsFilterActive()
      ensures model.Some? ==> model.value.value == Some(selectedRanges)
    {
      if !IsFilterActive() then None else Some(NumberBasedFilter.FilterModel(Some(selectedRanges)))
    }

    /** The verdict for one row, from that row's range and the current selection only. */
    function DoesFilterPass(pass: PassHelper, props: Option<FilterProps>): (verdict: bool)
      reads this
      ensures verdict == pass(RangeOf(props), selectedRanges)
    {
      pass(RangeOf(props), selectedRanges)
    }

    /** Installs the model's value as the selection; no model, or a model without a value, empties it. */
    method SetModel(model: Option<NumberBasedFilter.FilterModel>)
      requires Valid()
      modifies this`selectedRanges
      ensures selectedRanges == SelectionFromModel(model)
      ensures model.Some? && model.value.value.Some? ==> selectedRanges == model.value.value.value
      ensures model.None? || model.value.value.None? ==> selectedRanges == [] && IsFilterActive()
    {
      selectedRanges := SelectionFromModel(model);
    }

    /** The "All" button: every range selected, so the filter is inactive. */
    method SelectAllRanges()
      requires Valid()
      modifies this`selectedRanges
      ensures selectedRanges == filterDisabledArray
      ensures !IsFilterActive() && GetModel().None?
    {
      selectedRanges := filterDisabledArray;
    }

    /** The "None" button: nothing selected, so the filter is active and reports the empty selection. */
    method SelectNoRanges()
      requires Valid()
      modifies this`selectedRanges
      ensures selectedRanges == []
      ensures IsFilterActive() && GetModel() == Some(NumberBasedFilter.FilterModel(Some([])))
    {
      selectedRanges := [];
    }

    /** A checkbox change: the selection becomes whatever the shared helper computes from it and the box's `data-range`. */
    method HandleCheck(check: CheckHelper, dataRange: Option<string>)
      requires Valid()
      modifies this`selectedRanges
      ensures selectedRanges == check(old(selectedRanges), dataRange)
    {
      selectedRanges := check(selectedRanges, dataRange);
    }
  }

  /** Whether the filter is active depends on the selection's length and on nothing else it holds. */
  lemma ActivityDependsOnlyOnLength(f: RangeFilter, g: RangeFilter)
    requires f.Valid() && g.Valid()
    requires |f.selectedRanges| == |g.selectedRanges|
    ensures f.IsFilterActive() == g.IsFilterActive()
  {
  }

  /** `doesFilterPass` reads only the row's range and the selection: filters with the same selection give rows with the same range the same verdict. */
  lemma DoesFilterPassReadsOnlyRange(f: RangeFilter, g: RangeFilter, pass: PassHelper, a: Option<FilterProps>, b: Option<FilterProps>)
    requires f.selectedRanges == g.selectedRanges
    requires RangeOf(a) == RangeOf(b)
    ensures f.DoesFilterPass(pass, a) == g.DoesFilterPass(pass, b)
  {
  }

  /**
   * Saving with `getModel` and restoring with `setModel` keeps an active
   * selection but empties an inactive one: it is no inverse of `getModel`.
   */
  lemma SaveRestoreRoundTrip(f: RangeFilter)
    requires f.Valid()
    ensures SelectionFromModel(f.GetModel()) == if f.IsFilterActive() then f.selectedRanges else []
    ensures !f.IsFilterActive() ==> SelectionFromModel(f.GetModel()) != f.selectedRanges
  {
  }

  /** One thing that can happen to the selection: a button, a grid `setModel` call or a checkbox change. */
  datatype Action = AllRanges | NoRanges | RestoreModel(model: Option<NumberBasedFilter.FilterModel>) | CheckBox(dataRange: Option<string>)

  /** The selection after one action, as the class's methods leave it. */
  function Step(check: CheckHelper, disabled: seq<int>, current: seq<int>, action: Action): seq<int> {
    match action
    case AllRanges => disabled
    case NoRanges => []
    case RestoreModel(model) => SelectionFromModel(model)
    case CheckBox(dataRange) => check(current, dataRange)
  }

  /** The selection after a sequence of actions. */
  function Run(check: CheckHelper, disabled: seq<int>, current: seq<int>, actions: seq<Action>): seq<int>
    decreases |actions|
  {
    if actions == [] then current
    else Run(check, disabled, Step(check, disabled, current, actions[0]), actions[1..])
  }

  /**
   * Every action but a checkbox change overwrites the selection wholesale: after
   * such a reset at position k, the outcome no longer depends on anything that
   * came before it, only on the reset and the actions after it.
   */
  lemma {:induction false} LaterResetErasesHistory(check: CheckHelper, disabled: seq<int>, current: seq<int>,
                                                   actions: seq<Action>, k: nat)
    requires k < |actions| && !actions[k].CheckBox?
    ensures Run(check, disabled, current, actions)
         == Run(check, disabled, Step(check, disabled, [], actions[k]), actions[k + 1..])
    decreases k
  {
    if k > 0 {
      var next := Step(check, disabled, current, actions[0]);
      LaterResetErasesHistory(check, disabled, next, actions[1..], k - 1);
      assert actions[1..][k - 1] == actions[k];
      assert actions[1..][k..] == actions[k + 1..];
    }
  }

  /** Two filters that see the same actions agree from the first reset on, whatever their starting selections. */
  lemma ResetSynchronises(check: CheckHelper, disabled: seq<int>, s: seq<int>, t: seq<int>,
                          actions: seq<Action>, k: nat)
    requires k < |actions| && !actions[k].CheckBox?
    ensures Run(check, disabled, s, actions) == Run(check, disabled, t, actions)
  {
    LaterResetErasesHistory(check, disabled, s, actions, k);
    LaterResetErasesHistory(check, disabled, t, actions, k);
  }

  /** The class and the action model agree: each action, performed on a filter, leaves the selection `Step` predicts. */
  method Perform(f: RangeFilter, check: CheckHelper, action: Action)
    requires f.Valid()
    modifies f`selectedRanges
    ensures f.selectedRanges == Step(check, f.filterDisabledArray, old(f.selectedRanges), action)
  {
    match action {
      case AllRanges => f.SelectAllRanges();
      case NoRanges => f.SelectNoRanges();
      case RestoreModel(model) => f.SetModel(model);
      case CheckBox(dataRange) => f.HandleCheck(check, dataRange);
    }
  }
}
