/**
 * The shared checkbox-filter helpers (utility/filters/number-based-filter).
 * Their source is not part of this model; this module holds the types they
 * exchange and the one behaviour the range filter's properties rest on,
 * written down as a named assumption.
 */
module NumberBasedFilter {
  import opened Wrappers

  /**
   * The model a filter exchanges with the grid: `{ value }`, where the grid
   * may hand `setModel` no object at all or an object without a value.
   */
  datatype FilterModel = FilterModel(value: Option<seq<int>>)

  /**
   * ASSUMPTION (numberBasedFilterIsFilterActive): a filter is active exactly
   * when the number of selected options differs from the length of the
   * "all options" array; the contents of the selection play no part.
   */
  predicate IsFilterActive(selectedLength: nat, disabledLength: nat) {
    selectedLength != disabledLength
  }
}
