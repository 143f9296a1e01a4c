# D&D spell finder: record normaliser, range filter and Proficiency die

A Dafny model of three small pieces of logic from a browser table for Dungeons & Dragons 5e spells:

- **The spell row builder** (`mapSpellJsonToSpell`). It turns a raw JSON spell record into a display row. Three integer codes are looked up as names. Every other field is copied, and the `link` field is dropped. The display `source` is looked up from the record's *school* code. The model keeps this as written and also gives the evidently intended variant (see Findings).
- **The range column's checkbox filter**. This is the grid filter-plugin object behind the Range column. It keeps a selection of range codes and provides `isFilterActive`, `getModel`, `setModel`, `doesFilterPass`, the All/None buttons and a checkbox handler. It is a class with a `seq<int>` field and mutating methods. On top of it, a value-level action model (`Step`, `Run`) shows how sequences of user and grid actions combine. The class and the action model are tied together by `Perform`.
- **The Proficiency die**. This is a twelve-sided die of the Edge of the Empire dice set. Its face value maps to a list of result symbols.

Modules: `Wrappers` (Option), `Spells`, `NumberBasedFilter` (the shared filter helpers, as assumptions), `RangeFilters`, `ProficiencyDice`.

Several helpers are not part of this model. They are represented as follows:

- **Lookup tables** (`enums/schools`, `enums/casting-times`, `enums/sources`): the function-valued fields of `Spells.EnumNames`. Every statement holds for every choice of tables, except the counterexample, which picks its own tables.
- **`numberBasedFilterIsFilterActive`**: assumed to be "active iff the selection's length differs from the all-array's length" (`NumberBasedFilter.IsFilterActive`).
- **`createDisabledFilterArray(25)`**: assumed to return an array of length 25 (`RangeFilters.RangeFilter.Valid`, required by the constructor). Its contents stay a parameter.
- **`numberBasedFilterDoesFilterPass` and `numberBasedFilterHandleCheck`**: function parameters (`PassHelper`, `CheckHelper`).
- **`numberBasedFilterHandleCheck` does not change its array argument in place**: the source hands it the current selection and the state setter (`range-filter.tsx:88-92`). The model treats it as a pure function from the old selection to the new one. This matters because the selection is often the single module-level `filterDisabledArray` itself (`range-filter.tsx:32`, installed by reference at `:37` and `:79`). If the helper mutated that array, later "select all" results would change too. Then the 25-entry all-array that `Valid` and `SelectAllRanges` rely on, `LaterResetErasesHistory` and `ResetSynchronises` would not hold of the source.

`setModel` with no model, or with a model that has no value, installs the empty selection (`range-filter.tsx:67`), not the full one. So it does not undo `getModel` on an inactive filter (`SaveRestoreRoundTrip`).

## Model

| member | source | states |
|---|---|---|
| `Spells.MapSpellJsonToSpell` | src/types/spell-json.ts:33-53 | Total, with no failure path. The row agrees with the record on all fourteen copied fields. `school` and `castingTime` are the table names of their codes. `source` is the source-table name of the school code. |
| `Spells.AbsentStaysAbsent` | src/types/spell-json.ts:39-51 | Each optional field is absent in the row exactly when it is absent in the record. No default is substituted. |
| `Spells.SourceCodeNeverRead` | src/types/spell-json.ts:28-50 | Two records that differ only in `source` give identical rows. |
| `Spells.LinkNeverRead` | src/types/spell-json.ts:30-53 | Two records that differ only in `link` give identical rows, so `link` never reaches the output. |
| `Spells.RowDeterminedByCopiedFieldsAndCodes` | src/types/spell-json.ts:33-53 | The row depends only on the copied fields and the school and casting-time codes. |
| `Spells.SourceFromSchoolCounterexample` | src/types/spell-json.ts:50 | There exist tables and a record (school 1, source 0) for which the row's source is not the name of the record's source code. |
| `Spells.MapSpellJsonToSpellIntended` | src/types/spell-json.ts:33-53 | Corrected normaliser. The same copied and mapped fields as the as-written one, but `source` is the name of the record's source code. |
| `Spells.IntendedSourceFollowsSourceCode` | src/types/spell-json.ts:50 | In the corrected normaliser the source name does not depend on the school code. |
| `RangeFilters.RangeFilter.constructor` | src/components/filters/range-filter/range-filter.tsx:32-37 | A new filter starts with the 25-entry all-array as its selection. It is inactive and `getModel` gives null. |
| `RangeFilters.RangeFilter.IsFilterActive` | src/components/filters/range-filter/range-filter.tsx:51-56 | Active exactly when the selection does not have 25 entries. Its contents play no part. |
| `RangeFilters.RangeFilter.GetModel` | src/components/filters/range-filter/range-filter.tsx:58-64 | Null exactly when the filter is inactive. Otherwise it is `{value}` holding the current selection. |
| `RangeFilters.RangeOf` | src/components/filters/range-filter/range-filter.tsx:46 | `props?.data?.range`: present only when the props, their data and the range are all present, and then it is the data's range. |
| `RangeFilters.SelectionFromModel` | src/components/filters/range-filter/range-filter.tsx:67 | `model?.value ?? []`: the model's value when there is a model with a value, and otherwise the empty selection. |
| `RangeFilters.RangeFilter.DoesFilterPass` | src/components/filters/range-filter/range-filter.tsx:44-49 | The verdict is the shared helper's, evaluated on the row's range (`RangeOf`) and the current selection. |
| `RangeFilters.RangeFilter.SetModel` | src/components/filters/range-filter/range-filter.tsx:66-68 | The selection becomes the model's value. A null model or a model without a value leaves it empty, and the filter is then active. |
| `RangeFilters.RangeFilter.SelectAllRanges` | src/components/filters/range-filter/range-filter.tsx:78-81 | The selection becomes the all-array. The filter is inactive and reports no model. |
| `RangeFilters.RangeFilter.SelectNoRanges` | src/components/filters/range-filter/range-filter.tsx:83 | The selection becomes empty. The filter is active and reports `{value: []}`. |
| `RangeFilters.RangeFilter.HandleCheck` | src/components/filters/range-filter/range-filter.tsx:85-95 | The selection becomes what the shared check helper computes from the old selection and the box's `data-range` attribute. |
| `RangeFilters.ActivityDependsOnlyOnLength` | src/components/filters/range-filter/range-filter.tsx:51-56 | Two filters whose selections have equal length agree on being active. |
| `RangeFilters.DoesFilterPassReadsOnlyRange` | src/components/filters/range-filter/range-filter.tsx:44-49 | Two filters with the same selection give rows with the same `data.range` the same verdict. Nothing else in the row or the filter is read. |
| `RangeFilters.SaveRestoreRoundTrip` | src/components/filters/range-filter/range-filter.tsx:58-68 | `setModel(getModel())` keeps an active selection. It empties an inactive one, which always differs from the result. |
| `RangeFilters.LaterResetErasesHistory` | src/components/filters/range-filter/range-filter.tsx:66-83 | After any action other than a checkbox change, the outcome of a run no longer depends on the selection or actions before it. |
| `RangeFilters.ResetSynchronises` | src/components/filters/range-filter/range-filter.tsx:66-83 | Two filters fed the same actions, from any starting selections, end equal once the actions contain a reset. |
| `RangeFilters.Perform` | src/components/filters/range-filter/range-filter.tsx:66-95 | Each class method leaves the selection that the action model's `Step` predicts. |
| `ProficiencyDice.MapValueToResults` | src/classes/edge-of-the-empire-dice/proficiency-die.ts:16-53 | At most two symbols. The result is non-empty exactly for values 1 to 12, the die's 12 sides (passed to the base at construction). Blank shows only on face 1 and Triumph only on face 12. |
| `ProficiencyDice.FaceTable` | src/classes/edge-of-the-empire-dice/proficiency-die.ts:21-52 | Face by face: 1 shows Blank, 2–3 Success, 4–5 two Successes, 6 Advantage, 7–9 Success and Advantage, 10–11 two Advantages, 12 Triumph. Any other value, or none, shows nothing. |

## Left out

- JSX, the checkbox list, `isChecked` and the `useEffect` that calls `filterChangedCallback` on every selection change: view and framework behaviour.
- The contents of the lookup tables and of the all-array, and the bodies of the shared filter helpers: their source is not part of this model. They enter only as parameters or as the named assumptions above.
- `RangeFilters.RangeFilter.DoesFilterPass`: its verdict is the shared helper's. The model proves only which inputs it reads, not which rows pass.
- `RangeFilters.RangeFilter.HandleCheck`: the helper's toggling of the checked code is not modelled, because its source is not part of this model.
- Render timing: `setSelectedRanges` takes effect only at the next render. Until then, the `getModel`, `isFilterActive` and `doesFilterPass` closures built at `range-filter.tsx:43-76` still read the previous selection. The model applies every update at once. So the `IsFilterActive()` and `GetModel()` postconditions of `SetModel`, `SelectAllRanges` and `SelectNoRanges` describe the filter after that render, not in between.
- Grid rows: the views build their rows with `buildRow` (`types/table-row`), whose source is not part of this model. The model stands in the display `Spell` record for a row's data, because it carries the `range` field that the filter reads.
- JavaScript numbers are modelled as unbounded integers. A non-integer or `NaN` die value, or spell level, is not modelled.
- The number-die base class: it is not part of this model. Its handling of an absent value and its random rolling are left out, and the die holds whatever value it was given.
- The other members of the dice colour and symbol enumerations: not part of this model.
- The settings panel, the app shell and the table host: view glue.

## Findings

| source | as written | input that shows it | evidently intended | confidence | as-written member | corrected member |
|---|---|---|---|---|---|---|
| src/types/spell-json.ts:50 | `source` is looked up from `json.school` | a record with school 1 and source 0, with tables that name code 1 differently | `source` looked up from `json.source` | high; not executed | `Spells.SourceFromSchoolCounterexample` | `Spells.MapSpellJsonToSpellIntended` |

Neither view calls `mapSpellJsonToSpell`: `app.tsx:38` and `components/table/index.tsx:77` build their rows with `buildRow` from `types/table-row`, whose source is not part of this model. So no other part of this model consumes either variant. `Spells.MapSpellJsonToSpell` stays the as-written model.
