# Benefits-cliff dashboard: a verified model of the cliff pipeline and its bookkeeping

The dashboard compares what a family keeps ("net resources") as its income grows. The simulator
hands it a table: one column of net resources and one column per benefit program. A *benefits
cliff* is a row where a benefit phases out, because its column drops back to zero, at the same
time as the slope of the net-resources curve has a sharp local minimum.

This project models in Dafny the three utility modules that find these cliffs and prepare them for
display:

- **Detection** (`utils/utils.py`)
  - Selects the candidate benefit columns.
  - Scans each column for returns to zero.
  - Selects the strict local minima of a given slope sequence.
  - Builds the cliff dictionary in peak or valley mode.
  - Merges dictionaries.
- **DashUtils** (`utils/utils_dash.py`)
  - The ordinal labels.
  - The job dropdown options.
  - Folds the submitted Dash form states into a beneficiary-profile dictionary, including the
    deduplicated "county, state" locations.
- **Plotting** (`utils/plotting.py`)
  - Pads the curve names.
  - Looks up the benefit display table.
  - Builds the per-row lists of lost benefits and the hover texts from them.
  - Orders and shows the benefit traces with the cliff columns first.
  - Handles the group colours of a multi-curve plot.
- **Legend** (`utils/plotting.py`): the HTML text of a profile legend.

The code's loops are methods. Most of them are proved against specification functions:
- `FindZeroIntercepts` and `FindBenefitsCliffs` in Detection.
- `ExtractBenDict` in DashUtils.
- `CliffPeaks`, which fills an array in place, in Plotting.
- `ProfileLegendText` in Legend.

The other loop methods state their results directly:
- `CombineDicts` in Detection.
- `ListOrdinals` in DashUtils.
- `HoverTexts`, `MarkCliffRows`, `BenefitTraces` and `PlotMultiColors` in Plotting.
- `AppendMember` and `AppendBenefits` in Legend.

The comprehensions are functions. The properties the code relies on are lemmas about those
functions.

Table values and slopes are `real`. Python's `in` on a string is `Basics.Contains`, which means
substring. A Python exception is the `Err` case of a `Result`:
- a KeyError from a lookup in the display table or the colour map;
- a KeyError for a grouping column the table lacks;
- a KeyError for an occupation group missing from the job dictionary;
- the TypeError from `in` on a number or None;
- the TypeError from `', '.join` on a county or state value that is not a string;
- the exception for an unknown cliff mode;
- the Warning for an unknown grouping column.

## Model

| member | source | states |
|---|---|---|
| Detection.CombineDicts | utils/utils.py:16-20 | every key of any input is in the result, and its value comes from the last input that has it |
| Detection.ZeroCrossings | utils/utils.py:38-53 | row i is reported iff i > 0, ls[i] is zero and ls[i-1] is not; the rows are strictly ascending, never 0, and inside the column |
| Detection.FindZeroIntercepts | utils/utils.py:38-53 | the two-state scan with the `on_zero` flag returns exactly ZeroCrossings(ls) |
| Detection.AllZeroNoCrossings | utils/utils.py:42-51 | an empty or all-zero column has no crossing |
| Detection.LocalMinimaBelow | utils/utils.py:33 | argrelextrema with np.less: row i is reported iff both neighbours exist and are strictly larger; ascending |
| Detection.Positive | utils/utils.py:34-35 | the non_negative filter keeps exactly the indices above 0 and keeps the order ascending |
| Detection.FindDerivativeMinima | utils/utils.py:29-36 | reported rows are exactly the strict local minima of the slopes; endpoints are never reported; ascending |
| Detection.PositiveKeepsAll | utils/utils.py:35 | the filter removes nothing from a list of positive indices |
| Detection.NonNegativeFilterIsNoOp | utils/utils.py:33-35 | with non_negative true or false the minima are the same, since row 0 is never a minimum |
| Detection.FilterBenefits | utils/utils.py:58-66 | a column is kept iff its name contains "value", it has both a zero and a non-zero entry, and it passes the EITC/CTC exclusions; kept columns stay in table order |
| Detection.NoCtcExcludesCdctc | utils/utils.py:64-65 | excluding CTC also drops every "cdctc" column |
| Detection.FilterAgain | utils/utils.py:91 | filtering an already filtered table with weaker exclusions changes nothing, so re-filtering inside find_benefits_cliffs is harmless |
| Detection.MatchedCrossings | utils/utils.py:96 | x is reported iff x = z - offset for a crossing z with e <= z <= e+1 for some minimum e |
| Detection.MatchedCrossingsAbove | utils/utils.py:96 | crossings above a bound give reported rows above the bound minus the offset |
| Detection.MatchedCrossingsAscending | utils/utils.py:96 | ascending crossings give ascending cliff lists |
| Detection.FindBenefitsCliffs | utils/utils.py:69-100 | "peak" gives offset 1 and "valley" gives offset 0; any other mode is an error before any column is examined; the columns are re-filtered without EITC |
| Detection.CliffMap | utils/utils.py:92-98 | the dictionary built column by column has no more entries than there are columns, and every entry's cliff list is non-empty; `CliffMapEntries` and `CliffKeysInColumnOrder` add that each entry comes from its own column, in column order |
| Detection.CliffMapEntries | utils/utils.py:94-98 | every entry has a non-empty ascending list from its column; every column with a match has an entry |
| Detection.CliffKeysInColumnOrder | utils/utils.py:94-98 | the dictionary keys follow the order of the selected columns |
| Detection.CliffIndexBounds | utils/utils.py:84-98 | every reported row lies in [1 - offset, rows - 1 - offset], so within the table in both modes |
| Detection.MatchedShift | utils/utils.py:96 | for one column, the peak list is the valley list minus 1, element by element |
| Detection.PeakIsValleyMinusOne | utils/utils.py:84-98 | the peak dictionary has the same keys as the valley dictionary, and each of its lists is the valley list minus 1, element by element |
| Detection.CliffsExcludeEitc | utils/utils.py:91 | no key of the cliff dictionary contains "eitc" |
| DashUtils.ListOrdinals | utils/utils_dash.py:8-12 | First to Sixth, lower-cased in place when asked; six entries either way |
| DashUtils.LowerOrdinals | utils/utils_dash.py:11 | str.lower of each ordinal is its lower-case spelling |
| DashUtils.LoadTargetJobOptions | utils/utils_dash.py:116-123 | one option per job, label and value both the job, same order and length; an unknown group is a KeyError |
| DashUtils.In | utils/utils_dash.py:175-177 | Python `in` on a form value fails exactly for values that are neither a list nor a string |
| DashUtils.Classify | utils/utils_dash.py:164-200 | the elif chain: age, married, state and county fields are recognised exactly by their type strings |
| DashUtils.ExactIdsNotDisability | utils/utils_dash.py:164-173 | none of the earlier-tested type strings contains "disabilities", so the substring test never shadows them |
| DashUtils.Step | utils/utils_dash.py:163-200 | one state fails only for a disability checkbox whose value is neither list nor string; the state and county lists grow only by the value of a state or county dropdown |
| DashUtils.DisabilityStep | utils/utils_dash.py:173-181 | the disability branch fails exactly when `in` fails, and it never touches the location lists |
| DashUtils.JoinPairs | utils/utils_dash.py:202 | zip truncates to the shorter list; each entry is "county, state"; fails iff a paired value is not a string |
| DashUtils.Locations | utils/utils_dash.py:202-203 | the joined pairs without duplicates, each at its first occurrence, in first-occurrence order |
| DashUtils.ExtractBenDict | utils/utils_dash.py:126-206 | the nested loops compute the fold BenDict over all state lists, followed by the locations entry |
| DashUtils.ApplyStateDict | utils/utils_dash.py:163-200 | the loop body applies exactly Step to the dictionary and the two lists |
| DashUtils.StepOnlyProfileKeys | utils/utils_dash.py:163-200 | one state only adds or overwrites profile keys (agePerson*, married, disability*, blind*, ssdiPIA*, prev_ssi, disab.work.exp) |
| DashUtils.RunOnlyProfileKeys | utils/utils_dash.py:161-200 | the same for a whole state list |
| DashUtils.RunListsOnlyProfileKeys | utils/utils_dash.py:159-200 | the same for all state lists |
| DashUtils.UntouchedKeysKeepDefaults | utils/utils_dash.py:155-206 | the result extends the default schema, and every key that is not a profile key keeps its default value |
| DashUtils.EmptyListSkipped | utils/utils_dash.py:160 | an empty state list has no effect anywhere in the sequence |
| DashUtils.AgeIdOffsets | utils/utils_dash.py:165 | the adult age type has offset 0 and the kid age type has offset 6 |
| DashUtils.DisabilityIdOffsets | utils/utils_dash.py:174 | the adult checkbox has offset 0 and the kid checkbox has offset 6 |
| DashUtils.DisabilityIdFields | utils/utils_dash.py:173 | both checkbox types reach the disability branch |
| DashUtils.SsdiIdField | utils/utils_dash.py:184 | "ssdi-adult" reaches the SSDI branch |
| DashUtils.SsiIdField | utils/utils_dash.py:188 | "anyone-SSI" reaches the SSI branch |
| DashUtils.WorkExpensesIdField | utils/utils_dash.py:193 | "disab-work-expenses" reaches the work-expenses branch |
| DashUtils.AgeStored | utils/utils_dash.py:164-166 | an adult age i is stored as agePerson{i} = [v]; a child age as agePerson{i+6} = [v] |
| DashUtils.MarriedStored | utils/utils_dash.py:169-171 | married becomes [1] only for the value exactly ["Married"]; otherwise nothing changes |
| DashUtils.AdultDisabilityStored | utils/utils_dash.py:173-181 | "Disabled" sets disability{i}; otherwise "Legally Blind" sets blind{i}; otherwise nothing changes |
| DashUtils.KidDisabilityStored | utils/utils_dash.py:173-181 | "Disabled" sets disability{i+6}; a child's blindness changes nothing |
| DashUtils.SsdiSsiWorkExpensesStored | utils/utils_dash.py:184-194 | ssdiPIA{i} = [v] with no offset; prev_ssi = [1] only for "Yes"; disab.work.exp is always [0] |
| DashUtils.RunCollectsDropdowns | utils/utils_dash.py:197-200 | after a state list, the state and county lists are the old ones plus that list's dropdown values, in order |
| DashUtils.RunListsCollectsDropdowns | utils/utils_dash.py:158-200 | the same over all state lists |
| DashUtils.LocationsFromDropdowns | utils/utils_dash.py:202-204 | the stored locations are the deduplicated pairs of all county and state dropdown values |
| Basics.Join | utils/plotting.py:162 | `', '.join`: empty for no items, the item itself for one, and the first item at the front otherwise |
| Basics.RStrip | utils/plotting.py:270 | `rstrip(chars)` removes the longest suffix made only of those characters |
| Basics.Dedup | utils/utils_dash.py:203 | `dict.fromkeys`: no duplicates, and the same members as the input |
| Basics.DedupOrder | utils/utils_dash.py:203 | the kept elements appear in the order of their first occurrences |
| Plotting.PadCurveName | utils/plotting.py:81-82 | the padded name starts with the name, is followed only by spaces, and has length max(38, length of the name) |
| Plotting.PadCurveNameIdempotent | utils/plotting.py:81-82 | padding a padded name changes nothing |
| Plotting.MarkRowsSlots | utils/plotting.py:149-153 | after one cliff column, a row's slot holds its old names plus the column's name once per occurrence of the row; the slot is set iff it was set or the row occurs |
| Plotting.Peaks | utils/plotting.py:129-153 | a KeyError iff some entry with rows is missing from the display table, reported for the first such entry; otherwise one slot per row |
| Plotting.PeaksSlots | utils/plotting.py:149-153 | slot i lists the names of all cliff columns reporting row i, in dictionary order, and is None iff there are none |
| Plotting.CliffPeaks | utils/plotting.py:129-153 | the array-filling loop computes exactly Peaks |
| Plotting.MarkCliffRows | utils/plotting.py:131-153 | the inner loop fails on a column missing from the display table; otherwise it marks exactly that column's rows |
| Plotting.CountInAscending | utils/plotting.py:130-131 | a row occurs at most once in an ascending cliff list |
| Plotting.LostAtAscending | utils/plotting.py:130-153 | for ascending cliff lists, a row's slot names each benefit lost there exactly once |
| Plotting.HoverTexts | utils/plotting.py:158-163 | one text per zipped row: the income text, with "<br>Lost Benefits: " and the names joined by ", " exactly when the slot is set |
| Plotting.Without | utils/plotting.py:180 | keeps exactly the benefit columns that are not cliff keys, in table order (a subsequence of the columns) |
| Plotting.BenColsOrdered | utils/plotting.py:180 | the cliff columns come first, in cliff order, followed by the remaining benefit columns in table order; a column is traced iff it is a cliff column or a selected benefit column |
| Plotting.BenColsOrderedPermutes | utils/plotting.py:180 | the ordered columns are a rearrangement of the selected columns: each appears exactly once |
| Plotting.WithoutIgnoresAbsent | utils/plotting.py:180 | a key that is not a column does not affect the remainder list |
| Plotting.BenefitTraces | utils/plotting.py:178-189 | one trace per ordered column, named and coloured from the display table and shown iff the column has a cliff; a KeyError at the first column the table lacks |
| Plotting.CliffColumnsShownFirst | utils/plotting.py:180-184 | position i holds a cliff column iff i is among the first len(cliffs) positions |
| Plotting.PlotSingleProfile | utils/plotting.py:79-189 | padded name; cliffs in peak mode without EITC and CTC; per-row hover texts naming each lost benefit once; for a new figure, one trace per ordered benefit column with its display name, colour and visibility, and none otherwise; fails iff a cliff column, or for a new figure a traced column, is missing from the display table, with the KeyError of the first such column |
| Plotting.CliffRowsWithin | utils/plotting.py:126-151 | every cliff row lies inside the table, so the slot array is never indexed out of range |
| Plotting.ProfileCliffsExcludeTaxCredits | utils/plotting.py:125-126 | no cliff column of a profile plot contains "eitc" or "ctc" |
| Plotting.ZipMap | utils/plotting.py:215 | `dict(zip(keys, values))`: keys up to the shorter length; for distinct keys, each maps to the value at its position |
| Plotting.DefaultColorMap | utils/plotting.py:215 | colours only groups of the table, each with a palette colour; the i-th group in first-appearance order gets the i-th palette colour, for the first four groups |
| Plotting.PlotMultiColors | utils/plotting.py:214-232 | a KeyError when the default map needs a grouping column the table lacks; then the Warning for an unknown grouping column; then a KeyError for a known grouping column the table lacks; otherwise one curve per unique group in first-appearance order with its colour, or a KeyError for the first group the map lacks |
| Plotting.DefaultColorsCover | utils/plotting.py:214-215 | the default map colours every group iff there are at most four unique groups, since the palette does not cycle |
| Plotting.ZipMapInjective | utils/plotting.py:215 | distinct keys zipped with distinct values give distinct values per key |
| Plotting.DefaultColorsDistinct | utils/plotting.py:9-14 | groups coloured by the default map get pairwise different colours |
| Legend.ProfileLegendText | utils/plotting.py:249-280 | the accumulating loops compute exactly LegendText: header, one line per member, and the benefits in italics |
| Legend.AppendMember | utils/plotting.py:262-270 | one member's loop appends the bold name, each value followed by ", ", strips the separators and adds "<br>" |
| Legend.AppendBenefits | utils/plotting.py:273-277 | the benefit loop appends exactly BenItems of the list |
| Legend.ItemsJoin | utils/plotting.py:265-269 | the values each followed by ", " are the values joined by ", " plus one trailing ", " |
| Legend.StripItems | utils/plotting.py:270 | stripping `, ` after values whose last one does not end in a separator leaves exactly the values joined by ", " |
| Legend.MemberLine | utils/plotting.py:262-270 | each member contributes "<b>name</b>: " followed by its values joined by ", " and then "<br>" |
| Legend.LastLineLength | utils/plotting.py:274-276 | the last line holds one to three names, and the names before it fill whole lines of three |
| Legend.BenItemsSnoc | utils/plotting.py:274-277 | a name at a position divisible by three is preceded by "<br>"; any other name is not |
| Legend.BenItemsLine | utils/plotting.py:274-277 | after whole lines of three, the next one to three names form one line opened by "<br>" |
| Legend.Chunks | utils/plotting.py:274-276 | cuts the names into ceil(n/3) lines of three, the last holding one to three names; the lines hold exactly the names in order |
| Legend.BenItemsAreLines | utils/plotting.py:273-277 | the benefit text is one "<br>"-opened line per chunk, so a list of n names gets ceil(n/3) breaks |
| Legend.LegendWithoutBenefits | utils/plotting.py:273-278 | with no benefits, the legend ends in "<i></i>" |
| Legend.LegendLastLine | utils/plotting.py:273-278 | the legend ends with "<br>", the last one to three names joined by ", " with no trailing separator, and "</i>" |

## Left out

- The slope computation `np.gradient` (utils/utils.py:32) is floating-point numerics. The slopes are an input of `FindDerivativeMinima` and `PlotSingleProfile`.
- The money and wage formatting: `get_hourly_wage`, `format_int_dollars`, `create_custom_ticks_labels` and the hourly axis labels. The formatted income texts are an input of `HoverTexts` and `PlotSingleProfile`.
- `find_zeros` and `print_df` are left out. The first is deprecated and unused; the second is console output.
- Every plotly call is left out: figures, traces, annotations, shapes, layout and hover templates. The model keeps the data those calls receive: slots, hover texts, trace names, colours and visibility, and legend text.
- `load_job_dict`, `create_adult` and `create_kid` are left out. They read files and build Dash components.
- The pages, `app.py`, `download_data.py` and credential loading are left out. So is the `Beneficiary` class; its default schema is an input map of `ExtractBenDict`.
- Floats are `real`: no rounding and no NaN. `Lower` lower-cases ASCII letters only.
- The legend's values arrive already rendered as text. Python's `str()` of a value is not modelled.
- `family_data` is a sequence of pairs in dictionary order. A dict of parameters contributes its values in order, which is the same text.
- Duplicate column names in a table are not modelled; pandas would return a frame, not a list, for `df[col]`.
- Python's negative indexing into the slot array is not modelled.
- Plotting.CliffPeaks: requires every cliff row to lie inside the table instead of modelling Python's negative indexing. `CliffRowsWithin` proves this holds for cliffs found in the same table.
- Plotting.MarkRows: its contract gives only the length of the result. What each slot holds is stated by `MarkRowsSlots`.
- Plotting.PlotSingleProfile: assumes the table has the x, y and `income` columns it reads (utils/plotting.py:79 and :159). The KeyError for a missing one is not modelled; the formatted incomes are an input.
- Plotting.PlotMultiColors: the per-group filtering of the table and the drawing of each curve are not modelled. The method returns the (group, colour) pairs the curves are drawn with.
- `plot_multi`'s default map zips the unique groups with the four palette colours and does not cycle. A fifth group therefore has no colour, and its lookup raises; see `DefaultColorsCover`.
