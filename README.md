# WebKalorier multi-ingredient pipeline, modelled in Dafny

WebKalorier Multi is a Streamlit page. The user uploads a photo of a meal. A
food detector finds the ingredients, and a zero-shot classifier guesses each
one among the foods of a calorie table. When the guess is uncertain, the user
picks the ingredient by hand. The user then enters grams per ingredient, and
the page shows the calories and their total. Optionally it appends a feedback
line to a log.

This project models the part of `app.py` that turns detections into a total,
step by step, as the script does it:

- **Crops** (`crops.dfy`): the crop loop. It makes one integer region per
  detection box, in detection order. The coordinates are truncated toward zero,
  as numpy's `astype(int)` does.
- **Gate** (`gate.dfy`): the confidence gate. Each crop keeps the classifier's
  top guess when its score is at least 0.7. Otherwise it takes the value of its
  selectbox. The result is `final_labels`, one entry per crop.
- **Quantities** (`quantities.dfy`): the `quantities` dict. It is modelled as
  a Python dict, with its keys in insertion order plus the mapping. Storing a
  label that is already a key overwrites its grams and keeps the key's place.
- **Calories** (`calories.dfy`): the calorie table as rows `(navn,
  kcal_pr_100g)`, the lookup `float(df.loc[df["navn"] == label,
  "kcal_pr_100g"])` and the total loop. The lookup succeeds only when exactly
  one row has the name. With no row, or with several rows, `float` raises and
  the script stops at that label.
- **Feedback** (`feedback.dfy`): the log line `",".join(final_labels) +
  ",Total," + total + "," + feedback + "\n"`.
- **Session** (`session.dfy`): one run of the script. It composes the steps,
  proves end-to-end properties and checks three worked scenarios.

Each loop of the script is a method with loop invariants. Each method is
proved equal to a recursive specification function, and the lemmas state what
those functions guarantee.

The detector, the classifier and the widgets are parameters:

- the boxes `xy` come from the detector;
- `classify` gives the top `(label, score)` for a region;
- `choices[i]` is the value of crop i's selectbox;
- `grams[i]` is the value of crop i's grams widget.

Scores and calories are `real`, so the arithmetic is exact.

## Model

| member | source | states |
|---|---|---|
| `Crops.Trunc` | app.py:40 | the integer coordinate is the float truncated toward zero: at most x for x >= 0 and at least x for x < 0, within 1 |
| `Crops.ToRegion` | app.py:40 | each of the four corner coordinates of the region is the box's coordinate truncated toward zero |
| `Crops.Regions` | app.py:38-42 | the crop list has exactly one region per detection box |
| `Crops.RegionsAt` | app.py:39-42 | the i-th crop is the i-th box with each coordinate truncated |
| `Crops.CropAll` | app.py:38-42 | the crop loop builds exactly the crop list of the specification |
| `Gate.Resolved` | app.py:45-61 | `final_labels` has exactly one entry per crop |
| `Gate.ResolvedAt` | app.py:50-61 | entry i is the model's top guess when its score is >= 0.7 and the selectbox value when it is < 0.7 |
| `Gate.ResolvedInFoodList` | app.py:49-58 | every resolved label is in `food_list` if the classifier only answers candidate labels and the selectbox of every uncertain crop only offers `food_list` |
| `Gate.ResolveLabels` | app.py:45-61 | the gate loop builds exactly the `final_labels` of the specification |
| `Quantities.Put` | app.py:67 | `d[k] = v` keeps the dict well formed; k maps to v and other keys keep their grams; an existing key keeps its position and a new key goes last |
| `Quantities.QuantitiesOf` | app.py:65-69 | the dict built from the labels is well formed: each key once, and exactly the listed keys |
| `Quantities.QuantitiesKeys` | app.py:65-69 | the keys of `quantities` are exactly the distinct elements of `final_labels` |
| `Quantities.QuantitiesLastWriteWins` | app.py:66-69 | a label's stored grams are those entered at its last occurrence; earlier entries are overwritten, not summed |
| `Quantities.QuantitiesOrder` | app.py:66-74 | the dict iterates its keys in the order of each label's first occurrence in `final_labels` |
| `Quantities.QuantitiesInRange` | app.py:67-68 | if every widget value lies in [1, 2000], so does every stored quantity |
| `Quantities.QuantitiesOfDistinct` | app.py:65-69 | without repeated labels, the dict lists every label in crop order with that crop's own grams |
| `Quantities.CollectQuantities` | app.py:65-69 | the quantity loop builds exactly the dict of the specification |
| `Calories.FoodList` | app.py:14 | `food_list` has one entry per table row, entry i is row i's navn, and a name is in it exactly when some row has that name |
| `Calories.Matching` | app.py:75 | the selected kcal values come from rows with that name; there are some iff a row has the name, and at least two iff two rows have it |
| `Calories.Lookup` | app.py:75 | the lookup succeeds iff exactly one row has the name, whatever the other names, and then gives that row's value; otherwise it fails with an error naming the food |
| `Calories.LookupFoodList` | app.py:75 | when the table names each food once, every name of `food_list` is found |
| `Calories.Kcal` | app.py:76 | kcal_pr_100g is the value for 100 g; for grams in [1, 2000] and a non-negative table value the calories lie between 0 and 20 times that value |
| `Calories.Total` | app.py:73-77 | a failing total loop raises the error of one of the dict's keys |
| `Calories.TotalOkIff` | app.py:73-77 | the total loop completes iff the lookup of every key of the dict succeeds |
| `Calories.TotalOkIffOneRow` | app.py:73-77 | the total loop completes iff every key of the dict is named by exactly one row |
| `Calories.TotalFirstError` | app.py:74-77 | a failing total loop raises the error of the first key, in dict order, whose lookup fails |
| `Calories.TotalOfOneKey` | app.py:73-77 | a dict holding one food named by exactly one row, with G grams, totals G times its kcal_pr_100g divided by 100 |
| `Calories.TotalNonNegative` | app.py:73-77 | with non-negative table values and grams in [1, 2000], a completed total is never negative |
| `Calories.ComputeTotal` | app.py:73-79 | the total loop computes exactly the specification total, or raises the first lookup error |
| `Feedback.Join` | app.py:85 | splitting `",".join(labels)` on commas gives the labels back, when the list is non-empty and no label has a comma; no labels join to the empty string |
| `Feedback.FeedbackLine` | app.py:85 | the log line ends in a newline. When neither a label nor the formatted total holds a comma, the fields before it are every final label (duplicates kept, one empty field when there are none), then `Total`, then the formatted total, then the note's fields |
| `Session.Analyse` | app.py:36-79 | a run keeps one label per crop; its dict is well formed with exactly the final labels as keys; its total is computed iff every final label is named by exactly one row |
| `Session.RunScript` | app.py:36-79 | running the steps in order computes the labels, the dict and the total of the specification |
| `Session.EmptyDetection` | app.py:38-79 | no detection gives no labels, an empty dict and a total of 0 |
| `Session.AnalysisSucceeds` | app.py:45-77 | with unique table names, a classifier answering foods of the table and the selectbox of every uncertain crop holding one of them, the run keeps one label per crop, stores grams in [1, 2000] and never fails its lookup |
| `Session.DistinctLabelsPriceEveryCrop` | app.py:65-77 | when no two crops share a label, the total equals pricing each crop with its own grams |
| `Session.ScenarioConfidentApple` | app.py:49-77 | one apple at 95 %, 150 g: label `æble`, total 78 kcal; the selectbox value is ignored |
| `Session.ScenarioManualBanana` | app.py:53-77 | an apple guess at 40 % with the user picking `banan`, 200 g: total 178 kcal |
| `Session.ScenarioTwoApples` | app.py:61-85 | two apples of 100 g and 150 g: one dict key holding 150 g, total 78 kcal where per-crop pricing gives 130 kcal; the log line's fields are `æble`, `æble`, `Total`, `78.0` and the empty note |

## Left out

- Streamlit page setup, the uploader, image display, the `st.write` and
  `st.markdown` output lines and the feedback button (app.py:9-10, 29-33, 44,
  47, 52, 64, 72, 78-79, 82-83, 86) are user interface. The values the widgets
  return are parameters: the selectbox value and the grams value per crop.
- The selectbox exists only for uncertain crops. The model takes a value for
  every crop and uses it only when the score is below 0.7.
- The grams widget's default of 100 and how it keeps values within [1, 2000]
  are not modelled. Its values are taken as given, and `QuantitiesInRange` and
  `AnalysisSucceeds` assume they lie in that range.
- YOLO detection, CLIP zero-shot classification, cached model loading and
  PIL cropping (app.py:5-6, 17-26, 36-37, 41, 49) are opaque. The boxes are a
  parameter, and the classifier is a function from a region to its top
  `(label, score)` pair. The rest of the ranked list is not modelled.
- An empty classifier answer would make `res["labels"][0]` raise. This is not
  modelled, because the classifier parameter always returns a pair.
- The model assumes that the classifier's answer has the shape that
  app.py:50-51 index: a dict holding parallel `labels` and `scores` lists,
  ranked best first. Whether the zero-shot image pipeline configured at
  app.py:20-23 returns that shape, rather than a ranked list of
  `{"score", "label"}` dicts that would make line 50 raise on every crop, is
  library behaviour outside this model. `AnalysisSucceeds` and the scenarios
  therefore say nothing about a run in which line 50 raises.
- That the classifier only answers with candidate labels is a property of the
  external model. `ResolvedInFoodList` and `AnalysisSucceeds` take it as a
  hypothesis.
- Reading `kaloriedata.csv` with pandas (app.py:13) is I/O. The table is a
  sequence of rows given by the caller, and `food_list` is its `navn` column.
- Writing `feedback_log.csv` (app.py:84-85) is I/O. Only the line is
  modelled.
- Formatting with `:.1f` is not modelled, so the formatted total is a string
  parameter of the line. Float rounding is not modelled either, because the
  model uses exact `real` arithmetic. NaN table values are not modelled.
- The single-item variant of the tool is not part of this model.
- The threshold 0.7 is a named constant, as the code writes it inline. It is
  not a run-time parameter.
- A label that is missing from the table fails the lookup, as designed. The
  code also fails when a name occurs in several rows, because `float` of a
  two-row selection raises. The model follows the code on this.
- Collisions overwrite rather than sum, as the code does, and the model keeps
  that. `PerCropTotal` is the summing alternative. `DistinctLabelsPriceEveryCrop`
  and `ScenarioTwoApples` show where the two agree and where they differ.
