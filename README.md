# Food-bank search and plant-disease label step, in Dafny

This project models the two pieces of deterministic logic in a pair of Flask
prototypes: a food-bank locator and a plant-disease classifier.

**Nearby food banks** (`app.py`, handler `redirect_to_food_banks`). The
handler reads `latitude` and `longitude` from the query string. If either is
missing it renders the error page. Otherwise it converts both to floats and
walks the loaded food-bank table in order. For each row it computes the
geodesic distance to the requester. A row whose processing raises is skipped
and the loop goes on. A row at most 50 km away is copied into a dictionary
with an added `distance` column and appended to a list. The list is then
sorted in place by distance with Python's stable sort, and the list page is
rendered with it.

- `Facilities`: rows (`map<string, Cell>`), the requester coordinate, the
  per-row outcome `Measured` (`Km(d)` or `Fault`) and the annotated `Entry`.
- `Ranking`: `Rank` is the reference stable sort (insertion sort).
  `SortByDistance` sorts an `array<Entry>` in place and is proved equal to
  `Rank`. Lemmas show that `Rank` is sorted, is a permutation, and keeps
  equal-distance entries in input order. A last lemma shows that `Rank` is the
  only sequence with those properties.
- `FoodBanks`: `Filtered` is the list as the loop builds it.
  `FindNearby` is the loop followed by the in-place sort.
  `RedirectToFoodBanks` is the whole handler. The distance computation is the
  parameter `geodesic: (Coordinate, Row) -> Measured`, and Python's `float()`
  is the parameter `toFloat: string -> Option<real>`.

**Plant-disease label step** (`server.py`, handler `predict`). The handler
first checks the request: no `file` part gives 400 "No file uploaded", and an
empty filename gives 400 "No selected file". Image handling, model inference
and the arg-max follow, written as the parameter `infer: Upload -> Inference`.
An exception from that step is a 500 reply carrying its message. The class
index is then turned into a label. An index outside `class_names` gives
"Unknown"/"Unknown". Otherwise the class name is split on `_`. The first
piece is the plant. The rest, joined again with `_`, is the disease, or
"Healthy" when there is only one piece. Recommendations are looked up under
`plant + "_" + disease`, with a fixed three-line fallback.

- `Labels`: `Split` (Python `str.split("_")`) and `Join` (`"_".join`), with
  lemmas for both round-trips.
- `PlantDisease`: `ClassNames` and `RecommendationTable`, the tables of
  server.py:25-36 and server.py:39-104, then `Decompose`, `LabelOf`,
  `Recommendations` and `Predict`.

Facts about the code that the model keeps:
- The handler does not range-check the coordinates (app.py:57-60).
- The 50 km radius is a constant (app.py:79).
- No row is dropped when the table is loaded (app.py:20). A row whose
  processing raises is skipped inside the per-request loop (app.py:83-85).
- A coordinate that `float()` cannot convert raises outside that loop's
  exception handler (app.py:60). It is modelled as the `Unhandled` page.

## Model

| member | source | states |
|---|---|---|
| Facilities.AsDict | app.py:80-82 | each result dictionary holds the row's own columns unchanged, plus a `distance` column equal to the computed distance |
| Ranking.Rank | app.py:91 | the reference stable sort by distance; its own contract keeps the length, and `RankSortedPermutation`, `RankStable` and `RankIsTheStableSort` state that it is sorted, a permutation, stable and the only such result |
| Ranking.SortByDistance | app.py:91 | the in-place sort leaves the array equal to the reference stable sort `Rank` of its old contents |
| Ranking.InsertLast | app.py:91 | one in-place insertion step puts `a[i]` after every earlier entry that is not farther and leaves the rest of the array alone |
| Ranking.RankSortedPermutation | app.py:91 | the ranked list is sorted by non-decreasing distance and is a permutation of its input |
| Ranking.RankStable | app.py:68-91 | stability: for every distance, the entries at that distance appear in the same relative order as in the input |
| Ranking.SortedStableUnique | app.py:91 | two sorted lists that agree, for every distance, on the entries at that distance and their order are equal |
| Ranking.RankIsTheStableSort | app.py:91 | any sorted list that keeps each distance's entries in input order equals `Rank` of the input, so the stable sort result is unique |
| Ranking.InsertAt | app.py:91 | insertion places the new entry after every entry that is not farther and before the strictly farther ones |
| Ranking.InsertPermutes | app.py:91 | insertion adds exactly the new entry and loses none |
| Ranking.InsertSorted | app.py:91 | inserting into a sorted list keeps it sorted |
| Ranking.InsertAtDistance | app.py:91 | inserting keeps the per-distance order that appending at the end would give |
| FoodBanks.Filtered | app.py:66-85 | the list as the loop builds it: no longer than the table, and every entry is a table row carrying the distance `geodesic` measured for it; `KeptIndicesExact`, `FilteredIsKeptRows` and `FilteredWithinRadius` state which rows are kept and in what order |
| FoodBanks.KeptIndicesExact | app.py:68-82 | the kept table positions are strictly increasing and in range, and a position is kept exactly when its row measures a distance of at most 50 km |
| FoodBanks.FilteredIsKeptRows | app.py:68-82 | the list before sorting is exactly the kept rows in table order, each once, each with its own row and its own computed distance |
| FoodBanks.FilteredWithinRadius | app.py:79-82 | every collected entry has distance at most 50 km |
| FoodBanks.FilteredAppend | app.py:68-82 | collecting over two consecutive parts of the table gives the first part's entries followed by the second's |
| FoodBanks.SkippedRowIsTransparent | app.py:69-85 | a row that faults or lies beyond 50 km leaves the result exactly as if the row were absent, so one bad row never aborts the search |
| FoodBanks.BoundaryIncluded | app.py:79 | a row at exactly 50 km, anywhere in the table, is in the result (the bound is inclusive) |
| FoodBanks.FindNearby | app.py:66-91 | the loop and the sort return the kept rows ranked: sorted by distance, all within 50 km, a permutation of the collected rows, with equal-distance rows in table order |
| FoodBanks.RedirectToFoodBanks | app.py:53-93 | a missing latitude or longitude gives the error page, whatever the table holds; a coordinate that fails to convert is unhandled; otherwise the list page receives the dictionaries of the ranked nearby rows (row columns plus `distance`), each with a numeric distance of at most 50 km, in non-decreasing distance order |
| FoodBanks.NoneWithinRadius | app.py:66-93 | when no row is within 50 km, `Nearby` and its list of dictionaries are empty, so `RedirectToFoodBanks` renders `FoodBanksList([])`, a normal result and not the error page |
| Labels.Split | server.py:140 | the pieces are at least one, contain no `_`, and there is more than one exactly when the name contains `_` |
| Labels.Join | server.py:142 | the first piece is a prefix of the join and, when there are several pieces, a `_` follows it; for separator-free pieces the join contains `_` exactly when there are several; `JoinSplit` and `SplitJoin` state the round-trips with `Split` |
| Labels.JoinSplit | server.py:140-142 | joining the split pieces with `_` gives back the original string, consecutive underscores included |
| Labels.FirstPiece | server.py:140-141 | the first piece is a prefix of the name, and when there are several pieces a `_` follows it |
| Labels.SplitAfterPrefix | server.py:140 | splitting a separator-free prefix, a `_` and a remainder gives the prefix followed by the remainder's pieces |
| Labels.SplitNoSep | server.py:140 | a name without `_` splits into itself alone |
| Labels.SplitJoin | server.py:140-142 | splitting a `_`-join of separator-free pieces gives back those pieces |
| PlantDisease.Decompose | server.py:140-142 | for a name with `_`: the plant is the text before the first `_`, contains no `_`, and plant + `_` + disease is the name; for a name without `_`: the plant is the whole name and the disease is "Healthy" |
| PlantDisease.Key | server.py:149 | the lookup key is the plant, then `_`, then the disease |
| PlantDisease.DecomposeKey | server.py:140-149 | decomposing the lookup key of a label whose plant has no `_` gives that label back |
| PlantDisease.LabelOf | server.py:139-144 | an index outside `[0, 38)` gives "Unknown"/"Unknown"; an index inside gives a label whose lookup key is the class name itself |
| PlantDisease.ClassNamesHaveSep | server.py:25-36 | every class name contains `_` |
| PlantDisease.ClassesWithAdvice | server.py:25-104 | exactly the first nine class names are keys of the recommendation table |
| PlantDisease.Recommendations | server.py:149-153 | the table entry under the label's key when that key is present, otherwise the three-line fallback, and never fewer than three lines; `UnknownGetsDefault` and `PredictDiagnosis` state what each predicted index gets |
| PlantDisease.UnknownGetsDefault | server.py:143-153 | an out-of-range index gets the three-line fallback, because "Unknown_Unknown" is not a key |
| PlantDisease.Predict | server.py:115-162 | no `file` part gives 400 "No file uploaded"; an empty filename gives 400 "No selected file"; these checks run in that order, before inference; a 400 reply happens exactly in these two cases; an exception during image handling or inference gives a 500 reply with its message |
| PlantDisease.PredictDiagnosis | server.py:139-160 | a valid request classified as an in-range index gets a diagnosis: plant + `_` + disease is the class name, and the advice is the class's table entry or the fallback; an out-of-range index gets "Unknown"/"Unknown" with the fallback |

## Left out

- The geodesic distance (app.py:73-76) comes from a floating-point library. It is the abstract parameter `geodesic`, and no property of the formula (symmetry, accuracy) is modelled. An exception raised while reading a row's coordinates or computing its distance is the outcome `Fault`. A NaN distance, which the `<= 50` test rejects, behaves the same way.
- Distances are `real`, not IEEE floats. Rounding is not modelled.
- Python's `float()` conversion of the query arguments (app.py:60) is the abstract parameter `toFloat`. Its grammar is not modelled. `float()` also accepts "nan" and "inf", and `real` has no such values, so non-finite coordinates cannot be represented: `toFloat` must map those strings to `None` or to some finite number.
- Loading the CSV with pandas (app.py:20) is not modelled. Rows are given as a sequence of column dictionaries, and `row.to_dict()` is taken as that dictionary.
- The debugging `print` calls are console output with no effect on the result.
- The Firestore writes and queries (`submit_request`, `send_request`) are remote I/O and are not modelled.
- Flask routing, templates, CORS and static-file serving are not modelled. The rendered page is the datatype `Page`, and the JSON reply is `Response`.
- Saving, opening, resizing and normalising the image, model inference and `np.argmax` (server.py:125-136) are the abstract parameter `infer`. An exception in any of them is `Raised(message)`, which gives the 500 reply.
- PlantDisease.Predict: the reply does not carry the float `confidence` field (server.py:146), because it is floating point over the model's output.
- `train_model.py`, `test.py` and `flask.py` are not part of this model. They hold model training, a one-off prediction script and model loading, with no logic beyond what `server.py` already has.
