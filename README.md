# NutriGoAI recommender core, modelled in Dafny

This project models the food-recommendation engine of NutriGoAI and the
nutrition helpers it relies on:

- `Recommender` (`recommender.py`) loads a nutrient table and cleans it. It
  strips the header labels, makes sure there is a `Food` column by renaming
  the first column when none is called `Food`, and coerces every other cell
  to a number, with 0 for anything missing or unreadable.
- `score_foods` works on a copy of the table. It adds any missing scoring
  column as 0 and derives five per-calorie ratios and a density column. It
  min-max normalises them, weights the eight resulting terms by goal,
  subtracts `0.2 × norm(Cholesterol)`, and sorts by score, best first.
- `recommend` keeps the first `top_k` ranked rows and projects them onto a
  fixed list of columns. It rounds every field except `Food` to three
  decimals and returns the rows as records.
- `utils.py` provides `safe_div`, `activity_multiplier`, `calc_bmr`
  (Mifflin-St Jeor) and `nutrient_targets`.

All numbers are exact `real`s. A table is a list of column labels plus one
`map<string, Cell>` per food, where a cell is a number, an unparsed string
or missing.

The model has these parts:

- The `Recommender` class has one field, `df`. Its methods are:
  - `Create`, for `__init__`. A constructor cannot fail, and `__init__` can
    raise, so `Create` returns a `Result`.
  - `ScoreFoods`, which adds the missing columns in a loop, column by column,
    as the source does.
  - `Recommend`, whose rounding loop runs over the selected columns.

  Each method is proved equal to a specification function (`LoadSpec`,
  `Scored`, `RecordOf`).
- Lemmas about those functions state what the source promises: the score
  bounds, that the ranking is a sorted permutation, where each ranked row
  comes from, the min-max endpoints and monotonicity, and the macro
  arithmetic.
- `ScoreFoods` and `Recommend` have no `modifies` clause, so the verifier
  itself guarantees that scoring leaves `df` unchanged.

Points of the code worth knowing when reading the model:

- `recommend` has no dietary-filter and no nutrient-focus argument. It
  takes only the targets, the goal and `top_k`.
- `score` is one of the returned fields.
- The cholesterol penalty always applies. The column loop at
  `recommender.py:30-32` adds `Cholesterol` when the dataset lacks it, so
  the test at line 73 always succeeds (`Scoring.AnnotatedScore`).
- pandas' default sort is not stable, so the program may return foods with
  equal scores in any order. The model inserts each row in front of the
  rows it ties with, which keeps ties in dataset order.

## Model

| member | source | states |
|---|---|---|
| Text.LowerChar | utils.py:34 | one character lower-cased: an ASCII capital becomes its letter 32 code points on, anything else is kept, and no capital remains |
| Text.Lower | utils.py:34 | `str.lower`: same length, each ASCII capital replaced by its lower-case letter, everything else kept |
| Text.OrElse | utils.py:34 | `x or default`: `None` and `""` give the default, any other string is kept |
| Text.StripLeft | recommender.py:9 | `lstrip`: a suffix of the input, only whitespace removed (every character `str.isspace` accepts), no leading whitespace left |
| Text.StripRight | recommender.py:9 | `rstrip`: a prefix of the input, only whitespace removed (every character `str.isspace` accepts), no trailing whitespace left |
| Text.Strip | recommender.py:9 | `strip`: no longer than the input, and neither starting nor ending with whitespace |
| Text.StripSpec | recommender.py:9 | `strip` keeps a contiguous slice, cuts only whitespace (Python's full set) from both ends and leaves none at either end |
| Text.StripExample | recommender.py:9 | a label wrapped in U+001C and a no-break space strips to the bare label |
| Rounding.RoundHalfEven | utils.py:54 | `round(x)`: an integer within 1/2 of `x`, strictly nearer when not a tie, even on a tie |
| Rounding.RoundHalfEvenMonotone | utils.py:54 | `round` never reverses the order of two values |
| Rounding.RoundHalfEvenOfInt | utils.py:54 | an integer rounds to itself |
| Rounding.Round3 | recommender.py:86 | `round(x, 3)` is within 1/2000 of `x` |
| Rounding.Round1 | utils.py:55-57 | `round(x, 1)` is within 1/20 of `x` |
| Rounding.Round3Monotone | recommender.py:86 | `round(x, 3)` preserves order |
| Utils.SafeDiv | utils.py:61-67 | divisor 0 gives 0.0; otherwise the result times the divisor is the dividend |
| Utils.SafeDivInverse | utils.py:61-67 | for a non-zero divisor `safe_div` is exactly the quotient |
| Utils.IsMale | utils.py:6-7 | only a present one- or four-letter answer can count as male; no answer never does |
| Utils.CalcBmr | utils.py:1-11 | Mifflin-St Jeor base plus 5 for "m"/"male" in any case, minus 161 for anything else |
| Utils.BmrGenderGap | utils.py:6-11 | for the same body the male BMR exceeds any other by exactly 166 |
| Utils.GenderSpellings | utils.py:6-7 | the gender test ignores case; "M", "Male", "MALE" are male, `None`, "" and "female" are not |
| Utils.ActivityMultiplier | utils.py:14-26 | the factor of the lower-cased level, 1.55 for an unknown level or none, always in [1.2, 1.9] |
| Utils.ActivityLookup | utils.py:19-26 | each of the five levels in any case gets its factor; `None`, "" and an unknown level get 1.55 |
| Utils.GoalKey | utils.py:34 | `(goal or "maintenance").lower()`: no capital letters, same length as a non-empty goal, "maintenance" for none or "" |
| Utils.MaxReal | utils.py:36 | Python's `max` of two numbers: at least both, and equal to one of them |
| Utils.GoalCalories | utils.py:35-40 | loss: `max(tdee - 500, 1200)`, so at least 1200; gain: `tdee + 300`; otherwise `tdee` |
| Utils.GoalProtein | utils.py:42-47 | 1.8 g/kg for muscle, 1.6 for gain, 1.2 otherwise |
| Utils.MacroPlan | utils.py:49-51 | fat supplies a quarter of the calories, carbs are never negative, calories and protein follow the goal |
| Utils.MacroEnergyBalance | utils.py:49-51 | carbs fill exactly the energy protein and fat leave, or are 0 when those exceed the target |
| Utils.NutrientTargets | utils.py:29-58 | each target is the unrounded one within rounding error; carbs are not negative; loss gets at least 1200 kcal |
| Utils.TargetsByKey | utils.py:34 | two goals with the same lower-cased label get the same targets |
| Utils.GoalLabels | utils.py:34 | "LOSS" and "loss" are the same label; `None` and "" mean "maintenance" |
| Utils.GoalCaseInsensitive | utils.py:34 | upper-case "LOSS" gets the targets of "loss"; no goal gets the maintenance targets |
| Normalizer.Min | recommender.py:21 | `series.min()` is an element no greater than any other |
| Normalizer.Max | recommender.py:22 | `series.max()` is an element no less than any other |
| Normalizer.Scale | recommender.py:25 | `(v - mn) / (mx - mn)`: 0 at the minimum, 1 at the maximum |
| Normalizer.ScaleOrder | recommender.py:25 | for a positive spread, `(v - mn) / (mx - mn)` preserves and reflects order |
| Normalizer.ScaleRange | recommender.py:25 | values in [mn, mx] scale into [0, 1], only mn to 0 and only mx to 1 |
| Normalizer.MinMax | recommender.py:20-25 | same length as the column, every value in [0, 1] |
| Normalizer.MinMaxNeutral | recommender.py:23-24 | all values are 0.5 exactly when the column has no spread (an empty column included) |
| Normalizer.MinMaxEndpoints | recommender.py:25 | on a column with spread, 0 exactly at the minimum and 1 exactly at the maximum, and both occur |
| Normalizer.MinMaxMonotone | recommender.py:25 | on a column with spread, normalising preserves and reflects the order of any two values |
| Tables.Val | recommender.py:18 | `to_numeric(errors='coerce').fillna(0)`: a number is kept, anything else reads as 0 |
| Tables.GetDefault | recommender.py:34-38 | `r.get(c, 0)`: the row's cell under `c` as a number, 0 when the label is absent |
| Tables.Column | recommender.py:41 | `df[c]`: one value per row, each the row's cell read as a number |
| Tables.SetColumn | recommender.py:32 | `df[c] = vals`: the column is appended if new, every row gets `vals[i]` under `c`, other cells kept, well-formedness kept |
| Tables.SetColumnAt | recommender.py:34-39 | after writing column `c`, row `i` reads `vals[i]` under `c` and its old cell under every other label |
| Tables.SetColumnOther | recommender.py:73-75 | writing one column leaves every other column equal |
| Tables.StripHeaders | recommender.py:9 | every header label is stripped, positions kept |
| Tables.RenameFirstToFood | recommender.py:13 | the first label, and every label equal to it, becomes "Food"; the others are kept |
| Tables.FoodHeaders | recommender.py:11-15 | fails exactly for no columns; otherwise "Food" is present, labels are kept if it was already there, else the first becomes "Food" |
| Tables.CoerceRow | recommender.py:17-18 | a cell under every label; the "Food" cell is kept, every other cell is a number, 0 when missing or unparsed |
| Tables.LoadSpec | recommender.py:6-18 | `ValueError` exactly when there are no columns; otherwise a clean table of the same size whose cells follow the coercion rule |
| Tables.LoadHeaders | recommender.py:9-13 | the labels are the stripped ones when "Food" is present, else the first is renamed "Food" |
| Tables.StripAll | recommender.py:9 | the loop over the header equals `StripHeaders` |
| Tables.CoerceAll | recommender.py:17-18 | the loop over the rows coerces every row with `CoerceRow` |
| Tables.CoerceRows | recommender.py:17-18 | every row is `CoerceRow` of its raw row: a cell under every label, the "Food" cell kept, every other cell a number |
| Tables.CleanTable | recommender.py:6-18 | the step-by-step clean-up equals `LoadSpec` |
| Scoring.AddIfMissing | recommender.py:31-32 | a missing column is added as 0.0; every existing cell and every value read is unchanged |
| Scoring.EnsureColumns | recommender.py:30-32 | afterwards every listed column exists; all values read and all existing cells are unchanged |
| Scoring.CalDivisor | recommender.py:34 | `calories or 1` is never zero and equals the calories when they are not 0 |
| Scoring.PerKcal | recommender.py:34-38 | the ratio times the divisor is the nutrient amount; at 0 kcal the ratio is the amount itself |
| Scoring.RatioColumn | recommender.py:34-38 | per row, the nutrient over the calories (1 in place of 0) |
| Scoring.Derived | recommender.py:34-39 | keeps well-formedness and the row count, and adds the five ratio columns and `nutrition_density` |
| Scoring.DerivedRatios | recommender.py:34-39 | each derived cell is the row's nutrient over its calories; density is copied |
| Scoring.DerivedKeeps | recommender.py:34-39 | writing the derived columns changes no other cell |
| Scoring.Prepared | recommender.py:28-39 | the working copy has every original, referenced and derived column |
| Scoring.GoalWeights | recommender.py:52-60 | "muscle", "loss" and "gain", in any letter case, select their own weight set and every other label the maintenance set; all weights are non-negative |
| Scoring.GoalWeightsByLabel | recommender.py:52-60 | "MUSCLE", "Loss" and "gain" pick their weights; `None`, "" and "bulk" get maintenance |
| Scoring.TermsAt | recommender.py:41-50 | all eight terms lie in [0, 1] and `low_cal + high_cal = 1` |
| Scoring.WeightedTerm | recommender.py:62-71 | a non-negative weight times a term in [0, 1] lies between 0 and the weight |
| Scoring.Term | recommender.py:62-71 | one weighted term, bounded by its weight |
| Scoring.TermSumBounds | recommender.py:62-71 | eight terms each bounded by their weight sum to at most the weight total |
| Scoring.WeightedSum | recommender.py:62-71 | the weighted sum of the eight terms lies in [0, sum of weights] for non-negative weights and terms in [0, 1] |
| Scoring.ScoreAt | recommender.py:62-75 | the penalised score of a row lies in [-0.2, sum of weights] |
| Scoring.WeightedScores | recommender.py:62-71 | per row, the weighted sum of that row's terms |
| Scoring.Penalised | recommender.py:73-75 | per row, the score minus `0.2 × norm(Cholesterol)` |
| Scoring.Annotated | recommender.py:28-75 | the scored copy is well formed and has one row per food |
| Scoring.AnnotatedColumns | recommender.py:30-39 | the scored copy has every original, referenced and derived column, and `score` |
| Scoring.AnnotatedAt | recommender.py:62-75 | scoring changes no cell other than `score` |
| Scoring.ScoreSteps | recommender.py:62-75 | the weighted sum followed by the penalty gives the closed-form score |
| Scoring.AnnotatedScore | recommender.py:73-75 | Cholesterol is always present, so every score is the penalised closed form and lies in [-0.2, sum of weights] |
| Scoring.AnnotatedKeeps | recommender.py:28-39 | every dataset column that is not generated keeps its cells; a referenced column the dataset lacked reads as 0 |
| Scoring.PreparedRatios | recommender.py:34-39 | the ratio columns of the working copy are the dataset's own ratios |
| Scoring.RatiosTransfer | recommender.py:34-38 | ratios stay valid when the nutrient values they read are unchanged |
| Scoring.AnnotatedRatios | recommender.py:34-39 | the scored copy keeps those ratios |
| Ranking.Insert | recommender.py:77 | the result is one longer, holds the rows plus exactly the inserted row (as a multiset), and starts with the inserted row or the old first row |
| Ranking.InsertSorted | recommender.py:77 | inserting into a sorted list keeps it sorted |
| Ranking.ConsSorted | recommender.py:77 | a row scoring at least the head may go in front of a sorted list |
| Ranking.SortDesc | recommender.py:77 | a permutation of the rows with non-increasing scores |
| Ranking.SortByScore | recommender.py:77 | `sort_values(by='score', ascending=False)`: same columns, same rows as a multiset, scores non-increasing |
| Ranking.SortedTopIsMax | recommender.py:77 | the first sorted row scores at least as much as every row |
| Ranking.SortSortedUnchanged | recommender.py:77 | rows already in non-increasing order, ties included, are left in place |
| Engine.Present | recommender.py:81 | exactly the wanted labels the table has, as a subsequence of the wanted list (so in its order); all of them when all are present |
| Engine.HeadCount | recommender.py:82 | `head(k)` keeps `min(k, n)` rows for `k ≥ 0`, and all but the last `-k` for negative `k` |
| Engine.Scored | recommender.py:77 | the sorted scored copy has one row per food |
| Engine.RecordOf | recommender.py:84-87 | a record has the returned labels; "Food" is untouched, every other field is rounded to 3 places |
| Engine.Restrict | recommender.py:82 | `scored[cols]` on one row: only the listed labels, values unchanged |
| Engine.PartRounded | recommender.py:84-86 | rounding a row's visited labels keeps its labels |
| Engine.SortedRowOrigin | recommender.py:77 | every sorted row is a row of the unsorted table |
| Engine.SortedWellFormed | recommender.py:77 | sorting keeps the table well formed |
| Engine.ScoredColumns | recommender.py:81 | every returned label is present in the scored table, so `cols_to_return` is the full list |
| Engine.RankedRowOrigin | recommender.py:77 | every ranked row carries the food cell of some dataset row and that row's closed-form score |
| Engine.AnnotatedRow | recommender.py:28-75 | before sorting, row `j` carries the dataset's food cell and its closed-form score |
| Engine.RankedTopIsBest | recommender.py:77 | the top-ranked row scores at least as much as every food |
| Engine.RecordsSorted | recommender.py:84-87 | the rounded scores of the records never increase down the list |
| Engine.RoundedIsRecord | recommender.py:84-87 | rounding the projected row gives the record of the full row |
| Engine.ReturnColumnsDistinct | recommender.py:81 | the returned labels are pairwise distinct |
| Engine.Pick | recommender.py:82 | `scored[cols].head(n)`: the first `n` rows restricted to `cols`, well formed |
| Engine.RoundNumbers | recommender.py:84-86 | the column loop rounds every non-"Food" cell of every row |
| Engine.RoundedColumn | recommender.py:86 | per row, the column's value rounded to 3 places |
| Engine.RoundStep | recommender.py:84-86 | visiting one more label rounds exactly that label's cell, except under "Food" |
| Engine.Recommender.FromTable | recommender.py:8 | the recommender holds the given clean table |
| Engine.Recommender.Create | recommender.py:6-18 | fails exactly for a table without columns; otherwise a fresh recommender holding `LoadSpec` of the raw table |
| Engine.Recommender.ScoreFoods | recommender.py:27-77 | the column loop and derivations produce exactly `Scored(df, goal)`; `df` is not modified |
| Engine.Recommender.Recommend | recommender.py:79-87 | `HeadCount(top_k, n)` records, the i-th being `RecordOf` the i-th ranked row |

## Left out

- Reading the CSV file (`pd.read_csv`) is not modelled. The loaded frame is
  an input (`RawTable`), and parsing a numeral is abstracted: a cell arrives
  either as a number or as a string that pandas cannot read.
- `Tables.CoerceRow`: pandas selects a column by label. When two columns
  share a label after stripping or renaming, the model gives each label the
  cell of its first position and does not model pandas' handling of
  duplicate labels.
- IEEE floating point is not modelled: no NaN, no overflow, no binary
  representation error. Python's `round` is modelled as exact half-even
  rounding on reals, not as rounding of the binary double.
- `Utils.SafeDiv`: the `try/except` around the division is not modelled. For
  real operands and a non-zero divisor no exception is reachable.
- `Normalizer.MinMax`: the `pd.isna` guard matters only for an empty
  column, which is modelled. A column of NaNs cannot occur after `fillna(0)`.
- `Ranking.SortByScore`: pandas' default sort is not stable. The model keeps
  ties in dataset order. So when a `top_k` cut falls inside a tie, the
  records may differ from the program's. The contract promises what holds
  for any sort: same rows, scores non-increasing.
  `Ranking.SortSortedUnchanged` adds that input already in order, ties
  included, is left unchanged. No lemma states stability for arbitrary
  input.
- `Text.Lower`: `str.lower` is modelled for ASCII letters only. Non-ASCII
  capitals are kept unchanged. `str.strip` removes every character
  `str.isspace` accepts, so it needs no such caveat.
- `Engine.Record`: a record is a map, so it does not carry the key order of
  `to_dict(orient="records")`. That order is the order of `ReturnColumns`,
  which `Recommend` projects on.
- `Engine.Recommender.Recommend`: the defaults of `recommend`
  (`goal="maintenance"`, `top_k=10`) are not modelled. Dafny methods have no
  default arguments, so both are explicit parameters. The web application
  passes both.
- The `targets` argument of `score_foods` and `recommend` is accepted and
  never used, as in the source.
- The web application (`app.py`) is not part of this model. That covers
  routing, form handling, templates and startup.
