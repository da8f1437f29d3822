/** The arithmetic of `Recommender.score_foods`: the columns it guarantees,
    the per-kcal ratios it derives, the goal weights it picks and the score
    it assigns to every row. These functions are the specification the
    `Recommender.ScoreFoods` method is proved against. */
module Scoring {
  import opened Wrappers
  import opened Tables
  import opened Normalizer
  import opened Utils

  /** Columns `score_foods` adds as 0.0 when the dataset lacks them. */
  const Required: seq<string> :=
    ["Caloric Value", "Protein", "Dietary Fiber", "Sugars", "Sodium", "Saturated Fats", "Nutrition Density", "Cholesterol"]

  /** Columns `score_foods` computes and writes over whatever was there. */
  const Generated: set<string> :=
    {"protein_per_kcal", "fiber_per_kcal", "sugar_per_kcal", "sodium_per_kcal", "satfat_per_kcal", "nutrition_density", "score"}

  function Zeros(n: nat): (z: seq<real>)
    ensures |z| == n && forall i :: 0 <= i < n ==> z[i] == 0.0
  {
    seq(n, _ => 0.0)
  }

  /** Adds column `c`, all zeros, when the table lacks it. */
  function AddIfMissing(t: Table, c: string): (r: Table)
    requires WellFormed(t)
    ensures WellFormed(r) && |r.rows| == |t.rows|
    ensures r.columns == if c in t.columns then t.columns else t.columns + [c]
    ensures forall i, d :: 0 <= i < |t.rows| ==> Get(r, i, d) == Get(t, i, d)
    ensures forall i, d :: 0 <= i < |t.rows| && d != c ==> At(r.rows[i], d) == At(t.rows[i], d)
    ensures forall i, d :: 0 <= i < |t.rows| && d in t.columns ==> At(r.rows[i], d) == At(t.rows[i], d)
  {
    if c in t.columns then t else SetColumn(t, c, Zeros(|t.rows|))
  }

  /** The loop at the top of `score_foods`, over the names in `cols`. */
  function EnsureColumns(t: Table, cols: seq<string>): (r: Table)
    requires WellFormed(t)
    ensures WellFormed(r) && |r.rows| == |t.rows|
    ensures forall c :: c in cols ==> c in r.columns
    ensures forall c :: c in t.columns ==> c in r.columns
    ensures forall i, d :: 0 <= i < |t.rows| ==> Get(r, i, d) == Get(t, i, d)
    ensures forall i, d :: 0 <= i < |t.rows| && d !in cols ==> At(r.rows[i], d) == At(t.rows[i], d)
    ensures forall i, d :: 0 <= i < |t.rows| && d in t.columns ==> At(r.rows[i], d) == At(t.rows[i], d)
    decreases |cols|
  {
    if cols == [] then t
    else
      var prev := EnsureColumns(t, cols[..|cols| - 1]);
      var r := AddIfMissing(prev, cols[|cols| - 1]);
      assert forall c :: c in cols ==> c in cols[..|cols| - 1] || c == cols[|cols| - 1];
      assert forall d :: d !in cols ==> d !in cols[..|cols| - 1] && d != cols[|cols| - 1];
      r
  }

  /** `r.get('Caloric Value', 0) or 1`: the calories, with 1 in place of 0. */
  function CalDivisor(cal: real): (d: real)
    ensures d != 0.0
    ensures cal != 0.0 ==> d == cal
  {
    if cal == 0.0 then 1.0 else cal
  }

  /** `safe_div(amount, calories or 1)`: the nutrient amount per calorie. */
  function PerKcal(amount: real, cal: real): (q: real)
    ensures q * CalDivisor(cal) == amount
    ensures cal == 0.0 ==> q == amount
  {
    SafeDiv(amount, CalDivisor(cal))
  }

  /** The column `df.apply(lambda r: safe_div(r.get(nutrient, 0), ...), axis=1)`. */
  function RatioColumn(t: Table, nutrient: string): (col: seq<real>)
    ensures |col| == |t.rows|
    ensures forall i :: 0 <= i < |t.rows| ==> col[i] == PerKcal(Get(t, i, nutrient), Get(t, i, "Caloric Value"))
  {
    seq(|t.rows|, i requires 0 <= i < |t.rows| => PerKcal(Get(t, i, nutrient), Get(t, i, "Caloric Value")))
  }

  /** The derived columns of `score_foods`, added in the source's order. */
  function Derived(t: Table): (r: Table)
    requires WellFormed(t)
    ensures WellFormed(r) && |r.rows| == |t.rows|
    ensures forall c :: c in t.columns ==> c in r.columns
    ensures forall c :: c in Generated && c != "score" ==> c in r.columns
  {
    var t1 := SetColumn(t, "protein_per_kcal", RatioColumn(t, "Protein"));
    var t2 := SetColumn(t1, "fiber_per_kcal", RatioColumn(t1, "Dietary Fiber"));
    var t3 := SetColumn(t2, "sugar_per_kcal", RatioColumn(t2, "Sugars"));
    var t4 := SetColumn(t3, "sodium_per_kcal", RatioColumn(t3, "Sodium"));
    var t5 := SetColumn(t4, "satfat_per_kcal", RatioColumn(t4, "Saturated Fats"));
    SetColumn(t5, "nutrition_density", Column(t5, "Nutrition Density"))
  }

  /** Row `i` keeps every cell whose label `score_foods` does not write. */
  lemma DerivedKeeps(t: Table, i: int, d: string)
    requires WellFormed(t) && 0 <= i < |t.rows| && d !in Generated
    ensures At(Derived(t).rows[i], d) == At(t.rows[i], d)
  {
  }

  /** Row `i` of `a` holds, in its derived columns, the per-kcal ratios of
      row `i` of `t` and `t`'s nutrition density. */
  predicate RatiosOf(a: Table, t: Table, i: int) {
    var cal := Get(t, i, "Caloric Value");
    && Get(a, i, "protein_per_kcal") == PerKcal(Get(t, i, "Protein"), cal)
    && Get(a, i, "fiber_per_kcal") == PerKcal(Get(t, i, "Dietary Fiber"), cal)
    && Get(a, i, "sugar_per_kcal") == PerKcal(Get(t, i, "Sugars"), cal)
    && Get(a, i, "sodium_per_kcal") == PerKcal(Get(t, i, "Sodium"), cal)
    && Get(a, i, "satfat_per_kcal") == PerKcal(Get(t, i, "Saturated Fats"), cal)
    && Get(a, i, "nutrition_density") == Get(t, i, "Nutrition Density")
  }

  /** Each derived ratio of row `i` is that row's nutrient amount over its
      calories (1 in place of 0). */
  lemma DerivedRatios(t: Table, i: int)
    requires WellFormed(t) && 0 <= i < |t.rows|
    ensures RatiosOf(Derived(t), t, i)
  {
    var cal := Get(t, i, "Caloric Value");
    var t1 := SetColumn(t, "protein_per_kcal", RatioColumn(t, "Protein"));
    assert Get(t1, i, "protein_per_kcal") == PerKcal(Get(t, i, "Protein"), cal);
    assert Get(t1, i, "Caloric Value") == cal && Get(t1, i, "Dietary Fiber") == Get(t, i, "Dietary Fiber");
    var t2 := SetColumn(t1, "fiber_per_kcal", RatioColumn(t1, "Dietary Fiber"));
    assert Get(t2, i, "fiber_per_kcal") == PerKcal(Get(t, i, "Dietary Fiber"), cal);
    assert Get(t2, i, "Caloric Value") == cal && Get(t2, i, "Sugars") == Get(t, i, "Sugars");
    var t3 := SetColumn(t2, "sugar_per_kcal", RatioColumn(t2, "Sugars"));
    assert Get(t3, i, "sugar_per_kcal") == PerKcal(Get(t, i, "Sugars"), cal);
    assert Get(t3, i, "Caloric Value") == cal && Get(t3, i, "Sodium") == Get(t, i, "Sodium");
    var t4 := SetColumn(t3, "sodium_per_kcal", RatioColumn(t3, "Sodium"));
    assert Get(t4, i, "sodium_per_kcal") == PerKcal(Get(t, i, "Sodium"), cal);
    assert Get(t4, i, "Caloric Value") == cal && Get(t4, i, "Saturated Fats") == Get(t, i, "Saturated Fats");
    var t5 := SetColumn(t4, "satfat_per_kcal", RatioColumn(t4, "Saturated Fats"));
    assert Get(t5, i, "satfat_per_kcal") == PerKcal(Get(t, i, "Saturated Fats"), cal);
    assert Get(t5, i, "Nutrition Density") == Get(t, i, "Nutrition Density");
    var r := SetColumn(t5, "nutrition_density", Column(t5, "Nutrition Density"));
    assert r == Derived(t);
  }

  /** The working copy once every referenced column exists and the derived
      columns are in place (before line 41 of the source). */
  function Prepared(t: Table): (r: Table)
    requires WellFormed(t)
    ensures WellFormed(r) && |r.rows| == |t.rows|
    ensures forall c :: c in t.columns ==> c in r.columns
    ensures forall c :: c in Required ==> c in r.columns
    ensures forall c :: c in Generated && c != "score" ==> c in r.columns
  {
    Derived(EnsureColumns(t, Required))
  }

  // ----- goal weights -----

  /** One weight per scoring term. */
  datatype Weights = Weights(
    protein: real, fiber: real, lowSugar: real, lowSodium: real,
    lowSatfat: real, density: real, lowCal: real, highCal: real)

  const MuscleWeights := Weights(3.0, 0.8, 0.6, 0.6, 0.6, 1.0, 0.0, 0.2)
  const LossWeights := Weights(1.8, 2.0, 1.0, 0.8, 0.8, 1.0, 1.5, 0.0)
  const GainWeights := Weights(1.2, 0.6, 0.3, 0.5, 0.4, 0.8, 0.0, 1.5)
  const MaintenanceWeights := Weights(1.5, 1.0, 0.8, 0.6, 0.8, 1.0, 0.6, 0.6)

  predicate NonNegative(w: Weights) {
    && w.protein >= 0.0 && w.fiber >= 0.0 && w.lowSugar >= 0.0 && w.lowSodium >= 0.0
    && w.lowSatfat >= 0.0 && w.density >= 0.0 && w.lowCal >= 0.0 && w.highCal >= 0.0
  }

  function WeightSum(w: Weights): real {
    w.protein + w.fiber + w.lowSugar + w.lowSodium + w.lowSatfat + w.density + w.lowCal + w.highCal
  }

  /** The weight branch of `score_foods`: `(goal or "maintenance").lower()`
      chooses among muscle, loss and gain; everything else is maintenance. */
  function GoalWeights(goal: Option<string>): (w: Weights)
    ensures NonNegative(w)
    ensures w.protein <= 3.0
    ensures w.protein == 3.0 <==> GoalKey(goal) == "muscle"
    ensures GoalKey(goal) == "muscle" ==> w == MuscleWeights
    ensures GoalKey(goal) == "loss" ==> w == LossWeights
    ensures GoalKey(goal) == "gain" ==> w == GainWeights
    ensures GoalKey(goal) !in {"muscle", "loss", "gain"} ==> w == MaintenanceWeights
  {
    var g := GoalKey(goal);
    if g == "muscle" then MuscleWeights
    else if g == "loss" then LossWeights
    else if g == "gain" then GainWeights
    else MaintenanceWeights
  }

  /** Labels are compared in lower case; a missing or empty goal, or one the
      branch does not know, gets the maintenance weights. */
  lemma GoalWeightsByLabel()
    ensures GoalWeights(Some("MUSCLE")) == MuscleWeights
    ensures GoalWeights(Some("Loss")) == LossWeights
    ensures GoalWeights(Some("gain")) == GainWeights
    ensures GoalWeights(None) == MaintenanceWeights
    ensures GoalWeights(Some("")) == MaintenanceWeights
    ensures GoalWeights(Some("bulk")) == MaintenanceWeights
  {
    assert Text.Lower("MUSCLE") == "muscle";
    assert Text.Lower("Loss") == "loss";
    assert Text.Lower("gain") == "gain";
    assert Text.Lower("maintenance") == "maintenance";
    assert Text.Lower("bulk") == "bulk";
  }

  // ----- the score -----

  /** The eight normalised terms of one row (lines 41-50 of the source). */
  datatype Terms = Terms(
    protein: real, fiber: real, lowSugar: real, lowSodium: real,
    lowSatfat: real, density: real, lowCal: real, highCal: real)

  predicate InUnit(x: real) { 0.0 <= x <= 1.0 }

  function TermsAt(d: Table, i: int): (x: Terms)
    requires 0 <= i < |d.rows|
    ensures UnitTerms(x)
    ensures x.lowCal + x.highCal == 1.0
  {
    var calNorm := MinMax(Column(d, "Caloric Value"))[i];
    Terms(
      MinMax(Column(d, "protein_per_kcal"))[i],
      MinMax(Column(d, "fiber_per_kcal"))[i],
      1.0 - MinMax(Column(d, "sugar_per_kcal"))[i],
      1.0 - MinMax(Column(d, "sodium_per_kcal"))[i],
      1.0 - MinMax(Column(d, "satfat_per_kcal"))[i],
      MinMax(Column(d, "nutrition_density"))[i],
      1.0 - calNorm,
      calNorm)
  }

  /** A non-negative weight times a term in [0, 1] lies between 0 and the weight. */
  lemma WeightedTerm(a: real, x: real)
    ensures a >= 0.0 && 0.0 <= x <= 1.0 ==> 0.0 <= a * x <= a
  {
    if a >= 0.0 && 0.0 <= x <= 1.0 {
      assert a - a * x == a * (1.0 - x);
    }
  }

  /** One term multiplied by its weight. */
  function Term(a: real, x: real): (m: real)
    ensures a >= 0.0 && 0.0 <= x <= 1.0 ==> 0.0 <= m <= a
  {
    WeightedTerm(a, x);
    a * x
  }

  function TermSum(p: Terms): real {
    p.protein + p.fiber + p.lowSugar + p.lowSodium + p.lowSatfat + p.density + p.lowCal + p.highCal
  }

  /** Summing the eight termwise bounds. */
  lemma TermSumBounds(p: Terms, w: Weights)
    ensures && 0.0 <= p.protein <= w.protein && 0.0 <= p.fiber <= w.fiber
            && 0.0 <= p.lowSugar <= w.lowSugar && 0.0 <= p.lowSodium <= w.lowSodium
            && 0.0 <= p.lowSatfat <= w.lowSatfat && 0.0 <= p.density <= w.density
            && 0.0 <= p.lowCal <= w.lowCal && 0.0 <= p.highCal <= w.highCal
            ==> 0.0 <= TermSum(p) <= WeightSum(w)
  {
  }

  /** Every term lies in [0, 1]. */
  predicate UnitTerms(x: Terms) {
    && InUnit(x.protein) && InUnit(x.fiber) && InUnit(x.lowSugar) && InUnit(x.lowSodium)
    && InUnit(x.lowSatfat) && InUnit(x.density) && InUnit(x.lowCal) && InUnit(x.highCal)
  }

  /** The sum of the eight terms, each multiplied by its weight: with
      non-negative weights and terms in [0, 1], the sum lies between 0 and the
      sum of the weights. */
  function WeightedSum(w: Weights, x: Terms): (s: real)
    ensures NonNegative(w) && UnitTerms(x) ==> 0.0 <= s <= WeightSum(w)
  {
    var p := Terms(
      Term(w.protein, x.protein), Term(w.fiber, x.fiber), Term(w.lowSugar, x.lowSugar),
      Term(w.lowSodium, x.lowSodium), Term(w.lowSatfat, x.lowSatfat), Term(w.density, x.density),
      Term(w.lowCal, x.lowCal), Term(w.highCal, x.highCal));
    TermSumBounds(p, w);
    TermSum(p)
  }

  /** The score of row `i` in closed form: weighted sum minus
      `0.2 * norm(Cholesterol)`; it lies in [-0.2, sum of weights]. */
  function ScoreAt(d: Table, w: Weights, i: int): (s: real)
    requires NonNegative(w) && 0 <= i < |d.rows|
    ensures -0.2 <= s <= WeightSum(w)
  {
    WeightedSum(w, TermsAt(d, i)) - 0.2 * MinMax(Column(d, "Cholesterol"))[i]
  }

  /** The first value of the score column: each row's weighted sum, before
      the cholesterol penalty. */
  function WeightedScores(d: Table, w: Weights): (col: seq<real>)
    ensures |col| == |d.rows|
    ensures forall i :: 0 <= i < |d.rows| ==> col[i] == WeightedSum(w, TermsAt(d, i))
  {
    seq(|d.rows|, i requires 0 <= i < |d.rows| => WeightedSum(w, TermsAt(d, i)))
  }

  /** The score column after the cholesterol penalty: each score minus a
      fifth of the row's normalised cholesterol. */
  function Penalised(s: Table): (col: seq<real>)
    ensures |col| == |s.rows|
    ensures forall i :: 0 <= i < |s.rows| ==>
      col[i] == Get(s, i, "score") - 0.2 * MinMax(Column(s, "Cholesterol"))[i]
  {
    var chol := MinMax(Column(s, "Cholesterol"));
    seq(|s.rows|, i requires 0 <= i < |s.rows| => Get(s, i, "score") - 0.2 * chol[i])
  }

  /** The working copy `score_foods` holds just before it sorts. */
  function Annotated(t: Table, goal: Option<string>): (r: Table)
    requires WellFormed(t)
    ensures WellFormed(r) && |r.rows| == |t.rows|
  {
    var d := Prepared(t);
    var s := SetColumn(d, "score", WeightedScores(d, GoalWeights(goal)));
    if "Cholesterol" in s.columns then SetColumn(s, "score", Penalised(s)) else s
  }

  /** The columns of the scored table: the dataset's own, every referenced
      nutrient column, every derived column and the score. */
  lemma AnnotatedColumns(t: Table, goal: Option<string>)
    requires WellFormed(t)
    ensures forall c :: c in t.columns ==> c in Annotated(t, goal).columns
    ensures forall c :: c in Required ==> c in Annotated(t, goal).columns
    ensures forall c :: c in Generated ==> c in Annotated(t, goal).columns
  {
    var d := Prepared(t);
    var s := SetColumn(d, "score", WeightedScores(d, GoalWeights(goal)));
    assert "Cholesterol" in Required;
    assert "Cholesterol" in s.columns;
    var a := SetColumn(s, "score", Penalised(s));
    assert a.columns == Annotated(t, goal).columns;
    assert forall c :: c in d.columns ==> c in a.columns;
  }

  /** Apart from the score, a row of the scored table holds what the same
      row of the prepared table holds. */
  lemma AnnotatedAt(t: Table, goal: Option<string>, i: int, c: string)
    requires WellFormed(t) && 0 <= i < |t.rows| && c != "score"
    ensures At(Annotated(t, goal).rows[i], c) == At(Prepared(t).rows[i], c)
  {
    var d := Prepared(t);
    var s := SetColumn(d, "score", WeightedScores(d, GoalWeights(goal)));
    SetColumnAt(d, "score", WeightedScores(d, GoalWeights(goal)), i, c);
    if "Cholesterol" in s.columns {
      SetColumnAt(s, "score", Penalised(s), i, c);
    }
  }

  /** The score column after the weighted sums and the penalty is the closed
      form `ScoreAt`. */
  lemma ScoreSteps(d: Table, w: Weights, i: int)
    requires NonNegative(w) && 0 <= i < |d.rows|
    ensures var s := SetColumn(d, "score", WeightedScores(d, w));
      Get(SetColumn(s, "score", Penalised(s)), i, "score") == ScoreAt(d, w, i)
  {
    var s := SetColumn(d, "score", WeightedScores(d, w));
    SetColumnAt(d, "score", WeightedScores(d, w), i, "score");
    SetColumnOther(d, "score", WeightedScores(d, w), "Cholesterol");
    SetColumnAt(s, "score", Penalised(s), i, "score");
    assert Get(s, i, "score") == WeightedSum(w, TermsAt(d, i));
  }

  /** Cholesterol is always among the columns when the penalty is decided, so
      every score carries it: the score is the closed form `ScoreAt`. */
  lemma AnnotatedScore(t: Table, goal: Option<string>, i: int)
    requires WellFormed(t) && 0 <= i < |t.rows|
    ensures "Cholesterol" in SetColumn(Prepared(t), "score", WeightedScores(Prepared(t), GoalWeights(goal))).columns
    ensures Get(Annotated(t, goal), i, "score") == ScoreAt(Prepared(t), GoalWeights(goal), i)
    ensures -0.2 <= Get(Annotated(t, goal), i, "score") <= WeightSum(GoalWeights(goal))
  {
    var w := GoalWeights(goal);
    assert "Cholesterol" in Required;
    var d := Prepared(t);
    var s := SetColumn(d, "score", WeightedScores(d, w));
    assert "Cholesterol" in s.columns;
    assert SetColumn(s, "score", Penalised(s)) == Annotated(t, goal);
    ScoreSteps(d, w, i);
  }

  /** Every column the dataset brought, except those `score_foods` overwrites,
      keeps its cells; a referenced column the dataset lacked reads as 0. */
  lemma AnnotatedKeeps(t: Table, goal: Option<string>, i: int, c: string)
    requires WellFormed(t) && 0 <= i < |t.rows| && c !in Generated
    ensures c in t.columns ==> At(Annotated(t, goal).rows[i], c) == At(t.rows[i], c)
    ensures Get(Annotated(t, goal), i, c) == Get(t, i, c)
  {
    var e := EnsureColumns(t, Required);
    DerivedKeeps(e, i, c);
    AnnotatedAt(t, goal, i, c);
    assert Get(e, i, c) == Get(t, i, c);
  }

  /** The derived columns of the prepared table are the per-kcal ratios of the
      dataset's own values (a missing nutrient reads as 0). */
  lemma PreparedRatios(t: Table, i: int)
    requires WellFormed(t) && 0 <= i < |t.rows|
    ensures RatiosOf(Prepared(t), t, i)
  {
    var e := EnsureColumns(t, Required);
    DerivedRatios(e, i);
    RatiosTransfer(Prepared(t), e, t, i);
  }

  /** Ratios stated over `e` hold over `t` when the two agree, at row `i`, on
      every nutrient the ratios read. */
  lemma RatiosTransfer(a: Table, e: Table, t: Table, i: int)
    requires RatiosOf(a, e, i)
    requires forall c :: Get(e, i, c) == Get(t, i, c)
    ensures RatiosOf(a, t, i)
  {
    assert Get(e, i, "Caloric Value") == Get(t, i, "Caloric Value");
  }

  /** The scored table keeps those ratios. */
  lemma AnnotatedRatios(t: Table, goal: Option<string>, i: int)
    requires WellFormed(t) && 0 <= i < |t.rows|
    ensures RatiosOf(Annotated(t, goal), t, i)
  {
    PreparedRatios(t, i);
    AnnotatedAt(t, goal, i, "protein_per_kcal");
    AnnotatedAt(t, goal, i, "fiber_per_kcal");
    AnnotatedAt(t, goal, i, "sugar_per_kcal");
    AnnotatedAt(t, goal, i, "sodium_per_kcal");
    AnnotatedAt(t, goal, i, "satfat_per_kcal");
    AnnotatedAt(t, goal, i, "nutrition_density");
  }
}
