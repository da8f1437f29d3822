/** The arithmetic helpers of `utils.py`: Mifflin-St Jeor BMR, the activity
    multiplier table, macro targets per goal, and the division that never
    fails. */
module Utils {
  import opened Wrappers
  import opened Text
  import opened Rounding

  /** `safe_div(a, b)`: `a / b`, or 0.0 when `b` is zero. */
  function SafeDiv(a: real, b: real): (r: real)
    ensures b == 0.0 ==> r == 0.0
    ensures b != 0.0 ==> r * b == a
  {
    if b == 0.0 then 0.0 else a / b
  }

  /** `safe_div` only differs from plain division where plain division is undefined. */
  lemma SafeDivInverse(a: real, b: real, q: real)
    requires b != 0.0 && q * b == a
    ensures SafeDiv(a, b) == q
  {
    var r := SafeDiv(a, b);
    assert r * b == q * b;
    assert (r - q) * b == 0.0;
  }

  // ----- calc_bmr -----

  /** The gender test of `calc_bmr`: `(gender or "").lower() in ("m", "male")`.
      Only a one- or four-letter answer can pass; no answer never does. */
  predicate IsMale(gender: Option<string>)
    ensures IsMale(gender) ==> gender.Some? && (|gender.value| == 1 || |gender.value| == 4)
  {
    var g := Lower(OrElse(gender, ""));
    g == "m" || g == "male"
  }

  /** The part of the Mifflin-St Jeor equation shared by both sexes. */
  function MifflinBase(weightKg: real, heightCm: real, age: real): real {
    10.0 * weightKg + 6.25 * heightCm - 5.0 * age
  }

  /** `calc_bmr(weight_kg, height_cm, age, gender)` */
  function CalcBmr(weightKg: real, heightCm: real, age: real, gender: Option<string>): (bmr: real)
    ensures IsMale(gender) ==> bmr == MifflinBase(weightKg, heightCm, age) + 5.0
    ensures !IsMale(gender) ==> bmr == MifflinBase(weightKg, heightCm, age) - 161.0
  {
    if IsMale(gender) then 10.0 * weightKg + 6.25 * heightCm - 5.0 * age + 5.0
    else 10.0 * weightKg + 6.25 * heightCm - 5.0 * age - 161.0
  }

  /** For the same body, the male BMR exceeds every other one by exactly 166 kcal. */
  lemma BmrGenderGap(weightKg: real, heightCm: real, age: real, male: Option<string>, other: Option<string>)
    requires IsMale(male) && !IsMale(other)
    ensures CalcBmr(weightKg, heightCm, age, male) - CalcBmr(weightKg, heightCm, age, other) == 166.0
  {
  }

  /** The gender test ignores letter case, and anything else (including no
      answer) counts as female. */
  lemma {:induction false} GenderSpellings(g: Option<string>, h: Option<string>)
    requires Lower(OrElse(g, "")) == Lower(OrElse(h, ""))
    ensures IsMale(g) <==> IsMale(h)
    ensures IsMale(Some("M")) && IsMale(Some("Male")) && IsMale(Some("MALE"))
    ensures !IsMale(None) && !IsMale(Some("")) && !IsMale(Some("female"))
  {
    assert Lower("M") == "m";
    assert Lower("Male") == "male";
    assert Lower("MALE") == "male";
    assert Lower("female") == "female";
    assert Lower("") == "";
  }

  // ----- activity_multiplier -----

  /** The `mapping` dictionary of `activity_multiplier`. */
  const ActivityLevels: map<string, real> := map[
    "sedentary" := 1.2,
    "light" := 1.375,
    "moderate" := 1.55,
    "active" := 1.725,
    "very_active" := 1.9
  ]

  /** The dictionary key `activity_multiplier` looks up. */
  function ActivityKey(level: Option<string>): string {
    Lower(OrElse(level, "moderate"))
  }

  /** `activity_multiplier(level)`: the level's factor, 1.55 when it is unknown. */
  function ActivityMultiplier(level: Option<string>): (m: real)
    ensures ActivityKey(level) in ActivityLevels ==> m == ActivityLevels[ActivityKey(level)]
    ensures ActivityKey(level) !in ActivityLevels ==> m == 1.55
    ensures 1.2 <= m <= 1.9
  {
    var key := ActivityKey(level);
    if key in ActivityLevels then ActivityLevels[key] else 1.55
  }

  /** Each of the five levels, in any letter case, gets its factor; no level
      and an unknown level both get the "moderate" factor 1.55. */
  lemma ActivityLookup()
    ensures ActivityMultiplier(Some("sedentary")) == 1.2
    ensures ActivityMultiplier(Some("Light")) == 1.375
    ensures ActivityMultiplier(Some("MODERATE")) == 1.55
    ensures ActivityMultiplier(Some("Active")) == 1.725
    ensures ActivityMultiplier(Some("very_active")) == 1.9
    ensures ActivityMultiplier(None) == 1.55
    ensures ActivityMultiplier(Some("")) == 1.55
    ensures ActivityMultiplier(Some("athlete")) == 1.55
  {
    assert Lower("sedentary") == "sedentary";
    assert Lower("Light") == "light";
    assert Lower("MODERATE") == "moderate";
    assert Lower("moderate") == "moderate";
    assert Lower("Active") == "active";
    assert Lower("very_active") == "very_active";
    assert Lower("athlete") == "athlete";
  }

  // ----- nutrient_targets -----

  /** Unrounded macro targets. */
  datatype Macros = Macros(calories: real, proteinG: real, fatG: real, carbsG: real)

  /** The dictionary `nutrient_targets` returns: calories rounded to an
      integer, grams rounded to one decimal place. */
  datatype Targets = Targets(calories: int, proteinG: real, fatG: real, carbsG: real)

  /** The goal label as `nutrient_targets` (and the scorer) compare it:
      `(goal or "maintenance").lower()`. It holds no capital letter, and an
      absent or empty goal reads as "maintenance". */
  function GoalKey(goal: Option<string>): (g: string)
    ensures forall i :: 0 <= i < |g| ==> !IsUpper(g[i])
    ensures (goal.None? || goal.value == "") ==> g == "maintenance"
    ensures goal.Some? && goal.value != "" ==> |g| == |goal.value|
  {
    assert Lower("maintenance") == "maintenance";
    Lower(OrElse(goal, "maintenance"))
  }

  /** The larger of two numbers. */
  function MaxReal(a: real, b: real): (m: real)
    ensures m >= a && m >= b && (m == a || m == b)
  {
    if a >= b then a else b
  }

  /** Daily calories for a goal: a 500 kcal deficit floored at 1200 for
      "loss", a 300 kcal surplus for "gain", TDEE otherwise. */
  function GoalCalories(tdee: real, g: string): (c: real)
    ensures g == "loss" ==> c >= 1200.0 && c >= tdee - 500.0 && (c == 1200.0 || c == tdee - 500.0)
    ensures g == "gain" ==> c == tdee + 300.0
    ensures g != "loss" && g != "gain" ==> c == tdee
  {
    if g == "loss" then MaxReal(tdee - 500.0, 1200.0)
    else if g == "gain" then tdee + 300.0
    else tdee
  }

  /** Daily protein in grams per kg of body weight for a goal. */
  function GoalProtein(weightKg: real, g: string): (p: real)
    ensures g == "muscle" ==> p == 1.8 * weightKg
    ensures g == "gain" ==> p == 1.6 * weightKg
    ensures g != "muscle" && g != "gain" ==> p == 1.2 * weightKg
  {
    if g == "muscle" then weightKg * 1.8
    else if g == "gain" then weightKg * 1.6
    else weightKg * 1.2
  }

  /** The macro arithmetic of `nutrient_targets`, before rounding. */
  function MacroPlan(tdee: real, goal: Option<string>, weightKg: real): (m: Macros)
    ensures m.calories == GoalCalories(tdee, GoalKey(goal))
    ensures m.proteinG == GoalProtein(weightKg, GoalKey(goal))
    ensures 9.0 * m.fatG == 0.25 * m.calories
    ensures m.carbsG >= 0.0
  {
    var g := GoalKey(goal);
    var calories := GoalCalories(tdee, g);
    var proteinG := GoalProtein(weightKg, g);
    var fatG := (0.25 * calories) / 9.0;
    var carbsKcal := calories - (proteinG * 4.0 + fatG * 9.0);
    var carbsG := MaxReal(carbsKcal / 4.0, 0.0);
    Macros(calories, proteinG, fatG, carbsG)
  }

  /** Carbohydrates fill exactly the energy protein and fat leave, or are
      zero when protein and fat already exceed the calorie target. */
  lemma MacroEnergyBalance(tdee: real, goal: Option<string>, weightKg: real)
    ensures var m := MacroPlan(tdee, goal, weightKg);
      var rest := m.calories - 4.0 * m.proteinG - 9.0 * m.fatG;
      (rest >= 0.0 ==> 4.0 * m.proteinG + 9.0 * m.fatG + 4.0 * m.carbsG == m.calories)
      && (rest < 0.0 ==> m.carbsG == 0.0)
  {
  }

  /** `nutrient_targets(tdee, goal, weight_kg)` */
  function NutrientTargets(tdee: real, goal: Option<string>, weightKg: real): (t: Targets)
    ensures var m := MacroPlan(tdee, goal, weightKg);
      && m.calories - 1.0 / 2.0 <= t.calories as real <= m.calories + 1.0 / 2.0
      && m.proteinG - 1.0 / 20.0 <= t.proteinG <= m.proteinG + 1.0 / 20.0
      && m.fatG - 1.0 / 20.0 <= t.fatG <= m.fatG + 1.0 / 20.0
      && m.carbsG - 1.0 / 20.0 <= t.carbsG <= m.carbsG + 1.0 / 20.0
    ensures t.carbsG >= 0.0
    ensures GoalKey(goal) == "loss" ==> t.calories >= 1200
  {
    var m := MacroPlan(tdee, goal, weightKg);
    Targets(RoundHalfEven(m.calories), Round1(m.proteinG), Round1(m.fatG), Round1(m.carbsG))
  }

  /** The targets depend on the goal only through its lower-cased label. */
  lemma TargetsByKey(tdee: real, g1: Option<string>, g2: Option<string>, weightKg: real)
    requires GoalKey(g1) == GoalKey(g2)
    ensures NutrientTargets(tdee, g1, weightKg) == NutrientTargets(tdee, g2, weightKg)
  {
  }

  /** Goal labels are matched ignoring letter case; no goal and the empty
      goal both mean "maintenance". */
  lemma GoalLabels()
    ensures GoalKey(Some("LOSS")) == GoalKey(Some("loss")) == "loss"
    ensures GoalKey(Some("Muscle")) == GoalKey(Some("muscle")) == "muscle"
    ensures GoalKey(Some("Gain")) == "gain"
    ensures GoalKey(None) == GoalKey(Some("")) == "maintenance"
  {
    assert Lower("LOSS") == "loss" == Lower("loss");
    assert Lower("Muscle") == "muscle" == Lower("muscle");
    assert Lower("maintenance") == "maintenance";
    assert Lower("Gain") == "gain";
  }

  /** So the targets for an upper-case label are those of the lower-case one,
      and no goal gets the maintenance targets. */
  lemma GoalCaseInsensitive(tdee: real, weightKg: real)
    ensures NutrientTargets(tdee, Some("LOSS"), weightKg) == NutrientTargets(tdee, Some("loss"), weightKg)
    ensures NutrientTargets(tdee, None, weightKg) == NutrientTargets(tdee, Some("maintenance"), weightKg)
  {
    GoalLabels();
    TargetsByKey(tdee, Some("LOSS"), Some("loss"), weightKg);
    assert Lower("maintenance") == "maintenance";
    TargetsByKey(tdee, None, Some("maintenance"), weightKg);
  }
}
