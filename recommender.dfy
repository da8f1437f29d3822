/** The `Recommender` class: it loads and cleans the nutrient table once,
    scores every food for a goal, and returns the best foods as records with
    rounded numbers. */
module Engine {
  import opened Wrappers
  import opened Tables
  import opened Normalizer
  import opened Utils
  import opened Scoring
  import opened Ranking
  import opened Rounding

  /** One element of `to_dict(orient="records")`: label to cell. The order
      of the dictionary's keys, which is that of `ReturnColumns`, is not
      part of a map; `Recommend` keeps it in the label list it projects on. */
  type Record = map<string, Cell>

  /** The labels `recommend` returns, in order, when the scored table has them. */
  const ReturnColumns: seq<string> :=
    ["Food", "Caloric Value", "Protein", "Dietary Fiber", "Sugars", "Sodium", "score"]

  /** `r` is `s` with some elements left out, the rest in their order. */
  predicate Subsequence(r: seq<string>, s: seq<string>)
    decreases |s|
  {
    if r == [] then true
    else if s == [] then false
    else (r[0] == s[0] && Subsequence(r[1..], s[1..])) || Subsequence(r, s[1..])
  }

  /** `[c for c in want if c in cols]`: the labels of `want` that `cols`
      has, in the order of `want`. */
  function Present(want: seq<string>, cols: seq<string>): (r: seq<string>)
    ensures |r| <= |want|
    ensures Subsequence(r, want)
    ensures forall c :: c in r <==> c in want && c in cols
    ensures (forall c :: c in want ==> c in cols) ==> r == want
  {
    if want == [] then []
    else if want[0] in cols then
      var rest := Present(want[1..], cols);
      assert ([want[0]] + rest)[1..] == rest;
      [want[0]] + rest
    else Present(want[1..], cols)
  }

  /** How many rows `head(k)` keeps of `n`: the first `k`, or for a negative
      `k` all but the last `-k`. */
  function HeadCount(k: int, n: nat): (m: nat)
    ensures m <= n
    ensures 0 <= k <= n ==> m == k
    ensures k > n ==> m == n
    ensures k < 0 ==> m as int == if n + k >= 0 then n + k else 0
  {
    if k >= 0 then (if k <= n then k else n)
    else if n + k >= 0 then n + k else 0
  }

  /** The table `score_foods` returns: the scored working copy, best first. */
  function Scored(t: Table, goal: Option<string>): (r: Table)
    requires WellFormed(t)
    ensures |r.rows| == |t.rows|
  {
    SortByScore(Annotated(t, goal))
  }

  /** The record `recommend` makes of one ranked row: the returned labels the
      row has, the food cell as it is, every other cell rounded to three
      decimals. */
  function RecordOf(r: Row): (rec: Record)
    ensures forall c :: c in rec <==> c in ReturnColumns && c in r
    ensures "Food" in r ==> rec["Food"] == r["Food"]
    ensures forall c :: c in rec && c != "Food" ==> rec[c] == Num(Round3(Val(r[c])))
  {
    map c | c in ReturnColumns && c in r :: if c == "Food" then r[c] else Num(Round3(Val(r[c])))
  }

  /** `scored[cols_to_return]` for one row. */
  function Restrict(r: Row, cols: seq<string>): (s: Row)
    ensures forall c :: c in s <==> c in cols && c in r
    ensures forall c :: c in s ==> s[c] == r[c]
  {
    map c | c in cols && c in r :: r[c]
  }

  /** A row once the rounding loop has visited the labels in `done`. */
  function PartRounded(r: Row, done: seq<string>): (s: Row)
    ensures forall c :: c in s <==> c in r
  {
    map c | c in r :: if c in done && c != "Food" then Num(Round3(Val(r[c]))) else r[c]
  }

  /** Each row of a sorted table is a row of the table it was sorted from. */
  lemma SortedRowOrigin(a: Table, i: int)
    requires 0 <= i < |a.rows|
    ensures exists j :: 0 <= j < |a.rows| && SortByScore(a).rows[i] == a.rows[j]
  {
    assert SortByScore(a).rows[i] in multiset(a.rows);
  }

  /** The rows of a sorted table are the rows of the table it was sorted from,
      so the sorted table is well formed too. */
  lemma SortedWellFormed(t: Table)
    requires WellFormed(t)
    ensures WellFormed(SortByScore(t))
  {
    var s := SortByScore(t);
    forall i | 0 <= i < |s.rows|
      ensures forall c :: c in s.rows[i] <==> c in s.columns
    {
      assert s.rows[i] in multiset(t.rows);
      var j :| 0 <= j < |t.rows| && t.rows[j] == s.rows[i];
    }
  }

  /** The scored table is well formed and has every label `recommend` asks for. */
  lemma ScoredColumns(t: Table, goal: Option<string>)
    requires Clean(t)
    ensures WellFormed(Scored(t, goal))
    ensures forall c :: c in ReturnColumns ==> c in Scored(t, goal).columns
    ensures Present(ReturnColumns, Scored(t, goal).columns) == ReturnColumns
  {
    var a := Annotated(t, goal);
    AnnotatedColumns(t, goal);
    assert forall c :: c in ReturnColumns ==> c == "Food" || c in Required || c in Generated;
    assert forall c :: c in ReturnColumns ==> c in a.columns;
    SortedWellFormed(a);
    assert Scored(t, goal) == SortByScore(a);
  }

  /** Every ranked row is the scored form of one row of the dataset: same
      food cell, and the closed-form score of that row. */
  lemma RankedRowOrigin(t: Table, goal: Option<string>, i: int)
    requires Clean(t) && 0 <= i < |t.rows|
    ensures exists j ::
      && 0 <= j < |t.rows|
      && At(Scored(t, goal).rows[i], "Food") == At(t.rows[j], "Food")
      && Score(Scored(t, goal).rows[i]) == ScoreAt(Prepared(t), GoalWeights(goal), j)
  {
    var a := Annotated(t, goal);
    SortedRowOrigin(a, i);
    var j :| 0 <= j < |a.rows| && SortByScore(a).rows[i] == a.rows[j];
    AnnotatedRow(t, goal, j);
  }

  /** Row `j` of the scored table before sorting: the dataset's food cell and
      the closed-form score. */
  lemma AnnotatedRow(t: Table, goal: Option<string>, j: int)
    requires Clean(t) && 0 <= j < |t.rows|
    ensures At(Annotated(t, goal).rows[j], "Food") == At(t.rows[j], "Food")
    ensures Score(Annotated(t, goal).rows[j]) == ScoreAt(Prepared(t), GoalWeights(goal), j)
  {
    assert "Food" !in Generated;
    AnnotatedKeeps(t, goal, j, "Food");
    AnnotatedScore(t, goal, j);
  }

  /** The first ranked row scores at least as much as every food of the dataset. */
  lemma RankedTopIsBest(t: Table, goal: Option<string>, j: int)
    requires Clean(t) && 0 <= j < |t.rows|
    ensures Score(Scored(t, goal).rows[0]) >= ScoreAt(Prepared(t), GoalWeights(goal), j)
  {
    SortedTopIsMax(Annotated(t, goal), j);
    AnnotatedScore(t, goal, j);
  }

  /** The returned scores, rounded, still never increase down the list. */
  lemma RecordsSorted(t: Table, goal: Option<string>, i: int, j: int)
    requires Clean(t) && 0 <= i < j < |t.rows|
    ensures var s := Scored(t, goal);
      "score" in RecordOf(s.rows[i]) && "score" in RecordOf(s.rows[j])
      && Val(RecordOf(s.rows[j])["score"]) <= Val(RecordOf(s.rows[i])["score"])
  {
    var s := Scored(t, goal);
    ScoredColumns(t, goal);
    assert "score" in ReturnColumns;
    assert Score(s.rows[j]) <= Score(s.rows[i]);
    Round3Monotone(Score(s.rows[j]), Score(s.rows[i]));
  }

  /** Rounding every returned label of a restricted row is the record of the
      full row. */
  lemma RoundedIsRecord(r: Row)
    ensures PartRounded(Restrict(r, ReturnColumns), ReturnColumns) == RecordOf(r)
  {
  }

  class Recommender {
    /** `self.df`: the cleaned nutrient table. */
    var df: Table

    ghost predicate Valid()
      reads this
    {
      Clean(df)
    }

    constructor FromTable(t: Table)
      requires Clean(t)
      ensures df == t && Valid()
    {
      df := t;
    }

    /** `Recommender(data_path)` after `read_csv` has produced `raw`: the
        cleaned table, or the `ValueError` for a file without columns. */
    static method Create(raw: RawTable) returns (r: Result<Recommender, LoadError>)
      ensures r.Failure? <==> raw.header == []
      ensures r.Success? ==> fresh(r.value) && r.value.Valid() && r.value.df == LoadSpec(raw).value
    {
      var cleaned := CleanTable(raw);
      if cleaned.Failure? {
        r := Failure(cleaned.error);
      } else {
        var rec := new Recommender.FromTable(cleaned.value);
        r := Success(rec);
      }
    }

    /** `score_foods(targets, goal)`: a scored copy of `df`, best first;
        `df` itself is left alone. `targets` is accepted and not used. */
    method ScoreFoods(targets: Targets, goal: Option<string>) returns (scored: Table)
      requires Valid()
      ensures scored == Scored(df, goal)
    {
      var work := df;
      for k := 0 to |Required|
        invariant work == EnsureColumns(df, Required[..k])
      {
        assert Required[..k + 1][..k] == Required[..k];
        if Required[k] !in work.columns {
          work := SetColumn(work, Required[k], Zeros(|work.rows|));
        }
      }
      assert Required[..|Required|] == Required;
      work := SetColumn(work, "protein_per_kcal", RatioColumn(work, "Protein"));
      work := SetColumn(work, "fiber_per_kcal", RatioColumn(work, "Dietary Fiber"));
      work := SetColumn(work, "sugar_per_kcal", RatioColumn(work, "Sugars"));
      work := SetColumn(work, "sodium_per_kcal", RatioColumn(work, "Sodium"));
      work := SetColumn(work, "satfat_per_kcal", RatioColumn(work, "Saturated Fats"));
      work := SetColumn(work, "nutrition_density", Column(work, "Nutrition Density"));
      assert work == Prepared(df);
      var weights := GoalWeights(goal);
      work := SetColumn(work, "score", WeightedScores(work, weights));
      if "Cholesterol" in work.columns {
        work := SetColumn(work, "score", Penalised(work));
      }
      scored := SortByScore(work);
    }

    /** `recommend(targets, goal, top_k)`: the first `top_k` ranked foods as
        records, numbers rounded to three decimals. */
    method Recommend(targets: Targets, goal: Option<string>, topK: int) returns (records: seq<Record>)
      requires Valid()
      ensures |records| == HeadCount(topK, |df.rows|)
      ensures forall i :: 0 <= i < |records| ==> records[i] == RecordOf(Scored(df, goal).rows[i])
    {
      var scored := ScoreFoods(targets, goal);
      ScoredColumns(df, goal);
      var cols := Present(ReturnColumns, scored.columns);
      var n := HeadCount(topK, |scored.rows|);
      var result := Pick(scored, cols, n);
      ReturnColumnsDistinct();
      var rounded := RoundNumbers(result);
      forall i | 0 <= i < n
        ensures rounded.rows[i] == RecordOf(scored.rows[i])
      {
        RoundedIsRecord(scored.rows[i]);
      }
      records := rounded.rows;
    }
  }

  /** The returned labels differ pairwise: their first two letters already do. */
  lemma ReturnColumnsDistinct()
    ensures Distinct(ReturnColumns)
  {
    var rc := ReturnColumns;
    forall i, j | 0 <= i < j < |rc|
      ensures rc[i] != rc[j]
    {
      assert rc[i][0] != rc[j][0] || rc[i][1] != rc[j][1];
    }
  }

  /** `scored[cols].head(n)`: the first `n` rows, restricted to `cols`. */
  function Pick(s: Table, cols: seq<string>, n: nat): (r: Table)
    requires n <= |s.rows|
    ensures r.columns == cols && |r.rows| == n
    ensures forall i :: 0 <= i < n ==> r.rows[i] == Restrict(s.rows[i], cols)
    ensures WellFormed(s) && (forall c :: c in cols ==> c in s.columns) ==> WellFormed(r)
  {
    Table(cols, seq(n, i requires 0 <= i < n => Restrict(s.rows[i], cols)))
  }

  /** No label occurs twice. */
  predicate Distinct(cols: seq<string>) {
    forall i, j :: 0 <= i < j < |cols| ==> cols[i] != cols[j]
  }

  /** The loop `for c in result_df.columns: if c != "Food": ...` of
      `recommend`: every cell except the food cell is rounded to three
      decimals. */
  method RoundNumbers(t: Table) returns (r: Table)
    requires WellFormed(t) && Distinct(t.columns)
    ensures r.columns == t.columns && |r.rows| == |t.rows|
    ensures forall i :: 0 <= i < |t.rows| ==> r.rows[i] == PartRounded(t.rows[i], t.columns)
  {
    var cols := t.columns;
    r := t;
    for k := 0 to |cols|
      invariant r.columns == cols && |r.rows| == |t.rows|
      invariant forall i :: 0 <= i < |t.rows| ==> r.rows[i] == PartRounded(t.rows[i], cols[..k])
    {
      var c := cols[k];
      assert c !in cols[..k];
      forall i | 0 <= i < |t.rows|
        ensures c in t.rows[i] && At(r.rows[i], c) == t.rows[i][c]
      {
        assert c in t.columns;
        assert r.rows[i] == PartRounded(t.rows[i], cols[..k]);
      }
      if c != "Food" {
        r := SetColumn(r, c, RoundedColumn(r, c));
      }
      forall i | 0 <= i < |t.rows|
        ensures r.rows[i] == PartRounded(t.rows[i], cols[..k + 1])
      {
        RoundStep(t.rows[i], cols, k);
      }
    }
    assert cols[..|cols|] == cols;
  }

  /** Column `c` with every value rounded to three decimals. */
  function RoundedColumn(t: Table, c: string): (col: seq<real>)
    ensures |col| == |t.rows|
    ensures forall i :: 0 <= i < |t.rows| ==> col[i] == Round3(Get(t, i, c))
  {
    seq(|t.rows|, i requires 0 <= i < |t.rows| => Round3(Get(t, i, c)))
  }

  /** One step of the rounding loop on one row: visiting a label not visited
      before rounds that label's cell, except under "Food". */
  lemma RoundStep(r: Row, cols: seq<string>, k: int)
    requires 0 <= k < |cols| && cols[k] in r && cols[k] !in cols[..k]
    ensures cols[k] != "Food" ==>
      PartRounded(r, cols[..k + 1]) == PartRounded(r, cols[..k])[cols[k] := Num(Round3(Val(r[cols[k]])))]
    ensures cols[k] == "Food" ==> PartRounded(r, cols[..k + 1]) == PartRounded(r, cols[..k])
  {
    assert forall c :: c in cols[..k + 1] <==> c in cols[..k] || c == cols[k];
  }
}
