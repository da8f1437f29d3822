/** `DataFrame.sort_values(by='score', ascending=False)`: the rows of a table
    reordered so that the scores never increase. pandas' default sort is not
    stable; the insertion sort here puts each row in front of the rows it
    ties with, one of the orders pandas may produce. */
module Ranking {
  import opened Tables

  /** The score cell of a row, read as a number. */
  function Score(r: Row): real {
    Val(At(r, "score"))
  }

  /** Scores never increase from one row to a later one. */
  predicate SortedDesc(rows: seq<Row>) {
    forall i, j :: 0 <= i < j < |rows| ==> Score(rows[j]) <= Score(rows[i])
  }

  /** Places `r` in front of the first row that scores no more than it, so
      `r` goes before the rows it ties with. */
  function Insert(r: Row, rows: seq<Row>): (res: seq<Row>)
    ensures |res| == |rows| + 1
    ensures multiset(res) == multiset(rows) + multiset{r}
    ensures res[0] == r || (rows != [] && res[0] == rows[0])
  {
    if rows == [] then [r]
    else if Score(rows[0]) <= Score(r) then [r] + rows
    else
      assert rows == [rows[0]] + rows[1..];
      [rows[0]] + Insert(r, rows[1..])
  }

  /** Inserting into a sorted sequence keeps it sorted. */
  lemma {:induction false} InsertSorted(r: Row, rows: seq<Row>)
    requires SortedDesc(rows)
    ensures SortedDesc(Insert(r, rows))
  {
    if rows != [] && Score(r) < Score(rows[0]) {
      InsertSorted(r, rows[1..]);
      assert |rows| > 1 ==> Score(rows[1..][0]) <= Score(rows[0]);
      ConsSorted(rows[0], Insert(r, rows[1..]));
    } else {
      ConsSorted(r, rows);
    }
  }

  /** A row in front of a sorted sequence keeps it sorted when it scores at
      least as much as the sequence's first row. */
  lemma ConsSorted(a: Row, rows: seq<Row>)
    requires SortedDesc(rows)
    requires rows != [] ==> Score(rows[0]) <= Score(a)
    ensures SortedDesc([a] + rows)
  {
    forall i, j | 0 <= i < j < |rows| + 1
      ensures Score(([a] + rows)[j]) <= Score(([a] + rows)[i])
    {
      if i == 0 && j > 1 {
        assert Score(rows[j - 1]) <= Score(rows[0]);
      }
    }
  }

  /** Insertion sort, highest score first; each row is inserted in front of
      the later rows it ties with, so ties keep their order. */
  function SortDesc(rows: seq<Row>): (res: seq<Row>)
    ensures |res| == |rows|
    ensures multiset(res) == multiset(rows)
    ensures SortedDesc(res)
  {
    if rows == [] then []
    else
      assert rows == [rows[0]] + rows[1..];
      var sorted := SortDesc(rows[1..]);
      InsertSorted(rows[0], sorted);
      Insert(rows[0], sorted)
  }

  /** The table with its rows sorted by score, highest first. */
  function SortByScore(t: Table): (r: Table)
    ensures r.columns == t.columns
    ensures |r.rows| == |t.rows|
    ensures multiset(r.rows) == multiset(t.rows)
    ensures SortedDesc(r.rows)
  {
    Table(t.columns, SortDesc(t.rows))
  }

  /** The first row of a sorted, non-empty table scores at least as much as
      every row of the table it was sorted from. */
  lemma {:induction false} SortedTopIsMax(t: Table, j: int)
    requires 0 <= j < |t.rows|
    ensures Score(SortByScore(t).rows[0]) >= Score(t.rows[j])
  {
    var s := SortByScore(t).rows;
    assert t.rows[j] in multiset(t.rows);
    assert t.rows[j] in multiset(s);
    var m :| 0 <= m < |s| && s[m] == t.rows[j];
    if m > 0 {
      assert Score(s[m]) <= Score(s[0]);
    }
  }

  /** Sorting rows that are already in order changes nothing, equal scores
      included: the sort never swaps two rows that tie. */
  lemma {:induction false} SortSortedUnchanged(rows: seq<Row>)
    requires SortedDesc(rows)
    ensures SortDesc(rows) == rows
  {
    if rows != [] {
      assert rows == [rows[0]] + rows[1..];
      SortSortedUnchanged(rows[1..]);
      if |rows| > 1 {
        assert Score(rows[1]) <= Score(rows[0]);
      }
    }
  }
}
