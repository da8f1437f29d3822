/** The nutrient table: an ordered list of column labels and, per food, a
    mapping from label to cell; and the load-time clean-up of
    `Recommender.__init__` (header stripping, the "Food" column, numeric
    coercion with zero fill). */
module Tables {
  import opened Wrappers
  import opened Text

  /** One cell as the CSV reader delivers it: a number, a string pandas cannot
      read as a number, or an empty field. */
  datatype Cell = Num(v: real) | Str(s: string) | Missing

  /** `pd.to_numeric(x, errors='coerce')` followed by `fillna(0)`. */
  function Val(c: Cell): (v: real)
    ensures c.Num? ==> v == c.v
    ensures !c.Num? ==> v == 0.0
  {
    match c
    case Num(v) => v
    case _ => 0.0
  }

  type Row = map<string, Cell>

  /** A data frame: column labels in order, one row per food. */
  datatype Table = Table(columns: seq<string>, rows: seq<Row>)

  /** Every row has a cell under every label, and under no other. */
  ghost predicate WellFormed(t: Table) {
    forall i, c :: 0 <= i < |t.rows| ==> (c in t.rows[i] <==> c in t.columns)
  }

  /** The cell of a row under label `c`, `Missing` when there is none. */
  function At(r: Row, c: string): Cell {
    if c in r then r[c] else Missing
  }

  /** `row.get(c, 0)` on row `i`. */
  function Get(t: Table, i: int, c: string): real {
    if 0 <= i < |t.rows| then Val(At(t.rows[i], c)) else 0.0
  }

  /** `row.get(c, 0)` reads the number under `c`, and 0 when the row has no
      such label. */
  lemma GetDefault(t: Table, i: int, c: string)
    requires 0 <= i < |t.rows|
    ensures c in t.rows[i] ==> Get(t, i, c) == Val(t.rows[i][c])
    ensures c !in t.rows[i] ==> Get(t, i, c) == 0.0
  {
  }

  /** `df[c]` as a list of numbers. */
  function Column(t: Table, c: string): (col: seq<real>)
    ensures |col| == |t.rows|
    ensures forall i :: 0 <= i < |col| ==> col[i] == Get(t, i, c)
  {
    seq(|t.rows|, i requires 0 <= i < |t.rows| => Get(t, i, c))
  }

  /** `df[c] = vals`: overwrite column `c` if it exists, else append it. */
  function SetColumn(t: Table, c: string, vals: seq<real>): (r: Table)
    requires |vals| == |t.rows|
    ensures |r.rows| == |t.rows|
    ensures r.columns == if c in t.columns then t.columns else t.columns + [c]
    ensures WellFormed(t) ==> WellFormed(r)
    ensures forall i :: 0 <= i < |r.rows| ==> r.rows[i] == t.rows[i][c := Num(vals[i])]
  {
    Table(if c in t.columns then t.columns else t.columns + [c],
          seq(|t.rows|, i requires 0 <= i < |t.rows| => t.rows[i][c := Num(vals[i])]))
  }

  /** Writing column `c` of row `i` changes only that cell, which then holds `vals[i]`. */
  lemma SetColumnAt(t: Table, c: string, vals: seq<real>, i: int, d: string)
    requires |vals| == |t.rows| && 0 <= i < |t.rows|
    ensures At(SetColumn(t, c, vals).rows[i], d) == if d == c then Num(vals[i]) else At(t.rows[i], d)
    ensures Get(SetColumn(t, c, vals), i, d) == if d == c then vals[i] else Get(t, i, d)
  {
  }

  /** Writing column `c` leaves every other column as it was. */
  lemma SetColumnOther(t: Table, c: string, vals: seq<real>, d: string)
    requires |vals| == |t.rows| && d != c
    ensures Column(SetColumn(t, c, vals), d) == Column(t, d)
  {
    forall j | 0 <= j < |t.rows|
      ensures Column(SetColumn(t, c, vals), d)[j] == Column(t, d)[j]
    {
      SetColumnAt(t, c, vals, j, d);
    }
  }

  // ----- Recommender.__init__ -----

  /** The frame `pd.read_csv` returns: a header and positional rows. */
  datatype RawTable = RawTable(header: seq<string>, cells: seq<seq<Cell>>)

  /** The `ValueError` raised for a table without any column. */
  datatype LoadError = NoColumns

  /** Position of the first label `c`; `|cols|` when there is none. */
  function IndexOf(cols: seq<string>, c: string): (k: nat)
    ensures k <= |cols|
    ensures k < |cols| <==> c in cols
    ensures k < |cols| ==> cols[k] == c
    ensures forall j :: 0 <= j < k ==> cols[j] != c
  {
    if |cols| == 0 then 0
    else if cols[0] == c then 0
    else 1 + IndexOf(cols[1..], c)
  }

  /** Cell `j` of a raw row; the reader fills a short row with empty cells. */
  function CellAt(row: seq<Cell>, j: nat): Cell {
    if j < |row| then row[j] else Missing
  }

  /** Every header label with surrounding whitespace removed. */
  function StripHeaders(cols: seq<string>): (r: seq<string>)
    ensures |r| == |cols|
    ensures forall j :: 0 <= j < |cols| ==> r[j] == Strip(cols[j])
  {
    seq(|cols|, j requires 0 <= j < |cols| => Strip(cols[j]))
  }

  /** Renaming the first column to "Food" by its label: every column
      labelled like the first one gets the label "Food". */
  function RenameFirstToFood(cols: seq<string>): (r: seq<string>)
    requires |cols| >= 1
    ensures |r| == |cols| && r[0] == "Food"
    ensures forall j :: 0 <= j < |cols| ==> r[j] == (if cols[j] == cols[0] then "Food" else cols[j])
  {
    seq(|cols|, j requires 0 <= j < |cols| => if cols[j] == cols[0] then "Food" else cols[j])
  }

  /** The "Food" check of `__init__`: keep the labels when "Food" is among
      them, rename the first column otherwise, fail when there is no column. */
  function FoodHeaders(cols: seq<string>): (r: Result<seq<string>, LoadError>)
    ensures r.Failure? <==> cols == []
    ensures r.Success? ==> "Food" in r.value && |r.value| == |cols|
    ensures "Food" in cols ==> r == Success(cols)
    ensures "Food" !in cols && r.Success? ==>
      r.value[0] == "Food" && forall j :: 0 <= j < |cols| && cols[j] != cols[0] ==> r.value[j] == cols[j]
  {
    if "Food" in cols then Success(cols)
    else if |cols| >= 1 then Success(RenameFirstToFood(cols))
    else Failure(NoColumns)
  }

  /** One raw row under the cleaned labels: the "Food" cell is kept, every
      other cell goes through `to_numeric` and `fillna(0)`. */
  function CoerceRow(cols: seq<string>, raw: seq<Cell>): (r: Row)
    ensures forall c :: c in r <==> c in cols
    ensures forall c :: c in r && c != "Food" ==> r[c].Num?
    ensures forall j :: 0 <= j < |cols| && IndexOf(cols, cols[j]) == j ==>
      r[cols[j]] == (if cols[j] == "Food" then CellAt(raw, j) else Num(Val(CellAt(raw, j))))
  {
    map c | c in cols :: if c == "Food" then CellAt(raw, IndexOf(cols, c)) else Num(Val(CellAt(raw, IndexOf(cols, c))))
  }

  /** A cleaned table: well formed, has a "Food" column, and every other cell is a number. */
  ghost predicate Clean(t: Table) {
    && WellFormed(t)
    && "Food" in t.columns
    && forall i, c :: 0 <= i < |t.rows| && c in t.rows[i] && c != "Food" ==> t.rows[i][c].Num?
  }

  /** What `Recommender.__init__` leaves in `self.df`, or the error it raises. */
  function LoadSpec(raw: RawTable): (r: Result<Table, LoadError>)
    ensures r.Failure? <==> raw.header == []
    ensures r.Success? ==> Clean(r.value) && |r.value.columns| == |raw.header| && |r.value.rows| == |raw.cells|
    ensures r.Success? ==> forall i, j ::
      (0 <= i < |raw.cells| && 0 <= j < |raw.header| && IndexOf(r.value.columns, r.value.columns[j]) == j) ==>
      r.value.rows[i][r.value.columns[j]]
        == (if r.value.columns[j] == "Food" then CellAt(raw.cells[i], j) else Num(Val(CellAt(raw.cells[i], j))))
  {
    match FoodHeaders(StripHeaders(raw.header))
    case Failure(e) => Failure(e)
    case Success(cols) =>
      var t := Table(cols, CoerceRows(cols, raw.cells));
      assert Clean(t);
      Success(t)
  }

  /** Every raw row coerced under the cleaned labels. */
  function CoerceRows(cols: seq<string>, cells: seq<seq<Cell>>): (rows: seq<Row>)
    ensures |rows| == |cells|
    ensures forall i :: 0 <= i < |cells| ==> rows[i] == CoerceRow(cols, cells[i])
    ensures forall i, c :: 0 <= i < |cells| ==> (c in rows[i] <==> c in cols)
    ensures forall i, c :: 0 <= i < |cells| && c in rows[i] && c != "Food" ==> rows[i][c].Num?
    ensures forall i, j :: 0 <= i < |cells| && 0 <= j < |cols| && IndexOf(cols, cols[j]) == j ==>
      rows[i][cols[j]] == (if cols[j] == "Food" then CellAt(cells[i], j) else Num(Val(CellAt(cells[i], j))))
  {
    seq(|cells|, i requires 0 <= i < |cells| => CoerceRow(cols, cells[i]))
  }

  /** The header handling of `__init__`: labels are stripped; when no label
      is "Food", the first column is the one renamed. */
  lemma LoadHeaders(raw: RawTable)
    requires raw.header != []
    ensures var stripped := StripHeaders(raw.header);
      var cols := LoadSpec(raw).value.columns;
      && ("Food" in stripped ==> cols == stripped)
      && ("Food" !in stripped ==>
            cols[0] == "Food" && forall j :: 0 <= j < |cols| && stripped[j] != stripped[0] ==> cols[j] == stripped[j])
  {
  }

  /** Line 9 of `__init__`: strip every header label. */
  method StripAll(header: seq<string>) returns (cols: seq<string>)
    ensures cols == StripHeaders(header)
  {
    cols := [];
    for j := 0 to |header|
      invariant cols == StripHeaders(header)[..j]
    {
      cols := cols + [Strip(header[j])];
    }
  }

  /** Line 18 of `__init__`: coerce every non-"Food" cell of every row. */
  method CoerceAll(cols: seq<string>, cells: seq<seq<Cell>>) returns (rows: seq<Row>)
    ensures rows == CoerceRows(cols, cells)
  {
    rows := [];
    for i := 0 to |cells|
      invariant |rows| == i
      invariant forall k :: 0 <= k < i ==> rows[k] == CoerceRow(cols, cells[k])
    {
      rows := rows + [CoerceRow(cols, cells[i])];
    }
  }

  /** The body of `Recommender.__init__` after `read_csv`, step by step on a
      working frame. */
  method CleanTable(raw: RawTable) returns (r: Result<Table, LoadError>)
    ensures r == LoadSpec(raw)
  {
    var cols := StripAll(raw.header);
    ghost var stripped := cols;
    if "Food" !in cols {
      if |cols| >= 1 {
        cols := RenameFirstToFood(cols);
      } else {
        return Failure(NoColumns);
      }
    }
    assert FoodHeaders(stripped) == Success(cols);
    var rows := CoerceAll(cols, raw.cells);
    r := Success(Table(cols, rows));
  }
}
