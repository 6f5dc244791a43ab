/**
 * Turning a query's result set into host values, in the two forms the bridge
 * offers: rows as arrays in column order, and rows as dictionaries keyed by
 * column name.
 *
 * The result set is the client library's: column metadata plus, for each
 * cell, what its getters return. Its integer getters are fixed-width casts of
 * the cell's integer value, which is what decides the results here.
 */
module ResultSets {

  import opened Variants

  /** The client library's SQL type codes, in the library's order. */
  datatype SqlType =
    | Unknown | Bit | TinyInt | SmallInt | MediumInt | Integer | BigInt
    | RealType | DoubleType | Decimal | Numeric
    | Char | Binary | VarChar | VarBinary | LongVarChar | LongVarBinary
    | Timestamp | Date | Time | Year | Geometry | Enum | SetType | SqlNullType | Json

  /** Column metadata: name, type code and signedness. */
  datatype Column = Column(name: string, sqlType: SqlType, signed: bool)

  /** What the library reads from one cell: its integer value, its double, its text rendering, its boolean. */
  datatype Cell = Cell(integer: int, number: Double, text: string, flag: bool)

  datatype ResultSet = ResultSet(columns: seq<Column>, rows: seq<seq<Cell>>)

  /** Every row has one cell per column, and the row count fits the library's counters. */
  predicate WellFormed(rs: ResultSet)
  {
    && |rs.rows| <= INT64_MAX
    && forall r :: 0 <= r < |rs.rows| ==> |rs.rows[r]| == |rs.columns|
  }

  type Table = rs: ResultSet | WellFormed(rs) witness ResultSet([], [])

  /** The four integer types the materialisers read as integers (INTEGER is not among them). */
  predicate IntegerFamily(t: SqlType)
  {
    t == TinyInt || t == SmallInt || t == MediumInt || t == BigInt
  }

  /** The types read through the double getter. */
  predicate RealFamily(t: SqlType)
  {
    t == RealType || t == DoubleType || t == Decimal || t == Numeric
  }

  // The library's integer getters: casts of the cell's integer value.
  function GetInt(c: Cell): Int32 { WrapInt32(c.integer) }
  function GetUInt(c: Cell): nat { c.integer % TWO_32 }
  function GetInt64(c: Cell): Int64 { WrapInt64(c.integer) }
  function GetUInt64(c: Cell): nat { c.integer % TWO_64 }

  /** A cell of the array form: integers through the 32-bit getters, signed or unsigned by the column. */
  function ArrayCell(col: Column, c: Cell): Variant
  {
    if col.sqlType == Bit then Bool(c.flag)
    else if IntegerFamily(col.sqlType) then
      if col.signed then Int(GetInt(c)) else Int(GetUInt(c))
    else if RealFamily(col.sqlType) then Real(c.number)
    else Str(c.text)
  }

  /**
   * A cell of the dictionary form: integers through the 64-bit getters. The
   * unsigned reading is stored into the host's signed 64-bit integer, which
   * reinterprets its bits.
   */
  function DictCell(col: Column, c: Cell): Variant
  {
    if col.sqlType == Bit then Bool(c.flag)
    else if IntegerFamily(col.sqlType) then
      if col.signed then Int(GetInt64(c)) else Int(WrapInt64(GetUInt64(c)))
    else if RealFamily(col.sqlType) then Real(c.number)
    else Str(c.text)
  }

  /** Array form integers: signed values of 32-bit range are kept; unsigned ones keep their low 32 bits and are never negative. */
  lemma ArrayIntegers(col: Column, c: Cell)
    requires IntegerFamily(col.sqlType)
    ensures col.signed && INT32_MIN <= c.integer <= INT32_MAX ==> ArrayCell(col, c) == Int(c.integer)
    ensures !col.signed ==> ArrayCell(col, c).Int? && 0 <= ArrayCell(col, c).i < TWO_32
    ensures !col.signed ==> (ArrayCell(col, c).i - c.integer) % TWO_32 == 0
    ensures !col.signed && 0 <= c.integer < TWO_32 ==> ArrayCell(col, c) == Int(c.integer)
  {
  }

  /**
   * Dictionary form integers: signed 64-bit values and unsigned values up to
   * 2^63-1 are kept; an unsigned value of 2^63 or more comes out negative,
   * shifted by 2^64.
   */
  lemma DictIntegers(col: Column, c: Cell)
    requires IntegerFamily(col.sqlType)
    ensures col.signed && INT64_MIN <= c.integer <= INT64_MAX ==> DictCell(col, c) == Int(c.integer)
    ensures !col.signed && 0 <= c.integer <= INT64_MAX ==> DictCell(col, c) == Int(c.integer)
    ensures !col.signed && INT64_MAX < c.integer < TWO_64 ==> DictCell(col, c) == Int(c.integer - TWO_64)
  {
  }

  /**
   * Outside the integer family the two forms read a cell alike: BIT as a
   * bool, the real types as a double, everything else (INTEGER included)
   * as its text.
   */
  lemma FormsAgreeOffIntegers(col: Column, c: Cell)
    requires !IntegerFamily(col.sqlType)
    ensures ArrayCell(col, c) == DictCell(col, c)
    ensures col.sqlType == Bit ==> ArrayCell(col, c) == Bool(c.flag)
    ensures RealFamily(col.sqlType) ==> ArrayCell(col, c) == Real(c.number)
    ensures col.sqlType != Bit && !RealFamily(col.sqlType) ==> ArrayCell(col, c) == Str(c.text)
    ensures col.sqlType == Integer ==> ArrayCell(col, c) == Str(c.text)
  {
  }

  /** The whole result in array form: row r, column c holds ArrayCell of that cell. */
  function ArrayTable(rs: Table): seq<seq<Variant>>
  {
    seq(|rs.rows|, r requires 0 <= r < |rs.rows| =>
      seq(|rs.columns|, c requires 0 <= c < |rs.columns| => ArrayCell(rs.columns[c], rs.rows[r][c])))
  }

  /** `_process_result_set_as_array`: one array per row, in order, one cell per column, in column order. */
  method ProcessResultSetAsArray(rs: Table) returns (result: seq<seq<Variant>>)
    ensures |result| == |rs.rows|
    ensures forall r :: 0 <= r < |result| ==> |result[r]| == |rs.columns|
    ensures forall r, c :: 0 <= r < |result| && 0 <= c < |rs.columns| ==>
              result[r][c] == ArrayCell(rs.columns[c], rs.rows[r][c])
    ensures result == ArrayTable(rs)
  {
    result := [];
    var r := 0;
    while r < |rs.rows|
      invariant 0 <= r <= |rs.rows|
      invariant |result| == r
      invariant forall i :: 0 <= i < r ==> |result[i]| == |rs.columns|
      invariant forall i, c :: 0 <= i < r && 0 <= c < |rs.columns| ==>
                  result[i][c] == ArrayCell(rs.columns[c], rs.rows[i][c])
    {
      var cells := rs.rows[r];
      var row: seq<Variant> := [];
      for c := 0 to |rs.columns|
        invariant |row| == c
        invariant forall j :: 0 <= j < c ==> row[j] == ArrayCell(rs.columns[j], cells[j])
      {
        var col := rs.columns[c];
        if col.sqlType == Bit {
          row := row + [Bool(cells[c].flag)];
        } else if IntegerFamily(col.sqlType) {
          if col.signed {
            row := row + [Int(GetInt(cells[c]))];
          } else {
            row := row + [Int(GetUInt(cells[c]))];
          }
        } else if RealFamily(col.sqlType) {
          row := row + [Real(cells[c].number)];
        } else {
          row := row + [Str(cells[c].text)];
        }
      }
      result := result + [row];
      r := r + 1;
    }
    var t := ArrayTable(rs);
    forall r | 0 <= r < |result| ensures result[r] == t[r] {
      assert |t[r]| == |result[r]|;
      forall c | 0 <= c < |rs.columns| ensures result[r][c] == t[r][c] {
      }
    }
  }

  /** The names of a list of columns. */
  function ColumnNames(columns: seq<Column>): set<string>
  {
    set c | 0 <= c < |columns| :: columns[c].name
  }

  /** Column c is the last one carrying its name. */
  predicate LastOfName(columns: seq<Column>, c: nat)
    requires c < |columns|
  {
    forall d :: c < d < |columns| ==> columns[d].name != columns[c].name
  }

  /** One row in dictionary form: the cells stored under their column names, left to right, later ones overwriting. */
  function DictRow(columns: seq<Column>, cells: seq<Cell>): map<string, Variant>
    requires |cells| == |columns|
  {
    if columns == [] then map[]
    else
      var n := |columns| - 1;
      DictRow(columns[..n], cells[..n])[columns[n].name := DictCell(columns[n], cells[n])]
  }

  /** Dropping the last column drops its name and keeps the others. */
  lemma ColumnNamesSnoc(columns: seq<Column>)
    requires columns != []
    ensures ColumnNames(columns) == ColumnNames(columns[..|columns| - 1]) + {columns[|columns| - 1].name}
  {
    var n := |columns| - 1;
    var cs := columns[..n];
    forall x | x in ColumnNames(columns) ensures x in ColumnNames(cs) + {columns[n].name} {
      var c :| 0 <= c < |columns| && columns[c].name == x;
      if c < n { assert cs[c] == columns[c]; }
    }
    forall x | x in ColumnNames(cs) ensures x in ColumnNames(columns) {
      var c :| 0 <= c < |cs| && cs[c].name == x;
      assert columns[c] == cs[c];
    }
  }

  /** A dictionary row has exactly the column names as keys. */
  lemma {:induction false} DictRowKeys(columns: seq<Column>, cells: seq<Cell>)
    requires |cells| == |columns|
    ensures DictRow(columns, cells).Keys == ColumnNames(columns)
  {
    if columns != [] {
      var n := |columns| - 1;
      DictRowKeys(columns[..n], cells[..n]);
      ColumnNamesSnoc(columns);
    }
  }

  /** Under each name a dictionary row holds the cell of the last column with that name. */
  lemma {:induction false} DictRowLastWins(columns: seq<Column>, cells: seq<Cell>, c: nat)
    requires |cells| == |columns|
    requires c < |columns| && LastOfName(columns, c)
    ensures columns[c].name in DictRow(columns, cells)
    ensures DictRow(columns, cells)[columns[c].name] == DictCell(columns[c], cells[c])
  {
    var n := |columns| - 1;
    DictRowKeys(columns, cells);
    if c < n {
      var cs, vs := columns[..n], cells[..n];
      assert columns[n].name != columns[c].name;
      assert cs[c] == columns[c] && vs[c] == cells[c];
      assert LastOfName(cs, c) by {
        forall d | c < d < |cs| ensures cs[d].name != cs[c].name {
          assert cs[d] == columns[d];
        }
      }
      DictRowLastWins(cs, vs, c);
    }
  }

  /** The whole result in dictionary form. */
  function DictTable(rs: Table): seq<map<string, Variant>>
  {
    seq(|rs.rows|, r requires 0 <= r < |rs.rows| => DictRow(rs.columns, rs.rows[r]))
  }

  /** `_process_result_set_as_dictionary`: one dictionary per row, in order, keyed by column name. */
  method ProcessResultSetAsDictionary(rs: Table) returns (result: seq<map<string, Variant>>)
    ensures |result| == |rs.rows|
    ensures forall r :: 0 <= r < |result| ==> result[r] == DictRow(rs.columns, rs.rows[r])
    ensures forall r :: 0 <= r < |result| ==> result[r].Keys == ColumnNames(rs.columns)
    ensures result == DictTable(rs)
  {
    result := [];
    var r := 0;
    while r < |rs.rows|
      invariant 0 <= r <= |rs.rows|
      invariant |result| == r
      invariant forall i :: 0 <= i < r ==> result[i] == DictRow(rs.columns, rs.rows[i])
    {
      var cells := rs.rows[r];
      var row: map<string, Variant> := map[];
      for c := 0 to |rs.columns|
        invariant row == DictRow(rs.columns[..c], cells[..c])
      {
        var col := rs.columns[c];
        assert rs.columns[..c + 1][..c] == rs.columns[..c] && cells[..c + 1][..c] == cells[..c];
        if col.sqlType == Bit {
          row := row[col.name := Bool(cells[c].flag)];
        } else if IntegerFamily(col.sqlType) {
          if col.signed {
            row := row[col.name := Int(GetInt64(cells[c]))];
          } else {
            row := row[col.name := Int(WrapInt64(GetUInt64(cells[c])))];
          }
        } else if RealFamily(col.sqlType) {
          row := row[col.name := Real(cells[c].number)];
        } else {
          row := row[col.name := Str(cells[c].text)];
        }
      }
      assert rs.columns[..|rs.columns|] == rs.columns && cells[..|cells|] == cells;
      result := result + [row];
      r := r + 1;
    }
    forall r | 0 <= r < |result| ensures result[r].Keys == ColumnNames(rs.columns) {
      DictRowKeys(rs.columns, rs.rows[r]);
    }
  }
}
