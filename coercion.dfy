/** The schema check and the type coercion that open `transform_orders`:
    every required column must be present, then the id, quantity, price and
    date columns are converted to their canonical types, one whole column at a
    time, and any cell without a canonical value aborts the call. */
module Coercion {
  import opened Tables
  import opened Sequences

  /** The columns every raw table must have, in the order the error lists them. */
  const REQUIRED_COLUMNS: seq<string> :=
    ["order_id", "customer_id", "order_date", "item", "quantity", "price", "city", "country"]

  /** The predicate "this column is not among `columns`". */
  function Absent(columns: seq<string>): string -> bool {
    c => c !in columns
  }

  /** The required columns that `columns` lacks, in `REQUIRED_COLUMNS` order. */
  function MissingColumns(columns: seq<string>): seq<string> {
    Filter(Absent(columns), REQUIRED_COLUMNS)
  }

  /** The error names every absent required column, no other column, and keeps
      the order of `REQUIRED_COLUMNS`; it is empty exactly when the schema is complete. */
  lemma MissingColumnsSpec(columns: seq<string>)
    ensures forall c :: c in MissingColumns(columns) <==> c in REQUIRED_COLUMNS && c !in columns
    ensures IsSubsequence(MissingColumns(columns), REQUIRED_COLUMNS)
    ensures MissingColumns(columns) == [] <==> forall c :: c in REQUIRED_COLUMNS ==> c in columns
  {
    AbsentColumns(columns, REQUIRED_COLUMNS);
  }

  /** `MissingColumnsSpec` for any list of required names. */
  lemma AbsentColumns(columns: seq<string>, required: seq<string>)
    ensures forall c :: c in Filter(Absent(columns), required) <==> c in required && c !in columns
    ensures IsSubsequence(Filter(Absent(columns), required), required)
    ensures Filter(Absent(columns), required) == [] <==> forall c :: c in required ==> c in columns
  {
    FilterMembers(Absent(columns), required);
    FilterIsSubsequence(Absent(columns), required);
    var missing := Filter(Absent(columns), required);
    if missing != [] {
      assert missing[0] in missing;
    }
  }

  /** Text parsing done by the runtime: `int()` and `float()` of a text cell and
      the date-only part of `pd.to_datetime` of a non-null cell. `None` means the
      value has no reading of that type. */
  datatype Parsers = Parsers(
    parseInt: string -> Option<int>,
    parseFloat: string -> Option<real>,
    parseDate: Cell -> Option<Date>)

  /** The canonical types a coerced column can take. */
  datatype Canonical = IntType | FloatType | DateType

  /** The coerced columns with their types, in the order the conversions run. */
  const COERCIONS: seq<(string, Canonical)> :=
    [("order_id", IntType), ("customer_id", IntType), ("quantity", FloatType),
     ("price", FloatType), ("order_date", DateType)]

  /** The outcome of converting one cell. */
  datatype Conversion<+T> = Converted(value: T) | Unconvertible

  /** Conversion of a float to an integer, which drops the fraction (rounds toward zero). */
  function TruncateToInt(x: real): (n: int)
    ensures x >= 0.0 ==> n as real <= x < n as real + 1.0
    ensures x < 0.0 ==> n as real - 1.0 < x <= n as real
  {
    if x >= 0.0 then x.Floor else -((-x).Floor)
  }

  /** The range of the 64-bit integers `astype(int)` produces. */
  const INT64_MIN: int := -0x8000_0000_0000_0000
  const INT64_MAX: int := 0x7FFF_FFFF_FFFF_FFFF

  predicate InInt64(n: int) {
    INT64_MIN <= n <= INT64_MAX
  }

  /** `astype(int)` of one cell: a missing value has no integer reading, and an
      integer (or integer text) outside the 64-bit range overflows. */
  function AsInt(c: Cell, p: Parsers): Conversion<int> {
    match c
    case Null => Unconvertible
    case Int(i) => if InInt64(i) then Converted(i) else Unconvertible
    case Real(x) => Converted(TruncateToInt(x))
    case Text(s) =>
      if p.parseInt(s).Some? && InInt64(p.parseInt(s).value) then Converted(p.parseInt(s).value)
      else Unconvertible
  }

  /** An integer or integer text converts exactly when it fits in 64 bits, and
      then to itself. */
  lemma AsIntWidth(c: Cell, p: Parsers)
    ensures c.Int? ==> (AsInt(c, p).Converted? <==> InInt64(c.i))
    ensures c.Int? && AsInt(c, p).Converted? ==> AsInt(c, p).value == c.i
    ensures c.Text? ==> (AsInt(c, p).Converted? <==> p.parseInt(c.s).Some? && InInt64(p.parseInt(c.s).value))
    ensures c.Text? && AsInt(c, p).Converted? ==> AsInt(c, p).value == p.parseInt(c.s).value
    ensures !c.Real? && AsInt(c, p).Converted? ==> InInt64(AsInt(c, p).value)
  {
  }

  /** `astype(float)` of one cell: a missing value stays missing (NaN). */
  function AsFloat(c: Cell, p: Parsers): Conversion<Option<real>> {
    match c
    case Null => Converted(None)
    case Int(i) => Converted(Some(i as real))
    case Real(x) => Converted(Some(x))
    case Text(s) => if p.parseFloat(s).Some? then Converted(Some(p.parseFloat(s).value)) else Unconvertible
  }

  /** `pd.to_datetime(...).dt.date` of one cell: a missing value stays missing (NaT). */
  function AsDate(c: Cell, p: Parsers): Conversion<Option<Date>> {
    if c == Null then Converted(None)
    else if p.parseDate(c).Some? then Converted(Some(p.parseDate(c).value))
    else Unconvertible
  }

  predicate Converts(kind: Canonical, c: Cell, p: Parsers) {
    match kind
    case IntType => AsInt(c, p).Converted?
    case FloatType => AsFloat(c, p).Converted?
    case DateType => AsDate(c, p).Converted?
  }

  /** Every cell of the column converts to `kind`. */
  predicate ColumnConverts(rows: seq<RawRow>, column: string, kind: Canonical, p: Parsers) {
    forall i :: 0 <= i < |rows| ==> Converts(kind, CellAt(rows[i], column), p)
  }

  /** Every coerced cell of the row converts. */
  predicate RowConverts(row: RawRow, p: Parsers) {
    forall k :: 0 <= k < |COERCIONS| ==> Converts(COERCIONS[k].1, CellAt(row, COERCIONS[k].0), p)
  }

  /** The canonical form of one row. */
  function CoerceRow(row: RawRow, p: Parsers): Order
    requires RowConverts(row, p)
  {
    assert Converts(COERCIONS[0].1, CellAt(row, COERCIONS[0].0), p);
    assert Converts(COERCIONS[1].1, CellAt(row, COERCIONS[1].0), p);
    assert Converts(COERCIONS[2].1, CellAt(row, COERCIONS[2].0), p);
    assert Converts(COERCIONS[3].1, CellAt(row, COERCIONS[3].0), p);
    assert Converts(COERCIONS[4].1, CellAt(row, COERCIONS[4].0), p);
    Order(
      AsInt(CellAt(row, "order_id"), p).value,
      AsInt(CellAt(row, "customer_id"), p).value,
      AsDate(CellAt(row, "order_date"), p).value,
      CellAt(row, "item"),
      AsFloat(CellAt(row, "quantity"), p).value,
      AsFloat(CellAt(row, "price"), p).value,
      CellAt(row, "city"),
      CellAt(row, "country"))
  }

  /** Coerces every row, keeping the row order. */
  function CoerceRows(rows: seq<RawRow>, p: Parsers): (r: seq<Order>)
    requires forall i :: 0 <= i < |rows| ==> RowConverts(rows[i], p)
    ensures |r| == |rows|
    ensures forall i :: 0 <= i < |rows| ==> r[i] == CoerceRow(rows[i], p)
  {
    if rows == [] then [] else [CoerceRow(rows[0], p)] + CoerceRows(rows[1..], p)
  }

  /** `_coerce_types`: the columns are converted one after another in
      `COERCIONS` order, and the first column holding a cell without a canonical
      value aborts the whole table. */
  function CoerceTable(rows: seq<RawRow>, p: Parsers): (r: Result<seq<Order>>)
    ensures r.Success? <==> forall i :: 0 <= i < |rows| ==> RowConverts(rows[i], p)
    ensures r.Success? ==> r.value == CoerceRows(rows, p)
    ensures r.Failure? ==> r.error.CoercionError? && exists k :: 0 <= k < |COERCIONS| && FirstFailingColumn(rows, k, p) && r.error.column == COERCIONS[k].0
  {
    if !ColumnConverts(rows, "order_id", IntType, p) then
      assert FirstFailingColumn(rows, 0, p);
      Failure(CoercionError("order_id"))
    else if !ColumnConverts(rows, "customer_id", IntType, p) then
      assert FirstFailingColumn(rows, 1, p);
      Failure(CoercionError("customer_id"))
    else if !ColumnConverts(rows, "quantity", FloatType, p) then
      assert FirstFailingColumn(rows, 2, p);
      Failure(CoercionError("quantity"))
    else if !ColumnConverts(rows, "price", FloatType, p) then
      assert FirstFailingColumn(rows, 3, p);
      Failure(CoercionError("price"))
    else if !ColumnConverts(rows, "order_date", DateType, p) then
      assert FirstFailingColumn(rows, 4, p);
      Failure(CoercionError("order_date"))
    else
      assert forall i :: 0 <= i < |rows| ==> RowConverts(rows[i], p);
      Success(CoerceRows(rows, p))
  }

  /** Column `k` of `COERCIONS` has a cell that does not convert, while every
      column converted before it converts in every row. */
  ghost predicate FirstFailingColumn(rows: seq<RawRow>, k: nat, p: Parsers)
    requires k < |COERCIONS|
  {
    && !ColumnConverts(rows, COERCIONS[k].0, COERCIONS[k].1, p)
    && forall j :: 0 <= j < k ==> ColumnConverts(rows, COERCIONS[j].0, COERCIONS[j].1, p)
  }

  /** A null id cannot be converted to an integer, so a row with a missing
      `order_id` aborts the whole call at coercion rather than being filtered out. */
  lemma NullOrderIdAborts(rows: seq<RawRow>, i: nat, p: Parsers)
    requires i < |rows| && CellAt(rows[i], "order_id") == Null
    ensures CoerceTable(rows, p) == Failure(CoercionError("order_id"))
  {
    assert !Converts(IntType, CellAt(rows[i], "order_id"), p);
  }

  /** A missing quantity, price or date is not a coercion error: it survives as null. */
  lemma NullMeasuresConvert(p: Parsers)
    ensures AsFloat(Null, p) == Converted(None) && AsDate(Null, p) == Converted(None)
    ensures Converts(FloatType, Null, p) && Converts(DateType, Null, p) && !Converts(IntType, Null, p)
  {
  }
}
