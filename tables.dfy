/** Shared values of the orders transform: raw cells and tables, the canonical
    order rows after coercion, the two output row shapes, and the error kinds
    that abort a transform call. */
module Tables {

  datatype Option<+T> = None | Some(value: T)

  datatype Result<+T> = Success(value: T) | Failure(error: TransformError)

  /** Why a transform call produced no tables at all. */
  datatype TransformError =
    | SchemaError(missing: seq<string>)     // required columns absent from the input schema
    | CoercionError(column: string)         // some cell of this column has no canonical value
    | DateParseError(text: string)           // the minimum-date argument is not a date

  /** A calendar date, as a day number: later days are larger. */
  type Date = int

  /** One cell of the raw input, of whatever native type the extract produced.
      `Null` stands for every missing value (None, NaN, NaT). */
  datatype Cell = Null | Int(i: int) | Real(r: real) | Text(s: string)

  /** A row maps column names to cells. */
  type RawRow = map<string, Cell>

  datatype RawTable = RawTable(columns: seq<string>, rows: seq<RawRow>)

  /** The cell of a row in a column; a row without that column reads as null. */
  function CellAt(row: RawRow, column: string): Cell {
    if column in row then row[column] else Null
  }

  /** A row after type coercion. The ids cannot be null (coercing a null id is
      an error); the date, quantity and price still can. */
  datatype Order = Order(
    orderId: int,
    customerId: int,
    orderDate: Option<Date>,
    item: Cell,
    quantity: Option<real>,
    price: Option<real>,
    city: Cell,
    country: Cell)

  /** A row that passed the validity filter, with its derived total. */
  datatype Line = Line(
    orderId: int,
    customerId: int,
    orderDate: Date,
    item: Cell,
    quantity: real,
    price: real,
    totalAmount: real,
    city: Cell,
    country: Cell)

  /** A row of `fact_orders`. */
  datatype FactRow = FactRow(
    orderId: int,
    customerId: int,
    orderDate: Date,
    item: Cell,
    quantity: real,
    price: real,
    totalAmount: real)

  /** A row of `dim_customers`. */
  datatype DimRow = DimRow(
    customerId: int,
    city: Cell,
    country: Cell,
    firstOrderDate: Date,
    lastOrderDate: Date,
    orderCount: nat,
    lifetimeValue: real)

  datatype Tables = Tables(factOrders: seq<FactRow>, dimCustomers: seq<DimRow>)
}
