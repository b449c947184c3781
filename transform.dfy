/** `transform_orders`: schema check, coercion, optional cutoff, validity
    filter, totals, then the two output tables built from the same lines. */
module Transform {
  import opened Tables
  import opened Sequences
  import opened Coercion
  import opened Filters
  import opened Facts
  import opened Customers

  /** The lines both output tables are built from: the cutoff, then the
      validity filter, then the derived total. */
  function CleanLines(orders: seq<Order>, cutoff: Option<Date>): seq<Line> {
    AddTotals(DropBadRows(ApplyCutoff(orders, cutoff)))
  }

  /** `fact_orders` and `dim_customers` of the same lines. */
  function Outputs(lines: seq<Line>): Tables {
    Tables(BuildFact(lines), BuildDim(lines))
  }

  /** The whole transform. A missing required column fails before any row or
      argument is looked at, and the error lists every missing column; then a
      cell without a canonical value fails; then a minimum date that is not a
      date fails. Otherwise both tables are produced. */
  function TransformOrders(raw: RawTable, minDate: Option<string>, p: Parsers): (r: Result<Tables>)
    ensures (r.Failure? && r.error.SchemaError?) <==> MissingColumns(raw.columns) != []
    ensures r.Failure? && r.error.SchemaError? ==> r.error.missing == MissingColumns(raw.columns)
    ensures r.Success? <==>
      && MissingColumns(raw.columns) == []
      && CoerceTable(raw.rows, p).Success?
      && CutoffOf(minDate, p).Success?
  {
    var missing := MissingColumns(raw.columns);
    if missing != [] then Failure(SchemaError(missing))
    else
      match CoerceTable(raw.rows, p)
      case Failure(e) => Failure(e)
      case Success(orders) =>
        match CutoffOf(minDate, p)
        case Failure(e) => Failure(e)
        case Success(cutoff) => Success(Outputs(CleanLines(orders, cutoff)))
  }

  /** Past the schema check, a coercion error comes before a bad minimum date,
      and a successful call yields the tables of the cleaned lines. */
  lemma TransformOutcome(raw: RawTable, minDate: Option<string>, p: Parsers)
    requires MissingColumns(raw.columns) == []
    ensures CoerceTable(raw.rows, p).Failure? ==> TransformOrders(raw, minDate, p) == Failure(CoerceTable(raw.rows, p).error)
    ensures CoerceTable(raw.rows, p).Success? && CutoffOf(minDate, p).Failure? ==>
      TransformOrders(raw, minDate, p) == Failure(DateParseError(minDate.value))
    ensures TransformOrders(raw, minDate, p).Success? ==>
      TransformOrders(raw, minDate, p).value == Outputs(CleanLines(CoerceRows(raw.rows, p), CutoffOf(minDate, p).value))
  {
  }

  /** A schema error depends on the column names only: not on any row, not on
      the minimum date and not on how text parses. */
  lemma SchemaErrorComesFirst(raw: RawTable, raw': RawTable, minDate: Option<string>, minDate': Option<string>, p: Parsers, p': Parsers)
    requires raw.columns == raw'.columns
    requires exists c :: c in REQUIRED_COLUMNS && c !in raw.columns
    ensures TransformOrders(raw, minDate, p) == TransformOrders(raw', minDate', p')
    ensures TransformOrders(raw, minDate, p) == Failure(SchemaError(MissingColumns(raw.columns)))
  {
    MissingColumnsSpec(raw.columns);
  }

  /** Every line of the output descends from a coerced row that is valid and,
      under a cutoff, dated on or after it. */
  lemma CleanLinesSpec(orders: seq<Order>, cutoff: Option<Date>)
    ensures forall l :: l in CleanLines(orders, cutoff) ==> cutoff.Some? ==> l.orderDate >= cutoff.value
    ensures |CleanLines(orders, cutoff)| == |DropBadRows(ApplyCutoff(orders, cutoff))|
    ensures forall l :: l in CleanLines(orders, cutoff) ==> IsPricedLine(l)
  {
    AddTotalsPriced(DropBadRows(ApplyCutoff(orders, cutoff)));
    var kept := DropBadRows(ApplyCutoff(orders, cutoff));
    var lines := CleanLines(orders, cutoff);
    CutoffSpec(orders, cutoff);
    forall l | l in lines ensures cutoff.Some? ==> l.orderDate >= cutoff.value {
      var i :| 0 <= i < |lines| && lines[i] == l;
      assert kept[i] in kept;
    }
  }

  /** A cutoff is the same as removing the earlier (or undated) rows first and
      running without one (this half holds by the definition of `CleanLines`,
      which filters by date first), and it commutes with the validity filter. */
  lemma CutoffAsPrefilter(orders: seq<Order>, d: Date)
    ensures CleanLines(orders, Some(d)) == CleanLines(ApplyCutoff(orders, Some(d)), None)
    ensures CleanLines(orders, Some(d)) == AddTotals(ApplyCutoff(DropBadRows(orders), Some(d)))
  {
    CutoffCommutesWithValidity(orders, Some(d));
  }

  /** The properties of a successful transform: `fact_orders` has one row per
      distinct `order_id` of the lines, each the first line with that id, every
      row valid and priced, ordered by date, on or after any cutoff;
      `dim_customers` has one row per customer, ascending, each describing that
      customer's lines. */
  lemma TransformSpec(raw: RawTable, minDate: Option<string>, p: Parsers)
    requires TransformOrders(raw, minDate, p).Success?
    ensures var lines := CleanLines(CoerceRows(raw.rows, p), CutoffOf(minDate, p).value);
            var out := TransformOrders(raw, minDate, p).value;
      && UniqueOrderIds(out.factOrders)
      && OrderIds(out.factOrders) == (set l | l in lines :: l.orderId)
      && SortedByDate(out.factOrders)
      && (forall f :: f in out.factOrders ==> IsPricedFact(f))
      && (forall f :: f in out.factOrders ==> exists i :: 0 <= i < |lines| && ToFact(lines[i]) == f && (forall j :: 0 <= j < i ==> lines[j].orderId != lines[i].orderId))
      && (CutoffOf(minDate, p).value.Some? ==> forall f :: f in out.factOrders ==> f.orderDate >= CutoffOf(minDate, p).value.value)
      && StrictlyIncreasing(DimCustomerIds(out.dimCustomers))
      && (set d | d in out.dimCustomers :: d.customerId) == CustomerIds(lines)
      && (forall d :: d in out.dimCustomers ==> Describes(d, CustomerLines(lines, d.customerId)))
  {
    var cutoff := CutoffOf(minDate, p).value;
    var lines := CleanLines(CoerceRows(raw.rows, p), cutoff);
    FactOfCleanLines(CoerceRows(raw.rows, p), cutoff);
    BuildDimSpec(lines);
  }

  /** The fact-table half of `TransformSpec`, for the lines of any coerced rows. */
  lemma FactOfCleanLines(orders: seq<Order>, cutoff: Option<Date>)
    ensures var lines := CleanLines(orders, cutoff);
            var fact := BuildFact(lines);
      && UniqueOrderIds(fact)
      && OrderIds(fact) == (set l | l in lines :: l.orderId)
      && SortedByDate(fact)
      && (forall f :: f in fact ==> IsPricedFact(f))
      && (forall f :: f in fact ==> exists i :: 0 <= i < |lines| && ToFact(lines[i]) == f && (forall j :: 0 <= j < i ==> lines[j].orderId != lines[i].orderId))
      && (cutoff.Some? ==> forall f :: f in fact ==> f.orderDate >= cutoff.value)
  {
    var lines := CleanLines(orders, cutoff);
    BuildFactSpec(lines);
    CleanLinesSpec(orders, cutoff);
    FactRowsPriced(lines);
    if cutoff.Some? {
      FactRowsAfter(lines, cutoff.value);
    }
  }

  /** Every fact row is priced when every line is. */
  lemma FactRowsPriced(lines: seq<Line>)
    requires forall l :: l in lines ==> IsPricedLine(l)
    ensures forall f :: f in BuildFact(lines) ==> IsPricedFact(f)
  {
    FactRowsFromLines(lines);
    forall f | f in BuildFact(lines) ensures IsPricedFact(f) {
      var i :| 0 <= i < |lines| && ToFact(lines[i]) == f;
      assert lines[i] in lines;
      PricedFact(lines[i]);
    }
  }

  /** Every fact row is dated on or after `d` when every line is. */
  lemma FactRowsAfter(lines: seq<Line>, d: Date)
    requires forall l :: l in lines ==> l.orderDate >= d
    ensures forall f :: f in BuildFact(lines) ==> f.orderDate >= d
  {
    FactRowsFromLines(lines);
    forall f | f in BuildFact(lines) ensures f.orderDate >= d {
      var i :| 0 <= i < |lines| && ToFact(lines[i]) == f;
      assert lines[i] in lines;
    }
  }

  /** Every fact row is the fact part of some line. */
  lemma FactRowsFromLines(lines: seq<Line>)
    ensures forall f :: f in BuildFact(lines) ==> exists i :: 0 <= i < |lines| && ToFact(lines[i]) == f
  {
    BuildFactSpec(lines);
  }

  /** A fact row keeps the priced-line invariant of its line. */
  lemma PricedFact(l: Line)
    requires IsPricedLine(l)
    ensures IsPricedFact(ToFact(l))
  {
  }

  /** Filtering everything out is not an error: both tables come out empty. */
  lemma EmptyLinesGiveEmptyTables(orders: seq<Order>, cutoff: Option<Date>)
    requires DropBadRows(ApplyCutoff(orders, cutoff)) == []
    ensures Outputs(CleanLines(orders, cutoff)) == Tables([], [])
  {
    assert CleanLines(orders, cutoff) == [];
    assert CustomerIdsInOrder([]) == [];
  }

  /** A call whose rows are all filtered out succeeds, with two empty tables. */
  lemma FilteredOutCallSucceeds(raw: RawTable, minDate: Option<string>, p: Parsers)
    requires MissingColumns(raw.columns) == []
    requires CoerceTable(raw.rows, p).Success? && CutoffOf(minDate, p).Success?
    requires DropBadRows(ApplyCutoff(CoerceTable(raw.rows, p).value, CutoffOf(minDate, p).value)) == []
    ensures TransformOrders(raw, minDate, p) == Success(Tables([], []))
  {
    EmptyLinesGiveEmptyTables(CoerceTable(raw.rows, p).value, CutoffOf(minDate, p).value);
  }

  /** When every `order_id` belongs to one customer, every customer of
      `dim_customers` has a row in `fact_orders`. */
  lemma DimCustomersHaveFacts(lines: seq<Line>)
    requires forall i, j :: 0 <= i < |lines| && 0 <= j < |lines| && lines[i].orderId == lines[j].orderId ==> lines[i].customerId == lines[j].customerId
    ensures forall d :: d in BuildDim(lines) ==> exists f :: f in BuildFact(lines) && f.customerId == d.customerId
  {
    BuildFactSpec(lines);
    BuildDimSpec(lines);
    forall d | d in BuildDim(lines) ensures exists f :: f in BuildFact(lines) && f.customerId == d.customerId {
      assert d.customerId in set d' | d' in BuildDim(lines) :: d'.customerId;
      var l :| l in lines && l.customerId == d.customerId;
      assert l.orderId in OrderIds(BuildFact(lines));
      var f :| f in BuildFact(lines) && f.orderId == l.orderId;
      var i :| 0 <= i < |lines| && ToFact(lines[i]) == f && (forall j :: 0 <= j < i ==> lines[j].orderId != lines[i].orderId);
      var k :| 0 <= k < |lines| && lines[k] == l;
    }
  }
}
