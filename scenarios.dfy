/** The two scenarios of tests/test_transform.py, proved through
    `TransformOrders`, and two small tables that show where the rollup and the fact
    table part ways when one `order_id` occurs more than once. */
module Scenarios {
  import opened Tables
  import opened Sequences
  import opened Coercion
  import opened Filters
  import opened Facts
  import opened Customers
  import opened Transform

  /** 2025-08-31 as a day number (days since 1970-01-01). */
  const AUG_31: Date := 20331

  /** A stand-in for the runtime's text parsing that reads the ISO dates the
      scenarios use and nothing else. */
  function ScenarioParsers(): Parsers {
    Parsers(
      (s: string) => None,
      (s: string) => None,
      (c: Cell) =>
        if c == Text("2025-08-31") then Some(AUG_31)
        else if c == Text("2025-09-01") then Some(AUG_31 + 1)
        else if c == Text("2025-09-02") then Some(AUG_31 + 2)
        else if c == Text("2025-09-03") then Some(AUG_31 + 3)
        else None)
  }

  /** A raw row with every required column. */
  function RawRowOf(orderId: int, customerId: int, date: string, item: string, quantity: Cell, price: Cell, city: string, country: string): RawRow {
    map[
      "order_id" := Int(orderId), "customer_id" := Int(customerId), "order_date" := Text(date),
      "item" := Text(item), "quantity" := quantity, "price" := price,
      "city" := Text(city), "country" := Text(country)]
  }

  lemma RequiredColumnsPresent()
    ensures MissingColumns(REQUIRED_COLUMNS) == []
  {
    MissingColumnsSpec(REQUIRED_COLUMNS);
  }

  /** A raw row whose numbers are numbers and whose date the stand-in parser
      reads converts, to the same values. */
  lemma RawRowCoerces(orderId: int, customerId: int, text: string, date: Date, item: string, quantity: int, price: Cell, city: string, country: string)
    requires text in {"2025-08-31", "2025-09-01", "2025-09-02", "2025-09-03"}
    requires ScenarioParsers().parseDate(Text(text)) == Some(date)
    requires price.Int? || price.Real?
    requires InInt64(orderId) && InInt64(customerId)
    ensures var row := RawRowOf(orderId, customerId, text, item, Int(quantity), price, city, country);
      && RowConverts(row, ScenarioParsers())
      && CoerceRow(row, ScenarioParsers()) ==
         Order(orderId, customerId, Some(date), Text(item), Some(quantity as real),
               Some(if price.Int? then price.i as real else price.r), Text(city), Text(country))
  {
    var row := RawRowOf(orderId, customerId, text, item, Int(quantity), price, city, country);
    assert CellAt(row, "order_id") == Int(orderId);
    assert CellAt(row, "customer_id") == Int(customerId);
    assert CellAt(row, "quantity") == Int(quantity);
    assert CellAt(row, "price") == price;
    assert CellAt(row, "order_date") == Text(text);
  }

  /** Rows that all convert coerce to their orders, in order. */
  lemma CoerceTwo(r1: RawRow, r2: RawRow, p: Parsers)
    requires RowConverts(r1, p) && RowConverts(r2, p)
    ensures CoerceTable([r1, r2], p) == Success([CoerceRow(r1, p), CoerceRow(r2, p)])
  {
    var rows := [r1, r2];
    assert forall i :: 0 <= i < |rows| ==> RowConverts(rows[i], p);
    var t := CoerceTable(rows, p);
    assert t.Success? && |t.value| == 2;
    assert t.value[0] == CoerceRow(r1, p) && t.value[1] == CoerceRow(r2, p);
    assert t.value == [CoerceRow(r1, p), CoerceRow(r2, p)];
  }

  lemma CoerceThree(r1: RawRow, r2: RawRow, r3: RawRow, p: Parsers)
    requires RowConverts(r1, p) && RowConverts(r2, p) && RowConverts(r3, p)
    ensures CoerceTable([r1, r2, r3], p) == Success([CoerceRow(r1, p), CoerceRow(r2, p), CoerceRow(r3, p)])
  {
    var rows := [r1, r2, r3];
    assert forall i :: 0 <= i < |rows| ==> RowConverts(rows[i], p);
    var t := CoerceTable(rows, p);
    assert t.Success? && |t.value| == 3;
    assert t.value[0] == CoerceRow(r1, p) && t.value[1] == CoerceRow(r2, p) && t.value[2] == CoerceRow(r3, p);
    assert t.value == [CoerceRow(r1, p), CoerceRow(r2, p), CoerceRow(r3, p)];
  }

  /** Two valid orders become their two lines. */
  lemma CleanTwo(o1: Order, o2: Order)
    requires IsValid(o1) && IsValid(o2)
    ensures CleanLines([o1, o2], None) == [ToLine(o1), ToLine(o2)]
  {
    DropBadRowsSpec([o1, o2]);
    assert DropBadRows(ApplyCutoff([o1, o2], None)) == [o1, o2];
    AddTotalsTwo(o1, o2);
  }

  lemma AddTotalsTwo(o1: Order, o2: Order)
    requires IsValid(o1) && IsValid(o2)
    ensures AddTotals([o1, o2]) == [ToLine(o1), ToLine(o2)]
  {
    assert [o1, o2][1..] == [o2] && [o2][1..] == [];
  }

  /** Two lines of two different orders: both reach `fact_orders`. */
  lemma FactOfDistinctOrders(l1: Line, l2: Line)
    requires l1.orderId != l2.orderId
    ensures multiset(BuildFact([l1, l2])) == multiset{ToFact(l1), ToFact(l2)}
    ensures OrderIds(BuildFact([l1, l2])) == {l1.orderId, l2.orderId}
  {
    ProjectTwo(l1, l2);
    DedupDistinct(ToFact(l1), ToFact(l2));
    FactIdsOfTwo(BuildFact([l1, l2]), ToFact(l1), ToFact(l2));
  }

  lemma ProjectTwo(l1: Line, l2: Line)
    ensures Project([l1, l2]) == [ToFact(l1), ToFact(l2)]
  {
  }

  /** A table holding just two rows carries just their two ids. */
  lemma FactIdsOfTwo(fact: seq<FactRow>, f1: FactRow, f2: FactRow)
    requires multiset(fact) == multiset{f1, f2}
    ensures OrderIds(fact) == {f1.orderId, f2.orderId}
  {
    forall f ensures f in fact <==> f == f1 || f == f2 {
      assert f in fact <==> f in multiset(fact);
    }
  }

  lemma DedupDistinct(f1: FactRow, f2: FactRow)
    requires f1.orderId != f2.orderId
    ensures DedupByOrderId([f1, f2]) == [f1, f2]
  {
    assert [f1, f2][..1] == [f1];
    assert DedupByOrderId([f1]) == [f1];
  }

  /** Two lines of one order: only the first reaches `fact_orders`. */
  lemma FactOfRepeatedOrder(l1: Line, l2: Line)
    requires l1.orderId == l2.orderId
    ensures BuildFact([l1, l2]) == [ToFact(l1)]
  {
    var facts := [ToFact(l1), ToFact(l2)];
    assert Project([l1, l2]) == facts;
    assert facts[..1] == [ToFact(l1)];
    assert DedupByOrderId([ToFact(l1)]) == [ToFact(l1)];
    assert DedupByOrderId(facts) == [ToFact(l1)];
  }

  /** Two lines of one customer: one `dim_customers` row, folding the second
      line into the first. */
  lemma DimOfOneCustomer(l1: Line, l2: Line)
    requires l1.customerId == l2.customerId
    ensures BuildDim([l1, l2]) == [Finish(l1.customerId, Absorb(Start(l1), l2))]
  {
    var lines := [l1, l2];
    assert lines[..1] == [l1];
    assert Group([l1]) == map[l1.customerId := Start(l1)];
    assert Group(lines) == map[l1.customerId := Absorb(Start(l1), l2)];
    assert CustomerIdsInOrder([l1]) == [l1.customerId];
    assert CustomerIdsInOrder(lines) == [l1.customerId];
  }

  /** Two orders of one customer: two fact rows, one customer row that counts
      both orders and sums both totals. */
  lemma TwoOrdersOfOneCustomer(l1: Line, l2: Line)
    requires l1.orderId != l2.orderId && l1.customerId == l2.customerId
    ensures |BuildFact([l1, l2])| == 2 && ToFact(l1) in BuildFact([l1, l2])
    ensures OrderIds(BuildFact([l1, l2])) == {l1.orderId, l2.orderId}
    ensures |BuildDim([l1, l2])| == 1
    ensures BuildDim([l1, l2])[0].orderCount == 2
    ensures BuildDim([l1, l2])[0].lifetimeValue == l1.totalAmount + l2.totalAmount
  {
    FactOfDistinctOrders(l1, l2);
    assert ToFact(l1) in multiset(BuildFact([l1, l2]));
    DimOfOneCustomer(l1, l2);
    assert |{l1.orderId} + {l2.orderId}| == 2;
  }

  /** The input of `test_transform_basic`. */
  function BasicRaw(): RawTable {
    RawTable(REQUIRED_COLUMNS, [
      RawRowOf(1, 10, "2025-09-01", "Pen", Int(2), Real(1.5), "London", "UK"),
      RawRowOf(2, 10, "2025-09-02", "Pencil", Int(3), Real(2.0), "London", "UK")])
  }

  function BasicOrder1(): Order {
    Order(1, 10, Some(AUG_31 + 1), Text("Pen"), Some(2.0), Some(1.5), Text("London"), Text("UK"))
  }

  function BasicOrder2(): Order {
    Order(2, 10, Some(AUG_31 + 2), Text("Pencil"), Some(3.0), Some(2.0), Text("London"), Text("UK"))
  }

  lemma BasicCoerces()
    ensures CoerceTable(BasicRaw().rows, ScenarioParsers()) == Success([BasicOrder1(), BasicOrder2()])
  {
    RawRowCoerces(1, 10, "2025-09-01", AUG_31 + 1, "Pen", 2, Real(1.5), "London", "UK");
    RawRowCoerces(2, 10, "2025-09-02", AUG_31 + 2, "Pencil", 3, Real(2.0), "London", "UK");
    CoerceTwo(BasicRaw().rows[0], BasicRaw().rows[1], ScenarioParsers());
    assert BasicRaw().rows == [BasicRaw().rows[0], BasicRaw().rows[1]];
  }

  /** `test_transform_basic`: two orders of customer 10 give two fact rows, the
      first with total 3.0, and one customer row counting 2 orders worth 9.0. */
  lemma BasicScenario()
    ensures TransformOrders(BasicRaw(), None, ScenarioParsers()).Success?
    ensures var out := TransformOrders(BasicRaw(), None, ScenarioParsers()).value;
      && |out.factOrders| == 2
      && (exists f :: f in out.factOrders && f.orderId == 1 && f.totalAmount == 3.0)
      && |out.dimCustomers| == 1
      && out.dimCustomers[0].orderCount == 2
      && out.dimCustomers[0].lifetimeValue == 3.0 + 6.0
  {
    BasicLines();
    TwoOrdersOfOneCustomer(BasicLine1(), BasicLine2());
    assert ToFact(BasicLine1()).orderId == 1 && ToFact(BasicLine1()).totalAmount == 3.0;
  }

  function BasicLine1(): Line {
    Line(1, 10, AUG_31 + 1, Text("Pen"), 2.0, 1.5, 3.0, Text("London"), Text("UK"))
  }

  function BasicLine2(): Line {
    Line(2, 10, AUG_31 + 2, Text("Pencil"), 3.0, 2.0, 6.0, Text("London"), Text("UK"))
  }

  /** The basic input passes every check and leaves both orders as lines,
      priced 2 * 1.5 and 3 * 2.0. */
  lemma BasicLines()
    ensures TransformOrders(BasicRaw(), None, ScenarioParsers()) == Success(Outputs([BasicLine1(), BasicLine2()]))
  {
    RequiredColumnsPresent();
    BasicCoerces();
    CleanTwo(BasicOrder1(), BasicOrder2());
    assert ToLine(BasicOrder1()) == BasicLine1() && ToLine(BasicOrder2()) == BasicLine2();
    TransformOutcome(BasicRaw(), None, ScenarioParsers());
  }

  /** The input of `test_min_date_filter`. */
  function CutoffRaw(): RawTable {
    RawTable(REQUIRED_COLUMNS, [
      RawRowOf(1, 1, "2025-09-01", "A", Int(1), Int(1), "X", "Y"),
      RawRowOf(2, 1, "2025-09-03", "B", Int(1), Int(1), "X", "Y"),
      RawRowOf(3, 1, "2025-08-31", "C", Int(1), Int(1), "X", "Y")])
  }

  function CutoffOrder(orderId: int, date: Date, item: string): Order {
    Order(orderId, 1, Some(date), Text(item), Some(1.0), Some(1.0), Text("X"), Text("Y"))
  }

  lemma CutoffCoerces()
    ensures CoerceTable(CutoffRaw().rows, ScenarioParsers()) ==
      Success([CutoffOrder(1, AUG_31 + 1, "A"), CutoffOrder(2, AUG_31 + 3, "B"), CutoffOrder(3, AUG_31, "C")])
  {
    RawRowCoerces(1, 1, "2025-09-01", AUG_31 + 1, "A", 1, Int(1), "X", "Y");
    RawRowCoerces(2, 1, "2025-09-03", AUG_31 + 3, "B", 1, Int(1), "X", "Y");
    RawRowCoerces(3, 1, "2025-08-31", AUG_31, "C", 1, Int(1), "X", "Y");
    CoerceThree(CutoffRaw().rows[0], CutoffRaw().rows[1], CutoffRaw().rows[2], ScenarioParsers());
    assert CutoffRaw().rows == [CutoffRaw().rows[0], CutoffRaw().rows[1], CutoffRaw().rows[2]];
  }

  lemma CutoffDate()
    ensures CutoffOf(Some("2025-09-01"), ScenarioParsers()) == Success(Some(AUG_31 + 1))
  {
    assert ScenarioParsers().parseDate(Text("2025-09-01")) == Some(AUG_31 + 1);
  }

  /** The cutoff keeps the first two orders and drops the one of 2025-08-31. */
  lemma CutoffKeepsTwo(o1: Order, o2: Order, o3: Order, d: Date)
    requires OnOrAfter(d)(o1) && OnOrAfter(d)(o2) && !OnOrAfter(d)(o3)
    ensures ApplyCutoff([o1, o2, o3], Some(d)) == [o1, o2]
  {
    var keep := OnOrAfter(d);
    assert [o1, o2, o3][1..] == [o2, o3] && [o2, o3][1..] == [o3] && [o3][1..] == [];
    assert Filter(keep, [o3]) == [];
    assert Filter(keep, [o2, o3]) == [o2];
  }

  /** `test_min_date_filter`: with the cutoff 2025-09-01 the order of
      2025-08-31 is gone from both tables, and the other two remain. */
  lemma CutoffScenario()
    ensures TransformOrders(CutoffRaw(), Some("2025-09-01"), ScenarioParsers()).Success?
    ensures var out := TransformOrders(CutoffRaw(), Some("2025-09-01"), ScenarioParsers()).value;
      && OrderIds(out.factOrders) == {1, 2}
      && |out.dimCustomers| == 1
      && out.dimCustomers[0].orderCount == 2
  {
    var l1, l2 := ToLine(CutoffOrder(1, AUG_31 + 1, "A")), ToLine(CutoffOrder(2, AUG_31 + 3, "B"));
    CutoffLines();
    TwoOrdersOfOneCustomer(l1, l2);
  }

  /** With the cutoff, the input passes every check and leaves the first two
      orders as lines. */
  lemma CutoffLines()
    ensures TransformOrders(CutoffRaw(), Some("2025-09-01"), ScenarioParsers()) ==
      Success(Outputs([ToLine(CutoffOrder(1, AUG_31 + 1, "A")), ToLine(CutoffOrder(2, AUG_31 + 3, "B"))]))
  {
    var o1, o2, o3 := CutoffOrder(1, AUG_31 + 1, "A"), CutoffOrder(2, AUG_31 + 3, "B"), CutoffOrder(3, AUG_31, "C");
    RequiredColumnsPresent();
    CutoffCoerces();
    CutoffDate();
    CutoffKeepsTwo(o1, o2, o3, AUG_31 + 1);
    CleanTwo(o1, o2);
    assert CleanLines([o1, o2, o3], Some(AUG_31 + 1)) == CleanLines([o1, o2], None);
    TransformOutcome(CutoffRaw(), Some("2025-09-01"), ScenarioParsers());
  }

  /** Two lines of one `order_id` placed by two customers: `fact_orders` keeps
      the first line only, so customer 20 has a row in `dim_customers` and none
      in `fact_orders`. */
  lemma SharedOrderIdLeavesCustomerWithoutFact()
    ensures var lines := [Line(1, 10, AUG_31, Text("A"), 1.0, 1.0, 1.0, Null, Null), Line(1, 20, AUG_31, Text("B"), 1.0, 1.0, 1.0, Null, Null)];
      && (exists d :: d in BuildDim(lines) && d.customerId == 20)
      && (forall f :: f in BuildFact(lines) ==> f.customerId == 10)
  {
    var l1 := Line(1, 10, AUG_31, Text("A"), 1.0, 1.0, 1.0, Null, Null);
    var l2 := Line(1, 20, AUG_31, Text("B"), 1.0, 1.0, 1.0, Null, Null);
    var lines := [l1, l2];
    FactOfRepeatedOrder(l1, l2);
    BuildDimSpec(lines);
    assert 20 in CustomerIds(lines) by { assert l2 in lines; }
    assert 20 in set d | d in BuildDim(lines) :: d.customerId;
  }

  /** Two lines repeating one order: `fact_orders` counts it once, while the
      rollup sums both totals, so `lifetime_value` exceeds the customer's fact
      totals; `order_count` counts distinct ids and stays 1. */
  lemma RepeatedOrderCountedTwiceInLifetimeValue()
    ensures var l := Line(1, 10, AUG_31, Text("A"), 2.0, 1.5, 3.0, Null, Null);
      && BuildFact([l, l]) == [ToFact(l)]
      && BuildDim([l, l]) == [DimRow(10, Null, Null, AUG_31, AUG_31, 1, 6.0)]
  {
    var l := Line(1, 10, AUG_31, Text("A"), 2.0, 1.5, 3.0, Null, Null);
    FactOfRepeatedOrder(l, l);
    DimOfOneCustomer(l, l);
  }
}
