/** `dim_customers`: the filtered lines grouped by `customer_id`, one rollup
    row per customer, ordered by `customer_id`. The grouping is an explicit
    left-to-right accumulation; each aggregate is proved equal to its
    definition over the customer's own lines. */
module Customers {
  import opened Tables
  import opened Sequences

  /** The predicate "belongs to customer `c`". */
  function ForCustomer(c: int): Line -> bool {
    (l: Line) => l.customerId == c
  }

  /** The lines of one customer, in table order: the group `groupby` forms. */
  function CustomerLines(lines: seq<Line>, c: int): seq<Line> {
    Filter(ForCustomer(c), lines)
  }

  function CityOf(l: Line): Cell { l.city }

  function CountryOf(l: Line): Cell { l.country }

  /** The `first` aggregation: the first non-null value of a column, or null
      when every value is null. */
  function FirstNonNull(rows: seq<Line>, field: Line -> Cell): (c: Cell)
    ensures c != Null ==> exists i :: 0 <= i < |rows| && field(rows[i]) == c && forall j :: 0 <= j < i ==> field(rows[j]) == Null
    ensures c == Null <==> forall i :: 0 <= i < |rows| ==> field(rows[i]) == Null
  {
    if rows == [] then Null
    else if field(rows[0]) != Null then field(rows[0])
    else
      var c := FirstNonNull(rows[1..], field);
      assert forall i :: 1 <= i < |rows| ==> rows[i] == rows[1..][i - 1];
      c
  }

  /** The `sum` aggregation of `total_amount`, over every line (no deduplication). */
  function SumTotals(rows: seq<Line>): real
    decreases |rows|
  {
    if rows == [] then 0.0 else SumTotals(rows[..|rows| - 1]) + rows[|rows| - 1].totalAmount
  }

  /** The distinct `order_id`s of some lines: `nunique` counts this set. */
  function OrderIdsOf(rows: seq<Line>): set<int> {
    set l | l in rows :: l.orderId
  }

  /** What a `dim_customers` row says about the customer's lines `rows`. */
  ghost predicate Describes(d: DimRow, rows: seq<Line>) {
    && rows != []
    && d.city == FirstNonNull(rows, CityOf)
    && d.country == FirstNonNull(rows, CountryOf)
    && (forall l :: l in rows ==> d.firstOrderDate <= l.orderDate <= d.lastOrderDate)
    && (exists l :: l in rows && l.orderDate == d.firstOrderDate)
    && (exists l :: l in rows && l.orderDate == d.lastOrderDate)
    && d.orderCount == |OrderIdsOf(rows)|
    && d.lifetimeValue == SumTotals(rows)
  }

  /** The running aggregate of one customer. */
  datatype Rollup = Rollup(
    city: Cell,
    country: Cell,
    firstOrderDate: Date,
    lastOrderDate: Date,
    orderIds: set<int>,
    lifetimeValue: real)

  function Start(l: Line): Rollup {
    Rollup(l.city, l.country, l.orderDate, l.orderDate, {l.orderId}, l.totalAmount)
  }

  /** Folds one more line of the customer into the aggregate. */
  function Absorb(a: Rollup, l: Line): Rollup {
    Rollup(
      if a.city == Null then l.city else a.city,
      if a.country == Null then l.country else a.country,
      if l.orderDate < a.firstOrderDate then l.orderDate else a.firstOrderDate,
      if l.orderDate > a.lastOrderDate then l.orderDate else a.lastOrderDate,
      a.orderIds + {l.orderId},
      a.lifetimeValue + l.totalAmount)
  }

  /** The finished `dim_customers` row of customer `c`. */
  function Finish(c: int, a: Rollup): DimRow {
    DimRow(c, a.city, a.country, a.firstOrderDate, a.lastOrderDate, |a.orderIds|, a.lifetimeValue)
  }

  /** `groupby("customer_id").agg(...)`: one rollup per customer seen. */
  function Group(lines: seq<Line>): map<int, Rollup>
    decreases |lines|
  {
    if lines == [] then map[]
    else
      var g := Group(lines[..|lines| - 1]);
      var l := lines[|lines| - 1];
      g[l.customerId := if l.customerId in g then Absorb(g[l.customerId], l) else Start(l)]
  }

  /** The rollup invariant: the aggregate of some lines describes them. */
  ghost predicate Summarizes(c: int, a: Rollup, rows: seq<Line>) {
    a.orderIds == OrderIdsOf(rows) && Describes(Finish(c, a), rows)
  }

  lemma {:induction false} FirstNonNullAppend(rows: seq<Line>, l: Line, field: Line -> Cell)
    ensures FirstNonNull(rows + [l], field) == if FirstNonNull(rows, field) == Null then field(l) else FirstNonNull(rows, field)
  {
    if rows != [] {
      assert (rows + [l])[0] == rows[0] && (rows + [l])[1..] == rows[1..] + [l];
      FirstNonNullAppend(rows[1..], l, field);
    } else {
      assert [] + [l] == [l] && [l][1..] == [];
    }
  }

  /** A line of a new customer starts a rollup that describes it. */
  lemma StartSpec(c: int, l: Line)
    requires l.customerId == c
    ensures Summarizes(c, Start(l), [l])
  {
    assert [l][..0] == [];
    assert [l][1..] == [];
    assert OrderIdsOf([l]) == {l.orderId};
  }

  /** Absorbing a line keeps the rollup invariant. */
  lemma AbsorbSpec(c: int, a: Rollup, rows: seq<Line>, l: Line)
    requires Summarizes(c, a, rows)
    ensures Summarizes(c, Absorb(a, l), rows + [l])
  {
    FirstNonNullAppend(rows, l, CityOf);
    FirstNonNullAppend(rows, l, CountryOf);
    TotalsAndIdsAbsorb(a, rows, l);
    DatesAbsorb(a, rows, l);
  }

  /** The order-id set and the sum follow an absorbed line. */
  lemma TotalsAndIdsAbsorb(a: Rollup, rows: seq<Line>, l: Line)
    requires a.orderIds == OrderIdsOf(rows) && a.lifetimeValue == SumTotals(rows)
    ensures Absorb(a, l).orderIds == OrderIdsOf(rows + [l])
    ensures Absorb(a, l).lifetimeValue == SumTotals(rows + [l])
  {
    var rows' := rows + [l];
    assert forall x :: x in rows' <==> x in rows || x == l;
    assert rows'[..|rows'| - 1] == rows;
  }

  /** The earliest and latest date stay the bounds, and are attained, after
      absorbing a line. */
  lemma DatesAbsorb(a: Rollup, rows: seq<Line>, l: Line)
    requires rows != []
    requires forall x :: x in rows ==> a.firstOrderDate <= x.orderDate <= a.lastOrderDate
    requires exists x :: x in rows && x.orderDate == a.firstOrderDate
    requires exists x :: x in rows && x.orderDate == a.lastOrderDate
    ensures forall x :: x in rows + [l] ==> Absorb(a, l).firstOrderDate <= x.orderDate <= Absorb(a, l).lastOrderDate
    ensures exists x :: x in rows + [l] && x.orderDate == Absorb(a, l).firstOrderDate
    ensures exists x :: x in rows + [l] && x.orderDate == Absorb(a, l).lastOrderDate
  {
    var rows' := rows + [l];
    assert forall x :: x in rows' <==> x in rows || x == l;
    var lo :| lo in rows && lo.orderDate == a.firstOrderDate;
    var hi :| hi in rows && hi.orderDate == a.lastOrderDate;
    assert lo in rows' && hi in rows' && l in rows';
  }

  /** Appending a line adds it to its own customer's lines only. */
  lemma CustomerLinesAppend(init: seq<Line>, l: Line, c: int)
    ensures CustomerLines(init + [l], c) == CustomerLines(init, c) + (if l.customerId == c then [l] else [])
  {
    FilterAppend(ForCustomer(c), init, [l]);
    assert [l][1..] == [];
  }

  /** Every customer with lines has a rollup, no other customer has one, and
      each rollup describes exactly that customer's lines. */
  lemma {:induction false} GroupSpec(lines: seq<Line>)
    ensures forall c :: c in Group(lines) <==> CustomerLines(lines, c) != []
    ensures forall c :: c in Group(lines) ==> Summarizes(c, Group(lines)[c], CustomerLines(lines, c))
    decreases |lines|
  {
    if lines != [] {
      var init := lines[..|lines| - 1];
      var l := lines[|lines| - 1];
      var g := Group(init);
      GroupSpec(init);
      assert lines == init + [l];
      forall c ensures c in Group(lines) <==> CustomerLines(lines, c) != [] {
        CustomerLinesAppend(init, l, c);
      }
      forall c | c in Group(lines) ensures Summarizes(c, Group(lines)[c], CustomerLines(lines, c)) {
        GroupStep(init, l, c);
      }
    }
  }

  /** One step of the accumulation keeps the rollup of customer `c` describing its lines. */
  lemma GroupStep(init: seq<Line>, l: Line, c: int)
    requires c in Group(init) <==> CustomerLines(init, c) != []
    requires c in Group(init) ==> Summarizes(c, Group(init)[c], CustomerLines(init, c))
    requires c in Group(init + [l])
    ensures Summarizes(c, Group(init + [l])[c], CustomerLines(init + [l], c))
  {
    var g := Group(init);
    var rows := CustomerLines(init, c);
    assert (init + [l])[..|init + [l]| - 1] == init;
    CustomerLinesAppend(init, l, c);
    if c == l.customerId {
      assert CustomerLines(init + [l], c) == rows + [l];
      if c in g {
        assert Group(init + [l])[c] == Absorb(g[c], l);
        AbsorbSpec(c, g[c], rows, l);
      } else {
        assert rows == [];
        assert Group(init + [l])[c] == Start(l);
        assert rows + [l] == [l];
        StartSpec(c, l);
      }
    } else {
      assert CustomerLines(init + [l], c) == rows;
      assert Group(init + [l])[c] == g[c];
    }
  }

  /** The distinct customer ids of some lines. */
  function CustomerIds(lines: seq<Line>): set<int> {
    set l | l in lines :: l.customerId
  }

  /** The customers with a rollup are exactly the customers of the lines. */
  lemma GroupKeys(lines: seq<Line>)
    ensures Group(lines).Keys == CustomerIds(lines)
  {
    GroupSpec(lines);
    forall c ensures c in Group(lines) <==> c in CustomerIds(lines) {
      FilterMembers(ForCustomer(c), lines);
      if c in CustomerIds(lines) {
        var l :| l in lines && l.customerId == c;
        assert l in CustomerLines(lines, c);
      }
      if c in Group(lines) {
        assert CustomerLines(lines, c)[0] in CustomerLines(lines, c);
      }
    }
  }

  /** Ids in strictly ascending order. */
  predicate StrictlyIncreasing(ids: seq<int>) {
    forall i, j :: 0 <= i < j < |ids| ==> ids[i] < ids[j]
  }

  /** Adds an id to an ascending list of ids unless it is there already. */
  function InsertId(c: int, ids: seq<int>): (r: seq<int>)
    ensures forall x :: x in r <==> x == c || x in ids
  {
    if ids == [] then [c]
    else if c < ids[0] then [c] + ids
    else if c == ids[0] then ids
    else [ids[0]] + InsertId(c, ids[1..])
  }

  lemma {:induction false} InsertIdIncreasing(c: int, ids: seq<int>)
    requires StrictlyIncreasing(ids)
    ensures StrictlyIncreasing(InsertId(c, ids))
  {
    if ids != [] && c > ids[0] {
      InsertIdIncreasing(c, ids[1..]);
      var rest := InsertId(c, ids[1..]);
      forall x | x in rest ensures ids[0] < x {
        if x != c {
          var k :| 0 <= k < |ids[1..]| && ids[1..][k] == x;
          assert ids[k + 1] == x;
        }
      }
      assert forall i :: 0 <= i < |rest| ==> rest[i] in rest;
    }
  }

  /** The distinct customer ids of the lines, ascending: the order of
      `sort_values("customer_id")`. */
  function CustomerIdsInOrder(lines: seq<Line>): (r: seq<int>)
    ensures StrictlyIncreasing(r)
    ensures forall c :: c in r <==> c in CustomerIds(lines)
    decreases |lines|
  {
    if lines == [] then []
    else
      var init := lines[..|lines| - 1];
      var ids := CustomerIdsInOrder(init);
      InsertIdIncreasing(lines[|lines| - 1].customerId, ids);
      assert forall x :: x in lines <==> x in init || x == lines[|lines| - 1] by {
        assert lines == init + [lines[|lines| - 1]];
      }
      InsertId(lines[|lines| - 1].customerId, ids)
  }

  /** The finished rows of the listed customers, in list order. */
  function DimRows(ids: seq<int>, g: map<int, Rollup>): (r: seq<DimRow>)
    requires forall c :: c in ids ==> c in g
    ensures |r| == |ids|
    ensures forall i :: 0 <= i < |ids| ==> r[i] == Finish(ids[i], g[ids[i]])
  {
    if ids == [] then [] else [Finish(ids[0], g[ids[0]])] + DimRows(ids[1..], g)
  }

  /** The `dim_customers` table built from the filtered lines. */
  function BuildDim(lines: seq<Line>): seq<DimRow> {
    GroupKeys(lines);
    DimRows(CustomerIdsInOrder(lines), Group(lines))
  }

  /** The customer ids of some `dim_customers` rows. */
  function DimCustomerIds(dim: seq<DimRow>): seq<int> {
    seq(|dim|, i requires 0 <= i < |dim| => dim[i].customerId)
  }

  /** `dim_customers` has exactly one row per customer of the lines, ascending
      by `customer_id`, and each row describes that customer's lines: first
      non-null city and country, earliest and latest date, the number of
      distinct orders and the sum of every line's total. */
  lemma BuildDimSpec(lines: seq<Line>)
    ensures StrictlyIncreasing(DimCustomerIds(BuildDim(lines)))
    ensures (set d | d in BuildDim(lines) :: d.customerId) == CustomerIds(lines)
    ensures forall d :: d in BuildDim(lines) ==> Describes(d, CustomerLines(lines, d.customerId))
  {
    assert DimCustomerIds(BuildDim(lines)) == CustomerIdsInOrder(lines);
    DimCustomersMatch(lines);
    DimRowsDescribe(lines);
  }

  lemma DimCustomersMatch(lines: seq<Line>)
    ensures (set d | d in BuildDim(lines) :: d.customerId) == CustomerIds(lines)
  {
    var dim := BuildDim(lines);
    var ids := CustomerIdsInOrder(lines);
    forall c | c in CustomerIds(lines) ensures c in set d | d in dim :: d.customerId {
      var i :| 0 <= i < |ids| && ids[i] == c;
      assert dim[i] in dim;
    }
    forall d | d in dim ensures d.customerId in CustomerIds(lines) {
      var i :| 0 <= i < |dim| && dim[i] == d;
      assert ids[i] in ids;
    }
  }

  lemma DimRowsDescribe(lines: seq<Line>)
    ensures forall d :: d in BuildDim(lines) ==> Describes(d, CustomerLines(lines, d.customerId))
  {
    var dim := BuildDim(lines);
    forall d | d in dim ensures Describes(d, CustomerLines(lines, d.customerId)) {
      var i :| 0 <= i < |dim| && dim[i] == d;
      DimRowDescribes(lines, i);
    }
  }

  /** Row `i` of `dim_customers` describes the lines of its customer. */
  lemma DimRowDescribes(lines: seq<Line>, i: nat)
    requires i < |BuildDim(lines)|
    ensures Describes(BuildDim(lines)[i], CustomerLines(lines, BuildDim(lines)[i].customerId))
  {
    var ids := CustomerIdsInOrder(lines);
    GroupSpec(lines);
    GroupKeys(lines);
    assert ids[i] in ids;
    assert Summarizes(ids[i], Group(lines)[ids[i]], CustomerLines(lines, ids[i]));
  }
}
