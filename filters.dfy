/** The row filters of the transform (the optional date cutoff and
    `_drop_bad_rows`) and the derived `total_amount`. */
module Filters {
  import opened Tables
  import opened Sequences
  import opened Coercion

  /** The cutoff a minimum-date argument gives. An absent or empty argument
      means no cutoff (the source tests the argument for truthiness); text that
      is not a date aborts the call. */
  function CutoffOf(minDate: Option<string>, p: Parsers): (r: Result<Option<Date>>)
    ensures minDate.None? || minDate == Some("") ==> r == Success(None)
    ensures r.Failure? <==> minDate.Some? && minDate.value != "" && p.parseDate(Text(minDate.value)).None?
    ensures r.Failure? ==> r.error == DateParseError(minDate.value)
    ensures r.Success? && r.value.Some? ==> minDate.Some? && p.parseDate(Text(minDate.value)) == r.value
    ensures minDate.Some? && minDate.value != "" && p.parseDate(Text(minDate.value)).Some? ==>
      r == Success(p.parseDate(Text(minDate.value)))
  {
    match minDate
    case None => Success(None)
    case Some(s) =>
      if s == "" then Success(None)
      else if p.parseDate(Text(s)).Some? then Success(Some(p.parseDate(Text(s)).value))
      else Failure(DateParseError(s))
  }

  /** The predicate "dated on or after `d`"; a row without a date fails it. */
  function OnOrAfter(d: Date): Order -> bool {
    (o: Order) => o.orderDate.Some? && o.orderDate.value >= d
  }

  /** The cutoff filter: with no cutoff the table is unchanged. */
  function ApplyCutoff(rows: seq<Order>, cutoff: Option<Date>): seq<Order> {
    match cutoff
    case None => rows
    case Some(d) => Filter(OnOrAfter(d), rows)
  }

  /** The cutoff is inclusive and exact: a row is kept, as often as it occurs,
      exactly when it carries a date on or after the cutoff, rows keep their
      order, and without a cutoff nothing changes. */
  lemma CutoffSpec(rows: seq<Order>, cutoff: Option<Date>)
    ensures cutoff.None? ==> ApplyCutoff(rows, cutoff) == rows
    ensures cutoff.Some? ==> forall o :: o in ApplyCutoff(rows, cutoff) ==> o.orderDate.Some? && o.orderDate.value >= cutoff.value
    ensures cutoff.Some? ==> forall o :: o in rows && o.orderDate.Some? && o.orderDate.value >= cutoff.value ==> multiset(ApplyCutoff(rows, cutoff))[o] == multiset(rows)[o]
    ensures IsSubsequence(ApplyCutoff(rows, cutoff), rows)
  {
    match cutoff
    case None =>
      SubsequenceReflexive(rows);
    case Some(d) =>
      FilterCount(OnOrAfter(d), rows);
      FilterIsSubsequence(OnOrAfter(d), rows);
  }

  /** The checks of `_drop_bad_rows`: no null among the key fields (the ids are
      never null after coercion), a strictly positive quantity and a
      non-negative price. */
  predicate IsValid(o: Order) {
    && o.orderDate.Some?
    && o.item != Null
    && o.quantity.Some?
    && o.price.Some?
    && o.quantity.value > 0.0
    && o.price.value >= 0.0
  }

  /** `_drop_bad_rows`: rows failing a check are dropped silently. */
  function DropBadRows(rows: seq<Order>): (r: seq<Order>)
    ensures forall o :: o in r ==> IsValid(o)
  {
    Filter(IsValid, rows)
  }

  /** Exactly the valid rows survive, each as often as it occurs, in their
      original order; a table with no invalid row is unchanged. */
  lemma DropBadRowsSpec(rows: seq<Order>)
    ensures forall o :: multiset(DropBadRows(rows))[o] == if IsValid(o) then multiset(rows)[o] else 0
    ensures IsSubsequence(DropBadRows(rows), rows)
    ensures (forall i :: 0 <= i < |rows| ==> IsValid(rows[i])) ==> DropBadRows(rows) == rows
  {
    FilterCount(IsValid, rows);
    FilterIsSubsequence(IsValid, rows);
    if forall i :: 0 <= i < |rows| ==> IsValid(rows[i]) {
      FilterKeepsAll(IsValid, rows);
    }
  }

  /** The cutoff and the validity filter commute, so the order in which the
      source applies them does not matter. */
  lemma CutoffCommutesWithValidity(rows: seq<Order>, cutoff: Option<Date>)
    ensures DropBadRows(ApplyCutoff(rows, cutoff)) == ApplyCutoff(DropBadRows(rows), cutoff)
  {
    if cutoff.Some? {
      FilterCommutes(IsValid, OnOrAfter(cutoff.value), rows);
    }
  }

  /** A valid row with its `total_amount`. */
  function ToLine(o: Order): (l: Line)
    requires IsValid(o)
  {
    Line(o.orderId, o.customerId, o.orderDate.value, o.item, o.quantity.value,
         o.price.value, o.quantity.value * o.price.value, o.city, o.country)
  }

  /** The invariant every line carries: the checks of the validity filter hold
      and the total is the product of quantity and price. */
  predicate IsPricedLine(l: Line) {
    l.quantity > 0.0 && l.price >= 0.0 && l.totalAmount == l.quantity * l.price && l.item != Null
  }

  /** Adds `total_amount` to every row, keeping the row order and every other field. */
  function AddTotals(rows: seq<Order>): (r: seq<Line>)
    requires forall o :: o in rows ==> IsValid(o)
    ensures |r| == |rows|
    ensures forall i :: 0 <= i < |r| ==>
      && r[i].orderId == rows[i].orderId && r[i].customerId == rows[i].customerId
      && Some(r[i].orderDate) == rows[i].orderDate && r[i].item == rows[i].item
      && Some(r[i].quantity) == rows[i].quantity && Some(r[i].price) == rows[i].price
      && r[i].city == rows[i].city && r[i].country == rows[i].country
  {
    if rows == [] then [] else [ToLine(rows[0])] + AddTotals(rows[1..])
  }

  /** Every line carries the validity checks and `total_amount = quantity * price`. */
  lemma {:induction false} AddTotalsPriced(rows: seq<Order>)
    requires forall o :: o in rows ==> IsValid(o)
    ensures forall l :: l in AddTotals(rows) ==> IsPricedLine(l)
  {
    if rows != [] {
      AddTotalsPriced(rows[1..]);
      assert IsPricedLine(ToLine(rows[0]));
    }
  }
}
