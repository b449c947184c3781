/** `fact_orders`: the fact columns of every line, one row per `order_id`
    (the first occurrence wins), ordered by `order_date`. */
module Facts {
  import opened Tables
  import opened Sequences

  /** The fact columns of one line. */
  function ToFact(l: Line): FactRow {
    FactRow(l.orderId, l.customerId, l.orderDate, l.item, l.quantity, l.price, l.totalAmount)
  }

  /** The column selection `df[[...]]` of the fact columns. */
  function Project(lines: seq<Line>): (r: seq<FactRow>)
    ensures |r| == |lines|
    ensures forall i :: 0 <= i < |lines| ==> r[i] == ToFact(lines[i])
  {
    if lines == [] then [] else [ToFact(lines[0])] + Project(lines[1..])
  }

  /** The validity checks and the derived total, as they hold of a fact row. */
  predicate IsPricedFact(f: FactRow) {
    f.quantity > 0.0 && f.price >= 0.0 && f.totalAmount == f.quantity * f.price
  }

  function OrderIds(rows: seq<FactRow>): set<int> {
    set f | f in rows :: f.orderId
  }

  /** No two rows share an `order_id`. */
  predicate UniqueOrderIds(rows: seq<FactRow>) {
    forall i, j :: 0 <= i < j < |rows| ==> rows[i].orderId != rows[j].orderId
  }

  /** Row `i` is the first row of `rows` with its `order_id`. */
  predicate IsFirstOccurrence(rows: seq<FactRow>, i: int)
    requires 0 <= i < |rows|
  {
    forall j :: 0 <= j < i ==> rows[j].orderId != rows[i].orderId
  }

  /** `drop_duplicates(subset=["order_id"])`: a row is kept when no earlier row
      has its `order_id`. */
  function DedupByOrderId(rows: seq<FactRow>): (r: seq<FactRow>)
    decreases |rows|
  {
    if rows == [] then []
    else
      var kept := DedupByOrderId(rows[..|rows| - 1]);
      if rows[|rows| - 1].orderId in OrderIds(kept) then kept else kept + [rows[|rows| - 1]]
  }

  /** The deduplicated table has one row per distinct `order_id` of the input,
      that row is the first occurrence of its id, and rows keep their order. */
  lemma DedupSpec(rows: seq<FactRow>)
    ensures UniqueOrderIds(DedupByOrderId(rows))
    ensures OrderIds(DedupByOrderId(rows)) == OrderIds(rows)
    ensures forall f :: f in DedupByOrderId(rows) ==> exists i :: 0 <= i < |rows| && rows[i] == f && IsFirstOccurrence(rows, i)
    ensures IsSubsequence(DedupByOrderId(rows), rows)
  {
    DedupKeepsIds(rows);
    DedupKeepsFirstOccurrences(rows);
  }

  /** The kept rows have distinct ids, every id of the input, and their input order. */
  lemma {:induction false} DedupKeepsIds(rows: seq<FactRow>)
    ensures UniqueOrderIds(DedupByOrderId(rows))
    ensures OrderIds(DedupByOrderId(rows)) == OrderIds(rows)
    ensures IsSubsequence(DedupByOrderId(rows), rows)
    decreases |rows|
  {
    if rows != [] {
      var init := rows[..|rows| - 1];
      var last := rows[|rows| - 1];
      var kept := DedupByOrderId(init);
      DedupKeepsIds(init);
      assert rows == init + [last];
      assert OrderIds(rows) == OrderIds(init) + {last.orderId};
      if last.orderId in OrderIds(kept) {
        SubsequenceExtend(kept, init, last);
      } else {
        SubsequenceSnoc(kept, init, last);
        forall i | 0 <= i < |kept| ensures kept[i].orderId != last.orderId {
          assert kept[i] in kept;
        }
      }
    }
  }

  /** Every kept row is the first row of the input with its `order_id`. */
  lemma {:induction false} DedupKeepsFirstOccurrences(rows: seq<FactRow>)
    ensures forall f :: f in DedupByOrderId(rows) ==> exists i :: 0 <= i < |rows| && rows[i] == f && IsFirstOccurrence(rows, i)
    decreases |rows|
  {
    if rows != [] {
      var init := rows[..|rows| - 1];
      var last := rows[|rows| - 1];
      var kept := DedupByOrderId(init);
      DedupKeepsFirstOccurrences(init);
      forall f | f in kept
        ensures exists i :: 0 <= i < |rows| && rows[i] == f && IsFirstOccurrence(rows, i)
      {
        var i :| 0 <= i < |init| && init[i] == f && IsFirstOccurrence(init, i);
        assert rows[i] == f && IsFirstOccurrence(rows, i);
      }
      if last.orderId !in OrderIds(kept) {
        DedupKeepsIds(init);
        LastIsFirstOccurrence(rows);
        assert DedupByOrderId(rows) == kept + [last];
      }
    }
  }

  /** The last row is a first occurrence when no earlier row has its id. */
  lemma LastIsFirstOccurrence(rows: seq<FactRow>)
    requires rows != [] && rows[|rows| - 1].orderId !in OrderIds(rows[..|rows| - 1])
    ensures IsFirstOccurrence(rows, |rows| - 1)
  {
    forall j | 0 <= j < |rows| - 1 ensures rows[j].orderId != rows[|rows| - 1].orderId {
      assert rows[..|rows| - 1][j] in rows[..|rows| - 1];
    }
  }

  /** The order `sort_values("order_date")` establishes. */
  predicate SortedByDate(rows: seq<FactRow>) {
    forall i, j :: 0 <= i < j < |rows| ==> rows[i].orderDate <= rows[j].orderDate
  }

  /** Places `f` in front of the first row dated on or after it. */
  function InsertByDate(f: FactRow, rows: seq<FactRow>): (r: seq<FactRow>)
    ensures multiset(r) == multiset(rows) + multiset{f}
  {
    if rows == [] then [f]
    else if f.orderDate <= rows[0].orderDate then [f] + rows
    else
      assert rows == [rows[0]] + rows[1..];
      [rows[0]] + InsertByDate(f, rows[1..])
  }

  /** Inserting into a table ordered by date keeps it ordered. */
  lemma {:induction false} InsertByDateSorted(f: FactRow, rows: seq<FactRow>)
    requires SortedByDate(rows)
    ensures SortedByDate(InsertByDate(f, rows))
  {
    if rows != [] && f.orderDate > rows[0].orderDate {
      var rest := InsertByDate(f, rows[1..]);
      InsertByDateSorted(f, rows[1..]);
      forall g | g in rest ensures rows[0].orderDate <= g.orderDate {
        assert g in multiset(rest);
        if g != f {
          assert g in rows[1..];
        }
      }
    }
  }

  /** `sort_values("order_date")`: the source's sort need not be stable, so only
      the order by date and the permutation are promised. */
  function SortByDate(rows: seq<FactRow>): (r: seq<FactRow>)
    ensures multiset(r) == multiset(rows)
    ensures SortedByDate(r)
  {
    if rows == [] then []
    else
      assert rows == [rows[0]] + rows[1..];
      InsertByDateSorted(rows[0], SortByDate(rows[1..]));
      InsertByDate(rows[0], SortByDate(rows[1..]))
  }

  /** The `fact_orders` table built from the filtered lines. */
  function BuildFact(lines: seq<Line>): seq<FactRow> {
    SortByDate(DedupByOrderId(Project(lines)))
  }

  /** `fact_orders` holds each distinct `order_id` of the lines exactly once,
      each row is the fact part of the first line with its `order_id`, the table
      is a permutation of the deduplicated rows and is ordered by date. */
  lemma BuildFactSpec(lines: seq<Line>)
    ensures UniqueOrderIds(BuildFact(lines))
    ensures OrderIds(BuildFact(lines)) == set l | l in lines :: l.orderId
    ensures forall f :: f in BuildFact(lines) ==> exists i :: 0 <= i < |lines| && ToFact(lines[i]) == f && (forall j :: 0 <= j < i ==> lines[j].orderId != lines[i].orderId)
    ensures multiset(BuildFact(lines)) == multiset(DedupByOrderId(Project(lines)))
    ensures SortedByDate(BuildFact(lines))
  {
    var deduped := DedupByOrderId(Project(lines));
    DedupSpec(Project(lines));
    PermutationKeepsUniqueIds(deduped, BuildFact(lines));
    SortKeepsMembers(lines);
    ProjectOrderIds(lines);
    FactRowsAreFirstLines(lines);
  }

  /** Sorting moves the deduplicated rows around without adding or losing any. */
  lemma SortKeepsMembers(lines: seq<Line>)
    ensures forall f :: f in BuildFact(lines) <==> f in DedupByOrderId(Project(lines))
    ensures OrderIds(BuildFact(lines)) == OrderIds(DedupByOrderId(Project(lines)))
  {
    var deduped := DedupByOrderId(Project(lines));
    var fact := BuildFact(lines);
    forall f ensures f in fact <==> f in deduped {
      assert f in fact <==> f in multiset(fact);
      assert f in deduped <==> f in multiset(deduped);
    }
  }

  /** The ids of the projected rows are the ids of the lines. */
  lemma ProjectOrderIds(lines: seq<Line>)
    ensures OrderIds(Project(lines)) == set l | l in lines :: l.orderId
  {
    var projected := Project(lines);
    forall id | id in OrderIds(projected) ensures id in set l | l in lines :: l.orderId {
      var f :| f in projected && f.orderId == id;
      var i :| 0 <= i < |projected| && projected[i] == f;
      assert lines[i] in lines;
    }
    forall id | id in set l | l in lines :: l.orderId ensures id in OrderIds(projected) {
      var l :| l in lines && l.orderId == id;
      var i :| 0 <= i < |lines| && lines[i] == l;
      assert projected[i] in projected;
    }
  }

  /** Every fact row is the fact part of the first line with its `order_id`. */
  lemma FactRowsAreFirstLines(lines: seq<Line>)
    ensures forall f :: f in BuildFact(lines) ==> exists i :: 0 <= i < |lines| && ToFact(lines[i]) == f && (forall j :: 0 <= j < i ==> lines[j].orderId != lines[i].orderId)
  {
    var projected := Project(lines);
    DedupSpec(projected);
    SortKeepsMembers(lines);
    forall f | f in BuildFact(lines)
      ensures exists i :: 0 <= i < |lines| && ToFact(lines[i]) == f && (forall j :: 0 <= j < i ==> lines[j].orderId != lines[i].orderId)
    {
      var i :| 0 <= i < |projected| && projected[i] == f && IsFirstOccurrence(projected, i);
      assert forall j :: 0 <= j < i ==> projected[j].orderId == lines[j].orderId;
    }
  }

  /** Reordering a table with unique ids keeps its ids unique. */
  lemma PermutationKeepsUniqueIds(a: seq<FactRow>, b: seq<FactRow>)
    requires UniqueOrderIds(a) && multiset(a) == multiset(b)
    ensures UniqueOrderIds(b)
  {
    forall i, j | 0 <= i < j < |b| ensures b[i].orderId != b[j].orderId {
      if b[i].orderId == b[j].orderId {
        assert b[i] in multiset(a) && b[j] in multiset(a);
        var x :| 0 <= x < |a| && a[x] == b[i];
        var y :| 0 <= y < |a| && a[y] == b[j];
        if x == y {
          // the same row of `a` occurs twice in `b`, so twice in `a`
          assert b[i] == b[j];
          assert multiset(b)[b[i]] >= 2 by {
            assert b == b[..i] + [b[i]] + b[i+1..j] + [b[j]] + b[j+1..];
          }
          assert multiset(a)[a[x]] >= 2;
          CountTwoGivesTwoIndices(a, a[x]);
        }
      }
    }
  }

  /** An element occurring twice sits at two different positions. */
  lemma CountTwoGivesTwoIndices(a: seq<FactRow>, f: FactRow)
    requires multiset(a)[f] >= 2
    ensures exists x, y :: 0 <= x < y < |a| && a[x] == f && a[y] == f
  {
    assert f in a;
    var x :| 0 <= x < |a| && a[x] == f;
    assert a == a[..x] + [f] + a[x+1..];
    assert multiset(a[..x])[f] + multiset(a[x+1..])[f] >= 1;
    if f in a[..x] {
      var y :| 0 <= y < x && a[..x][y] == f;
      assert a[y] == f;
    } else {
      assert f in a[x+1..];
      var y :| 0 <= y < |a| - x - 1 && a[x+1..][y] == f;
      assert a[x + 1 + y] == f;
    }
  }
}
