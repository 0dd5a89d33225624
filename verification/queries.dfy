/** What the services get back from a query that has no order of its own. */
module Queries {
  import opened Tables

  /** A `findMany` without an order: the matching rows in some order. */
  method ListRows(ids: set<Id>) returns (rows: seq<Id>)
    ensures IsListing(rows, ids)
  {
    rows := [];
    var left := ids;
    while left != {}
      invariant Distinct(rows) && left <= ids
      invariant forall id :: id in rows <==> id in ids && id !in left
      decreases left
    {
      var id :| id in left;
      rows, left := rows + [id], left - {id};
    }
  }

  lemma {:induction false} DistinctCount(rows: seq<Id>)
    requires Distinct(rows)
    ensures |SetOf(rows)| == |rows|
  {
    if rows == [] {
      assert SetOf(rows) == {};
    } else {
      var front := rows[..|rows| - 1];
      DistinctCount(front);
      assert rows == front + [rows[|rows| - 1]];
      assert SetOf(rows) == SetOf(front) + {rows[|rows| - 1]};
    }
  }

  function SetOf(rows: seq<Id>): set<Id> { set p | p in rows }
}
