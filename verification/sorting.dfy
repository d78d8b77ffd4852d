/** The `orderBy: { id: "desc" }` order of the list routes. */
module Sorting {

  lemma {:induction false} MaxExists(s: set<int>)
    requires s != {}
    ensures exists m :: m in s && forall y :: y in s ==> y <= m
    decreases |s|
  {
    if forall y :: y !in s {
      // then s would equal the empty set
      assert false;
    }
    var x :| x in s;
    if s - {x} != {} {
      MaxExists(s - {x});
      var m :| m in s - {x} && forall y :: y in s - {x} ==> y <= m;
      var top := if x <= m then m else x;
      forall y | y in s
        ensures y <= top
      {
        if y != x {
          assert y in s - {x};
        }
      }
      assert top in s;
    } else {
      assert s == {x};
    }
  }

  function Max(s: set<int>): (m: int)
    requires s != {}
    ensures m in s && forall y :: y in s ==> y <= m
  {
    MaxExists(s);
    var m :| m in s && forall y :: y in s ==> y <= m;
    m
  }

  /** The ids of a table, newest (largest) first. */
  function SortDesc(s: set<int>): (r: seq<int>)
    ensures |r| == |s|
    ensures forall x :: x in r <==> x in s
    ensures forall i, j :: 0 <= i < j < |r| ==> r[i] > r[j]
    decreases |s|
  {
    if s == {} then []
    else
      var m := Max(s);
      var rest := SortDesc(s - {m});
      assert forall x :: x in rest ==> x < m;
      [m] + rest
  }

  /**
   * `findMany({ orderBy: { id: "desc" } })` over a table keyed by id: every
   * row exactly once, largest id first.
   */
  function ListByIdDesc<T>(table: map<int, T>, idOf: T -> int): (r: seq<T>)
    requires forall k :: k in table ==> idOf(table[k]) == k
    ensures |r| == |table|
    ensures forall i, j :: 0 <= i < j < |r| ==> idOf(r[i]) > idOf(r[j])
    ensures forall i :: 0 <= i < |r| ==> idOf(r[i]) in table && table[idOf(r[i])] == r[i]
    ensures forall k :: k in table ==> table[k] in r
  {
    var ids := SortDesc(table.Keys);
    forall i | 0 <= i < |ids|
      ensures ids[i] in table
    {
      assert ids[i] in ids;
    }
    var r := seq(|ids|, i requires 0 <= i < |ids| => table[ids[i]]);
    ListedRows(table, idOf, ids, r);
    r
  }

  lemma ListedRows<T>(table: map<int, T>, idOf: T -> int, ids: seq<int>, r: seq<T>)
    requires forall k :: k in table ==> idOf(table[k]) == k
    requires |ids| == |table| && forall x :: x in ids <==> x in table
    requires forall i, j :: 0 <= i < j < |ids| ==> ids[i] > ids[j]
    requires |r| == |ids| && forall i :: 0 <= i < |ids| ==> ids[i] in table && r[i] == table[ids[i]]
    ensures |r| == |table|
    ensures forall i, j :: 0 <= i < j < |r| ==> idOf(r[i]) > idOf(r[j])
    ensures forall i :: 0 <= i < |r| ==> idOf(r[i]) in table && table[idOf(r[i])] == r[i]
    ensures forall k :: k in table ==> table[k] in r
  {
    assert forall i :: 0 <= i < |r| ==> idOf(r[i]) == ids[i];
    forall k | k in table
      ensures table[k] in r
    {
      var i :| 0 <= i < |ids| && ids[i] == k;
      assert r[i] == table[k];
    }
  }
}
