/** A stable descending sort, as the order it puts the positions of its input in. */
module StableOrder {
  /** Position `a` comes before position `b`: larger first, and among equals the earlier one. */
  predicate Before(sizes: seq<nat>, a: nat, b: nat)
    requires a < |sizes| && b < |sizes|
  {
    sizes[a] > sizes[b] || (sizes[a] == sizes[b] && a < b)
  }

  ghost predicate Positions(sizes: seq<nat>, order: seq<nat>) {
    forall i | 0 <= i < |order| :: order[i] < |sizes|
  }

  ghost predicate Ordered(sizes: seq<nat>, order: seq<nat>)
    requires Positions(sizes, order)
  {
    forall i, j | 0 <= i < j < |order| :: Before(sizes, order[i], order[j])
  }

  /** The new position goes behind every position whose size is at least its own. */
  function Insert(sizes: seq<nat>, order: seq<nat>, position: nat): (result: seq<nat>)
    requires position < |sizes| && Positions(sizes, order)
    ensures |result| == |order| + 1
  {
    if order == [] || sizes[order[0]] < sizes[position] then [position] + order
    else [order[0]] + Insert(sizes, order[1..], position)
  }

  /** The first `n` positions in sorted order. */
  function OrderOf(sizes: seq<nat>, n: nat): (order: seq<nat>)
    requires n <= |sizes|
    ensures |order| == n && Positions(sizes, order)
  {
    if n == 0 then []
    else
      InsertKeepsPositions(sizes, OrderOf(sizes, n - 1), n - 1);
      Insert(sizes, OrderOf(sizes, n - 1), n - 1)
  }

  function StableDescending(sizes: seq<nat>): (order: seq<nat>)
    ensures |order| == |sizes| && Positions(sizes, order)
  {
    OrderOf(sizes, |sizes|)
  }

  lemma {:induction false} InsertKeepsPositions(sizes: seq<nat>, order: seq<nat>, position: nat)
    requires position < |sizes| && Positions(sizes, order)
    ensures forall x :: x in Insert(sizes, order, position) <==> x in order || x == position
    ensures Positions(sizes, Insert(sizes, order, position))
  {
    if order == [] || sizes[order[0]] < sizes[position] {
      assert Insert(sizes, order, position) == [position] + order;
    } else {
      InsertKeepsPositions(sizes, order[1..], position);
      assert order == [order[0]] + order[1..];
    }
  }

  lemma {:induction false} InsertKeepsOrder(sizes: seq<nat>, order: seq<nat>, position: nat)
    requires position < |sizes| && Positions(sizes, order) && Ordered(sizes, order)
    requires forall x <- order :: x < position
    ensures var result := Insert(sizes, order, position); Positions(sizes, result) && Ordered(sizes, result)
  {
    InsertKeepsPositions(sizes, order, position);
    if order != [] && sizes[order[0]] >= sizes[position] {
      var rest := Insert(sizes, order[1..], position);
      assert forall x <- order[1..] :: x in order;
      assert order[0] in order;
      InsertKeepsOrder(sizes, order[1..], position);
      InsertKeepsPositions(sizes, order[1..], position);
      forall x | x in rest ensures x < |sizes| && Before(sizes, order[0], x) {
        if x != position {
          var j :| 0 <= j < |order[1..]| && order[1..][j] == x;
          assert Before(sizes, order[0], order[j + 1]);
        }
      }
    }
  }

  lemma {:induction false} OrderOfIsSorted(sizes: seq<nat>, n: nat)
    requires n <= |sizes|
    ensures Ordered(sizes, OrderOf(sizes, n))
    ensures forall x :: x in OrderOf(sizes, n) <==> 0 <= x < n
  {
    if 0 < n {
      OrderOfIsSorted(sizes, n - 1);
      InsertKeepsPositions(sizes, OrderOf(sizes, n - 1), n - 1);
      InsertKeepsOrder(sizes, OrderOf(sizes, n - 1), n - 1);
    }
  }

  /** Every position once, larger sizes first, equal sizes in their original order. */
  lemma StableDescendingSorts(sizes: seq<nat>)
    ensures var order := StableDescending(sizes);
            && Ordered(sizes, order)
            && (forall x: nat :: x in order <==> x < |sizes|)
            && (forall i, j | 0 <= i < j < |order| :: order[i] != order[j])
  {
    OrderOfIsSorted(sizes, |sizes|);
    var order := StableDescending(sizes);
    forall i, j | 0 <= i < j < |order| ensures order[i] != order[j] {
      assert Before(sizes, order[i], order[j]);
    }
  }

  /** Cut anywhere, nothing left out comes before anything kept. */
  lemma CutIsTop(sizes: seq<nat>, n: nat, kept: nat, left: nat)
    requires n <= |sizes| && kept in StableDescending(sizes)[..n] && left < |sizes| && left !in StableDescending(sizes)[..n]
    ensures kept < |sizes| && Before(sizes, kept, left)
  {
    StableDescendingSorts(sizes);
    var order := StableDescending(sizes);
    var i :| 0 <= i < n && order[..n][i] == kept;
    assert left in order;
    var j :| 0 <= j < |order| && order[j] == left;
  }
}
