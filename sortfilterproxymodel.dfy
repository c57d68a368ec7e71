/**
 * The row comparator of SortFilterProxyModel: the list models it sorts add one
 * trailing placeholder row (the "New:" row, rowCount == count + 1), and the
 * comparator keeps that row at the end whatever the underlying order says.
 *
 * Rows are indices of the source model; the comparison QSortFilterProxyModel
 * itself would make (on the rows' data) is the parameter `baseLess`.
 */
module SortFilterProxy {

  /** A row is pinned when it is at or past the last row of the source model. */
  predicate Pinned(rowCount: nat, row: nat) {
    row >= rowCount - 1
  }

  /** SortFilterProxyModel::lessThan */
  function LessThan(baseLess: (nat, nat) -> bool, rowCount: nat, left: nat, right: nat): (r: bool)
    ensures Pinned(rowCount, left) ==> !r
    ensures !Pinned(rowCount, left) && Pinned(rowCount, right) ==> r
    ensures !Pinned(rowCount, left) && !Pinned(rowCount, right) ==> (r <==> baseLess(left, right))
  {
    if left >= rowCount - 1 then false
    else if right >= rowCount - 1 then true
    else baseLess(left, right)
  }

  /** The placeholder row is never less than a row, and every other row is less than it. */
  lemma LastRowIsGreatest(baseLess: (nat, nat) -> bool, rowCount: nat, row: nat)
    requires rowCount > 0
    ensures !LessThan(baseLess, rowCount, rowCount - 1, row)
    ensures row < rowCount - 1 ==> LessThan(baseLess, rowCount, row, rowCount - 1)
  {
  }

  /** With an empty source model every comparison is false. */
  lemma EmptyModelComparesNothing(baseLess: (nat, nat) -> bool, left: nat, right: nat)
    ensures !LessThan(baseLess, 0, left, right)
  {
  }

  ghost predicate IrreflexiveOn(less: (nat, nat) -> bool) {
    forall x: nat :: !less(x, x)
  }

  ghost predicate AsymmetricOn(less: (nat, nat) -> bool) {
    forall x: nat, y: nat :: less(x, y) ==> !less(y, x)
  }

  ghost predicate TransitiveOn(less: (nat, nat) -> bool) {
    forall x: nat, y: nat, z: nat :: less(x, y) && less(y, z) ==> less(x, z)
  }

  /** The comparator the proxy uses, for a fixed base comparison and row count. */
  function Combined(baseLess: (nat, nat) -> bool, rowCount: nat): (less: (nat, nat) -> bool)
    ensures forall x: nat, y: nat :: less(x, y) == LessThan(baseLess, rowCount, x, y)
  {
    (x: nat, y: nat) => LessThan(baseLess, rowCount, x, y)
  }

  /** Pinning the last row keeps a strict order strict. */
  lemma CombinedKeepsStrictOrder(baseLess: (nat, nat) -> bool, rowCount: nat)
    ensures IrreflexiveOn(baseLess) ==> IrreflexiveOn(Combined(baseLess, rowCount))
    ensures AsymmetricOn(baseLess) ==> AsymmetricOn(Combined(baseLess, rowCount))
    ensures TransitiveOn(baseLess) ==> TransitiveOn(Combined(baseLess, rowCount))
  {
    var less := Combined(baseLess, rowCount);
    if TransitiveOn(baseLess) {
      forall x: nat, y: nat, z: nat | less(x, y) && less(y, z)
        ensures less(x, z)
      {
        assert !Pinned(rowCount, x) && !Pinned(rowCount, y);
      }
    }
  }

  /**
   * A sequence of rows with no inversion under the comparator (no later row
   * compares less than an earlier one) that holds the placeholder row ends with it.
   */
  lemma SortedEndsWithPlaceholder(baseLess: (nat, nat) -> bool, rowCount: nat, rows: seq<nat>)
    requires rowCount > 0
    requires rowCount - 1 in rows
    requires forall i, j :: 0 <= i < j < |rows| ==> !LessThan(baseLess, rowCount, rows[j], rows[i])
    ensures rows[|rows| - 1] >= rowCount - 1
  {
    var last := |rows| - 1;
    var i :| 0 <= i < |rows| && rows[i] == rowCount - 1;
    if i < last {
      assert !LessThan(baseLess, rowCount, rows[last], rows[i]);
    }
  }
}
