/** The sparse training matrix as the sampler sees it: stored (user, item,
    rating) cells, the index lists `row(u).getIndex()` / `column(i).getIndex()`,
    and `get(u, i)`. */
module Ratings {

  /** One stored entry of the training matrix. */
  datatype Cell = Cell(row: nat, col: nat, value: real)

  /** A numRows × numCols matrix (users × items) given by its stored cells in
      iteration order. */
  datatype Ratings = Ratings(numRows: nat, numCols: nat, cells: seq<Cell>)

  /** Which block an entity belongs to: a user owns a row, an item a column. */
  datatype Side = Users | Items {

    function Flip(): Side
    {
      if Users? then Items else Users
    }
  }

  /** No two stored cells share a position. */
  predicate Distinct(cells: seq<Cell>)
  {
    forall a, b :: 0 <= a < b < |cells| ==> cells[a].row != cells[b].row || cells[a].col != cells[b].col
  }

  /** Every cell lies inside the matrix, positions are distinct, and only
      nonzero entries are stored (a sparse matrix keeps no explicit zeros). */
  predicate Valid(R: Ratings)
  {
    (forall k :: 0 <= k < |R.cells| ==>
       R.cells[k].row < R.numRows && R.cells[k].col < R.numCols && R.cells[k].value != 0.0) &&
    Distinct(R.cells)
  }

  /** Number of entities on a side: users are rows, items are columns. */
  function Count(R: Ratings, side: Side): nat
  {
    if side == Users then R.numRows else R.numCols
  }

  /** The entity of `side` a cell belongs to, and its partner on the other side. */
  function Owner(c: Cell, side: Side): nat
  {
    if side == Users then c.row else c.col
  }

  function Partner(c: Cell, side: Side): nat
  {
    if side == Users then c.col else c.row
  }

  /** The indices rated by (side == Users) or rating (side == Items) entity e,
      in storage order: exactly the partners of the cells e owns. */
  function Index(cells: seq<Cell>, side: Side, e: nat): (ix: seq<nat>)
    ensures forall o :: o in ix <==> exists k :: 0 <= k < |cells| && Owner(cells[k], side) == e && Partner(cells[k], side) == o
  {
    if |cells| == 0 then []
    else
      var rest := Index(cells[1..], side, e);
      assert forall k :: 0 <= k < |cells| - 1 ==> cells[1..][k] == cells[k + 1];
      if Owner(cells[0], side) == e then [Partner(cells[0], side)] + rest else rest
  }

  /** The stored value at (u, i), or 0 when nothing is stored there. */
  function Get(cells: seq<Cell>, u: nat, i: nat): real
  {
    if |cells| == 0 then 0.0
    else if cells[0].row == u && cells[0].col == i then cells[0].value
    else Get(cells[1..], u, i)
  }

  /** The rating between entity e of `side` and entity o of the other side. */
  function Rating(cells: seq<Cell>, side: Side, e: nat, o: nat): real
  {
    if side == Users then Get(cells, e, o) else Get(cells, o, e)
  }

  /** In a valid matrix every index of an entity names an entity of the other side. */
  lemma IndexInRange(R: Ratings, side: Side, e: nat)
    requires Valid(R)
    ensures forall t :: 0 <= t < |Index(R.cells, side, e)| ==> Index(R.cells, side, e)[t] < Count(R, side.Flip())
  {
    var ix := Index(R.cells, side, e);
    forall t | 0 <= t < |ix|
      ensures ix[t] < Count(R, side.Flip())
    {
      assert ix[t] in ix;
      var k :| 0 <= k < |R.cells| && Owner(R.cells[k], side) == e && Partner(R.cells[k], side) == ix[t];
    }
  }

  /** `get` returns the value stored at a cell's own position. */
  lemma {:induction false} GetStored(cells: seq<Cell>, k: nat)
    requires Distinct(cells)
    requires k < |cells|
    ensures Get(cells, cells[k].row, cells[k].col) == cells[k].value
  {
    if k > 0 {
      assert cells[1..][k - 1] == cells[k];
      GetStored(cells[1..], k - 1);
    }
  }

  /** `get` returns 0 where no cell is stored. */
  lemma {:induction false} GetAbsent(cells: seq<Cell>, u: nat, i: nat)
    requires forall k :: 0 <= k < |cells| ==> cells[k].row != u || cells[k].col != i
    ensures Get(cells, u, i) == 0.0
  {
    if |cells| > 0 {
      GetAbsent(cells[1..], u, i);
    }
  }

  /** In a valid matrix an entity's index list holds exactly the entities of
      the other side it has a nonzero rating with. */
  lemma IndexIsNonzeroRatings(R: Ratings, side: Side, e: nat, o: nat)
    requires Valid(R)
    ensures o in Index(R.cells, side, e) <==> Rating(R.cells, side, e, o) != 0.0
  {
    var cells := R.cells;
    if o in Index(cells, side, e) {
      var k :| 0 <= k < |cells| && Owner(cells[k], side) == e && Partner(cells[k], side) == o;
      GetStored(cells, k);
    } else {
      var u := if side == Users then e else o;
      var i := if side == Users then o else e;
      forall k | 0 <= k < |cells|
        ensures cells[k].row != u || cells[k].col != i
      {
        assert Owner(cells[k], side) != e || Partner(cells[k], side) != o;
      }
      GetAbsent(cells, u, i);
    }
  }
}
