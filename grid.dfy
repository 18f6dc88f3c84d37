/**
 * The shape of the nested loops that run every question for every persona
 * and append one result per cell: results persona by persona, and inside
 * each persona question by question. A cell sees its two indices and the
 * two items they point at.
 */
module Grid {
  /** The cells of row `i` (item `p`) for the first `n` columns. */
  function Row<P, Q, T>(i: nat, p: P, qs: seq<Q>, cell: (nat, P, nat, Q) -> T, n: nat): (r: seq<T>)
    requires n <= |qs|
    ensures |r| == n
  {
    seq(n, j requires 0 <= j < n => cell(i, p, j, qs[j]))
  }

  /** The first `m` rows, one after another. */
  function Rows<P, Q, T>(ps: seq<P>, qs: seq<Q>, cell: (nat, P, nat, Q) -> T, m: nat): seq<T>
    requires m <= |ps|
  {
    if m == 0 then [] else Rows(ps, qs, cell, m - 1) + Row(m - 1, ps[m - 1], qs, cell, |qs|)
  }

  /** `m` rows hold `m * |qs|` cells. */
  lemma {:induction false} RowsLength<P, Q, T>(ps: seq<P>, qs: seq<Q>, cell: (nat, P, nat, Q) -> T, m: nat)
    requires m <= |ps|
    ensures |Rows(ps, qs, cell, m)| == m * |qs|
  {
    if m > 0 {
      RowsLength(ps, qs, cell, m - 1);
      assert m * |qs| == (m - 1) * |qs| + |qs|;
    }
  }

  /** The cell of row `i` and column `j` sits at `i * |qs| + j`. */
  lemma {:induction false} RowsCell<P, Q, T>(ps: seq<P>, qs: seq<Q>, cell: (nat, P, nat, Q) -> T, m: nat,
                                             i: nat, j: nat)
    requires m <= |ps| && i < m && j < |qs|
    ensures i * |qs| + j < |Rows(ps, qs, cell, m)|
    ensures Rows(ps, qs, cell, m)[i * |qs| + j] == cell(i, ps[i], j, qs[j])
  {
    var n := |qs|;
    var before := Rows(ps, qs, cell, m - 1);
    var row := Row(m - 1, ps[m - 1], qs, cell, n);
    RowsLength(ps, qs, cell, m - 1);
    var k := i * n + j;
    if i < m - 1 {
      RowsCell(ps, qs, cell, m - 1, i, j);
      assert (before + row)[k] == before[k];
    } else {
      assert k == |before| + j;
      assert (before + row)[k] == row[j];
    }
  }

  /**
   * `m` rows hold `m * |qs|` cells, row-major: the cell of row `i` and
   * column `j` sits at `i * |qs| + j`.
   */
  lemma RowsLayout<P, Q, T>(ps: seq<P>, qs: seq<Q>, cell: (nat, P, nat, Q) -> T, m: nat)
    requires m <= |ps|
    ensures |Rows(ps, qs, cell, m)| == m * |qs|
    ensures forall i: nat, j: nat | i < m && j < |qs| ::
              Position(i, j, |qs|) < |Rows(ps, qs, cell, m)|
              && Rows(ps, qs, cell, m)[Position(i, j, |qs|)] == cell(i, ps[i], j, qs[j])
  {
    RowsLength(ps, qs, cell, m);
    forall i: nat, j: nat | i < m && j < |qs|
      ensures Position(i, j, |qs|) < |Rows(ps, qs, cell, m)|
              && Rows(ps, qs, cell, m)[Position(i, j, |qs|)] == cell(i, ps[i], j, qs[j])
    {
      RowsCell(ps, qs, cell, m, i, j);
    }
  }

  /** The index of row `i`, column `j` in a row-major grid of `n` columns. */
  function Position(i: nat, j: nat, n: nat): nat {
    i * n + j
  }

  /** A cell's position lies below the size of the grid. */
  lemma CellBelow(i: nat, j: nat, m: nat, n: nat)
    requires i < m && j < n
    ensures i * n + j < m * n
  {
    assert (i + 1) * n <= m * n by {
      MultiplyMonotone(i + 1, m, n);
    }
  }

  lemma MultiplyMonotone(a: nat, b: nat, c: nat)
    requires a <= b
    ensures a * c <= b * c
  {
  }

  /** One result per item, in order. */
  function Column<P, T>(ps: seq<P>, cell: (nat, P) -> T, m: nat): (r: seq<T>)
    requires m <= |ps|
    ensures |r| == m
  {
    seq(m, i requires 0 <= i < m => cell(i, ps[i]))
  }

  lemma RowStep<P, Q, T>(i: nat, p: P, qs: seq<Q>, cell: (nat, P, nat, Q) -> T, n: nat)
    requires n < |qs|
    ensures Row(i, p, qs, cell, n + 1) == Row(i, p, qs, cell, n) + [cell(i, p, n, qs[n])]
  {
  }

  lemma ColumnStep<P, T>(ps: seq<P>, cell: (nat, P) -> T, m: nat)
    requires m < |ps|
    ensures Column(ps, cell, m + 1) == Column(ps, cell, m) + [cell(m, ps[m])]
  {
  }
}
