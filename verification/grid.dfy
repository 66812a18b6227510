/** Square grids of optional values, the representation shared by the letter
    grid and the owner grid of an SOS board, and the number of filled cells. */
module Grid {

  /** An empty cell is `None`; a filled one holds its value. */
  datatype Option<+T> = None | Some(value: T)

  /** `grid` has `n` rows of `n` cells each. */
  predicate IsSquare<T>(grid: seq<seq<T>>, n: int) {
    |grid| == n && forall i :: 0 <= i < n ==> |grid[i]| == n
  }

  /** Every cell of every row holds a value. */
  predicate AllFilled<T>(grid: seq<seq<Option<T>>>) {
    forall i, j :: 0 <= i < |grid| && 0 <= j < |grid[i]| ==> grid[i][j].Some?
  }

  /** Every cell of every row is empty. */
  predicate AllEmpty<T>(grid: seq<seq<Option<T>>>) {
    forall i, j :: 0 <= i < |grid| && 0 <= j < |grid[i]| ==> grid[i][j].None?
  }

  /** An `n` by `n` grid of empty cells. */
  function EmptyGrid<T>(n: nat): (grid: seq<seq<Option<T>>>)
    ensures IsSquare(grid, n)
    ensures AllEmpty(grid)
  {
    seq(n, _ => seq(n, _ => None))
  }

  /** The number of filled cells of one row. */
  function CountRow<T>(row: seq<Option<T>>): nat {
    if row == [] then 0 else (if row[0].Some? then 1 else 0) + CountRow(row[1..])
  }

  /** The number of filled cells of a grid. */
  function CountGrid<T>(grid: seq<seq<Option<T>>>): nat {
    if grid == [] then 0 else CountRow(grid[0]) + CountGrid(grid[1..])
  }

  /** A row has at most as many filled cells as it is long, and exactly that
      many precisely when no cell of it is empty. */
  lemma {:induction false} CountRowBound<T>(row: seq<Option<T>>)
    ensures CountRow(row) <= |row|
    ensures CountRow(row) == |row| <==> forall j :: 0 <= j < |row| ==> row[j].Some?
  {
    if row != [] {
      CountRowBound(row[1..]);
      assert forall j :: 1 <= j < |row| ==> row[j] == row[1..][j - 1];
    }
  }

  /** Filling one empty cell adds exactly one to the row's count. */
  lemma {:induction false} CountRowFill<T>(row: seq<Option<T>>, j: int, v: T)
    requires 0 <= j < |row| && row[j].None?
    ensures CountRow(row[j := Some(v)]) == CountRow(row) + 1
  {
    if j == 0 {
      assert row[j := Some(v)][1..] == row[1..];
    } else {
      assert row[j := Some(v)][1..] == row[1..][j - 1 := Some(v)];
      CountRowFill(row[1..], j - 1, v);
    }
  }

  /** Filling one empty cell adds exactly one to the grid's count. */
  lemma {:induction false} CountGridFill<T>(grid: seq<seq<Option<T>>>, i: int, j: int, v: T)
    requires 0 <= i < |grid| && 0 <= j < |grid[i]| && grid[i][j].None?
    ensures CountGrid(grid[i := grid[i][j := Some(v)]]) == CountGrid(grid) + 1
  {
    var grid' := grid[i := grid[i][j := Some(v)]];
    if i == 0 {
      assert grid'[1..] == grid[1..];
      CountRowFill(grid[0], j, v);
    } else {
      assert grid'[1..] == grid[1..][i - 1 := grid[1..][i - 1][j := Some(v)]];
      CountGridFill(grid[1..], i - 1, j, v);
    }
  }

  /** A grid whose rows all have length `n` has at most `|grid| * n` filled
      cells, and exactly that many precisely when no cell is empty. */
  lemma {:induction false} CountGridBound<T>(grid: seq<seq<Option<T>>>, n: nat)
    requires forall i :: 0 <= i < |grid| ==> |grid[i]| == n
    ensures CountGrid(grid) <= |grid| * n
    ensures CountGrid(grid) == |grid| * n <==> AllFilled(grid)
  {
    if grid != [] {
      var rest := grid[1..];
      assert forall i :: 0 <= i < |rest| ==> rest[i] == grid[i + 1];
      CountGridBound(rest, n);
      CountRowBound(grid[0]);
      assert |grid| * n == n + |rest| * n;
      if AllFilled(grid) {
        assert forall j :: 0 <= j < |grid[0]| ==> grid[0][j].Some?;
        assert AllFilled(rest) by {
          forall i, j | 0 <= i < |rest| && 0 <= j < |rest[i]|
            ensures rest[i][j].Some?
          {
            assert rest[i] == grid[i + 1];
          }
        }
      } else {
        var i, j :| 0 <= i < |grid| && 0 <= j < |grid[i]| && grid[i][j].None?;
        if i == 0 {
          assert CountRow(grid[0]) < n;
        } else {
          assert rest[i - 1][j].None?;
          assert !AllFilled(rest);
        }
      }
    }
  }

  /** A grid with no filled cell counts zero. */
  lemma {:induction false} CountGridEmpty<T>(grid: seq<seq<Option<T>>>)
    requires AllEmpty(grid)
    ensures CountGrid(grid) == 0
  {
    if grid != [] {
      CountRowEmpty(grid[0]);
      assert AllEmpty(grid[1..]) by {
        forall i, j | 0 <= i < |grid[1..]| && 0 <= j < |grid[1..][i]|
          ensures grid[1..][i][j].None?
        {
          assert grid[1..][i] == grid[i + 1];
        }
      }
      CountGridEmpty(grid[1..]);
    }
  }

  /** A row with no filled cell counts zero. */
  lemma {:induction false} CountRowEmpty<T>(row: seq<Option<T>>)
    requires forall j :: 0 <= j < |row| ==> row[j].None?
    ensures CountRow(row) == 0
  {
    if row != [] {
      assert forall j :: 0 <= j < |row[1..]| ==> row[1..][j] == row[j + 1];
      CountRowEmpty(row[1..]);
    }
  }
}
