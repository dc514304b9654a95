/** What the path lists of Ways contain: each matching triple of rows exactly once. */
module WaysEnumeration {
  import opened Money
  import opened GameTypes
  import opened Grids
  import opened Ways

  predicate IsPath(grid: Grid, base: int, p: PathAward, rows0: seq<int>, rows1: seq<int>, rows2: seq<int>)
    requires |grid| == 3 && RowsOf(rows1, grid[1])
  {
    && |p.cells| == 3
    && p.cells[0].row in rows0 && p.cells[1].row in rows1 && p.cells[2].row in rows2
    && p == PathThrough(grid, base, p.cells[0].row, p.cells[1].row, p.cells[2].row)
  }

  lemma {:induction false} LastPathsAre(grid: Grid, base: int, r0: int, r1: int, rows2: seq<int>)
    requires |grid| == 3 && 0 <= r1 < |grid[1]|
    ensures |LastPaths(grid, base, r0, r1, rows2)| == |rows2|
    ensures forall k :: 0 <= k < |rows2| ==>
              LastPaths(grid, base, r0, r1, rows2)[k] == PathThrough(grid, base, r0, r1, rows2[k])
  {
    if rows2 != [] {
      LastPathsAre(grid, base, r0, r1, rows2[..|rows2| - 1]);
    }
  }

  lemma {:induction false} MiddlePathsAre(grid: Grid, base: int, r0: int, rows1: seq<int>, rows2: seq<int>)
    requires |grid| == 3 && RowsOf(rows1, grid[1])
    ensures forall k :: 0 <= k < |MiddlePaths(grid, base, r0, rows1, rows2)| ==>
              IsPath(grid, base, MiddlePaths(grid, base, r0, rows1, rows2)[k], [r0], rows1, rows2)
  {
    if rows1 != [] {
      var last := |rows1| - 1;
      MiddlePathsAre(grid, base, r0, rows1[..last], rows2);
      LastPathsAre(grid, base, r0, rows1[last], rows2);
    }
  }

  /** Every listed path goes through listed rows and is awarded by the Wild on it. */
  lemma {:induction false} PathsAre(grid: Grid, base: int, rows0: seq<int>, rows1: seq<int>, rows2: seq<int>)
    requires |grid| == 3 && RowsOf(rows1, grid[1])
    ensures forall k :: 0 <= k < |PathsThrough(grid, base, rows0, rows1, rows2)| ==>
              IsPath(grid, base, PathsThrough(grid, base, rows0, rows1, rows2)[k], rows0, rows1, rows2)
  {
    if rows0 != [] {
      var last := |rows0| - 1;
      PathsAre(grid, base, rows0[..last], rows1, rows2);
      MiddlePathsAre(grid, base, rows0[last], rows1, rows2);
    }
  }

  lemma {:induction false} MiddlePathsContain(grid: Grid, base: int, r0: int, rows1: seq<int>, rows2: seq<int>,
                                              r1: int, r2: int)
    requires |grid| == 3 && RowsOf(rows1, grid[1]) && r1 in rows1 && r2 in rows2
    ensures PathThrough(grid, base, r0, r1, r2) in MiddlePaths(grid, base, r0, rows1, rows2)
  {
    var last := |rows1| - 1;
    if r1 == rows1[last] {
      LastPathsAre(grid, base, r0, r1, rows2);
      var k :| 0 <= k < |rows2| && rows2[k] == r2;
      assert LastPaths(grid, base, r0, r1, rows2)[k] == PathThrough(grid, base, r0, r1, r2);
    } else {
      MiddlePathsContain(grid, base, r0, rows1[..last], rows2, r1, r2);
    }
  }

  /** No combination of listed rows is missing. */
  lemma {:induction false} PathsContain(grid: Grid, base: int, rows0: seq<int>, rows1: seq<int>, rows2: seq<int>,
                                        r0: int, r1: int, r2: int)
    requires |grid| == 3 && RowsOf(rows1, grid[1])
    requires r0 in rows0 && r1 in rows1 && r2 in rows2
    ensures PathThrough(grid, base, r0, r1, r2) in PathsThrough(grid, base, rows0, rows1, rows2)
  {
    var last := |rows0| - 1;
    if r0 == rows0[last] {
      MiddlePathsContain(grid, base, r0, rows1, rows2, r1, r2);
    } else {
      PathsContain(grid, base, rows0[..last], rows1, rows2, r0, r1, r2);
    }
  }

  predicate DistinctCells(paths: seq<PathAward>) {
    forall i, j :: 0 <= i < j < |paths| ==> paths[i].cells != paths[j].cells
  }

  lemma DistinctAppend(a: seq<PathAward>, b: seq<PathAward>)
    requires DistinctCells(a) && DistinctCells(b)
    requires forall i, j :: 0 <= i < |a| && 0 <= j < |b| ==> a[i].cells != b[j].cells
    ensures DistinctCells(a + b)
  {
  }

  lemma {:induction false} MiddlePathsDistinct(grid: Grid, base: int, r0: int, rows1: seq<int>, rows2: seq<int>)
    requires |grid| == 3 && RowsOf(rows1, grid[1]) && Distinct(rows1) && Distinct(rows2)
    ensures DistinctCells(MiddlePaths(grid, base, r0, rows1, rows2))
  {
    if rows1 != [] {
      var last := |rows1| - 1;
      MiddlePathsDistinct(grid, base, r0, rows1[..last], rows2);
      MiddlePathsAre(grid, base, r0, rows1[..last], rows2);
      LastPathsAre(grid, base, r0, rows1[last], rows2);
      var a, b := MiddlePaths(grid, base, r0, rows1[..last], rows2), LastPaths(grid, base, r0, rows1[last], rows2);
      forall i, j | 0 <= i < j < |b|
        ensures b[i].cells != b[j].cells
      {
        assert b[i].cells[2].row == rows2[i] && b[j].cells[2].row == rows2[j];
      }
      forall i, j | 0 <= i < |a| && 0 <= j < |b|
        ensures a[i].cells != b[j].cells
      {
        assert IsPath(grid, base, a[i], [r0], rows1[..last], rows2);
        assert b[j].cells[1].row == rows1[last];
      }
      DistinctAppend(a, b);
    }
  }

  /** No path is listed twice. */
  lemma {:induction false} PathsDistinct(grid: Grid, base: int, rows0: seq<int>, rows1: seq<int>, rows2: seq<int>)
    requires |grid| == 3 && RowsOf(rows1, grid[1])
    requires Distinct(rows0) && Distinct(rows1) && Distinct(rows2)
    ensures DistinctCells(PathsThrough(grid, base, rows0, rows1, rows2))
  {
    if rows0 != [] {
      var last := |rows0| - 1;
      PathsDistinct(grid, base, rows0[..last], rows1, rows2);
      PathsAre(grid, base, rows0[..last], rows1, rows2);
      MiddlePathsDistinct(grid, base, rows0[last], rows1, rows2);
      MiddlePathsAre(grid, base, rows0[last], rows1, rows2);
      var a, b := PathsThrough(grid, base, rows0[..last], rows1, rows2),
                  MiddlePaths(grid, base, rows0[last], rows1, rows2);
      forall i, j | 0 <= i < |a| && 0 <= j < |b|
        ensures a[i].cells != b[j].cells
      {
        assert IsPath(grid, base, a[i], rows0[..last], rows1, rows2);
        assert IsPath(grid, base, b[j], [rows0[last]], rows1, rows2);
      }
      DistinctAppend(a, b);
    }
  }

  lemma {:induction false} AmountSumAppend(a: seq<PathAward>, b: seq<PathAward>)
    ensures AmountSum(a + b) == AmountSum(a) + AmountSum(b)
  {
    if b == [] {
      assert a + b == a;
    } else {
      var last := |b| - 1;
      assert (a + b)[..|a + b| - 1] == a + b[..last];
      AmountSumAppend(a, b[..last]);
    }
  }

  /** The sum of the middle multipliers over a list of rows. */
  function FactorSum(cells: seq<Cell>, rows: seq<int>): int
    requires RowsOf(rows, cells)
  {
    if rows == [] then 0
    else FactorSum(cells, rows[..|rows| - 1]) + WildFactor(cells[rows[|rows| - 1]])
  }

  lemma {:induction false} LastPathsSum(grid: Grid, base: int, r0: int, r1: int, rows2: seq<int>)
    requires |grid| == 3 && 0 <= r1 < |grid[1]|
    ensures AmountSum(LastPaths(grid, base, r0, r1, rows2)) == base * WildFactor(grid[1][r1]) * |rows2|
  {
    if rows2 != [] {
      var last := |rows2| - 1;
      LastPathsSum(grid, base, r0, r1, rows2[..last]);
      var head := LastPaths(grid, base, r0, r1, rows2[..last]);
      var all := LastPaths(grid, base, r0, r1, rows2);
      assert all[..|all| - 1] == head;
      var each := base * WildFactor(grid[1][r1]);
      assert each * last + each == each * |rows2|;
    }
  }

  lemma Distribute(base: int, s: int, f: int, n: int)
    ensures base * s * n + base * f * n == base * (s + f) * n
  {
    calc {
      base * (s + f) * n;
      (base * s + base * f) * n;
      base * s * n + base * f * n;
    }
  }

  lemma OneMore(each: int, n: int)
    ensures each * n + each == each * (n + 1)
  {
  }

  lemma {:induction false} MiddlePathsSum(grid: Grid, base: int, r0: int, rows1: seq<int>, rows2: seq<int>)
    requires |grid| == 3 && RowsOf(rows1, grid[1])
    ensures AmountSum(MiddlePaths(grid, base, r0, rows1, rows2)) == base * FactorSum(grid[1], rows1) * |rows2|
  {
    if rows1 != [] {
      var last := |rows1| - 1;
      MiddlePathsSum(grid, base, r0, rows1[..last], rows2);
      LastPathsSum(grid, base, r0, rows1[last], rows2);
      AmountSumAppend(MiddlePaths(grid, base, r0, rows1[..last], rows2),
                      LastPaths(grid, base, r0, rows1[last], rows2));
      Distribute(base, FactorSum(grid[1], rows1[..last]), WildFactor(grid[1][rows1[last]]), |rows2|);
    }
  }

  /** The award of a symbol: base times the middle multipliers, once per match on either side. */
  lemma {:induction false} PathsSum(grid: Grid, base: int, rows0: seq<int>, rows1: seq<int>, rows2: seq<int>)
    requires |grid| == 3 && RowsOf(rows1, grid[1])
    ensures AmountSum(PathsThrough(grid, base, rows0, rows1, rows2)) ==
            base * FactorSum(grid[1], rows1) * |rows2| * |rows0|
  {
    if rows0 != [] {
      var last := |rows0| - 1;
      PathsSum(grid, base, rows0[..last], rows1, rows2);
      MiddlePathsSum(grid, base, rows0[last], rows1, rows2);
      AmountSumAppend(PathsThrough(grid, base, rows0[..last], rows1, rows2),
                      MiddlePaths(grid, base, rows0[last], rows1, rows2));
      OneMore(base * FactorSum(grid[1], rows1) * |rows2|, last);
    }
  }

  lemma {:induction false} MiddlePathsCount(grid: Grid, base: int, r0: int, rows1: seq<int>, rows2: seq<int>)
    requires |grid| == 3 && RowsOf(rows1, grid[1])
    ensures |MiddlePaths(grid, base, r0, rows1, rows2)| == |rows2| * |rows1|
  {
    if rows1 != [] {
      var last := |rows1| - 1;
      MiddlePathsCount(grid, base, r0, rows1[..last], rows2);
      LastPathsAre(grid, base, r0, rows1[last], rows2);
      OneMore(|rows2|, last);
    }
  }

  lemma {:induction false} PathsCount(grid: Grid, base: int, rows0: seq<int>, rows1: seq<int>, rows2: seq<int>)
    requires |grid| == 3 && RowsOf(rows1, grid[1])
    ensures |PathsThrough(grid, base, rows0, rows1, rows2)| == |rows2| * |rows1| * |rows0|
  {
    if rows0 != [] {
      var last := |rows0| - 1;
      PathsCount(grid, base, rows0[..last], rows1, rows2);
      MiddlePathsCount(grid, base, rows0[last], rows1, rows2);
      OneMore(|rows2| * |rows1|, last);
    }
  }
}
