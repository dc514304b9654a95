/** The partial shuffle is fair: every choice of cells, in every order, comes from exactly one sequence of draws. */
module ShuffleOdds {
  import opened Money
  import opened GameTypes
  import opened Grids
  import opened OutcomeRules
  import opened RandomPicks
  import opened VaultDraws
  import opened RageDrawing

  /** Each draw of a partial shuffle of n candidates, below the number of those left. */
  predicate DrawsFit(draws: seq<nat>, n: nat) {
    |draws| <= n && forall i :: 0 <= i < |draws| ==> draws[i] < n - i
  }

  ghost predicate SameMembers(a: seq<Position>, b: seq<Position>) {
    forall p :: p in a <==> p in b
  }

  /** After k turns the candidates are the same ones in another order. */
  ghost predicate Reordered(all: seq<Position>, shuffled: seq<Position>) {
    |shuffled| == |all| && Distinct(shuffled) && SameMembers(all, shuffled)
  }

  function Swapped(s: seq<Position>, i: nat, j: nat): seq<Position>
    requires i < |s| && j < |s|
  {
    s[i := s[j]][j := s[i]]
  }

  lemma SwapReorders(all: seq<Position>, s: seq<Position>, i: nat, j: nat)
    requires Reordered(all, s) && i < |s| && j < |s|
    ensures Reordered(all, Swapped(s, i, j))
  {
    var t := Swapped(s, i, j);
    assert t[i] == s[j] && t[j] == s[i];
    forall p
      ensures p in all <==> p in t
    {
      if p in s {
        var k :| 0 <= k < |s| && s[k] == p;
        assert t[if k == i then j else if k == j then i else k] == p;
      }
    }
  }

  /** The candidates after a turn for each draw. */
  function Turned(all: seq<Position>, draws: seq<nat>): (s: seq<Position>)
    requires DrawsFit(draws, |all|)
    ensures |s| == |all|
  {
    if draws == [] then all
    else
      var last := |draws| - 1;
      Swapped(Turned(all, draws[..last]), last, draws[last] + last)
  }

  lemma {:induction false} TurnedReorders(all: seq<Position>, draws: seq<nat>)
    requires Distinct(all) && DrawsFit(draws, |all|)
    ensures Reordered(all, Turned(all, draws))
  {
    if draws != [] {
      var last := |draws| - 1;
      TurnedReorders(all, draws[..last]);
      SwapReorders(all, Turned(all, draws[..last]), last, draws[last] + last);
    }
  }

  lemma DrawIsItself(d: nat, n: int)
    requires d < n
    ensures d % n == d
  {
  }

  lemma TakesDraw(n: int, d: nat, rest: seq<nat>)
    requires d < n
    ensures PickSample(n, [d] + rest) == Sample(Ok(d), rest)
  {
    DrawIsItself(d, n);
    assert ([d] + rest)[1..] == rest;
  }

  /** The shuffle on a tape that begins with fitting draws. */
  lemma {:induction false} ShuffleTurns(all: seq<Position>, draws: seq<nat>, rest: seq<nat>)
    requires DrawsFit(draws, |all|)
    ensures ShuffledTo(all, |draws|, draws + rest) == Sample(Ok(Turned(all, draws)), rest)
  {
    if draws == [] {
      assert draws + rest == rest;
    } else {
      var last := |draws| - 1;
      assert draws[..last] + ([draws[last]] + rest) == draws + rest;
      ShuffleTurns(all, draws[..last], [draws[last]] + rest);
      NextSwap(all, last, draws + rest, Turned(all, draws[..last]), [draws[last]] + rest);
      TakesDraw(|all| - last, draws[last], rest);
    }
  }

  /** The wanted cells are in front. */
  predicate InFront(s: seq<Position>, wanted: seq<Position>) {
    wanted <= s
  }

  /** The next wanted cell is among those left. */
  lemma LeftAt(all: seq<Position>, s: seq<Position>, wanted: seq<Position>) returns (j: nat)
    requires Reordered(all, s) && 0 < |wanted| <= |s| && Distinct(wanted) && wanted[|wanted| - 1] in all
    requires InFront(s, wanted[..|wanted| - 1])
    ensures |wanted| - 1 <= j < |s| && s[j] == wanted[|wanted| - 1]
  {
    var last := |wanted| - 1;
    assert wanted[last] in s;
    assert forall i :: 0 <= i < last ==> s[i] == wanted[..last][i] == wanted[i];
    j :| 0 <= j < |s| && s[j] == wanted[last];
  }

  lemma FrontGrows(s: seq<Position>, wanted: seq<Position>, j: nat)
    requires 0 < |wanted| <= |s| && |wanted| - 1 <= j < |s| && s[j] == wanted[|wanted| - 1]
    requires InFront(s, wanted[..|wanted| - 1])
    ensures InFront(Swapped(s, |wanted| - 1, j), wanted)
  {
    var i := |wanted| - 1;
    forall m | 0 <= m < |wanted|
      ensures Swapped(s, i, j)[m] == wanted[m]
    {
      assert m < i ==> s[m] == wanted[..i][m];
    }
  }

  /** Some fitting draws bring the wanted cells to the front, in their order. */
  lemma {:induction false} SomeDraws(all: seq<Position>, wanted: seq<Position>) returns (draws: seq<nat>)
    requires Distinct(all) && Distinct(wanted) && |wanted| <= |all|
    requires forall i :: 0 <= i < |wanted| ==> wanted[i] in all
    ensures |draws| == |wanted| && DrawsFit(draws, |all|) && InFront(Turned(all, draws), wanted)
  {
    draws := [];
    if wanted != [] {
      var last := |wanted| - 1;
      var before := SomeDraws(all, wanted[..last]);
      TurnedReorders(all, before);
      var j := LeftAt(all, Turned(all, before), wanted);
      FrontGrows(Turned(all, before), wanted, j);
      draws := before + [j - last];
      assert draws[..last] == before;
    }
  }

  /** Equal fronts after a turn were equal before it, and the same cell was brought forward. */
  lemma FrontsBefore(s: seq<Position>, t: seq<Position>, i: nat, x: nat, y: nat)
    requires |s| == |t| && i <= x < |s| && i <= y < |t|
    requires Swapped(s, i, x)[..i + 1] == Swapped(t, i, y)[..i + 1]
    ensures s[..i] == t[..i] && s[x] == t[y]
  {
    var u, v := Swapped(s, i, x), Swapped(t, i, y);
    assert u[..i + 1][i] == s[x] && v[..i + 1][i] == t[y];
    forall m | 0 <= m < i
      ensures s[m] == t[m]
    {
      assert u[..i + 1][m] == s[m] && v[..i + 1][m] == t[m];
    }
  }

  /** Other draws bring other cells to the front. */
  lemma {:induction false} OneFront(all: seq<Position>, a: seq<nat>, b: seq<nat>)
    requires Distinct(all) && |a| == |b| && DrawsFit(a, |all|) && DrawsFit(b, |all|)
    requires Turned(all, a)[..|a|] == Turned(all, b)[..|b|]
    ensures a == b
  {
    if a != [] {
      var last := |a| - 1;
      FrontsBefore(Turned(all, a[..last]), Turned(all, b[..last]), last, a[last] + last, b[last] + last);
      OneFront(all, a[..last], b[..last]);
      TurnedReorders(all, a[..last]);
      assert a == a[..last] + [a[last]] && b == b[..last] + [b[last]];
    }
  }

  /** The draws that choose these cells on this grid. */
  predicate Chooses(grid: Grid, cells: seq<Position>, draws: seq<nat>, rest: seq<nat>) {
    && |draws| == |cells| && DrawsFit(draws, |PositionsExcept(grid, Surge)|)
    && CellsSample(grid, |cells|, draws + rest) == Sample(Ok(cells), rest)
  }

  lemma ChoosesFront(grid: Grid, cells: seq<Position>, draws: seq<nat>, rest: seq<nat>)
    requires |draws| == |cells| && DrawsFit(draws, |PositionsExcept(grid, Surge)|)
    ensures Chooses(grid, cells, draws, rest) <==> Turned(PositionsExcept(grid, Surge), draws)[..|cells|] == cells
  {
    ShuffleTurns(PositionsExcept(grid, Surge), draws, rest);
  }

  /** Every choice of distinct cells without Surge, in every order, is made by exactly one sequence of draws. */
  lemma EveryChoiceOnce(grid: Grid, cells: seq<Position>, rest: seq<nat>)
    requires Distinct(cells) && |cells| <= |PositionsExcept(grid, Surge)|
    requires forall i :: 0 <= i < |cells| ==> OnGrid(grid, cells[i]) && grid[cells[i].reel][cells[i].row].symbol != Surge
    ensures exists draws: seq<nat> :: Chooses(grid, cells, draws, rest)
    ensures forall a: seq<nat>, b: seq<nat> :: Chooses(grid, cells, a, rest) && Chooses(grid, cells, b, rest) ==> a == b
  {
    var all := PositionsExcept(grid, Surge);
    ExceptExact(grid, Surge);
    var draws := SomeDraws(all, cells);
    ChoosesFront(grid, cells, draws, rest);
    assert Chooses(grid, cells, draws, rest);
    forall a: seq<nat>, b: seq<nat> | Chooses(grid, cells, a, rest) && Chooses(grid, cells, b, rest)
      ensures a == b
    {
      ChoosesFront(grid, cells, a, rest);
      ChoosesFront(grid, cells, b, rest);
      OneFront(all, a, b);
    }
  }
}
