/** The draws of a spin determine its outcome. */
module SpinDetermined {
  import opened Money
  import opened GameTypes
  import opened Grids
  import opened GameConfig
  import opened WinCap
  import opened WaysForBet
  import opened OutcomeRules
  import opened SpinShape
  import opened RawSpins
  import opened RandomPicks
  import opened VaultWrites
  import opened SpinSamples
  import opened Engine

  /** A Vault's cell can be read off the events about it. */
  lemma KingCells(bet: int, a: Grid, b: Grid, positions: seq<Position>, ve: seq<Event>)
    requires KingShape(bet, a, positions, ve) && KingShape(bet, b, positions, ve)
    ensures forall p :: p in positions ==> CellAt(a, p) == CellAt(b, p)
  {
    var final := ChainTo(ve, ChainStart(ve, positions), |positions| + 3, |ve| - |positions|);
    forall p | p in positions
      ensures CellAt(a, p) == CellAt(b, p)
    {
      var k :| 0 <= k < |positions| && positions[k] == p;
      assert KingAward(bet, positions[k], CellAt(a, positions[k]), final.current, ve[|ve| - |positions| + k]);
      assert KingAward(bet, positions[k], CellAt(b, positions[k]), final.current, ve[|ve| - |positions| + k]);
    }
  }

  lemma OpenedCells(mode: FeatureMode, bet: int, a: Grid, b: Grid, positions: seq<Position>, ve: seq<Event>)
    requires OpenedShape(mode, bet, a, positions, ve) && OpenedShape(mode, bet, b, positions, ve)
    ensures forall p :: p in positions ==> CellAt(a, p) == CellAt(b, p)
  {
    forall p | p in positions
      ensures CellAt(a, p) == CellAt(b, p)
    {
      var k :| 0 <= k < |positions| && positions[k] == p;
      assert OpenedPair(mode, bet, positions[k], CellAt(a, positions[k]), ve[2 * k + 2], ve[2 * k + 3]);
      assert OpenedPair(mode, bet, positions[k], CellAt(b, positions[k]), ve[2 * k + 2], ve[2 * k + 3]);
    }
  }

  lemma VaultCells(mode: FeatureMode, bet: int, a: Grid, b: Grid, ve: seq<Event>)
    requires SameSymbols(a, b) && VaultShape(mode, bet, a, ve) && VaultShape(mode, bet, b, ve)
    ensures PositionsFor(a, Vault) == PositionsFor(b, Vault)
    ensures forall p :: p in PositionsFor(a, Vault) ==> CellAt(a, p) == CellAt(b, p)
  {
    PositionsOfSymbols(a, b, Vault);
    var positions := PositionsFor(a, Vault);
    if positions != [] {
      if mode == Overdrive {
        KingCells(bet, a, b, positions, ve);
      } else if |ve| > 2 {
        OpenedCells(mode, bet, a, b, positions, ve);
      }
    }
  }

  /** Two grids written over the same drawn grid, telling the same Vault events, are the same. */
  lemma GridsAgree(mode: FeatureMode, bet: int, drawn: Grid, a: Grid, b: Grid, ve: seq<Event>)
    requires Rewarded(drawn, a) && Rewarded(drawn, b) && VaultShape(mode, bet, a, ve) && VaultShape(mode, bet, b, ve)
    ensures a == b
  {
    VaultCells(mode, bet, a, b, ve);
    PositionsExact(a, Vault);
    forall reel | 0 <= reel < |a|
      ensures a[reel] == b[reel]
    {
      forall row | 0 <= row < |a[reel]|
        ensures a[reel][row] == b[reel][row]
      {
        assert SameButReward(drawn[reel][row], a[reel][row]) && SameButReward(drawn[reel][row], b[reel][row]);
        if a[reel][row].symbol == Vault {
          assert Position(reel, row) in PositionsFor(a, Vault);
          assert CellAt(a, Position(reel, row)) == CellAt(b, Position(reel, row));
        }
      }
    }
  }

  lemma RawsAgree(c: Config, input: SpinInput, draws: SpinDraws, a: Outcome, b: Outcome, pre: seq<Event>, pre': seq<Event>,
                  rage: seq<Event>, rage': seq<Event>)
    requires RawSpin(c, input, a, pre, draws.vault, rage, draws.rage, draws.middle) && Rewarded(draws.grid, a.grid)
    requires RawSpin(c, input, b, pre', draws.vault, rage', draws.rage, draws.middle) && Rewarded(draws.grid, b.grid)
    ensures a == b
  {
    GridsAgree(input.feature.mode, input.bet, draws.grid, a.grid, b.grid, draws.vault);
    assert rage == rage' && a.next == b.next;
  }

  /** The same draws make the same outcome. */
  lemma DrawsDetermine(c: Config, input: SpinInput, draws: SpinDraws, a: Outcome, b: Outcome)
    requires SpunStep(c, input, draws, a) && SpunStep(c, input, draws, b)
    ensures a == b
  {
    var raw, pre, rage :|
      && RawSpin(c, input, raw, pre, draws.vault, rage, draws.rage, draws.middle)
      && Rewarded(draws.grid, raw.grid) && a == Capped(c, input, raw);
    var raw', pre', rage' :|
      && RawSpin(c, input, raw', pre', draws.vault, rage', draws.rage, draws.middle)
      && Rewarded(draws.grid, raw'.grid) && b == Capped(c, input, raw');
    RawsAgree(c, input, draws, raw, raw', pre, pre', rage, rage');
  }
}
