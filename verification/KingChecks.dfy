/** The validator's replay of King Spin upgrade chains. */
module KingChecks {
  import opened Money
  import opened GameTypes
  import opened Grids
  import opened OutcomeRules
  import opened AwardChecks
  import opened VaultChecks

  method FirstAward(events: seq<Event>) returns (first: nat)
    ensures first == FirstAt(events, VaultAwarded)
  {
    first := |events|;
    for i := 0 to |events|
      invariant first == (if FirstAt(events[..i], VaultAwarded) == i then |events| else FirstAt(events[..i], VaultAwarded))
    {
      assert events[..i + 1][..i] == events[..i];
      if events[i].kind == VaultAwarded && i < first {
        first := i;
      }
    }
    assert events[..|events|] == events;
  }

  method CheckClosing(events: seq<Event>, first: nat) returns (ok: bool)
    requires first <= |events|
    ensures ok <==> forall i :: first <= i < |events| ==> ClosingKind(events[i].kind)
  {
    for i := first to |events|
      invariant forall k :: first <= k < i ==> ClosingKind(events[k].kind)
    {
      if !ClosingKind(events[i].kind) {
        return false;
      }
    }
    return true;
  }

  /** The first reveal of every Vault: positive, and named as King Spin names it. */
  method CheckReveals(positions: seq<Position>, shown: Table) returns (ok: bool, current: map<Position, int>)
    requires forall p :: p in positions ==> p in shown
    ensures ok <==> forall p :: p in positions ==> 0 < shown[p].multiplier && shown[p].prize == VaultPrize(shown[p].multiplier, true)
    ensures ok ==> current == map p | p in positions :: shown[p].multiplier
  {
    current := map[];
    for n := 0 to |positions|
      invariant forall k :: 0 <= k < n ==>
                  0 < shown[positions[k]].multiplier && shown[positions[k]].prize == VaultPrize(shown[positions[k]].multiplier, true)
      invariant current == map p | p in positions[..n] :: shown[p].multiplier
    {
      var first := shown[positions[n]];
      if first.multiplier <= 0 || first.prize != VaultPrize(first.multiplier, true) {
        return false, current;
      }
      assert positions[..n + 1] == positions[..n] + [positions[n]];
      current := current[positions[n] := first.multiplier];
    }
    assert positions[..|positions|] == positions;
    ok := true;
  }

  lemma {:induction false} BrokenStays(events: seq<Event>, start: Chain, from: nat, m: nat, n: nat)
    requires from <= m <= n <= |events| && ChainTo(events, start, from, m) == Broken
    ensures ChainTo(events, start, from, n) == Broken
  {
    if m < n {
      BrokenStays(events, start, from, m, n - 1);
    }
  }

  /** The replay, event by event; a broken chain ends it. */
  method ReplayChain(events: seq<Event>, start: Chain, from: nat, to: nat) returns (st: Chain)
    requires from <= to <= |events|
    ensures st == ChainTo(events, start, from, to)
  {
    st := start;
    var i := from;
    while i < to && st.Chain?
      invariant from <= i <= to && ChainTo(events, start, from, i) == st
    {
      st, i := ChainStep(st, events[i]), i + 1;
    }
    if st.Broken? {
      BrokenStays(events, start, from, i, to);
    }
  }

  // --- Final awards ---

  lemma {:induction false} ChainKeepsCells(events: seq<Event>, start: Chain, from: nat, n: nat)
    requires from <= n <= |events| && start.Chain? && ChainTo(events, start, from, n).Chain?
    ensures ChainTo(events, start, from, n).current.Keys == start.current.Keys
  {
    if n > from {
      BrokenBefore(events, start, from, n);
      ChainKeepsCells(events, start, from, n - 1);
    }
  }

  lemma BrokenBefore(events: seq<Event>, start: Chain, from: nat, n: nat)
    requires from < n <= |events| && ChainTo(events, start, from, n).Chain?
    ensures ChainTo(events, start, from, n - 1).Chain?
  {
  }

  /** The final award of every Vault pays where its chain ended. */
  method CheckKingAwards(bet: int, grid: Grid, positions: seq<Position>, awards: Table, final: map<Position, int>, capped: bool)
    returns (ok: bool)
    requires forall p :: p in positions ==> p in awards && p in final && 0 <= awards[p].multiplier
    ensures ok <==> forall p :: p in positions ==> KingAwardOk(bet, awards[p], final[p], CellAt(grid, p), capped)
  {
    for n := 0 to |positions|
      invariant forall k :: 0 <= k < n ==>
                  KingAwardOk(bet, awards[positions[k]], final[positions[k]], CellAt(grid, positions[k]), capped)
    {
      var p := positions[n];
      var award, cell := awards[p], CellAt(grid, p);
      var wanted := SafeMul(bet, award.multiplier);
      if wanted.Err? {
        return false;
      }
      if award.multiplier != final[p] || award.prize != VaultPrize(final[p], true)
         || (award.amount != wanted.value && !capped) || award.amount > wanted.value
         || cell.multiplier != award.multiplier || cell.prize != award.prize {
        return false;
      }
    }
    return true;
  }
}
