/** The King Spin part of the Vault check, put together. */
module KingResults {
  import opened Money
  import opened GameTypes
  import opened Grids
  import opened OutcomeRules
  import opened AwardChecks
  import opened VaultChecks
  import opened KingChecks

  /** Every Vault has one reveal in the tables, and every listed event belongs to a Vault. */
  predicate KingTables(events: seq<Event>, positions: seq<Position>, t: Tables) {
    && SequenceTo(events, |events|, t) && Distinct(positions)
    && (forall p :: p in positions ==> p in t.shown)
    && (forall i :: 0 <= i < |events| && (events[i].kind == VaultUnlocked || events[i].kind == VaultAwarded) ==>
          events[i].Pos() in positions)
  }

  lemma RevealInTable(events: seq<Event>, positions: seq<Position>, t: Tables, i: nat)
    requires KingTables(events, positions, t) && i < |events| && events[i].kind == VaultUnlocked
    ensures events[i].Pos() in positions && events[i].Pos() in t.shown && t.shown[events[i].Pos()] == events[i]
  {
  }

  lemma AwardInTable(events: seq<Event>, positions: seq<Position>, t: Tables, i: nat)
    requires KingTables(events, positions, t) && i < |events| && events[i].kind == VaultAwarded
    ensures events[i].Pos() in positions && events[i].Pos() in t.awards && t.awards[events[i].Pos()] == events[i]
  {
  }

  lemma ShownEvent(events: seq<Event>, t: Tables, p: Position) returns (i: nat)
    requires SequenceTo(events, |events|, t) && p in t.shown
    ensures i < |events| && events[i].kind == VaultUnlocked && events[i].Pos() == p && t.shown[p] == events[i]
  {
    var k :| 0 <= k < |events| && events[k].kind in REVEALS && events[k].Pos() == p;
    i := k;
  }

  lemma AwardEvent(events: seq<Event>, t: Tables, p: Position) returns (i: nat)
    requires SequenceTo(events, |events|, t) && p in t.awards
    ensures i < |events| && events[i].kind == VaultAwarded && events[i].Pos() == p && t.awards[p] == events[i]
  {
    var k :| 0 <= k < |events| && events[k].kind in AWARDS && events[k].Pos() == p;
    i := k;
  }

  predicate RevealsNamed(positions: seq<Position>, shown: Table)
    requires forall p :: p in positions ==> p in shown
  {
    forall p :: p in positions ==> 0 < shown[p].multiplier && shown[p].prize == VaultPrize(shown[p].multiplier, true)
  }

  lemma RevealsDecide(events: seq<Event>, positions: seq<Position>, t: Tables)
    requires KingTables(events, positions, t)
    ensures RevealsNamed(positions, t.shown) <==> forall i :: 0 <= i < |events| ==> KingRevealOk(events[i])
  {
    forall i | 0 <= i < |events| && RevealsNamed(positions, t.shown)
      ensures KingRevealOk(events[i])
    {
      if events[i].kind == VaultUnlocked {
        RevealInTable(events, positions, t, i);
      }
    }
    if forall i :: 0 <= i < |events| ==> KingRevealOk(events[i]) {
      forall p | p in positions
        ensures 0 < t.shown[p].multiplier && t.shown[p].prize == VaultPrize(t.shown[p].multiplier, true)
      {
        var i := ShownEvent(events, t, p);
        assert KingRevealOk(events[i]);
      }
    }
  }

  lemma {:induction false} RevealedIsShown(events: seq<Event>, positions: seq<Position>, t: Tables, p: Position, n: nat)
    requires KingTables(events, positions, t) && n <= |events| && p in t.shown
    requires exists i :: 0 <= i < n && events[i].kind == VaultUnlocked && events[i].Pos() == p
    ensures RevealedTo(events, p, n) == t.shown[p].multiplier
  {
    if events[n - 1].kind == VaultUnlocked && events[n - 1].Pos() == p {
      RevealInTable(events, positions, t, n - 1);
    } else {
      RevealedIsShown(events, positions, t, p, n - 1);
    }
  }

  /** The chain starts from what the tables show. */
  lemma StartIsShown(events: seq<Event>, positions: seq<Position>, t: Tables)
    requires KingTables(events, positions, t)
    ensures ChainStart(events, positions) == Chain(1, 0, 0, {}, map p | p in positions :: t.shown[p].multiplier)
  {
    forall p | p in positions
      ensures RevealedTo(events, p, |events|) == t.shown[p].multiplier
    {
      var i := ShownEvent(events, t, p);
      RevealedIsShown(events, positions, t, p, |events|);
    }
  }

  predicate AwardsEndChains(bet: int, o: Outcome, positions: seq<Position>, awards: Table, final: map<Position, int>, capped: bool)
    requires forall p :: p in positions ==> p in awards && p in final
  {
    forall p :: p in positions ==> KingAwardOk(bet, awards[p], final[p], CellAt(o.grid, p), capped)
  }

  predicate AwardsFit(bet: int, o: Outcome, positions: seq<Position>, final: map<Position, int>) {
    forall i :: 0 <= i < |o.events| && o.events[i].kind.VaultAwarded? && o.events[i].Pos() in positions && o.events[i].Pos() in final ==>
      KingAwardOk(bet, o.events[i], final[o.events[i].Pos()], CellAt(o.grid, o.events[i].Pos()), HasWinCap(o.events))
  }

  lemma AwardsDecide(bet: int, o: Outcome, positions: seq<Position>, t: Tables, final: map<Position, int>)
    requires KingTables(o.events, positions, t) && forall p :: p in positions ==> p in t.awards && p in final
    ensures AwardsEndChains(bet, o, positions, t.awards, final, HasWinCap(o.events)) == AwardsFit(bet, o, positions, final)
  {
    var capped := HasWinCap(o.events);
    forall i | 0 <= i < |o.events| && o.events[i].kind.VaultAwarded? && AwardsEndChains(bet, o, positions, t.awards, final, capped)
      ensures KingAwardOk(bet, o.events[i], final[o.events[i].Pos()], CellAt(o.grid, o.events[i].Pos()), capped)
    {
      AwardInTable(o.events, positions, t, i);
    }
    if AwardsFit(bet, o, positions, final) {
      forall p | p in positions
        ensures KingAwardOk(bet, t.awards[p], final[p], CellAt(o.grid, p), capped)
      {
        var i := AwardEvent(o.events, t, p);
      }
    }
  }

  predicate ChainEndsOk(bet: int, o: Outcome, positions: seq<Position>, start: Chain, from: nat, first: nat)
    requires from <= first <= |o.events|
  {
    var final := ChainTo(o.events, start, from, first);
    GroupClosed(final) && AwardsFit(bet, o, positions, final.current)
  }

  lemma KingParts(bet: int, o: Outcome, positions: seq<Position>, c: int, start: Chain)
    requires 0 <= c < |o.events| && start == ChainStart(o.events, positions)
    ensures KingEventsOk(bet, o, positions, c) <==>
              && (forall p :: p in positions ==> Occurs(o.events, VaultAwarded, p))
              && (forall i :: 0 <= i < |o.events| ==> KingRevealOk(o.events[i]))
              && c < FirstAt(o.events, VaultAwarded)
              && (forall i :: FirstAt(o.events, VaultAwarded) <= i < |o.events| ==> ClosingKind(o.events[i].kind))
              && ChainEndsOk(bet, o, positions, start, c + 1, FirstAt(o.events, VaultAwarded))
  {
  }

  predicate AwardsPositive(events: seq<Event>) {
    forall i :: 0 <= i < |events| && events[i].kind == VaultAwarded ==> 0 <= events[i].multiplier
  }

  /** The replay, and the awards it must end in. */
  method CheckChainEnds(bet: int, o: Outcome, positions: seq<Position>, from: nat, first: nat, t: Tables, start: Chain)
    returns (ok: bool)
    requires from <= first <= |o.events| && KingTables(o.events, positions, t) && start.Chain?
    requires forall p :: p in positions ==> p in t.awards && p in start.current
    requires AwardsPositive(o.events)
    ensures ok == ChainEndsOk(bet, o, positions, start, from, first)
  {
    var final := ReplayChain(o.events, start, from, first);
    if !GroupClosed(final) {
      return false;
    }
    ChainKeepsCells(o.events, start, from, first);
    ok := CheckFinalAwards(bet, o, positions, t, final.current);
  }

  method CheckFinalAwards(bet: int, o: Outcome, positions: seq<Position>, t: Tables, final: map<Position, int>) returns (ok: bool)
    requires KingTables(o.events, positions, t) && AwardsPositive(o.events)
    requires forall p :: p in positions ==> p in t.awards && p in final
    ensures ok == AwardsFit(bet, o, positions, final)
  {
    AwardsDecide(bet, o, positions, t, final);
    var notices := EventIndexes(o.events, WinCapReached);
    forall p | p in positions
      ensures 0 <= t.awards[p].multiplier
    {
      var i := AwardEvent(o.events, t, p);
    }
    ok := CheckKingAwards(bet, o.grid, positions, t.awards, final, |notices| == 1);
  }

  /** The reveals, and the chain that starts from them. */
  method CheckStart(events: seq<Event>, positions: seq<Position>, t: Tables) returns (named: bool, start: Chain)
    requires KingTables(events, positions, t)
    ensures named <==> forall i :: 0 <= i < |events| ==> KingRevealOk(events[i])
    ensures start.Chain? && (named ==> start == ChainStart(events, positions))
    ensures named ==> forall p :: p in positions ==> p in start.current
  {
    StartIsShown(events, positions, t);
    RevealsDecide(events, positions, t);
    var shown, current := CheckReveals(positions, t.shown);
    return shown, Chain(1, 0, 0, {}, current);
  }

  /** The awards follow the chain, and nothing but closing events follows them. */
  method CheckAwardsLast(events: seq<Event>, c: int) returns (ok: bool, first: nat)
    ensures first == FirstAt(events, VaultAwarded)
    ensures ok <==> c < first && forall i :: first <= i < |events| ==> ClosingKind(events[i].kind)
  {
    first := FirstAward(events);
    if first <= c {
      return false, first;
    }
    ok := CheckClosing(events, first);
  }

  /** King Spin: reveals, chain and final awards, told from the tables. */
  method CheckKing(bet: int, o: Outcome, positions: seq<Position>, c: int, t: Tables) returns (ok: bool)
    requires 0 <= c < |o.events| && KingTables(o.events, positions, t) && AwardsPositive(o.events)
    ensures ok == KingEventsOk(bet, o, positions, c)
  {
    KingParts(bet, o, positions, c, ChainStart(o.events, positions));
    EveryCellListed(o.events, VaultAwarded, positions, t.awards);
    if |t.awards| != |positions| {
      return false;
    }
    var named, start := CheckStart(o.events, positions, t);
    if !named {
      return false;
    }
    var last, first := CheckAwardsLast(o.events, c);
    if !last {
      return false;
    }
    ok := CheckChainEnds(bet, o, positions, c + 1, first, t, start);
  }
}
