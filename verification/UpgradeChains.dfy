/** Building King Spin upgrade chains: how the validator's chain state grows with appended events. */
module UpgradeChains {
  import opened Money
  import opened GameTypes
  import opened Grids
  import opened OutcomeRules
  import opened SpinShape

  /** A chain over a prefix does not see what follows. */
  lemma ChainPrefix(a: seq<Event>, b: seq<Event>, start: Chain, from: nat, n: nat)
    requires from <= n <= |a|
    ensures ChainTo(a + b, start, from, n) == ChainTo(a, start, from, n)
  {
    ChainAgrees(a, a + b, start, from, n);
  }

  lemma {:induction false} ChainAgrees(a: seq<Event>, c: seq<Event>, start: Chain, from: nat, n: nat)
    requires from <= n <= |a| <= |c| && a == c[..|a|]
    ensures ChainTo(c, start, from, n) == ChainTo(a, start, from, n)
  {
    if n > from {
      ChainAgrees(a, c, start, from, n - 1);
      assert a[n - 1] == c[n - 1];
    }
  }

  /** A chain over a concatenation is a chain over the second part, from where the first part ended. */
  lemma {:induction false} ChainAppend(a: seq<Event>, b: seq<Event>, start: Chain, from: nat, m: nat)
    requires from <= |a| && m <= |b|
    ensures ChainTo(a + b, start, from, |a| + m) == ChainTo(b, ChainTo(a, start, from, |a|), 0, m)
  {
    if m == 0 {
      ChainPrefix(a, b, start, from, |a|);
    } else {
      ChainAppend(a, b, start, from, m - 1);
      assert (a + b)[|a| + (m - 1)] == b[m - 1];
      ChainSame(ChainTo(a + b, start, from, |a| + (m - 1)), ChainTo(b, ChainTo(a, start, from, |a|), 0, m - 1), b[m - 1]);
    }
  }

  lemma ChainSame(a: Chain, b: Chain, e: Event)
    requires a == b
    ensures ChainStep(a, e) == ChainStep(b, e)
  {
  }

  lemma ChainOneMore(a: seq<Event>, e: Event, start: Chain, from: nat)
    requires from <= |a|
    ensures ChainTo(a + [e], start, from, |a| + 1) == ChainStep(ChainTo(a, start, from, |a|), e)
  {
    ChainPrefix(a, [e], start, from, |a|);
  }

  predicate AllUpgrades(events: seq<Event>) {
    forall i :: 0 <= i < |events| ==> events[i].kind == VaultUpgraded
  }

  /** Within one step the announced count plays no role until the group is closed. */
  lemma {:induction false} CountLater(events: seq<Event>, st: Chain, count: int, n: nat)
    requires st.Chain? && AllUpgrades(events) && n <= |events|
    ensures ChainTo(events, st.(count := count), 0, n) ==
            var done := ChainTo(events, st, 0, n); if done.Broken? then Broken else done.(count := count)
  {
    if n > 0 {
      CountLater(events, st, count, n - 1);
    }
  }

  predicate NoReveals(events: seq<Event>) {
    forall i :: 0 <= i < |events| ==> events[i].kind != VaultUnlocked
  }

  /** Later events without reveals leave every first multiplier as it was. */
  lemma {:induction false} RevealedStays(a: seq<Event>, b: seq<Event>, p: Position, n: nat)
    requires n <= |b| && NoReveals(b)
    ensures RevealedTo(a + b, p, |a| + n) == RevealedTo(a, p, |a|)
  {
    if n > 0 {
      RevealedStays(a, b, p, n - 1);
    } else {
      RevealedPrefix(a, b, p, |a|);
    }
  }

  lemma {:induction false} RevealedPrefix(a: seq<Event>, b: seq<Event>, p: Position, n: nat)
    requires n <= |a|
    ensures RevealedTo(a + b, p, n) == RevealedTo(a, p, n)
  {
    if n > 0 {
      RevealedPrefix(a, b, p, n - 1);
    }
  }

  lemma ChainStartStays(a: seq<Event>, b: seq<Event>, positions: seq<Position>)
    requires NoReveals(b)
    ensures ChainStart(a + b, positions) == ChainStart(a, positions)
  {
    forall p | p in positions
      ensures RevealedTo(a + b, p, |a + b|) == RevealedTo(a, p, |a|)
    {
      RevealedStays(a, b, p, |b|);
    }
  }

  // --- The multipliers of the Vaults ---

  /** A chain's multipliers are those of the Vaults, in order. */
  predicate Tracks(current: map<Position, int>, positions: seq<Position>, multipliers: seq<int>) {
    && |multipliers| == |positions|
    && (forall k :: 0 <= k < |positions| ==> positions[k] in current && current[positions[k]] == multipliers[k])
  }

  lemma TracksUpgrade(current: map<Position, int>, positions: seq<Position>, multipliers: seq<int>, k: nat, to: int)
    requires Distinct(positions) && k < |positions| && Tracks(current, positions, multipliers)
    ensures Tracks(current[positions[k] := to], positions, multipliers[k := to])
  {
  }

  /** One round so far: its upgrades move the chain from the round's start to the current multipliers. */
  predicate RoundTo(positions: seq<Position>, events: seq<Event>, step: int, before: map<Position, int>,
                    multipliers: seq<int>, seen: set<Position>, current: map<Position, int>, k: nat) {
    && AllUpgrades(events)
    && (forall i :: 0 <= i < |events| ==> ChainEvent(positions, events[i]))
    && ChainTo(events, Chain(step + 1, step, 0, {}, before), 0, |events|) == Chain(step + 1, step, 0, seen, current)
    && |seen| == |events|
    && (forall p :: p in seen ==> exists j :: 0 <= j < k && j < |positions| && positions[j] == p)
    && Tracks(current, positions, multipliers)
  }

  lemma RoundStep(positions: seq<Position>, events: seq<Event>, step: int, before: map<Position, int>,
                  multipliers: seq<int>, seen: set<Position>, current: map<Position, int>, k: nat, to: int)
    requires Distinct(positions) && k < |positions| && 0 < step
    requires RoundTo(positions, events, step, before, multipliers, seen, current, k)
    requires 0 <= multipliers[k] < to
    ensures RoundTo(positions, events + [UpgradedEvent(positions[k], step, multipliers[k], to)], step, before,
                    multipliers[k := to], seen + {positions[k]}, current[positions[k] := to], k + 1)
  {
    var e := UpgradedEvent(positions[k], step, multipliers[k], to);
    ChainOneMore(events, e, Chain(step + 1, step, 0, {}, before), 0);
    TracksUpgrade(current, positions, multipliers, k, to);
    assert e.Pos() == positions[k] && positions[k] !in seen;
    forall i | 0 <= i < |events + [e]|
      ensures ChainEvent(positions, (events + [e])[i])
    {
      if i < |events| {
        assert ChainEvent(positions, events[i]);
      }
    }
    assert positions[k] in seen + {positions[k]};
  }

  lemma RoundSkip(positions: seq<Position>, events: seq<Event>, step: int, before: map<Position, int>,
                  multipliers: seq<int>, seen: set<Position>, current: map<Position, int>, k: nat)
    requires RoundTo(positions, events, step, before, multipliers, seen, current, k)
    ensures RoundTo(positions, events, step, before, multipliers, seen, current, k + 1)
  {
  }

  /** Reveals done, and a closed chain of upgrade groups behind them. */
  predicate ChainBuilt(positions: seq<Position>, ve: seq<Event>, multipliers: seq<int>, step: int) {
    var n := |positions|;
    && |ve| >= n + 3
    && ve[0] == GroupEvent(VaultsLanded, positions)
    && ve[1] == GroupEvent(VaultsUnlockStarted, positions)
    && ve[n + 2] == GroupEvent(VaultsUnlockCompleted, positions)
    && (forall k :: 0 <= k < n ==> KingReveal(positions[k], ve[k + 2]))
    && (forall i :: n + 3 <= i < |ve| ==> ChainEvent(positions, ve[i]))
    && var st := ChainTo(ve, ChainStart(ve, positions), n + 3, |ve|);
       GroupClosed(st) && st.next == step && Tracks(st.current, positions, multipliers)
  }

  lemma UpgradesRevealNothing(events: seq<Event>, started: Event)
    requires AllUpgrades(events) && started.kind == VaultsUpgradeStarted
    ensures NoReveals([started] + events)
  {
  }

  lemma GroupOpened(st: Chain, count: int, step: int)
    requires GroupClosed(st) && st.next == step && 0 < count
    ensures ChainStep(st, UpgradeStartedEvent(count, step)) == Chain(step + 1, step, count, {}, st.current)
  {
  }

  lemma RoundFromClosed(positions: seq<Position>, events: seq<Event>, step: int, multipliers: seq<int>,
                        seen: set<Position>, current: map<Position, int>, st: Chain)
    requires GroupClosed(st) && st.next == step && 0 < |events|
    requires RoundTo(positions, events, step, st.current, multipliers, seen, current, |positions|)
    ensures ChainTo([UpgradeStartedEvent(|events|, step)] + events, st, 0, 1 + |events|)
            == Chain(step + 1, step, |events|, seen, current)
  {
    var started := UpgradeStartedEvent(|events|, step);
    ChainAppend([started], events, st, 0, |events|);
    assert ChainTo([started], st, 0, 1) == ChainStep(ChainTo([started], st, 0, 0), started);
    GroupOpened(st, |events|, step);
    CountLater(events, Chain(step + 1, step, 0, {}, st.current), |events|, |events|);
  }

  /** The chain after a whole round: the group was announced with its exact size, so it is closed. */
  lemma RoundChain(positions: seq<Position>, ve: seq<Event>, round: seq<Event>, st: Chain, done: Chain)
    requires |ve| >= |positions| + 3 && NoReveals(round)
    requires st == ChainTo(ve, ChainStart(ve, positions), |positions| + 3, |ve|)
    requires ChainTo(round, st, 0, |round|) == done
    ensures ChainTo(ve + round, ChainStart(ve + round, positions), |positions| + 3, |ve + round|) == done
  {
    ChainStartStays(ve, round, positions);
    ChainAppend(ve, round, ChainStart(ve, positions), |positions| + 3, |round|);
  }

  lemma RoundEvents(positions: seq<Position>, ve: seq<Event>, events: seq<Event>, step: int)
    requires 0 < step && |ve| >= |positions| + 3
    requires forall k :: 0 <= k < |positions| ==> KingReveal(positions[k], ve[k + 2])
    requires forall i :: |positions| + 3 <= i < |ve| ==> ChainEvent(positions, ve[i])
    requires forall i :: 0 <= i < |events| ==> ChainEvent(positions, events[i])
    ensures var all := ve + ([UpgradeStartedEvent(|events|, step)] + events);
            && (forall k :: 0 <= k < |positions| ==> KingReveal(positions[k], all[k + 2]))
            && (forall i :: |positions| + 3 <= i < |all| ==> ChainEvent(positions, all[i]))
  {
    var all := ve + ([UpgradeStartedEvent(|events|, step)] + events);
    forall k | 0 <= k < |positions|
      ensures KingReveal(positions[k], all[k + 2])
    {
      assert all[k + 2] == ve[k + 2];
    }
    forall i | |positions| + 3 <= i < |all|
      ensures ChainEvent(positions, all[i])
    {
      if i < |ve| {
        assert all[i] == ve[i];
      } else if i == |ve| {
        assert all[i] == UpgradeStartedEvent(|events|, step);
      } else {
        assert all[i] == events[i - |ve| - 1];
      }
    }
  }

  /** One more round keeps the chain built, one step further. */
  lemma RoundBuilt(positions: seq<Position>, ve: seq<Event>, before: seq<int>, events: seq<Event>, step: int,
                   multipliers: seq<int>, seen: set<Position>, current: map<Position, int>, st: Chain)
    requires ChainBuilt(positions, ve, before, step) && 0 < |events| && 0 < step
    requires st == ChainTo(ve, ChainStart(ve, positions), |positions| + 3, |ve|)
    requires RoundTo(positions, events, step, st.current, multipliers, seen, current, |positions|)
    ensures ChainBuilt(positions, ve + ([UpgradeStartedEvent(|events|, step)] + events), multipliers, step + 1)
  {
    var round := [UpgradeStartedEvent(|events|, step)] + events;
    UpgradesRevealNothing(events, UpgradeStartedEvent(|events|, step));
    RoundFromClosed(positions, events, step, multipliers, seen, current, st);
    RoundChain(positions, ve, round, st, Chain(step + 1, step, |events|, seen, current));
    RoundEvents(positions, ve, events, step);
  }
}
