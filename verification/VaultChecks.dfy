/** The validator's loop over Vault events: one reveal per Vault and exactly one result, told by three tables. */
module VaultChecks {
  import opened Money
  import opened FiniteSets
  import opened GameTypes
  import opened Grids
  import opened WaysEvaluation
  import opened OutcomeRules
  import opened AwardChecks

  type Table = map<Position, Event>

  const REVEALS: set<EventKind> := {VaultUnlocked}
  const AWARDS: set<EventKind> := {VaultAwarded}
  const FREE_RESULTS: set<EventKind> := {FreeSpinAwarded, FreeSpinCapReached}

  predicate OnceTo(events: seq<Event>, kinds: set<EventKind>, n: nat)
    requires n <= |events|
  {
    forall i, j :: 0 <= i < j < n && events[i].kind in kinds && events[j].kind in kinds ==> events[i].Pos() != events[j].Pos()
  }

  /** The table holds the first n events of the given kinds by their cells, each cell once. */
  predicate Tabled(events: seq<Event>, kinds: set<EventKind>, n: nat, t: Table)
    requires n <= |events|
  {
    && OnceTo(events, kinds, n)
    && (forall i :: 0 <= i < n && events[i].kind in kinds ==> events[i].Pos() in t && t[events[i].Pos()] == events[i])
    && (forall p :: p in t ==> exists i :: 0 <= i < n && events[i].kind in kinds && events[i].Pos() == p)
  }

  /** One more event: it leaves the table alone, enters it, or repeats a cell. */
  function Entered(t: Table, kinds: set<EventKind>, e: Event): Table {
    if e.kind in kinds then t[e.Pos() := e] else t
  }

  lemma TableOnwards(events: seq<Event>, kinds: set<EventKind>, n: nat, t: Table)
    requires n < |events| && Tabled(events, kinds, n, t)
    ensures events[n].kind in kinds && events[n].Pos() in t ==> !OnceTo(events, kinds, |events|)
    ensures !(events[n].kind in kinds && events[n].Pos() in t) ==> Tabled(events, kinds, n + 1, Entered(t, kinds, events[n]))
  {
    var e, longer := events[n], Entered(t, kinds, events[n]);
    if !(e.kind in kinds && e.Pos() in t) {
      forall p | p in longer
        ensures exists i :: 0 <= i < n + 1 && events[i].kind in kinds && events[i].Pos() == p
      {
        if p !in t {
          assert events[n].kind in kinds && events[n].Pos() == p;
        }
      }
    }
  }

  lemma OnceInFamilies(events: seq<Event>)
    ensures OncePerCell(events) <==>
              OnceTo(events, REVEALS, |events|) && OnceTo(events, AWARDS, |events|) && OnceTo(events, FREE_RESULTS, |events|)
  {
    assert forall a, b :: SameFamily(a, b) <==>
        (a in REVEALS && b in REVEALS) || (a in AWARDS && b in AWARDS) || (a in FREE_RESULTS && b in FREE_RESULTS);
  }

  datatype Tables = Tables(shown: Table, awards: Table, frees: Table)

  predicate PlacesTo(mode: FeatureMode, events: seq<Event>, positions: seq<Position>, s: int, c: int, n: nat)
    requires n <= |events|
  {
    forall i :: 0 <= i < n ==> VaultEventOk(mode, events[i], i, positions, s, c)
  }

  predicate SequenceTo(events: seq<Event>, n: nat, t: Tables)
    requires n <= |events|
  {
    Tabled(events, REVEALS, n, t.shown) && Tabled(events, AWARDS, n, t.awards) && Tabled(events, FREE_RESULTS, n, t.frees)
  }

  function EnteredAll(t: Tables, e: Event): Tables {
    Tables(Entered(t.shown, REVEALS, e), Entered(t.awards, AWARDS, e), Entered(t.frees, FREE_RESULTS, e))
  }

  predicate Repeats(t: Tables, e: Event) {
    || (e.kind in REVEALS && e.Pos() in t.shown) || (e.kind in AWARDS && e.Pos() in t.awards)
    || (e.kind in FREE_RESULTS && e.Pos() in t.frees)
  }

  lemma SequenceOnwards(events: seq<Event>, n: nat, t: Tables)
    requires n < |events| && SequenceTo(events, n, t)
    ensures Repeats(t, events[n]) ==> !OncePerCell(events)
    ensures !Repeats(t, events[n]) ==> SequenceTo(events, n + 1, EnteredAll(t, events[n]))
  {
    TableOnwards(events, REVEALS, n, t.shown);
    TableOnwards(events, AWARDS, n, t.awards);
    TableOnwards(events, FREE_RESULTS, n, t.frees);
    OnceInFamilies(events);
  }

  /** One event of the sequence, by its kind. */
  method CheckVaultEvent(mode: FeatureMode, e: Event, i: int, positions: seq<Position>, s: int, c: int, t: Tables)
    returns (ok: bool, entered: Tables)
    ensures ok <==> VaultEventOk(mode, e, i, positions, s, c) && !Repeats(t, e)
    ensures ok ==> entered == EnteredAll(t, e)
  {
    var p := e.Pos();
    entered := t;
    ok := true;
    match e.kind
    case VaultUnlocked =>
      if i <= s || i >= c || p !in positions || e.prize == NoPrize || p in t.shown {
        return false, t;
      }
      entered := t.(shown := t.shown[p := e]);
    case VaultAwarded =>
      if p !in positions || e.multiplier <= 0 || e.amount < 0 || e.prize == NoPrize
         || (mode != Overdrive && (i <= s || i >= c)) || (mode == Overdrive && i <= c) || p in t.awards {
        return false, t;
      }
      entered := t.(awards := t.awards[p := e]);
    case FreeSpinAwarded =>
      if mode != Expansion || p !in positions || i <= s || i >= c || e.count != 1 || p in t.frees {
        return false, t;
      }
      entered := t.(frees := t.frees[p := e]);
    case FreeSpinCapReached =>
      if mode != Expansion || p !in positions || i <= s || i >= c || p in t.frees {
        return false, t;
      }
      entered := t.(frees := t.frees[p := e]);
    case VaultUpgraded => ok := mode == Overdrive && i > c;
    case VaultsUpgradeStarted => ok := mode == Overdrive && i > c;
    case _ =>
  }

  method CheckSequence(mode: FeatureMode, events: seq<Event>, positions: seq<Position>, s: int, c: int)
    returns (ok: bool, t: Tables)
    ensures ok == (PlacesTo(mode, events, positions, s, c, |events|) && OncePerCell(events))
    ensures ok ==> SequenceTo(events, |events|, t)
  {
    t := Tables(map[], map[], map[]);
    for i := 0 to |events|
      invariant PlacesTo(mode, events, positions, s, c, i)
      invariant SequenceTo(events, i, t)
    {
      ok, t := CheckNext(mode, events, i, positions, s, c, t);
      if !ok {
        return;
      }
    }
    OnceInFamilies(events);
    ok := true;
  }

  method CheckNext(mode: FeatureMode, events: seq<Event>, i: nat, positions: seq<Position>, s: int, c: int, t: Tables)
    returns (ok: bool, entered: Tables)
    requires i < |events| && PlacesTo(mode, events, positions, s, c, i) && SequenceTo(events, i, t)
    ensures ok ==> PlacesTo(mode, events, positions, s, c, i + 1) && SequenceTo(events, i + 1, entered)
    ensures !ok ==> !(PlacesTo(mode, events, positions, s, c, |events|) && OncePerCell(events))
  {
    SequenceOnwards(events, i, t);
    ok, entered := CheckVaultEvent(mode, events[i], i, positions, s, c, t);
  }

  // --- Every Vault revealed ---

  lemma {:induction false} MembersCount(positions: seq<Position>)
    requires Distinct(positions)
    ensures |Members(positions)| == |positions|
  {
    if positions == [] {
      assert Members(positions) == {};
    } else {
      var last := |positions| - 1;
      MembersCount(positions[..last]);
      assert Members(positions) == Members(positions[..last]) + {positions[last]};
    }
  }

  lemma SubsetOfSize<T>(a: set<T>, b: set<T>)
    requires a <= b
    ensures |a| == |b| <==> a == b
  {
    Fewer(a, b);
    assert b == a + (b - a);
    SomeMember(b - a);
  }

  /** As many table entries as Vaults means an entry for every Vault. */
  lemma EveryCellListed(events: seq<Event>, kind: EventKind, positions: seq<Position>, t: Table)
    requires Tabled(events, {kind}, |events|, t) && Distinct(positions)
    requires forall i :: 0 <= i < |events| && events[i].kind == kind ==> events[i].Pos() in positions
    ensures forall p :: p in t <==> Occurs(events, kind, p)
    ensures |t| == |positions| <==> forall p :: p in positions ==> Occurs(events, kind, p)
    ensures |t| == |positions| ==> forall p :: p in positions ==> p in t
  {
    forall p
      ensures p in t <==> Occurs(events, kind, p)
    {
    }
    MembersCount(positions);
    SubsetOfSize(t.Keys, Members(positions));
    assert |t| == |t.Keys|;
  }

  // --- Base-game and Expansion results ---

  /** The result of one revealed Vault, read off the tables. */
  predicate ResultOk(bet: int, grid: Grid, capped: bool, p: Position, t: Tables) {
    var cell := CellAt(grid, p);
    && (p in t.awards) != (p in t.frees)
    && (p in t.awards && p in t.shown ==> PayableOk(bet, t.shown[p], t.awards[p], cell, capped))
    && (p in t.frees && p in t.shown ==> FreeRevealOk(t.shown[p], cell))
  }

  lemma ListedInTables(events: seq<Event>, t: Tables, p: Position)
    requires SequenceTo(events, |events|, t)
    ensures p in t.shown <==> Occurs(events, VaultUnlocked, p)
    ensures p in t.awards <==> Occurs(events, VaultAwarded, p)
    ensures p in t.frees <==> FreeAt(events, p)
    ensures forall i :: 0 <= i < |events| && events[i].kind.VaultUnlocked? && events[i].Pos() == p ==>
              p in t.shown && t.shown[p] == events[i]
    ensures forall i :: 0 <= i < |events| && events[i].kind.VaultAwarded? && events[i].Pos() == p ==>
              p in t.awards && t.awards[p] == events[i]
  {
    if FreeAt(events, p) {
      var i :| 0 <= i < |events| && events[i].kind in FREE_RESULTS && events[i].Pos() == p;
    }
    if p in t.frees {
      var i :| 0 <= i < |events| && events[i].kind in FREE_RESULTS && events[i].Pos() == p;
      assert events[i].kind == FreeSpinAwarded || events[i].kind == FreeSpinCapReached;
    }
  }

  /** The tables decide what the events say of a Vault. */
  lemma TablesDecide(bet: int, o: Outcome, p: Position, t: Tables)
    requires SequenceTo(o.events, |o.events|, t)
    ensures FinalResultOk(bet, o, p) == ResultOk(bet, o.grid, HasWinCap(o.events), p, t)
  {
    ListedInTables(o.events, t, p);
    var cell, capped := CellAt(o.grid, p), HasWinCap(o.events);
    if ResultOk(bet, o.grid, capped, p, t) {
      assert FinalResultOk(bet, o, p);
    } else if FinalResultOk(bet, o, p) {
      FinalOnTables(bet, o, p, t);
    }
  }

  lemma FinalOnTables(bet: int, o: Outcome, p: Position, t: Tables)
    requires SequenceTo(o.events, |o.events|, t) && FinalResultOk(bet, o, p)
    ensures ResultOk(bet, o.grid, HasWinCap(o.events), p, t)
  {
    ListedInTables(o.events, t, p);
    if p in t.shown {
      var i :| 0 <= i < |o.events| && o.events[i].kind == VaultUnlocked && o.events[i].Pos() == p;
      assert o.events[i].kind.VaultUnlocked? && t.shown[p] == o.events[i];
      if p in t.awards {
        var j :| 0 <= j < |o.events| && o.events[j].kind == VaultAwarded && o.events[j].Pos() == p;
        assert o.events[j].kind.VaultAwarded? && t.awards[p] == o.events[j];
      }
    }
  }

  method CheckResult(bet: int, o: Outcome, p: Position, capped: bool, t: Tables) returns (ok: bool)
    requires SequenceTo(o.events, |o.events|, t) && capped == HasWinCap(o.events)
    ensures ok == FinalResultOk(bet, o, p)
  {
    TablesDecide(bet, o, p, t);
    ok := ResultOk(bet, o.grid, capped, p, t);
  }

  predicate ResultsTo(bet: int, o: Outcome, positions: seq<Position>, n: nat)
    requires n <= |positions|
  {
    forall k :: 0 <= k < n ==> FinalResultOk(bet, o, positions[k])
  }

  method CheckResults(bet: int, o: Outcome, positions: seq<Position>, t: Tables) returns (ok: bool)
    requires SequenceTo(o.events, |o.events|, t)
    ensures ok == ResultsTo(bet, o, positions, |positions|)
  {
    var notices := EventIndexes(o.events, WinCapReached);
    for n := 0 to |positions|
      invariant ResultsTo(bet, o, positions, n)
    {
      var legal := CheckResult(bet, o, positions[n], |notices| == 1, t);
      if !legal {
        return false;
      }
    }
    return true;
  }

  // --- The whole check ---

  method CountVaultEvents(events: seq<Event>) returns (count: int)
    ensures count == VaultEventCount(events, |events|)
  {
    count := 0;
    for i := 0 to |events|
      invariant count == VaultEventCount(events, i)
    {
      if IsVaultEvent(events[i].kind) {
        count := count + 1;
      }
    }
  }

  method CheckLocked(mode: FeatureMode, o: Outcome, positions: seq<Position>, landed: int, count: int) returns (ok: bool)
    requires 0 <= landed < |o.events| && count == VaultEventCount(o.events, |o.events|)
    ensures ok == LockedOk(mode, o, positions, landed)
  {
    var locked := EventIndexes(o.events, VaultsLocked);
    var started := EventIndexes(o.events, VaultsUnlockStarted);
    var completed := EventIndexes(o.events, VaultsUnlockCompleted);
    if mode == Overdrive || locked != [landed + 1] || landed + 1 >= |o.events| || !VaultGroup(o.events[landed + 1], positions)
       || started != [] || completed != [] || count != 2 {
      return false;
    }
    for n := 0 to |positions|
      invariant forall k :: 0 <= k < n ==> CellAt(o.grid, positions[k]).multiplier == 0 && CellAt(o.grid, positions[k]).prize == NoPrize
    {
      var cell := CellAt(o.grid, positions[n]);
      if cell.multiplier != 0 || cell.prize != NoPrize {
        return false;
      }
    }
    return true;
  }

  method CheckUnlockKinds(events: seq<Event>, s: int, c: int) returns (ok: bool)
    requires 0 <= s < c < |events|
    ensures ok <==> forall i :: s < i < c ==> UnlockKind(events[i].kind)
  {
    for i := s + 1 to c
      invariant forall k :: s < k < i ==> UnlockKind(events[k].kind)
    {
      if !UnlockKind(events[i].kind) {
        return false;
      }
    }
    return true;
  }
}
