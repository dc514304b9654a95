/** Engine completeness for the Rage meter and the wheel. */
module RageAccepted {
  import opened Money
  import opened GameTypes
  import opened Grids
  import opened GameConfig
  import opened WinCap
  import opened OutcomeRules
  import opened SpinShape
  import opened EventLists
  import opened FeatureStates
  import opened RawSpins
  import opened RawEvents
  import opened OpenedVaults
  import opened Completeness
  import opened CapAccepted

  /** Where the Rage section of a spin lies in the final list. */
  predicate RageAt(events: seq<Event>, rage: seq<Event>, w: nat) {
    && w + |rage| <= |events|
    && (forall j :: 0 <= j < |rage| ==> SameButAmount(rage[j], events[w + j]))
    && (forall i :: 0 <= i < |events| ==> (Section(events[i].kind) == 2 <==> w <= i < w + |rage|))
  }

  lemma RagePlaced(raw: seq<Event>, events: seq<Event>, pre: seq<Event>, vault: seq<Event>, rage: seq<Event>)
    requires InSections(raw, pre, vault, rage) && Extends(raw, events)
    ensures RageAt(events, rage, |pre| + |vault|)
  {
    RageKept(raw, events, pre, vault, rage);
    RageSection(raw, events, pre, vault, rage);
  }

  lemma RageKept(raw: seq<Event>, events: seq<Event>, pre: seq<Event>, vault: seq<Event>, rage: seq<Event>)
    requires InSections(raw, pre, vault, rage) && Extends(raw, events)
    ensures |pre| + |vault| + |rage| <= |events|
    ensures forall j :: 0 <= j < |rage| ==> SameButAmount(rage[j], events[|pre| + |vault| + j])
  {
    forall j | 0 <= j < |rage|
      ensures SameButAmount(rage[j], events[|pre| + |vault| + j])
    {
      RageKeptAt(raw, events, pre, vault, rage, |pre| + |vault|, j);
    }
  }

  lemma RageKeptAt(raw: seq<Event>, events: seq<Event>, pre: seq<Event>, vault: seq<Event>, rage: seq<Event>, w: nat, j: nat)
    requires raw == pre + vault + rage && Extends(raw, events) && w == |pre| + |vault| && j < |rage|
    ensures w + j < |events| && SameButAmount(rage[j], events[w + j])
  {
    assert raw[w + j] == rage[j];
  }

  lemma RageSection(raw: seq<Event>, events: seq<Event>, pre: seq<Event>, vault: seq<Event>, rage: seq<Event>)
    requires InSections(raw, pre, vault, rage) && Extends(raw, events)
    ensures |raw| == |pre| + |vault| + |rage| <= |events|
    ensures forall i :: 0 <= i < |events| ==>
              (Section(events[i].kind) == 2 <==> |pre| + |vault| <= i < |pre| + |vault| + |rage|)
  {
    forall i | 0 <= i < |events|
      ensures Section(events[i].kind) == 2 <==> |pre| + |vault| <= i < |pre| + |vault| + |rage|
    {
      SectionAt(raw, events, pre, vault, rage, i);
    }
  }

  lemma SectionAt(raw: seq<Event>, events: seq<Event>, pre: seq<Event>, vault: seq<Event>, rage: seq<Event>, i: nat)
    requires InSections(raw, pre, vault, rage) && Extends(raw, events) && i < |events|
    ensures Section(events[i].kind) ==
            if i < |pre| then 0 else if i < |pre| + |vault| then 1 else if i < |raw| then 2 else 3
  {
    if i < |raw| {
      assert SameButAmount(raw[i], events[i]);
      if i < |pre| {
        assert raw[i] == pre[i];
      } else if i < |pre| + |vault| {
        assert raw[i] == vault[i - |pre|];
      } else {
        assert raw[i] == rage[i - |pre| - |vault|];
      }
    }
  }

  /** One event of the section, found by its kind. */
  lemma RageOne(events: seq<Event>, rage: seq<Event>, w: nat, kind: EventKind, j: int)
    requires RageAt(events, rage, w) && Section(kind) == 2 && OnlyAt(rage, kind, j)
    ensures Indexes(events, kind) == [w + j]
  {
    forall i | 0 <= i < |events|
      ensures events[i].kind == kind <==> i == w + j
    {
      if w <= i < w + |rage| {
        assert SameButAmount(rage[i - w], events[w + (i - w)]);
      }
    }
    IndexesOne(events, kind, w + j);
  }

  lemma RageNone(events: seq<Event>, rage: seq<Event>, w: nat, kind: EventKind)
    requires RageAt(events, rage, w) && Section(kind) == 2 && Absent(rage, kind)
    ensures Indexes(events, kind) == []
  {
    forall i | 0 <= i < |events|
      ensures events[i].kind != kind
    {
      if w <= i < w + |rage| {
        assert SameButAmount(rage[i - w], events[w + (i - w)]);
      }
    }
    IndexesNone(events, kind);
  }

  predicate NoRageEvents(events: seq<Event>) {
    && Indexes(events, SurgeCollected) == [] && Indexes(events, RageTransformed) == []
    && Indexes(events, WheelStarted) == [] && Indexes(events, WheelAwarded) == []
    && Indexes(events, FreeSpinsStarted) == []
  }

  lemma SilentRage(events: seq<Event>, w: nat)
    requires RageAt(events, [], w)
    ensures NoRageEvents(events)
  {
    RageNone(events, [], w, SurgeCollected);
    RageNone(events, [], w, RageTransformed);
    RageNone(events, [], w, WheelStarted);
    RageNone(events, [], w, WheelAwarded);
    RageNone(events, [], w, FreeSpinsStarted);
  }

  lemma CollectedOnly(events: seq<Event>, w: nat, e: Event)
    requires RageAt(events, [e], w) && e.kind == SurgeCollected
    ensures Indexes(events, SurgeCollected) == [w] && Indexes(events, RageTransformed) == []
    ensures Indexes(events, WheelStarted) == [] && Indexes(events, WheelAwarded) == []
    ensures Indexes(events, FreeSpinsStarted) == []
    ensures SameButAmount(e, events[w])
  {
    assert SameButAmount([e][0], events[w + 0]);
    RageOne(events, [e], w, SurgeCollected, 0);
    RageNone(events, [e], w, RageTransformed);
    RageNone(events, [e], w, WheelStarted);
    RageNone(events, [e], w, WheelAwarded);
    RageNone(events, [e], w, FreeSpinsStarted);
  }

  /** Where the events of a triggered spin are found. */
  predicate TriggeredAt(events: seq<Event>, w: nat, t: nat, instant: bool) {
    && w + t + 2 < |events|
    && Indexes(events, SurgeCollected) == [w]
    && Indexes(events, RageTransformed) == (if t == 1 then [w + 1] else [])
    && Indexes(events, WheelStarted) == [w + t + 1]
    && Indexes(events, WheelAwarded) == [w + t + 2]
    && Indexes(events, FreeSpinsStarted) == (if instant then [] else [w + t + 3])
    && (instant || w + t + 3 < |events|)
  }

  /** The kinds of a triggered section, in order. */
  predicate TriggeredKinds(rage: seq<Event>, t: nat, instant: bool) {
    && t <= 1 && |rage| == t + 3 + (if instant then 0 else 1)
    && rage[0].kind == SurgeCollected && (t == 1 ==> rage[1].kind == RageTransformed)
    && rage[t + 1].kind == WheelStarted && rage[t + 2].kind == WheelAwarded
    && (!instant ==> rage[t + 3].kind == FreeSpinsStarted)
  }

  lemma TriggeredLayout(bet: int, surges: seq<Position>, level: int, total: int, cells: seq<Position>, wheel: WheelPrize)
    requires 1 <= |surges| <= 3
    ensures var rage := RageEvents(bet, surges, true, level, total, cells, wheel);
            var t := if |surges| < 3 then 1 else 0;
            && TriggeredKinds(rage, t, wheel.kind == Instant)
            && rage[0] == CollectedEvent(surges, true, level, total)
            && (t == 1 ==> rage[1] == TransformedEvent(cells))
            && rage[t + 2] == WheelEvent(bet, wheel)
            && (wheel.kind != Instant ==> rage[t + 3] == FreeStartedEvent(ModeOf(wheel.kind), INITIAL_FREE_SPINS))
  {
    var wheelEvents := WheelEvents(bet, wheel);
    assert wheelEvents[0].kind == WheelStarted && wheelEvents[1] == WheelEvent(bet, wheel);
    assert wheel.kind != Instant ==> wheelEvents[2] == FreeStartedEvent(ModeOf(wheel.kind), INITIAL_FREE_SPINS);
    var tail := TransformEvents(surges, cells) + wheelEvents;
    var rage := RageEvents(bet, surges, true, level, total, cells, wheel);
    assert rage == [CollectedEvent(surges, true, level, total)] + tail;
  }

  /** Each kind of a triggered section occurs once. */
  lemma TriggeredOnce(rage: seq<Event>, t: nat, instant: bool)
    requires TriggeredKinds(rage, t, instant)
    ensures OnlyAt(rage, SurgeCollected, 0) && OnlyAt(rage, WheelStarted, t + 1) && OnlyAt(rage, WheelAwarded, t + 2)
    ensures if t == 1 then OnlyAt(rage, RageTransformed, 1) else Absent(rage, RageTransformed)
    ensures if instant then Absent(rage, FreeSpinsStarted) else OnlyAt(rage, FreeSpinsStarted, t + 3)
  {
  }

  lemma TriggeredPlaced(events: seq<Event>, w: nat, bet: int, surges: seq<Position>, level: int, total: int,
                        cells: seq<Position>, wheel: WheelPrize)
    requires 1 <= |surges| <= 3
    requires RageAt(events, RageEvents(bet, surges, true, level, total, cells, wheel), w)
    ensures TriggeredAt(events, w, if |surges| < 3 then 1 else 0, wheel.kind == Instant)
  {
    var rage := RageEvents(bet, surges, true, level, total, cells, wheel);
    var t := if |surges| < 3 then 1 else 0;
    TriggeredLayout(bet, surges, level, total, cells, wheel);
    TriggeredOnce(rage, t, wheel.kind == Instant);
    RageOne(events, rage, w, SurgeCollected, 0);
    RageOne(events, rage, w, WheelStarted, t + 1);
    RageOne(events, rage, w, WheelAwarded, t + 2);
    if t == 1 {
      RageOne(events, rage, w, RageTransformed, 1);
    } else {
      RageNone(events, rage, w, RageTransformed);
    }
    if wheel.kind == Instant {
      RageNone(events, rage, w, FreeSpinsStarted);
    } else {
      RageOne(events, rage, w, FreeSpinsStarted, t + 3);
    }
  }

  /** The final events of a triggered collection and transformation. */
  predicate CollectionPlaced(events: seq<Event>, w: nat, surges: seq<Position>, level: int, total: int, cells: seq<Position>) {
    && w + 1 < |events|
    && SameButAmount(CollectedEvent(surges, true, level, total), events[w])
    && (|surges| < 3 ==> SameButAmount(TransformedEvent(cells), events[w + 1]))
  }

  /** The final events of the wheel, at and after its award. */
  predicate WheelPlaced(bet: int, events: seq<Event>, at: nat, wheel: WheelPrize) {
    && at < |events|
    && SameButAmount(WheelEvent(bet, wheel), events[at])
    && (wheel.kind != Instant ==>
          at + 1 < |events| && SameButAmount(FreeStartedEvent(ModeOf(wheel.kind), INITIAL_FREE_SPINS), events[at + 1]))
  }

  lemma RageEventIs(events: seq<Event>, rage: seq<Event>, w: nat, j: nat)
    requires RageAt(events, rage, w) && j < |rage|
    ensures w + j < |events| && SameButAmount(rage[j], events[w + j])
  {
  }

  lemma TriggeredEventsPlaced(events: seq<Event>, w: nat, bet: int, surges: seq<Position>, level: int, total: int,
                              cells: seq<Position>, wheel: WheelPrize)
    requires 1 <= |surges| <= 3
    requires RageAt(events, RageEvents(bet, surges, true, level, total, cells, wheel), w)
    ensures CollectionPlaced(events, w, surges, level, total, cells)
    ensures WheelPlaced(bet, events, w + (if |surges| < 3 then 1 else 0) + 2, wheel)
  {
    var rage := RageEvents(bet, surges, true, level, total, cells, wheel);
    var t := if |surges| < 3 then 1 else 0;
    TriggeredLayout(bet, surges, level, total, cells, wheel);
    RageEventIs(events, rage, w, 0);
    RageEventIs(events, rage, w, t);
    RageEventIs(events, rage, w, t + 2);
    if wheel.kind != Instant {
      RageEventIs(events, rage, w, t + 3);
    }
  }

  /** The state a triggered spin leaves behind. */
  predicate TriggeredNext(f: FeatureState, surges: int, wheel: WheelPrize, next: FeatureState) {
    && (if surges < 3 then next.rageLevel == DEFAULT_RAGE_LEVEL && next.rageCollected == 0
        else next.rageLevel == f.rageLevel && next.rageCollected == f.rageCollected)
    && (if wheel.kind == Instant then !next.Active()
        else next.Active() && next.mode == ModeOf(wheel.kind) && next.awarded == next.remaining == INITIAL_FREE_SPINS)
  }

  lemma WheelAwardAccepted(bet: int, o: Outcome, at: nat, f: FeatureState, surges: int, wheel: WheelPrize)
    requires 0 < bet && WheelEntryOk(wheel) && WheelPlaced(bet, o.events, at, wheel)
    requires Clipped(bet, WheelEvent(bet, wheel), o.events[at], HasWinCap(o.events))
    requires wheel.kind != Instant ==> o.events[at].amount == 0
    requires TriggeredNext(f, surges, wheel, o.next)
    ensures WheelAwardOk(bet, o, o.events[at], at, if wheel.kind == Instant then [] else [at + 1])
  {
  }

  lemma CollectionAccepted(f: FeatureState, surges: seq<Position>, triggered: bool, level: int, total: int, e: Event)
    requires 1 <= |surges| <= 3 && SameButAmount(CollectedEvent(surges, triggered, level, total), e)
    requires |surges| < 3 ==> f.rageCollected + |surges| <= MAX_RAGE_COLLECTED
    requires 1 <= level
    requires |surges| == 3 ==> triggered && level == f.rageLevel && total == f.rageCollected
    requires |surges| < 3 && triggered ==> level == DEFAULT_RAGE_LEVEL && total == 0
    requires |surges| < 3 && !triggered ==> total == f.rageCollected + |surges|
    ensures CollectionOk(f, surges, e)
  {
  }

  lemma TransformAccepted(grid: Grid, surges: seq<Position>, cells: seq<Position>, collected: Event, e: Event)
    requires 1 <= |surges| < 3 && TransformedOk(grid, surges, cells)
    requires SameButAmount(CollectedEvent(surges, true, DEFAULT_RAGE_LEVEL, 0), collected)
    requires SameButAmount(TransformedEvent(cells), e)
    ensures TransformOk(surges, collected, e)
  {
  }

  /** The checks of a triggered spin, put together. */
  lemma TriggeredAssembled(f: FeatureState, bet: int, o: Outcome, surges: seq<Position>, w: nat, t: nat, freeStarted: seq<int>)
    requires t == (if |surges| < 3 then 1 else 0) && w + t + 2 < |o.events|
    requires t == 1 ==> TransformOk(surges, o.events[w], o.events[w + 1])
    requires t == 1 ==> o.next.rageLevel == DEFAULT_RAGE_LEVEL && o.next.rageCollected == 0
    requires t == 0 ==> o.next.rageLevel == f.rageLevel && o.next.rageCollected == f.rageCollected
    requires WheelAwardOk(bet, o, o.events[w + t + 2], w + t + 2, freeStarted)
    ensures TriggeredOk(f, bet, o, surges, w, if t == 1 then [w + 1] else [], [w + t + 1], [w + t + 2], freeStarted)
  {
  }

  lemma TriggeredRage(f: FeatureState, bet: int, o: Outcome, surges: seq<Position>, w: nat, t: nat, instant: bool)
    requires !f.Active() && surges == PositionsFor(o.grid, Surge) && 1 <= |surges| <= 3
    requires TriggeredAt(o.events, w, t, instant) && o.events[w].triggered && CollectionOk(f, surges, o.events[w])
    requires TriggeredOk(f, bet, o, surges, w, if t == 1 then [w + 1] else [], [w + t + 1], [w + t + 2],
                         if instant then [] else [w + t + 3])
    ensures RageAndWheelOk(f, bet, o)
  {
  }

  lemma TriggeredCollection(f: FeatureState, o: Outcome, surges: seq<Position>, w: nat, level: int, total: int,
                            cells: seq<Position>)
    requires 1 <= |surges| <= 3 && CollectionPlaced(o.events, w, surges, level, total, cells)
    requires |surges| < 3 ==> f.rageCollected + |surges| <= MAX_RAGE_COLLECTED && TransformedOk(o.grid, surges, cells)
    requires if |surges| < 3 then level == DEFAULT_RAGE_LEVEL && total == 0 else 1 <= level == f.rageLevel && total == f.rageCollected
    ensures o.events[w].triggered && CollectionOk(f, surges, o.events[w])
    ensures |surges| < 3 ==> TransformOk(surges, o.events[w], o.events[w + 1])
  {
    CollectionAccepted(f, surges, true, level, total, o.events[w]);
    if |surges| < 3 {
      TransformAccepted(o.grid, surges, cells, o.events[w], o.events[w + 1]);
    }
  }

  /** A triggered spin: collection, transformation, wheel and the new feature agree. */
  lemma TriggeredAccepted(f: FeatureState, bet: int, o: Outcome, surges: seq<Position>, w: nat, t: nat, wheel: WheelPrize)
    requires !f.Active() && surges == PositionsFor(o.grid, Surge) && 1 <= |surges| <= 3
    requires t == (if |surges| < 3 then 1 else 0)
    requires TriggeredAt(o.events, w, t, wheel.kind == Instant)
    requires o.events[w].triggered && CollectionOk(f, surges, o.events[w])
    requires |surges| < 3 ==> TransformOk(surges, o.events[w], o.events[w + 1])
    requires WheelAwardOk(bet, o, o.events[w + t + 2], w + t + 2, if wheel.kind == Instant then [] else [w + t + 3])
    requires TriggeredNext(f, |surges|, wheel, o.next)
    ensures RageAndWheelOk(f, bet, o)
  {
    TriggeredAssembled(f, bet, o, surges, w, t, if wheel.kind == Instant then [] else [w + t + 3]);
    TriggeredRage(f, bet, o, surges, w, t, wheel.kind == Instant);
  }

  /** A collection that does not trigger the wheel. */
  lemma CreditedAccepted(f: FeatureState, bet: int, o: Outcome, surges: seq<Position>, w: nat, level: int)
    requires !f.Active() && surges == PositionsFor(o.grid, Surge) && 1 <= |surges| < 3 && 1 <= level
    requires f.rageCollected + |surges| <= MAX_RAGE_COLLECTED
    requires RageAt(o.events, [CollectedEvent(surges, false, level, f.rageCollected + |surges|)], w)
    requires o.next.rageCollected == f.rageCollected + |surges| && o.next.rageLevel == level
    ensures RageAndWheelOk(f, bet, o)
  {
    CollectedOnly(o.events, w, CollectedEvent(surges, false, level, f.rageCollected + |surges|));
    CollectionAccepted(f, surges, false, level, f.rageCollected + |surges|, o.events[w]);
  }

  /** The wheel award of the final list is its raw award, or less at the cap. */
  lemma WheelClipped(c: Config, input: SpinInput, raw: Outcome, pre: seq<Event>, vault: seq<Event>, rage: seq<Event>, j: nat)
    requires CapReady(c, input, raw) && InSections(raw.events, pre, vault, rage)
    requires j < |rage| && rage[j].kind == WheelAwarded && (rage[j].outcome != Instant ==> rage[j].multiplier == 0)
    ensures var o, i := Capped(c, input, raw), |pre| + |vault| + j;
            && i < |o.events| && Clipped(input.bet, rage[j], o.events[i], HasWinCap(o.events))
            && (rage[j].outcome != Instant ==> o.events[i].amount == 0)
  {
    var i := |pre| + |vault| + j;
    assert raw.events[i] == rage[j];
    AwardClippedOnly(c, input, raw, i);
    AwardWithin(c, input, raw, i);
  }
}
