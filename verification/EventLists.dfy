/** Finding events of one kind in the lists a spin puts together. */
module EventLists {
  import opened Money
  import opened GameTypes
  import opened Grids
  import opened WinCap
  import opened OutcomeRules
  import opened SpinShape

  /** The same event, up to the amount it pays. */
  predicate SameButAmount(a: Event, b: Event) {
    b == a.(amount := b.amount)
  }

  /** A final event list: the raw events with other amounts, then closing events only. */
  predicate Extends(raw: seq<Event>, events: seq<Event>) {
    && |raw| <= |events|
    && (forall i :: 0 <= i < |raw| ==> SameButAmount(raw[i], events[i]))
    && (forall i :: 0 <= i < |raw| ==> Section(raw[i].kind) < 3)
    && (forall i :: |raw| <= i < |events| ==> Section(events[i].kind) == 3)
  }

  lemma ExtendsOnly(raw: seq<Event>, events: seq<Event>, kind: EventKind, at: int)
    requires Extends(raw, events) && Section(kind) < 3 && OnlyAt(raw, kind, at)
    ensures OnlyAt(events, kind, at) && Indexes(events, kind) == [at]
  {
    forall i | 0 <= i < |events| && i != at
      ensures events[i].kind != kind
    {
      if i < |raw| {
        assert SameButAmount(raw[i], events[i]);
      }
    }
    assert SameButAmount(raw[at], events[at]);
    IndexesOne(events, kind, at);
  }

  lemma ExtendsAbsent(raw: seq<Event>, events: seq<Event>, kind: EventKind)
    requires Extends(raw, events) && Section(kind) < 3 && Absent(raw, kind)
    ensures Absent(events, kind) && Indexes(events, kind) == []
  {
    forall i | 0 <= i < |events|
      ensures events[i].kind != kind
    {
      if i < |raw| {
        assert SameButAmount(raw[i], events[i]);
      }
    }
    IndexesNone(events, kind);
  }

  /** The raw events of a spin in their three sections. */
  predicate InSections(raw: seq<Event>, pre: seq<Event>, vault: seq<Event>, rage: seq<Event>) {
    raw == pre + vault + rage && AllIn(pre, 0) && AllIn(vault, 1) && AllIn(rage, 2)
  }

  /** The section of a kind, and where that section starts in the raw list. */
  function SectionEvents(pre: seq<Event>, vault: seq<Event>, rage: seq<Event>, kind: EventKind): seq<Event> {
    if Section(kind) == 0 then pre else if Section(kind) == 1 then vault else rage
  }

  function SectionStart(pre: seq<Event>, vault: seq<Event>, kind: EventKind): int {
    if Section(kind) == 0 then 0 else if Section(kind) == 1 then |pre| else |pre| + |vault|
  }

  lemma SectionOnly(raw: seq<Event>, pre: seq<Event>, vault: seq<Event>, rage: seq<Event>, kind: EventKind, at: int)
    requires InSections(raw, pre, vault, rage) && Section(kind) < 3
    requires OnlyAt(SectionEvents(pre, vault, rage, kind), kind, at)
    ensures OnlyAt(raw, kind, SectionStart(pre, vault, kind) + at)
  {
  }

  lemma SectionAbsent(raw: seq<Event>, pre: seq<Event>, vault: seq<Event>, rage: seq<Event>, kind: EventKind)
    requires InSections(raw, pre, vault, rage) && Section(kind) < 3
    requires Absent(SectionEvents(pre, vault, rage, kind), kind)
    ensures Absent(raw, kind)
  {
  }

  /** An event found once in its section is found once, at its place, in the final list. */
  lemma FoundOnce(raw: seq<Event>, events: seq<Event>, pre: seq<Event>, vault: seq<Event>, rage: seq<Event>,
                  kind: EventKind, at: int)
    requires InSections(raw, pre, vault, rage) && Extends(raw, events) && Section(kind) < 3
    requires OnlyAt(SectionEvents(pre, vault, rage, kind), kind, at)
    ensures Indexes(events, kind) == [SectionStart(pre, vault, kind) + at]
    ensures 0 <= SectionStart(pre, vault, kind) + at < |events|
    ensures SameButAmount(SectionEvents(pre, vault, rage, kind)[at], events[SectionStart(pre, vault, kind) + at])
  {
    SectionOnly(raw, pre, vault, rage, kind, at);
    ExtendsOnly(raw, events, kind, SectionStart(pre, vault, kind) + at);
  }

  lemma FoundNowhere(raw: seq<Event>, events: seq<Event>, pre: seq<Event>, vault: seq<Event>, rage: seq<Event>,
                     kind: EventKind)
    requires InSections(raw, pre, vault, rage) && Extends(raw, events) && Section(kind) < 3
    requires Absent(SectionEvents(pre, vault, rage, kind), kind)
    ensures Indexes(events, kind) == []
    ensures Absent(events, kind)
  {
    SectionAbsent(raw, pre, vault, rage, kind);
    ExtendsAbsent(raw, events, kind);
  }

  /** Capping a raw list only clips amounts and appends closing events. */
  lemma CappedExtends(raw: seq<Event>, budget: int, closing: seq<Event>)
    requires forall i :: 0 <= i < |raw| ==> Section(raw[i].kind) < 3
    requires AllIn(closing, 3)
    ensures Extends(raw, CappedEvents(raw, budget) + closing)
    ensures |CappedEvents(raw, budget)| == |raw|
  {
    CappedEventsAt(raw, budget, |raw|);
    var events := CappedEvents(raw, budget) + closing;
    forall i | 0 <= i < |raw|
      ensures SameButAmount(raw[i], events[i])
    {
      assert events[i] == CappedEvent(raw, i, budget);
    }
  }
}
