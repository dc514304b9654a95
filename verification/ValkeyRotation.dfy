/** The A/B rotation of shared-admission credentials: which plans are accepted, and what every run of them keeps. */
module ValkeyRotation {
  import opened Money

  datatype Slot = SlotA | SlotB | OtherSlot(name: string)

  datatype Mode = Steady | PasswordRotation | HmacMaintenance | OtherMode(name: string)

  /** The live evidence behind a retired slot's new password. */
  datatype Approval = Approval(version: int, observedSlot: Slot, observedSecret: int, drained: bool, hmacUnchanged: bool,
                               reference: string)

  /** The approval of an HMAC maintenance; the format of its evidence reference is not part of this model. */
  datatype HmacApproval = HmacApproval(resetAccepted: bool, reference: string)

  /** The input of the rotation guard. Fingerprints stand for the credentials they were taken from. */
  datatype Guard = Guard(
    contract: string,
    identity: string,
    active: Slot,
    mode: Mode,
    continuity: string,
    versions: map<Slot, int>,
    fingerprints: map<Slot, string>,
    approvals: map<Slot, Approval>,
    hmac: string,
    hmacApproval: Option<HmacApproval>,
    published: int)

  const CONTRACT := "1.0.0"
  const CONTINUITY := "HMAC fixed during password rotation"

  datatype Transition = HmacEntry | HmacExit | PasswordSwitch | PasswordPrepare | Quiet

  function Other(slot: Slot): Slot {
    if slot == SlotA then SlotB else SlotA
  }

  predicate IsFingerprint(s: string) {
    |s| == 64 && forall i :: 0 <= i < |s| ==> '0' <= s[i] <= '9' || 'a' <= s[i] <= 'f'
  }

  /** Slots with a password past the first need an approval, and only they may carry one. */
  predicate ApprovalOk(slot: Slot, approval: Approval, g: Guard)
    requires slot in g.versions
  {
    && approval.version == g.versions[slot]
    && approval.observedSlot == Other(slot)
    && 1 <= approval.observedSecret <= g.published
    && approval.drained && approval.hmacUnchanged
    && 8 <= |approval.reference| <= 256
  }

  predicate ShapeOk(g: Guard) {
    && g.contract == CONTRACT && (g.active == SlotA || g.active == SlotB) && !g.mode.OtherMode? && g.continuity == CONTINUITY
    && g.versions.Keys == {SlotA, SlotB} && g.fingerprints.Keys == {SlotA, SlotB}
    && (forall slot :: slot in g.versions ==> 1 <= g.versions[slot])
    && (forall slot :: slot in g.fingerprints ==> IsFingerprint(g.fingerprints[slot]))
    && IsFingerprint(g.hmac)
    && 1 <= g.published
    && (if g.active == SlotA then g.published % 2 == 1 else g.published % 2 == 0)
    && (if g.mode == HmacMaintenance then g.hmacApproval.Some? && g.hmacApproval.value.resetAccepted else g.hmacApproval == None)
    && g.approvals.Keys == (set slot | slot in g.versions && g.versions[slot] > 1)
    && (forall slot :: slot in g.approvals ==> ApprovalOk(slot, g.approvals[slot], g))
  }

  /** The keys whose values differ, a missing value differing from every other. */
  function ChangedKeys<V(==)>(a: map<Slot, V>, b: map<Slot, V>): (changed: set<Slot>)
    ensures forall slot :: slot in changed <==>
              (slot in a || slot in b) && !(slot in a && slot in b && a[slot] == b[slot])
  {
    set slot | slot in a.Keys + b.Keys && !(slot in a && slot in b && a[slot] == b[slot])
  }

  /** Which transition a plan makes, if it is legal. The evidence is absent, or present and attested or not. */
  function VerifyTransition(before: Guard, after: Guard, evidence: Option<bool>): Option<Transition> {
    if !ShapeOk(before) || !ShapeOk(after) || before.contract != after.contract then None
    else
      var changed := ChangedKeys(before.versions, after.versions);
      if changed != ChangedKeys(before.fingerprints, after.fingerprints) then None
      else if before.mode == HmacMaintenance || after.mode == HmacMaintenance then VerifyHmac(before, after, evidence, changed)
      else if evidence.Some? || before.identity != after.identity || before.hmac != after.hmac then None
      else if before.active != after.active then VerifySwitch(before, after, changed)
      else if after.published != before.published then None
      else if changed == {} then (if before.approvals == after.approvals then Some(Quiet) else None)
      else VerifyPrepare(before, after, changed)
  }

  /** Only the named fields may differ, and each of them must. */
  predicate OnlyHmacFieldsChange(before: Guard, after: Guard) {
    && after == before.(hmac := after.hmac, hmacApproval := after.hmacApproval, published := after.published, mode := after.mode)
    && after.hmac != before.hmac && after.hmacApproval != before.hmacApproval && after.published != before.published
    && after.mode != before.mode
  }

  function VerifyHmac(before: Guard, after: Guard, evidence: Option<bool>, changed: set<Slot>): Option<Transition> {
    if before.active != after.active || changed != {} || before.approvals != after.approvals ||
       before.identity != after.identity then None
    else if before.mode != HmacMaintenance && after.mode == HmacMaintenance then
      if before.mode == Steady && before.hmac != after.hmac && after.published == before.published + 2 &&
         OnlyHmacFieldsChange(before, after) && evidence == Some(true)
      then Some(HmacEntry) else None
    else if before.mode == HmacMaintenance && after.mode == Steady && evidence == None && before.hmac == after.hmac &&
            after.published == before.published &&
            after == before.(hmacApproval := after.hmacApproval, mode := after.mode) && after.hmacApproval != before.hmacApproval
    then Some(HmacExit)
    else None
  }

  function VerifySwitch(before: Guard, after: Guard, changed: set<Slot>): Option<Transition> {
    if after.mode == PasswordRotation && after.active == Other(before.active) && changed == {} &&
       before.approvals == after.approvals && after.published == before.published + 1
    then Some(PasswordSwitch) else None
  }

  function VerifyPrepare(before: Guard, after: Guard, changed: set<Slot>): Option<Transition>
    requires ShapeOk(before) && ShapeOk(after)
  {
    var inactive := Other(before.active);
    if after.mode == PasswordRotation && changed == {inactive} &&
       after.versions[inactive] == before.versions[inactive] + 1 &&
       ChangedKeys(before.approvals, after.approvals) == {inactive}
    then Some(PasswordPrepare) else None
  }

  /** The first plan: slot A, steady, first passwords, first secret, nothing approved. */
  predicate VerifyCreation(after: Guard, evidence: Option<bool>) {
    && evidence == None && ShapeOk(after) && after.active == SlotA && after.mode == Steady
    && after.versions == map[SlotA := 1, SlotB := 1] && after.published == 1 && after.approvals == map[]
  }

  // --- One step ---

  /** What shared admission authenticates with, and the key of its buckets. */
  datatype Credentials = Credentials(slot: Slot, password: string, hmac: string)

  function CredentialsOf(g: Guard): Credentials
    requires ShapeOk(g)
  {
    Credentials(g.active, g.fingerprints[g.active], g.hmac)
  }

  /** An accepted plan keeps the published version exactly when it keeps the credentials; otherwise the version moves on by
      one with the slot, or by two with the HMAC key. */
  lemma StepVersions(before: Guard, after: Guard, evidence: Option<bool>)
    requires VerifyTransition(before, after, evidence).Some?
    ensures ShapeOk(before) && ShapeOk(after)
    ensures match VerifyTransition(before, after, evidence).value {
              case PasswordSwitch => after.published == before.published + 1 && after.active == Other(before.active) && after.hmac == before.hmac
              case HmacEntry => after.published == before.published + 2 && after.active == before.active && after.hmac != before.hmac
              case _ => after.published == before.published && CredentialsOf(after) == CredentialsOf(before)
            }
  {
    var changed := ChangedKeys(before.versions, after.versions);
    if before.active == after.active && before.active !in changed {
      assert before.active !in ChangedKeys(before.fingerprints, after.fingerprints);
    }
  }

  /** The password of a slot changes only with its version, which moves on by one, and never while the slot is active. */
  lemma StepPasswords(before: Guard, after: Guard, evidence: Option<bool>, slot: Slot)
    requires VerifyTransition(before, after, evidence).Some? && slot in {SlotA, SlotB}
    ensures ShapeOk(before) && ShapeOk(after)
    ensures before.versions[slot] <= after.versions[slot] <= before.versions[slot] + 1
    ensures before.versions[slot] == after.versions[slot] <==> before.fingerprints[slot] == after.fingerprints[slot]
    ensures before.versions[slot] != after.versions[slot] ==>
              && slot == Other(before.active) == Other(after.active) && before.active == after.active
              && slot in after.approvals && after.approvals[slot].version == after.versions[slot]
  {
    var changed := ChangedKeys(before.versions, after.versions);
    assert slot in changed <==> slot in ChangedKeys(before.fingerprints, after.fingerprints);
  }

  // --- Which plans are accepted ---

  /** Neither plan is part of an HMAC maintenance. */
  predicate Ordinary(mode: Mode) {
    mode == Steady || mode == PasswordRotation
  }

  /** A plan of each kind, as a change of the guard before it: nothing else may differ. */
  predicate Plan(kind: Transition, before: Guard, after: Guard, evidence: Option<bool>)
    requires before.active in before.versions
  {
    match kind
    case HmacEntry =>
      && before.mode == Steady && evidence == Some(true) && after.hmac != before.hmac
      && after == before.(mode := HmacMaintenance, hmac := after.hmac, hmacApproval := after.hmacApproval, published := before.published + 2)
    case HmacExit =>
      before.mode == HmacMaintenance && evidence == None && after == before.(mode := Steady, hmacApproval := None)
    case PasswordSwitch =>
      && Ordinary(before.mode) && evidence == None
      && after == before.(mode := PasswordRotation, active := Other(before.active), published := before.published + 1)
    case PasswordPrepare =>
      var slot := Other(before.active);
      && Ordinary(before.mode) && evidence == None
      && slot in before.versions && slot in before.fingerprints && slot in after.fingerprints && slot in after.approvals
      && after.fingerprints[slot] != before.fingerprints[slot]
      && after == before.(mode := PasswordRotation, versions := before.versions[slot := before.versions[slot] + 1],
                          fingerprints := before.fingerprints[slot := after.fingerprints[slot]],
                          approvals := before.approvals[slot := after.approvals[slot]])
    case Quiet =>
      Ordinary(before.mode) && Ordinary(after.mode) && evidence == None && after == before.(mode := after.mode)
  }

  lemma SameValues<V>(a: map<Slot, V>, b: map<Slot, V>)
    requires ChangedKeys(a, b) == {}
    ensures a == b
  {
    forall slot
      ensures slot in a <==> slot in b
      ensures slot in a ==> a[slot] == b[slot]
    {
      assert slot !in ChangedKeys(a, b);
    }
  }

  lemma OneValue<V>(a: map<Slot, V>, b: map<Slot, V>, slot: Slot)
    requires ChangedKeys(a, b) == {slot} && slot in b
    ensures b == a[slot := b[slot]]
  {
    forall s | s != slot
      ensures s in a <==> s in b
      ensures s in a ==> a[s] == b[s]
    {
      assert s !in ChangedKeys(a, b);
    }
  }

  /** An accepted plan is a plan of its kind. */
  lemma AcceptedIsPlan(before: Guard, after: Guard, evidence: Option<bool>)
    requires VerifyTransition(before, after, evidence).Some?
    ensures ShapeOk(before) && ShapeOk(after) && Plan(VerifyTransition(before, after, evidence).value, before, after, evidence)
  {
    var changed, slot := ChangedKeys(before.versions, after.versions), Other(before.active);
    if changed == {} {
      SameValues(before.versions, after.versions);
      SameValues(before.fingerprints, after.fingerprints);
    }
    if VerifyTransition(before, after, evidence).value == PasswordPrepare {
      PreparedIsPlan(before, after, evidence);
    }
  }

  /** What a preparation leaves alone, and what it changes. */
  predicate Prepared(before: Guard, after: Guard, slot: Slot) {
    && ChangedKeys(before.versions, after.versions) == {slot} == ChangedKeys(before.fingerprints, after.fingerprints)
    && ChangedKeys(before.approvals, after.approvals) == {slot}
    && Ordinary(before.mode) && after.mode == PasswordRotation
    && before.contract == after.contract && before.continuity == after.continuity && before.hmacApproval == after.hmacApproval
    && before.identity == after.identity && before.hmac == after.hmac
    && before.active == after.active && before.published == after.published
  }

  lemma AcceptedPrepares(before: Guard, after: Guard, evidence: Option<bool>)
    requires VerifyTransition(before, after, evidence) == Some(PasswordPrepare)
    ensures ShapeOk(before) && ShapeOk(after) && evidence == None
    ensures var slot := Other(before.active); Prepared(before, after, slot) && after.versions[slot] == before.versions[slot] + 1
  {
  }

  lemma PreparedIsPlan(before: Guard, after: Guard, evidence: Option<bool>)
    requires VerifyTransition(before, after, evidence) == Some(PasswordPrepare)
    ensures ShapeOk(before) && ShapeOk(after) && Plan(PasswordPrepare, before, after, evidence)
  {
    AcceptedPrepares(before, after, evidence);
    var slot := Other(before.active);
    OneValue(before.versions, after.versions, slot);
    OneValue(before.fingerprints, after.fingerprints, slot);
    assert slot in ChangedKeys(before.fingerprints, after.fingerprints);
    assert slot in after.approvals;
    OneValue(before.approvals, after.approvals, slot);
  }

  lemma OneChanged<V>(a: map<Slot, V>, slot: Slot, v: V)
    requires slot in a ==> a[slot] != v
    ensures ChangedKeys(a, a[slot := v]) == {slot}
  {
  }

  lemma NothingChanged<V>(a: map<Slot, V>)
    ensures ChangedKeys(a, a) == {}
  {
  }

  lemma ApprovedAnew(before: Guard, after: Guard, evidence: Option<bool>)
    requires ShapeOk(before) && ShapeOk(after) && Plan(PasswordPrepare, before, after, evidence)
    ensures var slot := Other(before.active); slot in after.approvals && (slot in before.approvals ==> before.approvals[slot] != after.approvals[slot])
  {
    var slot := Other(before.active);
    assert ApprovalOk(slot, after.approvals[slot], after);
    assert slot in before.approvals ==> ApprovalOk(slot, before.approvals[slot], before);
  }

  lemma PreparedIsAccepted(before: Guard, after: Guard)
    requires ShapeOk(before) && ShapeOk(after)
    requires var slot := Other(before.active); Prepared(before, after, slot) && after.versions[slot] == before.versions[slot] + 1
    ensures VerifyTransition(before, after, None) == Some(PasswordPrepare)
  {
    assert ChangedKeys(before.versions, after.versions) != {} by {
      assert Other(before.active) in ChangedKeys(before.versions, after.versions);
    }
  }

  lemma PlanPrepares(before: Guard, after: Guard, evidence: Option<bool>)
    requires ShapeOk(before) && ShapeOk(after) && Plan(PasswordPrepare, before, after, evidence)
    ensures var slot := Other(before.active); Prepared(before, after, slot) && after.versions[slot] == before.versions[slot] + 1
    ensures evidence == None
  {
    var slot := Other(before.active);
    ApprovedAnew(before, after, evidence);
    OneChanged(before.versions, slot, before.versions[slot] + 1);
    OneChanged(before.fingerprints, slot, after.fingerprints[slot]);
    OneChanged(before.approvals, slot, after.approvals[slot]);
  }

  lemma PrepareIsAccepted(before: Guard, after: Guard, evidence: Option<bool>)
    requires ShapeOk(before) && ShapeOk(after) && Plan(PasswordPrepare, before, after, evidence)
    ensures VerifyTransition(before, after, evidence) == Some(PasswordPrepare)
  {
    PlanPrepares(before, after, evidence);
    PreparedIsAccepted(before, after);
  }

  /** A well-formed plan of a kind is accepted as that kind. */
  lemma PlanIsAccepted(kind: Transition, before: Guard, after: Guard, evidence: Option<bool>)
    requires ShapeOk(before) && ShapeOk(after) && Plan(kind, before, after, evidence)
    ensures VerifyTransition(before, after, evidence) == Some(kind)
  {
    NothingChanged(before.versions);
    NothingChanged(before.fingerprints);
    match kind {
      case PasswordPrepare => PrepareIsAccepted(before, after, evidence);
      case HmacEntry => assert OnlyHmacFieldsChange(before, after);
      case _ =>
    }
  }

  /** Exactly the well-formed plans of a kind are accepted as that kind. */
  lemma AcceptedExactly(kind: Transition, before: Guard, after: Guard, evidence: Option<bool>)
    requires ShapeOk(before)
    ensures VerifyTransition(before, after, evidence) == Some(kind) <==> ShapeOk(after) && Plan(kind, before, after, evidence)
  {
    if VerifyTransition(before, after, evidence) == Some(kind) {
      AcceptedIsPlan(before, after, evidence);
    }
    if ShapeOk(after) && Plan(kind, before, after, evidence) {
      PlanIsAccepted(kind, before, after, evidence);
    }
  }

  /** From every state a rotation can go on: a maintenance can end, and otherwise the slot can be switched. */
  lemma NeverStuck(before: Guard)
    requires ShapeOk(before)
    ensures before.mode == HmacMaintenance ==>
              VerifyTransition(before, before.(mode := Steady, hmacApproval := None), None) == Some(HmacExit)
    ensures before.mode != HmacMaintenance ==>
              VerifyTransition(before, before.(mode := PasswordRotation, active := Other(before.active), published := before.published + 1), None)
              == Some(PasswordSwitch)
  {
  }

  // --- Runs ---

  /** A run of accepted plans from creation, each with the evidence it carried. */
  predicate Run(states: seq<Guard>, evidence: seq<Option<bool>>) {
    && |states| == |evidence| >= 1 && VerifyCreation(states[0], evidence[0])
    && forall i :: 0 < i < |states| ==> VerifyTransition(states[i - 1], states[i], evidence[i]).Some?
  }

  /** What a run is judged by: version, slot, keys, and the two passwords with their versions. */
  datatype View = View(published: int, active: Slot, hmac: string, password: map<Slot, string>, version: map<Slot, int>)

  function ViewOf(g: Guard): View {
    View(g.published, g.active, g.hmac, g.fingerprints, g.versions)
  }

  predicate BothSlots(v: View) {
    v.password.Keys == {SlotA, SlotB} && v.version.Keys == {SlotA, SlotB} && v.active in {SlotA, SlotB}
  }

  predicate ViewStep(a: View, b: View, kind: Transition) {
    && BothSlots(a) && BothSlots(b)
    && (match kind
        case PasswordSwitch => b.published == a.published + 1 && b.active == Other(a.active) && b.hmac == a.hmac
        case HmacEntry => b.published == a.published + 2 && b.active == a.active
        case _ =>
          b.published == a.published && b.active == a.active && b.hmac == a.hmac && b.password[b.active] == a.password[a.active])
    && (forall slot :: slot in {SlotA, SlotB} ==>
          && a.version[slot] <= b.version[slot]
          && (a.version[slot] == b.version[slot] ==> a.password[slot] == b.password[slot]))
  }

  lemma TransitionView(before: Guard, after: Guard, evidence: Option<bool>)
    requires VerifyTransition(before, after, evidence).Some?
    ensures ViewStep(ViewOf(before), ViewOf(after), VerifyTransition(before, after, evidence).value)
  {
    StepVersions(before, after, evidence);
    forall slot | slot in {SlotA, SlotB}
      ensures before.versions[slot] <= after.versions[slot]
      ensures before.versions[slot] == after.versions[slot] ==> before.fingerprints[slot] == after.fingerprints[slot]
    {
      StepPasswords(before, after, evidence, slot);
    }
  }

  /** A run seen through its views, with the kind of each transition. */
  ghost predicate Seen(views: seq<View>, kinds: seq<Transition>) {
    && |views| == |kinds| + 1 && BothSlots(views[0])
    && forall i {:trigger kinds[i]} :: 0 <= i < |kinds| ==> ViewStep(views[i], views[i + 1], kinds[i])
  }

  function Views(states: seq<Guard>): (views: seq<View>)
    ensures |views| == |states| && forall i :: 0 <= i < |states| ==> views[i] == ViewOf(states[i])
  {
    seq(|states|, i requires 0 <= i < |states| => ViewOf(states[i]))
  }

  function Kinds(states: seq<Guard>, evidence: seq<Option<bool>>): (kinds: seq<Transition>)
    requires Run(states, evidence)
    ensures |kinds| == |states| - 1
    ensures forall i :: 0 <= i < |kinds| ==> VerifyTransition(states[i], states[i + 1], evidence[i + 1]) == Some(kinds[i])
  {
    seq(|states| - 1, i requires 0 <= i < |states| - 1 =>
      assert VerifyTransition(states[(i + 1) - 1], states[i + 1], evidence[i + 1]).Some?;
      VerifyTransition(states[i], states[i + 1], evidence[i + 1]).value)
  }

  lemma RunSeen(states: seq<Guard>, evidence: seq<Option<bool>>)
    requires Run(states, evidence)
    ensures Seen(Views(states), Kinds(states, evidence))
    ensures ViewOf(states[0]).published == 1 && ViewOf(states[0]).active == SlotA
  {
    var views, kinds := Views(states), Kinds(states, evidence);
    forall i | 0 <= i < |kinds|
      ensures ViewStep(views[i], views[i + 1], kinds[i])
    {
      TransitionView(states[i], states[i + 1], evidence[i + 1]);
    }
  }

  lemma {:induction false} SeenGrows(views: seq<View>, kinds: seq<Transition>, i: nat, j: nat)
    requires Seen(views, kinds) && i <= j < |views|
    ensures views[i].published <= views[j].published && BothSlots(views[i]) && BothSlots(views[j])
  {
    if i < j {
      SeenGrows(views, kinds, i, j - 1);
      assert ViewStep(views[j - 1], views[j], kinds[j - 1]);
    } else if i > 0 {
      assert ViewStep(views[i - 1], views[i], kinds[i - 1]);
    }
  }

  predicate SameCredentials(a: View, b: View)
    requires BothSlots(a) && BothSlots(b)
  {
    a.active == b.active && a.hmac == b.hmac && a.password[a.active] == b.password[b.active]
  }

  lemma StepKeepsCredentials(a: View, b: View, kind: Transition)
    requires ViewStep(a, b, kind) && a.published == b.published
    ensures SameCredentials(a, b)
  {
  }

  lemma {:induction false} SeenCredentials(views: seq<View>, kinds: seq<Transition>, i: nat, j: nat)
    requires Seen(views, kinds) && i <= j < |views| && views[i].published == views[j].published
    ensures BothSlots(views[i]) && BothSlots(views[j]) && SameCredentials(views[i], views[j])
  {
    SeenGrows(views, kinds, i, j);
    if i < j {
      SeenGrows(views, kinds, i, j - 1);
      assert ViewStep(views[j - 1], views[j], kinds[j - 1]);
      SeenCredentials(views, kinds, i, j - 1);
      StepKeepsCredentials(views[j - 1], views[j], kinds[j - 1]);
    }
  }

  lemma {:induction false} SeenPasswords(views: seq<View>, kinds: seq<Transition>, slot: Slot, i: nat, j: nat)
    requires Seen(views, kinds) && i <= j < |views| && slot in {SlotA, SlotB}
    ensures BothSlots(views[i]) && BothSlots(views[j])
    ensures views[i].version[slot] <= views[j].version[slot]
    ensures views[i].version[slot] == views[j].version[slot] ==> views[i].password[slot] == views[j].password[slot]
  {
    SeenGrows(views, kinds, i, j);
    if i < j {
      assert ViewStep(views[j - 1], views[j], kinds[j - 1]);
      SeenPasswords(views, kinds, slot, i, j - 1);
    }
  }

  /** Along a run the published version never decreases, and a version number never names two credentials: it determines the
      active slot, that slot's password and the HMAC key. */
  lemma VersionNamesCredentials(states: seq<Guard>, evidence: seq<Option<bool>>, i: nat, j: nat)
    requires Run(states, evidence) && i <= j < |states|
    ensures states[i].published <= states[j].published
    ensures BothSlots(ViewOf(states[i])) && BothSlots(ViewOf(states[j]))
    ensures states[i].published == states[j].published ==> SameCredentials(ViewOf(states[i]), ViewOf(states[j]))
  {
    RunSeen(states, evidence);
    SeenGrows(Views(states), Kinds(states, evidence), i, j);
    if states[i].published == states[j].published {
      SeenCredentials(Views(states), Kinds(states, evidence), i, j);
    }
  }

  /** A slot's password version never decreases and determines the slot's password. */
  lemma PasswordVersionNamesPassword(states: seq<Guard>, evidence: seq<Option<bool>>, slot: Slot, i: nat, j: nat)
    requires Run(states, evidence) && i <= j < |states| && slot in {SlotA, SlotB}
    ensures var a, b := ViewOf(states[i]), ViewOf(states[j]);
            && BothSlots(a) && BothSlots(b) && a.version[slot] <= b.version[slot]
            && (a.version[slot] == b.version[slot] ==> a.password[slot] == b.password[slot])
  {
    RunSeen(states, evidence);
    SeenPasswords(Views(states), Kinds(states, evidence), slot, i, j);
  }

  /** How many of the first n transitions are of a kind. */
  function Made(kinds: seq<Transition>, kind: Transition, n: nat): nat
    requires n <= |kinds|
  {
    if n == 0 then 0 else Made(kinds, kind, n - 1) + if kinds[n - 1] == kind then 1 else 0
  }

  /** The slot after some number of switches. */
  function SlotAfter(switches: nat): Slot {
    if switches == 0 then SlotA else Other(SlotAfter(switches - 1))
  }

  lemma {:induction false} SlotAlternates(switches: nat)
    ensures SlotAfter(switches) == if switches % 2 == 0 then SlotA else SlotB
  {
    if switches > 0 {
      SlotAlternates(switches - 1);
    }
  }

  /** What a transition does to the published version and the slot. */
  predicate Moves(a: View, b: View, kind: Transition) {
    && b.published == a.published + (if kind == PasswordSwitch then 1 else if kind == HmacEntry then 2 else 0)
    && b.active == if kind == PasswordSwitch then Other(a.active) else a.active
  }

  ghost predicate Walked(views: seq<View>, kinds: seq<Transition>) {
    |views| == |kinds| + 1 && forall i {:trigger kinds[i]} :: 0 <= i < |kinds| ==> Moves(views[i], views[i + 1], kinds[i])
  }

  lemma SeenWalked(views: seq<View>, kinds: seq<Transition>)
    requires Seen(views, kinds)
    ensures Walked(views, kinds)
  {
    forall i | 0 <= i < |kinds|
      ensures Moves(views[i], views[i + 1], kinds[i])
    {
      StepMoves(views[i], views[i + 1], kinds[i]);
    }
  }

  lemma StepMoves(a: View, b: View, kind: Transition)
    requires ViewStep(a, b, kind)
    ensures Moves(a, b, kind)
  {
  }

  lemma {:induction false} WalkedVersion(views: seq<View>, kinds: seq<Transition>, n: nat)
    requires Walked(views, kinds) && n < |views| && views[0].published == 1
    ensures views[n].published == 1 + Made(kinds, PasswordSwitch, n) + 2 * Made(kinds, HmacEntry, n)
  {
    if n > 0 {
      WalkedVersion(views, kinds, n - 1);
      assert Moves(views[n - 1], views[n], kinds[n - 1]);
    }
  }

  lemma {:induction false} WalkedSlot(views: seq<View>, kinds: seq<Transition>, n: nat)
    requires Walked(views, kinds) && n < |views| && views[0].active == SlotA
    ensures views[n].active == SlotMade(kinds, n)
  {
    if n > 0 {
      WalkedSlot(views, kinds, n - 1);
      assert Moves(views[n - 1], views[n], kinds[n - 1]);
    }
  }

  /** The slot that the first n transitions lead to. */
  function SlotMade(kinds: seq<Transition>, n: nat): Slot
    requires n <= |kinds|
  {
    if n == 0 then SlotA else if kinds[n - 1] == PasswordSwitch then Other(SlotMade(kinds, n - 1)) else SlotMade(kinds, n - 1)
  }

  lemma {:induction false} SlotMadeBySwitches(kinds: seq<Transition>, kind: Transition, n: nat)
    requires n <= |kinds| && kind == PasswordSwitch
    ensures SlotMade(kinds, n) == SlotAfter(Made(kinds, kind, n))
  {
    if n > 0 {
      SlotMadeBySwitches(kinds, kind, n - 1);
    }
  }

  /** The published version counts the history: one for creation, one per switch, two per HMAC change; and the active slot
      is the parity of the switches. */
  lemma PublishedCounts(states: seq<Guard>, evidence: seq<Option<bool>>, n: nat)
    requires Run(states, evidence) && n < |states|
    ensures var kinds := Kinds(states, evidence);
            && states[n].published == 1 + Made(kinds, PasswordSwitch, n) + 2 * Made(kinds, HmacEntry, n)
            && states[n].active == if Made(kinds, PasswordSwitch, n) % 2 == 0 then SlotA else SlotB
  {
    var views, kinds := Views(states), Kinds(states, evidence);
    RunSeen(states, evidence);
    SeenWalked(views, kinds);
    WalkedVersion(views, kinds, n);
    WalkedSlot(views, kinds, n);
    SlotMadeBySwitches(kinds, PasswordSwitch, n);
    SlotAlternates(Made(kinds, PasswordSwitch, n));
  }

  /** The HMAC key changes only under attested evidence, in a plan that leaves every password alone. */
  lemma HmacChangeAttested(before: Guard, after: Guard, evidence: Option<bool>)
    requires VerifyTransition(before, after, evidence).Some? && before.hmac != after.hmac
    ensures VerifyTransition(before, after, evidence) == Some(HmacEntry) && evidence == Some(true)
    ensures before.versions == after.versions && before.fingerprints == after.fingerprints && before.mode == Steady
  {
  }
}
