/** The files of a definition rotation on a disk that may lose updates it has not synced, and what keeps them recoverable. */
module DefinitionFiles {
  import opened Money

  /** An approval as the loader sees it: the digest it approves, and whether its signature holds. */
  datatype Approval = Approval(digest: string, authentic: bool)

  /** The definition, known by its digest, and the approval beside it. */
  datatype Pair = Pair(definition: string, approval: Approval)

  /** The digest of a loaded generation: the approval must be authentic and approve this definition, which must be known. */
  function Load(pair: Pair, known: set<string>): Option<string> {
    if pair.approval.authentic && pair.approval.digest == pair.definition && pair.definition in known
    then Some(pair.definition) else None
  }

  /** The transaction marker; one that does not decode is torn. */
  datatype Marker = Torn | Complete(backup: string, previous: string, target: string)

  datatype Folder = Folder(pair: Pair, marker: Option<Marker>)

  /** One change of a directory entry. */
  datatype Update = SetDefinition(definition: string) | SetApproval(approval: Approval) | SetMarker(marker: Option<Marker>)

  /** A backup without both its files is None. A finished backup is durable: it was synced before any marker named it. */
  datatype Disk = Disk(durable: Folder, pending: seq<Update>, backups: map<string, Option<Pair>>)

  function Applied(folder: Folder, update: Update): Folder {
    match update
    case SetDefinition(definition) => folder.(pair := folder.pair.(definition := definition))
    case SetApproval(approval) => folder.(pair := folder.pair.(approval := approval))
    case SetMarker(marker) => folder.(marker := marker)
  }

  /** What the first n unsynced updates leave on the disk when only some of them persist. */
  function Image(disk: Disk, kept: set<nat>, n: nat): Folder
    requires n <= |disk.pending|
  {
    if n == 0 then disk.durable
    else
      var before := Image(disk, kept, n - 1);
      if n - 1 in kept then Applied(before, disk.pending[n - 1]) else before
  }

  function Latest(disk: Disk, n: nat): Folder
    requires n <= |disk.pending|
  {
    if n == 0 then disk.durable else Applied(Latest(disk, n - 1), disk.pending[n - 1])
  }

  /** What running programs see. */
  function Visible(disk: Disk): Folder {
    Latest(disk, |disk.pending|)
  }

  /** What a power loss may leave. */
  function AfterPowerLoss(disk: Disk, kept: set<nat>): Folder {
    Image(disk, kept, |disk.pending|)
  }

  /** Whatever a power loss leaves, a folder without a marker holds one whole generation. */
  ghost predicate Safe(disk: Disk, known: set<string>) {
    forall kept: set<nat> :: AfterPowerLoss(disk, kept).marker == None ==> Load(AfterPowerLoss(disk, kept).pair, known).Some?
  }

  // --- The invariant ---

  predicate BackupOk(disk: Disk, marker: Marker, known: set<string>) {
    && marker.Complete? && marker.backup in disk.backups && disk.backups[marker.backup].Some?
    && Load(disk.backups[marker.backup].value, known) == Some(marker.previous) && marker.previous != marker.target
  }

  /** Each file is the backed-up one or the target's. */
  predicate FilesOk(pair: Pair, marker: Marker)
    requires marker.Complete?
  {
    && pair.definition in {marker.previous, marker.target}
    && pair.approval in {Approval(marker.previous, true), Approval(marker.target, true)}
  }

  /** A marker whose creation is not yet synced was written before any rename: the pair is still the one backed up. */
  predicate UpdateQuiet(disk: Disk, update: Update, known: set<string>) {
    match update
    case SetDefinition(definition) => definition == disk.durable.pair.definition
    case SetApproval(approval) => approval == disk.durable.pair.approval
    case SetMarker(marker) =>
      marker.Some? && marker.value.Complete? ==>
        BackupOk(disk, marker.value, known) && disk.backups[marker.value.backup] == Some(disk.durable.pair)
  }

  /** The durable pair is whole and no unsynced rename would change it. */
  predicate Quiet(disk: Disk, known: set<string>) {
    && Load(disk.durable.pair, known).Some?
    && (disk.durable.marker.Some? && disk.durable.marker.value.Complete? ==>
          BackupOk(disk, disk.durable.marker.value, known) && FilesOk(disk.durable.pair, disk.durable.marker.value))
    && forall i :: 0 <= i < |disk.pending| ==> UpdateQuiet(disk, disk.pending[i], known)
  }

  predicate UpdateMoving(update: Update, marker: Marker)
    requires marker.Complete?
  {
    match update
    case SetDefinition(definition) => definition in {marker.previous, marker.target}
    case SetApproval(approval) => approval in {Approval(marker.previous, true), Approval(marker.target, true)}
    case SetMarker(_) => false
  }

  /** The marker is durable, and both files may be on their way between its two generations. */
  predicate Moving(disk: Disk, known: set<string>) {
    && disk.durable.marker.Some? && BackupOk(disk, disk.durable.marker.value, known)
    && FilesOk(disk.durable.pair, disk.durable.marker.value)
    && forall i :: 0 <= i < |disk.pending| ==> UpdateMoving(disk.pending[i], disk.durable.marker.value)
  }

  predicate Recoverable(disk: Disk, known: set<string>) {
    Quiet(disk, known) || Moving(disk, known)
  }

  predicate MarkerFits(disk: Disk, folder: Folder, known: set<string>) {
    folder.marker.Some? && folder.marker.value.Complete? ==>
      BackupOk(disk, folder.marker.value, known) && FilesOk(folder.pair, folder.marker.value)
  }

  lemma {:induction false} QuietImage(disk: Disk, known: set<string>, kept: set<nat>, n: nat)
    requires Quiet(disk, known) && n <= |disk.pending|
    ensures Image(disk, kept, n).pair == disk.durable.pair && MarkerFits(disk, Image(disk, kept, n), known)
  {
    if n > 0 {
      QuietImage(disk, known, kept, n - 1);
      assert UpdateQuiet(disk, disk.pending[n - 1], known);
    }
  }

  lemma {:induction false} MovingImage(disk: Disk, known: set<string>, kept: set<nat>, n: nat)
    requires Moving(disk, known) && n <= |disk.pending|
    ensures Image(disk, kept, n).marker == disk.durable.marker
    ensures FilesOk(Image(disk, kept, n).pair, disk.durable.marker.value)
  {
    if n > 0 {
      MovingImage(disk, known, kept, n - 1);
      assert UpdateMoving(disk.pending[n - 1], disk.durable.marker.value);
    }
  }

  /** Every index below n. */
  function Below(n: nat): (below: set<nat>)
    ensures forall i: nat :: i in below <==> i < n
  {
    if n == 0 then {} else Below(n - 1) + {n - 1}
  }

  lemma {:induction false} LatestIsImage(disk: Disk, kept: set<nat>, n: nat)
    requires n <= |disk.pending| && forall i :: 0 <= i < n ==> i in kept
    ensures Latest(disk, n) == Image(disk, kept, n)
  {
    if n > 0 {
      LatestIsImage(disk, kept, n - 1);
    }
  }

  lemma VisibleIsImage(disk: Disk)
    ensures Visible(disk) == AfterPowerLoss(disk, Below(|disk.pending|))
  {
    LatestIsImage(disk, Below(|disk.pending|), |disk.pending|);
  }

  lemma RecoverableIsSafe(disk: Disk, known: set<string>)
    requires Recoverable(disk, known)
    ensures Safe(disk, known)
  {
    forall kept: set<nat> | AfterPowerLoss(disk, kept).marker == None
      ensures Load(AfterPowerLoss(disk, kept).pair, known).Some?
    {
      if Quiet(disk, known) {
        QuietImage(disk, known, kept, |disk.pending|);
      } else {
        MovingImage(disk, known, kept, |disk.pending|);
      }
    }
  }

  /** The disk after a power loss: some updates persisted, finished backups kept, unfinished ones in any state. */
  predicate Reborn(disk: Disk, kept: set<nat>, later: Disk) {
    && later.durable == AfterPowerLoss(disk, kept) && later.pending == []
    && forall name :: name in disk.backups && disk.backups[name].Some? ==> name in later.backups && later.backups[name] == disk.backups[name]
  }

  /** A power loss at any moment leaves a disk that can be recovered, whichever unsynced updates persist. */
  lemma PowerLossKeepsRecoverable(disk: Disk, known: set<string>, kept: set<nat>, later: Disk)
    requires Recoverable(disk, known) && Reborn(disk, kept, later)
    ensures Recoverable(later, known)
  {
    if Quiet(disk, known) {
      QuietImage(disk, known, kept, |disk.pending|);
      assert Quiet(later, known);
    } else {
      MovingImage(disk, known, kept, |disk.pending|);
      assert Moving(later, known);
    }
  }

  /** Syncing keeps what programs see. */
  function Synced(disk: Disk): Disk {
    disk.(durable := Visible(disk), pending := [])
  }

  lemma SyncKeepsRecoverable(disk: Disk, known: set<string>)
    requires Recoverable(disk, known)
    ensures Recoverable(Synced(disk), known)
    ensures Quiet(disk, known) ==> Quiet(Synced(disk), known)
  {
    VisibleIsImage(disk);
    PowerLossKeepsRecoverable(disk, known, Below(|disk.pending|), Synced(disk));
    if Quiet(disk, known) {
      QuietImage(disk, known, Below(|disk.pending|), |disk.pending|);
    }
  }

  // --- Updates ---

  function Updated(disk: Disk, update: Update): Disk {
    disk.(pending := disk.pending + [update])
  }

  lemma {:induction false} ImageOfMore(disk: Disk, update: Update, kept: set<nat>, n: nat)
    requires n <= |disk.pending|
    ensures Image(Updated(disk, update), kept, n) == Image(disk, kept, n)
    ensures Latest(Updated(disk, update), n) == Latest(disk, n)
  {
    if n > 0 {
      ImageOfMore(disk, update, kept, n - 1);
    }
  }

  lemma VisibleUpdated(disk: Disk, update: Update)
    ensures Visible(Updated(disk, update)) == Applied(Visible(disk), update)
  {
    ImageOfMore(disk, update, {}, |disk.pending|);
  }

  lemma QuietUpdate(disk: Disk, known: set<string>, update: Update)
    requires Quiet(disk, known) && UpdateQuiet(disk, update, known)
    ensures Quiet(Updated(disk, update), known)
  {
    var later := Updated(disk, update);
    forall i | 0 <= i < |later.pending|
      ensures UpdateQuiet(later, later.pending[i], known)
    {
      assert i < |disk.pending| ==> UpdateQuiet(disk, disk.pending[i], known);
    }
  }

  lemma MovingUpdate(disk: Disk, known: set<string>, update: Update)
    requires Moving(disk, known) && UpdateMoving(update, disk.durable.marker.value)
    ensures Moving(Updated(disk, update), known)
  {
  }

  /** With both files of one generation in sight, a quiet disk shows the durable pair. */
  lemma QuietVisible(disk: Disk, known: set<string>)
    requires Quiet(disk, known)
    ensures Visible(disk).pair == disk.durable.pair && MarkerFits(disk, Visible(disk), known)
  {
    VisibleIsImage(disk);
    QuietImage(disk, known, Below(|disk.pending|), |disk.pending|);
  }

  lemma MovingVisible(disk: Disk, known: set<string>)
    requires Moving(disk, known)
    ensures Visible(disk).marker == disk.durable.marker && FilesOk(Visible(disk).pair, disk.durable.marker.value)
  {
    VisibleIsImage(disk);
    MovingImage(disk, known, Below(|disk.pending|), |disk.pending|);
  }

  // --- Removing the marker ---

  /** Some unsynced rename would change a file. */
  predicate Loose(disk: Disk) {
    exists i :: 0 <= i < |disk.pending| && Changes(disk, disk.pending[i])
  }

  predicate Changes(disk: Disk, update: Update) {
    match update
    case SetDefinition(definition) => definition != disk.durable.pair.definition
    case SetApproval(approval) => approval != disk.durable.pair.approval
    case SetMarker(_) => false
  }

  lemma QuietIsNotLoose(disk: Disk, known: set<string>)
    ensures Quiet(disk, known) ==> !Loose(disk)
  {
    forall i | Quiet(disk, known) && 0 <= i < |disk.pending|
      ensures !Changes(disk, disk.pending[i])
    {
      assert UpdateQuiet(disk, disk.pending[i], known);
    }
  }

  lemma {:induction false} OnlyOneKept(disk: Disk, kept: set<nat>, i: nat, n: nat)
    requires n <= |disk.pending| && i < |disk.pending|
    requires forall k :: 0 <= k < n ==> (k in kept <==> k == i)
    ensures Image(disk, kept, n) == if i < n then Applied(disk.durable, disk.pending[i]) else disk.durable
  {
    if n > 0 {
      OnlyOneKept(disk, kept, i, n - 1);
    }
  }

  lemma {:induction false} NoneKept(disk: Disk, kept: set<nat>, n: nat)
    requires n <= |disk.pending| && forall k :: 0 <= k < n ==> k !in kept
    ensures Image(disk, kept, n) == disk.durable
  {
    if n > 0 {
      NoneKept(disk, kept, n - 1);
    }
  }

  lemma {:induction false} SteadyPair(disk: Disk, n: nat)
    requires !Loose(disk) && n <= |disk.pending|
    ensures Latest(disk, n).pair == disk.durable.pair
  {
    if n > 0 {
      SteadyPair(disk, n - 1);
      assert !Changes(disk, disk.pending[n - 1]);
    }
  }

  function Unmarked(disk: Disk): Disk {
    Updated(disk, SetMarker(None))
  }

  /** A moving disk whose files, as seen, make one generation turns quiet if nothing loose is left. */
  lemma SettledIsQuiet(disk: Disk, known: set<string>)
    requires Recoverable(disk, known) && Load(Visible(disk).pair, known).Some? && !Loose(disk)
    ensures Quiet(disk, known)
  {
    if Moving(disk, known) {
      SteadyPair(disk, |disk.pending|);
      forall i | 0 <= i < |disk.pending|
        ensures UpdateQuiet(disk, disk.pending[i], known)
      {
        assert UpdateMoving(disk.pending[i], disk.durable.marker.value);
        assert !Changes(disk, disk.pending[i]);
      }
    }
  }

  lemma LooseRemoval(disk: Disk, known: set<string>, i: nat)
    requires Moving(disk, known) && Load(disk.durable.pair, known).Some? && i < |disk.pending| && Changes(disk, disk.pending[i])
    ensures AfterPowerLoss(Unmarked(disk), {i, |disk.pending|}).marker == None
    ensures Load(AfterPowerLoss(Unmarked(disk), {i, |disk.pending|}).pair, known) == None
  {
    var kept := {i, |disk.pending|};
    ImageOfMore(disk, SetMarker(None), kept, |disk.pending|);
    OnlyOneKept(disk, kept, i, |disk.pending|);
    assert UpdateMoving(disk.pending[i], disk.durable.marker.value);
  }

  lemma MixedRemoval(disk: Disk, known: set<string>)
    requires Load(disk.durable.pair, known) == None
    ensures AfterPowerLoss(Unmarked(disk), {|disk.pending|}).marker == None
    ensures Load(AfterPowerLoss(Unmarked(disk), {|disk.pending|}).pair, known) == None
  {
    var kept := {|disk.pending|};
    ImageOfMore(disk, SetMarker(None), kept, |disk.pending|);
    NoneKept(disk, kept, |disk.pending|);
  }

  /** Removing the marker over one visible generation is safe exactly when no unsynced rename would change a file. */
  lemma RemovalSafeExactly(disk: Disk, known: set<string>)
    requires Recoverable(disk, known) && Load(Visible(disk).pair, known).Some?
    ensures Safe(Unmarked(disk), known) <==> !Loose(disk)
    ensures !Loose(disk) ==> Quiet(disk, known) && Quiet(Unmarked(disk), known)
  {
    if !Loose(disk) {
      SettledIsQuiet(disk, known);
      QuietUpdate(disk, known, SetMarker(None));
      RecoverableIsSafe(Unmarked(disk), known);
    } else {
      var i: nat :| i < |disk.pending| && Changes(disk, disk.pending[i]);
      QuietIsNotLoose(disk, known);
      if Load(disk.durable.pair, known).Some? {
        LooseRemoval(disk, known, i);
      } else {
        MixedRemoval(disk, known);
      }
    }
  }

  /** A disk on which a killed commit left both renames unsynced: it can be recovered, and it shows the whole target. */
  function KilledCommit(): Disk {
    Disk(Folder(Pair("previous", Approval("previous", true)), Some(Complete("backup", "previous", "target"))),
         [SetApproval(Approval("target", true)), SetDefinition("target")],
         map["backup" := Some(Pair("previous", Approval("previous", true)))])
  }

  /** Retaining the target there is not safe: the removal may persist with one rename of the two. */
  lemma KilledCommitUnsafe()
    ensures var disk, known := KilledCommit(), {"previous", "target"};
            && Recoverable(disk, known) && Load(Visible(disk).pair, known) == Some("target")
            && AfterPowerLoss(Unmarked(disk), {0, 2}) == Folder(Pair("previous", Approval("target", true)), None)
            && !Safe(Unmarked(disk), known)
  {
    var disk, known := KilledCommit(), {"previous", "target"};
    VisibleUpdated(disk.(pending := [SetApproval(Approval("target", true))]), SetDefinition("target"));
    VisibleUpdated(disk.(pending := []), SetApproval(Approval("target", true)));
    assert disk.(pending := []).pending + [SetApproval(Approval("target", true))] == [SetApproval(Approval("target", true))];
    assert disk == Updated(disk.(pending := [SetApproval(Approval("target", true))]), SetDefinition("target"));
    assert Moving(disk, known);
    assert Changes(disk, disk.pending[0]);
    LooseRemoval(disk, known, 0);
    var gone := Unmarked(disk);
    ImageOfMore(disk, SetMarker(None), {0, 2}, 2);
    OnlyOneKept(disk, {0, 2}, 0, 2);
  }
}
