/** Rotating the signed game definition: two files replaced under a marker and a backup, and the recovery of an interrupted
    rotation. Every state that a crash can meet is recorded. */
module DefinitionRotation {
  import opened Money
  import opened DefinitionFiles

  datatype RotationError =
      MarkerUnreadable | MarkerInvalid | BackupInvalid | UnexpectedGeneration | RestoreFailed | RestoredInvalid
    | RemovalFailed | CurrentInvalid | ApprovalInvalid | BackupFailed | MarkerFailed | CommitFailed | CommittedInvalid

  const MAX_ATTEMPTS := 100

  function BackupName(base: string, attempt: nat): string {
    if attempt == 0 then base else base + "-" + [('0' as int + attempt / 10 % 10) as char, ('0' as int + attempt % 10) as char]
  }

  lemma BackupAdded(disk: Disk, known: set<string>, name: string, pair: Option<Pair>)
    requires name in disk.backups ==> disk.backups[name] == None
    ensures var later := disk.(backups := disk.backups[name := pair]);
            && (Recoverable(disk, known) ==> Recoverable(later, known)) && (Quiet(disk, known) ==> Quiet(later, known))
  {
    var later := disk.(backups := disk.backups[name := pair]);
    forall i | Quiet(disk, known) && 0 <= i < |disk.pending|
      ensures UpdateQuiet(later, disk.pending[i], known)
    {
      assert UpdateQuiet(disk, disk.pending[i], known);
    }
  }

  lemma {:induction false} BackupsUnseen(disk: Disk, backups: map<string, Option<Pair>>, n: nat)
    requires n <= |disk.pending|
    ensures Latest(disk.(backups := backups), n) == Latest(disk, n)
  {
    if n > 0 {
      BackupsUnseen(disk, backups, n - 1);
    }
  }

  lemma BackupDropped(disk: Disk, known: set<string>, name: string)
    requires name in disk.backups && disk.backups[name] == None
    ensures var later := disk.(backups := disk.backups - {name});
            && (Recoverable(disk, known) ==> Recoverable(later, known)) && (Quiet(disk, known) ==> Quiet(later, known))
  {
    var later := disk.(backups := disk.backups - {name});
    forall i | Quiet(disk, known) && 0 <= i < |disk.pending|
      ensures UpdateQuiet(later, disk.pending[i], known)
    {
      assert UpdateQuiet(disk, disk.pending[i], known);
    }
  }

  /** A pair that may be renamed into place: the one that is there, or either generation of the marker. */
  predicate Fits(disk: Disk, pair: Pair, known: set<string>) {
    || (Quiet(disk, known) && pair == disk.durable.pair)
    || (Moving(disk, known) && FilesOk(pair, disk.durable.marker.value))
  }

  lemma FitsUpdates(disk: Disk, pair: Pair, known: set<string>)
    requires Fits(disk, pair, known)
    ensures Fits(Updated(disk, SetApproval(pair.approval)), pair, known)
    ensures Fits(Updated(disk, SetDefinition(pair.definition)), pair, known)
  {
    if Moving(disk, known) && FilesOk(pair, disk.durable.marker.value) {
      MovingUpdate(disk, known, SetApproval(pair.approval));
      MovingUpdate(disk, known, SetDefinition(pair.definition));
    } else {
      QuietUpdate(disk, known, SetApproval(pair.approval));
      QuietUpdate(disk, known, SetDefinition(pair.definition));
    }
  }

  lemma FitsSynced(disk: Disk, pair: Pair, known: set<string>)
    requires Fits(disk, pair, known)
    ensures Fits(Synced(disk), pair, known)
  {
    if Moving(disk, known) && FilesOk(pair, disk.durable.marker.value) {
      MovingVisible(disk, known);
    } else {
      QuietVisible(disk, known);
      SyncKeepsRecoverable(disk, known);
    }
  }

  /** The backup that a marker names is finished and holds the marker's previous generation. */
  predicate BackupLoads(disk: Disk, marker: Marker, known: set<string>) {
    && marker.Complete? && marker.backup in disk.backups && disk.backups[marker.backup].Some?
    && Load(disk.backups[marker.backup].value, known) == Some(marker.previous)
  }

  predicate QuietWhenDone(disk: Disk, known: set<string>) {
    disk.pending == [] && disk.durable.marker == None && Load(disk.durable.pair, known).Some?
  }

  lemma UnmarkedIsQuiet(disk: Disk, known: set<string>)
    requires Recoverable(disk, known) && Visible(disk).marker == None
    ensures Quiet(disk, known)
  {
    if Moving(disk, known) {
      MovingVisible(disk, known);
      assert false;
    }
  }

  /** A visible marker names its backup, and the files it was written over or is moving between. */
  lemma MarkerNamesBackup(disk: Disk, known: set<string>)
    requires Recoverable(disk, known)
    ensures MarkerFits(disk, Visible(disk), known)
  {
    if Quiet(disk, known) {
      QuietVisible(disk, known);
    } else {
      MovingVisible(disk, known);
    }
  }

  /** The backup of a visible marker may be renamed back. */
  lemma BackupFits(disk: Disk, known: set<string>)
    requires Recoverable(disk, known) && Visible(disk).marker.Some? && Visible(disk).marker.value.Complete?
    ensures BackupOk(disk, Visible(disk).marker.value, known)
    ensures Fits(disk, disk.backups[Visible(disk).marker.value.backup].value, known)
  {
    MarkerNamesBackup(disk, known);
    if Moving(disk, known) {
      MovingVisible(disk, known);
    } else {
      LastMarker(disk, known, |disk.pending|);
    }
  }

  /** On a quiet disk that is not moving, a complete marker is an unsynced one. */
  lemma {:induction false} LastMarker(disk: Disk, known: set<string>, n: nat)
    requires Quiet(disk, known) && n <= |disk.pending|
    ensures || (Latest(disk, n).marker == disk.durable.marker && forall i :: 0 <= i < n ==> !disk.pending[i].SetMarker?)
            || exists i :: 0 <= i < n && disk.pending[i] == SetMarker(Latest(disk, n).marker)
  {
    if n > 0 {
      LastMarker(disk, known, n - 1);
      if disk.pending[n - 1].SetMarker? {
        assert disk.pending[n - 1] == SetMarker(Latest(disk, n).marker);
      }
    }
  }

  /** The operations on the two directories. Each may fail; `faults` says which of the next ones succeed. */
  class DefinitionStore {
    const known: set<string>
    var disk: Disk
    var faults: seq<bool>
    /** The disk after every change so far: what a kill or a power loss can interrupt. */
    ghost var past: seq<Disk>

    /** A process starts on whatever disk it finds. */
    constructor (found: Disk, known: set<string>, faults: seq<bool>)
      ensures Valid() && disk == found && this.known == known && this.faults == faults && past == [found]
    {
      this.known, disk, this.faults, past := known, found, faults, [found];
    }

    ghost predicate Valid()
      reads this
    {
      |past| > 0 && past[|past| - 1] == disk
    }

    /** Every disk so far could be recovered. */
    ghost predicate Sound()
      reads this
    {
      forall i :: 0 <= i < |past| ==> Recoverable(past[i], known)
    }

    /** Some disk so far could lose a generation. */
    ghost predicate Unsound()
      reads this
    {
      exists i :: 0 <= i < |past| && !Safe(past[i], known)
    }

    predicate NoFaults()
      reads this
    {
      forall i :: 0 <= i < |faults| ==> faults[i]
    }

    /** Every operation but the third succeeds, and perhaps that one. */
    predicate ThirdMayFail()
      reads this
    {
      forall i :: 0 <= i < |faults| && i != 2 ==> faults[i]
    }

    /** Whether the operation after n others succeeds. */
    predicate Works(n: nat)
      reads this
    {
      n < |faults| ==> faults[n]
    }

    method Attempt() returns (ok: bool)
      modifies this`faults
      ensures ok == old(Works(0)) && faults == if |old(faults)| > 0 then old(faults)[1..] else []
      ensures old(NoFaults()) ==> ok && NoFaults()
    {
      ok := true;
      if |faults| > 0 {
        ok, faults := faults[0], faults[1..];
      }
    }

    method Change(update: Update) returns (ok: bool)
      requires Valid()
      modifies this
      ensures Valid() && old(past) <= past
      ensures disk == if ok then Updated(old(disk), update) else old(disk)
      ensures old(Sound()) && Recoverable(disk, known) ==> Sound()
      ensures past == if ok then old(past) + [disk] else old(past)
      ensures old(NoFaults()) ==> ok && NoFaults()
    {
      ok := Attempt();
      if ok {
        disk := Updated(disk, update);
        past := past + [disk];
      }
    }

    method SyncDirectory() returns (ok: bool)
      requires Valid()
      modifies this
      ensures Valid() && old(past) <= past
      ensures disk == if ok then Synced(old(disk)) else old(disk)
      ensures past == if ok then old(past) + [disk] else old(past)
      ensures old(Sound()) ==> Sound()
      ensures old(NoFaults()) ==> ok && NoFaults()
    {
      ok := Attempt();
      if ok {
        assert Recoverable(disk, known) ==> Recoverable(Synced(disk), known) by {
          if Recoverable(disk, known) {
            SyncKeepsRecoverable(disk, known);
          }
        }
        disk := Synced(disk);
        past := past + [disk];
      }
    }

    /** The generation in place, if it can be read and it loads. */
    method LoadCurrent() returns (digest: Option<string>)
      modifies this`faults
      ensures digest == if old(Works(0)) then Load(Visible(disk).pair, known) else None
      ensures faults == if |old(faults)| > 0 then old(faults)[1..] else []
      ensures old(NoFaults()) ==> digest == Load(Visible(disk).pair, known) && NoFaults()
    {
      var ok := Attempt();
      digest := if ok then Load(Visible(disk).pair, known) else None;
    }

    /** A new directory holding both files, synced; a failure leaves at most an unfinished one. */
    method CreateBackup(base: string, pair: Pair) returns (name: Option<string>)
      requires Valid() && Recoverable(disk, known)
      modifies this
      ensures Valid() && old(past) <= past && (old(Sound()) ==> Sound())
      ensures disk == old(disk).(backups := disk.backups)
      ensures forall b :: b in old(disk.backups) ==> b in disk.backups && disk.backups[b] == old(disk.backups[b])
      ensures Recoverable(disk, known) && (old(Quiet(disk, known)) ==> Quiet(disk, known))
      ensures name.Some? ==> name.value in disk.backups && disk.backups[name.value] == Some(pair)
      ensures old(NoFaults()) && base !in old(disk.backups) ==> name == Some(base) && NoFaults()
    {
      name := None;
      var attempt, free := 0, base;
      while attempt < MAX_ATTEMPTS && free in disk.backups
        invariant 0 <= attempt <= MAX_ATTEMPTS
        invariant base !in disk.backups ==> free == base && attempt == 0
      {
        attempt := attempt + 1;
        free := BackupName(base, attempt);
      }
      var made := Attempt();
      if attempt == MAX_ATTEMPTS || !made {
        return;
      }
      WriteBackup(free, None);
      var written := Attempt();
      if !written {
        var cleaned := Attempt();
        if cleaned {
          DropBackup(free);
        }
        return;
      }
      WriteBackup(free, Some(pair));
      name := Some(free);
    }

    method WriteBackup(name: string, pair: Option<Pair>)
      requires Valid() && Recoverable(disk, known) && (name in disk.backups ==> disk.backups[name] == None)
      modifies this`disk, this`past
      ensures Valid() && old(past) <= past && (old(Sound()) ==> Sound())
      ensures disk == old(disk).(backups := old(disk.backups)[name := pair])
      ensures Recoverable(disk, known) && (old(Quiet(disk, known)) ==> Quiet(disk, known))
    {
      BackupAdded(disk, known, name, pair);
      disk := disk.(backups := disk.backups[name := pair]);
      past := past + [disk];
    }

    method DropBackup(name: string)
      requires Valid() && Recoverable(disk, known) && name in disk.backups && disk.backups[name] == None
      modifies this`disk, this`past
      ensures Valid() && old(past) <= past && (old(Sound()) ==> Sound())
      ensures disk == old(disk).(backups := old(disk.backups) - {name})
      ensures Recoverable(disk, known) && (old(Quiet(disk, known)) ==> Quiet(disk, known))
    {
      BackupDropped(disk, known, name);
      disk := disk.(backups := disk.backups - {name});
      past := past + [disk];
    }

    /** A marker written over a quiet disk whose pair is the one backed up. */
    method WriteMarker(marker: Marker) returns (ok: bool)
      requires Valid() && Quiet(disk, known) && BackupOk(disk, marker, known)
      requires disk.backups[marker.backup] == Some(disk.durable.pair)
      modifies this
      ensures Valid() && old(past) <= past && (old(Sound()) ==> Sound())
      ensures Quiet(disk, known) && disk.durable == old(disk.durable) && disk.backups == old(disk.backups)
      ensures ok ==> Visible(disk) == old(Visible(disk)).(marker := Some(marker))
      ensures old(NoFaults()) ==> (ok <==> old(Visible(disk)).marker == None) && NoFaults()
    {
      if Visible(disk).marker.Some? {
        return false;
      }
      QuietUpdate(disk, known, SetMarker(Some(Torn)));
      VisibleUpdated(disk, SetMarker(Some(Torn)));
      ok := Change(SetMarker(Some(Torn)));
      if ok {
        QuietUpdate(disk, known, SetMarker(Some(marker)));
        VisibleUpdated(disk, SetMarker(Some(marker)));
        ok := Change(SetMarker(Some(marker)));
      }
    }

    /** Both files renamed into place, the approval first, and the directory synced. */
    method ReplaceArtifacts(pair: Pair) returns (ok: bool)
      requires Valid() && Fits(disk, pair, known)
      modifies this
      ensures Valid() && old(past) <= past && (old(Sound()) ==> Sound())
      ensures disk.backups == old(disk.backups) && Visible(disk).marker == old(Visible(disk)).marker && Fits(disk, pair, known)
      ensures ok ==> disk.pending == [] && disk.durable == old(Visible(disk)).(pair := pair)
      ensures old(NoFaults()) ==> ok && NoFaults()
    {
      ok := Attempt();
      if !ok {
        return;
      }
      FitsUpdates(disk, pair, known);
      VisibleUpdated(disk, SetApproval(pair.approval));
      ok := Change(SetApproval(pair.approval));
      if ok {
        FitsUpdates(disk, pair, known);
        VisibleUpdated(disk, SetDefinition(pair.definition));
        ok := Change(SetDefinition(pair.definition));
      }
      if ok {
        FitsSynced(disk, pair, known);
        ok := SyncDirectory();
      }
    }

    /** The marker removed and the removal synced. */
    method RemoveMarker() returns (ok: bool, ghost gone: bool)
      requires Valid() && Load(Visible(disk).pair, known).Some?
      modifies this
      ensures Valid() && old(past) <= past
      ensures gone ==> Visible(disk) == old(Visible(disk)).(marker := None)
      ensures !gone ==> disk == old(disk) && past == old(past)
      ensures forall i :: |old(past)| <= i < |past| ==> Visible(past[i]).pair == old(Visible(disk)).pair
      ensures disk.backups == old(disk.backups)
      ensures old(Sound()) && !(gone && old(Loose(disk))) ==> Sound()
      ensures old(Sound()) && gone && old(Loose(disk)) ==> Unsound()
      ensures ok ==> gone && disk.pending == []
      ensures old(NoFaults()) ==> ok && NoFaults()
    {
      VisibleUpdated(disk, SetMarker(None));
      ghost var before := disk;
      assert Recoverable(before, known) ==> (Safe(Unmarked(before), known) <==> !Loose(before))
                                            && (!Loose(before) ==> Quiet(Unmarked(before), known)) by {
        if Recoverable(before, known) {
          RemovalSafeExactly(before, known);
        }
      }
      ok := Change(SetMarker(None));
      gone := ok;
      if ok {
        ok := SyncDirectory();
      }
    }

    /** Finishes an interrupted rotation. `retained` says that the marker was removed over a generation found whole. */
    method Recover() returns (error: Option<RotationError>, ghost retained: bool)
      requires Valid() && Recoverable(disk, known)
      modifies this
      ensures Valid() && old(past) <= past && disk.backups == old(disk.backups)
      ensures retained ==> Load(old(Visible(disk)).pair, known).Some? && old(Visible(disk)).marker.Some?
      ensures old(Sound()) && !(retained && old(Loose(disk))) ==> Sound()
      ensures old(Sound()) && retained && old(Loose(disk)) ==> Unsound()
      ensures error == None ==> Visible(disk).marker == None && Quiet(disk, known)
      ensures error == None && old(Visible(disk)).marker != None ==>
                && disk.pending == [] && disk.durable.marker == None && old(Visible(disk)).marker.value.Complete?
                && (retained <==> old(Works(2)) && Load(old(Visible(disk)).pair, known).Some?)
                && (retained ==> disk.durable.pair == old(Visible(disk)).pair)
                && (!retained ==> Load(disk.durable.pair, known) == Some(old(Visible(disk)).marker.value.previous))
      ensures retained ==> forall i :: |old(past)| <= i < |past| ==> Visible(past[i]).pair == old(Visible(disk)).pair
      ensures error == None && old(Visible(disk)).marker == None ==> disk == old(disk) && !retained
      ensures old(NoFaults()) && old(Visible(disk)).marker != Some(Torn) ==> error == None && NoFaults()
      ensures old(ThirdMayFail()) && old(Visible(disk)).marker.Some? && old(Visible(disk)).marker != Some(Torn) ==>
                error == None && NoFaults()
    {
      retained := false;
      var read := Attempt();
      if !read {
        return Some(MarkerUnreadable), false;
      }
      var found := Visible(disk).marker;
      if found == None {
        UnmarkedIsQuiet(disk, known);
        return None, false;
      }
      var marker := found.value;
      if marker == Torn {
        return Some(MarkerInvalid), false;
      }
      read := Attempt();
      if !read || !BackupLoads(disk, marker, known) {
        MarkerNamesBackup(disk, known);
        return Some(BackupInvalid), false;
      }
      var backup := disk.backups[marker.backup].value;
      var current := LoadCurrent();
      if current.Some? {
        error, retained := Retain(marker, current.value);
      } else {
        error := Restore(marker, backup);
      }
    }

    /** Keeps a whole generation and removes the marker over it. */
    method Retain(marker: Marker, digest: string) returns (error: Option<RotationError>, ghost gone: bool)
      requires Valid() && Recoverable(disk, known) && marker.Complete?
      requires Visible(disk).marker == Some(marker) && Load(Visible(disk).pair, known) == Some(digest)
      modifies this
      ensures Valid() && old(past) <= past && disk.backups == old(disk.backups)
      ensures gone ==> Visible(disk) == old(Visible(disk)).(marker := None)
      ensures old(Sound()) && !(gone && old(Loose(disk))) ==> Sound()
      ensures old(Sound()) && gone && old(Loose(disk)) ==> Unsound()
      ensures error == None ==> gone && disk.pending == [] && disk.durable == old(Visible(disk)).(marker := None) && Quiet(disk, known)
      ensures forall i :: |old(past)| <= i < |past| ==> Visible(past[i]).pair == old(Visible(disk)).pair
      ensures old(NoFaults()) ==> error == None && NoFaults()
    {
      gone := false;
      MarkerNamesBackup(disk, known);
      if digest != marker.target && digest != marker.previous {
        return Some(UnexpectedGeneration), false;
      }
      var removed;
      removed, gone := RemoveMarker();
      assert removed ==> QuietWhenDone(disk, known);
      return if removed then None else Some(RemovalFailed), gone;
    }

    /** Puts the backed-up generation back and removes the marker. */
    method Restore(marker: Marker, backup: Pair) returns (error: Option<RotationError>)
      requires Valid() && Recoverable(disk, known) && Visible(disk).marker == Some(marker) && marker.Complete?
      requires BackupLoads(disk, marker, known) && backup == disk.backups[marker.backup].value
      modifies this
      ensures Valid() && old(past) <= past && disk.backups == old(disk.backups)
      ensures old(Sound()) ==> Sound()
      ensures error == None ==> disk.pending == [] && disk.durable == Folder(backup, None) && Quiet(disk, known)
      ensures old(NoFaults()) ==> error == None && NoFaults()
    {
      BackupFits(disk, known);
      var restored := ReplaceArtifacts(backup);
      if !restored {
        return Some(RestoreFailed);
      }
      var digest := LoadCurrent();
      if digest != Some(marker.previous) {
        return Some(RestoredInvalid);
      }
      ghost var gone;
      restored, gone := RemoveMarker();
      assert restored ==> QuietWhenDone(disk, known);
      error := if restored then None else Some(RemovalFailed);
    }

    /** The current pair backed up, and a durable marker naming the backup. */
    method Announce(base: string, pair: Pair, target: string) returns (error: Option<RotationError>)
      requires Valid() && Quiet(disk, known) && pair == disk.durable.pair && pair.definition != target
      modifies this
      ensures Valid() && old(past) <= past && (old(Sound()) ==> Sound())
      ensures Quiet(disk, known) && error != Some(ApprovalInvalid)
      ensures error == None ==>
                && Moving(disk, known) && disk.pending == [] && disk.durable.marker.value.target == target
                && Load(pair, known) == Some(disk.durable.marker.value.previous)
      ensures old(NoFaults()) && old(Visible(disk)).marker == None && base !in old(disk.backups) ==> error == None && NoFaults()
    {
      ghost var before := disk;
      var backup := CreateBackup(base, pair);
      if backup == None {
        return Some(BackupFailed);
      }
      BackupsUnseen(before, disk.backups, |disk.pending|);
      var marked := WriteMarker(Complete(backup.value, pair.definition, target));
      if marked {
        QuietVisible(disk, known);
        SyncKeepsRecoverable(disk, known);
        marked := SyncDirectory();
      }
      return if marked then None else Some(MarkerFailed);
    }

    /** Replaces both files under a durable marker and removes it, or recovers. */
    method Commit(pair: Pair) returns (error: Option<RotationError>, ghost loose: bool)
      requires Valid() && Moving(disk, known) && disk.pending == []
      requires disk.durable.marker.value.target == pair.definition && pair.approval == Approval(pair.definition, true)
      modifies this
      ensures Valid() && old(past) <= past
      ensures old(Sound()) && !loose ==> Sound()
      ensures old(Sound()) && loose ==> Unsound()
      ensures error == None ==> Quiet(disk, known) && disk.durable == Folder(pair, None) && disk.pending == []
      ensures error != Some(ApprovalInvalid)
      ensures old(NoFaults()) && pair.definition in known ==> error == None
    {
      var marker := disk.durable.marker;
      var replaced := ReplaceArtifacts(pair);
      var loaded := None;
      if replaced {
        loaded := LoadCurrent();
        if loaded == Some(pair.definition) {
          var removed;
          ghost var gone;
          removed, gone := RemoveMarker();
          return if removed then None else Some(RemovalFailed), false;
        }
      }
      loose := Loose(disk);
      var recovered;
      ghost var retained;
      recovered, retained := Recover();
      return Some(if replaced then CommittedInvalid else CommitFailed), loose && retained;
    }

    /** Moves the definition on to the target. `loose` says that a recovery removed the marker over loose renames. */
    method Rotate(target: string, signed: Option<Approval>, base: string) returns (error: Option<RotationError>, ghost loose: bool)
      requires Valid() && Recoverable(disk, known)
      modifies this
      ensures Valid() && old(past) <= past
      ensures old(Sound()) && !loose ==> Sound()
      ensures old(Sound()) && loose ==> Unsound()
      ensures error == None ==> Quiet(disk, known) && Visible(disk).marker == None && Load(Visible(disk).pair, known) == Some(target)
      ensures (old(NoFaults()) && old(Visible(disk)).marker != Some(Torn) && base !in old(disk.backups) && target in known
               && signed == Some(Approval(target, true))) ==> error == None
      // A marker over a whole target is only removed: no new backup, and no disk on the way shows another pair.
      ensures old(NoFaults()) && old(Visible(disk)).marker.Some? && old(Visible(disk)).marker.value.Complete?
              && Load(old(Visible(disk)).pair, known) == Some(target) ==>
                && error == None && disk.backups == old(disk.backups) && disk.durable == old(Visible(disk)).(marker := None)
                && forall i :: |old(past)| <= i < |past| ==> Visible(past[i]).pair == old(Visible(disk)).pair
      // A refused rotation leaves what the recovery left: the generation found whole, or the previous one.
      ensures old(NoFaults()) && old(Visible(disk)).marker.Some? && old(Visible(disk)).marker.value.Complete?
              && error == Some(ApprovalInvalid) ==>
                Load(disk.durable.pair, known) ==
                  if Load(old(Visible(disk)).pair, known).Some? then Load(old(Visible(disk)).pair, known)
                  else Some(old(Visible(disk)).marker.value.previous)
    {
      ghost var retained;
      error, retained := Recover();
      loose := retained && old(Loose(disk));
      if error == None {
        ghost var again;
        error, again := Advance(target, signed, base);
        loose := loose || again;
      }
    }

    /** The rotation proper, once no marker is left. */
    method Advance(target: string, signed: Option<Approval>, base: string) returns (error: Option<RotationError>, ghost loose: bool)
      requires Valid() && Quiet(disk, known) && Visible(disk).marker == None
      modifies this
      ensures Valid() && old(past) <= past
      ensures old(Sound()) && !loose ==> Sound()
      ensures old(Sound()) && loose ==> Unsound()
      ensures error == None ==> Quiet(disk, known) && Visible(disk).marker == None && Load(Visible(disk).pair, known) == Some(target)
      ensures (old(NoFaults()) && base !in old(disk.backups) && target in known && signed == Some(Approval(target, true))) ==> error == None
      ensures old(NoFaults()) && Load(old(Visible(disk)).pair, known) == Some(target) ==> error == None && disk == old(disk) && past == old(past)
      ensures error == Some(ApprovalInvalid) ==> disk == old(disk) && past == old(past)
    {
      loose := false;
      QuietVisible(disk, known);
      var read := Attempt();
      var pair := Visible(disk).pair;
      var current := LoadCurrent();
      if !read || current == None {
        return Some(CurrentInvalid), loose;
      }
      if current.value == target {
        return None, loose;
      }
      if signed == None || signed.value != Approval(target, true) {
        return Some(ApprovalInvalid), loose;
      }
      error := Announce(base, pair, target);
      if error.Some? {
        return;
      }
      error, loose := Commit(Pair(target, signed.value));
    }
  }

  const PREVIOUS: Pair := Pair("previous", Approval("previous", true))
  const TARGET: Pair := Pair("target", Approval("target", true))

  /** Everything of the target is durable; only the marker is left to remove. */
  function CommittedTarget(): Disk {
    Disk(Folder(TARGET, Some(Complete("backup", "previous", "target"))), [], map["backup" := Some(PREVIOUS)])
  }

  /** One failed read of a committed target takes it back: the recovery reports success and the previous generation stands. */
  method CommittedTakenBack() returns (store: DefinitionStore, error: Option<RotationError>)
    ensures |store.past| > 0 && store.past[0] == CommittedTarget()
    ensures Load(Visible(CommittedTarget()).pair, store.known) == Some("target")
    ensures error == None && store.disk.pending == [] && store.disk.durable.marker == None
    ensures Load(store.disk.durable.pair, store.known) == Some("previous")
  {
    store := new DefinitionStore(CommittedTarget(), {"previous", "target"}, [true, true, false]);
    ghost var retained;
    error, retained := store.Recover();
    assert store.past[0] == CommittedTarget();
  }
}
