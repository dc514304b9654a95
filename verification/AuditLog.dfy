/** The segmented audit log: appending once per event, rotation, failed writes, and the index a restart rebuilds. */
module AuditLog {
  import opened Money
  import opened AuditRecords

  datatype AuditError = Constraint | Conflict | RotationFailed | CapacityExhausted | WriteFailed | SyncFailed

  datatype Answer = Accepted | Duplicate | Refused(error: AuditError)

  /** Every segment ends with a whole record, and the records have an index. */
  predicate Rebuilds(files: seq<string>, decode: Decoder, maximum: int) {
    && (forall i :: 0 <= i < |files| ==> Complete(files[i]))
    && Indexed(Records(files), decode, maximum, |Records(files)|).Some?
  }

  /** What the first k segments have added up to. */
  predicate ScannedTo(files: seq<string>, decode: Decoder, maximum: int, k: nat, index: map<string, string>, size: int) {
    && k <= |files| && (forall i :: 0 <= i < k ==> Complete(files[i]))
    && Indexed(RecordsTo(files, k), decode, maximum, |RecordsTo(files, k)|) == Some(index)
    && size == SizeTo(files, k)
  }

  method ScanSegments(files: seq<string>, decode: Decoder, maximum: int) returns (index: Option<map<string, string>>, size: int)
    ensures index.Some? == Rebuilds(files, decode, maximum)
    ensures index.Some? ==> ScannedTo(files, decode, maximum, |files|, index.value, size)
  {
    index, size := Some(map[]), 0;
    var k := 0;
    NothingScanned(files, decode, maximum);
    while k < |files|
      invariant 0 <= k <= |files| && index.Some?
      invariant ScannedTo(files, decode, maximum, k, index.value, size)
    {
      index := IndexSegment(index.value, files, decode, maximum, k, size);
      if index == None {
        return;
      }
      size, k := size + |files[k]|, k + 1;
    }
    AllScanned(files, decode, maximum, index.value, size);
  }

  lemma NothingScanned(files: seq<string>, decode: Decoder, maximum: int)
    ensures ScannedTo(files, decode, maximum, 0, map[], 0)
  {
  }

  lemma AllScanned(files: seq<string>, decode: Decoder, maximum: int, index: map<string, string>, size: int)
    requires ScannedTo(files, decode, maximum, |files|, index, size)
    ensures Rebuilds(files, decode, maximum)
  {
  }

  /** One segment added to the index of those before it. */
  method IndexSegment(index: map<string, string>, files: seq<string>, decode: Decoder, maximum: int, k: nat, ghost size: int)
    returns (longer: Option<map<string, string>>)
    requires k < |files| && ScannedTo(files, decode, maximum, k, index, size)
    ensures longer.Some? ==> ScannedTo(files, decode, maximum, k + 1, longer.value, size + |files[k]|)
    ensures longer == None ==> !Rebuilds(files, decode, maximum)
  {
    SegmentScanned(index, files, decode, maximum, k, size);
    if !Complete(files[k]) {
      return None;
    }
    longer := IndexFile(index, Lines(files[k]), decode, maximum);
  }

  lemma SegmentScanned(index: map<string, string>, files: seq<string>, decode: Decoder, maximum: int, k: nat, size: int)
    requires k < |files| && ScannedTo(files, decode, maximum, k, index, size)
    ensures var longer := Onwards(index, Lines(files[k]), decode, maximum, 0);
            && (longer.Some? && Complete(files[k]) ==> ScannedTo(files, decode, maximum, k + 1, longer.value, size + |files[k]|))
            && (longer == None || !Complete(files[k]) ==> !Rebuilds(files, decode, maximum))
  {
    var longer := Onwards(index, Lines(files[k]), decode, maximum, 0);
    FileIndexed(index, files, decode, maximum, k);
    if longer == None {
      FailedPrefix(files, decode, maximum, k + 1);
    } else if Complete(files[k]) {
      ScannedOn(files, decode, maximum, k, index, size, longer.value);
    }
  }

  lemma ScannedOn(files: seq<string>, decode: Decoder, maximum: int, k: nat, index: map<string, string>, size: int,
                  longer: map<string, string>)
    requires k < |files| && ScannedTo(files, decode, maximum, k, index, size) && Complete(files[k])
    requires Indexed(RecordsTo(files, k + 1), decode, maximum, |RecordsTo(files, k + 1)|) == Some(longer)
    ensures ScannedTo(files, decode, maximum, k + 1, longer, size + |files[k]|)
  {
  }

  /** The index once the lines from n on are added. */
  function Onwards(index: map<string, string>, lines: seq<string>, decode: Decoder, maximum: int, n: nat): Option<map<string, string>>
    requires n <= |lines|
    decreases |lines| - n
  {
    if n == |lines| then Some(index)
    else
      match WithLine(index, lines[n], decode, maximum)
      case None => None
      case Some(next) => Onwards(next, lines, decode, maximum, n + 1)
  }

  lemma {:induction false} OnwardsIndexes(index: map<string, string>, before: seq<string>, lines: seq<string>, decode: Decoder,
                                          maximum: int, n: nat, all: seq<string>)
    requires n <= |lines| && all == before + lines && Indexed(all, decode, maximum, |before| + n) == Some(index)
    ensures Onwards(index, lines, decode, maximum, n) == Indexed(all, decode, maximum, |all|)
    decreases |lines| - n
  {
    if n < |lines| {
      NextLine(all, decode, maximum, |before| + n, index, lines[n]);
      var next := WithLine(index, lines[n], decode, maximum);
      if next == None {
        IndexedOnwards(all, decode, maximum, |before| + n + 1, |all|);
      } else {
        OnwardsIndexes(next.value, before, lines, decode, maximum, n + 1, all);
      }
    }
  }

  lemma NextLine(lines: seq<string>, decode: Decoder, maximum: int, n: nat, index: map<string, string>, line: string)
    requires n < |lines| && lines[n] == line && Indexed(lines, decode, maximum, n) == Some(index)
    ensures Indexed(lines, decode, maximum, n + 1) == WithLine(index, line, decode, maximum)
  {
  }

  /** The lines of one file added to the index. */
  method IndexFile(index: map<string, string>, lines: seq<string>, decode: Decoder, maximum: int)
    returns (longer: Option<map<string, string>>)
    ensures longer == Onwards(index, lines, decode, maximum, 0)
  {
    longer := Some(index);
    var n := 0;
    while n < |lines|
      invariant 0 <= n <= |lines| && longer.Some?
      invariant Onwards(longer.value, lines, decode, maximum, n) == Onwards(index, lines, decode, maximum, 0)
    {
      longer := WithLine(longer.value, lines[n], decode, maximum);
      if longer == None {
        return;
      }
      n := n + 1;
    }
  }

  class AuditStore {
    const maximum: int
    const fileLimit: int
    const segment: int
    const decode: Decoder
    var archives: seq<string>
    var active: string
    var total: int
    var accepted: map<string, string>
    /** Which of the next rotations, syncs and closes succeed, and how much each write takes. */
    var faults: seq<bool>
    var writes: seq<int>

    constructor (archives: seq<string>, active: string, maximum: int, fileLimit: int, segment: int, decode: Decoder,
                 faults: seq<bool>, writes: seq<int>)
      ensures Files() == archives + [active] && total == 0 && accepted == map[]
      ensures this.maximum == maximum && this.fileLimit == fileLimit && this.segment == segment && this.decode == decode
    {
      this.archives, this.active, this.total, this.accepted := archives, active, 0, map[];
      this.maximum, this.fileLimit, this.segment, this.decode := maximum, fileLimit, segment, decode;
      this.faults, this.writes := faults, writes;
    }

    function Files(): seq<string>
      reads this
    {
      archives + [active]
    }

    /** The log on disk: whole segments within the limits, one record per event. */
    ghost predicate Sound()
      reads this
    {
      && (forall i :: 0 <= i < |archives| ==> Complete(archives[i])) && Complete(active)
      && IdsUnique(Records(Files()), decode) && RecordsOk(Records(Files()), maximum)
      && SizeTo(Files(), |Files()|) <= fileLimit
    }

    /** The index and the total describe the log. */
    ghost predicate Indexes()
      reads this
    {
      Agrees(accepted, Records(Files()), decode) && total == SizeTo(Files(), |Files()|)
    }

    predicate LimitsOk() {
      0 < maximum && 0 < fileLimit && 0 < segment <= fileLimit
    }

    /** No rotation, sync or close will fail, and every write takes something. */
    predicate NoFaults()
      reads this
    {
      (forall i :: 0 <= i < |faults| ==> faults[i]) && forall i :: 0 <= i < |writes| ==> writes[i] > 0
    }

    method Attempt() returns (ok: bool)
      modifies this`faults
      ensures old(NoFaults()) ==> ok && NoFaults()
    {
      ok := true;
      if |faults| > 0 {
        ok, faults := faults[0], faults[1..];
      }
    }

    /** The index and the total, recomputed from the segments. */
    method RebuildIndex() returns (ok: bool)
      modifies this`total, this`accepted
      ensures ok <==> LimitsOk() && Rebuilds(Files(), decode, maximum) && SizeTo(Files(), |Files()|) <= fileLimit
      ensures ok ==> Some(accepted) == Indexed(Records(Files()), decode, maximum, |Records(Files())|)
                     && total == SizeTo(Files(), |Files()|)
    {
      total, accepted := 0, map[];
      if !LimitsOk() {
        return false;
      }
      var index, size := ScanSegments(Files(), decode, maximum);
      if index == None {
        return false;
      }
      total, accepted := size, index.value;
      return total <= fileLimit;
    }

    /** Writes until the whole line is taken; a failure leaves any part of it. */
    method WriteFull(line: string) returns (ok: bool)
      modifies this`active, this`writes
      ensures old(active) <= active
      ensures ok ==> active == old(active) + line
      ensures old(NoFaults()) ==> ok && NoFaults()
    {
      var sent := 0;
      while sent < |line|
        invariant 0 <= sent <= |line| && active == old(active) + line[..sent]
        invariant old(NoFaults()) ==> NoFaults()
      {
        var taken := |line| - sent;
        if |writes| > 0 {
          taken, writes := if writes[0] < taken then writes[0] else taken, writes[1..];
        }
        if taken <= 0 {
          return false;
        }
        assert line[..sent + taken] == line[..sent] + line[sent..sent + taken];
        active, sent := active + line[sent..sent + taken], sent + taken;
      }
      assert line[..|line|] == line;
      return true;
    }

    /** The active segment becomes an archive and a new one is opened; a failure undoes its renames, but for the last close. */
    method RotateSegment() returns (ok: bool)
      modifies this`archives, this`active, this`faults
      ensures || (archives == old(archives) && active == old(active))
              || (archives == old(archives) + [old(active)] && active == "")
      ensures ok ==> active == ""
      ensures old(NoFaults()) ==> ok && NoFaults()
    {
      ok := Attempt();
      if !ok {
        return;
      }
      archives, active := archives + [active], "";
      ok := Attempt();
    }

    /** Appends a record once per event. */
    method Append(eventID: string, encoded: string) returns (answer: Answer)
      requires Sound() && Indexes() && decode(encoded) == Some(eventID)
      modifies this`archives, this`active, this`total, this`accepted, this`faults, this`writes
      ensures Sound() && Indexes()
      ensures Records(Files()) == old(Records(Files())) + if answer == Accepted then [encoded] else []
      ensures accepted == if answer == Accepted then old(accepted)[eventID := encoded] else old(accepted)
      ensures total == old(total) + if answer == Accepted then |encoded| + 1 else 0
      ensures answer == Refused(Constraint) <==> |encoded| > maximum || !OneLine(encoded)
      ensures answer == Duplicate ==> eventID in old(accepted) && old(accepted)[eventID] == encoded
      ensures |encoded| <= maximum && OneLine(encoded) && eventID in old(accepted) ==>
                answer == if old(accepted)[eventID] == encoded then Duplicate else Refused(Conflict)
      ensures answer == Accepted ==> eventID !in old(accepted)
      ensures answer == Refused(Conflict) ==> eventID in old(accepted)
      ensures answer == Refused(CapacityExhausted) ==> old(total) + |encoded| + 1 > fileLimit
      ensures old(NoFaults()) && |encoded| <= maximum && OneLine(encoded) && eventID !in old(accepted) ==>
                NoFaults() && answer == if old(total) + |encoded| + 1 <= fileLimit then Accepted else Refused(CapacityExhausted)
    {
      if |encoded| > maximum || !OneLine(encoded) {
        return Refused(Constraint);
      }
      if eventID in accepted {
        return if accepted[eventID] == encoded then Duplicate else Refused(Conflict);
      }
      var line := encoded + "\n";
      if active != "" && |active| + |line| > segment {
        var rotated := Rotate();
        if !rotated {
          return Refused(RotationFailed);
        }
      }
      if |line| > fileLimit - total {
        return Refused(CapacityExhausted);
      }
      answer := Store(line, eventID, encoded);
    }

    /** The line written and synced, or the file truncated to where it was. */
    method Store(line: string, eventID: string, encoded: string) returns (answer: Answer)
      requires Sound() && Indexes() && decode(encoded) == Some(eventID)
      requires line == encoded + "\n" && |encoded| <= maximum && OneLine(encoded) && eventID !in accepted
      requires |line| <= fileLimit - total
      modifies this`active, this`total, this`accepted, this`faults, this`writes
      ensures Sound() && Indexes() && answer in {Accepted, Refused(WriteFailed), Refused(SyncFailed)}
      ensures Records(Files()) == old(Records(Files())) + if answer == Accepted then [encoded] else []
      ensures accepted == if answer == Accepted then old(accepted)[eventID := encoded] else old(accepted)
      ensures total == old(total) + if answer == Accepted then |encoded| + 1 else 0
      ensures old(NoFaults()) ==> answer == Accepted && NoFaults()
    {
      var start := |active|;
      ghost var before := active;
      var written := WriteFull(line);
      if !written {
        active := active[..start];
        assert active == before;
        return Refused(WriteFailed);
      }
      var synced := Attempt();
      if !synced {
        active := active[..start];
        assert active == before;
        return Refused(SyncFailed);
      }
      RecordAppended(archives, before, encoded, active);
      FreshRecord(accepted, Records(archives + [before]), decode, encoded);
      total, accepted := total + |line|, accepted[eventID := encoded];
      answer := Accepted;
    }

    /** A rotation of a sound log adds no record and loses none. */
    method Rotate() returns (ok: bool)
      requires Sound() && Indexes()
      modifies this`archives, this`active, this`faults
      ensures Sound() && Indexes() && Records(Files()) == old(Records(Files()))
      ensures old(NoFaults()) ==> ok && NoFaults()
    {
      EmptyFileAdded(Files());
      ok := RotateSegment();
    }

    /** A restart on a sound log rebuilds the index and the total that were in memory. */
    method Reopen() returns (ok: bool)
      requires Sound() && Indexes() && LimitsOk()
      modifies this`total, this`accepted
      ensures ok && Sound() && Indexes() && accepted == old(accepted) && total == old(total)
    {
      RebuiltIs(Records(Files()), decode, maximum, accepted);
      ok := RebuildIndex();
    }
  }

  /** An index that cannot be built stays so with more lines. */
  lemma {:induction false} IndexedOnwards(lines: seq<string>, decode: Decoder, maximum: int, m: nat, n: nat)
    requires m <= n <= |lines| && Indexed(lines, decode, maximum, m) == None
    ensures Indexed(lines, decode, maximum, n) == None
  {
    if m < n {
      IndexedOnwards(lines, decode, maximum, m, n - 1);
    }
  }

  lemma {:induction false} LaterRecords(files: seq<string>, k: nat, n: nat)
    requires k <= n <= |files|
    ensures RecordsTo(files, k) <= RecordsTo(files, n)
  {
    if k < n {
      LaterRecords(files, k, n - 1);
    }
  }

  lemma FileIndexed(index: map<string, string>, files: seq<string>, decode: Decoder, maximum: int, k: nat)
    requires k < |files| && Some(index) == Indexed(RecordsTo(files, k), decode, maximum, |RecordsTo(files, k)|)
    ensures Onwards(index, Lines(files[k]), decode, maximum, 0) ==
            Indexed(RecordsTo(files, k + 1), decode, maximum, |RecordsTo(files, k + 1)|)
  {
    var before, lines := RecordsTo(files, k), Lines(files[k]);
    IndexedPrefix(before, lines, decode, maximum, |before|);
    OnwardsIndexes(index, before, lines, decode, maximum, 0, before + lines);
  }

  lemma FailedPrefix(files: seq<string>, decode: Decoder, maximum: int, k: nat)
    requires k <= |files| && Indexed(RecordsTo(files, k), decode, maximum, |RecordsTo(files, k)|) == None
    ensures Indexed(Records(files), decode, maximum, |Records(files)|) == None
  {
    var part, all := RecordsTo(files, k), Records(files);
    LaterRecords(files, k, |files|);
    assert all == part + all[|part|..];
    IndexedPrefix(part, all[|part|..], decode, maximum, |part|);
    IndexedOnwards(all, decode, maximum, |part|, |all|);
  }

  lemma EmptyFileAdded(files: seq<string>)
    ensures Records(files + [""]) == Records(files) && SizeTo(files + [""], |files| + 1) == SizeTo(files, |files|)
  {
    LastFile(files, "");
  }

  /** A record appended to the active segment is the log's last one. */
  lemma RecordAppended(archives: seq<string>, active: string, encoded: string, longer: string)
    requires Complete(active) && OneLine(encoded) && longer == active + (encoded + "\n")
    ensures Complete(longer)
    ensures Records(archives + [longer]) == Records(archives + [active]) + [encoded]
    ensures SizeTo(archives + [longer], |archives| + 1) == SizeTo(archives + [active], |archives| + 1) + |encoded| + 1
  {
    LinesAppended(active, encoded);
    LastFile(archives, active);
    LastFile(archives, longer);
    OneMore(Records(archives), Lines(active), encoded);
  }

  lemma OneMore(before: seq<string>, lines: seq<string>, line: string)
    ensures before + (lines + [line]) == before + lines + [line]
  {
  }

  lemma FreshRecord(index: map<string, string>, records: seq<string>, decode: Decoder, encoded: string)
    requires IdsUnique(records, decode) && decode(encoded).Some? && decode(encoded).value !in index
    requires Agrees(index, records, decode)
    ensures IdsUnique(records + [encoded], decode)
    ensures Agrees(index[decode(encoded).value := encoded], records + [encoded], decode)
  {
    forall i | 0 <= i < |records|
      ensures decode(records[i]) != decode(encoded)
    {
      assert decode(records[i]).value in index;
    }
    AgreesWithMore(index, records, decode, encoded);
  }

  /** A record written whole before the process died is in the rebuilt index, beside all that was there. */
  lemma UnacknowledgedIsFound(archives: seq<string>, active: string, encoded: string, longer: string, decode: Decoder, maximum: int,
                              index: map<string, string>)
    requires Complete(active) && (forall i :: 0 <= i < |archives| ==> Complete(archives[i]))
    requires OneLine(encoded) && |encoded| <= maximum && longer == active + (encoded + "\n")
    requires IdsUnique(Records(archives + [active]), decode) && RecordsOk(Records(archives + [active]), maximum)
    requires Agrees(index, Records(archives + [active]), decode) && decode(encoded).Some? && decode(encoded).value !in index
    ensures Rebuilds(archives + [longer], decode, maximum)
    ensures var records := Records(archives + [longer]);
            Indexed(records, decode, maximum, |records|) == Some(index[decode(encoded).value := encoded])
  {
    RecordAppended(archives, active, encoded, longer);
    FreshIsIndexed(index, Records(archives + [active]), decode, maximum, encoded);
  }

  lemma FreshIsIndexed(index: map<string, string>, before: seq<string>, decode: Decoder, maximum: int, encoded: string)
    requires IdsUnique(before, decode) && RecordsOk(before, maximum) && Agrees(index, before, decode)
    requires OneLine(encoded) && |encoded| <= maximum && decode(encoded).Some? && decode(encoded).value !in index
    ensures Indexed(before + [encoded], decode, maximum, |before| + 1) == Some(index[decode(encoded).value := encoded])
  {
    FreshRecord(index, before, decode, encoded);
    RebuiltIs(before + [encoded], decode, maximum, index[decode(encoded).value := encoded]);
  }

  /** A process that died within a write leaves a log that no restart accepts: it fails closed. */
  lemma TornTailRefused(archives: seq<string>, active: string, encoded: string, taken: nat, decode: Decoder, maximum: int)
    requires 0 < taken <= |encoded| && OneLine(encoded)
    ensures !Rebuilds(archives + [active + (encoded + "\n")[..taken]], decode, maximum)
  {
    var torn := active + (encoded + "\n")[..taken];
    assert torn[|torn| - 1] == encoded[taken - 1];
    assert (archives + [torn])[|archives|] == torn;
  }
}
