/** The audit log as bytes: its lines, the records of its segments, and the index a restart rebuilds from them. */
module AuditRecords {
  import opened Money

  /** The lines of a file read so far, and what follows the last newline. */
  datatype Scanned = Scanned(lines: seq<string>, rest: string)

  function Scan(content: string, n: nat): Scanned
    requires n <= |content|
  {
    if n == 0 then Scanned([], "")
    else
      var before := Scan(content, n - 1);
      if content[n - 1] == '\n' then Scanned(before.lines + [before.rest], "")
      else Scanned(before.lines, before.rest + [content[n - 1]])
  }

  function Lines(content: string): seq<string> {
    Scan(content, |content|).lines
  }

  /** A store must not end within a record. */
  predicate Complete(content: string) {
    content == "" || content[|content| - 1] == '\n'
  }

  predicate OneLine(text: string) {
    forall i :: 0 <= i < |text| ==> text[i] != '\n' && text[i] != '\r'
  }

  lemma CompleteRest(content: string)
    requires Complete(content)
    ensures Scan(content, |content|).rest == ""
  {
  }

  lemma {:induction false} ScanPrefix(content: string, more: string, n: nat)
    requires n <= |content|
    ensures Scan(content + more, n) == Scan(content, n)
  {
    if n > 0 {
      ScanPrefix(content, more, n - 1);
    }
  }

  lemma {:induction false} ScanText(content: string, text: string, n: nat)
    requires Complete(content) && OneLine(text) && n <= |text|
    ensures Scan(content + text, |content| + n) == Scanned(Lines(content), text[..n])
  {
    if n == 0 {
      ScanPrefix(content, text, |content|);
      CompleteRest(content);
    } else {
      ScanText(content, text, n - 1);
      assert (content + text)[|content| + n - 1] == text[n - 1];
      assert text[..n] == text[..n - 1] + [text[n - 1]];
    }
  }

  /** A record appended to a complete file is read back as its last line. */
  lemma LinesAppended(content: string, text: string)
    requires Complete(content) && OneLine(text)
    ensures Complete(content + (text + "\n")) && Lines(content + (text + "\n")) == Lines(content) + [text]
  {
    var whole := content + (text + "\n");
    assert whole == content + text + "\n";
    ScanText(content, text, |text|);
    assert text[..|text|] == text;
    ScanPrefix(content + text, "\n", |content + text|);
    assert whole[|whole| - 1] == '\n';
  }

  // --- The records of all segments ---

  function RecordsTo(files: seq<string>, k: nat): seq<string>
    requires k <= |files|
  {
    if k == 0 then [] else RecordsTo(files, k - 1) + Lines(files[k - 1])
  }

  /** Every record of the log, the archives first. */
  function Records(files: seq<string>): seq<string> {
    RecordsTo(files, |files|)
  }

  function SizeTo(files: seq<string>, k: nat): nat
    requires k <= |files|
  {
    if k == 0 then 0 else SizeTo(files, k - 1) + |files[k - 1]|
  }

  lemma {:induction false} PrefixRecords(a: seq<string>, b: seq<string>, k: nat)
    requires k <= |a| && k <= |b| && forall i :: 0 <= i < k ==> a[i] == b[i]
    ensures RecordsTo(a, k) == RecordsTo(b, k) && SizeTo(a, k) == SizeTo(b, k)
  {
    if k > 0 {
      PrefixRecords(a, b, k - 1);
    }
  }

  lemma LastFile(archives: seq<string>, active: string)
    ensures Records(archives + [active]) == Records(archives) + Lines(active)
    ensures SizeTo(archives + [active], |archives| + 1) == SizeTo(archives, |archives|) + |active|
  {
    PrefixRecords(archives, archives + [active], |archives|);
  }

  // --- The index ---

  type Decoder = string -> Option<string>

  /** A scanned line has no carriage return at its end. */
  function WithoutReturn(line: string): string {
    if line != "" && line[|line| - 1] == '\r' then line[..|line| - 1] else line
  }

  const SCAN_BUFFER := 65536

  /** A line and its newline must fit the scanner's buffer. */
  predicate Scannable(line: string, maximum: int) {
    |line| + 1 <= SCAN_BUFFER || |line| <= maximum
  }

  /** The index of the first n lines, unless one is invalid or gives an event a second body. A body stands for its digest. */
  function Indexed(lines: seq<string>, decode: Decoder, maximum: int, n: nat): Option<map<string, string>>
    requires n <= |lines|
  {
    if n == 0 then Some(map[])
    else
      var before := Indexed(lines, decode, maximum, n - 1);
      if before == None then None else WithLine(before.value, lines[n - 1], decode, maximum)
  }

  function WithLine(index: map<string, string>, line: string, decode: Decoder, maximum: int): Option<map<string, string>> {
    var body := WithoutReturn(line);
    if !Scannable(line, maximum) || decode(body) == None then None
    else
      var id := decode(body).value;
      if id in index && index[id] != body then None else Some(index[id := body])
  }

  lemma {:induction false} IndexedPrefix(lines: seq<string>, more: seq<string>, decode: Decoder, maximum: int, n: nat)
    requires n <= |lines|
    ensures Indexed(lines + more, decode, maximum, n) == Indexed(lines, decode, maximum, n)
  {
    if n > 0 {
      IndexedPrefix(lines, more, decode, maximum, n - 1);
    }
  }

  /** Every record decodes, and no two of them are of one event. */
  ghost predicate IdsUnique(records: seq<string>, decode: Decoder) {
    && (forall i :: 0 <= i < |records| ==> decode(records[i]).Some?)
    && (forall i, j :: 0 <= i < j < |records| ==> decode(records[i]) != decode(records[j]))
  }

  /** The index holds exactly the records, each under its event. */
  ghost predicate Agrees(index: map<string, string>, records: seq<string>, decode: Decoder) {
    && (forall i :: 0 <= i < |records| ==> decode(records[i]).Some? && decode(records[i]).value in index
                                           && index[decode(records[i]).value] == records[i])
    && (forall id :: id in index ==> index[id] in records && decode(index[id]) == Some(id))
  }

  ghost predicate RecordsOk(records: seq<string>, maximum: int) {
    forall i :: 0 <= i < |records| ==> OneLine(records[i]) && |records[i]| <= maximum
  }

  /** The rebuilt index of well-formed records of distinct events is the one that agrees with them. */
  lemma {:induction false} RebuiltIndex(records: seq<string>, decode: Decoder, maximum: int, n: nat)
    requires n <= |records| && IdsUnique(records, decode) && RecordsOk(records, maximum)
    ensures Indexed(records, decode, maximum, n).Some?
    ensures Agrees(Indexed(records, decode, maximum, n).value, records[..n], decode)
  {
    if n > 0 {
      RebuiltIndex(records, decode, maximum, n - 1);
      var before := Indexed(records, decode, maximum, n - 1).value;
      var body := records[n - 1];
      FreshLine(before, records[..n - 1], decode, maximum, body);
      assert records[..n] == records[..n - 1] + [body];
    }
  }

  lemma FreshLine(index: map<string, string>, records: seq<string>, decode: Decoder, maximum: int, body: string)
    requires Agrees(index, records, decode) && decode(body).Some? && OneLine(body) && |body| <= maximum
    requires forall i :: 0 <= i < |records| ==> decode(records[i]) != decode(body)
    ensures WithLine(index, body, decode, maximum) == Some(index[decode(body).value := body])
    ensures Agrees(index[decode(body).value := body], records + [body], decode)
  {
    AgreesWithMore(index, records, decode, body);
    assert WithoutReturn(body) == body;
  }

  lemma AgreesWithMore(index: map<string, string>, records: seq<string>, decode: Decoder, body: string)
    requires Agrees(index, records, decode) && decode(body).Some?
    requires forall i :: 0 <= i < |records| ==> decode(records[i]) != decode(body)
    ensures decode(body).value !in index
    ensures Agrees(index[decode(body).value := body], records + [body], decode)
  {
    var id := decode(body).value;
    assert forall record :: record in records ==> decode(record) != decode(body);
    var more := records + [body];
    forall i | 0 <= i < |more|
      ensures decode(more[i]).Some? && decode(more[i]).value in index[id := body] && index[id := body][decode(more[i]).value] == more[i]
    {
      if i < |records| {
        assert more[i] == records[i];
      }
    }
    forall key | key in index[id := body]
      ensures index[id := body][key] in more && decode(index[id := body][key]) == Some(key)
    {
      if key != id {
        assert index[key] in records;
      }
    }
  }

  /** Two indexes that agree with the same records are the same. */
  lemma AgreementIsUnique(a: map<string, string>, b: map<string, string>, records: seq<string>, decode: Decoder)
    requires Agrees(a, records, decode) && Agrees(b, records, decode)
    ensures a == b
  {
    IndexWithin(a, b, records, decode);
    IndexWithin(b, a, records, decode);
  }

  lemma IndexWithin(a: map<string, string>, b: map<string, string>, records: seq<string>, decode: Decoder)
    requires Agrees(a, records, decode) && Agrees(b, records, decode)
    ensures forall id :: id in a ==> id in b && b[id] == a[id]
  {
    forall id | id in a
      ensures id in b && b[id] == a[id]
    {
      var i :| 0 <= i < |records| && records[i] == a[id];
    }
  }

  /** What a restart computes from the records is the index that agrees with them. */
  lemma RebuiltIs(records: seq<string>, decode: Decoder, maximum: int, index: map<string, string>)
    requires IdsUnique(records, decode) && RecordsOk(records, maximum) && Agrees(index, records, decode)
    ensures Indexed(records, decode, maximum, |records|) == Some(index)
  {
    RebuiltIndex(records, decode, maximum, |records|);
    assert records[..|records|] == records;
    AgreementIsUnique(Indexed(records, decode, maximum, |records|).value, index, records, decode);
  }
}
