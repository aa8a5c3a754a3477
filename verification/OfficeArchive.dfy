/**
 The bounded ZIP decoder (`boundedOfficeParts`), proved against a declarative reading of the
 central directory (PKWARE APPNOTE, sections 4.3.7, 4.3.12 and 4.3.16).
 */
module OfficeArchive {
  import opened Outcomes

  type Byte = b: nat | b < 256
  type Bytes = seq<Byte>

  const MAX_EXPANDED: nat := 32 * 1024 * 1024
  const MAX_ENTRIES: nat := 2048
  const MAX_CENTRAL: nat := 1024 * 1024
  const CENTRAL_SIGNATURE: nat := 0x02014b50
  const END_SIGNATURE: nat := 0x06054b50
  const LOCAL_SIGNATURE: nat := 0x04034b50

  /** What the decoder takes from its runtime: UTF-8 conversion and raw inflation. */
  datatype Host = Host(decode: Bytes -> string, encode: string -> Bytes, inflate: Bytes -> Option<Bytes>)

  datatype Error = InvalidWorkbook | ExpandedDataInvalid | DuplicatePart

  datatype Entry = Entry(name: string, content: Bytes)

  function U16(b: Bytes, at: nat): (v: nat)
    requires at + 2 <= |b|
    ensures v < 0x1_0000
  {
    b[at] as int + 0x100 * (b[at + 1] as int)
  }

  function U32(b: Bytes, at: nat): (v: nat)
    requires at + 4 <= |b|
    ensures v < 0x1_0000_0000
  {
    U16(b, at) + 0x1_0000 * U16(b, at + 2)
  }

  function Min(a: nat, b: nat): nat {
    if a < b then a else b
  }

  /** `Buffer.subarray`: both ends are clamped to the buffer. */
  function Subarray(b: Bytes, from: nat, to: nat): Bytes
    requires from <= to
  {
    b[Min(from, |b|)..Min(to, |b|)]
  }

  function InflateRawSync(host: Host, data: Bytes, maxOutputLength: nat): Option<Bytes> {
    match host.inflate(data)
    case None => None
    case Some(out) => if |out| <= maxOutputLength then Some(out) else None
  }

  /** The slash-separated segments of a part name, as `name.split('/')` yields them. */
  function Segments(name: string): (parts: seq<string>)
    ensures |parts| > 0
  {
    if name == "" then [""]
    else
      var rest := Segments(name[1..]);
      if name[0] == '/' then [""] + rest else [[name[0]] + rest[0]] + rest[1..]
  }

  predicate SafeName(name: string) {
    && name != ""
    && '\\' !in name
    && '\0' !in name
    && name[0] != '/'
    && ".." !in Segments(name)
    && "." !in Segments(name)
  }

  // ----- What an archive says, read declaratively -----

  /** An end-of-central-directory record whose comment ends exactly at the end of the file. */
  ghost predicate IsEnd(b: Bytes, e: int) {
    0 <= e && e + 22 <= |b| && U32(b, e) == END_SIGNATURE && e + 22 + U16(b, e + 20) == |b|
  }

  ghost predicate IsLastEnd(b: Bytes, e: int) {
    IsEnd(b, e) && forall later :: later > e ==> !IsEnd(b, later)
  }

  function EntryCount(b: Bytes, end: nat): nat
    requires end + 22 <= |b|
  {
    U16(b, end + 10)
  }

  function CentralSize(b: Bytes, end: nat): nat
    requires end + 22 <= |b|
  {
    U32(b, end + 12)
  }

  function CentralOffset(b: Bytes, end: nat): nat
    requires end + 22 <= |b|
  {
    U32(b, end + 16)
  }

  predicate EndOk(b: Bytes, end: nat, entriesBefore: nat)
    requires end + 22 <= |b|
  {
    && U16(b, end + 4) == 0
    && U16(b, end + 6) == 0
    && U16(b, end + 8) == EntryCount(b, end)
    && EntryCount(b, end) != 0
    && entriesBefore + EntryCount(b, end) <= MAX_ENTRIES
    && CentralSize(b, end) <= MAX_CENTRAL
    && CentralOffset(b, end) + CentralSize(b, end) == end
  }

  function EntryLength(b: Bytes, c: nat): nat
    requires c + 46 <= |b|
  {
    46 + U16(b, c + 28) + U16(b, c + 30) + U16(b, c + 32)
  }

  /** Where the i-th central record starts when the first starts at `start`. */
  ghost function Cursor(b: Bytes, start: nat, i: nat): (c: nat) {
    if i == 0 then start
    else
      var c := Cursor(b, start, i - 1);
      if c + 46 <= |b| then c + EntryLength(b, c) else c
  }

  lemma CursorStep(b: Bytes, start: nat, i: nat)
    requires Cursor(b, start, i) + 46 <= |b|
    ensures Cursor(b, start, i + 1) == Cursor(b, start, i) + EntryLength(b, Cursor(b, start, i))
  {
  }

  ghost function NameAt(host: Host, b: Bytes, c: nat): string
    requires c + 46 <= |b|
  {
    host.decode(Subarray(b, c + 46, c + 46 + U16(b, c + 28)))
  }

  /** Where the data of the local header at `l` starts. */
  ghost function DataOffset(b: Bytes, l: nat): nat
    requires l + 30 <= |b|
  {
    l + 30 + U16(b, l + 26) + U16(b, l + 28)
  }

  /** The central record at `c` and the local header it points at agree and stay in their regions. */
  ghost predicate HeadersOk(host: Host, b: Bytes, c: nat, end: nat, centralOffset: nat)
    requires centralOffset <= end && end <= |b|
  {
    && c + 46 <= end
    && U32(b, c) == CENTRAL_SIGNATURE
    && c + EntryLength(b, c) <= end
    && U16(b, c + 8) % 2 == 0
    && (U16(b, c + 10) == 0 || U16(b, c + 10) == 8)
    && U16(b, c + 34) == 0
    && U32(b, c + 20) != 0xffff_ffff
    && U32(b, c + 24) != 0xffff_ffff
    && var l := U32(b, c + 42);
    && l + 30 <= centralOffset
    && U32(b, l) == LOCAL_SIGNATURE
    && SafeName(NameAt(host, b, c))
    && U16(b, l + 6) == U16(b, c + 8)
    && U16(b, l + 8) == U16(b, c + 10)
    && Subarray(b, l + 30, l + 30 + U16(b, l + 26)) == host.encode(NameAt(host, b, c))
    && DataOffset(b, l) + U32(b, c + 20) <= centralOffset
  }

  /** The bytes the local header designates, inflated when the method is 8. */
  ghost function ContentAt(host: Host, b: Bytes, c: nat, end: nat, centralOffset: nat): Option<Bytes>
    requires centralOffset <= end && end <= |b| && HeadersOk(host, b, c, end, centralOffset)
  {
    var data := DataOffset(b, U32(b, c + 42));
    var slice := b[data..data + U32(b, c + 20)];
    if U16(b, c + 10) == 0 then Some(slice) else host.inflate(slice)
  }

  /** The record at `c` is readable and its content has exactly the declared size. */
  ghost predicate RecordOk(host: Host, b: Bytes, c: nat, end: nat, centralOffset: nat)
    requires centralOffset <= end && end <= |b|
  {
    && HeadersOk(host, b, c, end, centralOffset)
    && var content := ContentAt(host, b, c, end, centralOffset);
    && content.Some?
    && |content.value| == U32(b, c + 24)
  }

  /** The entry the record at `c` stands for, if the record is readable. */
  ghost function RecordAt(host: Host, b: Bytes, c: nat, end: nat, centralOffset: nat): Option<Entry>
    requires centralOffset <= end && end <= |b|
  {
    if RecordOk(host, b, c, end, centralOffset)
    then Some(Entry(NameAt(host, b, c), ContentAt(host, b, c, end, centralOffset).value))
    else None
  }

  /** The i-th record of a directory, if it is readable. */
  type Records = nat -> Option<Entry>

  ghost function RecordsOf(host: Host, b: Bytes, end: nat): Records
    requires end + 22 <= |b| && CentralOffset(b, end) <= end
  {
    (i: nat) => RecordAt(host, b, Cursor(b, CentralOffset(b, end), i), end, CentralOffset(b, end))
  }

  lemma RecordsOfAt(host: Host, b: Bytes, end: nat, i: nat)
    requires end + 22 <= |b| && CentralOffset(b, end) <= end
    ensures RecordsOf(host, b, end)(i)
            == RecordAt(host, b, Cursor(b, CentralOffset(b, end), i), end, CentralOffset(b, end))
  {
  }

  /** Expanded bytes of a list of parts. */
  function Expanded(parts: seq<Entry>): nat {
    if parts == [] then 0 else Expanded(parts[..|parts| - 1]) + |parts[|parts| - 1].content|
  }

  predicate DistinctNames(parts: seq<Entry>) {
    forall i, j :: 0 <= i < j < |parts| ==> parts[i].name != parts[j].name
  }

  /** `parts.has(name)` of the source's map. */
  predicate Has(parts: seq<Entry>, name: string) {
    exists i :: 0 <= i < |parts| && parts[i].name == name
  }

  /** `parts` can be read off the first records, under distinct names and within the budget. */
  ghost predicate Directory(records: Records, bytesBefore: nat, parts: seq<Entry>) {
    && (forall i :: 0 <= i < |parts| ==> records(i) == Some(parts[i]))
    && DistinctNames(parts)
    && bytesBefore + Expanded(parts) <= MAX_EXPANDED
  }

  /** `parts` is the whole content of the archive `b`, and it fits what is left of the budget. */
  ghost predicate Archives(host: Host, b: Bytes, bytesBefore: nat, entriesBefore: nat, parts: seq<Entry>) {
    exists end: nat ::
      && IsLastEnd(b, end)
      && EndOk(b, end, entriesBefore)
      && |parts| == EntryCount(b, end)
      && Directory(RecordsOf(host, b, end), bytesBefore, parts)
      && Cursor(b, CentralOffset(b, end), |parts|) == end
  }

  class Budget {
    var bytes: nat
    var entries: nat

    constructor ()
      ensures bytes == 0 && entries == 0
    {
      bytes, entries := 0, 0;
    }
  }

  lemma ExpandedAppend(parts: seq<Entry>, entry: Entry)
    ensures Expanded(parts + [entry]) == Expanded(parts) + |entry.content|
  {
    assert (parts + [entry])[..|parts|] == parts;
  }

  lemma {:induction false} ExpandedPrefix(parts: seq<Entry>, n: nat)
    requires n <= |parts|
    ensures Expanded(parts[..n]) <= Expanded(parts)
    decreases |parts|
  {
    if n < |parts| {
      assert parts[..|parts| - 1][..n] == parts[..n];
      ExpandedPrefix(parts[..|parts| - 1], n);
    } else {
      assert parts[..n] == parts;
    }
  }

  /** Two readings of a directory agree as far as the shorter one goes. */
  lemma DirectoryUnique(records: Records, bytes: nat, p: seq<Entry>, q: seq<Entry>)
    requires Directory(records, bytes, p) && Directory(records, bytes, q) && |p| <= |q|
    ensures p == q[..|p|]
  {
    forall i | 0 <= i < |p|
      ensures p[i] == q[i]
    {
      assert Some(p[i]) == records(i) == Some(q[i]);
    }
  }

  /** What the next record must satisfy for the reading to go on. */
  ghost predicate Follows(records: Records, bytes: nat, parts: seq<Entry>, entry: Entry) {
    && records(|parts|) == Some(entry)
    && bytes + Expanded(parts) + |entry.content| <= MAX_EXPANDED
    && !Has(parts, entry.name)
  }

  lemma DirectoryStep(records: Records, bytes: nat, parts: seq<Entry>, entry: Entry)
    requires Directory(records, bytes, parts)
    ensures Directory(records, bytes, parts + [entry]) <==> Follows(records, bytes, parts, entry)
  {
    var longer := parts + [entry];
    ExpandedAppend(parts, entry);
    assert longer[..|parts|] == parts && longer[|parts|] == entry;
    if Directory(records, bytes, longer) {
      forall i | 0 <= i < |parts|
        ensures parts[i].name != entry.name
      {
        assert longer[i].name != longer[|parts|].name;
      }
    }
  }

  /** When nothing follows, no longer list can be read off the directory. */
  lemma DirectoryStuck(records: Records, bytes: nat, parts: seq<Entry>, all: seq<Entry>)
    requires Directory(records, bytes, parts) && |parts| < |all|
    requires forall entry :: !Follows(records, bytes, parts, entry)
    ensures !Directory(records, bytes, all)
  {
    if Directory(records, bytes, all) {
      ExpandedPrefix(all, |parts| + 1);
      DirectoryUnique(records, bytes, parts, all);
      assert all[..|parts| + 1] == parts + [all[|parts|]];
      DirectoryStep(records, bytes, parts, all[|parts|]);
    }
  }

  lemma NothingLonger(records: Records, bytes: nat, parts: seq<Entry>, count: nat)
    requires Directory(records, bytes, parts) && |parts| < count
    requires forall entry :: !Follows(records, bytes, parts, entry)
    ensures forall all :: |all| == count ==> !Directory(records, bytes, all)
  {
    forall all: seq<Entry> | |all| == count {
      DirectoryStuck(records, bytes, parts, all);
    }
  }

  /** An archive describes at most one list of parts. */
  lemma ArchivesUnique(host: Host, b: Bytes, bytesBefore: nat, entriesBefore: nat, p: seq<Entry>, q: seq<Entry>)
    requires Archives(host, b, bytesBefore, entriesBefore, p) && Archives(host, b, bytesBefore, entriesBefore, q)
    ensures p == q
  {
    hide RecordsOf, U16, U32;
    var end: nat :| IsLastEnd(b, end);
    ArchivesAtEnd(host, b, bytesBefore, entriesBefore, end, p);
    ArchivesAtEnd(host, b, bytesBefore, entriesBefore, end, q);
    DirectoryUnique(RecordsOf(host, b, end), bytesBefore, p, q);
  }

  lemma ArchivesAtEnd(host: Host, b: Bytes, bytesBefore: nat, entriesBefore: nat, end: nat, parts: seq<Entry>)
    requires IsLastEnd(b, end)
    ensures Archives(host, b, bytesBefore, entriesBefore, parts) <==>
            && EndOk(b, end, entriesBefore)
            && |parts| == EntryCount(b, end)
            && Directory(RecordsOf(host, b, end), bytesBefore, parts)
            && Cursor(b, CentralOffset(b, end), |parts|) == end
  {
    hide RecordsOf, U16, U32;
    if Archives(host, b, bytesBefore, entriesBefore, parts) {
      var e: nat :| && IsLastEnd(b, e) && EndOk(b, e, entriesBefore) && |parts| == EntryCount(b, e)
                    && Directory(RecordsOf(host, b, e), bytesBefore, parts)
                    && Cursor(b, CentralOffset(b, e), |parts|) == e;
      assert e == end;
    }
  }

  /** The backward scan: the last end record, or -1. */
  method FindEnd(b: Bytes) returns (end: int)
    requires |b| >= 22
    ensures end == -1 || IsLastEnd(b, end)
    ensures end == -1 ==> forall e :: !IsEnd(b, e)
  {
    var offset: int := |b| - 22;
    while offset >= 0 && offset >= |b| - 65_557
      invariant offset <= |b| - 22
      invariant forall later :: later > offset ==> !IsEnd(b, later)
    {
      if U32(b, offset) == END_SIGNATURE && offset + 22 + U16(b, offset + 20) == |b| {
        return offset;
      }
      offset := offset - 1;
    }
    return -1;
  }

  /** One directory record: its name and content, or the error the decoder raises. */
  method ReadRecord(host: Host, b: Bytes, cursor: nat, end: nat, centralOffset: nat, expanded: nat)
    returns (r: Result<Entry, Error>, charged: nat)
    requires centralOffset <= cursor && cursor <= end && end + 22 <= |b|
    requires expanded <= MAX_EXPANDED
    ensures r.Ok? <==> && RecordAt(host, b, cursor, end, centralOffset).Some?
                       && expanded + |RecordAt(host, b, cursor, end, centralOffset).value.content| <= MAX_EXPANDED
    ensures r.Ok? ==> RecordAt(host, b, cursor, end, centralOffset) == Some(r.value) && charged == |r.value.content|
    ensures r.Ok? ==> cursor + 46 <= end && cursor + EntryLength(b, cursor) <= end
  {
    hide SafeName, Subarray, U16, U32;
    charged := 0;
    if cursor + 46 > end || U32(b, cursor) != CENTRAL_SIGNATURE {
      return Err(InvalidWorkbook), charged;
    }
    var flags := U16(b, cursor + 8);
    var compression := U16(b, cursor + 10);
    var compressedSize := U32(b, cursor + 20);
    var declaredSize := U32(b, cursor + 24);
    var nameLength := U16(b, cursor + 28);
    var disk := U16(b, cursor + 34);
    var localOffset := U32(b, cursor + 42);
    var name := host.decode(Subarray(b, cursor + 46, cursor + 46 + nameLength));
    if cursor + EntryLength(b, cursor) > end || flags % 2 == 1 || (compression != 0 && compression != 8)
       || disk != 0 || compressedSize == 0xffff_ffff || declaredSize == 0xffff_ffff
       || declaredSize > MAX_EXPANDED - expanded
       || localOffset + 30 > centralOffset || U32(b, localOffset) != LOCAL_SIGNATURE
    {
      return Err(ExpandedDataInvalid), charged;
    }
    var localNameLength := U16(b, localOffset + 26);
    var dataOffset := localOffset + 30 + localNameLength + U16(b, localOffset + 28);
    if !SafeName(name) || U16(b, localOffset + 6) != flags || U16(b, localOffset + 8) != compression
       || Subarray(b, localOffset + 30, localOffset + 30 + localNameLength) != host.encode(name)
       || dataOffset + compressedSize > centralOffset
    {
      return Err(InvalidWorkbook), charged;
    }
    assert HeadersOk(host, b, cursor, end, centralOffset);
    var slice := b[dataOffset..dataOffset + compressedSize];
    var left := MAX_EXPANDED - expanded;
    var content := if compression == 0 then Some(slice) else InflateRawSync(host, slice, if left < 1 then 1 else left);
    if content.None? {
      return Err(ExpandedDataInvalid), charged;
    }
    charged := |content.value|;
    if charged != declaredSize || expanded + charged > MAX_EXPANDED {
      return Err(ExpandedDataInvalid), charged;
    }
    return Ok(Entry(name, content.value)), charged;
  }

  /** The decoder's loop over the `entries` records of the directory that ends at `end`. */
  method ReadDirectory(host: Host, b: Bytes, end: nat, entries: nat, budget: Budget)
    returns (r: Result<seq<Entry>, Error>)
    requires end + 22 <= |b| && CentralOffset(b, end) <= end
    requires budget.bytes <= MAX_EXPANDED
    modifies budget`bytes
    ensures r.Ok? <==> exists parts :: && |parts| == entries
                                       && Directory(RecordsOf(host, b, end), old(budget.bytes), parts)
                                       && Cursor(b, CentralOffset(b, end), |parts|) == end
    ensures r.Ok? ==> |r.value| == entries && Directory(RecordsOf(host, b, end), old(budget.bytes), r.value)
    ensures r.Ok? ==> budget.bytes == old(budget.bytes) + Expanded(r.value)
  {
    ghost var bytes0, records := budget.bytes, RecordsOf(host, b, end);
    var cursor, centralOffset := CentralOffset(b, end), CentralOffset(b, end);
    var parts: seq<Entry> := [];
    assert Directory(records, bytes0, parts) && Expanded(parts) == 0 && Cursor(b, centralOffset, 0) == cursor;
    hide RecordsOf, RecordAt, Directory, Expanded, Cursor, EntryLength, U16, U32;
    while |parts| < entries
      invariant |parts| <= entries
      invariant centralOffset <= cursor <= end && cursor == Cursor(b, centralOffset, |parts|)
      invariant Directory(records, bytes0, parts)
      invariant budget.bytes == bytes0 + Expanded(parts) <= MAX_EXPANDED
    {
      var read, charged := ReadRecord(host, b, cursor, end, centralOffset, budget.bytes);
      budget.bytes := budget.bytes + charged;
      RecordsOfAt(host, b, end, |parts|);
      if read.Err? || Has(parts, read.value.name) {
        assert forall entry :: !Follows(records, bytes0, parts, entry);
        NothingLonger(records, bytes0, parts, entries);
        return Err(if read.Err? then read.error else DuplicatePart);
      }
      DirectoryStep(records, bytes0, parts, read.value);
      ExpandedAppend(parts, read.value);
      CursorStep(b, centralOffset, |parts|);
      parts := parts + [read.value];
      cursor := cursor + EntryLength(b, cursor);
    }
    if cursor != end {
      return Err(InvalidWorkbook);
    }
    return Ok(parts);
  }

  /**
   The decoder. It accepts exactly the archives `Archives` describes, returns the directory's
   entries in order and charges the shared budget with what they hold.
   */
  method BoundedOfficeParts(host: Host, b: Bytes, budget: Budget) returns (r: Result<seq<Entry>, Error>)
    requires budget.bytes <= MAX_EXPANDED
    modifies budget
    ensures r.Ok? <==> exists parts :: Archives(host, b, old(budget.bytes), old(budget.entries), parts)
    ensures r.Ok? ==> Archives(host, b, old(budget.bytes), old(budget.entries), r.value)
    ensures r.Ok? ==> budget.bytes == old(budget.bytes) + Expanded(r.value) <= MAX_EXPANDED
    ensures r.Ok? ==> budget.entries == old(budget.entries) + |r.value| <= MAX_ENTRIES
  {
    hide RecordsOf, U16, U32;
    if |b| < 22 {
      return Err(InvalidWorkbook);
    }
    var end := FindEnd(b);
    if end < 0 {
      return Err(InvalidWorkbook);
    }
    forall parts {
      ArchivesAtEnd(host, b, budget.bytes, budget.entries, end, parts);
    }
    if !EndOk(b, end, budget.entries) {
      return Err(InvalidWorkbook);
    }
    var entries := EntryCount(b, end);
    budget.entries := budget.entries + entries;
    r := ReadDirectory(host, b, end, entries, budget);
  }
}
