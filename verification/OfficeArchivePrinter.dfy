/**
 A stored-method ZIP printer (PKWARE APPNOTE, sections 4.3.7, 4.3.12 and 4.3.16) and the proof
 that the bounded decoder inverts it.
 */
module OfficeArchivePrinter {
  import opened Outcomes
  import opened OfficeArchive

  /** A part to store; the decoder never looks at the checksum, so any 32-bit value will do. */
  datatype Part = Part(name: string, content: Bytes, crc: nat)

  function Le16(v: nat): (s: Bytes)
    requires v < 0x1_0000
    ensures |s| == 2 && U16(s, 0) == v
  {
    [v % 0x100, v / 0x100]
  }

  function Le32(v: nat): (s: Bytes)
    requires v < 0x1_0000_0000
    ensures |s| == 4 && U32(s, 0) == v
  {
    Le16(v % 0x1_0000) + Le16(v / 0x1_0000)
  }

  function Zeros(n: nat): (s: Bytes)
    ensures |s| == n && forall i :: 0 <= i < n ==> s[i] == 0
  {
    seq(n, _ => 0)
  }

  /** Section 4.3.7: flags and method 0, no extra field. */
  function LocalHeader(nameLength: nat, size: nat, crc: nat): (h: Bytes)
    requires nameLength < 0x1_0000 && size < 0x1_0000_0000 && crc < 0x1_0000_0000
    ensures |h| == 30
  {
    Le32(LOCAL_SIGNATURE) + Le16(20) + Zeros(8) + Le32(crc) + Le32(size) + Le32(size) + Le16(nameLength) + Zeros(2)
  }

  /** Section 4.3.12: flags and method 0, no extra field, no comment, disk 0. */
  function CentralHeader(nameLength: nat, size: nat, crc: nat, localOffset: nat): (h: Bytes)
    requires nameLength < 0x1_0000 && size < 0x1_0000_0000 && crc < 0x1_0000_0000 && localOffset < 0x1_0000_0000
    ensures |h| == 46
  {
    Le32(CENTRAL_SIGNATURE) + Le16(20) + Le16(20) + Zeros(8) + Le32(crc) + Le32(size) + Le32(size)
    + Le16(nameLength) + Zeros(12) + Le32(localOffset)
  }

  /** Section 4.3.16: one disk, no comment. */
  function EndRecord(count: nat, centralSize: nat, centralOffset: nat): (h: Bytes)
    requires count < 0x1_0000 && centralSize < 0x1_0000_0000 && centralOffset < 0x1_0000_0000
    ensures |h| == 22
  {
    Le32(END_SIGNATURE) + Zeros(4) + Le16(count) + Le16(count) + Le32(centralSize) + Le32(centralOffset) + Zeros(2)
  }

  /** A part that the format can hold and the decoder will accept. */
  predicate Storable(host: Host, p: Part) {
    && SafeName(p.name)
    && host.decode(host.encode(p.name)) == p.name
    && |host.encode(p.name)| < 0x1_0000
    && |p.content| <= MAX_EXPANDED
    && p.crc < 0x1_0000_0000
  }

  predicate AllStorable(host: Host, parts: seq<Part>) {
    forall i :: 0 <= i < |parts| ==> Storable(host, parts[i])
  }

  function Stored(parts: seq<Part>): (r: seq<Entry>)
    ensures |r| == |parts| && forall i :: 0 <= i < |parts| ==> r[i] == Entry(parts[i].name, parts[i].content)
  {
    seq(|parts|, i requires 0 <= i < |parts| => Entry(parts[i].name, parts[i].content))
  }

  function LocalEntry(host: Host, p: Part): (s: Bytes)
    requires Storable(host, p)
    ensures |s| == 30 + |host.encode(p.name)| + |p.content|
  {
    LocalHeader(|host.encode(p.name)|, |p.content|, p.crc) + host.encode(p.name) + p.content
  }

  function CentralEntry(host: Host, p: Part, localOffset: nat): (s: Bytes)
    requires Storable(host, p) && localOffset < 0x1_0000_0000
    ensures |s| == 46 + |host.encode(p.name)|
  {
    CentralHeader(|host.encode(p.name)|, |p.content|, p.crc, localOffset) + host.encode(p.name)
  }

  /** Size of the local entries of the first n parts. */
  function LocalSize(host: Host, parts: seq<Part>, n: nat): (size: nat)
    requires n <= |parts|
  {
    if n == 0 then 0 else LocalSize(host, parts, n - 1) + 30 + |host.encode(parts[n - 1].name)| + |parts[n - 1].content|
  }

  function CentralBytes(host: Host, parts: seq<Part>, n: nat): (size: nat)
    requires n <= |parts|
  {
    if n == 0 then 0 else CentralBytes(host, parts, n - 1) + 46 + |host.encode(parts[n - 1].name)|
  }

  /** The limits of the decoder, stated on the parts. */
  predicate Fits(host: Host, parts: seq<Part>) {
    && 0 < |parts| <= MAX_ENTRIES
    && AllStorable(host, parts)
    && DistinctNames(Stored(parts))
    && Expanded(Stored(parts)) <= MAX_EXPANDED
    && CentralBytes(host, parts, |parts|) <= MAX_CENTRAL
  }

  function Locals(host: Host, parts: seq<Part>, n: nat): (s: Bytes)
    requires n <= |parts| && AllStorable(host, parts)
    ensures |s| == LocalSize(host, parts, n)
  {
    if n == 0 then [] else Locals(host, parts, n - 1) + LocalEntry(host, parts[n - 1])
  }

  function Centrals(host: Host, parts: seq<Part>, n: nat): (s: Bytes)
    requires n <= |parts| && AllStorable(host, parts) && LocalSize(host, parts, n) < 0x1_0000_0000
    ensures |s| == CentralBytes(host, parts, n)
  {
    if n == 0 then []
    else
      Centrals(host, parts, n - 1) + CentralEntry(host, parts[n - 1], LocalSize(host, parts, n - 1))
  }

  lemma LocalSizeMonotone(host: Host, parts: seq<Part>, m: nat, n: nat)
    requires m <= n <= |parts|
    ensures LocalSize(host, parts, m) <= LocalSize(host, parts, n)
  {
  }

  /** The expanded size and the directory size bound the size of the local entries. */
  lemma {:induction false} LocalSizeBound(host: Host, parts: seq<Part>, n: nat)
    requires n <= |parts|
    ensures LocalSize(host, parts, n) <= CentralBytes(host, parts, n) + Expanded(Stored(parts)[..n])
  {
    if n > 0 {
      LocalSizeBound(host, parts, n - 1);
      var all := Stored(parts)[..n];
      assert all[..n - 1] == Stored(parts)[..n - 1];
    }
  }

  function Print(host: Host, parts: seq<Part>): Bytes
    requires Fits(host, parts)
  {
    assert Stored(parts)[..|parts|] == Stored(parts);
    LocalSizeBound(host, parts, |parts|);
    Locals(host, parts, |parts|) + Centrals(host, parts, |parts|)
    + EndRecord(|parts|, CentralBytes(host, parts, |parts|), LocalSize(host, parts, |parts|))
  }

  // ----- Reading the printed fields back -----

  /** `h` occurs in `b` at offset `at`. */
  ghost predicate Occurs(b: Bytes, at: nat, h: Bytes) {
    at + |h| <= |b| && b[at..at + |h|] == h
  }

  lemma OccursIn(b: Bytes, at: nat, h: Bytes, k: nat, g: Bytes)
    requires Occurs(b, at, h) && k + |g| <= |h| && h[k..k + |g|] == g
    ensures Occurs(b, at + k, g)
  {
    forall j | 0 <= j < |g|
      ensures b[at + k + j] == g[j]
    {
      assert b[at..at + |h|][k + j] == h[k..k + |g|][j];
    }
  }

  lemma Read16(b: Bytes, at: nat, v: nat)
    requires v < 0x1_0000 && Occurs(b, at, Le16(v))
    ensures U16(b, at) == v
  {
    var s := b[at..at + 2];
    assert s[0] == b[at] && s[1] == b[at + 1];
  }

  lemma Read32(b: Bytes, at: nat, v: nat)
    requires v < 0x1_0000_0000 && Occurs(b, at, Le32(v))
    ensures U32(b, at) == v
  {
    var s := b[at..at + 4];
    assert s[0] == b[at] && s[1] == b[at + 1] && s[2] == b[at + 2] && s[3] == b[at + 3];
  }

  lemma ReadZero(b: Bytes, at: nat, n: nat, k: nat)
    requires Occurs(b, at, Zeros(n)) && k + 2 <= n
    ensures U16(b, at + k) == 0
  {
    var s := b[at..at + n];
    assert s[k] == b[at + k] && s[k + 1] == b[at + k + 1];
  }

  lemma ReadLocal(b: Bytes, at: nat, nameLength: nat, size: nat, crc: nat)
    requires nameLength < 0x1_0000 && size < 0x1_0000_0000 && crc < 0x1_0000_0000
    requires Occurs(b, at, LocalHeader(nameLength, size, crc))
    ensures U32(b, at) == LOCAL_SIGNATURE && U16(b, at + 6) == 0 && U16(b, at + 8) == 0
    ensures U16(b, at + 26) == nameLength && U16(b, at + 28) == 0
  {
    hide U16, U32, Le16, Le32, Zeros;
    var h := LocalHeader(nameLength, size, crc);
    OccursIn(b, at, h, 0, Le32(LOCAL_SIGNATURE));
    OccursIn(b, at, h, 6, Zeros(8));
    OccursIn(b, at, h, 26, Le16(nameLength));
    OccursIn(b, at, h, 28, Zeros(2));
    Read32(b, at, LOCAL_SIGNATURE);
    ReadZero(b, at + 6, 8, 0);
    ReadZero(b, at + 6, 8, 2);
    Read16(b, at + 26, nameLength);
    ReadZero(b, at + 28, 2, 0);
  }

  lemma ReadCentral(b: Bytes, at: nat, nameLength: nat, size: nat, crc: nat, localOffset: nat)
    requires nameLength < 0x1_0000 && size < 0x1_0000_0000 && crc < 0x1_0000_0000 && localOffset < 0x1_0000_0000
    requires Occurs(b, at, CentralHeader(nameLength, size, crc, localOffset))
    ensures U32(b, at) == CENTRAL_SIGNATURE && U16(b, at + 8) == 0 && U16(b, at + 10) == 0
    ensures U32(b, at + 20) == size && U32(b, at + 24) == size && U16(b, at + 28) == nameLength
    ensures U16(b, at + 30) == 0 && U16(b, at + 32) == 0 && U16(b, at + 34) == 0 && U32(b, at + 42) == localOffset
  {
    hide U16, U32, Le16, Le32, Zeros;
    var h := CentralHeader(nameLength, size, crc, localOffset);
    OccursIn(b, at, h, 0, Le32(CENTRAL_SIGNATURE));
    OccursIn(b, at, h, 8, Zeros(8));
    OccursIn(b, at, h, 20, Le32(size));
    OccursIn(b, at, h, 24, Le32(size));
    OccursIn(b, at, h, 28, Le16(nameLength));
    OccursIn(b, at, h, 30, Zeros(12));
    OccursIn(b, at, h, 42, Le32(localOffset));
    Read32(b, at, CENTRAL_SIGNATURE);
    ReadZero(b, at + 8, 8, 0);
    ReadZero(b, at + 8, 8, 2);
    Read32(b, at + 20, size);
    Read32(b, at + 24, size);
    Read16(b, at + 28, nameLength);
    ReadZero(b, at + 30, 12, 0);
    ReadZero(b, at + 30, 12, 2);
    ReadZero(b, at + 30, 12, 4);
    Read32(b, at + 42, localOffset);
  }

  lemma ReadEnd(b: Bytes, at: nat, count: nat, centralSize: nat, centralOffset: nat)
    requires count < 0x1_0000 && centralSize < 0x1_0000_0000 && centralOffset < 0x1_0000_0000
    requires Occurs(b, at, EndRecord(count, centralSize, centralOffset))
    ensures U32(b, at) == END_SIGNATURE && U16(b, at + 4) == 0 && U16(b, at + 6) == 0
    ensures U16(b, at + 8) == count && U16(b, at + 10) == count
    ensures U32(b, at + 12) == centralSize && U32(b, at + 16) == centralOffset && U16(b, at + 20) == 0
  {
    hide U16, U32, Le16, Le32, Zeros;
    var h := EndRecord(count, centralSize, centralOffset);
    OccursIn(b, at, h, 0, Le32(END_SIGNATURE));
    OccursIn(b, at, h, 4, Zeros(4));
    OccursIn(b, at, h, 8, Le16(count));
    OccursIn(b, at, h, 10, Le16(count));
    OccursIn(b, at, h, 12, Le32(centralSize));
    OccursIn(b, at, h, 16, Le32(centralOffset));
    OccursIn(b, at, h, 20, Zeros(2));
    Read32(b, at, END_SIGNATURE);
    ReadZero(b, at + 4, 4, 0);
    ReadZero(b, at + 4, 4, 2);
    Read16(b, at + 8, count);
    Read16(b, at + 10, count);
    Read32(b, at + 12, centralSize);
    Read32(b, at + 16, centralOffset);
    ReadZero(b, at + 20, 2, 0);
  }

  // ----- Where things are -----

  lemma {:induction false} LocalOccurs(host: Host, parts: seq<Part>, n: nat, i: nat)
    requires i < n <= |parts| && AllStorable(host, parts)
    ensures Occurs(Locals(host, parts, n), LocalSize(host, parts, i), LocalEntry(host, parts[i]))
    decreases n
  {
    hide LocalEntry, Storable;
    if i < n - 1 {
      LocalOccurs(host, parts, n - 1, i);
      OccursPrefix(Locals(host, parts, n - 1), LocalEntry(host, parts[n - 1]), LocalSize(host, parts, i),
          LocalEntry(host, parts[i]));
    }
  }

  lemma {:induction false} CentralOccurs(host: Host, parts: seq<Part>, n: nat, i: nat)
    requires i < n <= |parts| && AllStorable(host, parts) && LocalSize(host, parts, n) < 0x1_0000_0000
    ensures LocalSize(host, parts, i) < 0x1_0000_0000
    ensures Occurs(Centrals(host, parts, n), CentralBytes(host, parts, i),
                   CentralEntry(host, parts[i], LocalSize(host, parts, i)))
    decreases n
  {
    hide CentralEntry, Storable;
    LocalSizeMonotone(host, parts, i, n);
    if i < n - 1 {
      CentralOccurs(host, parts, n - 1, i);
      OccursPrefix(Centrals(host, parts, n - 1), CentralEntry(host, parts[n - 1], LocalSize(host, parts, n - 1)),
                   CentralBytes(host, parts, i), CentralEntry(host, parts[i], LocalSize(host, parts, i)));
    }
  }

  lemma OccursPrefix(a: Bytes, rest: Bytes, at: nat, h: Bytes)
    requires Occurs(a, at, h)
    ensures Occurs(a + rest, at, h)
  {
    assert (a + rest)[at..at + |h|] == a[at..at + |h|];
  }

  lemma OccursSuffix(pre: Bytes, a: Bytes, at: nat, h: Bytes)
    requires Occurs(a, at, h)
    ensures Occurs(pre + a, |pre| + at, h)
  {
    assert (pre + a)[|pre| + at..|pre| + at + |h|] == a[at..at + |h|];
  }

  /** The i-th headers, name and content, at their places in the printed archive. */
  lemma PrintedAt(host: Host, parts: seq<Part>, i: nat)
    requires Fits(host, parts) && i < |parts|
    ensures Storable(host, parts[i])
    ensures LocalSize(host, parts, i) + 30 + |host.encode(parts[i].name)| + |parts[i].content|
            <= LocalSize(host, parts, |parts|) < 0x1_0000_0000
    ensures Occurs(Print(host, parts), LocalSize(host, parts, i), LocalEntry(host, parts[i]))
    ensures Occurs(Print(host, parts), LocalSize(host, parts, |parts|) + CentralBytes(host, parts, i),
                   CentralEntry(host, parts[i], LocalSize(host, parts, i)))
  {
    hide Storable, LocalEntry, CentralEntry, EndRecord, Locals, Centrals, Expanded, CentralBytes, DistinctNames;
    var n := |parts|;
    assert Stored(parts)[..n] == Stored(parts);
    LocalSizeBound(host, parts, n);
    LocalSizeMonotone(host, parts, i + 1, n);
    LocalOccurs(host, parts, n, i);
    CentralOccurs(host, parts, n, i);
    var locals, centrals := Locals(host, parts, n), Centrals(host, parts, n);
    var end := EndRecord(n, CentralBytes(host, parts, n), LocalSize(host, parts, n));
    OccursPrefix(locals, centrals, LocalSize(host, parts, i), LocalEntry(host, parts[i]));
    OccursPrefix(locals + centrals, end, LocalSize(host, parts, i), LocalEntry(host, parts[i]));
    OccursSuffix(locals, centrals, CentralBytes(host, parts, i),
        CentralEntry(host, parts[i], LocalSize(host, parts, i)));
    OccursPrefix(locals + centrals, end, |locals| + CentralBytes(host, parts, i),
                 CentralEntry(host, parts[i], LocalSize(host, parts, i)));
  }

  lemma OccursSubarray(b: Bytes, at: nat, h: Bytes)
    requires Occurs(b, at, h)
    ensures Subarray(b, at, at + |h|) == h
  {
  }

  /** Headers laid out as the printer does, wherever they are, read back as the stored part. */
  lemma LaidOut(host: Host, b: Bytes, p: Part, c: nat, end: nat, offset: nat, l: nat)
    requires Storable(host, p) && l < 0x1_0000_0000 && c <= end && offset <= end <= |b|
    requires Occurs(b, l, LocalEntry(host, p)) && Occurs(b, c, CentralEntry(host, p, l))
    requires l + 30 + |host.encode(p.name)| + |p.content| <= offset && c + 46 + |host.encode(p.name)| <= end
    ensures EntryLength(b, c) == 46 + |host.encode(p.name)|
    ensures RecordAt(host, b, c, end, offset) == Some(Entry(p.name, p.content))
  {
    hide U16, U32, LocalHeader, CentralHeader, Subarray, SafeName;
    var name := host.encode(p.name);
    OccursIn(b, l, LocalEntry(host, p), 0, LocalHeader(|name|, |p.content|, p.crc));
    OccursIn(b, l, LocalEntry(host, p), 30, name);
    OccursIn(b, l, LocalEntry(host, p), 30 + |name|, p.content);
    OccursIn(b, c, CentralEntry(host, p, l), 0, CentralHeader(|name|, |p.content|, p.crc, l));
    OccursIn(b, c, CentralEntry(host, p, l), 46, name);
    hide LocalEntry, CentralEntry;
    ReadLocal(b, l, |name|, |p.content|, p.crc);
    ReadCentral(b, c, |name|, |p.content|, p.crc, l);
    OccursSubarray(b, c + 46, name);
    OccursSubarray(b, l + 30, name);
    assert HeadersOk(host, b, c, end, offset);
    assert ContentAt(host, b, c, end, offset) == Some(p.content);
  }

  /** The decoder's reading of the i-th printed record is the i-th part. */
  lemma PrintedRecord(host: Host, parts: seq<Part>, i: nat)
    requires Fits(host, parts) && i < |parts|
    ensures var b, offset := Print(host, parts), LocalSize(host, parts, |parts|);
            var c, end := offset + CentralBytes(host, parts, i), offset + CentralBytes(host, parts, |parts|);
            && c + 46 <= end <= |b|
            && EntryLength(b, c) == 46 + |host.encode(parts[i].name)|
            && RecordAt(host, b, c, end, offset) == Some(Entry(parts[i].name, parts[i].content))
  {
    hide Print, LocalEntry, CentralEntry, RecordAt, EntryLength, Storable, Fits, LocalSize;
    PrintedAt(host, parts, i);
    PrintedSize(host, parts);
    CentralBytesMonotone(host, parts, i + 1, |parts|);
    var offset := LocalSize(host, parts, |parts|);
    LaidOut(host, Print(host, parts), parts[i], offset + CentralBytes(host, parts, i),
            offset + CentralBytes(host, parts, |parts|), offset, LocalSize(host, parts, i));
  }

  lemma CentralBytesMonotone(host: Host, parts: seq<Part>, m: nat, n: nat)
    requires m <= n <= |parts|
    ensures CentralBytes(host, parts, m) <= CentralBytes(host, parts, n)
  {
  }

  lemma PrintedSize(host: Host, parts: seq<Part>)
    requires Fits(host, parts)
    ensures |Print(host, parts)| == LocalSize(host, parts, |parts|) + CentralBytes(host, parts, |parts|) + 22
  {
    assert Stored(parts)[..|parts|] == Stored(parts);
    LocalSizeBound(host, parts, |parts|);
  }

  lemma PrintedLength(host: Host, parts: seq<Part>, i: nat)
    requires Fits(host, parts) && i < |parts|
    ensures var b, c := Print(host, parts), LocalSize(host, parts, |parts|) + CentralBytes(host, parts, i);
            c + 46 <= |b| && EntryLength(b, c) == 46 + |host.encode(parts[i].name)|
  {
    hide *;
    PrintedRecord(host, parts, i);
  }

  lemma {:induction false} PrintedCursor(host: Host, parts: seq<Part>, i: nat)
    requires Fits(host, parts) && i <= |parts|
    ensures Cursor(Print(host, parts), LocalSize(host, parts, |parts|), i)
            == LocalSize(host, parts, |parts|) + CentralBytes(host, parts, i)
  {
    if i > 0 {
      hide Print, Fits, EntryLength, LocalSize, Cursor;
      PrintedCursor(host, parts, i - 1);
      PrintedLength(host, parts, i - 1);
      CursorStep(Print(host, parts), LocalSize(host, parts, |parts|), i - 1);
    } else {
      hide Print, Fits;
    }
  }

  lemma PrintedEnd(host: Host, parts: seq<Part>)
    requires Fits(host, parts)
    ensures var b, end := Print(host, parts), LocalSize(host, parts, |parts|) + CentralBytes(host, parts, |parts|);
            && end + 22 == |b|
            && IsLastEnd(b, end)
            && EndOk(b, end, 0)
            && EntryCount(b, end) == |parts|
            && CentralOffset(b, end) == LocalSize(host, parts, |parts|)
  {
    hide U16, U32, EndRecord;
    var n, b := |parts|, Print(host, parts);
    assert Stored(parts)[..n] == Stored(parts);
    LocalSizeBound(host, parts, n);
    var size, offset := CentralBytes(host, parts, n), LocalSize(host, parts, n);
    var body, record := Locals(host, parts, n) + Centrals(host, parts, n), EndRecord(n, size, offset);
    assert b == body + record;
    OccursSuffix(body, record, 0, record);
    ReadEnd(b, offset + size, n, size, offset);
  }

  /**
   The round trip: whatever storable parts are printed, within the decoder's limits, the archive
   describes exactly those parts in their order, and no other list.
   */
  lemma RoundTrip(host: Host, parts: seq<Part>)
    requires Fits(host, parts)
    ensures forall decoded :: Archives(host, Print(host, parts), 0, 0, decoded) <==> decoded == Stored(parts)
  {
    hide Print, RecordAt, U16, U32, IsLastEnd, EndOk, Storable, Cursor;
    var b, end := Print(host, parts), LocalSize(host, parts, |parts|) + CentralBytes(host, parts, |parts|);
    PrintedEnd(host, parts);
    PrintedCursor(host, parts, |parts|);
    forall i | 0 <= i < |parts|
      ensures RecordsOf(host, b, end)(i) == Some(Stored(parts)[i])
    {
      PrintedCursor(host, parts, i);
      PrintedRecord(host, parts, i);
    }
    assert Directory(RecordsOf(host, b, end), 0, Stored(parts));
    ArchivesAtEnd(host, b, 0, 0, end, Stored(parts));
    forall decoded | Archives(host, b, 0, 0, decoded)
      ensures decoded == Stored(parts)
    {
      ArchivesUnique(host, b, 0, 0, decoded, Stored(parts));
    }
  }
}
