/**
 Opening a PPTX (`pptxParts`): the outer archive and every embedded workbook are decoded against
 one shared budget. The XML and name rules are parameters; the nesting and the budget are modelled.
 */
module OfficePresentation {
  import opened Outcomes
  import opened OfficeArchive

  const MAX_PACKAGE: nat := 8_000_000
  const MAX_WORKBOOK: nat := 1_000_000

  /** The rules on names and XML that the source applies to a package. */
  datatype Rules = Rules(
    banned: string -> bool,
    xmlOk: Entry -> bool,
    workbookOk: seq<Entry> -> bool,
    packageOk: seq<Entry> -> bool)

  predicate EndsWith(s: string, suffix: string) {
    |suffix| <= |s| && s[|s| - |suffix|..] == suffix
  }

  predicate Includes(s: string, part: string) {
    exists i {:trigger s[i..]} :: 0 <= i <= |s| - |part| && part <= s[i..]
  }

  /** `^ppt/embeddings/[^/]+\.xlsx$` */
  predicate IsWorkbookName(name: string) {
    var folder := "ppt/embeddings/";
    && |folder| + |".xlsx"| < |name|
    && name[..|folder|] == folder
    && '/' !in name[|folder|..]
    && EndsWith(name, ".xlsx")
  }

  predicate IsFolder(e: Entry) {
    EndsWith(e.name, "/")
  }

  predicate IsEmbedded(e: Entry) {
    !IsFolder(e) && Includes(e.name, "/embeddings/")
  }

  /** What a part must satisfy apart from the workbook it may embed. */
  predicate PartOk(rules: Rules, e: Entry) {
    if IsFolder(e) then e.content == []
    else
      && !rules.banned(e.name)
      && (IsEmbedded(e) ==> IsWorkbookName(e.name) && |e.content| <= MAX_WORKBOOK)
      && rules.xmlOk(e)
  }

  /** What the decoder makes of an archive, given what has been spent: by uniqueness, a function. */
  ghost function Contents(host: Host, b: Bytes, bytes: nat, entries: nat): (r: Option<seq<Entry>>)
    ensures r.Some? ==> Archives(host, b, bytes, entries, r.value)
    ensures r.None? ==> forall parts :: !Archives(host, b, bytes, entries, parts)
  {
    if parts :| Archives(host, b, bytes, entries, parts) then Some(parts) else None
  }

  /**
   The contents of the workbooks embedded in `parts`, each decoded with what the package and the
   earlier workbooks left of the budget; None when a part or a workbook is not acceptable.
   */
  ghost function Workbooks(host: Host, rules: Rules, parts: seq<Entry>, bytes: nat, entries: nat):
      Option<seq<seq<Entry>>> {
    if parts == [] then Some([])
    else if !PartOk(rules, parts[0]) then None
    else if !IsEmbedded(parts[0]) then Workbooks(host, rules, parts[1..], bytes, entries)
    else
      match Contents(host, parts[0].content, bytes, entries)
      case None => None
      case Some(w) =>
        if rules.workbookOk(w)
        then Prepend([w], Workbooks(host, rules, parts[1..], bytes + Expanded(w), entries + |w|))
        else None
  }

  ghost function Prepend(first: seq<seq<Entry>>, rest: Option<seq<seq<Entry>>>): Option<seq<seq<Entry>>> {
    match rest
    case None => None
    case Some(ws) => Some(first + ws)
  }

  ghost function ExpandedAll(workbooks: seq<seq<Entry>>): nat {
    if workbooks == [] then 0 else Expanded(workbooks[0]) + ExpandedAll(workbooks[1..])
  }

  ghost function CountAll(workbooks: seq<seq<Entry>>): nat {
    if workbooks == [] then 0 else |workbooks[0]| + CountAll(workbooks[1..])
  }

  /** `parts` and `workbooks` are all that the package `b` holds, and the rules admit them. */
  ghost predicate Accepted(host: Host, rules: Rules, b: Bytes, parts: seq<Entry>, workbooks: seq<seq<Entry>>) {
    && 0 < |b| <= MAX_PACKAGE
    && Archives(host, b, 0, 0, parts)
    && Workbooks(host, rules, parts, Expanded(parts), |parts|) == Some(workbooks)
    && rules.packageOk(parts)
  }

  lemma ArchivesWithinBudget(host: Host, b: Bytes, bytes: nat, entries: nat, parts: seq<Entry>)
    requires Archives(host, b, bytes, entries, parts)
    ensures bytes + Expanded(parts) <= MAX_EXPANDED && entries + |parts| <= MAX_ENTRIES
  {
    hide RecordsOf, U16, U32, Cursor, DistinctNames;
  }

  lemma {:induction false} WorkbooksWithinBudget(host: Host, rules: Rules, parts: seq<Entry>, bytes: nat, entries: nat)
    requires bytes <= MAX_EXPANDED && entries <= MAX_ENTRIES
    ensures var r := Workbooks(host, rules, parts, bytes, entries);
            r.Some? ==> bytes + ExpandedAll(r.value) <= MAX_EXPANDED && entries + CountAll(r.value) <= MAX_ENTRIES
    decreases |parts|
  {
    hide Archives, Expanded, PartOk, IsEmbedded;
    if parts != [] && Workbooks(host, rules, parts, bytes, entries).Some? {
      if IsEmbedded(parts[0]) {
        var w := Contents(host, parts[0].content, bytes, entries).value;
        ArchivesWithinBudget(host, parts[0].content, bytes, entries, w);
        WorkbooksWithinBudget(host, rules, parts[1..], bytes + Expanded(w), entries + |w|);
        var rest := Workbooks(host, rules, parts[1..], bytes + Expanded(w), entries + |w|).value;
        assert ([w] + rest)[1..] == rest;
      } else {
        WorkbooksWithinBudget(host, rules, parts[1..], bytes, entries);
      }
    }
  }

  /**
   One budget covers everything: the outer package and all its embedded workbooks together stay
   within 32 MiB of expanded bytes and 2048 entries.
   */
  lemma SharedBudget(host: Host, rules: Rules, b: Bytes, parts: seq<Entry>, workbooks: seq<seq<Entry>>)
    requires Accepted(host, rules, b, parts, workbooks)
    ensures Expanded(parts) + ExpandedAll(workbooks) <= MAX_EXPANDED
    ensures |parts| + CountAll(workbooks) <= MAX_ENTRIES
  {
    hide Archives;
    ArchivesWithinBudget(host, b, 0, 0, parts);
    WorkbooksWithinBudget(host, rules, parts, Expanded(parts), |parts|);
  }

  /** The loop over the parts of the package: it decodes every embedded workbook in turn. */
  method CheckParts(host: Host, rules: Rules, parts: seq<Entry>, budget: Budget)
    returns (ok: bool, ghost workbooks: seq<seq<Entry>>)
    requires budget.bytes <= MAX_EXPANDED
    modifies budget
    ensures Workbooks(host, rules, parts, old(budget.bytes), old(budget.entries))
            == if ok then Some(workbooks) else None
  {
    hide Archives, PartOk, IsEmbedded;
    ghost var all := Workbooks(host, rules, parts, budget.bytes, budget.entries);
    workbooks := [];
    assert parts[0..] == parts && (all.Some? ==> workbooks + all.value == all.value);
    var i := 0;
    while i < |parts|
      invariant 0 <= i <= |parts|
      invariant budget.bytes <= MAX_EXPANDED
      invariant all == Prepend(workbooks, Workbooks(host, rules, parts[i..], budget.bytes, budget.entries))
    {
      assert parts[i..][0] == parts[i] && parts[i..][1..] == parts[i + 1..];
      if !PartOk(rules, parts[i]) {
        return false, workbooks;
      }
      if IsEmbedded(parts[i]) {
        ghost var spent, count := budget.bytes, budget.entries;
        var workbook := BoundedOfficeParts(host, parts[i].content, budget);
        ghost var content := Contents(host, parts[i].content, spent, count);
        if workbook.Ok? {
          ArchivesUnique(host, parts[i].content, spent, count, workbook.value, content.value);
        }
        if workbook.Err? || !rules.workbookOk(workbook.value) {
          return false, workbooks;
        }
        ghost var rest := Workbooks(host, rules, parts[i + 1..], budget.bytes, budget.entries);
        assert rest.Some? ==> workbooks + ([workbook.value] + rest.value) == workbooks + [workbook.value] + rest.value;
        workbooks := workbooks + [workbook.value];
      }
      i := i + 1;
    }
    assert workbooks + [] == workbooks;
    return true, workbooks;
  }

  /** `pptxParts`: it accepts exactly the packages `Accepted` describes. */
  method PptxParts(host: Host, rules: Rules, b: Bytes)
    returns (r: Result<seq<Entry>, ()>, ghost workbooks: seq<seq<Entry>>)
    ensures r.Ok? ==> Accepted(host, rules, b, r.value, workbooks)
    ensures r.Ok? <==> exists parts, all :: Accepted(host, rules, b, parts, all)
  {
    hide Archives, Workbooks;
    workbooks := [];
    if |b| == 0 || |b| > MAX_PACKAGE {
      return Err(()), workbooks;
    }
    var budget := new Budget();
    var outer := BoundedOfficeParts(host, b, budget);
    if outer.Err? {
      return Err(()), workbooks;
    }
    var parts := outer.value;
    forall other | Archives(host, b, 0, 0, other)
      ensures other == parts
    {
      ArchivesUnique(host, b, 0, 0, other, parts);
    }
    var ok: bool;
    ok, workbooks := CheckParts(host, rules, parts, budget);
    if !ok || !rules.packageOk(parts) {
      return Err(()), workbooks;
    }
    assert Accepted(host, rules, b, parts, workbooks);
    return Ok(parts), workbooks;
  }
}
