/**
 Text extraction from a Word document (`docxText`): a streaming handler over SAX events, proved to
 compute a recursive traversal of the XML tree.
 */
module OfficeDocument {
  import opened Outcomes

  const MAX_DEPTH: nat := 128
  const MAX_TEXT: nat := 262_144
  const MAX_LINES: nat := 10_000
  const MISSING_PICTURE := "[Ảnh chưa đọc — thiếu nguồn nhúng]"
  const SCOPE_NOTICE := "[Phạm vi: đã đọc nội dung chính; đầu/chân trang và chú thích chưa trích.]"

  /** Tags as the handler tells them apart; the last one is every tag it ignores. */
  datatype Tag =
    | Paragraph
    | Style(value: string)
    | Run
    | Tab
    | Break(page: bool)
    | Table
    | Row
    | Cell
    | Picture(source: string)
    | Other

  /** The children of an XML element, as first child and next sibling. */
  datatype Forest =
    | Nothing
    | Element(tag: Tag, kids: Forest, next: Forest)
    | Chars(value: string, next: Forest)

  datatype Event = Open(tag: Tag) | Close(tag: Tag) | Text(value: string)

  datatype Error = TooDeep | TooLarge | InvalidXml

  /** What the handler takes from its surroundings: white space, the length of a string and the picture labels. */
  datatype Host = Host(blank: char -> bool, byteLength: string -> nat, images: map<string, string>)

  datatype Frame = Frame(table: nat, row: nat, cell: nat)

  /** The variables the SAX callbacks share. */
  datatype State = State(
    paragraph: string, style: string, reading: bool, size: nat, table: nat, row: nat, cell: nat,
    tables: seq<Frame>, lines: seq<string>, depth: nat)

  const START := State("", "", false, 0, 0, 0, 0, [], [], 0)

  /** The events a well-formed tree gives rise to, in document order. */
  function Events(f: Forest): seq<Event> {
    match f
    case Nothing => []
    case Element(tag, kids, next) => [Open(tag)] + Events(kids) + [Close(tag)] + Events(next)
    case Chars(value, next) => [Text(value)] + Events(next)
  }

  function Decimal(n: nat): string {
    var digit := [['0', '1', '2', '3', '4', '5', '6', '7', '8', '9'][n % 10]];
    if n < 10 then digit else Decimal(n / 10) + digit
  }

  function PictureLabel(host: Host, source: string): string {
    if source in host.images then host.images[source] else MISSING_PICTURE
  }

  /** The label of a paragraph: its table position, or else its style. */
  function Label(table: Option<nat>, row: nat, cell: nat, style: string): string {
    match table
    case Some(n) => "[Bảng " + Decimal(n) + " · hàng " + Decimal(row) + " · ô " + Decimal(cell) + "] "
    case None => if style != "" then "[Đề mục " + style + "] " else ""
  }

  function TrimStart(host: Host, text: string): string {
    if text == "" || !host.blank(text[0]) then text else TrimStart(host, text[1..])
  }

  function TrimEnd(host: Host, text: string): string {
    if text == "" || !host.blank(text[|text| - 1]) then text else TrimEnd(host, text[..|text| - 1])
  }

  /** `String.prototype.trim`. */
  function Trim(host: Host, text: string): string {
    TrimEnd(host, TrimStart(host, text))
  }

  // ----- What each callback does to the shared variables -----

  /** The text an empty tag adds to the paragraph being read. */
  function Inline(host: Host, tag: Tag): string {
    match tag
    case Tab => "\t"
    case Break(page) => if page then " [Ngắt trang] " else "\n"
    case Picture(source) => PictureLabel(host, source)
    case _ => ""
  }

  function Opened(host: Host, s: State, tag: Tag): Result<State, Error> {
    if s.depth + 1 > MAX_DEPTH then Err(TooDeep)
    else
      var s := s.(depth := s.depth + 1);
      Ok(match tag
         case Paragraph => s.(paragraph := "", style := "")
         case Style(value) => s.(style := value)
         case Run => s.(reading := true)
         case Table =>
           s.(tables := s.tables + [Frame(s.table + 1, s.row, s.cell)], table := s.table + 1, row := 0, cell := 0)
         case Row => s.(row := s.row + 1, cell := 0)
         case Cell => s.(cell := s.cell + 1)
         case _ => s.(paragraph := s.paragraph + Inline(host, tag)))
  }

  function CurrentTable(s: State): Option<nat> {
    if s.tables == [] then None else Some(s.tables[|s.tables| - 1].table)
  }

  function Emitted(host: Host, s: State, line: string): Result<State, Error> {
    var size := s.size + host.byteLength(line) + 1;
    if size > MAX_TEXT || |s.lines| >= MAX_LINES then Err(TooLarge)
    else Ok(s.(size := size, lines := s.lines + [line]))
  }

  function Closed(host: Host, s: State, tag: Tag): Result<State, Error>
    requires s.depth > 0
  {
    var s := s.(depth := s.depth - 1);
    match tag
    case Run => Ok(s.(reading := false))
    case Paragraph =>
      if Trim(host, s.paragraph) == "" then Ok(s)
      else Emitted(host, s, Label(CurrentTable(s), s.row, s.cell, s.style) + Trim(host, s.paragraph))
    case Table =>
      if s.tables == [] then Err(InvalidXml)
      else
        var parent := s.tables[|s.tables| - 1];
        Ok(s.(tables := s.tables[..|s.tables| - 1], row := parent.row, cell := parent.cell))
    case _ => Ok(s)
  }

  function Read(s: State, value: string): State {
    if s.reading then s.(paragraph := s.paragraph + value) else s
  }

  /** One callback; a close without an open is what the parser calls malformed. */
  function Handled(host: Host, s: State, e: Event): Result<State, Error> {
    match e
    case Open(tag) => Opened(host, s, tag)
    case Close(tag) => if s.depth == 0 then Err(InvalidXml) else Closed(host, s, tag)
    case Text(value) => Ok(Read(s, value))
  }

  function Streamed(host: Host, s: State, events: seq<Event>): Result<State, Error>
    decreases |events|
  {
    if events == [] then Ok(s)
    else
      match Handled(host, s, events[0])
      case Err(e) => Err(e)
      case Ok(t) => Streamed(host, t, events[1..])
  }

  /** The streaming handler with its mutable variables. */
  class Handler {
    const host: Host
    var paragraph: string
    var style: string
    var reading: bool
    var size: nat
    var table: nat
    var row: nat
    var cell: nat
    var tables: seq<Frame>
    var lines: seq<string>
    var depth: nat

    ghost function View(): State
      reads this
    {
      State(paragraph, style, reading, size, table, row, cell, tables, lines, depth)
    }

    constructor (host: Host)
      ensures View() == START && this.host == host
    {
      this.host := host;
      paragraph, style, reading, size := "", "", false, 0;
      table, row, cell, tables, lines, depth := 0, 0, 0, [], [], 0;
    }

    method OnOpen(tag: Tag) returns (o: Outcome<Error>)
      modifies this
      ensures match Opened(host, old(View()), tag)
              case Ok(s) => o.Done? && View() == s
              case Err(e) => o == Raised(e)
    {
      depth := depth + 1;
      if depth > MAX_DEPTH {
        return Raised(TooDeep);
      }
      match tag {
        case Paragraph => paragraph, style := "", "";
        case Style(value) => style := value;
        case Run => reading := true;
        case Tab => paragraph := paragraph + "\t";
        case Break(page) => paragraph := paragraph + if page then " [Ngắt trang] " else "\n";
        case Table =>
          table := table + 1;
          tables := tables + [Frame(table, row, cell)];
          row, cell := 0, 0;
        case Row => row, cell := row + 1, 0;
        case Cell => cell := cell + 1;
        case Picture(source) => paragraph := paragraph + PictureLabel(host, source);
        case Other => paragraph := paragraph + "";
      }
      return Done;
    }

    method Emit(line: string) returns (o: Outcome<Error>)
      modifies this
      ensures match Emitted(host, old(View()), line)
              case Ok(s) => o.Done? && View() == s
              case Err(e) => o == Raised(e)
    {
      size := size + host.byteLength(line) + 1;
      if size > MAX_TEXT || |lines| >= MAX_LINES {
        return Raised(TooLarge);
      }
      lines := lines + [line];
      return Done;
    }

    method OnClose(tag: Tag) returns (o: Outcome<Error>)
      requires depth > 0
      modifies this
      ensures match Closed(host, old(View()), tag)
              case Ok(s) => o.Done? && View() == s
              case Err(e) => o == Raised(e)
    {
      depth := depth - 1;
      match tag {
        case Run => reading := false;
        case Paragraph =>
          var text := Trim(host, paragraph);
          if text != "" {
            var current := if tables == [] then None else Some(tables[|tables| - 1].table);
            o := Emit(Label(current, row, cell, style) + text);
            return;
          }
        case Table =>
          if tables == [] {
            return Raised(InvalidXml);
          }
          var parent := tables[|tables| - 1];
          tables := tables[..|tables| - 1];
          row, cell := parent.row, parent.cell;
        case _ =>
      }
      return Done;
    }

    method OnText(value: string)
      modifies this
      ensures View() == Read(old(View()), value)
    {
      if reading {
        paragraph := paragraph + value;
      }
    }
  }

  // ----- The recursive traversal -----

  /** Where a paragraph stands: its innermost table and the row and cell reached in it. */
  datatype Scope = Scope(table: Option<nat>, row: nat, cell: nat)

  /** Whether characters count after an element: a run that closes ends the reading. */
  function ReadingAfter(tag: Tag, kids: Forest, reading: bool): bool {
    !tag.Run? && ReadingAt(kids, reading)
  }

  function ReadingAt(f: Forest, reading: bool): bool {
    match f
    case Nothing => reading
    case Chars(_, next) => ReadingAt(next, reading)
    case Element(tag, kids, next) => ReadingAt(next, !tag.Run? && ReadingAt(kids, reading))
  }

  /**
   The text held after a forest, `before` having been held: a paragraph that opens starts anew, so this
   is what follows the last paragraph opened. Characters count inside runs.
   */
  function Held(host: Host, f: Forest, before: string, reading: bool): string {
    match f
    case Nothing => before
    case Chars(value, next) => Held(host, next, if reading then before + value else before, reading)
    case Element(tag, kids, next) =>
      var start := if tag.Paragraph? then "" else before + Inline(host, tag);
      Held(host, next, Held(host, kids, start, reading || tag.Run?), ReadingAfter(tag, kids, reading))
  }

  /** The style held after a forest, likewise. */
  function HeldStyle(f: Forest, before: string): string {
    match f
    case Nothing => before
    case Chars(_, next) => HeldStyle(next, before)
    case Element(tag, kids, next) =>
      HeldStyle(next, HeldStyle(kids, if tag.Paragraph? then "" else if tag.Style? then tag.value else before))
  }

  datatype Walked = Walked(lines: seq<string>, scope: Scope, tables: nat)

  /**
   The traversal. Tables are numbered in preorder; a table starts its own rows and cells and leaves
   those around it alone; a paragraph whose held text is not blank yields one line, after those of the
   paragraphs in it, labelled with where it stands.
   */
  function Walk(host: Host, f: Forest, scope: Scope, tables: nat, reading: bool): Walked {
    match f
    case Nothing => Walked([], scope, tables)
    case Chars(_, next) => Walk(host, next, scope, tables, reading)
    case Element(tag, kids, next) =>
      var count := if tag.Table? then tables + 1 else tables;
      var inner := Walk(host, kids, Entered(tag, scope, tables), count, reading || tag.Run?);
      var after := if tag.Table? then scope else inner.scope;
      var line :=
        if tag.Paragraph? then ParagraphLine(host, kids, after, reading) else [];
      var rest := Walk(host, next, after, inner.tables, ReadingAfter(tag, kids, reading));
      Walked(inner.lines + line + rest.lines, rest.scope, rest.tables)
  }

  function Entered(tag: Tag, scope: Scope, tables: nat): Scope {
    match tag
    case Table => Scope(Some(tables + 1), 0, 0)
    case Row => scope.(row := scope.row + 1, cell := 0)
    case Cell => scope.(cell := scope.cell + 1)
    case _ => scope
  }

  function LineOf(host: Host, scope: Scope, style: string, text: string): seq<string> {
    var text := Trim(host, text);
    if text == "" then [] else [Label(scope.table, scope.row, scope.cell, style) + text]
  }

  function ParagraphLine(host: Host, kids: Forest, scope: Scope, reading: bool): seq<string> {
    LineOf(host, scope, HeldStyle(kids, ""), Held(host, kids, "", reading))
  }

  function Depth(f: Forest): nat {
    match f
    case Nothing => 0
    case Chars(_, next) => Depth(next)
    case Element(_, kids, next) => if 1 + Depth(kids) > Depth(next) then 1 + Depth(kids) else Depth(next)
  }

  function TextSize(host: Host, lines: seq<string>): nat {
    if lines == [] then 0
    else TextSize(host, lines[..|lines| - 1]) + host.byteLength(lines[|lines| - 1]) + 1
  }

  predicate WithinLimits(host: Host, lines: seq<string>) {
    TextSize(host, lines) <= MAX_TEXT && |lines| <= MAX_LINES
  }

  // ----- The stream computes the traversal -----

  lemma {:induction false} StreamedAppend(host: Host, s: State, a: seq<Event>, b: seq<Event>)
    ensures Streamed(host, s, a + b)
            == match Streamed(host, s, a)
               case Err(e) => Err(e)
               case Ok(t) => Streamed(host, t, b)
    decreases |a|
  {
    if a == [] {
      assert a + b == b;
    } else {
      assert (a + b)[0] == a[0] && (a + b)[1..] == a[1..] + b;
      match Handled(host, s, a[0])
      case Err(_) =>
      case Ok(t) => StreamedAppend(host, t, a[1..], b);
    }
  }

  function ScopeOf(s: State): Scope {
    Scope(CurrentTable(s), s.row, s.cell)
  }

  /** The state after an element, from the state after its opening tag and its children. */
  lemma StreamedElement(host: Host, s: State, tag: Tag, kids: Forest, next: Forest)
    ensures Streamed(host, s, Events(Element(tag, kids, next)))
            == match Opened(host, s, tag)
               case Err(e) => Err(e)
               case Ok(t) =>
                 match Streamed(host, t, Events(kids))
                 case Err(e) => Err(e)
                 case Ok(u) =>
                   match Handled(host, u, Close(tag))
                   case Err(e) => Err(e)
                   case Ok(v) => Streamed(host, v, Events(next))
  {
    var rest := [Close(tag)] + Events(next);
    assert Events(Element(tag, kids, next)) == [Open(tag)] + (Events(kids) + rest);
    match Opened(host, s, tag)
    case Err(_) =>
    case Ok(t) => StreamedAppend(host, t, Events(kids), rest);
  }

  lemma {:induction false} WalkKeepsTable(host: Host, f: Forest, scope: Scope, tables: nat, reading: bool)
    ensures Walk(host, f, scope, tables, reading).scope.table == scope.table
  {
    match f
    case Nothing =>
    case Chars(_, next) => WalkKeepsTable(host, next, scope, tables, reading);
    case Element(tag, kids, next) =>
      var count := if tag.Table? then tables + 1 else tables;
      var inner := Walk(host, kids, Entered(tag, scope, tables), count, reading || tag.Run?);
      var after := if tag.Table? then scope else inner.scope;
      WalkKeepsTable(host, kids, Entered(tag, scope, tables), count, reading || tag.Run?);
      WalkKeepsTable(host, next, after, inner.tables, ReadingAfter(tag, kids, reading));
  }

  function WalkFrom(host: Host, f: Forest, s: State): Walked {
    Walk(host, f, ScopeOf(s), s.table, s.reading)
  }

  /** The state in which the traversal of `f` leaves the counters and flags. */
  function Advanced(host: Host, f: Forest, s: State): (a: State)
    ensures a.depth == s.depth && a.tables == s.tables && a.lines == s.lines && a.size == s.size
  {
    var w := WalkFrom(host, f, s);
    s.(reading := ReadingAt(f, s.reading), row := w.scope.row, cell := w.scope.cell, table := w.tables)
  }

  /** The same for one element, from before its opening tag to after its closing tag. */
  function AdvancedElement(host: Host, tag: Tag, kids: Forest, s: State): (e: State)
    ensures e.depth == s.depth && e.tables == s.tables && e.lines == s.lines && e.size == s.size
  {
    var k := Advanced(host, kids, Counted(tag, s));
    if tag.Table? then s.(reading := k.reading, table := k.table)
    else s.(reading := !tag.Run? && k.reading, table := k.table, row := k.row, cell := k.cell)
  }

  /** What an opening tag does to the counters and the reading flag. */
  function Counted(tag: Tag, s: State): (c: State)
    ensures c.reading == (s.reading || tag.Run?)
    ensures c.depth == s.depth && c.lines == s.lines && c.size == s.size
  {
    match tag
    case Run => s.(reading := true)
    case Table =>
      s.(tables := s.tables + [Frame(s.table + 1, s.row, s.cell)], table := s.table + 1, row := 0, cell := 0)
    case Row => s.(row := s.row + 1, cell := 0)
    case Cell => s.(cell := s.cell + 1)
    case _ => s
  }

  /** The traversal of an element and its siblings, by parts. */
  lemma WalkElement(host: Host, tag: Tag, kids: Forest, next: Forest, s: State)
    ensures var f, e, t := Element(tag, kids, next), AdvancedElement(host, tag, kids, s), Counted(tag, s);
            && Advanced(host, f, s) == Advanced(host, next, e)
            && WalkFrom(host, f, s).lines
               == WalkFrom(host, kids, t).lines
                  + (if tag.Paragraph? then ParagraphLine(host, kids, ScopeOf(Advanced(host, kids, t)), s.reading)
                     else [])
                  + WalkFrom(host, next, e).lines
  {
    hide ParagraphLine;
    var t := Counted(tag, s);
    CountedScope(tag, s);
    WalkKeepsTable(host, kids, ScopeOf(t), t.table, t.reading);
    assert ScopeOf(AdvancedElement(host, tag, kids, s))
        == if tag.Table? then ScopeOf(s) else WalkFrom(host, kids, t).scope;
    hide Entered, Counted;
  }

  lemma CountedScope(tag: Tag, s: State)
    ensures ScopeOf(Counted(tag, s)) == Entered(tag, ScopeOf(s), s.table)
  {
  }

  /** Closing a tag that is not a paragraph leaves what was collected and restores the counters. */
  lemma ClosedElement(host: Host, tag: Tag, kids: Forest, s: State, t: State, u: State)
    requires !tag.Paragraph? && s.depth < MAX_DEPTH
    requires t == Counted(tag, s)
    requires u == Advanced(host, kids, t).(paragraph := u.paragraph, style := u.style, lines := u.lines, size := u.size,
                                           depth := s.depth + 1)
    ensures Closed(host, u, tag) == Ok(AdvancedElement(host, tag, kids, s).(paragraph := u.paragraph, style := u.style,
                                                                            lines := u.lines, size := u.size))
  {
    hide Walk;
    if tag.Table? {
      assert u.tables[..|u.tables| - 1] == s.tables;
    }
  }

  lemma OpenedCounted(host: Host, s: State, tag: Tag)
    requires s.depth < MAX_DEPTH
    ensures Opened(host, s, tag)
            == Ok(Counted(tag, s).(depth := s.depth + 1,
                                   paragraph := if tag.Paragraph? then "" else s.paragraph + Inline(host, tag),
                                   style := if tag.Paragraph? then "" else if tag.Style? then tag.value else s.style))
  {
    assert s.paragraph + "" == s.paragraph;
  }

  /** The traversal looks at the counters and the reading flag only. */
  lemma AdvancedIgnores(host: Host, f: Forest, s: State, t: State)
    requires t == s.(paragraph := t.paragraph, style := t.style, lines := t.lines, size := t.size, depth := t.depth)
    ensures WalkFrom(host, f, t) == WalkFrom(host, f, s)
    ensures Advanced(host, f, t)
            == Advanced(host, f, s).(paragraph := t.paragraph, style := t.style, lines := t.lines, size := t.size,
                depth := t.depth)
  {
    hide Walk, ReadingAt;
    assert ScopeOf(s) == ScopeOf(t);
  }

  lemma OpenedTooDeep(host: Host, s: State, tag: Tag)
    requires s.depth == MAX_DEPTH
    ensures Opened(host, s, tag) == Err(TooDeep)
  {
  }

  lemma {:induction false} TextSizeAppend(host: Host, a: seq<string>, b: seq<string>)
    ensures TextSize(host, a + b) == TextSize(host, a) + TextSize(host, b)
    decreases |b|
  {
    if b == [] {
      assert a + b == a;
    } else {
      assert (a + b)[..|a + b| - 1] == a + b[..|b| - 1];
      TextSizeAppend(host, a, b[..|b| - 1]);
    }
  }

  lemma TextSizeOne(host: Host, a: seq<string>, line: string)
    ensures TextSize(host, a + [line]) == TextSize(host, a) + host.byteLength(line) + 1
  {
    assert (a + [line])[..|a|] == a;
  }

  /** The state after streaming a forest: the traversal's lines and counters, and what is held. */
  function Reached(host: Host, f: Forest, s: State): State {
    var lines := s.lines + WalkFrom(host, f, s).lines;
    Advanced(host, f, s).(lines := lines, size := TextSize(host, lines),
                          paragraph := Held(host, f, s.paragraph, s.reading), style := HeldStyle(f, s.style))
  }

  /** `r` is what streaming `f` from `s` must give. */
  predicate Computes(host: Host, f: Forest, s: State, r: Result<State, Error>) {
    && (r.Ok? <==> s.depth + Depth(f) <= MAX_DEPTH && WithinLimits(host, s.lines + WalkFrom(host, f, s).lines))
    && (r.Ok? ==> r.value == Reached(host, f, s))
  }

  /** The lines and their size are consistent and within the limits, as is the depth. */
  predicate Consistent(host: Host, s: State) {
    s.size == TextSize(host, s.lines) && WithinLimits(host, s.lines) && s.depth <= MAX_DEPTH
  }

  /** Limits reached by a prefix of the lines stay reached. */
  lemma WithinLimitsPrefix(host: Host, a: seq<string>, b: seq<string>)
    requires WithinLimits(host, a + b)
    ensures WithinLimits(host, a)
  {
    TextSizeAppend(host, a, b);
  }

  /** The lines of one element. */
  function ElementLines(host: Host, tag: Tag, kids: Forest, s: State): seq<string> {
    var t := Counted(tag, s);
    WalkFrom(host, kids, t).lines
    + if tag.Paragraph? then ParagraphLine(host, kids, ScopeOf(Advanced(host, kids, t)), s.reading) else []
  }

  /** What an opening tag leaves held. */
  function Started(host: Host, tag: Tag, before: string): string {
    if tag.Paragraph? then "" else before + Inline(host, tag)
  }

  function StartedStyle(tag: Tag, before: string): string {
    if tag.Paragraph? then "" else if tag.Style? then tag.value else before
  }

  /** The state after one element, from before its opening tag to after its closing tag. */
  function ReachedElement(host: Host, tag: Tag, kids: Forest, s: State): State {
    var lines := s.lines + ElementLines(host, tag, kids, s);
    AdvancedElement(host, tag, kids, s).(
      lines := lines, size := TextSize(host, lines),
      paragraph := Held(host, kids, Started(host, tag, s.paragraph), s.reading || tag.Run?),
      style := HeldStyle(kids, StartedStyle(tag, s.style)))
  }

  /** Streaming the siblings after an element that was streamed as it must be. */
  lemma ComputesNext(host: Host, tag: Tag, kids: Forest, next: Forest, s: State, r: Result<State, Error>)
    requires s.depth + 1 + Depth(kids) <= MAX_DEPTH
    requires Computes(host, next, ReachedElement(host, tag, kids, s), r)
    ensures Computes(host, Element(tag, kids, next), s, r)
  {
    hide Walk, TextSize, AdvancedElement, Advanced, ParagraphLine, Inline;
    var f, v, e := Element(tag, kids, next), ReachedElement(host, tag, kids, s), AdvancedElement(host, tag, kids, s);
    HeldElement(host, tag, kids, next, s);
    hide Held, HeldStyle, ReadingAt;
    AdvancedIgnores(host, next, e, v);
    WalkElement(host, tag, kids, next, s);
    ReadingOfElement(host, tag, kids, s);
    assert v.lines + WalkFrom(host, next, v).lines == s.lines + WalkFrom(host, f, s).lines;
  }

  lemma HeldElement(host: Host, tag: Tag, kids: Forest, next: Forest, s: State)
    ensures Held(host, Element(tag, kids, next), s.paragraph, s.reading)
            == Held(host, next, Held(host, kids, Started(host, tag, s.paragraph), s.reading || tag.Run?),
                ReadingAfter(tag, kids, s.reading))
    ensures HeldStyle(Element(tag, kids, next), s.style) == HeldStyle(next, HeldStyle(kids, StartedStyle(tag, s.style)))
  {
    hide Inline;
  }

  lemma ReadingOfElement(host: Host, tag: Tag, kids: Forest, s: State)
    ensures AdvancedElement(host, tag, kids, s).reading == ReadingAfter(tag, kids, s.reading)
  {
    hide Walk;
  }

  /** A limit reached within an element is reached by the whole. */
  lemma ComputesStop(host: Host, tag: Tag, kids: Forest, next: Forest, s: State, lines: seq<string>, e: Error)
    requires lines <= s.lines + ElementLines(host, tag, kids, s)
    requires s.depth + 1 + Depth(kids) > MAX_DEPTH || !WithinLimits(host, lines)
    ensures Computes(host, Element(tag, kids, next), s, Err(e))
  {
    hide Walk, TextSize, ReadingAt, AdvancedElement, Advanced, ParagraphLine, ElementLines;
    var f := Element(tag, kids, next);
    ElementLinesFirst(host, tag, kids, next, s);
    var all := s.lines + WalkFrom(host, f, s).lines;
    assert all[..|lines|] == lines && all == lines + all[|lines|..];
    if WithinLimits(host, all) {
      WithinLimitsPrefix(host, lines, all[|lines|..]);
    }
  }

  lemma ElementLinesFirst(host: Host, tag: Tag, kids: Forest, next: Forest, s: State)
    ensures s.lines + ElementLines(host, tag, kids, s) <= s.lines + WalkFrom(host, Element(tag, kids, next), s).lines
  {
    hide Walk, ParagraphLine;
    WalkElement(host, tag, kids, next, s);
  }

  /** The stream emits the lines of the traversal and holds its text, or stops at the same limits. */
  lemma {:induction false} StreamComputes(host: Host, f: Forest, s: State)
    requires Consistent(host, s)
    ensures Computes(host, f, s, Streamed(host, s, Events(f)))
    decreases f, 2
  {
    hide ParagraphLine;
    match f
    case Nothing =>
      assert s.lines + [] == s.lines;
    case Chars(value, next) =>
      assert Events(f)[1..] == Events(next);
      AdvancedIgnores(host, next, s, Read(s, value));
      StreamComputes(host, next, Read(s, value));
    case Element(tag, kids, next) =>
      StreamComputesElement(host, tag, kids, next, s);
  }

  lemma {:induction false} StreamComputesElement(host: Host, tag: Tag, kids: Forest, next: Forest, s: State)
    requires Consistent(host, s)
    ensures Computes(host, Element(tag, kids, next), s, Streamed(host, s, Events(Element(tag, kids, next))))
    decreases Element(tag, kids, next), 1
  {
    hide Walk, Events, Streamed, Inline, Opened, Closed, Counted, Advanced, AdvancedElement, ParagraphLine,
      TextSize, ReadingAt, Computes, ElementLines, ReachedElement, Label, Decimal, Held, HeldStyle;
    StreamedElement(host, s, tag, kids, next);
    if s.depth == MAX_DEPTH {
      OpenedTooDeep(host, s, tag);
      ComputesStop(host, tag, kids, next, s, s.lines, TooDeep);
      return;
    }
    OpenedCounted(host, s, tag);
    var u := ElementKids(host, tag, kids, s);
    if u.Err? {
      ComputesStop(host, tag, kids, next, s, s.lines + LinesBefore(host, tag, kids, s), u.error);
      return;
    }
    assert Handled(host, u.value, Close(tag)) == Closed(host, u.value, tag);
    var v := Closed(host, u.value, tag);
    if v.Err? {
      ComputesStop(host, tag, kids, next, s, s.lines + ElementLines(host, tag, kids, s), v.error);
      return;
    }
    StreamComputes(host, next, v.value);
    ComputesNext(host, tag, kids, next, s, Streamed(host, v.value, Events(next)));
  }

  function LinesBefore(host: Host, tag: Tag, kids: Forest, s: State): seq<string> {
    WalkFrom(host, kids, Counted(tag, s)).lines
  }

  /** Closing a paragraph adds its line, if that is within the limits. */
  lemma ClosedParagraph(host: Host, kids: Forest, s: State, u: State)
    requires Consistent(host, s) && s.depth < MAX_DEPTH
    requires u == Reached(host, kids, s.(depth := s.depth + 1, paragraph := "", style := ""))
    requires WithinLimits(host, u.lines)
    ensures var v := Closed(host, u, Paragraph);
            && (v.Ok? <==> WithinLimits(host, s.lines + ElementLines(host, Paragraph, kids, s)))
            && (v.Ok? ==> v.value == ReachedElement(host, Paragraph, kids, s))
  {
    hide Label, Decimal, Walk, Held, HeldStyle, ReadingAt, TextSize, Trim;
    var t := s.(depth := s.depth + 1, paragraph := "", style := "");
    AdvancedIgnores(host, kids, s, t);
    var line := ParagraphLine(host, kids, ScopeOf(Advanced(host, kids, s)), s.reading);
    assert s.lines + ElementLines(host, Paragraph, kids, s) == u.lines + line;
    if line == [] {
      assert u.lines + line == u.lines;
    } else {
      TextSizeOne(host, u.lines, line[0]);
    }
  }

  /** An opening tag, its children and its closing tag give the lines of the element. */
  lemma {:induction false} ElementKids(host: Host, tag: Tag, kids: Forest, s: State) returns (u: Result<State, Error>)
    requires Consistent(host, s) && s.depth < MAX_DEPTH
    ensures var t := Opened(host, s, tag);
            && t.Ok? && t.value.depth == s.depth + 1 && u == Streamed(host, t.value, Events(kids))
    ensures s.lines + LinesBefore(host, tag, kids, s) <= s.lines + ElementLines(host, tag, kids, s)
    ensures u.Err? ==>
            s.depth + 1 + Depth(kids) > MAX_DEPTH || !WithinLimits(host, s.lines + LinesBefore(host, tag, kids, s))
    ensures u.Ok? ==> u.value.depth > 0
    ensures u.Ok? ==>
              var v := Closed(host, u.value, tag);
              && s.depth + 1 + Depth(kids) <= MAX_DEPTH
              && (v.Ok? <==> WithinLimits(host, s.lines + ElementLines(host, tag, kids, s)))
              && (v.Ok? ==> v.value == ReachedElement(host, tag, kids, s) && Consistent(host, v.value))
    decreases kids, 3
  {
    hide Walk, Events, Streamed, Inline, ParagraphLine, TextSize, Held, HeldStyle, ReadingAt, Label, Decimal;
    OpenedCounted(host, s, tag);
    var c, t := Counted(tag, s), Opened(host, s, tag).value;
    u := Streamed(host, t, Events(kids));
    StreamComputes(host, kids, t);
    AdvancedIgnores(host, kids, c, t);
    if u.Ok? {
      if tag.Paragraph? {
        ClosedParagraph(host, kids, s, u.value);
      } else {
        ClosedElement(host, tag, kids, s, c, u.value);
        assert ElementLines(host, tag, kids, s) == LinesBefore(host, tag, kids, s);
      }
    }
  }

  /**
   For every tree, nested paragraphs or not: the table stack is never popped when empty, and the
   stream leaves the stack and the depth as it found them.
   */
  lemma {:induction false} StackDiscipline(host: Host, f: Forest, s: State)
    ensures var r := Streamed(host, s, Events(f));
            && r != Err(InvalidXml)
            && (r.Ok? ==> r.value.tables == s.tables && r.value.depth == s.depth)
    decreases f
  {
    match f
    case Nothing =>
    case Chars(value, next) =>
      assert Events(f)[1..] == Events(next);
      StackDiscipline(host, next, Read(s, value));
    case Element(tag, kids, next) =>
      hide Label, Decimal, Events, Inline, Streamed;
      StreamedElement(host, s, tag, kids, next);
      if Opened(host, s, tag).Ok? {
        var t := Opened(host, s, tag).value;
        StackDiscipline(host, kids, t);
        if Streamed(host, t, Events(kids)).Ok? {
          var u := Streamed(host, t, Events(kids)).value;
          if Closed(host, u, tag).Ok? {
            StackDiscipline(host, next, Closed(host, u, tag).value);
          }
        }
      }
  }

  // ----- The whole extraction -----

  function Join(lines: seq<string>): string {
    if lines == [] then ""
    else if |lines| == 1 then lines[0]
    else Join(lines[..|lines| - 1]) + "\n" + lines[|lines| - 1]
  }

  /** The stream, then the notice about headers and footers when the package has any. */
  function Finished(host: Host, streamed: Result<State, Error>, notice: bool): Result<State, Error> {
    match streamed
    case Err(e) => Err(e)
    case Ok(s) => if notice then Emitted(host, s, SCOPE_NOTICE) else Ok(s)
  }

  method DocxText(host: Host, events: seq<Event>, notice: bool) returns (r: Result<string, Error>)
    ensures match Finished(host, Streamed(host, START, events), notice)
            case Ok(s) => r == Ok(Join(s.lines))
            case Err(e) => r == Err(e)
  {
    hide Opened, Closed, Emitted, Read;
    var handler := new Handler(host);
    var i := 0;
    while i < |events|
      invariant 0 <= i <= |events| && handler.host == host
      invariant Streamed(host, START, events) == Streamed(host, handler.View(), events[i..])
    {
      assert events[i..][0] == events[i] && events[i..][1..] == events[i + 1..];
      var o: Outcome<Error> := Done;
      match events[i] {
        case Open(tag) => o := handler.OnOpen(tag);
        case Close(tag) =>
          if handler.depth == 0 {
            return Err(InvalidXml);
          }
          o := handler.OnClose(tag);
        case Text(value) => handler.OnText(value);
      }
      if o.Raised? {
        return Err(o.error);
      }
      i := i + 1;
    }
    if notice {
      var o := handler.Emit(SCOPE_NOTICE);
      if o.Raised? {
        return Err(o.error);
      }
    }
    return Ok(Join(handler.lines));
  }

  /** The lines the traversal of a document yields, with the notice. */
  function DocumentLines(host: Host, f: Forest, notice: bool): seq<string> {
    Walk(host, f, Scope(None, 0, 0), 0, false).lines + if notice then [SCOPE_NOTICE] else []
  }

  /**
   The extracted text is the traversal. For every tree, the extraction succeeds exactly when the tree is
   at most 128 deep and the lines fit the limits, and its lines are then those of the traversal; the
   table stack ends empty.
   */
  lemma TextIsTraversal(host: Host, f: Forest, notice: bool)
    ensures var r, lines := Finished(host, Streamed(host, START, Events(f)), notice), DocumentLines(host, f, notice);
            && (r.Ok? <==> Depth(f) <= MAX_DEPTH && WithinLimits(host, lines))
            && (r.Ok? ==> r.value.lines == lines && r.value.tables == [])
  {
    hide Walk, Events, Streamed, Held, HeldStyle;
    StreamComputes(host, f, START);
    var walked := WalkFrom(host, f, START).lines;
    assert [] + walked == walked;
    if notice {
      TextSizeOne(host, walked, SCOPE_NOTICE);
    } else {
      assert walked + [] == walked;
    }
  }

  // ----- Paragraphs inside paragraphs -----

  /** All the text of a forest. */
  function TextOf(host: Host, f: Forest, reading: bool): string {
    match f
    case Nothing => ""
    case Chars(value, next) => (if reading then value else "") + TextOf(host, next, reading)
    case Element(tag, kids, next) =>
      Inline(host, tag) + TextOf(host, kids, reading || tag.Run?) + TextOf(host, next, ReadingAfter(tag, kids, reading))
  }

  /** The last style named in a forest. */
  function StyleOf(f: Forest, style: string): string {
    match f
    case Nothing => style
    case Chars(_, next) => StyleOf(next, style)
    case Element(tag, kids, next) => StyleOf(next, StyleOf(kids, if tag.Style? then tag.value else style))
  }

  /** The line of a paragraph that would keep all its text. */
  function WholeLine(host: Host, kids: Forest, scope: Scope, reading: bool): seq<string> {
    LineOf(host, scope, StyleOf(kids, ""), TextOf(host, kids, reading))
  }

  /** The traversal's lines if every paragraph kept all its text. */
  function WholeLines(host: Host, f: Forest, scope: Scope, tables: nat, reading: bool): seq<string> {
    match f
    case Nothing => []
    case Chars(_, next) => WholeLines(host, next, scope, tables, reading)
    case Element(tag, kids, next) =>
      var inside, count := Entered(tag, scope, tables), if tag.Table? then tables + 1 else tables;
      var inner := Walk(host, kids, inside, count, reading || tag.Run?);
      var after := if tag.Table? then scope else inner.scope;
      WholeLines(host, kids, inside, count, reading || tag.Run?)
      + (if tag.Paragraph? then WholeLine(host, kids, after, reading) else [])
      + WholeLines(host, next, after, inner.tables, ReadingAfter(tag, kids, reading))
  }

  /** What is let go while a forest is read: the text held whenever a paragraph opens. */
  function Lost(host: Host, f: Forest, before: string, reading: bool): string {
    match f
    case Nothing => ""
    case Chars(value, next) => Lost(host, next, if reading then before + value else before, reading)
    case Element(tag, kids, next) =>
      var start := if tag.Paragraph? then "" else before + Inline(host, tag);
      (if tag.Paragraph? then before else "") + Lost(host, kids, start, reading || tag.Run?)
      + Lost(host, next, Held(host, kids, start, reading || tag.Run?), ReadingAfter(tag, kids, reading))
  }

  predicate AllBlank(host: Host, text: string) {
    forall c :: c in text ==> host.blank(c)
  }

  /**
   A paragraph whose line is not disturbed by those inside it: no text but white space comes before the
   last of them, and, where the label is the style and there is a line, no style either.
   */
  predicate UndisturbedLine(host: Host, kids: Forest, scope: Scope, reading: bool) {
    && AllBlank(host, Lost(host, kids, "", reading))
    && (scope.table.Some? || Trim(host, Held(host, kids, "", reading)) == ""
        || StyleOf(kids, "") == HeldStyle(kids, ""))
  }

  predicate Undisturbed(host: Host, f: Forest, scope: Scope, tables: nat, reading: bool) {
    match f
    case Nothing => true
    case Chars(_, next) => Undisturbed(host, next, scope, tables, reading)
    case Element(tag, kids, next) =>
      var inside, count := Entered(tag, scope, tables), if tag.Table? then tables + 1 else tables;
      var inner := Walk(host, kids, inside, count, reading || tag.Run?);
      var after := if tag.Table? then scope else inner.scope;
      && Undisturbed(host, kids, inside, count, reading || tag.Run?)
      && (tag.Paragraph? ==> UndisturbedLine(host, kids, after, reading))
      && Undisturbed(host, next, after, inner.tables, ReadingAfter(tag, kids, reading))
  }

  /** Nothing is lost but what is let go. */
  lemma {:induction false} LostAndHeld(host: Host, f: Forest, before: string, reading: bool)
    ensures before + TextOf(host, f, reading) == Lost(host, f, before, reading) + Held(host, f, before, reading)
  {
    hide Inline;
    match f
    case Nothing =>
      assert before + "" == "" + before;
    case Chars(value, next) =>
      var held := if reading then before + value else before;
      LostAndHeld(host, next, held, reading);
      assert before + ((if reading then value else "") + TextOf(host, next, reading))
          == held + TextOf(host, next, reading);
    case Element(tag, kids, next) =>
      var start := if tag.Paragraph? then "" else before + Inline(host, tag);
      var inside, after := reading || tag.Run?, ReadingAfter(tag, kids, reading);
      var held := Held(host, kids, start, inside);
      LostAndHeld(host, kids, start, inside);
      LostAndHeld(host, next, held, after);
      ParagraphsAreBare(host, tag);
      var dropped := if tag.Paragraph? then before else "";
      assert before + Inline(host, tag) == dropped + start by {
        assert before + "" == before && "" + start == start;
      }
      Regroup(before, Inline(host, tag), dropped, start, TextOf(host, kids, inside), Lost(host, kids, start, inside),
          held, TextOf(host, next, after), Lost(host, next, held, after), Held(host, next, held, after));
  }

  lemma Regroup(before: string, inline: string, dropped: string, start: string, first: string, lost: string,
                held: string, rest: string, more: string, end: string)
    requires before + inline == dropped + start && start + first == lost + held && held + rest == more + end
    ensures before + (inline + first + rest) == dropped + lost + more + end
  {
    calc {
      before + (inline + first + rest);
      (before + inline) + (first + rest);
      (dropped + start) + (first + rest);
      dropped + (start + first) + rest;
      dropped + (lost + held) + rest;
      dropped + lost + (held + rest);
      dropped + lost + (more + end);
      dropped + lost + more + end;
    }
  }

  lemma ParagraphsAreBare(host: Host, tag: Tag)
    ensures tag.Paragraph? ==> Inline(host, tag) == ""
  {
  }

  /** The held style is the last one named, or none. */
  lemma {:induction false} HeldStyleIsLast(f: Forest, held: string, last: string)
    requires held == last || held == ""
    ensures HeldStyle(f, held) == StyleOf(f, last) || HeldStyle(f, held) == ""
  {
    match f
    case Nothing =>
    case Chars(_, next) => HeldStyleIsLast(next, held, last);
    case Element(tag, kids, next) =>
      var h := if tag.Paragraph? then "" else if tag.Style? then tag.value else held;
      var l := if tag.Style? then tag.value else last;
      HeldStyleIsLast(kids, h, l);
      HeldStyleIsLast(next, HeldStyle(kids, h), StyleOf(kids, l));
  }

  // ----- White space -----

  lemma {:induction false} TrimStartAppend(host: Host, pre: string, post: string)
    ensures AllBlank(host, pre) ==> TrimStart(host, pre + post) == TrimStart(host, post)
    ensures !AllBlank(host, pre) ==>
            TrimStart(host, pre + post) == TrimStart(host, pre) + post && TrimStart(host, pre) != ""
                                     && !host.blank(TrimStart(host, pre)[0])
    decreases |pre|
  {
    if pre == "" {
      assert pre + post == post;
    } else {
      assert (pre + post)[0] == pre[0] && (pre + post)[1..] == pre[1..] + post;
      assert AllBlank(host, pre) <==> host.blank(pre[0]) && AllBlank(host, pre[1..]) by {
        assert forall c :: c in pre <==> c == pre[0] || c in pre[1..];
      }
      TrimStartAppend(host, pre[1..], post);
    }
  }

  lemma {:induction false} TrimEndAppend(host: Host, pre: string, post: string)
    ensures AllBlank(host, post) ==> TrimEnd(host, pre + post) == TrimEnd(host, pre)
    ensures !AllBlank(host, post) ==> TrimEnd(host, pre + post) == pre + TrimEnd(host, post)
    decreases |post|
  {
    if post == "" {
      assert pre + post == pre;
    } else {
      var n := |post| - 1;
      assert (pre + post)[|pre + post| - 1] == post[n] && (pre + post)[..|pre + post| - 1] == pre + post[..n];
      assert AllBlank(host, post) <==> host.blank(post[n]) && AllBlank(host, post[..n]) by {
        assert forall c :: c in post <==> c == post[n] || c in post[..n];
      }
      TrimEndAppend(host, pre, post[..n]);
    }
  }

  /** Leading white space is cut off, and nothing else. */
  lemma {:induction false} TrimStartCuts(host: Host, text: string) returns (k: nat)
    ensures k <= |text| && TrimStart(host, text) == text[k..] && AllBlank(host, text[..k])
    ensures k == |text| || !host.blank(text[k])
  {
    if text == "" || !host.blank(text[0]) {
      k := 0;
      assert text[0..] == text;
    } else {
      k := TrimStartCuts(host, text[1..]);
      assert text[1..][k..] == text[k + 1..] && text[..k + 1] == [text[0]] + text[1..][..k];
      k := k + 1;
    }
  }

  lemma {:induction false} TrimEndShorter(host: Host, text: string)
    ensures |TrimEnd(host, text)| <= |text|
    ensures text != "" && !host.blank(text[0]) ==> TrimEnd(host, text) != ""
  {
    if text != "" && host.blank(text[|text| - 1]) {
      TrimEndShorter(host, text[..|text| - 1]);
    }
  }

  lemma TrimBlank(host: Host, text: string)
    ensures Trim(host, text) == "" <==> AllBlank(host, text)
  {
    var k := TrimStartCuts(host, text);
    TrimEndShorter(host, text[k..]);
    assert text == text[..k] + text[k..];
    if k == |text| {
      assert text[k..] == "" && text[..k] == text;
    } else {
      assert text[k] in text;
    }
  }

  /** Trimming the end does not look before the last text. */
  lemma TrimAfter(host: Host, start: string, post: string)
    requires start != "" && !host.blank(start[0])
    ensures |TrimEnd(host, start + post)| > |Trim(host, post)|
  {
    TrimEndAppend(host, start, post);
    TrimEndShorter(host, start);
    TrimBlank(host, post);
    if !AllBlank(host, post) {
      var k := TrimStartCuts(host, post);
      var cut, rest := post[..k], post[k..];
      assert post == cut + rest;
      hide AllBlank, TrimStart, TrimEnd;
      BlankParts(host, cut, rest);
      TrimEndAppend(host, cut, rest);
    }
  }

  lemma BlankParts(host: Host, a: string, b: string)
    ensures AllBlank(host, a + b) <==> AllBlank(host, a) && AllBlank(host, b)
  {
    assert forall c :: c in a + b <==> c in a || c in b;
  }

  /** Text before is trimmed away exactly when it is white space; otherwise the result is longer. */
  lemma TrimAppend(host: Host, pre: string, post: string)
    ensures AllBlank(host, pre) ==> Trim(host, pre + post) == Trim(host, post)
    ensures !AllBlank(host, pre) ==> |Trim(host, pre + post)| > |Trim(host, post)|
  {
    TrimStartAppend(host, pre, post);
    if !AllBlank(host, pre) {
      TrimAfter(host, TrimStart(host, pre), post);
    }
  }

  // ----- When nothing is disturbed -----

  lemma SuffixCancels(a: string, b: string, t: string)
    ensures a + t == b + t <==> a == b
  {
    if a + t == b + t {
      assert |a| == |b| && (a + t)[..|a|] == a && (b + t)[..|b|] == b;
    }
  }

  lemma PrefixCancels(t: string, a: string, b: string)
    ensures t + a == t + b <==> a == b
  {
    if t + a == t + b {
      assert (t + a)[|t|..] == a && (t + b)[|t|..] == b;
    }
  }

  lemma LabelOfStyle(row: nat, cell: nat, a: string, b: string)
    ensures Label(None, row, cell, a) == Label(None, row, cell, b) <==> a == b
  {
    PrefixCancels("[Đề mục ", a, b);
    SuffixCancels("[Đề mục " + a, "[Đề mục " + b, "] ");
    assert forall c: string :: c != "" ==> Label(None, row, cell, c) == "[Đề mục " + c + "] ";
  }

  /** One line, with text before that is or is not there. */
  lemma LineExactly(host: Host, scope: Scope, whole: string, held: string, pre: string, post: string)
    requires held == whole || held == ""
    ensures LineOf(host, scope, whole, pre + post) == LineOf(host, scope, held, post) <==>
            AllBlank(host, pre) && (scope.table.Some? || Trim(host, post) == "" || whole == held)
    ensures |LineOf(host, scope, held, post)| <= |LineOf(host, scope, whole, pre + post)|
  {
    TrimAppend(host, pre, post);
    LabelOfStyle(scope.row, scope.cell, whole, held);
    var lw, lh := Label(scope.table, scope.row, scope.cell, whole), Label(scope.table, scope.row, scope.cell, held);
    SuffixCancels(lw, lh, Trim(host, post));
    assert scope.table.Some? ==> lw == lh;
    assert |lh| <= |lw|;
    hide Trim, AllBlank, Decimal;
    if Trim(host, post) != "" && Trim(host, pre + post) != "" {
      assert LineOf(host, scope, whole, pre + post) == [lw + Trim(host, pre + post)];
      assert LineOf(host, scope, held, post) == [lh + Trim(host, post)];
      hide Label, LineOf;
      if !AllBlank(host, pre) {
        assert |lw + Trim(host, pre + post)| > |lh + Trim(host, post)|;
      }
    }
  }

  /** A paragraph's whole line and its line agree exactly when it is undisturbed. */
  lemma ParagraphExactly(host: Host, kids: Forest, scope: Scope, reading: bool)
    ensures WholeLine(host, kids, scope, reading) == ParagraphLine(host, kids, scope, reading)
            <==> UndisturbedLine(host, kids, scope, reading)
    ensures |ParagraphLine(host, kids, scope, reading)| <= |WholeLine(host, kids, scope, reading)|
  {
    LostAndHeld(host, kids, "", reading);
    HeldStyleIsLast(kids, "", "");
    assert "" + TextOf(host, kids, reading) == TextOf(host, kids, reading);
    hide LineOf, AllBlank, Trim, TextOf, Lost, Held, StyleOf, HeldStyle;
    LineExactly(host, scope, StyleOf(kids, ""), HeldStyle(kids, ""), Lost(host, kids, "", reading),
        Held(host, kids, "", reading));
  }

  lemma PartsEqual(a: seq<string>, b: seq<string>, c: seq<string>, x: seq<string>, y: seq<string>, z: seq<string>)
    requires |x| <= |a| && |y| <= |b| && |z| <= |c|
    ensures a + b + c == x + y + z <==> a == x && b == y && c == z
  {
    if a + b + c == x + y + z {
      assert |a + b + c| == |x + y + z|;
      assert (a + b + c)[..|a|] == a && (x + y + z)[..|x|] == x;
      assert (a + b + c)[|a|..|a| + |b|] == b && (x + y + z)[|x|..|x| + |y|] == y;
      assert (a + b + c)[|a| + |b|..] == c && (x + y + z)[|x| + |y|..] == z;
    }
  }

  /**
   The extraction keeps all the text of every paragraph exactly when no paragraph is disturbed by the
   ones inside it.
   */
  lemma {:induction false} WholeLinesExactly(host: Host, f: Forest, scope: Scope, tables: nat, reading: bool)
    ensures WholeLines(host, f, scope, tables, reading) == Walk(host, f, scope, tables, reading).lines
            <==> Undisturbed(host, f, scope, tables, reading)
    ensures |Walk(host, f, scope, tables, reading).lines| <= |WholeLines(host, f, scope, tables, reading)|
  {
    hide WholeLine, ParagraphLine, UndisturbedLine;
    match f
    case Nothing =>
    case Chars(_, next) => WholeLinesExactly(host, next, scope, tables, reading);
    case Element(tag, kids, next) =>
      var inside, count := Entered(tag, scope, tables), if tag.Table? then tables + 1 else tables;
      var inner := Walk(host, kids, inside, count, reading || tag.Run?);
      var after := if tag.Table? then scope else inner.scope;
      var rest := Walk(host, next, after, inner.tables, ReadingAfter(tag, kids, reading));
      WholeLinesExactly(host, kids, inside, count, reading || tag.Run?);
      WholeLinesExactly(host, next, after, inner.tables, ReadingAfter(tag, kids, reading));
      ParagraphExactly(host, kids, after, reading);
      PartsEqual(WholeLines(host, kids, inside, count, reading || tag.Run?),
                 if tag.Paragraph? then WholeLine(host, kids, after, reading) else [],
                 WholeLines(host, next, after, inner.tables, ReadingAfter(tag, kids, reading)),
                 inner.lines,
                 if tag.Paragraph? then ParagraphLine(host, kids, after, reading) else [],
                 rest.lines);
  }

  predicate NoParagraph(f: Forest) {
    match f
    case Nothing => true
    case Chars(_, next) => NoParagraph(next)
    case Element(tag, kids, next) => !tag.Paragraph? && NoParagraph(kids) && NoParagraph(next)
  }

  predicate NoNestedParagraph(f: Forest) {
    match f
    case Nothing => true
    case Chars(_, next) => NoNestedParagraph(next)
    case Element(tag, kids, next) =>
      (if tag.Paragraph? then NoParagraph(kids) else NoNestedParagraph(kids)) && NoNestedParagraph(next)
  }

  lemma {:induction false} NoParagraphLosesNothing(host: Host, f: Forest, before: string, style: string, reading: bool)
    requires NoParagraph(f)
    ensures Lost(host, f, before, reading) == "" && HeldStyle(f, style) == StyleOf(f, style)
  {
    hide Inline;
    match f
    case Nothing =>
    case Chars(value, next) =>
      NoParagraphLosesNothing(host, next, if reading then before + value else before, style, reading);
    case Element(tag, kids, next) =>
      var start, named := before + Inline(host, tag), if tag.Style? then tag.value else style;
      NoParagraphLosesNothing(host, kids, start, named, reading || tag.Run?);
      NoParagraphLosesNothing(host, next, Held(host, kids, start, reading || tag.Run?), HeldStyle(kids, named),
          ReadingAfter(tag, kids, reading));
  }

  /** Without nested paragraphs nothing is disturbed: every paragraph's line holds all its text. */
  lemma {:induction false} UnnestedUndisturbed(host: Host, f: Forest, scope: Scope, tables: nat, reading: bool)
    requires NoNestedParagraph(f) || NoParagraph(f)
    ensures Undisturbed(host, f, scope, tables, reading)
  {
    match f
    case Nothing =>
    case Chars(_, next) => UnnestedUndisturbed(host, next, scope, tables, reading);
    case Element(tag, kids, next) =>
      var inside, count := Entered(tag, scope, tables), if tag.Table? then tables + 1 else tables;
      var inner := Walk(host, kids, inside, count, reading || tag.Run?);
      var after := if tag.Table? then scope else inner.scope;
      if tag.Paragraph? {
        NoParagraphLosesNothing(host, kids, "", "", reading);
      }
      hide Walk, Trim, Lost, Held;
      UnnestedUndisturbed(host, kids, inside, count, reading || tag.Run?);
      UnnestedUndisturbed(host, next, after, inner.tables, ReadingAfter(tag, kids, reading));
  }

  /**
   A paragraph inside a paragraph, as a text box makes: where the outer one has text before it, that is
   lost and the inner text comes twice.
   */
  lemma NestedParagraphRepeats(host: Host, before: string, inside: string)
    requires Trim(host, before) != "" && Trim(host, inside) != ""
    ensures var f := Nested(before, inside);
            && Walk(host, f, Scope(None, 0, 0), 0, false).lines == [Trim(host, inside), Trim(host, inside)]
            && WholeLines(host, f, Scope(None, 0, 0), 0, false) == [Trim(host, inside), Trim(host, before + inside)]
            && !Undisturbed(host, f, Scope(None, 0, 0), 0, false)
  {
    NestedLines(host, before, inside, Scope(None, 0, 0));
    TrimAppend(host, before, inside);
    TrimBlank(host, before);
    hide Trim, AllBlank, Undisturbed, Walk, WholeLines, Nested;
    WholeLinesExactly(host, Nested(before, inside), Scope(None, 0, 0), 0, false);
  }

  lemma NestedLines(host: Host, before: string, inside: string, scope: Scope)
    requires Trim(host, before) != "" && Trim(host, inside) != "" && scope.table.None?
    ensures Walk(host, Nested(before, inside), scope, 0, false).lines == [Trim(host, inside), Trim(host, inside)]
    ensures WholeLines(host, Nested(before, inside), scope, 0, false)
            == [Trim(host, inside), Trim(host, before + inside)]
  {
    TrimAppend(host, before, inside);
    TrimBlank(host, before);
    hide Trim, AllBlank, Walk, WholeLines, Held, TextOf, HeldStyle, StyleOf, ReadingAt;
    var inner := Element(Paragraph, RunOf(inside, Nothing), Nothing);
    InnerParagraph(host, inside, scope, "" + before);
    RunParts(host, before, inner, scope, "");
    OneParagraph(host, RunOf(before, inner), scope, inside, before + inside);
  }

  lemma InnerParagraph(host: Host, inside: string, scope: Scope, text: string)
    requires Trim(host, inside) != "" && scope.table.None?
    ensures var inner := Element(Paragraph, RunOf(inside, Nothing), Nothing);
            && Walk(host, inner, scope, 0, false) == Walked([Trim(host, inside)], scope, 0)
            && WholeLines(host, inner, scope, 0, false) == [Trim(host, inside)]
            && Held(host, inner, text, false) == inside == TextOf(host, inner, false)
            && HeldStyle(inner, "") == "" == StyleOf(inner, "") && !ReadingAt(inner, false)
  {
    EndOfForest(host, scope, inside);
    hide Trim, Walk, WholeLines, Held, TextOf, HeldStyle, StyleOf, ReadingAt;
    var run := RunOf(inside, Nothing);
    RunParts(host, inside, Nothing, scope, "");
    assert "" + inside == inside && inside + "" == inside;
    OneParagraph(host, run, scope, inside, inside);
    assert [] + [Trim(host, inside)] == [Trim(host, inside)];
    HeldAnew(host, run, text);
  }

  lemma EndOfForest(host: Host, scope: Scope, held: string)
    ensures Walk(host, Nothing, scope, 0, false) == Walked([], scope, 0)
            && WholeLines(host, Nothing, scope, 0, false) == []
    ensures Held(host, Nothing, held, false) == held && TextOf(host, Nothing, false) == ""
    ensures HeldStyle(Nothing, "") == "" == StyleOf(Nothing, "") && !ReadingAt(Nothing, false)
  {
  }

  /** A paragraph of one line, whose children name no style and leave the reading off. */
  lemma OneParagraph(host: Host, kids: Forest, scope: Scope, held: string, whole: string)
    requires scope.table.None? && Trim(host, held) != "" && Trim(host, whole) != ""
    requires Held(host, kids, "", false) == held && TextOf(host, kids, false) == whole
    requires HeldStyle(kids, "") == "" == StyleOf(kids, "") && !ReadingAt(kids, false)
    requires Walk(host, kids, scope, 0, false).scope == scope && Walk(host, kids, scope, 0, false).tables == 0
    ensures var p, inner := Element(Paragraph, kids, Nothing), Walk(host, kids, scope, 0, false);
            && Walk(host, p, scope, 0, false) == Walked(inner.lines + [Trim(host, held)], scope, 0)
            && WholeLines(host, p, scope, 0, false) == WholeLines(host, kids, scope, 0, false) + [Trim(host, whole)]
  {
    hide Trim;
    assert Label(None, scope.row, scope.cell, "") == "";
    assert "" + Trim(host, held) == Trim(host, held) && "" + Trim(host, whole) == Trim(host, whole);
    assert ParagraphLine(host, kids, scope, false) == [Trim(host, held)]
        && WholeLine(host, kids, scope, false) == [Trim(host, whole)];
    hide ParagraphLine, WholeLine;
    var inner := Walk(host, kids, scope, 0, false);
    assert inner.lines + [Trim(host, held)] + [] == inner.lines + [Trim(host, held)];
    var lines := WholeLines(host, kids, scope, 0, false);
    assert lines + [Trim(host, whole)] + [] == lines + [Trim(host, whole)];
  }

  /** A paragraph starts anew, whatever was held. */
  lemma HeldAnew(host: Host, kids: Forest, before: string)
    requires !ReadingAt(kids, false)
    ensures var p := Element(Paragraph, kids, Nothing);
            && Held(host, p, before, false) == Held(host, kids, "", false)
            && TextOf(host, p, false) == TextOf(host, kids, false)
            && HeldStyle(p, "") == HeldStyle(kids, "") && StyleOf(p, "") == StyleOf(kids, "")
            && !ReadingAt(p, false)
  {
    assert "" + TextOf(host, kids, false) + "" == TextOf(host, kids, false);
  }

  /** A run is walked without a line; it is held, and read, as its characters. */
  lemma RunParts(host: Host, text: string, next: Forest, scope: Scope, before: string)
    ensures Walk(host, RunOf(text, next), scope, 0, false) == Walk(host, next, scope, 0, false)
    ensures WholeLines(host, RunOf(text, next), scope, 0, false) == WholeLines(host, next, scope, 0, false)
    ensures Held(host, RunOf(text, next), before, false) == Held(host, next, before + text, false)
    ensures TextOf(host, RunOf(text, next), false) == text + TextOf(host, next, false)
    ensures HeldStyle(RunOf(text, next), "") == HeldStyle(next, "")
            && StyleOf(RunOf(text, next), "") == StyleOf(next, "")
    ensures ReadingAt(RunOf(text, next), false) == ReadingAt(next, false)
  {
    hide Trim, Label;
    var chars := Chars(text, Nothing);
    assert Walk(host, chars, scope, 0, true) == Walked([], scope, 0) && WholeLines(host, chars, scope, 0, true) == [];
    assert before + "" == before && Held(host, chars, before, true) == before + text;
    assert TextOf(host, chars, true) == text + "" == text && "" + text == text;
    assert HeldStyle(chars, "") == "" == StyleOf(chars, "");
    assert ReadingAfter(Run, chars, false) == false;
    var rest := Walk(host, next, scope, 0, false);
    assert [] + [] + rest.lines == rest.lines;
    assert [] + [] + WholeLines(host, next, scope, 0, false) == WholeLines(host, next, scope, 0, false);
  }

  function RunOf(text: string, next: Forest): Forest {
    Element(Run, Chars(text, Nothing), next)
  }

  function Nested(before: string, inside: string): Forest {
    Element(Paragraph, RunOf(before, Element(Paragraph, RunOf(inside, Nothing), Nothing)), Nothing)
  }
}
