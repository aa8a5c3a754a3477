/**
 Admission at the edge (`edge.ts`) and at the API (`deployment-admission.ts`) while a release is being
 switched: what the gate lets through, and what the edge's count of requests in flight certifies.
 */
module EdgeAdmission {
  import opened Outcomes

  // ----- Paths -----

  /** A request target's path: the pieces between slashes, as sent, after the leading slash. */
  type Path = seq<string>

  /**
   A request target; `hostOk`: if the URL parser takes a part of it for an authority, that is a valid
   one.
   */
  datatype Target = Target(path: Path, hostOk: bool)

  predicate SingleDot(s: string) {
    s == "." || s == "%2e" || s == "%2E"
  }

  predicate DoubleDot(s: string) {
    s == ".." || s == ".%2e" || s == ".%2E" || s == "%2e." || s == "%2E."
    || s == "%2e%2e" || s == "%2E%2e" || s == "%2e%2E" || s == "%2E%2E"
  }

  /** One piece split again at its backslashes, which the URL parser takes for slashes. */
  function Split(piece: string, start: string): (r: Path)
    ensures '\\' !in piece ==> r == [start + piece]
    decreases |piece|
  {
    if piece == "" then
      assert start + piece == start;
      [start]
    else if piece[0] == '\\' then [start] + Split(piece[1..], "")
    else
      assert start + [piece[0]] + piece[1..] == start + piece;
      Split(piece[1..], start + [piece[0]])
  }

  function Pieces(path: Path): Path {
    if path == [] then [] else Split(path[0], "") + Pieces(path[1..])
  }

  /** Dot pieces are resolved from the left; `before` is what has been kept. */
  function Resolve(path: Path, before: Path): Path
    decreases |path|
  {
    if path == [] then before
    else
      var closing := if |path| == 1 then [""] else [];
      if DoubleDot(path[0]) then
        Resolve(path[1..], (if before == [] then [] else before[..|before| - 1]) + closing)
      else if SingleDot(path[0]) then
        Resolve(path[1..], before + closing)
      else
        Resolve(path[1..], before + [path[0]])
  }

  function SkipSlashes(pieces: Path): Path {
    if pieces == [] || pieces[0] != "" then pieces else SkipSlashes(pieces[1..])
  }

  /**
   The `pathname` of the parsed target, None where parsing raises. After two slashes or more comes an
   authority, which is no part of it.
   */
  function Pathname(target: Target): Option<Path> {
    var pieces := Pieces(target.path);
    if |pieces| > 1 && pieces[0] == "" then
      var rest := SkipSlashes(pieces);
      if rest == [] || !target.hostOk then None
      else Some(if |rest| == 1 then [""] else Resolve(rest[1..], []))
    else
      Some(Resolve(pieces, []))
  }

  predicate Backslashed(path: Path) {
    exists s :: s in path && '\\' in s
  }

  predicate Dotted(path: Path) {
    exists s :: s in path && (SingleDot(s) || DoubleDot(s))
  }

  /** A path that parsing leaves as it was sent: one leading slash, no dot pieces, no backslashes. */
  predicate Normal(path: Path) {
    !Backslashed(path) && !Dotted(path) && !(|path| > 1 && path[0] == "")
  }

  lemma {:induction false} UnsplitPieces(path: Path)
    requires !Backslashed(path)
    ensures Pieces(path) == path
  {
    if path != [] {
      assert path[0] in path && forall s :: s in path[1..] ==> s in path;
      UnsplitPieces(path[1..]);
      assert "" + path[0] == path[0];
    }
  }

  lemma {:induction false} UndottedResolves(path: Path, before: Path)
    requires !Dotted(path)
    ensures Resolve(path, before) == before + path
    decreases |path|
  {
    if path == [] {
      assert before + path == before;
    } else {
      assert path[0] in path && forall s :: s in path[1..] ==> s in path;
      UndottedResolves(path[1..], before + [path[0]]);
      assert before + [path[0]] + path[1..] == before + path;
    }
  }

  lemma NormalPathname(target: Target)
    requires Normal(target.path)
    ensures Pathname(target) == Some(target.path)
  {
    UnsplitPieces(target.path);
    UndottedResolves(target.path, []);
    assert [] + target.path == target.path;
  }

  /** Resolving a dot piece shortens a path and leaves its last piece. */
  lemma {:induction false} DottedShrinks(path: Path, before: Path)
    requires path != [] && !SingleDot(path[|path| - 1]) && !DoubleDot(path[|path| - 1])
    ensures var r := Resolve(path, before);
            && 0 < |r| <= |before| + |path| && r[|r| - 1] == path[|path| - 1]
            && (Dotted(path) ==> |r| < |before| + |path|)
    decreases |path|
  {
    var next :=
      if DoubleDot(path[0]) then if before == [] then [] else before[..|before| - 1]
      else if SingleDot(path[0]) then before
      else before + [path[0]];
    if |path| == 1 {
      assert Resolve(path[1..], next) == next;
      assert path == [path[0]];
    } else {
      assert Dotted(path) ==> SingleDot(path[0]) || DoubleDot(path[0]) || Dotted(path[1..]);
      assert next + [] == next;
      DottedShrinks(path[1..], next);
    }
  }

  // ----- What is let through -----

  /** The gate file: absent, readable, or in the middle of being replaced. */
  datatype GateFile = Absent | Content(text: string) | Unreadable

  datatype Admission = Open | Drain | Closed

  predicate Read(verb: string) {
    verb == "GET" || verb == "HEAD" || verb == "OPTIONS"
  }

  predicate AnswerCancel(path: Path) {
    && |path| == 10
    && path[..4] == ["api", "v1", "project-chat", "projects"] && path[4] != ""
    && path[5..7] == ["ai", "answers"] && path[7] != ""
    && path[8..] == ["mcp", "cancel"]
  }

  predicate UploadEnd(path: Path) {
    && |path| == 5
    && path[..3] == ["api", "v1", "uploads"] && path[3] != ""
    && (path[4] == "parts" || path[4] == "complete" || path[4] == "abort")
  }

  predicate Continuation(verb: string, path: Path) {
    || path == ["mcp"]
    || (verb == "POST" && (path == ["mcp", "oauth", "token"] || AnswerCancel(path)))
    || UploadEnd(path)
  }

  predicate HealthProbe(path: Path) {
    path == ["api", "v1", "health"] || path == ["api", "v1", "ready"]
  }

  /** The edge's `admission`. */
  function EdgeState(gate: GateFile): Admission {
    match gate
    case Absent => Open
    case Content(text) => if text == "drain" then Drain else Closed
    case Unreadable => Closed
  }

  /** The edge decides on the parsed path; where parsing raises, nothing is let through. */
  predicate EdgeAdmits(gate: GateFile, verb: string, target: Target) {
    && Pathname(target).Some?
    && match EdgeState(gate)
       case Open => true
       case Drain => Read(verb) || Continuation(verb, Pathname(target).value)
       case Closed => false
  }

  /** The API decides on the path as sent, and always answers its probes. */
  predicate ApiAdmits(gate: GateFile, verb: string, target: Target) {
    || gate.Absent?
    || HealthProbe(target.path)
    || (gate == Content("drain") && (Read(verb) || Continuation(verb, target.path)))
  }

  /**
   For a normal path, what the edge lets through the API lets through, and the API lets through nothing
   else but its probes.
   */
  lemma EdgeWithinApi(gate: GateFile, verb: string, target: Target)
    requires Normal(target.path)
    ensures EdgeAdmits(gate, verb, target) ==> ApiAdmits(gate, verb, target)
    ensures ApiAdmits(gate, verb, target) ==> EdgeAdmits(gate, verb, target) || HealthProbe(target.path)
  {
    NormalPathname(target);
    hide Continuation, Pathname;
  }

  /** The exempt paths by their length and last piece. */
  lemma ExemptShapes(verb: string, path: Path)
    requires Continuation(verb, path)
    ensures var last := path[|path| - 1];
            || path == ["mcp"]
            || path == ["mcp", "oauth", "token"]
            || (|path| == 5 && (last == "parts" || last == "complete" || last == "abort"))
            || (|path| == 10 && last == "cancel" && path[0] == "api")
    ensures path[0] == "mcp" || path[0] == "api"
  {
  }

  lemma McpIsNormal(path: Path)
    requires path == ["mcp"] || path == ["mcp", "oauth", "token"]
    ensures Normal(path)
  {
  }

  /** Without backslashes, no path is exempt both as sent and, changed by parsing, as parsed. */
  lemma ExemptOnce(verb: string, target: Target)
    requires !Backslashed(target.path) && !Normal(target.path)
    requires Continuation(verb, target.path) && Pathname(target).Some?
    ensures !Continuation(verb, Pathname(target).value)
  {
    var path := target.path;
    UnsplitPieces(path);
    ExemptShapes(verb, path);
    if path == ["mcp"] || path == ["mcp", "oauth", "token"] {
      McpIsNormal(path);
    }
    assert Dotted(path) && Pathname(target).value == Resolve(path, []);
    hide Continuation, Pathname, Normal, Dotted, Resolve, Pieces, Backslashed;
    DottedShrinks(path, []);
    if Continuation(verb, Resolve(path, [])) {
      ExemptShapes(verb, Resolve(path, []));
    }
  }

  /**
   The edge lets through a request that the API refuses exactly when, while draining, a write is exempt
   as parsed and its path is not sent in normal form; with backslashes, that form may be exempt too.
   */
  lemma EdgeBeyondApiExactly(gate: GateFile, verb: string, target: Target)
    ensures EdgeAdmits(gate, verb, target) && !ApiAdmits(gate, verb, target) <==>
            && gate == Content("drain")
            && !Read(verb)
            && Pathname(target).Some? && Continuation(verb, Pathname(target).value)
            && !Normal(target.path)
            && (Backslashed(target.path) ==> !Continuation(verb, target.path))
  {
    if Normal(target.path) {
      NormalPathname(target);
    } else {
      ProbesAreNormal(target.path);
      if !Backslashed(target.path) && Continuation(verb, target.path) && Pathname(target).Some? {
        ExemptOnce(verb, target);
      }
    }
    hide Continuation, Pathname, Normal;
  }

  lemma ProbesAreNormal(path: Path)
    ensures HealthProbe(path) ==> Normal(path)
  {
    if HealthProbe(path) {
      assert forall s :: s in path ==> s == "api" || s == "v1" || s == "health" || s == "ready";
    }
  }

  /** A piece that parsing keeps. */
  predicate Ordinary(s: string) {
    s != "" && '\\' !in s && !SingleDot(s) && !DoubleDot(s)
  }

  lemma AuthorityPathname(x: string, path: Path)
    requires Ordinary(x) && Normal(path) && path != []
    ensures Pathname(Target(["", x] + path, true)) == Some(path)
  {
    var sent := ["", x] + path;
    assert forall s :: s in sent ==> s == "" || s == x || s in path;
    UnsplitPieces(sent);
    assert sent[0] == "" && sent[1..] == [x] + path && ([x] + path)[1..] == path;
    UndottedResolves(path, []);
    assert SkipSlashes(sent) == SkipSlashes([x] + path) == [x] + path;
    assert [] + path == path;
  }

  lemma DotPathname(x: string, path: Path)
    requires Ordinary(x) && Normal(path) && path != []
    ensures Pathname(Target([x, ".."] + path, true)) == Some(path)
  {
    var sent, rest := [x, ".."] + path, [".."] + path;
    assert forall s :: s in sent ==> s == x || s == ".." || s in path;
    UnsplitPieces(sent);
    UndottedResolves(path, []);
    assert sent[0] == x && sent[1..] == rest && rest[0] == ".." && rest[1..] == path && |rest| > 1;
    assert [] + [x] == [x] && [x][..0] + [] == [];
    assert Resolve(sent, []) == Resolve(rest, [x]);
    assert Resolve(rest, [x]) == Resolve(path, [x][..0] + []);
    assert [] + path == path;
  }

  /**
   Every exempt path can be sent in two more ways that the edge lets through and the
   API refuses: behind an authority, and behind a piece that is taken back.
   */
  lemma ParsedPathsDiffer(verb: string, x: string, path: Path)
    requires Ordinary(x) && x != "api" && Normal(path) && Continuation(verb, path) && !Read(verb)
    ensures EdgeAdmits(Content("drain"), verb, Target(["", x] + path, true))
    ensures !ApiAdmits(Content("drain"), verb, Target(["", x] + path, true))
    ensures EdgeAdmits(Content("drain"), verb, Target([x, ".."] + path, true))
    ensures !ApiAdmits(Content("drain"), verb, Target([x, ".."] + path, true))
  {
    AuthorityPathname(x, path);
    DotPathname(x, path);
    NotExempt(verb, ["", x] + path);
    NotExempt(verb, [x, ".."] + path);
    hide Pathname, Continuation, Normal;
  }

  lemma NotExempt(verb: string, path: Path)
    requires |path| > 1 && path[0] != "api" && !(path[0] == "mcp" && path[1] == "oauth")
    ensures !Continuation(verb, path) && !HealthProbe(path)
  {
  }

  // ----- Requests in flight -----

  type RequestId = nat

  datatype Event =
    | Request(id: RequestId, allowed: bool, verb: string, target: Target)
    | Finish(id: RequestId)
    | Close(id: RequestId)
    | SetGate(gate: GateFile)

  /** `counted` is what the closures of the requests hold; `ended` is history. */
  datatype EdgeHistory = EdgeHistory(gate: GateFile, inFlight: int, counted: map<RequestId, bool>,
      ended: set<RequestId>)

  /** The requests let through that have neither finished nor been closed. */
  function Outstanding(e: EdgeHistory): set<RequestId> {
    e.counted.Keys - e.ended
  }

  function Ended(e: EdgeHistory, id: RequestId): EdgeHistory {
    if id !in e.counted then e
    else
      e.(inFlight := if e.counted[id] then e.inFlight - 1 else e.inFlight,
         counted := e.counted[id := false],
         ended := e.ended + {id})
  }

  function After(e: EdgeHistory, event: Event): EdgeHistory {
    match event
    case Request(id, allowed, verb, target) =>
      if allowed && EdgeAdmits(e.gate, verb, target)
      then e.(inFlight := e.inFlight + 1, counted := e.counted[id := true])
      else e
    case Finish(id) => Ended(e, id)
    case Close(id) => Ended(e, id)
    case SetGate(gate) => e.(gate := gate)
  }

  ghost function Run(e: EdgeHistory, events: seq<Event>): EdgeHistory {
    if events == [] then e else After(Run(e, events[..|events| - 1]), events[|events| - 1])
  }

  /** The counter is the number of outstanding requests. */
  ghost predicate Inv(e: EdgeHistory) {
    && e.inFlight == |Outstanding(e)|
    && e.ended <= e.counted.Keys
    && forall id :: id in e.counted ==> (e.counted[id] <==> id !in e.ended)
  }

  /** Each request is a new one. */
  predicate FreshId(e: EdgeHistory, event: Event) {
    event.Request? ==> event.id !in e.counted
  }

  /** Though both events may fire, a request is counted down once. */
  lemma EndedKeepsInv(e: EdgeHistory, id: RequestId)
    requires Inv(e)
    ensures Inv(Ended(e, id))
  {
    if id in e.counted {
      assert Outstanding(Ended(e, id)) == Outstanding(e) - {id};
    }
  }

  lemma LetThroughKeepsInv(e: EdgeHistory, id: RequestId)
    requires Inv(e) && id !in e.counted
    ensures Inv(e.(inFlight := e.inFlight + 1, counted := e.counted[id := true]))
  {
    assert Outstanding(e.(inFlight := e.inFlight + 1, counted := e.counted[id := true])) == Outstanding(e) + {id};
  }

  lemma StepKeepsInv(e: EdgeHistory, event: Event)
    requires Inv(e) && FreshId(e, event)
    ensures Inv(After(e, event))
  {
    hide EdgeAdmits, Ended;
    match event
    case Request(id, allowed, verb, target) =>
      LetThroughKeepsInv(e, id);
    case Finish(id) => EndedKeepsInv(e, id);
    case Close(id) => EndedKeepsInv(e, id);
    case SetGate(_) =>
  }

  ghost predicate FreshRun(e: EdgeHistory, events: seq<Event>) {
    forall i :: 0 <= i < |events| ==> FreshId(Run(e, events[..i]), events[i])
  }

  lemma FreshInit(e: EdgeHistory, events: seq<Event>)
    requires FreshRun(e, events) && events != []
    ensures FreshRun(e, events[..|events| - 1])
  {
    var init := events[..|events| - 1];
    forall i | 0 <= i < |init|
      ensures FreshId(Run(e, init[..i]), init[i])
    {
      assert init[..i] == events[..i];
    }
  }

  lemma {:induction false} RunKeepsInv(e: EdgeHistory, events: seq<Event>)
    requires Inv(e) && FreshRun(e, events)
    ensures Inv(Run(e, events))
  {
    hide Inv, After;
    if events != [] {
      var n := |events| - 1;
      FreshInit(e, events);
      RunKeepsInv(e, events[..n]);
      StepKeepsInv(Run(e, events[..n]), events[n]);
    }
  }

  predicate StaysClosed(events: seq<Event>) {
    forall event :: event in events && event.SetGate? ==> EdgeState(event.gate) == Closed
  }

  lemma ClosedStep(e: EdgeHistory, event: Event)
    requires Outstanding(e) == {} && EdgeState(e.gate) == Closed
    requires event.SetGate? ==> EdgeState(event.gate) == Closed
    ensures Outstanding(After(e, event)) == {} && EdgeState(After(e, event).gate) == Closed
  {
    hide Pathname, Continuation, Read;
    match event
    case Request(_, _, _, _) =>
    case Finish(id) => assert Outstanding(Ended(e, id)) <= Outstanding(e);
    case Close(id) => assert Outstanding(Ended(e, id)) <= Outstanding(e);
    case SetGate(_) =>
  }

  /**
   The drain certificate: once a snapshot has shown the gate closed and no request in flight, there is
   none, and there is none later until the gate is something else.
   */
  lemma {:induction false} DrainCertificate(e: EdgeHistory, events: seq<Event>)
    requires Inv(e) && StaysClosed(events)
    requires EdgeState(e.gate) == Closed && e.inFlight == 0
    ensures Outstanding(Run(e, events)) == {} && EdgeState(Run(e, events).gate) == Closed
  {
    if events == [] {
      assert Outstanding(e) == {};
    } else {
      var n := |events| - 1;
      assert events[n] in events && forall x :: x in events[..n] ==> x in events;
      hide After, EdgeState, Outstanding, Inv;
      DrainCertificate(e, events[..n]);
      ClosedStep(Run(e, events[..n]), events[n]);
    }
  }

  // ----- The edge -----

  class Edge {
    var gate: GateFile
    var inFlight: int
    var counted: map<RequestId, bool>
    ghost var ended: set<RequestId>

    ghost function State(): EdgeHistory
      reads this
    {
      EdgeHistory(gate, inFlight, counted, ended)
    }

    constructor ()
      ensures Inv(State()) && Outstanding(State()) == {}
    {
      gate, inFlight, counted, ended := Absent, 0, map[], {};
      new;
      assert Outstanding(State()) == {};
    }

    /** The handler up to proxying; `allowed`: the host and public access are in order. */
    method OnRequest(id: RequestId, allowed: bool, verb: string, target: Target) returns (proxied: bool)
      requires Inv(State()) && id !in counted
      modifies this
      ensures State() == After(old(State()), Request(id, allowed, verb, target)) && Inv(State())
      ensures proxied <==> id in Outstanding(State())
    {
      StepKeepsInv(State(), Request(id, allowed, verb, target));
      var pathname := Pathname(target);
      if pathname.None? || !allowed {
        return false;
      }
      var state := EdgeState(gate);
      var read := Read(verb);
      var continuation := Continuation(verb, pathname.value);
      hide Continuation, Pathname, Read;
      if state == Closed || (state == Drain && !read && !continuation) {
        return false;
      }
      inFlight := inFlight + 1;
      counted := counted[id := true];
      return true;
    }

    /** The `finished` closure of a request, on either event. */
    method OnFinished(id: RequestId)
      requires Inv(State()) && id in counted
      modifies this
      ensures State() == Ended(old(State()), id) && Inv(State())
      ensures id !in Outstanding(State()) && Outstanding(State()) == Outstanding(old(State())) - {id}
    {
      EndedKeepsInv(State(), id);
      if counted[id] {
        counted := counted[id := false];
        inFlight := inFlight - 1;
      }
      ended := ended + {id};
    }

    /** The two numbers of a health answer, taken in one turn of the event loop. */
    method Snapshot() returns (admission: Admission, count: int)
      requires Inv(State())
      ensures admission == EdgeState(gate) && count == |Outstanding(State())|
    {
      return EdgeState(gate), inFlight;
    }
  }
}
