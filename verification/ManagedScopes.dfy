/**
 The departments a manager reaches. The authentication guard (`development-auth.guard.ts`) grows one
 list per managed department, all in one loop; the chat policy (`project-chat.policy.ts`) grows one
 set per row. Both compute the least set that is closed under active children.
 */
module ManagedScopes {
  import opened Outcomes
  import opened DepartmentForest
  import Policy = ProjectPolicy

  /** A row of the managed departments of one membership. */
  datatype Managed = Managed(departmentId: Id, includeChildren: bool)

  /** A row of the query for the active units of the organization. */
  datatype UnitRow = UnitRow(id: Id, parent: Option<Id>)

  // ----- What is reached -----

  ghost predicate Below(units: seq<UnitRow>, root: Id, x: Id, n: nat)
    decreases n
  {
    if n == 0 then x == root
    else exists p :: UnitRow(x, Some(p)) in units && Below(units, root, p, n - 1)
  }

  /** `x` is `root` or is reached from it through active children. */
  ghost predicate Reach(units: seq<UnitRow>, root: Id, x: Id) {
    exists n: nat :: Below(units, root, x, n)
  }

  predicate ClosedAt(u: UnitRow, ids: set<Id>) {
    u.parent.Some? && u.parent.value in ids ==> u.id in ids
  }

  predicate Closed(units: seq<UnitRow>, ids: set<Id>) {
    forall u | u in units :: ClosedAt(u, ids)
  }

  lemma ReachRoot(units: seq<UnitRow>, root: Id)
    ensures Reach(units, root, root)
  {
    assert Below(units, root, root, 0);
  }

  lemma ReachChild(units: seq<UnitRow>, root: Id, u: UnitRow)
    requires u in units && u.parent.Some? && Reach(units, root, u.parent.value)
    ensures Reach(units, root, u.id)
  {
    var n: nat :| Below(units, root, u.parent.value, n);
    assert UnitRow(u.id, Some(u.parent.value)) == u;
    assert Below(units, root, u.id, n + 1);
  }

  lemma {:induction false} BelowInside(units: seq<UnitRow>, root: Id, ids: set<Id>, x: Id, n: nat)
    requires root in ids && Closed(units, ids) && Below(units, root, x, n)
    ensures x in ids
    decreases n
  {
    if n > 0 {
      var p :| UnitRow(x, Some(p)) in units && Below(units, root, p, n - 1);
      BelowInside(units, root, ids, p, n - 1);
      assert ClosedAt(UnitRow(x, Some(p)), ids);
    }
  }

  /** What is reached is the least closed set with the root in it. */
  lemma ReachIsLeast(units: seq<UnitRow>, root: Id)
    ensures Reach(units, root, root)
    ensures forall u :: u in units && u.parent.Some? && Reach(units, root, u.parent.value) ==> Reach(units, root, u.id)
    ensures forall ids, x :: root in ids && Closed(units, ids) && Reach(units, root, x) ==> x in ids
  {
    ReachRoot(units, root);
    forall u | u in units && u.parent.Some? && Reach(units, root, u.parent.value)
      ensures Reach(units, root, u.id)
    {
      ReachChild(units, root, u);
    }
    forall ids, x | root in ids && Closed(units, ids) && Reach(units, root, x)
      ensures x in ids
    {
      var n: nat :| Below(units, root, x, n);
      BelowInside(units, root, ids, x, n);
    }
  }

  /** A set found by growing: sound, and closed when growing stops. */
  lemma GrownIsReach(units: seq<UnitRow>, root: Id, ids: set<Id>)
    requires root in ids && Closed(units, ids)
    requires forall x :: x in ids ==> Reach(units, root, x)
    ensures forall x :: x in ids <==> Reach(units, root, x)
  {
    ReachIsLeast(units, root);
  }

  function Elements(ids: seq<Id>): set<Id> {
    set x | x in ids
  }

  function Missing(units: seq<UnitRow>, ids: set<Id>): set<Id> {
    (set u | u in units :: u.id) - ids
  }

  /** The scope of a department, according to whether its children are included. */
  ghost predicate IsScope(units: seq<UnitRow>, root: Id, children: bool, ids: set<Id>) {
    forall x :: x in ids <==> if children then Reach(units, root, x) else x == root
  }

  // ----- The set loop of the chat policy -----

  /** One pass over the units. */
  method PassSet(units: seq<UnitRow>, ghost root: Id, ids: set<Id>) returns (grown: set<Id>, changed: bool)
    requires forall x :: x in ids ==> Reach(units, root, x)
    ensures forall x :: x in grown ==> Reach(units, root, x)
    ensures ids <= grown
    ensures if changed then Missing(units, grown) < Missing(units, ids) else grown == ids && Closed(units, ids)
  {
    grown, changed := ids, false;
    for i := 0 to |units|
      invariant forall x :: x in grown ==> Reach(units, root, x)
      invariant ids <= grown
      invariant if changed then Missing(units, grown) < Missing(units, ids)
                else grown == ids && forall u :: u in units[..i] ==> ClosedAt(u, ids)
    {
      var d := units[i];
      assert units[..i + 1] == units[..i] + [d];
      if d.parent.Some? && d.parent.value in grown && d.id !in grown {
        ReachChild(units, root, d);
        assert d.id in Missing(units, grown);
        grown, changed := grown + {d.id}, true;
      }
    }
    assert units[..|units|] == units;
  }

  /** The scope of one managed row. */
  method GrowSet(units: seq<UnitRow>, root: Id) returns (ids: set<Id>)
    ensures IsScope(units, root, true, ids)
  {
    ids := {root};
    ReachRoot(units, root);
    var changed := true;
    while changed
      invariant root in ids && forall x :: x in ids ==> Reach(units, root, x)
      invariant changed || Closed(units, ids)
      decreases Missing(units, ids), changed
    {
      ids, changed := PassSet(units, root, ids);
    }
    GrownIsReach(units, root, ids);
  }

  /** Whether the last row for a department includes the children. */
  predicate LastIncludes(managed: seq<Managed>, d: Id) {
    managed != [] &&
    var last := managed[|managed| - 1];
    if last.departmentId == d then last.includeChildren else LastIncludes(managed[..|managed| - 1], d)
  }

  function Departments(managed: seq<Managed>): set<Id> {
    set m | m in managed :: m.departmentId
  }

  /** What `freshActor` computes: a later row for the same department replaces an earlier one. */
  ghost predicate FreshAnswer(managed: seq<Managed>, units: seq<UnitRow>, scopes: map<Id, set<Id>>) {
    && scopes.Keys == Departments(managed)
    && forall d :: d in scopes ==> IsScope(units, d, LastIncludes(managed, d), scopes[d])
  }

  method FreshScopes(managed: seq<Managed>, units: seq<UnitRow>) returns (scopes: map<Id, set<Id>>)
    ensures FreshAnswer(managed, units, scopes)
  {
    scopes := map[];
    for i := 0 to |managed|
      invariant FreshAnswer(managed[..i], units, scopes)
    {
      var m := managed[i];
      assert managed[..i + 1] == managed[..i] + [m];
      assert managed[..i + 1][..i] == managed[..i];
      var ids := {m.departmentId};
      if m.includeChildren {
        ids := GrowSet(units, m.departmentId);
      }
      assert Departments(managed[..i + 1]) == Departments(managed[..i]) + {m.departmentId};
      scopes := scopes[m.departmentId := ids];
    }
    assert managed[..|managed|] == managed;
  }

  // ----- The list loop of the guard -----

  predicate AnyIncludes(managed: seq<Managed>, d: Id) {
    exists m :: m in managed && m.departmentId == d && m.includeChildren
  }

  /** The distinct departments in the order of their first row: the keys of the guard's map. */
  function Order(managed: seq<Managed>): (r: seq<Id>)
    ensures forall d :: d in r <==> d in Departments(managed)
  {
    if managed == [] then []
    else
      var init, last := managed[..|managed| - 1], managed[|managed| - 1];
      assert managed == init + [last];
      Order(init) + if last.departmentId in Order(init) then [] else [last.departmentId]
  }

  /** The flat list holds exactly what the lists of the departments hold. */
  predicate IsUnion(scopes: map<Id, seq<Id>>, flat: seq<Id>) {
    && (forall d, x | d in scopes && x in scopes[d] :: x in flat)
    && (forall x | x in flat :: exists d :: d in scopes && x in scopes[d])
  }

  /** What the guard computes: one row that includes the children is enough. */
  ghost predicate GuardAnswer(managed: seq<Managed>, units: seq<UnitRow>, scopes: map<Id, seq<Id>>, flat: seq<Id>) {
    && scopes.Keys == Departments(managed)
    && (forall d :: d in scopes ==> IsScope(units, d, AnyIncludes(managed, d), Elements(scopes[d])))
    && IsUnion(scopes, flat)
  }

  /** What the lists keep while they grow. */
  ghost predicate Growing(managed: seq<Managed>, units: seq<UnitRow>, scopes: map<Id, seq<Id>>) {
    && scopes.Keys == Departments(managed)
    && forall d :: d in scopes ==> GrowingAt(managed, units, d, scopes[d])
  }

  ghost predicate GrowingAt(managed: seq<Managed>, units: seq<UnitRow>, d: Id, ids: seq<Id>) {
    && d in ids
    && (forall x :: x in ids ==> Reach(units, d, x))
    && (!AnyIncludes(managed, d) ==> ids == [d])
  }

  /** The pairs still to be found. */
  function MissingPairs(units: seq<UnitRow>, scopes: map<Id, seq<Id>>): set<(Id, Id)> {
    set d, u | d in scopes && u in units && u.id !in scopes[d] :: (d, u.id)
  }

  /** The innermost loop: one pass over the units for one department; what it finds it pushes on both lists. */
  method PassList(units: seq<UnitRow>, ghost root: Id, ids: seq<Id>) returns (found: seq<Id>)
    requires forall x :: x in ids ==> Reach(units, root, x)
    ensures forall x :: x in found ==> Reach(units, root, x) && x !in ids && x in Missing(units, Elements(ids))
    ensures found == [] ==> Closed(units, Elements(ids))
  {
    found := [];
    for i := 0 to |units|
      invariant forall x :: x in found ==> Reach(units, root, x) && x !in ids && x in Missing(units, Elements(ids))
      invariant found == [] ==> forall u :: u in units[..i] ==> ClosedAt(u, Elements(ids))
    {
      var unit := units[i];
      assert units[..i + 1] == units[..i] + [unit];
      if unit.parent.Some? && unit.parent.value in ids + found && unit.id !in ids + found {
        ReachChild(units, root, unit);
        found := found + [unit.id];
      }
    }
    assert units[..|units|] == units;
  }

  lemma PairsShrink(units: seq<UnitRow>, scopes: map<Id, seq<Id>>, d: Id, found: seq<Id>)
    requires d in scopes && found != []
    requires forall x :: x in found ==> x !in scopes[d] && x in Missing(units, Elements(scopes[d]))
    ensures MissingPairs(units, scopes[d := scopes[d] + found]) < MissingPairs(units, scopes)
  {
    var x := found[0];
    assert x in found;
    assert (d, x) in MissingPairs(units, scopes);
    assert (d, x) !in MissingPairs(units, scopes[d := scopes[d] + found]);
  }

  lemma PushKeepsUnion(scopes: map<Id, seq<Id>>, flat: seq<Id>, d: Id, found: seq<Id>)
    requires d in scopes && IsUnion(scopes, flat)
    ensures IsUnion(scopes[d := scopes[d] + found], flat + found)
  {
    var after := scopes[d := scopes[d] + found];
    forall x | x in flat + found
      ensures exists e :: e in after && x in after[e]
    {
      if x in found {
        assert x in after[d];
      } else {
        var e :| e in scopes && x in scopes[e];
        assert x in after[e];
      }
    }
  }

  /** The turn of one department in a round. */
  method Visit(managed: seq<Managed>, units: seq<UnitRow>, before: map<Id, seq<Id>>, flatBefore: seq<Id>, d: Id)
    returns (scopes: map<Id, seq<Id>>, flat: seq<Id>, changed: bool)
    requires Growing(managed, units, before) && IsUnion(before, flatBefore)
    requires d in before && AnyIncludes(managed, d)
    ensures scopes.Keys == before.Keys && Growing(managed, units, scopes) && IsUnion(scopes, flat)
    ensures if changed then MissingPairs(units, scopes) < MissingPairs(units, before)
            else scopes == before && Closed(units, Elements(scopes[d]))
  {
    assert GrowingAt(managed, units, d, before[d]);
    var found := PassList(units, d, before[d]);
    if found == [] {
      return before, flatBefore, false;
    }
    PairsShrink(units, before, d, found);
    PushKeepsUnion(before, flatBefore, d, found);
    hide IsUnion, MissingPairs, Departments, Reach, AnyIncludes;
    assert GrowingAt(managed, units, d, before[d] + found);
    return before[d := before[d] + found], flatBefore + found, true;
  }

  /** The departments whose children are included and that have nothing left to find. */
  ghost predicate AllClosed(managed: seq<Managed>, units: seq<UnitRow>, scopes: map<Id, seq<Id>>,
      departments: seq<Id>) {
    forall d :: d in departments && d in scopes && AnyIncludes(managed, d) ==> Closed(units, Elements(scopes[d]))
  }

  /** One round over the departments. */
  method Round(managed: seq<Managed>, units: seq<UnitRow>, before: map<Id, seq<Id>>, flatBefore: seq<Id>)
    returns (scopes: map<Id, seq<Id>>, flat: seq<Id>, changed: bool)
    requires Growing(managed, units, before) && IsUnion(before, flatBefore)
    ensures Growing(managed, units, scopes) && IsUnion(scopes, flat)
    ensures if changed then MissingPairs(units, scopes) < MissingPairs(units, before)
            else scopes == before && AllClosed(managed, units, scopes, Order(managed))
  {
    var order := Order(managed);
    assert before.Keys == Departments(managed);
    hide Closed, IsUnion, MissingPairs, Order, Growing, Departments;
    scopes, flat, changed := before, flatBefore, false;
    for i := 0 to |order|
      invariant scopes.Keys == Departments(managed)
      invariant Growing(managed, units, scopes) && IsUnion(scopes, flat)
      invariant if changed then MissingPairs(units, scopes) < MissingPairs(units, before)
                else scopes == before && AllClosed(managed, units, scopes, order[..i])
    {
      var d := order[i];
      assert order[..i + 1] == order[..i] + [d];
      if AnyIncludes(managed, d) {
        assert d in order;
        var more: bool;
        scopes, flat, more := Visit(managed, units, scopes, flat, d);
        changed := changed || more;
      }
    }
    assert order[..|order|] == order;
  }

  method GuardScopes(managed: seq<Managed>, units: seq<UnitRow>) returns (scopes: map<Id, seq<Id>>, flat: seq<Id>)
    ensures GuardAnswer(managed, units, scopes, flat)
  {
    scopes := map d | d in Departments(managed) :: [d];
    flat := Order(managed);
    Start(managed, units, scopes, flat);
    if exists m :: m in managed && m.includeChildren {
      var changed := true;
      while changed
        invariant Growing(managed, units, scopes) && IsUnion(scopes, flat)
        invariant changed || AllClosed(managed, units, scopes, Order(managed))
        decreases MissingPairs(units, scopes), changed
      {
        scopes, flat, changed := Round(managed, units, scopes, flat);
      }
    }
    Finish(managed, units, scopes, flat);
  }

  lemma Start(managed: seq<Managed>, units: seq<UnitRow>, scopes: map<Id, seq<Id>>, flat: seq<Id>)
    requires scopes == (map d | d in Departments(managed) :: [d]) && flat == Order(managed)
    ensures Growing(managed, units, scopes) && IsUnion(scopes, flat)
  {
    forall d | d in scopes {
      ReachRoot(units, d);
    }
    forall x | x in flat
      ensures exists d :: d in scopes && x in scopes[d]
    {
      assert x in scopes && x in scopes[x];
    }
  }

  lemma Finish(managed: seq<Managed>, units: seq<UnitRow>, scopes: map<Id, seq<Id>>, flat: seq<Id>)
    requires Growing(managed, units, scopes) && IsUnion(scopes, flat)
    requires AllClosed(managed, units, scopes, Order(managed))
    ensures GuardAnswer(managed, units, scopes, flat)
  {
    forall d | d in scopes
      ensures IsScope(units, d, AnyIncludes(managed, d), Elements(scopes[d]))
    {
      assert GrowingAt(managed, units, d, scopes[d]);
      if AnyIncludes(managed, d) {
        GrownIsReach(units, d, Elements(scopes[d]));
      }
    }
  }

  // ----- The two computations agree -----

  /** One row per department, as the database's unique index keeps it. */
  predicate OneRowEach(managed: seq<Managed>) {
    forall i, j | 0 <= i < j < |managed| :: managed[i].departmentId != managed[j].departmentId
  }

  lemma {:induction false} LastIsARow(managed: seq<Managed>, d: Id)
    ensures LastIncludes(managed, d) ==> AnyIncludes(managed, d)
    ensures OneRowEach(managed) && AnyIncludes(managed, d) ==> LastIncludes(managed, d)
  {
    if managed != [] {
      var init, last := managed[..|managed| - 1], managed[|managed| - 1];
      LastIsARow(init, d);
      assert managed == init + [last];
      if OneRowEach(managed) && last.departmentId == d {
        assert forall m :: m in init ==> m.departmentId != d;
      }
    }
  }

  /** For each department, the last row says the same as all rows together. */
  predicate Consistent(managed: seq<Managed>) {
    forall d | d in Departments(managed) :: AnyIncludes(managed, d) == LastIncludes(managed, d)
  }

  lemma OneRowEachIsConsistent(managed: seq<Managed>)
    requires OneRowEach(managed)
    ensures Consistent(managed)
  {
    forall d {
      LastIsARow(managed, d);
    }
  }

  ghost predicate SameScopes(guard: map<Id, seq<Id>>, chat: map<Id, set<Id>>) {
    guard.Keys == chat.Keys && forall d :: d in guard ==> Elements(guard[d]) == chat[d]
  }

  lemma ConsistentAgree(managed: seq<Managed>, units: seq<UnitRow>, guard: map<Id, seq<Id>>, flat: seq<Id>,
      chat: map<Id, set<Id>>)
    requires Consistent(managed) && GuardAnswer(managed, units, guard, flat) && FreshAnswer(managed, units, chat)
    ensures SameScopes(guard, chat)
  {
    forall d | d in guard
      ensures Elements(guard[d]) == chat[d]
    {
      assert d in Departments(managed);
      assert forall x :: x in Elements(guard[d]) <==> x in chat[d];
    }
  }

  /** With rows that disagree on including children, a single child unit separates the two. */
  lemma InconsistentDiffer(managed: seq<Managed>) returns (units: seq<UnitRow>)
    requires !Consistent(managed)
    ensures forall guard, flat, chat ::
              GuardAnswer(managed, units, guard, flat) && FreshAnswer(managed, units, chat) ==> !SameScopes(guard, chat)
  {
    var d :| d in Departments(managed) && AnyIncludes(managed, d) != LastIncludes(managed, d);
    LastIsARow(managed, d);
    var child := d + ['/'];
    units := [UnitRow(child, Some(d))];
    ReachRoot(units, d);
    ReachChild(units, d, units[0]);
    forall guard, flat, chat | GuardAnswer(managed, units, guard, flat) && FreshAnswer(managed, units, chat)
      ensures !SameScopes(guard, chat)
    {
      assert child in Elements(guard[d]);
      assert child !in chat[d];
    }
  }

  /**
   The guard and the chat policy compute the same scopes over every table of units if and only if the
   rows of each department are consistent; one row per department always is.
   */
  lemma SameExactly(managed: seq<Managed>)
    ensures Consistent(managed) <==>
            forall units, guard, flat, chat ::
              GuardAnswer(managed, units, guard, flat) && FreshAnswer(managed, units, chat) ==> SameScopes(guard, chat)
  {
    if Consistent(managed) {
      forall units, guard, flat, chat | GuardAnswer(managed, units, guard, flat) && FreshAnswer(managed, units, chat)
        ensures SameScopes(guard, chat)
      {
        ConsistentAgree(managed, units, guard, flat, chat);
      }
    } else {
      var units := InconsistentDiffer(managed);
      var guard, flat, chat := AnswersExist(managed, units);
    }
  }

  /** The scope as a set: only the root and the units can be in it. */
  ghost function ScopeSet(units: seq<UnitRow>, root: Id, children: bool): (r: set<Id>)
    ensures IsScope(units, root, children, r)
  {
    ReachIsLeast(units, root);
    if children then
      var within := {root} + (set u | u in units :: u.id);
      assert Closed(units, within);
      set x | x in within && Reach(units, root, x)
    else
      {root}
  }

  ghost function Listing(ids: set<Id>): (r: seq<Id>)
    ensures Elements(r) == ids
  {
    if ids == {} then []
    else
      var x :| x in ids;
      var rest := Listing(ids - {x});
      assert Elements([x] + rest) == {x} + Elements(rest);
      [x] + rest
  }

  /** Every input has its two answers. */
  lemma AnswersExist(managed: seq<Managed>, units: seq<UnitRow>)
    returns (guard: map<Id, seq<Id>>, flat: seq<Id>, chat: map<Id, set<Id>>)
    ensures GuardAnswer(managed, units, guard, flat) && FreshAnswer(managed, units, chat)
  {
    guard := map d | d in Departments(managed) :: Listing(ScopeSet(units, d, AnyIncludes(managed, d)));
    chat := map d | d in Departments(managed) :: ScopeSet(units, d, LastIncludes(managed, d));
    var all := set d, x | d in guard && x in guard[d] :: x;
    flat := Listing(all);
    assert forall x :: x in flat <==> x in Elements(flat);
  }

  // ----- Scopes over the forest of units -----

  /** The rows are the active units of the organization. */
  ghost predicate RowsOf(table: Units, organization: Id, units: seq<UnitRow>) {
    forall id, parent :: UnitRow(id, parent) in units <==>
        ActiveIn(table, id, organization) && table[id].parent == parent
  }

  lemma {:induction false} BelowIsAbove(table: Units, organization: Id, units: seq<UnitRow>, root: Id, x: Id, n: nat)
    requires RowsOf(table, organization, units) && ActiveIn(table, root, organization) && Below(units, root, x, n)
    ensures ActiveIn(table, x, organization) && Up(table, Some(x), n) == Some(root)
    decreases n
  {
    if n > 0 {
      var p :| UnitRow(x, Some(p)) in units && Below(units, root, p, n - 1);
      BelowIsAbove(table, organization, units, root, p, n - 1);
    }
  }

  lemma {:induction false} AboveIsBelow(table: Units, organization: Id, units: seq<UnitRow>, root: Id, x: Id, n: nat)
    requires Linked(table) && RowsOf(table, organization, units) && ActiveIn(table, root, organization)
    requires x in table && table[x].active && Up(table, Some(x), n) == Some(root)
    ensures table[x].organization == organization && Below(units, root, x, n)
    decreases n
  {
    if n > 0 {
      var p := table[x].parent.value;
      AboveIsBelow(table, organization, units, root, p, n - 1);
      assert UnitRow(x, Some(p)) in units;
    }
  }

  /**
   Over the forest that the departments service keeps, a scope that includes the children is exactly
   the unit and every active unit below it: no inactive unit can hide an active one.
   */
  lemma ScopeIsSubtree(table: Units, organization: Id, units: seq<UnitRow>, root: Id, x: Id)
    requires Forest(table) && RowsOf(table, organization, units) && ActiveIn(table, root, organization)
    ensures Reach(units, root, x) <==> x in table && table[x].active && Above(table, Some(x), root)
  {
    hide Acyclic;
    if Reach(units, root, x) {
      var n: nat :| Below(units, root, x, n);
      BelowIsAbove(table, organization, units, root, x, n);
    }
    if x in table && table[x].active && Above(table, Some(x), root) {
      var n: nat :| Up(table, Some(x), n) == Some(root);
      AboveIsBelow(table, organization, units, root, x, n);
    }
  }

  // ----- The sources the guard builds -----

  /** A role assignment; `permissions` are those of its role. */
  datatype Assignment = Assignment(permissions: seq<string>, scope: Policy.Scope, departmentId: Option<Id>)

  function RoleSources(a: Assignment, permissions: seq<string>, scopes: map<Id, seq<Id>>): (r: seq<Policy.Source>)
    ensures forall s :: s in r <==> s.permission in permissions && s == SourceOf(a, s.permission, scopes)
  {
    if permissions == [] then []
    else [SourceOf(a, permissions[0], scopes)] + RoleSources(a, permissions[1..], scopes)
  }

  function SourceOf(a: Assignment, permission: string, scopes: map<Id, seq<Id>>): Policy.Source {
    Policy.Source(permission, a.scope, a.departmentId,
                  Some(if a.scope == Policy.DepartmentScope && a.departmentId.Some? && a.departmentId.value in scopes
                       then scopes[a.departmentId.value] else []))
  }

  /** The guard's `permissionSources`. */
  function SourcesFrom(assignments: seq<Assignment>, scopes: map<Id, seq<Id>>): (r: seq<Policy.Source>)
    ensures forall s :: s in r <==> exists a :: a in assignments && s in RoleSources(a, a.permissions, scopes)
  {
    if assignments == [] then []
    else RoleSources(assignments[0], assignments[0].permissions, scopes) + SourcesFrom(assignments[1..], scopes)
  }

  /** Some assignment of the actor brings the permission to the project. */
  ghost predicate Granted(table: Units, managed: seq<Managed>, assignments: seq<Assignment>, permission: string,
                          actor: Policy.Actor, p: Policy.Project) {
    exists a :: a in assignments && permission in a.permissions && Brings(table, managed, a, actor, p)
  }

  /**
   An assignment brings its permissions to the projects of the whole organization, to the actor's own,
   and, scoped to a managed department, to those with a unit in that department's active subtree.
   */
  ghost predicate Brings(table: Units, managed: seq<Managed>, a: Assignment, actor: Policy.Actor, p: Policy.Project) {
    || a.scope == Policy.SystemScope
    || a.scope == Policy.OrganizationScope
    || Policy.Own(actor, p)
    || (a.scope == Policy.DepartmentScope && a.departmentId.Some? && a.departmentId.value in Departments(managed)
        && exists x :: x in p.departments && InScope(table, managed, a.departmentId.value, x))
  }

  ghost predicate InScope(table: Units, managed: seq<Managed>, root: Id, x: Id) {
    x == root || (AnyIncludes(managed, root) && x in table && table[x].active && Above(table, Some(x), root))
  }

  lemma ScopeMembers(table: Units, managed: seq<Managed>, units: seq<UnitRow>, scopes: map<Id, seq<Id>>, flat: seq<Id>,
                     organization: Id, root: Id, x: Id)
    requires Forest(table) && RowsOf(table, organization, units)
    requires GuardAnswer(managed, units, scopes, flat)
    requires root in Departments(managed) && ActiveIn(table, root, organization)
    ensures x in scopes[root] <==> InScope(table, managed, root, x)
  {
    ScopeIsSubtree(table, organization, units, root, x);
    ReachRoot(units, root);
    hide Forest, RowsOf, Reach, Above, AnyIncludes;
    assert x in scopes[root] <==> x in Elements(scopes[root]);
    assert IsScope(units, root, AnyIncludes(managed, root), Elements(scopes[root]));
  }

  lemma SourceReaches(table: Units, managed: seq<Managed>, units: seq<UnitRow>, scopes: map<Id, seq<Id>>, flat: seq<Id>,
                      actor: Policy.Actor, a: Assignment, permission: string, p: Policy.Project)
    requires Forest(table) && RowsOf(table, actor.organizationId, units)
    requires GuardAnswer(managed, units, scopes, flat)
    requires forall m :: m in managed ==> ActiveIn(table, m.departmentId, actor.organizationId)
    ensures Brings(table, managed, a, actor, p) <==>
            var s := SourceOf(a, permission, scopes);
            Policy.Wide(s) || Policy.Own(actor, p) || exists d :: d in p.departments && d in Policy.MemoryDepartments(s)
  {
    if a.scope == Policy.DepartmentScope && a.departmentId.Some? && a.departmentId.value in Departments(managed) {
      forall x {
        ScopeMembers(table, managed, units, scopes, flat, actor.organizationId, a.departmentId.value, x);
      }
    }
  }

  /**
   The whole path from rows to answer: for the sources the guard builds, the compiled query returns a
   project exactly when it is live, the actor holds the permission, and an assignment brings it there.
   */
  lemma GuardedAccess(table: Units, managed: seq<Managed>, units: seq<UnitRow>, scopes: map<Id, seq<Id>>, flat: seq<Id>,
                      assignments: seq<Assignment>, actor: Policy.Actor, permission: string, p: Policy.Project)
    requires Forest(table) && RowsOf(table, actor.organizationId, units)
    requires GuardAnswer(managed, units, scopes, flat)
    requires forall m :: m in managed ==> ActiveIn(table, m.departmentId, actor.organizationId)
    requires actor.sources == Some(SourcesFrom(assignments, scopes))
    ensures Policy.Matches(Policy.WhereForPermissions(actor, [permission]), p) <==>
            && Policy.Live(actor, p)
            && permission in actor.permissions
            && Granted(table, managed, assignments, permission, actor, p)
  {
    assert permission in [permission];
    assert Policy.Listed(actor);
    Policy.GuardedQueryMatchesPredicate(actor, [permission], p);
    hide Policy.Matches, Policy.WhereForPermissions, Forest, GuardAnswer, RowsOf, Policy.Listed;
    forall a | a in assignments {
      SourceReaches(table, managed, units, scopes, flat, actor, a, permission, p);
    }
    hide Brings, Policy.MemoryDepartments, Policy.Own, Policy.Wide;
    if Granted(table, managed, assignments, permission, actor, p) {
      var a :| a in assignments && permission in a.permissions && Brings(table, managed, a, actor, p);
      assert SourceOf(a, permission, scopes) in RoleSources(a, a.permissions, scopes);
      assert SourceOf(a, permission, scopes) in actor.sources.value;
    }
  }
}
