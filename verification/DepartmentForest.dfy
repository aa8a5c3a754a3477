/**
 The organizational units of a tenant (`departments.service.ts`): creating, moving and archiving them
 keeps the parent pointers a forest, and that is what makes the ancestor walk of a move end.
 */
module DepartmentForest {
  import opened FiniteSets
  import opened Outcomes

  type Id = string

  datatype Unit = Unit(organization: Id, parent: Option<Id>, active: bool)

  type Units = map<Id, Unit>

  datatype Refusal = NotFound | BadParent | BadManager | CreatesCycle | HasActiveChildren | HasMembers

  /** What the body of an update says about the parent: absent, null, or another unit. */
  datatype Placement = Keep | Detach | Under(parent: Id)

  datatype Command =
    | Create(id: Id, organization: Id, under: Option<Id>, managerValid: bool)
    | Update(id: Id, organization: Id, placement: Placement, managerValid: bool)
    | Archive(id: Id, organization: Id, memberships: nat)

  // ----- Ancestors -----

  /** The parent a lookup by id finds; an absent row has none. */
  function ParentOf(units: Units, id: Id): Option<Id> {
    if id in units then units[id].parent else None
  }

  /** The unit `n` steps up from `x`. */
  ghost function Up(units: Units, x: Option<Id>, n: nat): Option<Id>
    decreases n
  {
    if n == 0 || x.None? then x else Up(units, ParentOf(units, x.value), n - 1)
  }

  /** `id` is `x` or one of its ancestors. */
  ghost predicate Above(units: Units, x: Option<Id>, id: Id) {
    exists n: nat :: Up(units, x, n) == Some(id)
  }

  ghost predicate EndsAt(units: Units, x: Option<Id>, n: nat) {
    Up(units, x, n) == None
  }

  /** Walking up from `x` ends. */
  ghost predicate Rooted(units: Units, x: Option<Id>) {
    exists n: nat :: EndsAt(units, x, n)
  }

  ghost predicate Cycle(units: Units, x: Id, n: nat) {
    n > 0 && Up(units, Some(x), n) == Some(x)
  }

  /** No unit is its own ancestor. */
  ghost predicate Acyclic(units: Units) {
    forall x, n: nat :: !Cycle(units, x, n)
  }

  /** Every parent is a unit of the same organization, and an active unit's parent is active. */
  predicate Linked(units: Units) {
    forall x | x in units && units[x].parent.Some? ::
      && units[x].parent.value in units
      && units[units[x].parent.value].organization == units[x].organization
      && (units[x].active ==> units[units[x].parent.value].active)
  }

  ghost predicate Forest(units: Units) {
    Linked(units) && Acyclic(units)
  }

  lemma {:induction false} UpSum(units: Units, x: Option<Id>, m: nat, n: nat)
    ensures Up(units, x, m + n) == Up(units, Up(units, x, m), n)
    decreases m
  {
    if x.Some? && m > 0 {
      UpSum(units, ParentOf(units, x.value), m - 1, n);
    }
  }

  lemma {:induction false} CycleNeverEnds(units: Units, x: Id, n: nat, m: nat)
    requires Cycle(units, x, n)
    ensures !EndsAt(units, Some(x), m)
  {
    if m < n {
      UpSum(units, Some(x), m, n - m);
    } else {
      UpSum(units, Some(x), n, m - n);
      CycleNeverEnds(units, x, n, m - n);
    }
  }

  /** The first `n` units of a walk. */
  ghost function Trail(units: Units, x: Option<Id>, n: nat): set<Id>
    decreases n
  {
    if n == 0 || x.None? then {} else {x.value} + Trail(units, ParentOf(units, x.value), n - 1)
  }

  lemma {:induction false} TrailSteps(units: Units, x: Option<Id>, n: nat, y: Id)
    requires y in Trail(units, x, n)
    ensures exists k: nat :: k < n && Up(units, x, k) == Some(y)
    decreases n
  {
    if x == Some(y) {
      assert Up(units, x, 0) == Some(y);
    } else {
      TrailSteps(units, ParentOf(units, x.value), n - 1, y);
      var k: nat :| k < n - 1 && Up(units, ParentOf(units, x.value), k) == Some(y);
      assert Up(units, x, k + 1) == Some(y);
    }
  }

  /** While a walk without cycles goes on, it visits a new unit at each step. */
  lemma {:induction false} TrailGrows(units: Units, x: Option<Id>, n: nat)
    requires Acyclic(units) && Up(units, x, n).Some?
    ensures |Trail(units, x, n)| == n && Trail(units, x, n) <= units.Keys
    decreases n
  {
    if n > 0 {
      var up := ParentOf(units, x.value);
      TrailGrows(units, up, n - 1);
      if x.value in Trail(units, up, n - 1) {
        TrailSteps(units, up, n - 1, x.value);
        var k: nat :| k < n - 1 && Up(units, up, k) == Some(x.value);
        assert Cycle(units, x.value, k + 1);
      }
      assert x.value in units;
    }
  }

  /** In a finite table, having no cycle and every walk ending are the same. */
  lemma AcyclicIffRooted(units: Units)
    ensures Acyclic(units) <==> forall x :: Rooted(units, x)
  {
    if Acyclic(units) {
      forall x
        ensures Rooted(units, x)
      {
        var n := |units.Keys| + 1;
        if Up(units, x, n).Some? {
          TrailGrows(units, x, n);
          SmallerSet(Trail(units, x, n), units.Keys);
        }
        assert EndsAt(units, x, n);
      }
    } else {
      var x, n: nat :| Cycle(units, x, n);
      forall m: nat {
        CycleNeverEnds(units, x, n, m);
      }
      assert !Rooted(units, Some(x));
    }
  }

  // ----- Moving a unit -----

  function Moved(units: Units, id: Id, parent: Option<Id>): Units
    requires id in units
  {
    units[id := units[id].(parent := parent)]
  }

  /** A walk that does not meet the moved unit is not changed by the move. */
  lemma {:induction false} UpUnmoved(units: Units, id: Id, parent: Option<Id>, x: Option<Id>, n: nat)
    requires id in units
    requires forall k: nat :: k < n ==> Up(units, x, k) != Some(id)
    ensures Up(Moved(units, id, parent), x, n) == Up(units, x, n)
    decreases n
  {
    if n > 0 && x.Some? {
      assert Up(units, x, 0) == x;
      var up := ParentOf(units, x.value);
      forall k: nat | k < n - 1
        ensures Up(units, up, k) != Some(id)
      {
        assert Up(units, x, k + 1) == Up(units, up, k);
      }
      UpUnmoved(units, id, parent, up, n - 1);
    }
  }

  /** A walk of the old table that ends, ends in the new one if the walk from the moved unit does. */
  lemma {:induction false} StaysRooted(units: Units, id: Id, parent: Option<Id>, x: Option<Id>, n: nat)
    requires id in units && EndsAt(units, x, n)
    requires Rooted(Moved(units, id, parent), parent)
    ensures Rooted(Moved(units, id, parent), x)
    decreases n
  {
    var after := Moved(units, id, parent);
    if x.None? {
      assert EndsAt(after, x, 0);
    } else {
      var up := ParentOf(after, x.value);
      if x != Some(id) {
        StaysRooted(units, id, parent, up, n - 1);
      }
      var k: nat :| EndsAt(after, up, k);
      assert EndsAt(after, x, k + 1);
    }
  }

  lemma {:induction false} FirstMeeting(units: Units, x: Option<Id>, id: Id, n: nat) returns (k: nat)
    requires Up(units, x, n) == Some(id)
    ensures Up(units, x, k) == Some(id) && forall j: nat :: j < k ==> Up(units, x, j) != Some(id)
    decreases n
  {
    if x == Some(id) {
      k := 0;
    } else {
      k := FirstMeeting(units, ParentOf(units, x.value), id, n - 1);
      k := k + 1;
      forall j: nat | j < k
        ensures Up(units, x, j) != Some(id)
      {
        if j > 0 {
          assert Up(units, x, j) == Up(units, ParentOf(units, x.value), j - 1);
        }
      }
    }
  }

  /**
   The walk's verdict is exact: the table after a move has a cycle if and only if the walk from the
   new parent meets the moved unit.
   */
  lemma MoveCreatesCycle(units: Units, id: Id, parent: Option<Id>)
    requires id in units && Acyclic(units)
    ensures Acyclic(Moved(units, id, parent)) <==> !Above(units, parent, id)
  {
    var after := Moved(units, id, parent);
    AcyclicIffRooted(units);
    AcyclicIffRooted(after);
    hide Acyclic;
    if n: nat :| Up(units, parent, n) == Some(id) {
      var k := FirstMeeting(units, parent, id, n);
      UpUnmoved(units, id, parent, parent, k);
      assert Up(after, Some(id), k + 1) == Some(id);
      assert Cycle(after, id, k + 1);
      forall m: nat {
        CycleNeverEnds(after, id, k + 1, m);
      }
      assert !Rooted(after, Some(id));
    } else {
      assert Rooted(units, parent);
      var n: nat :| EndsAt(units, parent, n);
      UpUnmoved(units, id, parent, parent, n);
      assert EndsAt(after, parent, n);
      forall x
        ensures Rooted(after, x)
      {
        assert Rooted(units, x);
        var m: nat :| EndsAt(units, x, m);
        StaysRooted(units, id, parent, x, m);
      }
    }
  }

  // ----- The commands as functions of the table -----

  predicate ActiveIn(units: Units, id: Id, organization: Id) {
    id in units && units[id].organization == organization && units[id].active
  }

  predicate Owned(units: Units, id: Id, organization: Id) {
    id in units && units[id].organization == organization
  }

  function Placed(units: Units, id: Id, placement: Placement): Option<Id>
    requires id in units
  {
    match placement
    case Keep => units[id].parent
    case Detach => None
    case Under(parent) => Some(parent)
  }

  /** Why a command is refused, if it is. */
  ghost function Refused(units: Units, c: Command): Option<Refusal> {
    match c
    case Create(id, organization, under, managerValid) =>
      if under.Some? && !ActiveIn(units, under.value, organization) then Some(BadParent)
      else if !managerValid then Some(BadManager)
      else None
    case Update(id, organization, placement, managerValid) =>
      if !Owned(units, id, organization) then Some(NotFound)
      else if placement.Under? && !ActiveIn(units, placement.parent, organization) then Some(BadParent)
      else if !managerValid then Some(BadManager)
      else if placement.Under? && Above(units, Some(placement.parent), id) then Some(CreatesCycle)
      else None
    case Archive(id, organization, memberships) =>
      if !Owned(units, id, organization) then Some(NotFound)
      else if exists x :: x in units && units[x].parent == Some(id) && units[x].active then Some(HasActiveChildren)
      else if memberships > 0 then Some(HasMembers)
      else None
  }

  /** The table after a command. */
  ghost function After(units: Units, c: Command): Units {
    if Refused(units, c).Some? then units
    else
      match c
      case Create(id, organization, under, _) => units[id := Unit(organization, under, true)]
      case Update(id, _, placement, _) => Moved(units, id, Placed(units, id, placement))
      case Archive(id, _, _) => units[id := units[id].(active := false)]
  }

  ghost function Run(units: Units, commands: seq<Command>): Units {
    if commands == [] then units else After(Run(units, commands[..|commands| - 1]), commands[|commands| - 1])
  }

  /** A created unit gets an id that no row has. */
  ghost predicate Fresh(units: Units, c: Command) {
    c.Create? ==> c.id !in units
  }

  /** The same parents everywhere: the same walks. */
  lemma {:induction false} SameUp(a: Units, b: Units, x: Option<Id>, n: nat)
    requires forall y :: ParentOf(a, y) == ParentOf(b, y)
    ensures Up(a, x, n) == Up(b, x, n)
    decreases n
  {
    if n > 0 && x.Some? {
      SameUp(a, b, ParentOf(a, x.value), n - 1);
    }
  }

  lemma SameCycles(a: Units, b: Units)
    requires forall y :: ParentOf(a, y) == ParentOf(b, y)
    requires Acyclic(a)
    ensures Acyclic(b)
  {
    forall x, n: nat
      ensures !Cycle(b, x, n)
    {
      SameUp(a, b, Some(x), n);
      assert !Cycle(a, x, n);
    }
  }

  /** A new unit is nobody's parent, so it is on no walk that does not start at it. */
  lemma {:induction false} NewUnmet(units: Units, id: Id, x: Option<Id>, n: nat)
    requires Linked(units) && id !in units && x != Some(id)
    ensures Up(units, x, n) != Some(id)
    decreases n
  {
    if n > 0 && x.Some? {
      NewUnmet(units, id, ParentOf(units, x.value), n - 1);
    }
  }

  lemma CreateKeepsForest(units: Units, c: Command)
    requires c.Create? && Forest(units) && Fresh(units, c) && Refused(units, c).None?
    ensures Forest(After(units, c))
  {
    var blank := units[c.id := Unit(c.organization, None, true)];
    SameCycles(units, blank);
    assert Linked(blank);
    forall n: nat
      ensures Up(blank, c.under, n) != Some(c.id)
    {
      NewUnmet(units, c.id, c.under, n);
      SameUp(units, blank, c.under, n);
    }
    MoveCreatesCycle(blank, c.id, c.under);
    assert Moved(blank, c.id, c.under) == After(units, c);
  }

  lemma UpdateKeepsForest(units: Units, c: Command)
    requires c.Update? && Forest(units) && Refused(units, c).None?
    ensures Forest(After(units, c))
  {
    var parent := Placed(units, c.id, c.placement);
    if c.placement.Keep? {
      assert After(units, c) == units;
    } else {
      if c.placement.Detach? {
        forall n: nat
          ensures Up(units, parent, n) != Some(c.id)
        {
        }
      }
      assert !Above(units, parent, c.id);
      MoveCreatesCycle(units, c.id, parent);
      hide Acyclic, Above;
      assert Linked(After(units, c));
    }
  }

  lemma ArchiveKeepsForest(units: Units, c: Command)
    requires c.Archive? && Forest(units) && Refused(units, c).None?
    ensures Forest(After(units, c))
  {
    SameCycles(units, After(units, c));
  }

  lemma StepKeepsForest(units: Units, c: Command)
    requires Forest(units) && Fresh(units, c)
    ensures Forest(After(units, c))
  {
    if Refused(units, c).None? {
      match c
      case Create(_, _, _, _) => CreateKeepsForest(units, c);
      case Update(_, _, _, _) => UpdateKeepsForest(units, c);
      case Archive(_, _, _) => ArchiveKeepsForest(units, c);
    }
  }

  ghost predicate FreshRun(units: Units, commands: seq<Command>) {
    forall i :: 0 <= i < |commands| ==> Fresh(Run(units, commands[..i]), commands[i])
  }

  /** Over every sequence of commands the table stays a forest inside each organization. */
  lemma {:induction false} RunKeepsForest(units: Units, commands: seq<Command>)
    requires Forest(units) && FreshRun(units, commands)
    ensures Forest(Run(units, commands))
  {
    if commands != [] {
      var n := |commands| - 1;
      forall i | 0 <= i < n
        ensures Fresh(Run(units, commands[..n][..i]), commands[..n][i])
      {
        assert commands[..n][..i] == commands[..i];
      }
      RunKeepsForest(units, commands[..n]);
      StepKeepsForest(Run(units, commands[..n]), commands[n]);
    }
  }

  // ----- Commands whose transactions interleave -----

  /** What a command writes once its tests have passed, on whatever table it then finds. */
  function Written(units: Units, c: Command): Units
    requires !c.Create? ==> c.id in units
  {
    match c
    case Create(id, organization, under, _) => units[id := Unit(organization, under, true)]
    case Update(id, _, placement, _) => Moved(units, id, Placed(units, id, placement))
    case Archive(id, _, _) => units[id := units[id].(active := false)]
  }

  /** A walk that never meets the moved unit is the same in both tables. */
  lemma AboveUnmoved(units: Units, id: Id, parent: Option<Id>, x: Option<Id>, y: Id)
    requires id in units && !Above(units, x, id)
    ensures Above(Moved(units, id, parent), x, y) <==> Above(units, x, y)
  {
    forall n: nat
      ensures Up(Moved(units, id, parent), x, n) == Up(units, x, n)
    {
      UpUnmoved(units, id, parent, x, n);
    }
  }

  lemma AboveAt(units: Units, x: Option<Id>, y: Id, n: nat)
    requires Up(units, x, n) == Some(y)
    ensures Above(units, x, y)
  {
  }

  /** After `a` has moved, a walk that met `a` goes on from `a`'s new parent. */
  lemma AboveThrough(units: Units, a: Id, pa: Option<Id>, x: Option<Id>, b: Id)
    requires a in units && a != b && !Above(units, pa, a) && Above(units, x, a) && !Above(units, x, b)
    ensures Above(Moved(units, a, pa), x, b) <==> Above(units, pa, b)
  {
    var one := Moved(units, a, pa);
    var n: nat :| Up(units, x, n) == Some(a);
    var k := FirstMeeting(units, x, a, n);
    UpUnmoved(units, a, pa, x, k);
    AboveUnmoved(units, a, pa, pa, b);
    if m: nat :| Up(one, pa, m) == Some(b) {
      UpSum(one, x, k, m + 1);
      assert Up(one, Some(a), m + 1) == Up(one, pa, m);
      AboveAt(one, x, b, k + (m + 1));
    }
    if m: nat :| Up(one, x, m) == Some(b) {
      if m < k {
        UpUnmoved(units, a, pa, x, m);
        AboveAt(units, x, b, m);
      } else {
        UpSum(one, x, k, m - k);
        assert Up(one, Some(a), m - k) == Up(one, pa, m - k - 1);
        AboveAt(one, pa, b, m - k - 1);
      }
    }
  }

  /**
   Two moves that are each accepted on the same table and both written: they close a cycle if and only if
   each unit was put at or below the other.
   */
  lemma InterleavedMovesExactly(units: Units, a: Id, pa: Option<Id>, b: Id, pb: Option<Id>)
    requires Acyclic(units) && a in units && b in units && a != b
    requires !Above(units, pa, a) && !Above(units, pb, b)
    ensures Acyclic(Moved(Moved(units, a, pa), b, pb)) <==> !(Above(units, pb, a) && Above(units, pa, b))
  {
    MoveCreatesCycle(units, a, pa);
    MoveCreatesCycle(Moved(units, a, pa), b, pb);
    hide Acyclic;
    if Above(units, pb, a) {
      AboveThrough(units, a, pa, pb, b);
    } else {
      AboveUnmoved(units, a, pa, pb, b);
    }
  }

  /** Each of two moves puts its unit at or below the other's. */
  ghost predicate Crossing(units: Units, c: Command, d: Command) {
    && c.Update? && d.Update? && c.placement.Under? && d.placement.Under? && c.id != d.id
    && Above(units, Some(c.placement.parent), d.id) && Above(units, Some(d.placement.parent), c.id)
  }

  /** One command archives the unit under which the other puts an active one. */
  predicate Orphaning(units: Units, c: Command, d: Command) {
    && c.Archive?
    && match d
       case Create(_, _, under, _) => under == Some(c.id)
       case Update(id, _, placement, _) => placement == Under(c.id) && id in units && units[id].active
       case Archive(_, _, _) => false
  }

  ghost predicate Clash(units: Units, c: Command, d: Command) {
    Crossing(units, c, d) || Orphaning(units, c, d) || Orphaning(units, d, c)
  }

  ghost predicate Accepted(units: Units, c: Command) {
    Refused(units, c).None? && Fresh(units, c)
  }

  /** A command accepted on what another has left is a serial run. */
  lemma SerialForest(units: Units, c: Command, d: Command)
    requires Forest(units) && Accepted(units, c) && Accepted(Written(units, c), d)
    ensures Forest(Written(Written(units, c), d))
  {
    StepKeepsForest(units, c);
    StepKeepsForest(Written(units, c), d);
    hide Forest;
  }

  lemma Commute(units: Units, c: Command, d: Command)
    requires (!c.Create? ==> c.id in units) && (!d.Create? ==> d.id in units) && Fresh(units, c) && Fresh(units, d)
    requires c.id != d.id || (c.Update? && d.Archive?)
    ensures Written(Written(units, c), d) == Written(Written(units, d), c)
  {
  }

  lemma OrphanUnlinked(units: Units, c: Command, d: Command)
    requires Accepted(units, c) && Accepted(units, d) && c.id != d.id && Orphaning(units, c, d)
    ensures !Linked(Written(Written(units, c), d))
  {
    var two := Written(Written(units, c), d);
    assert two[d.id].parent == Some(c.id) && two[d.id].active && !two[c.id].active;
  }

  lemma WithArchive(units: Units, c: Command, d: Command)
    requires Forest(units) && Accepted(units, c) && Accepted(units, d) && d.Archive? && !Orphaning(units, d, c)
    ensures Accepted(Written(units, c), d)
  {
    hide Above, Acyclic;
  }

  lemma UnderItself(units: Units, c: Command)
    requires Accepted(units, c) && c.Update? && c.placement.Under?
    ensures c.placement.parent != c.id
  {
    if c.placement.parent == c.id {
      AboveAt(units, Some(c.placement.parent), c.id, 0);
    }
  }

  lemma TwoUpdates(units: Units, c: Command, d: Command)
    requires Forest(units) && Accepted(units, c) && Accepted(units, d) && c.Update? && d.Update?
    ensures Forest(Written(Written(units, c), d)) <==> !Clash(units, c, d)
  {
    StepKeepsForest(units, c);
    StepKeepsForest(units, d);
    var one := Written(units, c);
    var two := Written(one, d);
    if c.placement.Keep? {
      assert one == units;
    } else if d.placement.Keep? {
      assert two == one;
    } else if c.id == d.id {
      assert two == Written(units, d);
    } else {
      var pa, pb := Placed(units, c.id, c.placement), Placed(units, d.id, d.placement);
      NothingAbove(units, c.id);
      NothingAbove(units, d.id);
      InterleavedMovesExactly(units, c.id, pa, d.id, pb);
      assert two == Moved(Moved(units, c.id, pa), d.id, pb);
      assert Linked(two);
      hide Above, Acyclic;
    }
  }

  lemma NothingAbove(units: Units, id: Id)
    ensures !Above(units, None, id)
  {
    forall n: nat
      ensures Up(units, None, n) != Some(id)
    {
    }
  }

  /**
   Two commands whose tests both passed on the same table and whose writes both follow, in either order:
   the table stays a forest if and only if they do not clash.
   */
  lemma InterleavedExactly(units: Units, c: Command, d: Command)
    requires Forest(units) && Accepted(units, c) && Accepted(units, d) && (c.Create? && d.Create? ==> c.id != d.id)
    ensures Forest(Written(Written(units, c), d)) <==> !Clash(units, c, d)
  {
    if c.Update? && d.Update? {
      TwoUpdates(units, c, d);
    } else if d.Archive? {
      if c.Update? && c.placement.Under? {
        UnderItself(units, c);
      }
      if Orphaning(units, d, c) {
        Commute(units, c, d);
        OrphanUnlinked(units, d, c);
      } else {
        WithArchive(units, c, d);
        SerialForest(units, c, d);
        hide Forest;
      }
    } else if c.Archive? {
      if d.Update? && d.placement.Under? {
        UnderItself(units, d);
      }
      Commute(units, d, c);
      if Orphaning(units, c, d) {
        OrphanUnlinked(units, c, d);
      } else {
        WithArchive(units, d, c);
        SerialForest(units, d, c);
        hide Forest;
      }
    } else if d.Create? {
      assert Accepted(Written(units, c), d);
      SerialForest(units, c, d);
      hide Forest;
    } else {
      Commute(units, c, d);
      assert Accepted(Written(units, d), c);
      SerialForest(units, d, c);
      hide Forest;
    }
  }

  /** The smallest clash of moves: of two units without parents, each is put under the other. */
  lemma InterleavedMovesCycle(organization: Id, a: Id, b: Id)
    requires a != b
    ensures var root := Unit(organization, None, true);
            var units := map[a := root, b := root];
            && Forest(units)
            && Accepted(units, Command.Update(a, organization, Under(b), true))
            && Accepted(units, Command.Update(b, organization, Under(a), true))
            && !Acyclic(Moved(Moved(units, a, Some(b)), b, Some(a)))
  {
    var units := map[a := Unit(organization, None, true), b := Unit(organization, None, true)];
    forall x
      ensures Rooted(units, x)
    {
      assert x.Some? ==> Up(units, x, 1) == Up(units, None, 0);
      assert EndsAt(units, x, 1);
    }
    AcyclicIffRooted(units);
    forall n: nat, x, y | x != y
      ensures Up(units, Some(x), n) != Some(y)
    {
      assert n > 0 ==> Up(units, Some(x), n) == Up(units, None, n - 1);
    }
    var after := Moved(Moved(units, a, Some(b)), b, Some(a));
    assert Up(after, Some(a), 2) == Up(after, Some(b), 1) == Up(after, Some(a), 0);
    assert Cycle(after, a, 2);
  }

  // ----- The service -----

  class DepartmentsService {
    var units: Units

    constructor ()
      ensures units == map[] && Forest(units)
    {
      units := map[];
      new;
      forall x, n: nat
        ensures !Cycle(units, x, n)
      {
        if n > 0 {
          assert Up(units, Some(x), n) == Up(units, None, n - 1);
        }
      }
    }

    /** `validateRelations`: the manager's lookup is its verdict, `managerValid`. */
    method ValidateRelations(organization: Id, parent: Option<Id>, managerValid: bool) returns (r: Outcome<Refusal>)
      ensures r == if parent.Some? && !ActiveIn(units, parent.value, organization) then Raised(BadParent)
                   else if !managerValid then Raised(BadManager)
                   else Done
    {
      if parent.Some? && !ActiveIn(units, parent.value, organization) {
        return Raised(BadParent);
      }
      if !managerValid {
        return Raised(BadManager);
      }
      return Done;
    }

    method Create(id: Id, organization: Id, under: Option<Id>, managerValid: bool) returns (r: Outcome<Refusal>)
      requires Forest(units) && id !in units
      modifies this
      ensures units == After(old(units), Command.Create(id, organization, under, managerValid))
      ensures Refused(old(units), Command.Create(id, organization, under, managerValid))
              == if r.Raised? then Some(r.error) else None
      ensures Forest(units)
    {
      StepKeepsForest(units, Command.Create(id, organization, under, managerValid));
      hide Forest;
      :- ValidateRelations(organization, under, managerValid);
      units := units[id := Unit(organization, under, true)];
      r := Done;
    }

    /** The ancestor walk of `update`; it ends because the table is a forest. */
    method Meets(parent: Id, id: Id) returns (met: bool)
      requires Forest(units)
      ensures met <==> Above(units, Some(parent), id)
    {
      AcyclicIffRooted(units);
      hide Acyclic;
      var at := Some(parent);
      assert Rooted(units, at);
      ghost var left: nat :| EndsAt(units, at, left);
      ghost var steps: nat := 0;
      while at.Some?
        invariant EndsAt(units, at, left)
        invariant at == Up(units, Some(parent), steps)
        invariant forall k: nat :: k < steps ==> Up(units, Some(parent), k) != Some(id)
        decreases left
      {
        if at.value == id {
          return true;
        }
        UpSum(units, Some(parent), steps, 1);
        assert Up(units, at, 1) == Up(units, ParentOf(units, at.value), 0);
        at := ParentOf(units, at.value);
        left, steps := left - 1, steps + 1;
      }
      forall k: nat | k >= steps
        ensures Up(units, Some(parent), k) == None
      {
        UpSum(units, Some(parent), steps, k - steps);
      }
      return false;
    }

    method Update(id: Id, organization: Id, placement: Placement, managerValid: bool) returns (r: Outcome<Refusal>)
      requires Forest(units)
      modifies this
      ensures units == After(old(units), Command.Update(id, organization, placement, managerValid))
      ensures Refused(old(units), Command.Update(id, organization, placement, managerValid))
              == if r.Raised? then Some(r.error) else None
      ensures Forest(units)
    {
      StepKeepsForest(units, Command.Update(id, organization, placement, managerValid));
      hide Forest, Above;
      if !Owned(units, id, organization) {
        return Raised(NotFound);
      }
      :- ValidateRelations(organization, if placement.Under? then Some(placement.parent) else None, managerValid);
      if placement.Under? {
        var met := Meets(placement.parent, id);
        if met {
          return Raised(CreatesCycle);
        }
      }
      units := Moved(units, id, Placed(units, id, placement));
      r := Done;
    }

    method Archive(id: Id, organization: Id, memberships: nat) returns (r: Outcome<Refusal>)
      requires Forest(units)
      modifies this
      ensures units == After(old(units), Command.Archive(id, organization, memberships))
      ensures Refused(old(units), Command.Archive(id, organization, memberships))
              == if r.Raised? then Some(r.error) else None
      ensures Forest(units)
    {
      StepKeepsForest(units, Command.Archive(id, organization, memberships));
      hide Forest;
      if !Owned(units, id, organization) {
        return Raised(NotFound);
      }
      if exists x :: x in units && units[x].parent == Some(id) && units[x].active {
        return Raised(HasActiveChildren);
      }
      if memberships > 0 {
        return Raised(HasMembers);
      }
      units := units[id := units[id].(active := false)];
      r := Done;
    }
  }
}
