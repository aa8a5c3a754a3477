/**
 Who may do what on which project (`business-entity.policy.ts`): the permissions of an actor compiled
 to a database query, and the same decision taken in memory on one project.
 */
module ProjectPolicy {
  import opened Outcomes

  type Id = string

  datatype Scope = SystemScope | OrganizationScope | DepartmentScope | SelfScope

  datatype Administration = SystemWide | OrganizationWide | ManagedDepartments | SelfOnly

  /** One role assignment's contribution: a permission and how far it reaches. */
  datatype Source = Source(permission: string, scope: Scope, departmentId: Option<Id>,
      managedDepartmentIds: Option<seq<Id>>)

  datatype Actor = Actor(
    userId: Id,
    organizationId: Id,
    permissions: seq<string>,
    sources: Option<seq<Source>>,
    administration: Administration,
    managedDepartmentIds: seq<Id>)

  datatype Project = Project(
    organizationId: Id,
    deleted: bool,
    ownerId: Option<Id>,
    managerId: Option<Id>,
    members: seq<Id>,
    departments: seq<Id>)

  /** The fragment of the query language the policy uses; `All([])` is the empty object. */
  datatype Where =
    | All(conditions: seq<Where>)
    | Any(alternatives: seq<Where>)
    | InOrganization(organization: Id)
    | NotDeleted
    | NoId
    | OwnedBy(user: Id)
    | ManagedBy(user: Id)
    | HasMember(user: Id)
    | InDepartment(ids: seq<Id>)

  /** What the database answers for one project. */
  predicate Matches(w: Where, p: Project) {
    match w
    case All(conditions) => forall c | c in conditions :: Matches(c, p)
    case Any(alternatives) => exists a | a in alternatives :: Matches(a, p)
    case InOrganization(organization) => p.organizationId == organization
    case NotDeleted => !p.deleted
    case NoId => false
    case OwnedBy(user) => p.ownerId == Some(user)
    case ManagedBy(user) => p.managerId == Some(user)
    case HasMember(user) => user in p.members
    case InDepartment(ids) => exists d | d in p.departments :: d in ids
  }

  function SelfAccess(actor: Actor): seq<Where> {
    [OwnedBy(actor.userId), ManagedBy(actor.userId), HasMember(actor.userId)]
  }

  function LegacyAccess(actor: Actor): Where {
    match actor.administration
    case SystemWide => All([])
    case OrganizationWide => All([])
    case ManagedDepartments => Any(SelfAccess(actor) + [InDepartment(actor.managedDepartmentIds)])
    case SelfOnly => Any(SelfAccess(actor))
  }

  function SourcesFor(sources: seq<Source>, permission: string): (r: seq<Source>)
    ensures forall s :: s in r <==> s in sources && s.permission == permission
  {
    if sources == [] then []
    else (if sources[0].permission == permission then [sources[0]] else []) + SourcesFor(sources[1..], permission)
  }

  predicate Wide(s: Source) {
    s.scope == SystemScope || s.scope == OrganizationScope
  }

  /** The departments one source contributes to the query. */
  function QueryDepartments(actor: Actor, s: Source): seq<Id> {
    if s.scope != DepartmentScope then []
    else
      match s.managedDepartmentIds
      case Some(ids) => ids
      case None =>
        if s.departmentId.Some? && s.departmentId.value in actor.managedDepartmentIds then [s.departmentId.value]
        else []
  }

  function AllQueryDepartments(actor: Actor, sources: seq<Source>): (r: seq<Id>)
    ensures forall d :: d in r <==> exists s :: s in sources && d in QueryDepartments(actor, s)
  {
    if sources == [] then [] else QueryDepartments(actor, sources[0]) + AllQueryDepartments(actor, sources[1..])
  }

  /** The condition that one permission contributes to the query. */
  function AccessFor(actor: Actor, permission: string): Where
    requires actor.sources.Some?
  {
    var sources := SourcesFor(actor.sources.value, permission);
    if permission !in actor.permissions || sources == [] then NoId
    else if exists s :: s in sources && Wide(s) then All([])
    else
      var ids := AllQueryDepartments(actor, sources);
      Any(SelfAccess(actor) + if ids == [] then [] else [InDepartment(ids)])
  }

  /** `new Set(required)`: the first occurrence of each. */
  function Distinct(required: seq<string>): (r: seq<string>)
    ensures forall q :: q in r <==> q in required
  {
    if required == [] then []
    else
      var init, last := required[..|required| - 1], required[|required| - 1];
      assert required == init + [last];
      Distinct(init) + if last in init then [] else [last]
  }

  function Base(actor: Actor): seq<Where> {
    [InOrganization(actor.organizationId), NotDeleted]
  }

  /** `projectWhereForPermissions`. */
  function WhereForPermissions(actor: Actor, required: seq<string>): Where {
    var needed := Distinct(required);
    if exists q :: q in needed && q !in actor.permissions then All(Base(actor) + [NoId])
    else if needed == [] && actor.sources.Some? then All(Base(actor) + [Any(SelfAccess(actor))])
    else if needed == [] || actor.sources.None? then All(Base(actor) + [LegacyAccess(actor)])
    else
      var access := seq(|needed|, i requires 0 <= i < |needed| => AccessFor(actor, needed[i]));
      All(Base(actor) + if exists a :: a in access && a != All([]) then [All(access)] else [])
  }

  predicate Own(actor: Actor, p: Project) {
    p.ownerId == Some(actor.userId) || p.managerId == Some(actor.userId) || actor.userId in p.members
  }

  /** The departments one source reaches when the decision is taken in memory. */
  function MemoryDepartments(s: Source): seq<Id> {
    if s.scope != DepartmentScope then []
    else
      match s.managedDepartmentIds
      case Some(ids) => ids
      case None => if s.departmentId.Some? then [s.departmentId.value] else []
  }

  /** `projectPermissionApplies`. */
  predicate Applies(actor: Actor, permission: string, p: Project) {
    && permission in actor.permissions
    && match actor.sources
       case None =>
         || actor.administration == SystemWide
         || actor.administration == OrganizationWide
         || Own(actor, p)
         || (actor.administration == ManagedDepartments
             && exists d :: d in p.departments && d in actor.managedDepartmentIds)
       case Some(sources) =>
         exists s :: s in sources && s.permission == permission
                     && (Wide(s) || Own(actor, p) || exists d :: d in p.departments && d in MemoryDepartments(s))
  }

  predicate Live(actor: Actor, p: Project) {
    p.organizationId == actor.organizationId && !p.deleted
  }

  // ----- Where the query and the predicate agree -----

  /**
   The condition under which query and memory agree on one permission, readable off the actor: no
   source of it names a department by itself alone that the actor does not manage and no other
   source reaches; a permission the actor lacks, or holds widely, is always settled alike.
   */
  predicate Settled(actor: Actor, permission: string) {
    || actor.sources.None?
    || permission !in actor.permissions
    || (exists s :: s in actor.sources.value && s.permission == permission && Wide(s))
    || forall s, d :: s in actor.sources.value && s.permission == permission && d in MemoryDepartments(s) ==>
         exists t :: t in actor.sources.value && t.permission == permission && d in QueryDepartments(actor, t)
  }

  /** The guard gives every source its list of departments; then everything is settled. */
  predicate Listed(actor: Actor) {
    actor.sources.Some? ==> forall s :: s in actor.sources.value ==> s.managedDepartmentIds.Some?
  }

  lemma ListedSettles(actor: Actor, permission: string)
    requires Listed(actor)
    ensures Settled(actor, permission)
  {
    if actor.sources.Some? {
      forall s, d | s in actor.sources.value && s.permission == permission && d in MemoryDepartments(s)
        ensures exists t :: t in actor.sources.value && t.permission == permission && d in QueryDepartments(actor, t)
      {
        assert QueryDepartments(actor, s) == MemoryDepartments(s);
      }
    }
  }

  lemma SelfMatches(actor: Actor, more: seq<Where>, p: Project)
    ensures Matches(Any(SelfAccess(actor) + more), p) <==> Own(actor, p) || exists w :: w in more && Matches(w, p)
  {
    var all := SelfAccess(actor) + more;
    assert all[0] == OwnedBy(actor.userId) && all[1] == ManagedBy(actor.userId) && all[2] == HasMember(actor.userId);
    assert forall w :: w in all <==> w in SelfAccess(actor) || w in more;
    assert OwnedBy(actor.userId) in all && ManagedBy(actor.userId) in all && HasMember(actor.userId) in all;
  }

  lemma BaseMatches(actor: Actor, more: seq<Where>, p: Project)
    ensures Matches(All(Base(actor) + more), p) <==> Live(actor, p) && forall w :: w in more ==> Matches(w, p)
  {
    var all := Base(actor) + more;
    assert all[0] == InOrganization(actor.organizationId) && all[1] == NotDeleted;
    assert forall w :: w in all <==> w in Base(actor) || w in more;
    assert InOrganization(actor.organizationId) in all && NotDeleted in all;
  }

  /** What the condition for one permission answers. */
  lemma AccessMatches(actor: Actor, permission: string, p: Project)
    requires actor.sources.Some?
    ensures Matches(AccessFor(actor, permission), p) <==>
            && permission in actor.permissions
            && exists s :: s in actor.sources.value && s.permission == permission
                 && (Wide(s) || Own(actor, p) || exists d :: d in p.departments && d in QueryDepartments(actor, s))
  {
    var sources := SourcesFor(actor.sources.value, permission);
    var ids := AllQueryDepartments(actor, sources);
    var departments := if ids == [] then [] else [InDepartment(ids)];
    SelfMatches(actor, departments, p);
    assert (exists w :: w in departments && Matches(w, p)) <==> exists d :: d in p.departments && d in ids by {
      assert ids != [] ==> InDepartment(ids) in departments;
    }
    assert sources == [] || sources[0] in sources;
    assert AccessFor(actor, permission) ==
           if permission !in actor.permissions || sources == [] then NoId
           else if exists s :: s in sources && Wide(s) then All([])
           else Any(SelfAccess(actor) + departments);
    hide AccessFor, Matches, QueryDepartments, Own, SourcesFor, AllQueryDepartments, SelfAccess;
    if permission in actor.permissions && sources != [] && !(exists s :: s in sources && Wide(s)) {
      if d :| d in p.departments && d in ids {
        var s :| s in sources && d in QueryDepartments(actor, s);
      }
    } else {
      EmptyMatches(p);
    }
  }

  lemma EmptyMatches(p: Project)
    ensures Matches(All([]), p) && !Matches(NoId, p)
  {
  }

  lemma AppliesFromQuery(actor: Actor, permission: string, p: Project)
    requires actor.sources.Some?
    ensures Matches(AccessFor(actor, permission), p) ==> Applies(actor, permission, p)
    ensures Settled(actor, permission) && Applies(actor, permission, p) ==> Matches(AccessFor(actor, permission), p)
  {
    AccessMatches(actor, permission, p);
    hide AccessFor, Matches;
    var sources := actor.sources.value;
    if Matches(AccessFor(actor, permission), p) {
      var s :| s in sources && s.permission == permission
               && (Wide(s) || Own(actor, p) || exists d :: d in p.departments && d in QueryDepartments(actor, s));
      assert forall d :: d in QueryDepartments(actor, s) ==> d in MemoryDepartments(s);
    }
    if Settled(actor, permission) && Applies(actor, permission, p) {
      var s :| s in sources && s.permission == permission
               && (Wide(s) || Own(actor, p) || exists d :: d in p.departments && d in MemoryDepartments(s));
      if !Wide(s) && !Own(actor, p) && !(exists t :: t in sources && t.permission == permission && Wide(t)) {
        var d :| d in p.departments && d in MemoryDepartments(s);
        var t :| t in sources && t.permission == permission && d in QueryDepartments(actor, t);
      }
    }
  }

  lemma LegacyMatches(actor: Actor, p: Project)
    ensures Matches(LegacyAccess(actor), p) <==>
            || actor.administration == SystemWide
            || actor.administration == OrganizationWide
            || Own(actor, p)
            || (actor.administration == ManagedDepartments
                && exists d :: d in p.departments && d in actor.managedDepartmentIds)
  {
    SelfMatches(actor, [], p);
    assert SelfAccess(actor) + [] == SelfAccess(actor);
    var departments := InDepartment(actor.managedDepartmentIds);
    SelfMatches(actor, [departments], p);
    assert departments in [departments];
  }

  /**
   The compiled query preserves meaning: for any non-empty list of permissions that are settled, it
   returns exactly the live projects of the organization on which each of them applies.
   */
  lemma QueryMatchesPredicate(actor: Actor, required: seq<string>, p: Project)
    requires required != []
    requires forall q :: q in required ==> Settled(actor, q)
    ensures Matches(WhereForPermissions(actor, required), p)
            <==> Live(actor, p) && forall q :: q in required ==> Applies(actor, q, p)
  {
    hide AccessFor, Settled;
    var needed := Distinct(required);
    assert required[0] in needed;
    if exists q :: q in needed && q !in actor.permissions {
      BaseMatches(actor, [NoId], p);
      assert NoId in [NoId];
    } else if actor.sources.None? {
      BaseMatches(actor, [LegacyAccess(actor)], p);
      assert LegacyAccess(actor) in [LegacyAccess(actor)];
      LegacyMatches(actor, p);
    } else {
      var access := seq(|needed|, i requires 0 <= i < |needed| => AccessFor(actor, needed[i]));
      forall q | q in required
        ensures Matches(AccessFor(actor, q), p) <==> Applies(actor, q, p)
        ensures AccessFor(actor, q) in access
      {
        AppliesFromQuery(actor, q, p);
        var i :| 0 <= i < |needed| && needed[i] == q;
        assert access[i] == AccessFor(actor, q);
      }
      BaseMatches(actor, if exists a :: a in access && a != All([]) then [All(access)] else [], p);
      AccessList(actor, required, needed, access, p);
    }
  }

  /** The list of conditions holds exactly when each permission's condition does. */
  lemma AccessList(actor: Actor, required: seq<string>, needed: seq<string>, access: seq<Where>, p: Project)
    requires actor.sources.Some? && forall q :: q in needed <==> q in required
    requires |access| == |needed| && forall i :: 0 <= i < |needed| ==> access[i] == AccessFor(actor, needed[i])
    ensures Matches(All(access), p) <==> forall q :: q in required ==> Matches(AccessFor(actor, q), p)
    ensures (forall a :: a in access ==> a == All([])) ==> forall q :: q in required ==> Matches(AccessFor(actor, q), p)
    ensures All(access) in [All(access)]
  {
    hide AccessFor;
    forall q | q in required
      ensures AccessFor(actor, q) in access
    {
      var i :| 0 <= i < |needed| && needed[i] == q;
      assert access[i] == AccessFor(actor, q);
    }
  }

  /** With the sources the guard builds, the query needs no condition. */
  lemma GuardedQueryMatchesPredicate(actor: Actor, required: seq<string>, p: Project)
    requires required != [] && Listed(actor)
    ensures Matches(WhereForPermissions(actor, required), p)
            <==> Live(actor, p) && forall q :: q in required ==> Applies(actor, q, p)
  {
    forall q | q in required {
      ListedSettles(actor, q);
    }
    QueryMatchesPredicate(actor, required, p);
  }

  /**
   The condition is exact: query and predicate agree on every project for a permission if and only
   if it is settled. Otherwise some project of the organization is admitted in memory alone.
   */
  lemma SettledExactly(actor: Actor, permission: string)
    ensures Settled(actor, permission) <==>
            forall p :: Matches(WhereForPermissions(actor, [permission]), p) <==>
                Live(actor, p) && Applies(actor, permission, p)
  {
    if Settled(actor, permission) {
      forall p
        ensures Matches(WhereForPermissions(actor, [permission]), p) <==>
                Live(actor, p) && Applies(actor, permission, p)
      {
        QueryMatchesPredicate(actor, [permission], p);
        assert permission in [permission];
      }
    } else {
      var p := Unsettled(actor, permission);
    }
  }

  lemma WhereOne(actor: Actor, permission: string)
    requires actor.sources.Some? && permission in actor.permissions
    ensures var access := AccessFor(actor, permission);
            WhereForPermissions(actor, [permission])
                == All(Base(actor) + if access == All([]) then [] else [All([access])])
  {
    hide AccessFor;
    assert Distinct([permission]) == [permission] by {
      assert [permission][..0] == [];
    }
    var access := [AccessFor(actor, permission)];
    assert seq(|[permission]|, i requires 0 <= i < |[permission]| => AccessFor(actor, [permission][i])) == access;
    assert access[0] in access;
  }

  lemma OneMatches(w: Where, p: Project)
    ensures Matches(All([w]), p) <==> Matches(w, p)
    ensures Matches(All([]), p)
  {
    assert w in [w];
  }

  /** A query for one permission asks for its condition, within the organization. */
  lemma OnePermission(actor: Actor, permission: string, p: Project)
    requires actor.sources.Some? && permission in actor.permissions
    ensures Matches(WhereForPermissions(actor, [permission]), p) <==>
            Live(actor, p) && Matches(AccessFor(actor, permission), p)
  {
    var access := AccessFor(actor, permission);
    hide AccessFor, Live, WhereForPermissions, Matches, Base;
    WhereOne(actor, permission);
    OneMatches(access, p);
    var more := if access == All([]) then [] else [All([access])];
    BaseMatches(actor, more, p);
    assert All([access]) in [All([access])];
  }

  /** A project that shows the difference when a permission is not settled. */
  lemma Unsettled(actor: Actor, permission: string) returns (p: Project)
    requires !Settled(actor, permission)
    ensures Live(actor, p) && Applies(actor, permission, p) && !Matches(WhereForPermissions(actor, [permission]), p)
  {
    var s, d :| s in actor.sources.value && s.permission == permission && d in MemoryDepartments(s)
                && !exists t ::
                    t in actor.sources.value && t.permission == permission && d in QueryDepartments(actor, t);
    p := Project(actor.organizationId, false, None, None, [], [d]);
    assert d in p.departments;
    hide Matches, AccessFor, WhereForPermissions;
    AccessMatches(actor, permission, p);
    OnePermission(actor, permission, p);
  }

  // ----- An actor narrowed to one project -----

  function Filter(permissions: seq<string>, keep: string -> bool): (r: seq<string>)
    ensures forall q :: q in r <==> q in permissions && keep(q)
  {
    if permissions == [] then []
    else
      var rest := Filter(permissions[1..], keep);
      if keep(permissions[0]) then [permissions[0]] + rest else rest
  }

  /** The columns the lookup selects: of the members, only the actor. */
  function Selected(actor: Actor, p: Project): Project {
    p.(members := if actor.userId in p.members then [actor.userId] else [])
  }

  /** `actorForProject`; `found` is the row with the project's id, if there is one. */
  function ActorForProject(actor: Actor, found: Option<Project>): Actor {
    if actor.sources.None? then actor
    else
      actor.(permissions :=
        if found.Some? && Live(actor, found.value)
        then Filter(actor.permissions, q => Applies(actor, q, Selected(actor, found.value)))
        else [])
  }

  /**
   The narrowed actor keeps exactly the permissions whose query would return the project; so for an
   actor as the guard builds it, deciding on the narrowed actor and querying are the same.
   */
  lemma NarrowedKeepsMatching(actor: Actor, p: Project, permission: string)
    requires actor.sources.Some? && Settled(actor, permission)
    ensures permission in ActorForProject(actor, Some(p)).permissions
            <==> Matches(WhereForPermissions(actor, [permission]), p)
  {
    QueryMatchesPredicate(actor, [permission], p);
    assert permission in [permission];
    assert Own(actor, Selected(actor, p)) == Own(actor, p);
    assert Applies(actor, permission, Selected(actor, p)) == Applies(actor, permission, p);
  }
}
