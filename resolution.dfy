/** What HasPermission decides, stated independently of how it searches:
    access is granted exactly when some chain of steps to parent entities and
    parent resources, passing only through undecided (entity, resource) pairs,
    reaches a pair that grants. Deny is therefore only locally authoritative:
    an explicit deny stops the search at its own node, never a different path. */
module Resolution {
  import opened Wrappers
  import opened Permissions
  import opened Graph
  import opened Access

  /** One step of the search: to the entity's `index`-th parent, or to the resource's parent. */
  datatype Step = ToParentEntity(index: nat) | ToParentResource

  /** At (e, r) the chain stops with a grant: ownership, an explicit allow for
      the action, or (no entry for the action and) an allow in the wildcard bucket. */
  ghost predicate GrantsHere(e: Entity, r: Resource, p: Permission)
    reads e, r
  {
    || e in r.owners
    || e.Decision(p, r) == Some(true)
    || (e.Decision(p, r) == None && e.Decision(All, r) == Some(true))
  }

  /** At (e, r) nothing decides, so the search moves on to the parents. */
  ghost predicate Undecided(e: Entity, r: Resource, p: Permission)
    reads e, r
  {
    e !in r.owners && e.Decision(p, r) == None && e.Decision(All, r) != Some(true)
  }

  /** `path`, followed from (e, r), crosses only undecided pairs and ends at a granting one. */
  ghost predicate GrantingPath(e: Entity, r: Resource, p: Permission, path: seq<Step>, scope: Scope)
    requires scope.Valid() && e in scope.entityRank && r in scope.resourceRank
    reads scope.entityRank.Keys, scope.resourceRank.Keys
    decreases |path|
  {
    if path == [] then GrantsHere(e, r, p)
    else
      && Undecided(e, r, p)
      && match path[0]
         case ToParentEntity(i) => i < |e.parents| && GrantingPath(e.parents[i], r, p, path[1..], scope)
         case ToParentResource => r.parent != null && GrantingPath(e, r.parent, p, path[1..], scope)
  }

  /** Every grant has a granting path behind it. */
  lemma {:induction false} GrantHasPath(ac: AccessControl, e: Entity, r: Resource, p: Permission, scope: Scope)
    requires scope.Valid() && e in scope.entityRank && r in scope.resourceRank
    requires ac.HasPermission(e, r, p, scope)
    ensures exists path :: GrantingPath(e, r, p, path, scope)
    decreases scope.entityRank[e] + scope.resourceRank[r]
  {
    if GrantsHere(e, r, p) {
      assert GrantingPath(e, r, p, [], scope);
    } else {
      assert Undecided(e, r, p);
      if ac.SomeParentGrants(e, 0, r, p, scope) {
        var j :| 0 <= j < |e.parents| && ac.HasPermission(e.parents[j], r, p, scope);
        GrantHasPath(ac, e.parents[j], r, p, scope);
        var rest :| GrantingPath(e.parents[j], r, p, rest, scope);
        var path := [ToParentEntity(j)] + rest;
        assert path[1..] == rest;
        assert GrantingPath(e, r, p, path, scope);
      } else {
        var up := r.parent;
        assert up != null && ac.HasPermission(e, up, p, scope);
        GrantHasPath(ac, e, up, p, scope);
        var rest :| GrantingPath(e, up, p, rest, scope);
        var path := [ToParentResource] + rest;
        assert path[1..] == rest;
        assert GrantingPath(e, r, p, path, scope);
      }
    }
  }

  /** Every granting path yields a grant: inheritance through any number of
      parent entities and parent resources. */
  lemma {:induction false} PathGrants(ac: AccessControl, e: Entity, r: Resource, p: Permission, path: seq<Step>, scope: Scope)
    requires scope.Valid() && e in scope.entityRank && r in scope.resourceRank
    requires GrantingPath(e, r, p, path, scope)
    ensures ac.HasPermission(e, r, p, scope)
    decreases |path|
  {
    if path != [] {
      match path[0]
      case ToParentEntity(i) =>
        PathGrants(ac, e.parents[i], r, p, path[1..], scope);
        assert ac.SomeParentGrants(e, 0, r, p, scope);
      case ToParentResource =>
        PathGrants(ac, e, r.parent, p, path[1..], scope);
    }
  }

  /** HasPermission is exactly "some granting path exists". */
  lemma HasPermissionIffGrantingPath(ac: AccessControl, e: Entity, r: Resource, p: Permission, scope: Scope)
    requires scope.Valid() && e in scope.entityRank && r in scope.resourceRank
    ensures ac.HasPermission(e, r, p, scope) <==> exists path :: GrantingPath(e, r, p, path, scope)
  {
    if ac.HasPermission(e, r, p, scope) {
      GrantHasPath(ac, e, r, p, scope);
    }
    if exists path :: GrantingPath(e, r, p, path, scope) {
      var path :| GrantingPath(e, r, p, path, scope);
      PathGrants(ac, e, r, p, path, scope);
    }
  }

  /** An owner is granted every action, even against its own explicit deny
      (accessControl.go:133-137). */
  lemma OwnerOverride(ac: AccessControl, e: Entity, r: Resource, p: Permission, scope: Scope)
    requires scope.Valid() && e in scope.entityRank && r in scope.resourceRank
    requires e in r.owners
    ensures ac.HasPermission(e, r, p, scope)
  {
  }

  /** For a non-owner, an explicit entry for the action is the answer; parents
      and the parent resource are not consulted, so a local deny beats a
      parent's wildcard (accessControl.go:139-143). */
  lemma ExplicitDecisionWins(ac: AccessControl, e: Entity, r: Resource, p: Permission, stored: bool, scope: Scope)
    requires scope.Valid() && e in scope.entityRank && r in scope.resourceRank
    requires e !in r.owners && e.Decision(p, r) == Some(stored)
    ensures ac.HasPermission(e, r, p, scope) == stored
  {
  }

  /** A wildcard allow grants every action that has no explicit entry
      (accessControl.go:145-149). */
  lemma WildcardFillsGap(ac: AccessControl, e: Entity, r: Resource, p: Permission, scope: Scope)
    requires scope.Valid() && e in scope.entityRank && r in scope.resourceRank
    requires e.Decision(p, r) == None && e.Decision(All, r) == Some(true)
    ensures ac.HasPermission(e, r, p, scope)
  {
  }

  /** With nothing deciding at (e, r) (in particular with a wildcard deny,
      which is not a deny), the answer is the disjunction of the inherited
      answers (accessControl.go:145-163). */
  lemma UndecidedDefersToInheritance(ac: AccessControl, e: Entity, r: Resource, p: Permission, scope: Scope)
    requires scope.Valid() && e in scope.entityRank && r in scope.resourceRank
    requires Undecided(e, r, p)
    ensures ac.HasPermission(e, r, p, scope) <==>
      || (exists j :: 0 <= j < |e.parents| && ac.HasPermission(e.parents[j], r, p, scope))
      || (r.parent != null && ac.HasPermission(e, r.parent, p, scope))
  {
  }

  /** A wildcard deny behaves exactly as a missing wildcard entry. */
  lemma WildcardDenyFallsThrough(ac: AccessControl, e: Entity, r: Resource, p: Permission, scope: Scope)
    requires scope.Valid() && e in scope.entityRank && r in scope.resourceRank
    requires e !in r.owners && e.Decision(p, r) == None && e.Decision(All, r) == Some(false)
    ensures ac.HasPermission(e, r, p, scope) ==
      (ac.SomeParentGrants(e, 0, r, p, scope) || (r.parent != null && ac.HasPermission(e, r.parent, p, scope)))
  {
    assert p != All;
  }

  /** Default deny: no owners, no entries for the action or the wildcard, no
      parents and no parent resource (accessControl.go:163). */
  lemma DefaultDeny(ac: AccessControl, e: Entity, r: Resource, p: Permission, scope: Scope)
    requires scope.Valid() && e in scope.entityRank && r in scope.resourceRank
    requires r.owners == [] && e.parents == [] && r.parent == null
    requires e.Decision(p, r) == None && e.Decision(All, r) == None
    ensures !ac.HasPermission(e, r, p, scope)
  {
  }

  /** A fresh entity (all buckets empty) on a fresh resource is denied every
      action, whatever the action. */
  lemma FreshEntityDenied(ac: AccessControl, e: Entity, r: Resource, scope: Scope)
    requires scope.Valid() && e in scope.entityRank && r in scope.resourceRank
    requires r.owners == [] && e.parents == [] && r.parent == null
    requires e.permission == EmptyTable
    ensures forall q :: !ac.HasPermission(e, r, q, scope)
  {
    forall q ensures !ac.HasPermission(e, r, q, scope) {
      EmptyTableIsEmpty(q, r);
      EmptyTableIsEmpty(All, r);
      DefaultDeny(ac, e, r, q, scope);
    }
  }

  /** Entity inheritance is disjunctive: without an owner or an explicit entry,
      one granting parent is enough (accessControl.go:151-155). */
  lemma EntityInheritance(ac: AccessControl, e: Entity, r: Resource, p: Permission, j: nat, scope: Scope)
    requires scope.Valid() && e in scope.entityRank && r in scope.resourceRank
    requires e.Decision(p, r) == None
    requires j < |e.parents| && ac.HasPermission(e.parents[j], r, p, scope)
    ensures ac.HasPermission(e, r, p, scope)
  {
  }

  /** Resource containment: without an owner or explicit entry at the
      sub-resource, a grant on the parent resource carries over
      (accessControl.go:157-161). */
  lemma ResourceContainment(ac: AccessControl, e: Entity, r: Resource, p: Permission, scope: Scope)
    requires scope.Valid() && e in scope.entityRank && r in scope.resourceRank
    requires e.Decision(p, r) == None
    requires r.parent != null && ac.HasPermission(e, r.parent, p, scope)
    ensures ac.HasPermission(e, r, p, scope)
  {
  }

  /** A grant on a resource reaches every descendant along a containment chain
      on which the entity records no entry for the action. `chain[0]` is the
      descendant, each next element its parent, the last the granting ancestor. */
  lemma {:induction false} DescendantInherits(ac: AccessControl, e: Entity, chain: seq<Resource>, p: Permission, scope: Scope)
    requires scope.Valid() && e in scope.entityRank
    requires |chain| >= 1 && forall k | 0 <= k < |chain| :: chain[k] in scope.resourceRank
    requires forall k | 0 <= k < |chain| - 1 :: chain[k].parent == chain[k + 1] && e.Decision(p, chain[k]) == None
    requires ac.HasPermission(e, chain[|chain| - 1], p, scope)
    ensures ac.HasPermission(e, chain[0], p, scope)
    decreases |chain|
  {
    if |chain| > 1 {
      DescendantInherits(ac, e, chain[1..], p, scope);
      ResourceContainment(ac, e, chain[0], p, scope);
    }
  }

  /** A grant held by an ancestor reaches every descendant along a chain of
      parent links on which no entity records an entry for the action on `r`.
      `chain[0]` is the descendant, each next element one of its parents. */
  lemma {:induction false} AncestorInherits(ac: AccessControl, chain: seq<Entity>, r: Resource, p: Permission, scope: Scope)
    requires scope.Valid() && r in scope.resourceRank
    requires |chain| >= 1 && forall k | 0 <= k < |chain| :: chain[k] in scope.entityRank
    requires forall k | 0 <= k < |chain| - 1 :: chain[k + 1] in chain[k].parents && chain[k].Decision(p, r) == None
    requires ac.HasPermission(chain[|chain| - 1], r, p, scope)
    ensures ac.HasPermission(chain[0], r, p, scope)
    decreases |chain|
  {
    if |chain| > 1 {
      AncestorInherits(ac, chain[1..], r, p, scope);
      var j :| 0 <= j < |chain[0].parents| && chain[0].parents[j] == chain[1];
      EntityInheritance(ac, chain[0], r, p, j, scope);
    }
  }
}
