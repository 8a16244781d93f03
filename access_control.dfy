/** The registry and the resolver (accessControl.go). */
module Access {
  import opened Wrappers
  import opened Permissions
  import opened Graph

  /** A ghost snapshot of the part of the heap a query may walk, with a rank
      for every entity and resource in it. The ranks strictly decrease from a
      node to each of its parents, which is how the snapshot says that the
      entity-parent and the resource-parent relations are acyclic: the
      resolver itself has no cycle guard. */
  datatype Scope = Scope(entityRank: map<Entity, nat>, resourceRank: map<Resource, nat>) {

    ghost predicate Valid()
      reads entityRank.Keys, resourceRank.Keys
    {
      && (forall e, i | e in entityRank && 0 <= i < |e.parents| ::
            e.parents[i] in entityRank && entityRank[e.parents[i]] < entityRank[e])
      && (forall r | r in resourceRank && r.parent != null ::
            r.parent in resourceRank && resourceRank[r.parent] < resourceRank[r])
    }
  }

  class AccessControl {
    var entities: seq<Entity>
    var resources: seq<Resource>

    /** NewAccessControl (accessControl.go:15-20). */
    constructor ()
      ensures entities == [] && resources == []
    {
      entities := [];
      resources := [];
    }

    /** CreateResource (accessControl.go:29-34). */
    method CreateResource(id: string) returns (resource: Resource)
      modifies this`resources
      ensures fresh(resource) && resource.id == id && resource.parent == null
      ensures resource.subResources == map[] && resource.owners == []
      ensures resources == old(resources) + [resource]
    {
      resource := new Resource(id);
      var _ := AddResource(resource);
    }

    /** AddResource (accessControl.go:43-46). */
    method AddResource(resource: Resource) returns (self: AccessControl)
      modifies this`resources
      ensures self == this
      ensures resources == old(resources) + [resource]
    {
      resources := resources + [resource];
      self := this;
    }

    /** CreateEntity (accessControl.go:55-59). */
    method CreateEntity(id: string) returns (entity: Entity)
      modifies this`entities
      ensures fresh(entity) && entity.id == id && entity.parents == [] && entity.children == []
      ensures entity.permission == EmptyTable
      ensures entities == old(entities) + [entity]
    {
      entity := new Entity(id);
      var _ := AddEntity(entity);
    }

    /** AddEntity (accessControl.go:68-71). */
    method AddEntity(entity: Entity) returns (self: AccessControl)
      modifies this`entities
      ensures self == this
      ensures entities == old(entities) + [entity]
    {
      entities := entities + [entity];
      self := this;
    }

    /** Allow (accessControl.go:81-84): an explicit allow, and nothing else. */
    method Allow(entity: Entity, resource: Resource, permission: Permission) returns (self: AccessControl)
      modifies entity`permission
      ensures self == this
      ensures entity.permission == Put(old(entity.permission), permission, resource, true)
    {
      entity.AddPerm(permission, resource, true);
      self := this;
    }

    /** Deny (accessControl.go:94-97): an explicit deny, and nothing else. */
    method Deny(entity: Entity, resource: Resource, permission: Permission) returns (self: AccessControl)
      modifies entity`permission
      ensures self == this
      ensures entity.permission == Put(old(entity.permission), permission, resource, false)
    {
      entity.AddPerm(permission, resource, false);
      self := this;
    }

    /** AddEntities (accessControl.go:107-109). */
    method AddEntities(entities: seq<Entity>)
      modifies this`entities
      ensures this.entities == old(this.entities) + entities
    {
      this.entities := this.entities + entities;
    }

    /** AddResources (accessControl.go:119-121). */
    method AddResources(resources: seq<Resource>)
      modifies this`resources
      ensures this.resources == old(this.resources) + resources
    {
      this.resources := this.resources + resources;
    }

    /** HasPermission (accessControl.go:132-164): the fixed precedence chain
        owner, explicit entry, wildcard, parent entities, parent resource,
        deny. It reads only the snapshot's objects, never this registry. */
    function HasPermission(entity: Entity, resource: Resource, permission: Permission, ghost scope: Scope): (granted: bool)
      requires scope.Valid() && entity in scope.entityRank && resource in scope.resourceRank
      reads scope.entityRank.Keys, scope.resourceRank.Keys
      ensures entity in resource.owners ==> granted
      decreases scope.entityRank[entity] + scope.resourceRank[resource], 1, 0
    {
      if entity in resource.owners then true
      else if entity.Decision(permission, resource).Some? then entity.Decision(permission, resource).value
      else if entity.Decision(All, resource) == Some(true) then true
      else
        || SomeParentGrants(entity, 0, resource, permission, scope)
        || (resource.parent != null && HasPermission(entity, resource.parent, permission, scope))
    }

    /** The loop over `entity.Parents` from index `from` on (accessControl.go:151-155),
        stopping at the first parent that grants. */
    function SomeParentGrants(entity: Entity, from: nat, resource: Resource, permission: Permission, ghost scope: Scope): (granted: bool)
      requires scope.Valid() && entity in scope.entityRank && resource in scope.resourceRank
      reads scope.entityRank.Keys, scope.resourceRank.Keys
      ensures granted <==> exists j :: from <= j < |entity.parents| && HasPermission(entity.parents[j], resource, permission, scope)
      decreases scope.entityRank[entity] + scope.resourceRank[resource], 0, |entity.parents| - from
    {
      if from >= |entity.parents| then false
      else
        || HasPermission(entity.parents[from], resource, permission, scope)
        || SomeParentGrants(entity, from + 1, resource, permission, scope)
    }

    /** Can (accessControl.go:175-177). */
    function Can(entity: Entity, resource: Resource, permission: Permission, ghost scope: Scope): (granted: bool)
      requires scope.Valid() && entity in scope.entityRank && resource in scope.resourceRank
      reads scope.entityRank.Keys, scope.resourceRank.Keys
      ensures granted == HasPermission(entity, resource, permission, scope)
    {
      HasPermission(entity, resource, permission, scope)
    }

    /** CanCreate (accessControl.go:188-190). */
    function CanCreate(entity: Entity, resource: Resource, ghost scope: Scope): (granted: bool)
      requires scope.Valid() && entity in scope.entityRank && resource in scope.resourceRank
      reads scope.entityRank.Keys, scope.resourceRank.Keys
      ensures granted == HasPermission(entity, resource, Create, scope)
    {
      Can(entity, resource, Create, scope)
    }

    /** CanRead (accessControl.go:201-203). */
    function CanRead(entity: Entity, resource: Resource, ghost scope: Scope): (granted: bool)
      requires scope.Valid() && entity in scope.entityRank && resource in scope.resourceRank
      reads scope.entityRank.Keys, scope.resourceRank.Keys
      ensures granted == HasPermission(entity, resource, Read, scope)
    {
      Can(entity, resource, Read, scope)
    }

    /** CanUpdate (accessControl.go:214-216). */
    function CanUpdate(entity: Entity, resource: Resource, ghost scope: Scope): (granted: bool)
      requires scope.Valid() && entity in scope.entityRank && resource in scope.resourceRank
      reads scope.entityRank.Keys, scope.resourceRank.Keys
      ensures granted == HasPermission(entity, resource, Update, scope)
    {
      Can(entity, resource, Update, scope)
    }

    /** CanDelete (accessControl.go:227-229). */
    function CanDelete(entity: Entity, resource: Resource, ghost scope: Scope): (granted: bool)
      requires scope.Valid() && entity in scope.entityRank && resource in scope.resourceRank
      reads scope.entityRank.Keys, scope.resourceRank.Keys
      ensures granted == HasPermission(entity, resource, Delete, scope)
    {
      Can(entity, resource, Delete, scope)
    }
  }
}
