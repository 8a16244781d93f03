/** The two object graphs the resolver walks: entities (users, groups, roles)
    linked by symmetric parent/child edges and carrying a permission table
    (entity.go), and resources forming a containment tree with owners
    (resource.go). Both classes live in one module because each refers to
    the other: a table is keyed by resources, a resource lists its owner entities. */
module Graph {
  import opened Wrappers
  import opened Permissions

  /** Permission table: action -> resource (by identity) -> stored decision.
      A missing key at either level means "no decision", not "deny". */
  type Table = map<Permission, map<Resource, bool>>

  /** The table of a new entity: all five buckets present and empty (entity.go:20-25). */
  const EmptyTable: Table := map[All := map[], Create := map[], Read := map[], Update := map[], Delete := map[]]

  /** Every bucket of the empty table exists and holds no entry. */
  lemma EmptyTableIsEmpty(p: Permission, r: Resource)
    ensures p in EmptyTable && EmptyTable[p] == map[] && Lookup(EmptyTable, p, r) == None
  {
    AllPermissionsComplete(p);
  }

  /** Tri-state reading of one table entry. */
  function Lookup(t: Table, p: Permission, r: Resource): (d: Option<bool>)
    ensures d.Some? <==> p in t && r in t[p]
    ensures d.Some? ==> d.value == t[p][r]
  {
    if p in t && r in t[p] then Some(t[p][r]) else None
  }

  /** The table after one write of `enabled` at (p, r); a missing bucket is created first. */
  function Put(t: Table, p: Permission, r: Resource, enabled: bool): (t': Table)
    ensures t'.Keys == t.Keys + {p}
    ensures forall q | q in t && q != p :: t'[q] == t[q]
    ensures t'[p].Keys == (if p in t then t[p].Keys else {}) + {r}
    ensures t'[p][r] == enabled
    ensures forall s | s in t'[p] && s != r :: t'[p][s] == t[p][s]
  {
    var bucket: map<Resource, bool> := if p in t then t[p] else map[];
    t[p := bucket[r := enabled]]
  }

  /** After one write, the written entry holds `enabled` and every other
      (action, resource) entry reads as before. */
  lemma PutLookup(t: Table, p: Permission, r: Resource, enabled: bool, q: Permission, s: Resource)
    ensures Lookup(Put(t, p, r, enabled), q, s) == if q == p && s == r then Some(enabled) else Lookup(t, q, s)
  {
  }

  /** The table after writing `enabled` at (p, r) for every p of `ps`, in order. */
  function PutAll(t: Table, ps: seq<Permission>, r: Resource, enabled: bool): (t': Table)
    ensures t'.Keys == t.Keys + set q | q in ps
    ensures forall q | q in t && q !in ps :: t'[q] == t[q]
    decreases |ps|
  {
    if ps == [] then t
    else Put(PutAll(t, ps[..|ps| - 1], r, enabled), ps[|ps| - 1], r, enabled)
  }

  /** After writing a list of actions, exactly the listed actions on `r` read
      `enabled`; every other entry reads as before. */
  lemma {:induction false} PutAllLookup(t: Table, ps: seq<Permission>, r: Resource, enabled: bool, q: Permission, s: Resource)
    ensures Lookup(PutAll(t, ps, r, enabled), q, s) == if s == r && q in ps then Some(enabled) else Lookup(t, q, s)
    decreases |ps|
  {
    if ps != [] {
      var front := ps[..|ps| - 1];
      assert ps == front + [ps[|ps| - 1]];
      PutAllLookup(t, front, r, enabled, q, s);
      PutLookup(PutAll(t, front, r, enabled), ps[|ps| - 1], r, enabled, q, s);
    }
  }

  /** Writes are last-write-wins: a second write to the same entry replaces the
      first, whatever either value was (so Deny after Allow leaves a deny, and
      repeating a write changes nothing). */
  lemma PutOverwrites(t: Table, p: Permission, r: Resource, first: bool, second: bool)
    ensures Put(Put(t, p, r, first), p, r, second) == Put(t, p, r, second)
  {
    var once := Put(t, p, r, second);
    var twice := Put(Put(t, p, r, first), p, r, second);
    assert twice[p] == once[p];
    assert twice == once;
  }

  /** `Allow`/`Deny` with the same action list twice: the second call decides
      every listed entry, whatever the first wrote, and nothing else differs
      from a single second call (repeating a call is a no-op). */
  lemma PutAllOverwrites(t: Table, ps: seq<Permission>, r: Resource, first: bool, second: bool,
                         q: Permission, s: Resource)
    ensures Lookup(PutAll(PutAll(t, ps, r, first), ps, r, second), q, s) == Lookup(PutAll(t, ps, r, second), q, s)
  {
    PutAllLookup(PutAll(t, ps, r, first), ps, r, second, q, s);
    PutAllLookup(t, ps, r, first, q, s);
    PutAllLookup(t, ps, r, second, q, s);
  }

  /** An `enabled` list that is empty writes nothing. */
  lemma PutAllEmpty(t: Table, r: Resource, enabled: bool)
    ensures PutAll(t, [], r, enabled) == t
  {
  }

  /** The processed prefix of `s` with `e` appended unless it is already there:
      the inverse edge is added only when absent. */
  function Linked(s: seq<Entity>, e: Entity): (s': seq<Entity>)
    ensures e in s'
    ensures s <= s'
    ensures |s'| <= |s| + 1
  {
    if e in s then s else s + [e]
  }

  /** Identifiers of a list of resources. */
  function Ids(rs: seq<Resource>): (ids: set<string>)
  {
    set x | x in rs :: x.id
  }

  /** The sub-resource map after attaching `rs` in order: each is stored under
      its own identifier, a later one replacing an earlier one with the same id
      (what it stores is stated by `AttachStores`). */
  function Attach(m: map<string, Resource>, rs: seq<Resource>): (m': map<string, Resource>)
    ensures m'.Keys == m.Keys + Ids(rs)
    decreases |rs|
  {
    if rs == [] then m
    else
      var last := rs[|rs| - 1];
      var front := rs[..|rs| - 1];
      assert rs == front + [last];
      assert Ids(rs) == Ids(front) + {last.id};
      Attach(m, front)[last.id := last]
  }

  /** Keys not attached keep their entry; every attached key holds a resource
      of the list carrying that id; and the last resource with a given id wins. */
  lemma {:induction false} AttachStores(m: map<string, Resource>, rs: seq<Resource>)
    ensures forall k | k in m && k !in Ids(rs) :: Attach(m, rs)[k] == m[k]
    ensures forall k | k in Ids(rs) :: Attach(m, rs)[k] in rs && Attach(m, rs)[k].id == k
    ensures forall i | 0 <= i < |rs| && (forall j | i < j < |rs| :: rs[j].id != rs[i].id) :: Attach(m, rs)[rs[i].id] == rs[i]
    decreases |rs|
  {
    if rs != [] {
      var last := rs[|rs| - 1];
      var front := rs[..|rs| - 1];
      assert rs == front + [last];
      assert Ids(rs) == Ids(front) + {last.id};
      AttachStores(m, front);
    }
  }

  /** Attaching one more resource stores it under its id on top of the rest. */
  lemma AttachSnoc(m: map<string, Resource>, front: seq<Resource>, x: Resource)
    ensures Attach(m, front + [x]) == Attach(m, front)[x.id := x]
  {
    assert (front + [x])[..|front|] == front;
  }

  /** An actor node: a user, group or role (entity.go:10-15). */
  class Entity {
    const id: string
    var parents: seq<Entity>
    var children: seq<Entity>
    var permission: Table

    /** NewEntity (entity.go:19-33): the five buckets exist and are empty. */
    constructor (id: string)
      ensures this.id == id && parents == [] && children == []
      ensures permission == EmptyTable
      ensures forall p :: p in permission && permission[p] == map[]
      ensures forall p, r :: Decision(p, r) == None
    {
      this.id := id;
      parents := [];
      children := [];
      permission := EmptyTable;
      new;
      forall p: Permission ensures p in permission && permission[p] == map[] {
        AllPermissionsComplete(p);
      }
    }

    /** The stored decision for action `p` on resource `r`, if any. */
    function Decision(p: Permission, r: Resource): (d: Option<bool>)
      reads this`permission
      ensures d.Some? <==> p in permission && r in permission[p]
      ensures d.Some? ==> d.value == permission[p][r]
    {
      Lookup(permission, p, r)
    }

    /** Membership of `parent` among the parents, by identity (entity.go:135-137). */
    function ParentExists(parent: Entity): (b: bool)
      reads this
      ensures b <==> exists i :: 0 <= i < |parents| && parents[i] == parent
    {
      parent in parents
    }

    /** Membership of `child` among the children, by identity (entity.go:139-141). */
    function ChildExists(child: Entity): (b: bool)
      reads this
      ensures b <==> exists i :: 0 <= i < |children| && children[i] == child
    {
      child in children
    }

    /** Some entity of `cs` still lacks this one as a parent. */
    ghost predicate MissingAsParentOf(cs: seq<Entity>)
      reads cs
    {
      exists c :: c in cs && this !in c.parents
    }

    /** Some entity of `ps` still lacks this one as a child. */
    ghost predicate MissingAsChildOf(ps: seq<Entity>)
      reads ps
    {
      exists p :: p in ps && this !in p.children
    }

    /** CreateChild (entity.go:42-47). */
    method CreateChild(id: string) returns (child: Entity)
      modifies this`children
      ensures fresh(child) && child.id == id
      ensures child.parents == [this] && child.children == []
      ensures child.permission == EmptyTable
      ensures children == old(children) + [child]
    {
      child := new Entity(id);
      AddChildren([child]);
    }

    /** AddChildren (entity.go:56-63): the forward edges are appended
        unconditionally; each child gets this entity as a parent unless it
        already has it. The call back into AddParents adds nothing more,
        because the child is already among this entity's children. */
    method AddChildren(cs: seq<Entity>)
      modifies this`children, cs`parents
      ensures children == old(children) + cs
      ensures forall c | c in cs :: c.parents == Linked(old(c.parents), this)
      decreases if MissingAsParentOf(cs) then 1 else 0
    {
      children := children + cs;
      for i := 0 to |cs|
        invariant children == old(children) + cs
        invariant forall c | c in cs[..i] :: c.parents == Linked(old(c.parents), this)
        invariant forall c | c in cs[i..] && c !in cs[..i] :: c.parents == old(c.parents)
      {
        var child := cs[i];
        assert cs[..i + 1] == cs[..i] + [child];
        if !child.ParentExists(this) {
          assert child !in cs[..i];
          assert old(MissingAsParentOf(cs)) by {
            assert child in cs && this !in old(child.parents);
          }
          assert child in children;
          child.AddParents([this]);
        }
      }
    }

    /** AddParents (entity.go:72-79): symmetric to AddChildren. */
    method AddParents(ps: seq<Entity>)
      modifies this`parents, ps`children
      ensures parents == old(parents) + ps
      ensures forall p | p in ps :: p.children == Linked(old(p.children), this)
      decreases if MissingAsChildOf(ps) then 1 else 0
    {
      parents := parents + ps;
      for i := 0 to |ps|
        invariant parents == old(parents) + ps
        invariant forall p | p in ps[..i] :: p.children == Linked(old(p.children), this)
        invariant forall p | p in ps[i..] && p !in ps[..i] :: p.children == old(p.children)
      {
        var parent := ps[i];
        assert ps[..i + 1] == ps[..i] + [parent];
        if !parent.ChildExists(this) {
          assert parent !in ps[..i];
          assert old(MissingAsChildOf(ps)) by {
            assert parent in ps && this !in old(parent.children);
          }
          assert parent in parents;
          parent.AddChildren([this]);
        }
      }
    }

    /** Allow (entity.go:88-92): an explicit allow for every listed action. */
    method Allow(resource: Resource, permissions: seq<Permission>)
      modifies this`permission
      ensures permission == PutAll(old(permission), permissions, resource, true)
    {
      for i := 0 to |permissions|
        invariant permission == PutAll(old(permission), permissions[..i], resource, true)
      {
        AddPerm(permissions[i], resource, true);
        assert permissions[..i + 1][..i] == permissions[..i];
      }
      assert permissions[..|permissions|] == permissions;
    }

    /** Deny (entity.go:101-105): an explicit deny for every listed action. */
    method Deny(resource: Resource, permissions: seq<Permission>)
      modifies this`permission
      ensures permission == PutAll(old(permission), permissions, resource, false)
    {
      for i := 0 to |permissions|
        invariant permission == PutAll(old(permission), permissions[..i], resource, false)
      {
        AddPerm(permissions[i], resource, false);
        assert permissions[..i + 1][..i] == permissions[..i];
      }
      assert permissions[..|permissions|] == permissions;
    }

    /** AddPerm (entity.go:108-113): the single writer of the table. */
    method AddPerm(p: Permission, resource: Resource, enabled: bool)
      modifies this`permission
      ensures permission == Put(old(permission), p, resource, enabled)
    {
      if p !in permission {
        permission := permission[p := map[]];
      }
      permission := permission[p := permission[p][resource := enabled]];
    }

    method AddPermAll(resource: Resource, enabled: bool)
      modifies this`permission
      ensures permission == Put(old(permission), All, resource, enabled)
    {
      AddPerm(All, resource, enabled);
    }

    method AddPermCreate(resource: Resource, enabled: bool)
      modifies this`permission
      ensures permission == Put(old(permission), Create, resource, enabled)
    {
      AddPerm(Create, resource, enabled);
    }

    method AddPermRead(resource: Resource, enabled: bool)
      modifies this`permission
      ensures permission == Put(old(permission), Read, resource, enabled)
    {
      AddPerm(Read, resource, enabled);
    }

    method AddPermUpdate(resource: Resource, enabled: bool)
      modifies this`permission
      ensures permission == Put(old(permission), Update, resource, enabled)
    {
      AddPerm(Update, resource, enabled);
    }

    method AddPermDelete(resource: Resource, enabled: bool)
      modifies this`permission
      ensures permission == Put(old(permission), Delete, resource, enabled)
    {
      AddPerm(Delete, resource, enabled);
    }
  }

  /** A protected object in a containment tree (resource.go:4-9). */
  class Resource {
    const id: string
    var parent: Resource?
    var subResources: map<string, Resource>
    var owners: seq<Entity>

    /** NewResource (resource.go:17-23): detached, no subs, no owners. */
    constructor (id: string)
      ensures this.id == id && parent == null && subResources == map[] && owners == []
    {
      this.id := id;
      parent := null;
      subResources := map[];
      owners := [];
    }

    /** CreateSub (resource.go:32-38). */
    method CreateSub(id: string) returns (sub: Resource)
      modifies this`subResources
      ensures fresh(sub) && sub.id == id && sub.parent == this
      ensures sub.subResources == map[] && sub.owners == []
      ensures subResources == old(subResources)[id := sub]
      ensures GetSub(id) == sub
    {
      sub := new Resource(id);
      var _ := AddSubs([sub]);
      assert Ids([sub]) == {sub.id};
    }

    /** GetSub (resource.go:47-49): a direct, non-recursive lookup; null when absent. */
    function GetSub(id: string): (sub: Resource?)
      reads this
      ensures sub != null <==> id in subResources
      ensures sub != null ==> sub == subResources[id]
    {
      if id in subResources then subResources[id] else null
    }

    /** CreateSubs (resource.go:57-62): one fresh direct child per identifier. */
    method CreateSubs(ids: seq<string>) returns (self: Resource)
      modifies this`subResources
      ensures self == this
      ensures subResources.Keys == old(subResources).Keys + set k | k in ids
      ensures forall k | k in old(subResources) && k !in ids :: subResources[k] == old(subResources)[k]
      ensures forall k | k in ids ::
        && fresh(subResources[k]) && subResources[k].id == k && subResources[k].parent == this
        && subResources[k].subResources == map[] && subResources[k].owners == []
    {
      for i := 0 to |ids|
        invariant subResources.Keys == old(subResources).Keys + set k | k in ids[..i]
        invariant forall k | k in old(subResources) && k !in ids[..i] :: subResources[k] == old(subResources)[k]
        invariant forall k | k in ids[..i] ::
          && fresh(subResources[k]) && subResources[k].id == k && subResources[k].parent == this
          && subResources[k].subResources == map[] && subResources[k].owners == []
      {
        assert ids[..i + 1] == ids[..i] + [ids[i]];
        var _ := CreateSub(ids[i]);
      }
      assert ids[..|ids|] == ids;
      self := this;
    }

    /** AddSubs (resource.go:65-72): the only writer of `parent` and
        `subResources`. A previous parent's map is not touched, so re-parenting
        leaves a stale entry there (the frame below excludes it). */
    method AddSubs(resources: seq<Resource>) returns (self: Resource)
      modifies this`subResources, resources`parent
      ensures self == this
      ensures forall x | x in resources :: x.parent == this
      ensures subResources == Attach(old(subResources), resources)
    {
      for i := 0 to |resources|
        invariant forall x | x in resources[..i] :: x.parent == this
        invariant subResources == Attach(old(subResources), resources[..i])
      {
        var resource := resources[i];
        assert resources[..i + 1] == resources[..i] + [resource];
        AttachSnoc(old(subResources), resources[..i], resource);
        resource.parent := this;
        subResources := subResources[resource.id := resource];
      }
      assert resources[..|resources|] == resources;
      self := this;
    }

    /** AddOwners (resource.go:81-84): appended in order, duplicates kept. */
    method AddOwners(owners: seq<Entity>) returns (self: Resource)
      modifies this`owners
      ensures self == this
      ensures this.owners == old(this.owners) + owners
    {
      this.owners := this.owners + owners;
      self := this;
    }
  }

  /** Parent and child links agree within `xs`: `b` lists `a` as a parent
      exactly when `a` lists `b` as a child. */
  ghost predicate Symmetric(xs: set<Entity>)
    reads xs
  {
    forall a, b | a in xs && b in xs :: b in a.children <==> a in b.parents
  }

  /** AddChildren keeps the links of a symmetric group symmetric (entity.go:56-63). */
  method AddChildrenKeepsSymmetry(ghost xs: set<Entity>, e: Entity, cs: seq<Entity>)
    requires Symmetric(xs) && e in xs && forall c | c in cs :: c in xs
    modifies e`children, cs`parents
    ensures Symmetric(xs)
  {
    e.AddChildren(cs);
  }

  /** AddParents keeps the links of a symmetric group symmetric (entity.go:72-79). */
  method AddParentsKeepsSymmetry(ghost xs: set<Entity>, e: Entity, ps: seq<Entity>)
    requires Symmetric(xs) && e in xs && forall p | p in ps :: p in xs
    modifies e`parents, ps`children
    ensures Symmetric(xs)
  {
    e.AddParents(ps);
  }

  /** CreateChild extends a symmetric group by a new child and keeps it
      symmetric (entity.go:42-47). */
  method CreateChildKeepsSymmetry(ghost xs: set<Entity>, e: Entity, id: string) returns (child: Entity)
    requires Symmetric(xs) && e in xs
    modifies e`children
    ensures child !in xs && Symmetric(xs + {child})
  {
    child := e.CreateChild(id);
  }
}
